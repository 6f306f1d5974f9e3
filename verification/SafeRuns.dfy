/** Log matching with no hypothesis on leaders, where election safety supplies it. */
module SafeRuns {
  import opened Cluster
  import opened LogMatching
  import opened ElectionSafety

  /** Over lossless channels in order, without crashes and with timely votes, two logs with
      the same term at an index are identical through that index. */
  lemma LogsMatchOutright(run: Run, k: nat, a: nat, b: nat, i: nat)
    requires IsRun(run) && Fifo(run) && Lossless(run) && Timely(run) && k < |run.states|
    requires var s := run.states[k];
      && IsServer(s, a) && IsServer(s, b) && a < |s.servers| && b < |s.servers|
      && i < |s.servers[a].log| && i < |s.servers[b].log|
      && s.servers[a].log[i].term == s.servers[b].log[i].term
    ensures run.states[k].servers[a].log[..i + 1] == run.states[k].servers[b].log[..i + 1]
  {
    AtMostOneLeader(run, |run.states| - 1);
    LogsMatch(run, k, a, b, i);
  }
}
