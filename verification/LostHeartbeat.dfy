/** Why election safety needs channels that neither lose nor reorder, and no crashes: a new
    leader's vote for a rival of its own term must not arrive without its heartbeat. */
module LostHeartbeat {
  import opened Messages
  import opened RaftServer
  import opened Cluster
  import opened AnyNetwork
  import opened Elections
  import opened ElectionSafety
  import opened Scenes

  const LINKS := {Link(1, 2), Link(2, 1), Link(1, 3), Link(3, 1)}

  /** Server 1 after it won term 1 and voted again. */
  function Generous(): Server {
    Chief(1, 1, []).(votedFor := 3)
  }

  lemma VotesAgain()
    ensures React(Chief(1, 1, []), Receive(3, Request1(1, 3)))
            == Outcome(Generous(), [Envelope(3, VoteResponse(1, true))])
    ensures React(Running(3, 1, 1), Receive(1, Request1(1, 1)))
            == Outcome(Running(3, 1, 1), [Envelope(1, VoteResponse(1, false))])
  {}

  /** The heartbeat of server 1 and, behind it, its vote are on their way to candidate 3. */
  predicate Poised(p: Scene) {
    && {1, 3} <= p.servers.Keys && p.servers[1] == Generous() && p.servers[3] == Running(3, 1, 1)
    && Link(1, 3) in p.net && p.net[Link(1, 3)] == [Beacon(1, 1), VoteResponse(1, true)]
  }

  /** Servers 1 and 3 campaign in term 1, and server 1 wins. */
  lemma FirstLeads(rules: Rules) returns (run: Run, p: Scene)
    ensures Reached(run, rules, p) && p.net.Keys == LINKS && {1, 3} <= p.servers.Keys
    ensures p.servers[1] == Chief(1, 1, []) && p.servers[3] == Running(3, 1, 1)
    ensures Box(p, 1, 3) == [Request1(1, 1), Beacon(1, 1)] && Box(p, 3, 1) == [Request1(1, 3)]
  {
    hide Reached;
    run, p := FirstChosen(rules, map[], LINKS, 2);
    run, p := StartsElection(run, rules, p, 3, Running(3, 1, 1));
    run, p := Wins(run, rules, p, 2, 1, 1, 1);
  }

  lemma PoisedRun(rules: Rules) returns (run: Run, p: Scene)
    ensures Reached(run, rules, p) && Poised(p)
  {
    hide Reached;
    run, p := FirstLeads(rules);
    VotesAgain();
    run, p := Answers(run, rules, p, 3, 1, 0, Generous(), Envelope(3, VoteResponse(1, true)));
    run, p := Answers(run, rules, p, 1, 3, 0, Running(3, 1, 1), Envelope(1, VoteResponse(1, false)));
  }

  /** A server that voted for itself and won gives its vote to another candidate of the term,
      in a run without loss, reordering, crash or late vote. */
  lemma LeaderVotesAgain() returns (run: Run)
    ensures IsRun(run) && Fifo(run) && Lossless(run) && Timely(run)
    ensures var s := Last(run);
      && LeadsIn(s, 1, 1)
      && (exists i :: 0 <= i < |s.hist.wins| && s.hist.wins[i].term == s.hist.wins[i].rank == 1
                      && 1 in s.hist.wins[i].voters)
      && (exists g :: g in s.hist.grants && g.voter == g.term == 1 && g.candidate == 3)
  {
    var p;
    run, p := PoisedRun(STRICT);
    Obeyed(run, STRICT);
    var k: nat := |run.states| - 1;
    LeadersHaveWon(run, k, 1);
    var i :| 0 <= i < |Last(run).hist.wins| && Last(run).hist.wins[i].term == 1 && Last(run).hist.wins[i].rank == 1;
    ElectionRestriction(run, k, i);
    ElectedRun(run, k);
    assert InFlight(Last(run), Link(1, 3), VoteResponse(1, true));
    assert VoteMsgSound(Last(run), Link(1, 3), VoteResponse(1, true));
  }

  /** Servers 1 and 3 lead term 1 at once. */
  ghost predicate TwoLead(s: State) {
    LeadsIn(s, 1, 1) && LeadsIn(s, 3, 1)
  }

  /** The vote stands at i of the queue to a candidate that waits for it. */
  predicate Deciding(rules: Rules, p: Scene, i: nat) {
    && {1, 3} <= p.servers.Keys && p.servers[1] == Generous() && p.servers[3] == Running(3, 1, 1)
    && Link(1, 3) in p.net && i < |p.net[Link(1, 3)]| && p.net[Link(1, 3)][i] == VoteResponse(1, true)
    && (rules.fifo ==> i == 0)
  }

  lemma Elects(run: Run, rules: Rules, p: Scene, i: nat) returns (longer: Run, p': Scene)
    requires Reached(run, rules, p) && Deciding(rules, p, i)
    ensures Reached(longer, rules, p') && {1, 3} <= p'.servers.Keys
    ensures p'.servers[1] == Generous() && p'.servers[3] == Chief(3, 1, [])
  {
    hide Reached;
    WinningVote(3, 1, 1, 1);
    BeaconMail(Running(3, 1, 2));
    longer, p' := TakesSeat(run, rules, p, 1, 3, i, Running(3, 1, 2), Beacon(1, 3));
  }

  /** Two leaders of a term: the run is not ordered, lossless and timely. */
  lemma NotSafe(run: Run, rules: Rules, p: Scene)
    requires Reached(run, rules, p) && {1, 3} <= p.servers.Keys
    requires p.servers[1] == Generous() && p.servers[3] == Chief(3, 1, [])
    ensures TwoLead(Last(run)) && !(Fifo(run) && Lossless(run) && Timely(run))
  {
    if Fifo(run) && Lossless(run) && Timely(run) { AtMostOneLeader(run, |run.states| - 1); }
  }

  /** The vote overtakes the heartbeat: nothing is lost, nothing repeated, no one crashes. */
  lemma TwoLeadersByOvertaking() returns (run: Run)
    ensures IsRun(run) && Lossless(run) && SingleCopy(run) && Timely(run) && !Fifo(run)
    ensures TwoLead(Last(run))
  {
    var rules := STRICT.(fifo := false);
    var p;
    run, p := PoisedRun(rules);
    run, p := Elects(run, rules, p, 1);
    Obeyed(run, rules);
    NotSafe(run, rules, p);
  }

  /** The heartbeat is lost: over channels in order, and no one crashes. */
  lemma TwoLeadersByLoss() returns (run: Run)
    ensures IsRun(run) && Fifo(run) && Timely(run) && NoCrash(run) && !Lossless(run)
    ensures TwoLead(Last(run))
  {
    var rules := STRICT.(noLoss := false);
    var p;
    run, p := PoisedRun(rules);
    run, p := Loses(run, rules, p, Link(1, 3), 0);
    run, p := Elects(run, rules, p, 0);
    Obeyed(run, rules);
    NotSafe(run, rules, p);
  }

  lemma Naps()
    ensures React(Running(3, 1, 1), Crash) == Outcome(Running(3, 1, 1).(alive := false), [])
    ensures React(Running(3, 1, 1).(alive := false), Receive(1, Beacon(1, 1)))
            == Outcome(Running(3, 1, 1).(alive := false), [])
    ensures React(Running(3, 1, 1).(alive := false), Recover) == Outcome(Running(3, 1, 1), [])
  {}

  /** Server 3 crashes, drops the heartbeat, and recovers. */
  lemma DropsHeartbeat(run: Run, rules: Rules, p: Scene) returns (longer: Run, p': Scene)
    requires Reached(run, rules, p) && !rules.noCrash && Poised(p)
    ensures Reached(longer, rules, p') && Deciding(rules, p', 0)
  {
    hide Reached;
    Naps();
    longer, p' := Does(run, rules, p, 3, Crash, Outcome(Running(3, 1, 1).(alive := false), []), 0, []);
    longer, p' := Hears(longer, rules, p', 1, 3, 0, Running(3, 1, 1).(alive := false));
    longer, p' := Does(longer, rules, p', 3, Recover, Outcome(Running(3, 1, 1), []), 0, []);
  }

  /** A crash is enough: no message is lost on the network, but the server drops one. */
  lemma TwoLeadersByCrash() returns (run: Run)
    ensures IsRun(run) && Fifo(run) && Timely(run) && NoLoss(run) && !Lossless(run)
    ensures TwoLead(Last(run))
  {
    var rules := STRICT.(noCrash := false);
    var p;
    run, p := PoisedRun(rules);
    run, p := DropsHeartbeat(run, rules, p);
    run, p := Elects(run, rules, p, 0);
    Obeyed(run, rules);
    NotSafe(run, rules, p);
  }
}
