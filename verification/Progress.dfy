/** What the handlers achieve when their messages do arrive. */
module Progress {
  import opened LogEntries
  import opened Messages
  import opened RaftServer
  import opened CatchUp
  import opened Deviations

  // ----- crashes

  /** While crashed, a server drops all mail and keeps all memory. */
  lemma {:induction false} CrashedServerIsInert(v: Server, ms: seq<Msg>)
    ensures After(React(v, Crash).server, ms) == React(v, Crash).server
    ensures React(After(React(v, Crash).server, ms), Recover).server == v.(alive := true)
    decreases |ms|
  {
    if ms != [] { CrashedServerIsInert(v, ms[..|ms| - 1]); }
  }

  // ----- elections

  predicate AllVotes(ms: seq<Msg>, term: nat) {
    forall i :: 0 <= i < |ms| ==> ms[i].VoteResponse? && ms[i].term <= term
  }

  function Granted(ms: seq<Msg>): nat
    decreases |ms|
  {
    if ms == [] then 0
    else Granted(ms[..|ms| - 1]) + if ms[|ms| - 1].VoteResponse? && ms[|ms| - 1].granted then 1 else 0
  }

  /** The server after handling a sequence of messages. */
  function After(v: Server, ms: seq<Msg>): Server
    decreases |ms|
  {
    if ms == [] then v
    else
      var u, m := After(v, ms[..|ms| - 1]), ms[|ms| - 1];
      if Readable(u, m) then React(u, Receive(0, m)).server else u
  }

  predicate Installed(w: Server) {
    && w.status == Leader && w.votedFor == 0 && Indexed(w)
    && forall q :: 0 <= q <= w.peers ==> w.next[q] == |w.log| && w.matched[q] == -1
  }

  lemma CountsOne(u: Server, m: Msg)
    requires m.VoteResponse? && m.term <= u.term && u.alive
    ensures var w := OnRpc(u, m).server; var votes := u.voteCount + if m.granted then 1 else 0;
      if u.status != Candidate then w == u
      else w.term == u.term && w.log == u.log && w.peers == u.peers && w.alive && w.voteCount == votes
           && if Majority(votes, u.peers) then Installed(w) else w.status == Candidate
  {}

  /** A candidate that handles any sequence of vote responses, none of a newer term, becomes
      leader exactly if its votes with the granted ones among them are a majority, whatever
      their order and however old they are; it then starts every follower at the end of its
      own log, and otherwise still campaigns with all votes counted. */
  lemma {:induction false} VotesDecide(v: Server, ms: seq<Msg>)
    requires v.alive && v.status == Candidate && !Majority(v.voteCount, v.peers) && AllVotes(ms, v.term)
    ensures var w := After(v, ms);
      && w.term == v.term && w.log == v.log && w.peers == v.peers && w.alive
      && if Majority(v.voteCount + Granted(ms), v.peers) then Installed(w)
         else w.status == Candidate && w.voteCount == v.voteCount + Granted(ms)
    decreases |ms|
  {
    if ms != [] {
      VotesDecide(v, ms[..|ms| - 1]);
      CountsOne(After(v, ms[..|ms| - 1]), ms[|ms| - 1]);
    }
  }

  // ----- commit and application

  /** A heartbeat to a follower that holds the leader's log brings its commit index up to
      the leader's, and the reply tells the leader that it holds the whole log. */
  lemma HeartbeatCommits(lead: Server, fol: Server)
    requires Pair(lead, fol) && fol.log == lead.log && lead.next[fol.rank] <= |lead.log|
    requires lead.commit < |lead.log|
    ensures var o := OnRpc(fol, HeartbeatFor(lead, fol.rank)); var w := o.server;
      var lead' := Answering(lead, fol.rank, o); var q := fol.rank;
      && w.log == lead.log && w.commit == Max(fol.commit, lead.commit) && w.term == lead.term
      && |lead'.matched| == |lead.matched| && |lead'.next| == |lead.next|
      && lead'.matched[q] == |lead.log| - 1 && lead'.next[q] == |lead.log|
  {
    assert fol.log[..lead.next[fol.rank]] == lead.log[..lead.next[fol.rank]];
    CommonPrefixIsLongest(lead.log, fol.log, lead.next[fol.rank]);
    HeartbeatClaimIsSoundIff(lead, fol);
    AgreedBelow(lead, fol);
    HeartbeatCommit(fol, HeartbeatFor(lead, fol.rank));
  }

  lemma HeartbeatCommit(v: Server, m: Msg)
    requires m.AppendEntries? && m.entries == [] && v.alive && v.term <= m.term && Fits(v, m)
    ensures var w := OnRpc(v, m).server;
      w.term == m.term
      && w.commit == if m.leaderCommit <= v.commit then v.commit
                     else if m.leaderCommit < |v.log| then m.leaderCommit else |v.log| - 1
  {}

  /** Rounds of `apply_rules`. */
  function Rounds(v: Server, n: nat): Outcome {
    if n == 0 then Outcome(v, [])
    else
      var before := Rounds(v, n - 1);
      var o := ApplyRules(before.server);
      Outcome(o.server, before.sent + o.sent)
  }

  /** Committed entries are applied one at a time, in order, none twice and none skipped;
      a leader answers the client of each as it applies it, and others answer nobody. */
  lemma {:induction false} AppliedInOrder(v: Server, n: nat)
    requires v.applied + n <= v.commit < |v.log|
    ensures var o := Rounds(v, n);
      && o.server == v.(applied := v.applied + n)
      && |o.sent| == (if v.status == Leader then n else 0)
      && forall i :: 0 <= i < |o.sent| ==>
           o.sent[i] == Envelope(v.log[v.applied + 1 + i].client, ClientResponse(true, 0))
  {
    if n > 0 { AppliedInOrder(v, n - 1); }
  }

  /** And nothing beyond the commit index is applied. */
  lemma {:induction false} AppliedAtMostCommitted(v: Server, n: nat)
    requires v.applied <= v.commit
    ensures Rounds(v, n).server.applied == if v.applied + n <= v.commit then v.applied + n else v.commit
    ensures Rounds(v, n).server == v.(applied := Rounds(v, n).server.applied)
  {
    if n > 0 { AppliedAtMostCommitted(v, n - 1); }
  }
}
