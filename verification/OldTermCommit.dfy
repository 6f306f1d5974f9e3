/** A run in which a leader commits an entry of an earlier term by counting replicas: server 2
    takes over from server 1 with the entry that server 1 replicated to it, and counts the
    acknowledgement of its heartbeat. */
module OldTermCommit {
  import opened LogEntries
  import opened Messages
  import opened RaftServer
  import opened Cluster
  import opened Scenes
  import opened FirstEntry
  import opened Deviations
  import opened ElectionSafety

  // ----- servers of the run

  /** Server 2 campaigns in term 2 with the entry of term 1. */
  function Rival(votes: nat): Server {
    Backup().(status := Candidate, term := 2, votedFor := 2, voteCount := votes)
  }

  /** Server 1 after it voted for server 2. */
  function Supporter(): Server {
    Lead(1, 0, -1, -1).(status := Follower, term := 2, votedFor := 2)
  }

  function Successor(matched: Index, commit: Index): Server {
    InOffice(Rival(2)).(matched := [-1, matched, -1, -1], commit := commit)
  }

  function Appeal(): Msg { RequestVote(2, 2, 0, 1) }

  function Pulse(): Msg { AppendEntries(2, 2, 0, 1, [], -1) }

  // ----- single reactions

  lemma Supports()
    ensures React(Lead(1, 0, -1, -1), Receive(2, Appeal()))
            == Outcome(Supporter(), [Envelope(2, VoteResponse(2, true))])
  {}

  lemma Succeeds()
    ensures React(Rival(1), Receive(1, VoteResponse(2, true))) == ToLeader(Rival(2))
    ensures InOffice(Rival(2)) == Successor(-1, -1)
  {}

  lemma PulseFor(q: nat)
    requires q <= 3
    ensures MessageFor(InOffice(Rival(2)), Heartbeat([]), q) == [Pulse()]
  {}

  lemma PulseMail()
    ensures Spreads(ToLeader(Rival(2)).sent, 2, Pulse())
  {
    hide MessageFor, Fanout, Pulse;
    forall q: nat ensures MailsAs(ToLeader(Rival(2)).sent, 2, Pulse(), q) {
      FanoutTo(InOffice(Rival(2)), Heartbeat([]), 3, q);
      if q <= 3 { PulseFor(q); }
    }
  }

  lemma Acknowledges()
    ensures React(Supporter(), Receive(2, Pulse()))
            == Outcome(Supporter(), [Envelope(2, AppendResponse(2, true, 1, 0))])
    ensures React(Successor(-1, -1), Receive(1, AppendResponse(2, true, 1, 0))) == Outcome(Successor(0, -1), [])
  {}

  lemma CommitsOld()
    ensures Replicate(Successor(0, -1)).server == Successor(0, 0) && !AsCommented(Successor(0, -1), 0)
  {
    hide Fanout;
    var v := Successor(0, -1);
    assert v.matched[1] == 0 && v.matched[2] == -1 && v.matched[3] == -1;
    assert Acks(v.matched, 1, 0) == 1;
    assert Acks(v.matched, 2, 0) == 1;
    assert Acks(v.matched, 3, 0) == 1;
    assert AdvanceCommit(0, 1, v.matched, 3) == 0;
    assert !Eligible(v, 0);
  }

  // ----- the run

  /** Server 1 votes for server 2 in term 2. */
  lemma Supported() returns (run: Run, p: Scene)
    ensures Reached(run, STRICT, p) && p.net.Keys == LINKS
    ensures {1, 2} <= p.servers.Keys && p.servers[1] == Supporter() && p.servers[2] == Rival(1)
    ensures Box(p, 1, 2) == [VoteResponse(2, true)] && Box(p, 2, 1) == []
  {
    hide Reached;
    run, p := Counts();
    run, p := StartsElection(run, STRICT, p, 2, Rival(1));
    Supports();
    run, p := Answers(run, STRICT, p, 2, 1, 0, Supporter(), Envelope(2, VoteResponse(2, true)));
  }

  /** Server 2 takes office. */
  lemma Elected() returns (run: Run, p: Scene)
    ensures Reached(run, STRICT, p) && p.net.Keys == LINKS
    ensures {1, 2} <= p.servers.Keys && p.servers[1] == Supporter() && p.servers[2] == Successor(-1, -1)
    ensures Box(p, 1, 2) == [] && Box(p, 2, 1) == [Pulse()]
  {
    hide Reached, ToLeader;
    run, p := Supported();
    Succeeds();
    PulseMail();
    run, p := TakesSeat(run, STRICT, p, 1, 2, 0, Rival(2), Pulse());
  }

  /** Server 1 acknowledges its heartbeat. */
  lemma Succeeded() returns (run: Run, p: Scene)
    ensures Reached(run, STRICT, p) && p.net.Keys == LINKS
    ensures {1, 2} <= p.servers.Keys && p.servers[2] == Successor(0, -1)
  {
    hide Reached;
    run, p := Elected();
    Acknowledges();
    run, p := Answers(run, STRICT, p, 2, 1, 0, Supporter(), Envelope(2, AppendResponse(2, true, 1, 0)));
    run, p := Hears(run, STRICT, p, 1, 2, 0, Successor(0, -1));
  }

  lemma Commits() returns (early: Run, p: Scene, run: Run, p': Scene)
    ensures Reached(early, STRICT, p) && Reached(run, STRICT, p') && Continues(early, run)
    ensures 2 in p.servers && p.servers[2] == Successor(0, -1)
    ensures 2 in p'.servers && p'.servers[2] == Successor(0, 0)
  {
    hide Reached, Replicate;
    early, p := Succeeded();
    CommitsOld();
    run, p' := Works(early, STRICT, p, 2, Successor(0, 0));
  }

  /** A leader of term 2 commits an entry of term 1, which the rule in the comment forbids,
      in a run without loss, reordering, crash or late vote. */
  lemma CommitsOldTerm() returns (run: Run, j: nat)
    ensures IsRun(run) && Fifo(run) && Lossless(run) && Timely(run)
    ensures j < |run.states| && LeadsIn(run.states[j], 2, 2) && LeadsIn(Last(run), 2, 2)
    ensures var v, w := run.states[j].servers[2], Last(run).servers[2];
      && v.commit == -1 && w.commit == 0 && v.log == w.log && |w.log| == 1 && w.log[0].term == 1
      && Indexed(v) && !AsCommented(v, w.commit)
  {
    var early, p, p';
    early, p, run, p' := Commits();
    Obeyed(run, STRICT);
    CommitsOld();
    j := |early.states| - 1;
    assert run.states[j] == Last(early);
  }
}
