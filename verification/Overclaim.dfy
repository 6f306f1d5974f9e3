/** Why durability needs a single leadership: a run in which a new leader believes the reply to
    its heartbeat, commits an entry that it alone holds, and tells the client so. */
module Overclaim {
  import opened LogEntries
  import opened Messages
  import opened RaftServer
  import opened Cluster
  import opened SingleLeader
  import opened Scenes
  import opened ElectionSafety

  // ----- servers of the run

  /** Server 1 after its leadership. */
  function Deposed(): Server {
    Chief(1, 1, [EntryOf(1, 4)]).(status := Follower, term := 2)
  }

  /** Server 3 after the reply of server 1 to its heartbeat. */
  function Misled(log: Log, commit: Index, applied: Index): Server {
    Chief(3, 2, log).(
      next := [0, 1, 0, 0], matched := [-1, 0, -1, -1], commit := commit, applied := applied)
  }

  // ----- single reactions

  lemma IgnoresVote(r: nat, t: nat, src: nat, log: Log, granted: bool)
    ensures React(Chief(r, t, log), Receive(src, VoteResponse(t, granted))) == Outcome(Chief(r, t, log), [])
  {}

  lemma Deposing()
    ensures React(Chief(1, 1, [EntryOf(1, 4)]), Receive(3, Request1(2, 3)))
            == Outcome(Deposed(), [Envelope(3, VoteResponse(2, false))])
  {}

  /** An empty AppendEntries is accepted, and the reply reports the follower's own entry. */
  lemma Overclaiming()
    ensures React(Deposed(), Receive(3, Beacon(2, 3)))
            == Outcome(Deposed(), [Envelope(3, AppendResponse(2, true, 1, 0))])
  {}

  lemma RejectsOld(log: Log)
    ensures React(Chief(3, 2, log), Receive(1, Beacon(1, 1)))
            == Outcome(Chief(3, 2, log), [Envelope(1, AppendResponse(2, false, 3, LastIndex(log)))])
  {}

  lemma Misleading(log: Log)
    ensures React(Chief(3, 2, log), Receive(1, AppendResponse(2, true, 1, 0))) == Outcome(Misled(log, -1, -1), [])
  {}

  /** Its own entry. */
  const OWN := [EntryOf(2, 5)]

  /** Server 3 counts itself and server 1, and commits. */
  lemma MisledCommits()
    ensures Replicate(Misled(OWN, -1, -1)).server == Misled(OWN, 0, -1)
  {
    hide Fanout;
    var acks := Misled(OWN, -1, -1).matched;
    assert acks[1] == 0 && acks[2] == -1 && acks[3] == -1;
    assert Acks(acks, 1, 0) == 1 && Acks(acks, 1, 1) == 0;
    assert Acks(acks, 2, 0) == 1 && Acks(acks, 2, 1) == 0;
    assert AdvanceCommit(0, 1, acks, 3) == 0;
  }

  lemma MisledAnswers()
    ensures React(Misled(OWN, 0, -1), ApplyNext)
            == Outcome(Misled(OWN, 0, 0), [Envelope(5, ClientResponse(true, 0))])
  {}

  // ----- the whole run

  const LINKS := {Link(1, 2), Link(2, 1), Link(1, 3), Link(3, 1), Link(3, 2), Link(2, 3),
                  Link(4, 1), Link(5, 3), Link(3, 5)}

  const ASKERS := map[4 := Asker(4, 1, false, 0, 0), 5 := Asker(5, 3, false, 0, 0)]

  /** Server 1 wins term 1, and is asked. */
  lemma FirstAsked() returns (run: Run, p: Scene)
    ensures Reached(run, STRICT, p) && p.net.Keys == LINKS
    ensures p.servers == map[1 := Chief(1, 1, []), 2 := Pledged(2, 1, 1), 3 := Fresh(3)]
    ensures 5 in p.clients && p.clients[5] == Asker(5, 3, false, 0, 0)
    ensures Box(p, 1, 3) == [Request1(1, 1), Beacon(1, 1)] && Box(p, 4, 1) == [ClientRequest(Asked(4))]
    ensures forall l :: l in p.net && l.src != 1 && l.src != 4 ==> p.net[l] == []
  {
    hide Reached;
    run, p := FirstReign(STRICT, ASKERS, LINKS, 2);
    run, p := StartsAsking(run, STRICT, p, 4, 1);
  }

  /** It logs the request and never replicates it. */
  lemma FirstLogs() returns (run: Run, p: Scene)
    ensures Reached(run, STRICT, p) && p.net.Keys == LINKS
    ensures p.servers == map[1 := Chief(1, 1, [EntryOf(1, 4)]), 2 := Pledged(2, 1, 1), 3 := Fresh(3)]
    ensures 5 in p.clients && p.clients[5] == Asker(5, 3, false, 0, 0)
    ensures Box(p, 1, 3) == [Request1(1, 1), Beacon(1, 1)]
    ensures forall l :: l in p.net && l.src != 1 ==> p.net[l] == []
  {
    hide Reached;
    run, p := FirstAsked();
    LogsRequest(Chief(1, 1, []), 4);
    run, p := Hears(run, STRICT, p, 4, 1, 0, Chief(1, 1, [EntryOf(1, 4)]));
  }

  /** Server 3 votes for it, and then campaigns in term 2. */
  lemma Challenge() returns (run: Run, p: Scene)
    ensures Reached(run, STRICT, p) && p.net.Keys == LINKS
    ensures p.servers == map[1 := Chief(1, 1, [EntryOf(1, 4)]), 2 := Pledged(2, 1, 1), 3 := Running(3, 2, 1)]
    ensures 5 in p.clients && p.clients[5] == Asker(5, 3, false, 0, 0)
    ensures Box(p, 1, 3) == [Beacon(1, 1)] && Box(p, 3, 2) == [Request1(2, 3)]
    ensures Box(p, 3, 1) == [VoteResponse(1, true), Request1(2, 3)]
    ensures Box(p, 2, 3) == Box(p, 5, 3) == Box(p, 3, 5) == []
  {
    hide Reached, Chief, Beacon;
    run, p := FirstLogs();
    Votes(3, 1, Fresh(3), 1);
    run, p := Answers(run, STRICT, p, 1, 3, 0, Pledged(3, 1, 1), Envelope(1, VoteResponse(1, true)));
    run, p := StartsElection(run, STRICT, p, 3, Running(3, 2, 1));
  }

  /** Server 3 wins term 2. */
  lemma SecondReign() returns (run: Run, p: Scene)
    ensures Reached(run, STRICT, p) && p.net.Keys == LINKS
    ensures p.servers == map[1 := Chief(1, 1, [EntryOf(1, 4)]), 2 := Pledged(2, 2, 3), 3 := Chief(3, 2, [])]
    ensures 5 in p.clients && p.clients[5] == Asker(5, 3, false, 0, 0)
    ensures Box(p, 1, 3) == [Beacon(1, 1)] && Box(p, 5, 3) == Box(p, 3, 5) == []
    ensures Box(p, 3, 1) == [VoteResponse(1, true), Request1(2, 3), Beacon(2, 3)]
  {
    hide Reached;
    run, p := Challenge();
    Votes(2, 2, Pledged(2, 1, 1), 3);
    run, p := Answers(run, STRICT, p, 3, 2, 0, Pledged(2, 2, 3), Envelope(3, VoteResponse(2, true)));
    run, p := Wins(run, STRICT, p, 2, 3, 2, 2);
  }

  const REST := {Link(1, 3), Link(3, 1), Link(3, 5)}

  /** What matters from here on. */
  function Remembered(p: Scene): Scene {
    p.(clients := map[], net := map l | l in REST :: Box(p, l.src, l.dst))
  }

  predicate Stands(p: Scene, first: Server, third: Server) {
    && p.servers == map[1 := first, 2 := Pledged(2, 2, 3), 3 := third]
    && p.net.Keys == REST && Box(p, 3, 5) == []
  }

  /** Server 3 leads term 2 with this log, and server 1 has not heard of it yet. */
  predicate Rivals(p: Scene, log: Log) {
    && Stands(p, Chief(1, 1, [EntryOf(1, 4)]), Chief(3, 2, log))
    && Box(p, 1, 3) == [Beacon(1, 1)] && Box(p, 3, 1) == [VoteResponse(1, true), Request1(2, 3), Beacon(2, 3)]
  }

  lemma SecondIdles() returns (run: Run, p: Scene)
    ensures Reached(run, STRICT, p) && Rivals(p, [])
  {
    hide Reached;
    run, p := SecondReign();
    Forgets(run, STRICT, p, Remembered(p));
    p := Remembered(p);
  }

  /** It logs another request. */
  lemma SecondLogs() returns (run: Run, p: Scene)
    ensures Reached(run, STRICT, p) && Rivals(p, OWN)
  {
    hide Reached;
    run, p := SecondReign();
    run, p := StartsAsking(run, STRICT, p, 5, 3);
    LogsRequest(Chief(3, 2, []), 5);
    run, p := Hears(run, STRICT, p, 5, 3, 0, Chief(3, 2, OWN));
    Forgets(run, STRICT, p, Remembered(p));
    p := Remembered(p);
  }

  /** Server 1 ignores a late vote, and steps down. */
  lemma FirstDeposed(run: Run, p: Scene, log: Log) returns (longer: Run, p': Scene)
    requires Reached(run, STRICT, p) && Rivals(p, log)
    ensures Reached(longer, STRICT, p') && Stands(p', Deposed(), Chief(3, 2, log))
    ensures Box(p', 1, 3) == [Beacon(1, 1), VoteResponse(2, false)] && Box(p', 3, 1) == [Beacon(2, 3)]
  {
    hide Reached;
    IgnoresVote(1, 1, 3, [EntryOf(1, 4)], true);
    longer, p' := Hears(run, STRICT, p, 3, 1, 0, Chief(1, 1, [EntryOf(1, 4)]));
    Deposing();
    longer, p' := Answers(longer, STRICT, p', 3, 1, 0, Deposed(), Envelope(3, VoteResponse(2, false)));
  }

  /** It accepts the heartbeat of server 3. */
  lemma FirstYields(run: Run, p: Scene, log: Log) returns (longer: Run, p': Scene)
    requires Reached(run, STRICT, p) && Rivals(p, log)
    ensures Reached(longer, STRICT, p') && Stands(p', Deposed(), Chief(3, 2, log))
    ensures Box(p', 1, 3) == [Beacon(1, 1), VoteResponse(2, false), AppendResponse(2, true, 1, 0)]
  {
    hide Reached;
    longer, p' := FirstDeposed(run, p, log);
    Overclaiming();
    longer, p' := Answers(longer, STRICT, p', 3, 1, 0, Deposed(), Envelope(3, AppendResponse(2, true, 1, 0)));
  }

  /** Server 3 rejects the old heartbeat, ignores the refusal and believes the reply. */
  lemma Deceit(run: Run, p: Scene, log: Log) returns (longer: Run, p': Scene)
    requires Reached(run, STRICT, p) && Rivals(p, log)
    ensures Reached(longer, STRICT, p') && Stands(p', Deposed(), Misled(log, -1, -1))
  {
    hide Reached;
    longer, p' := FirstYields(run, p, log);
    var v := Chief(3, 2, log);
    RejectsOld(log);
    longer, p' := Answers(longer, STRICT, p', 1, 3, 0, v, Envelope(1, AppendResponse(2, false, 3, LastIndex(log))));
    IgnoresVote(3, 2, 1, log, false);
    longer, p' := Hears(longer, STRICT, p', 1, 3, 0, v);
    Misleading(log);
    longer, p' := Hears(longer, STRICT, p', 1, 3, 0, Misled(log, -1, -1));
  }

  // ----- if it has logged nothing

  lemma NothingLogged() returns (run: Run, p: Scene)
    ensures Reached(run, STRICT, p) && Stands(p, Deposed(), Misled([], -1, -1))
  {
    hide Reached;
    run, p := SecondIdles();
    run, p := Deceit(run, p, []);
  }

  /** The reply to a heartbeat pushes `match_index` and `next_index` of a leader past its empty
      log: the next round reads the term of an entry that it does not have. */
  lemma NextIndexPassesLog() returns (run: Run)
    ensures IsRun(run) && Fifo(run) && Lossless(run) && Timely(run)
    ensures var s := Last(run);
      && LeadsIn(s, 3, 2) && s.servers[3].log == [] && |s.servers[1].log| == 1
      && Indexed(s.servers[3]) && 1 <= s.servers[3].peers
      && s.servers[3].matched[1] == 0 && s.servers[3].next[1] == 1
  {
    var p;
    run, p := NothingLogged();
    Obeyed(run, STRICT);
    assert p.servers[1] == Deposed() && p.servers[3] == Misled([], -1, -1);
  }

  // ----- if it has logged a request

  lemma ThirdCommits() returns (run: Run, p: Scene)
    ensures Reached(run, STRICT, p) && Stands(p, Deposed(), Misled(OWN, 0, -1))
  {
    hide Reached, Replicate;
    run, p := SecondLogs();
    run, p := Deceit(run, p, OWN);
    MisledCommits();
    run, p := Works(run, STRICT, p, 3, Misled(OWN, 0, -1));
  }

  /** It has committed, and answers. */
  lemma ThirdAnswers() returns (run: Run, p: Scene)
    ensures Reached(run, STRICT, p) && Link(3, 5) in p.net && p.net[Link(3, 5)] == [ClientResponse(true, 0)]
    ensures p.servers == map[1 := Deposed(), 2 := Pledged(2, 2, 3), 3 := Misled(OWN, 0, 0)]
  {
    hide Reached;
    run, p := ThirdCommits();
    MisledAnswers();
    OneTells(p, 3, Envelope(5, ClientResponse(true, 0)));
    run, p := Does(run, STRICT, p, 3, ApplyNext, Outcome(Misled(OWN, 0, 0), [Envelope(5, ClientResponse(true, 0))]), 5,
                   [ClientResponse(true, 0)]);
  }

  /** There is such a run: the leader has committed, applied and answered an entry that no
      other server holds. */
  lemma CommittedByOneServer() returns (run: Run)
    ensures IsRun(run) && Fifo(run) && Lossless(run) && Timely(run) && OneLeaderPerTerm(Last(run).hist)
    ensures !SingleLeadership(Last(run).hist)
    ensures var s := Last(run);
      && s.n == 3 && |s.servers| == 4 && s.servers[3].status == Leader && s.servers[3].applied == 0
      && Queue(s.net, Link(3, 5)) == [ClientResponse(true, 0)]
      && |s.servers[3].log| == 1 && Holders(s, 3, 0) == {3}
  {
    var p;
    run, p := ThirdAnswers();
    Obeyed(run, STRICT);
    AtMostOneLeader(run, |run.states| - 1);
    OnlyHolder(Last(run), p);
    if SingleLeadership(Last(run).hist) { Contrast(run); }
  }

  lemma OnlyHolder(s: State, p: Scene)
    requires Shows(s, p) && p.servers == map[1 := Deposed(), 2 := Pledged(2, 2, 3), 3 := Misled(OWN, 0, 0)]
    ensures |s.servers| == 4 && s.n == 3 && s.servers[3] == Misled(OWN, 0, 0) && Holders(s, 3, 0) == {3}
  {
    assert p.servers[1] == Deposed() && p.servers[2] == Pledged(2, 2, 3) && p.servers[3] == Misled(OWN, 0, 0);
    assert s.servers[1].log[0].term == 1 && s.servers[3].log[0].term == 2;
  }

  /** With a single leadership it would be held by a majority. */
  lemma Contrast(run: Run)
    requires IsRun(run) && Fifo(run) && SingleLeadership(Last(run).hist)
    ensures var s := Last(run);
      !(s.n == 3 && |s.servers| == 4 && s.servers[3].status == Leader && |s.servers[3].log| == 1
        && s.servers[3].commit == 0 && Holders(s, 3, 0) == {3})
  {
    var s := Last(run);
    SingleRun(run, |run.states| - 1);
    if s.n == 3 && |s.servers| == 4 && s.servers[3].status == Leader && s.servers[3].commit == 0 {
      if |s.servers[3].log| == 1 && s.hist.wins != [] {
        assert Follows(s, s.hist.wins[0].rank, 3);
        CommittedIsHeld(s, 3, 0);
      }
    }
  }
}
