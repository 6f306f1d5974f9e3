/** A run with one leadership in which a server's commit index falls, because an AppendEntries
    is overtaken by a later one and then shortens the log. */
module FallingCommit {
  import opened LogEntries
  import opened Messages
  import opened RaftServer
  import opened Cluster
  import opened Scenes

  const LOOSE := STRICT.(fifo := false)
  const LINKS := {Link(1, 2), Link(1, 3), Link(3, 1), Link(4, 1), Link(5, 1), Link(6, 1)}

  const ASKERS := map[4 := Asker(4, 1, false, 0, 0), 5 := Asker(5, 1, false, 0, 0), 6 := Asker(6, 1, false, 0, 0)]

  // ----- servers and messages of the run

  const A := EntryOf(1, 4)
  const B := EntryOf(1, 5)
  const C := EntryOf(1, 6)

  /** Server 1 with what it knows of server 3. */
  function Boss(log: Log, next: nat, matched: Index, commit: Index): Server {
    Chief(1, 1, log).(next := [0, 0, 0, next], matched := [-1, -1, -1, matched], commit := commit)
  }

  function Copy(r: nat, log: Log, commit: Index): Server {
    Fresh(r).(term := 1, log := log, commit := commit)
  }

  /** The whole log, as server 1 sends it to a server it knows nothing of. */
  function Quote(log: Log): Msg { AppendEntries(1, 1, -1, -1, log, -1) }

  function Pulse(): Msg { AppendEntries(1, 1, -1, -1, [], 2) }

  // ----- the leader logs and sends

  lemma NoAcks(log: Log)
    ensures Replicate(Boss(log, 0, -1, -1))
            == Outcome(Boss(log, 0, -1, -1), Fanout(Boss(log, 0, -1, -1), Replication, 3))
  {
    hide Fanout;
    var acks := Boss(log, 0, -1, -1).matched;
    assert acks[1] == -1 && acks[2] == -1 && acks[3] == -1;
    assert Acks(acks, 1, 0) == 0;
    assert Acks(acks, 2, 0) == 0;
    assert Acks(acks, 3, 0) == 0;
  }

  /** A leader that knows nothing of the others. */
  predicate Unsure(v: Server) {
    && Indexed(v) && v.rank == v.term == 1 && v.peers == 3 && v.next == [0, 0, 0, 0]
    && v.log != [] && v.commit == -1
  }

  lemma QuoteFor(v: Server, q: nat)
    requires Unsure(v) && q <= 3
    ensures MessageFor(v, Replication, q) == [Quote(v.log)]
  {}

  lemma QuoteMail(v: Server)
    requires Unsure(v)
    ensures Spreads(Fanout(v, Replication, 3), 1, Quote(v.log))
  {
    hide MessageFor, Fanout, Quote;
    forall q: nat ensures MailsAs(Fanout(v, Replication, 3), 1, Quote(v.log), q) {
      FanoutTo(v, Replication, 3, q);
      if q <= 3 { QuoteFor(v, q); }
    }
  }

  lemma SendsLog(run: Run, p: Scene, log: Log) returns (longer: Run, p': Scene)
    requires Reached(run, LOOSE, p) && log != [] && 1 in p.servers && p.servers[1] == Boss(log, 0, -1, -1)
    ensures p' == Spread(p, 1, Boss(log, 0, -1, -1), Quote(log)) && Reached(longer, LOOSE, p')
  {
    hide Reached, Replicate, Fanout;
    NoAcks(log);
    QuoteMail(Boss(log, 0, -1, -1));
    longer, p' := DoesToAll(run, LOOSE, p, 1, Work, Replicate(Boss(log, 0, -1, -1)), Quote(log));
  }

  /** Client c asks, and server 1 logs the request. */
  lemma LogsNext(run: Run, p: Scene, log: Log, c: nat) returns (longer: Run, p': Scene)
    requires Reached(run, LOOSE, p) && p.net.Keys == LINKS && 4 <= c <= 6 && !Has(log, EntryOf(1, c))
    requires 1 in p.servers && p.servers[1] == Boss(log, 0, -1, -1)
    requires c in p.clients && p.clients[c] == Asker(c, 1, false, 0, 0) && Box(p, c, 1) == []
    ensures Reached(longer, LOOSE, p') && p'.wins == p.wins
    ensures p'.servers == p.servers[1 := Boss(log + [EntryOf(1, c)], 0, -1, -1)]
    ensures p'.clients == p.clients[c := Asker(c, 1, true, 1, 0)] && p'.net == p.net
  {
    hide Reached;
    longer, p' := StartsAsking(run, LOOSE, p, c, 1);
    LogsRequest(Boss(log, 0, -1, -1), c);
    longer, p' := Hears(longer, LOOSE, p', c, 1, 0, Boss(log + [EntryOf(1, c)], 0, -1, -1));
    assert p'.net == p.net;
  }

  /** ... and sends its log to the others. */
  lemma Grows(run: Run, p: Scene, log: Log, c: nat) returns (longer: Run, p': Scene)
    requires Reached(run, LOOSE, p) && p.net.Keys == LINKS && 4 <= c <= 6 && !Has(log, EntryOf(1, c))
    requires 1 in p.servers && p.servers[1] == Boss(log, 0, -1, -1)
    requires c in p.clients && p.clients[c] == Asker(c, 1, false, 0, 0) && Box(p, c, 1) == []
    ensures Reached(longer, LOOSE, p') && p'.net.Keys == LINKS && p'.wins == p.wins
    ensures p'.servers == p.servers[1 := Boss(log + [EntryOf(1, c)], 0, -1, -1)]
    ensures p'.clients == p.clients[c := Asker(c, 1, true, 1, 0)]
    ensures forall l :: l in LINKS ==>
              p'.net[l] == if l.src == 1 then p.net[l] + [Quote(log + [EntryOf(1, c)])] else p.net[l]
  {
    hide Reached, Quote;
    longer, p' := LogsNext(run, p, log, c);
    longer, p' := SendsLog(longer, p', log + [EntryOf(1, c)]);
  }

  /** Server 1 wins term 1 by the vote of server 3, and sends its log with one entry. */
  lemma SendsOne() returns (run: Run, p: Scene)
    ensures Reached(run, LOOSE, p) && p.net.Keys == LINKS && p.wins == 1
    ensures p.servers.Keys == {1, 2, 3} && p.servers[1] == Boss([A], 0, -1, -1)
    ensures p.servers[2] == Fresh(2) && p.servers[3] == Pledged(3, 1, 1)
    ensures {5, 6} <= p.clients.Keys
    ensures p.clients[5] == Asker(5, 1, false, 0, 0) && p.clients[6] == Asker(6, 1, false, 0, 0)
    ensures Box(p, 5, 1) == Box(p, 6, 1) == Box(p, 3, 1) == []
    ensures Box(p, 1, 2) == [Request1(1, 1), Beacon(1, 1), Quote([A])] && Box(p, 1, 3) == [Beacon(1, 1), Quote([A])]
  {
    hide Reached, Pledged, Quote, Request1;
    assert Boss([], 0, -1, -1) == Chief(1, 1, []);
    run, p := FirstReign(LOOSE, ASKERS, LINKS, 3);
    run, p := Grows(run, p, [], 4);
  }

  /** ... with two, and with three. */
  lemma SendsThree() returns (run: Run, p: Scene)
    ensures Reached(run, LOOSE, p) && p.net.Keys == LINKS && p.wins == 1
    ensures p.servers.Keys == {1, 2, 3} && p.servers[1] == Boss(Full(), 0, -1, -1)
    ensures p.servers[2] == Fresh(2) && p.servers[3] == Pledged(3, 1, 1) && Box(p, 3, 1) == []
    ensures Box(p, 1, 2) == [Request1(1, 1), Beacon(1, 1), Quote([A]), Quote([A, B]), Quote(Full())]
    ensures Box(p, 1, 3) == [Beacon(1, 1), Quote([A]), Quote([A, B]), Quote(Full())]
  {
    hide Reached;
    run, p := SendsOne();
    run, p := Grows(run, p, [A], 5);
    run, p := Grows(run, p, [A, B], 6);
  }

  // ----- server 3 takes all of it

  function Full(): Log { [A, B, C] }

  lemma QuoteSplices(log: Log, k: nat)
    requires log <= Full() && 1 <= k <= 3
    ensures Splice(log, -1, Full()[..k]) == Full()[..k]
  {
    hide Splice;
    assert DistinctKeys(Full());
    forall i | SameTermAt(Full(), log, i) ensures Full()[..i + 1] == log[..i + 1] {}
    assert Full()[0..k] == Full()[..k];
    SpliceIsPrefixOf(log, Full(), -1, k);
  }

  lemma TakesQuote(v: Server, k: nat)
    requires v.alive && v.status == Follower && v.term <= 1 && v.log <= Full() && 1 <= k <= 3
    ensures React(v, Receive(1, Quote(Full()[..k])))
            == Outcome(Updated(v, 1).(log := Full()[..k]), [Envelope(1, AppendResponse(1, true, v.rank, k - 1))])
  {
    hide Splice;
    QuoteSplices(v.log, k);
  }

  lemma CountsThird()
    ensures React(Boss(Full(), 0, -1, -1), Receive(3, AppendResponse(1, true, 3, 2)))
            == Outcome(Boss(Full(), 3, 2, -1), [])
  {}

  const REST := {Link(1, 2)}

  function Remembered(p: Scene): Scene {
    p.(clients := map[], net := map l | l in REST :: Box(p, l.src, l.dst))
  }

  lemma ThirdTakes() returns (run: Run, p: Scene)
    ensures Reached(run, LOOSE, p) && p.net.Keys == LINKS && p.wins == 1
    ensures {1, 2} <= p.servers.Keys && p.servers[1] == Boss(Full(), 0, -1, -1) && p.servers[2] == Fresh(2)
    ensures Box(p, 1, 2) == [Request1(1, 1), Beacon(1, 1), Quote([A]), Quote([A, B]), Quote(Full())]
    ensures Box(p, 3, 1) == [AppendResponse(1, true, 3, 2)]
  {
    hide Reached, Quote, Beacon, Request1;
    run, p := SendsThree();
    TakesQuote(Pledged(3, 1, 1), 3);
    assert Full()[..3] == Full();
    run, p := Answers(run, LOOSE, p, 1, 3, 3, Pledged(3, 1, 1).(log := Full()),
                      Envelope(1, AppendResponse(1, true, 3, 2)));
  }

  /** Server 3 has acknowledged three entries. */
  lemma Acknowledged() returns (run: Run, p: Scene)
    ensures Reached(run, LOOSE, p) && p.net.Keys == REST && p.wins == 1
    ensures {1, 2} <= p.servers.Keys && p.servers[1] == Boss(Full(), 3, 2, -1) && p.servers[2] == Fresh(2)
    ensures Box(p, 1, 2) == [Request1(1, 1), Beacon(1, 1), Quote([A]), Quote([A, B]), Quote(Full())]
  {
    hide Reached;
    run, p := ThirdTakes();
    CountsThird();
    run, p := Hears(run, LOOSE, p, 3, 1, 0, Boss(Full(), 3, 2, -1));
    Forgets(run, LOOSE, p, Remembered(p));
    p := Remembered(p);
  }

  // ----- server 1 commits all of it and says so twice

  lemma CommitsThree()
    ensures Replicate(Boss(Full(), 3, 2, -1))
            == Outcome(Boss(Full(), 3, 2, 2), Fanout(Boss(Full(), 3, 2, -1), Replication, 3))
  {
    hide Fanout;
    var acks := Boss(Full(), 3, 2, -1).matched;
    forall n: Index | n <= 2 ensures Acks(acks, 3, n) >= 1 { assert acks[3] >= n; }
    assert AdvanceCommit(2, 3, acks, 3) == 2;
    assert AdvanceCommit(1, 3, acks, 3) == 2;
    assert AdvanceCommit(0, 3, acks, 3) == 2;
  }

  lemma MailToSecond(p: Scene, v: Server, round: Round, m: Msg)
    requires p.net.Keys == REST && Indexed(v) && v.rank == 1 && v.peers == 3 && MessageFor(v, round, 2) == [m]
    ensures Tells(p, 1, Fanout(v, round, 3), 2, [m])
  {
    hide Fanout, MessageFor;
    forall l | l in p.net && l.src == 1 ensures MsgsTo(Fanout(v, round, 3), l.dst) == if l.dst == 2 then [m] else [] {
      FanoutTo(v, round, 3, l.dst);
    }
  }

  lemma SecondsMail()
    ensures MessageFor(Boss(Full(), 3, 2, -1), Replication, 2) == [Quote(Full())]
    ensures MessageFor(Boss(Full(), 3, 2, 2), Heartbeat([]), 2) == [Pulse()]
  {}

  lemma Commits() returns (run: Run, p: Scene)
    ensures Reached(run, LOOSE, p) && p.net.Keys == REST && p.wins == 1
    ensures {1, 2} <= p.servers.Keys && p.servers[1] == Boss(Full(), 3, 2, 2) && p.servers[2] == Fresh(2)
    ensures Box(p, 1, 2) == [Request1(1, 1), Beacon(1, 1), Quote([A]), Quote([A, B]), Quote(Full()), Quote(Full())]
  {
    hide Reached, Replicate, Fanout;
    run, p := Acknowledged();
    CommitsThree();
    SecondsMail();
    MailToSecond(p, Boss(Full(), 3, 2, -1), Replication, Quote(Full()));
    run, p := Does(run, LOOSE, p, 1, Work, Replicate(Boss(Full(), 3, 2, -1)), 2, [Quote(Full())]);
  }

  lemma Announces() returns (run: Run, p: Scene)
    ensures Reached(run, LOOSE, p) && p.net.Keys == REST && p.wins == 1
    ensures {1, 2} <= p.servers.Keys && p.servers[1] == Boss(Full(), 3, 2, 2) && p.servers[2] == Fresh(2)
    ensures Box(p, 1, 2) == [Request1(1, 1), Beacon(1, 1), Quote([A]), Quote([A, B]), Quote(Full()), Quote(Full()),
                             Pulse(), Pulse()]
  {
    hide Reached, Fanout;
    var v := Boss(Full(), 3, 2, 2);
    run, p := Commits();
    SecondsMail();
    MailToSecond(p, v, Heartbeat([]), Pulse());
    run, p := Does(run, LOOSE, p, 1, Beat([]), Outcome(v, Fanout(v, Heartbeat([]), 3)), 2, [Pulse()]);
    MailToSecond(p, v, Heartbeat([]), Pulse());
    run, p := Does(run, LOOSE, p, 1, Beat([]), Outcome(v, Fanout(v, Heartbeat([]), 3)), 2, [Pulse()]);
  }

  // ----- server 2 takes two entries, a heartbeat, one entry and the other heartbeat

  lemma TakesPulse(log: Log, commit: Index)
    requires log != [] && commit < 2 && |log| <= 2
    ensures React(Copy(2, log, commit), Receive(1, Pulse()))
            == Outcome(Copy(2, log, |log| - 1), [Envelope(1, AppendResponse(1, true, 2, |log| - 1))])
  {}

  lemma Advances() returns (run: Run, p: Scene)
    ensures Reached(run, LOOSE, p) && p.net.Keys == REST && p.wins == 1
    ensures {1, 2} <= p.servers.Keys && p.servers[1] == Boss(Full(), 3, 2, 2) && p.servers[2] == Copy(2, [A, B], 1)
    ensures Box(p, 1, 2) == [Request1(1, 1), Beacon(1, 1), Quote([A]), Quote(Full()), Quote(Full()), Pulse()]
  {
    hide Reached, Boss, Beacon, Request1;
    run, p := Announces();
    TakesQuote(Fresh(2), 2);
    assert Full()[..2] == [A, B];
    run, p := Answers(run, LOOSE, p, 1, 2, 3, Copy(2, [A, B], -1), Envelope(1, AppendResponse(1, true, 2, 1)));
    TakesPulse([A, B], -1);
    run, p := Answers(run, LOOSE, p, 1, 2, 5, Copy(2, [A, B], 1), Envelope(1, AppendResponse(1, true, 2, 1)));
  }

  /** Server 1 and server 2, with that log and commit index, at the end. */
  predicate Pictures(p: Scene, log: Log, commit: Index) {
    && {1, 2} <= p.servers.Keys && p.servers[1] == Boss(Full(), 3, 2, 2) && p.servers[2] == Copy(2, log, commit)
    && p.wins == 1
  }

  /** The overtaken message erases an entry that nothing conflicts with. */
  lemma Shrinks() returns (first: Run, p: Scene, early: Run, p': Scene)
    ensures Reached(first, LOOSE, p) && Reached(early, LOOSE, p') && Continues(first, early)
    ensures Pictures(p, [A, B], 1) && Pictures(p', [A], 1) && p'.net.Keys == REST
    ensures Box(p', 1, 2) == [Request1(1, 1), Beacon(1, 1), Quote(Full()), Quote(Full()), Pulse()]
  {
    hide Reached;
    first, p := Advances();
    TakesQuote(Copy(2, [A, B], 1), 1);
    assert Full()[..1] == [A];
    early, p' := Answers(first, LOOSE, p, 1, 2, 2, Copy(2, [A], 1), Envelope(1, AppendResponse(1, true, 2, 0)));
  }

  lemma Falls(early: Run, p: Scene) returns (run: Run, p': Scene)
    requires Reached(early, LOOSE, p) && Pictures(p, [A], 1) && p.net.Keys == REST
    requires Box(p, 1, 2) == [Request1(1, 1), Beacon(1, 1), Quote(Full()), Quote(Full()), Pulse()]
    ensures Reached(run, LOOSE, p') && Continues(early, run) && Pictures(p', [A], 0)
  {
    hide Reached;
    TakesPulse([A], 1);
    run, p' := Answers(early, LOOSE, p, 1, 2, 4, Copy(2, [A], 0), Envelope(1, AppendResponse(1, true, 2, 0)));
  }

  /** What a state must be if a scene shows it. */
  ghost predicate LogsAre(s: State, log: Log, commit: Index) {
    && |s.servers| == 4 && s.servers[1].status == Leader && s.servers[1].log == [A, B, C]
    && s.servers[2].log == log && s.servers[2].commit == commit
  }

  lemma PictureShows(s: State, p: Scene, log: Log, commit: Index)
    requires Shows(s, p) && Pictures(p, log, commit)
    ensures LogsAre(s, log, commit)
  {}

  lemma LooseRun(run: Run, p: Scene)
    requires Reached(run, LOOSE, p) && p.wins == 1
    ensures IsRun(run) && Lossless(run) && SingleCopy(run) && Timely(run) && SingleLeadership(Last(run).hist)
    ensures Shows(Last(run), p)
  {
    Obeyed(run, LOOSE);
  }

  /** A follower loses an entry that its leader's log still has, which leaves its commit index
      past its log, and then the commit index falls: one leadership, nothing lost or repeated,
      no crash, no late vote; only order is missing. */
  lemma CommitIndexFalls() returns (run: Run, i: nat, j: nat)
    ensures IsRun(run) && Lossless(run) && SingleCopy(run) && Timely(run) && SingleLeadership(Last(run).hist)
    ensures i < j < |run.states|
    ensures LogsAre(run.states[i], [A, B], 1) && LogsAre(run.states[j], [A], 1) && LogsAre(Last(run), [A], 0)
  {
    hide Reached, LogsAre, Shows, Obeys;
    var first, early, p, p1, p2;
    first, p, early, p1 := Shrinks();
    run, p2 := Falls(early, p1);
    LooseRun(run, p2);
    WasReached(early, LOOSE, p1, run);
    WasReached(first, LOOSE, p, run);
    i, j := |first.states| - 1, |early.states| - 1;
    PictureShows(run.states[i], p, [A, B], 1);
    PictureShows(run.states[j], p1, [A], 1);
    PictureShows(Last(run), p2, [A], 0);
  }
}
