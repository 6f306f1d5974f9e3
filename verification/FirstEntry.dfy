/** Runs in which server 1 wins term 1 and replicates one entry to server 2. They go on in
    several ways: with the replies in order, so that the client is answered, or out of order,
    so that `match_index` falls. */
module FirstEntry {
  import opened LogEntries
  import opened Messages
  import opened RaftServer
  import opened RaftClient
  import opened Cluster
  import opened Scenes
  import opened ElectionSafety

  const LINKS := {Link(1, 2), Link(2, 1), Link(4, 1), Link(1, 4)}

  // ----- servers of the runs

  const ENTRY := EntryOf(1, 4)

  /** Server 1 with what it knows of server 2. */
  function Lead(next: nat, matched: Index, commit: Index, applied: Index): Server {
    Chief(1, 1, [ENTRY]).(
      next := [0, 0, next, 0], matched := [-1, -1, matched, -1], commit := commit, applied := applied)
  }

  function Backup(): Server { Pledged(2, 1, 1).(log := [ENTRY]) }

  function Entries(): Msg { AppendEntries(1, 1, -1, -1, [ENTRY], -1) }

  function Ack(last: Index): Msg { AppendResponse(1, true, 2, last) }

  // ----- the entry reaches server 2

  /** Server 1 leads, and client 4 has asked. */
  lemma IsAsked(rules: Rules) returns (run: Run, p: Scene)
    ensures Reached(run, rules, p) && p.net.Keys == LINKS && p.wins == 1
    ensures p.clients == map[4 := Asker(4, 1, true, 1, 0)] && Box(p, 4, 1) == [ClientRequest(Asked(4))]
    ensures {1, 2} <= p.servers.Keys && p.servers[1] == Chief(1, 1, []) && p.servers[2] == Pledged(2, 1, 1)
    ensures Box(p, 1, 2) == [Beacon(1, 1)] && Box(p, 2, 1) == Box(p, 1, 4) == []
  {
    hide Reached, Chief, Pledged, Fresh, Beacon;
    run, p := FirstReign(rules, map[4 := Asker(4, 1, false, 0, 0)], LINKS, 2);
    run, p := StartsAsking(run, rules, p, 4, 1);
  }

  /** Server 1 logs the request. */
  lemma Logs(rules: Rules) returns (run: Run, p: Scene)
    ensures Reached(run, rules, p) && p.net.Keys == LINKS && p.wins == 1
    ensures p.clients == map[4 := Asker(4, 1, true, 1, 0)]
    ensures {1, 2} <= p.servers.Keys && p.servers[1] == Lead(0, -1, -1, -1) && p.servers[2] == Pledged(2, 1, 1)
    ensures Box(p, 1, 2) == [Beacon(1, 1)] && Box(p, 2, 1) == Box(p, 1, 4) == []
  {
    hide Reached;
    run, p := IsAsked(rules);
    LogsRequest(Chief(1, 1, []), 4);
    run, p := Hears(run, rules, p, 4, 1, 0, Lead(0, -1, -1, -1));
  }

  lemma CannotCommit()
    ensures Replicate(Lead(0, -1, -1, -1))
            == Outcome(Lead(0, -1, -1, -1), Fanout(Lead(0, -1, -1, -1), Replication, 3))
  {
    hide Fanout;
    var acks := Lead(0, -1, -1, -1).matched;
    assert acks[1] == -1 && acks[2] == -1 && acks[3] == -1;
    assert Acks(acks, 1, 0) == 0;
    assert Acks(acks, 2, 0) == 0;
    assert Acks(acks, 3, 0) == 0;
  }

  lemma EntryMail()
    ensures MessageFor(Lead(0, -1, -1, -1), Replication, 2) == [Entries()]
  {}

  lemma SendsEntry(p: Scene, v: Server, out: seq<Envelope>)
    requires p.net.Keys == LINKS && Indexed(v) && v.rank == 1 && v.peers == 3
    requires out == Fanout(v, Replication, 3) && MessageFor(v, Replication, 2) == [Entries()]
    ensures Tells(p, 1, out, 2, [Entries()])
  {
    hide Fanout, MessageFor, Entries;
    forall l | l in p.net && l.src == 1 ensures MsgsTo(out, l.dst) == if l.dst == 2 then [Entries()] else [] {
      FanoutTo(v, Replication, 3, l.dst);
    }
  }

  lemma TakesEntry()
    ensures React(Pledged(2, 1, 1), Receive(1, Beacon(1, 1))) == Outcome(Pledged(2, 1, 1), [Envelope(1, Ack(-1))])
    ensures React(Pledged(2, 1, 1), Receive(1, Entries())) == Outcome(Backup(), [Envelope(1, Ack(0))])
  {}

  lemma Sends(rules: Rules) returns (run: Run, p: Scene)
    ensures Reached(run, rules, p) && p.net.Keys == LINKS && p.wins == 1
    ensures p.clients == map[4 := Asker(4, 1, true, 1, 0)]
    ensures {1, 2} <= p.servers.Keys && p.servers[1] == Lead(0, -1, -1, -1) && p.servers[2] == Pledged(2, 1, 1)
    ensures Box(p, 1, 2) == [Beacon(1, 1), Entries()] && Box(p, 2, 1) == Box(p, 1, 4) == []
  {
    hide Reached, Fanout, Replicate;
    run, p := Logs(rules);
    CannotCommit();
    EntryMail();
    SendsEntry(p, Lead(0, -1, -1, -1), Fanout(Lead(0, -1, -1, -1), Replication, 3));
    run, p := Does(run, rules, p, 1, Work, Replicate(Lead(0, -1, -1, -1)), 2, [Entries()]);
  }

  /** Server 2 takes the heartbeat. */
  lemma Beats(rules: Rules) returns (run: Run, p: Scene)
    ensures Reached(run, rules, p) && p.net.Keys == LINKS && p.wins == 1
    ensures p.clients == map[4 := Asker(4, 1, true, 1, 0)]
    ensures {1, 2} <= p.servers.Keys && p.servers[1] == Lead(0, -1, -1, -1) && p.servers[2] == Pledged(2, 1, 1)
    ensures Box(p, 2, 1) == [Ack(-1)] && Box(p, 1, 2) == [Entries()] && Box(p, 1, 4) == []
  {
    hide Reached;
    run, p := Sends(rules);
    TakesEntry();
    run, p := Answers(run, rules, p, 1, 2, 0, Pledged(2, 1, 1), Envelope(1, Ack(-1)));
  }

  /** Server 2 takes the entry; its two replies are under way. */
  lemma Replicated(rules: Rules) returns (run: Run, p: Scene)
    ensures Reached(run, rules, p) && p.net.Keys == LINKS && p.wins == 1
    ensures p.clients == map[4 := Asker(4, 1, true, 1, 0)]
    ensures {1, 2} <= p.servers.Keys && p.servers[1] == Lead(0, -1, -1, -1) && p.servers[2] == Backup()
    ensures Box(p, 2, 1) == [Ack(-1), Ack(0)] && Box(p, 1, 2) == Box(p, 1, 4) == []
  {
    hide Reached;
    run, p := Beats(rules);
    TakesEntry();
    run, p := Answers(run, rules, p, 1, 2, 0, Backup(), Envelope(1, Ack(0)));
  }

  lemma CountsAck(next: nat, matched: Index, last: Index)
    ensures React(Lead(next, matched, -1, -1), Receive(2, Ack(last))) == Outcome(Lead(last + 1, last, -1, -1), [])
  {}

  // ----- the replies are taken out of order

  /** Server 1 takes the reply to the entry before the reply to the heartbeat. */
  lemma Overtaken(rules: Rules) returns (early: Run, p: Scene, run: Run, p': Scene)
    requires !rules.fifo
    ensures Reached(early, rules, p) && Reached(run, rules, p') && Continues(early, run) && p'.wins == 1
    ensures 1 in p.servers && p.servers[1] == Lead(1, 0, -1, -1)
    ensures 1 in p'.servers && p'.servers[1] == Lead(0, -1, -1, -1)
  {
    hide Reached;
    early, p := Replicated(rules);
    CountsAck(0, -1, 0);
    early, p := Hears(early, rules, p, 2, 1, 1, Lead(1, 0, -1, -1));
    CountsAck(1, 0, -1);
    run, p' := Hears(early, rules, p, 2, 1, 0, Lead(0, -1, -1, -1));
  }

  /** `match_index` falls when the reply to a heartbeat is taken after the later reply to the
      entry: one leadership, nothing lost or repeated, no crash, no late vote. */
  lemma MatchIndexFalls() returns (run: Run, j: nat)
    ensures IsRun(run) && Lossless(run) && SingleCopy(run) && Timely(run) && SingleLeadership(Last(run).hist)
    ensures j < |run.states| && LeadsIn(run.states[j], 1, 1) && LeadsIn(Last(run), 1, 1)
    ensures |run.states[j].servers[1].matched| == |Last(run).servers[1].matched| == 4
    ensures run.states[j].servers[1].matched[2] == 0 && Last(run).servers[1].matched[2] == -1
  {
    var early, p, p';
    early, p, run, p' := Overtaken(STRICT.(fifo := false));
    Obeyed(run, STRICT.(fifo := false));
    j := |early.states| - 1;
    assert run.states[j] == Last(early);
  }

  // ----- the leader commits and answers

  /** Server 1 has taken both replies. */
  lemma Counts() returns (run: Run, p: Scene)
    ensures Reached(run, STRICT, p) && p.net.Keys == LINKS && p.wins == 1
    ensures p.clients == map[4 := Asker(4, 1, true, 1, 0)]
    ensures {1, 2} <= p.servers.Keys && p.servers[1] == Lead(1, 0, -1, -1) && p.servers[2] == Backup()
    ensures Box(p, 1, 2) == Box(p, 2, 1) == Box(p, 1, 4) == []
  {
    hide Reached;
    run, p := Replicated(STRICT);
    CountsAck(0, -1, -1);
    run, p := Hears(run, STRICT, p, 2, 1, 0, Lead(0, -1, -1, -1));
    CountsAck(0, -1, 0);
    run, p := Hears(run, STRICT, p, 2, 1, 0, Lead(1, 0, -1, -1));
  }

  lemma CommitsEntry()
    ensures Replicate(Lead(1, 0, -1, -1)).server == Lead(1, 0, 0, -1)
    ensures React(Lead(1, 0, 0, -1), ApplyNext) == Outcome(Lead(1, 0, 0, 0), [Envelope(4, ClientResponse(true, 0))])
  {
    hide Fanout;
    var v := Lead(1, 0, -1, -1);
    assert v.matched[1] == -1 && v.matched[2] == 0 && v.matched[3] == -1;
    assert Acks(v.matched, 1, 0) == 0;
    assert Acks(v.matched, 2, 0) == 1;
    assert Acks(v.matched, 3, 0) == 1;
    assert AdvanceCommit(0, 1, v.matched, 3) == 0;
  }

  lemma Commits() returns (run: Run, p: Scene)
    ensures Reached(run, STRICT, p) && p.net.Keys == LINKS && p.wins == 1
    ensures p.clients == map[4 := Asker(4, 1, true, 1, 0)]
    ensures {1, 2} <= p.servers.Keys && p.servers[1] == Lead(1, 0, 0, 0) && p.servers[2] == Backup()
    ensures Box(p, 1, 4) == [ClientResponse(true, 0)]
  {
    hide Reached, Replicate;
    run, p := Counts();
    CommitsEntry();
    run, p := Works(run, STRICT, p, 1, Lead(1, 0, 0, -1));
    OneTells(p, 1, Envelope(4, ClientResponse(true, 0)));
    run, p := Does(run, STRICT, p, 1, ApplyNext, Outcome(Lead(1, 0, 0, 0), [Envelope(4, ClientResponse(true, 0))]), 4,
                   [ClientResponse(true, 0)]);
  }

  lemma HearsSuccess()
    ensures Iterate(Asker(4, 1, true, 1, 0), Answer(ClientResponse(true, 0)), None) == Turn(Asker(4, 1, true, 1, 1), [])
  {}

  /** Every hypothesis is met by a run of three servers in which one is elected by another's
      vote and a client's command is replicated, committed, applied and answered. */
  lemma CommandIsAnswered() returns (run: Run)
    ensures IsRun(run) && Fifo(run) && Lossless(run) && Timely(run) && SingleLeadership(Last(run).hist)
    ensures var s := Last(run);
      && s.n == 3 && |s.servers| == 4 && LeadsIn(s, 1, 1) && s.servers[1].applied == 0
      && s.servers[1].log == s.servers[2].log == [ENTRY]
      && 4 in s.clients && s.clients[4].nextResponse == |s.clients[4].commands| == 1
  {
    var p;
    run, p := Commits();
    HearsSuccess();
    run, p := ClientHears(run, STRICT, p, 4, 1, Turn(Asker(4, 1, true, 1, 1), []));
    Obeyed(run, STRICT);
  }
}
