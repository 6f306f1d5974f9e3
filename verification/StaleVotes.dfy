/** Why election safety needs timely votes: a run in which a vote of term 1 is counted in
    term 2, and term 2 has two leaders. */
module StaleVotes {
  import opened Messages
  import opened RaftServer
  import opened Cluster
  import opened ElectionSafety
  import opened Scenes

  const UNTIMELY := STRICT.(timely := false)
  const LINKS := {Link(1, 2), Link(2, 1), Link(2, 3), Link(3, 2)}

  /** Server 1 campaigns again before its vote arrives, and wins term 2 with it. */
  lemma FirstLeads() returns (run: Run, p: Scene)
    ensures Reached(run, UNTIMELY, p) && p.net.Keys == LINKS && Box(p, 2, 3) == Box(p, 3, 2) == []
    ensures p.servers == map[1 := Chief(1, 2, []), 2 := Pledged(2, 1, 1), 3 := Fresh(3)]
  {
    hide Reached, Pledged, Beacon;
    run, p := FirstChosen(UNTIMELY, map[], LINKS, 2);
    run, p := StartsElection(run, UNTIMELY, p, 1, Running(1, 2, 1));
    run, p := Wins(run, UNTIMELY, p, 2, 1, 2, 1);
  }

  lemma RefusesThird()
    ensures React(Pledged(2, 1, 1), Receive(3, Request1(1, 3)))
            == Outcome(Pledged(2, 1, 1), [Envelope(3, VoteResponse(1, false))])
    ensures React(Running(3, 2, 1), Receive(2, VoteResponse(1, false))) == Outcome(Running(3, 2, 1), [])
  {}

  /** Server 3 campaigns. */
  lemma ThirdRuns() returns (run: Run, p: Scene)
    ensures Reached(run, UNTIMELY, p) && p.net.Keys == LINKS
    ensures Box(p, 2, 3) == [] && Box(p, 3, 2) == [Request1(1, 3)]
    ensures p.servers == map[1 := Chief(1, 2, []), 2 := Pledged(2, 1, 1), 3 := Running(3, 1, 1)]
  {
    hide Reached, Chief, Pledged;
    run, p := FirstLeads();
    run, p := StartsElection(run, UNTIMELY, p, 3, Running(3, 1, 1));
  }

  /** It campaigns again. */
  lemma ThirdRunsAgain() returns (run: Run, p: Scene)
    ensures Reached(run, UNTIMELY, p) && p.net.Keys == LINKS
    ensures Box(p, 2, 3) == [] && Box(p, 3, 2) == [Request1(1, 3), Request1(2, 3)]
    ensures p.servers == map[1 := Chief(1, 2, []), 2 := Pledged(2, 1, 1), 3 := Running(3, 2, 1)]
  {
    hide Reached, Chief, Pledged;
    run, p := ThirdRuns();
    run, p := StartsElection(run, UNTIMELY, p, 3, Running(3, 2, 1));
  }

  /** It is refused in term 1. */
  lemma ThirdRefused() returns (run: Run, p: Scene)
    ensures Reached(run, UNTIMELY, p) && p.net.Keys == LINKS
    ensures Box(p, 2, 3) == [VoteResponse(1, false)] && Box(p, 3, 2) == [Request1(2, 3)]
    ensures p.servers == map[1 := Chief(1, 2, []), 2 := Pledged(2, 1, 1), 3 := Running(3, 2, 1)]
  {
    hide Reached;
    run, p := ThirdRunsAgain();
    RefusesThird();
    run, p := Answers(run, UNTIMELY, p, 3, 2, 0, Pledged(2, 1, 1), Envelope(3, VoteResponse(1, false)));
  }

  /** It is voted for in term 2 and wins. */
  lemma ThirdLeads() returns (run: Run, p: Scene)
    ensures Reached(run, UNTIMELY, p) && {1, 3} <= p.servers.Keys
    ensures p.servers[1] == Chief(1, 2, []) && p.servers[3] == Chief(3, 2, [])
  {
    hide Reached;
    run, p := ThirdRefused();
    Votes(2, 2, Pledged(2, 1, 1), 3);
    run, p := Answers(run, UNTIMELY, p, 3, 2, 0, Pledged(2, 2, 3), Envelope(3, VoteResponse(2, true)));
    RefusesThird();
    run, p := Hears(run, UNTIMELY, p, 2, 3, 0, Running(3, 2, 1));
    run, p := Wins(run, UNTIMELY, p, 2, 3, 2, 2);
  }

  /** There is such a run: without timeliness, election safety fails. */
  lemma TwoLeadersOfOneTerm() returns (run: Run)
    ensures IsRun(run) && Fifo(run) && Lossless(run) && !Timely(run)
    ensures var s := Last(run);
      && s.n == 3 && |s.servers| == 4
      && s.servers[1].status == s.servers[3].status == Leader && s.servers[1].term == s.servers[3].term == 2
  {
    var p;
    run, p := ThirdLeads();
    Untimely(run);
  }

  lemma Untimely(run: Run)
    requires Obeys(run, UNTIMELY)
    requires var s := Last(run);
      && s.n == 3 && |s.servers| == 4
      && s.servers[1].status == s.servers[3].status == Leader && s.servers[1].term == s.servers[3].term
    ensures Fifo(run) && Lossless(run) && !Timely(run)
  {
    Obeyed(run, UNTIMELY);
    if Timely(run) {
      AtMostOneLeader(run, |run.states| - 1);
      assert LeadsIn(Last(run), 1, Last(run).servers[1].term) && LeadsIn(Last(run), 3, Last(run).servers[1].term);
    }
  }
}
