/** Whom a server that does not lead names to a client. */
module Redirection {
  import opened Messages
  import opened RaftServer
  import opened Cluster
  import opened AnyNetwork
  import opened Voting
  import opened Scenes

  /** The candidate of the last vote in this term, unless the vote was released since. */
  function HeldVote(term: nat, ms: seq<Mark>): nat {
    if ms != [] && ms[|ms| - 1].Voted? && ms[|ms| - 1].term == term then ms[|ms| - 1].candidate else 0
  }

  // ----- one reaction

  ghost predicate Remembers(v: Server, ms: seq<Mark>) {
    v.votedFor == HeldVote(v.term, ms)
  }

  lemma RemembersReceive(v: Server, ms: seq<Mark>, src: nat, m: Msg)
    requires Ready(v, Receive(src, m)) && VoteRecord(v, ms) && Remembers(v, ms) && v.alive && m.IsRpc()
    requires m.RequestVote? ==> m.candidate > 0
    ensures var o := OnRpc(v, m); Remembers(o.server, ms + NewMarks(v, Receive(src, m), o))
  {
    hide Fanout, UpToDate, Disciplined, AdvanceCommit;
    var o := OnRpc(v, m);
    var u := Updated(v, m.term);
    assert Remembers(u, ms);
    if m.VoteResponse? && TakesOffice(v, o.server) {
      assert GrantMarks(o.sent) == [] by {
        if o.sent != [] { VoteResponseSends(v, src, m, o.sent[0]); }
      }
      assert NewMarks(v, Receive(src, m), o) == [Won(v.term)];
    } else if m.AppendEntries? && v.status == Candidate && m.term == v.term {
      assert NewMarks(v, Receive(src, m), o) == [Demoted(v.term)];
    } else if GrantMarks(o.sent) != [] {
      assert NewMarks(v, Receive(src, m), o) == [Voted(u.term, m.candidate)];
    } else {
      assert ms + NewMarks(v, Receive(src, m), o) == ms;
    }
  }

  lemma RemembersStep(v: Server, ms: seq<Mark>, input: Input)
    requires Ready(v, input) && VoteRecord(v, ms) && Remembers(v, ms)
    requires input.Receive? && input.msg.RequestVote? ==> input.msg.candidate > 0
    ensures var o := React(v, input); Remembers(o.server, ms + NewMarks(v, input, o))
  {
    var o := React(v, input);
    if input.Elapsed? {
      ElapsedMarks(v);
      assert (ms + CampaignMarks(o.server))[|ms + CampaignMarks(o.server)| - 1]
             == CampaignMarks(o.server)[|CampaignMarks(o.server)| - 1];
    } else if input.Receive? && input.msg.IsRpc() && v.alive {
      RemembersReceive(v, ms, input.src, input.msg);
    } else {
      forall e | e in o.sent ensures !e.msg.VoteResponse? { ReactSends(v, input, e); }
      assert ms + NewMarks(v, input, o) == ms;
    }
  }

  // ----- every step and every run

  ghost predicate RemembersIn(s: State, r: nat) {
    r < |s.servers| && Remembers(s.servers[r], MarksOf(s.hist, r))
  }

  lemma RemembersSettle(s: State, q: nat, input: Input, o: Outcome, r: nat)
    requires q < |s.servers| && s.servers[q].rank == q && RemembersIn(s, r)
    requires q == r ==> Remembers(o.server, MarksOf(s.hist, r) + NewMarks(s.servers[r], input, o))
    ensures RemembersIn(Settle(s, q, input, o), r)
  {
    assert MarksOf(Settle(s, q, input, o).hist, r)
           == if q == r then MarksOf(s.hist, r) + NewMarks(s.servers[r], input, o) else MarksOf(s.hist, r);
  }

  lemma RemembersMove(s: State, q: nat, input: Input, r: nat)
    requires Recorded(s) && IsServer(s, q) && Ready(s.servers[q], input) && InputSound(s, q, input)
    requires IsServer(s, r) && RemembersIn(s, r)
    ensures RemembersIn(Move(s, q, input), r)
  {
    assert ServerSound(s, q);
    if q == r { RemembersStep(s.servers[r], MarksOf(s.hist, r), input); }
    RemembersSettle(s, q, input, React(s.servers[q], input), r);
  }

  lemma RemembersNext(s: State, e: Event, r: nat)
    requires Recorded(s) && Enabled(s, e) && IsServer(s, r) && RemembersIn(s, r)
    ensures RemembersIn(Next(s, e), r)
  {
    match e
    case Deliver(src, dst, i) =>
      var l := Link(src, dst);
      assert InFlight(s, l, Queue(s.net, l)[i]);
      SoundRemove(s, l, i);
      RemembersMove(Remove(s, l, i), dst, Receive(src, Queue(s.net, l)[i]), r);
    case Local(q, input) => RemembersMove(s, q, input, r);
    case _ =>
  }

  lemma RemembersAtFirst(s: State, r: nat)
    requires Init(s) && IsServer(s, r)
    ensures RemembersIn(s, r)
  {}

  lemma {:induction false} RemembersRun(run: Run, k: nat, r: nat)
    requires IsRun(run) && k < |run.states| && IsServer(run.states[k], r)
    ensures RemembersIn(run.states[k], r)
    decreases k
  {
    hide Init, Recorded, RemembersIn, Enabled, Next;
    if k > 0 {
      RecordedRun(run, k - 1);
      SameSize(run, k);
      RemembersRun(run, k - 1, r);
      RemembersNext(run.states[k - 1], run.events[k - 1], r);
    } else {
      RemembersAtFirst(run.states[0], r);
    }
  }

  // ----- results

  /** Every vote that the server cast in this term has been released since. */
  ghost predicate Uncommitted(term: nat, ms: seq<Mark>) {
    forall i :: 0 <= i < |ms| && ms[i].Voted? && ms[i].term == term ==> exists j :: i < j < |ms| && Release(ms[j], term)
  }

  lemma HeldVoteIsLast(v: Server, ms: seq<Mark>)
    requires VoteRecord(v, ms) && Remembers(v, ms) && v.rank > 0
    ensures HeldVote(v.term, ms) == 0 <==> Uncommitted(v.term, ms)
    ensures HeldVote(v.term, ms) > 0 ==> ms != [] && ms[|ms| - 1] == Voted(v.term, HeldVote(v.term, ms))
    ensures v.status == Candidate ==> HeldVote(v.term, ms) == v.rank
  {
    if HeldVote(v.term, ms) > 0 {
      var last := |ms| - 1;
      assert ms[last].Voted? && ms[last].term == v.term;
      assert !Uncommitted(v.term, ms);
    }
  }

  /** In every run, over an arbitrary network: a live server that does not lead answers a
      request with the candidate of its last vote, if it cast one in its present term and has
      neither won nor been demoted since - itself, while it campaigns - and with rank 0, which
      nobody has, exactly if it has no such vote. */
  lemma RedirectNamesLastVote(run: Run, k: nat, r: nat, request: Request)
    requires IsRun(run) && k < |run.states| && IsServer(run.states[k], r) && r < |run.states[k].servers|
    requires run.states[k].servers[r].alive && run.states[k].servers[r].status != Leader
    ensures var s := run.states[k]; var v, ms := s.servers[r], MarksOf(s.hist, r);
      var named := HeldVote(v.term, ms);
      && React(v, Receive(request.client, ClientRequest(request)))
         == Outcome(v, [Envelope(request.client, ClientResponse(false, named))])
      && named <= s.n
      && (named == 0 <==> Uncommitted(v.term, ms))
      && (named > 0 ==> ms != [] && ms[|ms| - 1] == Voted(v.term, named))
      && (v.status == Candidate ==> named == r)
  {
    var s := run.states[k];
    RecordedRun(run, k);
    RemembersRun(run, k, r);
    assert ServerSound(s, r);
    HeldVoteIsLast(s.servers[r], MarksOf(s.hist, r));
  }

  /** The server's last vote in this term, at position i of its marks, was for d. */
  predicate LastVote(term: nat, ms: seq<Mark>, i: nat, d: nat) {
    && i < |ms| && ms[i] == Voted(term, d)
    && forall j :: i < j < |ms| ==> !(ms[j].Voted? && ms[j].term == term)
  }

  lemma AnswersBallot(v: Server, src: nat, m: Msg)
    requires m.RequestVote? && m.term == v.term && m.candidate > 0 && v.alive
    ensures React(v, Receive(src, m)).sent == [Envelope(m.candidate, VoteResponse(v.term,
      v.status != Candidate && UpToDate(m.lastIndex, m.lastTerm, v.log)
      && (v.votedFor == 0 || v.votedFor == m.candidate)))]
  {}

  /** In every run, over an arbitrary network: a live server whose last vote in its term went to
      another candidate still grants its vote exactly when it is not campaigning, the log of the
      one who asks is at least as up to date as its own, and every vote it cast in the term has
      been released since. */
  lemma SecondVoteIff(run: Run, k: nat, r: nat, src: nat, m: Msg, i: nat, d: nat)
    requires IsRun(run) && k < |run.states| && IsServer(run.states[k], r) && r < |run.states[k].servers|
    requires var s := run.states[k]; var v := s.servers[r];
      && v.alive && m.RequestVote? && m.term == v.term && m.candidate > 0
      && LastVote(v.term, MarksOf(s.hist, r), i, d) && d != m.candidate
    ensures var s := run.states[k]; var v := s.servers[r];
      React(v, Receive(src, m)).sent == [Envelope(m.candidate, VoteResponse(v.term,
        v.status != Candidate && UpToDate(m.lastIndex, m.lastTerm, v.log)
        && Uncommitted(v.term, MarksOf(s.hist, r))))]
  {
    hide React, IsRun, VoteRecord;
    var s := run.states[k];
    var v, ms := s.servers[r], MarksOf(s.hist, r);
    RecordedRun(run, k);
    RemembersRun(run, k, r);
    assert ServerSound(s, r);
    HeldVoteIsLast(v, ms);
    AnswersBallot(v, src, m);
    assert HeldVote(v.term, ms) > 0 ==> i == |ms| - 1;
  }

  // ----- it need not be a leader

  const ASKER := map[4 := Asker(4, 1, false, 0, 0)]
  const LINKS := {Link(4, 1), Link(1, 4)}

  lemma Refers(v: Server)
    requires v.alive && v.status != Leader
    ensures React(v, Receive(4, ClientRequest(Asked(4))))
            == Outcome(v, [Envelope(4, ClientResponse(false, v.votedFor))])
  {}

  lemma IsReferred(run: Run, p: Scene, v: Server) returns (longer: Run, p': Scene)
    requires Reached(run, STRICT, p) && 1 in p.servers && p.servers[1] == v && v.alive && v.status != Leader
    requires p.clients == ASKER && p.net.Keys == LINKS && Box(p, 4, 1) == Box(p, 1, 4) == []
    ensures Reached(longer, STRICT, p') && p'.wins == p.wins
    ensures Link(1, 4) in p'.net && p'.net[Link(1, 4)] == [ClientResponse(false, v.votedFor)]
  {
    hide Reached;
    longer, p' := StartsAsking(run, STRICT, p, 4, 1);
    Refers(v);
    longer, p' := Answers(longer, STRICT, p', 4, 1, 0, v, Envelope(4, ClientResponse(false, v.votedFor)));
  }

  /** A server that has not voted sends a client to rank 0. */
  lemma RedirectsToNobody() returns (run: Run)
    ensures IsRun(run) && Fifo(run) && Lossless(run) && Timely(run)
    ensures Queue(Last(run).net, Link(1, 4)) == [ClientResponse(false, 0)]
  {
    var p;
    run, p := Opens(STRICT, ASKER, LINKS);
    run, p := IsReferred(run, p, Fresh(1));
    Obeyed(run, STRICT);
  }

  /** A candidate sends a client to itself, when no server has ever led. */
  lemma RedirectsToNoLeader() returns (run: Run)
    ensures IsRun(run) && Fifo(run) && Lossless(run) && Timely(run) && Last(run).hist.wins == []
    ensures Queue(Last(run).net, Link(1, 4)) == [ClientResponse(false, 1)]
  {
    var p;
    run, p := FirstRuns(STRICT, ASKER, LINKS);
    run, p := IsReferred(run, p, Running(1, 1, 1));
    Obeyed(run, STRICT);
  }
}
