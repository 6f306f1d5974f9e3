/** How a server may use its vote, over an arbitrary network. */
module Voting {
  import opened Messages
  import opened RaftServer
  import opened Cluster
  import opened AnyNetwork

  // ----- what a server may do with its vote

  /** A mark after which a server's vote in `term` is free again. */
  predicate Release(m: Mark, term: nat) {
    m == Won(term) || m == Demoted(term)
  }

  /** Two different votes in one term: the first is the server's own, and between the two
      it won the term or was demoted in it. */
  ghost predicate Disciplined(r: nat, ms: seq<Mark>) {
    forall i, j :: 0 <= i < j < |ms| && ms[i].Voted? && ms[j].Voted?
                   && ms[i].term == ms[j].term && ms[i].candidate != ms[j].candidate
      ==> ms[i].candidate == r && exists k :: i < k < j && Release(ms[k], ms[i].term)
  }

  /** How the vote a server holds relates to the votes it has cast. */
  ghost predicate VoteRecord(v: Server, ms: seq<Mark>) {
    && (forall i :: 0 <= i < |ms| ==> ms[i].term <= v.term)
    && (v.status == Candidate ==> v.votedFor == v.rank)
    && (forall i :: 0 <= i < |ms| && ms[i].Voted? && ms[i].term == v.term ==>
          if ms[i].candidate != v.rank
          then v.status != Candidate && v.votedFor == ms[i].candidate && v.votedFor > 0
          else v.status == Candidate || exists k :: i < k < |ms| && Release(ms[k], v.term))
    && Disciplined(v.rank, ms)
  }

  /** Marks of newer terms do not disturb the record; the server's own state may move on. */
  lemma RecordKept(v: Server, w: Server, ms: seq<Mark>)
    requires VoteRecord(v, ms)
    requires w.rank == v.rank
    requires (w.term == v.term && w.status == v.status && w.votedFor == v.votedFor)
             || (w.term > v.term && w.status != Candidate)
    ensures VoteRecord(w, ms)
  {}

  lemma RecordElapsed(v: Server, ms: seq<Mark>)
    requires Ready(v, Elapsed) && VoteRecord(v, ms)
    ensures var o := React(v, Elapsed); VoteRecord(o.server, ms + NewMarks(v, Elapsed, o))
  {
    ElapsedMarks(v);
    RecordCampaign(v, React(v, Elapsed).server, ms);
  }

  function CampaignMarks(w: Server): seq<Mark> {
    [Voted(w.term, w.rank)] + if w.status == Leader then [Won(w.term)] else []
  }

  lemma ElapsedMarks(v: Server)
    requires Ready(v, Elapsed)
    ensures var o := React(v, Elapsed);
      && NewMarks(v, Elapsed, o) == CampaignMarks(o.server)
      && o.server.rank == v.rank && o.server.term == v.term + 1
      && (o.server.status == Leader || (o.server.status == Candidate && o.server.votedFor == v.rank))
  {
    forall e | e in React(v, Elapsed).sent ensures !e.msg.VoteResponse? { ReactSends(v, Elapsed, e); }
  }

  /** Campaigning opens a new term with a vote for itself. */
  lemma RecordCampaign(v: Server, w: Server, ms: seq<Mark>)
    requires VoteRecord(v, ms) && w.rank == v.rank && w.term == v.term + 1
    requires w.status == Leader || (w.status == Candidate && w.votedFor == v.rank)
    ensures VoteRecord(w, ms + CampaignMarks(w))
  {
    var all := ms + CampaignMarks(w);
    assert all[|ms|] == Voted(v.term + 1, v.rank);
    assert w.status == Leader ==> Release(all[|ms| + 1], v.term + 1);
    forall i, j | 0 <= i < j < |ms| && ms[i].Voted? && ms[j].Voted?
                  && ms[i].term == ms[j].term && ms[i].candidate != ms[j].candidate
      ensures exists k :: i < k < j && Release(all[k], ms[i].term)
    {
      var k :| i < k < j && Release(ms[k], ms[i].term);
      assert Release(all[k], ms[i].term);
    }
  }

  /** A candidate that wins or is demoted releases its vote. */
  lemma RecordRelease(v: Server, w: Server, ms: seq<Mark>, m: Mark)
    requires VoteRecord(v, ms) && v.status == Candidate && w.status != Candidate
    requires w.rank == v.rank && w.term == v.term && Release(m, v.term)
    ensures VoteRecord(w, ms + [m])
  {
    var all := ms + [m];
    assert Release(all[|ms|], v.term);
    forall i, j | 0 <= i < j < |ms| && ms[i].Voted? && ms[j].Voted?
                  && ms[i].term == ms[j].term && ms[i].candidate != ms[j].candidate
      ensures exists k :: i < k < j && Release(all[k], ms[i].term)
    {
      var k :| i < k < j && Release(ms[k], ms[i].term);
      assert Release(all[k], ms[i].term);
    }
  }

  /** A server that is not a candidate grants its vote to a candidate. */
  lemma RecordGrant(v: Server, w: Server, ms: seq<Mark>, c: nat)
    requires VoteRecord(v, ms) && v.status == w.status && v.status != Candidate
    requires w.rank == v.rank && w.term == v.term && c > 0 && c != v.rank
    requires w.votedFor == c && (v.votedFor > 0 ==> v.votedFor == c)
    ensures VoteRecord(w, ms + [Voted(v.term, c)])
  {
    var all := ms + [Voted(v.term, c)];
    forall i | 0 <= i < |ms| && ms[i].Voted? && ms[i].term == v.term && ms[i].candidate == v.rank
      ensures exists k :: i < k < |ms| && Release(all[k], v.term)
    {
      var k :| i < k < |ms| && Release(ms[k], v.term);
      assert Release(all[k], v.term);
    }
    forall i, j | 0 <= i < j < |ms| && ms[i].Voted? && ms[j].Voted?
                  && ms[i].term == ms[j].term && ms[i].candidate != ms[j].candidate
      ensures exists k :: i < k < j && Release(all[k], ms[i].term)
    {
      var k :| i < k < j && Release(ms[k], ms[i].term);
      assert Release(all[k], ms[i].term);
    }
  }

  lemma RecordReceive(v: Server, ms: seq<Mark>, src: nat, m: Msg)
    requires Ready(v, Receive(src, m)) && VoteRecord(v, ms) && v.alive && m.IsRpc()
    requires m.RequestVote? ==> m.candidate > 0 && m.candidate != v.rank
    ensures var o := OnRpc(v, m); VoteRecord(o.server, ms + NewMarks(v, Receive(src, m), o))
  {
    hide VoteRecord, Disciplined, Fanout, UpToDate, AdvanceCommit;
    var o := OnRpc(v, m);
    var u := Updated(v, m.term);
    RecordKept(v, u, ms);
    var added := NewMarks(v, Receive(src, m), o);
    if TakesOffice(v, o.server) {
      assert o.sent != [] ==> !o.sent[0].msg.VoteResponse? by {
        if o.sent != [] { VoteResponseSends(v, src, m, o.sent[0]); }
      }
      assert added == [Won(v.term)];
      RecordRelease(v, o.server, ms, Won(v.term));
    } else if m.AppendEntries? && v.status == Candidate && m.term == v.term {
      assert added == [Demoted(v.term)];
      RecordRelease(v, o.server, ms, Demoted(v.term));
    } else if GrantMarks(o.sent) != [] {
      assert added == [Voted(u.term, m.candidate)];
      RecordGrant(u, o.server, ms, m.candidate);
    } else {
      assert ms + added == ms;
      RecordKept(u, o.server, ms);
    }
  }

  lemma VoteRecordStep(v: Server, ms: seq<Mark>, input: Input)
    requires Ready(v, input) && VoteRecord(v, ms)
    requires input.Receive? && input.msg.RequestVote? ==> input.msg.candidate > 0 && input.msg.candidate != v.rank
    ensures var o := React(v, input); VoteRecord(o.server, ms + NewMarks(v, input, o))
  {
    var o := React(v, input);
    if input.Elapsed? {
      RecordElapsed(v, ms);
    } else if input.Receive? && input.msg.IsRpc() && v.alive {
      RecordReceive(v, ms, input.src, input.msg);
    } else {
      forall e | e in o.sent ensures !e.msg.VoteResponse? { ReactSends(v, input, e); }
      assert ms + NewMarks(v, input, o) == ms;
      RecordKept(v, o.server, ms);
    }
  }

  ghost predicate Records(s: State) {
    && |s.servers| == s.n + 1
    && forall r: nat :: IsServer(s, r) ==> VoteRecord(s.servers[r], MarksOf(s.hist, r))
  }

  ghost predicate Recorded(s: State) {
    Sound(s) && Records(s)
  }

  lemma RecordsSettle(s: State, r: nat, input: Input, o: Outcome)
    requires Records(s) && r < |s.servers| && s.servers[r].rank == r
    requires VoteRecord(o.server, MarksOf(s.hist, r) + NewMarks(s.servers[r], input, o))
    ensures Records(Settle(s, r, input, o))
  {
    hide VoteRecord, NewMarks;
    var s' := Settle(s, r, input, o);
    forall q: nat | IsServer(s', q) ensures VoteRecord(s'.servers[q], MarksOf(s'.hist, q)) {
      assert MarksOf(s'.hist, q)
             == if q == r then MarksOf(s.hist, r) + NewMarks(s.servers[r], input, o) else MarksOf(s.hist, q);
    }
  }

  lemma RecordedMove(s: State, r: nat, input: Input)
    requires Recorded(s) && IsServer(s, r) && Ready(s.servers[r], input) && InputSound(s, r, input)
    ensures Recorded(Move(s, r, input))
  {
    SoundMove(s, r, input);
    assert ServerSound(s, r);
    VoteRecordStep(s.servers[r], MarksOf(s.hist, r), input);
    RecordsSettle(s, r, input, React(s.servers[r], input));
  }

  lemma RecordedNext(s: State, e: Event)
    requires Recorded(s) && Enabled(s, e)
    ensures Recorded(Next(s, e))
  {
    SoundNext(s, e);
    match e
    case Deliver(src, dst, i) =>
      var l := Link(src, dst);
      assert InFlight(s, l, Queue(s.net, l)[i]);
      SoundRemove(s, l, i);
      RecordedMove(Remove(s, l, i), dst, Receive(src, Queue(s.net, l)[i]));
    case Local(r, input) => RecordedMove(s, r, input);
    case _ =>
  }

  lemma RecordedAtFirst(s: State)
    requires Init(s)
    ensures Recorded(s)
  {}

  lemma {:induction false} RecordedRun(run: Run, k: nat)
    requires IsRun(run) && k < |run.states|
    ensures Recorded(run.states[k])
  {
    hide Recorded, Init, Enabled, Next;
    if k > 0 {
      RecordedRun(run, k - 1);
      RecordedNext(run.states[k - 1], run.events[k - 1]);
    } else {
      RecordedAtFirst(run.states[0]);
    }
  }

  /** In every run: if a server votes for two different candidates in one term, the first
      is itself, and it won the term or was demoted in it by an AppendEntries before the
      second vote. */
  lemma VoteDiscipline(run: Run, k: nat, r: nat)
    requires IsRun(run) && k < |run.states| && IsServer(run.states[k], r)
    ensures Disciplined(r, MarksOf(run.states[k].hist, r))
  {
    RecordedRun(run, k);
    assert ServerSound(run.states[k], r);
  }

  /** So no server votes for three different candidates in one term. */
  lemma TwoCandidatesAtMost(run: Run, k: nat, r: nat, a: nat, b: nat, c: nat)
    requires IsRun(run) && k < |run.states| && IsServer(run.states[k], r)
    requires var ms := MarksOf(run.states[k].hist, r);
      && a < |ms| && b < |ms| && c < |ms| && ms[a].Voted? && ms[b].Voted? && ms[c].Voted?
      && ms[a].term == ms[b].term == ms[c].term
    ensures var ms := MarksOf(run.states[k].hist, r);
      || ms[a].candidate == ms[b].candidate
      || ms[b].candidate == ms[c].candidate
      || ms[a].candidate == ms[c].candidate
  {
    VoteDiscipline(run, k, r);
  }
}
