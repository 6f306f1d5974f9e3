/** `match_index` never falls while one server leads over ordered channels. */
module Acknowledgements {
  import opened LogEntries
  import opened Messages
  import opened RaftServer
  import opened RaftClient
  import opened Cluster
  import opened AnyNetwork
  import opened SingleLeader

  // ----- one reaction

  /** This input makes the server leader. */
  predicate WinsWith(v: Server, input: Input) {
    if input.Elapsed? then Majority(1, v.peers)
    else
      && input.Receive? && input.msg.VoteResponse? && input.msg.term <= v.term
      && v.alive && v.status == Candidate
      && Majority(v.voteCount + if input.msg.granted then 1 else 0, v.peers)
  }

  /** A success reply of follower q reports less than the last one that was counted. */
  predicate ReportsLess(v: Server, input: Input, q: nat)
    requires q < |v.matched|
  {
    && input.Receive? && input.msg.AppendResponse? && v.alive
    && input.msg.success && input.msg.follower == q && input.msg.lastIndex < v.matched[q]
  }

  lemma OfficeIff(v: Server, input: Input)
    requires Ready(v, input)
    ensures TakesOffice(v, React(v, input).server) <==> WinsWith(v, input)
  {
    hide Fanout, Splice, AdvanceCommit, UpToDate, Has;
  }

  /** Only a live server's reply from a follower rewrites a slot of one that stays in its role. */
  lemma SlotsKept(v: Server, input: Input)
    requires Ready(v, input) && !WinsWith(v, input)
    requires !(input.Receive? && input.msg.AppendResponse? && v.alive)
    ensures React(v, input).server.matched == v.matched
  {
    hide Fanout, Splice, AdvanceCommit, UpToDate, Has;
    OfficeIff(v, input);
    IndexOf(v, input);
  }

  /** A slot of `match_index` falls exactly when the server takes office or a live one takes a
      success reply that reports less. */
  lemma MatchFallsIff(v: Server, input: Input, q: nat)
    requires Ready(v, input) && Indexed(v) && q <= v.peers
    ensures var w := React(v, input).server;
      && q < |w.matched|
      && (w.matched[q] < v.matched[q] <==> (WinsWith(v, input) && v.matched[q] > -1) || ReportsLess(v, input, q))
  {
    hide React;
    OfficeIff(v, input);
    IndexOf(v, input);
    if WinsWith(v, input) {
      StaysIndexed(v, input);
    } else if input.Receive? && input.msg.AppendResponse? && v.alive {
      SlotOf(v, input.src, input.msg);
    } else {
      SlotsKept(v, input);
    }
  }

  lemma StaysIndexed(v: Server, input: Input)
    requires Ready(v, input)
    ensures React(v, input).server.peers == v.peers
  {
    hide Fanout, Splice, AdvanceCommit, UpToDate, Has;
  }

  // ----- the invariant

  predicate Success(m: Msg) {
    m.AppendResponse? && m.success
  }

  /** The success replies of a queue report ever more, and no less than `low`. */
  ghost predicate Rising(q: seq<Msg>, low: Index) {
    && (forall i :: 0 <= i < |q| && Success(q[i]) ==> low <= q[i].lastIndex)
    && (forall i, j :: 0 <= i < j < |q| && Success(q[i]) && Success(q[j]) ==> q[i].lastIndex <= q[j].lastIndex)
  }

  function Matched(s: State, ld: nat, f: nat): Index
    requires ld < |s.servers|
  {
    if f < |s.servers[ld].matched| then s.servers[ld].matched[f] else -1
  }

  ghost predicate RisesFrom(s: State, ld: nat, f: nat)
    requires ld < |s.servers|
  {
    Rising(Queue(s.net, Link(f, ld)), Matched(s, ld, f))
  }

  ghost predicate Rises(s: State, ld: nat)
    requires ld < |s.servers|
  {
    forall f: nat :: IsServer(s, f) && f != ld ==> RisesFrom(s, ld, f)
  }

  ghost predicate Acked(s: State) {
    && Single(s)
    && (s.hist.wins != [] ==> s.hist.wins[0].rank < |s.servers| && Rises(s, s.hist.wins[0].rank))
  }

  // ----- queues

  lemma RisingWithout(q: seq<Msg>, i: nat, low: Index)
    requires i < |q| && Rising(q, low)
    ensures Rising(Without(q, i), low)
  {}

  /** What comes after the head reports no less than the head. */
  lemma RisingHead(q: seq<Msg>, low: Index)
    requires q != [] && Rising(q, low) && Success(q[0])
    ensures low <= q[0].lastIndex && Rising(Without(q, 0), q[0].lastIndex)
  {}

  lemma RisingAppend(q: seq<Msg>, added: seq<Msg>, low: Index, last: Index)
    requires Rising(q, low) && low <= last
    requires forall m :: m in q && Success(m) ==> m.lastIndex <= last
    requires forall m :: m in added && Success(m) ==> m.lastIndex == last
    ensures Rising(q + added, low)
  {
    var all := q + added;
    assert forall i :: |q| <= i < |all| ==> all[i] in added;
    assert forall i :: 0 <= i < |q| ==> all[i] == q[i] && q[i] in q;
  }

  lemma NothingRises(q: seq<Msg>, low: Index)
    requires forall m :: m in q ==> !Success(m)
    ensures Rising(q, low)
  {}

  // ----- a server's step

  /** A success reply that the leader takes was the head of a rising queue. */
  ghost predicate HeadRises(s: State, ld: nat, r: nat, input: Input)
    requires ld < |s.servers|
  {
    r == ld && input.Receive? && Success(input.msg) ==>
      && Matched(s, ld, input.src) <= input.msg.lastIndex
      && Rising(Queue(s.net, Link(input.src, ld)), input.msg.lastIndex)
  }

  /** The leader's slots move only by the reply that it takes. */
  lemma LeaderSlots(s: State, ld: nat, r: nat, input: Input, o: Outcome, f: nat)
    requires LedBy(s, ld, r, input, o) && HeadRises(s, ld, r, input)
    ensures var s' := Settle(s, r, input, o);
      Matched(s', ld, f) == if r == ld && input.Receive? && Success(input.msg) && f == input.src
                               && Matched(s', ld, f) != Matched(s, ld, f)
                            then input.msg.lastIndex else Matched(s, ld, f)
  {
    hide LedBy, LogAndCommitStep, ReplyStep, MailStep, AheadOf, Owned, Kept, Rising;
    LedFacts(s, ld, r, input, o);
  }

  lemma RisesStep(s: State, ld: nat, r: nat, input: Input, o: Outcome, f: nat)
    requires LedBy(s, ld, r, input, o) && HeadRises(s, ld, r, input)
    requires IsServer(s, f) && f != ld && RisesFrom(s, ld, f)
    ensures RisesFrom(Settle(s, r, input, o), ld, f)
    ensures Matched(s, ld, f) <= Matched(Settle(s, r, input, o), ld, f)
  {
    hide LedBy, Rising;
    LedFacts(s, ld, r, input, o);
    PostQueue(s.net, r, o.sent, Link(f, ld));
    LeaderSlots(s, ld, r, input, o, f);
    assert Queue(s.net, Link(f, ld)) + [] == Queue(s.net, Link(f, ld));
    if r == f { FollowerReports(s, ld, f, input, o); }
  }

  /** A follower's replies join its queue behind everything it reported before. */
  lemma FollowerReports(s: State, ld: nat, f: nat, input: Input, o: Outcome)
    requires LedBy(s, ld, f, input, o) && f != ld && RisesFrom(s, ld, f)
    ensures Rising(Queue(s.net, Link(f, ld)) + MsgsTo(o.sent, ld), Matched(s, ld, f))
  {
    hide LedBy, LogAndCommitStep, IndexStep, ReplyStep, MsgSound, AheadOf, Owned, Kept, ServerSound, Rising;
    LedFacts(s, ld, f, input, o);
    LogMoves(s, ld, f, input, o);
    var l := Link(f, ld);
    var q, added := Queue(s.net, l), MsgsTo(o.sent, ld);
    forall m | m in q && Success(m) ensures m.lastIndex <= |o.server.log| - 1 {
      MailIsLed(s, ld, f, input, o, l, m);
    }
    forall m | m in added && Success(m) ensures m.lastIndex == |o.server.log| - 1 {
      MsgsToMember(o.sent, ld, m);
      assert MailStep(s.servers[f], input, o.server, Envelope(ld, m));
    }
    RisingAppend(q, added, Matched(s, ld, f), |o.server.log| - 1);
  }

  /** Before the first leadership there are no replies. */
  lemma OfficeRises(s: State, r: nat, input: Input, o: Outcome)
    requires BlankStep(s, r, input, o) && TakesOffice(s.servers[r], o.server)
    ensures Rises(Settle(s, r, input, o), r)
  {
    var s' := Settle(s, r, input, o);
    forall f: nat | IsServer(s', f) && f != r ensures RisesFrom(s', r, f) {
      var l := Link(f, r);
      PostQueue(s.net, r, o.sent, l);
      forall m | m in Queue(s'.net, l) ensures !Success(m) { assert InFlight(s, l, m) && BlankMsg(m); }
      NothingRises(Queue(s'.net, l), Matched(s', r, f));
    }
  }

  /** What the step may assume of the message it takes. */
  ghost predicate InputRises(s: State, r: nat, input: Input) {
    s.hist.wins != [] && s.hist.wins[0].rank < |s.servers| ==> HeadRises(s, s.hist.wins[0].rank, r, input)
  }

  /** No slot of the leader's `match_index` fell. */
  ghost predicate Held(s: State, s': State) {
    s.hist.wins != [] && s.hist.wins[0].rank < |s.servers| <= |s'.servers| ==>
      forall f: nat :: IsServer(s, f) ==> Matched(s, s.hist.wins[0].rank, f) <= Matched(s', s.hist.wins[0].rank, f)
  }

  lemma LeaderOwnSlot(s: State, ld: nat, s': State)
    requires |s.servers| == |s'.servers| == s.n + 1 && s'.n == s.n && ld < |s.servers|
    requires Indices(s, ld) && Indices(s', ld)
    ensures Matched(s, ld, ld) == Matched(s', ld, ld)
  {}

  lemma LedRises(s: State, ld: nat, r: nat, input: Input, o: Outcome)
    requires LedBy(s, ld, r, input, o) && HeadRises(s, ld, r, input) && Rises(s, ld)
    ensures Rises(Settle(s, r, input, o), ld)
    ensures forall f: nat :: IsServer(s, f) ==> Matched(s, ld, f) <= Matched(Settle(s, r, input, o), ld, f)
  {
    forall f: nat | IsServer(s, f)
      ensures f != ld ==> RisesFrom(Settle(s, r, input, o), ld, f)
      ensures Matched(s, ld, f) <= Matched(Settle(s, r, input, o), ld, f)
    {
      if f != ld {
        RisesStep(s, ld, r, input, o, f);
      } else {
        IndicesSettle(s, ld, r, input, o);
        LeaderOwnSlot(s, ld, Settle(s, r, input, o));
      }
    }
  }

  lemma AckedMove(s: State, r: nat, input: Input)
    requires Acked(s) && IsServer(s, r) && Ready(s.servers[r], input)
    requires InputLed(s, r, input) && InputRises(s, r, input)
    requires SingleLeadership(Move(s, r, input).hist)
    ensures Acked(Move(s, r, input)) && Held(s, Move(s, r, input))
  {
    var o := React(s.servers[r], input);
    SingleMove(s, r, input);
    if s.hist.wins != [] {
      LedRises(s, s.hist.wins[0].rank, r, input, o);
    } else if TakesOffice(s.servers[r], o.server) {
      assert ServerSound(s, r);
      ReactLedStep(s.servers[r], input);
      OfficeRises(s, r, input, o);
    }
  }

  // ----- every step and every run

  lemma AckedQuiet(s: State, s': State)
    requires Acked(s) && Single(s') && s'.servers == s.servers && s'.hist == s.hist && s'.n == s.n
    requires forall l, low :: ServerLink(s, l) && Rising(Queue(s.net, l), low) ==> Rising(Queue(s'.net, l), low)
    ensures Acked(s') && Held(s, s')
  {
    if s.hist.wins != [] {
      var ld := s.hist.wins[0].rank;
      forall f: nat | IsServer(s, f) && f != ld ensures RisesFrom(s', ld, f) { assert RisesFrom(s, ld, f); }
    }
  }

  lemma AckedRemove(s: State, l: Link, i: nat)
    requires Acked(s) && Holds(s, l, i)
    ensures Acked(Remove(s, l, i)) && Held(s, Remove(s, l, i))
  {
    SingleRemove(s, l, i);
    forall k, low | ServerLink(s, k) && Rising(Queue(s.net, k), low)
      ensures Rising(Queue(Remove(s, l, i).net, k), low)
    {
      TakeQueue(s.net, l, i, k);
      if k == l { RisingWithout(Queue(s.net, l), i, low); }
    }
    AckedQuiet(s, Remove(s, l, i));
  }

  lemma HeadInput(s: State, src: nat, dst: nat)
    requires Acked(s) && IsServer(s, dst) && Holds(s, Link(src, dst), 0)
    ensures InputRises(Remove(s, Link(src, dst), 0), dst, Receive(src, Queue(s.net, Link(src, dst))[0]))
  {
    var l := Link(src, dst);
    var m := Queue(s.net, l)[0];
    assert InFlight(s, l, m) && MsgSound(s, l, m);
    if s.hist.wins != [] && dst == s.hist.wins[0].rank && Success(m) {
      assert RisesFrom(s, dst, src);
      RisingHead(Queue(s.net, l), Matched(s, dst, src));
      TakeQueue(s.net, l, 0, l);
    }
  }

  lemma AckedClientMove(s: State, c: nat, heard: Heard, resend: Option<nat>)
    requires Acked(s) && c in s.clients && s.clients[c].nextResponse < |s.clients[c].commands|
    requires HeardSound(s, c, heard) && (resend.Some? ==> IsServer(s, resend.value))
    ensures Acked(ClientMove(s, c, heard, resend)) && Held(s, ClientMove(s, c, heard, resend))
  {
    SingleClientMove(s, c, heard, resend);
    forall l, low | ServerLink(s, l) && Rising(Queue(s.net, l), low)
      ensures Rising(Queue(ClientMove(s, c, heard, resend).net, l), low)
    {
      PostQueue(s.net, c, Iterate(s.clients[c], heard, resend).sent, l);
    }
    AckedQuiet(s, ClientMove(s, c, heard, resend));
  }

  lemma AckedIteration(s: State, c: nat, from: Source, resend: Option<nat>)
    requires Acked(s) && Enabled(s, Iteration(c, from, resend)) && FifoStep(Iteration(c, from, resend))
    ensures var s' := Next(s, Iteration(c, from, resend)); Acked(s') && Held(s, s')
  {
    hide Led, Rises;
    if from.FromServer? {
      var l := Link(from.src, c);
      assert InFlight(s, l, Queue(s.net, l)[0]) && MsgSound(s, l, Queue(s.net, l)[0]);
      AckedRemove(s, l, 0);
      AckedClientMove(Remove(s, l, 0), c, Answer(Queue(s.net, l)[0]), resend);
    } else {
      AckedClientMove(s, c, if from.Silence? then Nothing else Begin, resend);
    }
  }

  lemma AckedNext(s: State, e: Event)
    requires Acked(s) && Enabled(s, e) && FifoStep(e) && SingleLeadership(Next(s, e).hist)
    ensures Acked(Next(s, e)) && Held(s, Next(s, e))
  {
    hide Led, Rises, Sound;
    match e
    case Deliver(src, dst, i) =>
      HeadLed(s, src, dst);
      HeadInput(s, src, dst);
      AckedRemove(s, Link(src, dst), 0);
      AckedMove(Remove(s, Link(src, dst), 0), dst, Receive(src, Queue(s.net, Link(src, dst))[0]));
    case Local(r, input) => AckedMove(s, r, input);
    case Iteration(c, from, resend) => AckedIteration(s, c, from, resend);
    case Lose(l, i) => AckedRemove(s, l, i);
  }

  lemma AckedAtFirst(s: State)
    requires Init(s)
    ensures Acked(s)
  {
    SingleAtFirst(s);
  }

  lemma {:induction false} AckedRun(run: Run, k: nat)
    requires IsRun(run) && Fifo(run) && SingleLeadership(Last(run).hist) && k < |run.states|
    ensures Acked(run.states[k])
  {
    hide Acked, Held, Init, Enabled, Next;
    if k > 0 {
      AckedRun(run, k - 1);
      EarlierSingle(run, k);
      assert FifoStep(run.events[k - 1]);
      AckedNext(run.states[k - 1], run.events[k - 1]);
    } else {
      AckedAtFirst(run.states[0]);
    }
  }

  /** The one leadership and its vectors stay. */
  lemma SameLeader(run: Run, j: nat, k: nat)
    requires IsRun(run) && Fifo(run) && SingleLeadership(Last(run).hist) && j <= k < |run.states|
    requires run.states[j].hist.wins != []
    ensures var s, t := run.states[j], run.states[k];
      && t.hist.wins == s.hist.wins && t.n == s.n && |s.servers| == |t.servers| == s.n + 1
      && s.hist.wins[0].rank <= s.n
      && |s.servers[s.hist.wins[0].rank].matched| == |t.servers[s.hist.wins[0].rank].matched| == s.n + 1
  {
    NothingIsUndone(run, j, k);
    EarlierSingle(run, k);
    SingleRun(run, j);
    SingleRun(run, k);
  }

  /** In a single-leadership run over ordered, lossy channels, no slot of the leader's
      `match_index` is smaller in a later state. */
  lemma {:induction false} MatchIndexNeverFalls(run: Run, j: nat, k: nat, f: nat)
    requires IsRun(run) && Fifo(run) && SingleLeadership(Last(run).hist) && j <= k < |run.states|
    requires run.states[j].hist.wins != [] && IsServer(run.states[j], f)
    ensures var s, t := run.states[j], run.states[k]; var ld := s.hist.wins[0].rank;
      && ld < |s.servers| == |t.servers| && f < |s.servers[ld].matched| == |t.servers[ld].matched|
      && s.servers[ld].matched[f] <= t.servers[ld].matched[f]
    decreases k
  {
    hide Acked, Enabled, Next;
    SameLeader(run, j, k);
    if j < k {
      MatchIndexNeverFalls(run, j, k - 1, f);
      SameLeader(run, j, k - 1);
      StepHolds(run, k);
      assert Held(run.states[k - 1], run.states[k]);
      assert Matched(run.states[k - 1], run.states[j].hist.wins[0].rank, f)
             <= Matched(run.states[k], run.states[j].hist.wins[0].rank, f);
    }
  }

  lemma StepHolds(run: Run, k: nat)
    requires IsRun(run) && Fifo(run) && SingleLeadership(Last(run).hist) && 0 < k < |run.states|
    ensures Held(run.states[k - 1], run.states[k])
  {
    hide Acked, Held, FifoStep;
    AckedRun(run, k - 1);
    EarlierSingle(run, k);
    AckedNext(run.states[k - 1], run.events[k - 1]);
  }
}
