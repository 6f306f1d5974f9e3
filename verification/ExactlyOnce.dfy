/** A command that was answered was executed exactly once. */
module ExactlyOnce {
  import opened LogEntries
  import opened Messages
  import opened RaftServer
  import opened RaftClient
  import opened Cluster
  import opened AnyNetwork
  import opened Quorums
  import opened SingleLeader

  // ----- the invariant of single-leadership runs, with clients in START mode

  /** The request is one of the client's commands, at most one past those answered. */
  predicate Allowed(c: Client, r: Request) {
    1 <= r.serial <= |c.commands| && r.serial <= c.nextResponse + 1 && c.commands[r.serial - 1] == r
  }

  predicate FromClient(s: State, r: Request) {
    r.client in s.clients && Allowed(s.clients[r.client], r)
  }

  function RequestOf(e: Entry): Request {
    Request(e.command, e.serial, e.client)
  }

  function Successes(q: seq<Msg>): nat
    decreases |q|
  {
    if q == [] then 0
    else Successes(q[..|q| - 1]) + if q[|q| - 1].ClientResponse? && q[|q| - 1].success then 1 else 0
  }

  /** The positions, among all success replies sent, of those sent to c. */
  ghost function AnswersTo(h: History, c: nat): set<nat> {
    set i: nat | i < |h.replies| && h.replies[i] == c
  }

  /** Some answered entry of the leader carries this key. */
  ghost predicate Done(h: History, lead: Log, c: nat, serial: nat) {
    exists i :: 0 <= i < |h.applied| && h.applied[i].index < |lead|
                && lead[h.applied[i].index].client == c && lead[h.applied[i].index].serial == serial
  }

  /** No more replies are delivered or under way than were sent. */
  ghost predicate Counted(s: State, c: nat)
    requires c in s.clients
  {
    forall src: nat :: s.clients[c].nextResponse + Successes(Queue(s.net, Link(src, c))) <= |AnswersTo(s.hist, c)|
  }

  function LeadLog(s: State): Log {
    if s.hist.wins != [] && s.hist.wins[0].rank < |s.servers| then s.servers[s.hist.wins[0].rank].log else []
  }

  ghost predicate Served(s: State) {
    && (forall l, m :: InFlight(s, l, m) && m.ClientRequest? ==> FromClient(s, m.request))
    && (forall e :: e in LeadLog(s) ==> FromClient(s, RequestOf(e)))
    && (forall c :: c in s.clients ==> Counted(s, c))
    && (forall c, k :: c in s.clients && 1 <= k <= s.clients[c].nextResponse ==> Done(s.hist, LeadLog(s), c, k))
  }

  ghost predicate Exact(s: State) {
    Single(s) && Served(s)
  }

  // ----- counting replies

  lemma {:induction false} SuccessesAppend(a: seq<Msg>, b: seq<Msg>)
    ensures Successes(a + b) == Successes(a) + Successes(b)
    decreases |b|
  {
    if b == [] {
      assert a + b == a;
    } else {
      assert (a + b)[..|a + b| - 1] == a + b[..|b| - 1];
      SuccessesAppend(a, b[..|b| - 1]);
    }
  }

  lemma SuccessesOne(m: Msg)
    ensures Successes([m]) == if m.ClientResponse? && m.success then 1 else 0
  {
    assert [m][..0] == [];
  }

  lemma SuccessesFirst(q: seq<Msg>)
    requires q != []
    ensures Successes(q) == Successes(q[1..]) + if q[0].ClientResponse? && q[0].success then 1 else 0
  {
    assert q == [q[0]] + q[1..];
    SuccessesAppend([q[0]], q[1..]);
    SuccessesOne(q[0]);
  }

  lemma SuccessesWithout(q: seq<Msg>, i: nat)
    requires i < |q|
    ensures Successes(q) == Successes(Without(q, i)) + if q[i].ClientResponse? && q[i].success then 1 else 0
  {
    if i == 0 {
      SuccessesFirst(q);
    } else {
      assert q == q[..i] + q[i..] && q[i..][1..] == q[i + 1..];
      SuccessesAppend(q[..i], q[i..]);
      SuccessesFirst(q[i..]);
      SuccessesAppend(q[..i], q[i + 1..]);
    }
  }

  lemma {:induction false} NoSuccesses(q: seq<Msg>)
    requires forall m :: m in q ==> !(m.ClientResponse? && m.success)
    ensures Successes(q) == 0
    decreases |q|
  {
    if q != [] { NoSuccesses(q[..|q| - 1]); }
  }

  lemma AnswersAppend(h: History, h': History, c: nat)
    requires h'.replies == h.replies
    ensures AnswersTo(h', c) == AnswersTo(h, c)
  {}

  lemma AnswersMore(h: History, h': History, to: nat, c: nat)
    requires h'.replies == h.replies + [to]
    ensures |AnswersTo(h', c)| == |AnswersTo(h, c)| + if c == to then 1 else 0
  {
    if c == to {
      assert AnswersTo(h', c) == AnswersTo(h, c) + {|h.replies|};
    } else {
      assert AnswersTo(h', c) == AnswersTo(h, c);
    }
  }

  // ----- a server's step

  /** The facts about a server's step that serving depends on. */
  ghost predicate ServeStep(s: State, r: nat, input: Input, o: Outcome)
    requires r < |s.servers|
  {
    var s' := Settle(s, r, input, o);
    && (forall e :: e in o.sent ==> !e.msg.ClientRequest?)
    && (forall e :: e in LeadLog(s') ==>
          e in LeadLog(s) || (input.Receive? && input.msg.ClientRequest? && RequestOf(e) == input.msg.request))
    && LeadLog(s) <= LeadLog(s')
    && s.hist.applied <= s'.hist.applied
    && (if NewReplies(o.sent) == [] then (forall e :: e in o.sent ==> !(e.msg.ClientResponse? && e.msg.success))
        else |o.sent| == 1 && s'.hist.replies == s.hist.replies + [o.sent[0].dst])
  }

  lemma ServedSettle(s: State, r: nat, input: Input, o: Outcome)
    requires Served(s) && r < |s.servers| && ServeStep(s, r, input, o)
    requires input.Receive? && input.msg.ClientRequest? ==> FromClient(s, input.msg.request)
    ensures Served(Settle(s, r, input, o))
  {
    var s' := Settle(s, r, input, o);
    forall l, m | InFlight(s', l, m) && m.ClientRequest? ensures FromClient(s', m.request) {
      PostMember(s.net, r, o.sent, l, m);
      assert InFlight(s, l, m);
    }
    forall c | c in s'.clients ensures Counted(s', c) { CountedSettle(s, r, input, o, c); }
    forall c, k | c in s'.clients && 1 <= k <= s'.clients[c].nextResponse
      ensures Done(s'.hist, LeadLog(s'), c, k)
    {
      assert Done(s.hist, LeadLog(s), c, k);
      DoneStays(s.hist, s'.hist, LeadLog(s), LeadLog(s'), c, k);
    }
  }

  lemma DoneStays(h: History, h': History, a: Log, b: Log, c: nat, k: nat)
    requires Done(h, a, c, k) && a <= b && h.applied <= h'.applied
    ensures Done(h', b, c, k)
  {
    var i :| 0 <= i < |h.applied| && h.applied[i].index < |a|
             && a[h.applied[i].index].client == c && a[h.applied[i].index].serial == k;
    assert h'.applied[i] == h.applied[i] && b[h.applied[i].index] == a[h.applied[i].index];
  }

  lemma CountedSettle(s: State, r: nat, input: Input, o: Outcome, c: nat)
    requires Served(s) && r < |s.servers| && ServeStep(s, r, input, o) && c in s.clients
    ensures Counted(Settle(s, r, input, o), c)
  {
    var s' := Settle(s, r, input, o);
    assert Counted(s, c);
    forall src: nat
      ensures s'.clients[c].nextResponse + Successes(Queue(s'.net, Link(src, c))) <= |AnswersTo(s'.hist, c)|
    {
      var l := Link(src, c);
      var added := if l.src == r then MsgsTo(o.sent, c) else [];
      PostQueue(s.net, r, o.sent, l);
      SuccessesAppend(Queue(s.net, l), added);
      if NewReplies(o.sent) == [] {
        forall m | m in added ensures !(m.ClientResponse? && m.success) { MsgsToMember(o.sent, c, m); }
        NoSuccesses(added);
        AnswersAppend(s.hist, s'.hist, c);
      } else {
        var e := o.sent[0];
        assert o.sent[..0] == [];
        assert MsgsTo(o.sent, c) == if e.dst == c then [e.msg] else [];
        SuccessesOne(e.msg);
        AnswersMore(s.hist, s'.hist, e.dst, c);
      }
    }
  }

  /** The leader's log grows only by the request of a client. */
  lemma LeadLogStep(s: State, ld: nat, r: nat, input: Input, o: Outcome)
    requires LedBy(s, ld, r, input, o) && s.hist.wins != [] && s.hist.wins[0].rank == ld
    ensures var s' := Settle(s, r, input, o);
      || LeadLog(s') == LeadLog(s)
      || (input.Receive? && input.msg.ClientRequest?
          && LeadLog(s') == LeadLog(s) + [EntryFor(s.servers[r].term, input.msg.request)])
  {
    hide LedBy, IndexStep, ReplyStep, MailStep, MsgSound, MsgLed, AheadOf, Owned, Kept, Accepts;
    LedFacts(s, ld, r, input, o);
    if r == ld { LeaderAccepts(s, ld, input, o); }
  }

  lemma LeadLogSettle(s: State, ld: nat, r: nat, input: Input, o: Outcome)
    requires LedBy(s, ld, r, input, o) && s.hist.wins != [] && s.hist.wins[0].rank == ld
    ensures var s' := Settle(s, r, input, o);
      LeadLog(s) <= LeadLog(s')
      && forall e :: e in LeadLog(s') ==>
           e in LeadLog(s) || (input.Receive? && input.msg.ClientRequest? && RequestOf(e) == input.msg.request)
  {
    hide LedBy, LeadLog;
    LeadLogStep(s, ld, r, input, o);
  }

  /** Only the reply of an applied entry reports success. */
  lemma SuccessMail(v: Server, input: Input)
    requires Ready(v, input)
    ensures var sent := React(v, input).sent;
      && (forall e :: e in sent ==> !e.msg.ClientRequest?)
      && (NewReplies(sent) == [] ==> forall e :: e in sent ==> !(e.msg.ClientResponse? && e.msg.success))
  {
    var sent := React(v, input).sent;
    forall e | e in sent
      ensures !e.msg.ClientRequest? && (e.msg.ClientResponse? && e.msg.success ==> NewReplies(sent) != [])
    {
      ReactSends(v, input, e);
    }
  }

  lemma RecordGrows(h: History, v: Server, input: Input, o: Outcome)
    ensures var h' := Record(h, v, input, o);
      h.applied <= h'.applied && h'.replies == h.replies + NewReplies(o.sent)
    ensures NewReplies(o.sent) != [] ==> |o.sent| == 1 && NewReplies(o.sent) == [o.sent[0].dst]
  {}

  lemma LeadLogAfter(s: State, r: nat, input: Input, o: Outcome)
    requires Single(s) && IsServer(s, r)
    requires if s.hist.wins != [] then LedBy(s, s.hist.wins[0].rank, r, input, o)
             else LeadLog(Settle(s, r, input, o)) == []
    ensures var s' := Settle(s, r, input, o);
      LeadLog(s) <= LeadLog(s')
      && forall e :: e in LeadLog(s') ==>
           e in LeadLog(s) || (input.Receive? && input.msg.ClientRequest? && RequestOf(e) == input.msg.request)
  {
    if s.hist.wins != [] { LeadLogSettle(s, s.hist.wins[0].rank, r, input, o); }
  }

  lemma ServeStepMove(s: State, r: nat, input: Input)
    requires Single(s) && IsServer(s, r) && Ready(s.servers[r], input) && InputLed(s, r, input)
    requires SingleLeadership(Move(s, r, input).hist)
    ensures ServeStep(s, r, input, React(s.servers[r], input))
  {
    SingleMove(s, r, input);
    SuccessMail(s.servers[r], input);
    if s.hist.wins == [] { SingleBlankLog(s, r, input); }
    LeadLogAfter(s, r, input, React(s.servers[r], input));
    RecordGrows(s.hist, s.servers[r], input, React(s.servers[r], input));
  }

  lemma SingleBlankLog(s: State, r: nat, input: Input)
    requires Single(s) && s.hist.wins == [] && IsServer(s, r) && Ready(s.servers[r], input) && InputLed(s, r, input)
    ensures LeadLog(Move(s, r, input)) == []
  {
    assert ServerSound(s, r);
    ReactLedStep(s.servers[r], input);
    BlankAfter(s, r, input, React(s.servers[r], input));
  }

  // ----- a client's step

  /** n + 1 replies to a client that has asked for at most n + 1 commands: it asked for each,
      and each is done. */
  lemma AllAnswered(s: State, c: nat, n: nat, k: nat)
    requires Exact(s) && c in s.clients && s.clients[c].nextResponse == n && s.hist.wins != []
    requires |AnswersTo(s.hist, c)| >= n + 1 && 1 <= k <= n + 1
    ensures Done(s.hist, LeadLog(s), c, k)
  {
    hide Indices, HeldByMajority;
    var ld := s.hist.wins[0].rank;
    var lead := LeadLog(s);
    var h := s.hist;
    assert ServerSound(s, ld) && Answered(h, s.servers[ld]);
    var serials := map i | i in AnswersTo(h, c) :: lead[h.applied[i].index].serial;
    assert serials.Keys == AnswersTo(h, c);
    forall i | i in serials ensures serials[i] in Ranks(n + 1) {
      assert FromClient(s, RequestOf(lead[h.applied[i].index]));
    }
    forall i, j | i in serials && j in serials && serials[i] == serials[j] ensures i == j {
      KeyOnce(lead, h.applied[i].index, h.applied[j].index);
    }
    Pigeonhole(serials, n + 1, k);
  }

  /** A success that a client hears was counted before it was taken from the queue. */
  ghost predicate HeardCounted(s: State, c: nat, heard: Heard)
    requires c in s.clients
  {
    heard.Answer? && heard.msg.ClientResponse? && heard.msg.success ==>
      s.hist.wins != []
      && forall src: nat ::
           s.clients[c].nextResponse + 1 + Successes(Queue(s.net, Link(src, c))) <= |AnswersTo(s.hist, c)|
  }

  lemma IterateCounts(c: Client, heard: Heard, resend: Option<nat>)
    requires Orderly(c) && c.nextResponse < |c.commands|
    ensures var c' := Iterate(c, heard, resend).client;
      && c'.commands == c.commands && c'.rank == c.rank
      && c'.nextResponse == c.nextResponse
           + if heard.Answer? && heard.msg.ClientResponse? && heard.msg.success then 1 else 0
  {}

  lemma SentAllowed(s: State, c: nat, heard: Heard, resend: Option<nat>, e: Envelope)
    requires Sound(s) && c in s.clients && s.clients[c].nextResponse < |s.clients[c].commands|
    requires e in Iterate(s.clients[c], heard, resend).sent
    ensures e.msg.ClientRequest? && e.msg.request.client == c && Allowed(s.clients[c], e.msg.request)
  {
    ClientSends(s.clients[c], heard, resend, e);
  }

  lemma CountedClientMove(s: State, c: nat, heard: Heard, resend: Option<nat>, d: nat)
    requires Exact(s) && c in s.clients && s.clients[c].nextResponse < |s.clients[c].commands|
    requires HeardCounted(s, c, heard) && d in s.clients
    ensures Counted(ClientMove(s, c, heard, resend), d)
  {
    var s' := ClientMove(s, c, heard, resend);
    var sent := Iterate(s.clients[c], heard, resend).sent;
    IterateCounts(s.clients[c], heard, resend);
    assert Counted(s, d);
    forall src: nat
      ensures s'.clients[d].nextResponse + Successes(Queue(s'.net, Link(src, d))) <= |AnswersTo(s'.hist, d)|
    {
      var l := Link(src, d);
      var added := if l.src == c then MsgsTo(sent, d) else [];
      PostQueue(s.net, c, sent, l);
      SuccessesAppend(Queue(s.net, l), added);
      forall m | m in added ensures !m.ClientResponse? {
        MsgsToMember(sent, d, m);
        SentAllowed(s, c, heard, resend, Envelope(d, m));
      }
      NoSuccesses(added);
    }
  }

  lemma ServedClientMove(s: State, c: nat, heard: Heard, resend: Option<nat>)
    requires Exact(s) && c in s.clients && s.clients[c].nextResponse < |s.clients[c].commands|
    requires HeardCounted(s, c, heard)
    ensures Served(ClientMove(s, c, heard, resend))
  {
    hide Iterate, Done, Counted, Led, LedBy;
    var s' := ClientMove(s, c, heard, resend);
    var sent := Iterate(s.clients[c], heard, resend).sent;
    IterateCounts(s.clients[c], heard, resend);
    forall r | FromClient(s, r) ensures FromClient(s', r) {}
    forall l, m | InFlight(s', l, m) && m.ClientRequest? ensures FromClient(s', m.request) {
      PostMember(s.net, c, sent, l, m);
      if !InFlight(s, l, m) { SentAllowed(s, c, heard, resend, Envelope(l.dst, m)); }
    }
    forall d | d in s'.clients ensures Counted(s', d) { CountedClientMove(s, c, heard, resend, d); }
    forall d, k | d in s'.clients && 1 <= k <= s'.clients[d].nextResponse
      ensures Done(s'.hist, LeadLog(s'), d, k)
    {
      if d == c && k == s.clients[c].nextResponse + 1 {
        assert s.clients[c].nextResponse + 1 + Successes(Queue(s.net, Link(0, c))) <= |AnswersTo(s.hist, c)|;
        AllAnswered(s, c, k - 1, k);
      } else {
        assert Done(s.hist, LeadLog(s), d, k);
      }
    }
  }

  // ----- every step and every run

  lemma ServedRemove(s: State, l: Link, i: nat)
    requires Exact(s) && Holds(s, l, i)
    ensures Exact(Remove(s, l, i))
    ensures l.dst in s.clients ==> HeardCounted(Remove(s, l, i), l.dst, Answer(Queue(s.net, l)[i]))
  {
    var s' := Remove(s, l, i);
    SingleRemove(s, l, i);
    SuccessesWithout(Queue(s.net, l), i);
    forall k, m | InFlight(s', k, m) && m.ClientRequest? ensures FromClient(s', m.request) {
      TakeMember(s.net, l, i, k, m);
      assert InFlight(s, k, m);
    }
    forall c | c in s'.clients ensures Counted(s', c) { assert Counted(s, c); }
    if l.dst in s.clients { RemovedCounted(s, l, i); }
    assert LeadLog(s') == LeadLog(s);
  }

  lemma RemovedCounted(s: State, l: Link, i: nat)
    requires Exact(s) && Holds(s, l, i) && l.dst in s.clients
    ensures HeardCounted(Remove(s, l, i), l.dst, Answer(Queue(s.net, l)[i]))
  {
    var m := Queue(s.net, l)[i];
    assert InFlight(s, l, m) && Counted(s, l.dst);
    SuccessesWithout(Queue(s.net, l), i);
    if m.ClientResponse? && m.success {
      assert s.hist.wins != [] by { assert s.hist.wins == [] ==> BlankMsg(m); }
      var ld := s.hist.wins[0].rank;
      assert MsgLed(s, ld, l, m);
      forall src: nat | src != l.src ensures Successes(Queue(s.net, Link(src, l.dst))) == 0 {
        var k := Link(src, l.dst);
        forall x | x in Queue(s.net, k) ensures !(x.ClientResponse? && x.success) {
          assert InFlight(s, k, x) && MsgLed(s, ld, k, x);
        }
        NoSuccesses(Queue(s.net, k));
      }
    }
  }

  lemma ExactMove(s: State, r: nat, input: Input)
    requires Exact(s) && IsServer(s, r) && Ready(s.servers[r], input) && InputLed(s, r, input)
    requires SingleLeadership(Move(s, r, input).hist)
    requires input.Receive? && input.msg.ClientRequest? ==> FromClient(s, input.msg.request)
    ensures Exact(Move(s, r, input))
  {
    SingleMove(s, r, input);
    ServeStepMove(s, r, input);
    ServedSettle(s, r, input, React(s.servers[r], input));
  }

  lemma ServedIteration(s: State, c: nat, from: Source, resend: Option<nat>)
    requires Exact(s) && Enabled(s, Iteration(c, from, resend)) && FifoStep(Iteration(c, from, resend))
    ensures Served(Next(s, Iteration(c, from, resend)))
  {
    hide Led, Counted;
    if from.FromServer? {
      var l := Link(from.src, c);
      ServedRemove(s, l, 0);
      ServedClientMove(Remove(s, l, 0), c, Answer(Queue(s.net, l)[0]), resend);
    } else {
      ServedClientMove(s, c, if from.Silence? then Nothing else Begin, resend);
    }
  }

  lemma ExactNext(s: State, e: Event)
    requires Exact(s) && Enabled(s, e) && FifoStep(e) && SingleLeadership(Next(s, e).hist)
    ensures Exact(Next(s, e))
  {
    hide Led, Counted;
    SingleNext(s, e);
    match e
    case Deliver(src, dst, i) =>
      var l := Link(src, dst);
      assert InFlight(s, l, Queue(s.net, l)[0]);
      HeadLed(s, src, dst);
      ServedRemove(s, l, 0);
      ExactMove(Remove(s, l, 0), dst, Receive(src, Queue(s.net, l)[0]));
    case Local(r, input) => ExactMove(s, r, input);
    case Iteration(c, from, resend) => ServedIteration(s, c, from, resend);
    case Lose(l, i) => ServedRemove(s, l, i);
  }

  lemma ExactAtFirst(s: State)
    requires Init(s)
    ensures Exact(s)
  {
    SingleAtFirst(s);
  }

  lemma {:induction false} ExactRun(run: Run, k: nat)
    requires IsRun(run) && Fifo(run) && SingleLeadership(Last(run).hist) && k < |run.states|
    ensures Exact(run.states[k])
  {
    hide Exact, Init, Enabled, Next;
    if k > 0 {
      ExactRun(run, k - 1);
      EarlierSingle(run, k);
      assert FifoStep(run.events[k - 1]);
      ExactNext(run.states[k - 1], run.events[k - 1]);
    } else {
      ExactAtFirst(run.states[0]);
    }
  }

  /** The leader's log holds this command of the client at i; it was applied there, and a
      majority holds it. */
  ghost predicate ExecutedAt(s: State, ld: nat, command: Request, i: nat)
    requires |s.servers| == s.n + 1 && ld < |s.servers|
  {
    && i < |s.servers[ld].log| && RequestOf(s.servers[ld].log[i]) == command
    && i <= s.servers[ld].applied && HeldByMajority(s, ld, i)
  }

  /** Exactly once: each of the commands 1..nextResponse of a client stands in the leader's
      log, applied there and held by a majority, and no other position of that log carries
      its key. */
  lemma AnsweredCommandsExecutedOnce(run: Run, k: nat, c: nat, j: nat)
    requires IsRun(run) && Fifo(run) && SingleLeadership(Last(run).hist) && k < |run.states|
    requires c in run.states[k].clients
    requires j < run.states[k].clients[c].nextResponse && j < |run.states[k].clients[c].commands|
    ensures var s := run.states[k]; var command := s.clients[c].commands[j];
      && s.hist.wins != [] && |s.servers| == s.n + 1 && s.hist.wins[0].rank < |s.servers|
      && exists i :: ExecutedAt(s, s.hist.wins[0].rank, command, i)
           && forall x :: 0 <= x < |LeadLog(s)| && LeadLog(s)[x].client == c && LeadLog(s)[x].serial == command.serial
                ==> x == i
  {
    ExactRun(run, k);
    var i := DoneOnce(run.states[k], c, j);
  }

  lemma DoneOnce(s: State, c: nat, j: nat) returns (i: nat)
    requires Exact(s) && c in s.clients && j < s.clients[c].nextResponse && j < |s.clients[c].commands|
    ensures s.hist.wins != [] && s.hist.wins[0].rank < |s.servers|
    ensures ExecutedAt(s, s.hist.wins[0].rank, s.clients[c].commands[j], i)
    ensures forall x :: 0 <= x < |LeadLog(s)| && LeadLog(s)[x].client == c && LeadLog(s)[x].serial == j + 1 ==> x == i
    ensures s.clients[c].commands[j].serial == j + 1
  {
    var h, lead := s.hist, LeadLog(s);
    assert Done(h, lead, c, j + 1);
    var a :| 0 <= a < |h.applied| && h.applied[a].index < |lead|
             && lead[h.applied[a].index].client == c && lead[h.applied[a].index].serial == j + 1;
    i := h.applied[a].index;
    var ld := s.hist.wins[0].rank;
    assert ServerSound(s, ld) && Answered(h, s.servers[ld]) && Follows(s, ld, ld);
    assert FromClient(s, RequestOf(lead[i]));
    CommittedIsHeld(s, ld, i);
    forall x | 0 <= x < |lead| && lead[x].client == c && lead[x].serial == j + 1 ensures x == i {
      KeyOnce(lead, x, i);
    }
  }

  /** A client never has more answers, delivered or under way on a channel, than success
      replies were sent to it. */
  lemma RepliesNotMultiplied(run: Run, k: nat, c: nat, src: nat)
    requires IsRun(run) && Fifo(run) && SingleLeadership(Last(run).hist) && k < |run.states|
    requires c in run.states[k].clients
    ensures var s := run.states[k];
      s.clients[c].nextResponse + Successes(Queue(s.net, Link(src, c))) <= |AnswersTo(s.hist, c)|
  {
    ExactRun(run, k);
    assert Counted(run.states[k], c);
  }
}
