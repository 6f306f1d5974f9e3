/** Concrete runs of three servers, followed step by step. A scene remembers the servers, the
    clients and the queues that matter; `Reached` ties it to the last state of a run. Each lemma
    extends a run by one step: `Acts` for a server's own rule and `Takes` for a message, with
    the forms in which nothing, one message or a round of mail is sent; `Turns` for a client's
    iteration; `StartsElection` and `Wins` for the two steps that mail everybody. */
module Scenes {
  import opened LogEntries
  import opened Messages
  import opened RaftServer
  import opened RaftClient
  import opened Cluster

  // ----- runs under rules

  /** What a run abstains from, besides repeating messages. */
  datatype Rules = Rules(fifo: bool, noLoss: bool, noCrash: bool, timely: bool)

  const STRICT := Rules(true, true, true, true)

  predicate Admits(rules: Rules, s: State, e: Event) {
    && SingleCopyStep(e)
    && (rules.fifo ==> FifoStep(e))
    && (rules.noLoss ==> !e.Lose?)
    && (rules.noCrash ==> !(e.Local? && e.input.Crash?))
    && (rules.timely ==> TimelyStep(s, e))
  }

  ghost predicate AdmitsAt(rules: Rules, run: Run, k: nat)
    requires k < |run.events| < |run.states|
  {
    Admits(rules, run.states[k], run.events[k])
  }

  ghost predicate Obeys(run: Run, rules: Rules) {
    IsRun(run) && forall k: nat :: k < |run.events| ==> AdmitsAt(rules, run, k)
  }

  /** No message is lost on the network. */
  ghost predicate NoLoss(run: Run) {
    forall k :: 0 <= k < |run.events| ==> !run.events[k].Lose?
  }

  ghost predicate NoCrash(run: Run) {
    forall k :: 0 <= k < |run.events| ==> !(run.events[k].Local? && run.events[k].input.Crash?)
  }

  lemma Obeyed(run: Run, rules: Rules)
    requires Obeys(run, rules)
    ensures IsRun(run) && SingleCopy(run)
    ensures (rules.fifo ==> Fifo(run)) && (rules.timely ==> Timely(run))
    ensures (rules.noLoss ==> NoLoss(run)) && (rules.noCrash ==> NoCrash(run))
    ensures rules.noLoss && rules.noCrash ==> Lossless(run)
  {
    forall k: nat | k < |run.events| ensures Admits(rules, run.states[k], run.events[k]) {
      assert AdmitsAt(rules, run, k);
    }
  }

  function Longer(run: Run, e: Event): Run
    requires run.states != [] && Enabled(Last(run), e)
  {
    Run(run.states + [Next(Last(run), e)], run.events + [e])
  }

  /** The later run starts with the states of the earlier one. */
  predicate Continues(run: Run, longer: Run) {
    run.states < longer.states
  }

  lemma LongerIsRun(run: Run, e: Event)
    requires IsRun(run) && Enabled(Last(run), e)
    ensures IsRun(Longer(run, e))
  {
    var longer := Longer(run, e);
    forall k | 0 <= k < |longer.events|
      ensures Enabled(longer.states[k], longer.events[k])
              && longer.states[k + 1] == Next(longer.states[k], longer.events[k])
    {
      if k < |run.events| {
        assert longer.states[k] == run.states[k] && longer.states[k + 1] == run.states[k + 1];
      }
    }
  }

  lemma Extend(run: Run, rules: Rules, e: Event) returns (longer: Run)
    requires Obeys(run, rules) && Enabled(Last(run), e) && Admits(rules, Last(run), e)
    ensures Obeys(longer, rules) && Last(longer) == Next(Last(run), e) && Continues(run, longer)
  {
    LongerIsRun(run, e);
    longer := Longer(run, e);
    forall k: nat | k < |longer.events| ensures AdmitsAt(rules, longer, k) {
      if k < |run.events| { assert AdmitsAt(rules, run, k); }
    }
  }

  // ----- scenes

  /** The servers, clients and queues that a story follows, and how often a server took office. */
  datatype Scene = Scene(
    servers: map<nat, Server>, clients: map<nat, Client>, net: map<Link, seq<Msg>>, wins: nat)

  ghost predicate Shows(s: State, p: Scene) {
    && s.n == 3 && |s.servers| == 4 && |s.hist.wins| == p.wins
    && (forall r :: r in p.servers ==> 1 <= r <= 3 && s.servers[r] == p.servers[r])
    && (forall c :: c in p.clients ==> c in s.clients && s.clients[c] == p.clients[c])
    && (forall l :: l in p.net ==> Queue(s.net, l) == p.net[l])
  }

  ghost predicate Reached(run: Run, rules: Rules, p: Scene) {
    Obeys(run, rules) && Shows(Last(run), p)
  }

  /** A scene that remembers no more. */
  ghost predicate Recalls(p: Scene, p': Scene) {
    && p'.wins == p.wins
    && (forall r :: r in p'.servers ==> r in p.servers && p'.servers[r] == p.servers[r])
    && (forall c :: c in p'.clients ==> c in p.clients && p'.clients[c] == p.clients[c])
    && (forall l :: l in p'.net ==> l in p.net && p'.net[l] == p.net[l])
  }

  /** What an earlier run reached is a state of the later one. */
  lemma WasReached(early: Run, rules: Rules, p: Scene, run: Run)
    requires Reached(early, rules, p) && Continues(early, run)
    ensures 0 <= |early.states| - 1 < |run.states| - 1 && Shows(run.states[|early.states| - 1], p)
  {}

  lemma Forgets(run: Run, rules: Rules, p: Scene, p': Scene)
    requires Reached(run, rules, p) && Recalls(p, p')
    ensures Reached(run, rules, p')
  {}

  function Join(q: seq<Msg>, more: seq<Msg>): (r: seq<Msg>)
    ensures r == q + more
  {
    if q == [] then more else if more == [] then q else q + more
  }

  /** The queue from a to b, as far as the story follows it. */
  function Box(p: Scene, a: nat, b: nat): seq<Msg> {
    if Link(a, b) in p.net then p.net[Link(a, b)] else []
  }

  function Put(net: map<Link, seq<Msg>>, l: Link, ms: seq<Msg>): map<Link, seq<Msg>> {
    if l in net && ms != [] then net[l := Join(net[l], ms)] else net
  }

  /** The scene without message i of a queue. */
  function Opened(p: Scene, l: Link, i: nat): Scene
    requires l in p.net && i < |p.net[l]|
  {
    p.(net := p.net[l := Without(p.net[l], i)])
  }

  /** Server r turned into w, and its queue to `dst` grew. */
  function Told(p: Scene, r: nat, w: Server, dst: nat, ms: seq<Msg>): Scene
    requires r in p.servers
  {
    Scene(p.servers[r := w], p.clients, Put(p.net, Link(r, dst), ms),
          p.wins + if TakesOffice(p.servers[r], w) then 1 else 0)
  }

  /** Server r turned into w and mailed m to every other server. */
  function Spread(p: Scene, r: nat, w: Server, m: Msg): Scene
    requires r in p.servers
  {
    var q := Told(p, r, w, if r == 1 then 2 else 1, [m]);
    q.(net := Put(q.net, Link(r, if r == 3 then 2 else 3), [m]))
  }

  predicate Peer(r: nat, q: nat) {
    1 <= q <= 3 && q != r
  }

  /** Of the followed queues of process r, only the one to `dst` gains mail, namely ms. */
  ghost predicate Tells(p: Scene, r: nat, out: seq<Envelope>, dst: nat, ms: seq<Msg>) {
    forall l :: l in p.net && l.src == r ==> MsgsTo(out, l.dst) == if l.dst == dst then ms else []
  }

  /** A round of mail to both other servers. */
  ghost predicate Spreads(out: seq<Envelope>, r: nat, m: Msg) {
    forall q: nat :: MailsAs(out, r, m, q)
  }

  predicate MailsAs(out: seq<Envelope>, r: nat, m: Msg, q: nat) {
    MsgsTo(out, q) == if Peer(r, q) then [m] else []
  }

  /** The followed queues after process r mailed `out`. */
  ghost predicate Carries(p: Scene, p': Scene, r: nat, out: seq<Envelope>) {
    && p'.net.Keys == p.net.Keys
    && forall l :: l in p.net ==> p'.net[l] == p.net[l] + if l.src == r then MsgsTo(out, l.dst) else []
  }

  lemma ToldCarries(p: Scene, r: nat, w: Server, out: seq<Envelope>, dst: nat, ms: seq<Msg>)
    requires r in p.servers && Tells(p, r, out, dst, ms)
    ensures Carries(p, Told(p, r, w, dst, ms), r, out)
  {}

  lemma SpreadCarries(p: Scene, r: nat, w: Server, out: seq<Envelope>, m: Msg)
    requires 1 <= r <= 3 && r in p.servers && Spreads(out, r, m)
    ensures Carries(p, Spread(p, r, w, m), r, out)
  {
    forall l | l in p.net
      ensures Spread(p, r, w, m).net[l] == p.net[l] + if l.src == r then MsgsTo(out, l.dst) else []
    {
      assert MailsAs(out, r, m, l.dst);
    }
  }

  lemma OneTells(p: Scene, r: nat, e: Envelope)
    ensures Tells(p, r, [e], e.dst, [e.msg])
  {
    forall l | l in p.net && l.src == r ensures MsgsTo([e], l.dst) == if l.dst == e.dst then [e.msg] else [] {
      OneMail(e, l.dst);
    }
  }

  lemma SettleShows(s: State, p: Scene, r: nat, input: Input, o: Outcome, p': Scene)
    requires Shows(s, p) && r in p.servers && Carries(p, p', r, o.sent)
    requires p'.servers == p.servers[r := o.server] && p'.clients == p.clients
    requires p'.wins == p.wins + if TakesOffice(p.servers[r], o.server) then 1 else 0
    ensures Shows(Settle(s, r, input, o), p')
  {
    forall l | l in p'.net ensures Queue(Settle(s, r, input, o).net, l) == p'.net[l] {
      PostQueue(s.net, r, o.sent, l);
    }
  }

  lemma OpenedShows(s: State, p: Scene, l: Link, i: nat)
    requires Shows(s, p) && l in p.net && i < |p.net[l]|
    ensures Holds(s, l, i) && Shows(Remove(s, l, i), Opened(p, l, i))
  {
    forall k | k in p.net ensures Queue(Take(s.net, l, i), k) == Opened(p, l, i).net[k] { TakeQueue(s.net, l, i, k); }
  }

  // ----- a server's own step

  lemma Acts(run: Run, rules: Rules, p: Scene, r: nat, input: Input, o: Outcome, p': Scene) returns (longer: Run)
    requires Reached(run, rules, p) && r in p.servers && !input.Receive? && (rules.noCrash ==> !input.Crash?)
    requires Ready(p.servers[r], input) && o == React(p.servers[r], input)
    requires Carries(p, p', r, o.sent) && p'.servers == p.servers[r := o.server] && p'.clients == p.clients
    requires p'.wins == p.wins + if TakesOffice(p.servers[r], o.server) then 1 else 0
    ensures Reached(longer, rules, p') && Continues(run, longer)
  {
    longer := Extend(run, rules, Local(r, input));
    SettleShows(Last(run), p, r, input, o, p');
  }

  /** ... whose mail, as far as it is followed, goes to one process. */
  lemma Does(run: Run, rules: Rules, p: Scene, r: nat, input: Input, o: Outcome, dst: nat, ms: seq<Msg>)
    returns (longer: Run, p': Scene)
    requires Reached(run, rules, p) && r in p.servers && !input.Receive? && (rules.noCrash ==> !input.Crash?)
    requires Ready(p.servers[r], input) && o == React(p.servers[r], input) && Tells(p, r, o.sent, dst, ms)
    ensures p' == Told(p, r, o.server, dst, ms) && Reached(longer, rules, p') && Continues(run, longer)
  {
    p' := Told(p, r, o.server, dst, ms);
    ToldCarries(p, r, o.server, o.sent, dst, ms);
    longer := Acts(run, rules, p, r, input, o, p');
  }

  /** ... which mails both other servers alike. */
  lemma DoesToAll(run: Run, rules: Rules, p: Scene, r: nat, input: Input, o: Outcome, m: Msg)
    returns (longer: Run, p': Scene)
    requires Reached(run, rules, p) && r in p.servers && !input.Receive? && (rules.noCrash ==> !input.Crash?)
    requires Ready(p.servers[r], input) && o == React(p.servers[r], input) && Spreads(o.sent, r, m)
    ensures p' == Spread(p, r, o.server, m) && Reached(longer, rules, p')
  {
    p' := Spread(p, r, o.server, m);
    SpreadCarries(p, r, o.server, o.sent, m);
    longer := Acts(run, rules, p, r, input, o, p');
  }

  // ----- a server takes a message

  /** Message i of a followed queue may be taken. */
  predicate Takable(rules: Rules, p: Scene, src: nat, r: nat, i: nat) {
    && r in p.servers && Link(src, r) in p.net && i < |Box(p, src, r)|
    && (rules.fifo ==> i == 0)
    && var v, m := p.servers[r], Box(p, src, r)[i];
      Ready(v, Receive(src, m))
      && (rules.timely && m.VoteResponse? && v.status == Candidate ==> v.term <= m.term)
  }

  lemma CanTake(s: State, rules: Rules, p: Scene, src: nat, r: nat, i: nat)
    requires Shows(s, p) && Takable(rules, p, src, r, i)
    ensures Enabled(s, Deliver(src, r, i)) && Admits(rules, s, Deliver(src, r, i))
  {}

  lemma DeliverySettles(s: State, src: nat, r: nat, i: nat, m: Msg, o: Outcome)
    requires Enabled(s, Deliver(src, r, i)) && Queue(s.net, Link(src, r))[i] == m
    requires o == React(s.servers[r], Receive(src, m))
    ensures Next(s, Deliver(src, r, i)) == Settle(Remove(s, Link(src, r), i), r, Receive(src, m), o)
  {}

  lemma Takes(run: Run, rules: Rules, p: Scene, src: nat, r: nat, i: nat, o: Outcome, p': Scene) returns (longer: Run)
    requires Reached(run, rules, p) && Takable(rules, p, src, r, i)
    requires o == React(p.servers[r], Receive(src, Box(p, src, r)[i]))
    requires Carries(Opened(p, Link(src, r), i), p', r, o.sent)
    requires p'.servers == p.servers[r := o.server] && p'.clients == p.clients
    requires p'.wins == p.wins + if TakesOffice(p.servers[r], o.server) then 1 else 0
    ensures Reached(longer, rules, p') && Continues(run, longer)
  {
    var s, l, m := Last(run), Link(src, r), Box(p, src, r)[i];
    CanTake(s, rules, p, src, r, i);
    OpenedShows(s, p, l, i);
    DeliverySettles(s, src, r, i, m, o);
    SettleShows(Remove(s, l, i), Opened(p, l, i), r, Receive(src, m), o, p');
    longer := Extend(run, rules, Deliver(src, r, i));
  }

  /** ... and sends nothing. */
  lemma Hears(run: Run, rules: Rules, p: Scene, src: nat, r: nat, i: nat, w: Server) returns (longer: Run, p': Scene)
    requires Reached(run, rules, p) && Takable(rules, p, src, r, i)
    requires React(p.servers[r], Receive(src, Box(p, src, r)[i])) == Outcome(w, [])
    ensures p' == Told(Opened(p, Link(src, r), i), r, w, 0, []) && Reached(longer, rules, p') && Continues(run, longer)
  {
    var p1 := Opened(p, Link(src, r), i);
    p' := Told(p1, r, w, 0, []);
    ToldCarries(p1, r, w, [], 0, []);
    longer := Takes(run, rules, p, src, r, i, Outcome(w, []), p');
  }

  /** ... and answers. */
  lemma Answers(run: Run, rules: Rules, p: Scene, src: nat, r: nat, i: nat, w: Server, e: Envelope)
    returns (longer: Run, p': Scene)
    requires Reached(run, rules, p) && Takable(rules, p, src, r, i)
    requires React(p.servers[r], Receive(src, Box(p, src, r)[i])) == Outcome(w, [e])
    ensures p' == Told(Opened(p, Link(src, r), i), r, w, e.dst, [e.msg])
    ensures Reached(longer, rules, p') && Continues(run, longer)
  {
    var p1 := Opened(p, Link(src, r), i);
    p' := Told(p1, r, w, e.dst, [e.msg]);
    OneTells(p1, r, e);
    ToldCarries(p1, r, w, [e], e.dst, [e.msg]);
    longer := Takes(run, rules, p, src, r, i, Outcome(w, [e]), p');
  }

  // ----- other steps

  /** The network loses message i of a queue. */
  lemma Loses(run: Run, rules: Rules, p: Scene, l: Link, i: nat) returns (longer: Run, p': Scene)
    requires Reached(run, rules, p) && !rules.noLoss && l in p.net && i < |p.net[l]|
    ensures p' == Opened(p, l, i) && Reached(longer, rules, p')
  {
    OpenedShows(Last(run), p, l, i);
    p' := Opened(p, l, i);
    longer := Extend(run, rules, Lose(l, i));
  }

  function TurnedTo(p: Scene, c: nat, k: Client, dst: nat, ms: seq<Msg>): Scene {
    p.(clients := p.clients[c := k], net := Put(p.net, Link(c, dst), ms))
  }

  lemma TurnShows(s: State, p: Scene, c: nat, t: Turn, dst: nat, ms: seq<Msg>)
    requires Shows(s, p) && Tells(p, c, t.sent, dst, ms)
    ensures Shows(s.(clients := s.clients[c := t.client], net := Post(s.net, c, t.sent)),
                  TurnedTo(p, c, t.client, dst, ms))
  {
    forall l | l in p.net ensures Queue(Post(s.net, c, t.sent), l) == TurnedTo(p, c, t.client, dst, ms).net[l] {
      PostQueue(s.net, c, t.sent, l);
    }
  }

  /** Client c, to whom nobody speaks, runs one iteration. */
  lemma Turns(run: Run, rules: Rules, p: Scene, c: nat, begin: bool, t: Turn, dst: nat, ms: seq<Msg>)
    returns (longer: Run, p': Scene)
    requires Reached(run, rules, p) && c in p.clients
    requires Orderly(p.clients[c]) && p.clients[c].nextResponse < |p.clients[c].commands|
    requires t == Iterate(p.clients[c], if begin then Begin else Nothing, None) && Tells(p, c, t.sent, dst, ms)
    ensures p' == TurnedTo(p, c, t.client, dst, ms) && Reached(longer, rules, p')
  {
    p' := TurnedTo(p, c, t.client, dst, ms);
    longer := Extend(run, rules, Iteration(c, if begin then Starting else Silence, None));
    TurnShows(Last(run), p, c, t, dst, ms);
  }

  /** Client c hears the head of its queue from server r and sends nothing. */
  lemma ClientHears(run: Run, rules: Rules, p: Scene, c: nat, r: nat, t: Turn) returns (longer: Run, p': Scene)
    requires Reached(run, rules, p) && c in p.clients && Link(r, c) in p.net && Box(p, r, c) != []
    requires Orderly(p.clients[c]) && p.clients[c].nextResponse < |p.clients[c].commands|
    requires t == Iterate(p.clients[c], Answer(Box(p, r, c)[0]), None) && t.sent == []
    ensures p' == TurnedTo(Opened(p, Link(r, c), 0), c, t.client, 0, []) && Reached(longer, rules, p')
  {
    var s, p1 := Last(run), Opened(p, Link(r, c), 0);
    p' := TurnedTo(p1, c, t.client, 0, []);
    OpenedShows(s, p, Link(r, c), 0);
    longer := Extend(run, rules, Iteration(c, FromServer(r, 0), None));
    TurnShows(Remove(s, Link(r, c), 0), p1, c, t, 0, []);
  }

  // ----- the servers on their way

  function Fresh(r: nat): Server { NewServer(r, 3) }

  /** Has voted for c in its present term. */
  function Pledged(r: nat, t: nat, c: nat): Server {
    Fresh(r).(term := t, votedFor := c)
  }

  function Running(r: nat, t: nat, votes: nat): Server {
    Fresh(r).(status := Candidate, term := t, votedFor := r, voteCount := votes)
  }

  function Chief(r: nat, t: nat, log: Log): Server {
    InOffice(Running(r, t, 2)).(log := log)
  }

  /** Asks for votes with an empty log. */
  function Request1(t: nat, r: nat): Msg { RequestVote(t, r, -1, -1) }

  /** The heartbeat of a leader that took office with an empty log. */
  function Beacon(t: nat, r: nat): Msg { AppendEntries(t, r, -1, -1, [], -1) }

  lemma BeaconOf(w: Server, q: nat)
    requires w.log == [] && w.commit == -1 && q <= w.peers
    ensures MessageFor(InOffice(w), Heartbeat([]), q) == [Beacon(w.term, w.rank)]
  {}

  lemma BeaconMail(w: Server)
    requires w.log == [] && w.commit == -1 && w.peers == 3
    ensures Spreads(ToLeader(w).sent, w.rank, Beacon(w.term, w.rank))
  {
    forall q: nat ensures MailsAs(ToLeader(w).sent, w.rank, Beacon(w.term, w.rank), q) {
      if q <= w.peers { BeaconOf(w, q); }
      FanoutTo(InOffice(w), Heartbeat([]), w.peers, q);
    }
  }

  /** An election timeout of one of several servers: a request to each of the others. */
  lemma Timeout(v: Server)
    requires !Majority(1, v.peers) && v.alive && v.status != Leader
    ensures React(v, Elapsed) == Outcome(Campaigning(v), Fanout(Campaigning(v), Ballot, v.peers))
  {}

  lemma BallotMail(w: Server)
    requires w.peers == 3
    ensures Spreads(Fanout(w, Ballot, 3), w.rank, RequestVote(w.term, w.rank, LastIndex(w.log), LastTerm(w.log)))
  {
    forall q: nat
      ensures MailsAs(Fanout(w, Ballot, 3), w.rank, RequestVote(w.term, w.rank, LastIndex(w.log), LastTerm(w.log)), q)
    {
      FanoutTo(w, Ballot, w.peers, q);
    }
  }

  /** A server that does not lead starts an election. */
  lemma StartsElection(run: Run, rules: Rules, p: Scene, r: nat, w: Server) returns (longer: Run, p': Scene)
    requires Reached(run, rules, p) && r in p.servers
    requires var v := p.servers[r]; v.alive && v.rank == r && v.status != Leader && v.peers == 3 && w == Campaigning(v)
    ensures p' == Spread(p, r, w, RequestVote(w.term, r, LastIndex(w.log), LastTerm(w.log)))
    ensures Reached(longer, rules, p')
  {
    Timeout(p.servers[r]);
    BallotMail(w);
    longer, p' := DoesToAll(run, rules, p, r, Elapsed, React(p.servers[r], Elapsed),
                            RequestVote(w.term, r, LastIndex(w.log), LastTerm(w.log)));
  }

  /** A candidate counts the vote that makes a majority, and takes office. */
  lemma TakesSeat(run: Run, rules: Rules, p: Scene, src: nat, r: nat, i: nat, u: Server, m: Msg)
    returns (longer: Run, p': Scene)
    requires Reached(run, rules, p) && Takable(rules, p, src, r, i)
    requires React(p.servers[r], Receive(src, Box(p, src, r)[i])) == ToLeader(u) && u.rank == r
    requires Spreads(ToLeader(u).sent, r, m)
    ensures p' == Spread(Opened(p, Link(src, r), i), r, InOffice(u), m) && Reached(longer, rules, p')
  {
    var p1 := Opened(p, Link(src, r), i);
    p' := Spread(p1, r, InOffice(u), m);
    SpreadCarries(p1, r, InOffice(u), ToLeader(u).sent, m);
    longer := Takes(run, rules, p, src, r, i, ToLeader(u), p');
  }

  lemma WinningVote(r: nat, src: nat, t: nat, u: nat)
    requires u <= t
    ensures React(Running(r, t, 1), Receive(src, VoteResponse(u, true))) == ToLeader(Running(r, t, 2))
    ensures InOffice(Running(r, t, 2)) == Chief(r, t, [])
  {}

  /** A candidate with an empty log and one vote counts another, cast in term u. */
  lemma Wins(run: Run, rules: Rules, p: Scene, src: nat, r: nat, t: nat, u: nat) returns (longer: Run, p': Scene)
    requires Reached(run, rules, p) && r in p.servers && p.servers[r] == Running(r, t, 1) && Link(src, r) in p.net
    requires Box(p, src, r) == [VoteResponse(u, true)] && (if rules.timely then u == t else u <= t)
    ensures p' == Spread(Opened(p, Link(src, r), 0), r, Chief(r, t, []), Beacon(t, r)) && Reached(longer, rules, p')
  {
    WinningVote(r, src, t, u);
    BeaconMail(Running(r, t, 2));
    longer, p' := TakesSeat(run, rules, p, src, r, 0, Running(r, t, 2), Beacon(t, r));
  }

  /** A server without a vote in the term gives it to a candidate with an empty log. */
  lemma Votes(r: nat, t: nat, v: Server, c: nat)
    requires c > 0 && t > 0 && v == Fresh(r).(term := v.term, votedFor := v.votedFor)
    requires v.term < t || (v.term == t && v.votedFor == 0)
    ensures React(v, Receive(c, Request1(t, c))) == Outcome(Pledged(r, t, c), [Envelope(c, VoteResponse(t, true))])
  {}

  /** The servers followed lack no entry of leader r. */
  predicate AllSent(p: Scene, r: nat, v: Server)
    requires Indexed(v) && v.peers == 3
  {
    forall l :: l in p.net && l.src == r && 1 <= l.dst <= 3 && l.dst != r ==> v.next[l.dst] >= |v.log|
  }

  lemma WorkTells(p: Scene, r: nat, v: Server)
    requires Ready(v, Work) && v.peers == 3 && v.rank == r && AllSent(p, r, v)
    ensures Tells(p, r, Replicate(v).sent, 0, [])
  {
    hide Fanout, AdvanceCommit;
    forall l | l in p.net && l.src == r ensures MsgsTo(Replicate(v).sent, l.dst) == [] {
      FanoutTo(v, Replication, 3, l.dst);
    }
  }

  /** The leader rule, when it sends nothing to the servers followed. */
  lemma Works(run: Run, rules: Rules, p: Scene, r: nat, w: Server) returns (longer: Run, p': Scene)
    requires Reached(run, rules, p) && r in p.servers && Ready(p.servers[r], Work) && p.servers[r].rank == r
    requires p.servers[r].peers == 3 && AllSent(p, r, p.servers[r]) && w == Replicate(p.servers[r]).server
    ensures p' == Told(p, r, w, 0, []) && Reached(longer, rules, p') && Continues(run, longer)
  {
    hide Reached;
    WorkTells(p, r, p.servers[r]);
    longer, p' := Does(run, rules, p, r, Work, Replicate(p.servers[r]), 0, []);
  }

  // ----- clients with one command

  function Asked(c: nat): Request { Request("x", 1, c) }

  function EntryOf(t: nat, c: nat): Entry { Entry(t, "x", c, 1) }

  function Asker(c: nat, target: nat, started: bool, asked: nat, heard: nat): Client {
    Client(c, 3, started, asked, heard, target, [Asked(c)])
  }

  lemma FirstTurns(c: nat, target: nat)
    ensures Iterate(Asker(c, target, false, 0, 0), Begin, None) == Turn(Asker(c, target, true, 0, 0), [])
    ensures Iterate(Asker(c, target, true, 0, 0), Nothing, None)
            == Turn(Asker(c, target, true, 1, 0), [Envelope(target, ClientRequest(Asked(c)))])
  {}

  /** A client starts and sends its request. */
  lemma StartsAsking(run: Run, rules: Rules, p: Scene, c: nat, target: nat) returns (longer: Run, p': Scene)
    requires Reached(run, rules, p) && c in p.clients && p.clients[c] == Asker(c, target, false, 0, 0)
    ensures p' == TurnedTo(p, c, Asker(c, target, true, 1, 0), target, [ClientRequest(Asked(c))])
    ensures Reached(longer, rules, p')
  {
    hide Reached;
    FirstTurns(c, target);
    longer, p' := Turns(run, rules, p, c, true, Turn(Asker(c, target, true, 0, 0), []), 0, []);
    OneTells(p', c, Envelope(target, ClientRequest(Asked(c))));
    longer, p' := Turns(longer, rules, p', c, false,
                        Turn(Asker(c, target, true, 1, 0), [Envelope(target, ClientRequest(Asked(c)))]),
                        target, [ClientRequest(Asked(c))]);
    assert p'.clients == p.clients[c := Asker(c, target, true, 1, 0)];
  }

  /** A leader logs the request of a client that its log does not name. */
  lemma LogsRequest(v: Server, c: nat)
    requires v.alive && v.status == Leader && !Has(v.log, EntryOf(v.term, c))
    ensures React(v, Receive(c, ClientRequest(Asked(c)))) == Outcome(v.(log := v.log + [EntryOf(v.term, c)]), [])
  {}

  // ----- the beginning

  predicate Idle(c: Client, rank: nat) {
    && c.rank == rank && c.servers == 3 && !c.started && c.nextRequest == c.nextResponse == 0
    && 1 <= c.target <= 3 && Numbered(c.commands, rank)
  }

  function Beginning(clients: map<nat, Client>): State {
    State(3, [Fresh(0), Fresh(1), Fresh(2), Fresh(3)], clients, map[],
          History([], map[], {}, map[], map[], map[], [], []))
  }

  lemma BeginningIsInitial(clients: map<nat, Client>)
    requires forall c :: c in clients ==> c > 3 && Idle(clients[c], c)
    ensures Init(Beginning(clients))
  {}

  function Opening(clients: map<nat, Client>, links: set<Link>): Scene {
    Scene(map[1 := Fresh(1), 2 := Fresh(2), 3 := Fresh(3)], clients, map l | l in links :: [], 0)
  }

  lemma BeginningShows(clients: map<nat, Client>, links: set<Link>)
    ensures Shows(Beginning(clients), Opening(clients, links))
  {}

  lemma StartIsRun(s: State, rules: Rules)
    requires Init(s)
    ensures Obeys(Run([s], []), rules)
  {}

  /** Three new servers, idle clients, and no mail on the links that are to be followed. */
  lemma Opens(rules: Rules, clients: map<nat, Client>, links: set<Link>) returns (run: Run, p: Scene)
    requires forall c :: c in clients ==> c > 3 && Idle(clients[c], c)
    ensures p == Opening(clients, links) && Reached(run, rules, p)
  {
    BeginningIsInitial(clients);
    BeginningShows(clients, links);
    StartIsRun(Beginning(clients), rules);
    run, p := Run([Beginning(clients)], []), Opening(clients, links);
  }

  /** Server 1 starts an election. */
  lemma FirstRuns(rules: Rules, clients: map<nat, Client>, links: set<Link>) returns (run: Run, p: Scene)
    requires forall c :: c in clients ==> c > 3 && Idle(clients[c], c)
    ensures Reached(run, rules, p) && p.net.Keys == links && p.clients == clients && p.wins == 0
    ensures p.servers == map[1 := Running(1, 1, 1), 2 := Fresh(2), 3 := Fresh(3)]
    ensures forall l :: l in links ==> p.net[l] == if l.src == 1 && Peer(1, l.dst) then [Request1(1, 1)] else []
  {
    hide Reached;
    run, p := Opens(rules, clients, links);
    run, p := StartsElection(run, rules, p, 1, Running(1, 1, 1));
  }

  lemma IsVotedFor(run: Run, rules: Rules, p: Scene, q: nat) returns (longer: Run, p': Scene)
    requires Reached(run, rules, p) && q > 1 && q in p.servers && p.servers[q] == Fresh(q)
    requires Link(1, q) in p.net && p.net[Link(1, q)] == [Request1(1, 1)]
    ensures p' == Told(Opened(p, Link(1, q), 0), q, Pledged(q, 1, 1), 1, [VoteResponse(1, true)])
    ensures Reached(longer, rules, p')
  {
    Votes(q, 1, Fresh(q), 1);
    longer, p' := Answers(run, rules, p, 1, q, 0, Pledged(q, 1, 1), Envelope(1, VoteResponse(1, true)));
  }

  /** What is under way once server q has voted for server 1. */
  function VoteQueue(l: Link, q: nat): seq<Msg> {
    if l == Link(q, 1) then [VoteResponse(1, true)]
    else if l.src == 1 && Peer(1, l.dst) && l.dst != q then [Request1(1, 1)]
    else []
  }

  /** Server q votes for server 1. */
  lemma FirstChosen(rules: Rules, clients: map<nat, Client>, links: set<Link>, q: nat) returns (run: Run, p: Scene)
    requires forall c :: c in clients ==> c > 3 && Idle(clients[c], c)
    requires (q == 2 || q == 3) && {Link(1, q), Link(q, 1)} <= links
    ensures Reached(run, rules, p) && p.net.Keys == links && p.clients == clients && p.wins == 0
    ensures p.servers == map[1 := Running(1, 1, 1), 2 := Fresh(2), 3 := Fresh(3)][q := Pledged(q, 1, 1)]
    ensures forall l :: l in links ==> p.net[l] == VoteQueue(l, q)
  {
    hide Reached;
    run, p := FirstRuns(rules, clients, links);
    run, p := IsVotedFor(run, rules, p, q);
  }

  /** What is under way once server q has elected server 1. */
  function OfficeQueue(l: Link, q: nat): seq<Msg> {
    if l.src != 1 || !Peer(1, l.dst) then []
    else if l.dst == q then [Beacon(1, 1)]
    else [Request1(1, 1), Beacon(1, 1)]
  }

  /** The scene once the vote of server q is counted. */
  function Elected(p: Scene, q: nat): Scene
    requires Link(q, 1) in p.net && p.net[Link(q, 1)] == [VoteResponse(1, true)] && 1 in p.servers
  {
    Spread(Opened(p, Link(q, 1), 0), 1, Chief(1, 1, []), Beacon(1, 1))
  }

  lemma OfficeQueues(p: Scene, q: nat, l: Link)
    requires (q == 2 || q == 3) && Link(q, 1) in p.net && 1 in p.servers && l in p.net
    requires p.net[l] == VoteQueue(l, q) && p.net[Link(q, 1)] == [VoteResponse(1, true)]
    ensures l in Elected(p, q).net && Elected(p, q).net[l] == OfficeQueue(l, q)
  {
    hide Chief, Beacon;
  }

  lemma OfficeServers(p: Scene, q: nat)
    requires (q == 2 || q == 3) && Link(q, 1) in p.net && p.net[Link(q, 1)] == [VoteResponse(1, true)]
    requires p.servers == map[1 := Running(1, 1, 1), 2 := Fresh(2), 3 := Fresh(3)][q := Pledged(q, 1, 1)]
    ensures var p' := Elected(p, q);
      && p'.servers.Keys == {1, 2, 3} && p'.servers[1] == Chief(1, 1, [])
      && p'.servers[2] == (if q == 2 then Pledged(2, 1, 1) else Fresh(2))
      && p'.servers[3] == (if q == 3 then Pledged(3, 1, 1) else Fresh(3))
      && p'.wins == p.wins + 1 && p'.clients == p.clients && p'.net.Keys == p.net.Keys
  {}

  /** Server 1 wins term 1 by the vote of server q. */
  lemma FirstReign(rules: Rules, clients: map<nat, Client>, links: set<Link>, q: nat) returns (run: Run, p: Scene)
    requires forall c :: c in clients ==> c > 3 && Idle(clients[c], c)
    requires (q == 2 || q == 3) && {Link(1, q), Link(q, 1)} <= links
    ensures Reached(run, rules, p) && p.net.Keys == links && p.clients == clients && p.wins == 1
    ensures p.servers.Keys == {1, 2, 3} && p.servers[1] == Chief(1, 1, [])
    ensures p.servers[2] == (if q == 2 then Pledged(2, 1, 1) else Fresh(2))
    ensures p.servers[3] == (if q == 3 then Pledged(3, 1, 1) else Fresh(3))
    ensures forall l :: l in links ==> p.net[l] == OfficeQueue(l, q)
  {
    hide Reached, Told, Put, OfficeQueue, Chief, Pledged, Fresh;
    run, p := FirstChosen(rules, clients, links, q);
    OfficeServers(p, q);
    forall l | l in links ensures l in Elected(p, q).net && Elected(p, q).net[l] == OfficeQueue(l, q) {
      OfficeQueues(p, q, l);
    }
    run, p := Wins(run, rules, p, q, 1, 1, 1);
  }
}
