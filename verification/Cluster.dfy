/** n servers with ranks 1..n, clients with ranks above n, one queue per ordered pair of
    processes, and the runs of such a system. */
module Cluster {
  import opened LogEntries
  import opened Messages
  import opened RaftServer
  import opened RaftClient

  // ----- network

  datatype Link = Link(src: nat, dst: nat)

  type Net = map<Link, seq<Msg>>

  function Queue(net: Net, l: Link): seq<Msg> {
    if l in net then net[l] else []
  }

  function Post(net: Net, src: nat, out: seq<Envelope>): Net {
    map l | l in net.Keys + (set e | e in out :: Link(src, e.dst)) ::
      Queue(net, l) + if l.src == src then MsgsTo(out, l.dst) else []
  }

  lemma PostQueue(net: Net, src: nat, out: seq<Envelope>, l: Link)
    ensures Queue(Post(net, src, out), l)
            == Queue(net, l) + if l.src == src then MsgsTo(out, l.dst) else []
  {
    if l.src == src && MsgsTo(out, l.dst) != [] {
      var e := Envelope(l.dst, MsgsTo(out, l.dst)[0]);
      MsgsToMember(out, l.dst, e.msg);
      assert e in out && Link(src, e.dst) == l;
    }
  }

  function Without(q: seq<Msg>, i: nat): seq<Msg>
    requires i < |q|
  {
    if i == 0 then q[1..] else q[..i] + q[i + 1..]
  }

  function Take(net: Net, l: Link, i: nat): Net
    requires i < |Queue(net, l)|
  {
    net[l := Without(Queue(net, l), i)]
  }

  // ----- history

  /** A `convert_to_leader`: the term, the new leader, the servers whose votes it counted,
      and its log on taking office. */
  datatype Win = Win(term: nat, rank: nat, voters: set<nat>, log: Log)

  predicate WonBy(wins: seq<Win>, term: nat, r: nat) {
    exists i :: 0 <= i < |wins| && wins[i].term == term && wins[i].rank == r
  }

  /** A granted vote, with the voter's log when it voted. */
  datatype Grant = Grant(voter: nat, term: nat, candidate: nat, log: Log)

  /** What happened to a server's vote, in order. */
  datatype Mark = Voted(term: nat, candidate: nat) | Won(term: nat) | Demoted(term: nat)

  /** An entry that a server applied while it was leader. */
  datatype Applied = Applied(server: nat, index: nat)

  datatype History = History(
    wins: seq<Win>,
    voters: map<nat, set<nat>>,        // by candidate: the votes counted in its last campaign
    grants: set<Grant>,
    marks: map<nat, seq<Mark>>,        // by server
    reign: map<nat, Log>,              // by term: the log of the leader of that term, as last seen
    stream: map<nat, seq<Request>>,    // by term: the requests delivered to the leader of that term
    applied: seq<Applied>,             // applied by a leader, in order
    replies: seq<nat>)                 // the clients to which success was reported, in order

  function VotersOf(h: History, r: nat): set<nat> {
    if r in h.voters then h.voters[r] else {}
  }

  function MarksOf(h: History, r: nat): seq<Mark> {
    if r in h.marks then h.marks[r] else []
  }

  function ReignOf(h: History, term: nat): Log {
    if term in h.reign then h.reign[term] else []
  }

  function StreamOf(h: History, term: nat): seq<Request> {
    if term in h.stream then h.stream[term] else []
  }

  predicate TakesOffice(pre: Server, post: Server) {
    post.status == Leader && pre.status != Leader
  }

  predicate CountsVote(pre: Server, input: Input) {
    && input.Receive? && input.msg.VoteResponse? && input.msg.granted
    && pre.alive && pre.status == Candidate && input.msg.term <= pre.term
  }

  function NewVoters(before: set<nat>, pre: Server, input: Input): set<nat> {
    if input.Elapsed? then {pre.rank}
    else if CountsVote(pre, input) then before + {input.src}
    else before
  }

  function GrantsIn(pre: Server, sent: seq<Envelope>): set<Grant> {
    set e | e in sent && e.msg.VoteResponse? && e.msg.granted ::
      Grant(pre.rank, e.msg.term, e.dst, pre.log)
  }

  function GrantMarks(sent: seq<Envelope>): seq<Mark> {
    if |sent| == 1 && sent[0].msg.VoteResponse? && sent[0].msg.granted
    then [Voted(sent[0].msg.term, sent[0].dst)] else []
  }

  function NewMarks(pre: Server, input: Input, o: Outcome): seq<Mark> {
    (if input.Elapsed? then [Voted(o.server.term, pre.rank)] else [])
    + (if TakesOffice(pre, o.server) then [Won(o.server.term)] else [])
    + (if input.Receive? && input.msg.AppendEntries? && pre.alive && pre.status == Candidate
          && input.msg.term == pre.term
       then [Demoted(pre.term)] else [])
    + GrantMarks(o.sent)
  }

  function NewStream(h: History, pre: Server, input: Input, post: Server): map<nat, seq<Request>> {
    if TakesOffice(pre, post) then h.stream[post.term := []]
    else if input.Receive? && input.msg.ClientRequest? && pre.alive && pre.status == Leader
    then h.stream[pre.term := StreamOf(h, pre.term) + [input.msg.request]]
    else h.stream
  }

  function NewReplies(sent: seq<Envelope>): seq<nat> {
    if |sent| == 1 && sent[0].msg.ClientResponse? && sent[0].msg.success then [sent[0].dst] else []
  }

  function NewApplied(pre: Server, post: Server): seq<Applied> {
    if pre.status == Leader && post.applied > pre.applied
    then [Applied(pre.rank, pre.applied + 1)] else []
  }

  function Record(h: History, pre: Server, input: Input, o: Outcome): History {
    var post := o.server;
    var r := pre.rank;
    var voters := NewVoters(VotersOf(h, r), pre, input);
    History(
      if TakesOffice(pre, post) then h.wins + [Win(post.term, r, voters, post.log)] else h.wins,
      h.voters[r := voters],
      h.grants + GrantsIn(pre, o.sent),
      h.marks[r := MarksOf(h, r) + NewMarks(pre, input, o)],
      if post.status == Leader then h.reign[post.term := post.log] else h.reign,
      NewStream(h, pre, input, post),
      h.applied + NewApplied(pre, post),
      h.replies + NewReplies(o.sent))
  }

  // ----- states and steps

  datatype State = State(n: nat, servers: seq<Server>, clients: map<nat, Client>, net: Net, hist: History)

  predicate IsServer(s: State, r: nat) {
    1 <= r <= s.n
  }

  /** Slot 0 of `servers` is unused, as in the source's vectors. */
  ghost predicate Init(s: State) {
    && 1 <= s.n && |s.servers| == s.n + 1
    && (forall r :: 0 <= r <= s.n ==> s.servers[r] == NewServer(r, s.n))
    && (forall c :: c in s.clients ==>
          && c > s.n && s.clients[c].rank == c && s.clients[c].servers == s.n && !s.clients[c].started
          && s.clients[c].nextRequest == s.clients[c].nextResponse == 0
          && IsServer(s, s.clients[c].target)
          && Numbered(s.clients[c].commands, c))
    && s.net == map[]
    && s.hist == History([], map[], {}, map[], map[], map[], [], [])
  }

  /** `Deliver`: a server takes message i of the queue from `src`. `Local`: a timer, a rule
      or the REPL acts on a server. `Iteration`: a client runs one iteration; `from` names the
      message it takes, if it takes one. `Lose` and `Duplicate` are the network's. */
  datatype Event =
    | Deliver(src: nat, dst: nat, i: nat)
    | Local(r: nat, input: Input)
    | Iteration(c: nat, from: Source, resend: Option<nat>)
    | Lose(l: Link, i: nat)
    | Duplicate(l: Link, i: nat)

  datatype Source = Silence | Starting | FromServer(src: nat, i: nat)

  predicate Holds(s: State, l: Link, i: nat) {
    i < |Queue(s.net, l)|
  }

  predicate Enabled(s: State, e: Event) {
    match e
    case Deliver(src, dst, i) =>
      && IsServer(s, dst) && dst < |s.servers| && Holds(s, Link(src, dst), i)
      && Ready(s.servers[dst], Receive(src, Queue(s.net, Link(src, dst))[i]))
    case Local(r, input) =>
      IsServer(s, r) && r < |s.servers| && !input.Receive? && Ready(s.servers[r], input)
    case Iteration(c, from, resend) =>
      && c in s.clients && Orderly(s.clients[c])
      && s.clients[c].nextResponse < |s.clients[c].commands|
      && (from.FromServer? ==> Holds(s, Link(from.src, c), from.i))
      && (resend.Some? ==> IsServer(s, resend.value))
    case Lose(l, i) => Holds(s, l, i)
    case Duplicate(l, i) => Holds(s, l, i)
  }

  /** The state after server r turned an input into an outcome. */
  function Settle(s: State, r: nat, input: Input, o: Outcome): State
    requires r < |s.servers|
  {
    s.(servers := s.servers[r := o.server],
       net := Post(s.net, r, o.sent),
       hist := Record(s.hist, s.servers[r], input, o))
  }

  /** Server r reacts to an input. */
  function Move(s: State, r: nat, input: Input): State
    requires r < |s.servers| && Ready(s.servers[r], input)
  {
    Settle(s, r, input, React(s.servers[r], input))
  }

  function ClientMove(s: State, c: nat, heard: Heard, resend: Option<nat>): State
    requires c in s.clients && Orderly(s.clients[c]) && s.clients[c].nextResponse < |s.clients[c].commands|
  {
    var t := Iterate(s.clients[c], heard, resend);
    s.(clients := s.clients[c := t.client], net := Post(s.net, c, t.sent))
  }

  function Remove(s: State, l: Link, i: nat): State
    requires Holds(s, l, i)
  {
    s.(net := Take(s.net, l, i))
  }

  function Next(s: State, e: Event): State
    requires Enabled(s, e)
  {
    match e
    case Deliver(src, dst, i) =>
      var m := Queue(s.net, Link(src, dst))[i];
      Move(Remove(s, Link(src, dst), i), dst, Receive(src, m))
    case Local(r, input) => Move(s, r, input)
    case Iteration(c, from, resend) =>
      (match from
       case Silence => ClientMove(s, c, Nothing, resend)
       case Starting => ClientMove(s, c, Begin, resend)
       case FromServer(src, i) =>
         ClientMove(Remove(s, Link(src, c), i), c, Answer(Queue(s.net, Link(src, c))[i]), resend))
    case Lose(l, i) => Remove(s, l, i)
    case Duplicate(l, i) => s.(net := s.net[l := Queue(s.net, l) + [Queue(s.net, l)[i]]])
  }

  // ----- runs

  datatype Run = Run(states: seq<State>, events: seq<Event>)

  ghost predicate IsRun(run: Run) {
    && |run.states| == |run.events| + 1
    && Init(run.states[0])
    && forall k :: 0 <= k < |run.events| ==>
         Enabled(run.states[k], run.events[k])
         && run.states[k + 1] == Next(run.states[k], run.events[k])
  }

  function Last(run: Run): State
    requires run.states != []
  {
    run.states[|run.states| - 1]
  }

  // ----- restrictions on steps

  /** Messages of one channel are taken in the order they were sent, each at most once.
      They may still be lost. */
  predicate FifoStep(e: Event) {
    match e
    case Deliver(_, _, i) => i == 0
    case Iteration(_, from, _) => from.FromServer? ==> from.i == 0
    case Duplicate(_, _) => false
    case _ => true
  }

  predicate SingleCopyStep(e: Event) {
    !e.Duplicate?
  }

  predicate LosslessStep(e: Event) {
    !e.Lose? && !(e.Local? && e.input.Crash?)
  }

  /** No vote response reaches a candidate whose term exceeds the response's. */
  predicate TimelyStep(s: State, e: Event) {
    e.Deliver? && e.dst < |s.servers| && Holds(s, Link(e.src, e.dst), e.i) ==>
      var m := Queue(s.net, Link(e.src, e.dst))[e.i];
      var d := s.servers[e.dst];
      m.VoteResponse? && d.alive && d.status == Candidate ==> d.term <= m.term
  }

  ghost predicate Fifo(run: Run) {
    forall k :: 0 <= k < |run.events| ==> FifoStep(run.events[k])
  }

  ghost predicate SingleCopy(run: Run) {
    forall k :: 0 <= k < |run.events| ==> SingleCopyStep(run.events[k])
  }

  ghost predicate Lossless(run: Run) {
    forall k :: 0 <= k < |run.events| ==> LosslessStep(run.events[k])
  }

  ghost predicate Timely(run: Run) {
    forall k :: 0 <= k < |run.events| && k < |run.states| ==> TimelyStep(run.states[k], run.events[k])
  }

  ghost predicate OneLeaderPerTerm(h: History) {
    forall i, j :: 0 <= i < |h.wins| && 0 <= j < |h.wins| && h.wins[i].term == h.wins[j].term
      ==> h.wins[i].rank == h.wins[j].rank
  }

  predicate SingleLeadership(h: History) {
    |h.wins| <= 1
  }

  // ----- facts about every step

  ghost predicate InFlight(s: State, l: Link, m: Msg) {
    m in Queue(s.net, l)
  }

  /** Past wins are never forgotten. */
  lemma WinsGrow(run: Run, k: nat)
    requires IsRun(run) && k < |run.states|
    ensures run.states[k].hist.wins <= Last(run).hist.wins
    decreases |run.states| - k
  {
    if k + 1 < |run.states| {
      assert run.states[k + 1] == Next(run.states[k], run.events[k]);
      WinsGrow(run, k + 1);
    }
  }

  lemma TakeQueue(net: Net, l: Link, i: nat, k: Link)
    requires i < |Queue(net, l)|
    ensures Queue(Take(net, l, i), k) == if k == l then Without(Queue(net, l), i) else Queue(net, k)
  {}

  lemma TakeMember(net: Net, l: Link, i: nat, k: Link, m: Msg)
    requires i < |Queue(net, l)| && m in Queue(Take(net, l, i), k)
    ensures m in Queue(net, k)
  {}

  lemma PostMember(net: Net, src: nat, out: seq<Envelope>, l: Link, m: Msg)
    ensures m in Queue(Post(net, src, out), l)
            <==> m in Queue(net, l) || (l.src == src && Envelope(l.dst, m) in out)
  {
    PostQueue(net, src, out, l);
    MsgsToMember(out, l.dst, m);
  }
}
