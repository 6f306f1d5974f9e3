/** The handlers and rules of one Raft server. */
module RaftServer {
  // Functions from the server's state to its next state and the mail it sends. The class in
  // ServerObject.dfy is proved against them.

  import opened LogEntries
  import opened Messages

  datatype Status = Follower | Leader | Candidate

  /** `next` and `matched` are the vectors `next_index` and `match_index`; they are empty
      until the server first becomes leader and are indexed by rank after that. */
  datatype Server = Server(
    rank: nat, peers: nat, alive: bool, status: Status,
    term: nat, votedFor: nat, voteCount: nat,
    log: Log, commit: Index, applied: Index,
    next: seq<nat>, matched: seq<Index>)

  datatype Outcome = Outcome(server: Server, sent: seq<Envelope>)

  function NewServer(rank: nat, peers: nat): Server {
    Server(rank, peers, true, Follower, 0, 0, 0, [], -1, -1, [], [])
  }

  /** The three loops that address every other server. Reading the term before a
      `next_index` that lies past the log is undefined in the source: `junk` stands for
      whatever is read there. */
  datatype Round = Ballot | Heartbeat(junk: seq<int>) | Replication

  /** The vectors have a slot for every rank. */
  predicate Indexed(s: Server) {
    |s.next| == |s.matched| == s.peers + 1
  }

  predicate RoundReady(s: Server, round: Round) {
    round.Ballot? || Indexed(s)
  }

  function PrevIndex(s: Server, q: nat): Index
    requires q < |s.next|
  {
    s.next[q] as int - 1
  }

  function PrevTerm(s: Server, q: nat, junk: seq<int>): int
    requires q < |s.next|
  {
    if PrevIndex(s, q) < |s.log| then TermAt(s.log, PrevIndex(s, q))
    else if q < |junk| then junk[q] else 0
  }

  /** What the round sends to server `q`: one message, or none. */
  function MessageFor(s: Server, round: Round, q: nat): seq<Msg>
    requires RoundReady(s, round) && q <= s.peers
  {
    match round
    case Ballot => [RequestVote(s.term, s.rank, LastIndex(s.log), LastTerm(s.log))]
    case Heartbeat(junk) =>
      [AppendEntries(s.term, s.rank, PrevIndex(s, q), PrevTerm(s, q, junk), [], s.commit)]
    case Replication =>
      if LastIndex(s.log) >= s.next[q]
      then [AppendEntries(s.term, s.rank, PrevIndex(s, q), TermAt(s.log, PrevIndex(s, q)),
                          s.log[s.next[q]..], s.commit)]
      else []
  }

  function MailFor(s: Server, round: Round, q: nat): (msgs: seq<Msg>)
    requires RoundReady(s, round) && q <= s.peers
    ensures |msgs| <= 1
  {
    if q == s.rank then [] else MessageFor(s, round, q)
  }

  function Mail(q: nat, msgs: seq<Msg>): seq<Envelope>
    requires |msgs| <= 1
  {
    if msgs == [] then [] else [Envelope(q, msgs[0])]
  }

  /** The mail of a round to the servers 1..k. */
  function Fanout(s: Server, round: Round, k: nat): seq<Envelope>
    requires RoundReady(s, round) && k <= s.peers
  {
    if k == 0 then []
    else Fanout(s, round, k - 1) + Mail(k, MailFor(s, round, k))
  }

  // ----- role conversions

  function RaiseTerm(s: Server, term: nat): Server {
    s.(term := term)
  }

  function ToFollower(s: Server): Server {
    s.(status := Follower, votedFor := 0)
  }

  function InOffice(s: Server): Server {
    s.(status := Leader, votedFor := 0,
       next := seq(s.peers + 1, i => |s.log|),
       matched := seq(s.peers + 1, i => -1))
  }

  function ToLeader(s: Server): Outcome {
    var s' := InOffice(s);
    Outcome(s', Fanout(s', Heartbeat([]), s.peers))
  }

  predicate Majority(votes: nat, peers: nat) {
    2 * votes > peers
  }

  function Campaigning(s: Server): Server {
    s.(status := Candidate, term := s.term + 1, votedFor := s.rank, voteCount := 1)
  }

  function ToCandidate(s: Server): Outcome {
    var s1 := Campaigning(s);
    if Majority(1, s.peers)
    then var o := ToLeader(s1); Outcome(o.server, o.sent + Fanout(o.server, Ballot, s.peers))
    else Outcome(s1, Fanout(s1, Ballot, s.peers))
  }

  // ----- reactions to messages

  function OnAppendEntries(s: Server, m: Msg): Outcome
    requires m.AppendEntries?
  {
    var s := if s.status == Candidate && m.term >= s.term then ToFollower(s) else s;
    if m.term < s.term
       || m.prev >= |s.log| || TermAt(s.log, m.prev) != m.prevTerm
    then
      Outcome(s, [Envelope(m.leader, AppendResponse(s.term, false, s.rank, LastIndex(s.log)))])
    else
      var log := Splice(s.log, m.prev, m.entries);
      var last := LastIndex(log);
      var commit: Index := if m.leaderCommit > s.commit
                           then (if m.leaderCommit < last then m.leaderCommit else last)
                           else s.commit;
      Outcome(s.(log := log, commit := commit),
              [Envelope(m.leader, AppendResponse(s.term, true, s.rank, last))])
  }

  function OnAppendResponse(s: Server, m: Msg): Outcome
    requires m.AppendResponse? && m.follower < |s.next| == |s.matched|
  {
    var f := m.follower;
    Outcome(
      if m.success
      then s.(matched := s.matched[f := m.lastIndex], next := s.next[f := m.lastIndex + 1])
      else s.(next := s.next[f := if s.next[f] > 0 then s.next[f] - 1 else 0]),
      [])
  }

  predicate UpToDate(lastIndex: Index, lastTerm: int, log: Log) {
    lastTerm >= LastTerm(log) && (lastTerm > LastTerm(log) || lastIndex >= LastIndex(log))
  }

  function OnRequestVote(s: Server, m: Msg): Outcome
    requires m.RequestVote?
  {
    if s.status == Candidate || m.term < s.term || !UpToDate(m.lastIndex, m.lastTerm, s.log) then
      Outcome(s, [Envelope(m.candidate, VoteResponse(s.term, false))])
    else
      var s' := s.(votedFor := if s.votedFor > 0 then s.votedFor else m.candidate);
      Outcome(s', [Envelope(m.candidate, VoteResponse(s.term, s'.votedFor == m.candidate))])
  }

  function OnVoteResponse(s: Server, m: Msg): Outcome
    requires m.VoteResponse?
  {
    if s.status == Candidate then
      var s' := s.(voteCount := s.voteCount + if m.granted then 1 else 0);
      if Majority(s'.voteCount, s.peers) then ToLeader(s') else Outcome(s', [])
    else Outcome(s, [])
  }

  /** A server that indexes its vectors with the follower's rank must have them. */
  predicate Readable(s: Server, m: Msg) {
    m.AppendResponse? ==> m.follower < |s.next| == |s.matched|
  }

  function Dispatch(s: Server, m: Msg): Outcome
    requires m.IsRpc() && Readable(s, m)
  {
    match m
    case AppendEntries(_, _, _, _, _, _) => OnAppendEntries(s, m)
    case AppendResponse(_, _, _, _) => OnAppendResponse(s, m)
    case RequestVote(_, _, _, _) => OnRequestVote(s, m)
    case VoteResponse(_, _) => OnVoteResponse(s, m)
  }

  /** A newer term in any RPC turns the receiver into a follower of that term. */
  function Updated(s: Server, term: nat): Server {
    if term > s.term then ToFollower(RaiseTerm(s, term)) else s
  }

  function OnRpc(s: Server, m: Msg): Outcome
    requires m.IsRpc() && Readable(s, m)
  {
    if !s.alive then Outcome(s, []) else Dispatch(Updated(s, m.term), m)
  }

  function EntryFor(term: nat, r: Request): Entry {
    Entry(term, r.command, r.client, r.serial)
  }

  function OnClientRequest(s: Server, r: Request): Outcome {
    if !s.alive then Outcome(s, [])
    else if s.status != Leader then Outcome(s, [Envelope(r.client, ClientResponse(false, s.votedFor))])
    else
      var e := EntryFor(s.term, r);
      Outcome(if Has(s.log, e) then s else s.(log := s.log + [e]), [])
  }

  // ----- rules

  function ApplyRules(s: Server): Outcome {
    if s.commit > s.applied then
      var i: Index := s.applied + 1;
      Outcome(s.(applied := i),
              if s.status == Leader && i < |s.log|
              then [Envelope(s.log[i].client, ClientResponse(true, 0))] else [])
    else Outcome(s, [])
  }

  /** How many of the ranks 1..k have `match_index >= n`. */
  function Acks(matched: seq<Index>, k: nat, n: Index): nat
    requires k < |matched|
  {
    if k == 0 then 0 else Acks(matched, k - 1, n) + if matched[k] >= n then 1 else 0
  }

  function AdvanceCommit(commit: Index, logSize: nat, matched: seq<Index>, peers: nat): Index
    requires peers < |matched|
    decreases logSize - commit
  {
    var n := commit + 1;
    if Majority(1 + Acks(matched, peers, n), peers) && n < logSize
    then AdvanceCommit(n, logSize, matched, peers)
    else commit
  }

  function Replicate(s: Server): Outcome
    requires Indexed(s)
  {
    Outcome(s.(commit := AdvanceCommit(s.commit, |s.log|, s.matched, s.peers)),
            Fanout(s, Replication, s.peers))
  }

  // ----- one step of a server

  /** `Receive`: a message taken from the network. `Elapsed`: the election timeout of a
      follower or candidate. `Beat` and `Work`: the two halves of the leader rules. */
  datatype Input =
    | Receive(src: nat, msg: Msg)
    | Elapsed
    | Beat(junk: seq<int>)
    | Work
    | ApplyNext
    | Crash
    | Recover

  predicate Ready(s: Server, input: Input) {
    match input
    case Receive(_, m) => Readable(s, m)
    case Elapsed => s.alive && s.status != Leader
    case Beat(_) => s.alive && s.status == Leader && Indexed(s)
    case Work => s.alive && s.status == Leader && Indexed(s)
    case ApplyNext => s.alive
    case Crash => true
    case Recover => true
  }

  function React(s: Server, input: Input): Outcome
    requires Ready(s, input)
  {
    match input
    case Receive(_, m) =>
      if m.IsRpc() then OnRpc(s, m)
      else if m.ClientRequest? then OnClientRequest(s, m.request)
      else Outcome(s, [])
    case Elapsed => ToCandidate(s)
    case Beat(junk) => Outcome(s, Fanout(s, Heartbeat(junk), s.peers))
    case Work => Replicate(s)
    case ApplyNext => ApplyRules(s)
    case Crash => Outcome(s.(alive := false), [])
    case Recover => Outcome(s.(alive := true), [])
  }

  // ----- what a round delivers to each server

  lemma MailTo(rest: seq<Envelope>, k: nat, msgs: seq<Msg>, q: nat)
    requires |msgs| <= 1
    ensures MsgsTo(rest + Mail(k, msgs), q) == MsgsTo(rest, q) + if k == q then msgs else []
  {
    if msgs == [] {
      assert rest + Mail(k, msgs) == rest;
    } else {
      MsgsToSnoc(rest, Envelope(k, msgs[0]), q);
    }
  }

  ghost predicate Reaches(s: Server, round: Round, k: nat, q: nat)
    requires RoundReady(s, round) && k <= s.peers
  {
    MsgsTo(Fanout(s, round, k), q) == if 1 <= q <= k then MailFor(s, round, q) else []
  }

  lemma FanoutStep(s: Server, round: Round, k: nat, q: nat)
    requires RoundReady(s, round) && k <= s.peers && (k > 0 ==> Reaches(s, round, k - 1, q))
    ensures Reaches(s, round, k, q)
  {
    if k > 0 { MailTo(Fanout(s, round, k - 1), k, MailFor(s, round, k), q); }
  }

  lemma {:induction false} FanoutMail(s: Server, round: Round, k: nat, q: nat)
    requires RoundReady(s, round) && k <= s.peers
    ensures Reaches(s, round, k, q)
    decreases k
  {
    hide MailFor, MessageFor, Mail, MsgsTo, Fanout;
    if k > 0 { FanoutMail(s, round, k - 1, q); }
    FanoutStep(s, round, k, q);
  }

  lemma FanoutTo(s: Server, round: Round, k: nat, q: nat)
    requires RoundReady(s, round) && k <= s.peers
    ensures MsgsTo(Fanout(s, round, k), q)
            == if 1 <= q <= k && q != s.rank then MessageFor(s, round, q) else []
  {
    FanoutMail(s, round, k, q);
  }

  ghost predicate InOrder(out: seq<Envelope>, k: nat) {
    && (forall i :: 0 <= i < |out| ==> 1 <= out[i].dst <= k)
    && forall i, j :: 0 <= i < j < |out| ==> out[i].dst < out[j].dst
  }

  lemma InOrderNext(out: seq<Envelope>, k: nat, msgs: seq<Msg>)
    requires k > 0 && InOrder(out, k - 1) && |msgs| <= 1
    ensures InOrder(out + Mail(k, msgs), k)
  {}

  /** The mail of a round leaves in order of rank. */
  lemma {:induction false} FanoutInOrder(s: Server, round: Round, k: nat)
    requires RoundReady(s, round) && k <= s.peers
    ensures InOrder(Fanout(s, round, k), k)
    decreases k
  {
    if k > 0 {
      FanoutInOrder(s, round, k - 1);
      InOrderNext(Fanout(s, round, k - 1), k, MailFor(s, round, k));
    }
  }
}
