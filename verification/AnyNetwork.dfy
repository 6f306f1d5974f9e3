/** What holds in every run, over a network that may lose, repeat and reorder messages,
    with any number of leaders. */
module AnyNetwork {
  import opened LogEntries
  import opened Messages
  import opened RaftServer
  import opened RaftClient
  import opened Cluster

  // ----- one reaction

  lemma {:induction false} FanoutMember(s: Server, round: Round, k: nat, e: Envelope)
    requires RoundReady(s, round) && k <= s.peers
    requires e in Fanout(s, round, k)
    ensures 1 <= e.dst <= k && e.dst != s.rank && e.msg in MessageFor(s, round, e.dst)
  {
    if e in Fanout(s, round, k - 1) {
      FanoutMember(s, round, k - 1, e);
    }
  }

  /** The fields that index the rest: what every reaction keeps of them. */
  ghost predicate Kept(v: Server, w: Server) {
    && w.rank == v.rank && w.peers == v.peers && w.term >= v.term
    && |w.next| == |w.matched| && (Indexed(v) || w.status == Leader ==> Indexed(w))
    && DistinctKeys(w.log)
  }

  lemma AppendEntriesKeeps(v: Server, m: Msg)
    requires m.AppendEntries? && |v.next| == |v.matched|
    requires v.status == Leader ==> Indexed(v)
    requires DistinctKeys(v.log)
    ensures Kept(v, OnRpc(v, m).server)
  {
    hide Splice;
    if m.prev < |v.log| { SpliceDistinct(v.log, m.prev, m.entries); }
  }

  lemma VotesKeep(v: Server, m: Msg)
    requires (m.RequestVote? || m.VoteResponse?) && |v.next| == |v.matched|
    requires v.status == Leader ==> Indexed(v)
    requires DistinctKeys(v.log)
    ensures Kept(v, OnRpc(v, m).server)
  {
    hide Fanout, UpToDate, DistinctKeys;
  }

  lemma ReplyKeeps(v: Server, m: Msg)
    requires m.AppendResponse? && Readable(v, m) && |v.next| == |v.matched|
    requires v.status == Leader ==> Indexed(v)
    requires DistinctKeys(v.log)
    ensures Kept(v, OnRpc(v, m).server)
  {
    hide DistinctKeys;
  }

  /** What a reaction keeps of the server, whatever it is given. */
  lemma ReactKeeps(v: Server, input: Input)
    requires Ready(v, input) && |v.next| == |v.matched|
    requires v.status == Leader ==> Indexed(v)
    requires DistinctKeys(v.log)
    ensures Kept(v, React(v, input).server)
  {
    hide OnRpc, Fanout, AdvanceCommit, DistinctKeys;
    if input.Receive? && input.msg.AppendEntries? {
      AppendEntriesKeeps(v, input.msg);
    } else if input.Receive? && input.msg.AppendResponse? {
      ReplyKeeps(v, input.msg);
    } else if input.Receive? && input.msg.IsRpc() {
      VotesKeep(v, input.msg);
    } else if TakesRequest(v, input) {
      var e := EntryFor(v.term, input.msg.request);
      if !Has(v.log, e) { DistinctSnoc(v.log, e); }
    }
  }

  /** Where the entries of a log come from. */
  lemma ReactEntries(v: Server, input: Input, e: Entry)
    requires Ready(v, input) && e in React(v, input).server.log
    ensures e in v.log
            || (input.Receive? && input.msg.AppendEntries? && e in input.msg.entries)
            || (input.Receive? && input.msg.ClientRequest? && e == EntryFor(v.term, input.msg.request))
  {
    if input.Receive? && input.msg.AppendEntries? && v.alive {
      var u := Updated(v, input.msg.term);
      if e !in v.log { SpliceFrom(u.log, input.msg.prev, input.msg.entries, e); }
    }
  }

  /** A leader that is up handles a client's request. */
  predicate TakesRequest(v: Server, input: Input) {
    input.Receive? && input.msg.ClientRequest? && v.alive && v.status == Leader
  }

  /** Which mail a reaction can send, and when. */
  ghost predicate Origin(v: Server, input: Input, e: Envelope)
    requires Ready(v, input)
  {
    var w := React(v, input).server;
    match e.msg
    case RequestVote(t, c, i, lt) =>
      && input.Elapsed? && t == w.term && c == v.rank && e.dst != v.rank && 1 <= e.dst <= v.peers
      && i == LastIndex(v.log) && lt == LastTerm(v.log)
    case VoteResponse(t, g) =>
      && input.Receive? && input.msg.RequestVote? && e.dst == input.msg.candidate && t == w.term
      && v.alive
      && (g ==> t == input.msg.term && w.status != Candidate && w.votedFor == e.dst
                && UpToDate(input.msg.lastIndex, input.msg.lastTerm, v.log))
    case AppendEntries(t, ld, prev, pt, es, lc) =>
      && t == w.term && ld == v.rank && e.dst != v.rank && 1 <= e.dst <= v.peers
      && w.status == Leader && Indexed(w)
      && prev == PrevIndex(w, e.dst) && lc <= w.commit && w.log == v.log
      && (prev < |w.log| ==> pt == TermAt(w.log, prev))
      && (es != [] ==> input.Work? && lc == v.commit && prev + 1 < |w.log| && es == w.log[prev + 1..])
    case AppendResponse(t, ok, f, i) =>
      && input.Receive? && input.msg.AppendEntries? && e.dst == input.msg.leader
      && t == w.term && f == v.rank && i == LastIndex(w.log)
    case ClientRequest(_) => false
    case ClientResponse(ok, id) =>
      if ok then id == 0 && input.ApplyNext? && v.status == Leader && 0 <= v.applied + 1 < |v.log|
                 && e.dst == v.log[v.applied + 1].client
      else input.Receive? && input.msg.ClientRequest? && e.dst == input.msg.request.client && id == v.votedFor
  }

  lemma {:induction false} AdvanceCommitGrows(commit: Index, logSize: nat, matched: seq<Index>, peers: nat)
    requires peers < |matched|
    ensures commit <= AdvanceCommit(commit, logSize, matched, peers)
    decreases logSize - commit
  {
    var n := commit + 1;
    if Majority(1 + Acks(matched, peers, n), peers) && n < logSize {
      AdvanceCommitGrows(n, logSize, matched, peers);
    }
  }

  lemma ElapsedSends(v: Server, e: Envelope)
    requires Ready(v, Elapsed) && e in React(v, Elapsed).sent
    ensures Origin(v, Elapsed, e)
  {
    var s1 := Campaigning(v);
    if Majority(1, v.peers) {
      var w := InOffice(s1);
      if e in Fanout(w, Heartbeat([]), v.peers) { FanoutMember(w, Heartbeat([]), v.peers, e); }
      else { FanoutMember(w, Ballot, v.peers, e); }
    } else {
      FanoutMember(s1, Ballot, v.peers, e);
    }
  }

  lemma VoteResponseSends(v: Server, src: nat, m: Msg, e: Envelope)
    requires m.VoteResponse? && e in React(v, Receive(src, m)).sent
    ensures Origin(v, Receive(src, m), e)
  {
    var u := Updated(v, m.term);
    var w := InOffice(u.(voteCount := u.voteCount + if m.granted then 1 else 0));
    FanoutMember(w, Heartbeat([]), v.peers, e);
  }

  lemma WorkSends(v: Server, e: Envelope)
    requires Ready(v, Work) && e in React(v, Work).sent
    ensures Origin(v, Work, e)
  {
    FanoutMember(v, Replication, v.peers, e);
    AdvanceCommitGrows(v.commit, |v.log|, v.matched, v.peers);
  }

  lemma ReactSends(v: Server, input: Input, e: Envelope)
    requires Ready(v, input) && e in React(v, input).sent
    ensures Origin(v, input, e)
  {
    match input
    case Elapsed => ElapsedSends(v, e);
    case Beat(junk) => FanoutMember(v, Heartbeat(junk), v.peers, e);
    case Work => WorkSends(v, e);
    case Receive(src, m) => if m.VoteResponse? { VoteResponseSends(v, src, m, e); }
    case _ =>
  }

  // ----- the invariant

  /** A client that has begun, and so waits for a reply in every iteration. */
  predicate Begun(s: State, c: nat) {
    c in s.clients && s.clients[c].started
  }

  ghost predicate Owned(s: State, log: Log) {
    forall e :: e in log ==> Begun(s, e.client)
  }

  ghost predicate ServerSound(s: State, r: nat)
    requires r < |s.servers|
  {
    var v := s.servers[r];
    && v.rank == r && v.peers == s.n && v.votedFor <= s.n
    && DistinctKeys(v.log) && Owned(s, v.log)
    && |v.next| == |v.matched| && (v.status == Leader ==> Indexed(v))
  }

  predicate ServerLink(s: State, l: Link) {
    IsServer(s, l.src) && IsServer(s, l.dst) && l.src != l.dst
  }

  ghost predicate MsgSound(s: State, l: Link, m: Msg)
    requires |s.servers| == s.n + 1
  {
    match m
    case RequestVote(t, c, _, _) => ServerLink(s, l) && c == l.src && t <= s.servers[l.src].term
    case VoteResponse(t, _) => ServerLink(s, l) && t <= s.servers[l.src].term
    case AppendEntries(t, ld, _, _, es, _) =>
      Owned(s, es) && ServerLink(s, l) && ld == l.src && Indexed(s.servers[l.src]) && t <= s.servers[l.src].term
    case AppendResponse(t, _, f, _) =>
      ServerLink(s, l) && f == l.src && Indexed(s.servers[l.dst]) && t <= s.servers[l.src].term
    case ClientRequest(r) => Begun(s, l.src) && r.client == l.src && l.dst <= s.n
    case ClientResponse(_, id) => IsServer(s, l.src) && Begun(s, l.dst) && id <= s.n
  }

  ghost predicate Sound(s: State) {
    && 1 <= s.n && |s.servers| == s.n + 1
    && (forall r :: IsServer(s, r) ==> ServerSound(s, r))
    && (forall c :: c in s.clients ==>
          c > s.n && s.clients[c].rank == c && s.clients[c].target <= s.n && Orderly(s.clients[c]))
    && (forall l, m :: InFlight(s, l, m) ==> MsgSound(s, l, m))
  }

  lemma SoundRemove(s: State, l: Link, i: nat)
    requires Sound(s) && Holds(s, l, i)
    ensures Sound(Remove(s, l, i))
  {
    var s' := Remove(s, l, i);
    forall q | IsServer(s', q) ensures ServerSound(s', q) { assert ServerSound(s, q); }
    forall k, m | InFlight(s', k, m) ensures MsgSound(s', k, m) {
      TakeMember(s.net, l, i, k, m);
      assert InFlight(s, k, m) && MsgSound(s, k, m);
    }
  }

  lemma SoundDuplicate(s: State, l: Link, i: nat)
    requires Sound(s) && Holds(s, l, i)
    ensures Sound(Next(s, Duplicate(l, i)))
  {
    var s' := Next(s, Duplicate(l, i));
    forall q | IsServer(s', q) ensures ServerSound(s', q) { assert ServerSound(s, q); }
    forall k, m | InFlight(s', k, m) ensures MsgSound(s', k, m) {
      assert InFlight(s, k, m) && MsgSound(s, k, m);
    }
  }

  /** The message a server reacts to came over a channel of the system. */
  ghost predicate InputSound(s: State, r: nat, input: Input)
    requires |s.servers| == s.n + 1
  {
    input.Receive? ==> MsgSound(s, Link(input.src, r), input.msg)
  }

  lemma VotesForServers(s: State, r: nat, input: Input)
    requires Sound(s) && IsServer(s, r) && Ready(s.servers[r], input) && InputSound(s, r, input)
    ensures React(s.servers[r], input).server.votedFor <= s.n
  {
    assert ServerSound(s, r);
  }

  lemma SoundAt(s: State, r: nat)
    requires Sound(s) && IsServer(s, r)
    ensures |s.servers| == s.n + 1 && ServerSound(s, r)
  {
    hide ServerSound, MsgSound;
  }

  lemma OwnedPart(s: State, s': State, log: Log, part: Log)
    requires Owned(s, log) && s'.clients == s.clients && (part == [] || exists i :: 0 <= i < |log| && part == log[i..])
    ensures Owned(s', part)
  {
    forall e | e in part ensures e in log {}
  }

  lemma OwnerBegun(s: State, log: Log, i: nat)
    requires Owned(s, log) && i < |log|
    ensures Begun(s, log[i].client)
  {}

  lemma SentSound(s: State, r: nat, input: Input, e: Envelope)
    requires Sound(s) && IsServer(s, r) && Ready(s.servers[r], input) && InputSound(s, r, input)
    requires e in React(s.servers[r], input).sent
    ensures MsgSound(Move(s, r, input), Link(r, e.dst), e.msg)
  {
    hide Sound, React, DistinctKeys, Record, UpToDate, Owned;
    SoundAt(s, r);
    var v := s.servers[r];
    ReactSends(v, input, e);
    ReactKeeps(v, input);
    if e.msg.AppendEntries? {
      OwnedPart(s, Move(s, r, input), v.log, e.msg.entries);
    } else if e.msg.ClientResponse? && e.msg.success {
      OwnerBegun(s, v.log, v.applied + 1);
    }
  }

  /** A server that keeps what it must is sound after the step. */
  lemma ActorSettles(s: State, r: nat, input: Input, o: Outcome)
    requires r < |s.servers| && ServerSound(s, r) && Kept(s.servers[r], o.server) && o.server.votedFor <= s.n
    requires forall e :: e in o.server.log ==> Begun(s, e.client)
    ensures ServerSound(Settle(s, r, input, o), r)
  {
    hide DistinctKeys, Record;
  }

  lemma OtherSettles(s: State, r: nat, input: Input, o: Outcome, q: nat)
    requires r < |s.servers| && q < |s.servers| && q != r && ServerSound(s, q)
    ensures ServerSound(Settle(s, r, input, o), q)
  {
    hide DistinctKeys, Record;
  }

  lemma ServerMoves(s: State, r: nat, input: Input, q: nat)
    requires Sound(s) && IsServer(s, r) && Ready(s.servers[r], input) && InputSound(s, r, input)
    requires IsServer(s, q)
    ensures q < |Move(s, r, input).servers| && ServerSound(Move(s, r, input), q)
  {
    hide React, MsgSound, Record, DistinctKeys, Kept;
    assert ServerSound(s, r) && ServerSound(s, q);
    if q == r {
      ReactKeeps(s.servers[r], input);
      VotesForServers(s, r, input);
      forall e | e in React(s.servers[r], input).server.log ensures Begun(s, e.client) {
        EntryBegun(s, r, input, e);
      }
      ActorSettles(s, r, input, React(s.servers[r], input));
    } else {
      OtherSettles(s, r, input, React(s.servers[r], input), q);
    }
  }

  lemma EntryBegun(s: State, r: nat, input: Input, e: Entry)
    requires Sound(s) && IsServer(s, r) && Ready(s.servers[r], input) && InputSound(s, r, input)
    requires e in React(s.servers[r], input).server.log
    ensures Begun(s, e.client)
  {
    hide React, DistinctKeys;
    assert ServerSound(s, r);
    ReactEntries(s.servers[r], input, e);
  }

  /** Mail under way stays sound. */
  lemma OldMsgSettles(s: State, r: nat, input: Input, o: Outcome, l: Link, m: Msg)
    requires |s.servers| == s.n + 1 && r < |s.servers| && Kept(s.servers[r], o.server) && MsgSound(s, l, m)
    ensures |Settle(s, r, input, o).servers| == s.n + 1 && MsgSound(Settle(s, r, input, o), l, m)
  {
    hide DistinctKeys, Record;
  }

  lemma MsgMoves(s: State, r: nat, input: Input, l: Link, m: Msg)
    requires Sound(s) && IsServer(s, r) && Ready(s.servers[r], input) && InputSound(s, r, input)
    requires InFlight(Move(s, r, input), l, m)
    ensures |Move(s, r, input).servers| == s.n + 1 && MsgSound(Move(s, r, input), l, m)
  {
    hide React, MsgSound, DistinctKeys, Record, Kept;
    PostMember(s.net, r, React(s.servers[r], input).sent, l, m);
    if InFlight(s, l, m) {
      assert ServerSound(s, r) && MsgSound(s, l, m);
      ReactKeeps(s.servers[r], input);
      OldMsgSettles(s, r, input, React(s.servers[r], input), l, m);
    } else {
      SentSound(s, r, input, Envelope(l.dst, m));
    }
  }

  lemma SoundMove(s: State, r: nat, input: Input)
    requires Sound(s) && IsServer(s, r) && Ready(s.servers[r], input) && InputSound(s, r, input)
    ensures Sound(Move(s, r, input))
  {
    hide React, ServerSound, MsgSound;
    var s' := Move(s, r, input);
    forall q | IsServer(s', q) ensures ServerSound(s', q) { ServerMoves(s, r, input, q); }
    forall l, m | InFlight(s', l, m) ensures MsgSound(s', l, m) { MsgMoves(s, r, input, l, m); }
  }

  /** Everything a client sends is the one command that has not been answered. */
  lemma ClientSends(c: Client, heard: Heard, resend: Option<nat>, e: Envelope)
    requires Orderly(c) && c.nextResponse < |c.commands|
    requires e in Iterate(c, heard, resend).sent
    ensures e.msg.ClientRequest? && (c.started || HearsReply(heard))
    ensures e.msg.request == c.commands[c.nextResponse]
    ensures e.dst == c.target || (resend.Some? && e.dst == resend.value)
      || (HearsReply(heard) && e.dst == heard.msg.leaderId)
  {}

  ghost predicate HeardSound(s: State, c: nat, heard: Heard) {
    HearsReply(heard) ==> Begun(s, c) && heard.msg.leaderId <= s.n
  }

  /** The reply that ends a wait reaches a client that waits: an iteration stays orderly. */
  lemma IterateOrderly(c: Client, heard: Heard, resend: Option<nat>)
    requires Orderly(c) && c.nextResponse < |c.commands|
    requires HearsReply(heard) ==> c.started
    ensures var c' := Iterate(c, heard, resend).client;
      && Orderly(c') && c'.rank == c.rank && (c.started ==> c'.started)
      && (c'.target == c.target || (resend.Some? && c'.target == resend.value)
          || (HearsReply(heard) && c'.target == heard.msg.leaderId))
  {}

  lemma SoundClientMove(s: State, c: nat, heard: Heard, resend: Option<nat>)
    requires Sound(s) && c in s.clients && s.clients[c].nextResponse < |s.clients[c].commands|
    requires HeardSound(s, c, heard) && (resend.Some? ==> IsServer(s, resend.value))
    ensures Sound(ClientMove(s, c, heard, resend))
  {
    IterateOrderly(s.clients[c], heard, resend);
    var t := Iterate(s.clients[c], heard, resend);
    forall e | e in t.sent ensures Asks(s, c, e) {
      ClientSends(s.clients[c], heard, resend, e);
    }
    SoundTurn(s, c, t);
  }

  /** A request of an outstanding command, by a client that has begun. */
  predicate Asks(s: State, c: nat, e: Envelope) {
    e.msg.ClientRequest? && e.msg.request.client == c && e.dst <= s.n
  }

  lemma SoundTurn(s: State, c: nat, t: Turn)
    requires Sound(s) && c in s.clients && Orderly(t.client) && t.client.rank == c && t.client.target <= s.n
    requires s.clients[c].started || t.sent != [] ==> t.client.started
    requires forall e :: e in t.sent ==> Asks(s, c, e)
    ensures Sound(s.(clients := s.clients[c := t.client], net := Post(s.net, c, t.sent)))
  {
    var s' := s.(clients := s.clients[c := t.client], net := Post(s.net, c, t.sent));
    assert forall k :: Begun(s, k) ==> Begun(s', k);
    forall q | IsServer(s', q) ensures ServerSound(s', q) { assert ServerSound(s, q); }
    forall l, m | InFlight(s', l, m) ensures MsgSound(s', l, m) {
      PostMember(s.net, c, t.sent, l, m);
      if InFlight(s, l, m) {
        assert MsgSound(s, l, m);
      } else {
        assert Asks(s, c, Envelope(l.dst, m));
      }
    }
  }

  lemma SoundNext(s: State, e: Event)
    requires Sound(s) && Enabled(s, e)
    ensures Sound(Next(s, e))
  {
    match e
    case Deliver(src, dst, i) =>
      assert InFlight(s, Link(src, dst), Queue(s.net, Link(src, dst))[i]);
      SoundRemove(s, Link(src, dst), i);
      SoundMove(Remove(s, Link(src, dst), i), dst, Receive(src, Queue(s.net, Link(src, dst))[i]));
    case Local(r, input) => SoundMove(s, r, input);
    case Iteration(c, from, resend) =>
      if from.FromServer? {
        var l := Link(from.src, c);
        assert InFlight(s, l, Queue(s.net, l)[from.i]);
        SoundRemove(s, l, from.i);
        SoundClientMove(Remove(s, l, from.i), c, Answer(Queue(s.net, l)[from.i]), resend);
      } else {
        SoundClientMove(s, c, if from.Silence? then Nothing else Begin, resend);
      }
    case Lose(l, i) => SoundRemove(s, l, i);
    case Duplicate(l, i) => SoundDuplicate(s, l, i);
  }

  lemma SoundAtFirst(s: State)
    requires Init(s)
    ensures Sound(s)
  {}

  lemma {:induction false} SoundRun(run: Run, k: nat)
    requires IsRun(run) && k < |run.states|
    ensures Sound(run.states[k])
  {
    hide Sound, Init, Enabled, Next;
    if k > 0 {
      SoundRun(run, k - 1);
      SoundNext(run.states[k - 1], run.events[k - 1]);
    } else {
      SoundAtFirst(run.states[0]);
    }
  }

  // ----- results about every run

  /** No server's log ever holds two entries with one (client, serial number). */
  lemma NoDuplicateCommand(run: Run, k: nat, r: nat)
    requires IsRun(run) && k < |run.states| && IsServer(run.states[k], r)
    ensures r < |run.states[k].servers| && DistinctKeys(run.states[k].servers[r].log)
  {
    SoundRun(run, k);
    assert ServerSound(run.states[k], r);
  }

  lemma TermKeptStep(run: Run, k: nat, r: nat)
    requires IsRun(run) && 0 < k < |run.states| && IsServer(run.states[k - 1], r)
    ensures var s, t := run.states[k - 1], run.states[k];
      t.n == s.n && |t.servers| == |s.servers| == s.n + 1 && s.servers[r].term <= t.servers[r].term
  {
    hide Init;
    SoundRun(run, k - 1);
    TermKept(run.states[k - 1], run.events[k - 1], r);
  }

  lemma StepKeepsSize(s: State, e: Event)
    requires Enabled(s, e)
    ensures Next(s, e).n == s.n
  {
    hide React, Iterate;
  }

  lemma SameSize(run: Run, k: nat)
    requires IsRun(run) && 0 < k < |run.states|
    ensures run.states[k].n == run.states[k - 1].n
  {
    hide Init, Enabled, Next;
    StepKeepsSize(run.states[k - 1], run.events[k - 1]);
  }

  lemma SizeOfRun(run: Run, k: nat)
    requires IsRun(run) && k < |run.states|
    ensures |run.states[k].servers| == run.states[k].n + 1
  {
    hide IsRun, ServerSound, MsgSound;
    SoundRun(run, k);
  }

  /** No server's term ever decreases. */
  lemma {:induction false} TermsNeverDecrease(run: Run, j: nat, k: nat, r: nat)
    requires IsRun(run) && j <= k < |run.states| && IsServer(run.states[j], r)
    ensures var s, t := run.states[j], run.states[k];
      t.n == s.n && r < |s.servers| == |t.servers| && s.servers[r].term <= t.servers[r].term
    decreases k
  {
    hide IsRun;
    SizeOfRun(run, j);
    if j < k {
      TermsNeverDecrease(run, j, k - 1, r);
      TermKeptStep(run, k, r);
    }
  }

  lemma TermKept(s: State, e: Event, r: nat)
    requires Sound(s) && Enabled(s, e) && IsServer(s, r)
    ensures var t := Next(s, e);
      t.n == s.n && |t.servers| == |s.servers| && s.servers[r].term <= t.servers[r].term
  {
    assert ServerSound(s, r);
    match e
    case Deliver(src, dst, i) =>
      if dst == r { ReactKeeps(s.servers[r], Receive(src, Queue(s.net, Link(src, r))[i])); }
    case Local(q, input) =>
      if q == r { ReactKeeps(s.servers[r], input); }
    case _ =>
  }

  /** A leader has won the term it leads. */
  lemma {:induction false} LeadersHaveWon(run: Run, k: nat, r: nat)
    requires IsRun(run) && k < |run.states| && IsServer(run.states[k], r)
    ensures r < |run.states[k].servers|
    ensures var s := run.states[k]; s.servers[r].status == Leader ==> WonBy(s.hist.wins, s.servers[r].term, r)
    decreases k
  {
    hide Sound, WonBy, Enabled, Next;
    if k > 0 {
      SoundRun(run, k - 1);
      SizeOfRun(run, k - 1);
      SameSize(run, k);
      LeadersHaveWon(run, k - 1, r);
      LeaderHasWon(run.states[k - 1], run.events[k - 1], r);
    }
  }

  lemma LeaderHasWon(s: State, e: Event, r: nat)
    requires Sound(s) && Enabled(s, e) && IsServer(s, r)
    requires s.servers[r].status == Leader ==> WonBy(s.hist.wins, s.servers[r].term, r)
    ensures var t := Next(s, e);
      |t.servers| == |s.servers| && (t.servers[r].status == Leader ==> WonBy(t.hist.wins, t.servers[r].term, r))
  {
    match e
    case Deliver(src, dst, i) =>
      var s1 := Remove(s, Link(src, dst), i);
      WinnerRecorded(s1, dst, Receive(src, Queue(s.net, Link(src, dst))[i]), r);
    case Local(q, input) => WinnerRecorded(s, q, input, r);
    case _ =>
  }

  lemma WinnerRecorded(s: State, q: nat, input: Input, r: nat)
    requires 1 <= q < |s.servers| && r < |s.servers| && s.servers[q].rank == q && Ready(s.servers[q], input)
    requires s.servers[r].status == Leader ==> WonBy(s.hist.wins, s.servers[r].term, r)
    ensures var t := Move(s, q, input);
      t.servers[r].status == Leader ==> WonBy(t.hist.wins, t.servers[r].term, r)
  {
    if s.servers[q].status == React(s.servers[q], input).server.status == Leader { LeadsOn(s.servers[q], input); }
    WinRecorded(s, q, input, React(s.servers[q], input), r);
  }

  lemma LeadsOn(v: Server, input: Input)
    requires Ready(v, input) && v.status == Leader && React(v, input).server.status == Leader
    ensures React(v, input).server.term == v.term
  {}

  lemma WinRecorded(s: State, q: nat, input: Input, o: Outcome, r: nat)
    requires 1 <= q < |s.servers| && r < |s.servers| && s.servers[q].rank == q
    requires s.servers[q].status == o.server.status == Leader ==> o.server.term == s.servers[q].term
    requires s.servers[r].status == Leader ==> WonBy(s.hist.wins, s.servers[r].term, r)
    ensures var t := Settle(s, q, input, o);
      t.servers[r].status == Leader ==> WonBy(t.hist.wins, t.servers[r].term, r)
  {
    var t := Settle(s, q, input, o);
    if t.servers[r].status == Leader {
      if q == r && s.servers[r].status != Leader {
        assert t.hist.wins[|s.hist.wins|].term == o.server.term;
      } else {
        var i :| 0 <= i < |s.hist.wins| && s.hist.wins[i].term == s.servers[r].term && s.hist.wins[i].rank == r;
        assert t.hist.wins[i] == s.hist.wins[i];
      }
    }
  }

  /** The steps of the model leave out none of the source's: every queued message can be
      taken by the server it is addressed to without an out-of-range vector access, a
      leader always has its vectors, and a client that still has commands can iterate. */
  lemma NoStepExcluded(run: Run, k: nat, src: nat, r: nat, i: nat, c: nat, junk: seq<int>)
    requires IsRun(run) && k < |run.states|
    ensures var s := run.states[k];
      IsServer(s, r) && Holds(s, Link(src, r), i) ==> Enabled(s, Deliver(src, r, i))
    ensures var s := run.states[k];
      IsServer(s, r) && r < |s.servers| && s.servers[r].alive && s.servers[r].status == Leader ==>
        Enabled(s, Local(r, Beat(junk))) && Enabled(s, Local(r, Work))
    ensures var s := run.states[k];
      c in s.clients && s.clients[c].nextResponse < |s.clients[c].commands| ==>
        Enabled(s, Iteration(c, Silence, None))
  {
    var s := run.states[k];
    SoundRun(run, k);
    assert IsServer(s, r) ==> ServerSound(s, r);
    assert Holds(s, Link(src, r), i) ==> InFlight(s, Link(src, r), Queue(s.net, Link(src, r))[i]);
  }

  /** The one message, if any, that a leader's replication round puts in the mail for a
      server: nothing when that server's `next_index` has reached the end of the log;
      otherwise the rest of the log, with the position before it and the term there. */
  lemma ReplicationMail(v: Server, q: nat)
    requires Indexed(v) && 1 <= q <= v.peers && q != v.rank
    ensures var msgs := MsgsTo(Replicate(v).sent, q);
      if v.next[q] < |v.log|
      then |msgs| == 1 && EntryMessage(v, msgs[0]) && msgs[0].prev == v.next[q] as int - 1
      else msgs == []
  {
    hide Fanout, AdvanceCommit;
    FanoutTo(v, Replication, v.peers, q);
  }

  /** A well-formed AppendEntries with entries, sent by v. */
  ghost predicate EntryMessage(v: Server, m: Msg) {
    && m.AppendEntries? && m.entries != []
    && -1 <= m.prev < |v.log| - 1
    && m.prevTerm == (if m.prev == -1 then -1 else v.log[m.prev].term)
    && |m.entries| == |v.log| - 1 - m.prev
    && (forall i :: 0 <= i < |m.entries| ==> m.entries[i] == v.log[m.prev + 1 + i])
    && m.term == v.term && m.leader == v.rank && m.leaderCommit == v.commit
  }

  /** Every AppendEntries with entries, whoever sends it and when, is one of these. */
  lemma EveryEntryMessage(v: Server, input: Input, e: Envelope)
    requires Ready(v, input) && e in React(v, input).sent && e.msg.AppendEntries? && e.msg.entries != []
    ensures input.Work? && v.status == Leader && EntryMessage(v, e.msg)
  {
    ReactSends(v, input, e);
  }

  /** In every run, the mail under way to a server is an RPC or a client's request, the mail
      under way to a client is a response, no client's request goes to a client, and each
      RPC names its sender truly and no term beyond its sender's. */
  lemma MailIsUnderstood(run: Run, k: nat, l: Link, m: Msg)
    requires IsRun(run) && k < |run.states| && InFlight(run.states[k], l, m)
    ensures var s := run.states[k];
      && (IsServer(s, l.dst) ==> m.IsRpc() || m.ClientRequest?)
      && (l.dst in s.clients ==> m.ClientResponse?)
      && (m.IsRpc() ==> ServerLink(s, l) && |s.servers| == s.n + 1 && m.term <= s.servers[l.src].term)
      && (m.RequestVote? ==> m.candidate == l.src)
      && (m.AppendEntries? ==> m.leader == l.src)
      && (m.AppendResponse? ==> m.follower == l.src)
      && (m.ClientRequest? ==> m.request.client == l.src && l.src in s.clients && l.dst <= s.n)
  {
    SoundRun(run, k);
    assert MsgSound(run.states[k], l, m);
  }
}
