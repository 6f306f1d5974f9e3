/** What a new leader can rely on. */
module Elections {
  // The network may lose and reorder messages but not repeat them, and no vote response
  // reaches a candidate of a later term.

  import opened LogEntries
  import opened Messages
  import opened RaftServer
  import opened RaftClient
  import opened Cluster
  import opened AnyNetwork

  // ----- one reaction

  /** All that matters for votes in what a reaction does to the server. In particular a
      candidate's log is frozen while it campaigns. */
  lemma ReactVote(v: Server, input: Input)
    requires Ready(v, input)
    ensures var w := React(v, input).server;
      && (input.Elapsed? ==>
            w.term == v.term + 1 && w.log == v.log && (w.status == Candidate ==> w.voteCount == 1)
            && (TakesOffice(v, w) <==> Majority(1, v.peers)))
      && (!input.Elapsed? && w.status == Candidate ==>
            && v.status == Candidate && w.term == v.term && w.log == v.log
            && w.voteCount == v.voteCount + if CountsVote(v, input) then 1 else 0)
      && (!input.Elapsed? && v.status != Candidate && w.term == v.term && v.votedFor > 0 ==>
            w.votedFor == v.votedFor)
      && (!input.Elapsed? && TakesOffice(v, w) ==>
            && v.status == Candidate && w.term == v.term && w.log == v.log
            && Majority(v.voteCount + if CountsVote(v, input) then 1 else 0, v.peers))
  {}

  lemma ElapsedSendsOnce(v: Server, q: nat)
    requires Ready(v, Elapsed) && 1 <= v.rank <= v.peers
    ensures |MsgsTo(React(v, Elapsed).sent, q)| <= 1
  {
    var s1 := Campaigning(v);
    if Majority(1, v.peers) {
      var w := InOffice(s1);
      assert Fanout(w, Heartbeat([]), 0) == [] && Fanout(w, Ballot, 0) == [];
      assert React(v, Elapsed).sent == [];
    } else {
      assert React(v, Elapsed).sent == Fanout(s1, Ballot, v.peers);
      FanoutTo(s1, Ballot, v.peers, q);
    }
  }

  lemma VoteResponseSendsOnce(v: Server, src: nat, m: Msg, q: nat)
    requires m.VoteResponse?
    ensures |MsgsTo(React(v, Receive(src, m)).sent, q)| <= 1
  {
    var u := Updated(v, m.term);
    var counted := u.(voteCount := u.voteCount + if m.granted then 1 else 0);
    OfficeSendsOnce(counted, q);
    var sent := React(v, Receive(src, m)).sent;
    assert sent == [] || sent == ToLeader(counted).sent;
  }

  lemma OfficeSendsOnce(v: Server, q: nat)
    ensures |MsgsTo(ToLeader(v).sent, q)| <= 1
  {
    FanoutTo(InOffice(v), Heartbeat([]), v.peers, q);
  }

  lemma ShortMail(sent: seq<Envelope>, q: nat)
    requires |sent| <= 1
    ensures |MsgsTo(sent, q)| <= 1
  {}

  /** A reaction sends at most one message to each process. */
  lemma ReactSendsOnce(v: Server, input: Input, q: nat)
    requires Ready(v, input) && 1 <= v.rank <= v.peers
    ensures |MsgsTo(React(v, input).sent, q)| <= 1
  {
    match input
    case Elapsed => ElapsedSendsOnce(v, q);
    case Beat(junk) => FanoutTo(v, Heartbeat(junk), v.peers, q);
    case Work => FanoutTo(v, Replication, v.peers, q);
    case Receive(src, m) =>
      if m.VoteResponse? { VoteResponseSendsOnce(v, src, m, q); } else { ShortMail(React(v, input).sent, q); }
    case _ => ShortMail(React(v, input).sent, q);
  }

  // ----- the invariant

  predicate HasGrant(grants: set<Grant>, q: nat, term: nat, p: nat) {
    exists g :: g in grants && g.voter == q && g.term == term && g.candidate == p
  }

  predicate CampaignsIn(v: Server, term: nat) {
    v.status == Candidate && v.term == term
  }

  /** By last term, then by length. */
  predicate AtLeastAsUpToDate(mine: Log, other: Log) {
    LastTerm(mine) > LastTerm(other) || (LastTerm(mine) == LastTerm(other) && |mine| >= |other|)
  }

  ghost predicate GrantSound(s: State, g: Grant)
    requires |s.servers| == s.n + 1
  {
    && IsServer(s, g.voter) && IsServer(s, g.candidate) && g.voter != g.candidate
    && g.term <= s.servers[g.voter].term && g.term <= s.servers[g.candidate].term
    && (s.servers[g.voter].term == g.term ==>
          s.servers[g.voter].status != Candidate && s.servers[g.voter].votedFor == g.candidate)
    && (CampaignsIn(s.servers[g.candidate], g.term) ==>
          AtLeastAsUpToDate(s.servers[g.candidate].log, g.log))
  }

  ghost predicate VoteMsgSound(s: State, l: Link, m: Msg)
    requires |s.servers| == s.n + 1 && (m.IsRpc() ==> ServerLink(s, l))
  {
    && (m.RequestVote? ==>
          && !HasGrant(s.hist.grants, l.dst, m.term, l.src)
          && (CampaignsIn(s.servers[l.src], m.term) ==>
                m.lastIndex == LastIndex(s.servers[l.src].log) && m.lastTerm == LastTerm(s.servers[l.src].log)))
    && (m.VoteResponse? && m.granted ==>
          && HasGrant(s.hist.grants, l.src, m.term, l.dst)
          && (CampaignsIn(s.servers[l.dst], m.term) ==> l.src !in VotersOf(s.hist, l.dst)))
  }

  ghost predicate CandidateSound(s: State, p: nat)
    requires p < |s.servers|
  {
    s.servers[p].status == Candidate ==>
      var voters := VotersOf(s.hist, p);
      && p in voters && |voters| == s.servers[p].voteCount
      && forall q :: q in voters && q != p ==> HasGrant(s.hist.grants, q, s.servers[p].term, p)
  }

  /** The grant that a voter gave the winner, and the log it had then. */
  ghost predicate Backed(grants: set<Grant>, q: nat, w: Win) {
    exists g :: g in grants && g.voter == q && g.term == w.term && g.candidate == w.rank
                && AtLeastAsUpToDate(w.log, g.log)
  }

  ghost predicate WinSound(s: State, w: Win)
    requires |s.servers| == s.n + 1
  {
    && IsServer(s, w.rank) && w.term <= s.servers[w.rank].term
    && (w.term == s.servers[w.rank].term ==> s.servers[w.rank].status != Candidate)
    && w.rank in w.voters && Majority(|w.voters|, s.n)
    && (forall q :: q in w.voters && q != w.rank ==> Backed(s.hist.grants, q, w))
  }

  /** Two copies of one vote message, as far as counting goes. */
  predicate Clash(a: Msg, b: Msg) {
    || (a.RequestVote? && b.RequestVote? && a.term == b.term)
    || (a.VoteResponse? && b.VoteResponse? && a.granted && b.granted && a.term == b.term)
  }

  ghost predicate NoRepeat(q: seq<Msg>) {
    forall i, j :: 0 <= i < j < |q| ==> !Clash(q[i], q[j])
  }

  ghost predicate OneVote(grants: set<Grant>) {
    forall g, h :: g in grants && h in grants && g.voter == h.voter && g.term == h.term
      ==> g.candidate == h.candidate
  }

  ghost predicate Elected(s: State) {
    && Sound(s)
    && OneVote(s.hist.grants)
    && (forall g :: g in s.hist.grants ==> GrantSound(s, g))
    && (forall l :: NoRepeat(Queue(s.net, l)))
    && (forall l, m :: InFlight(s, l, m) ==> MsgSound(s, l, m) && VoteMsgSound(s, l, m))
    && (forall p: nat :: IsServer(s, p) ==> CandidateSound(s, p))
    && (forall i :: 0 <= i < |s.hist.wins| ==> WinSound(s, s.hist.wins[i]))
  }

  // ----- it is kept

  lemma WithoutNoRepeat(q: seq<Msg>, i: nat)
    requires i < |q| && NoRepeat(q)
    ensures NoRepeat(Without(q, i))
    ensures forall m :: m in Without(q, i) ==> !Clash(m, q[i])
  {}

  lemma ElectedRemove(s: State, l: Link, i: nat)
    requires Elected(s) && Holds(s, l, i)
    ensures Elected(Remove(s, l, i))
    ensures forall m :: InFlight(Remove(s, l, i), l, m) ==> !Clash(m, Queue(s.net, l)[i])
  {
    var s' := Remove(s, l, i);
    SoundRemove(s, l, i);
    WithoutNoRepeat(Queue(s.net, l), i);
    forall k ensures NoRepeat(Queue(s'.net, k)) { TakeQueue(s.net, l, i, k); }
    forall k, m | InFlight(s', k, m) ensures MsgSound(s', k, m) && VoteMsgSound(s', k, m) {
      TakeMember(s.net, l, i, k, m);
      assert InFlight(s, k, m) && VoteMsgSound(s, k, m);
    }
    forall g | g in s'.hist.grants ensures GrantSound(s', g) { assert GrantSound(s, g); }
    forall p: nat | IsServer(s', p) ensures CandidateSound(s', p) { assert CandidateSound(s, p); }
    forall j | 0 <= j < |s'.hist.wins| ensures WinSound(s', s'.hist.wins[j]) { assert WinSound(s, s.hist.wins[j]); }
  }

  /** What the step may assume of the message it takes. */
  ghost predicate InputCounted(s: State, r: nat, input: Input)
    requires |s.servers| == s.n + 1 && r < |s.servers|
  {
    input.Receive? ==>
      var l := Link(input.src, r);
      && MsgSound(s, l, input.msg) && VoteMsgSound(s, l, input.msg)
      && (forall m :: InFlight(s, l, m) ==> !Clash(m, input.msg))
      && (input.msg.VoteResponse? && s.servers[r].alive && s.servers[r].status == Candidate
          ==> s.servers[r].term <= input.msg.term)
  }

  ghost predicate Movable(s: State, r: nat, input: Input) {
    && Elected(s) && IsServer(s, r) && Ready(s.servers[r], input) && InputCounted(s, r, input)
  }

  /** A granted vote, and only that, adds a grant. */
  lemma GrantsOf(s: State, r: nat, input: Input, g: Grant)
    requires Movable(s, r, input)
    requires g in Move(s, r, input).hist.grants && g !in s.hist.grants
    ensures input.Receive? && input.msg.RequestVote? && g == Grant(r, input.msg.term, input.src, s.servers[r].log)
    ensures Envelope(input.src, VoteResponse(input.msg.term, true)) in React(s.servers[r], input).sent
    ensures UpToDate(input.msg.lastIndex, input.msg.lastTerm, g.log)
    ensures var w := React(s.servers[r], input).server;
            w.term == g.term && w.status != Candidate && w.votedFor == g.candidate && r != g.candidate
  {
    var v := s.servers[r];
    assert ServerSound(s, r);
    var e :| e in React(v, input).sent && e.msg.VoteResponse? && e.msg.granted
             && g == Grant(v.rank, e.msg.term, e.dst, v.log);
    ReactSends(v, input, e);
    assert e == Envelope(input.src, VoteResponse(input.msg.term, true));
  }

  lemma GrantsSound(s: State, r: nat, input: Input, g: Grant)
    requires Movable(s, r, input) && g in Move(s, r, input).hist.grants
    ensures GrantSound(Move(s, r, input), g)
  {
    hide React, WinSound, NoRepeat, CandidateSound;
    assert ServerSound(s, r);
    ReactVote(s.servers[r], input);
    ReactKeeps(s.servers[r], input);
    if g in s.hist.grants { assert GrantSound(s, g); } else { GrantsOf(s, r, input, g); }
  }

  /** A second vote in a term goes to the candidate of the first. */
  lemma SameCandidate(s: State, r: nat, input: Input, g: Grant, h: Grant)
    requires Movable(s, r, input) && g in Move(s, r, input).hist.grants && h in Move(s, r, input).hist.grants
    requires g.voter == h.voter && g.term == h.term
    ensures g.candidate == h.candidate
  {
    hide React;
    GrantsSound(s, r, input, g);
    GrantsSound(s, r, input, h);
    if g !in s.hist.grants { GrantsOf(s, r, input, g); }
    if h !in s.hist.grants { GrantsOf(s, r, input, h); }
  }

  lemma GrantsKept(s: State, r: nat, input: Input)
    requires Movable(s, r, input)
    ensures var s' := Move(s, r, input);
      OneVote(s'.hist.grants) && forall g :: g in s'.hist.grants ==> GrantSound(s', g)
  {
    hide React, GrantSound;
    var grants := Move(s, r, input).hist.grants;
    forall g | g in grants ensures GrantSound(Move(s, r, input), g) { GrantsSound(s, r, input, g); }
    forall g, h | g in grants && h in grants && g.voter == h.voter && g.term == h.term
      ensures g.candidate == h.candidate
    {
      SameCandidate(s, r, input, g, h);
    }
  }

  /** New mail: a request for a vote nobody gave yet, or a vote given just now. */
  lemma RequestMailSound(s: State, r: nat, input: Input, e: Envelope)
    requires Movable(s, r, input) && e in React(s.servers[r], input).sent && e.msg.RequestVote?
    ensures var s' := Move(s, r, input);
      && |s'.servers| == s'.n + 1 && ServerLink(s', Link(r, e.dst)) && VoteMsgSound(s', Link(r, e.dst), e.msg)
      && forall m :: InFlight(s, Link(r, e.dst), m) ==> !Clash(m, e.msg)
  {
    var s' := Move(s, r, input);
    assert ServerSound(s, r);
    ReactSends(s.servers[r], input, e);
    ReactVote(s.servers[r], input);
    forall g | g in s'.hist.grants && g.voter == e.dst && g.term == e.msg.term ensures g.candidate != r {
      if g in s.hist.grants { assert GrantSound(s, g); } else { GrantsOf(s, r, input, g); }
    }
    forall m | InFlight(s, Link(r, e.dst), m) ensures !Clash(m, e.msg) { assert MsgSound(s, Link(r, e.dst), m); }
  }

  lemma VoteMailSound(s: State, r: nat, input: Input, e: Envelope)
    requires Movable(s, r, input) && e in React(s.servers[r], input).sent
    ensures var s' := Move(s, r, input);
      && |s'.servers| == s'.n + 1 && MsgSound(s', Link(r, e.dst), e.msg) && VoteMsgSound(s', Link(r, e.dst), e.msg)
      && forall m :: InFlight(s, Link(r, e.dst), m) ==> !Clash(m, e.msg)
  {
    hide React;
    SentSound(s, r, input, e);
    if e.msg.RequestVote? {
      RequestMailSound(s, r, input, e);
    } else if e.msg.VoteResponse? && e.msg.granted {
      ResponseMailSound(s, r, input, e);
    }
  }

  lemma ResponseMailSound(s: State, r: nat, input: Input, e: Envelope)
    requires Movable(s, r, input) && e in React(s.servers[r], input).sent && e.msg.VoteResponse? && e.msg.granted
    ensures var s' := Move(s, r, input);
      && |s'.servers| == s'.n + 1 && ServerLink(s', Link(r, e.dst)) && VoteMsgSound(s', Link(r, e.dst), e.msg)
      && forall m :: InFlight(s, Link(r, e.dst), m) ==> !Clash(m, e.msg)
  {
    hide WinSound, OneVote, NoRepeat, GrantSound, UpToDate;
    var s', v, l := Move(s, r, input), s.servers[r], Link(r, e.dst);
    assert ServerSound(s, r);
    ReactSends(v, input, e);
    ReactVote(v, input);
    var g := Grant(r, e.msg.term, e.dst, v.log);
    assert g in GrantsIn(v, React(v, input).sent);
    assert g in s'.hist.grants;
    forall m | InFlight(s, l, m) ensures !Clash(m, e.msg) { assert VoteMsgSound(s, l, m); }
    var p := s'.servers[e.dst];
    if CampaignsIn(p, e.msg.term) {
      assert p == s.servers[e.dst] && CandidateSound(s, e.dst);
    }
  }

  /** Requests for votes under way stay unanswered. */
  lemma OldRequestSound(s: State, r: nat, input: Input, l: Link, m: Msg)
    requires Movable(s, r, input) && InFlight(s, l, m) && m.RequestVote?
    ensures var s' := Move(s, r, input);
      |s'.servers| == s'.n + 1 && ServerLink(s', l) && VoteMsgSound(s', l, m)
  {
    var s' := Move(s, r, input);
    assert MsgSound(s, l, m) && VoteMsgSound(s, l, m) && ServerSound(s, r);
    ReactVote(s.servers[r], input);
    forall g | g in s'.hist.grants && g.voter == l.dst && g.term == m.term ensures g.candidate != l.src {
      if g !in s.hist.grants {
        GrantsOf(s, r, input, g);
        assert g.candidate == l.src ==> Clash(m, input.msg);
      }
    }
  }

  /** Granted votes under way stay uncounted. */
  lemma StillUncounted(s: State, r: nat, input: Input, l: Link, m: Msg)
    requires Movable(s, r, input) && InFlight(s, l, m) && m.VoteResponse? && m.granted
    ensures var s' := Move(s, r, input);
      l.dst < |s'.servers| && (CampaignsIn(s'.servers[l.dst], m.term) ==> l.src !in VotersOf(s'.hist, l.dst))
  {
    hide GrantSound, CandidateSound, OneVote, NoRepeat, React;
    assert MsgSound(s, l, m) && VoteMsgSound(s, l, m) && ServerSound(s, r);
    ReactVote(s.servers[r], input);
    assert input.Receive? && l == Link(input.src, r) ==> !Clash(m, input.msg);
  }

  lemma OldResponseSound(s: State, r: nat, input: Input, l: Link, m: Msg)
    requires Movable(s, r, input) && InFlight(s, l, m) && m.VoteResponse?
    ensures var s' := Move(s, r, input);
      |s'.servers| == s'.n + 1 && ServerLink(s', l) && VoteMsgSound(s', l, m)
  {
    assert MsgSound(s, l, m) && VoteMsgSound(s, l, m);
    if m.granted {
      HasGrantKept(s, r, input, l.src, m.term, l.dst);
      StillUncounted(s, r, input, l, m);
    }
  }

  lemma VoteMsgsKept(s: State, r: nat, input: Input, l: Link, m: Msg)
    requires Movable(s, r, input) && InFlight(Move(s, r, input), l, m)
    ensures var s' := Move(s, r, input);
      |s'.servers| == s'.n + 1 && MsgSound(s', l, m) && VoteMsgSound(s', l, m)
  {
    SoundMove(s, r, input);
    assert MsgSound(Move(s, r, input), l, m);
    PostMember(s.net, r, React(s.servers[r], input).sent, l, m);
    if !InFlight(s, l, m) {
      VoteMailSound(s, r, input, Envelope(l.dst, m));
    } else if m.RequestVote? {
      OldRequestSound(s, r, input, l, m);
    } else if m.VoteResponse? {
      OldResponseSound(s, r, input, l, m);
    }
  }

  lemma PostNoRepeat(net: Net, r: nat, sent: seq<Envelope>, l: Link)
    requires NoRepeat(Queue(net, l)) && |MsgsTo(sent, l.dst)| <= 1
    requires forall m, e :: m in Queue(net, l) && e in sent && l == Link(r, e.dst) ==> !Clash(m, e.msg)
    ensures NoRepeat(Queue(Post(net, r, sent), l))
  {
    PostQueue(net, r, sent, l);
    if l.src == r && MsgsTo(sent, l.dst) != [] {
      var m := MsgsTo(sent, l.dst)[0];
      MsgsToMember(sent, l.dst, m);
      assert MsgsTo(sent, l.dst) == [m] && Envelope(l.dst, m) in sent;
      forall x | x in Queue(net, l) ensures !Clash(x, m) { assert !Clash(x, Envelope(l.dst, m).msg); }
      AppendNoRepeat(Queue(net, l), m);
    }
  }

  lemma AppendNoRepeat(q: seq<Msg>, m: Msg)
    requires NoRepeat(q) && forall x :: x in q ==> !Clash(x, m)
    ensures NoRepeat(q + [m])
  {}

  lemma QueuesKept(s: State, r: nat, input: Input, l: Link)
    requires Movable(s, r, input)
    ensures NoRepeat(Queue(Move(s, r, input).net, l))
  {
    var sent := React(s.servers[r], input).sent;
    assert ServerSound(s, r) && NoRepeat(Queue(s.net, l));
    ReactSendsOnce(s.servers[r], input, l.dst);
    forall m, e | m in Queue(s.net, l) && e in sent && l == Link(r, e.dst) ensures !Clash(m, e.msg) {
      VoteMailSound(s, r, input, e);
      assert InFlight(s, l, m);
    }
    PostNoRepeat(s.net, r, sent, l);
  }

  lemma HasGrantKept(s: State, r: nat, input: Input, q: nat, term: nat, p: nat)
    requires Movable(s, r, input) && HasGrant(s.hist.grants, q, term, p)
    ensures HasGrant(Move(s, r, input).hist.grants, q, term, p)
  {
    var g :| g in s.hist.grants && g.voter == q && g.term == term && g.candidate == p;
    assert g in Move(s, r, input).hist.grants;
  }

  lemma CampaignKept(s: State, r: nat, input: Input)
    requires Movable(s, r, input) && !input.Elapsed?
    ensures CandidateSound(Move(s, r, input), r)
  {
    var s' := Move(s, r, input);
    var v := s.servers[r];
    assert ServerSound(s, r) && CandidateSound(s, r);
    ReactVote(v, input);
    if s'.servers[r].status == Candidate {
      var before, now := VotersOf(s.hist, r), VotersOf(s'.hist, r);
      assert now == NewVoters(before, v, input);
      forall q | q in now && q != r ensures HasGrant(s'.hist.grants, q, v.term, r) {
        assert HasGrant(s.hist.grants, q, v.term, r);
        HasGrantKept(s, r, input, q, v.term, r);
      }
    }
  }

  lemma CandidatesKept(s: State, r: nat, input: Input, p: nat)
    requires Movable(s, r, input) && IsServer(s, p)
    ensures CandidateSound(Move(s, r, input), p)
  {
    var s' := Move(s, r, input);
    assert ServerSound(s, r) && CandidateSound(s, p);
    if p != r {
      forall q | q in VotersOf(s.hist, p) && q != p && s.servers[p].status == Candidate
        ensures HasGrant(s'.hist.grants, q, s.servers[p].term, p)
      {
        HasGrantKept(s, r, input, q, s.servers[p].term, p);
      }
    } else if input.Elapsed? {
      ReactVote(s.servers[r], input);
      assert VotersOf(s'.hist, r) == {r};
    } else {
      CampaignKept(s, r, input);
    }
  }

  lemma BackedKept(s: State, r: nat, input: Input, q: nat, w: Win)
    requires Movable(s, r, input) && Backed(s.hist.grants, q, w)
    ensures Backed(Move(s, r, input).hist.grants, q, w)
  {
    var g :| g in s.hist.grants && g.voter == q && g.term == w.term && g.candidate == w.rank
             && AtLeastAsUpToDate(w.log, g.log);
    assert g in Move(s, r, input).hist.grants;
  }

  /** What a step that makes a leader records. */
  lemma WinOf(s: State, r: nat, input: Input)
    requires Movable(s, r, input) && TakesOffice(s.servers[r], React(s.servers[r], input).server)
    ensures var v, w, s' := s.servers[r], React(s.servers[r], input).server, Move(s, r, input);
      && s'.hist.wins == s.hist.wins + [Win(w.term, r, NewVoters(VotersOf(s.hist, r), v, input), v.log)]
      && s'.servers[r] == w
      && (if input.Elapsed? then Majority(1, s.n)
          else CampaignsIn(v, w.term) && Majority(v.voteCount + if CountsVote(v, input) then 1 else 0, s.n))
  {
    assert ServerSound(s, r);
    ReactVote(s.servers[r], input);
  }

  /** The voters that a new leader counts are a majority, and voted for it. */
  lemma WinVoters(s: State, r: nat, input: Input)
    requires Movable(s, r, input) && TakesOffice(s.servers[r], React(s.servers[r], input).server)
    ensures var voters := NewVoters(VotersOf(s.hist, r), s.servers[r], input);
      && r in voters && Majority(|voters|, s.n)
      && forall q :: q in voters && q != r ==>
           CampaignsIn(s.servers[r], React(s.servers[r], input).server.term)
           && HasGrant(s.hist.grants, q, s.servers[r].term, r)
  {
    hide React, Record;
    assert ServerSound(s, r) && CandidateSound(s, r);
    WinOf(s, r, input);
  }

  /** The new leader: its voters are a majority, and each one's log was no more up to date. */
  lemma NewWin(s: State, r: nat, input: Input)
    requires Movable(s, r, input)
    requires TakesOffice(s.servers[r], React(s.servers[r], input).server)
    ensures var s' := Move(s, r, input);
      |s'.hist.wins| == |s.hist.wins| + 1 && WinSound(s', s'.hist.wins[|s.hist.wins|])
  {
    hide React, Record, NewVoters, Backed;
    var s' := Move(s, r, input);
    WinOf(s, r, input);
    WinVoters(s, r, input);
    var win := s'.hist.wins[|s.hist.wins|];
    forall q | q in win.voters && q != r ensures Backed(s'.hist.grants, q, win) { GrantBacks(s, r, input, q, win); }
    assert ServerSound(s, r);
  }

  lemma GrantBacks(s: State, r: nat, input: Input, q: nat, win: Win)
    requires Movable(s, r, input) && HasGrant(s.hist.grants, q, win.term, r) && win.rank == r
    requires win.log == s.servers[r].log && CampaignsIn(s.servers[r], win.term)
    ensures Backed(Move(s, r, input).hist.grants, q, win)
  {
    var g :| g in s.hist.grants && g.voter == q && g.term == win.term && g.candidate == r;
    assert GrantSound(s, g);
    assert g in Move(s, r, input).hist.grants;
  }

  lemma WinsKept(s: State, r: nat, input: Input, i: nat)
    requires Movable(s, r, input) && i < |Move(s, r, input).hist.wins|
    ensures WinSound(Move(s, r, input), Move(s, r, input).hist.wins[i])
  {
    var s' := Move(s, r, input);
    var w := s'.hist.wins[i];
    if i < |s.hist.wins| {
      assert WinSound(s, s.hist.wins[i]) && ServerSound(s, r);
      ReactVote(s.servers[r], input);
      ReactKeeps(s.servers[r], input);
      forall q | q in w.voters && q != w.rank ensures Backed(s'.hist.grants, q, w) {
        BackedKept(s, r, input, q, w);
      }
    } else {
      NewWin(s, r, input);
    }
  }

  lemma ElectedMove(s: State, r: nat, input: Input)
    requires Movable(s, r, input)
    ensures Elected(Move(s, r, input))
  {
    var s' := Move(s, r, input);
    SoundMove(s, r, input);
    GrantsKept(s, r, input);
    forall l ensures NoRepeat(Queue(s'.net, l)) { QueuesKept(s, r, input, l); }
    forall l, m | InFlight(s', l, m) ensures MsgSound(s', l, m) && VoteMsgSound(s', l, m) {
      VoteMsgsKept(s, r, input, l, m);
    }
    forall p: nat | IsServer(s', p) ensures CandidateSound(s', p) { CandidatesKept(s, r, input, p); }
    forall i | 0 <= i < |s'.hist.wins| ensures WinSound(s', s'.hist.wins[i]) { WinsKept(s, r, input, i); }
  }

  /** A client's mail repeats no vote. */
  lemma ClientQueue(s: State, c: nat, heard: Heard, resend: Option<nat>, l: Link)
    requires Sound(s) && NoRepeat(Queue(s.net, l))
    requires c in s.clients && s.clients[c].nextResponse < |s.clients[c].commands|
    ensures NoRepeat(Queue(ClientMove(s, c, heard, resend).net, l))
  {
    hide Iterate;
    var sent := Iterate(s.clients[c], heard, resend).sent;
    var added := MsgsTo(sent, l.dst);
    PostQueue(s.net, c, sent, l);
    forall i | 0 <= i < |added| ensures added[i].ClientRequest? {
      MsgsToMember(sent, l.dst, added[i]);
      ClientSends(s.clients[c], heard, resend, Envelope(l.dst, added[i]));
    }
    NoRepeatAppend(Queue(s.net, l), added);
  }

  lemma NoRepeatAppend(q: seq<Msg>, added: seq<Msg>)
    requires NoRepeat(q) && forall i :: 0 <= i < |added| ==> added[i].ClientRequest?
    ensures NoRepeat(q + added)
  {}

  /** Votes under way stay as they were. */
  lemma ClientMsg(s: State, c: nat, heard: Heard, resend: Option<nat>, l: Link, m: Msg)
    requires Elected(s) && c in s.clients && s.clients[c].nextResponse < |s.clients[c].commands|
    requires InFlight(ClientMove(s, c, heard, resend), l, m) && Sound(ClientMove(s, c, heard, resend))
    ensures var s' := ClientMove(s, c, heard, resend); MsgSound(s', l, m) && VoteMsgSound(s', l, m)
  {
    var sent := Iterate(s.clients[c], heard, resend).sent;
    PostMember(s.net, c, sent, l, m);
    if InFlight(s, l, m) {
      assert VoteMsgSound(s, l, m);
    } else {
      ClientSends(s.clients[c], heard, resend, Envelope(l.dst, m));
    }
  }

  /** Clients take no part in elections. */
  lemma ElectedClientMove(s: State, c: nat, heard: Heard, resend: Option<nat>)
    requires Elected(s) && c in s.clients && s.clients[c].nextResponse < |s.clients[c].commands|
    requires HeardSound(s, c, heard) && (resend.Some? ==> IsServer(s, resend.value))
    ensures Elected(ClientMove(s, c, heard, resend))
  {
    var s' := ClientMove(s, c, heard, resend);
    SoundClientMove(s, c, heard, resend);
    forall l ensures NoRepeat(Queue(s'.net, l)) { ClientQueue(s, c, heard, resend, l); }
    forall l, m | InFlight(s', l, m) ensures MsgSound(s', l, m) && VoteMsgSound(s', l, m) {
      ClientMsg(s, c, heard, resend, l, m);
    }
    forall g | g in s'.hist.grants ensures GrantSound(s', g) { assert GrantSound(s, g); }
    forall p: nat | IsServer(s', p) ensures CandidateSound(s', p) { assert CandidateSound(s, p); }
    forall j | 0 <= j < |s'.hist.wins| ensures WinSound(s', s'.hist.wins[j]) { assert WinSound(s, s.hist.wins[j]); }
  }

  lemma ElectedNext(s: State, e: Event)
    requires Elected(s) && Enabled(s, e) && SingleCopyStep(e) && TimelyStep(s, e)
    ensures Elected(Next(s, e))
  {
    hide CandidateSound, WinSound, GrantSound, OneVote, NoRepeat;
    match e
    case Deliver(src, dst, i) =>
      var l := Link(src, dst);
      assert InFlight(s, l, Queue(s.net, l)[i]);
      ElectedRemove(s, l, i);
      ElectedMove(Remove(s, l, i), dst, Receive(src, Queue(s.net, l)[i]));
    case Local(r, input) => ElectedMove(s, r, input);
    case Iteration(c, from, resend) =>
      if from.FromServer? {
        var l := Link(from.src, c);
        assert InFlight(s, l, Queue(s.net, l)[from.i]);
        ElectedRemove(s, l, from.i);
        ElectedClientMove(Remove(s, l, from.i), c, Answer(Queue(s.net, l)[from.i]), resend);
      } else {
        ElectedClientMove(s, c, if from.Silence? then Nothing else Begin, resend);
      }
    case Lose(l, i) => ElectedRemove(s, l, i);
  }

  lemma ElectedAtFirst(s: State)
    requires Init(s)
    ensures Elected(s)
  {}

  lemma {:induction false} ElectedRun(run: Run, k: nat)
    requires IsRun(run) && SingleCopy(run) && Timely(run) && k < |run.states|
    ensures Elected(run.states[k])
  {
    hide Elected, Init, Enabled, Next;
    if k > 0 {
      ElectedRun(run, k - 1);
      assert SingleCopyStep(run.events[k - 1]) && TimelyStep(run.states[k - 1], run.events[k - 1]);
      ElectedNext(run.states[k - 1], run.events[k - 1]);
    } else {
      ElectedAtFirst(run.states[0]);
    }
  }

  /** Election restriction. Every leader of the run took office with the votes of a majority
      of distinct servers, itself among them; each of the others had granted it that vote in
      that term, and the leader's log on taking office was at least as up to date as the
      voter's log had been when it voted. */
  lemma ElectionRestriction(run: Run, k: nat, i: nat)
    requires IsRun(run) && SingleCopy(run) && Timely(run)
    requires k < |run.states| && i < |run.states[k].hist.wins|
    ensures var s := run.states[k]; var w := s.hist.wins[i];
      && IsServer(s, w.rank) && w.rank in w.voters && 2 * |w.voters| > s.n
      && (forall q :: q in w.voters ==> IsServer(s, q))
      && forall q :: q in w.voters && q != w.rank ==>
           exists g :: g in s.hist.grants && g.voter == q && g.term == w.term && g.candidate == w.rank
                       && AtLeastAsUpToDate(w.log, g.log)
  {
    var s := run.states[k];
    var w := s.hist.wins[i];
    ElectedRun(run, k);
    assert WinSound(s, w);
    forall q | q in w.voters && q != w.rank
      ensures IsServer(s, q) &&
        exists g :: g in s.hist.grants && g.voter == q && g.term == w.term && g.candidate == w.rank
                    && AtLeastAsUpToDate(w.log, g.log)
    {
      assert Backed(s.hist.grants, q, w);
      var g :| g in s.hist.grants && g.voter == q && g.term == w.term && g.candidate == w.rank
               && AtLeastAsUpToDate(w.log, g.log);
      assert GrantSound(s, g);
    }
  }
}
