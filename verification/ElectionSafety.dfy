/** At most one leader per term, over lossless channels in order. */
module ElectionSafety {
  import opened LogEntries
  import opened Messages
  import opened RaftServer
  import opened RaftClient
  import opened Cluster
  import opened AnyNetwork
  import opened Elections
  import opened Quorums

  // A leader may grant a second vote in its own term. What saves the term is that its first
  // heartbeat travels ahead of any such grant on the same channel, so that the vote finds its
  // candidate demoted.

  /** The server can no longer win `term` by counting votes. */
  predicate Past(v: Server, term: nat) {
    v.term > term || (v.term == term && v.status != Candidate)
  }

  predicate IsAppend(m: Msg, term: nat) {
    m.AppendEntries? && m.term == term
  }

  ghost predicate HasAppend(q: seq<Msg>, term: nat) {
    exists m :: m in q && IsAppend(m, term)
  }

  /** The receiver is past the term, or an AppendEntries of the term is on its way. */
  ghost predicate Announced(s: State, l: Link, term: nat)
    requires l.dst < |s.servers|
  {
    Past(s.servers[l.dst], term) || HasAppend(Queue(s.net, l), term)
  }

  /** Position j of the queue is a vote granted by a server that has won its term. */
  predicate OfficeVote(q: seq<Msg>, wins: seq<Win>, src: nat, j: nat) {
    j < |q| && q[j].VoteResponse? && q[j].granted && WonBy(wins, q[j].term, src)
  }

  /** The receiver is past the term of message j, or an AppendEntries of it arrives first. */
  ghost predicate Covered(q: seq<Msg>, v: Server, j: nat)
    requires j < |q| && q[j].IsRpc()
  {
    Past(v, q[j].term) || HasAppend(q[..j], q[j].term)
  }

  /** Every vote that a leader granted in its own term waits behind an AppendEntries of that
      term, unless its candidate is past the term. */
  ghost predicate Shielded(s: State, l: Link)
    requires ServerLink(s, l) ==> l.dst < |s.servers|
  {
    var q := Queue(s.net, l);
    ServerLink(s, l) ==>
      forall j: nat :: OfficeVote(q, s.hist.wins, l.src, j) ==> Covered(q, s.servers[l.dst], j)
  }

  /** The counted voters of a campaign or a win do not hold the same office. */
  ghost predicate Unrivalled(wins: seq<Win>, voters: set<nat>, term: nat, r: nat) {
    forall q :: q in voters && q != r ==> !WonBy(wins, term, q)
  }

  ghost predicate OneWinPerTerm(wins: seq<Win>) {
    forall i, j :: 0 <= i < j < |wins| ==> wins[i].term != wins[j].term
  }

  ghost predicate Safe(s: State) {
    && Elected(s)
    && (forall r: nat :: IsServer(s, r) ==> s.servers[r].alive)
    && (forall i, c: nat :: 0 <= i < |s.hist.wins| && ServerLink(s, Link(s.hist.wins[i].rank, c))
          ==> Announced(s, Link(s.hist.wins[i].rank, c), s.hist.wins[i].term))
    && (forall l :: Shielded(s, l))
    && (forall p: nat :: IsServer(s, p) && s.servers[p].status == Candidate
          ==> Unrivalled(s.hist.wins, VotersOf(s.hist, p), s.servers[p].term, p))
    && (forall i :: 0 <= i < |s.hist.wins| ==>
          Unrivalled(s.hist.wins, s.hist.wins[i].voters, s.hist.wins[i].term, s.hist.wins[i].rank))
    && OneWinPerTerm(s.hist.wins)
  }

  // ----- one step of one server, seen as a whole

  /** Server r reacts: to a local input, or to the head of one of its queues. */
  datatype Act = Act(r: nat, input: Input)

  ghost predicate Acts(s: State, s1: State, a: Act) {
    && Safe(s) && IsServer(s, a.r) && Ready(s.servers[a.r], a.input) && !a.input.Crash?
    && (if a.input.Receive?
        then Holds(s, Link(a.input.src, a.r), 0) && a.input.msg == Queue(s.net, Link(a.input.src, a.r))[0]
             && s1 == Remove(s, Link(a.input.src, a.r), 0)
        else s1 == s)
    && Movable(s1, a.r, a.input)
  }

  /** The state after the reaction. */
  function After(s1: State, a: Act): State
    requires a.r < |s1.servers| && Ready(s1.servers[a.r], a.input)
  {
    Move(s1, a.r, a.input)
  }

  lemma PastStays(v: Server, input: Input, term: nat)
    requires Ready(v, input) && |v.next| == |v.matched| && (v.status == Leader ==> Indexed(v)) && DistinctKeys(v.log)
    requires Past(v, term) || (input.Receive? && IsAppend(input.msg, term) && v.alive)
    ensures Past(React(v, input).server, term)
  {
    ReactVote(v, input);
    ReactKeeps(v, input);
  }

  lemma QueuePosted(s: State, r: nat, input: Input, o: Outcome, l: Link)
    requires r < |s.servers|
    ensures Queue(Settle(s, r, input, o).net, l)
            == Queue(s.net, l) + if l.src == r then MsgsTo(o.sent, l.dst) else []
  {
    PostQueue(s.net, r, o.sent, l);
  }

  /** Mail only joins the end of a queue; only the head of the acting server's queue left. */
  lemma QueueAfter(s: State, s1: State, a: Act, l: Link) returns (added: seq<Msg>)
    requires Acts(s, s1, a)
    ensures var q := Queue(s.net, l);
      var rest := if a.input.Receive? && l == Link(a.input.src, a.r) then q[1..] else q;
      (a.input.Receive? && l == Link(a.input.src, a.r) ==> q != [] && q[0] == a.input.msg)
      && Queue(After(s1, a).net, l) == rest + added
    ensures added == if l.src == a.r then MsgsTo(React(s.servers[a.r], a.input).sent, l.dst) else []
  {
    QueuePosted(s1, a.r, a.input, React(s.servers[a.r], a.input), l);
    if a.input.Receive? {
      TakeQueue(s.net, Link(a.input.src, a.r), 0, l);
    }
    added := if l.src == a.r then MsgsTo(React(s.servers[a.r], a.input).sent, l.dst) else [];
  }

  /** Whoever wins a term was campaigning in it, or enters it now. */
  lemma NewOffice(s: State, s1: State, a: Act, term: nat, q: nat)
    requires Acts(s, s1, a)
    requires WonBy(After(s1, a).hist.wins, term, q) && !WonBy(s.hist.wins, term, q)
    ensures q == a.r && TakesOffice(s.servers[q], React(s.servers[q], a.input).server)
    ensures term == React(s.servers[q], a.input).server.term
    ensures !Past(s.servers[q], term)
    ensures forall p :: !HasGrant(s.hist.grants, q, term, p)
  {
    hide React, Movable;
    var wins := After(s1, a).hist.wins;
    var i :| 0 <= i < |wins| && wins[i].term == term && wins[i].rank == q;
    assert i == |s.hist.wins|;
    assert ServerSound(s, a.r);
    ReactVote(s.servers[a.r], a.input);
    forall g | g in s.hist.grants && g.voter == q ensures g.term != term {
      assert GrantSound(s, g);
    }
  }

  lemma PastAfter(s: State, s1: State, a: Act, c: nat, term: nat)
    requires Acts(s, s1, a) && IsServer(s, c)
    requires Past(s.servers[c], term) || (c == a.r && a.input.Receive? && IsAppend(a.input.msg, term))
    ensures Past(After(s1, a).servers[c], term)
  {
    assert ServerSound(s, c) && s.servers[c].alive;
    if c == a.r { PastStays(s.servers[c], a.input, term); }
  }

  lemma AnnouncedKept(s: State, s1: State, a: Act, l: Link, term: nat)
    requires Acts(s, s1, a) && ServerLink(s, l) && Announced(s, l, term)
    ensures Announced(After(s1, a), l, term)
  {
    var q := Queue(s.net, l);
    var added := QueueAfter(s, s1, a, l);
    if Past(s.servers[l.dst], term) || (l.dst == a.r && a.input.Receive? && IsAppend(a.input.msg, term)) {
      PastAfter(s, s1, a, l.dst, term);
    } else {
      var m :| m in q && IsAppend(m, term);
      assert m in Queue(After(s1, a).net, l);
    }
  }

  /** Taking office puts a heartbeat of the new term in the mail for every other server. */
  lemma OfficeMail(v: Server, input: Input, c: nat)
    requires Ready(v, input) && 1 <= v.rank <= v.peers && TakesOffice(v, React(v, input).server)
    requires 1 <= c <= v.peers && c != v.rank
    ensures HasAppend(MsgsTo(React(v, input).sent, c), React(v, input).server.term)
  {
    hide Fanout, MsgsTo, UpToDate, Splice, AdvanceCommit;
    var w := React(v, input).server;
    ReactVote(v, input);
    FanoutTo(w, Heartbeat([]), v.peers, c);
    assert IsAppend(MessageFor(w, Heartbeat([]), c)[0], w.term);
  }

  lemma OfficeAnnounced(s: State, s1: State, a: Act, c: nat)
    requires Acts(s, s1, a) && ServerLink(s, Link(a.r, c))
    requires TakesOffice(s.servers[a.r], React(s.servers[a.r], a.input).server)
    ensures Announced(After(s1, a), Link(a.r, c), React(s.servers[a.r], a.input).server.term)
  {
    assert ServerSound(s, a.r);
    var added := QueueAfter(s, s1, a, Link(a.r, c));
    OfficeMail(s.servers[a.r], a.input, c);
    var m :| m in added && IsAppend(m, React(s.servers[a.r], a.input).server.term);
    assert m in Queue(After(s1, a).net, Link(a.r, c));
  }

  lemma AllAnnounced(s: State, s1: State, a: Act, i: nat, c: nat)
    requires Acts(s, s1, a) && i < |After(s1, a).hist.wins|
    requires ServerLink(After(s1, a), Link(After(s1, a).hist.wins[i].rank, c))
    ensures Announced(After(s1, a), Link(After(s1, a).hist.wins[i].rank, c), After(s1, a).hist.wins[i].term)
  {
    hide React, Movable;
    assert ServerSound(s, a.r);
    if i < |s.hist.wins| {
      AnnouncedKept(s, s1, a, Link(s.hist.wins[i].rank, c), s.hist.wins[i].term);
    } else {
      OfficeAnnounced(s, s1, a, c);
    }
  }

  /** When the head leaves, what stood between it and a position stays in front. */
  lemma StillInFront(q: seq<Msg>, q': seq<Msg>, d: nat, k: nat, term: nat)
    requires d <= 1 && k + d < |q| && k <= |q'| && q[d..k + d] == q'[..k]
    requires HasAppend(q[..k + d], term) && (d == 1 ==> !IsAppend(q[0], term))
    ensures HasAppend(q'[..k], term)
  {
    var m :| m in q[..k + d] && IsAppend(m, term);
    var i :| 0 <= i < k + d && q[i] == m;
    assert q'[..k][i - d] == m;
  }

  /** Whether the step takes the head of this queue. */
  function Taken(a: Act, l: Link): nat {
    if a.input.Receive? && l == Link(a.input.src, a.r) then 1 else 0
  }

  lemma OldVoteCovered(s: State, s1: State, a: Act, l: Link, j: nat)
    requires Acts(s, s1, a) && ServerLink(s, l)
    requires OfficeVote(Queue(s.net, l), After(s1, a).hist.wins, l.src, j)
    ensures Covered(Queue(s.net, l), s.servers[l.dst], j)
  {
    var m := Queue(s.net, l)[j];
    assert InFlight(s, l, m) && VoteMsgSound(s, l, m);
    if !WonBy(s.hist.wins, m.term, l.src) { NewOffice(s, s1, a, m.term, l.src); }
    assert Shielded(s, l) && OfficeVote(Queue(s.net, l), s.hist.wins, l.src, j);
  }

  /** Position k of the queue held the same message before, perhaps one place further back. */
  ghost predicate Carried(q: seq<Msg>, q': seq<Msg>, d: nat, k: nat) {
    d <= 1 && k + d < |q| && k < |q'| && q'[k] == q[k + d] && q[d..k + d] == q'[..k]
  }

  /** The act is one that its server can make. */
  lemma ActFits(s: State, s1: State, a: Act)
    requires Acts(s, s1, a)
    ensures |s1.servers| == |s.servers| == s.n + 1 && s1.n == s.n && IsServer(s, a.r)
    ensures s1.servers == s.servers && Ready(s1.servers[a.r], a.input)
  {
    hide Elected, Shielded, Announced, Unrivalled, OneWinPerTerm, Movable;
    ActElected(s, s1, a);
  }

  lemma ActElected(s: State, s1: State, a: Act)
    requires Acts(s, s1, a)
    ensures |s.servers| == s.n + 1
  {
    hide React, Movable;
  }

  /** A shield moves forward with the vote it covers, or has done its work. */
  lemma OldVoteShielded(s: State, s1: State, a: Act, l: Link, k: nat)
    requires Acts(s, s1, a) && ServerLink(s, l)
    requires Carried(Queue(s.net, l), Queue(After(s1, a).net, l), Taken(a, l), k)
    requires Taken(a, l) == 1 ==> Queue(s.net, l)[0] == a.input.msg
    requires OfficeVote(Queue(After(s1, a).net, l), After(s1, a).hist.wins, l.src, k)
    ensures Covered(Queue(After(s1, a).net, l), After(s1, a).servers[l.dst], k)
  {
    hide Acts, React, After;
    ActFits(s, s1, a);
    var q, q' := Queue(s.net, l), Queue(After(s1, a).net, l);
    var d := Taken(a, l);
    var t := q[k + d].term;
    OldVoteCovered(s, s1, a, l, k + d);
    if Past(s.servers[l.dst], t) || (l.dst == a.r && a.input.Receive? && IsAppend(a.input.msg, t)) {
      PastAfter(s, s1, a, l.dst, t);
    } else {
      StillInFront(q, q', d, k, t);
    }
  }

  /** A vote granted now by a leader of the term joins the queue behind the announcement. */
  lemma NewVoteShielded(s: State, s1: State, a: Act, l: Link, k: nat)
    requires Acts(s, s1, a) && ServerLink(s, l) && l.src == a.r
    requires OfficeVote(Queue(After(s1, a).net, l), After(s1, a).hist.wins, l.src, k)
    requires Queue(After(s1, a).net, l)[..k] == Queue(s.net, l)
    requires Queue(After(s1, a).net, l)[k] in MsgsTo(React(s.servers[a.r], a.input).sent, l.dst)
    ensures Covered(Queue(After(s1, a).net, l), After(s1, a).servers[l.dst], k)
  {
    var m := Queue(After(s1, a).net, l)[k];
    VoterHadWon(s, s1, a, l, m);
    if Past(s.servers[l.dst], m.term) { PastAfter(s, s1, a, l.dst, m.term); }
  }

  /** Taking office and granting a vote are different steps. */
  lemma VotersStay(s: State, s1: State, a: Act)
    requires Acts(s, s1, a) && a.input.Receive? && a.input.msg.RequestVote?
    ensures After(s1, a).hist.wins == s.hist.wins
  {
    hide Safe, Movable;
  }

  /** So a leader that votes for a rival had won, and announced it. */
  lemma VoterHadWon(s: State, s1: State, a: Act, l: Link, m: Msg)
    requires Acts(s, s1, a) && ServerLink(s, l) && l.src == a.r
    requires m.VoteResponse? && m.granted && m in MsgsTo(React(s.servers[a.r], a.input).sent, l.dst)
    requires WonBy(After(s1, a).hist.wins, m.term, l.src)
    ensures Announced(s, l, m.term)
  {
    MsgsToMember(React(s.servers[a.r], a.input).sent, l.dst, m);
    ReactSends(s.servers[a.r], a.input, Envelope(l.dst, m));
    VotersStay(s, s1, a);
    var i :| 0 <= i < |s.hist.wins| && s.hist.wins[i].term == m.term && s.hist.wins[i].rank == l.src;
    assert Announced(s, Link(s.hist.wins[i].rank, l.dst), m.term);
  }

  lemma SplitQueue(q: seq<Msg>, q': seq<Msg>, added: seq<Msg>, d: nat, k: nat)
    requires d <= 1 && d <= |q| && q' == q[d..] + added && |added| <= 1 && k < |q'|
    ensures if k + d < |q| then q'[k] == q[k + d] && q[d..k + d] == q'[..k]
            else added == [q'[k]] && q'[..k] == q[d..] && k + 1 == |q'|
  {}

  lemma VoteShielded(s: State, s1: State, a: Act, l: Link, k: nat)
    requires Acts(s, s1, a) && ServerLink(s, l)
    requires OfficeVote(Queue(After(s1, a).net, l), After(s1, a).hist.wins, l.src, k)
    ensures Covered(Queue(After(s1, a).net, l), After(s1, a).servers[l.dst], k)
  {
    hide Acts, React, After;
    ActFits(s, s1, a);
    var q, q' := Queue(s.net, l), Queue(After(s1, a).net, l);
    var added := QueueAfter(s, s1, a, l);
    AddedOnce(s, s1, a, l);
    SplitQueue(q, q', added, Taken(a, l), k);
    if k + Taken(a, l) < |q| {
      OldVoteShielded(s, s1, a, l, k);
    } else {
      NewVoteShielded(s, s1, a, l, k);
    }
  }

  lemma AddedOnce(s: State, s1: State, a: Act, l: Link)
    requires Acts(s, s1, a)
    ensures |MsgsTo(React(s.servers[a.r], a.input).sent, l.dst)| <= 1
  {
    assert ServerSound(s, a.r);
    ReactSendsOnce(s.servers[a.r], a.input, l.dst);
  }

  lemma ShieldKept(s: State, s1: State, a: Act, l: Link)
    requires Acts(s, s1, a)
    ensures Shielded(After(s1, a), l)
  {
    var s' := After(s1, a);
    if ServerLink(s', l) {
      forall k: nat | OfficeVote(Queue(s'.net, l), s'.hist.wins, l.src, k)
        ensures Covered(Queue(s'.net, l), s'.servers[l.dst], k)
      {
        VoteShielded(s, s1, a, l, k);
      }
    }
  }

  lemma UnrivalledKept(s: State, s1: State, a: Act, voters: set<nat>, term: nat, r: nat)
    requires Acts(s, s1, a) && Unrivalled(s.hist.wins, voters, term, r)
    requires forall q :: q in voters && q != r ==> HasGrant(s.hist.grants, q, term, r)
    ensures Unrivalled(After(s1, a).hist.wins, voters, term, r)
  {
    forall q | q in voters && q != r && WonBy(After(s1, a).hist.wins, term, q) ensures false {
      NewOffice(s, s1, a, term, q);
    }
  }

  /** A vote that gets counted was not granted by a leader of the term. */
  lemma CountedUnrivalled(s: State, s1: State, a: Act)
    requires Acts(s, s1, a) && CountsVote(s.servers[a.r], a.input)
    ensures !WonBy(s.hist.wins, s.servers[a.r].term, a.input.src)
  {
    var l := Link(a.input.src, a.r);
    assert InFlight(s, l, a.input.msg);
    if WonBy(s.hist.wins, s.servers[a.r].term, a.input.src) {
      assert Shielded(s, l) && OfficeVote(Queue(s.net, l), s.hist.wins, l.src, 0);
    }
  }

  /** The voters counted so far, after the step, hold no office in the term. */
  lemma CampaignUnrivalled(s: State, s1: State, a: Act)
    requires Acts(s, s1, a) && !a.input.Elapsed? && s.servers[a.r].status == Candidate
    requires React(s.servers[a.r], a.input).server.status != Follower
    ensures var s' := After(s1, a); var v := s.servers[a.r];
      Unrivalled(s'.hist.wins, VotersOf(s'.hist, a.r), v.term, a.r)
  {
    hide React, GrantSound, WinSound, NoRepeat, OneVote;
    var v := s.servers[a.r];
    var voters := VotersOf(s.hist, a.r);
    assert ServerSound(s, a.r) && CandidateSound(s, a.r);
    UnrivalledKept(s, s1, a, voters, v.term, a.r);
    if CountsVote(v, a.input) {
      var src := a.input.src;
      var l := Link(src, a.r);
      CountedUnrivalled(s, s1, a);
      assert VoteMsgSound(s, l, a.input.msg) by { assert InFlight(s, l, a.input.msg); }
      UnrivalledKept(s, s1, a, {src}, v.term, a.r);
      assert VotersOf(After(s1, a).hist, a.r) == voters + {src};
    }
  }

  lemma CandidateUnrivalled(s: State, s1: State, a: Act, p: nat)
    requires Acts(s, s1, a) && IsServer(s, p) && After(s1, a).servers[p].status == Candidate
    ensures var s' := After(s1, a);
      Unrivalled(s'.hist.wins, VotersOf(s'.hist, p), s'.servers[p].term, p)
  {
    assert ServerSound(s, a.r) && CandidateSound(s, p);
    ReactVote(s.servers[a.r], a.input);
    if p != a.r {
      UnrivalledKept(s, s1, a, VotersOf(s.hist, p), s.servers[p].term, p);
    } else if a.input.Elapsed? {
      assert VotersOf(After(s1, a).hist, p) == {p};
    } else {
      CampaignUnrivalled(s, s1, a);
    }
  }

  lemma WinUnrivalled(s: State, s1: State, a: Act, i: nat)
    requires Acts(s, s1, a) && i < |After(s1, a).hist.wins|
    ensures var wins := After(s1, a).hist.wins;
      Unrivalled(wins, wins[i].voters, wins[i].term, wins[i].rank)
  {
    var wins := After(s1, a).hist.wins;
    if i < |s.hist.wins| {
      var w := s.hist.wins[i];
      assert WinSound(s, w);
      forall q | q in w.voters && q != w.rank ensures HasGrant(s.hist.grants, q, w.term, w.rank) {
        assert Backed(s.hist.grants, q, w);
      }
      UnrivalledKept(s, s1, a, w.voters, w.term, w.rank);
    } else {
      assert ServerSound(s, a.r);
      ReactVote(s.servers[a.r], a.input);
      if !a.input.Elapsed? { CampaignUnrivalled(s, s1, a); }
    }
  }

  lemma VotersAreServers(s: State, w: Win)
    requires Elected(s) && WinSound(s, w)
    ensures w.voters <= Ranks(s.n)
  {
    forall q | q in w.voters && q != w.rank ensures IsServer(s, q) {
      assert Backed(s.hist.grants, q, w);
      var g :| g in s.hist.grants && g.voter == q && g.term == w.term && g.candidate == w.rank
               && AtLeastAsUpToDate(w.log, g.log);
      assert GrantSound(s, g);
    }
  }

  /** A voter counted in two wins of one term voted for one winner. */
  lemma SharedVoter(s: State, v: Win, w: Win, q: nat)
    requires Elected(s) && WinSound(s, v) && WinSound(s, w) && v.term == w.term
    requires WonBy(s.hist.wins, v.term, v.rank) && WonBy(s.hist.wins, w.term, w.rank)
    requires Unrivalled(s.hist.wins, v.voters, v.term, v.rank)
    requires Unrivalled(s.hist.wins, w.voters, w.term, w.rank)
    requires q in v.voters && q in w.voters
    ensures v.rank == w.rank
  {}

  /** Two wins of one term: their majorities meet, so they are one server's. */
  lemma NoRivals(s: State, v: Win, w: Win)
    requires Elected(s) && WinSound(s, v) && WinSound(s, w) && v.term == w.term
    requires WonBy(s.hist.wins, v.term, v.rank) && WonBy(s.hist.wins, w.term, w.rank)
    requires Unrivalled(s.hist.wins, v.voters, v.term, v.rank)
    requires Unrivalled(s.hist.wins, w.voters, w.term, w.rank)
    ensures v.rank == w.rank
  {
    VotersAreServers(s, v);
    VotersAreServers(s, w);
    var q := Intersect(s.n, v.voters, w.voters);
    SharedVoter(s, v, w, q);
  }

  lemma SameWinner(s: State, s1: State, a: Act, i: nat, j: nat)
    requires Acts(s, s1, a) && i < |After(s1, a).hist.wins| && j < |After(s1, a).hist.wins|
    requires After(s1, a).hist.wins[i].term == After(s1, a).hist.wins[j].term
    ensures After(s1, a).hist.wins[i].rank == After(s1, a).hist.wins[j].rank
  {
    hide WinSound, Unrivalled;
    var s' := After(s1, a);
    var wins := s'.hist.wins;
    ElectedMove(s1, a.r, a.input);
    assert WinSound(s', wins[i]) && WinSound(s', wins[j]);
    WinUnrivalled(s, s1, a, i);
    WinUnrivalled(s, s1, a, j);
    NoRivals(s', wins[i], wins[j]);
  }

  /** Whoever takes office enters a new term or campaigned in its own. */
  lemma OfficeWins(s: State, s1: State, a: Act)
    requires Acts(s, s1, a) && TakesOffice(s.servers[a.r], React(s.servers[a.r], a.input).server)
    ensures var v, w, wins := s.servers[a.r], React(s.servers[a.r], a.input).server, After(s1, a).hist.wins;
      && (w.term > v.term || (w.term == v.term && v.status == Candidate))
      && s.hist.wins < wins && |wins| == |s.hist.wins| + 1
      && wins[|s.hist.wins|].term == w.term && wins[|s.hist.wins|].rank == a.r
  {
    assert ServerSound(s, a.r);
    ReactVote(s.servers[a.r], a.input);
  }

  /** A win of this step in a term already won would be the same server's; but that one
      was not campaigning. */
  lemma NewTermFresh(s: State, s1: State, a: Act, i: nat)
    requires Acts(s, s1, a) && i < |s.hist.wins| && TakesOffice(s.servers[a.r], React(s.servers[a.r], a.input).server)
    ensures s.hist.wins[i].term != React(s.servers[a.r], a.input).server.term
  {
    hide React, After, Movable;
    assert WinSound(s, s.hist.wins[i]);
    OfficeWins(s, s1, a);
    if s.hist.wins[i].term == React(s.servers[a.r], a.input).server.term {
      assert After(s1, a).hist.wins[i] == s.hist.wins[i];
      SameWinner(s, s1, a, i, |s.hist.wins|);
    }
  }

  lemma TermsUnique(s: State, s1: State, a: Act)
    requires Acts(s, s1, a)
    ensures OneWinPerTerm(After(s1, a).hist.wins)
  {
    hide React;
    var wins := After(s1, a).hist.wins;
    forall i, j | 0 <= i < j < |wins| ensures wins[i].term != wins[j].term {
      if j >= |s.hist.wins| { NewTermFresh(s, s1, a, i); }
    }
  }

  lemma SafeActWins(s: State, s1: State, a: Act)
    requires Acts(s, s1, a)
    ensures var s' := After(s1, a);
      && (forall i, c: nat :: 0 <= i < |s'.hist.wins| && ServerLink(s', Link(s'.hist.wins[i].rank, c))
            ==> Announced(s', Link(s'.hist.wins[i].rank, c), s'.hist.wins[i].term))
      && (forall i :: 0 <= i < |s'.hist.wins| ==>
            Unrivalled(s'.hist.wins, s'.hist.wins[i].voters, s'.hist.wins[i].term, s'.hist.wins[i].rank))
  {
    var s' := After(s1, a);
    forall i, c: nat | 0 <= i < |s'.hist.wins| && ServerLink(s', Link(s'.hist.wins[i].rank, c))
      ensures Announced(s', Link(s'.hist.wins[i].rank, c), s'.hist.wins[i].term)
    {
      AllAnnounced(s, s1, a, i, c);
    }
    forall i | 0 <= i < |s'.hist.wins|
      ensures Unrivalled(s'.hist.wins, s'.hist.wins[i].voters, s'.hist.wins[i].term, s'.hist.wins[i].rank)
    {
      WinUnrivalled(s, s1, a, i);
    }
  }

  lemma SafeActCandidates(s: State, s1: State, a: Act)
    requires Acts(s, s1, a)
    ensures var s' := After(s1, a);
      forall p: nat :: IsServer(s', p) && s'.servers[p].status == Candidate
        ==> Unrivalled(s'.hist.wins, VotersOf(s'.hist, p), s'.servers[p].term, p)
  {
    var s' := After(s1, a);
    forall p: nat | IsServer(s', p) && s'.servers[p].status == Candidate
      ensures Unrivalled(s'.hist.wins, VotersOf(s'.hist, p), s'.servers[p].term, p)
    {
      CandidateUnrivalled(s, s1, a, p);
    }
  }

  lemma StaysAlive(v: Server, input: Input)
    requires Ready(v, input) && v.alive && !input.Crash?
    ensures React(v, input).server.alive
  {}

  lemma SafeAct(s: State, s1: State, a: Act)
    requires Acts(s, s1, a)
    ensures Safe(After(s1, a))
  {
    ElectedMove(s1, a.r, a.input);
    SafeActWins(s, s1, a);
    TermsUnique(s, s1, a);
    SafeActCandidates(s, s1, a);
    StaysAlive(s.servers[a.r], a.input);
    forall l ensures Shielded(After(s1, a), l) { ShieldKept(s, s1, a, l); }
  }

  /** A client's turn touches no queue between servers. */
  lemma SafeIteration(s: State, c: nat, from: Source, resend: Option<nat>)
    requires Safe(s) && Enabled(s, Iteration(c, from, resend)) && FifoStep(Iteration(c, from, resend))
    ensures Safe(Next(s, Iteration(c, from, resend)))
  {
    var e := Iteration(c, from, resend);
    var s' := Next(s, e);
    ElectedNext(s, e);
    forall l | ServerLink(s, l) ensures Queue(s'.net, l) == Queue(s.net, l) { QueueBeside(s, c, from, resend, l); }
    SafeWithQueues(s, s');
  }

  lemma QueueBeside(s: State, c: nat, from: Source, resend: Option<nat>, l: Link)
    requires Enabled(s, Iteration(c, from, resend)) && l.src != c && l.dst != c
    ensures Queue(Next(s, Iteration(c, from, resend)).net, l) == Queue(s.net, l)
  {
    if from.FromServer? {
      var l0 := Link(from.src, c);
      var s1 := Remove(s, l0, from.i);
      TakeQueue(s.net, l0, from.i, l);
      PostQueue(s1.net, c, Iterate(s1.clients[c], Answer(Queue(s.net, l0)[from.i]), resend).sent, l);
    } else {
      PostQueue(s.net, c, Iterate(s.clients[c], if from.Silence? then Nothing else Begin, resend).sent, l);
    }
  }

  lemma SafeWithQueues(s: State, s': State)
    requires Safe(s) && Elected(s') && s'.n == s.n && s'.servers == s.servers && s'.hist == s.hist
    requires forall l :: ServerLink(s, l) ==> Queue(s'.net, l) == Queue(s.net, l)
    ensures Safe(s')
  {
    forall i, d: nat | 0 <= i < |s'.hist.wins| && ServerLink(s', Link(s'.hist.wins[i].rank, d))
      ensures Announced(s', Link(s'.hist.wins[i].rank, d), s'.hist.wins[i].term)
    {
      assert Announced(s, Link(s.hist.wins[i].rank, d), s.hist.wins[i].term);
    }
    forall l ensures Shielded(s', l) { assert Shielded(s, l); }
  }

  lemma SafeNext(s: State, e: Event)
    requires Safe(s) && Enabled(s, e) && FifoStep(e) && LosslessStep(e) && TimelyStep(s, e)
    ensures Safe(Next(s, e))
  {
    hide Announced, Shielded, Unrivalled, OneWinPerTerm;
    match e
    case Deliver(src, dst, i) =>
      var l := Link(src, dst);
      var m := Queue(s.net, l)[0];
      assert InFlight(s, l, m);
      ElectedRemove(s, l, 0);
      SafeAct(s, Remove(s, l, 0), Act(dst, Receive(src, m)));
    case Local(r, input) => SafeAct(s, s, Act(r, input));
    case Iteration(c, from, resend) => SafeIteration(s, c, from, resend);
  }

  lemma SafeAtFirst(s: State)
    requires Init(s)
    ensures Safe(s)
  {}

  lemma {:induction false} SafeRun(run: Run, k: nat)
    requires IsRun(run) && Fifo(run) && Lossless(run) && Timely(run) && k < |run.states|
    ensures Safe(run.states[k])
  {
    hide Safe, Init, Enabled, Next;
    if k > 0 {
      SafeRun(run, k - 1);
      assert FifoStep(run.events[k - 1]) && LosslessStep(run.events[k - 1]);
      SafeNext(run.states[k - 1], run.events[k - 1]);
    } else {
      SafeAtFirst(run.states[0]);
    }
  }

  predicate LeadsIn(s: State, r: nat, term: nat) {
    IsServer(s, r) && r < |s.servers| && s.servers[r].status == Leader && s.servers[r].term == term
  }

  /** Election safety: no term of the run has two leaderships, hence not two leaders. */
  lemma AtMostOneLeader(run: Run, k: nat)
    requires IsRun(run) && Fifo(run) && Lossless(run) && Timely(run) && k < |run.states|
    ensures forall i, j :: 0 <= i < j < |run.states[k].hist.wins| ==>
              run.states[k].hist.wins[i].term != run.states[k].hist.wins[j].term
    ensures OneLeaderPerTerm(run.states[k].hist)
    ensures forall a, b, t :: LeadsIn(run.states[k], a, t) && LeadsIn(run.states[k], b, t) ==> a == b
  {
    SafeRun(run, k);
    var s := run.states[k];
    forall a, b, t | LeadsIn(s, a, t) && LeadsIn(s, b, t) ensures a == b {
      LeadersHaveWon(run, k, a);
      LeadersHaveWon(run, k, b);
    }
  }
}
