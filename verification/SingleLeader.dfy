/** Runs with one leadership, over ordered channels that may lose messages. */
module SingleLeader {
  import opened LogEntries
  import opened Messages
  import opened RaftServer
  import opened RaftClient
  import opened Cluster
  import opened AnyNetwork
  import opened Quorums
  import opened CommitRule

  // ----- one reaction

  /** An AppendEntries was accepted. */
  predicate Accepts(v: Server, input: Input, w: Server) {
    && input.Receive? && input.msg.AppendEntries?
    && input.msg.prev < |v.log| && TermAt(v.log, input.msg.prev) == input.msg.prevTerm
    && w.log == Splice(v.log, input.msg.prev, input.msg.entries)
    && w.commit == (if input.msg.leaderCommit <= v.commit then v.commit
                    else if input.msg.leaderCommit < |w.log| then input.msg.leaderCommit else |w.log| - 1)
  }

  predicate LogAndCommitStep(v: Server, input: Input, w: Server) {
    if TakesRequest(v, input) then
      var e := EntryFor(v.term, input.msg.request);
      w.log == (if Has(v.log, e) then v.log else v.log + [e]) && w.commit == v.commit
    else if input.Work? && v.status == Leader && Indexed(v) then
      w.log == v.log && w.commit == AdvanceCommit(v.commit, |v.log|, v.matched, v.peers)
    else Accepts(v, input, w) || (w.log == v.log && w.commit == v.commit)
  }

  /** One follower's slots were rewritten from its response. */
  predicate SlotStep(v: Server, m: Msg, w: Server) {
    && m.AppendResponse? && m.follower < |v.next| == |v.matched| == |w.next| == |w.matched|
    && (forall q :: 0 <= q < |v.next| && q != m.follower ==>
          w.next[q] == v.next[q] && w.matched[q] == v.matched[q])
    && (if m.success
        then w.matched[m.follower] == m.lastIndex && w.next[m.follower] == m.lastIndex + 1
        else w.matched[m.follower] == v.matched[m.follower] && w.next[m.follower] <= v.next[m.follower])
  }

  predicate IndexStep(v: Server, input: Input, w: Server) {
    if TakesOffice(v, w) then
      && Indexed(w)
      && forall q :: 0 <= q <= w.peers ==> w.next[q] == |w.log| && w.matched[q] == -1
    else
      (w.next == v.next && w.matched == v.matched) || (input.Receive? && SlotStep(v, input.msg, w))
  }

  predicate AppliedStep(v: Server, input: Input, w: Server) {
    w.applied == if input.ApplyNext? && v.commit > v.applied then v.applied + 1 else v.applied
  }

  predicate OfficeStep(v: Server, input: Input, w: Server) {
    && (TakesOffice(v, w) ==> w.log == v.log && w.commit == v.commit && !input.ApplyNext?)
    && (v.status == Leader && !input.Receive? ==> w.status == Leader)
  }

  /** The entry a leader is about to apply, if the rule fires. */
  predicate AppliesAsLeader(v: Server, input: Input) {
    input.ApplyNext? && v.status == Leader && v.commit > v.applied
  }

  predicate ReplyStep(v: Server, input: Input, o: Outcome) {
    && (AppliesAsLeader(v, input) && v.applied + 1 < |v.log| ==> NewReplies(o.sent) == [v.log[v.applied + 1].client])
    && (!AppliesAsLeader(v, input) ==> NewReplies(o.sent) == [])
  }

  predicate MailStep(v: Server, input: Input, w: Server, e: Envelope) {
    && (e.msg.AppendEntries? ==> AppendMail(v, w, e.dst, e.msg))
    && (e.msg.AppendResponse? ==>
          && input.Receive? && input.msg.AppendEntries? && e.dst == input.msg.leader
          && e.msg.lastIndex == LastIndex(w.log))
    && (e.msg.ClientResponse? && e.msg.success ==> v.status == Leader)
  }

  predicate AppendMail(v: Server, w: Server, q: nat, m: Msg)
    requires m.AppendEntries?
  {
    && w.status == Leader && w.log == v.log && Indexed(w) && q != w.rank && 1 <= q <= w.peers
    && m.prev == PrevIndex(w, q) && m.leaderCommit <= w.commit
    && (m.prev < |w.log| ==> m.prevTerm == TermAt(w.log, m.prev))
    && (m.entries != [] ==> m.prev + 1 < |w.log| && m.entries == w.log[m.prev + 1..])
  }

  /** What single-leadership safety needs to know of a reaction. */
  ghost predicate LedStep(v: Server, input: Input, o: Outcome) {
    var w := o.server;
    && w.rank == v.rank && w.peers == v.peers
    && LogAndCommitStep(v, input, w) && IndexStep(v, input, w) && AppliedStep(v, input, w)
    && OfficeStep(v, input, w) && ReplyStep(v, input, o)
    && (forall e :: e in o.sent ==> MailStep(v, input, w, e))
  }

  lemma LogAndCommit(v: Server, input: Input)
    requires Ready(v, input)
    ensures LogAndCommitStep(v, input, React(v, input).server)
  {
    hide Fanout, Splice, AdvanceCommit, UpToDate, Has;
  }

  lemma OfficeOf(v: Server, input: Input)
    requires Ready(v, input)
    ensures OfficeStep(v, input, React(v, input).server) && AppliedStep(v, input, React(v, input).server)
  {
    hide Fanout, Splice, AdvanceCommit, UpToDate, Has;
  }

  lemma SlotOf(v: Server, src: nat, m: Msg)
    requires Ready(v, Receive(src, m)) && m.AppendResponse? && v.alive
    ensures SlotStep(v, m, React(v, Receive(src, m)).server) && !TakesOffice(v, React(v, Receive(src, m)).server)
  {}

  lemma IndexOfRpc(v: Server, src: nat, m: Msg)
    requires Ready(v, Receive(src, m)) && m.IsRpc() && !m.AppendResponse?
    ensures IndexStep(v, Receive(src, m), OnRpc(v, m).server)
  {
    hide Fanout, Splice, UpToDate, SlotStep;
  }

  lemma IndexOf(v: Server, input: Input)
    requires Ready(v, input)
    ensures IndexStep(v, input, React(v, input).server)
  {
    hide OnRpc, Fanout, AdvanceCommit, Has, SlotStep;
    if input.Receive? && input.msg.AppendResponse? {
      if v.alive { SlotOf(v, input.src, input.msg); } else { CrashedDrops(v, input.msg); }
    } else if input.Receive? && input.msg.IsRpc() {
      IndexOfRpc(v, input.src, input.msg);
    }
  }

  lemma CrashedDrops(v: Server, m: Msg)
    requires m.IsRpc() && Readable(v, m) && !v.alive
    ensures OnRpc(v, m) == Outcome(v, [])
  {}

  lemma Replies(v: Server, input: Input)
    requires Ready(v, input)
    ensures ReplyStep(v, input, React(v, input))
  {
    var sent := React(v, input).sent;
    if !AppliesAsLeader(v, input) && sent != [] { ReactSends(v, input, sent[0]); }
  }

  lemma MailOf(v: Server, input: Input, e: Envelope)
    requires Ready(v, input) && e in React(v, input).sent
    ensures MailStep(v, input, React(v, input).server, e)
  {
    ReactSends(v, input, e);
    OfficeOf(v, input);
  }

  lemma ReactLedStep(v: Server, input: Input)
    requires Ready(v, input) && |v.next| == |v.matched|
    requires v.status == Leader ==> Indexed(v)
    requires DistinctKeys(v.log)
    ensures LedStep(v, input, React(v, input))
  {
    ReactKeeps(v, input);
    LogAndCommit(v, input);
    OfficeOf(v, input);
    IndexOf(v, input);
    Replies(v, input);
    forall e | e in React(v, input).sent ensures MailStep(v, input, React(v, input).server, e) { MailOf(v, input, e); }
  }

  // ----- the invariant

  /** Before the first leadership nothing has been logged. */
  predicate BlankServer(v: Server) {
    v.log == [] && v.commit == v.applied == -1 && v.status != Leader
  }

  predicate BlankMsg(m: Msg) {
    !m.AppendEntries? && !m.AppendResponse? && !(m.ClientResponse? && m.success)
  }

  ghost predicate Blank(s: State) {
    && (forall r: nat :: IsServer(s, r) && r < |s.servers| ==> BlankServer(s.servers[r]))
    && (forall l, m :: InFlight(s, l, m) ==> BlankMsg(m))
    && s.hist.applied == [] && s.hist.replies == []
  }

  /** A server's log is a prefix of the leader's, and its indices are in order. */
  predicate Follows(s: State, ld: nat, r: nat)
    requires ld < |s.servers| && r < |s.servers|
  {
    var v, lead := s.servers[r], s.servers[ld];
    && v.log <= lead.log
    && v.applied <= v.commit < |v.log| && v.commit <= lead.commit
    && (v.status == Leader ==> r == ld)
  }

  predicate Carries(m: Msg) {
    m.AppendEntries? && m.entries != []
  }

  ghost predicate MsgLed(s: State, ld: nat, l: Link, m: Msg)
    requires ld < |s.servers|
  {
    && (m.AppendEntries? ==>
          && l.src == ld && End(m) <= |s.servers[ld].log| && m.leaderCommit <= s.servers[ld].commit
          && m.entries == s.servers[ld].log[m.prev + 1..End(m)]
          && m.prevTerm == TermAt(s.servers[ld].log, m.prev))
    && (m.AppendResponse? ==>
          l.dst == ld && (m.success && l.src < |s.servers| ==> m.lastIndex < |s.servers[l.src].log|))
    && (m.ClientResponse? && m.success ==> l.src == ld)
  }

  /** The snapshots under way to a follower never end before its log does, nor before the
      ones ahead of them. */
  ghost predicate Ordered(q: seq<Msg>, size: nat) {
    && (forall i :: 0 <= i < |q| && Carries(q[i]) ==> size <= End(q[i]))
    && (forall i, j :: 0 <= i < j < |q| && Carries(q[i]) && Carries(q[j]) ==> End(q[i]) <= End(q[j]))
  }

  /** `match_index` never over-claims, and `next_index` stays within the leader's log. */
  predicate Indices(s: State, ld: nat)
    requires ld < |s.servers| && |s.servers| == s.n + 1
  {
    var lead := s.servers[ld];
    && Indexed(lead) && lead.peers == s.n && lead.matched[ld] == -1
    && forall f :: 1 <= f <= s.n && f != ld ==>
         lead.next[f] <= |lead.log| && lead.matched[f] < |s.servers[f].log|
  }

  ghost function Holders(s: State, ld: nat, i: nat): set<nat>
    requires |s.servers| == s.n + 1 && ld < |s.servers| && i < |s.servers[ld].log|
  {
    set r | r in Ranks(s.n) && i < |s.servers[r].log| && s.servers[r].log[i] == s.servers[ld].log[i]
  }

  ghost predicate HeldByMajority(s: State, ld: nat, i: nat)
    requires |s.servers| == s.n + 1 && ld < |s.servers|
  {
    i < |s.servers[ld].log| && 2 * |Holders(s, ld, i)| > s.n
  }

  /** The i-th success reply reports the i-th entry that the leader applied as leader. */
  predicate Answered(h: History, lead: Server) {
    && |h.replies| == |h.applied|
    && (forall i :: 0 <= i < |h.applied| ==>
          && h.applied[i].server == lead.rank && h.applied[i].index <= lead.applied
          && h.applied[i].index < |lead.log|
          && h.replies[i] == lead.log[h.applied[i].index].client)
    && (forall i, j :: 0 <= i < j < |h.applied| ==> h.applied[i].index < h.applied[j].index)
  }

  ghost predicate Led(s: State, ld: nat)
    requires |s.servers| == s.n + 1 && IsServer(s, ld)
  {
    && (forall r: nat :: IsServer(s, r) ==> Follows(s, ld, r))
    && (forall l, m :: InFlight(s, l, m) ==> MsgLed(s, ld, l, m))
    && (forall f: nat :: IsServer(s, f) && f != ld ==> Ordered(Queue(s.net, Link(ld, f)), |s.servers[f].log|))
    && Indices(s, ld)
    && (s.servers[ld].commit >= 0 ==> HeldByMajority(s, ld, s.servers[ld].commit))
    && Answered(s.hist, s.servers[ld])
  }

  ghost predicate Single(s: State) {
    && Sound(s)
    && (if s.hist.wins == [] then Blank(s)
        else |s.hist.wins| == 1 && IsServer(s, s.hist.wins[0].rank) && Led(s, s.hist.wins[0].rank))
  }

  // ----- taking office

  /** A server of a blank state makes a step on a blank message. */
  ghost predicate BlankStep(s: State, r: nat, input: Input, o: Outcome) {
    && Sound(s) && Blank(s) && IsServer(s, r) && LedStep(s.servers[r], input, o)
    && (input.Receive? ==> BlankMsg(input.msg))
  }

  /** Nothing is logged or answered, leader or not. */
  lemma BlankAfter(s: State, r: nat, input: Input, o: Outcome)
    requires BlankStep(s, r, input, o)
    ensures var w := o.server;
      w.log == [] && w.commit == w.applied == -1 && NewReplies(o.sent) == [] && NewApplied(s.servers[r], w) == []
  {
    assert ServerSound(s, r) && BlankServer(s.servers[r]);
  }

  /** The heartbeats of a leader with an empty log. */
  lemma FirstHeartbeat(v: Server, w: Server, q: nat, m: Msg)
    requires m.AppendEntries? && AppendMail(v, w, q, m) && w.log == [] && w.next[q] == 0
    ensures m.entries == [] && End(m) == 0 && m.prev == m.prevTerm == -1
  {}

  lemma OfficeMsgs(s: State, r: nat, input: Input, o: Outcome, l: Link, m: Msg)
    requires BlankStep(s, r, input, o) && TakesOffice(s.servers[r], o.server)
    requires InFlight(Settle(s, r, input, o), l, m)
    ensures MsgLed(Settle(s, r, input, o), r, l, m) && !Carries(m)
  {
    BlankAfter(s, r, input, o);
    PostMember(s.net, r, o.sent, l, m);
    if InFlight(s, l, m) {
      assert BlankMsg(m);
    } else {
      assert MailStep(s.servers[r], input, o.server, Envelope(l.dst, m));
      if m.AppendEntries? { FirstHeartbeat(s.servers[r], o.server, l.dst, m); }
      assert BlankServer(s.servers[r]);
    }
  }

  lemma OfficeIndices(s: State, r: nat, input: Input, o: Outcome)
    requires BlankStep(s, r, input, o) && TakesOffice(s.servers[r], o.server)
    ensures Indices(Settle(s, r, input, o), r)
  {
    assert ServerSound(s, r) && BlankServer(s.servers[r]);
    BlankAfter(s, r, input, o);
  }

  lemma OfficeSettle(s: State, r: nat, input: Input, o: Outcome)
    requires BlankStep(s, r, input, o) && TakesOffice(s.servers[r], o.server)
    ensures Led(Settle(s, r, input, o), r)
  {
    var s' := Settle(s, r, input, o);
    BlankAfter(s, r, input, o);
    OfficeIndices(s, r, input, o);
    forall l, m | InFlight(s', l, m) ensures MsgLed(s', r, l, m) { OfficeMsgs(s, r, input, o, l, m); }
    forall f: nat | IsServer(s', f) && f != r ensures Ordered(Queue(s'.net, Link(r, f)), |s'.servers[f].log|) {
      var q := Queue(s'.net, Link(r, f));
      forall i | 0 <= i < |q| ensures !Carries(q[i]) {
        assert InFlight(s', Link(r, f), q[i]);
        OfficeMsgs(s, r, input, o, Link(r, f), q[i]);
      }
    }
    forall q: nat | IsServer(s', q) ensures Follows(s', r, q) { assert BlankServer(s.servers[q]); }
  }

  /** Nothing happens to the logs before there is a leader. */
  lemma BlankSettle(s: State, r: nat, input: Input, o: Outcome)
    requires BlankStep(s, r, input, o) && o.server.status != Leader
    ensures Blank(Settle(s, r, input, o))
  {
    var s' := Settle(s, r, input, o);
    BlankAfter(s, r, input, o);
    assert BlankServer(s.servers[r]);
    forall l, m | InFlight(s', l, m) ensures BlankMsg(m) {
      PostMember(s.net, r, o.sent, l, m);
      if !InFlight(s, l, m) { assert MailStep(s.servers[r], input, o.server, Envelope(l.dst, m)); }
    }
  }

  // ----- steps under the one leader

  /** A server makes a step in a state that `ld` led or leads, on a sound message. */
  ghost predicate LedBy(s: State, ld: nat, r: nat, input: Input, o: Outcome) {
    && Sound(s) && IsServer(s, ld) && Led(s, ld) && IsServer(s, r)
    && LedStep(s.servers[r], input, o) && !TakesOffice(s.servers[r], o.server)
    && Kept(s.servers[r], o.server)
    && (input.Receive? ==> MsgSound(s, Link(input.src, r), input.msg) && MsgLed(s, ld, Link(input.src, r), input.msg))
    && (input.Receive? && Carries(input.msg) ==>
          AheadOf(input.msg, Queue(s.net, Link(input.src, r)), |s.servers[r].log|))
  }

  /** What is known of the two servers and the message. */
  lemma LedFacts(s: State, ld: nat, r: nat, input: Input, o: Outcome)
    requires LedBy(s, ld, r, input, o)
    ensures |s.servers| == s.n + 1 && IsServer(s, ld) && IsServer(s, r)
    ensures ServerSound(s, r) && ServerSound(s, ld) && Follows(s, ld, r) && Follows(s, ld, ld) && Indices(s, ld)
    ensures LedStep(s.servers[r], input, o) && !TakesOffice(s.servers[r], o.server) && Kept(s.servers[r], o.server)
    ensures input.Receive? ==>
              MsgSound(s, Link(input.src, r), input.msg) && MsgLed(s, ld, Link(input.src, r), input.msg)
    ensures input.Receive? && Carries(input.msg) ==>
              AheadOf(input.msg, Queue(s.net, Link(input.src, r)), |s.servers[r].log|)
  {
    hide LedStep, MsgSound, MsgLed, AheadOf, Indices, Kept, ServerSound, Follows, Ordered, HeldByMajority, Answered;
  }

  /** The message was at the head of an ordered queue. */
  ghost predicate AheadOf(m: Msg, q: seq<Msg>, size: nat)
    requires m.AppendEntries?
  {
    size <= End(m) && forall i :: 0 <= i < |q| && Carries(q[i]) ==> End(m) <= End(q[i])
  }

  /** A follower that accepts an AppendEntries holds a prefix of the leader's log, no
      shorter than before, and shorter than no snapshot still under way. */
  lemma AcceptGrows(log: Log, lead: Log, m: Msg)
    requires m.AppendEntries? && log <= lead && DistinctKeys(lead) && m.prev < |log|
    requires End(m) <= |lead| && m.entries == lead[m.prev + 1..End(m)] && m.prevTerm == TermAt(lead, m.prev)
    requires Carries(m) ==> |log| <= End(m)
    ensures Splice(log, m.prev, m.entries) == if Carries(m) then lead[..End(m)] else log
    ensures log <= Splice(log, m.prev, m.entries) <= lead
  {
    if Carries(m) {
      forall i | 0 <= i < |log| && lead[i].term == log[i].term ensures lead[..i + 1] == log[..i + 1] {
        assert lead[..|log|] == log;
        assert lead[..i + 1] == lead[..|log|][..i + 1];
      }
      SpliceIsPrefixOf(log, lead, m.prev, End(m));
    }
  }

  /** A message of the leader that a follower accepts. */
  predicate FromLead(v: Server, lead: Server, m: Msg) {
    && m.AppendEntries? && End(m) <= |lead.log| && m.leaderCommit <= lead.commit
    && m.entries == lead.log[m.prev + 1..End(m)] && m.prevTerm == TermAt(lead.log, m.prev)
    && (Carries(m) ==> |v.log| <= End(m))
  }

  lemma AcceptMoves(v: Server, lead: Server, input: Input, w: Server)
    requires v.log <= lead.log && v.commit < |v.log| && v.commit <= lead.commit && DistinctKeys(lead.log)
    requires Accepts(v, input, w) && FromLead(v, lead, input.msg)
    ensures v.log <= w.log <= lead.log && v.commit <= w.commit < |w.log| && w.commit <= lead.commit
    ensures if Carries(input.msg) then |w.log| == End(input.msg) else w.log == v.log
  {
    AcceptGrows(v.log, lead.log, input.msg);
  }

  /** What an accepted message is when one server leads. */
  lemma AcceptsFromLead(s: State, ld: nat, r: nat, input: Input, o: Outcome)
    requires LedBy(s, ld, r, input, o) && Accepts(s.servers[r], input, o.server)
    ensures r != ld && FromLead(s.servers[r], s.servers[ld], input.msg)
  {
    hide LedBy, LedStep, Owned, Follows, Indices, ServerSound, Kept;
    LedFacts(s, ld, r, input, o);
  }

  /** How the acting server's log and commit index move. */
  lemma LogMoves(s: State, ld: nat, r: nat, input: Input, o: Outcome)
    requires LedBy(s, ld, r, input, o)
    ensures var v, w := s.servers[r], o.server;
      && v.log <= w.log && v.commit <= w.commit < |w.log|
      && (r != ld ==> w.log <= s.servers[ld].log && w.commit <= s.servers[ld].commit)
      && (r != ld && input.Receive? && Carries(input.msg) && Accepts(v, input, w) ==> |w.log| == End(input.msg))
      && (r != ld && w.log != v.log ==> input.Receive? && Carries(input.msg) && Accepts(v, input, w))
  {
    hide LedBy, MsgSound, MsgLed, AheadOf, IndexStep, ReplyStep, MailStep, Owned, Kept;
    LedFacts(s, ld, r, input, o);
    var v, w := s.servers[r], o.server;
    if Accepts(v, input, w) {
      AcceptsFromLead(s, ld, r, input, o);
      AcceptMoves(v, s.servers[ld], input, w);
    } else if input.Work? && v.status == Leader {
      CommitIsMaximal(v.commit, |v.log|, v.matched, v.peers, ld);
    }
  }

  lemma MailIsLed(s: State, ld: nat, r: nat, input: Input, o: Outcome, l: Link, m: Msg)
    requires LedBy(s, ld, r, input, o) && InFlight(s, l, m)
    ensures ld < |s.servers| && MsgLed(s, ld, l, m)
  {
    hide Follows, LedStep, MsgSound, MsgLed, AheadOf, Indices, Kept, ServerSound, Ordered, HeldByMajority, Answered;
  }

  lemma QueueIsOrdered(s: State, ld: nat, r: nat, input: Input, o: Outcome, f: nat)
    requires LedBy(s, ld, r, input, o) && IsServer(s, f) && f != ld
    ensures f < |s.servers| && Ordered(Queue(s.net, Link(ld, f)), |s.servers[f].log|)
  {
    hide Follows, LedStep, MsgSound, MsgLed, AheadOf, Indices, Kept, ServerSound, Ordered, HeldByMajority, Answered;
  }

  lemma ServerFollows(s: State, ld: nat, r: nat, input: Input, o: Outcome, q: nat)
    requires LedBy(s, ld, r, input, o) && IsServer(s, q)
    ensures q < |s.servers| && ld < |s.servers| && Follows(s, ld, q)
  {
    hide Follows, LedStep, MsgSound, MsgLed, AheadOf, Indices, Kept, ServerSound, Ordered, HeldByMajority, Answered;
  }

  lemma FollowsSettle(s: State, ld: nat, r: nat, input: Input, o: Outcome, q: nat)
    requires LedBy(s, ld, r, input, o) && IsServer(s, q)
    ensures Follows(Settle(s, r, input, o), ld, q)
  {
    hide LedBy, LogAndCommitStep, IndexStep, ReplyStep, MailStep, MsgSound, MsgLed, AheadOf, Kept, ServerSound;
    ServerFollows(s, ld, r, input, o, q);
    LedFacts(s, ld, r, input, o);
    LogMoves(s, ld, r, input, o);
  }

  lemma IndicesSettle(s: State, ld: nat, r: nat, input: Input, o: Outcome)
    requires LedBy(s, ld, r, input, o)
    ensures Indices(Settle(s, r, input, o), ld)
  {
    hide LedBy, LogAndCommitStep, ReplyStep, MailStep, AheadOf, Owned;
    LedFacts(s, ld, r, input, o);
    LogMoves(s, ld, r, input, o);
    forall f: nat | IsServer(s, f) ensures Follows(s, ld, f) { ServerFollows(s, ld, r, input, o, f); }
  }

  /** Mail of the leader quotes its log; mail to the leader reports the sender's. */
  lemma NewMsgLed(s: State, ld: nat, r: nat, input: Input, o: Outcome, e: Envelope)
    requires LedBy(s, ld, r, input, o) && e in o.sent
    ensures MsgLed(Settle(s, r, input, o), ld, Link(r, e.dst), e.msg)
  {
    hide LedBy, LogAndCommitStep, IndexStep, ReplyStep, AheadOf, Owned, Kept;
    LedFacts(s, ld, r, input, o);
    assert MailStep(s.servers[r], input, o.server, e);
    if e.msg.AppendEntries? {
      IndicesSettle(s, ld, r, input, o);
      LeaderQuotes(o.server, e.dst, e.msg);
    }
  }

  lemma LeaderQuotes(w: Server, q: nat, m: Msg)
    requires m.AppendEntries? && AppendMail(w, w, q, m) && w.next[q] <= |w.log|
    ensures End(m) <= |w.log| && m.entries == w.log[m.prev + 1..End(m)] && m.prevTerm == TermAt(w.log, m.prev)
    ensures Carries(m) ==> End(m) == |w.log|
  {}

  lemma OldMsgLed(s: State, s': State, ld: nat, l: Link, m: Msg)
    requires ld < |s.servers| == |s'.servers| && MsgLed(s, ld, l, m)
    requires s.servers[ld].log <= s'.servers[ld].log && s.servers[ld].commit <= s'.servers[ld].commit
    requires l.src < |s.servers| ==> |s.servers[l.src].log| <= |s'.servers[l.src].log|
    ensures MsgLed(s', ld, l, m)
  {
    if m.AppendEntries? {
      var a, b := s.servers[ld].log, s'.servers[ld].log;
      assert a <= b && b[m.prev + 1..End(m)] == a[m.prev + 1..End(m)];
    }
  }

  lemma MsgsSettle(s: State, ld: nat, r: nat, input: Input, o: Outcome, l: Link, m: Msg)
    requires LedBy(s, ld, r, input, o) && InFlight(Settle(s, r, input, o), l, m)
    ensures MsgLed(Settle(s, r, input, o), ld, l, m)
  {
    PostMember(s.net, r, o.sent, l, m);
    if InFlight(s, l, m) {
      LogMoves(s, ld, r, input, o);
      OldMsgLed(s, Settle(s, r, input, o), ld, l, m);
    } else {
      NewMsgLed(s, ld, r, input, o, Envelope(l.dst, m));
    }
  }

  lemma OrderedAppend(q: seq<Msg>, added: seq<Msg>, size: nat, end: nat)
    requires Ordered(q, size) && size <= end
    requires forall m :: m in q && Carries(m) ==> End(m) <= end
    requires forall m :: m in added && Carries(m) ==> End(m) == end
    ensures Ordered(q + added, size)
  {
    var all := q + added;
    assert forall i :: |q| <= i < |all| ==> all[i] in added;
    assert forall i :: 0 <= i < |q| ==> all[i] == q[i] && q[i] in q;
  }

  lemma OrderedFrom(q: seq<Msg>, size: nat, end: nat)
    requires Ordered(q, size) && forall i :: 0 <= i < |q| && Carries(q[i]) ==> end <= End(q[i])
    ensures Ordered(q, end)
  {}

  /** A snapshot that the leader sends now ends where its log does. */
  lemma NewSnapshot(s: State, ld: nat, input: Input, o: Outcome, f: nat, m: Msg)
    requires LedBy(s, ld, ld, input, o) && m in MsgsTo(o.sent, f) && Carries(m)
    ensures End(m) == |o.server.log|
  {
    hide LedBy, LogAndCommitStep, IndexStep, ReplyStep, MsgSound, MsgLed, AheadOf, Owned, Kept;
    LedFacts(s, ld, ld, input, o);
    MsgsToMember(o.sent, f, m);
    assert MailStep(s.servers[ld], input, o.server, Envelope(f, m));
    IndicesSettle(s, ld, ld, input, o);
    LeaderQuotes(o.server, f, m);
  }

  /** The leader's mail joins its queues behind everything it sent before. */
  lemma LeaderQueue(s: State, ld: nat, input: Input, o: Outcome, f: nat)
    requires LedBy(s, ld, ld, input, o) && IsServer(s, f) && f != ld
    ensures Ordered(Queue(s.net, Link(ld, f)) + MsgsTo(o.sent, f), |s.servers[f].log|)
  {
    hide LedBy, LedStep, MsgSound, AheadOf, Owned, Kept, Ordered, ServerSound, Indices;
    LedFacts(s, ld, ld, input, o);
    LogMoves(s, ld, ld, input, o);
    ServerFollows(s, ld, ld, input, o, f);
    QueueIsOrdered(s, ld, ld, input, o, f);
    var l := Link(ld, f);
    var q, added := Queue(s.net, l), MsgsTo(o.sent, f);
    forall m | m in q && Carries(m) ensures End(m) <= |o.server.log| { MailIsLed(s, ld, ld, input, o, l, m); }
    forall m | m in added && Carries(m) ensures End(m) == |o.server.log| { NewSnapshot(s, ld, input, o, f, m); }
    OrderedAppend(q, added, |s.servers[f].log|, |o.server.log|);
  }

  /** A follower's log grows only to the end of the snapshot it takes. */
  lemma FollowerQueue(s: State, ld: nat, r: nat, input: Input, o: Outcome, f: nat)
    requires LedBy(s, ld, r, input, o) && IsServer(s, f) && f != ld && r != ld
    ensures f < |Settle(s, r, input, o).servers|
    ensures Ordered(Queue(Settle(s, r, input, o).net, Link(ld, f)), |Settle(s, r, input, o).servers[f].log|)
  {
    hide LedBy, LedStep, MsgSound, Kept, Ordered, ServerSound, Indices;
    LedFacts(s, ld, r, input, o);
    LogMoves(s, ld, r, input, o);
    QueueIsOrdered(s, ld, r, input, o, f);
    PostQueue(s.net, r, o.sent, Link(ld, f));
    assert Queue(s.net, Link(ld, f)) + [] == Queue(s.net, Link(ld, f));
    if f == r && o.server.log != s.servers[r].log {
      assert input.src == ld;
      OrderedFrom(Queue(s.net, Link(ld, f)), |s.servers[f].log|, End(input.msg));
    }
  }

  // ----- commitment and replies

  lemma HoldersGrow(s: State, ld: nat, r: nat, input: Input, o: Outcome, i: nat)
    requires LedBy(s, ld, r, input, o) && HeldByMajority(s, ld, i)
    ensures HeldByMajority(Settle(s, r, input, o), ld, i)
  {
    hide LedBy, LedStep, MsgSound, MsgLed, AheadOf, Kept, ServerSound, Indices;
    LedFacts(s, ld, r, input, o);
    LogMoves(s, ld, r, input, o);
    var s' := Settle(s, r, input, o);
    SubsetSize(Holders(s, ld, i), Holders(s', ld, i));
  }

  /** What a majority of `match_index` reports is held by a majority. */
  lemma QuorumHolds(s: State, ld: nat, i: nat)
    requires Sound(s) && IsServer(s, ld) && Led(s, ld)
    requires i < |s.servers[ld].log| && Quorum(s.servers[ld].matched, s.n, ld, i)
    ensures HeldByMajority(s, ld, i)
  {
    var believed := Holding(s.servers[ld].matched, s.n, ld, i);
    forall r | r in believed ensures r in Holders(s, ld, i) {
      assert Follows(s, ld, r);
    }
    SubsetSize(believed, Holders(s, ld, i));
  }

  lemma CommitIsHeldNow(s: State, ld: nat, r: nat, input: Input, o: Outcome)
    requires LedBy(s, ld, r, input, o)
    ensures ld < |s.servers| && |s.servers| == s.n + 1 && Sound(s) && Led(s, ld)
    ensures s.servers[ld].commit >= 0 ==> HeldByMajority(s, ld, s.servers[ld].commit)
  {
    hide Follows, LedStep, MsgSound, MsgLed, AheadOf, Indices, Kept, ServerSound, Ordered, HeldByMajority, Answered;
  }

  lemma CommitSettle(s: State, ld: nat, r: nat, input: Input, o: Outcome)
    requires LedBy(s, ld, r, input, o)
    ensures var s' := Settle(s, r, input, o);
      s'.servers[ld].commit >= 0 ==> HeldByMajority(s', ld, s'.servers[ld].commit)
  {
    hide LedBy, MsgSound, MsgLed, AheadOf, Kept, Sound, Led, HeldByMajority, IndexStep, ReplyStep, MailStep, Quorum;
    LedFacts(s, ld, r, input, o);
    CommitIsHeldNow(s, ld, r, input, o);
    var v, w := s.servers[ld], Settle(s, r, input, o).servers[ld];
    if w.commit == v.commit {
      if v.commit >= 0 { HoldersGrow(s, ld, r, input, o, v.commit); }
    } else if r == ld {
      LogMoves(s, ld, r, input, o);
      LeaderAccepts(s, ld, input, o);
      CommitIsMaximal(v.commit, |v.log|, v.matched, v.peers, ld);
      QuorumHolds(s, ld, w.commit);
      HoldersGrow(s, ld, r, input, o, w.commit);
    }
  }

  /** The one leader accepts nothing. */
  lemma LeaderAccepts(s: State, ld: nat, input: Input, o: Outcome)
    requires LedBy(s, ld, ld, input, o)
    ensures ld < |s.servers| && !Accepts(s.servers[ld], input, o.server)
  {
    hide LedBy, LedStep, MsgSound, MsgLed, AheadOf, Accepts;
    LedFacts(s, ld, ld, input, o);
    if Accepts(s.servers[ld], input, o.server) { AcceptsFromLead(s, ld, ld, input, o); }
  }

  lemma RecordOf(h: History, v: Server, input: Input, o: Outcome)
    requires ReplyStep(v, input, o) && AppliedStep(v, input, o.server)
    requires AppliesAsLeader(v, input) ==> v.applied + 1 < |v.log|
    ensures var h' := Record(h, v, input, o);
      if AppliesAsLeader(v, input)
      then o.server.applied == v.applied + 1 && h'.replies == h.replies + [v.log[v.applied + 1].client]
           && h'.applied == h.applied + [Applied(v.rank, v.applied + 1)]
      else h'.replies == h.replies && h'.applied == h.applied && v.applied <= o.server.applied
  {}

  /** What the history gains when a server acts. */
  lemma HistoryOf(s: State, ld: nat, r: nat, input: Input, o: Outcome)
    requires LedBy(s, ld, r, input, o)
    ensures var h, h', v := s.hist, Settle(s, r, input, o).hist, s.servers[r];
      if AppliesAsLeader(v, input)
      then r == ld && v.applied + 1 < |v.log| && o.server.applied == v.applied + 1
           && h'.replies == h.replies + [v.log[v.applied + 1].client]
           && h'.applied == h.applied + [Applied(ld, v.applied + 1)]
      else h'.replies == h.replies && h'.applied == h.applied && v.applied <= o.server.applied
  {
    hide LedBy, Record, LogAndCommitStep, IndexStep, MailStep, MsgSound, MsgLed, AheadOf, Kept, Owned;
    LedFacts(s, ld, r, input, o);
    RecordOf(s.hist, s.servers[r], input, o);
  }

  lemma AnsweredMore(h: History, h': History, v: Server, w: Server)
    requires Answered(h, v) && w.rank == v.rank && v.log <= w.log && v.applied <= w.applied
    requires (h'.replies == h.replies && h'.applied == h.applied)
      || (w.applied == v.applied + 1 < |v.log| && h'.replies == h.replies + [v.log[w.applied].client]
          && h'.applied == h.applied + [Applied(v.rank, w.applied)])
    ensures Answered(h', w)
  {}

  lemma LeadAnswered(s: State, ld: nat, r: nat, input: Input, o: Outcome)
    requires LedBy(s, ld, r, input, o)
    ensures ld < |s.servers| && Answered(s.hist, s.servers[ld])
  {
    hide Follows, LedStep, MsgSound, MsgLed, AheadOf, Indices, Kept, ServerSound, Ordered, HeldByMajority, Answered;
  }

  lemma AnsweredSettle(s: State, ld: nat, r: nat, input: Input, o: Outcome)
    requires LedBy(s, ld, r, input, o)
    ensures Answered(Settle(s, r, input, o).hist, Settle(s, r, input, o).servers[ld])
  {
    hide LedBy, LogAndCommitStep, IndexStep, ReplyStep, MailStep, MsgSound, MsgLed, AheadOf, Answered, Record;
    LedFacts(s, ld, r, input, o);
    LeadAnswered(s, ld, r, input, o);
    HistoryOf(s, ld, r, input, o);
    LogMoves(s, ld, r, input, o);
    AnsweredMore(s.hist, Settle(s, r, input, o).hist, s.servers[ld], Settle(s, r, input, o).servers[ld]);
  }

  lemma LedSettle(s: State, ld: nat, r: nat, input: Input, o: Outcome)
    requires LedBy(s, ld, r, input, o)
    ensures Led(Settle(s, r, input, o), ld)
  {
    var s' := Settle(s, r, input, o);
    forall q: nat | IsServer(s', q) ensures Follows(s', ld, q) { FollowsSettle(s, ld, r, input, o, q); }
    forall l, m | InFlight(s', l, m) ensures MsgLed(s', ld, l, m) { MsgsSettle(s, ld, r, input, o, l, m); }
    forall f: nat | IsServer(s', f) && f != ld ensures Ordered(Queue(s'.net, Link(ld, f)), |s'.servers[f].log|) {
      if r == ld {
        PostQueue(s.net, ld, o.sent, Link(ld, f));
        LeaderQueue(s, ld, input, o, f);
      } else {
        FollowerQueue(s, ld, r, input, o, f);
      }
    }
    IndicesSettle(s, ld, r, input, o);
    CommitSettle(s, ld, r, input, o);
    AnsweredSettle(s, ld, r, input, o);
  }

  // ----- every step and every run

  lemma WithoutOrdered(q: seq<Msg>, i: nat, size: nat)
    requires i < |q| && Ordered(q, size)
    ensures Ordered(Without(q, i), size)
  {}

  lemma SingleQuiet(s: State, s': State)
    requires Single(s) && Sound(s') && s'.servers == s.servers && s'.hist == s.hist && s'.n == s.n
    requires forall l, m :: InFlight(s', l, m) ==> InFlight(s, l, m) || m.ClientRequest?
    requires forall l, size :: ServerLink(s, l) && Ordered(Queue(s.net, l), size) ==> Ordered(Queue(s'.net, l), size)
    ensures Single(s')
  {
    if s.hist.wins != [] {
      var ld := s.hist.wins[0].rank;
      forall r: nat | IsServer(s', r) ensures Follows(s', ld, r) { assert Follows(s, ld, r); }
      forall l, m | InFlight(s', l, m) ensures MsgLed(s', ld, l, m) {
        if InFlight(s, l, m) { assert MsgLed(s, ld, l, m); }
      }
      if s.servers[ld].commit >= 0 {
        assert Holders(s', ld, s.servers[ld].commit) == Holders(s, ld, s.servers[ld].commit);
      }
    }
  }

  lemma SingleRemove(s: State, l: Link, i: nat)
    requires Single(s) && Holds(s, l, i)
    ensures Single(Remove(s, l, i))
  {
    var s' := Remove(s, l, i);
    SoundRemove(s, l, i);
    forall k, m | InFlight(s', k, m) ensures InFlight(s, k, m) { TakeMember(s.net, l, i, k, m); }
    forall k, size | ServerLink(s, k) && Ordered(Queue(s.net, k), size) ensures Ordered(Queue(s'.net, k), size) {
      TakeQueue(s.net, l, i, k);
      if k == l { WithoutOrdered(Queue(s.net, l), i, size); }
    }
    SingleQuiet(s, s');
  }

  lemma SingleClientMove(s: State, c: nat, heard: Heard, resend: Option<nat>)
    requires Single(s) && c in s.clients && s.clients[c].nextResponse < |s.clients[c].commands|
    requires HeardSound(s, c, heard) && (resend.Some? ==> IsServer(s, resend.value))
    ensures Single(ClientMove(s, c, heard, resend))
  {
    var s' := ClientMove(s, c, heard, resend);
    var sent := Iterate(s.clients[c], heard, resend).sent;
    SoundClientMove(s, c, heard, resend);
    forall l, m | InFlight(s', l, m) ensures InFlight(s, l, m) || m.ClientRequest? {
      PostMember(s.net, c, sent, l, m);
      if !InFlight(s, l, m) { ClientSends(s.clients[c], heard, resend, Envelope(l.dst, m)); }
    }
    forall l, size | ServerLink(s, l) && Ordered(Queue(s.net, l), size) ensures Ordered(Queue(s'.net, l), size) {
      PostQueue(s.net, c, sent, l);
    }
    SingleQuiet(s, s');
  }

  /** What a server may assume of the message it takes from the head of a queue. */
  ghost predicate InputLed(s: State, r: nat, input: Input)
    requires |s.servers| == s.n + 1 && r < |s.servers|
  {
    input.Receive? ==>
      var l := Link(input.src, r);
      && MsgSound(s, l, input.msg)
      && (s.hist.wins == [] ==> BlankMsg(input.msg))
      && (s.hist.wins != [] && s.hist.wins[0].rank < |s.servers| ==> MsgLed(s, s.hist.wins[0].rank, l, input.msg))
      && (s.hist.wins != [] && Carries(input.msg) ==> AheadOf(input.msg, Queue(s.net, l), |s.servers[r].log|))
  }

  lemma SingleSettle(s: State, r: nat, input: Input, o: Outcome)
    requires Single(s) && IsServer(s, r) && InputLed(s, r, input)
    requires LedStep(s.servers[r], input, o) && Kept(s.servers[r], o.server) && Sound(Settle(s, r, input, o))
    requires SingleLeadership(Settle(s, r, input, o).hist)
    ensures Single(Settle(s, r, input, o))
    ensures s.hist.wins != [] ==> LedBy(s, s.hist.wins[0].rank, r, input, o)
  {
    if s.hist.wins != [] {
      LedSettle(s, s.hist.wins[0].rank, r, input, o);
    } else if TakesOffice(s.servers[r], o.server) {
      assert ServerSound(s, r);
      OfficeSettle(s, r, input, o);
    } else {
      assert BlankServer(s.servers[r]);
      BlankSettle(s, r, input, o);
    }
  }

  lemma SingleMove(s: State, r: nat, input: Input)
    requires Single(s) && IsServer(s, r) && Ready(s.servers[r], input) && InputLed(s, r, input)
    requires SingleLeadership(Move(s, r, input).hist)
    ensures Single(Move(s, r, input))
    ensures s.hist.wins != [] ==> LedBy(s, s.hist.wins[0].rank, r, input, React(s.servers[r], input))
  {
    SoundMove(s, r, input);
    assert ServerSound(s, r);
    ReactLedStep(s.servers[r], input);
    ReactKeeps(s.servers[r], input);
    SingleSettle(s, r, input, React(s.servers[r], input));
  }

  /** Taking the head of a queue. */
  lemma HeadLed(s: State, src: nat, dst: nat)
    requires Single(s) && IsServer(s, dst) && Holds(s, Link(src, dst), 0)
    ensures var l := Link(src, dst);
      Single(Remove(s, l, 0)) && InputLed(Remove(s, l, 0), dst, Receive(src, Queue(s.net, l)[0]))
  {
    var l := Link(src, dst);
    var q := Queue(s.net, l);
    var s' := Remove(s, l, 0);
    SingleRemove(s, l, 0);
    assert InFlight(s, l, q[0]) && MsgSound(s, l, q[0]);
    TakeQueue(s.net, l, 0, l);
    if s.hist.wins != [] {
      assert MsgLed(s, s.hist.wins[0].rank, l, q[0]);
      if Carries(q[0]) {
        assert Ordered(q, |s.servers[dst].log|);
        var rest := Queue(s'.net, l);
        forall i | 0 <= i < |rest| && Carries(rest[i]) ensures End(q[0]) <= End(rest[i]) { assert rest[i] == q[i + 1]; }
      }
    }
  }

  lemma SingleNext(s: State, e: Event)
    requires Single(s) && Enabled(s, e) && FifoStep(e) && SingleLeadership(Next(s, e).hist)
    ensures Single(Next(s, e))
  {
    match e
    case Deliver(src, dst, i) =>
      HeadLed(s, src, dst);
      SingleMove(Remove(s, Link(src, dst), 0), dst, Receive(src, Queue(s.net, Link(src, dst))[0]));
    case Local(r, input) => SingleMove(s, r, input);
    case Iteration(c, from, resend) =>
      SingleIteration(s, c, from, resend);
    case Lose(l, i) => SingleRemove(s, l, i);
  }

  lemma SingleIteration(s: State, c: nat, from: Source, resend: Option<nat>)
    requires Single(s) && Enabled(s, Iteration(c, from, resend)) && FifoStep(Iteration(c, from, resend))
    ensures Single(Next(s, Iteration(c, from, resend)))
  {
    if from.FromServer? {
      var l := Link(from.src, c);
      var m := Queue(s.net, l)[0];
      assert InFlight(s, l, m) && MsgSound(s, l, m);
      SingleRemove(s, l, 0);
      SingleClientMove(Remove(s, l, 0), c, Answer(m), resend);
    } else {
      SingleClientMove(s, c, if from.Silence? then Nothing else Begin, resend);
    }
  }

  lemma EarlierSingle(run: Run, k: nat)
    requires IsRun(run) && k < |run.states| && SingleLeadership(Last(run).hist)
    ensures SingleLeadership(run.states[k].hist)
  {
    WinsGrow(run, k);
  }

  lemma SingleAtFirst(s: State)
    requires Init(s)
    ensures Single(s)
  {}

  lemma {:induction false} SingleRun(run: Run, k: nat)
    requires IsRun(run) && Fifo(run) && SingleLeadership(Last(run).hist) && k < |run.states|
    ensures Single(run.states[k])
  {
    hide Single, Init, Enabled, Next;
    if k > 0 {
      SingleRun(run, k - 1);
      EarlierSingle(run, k);
      assert FifoStep(run.events[k - 1]);
      SingleNext(run.states[k - 1], run.events[k - 1]);
    } else {
      SingleAtFirst(run.states[0]);
    }
  }

  // ----- results

  /** No server's log shrinks and no commit index falls. */
  ghost predicate Grown(s: State, s': State) {
    && |s.servers| == |s'.servers|
    && forall r: nat :: r < |s.servers| && IsServer(s, r) ==>
         s.servers[r].log <= s'.servers[r].log && s.servers[r].commit <= s'.servers[r].commit
  }

  lemma GrownMove(s: State, r: nat, input: Input)
    requires Single(s) && IsServer(s, r) && Ready(s.servers[r], input) && InputLed(s, r, input)
    requires SingleLeadership(Move(s, r, input).hist)
    ensures Grown(s, Move(s, r, input))
  {
    hide React, Led, LedStep, Kept;
    SingleMove(s, r, input);
    if s.hist.wins != [] {
      LogMoves(s, s.hist.wins[0].rank, r, input, React(s.servers[r], input));
    } else {
      assert BlankServer(s.servers[r]);
    }
  }

  lemma GrownDeliver(s: State, src: nat, dst: nat)
    requires Single(s) && Enabled(s, Deliver(src, dst, 0)) && SingleLeadership(Next(s, Deliver(src, dst, 0)).hist)
    ensures Grown(s, Next(s, Deliver(src, dst, 0)))
  {
    hide Single, React, InputLed;
    HeadLed(s, src, dst);
    GrownMove(Remove(s, Link(src, dst), 0), dst, Receive(src, Queue(s.net, Link(src, dst))[0]));
  }

  lemma GrownNext(s: State, e: Event)
    requires Single(s) && Enabled(s, e) && FifoStep(e) && SingleLeadership(Next(s, e).hist)
    ensures Grown(s, Next(s, e))
  {
    hide React, Led, Blank, MsgSound, ServerSound;
    match e
    case Deliver(src, dst, i) => GrownDeliver(s, src, dst);
    case Local(r, input) => GrownMove(s, r, input);
    case _ =>
  }

  /** ... and the servers and past leaderships stay. */
  ghost predicate Advanced(s: State, s': State) {
    Grown(s, s') && s'.n == s.n && s.hist.wins <= s'.hist.wins
  }

  lemma AdvancedTwice(s: State, t: State, u: State)
    requires Advanced(s, t) && Advanced(t, u)
    ensures Advanced(s, u)
  {}

  lemma SameCluster(s: State, e: Event)
    requires Enabled(s, e)
    ensures Next(s, e).n == s.n && s.hist.wins <= Next(s, e).hist.wins
  {}

  lemma StepAdvances(run: Run, k: nat)
    requires IsRun(run) && Fifo(run) && SingleLeadership(Last(run).hist) && 0 < k < |run.states|
    ensures Advanced(run.states[k - 1], run.states[k])
  {
    hide Single, Grown, FifoStep;
    SingleRun(run, k - 1);
    EarlierSingle(run, k);
    SameCluster(run.states[k - 1], run.events[k - 1]);
    GrownNext(run.states[k - 1], run.events[k - 1]);
  }

  lemma {:induction false} RunAdvances(run: Run, j: nat, k: nat)
    requires IsRun(run) && Fifo(run) && SingleLeadership(Last(run).hist) && j <= k < |run.states|
    ensures Advanced(run.states[j], run.states[k])
    decreases k
  {
    hide IsRun, Fifo;
    if j < k {
      RunAdvances(run, j, k - 1);
      StepAdvances(run, k);
      AdvancedTwice(run.states[j], run.states[k - 1], run.states[k]);
    }
  }

  /** In a single-leadership run over ordered, lossy channels, logs and commit indices only grow. */
  lemma NothingIsUndone(run: Run, j: nat, k: nat)
    requires IsRun(run) && Fifo(run) && SingleLeadership(Last(run).hist) && j <= k < |run.states|
    ensures Grown(run.states[j], run.states[k])
    ensures run.states[j].n == run.states[k].n && run.states[j].hist.wins <= run.states[k].hist.wins
  {
    RunAdvances(run, j, k);
  }

  /** Once there is a leadership: every log is a prefix of the leader's, `match_index` never
      exceeds what the follower holds, and `next_index` never passes the end of the leader's
      log, so the term before it can always be read. */
  lemma MatchIndexNeverOverclaims(run: Run, k: nat, f: nat)
    requires IsRun(run) && Fifo(run) && SingleLeadership(Last(run).hist) && k < |run.states|
    requires run.states[k].hist.wins != [] && IsServer(run.states[k], f)
    ensures var s := run.states[k]; var ld := s.hist.wins[0].rank;
      && |s.servers| == s.n + 1 && IsServer(s, ld)
      && s.servers[f].log <= s.servers[ld].log
      && |s.servers[ld].next| == |s.servers[ld].matched| == s.n + 1
      && (f != ld ==>
            && s.servers[ld].matched[f] <= |s.servers[f].log| - 1
            && 0 <= s.servers[ld].next[f] <= |s.servers[ld].log|)
  {
    SingleRun(run, k);
    assert Follows(run.states[k], run.states[k].hist.wins[0].rank, f);
  }

  /** State machine safety: what two servers have committed is comparable, and each has
      applied only what it committed, out of what it holds. */
  lemma CommittedPrefixesAgree(run: Run, k: nat, a: nat, b: nat)
    requires IsRun(run) && Fifo(run) && SingleLeadership(Last(run).hist) && k < |run.states|
    requires IsServer(run.states[k], a) && IsServer(run.states[k], b)
    ensures var s := run.states[k];
      && |s.servers| == s.n + 1
      && s.servers[a].applied <= s.servers[a].commit < |s.servers[a].log|
      && s.servers[b].commit < |s.servers[b].log|
      && (s.servers[a].commit <= s.servers[b].commit ==>
            s.servers[a].log[..s.servers[a].commit + 1] <= s.servers[b].log[..s.servers[b].commit + 1])
  {
    var s := run.states[k];
    SingleRun(run, k);
    if s.hist.wins != [] {
      var ld := s.hist.wins[0].rank;
      assert Follows(s, ld, a) && Follows(s, ld, b);
    } else {
      assert BlankServer(s.servers[a]) && BlankServer(s.servers[b]);
    }
  }

  lemma CommittedIsHeld(s: State, ld: nat, i: nat)
    requires Sound(s) && IsServer(s, ld) && Led(s, ld) && i <= s.servers[ld].commit
    ensures HeldByMajority(s, ld, i)
  {
    var c := s.servers[ld].commit;
    assert Follows(s, ld, ld);
    forall r | r in Holders(s, ld, c) ensures r in Holders(s, ld, i) { assert Follows(s, ld, r); }
    SubsetSize(Holders(s, ld, c), Holders(s, ld, i));
  }

  /** Durability: an entry that the leader has committed is, in that and in every later
      state, still at its index in the leader's log and held there by a majority. */
  lemma CommittedIsDurable(run: Run, j: nat, k: nat, i: nat)
    requires IsRun(run) && Fifo(run) && SingleLeadership(Last(run).hist) && j <= k < |run.states|
    requires run.states[j].hist.wins != []
    requires var s := run.states[j];
      s.hist.wins[0].rank < |s.servers| && i <= s.servers[s.hist.wins[0].rank].commit
    ensures var s, t := run.states[j], run.states[k]; var ld := s.hist.wins[0].rank;
      && |t.servers| == |s.servers| == s.n + 1 && t.n == s.n
      && HeldByMajority(s, ld, i) && HeldByMajority(t, ld, i)
      && t.servers[ld].log[i] == s.servers[ld].log[i]
  {
    SingleRun(run, j);
    SingleRun(run, k);
    NothingIsUndone(run, j, k);
    CommittedIsHeld(run.states[j], run.states[j].hist.wins[0].rank, i);
    CommittedIsHeld(run.states[k], run.states[j].hist.wins[0].rank, i);
  }

  /** Replies are sound and conserved: the i-th success reply of the run went to the client
      of the i-th entry that the leader applied as leader; those indices strictly increase,
      so none is answered twice; each had been applied and is held by a majority. */
  lemma RepliesMatchApplied(run: Run, k: nat)
    requires IsRun(run) && Fifo(run) && SingleLeadership(Last(run).hist) && k < |run.states|
    ensures var s := run.states[k]; var h := s.hist;
      && |h.replies| == |h.applied|
      && (h.applied != [] ==> h.wins != [])
      && (forall i :: 0 <= i < |h.applied| ==>
            && |s.servers| == s.n + 1 && h.applied[i].server == h.wins[0].rank < |s.servers|
            && HeldByMajority(s, h.applied[i].server, h.applied[i].index)
            && h.applied[i].index <= s.servers[h.applied[i].server].applied
            && h.replies[i] == s.servers[h.applied[i].server].log[h.applied[i].index].client)
      && (forall i, j :: 0 <= i < j < |h.applied| ==> h.applied[i].index < h.applied[j].index)
  {
    var s := run.states[k];
    SingleRun(run, k);
    if s.hist.wins != [] {
      var ld := s.hist.wins[0].rank;
      assert ServerSound(s, ld) && Follows(s, ld, ld);
      forall i | 0 <= i < |s.hist.applied| ensures HeldByMajority(s, ld, s.hist.applied[i].index) {
        CommittedIsHeld(s, ld, s.hist.applied[i].index);
      }
    }
  }
}
