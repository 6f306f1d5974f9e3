/** How a leader brings one follower up to date, run with the handlers of both. */
module CatchUp {
  import opened LogEntries
  import opened Messages
  import opened RaftServer

  /** A leader whose log has distinct keys, and a live server whose log matches it. */
  ghost predicate Pair(lead: Server, fol: Server) {
    && lead.alive && lead.status == Leader && Indexed(lead) && DistinctKeys(lead.log)
    && fol.alive && fol.term <= lead.term
    && 1 <= fol.rank <= lead.peers && fol.rank != lead.rank
    && Matching(lead.log, fol.log)
  }

  predicate Sendable(lead: Server, q: nat) {
    Indexed(lead) && q <= lead.peers && lead.next[q] <= |lead.log|
  }

  /** The leader's heartbeat to server q. */
  function HeartbeatFor(lead: Server, q: nat): Msg
    requires Indexed(lead) && q <= lead.peers
  {
    MessageFor(lead, Heartbeat([]), q)[0]
  }

  /** What the leader's rules send: the entries that are missing, or else a heartbeat. */
  function MessageTo(lead: Server, q: nat): Msg
    requires Sendable(lead, q)
  {
    if lead.next[q] < |lead.log| then MessageFor(lead, Replication, q)[0] else HeartbeatFor(lead, q)
  }

  predicate Fits(v: Server, m: Msg)
    requires m.AppendEntries?
  {
    m.prev < |v.log| && TermAt(v.log, m.prev) == m.prevTerm
  }

  /** The logs agree below `next_index`. */
  predicate Agreed(lead: Server, fol: Server)
    requires Sendable(lead, fol.rank)
  {
    lead.next[fol.rank] <= CommonPrefix(lead.log, fol.log)
  }

  lemma AgreedBelow(lead: Server, fol: Server)
    requires Pair(lead, fol) && lead.next[fol.rank] <= CommonPrefix(lead.log, fol.log)
    ensures PrevIndex(lead, fol.rank) < |fol.log|
    ensures TermAt(fol.log, PrevIndex(lead, fol.rank)) == TermAt(lead.log, PrevIndex(lead, fol.rank))
  {
    var n := lead.next[fol.rank];
    CommonPrefixIsLongest(lead.log, fol.log, n);
    if n > 0 {
      assert lead.log[n - 1] == lead.log[..n][n - 1] == fol.log[..n][n - 1] == fol.log[n - 1];
    }
  }

  /** Acceptance is exactly agreement below `next_index`. */
  lemma AcceptedIffAgreed(lead: Server, fol: Server)
    requires Pair(lead, fol) && Sendable(lead, fol.rank)
    ensures Fits(fol, MessageTo(lead, fol.rank)) <==> Agreed(lead, fol)
  {
    var n := lead.next[fol.rank];
    if Agreed(lead, fol) { AgreedBelow(lead, fol); }
    if Fits(fol, MessageTo(lead, fol.rank)) {
      if n > 0 { assert SameTermAt(lead.log, fol.log, n - 1); }
      CommonPrefixIsLongest(lead.log, fol.log, n);
    }
  }

  /** The log after acceptance: the leader's, unless the leader had nothing to send. */
  function Accepted(lead: Server, fol: Server): Log
    requires Sendable(lead, fol.rank)
  {
    if lead.next[fol.rank] < |lead.log| then lead.log else fol.log
  }

  lemma SplicesWholeLog(lead: Server, fol: Server)
    requires Pair(lead, fol) && Sendable(lead, fol.rank) && Agreed(lead, fol)
    ensures var m := MessageTo(lead, fol.rank);
      Fits(fol, m) && Splice(fol.log, m.prev, m.entries) == Accepted(lead, fol)
  {
    var m := MessageTo(lead, fol.rank);
    AcceptedIffAgreed(lead, fol);
    if lead.next[fol.rank] < |lead.log| {
      assert m.entries == lead.log[m.prev + 1..|lead.log|];
      SpliceIsPrefixOf(fol.log, lead.log, m.prev, |lead.log|);
    }
  }

  /** The handler refines the splice: an accepted AppendEntries with the rest of the
      leader's log leaves the follower with exactly the leader's log, and says so; a
      heartbeat or a rejected message leaves the log alone. */
  lemma HandlerInstallsLog(lead: Server, fol: Server)
    requires Pair(lead, fol) && Sendable(lead, fol.rank)
    ensures var o := OnRpc(fol, MessageTo(lead, fol.rank)); var w := o.server;
      && w.log == (if Agreed(lead, fol) then Accepted(lead, fol) else fol.log)
      && o.sent == [Envelope(lead.rank, AppendResponse(lead.term, Agreed(lead, fol), fol.rank, |w.log| - 1))]
      && (!Agreed(lead, fol) ==> w.commit == fol.commit)
      && w.rank == fol.rank && w.alive && w.term == lead.term
  {
    AcceptedIffAgreed(lead, fol);
    if Agreed(lead, fol) { SplicesWholeLog(lead, fol); }
    Handles(fol, MessageTo(lead, fol.rank), Agreed(lead, fol), Accepted(lead, fol));
  }

  lemma Handles(v: Server, m: Msg, fits: bool, log: Log)
    requires m.AppendEntries? && v.alive && v.term <= m.term
    requires fits <==> Fits(v, m)
    requires fits ==> Splice(v.log, m.prev, m.entries) == log
    ensures var o := OnRpc(v, m); var w := o.server;
      && w.rank == v.rank && w.alive && w.term == m.term
      && if fits
         then w.log == log && o.sent == [Envelope(m.leader, AppendResponse(m.term, true, v.rank, |log| - 1))]
         else w.log == v.log && w.commit == v.commit
              && o.sent == [Envelope(m.leader, AppendResponse(m.term, false, v.rank, |v.log| - 1))]
  {}

  /** One exchange: the leader sends, the follower handles, the leader handles the reply. */
  function Exchange(lead: Server, fol: Server): (Server, Server)
    requires Sendable(lead, fol.rank)
  {
    var o := OnRpc(fol, MessageTo(lead, fol.rank));
    (Answering(lead, fol.rank, o), o.server)
  }

  function Answering(lead: Server, q: nat, o: Outcome): Server
    requires Indexed(lead) && q <= lead.peers
  {
    if |o.sent| == 1 && o.sent[0].msg.AppendResponse? && o.sent[0].msg.follower < |lead.next|
    then OnRpc(lead, o.sent[0].msg).server else lead
  }

  /** An exchange either succeeds, and leaves both with what the follower then holds, or
      moves one position back. */
  lemma ExchangeStep(lead: Server, fol: Server)
    requires Pair(lead, fol) && Sendable(lead, fol.rank)
    ensures var (lead', fol') := Exchange(lead, fol); var q := fol.rank;
      && fol'.rank == q && lead'.log == lead.log && lead'.peers == lead.peers && Pair(lead', fol')
      && if Agreed(lead, fol)
         then fol'.log == Accepted(lead, fol) && lead'.next[q] == |fol'.log| && lead'.matched[q] == |fol'.log| - 1
         else fol'.log == fol.log && lead'.next[q] == lead.next[q] - 1 && lead'.matched[q] == lead.matched[q]
  {
    HandlerInstallsLog(lead, fol);
    assert Matching(lead.log, lead.log);
  }

  datatype Caught = Caught(lead: Server, fol: Server, rejections: nat)

  /** Exchanges until the follower has reported a success. */
  function Exchanges(lead: Server, fol: Server): (r: Caught)
    requires Pair(lead, fol) && Sendable(lead, fol.rank)
    decreases lead.next[fol.rank]
  {
    ExchangeStep(lead, fol);
    var (lead', fol') := Exchange(lead, fol);
    if Agreed(lead, fol) then Caught(lead', fol', 0)
    else var rest := Exchanges(lead', fol'); rest.(rejections := rest.rejections + 1)
  }

  function Max(a: int, b: int): int {
    if a >= b then a else b
  }

  lemma AgreedOnAll(a: Log, b: Log)
    requires |a| <= CommonPrefix(a, b)
    ensures a <= b
  {
    CommonPrefixIsLongest(a, b, |a|);
    assert a[..|a|] == a;
  }

  /** Exactly as many rejections as `next_index` lies beyond the longest common prefix, and the
      leader's indices at the end of the follower's log. That log is the leader's, unless a
      heartbeat found the follower to have all of it: then it is the follower's own, which the
      leader's is a prefix of. */
  ghost predicate CaughtUp(lead: Server, fol: Server, r: Caught)
    requires Sendable(lead, fol.rank)
  {
    var q := fol.rank; var common := CommonPrefix(lead.log, fol.log);
    && r.rejections == Max(0, lead.next[q] - common)
    && r.lead.log == lead.log && lead.log <= r.fol.log
    && r.fol.log == (if lead.next[q] == |lead.log| == common then fol.log else lead.log)
    && |r.lead.matched| == |r.lead.next| == lead.peers + 1
    && r.lead.matched[q] == |r.fol.log| - 1 && r.lead.next[q] == |r.fol.log|
  }

  /** Catching up always ends like this. */
  lemma {:induction false} CatchUpIsExact(lead: Server, fol: Server)
    requires Pair(lead, fol) && Sendable(lead, fol.rank)
    ensures CaughtUp(lead, fol, Exchanges(lead, fol))
    decreases lead.next[fol.rank]
  {
    hide Matching, OnRpc;
    ExchangeStep(lead, fol);
    var (lead', fol') := Exchange(lead, fol);
    if Agreed(lead, fol) {
      if lead.next[fol.rank] == |lead.log| { AgreedOnAll(lead.log, fol.log); }
    } else {
      CatchUpIsExact(lead', fol');
    }
  }
}
