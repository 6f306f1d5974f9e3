/** Logs in runs where no term has two leaders, over an arbitrary network. */
module LogMatching {
  import opened LogEntries
  import opened Messages
  import opened RaftServer
  import opened RaftClient
  import opened Cluster
  import opened AnyNetwork

  // ----- logs and the logs of past and present leaders

  /** The entry at i stands where the leader of its term had it, above the same entries. */
  predicate AnchoredAt(reign: map<nat, Log>, log: Log, i: nat)
    requires i < |log|
  {
    log[i].term in reign && log[..i + 1] <= reign[log[i].term]
  }

  ghost predicate Anchored(reign: map<nat, Log>, log: Log) {
    forall i :: 0 <= i < |log| ==> AnchoredAt(reign, log, i)
  }

  ghost predicate Sorted(log: Log, bound: nat) {
    && (forall i, j :: 0 <= i < j < |log| ==> log[i].term <= log[j].term)
    && (forall i :: 0 <= i < |log| ==> log[i].term <= bound)
  }

  ghost predicate Grows(a: map<nat, Log>, b: map<nat, Log>) {
    forall t :: t in a ==> t in b && a[t] <= b[t]
  }

  lemma AnchoredGrows(a: map<nat, Log>, b: map<nat, Log>, log: Log)
    requires Anchored(a, log) && Grows(a, b)
    ensures Anchored(b, log)
  {
    forall i | 0 <= i < |log| ensures AnchoredAt(b, log, i) { assert AnchoredAt(a, log, i); }
  }

  lemma AnchoredPrefix(reign: map<nat, Log>, log: Log, k: nat)
    requires Anchored(reign, log) && k <= |log|
    ensures Anchored(reign, log[..k])
  {
    forall i | 0 <= i < k ensures AnchoredAt(reign, log[..k], i) {
      assert AnchoredAt(reign, log, i) && log[..k][..i + 1] == log[..i + 1];
    }
  }

  /** A leader's log, extended in the record by one entry of the leader's term. */
  lemma AnchoredAppend(reign: map<nat, Log>, log: Log, e: Entry)
    requires Anchored(reign, log) && e.term in reign && reign[e.term] == log + [e]
    ensures Anchored(reign, log + [e])
  {
    var more := log + [e];
    forall i | 0 <= i < |more| ensures AnchoredAt(reign, more, i) {
      if i < |log| {
        assert AnchoredAt(reign, log, i) && more[..i + 1] == log[..i + 1];
      }
    }
  }

  lemma AnchoredMatch(reign: map<nat, Log>, a: Log, b: Log)
    requires Anchored(reign, a) && Anchored(reign, b)
    ensures Matching(a, b)
  {
    forall i | SameTermAt(a, b, i) ensures a[..i + 1] == b[..i + 1] {
      assert AnchoredAt(reign, a, i) && AnchoredAt(reign, b, i);
    }
  }

  // ----- requests absorbed by a leader

  predicate Requested(reqs: seq<Request>, e: Entry) {
    exists i :: 0 <= i < |reqs| && reqs[i].client == e.client && reqs[i].serial == e.serial
  }

  /** The requests that carry a key seen neither in `office` nor earlier in the stream, as
      entries of the term, in order. */
  function FirstOccurrences(office: Log, reqs: seq<Request>, term: nat): Log
    decreases |reqs|
  {
    if reqs == [] then []
    else
      var before := reqs[..|reqs| - 1];
      var e := EntryFor(term, reqs[|reqs| - 1]);
      FirstOccurrences(office, before, term)
      + if Has(office, e) || Requested(before, e) then [] else [e]
  }

  lemma HasSnoc(log: Log, x: Entry, e: Entry)
    ensures Has(log + [x], e) <==> Has(log, e) || SameKey(x, e)
  {
    if Has(log, e) { HasInPrefix(log, log + [x], e); }
    assert (log + [x])[|log|] == x;
  }

  lemma RequestedSnoc(reqs: seq<Request>, r: Request, e: Entry)
    ensures Requested(reqs + [r], e) <==> Requested(reqs, e) || (r.client == e.client && r.serial == e.serial)
  {
    var more := reqs + [r];
    if Requested(reqs, e) {
      var i :| 0 <= i < |reqs| && reqs[i].client == e.client && reqs[i].serial == e.serial;
      assert more[i] == reqs[i];
    }
    assert more[|reqs|] == r;
  }

  lemma SameKeySame(log: Log, reqs: seq<Request>, d: Entry, e: Entry)
    requires SameKey(d, e)
    ensures (Has(log, d) <==> Has(log, e)) && (Requested(reqs, d) <==> Requested(reqs, e))
  {}

  /** The log of a leader holds a key exactly when its office log did or it was requested. */
  lemma {:induction false} HeldKeys(office: Log, reqs: seq<Request>, term: nat, e: Entry)
    ensures Has(office + FirstOccurrences(office, reqs, term), e) <==> Has(office, e) || Requested(reqs, e)
    decreases |reqs|
  {
    if reqs == [] {
      assert office + FirstOccurrences(office, reqs, term) == office;
    } else {
      var before, r := reqs[..|reqs| - 1], reqs[|reqs| - 1];
      var x := EntryFor(term, r);
      var added := FirstOccurrences(office, before, term);
      assert reqs == before + [r];
      HeldKeys(office, before, term, e);
      RequestedSnoc(before, r, e);
      if Has(office, x) || Requested(before, x) {
        assert FirstOccurrences(office, reqs, term) == added;
        if SameKey(x, e) { SameKeySame(office, before, x, e); }
      } else {
        assert office + (added + [x]) == (office + added) + [x];
        HasSnoc(office + added, x, e);
      }
    }
  }

  /** One more request, handled as the code does: searched for in the whole log. */
  lemma AbsorbRequest(office: Log, reqs: seq<Request>, term: nat, r: Request)
    ensures var log := office + FirstOccurrences(office, reqs, term);
      var e := EntryFor(term, r);
      office + FirstOccurrences(office, reqs + [r], term) == if Has(log, e) then log else log + [e]
  {
    HeldKeys(office, reqs, term, EntryFor(term, r));
    assert (reqs + [r])[..|reqs|] == reqs;
  }

  // ----- the invariant

  ghost predicate WinKept(s: State, w: Win)
    requires |s.servers| == s.n + 1
  {
    && IsServer(s, w.rank) && w.term <= s.servers[w.rank].term
    && (w.term == s.servers[w.rank].term ==> s.servers[w.rank].status == Leader)
    && w.term in s.hist.reign
    && s.hist.reign[w.term] == w.log + FirstOccurrences(w.log, StreamOf(s.hist, w.term), w.term)
  }

  ghost predicate LogKept(s: State, r: nat)
    requires r < |s.servers|
  {
    var v := s.servers[r];
    && Anchored(s.hist.reign, v.log) && Sorted(v.log, v.term)
    && (v.status == Leader ==>
          WonBy(s.hist.wins, v.term, r) && v.term in s.hist.reign && s.hist.reign[v.term] == v.log)
  }

  ghost predicate ReignKept(h: History, t: nat)
    requires t in h.reign
  {
    && Anchored(h.reign, h.reign[t]) && Sorted(h.reign[t], t) && DistinctKeys(h.reign[t])
    && exists r :: WonBy(h.wins, t, r)
  }

  /** An AppendEntries in flight quotes the log of the leader of its term. */
  ghost predicate Quotes(h: History, src: nat, m: Msg) {
    m.AppendEntries? ==>
      && WonBy(h.wins, m.term, src) && m.term in h.reign
      && (m.entries != [] ==>
            var lead := h.reign[m.term];
            && m.prev + 1 + |m.entries| <= |lead|
            && m.entries == lead[m.prev + 1..m.prev + 1 + |m.entries|]
            && m.prevTerm == TermAt(lead, m.prev))
  }

  ghost predicate Matched(s: State) {
    && Sound(s)
    && OneLeaderPerTerm(s.hist)
    && (forall i :: 0 <= i < |s.hist.wins| ==> WinKept(s, s.hist.wins[i]))
    && (forall r: nat :: IsServer(s, r) ==> LogKept(s, r))
    && (forall t :: t in s.hist.reign ==> ReignKept(s.hist, t))
    && (forall l, m :: InFlight(s, l, m) ==> Quotes(s.hist, l.src, m))
  }

  // ----- one step of a server

  /** What log matching needs to know of a reaction that turned v into o.server. */
  ghost predicate LogStep(v: Server, input: Input, o: Outcome) {
    var w := o.server;
    && w.rank == v.rank && w.term >= v.term
    && (v.status == Leader && w.term == v.term ==> w.status == Leader)
    && (v.status == Leader && w.status == Leader ==> w.term == v.term)
    && (TakesOffice(v, w) ==>
          w.log == v.log && if input.Elapsed? then w.term > v.term else v.status == Candidate && w.term == v.term)
    && (w.log == v.log || TakesRequest(v, input) || TakesEntries(v, input, w))
    && (TakesRequest(v, input) ==>
          var e := EntryFor(v.term, input.msg.request);
          w.status == Leader && w.log == if Has(v.log, e) then v.log else v.log + [e])
    && (forall e :: e in o.sent && e.msg.AppendEntries? ==> QuotesSender(w, e.msg))
  }

  /** An AppendEntries with entries was accepted. */
  predicate TakesEntries(v: Server, input: Input, w: Server) {
    && input.Receive? && input.msg.AppendEntries? && input.msg.entries != []
    && w.term == input.msg.term
    && input.msg.prev < |v.log| && TermAt(v.log, input.msg.prev) == input.msg.prevTerm
    && w.log == Splice(v.log, input.msg.prev, input.msg.entries)
    && (w.status == Leader ==> v.status == Leader && v.term == w.term)
  }

  /** A leader's AppendEntries, as sent. */
  predicate QuotesSender(w: Server, m: Msg)
    requires m.AppendEntries?
  {
    && w.status == Leader && m.term == w.term
    && (m.entries != [] ==>
          m.prev + 1 < |w.log| && m.entries == w.log[m.prev + 1..] && m.prevTerm == TermAt(w.log, m.prev))
  }

  lemma SentQuotes(v: Server, input: Input, e: Envelope)
    requires Ready(v, input) && e in React(v, input).sent && e.msg.AppendEntries?
    ensures QuotesSender(React(v, input).server, e.msg)
  {
    hide React;
    ReactSends(v, input, e);
  }

  lemma ReactLogStep(v: Server, input: Input)
    requires Ready(v, input)
    ensures LogStep(v, input, React(v, input))
  {
    hide React, QuotesSender, TakesEntries, Has;
    RolesStep(v, input);
    EntriesStep(v, input);
    forall e | e in React(v, input).sent && e.msg.AppendEntries? ensures QuotesSender(React(v, input).server, e.msg) {
      SentQuotes(v, input, e);
    }
  }

  lemma RolesStep(v: Server, input: Input)
    requires Ready(v, input)
    ensures var w := React(v, input).server;
      && w.rank == v.rank && w.term >= v.term
      && (v.status == Leader && w.term == v.term ==> w.status == Leader)
      && (v.status == Leader && w.status == Leader ==> w.term == v.term)
      && (TakesOffice(v, w) ==>
            w.log == v.log && if input.Elapsed? then w.term > v.term else v.status == Candidate && w.term == v.term)
  {
    hide Fanout, Splice, AdvanceCommit, UpToDate, Has;
  }

  lemma EntriesStep(v: Server, input: Input)
    requires Ready(v, input)
    ensures var w := React(v, input).server;
      && (w.log == v.log || TakesRequest(v, input) || TakesEntries(v, input, w))
      && (TakesRequest(v, input) ==>
            var e := EntryFor(v.term, input.msg.request);
            w.status == Leader && w.log == if Has(v.log, e) then v.log else v.log + [e])
  {
    hide Fanout, AdvanceCommit, UpToDate, Has, Absorb;
  }

  /** Server r makes a step of this kind in a matched state. */
  ghost predicate Moves(s: State, r: nat, input: Input, o: Outcome) {
    && Matched(s) && IsServer(s, r) && LogStep(s.servers[r], input, o)
    && Sound(Settle(s, r, input, o))
    && (input.Receive? ==> InputSound(s, r, input) && Quotes(s.hist, input.src, input.msg))
    && OneLeaderPerTerm(Settle(s, r, input, o).hist)
  }

  /** A leader never takes entries from another leader of its own term. */
  lemma NotWhileLeading(s: State, r: nat, input: Input, o: Outcome)
    requires Moves(s, r, input, o) && TakesEntries(s.servers[r], input, o.server)
    ensures o.server.status != Leader
  {
    var v := s.servers[r];
    assert LogKept(s, r) && MsgSound(s, Link(input.src, r), input.msg) && Quotes(s.hist, input.src, input.msg);
    assert OneLeaderPerTerm(s.hist);
    if o.server.status == Leader { OneWinner(s.hist, v.term, input.src, r); }
  }

  lemma OneWinner(h: History, term: nat, a: nat, b: nat)
    requires OneLeaderPerTerm(h) && WonBy(h.wins, term, a) && WonBy(h.wins, term, b)
    ensures a == b
  {}

  /** An accepted stretch of the leader's log makes the log a prefix of the leader's. */
  lemma AcceptStretch(reign: map<nat, Log>, log: Log, lead: Log, m: Msg)
    requires Anchored(reign, log) && Anchored(reign, lead) && DistinctKeys(lead)
    requires m.AppendEntries? && m.entries != [] && m.prev < |log|
    requires m.prev + 1 + |m.entries| <= |lead|
    requires m.entries == lead[m.prev + 1..m.prev + 1 + |m.entries|]
    requires TermAt(log, m.prev) == m.prevTerm == TermAt(lead, m.prev)
    ensures Splice(log, m.prev, m.entries) == lead[..m.prev + 1 + |m.entries|]
  {
    AnchoredMatch(reign, lead, log);
    SpliceIsPrefixOf(log, lead, m.prev, m.prev + 1 + |m.entries|);
  }

  /** A term is won once: by a server that was campaigning in it. */
  lemma FreshTerm(s: State, r: nat, input: Input, o: Outcome)
    requires Moves(s, r, input, o) && TakesOffice(s.servers[r], o.server)
    ensures o.server.term !in s.hist.reign
    ensures WonBy(Settle(s, r, input, o).hist.wins, o.server.term, r)
  {
    var wins := Settle(s, r, input, o).hist.wins;
    var t := o.server.term;
    assert ServerSound(s, r);
    assert wins[|s.hist.wins|].term == t && wins[|s.hist.wins|].rank == r;
    forall i | 0 <= i < |s.hist.wins| ensures s.hist.wins[i].term != t {
      assert WinKept(s, s.hist.wins[i]) && wins[i] == s.hist.wins[i];
    }
    assert t in s.hist.reign ==> ReignKept(s.hist, t);
  }

  /** The record changes only where the acting server leads, and there it grows. */
  lemma ReignGrows(s: State, r: nat, input: Input, o: Outcome)
    requires Moves(s, r, input, o)
    ensures Grows(s.hist.reign, Settle(s, r, input, o).hist.reign)
  {
    var v := s.servers[r];
    if o.server.status == Leader {
      if TakesOffice(v, o.server) {
        FreshTerm(s, r, input, o);
      } else {
        assert LogKept(s, r);
        if TakesEntries(v, input, o.server) { NotWhileLeading(s, r, input, o); }
      }
    }
  }

  lemma WonByKept(s: State, r: nat, input: Input, o: Outcome)
    requires Moves(s, r, input, o)
    ensures forall t, q :: WonBy(s.hist.wins, t, q) ==> WonBy(Settle(s, r, input, o).hist.wins, t, q)
  {
    var wins := Settle(s, r, input, o).hist.wins;
    forall t, q | WonBy(s.hist.wins, t, q) ensures WonBy(wins, t, q) {
      var i :| 0 <= i < |s.hist.wins| && s.hist.wins[i].term == t && s.hist.wins[i].rank == q;
      assert wins[i] == s.hist.wins[i];
    }
  }

  lemma PrefixKept(reign: map<nat, Log>, log: Log, bound: nat, k: nat)
    requires Anchored(reign, log) && Sorted(log, bound) && k <= |log|
    ensures Anchored(reign, log[..k]) && Sorted(log[..k], bound)
  {
    AnchoredPrefix(reign, log, k);
  }

  lemma AppendKept(reign: map<nat, Log>, log: Log, e: Entry)
    requires Anchored(reign, log) && Sorted(log, e.term) && e.term in reign && reign[e.term] == log + [e]
    ensures Anchored(reign, log + [e]) && Sorted(log + [e], e.term)
  {
    AnchoredAppend(reign, log, e);
  }

  lemma AcceptKept(reign: map<nat, Log>, log: Log, lead: Log, m: Msg)
    requires Anchored(reign, log) && Anchored(reign, lead) && DistinctKeys(lead)
    requires m.AppendEntries? && m.entries != [] && m.prev < |log|
    requires m.prev + 1 + |m.entries| <= |lead|
    requires m.entries == lead[m.prev + 1..m.prev + 1 + |m.entries|]
    requires TermAt(log, m.prev) == m.prevTerm == TermAt(lead, m.prev)
    requires Sorted(lead, m.term)
    ensures Anchored(reign, Splice(log, m.prev, m.entries)) && Sorted(Splice(log, m.prev, m.entries), m.term)
  {
    AcceptStretch(reign, log, lead, m);
    PrefixKept(reign, lead, m.term, m.prev + 1 + |m.entries|);
  }

  lemma LogAfterEntries(s: State, r: nat, input: Input, w: Server)
    requires Matched(s) && IsServer(s, r) && TakesEntries(s.servers[r], input, w)
    requires Quotes(s.hist, input.src, input.msg)
    ensures Anchored(s.hist.reign, w.log) && Sorted(w.log, w.term)
  {
    assert LogKept(s, r) && ReignKept(s.hist, input.msg.term);
    AcceptKept(s.hist.reign, s.servers[r].log, s.hist.reign[input.msg.term], input.msg);
  }

  lemma LogAfterRequest(s: State, r: nat, input: Input, o: Outcome)
    requires Moves(s, r, input, o) && TakesRequest(s.servers[r], input)
    ensures Anchored(Settle(s, r, input, o).hist.reign, o.server.log) && Sorted(o.server.log, o.server.term)
  {
    var v := s.servers[r];
    var reign' := Settle(s, r, input, o).hist.reign;
    assert LogKept(s, r);
    ReignGrows(s, r, input, o);
    AnchoredGrows(s.hist.reign, reign', v.log);
    if o.server.log != v.log { AppendKept(reign', v.log, EntryFor(v.term, input.msg.request)); }
  }

  lemma LogAfter(s: State, r: nat, input: Input, o: Outcome)
    requires Moves(s, r, input, o)
    ensures Anchored(Settle(s, r, input, o).hist.reign, o.server.log) && Sorted(o.server.log, o.server.term)
  {
    ReignGrows(s, r, input, o);
    if TakesRequest(s.servers[r], input) {
      LogAfterRequest(s, r, input, o);
    } else {
      if TakesEntries(s.servers[r], input, o.server) { LogAfterEntries(s, r, input, o.server); }
      assert LogKept(s, r);
      AnchoredGrows(s.hist.reign, Settle(s, r, input, o).hist.reign, o.server.log);
    }
  }

  lemma LogKeptSettle(s: State, r: nat, input: Input, o: Outcome)
    requires Moves(s, r, input, o)
    ensures LogKept(Settle(s, r, input, o), r)
  {
    assert LogKept(s, r);
    LogAfter(s, r, input, o);
    WonByKept(s, r, input, o);
    if TakesOffice(s.servers[r], o.server) { FreshTerm(s, r, input, o); }
  }

  lemma OldReignKept(h: History, h': History, t: nat)
    requires t in h.reign && t in h'.reign && h'.reign[t] == h.reign[t] && ReignKept(h, t)
    requires Grows(h.reign, h'.reign) && forall u, q :: WonBy(h.wins, u, q) ==> WonBy(h'.wins, u, q)
    ensures ReignKept(h', t)
  {
    AnchoredGrows(h.reign, h'.reign, h.reign[t]);
  }

  lemma OwnReignKept(s: State, r: nat, input: Input, o: Outcome)
    requires Moves(s, r, input, o) && o.server.status == Leader
    ensures o.server.term in Settle(s, r, input, o).hist.reign && ReignKept(Settle(s, r, input, o).hist, o.server.term)
  {
    LogKeptSettle(s, r, input, o);
    assert ServerSound(Settle(s, r, input, o), r);
  }

  lemma ReignKeptSettle(s: State, r: nat, input: Input, o: Outcome, t: nat)
    requires Moves(s, r, input, o) && t in Settle(s, r, input, o).hist.reign
    ensures ReignKept(Settle(s, r, input, o).hist, t)
  {
    hide ReignKept, Grows, WonBy;
    var s' := Settle(s, r, input, o);
    if o.server.status == Leader && t == o.server.term {
      OwnReignKept(s, r, input, o);
    } else {
      assert ReignKept(s.hist, t);
      WonByKept(s, r, input, o);
      ReignGrows(s, r, input, o);
      OldReignKept(s.hist, s'.hist, t);
    }
  }

  lemma QuotesKept(h: History, h': History, src: nat, m: Msg)
    requires Quotes(h, src, m) && Grows(h.reign, h'.reign)
    requires forall t, q :: WonBy(h.wins, t, q) ==> WonBy(h'.wins, t, q)
    ensures Quotes(h', src, m)
  {}

  lemma QuotesSettle(s: State, r: nat, input: Input, o: Outcome, l: Link, m: Msg)
    requires Moves(s, r, input, o) && InFlight(Settle(s, r, input, o), l, m)
    ensures Quotes(Settle(s, r, input, o).hist, l.src, m)
  {
    PostMember(s.net, r, o.sent, l, m);
    if InFlight(s, l, m) {
      ReignGrows(s, r, input, o);
      WonByKept(s, r, input, o);
      QuotesKept(s.hist, Settle(s, r, input, o).hist, l.src, m);
    } else if m.AppendEntries? {
      assert Envelope(l.dst, m) in o.sent;
      LogKeptSettle(s, r, input, o);
      SenderQuotes(Settle(s, r, input, o).hist, r, o.server, m);
    }
  }

  lemma SenderQuotes(h: History, src: nat, w: Server, m: Msg)
    requires m.AppendEntries? && QuotesSender(w, m)
    requires WonBy(h.wins, w.term, src) && w.term in h.reign && h.reign[w.term] == w.log
    ensures Quotes(h, src, m)
  {}

  /** While it leads, a leader's log follows the stream of requests delivered to it. */
  lemma AbsorbedSettle(s: State, r: nat, input: Input, o: Outcome, win: Win)
    requires Moves(s, r, input, o) && WinKept(s, win)
    requires s.servers[r].status == o.server.status == Leader && o.server.term == win.term
    ensures var h := Settle(s, r, input, o).hist;
      h.reign[win.term] == win.log + FirstOccurrences(win.log, StreamOf(h, win.term), win.term)
  {
    var v := s.servers[r];
    assert LogKept(s, r) && ServerSound(s, r);
    if TakesEntries(v, input, o.server) { NotWhileLeading(s, r, input, o); }
    if TakesRequest(v, input) {
      AbsorbRequest(win.log, StreamOf(s.hist, win.term), win.term, input.msg.request);
    }
  }

  /** Only the leader of a term touches its record and its stream. */
  lemma OtherWin(s: State, r: nat, input: Input, o: Outcome, win: Win)
    requires Moves(s, r, input, o) && win.term in s.hist.reign
    requires !(s.servers[r].status == o.server.status == Leader && o.server.term == win.term)
    ensures var h := Settle(s, r, input, o).hist;
      win.term in h.reign && h.reign[win.term] == s.hist.reign[win.term]
      && StreamOf(h, win.term) == StreamOf(s.hist, win.term)
  {
    hide TakesEntries, QuotesSender, WinKept, LogKept, ReignKept;
    if TakesOffice(s.servers[r], o.server) { FreshTerm(s, r, input, o); }
  }

  /** A winner leads its term, or has left it. */
  lemma WinnerMoves(s: State, r: nat, input: Input, o: Outcome, win: Win)
    requires Moves(s, r, input, o) && WinKept(s, win)
    ensures var w := Settle(s, r, input, o).servers[win.rank];
      win.term <= w.term && (win.term == w.term ==> w.status == Leader)
  {
    assert ServerSound(s, r) && LogStep(s.servers[r], input, o);
  }

  lemma OldWinKept(s: State, r: nat, input: Input, o: Outcome, win: Win)
    requires Moves(s, r, input, o) && WinKept(s, win)
    ensures |Settle(s, r, input, o).servers| == s.n + 1 && WinKept(Settle(s, r, input, o), win)
  {
    assert ServerSound(s, r);
    WinnerMoves(s, r, input, o, win);
    if s.servers[r].status == o.server.status == Leader && o.server.term == win.term {
      AbsorbedSettle(s, r, input, o, win);
    } else {
      OtherWin(s, r, input, o, win);
    }
  }

  lemma NewWinKept(s: State, r: nat, input: Input, o: Outcome)
    requires Moves(s, r, input, o) && TakesOffice(s.servers[r], o.server)
    ensures |Settle(s, r, input, o).servers| == s.n + 1
    ensures WinKept(Settle(s, r, input, o), Settle(s, r, input, o).hist.wins[|s.hist.wins|])
  {
    assert ServerSound(s, r);
    FreshTerm(s, r, input, o);
  }

  /** The leader of a term absorbs the requests delivered to it, and nothing else. */
  lemma WinKeptSettle(s: State, r: nat, input: Input, o: Outcome, i: nat)
    requires Moves(s, r, input, o) && i < |Settle(s, r, input, o).hist.wins|
    ensures |Settle(s, r, input, o).servers| == s.n + 1
    ensures WinKept(Settle(s, r, input, o), Settle(s, r, input, o).hist.wins[i])
  {
    hide WinKept, LogStep;
    if i < |s.hist.wins| {
      assert WinKept(s, s.hist.wins[i]);
      OldWinKept(s, r, input, o, s.hist.wins[i]);
      assert Settle(s, r, input, o).hist.wins[i] == s.hist.wins[i];
    } else {
      NewWinKept(s, r, input, o);
    }
  }

  /** No other server writes the record of this leader's term. */
  lemma OtherReign(s: State, r: nat, input: Input, o: Outcome, q: nat)
    requires Moves(s, r, input, o) && IsServer(s, q) && q != r && s.servers[q].status == Leader
    ensures o.server.status == Leader ==> o.server.term != s.servers[q].term
  {
    assert LogKept(s, q) && LogKept(s, r);
    if TakesOffice(s.servers[r], o.server) { FreshTerm(s, r, input, o); }
  }

  lemma OtherLogKept(s: State, r: nat, input: Input, o: Outcome, q: nat)
    requires Moves(s, r, input, o) && IsServer(s, q) && q != r
    ensures LogKept(Settle(s, r, input, o), q)
  {
    assert LogKept(s, q);
    ReignGrows(s, r, input, o);
    WonByKept(s, r, input, o);
    AnchoredGrows(s.hist.reign, Settle(s, r, input, o).hist.reign, s.servers[q].log);
    if s.servers[q].status == Leader { OtherReign(s, r, input, o, q); }
  }

  lemma MatchedSettle(s: State, r: nat, input: Input, o: Outcome)
    requires Moves(s, r, input, o)
    ensures Matched(Settle(s, r, input, o))
  {
    var s' := Settle(s, r, input, o);
    forall i | 0 <= i < |s'.hist.wins| ensures WinKept(s', s'.hist.wins[i]) { WinKeptSettle(s, r, input, o, i); }
    forall q: nat | IsServer(s', q) ensures LogKept(s', q) {
      if q == r { LogKeptSettle(s, r, input, o); } else { OtherLogKept(s, r, input, o, q); }
    }
    forall t | t in s'.hist.reign ensures ReignKept(s'.hist, t) { ReignKeptSettle(s, r, input, o, t); }
    forall l, m | InFlight(s', l, m) ensures Quotes(s'.hist, l.src, m) { QuotesSettle(s, r, input, o, l, m); }
  }

  lemma MatchedMove(s: State, r: nat, input: Input)
    requires Matched(s) && IsServer(s, r) && Ready(s.servers[r], input) && InputSound(s, r, input)
    requires input.Receive? ==> Quotes(s.hist, input.src, input.msg)
    requires OneLeaderPerTerm(Move(s, r, input).hist)
    ensures Moves(s, r, input, React(s.servers[r], input)) && Matched(Move(s, r, input))
  {
    SoundMove(s, r, input);
    ReactLogStep(s.servers[r], input);
    MatchedSettle(s, r, input, React(s.servers[r], input));
  }

  lemma MatchedRemove(s: State, l: Link, i: nat)
    requires Matched(s) && Holds(s, l, i)
    ensures Matched(Remove(s, l, i))
  {
    var s' := Remove(s, l, i);
    SoundRemove(s, l, i);
    forall k, m | InFlight(s', k, m) ensures Quotes(s'.hist, k.src, m) {
      TakeMember(s.net, l, i, k, m);
      assert InFlight(s, k, m);
    }
    forall j | 0 <= j < |s'.hist.wins| ensures WinKept(s', s'.hist.wins[j]) { assert WinKept(s, s.hist.wins[j]); }
    forall r: nat | IsServer(s', r) ensures LogKept(s', r) { assert LogKept(s, r); }
  }

  lemma MatchedQuiet(s: State, s': State)
    requires Matched(s) && Sound(s') && s'.servers == s.servers && s'.hist == s.hist && s'.n == s.n
    requires forall l, m :: InFlight(s', l, m) ==> InFlight(s, l, m) || !m.AppendEntries?
    ensures Matched(s')
  {
    forall j | 0 <= j < |s'.hist.wins| ensures WinKept(s', s'.hist.wins[j]) { assert WinKept(s, s.hist.wins[j]); }
    forall r: nat | IsServer(s', r) ensures LogKept(s', r) { assert LogKept(s, r); }
  }

  lemma MatchedClientMove(s: State, c: nat, heard: Heard, resend: Option<nat>)
    requires Matched(s) && c in s.clients && s.clients[c].nextResponse < |s.clients[c].commands|
    requires HeardSound(s, c, heard) && (resend.Some? ==> IsServer(s, resend.value))
    ensures Matched(ClientMove(s, c, heard, resend))
  {
    var s' := ClientMove(s, c, heard, resend);
    var sent := Iterate(s.clients[c], heard, resend).sent;
    SoundClientMove(s, c, heard, resend);
    forall l, m | InFlight(s', l, m) ensures InFlight(s, l, m) || !m.AppendEntries? {
      PostMember(s.net, c, sent, l, m);
      if !InFlight(s, l, m) { ClientSends(s.clients[c], heard, resend, Envelope(l.dst, m)); }
    }
    MatchedQuiet(s, s');
  }

  lemma MatchedIteration(s: State, c: nat, from: Source, resend: Option<nat>)
    requires Matched(s) && Enabled(s, Iteration(c, from, resend))
    ensures Matched(Next(s, Iteration(c, from, resend)))
  {
    if from.FromServer? {
      var l := Link(from.src, c);
      assert InFlight(s, l, Queue(s.net, l)[from.i]);
      MatchedRemove(s, l, from.i);
      MatchedClientMove(Remove(s, l, from.i), c, Answer(Queue(s.net, l)[from.i]), resend);
    } else {
      MatchedClientMove(s, c, if from.Silence? then Nothing else Begin, resend);
    }
  }

  lemma MatchedNext(s: State, e: Event)
    requires Matched(s) && Enabled(s, e) && OneLeaderPerTerm(Next(s, e).hist)
    ensures Matched(Next(s, e))
  {
    hide OneLeaderPerTerm;
    match e
    case Deliver(src, dst, i) =>
      var l := Link(src, dst);
      assert InFlight(s, l, Queue(s.net, l)[i]);
      MatchedRemove(s, l, i);
      MatchedMove(Remove(s, l, i), dst, Receive(src, Queue(s.net, l)[i]));
    case Local(r, input) => MatchedMove(s, r, input);
    case Iteration(c, from, resend) => MatchedIteration(s, c, from, resend);
    case Lose(l, i) => MatchedRemove(s, l, i);
    case Duplicate(l, i) =>
      SoundDuplicate(s, l, i);
      MatchedQuiet(s, Next(s, e));
  }

  lemma EarlierWins(run: Run, k: nat)
    requires IsRun(run) && k < |run.states| && OneLeaderPerTerm(Last(run).hist)
    ensures OneLeaderPerTerm(run.states[k].hist)
  {
    WinsGrow(run, k);
    var a, b := run.states[k].hist.wins, Last(run).hist.wins;
    assert forall i :: 0 <= i < |a| ==> a[i] == b[i];
  }

  lemma MatchedAtFirst(s: State)
    requires Init(s)
    ensures Matched(s)
  {}

  lemma {:induction false} MatchedRun(run: Run, k: nat)
    requires IsRun(run) && k < |run.states| && OneLeaderPerTerm(Last(run).hist)
    ensures Matched(run.states[k])
  {
    hide Matched, OneLeaderPerTerm, Init, Enabled, Next;
    if k > 0 {
      MatchedRun(run, k - 1);
      EarlierWins(run, k);
      MatchedNext(run.states[k - 1], run.events[k - 1]);
    } else {
      MatchedAtFirst(run.states[0]);
    }
  }

  // ----- results

  /** Log matching: two logs with the same term at an index are identical through it. */
  lemma LogsMatch(run: Run, k: nat, a: nat, b: nat, i: nat)
    requires IsRun(run) && k < |run.states| && OneLeaderPerTerm(Last(run).hist)
    requires var s := run.states[k];
      && IsServer(s, a) && IsServer(s, b) && a < |s.servers| && b < |s.servers|
      && i < |s.servers[a].log| && i < |s.servers[b].log|
      && s.servers[a].log[i].term == s.servers[b].log[i].term
    ensures run.states[k].servers[a].log[..i + 1] == run.states[k].servers[b].log[..i + 1]
  {
    var s := run.states[k];
    MatchedRun(run, k);
    assert LogKept(s, a) && LogKept(s, b);
    AnchoredMatch(s.hist.reign, s.servers[a].log, s.servers[b].log);
    assert SameTermAt(s.servers[a].log, s.servers[b].log, i);
  }

  /** The record of every term only grows. */
  lemma ReignsNext(s: State, e: Event)
    requires Matched(s) && Enabled(s, e) && OneLeaderPerTerm(Next(s, e).hist)
    ensures Grows(s.hist.reign, Next(s, e).hist.reign)
  {
    hide OneLeaderPerTerm;
    match e
    case Deliver(src, dst, i) =>
      var l := Link(src, dst);
      assert InFlight(s, l, Queue(s.net, l)[i]);
      MatchedRemove(s, l, i);
      ReignsMove(Remove(s, l, i), dst, Receive(src, Queue(s.net, l)[i]));
    case Local(r, input) => ReignsMove(s, r, input);
    case _ =>
  }

  lemma ReignsMove(s: State, r: nat, input: Input)
    requires Matched(s) && IsServer(s, r) && Ready(s.servers[r], input) && InputSound(s, r, input)
    requires input.Receive? ==> Quotes(s.hist, input.src, input.msg)
    requires OneLeaderPerTerm(Move(s, r, input).hist)
    ensures Grows(s.hist.reign, Move(s, r, input).hist.reign)
  {
    MatchedMove(s, r, input);
    ReignGrows(s, r, input, React(s.servers[r], input));
  }

  lemma GrowsTwice(a: map<nat, Log>, b: map<nat, Log>, c: map<nat, Log>)
    requires Grows(a, b) && Grows(b, c)
    ensures Grows(a, c)
  {}

  lemma ReignsStep(run: Run, k: nat)
    requires IsRun(run) && 0 < k < |run.states| && OneLeaderPerTerm(Last(run).hist)
    ensures Grows(run.states[k - 1].hist.reign, run.states[k].hist.reign)
  {
    hide Matched, Grows, OneLeaderPerTerm;
    MatchedRun(run, k - 1);
    EarlierWins(run, k);
    ReignsNext(run.states[k - 1], run.events[k - 1]);
  }

  lemma {:induction false} ReignsRun(run: Run, j: nat, k: nat)
    requires IsRun(run) && j <= k < |run.states| && OneLeaderPerTerm(Last(run).hist)
    ensures Grows(run.states[j].hist.reign, run.states[k].hist.reign)
    decreases k
  {
    hide IsRun, OneLeaderPerTerm;
    if j < k {
      ReignsRun(run, j, k - 1);
      ReignsStep(run, k);
      GrowsTwice(run.states[j].hist.reign, run.states[k - 1].hist.reign, run.states[k].hist.reign);
    }
  }

  ghost predicate LeadsWith(s: State, r: nat, term: nat, log: Log) {
    IsServer(s, r) && r < |s.servers|
    && s.servers[r].status == Leader && s.servers[r].term == term && s.servers[r].log == log
  }

  /** Leader append-only: between any two states of the run in which a server leads one
      term, its log has only grown. */
  lemma LeaderAppendOnly(run: Run, j: nat, k: nat, r: nat, term: nat, before: Log, after: Log)
    requires IsRun(run) && j <= k < |run.states| && OneLeaderPerTerm(Last(run).hist)
    requires LeadsWith(run.states[j], r, term, before) && LeadsWith(run.states[k], r, term, after)
    ensures before <= after
  {
    MatchedRun(run, j);
    MatchedRun(run, k);
    assert LogKept(run.states[j], r) && LogKept(run.states[k], r);
    ReignsRun(run, j, k);
  }

  ghost predicate HadLeader(h: History, t: nat) {
    exists q :: WonBy(h.wins, t, q)
  }

  /** The entry at i stands in the log of a leader of its term, above the same entries. */
  ghost predicate Authored(h: History, log: Log, i: nat)
    requires i < |log|
  {
    HadLeader(h, log[i].term) && log[..i + 1] <= ReignOf(h, log[i].term)
  }

  /** The i-th entry of a message stands in the log of a leader of its term, at its index. */
  ghost predicate QuoteAuthored(h: History, m: Msg, i: nat)
    requires m.AppendEntries? && i < |m.entries|
  {
    var lead := ReignOf(h, m.entries[i].term);
    HadLeader(h, m.entries[i].term) && m.prev + 1 + i < |lead| && m.entries[i] == lead[m.prev + 1 + i]
  }

  /** Authorship: an entry of term t, in a log or in an AppendEntries under way, stands at
      the same index in the log of a server that led t; the record of a term is the log of
      its leader as long as that server leads it. */
  lemma Authorship(run: Run, k: nat)
    requires IsRun(run) && k < |run.states| && OneLeaderPerTerm(Last(run).hist)
    ensures var s := run.states[k];
      && |s.servers| == s.n + 1
      && (forall r: nat, i :: IsServer(s, r) && 0 <= i < |s.servers[r].log| ==>
            Authored(s.hist, s.servers[r].log, i))
      && (forall l, m, i :: InFlight(s, l, m) && m.AppendEntries? && 0 <= i < |m.entries| ==>
            QuoteAuthored(s.hist, m, i))
      && (forall r: nat :: IsServer(s, r) && s.servers[r].status == Leader ==>
            ReignOf(s.hist, s.servers[r].term) == s.servers[r].log)
  {
    var s := run.states[k];
    MatchedRun(run, k);
    forall r: nat, i | IsServer(s, r) && 0 <= i < |s.servers[r].log|
      ensures Authored(s.hist, s.servers[r].log, i)
    {
      assert LogKept(s, r) && AnchoredAt(s.hist.reign, s.servers[r].log, i);
      assert ReignKept(s.hist, s.servers[r].log[i].term);
    }
    forall l, m, i | InFlight(s, l, m) && m.AppendEntries? && 0 <= i < |m.entries|
      ensures QuoteAuthored(s.hist, m, i)
    {
      EntryAuthor(s, l, m, i);
    }
    forall r: nat | IsServer(s, r) && s.servers[r].status == Leader
      ensures ReignOf(s.hist, s.servers[r].term) == s.servers[r].log
    {
      assert LogKept(s, r);
    }
  }

  lemma EntryAuthor(s: State, l: Link, m: Msg, i: nat)
    requires Matched(s) && InFlight(s, l, m) && m.AppendEntries? && i < |m.entries|
    ensures QuoteAuthored(s.hist, m, i)
  {
    assert Quotes(s.hist, l.src, m) && ReignKept(s.hist, m.term);
    var own := s.hist.reign[m.term];
    var j := m.prev + 1 + i;
    assert m.entries[i] == own[j];
    assert AnchoredAt(s.hist.reign, own, j);
    assert own[..j + 1][j] == own[j];
    assert ReignKept(s.hist, own[j].term);
  }

  /** The terms in a log never decrease and never exceed the server's term. */
  lemma SortedLogs(run: Run, k: nat, r: nat)
    requires IsRun(run) && k < |run.states| && OneLeaderPerTerm(Last(run).hist)
    requires IsServer(run.states[k], r)
    ensures r < |run.states[k].servers|
    ensures Sorted(run.states[k].servers[r].log, run.states[k].servers[r].term)
  {
    MatchedRun(run, k);
    assert LogKept(run.states[k], r);
  }

  /** Retransmissions are absorbed: the log of a leader is its log on taking office followed
      by the delivered requests, each key once, at its first delivery. */
  lemma RetransmissionsAbsorbed(run: Run, k: nat, i: nat)
    requires IsRun(run) && k < |run.states| && OneLeaderPerTerm(Last(run).hist)
    requires var s := run.states[k];
      i < |s.hist.wins| && s.hist.wins[i].rank < |s.servers|
      && s.servers[s.hist.wins[i].rank].status == Leader
      && s.servers[s.hist.wins[i].rank].term == s.hist.wins[i].term
    ensures var s := run.states[k]; var w := s.hist.wins[i];
      s.servers[w.rank].log == w.log + FirstOccurrences(w.log, StreamOf(s.hist, w.term), w.term)
  {
    var s := run.states[k];
    MatchedRun(run, k);
    assert WinKept(s, s.hist.wins[i]) && LogKept(s, s.hist.wins[i].rank);
  }
}
