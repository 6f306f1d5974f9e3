/** Log entries, the equality the code searches by, and the in-place splice that a
    follower performs on its log. */
module LogEntries {

  datatype Entry = Entry(term: nat, command: string, client: nat, serial: nat)

  type Log = seq<Entry>

  /** A log position; -1 stands for "before the first entry". */
  type Index = i: int | -1 <= i witness -1

  /** The source's `operator==`: the term and the command are not compared. */
  predicate SameKey(a: Entry, b: Entry) {
    a.client == b.client && a.serial == b.serial
  }

  /** `std::find(log.begin(), log.end(), e) != log.end()` */
  predicate Has(log: Log, e: Entry) {
    exists i :: 0 <= i < |log| && SameKey(log[i], e)
  }

  predicate SameKeyAt(log: Log, i: nat, j: nat)
    requires i < |log| && j < |log|
  {
    SameKey(log[i], log[j])
  }

  predicate DistinctKeys(log: Log) {
    forall i, j :: 0 <= i < j < |log| ==> !SameKeyAt(log, i, j)
  }

  function LastIndex(log: Log): Index { |log| - 1 }

  function LastTerm(log: Log): int {
    if log == [] then -1 else log[|log| - 1].term
  }

  function TermAt(log: Log, i: Index): int
    requires i < |log|
  {
    if i >= 0 then log[i].term else -1
  }

  /** How many leading `entries` carry the terms that `log` has from position `at` on. */
  function Agreement(log: Log, at: nat, entries: Log): (k: nat)
    ensures k <= |entries| && (at <= |log| ==> at + k <= |log|)
    decreases |entries|
  {
    if at < |log| && entries != [] && log[at].term == entries[0].term
    then 1 + Agreement(log, at + 1, entries[1..])
    else 0
  }

  /** Appends, in order, the entries whose key the growing log does not hold yet. */
  function Absorb(log: Log, entries: Log): Log
    decreases |entries|
  {
    if entries == [] then log
    else
      var shorter := Absorb(log, entries[..|entries| - 1]);
      var e := entries[|entries| - 1];
      if Has(shorter, e) then shorter else shorter + [e]
  }

  /** What an accepted AppendEntries does to a log: skip the entries that agree by term,
      erase the rest of the log, append every entry not found by key. */
  function Splice(log: Log, prev: Index, entries: Log): Log
    requires prev < |log|
  {
    if entries == [] then log
    else Absorb(log[..prev + 1 + Agreement(log, prev + 1, entries)], entries)
  }

  /** Two logs that agree on the term at a position agree up to that position. */
  ghost predicate Matching(a: Log, b: Log) {
    forall i :: SameTermAt(a, b, i) ==> a[..i + 1] == b[..i + 1]
  }

  predicate SameTermAt(a: Log, b: Log, i: int) {
    0 <= i < |a| && i < |b| && a[i].term == b[i].term
  }

  /** The first position from i on where the logs differ or one of them ends. */
  function CommonFrom(a: Log, b: Log, i: nat): (k: nat)
    ensures k == i || (i < k <= |a| && k <= |b|)
    decreases |a| - i
  {
    if i < |a| && i < |b| && a[i] == b[i] then CommonFrom(a, b, i + 1) else i
  }

  /** The length of the longest common prefix. */
  function CommonPrefix(a: Log, b: Log): nat {
    CommonFrom(a, b, 0)
  }

  lemma {:induction false} CommonFromIsLongest(a: Log, b: Log, i: nat, k: nat)
    requires i <= k <= |a| && k <= |b| && a[..i] == b[..i]
    ensures k <= CommonFrom(a, b, i) <==> a[..k] == b[..k]
    decreases k - i
  {
    if i < k {
      assert a[..k][i] == a[i] && b[..k][i] == b[i];
      if a[i] == b[i] {
        PrefixSnoc(a, i + 1);
        PrefixSnoc(b, i + 1);
        CommonFromIsLongest(a, b, i + 1, k);
      }
    }
  }

  lemma CommonPrefixIsLongest(a: Log, b: Log, k: nat)
    requires k <= |a| && k <= |b|
    ensures k <= CommonPrefix(a, b) <==> a[..k] == b[..k]
  {
    CommonFromIsLongest(a, b, 0, k);
  }

  lemma KeyOnce(log: Log, i: nat, j: nat)
    requires DistinctKeys(log) && i < |log| && j < |log| && SameKey(log[i], log[j])
    ensures i == j
  {
    assert SameKeyAt(log, i, j) && SameKeyAt(log, j, i);
  }

  lemma DistinctSnoc(log: Log, e: Entry)
    requires DistinctKeys(log) && !Has(log, e)
    ensures DistinctKeys(log + [e])
  {
    var more := log + [e];
    forall i, j | 0 <= i < j < |more| ensures !SameKeyAt(more, i, j) {
      if j < |log| { assert !SameKeyAt(log, i, j); }
    }
  }

  lemma DistinctPrefix(log: Log, k: nat)
    requires DistinctKeys(log) && k <= |log|
    ensures DistinctKeys(log[..k])
  {
    forall i, j | 0 <= i < j < k ensures !SameKeyAt(log[..k], i, j) {
      assert !SameKeyAt(log, i, j);
    }
  }

  lemma {:induction false} AbsorbDistinct(log: Log, entries: Log)
    requires DistinctKeys(log)
    ensures DistinctKeys(Absorb(log, entries))
    ensures log <= Absorb(log, entries)
    decreases |entries|
  {
    if entries != [] {
      var shorter, e := Absorb(log, entries[..|entries| - 1]), entries[|entries| - 1];
      AbsorbDistinct(log, entries[..|entries| - 1]);
      if !Has(shorter, e) { DistinctSnoc(shorter, e); }
    }
  }

  /** A splice invents no entry. */
  lemma {:induction false} AbsorbFrom(log: Log, entries: Log, e: Entry)
    requires e in Absorb(log, entries)
    ensures e in log || e in entries
    decreases |entries|
  {
    if entries != [] && e in Absorb(log, entries[..|entries| - 1]) {
      AbsorbFrom(log, entries[..|entries| - 1], e);
    }
  }

  lemma SpliceFrom(log: Log, prev: Index, entries: Log, e: Entry)
    requires prev < |log| && e in Splice(log, prev, entries)
    ensures e in log || e in entries
  {
    if entries != [] {
      AbsorbFrom(log[..prev + 1 + Agreement(log, prev + 1, entries)], entries, e);
    }
  }

  /** A splice never creates two entries with one key, whatever it is given. */
  lemma SpliceDistinct(log: Log, prev: Index, entries: Log)
    requires prev < |log| && DistinctKeys(log)
    ensures DistinctKeys(Splice(log, prev, entries))
  {
    if entries != [] {
      var k := prev + 1 + Agreement(log, prev + 1, entries);
      DistinctPrefix(log, k);
      AbsorbDistinct(log[..k], entries);
    }
  }

  /** The walk stops exactly where the terms first differ or one of the two ends. */
  lemma {:induction false} AgreementIsLongest(log: Log, at: nat, entries: Log)
    ensures var k := Agreement(log, at, entries);
      && (forall i :: 0 <= i < k ==> at + i < |log| && log[at + i].term == entries[i].term)
      && (k < |entries| && at + k < |log| ==> log[at + k].term != entries[k].term)
    decreases |entries|
  {
    if at < |log| && entries != [] && log[at].term == entries[0].term {
      var rest := Agreement(log, at + 1, entries[1..]);
      AgreementIsLongest(log, at + 1, entries[1..]);
      forall i | 0 <= i < 1 + rest ensures at + i < |log| && log[at + i].term == entries[i].term {
        if i > 0 { assert entries[1..][i - 1] == entries[i] && log[at + 1 + (i - 1)] == log[at + i]; }
      }
    }
  }

  /** A key is in the result exactly if it is in the log or among the entries. */
  lemma {:induction false} AbsorbHas(log: Log, entries: Log, e: Entry)
    ensures Has(Absorb(log, entries), e) <==> Has(log, e) || Has(entries, e)
    decreases |entries|
  {
    if entries != [] {
      var init, last := entries[..|entries| - 1], entries[|entries| - 1];
      AbsorbHas(log, init, e);
      AbsorbHas(log, init, last);
      assert entries == init + [last];
      HasSnoc(init, last, e);
      HasSnoc(Absorb(log, init), last, e);
      if SameKey(last, e) { HasSame(Absorb(log, init), last, e); }
    }
  }

  lemma HasSnoc(log: Log, last: Entry, e: Entry)
    ensures Has(log + [last], e) <==> Has(log, e) || SameKey(last, e)
  {
    var more := log + [last];
    assert more[|log|] == last;
    if Has(log, e) {
      var i :| 0 <= i < |log| && SameKey(log[i], e);
      assert more[i] == log[i];
    }
  }

  lemma HasSame(log: Log, a: Entry, b: Entry)
    requires SameKey(a, b)
    ensures Has(log, a) <==> Has(log, b)
  {}

  /** Neither the log nor an earlier entry has the key of entry n. */
  predicate IsNew(log: Log, entries: Log, n: nat)
    requires n < |entries|
  {
    !Has(log, entries[n]) && !Has(entries[..n], entries[n])
  }

  /** The positions of the new entries, in order. */
  ghost predicate News(log: Log, entries: Log, picks: seq<nat>) {
    && (forall i :: 0 <= i < |picks| ==> picks[i] < |entries| && IsNew(log, entries, picks[i]))
    && (forall i, j :: 0 <= i < j < |picks| ==> picks[i] < picks[j])
    && (forall n :: 0 <= n < |entries| && IsNew(log, entries, n) ==> n in picks)
  }

  lemma NewsNext(log: Log, entries: Log, picks: seq<nat>, last: nat)
    requires |entries| == last + 1 && News(log, entries[..last], picks)
    ensures News(log, entries, if IsNew(log, entries, last) then picks + [last] else picks)
  {
    hide IsNew;
    forall n | 0 <= n < last ensures IsNew(log, entries, n) <==> IsNew(log, entries[..last], n) {
      IsNewBefore(log, entries, last, n);
    }
    assert last in picks + [last];
  }

  lemma IsNewBefore(log: Log, entries: Log, last: nat, n: nat)
    requires n < last <= |entries|
    ensures IsNew(log, entries, n) <==> IsNew(log, entries[..last], n)
  {
    assert entries[..last][..n] == entries[..n];
  }

  /** The entries at these positions, and nothing else, follow the log. */
  ghost predicate Adds(log: Log, entries: Log, picks: seq<nat>, more: Log) {
    && |more| == |log| + |picks| && more[..|log|] == log
    && forall i :: 0 <= i < |picks| ==> picks[i] < |entries| && more[|log| + i] == entries[picks[i]]
  }

  lemma AddsNext(log: Log, entries: Log, picks: seq<nat>, more: Log, last: nat)
    requires |entries| == last + 1 && Adds(log, entries[..last], picks, more)
    ensures Adds(log, entries, picks, more)
    ensures Adds(log, entries, picks + [last], more + [entries[last]])
  {
    assert (more + [entries[last]])[..|log|] == more[..|log|];
  }

  /** What is appended to any log: the entries that are new, each once, in their order. */
  lemma {:induction false} AbsorbPicks(log: Log, entries: Log) returns (picks: seq<nat>)
    ensures News(log, entries, picks)
    ensures Adds(log, entries, picks, Absorb(log, entries))
    decreases |entries|
  {
    hide Has, News, Adds;
    if entries == [] {
      picks := [];
      NothingNew(log);
    } else {
      var last := |entries| - 1;
      picks := AbsorbPicks(log, entries[..last]);
      AbsorbHas(log, entries[..last], entries[last]);
      NewsNext(log, entries, picks, last);
      AddsNext(log, entries, picks, Absorb(log, entries[..last]), last);
      if IsNew(log, entries, last) { picks := picks + [last]; }
    }
  }

  lemma NothingNew(log: Log)
    ensures News(log, [], []) && Adds(log, [], [], log)
  {}

  /** What a splice does to any log: nothing without entries; with entries it keeps the log
      through the longest stretch that agrees with them by term, and appends those that are new
      to what it kept. */
  lemma SpliceMeans(log: Log, prev: Index, entries: Log) returns (k: nat, picks: seq<nat>)
    requires prev < |log|
    ensures entries == [] ==> Splice(log, prev, entries) == log
    ensures entries != [] ==> var cut := prev + 1 + k; var spliced := Splice(log, prev, entries);
      && k <= |entries| && cut <= |log|
      && (forall i :: 0 <= i < k ==> log[prev + 1 + i].term == entries[i].term)
      && (k < |entries| && cut < |log| ==> log[cut].term != entries[k].term)
      && News(log[..cut], entries, picks) && Adds(log[..cut], entries, picks, spliced)
  {
    hide News, Adds, Agreement, Absorb;
    k := Agreement(log, prev + 1, entries);
    AgreementIsLongest(log, prev + 1, entries);
    picks := AbsorbPicks(log[..prev + 1 + k], entries);
  }

  lemma StretchInit(s: Log, from: nat, end: nat)
    requires from < end <= |s|
    ensures s[from..end][..end - from - 1] == s[from..end - 1] && s[from..end][end - from - 1] == s[end - 1]
  {}

  lemma PrefixSnoc(s: Log, end: nat)
    requires 0 < end <= |s|
    ensures s[..end] == s[..end - 1] + [s[end - 1]]
  {}

  /** Absorbing a stretch of `whole` into a prefix of `whole` that reaches the stretch
      extends the prefix to the end of the stretch. */
  lemma {:induction false} AbsorbStretch(whole: Log, k: nat, from: nat, end: nat)
    requires DistinctKeys(whole)
    requires from <= k <= |whole| && from <= end <= |whole|
    ensures Absorb(whole[..k], whole[from..end]) == whole[..if k <= end then end else k]
    decreases end
  {
    if from < end {
      StretchInit(whole, from, end);
      AbsorbStretch(whole, k, from, end - 1);
      AbsorbNext(whole, if k <= end - 1 then end - 1 else k, end);
    }
  }

  /** The next entry of `whole` is found in a prefix that holds it, and in no shorter one. */
  lemma AbsorbNext(whole: Log, size: nat, end: nat)
    requires DistinctKeys(whole) && 0 < end <= |whole| && end - 1 <= size <= |whole|
    ensures (if Has(whole[..size], whole[end - 1]) then whole[..size] else whole[..size] + [whole[end - 1]])
            == whole[..if size < end then end else size]
  {
    var e := whole[end - 1];
    if size < end {
      PrefixSnoc(whole, end);
      if Has(whole[..size], e) {
        var i :| 0 <= i < size && SameKey(whole[..size][i], e);
        KeyOnce(whole, i, end - 1);
      }
    } else {
      assert whole[..size][end - 1] == whole[end - 1];
    }
  }

  /** Positions that agree by term, in matching logs, agree entirely. */
  lemma {:induction false} AgreementMatches(log: Log, whole: Log, at: nat, end: nat)
    requires Matching(whole, log)
    requires at <= end <= |whole| && at <= |log| && whole[..at] == log[..at]
    ensures var k := at + Agreement(log, at, whole[at..end]);
            k <= end && k <= |log| && log[..k] == whole[..k]
    decreases end - at
  {
    var entries := whole[at..end];
    if at < |log| && entries != [] && log[at].term == entries[0].term {
      assert entries[1..] == whole[at + 1..end];
      assert SameTermAt(whole, log, at);
      AgreementMatches(log, whole, at + 1, end);
    }
  }

  lemma MatchingBelow(whole: Log, log: Log, prev: Index)
    requires Matching(whole, log) && prev < |log| && prev < |whole|
    requires TermAt(log, prev) == TermAt(whole, prev)
    ensures whole[..prev + 1] == log[..prev + 1]
  {
    if prev >= 0 { assert SameTermAt(whole, log, prev); }
  }

  /** The splice, run with a stretch of a leader's log on a log that matches it, leaves
      exactly the leader's log up to the end of the stretch. */
  lemma SpliceIsPrefixOf(log: Log, whole: Log, prev: Index, end: nat)
    requires DistinctKeys(whole) && Matching(whole, log)
    requires prev < |log| && prev + 1 < end <= |whole|
    requires TermAt(log, prev) == TermAt(whole, prev)
    ensures Splice(log, prev, whole[prev + 1..end]) == whole[..end]
  {
    MatchingBelow(whole, log, prev);
    AgreementMatches(log, whole, prev + 1, end);
    var k := prev + 1 + Agreement(log, prev + 1, whole[prev + 1..end]);
    AbsorbStretch(whole, k, prev + 1, end);
  }

  lemma HasInPrefix(a: Log, b: Log, e: Entry)
    requires a <= b && Has(a, e)
    ensures Has(b, e)
  {
    var i :| 0 <= i < |a| && SameKey(a[i], e);
    assert b[i] == a[i];
  }
}
