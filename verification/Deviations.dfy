/** Where the code departs from the rules its comments quote: what goes wrong, and exactly
    when it does not. */
module Deviations {
  import opened LogEntries
  import opened Messages
  import opened RaftServer
  import opened CommitRule
  import opened CatchUp
  import opened Elections

  // ----- the reply to a heartbeat reports the follower's whole log

  /** After an accepted heartbeat the leader believes that the follower holds `match_index`
      as it does itself. That is true exactly when the follower's log is a prefix of its own. */
  lemma HeartbeatClaimIsSoundIff(lead: Server, fol: Server)
    requires Pair(lead, fol) && lead.next[fol.rank] <= |lead.log|
    requires lead.next[fol.rank] <= CommonPrefix(lead.log, fol.log)
    ensures var o := OnRpc(fol, HeartbeatFor(lead, fol.rank));
      var lead' := Answering(lead, fol.rank, o); var q := fol.rank;
      && o.server.log == fol.log && |lead'.matched| == |lead.matched| && |lead'.next| == |lead.next|
      && lead'.matched[q] == |fol.log| - 1 && lead'.next[q] == |fol.log|
      && (lead'.matched[q] + 1 <= CommonPrefix(lead.log, fol.log) <==> fol.log <= lead.log)
  {
    hide Matching, Quorum;
    AgreedBelow(lead, fol);
    if |fol.log| <= |lead.log| { CommonPrefixIsLongest(lead.log, fol.log, |fol.log|); }
    assert fol.log[..|fol.log|] == fol.log;
  }

  // ----- an AppendEntries truncates even where its entries merely ran out

  /** The message carries a stretch of this log, and names the term before it truly. */
  predicate Stretch(lead: Log, m: Msg) {
    && m.AppendEntries? && m.entries != [] && End(m) <= |lead|
    && m.entries == lead[m.prev + 1..End(m)] && m.prevTerm == TermAt(lead, m.prev)
  }

  /** An accepted stretch of a matching leader log shortens the follower's log exactly when
      it ends before that log does, whether or not anything conflicts. */
  lemma TruncatesIffShorter(v: Server, lead: Log, m: Msg)
    requires v.alive && DistinctKeys(lead) && Matching(lead, v.log)
    requires Stretch(lead, m) && v.term <= m.term && Fits(v, m)
    ensures var w := OnRpc(v, m).server;
      w.log == lead[..End(m)] && (|w.log| < |v.log| <==> End(m) < |v.log|)
  {
    SpliceIsPrefixOf(v.log, lead, m.prev, End(m));
  }

  /** An entry to be stored after position prev meets one of another term in the log. */
  predicate Conflict(log: Log, prev: Index, entries: Log) {
    var k := Agreement(log, prev + 1, entries);
    k < |entries| && prev + 1 + k < |log|
  }

  /** The log by the rule in the comments: delete from the first conflict on, if there is one,
      and append what is not there yet. */
  function Commented(log: Log, prev: Index, entries: Log): Log
    requires prev < |log|
  {
    if Conflict(log, prev, entries) then Absorb(log[..prev + 1 + Agreement(log, prev + 1, entries)], entries)
    else Absorb(log, entries)
  }

  /** What is there already is not appended again. */
  lemma {:induction false} AbsorbsNothing(log: Log, entries: Log)
    requires forall e :: e in entries ==> Has(log, e)
    ensures Absorb(log, entries) == log
    decreases |entries|
  {
    if entries != [] {
      AbsorbsNothing(log, entries[..|entries| - 1]);
      assert entries[|entries| - 1] in entries;
    }
  }

  /** Entries that agree to the last are in the log. */
  lemma AgreedAreThere(log: Log, lead: Log, from: nat, end: nat)
    requires from <= end <= |log| && end <= |lead| && log[..end] == lead[..end]
    ensures forall e :: e in lead[from..end] ==> Has(log, e)
  {
    forall e | e in lead[from..end] ensures Has(log, e) {
      var i :| from <= i < end && lead[i] == e;
      assert log[..end][i] == lead[..end][i];
      assert SameKey(log[i], e);
    }
  }

  /** If all entries agree, the comments ask for no change and the code erases what follows. */
  lemma AllAgree(log: Log, lead: Log, prev: Index, end: nat)
    requires DistinctKeys(lead) && Matching(lead, log) && prev < |log| && prev + 1 < end <= |lead|
    requires TermAt(log, prev) == TermAt(lead, prev)
    requires Agreement(log, prev + 1, lead[prev + 1..end]) == end - (prev + 1)
    ensures end <= |log| && Splice(log, prev, lead[prev + 1..end]) == lead[..end] == log[..end]
    ensures Commented(log, prev, lead[prev + 1..end]) == log && !Conflict(log, prev, lead[prev + 1..end])
  {
    hide Absorb, Agreement, Has, Splice, Matching, DistinctKeys;
    MatchingBelow(lead, log, prev);
    AgreementMatches(log, lead, prev + 1, end);
    SpliceIsPrefixOf(log, lead, prev, end);
    AgreedAreThere(log, lead, prev + 1, end);
    AbsorbsNothing(log, lead[prev + 1..end]);
  }

  lemma SomeDisagree(log: Log, prev: Index, entries: Log)
    requires entries != [] && prev < |log| && Agreement(log, prev + 1, entries) < |entries|
    ensures Commented(log, prev, entries) == Splice(log, prev, entries)
    ensures Conflict(log, prev, entries) || |log| <= prev + 1 + |entries|
  {
    hide Absorb, Agreement;
    var kept := prev + 1 + Agreement(log, prev + 1, entries);
    if !Conflict(log, prev, entries) { assert log[..kept] == log; }
  }

  /** The code leaves the log that the comments ask for exactly when there is a conflict or the
      message does not end before the log does. */
  lemma TruncatesAsCommentedIff(v: Server, lead: Log, m: Msg)
    requires v.alive && DistinctKeys(lead) && Matching(lead, v.log)
    requires Stretch(lead, m) && v.term <= m.term && Fits(v, m)
    ensures OnRpc(v, m).server.log == Commented(v.log, m.prev, m.entries) <==>
              Conflict(v.log, m.prev, m.entries) || |v.log| <= End(m)
  {
    hide OnRpc, Splice, Commented, Conflict, Absorb, Agreement, Matching, DistinctKeys;
    SplicedLog(v, m);
    if Agreement(v.log, m.prev + 1, m.entries) == |m.entries| {
      AllAgree(v.log, lead, m.prev, End(m));
      assert v.log[..|v.log|] == v.log;
    } else {
      SomeDisagree(v.log, m.prev, m.entries);
    }
  }

  lemma SplicedLog(v: Server, m: Msg)
    requires v.alive && m.AppendEntries? && v.term <= m.term && Fits(v, m)
    ensures OnRpc(v, m).server.log == Splice(v.log, m.prev, m.entries)
  {}

  lemma TakesStretch(v: Server, lead: Log, m: Msg)
    requires v.alive && DistinctKeys(lead) && Matching(lead, v.log)
    requires Stretch(lead, m) && v.term <= m.term && Fits(v, m)
    ensures var o := OnRpc(v, m); var w := o.server;
      && o.sent == [Envelope(m.leader, AppendResponse(m.term, true, v.rank, End(m) - 1))]
      && w.log == lead[..End(m)] && Matching(lead, w.log) && w.alive && w.term == m.term && w.rank == v.rank
  {
    TruncatesIffShorter(v, lead, m);
    Handles(v, m, true, lead[..End(m)]);
  }

  /** A follower that takes two stretches of one leader's log, each accepted and answered
      with success, still holds all it acknowledged exactly when the second does not end
      before the first: one that was overtaken on its way undoes what was reported. */
  lemma AcknowledgedKeptIff(v: Server, lead: Log, first: Msg, second: Msg)
    requires v.alive && DistinctKeys(lead) && Matching(lead, v.log)
    requires Stretch(lead, first) && v.term <= first.term && Fits(v, first)
    requires Stretch(lead, second) && second.term == first.term && second.prev < End(first)
    ensures var o1 := OnRpc(v, first); var o2 := OnRpc(o1.server, second); var w := o2.server;
      && o1.sent == [Envelope(first.leader, AppendResponse(first.term, true, v.rank, End(first) - 1))]
      && o2.sent == [Envelope(second.leader, AppendResponse(first.term, true, v.rank, End(second) - 1))]
      && w.log == lead[..End(second)]
      && (End(first) - 1 < |w.log| <==> End(first) <= End(second))
  {
    hide OnRpc;
    var u := OnRpc(v, first).server;
    TakesStretch(v, lead, first);
    assert Fits(u, second);
    TakesStretch(u, lead, second);
  }

  // ----- the commit index may fall, and may point past the log

  /** An accepted AppendEntries lowers the commit index exactly when the leader's exceeds it
      and the log it leaves ends before it; and it leaves a commit index past the log exactly
      when it truncates below the commit index without the leader's exceeding that. */
  lemma CommitFallsIff(v: Server, m: Msg)
    requires m.AppendEntries? && v.alive && v.term <= m.term && Fits(v, m)
    ensures var w := OnRpc(v, m).server;
      && (w.commit < v.commit <==> |w.log| <= v.commit < m.leaderCommit)
      && (w.commit >= |w.log| <==> |w.log| <= v.commit && m.leaderCommit <= v.commit)
  {}

  // ----- the commit rule omits the term test of its comment

  /** An index the comment allows: beyond the commit index, held by a quorum, of this term. */
  ghost predicate Eligible(v: Server, N: Index)
    requires Indexed(v)
  {
    v.commit < N < |v.log| && Quorum(v.matched, v.peers, v.rank, N) && v.log[N].term == v.term
  }

  /** The outcome of the rule in the comment: the greatest eligible index, if any. */
  ghost predicate AsCommented(v: Server, r: Index)
    requires Indexed(v)
  {
    && (r == v.commit || Eligible(v, r))
    && forall N: Index :: r < N ==> !Eligible(v, N)
  }

  /** The code follows its comment exactly when the greatest index beyond the commit index
      that a quorum holds, if there is one, carries an entry of the leader's own term. */
  lemma CommitRuleFollowsCommentIff(v: Server)
    requires Indexed(v) && 1 <= v.rank <= v.peers && v.matched[v.rank] == -1
    ensures var r := Replicate(v).server.commit;
      AsCommented(v, r) <==>
        forall N: Index :: v.commit < N < |v.log| && Quorum(v.matched, v.peers, v.rank, N)
          && (forall M: Index :: N < M < |v.log| ==> !Quorum(v.matched, v.peers, v.rank, M))
          ==> v.log[N].term == v.term
  {
    CommitIsMaximal(v.commit, |v.log|, v.matched, v.peers, v.rank);
  }

  // ----- a vote is not cast once per term

  /** A live server answers a request of its own term with its vote exactly when it is not
      campaigning, the candidate's log is at least as up to date as its own, and it has not
      voted for someone else since its vote was last cleared - which winning or losing the
      term as a candidate also does. */
  lemma VoteGrantedIff(v: Server, cand: Server)
    requires v.alive && v.term == cand.term && cand.rank > 0
    ensures OnRpc(v, MessageFor(cand, Ballot, 0)[0]).sent == [Envelope(cand.rank, VoteResponse(v.term,
      v.status != Candidate && AtLeastAsUpToDate(cand.log, v.log) && (v.votedFor == 0 || v.votedFor == cand.rank)))]
  {}
}
