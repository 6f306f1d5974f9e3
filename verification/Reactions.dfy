/** What each input does to a server, case by case. */
module Reactions {
  // The handlers compose the term rule, role conversions and mail rounds; here each input is
  // described without them, by what is seen of the server and its mail.
  import opened LogEntries
  import opened Messages
  import opened RaftServer

  // ----- terms and roles

  /** A live server ends every RPC in the newer of the two terms; a newer term makes it a
      follower whose vote is free, or given to the candidate whose ballot brought it. */
  lemma TermRule(v: Server, m: Msg)
    requires m.IsRpc() && Readable(v, m) && v.alive
    ensures var w := OnRpc(v, m).server;
      && w.term == (if m.term > v.term then m.term else v.term)
      && (m.term > v.term ==>
            && w.status == Follower
            && w.votedFor == if m.RequestVote? && UpToDate(m.lastIndex, m.lastTerm, v.log) then m.candidate else 0)
      && (m.term <= v.term && w.status != v.status ==>
            v.status == Candidate && if m.AppendEntries? then m.term == v.term && w.status == Follower
                                     else m.VoteResponse? && w.status == Leader)
  {
    hide Fanout, Splice;
  }

  /** A crashed server answers nobody and forgets nothing. */
  lemma CrashedIsSilent(v: Server, src: nat, m: Msg)
    requires !v.alive && Readable(v, m)
    ensures React(v, Receive(src, m)) == Outcome(v, [])
  {}

  // ----- AppendEntries and its answer

  /** An AppendEntries of an older term is refused and changes nothing, whatever the role. */
  lemma StaleAppend(v: Server, m: Msg)
    requires v.alive && m.AppendEntries? && m.term < v.term
    ensures OnRpc(v, m) == Outcome(v, [Envelope(m.leader, AppendResponse(v.term, false, v.rank, |v.log| - 1))])
  {}

  /** The log has the entry before those of the message, under the term that the message gives. */
  predicate HasPrevious(log: Log, m: Msg)
    requires m.AppendEntries?
  {
    m.prev < |log| && m.prevTerm == if m.prev == -1 then -1 else log[m.prev].term
  }

  /** Any other ends a candidacy of its term with a free vote, and is answered once: with
      success and the splice if the previous entry is there, else with the log as it was. The
      commit index follows the leader's as far as the log goes, and never of itself back. */
  lemma CurrentAppend(v: Server, m: Msg)
    requires v.alive && m.AppendEntries? && v.term <= m.term
    ensures var o := OnRpc(v, m); var w := o.server; var demoted := v.term < m.term || v.status == Candidate;
      && w == v.(term := m.term, log := w.log, commit := w.commit,
                 status := if demoted then Follower else v.status, votedFor := if demoted then 0 else v.votedFor)
      && o.sent == [Envelope(m.leader, AppendResponse(m.term, HasPrevious(v.log, m), v.rank, |w.log| - 1))]
      && (if HasPrevious(v.log, m) then w.log == Splice(v.log, m.prev, m.entries) else w.log == v.log)
      && (!HasPrevious(v.log, m) || m.leaderCommit <= v.commit ==> w.commit == v.commit)
      && (HasPrevious(v.log, m) && m.leaderCommit > v.commit ==>
            w.commit <= m.leaderCommit && w.commit < |w.log| && (w.commit == m.leaderCommit || w.commit == |w.log| - 1))
  {
    hide Splice;
  }

  /** The answer of a follower: a success sets its two slots to what it holds, a refusal moves
      `next_index` back by one as long as it can, wherever it stood. Nothing is sent, and
      nothing else changes but what a newer term does. */
  lemma AnswerMovesSlots(v: Server, m: Msg)
    requires v.alive && m.AppendResponse? && m.follower < |v.next| == |v.matched|
    ensures var o := OnRpc(v, m); var w := o.server; var f := m.follower;
      && o.sent == [] && w == v.(term := w.term, status := w.status, votedFor := w.votedFor,
                                 next := w.next, matched := w.matched)
      && (m.term <= v.term ==> w == v.(next := w.next, matched := w.matched))
      && |w.next| == |v.next| && |w.matched| == |v.matched|
      && (forall q :: 0 <= q < |v.next| && q != f ==> w.next[q] == v.next[q] && w.matched[q] == v.matched[q])
      && (m.success ==> w.matched[f] == m.lastIndex && w.next[f] == m.lastIndex + 1)
      && (!m.success ==> w.matched[f] == v.matched[f] && w.next[f] <= v.next[f]
                         && (v.next[f] > 0 ==> w.next[f] + 1 == v.next[f]))
  {}

  // ----- ballots and votes

  /** A ballot is answered once, to its candidate, in the term the server then has, and moves
      nothing but term, role and vote. One of an older term, or met by a candidate of its own
      term, is refused and changes nothing. */
  lemma BallotAnswered(v: Server, m: Msg)
    requires v.alive && m.RequestVote?
    ensures var o := OnRpc(v, m); var w := o.server; var free := v.term < m.term || v.votedFor == 0;
      var ok := v.term <= m.term && UpToDate(m.lastIndex, m.lastTerm, v.log)
                && (v.term < m.term || (v.status != Candidate && (free || v.votedFor == m.candidate)));
      && o.sent == [Envelope(m.candidate, VoteResponse(w.term, ok))]
      && w == v.(term := w.term, status := w.status, votedFor := w.votedFor)
      && (v.term >= m.term ==> w == v.(votedFor := w.votedFor))
      && (ok ==> w.votedFor == m.candidate)
      && (v.term >= m.term && !ok ==> w == v)
  {}

  /** A vote moves only a candidate, and only its count until that is a majority; one of a newer
      term is not counted. */
  lemma VoteHandled(v: Server, m: Msg)
    requires v.alive && m.VoteResponse?
    ensures var o := OnRpc(v, m); var votes := v.voteCount + if m.granted then 1 else 0;
      if m.term > v.term then o == Outcome(v.(term := m.term, status := Follower, votedFor := 0), [])
      else if v.status != Candidate then o == Outcome(v, [])
      else if 2 * votes <= v.peers then o == Outcome(v.(voteCount := votes), [])
      else TookOffice(v.(voteCount := votes), o.server)
  {
    hide Fanout;
  }

  /** The candidate leads, with all it had, a free vote, and every slot at its start. */
  predicate TookOffice(v: Server, w: Server) {
    && w == v.(status := Leader, votedFor := 0, next := w.next, matched := w.matched)
    && |w.next| == |w.matched| == v.peers + 1
    && forall q :: 0 <= q <= v.peers ==> w.next[q] == |v.log| && w.matched[q] == -1
  }

  // ----- clients

  /** A live leader stays silent to the client and logs the request exactly if no entry has its
      client and serial number; any other live server sends the rank of its vote. */
  lemma RequestHandled(v: Server, src: nat, r: Request)
    ensures var o := React(v, Receive(src, ClientRequest(r)));
      var known := exists i :: 0 <= i < |v.log| && v.log[i].client == r.client && v.log[i].serial == r.serial;
      if !v.alive then o == Outcome(v, [])
      else if v.status != Leader then o == Outcome(v, [Envelope(r.client, ClientResponse(false, v.votedFor))])
      else o.sent == [] && o.server == v.(log := o.server.log)
           && o.server.log == if known then v.log else v.log + [Entry(v.term, r.command, r.client, r.serial)]
  {
    assert Has(v.log, EntryFor(v.term, r)) <==>
           exists i :: 0 <= i < |v.log| && v.log[i].client == r.client && v.log[i].serial == r.serial;
  }

  // ----- timers and rules

  /** An election timeout of one of several servers: a candidacy of the next term with its own
      vote, and one ballot about its log to every other server. */
  lemma TimeoutCampaigns(v: Server, q: nat)
    requires v.alive && v.status != Leader && v.peers > 1
    ensures var o := React(v, Elapsed);
      && o.server == v.(status := Candidate, term := v.term + 1, votedFor := v.rank, voteCount := 1)
      && MsgsTo(o.sent, q) == if q == 0 || q > v.peers || q == v.rank then []
                              else [RequestVote(v.term + 1, v.rank, |v.log| - 1,
                                                if v.log == [] then -1 else v.log[|v.log| - 1].term)]
  {
    hide Fanout;
    FanoutTo(Campaigning(v), Ballot, v.peers, q);
  }

  /** The only server there is leads at once, and writes to nobody. */
  lemma TimeoutOfOne(v: Server)
    requires v.alive && v.status != Leader && v.peers == v.rank == 1
    ensures var o := React(v, Elapsed);
      TookOffice(v.(term := v.term + 1, voteCount := 1), o.server) && o.sent == []
  {
    var w := InOffice(Campaigning(v));
    assert Fanout(w, Heartbeat([]), 0) == [] && Fanout(w, Ballot, 0) == [];
  }

  /** An empty AppendEntries of server v for q. */
  predicate IsHeartbeat(v: Server, q: nat, m: Msg)
    requires q < |v.next|
  {
    && m.AppendEntries? && m.term == v.term && m.leader == v.rank && m.entries == []
    && m.prev == v.next[q] as int - 1 && m.leaderCommit == v.commit
    && (v.next[q] == 0 ==> m.prevTerm == -1)
    && (0 < v.next[q] <= |v.log| ==> m.prevTerm == v.log[v.next[q] - 1].term)
  }

  /** A due heartbeat is sent to every other server, once, and changes nothing. */
  lemma HeartbeatMail(v: Server, junk: seq<int>, q: nat)
    requires v.alive && v.status == Leader && Indexed(v)
    ensures var o := React(v, Beat(junk)); var msgs := MsgsTo(o.sent, q);
      && o.server == v
      && if q == 0 || q > v.peers || q == v.rank then msgs == [] else |msgs| == 1 && IsHeartbeat(v, q, msgs[0])
  {
    hide Fanout;
    FanoutTo(v, Heartbeat(junk), v.peers, q);
  }

  /** So is the first heartbeat of a leader that takes office with a vote. */
  lemma OfficeHeartbeat(v: Server, src: nat, m: Msg, q: nat)
    requires m.VoteResponse? && v.status != Leader
    requires React(v, Receive(src, m)).server.status == Leader
    ensures var o := React(v, Receive(src, m)); var msgs := MsgsTo(o.sent, q);
      && |o.server.next| == v.peers + 1
      && if q == 0 || q > v.peers || q == v.rank then msgs == [] else |msgs| == 1 && IsHeartbeat(o.server, q, msgs[0])
  {
    hide Fanout;
    var w := React(v, Receive(src, m)).server;
    FanoutTo(w, Heartbeat([]), v.peers, q);
  }

  /** The other leader rule moves the commit index and nothing else of the server. */
  lemma WorkKeeps(v: Server)
    requires v.alive && v.status == Leader && Indexed(v)
    ensures var w := React(v, Work).server; w == v.(commit := w.commit)
  {}

  /** Crash and recovery touch one flag. */
  lemma CrashAndRecovery(v: Server)
    ensures React(v, Crash) == Outcome(v.(alive := false), [])
    ensures React(v, Recover) == Outcome(v.(alive := true), [])
  {}
}
