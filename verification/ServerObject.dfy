/** The server as the object it is: fields updated in place by handlers and loops. */
module ServerObject {
  import opened LogEntries
  import opened Messages
  import opened RaftServer
  import opened CommitRule

  /** What one turn of the loop over the followers sends. */
  lemma FollowerTurn(s: Server, q: nat)
    requires Indexed(s) && 1 <= q <= s.peers
    ensures Fanout(s, Replication, q) == Fanout(s, Replication, q - 1) + Mail(q, MailFor(s, Replication, q))
    ensures Mail(q, MailFor(s, Replication, q))
            == if q != s.rank && LastIndex(s.log) >= s.next[q]
               then [Envelope(q, AppendEntries(s.term, s.rank, PrevIndex(s, q), PrevTerm(s, q, []),
                                               s.log[s.next[q]..], s.commit))]
               else []
  {}

  /** Every method is tied to the function of RaftServer that says what it does; `outbox`
      records what was handed to `MPI_Send`, in order. */
  class ServerProcess {
    const rank: nat
    const nbServers: nat
    var alive: bool
    var currentStatus: Status
    var currentTerm: nat
    var votedFor: nat
    var voteCount: nat
    var log: Log
    var commitIndex: Index
    var lastApplied: Index
    var nextIndex: seq<nat>
    var matchIndex: seq<Index>
    var outbox: seq<Envelope>

    /** The fields as a value. */
    function State(): Server
      reads this
    {
      Server(rank, nbServers, alive, currentStatus, currentTerm, votedFor, voteCount,
             log, commitIndex, lastApplied, nextIndex, matchIndex)
    }

    constructor (serverRank: nat, nbServers: nat)
      ensures State() == NewServer(serverRank, nbServers) && outbox == []
    {
      rank, this.nbServers := serverRank, nbServers;
      alive, currentStatus := true, Follower;
      currentTerm, votedFor, voteCount := 0, 0, 0;
      log, commitIndex, lastApplied := [], -1, -1;
      nextIndex, matchIndex, outbox := [], [], [];
    }

    // ----- mail

    method Send(dst: nat, msg: Msg)
      modifies this`outbox
      ensures outbox == old(outbox) + [Envelope(dst, msg)]
    {
      outbox := outbox + [Envelope(dst, msg)];
    }

    method BroadcastRequestVote()
      modifies this`outbox
      ensures outbox == old(outbox) + Fanout(State(), Ballot, nbServers)
    {
      var requestVote := RequestVote(currentTerm, rank, LastIndex(log), LastTerm(log));
      var i := 1;
      while i <= nbServers
        invariant 1 <= i <= nbServers + 1
        invariant outbox == old(outbox) + Fanout(State(), Ballot, i - 1)
      {
        if i != rank {
          Send(i, requestVote);
        }
        i := i + 1;
      }
    }

    method LeaderHeartbeat(junk: seq<int>)
      requires Indexed(State())
      modifies this`outbox
      ensures outbox == old(outbox) + Fanout(State(), Heartbeat(junk), nbServers)
    {
      var follower := 1;
      while follower <= nbServers
        invariant 1 <= follower <= nbServers + 1
        invariant outbox == old(outbox) + Fanout(State(), Heartbeat(junk), follower - 1)
      {
        if follower != rank {
          var prev: Index := nextIndex[follower] as int - 1;
          var prevTerm := GetPrevLogTerm(follower, junk);
          Send(follower, AppendEntries(currentTerm, rank, prev, prevTerm, [], commitIndex));
        }
        follower := follower + 1;
      }
    }

    method GetPrevLogTerm(q: nat, junk: seq<int>) returns (term: int)
      requires q < |nextIndex|
      ensures term == PrevTerm(State(), q, junk)
      ensures nextIndex[q] == 0 ==> term == -1
      ensures 0 < nextIndex[q] <= |log| ==> term == log[nextIndex[q] - 1].term
    {
      var index := nextIndex[q] as int - 1;
      if index < 0 {
        term := -1;
      } else if index < |log| {
        term := log[index].term;
      } else {
        term := if q < |junk| then junk[q] else 0;
      }
    }

    // ----- role conversions

    method SetCurrentTerm(term: nat)
      modifies this`currentTerm
      ensures State() == RaiseTerm(old(State()), term)
    {
      currentTerm := term;
    }

    method ConvertToFollower()
      modifies this`currentStatus, this`votedFor
      ensures State() == ToFollower(old(State()))
    {
      currentStatus := Follower;
      votedFor := 0;
    }

    method ConvertToLeader()
      modifies this
      ensures State() == ToLeader(old(State())).server
      ensures outbox == old(outbox) + ToLeader(old(State())).sent
    {
      currentStatus := Leader;
      votedFor := 0;
      var logSize := |log|;
      nextIndex := seq(nbServers + 1, i => logSize);
      matchIndex := seq(nbServers + 1, i => -1);
      assert State() == InOffice(old(State()));
      LeaderHeartbeat([]);
    }

    method CheckMajority() returns (won: bool)
      ensures won <==> 2 * voteCount > nbServers
    {
      won := voteCount * 2 > nbServers;
    }

    method ConvertToCandidate()
      modifies this
      ensures State() == ToCandidate(old(State())).server
      ensures outbox == old(outbox) + ToCandidate(old(State())).sent
    {
      currentStatus := Candidate;
      SetCurrentTerm(currentTerm + 1);
      votedFor := rank;
      voteCount := 1;
      assert State() == Campaigning(old(State()));
      var won := CheckMajority();
      if won {
        ConvertToLeader();
      }
      BroadcastRequestVote();
    }

    // ----- reactions

    method OnRpc(m: Msg)
      requires m.IsRpc() && Readable(State(), m)
      modifies this
      ensures State() == RaftServer.OnRpc(old(State()), m).server
      ensures outbox == old(outbox) + RaftServer.OnRpc(old(State()), m).sent
    {
      if !alive {
        return;
      }
      if m.term > currentTerm {
        SetCurrentTerm(m.term);
        ConvertToFollower();
      }
      assert State() == Updated(old(State()), m.term);
      match m {
        case AppendEntries(_, _, _, _, _, _) => OnAppendEntriesRpc(m);
        case AppendResponse(_, _, _, _) => OnAppendEntriesResponse(m);
        case RequestVote(_, _, _, _) => OnRequestVoteRpc(m);
        case VoteResponse(_, _) => OnRequestVoteResponse(m);
      }
    }

    /** `std::find` over the log. */
    method Find(e: Entry) returns (found: bool)
      ensures found <==> exists i :: 0 <= i < |log| && log[i].client == e.client && log[i].serial == e.serial
    {
      var i := 0;
      while i < |log| && !SameKey(log[i], e)
        invariant 0 <= i <= |log|
        invariant forall j :: 0 <= j < i ==> !SameKey(log[j], e)
      {
        i := i + 1;
      }
      found := i < |log|;
    }

    /** Walks two iterators while the terms agree. */
    method SkipAgreeing(prev: Index, entries: Log) returns (at: nat)
      requires prev < |log|
      ensures at == prev + 1 + Agreement(log, prev + 1, entries)
      ensures at <= |log|
    {
      var k := 0;
      at := prev + 1;
      while at < |log| && k < |entries| && log[at].term == entries[k].term
        invariant 0 <= k <= |entries| && at == prev + 1 + k <= |log|
        invariant Agreement(log, prev + 1, entries) == k + Agreement(log, at, entries[k..])
      {
        assert entries[k..][1..] == entries[k + 1..];
        at := at + 1;
        k := k + 1;
      }
    }

    /** Erases the log from `at` on and appends every entry it does not find by key. */
    method Overwrite(at: nat, entries: Log)
      requires at <= |log|
      modifies this`log
      ensures log == Absorb(old(log)[..at], entries)
    {
      log := log[..at];
      var i := 0;
      while i < |entries|
        invariant 0 <= i <= |entries|
        invariant log == Absorb(old(log)[..at], entries[..i])
      {
        assert entries[..i + 1][..i] == entries[..i];
        var found := Find(entries[i]);
        if !found {
          log := log + [entries[i]];
        }
        i := i + 1;
      }
      assert entries[..i] == entries;
    }

    /** Steps 3 and 4 of the receiver: erase what conflicts, append what is missing. */
    method Reconcile(prev: Index, entries: Log)
      requires prev < |log|
      modifies this`log
      ensures log == Splice(old(log), prev, entries)
    {
      var at := SkipAgreeing(prev, entries);
      if |entries| > 0 {
        Overwrite(at, entries);
      }
    }

    method OnAppendEntriesRpc(m: Msg)
      requires m.AppendEntries?
      modifies this
      ensures State() == OnAppendEntries(old(State()), m).server
      ensures outbox == old(outbox) + OnAppendEntries(old(State()), m).sent
    {
      if currentStatus == Candidate && m.term >= currentTerm {
        ConvertToFollower();
      }
      if m.term < currentTerm {
        Send(m.leader, AppendResponse(currentTerm, false, rank, LastIndex(log)));
        return;
      }
      if m.prev >= |log| || TermAt(log, m.prev) != m.prevTerm {
        Send(m.leader, AppendResponse(currentTerm, false, rank, LastIndex(log)));
        return;
      }
      Reconcile(m.prev, m.entries);
      var lastEntryIndex := LastIndex(log);
      if m.leaderCommit > commitIndex {
        commitIndex := if m.leaderCommit < lastEntryIndex then m.leaderCommit else lastEntryIndex;
      }
      Send(m.leader, AppendResponse(currentTerm, true, rank, lastEntryIndex));
    }

    method OnAppendEntriesResponse(m: Msg)
      requires m.AppendResponse? && m.follower < |nextIndex| == |matchIndex|
      modifies this`nextIndex, this`matchIndex
      ensures State() == OnAppendResponse(old(State()), m).server
    {
      var f := m.follower;
      if m.success {
        matchIndex := matchIndex[f := m.lastIndex];
        nextIndex := nextIndex[f := matchIndex[f] + 1];
      } else {
        nextIndex := nextIndex[f := if nextIndex[f] > 0 then nextIndex[f] - 1 else 0];
      }
    }

    method CandidateLogIsUpToDate(lastIndex: Index, lastTerm: int) returns (ok: bool)
      ensures ok <==> UpToDate(lastIndex, lastTerm, log)
      ensures log == [] && lastTerm >= 0 ==> ok
    {
      if lastTerm < LastTerm(log) {
        return false;
      }
      return lastTerm > LastTerm(log) || lastIndex >= LastIndex(log);
    }

    method OnRequestVoteRpc(m: Msg)
      requires m.RequestVote?
      modifies this`votedFor, this`outbox
      ensures State() == OnRequestVote(old(State()), m).server
      ensures outbox == old(outbox) + OnRequestVote(old(State()), m).sent
    {
      if currentStatus == Candidate || m.term < currentTerm {
        Send(m.candidate, VoteResponse(currentTerm, false));
        return;
      }
      var upToDate := CandidateLogIsUpToDate(m.lastIndex, m.lastTerm);
      if !upToDate {
        Send(m.candidate, VoteResponse(currentTerm, false));
        return;
      }
      votedFor := if votedFor > 0 then votedFor else m.candidate;
      Send(m.candidate, VoteResponse(currentTerm, votedFor == m.candidate));
    }

    method OnRequestVoteResponse(m: Msg)
      requires m.VoteResponse?
      modifies this
      ensures State() == OnVoteResponse(old(State()), m).server
      ensures outbox == old(outbox) + OnVoteResponse(old(State()), m).sent
    {
      if currentStatus == Candidate {
        voteCount := voteCount + if m.granted then 1 else 0;
        var won := CheckMajority();
        if won {
          ConvertToLeader();
        }
      }
    }

    method OnClientRequest(r: Request)
      modifies this`log, this`outbox
      ensures State() == RaftServer.OnClientRequest(old(State()), r).server
      ensures outbox == old(outbox) + RaftServer.OnClientRequest(old(State()), r).sent
    {
      if !alive {
        return;
      }
      if currentStatus != Leader {
        Send(r.client, ClientResponse(false, votedFor));
      } else {
        var logEntry := Entry(currentTerm, r.command, r.client, r.serial);
        var found := Find(logEntry);
        if !found {
          log := log + [logEntry];
        }
      }
    }

    method OnReplCrash()
      modifies this`alive
      ensures State() == React(old(State()), Crash).server
    {
      alive := false;
    }

    method OnReplRecovery()
      modifies this`alive
      ensures State() == React(old(State()), Recover).server
    {
      alive := true;
    }

    // ----- rules

    /** Reading past the end of the log, possible only when the commit index is, sends nothing here. */
    method ApplyRules()
      modifies this`lastApplied, this`outbox
      ensures State() == RaftServer.ApplyRules(old(State())).server
      ensures outbox == old(outbox) + RaftServer.ApplyRules(old(State())).sent
    {
      if commitIndex > lastApplied {
        lastApplied := lastApplied + 1;
        if currentStatus == Leader && lastApplied < |log| {
          Send(log[lastApplied].client, ClientResponse(true, 0));
        }
      }
    }

    method ApplyFollowerAndCandidateRules(timeoutElapsed: bool)
      requires alive && currentStatus != Leader
      modifies this
      ensures timeoutElapsed ==>
        State() == React(old(State()), Elapsed).server && outbox == old(outbox) + React(old(State()), Elapsed).sent
      ensures !timeoutElapsed ==> State() == old(State()) && outbox == old(outbox)
    {
      if timeoutElapsed {
        ConvertToCandidate();
      }
    }

    method SendEntries()
      requires Indexed(State())
      modifies this`outbox
      ensures outbox == old(outbox) + Fanout(State(), Replication, nbServers)
    {
      hide Mail, MailFor;
      ghost var s := State();
      assert Fanout(s, Replication, 0) == [];
      var idx := 1;
      while idx <= nbServers
        invariant 1 <= idx <= nbServers + 1
        invariant outbox == old(outbox) + Fanout(State(), Replication, idx - 1)
      {
        FollowerTurn(s, idx);
        if idx != rank {
          if LastIndex(log) >= nextIndex[idx] {
            var prev: Index := nextIndex[idx] as int - 1;
            var prevTerm := GetPrevLogTerm(idx, []);
            Send(idx, AppendEntries(currentTerm, rank, prev, prevTerm, log[nextIndex[idx]..], commitIndex));
          }
        }
        idx := idx + 1;
      }
    }

    method ApplyLeaderRules(heartbeatDue: bool, junk: seq<int>)
      requires alive && currentStatus == Leader && Indexed(State())
      modifies this`commitIndex, this`outbox
      ensures var input := if heartbeatDue then Beat(junk) else Work;
        State() == React(old(State()), input).server && outbox == old(outbox) + React(old(State()), input).sent
    {
      if heartbeatDue {
        LeaderHeartbeat(junk);
        return;
      }
      SendEntries();
      UpdateCommitIndex();
    }

    /** Counts the servers whose `match_index` reaches n, in the inner loop. */
    method CountAcks(n: Index) returns (count: nat)
      requires |matchIndex| == nbServers + 1
      ensures count == 1 + Acks(matchIndex, nbServers, n)
    {
      count := 1;
      var i := 1;
      while i <= nbServers
        invariant 1 <= i <= nbServers + 1
        invariant count == 1 + Acks(matchIndex, i - 1, n)
      {
        if matchIndex[i] >= n {
          count := count + 1;
        }
        i := i + 1;
      }
    }

    method UpdateCommitIndex()
      requires |matchIndex| == nbServers + 1
      modifies this`commitIndex
      ensures commitIndex == AdvanceCommit(old(commitIndex), |log|, matchIndex, nbServers)
      ensures old(commitIndex) <= commitIndex
      ensures commitIndex > old(commitIndex) ==>
                commitIndex < |log| && Majority(1 + Acks(matchIndex, nbServers, commitIndex), nbServers)
      ensures forall N: Index :: commitIndex < N < |log| ==> !Majority(1 + Acks(matchIndex, nbServers, N), nbServers)
      ensures 1 <= rank <= nbServers && matchIndex[rank] == -1 ==>
        && (commitIndex > old(commitIndex) ==> Quorum(matchIndex, nbServers, rank, commitIndex))
        && (forall N: Index :: commitIndex < N < |log| ==> !Quorum(matchIndex, nbServers, rank, N))
    {
      var updated := true;
      var logSize := |log|;
      ghost var goal := AdvanceCommit(commitIndex, logSize, matchIndex, nbServers);
      while updated
        invariant logSize == |log|
        invariant if updated then AdvanceCommit(commitIndex, logSize, matchIndex, nbServers) == goal
                  else commitIndex == goal
        decreases logSize - commitIndex, updated
      {
        var n: Index := commitIndex + 1;
        var count := CountAcks(n);
        if 2 * count > nbServers && n < logSize {
          commitIndex := n;
        }
        updated := commitIndex == n;
      }
      CountIsMaximal(old(commitIndex), |log|, matchIndex, nbServers);
      if 1 <= rank <= nbServers && matchIndex[rank] == -1 {
        CommitIsMaximal(old(commitIndex), |log|, matchIndex, nbServers, rank);
      }
    }
  }
}
