/** The commit rule of a leader: `update_commit_index` finds the greatest index that a
    majority is known to hold. */
module CommitRule {
  import opened LogEntries
  import opened RaftServer
  import opened Quorums

  /** The leader itself and the servers whose `match_index` reaches N. */
  ghost function Holding(matched: seq<Index>, peers: nat, leader: nat, N: Index): set<nat>
    requires peers < |matched|
  {
    set r | r in Ranks(peers) && (r == leader || matched[r] >= N)
  }

  ghost predicate Quorum(matched: seq<Index>, peers: nat, leader: nat, N: Index)
    requires peers < |matched|
  {
    2 * |Holding(matched, peers, leader, N)| > peers
  }

  /** Of the ranks 1..k, those other than the leader whose slots reach N. */
  ghost function Others(matched: seq<Index>, k: nat, leader: nat, N: Index): set<nat>
    requires k < |matched|
  {
    set r | r in Ranks(k) && r != leader && matched[r] >= N
  }

  lemma OthersNext(matched: seq<Index>, k: nat, leader: nat, N: Index)
    requires 0 < k < |matched|
    ensures Others(matched, k, leader, N)
            == Others(matched, k - 1, leader, N) + if k != leader && matched[k] >= N then {k} else {}
    ensures k !in Others(matched, k - 1, leader, N)
  {
    assert forall r: nat :: InRange(r, k) <==> InRange(r, k - 1) || r == k;
  }

  /** The loop counts the ranks whose slots reach N. */
  lemma {:induction false} AcksAreHolders(matched: seq<Index>, k: nat, leader: nat, N: Index)
    requires k < |matched| && 1 <= leader < |matched|
    ensures Acks(matched, k, N)
            == |Others(matched, k, leader, N)| + if leader <= k && matched[leader] >= N then 1 else 0
  {
    if k == 0 {
      assert Others(matched, k, leader, N) == {};
    } else {
      OthersNext(matched, k, leader, N);
      AcksAreHolders(matched, k - 1, leader, N);
    }
  }

  /** The counter is the number of holders, and counts the leader twice where its own slot
      reaches N. */
  lemma QuorumIsCounted(matched: seq<Index>, peers: nat, leader: nat, N: Index)
    requires peers < |matched| && 1 <= leader <= peers
    ensures 1 + Acks(matched, peers, N)
            == |Holding(matched, peers, leader, N)| + if matched[leader] >= N then 1 else 0
  {
    AcksAreHolders(matched, peers, leader, N);
    assert Holding(matched, peers, leader, N) == Others(matched, peers, leader, N) + {leader};
  }

  /** Fewer servers hold more. */
  lemma QuorumAntitone(matched: seq<Index>, peers: nat, leader: nat, M: Index, N: Index)
    requires peers < |matched| && M <= N && Quorum(matched, peers, leader, N)
    ensures Quorum(matched, peers, leader, M)
  {
    SubsetSize(Holding(matched, peers, leader, N), Holding(matched, peers, leader, M));
  }

  lemma {:induction false} AcksAntitone(matched: seq<Index>, k: nat, M: Index, N: Index)
    requires k < |matched| && M <= N
    ensures Acks(matched, k, N) <= Acks(matched, k, M)
  {
    if k > 0 { AcksAntitone(matched, k - 1, M, N); }
  }

  /** The commit index ends as the larger of its old value and the greatest index of the log
      whose count is a majority. */
  lemma {:induction false} CountIsMaximal(commit: Index, logSize: nat, matched: seq<Index>, peers: nat)
    requires peers < |matched|
    ensures var r := AdvanceCommit(commit, logSize, matched, peers);
      && commit <= r
      && (r > commit ==> r < logSize && Majority(1 + Acks(matched, peers, r), peers))
      && (forall N: Index :: r < N < logSize ==> !Majority(1 + Acks(matched, peers, N), peers))
    decreases logSize - commit
  {
    var n := commit + 1;
    if Majority(1 + Acks(matched, peers, n), peers) && n < logSize {
      CountIsMaximal(n, logSize, matched, peers);
    } else {
      forall N: Index | commit < N < logSize ensures !Majority(1 + Acks(matched, peers, N), peers) {
        AcksAntitone(matched, peers, n, N);
      }
    }
  }

  /** That is the greatest index that a quorum holds, as long as the leader's own slot is unset. */
  lemma CommitIsMaximal(commit: Index, logSize: nat, matched: seq<Index>, peers: nat, leader: nat)
    requires peers < |matched| && 1 <= leader <= peers && matched[leader] == -1
    ensures var r := AdvanceCommit(commit, logSize, matched, peers);
      && commit <= r
      && (r > commit ==> r < logSize && Quorum(matched, peers, leader, r))
      && (forall N: Index :: r < N < logSize ==> !Quorum(matched, peers, leader, N))
  {
    CountIsMaximal(commit, logSize, matched, peers);
    var r := AdvanceCommit(commit, logSize, matched, peers);
    QuorumIsCounted(matched, peers, leader, r);
    forall N: Index | r < N < logSize ensures !Quorum(matched, peers, leader, N) {
      QuorumIsCounted(matched, peers, leader, N);
    }
  }
}
