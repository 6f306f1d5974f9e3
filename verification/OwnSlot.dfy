/** The leader counts itself once, in every run. */
module OwnSlot {
  import opened LogEntries
  import opened RaftServer
  import opened Cluster
  import opened AnyNetwork
  import opened CommitRule
  import opened Deviations

  // ----- a server's own slot of `match_index` stays at -1

  predicate Unset(v: Server) {
    v.rank < |v.matched| ==> v.matched[v.rank] == -1
  }

  /** No server answers itself. */
  predicate NotOwnReply(v: Server, input: Input) {
    input.Receive? && input.msg.AppendResponse? ==> input.msg.follower != v.rank
  }

  lemma UnsetStep(v: Server, input: Input)
    requires Ready(v, input) && Unset(v) && NotOwnReply(v, input)
    ensures Unset(React(v, input).server)
  {
    hide Fanout, Splice, AdvanceCommit, UpToDate, Has;
  }

  ghost predicate UnsetIn(s: State, r: nat) {
    r < |s.servers| && Unset(s.servers[r])
  }

  lemma UnsetMove(s: State, q: nat, input: Input, r: nat)
    requires Sound(s) && IsServer(s, q) && Ready(s.servers[q], input) && InputSound(s, q, input)
    requires UnsetIn(s, r)
    ensures UnsetIn(Move(s, q, input), r)
  {
    hide React;
    assert ServerSound(s, q);
    if q == r { UnsetStep(s.servers[r], input); }
  }

  lemma UnsetNext(s: State, e: Event, r: nat)
    requires Sound(s) && Enabled(s, e) && UnsetIn(s, r)
    ensures UnsetIn(Next(s, e), r)
  {
    match e
    case Deliver(src, dst, i) =>
      var l := Link(src, dst);
      assert InFlight(s, l, Queue(s.net, l)[i]);
      SoundRemove(s, l, i);
      UnsetMove(Remove(s, l, i), dst, Receive(src, Queue(s.net, l)[i]), r);
    case Local(q, input) => UnsetMove(s, q, input, r);
    case _ =>
  }

  lemma UnsetAtFirst(s: State, r: nat)
    requires Init(s) && IsServer(s, r)
    ensures UnsetIn(s, r)
  {}

  /** In every run, over an arbitrary network: a server's own slot is never set. */
  lemma {:induction false} OwnSlotStaysUnset(run: Run, k: nat, r: nat)
    requires IsRun(run) && k < |run.states| && IsServer(run.states[k], r)
    ensures UnsetIn(run.states[k], r)
    decreases k
  {
    hide Init, Sound, UnsetIn, Enabled, Next;
    if k > 0 {
      SoundRun(run, k - 1);
      SameSize(run, k);
      OwnSlotStaysUnset(run, k - 1, r);
      UnsetNext(run.states[k - 1], run.events[k - 1], r);
    } else {
      UnsetAtFirst(run.states[0], r);
    }
  }

  // ----- the commit rule of every leader of every run

  /** The premises of the commit rule's lemmas hold of every live leader of every run. */
  lemma LeaderIsReady(run: Run, k: nat, r: nat)
    requires IsRun(run) && k < |run.states| && IsServer(run.states[k], r) && r < |run.states[k].servers|
    requires run.states[k].servers[r].alive && run.states[k].servers[r].status == Leader
    ensures var v := run.states[k].servers[r];
      Ready(v, Work) && v.rank == r && v.peers == run.states[k].n && 1 <= r <= v.peers && v.matched[r] == -1
  {
    SoundRun(run, k);
    OwnSlotStaysUnset(run, k, r);
    assert ServerSound(run.states[k], r);
  }

  /** In every run, over an arbitrary network and with any number of leaderships: the rule of a
      live leader ends with the larger of the old commit index and the greatest index of its
      log that a majority of distinct servers, itself among them, is recorded to hold. */
  lemma CommitIsGreatestHeld(run: Run, k: nat, r: nat)
    requires IsRun(run) && k < |run.states| && IsServer(run.states[k], r) && r < |run.states[k].servers|
    requires run.states[k].servers[r].alive && run.states[k].servers[r].status == Leader
    ensures var s := run.states[k]; var v := s.servers[r];
      && Ready(v, Work) && v.peers == s.n
      && var c := React(v, Work).server.commit;
         && v.commit <= c
         && (c > v.commit ==> c < |v.log| && Quorum(v.matched, s.n, r, c))
         && forall N: Index :: c < N < |v.log| ==> !Quorum(v.matched, s.n, r, N)
  {
    var v := run.states[k].servers[r];
    LeaderIsReady(run, k, r);
    CommitIsMaximal(v.commit, |v.log|, v.matched, v.peers, r);
  }

  /** In every run a live leader's rule follows its comment exactly when the greatest index
      beyond the commit index that a quorum holds, if any, carries an entry of its own term. */
  lemma LeaderFollowsCommentIff(run: Run, k: nat, r: nat)
    requires IsRun(run) && k < |run.states| && IsServer(run.states[k], r) && r < |run.states[k].servers|
    requires run.states[k].servers[r].alive && run.states[k].servers[r].status == Leader
    ensures var s := run.states[k]; var v := s.servers[r];
      && Ready(v, Work) && v.peers == s.n
      && (AsCommented(v, React(v, Work).server.commit) <==>
            forall N: Index :: v.commit < N < |v.log| && Quorum(v.matched, s.n, r, N)
              && (forall M: Index :: N < M < |v.log| ==> !Quorum(v.matched, s.n, r, M))
              ==> v.log[N].term == v.term)
  {
    hide Quorum, Replicate, IsRun;
    LeaderIsReady(run, k, r);
    CommitRuleFollowsCommentIff(run.states[k].servers[r]);
  }
}
