/** A client's commands are executed in the order of its file. */
module CommandOrder {
  import opened LogEntries
  import opened Messages
  import opened RaftServer
  import opened Cluster
  import opened AnyNetwork
  import opened SingleLeader
  import opened ExactlyOnce

  // ----- the invariant

  /** The client's previous command stands further down the log. */
  predicate Preceded(log: Log, i: nat)
    requires i < |log|
  {
    log[i].serial > 1 ==> exists j :: 0 <= j < i && log[j].client == log[i].client && log[j].serial == log[i].serial - 1
  }

  ghost predicate Sequenced(log: Log) {
    forall i: nat :: i < |log| ==> Preceded(log, i)
  }

  ghost predicate InOrder(s: State) {
    Exact(s) && Sequenced(LeadLog(s))
  }

  /** Serial numbers of one client rise along the log. */
  lemma {:induction false} SerialsRise(log: Log, i: nat, j: nat)
    requires Sequenced(log) && DistinctKeys(log) && i < |log| && j < |log|
    requires log[i].client == log[j].client && 1 <= log[i].serial < log[j].serial
    ensures i < j
    decreases log[j].serial
  {
    assert Preceded(log, j);
    var p :| 0 <= p < j && log[p].client == log[j].client && log[p].serial == log[j].serial - 1;
    if log[p].serial == log[i].serial { KeyOnce(log, i, p); } else { SerialsRise(log, i, p); }
  }

  // ----- a server's step

  lemma SequencedMore(log: Log, e: Entry, h: History)
    requires Sequenced(log) && (e.serial > 1 ==> Done(h, log, e.client, e.serial - 1))
    ensures Sequenced(log + [e])
  {
    var more := log + [e];
    forall i: nat | i < |more| ensures Preceded(more, i) {
      if i < |log| && more[i].serial > 1 {
        assert Preceded(log, i);
        var j :| 0 <= j < i && log[j].client == log[i].client && log[j].serial == log[i].serial - 1;
        assert more[j] == log[j];
      } else if e.serial > 1 {
        var a :| 0 <= a < |h.applied| && h.applied[a].index < |log|
                 && log[h.applied[a].index].client == e.client && log[h.applied[a].index].serial == e.serial - 1;
        assert more[h.applied[a].index] == log[h.applied[a].index];
      }
    }
  }

  /** A request that may be sent follows commands that are done. */
  lemma PreviousDone(s: State, r: Request)
    requires Exact(s) && FromClient(s, r) && r.serial > 1
    ensures Done(s.hist, LeadLog(s), r.client, r.serial - 1)
  {}

  lemma InOrderMove(s: State, r: nat, input: Input)
    requires InOrder(s) && IsServer(s, r) && Ready(s.servers[r], input) && InputLed(s, r, input)
    requires SingleLeadership(Move(s, r, input).hist)
    requires input.Receive? && input.msg.ClientRequest? ==> FromClient(s, input.msg.request)
    ensures InOrder(Move(s, r, input))
  {
    hide React, Served, Led;
    ExactMove(s, r, input);
    SingleMove(s, r, input);
    if s.hist.wins == [] {
      SingleBlankLog(s, r, input);
    } else {
      LeadLogStep(s, s.hist.wins[0].rank, r, input, React(s.servers[r], input));
      if LeadLog(Move(s, r, input)) != LeadLog(s) {
        if input.msg.request.serial > 1 { PreviousDone(s, input.msg.request); }
        SequencedMore(LeadLog(s), EntryFor(s.servers[r].term, input.msg.request), s.hist);
      }
    }
  }

  // ----- every step and every run

  lemma InOrderDeliver(s: State, src: nat, dst: nat)
    requires InOrder(s) && Enabled(s, Deliver(src, dst, 0)) && SingleLeadership(Next(s, Deliver(src, dst, 0)).hist)
    ensures InOrder(Next(s, Deliver(src, dst, 0)))
  {
    hide Led, Counted;
    var l := Link(src, dst);
    assert InFlight(s, l, Queue(s.net, l)[0]);
    HeadLed(s, src, dst);
    ServedRemove(s, l, 0);
    assert LeadLog(Remove(s, l, 0)) == LeadLog(s);
    InOrderMove(Remove(s, l, 0), dst, Receive(src, Queue(s.net, l)[0]));
  }

  lemma InOrderNext(s: State, e: Event)
    requires InOrder(s) && Enabled(s, e) && FifoStep(e) && SingleLeadership(Next(s, e).hist)
    ensures InOrder(Next(s, e))
  {
    hide Single, Served, Sequenced;
    match e
    case Deliver(src, dst, i) => InOrderDeliver(s, src, dst);
    case Local(r, input) => InOrderMove(s, r, input);
    case Iteration(c, from, resend) => ExactNext(s, e);
    case Lose(l, i) => ExactNext(s, e);
  }

  lemma InOrderAtFirst(s: State)
    requires Init(s)
    ensures InOrder(s)
  {
    ExactAtFirst(s);
  }

  lemma {:induction false} InOrderRun(run: Run, k: nat)
    requires IsRun(run) && Fifo(run) && SingleLeadership(Last(run).hist) && k < |run.states|
    ensures InOrder(run.states[k])
  {
    hide InOrder, Init, Enabled, Next;
    if k > 0 {
      InOrderRun(run, k - 1);
      EarlierSingle(run, k);
      assert FifoStep(run.events[k - 1]);
      InOrderNext(run.states[k - 1], run.events[k - 1]);
    } else {
      InOrderAtFirst(run.states[0]);
    }
  }

  /** In every single-leadership run over ordered, lossy channels, of two answered commands of
      a client the one that comes first in its file was executed at the lower position. */
  lemma AnsweredCommandsInOrder(run: Run, k: nat, c: nat, a: nat, b: nat)
    requires IsRun(run) && Fifo(run) && SingleLeadership(Last(run).hist) && k < |run.states|
    requires c in run.states[k].clients
    requires a < b < run.states[k].clients[c].nextResponse && b < |run.states[k].clients[c].commands|
    ensures var s := run.states[k]; var commands := s.clients[c].commands;
      && s.hist.wins != [] && |s.servers| == s.n + 1 && s.hist.wins[0].rank < |s.servers|
      && exists i, j :: i < j && ExecutedAt(s, s.hist.wins[0].rank, commands[a], i)
                        && ExecutedAt(s, s.hist.wins[0].rank, commands[b], j)
  {
    var s := run.states[k];
    InOrderRun(run, k);
    var i := DoneOnce(s, c, a);
    var j := DoneOnce(s, c, b);
    assert ServerSound(s, s.hist.wins[0].rank);
    SerialsRise(LeadLog(s), i, j);
  }
}
