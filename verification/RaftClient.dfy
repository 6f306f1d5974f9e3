/** A client in START mode: a window of one outstanding request, with retransmission. */
module RaftClient {
  import opened Messages

  datatype Client = Client(
    rank: nat, servers: nat, started: bool,
    nextRequest: nat, nextResponse: nat, target: nat,
    commands: seq<Request>)

  datatype Turn = Turn(client: Client, sent: seq<Envelope>)

  /** What `MPI_Listen` hands to one iteration of the run loop. */
  datatype Heard = Nothing | Begin | Answer(msg: Msg)

  /** `create_request` numbers the commands 1, 2, ... in the order of the file. */
  predicate Numbered(commands: seq<Request>, rank: nat) {
    forall i :: 0 <= i < |commands| ==> commands[i].serial == i + 1 && commands[i].client == rank
  }

  /** The commands the source would read out of their vector are there. */
  predicate Orderly(c: Client) {
    && c.nextResponse <= c.nextRequest <= c.nextResponse + 1
    && c.nextRequest <= |c.commands|
    && (c.nextRequest > 0 ==> c.started)
    && Numbered(c.commands, c.rank)
  }

  function SendNext(c: Client): Turn
    requires c.nextRequest < |c.commands|
  {
    if c.nextRequest > c.nextResponse + 1 then Turn(c, [])
    else Turn(c.(nextRequest := c.nextRequest + 1), [Envelope(c.target, ClientRequest(c.commands[c.nextRequest]))])
  }

  /** `on_repl_send` */
  function OnReplSend(c: Client): Turn {
    if c.nextRequest >= |c.commands| then Turn(c, []) else SendNext(c)
  }

  function SendAgain(c: Client): Turn
    requires c.nextResponse < |c.commands|
  {
    Turn(c, [Envelope(c.target, ClientRequest(c.commands[c.nextResponse]))])
  }

  function OnResponse(c: Client, success: bool, leaderId: nat): Turn
    requires c.nextResponse < |c.commands|
  {
    if success then Turn(c.(nextResponse := c.nextResponse + 1), [])
    else SendAgain(c.(target := leaderId))
  }

  function Listen(c: Client, heard: Heard): Turn
    requires c.nextResponse < |c.commands|
  {
    match heard
    case Nothing => Turn(c, [])
    case Begin => Turn(c.(started := true), [])
    case Answer(m) => if m.ClientResponse? then OnResponse(c, m.success, m.leaderId) else Turn(c, [])
  }

  /** `resend` is the rank drawn when the resend timeout has elapsed. */
  function CheckTime(c: Client, resend: Option<nat>): Turn
    requires c.nextRequest <= |c.commands|
  {
    if c.nextRequest == c.nextResponse + 1 && resend.Some?
    then SendAgain(c.(target := resend.value))
    else Turn(c, [])
  }

  /** One iteration of the run loop. A success can only reach a client that waits for one. */
  function Iterate(c: Client, heard: Heard, resend: Option<nat>): (t: Turn)
    requires Orderly(c) && c.nextResponse < |c.commands|
  {
    var t1 := if c.started && c.nextRequest == c.nextResponse then SendNext(c) else Turn(c, []);
    var t2 := Listen(t1.client, heard);
    var t3 := CheckTime(t2.client, resend);
    Turn(t3.client, t1.sent + t2.sent + t3.sent)
  }

  predicate HearsReply(heard: Heard) {
    heard.Answer? && heard.msg.ClientResponse?
  }

  /** Stop and wait: a started client always has exactly one command outstanding; whatever an
      iteration sends is that command, once if it is new, once more after a redirection, and
      once more when the resend timeout finds it unanswered; only a success moves on. */
  lemma StopAndWait(c: Client, heard: Heard, resend: Option<nat>)
    requires Orderly(c) && c.nextResponse < |c.commands|
    requires HearsReply(heard) ==> c.started
    ensures var t := Iterate(c, heard, resend);
      var answered := HearsReply(heard) && heard.msg.success;
      && (forall e :: e in t.sent ==> e.msg == ClientRequest(c.commands[c.nextResponse]))
      && |t.sent| == (if c.started && c.nextRequest == c.nextResponse then 1 else 0)
                     + (if HearsReply(heard) && !answered then 1 else 0)
                     + (if c.started && !answered && resend.Some? then 1 else 0)
      && t.client.nextRequest == (if c.started then c.nextResponse + 1 else 0)
      && t.client.nextResponse == c.nextResponse + (if answered then 1 else 0)
  {}

  /** Where it is sent, in this order: a new command to the present target, the repetition after
      a redirection to the rank that was named, the one after a timeout to the rank that was
      drawn; the last of these is the target from then on. */
  lemma Destinations(c: Client, heard: Heard, resend: Option<nat>)
    requires Orderly(c) && c.nextResponse < |c.commands|
    ensures var t := Iterate(c, heard, resend); var again := ClientRequest(c.commands[c.nextResponse]);
      var redirected := HearsReply(heard) && !heard.msg.success;
      var overdue := c.started && resend.Some? && (HearsReply(heard) ==> redirected);
      && t.sent == (if c.started && c.nextRequest == c.nextResponse then [Envelope(c.target, again)] else [])
                   + (if redirected then [Envelope(heard.msg.leaderId, again)] else [])
                   + (if overdue then [Envelope(resend.value, again)] else [])
      && t.client == c.(started := c.started || heard.Begin?,
                        nextRequest := t.client.nextRequest, nextResponse := t.client.nextResponse,
                        target := if overdue then resend.value
                                  else if redirected then heard.msg.leaderId else c.target)
  {}

  function SendCommands(c: Client, k: nat): Turn {
    if k == 0 then Turn(c, [])
    else
      var before := SendCommands(c, k - 1);
      var t := OnReplSend(before.client);
      Turn(t.client, before.sent + t.sent)
  }

  function Smaller(a: nat, b: nat): nat {
    if a <= b then a else b
  }

  lemma SendsIfRoom(c: Client)
    requires c.nextRequest <= |c.commands| && c.nextRequest <= c.nextResponse + 2
    ensures OnReplSend(c) ==
      if c.nextRequest < Smaller(c.nextResponse + 2, |c.commands|)
      then Turn(c.(nextRequest := c.nextRequest + 1), [Envelope(c.target, ClientRequest(c.commands[c.nextRequest]))])
      else Turn(c, [])
  {}

  /** Any number of SEND commands in a row sends the next requests, each once and in order, until
      two are unanswered or none is left. */
  lemma {:induction false} SendsFillWindow(c: Client, k: nat)
    requires c.nextRequest <= |c.commands| && c.nextRequest <= c.nextResponse + 2
    ensures var t := SendCommands(c, k);
      var next := Smaller(c.nextRequest + k, Smaller(c.nextResponse + 2, |c.commands|));
      && t.client == c.(nextRequest := next) && |t.sent| == next - c.nextRequest
      && forall i :: 0 <= i < |t.sent| ==>
           t.sent[i] == Envelope(c.target, ClientRequest(c.commands[c.nextRequest + i]))
    decreases k
  {
    hide OnReplSend, SendNext;
    if k > 0 {
      SendsFillWindow(c, k - 1);
      SendsIfRoom(SendCommands(c, k - 1).client);
    }
  }

  /** `create_request` on every line of the command file. */
  function Numbering(lines: seq<string>, rank: nat): (commands: seq<Request>)
    ensures |commands| == |lines| && Numbered(commands, rank)
    ensures forall i :: 0 <= i < |lines| ==> commands[i].command == lines[i]
    decreases |lines|
  {
    if lines == [] then []
    else Numbering(lines[..|lines| - 1], rank) + [Request(lines[|lines| - 1], |lines|, rank)]
  }

  function NewClient(rank: nat, servers: nat, lines: seq<string>, target: nat): (c: Client)
    ensures Orderly(c)
  {
    Client(rank, servers, false, 0, 0, target, Numbering(lines, rank))
  }

  /** Replies reach only a client that has been started. */
  predicate Heeds(started: bool, schedule: seq<(Heard, Option<nat>)>)
    decreases |schedule|
  {
    schedule != [] ==>
      && (schedule[0].0.Answer? ==> started)
      && Heeds(started || schedule[0].0.Begin?, schedule[1..])
  }

  /** The run loop on what it hears, until every command is answered. */
  function RunOn(c: Client, schedule: seq<(Heard, Option<nat>)>): (t: Turn)
    requires Orderly(c) && Heeds(c.started, schedule)
    ensures Orderly(t.client)
    decreases |schedule|
  {
    if schedule == [] || c.nextResponse >= |c.commands| then Turn(c, [])
    else
      var first := Iterate(c, schedule[0].0, schedule[0].1);
      var rest := RunOn(first.client, schedule[1..]);
      Turn(rest.client, first.sent + rest.sent)
  }

  lemma IterateStarts(c: Client, heard: Heard, resend: Option<nat>)
    requires Orderly(c) && c.nextResponse < |c.commands| && (heard.Answer? ==> c.started)
    ensures var c' := Iterate(c, heard, resend).client;
      Orderly(c') && c'.started == (c.started || heard.Begin?)
  {}

  lemma RunOnStep(c: Client, schedule: seq<(Heard, Option<nat>)>)
    requires Orderly(c) && Heeds(c.started, schedule)
    requires schedule != [] && c.nextResponse < |c.commands|
    ensures var first := Iterate(c, schedule[0].0, schedule[0].1);
      && Orderly(first.client) && Heeds(first.client.started, schedule[1..])
      && RunOn(c, schedule).client == RunOn(first.client, schedule[1..]).client
      && RunOn(c, schedule).sent == first.sent + RunOn(first.client, schedule[1..]).sent
  {
    IterateStarts(c, schedule[0].0, schedule[0].1);
  }

  lemma {:induction false} SilentUntilStarted(c: Client, schedule: seq<(Heard, Option<nat>)>)
    requires Orderly(c) && Heeds(c.started, schedule) && !c.started
    requires forall i :: 0 <= i < |schedule| ==> !schedule[i].0.Begin?
    ensures RunOn(c, schedule) == Turn(c, [])
    decreases |schedule|
  {
    if schedule != [] && c.nextResponse < |c.commands| {
      RunOnStep(c, schedule);
      assert schedule[0].0 == Nothing;
      SilentUntilStarted(c, schedule[1..]);
    }
  }

  /** A new client waits to be started, and sends nothing before; then it asks the server it
      was created with for its first command. */
  lemma {:induction false} AsksWhenStarted(rank: nat, servers: nat, lines: seq<string>, target: nat,
                                          schedule: seq<(Heard, Option<nat>)>)
    requires lines != [] && Heeds(false, schedule)
    requires forall i :: 0 <= i < |schedule| ==> !schedule[i].0.Begin?
    ensures var t := RunOn(NewClient(rank, servers, lines, target), schedule);
      && t.sent == []
      && RunOn(t.client, [(Begin, None), (Nothing, None)]).sent
         == [Envelope(target, ClientRequest(Request(lines[0], 1, rank)))]
  {
    var c := NewClient(rank, servers, lines, target);
    SilentUntilStarted(c, schedule);
    var two: seq<(Heard, Option<nat>)> := [(Begin, None), (Nothing, None)];
    RunOnStep(c, two);
    RunOnStep(Iterate(c, Begin, None).client, two[1..]);
  }

  /** What is left to do, after `sent`, completes `all`. */
  ghost predicate Pending(c: Client, schedule: seq<(Heard, Option<nat>)>, all: Turn, sent: seq<Envelope>) {
    && Orderly(c) && Heeds(c.started, schedule)
    && all.client == RunOn(c, schedule).client
    && all.sent == sent + RunOn(c, schedule).sent
  }

  lemma PendingStep(c: Client, schedule: seq<(Heard, Option<nat>)>, all: Turn, sent: seq<Envelope>)
    requires Pending(c, schedule, all, sent) && schedule != [] && c.nextResponse < |c.commands|
    ensures var first := Iterate(c, schedule[0].0, schedule[0].1);
      Pending(first.client, schedule[1..], all, sent + first.sent)
  {
    RunOnStep(c, schedule);
  }

  lemma PendingDone(c: Client, schedule: seq<(Heard, Option<nat>)>, all: Turn, sent: seq<Envelope>)
    requires Pending(c, schedule, all, sent) && (schedule == [] || c.nextResponse >= |c.commands|)
    ensures all == Turn(c, sent)
  {}
}
