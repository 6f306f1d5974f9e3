/** The client as the object it is, tied to the functions of RaftClient. */
module ClientObject {
  import opened Messages
  import opened RaftClient

  class ClientProcess {
    const rank: nat
    const serverLastIndex: nat
    var serialNumber: nat
    var started: bool
    var nextRequest: nat
    var nextResponse: nat
    var lastKnownLeader: nat
    var commands: seq<Request>
    var outbox: seq<Envelope>

    function State(): Client
      reads this
    {
      Client(rank, serverLastIndex, started, nextRequest, nextResponse, lastKnownLeader, commands)
    }

    constructor (serverLastIndex: nat, clientIndex: nat, lines: seq<string>, firstTarget: nat)
      ensures State() == NewClient(clientIndex, serverLastIndex, lines, firstTarget) && outbox == []
    {
      rank, this.serverLastIndex := clientIndex, serverLastIndex;
      serialNumber, started := 0, false;
      nextRequest, nextResponse, lastKnownLeader := 0, 0, firstTarget;
      commands, outbox := [], [];
      new;
      LoadClientsCommand(lines);
    }

    method CreateRequest(command: string) returns (r: Request)
      modifies this`serialNumber
      ensures serialNumber == old(serialNumber) + 1
      ensures r == Request(command, serialNumber, rank)
    {
      serialNumber := serialNumber + 1;
      r := Request(command, serialNumber, rank);
    }

    method LoadClientsCommand(lines: seq<string>)
      requires serialNumber == 0 && commands == []
      modifies this`serialNumber, this`commands
      ensures commands == Numbering(lines, rank) && serialNumber == |lines|
    {
      var i := 0;
      while i < |lines|
        invariant 0 <= i <= |lines| && serialNumber == i
        invariant commands == Numbering(lines[..i], rank)
      {
        assert lines[..i + 1][..i] == lines[..i];
        var r := CreateRequest(lines[i]);
        commands := commands + [r];
        i := i + 1;
      }
      assert lines[..i] == lines;
    }

    method SendRequest(r: Request, server: nat)
      modifies this`outbox
      ensures outbox == old(outbox) + [Envelope(server, ClientRequest(r))]
    {
      outbox := outbox + [Envelope(server, ClientRequest(r))];
    }

    method SendNextRequest()
      requires nextRequest < |commands|
      modifies this`nextRequest, this`outbox
      ensures State() == SendNext(old(State())).client
      ensures outbox == old(outbox) + SendNext(old(State())).sent
    {
      if nextRequest > nextResponse + 1 {
        return;
      }
      SendRequest(commands[nextRequest], lastKnownLeader);
      nextRequest := nextRequest + 1;
    }

    method Resend()
      requires nextResponse < |commands|
      modifies this`outbox
      ensures outbox == old(outbox) + SendAgain(State()).sent
    {
      SendRequest(commands[nextResponse], lastKnownLeader);
    }

    method OnReplStart()
      modifies this`started
      ensures State() == old(State()).(started := true)
    {
      started := true;
    }

    method OnReplSend()
      modifies this`nextRequest, this`outbox
      ensures State() == RaftClient.OnReplSend(old(State())).client
      ensures outbox == old(outbox) + RaftClient.OnReplSend(old(State())).sent
    {
      if nextRequest >= |commands| {
        return;
      }
      SendNextRequest();
    }

    method OnClientResponse(success: bool, leaderId: nat)
      requires nextResponse < |commands|
      modifies this
      ensures State() == OnResponse(old(State()), success, leaderId).client
      ensures outbox == old(outbox) + OnResponse(old(State()), success, leaderId).sent
    {
      if success {
        nextResponse := nextResponse + 1;
      } else {
        lastKnownLeader := leaderId;
        Resend();
      }
    }

    method CheckTimeSinceLastRequest(resend: Option<nat>)
      requires nextRequest <= |commands|
      modifies this`lastKnownLeader, this`outbox
      ensures State() == CheckTime(old(State()), resend).client
      ensures outbox == old(outbox) + CheckTime(old(State()), resend).sent
    {
      if nextRequest != nextResponse + 1 {
        return;
      }
      if resend.Some? {
        lastKnownLeader := resend.value;
        Resend();
      }
    }

    method HearOne(heard: Heard)
      requires nextResponse < |commands|
      modifies this
      ensures State() == Listen(old(State()), heard).client
      ensures outbox == old(outbox) + Listen(old(State()), heard).sent
    {
      match heard {
        case Nothing =>
        case Begin => OnReplStart();
        case Answer(m) =>
          if m.ClientResponse? {
            OnClientResponse(m.success, m.leaderId);
          }
      }
    }

    /** The run loop; `schedule` is what the environment lets it hear, one item an iteration. */
    method Run(schedule: seq<(Heard, Option<nat>)>)
      requires Orderly(State()) && Heeds(started, schedule)
      modifies this
      ensures State() == RunOn(old(State()), schedule).client
      ensures outbox == old(outbox) + RunOn(old(State()), schedule).sent
    {
      hide RunOn, Iterate, Heeds;
      ghost var all := RunOn(State(), schedule);
      ghost var before := outbox;
      var rest := schedule;
      while nextResponse < |commands| && rest != []
        invariant before <= outbox && Pending(State(), rest, all, outbox[|before|..])
        decreases |rest|
      {
        ghost var c, sent := State(), outbox[|before|..];
        PendingStep(c, rest, all, sent);
        RunIteration(rest[0].0, rest[0].1);
        assert outbox[|before|..] == sent + Iterate(c, rest[0].0, rest[0].1).sent;
        rest := rest[1..];
      }
      PendingDone(State(), rest, all, outbox[|before|..]);
      assert outbox == before + outbox[|before|..];
    }

    method RunIteration(heard: Heard, resend: Option<nat>)
      requires Orderly(State()) && nextResponse < |commands|
      modifies this
      ensures State() == Iterate(old(State()), heard, resend).client
      ensures outbox == old(outbox) + Iterate(old(State()), heard, resend).sent
    {
      if started && nextRequest == nextResponse {
        SendNextRequest();
      }
      HearOne(heard);
      CheckTimeSinceLastRequest(resend);
    }
  }
}
