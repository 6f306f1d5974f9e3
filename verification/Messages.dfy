/** The messages that servers and clients exchange, and outgoing mail. */
module Messages {
  import opened LogEntries

  datatype Option<+T> = None | Some(value: T)

  datatype Request = Request(command: string, serial: nat, client: nat)

  datatype Msg =
    | RequestVote(term: nat, candidate: nat, lastIndex: Index, lastTerm: int)
    | VoteResponse(term: nat, granted: bool)
    | AppendEntries(term: nat, leader: nat, prev: Index, prevTerm: int, entries: Log, leaderCommit: Index)
    | AppendResponse(term: nat, success: bool, follower: nat, lastIndex: Index)
    | ClientRequest(request: Request)
    | ClientResponse(success: bool, leaderId: nat)
  {
    predicate IsRpc() {
      RequestVote? || VoteResponse? || AppendEntries? || AppendResponse?
    }
  }

  /** The position after the last entry of an AppendEntries. */
  function End(m: Msg): nat
    requires m.AppendEntries?
  {
    m.prev + 1 + |m.entries|
  }

  /** One `MPI_Send`: the rank it goes to and what it carries. */
  datatype Envelope = Envelope(dst: nat, msg: Msg)

  /** The messages among `out` that go to `dst`, in the order they were sent. */
  function MsgsTo(out: seq<Envelope>, dst: nat): seq<Msg>
    decreases |out|
  {
    if out == [] then []
    else
      var e := out[|out| - 1];
      MsgsTo(out[..|out| - 1], dst) + if e.dst == dst then [e.msg] else []
  }

  lemma MsgsToSnoc(out: seq<Envelope>, e: Envelope, dst: nat)
    ensures MsgsTo(out + [e], dst) == MsgsTo(out, dst) + if e.dst == dst then [e.msg] else []
  {
    assert (out + [e])[..|out|] == out;
  }

  lemma OneMail(e: Envelope, q: nat)
    ensures MsgsTo([e], q) == if e.dst == q then [e.msg] else []
  {
    assert [e][..0] == [];
  }

  lemma {:induction false} MsgsToMember(out: seq<Envelope>, dst: nat, m: Msg)
    ensures m in MsgsTo(out, dst) <==> Envelope(dst, m) in out
    decreases |out|
  {
    if out != [] {
      MsgsToMember(out[..|out| - 1], dst, m);
      assert out == out[..|out| - 1] + [out[|out| - 1]];
    }
  }
}
