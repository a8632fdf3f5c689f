/** The replication consumer's LSN bookkeeping on one connection (src/cache/cdc.rs). */
module CursorSpec {
  import opened Common

  /** `shared` is the cursor published to other tasks; `marks` the keep-alive positions forwarded to the writer. */
  datatype Cursors = Cursors(received: nat, decoded: nat, flushed: nat, shared: nat, marks: seq<nat>)

  /** Whether the writer accepted what the message hands over, and whether a status update reached the server. */
  datatype Message =
    | Data(walStart: nat, handed: bool)
    | KeepAlive(walEnd: nat, reply: bool, handed: bool, sent: bool)
    | Status(sent: bool)

  function Received(c: Cursors, lsn: nat): Cursors { c.(received := lsn, shared := Max(c.shared, lsn)) }

  function Decoded(c: Cursors): Cursors { c.(decoded := Max(c.decoded, c.received)) }

  function StatusSent(c: Cursors, sent: bool): Cursors { if sent then c.(flushed := c.decoded) else c }

  /** A keep-alive beyond the decoded position advances it and, if the writer takes it, is marked. */
  function Advanced(c: Cursors, walEnd: nat, handed: bool): Cursors {
    if walEnd <= c.decoded then c
    else
      var d := Received(c, walEnd).(decoded := walEnd);
      if handed then d.(marks := c.marks + [walEnd]) else d
  }

  /** The message is refused: the writer is gone and the stream must stop. */
  predicate Fails(c: Cursors, m: Message) {
    match m
    case Data(_, handed) => !handed
    case KeepAlive(walEnd, _, handed, _) => walEnd > c.decoded && !handed
    case Status(_) => false
  }

  function Handled(c: Cursors, m: Message): Cursors {
    match m
    case Data(walStart, handed) => if handed then Decoded(Received(c, walStart)) else Received(c, walStart)
    case KeepAlive(walEnd, reply, handed, sent) =>
      var d := Advanced(c, walEnd, handed);
      if Fails(c, m) || !reply then d else StatusSent(d, sent)
    case Status(sent) => StatusSent(c, sent)
  }

  /** A run ends with the first message that fails. */
  predicate IsRun(c: Cursors, ms: seq<Message>)
    decreases |ms|
  {
    ms == [] || |ms| == 1 || (!Fails(c, ms[0]) && IsRun(Handled(c, ms[0]), ms[1..]))
  }

  function After(c: Cursors, ms: seq<Message>): Cursors
    decreases |ms|
  {
    if ms == [] then c else After(Handled(c, ms[0]), ms[1..])
  }

  predicate Increasing(s: seq<nat>) { forall i, j :: 0 <= i < j < |s| ==> s[i] < s[j] }

  predicate Inv(c: Cursors) {
    && c.flushed <= c.decoded <= c.shared && c.received <= c.shared
    && Increasing(c.marks) && (c.marks != [] ==> c.marks[|c.marks| - 1] <= c.decoded)
  }

  /** Nothing moves back: only the received position may, when a data message starts below an earlier keep-alive. */
  predicate Forward(c: Cursors, d: Cursors) {
    c.decoded <= d.decoded && c.flushed <= d.flushed && c.shared <= d.shared && c.marks <= d.marks
  }

  lemma StepKeepsOrder(c: Cursors, m: Message)
    requires Inv(c)
    ensures Inv(Handled(c, m)) && Forward(c, Handled(c, m))
  {
  }

  /** Over any order of messages the cursors stay ordered, none goes back, and the forwarded marks strictly increase. */
  lemma {:induction false} CursorsOrdered(c: Cursors, ms: seq<Message>)
    requires Inv(c)
    ensures Inv(After(c, ms)) && Forward(c, After(c, ms))
    decreases |ms|
  {
    if ms != [] {
      StepKeepsOrder(c, ms[0]);
      CursorsOrdered(Handled(c, ms[0]), ms[1..]);
    }
  }

  /** The furthest position the writer has accepted. */
  function Accepted(c: Cursors, ms: seq<Message>, from: nat): nat
    decreases |ms|
  {
    if ms == [] then from
    else
      var here :=
        if Fails(c, ms[0]) then from
        else match ms[0]
             case Data(walStart, _) => Max(from, walStart)
             case KeepAlive(walEnd, _, _, _) => Max(from, walEnd)
             case Status(_) => from;
      Accepted(Handled(c, ms[0]), ms[1..], here)
  }

  /** Before anything fails the decoded position is exactly what the writer has accepted, and however the run ends no
      position beyond that is ever acknowledged to the server. */
  lemma {:induction false} AcknowledgedWasAccepted(c: Cursors, ms: seq<Message>)
    requires Inv(c) && IsRun(c, ms)
    ensures After(c, ms).flushed <= Accepted(c, ms, c.decoded)
    ensures (ms == [] || !Fails(After(c, ms[..|ms| - 1]), ms[|ms| - 1]))
      ==> After(c, ms).decoded == Accepted(c, ms, c.decoded)
    decreases |ms|
  {
    if |ms| == 1 {
      StepKeepsOrder(c, ms[0]);
      assert ms[..0] == [];
      assert ms[1..] == [];
    } else if |ms| > 1 {
      var d, rest := Handled(c, ms[0]), ms[1..];
      StepKeepsOrder(c, ms[0]);
      AcknowledgedWasAccepted(d, rest);
      assert ms[..|ms| - 1][1..] == rest[..|rest| - 1];
    }
  }

  /** The message ends with a status update that reaches the server. */
  predicate Acknowledges(c: Cursors, m: Message) {
    match m
    case Data(_, _) => false
    case KeepAlive(_, reply, _, sent) => reply && sent && !Fails(c, m)
    case Status(sent) => sent
  }

  /** What the last status update that reached the server acknowledged: all the writer had accepted by then. */
  function Acknowledged(c: Cursors, ms: seq<Message>, from: nat, acked: nat): nat
    decreases |ms|
  {
    if ms == [] then acked
    else
      var here := Accepted(c, [ms[0]], from);
      Acknowledged(Handled(c, ms[0]), ms[1..], here, if Acknowledges(c, ms[0]) then here else acked)
  }

  lemma AcceptedOne(c: Cursors, m: Message)
    requires Inv(c) && !Fails(c, m)
    ensures Accepted(c, [m], c.decoded) == Handled(c, m).decoded
  {
    assert [m][1..] == [];
  }

  /** The server is told of everything the writer had accepted at the last update that reached it, no less. */
  lemma {:induction false} AcknowledgedExact(c: Cursors, ms: seq<Message>)
    requires Inv(c) && IsRun(c, ms)
    ensures After(c, ms).flushed == Acknowledged(c, ms, c.decoded, c.flushed)
    decreases |ms|
  {
    if ms != [] {
      StepKeepsOrder(c, ms[0]);
      var d := Handled(c, ms[0]);
      if Fails(c, ms[0]) {
        assert ms[1..] == [] && After(d, []) == d;
      } else {
        AcceptedOne(c, ms[0]);
        AcknowledgedExact(d, ms[1..]);
      }
    }
  }

  /** The position a message carries. */
  function Position(m: Message): nat {
    match m case Data(walStart, _) => walStart case KeepAlive(walEnd, _, _, _) => walEnd case Status(_) => 0
  }

  function Furthest(ms: seq<Message>, from: nat): nat {
    if ms == [] then from else Furthest(ms[1..], Max(from, Position(ms[0])))
  }

  /** The published cursor is the furthest position seen on any message, accepted or refused. */
  lemma {:induction false} SharedExact(c: Cursors, ms: seq<Message>)
    requires Inv(c)
    ensures After(c, ms).shared == Furthest(ms, c.shared)
    decreases |ms|
  {
    if ms != [] {
      StepKeepsOrder(c, ms[0]);
      assert Handled(c, ms[0]).shared == Max(c.shared, Position(ms[0]));
      SharedExact(Handled(c, ms[0]), ms[1..]);
    }
  }

  /** The keep-alive positions beyond everything accepted before them. */
  function News(ms: seq<Message>, from: nat): seq<nat> {
    if ms == [] then []
    else
      (if ms[0].KeepAlive? && Position(ms[0]) > from then [Position(ms[0])] else [])
      + News(ms[1..], Max(from, Position(ms[0])))
  }

  predicate AllHanded(ms: seq<Message>) {
    forall i :: 0 <= i < |ms| ==> match ms[i]
                                  case Data(_, handed) => handed
                                  case KeepAlive(_, _, handed, _) => handed
                                  case Status(_) => true
  }

  /** While the writer accepts everything, the decoded position is the furthest seen, and the writer is sent a mark for
      exactly the keep-alives that bring news. */
  lemma {:induction false} MarksExact(c: Cursors, ms: seq<Message>)
    requires Inv(c) && AllHanded(ms)
    ensures After(c, ms).decoded == Furthest(ms, c.decoded)
    ensures After(c, ms).marks == c.marks + News(ms, c.decoded)
    decreases |ms|
  {
    if ms != [] {
      StepKeepsOrder(c, ms[0]);
      var d, rest := Handled(c, ms[0]), ms[1..];
      assert forall i :: 0 <= i < |rest| ==> rest[i] == ms[i + 1];
      assert d.decoded == Max(c.decoded, Position(ms[0]));
      MarksExact(d, rest);
      var first := if ms[0].KeepAlive? && Position(ms[0]) > c.decoded then [Position(ms[0])] else [];
      assert d.marks == c.marks + first;
      assert c.marks + first + News(rest, d.decoded) == c.marks + (first + News(rest, d.decoded));
    }
  }

  /** A refused message leaves the decoded position where it was exactly when it is a data message: a refused keep-alive
      has already moved it. Neither moves what has been acknowledged, nor the marks. */
  lemma RefusedExact(c: Cursors, m: Message)
    requires Inv(c) && Fails(c, m)
    ensures Handled(c, m).decoded == c.decoded <==> m.Data?
    ensures Handled(c, m).flushed == c.flushed && Handled(c, m).marks == c.marks
  {
  }
}

module CdcCursors {
  import opened Common
  import opened CursorSpec

  class CdcConsumer {
    var received: nat
    var decoded: nat
    var flushed: nat
    var shared: nat
    ghost var marks: seq<nat>

    ghost function Abs(): Cursors
      reads this
    {
      Cursors(received, decoded, flushed, shared, marks)
    }

    ghost predicate Valid()
      reads this
    {
      Inv(Abs())
    }

    constructor (published: nat)
      ensures Valid() && Abs() == Cursors(0, 0, 0, published, [])
    {
      received, decoded, flushed, shared, marks := 0, 0, 0, published, [];
    }

    method UpdateLsn(walStart: nat)
      modifies this
      ensures Abs() == Received(old(Abs()), walStart)
      ensures received == walStart && shared == Max(old(shared), walStart)
      ensures decoded == old(decoded) && flushed == old(flushed) && marks == old(marks)
    {
      received := walStart;
      shared := Max(shared, walStart);
    }

    method MarkLsnDecoded()
      modifies this
      ensures Abs() == Decoded(old(Abs()))
      ensures decoded == Max(old(decoded), received) && received == old(received) && flushed == old(flushed)
    {
      if received > decoded {
        decoded := received;
      }
    }

    /** A failed send is logged and changes nothing. */
    method SendStandbyStatusUpdate(sent: bool)
      requires Valid()
      modifies this
      ensures Valid() && Abs() == Handled(old(Abs()), Status(sent)) && Forward(old(Abs()), Abs())
    {
      if sent {
        flushed := decoded;
      }
    }

    method HandleKeepAlive(walEnd: nat, reply: bool, handed: bool, sent: bool) returns (ok: bool)
      requires Valid()
      modifies this
      ensures Valid() && Abs() == Handled(old(Abs()), KeepAlive(walEnd, reply, handed, sent))
      ensures Forward(old(Abs()), Abs()) && (ok <==> !Fails(old(Abs()), KeepAlive(walEnd, reply, handed, sent)))
    {
      if walEnd > decoded {
        received, decoded := walEnd, walEnd;
        shared := Max(shared, walEnd);
        if !handed {
          return false;
        }
        marks := marks + [walEnd];
      }
      if reply {
        SendStandbyStatusUpdate(sent);
      }
      ok := true;
    }

    method ProcessData(walStart: nat, handed: bool) returns (ok: bool)
      requires Valid()
      modifies this
      ensures Valid() && Abs() == Handled(old(Abs()), Data(walStart, handed))
      ensures Forward(old(Abs()), Abs()) && (ok <==> handed)
    {
      UpdateLsn(walStart);
      if handed {
        MarkLsnDecoded();
      }
      ok := handed;
    }
  }
}
