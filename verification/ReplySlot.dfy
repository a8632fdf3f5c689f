/** The reusable per-connection reply slot (src/cache/reply.rs). */
module ReplyChannel {
  import opened Common

  datatype Delivery<T> = Sent(reply: T) | Dropped

  datatype Result<T> = Ok | Err(reply: T)

  /** The connection's notified future: not polled yet, registered as the waiter, or completed and not polled since. */
  datatype Receiver = Idle | Parked | Woken

  datatype Slot<T> = Slot(unread: Option<Delivery<T>>, permit: bool, receiver: Receiver)

  /** `notify_one`: wakes the registered waiter, or leaves the single permit. */
  function NotifyOne<T>(s: Slot<T>): Slot<T> {
    if s.receiver.Parked? then s.(receiver := Woken) else s.(permit := true)
  }

  function Deliver<T>(s: Slot<T>, d: Delivery<T>): Slot<T> { s.(unread := Some(d)) }

  /** Polling a fresh future consumes the permit or registers the waiter. */
  function Poll<T>(s: Slot<T>): Slot<T> {
    if s.permit then s.(permit := false, receiver := Woken) else s.(receiver := Parked)
  }

  /** Dropping the future passes on a wakeup it had received. */
  function Leave<T>(s: Slot<T>): Slot<T> {
    s.(receiver := Idle, permit := s.permit || s.receiver.Woken?)
  }

  class ReplySlot<T(0)> {
    var unread: Option<Delivery<T>>
    var permit: bool
    var receiver: Receiver
    /** The connection still holds the slot. */
    var connected: bool

    ghost function Abs(): Slot<T>
      reads this
    {
      Slot(unread, permit, receiver)
    }

    constructor ()
      ensures Abs() == Slot(None, false, Idle) && connected
    {
      unread, permit, receiver, connected := None, false, Idle, true;
    }

    /** Mints a query's sender; nothing an earlier query left in the cell survives. */
    method Sender() returns (sender: ReplySender<T>)
      modifies this
      ensures fresh(sender) && sender.slot == this && sender.armed
      ensures Abs() == old(Abs()).(unread := None) && connected == old(connected)
    {
      unread := None;
      sender := new ReplySender(this);
    }

    method Take() returns (d: Option<Delivery<T>>)
      modifies this
      ensures d == old(unread) && Abs() == old(Abs()).(unread := None) && connected == old(connected)
    {
      d := unread;
      unread := None;
    }

    method Notify()
      modifies this
      ensures Abs() == NotifyOne(old(Abs())) && connected == old(connected)
    {
      if receiver.Parked? {
        receiver := Woken;
      } else {
        permit := true;
      }
    }
  }

  class ReplySender<T(0)> {
    const slot: ReplySlot<T>
    var armed: bool

    constructor (s: ReplySlot<T>)
      ensures slot == s && armed
    {
      slot, armed := s, true;
    }

    /** Delivers the reply and wakes the connection, or hands the reply back when the connection has gone away. */
    method Send(reply: T) returns (r: Result<T>)
      modifies this, slot
      ensures !armed && slot.connected == old(slot.connected)
      ensures r == if slot.connected then Ok else Err(reply)
      ensures slot.Abs() == if r.Ok? then NotifyOne(Deliver(old(slot.Abs()), Sent(reply))) else old(slot.Abs())
    {
      armed := false;
      if !slot.connected {
        return Err(reply);
      }
      slot.unread := Some(Sent(reply));
      slot.Notify();
      r := Ok;
    }

    method Disarm()
      modifies this
      ensures !armed && slot.Abs() == old(slot.Abs())
    {
      armed := false;
    }

    /** What happens when the sender goes out of scope. */
    method Drop()
      modifies slot
      ensures slot.connected == old(slot.connected)
      ensures slot.Abs() == if armed then NotifyOne(Deliver(old(slot.Abs()), Dropped)) else old(slot.Abs())
    {
      if armed {
        slot.unread := Some(Dropped);
        slot.Notify();
      }
    }
  }
}

/**
 * One connection's queries over one slot, one outstanding at a time. A sender's write and its notify may be split: the
 * receiver, woken by a leftover permit, can then take the reply and go on to the next query before the notify lands.
 */
module ReplyProtocol {
  import opened Common
  import opened ReplyChannel

  datatype World<T> = World(
    slot: Slot<T>,
    /** The current query's sender has neither delivered nor been disarmed. */
    armed: bool,
    /** What the current query's own sender delivered. */
    delivered: Option<Delivery<T>>,
    /** The current query's wait is over. */
    settled: bool,
    /** Its sender has written and not notified. */
    owesNotify: bool,
    /** Notifies owed by senders of earlier queries. */
    late: nat,
    /** Wakeups of the current query that found nothing. */
    emptyWakes: nat,
    /** Late notifies that landed during the current query. */
    strays: nat)

  datatype Step<T> =
    | Mint
    | Write(d: Delivery<T>, atomic: bool)
    | NotifyOwn
    | NotifyLate
    | Disarm
    | PollWait
    | Take
    | Abandon

  ghost function Start<T>(): World<T> { World(Slot(None, false, Idle), false, None, true, false, 0, 0, 0) }

  predicate Enabled<T>(w: World<T>, s: Step<T>) {
    match s
    case Mint => !w.armed && w.slot.receiver.Idle?
    case Write(_, _) => w.armed
    case NotifyOwn => w.owesNotify
    case NotifyLate => w.late > 0
    case Disarm => w.armed && w.slot.receiver.Idle?
    case PollWait => !w.settled && w.slot.receiver.Idle?
    case Take => w.slot.receiver.Woken?
    case Abandon => !w.slot.receiver.Idle?
  }

  function Next<T(==)>(w: World<T>, s: Step<T>): World<T>
    requires Enabled(w, s)
  {
    match s
    case Mint =>
      World(w.slot.(unread := None), true, None, false, false, w.late + (if w.owesNotify then 1 else 0), 0, 0)
    case Write(d, atomic) =>
      var slot := Deliver(w.slot, d);
      w.(slot := if atomic then NotifyOne(slot) else slot, armed := false, delivered := Some(d), owesNotify := !atomic)
    case NotifyOwn => w.(slot := NotifyOne(w.slot), owesNotify := false)
    case NotifyLate => w.(slot := NotifyOne(w.slot), late := w.late - 1, strays := w.strays + 1)
    case Disarm => w.(armed := false, settled := true)
    case PollWait => w.(slot := Poll(w.slot))
    case Take =>
      w.(slot := w.slot.(unread := None, receiver := Idle),
         settled := w.settled || w.slot.unread.Some?,
         emptyWakes := w.emptyWakes + if w.slot.unread.None? then 1 else 0)
    case Abandon => w.(slot := Leave(w.slot), settled := true)
  }

  /** Wakeups the receiver can still be given without another notify. */
  function Tokens<T>(w: World<T>): nat {
    (if w.slot.permit then 1 else 0) + (if w.slot.receiver.Woken? then 1 else 0)
  }

  /** An untaken delivery has a permit, a wakeup or a notify pending. */
  predicate Announced<T>(w: World<T>) {
    w.slot.unread.Some? ==> w.slot.permit || w.slot.receiver.Woken? || w.owesNotify
  }

  predicate Inv<T(==)>(w: World<T>) {
    // What is in the cell is what the current query's sender put there, and the wait is not over before it is taken.
    && (w.slot.unread.Some? ==> w.slot.unread == w.delivered)
    && (w.armed ==> w.delivered.None? && !w.owesNotify)
    && (w.delivered.Some? && w.slot.unread.None? ==> w.settled)
    && (w.settled ==> w.slot.receiver.Idle?)
    && (!w.armed && !w.settled ==> w.delivered.Some?)
    && Announced(w)
    && w.emptyWakes <= 1 + w.strays
    && (w.armed ==> w.emptyWakes + Tokens(w) <= 1 + w.strays)
  }

  lemma StepKeepsInv<T>(w: World<T>, s: Step<T>)
    requires Inv(w) && Enabled(w, s)
    ensures Inv(Next(w, s))
  {
  }

  predicate IsRun<T(==)>(w: World<T>, steps: seq<Step<T>>)
    decreases |steps|
  {
    steps == [] || (Enabled(w, steps[0]) && IsRun(Next(w, steps[0]), steps[1..]))
  }

  function After<T(==)>(w: World<T>, steps: seq<Step<T>>): World<T>
    requires IsRun(w, steps)
    decreases |steps|
  {
    if steps == [] then w else After(Next(w, steps[0]), steps[1..])
  }

  lemma {:induction false} RunKeepsInv<T>(w: World<T>, steps: seq<Step<T>>)
    requires Inv(w) && IsRun(w, steps)
    ensures Inv(After(w, steps))
    decreases |steps|
  {
    if steps != [] {
      StepKeepsInv(w, steps[0]);
      RunKeepsInv(Next(w, steps[0]), steps[1..]);
    }
  }

  /** A take yields nothing, or exactly what the current query's own sender delivered. */
  lemma TakeIsOwn<T>(steps: seq<Step<T>>)
    requires IsRun(Start<T>(), steps) && After(Start<T>(), steps).slot.receiver.Woken?
    ensures var w := After(Start<T>(), steps); w.slot.unread.Some? ==> w.slot.unread == w.delivered
  {
    RunKeepsInv(Start<T>(), steps);
  }

  /** No reply is lost: once the current query's sender has delivered, a permit, a wakeup or its notify is pending. */
  lemma DeliveryAnnounced<T>(steps: seq<Step<T>>)
    requires IsRun(Start<T>(), steps)
    ensures var w := After(Start<T>(), steps);
      w.delivered.Some? && !w.settled ==>
        w.slot.unread == w.delivered && (w.slot.permit || w.slot.receiver.Woken? || w.owesNotify)
  {
    RunKeepsInv(Start<T>(), steps);
  }

  /** A query sees at most one empty wakeup, plus one for each late notify that landed during it. */
  lemma EmptyWakesBounded<T>(steps: seq<Step<T>>)
    requires IsRun(Start<T>(), steps)
    ensures var w := After(Start<T>(), steps); w.emptyWakes <= 1 + w.strays
  {
    RunKeepsInv(Start<T>(), steps);
  }

  predicate AtomicSends<T>(steps: seq<Step<T>>) {
    forall i :: 0 <= i < |steps| ==> steps[i].Write? ==> steps[i].atomic
  }

  lemma {:induction false} AtomicNeverLate<T>(w: World<T>, steps: seq<Step<T>>)
    requires IsRun(w, steps) && AtomicSends(steps) && !w.owesNotify && w.late == 0 && w.strays == 0
    ensures After(w, steps).strays == 0
    decreases |steps|
  {
    if steps != [] {
      AtomicNeverLate(Next(w, steps[0]), steps[1..]);
    }
  }

  /** With send and drop as single steps, no query sees more than one empty wakeup. */
  lemma OneEmptyWake<T>(steps: seq<Step<T>>)
    requires IsRun(Start<T>(), steps) && AtomicSends(steps)
    ensures After(Start<T>(), steps).emptyWakes <= 1
  {
    RunKeepsInv(Start<T>(), steps);
    AtomicNeverLate(Start<T>(), steps);
  }

  lemma {:induction false} RunConcat<T>(w: World<T>, a: seq<Step<T>>, b: seq<Step<T>>)
    requires IsRun(w, a) && IsRun(After(w, a), b)
    ensures IsRun(w, a + b) && After(w, a + b) == After(After(w, a), b)
    decreases |a|
  {
    if a == [] {
      assert a + b == b;
    } else {
      RunConcat(Next(w, a[0]), a[1..], b);
      assert (a + b)[1..] == a[1..] + b;
    }
  }

  /** The steps stay within one query. */
  predicate OneQuery<T>(steps: seq<Step<T>>) { forall i :: 0 <= i < |steps| ==> !steps[i].Mint? }

  /** What a query can still be woken by before its own delivery: the tokens in the slot and the late notifies. */
  predicate WakesLeft<T>(w: World<T>, bound: nat) {
    w.emptyWakes <= bound && (w.armed ==> w.emptyWakes + Tokens(w) + w.late <= bound)
  }

  lemma StepKeepsWakes<T>(w: World<T>, s: Step<T>, bound: nat)
    requires Inv(w) && Enabled(w, s) && !s.Mint? && WakesLeft(w, bound)
    ensures WakesLeft(Next(w, s), bound)
  {
  }

  lemma {:induction false} RunKeepsWakes<T>(w: World<T>, steps: seq<Step<T>>, bound: nat)
    requires Inv(w) && IsRun(w, steps) && OneQuery(steps) && WakesLeft(w, bound)
    ensures After(w, steps).emptyWakes <= bound
    decreases |steps|
  {
    if steps != [] {
      StepKeepsInv(w, steps[0]);
      StepKeepsWakes(w, steps[0], bound);
      RunKeepsWakes(Next(w, steps[0]), steps[1..], bound);
    }
  }

  /** A waiting query can be woken for nothing once by the permit and once by each late notify. */
  lemma {:induction false} WakesRun<T>(w: World<T>, k: nat) returns (steps: seq<Step<T>>)
    requires w.armed && !w.settled && w.slot.receiver.Idle? && w.slot.unread.None?
    requires k <= (if w.slot.permit then 1 else 0) + w.late
    ensures IsRun(w, steps) && OneQuery(steps) && After(w, steps).emptyWakes == w.emptyWakes + k
    decreases k
  {
    if k == 0 {
      steps := [];
    } else {
      var wake: seq<Step<T>> := if w.slot.permit then [PollWait, Take] else [PollWait, NotifyLate] + [Take];
      if w.slot.permit {
        RunTwo(w, PollWait, Take);
      } else {
        RunTwo(w, PollWait, NotifyLate);
        RunOne(After(w, [PollWait, NotifyLate]), Take);
        RunConcat(w, [PollWait, NotifyLate], [Take]);
      }
      var v := After(w, wake);
      var rest := WakesRun(v, k - 1);
      RunConcat(w, wake, rest);
      steps := wake + rest;
    }
  }

  /** Some continuation of the current query sees `k` empty wakeups. */
  ghost predicate CanSee<T(!new)>(w: World<T>, k: nat) {
    exists steps: seq<Step<T>> {:trigger OneQuery(steps)} ::
      OneQuery(steps) && IsRun(w, steps) && After(w, steps).emptyWakes == k
  }

  /** A query just minted can see `k` empty wakeups if and only if `k` is at most the permit left in the slot plus the
      notifies that senders of earlier queries still owe. */
  lemma EmptyWakesExact<T(!new)>(w: World<T>, k: nat)
    requires Inv(w) && Enabled(w, Mint)
    ensures var minted := Next(w, Mint); CanSee(minted, k) <==> k <= (if minted.slot.permit then 1 else 0) + minted.late
  {
    var minted := Next(w, Mint);
    var bound := (if minted.slot.permit then 1 else 0) + minted.late;
    StepKeepsInv(w, Mint);
    if k <= bound {
      var steps := WakesRun(minted, k);
      assert OneQuery(steps);
    } else if CanSee(minted, k) {
      var steps: seq<Step<T>> :| OneQuery(steps) && IsRun(minted, steps) && After(minted, steps).emptyWakes == k;
      RunKeepsWakes(minted, steps, bound);
    }
  }

  lemma RunOne<T>(w: World<T>, s: Step<T>)
    requires Enabled(w, s)
    ensures IsRun(w, [s]) && After(w, [s]) == Next(w, s)
  {
    assert [s][1..] == [];
  }

  lemma RunTwo<T>(w: World<T>, s: Step<T>, t: Step<T>)
    requires Enabled(w, s) && Enabled(Next(w, s), t)
    ensures IsRun(w, [s, t]) && After(w, [s, t]) == Next(Next(w, s), t)
  {
    RunOne(Next(w, s), t);
    assert [s, t][1..] == [t];
  }

  lemma RunFour<T>(w: World<T>, a: Step<T>, b: Step<T>, c: Step<T>, d: Step<T>)
    requires Enabled(w, a) && Enabled(Next(w, a), b)
    requires var v := Next(Next(w, a), b); Enabled(v, c) && Enabled(Next(v, c), d)
    ensures IsRun(w, [a, b, c, d]) && After(w, [a, b, c, d]) == Next(Next(Next(Next(w, a), b), c), d)
  {
    RunTwo(w, a, b);
    RunTwo(Next(Next(w, a), b), c, d);
    RunConcat(w, [a, b], [c, d]);
    assert [a, b] + [c, d] == [a, b, c, d];
  }

  /** A query served off a leftover permit before its sender's notify; its notify stays owed. */
  lemma ServedEarly(w: World<int>)
    requires w == Start<int>().(slot := Slot(Some(Dropped), true, Idle), delivered := Some(Dropped), settled := false)
    ensures IsRun(w, [Mint, PollWait, Write(Sent(7), false), Take])
    ensures After(w, [Mint, PollWait, Write(Sent(7), false), Take])
         == World(Slot(None, false, Idle), false, Some(Sent(7)), true, true, 0, 0, 0)
  {
    RunFour(w, Mint, PollWait, Write(Sent(7), false), Take);
  }

  /** The bound is not 1 with a late notify: a discarded query's permit and a late notify both reach the last query. */
  lemma TwoEmptyWakes() returns (steps: seq<Step<int>>)
    ensures IsRun(Start<int>(), steps) && After(Start<int>(), steps).emptyWakes == 2
  {
    var w0 := Start<int>();
    var discard, serve := [Mint, Write(Dropped, true)], [Mint, PollWait, Write(Sent(7), false), Take];
    RunTwo(w0, Mint, Write(Dropped, true));
    var w1 := After(w0, discard);
    ServedEarly(w1);
    RunConcat(w0, discard, serve);
    var w2 := After(w1, serve);
    RunTwo(w2, Mint, Write(Dropped, true));
    RunConcat(w0, discard + serve, discard);
    var w3 := World(Slot(Some(Dropped), true, Idle), false, Some(Dropped), false, false, 1, 0, 0);
    assert After(w2, discard) == w3;
    steps := discard + serve + discard;
    steps := TwoMoreWakes(w0, steps, w3);
  }

  lemma TwoMoreWakes(w0: World<int>, before: seq<Step<int>>, w: World<int>) returns (steps: seq<Step<int>>)
    requires IsRun(w0, before) && After(w0, before) == w
    requires w == World(Slot(Some(Dropped), true, Idle), false, Some(Dropped), false, false, 1, 0, 0)
    ensures IsRun(w0, steps) && After(w0, steps).emptyWakes == 2
  {
    var v: World<int> := World(Slot(None, false, Parked), true, None, false, false, 1, 1, 0);
    RunFour(w, Mint, PollWait, Take, PollWait);
    RunTwo(v, NotifyLate, Take);
    RunConcat(w0, before, [Mint, PollWait, Take, PollWait]);
    steps := before + [Mint, PollWait, Take, PollWait];
    RunConcat(w0, steps, [NotifyLate, Take]);
    steps := steps + [NotifyLate, Take];
  }
}
