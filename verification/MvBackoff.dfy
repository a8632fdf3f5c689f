/** How often one materialized view is built: the discard backoff over runs of hits, changes and completions. */
module MvBackoff {
  import opened Common
  import opened MvSpec

  type Plan = nat

  /** The build starts that one payoff put an end to. */
  datatype Series = Series(starts: seq<real>, paidAt: real)

  /** `flips` are the starts of builds thrown away by a source flip, `starts` all the others since the last payoff, and
      `paid` those before, payoff by payoff. */
  datatype World = World(meta: Meta<Plan>, clock: real, starts: seq<real>, flips: seq<real>, paid: seq<Series>)

  datatype Event =
    | Hit(now: real)
    | Begin(now: real)
    | Change(now: real)
    | Complete(outcome: Outcome, ready: bool, plan: Option<Plan>, now: real)

  predicate Enabled(w: World, e: Event) {
    && w.clock <= e.now
    && match e
       case Hit(now) => w.meta.state.Pending? && BuildPermitted(w.meta, now)
       case Begin(_) => w.meta.state.Scheduled?
       case Change(_) => true
       case Complete(_, _, _, _) => IsRunning(w)
  }

  predicate IsRunning(w: World) { w.starts != [] && (w.meta.state.Building? || w.meta.state.BuildingDirty?) }

  function Next(w: World, e: Event): World
    requires Enabled(w, e)
  {
    var v := w.(clock := e.now);
    match e
    case Hit(_) => v.(meta := w.meta.(state := Scheduled(w.meta.state.hasTable)))
    case Begin(now) => v.(meta := w.meta.(state := Building(w.meta.state.hasTable)), starts := w.starts + [now])
    case Change(now) =>
      var dirty := v.(meta := DirtyApplied(w.meta, now));
      if Payoff(w, e) then dirty.(starts := [], paid := w.paid + [Series(w.starts, now)]) else dirty
    case Complete(o, ready, plan, now) =>
      var done := v.(meta := OutcomeApplied(w.meta, o, ready, plan, now));
      var n := |w.starts| - 1;
      if SourceFlip(e) then done.(starts := w.starts[..n], flips := w.flips + [w.starts[n]]) else done
  }

  /** A first build thrown away because the source rows left their ready state is not recorded as waste. */
  predicate SourceFlip(e: Event) { e.Complete? && e.outcome.Built? && e.outcome.first && !e.ready }

  /** The build of this event paid off: a fresh view outlived the payoff window. */
  predicate Payoff(w: World, e: Event) { e.Change? && w.meta.state.Fresh? && PaidOff(w.meta, e.now) }

  predicate IsRun(w: World, events: seq<Event>)
    decreases |events|
  {
    events == [] || (Enabled(w, events[0]) && IsRun(Next(w, events[0]), events[1..]))
  }

  function After(w: World, events: seq<Event>): World
    requires IsRun(w, events)
    decreases |events|
  {
    if events == [] then w else After(Next(w, events[0]), events[1..])
  }

  ghost function Registered(now: real): World { World(NewMeta(Gated, None), now, [], [], []) }

  /** The starts since the last payoff whose waste is recorded: all but one still running or fresh. */
  function Past(w: World): seq<real> {
    if IsRunning(w) || (w.meta.state.Fresh? && w.starts != []) then w.starts[..|w.starts| - 1] else w.starts
  }

  /** Start `k` and start `k + 1`, counting from one, are at least the cooldown for `k` apart. */
  predicate Spaced(starts: seq<real>) {
    forall k :: 1 <= k < |starts| ==> starts[k] >= starts[k - 1] + Cooldown(k)
  }

  predicate Cooled(starts: seq<real>, now: real) {
    starts != [] ==> now >= starts[|starts| - 1] + Cooldown(|starts|)
  }

  /** When a build is permitted again, the past starts have cooled. */
  predicate Armed(m: Meta<Plan>, past: seq<real>, clock: real) {
    if m.retryAfter.Some? then Cooled(past, m.retryAfter.value) else Cooled(past, clock)
  }

  predicate Inv(w: World) {
    var state := w.meta.state;
    && Spaced(w.starts)
    && (w.starts != [] ==> w.starts[|w.starts| - 1] <= w.clock)
    && (state.Building? || state.BuildingDirty? || state.Fresh? ==> w.starts != [])
    && (!state.Skipped? && !state.Ineligible? ==> w.meta.wasted == Min(|Past(w)|, U32_MAX))
    && (state.Pending? || state.Scheduled? || IsRunning(w) ==> Armed(w.meta, Past(w), w.clock))
    && (state.Scheduled? ==> Cooled(w.starts, w.clock))
  }

  /** Recording the waste of the latest start keeps it cooling for long enough. */
  lemma WasteCools(w: World, now: real)
    requires w.starts != [] && w.starts[|w.starts| - 1] <= now
    requires w.meta.wasted == Min(|w.starts| - 1, U32_MAX)
    ensures var m := WasteRecorded(w.meta, now); m.wasted == Min(|w.starts|, U32_MAX) && Armed(m, w.starts, now)
  {
    CooldownShape(|w.starts|);
  }

  lemma SpacedPrefix(starts: seq<real>)
    requires starts != [] && Spaced(starts)
    ensures Spaced(starts[..|starts| - 1])
    ensures |starts| > 1 ==> starts[|starts| - 2] <= starts[|starts| - 1]
  {
    if |starts| > 1 { CooldownShape(|starts| - 1); }
  }

  lemma FlipKeepsInv(w: World, e: Event)
    requires Inv(w) && Enabled(w, e) && SourceFlip(e)
    ensures Inv(Next(w, e))
  {
    var v := Next(w, e);
    SpacedPrefix(w.starts);
    assert v.starts == Past(w) && Past(v) == v.starts && v.meta.retryAfter == w.meta.retryAfter;
    assert Armed(w.meta, Past(w), w.clock);
  }

  lemma WasteKeepsInv(w: World, v: World, now: real, hasTable: bool)
    requires Inv(w) && IsRunning(w) && w.clock <= now
    requires v == w.(clock := now, meta := WasteRecorded(w.meta, now).(state := Pending(hasTable)))
    ensures Inv(v)
  {
    WasteCools(w, now);
    assert Past(v) == w.starts;
  }

  lemma CompleteKeepsInv(w: World, e: Event)
    requires Inv(w) && Enabled(w, e) && e.Complete? && !SourceFlip(e)
    ensures Inv(Next(w, e))
  {
    var v := Next(w, e);
    if v.meta.state.Pending? { WasteKeepsInv(w, v, e.now, v.meta.state.hasTable); }
  }

  lemma ChangeKeepsInv(w: World, e: Event)
    requires Inv(w) && Enabled(w, e) && e.Change?
    ensures Inv(Next(w, e))
  {
    if w.meta.state.Fresh? && !Payoff(w, e) { WasteCools(w, e.now); }
  }

  /** A payoff wipes the waste and the cooldown: a build is permitted from that moment on. */
  lemma PayoffPermits(w: World, e: Event, now: real)
    requires Enabled(w, e) && Payoff(w, e)
    ensures var m := Next(w, e).meta; m.wasted == 0 && m.retryAfter.None? && m.state == Pending(true)
    ensures now >= e.now ==> Enabled(Next(w, e), Hit(now))
  {
  }

  lemma BeginKeepsInv(w: World, e: Event)
    requires Inv(w) && Enabled(w, e) && e.Begin?
    ensures Inv(Next(w, e))
  {
    assert Past(Next(w, e)) == w.starts;
  }

  /** Every event keeps the waste count equal to the wasted starts since the last payoff, and the cooldown in force: a
      source flip takes its start back. */
  lemma StepKeepsInv(w: World, e: Event)
    requires Inv(w) && Enabled(w, e)
    ensures Inv(Next(w, e))
  {
    match e
    case Hit(_) =>
    case Begin(_) => BeginKeepsInv(w, e);
    case Change(_) => ChangeKeepsInv(w, e);
    case Complete(_, _, _, _) => if SourceFlip(e) { FlipKeepsInv(w, e); } else { CompleteKeepsInv(w, e); }
  }

  predicate UpTo(times: seq<real>, t: real) { forall i :: 0 <= i < |times| ==> times[i] <= t }

  predicate Since(times: seq<real>, t: real) { forall i :: 0 <= i < |times| ==> t <= times[i] }

  /** Each series is spaced, lies between the payoff before it and its own, and payoffs are five seconds apart. */
  predicate Closed(paid: seq<Series>) {
    paid == [] || (
      var init, last := paid[..|paid| - 1], paid[|paid| - 1];
      && Closed(init) && Spaced(last.starts) && UpTo(last.starts, last.paidAt)
      && (init != [] ==> Since(last.starts, LastPayoff(init)) && LastPayoff(init) + 5.0 <= last.paidAt))
  }

  function LastPayoff(paid: seq<Series>): real
    requires paid != []
  {
    paid[|paid| - 1].paidAt
  }

  /** What the payoffs so far have closed lies in the past, and the starts and the fresh view since come after it. */
  predicate Filed(w: World) {
    && Closed(w.paid) && UpTo(w.starts, w.clock)
    && (w.meta.state.Fresh? ==> w.meta.freshAt.Some?)
    && (w.paid != [] ==>
          && LastPayoff(w.paid) <= w.clock && Since(w.starts, LastPayoff(w.paid))
          && (w.meta.state.Fresh? ==> LastPayoff(w.paid) <= w.meta.freshAt.value))
  }

  lemma ClosedAppend(paid: seq<Series>, last: Series)
    requires Closed(paid) && Spaced(last.starts) && UpTo(last.starts, last.paidAt)
    requires paid != [] ==> Since(last.starts, LastPayoff(paid)) && LastPayoff(paid) + 5.0 <= last.paidAt
    ensures Closed(paid + [last]) && LastPayoff(paid + [last]) == last.paidAt
  {
    assert (paid + [last])[..|paid|] == paid;
  }

  lemma UpToLater(times: seq<real>, t: real, later: real)
    requires UpTo(times, t) && t <= later
    ensures UpTo(times, later)
  {
  }

  lemma FiledWith(w: World, v: World, now: real)
    requires Filed(w) && Spaced(w.starts) && w.clock <= now && (w.paid != [] ==> LastPayoff(w.paid) + 5.0 <= now)
    requires v.paid == w.paid + [Series(w.starts, now)] && v.starts == [] && v.clock == now && !v.meta.state.Fresh?
    ensures Filed(v)
  {
    UpToLater(w.starts, w.clock, now);
    ClosedAppend(w.paid, Series(w.starts, now));
  }

  lemma PayoffFiles(w: World, e: Event)
    requires Spaced(w.starts) && Filed(w) && Enabled(w, e) && Payoff(w, e)
    ensures Filed(Next(w, e))
  {
    var v := Next(w, e);
    assert v.meta.state == Pending(true);
    assert v == v.(starts := [], clock := e.now, paid := w.paid + [Series(w.starts, e.now)]);
    FiledWith(w, v, e.now);
  }

  lemma StepFiles(w: World, e: Event)
    requires Inv(w) && Filed(w) && Enabled(w, e)
    ensures Filed(Next(w, e))
  {
    if Payoff(w, e) {
      PayoffFiles(w, e);
    } else {
      assert Next(w, e).paid == w.paid;
    }
  }

  lemma {:induction false} RunKeepsInv(w: World, events: seq<Event>)
    requires Inv(w) && Filed(w) && IsRun(w, events)
    ensures Inv(After(w, events)) && Filed(After(w, events))
    decreases |events|
  {
    if events != [] {
      StepKeepsInv(w, events[0]);
      StepFiles(w, events[0]);
      RunKeepsInv(Next(w, events[0]), events[1..]);
    }
  }

  /** The least time that `gaps` successive cooldowns can take. */
  function MinSpan(gaps: nat): real {
    if gaps == 0 then 0.0 else MinSpan(gaps - 1) + Cooldown(gaps)
  }

  lemma {:induction false} CooldownGrows(a: nat, b: nat)
    requires a <= b
    ensures Cooldown(a) <= Cooldown(b)
    decreases b - a
  {
    if a < b {
      CooldownShape(a);
      CooldownGrows(a + 1, b);
    }
  }

  lemma {:induction false} SpanAtLeast(starts: seq<real>, i: nat, j: nat)
    requires Spaced(starts) && i <= j < |starts|
    ensures starts[j] - starts[i] >= MinSpan(j - i)
    decreases j
  {
    if i < j {
      SpanAtLeast(starts, i, j - 1);
      CooldownGrows(j - i, j);
    }
  }

  lemma {:induction false} MinSpanClosed(gaps: nat)
    ensures 1 <= gaps <= 10 ==> MinSpan(gaps) == (PowerOfTwo(gaps - 1) - 1) as real
    ensures gaps >= 10 ==> MinSpan(gaps) == 511.0 + 300.0 * (gaps - 10) as real
  {
    if gaps > 0 {
      MinSpanClosed(gaps - 1);
      CooldownShape(gaps);
      if 2 <= gaps <= 10 { PowerGrows(gaps - 2, 8); }
      assert PowerOfTwo(8) == 256 by { assert PowerOfTwo(4) == 16; }
      assert PowerOfTwo(9) == 512;
    }
  }

  lemma {:induction false} MinSpanNonNegative(gaps: nat)
    ensures 0.0 <= MinSpan(gaps)
  {
    if gaps > 0 {
      MinSpanNonNegative(gaps - 1);
      CooldownShape(gaps);
    }
  }

  /** Starts a cooldown apart are few: those within `span` seconds number at most 11 + floor(span / 300). */
  lemma WindowCount(starts: seq<real>, i: nat, j: nat, span: real)
    requires Spaced(starts) && i <= j < |starts| && starts[j] - starts[i] <= span
    ensures MinSpan(j - i) <= span
    ensures j - i + 1 <= 11 + (span / 300.0).Floor
  {
    SpanAtLeast(starts, i, j);
    MinSpanClosed(j - i);
    MinSpanNonNegative(j - i);
    FloorAtLeast(span, if j - i <= 10 then 0 else j - i - 10);
  }

  lemma FloorAtLeast(span: real, over: nat)
    requires span >= 300.0 * over as real
    ensures over <= (span / 300.0).Floor
  {
    assert span / 300.0 >= over as real;
  }

  /** How many of the times lie between `lo` and `hi`. */
  function CountWithin(times: seq<real>, lo: real, hi: real): nat {
    if times == [] then 0
    else
      var last := times[|times| - 1];
      CountWithin(times[..|times| - 1], lo, hi) + if lo <= last <= hi then 1 else 0
  }

  /** The times counted lie between two of them. */
  lemma {:induction false} Extremes(times: seq<real>, lo: real, hi: real) returns (i: nat, j: nat)
    requires CountWithin(times, lo, hi) > 0
    ensures i <= j < |times| && lo <= times[i] && times[j] <= hi && CountWithin(times, lo, hi) <= j - i + 1
  {
    var n := |times| - 1;
    var init := times[..n];
    if CountWithin(init, lo, hi) > 0 {
      i, j := Extremes(init, lo, hi);
      if lo <= times[n] <= hi { j := n; }
    } else {
      i, j := n, n;
    }
  }

  lemma SpacedWithin(starts: seq<real>, lo: real, span: real)
    requires Spaced(starts) && span >= 0.0
    ensures CountWithin(starts, lo, lo + span) <= 11 + (span / 300.0).Floor
  {
    if CountWithin(starts, lo, lo + span) > 0 {
      var i, j := Extremes(starts, lo, lo + span);
      WindowCount(starts, i, j, span);
    } else {
      FloorAtLeast(span, 0);
    }
  }

  /** When the run's builds started, flipped or not. */
  function Begun(events: seq<Event>): seq<real> {
    if events == [] then [] else (if events[0].Begin? then [events[0].now] else []) + Begun(events[1..])
  }

  lemma {:induction false} CountConcat(a: seq<real>, b: seq<real>, lo: real, hi: real)
    ensures CountWithin(a + b, lo, hi) == CountWithin(a, lo, hi) + CountWithin(b, lo, hi)
    decreases |b|
  {
    if b == [] {
      assert a + b == a;
    } else {
      assert (a + b)[..|a + b| - 1] == a + b[..|b| - 1];
      CountConcat(a, b[..|b| - 1], lo, hi);
    }
  }

  /** How many starts that payoffs have closed lie between `lo` and `hi`. */
  function PaidWithin(paid: seq<Series>, lo: real, hi: real): nat {
    if paid == [] then 0
    else PaidWithin(paid[..|paid| - 1], lo, hi) + CountWithin(paid[|paid| - 1].starts, lo, hi)
  }

  function PayoffTimes(paid: seq<Series>): seq<real> {
    seq(|paid|, i requires 0 <= i < |paid| => paid[i].paidAt)
  }

  /** A start is flipped, closed by a payoff, or neither. */
  function Counted(w: World, lo: real, hi: real): nat {
    CountWithin(w.starts, lo, hi) + CountWithin(w.flips, lo, hi) + PaidWithin(w.paid, lo, hi)
  }

  lemma StepCounts(w: World, e: Event, lo: real, hi: real)
    requires Enabled(w, e)
    ensures Counted(Next(w, e), lo, hi) == Counted(w, lo, hi) + if e.Begin? && lo <= e.now <= hi then 1 else 0
  {
    if e.Begin? {
      CountConcat(w.starts, [e.now], lo, hi);
      assert [e.now][..0] == [];
    } else if SourceFlip(e) {
      var n := |w.starts| - 1;
      CountConcat(w.flips, [w.starts[n]], lo, hi);
      assert [w.starts[n]][..0] == [];
    } else if Payoff(w, e) {
      assert (w.paid + [Series(w.starts, e.now)])[..|w.paid|] == w.paid;
    }
  }

  lemma {:induction false} BegunCounts(w: World, events: seq<Event>, lo: real, hi: real)
    requires IsRun(w, events)
    ensures Counted(After(w, events), lo, hi) == Counted(w, lo, hi) + CountWithin(Begun(events), lo, hi)
    decreases |events|
  {
    if events != [] {
      StepCounts(w, events[0], lo, hi);
      BegunCounts(Next(w, events[0]), events[1..], lo, hi);
      var first := if events[0].Begin? then [events[0].now] else [];
      CountConcat(first, Begun(events[1..]), lo, hi);
      assert [events[0].now][..0] == [];
    }
  }

  lemma {:induction false} CountNone(times: seq<real>, lo: real, hi: real, t: real)
    requires (UpTo(times, t) && t < lo) || (Since(times, t) && t > hi)
    ensures CountWithin(times, lo, hi) == 0
  {
    if times != [] { CountNone(times[..|times| - 1], lo, hi, t); }
  }

  /** A series has starts in the window only if its payoff, or the one before, does not keep it out; at most `most`. */
  lemma SeriesStep(paid: seq<Series>, lo: real, hi: real, most: nat)
    requires paid != [] && Closed(paid) && CountWithin(paid[|paid| - 1].starts, lo, hi) <= most
    ensures var init, count := paid[..|paid| - 1], CountWithin(paid[|paid| - 1].starts, lo, hi);
      && PaidWithin(paid, lo, hi) == PaidWithin(init, lo, hi) + count
      && CountWithin(PayoffTimes(paid), lo, hi)
         == CountWithin(PayoffTimes(init), lo, hi) + (if lo <= LastPayoff(paid) <= hi then 1 else 0)
      && (LastPayoff(paid) < lo || (init != [] && LastPayoff(init) > hi) ==> count == 0)
      && (init != [] ==> LastPayoff(init) <= LastPayoff(paid))
  {
    var n := |paid| - 1;
    var init, last := paid[..n], paid[n];
    assert PayoffTimes(paid)[..n] == PayoffTimes(init) && PayoffTimes(paid)[n] == last.paidAt;
    if last.paidAt < lo { CountNone(last.starts, lo, hi, last.paidAt); }
    if init != [] && LastPayoff(init) > hi { CountNone(last.starts, lo, hi, LastPayoff(init)); }
  }

  /** Only the series closed in the window, and the first one after it, have starts there. */
  lemma {:induction false} PaidBounded(paid: seq<Series>, lo: real, span: real, most: nat)
    requires Closed(paid) && span >= 0.0 && most == 11 + (span / 300.0).Floor
    ensures var n := CountWithin(PayoffTimes(paid), lo, lo + span);
      && PaidWithin(paid, lo, lo + span) <= n * most + most
      && ((paid != [] && LastPayoff(paid) > lo + span) || PaidWithin(paid, lo, lo + span) <= n * most)
  {
    if paid != [] {
      var init := paid[..|paid| - 1];
      PaidBounded(init, lo, span, most);
      SpacedWithin(paid[|paid| - 1].starts, lo, span);
      SeriesStep(paid, lo, lo + span, most);
      var n := CountWithin(PayoffTimes(init), lo, lo + span);
      assert (n + 1) * most == n * most + most;
    }
  }

  /** Payoffs, five seconds apart or more, are few. */
  lemma {:induction false} PayoffsFew(paid: seq<Series>, lo: real, span: real)
    requires Closed(paid) && span >= 0.0
    ensures var n := CountWithin(PayoffTimes(paid), lo, lo + span);
      n <= 1 + (span / 5.0).Floor && (n > 0 ==> LastPayoff(paid) >= lo + 5.0 * (n - 1) as real)
  {
    FifthAtLeast(span, 0);
    if paid != [] {
      var init := paid[..|paid| - 1];
      PayoffsFew(init, lo, span);
      assert PayoffTimes(paid)[..|paid| - 1] == PayoffTimes(init);
      var n := CountWithin(PayoffTimes(init), lo, lo + span);
      if lo <= LastPayoff(paid) <= lo + span { FifthAtLeast(span, n); }
    }
  }

  lemma FifthAtLeast(span: real, over: nat)
    requires span >= 5.0 * over as real
    ensures over <= (span / 5.0).Floor
  {
    assert span / 5.0 >= over as real;
  }

  /** The starts closed by payoffs, and those since, each spaced. */
  lemma SeriesBounded(w: World, lo: real, span: real, most: nat)
    requires Inv(w) && Filed(w) && span >= 0.0 && most == 11 + (span / 300.0).Floor
    ensures CountWithin(w.starts, lo, lo + span) + PaidWithin(w.paid, lo, lo + span)
         <= CountWithin(PayoffTimes(w.paid), lo, lo + span) * most + most
  {
    SpacedWithin(w.starts, lo, span);
    PaidBounded(w.paid, lo, span, most);
    if w.paid != [] && LastPayoff(w.paid) > lo + span { CountNone(w.starts, lo, lo + span, LastPayoff(w.paid)); }
  }

  /** The payoffs of a run: the changes that find the view fresh for five seconds or more. */
  function Paying(w: World, events: seq<Event>): seq<real>
    requires IsRun(w, events)
    decreases |events|
  {
    if events == [] then []
    else
      var e := events[0];
      (if e.Change? && w.meta.state.Fresh? && w.meta.freshAt.Some? && e.now >= w.meta.freshAt.value + 5.0 then [e.now]
       else [])
      + Paying(Next(w, e), events[1..])
  }

  lemma {:induction false} PayoffsRecorded(w: World, events: seq<Event>)
    requires IsRun(w, events)
    ensures PayoffTimes(After(w, events).paid) == PayoffTimes(w.paid) + Paying(w, events)
    decreases |events|
  {
    if events != [] {
      PayoffsRecorded(Next(w, events[0]), events[1..]);
      if Payoff(w, events[0]) {
        assert PayoffTimes(Next(w, events[0]).paid) == PayoffTimes(w.paid) + [events[0].now];
      }
    }
  }

  /** In every run, payoffs and source flips included: after each payoff the starts not flipped are their cooldowns
      apart, counted from that payoff, payoffs are five seconds apart or more, and any window of `span` seconds holds at
      most 11 + floor(span / 300) starts for each payoff in it and once more, plus the flipped ones in it. */
  lemma RebuildRate(now: real, events: seq<Event>, lo: real, span: real)
    requires IsRun(Registered(now), events) && span >= 0.0
    ensures var w := After(Registered(now), events);
      var payoffs, most := CountWithin(Paying(Registered(now), events), lo, lo + span), 11 + (span / 300.0).Floor;
      && Spaced(w.starts) && Closed(w.paid)
      && payoffs <= 1 + (span / 5.0).Floor
      && CountWithin(Begun(events), lo, lo + span) <= payoffs * most + most + CountWithin(w.flips, lo, lo + span)
  {
    var start := Registered(now);
    RunKeepsInv(start, events);
    PayoffsRecorded(start, events);
    assert PayoffTimes(start.paid) + Paying(start, events) == Paying(start, events);
    RunRate(start, After(start, events), events, lo, span);
  }

  lemma RunRate(start: World, w: World, events: seq<Event>, lo: real, span: real)
    requires IsRun(start, events) && w == After(start, events) && Inv(w) && Filed(w) && span >= 0.0
    requires start.starts == [] && start.flips == [] && start.paid == []
    ensures var payoffs, most := CountWithin(PayoffTimes(w.paid), lo, lo + span), 11 + (span / 300.0).Floor;
      && payoffs <= 1 + (span / 5.0).Floor
      && CountWithin(Begun(events), lo, lo + span) <= payoffs * most + most + CountWithin(w.flips, lo, lo + span)
  {
    FloorAtLeast(span, 0);
    SeriesBounded(w, lo, span, 11 + (span / 300.0).Floor);
    PayoffsFew(w.paid, lo, span);
    BegunCounts(start, events, lo, lo + span);
  }

  /** A view that is skipped by its shape, or found ineligible by its gate or for want of a plan, is not built again. */
  lemma {:induction false} NeverBuilt(w: World, events: seq<Event>)
    requires IsRun(w, events) && (w.meta.state.Skipped? || w.meta.state.Ineligible?)
    ensures Begun(events) == [] && After(w, events).meta.state == w.meta.state
    decreases |events|
  {
    if events != [] { NeverBuilt(Next(w, events[0]), events[1..]); }
  }

  lemma SkippedNeverBuilt(now: real, limit: Option<nat>, events: seq<Event>)
    requires IsRun(World(NewMeta(Skip, limit), now, [], [], []), events)
    ensures Begun(events) == []
  {
    NeverBuilt(World(NewMeta(Skip, limit), now, [], [], []), events);
  }

  /** A failed gate, and a clean build without a plan, end so, and no other event does. */
  lemma IneligibleExact(w: World, e: Event)
    requires Enabled(w, e) && !w.meta.state.Ineligible?
    ensures Next(w, e).meta.state.Ineligible? <==>
      e.Complete? && (e.outcome.GateFailed?
                      || (e.outcome.Built? && !SourceFlip(e) && w.meta.state.Building? && e.plan.None?))
  {
  }

  /** `n` first builds started and thrown away by source flips, all at the same instant. */
  function Flips(n: nat): seq<Event> {
    if n == 0 then [] else [Hit(0.0), Begin(0.0), Complete(Built(true), false, None, 0.0)] + Flips(n - 1)
  }

  lemma FlipSteps(w: World, a: World, b: World, flip: Event)
    requires w.meta.state == Pending(false) && w.meta.retryAfter.None? && w.clock <= 0.0
    requires a == w.(clock := 0.0, meta := w.meta.(state := Scheduled(false)))
    requires b == a.(meta := w.meta.(state := Building(false)), starts := w.starts + [0.0])
    requires flip == Complete(Built(true), false, None, 0.0)
    ensures Enabled(w, Hit(0.0)) && Next(w, Hit(0.0)) == a && Enabled(a, Begin(0.0)) && Next(a, Begin(0.0)) == b
    ensures Enabled(b, flip) && Next(b, flip) == w.(clock := 0.0, flips := w.flips + [0.0])
  {
    assert b.starts[..|w.starts|] == w.starts && b.starts[|w.starts|] == 0.0;
  }

  lemma RunThree(w: World, a: World, b: World, v: World, e: Event, f: Event, g: Event, rest: seq<Event>)
    requires Enabled(w, e) && Next(w, e) == a && Enabled(a, f) && Next(a, f) == b && Enabled(b, g) && Next(b, g) == v
    requires IsRun(v, rest)
    ensures IsRun(w, [e, f, g] + rest) && After(w, [e, f, g] + rest) == After(v, rest)
  {
    RunCons(b, g, rest);
    RunCons(a, f, [g] + rest);
    RunCons(w, e, [f] + ([g] + rest));
    assert [e, f, g] + rest == [e] + ([f] + ([g] + rest));
  }

  lemma FlipOnce(w: World, rest: seq<Event>)
    requires w.meta.state == Pending(false) && w.meta.retryAfter.None? && w.clock <= 0.0
    requires IsRun(w.(clock := 0.0, flips := w.flips + [0.0]), rest)
    ensures var v := w.(clock := 0.0, flips := w.flips + [0.0]);
      var events := [Hit(0.0), Begin(0.0), Complete(Built(true), false, None, 0.0)] + rest;
      IsRun(w, events) && After(w, events) == After(v, rest)
  {
    var flip := Complete(Built(true), false, None, 0.0);
    var a := w.(clock := 0.0, meta := w.meta.(state := Scheduled(false)));
    var b := a.(meta := w.meta.(state := Building(false)), starts := w.starts + [0.0]);
    FlipSteps(w, a, b, flip);
    RunThree(w, a, b, w.(clock := 0.0, flips := w.flips + [0.0]), Hit(0.0), Begin(0.0), flip, rest);
  }

  lemma RunCons(w: World, e: Event, rest: seq<Event>)
    requires Enabled(w, e) && IsRun(Next(w, e), rest)
    ensures IsRun(w, [e] + rest) && After(w, [e] + rest) == After(Next(w, e), rest)
  {
    assert ([e] + rest)[1..] == rest;
  }

  lemma {:induction false} FlipsRun(w: World, n: nat)
    requires w.meta.state == Pending(false) && w.meta.retryAfter.None? && w.clock <= 0.0
    ensures IsRun(w, Flips(n)) && |After(w, Flips(n)).flips| == |w.flips| + n
    ensures After(w, Flips(n)).clock <= 0.0
    decreases n
  {
    if n > 0 {
      var v := w.(clock := 0.0, flips := w.flips + [0.0]);
      FlipsRun(v, n - 1);
      FlipOnce(w, Flips(n - 1));
    }
  }

  /** The flips themselves have no bound: any number of builds can start and be thrown away at one instant. */
  lemma FlipsUnbounded(n: nat)
    ensures IsRun(Registered(0.0), Flips(n))
    ensures |After(Registered(0.0), Flips(n)).flips| == n && After(Registered(0.0), Flips(n)).clock <= 0.0
  {
    FlipsRun(Registered(0.0), n);
  }
}
