/** The measured cap on cached queries and the registration throttle (src/memory.rs), tick by tick. */
module CountCap {
  import opened Common

  const EWMA_ALPHA: real := 0.3
  const PEAK_DECAY: real := 0.9994
  const MIN_QUERIES: nat := 1000
  const MIN_GROWTH: nat := 2000
  const MAX_INCREASE_FRACTION: real := 0.5
  const USIZE_MAX: nat := 0xFFFF_FFFF_FFFF_FFFF

  const U64_MAX: nat := 0xFFFF_FFFF_FFFF_FFFF

  type u64 = n: nat | n <= U64_MAX
  type usize = n: nat | n <= USIZE_MAX

  function Larger(a: real, b: real): real { if a >= b then a else b }

  /** A float cast to an index: truncated, and saturated at both ends. */
  function AsUsize(x: real): usize {
    if x <= 0.0 then 0 else if x >= USIZE_MAX as real then USIZE_MAX else x.Floor
  }

  datatype Decision = Decision(cap: usize, ewma: real, peak: real, sampled: bool)

  /** One tick's reading. */
  datatype Reading = Reading(privateUsed: u64, count: usize, ceiling: u64, sharedBuffers: u64)

  /** What the monitor carries from tick to tick. */
  datatype State = State(highPrivate: Option<u64>, highCount: usize, ewma: real, peak: real)

  function HighPrivate(s: State, r: Reading): u64 {
    if s.highPrivate.None? then r.privateUsed else s.highPrivate.value
  }

  /** A growth chunk past the high-water mark. */
  predicate Samples(s: State, r: Reading) {
    r.count >= s.highCount + MIN_GROWTH && r.privateUsed > HighPrivate(s, r)
  }

  function Sample(s: State, r: Reading): real
    requires Samples(s, r)
  {
    (r.privateUsed - HighPrivate(s, r)) as real / (r.count - s.highCount) as real
  }

  function Budget(r: Reading): u64 { Max(r.ceiling - r.sharedBuffers, 0) }

  /** The room the live reading leaves at `peak` bytes a query, on top of the queries already there. */
  function Room(r: Reading, peak: real): real
    requires peak > 0.0
  {
    r.count as real + (Budget(r) as real - r.privateUsed as real) / peak
  }

  /** The average with this tick's sample, if it takes one. */
  function Average(s: State, r: Reading): real {
    if !Samples(s, r) then s.ewma
    else if s.ewma > 0.0 then EWMA_ALPHA * Sample(s, r) + (1.0 - EWMA_ALPHA) * s.ewma
    else Sample(s, r)
  }

  function Evaluate(s: State, r: Reading): Decision {
    var ewma := Average(s, r);
    var peak := Larger(s.peak * PEAK_DECAY, ewma);
    var cap := if peak <= 0.0 then USIZE_MAX else Max(AsUsize(Room(r, peak)), MIN_QUERIES);
    Decision(cap, ewma, peak, Samples(s, r))
  }

  /** The monitor's tick: the high-water mark advances with each sample and is seeded by the first reading. */
  function Tick(s: State, r: Reading): State {
    var d := Evaluate(s, r);
    if d.sampled || s.highPrivate.None? then State(Some(r.privateUsed), r.count, d.ewma, d.peak)
    else s.(ewma := d.ewma, peak := d.peak)
  }

  predicate Sane(s: State) { 0.0 <= s.ewma <= s.peak }

  lemma SampleRange(s: State, r: Reading)
    requires Samples(s, r)
    ensures Sample(s, r) > 0.0
  {
  }

  /** A tick keeps the peak at or above the average, and only a sample past the high-water mark can raise it. */
  lemma TickSane(s: State, r: Reading)
    requires Sane(s)
    ensures Sane(Tick(s, r))
    ensures !Samples(s, r) ==> Tick(s, r).ewma == s.ewma && Tick(s, r).peak <= s.peak
    ensures Samples(s, r) ==> Tick(s, r).ewma > 0.0
  {
    if Samples(s, r) { SampleRange(s, r); }
  }

  function Ticks(s: State, rs: seq<Reading>): State {
    if rs == [] then s else Tick(Ticks(s, rs[..|rs| - 1]), rs[|rs| - 1])
  }

  /** Every sample the run takes lies between `lo` and `hi`. */
  predicate SamplesWithin(s: State, rs: seq<Reading>, lo: real, hi: real) {
    rs == [] || (
      var before, r := Ticks(s, rs[..|rs| - 1]), rs[|rs| - 1];
      SamplesWithin(s, rs[..|rs| - 1], lo, hi) && (Samples(before, r) ==> lo <= Sample(before, r) <= hi))
  }

  predicate EverSamples(s: State, rs: seq<Reading>) {
    rs != [] && (EverSamples(s, rs[..|rs| - 1]) || Samples(Ticks(s, rs[..|rs| - 1]), rs[|rs| - 1]))
  }

  /** Over any run from a cold start, or from the reset after a pool recycle, the peak is at least the average, and the
      average lies within the range of its samples. */
  lemma {:induction false} AverageWithinSamples(rs: seq<Reading>, s: State, lo: real, hi: real)
    requires Unsampled(s) && 0.0 < lo && SamplesWithin(s, rs, lo, hi)
    ensures Sane(Ticks(s, rs))
    ensures if EverSamples(s, rs) then lo <= Ticks(s, rs).ewma <= hi else Ticks(s, rs).ewma == 0.0
  {
    if rs != [] {
      AverageWithinSamples(rs[..|rs| - 1], s, lo, hi);
      TickSane(Ticks(s, rs[..|rs| - 1]), rs[|rs| - 1]);
    }
  }

  /** With no growth past the high-water mark the peak never rises, however long: the death-spiral guard. */
  lemma {:induction false} PeakNeverRisesWithoutGrowth(s: State, rs: seq<Reading>)
    requires Sane(s) && !EverSamples(s, rs)
    ensures Sane(Ticks(s, rs)) && Ticks(s, rs).peak <= s.peak && Ticks(s, rs).ewma == s.ewma
  {
    if rs != [] {
      PeakNeverRisesWithoutGrowth(s, rs[..|rs| - 1]);
      TickSane(Ticks(s, rs[..|rs| - 1]), rs[|rs| - 1]);
    }
  }

  /** The reading the high-water mark stands at: the last one that was sampled, or the first. */
  function MarkOf(s: State, rs: seq<Reading>): Option<Reading> {
    if rs == [] then None
    else
      var before, r := rs[..|rs| - 1], rs[|rs| - 1];
      if before == [] || Samples(Ticks(s, before), r) then Some(r) else MarkOf(s, before)
  }

  lemma {:induction false} MarkKept(s: State, rs: seq<Reading>)
    requires s.highPrivate.None? && rs != []
    ensures var t, mark := Ticks(s, rs), MarkOf(s, rs);
      mark.Some? && t.highPrivate == Some(mark.value.privateUsed) && t.highCount == mark.value.count
  {
    var before := rs[..|rs| - 1];
    if before != [] { MarkKept(s, before); }
  }

  lemma SampleFrom(t: State, mark: Reading, r: Reading)
    requires t.highPrivate == Some(mark.privateUsed) && t.highCount == mark.count
    ensures Samples(t, r) <==> r.count >= mark.count + 2000 && r.privateUsed > mark.privateUsed
    ensures Samples(t, r) ==>
      Sample(t, r) == (r.privateUsed - mark.privateUsed) as real / (r.count - mark.count) as real
  {
  }

  /** From a cold start the mark is that reading's memory and count, so every sample covers 2000 or more new queries,
      and more memory, since the reading sampled before it. */
  lemma MarkIsLastSample(s: State, rs: seq<Reading>, r: Reading, t: State, mark: Reading)
    requires s.highPrivate.None? && rs != [] && t == Ticks(s, rs) && MarkOf(s, rs) == Some(mark)
    ensures t.highPrivate == Some(mark.privateUsed) && t.highCount == mark.count
    ensures Samples(t, r) <==> r.count >= mark.count + 2000 && r.privateUsed > mark.privateUsed
    ensures Samples(t, r) ==>
      Sample(t, r) == (r.privateUsed - mark.privateUsed) as real / (r.count - mark.count) as real
  {
    MarkKept(s, rs);
    SampleFrom(t, mark, r);
  }

  /** A cost after `n` ticks of decay. */
  function Decayed(p: real, n: nat): real { if n == 0 then p else Decayed(p, n - 1) * 0.9994 }

  /** Without samples the peak decays at that pace, down to the average and no further. */
  lemma {:induction false} PeakDecays(s: State, rs: seq<Reading>)
    requires Sane(s) && !EverSamples(s, rs)
    ensures Ticks(s, rs).ewma == s.ewma && Ticks(s, rs).peak == Larger(Decayed(s.peak, |rs|), s.ewma)
  {
    if rs != [] {
      var before, r := rs[..|rs| - 1], rs[|rs| - 1];
      PeakDecays(s, before);
      TickPeak(Ticks(s, before), r);
    }
  }

  /** How many samples a run takes. */
  function SampleCount(s: State, rs: seq<Reading>): nat {
    if rs == [] then 0
    else SampleCount(s, rs[..|rs| - 1]) + if Samples(Ticks(s, rs[..|rs| - 1]), rs[|rs| - 1]) then 1 else 0
  }

  /** Samples of one size pull a known average towards it, three tenths of the way each time. */
  lemma {:induction false} AverageConverges(s: State, rs: seq<Reading>, x: real)
    requires s.ewma > 0.0 && x > 0.0 && SamplesWithin(s, rs, x, x)
    ensures Ticks(s, rs).ewma == x + Remaining(s.ewma - x, SampleCount(s, rs)) && Ticks(s, rs).ewma > 0.0
  {
    if rs != [] { AverageConverges(s, rs[..|rs| - 1], x); }
  }

  /** One tick's cap: never below the floor, and finite exactly when the peak is known and the room it leaves fits. */
  lemma TickCap(s: State, r: Reading)
    requires Sane(s)
    ensures var peak := Larger(s.peak * PEAK_DECAY, Average(s, r));
      && Evaluate(s, r).cap >= MIN_QUERIES
      && (Evaluate(s, r).cap < USIZE_MAX <==> peak > 0.0 && Room(r, peak) < USIZE_MAX as real)
  {
    var peak := Larger(s.peak * PEAK_DECAY, Average(s, r));
    if peak > 0.0 && Room(r, peak) < USIZE_MAX as real {
      var x := Room(r, peak);
      assert x > 0.0 ==> x.Floor as real <= x;
    }
  }

  /** No estimate yet: a cold start, or the reset after a pool recycle. */
  predicate Unsampled(s: State) { s.ewma == 0.0 && s.peak == 0.0 }

  /** The peak is known exactly from the first sample on; the decay never forgets it. */
  lemma {:induction false} PeakKnown(s: State, rs: seq<Reading>)
    requires Unsampled(s)
    ensures Sane(Ticks(s, rs)) && (Ticks(s, rs).peak > 0.0 <==> EverSamples(s, rs))
    ensures Ticks(s, rs).ewma > 0.0 <==> EverSamples(s, rs)
  {
    if rs != [] {
      PeakKnown(s, rs[..|rs| - 1]);
      TickSane(Ticks(s, rs[..|rs| - 1]), rs[|rs| - 1]);
    }
  }

  lemma TicksAppend(s: State, rs: seq<Reading>, r: Reading)
    ensures Ticks(s, rs + [r]) == Tick(Ticks(s, rs), r)
  {
    assert (rs + [r])[..|rs|] == rs;
  }

  lemma TickPeak(s: State, r: Reading)
    ensures Tick(s, r).peak == Larger(s.peak * PEAK_DECAY, Average(s, r))
  {
  }

  lemma NextPeakKnown(s: State, rs: seq<Reading>, r: Reading)
    requires Unsampled(s)
    ensures var before := Ticks(s, rs);
      Sane(before)
      && (EverSamples(s, rs + [r]) <==> Larger(before.peak * PEAK_DECAY, Average(before, r)) > 0.0)
  {
    var all, before := rs + [r], Ticks(s, rs);
    assert Sane(before) by { PeakKnown(s, rs); }
    assert EverSamples(s, all) <==> Ticks(s, all).peak > 0.0 by { PeakKnown(s, all); }
    assert Ticks(s, all) == Tick(before, r) by { TicksAppend(s, rs, r); }
    TickPeak(before, r);
  }

  /** Over any run: the cap is at least the floor on every tick, and it is finite if and only if some tick so far, this
      one included, took a sample and the room fits the index type at the larger of the decayed last peak and the new
      average. */
  lemma CapFinite(s: State, rs: seq<Reading>, r: Reading)
    requires Unsampled(s)
    ensures var before := Ticks(s, rs);
      var peak := Larger(before.peak * PEAK_DECAY, Average(before, r));
      && (EverSamples(s, rs + [r]) <==> peak > 0.0)
      && Evaluate(before, r).cap >= MIN_QUERIES
      && (Evaluate(before, r).cap < USIZE_MAX
          <==> EverSamples(s, rs + [r]) && Room(r, peak) < USIZE_MAX as real)
  {
    NextPeakKnown(s, rs, r);
    TickCap(Ticks(s, rs), r);
  }

  /** A sampled cap that is not finite: one byte over 2^24 new queries, against a ceiling of one tebibyte. */
  lemma CapSaturates(s: State, r: Reading)
    requires s == State(Some(0), 0, 0.0, 0.0) && r == Reading(1, 0x100_0000, 0x100_0000_0000, 0)
    ensures Unsampled(s) && EverSamples(s, [r]) && Evaluate(s, r).sampled && Evaluate(s, r).cap == USIZE_MAX
  {
    assert [r][..0] == [];
    assert Sample(s, r) == 1.0 / 16777216.0;
    assert Room(r, 1.0 / 16777216.0) == 16777216.0 + (1099511627776.0 - 1.0) * 16777216.0;
  }

  /** The cap lets the cache grow exactly while the live reading is under the budget: at or past it, the cap is at most
      the current count or the floor. */
  lemma CapAgainstBudget(s: State, r: Reading)
    requires Sane(s) && Evaluate(s, r).peak > 0.0
    ensures r.privateUsed >= Budget(r) ==> Evaluate(s, r).cap <= Max(r.count, MIN_QUERIES)
    ensures r.privateUsed <= Budget(r) ==> Evaluate(s, r).cap >= Max(r.count, MIN_QUERIES)
  {
    var p := Evaluate(s, r).peak;
    var spare := Budget(r) as real - r.privateUsed as real;
    QuotientSign(spare, p);
    FloorAround(Room(r, p), r.count);
  }

  lemma QuotientFloor(x: real, p: real, n: int)
    requires p > 0.0 && n as real <= x / p < n as real + 1.0
    ensures n as real * p <= x < (n + 1) as real * p
  {
    var q, m := x / p, n as real;
    assert q * p == x;
    ProductSign(q - m, p);
    ProductSign(m + 1.0 - q, p);
    assert (q - m) * p == x - m * p && (m + 1.0 - q) * p == (m + 1.0) * p - x;
    assert (n + 1) as real == m + 1.0;
  }

  lemma CapIsRoom(s: State, r: Reading, peak: real)
    requires peak == Larger(s.peak * PEAK_DECAY, Average(s, r)) && MIN_QUERIES < Evaluate(s, r).cap < USIZE_MAX
    ensures peak > 0.0 && Evaluate(s, r).cap == Room(r, peak).Floor
  {
  }

  lemma RoomFloor(r: Reading, peak: real, cap: int)
    requires peak > 0.0 && cap == Room(r, peak).Floor
    ensures r.privateUsed as real + (cap - r.count) as real * peak <= Budget(r) as real
         && r.privateUsed as real + (cap + 1 - r.count) as real * peak > Budget(r) as real
  {
    var spare := Budget(r) as real - r.privateUsed as real;
    assert (cap - r.count) as real == cap as real - r.count as real;
    QuotientFloor(spare, peak, cap - r.count);
  }

  /** A finite cap above the floor is the largest count whose modelled memory stays within the budget. */
  lemma CapIsLargest(s: State, r: Reading, peak: real, cap: nat)
    requires cap == Evaluate(s, r).cap && MIN_QUERIES < cap < USIZE_MAX
    requires peak == Larger(s.peak * PEAK_DECAY, Average(s, r))
    ensures r.privateUsed as real + (cap - r.count) as real * peak <= Budget(r) as real
    ensures r.privateUsed as real + (cap + 1 - r.count) as real * peak > Budget(r) as real
    ensures r.sharedBuffers <= r.ceiling ==>
      (r.sharedBuffers + r.privateUsed) as real + (cap - r.count) as real * peak <= r.ceiling as real
  {
    CapIsRoom(s, r, peak);
    RoomFloor(r, peak, cap);
  }

  lemma QuotientSign(x: real, p: real)
    requires p > 0.0
    ensures x <= 0.0 ==> x / p <= 0.0
    ensures x >= 0.0 ==> x / p >= 0.0
  {
  }

  lemma FloorAround(x: real, n: nat)
    requires n <= USIZE_MAX
    ensures x <= n as real ==> AsUsize(x) <= n
    ensures x >= n as real ==> AsUsize(x) >= n
  {
    assert x.Floor as real <= x < x.Floor as real + 1.0;
  }

  /** When memory grows as modelled, anchoring on the live reading is the fixed-baseline form. */
  lemma LiveAnchorIsBaseline(r: Reading, baseline: real, peak: real)
    requires peak > 0.0 && r.privateUsed as real == baseline + peak * r.count as real
    ensures Room(r, peak) == (Budget(r) as real - baseline) / peak
  {
    var n, b := r.count as real, Budget(r) as real - baseline;
    assert Budget(r) as real - r.privateUsed as real == b - peak * n;
    assert (b - peak * n) / peak == b / peak - n by {
      assert (b / peak - n) * peak == b - n * peak;
    }
  }

  function RateLimit(target: nat, prev: Option<nat>): nat {
    match prev
    case None => target
    case Some(p) =>
      if p != USIZE_MAX && target > p then
        Min(target, Min(p + AsUsize(p as real * MAX_INCREASE_FRACTION), USIZE_MAX))
      else target
  }

  /** The published cap after `n` ticks with the same target. */
  function Ramp(p: nat, target: nat, n: nat): nat {
    if n == 0 then p else RateLimit(target, Some(Ramp(p, target, n - 1)))
  }

  /** One tick toward a higher target: never past it, never by more than half, and strictly up exactly from 2 on. */
  lemma LimitStep(p: nat, target: nat)
    requires p < target <= USIZE_MAX
    ensures var q := RateLimit(target, Some(p));
      && p <= q <= target && q as real <= 1.5 * p as real
      && (q > p <==> p >= 2)
  {
    var half := p as real * MAX_INCREASE_FRACTION;
    assert half.Floor as real <= half < half.Floor as real + 1.0;
  }

  /** Downwards, and from no cap or an unlimited one, the published cap is the target at once. */
  lemma LimitFollows(prev: Option<nat>, target: nat)
    requires target <= USIZE_MAX
    ensures RateLimit(target, prev) == target
      || (prev.Some? && prev.value != USIZE_MAX && RateLimit(target, prev) < target && prev.value < target)
    ensures prev.None? || prev.value == USIZE_MAX || prev.value >= target ==> RateLimit(target, prev) == target
  {
  }

  /** From 2 on the ramp reaches the target, at the latest after one tick per missing query, and stays there; below 2 it
      never moves. */
  lemma {:induction false} RampReaches(p: nat, target: nat, n: nat)
    requires p < target <= USIZE_MAX
    ensures p >= 2 ==> p <= Ramp(p, target, n) <= target && Ramp(p, target, n) >= Min(p + n, target)
    ensures p < 2 ==> Ramp(p, target, n) == p
  {
    if n > 0 {
      RampReaches(p, target, n - 1);
      var q := Ramp(p, target, n - 1);
      if q < target { LimitStep(q, target); }
    }
  }

  /** `p` grown by a third, `n` times. */
  function Grown(p: nat, n: nat): real { if n == 0 then p as real else Grown(p, n - 1) * 4.0 / 3.0 }

  /** From 2 on the ramp is geometric: a third more each tick, until the target is reached and kept. */
  lemma {:induction false} RampGeometric(p: nat, target: nat, n: nat)
    requires 2 <= p < target <= USIZE_MAX
    ensures p <= Ramp(p, target, n) <= target
    ensures Ramp(p, target, n) == target || Ramp(p, target, n) as real >= Grown(p, n)
  {
    if n > 0 {
      RampGeometric(p, target, n - 1);
      ThirdMore(Ramp(p, target, n - 1), target, Grown(p, n - 1));
    }
  }

  lemma ThirdMore(q: nat, target: nat, least: real)
    requires 2 <= q <= target <= USIZE_MAX && (q == target || q as real >= least)
    ensures var next := RateLimit(target, Some(q));
      q <= next <= target && (next == target || next as real >= least * 4.0 / 3.0)
  {
    if q < target {
      LimitStep(q, target);
      HalfOf(q);
    }
  }

  lemma HalfOf(q: nat)
    requires 2 <= q <= USIZE_MAX
    ensures 3 * (q + AsUsize(q as real * MAX_INCREASE_FRACTION)) >= 4 * q
  {
    var half := q as real * MAX_INCREASE_FRACTION;
    assert half.Floor as real <= half < half.Floor as real + 1.0;
  }

  datatype Throttle = Throttle(throttled: bool, highMark: nat, ceiling: nat)

  function Ceiling(totalRam: nat, limit: Option<nat>): nat {
    var most := totalRam / 5 * 4;
    if limit.None? then most else Min(limit.value, most)
  }

  function ThrottleEvaluate(used: nat, totalRam: nat, limit: Option<nat>, throttled: bool): Throttle {
    var ceiling := Ceiling(totalRam, limit);
    var low := Max(ceiling - ceiling / 100 * 2, 0);
    Throttle(if throttled then used > low else used > ceiling, ceiling, ceiling)
  }

  /** The flag changes only outside the band under the ceiling: on above it, off at or below its lower edge; and the
      ceiling is the configured limit, or else, to within rounding, the four fifths of memory it never exceeds. */
  lemma ThrottleHysteresis(used: nat, totalRam: nat, limit: Option<nat>, throttled: bool)
    ensures var d := ThrottleEvaluate(used, totalRam, limit, throttled);
      && 5 * d.ceiling <= 4 * totalRam && (limit.Some? ==> d.ceiling <= limit.value)
      && (limit == Some(d.ceiling) || 5 * d.ceiling > 4 * totalRam - 20) && d.highMark == d.ceiling
      && (d.throttled && !throttled <==> !throttled && used > d.ceiling)
      && (!d.throttled && throttled <==> throttled && used <= d.ceiling - d.ceiling / 100 * 2)
      && (d.ceiling - d.ceiling / 100 * 2 < used <= d.ceiling ==> d.throttled == throttled)
  {
  }
}
