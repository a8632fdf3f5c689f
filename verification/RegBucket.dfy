/** The token bucket pacing new-query registrations (src/cache/reg_bucket.rs). */
module BucketSpec {
  import opened Common

  /** The controller's rate; not finite until it has been set. */
  datatype Rate = Unset | PerSecond(value: real)

  datatype Bucket = Bucket(tokens: real, last: real)

  datatype Call = Call(rate: Rate, now: real)

  function Larger(a: real, b: real): real { if a >= b then a else b }

  function Burst(rate: real): real { Larger(rate * 0.5, 8.0) }

  /** Time since the last refill; a clock reading before it counts as none. */
  function Elapsed(b: Bucket, now: real): real { Larger(now - b.last, 0.0) }

  /** What one call's refill adds before the burst cap. */
  function Gain(b: Bucket, c: Call): real { if Paced(c) then Elapsed(b, c.now) * c.rate.value else 0.0 }

  predicate Paced(c: Call) { c.rate.PerSecond? && c.rate.value > 0.0 }

  function Refilled(b: Bucket, rate: real, now: real): real {
    var full := b.tokens + Elapsed(b, now) * rate;
    if full <= Burst(rate) then full else Burst(rate)
  }

  predicate Admits(b: Bucket, c: Call) {
    c.rate.Unset? || (c.rate.value > 0.0 && Refilled(b, c.rate.value, c.now) >= 1.0)
  }

  function Taken(b: Bucket, c: Call): Bucket {
    if !Paced(c) then b
    else Bucket(Refilled(b, c.rate.value, c.now) - (if Admits(b, c) then 1.0 else 0.0), c.now)
  }

  function Run(b: Bucket, calls: seq<Call>): Bucket
    decreases |calls|
  {
    if calls == [] then b else Taken(Run(b, calls[..|calls| - 1]), calls[|calls| - 1])
  }

  function Admitted(b: Bucket, calls: seq<Call>): nat
    decreases |calls|
  {
    if calls == [] then 0
    else
      var before := calls[..|calls| - 1];
      Admitted(b, before) + if Admits(Run(b, before), calls[|calls| - 1]) then 1 else 0
  }

  /** What the refills would add without the burst cap: rate times elapsed time, summed. */
  function Accrued(b: Bucket, calls: seq<Call>): real
    decreases |calls|
  {
    if calls == [] then 0.0
    else
      var before, c := calls[..|calls| - 1], calls[|calls| - 1];
      Accrued(b, before) + Gain(Run(b, before), c)
  }

  predicate AllPaced(calls: seq<Call>) { forall i :: 0 <= i < |calls| ==> Paced(calls[i]) }

  lemma TakenBounds(b: Bucket, c: Call)
    requires b.tokens >= 0.0 && Paced(c)
    ensures 0.0 <= Taken(b, c).tokens <= Burst(c.rate.value)
    ensures Taken(b, c).tokens + (if Admits(b, c) then 1.0 else 0.0) <= b.tokens + Gain(b, c)
  {
    assert Elapsed(b, c.now) * c.rate.value >= 0.0;
  }

  lemma ConservedStep(b: Bucket, before: seq<Call>, c: Call, calls: seq<Call>)
    requires calls != [] && before == calls[..|calls| - 1] && c == calls[|calls| - 1] && Paced(c)
    requires 0.0 <= Run(b, before).tokens
    requires Admitted(b, before) as real + Run(b, before).tokens <= b.tokens + Accrued(b, before)
    ensures 0.0 <= Run(b, calls).tokens <= Burst(c.rate.value)
    ensures Admitted(b, calls) as real + Run(b, calls).tokens <= b.tokens + Accrued(b, calls)
  {
    var prev := Run(b, before);
    var admitted := if Admits(prev, c) then 1 else 0;
    TakenBounds(prev, c);
    assert Admitted(b, calls) as real == Admitted(b, before) as real + admitted as real;
  }

  /** Tokens never leave the range from zero to the current burst, and what is admitted was held or accrued. */
  lemma {:induction false} TokensConserved(b: Bucket, calls: seq<Call>)
    requires b.tokens >= 0.0 && AllPaced(calls)
    ensures 0.0 <= Run(b, calls).tokens
    ensures calls != [] ==> Run(b, calls).tokens <= Burst(calls[|calls| - 1].rate.value)
    ensures Admitted(b, calls) as real + Run(b, calls).tokens <= b.tokens + Accrued(b, calls)
    decreases |calls|
  {
    if calls != [] {
      var before := calls[..|calls| - 1];
      TokensConserved(b, before);
      ConservedStep(b, before, calls[|calls| - 1], calls);
    }
  }

  /** What one call's refill loses to the burst cap. */
  function Spill(b: Bucket, c: Call): real {
    if Paced(c) then Larger(b.tokens + Gain(b, c) - Burst(c.rate.value), 0.0) else 0.0
  }

  function Spilled(b: Bucket, calls: seq<Call>): real
    decreases |calls|
  {
    if calls == [] then 0.0
    else
      var before, c := calls[..|calls| - 1], calls[|calls| - 1];
      Spilled(b, before) + Spill(Run(b, before), c)
  }

  /** One call: an admission costs exactly one token, and only the cap takes any away. */
  lemma TakenExact(b: Bucket, c: Call)
    requires Paced(c)
    ensures (if Admits(b, c) then 1.0 else 0.0) + Taken(b, c).tokens + Spill(b, c) == b.tokens + Gain(b, c)
  {
  }

  /** Every token is accounted for: held or accrued, it is left, spilled over the cap, or spent, one per admission. */
  lemma {:induction false} TokensExact(b: Bucket, calls: seq<Call>)
    requires AllPaced(calls)
    ensures Admitted(b, calls) as real + Run(b, calls).tokens + Spilled(b, calls) == b.tokens + Accrued(b, calls)
    decreases |calls|
  {
    if calls != [] {
      var before, c := calls[..|calls| - 1], calls[|calls| - 1];
      TokensExact(b, before);
      TakenExact(Run(b, before), c);
      var admitted := if Admits(Run(b, before), c) then 1 else 0;
      assert Admitted(b, calls) as real == Admitted(b, before) as real + admitted as real;
    }
  }

  /** A call is denied only when less than a token is left: by then all but a fraction of a token of what was held and
      accrued has been admitted or has spilled. */
  lemma DeniedWhenSpent(b: Bucket, calls: seq<Call>, c: Call)
    requires AllPaced(calls) && Paced(c) && !Admits(Run(b, calls), c)
    ensures var all := calls + [c];
      Admitted(b, all) as real > b.tokens + Accrued(b, all) - Spilled(b, all) - 1.0
  {
    var all := calls + [c];
    assert all[..|calls|] == calls;
    TokensExact(b, all);
  }

  /** After call i, through call j, at most the burst at i plus rate times elapsed time is admitted. */
  lemma AdmissionBound(b: Bucket, upTo: seq<Call>, after: seq<Call>)
    requires b.tokens >= 0.0 && upTo != [] && AllPaced(upTo) && AllPaced(after)
    ensures var held := Run(b, upTo);
      Admitted(held, after) as real <= Burst(upTo[|upTo| - 1].rate.value) + Accrued(held, after)
  {
    TokensConserved(b, upTo);
    TokensConserved(Run(b, upTo), after);
  }

  /** One rate, and a clock that does not go back. */
  predicate Steady(b: Bucket, calls: seq<Call>, rate: real)
    decreases |calls|
  {
    calls == [] || (
      var before, c := calls[..|calls| - 1], calls[|calls| - 1];
      Steady(b, before, rate) && c.rate == PerSecond(rate) && c.now >= Latest(b, before))
  }

  /** The time of the last call, or of the bucket's last refill. */
  function Latest(b: Bucket, calls: seq<Call>): real { if calls == [] then b.last else calls[|calls| - 1].now }

  lemma {:induction false} SteadyRun(b: Bucket, calls: seq<Call>, rate: real)
    requires rate > 0.0 && Steady(b, calls, rate)
    ensures AllPaced(calls) && Run(b, calls).last == Latest(b, calls)
    decreases |calls|
  {
    if calls != [] { SteadyRun(b, calls[..|calls| - 1], rate); }
  }

  lemma Spread(a: real, g: real, rate: real, x: real, y: real, z: real)
    requires a == rate * (y - x) && g == (z - y) * rate
    ensures a + g == rate * (z - x)
  {
  }

  lemma AccruedStep(b: Bucket, calls: seq<Call>, before: seq<Call>, c: Call)
    requires calls != [] && before == calls[..|calls| - 1] && c == calls[|calls| - 1]
    ensures Accrued(b, calls) == Accrued(b, before) + Gain(Run(b, before), c) && Latest(b, calls) == c.now
  {
  }

  lemma SteadyGain(b: Bucket, c: Call, rate: real, t: real)
    requires rate > 0.0 && b.last == t && c.now >= t && c.rate == PerSecond(rate)
    ensures Gain(b, c) == (c.now - t) * rate
  {
  }

  lemma {:induction false} AccruedIsElapsed(b: Bucket, calls: seq<Call>, rate: real)
    requires rate > 0.0 && Steady(b, calls, rate)
    ensures Accrued(b, calls) == rate * (Latest(b, calls) - b.last)
    decreases |calls|
  {
    if calls != [] {
      var before, c := calls[..|calls| - 1], calls[|calls| - 1];
      var t := Latest(b, before);
      AccruedIsElapsed(b, before, rate);
      AccruedStep(b, calls, before, c);
      assert Gain(Run(b, before), c) == (c.now - t) * rate by {
        SteadyRun(b, before, rate);
        SteadyGain(Run(b, before), c, rate, t);
      }
      Spread(Accrued(b, before), Gain(Run(b, before), c), rate, b.last, t, c.now);
    }
  }

  /** At a steady rate no more than the tokens held and the rate times the time gone by is ever admitted, and together
      with what is left and what spilled it is exactly that. */
  lemma SteadyAdmissions(b: Bucket, calls: seq<Call>, rate: real)
    requires b.tokens >= 0.0 && rate > 0.0 && Steady(b, calls, rate)
    ensures Admitted(b, calls) as real <= b.tokens + rate * (Latest(b, calls) - b.last)
    ensures Admitted(b, calls) as real + Run(b, calls).tokens + Spilled(b, calls)
         == b.tokens + rate * (Latest(b, calls) - b.last)
  {
    AccruedIsElapsed(b, calls, rate);
    SteadyRun(b, calls, rate);
    TokensConserved(b, calls);
    TokensExact(b, calls);
  }

  /** Left alone long enough, a bucket holds half a second's worth, and eight at the least. */
  lemma IdleFills(b: Bucket, rate: real, now: real)
    requires b.tokens >= 0.0 && rate > 0.0 && now >= b.last + 0.5 && (now - b.last) * rate >= 8.0
    ensures Refilled(b, rate, now) == if rate >= 16.0 then rate / 2.0 else 8.0
  {
    var gain := (now - b.last) * rate;
    ProductSign(now - b.last - 0.5, rate);
    assert gain - 0.5 * rate == (now - b.last - 0.5) * rate;
    assert Elapsed(b, now) == now - b.last && rate / 2.0 == rate * 0.5;
  }

  /** A new bucket's first call, made at once: it holds a full burst exactly from 8 registrations per second on, and it
      admits exactly from one per second on. */
  lemma FirstCall(now: real, rate: real)
    requires rate > 0.0
    ensures var b := Bucket(0.0, now - 1.0);
      && (Refilled(b, rate, now) == Burst(rate) <==> rate >= 8.0)
      && (Admits(b, Call(PerSecond(rate), now)) <==> rate >= 1.0)
  {
    assert Elapsed(Bucket(0.0, now - 1.0), now) * rate == rate;
  }
}

module RegBucket {
  import opened BucketSpec

  class RegRateBucket {
    var tokens: real
    var last: real
    /** Calls shed at a positive finite rate. */
    var denied: nat

    ghost function Abs(): Bucket
      reads this
    {
      Bucket(tokens, last)
    }

    ghost predicate Valid()
      reads this
    {
      tokens >= 0.0
    }

    constructor (now: real)
      ensures Valid() && Abs() == Bucket(0.0, now - 1.0) && denied == 0
    {
      tokens, last, denied := 0.0, now - 1.0, 0;
    }

    /** Admits all while the rate is unset and none at a rate of zero or below; otherwise takes a token or counts one
        denial. */
    method TryTake(rate: Rate, now: real) returns (admitted: bool)
      requires Valid()
      modifies this
      ensures Valid() && Abs() == Taken(old(Abs()), Call(rate, now)) && admitted == Admits(old(Abs()), Call(rate, now))
      ensures denied == old(denied) + if Paced(Call(rate, now)) && !admitted then 1 else 0
      ensures Paced(Call(rate, now)) ==> tokens <= Burst(rate.value)
    {
      if rate.Unset? {
        return true;
      }
      if rate.value <= 0.0 {
        return false;
      }
      TakenBounds(Abs(), Call(rate, now));
      var burst := Burst(rate.value);
      var elapsed := Larger(now - last, 0.0);
      last := now;
      var full := tokens + elapsed * rate.value;
      tokens := if full <= burst then full else burst;
      if tokens >= 1.0 {
        tokens := tokens - 1.0;
        admitted := true;
      } else {
        denied := denied + 1;
        admitted := false;
      }
    }
  }
}
