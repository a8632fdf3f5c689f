module RowLimit {
  import opened Common

  /** Whether a row cap covers the rows a query needs; no cap means every row (src/cache/query/limit.rs). */
  predicate LimitSufficient(cap: Option<nat>, needed: Option<nat>) {
    cap.None? || (needed.Some? && cap.value >= needed.value)
  }

  /** The rows of a result of `total` that a cap lets through. */
  function Through(cap: Option<nat>, total: nat): nat { if cap.None? then total else Min(cap.value, total) }

  /** Covering means that, however large the result, what is cached is no less than what is needed. */
  lemma SufficientExact(cap: Option<nat>, needed: Option<nat>)
    ensures LimitSufficient(cap, needed) <==> forall total: nat :: Through(needed, total) <= Through(cap, total)
  {
    if !LimitSufficient(cap, needed) {
      var total := cap.value + 1;
      assert Through(needed, total) > Through(cap, total);
    }
  }
}

/** The materialized-view state machine and its discard backoff (src/cache/mv.rs, src/cache/fast_path.rs). */
module MvSpec {
  import opened Common

  datatype ShapeGate = Skip | Gated

  datatype MvState =
    | Skipped
    | Ineligible
    | Pending(hasTable: bool)
    | Scheduled(hasTable: bool)
    | Building(hasTable: bool)
    | BuildingDirty(hasTable: bool)
    | Fresh

  /** Whether a table on disk backs the state. */
  predicate HasTable(s: MvState) {
    s.Fresh? || (!s.Skipped? && !s.Ineligible? && s.hasTable)
  }

  /** The state after a relevant change, if the change has an effect. */
  function Dirtied(s: MvState): Option<MvState> {
    match s
    case Fresh => Some(Pending(true))
    case Building(h) => Some(BuildingDirty(h))
    case _ => None
  }

  const PAYOFF_WINDOW: real := 5.0
  const BACKOFF_BASE: real := 1.0
  const BACKOFF_CAP: real := 300.0
  const U32_MAX: nat := 0xFFFF_FFFF

  function PowerOfTwo(n: nat): nat { if n == 0 then 1 else 2 * PowerOfTwo(n - 1) }

  /** The rebuild cooldown after `wasted` consecutive builds without payoff. */
  function BackoffDuration(wasted: nat): Option<real> {
    if wasted < 2 then None
    else
      var d := BACKOFF_BASE * PowerOfTwo(Min(wasted - 2, 9)) as real;
      Some(if d < BACKOFF_CAP then d else BACKOFF_CAP)
  }

  function InitialState(gate: ShapeGate): MvState {
    if gate.Skip? then Skipped else Pending(false)
  }

  datatype Meta<P> = Meta(
    gate: ShapeGate, state: MvState, plan: Option<P>, limit: Option<nat>,
    freshAt: Option<real>, wasted: nat, retryAfter: Option<real>)

  function NewMeta<P>(gate: ShapeGate, limit: Option<nat>): Meta<P> {
    Meta(gate, InitialState(gate), None, limit, None, 0, None)
  }

  predicate BuildPermitted<P>(m: Meta<P>, now: real) { m.retryAfter.None? || now >= m.retryAfter.value }

  function WasteRecorded<P>(m: Meta<P>, now: real): Meta<P> {
    var n := Min(m.wasted + 1, U32_MAX);
    m.(wasted := n, retryAfter := match BackoffDuration(n) case None => None case Some(d) => Some(now + d))
  }

  /** A change judged against the view's age: a fresh view that outlived the window resets the backoff. */
  function DirtyApplied<P>(m: Meta<P>, now: real): Meta<P> {
    match Dirtied(m.state)
    case None => m
    case Some(next) =>
      if !m.state.Fresh? then m.(state := next)
      else if PaidOff(m, now) then m.(wasted := 0, retryAfter := None, freshAt := None, state := next)
      else WasteRecorded(m, now).(freshAt := None, state := next)
  }

  predicate PaidOff<P>(m: Meta<P>, now: real) { m.freshAt.Some? && now - m.freshAt.value >= PAYOFF_WINDOW }

  /** What a finished build reports to the writer. */
  datatype Outcome = Built(first: bool) | GateFailed | Failed(hasTable: bool)

  /** The writer's transition for the build of a view that is `Building` or `BuildingDirty` (src/cache/writer/mv.rs). */
  function OutcomeApplied<P>(m: Meta<P>, o: Outcome, sourceReady: bool, plan: Option<P>, now: real): Meta<P> {
    match o
    case Built(first) =>
      if first && !sourceReady then m.(state := Pending(false))
      else if m.state.Building? then
        if plan.None? then m.(state := Ineligible) else m.(plan := plan, freshAt := Some(now), state := Fresh)
      else WasteRecorded(m, now).(state := Pending(true))
    case GateFailed => m.(state := Ineligible)
    case Failed(h) => WasteRecorded(m, now).(state := Pending(h))
  }

  datatype Decision<P> = ServeMv(plan: P) | ServeSource | NeedsSchedule(hasTable: bool)

  lemma {:induction false} PowerGrows(a: nat, b: nat)
    requires a <= b
    ensures 1 <= PowerOfTwo(a) <= PowerOfTwo(b)
    decreases b
  {
    if b > 0 {
      PowerGrows(if a == 0 then 0 else a - 1, b - 1);
    }
  }

  /** The cooldown in seconds, zero below the engagement threshold. */
  function Cooldown(wasted: nat): real {
    match BackoffDuration(wasted) case None => 0.0 case Some(d) => d
  }

  /** Cooldowns never shrink as waste accumulates, double up to the cap, and saturating the counter loses nothing. */
  lemma CooldownShape(n: nat)
    ensures 0.0 <= Cooldown(n) <= Cooldown(n + 1) <= BACKOFF_CAP
    ensures 2 <= n < 10 ==> Cooldown(n + 1) == 2.0 * Cooldown(n)
    ensures n >= 11 ==> Cooldown(n) == BACKOFF_CAP
    ensures Cooldown(Min(n, U32_MAX)) == Cooldown(n)
  {
    assert PowerOfTwo(8) == 256 by { assert PowerOfTwo(4) == 16; }
    assert PowerOfTwo(9) == 512;
    if 2 <= n {
      var a, b := Min(n - 2, 9), Min(n - 1, 9);
      PowerGrows(a, b);
      assert b == a + 1 || (a == 9 && b == 9);
      if n < 10 { PowerGrows(b, 8); }
    }
  }
}

module MvTracking {
  import opened Common
  import opened RowLimit
  import opened MvSpec

  /** All materialized-view state of one cached query. */
  class MvMeta<P(0)> {
    const gate: ShapeGate
    var state: MvState
    var plan: Option<P>
    const limit: Option<nat>
    var freshAt: Option<real>
    var wasted: nat
    var retryAfter: Option<real>

    ghost function Abs(): Meta<P>
      reads this
    {
      Meta(gate, state, plan, limit, freshAt, wasted, retryAfter)
    }

    constructor (g: ShapeGate, cap: Option<nat>)
      ensures Abs() == NewMeta(g, cap) && gate == g && limit == cap && plan.None? && freshAt.None?
      ensures wasted == 0 && retryAfter.None? && state == if g.Skip? then Skipped else Pending(false)
    {
      gate, state, limit := g, if g.Skip? then Skipped else Pending(false), cap;
      plan, freshAt, wasted, retryAfter := None, None, 0, None;
    }

    /** The remaining cooldown, absent exactly when scheduling is permitted. */
    method BackoffRemaining(now: real) returns (left: Option<real>)
      ensures left.None? <==> BuildPermitted(Abs(), now)
      ensures left.Some? ==> left.value > 0.0 && retryAfter == Some(now + left.value)
    {
      if retryAfter.Some? && retryAfter.value > now {
        left := Some(retryAfter.value - now);
      } else {
        left := None;
      }
    }

    method WasteRecord(now: real)
      modifies this
      ensures Abs() == WasteRecorded(old(Abs()), now)
    {
      if wasted < U32_MAX {
        wasted := wasted + 1;
      } else {
        wasted := U32_MAX;
      }
      var d := BackoffDuration(wasted);
      retryAfter := if d.None? then None else Some(now + d.value);
    }

    /** A view that stayed fresh for five seconds or more starts over with no waste and no cooldown; one dirtied sooner
        is one more wasted build; a running build is marked; any other state is left alone. */
    method DirtyApply(now: real)
      modifies this
      ensures Abs() == DirtyApplied(old(Abs()), now)
      ensures old(state).Fresh? ==> state == Pending(true) && freshAt.None?
      ensures old(state).Fresh? && old(freshAt).Some? && now >= old(freshAt).value + 5.0 ==>
        wasted == 0 && retryAfter.None? && forall t :: BuildPermitted(Abs(), t)
      ensures old(state).Fresh? && (old(freshAt).None? || now < old(freshAt).value + 5.0) ==>
        && wasted == Min(old(wasted) + 1, U32_MAX)
        && (if wasted < 2 then retryAfter.None? else retryAfter == Some(now + Cooldown(wasted)))
      ensures !old(state).Fresh? ==>
        && state == (if old(state).Building? then BuildingDirty(old(state).hasTable) else old(state))
        && freshAt == old(freshAt) && wasted == old(wasted) && retryAfter == old(retryAfter)
      ensures plan == old(plan)
    {
      var next := Dirtied(state);
      if next.None? {
        return;
      }
      if state == Fresh {
        if freshAt.Some? && now - freshAt.value >= PAYOFF_WINDOW {
          wasted := 0;
          retryAfter := None;
        } else {
          WasteRecord(now);
        }
        freshAt := None;
      }
      state := next.value;
    }
  }

  /** The dispatch side's view of the cached queries. */
  class CacheStateView<P(0)> {
    var queries: map<nat, Meta<P>>

    constructor ()
      ensures queries == map[]
    {
      queries := map[];
    }

    /** A view is served exactly when it is fresh, planned and holds enough rows; a build is asked for exactly when one
        is pending and permitted. */
    method ServeDecide(fp: nat, rowsNeeded: Option<nat>, now: real) returns (d: Decision<P>)
      ensures d.ServeMv? <==> (
        && fp in queries && queries[fp].state.Fresh? && queries[fp].plan.Some?
        && LimitSufficient(queries[fp].limit, rowsNeeded))
      ensures d.ServeMv? ==> queries[fp].plan == Some(d.plan)
      ensures d.NeedsSchedule? <==> fp in queries && queries[fp].state.Pending? && BuildPermitted(queries[fp], now)
      ensures d.NeedsSchedule? ==> queries[fp].state == Pending(d.hasTable)
    {
      if fp !in queries {
        return ServeSource;
      }
      var m := queries[fp];
      match m.state {
        case Fresh =>
          if m.plan.Some? && LimitSufficient(m.limit, rowsNeeded) {
            d := ServeMv(m.plan.value);
          } else {
            d := ServeSource;
          }
        case Pending(h) =>
          if BuildPermitted(m, now) {
            d := NeedsSchedule(h);
          } else {
            d := ServeSource;
          }
        case Scheduled(_) => d := ServeSource;
        case Building(_) => d := ServeSource;
        case BuildingDirty(_) => d := ServeSource;
        case Skipped => d := ServeSource;
        case Ineligible => d := ServeSource;
      }
    }

    /** Claims a pending build; of several dispatches racing for one, exactly the first sends the command. */
    method Schedule(fp: nat, hasTable: bool) returns (send: bool)
      modifies this
      ensures send <==> fp in old(queries) && old(queries)[fp].state == Pending(hasTable)
      ensures queries
           == if send then old(queries)[fp := old(queries)[fp].(state := Scheduled(hasTable))] else old(queries)
    {
      send := fp in queries && queries[fp].state == Pending(hasTable);
      if send {
        queries := queries[fp := queries[fp].(state := Scheduled(hasTable))];
      }
    }
  }
}
