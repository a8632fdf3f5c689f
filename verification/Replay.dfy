/** The pure serve-time decision (src/cache/serve_decision.rs). */
module ServeDecisions {
  import opened Common
  import opened RowLimit

  datatype QueryState = Pending(hitCount: nat, credit: nat) | Loading | Ready | Invalidated

  datatype AdmitAction = Admit | CheckOnly

  datatype CachePolicy = Fifo | Clock

  /** The decision-relevant slice of a cache entry; no limit means every row. */
  datatype Snapshot = Snapshot(state: QueryState, maxLimit: Option<nat>)

  datatype Input = Input(
    rowsNeeded: Option<nat>, admissionThreshold: nat, policy: CachePolicy, throttled: bool, pendingCredit: nat)

  datatype Decision =
    | Hit
    | LimitBump
    | Coalesce
    | Throttled
    | RateLimited
    | Register(next: QueryState, action: AdmitAction)

  /** `registration` is whether the budget would grant a new registration; only a cold fingerprint consults it. */
  function ServeDecide(entry: Option<Snapshot>, input: Input, registration: bool): Decision {
    match entry
    case None =>
      if input.throttled then Throttled
      else if !registration then RateLimited
      else if input.policy.Fifo? || input.admissionThreshold <= 1 then Register(Loading, Admit)
      else Register(Pending(1, input.pendingCredit), CheckOnly)
    case Some(e) =>
      match e.state
      case Ready => if LimitSufficient(e.maxLimit, input.rowsNeeded) then Hit else LimitBump
      case Loading => if input.throttled then Throttled else Coalesce
      case Pending(hits, _) =>
        if hits + 1 >= input.admissionThreshold then Register(Loading, Admit)
        else Register(Pending(hits + 1, input.pendingCredit), CheckOnly)
      case Invalidated => Register(Loading, Admit)
  }

  predicate Admits(d: Decision) { d.Register? && d.action.Admit? }

  /** Under the throttle nothing waits and no cold fingerprint registers, but one that is pending or invalidated still
      does: a request registers then if and only if its entry is one of these. */
  lemma ThrottleExact(entry: Option<Snapshot>, input: Input, registration: bool)
    requires input.throttled
    ensures !ServeDecide(entry, input, registration).Coalesce?
    ensures ServeDecide(entry, input, registration).Register?
       <==> entry.Some? && (entry.value.state.Pending? || entry.value.state.Invalidated?)
  {
  }

  /** A hit needs a ready entry with enough rows, a limit bump one with too few, whatever the pressure; a request waits
      exactly when its entry is loading and there is no throttle, and is shed exactly when it would wait or register
      cold; it is admitted when its entry is invalidated, when it is the threshold's sighting, or cold with nothing to
      wait for; and the registration budget is looked at for a cold fingerprint only, when not throttled. */
  lemma DecisionSources(entry: Option<Snapshot>, input: Input, registration: bool)
    ensures ServeDecide(entry, input, registration).Hit?
       <==> entry.Some? && entry.value.state.Ready? && LimitSufficient(entry.value.maxLimit, input.rowsNeeded)
    ensures ServeDecide(entry, input, registration).LimitBump?
       <==> entry.Some? && entry.value.state.Ready? && !LimitSufficient(entry.value.maxLimit, input.rowsNeeded)
    ensures ServeDecide(entry, input, registration).Coalesce?
       <==> entry.Some? && entry.value.state.Loading? && !input.throttled
    ensures ServeDecide(entry, input, registration).Throttled?
       <==> input.throttled && (entry.None? || entry.value.state.Loading?)
    ensures ServeDecide(entry, input, registration).RateLimited? <==> entry.None? && !input.throttled && !registration
    ensures Admits(ServeDecide(entry, input, registration)) <==>
      if entry.None? then !input.throttled && registration && (input.policy.Fifo? || input.admissionThreshold <= 1)
      else entry.value.state.Invalidated?
           || (entry.value.state.Pending? && entry.value.state.hitCount + 1 >= input.admissionThreshold)
    ensures ServeDecide(entry, input, true) != ServeDecide(entry, input, false) <==> entry.None? && !input.throttled
  {
  }

  /** The entries a fingerprint that is asked for again and again, never subsumed, goes through before admission. */
  function Asked(input: Input, n: nat): Option<Snapshot>
    requires n < Max(input.admissionThreshold, 1)
  {
    if n == 0 then None
    else
      var d := ServeDecide(Asked(input, n - 1), input, true);
      if d.Register? then Some(Snapshot(d.next, None)) else None
  }

  /** Unthrottled, a cold fingerprint is admitted on exactly its max(threshold, 1)-th sighting, and on its first under
      the first-in-first-out policy. */
  lemma {:induction false} AdmittedAtThreshold(input: Input, n: nat)
    requires !input.throttled && n < Max(input.admissionThreshold, 1) && (input.policy.Clock? || n == 0)
    ensures n > 0 ==> Asked(input, n) == Some(Snapshot(Pending(n, input.pendingCredit), None))
    ensures Admits(ServeDecide(Asked(input, n), input, true))
       <==> input.policy.Fifo? || n == Max(input.admissionThreshold, 1) - 1
  {
    if n > 0 { AdmittedAtThreshold(input, n - 1); }
  }
}

/** The offline replay of a trace against an infinite cache (fit/src/hitrate.rs). */
module Replay {
  import opened Common
  import opened ServeDecisions

  type Fingerprint = nat

  /** An analysed query; `shape` is all the subsumption check looks at. */
  datatype Analysis = Analysis(fingerprint: Fingerprint, rowsNeeded: Option<nat>, maxLimit: Option<nat>, shape: nat)

  datatype Verdict = Write | Utility(begins: Option<bool>) | Passthrough | Cacheable(analysis: Analysis)

  datatype Item = Item(calls: Option<nat>, session: nat, verdict: Verdict)

  /** The admission threshold, and whether a query is subsumed by the registered ones. */
  datatype Config = Config(threshold: nat, subsumed: (seq<Analysis>, Analysis) -> bool)

  datatype VerdictCalls = VerdictCalls(write: nat, utility: nat, nonCacheable: nat, inTransaction: nat, cacheable: nat)

  datatype OutcomeCalls = OutcomeCalls(
    hits: nat, subsumptionHits: nat, coldMisses: nat, limitBumps: nat, pendingForwards: nat, pressureForwards: nat)

  datatype Stats = Stats(statements: nat, calls: nat, verdicts: VerdictCalls, outcomes: OutcomeCalls)

  /** What happened to one call, with the row window it left cached. */
  datatype Outcome =
    | Served
    | Bumped(from: Option<nat>, to: Option<nat>)
    | Subsumed(window: Option<nat>)
    | Cold(window: Option<nat>)
    | Forwarded
    | Pressured

  datatype State = State(
    stats: Stats, entries: map<Fingerprint, Snapshot>, registered: seq<Analysis>, inTransaction: map<nat, bool>)

  /** The replay's state, and each fingerprint's outcomes so far. */
  datatype World = World(state: State, history: map<Fingerprint, seq<Outcome>>)

  const Zero: Stats := Stats(0, 0, VerdictCalls(0, 0, 0, 0, 0), OutcomeCalls(0, 0, 0, 0, 0, 0))
  const Start: World := World(State(Zero, map[], [], map[]), map[])

  function EntryOf(s: State, fp: Fingerprint): Option<Snapshot> {
    if fp in s.entries then Some(s.entries[fp]) else None
  }

  function HistoryOf(w: World, fp: Fingerprint): seq<Outcome> { if fp in w.history then w.history[fp] else [] }

  function InputOf(c: Config, a: Analysis): Input { Input(a.rowsNeeded, c.threshold, Clock, false, 0) }

  /** The outcome of one call. */
  function OutcomeOf(c: Config, s: State, a: Analysis): Outcome {
    var entry := EntryOf(s, a.fingerprint);
    match ServeDecide(entry, InputOf(c, a), true)
    case Hit => Served
    case Coalesce => Served
    case LimitBump => Bumped(if entry.Some? then entry.value.maxLimit else None, a.rowsNeeded)
    case Register(next, action) =>
      if c.subsumed(s.registered, a) then Subsumed(a.maxLimit)
      else if action.Admit? then Cold(a.maxLimit)
      else Forwarded
    case Throttled => Pressured
    case RateLimited => Pressured
  }

  function Counted(t: OutcomeCalls, o: Outcome): OutcomeCalls {
    match o
    case Served => t.(hits := t.hits + 1)
    case Bumped(_, _) => t.(limitBumps := t.limitBumps + 1)
    case Subsumed(_) => t.(subsumptionHits := t.subsumptionHits + 1)
    case Cold(_) => t.(coldMisses := t.coldMisses + 1)
    case Forwarded => t.(pendingForwards := t.pendingForwards + 1)
    case Pressured => t.(pressureForwards := t.pressureForwards + 1)
  }

  function Entered(c: Config, s: State, a: Analysis, o: Outcome): map<Fingerprint, Snapshot> {
    match o
    case Bumped(_, to) => s.entries[a.fingerprint := Snapshot(Ready, to)]
    case Subsumed(window) => s.entries[a.fingerprint := Snapshot(Ready, window)]
    case Cold(window) => s.entries[a.fingerprint := Snapshot(Ready, window)]
    case Forwarded =>
      var d := ServeDecide(EntryOf(s, a.fingerprint), InputOf(c, a), true);
      if d.Register? then s.entries[a.fingerprint := Snapshot(d.next, None)] else s.entries
    case Served => s.entries
    case Pressured => s.entries
  }

  function CallState(c: Config, s: State, a: Analysis): State {
    var o := OutcomeOf(c, s, a);
    s.(stats := s.stats.(outcomes := Counted(s.stats.outcomes, o)),
       entries := Entered(c, s, a, o),
       registered := if o.Subsumed? || o.Cold? then s.registered + [a] else s.registered)
  }

  function Call(c: Config, w: World, a: Analysis): World {
    var fp := a.fingerprint;
    World(CallState(c, w.state, a), w.history[fp := HistoryOf(w, fp) + [OutcomeOf(c, w.state, a)]])
  }

  function Calls(c: Config, w: World, a: Analysis, n: nat): World {
    if n == 0 then w else Call(c, Calls(c, w, a, n - 1), a)
  }

  predicate InTransaction(s: State, session: nat) { session in s.inTransaction && s.inTransaction[session] }

  function CallsOf(item: Item): nat { if item.calls.None? then 1 else item.calls.value }

  function Verdicted(t: VerdictCalls, v: Verdict, inTransaction: bool, n: nat): VerdictCalls {
    match v
    case Write => t.(write := t.write + n)
    case Utility(_) => t.(utility := t.utility + n)
    case Passthrough => t.(nonCacheable := t.nonCacheable + n)
    case Cacheable(_) =>
      if inTransaction then t.(inTransaction := t.inTransaction + n) else t.(cacheable := t.cacheable + n)
  }

  /** The state when a cacheable item's calls start, or after any other item. */
  function Classified(s: State, item: Item): State {
    var n, t := CallsOf(item), s.stats;
    var verdicts := Verdicted(t.verdicts, item.verdict, InTransaction(s, item.session), n);
    s.(stats := t.(statements := t.statements + 1, calls := t.calls + n, verdicts := verdicts),
       inTransaction :=
         if item.verdict.Utility? && item.verdict.begins.Some? then
           s.inTransaction[item.session := item.verdict.begins.value]
         else s.inTransaction)
  }

  function Step(c: Config, w: World, item: Item): World {
    var v := w.(state := Classified(w.state, item));
    if item.verdict.Cacheable? && !InTransaction(w.state, item.session) then
      Calls(c, v, item.verdict.analysis, CallsOf(item))
    else v
  }

  function Run(c: Config, items: seq<Item>): World {
    if items == [] then Start else Step(c, Run(c, items[..|items| - 1]), items[|items| - 1])
  }

  method HitrateReplay(c: Config, items: seq<Item>) returns (stats: Stats)
    ensures stats == Run(c, items).state.stats
  {
    stats := Zero;
    var entries: map<Fingerprint, Snapshot>, registered: seq<Analysis> := map[], [];
    var inTransaction: map<nat, bool> := map[];
    ghost var w := Start;
    for i := 0 to |items|
      invariant w == Run(c, items[..i]) && w.state == State(stats, entries, registered, inTransaction)
    {
      var item := items[i];
      assert items[..i + 1][..i] == items[..i];
      ghost var next := Step(c, w, item);
      w := w.(state := Classified(w.state, item));
      var calls := CallsOf(item);
      stats := stats.(statements := stats.statements + 1, calls := stats.calls + calls);
      var t := stats.verdicts;
      match item.verdict {
        case Write =>
          stats := stats.(verdicts := t.(write := t.write + calls));
        case Utility(begins) =>
          stats := stats.(verdicts := t.(utility := t.utility + calls));
          if begins.Some? {
            inTransaction := inTransaction[item.session := begins.value];
          }
        case Passthrough =>
          stats := stats.(verdicts := t.(nonCacheable := t.nonCacheable + calls));
        case Cacheable(a) =>
          if item.session in inTransaction && inTransaction[item.session] {
            stats := stats.(verdicts := t.(inTransaction := t.inTransaction + calls));
          } else {
            stats := stats.(verdicts := t.(cacheable := t.cacheable + calls));
            ghost var start := w;
            for k := 0 to calls
              invariant w == Calls(c, start, a, k) && w.state == State(stats, entries, registered, inTransaction)
            {
              stats, entries, registered := ReplayCall(c, stats, entries, registered, inTransaction, a);
              w := Call(c, w, a);
            }
          }
      }
      assert w == next;
    }
    assert items[..|items|] == items;
  }

  /** One call of a cacheable query outside a transaction. */
  method ReplayCall(
    c: Config, stats0: Stats, entries0: map<Fingerprint, Snapshot>, registered0: seq<Analysis>,
    ghost inTransaction: map<nat, bool>, a: Analysis)
    returns (stats: Stats, entries: map<Fingerprint, Snapshot>, registered: seq<Analysis>)
    ensures State(stats, entries, registered, inTransaction)
         == CallState(c, State(stats0, entries0, registered0, inTransaction), a)
  {
    entries, registered := entries0, registered0;
    var t := stats0.outcomes;
    var fp := a.fingerprint;
    var entry := if fp in entries then Some(entries[fp]) else None;
    match ServeDecide(entry, InputOf(c, a), true) {
      case Hit => t := t.(hits := t.hits + 1);
      case Coalesce => t := t.(hits := t.hits + 1);
      case LimitBump =>
        t := t.(limitBumps := t.limitBumps + 1);
        if entry.Some? {
          entries := entries[fp := Snapshot(Ready, a.rowsNeeded)];
        }
      case Register(next, action) =>
        if c.subsumed(registered, a) {
          t := t.(subsumptionHits := t.subsumptionHits + 1);
          entries := entries[fp := Snapshot(Ready, a.maxLimit)];
          registered := registered + [a];
        } else if action.Admit? {
          t := t.(coldMisses := t.coldMisses + 1);
          entries := entries[fp := Snapshot(Ready, a.maxLimit)];
          registered := registered + [a];
        } else {
          t := t.(pendingForwards := t.pendingForwards + 1);
          entries := entries[fp := Snapshot(next, None)];
        }
      case Throttled => t := t.(pressureForwards := t.pressureForwards + 1);
      case RateLimited => t := t.(pressureForwards := t.pressureForwards + 1);
    }
    stats := stats0.(outcomes := t);
  }

  // What holds after every call and every item.

  function Effective(c: Config): nat { Max(c.threshold, 1) }

  predicate AllForwarded(h: seq<Outcome>) { forall i :: 0 <= i < |h| ==> h[i].Forwarded? }

  /** Forwards; then, at `k`, one admission, which before the threshold can only be a subsumption; then hits and limit
      bumps for ever. */
  predicate AdmittedAt(h: seq<Outcome>, k: nat, threshold: nat) {
    && k < |h| && k < threshold
    && (forall i :: 0 <= i < k ==> h[i].Forwarded?)
    && (h[k].Subsumed? || (h[k].Cold? && k == threshold - 1))
    && (forall i :: k < i < |h| ==> h[i].Served? || h[i].Bumped?)
  }

  /** The row window the outcomes leave cached. */
  function Window(h: seq<Outcome>): Option<Option<nat>> {
    if h == [] then None
    else
      match h[|h| - 1]
      case Bumped(_, to) => Some(to)
      case Subsumed(window) => Some(window)
      case Cold(window) => Some(window)
      case _ => Window(h[..|h| - 1])
  }

  predicate Wider(to: Option<nat>, from: Option<nat>) {
    from.Some? && (to.None? || to.value > from.value)
  }

  /** Every limit bump starts from the window cached at that point and strictly widens it. */
  predicate Widening(h: seq<Outcome>) {
    forall i :: 0 <= i < |h| && h[i].Bumped? ==> Window(h[..i]) == Some(h[i].from) && Wider(h[i].to, h[i].from)
  }

  /** An entry says exactly what its history says. */
  ghost predicate Agrees(entry: Option<Snapshot>, h: seq<Outcome>, threshold: nat) {
    && Widening(h)
    && match entry
       case None => |h| == 0
       case Some(Snapshot(Pending(hits, _), _)) => 1 <= hits < threshold && AllForwarded(h) && |h| == hits
       case Some(Snapshot(Ready, window)) => (exists k :: AdmittedAt(h, k, threshold)) && Window(h) == Some(window)
       case Some(_) => false
  }

  function ReadyIn(entries: map<Fingerprint, Snapshot>): set<Fingerprint> {
    set fp | fp in entries && entries[fp].state.Ready?
  }

  /** Calls split by verdict, cacheable calls by outcome, `owed` of them to come; none is forwarded for pressure. */
  predicate Balanced(t: Stats, owed: int) {
    var v, o := t.verdicts, t.outcomes;
    && t.calls == v.write + v.utility + v.nonCacheable + v.inTransaction + v.cacheable
    && v.cacheable == o.hits + o.subsumptionHits + o.coldMisses + o.limitBumps + o.pendingForwards + owed
    && o.pressureForwards == 0
  }

  /** The ready entries, and the registered subsumers, are the cold misses and the subsumption hits. */
  predicate ReadyCounted(s: State) {
    |ReadyIn(s.entries)| == s.stats.outcomes.coldMisses + s.stats.outcomes.subsumptionHits == |s.registered|
  }

  ghost predicate Inv(c: Config, w: World, owed: int) {
    Balanced(w.state.stats, owed) && ReadyCounted(w.state) && AllAgree(c, w)
  }

  ghost predicate AllAgree(c: Config, w: World) {
    forall fp :: Agrees(EntryOf(w.state, fp), HistoryOf(w, fp), Effective(c))
  }

  lemma WideningAppend(h: seq<Outcome>, o: Outcome)
    requires Widening(h) && (o.Bumped? ==> Window(h) == Some(o.from) && Wider(o.to, o.from))
    ensures Widening(h + [o])
  {
    forall i | 0 <= i < |h + [o]| && (h + [o])[i].Bumped?
      ensures Window((h + [o])[..i]) == Some((h + [o])[i].from) && Wider((h + [o])[i].to, (h + [o])[i].from)
    {
      assert (h + [o])[..i] == h[..i];
      assert h[..|h|] == h;
    }
  }

  /** One call keeps the called fingerprint's entry in agreement with its history. */
  lemma CallAgrees(c: Config, s: State, a: Analysis, h: seq<Outcome>)
    requires Agrees(EntryOf(s, a.fingerprint), h, Effective(c))
    ensures var o := OutcomeOf(c, s, a);
      && !o.Pressured?
      && Agrees(EntryOf(CallState(c, s, a), a.fingerprint), h + [o], Effective(c))
      && (a.fingerprint in ReadyIn(s.entries) ==> a.fingerprint in ReadyIn(CallState(c, s, a).entries))
      && (o.Subsumed? || o.Cold? <==>
            a.fingerprint !in ReadyIn(s.entries) && a.fingerprint in ReadyIn(CallState(c, s, a).entries))
  {
    var o := OutcomeOf(c, s, a);
    WideningAppend(h, o);
    assert (h + [o])[..|h|] == h;
    if a.fingerprint in ReadyIn(s.entries) {
      var k :| AdmittedAt(h, k, Effective(c));
      assert AdmittedAt(h + [o], k, Effective(c));
    } else if o.Subsumed? || o.Cold? {
      assert AdmittedAt(h + [o], |h|, Effective(c));
    }
  }

  lemma CallKeepsInv(c: Config, w: World, a: Analysis, owed: int)
    requires Inv(c, w, owed)
    ensures Inv(c, Call(c, w, a), owed - 1)
  {
    var fp, v := a.fingerprint, Call(c, w, a);
    CallAgrees(c, w.state, a, HistoryOf(w, fp));
    ReadyCount(w.state.entries, v.state.entries, fp);
    forall q ensures Agrees(EntryOf(v.state, q), HistoryOf(v, q), Effective(c)) {
      assert Agrees(EntryOf(w.state, q), HistoryOf(w, q), Effective(c));
    }
  }

  lemma ReadyCount(before: map<Fingerprint, Snapshot>, after: map<Fingerprint, Snapshot>, fp: Fingerprint)
    requires after == before || (fp in after && after == before[fp := after[fp]])
    requires fp in ReadyIn(before) ==> fp in ReadyIn(after)
    ensures |ReadyIn(after)| == |ReadyIn(before)| + if fp in ReadyIn(after) && fp !in ReadyIn(before) then 1 else 0
  {
    if fp in ReadyIn(after) {
      assert ReadyIn(after) == ReadyIn(before) + {fp};
    } else {
      assert ReadyIn(after) == ReadyIn(before);
    }
  }

  lemma {:induction false} CallsKeepInv(c: Config, w: World, a: Analysis, n: nat, owed: int)
    requires Inv(c, w, owed)
    ensures Inv(c, Calls(c, w, a, n), owed - n)
  {
    if n > 0 {
      CallsKeepInv(c, w, a, n - 1, owed);
      CallKeepsInv(c, Calls(c, w, a, n - 1), a, owed - (n - 1));
    }
  }

  lemma StepKeepsInv(c: Config, w: World, item: Item)
    requires Inv(c, w, 0)
    ensures Inv(c, Step(c, w, item), 0)
  {
    var v := w.(state := Classified(w.state, item));
    var owed := if item.verdict.Cacheable? && !InTransaction(w.state, item.session) then CallsOf(item) else 0;
    forall fp ensures Agrees(EntryOf(v.state, fp), HistoryOf(v, fp), Effective(c)) {
      assert Agrees(EntryOf(w.state, fp), HistoryOf(w, fp), Effective(c));
    }
    assert Inv(c, v, owed);
    if owed > 0 { CallsKeepInv(c, v, item.verdict.analysis, owed, owed); }
  }

  lemma StartInv(c: Config)
    ensures Inv(c, Start, 0)
  {
    assert ReadyIn(Start.state.entries) == {};
    forall fp ensures Agrees(EntryOf(Start.state, fp), HistoryOf(Start, fp), Effective(c)) {
      assert EntryOf(Start.state, fp) == None && HistoryOf(Start, fp) == [];
    }
  }

  /** Replay conservation, over any trace: calls and cacheable calls split exactly, nothing is forwarded for pressure,
      the ready entries are the cold misses and the subsumption hits, and every entry agrees with its history. */
  lemma {:induction false} Conservation(c: Config, items: seq<Item>)
    ensures Inv(c, Run(c, items), 0)
  {
    if items == [] {
      StartInv(c);
    } else {
      Conservation(c, items[..|items| - 1]);
      StepKeepsInv(c, Run(c, items[..|items| - 1]), items[|items| - 1]);
    }
  }

  /** No population is ever in flight and nothing is ever invalidated. */
  lemma NeverLoading(c: Config, items: seq<Item>, fp: Fingerprint)
    ensures var entries := Run(c, items).state.entries;
      fp in entries ==> !entries[fp].state.Loading? && !entries[fp].state.Invalidated?
  {
    Conservation(c, items);
    assert Agrees(EntryOf(Run(c, items).state, fp), HistoryOf(Run(c, items), fp), Effective(c));
  }

  /** A fingerprint that is never subsumed is forwarded max(threshold, 1) - 1 times, misses cold once, and from then on
      only hits or bumps, each bump strictly widening its window. */
  lemma AdmissionShape(c: Config, items: seq<Item>, fp: Fingerprint)
    requires var h := HistoryOf(Run(c, items), fp); forall i :: 0 <= i < |h| ==> !h[i].Subsumed?
    ensures var h, t := HistoryOf(Run(c, items), fp), Effective(c);
      && Widening(h)
      && forall i :: 0 <= i < |h| ==>
        && (h[i].Forwarded? <==> i < t - 1)
        && (h[i].Cold? <==> i == t - 1)
        && (h[i].Served? || h[i].Bumped? <==> i >= t)
  {
    Conservation(c, items);
    assert Agrees(EntryOf(Run(c, items).state, fp), HistoryOf(Run(c, items), fp), Effective(c));
  }
}
