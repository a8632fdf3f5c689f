/** What the replay's counters count (fit/src/hitrate.rs). */
module ReplayCounters {
  import opened Common
  import opened ServeDecisions
  import opened Replay

  // Outcomes, against the histories of all fingerprints.

  datatype Kind = Hits | SubsumptionHits | ColdMisses | LimitBumps | PendingForwards | PressureForwards

  predicate OfKind(o: Outcome, kind: Kind) {
    match kind
    case Hits => o.Served?
    case SubsumptionHits => o.Subsumed?
    case ColdMisses => o.Cold?
    case LimitBumps => o.Bumped?
    case PendingForwards => o.Forwarded?
    case PressureForwards => o.Pressured?
  }

  function CounterOf(t: OutcomeCalls, kind: Kind): nat {
    match kind
    case Hits => t.hits
    case SubsumptionHits => t.subsumptionHits
    case ColdMisses => t.coldMisses
    case LimitBumps => t.limitBumps
    case PendingForwards => t.pendingForwards
    case PressureForwards => t.pressureForwards
  }

  function Tally(h: seq<Outcome>, kind: Kind): nat {
    if h == [] then 0 else Tally(h[..|h| - 1], kind) + if OfKind(h[|h| - 1], kind) then 1 else 0
  }

  ghost function TallyOf(kind: Kind): (Fingerprint, seq<Outcome>) -> nat {
    (fp: Fingerprint, h: seq<Outcome>) => Tally(h, kind)
  }

  /** Each outcome counter is the number of outcomes of its kind in all histories together. */
  ghost predicate Recorded(w: World) {
    forall kind :: CounterOf(w.state.stats.outcomes, kind) == Sum(w.history, TallyOf(kind))
  }

  lemma TallyAppend(h: seq<Outcome>, o: Outcome, kind: Kind)
    ensures Tally(h + [o], kind) == Tally(h, kind) + if OfKind(o, kind) then 1 else 0
  {
    assert (h + [o])[..|h|] == h;
  }

  lemma CountedOne(t: OutcomeCalls, o: Outcome, kind: Kind)
    ensures CounterOf(Counted(t, o), kind) == CounterOf(t, kind) + if OfKind(o, kind) then 1 else 0
  {
  }

  lemma CallRecorded(c: Config, w: World, a: Analysis)
    requires Recorded(w)
    ensures Recorded(Call(c, w, a))
  {
    var fp, o, v := a.fingerprint, OutcomeOf(c, w.state, a), Call(c, w, a);
    var h := HistoryOf(w, fp);
    forall kind ensures CounterOf(v.state.stats.outcomes, kind) == Sum(v.history, TallyOf(kind)) {
      TallyAppend(h, o, kind);
      CountedOne(w.state.stats.outcomes, o, kind);
      SumUpdate(w.history, TallyOf(kind), fp, h + [o]);
      SumSplit(w.history, TallyOf(kind), fp);
      assert CounterOf(w.state.stats.outcomes, kind) == Sum(w.history, TallyOf(kind));
    }
  }

  lemma {:induction false} CallsRecorded(c: Config, w: World, a: Analysis, n: nat)
    requires Recorded(w)
    ensures Recorded(Calls(c, w, a, n))
  {
    if n > 0 {
      CallsRecorded(c, w, a, n - 1);
      CallRecorded(c, Calls(c, w, a, n - 1), a);
    }
  }

  /** Over any trace: hits are what was served, cold misses what was admitted cold, and so on for every counter. */
  lemma {:induction false} OutcomesCounted(c: Config, items: seq<Item>)
    ensures Recorded(Run(c, items))
  {
    if items != [] {
      var w, item := Run(c, items[..|items| - 1]), items[|items| - 1];
      OutcomesCounted(c, items[..|items| - 1]);
      var v := w.(state := Classified(w.state, item));
      assert v.history == w.history && v.state.stats.outcomes == w.state.stats.outcomes;
      forall kind ensures CounterOf(v.state.stats.outcomes, kind) == Sum(v.history, TallyOf(kind)) {
        assert CounterOf(w.state.stats.outcomes, kind) == Sum(w.history, TallyOf(kind));
      }
      if item.verdict.Cacheable? { CallsRecorded(c, v, item.verdict.analysis, CallsOf(item)); }
    }
  }

  // Verdicts, against the trace.

  /** Whether a session is in a transaction: what its last boundary in the trace said, no if there is none. */
  predicate Inside(items: seq<Item>, session: nat) {
    items != [] &&
    (var last := items[|items| - 1];
     if last.session == session && last.verdict.Utility? && last.verdict.begins.Some?
     then last.verdict.begins.value
     else Inside(items[..|items| - 1], session))
  }

  datatype Class = Writes | Utilities | NonCacheable | InsideTransaction | CacheableCalls

  function ClassOf(before: seq<Item>, item: Item): Class {
    match item.verdict
    case Write => Writes
    case Utility(_) => Utilities
    case Passthrough => NonCacheable
    case Cacheable(_) => if Inside(before, item.session) then InsideTransaction else CacheableCalls
  }

  function VerdictOf(t: VerdictCalls, group: Class): nat {
    match group
    case Writes => t.write
    case Utilities => t.utility
    case NonCacheable => t.nonCacheable
    case InsideTransaction => t.inTransaction
    case CacheableCalls => t.cacheable
  }

  /** The calls of a trace's items of one class. */
  function CallsIn(items: seq<Item>, group: Class): nat {
    if items == [] then 0
    else
      var before, item := items[..|items| - 1], items[|items| - 1];
      CallsIn(before, group) + if ClassOf(before, item) == group then CallsOf(item) else 0
  }

  function AllCalls(items: seq<Item>): nat {
    if items == [] then 0 else AllCalls(items[..|items| - 1]) + CallsOf(items[|items| - 1])
  }

  lemma {:induction false} CallsLeave(c: Config, w: World, a: Analysis, n: nat)
    ensures var s, t := w.state, Calls(c, w, a, n).state;
      && t.stats.verdicts == s.stats.verdicts && t.inTransaction == s.inTransaction
      && t.stats.statements == s.stats.statements && t.stats.calls == s.stats.calls
  {
    if n > 0 { CallsLeave(c, w, a, n - 1); }
  }

  /** Over any trace: a session's transaction flag is its last boundary, statements and calls are the trace's, and each
      verdict counter is the number of calls of its class. */
  lemma {:induction false} VerdictsCounted(c: Config, items: seq<Item>)
    ensures var s := Run(c, items).state;
      && (forall session :: InTransaction(s, session) == Inside(items, session))
      && s.stats.statements == |items| && s.stats.calls == AllCalls(items)
      && (forall group :: VerdictOf(s.stats.verdicts, group) == CallsIn(items, group))
  {
    if items != [] {
      var before, item := items[..|items| - 1], items[|items| - 1];
      VerdictsCounted(c, before);
      var w := Run(c, before);
      var v := w.(state := Classified(w.state, item));
      if item.verdict.Cacheable? { CallsLeave(c, v, item.verdict.analysis, CallsOf(item)); }
      forall group ensures VerdictOf(v.state.stats.verdicts, group) == CallsIn(items, group) {
        assert VerdictOf(w.state.stats.verdicts, group) == CallsIn(before, group);
        assert InTransaction(w.state, item.session) == Inside(before, item.session);
      }
    }
  }

  // Both together.

  /** The calls of one fingerprint outside transactions. */
  function CallsFor(items: seq<Item>, fp: Fingerprint): nat {
    if items == [] then 0
    else
      var before, item := items[..|items| - 1], items[|items| - 1];
      CallsFor(before, fp)
      + if item.verdict.Cacheable? && item.verdict.analysis.fingerprint == fp && !Inside(before, item.session)
        then CallsOf(item) else 0
  }

  lemma {:induction false} CallsLengthen(c: Config, w: World, a: Analysis, n: nat, fp: Fingerprint)
    ensures |HistoryOf(Calls(c, w, a, n), fp)| == |HistoryOf(w, fp)| + if fp == a.fingerprint then n else 0
  {
    if n > 0 { CallsLengthen(c, w, a, n - 1, fp); }
  }

  /** A fingerprint has one outcome for each of its calls outside transactions. */
  lemma {:induction false} OneOutcomePerCall(c: Config, items: seq<Item>, fp: Fingerprint)
    ensures |HistoryOf(Run(c, items), fp)| == CallsFor(items, fp)
  {
    if items != [] {
      var before, item := items[..|items| - 1], items[|items| - 1];
      var w := Run(c, before);
      OneOutcomePerCall(c, before, fp);
      VerdictsCounted(c, before);
      assert InTransaction(w.state, item.session) == Inside(before, item.session);
      if item.verdict.Cacheable? {
        CallsLengthen(c, w.(state := Classified(w.state, item)), item.verdict.analysis, CallsOf(item), fp);
      }
    }
  }

  predicate Unsubsumed(h: seq<Outcome>) { forall i :: 0 <= i < |h| ==> !h[i].Subsumed? }

  /** What a history of forwards, one cold miss and then hits or bumps adds up to. */
  lemma {:induction false} ShapeTally(h: seq<Outcome>, t: nat)
    requires t >= 1
    requires forall i :: 0 <= i < |h| ==>
      && (h[i].Forwarded? <==> i < t - 1)
      && (h[i].Cold? <==> i == t - 1)
      && (h[i].Served? || h[i].Bumped? <==> i >= t)
    ensures Tally(h, PendingForwards) == Min(|h|, t - 1)
    ensures Tally(h, ColdMisses) == if |h| >= t then 1 else 0
    ensures Tally(h, Hits) + Tally(h, LimitBumps) == Max(|h| - t, 0)
  {
    if h != [] { ShapeTally(h[..|h| - 1], t); }
  }

  /** A fingerprint never subsumed, called `n` times outside transactions: it is forwarded min(n, threshold - 1) times,
      misses once if called often enough, and every further call hits or widens its window. */
  lemma AdmissionCounts(c: Config, items: seq<Item>, fp: Fingerprint)
    requires Unsubsumed(HistoryOf(Run(c, items), fp))
    ensures var h, n, t := HistoryOf(Run(c, items), fp), CallsFor(items, fp), Effective(c);
      && Tally(h, PendingForwards) == Min(n, t - 1)
      && Tally(h, ColdMisses) == (if n >= t then 1 else 0)
      && Tally(h, Hits) + Tally(h, LimitBumps) == Max(n - t, 0)
  {
    AdmissionShape(c, items, fp);
    OneOutcomePerCall(c, items, fp);
    ShapeTally(HistoryOf(Run(c, items), fp), Effective(c));
  }

  ghost function ForwardShare(t: nat): (Fingerprint, seq<Outcome>) -> nat
    requires t >= 1
  {
    (fp: Fingerprint, h: seq<Outcome>) => if |h| < t then |h| else t - 1
  }

  ghost function ColdShare(t: nat): (Fingerprint, seq<Outcome>) -> nat {
    (fp: Fingerprint, h: seq<Outcome>) => if |h| >= t then 1 else 0
  }

  /** With nothing subsumed, the whole replay's forwards and cold misses follow from how often each fingerprint was
      called. */
  lemma ReplayCounts(c: Config, items: seq<Item>)
    requires forall fp :: Unsubsumed(HistoryOf(Run(c, items), fp))
    ensures var w := Run(c, items);
      && w.state.stats.outcomes.pendingForwards == Sum(w.history, ForwardShare(Effective(c)))
      && w.state.stats.outcomes.coldMisses == Sum(w.history, ColdShare(Effective(c)))
      && (forall fp :: fp in w.history ==> |w.history[fp]| == CallsFor(items, fp))
  {
    var w, t := Run(c, items), Effective(c);
    OutcomesCounted(c, items);
    assert CounterOf(w.state.stats.outcomes, PendingForwards) == Sum(w.history, TallyOf(PendingForwards));
    assert CounterOf(w.state.stats.outcomes, ColdMisses) == Sum(w.history, TallyOf(ColdMisses));
    forall fp | fp in w.history
      ensures TallyOf(PendingForwards)(fp, w.history[fp]) == ForwardShare(t)(fp, w.history[fp])
      ensures TallyOf(ColdMisses)(fp, w.history[fp]) == ColdShare(t)(fp, w.history[fp])
      ensures |w.history[fp]| == CallsFor(items, fp)
    {
      assert Unsubsumed(HistoryOf(w, fp));
      AdmissionCounts(c, items, fp);
      OneOutcomePerCall(c, items, fp);
    }
    SumSame(w.history, TallyOf(PendingForwards), ForwardShare(t));
    SumSame(w.history, TallyOf(ColdMisses), ColdShare(t));
  }
}
