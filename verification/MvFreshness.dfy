/**
 * One query's materialized view against the cache database: dispatches, build tasks, CDC frames, evictions and
 * re-registrations interleaved. Transitions run on the writer; only the build task's SQL runs beside it.
 *
 * A frame replays its row events, dirty-marking the views they affect, and then commits. A frame that reaches the event
 * log's cap replays a part of its events early, and the writer goes on to other commands before the rest commits.
 */
module MvFreshness {
  import opened Common
  import opened MvSpec

  type Plan = nat

  datatype Entry = Entry(meta: Meta<Plan>, sourceReady: bool)

  /** A build task: what its snapshot read, and what it reported once done. */
  datatype Build<C> = Build(hasTable: bool, snapshot: Option<C>, done: Option<Outcome>, orphan: bool)

  datatype World<D, C> = World(
    /** The committed cache database, and the same with the open frame's replayed events. */
    db: D,
    staged: D,
    /** The writer is between a frame's last replay and its commit. */
    flushing: bool,
    table: Option<C>,
    entry: Option<Entry>,
    commands: nat,
    build: Option<Build<C>>)

  datatype Step<D> =
    | Register(gate: ShapeGate, limit: Option<nat>)
    | Evict
    | Reclaim
    | SourceSet(ready: bool)
    | Redirty(now: real, ready: bool)
    | Dispatch(now: real)
    | BuildCommand
    | BuildRead
    | BuildDone(outcome: Outcome)
    | Complete(plan: Option<Plan>, now: real)
    | ReplayEarly(next: D, mark: bool, now: real)
    | Replay(next: D, mark: bool, now: real)
    | Commit

  predicate InState<D, C>(w: World<D, C>, p: MvState -> bool) { w.entry.Some? && p(w.entry.value.meta.state) }

  predicate IsFresh<D, C>(w: World<D, C>) { InState(w, (s: MvState) => s.Fresh?) }

  predicate IsBuilding<D, C>(w: World<D, C>) { InState(w, (s: MvState) => s.Building?) }

  predicate IsDirtyBuild<D, C>(w: World<D, C>) { InState(w, (s: MvState) => s.BuildingDirty?) }

  predicate IsScheduled<D, C>(w: World<D, C>) { InState(w, (s: MvState) => s.Scheduled?) }

  predicate Enabled<D, C(==)>(eval: D -> C, w: World<D, C>, s: Step<D>) {
    match s
    case Register(_, _) => true
    // A frame's own invalidations and evictions come between its last replay and its commit.
    case Evict => true
    case Reclaim => InState(w, (t: MvState) => t == Pending(true))
    case SourceSet(_) => true
    case Redirty(_, _) => true
    case Dispatch(now) => InState(w, (t: MvState) => t.Pending?) && BuildPermitted(w.entry.value.meta, now)
    case BuildCommand => !w.flushing && w.commands > 0
    case BuildRead => w.build.Some? && w.build.value.snapshot.None? && w.build.value.done.None?
    case BuildDone(o) =>
      && w.build.Some? && w.build.value.done.None?
      && (o.Built? ==> w.build.value.snapshot.Some? && o.first == !w.build.value.hasTable)
    case Complete(_, _) => !w.flushing && w.build.Some? && w.build.value.done.Some?
    // The replay marks every view whose result its events change.
    case ReplayEarly(next, mark, _) => !w.flushing && (eval(next) != eval(w.staged) ==> mark)
    case Replay(next, mark, _) => !w.flushing && (eval(next) != eval(w.staged) ==> mark)
    case Commit => w.flushing
  }

  function Marked<D, C>(w: World<D, C>, now: real): World<D, C> {
    if w.entry.None? then w else w.(entry := Some(w.entry.value.(meta := DirtyApplied(w.entry.value.meta, now))))
  }

  function Orphaned<C>(b: Option<Build<C>>): Option<Build<C>> {
    if b.None? then None else Some(b.value.(orphan := true))
  }

  /** The writer takes a scheduled view whose source rows are ready into its build, unless a build is in flight. */
  function Begun<D, C>(w: World<D, C>): World<D, C> {
    if w.build.Some? || !IsScheduled(w) || !w.entry.value.sourceReady then w
    else
      var e := w.entry.value;
      w.(entry := Some(e.(meta := e.meta.(state := Building(e.meta.state.hasTable)))),
         build := Some(Build(e.meta.state.hasTable, None, None, false)))
  }

  /** Whether a finished build left a table behind. */
  predicate Remains(o: Outcome) { o.Built? || (o.Failed? && o.hasTable) }

  function Completed<D, C>(w: World<D, C>, plan: Option<Plan>, now: real): World<D, C>
    requires w.build.Some? && w.build.value.done.Some?
  {
    var o := w.build.value.done.value;
    var v := w.(build := None);
    var dropped := if Remains(o) then v.(table := None) else v;
    if IsBuilding(w) || IsDirtyBuild(w) then
      var e := w.entry.value;
      var m := OutcomeApplied(e.meta, o, e.sourceReady, plan, now);
      var table := if o.Built? && (m.state.Ineligible? || m.state == Pending(false)) then None else v.table;
      v.(entry := Some(e.(meta := m)), table := table)
    else if IsScheduled(w) then Begun(dropped)
    else dropped
  }

  function Next<D, C(==)>(eval: D -> C, w: World<D, C>, s: Step<D>): World<D, C>
    requires Enabled(eval, w, s)
  {
    match s
    case Register(gate, limit) => w.(entry := Some(Entry(NewMeta(gate, limit), false)), build := Orphaned(w.build))
    case Evict =>
      var keep := IsBuilding(w) || IsDirtyBuild(w) || !InState(w, (t: MvState) => HasTable(t));
      w.(entry := None, build := Orphaned(w.build), table := if keep then w.table else None)
    // Size pressure empties a table that only waits for its rebuild.
    case Reclaim => w.(table := None)
    case SourceSet(ready) =>
      if w.entry.None? then w else w.(entry := Some(w.entry.value.(sourceReady := ready)))
    // A limit bump, or an invalidation.
    case Redirty(now, ready) =>
      var v := Marked(w, now);
      if v.entry.None? then v else v.(entry := Some(v.entry.value.(sourceReady := ready)))
    case Dispatch(_) =>
      var e := w.entry.value;
      w.(entry := Some(e.(meta := e.meta.(state := Scheduled(e.meta.state.hasTable)))), commands := w.commands + 1)
    case BuildCommand => Begun(w.(commands := w.commands - 1))
    case BuildRead => w.(build := Some(w.build.value.(snapshot := Some(eval(w.db)))))
    case BuildDone(o) =>
      w.(build := Some(w.build.value.(done := Some(o))), table := if o.Built? then w.build.value.snapshot else w.table)
    case Complete(plan, now) => Completed(w, plan, now)
    case ReplayEarly(next, mark, now) => (if mark then Marked(w, now) else w).(staged := next)
    case Replay(next, mark, now) => (if mark then Marked(w, now) else w).(staged := next, flushing := true)
    case Commit => w.(db := w.staged, flushing := false)
  }

  /** The build the view is waiting for is its own and clean builds hold what the database holds. */
  predicate Tracked<D, C(==)>(eval: D -> C, w: World<D, C>) {
    && (IsBuilding(w) || IsDirtyBuild(w) ==> w.build.Some? && !w.build.value.orphan)
    && (IsFresh(w) ==> w.build.None? && w.entry.value.meta.plan.Some? && w.table == Some(eval(w.db)))
    && (IsBuilding(w) && w.build.value.snapshot.Some? ==> w.build.value.snapshot == Some(eval(w.db)))
    && (IsBuilding(w) && w.build.value.done.Some? && w.build.value.done.value.Built? ==>
          w.build.value.snapshot.Some? && w.table == w.build.value.snapshot)
  }

  /** No open frame has yet changed the result of a view that is fresh or cleanly building. */
  predicate Settled<D, C(==)>(eval: D -> C, w: World<D, C>) {
    IsFresh(w) || IsBuilding(w) ==> eval(w.staged) == eval(w.db)
  }

  predicate Inv<D, C(==)>(eval: D -> C, w: World<D, C>) { Tracked(eval, w) && Settled(eval, w) }

  predicate Buildable<D, C>(w: World<D, C>) { IsScheduled(w) && w.entry.value.sourceReady }

  /** The writer takes the view into a build: on its command, or when the completion of an orphan clears the way. */
  predicate Begins<D, C>(w: World<D, C>, s: Step<D>) {
    Buildable(w) && ((s.BuildCommand? && w.build.None?) || s.Complete?)
  }

  /** A build begins while a frame replayed in part has changed the view's result. */
  predicate BeginsUnsettled<D, C(==)>(eval: D -> C, w: World<D, C>, s: Step<D>) {
    Begins(w, s) && eval(w.staged) != eval(w.db)
  }

  lemma MarkedTracked<D, C>(eval: D -> C, w: World<D, C>, now: real)
    requires Tracked(eval, w)
    ensures Tracked(eval, Marked(w, now))
    ensures !IsFresh(Marked(w, now)) && !IsBuilding(Marked(w, now))
  {
  }

  lemma BegunTracked<D, C>(eval: D -> C, w: World<D, C>)
    requires Tracked(eval, w)
    ensures Tracked(eval, Begun(w)) && Begun(w).staged == w.staged && Begun(w).db == w.db
    ensures Begun(w).flushing == w.flushing && (IsFresh(Begun(w)) ==> IsFresh(w))
  {
  }

  lemma CompletedTracked<D, C>(eval: D -> C, w: World<D, C>, plan: Option<Plan>, now: real)
    requires Tracked(eval, w) && w.build.Some? && w.build.value.done.Some?
    ensures Tracked(eval, Completed(w, plan, now))
    ensures IsFresh(Completed(w, plan, now)) ==> IsBuilding(w) && w.build.value.done.value.Built?
  {
    var o := w.build.value.done.value;
    var v := w.(build := None);
    var dropped := if Remains(o) then v.(table := None) else v;
    if !IsBuilding(w) && !IsDirtyBuild(w) {
      assert Tracked(eval, dropped);
      BegunTracked(eval, dropped);
    }
  }

  lemma BeginsIsBuilding<D, C>(eval: D -> C, w: World<D, C>, s: Step<D>)
    requires Enabled(eval, w, s)
    ensures Begins(w, s) <==> !IsBuilding(w) && IsBuilding(Next(eval, w, s))
  {
  }

  /** Every step keeps a fresh view equal to the query's result and a clean build on course to be, except a build that
      begins over a result the open frame has changed. */
  lemma StepKeepsInv<D, C>(eval: D -> C, w: World<D, C>, s: Step<D>)
    requires Inv(eval, w) && Enabled(eval, w, s) && !BeginsUnsettled(eval, w, s)
    ensures Inv(eval, Next(eval, w, s))
  {
    match s
    case Redirty(now, _) => MarkedTracked(eval, w, now);
    case BuildCommand => BegunTracked(eval, w.(commands := w.commands - 1));
    case Complete(plan, now) => CompletedTracked(eval, w, plan, now);
    case ReplayEarly(_, _, now) => MarkedTracked(eval, w, now);
    case Replay(_, _, now) => MarkedTracked(eval, w, now);
    case _ =>
  }

  ghost predicate IsRun<D, C>(eval: D -> C, w: World<D, C>, steps: seq<Step<D>>)
    decreases |steps|
  {
    steps == [] || (Enabled(eval, w, steps[0]) && IsRun(eval, Next(eval, w, steps[0]), steps[1..]))
  }

  ghost function After<D, C>(eval: D -> C, w: World<D, C>, steps: seq<Step<D>>): World<D, C>
    requires IsRun(eval, w, steps)
    decreases |steps|
  {
    if steps == [] then w else After(eval, Next(eval, w, steps[0]), steps[1..])
  }

  /** No step of the run begins a build over a result that the open frame has changed. */
  ghost predicate SettledBuilds<D, C>(eval: D -> C, w: World<D, C>, steps: seq<Step<D>>)
    requires IsRun(eval, w, steps)
    decreases |steps|
  {
    steps == [] || (!BeginsUnsettled(eval, w, steps[0]) && SettledBuilds(eval, Next(eval, w, steps[0]), steps[1..]))
  }

  ghost predicate WholeFrames<D>(steps: seq<Step<D>>) {
    forall i :: 0 <= i < |steps| ==> !steps[i].ReplayEarly?
  }

  ghost function Start<D, C>(db: D): World<D, C> { World(db, db, false, None, None, 0, None) }

  lemma {:induction false} RunKeepsInv<D, C>(eval: D -> C, w: World<D, C>, steps: seq<Step<D>>)
    requires Inv(eval, w) && IsRun(eval, w, steps) && SettledBuilds(eval, w, steps)
    ensures Inv(eval, After(eval, w, steps))
    decreases |steps|
  {
    if steps != [] {
      StepKeepsInv(eval, w, steps[0]);
      RunKeepsInv(eval, Next(eval, w, steps[0]), steps[1..]);
    }
  }

  /** A view served from its table returns the query's result on the committed database, and its plan is installed, in
      every run that begins no build over a result the open frame has changed. */
  lemma FreshIsCurrent<D, C>(eval: D -> C, db: D, steps: seq<Step<D>>)
    requires IsRun(eval, Start<D, C>(db), steps) && SettledBuilds(eval, Start<D, C>(db), steps)
    ensures var w := After(eval, Start<D, C>(db), steps);
      IsFresh(w) ==> w.table == Some(eval(w.db)) && w.entry.value.meta.plan.Some? && w.build.None?
  {
    RunKeepsInv(eval, Start<D, C>(db), steps);
  }

  /** Frames that replay whole leave the writer no moment to begin such a build. */
  lemma {:induction false} WholeFramesSettle<D, C>(eval: D -> C, w: World<D, C>, steps: seq<Step<D>>)
    requires IsRun(eval, w, steps) && WholeFrames(steps) && (!w.flushing ==> eval(w.staged) == eval(w.db))
    ensures SettledBuilds(eval, w, steps)
    decreases |steps|
  {
    if steps != [] {
      WholeFramesSettle(eval, Next(eval, w, steps[0]), steps[1..]);
    }
  }

  /** So with frames that replay whole, a fresh view is always current. */
  lemma WholeFramesCurrent<D, C>(eval: D -> C, db: D, steps: seq<Step<D>>)
    requires IsRun(eval, Start<D, C>(db), steps) && WholeFrames(steps)
    ensures var w := After(eval, Start<D, C>(db), steps);
      IsFresh(w) ==> w.table == Some(eval(w.db)) && w.entry.value.meta.plan.Some? && w.build.None?
  {
    WholeFramesSettle(eval, Start<D, C>(db), steps);
    FreshIsCurrent(eval, db, steps);
  }

  lemma {:induction false} RunConcat<D, C>(eval: D -> C, w: World<D, C>, a: seq<Step<D>>, b: seq<Step<D>>)
    requires IsRun(eval, w, a) && IsRun(eval, After(eval, w, a), b)
    ensures IsRun(eval, w, a + b) && After(eval, w, a + b) == After(eval, After(eval, w, a), b)
    ensures SettledBuilds(eval, w, a + b) <==> SettledBuilds(eval, w, a) && SettledBuilds(eval, After(eval, w, a), b)
    decreases |a|
  {
    if a == [] {
      assert a + b == b;
    } else {
      RunConcat(eval, Next(eval, w, a[0]), a[1..], b);
      assert (a + b)[1..] == a[1..] + b;
    }
  }

  lemma RunOne<D, C>(eval: D -> C, w: World<D, C>, s: Step<D>)
    requires Enabled(eval, w, s)
    ensures IsRun(eval, w, [s]) && After(eval, w, [s]) == Next(eval, w, s)
    ensures SettledBuilds(eval, w, [s]) <==> !BeginsUnsettled(eval, w, s)
  {
    var v := Next(eval, w, s);
    assert [s][1..] == [];
    assert IsRun(eval, v, []) && After(eval, v, []) == v && SettledBuilds(eval, v, []);
  }

  lemma RunTwo<D, C>(eval: D -> C, w: World<D, C>, s: Step<D>, t: Step<D>)
    requires Enabled(eval, w, s) && Enabled(eval, Next(eval, w, s), t)
    ensures IsRun(eval, w, [s, t]) && After(eval, w, [s, t]) == Next(eval, Next(eval, w, s), t)
    ensures SettledBuilds(eval, w, [s, t])
       <==> !BeginsUnsettled(eval, w, s) && !BeginsUnsettled(eval, Next(eval, w, s), t)
  {
    RunOne(eval, Next(eval, w, s), t);
    assert [s, t][1..] == [t];
  }

  /** A fresh view whose table is not the query's result. */
  predicate Stale<D, C(==)>(eval: D -> C, w: World<D, C>) { IsFresh(w) && w.table.Some? && w.table != Some(eval(w.db)) }

  /** The rest of an unsettled build: it reads, the frame commits, the build reports and its view is fresh. */
  ghost function StaleEnd<D, C>(w: World<D, C>, plan: Plan, now: real): seq<Step<D>>
    requires w.build.Some?
  {
    [BuildRead, Replay(w.staged, false, now)]
      + ([Commit] + [BuildDone(Built(!w.build.value.hasTable)), Complete(Some(plan), now)])
  }

  /** A clean build that has not read yet, begun over a changed result, ends in a stale fresh view. */
  lemma UnsettledBuildStale<D, C>(eval: D -> C, w: World<D, C>, plan: Plan, now: real)
    requires IsBuilding(w) && w.entry.value.sourceReady && !w.flushing && eval(w.staged) != eval(w.db)
    requires w.build.Some? && w.build.value.snapshot.None? && w.build.value.done.None?
    ensures IsRun(eval, w, StaleEnd(w, plan, now)) && SettledBuilds(eval, w, StaleEnd(w, plan, now))
    ensures Stale(eval, After(eval, w, StaleEnd(w, plan, now)))
  {
    var a := [BuildRead, Replay(w.staged, false, now)];
    var b := [BuildDone(Built(!w.build.value.hasTable)), Complete(Some(plan), now)];
    RunTwo(eval, w, a[0], a[1]);
    var v := After(eval, w, a);
    var u := Next(eval, v, Commit);
    RunTwo(eval, u, b[0], b[1]);
    RunOne(eval, v, Commit);
    RunConcat(eval, v, [Commit], b);
    RunConcat(eval, w, a, [Commit] + b);
  }

  /** No continuation that begins only settled builds reaches a stale fresh view. */
  ghost predicate SafeFrom<D(!new), C>(eval: D -> C, w: World<D, C>) {
    forall steps: seq<Step<D>> {:trigger SettledBuilds(eval, w, steps)} ::
      IsRun(eval, w, steps) && SettledBuilds(eval, w, steps) ==> !Stale(eval, After(eval, w, steps))
  }

  /** Beginning a build is safe if and only if no open frame has changed the view's result. */
  lemma BeginExact<D(!new), C>(eval: D -> C, w: World<D, C>, s: Step<D>)
    requires Inv(eval, w) && Enabled(eval, w, s) && Begins(w, s)
    ensures SafeFrom(eval, Next(eval, w, s)) <==> eval(w.staged) == eval(w.db)
  {
    var v := Next(eval, w, s);
    if eval(w.staged) == eval(w.db) {
      StepKeepsInv(eval, w, s);
      forall steps | IsRun(eval, v, steps) && SettledBuilds(eval, v, steps)
        ensures !Stale(eval, After(eval, v, steps))
      {
        RunKeepsInv(eval, v, steps);
      }
    } else {
      UnsettledBuildStale(eval, v, 0, 0.0);
      assert SettledBuilds(eval, v, StaleEnd(v, 0, 0.0));
    }
  }

  function Same(d: nat): nat { d }

  /** The view scheduled, its build command queued, and a frame that changes its result replayed but not committed. */
  ghost function MidFrame(): World<nat, nat> {
    var meta: Meta<Plan> := NewMeta(Gated, None);
    World(0, 1, false, None, Some(Entry(meta.(state := Scheduled(false)), true)), 1, None)
  }

  lemma MidFrameReachable() returns (steps: seq<Step<nat>>)
    ensures IsRun(Same, Start<nat, nat>(0), steps) && After(Same, Start<nat, nat>(0), steps) == MidFrame()
  {
    var w := Start<nat, nat>(0);
    var a, b := [Register(Gated, None), SourceSet(true)], [Dispatch(0.0), ReplayEarly(1, true, 0.0)];
    RunTwo(Same, w, a[0], a[1]);
    RunTwo(Same, After(Same, w, a), b[0], b[1]);
    RunConcat(Same, w, a, b);
    steps := a + b;
  }

  /** Such a build begins in a run from the start, and the view it leaves fresh is stale. */
  lemma SplitFrameStale() returns (steps: seq<Step<nat>>)
    ensures IsRun(Same, Start<nat, nat>(0), steps) && Stale(Same, After(Same, Start<nat, nat>(0), steps))
  {
    var w, m := Start<nat, nat>(0), MidFrame();
    var a := MidFrameReachable();
    var v := Next(Same, m, BuildCommand);
    var b := StaleEnd(v, 0, 0.0);
    UnsettledBuildStale(Same, v, 0, 0.0);
    RunOne(Same, m, BuildCommand);
    RunConcat(Same, m, [BuildCommand], b);
    RunConcat(Same, w, a, [BuildCommand] + b);
    steps := a + ([BuildCommand] + b);
  }

  /** While the build in flight runs, and right after it completes, the view is not fresh. */
  ghost predicate Discards<D, C>(eval: D -> C, w: World<D, C>, steps: seq<Step<D>>)
    requires IsRun(eval, w, steps)
    decreases |steps|
  {
    && !IsFresh(w)
    && (steps != [] ==>
          var v := Next(eval, w, steps[0]);
          if steps[0].Complete? then !IsFresh(v) else Discards(eval, v, steps[1..]))
  }

  /** A build dirtied in flight, or whose query was evicted or re-registered meanwhile, never makes its view fresh. */
  lemma {:induction false} DirtiedBuildDiscarded<D, C>(eval: D -> C, w: World<D, C>, steps: seq<Step<D>>)
    requires w.build.Some? && !IsFresh(w) && !IsBuilding(w) && IsRun(eval, w, steps)
    ensures Discards(eval, w, steps)
    decreases |steps|
  {
    if steps != [] && !steps[0].Complete? {
      DirtiedBuildDiscarded(eval, Next(eval, w, steps[0]), steps[1..]);
    }
  }

  /** Scheduled, with no command queued and no build in flight. */
  predicate Stranded<D, C>(w: World<D, C>) { IsScheduled(w) && w.commands == 0 && w.build.None? }

  /** A stranded view stays scheduled, so it is never built again, until its query is evicted or registered anew. */
  lemma {:induction false} StrandedForever<D, C>(eval: D -> C, w: World<D, C>, steps: seq<Step<D>>)
    requires Stranded(w) && IsRun(eval, w, steps)
    requires forall i :: 0 <= i < |steps| ==> !steps[i].Evict? && !steps[i].Register?
    ensures Stranded(After(eval, w, steps))
    decreases |steps|
  {
    if steps != [] {
      StrandedForever(eval, Next(eval, w, steps[0]), steps[1..]);
    }
  }

  /** A step strands the view if and only if it is the last build command, or the completion of an orphan with no
      command left, and it finds the view scheduled with its source rows not ready and no build of its own. */
  lemma StrandedExact<D, C>(eval: D -> C, w: World<D, C>, s: Step<D>)
    requires Enabled(eval, w, s) && !Stranded(w)
    ensures Stranded(Next(eval, w, s)) <==>
      && IsScheduled(w) && !w.entry.value.sourceReady
      && ((s.BuildCommand? && w.commands == 1 && w.build.None?) || (s.Complete? && w.commands == 0))
  {
  }

  /** The view scheduled with its source rows ready, and an orphaned build in flight or none. */
  ghost function Waiting(commands: nat, build: Option<Build<nat>>): World<nat, nat> {
    var meta: Meta<Plan> := NewMeta(Gated, None);
    World(0, 0, false, None, Some(Entry(meta.(state := Scheduled(false)), true)), commands, build)
  }

  lemma ScheduledRun(w: World<nat, nat>)
    requires w.commands == 0 && w.db == 0 && w.staged == 0 && !w.flushing && w.table.None?
    ensures var steps := [Register(Gated, None), SourceSet(true)] + [Dispatch(0.0)];
      IsRun(Same, w, steps) && After(Same, w, steps) == Waiting(1, Orphaned(w.build))
  {
    RunTwo(Same, w, Register(Gated, None), SourceSet(true));
    RunOne(Same, After(Same, w, [Register(Gated, None), SourceSet(true)]), Dispatch(0.0));
    RunConcat(Same, w, [Register(Gated, None), SourceSet(true)], [Dispatch(0.0)]);
  }

  /** A stranded view is reachable from the start, by the build command itself. */
  lemma StrandedByCommand() returns (steps: seq<Step<nat>>)
    ensures IsRun(Same, Start<nat, nat>(0), steps) && Stranded(After(Same, Start<nat, nat>(0), steps))
  {
    var w := Start<nat, nat>(0);
    ScheduledRun(w);
    RunTwo(Same, Waiting(1, None), SourceSet(false), BuildCommand);
    steps := [Register(Gated, None), SourceSet(true)] + [Dispatch(0.0)];
    RunConcat(Same, w, steps, [SourceSet(false), BuildCommand]);
    steps := steps + [SourceSet(false), BuildCommand];
  }

  /** And by the completion of an orphan, after the guard on builds in flight has consumed the new entry's command. */
  lemma StrandedByCompletion() returns (steps: seq<Step<nat>>)
    ensures IsRun(Same, Start<nat, nat>(0), steps) && Stranded(After(Same, Start<nat, nat>(0), steps))
    ensures steps != [] && steps[|steps| - 1].Complete?
  {
    var w := Start<nat, nat>(0);
    var again := [Register(Gated, None), SourceSet(true)] + [Dispatch(0.0)];
    ScheduledRun(w);
    var w1 := Waiting(1, None);
    RunOne(Same, w1, BuildCommand);
    RunConcat(Same, w, again, [BuildCommand]);
    var w2 := Next(Same, w1, BuildCommand);
    ScheduledRun(w2);
    RunConcat(Same, w, again + [BuildCommand], again);
    var w3 := Waiting(1, Some(Build(false, None, None, true)));
    assert After(Same, w2, again) == w3;
    OrphanStrands(w3);
    steps := again + [BuildCommand] + again;
    RunConcat(Same, w, steps, [BuildCommand, SourceSet(false)] + [BuildDone(GateFailed), Complete(None, 0.0)]);
    steps := steps + ([BuildCommand, SourceSet(false)] + [BuildDone(GateFailed), Complete(None, 0.0)]);
  }

  lemma OrphanStrands(w: World<nat, nat>)
    requires w == Waiting(1, Some(Build(false, None, None, true)))
    ensures var steps := [BuildCommand, SourceSet(false)] + [BuildDone(GateFailed), Complete(None, 0.0)];
      IsRun(Same, w, steps) && Stranded(After(Same, w, steps))
  {
    RunTwo(Same, w, BuildCommand, SourceSet(false));
    var v := After(Same, w, [BuildCommand, SourceSet(false)]);
    RunTwo(Same, v, BuildDone(GateFailed), Complete(None, 0.0));
    RunConcat(Same, w, [BuildCommand, SourceSet(false)], [BuildDone(GateFailed), Complete(None, 0.0)]);
  }
}
