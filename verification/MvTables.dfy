/** Who owns a materialized view's table on disk: no table is left behind (src/cache/writer/mv.rs, mv_build.rs). */
module MvTables {
  import opened Common
  import opened MvSpec
  import opened MvFreshness

  /** A build task reports what it leaves: only a first build is gated, and a failed one rolls back to what it found. */
  predicate Reports<D, C>(w: World<D, C>, s: Step<D>) {
    s.BuildDone? && w.build.Some? ==> Leaves(w.build.value.hasTable, s.outcome)
  }

  predicate Leaves(hasTable: bool, o: Outcome) {
    (o.GateFailed? ==> !hasTable) && (o.Failed? ==> o.hasTable == hasTable)
  }

  /** With no build in flight, a table is there only for a view that says so. */
  predicate Owned<D, C>(w: World<D, C>) {
    w.build.None? && w.table.Some? ==> InState(w, (s: MvState) => HasTable(s))
  }

  predicate Inv<D, C>(w: World<D, C>) {
    && Owned(w)
    && (w.build.Some? ==>
          var b := w.build.value;
          && (!b.hasTable && !(b.done.Some? && b.done.value.Built?) ==> w.table.None?)
          && (b.done.Some? ==> Leaves(b.hasTable, b.done.value)))
    && (IsBuilding(w) || IsDirtyBuild(w) ==>
          w.build.Some? && !w.build.value.orphan && w.entry.value.meta.state.hasTable == w.build.value.hasTable)
  }

  /** The view's entry is made anew over a table that only the old one knew of. */
  predicate Forgets<D, C>(w: World<D, C>, s: Step<D>) { s.Register? && w.build.None? && w.table.Some? }

  lemma BegunInv<D, C>(w: World<D, C>)
    requires Inv(w)
    ensures Inv(Begun(w))
  {
  }

  lemma MarkedInv<D, C>(w: World<D, C>, now: real)
    requires Inv(w)
    ensures Inv(Marked(w, now))
  {
  }

  lemma OwnCompleted<D, C>(w: World<D, C>, plan: Option<Plan>, now: real)
    requires Inv(w) && w.build.Some? && w.build.value.done.Some? && (IsBuilding(w) || IsDirtyBuild(w))
    ensures Inv(Completed(w, plan, now))
  {
    var o := w.build.value.done.value;
    match o
    case Built(_) =>
    case GateFailed => assert w.table.None?;
    case Failed(h) => assert !h ==> w.table.None?;
  }

  lemma OrphanCompleted<D, C>(w: World<D, C>, plan: Option<Plan>, now: real)
    requires Inv(w) && w.build.Some? && w.build.value.done.Some? && !IsBuilding(w) && !IsDirtyBuild(w)
    ensures Inv(Completed(w, plan, now))
  {
    var o := w.build.value.done.value;
    var v := w.(build := None);
    var dropped := if Remains(o) then v.(table := None) else v;
    assert dropped.table.None? && Inv(dropped);
    BegunInv(dropped);
  }

  /** A step leaves no table behind if and only if it is not a registration over a view that still has one. */
  lemma StepOwnedExact<D, C>(eval: D -> C, w: World<D, C>, s: Step<D>)
    requires Inv(w) && Enabled(eval, w, s) && Reports(w, s)
    ensures Owned(Next(eval, w, s)) <==> !Forgets(w, s)
    ensures !Forgets(w, s) ==> Inv(Next(eval, w, s))
  {
    match s
    case Redirty(now, _) => MarkedInv(w, now);
    case BuildCommand => BegunInv(w.(commands := w.commands - 1));
    case Complete(plan, now) =>
      if IsBuilding(w) || IsDirtyBuild(w) { OwnCompleted(w, plan, now); } else { OrphanCompleted(w, plan, now); }
    case ReplayEarly(_, _, now) => MarkedInv(w, now);
    case Replay(_, _, now) => MarkedInv(w, now);
    case _ =>
  }

  ghost predicate Tidy<D, C>(eval: D -> C, w: World<D, C>, steps: seq<Step<D>>)
    requires IsRun(eval, w, steps)
    decreases |steps|
  {
    steps == [] ||
    (Reports(w, steps[0]) && !Forgets(w, steps[0]) && Tidy(eval, Next(eval, w, steps[0]), steps[1..]))
  }

  lemma {:induction false} RunOwned<D, C>(eval: D -> C, w: World<D, C>, steps: seq<Step<D>>)
    requires Inv(w) && IsRun(eval, w, steps) && Tidy(eval, w, steps)
    ensures Inv(After(eval, w, steps))
    decreases |steps|
  {
    if steps != [] {
      StepOwnedExact(eval, w, steps[0]);
      RunOwned(eval, Next(eval, w, steps[0]), steps[1..]);
    }
  }

  /** No table leak: through evictions mid-build, dirtied, failed, gated and orphaned builds, whenever no build is in
      flight a table on disk belongs to a view whose state says that it has one. */
  lemma NoTableLeak<D, C>(eval: D -> C, db: D, steps: seq<Step<D>>)
    requires IsRun(eval, Start<D, C>(db), steps) && Tidy(eval, Start<D, C>(db), steps)
    ensures Owned(After(eval, Start<D, C>(db), steps))
  {
    RunOwned(eval, Start<D, C>(db), steps);
  }
}
