/**
 Which cached queries a changed row invalidates (src/cache/writer/cdc/invalidation.rs, row_match.rs): the check itself,
 and the pass that looks at a narrowed set of queries only.
 */
module CdcInvalidation {
  import opened Common
  import opened UpdateQueryIndex

  type Row = map<Column, Option<int>>
  type Changes = map<Column, ColumnChange>

  datatype Operation = Upsert | Delete

  /** `keyData` is the old key sent with an update, empty if the key did not change; `changes` are there exactly when
      the row is cached. */
  datatype RowEvent = RowEvent(row: Row, keyData: Option<seq<int>>, operation: Operation, changes: Option<Changes>)

  /** The relation's key, and which rows meet the constraints that a query puts on it. */
  datatype Table = Table(primaryKey: set<Column>, meets: (Fingerprint, Row) -> bool)

  // The check of one query.

  predicate RowMatches(t: Table, q: UpdateQuery, row: Row) { q.shape.constrained ==> t.meets(q.fingerprint, row) }

  predicate Changed(changes: Changes, c: Column) { c in changes && changes[c].changed }

  predicate AnyChanged(columns: set<Column>, changes: Changes) { exists c :: c in columns && Changed(changes, c) }

  predicate JoinUnchanged(t: Table, q: UpdateQuery, keyData: Option<seq<int>>) {
    keyData == Some([]) && q.shape.joinColumns != {} && q.shape.joinColumns <= t.primaryKey
  }

  predicate RowRelevant(t: Table, q: UpdateQuery, e: RowEvent) {
    if q.shape.constrained then RowMatches(t, q, e.row) else !JoinUnchanged(t, q, e.keyData)
  }

  /** Growing an inclusion or shrinking an exclusion can add result rows, and any change can move a scalar. */
  predicate Expands(kind: SubqueryKind, operation: Operation) {
    match kind
    case Scalar => true
    case Inclusion => operation.Upsert?
    case Exclusion => operation.Delete?
  }

  predicate UncachedInvalidates(t: Table, q: UpdateQuery, e: RowEvent) {
    match q.source
    case FromClause => if e.operation.Delete? then q.hasLimit else !q.shape.singleTable && RowRelevant(t, q, e)
    case Subquery(kind) => RowRelevant(t, q, e) && Expands(kind, e.operation)
    case OuterJoinTerminal => false
    case OuterJoinOptional => RowMatches(t, q, e.row)
  }

  /** A sort key's value moved towards the front; not known counts as no. */
  predicate MovesForward(key: OrderByKey, change: ColumnChange, newIsNull: bool) {
    if change.oldIsNull then !newIsNull && !key.nullsFirst
    else if newIsNull then key.nullsFirst
    else change.oldLessThanNew.Some? && change.oldLessThanNew.value == key.descending
  }

  /** The first sort key that changed moved towards the front. */
  predicate FirstMoveForward(keys: seq<OrderByKey>, row: Row, changes: Changes) {
    keys != [] && keys[0].column in changes &&
    (if !changes[keys[0].column].changed then FirstMoveForward(keys[1..], row, changes)
     else keys[0].column in row && MovesForward(keys[0], changes[keys[0].column], row[keys[0].column].None?))
  }

  predicate IsKey(keys: seq<OrderByKey>, c: Column) { exists i :: 0 <= i < |keys| && keys[i].column == c }

  predicate IsPromotion(q: UpdateQuery, row: Row, changes: Changes) {
    && q.orderByKeys.Some?
    && (forall c :: c in q.shape.windowColumns && Changed(changes, c) ==> IsKey(q.orderByKeys.value, c))
    && FirstMoveForward(q.orderByKeys.value, row, changes)
  }

  predicate WindowMoves(t: Table, q: UpdateQuery, row: Row, changes: Changes) {
    && q.hasLimit && q.source.FromClause? && AnyChanged(q.shape.windowColumns, changes)
    && (AnyChanged(q.predicateColumns, changes) || (RowMatches(t, q, row) && !IsPromotion(q, row, changes)))
  }

  /** A column that was not compared counts as changed. */
  predicate JoinMoves(q: UpdateQuery, changes: Changes) {
    exists c :: c in q.shape.joinColumns && (c !in changes || changes[c].changed)
  }

  predicate CachedInvalidates(t: Table, q: UpdateQuery, row: Row, changes: Changes) {
    q.source.Subquery? || q.source.OuterJoinOptional? || WindowMoves(t, q, row, changes)
    || (JoinMoves(q, changes) && RowMatches(t, q, row))
  }

  predicate Invalidates(t: Table, q: UpdateQuery, e: RowEvent) {
    if e.changes.Some? then CachedInvalidates(t, q, e.row, e.changes.value) else UncachedInvalidates(t, q, e)
  }

  /** The outer values that an inclusion lets through, or an exclusion keeps out. */
  function Filtered(kind: SubqueryKind, outer: set<int>, inner: set<int>): set<int> {
    if kind.Exclusion? then outer - inner else outer * inner
  }

  function Written(inner: set<int>, operation: Operation, value: int): set<int> {
    if operation.Upsert? then inner + {value} else inner - {value}
  }

  /** A row of an inclusion or exclusion calls for invalidation exactly where writing it can add to the result. */
  lemma ExpandsExact(kind: SubqueryKind, operation: Operation)
    requires !kind.Scalar?
    ensures Expands(kind, operation) <==>
      exists outer, inner, value :: !(Filtered(kind, outer, Written(inner, operation, value))
                                      <= Filtered(kind, outer, inner))
  {
    if Expands(kind, operation) {
      var outer, inner := {0}, if operation.Upsert? then {} else {0};
      assert 0 in Filtered(kind, outer, Written(inner, operation, 0)) && 0 !in Filtered(kind, outer, inner);
    }
  }

  /** A query over this relation alone, without a limit, is never invalidated by a row: rows are written in place. The
      terminal side of an outer join is, only by an update of a cached row that moves a join column. A subquery's table
      and the other side of an outer join are by every update of a cached row. */
  lemma WrittenInPlace(t: Table, q: UpdateQuery, e: RowEvent)
    ensures q.source.FromClause? && q.shape.singleTable && !q.hasLimit && q.shape.joinColumns == {} ==>
      !Invalidates(t, q, e)
    ensures q.source.OuterJoinTerminal? && Invalidates(t, q, e) ==>
      e.changes.Some? && JoinMoves(q, e.changes.value) && RowMatches(t, q, e.row)
    ensures (q.source.Subquery? || q.source.OuterJoinOptional?) && e.changes.Some? ==> Invalidates(t, q, e)
  {
  }

  // The narrowed pass.

  /** The pass must go on to every limit query: for a delete, and for a changed predicate column of one of them. */
  ghost predicate MustExpand(d: Derived, e: RowEvent) {
    e.operation.Delete? ||
    (e.changes.Some? && exists c :: Changed(e.changes.value, c) && LimitPredicateColumn(d.queries, c))
  }

  function Narrowed(d: Derived, expand: bool, candidates: set<Fingerprint>): set<Fingerprint> {
    candidates + d.alwaysCheck + if expand then d.hasLimitFrom else {}
  }

  /** The constraint index returns every query whose constraints the new row meets; a delete is not looked up in it, and
      carries no changes. */
  predicate ProbeSound(t: Table, queries: Queries, e: RowEvent, candidates: set<Fingerprint>) {
    if e.operation.Delete? then e.changes.None?
    else forall fp :: fp in queries && RowMatches(t, queries[fp], e.row) ==> fp in candidates
  }

  /** The query would be invalidated and is not looked at. */
  predicate Missed(t: Table, d: Derived, e: RowEvent, looked: set<Fingerprint>, fp: Fingerprint) {
    fp in d.queries && Invalidates(t, d.queries[fp], e) && fp !in looked
  }

  /** While the index covers, the narrowed pass misses no query that a look at every query would invalidate. */
  lemma NarrowingComplete(
    t: Table, d: Derived, e: RowEvent, expand: bool, candidates: set<Fingerprint>, fp: Fingerprint)
    requires DoesCover(d) && ProbeSound(t, d.queries, e, candidates) && (MustExpand(d, e) ==> expand)
    ensures !Missed(t, d, e, Narrowed(d, expand, candidates), fp)
  {
    if fp in d.queries && e.changes.Some? {
      var q, changes := d.queries[fp], e.changes.value;
      if WindowMoves(t, q, e.row, changes) && AnyChanged(q.predicateColumns, changes) {
        var c :| c in q.predicateColumns && Changed(changes, c);
        assert LimitPredicateColumn(d.queries, c);
      }
    }
  }

  /** After a limit bit is rewritten in place, the pass over a deleted row is complete if and only if the write did not
      turn an unlimited from-clause query into a limited one. */
  lemma ReindexedDeleteExact(t: Table, d: Derived, fp: Fingerprint, hasLimit: bool, e: RowEvent)
    requires IsExact(d) && e.operation.Delete? && e.changes.None?
    ensures var after := d.(queries := Reindexed(d.queries, fp, hasLimit));
      (forall g :: !Missed(t, after, e, Narrowed(after, true, {}), g)) <==>
      (fp !in d.queries || !d.queries[fp].source.FromClause? || d.queries[fp].hasLimit || !hasLimit)
  {
    var after := d.(queries := Reindexed(d.queries, fp, hasLimit));
    ReindexExact(d, fp, hasLimit);
    if DoesCover(after) {
      forall g ensures !Missed(t, after, e, Narrowed(after, true, {}), g) {
        NarrowingComplete(t, after, e, true, {}, g);
      }
    } else {
      assert Missed(t, after, e, Narrowed(after, true, {}), fp);
    }
  }

  /** The pass: exactly the queries that a look at every query would invalidate. */
  method CheckInvalidate(index: UpdateQueries, t: Table, e: RowEvent, candidates: set<Fingerprint>)
    returns (out: set<Fingerprint>)
    requires index.Covers() && ProbeSound(t, index.queries, e, candidates)
    ensures forall fp :: fp in out <==> fp in index.queries && Invalidates(t, index.queries[fp], e)
  {
    var expand := e.operation.Delete?;
    if !expand && e.changes.Some? {
      expand := index.LimitPredicateChanged(e.changes.value);
    }
    var narrowed := candidates + index.alwaysCheck + if expand then index.hasLimitFrom else {};
    assert narrowed == Narrowed(index.View(), expand, candidates);
    forall fp | fp in index.queries && Invalidates(t, index.queries[fp], e) ensures fp in narrowed {
      NarrowingComplete(t, index.View(), e, expand, candidates, fp);
    }
    var left := narrowed;
    out := {};
    while left != {}
      invariant left <= narrowed
      invariant forall fp :: fp in out ==> fp in index.queries && Invalidates(t, index.queries[fp], e)
      invariant forall fp :: fp in index.queries && Invalidates(t, index.queries[fp], e) ==> fp in out || fp in left
    {
      var fp :| fp in left;
      if fp in index.queries && Invalidates(t, index.queries[fp], e) {
        out := out + {fp};
      }
      left := left - {fp};
    }
  }

  // The gate in front of the pass.

  /** Whether an update could ever invalidate the query, decided at registration. */
  predicate UpdatePossible(q: UpdateQuery) {
    || q.source.Subquery? || q.source.OuterJoinOptional?
    || (q.source.FromClause? && q.hasLimit && q.shape.windowColumns != {})
    || q.shape.joinColumns != {}
    || (q.source.FromClause? && !q.shape.singleTable)
  }

  /** As registered: the flag is the bound, and only a limited query has window columns. */
  predicate Registered(q: UpdateQuery) {
    q.changeDependent == UpdatePossible(q) && (q.shape.windowColumns != {} ==> q.hasLimit)
  }

  /** An insert or update invalidates only queries flagged as change-dependent, also after the limit bit of one has been
      rewritten in place: with none flagged the pass may be skipped. */
  lemma GateSound(t: Table, q: UpdateQuery, hasLimit: bool, e: RowEvent)
    requires Registered(q) && e.operation.Upsert?
    ensures Invalidates(t, q, e) ==> q.changeDependent
    ensures Invalidates(t, q.(hasLimit := hasLimit), e) ==> q.changeDependent
  {
  }
}

/** What the window check may leave in place: a limited query's cached rows over one relation, sorted and cut. */
module LimitWindow {
  import opened Common
  import opened UpdateQueryIndex
  import opened CdcInvalidation

  type Rows = map<nat, Row>

  /** The sort order, as the server has it. */
  predicate KeyBefore(key: OrderByKey, a: Option<int>, b: Option<int>) {
    if a.None? || b.None? then a != b && (a.None? == key.nullsFirst)
    else if key.descending then a.value > b.value else a.value < b.value
  }

  function At(row: Row, c: Column): Option<int> { if c in row then row[c] else None }

  predicate Before(keys: seq<OrderByKey>, x: Row, y: Row) {
    keys != [] &&
    (KeyBefore(keys[0], At(x, keys[0].column), At(y, keys[0].column)) ||
     (At(x, keys[0].column) == At(y, keys[0].column) && Before(keys[1..], x, y)))
  }

  lemma {:induction false} BeforeTransitive(keys: seq<OrderByKey>, x: Row, y: Row, z: Row)
    requires Before(keys, x, y) && Before(keys, y, z)
    ensures Before(keys, x, z)
  {
    var a, b, c := At(x, keys[0].column), At(y, keys[0].column), At(z, keys[0].column);
    if a == b && b == c { BeforeTransitive(keys[1..], x, y, z); }
  }

  /** The changes say which columns differ, and of a compared column which way; of one not compared they say nothing. */
  ghost predicate Describes(changes: Changes, was: Row, now: Row) {
    && (forall c :: At(was, c) != At(now, c) ==> Changed(changes, c))
    && (forall c :: c in changes ==>
          && (changes[c].changed ==> At(was, c) != At(now, c))
          && (changes[c].oldIsNull ==> At(was, c).None?)
          && (changes[c].oldLessThanNew.Some? ==>
                At(was, c).Some? && At(now, c).Some?
                && (changes[c].oldLessThanNew.value <==> At(was, c).value < At(now, c).value)))
  }

  /** Each compared column's direction is given. */
  predicate Directed(changes: Changes, was: Row, now: Row) {
    forall c :: c in changes ==>
      && (At(was, c).None? ==> changes[c].oldIsNull)
      && (At(was, c).Some? && At(now, c).Some? ==> changes[c].oldLessThanNew.Some?)
  }

  /** A promotion, as decided from the changes, does move the row towards the front, and with all keys compared and
      every direction given it is recognized if and only if it does. */
  lemma {:induction false} ForwardExact(keys: seq<OrderByKey>, was: Row, now: Row, changes: Changes)
    requires Describes(changes, was, now) && forall i :: 0 <= i < |keys| ==> keys[i].column in now
    ensures FirstMoveForward(keys, now, changes) ==> Before(keys, now, was)
    ensures Directed(changes, was, now) && (forall i :: 0 <= i < |keys| ==> keys[i].column in changes) ==>
      (Before(keys, now, was) ==> FirstMoveForward(keys, now, changes))
  {
    if keys != [] {
      ForwardExact(keys[1..], was, now, changes);
    }
  }

  // Windows.

  /** A query's sort order: strict, and on nothing but the window columns; the sort keys if it has plain ones. */
  ghost predicate Orders(q: UpdateQuery, order: (Row, Row) -> bool) {
    && (forall x :: !order(x, x)) && (forall x, y, z :: order(x, y) && order(y, z) ==> order(x, z))
    && (forall x, y, z | AlikeOn(q.shape.windowColumns, x, y) ::
          order(x, z) == order(y, z) && order(z, x) == order(z, y))
    && (q.orderByKeys.Some? ==> forall x, y :: order(x, y) == Before(q.orderByKeys.value, x, y))
  }

  ghost predicate AlikeOn(columns: set<Column>, x: Row, y: Row) { forall c :: c in columns ==> At(x, c) == At(y, c) }

  lemma {:induction false} BeforeIrreflexive(keys: seq<OrderByKey>, x: Row)
    ensures !Before(keys, x, x)
  {
    if keys != [] { BeforeIrreflexive(keys[1..], x); }
  }

  lemma {:induction false} BeforeAlike(keys: seq<OrderByKey>, columns: set<Column>, x: Row, y: Row, z: Row)
    requires AlikeOn(columns, x, y) && forall i :: 0 <= i < |keys| ==> keys[i].column in columns
    ensures Before(keys, x, z) == Before(keys, y, z) && Before(keys, z, x) == Before(keys, z, y)
  {
    if keys != [] { BeforeAlike(keys[1..], columns, x, y, z); }
  }

  /** Plain sort keys among the window columns give such an order. */
  lemma KeysOrder(q: UpdateQuery, order: (Row, Row) -> bool)
    requires q.orderByKeys.Some? && forall x, y :: order(x, y) == Before(q.orderByKeys.value, x, y)
    requires forall i :: 0 <= i < |q.orderByKeys.value| ==> q.orderByKeys.value[i].column in q.shape.windowColumns
    ensures Orders(q, order)
  {
    var keys := q.orderByKeys.value;
    forall x ensures !order(x, x) { BeforeIrreflexive(keys, x); }
    forall x, y, z | order(x, y) && order(y, z) ensures order(x, z) { BeforeTransitive(keys, x, y, z); }
    forall x, y, z | AlikeOn(q.shape.windowColumns, x, y)
      ensures order(x, z) == order(y, z) && order(z, x) == order(z, y)
    {
      BeforeAlike(keys, q.shape.windowColumns, x, y, z);
    }
  }

  /** The cached rows that meet the query's constraints and do not sort after a row. */
  function NotAfter(
    t: Table, q: UpdateQuery, order: (Row, Row) -> bool, rows: Rows, cached: set<nat>, row: Row): set<nat>
  {
    set id | id in cached && id in rows && RowMatches(t, q, rows[id]) && !order(row, rows[id])
  }

  /** The cache can answer for the first `n` rows: whichever row it lacks, `n` that it has sort no later. */
  predicate Answers(t: Table, q: UpdateQuery, order: (Row, Row) -> bool, rows: Rows, n: nat, cached: set<nat>) {
    forall id :: id in rows && id !in cached && RowMatches(t, q, rows[id]) ==>
      |NotAfter(t, q, order, rows, cached, rows[id])| >= n
  }

  lemma SubsetSmaller(a: set<nat>, b: set<nat>)
    requires a <= b
    ensures |a| <= |b|
  {
    if a != b {
      assert b == a + (b - a);
      assert |b| == |a| + |b - a|;
    }
  }

  /** A cached row that moves forward, or stays, or comes to match, lets no row in from behind. */
  lemma MovedForward(
    t: Table, q: UpdateQuery, order: (Row, Row) -> bool, rows: Rows, n: nat, cached: set<nat>, id: nat, now: Row)
    requires Orders(q, order) && Answers(t, q, order, rows, n, cached) && id in rows && id in cached
    requires RowMatches(t, q, rows[id]) ==>
      RowMatches(t, q, now) && (order(now, rows[id]) || AlikeOn(q.shape.windowColumns, now, rows[id]))
    ensures Answers(t, q, order, rows[id := now], n, cached)
  {
    var after := rows[id := now];
    forall x | x in after && x !in cached && RowMatches(t, q, after[x])
      ensures |NotAfter(t, q, order, after, cached, after[x])| >= n
    {
      var before := NotAfter(t, q, order, rows, cached, rows[x]);
      assert before <= NotAfter(t, q, order, after, cached, after[x]);
      SubsetSmaller(before, NotAfter(t, q, order, after, cached, after[x]));
    }
  }

  /** The constraints are on columns of the window and of the predicate. */
  ghost predicate Constrains(t: Table, q: UpdateQuery) {
    forall x, y | AlikeOn(q.shape.windowColumns * q.predicateColumns, x, y) ::
      RowMatches(t, q, x) == RowMatches(t, q, y)
  }

  lemma UnchangedAlike(columns: set<Column>, was: Row, now: Row, changes: Changes)
    requires Describes(changes, was, now) && !AnyChanged(columns, changes)
    ensures AlikeOn(columns, was, now)
  {
    forall c | c in columns ensures At(was, c) == At(now, c) {
      assert !Changed(changes, c);
    }
  }

  /** An update that sends no old key kept the key: then a join on key columns only is where it was. */
  lemma JoinKept(t: Table, q: UpdateQuery, was: Row, now: Row, keyData: Option<seq<int>>)
    requires keyData == Some([]) ==> AlikeOn(t.primaryKey, was, now)
    ensures JoinUnchanged(t, q, keyData) ==> AlikeOn(q.shape.joinColumns, was, now)
  {
  }

  /** And an update of a cached row that moves no join column, every one of them compared, leaves the join where it
      was; a column not compared counts as moved. */
  lemma JoinStill(q: UpdateQuery, was: Row, now: Row, changes: Changes)
    requires forall c :: c in changes && !changes[c].changed ==> At(was, c) == At(now, c)
    ensures !JoinMoves(q, changes) ==> AlikeOn(q.shape.joinColumns, was, now)
  {
  }

  /** An update of a cached row that the window check lets pass, written in place, leaves the cache able to answer: the
      pass may skip the query. */
  lemma WindowKept(
    t: Table, q: UpdateQuery, order: (Row, Row) -> bool, rows: Rows, n: nat, cached: set<nat>, id: nat, now: Row,
    changes: Changes)
    requires q.hasLimit && q.source.FromClause? && Orders(q, order) && Constrains(t, q)
    requires Answers(t, q, order, rows, n, cached) && id in rows && id in cached
    requires Describes(changes, rows[id], now) && forall c :: c in q.shape.windowColumns ==> c in now
    requires q.orderByKeys.Some? ==> forall i :: 0 <= i < |q.orderByKeys.value| ==>
      q.orderByKeys.value[i].column in q.shape.windowColumns
    requires !WindowMoves(t, q, now, changes)
    ensures Answers(t, q, order, rows[id := now], n, cached)
  {
    var was := rows[id];
    if !AnyChanged(q.shape.windowColumns, changes) {
      UnchangedAlike(q.shape.windowColumns, was, now, changes);
      assert AlikeOn(q.shape.windowColumns, now, was) && AlikeOn(q.shape.windowColumns * q.predicateColumns, was, now);
    } else {
      UnchangedAlike(q.predicateColumns, was, now, changes);
      assert AlikeOn(q.shape.windowColumns * q.predicateColumns, was, now);
      if RowMatches(t, q, now) { ForwardExact(q.orderByKeys.value, was, now, changes); }
    }
    MovedForward(t, q, order, rows, n, cached, id, now);
  }

  /** So does a row that was not cached and is written, wherever it was before: a single-table query needs no check. */
  lemma UncachedKept(
    t: Table, q: UpdateQuery, order: (Row, Row) -> bool, rows: Rows, n: nat, cached: set<nat>, id: nat, now: Row)
    requires Answers(t, q, order, rows, n, cached) && id !in cached
    ensures Answers(t, q, order, rows[id := now], n, cached + {id})
  {
    var after, more := rows[id := now], cached + {id};
    forall x | x in after && x !in more && RowMatches(t, q, after[x])
      ensures |NotAfter(t, q, order, after, more, after[x])| >= n
    {
      var before := NotAfter(t, q, order, rows, cached, rows[x]);
      assert before <= NotAfter(t, q, order, after, more, after[x]);
      SubsetSmaller(before, NotAfter(t, q, order, after, more, after[x]));
    }
  }

  /** A row that moves back can leave a gap that only an uncached row fills: the check is not for nothing. */
  lemma DemotionOpensGap(t: Table, q: UpdateQuery, rows: Rows, order: (Row, Row) -> bool, now: Row)
    requires !q.shape.constrained && order == ((x: Row, y: Row) => Before([OrderByKey("a", false, false)], x, y))
    requires rows == map[1 := map["a" := Some(1)], 2 := map["a" := Some(2)]] && now == map["a" := Some(3)]
    ensures Answers(t, q, order, rows, 1, {1}) && !Answers(t, q, order, rows[1 := now], 1, {1})
  {
    var after := rows[1 := now];
    assert NotAfter(t, q, order, rows, {1}, rows[2]) == {1};
    assert NotAfter(t, q, order, after, {1}, after[2]) == {};
  }
}
