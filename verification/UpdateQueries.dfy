/** The per-relation index of update queries (src/cache/update_query.rs). */
module UpdateQueryIndex {
  import opened Common

  type Fingerprint = nat
  type Column = string

  datatype SubqueryKind = Inclusion | Exclusion | Scalar
  datatype UpdateQuerySource = FromClause | Subquery(kind: SubqueryKind) | OuterJoinTerminal | OuterJoinOptional
  datatype OrderByKey = OrderByKey(column: Column, descending: bool, nullsFirst: bool)
  datatype ColumnChange = ColumnChange(changed: bool, oldLessThanNew: Option<bool>, oldIsNull: bool)

  /** How a query reads the relation: alone or joined, by which columns, with constraints of its own or without. */
  datatype Shape = Shape(singleTable: bool, windowColumns: set<Column>, joinColumns: set<Column>, constrained: bool)

  datatype UpdateQuery = UpdateQuery(
    fingerprint: Fingerprint,
    source: UpdateQuerySource,
    hasLimit: bool,
    predicateColumns: set<Column>,
    orderByKeys: Option<seq<OrderByKey>>,
    changeDependent: bool,
    shape: Shape)

  type Queries = map<Fingerprint, UpdateQuery>
  type Counts = map<Column, nat>

  predicate AlwaysChecked(q: UpdateQuery) {
    q.source.Subquery? || q.source.OuterJoinOptional?
  }

  predicate LimitFrom(q: UpdateQuery) {
    q.hasLimit && q.source.FromClause?
  }

  function OrderColumns(q: UpdateQuery): seq<Column> {
    if q.orderByKeys.None? then []
    else seq(|q.orderByKeys.value|, i requires 0 <= i < |q.orderByKeys.value| => q.orderByKeys.value[i].column)
  }

  // ----- recomputation from the plain map -----

  ghost function PredicateWeight(c: Column): (Fingerprint, UpdateQuery) -> nat {
    (fp: Fingerprint, q: UpdateQuery) => if LimitFrom(q) && c in q.predicateColumns then 1 else 0
  }

  ghost function OrderWeight(c: Column): (Fingerprint, UpdateQuery) -> nat {
    (fp: Fingerprint, q: UpdateQuery) => if LimitFrom(q) then multiset(OrderColumns(q))[c] else 0
  }

  ghost function DependentWeight(): (Fingerprint, UpdateQuery) -> nat {
    (fp: Fingerprint, q: UpdateQuery) => if q.changeDependent then 1 else 0
  }

  function Count(counts: Counts, c: Column): nat {
    if c in counts then counts[c] else 0
  }

  predicate NoZeros(counts: Counts) {
    forall c :: c in counts ==> counts[c] > 0
  }

  ghost predicate PredicateExact(counts: Counts, queries: Queries) {
    NoZeros(counts) && forall c :: Count(counts, c) == Sum(queries, PredicateWeight(c))
  }

  ghost predicate OrderExact(counts: Counts, queries: Queries) {
    NoZeros(counts) && forall c :: Count(counts, c) == Sum(queries, OrderWeight(c))
  }

  ghost predicate PredicateCovers(counts: Counts, queries: Queries) {
    NoZeros(counts) && forall c :: Count(counts, c) >= Sum(queries, PredicateWeight(c))
  }

  ghost predicate OrderCovers(counts: Counts, queries: Queries) {
    NoZeros(counts) && forall c :: Count(counts, c) >= Sum(queries, OrderWeight(c))
  }

  /** Increment or decrement one column's count, dropping a zero. */
  function Account(counts: Counts, c: Column, added: bool): Counts {
    if added then counts[c := Count(counts, c) + 1]
    else if c !in counts then counts
    else if counts[c] <= 1 then counts - {c}
    else counts[c := counts[c] - 1]
  }

  function AccountAll(counts: Counts, columns: seq<Column>, added: bool): Counts {
    if columns == [] then counts
    else Account(AccountAll(counts, columns[..|columns| - 1], added), columns[|columns| - 1], added)
  }

  lemma {:induction false} AddCounts(counts: Counts, columns: seq<Column>)
    requires NoZeros(counts)
    ensures NoZeros(AccountAll(counts, columns, true))
    ensures forall c :: Count(AccountAll(counts, columns, true), c) == Count(counts, c) + multiset(columns)[c]
  {
    if columns != [] {
      AddCounts(counts, columns[..|columns| - 1]);
      assert columns == columns[..|columns| - 1] + [columns[|columns| - 1]];
    }
  }

  /** The saturating subtraction never bites when the counts cover what is removed. */
  lemma {:induction false} RemoveCounts(counts: Counts, columns: seq<Column>)
    requires NoZeros(counts)
    requires forall c :: Count(counts, c) >= multiset(columns)[c]
    ensures NoZeros(AccountAll(counts, columns, false))
    ensures forall c :: Count(AccountAll(counts, columns, false), c) == Count(counts, c) - multiset(columns)[c]
  {
    if columns != [] {
      var init, last := columns[..|columns| - 1], columns[|columns| - 1];
      assert columns == init + [last];
      forall c ensures Count(counts, c) >= multiset(init)[c] {
        assert Count(counts, c) >= multiset(columns)[c];
      }
      RemoveCounts(counts, init);
      assert Count(counts, last) >= multiset(columns)[last] == multiset(init)[last] + 1;
    }
  }

  /** Accounting a list moves every count by the list's multiplicity, up or down. */
  lemma ShiftCounts(counts: Counts, columns: seq<Column>, added: bool)
    requires NoZeros(counts) && (!added ==> forall c :: Count(counts, c) >= multiset(columns)[c])
    ensures NoZeros(AccountAll(counts, columns, added))
    ensures forall c ::
      Count(AccountAll(counts, columns, added), c)
      == if added then Count(counts, c) + multiset(columns)[c] else Count(counts, c) - multiset(columns)[c]
  {
    if added { AddCounts(counts, columns); } else { RemoveCounts(counts, columns); }
  }

  /** A set listed without repeats counts each member once. */
  ghost predicate Lists(columns: seq<Column>, members: set<Column>) {
    (forall c :: c in members <==> c in columns) && forall c :: multiset(columns)[c] <= 1
  }

  lemma ListsCount(columns: seq<Column>, members: set<Column>, c: Column)
    requires Lists(columns, members)
    ensures multiset(columns)[c] == if c in members then 1 else 0
  {
    assert c in columns <==> multiset(columns)[c] > 0;
  }

  /** The plain map together with everything derived from it. */
  datatype Derived = Derived(
    queries: Queries,
    alwaysCheck: set<Fingerprint>,
    hasLimitFrom: set<Fingerprint>,
    predicateColumns: Counts,
    orderColumns: Counts,
    dependents: nat)

  /** What holds of the structures a limit bump does not disturb. */
  ghost predicate Sound(d: Derived) {
    && (forall fp :: fp in d.queries ==> d.queries[fp].fingerprint == fp)
    && (forall fp :: fp in d.alwaysCheck <==> fp in d.queries && AlwaysChecked(d.queries[fp]))
    && d.dependents == Sum(d.queries, DependentWeight())
  }

  /** Every derived structure equals its recomputation from `queries`. */
  ghost predicate IsExact(d: Derived) {
    && Sound(d)
    && (forall fp :: fp in d.hasLimitFrom <==> fp in d.queries && LimitFrom(d.queries[fp]))
    && PredicateExact(d.predicateColumns, d.queries)
    && OrderExact(d.orderColumns, d.queries)
  }

  /** The limit structures may keep too much but never too little; the rest is exact. */
  ghost predicate DoesCover(d: Derived) {
    && Sound(d)
    && (forall fp :: fp in d.queries && LimitFrom(d.queries[fp]) ==> fp in d.hasLimitFrom)
    && PredicateCovers(d.predicateColumns, d.queries)
    && OrderCovers(d.orderColumns, d.queries)
  }

  function Reindexed(queries: Queries, fp: Fingerprint, hasLimit: bool): Queries {
    if fp in queries then queries[fp := queries[fp].(hasLimit := hasLimit)] else queries
  }

  /** Rewriting one limit bit moves the sums by that query's change of weight. */
  lemma ReindexSums(queries: Queries, fp: Fingerprint, hasLimit: bool)
    requires fp in queries
    ensures var after: Queries := Reindexed(queries, fp, hasLimit);
            && (forall c :: Sum(after, PredicateWeight(c)) - Sum(queries, PredicateWeight(c)) ==
                            PredicateWeight(c)(fp, after[fp]) - PredicateWeight(c)(fp, queries[fp]))
            && (forall c :: Sum(after, OrderWeight(c)) - Sum(queries, OrderWeight(c)) ==
                            OrderWeight(c)(fp, after[fp]) - OrderWeight(c)(fp, queries[fp]))
            && Sum(after, DependentWeight()) == Sum(queries, DependentWeight())
  {
    var after: Queries := Reindexed(queries, fp, hasLimit);
    SumsWithout(queries, fp);
    SumsWithout(after, fp);
    assert after - {fp} == queries - {fp};
  }

  /** Clearing or keeping the bit keeps coverage. */
  lemma ReindexCovers(d: Derived, fp: Fingerprint, hasLimit: bool)
    requires DoesCover(d) && (!hasLimit || (fp in d.queries ==> d.queries[fp].hasLimit))
    ensures DoesCover(d.(queries := Reindexed(d.queries, fp, hasLimit)))
  {
    if fp in d.queries {
      ReindexSums(d.queries, fp, hasLimit);
      var after: Queries := Reindexed(d.queries, fp, hasLimit);
      forall c ensures Count(d.predicateColumns, c) >= Sum(after, PredicateWeight(c))
               && Count(d.orderColumns, c) >= Sum(after, OrderWeight(c))
      {
        assert Count(d.predicateColumns, c) >= Sum(d.queries, PredicateWeight(c));
        assert Count(d.orderColumns, c) >= Sum(d.queries, OrderWeight(c));
        assert PredicateWeight(c)(fp, after[fp]) <= PredicateWeight(c)(fp, d.queries[fp]);
        assert OrderWeight(c)(fp, after[fp]) <= OrderWeight(c)(fp, d.queries[fp]);
      }
    }
  }

  /** A write that does not move the query's limit membership keeps the index exact. */
  lemma ReindexSame(d: Derived, fp: Fingerprint, hasLimit: bool, after: Queries)
    requires IsExact(d) && fp in d.queries && after == Reindexed(d.queries, fp, hasLimit)
    requires LimitFrom(after[fp]) == LimitFrom(d.queries[fp])
    ensures IsExact(d.(queries := after)) && DoesCover(d.(queries := after))
  {
    ReindexSums(d.queries, fp, hasLimit);
    forall c ensures Count(d.predicateColumns, c) == Sum(after, PredicateWeight(c))
             && Count(d.orderColumns, c) == Sum(after, OrderWeight(c))
    {
      assert Count(d.predicateColumns, c) == Sum(d.queries, PredicateWeight(c));
      assert PredicateWeight(c)(fp, after[fp]) == PredicateWeight(c)(fp, d.queries[fp]);
      assert OrderWeight(c)(fp, after[fp]) == OrderWeight(c)(fp, d.queries[fp]);
    }
  }

  /** An exact index covers. */
  lemma ExactCovers(d: Derived)
    requires IsExact(d)
    ensures DoesCover(d)
  {
  }

  /** A write that does move it leaves the carve-out wrong, and too small exactly when the bit is set. */
  lemma ReindexMoved(d: Derived, fp: Fingerprint, hasLimit: bool, after: Queries)
    requires IsExact(d) && fp in d.queries && after == Reindexed(d.queries, fp, hasLimit)
    requires LimitFrom(after[fp]) != LimitFrom(d.queries[fp])
    ensures !IsExact(d.(queries := after)) && (DoesCover(d.(queries := after)) <==> !hasLimit)
  {
    assert fp in d.hasLimitFrom <==> LimitFrom(d.queries[fp]);
    assert fp in after;
    if !hasLimit {
      ExactCovers(d);
      ReindexCovers(d, fp, hasLimit);
    }
  }

  /** From an exact index, the in-place write keeps it exact if and only if the query's limit membership does
      not move, and keeps coverage if and only if it does not turn a from-clause query into a limited one. */
  lemma ReindexExact(d: Derived, fp: Fingerprint, hasLimit: bool)
    requires IsExact(d)
    ensures IsExact(d.(queries := Reindexed(d.queries, fp, hasLimit))) <==>
            fp !in d.queries || !d.queries[fp].source.FromClause? || d.queries[fp].hasLimit == hasLimit
    ensures DoesCover(d.(queries := Reindexed(d.queries, fp, hasLimit))) <==>
            fp !in d.queries || !d.queries[fp].source.FromClause? || d.queries[fp].hasLimit || !hasLimit
  {
    var after: Queries := Reindexed(d.queries, fp, hasLimit);
    if fp !in d.queries {
      ExactCovers(d);
    } else if LimitFrom(after[fp]) == LimitFrom(d.queries[fp]) {
      ReindexSame(d, fp, hasLimit, after);
    } else {
      ReindexMoved(d, fp, hasLimit, after);
    }
  }

  /** The population, and the columns the row-change SQL projects. */
  datatype Snapshot = Snapshot(queries: Queries, orderColumns: Counts)

  /** The population with the limit bit left out. */
  function Shapes(queries: Queries): Queries {
    map fp | fp in queries :: queries[fp].(hasLimit := false)
  }

  lemma ShapesReindexed(queries: Queries, fp: Fingerprint, hasLimit: bool)
    ensures Shapes(Reindexed(queries, fp, hasLimit)) == Shapes(queries)
  {
  }

  /** Removing one query from the sums. */
  lemma SumsWithout(queries: Queries, fp: Fingerprint)
    requires fp in queries
    ensures forall c ::
      Sum(queries, PredicateWeight(c)) == PredicateWeight(c)(fp, queries[fp]) + Sum(queries - {fp}, PredicateWeight(c))
    ensures forall c ::
      Sum(queries, OrderWeight(c)) == OrderWeight(c)(fp, queries[fp]) + Sum(queries - {fp}, OrderWeight(c))
    ensures Sum(queries, DependentWeight())
         == DependentWeight()(fp, queries[fp]) + Sum(queries - {fp}, DependentWeight())
  {
    forall c
      ensures Sum(queries, PredicateWeight(c))
           == PredicateWeight(c)(fp, queries[fp]) + Sum(queries - {fp}, PredicateWeight(c))
    {
      SumRemove(queries, PredicateWeight(c), fp);
    }
    forall c
      ensures Sum(queries, OrderWeight(c)) == OrderWeight(c)(fp, queries[fp]) + Sum(queries - {fp}, OrderWeight(c))
    {
      SumRemove(queries, OrderWeight(c), fp);
    }
    SumRemove(queries, DependentWeight(), fp);
  }

  /** `big` is `small` with one more query accounted for everywhere. */
  ghost predicate Extends(small: Derived, big: Derived, fp: Fingerprint) {
    && fp in big.queries && small.queries == big.queries - {fp} && big.queries[fp].fingerprint == fp
    && (var q := big.queries[fp];
        && (forall f :: f != fp ==> (f in small.alwaysCheck <==> f in big.alwaysCheck))
        && (forall f :: f != fp ==> (f in small.hasLimitFrom <==> f in big.hasLimitFrom))
        && big.dependents == small.dependents + DependentWeight()(fp, q)
        && NoZeros(small.predicateColumns) && NoZeros(small.orderColumns)
        && NoZeros(big.predicateColumns) && NoZeros(big.orderColumns)
        && (forall c :: Count(big.predicateColumns, c) == Count(small.predicateColumns, c) + PredicateWeight(c)(fp, q))
        && (forall c :: Count(big.orderColumns, c) == Count(small.orderColumns, c) + OrderWeight(c)(fp, q)))
  }

  /** The counts agree, or cover, on one side exactly when they do on the other. */
  lemma ExtendsCounts(small: Derived, big: Derived, fp: Fingerprint)
    requires Extends(small, big, fp)
    ensures PredicateCovers(big.predicateColumns, big.queries)
       <==> PredicateCovers(small.predicateColumns, small.queries)
    ensures OrderCovers(big.orderColumns, big.queries) <==> OrderCovers(small.orderColumns, small.queries)
    ensures PredicateExact(big.predicateColumns, big.queries) <==> PredicateExact(small.predicateColumns, small.queries)
    ensures OrderExact(big.orderColumns, big.queries) <==> OrderExact(small.orderColumns, small.queries)
  {
    SumsWithout(big.queries, fp);
    forall c
      ensures Count(big.predicateColumns, c) - Sum(big.queries, PredicateWeight(c))
           == Count(small.predicateColumns, c) - Sum(small.queries, PredicateWeight(c))
      ensures Count(big.orderColumns, c) - Sum(big.queries, OrderWeight(c))
           == Count(small.orderColumns, c) - Sum(small.queries, OrderWeight(c))
    {
    }
  }

  /** A stored query's share of every count is there to be taken back. */
  lemma SharesCovered(d: Derived, fp: Fingerprint)
    requires DoesCover(d) && fp in d.queries
    ensures forall c :: Count(d.predicateColumns, c) >= PredicateWeight(c)(fp, d.queries[fp])
    ensures forall c :: Count(d.orderColumns, c) >= OrderWeight(c)(fp, d.queries[fp])
    ensures d.dependents >= DependentWeight()(fp, d.queries[fp])
  {
    SumsWithout(d.queries, fp);
    forall c
      ensures Count(d.predicateColumns, c) >= PredicateWeight(c)(fp, d.queries[fp])
      ensures Count(d.orderColumns, c) >= OrderWeight(c)(fp, d.queries[fp])
    {
      assert Count(d.predicateColumns, c) >= Sum(d.queries, PredicateWeight(c));
      assert Count(d.orderColumns, c) >= Sum(d.queries, OrderWeight(c));
    }
  }

  /** Taking one query out of every structure. */
  lemma Shrinks(small: Derived, big: Derived, fp: Fingerprint)
    requires Extends(small, big, fp) && DoesCover(big)
    requires fp !in small.alwaysCheck
    requires LimitFrom(big.queries[fp]) || fp !in big.hasLimitFrom ==> fp !in small.hasLimitFrom
    ensures DoesCover(small) && (IsExact(big) ==> IsExact(small))
  {
    assert small.dependents == Sum(small.queries, DependentWeight()) by { SumsWithout(big.queries, fp); }
    ExtendsCounts(small, big, fp);
    assert forall f :: f in small.queries ==> f in big.queries && f != fp && small.queries[f] == big.queries[f];
  }

  /** Adding one query to every structure. */
  lemma Grows(small: Derived, big: Derived, fp: Fingerprint)
    requires Extends(small, big, fp) && DoesCover(small)
    requires fp in big.alwaysCheck <==> AlwaysChecked(big.queries[fp])
    requires LimitFrom(big.queries[fp]) ==> fp in big.hasLimitFrom
    requires !LimitFrom(big.queries[fp]) && fp !in small.hasLimitFrom ==> fp !in big.hasLimitFrom
    ensures DoesCover(big) && (IsExact(small) ==> IsExact(big))
  {
    assert big.dependents == Sum(big.queries, DependentWeight()) by { SumsWithout(big.queries, fp); }
    assert Sound(big) by {
      assert forall f :: f in big.queries && f != fp ==> f in small.queries && small.queries[f] == big.queries[f];
      assert forall f :: f in big.alwaysCheck <==> f in big.queries && AlwaysChecked(big.queries[f]);
    }
    ExtendsCounts(small, big, fp);
    assert forall f :: f in big.queries && f != fp ==> f in small.queries && small.queries[f] == big.queries[f];
  }

  /** Some limit query names this column in its predicate. */
  ghost predicate LimitPredicateColumn(queries: Queries, c: Column) {
    exists fp :: fp in queries && LimitFrom(queries[fp]) && c in queries[fp].predicateColumns
  }

  lemma PredicateColumnCounted(queries: Queries, c: Column)
    ensures Sum(queries, PredicateWeight(c)) > 0 <==> LimitPredicateColumn(queries, c)
  {
    SumZero(queries, PredicateWeight(c));
    if LimitPredicateColumn(queries, c) {
      var fp :| fp in queries && LimitFrom(queries[fp]) && c in queries[fp].predicateColumns;
      assert PredicateWeight(c)(fp, queries[fp]) == 1;
    }
  }

  /** Some limited from-clause query sorts by the column. */
  ghost predicate LimitOrderColumn(queries: Queries, c: Column) {
    exists fp, i :: fp in queries && LimitFrom(queries[fp]) && SortsBy(queries[fp], i, c)
  }

  predicate SortsBy(q: UpdateQuery, i: int, c: Column) {
    q.orderByKeys.Some? && 0 <= i < |q.orderByKeys.value| && q.orderByKeys.value[i].column == c
  }

  /** While exact, the columns whose direction is compared are the sort columns of the limited queries. */
  lemma OrderColumnExact(d: Derived, c: Column)
    requires IsExact(d)
    ensures c in d.orderColumns <==> LimitOrderColumn(d.queries, c)
  {
    SumZero(d.queries, OrderWeight(c));
    assert Count(d.orderColumns, c) == Sum(d.queries, OrderWeight(c));
    forall fp | fp in d.queries && LimitFrom(d.queries[fp])
      ensures OrderWeight(c)(fp, d.queries[fp]) > 0 <==> exists i :: SortsBy(d.queries[fp], i, c)
    {
      var q := d.queries[fp];
      assert OrderWeight(c)(fp, q) > 0 <==> c in OrderColumns(q);
      if i :| SortsBy(q, i, c) { assert OrderColumns(q)[i] == c; }
      if c in OrderColumns(q) {
        var i :| 0 <= i < |OrderColumns(q)| && OrderColumns(q)[i] == c;
        assert SortsBy(q, i, c);
      }
    }
  }

  method ListOf(members: set<Column>) returns (columns: seq<Column>)
    ensures Lists(columns, members)
  {
    columns := [];
    var left := members;
    while left != {}
      invariant left <= members && Lists(columns, members - left)
    {
      var c :| c in left;
      assert c !in columns;
      columns := columns + [c];
      left := left - {c};
    }
    assert members - left == members;
  }

  /** Adds or subtracts each listed column once per occurrence. */
  method ColumnRefcountsAccount(counts: Counts, columns: seq<Column>, added: bool) returns (r: Counts)
    ensures r == AccountAll(counts, columns, added)
  {
    r := counts;
    for i := 0 to |columns|
      invariant r == AccountAll(counts, columns[..i], added)
    {
      assert columns[..i + 1][..i] == columns[..i];
      var c := columns[i];
      if added {
        r := r[c := (if c in r then r[c] else 0) + 1];
      } else if c in r {
        var n := if r[c] >= 1 then r[c] - 1 else 0;
        r := if n == 0 then r - {c} else r[c := n];
      }
    }
    assert columns[..|columns|] == columns;
  }

  class UpdateQueries {
    var queries: Queries
    var alwaysCheck: set<Fingerprint>
    var hasLimitFrom: set<Fingerprint>
    var limitPredicateColumns: Counts
    var limitOrderColumns: Counts
    var epoch: nat
    var changeDependentCount: nat
    /** One snapshot per epoch, and whether a limit bit has been rewritten in place since the current one. */
    ghost var log: seq<Snapshot>
    ghost var reindexed: bool

    /** What is logged for the current epoch is the current population, up to the limit bits if one was rewritten, with
        the current projected columns: two readings of an equal epoch saw the same. */
    ghost predicate Tracked()
      reads this
    {
      && |log| == epoch + 1 && log[epoch].orderColumns == limitOrderColumns
      && Shapes(log[epoch].queries) == Shapes(queries)
      && (!reindexed ==> log[epoch].queries == queries)
    }

    ghost function View(): Derived
      reads this
    {
      Derived(queries, alwaysCheck, hasLimitFrom, limitPredicateColumns, limitOrderColumns, changeDependentCount)
    }

    ghost predicate Exact()
      reads this
    {
      IsExact(View())
    }

    ghost predicate Covers()
      reads this
    {
      DoesCover(View())
    }

    constructor ()
      ensures Exact() && Covers() && Tracked() && !reindexed && queries == map[] && epoch == 0
    {
      queries, alwaysCheck, hasLimitFrom := map[], {}, {};
      limitPredicateColumns, limitOrderColumns := map[], map[];
      epoch, changeDependentCount := 0, 0;
      log, reindexed := [Snapshot(map[], map[])], false;
    }

    /** Moves a query in or out of the carve-outs; every count moves by exactly the query's share. */
    method CarveoutAccount(fp: Fingerprint, q: UpdateQuery, added: bool)
      requires NoZeros(limitPredicateColumns) && NoZeros(limitOrderColumns)
      requires !added ==> forall c :: Count(limitPredicateColumns, c) >= PredicateWeight(c)(fp, q)
                                      && Count(limitOrderColumns, c) >= OrderWeight(c)(fp, q)
      modifies this`alwaysCheck, this`hasLimitFrom, this`limitPredicateColumns, this`limitOrderColumns
      ensures alwaysCheck
           == if !AlwaysChecked(q) then old(alwaysCheck)
              else if added then old(alwaysCheck) + {fp} else old(alwaysCheck) - {fp}
      ensures hasLimitFrom
           == if !LimitFrom(q) then old(hasLimitFrom)
              else if added then old(hasLimitFrom) + {fp} else old(hasLimitFrom) - {fp}
      ensures NoZeros(limitPredicateColumns) && NoZeros(limitOrderColumns)
      ensures forall c :: Count(limitPredicateColumns, c) ==
                          old(Count(limitPredicateColumns, c)) + (if added then 1 else -1) * PredicateWeight(c)(fp, q)
      ensures forall c :: Count(limitOrderColumns, c) ==
                          old(Count(limitOrderColumns, c)) + (if added then 1 else -1) * OrderWeight(c)(fp, q)
    {
      if AlwaysChecked(q) {
        alwaysCheck := if added then alwaysCheck + {fp} else alwaysCheck - {fp};
      }
      if LimitFrom(q) {
        hasLimitFrom := if added then hasLimitFrom + {fp} else hasLimitFrom - {fp};
        var columns := ListOf(q.predicateColumns);
        forall c ensures multiset(columns)[c] == PredicateWeight(c)(fp, q) {
          ListsCount(columns, q.predicateColumns, c);
        }
        assert forall c :: OrderWeight(c)(fp, q) == multiset(OrderColumns(q))[c];
        ShiftCounts(limitPredicateColumns, columns, added);
        ShiftCounts(limitOrderColumns, OrderColumns(q), added);
        limitPredicateColumns := ColumnRefcountsAccount(limitPredicateColumns, columns, added);
        limitOrderColumns := ColumnRefcountsAccount(limitOrderColumns, OrderColumns(q), added);
      }
    }

    method ChangeDependentAccount(dependent: bool, added: bool)
      requires dependent && !added ==> changeDependentCount > 0
      modifies this`changeDependentCount
      ensures changeDependentCount == old(changeDependentCount) + if !dependent then 0 else if added then 1 else -1
    {
      if !dependent {
        return;
      }
      changeDependentCount := if added then changeDependentCount + 1 else Max(changeDependentCount - 1, 0);
    }

    /** Takes one stored query out of every derived structure. */
    method Unaccount(fp: Fingerprint)
      requires Covers() && fp in queries
      modifies this`queries, this`alwaysCheck, this`hasLimitFrom, this`limitPredicateColumns
      modifies this`limitOrderColumns, this`changeDependentCount
      ensures Covers() && (old(Exact()) ==> Exact())
      ensures queries == old(queries) - {fp}
    {
      var q := queries[fp];
      ghost var before := View();
      SharesCovered(before, fp);
      queries := queries - {fp};
      ChangeDependentAccount(q.changeDependent, false);
      CarveoutAccount(fp, q, false);
      Shrinks(View(), before, fp);
    }

    /** Adds one query that is not stored yet to every derived structure. */
    method AccountNew(fp: Fingerprint, q: UpdateQuery)
      requires Covers() && fp !in queries && q.fingerprint == fp
      modifies this`queries, this`alwaysCheck, this`hasLimitFrom, this`limitPredicateColumns
      modifies this`limitOrderColumns, this`changeDependentCount
      ensures Covers() && (old(Exact()) ==> Exact())
      ensures queries == old(queries)[fp := q]
    {
      ghost var before := View();
      ChangeDependentAccount(q.changeDependent, true);
      CarveoutAccount(fp, q, true);
      queries := queries[fp := q];
      assert queries - {fp} == old(queries);
      Grows(before, View(), fp);
    }

    /** Accounts a query in, its predecessor of the same fingerprint out. */
    method Replace(query: UpdateQuery) returns (prev: Option<UpdateQuery>)
      requires Covers()
      modifies this`queries, this`alwaysCheck, this`hasLimitFrom, this`limitPredicateColumns
      modifies this`limitOrderColumns, this`changeDependentCount
      ensures Covers() && (old(Exact()) ==> Exact())
      ensures queries == old(queries)[query.fingerprint := query]
      ensures prev == if query.fingerprint in old(queries) then Some(old(queries)[query.fingerprint]) else None
    {
      var fp := query.fingerprint;
      prev := if fp in queries then Some(queries[fp]) else None;
      if prev.Some? {
        Unaccount(fp);
      }
      AccountNew(fp, query);
    }

    method QueryInsert(query: UpdateQuery) returns (prev: Option<UpdateQuery>)
      requires Covers() && Tracked()
      modifies this
      ensures Covers() && (old(Exact()) ==> Exact())
      ensures Tracked() && old(log) <= log && !reindexed
      ensures queries == old(queries)[query.fingerprint := query] && epoch == old(epoch) + 1
      ensures prev == if query.fingerprint in old(queries) then Some(old(queries)[query.fingerprint]) else None
    {
      epoch := epoch + 1;
      prev := Replace(query);
      log, reindexed := log + [Snapshot(queries, limitOrderColumns)], false;
    }

    method QueryRemove(fp: Fingerprint) returns (removed: Option<UpdateQuery>)
      requires Covers() && Tracked()
      modifies this
      ensures Covers() && (old(Exact()) ==> Exact())
      ensures Tracked() && old(log) <= log && reindexed == (removed.None? && old(reindexed))
      ensures queries == old(queries) - {fp}
      ensures removed == if fp in old(queries) then Some(old(queries)[fp]) else None
      ensures epoch == old(epoch) + if removed.Some? then 1 else 0
    {
      removed := if fp in queries then Some(queries[fp]) else None;
      if removed.Some? {
        epoch := epoch + 1;
        Unaccount(fp);
        log, reindexed := log + [Snapshot(queries, limitOrderColumns)], false;
      } else {
        assert queries - {fp} == queries;
      }
    }

    /** The narrowing decision never misses a limit query's predicate column, and is a full scan's answer
        while the structures are exact. */
    method LimitPredicateChanged(rowChanges: map<Column, ColumnChange>) returns (changed: bool)
      requires Covers()
      ensures (exists c :: c in rowChanges && rowChanges[c].changed && LimitPredicateColumn(queries, c)) ==> changed
      ensures Exact() ==>
                (changed <==> exists c :: c in rowChanges && rowChanges[c].changed && LimitPredicateColumn(queries, c))
    {
      forall c
        ensures LimitPredicateColumn(queries, c) ==> c in limitPredicateColumns
        ensures Exact() ==> (c in limitPredicateColumns <==> LimitPredicateColumn(queries, c))
      {
        PredicateColumnCounted(queries, c);
        assert Count(limitPredicateColumns, c) >= Sum(queries, PredicateWeight(c));
        assert Exact() ==> Count(limitPredicateColumns, c) == Sum(queries, PredicateWeight(c));
      }
      var left := rowChanges.Keys;
      while left != {}
        invariant left <= rowChanges.Keys
        invariant forall c :: c in rowChanges && c !in left ==> !(rowChanges[c].changed && c in limitPredicateColumns)
      {
        var c :| c in left;
        if rowChanges[c].changed && c in limitPredicateColumns {
          return true;
        }
        left := left - {c};
      }
      return false;
    }

    method NeedsChangeEval() returns (needed: bool)
      requires Covers()
      ensures needed <==> exists fp :: fp in queries && queries[fp].changeDependent
    {
      SumZero(queries, DependentWeight());
      assert forall fp :: fp in queries ==> (DependentWeight()(fp, queries[fp]) == 0 <==> !queries[fp].changeDependent);
      return changeDependentCount > 0;
    }

    /** A limit bump rewrites the stored limit bit in place and touches nothing else. */
    method LimitReindex(fp: Fingerprint, hasLimit: bool)
      requires Covers() && Tracked()
      modifies this`queries, this`reindexed
      ensures View() == old(View()).(queries := Reindexed(old(queries), fp, hasLimit)) && Tracked()
      ensures reindexed == (old(reindexed) || queries != old(queries))
      ensures !hasLimit || (fp in old(queries) ==> old(queries)[fp].hasLimit) ==> Covers()
    {
      ghost var before := View();
      ShapesReindexed(queries, fp, hasLimit);
      if fp in queries {
        queries := queries[fp := queries[fp].(hasLimit := hasLimit)];
      }
      reindexed := reindexed || queries != before.queries;
      assert View() == before.(queries := Reindexed(before.queries, fp, hasLimit));
      if !hasLimit || (fp in before.queries ==> before.queries[fp].hasLimit) {
        ReindexCovers(before, fp, hasLimit);
      }
    }
  }
}
