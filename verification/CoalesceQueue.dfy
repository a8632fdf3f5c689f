/** The coalescing wait queue (src/cache/coalesce_queue.rs). */
module WaitingQueue {
  import opened Common

  type Fingerprint = nat
  datatype QueryState = Pending | Loading | Ready | Invalidated

  /** A parked request: its identity and the time from which it is forwarded to origin. */
  datatype Request = Request(id: nat, deadlineAt: Option<real>)

  /** What two waiters must share to be answered with the same bytes. */
  datatype CoalesceKey = CoalesceKey(
    extended: bool, emitRfq: bool, transactionStatus: char, hasParse: bool, hasBind: bool,
    describe: nat, resultFormats: seq<int>, limit: Option<(Option<nat>, Option<nat>)>)

  type Groups = map<CoalesceKey, seq<Request>>
  type Waiting = map<Fingerprint, Groups>

  ghost function SeqCount(r: Request): (CoalesceKey, seq<Request>) -> nat {
    (k: CoalesceKey, s: seq<Request>) => multiset(s)[r]
  }

  /** How many times `r` is parked under one fingerprint. */
  ghost function GroupCount(g: Groups, r: Request): nat { Sum(g, SeqCount(r)) }

  ghost function GroupWeight(r: Request): (Fingerprint, Groups) -> nat {
    (fp: Fingerprint, g: Groups) => GroupCount(g, r)
  }

  /** How many times `r` is parked. */
  ghost function Count(w: Waiting, r: Request): nat { Sum(w, GroupWeight(r)) }

  ghost function SeqLength(): (CoalesceKey, seq<Request>) -> nat { (k: CoalesceKey, s: seq<Request>) => |s| }

  ghost function GroupSize(g: Groups): nat { Sum(g, SeqLength()) }

  ghost function GroupLength(): (Fingerprint, Groups) -> nat { (fp: Fingerprint, g: Groups) => GroupSize(g) }

  /** How many requests are parked. */
  ghost function Total(w: Waiting): nat { Sum(w, GroupLength()) }

  /** No empty group and no empty bucket is kept. */
  predicate Packed(w: Waiting) {
    forall fp :: fp in w ==> w[fp] != map[] && forall k :: k in w[fp] ==> w[fp][k] != []
  }

  predicate Due(r: Request, now: real) {
    r.deadlineAt.Some? && r.deadlineAt.value <= now
  }

  /** The due requests, in order. */
  function DueOf(s: seq<Request>, now: real): seq<Request> {
    if s == [] then []
    else DueOf(s[..|s| - 1], now) + if Due(s[|s| - 1], now) then [s[|s| - 1]] else []
  }

  /** The requests that are not due, in order. */
  function RestOf(s: seq<Request>, now: real): seq<Request> {
    if s == [] then []
    else RestOf(s[..|s| - 1], now) + if Due(s[|s| - 1], now) then [] else [s[|s| - 1]]
  }

  function KeptGroups(g: Groups, now: real): Groups {
    map k | k in g && RestOf(g[k], now) != [] :: RestOf(g[k], now)
  }

  /** What a sweep at `now` leaves behind. */
  function Kept(w: Waiting, now: real): Waiting {
    map fp | fp in w && KeptGroups(w[fp], now) != map[] :: KeptGroups(w[fp], now)
  }

  function GroupsOf(w: Waiting, fp: Fingerprint): Groups { if fp in w then w[fp] else map[] }

  function WaitersOf(g: Groups, key: CoalesceKey): seq<Request> { if key in g then g[key] else [] }

  function PushedGroups(g: Groups, key: CoalesceKey, r: Request): Groups { g[key := WaitersOf(g, key) + [r]] }

  function Pushed(w: Waiting, fp: Fingerprint, key: CoalesceKey, r: Request): Waiting {
    w[fp := PushedGroups(GroupsOf(w, fp), key, r)]
  }

  /** The waiters that will be answered with the same bytes, oldest first. */
  function At(w: Waiting, fp: Fingerprint, key: CoalesceKey): seq<Request> {
    if fp in w && key in w[fp] then w[fp][key] else []
  }

  /** A push adds one request at the end of its own group and touches no other. */
  lemma PushedAt(w: Waiting, fp: Fingerprint, key: CoalesceKey, r: Request, f: Fingerprint, k: CoalesceKey)
    ensures At(Pushed(w, fp, key, r), f, k) == At(w, f, k) + if f == fp && k == key then [r] else []
  {
  }

  lemma PushedGroup(w: Waiting, v: Waiting, fp: Fingerprint, key: CoalesceKey, r: Request)
    requires v == Pushed(w, fp, key, r)
    ensures fp in v && key in v[fp] && v[fp][key] == At(w, fp, key) + [r]
    ensures forall f, k :: f != fp || k != key ==> At(v, f, k) == At(w, f, k)
  {
  }

  /** A sweep takes the due requests out of each group. */
  lemma KeptAt(w: Waiting, now: real, fp: Fingerprint, key: CoalesceKey)
    ensures At(Kept(w, now), fp, key) == RestOf(At(w, fp, key), now)
  {
    if fp in w && key in w[fp] && RestOf(w[fp][key], now) != [] {
      assert key in KeptGroups(w[fp], now);
    }
  }

  lemma PushedGroupCounts(g: Groups, key: CoalesceKey, r: Request, q: Request)
    ensures GroupCount(PushedGroups(g, key, r), q) == GroupCount(g, q) + if q == r then 1 else 0
    ensures GroupSize(PushedGroups(g, key, r)) == GroupSize(g) + 1
  {
    var s := WaitersOf(g, key);
    SumUpdate(g, SeqCount(q), key, s + [r]);
    SumSplit(g, SeqCount(q), key);
    SumUpdate(g, SeqLength(), key, s + [r]);
    SumSplit(g, SeqLength(), key);
  }

  lemma PushedCounts(w: Waiting, fp: Fingerprint, key: CoalesceKey, r: Request, q: Request)
    ensures Count(Pushed(w, fp, key, r), q) == Count(w, q) + if q == r then 1 else 0
    ensures Total(Pushed(w, fp, key, r)) == Total(w) + 1
  {
    var g := GroupsOf(w, fp);
    var h := PushedGroups(g, key, r);
    PushedGroupCounts(g, key, r, q);
    assert fp !in w ==> GroupCount(g, q) == 0 && GroupSize(g) == 0;
    SumUpdate(w, GroupWeight(q), fp, h);
    SumSplit(w, GroupWeight(q), fp);
    SumUpdate(w, GroupLength(), fp, h);
    SumSplit(w, GroupLength(), fp);
  }

  lemma AppendCount(s: seq<Request>, x: Request, r: Request)
    ensures multiset(s + [x])[r] == multiset(s)[r] + if x == r then 1 else 0
  {
  }

  lemma {:induction false} DueCounts(s: seq<Request>, now: real, r: Request)
    ensures multiset(DueOf(s, now))[r] == if Due(r, now) then multiset(s)[r] else 0
  {
    if s != [] {
      var t, x := s[..|s| - 1], s[|s| - 1];
      DueCounts(t, now, r);
      AppendCount(t, x, r);
      assert s == t + [x];
      if Due(x, now) { AppendCount(DueOf(t, now), x, r); }
    }
  }

  lemma {:induction false} RestCounts(s: seq<Request>, now: real, r: Request)
    ensures multiset(RestOf(s, now))[r] == if Due(r, now) then 0 else multiset(s)[r]
  {
    if s != [] {
      var t, x := s[..|s| - 1], s[|s| - 1];
      RestCounts(t, now, r);
      AppendCount(t, x, r);
      assert s == t + [x];
      if !Due(x, now) { AppendCount(RestOf(t, now), x, r); }
    }
  }

  lemma {:induction false} SweptLengths(s: seq<Request>, now: real)
    ensures |DueOf(s, now)| + |RestOf(s, now)| == |s|
  {
    if s != [] { SweptLengths(s[..|s| - 1], now); }
  }

  /** A sweep takes waiters out and never moves one past another. */
  lemma {:induction false} SweepKeepsOrder(a: seq<Request>, b: seq<Request>, now: real)
    ensures DueOf(a + b, now) == DueOf(a, now) + DueOf(b, now)
    ensures RestOf(a + b, now) == RestOf(a, now) + RestOf(b, now)
    decreases |b|
  {
    if b == [] {
      assert a + b == a;
    } else {
      var init, last := b[..|b| - 1], b[|b| - 1];
      SweepKeepsOrder(a, init, now);
      assert (a + b)[..|a + b| - 1] == a + init && (a + b)[|a + b| - 1] == last;
    }
  }

  lemma KeptGroupsWithout(g: Groups, now: real, k: CoalesceKey)
    requires k in g
    ensures KeptGroups(g - {k}, now) == KeptGroups(g, now) - {k}
    ensures k in KeptGroups(g, now) <==> RestOf(g[k], now) != []
    ensures k in KeptGroups(g, now) ==> KeptGroups(g, now)[k] == RestOf(g[k], now)
  {
  }

  lemma KeptWithout(w: Waiting, now: real, fp: Fingerprint)
    requires fp in w
    ensures Kept(w - {fp}, now) == Kept(w, now) - {fp}
    ensures fp in Kept(w, now) <==> KeptGroups(w[fp], now) != map[]
    ensures fp in Kept(w, now) ==> Kept(w, now)[fp] == KeptGroups(w[fp], now)
  {
    var some, all := Kept(w - {fp}, now), Kept(w, now) - {fp};
    assert some.Keys == all.Keys by {
      forall f ensures f in some <==> f in all { assert f in w - {fp} <==> f in w && f != fp; }
    }
  }

  lemma {:induction false} KeptGroupCounts(g: Groups, now: real, r: Request)
    ensures GroupCount(KeptGroups(g, now), r) == if Due(r, now) then 0 else GroupCount(g, r)
    decreases |g|
  {
    if g == map[] {
      assert KeptGroups(g, now) == map[];
    } else {
      var k :| k in g;
      KeptGroupCounts(g - {k}, now, r);
      RestCounts(g[k], now, r);
      SumRemove(g, SeqCount(r), k);
      KeptGroupsWithout(g, now, k);
      SumSplit(KeptGroups(g, now), SeqCount(r), k);
    }
  }

  /** A sweep keeps every request that is not due as often as it was parked, and none that is. */
  lemma {:induction false} KeptCounts(w: Waiting, now: real, r: Request)
    ensures Count(Kept(w, now), r) == if Due(r, now) then 0 else Count(w, r)
    decreases |w|
  {
    if w == map[] {
      assert Kept(w, now) == map[];
    } else {
      var fp :| fp in w;
      KeptCounts(w - {fp}, now, r);
      KeptGroupCounts(w[fp], now, r);
      SumRemove(w, GroupWeight(r), fp);
      KeptWithout(w, now, fp);
      SumSplit(Kept(w, now), GroupWeight(r), fp);
    }
  }

  /** The requests of a group map, one after another. */
  ghost function Flat(g: Groups): seq<Request>
    decreases |g|
  {
    if g == map[] then []
    else
      var k :| k in g;
      g[k] + Flat(g - {k})
  }

  lemma {:induction false} FlatCounts(g: Groups, r: Request)
    ensures multiset(Flat(g))[r] == GroupCount(g, r)
    ensures |Flat(g)| == GroupSize(g)
    decreases |g|
  {
    if g != map[] {
      var k :| k in g && Flat(g) == g[k] + Flat(g - {k});
      FlatCounts(g - {k}, r);
      SumRemove(g, SeqCount(r), k);
      SumRemove(g, SeqLength(), k);
    }
  }

  lemma PushedPacked(w: Waiting, fp: Fingerprint, key: CoalesceKey, r: Request)
    requires Packed(w)
    ensures Packed(Pushed(w, fp, key, r))
  {
    var h := PushedGroups(GroupsOf(w, fp), key, r);
    assert key in h;
    assert forall k :: k in h ==> h[k] != [];
  }

  lemma KeptPacked(w: Waiting, now: real)
    ensures Packed(Kept(w, now))
  {
  }

  /** Each accepted request is parked, drained or expired, and only one of them. */
  ghost predicate Balanced(
    enqueued: multiset<Request>, w: Waiting, drained: multiset<Request>, expired: multiset<Request>)
  {
    && (forall r :: enqueued[r] == Count(w, r) + drained[r] + expired[r])
    && |enqueued| == Total(w) + |drained| + |expired|
  }

  lemma PushBalanced(
    enqueued: multiset<Request>, w: Waiting, drained: multiset<Request>, expired: multiset<Request>,
    fp: Fingerprint, key: CoalesceKey, msg: Request)
    requires Balanced(enqueued, w, drained, expired)
    ensures Balanced(enqueued + multiset{msg}, Pushed(w, fp, key, msg), drained, expired)
  {
    var v := Pushed(w, fp, key, msg);
    forall r ensures (enqueued + multiset{msg})[r] == Count(v, r) + drained[r] + expired[r] {
      PushedCounts(w, fp, key, msg, r);
    }
    PushedCounts(w, fp, key, msg, msg);
  }

  lemma DrainBalanced(
    enqueued: multiset<Request>, w: Waiting, drained: multiset<Request>, expired: multiset<Request>, fp: Fingerprint)
    requires Balanced(enqueued, w, drained, expired) && fp in w
    ensures Balanced(enqueued, w - {fp}, drained + multiset(Flat(w[fp])), expired)
  {
    var flat := Flat(w[fp]);
    forall r ensures enqueued[r] == Count(w - {fp}, r) + (drained + multiset(flat))[r] + expired[r] {
      SumRemove(w, GroupWeight(r), fp);
      FlatCounts(w[fp], r);
    }
    SumRemove(w, GroupLength(), fp);
    FlatCounts(w[fp], Request(0, None));
  }

  lemma SweepBalanced(
    enqueued: multiset<Request>, w: Waiting, drained: multiset<Request>, expired: multiset<Request>,
    now: real, due: seq<Request>)
    requires Balanced(enqueued, w, drained, expired)
    requires IsDue(due, w, now) && |due| + Total(Kept(w, now)) == Total(w)
    ensures Balanced(enqueued, Kept(w, now), drained, expired + multiset(due))
  {
    forall r ensures enqueued[r] == Count(Kept(w, now), r) + drained[r] + (expired + multiset(due))[r] {
      KeptCounts(w, now, r);
      assert multiset(due)[r] == if Due(r, now) then Count(w, r) else 0;
    }
  }

  /** `due` lists exactly the overdue requests of one fingerprint, as often as they are parked. */
  ghost predicate IsGroupDue(due: seq<Request>, g: Groups, now: real) {
    forall r :: multiset(due)[r] == if Due(r, now) then GroupCount(g, r) else 0
  }

  /** `due` lists exactly the overdue requests, as often as they are parked. */
  ghost predicate IsDue(due: seq<Request>, w: Waiting, now: real) {
    forall r :: multiset(due)[r] == if Due(r, now) then Count(w, r) else 0
  }

  lemma GroupDueStep(g: Groups, k: CoalesceKey, due: seq<Request>, now: real)
    requires k in g && IsGroupDue(due, g - {k}, now)
    ensures IsGroupDue(due + DueOf(g[k], now), g, now)
    ensures GroupSize(KeptGroups(g, now)) == GroupSize(KeptGroups(g - {k}, now)) + |RestOf(g[k], now)|
    ensures GroupSize(g) == GroupSize(g - {k}) + |DueOf(g[k], now)| + |RestOf(g[k], now)|
  {
    var gone := DueOf(g[k], now);
    forall r ensures multiset(due + gone)[r] == if Due(r, now) then GroupCount(g, r) else 0 {
      DueCounts(g[k], now, r);
      SumRemove(g, SeqCount(r), k);
      assert multiset(due)[r] == if Due(r, now) then GroupCount(g - {k}, r) else 0;
    }
    SweptLengths(g[k], now);
    KeptGroupsWithout(g, now, k);
    SumRemove(g, SeqLength(), k);
    SumSplit(KeptGroups(g, now), SeqLength(), k);
  }

  lemma DueStep(w: Waiting, fp: Fingerprint, due: seq<Request>, gone: seq<Request>, now: real)
    requires fp in w && IsDue(due, w - {fp}, now) && IsGroupDue(gone, w[fp], now)
    ensures IsDue(due + gone, w, now)
    ensures Total(Kept(w, now)) == Total(Kept(w - {fp}, now)) + GroupSize(KeptGroups(w[fp], now))
    ensures Total(w) == Total(w - {fp}) + GroupSize(w[fp])
  {
    forall r ensures multiset(due + gone)[r] == if Due(r, now) then Count(w, r) else 0 {
      SumRemove(w, GroupWeight(r), fp);
      assert multiset(due)[r] == if Due(r, now) then Count(w - {fp}, r) else 0;
      assert multiset(gone)[r] == if Due(r, now) then GroupCount(w[fp], r) else 0;
    }
    KeptWithout(w, now, fp);
    SumRemove(w, GroupLength(), fp);
    SumSplit(Kept(w, now), GroupLength(), fp);
  }

  /** One more key seen by a retain loop. */
  lemma SeenOneMore<K, V>(m: map<K, V>, left: set<K>, k: K)
    requires k in left && left <= m.Keys
    ensures var seen := m - (left - {k}); k in seen && seen[k] == m[k] && seen - {k} == m - left
  {
  }

  lemma KeptGroupsExtend(g: Groups, now: real, k: CoalesceKey)
    requires k in g
    ensures var kept, rest := KeptGroups(g - {k}, now), RestOf(g[k], now);
      KeptGroups(g, now) == if rest != [] then kept[k := rest] else kept
  {
    KeptGroupsWithout(g, now, k);
  }

  lemma KeptExtend(w: Waiting, now: real, fp: Fingerprint)
    requires fp in w
    ensures var kept, rest := Kept(w - {fp}, now), KeptGroups(w[fp], now);
      Kept(w, now) == if rest != map[] then kept[fp := rest] else kept
  {
    KeptWithout(w, now, fp);
  }

  class CoalesceQueue {
    var waiting: Waiting
    /** Every request ever accepted, and where those that left went. */
    ghost var enqueued: multiset<Request>
    ghost var drained: multiset<Request>
    ghost var expired: multiset<Request>

    ghost predicate Valid()
      reads this
    {
      Packed(waiting) && Balanced(enqueued, waiting, drained, expired)
    }

    constructor ()
      ensures Valid() && waiting == map[] && enqueued == multiset{}
    {
      waiting := map[];
      enqueued, drained, expired := multiset{}, multiset{}, multiset{};
    }

    /** Parks the request iff its query is still loading; otherwise the caller keeps it. */
    method EnqueueIfLoading(view: map<Fingerprint, QueryState>, fp: Fingerprint, key: CoalesceKey, msg: Request)
      returns (parked: bool)
      requires Valid()
      modifies this
      ensures Valid() && (parked <==> fp in view && view[fp] == Loading)
      ensures waiting == if parked then Pushed(old(waiting), fp, key, msg) else old(waiting)
      ensures parked ==> fp in waiting && key in waiting[fp] && waiting[fp][key] == At(old(waiting), fp, key) + [msg]
      ensures forall f, k :: f != fp || k != key ==> At(waiting, f, k) == At(old(waiting), f, k)
      ensures enqueued == if parked then old(enqueued) + multiset{msg} else old(enqueued)
      ensures drained == old(drained) && expired == old(expired)
    {
      parked := fp in view && view[fp] == Loading;
      if parked {
        PushBalanced(enqueued, waiting, drained, expired, fp, key, msg);
        PushedPacked(waiting, fp, key, msg);
        var groups := if fp in waiting then waiting[fp] else map[];
        var waiters := if key in groups then groups[key] else [];
        waiting := waiting[fp := groups[key := waiters + [msg]]];
        assert waiting == Pushed(old(waiting), fp, key, msg);
        PushedGroup(old(waiting), waiting, fp, key, msg);
        enqueued := enqueued + multiset{msg};
      }
    }

    /** Takes every waiter of one fingerprint. */
    method Drain(fp: Fingerprint) returns (groups: Option<Groups>)
      requires Valid()
      modifies this
      ensures Valid() && waiting == old(waiting) - {fp}
      ensures groups == if fp in old(waiting) then Some(old(waiting)[fp]) else None
      ensures drained == old(drained) + multiset(Flat(GroupsOf(old(waiting), fp)))
      ensures enqueued == old(enqueued) && expired == old(expired)
    {
      if fp in waiting {
        DrainBalanced(enqueued, waiting, drained, expired, fp);
        groups := Some(waiting[fp]);
        drained := drained + multiset(Flat(waiting[fp]));
        waiting := waiting - {fp};
      } else {
        groups := None;
        assert waiting - {fp} == waiting;
      }
    }

    static method ExtractDue(waiters: seq<Request>, now: real) returns (due: seq<Request>, rest: seq<Request>)
      ensures due == DueOf(waiters, now) && rest == RestOf(waiters, now)
    {
      due, rest := [], [];
      for i := 0 to |waiters|
        invariant due == DueOf(waiters[..i], now) && rest == RestOf(waiters[..i], now)
      {
        assert waiters[..i + 1][..i] == waiters[..i];
        if Due(waiters[i], now) {
          due := due + [waiters[i]];
        } else {
          rest := rest + [waiters[i]];
        }
      }
      assert waiters[..|waiters|] == waiters;
    }

    static method RetainGroups(groups: Groups, now: real) returns (due: seq<Request>, kept: Groups)
      ensures kept == KeptGroups(groups, now) && IsGroupDue(due, groups, now)
      ensures |due| + GroupSize(kept) == GroupSize(groups)
    {
      due, kept := [], map[];
      var left := groups.Keys;
      assert groups - left == map[];
      while left != {}
        invariant left <= groups.Keys
        invariant kept == KeptGroups(groups - left, now) && IsGroupDue(due, groups - left, now)
        invariant |due| + GroupSize(kept) == GroupSize(groups - left)
        decreases |left|
      {
        var k :| k in left;
        var gone, rest := ExtractDue(groups[k], now);
        ghost var seen := groups - (left - {k});
        SeenOneMore(groups, left, k);
        GroupDueStep(seen, k, due, now);
        KeptGroupsExtend(seen, now, k);
        due := due + gone;
        if rest != [] {
          kept := kept[k := rest];
        }
        left := left - {k};
      }
      assert groups - left == groups;
    }

    static method RetainAll(all: Waiting, now: real) returns (due: seq<Request>, kept: Waiting)
      ensures kept == Kept(all, now) && IsDue(due, all, now)
      ensures |due| + Total(kept) == Total(all)
    {
      due, kept := [], map[];
      var left := all.Keys;
      assert all - left == map[];
      while left != {}
        invariant left <= all.Keys
        invariant kept == Kept(all - left, now) && IsDue(due, all - left, now)
        invariant |due| + Total(kept) == Total(all - left)
        decreases |left|
      {
        var fp :| fp in left;
        var gone, groups := RetainGroups(all[fp], now);
        ghost var seen := all - (left - {fp});
        SeenOneMore(all, left, fp);
        DueStep(seen, fp, due, gone, now);
        KeptExtend(seen, now, fp);
        due := due + gone;
        if groups != map[] {
          kept := kept[fp := groups];
        }
        left := left - {fp};
      }
      assert all - left == all;
    }

    /** Forwards exactly the overdue waiters, keeps the others in order, and leaves no empty group. */
    method DrainExpired(now: real) returns (due: seq<Request>)
      requires Valid()
      modifies this
      ensures Valid() && waiting == Kept(old(waiting), now)
      ensures forall fp, key :: At(waiting, fp, key) == RestOf(At(old(waiting), fp, key), now)
      ensures IsDue(due, old(waiting), now)
      ensures expired == old(expired) + multiset(due) && enqueued == old(enqueued) && drained == old(drained)
    {
      var kept;
      due, kept := RetainAll(waiting, now);
      KeptPacked(waiting, now);
      forall fp, key ensures At(Kept(waiting, now), fp, key) == RestOf(At(waiting, fp, key), now) {
        KeptAt(waiting, now, fp, key);
      }
      SweepBalanced(enqueued, waiting, drained, expired, now, due);
      waiting := kept;
      expired := expired + multiset(due);
    }

    static method GroupTotal(all: Groups) returns (count: nat)
      ensures count == GroupSize(all)
    {
      count := 0;
      var groups := all;
      while groups != map[]
        invariant count + GroupSize(groups) == GroupSize(all)
        decreases |groups|
      {
        var k :| k in groups;
        SumRemove(groups, SeqLength(), k);
        count := count + |groups[k]|;
        groups := groups - {k};
      }
    }

    method WaiterCount() returns (count: nat)
      requires Valid()
      ensures count == Total(waiting) == |enqueued| - |drained| - |expired|
    {
      count := 0;
      var left := waiting;
      while left != map[]
        invariant count + Total(left) == Total(waiting)
        decreases |left|
      {
        var fp :| fp in left;
        SumRemove(left, GroupLength(), fp);
        var inGroup := GroupTotal(left[fp]);
        count := count + inGroup;
        left := left - {fp};
      }
    }
  }
}

/** How long a loading query's waiters wait before they are forwarded to origin. */
module ForwardDeadline {
  import opened Common

  const COLD_DEADLINE_MS: real := 200.0
  const REPOP_FACTOR: real := 0.8
  const REPOP_FLOOR_MS: real := 100.0
  const REPOP_CEILING_MS: real := 10000.0
  const EWMA_ALPHA: real := 0.3

  function EwmaUpdate(prev: Option<real>, sample: real): real {
    match prev
    case None => sample
    case Some(p) => EWMA_ALPHA * sample + (1.0 - EWMA_ALPHA) * p
  }

  function Deadline(estimate: Option<real>): real {
    match estimate
    case None => COLD_DEADLINE_MS
    case Some(p) =>
      var ms := p * REPOP_FACTOR + REPOP_FLOOR_MS;
      if ms < REPOP_FLOOR_MS then REPOP_FLOOR_MS else if ms > REPOP_CEILING_MS then REPOP_CEILING_MS else ms
  }

  /** The estimate after a history of population times. */
  function Estimate(samples: seq<real>): Option<real> {
    if samples == [] then None
    else Some(EwmaUpdate(Estimate(samples[..|samples| - 1]), samples[|samples| - 1]))
  }

  /** Populations between `lo` and `hi` keep the waiting bound between the bounds for `lo` and `hi`. */
  lemma {:induction false} DeadlineTracksHistory(samples: seq<real>, lo: real, hi: real)
    requires samples != [] && forall i :: 0 <= i < |samples| ==> lo <= samples[i] <= hi
    ensures lo <= Estimate(samples).value <= hi
    ensures Deadline(Some(lo)) <= Deadline(Estimate(samples)) <= Deadline(Some(hi))
  {
    if |samples| > 1 {
      DeadlineTracksHistory(samples[..|samples| - 1], lo, hi);
    }
  }

  function Repeated(x: real, n: nat): seq<real> { seq(n, _ => x) }

  /** Populations that keep taking `x` pull the estimate towards `x`, three tenths of the way each time. */
  lemma {:induction false} EstimateConverges(samples: seq<real>, x: real, n: nat)
    requires samples != []
    ensures Estimate(samples + Repeated(x, n)).value == x + Remaining(Estimate(samples).value - x, n)
  {
    if n == 0 {
      assert samples + Repeated(x, 0) == samples;
    } else {
      var all := samples + Repeated(x, n);
      assert all[..|all| - 1] == samples + Repeated(x, n - 1);
      EstimateConverges(samples, x, n - 1);
    }
  }

  /** The bound outlasts the estimate exactly below the 500 ms crossover; it is at its floor exactly for estimates of
      zero and at its ceiling exactly from 12.375 s on; without an estimate it is 200 ms. */
  lemma DeadlineCrossover(p: real)
    ensures Deadline(None) == 200.0
    ensures Deadline(Some(p)) == 100.0 <==> p <= 0.0
    ensures Deadline(Some(p)) == 10000.0 <==> p >= 12375.0
    ensures Deadline(Some(p)) > p <==> p < 500.0
    ensures Deadline(Some(p)) == p <==> p == 500.0
    ensures REPOP_FLOOR_MS <= Deadline(Some(p)) <= REPOP_CEILING_MS
  {
  }
}

/**
 * The enqueue, the writer and the drain task interleaved. Enqueueing takes the queue's lock, looks at the query's
 * state and pushes as three separate steps; the writer changes states without the lock, then sends its notify.
 */
module CoalesceProtocol {
  import opened Common
  import opened WaitingQueue

  datatype Holder = Holder(fp: Fingerprint, key: CoalesceKey, msg: Request, sawLoading: bool)

  datatype World = World(
    view: map<Fingerprint, QueryState>,
    waiting: Waiting,
    lock: Option<Holder>,
    /** Queries whose state the writer has changed, notify not sent yet. */
    toSend: seq<Fingerprint>,
    /** The notify channel, oldest first. */
    notifies: seq<Fingerprint>,
    /** The notify the drain task has received and not acted on. */
    draining: Option<Fingerprint>)

  datatype Step =
    | Lock(fp: Fingerprint, key: CoalesceKey, msg: Request)
    | Check
    | Push
    | Load(fp: Fingerprint)
    | Register(fp: Fingerprint)
    | Collect(fp: Fingerprint)
    | Settle(fp: Fingerprint, next: Option<QueryState>)
    | Send
    | FailSpare(fp: Fingerprint)
    | Receive
    | Drain
    | Sweep(now: real)

  ghost const Empty: World := World(map[], map[], None, [], [], None)

  predicate IsLoading(w: World, fp: Fingerprint) { fp in w.view && w.view[fp] == Loading }

  predicate Enabled(w: World, s: Step) {
    match s
    case Lock(_, _, _) => w.lock.None?
    case Check => w.lock.Some? && !w.lock.value.sawLoading
    case Push => w.lock.Some? && w.lock.value.sawLoading
    case Load(_) => true
    case Register(fp) => !IsLoading(w, fp)
    case Collect(fp) => fp in w.view && (w.view[fp] == Pending || w.view[fp] == Invalidated)
    case Settle(_, next) => next != Some(Loading)
    case Send => w.toSend != []
    case FailSpare(_) => true
    case Receive => w.draining.None? && w.notifies != []
    case Drain => w.draining.Some? && w.lock.None?
    case Sweep(_) => w.lock.None?
  }

  function Next(w: World, s: Step): World
    requires Enabled(w, s)
  {
    match s
    case Lock(fp, key, msg) => w.(lock := Some(Holder(fp, key, msg, false)))
    // A query that is no longer loading sends the caller away and releases the lock.
    case Check =>
      if IsLoading(w, w.lock.value.fp) then w.(lock := Some(w.lock.value.(sawLoading := true))) else w.(lock := None)
    case Push =>
      var h := w.lock.value;
      w.(waiting := Pushed(w.waiting, h.fp, h.key, h.msg), lock := None)
    case Load(fp) => w.(view := w.view[fp := Loading])
    case Register(fp) => w.(view := w.view[fp := Pending])
    case Collect(fp) => w.(view := w.view - {fp})
    // Ready, invalidation, eviction and a failed population: the state first, the notify owed.
    case Settle(fp, next) =>
      w.(view := (if next.None? then w.view - {fp} else w.view[fp := next.value]), toSend := w.toSend + [fp])
    case Send => w.(toSend := w.toSend[1..], notifies := w.notifies + [w.toSend[0]])
    case FailSpare(fp) => w.(notifies := w.notifies + [fp])
    case Receive => w.(draining := Some(w.notifies[0]), notifies := w.notifies[1..])
    case Drain => w.(waiting := w.waiting - {w.draining.value}, draining := None)
    case Sweep(now) => w.(waiting := Kept(w.waiting, now))
  }

  /** The query is still loading, or a notify that will drain its waiters is on its way. */
  predicate Attended(w: World, fp: Fingerprint) {
    IsLoading(w, fp) || fp in w.toSend || fp in w.notifies || w.draining == Some(fp)
  }

  predicate Inv(w: World) {
    && (forall fp :: fp in w.waiting ==> Attended(w, fp))
    && (w.lock.Some? && w.lock.value.sawLoading ==> Attended(w, w.lock.value.fp))
  }

  /** Only the drain step ends a query's attendance, and it takes the query's waiters with it. */
  lemma AttendanceKept(w: World, s: Step, fp: Fingerprint)
    requires Enabled(w, s) && Attended(w, fp)
    ensures Attended(Next(w, s), fp) || (s.Drain? && w.draining == Some(fp) && fp !in Next(w, s).waiting)
  {
    if s.Send? {
      assert w.toSend == [w.toSend[0]] + w.toSend[1..];
    } else if s.Receive? {
      assert w.notifies == [w.notifies[0]] + w.notifies[1..];
    }
  }

  lemma StepKeepsInv(w: World, s: Step)
    requires Inv(w) && Enabled(w, s)
    ensures Inv(Next(w, s))
  {
    var v := Next(w, s);
    forall fp | fp in v.waiting ensures Attended(v, fp) {
      assert Attended(w, fp);
      AttendanceKept(w, s, fp);
    }
    if v.lock.Some? && v.lock.value.sawLoading && w.lock.Some? && Attended(w, w.lock.value.fp) {
      AttendanceKept(w, s, w.lock.value.fp);
    }
  }

  predicate IsRun(w: World, steps: seq<Step>)
    decreases |steps|
  {
    steps == [] || (Enabled(w, steps[0]) && IsRun(Next(w, steps[0]), steps[1..]))
  }

  function After(w: World, steps: seq<Step>): World
    requires IsRun(w, steps)
    decreases |steps|
  {
    if steps == [] then w else After(Next(w, steps[0]), steps[1..])
  }

  lemma {:induction false} RunKeepsInv(w: World, steps: seq<Step>)
    requires Inv(w) && IsRun(w, steps)
    ensures Inv(After(w, steps))
    decreases |steps|
  {
    if steps != [] {
      StepKeepsInv(w, steps[0]);
      RunKeepsInv(Next(w, steps[0]), steps[1..]);
    }
  }

  /** No orphaned waiter: in every reachable state each parked request's query is loading or its drain is on its way. */
  lemma NoOrphanedWaiter(steps: seq<Step>, fp: Fingerprint)
    requires IsRun(Empty, steps) && fp in After(Empty, steps).waiting
    ensures Attended(After(Empty, steps), fp)
  {
    RunKeepsInv(Empty, steps);
  }

  // Who is answered together.

  /** What a run pushes under one fingerprint and coalescing key, in order. */
  function Arrivals(w: World, steps: seq<Step>, fp: Fingerprint, key: CoalesceKey): seq<Request>
    requires IsRun(w, steps)
    decreases |steps|
  {
    if steps == [] then []
    else
      var own := steps[0].Push? && w.lock.value.fp == fp && w.lock.value.key == key;
      (if own then [w.lock.value.msg] else []) + Arrivals(Next(w, steps[0]), steps[1..], fp, key)
  }

  /** `a` is `b` with some elements left out, the rest in order. */
  predicate Subsequence(a: seq<Request>, b: seq<Request>)
    decreases |b|
  {
    a == [] ||
    (b != [] &&
     ((a[|a| - 1] == b[|b| - 1] && Subsequence(a[..|a| - 1], b[..|b| - 1])) || Subsequence(a, b[..|b| - 1])))
  }

  lemma SubsequenceAppend(a: seq<Request>, b: seq<Request>, r: Request)
    requires Subsequence(a, b)
    ensures Subsequence(a + [r], b + [r])
  {
    assert (a + [r])[..|a|] == a && (b + [r])[..|b|] == b;
  }

  lemma {:induction false} SubsequenceSelf(a: seq<Request>)
    ensures Subsequence(a, a)
  {
    if a != [] { SubsequenceSelf(a[..|a| - 1]); }
  }

  lemma {:induction false} SubsequenceSwept(a: seq<Request>, b: seq<Request>, now: real)
    requires Subsequence(a, b)
    ensures Subsequence(RestOf(a, now), b)
    decreases |b|
  {
    if a != [] {
      var init, n := b[..|b| - 1], |a| - 1;
      if Subsequence(a, init) {
        SubsequenceSwept(a, init, now);
      } else {
        SubsequenceSwept(a[..n], init, now);
        SubsequenceAppend(RestOf(a[..n], now), init, a[n]);
        assert b == init + [a[n]];
        assert Due(a[n], now) ==> RestOf(a, now) == RestOf(a[..n], now);
      }
    }
  }

  /** One step's effect on one group: its own pushes at the end, its fingerprint's drain, or a sweep of the due. */
  lemma StepAt(w: World, s: Step, fp: Fingerprint, key: CoalesceKey)
    requires Enabled(w, s)
    ensures var before, after := At(w.waiting, fp, key), At(Next(w, s).waiting, fp, key);
      match s
      case Push => after == before + if w.lock.value.fp == fp && w.lock.value.key == key then [w.lock.value.msg] else []
      case Drain => after == if w.draining == Some(fp) then [] else before
      case Sweep(now) => after == RestOf(before, now)
      case _ => after == before
  {
    match s
    case Push => PushedAt(w.waiting, w.lock.value.fp, w.lock.value.key, w.lock.value.msg, fp, key);
    case Sweep(now) => KeptAt(w.waiting, now, fp, key);
    case _ =>
  }

  lemma StepArrived(w: World, s: Step, fp: Fingerprint, key: CoalesceKey, arrived: seq<Request>, first: seq<Request>)
    requires Enabled(w, s) && Subsequence(At(w.waiting, fp, key), arrived)
    requires first == if s.Push? && w.lock.value.fp == fp && w.lock.value.key == key then [w.lock.value.msg] else []
    ensures Subsequence(At(Next(w, s).waiting, fp, key), arrived + first)
  {
    var before := At(w.waiting, fp, key);
    StepAt(w, s, fp, key);
    if first != [] {
      SubsequenceAppend(before, arrived, w.lock.value.msg);
    } else {
      assert arrived + first == arrived;
      if s.Sweep? { SubsequenceSwept(before, arrived, s.now); }
    }
  }

  lemma ArrivalsStep(w: World, steps: seq<Step>, fp: Fingerprint, key: CoalesceKey, arrived: seq<Request>)
    returns (first: seq<Request>)
    requires IsRun(w, steps) && steps != []
    ensures var s := steps[0];
      first == if s.Push? && w.lock.value.fp == fp && w.lock.value.key == key then [w.lock.value.msg] else []
    ensures arrived + Arrivals(w, steps, fp, key) == arrived + first + Arrivals(Next(w, steps[0]), steps[1..], fp, key)
  {
    var own := steps[0].Push? && w.lock.value.fp == fp && w.lock.value.key == key;
    first := if own then [w.lock.value.msg] else [];
    var rest := Arrivals(Next(w, steps[0]), steps[1..], fp, key);
    assert arrived + (first + rest) == arrived + first + rest;
  }

  lemma {:induction false} GroupArrived(
    w: World, steps: seq<Step>, fp: Fingerprint, key: CoalesceKey, arrived: seq<Request>, all: seq<Request>)
    requires IsRun(w, steps) && Subsequence(At(w.waiting, fp, key), arrived)
    requires all == arrived + Arrivals(w, steps, fp, key)
    ensures Subsequence(At(After(w, steps).waiting, fp, key), all)
    decreases |steps|
  {
    if steps == [] {
      assert all == arrived;
    } else {
      var first := ArrivalsStep(w, steps, fp, key, arrived);
      StepArrived(w, steps[0], fp, key, arrived, first);
      GroupArrived(Next(w, steps[0]), steps[1..], fp, key, arrived + first, all);
    }
  }

  /** In every run the requests answered together are among those that arrived under the same fingerprint and key, and
      stand in the order of their arrival. */
  lemma GroupsShareKey(steps: seq<Step>, fp: Fingerprint, key: CoalesceKey)
    requires IsRun(Empty, steps)
    ensures Subsequence(At(After(Empty, steps).waiting, fp, key), Arrivals(Empty, steps, fp, key))
  {
    var all := Arrivals(Empty, steps, fp, key);
    assert all == [] + all;
    GroupArrived(Empty, steps, fp, key, [], all);
  }

  /** The steps the lock holder has left. */
  function Held(w: World): nat { if w.lock.None? then 0 else if w.lock.value.sawLoading then 1 else 2 }

  /** Delivering what is owed: let the lock holder finish, send every pending notify, then receive and drain each. */
  function Flush(w: World): seq<Step>
    decreases Held(w), |w.toSend|, |w.notifies|, if w.draining.Some? then 1 else 0
  {
    if Held(w) == 2 then [Check] + Flush(Next(w, Check))
    else if Held(w) == 1 then [Push] + Flush(Next(w, Push))
    else if w.toSend != [] then [Send] + Flush(Next(w, Send))
    else if w.draining.Some? then [Drain] + Flush(Next(w, Drain))
    else if w.notifies != [] then [Receive] + Flush(Next(w, Receive))
    else []
  }

  /** From any reachable state, the steps and notifies already owed leave only waiters of loading queries. */
  lemma {:induction false} FlushServesEveryone(w: World)
    requires Inv(w)
    ensures IsRun(w, Flush(w))
    ensures forall fp :: fp in After(w, Flush(w)).waiting ==> IsLoading(w, fp)
    decreases Held(w), |w.toSend|, |w.notifies|, if w.draining.Some? then 1 else 0
  {
    if Flush(w) != [] {
      var s := Flush(w)[0];
      StepKeepsInv(w, s);
      FlushServesEveryone(Next(w, s));
      assert Flush(w)[1..] == Flush(Next(w, s));
    }
  }
}
