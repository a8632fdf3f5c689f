/** The elastic population worker pool's accounting (src/cache/population_pool.rs). */
module WorkerPool {
  import opened Common

  /** Where a worker that holds an id stands. */
  datatype Phase = Connecting | Running | Retiring | Parked

  type Workers = map<nat, Phase>

  ghost function IsLive(): (nat, Phase) -> nat { (id: nat, p: Phase) => if p.Connecting? || p.Running? then 1 else 0 }

  ghost function IsConnecting(): (nat, Phase) -> nat { (id: nat, p: Phase) => if p.Connecting? then 1 else 0 }

  ghost function IsParked(): (nat, Phase) -> nat { (id: nat, p: Phase) => if p.Parked? then 1 else 0 }

  predicate Distinct(s: seq<nat>) { forall i, j :: 0 <= i < j < |s| ==> s[i] != s[j] }

  /** Held ids and free ids are exactly the ids handed out so far, each on one side only. */
  ghost predicate Partitioned(workers: Workers, free: seq<nat>, nextId: nat) {
    && Distinct(free)
    && (forall id :: id in free ==> id !in workers)
    && (forall id :: id in workers || id in free <==> 0 <= id < nextId)
  }

  /** The ids below `n`. */
  ghost function Ids(n: nat): (s: set<nat>)
    ensures |s| == n && forall id :: id in s <==> 0 <= id < n
  {
    if n == 0 then {} else Ids(n - 1) + {n - 1}
  }

  ghost function IdsOf(s: seq<nat>): (r: set<nat>)
    ensures forall id :: id in r <==> id in s
  {
    if s == [] then {}
    else
      assert s == s[..|s| - 1] + [s[|s| - 1]];
      IdsOf(s[..|s| - 1]) + {s[|s| - 1]}
  }

  lemma {:induction false} DistinctSize(s: seq<nat>)
    requires Distinct(s)
    ensures |IdsOf(s)| == |s|
  {
    if s != [] {
      DistinctSize(s[..|s| - 1]);
    }
  }

  /** Every id ever handed out is held or free, so a fresh one is due only when all are held. */
  lemma HeldAndFree(workers: Workers, free: seq<nat>, nextId: nat)
    requires Partitioned(workers, free, nextId)
    ensures |workers| + |free| == nextId
  {
    DistinctSize(free);
    assert workers.Keys !! IdsOf(free);
    assert workers.Keys + IdsOf(free) == Ids(nextId);
    assert |workers.Keys + IdsOf(free)| == |workers.Keys| + |IdsOf(free)|;
  }

  /** Handing out the last free id, or the next one when none is free, keeps the partition. */
  lemma HandOut(workers: Workers, free: seq<nat>, nextId: nat)
    requires Partitioned(workers, free, nextId)
    ensures free != [] ==>
      var id := free[|free| - 1];
      id !in workers && Partitioned(workers[id := Connecting], free[..|free| - 1], nextId)
    ensures free == [] ==> nextId !in workers && Partitioned(workers[nextId := Connecting], free, nextId + 1)
  {
    if free != [] {
      var id, rest := free[|free| - 1], free[..|free| - 1];
      assert free == rest + [id] && id in free && id !in rest;
      assert forall i :: i in free <==> i in rest || i == id;
    }
  }

  /** Moving one worker to another phase changes each count by that worker only. */
  lemma PhaseChange(workers: Workers, id: nat, p: Phase)
    ensures var after := workers[id := p];
      && Sum(after, IsLive()) == Sum(workers - {id}, IsLive()) + IsLive()(id, p)
      && Sum(after, IsConnecting()) == Sum(workers - {id}, IsConnecting()) + IsConnecting()(id, p)
      && Sum(after, IsParked()) == Sum(workers - {id}, IsParked()) + IsParked()(id, p)
  {
    SumUpdate(workers, IsLive(), id, p);
    SumUpdate(workers, IsConnecting(), id, p);
    SumUpdate(workers, IsParked(), id, p);
  }

  lemma WithoutWorker(workers: Workers, id: nat)
    requires id in workers
    ensures Sum(workers, IsLive()) == Sum(workers - {id}, IsLive()) + IsLive()(id, workers[id])
    ensures Sum(workers, IsConnecting()) == Sum(workers - {id}, IsConnecting()) + IsConnecting()(id, workers[id])
    ensures Sum(workers, IsParked()) == Sum(workers - {id}, IsParked()) + IsParked()(id, workers[id])
  {
    SumRemove(workers, IsLive(), id);
    SumRemove(workers, IsConnecting(), id);
    SumRemove(workers, IsParked(), id);
  }

  class PopulationPool {
    var desired: nat
    var live: nat
    var pendingConnects: nat
    var parked: nat
    var freeIds: seq<nat>
    var nextId: nat
    /** Every worker that holds an id, and the most there have been at once. */
    ghost var workers: Workers
    ghost var peak: nat

    ghost predicate Counted()
      reads this
    {
      && live == Sum(workers, IsLive())
      && pendingConnects == Sum(workers, IsConnecting())
      && parked == Sum(workers, IsParked()) && parked <= 1
    }

    /** The counters count the workers, the ids partition, and no more ids exist than were ever held at once. */
    ghost predicate Valid()
      reads this
    {
      Counted() && Partitioned(workers, freeIds, nextId) && |workers| <= peak == nextId
    }

    constructor (initialWorkers: nat)
      ensures Valid() && desired == initialWorkers && workers == map[] && nextId == 0
    {
      desired, live, pendingConnects, parked, freeIds, nextId := initialWorkers, 0, 0, 0, [], 0;
      workers, peak := map[], 0;
    }

    /** Hands out an id nobody holds: a returned one if there is any, else a fresh one. */
    method WorkerReserve() returns (id: nat)
      requires Valid()
      modifies this
      ensures Valid() && id !in old(workers) && workers == old(workers)[id := Connecting]
      ensures live == old(live) + 1 && pendingConnects == old(pendingConnects) + 1
      ensures nextId == old(nextId) + (if old(freeIds) == [] then 1 else 0)
      ensures peak == Max(old(peak), |workers|) && parked == old(parked) && desired == old(desired)
    {
      live := live + 1;
      pendingConnects := pendingConnects + 1;
      id := TakeId();
      assert workers - {id} == workers;
      PhaseChange(workers, id, Connecting);
      workers := workers[id := Connecting];
      peak := Max(peak, |workers|);
    }

    method TakeId() returns (id: nat)
      requires Partitioned(workers, freeIds, nextId)
      modifies this`freeIds, this`nextId
      ensures id !in workers && Partitioned(workers[id := Connecting], freeIds, nextId)
      ensures nextId == old(nextId) + (if old(freeIds) == [] then 1 else 0)
      ensures |workers[id := Connecting]| + |freeIds| == nextId && (nextId > old(nextId) ==> freeIds == [])
    {
      HandOut(workers, freeIds, nextId);
      if freeIds != [] {
        id := freeIds[|freeIds| - 1];
        freeIds := freeIds[..|freeIds| - 1];
      } else {
        id := nextId;
        nextId := nextId + 1;
      }
      HeldAndFree(workers[id := Connecting], freeIds, nextId);
    }

    /** A reserved worker's connect resolved; the saturating subtraction never bites. */
    method PendingConnectDone(ghost id: nat)
      requires Valid() && id in workers && workers[id].Connecting?
      modifies this
      ensures Valid() && workers == old(workers)[id := Running] && pendingConnects == old(pendingConnects) - 1
      ensures live == old(live) && freeIds == old(freeIds) && nextId == old(nextId) && desired == old(desired)
    {
      WithoutWorker(workers, id);
      PhaseChange(workers, id, Running);
      pendingConnects := Max(pendingConnects - 1, 0);
      workers := workers[id := Running];
    }

    /** A running worker, or a spawn whose connect failed, leaves and returns its id. */
    method WorkerExit(id: nat)
      requires Valid() && id in workers && workers[id].Running?
      modifies this
      ensures Valid() && workers == old(workers) - {id} && live == old(live) - 1
      ensures freeIds == old(freeIds) + [id] && nextId == old(nextId) && desired == old(desired)
    {
      WithoutWorker(workers, id);
      live := live - 1;
      ReturnId(id);
    }

    /** The id's holder is gone; the id may be handed out again. */
    method ReturnId(id: nat)
      requires id in workers && Partitioned(workers, freeIds, nextId)
      modifies this`freeIds, this`workers
      ensures Partitioned(workers, freeIds, nextId) && workers == old(workers) - {id} && freeIds == old(freeIds) + [id]
    {
      freeIds := freeIds + [id];
      workers := workers - {id};
      assert forall i :: i in freeIds <==> i in old(freeIds) || i == id;
    }

    /** A surplus worker claims one unit of the gap between live and desired. */
    method RetireClaim(ghost id: nat) returns (retire: bool)
      requires Valid() && id in workers && workers[id].Running?
      modifies this
      ensures Valid() && (retire <==> old(live) > desired) && desired == old(desired)
      ensures workers == if retire then old(workers)[id := Retiring] else old(workers)
      ensures live == (if retire then old(live) - 1 else old(live)) && (retire ==> live >= desired)
      ensures freeIds == old(freeIds) && nextId == old(nextId)
    {
      if live <= desired {
        return false;
      }
      WithoutWorker(workers, id);
      PhaseChange(workers, id, Retiring);
      live := live - 1;
      workers := workers[id := Retiring];
      retire := true;
    }

    /** A retiring worker takes the single park slot, or finds it taken. */
    method ParkClaim(ghost id: nat) returns (claimed: bool)
      requires Valid() && id in workers && workers[id].Retiring?
      modifies this
      ensures Valid() && (claimed <==> forall other :: other in old(workers) ==> !old(workers)[other].Parked?)
      ensures workers == if claimed then old(workers)[id := Parked] else old(workers)
      ensures live == old(live) && desired == old(desired) && freeIds == old(freeIds) && nextId == old(nextId)
    {
      SumZero(workers, IsParked());
      if parked != 0 {
        return false;
      }
      WithoutWorker(workers, id);
      PhaseChange(workers, id, Parked);
      parked := 1;
      workers := workers[id := Parked];
      claimed := true;
    }

    /** A parked worker's park expired; it goes on to retire. */
    method ParkRelease(ghost id: nat)
      requires Valid() && id in workers && workers[id].Parked?
      modifies this
      ensures Valid() && workers == old(workers)[id := Retiring]
      ensures live == old(live) && desired == old(desired) && freeIds == old(freeIds) && nextId == old(nextId)
    {
      WithoutWorker(workers, id);
      PhaseChange(workers, id, Retiring);
      parked := 0;
      workers := workers[id := Retiring];
    }

    /** A parked worker resumes and counts as live again. */
    method UnparkComplete(ghost id: nat)
      requires Valid() && id in workers && workers[id].Parked?
      modifies this
      ensures Valid() && workers == old(workers)[id := Running] && live == old(live) + 1
      ensures desired == old(desired) && freeIds == old(freeIds) && nextId == old(nextId)
    {
      WithoutWorker(workers, id);
      PhaseChange(workers, id, Running);
      parked := 0;
      live := live + 1;
      workers := workers[id := Running];
    }

    /** A retired worker returns its id; its claim has already taken it off the live count. */
    method RetiredIdReturn(id: nat)
      requires Valid() && id in workers && workers[id].Retiring?
      modifies this
      ensures Valid() && workers == old(workers) - {id} && live == old(live)
      ensures freeIds == old(freeIds) + [id] && nextId == old(nextId) && desired == old(desired)
    {
      WithoutWorker(workers, id);
      ReturnId(id);
    }
  }
}

/** Many workers' retire attempts at once, each a load, a look at `desired` and a compare-exchange in a retry loop. */
module RetireProtocol {
  import opened Common

  datatype Attempt = Loaded(live: nat) | Surplus(live: nat)

  datatype World = World(live: nat, desired: nat, attempts: map<nat, Attempt>, retired: nat, exits: nat)

  datatype Step =
    | Load(worker: nat)
    | Look(worker: nat)
    | CompareExchange(worker: nat, spurious: bool)
    | Join
    | Exit
    | DesiredSet(n: nat)

  predicate Enabled(w: World, s: Step) {
    match s
    case Load(worker) => worker !in w.attempts
    case Look(worker) => worker in w.attempts && w.attempts[worker].Loaded?
    case CompareExchange(worker, _) => worker in w.attempts && w.attempts[worker].Surplus?
    case Join => true
    case Exit => w.live > 0
    case DesiredSet(_) => true
  }

  predicate Succeeds(w: World, s: Step)
    requires Enabled(w, s)
  {
    s.CompareExchange? && !s.spurious && w.live == w.attempts[s.worker].live
  }

  function Next(w: World, s: Step): World
    requires Enabled(w, s)
  {
    match s
    case Load(worker) => w.(attempts := w.attempts[worker := Loaded(w.live)])
    case Look(worker) =>
      var seen := w.attempts[worker].live;
      w.(attempts := if seen <= w.desired then w.attempts - {worker} else w.attempts[worker := Surplus(seen)])
    case CompareExchange(worker, _) =>
      if Succeeds(w, s) then w.(live := Max(w.live - 1, 0), attempts := w.attempts - {worker}, retired := w.retired + 1)
      else w.(attempts := w.attempts[worker := Loaded(w.live)])
    case Join => w.(live := w.live + 1)
    case Exit => w.(live := w.live - 1, exits := w.exits + 1)
    case DesiredSet(n) => w.(desired := n)
  }

  predicate IsRun(w: World, steps: seq<Step>)
    decreases |steps|
  {
    steps == [] || (Enabled(w, steps[0]) && IsRun(Next(w, steps[0]), steps[1..]))
  }

  function After(w: World, steps: seq<Step>): World
    requires IsRun(w, steps)
    decreases |steps|
  {
    if steps == [] then w else After(Next(w, steps[0]), steps[1..])
  }

  predicate Fixed(steps: seq<Step>) { forall i :: 0 <= i < |steps| ==> !steps[i].DesiredSet? }

  /** Whoever is about to retire saw a surplus over the target. */
  predicate Inv(w: World, floor: int) {
    && (forall t :: t in w.attempts && w.attempts[t].Surplus? ==> w.attempts[t].live > w.desired)
    && w.live + w.exits >= Min(floor, w.desired)
  }

  /** With the target fixed, retirements never take the pool below the target, or below where it started if lower:
      only workers that leave for another reason do, one each. */
  lemma {:induction false} RetireKeepsTarget(w: World, steps: seq<Step>, floor: int)
    requires IsRun(w, steps) && Fixed(steps) && Inv(w, floor)
    ensures Inv(After(w, steps), floor) && After(w, steps).desired == w.desired
    decreases |steps|
  {
    if steps != [] {
      RetireKeepsTarget(Next(w, steps[0]), steps[1..], floor);
    }
  }

  function Joins(steps: seq<Step>): nat {
    if steps == [] then 0 else (if steps[0].Join? then 1 else 0) + Joins(steps[1..])
  }

  /** Every worker that joined is live, retired or gone: a claim takes off exactly one. */
  lemma {:induction false} WorkersConserved(w: World, steps: seq<Step>)
    requires IsRun(w, steps) && forall t :: t in w.attempts && w.attempts[t].Surplus? ==> w.attempts[t].live > 0
    ensures var v := After(w, steps); v.live + v.retired + v.exits == w.live + w.retired + w.exits + Joins(steps)
    decreases |steps|
  {
    if steps != [] {
      WorkersConserved(Next(w, steps[0]), steps[1..]);
    }
  }

  /** A retirement that succeeds leaves the pool under the target exactly when the target was meanwhile raised to the
      live count or beyond. */
  lemma RetireUndershoots(w: World, worker: nat)
    requires Enabled(w, CompareExchange(worker, false)) && Succeeds(w, CompareExchange(worker, false)) && w.live > 0
    ensures Next(w, CompareExchange(worker, false)).live < w.desired <==> w.desired >= w.attempts[worker].live
  {
  }
}
