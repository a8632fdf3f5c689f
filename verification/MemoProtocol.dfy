/**
 The memo against its environment: the cache database, the writer's commit frames, the workers'
 captures and the connections' serves, interleaved step by step.

 A frame scans for the memoized fingerprints its rows affect, reads the gate, raises its slots to odd one by one,
 commits, and releases them one by one. A capture is stamp, read, check, insert. All else is one call of the memo.
 */
module MemoProtocol {
  import opened Common
  import opened MemoSpec

  type Relation = seq<seq<int>>
  type Database = map<Oid, Relation>

  function At(db: Database, oid: Oid): Option<Relation> {
    if oid in db then Some(db[oid]) else None
  }

  /** The environment: what each key's wire bytes are on a database, which relations a fingerprint
      reads, and the byte budget. */
  datatype Semantics = Semantics(eval: (MemoKey, Database) -> Bytes, tables: Fingerprint -> set<Oid>, budget: nat)

  /** A result depends on the relations the query reads and on nothing else. */
  ghost predicate ReadsOnly(sem: Semantics) {
    forall key: MemoKey, a: Database, b: Database ::
      (forall o :: o in sem.tables(key.fingerprint) ==> At(a, o) == At(b, o)) ==> sem.eval(key, a) == sem.eval(key, b)
  }

  /** Results larger than this are never stored. */
  predicate Fits(sem: Semantics, bytes: Bytes) {
    |bytes| <= MAX_MEMO_ENTRY_BYTES && |bytes| <= sem.budget && sem.budget > 0
  }

  datatype Phase =
    | Stamping(todo: seq<SlotKey>)
    | Read(bytes: Bytes)
    | Checked(bytes: Bytes)

  datatype Capture = Capture(key: MemoKey, relations: seq<Oid>, stamped: seq<(SlotKey, nat)>, phase: Phase)

  datatype Stage = Raising | Committed | Lowering

  /** An open frame holds the slots in `odd`. */
  datatype Frame =
    | Idle
    | Scanned(next: Database, touched: set<Oid>, evictions: set<Fingerprint>)
    | Open(
        next: Database, touched: set<Oid>, evictions: set<Fingerprint>, guarded: bool, stage: Stage, odd: set<SlotKey>)

  datatype World = World(db: Database, memo: Memo, captures: map<nat, Capture>, frame: Frame)

  datatype Step =
    | CaptureBegin(id: nat, key: MemoKey, relations: seq<Oid>)
    | CaptureStamp(id: nat, count: nat)
    | CaptureRead(id: nat)
    | CaptureDrop(id: nat)
    | FinishCheck(id: nat)
    | FinishInsert(id: nat)
    | FrameScan(next: Database, touched: set<Oid>, candidates: set<Fingerprint>)
    | FrameBegin
    | FrameRaise(slot: SlotKey)
    | FrameCommit
    | FrameLower
    | FrameRelease(slot: SlotKey)
    | FrameEnd
    | QueryEvict(fp: Fingerprint)
    | Serve(key: MemoKey)
    | LazyEvict(key: MemoKey)
    | Remove(key: MemoKey)
    | GcSweep

  function Elems<T>(s: seq<T>): set<T> { set x | x in s }

  /** The slots a frame is to hold odd: the fingerprints to evict, and the relation guards unless no entry was held. */
  function Bracket(frame: Frame): set<SlotKey>
    requires frame.Open?
  {
    (set fp | fp in frame.evictions :: MemoSlot(fp))
      + (if frame.guarded then set o | o in frame.touched :: RelationSlot(o) else {})
  }

  function OpenSlots(frame: Frame): set<SlotKey> { if frame.Open? then frame.odd else {} }

  /** The frame has fixed what it will change and not committed it. */
  predicate Uncommitted(frame: Frame) { frame.Scanned? || (frame.Open? && frame.stage.Raising?) }

  predicate Raised(frame: Frame) { frame.Open? && frame.odd == Bracket(frame) }

  function CaptureSlots(key: MemoKey, relations: seq<Oid>): seq<SlotKey> {
    seq(|relations|, i requires 0 <= i < |relations| => RelationSlot(relations[i])) + [MemoSlot(key.fingerprint)]
  }

  function Stamps(epochs: Epochs, slots: seq<SlotKey>): seq<(SlotKey, nat)> {
    seq(|slots|, i requires 0 <= i < |slots| => (slots[i], Version(epochs, slots[i])))
  }

  ghost function Evictions(entries: Entries, touched: set<Oid>, candidates: set<Fingerprint>): set<Fingerprint> {
    set fp | fp in candidates && exists o :: o in touched && Memoized(entries, o, fp)
  }

  /** The writer's obligations: only touched relations change, and no stored, live result that changes has its
      fingerprint missing from the candidates of the constraint index. */
  ghost predicate FrameSound(
    sem: Semantics, w: World, next: Database, touched: set<Oid>, candidates: set<Fingerprint>)
  {
    && (forall o :: o !in touched ==> At(w.db, o) == At(next, o))
    && (forall key | key in w.memo.entries && Live(w.memo, w.memo.entries[key]) ::
          sem.eval(key, w.db) != sem.eval(key, next) ==> key.fingerprint in candidates)
  }

  ghost predicate Enabled(sem: Semantics, w: World, step: Step) {
    match step
    case CaptureBegin(id, key, relations) =>
      id !in w.captures && sem.budget > 0 && Elems(relations) == sem.tables(key.fingerprint)
    case CaptureStamp(id, count) =>
      && id in w.captures && w.captures[id].phase.Stamping? && count <= |w.captures[id].phase.todo|
      && forall i :: 0 <= i < count ==> Version(w.memo.epochs, w.captures[id].phase.todo[i]) % 2 == 0
    case CaptureRead(id) => id in w.captures && w.captures[id].phase == Stamping([])
    case CaptureDrop(id) => id in w.captures
    case FinishCheck(id) => id in w.captures && w.captures[id].phase.Read?
    case FinishInsert(id) => id in w.captures && w.captures[id].phase.Checked?
    case FrameScan(next, touched, candidates) => w.frame.Idle? && FrameSound(sem, w, next, touched, candidates)
    case FrameBegin => w.frame.Scanned?
    case FrameRaise(slot) =>
      w.frame.Open? && w.frame.stage.Raising? && slot in Bracket(w.frame) && slot !in w.frame.odd
    case FrameCommit => w.frame.Open? && w.frame.stage.Raising? && Raised(w.frame)
    // A frame whose commit failed lowers its slots all the same.
    case FrameLower => w.frame.Open? && !w.frame.stage.Lowering? && Raised(w.frame)
    case FrameRelease(slot) => w.frame.Open? && w.frame.stage.Lowering? && slot in w.frame.odd
    case FrameEnd => w.frame.Open? && w.frame.stage.Lowering? && w.frame.odd == {}
    case QueryEvict(_) => true
    case Serve(_) => true
    case LazyEvict(_) => true
    case Remove(_) => true
    case GcSweep => true
  }

  ghost function Next(sem: Semantics, w: World, step: Step): World
    requires Enabled(sem, w, step)
  {
    match step
    case CaptureBegin(id, key, relations) =>
      w.(captures := w.captures[id := Capture(key, relations, [], Stamping(CaptureSlots(key, relations)))])
    case CaptureStamp(id, count) =>
      var c := w.captures[id];
      w.(captures := w.captures[id := c.(stamped := c.stamped + Stamps(w.memo.epochs, c.phase.todo[..count]),
                                         phase := Stamping(c.phase.todo[count..]))])
    case CaptureRead(id) =>
      var c := w.captures[id];
      w.(captures := w.captures[id := c.(phase := Read(sem.eval(c.key, w.db)))])
    case CaptureDrop(id) => w.(captures := w.captures - {id})
    case FinishCheck(id) =>
      var c := w.captures[id];
      if SlotsValid(w.memo.epochs, c.stamped)
      then w.(captures := w.captures[id := c.(phase := Checked(c.phase.bytes))])
      else w.(captures := w.captures - {id})
    case FinishInsert(id) =>
      var c := w.captures[id];
      w.(memo := Insert(w.memo, sem.budget, c.key, FinishedEntry(c)), captures := w.captures - {id})
    case FrameScan(next, touched, candidates) =>
      w.(frame := Scanned(next, touched, Evictions(w.memo.entries, touched, candidates)))
    case FrameBegin =>
      w.(frame := Open(w.frame.next, w.frame.touched, w.frame.evictions, w.memo.entries != map[], Raising, {}))
    case FrameRaise(slot) =>
      w.(frame := w.frame.(odd := w.frame.odd + {slot}),
         memo := w.memo.(epochs := Bump(w.memo.epochs, slot), gcPending := true))
    case FrameCommit => w.(db := w.frame.next, frame := w.frame.(stage := Committed))
    case FrameLower => w.(frame := w.frame.(stage := Lowering))
    case FrameRelease(slot) =>
      w.(frame := w.frame.(odd := w.frame.odd - {slot}), memo := w.memo.(epochs := Bump(w.memo.epochs, slot)))
    case FrameEnd => w.(frame := Idle)
    case QueryEvict(fp) =>
      w.(memo := w.memo.(epochs := Bump(Bump(w.memo.epochs, MemoSlot(fp)), MemoSlot(fp)), gcPending := true))
    case Serve(key) => w
    case LazyEvict(key) => w.(memo := EvictStale(w.memo, key))
    case Remove(key) => w.(memo := w.memo.(entries := w.memo.entries - {key}))
    case GcSweep => w.(memo := Gc(w.memo))
  }

  function FinishedEntry(c: Capture): MemoEntry
    requires !c.phase.Stamping?
  {
    MemoEntry(c.phase.bytes, 0, MemoStampsOnly(c.stamped), c.relations)
  }

  // ----- the rule -----

  /** No memoizable result outside the evicted fingerprints changes with the frame. */
  ghost predicate Harmless(sem: Semantics, db: Database, next: Database, evictions: set<Fingerprint>) {
    forall key: MemoKey :: Fits(sem, sem.eval(key, db)) && key.fingerprint !in evictions ==>
      sem.eval(key, db) == sem.eval(key, next)
  }

  /** The frame changes the key's result without evicting its fingerprint. */
  ghost predicate Misses(sem: Semantics, db: Database, next: Database, evictions: set<Fingerprint>, key: MemoKey) {
    sem.eval(key, db) != sem.eval(key, next) && key.fingerprint !in evictions
  }

  /** The capture's insert would go through and be served. */
  predicate Ripe(sem: Semantics, w: World, c: Capture) {
    !c.phase.Stamping? && Fits(sem, c.phase.bytes) && SlotsValid(w.memo.epochs, MemoStampsOnly(c.stamped))
  }

  /** A scan misses no capture between its check and its insert; a check is not passed under a frame that misses it. */
  ghost predicate Overlap(sem: Semantics, w: World, step: Step) {
    && (step.FrameScan? ==>
          forall id :: id in w.captures && w.captures[id].phase.Checked? && Ripe(sem, w, w.captures[id]) ==>
            !Misses(sem, w.db, step.next, Evictions(w.memo.entries, step.touched, step.candidates), w.captures[id].key))
    && (step.FinishCheck? && step.id in w.captures && Uncommitted(w.frame) ==>
          var c := w.captures[step.id];
          c.phase.Read? && SlotsValid(w.memo.epochs, c.stamped) && Fits(sem, c.phase.bytes) ==>
            !Misses(sem, w.db, w.frame.next, w.frame.evictions, c.key))
  }

  /** The bracket's gate on a non-empty store is only taken when it can do no harm. */
  ghost predicate Guarded(sem: Semantics, w: World, step: Step) {
    step.FrameBegin? && w.frame.Scanned? ==>
      w.memo.entries != map[] || Harmless(sem, w.db, w.frame.next, w.frame.evictions)
  }

  ghost predicate Allowed(sem: Semantics, w: World, step: Step) {
    Enabled(sem, w, step) && Overlap(sem, w, step) && Guarded(sem, w, step)
  }

  ghost predicate Init(w: World) {
    w.memo == Memo(map[], map[], false) && w.captures == map[] && w.frame == Idle
  }

  // ----- the invariant -----

  ghost predicate Parity(w: World) {
    forall slot :: Version(w.memo.epochs, slot) % 2 == 1 <==> slot in OpenSlots(w.frame)
  }

  ghost predicate StampsBounded(epochs: Epochs, stamped: seq<(SlotKey, nat)>) {
    forall i :: 0 <= i < |stamped| ==> stamped[i].1 % 2 == 0 && stamped[i].1 <= Version(epochs, stamped[i].0)
  }

  ghost predicate Covered(c: Capture, slot: SlotKey) {
    (exists i :: 0 <= i < |c.stamped| && c.stamped[i].0 == slot) || (c.phase.Stamping? && slot in c.phase.todo)
  }

  /** The frame under way, if any, does not miss the key. */
  ghost predicate Attended(sem: Semantics, w: World, key: MemoKey) {
    Uncommitted(w.frame) ==> !Misses(sem, w.db, w.frame.next, w.frame.evictions, key)
  }

  ghost predicate CaptureOk(sem: Semantics, w: World, c: Capture) {
    && Elems(c.relations) == sem.tables(c.key.fingerprint)
    && StampsBounded(w.memo.epochs, c.stamped)
    && (forall o :: o in c.relations ==> Covered(c, RelationSlot(o)))
    && Covered(c, MemoSlot(c.key.fingerprint))
    && (forall i :: 0 <= i < |c.stamped| && c.stamped[i].0.MemoSlot? ==> c.stamped[i].0 == MemoSlot(c.key.fingerprint))
    && (c.phase.Stamping? ==> forall s :: s in c.phase.todo && s.MemoSlot? ==> s == MemoSlot(c.key.fingerprint))
    && (c.phase.Read? && SlotsValid(w.memo.epochs, c.stamped) && Fits(sem, c.phase.bytes)
        ==> c.phase.bytes == sem.eval(c.key, w.db))
    && (c.phase.Checked? && Ripe(sem, w, c) ==> c.phase.bytes == sem.eval(c.key, w.db) && Attended(sem, w, c.key))
  }

  ghost predicate EntryOk(sem: Semantics, w: World, key: MemoKey, e: MemoEntry) {
    && Elems(e.relations) == sem.tables(key.fingerprint)
    && e.stamped != [] && StampsBounded(w.memo.epochs, e.stamped)
    && (forall i :: 0 <= i < |e.stamped| ==> e.stamped[i].0 == MemoSlot(key.fingerprint))
    && Fits(sem, e.core)
    && (Live(w.memo, e) ==> e.core == sem.eval(key, w.db) && Attended(sem, w, key))
  }

  ghost predicate FrameOk(sem: Semantics, w: World) {
    && (Uncommitted(w.frame) ==> forall o :: o !in w.frame.touched ==> At(w.db, o) == At(w.frame.next, o))
    && (w.frame.Open? && w.frame.stage.Raising? && !w.frame.guarded ==>
          Harmless(sem, w.db, w.frame.next, w.frame.evictions))
    && (w.frame.Open? ==> w.frame.odd <= Bracket(w.frame))
  }

  ghost predicate Inv(sem: Semantics, w: World) {
    && ReadsOnly(sem)
    && Parity(w)
    && FrameOk(sem, w)
    && (forall id :: id in w.captures ==> CaptureOk(sem, w, w.captures[id]))
    && (forall k :: k in w.memo.entries ==> EntryOk(sem, w, k, w.memo.entries[k]))
  }

  // ----- slot arithmetic -----

  ghost predicate Advanced(before: Epochs, after: Epochs) {
    forall slot :: Version(before, slot) <= Version(after, slot)
  }

  /** No step takes a version back. */
  lemma StepAdvances(sem: Semantics, w: World, step: Step)
    requires Enabled(sem, w, step)
    ensures Advanced(w.memo.epochs, Next(sem, w, step).memo.epochs)
  {
  }

  /** A stamp at or below the current version that has stopped matching never matches again. */
  lemma StaleForever(before: Epochs, after: Epochs, stamped: seq<(SlotKey, nat)>)
    requires Advanced(before, after) && StampsBounded(before, stamped)
    ensures StampsBounded(after, stamped)
    ensures SlotsValid(after, stamped) ==> SlotsValid(before, stamped)
  {
    if SlotsValid(after, stamped) {
      forall i | 0 <= i < |stamped| ensures Version(before, stamped[i].0) == stamped[i].1 {
        assert Version(before, stamped[i].0) <= Version(after, stamped[i].0);
      }
    }
  }

  lemma MemoStampsBounded(epochs: Epochs, stamped: seq<(SlotKey, nat)>)
    requires StampsBounded(epochs, stamped)
    ensures StampsBounded(epochs, MemoStampsOnly(stamped))
    ensures SlotsValid(epochs, stamped) ==> SlotsValid(epochs, MemoStampsOnly(stamped))
  {
    assert forall i :: 0 <= i < |MemoStampsOnly(stamped)| ==> MemoStampsOnly(stamped)[i] in stamped;
  }

  /** Raising or releasing a slot keeps the parity. */
  lemma SlotParity(sem: Semantics, w: World, step: Step, w': World)
    requires Parity(w) && Enabled(sem, w, step) && w' == Next(sem, w, step)
    requires step.FrameRaise? || step.FrameRelease?
    ensures Parity(w')
  {
    forall slot ensures Version(w'.memo.epochs, slot) % 2 == 1 <==> slot in OpenSlots(w'.frame) {
      assert Version(w.memo.epochs, slot) % 2 == 1 <==> slot in OpenSlots(w.frame);
    }
  }

  lemma EvictParity(sem: Semantics, w: World, fp: Fingerprint, w': World)
    requires Parity(w) && w' == Next(sem, w, QueryEvict(fp))
    ensures Parity(w')
  {
    forall slot ensures Version(w'.memo.epochs, slot) % 2 == Version(w.memo.epochs, slot) % 2 {
    }
  }

  // ----- every allowed step keeps the invariant -----

  /** Versions may have advanced, and a frame under way afterwards was so before, with the same effect. */
  ghost predicate Carries(w: World, w': World) {
    && w'.db == w.db && Advanced(w.memo.epochs, w'.memo.epochs)
    && (Uncommitted(w'.frame) ==>
          Uncommitted(w.frame) && w'.frame.next == w.frame.next && w'.frame.evictions == w.frame.evictions)
  }

  lemma CarryCapture(sem: Semantics, w: World, w': World, c: Capture)
    requires Carries(w, w') && CaptureOk(sem, w, c)
    ensures CaptureOk(sem, w', c)
  {
    StaleForever(w.memo.epochs, w'.memo.epochs, c.stamped);
    MemoStampsBounded(w.memo.epochs, c.stamped);
    StaleForever(w.memo.epochs, w'.memo.epochs, MemoStampsOnly(c.stamped));
  }

  lemma CarryEntry(sem: Semantics, w: World, w': World, k: MemoKey, e: MemoEntry)
    requires Carries(w, w') && EntryOk(sem, w, k, e)
    ensures EntryOk(sem, w', k, e)
  {
    StaleForever(w.memo.epochs, w'.memo.epochs, e.stamped);
  }

  /** Then only the captures and entries that are new need looking at. */
  lemma CarryInv(sem: Semantics, w: World, w': World)
    requires Inv(sem, w) && Carries(w, w') && Parity(w') && FrameOk(sem, w')
    requires forall id :: id in w'.captures ==>
      (id in w.captures && w'.captures[id] == w.captures[id]) || CaptureOk(sem, w', w'.captures[id])
    requires forall k :: k in w'.memo.entries ==>
      (k in w.memo.entries && w'.memo.entries[k] == w.memo.entries[k]) || EntryOk(sem, w', k, w'.memo.entries[k])
    ensures Inv(sem, w')
  {
    forall id | id in w'.captures ensures CaptureOk(sem, w', w'.captures[id]) {
      if id in w.captures && w'.captures[id] == w.captures[id] { CarryCapture(sem, w, w', w.captures[id]); }
    }
    forall k | k in w'.memo.entries ensures EntryOk(sem, w', k, w'.memo.entries[k]) {
      if k in w.memo.entries && w'.memo.entries[k] == w.memo.entries[k] {
        CarryEntry(sem, w, w', k, w.memo.entries[k]);
      }
    }
  }

  /** A capture whose stamps all match is out of reach of a frame that has raised all its slots. */
  lemma ValidCaptureUnaffected(sem: Semantics, w: World, c: Capture)
    requires Inv(sem, w) && CaptureOk(sem, w, c) && !c.phase.Stamping?
    requires Uncommitted(w.frame) && Raised(w.frame)
    requires SlotsValid(w.memo.epochs, c.stamped) && Fits(sem, sem.eval(c.key, w.db))
    ensures sem.eval(c.key, w.db) == sem.eval(c.key, w.frame.next)
  {
    var memoSlot := MemoSlot(c.key.fingerprint);
    var m :| 0 <= m < |c.stamped| && c.stamped[m].0 == memoSlot;
    assert Version(w.memo.epochs, memoSlot) % 2 == 0;
    assert c.key.fingerprint !in w.frame.evictions;
    if w.frame.guarded {
      forall o | o in sem.tables(c.key.fingerprint) ensures At(w.db, o) == At(w.frame.next, o) {
        assert o in Elems(c.relations);
        assert Covered(c, RelationSlot(o));
        var i :| 0 <= i < |c.stamped| && c.stamped[i].0 == RelationSlot(o);
        assert Version(w.memo.epochs, RelationSlot(o)) % 2 == 0;
        assert RelationSlot(o) !in OpenSlots(w.frame);
        assert o !in w.frame.touched;
      }
    }
  }

  lemma NewCaptureOk(sem: Semantics, w: World, c: Capture, relations: seq<Oid>)
    requires c == Capture(c.key, relations, [], Stamping(CaptureSlots(c.key, relations)))
    requires Elems(relations) == sem.tables(c.key.fingerprint)
    ensures CaptureOk(sem, w, c)
  {
    var slots := CaptureSlots(c.key, relations);
    assert slots[|relations|] == MemoSlot(c.key.fingerprint);
    forall o | o in relations ensures RelationSlot(o) in slots {
      var i :| 0 <= i < |relations| && relations[i] == o;
      assert slots[i] == RelationSlot(o);
    }
  }

  lemma CaptureBeginOk(sem: Semantics, w: World, step: Step)
    requires Inv(sem, w) && Allowed(sem, w, step) && step.CaptureBegin?
    ensures Inv(sem, Next(sem, w, step))
  {
    var w' := Next(sem, w, step);
    NewCaptureOk(sem, w', w'.captures[step.id], step.relations);
    CarryInv(sem, w, w');
  }

  /** Stamping moves slots from the to-do list to the stamps and loses none. */
  lemma StampCovers(epochs: Epochs, c: Capture, n: nat, slot: SlotKey)
    requires c.phase.Stamping? && n <= |c.phase.todo| && Covered(c, slot)
    ensures Covered(StampedFurther(epochs, c, n), slot)
  {
    var todo := c.phase.todo;
    var stamped' := c.stamped + Stamps(epochs, todo[..n]);
    if i :| 0 <= i < |c.stamped| && c.stamped[i].0 == slot {
      assert stamped'[i].0 == slot;
    } else {
      var j :| 0 <= j < |todo| && todo[j] == slot;
      if j < n {
        assert stamped'[|c.stamped| + j].0 == slot;
      } else {
        assert todo[n..][j - n] == slot;
      }
    }
  }

  function StampedFurther(epochs: Epochs, c: Capture, n: nat): Capture
    requires c.phase.Stamping? && n <= |c.phase.todo|
  {
    c.(stamped := c.stamped + Stamps(epochs, c.phase.todo[..n]), phase := Stamping(c.phase.todo[n..]))
  }

  lemma StampedOk(sem: Semantics, w: World, c: Capture, n: nat)
    requires CaptureOk(sem, w, c) && c.phase.Stamping? && n <= |c.phase.todo|
    requires forall i :: 0 <= i < n ==> Version(w.memo.epochs, c.phase.todo[i]) % 2 == 0
    ensures CaptureOk(sem, w, StampedFurther(w.memo.epochs, c, n))
  {
    var todo, added := c.phase.todo, Stamps(w.memo.epochs, c.phase.todo[..n]);
    var c' := StampedFurther(w.memo.epochs, c, n);
    forall slot | Covered(c, slot) ensures Covered(c', slot) { StampCovers(w.memo.epochs, c, n, slot); }
    assert forall i :: 0 <= i < n ==>
      added[i].0 in todo && added[i].1 % 2 == 0 && added[i].1 == Version(w.memo.epochs, added[i].0);
    assert forall s :: s in todo[n..] ==> s in todo;
  }

  lemma CaptureStampOk(sem: Semantics, w: World, step: Step)
    requires Inv(sem, w) && Allowed(sem, w, step) && step.CaptureStamp?
    ensures Inv(sem, Next(sem, w, step))
  {
    var w' := Next(sem, w, step);
    StampedOk(sem, w, w.captures[step.id], step.count);
    CarryCapture(sem, w, w', StampedFurther(w.memo.epochs, w.captures[step.id], step.count));
    CarryInv(sem, w, w');
  }

  lemma ReadOk(sem: Semantics, w: World, c: Capture)
    requires CaptureOk(sem, w, c) && c.phase == Stamping([])
    ensures CaptureOk(sem, w, c.(phase := Read(sem.eval(c.key, w.db))))
  {
    var c' := c.(phase := Read(sem.eval(c.key, w.db)));
    assert forall slot :: Covered(c, slot) ==> Covered(c', slot);
  }

  lemma CaptureReadOk(sem: Semantics, w: World, step: Step)
    requires Inv(sem, w) && Allowed(sem, w, step) && step.CaptureRead?
    ensures Inv(sem, Next(sem, w, step))
  {
    var w', c := Next(sem, w, step), w.captures[step.id];
    ReadOk(sem, w, c);
    CarryCapture(sem, w, w', c.(phase := Read(sem.eval(c.key, w.db))));
    CarryInv(sem, w, w');
  }

  lemma CheckedOk(sem: Semantics, w: World, c: Capture)
    requires CaptureOk(sem, w, c) && c.phase.Read? && SlotsValid(w.memo.epochs, c.stamped)
    requires Fits(sem, c.phase.bytes) ==> Attended(sem, w, c.key)
    ensures CaptureOk(sem, w, c.(phase := Checked(c.phase.bytes)))
  {
    var c' := c.(phase := Checked(c.phase.bytes));
    assert forall slot :: Covered(c, slot) ==> Covered(c', slot);
  }

  lemma FinishCheckOk(sem: Semantics, w: World, step: Step)
    requires Inv(sem, w) && Allowed(sem, w, step) && step.FinishCheck?
    ensures Inv(sem, Next(sem, w, step))
  {
    var w', c := Next(sem, w, step), w.captures[step.id];
    if SlotsValid(w.memo.epochs, c.stamped) {
      CheckedOk(sem, w, c);
      CarryCapture(sem, w, w', c.(phase := Checked(c.phase.bytes)));
    }
    CarryInv(sem, w, w');
  }

  /** The memo stamps of a capture past its stamping: there are some, and all are of its fingerprint's slot. */
  lemma MemoStamps(sem: Semantics, w: World, c: Capture)
    requires CaptureOk(sem, w, c) && !c.phase.Stamping?
    ensures MemoStampsOnly(c.stamped) != [] && StampsBounded(w.memo.epochs, MemoStampsOnly(c.stamped))
    ensures forall i :: 0 <= i < |MemoStampsOnly(c.stamped)| ==>
      MemoStampsOnly(c.stamped)[i].0 == MemoSlot(c.key.fingerprint)
  {
    var stamps := MemoStampsOnly(c.stamped);
    MemoStampsBounded(w.memo.epochs, c.stamped);
    var m :| 0 <= m < |c.stamped| && c.stamped[m].0 == MemoSlot(c.key.fingerprint);
    assert c.stamped[m] in stamps;
    forall i | 0 <= i < |stamps| ensures stamps[i].0 == MemoSlot(c.key.fingerprint) { assert stamps[i] in c.stamped; }
  }

  /** The entry a checked capture is stored as. */
  lemma StoredOk(sem: Semantics, w: World, c: Capture)
    requires CaptureOk(sem, w, c) && c.phase.Checked? && Fits(sem, c.phase.bytes)
    ensures EntryOk(sem, w, c.key, FinishedEntry(c))
  {
    MemoStamps(sem, w, c);
  }

  lemma FinishInsertOk(sem: Semantics, w: World, step: Step)
    requires Inv(sem, w) && Allowed(sem, w, step) && step.FinishInsert?
    ensures Inv(sem, Next(sem, w, step))
  {
    var w', c := Next(sem, w, step), w.captures[step.id];
    if InsertAccepted(w.memo.entries, sem.budget, c.key, FinishedEntry(c)) {
      assert Fits(sem, c.phase.bytes);
      StoredOk(sem, w, c);
      CarryEntry(sem, w, w', c.key, FinishedEntry(c));
    }
    CarryInv(sem, w, w');
  }

  /** The scan evicts the fingerprint of every stored, live result that the frame changes. */
  lemma ScanEvicts(sem: Semantics, w: World, step: Step, k: MemoKey)
    requires ReadsOnly(sem) && Enabled(sem, w, step) && step.FrameScan?
    requires k in w.memo.entries && EntryOk(sem, w, k, w.memo.entries[k]) && Live(w.memo, w.memo.entries[k])
    ensures !Misses(sem, w.db, step.next, Evictions(w.memo.entries, step.touched, step.candidates), k)
  {
    if sem.eval(k, w.db) != sem.eval(k, step.next) {
      assert !(forall o :: o in sem.tables(k.fingerprint) ==> At(w.db, o) == At(step.next, o));
      var o :| o in sem.tables(k.fingerprint) && At(w.db, o) != At(step.next, o);
      assert o in Elems(w.memo.entries[k].relations);
      assert Memoized(w.memo.entries, o, k.fingerprint);
    }
  }

  lemma FrameScanOk(sem: Semantics, w: World, step: Step)
    requires Inv(sem, w) && Allowed(sem, w, step) && step.FrameScan?
    ensures Inv(sem, Next(sem, w, step))
  {
    var w' := Next(sem, w, step);
    forall k | k in w'.memo.entries ensures EntryOk(sem, w', k, w'.memo.entries[k]) {
      assert EntryOk(sem, w, k, w.memo.entries[k]);
      if Live(w.memo, w.memo.entries[k]) { ScanEvicts(sem, w, step, k); }
    }
    forall id | id in w'.captures ensures CaptureOk(sem, w', w'.captures[id]) {
      assert CaptureOk(sem, w, w.captures[id]);
    }
  }

  lemma FrameMoveOk(sem: Semantics, w: World, step: Step)
    requires Inv(sem, w) && Allowed(sem, w, step)
    requires step.FrameBegin? || step.FrameRaise? || step.FrameLower? || step.FrameRelease? || step.FrameEnd?
    ensures Inv(sem, Next(sem, w, step))
  {
    var w' := Next(sem, w, step);
    StepAdvances(sem, w, step);
    if step.FrameRaise? || step.FrameRelease? { SlotParity(sem, w, step, w'); }
    CarryInv(sem, w, w');
  }

  /** At the commit every eviction's slot is odd, so what is still live or ripe does not change. */
  lemma CommitEntry(sem: Semantics, w: World, w': World, k: MemoKey, e: MemoEntry)
    requires Inv(sem, w) && Enabled(sem, w, FrameCommit) && w' == Next(sem, w, FrameCommit) && EntryOk(sem, w, k, e)
    ensures EntryOk(sem, w', k, e)
  {
    if Live(w.memo, e) {
      assert Version(w.memo.epochs, e.stamped[0].0) % 2 == 0;
      assert k.fingerprint !in w.frame.evictions;
    }
  }

  lemma CommitCapture(sem: Semantics, w: World, w': World, c: Capture)
    requires Inv(sem, w) && Enabled(sem, w, FrameCommit) && w' == Next(sem, w, FrameCommit) && CaptureOk(sem, w, c)
    ensures CaptureOk(sem, w', c)
  {
    if c.phase.Read? && SlotsValid(w.memo.epochs, c.stamped) && Fits(sem, c.phase.bytes) {
      ValidCaptureUnaffected(sem, w, c);
    } else if c.phase.Checked? && Ripe(sem, w, c) {
      MemoStamps(sem, w, c);
      assert Version(w.memo.epochs, MemoStampsOnly(c.stamped)[0].0) % 2 == 0;
      assert c.key.fingerprint !in w.frame.evictions;
    }
  }

  lemma FrameCommitOk(sem: Semantics, w: World, step: Step)
    requires Inv(sem, w) && Allowed(sem, w, step) && step.FrameCommit?
    ensures Inv(sem, Next(sem, w, step))
  {
    var w' := Next(sem, w, step);
    assert Parity(w') by { assert OpenSlots(w'.frame) == OpenSlots(w.frame); }
    forall id | id in w'.captures ensures CaptureOk(sem, w', w'.captures[id]) {
      CommitCapture(sem, w, w', w.captures[id]);
    }
    forall k | k in w'.memo.entries ensures EntryOk(sem, w', k, w'.memo.entries[k]) {
      CommitEntry(sem, w, w', k, w.memo.entries[k]);
    }
  }

  lemma QueryEvictOk(sem: Semantics, w: World, step: Step)
    requires Inv(sem, w) && Allowed(sem, w, step) && step.QueryEvict?
    ensures Inv(sem, Next(sem, w, step))
  {
    var w' := Next(sem, w, step);
    EvictParity(sem, w, step.fp, w');
    StepAdvances(sem, w, step);
    CarryInv(sem, w, w');
  }

  lemma SweepOk(sem: Semantics, w: World, step: Step)
    requires Inv(sem, w) && Allowed(sem, w, step)
    requires step.LazyEvict? || step.Remove? || step.GcSweep? || step.Serve? || step.CaptureDrop?
    ensures Inv(sem, Next(sem, w, step))
  {
    CarryInv(sem, w, Next(sem, w, step));
  }

  /** Every allowed step keeps the invariant. */
  lemma StepKeepsInv(sem: Semantics, w: World, step: Step)
    requires Inv(sem, w) && Allowed(sem, w, step)
    ensures Inv(sem, Next(sem, w, step))
  {
    match step
    case CaptureBegin(_, _, _) => CaptureBeginOk(sem, w, step);
    case CaptureStamp(_, _) => CaptureStampOk(sem, w, step);
    case CaptureRead(_) => CaptureReadOk(sem, w, step);
    case FinishCheck(_) => FinishCheckOk(sem, w, step);
    case FinishInsert(_) => FinishInsertOk(sem, w, step);
    case FrameScan(_, _, _) => FrameScanOk(sem, w, step);
    case FrameBegin => FrameMoveOk(sem, w, step);
    case FrameRaise(_) => FrameMoveOk(sem, w, step);
    case FrameCommit => FrameCommitOk(sem, w, step);
    case FrameLower => FrameMoveOk(sem, w, step);
    case FrameRelease(_) => FrameMoveOk(sem, w, step);
    case FrameEnd => FrameMoveOk(sem, w, step);
    case QueryEvict(_) => QueryEvictOk(sem, w, step);
    case CaptureDrop(_) => SweepOk(sem, w, step);
    case Serve(_) => SweepOk(sem, w, step);
    case LazyEvict(_) => SweepOk(sem, w, step);
    case Remove(_) => SweepOk(sem, w, step);
    case GcSweep => SweepOk(sem, w, step);
  }

  // ----- runs -----

  /** A run in which every step is enabled and `rule` holds where it is taken. */
  ghost predicate RunOf(sem: Semantics, w: World, steps: seq<Step>, rule: (World, Step) -> bool)
    decreases |steps|
  {
    steps == [] ||
    (Enabled(sem, w, steps[0]) && rule(w, steps[0]) && RunOf(sem, Next(sem, w, steps[0]), steps[1..], rule))
  }

  ghost function Exec(sem: Semantics, w: World, steps: seq<Step>, rule: (World, Step) -> bool): World
    requires RunOf(sem, w, steps, rule)
    decreases |steps|
  {
    if steps == [] then w else Exec(sem, Next(sem, w, steps[0]), steps[1..], rule)
  }

  lemma {:induction false} RunConcat(
    sem: Semantics, w: World, a: seq<Step>, b: seq<Step>, rule: (World, Step) -> bool)
    requires RunOf(sem, w, a, rule) && RunOf(sem, Exec(sem, w, a, rule), b, rule)
    ensures RunOf(sem, w, a + b, rule)
    ensures Exec(sem, w, a + b, rule) == Exec(sem, Exec(sem, w, a, rule), b, rule)
    decreases |a|
  {
    if a == [] {
      assert a + b == b;
    } else {
      assert (a + b)[1..] == a[1..] + b;
      RunConcat(sem, Next(sem, w, a[0]), a[1..], b, rule);
    }
  }

  lemma RunOne(sem: Semantics, w: World, step: Step, rule: (World, Step) -> bool)
    requires Enabled(sem, w, step) && rule(w, step)
    ensures RunOf(sem, w, [step], rule) && Exec(sem, w, [step], rule) == Next(sem, w, step)
  {
    assert [step][1..] == [];
  }

  /** One more step at the end of a run. */
  lemma RunAppend(sem: Semantics, w: World, steps: seq<Step>, rule: (World, Step) -> bool, v: World, step: Step)
    requires RunOf(sem, w, steps, rule) && v == Exec(sem, w, steps, rule) && Enabled(sem, v, step) && rule(v, step)
    ensures RunOf(sem, w, steps + [step], rule) && Exec(sem, w, steps + [step], rule) == Next(sem, v, step)
  {
    RunOne(sem, v, step, rule);
    RunConcat(sem, w, steps, [step], rule);
  }

  /** What a lookup would return is the key's result on the committed database. */
  ghost predicate ServesFresh(sem: Semantics, w: World) {
    forall key :: Lookup(w.memo, key).Some? ==> Lookup(w.memo, key).value == sem.eval(key, w.db)
  }

  ghost function AllowedRule(sem: Semantics): (World, Step) -> bool {
    (w: World, step: Step) => Overlap(sem, w, step) && Guarded(sem, w, step)
  }

  lemma {:induction false} RunKeepsInv(sem: Semantics, w: World, steps: seq<Step>)
    requires Inv(sem, w) && RunOf(sem, w, steps, AllowedRule(sem))
    ensures Inv(sem, Exec(sem, w, steps, AllowedRule(sem)))
    decreases |steps|
  {
    if steps != [] {
      StepKeepsInv(sem, w, steps[0]);
      RunKeepsInv(sem, Next(sem, w, steps[0]), steps[1..]);
    }
  }

  lemma InvServesFresh(sem: Semantics, w: World)
    requires Inv(sem, w)
    ensures ServesFresh(sem, w)
  {
    forall key | Lookup(w.memo, key).Some? ensures Lookup(w.memo, key).value == sem.eval(key, w.db) {
      assert EntryOk(sem, w, key, w.memo.entries[key]);
    }
  }

  /** No stale serve: after any run of frames, captures and serves, in any interleaving the rule allows. */
  lemma NoStaleServe(sem: Semantics, w: World, steps: seq<Step>)
    requires ReadsOnly(sem) && Init(w) && RunOf(sem, w, steps, AllowedRule(sem))
    ensures ServesFresh(sem, Exec(sem, w, steps, AllowedRule(sem)))
  {
    RunKeepsInv(sem, w, steps);
    InvServesFresh(sem, Exec(sem, w, steps, AllowedRule(sem)));
  }

  // ----- the rule is exact -----

  /** No allowed continuation serves stale bytes. */
  ghost predicate SafeFrom(sem: Semantics, w: World) {
    forall steps {:trigger RunOf(sem, w, steps, AllowedRule(sem))} ::
      RunOf(sem, w, steps, AllowedRule(sem)) ==> ServesFresh(sem, Exec(sem, w, steps, AllowedRule(sem)))
  }

  lemma InvIsSafe(sem: Semantics, w: World)
    requires Inv(sem, w)
    ensures SafeFrom(sem, w)
  {
    forall steps | RunOf(sem, w, steps, AllowedRule(sem))
      ensures ServesFresh(sem, Exec(sem, w, steps, AllowedRule(sem)))
    {
      RunKeepsInv(sem, w, steps);
      InvServesFresh(sem, Exec(sem, w, steps, AllowedRule(sem)));
    }
  }

  /** Removing every entry is a run. */
  lemma {:induction false} RemoveAll(sem: Semantics, w: World, rule: (World, Step) -> bool) returns (steps: seq<Step>)
    requires forall v: World, key :: rule(v, Remove(key))
    ensures RunOf(sem, w, steps, rule)
    ensures Exec(sem, w, steps, rule) == w.(memo := w.memo.(entries := map[]))
    decreases |w.memo.entries|
  {
    if w.memo.entries == map[] {
      steps := [];
    } else {
      var key :| key in w.memo.entries;
      RunOne(sem, w, Remove(key), rule);
      var rest := RemoveAll(sem, Next(sem, w, Remove(key)), rule);
      RunConcat(sem, w, [Remove(key)], rest, rule);
      steps := [Remove(key)] + rest;
    }
  }

  /** Raising the rest of the bracket is a run that moves the bracket's slots only. */
  lemma {:induction false} RaiseAll(sem: Semantics, w: World) returns (steps: seq<Step>, end: World)
    requires w.frame.Open? && w.frame.stage.Raising? && w.frame.odd <= Bracket(w.frame)
    ensures RunOf(sem, w, steps, AllowedRule(sem)) && end == Exec(sem, w, steps, AllowedRule(sem))
    ensures end.frame == w.frame.(odd := Bracket(w.frame)) && end.db == w.db && end.captures == w.captures
    ensures end.memo.entries == w.memo.entries
    ensures forall slot :: slot !in Bracket(w.frame) ==> Version(end.memo.epochs, slot) == Version(w.memo.epochs, slot)
    decreases Bracket(w.frame) - w.frame.odd
  {
    var missing := Bracket(w.frame) - w.frame.odd;
    if missing == {} {
      assert w.frame.odd == Bracket(w.frame);
      steps, end := [], w;
    } else {
      var slot :| slot in missing;
      var v := Next(sem, w, FrameRaise(slot));
      RunOne(sem, w, FrameRaise(slot), AllowedRule(sem));
      assert Bracket(v.frame) == Bracket(w.frame) && Bracket(v.frame) - v.frame.odd == missing - {slot};
      var rest;
      rest, end := RaiseAll(sem, v);
      RunConcat(sem, w, [FrameRaise(slot)], rest, AllowedRule(sem));
      steps := [FrameRaise(slot)] + rest;
    }
  }

  /** Into an empty store a fitting capture is inserted, whatever its stamps. */
  lemma InsertIntoEmpty(sem: Semantics, w: World, id: nat)
    requires w.memo.entries == map[] && id in w.captures && w.captures[id].phase.Checked?
    requires Fits(sem, w.captures[id].phase.bytes)
    ensures var c := w.captures[id];
      Next(sem, w, FinishInsert(id)) ==
      w.(memo := w.memo.(entries := map[c.key := FinishedEntry(c)]), captures := w.captures - {id})
  {
    var c := w.captures[id];
    assert w.memo.entries - {c.key} == map[];
    assert map[][c.key := FinishedEntry(c)] == map[c.key := FinishedEntry(c)];
  }

  /** A single stored entry that the frame under way misses is served after the frame commits. */
  lemma CommitPast(sem: Semantics, w: World, key: MemoKey, e: MemoEntry) returns (steps: seq<Step>)
    requires w.memo.entries == map[key := e] && Live(w.memo, e) && e.core == sem.eval(key, w.db)
    requires forall i :: 0 <= i < |e.stamped| ==> e.stamped[i].0 == MemoSlot(key.fingerprint)
    requires Uncommitted(w.frame) && (w.frame.Open? ==> w.frame.odd <= Bracket(w.frame))
    requires Misses(sem, w.db, w.frame.next, w.frame.evictions, key)
    ensures RunOf(sem, w, steps, AllowedRule(sem)) && !ServesFresh(sem, Exec(sem, w, steps, AllowedRule(sem)))
  {
    var rule := AllowedRule(sem);
    var v := w;
    steps := [];
    assert key in w.memo.entries;
    if w.frame.Scanned? {
      RunOne(sem, w, FrameBegin, rule);
      steps, v := [FrameBegin], Next(sem, w, FrameBegin);
    }
    var raise, u := RaiseAll(sem, v);
    RunConcat(sem, w, steps, raise, rule);
    steps := steps + raise;
    RunAppend(sem, w, steps, rule, u, FrameCommit);
    steps := steps + [FrameCommit];
    assert MemoSlot(key.fingerprint) !in Bracket(v.frame);
    assert Lookup(Next(sem, u, FrameCommit).memo, key) == Some(e.core);
  }

  /** A ripe capture that the frame under way misses ends up being served: make room, insert, and let it commit. */
  lemma EscapeRun(sem: Semantics, w: World, id: nat)
    requires id in w.captures && w.captures[id].phase.Checked? && CaptureOk(sem, w.(frame := Idle), w.captures[id])
    requires Ripe(sem, w, w.captures[id])
    requires Uncommitted(w.frame) && (w.frame.Open? ==> w.frame.odd <= Bracket(w.frame))
    requires Misses(sem, w.db, w.frame.next, w.frame.evictions, w.captures[id].key)
    ensures !SafeFrom(sem, w)
  {
    var rule, c := AllowedRule(sem), w.captures[id];
    var steps := RemoveAll(sem, w, rule);
    var v := w.(memo := w.memo.(entries := map[]));
    InsertIntoEmpty(sem, v, id);
    RunAppend(sem, w, steps, rule, v, FinishInsert(id));
    MemoStamps(sem, w.(frame := Idle), c);
    var u := Next(sem, v, FinishInsert(id));
    var rest := CommitPast(sem, u, c.key, FinishedEntry(c));
    RunConcat(sem, w, steps + [FinishInsert(id)], rest, rule);
    assert RunOf(sem, w, steps + [FinishInsert(id)] + rest, rule);
  }

  /** A scan or a check is safe for every allowed continuation if and only if it respects the overlap rule. */
  lemma OverlapExact(sem: Semantics, w: World, step: Step)
    requires Inv(sem, w) && Enabled(sem, w, step) && (step.FrameScan? || step.FinishCheck?)
    ensures SafeFrom(sem, Next(sem, w, step)) <==> Overlap(sem, w, step)
  {
    if Overlap(sem, w, step) {
      StepKeepsInv(sem, w, step);
      InvIsSafe(sem, Next(sem, w, step));
    } else if step.FrameScan? {
      UnsafeScan(sem, w, step);
    } else {
      UnsafeCheck(sem, w, step);
    }
  }

  lemma UnsafeScan(sem: Semantics, w: World, step: Step)
    requires Inv(sem, w) && Enabled(sem, w, step) && step.FrameScan? && !Overlap(sem, w, step)
    ensures !SafeFrom(sem, Next(sem, w, step))
  {
    var id :| id in w.captures && w.captures[id].phase.Checked? && Ripe(sem, w, w.captures[id]) &&
      Misses(sem, w.db, step.next, Evictions(w.memo.entries, step.touched, step.candidates), w.captures[id].key);
    var v := Next(sem, w, step);
    assert CaptureOk(sem, w, w.captures[id]);
    CarryCapture(sem, w, v.(frame := Idle), w.captures[id]);
    EscapeRun(sem, v, id);
  }

  lemma UnsafeCheck(sem: Semantics, w: World, step: Step)
    requires Inv(sem, w) && Enabled(sem, w, step) && step.FinishCheck? && !Overlap(sem, w, step)
    ensures !SafeFrom(sem, Next(sem, w, step))
  {
    var v, c := Next(sem, w, step), w.captures[step.id];
    assert CaptureOk(sem, w, c);
    CarryCapture(sem, w, w.(frame := Idle), c);
    CheckedOk(sem, w.(frame := Idle), c);
    CarryCapture(sem, w.(frame := Idle), v.(frame := Idle), v.captures[step.id]);
    MemoStampsBounded(w.memo.epochs, c.stamped);
    EscapeRun(sem, v, step.id);
  }

  // ----- the gate of the bracket, exactly -----

  lemma {:induction false} SeqOf(oids: set<Oid>) returns (r: seq<Oid>)
    ensures Elems(r) == oids
  {
    if oids == {} {
      r := [];
    } else {
      var o :| o in oids;
      var rest := SeqOf(oids - {o});
      r := [o] + rest;
      assert Elems(r) == {o} + Elems(rest);
    }
  }

  lemma UnusedId(captures: map<nat, Capture>) returns (id: nat)
    ensures id !in captures
  {
    id := AboveAll(captures.Keys);
  }

  lemma {:induction false} AboveAll(ids: set<nat>) returns (top: nat)
    ensures forall i :: i in ids ==> i < top
  {
    if ids == {} {
      top := 0;
    } else {
      var i :| i in ids;
      var rest := AboveAll(ids - {i});
      top := Max(rest, i + 1);
      assert forall j :: j in ids ==> j == i || j in ids - {i};
    }
  }

  /** A capture that has read: its slots stamped as they are. */
  ghost function ReadCapture(sem: Semantics, w: World, key: MemoKey, relations: seq<Oid>): Capture {
    Capture(key, relations, Stamps(w.memo.epochs, CaptureSlots(key, relations)), Read(sem.eval(key, w.db)))
  }

  /** Begin, stamp and read a capture whose slots are all even. */
  lemma CaptureRun(
    sem: Semantics, w: World, key: MemoKey, id: nat, relations: seq<Oid>, slots: seq<SlotKey>,
    rule: (World, Step) -> bool)
    returns (steps: seq<Step>)
    requires forall v: World, s: Step :: s.CaptureBegin? || s.CaptureStamp? || s.CaptureRead? ==> rule(v, s)
    requires sem.budget > 0 && id !in w.captures && Elems(relations) == sem.tables(key.fingerprint)
    requires slots == CaptureSlots(key, relations)
    requires forall i :: 0 <= i < |slots| ==> Version(w.memo.epochs, slots[i]) % 2 == 0
    ensures RunOf(sem, w, steps, rule) && forall i :: 0 <= i < |steps| ==> !steps[i].GcSweep?
    ensures Exec(sem, w, steps, rule) == w.(captures := w.captures[id := ReadCapture(sem, w, key, relations)])
  {
    var begin, stamp := CaptureBegin(id, key, relations), CaptureStamp(id, |slots|);
    RunOne(sem, w, begin, rule);
    var v := Next(sem, w, begin);
    RunAppend(sem, w, [begin], rule, v, stamp);
    var u := Next(sem, v, stamp);
    assert slots[..|slots|] == slots && slots[|slots|..] == [];
    assert [] + Stamps(w.memo.epochs, slots) == Stamps(w.memo.epochs, slots);
    assert u.captures[id] == Capture(key, relations, Stamps(w.memo.epochs, slots), Stamping([]));
    RunAppend(sem, w, [begin] + [stamp], rule, u, CaptureRead(id));
    steps := [begin] + [stamp] + [CaptureRead(id)];
  }

  /** A capture whose stamps all match, under no uncommitted frame and over an empty store, is checked and served. */
  lemma FinishServes(sem: Semantics, w: World, id: nat) returns (steps: seq<Step>)
    requires id in w.captures && w.captures[id].phase.Read? && !Uncommitted(w.frame) && w.memo.entries == map[]
    requires SlotsValid(w.memo.epochs, w.captures[id].stamped) && Fits(sem, w.captures[id].phase.bytes)
    ensures RunOf(sem, w, steps, AllowedRule(sem))
    ensures var v, c := Exec(sem, w, steps, AllowedRule(sem)), w.captures[id];
      v.db == w.db && Lookup(v.memo, c.key) == Some(c.phase.bytes)
  {
    var rule, c := AllowedRule(sem), w.captures[id];
    RunOne(sem, w, FinishCheck(id), rule);
    var v := Next(sem, w, FinishCheck(id));
    InsertIntoEmpty(sem, v, id);
    RunAppend(sem, w, [FinishCheck(id)], rule, v, FinishInsert(id));
    steps := [FinishCheck(id)] + [FinishInsert(id)];
    assert SlotsValid(w.memo.epochs, MemoStampsOnly(c.stamped)) by {
      assert forall i :: 0 <= i < |MemoStampsOnly(c.stamped)| ==> MemoStampsOnly(c.stamped)[i] in c.stamped;
    }
  }

  /** A capture read under an unguarded frame keeps its stamps past the commit, and its bytes are served. */
  lemma CommitPastCapture(sem: Semantics, w: World, id: nat) returns (steps: seq<Step>)
    requires w.frame.Open? && w.frame.stage.Raising? && w.frame.odd <= Bracket(w.frame) && w.memo.entries == map[]
    requires id in w.captures && w.captures[id].phase.Read?
    requires w.captures[id].phase.bytes == sem.eval(w.captures[id].key, w.db)
    requires SlotsValid(w.memo.epochs, w.captures[id].stamped) && Fits(sem, w.captures[id].phase.bytes)
    requires forall i :: 0 <= i < |w.captures[id].stamped| ==> w.captures[id].stamped[i].0 !in Bracket(w.frame)
    requires sem.eval(w.captures[id].key, w.db) != sem.eval(w.captures[id].key, w.frame.next)
    ensures RunOf(sem, w, steps, AllowedRule(sem)) && !ServesFresh(sem, Exec(sem, w, steps, AllowedRule(sem)))
  {
    var rule := AllowedRule(sem);
    var raise, v := RaiseAll(sem, w);
    RunAppend(sem, w, raise, rule, v, FrameCommit);
    var finish := FinishServes(sem, Next(sem, v, FrameCommit), id);
    RunConcat(sem, w, raise + [FrameCommit], finish, rule);
    steps := raise + [FrameCommit] + finish;
  }

  /** With the store empty and a memoizable result about to change, a stale serve is reachable past the gate. */
  lemma UnguardedFrameStale(sem: Semantics, w: World, key: MemoKey)
    requires Parity(w) && w.frame.Scanned? && w.memo.entries == map[] && Fits(sem, sem.eval(key, w.db))
    requires Misses(sem, w.db, w.frame.next, w.frame.evictions, key)
    ensures !SafeFrom(sem, Next(sem, w, FrameBegin))
  {
    var rule, v := AllowedRule(sem), Next(sem, w, FrameBegin);
    var relations := SeqOf(sem.tables(key.fingerprint));
    var slots := CaptureSlots(key, relations);
    forall i | 0 <= i < |slots| ensures slots[i] !in Bracket(v.frame) && Version(v.memo.epochs, slots[i]) % 2 == 0 {
      assert slots[i] !in OpenSlots(w.frame);
    }
    var id := UnusedId(v.captures);
    var capture := CaptureRun(sem, v, key, id, relations, slots, rule);
    var rest := CommitPastCapture(sem, v.(captures := v.captures[id := ReadCapture(sem, v, key, relations)]), id);
    RunConcat(sem, v, capture, rest, rule);
    assert RunOf(sem, v, capture + rest, rule);
  }

  /** Opening the bracket is safe for every allowed continuation if and only if the store is not empty, or the frame
      changes no memoizable result outside the evicted fingerprints. */
  lemma BracketGateExact(sem: Semantics, w: World)
    requires Inv(sem, w) && w.frame.Scanned?
    ensures SafeFrom(sem, Next(sem, w, FrameBegin)) <==>
            w.memo.entries != map[] || Harmless(sem, w.db, w.frame.next, w.frame.evictions)
  {
    if Guarded(sem, w, FrameBegin) {
      StepKeepsInv(sem, w, FrameBegin);
      InvIsSafe(sem, Next(sem, w, FrameBegin));
    } else {
      var key :| Fits(sem, sem.eval(key, w.db)) && Misses(sem, w.db, w.frame.next, w.frame.evictions, key);
      UnguardedFrameStale(sem, w, key);
    }
  }

  // ----- the failing cases are reached from the start -----

  /** One relation, and a result that tells whether it exists. */
  ghost function OneRelation(): Semantics {
    Semantics((key: MemoKey, db: Database) => if At(db, 0).None? then [1] else [2], (fp: Fingerprint) => {0}, 10)
  }

  const FirstKey: MemoKey := MemoKey(0, false, MemoShape(None, None))
  const FirstScan: Step := FrameScan(map[0 := []], {0}, {})

  lemma OneRelationReads()
    ensures ReadsOnly(OneRelation())
  {
    var sem := OneRelation();
    forall key: MemoKey, a: Database, b: Database |
      forall o :: o in sem.tables(key.fingerprint) ==> At(a, o) == At(b, o)
      ensures sem.eval(key, a) == sem.eval(key, b)
    {
      assert 0 in sem.tables(key.fingerprint);
    }
  }

  /** From the start an allowed run reaches a frame whose gate is open to a stale serve: the first one. */
  lemma EmptyStoreStale(w: World) returns (steps: seq<Step>)
    requires w == World(map[], Memo(map[], map[], false), map[], Idle)
    ensures Init(w) && ReadsOnly(OneRelation()) && RunOf(OneRelation(), w, steps, AllowedRule(OneRelation()))
    ensures var v := Exec(OneRelation(), w, steps, AllowedRule(OneRelation()));
      v.frame.Scanned? && !SafeFrom(OneRelation(), Next(OneRelation(), v, FrameBegin))
  {
    var sem := OneRelation();
    OneRelationReads();
    RunOne(sem, w, FirstScan, AllowedRule(sem));
    steps := [FirstScan];
    UnguardedFrameStale(sem, Next(sem, w, FirstScan), FirstKey);
  }

  /** The first capture, read. */
  lemma FirstCapture(w: World) returns (steps: seq<Step>, v: World)
    requires w == World(map[], Memo(map[], map[], false), map[], Idle)
    ensures forall i :: 0 <= i < |steps| ==> !steps[i].GcSweep?
    ensures RunOf(OneRelation(), w, steps, AllowedRule(OneRelation()))
    ensures v == Exec(OneRelation(), w, steps, AllowedRule(OneRelation())) && Inv(OneRelation(), v)
    ensures v == w.(captures := map[0 := ReadCapture(OneRelation(), w, FirstKey, [0])])
    ensures SlotsValid(v.memo.epochs, v.captures[0].stamped)
  {
    var sem := OneRelation();
    OneRelationReads();
    assert Elems([0]) == sem.tables(0);
    steps := CaptureRun(sem, w, FirstKey, 0, [0], CaptureSlots(FirstKey, [0]), AllowedRule(sem));
    RunKeepsInv(sem, w, steps);
    v := Exec(sem, w, steps, AllowedRule(sem));
  }

  /** The first capture, checked. */
  lemma FirstChecked(w: World) returns (steps: seq<Step>, v: World)
    requires w == World(map[], Memo(map[], map[], false), map[], Idle)
    ensures forall i :: 0 <= i < |steps| ==> !steps[i].GcSweep?
    ensures RunOf(OneRelation(), w, steps, AllowedRule(OneRelation()))
    ensures v == Exec(OneRelation(), w, steps, AllowedRule(OneRelation())) && Inv(OneRelation(), v)
    ensures 0 in v.captures && v.captures[0].phase.Checked? && v.captures[0].key == FirstKey
    ensures Ripe(OneRelation(), v, v.captures[0])
    ensures v.db == map[] && v.memo == w.memo && v.frame == Idle
  {
    var sem := OneRelation();
    var before, u := FirstCapture(w);
    RunAppend(sem, w, before, AllowedRule(sem), u, FinishCheck(0));
    StepKeepsInv(sem, u, FinishCheck(0));
    MemoStampsBounded(u.memo.epochs, u.captures[0].stamped);
    steps, v := before + [FinishCheck(0)], Next(sem, u, FinishCheck(0));
  }

  lemma FirstScanMisses(w: World)
    requires w.db == map[] && w.memo.entries == map[] && w.frame == Idle
    ensures Enabled(OneRelation(), w, FirstScan) && Misses(OneRelation(), w.db, FirstScan.next, {}, FirstKey)
    ensures Evictions(w.memo.entries, FirstScan.touched, FirstScan.candidates) == {}
  {
  }

  /** From the start an allowed run reaches a checked capture that the next scan misses: the scan breaks safety. */
  lemma OverlappedScanStale(w: World) returns (steps: seq<Step>)
    requires w == World(map[], Memo(map[], map[], false), map[], Idle)
    ensures RunOf(OneRelation(), w, steps, AllowedRule(OneRelation()))
    ensures var v := Exec(OneRelation(), w, steps, AllowedRule(OneRelation()));
      Enabled(OneRelation(), v, FirstScan) && !SafeFrom(OneRelation(), Next(OneRelation(), v, FirstScan))
  {
    var v;
    steps, v := FirstChecked(w);
    FirstScanMisses(v);
    OverlapExact(OneRelation(), v, FirstScan);
  }

  /** And one reaches a scanned frame that misses a capture about to be checked: the check breaks safety. */
  lemma OverlappedCheckStale(w: World) returns (steps: seq<Step>)
    requires w == World(map[], Memo(map[], map[], false), map[], Idle)
    ensures RunOf(OneRelation(), w, steps, AllowedRule(OneRelation()))
    ensures var v := Exec(OneRelation(), w, steps, AllowedRule(OneRelation()));
      Enabled(OneRelation(), v, FinishCheck(0)) && !SafeFrom(OneRelation(), Next(OneRelation(), v, FinishCheck(0)))
  {
    var before, u := FirstCapture(w);
    FirstScanMisses(u);
    RunAppend(OneRelation(), w, before, AllowedRule(OneRelation()), u, FirstScan);
    StepKeepsInv(OneRelation(), u, FirstScan);
    OverlapExact(OneRelation(), Next(OneRelation(), u, FirstScan), FinishCheck(0));
    steps := before + [FirstScan];
  }

  // ----- the sweep that may be skipped -----

  /** A capture past its check that would be stored stale. */
  predicate Outdated(sem: Semantics, w: World, c: Capture) {
    c.phase.Checked? && Fits(sem, c.phase.bytes) && !SlotsValid(w.memo.epochs, MemoStampsOnly(c.stamped))
  }

  /** A sweep that does something finds no capture that would be stored stale. */
  ghost predicate SafeSweep(sem: Semantics, w: World) {
    w.memo.gcPending ==> forall id :: id in w.captures ==> !Outdated(sem, w, w.captures[id])
  }

  ghost function SweepRule(sem: Semantics): (World, Step) -> bool {
    (w: World, step: Step) => step.GcSweep? ==> SafeSweep(sem, w)
  }

  /** With the flag down every stored entry is live. */
  ghost predicate FlagHonest(w: World) {
    !w.memo.gcPending ==> forall k :: k in w.memo.entries ==> Live(w.memo, w.memo.entries[k])
  }

  ghost predicate GcInv(sem: Semantics, w: World) {
    && Parity(w)
    && (forall id :: id in w.captures ==> StampsBounded(w.memo.epochs, w.captures[id].stamped))
    && (forall k :: k in w.memo.entries ==> StampsBounded(w.memo.epochs, w.memo.entries[k].stamped))
    && FlagHonest(w)
    && (!w.memo.gcPending ==> forall id :: id in w.captures ==> !Outdated(sem, w, w.captures[id]))
  }

  /** Moving a slot that is odd leaves matching even stamps matching. */
  lemma ReleaseKeepsValid(epochs: Epochs, slot: SlotKey, stamped: seq<(SlotKey, nat)>)
    requires Version(epochs, slot) % 2 == 1 && StampsBounded(epochs, stamped)
    ensures SlotsValid(epochs, stamped) ==> SlotsValid(Bump(epochs, slot), stamped)
  {
  }

  lemma BoundsAdvance(sem: Semantics, w: World, w': World)
    requires GcInv(sem, w) && Advanced(w.memo.epochs, w'.memo.epochs)
    requires w'.captures == w.captures && w'.memo.entries == w.memo.entries
    ensures forall id :: id in w'.captures ==> StampsBounded(w'.memo.epochs, w'.captures[id].stamped)
    ensures forall k :: k in w'.memo.entries ==> StampsBounded(w'.memo.epochs, w'.memo.entries[k].stamped)
  {
    forall id | id in w'.captures ensures StampsBounded(w'.memo.epochs, w'.captures[id].stamped) {
      StaleForever(w.memo.epochs, w'.memo.epochs, w.captures[id].stamped);
    }
    forall k | k in w'.memo.entries ensures StampsBounded(w'.memo.epochs, w'.memo.entries[k].stamped) {
      StaleForever(w.memo.epochs, w'.memo.epochs, w.memo.entries[k].stamped);
    }
  }

  lemma SlotKeepsGc(sem: Semantics, w: World, step: Step)
    requires GcInv(sem, w) && Enabled(sem, w, step) && (step.FrameRaise? || step.FrameRelease? || step.QueryEvict?)
    ensures GcInv(sem, Next(sem, w, step))
  {
    var w' := Next(sem, w, step);
    StepAdvances(sem, w, step);
    BoundsAdvance(sem, w, w');
    if step.QueryEvict? { EvictParity(sem, w, step.fp, w'); } else { SlotParity(sem, w, step, w'); }
    if step.FrameRelease? && !w.memo.gcPending {
      assert Version(w.memo.epochs, step.slot) % 2 == 1;
      forall k | k in w'.memo.entries ensures Live(w'.memo, w'.memo.entries[k]) {
        ReleaseKeepsValid(w.memo.epochs, step.slot, w.memo.entries[k].stamped);
      }
      forall id | id in w'.captures ensures !Outdated(sem, w', w'.captures[id]) {
        MemoStampsBounded(w.memo.epochs, w.captures[id].stamped);
        ReleaseKeepsValid(w.memo.epochs, step.slot, MemoStampsOnly(w.captures[id].stamped));
        assert !Outdated(sem, w, w.captures[id]);
      }
    }
  }

  lemma InsertKeepsGc(sem: Semantics, w: World, step: Step)
    requires GcInv(sem, w) && Enabled(sem, w, step) && step.FinishInsert?
    ensures GcInv(sem, Next(sem, w, step))
  {
    var w', c := Next(sem, w, step), w.captures[step.id];
    MemoStampsBounded(w.memo.epochs, c.stamped);
    forall k | k in w'.memo.entries
      ensures StampsBounded(w'.memo.epochs, w'.memo.entries[k].stamped)
      ensures !w'.memo.gcPending ==> Live(w'.memo, w'.memo.entries[k])
    {
      if k in w.memo.entries && w'.memo.entries[k] == w.memo.entries[k] {
        assert StampsBounded(w.memo.epochs, w.memo.entries[k].stamped);
      } else {
        assert w'.memo.entries[k] == FinishedEntry(c) && (!w.memo.gcPending ==> !Outdated(sem, w, c));
      }
    }
  }

  lemma CaptureKeepsGc(sem: Semantics, w: World, step: Step)
    requires GcInv(sem, w) && Enabled(sem, w, step) && (step.CaptureStamp? || step.FinishCheck?)
    ensures GcInv(sem, Next(sem, w, step))
  {
    var w', c := Next(sem, w, step), w.captures[step.id];
    if step.CaptureStamp? {
      assert StampsBounded(w.memo.epochs, w'.captures[step.id].stamped) by {
        assert StampsBounded(w.memo.epochs, Stamps(w.memo.epochs, c.phase.todo[..step.count]));
      }
    } else {
      MemoStampsBounded(w.memo.epochs, c.stamped);
    }
  }

  lemma OtherStepKeepsGc(sem: Semantics, w: World, step: Step)
    requires GcInv(sem, w) && Enabled(sem, w, step) && SweepRule(sem)(w, step)
    requires !step.FrameRaise? && !step.FrameRelease? && !step.QueryEvict?
    requires !step.FinishInsert? && !step.CaptureStamp? && !step.FinishCheck?
    ensures GcInv(sem, Next(sem, w, step))
  {
    var w' := Next(sem, w, step);
    assert w'.memo.epochs == w.memo.epochs && OpenSlots(w'.frame) == OpenSlots(w.frame);
    assert Parity(w');
  }

  lemma StepKeepsGc(sem: Semantics, w: World, step: Step)
    requires GcInv(sem, w) && Enabled(sem, w, step) && SweepRule(sem)(w, step)
    ensures GcInv(sem, Next(sem, w, step))
  {
    if step.FrameRaise? || step.FrameRelease? || step.QueryEvict? {
      SlotKeepsGc(sem, w, step);
    } else if step.FinishInsert? {
      InsertKeepsGc(sem, w, step);
    } else if step.CaptureStamp? || step.FinishCheck? {
      CaptureKeepsGc(sem, w, step);
    } else {
      OtherStepKeepsGc(sem, w, step);
    }
  }

  lemma {:induction false} RunKeepsGc(sem: Semantics, w: World, steps: seq<Step>)
    requires GcInv(sem, w) && RunOf(sem, w, steps, SweepRule(sem))
    ensures GcInv(sem, Exec(sem, w, steps, SweepRule(sem)))
    decreases |steps|
  {
    if steps != [] {
      StepKeepsGc(sem, w, steps[0]);
      RunKeepsGc(sem, Next(sem, w, steps[0]), steps[1..]);
    }
  }

  /** Skipping the sweep loses nothing: in every run whose sweeps find no capture that would be stored stale, whenever
      the flag is down every stored entry is live. */
  lemma GcSkipLosesNothing(sem: Semantics, w: World, steps: seq<Step>)
    requires Init(w) && RunOf(sem, w, steps, SweepRule(sem))
    ensures FlagHonest(Exec(sem, w, steps, SweepRule(sem)))
  {
    RunKeepsGc(sem, w, steps);
  }

  /** No continuation with such sweeps leaves a stale entry behind a lowered flag. */
  ghost predicate HonestFrom(sem: Semantics, w: World) {
    forall steps {:trigger RunOf(sem, w, steps, SweepRule(sem))} ::
      RunOf(sem, w, steps, SweepRule(sem)) ==> FlagHonest(Exec(sem, w, steps, SweepRule(sem)))
  }

  /** A sweep is safe for every continuation if and only if the flag is down already, or no fitting capture past its
      check has an outdated fingerprint stamp. */
  lemma SweepExact(sem: Semantics, w: World)
    requires GcInv(sem, w)
    ensures HonestFrom(sem, Next(sem, w, GcSweep)) <==> SafeSweep(sem, w)
  {
    var v := Next(sem, w, GcSweep);
    if SafeSweep(sem, w) {
      StepKeepsGc(sem, w, GcSweep);
      forall steps | RunOf(sem, v, steps, SweepRule(sem)) ensures FlagHonest(Exec(sem, v, steps, SweepRule(sem))) {
        RunKeepsGc(sem, v, steps);
      }
    } else {
      var id :| id in w.captures && Outdated(sem, w, w.captures[id]);
      StaleInsert(sem, v, id);
    }
  }

  /** With the flag down, a capture that would be stored stale is: make room and insert. */
  lemma StaleInsert(sem: Semantics, w: World, id: nat)
    requires !w.memo.gcPending && id in w.captures && Outdated(sem, w, w.captures[id])
    ensures !HonestFrom(sem, w)
  {
    var rule, c := SweepRule(sem), w.captures[id];
    var steps := RemoveAll(sem, w, rule);
    var v := w.(memo := w.memo.(entries := map[]));
    InsertIntoEmpty(sem, v, id);
    RunAppend(sem, w, steps, rule, v, FinishInsert(id));
    var end := Next(sem, v, FinishInsert(id));
    assert c.key in end.memo.entries && !Live(end.memo, end.memo.entries[c.key]);
    assert RunOf(sem, w, steps + [FinishInsert(id)], rule);
  }

  /** Evicting a checked capture's query outdates the capture. */
  lemma EvictOutdates(sem: Semantics, w: World, id: nat)
    requires id in w.captures && CaptureOk(sem, w, w.captures[id]) && w.captures[id].phase.Checked?
    requires Fits(sem, w.captures[id].phase.bytes)
    ensures Outdated(sem, Next(sem, w, QueryEvict(w.captures[id].key.fingerprint)), w.captures[id])
  {
    var c := w.captures[id];
    MemoStamps(sem, w, c);
    var stamp := MemoStampsOnly(c.stamped)[0];
    assert stamp.1 <= Version(w.memo.epochs, stamp.0);
  }

  /** A run of captures and checks sweeps nothing. */
  lemma {:induction false} SweepFree(sem: Semantics, w: World, steps: seq<Step>)
    requires RunOf(sem, w, steps, AllowedRule(sem)) && forall i :: 0 <= i < |steps| ==> !steps[i].GcSweep?
    ensures RunOf(sem, w, steps, SweepRule(sem))
    ensures Exec(sem, w, steps, SweepRule(sem)) == Exec(sem, w, steps, AllowedRule(sem))
    decreases |steps|
  {
    if steps != [] { SweepFree(sem, Next(sem, w, steps[0]), steps[1..]); }
  }

  /** From the start a run with safe sweeps reaches one that is not: an eviction inside a finish, then the sweep. */
  lemma UnsafeSweepReached(w: World) returns (steps: seq<Step>)
    requires w == World(map[], Memo(map[], map[], false), map[], Idle)
    ensures Init(w) && RunOf(OneRelation(), w, steps, SweepRule(OneRelation()))
    ensures var v := Exec(OneRelation(), w, steps, SweepRule(OneRelation()));
      GcInv(OneRelation(), v) && !HonestFrom(OneRelation(), Next(OneRelation(), v, GcSweep))
  {
    var sem := OneRelation();
    var before, u := FirstChecked(w);
    SweepFree(sem, w, before);
    EvictOutdates(sem, u, 0);
    RunAppend(sem, w, before, SweepRule(sem), u, QueryEvict(0));
    steps := before + [QueryEvict(0)];
    RunKeepsGc(sem, w, steps);
    SweepExact(sem, Next(sem, u, QueryEvict(0)));
  }

  /** A stale entry is stale for good, whatever runs afterwards. */
  lemma {:induction false} StaleStaysStale(
    sem: Semantics, w: World, steps: seq<Step>, rule: (World, Step) -> bool, e: MemoEntry)
    requires RunOf(sem, w, steps, rule) && StampsBounded(w.memo.epochs, e.stamped) && !Live(w.memo, e)
    ensures !Live(Exec(sem, w, steps, rule).memo, e)
    decreases |steps|
  {
    if steps != [] {
      StepAdvances(sem, w, steps[0]);
      StaleForever(w.memo.epochs, Next(sem, w, steps[0]).memo.epochs, e.stamped);
      StaleStaysStale(sem, Next(sem, w, steps[0]), steps[1..], rule, e);
    }
  }

  // ----- what is served stays served -----

  /** The step moves the key's fingerprint slot, removes the key's entry or stores a new one. */
  predicate Disturbs(w: World, step: Step, key: MemoKey) {
    match step
    case FinishInsert(id) => id in w.captures && w.captures[id].key == key
    case FrameRaise(slot) => slot == MemoSlot(key.fingerprint)
    case FrameRelease(slot) => slot == MemoSlot(key.fingerprint)
    case QueryEvict(fp) => fp == key.fingerprint
    case Remove(k) => k == key
    case _ => false
  }

  function UndisturbedRule(key: MemoKey): (World, Step) -> bool {
    (w: World, step: Step) => !Disturbs(w, step, key)
  }

  /** The key's entry is stamped with the key's own fingerprint slot. */
  predicate OwnStamps(memo: Memo, key: MemoKey) {
    key in memo.entries ==> forall p :: p in memo.entries[key].stamped ==> p.0 == MemoSlot(key.fingerprint)
  }

  /** A lookup's eviction and a sweep change no lookup, drop only entries that are not live, and add none. */
  lemma SweepsKeepLookups(sem: Semantics, w: World, step: Step, key: MemoKey)
    requires step.LazyEvict? || step.GcSweep?
    ensures var before, after := w.memo, Next(sem, w, step).memo;
      && Lookup(after, key) == Lookup(before, key)
      && (key in after.entries ==> key in before.entries && after.entries[key] == before.entries[key])
      && (key in before.entries && key !in after.entries <==>
            && key in before.entries && !Live(before, before.entries[key])
            && if step.LazyEvict? then step.key == key else before.gcPending)
  {
  }

  lemma UndisturbedLookup(sem: Semantics, w: World, step: Step, key: MemoKey)
    requires Enabled(sem, w, step) && !Disturbs(w, step, key) && OwnStamps(w.memo, key)
    ensures var after := Next(sem, w, step).memo;
      OwnStamps(after, key) && Lookup(after, key) == Lookup(w.memo, key)
  {
    var after := Next(sem, w, step).memo;
    if step.LazyEvict? || step.GcSweep? {
      SweepsKeepLookups(sem, w, step, key);
    } else if key in w.memo.entries {
      var stamped := w.memo.entries[key].stamped;
      assert forall i :: 0 <= i < |stamped| ==> stamped[i] in stamped;
      assert forall i :: 0 <= i < |stamped| ==>
        Version(after.epochs, stamped[i].0) == Version(w.memo.epochs, stamped[i].0);
    }
  }

  /** A memoized result is served, the same bytes, through any run of serves, sweeps, captures, evictions and frames
      that neither moves its fingerprint's slot nor removes or replaces its entry. */
  lemma {:induction false} HitPersists(sem: Semantics, w: World, steps: seq<Step>, key: MemoKey)
    requires RunOf(sem, w, steps, UndisturbedRule(key)) && OwnStamps(w.memo, key)
    ensures Lookup(Exec(sem, w, steps, UndisturbedRule(key)).memo, key) == Lookup(w.memo, key)
    decreases |steps|
  {
    if steps != [] {
      UndisturbedLookup(sem, w, steps[0], key);
      HitPersists(sem, Next(sem, w, steps[0]), steps[1..], key);
    }
  }

  /** In every reachable state the entries are so stamped. */
  lemma ReachedStamps(sem: Semantics, w: World, steps: seq<Step>, key: MemoKey)
    requires ReadsOnly(sem) && Init(w) && RunOf(sem, w, steps, AllowedRule(sem))
    ensures OwnStamps(Exec(sem, w, steps, AllowedRule(sem)).memo, key)
  {
    RunKeepsInv(sem, w, steps);
    var v := Exec(sem, w, steps, AllowedRule(sem));
    if key in v.memo.entries { assert EntryOk(sem, v, key, v.memo.entries[key]); }
  }

  // ----- the byte budget -----

  lemma StepKeepsBudget(sem: Semantics, w: World, step: Step)
    requires Enabled(sem, w, step) && TotalBytes(w.memo.entries) <= sem.budget
    ensures TotalBytes(Next(sem, w, step).memo.entries) <= sem.budget
  {
    var after := Next(sem, w, step).memo.entries;
    if step.FinishInsert? {
      var c := w.captures[step.id];
      SumUpdate(w.memo.entries, Size(), c.key, FinishedEntry(c));
    } else {
      FewerBytes(after, w.memo.entries);
    }
  }

  /** In every reachable state, whatever is interleaved, the stored bytes are within the budget. */
  lemma {:induction false} RunWithinBudget(sem: Semantics, w: World, steps: seq<Step>, rule: (World, Step) -> bool)
    requires RunOf(sem, w, steps, rule) && TotalBytes(w.memo.entries) <= sem.budget
    ensures TotalBytes(Exec(sem, w, steps, rule).memo.entries) <= sem.budget
    decreases |steps|
  {
    if steps != [] {
      StepKeepsBudget(sem, w, steps[0]);
      RunWithinBudget(sem, Next(sem, w, steps[0]), steps[1..], rule);
    }
  }
}
