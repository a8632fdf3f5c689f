/** The in-process result memo (src/cache/memo.rs): keys, entries and the value each call computes. */
module MemoSpec {
  import opened Common

  type Oid = nat
  type Fingerprint = nat
  newtype byte = x: int | 0 <= x < 256
  type Bytes = seq<byte>

  const MAX_MEMO_ENTRY_BYTES: nat := 128 * 1024

  datatype SlotKey =
    | MemoSlot(fingerprint: Fingerprint)
    | RelationSlot(oid: Oid)
    | RelationMembershipSlot(oid: Oid)
    | RelationColumnSlot(oid: Oid, attnum: nat)

  datatype MemoShape = MemoShape(limit: Option<nat>, offset: Option<nat>)
  datatype MemoKey = MemoKey(fingerprint: Fingerprint, binary: bool, shape: MemoShape)
  datatype MemoEntry = MemoEntry(core: Bytes, rdLen: nat, stamped: seq<(SlotKey, nat)>, relations: seq<Oid>)

  type Entries = map<MemoKey, MemoEntry>
  type Epochs = map<SlotKey, nat>
  type Index = map<Oid, map<Fingerprint, nat>>

  /** What a client of the memo can observe. The relation index and the byte total are derived from it. */
  datatype Memo = Memo(entries: Entries, epochs: Epochs, gcPending: bool)

  // ----- seqlock slots -----

  function Version(epochs: Epochs, slot: SlotKey): nat {
    if slot in epochs then epochs[slot] else 0
  }

  function Bump(epochs: Epochs, slot: SlotKey): Epochs {
    epochs[slot := Version(epochs, slot) + 1]
  }

  predicate SlotsValid(epochs: Epochs, stamped: seq<(SlotKey, nat)>) {
    forall i :: 0 <= i < |stamped| ==> Version(epochs, stamped[i].0) == stamped[i].1
  }

  predicate Live(memo: Memo, entry: MemoEntry) {
    SlotsValid(memo.epochs, entry.stamped)
  }

  // ----- derived quantities -----

  ghost function Size(): (MemoKey, MemoEntry) -> nat {
    (k: MemoKey, e: MemoEntry) => |e.core|
  }

  /** How often an entry counts towards `fp` over `oid`. */
  ghost function Weight(oid: Oid, fp: Fingerprint): (MemoKey, MemoEntry) -> nat {
    (k: MemoKey, e: MemoEntry) => if k.fingerprint == fp then multiset(e.relations)[oid] else 0
  }

  ghost function TotalBytes(entries: Entries): nat { Sum(entries, Size()) }

  ghost function Refs(entries: Entries, oid: Oid, fp: Fingerprint): nat { Sum(entries, Weight(oid, fp)) }

  /** Some stored entry of `fp` reads `oid`. */
  ghost predicate Memoized(entries: Entries, oid: Oid, fp: Fingerprint) {
    exists k :: k in entries && k.fingerprint == fp && oid in entries[k].relations
  }

  /** Fewer entries never hold more bytes. */
  lemma {:induction false} FewerBytes(small: Entries, big: Entries)
    requires forall k :: k in small ==> k in big && small[k] == big[k]
    ensures TotalBytes(small) <= TotalBytes(big)
    decreases |small|
  {
    if small != map[] {
      var k :| k in small;
      FewerBytes(small - {k}, big - {k});
      SumRemove(small, Size(), k);
      SumRemove(big, Size(), k);
    }
  }

  function IndexCount(index: Index, oid: Oid, fp: Fingerprint): nat {
    if oid in index && fp in index[oid] then index[oid][fp] else 0
  }

  /** No zero count and no empty bucket is kept. */
  predicate Tight(index: Index) {
    forall oid :: oid in index ==>
      index[oid] != map[] && forall fp :: fp in index[oid] ==> index[oid][fp] > 0
  }

  /** The index holds exactly the number of stored entries of each fingerprint over each relation. */
  ghost predicate IndexExact(index: Index, entries: Entries) {
    Tight(index) && forall oid, fp :: IndexCount(index, oid, fp) == Refs(entries, oid, fp)
  }

  // ----- what each call does to the observable memo -----

  ghost predicate InsertAccepted(entries: Entries, budget: nat, key: MemoKey, entry: MemoEntry) {
    budget > 0 && |entry.core| <= MAX_MEMO_ENTRY_BYTES
    && TotalBytes(entries - {key}) + |entry.core| <= budget
  }

  ghost function Insert(memo: Memo, budget: nat, key: MemoKey, entry: MemoEntry): Memo {
    if InsertAccepted(memo.entries, budget, key, entry) then memo.(entries := memo.entries[key := entry]) else memo
  }

  function Lookup(memo: Memo, key: MemoKey): Option<Bytes> {
    if key in memo.entries && Live(memo, memo.entries[key]) then Some(memo.entries[key].core) else None
  }

  function EvictStale(memo: Memo, key: MemoKey): Memo {
    if key in memo.entries && !Live(memo, memo.entries[key]) then memo.(entries := memo.entries - {key}) else memo
  }

  function LiveEntries(memo: Memo): Entries {
    map k | k in memo.entries && Live(memo, memo.entries[k]) :: memo.entries[k]
  }

  function Gc(memo: Memo): Memo {
    if memo.gcPending then Memo(LiveEntries(memo), memo.epochs, false) else memo
  }

  /** The stored part of a capture's stamps: the relation guards are dropped. */
  function MemoStampsOnly(stamped: seq<(SlotKey, nat)>): (r: seq<(SlotKey, nat)>)
    ensures forall p :: p in r <==> p in stamped && p.0.MemoSlot?
  {
    if stamped == [] then []
    else if stamped[0].0.MemoSlot? then [stamped[0]] + MemoStampsOnly(stamped[1..])
    else MemoStampsOnly(stamped[1..])
  }

  // ----- index maintenance -----

  function IncrOne(index: Index, oid: Oid, fp: Fingerprint): Index {
    var bucket := if oid in index then index[oid] else map[];
    index[oid := bucket[fp := IndexCount(index, oid, fp) + 1]]
  }

  function DecrOne(index: Index, oid: Oid, fp: Fingerprint): Index {
    if oid !in index then index
    else
      var left: map<Fingerprint, nat> :=
        if fp !in index[oid] then index[oid]
        else if index[oid][fp] <= 1 then index[oid] - {fp}
        else index[oid][fp := index[oid][fp] - 1];
      if left == map[] then index - {oid} else index[oid := left]
  }

  function IncrAll(index: Index, relations: seq<Oid>, fp: Fingerprint): Index {
    if relations == [] then index
    else IncrOne(IncrAll(index, relations[..|relations| - 1], fp), relations[|relations| - 1], fp)
  }

  function DecrAll(index: Index, relations: seq<Oid>, fp: Fingerprint): Index {
    if relations == [] then index
    else DecrOne(DecrAll(index, relations[..|relations| - 1], fp), relations[|relations| - 1], fp)
  }

  lemma IncrOneCounts(index: Index, oid: Oid, fp: Fingerprint)
    requires Tight(index)
    ensures Tight(IncrOne(index, oid, fp))
    ensures forall o, f :: IndexCount(IncrOne(index, oid, fp), o, f) ==
                           IndexCount(index, o, f) + if o == oid && f == fp then 1 else 0
  {
    var bucket := IncrOne(index, oid, fp)[oid];
    assert fp in bucket;
    assert forall f :: f in bucket ==> f == fp || (oid in index && f in index[oid]);
  }

  lemma DecrOneCounts(index: Index, oid: Oid, fp: Fingerprint)
    requires Tight(index) && IndexCount(index, oid, fp) > 0
    ensures Tight(DecrOne(index, oid, fp))
    ensures forall o, f :: IndexCount(DecrOne(index, oid, fp), o, f) ==
                           IndexCount(index, o, f) - if o == oid && f == fp then 1 else 0
  {
    var n := index[oid][fp];
    var left: map<Fingerprint, nat> := if n <= 1 then index[oid] - {fp} else index[oid][fp := n - 1];
    assert forall f :: f in index[oid] && f != fp ==> f in left && left[f] == index[oid][f];
    assert forall f :: f in left ==> f in index[oid];
  }

  lemma {:induction false} IncrAllCounts(index: Index, relations: seq<Oid>, fp: Fingerprint)
    requires Tight(index)
    ensures Tight(IncrAll(index, relations, fp))
    ensures forall o, f :: IndexCount(IncrAll(index, relations, fp), o, f) ==
                           IndexCount(index, o, f) + if f == fp then multiset(relations)[o] else 0
  {
    if relations != [] {
      var init := relations[..|relations| - 1];
      IncrAllCounts(index, init, fp);
      IncrOneCounts(IncrAll(index, init, fp), relations[|relations| - 1], fp);
      assert relations == init + [relations[|relations| - 1]];
    }
  }

  /** The saturating decrement never bites: every count it meets covers what is subtracted. */
  lemma {:induction false} DecrAllCounts(index: Index, relations: seq<Oid>, fp: Fingerprint)
    requires Tight(index)
    requires forall o :: IndexCount(index, o, fp) >= multiset(relations)[o]
    ensures Tight(DecrAll(index, relations, fp))
    ensures forall o, f :: IndexCount(DecrAll(index, relations, fp), o, f) ==
                           IndexCount(index, o, f) - if f == fp then multiset(relations)[o] else 0
  {
    if relations != [] {
      var init := relations[..|relations| - 1];
      assert relations == init + [relations[|relations| - 1]];
      forall o ensures IndexCount(index, o, fp) >= multiset(init)[o] {
        assert IndexCount(index, o, fp) >= multiset(relations)[o];
      }
      DecrAllCounts(index, init, fp);
      var last := relations[|relations| - 1];
      assert IndexCount(index, last, fp) >= multiset(relations)[last];
      DecrOneCounts(DecrAll(index, init, fp), last, fp);
    }
  }

  /** Membership in the index is exactly "some stored entry of this fingerprint reads the relation". */
  lemma IndexMembership(index: Index, entries: Entries, oid: Oid, fp: Fingerprint)
    requires IndexExact(index, entries)
    ensures (oid in index && fp in index[oid]) <==> Memoized(entries, oid, fp)
  {
    assert IndexCount(index, oid, fp) == Refs(entries, oid, fp);
    SumZero(entries, Weight(oid, fp));
    if Memoized(entries, oid, fp) {
      var k :| k in entries && k.fingerprint == fp && oid in entries[k].relations;
      assert Weight(oid, fp)(k, entries[k]) > 0;
    }
  }

  /** With duplicate-free relation lists the stored count is a number of entries. */
  lemma {:induction false} RefsCountEntries(entries: Entries, oid: Oid, fp: Fingerprint)
    requires forall k :: k in entries ==> forall o :: multiset(entries[k].relations)[o] <= 1
    ensures Refs(entries, oid, fp) == |set k | k in entries && k.fingerprint == fp && oid in entries[k].relations|
    decreases |entries|
  {
    var over := set k | k in entries && k.fingerprint == fp && oid in entries[k].relations;
    if entries != map[] {
      var p :| p in entries;
      var rest := entries - {p};
      SumRemove(entries, Weight(oid, fp), p);
      RefsCountEntries(rest, oid, fp);
      var overRest := set k | k in rest && k.fingerprint == fp && oid in rest[k].relations;
      assert overRest == over - {p};
      assert multiset(entries[p].relations)[oid] <= 1;
    }
  }

  /** Dropping an entry and un-counting its relations keeps the index exact. */
  lemma DropKeepsExact(index: Index, entries: Entries, key: MemoKey)
    requires IndexExact(index, entries) && key in entries
    ensures IndexExact(DecrAll(index, entries[key].relations, key.fingerprint), entries - {key})
  {
    var fp, rs := key.fingerprint, entries[key].relations;
    forall o, f ensures Refs(entries, o, f) ==
                        Refs(entries - {key}, o, f) + if f == fp then multiset(rs)[o] else 0
    {
      SumRemove(entries, Weight(o, f), key);
    }
    forall o ensures IndexCount(index, o, fp) >= multiset(rs)[o] {
      assert IndexCount(index, o, fp) == Refs(entries, o, fp);
    }
    DecrAllCounts(index, rs, fp);
    forall o, f ensures IndexCount(DecrAll(index, rs, fp), o, f) == Refs(entries - {key}, o, f) {
      assert IndexCount(index, o, f) == Refs(entries, o, f);
    }
  }

  /** Counting a new entry first and un-counting the replaced one afterwards keeps the index exact. */
  lemma PutKeepsExact(index: Index, entries: Entries, key: MemoKey, entry: MemoEntry)
    requires IndexExact(index, entries)
    ensures var counted := IncrAll(index, entry.relations, key.fingerprint);
            IndexExact(if key in entries then DecrAll(counted, entries[key].relations, key.fingerprint) else counted,
                       entries[key := entry])
  {
    var fp := key.fingerprint;
    var counted := IncrAll(index, entry.relations, fp);
    IncrAllCounts(index, entry.relations, fp);
    forall o, f ensures IndexCount(index, o, f) == Refs(entries, o, f)
                && Refs(entries[key := entry], o, f) == Weight(o, f)(key, entry) + Refs(entries - {key}, o, f)
    {
      SumUpdate(entries, Weight(o, f), key, entry);
    }
    if key in entries {
      var rs := entries[key].relations;
      forall o, f ensures Refs(entries, o, f) == Weight(o, f)(key, entries[key]) + Refs(entries - {key}, o, f) {
        SumRemove(entries, Weight(o, f), key);
      }
      forall o ensures IndexCount(counted, o, fp) >= multiset(rs)[o] {
        assert IndexCount(index, o, fp) == Refs(entries, o, fp);
      }
      DecrAllCounts(counted, rs, fp);
    } else {
      assert entries - {key} == entries;
    }
  }
}

/** The memo as the object the writer, the workers and the connections share. */
module MemoStore {
  import opened Common
  import opened MemoSpec

  datatype MemoHit = MemoHit(core: Bytes, rdLen: nat)

  class ResultMemo {
    var entries: Entries
    var slotEpochs: Epochs
    var relationFingerprints: Index
    var totalBytes: nat
    var gcPending: bool

    ghost function Abs(): Memo
      reads this
    {
      Memo(entries, slotEpochs, gcPending)
    }

    /** Both derived structures agree with the stored entries. */
    ghost predicate Valid()
      reads this
    {
      IndexExact(relationFingerprints, entries) && totalBytes == TotalBytes(entries)
    }

    constructor ()
      ensures Valid() && Abs() == Memo(map[], map[], false)
    {
      entries, slotEpochs, relationFingerprints := map[], map[], map[];
      totalBytes, gcPending := 0, false;
    }

    method SlotDirtyBegin(slot: SlotKey)
      requires Valid()
      modifies this`slotEpochs, this`gcPending
      ensures Valid() && Abs() == Memo(old(entries), Bump(old(slotEpochs), slot), true)
      ensures forall s :: Version(slotEpochs, s) == old(Version(slotEpochs, s)) + if s == slot then 1 else 0
    {
      slotEpochs := slotEpochs[slot := Version(slotEpochs, slot) + 1];
      gcPending := true;
    }

    method SlotDirtyEnd(slot: SlotKey)
      requires Valid()
      modifies this`slotEpochs
      ensures Valid() && Abs() == old(Abs()).(epochs := Bump(old(slotEpochs), slot))
      ensures forall s :: Version(slotEpochs, s) == old(Version(slotEpochs, s)) + if s == slot then 1 else 0
    {
      slotEpochs := slotEpochs[slot := Version(slotEpochs, slot) + 1];
    }

    /** Refuses exactly when some slot is mid-write; otherwise every stamp is the current, even version. */
    method SlotsStamp(slots: seq<SlotKey>) returns (stamps: Option<seq<(SlotKey, nat)>>)
      ensures stamps.None? <==> exists slot :: slot in slots && Version(slotEpochs, slot) % 2 == 1
      ensures stamps.Some? ==> |stamps.value| == |slots| && SlotsValid(slotEpochs, stamps.value)
      ensures stamps.Some? ==>
        forall i :: 0 <= i < |slots| ==> stamps.value[i].0 == slots[i] && stamps.value[i].1 % 2 == 0
    {
      var out := [];
      for i := 0 to |slots|
        invariant |out| == i && SlotsValid(slotEpochs, out)
        invariant forall j :: 0 <= j < i ==> out[j].0 == slots[j] && out[j].1 % 2 == 0
      {
        var version := Version(slotEpochs, slots[i]);
        if version % 2 != 0 {
          return None;
        }
        out := out + [(slots[i], version)];
      }
      return Some(out);
    }

    method SlotsCheck(stamped: seq<(SlotKey, nat)>) returns (valid: bool)
      ensures valid == SlotsValid(slotEpochs, stamped)
    {
      for i := 0 to |stamped|
        invariant SlotsValid(slotEpochs, stamped[..i])
      {
        if Version(slotEpochs, stamped[i].0) != stamped[i].1 {
          return false;
        }
      }
      assert stamped[..|stamped|] == stamped;
      return true;
    }

    /** A hit is a live entry's bytes; a stale entry is dropped and reported as a miss. Nothing else goes: every lookup
        that follows returns what it would have returned before. */
    method Get(key: MemoKey) returns (hit: Option<MemoHit>)
      requires Valid()
      modifies this`entries, this`relationFingerprints, this`totalBytes
      ensures Valid() && Abs() == EvictStale(old(Abs()), key)
      ensures totalBytes <= old(totalBytes)
      ensures forall k :: Lookup(Abs(), k) == Lookup(old(Abs()), k)
      ensures key in entries <==> key in old(entries) && Live(old(Abs()), old(entries)[key])
      ensures forall k :: k != key ==> (k in entries <==> k in old(entries))
      ensures forall k :: k in entries ==> entries[k] == old(entries)[k]
      ensures hit.Some? <==> Lookup(old(Abs()), key).Some?
      ensures hit.Some? ==>
        hit.value.core == Lookup(old(Abs()), key).value && hit.value.rdLen == old(entries[key].rdLen)
    {
      if key !in entries {
        return None;
      }
      var live := SlotsCheck(entries[key].stamped);
      if live {
        return Some(MemoHit(entries[key].core, entries[key].rdLen));
      }
      Remove(key);
      return None;
    }

    /** Stores the entry iff it fits; the byte total can only pass the budget by having been past it before. */
    method Insert(budget: nat, key: MemoKey, entry: MemoEntry) returns (stored: bool)
      requires Valid()
      modifies this`entries, this`relationFingerprints, this`totalBytes
      ensures Valid() && Abs() == MemoSpec.Insert(old(Abs()), budget, key, entry)
      ensures stored <==> budget > 0 && |entry.core| <= MAX_MEMO_ENTRY_BYTES
                          && TotalBytes(old(entries) - {key}) + |entry.core| <= budget
      ensures entries == if stored then old(entries)[key := entry] else old(entries)
      ensures totalBytes <= Max(old(totalBytes), budget)
    {
      var size := |entry.core|;
      if budget == 0 || size > MAX_MEMO_ENTRY_BYTES {
        return false;
      }
      var prevSize := if key in entries then |entries[key].core| else 0;
      var projected := (if totalBytes >= prevSize then totalBytes - prevSize else 0) + size;
      ghost var before := entries;
      if key in entries { SumRemove(entries, Size(), key); } else { assert entries - {key} == entries; }
      SumUpdate(entries, Size(), key, entry);
      PutKeepsExact(relationFingerprints, entries, key, entry);
      if projected > budget {
        return false;
      }
      RelIncr(entry.relations, key.fingerprint);
      var replaced := if key in entries then Some(entries[key]) else None;
      entries := entries[key := entry];
      if replaced.Some? {
        totalBytes := totalBytes - |replaced.value.core|;
        RelDecr(replaced.value.relations, key.fingerprint);
      }
      totalBytes := totalBytes + size;
      return true;
    }

    method RelIncr(relations: seq<Oid>, fp: Fingerprint)
      modifies this`relationFingerprints
      ensures relationFingerprints == IncrAll(old(relationFingerprints), relations, fp)
    {
      for i := 0 to |relations|
        invariant relationFingerprints == IncrAll(old(relationFingerprints), relations[..i], fp)
      {
        assert relations[..i + 1][..i] == relations[..i];
        var oid := relations[i];
        var bucket: map<Fingerprint, nat> := if oid in relationFingerprints then relationFingerprints[oid] else map[];
        var count := if fp in bucket then bucket[fp] else 0;
        relationFingerprints := relationFingerprints[oid := bucket[fp := count + 1]];
      }
      assert relations[..|relations|] == relations;
    }

    method RelDecr(relations: seq<Oid>, fp: Fingerprint)
      modifies this`relationFingerprints
      ensures relationFingerprints == DecrAll(old(relationFingerprints), relations, fp)
    {
      for i := 0 to |relations|
        invariant relationFingerprints == DecrAll(old(relationFingerprints), relations[..i], fp)
      {
        assert relations[..i + 1][..i] == relations[..i];
        var oid := relations[i];
        if oid in relationFingerprints {
          var inner: map<Fingerprint, nat> := relationFingerprints[oid];
          if fp in inner {
            var count := if inner[fp] >= 1 then inner[fp] - 1 else 0;
            inner := if count == 0 then inner - {fp} else inner[fp := count];
          }
          relationFingerprints :=
            if inner == map[] then relationFingerprints - {oid} else relationFingerprints[oid := inner];
        }
      }
      assert relations[..|relations|] == relations;
    }

    /** The slots a frame touching `oids` must bump: every stored fingerprint over any of them, and no other. */
    method FingerprintsForRelations(oids: seq<Oid>) returns (out: set<Fingerprint>)
      requires Valid()
      ensures forall fp :: fp in out <==> exists oid :: oid in oids && Memoized(entries, oid, fp)
    {
      out := {};
      for i := 0 to |oids|
        invariant forall fp :: fp in out <==> exists oid :: oid in oids[..i] && Memoized(entries, oid, fp)
      {
        forall fp ensures (oids[i] in relationFingerprints && fp in relationFingerprints[oids[i]])
                          <==> Memoized(entries, oids[i], fp)
        {
          IndexMembership(relationFingerprints, entries, oids[i], fp);
        }
        assert forall oid :: oid in oids[..i + 1] <==> oid in oids[..i] || oid == oids[i];
        if oids[i] in relationFingerprints {
          out := out + relationFingerprints[oids[i]].Keys;
        }
      }
      assert oids[..|oids|] == oids;
    }

    /** Adds exactly the candidates that some stored entry over `relation` belongs to. */
    method CandidatesMemoizedInto(relation: Oid, candidates: seq<Fingerprint>, out: set<Fingerprint>)
      returns (evictions: set<Fingerprint>)
      requires Valid()
      ensures forall fp :: fp in evictions <==> fp in out || (fp in candidates && Memoized(entries, relation, fp))
    {
      evictions := out;
      forall fp ensures (relation in relationFingerprints && fp in relationFingerprints[relation])
                        <==> Memoized(entries, relation, fp)
      {
        IndexMembership(relationFingerprints, entries, relation, fp);
      }
      if relation !in relationFingerprints {
        return;
      }
      for i := 0 to |candidates|
        invariant forall fp ::
          fp in evictions <==> fp in out || (fp in candidates[..i] && Memoized(entries, relation, fp))
      {
        assert forall fp :: fp in candidates[..i + 1] <==> fp in candidates[..i] || fp == candidates[i];
        if candidates[i] in relationFingerprints[relation] {
          evictions := evictions + {candidates[i]};
        }
      }
      assert candidates[..|candidates|] == candidates;
    }

    method Remove(key: MemoKey)
      requires Valid()
      modifies this`entries, this`relationFingerprints, this`totalBytes
      ensures Valid() && Abs() == old(Abs()).(entries := old(entries) - {key}) && totalBytes <= old(totalBytes)
    {
      if key in entries {
        var entry := entries[key];
        SumRemove(entries, Size(), key);
        DropKeepsExact(relationFingerprints, entries, key);
        entries := entries - {key};
        totalBytes := totalBytes - |entry.core|;
        RelDecr(entry.relations, key.fingerprint);
      } else {
        assert entries - {key} == entries;
      }
    }

    /** Sweeps every stale entry and nothing else, unless the armed flag says no slot moved since the last sweep. */
    method Gc()
      requires Valid()
      modifies this`entries, this`relationFingerprints, this`totalBytes, this`gcPending
      ensures Valid() && Abs() == MemoSpec.Gc(old(Abs())) && totalBytes <= old(totalBytes)
      ensures forall k :: Lookup(Abs(), k) == Lookup(old(Abs()), k)
      ensures !gcPending && (!old(gcPending) ==> entries == old(entries))
      ensures old(gcPending) ==> forall k :: k in entries <==> k in old(entries) && Live(old(Abs()), old(entries)[k])
      ensures forall k :: k in entries ==> entries[k] == old(entries)[k]
    {
      var pending := gcPending;
      gcPending := false;
      if !pending {
        return;
      }
      var stale := set k | k in entries && !SlotsValid(slotEpochs, entries[k].stamped);
      ghost var live := LiveEntries(Abs());
      while stale != {}
        invariant Valid() && slotEpochs == old(slotEpochs) && !gcPending && totalBytes <= old(totalBytes)
        invariant stale <= entries.Keys
        invariant live == map k | k in entries && k !in stale :: entries[k]
      {
        var key :| key in stale;
        Remove(key);
        stale := stale - {key};
      }
      assert live == entries;
    }
  }

  /** A result being captured while it is relayed to the client. */
  class MemoCapture {
    const key: MemoKey
    const stamped: seq<(SlotKey, nat)>
    const relations: seq<Oid>
    var buf: Bytes
    var rdLen: nat
    var aborted: bool
    /** Every byte relayed so far. */
    ghost var relayed: Bytes

    /** The capture is given up exactly when the relayed bytes exceed the entry cap. */
    ghost predicate Valid()
      reads this
    {
      (aborted <==> |relayed| > MAX_MEMO_ENTRY_BYTES) && (!aborted ==> buf == relayed && rdLen <= |buf|)
    }

    constructor (key: MemoKey, stamped: seq<(SlotKey, nat)>, relations: seq<Oid>)
      ensures Valid() && relayed == [] && rdLen == 0
      ensures this.key == key && this.stamped == stamped && this.relations == relations
    {
      this.key, this.stamped, this.relations := key, stamped, relations;
      buf, rdLen, aborted, relayed := [], 0, false, [];
    }

    /** Starts a capture unless memoization is off or a read slot is mid-write. */
    static method Begin(memo: ResultMemo, budget: nat, key: MemoKey, oids: seq<Oid>) returns (capture: MemoCapture?)
      ensures capture == null <==> budget == 0 || Version(memo.slotEpochs, MemoSlot(key.fingerprint)) % 2 == 1
                                   || exists oid :: oid in oids && Version(memo.slotEpochs, RelationSlot(oid)) % 2 == 1
      ensures capture != null ==> fresh(capture) && capture.Valid() && capture.relayed == [] && capture.key == key
      ensures capture != null ==> capture.relations == oids && SlotsValid(memo.slotEpochs, capture.stamped)
      ensures capture != null ==> forall oid :: oid in oids ==> exists v :: (RelationSlot(oid), v) in capture.stamped
      ensures capture != null ==> exists v :: (MemoSlot(key.fingerprint), v) in capture.stamped
    {
      if budget == 0 {
        return null;
      }
      var slots := [];
      for i := 0 to |oids|
        invariant |slots| == i && forall j :: 0 <= j < i ==> slots[j] == RelationSlot(oids[j])
      {
        slots := slots + [RelationSlot(oids[i])];
      }
      slots := slots + [MemoSlot(key.fingerprint)];
      assert slots[|oids|] == MemoSlot(key.fingerprint);
      assert forall j :: 0 <= j < |oids| ==> slots[j] == RelationSlot(oids[j]);
      var stamps := memo.SlotsStamp(slots);
      if stamps.None? {
        return null;
      }
      capture := new MemoCapture(key, stamps.value, oids);
      forall oid | oid in oids ensures exists v :: (RelationSlot(oid), v) in capture.stamped {
        var j :| 0 <= j < |oids| && oids[j] == oid;
        assert capture.stamped[j] == (RelationSlot(oid), capture.stamped[j].1);
      }
      assert capture.stamped[|oids|] == (MemoSlot(key.fingerprint), capture.stamped[|oids|].1);
    }

    method Append(data: Bytes)
      requires Valid()
      modifies this`buf, this`aborted, this`relayed
      ensures Valid() && relayed == old(relayed) + data
    {
      relayed := relayed + data;
      if aborted {
        return;
      }
      if |buf| + |data| > MAX_MEMO_ENTRY_BYTES {
        aborted := true;
        buf := [];
        return;
      }
      buf := buf + data;
    }

    method RowDescriptionPush(data: Bytes)
      requires Valid()
      modifies this
      ensures Valid() && relayed == old(relayed) + data
      ensures !aborted ==> rdLen == |relayed|
    {
      Append(data);
      if !aborted {
        rdLen := |buf|;
      }
    }

    /** Stores exactly the relayed bytes, stamped with the fingerprint slot alone, iff no stamped slot moved. */
    method Finish(memo: ResultMemo, budget: nat) returns (stored: bool)
      requires Valid() && memo.Valid()
      modifies memo`entries, memo`relationFingerprints, memo`totalBytes
      ensures memo.Valid()
      ensures memo.Abs() ==
              if |relayed| <= MAX_MEMO_ENTRY_BYTES && SlotsValid(old(memo.slotEpochs), stamped)
              then Insert(old(memo.Abs()), budget, key, MemoEntry(relayed, rdLen, MemoStampsOnly(stamped), relations))
              else old(memo.Abs())
      ensures stored <==> budget > 0 && |relayed| <= MAX_MEMO_ENTRY_BYTES && SlotsValid(memo.slotEpochs, stamped)
                          && TotalBytes(old(memo.entries) - {key}) + |relayed| <= budget
      ensures memo.entries
           == if stored
              then old(memo.entries)[key := MemoEntry(relayed, rdLen, MemoStampsOnly(stamped), relations)]
              else old(memo.entries)
    {
      var valid := memo.SlotsCheck(stamped);
      if aborted || !valid {
        return false;
      }
      stored := memo.Insert(budget, key, MemoEntry(buf, rdLen, MemoStampsOnly(stamped), relations));
    }
  }
}
