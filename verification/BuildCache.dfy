/** The build cache of `src/build_cache.rs`: slots on disk, one per package name
    and key digest, against the plain map from keys to artifacts. */
module BuildCache {
  import opened Options
  import opened CacheText
  import opened Sums

  type Artifact = seq<int>

  /** Where an entry lives: the package's directory and the digest in it. */
  datatype Slot = Slot(package: string, digest: string)

  /** The two files of a slot. The metadata file holds text. */
  datatype Files = Files(metadata: Option<string>, artifact: Option<Artifact>)

  type Disk = map<Slot, Files>

  /** One complete `record`; the digest of the artifact and the time, which are in the
      entry, are given. */
  datatype Write = Write(entry: CacheEntry, artifact: Artifact)

  function MetadataOf(w: Write): string {
    Lines(Table(w.entry))
  }

  datatype Lookup = Hit(entry: CacheEntry) | Miss | Malformed

  /** `entry_path`. */
  function EntryPath(digest: CacheKey -> string, key: CacheKey): Slot {
    Slot(key.packageName, digest(key))
  }

  /** What is on disk after some complete writes. */
  function DiskAfter(digest: CacheKey -> string, writes: seq<Write>): Disk {
    if writes == [] then map[]
    else
      var w := writes[|writes| - 1];
      DiskAfter(digest, writes[..|writes| - 1])[EntryPath(digest, w.entry.key) :=
          Files(Some(MetadataOf(w)), Some(w.artifact))]
  }

  /** The latest write of a key, as in a plain map. */
  function Latest(writes: seq<Write>): map<CacheKey, Write> {
    if writes == [] then map[]
    else Latest(writes[..|writes| - 1])[writes[|writes| - 1].entry.key := writes[|writes| - 1]]
  }

  /** The latest write to a slot, whatever its key. */
  function LatestIn(digest: CacheKey -> string, writes: seq<Write>): map<Slot, Write> {
    if writes == [] then map[]
    else
      var w := writes[|writes| - 1];
      LatestIn(digest, writes[..|writes| - 1])[EntryPath(digest, w.entry.key) := w]
  }

  /** The latest write that has the key's package name and digest. */
  function LatestSharing(digest: CacheKey -> string, writes: seq<Write>, key: CacheKey): Option<Write> {
    if writes == [] then None
    else
      var w := writes[|writes| - 1];
      if w.entry.key.packageName == key.packageName && digest(w.entry.key) == digest(key) then Some(w)
      else LatestSharing(digest, writes[..|writes| - 1], key)
  }

  class Cache {
    const digest: CacheKey -> string
    var disk: Disk
    ghost var writes: seq<Write>

    ghost predicate Valid()
      reads this
    {
      disk == DiskAfter(digest, writes)
    }

    constructor (digest: CacheKey -> string)
      ensures Valid() && this.digest == digest && writes == []
    {
      this.digest := digest;
      disk, writes := map[], [];
    }

    /** `record`: the artifact first, then the metadata. */
    method Record(w: Write)
      requires Valid()
      modifies this
      ensures Valid() && writes == old(writes) + [w]
      ensures disk == old(disk)[Slot(w.entry.key.packageName, digest(w.entry.key)) :=
          Files(Some(MetadataOf(w)), Some(w.artifact))]
    {
      var slot := EntryPath(digest, w.entry.key);
      WriteArtifact(w);
      var text := RenderEntry(w.entry);
      disk := disk[slot := disk[slot].(metadata := Some(text))];
      writes := writes + [w];
      assert writes[..|writes| - 1] == old(writes);
      assert disk == old(disk)[slot := Files(Some(text), Some(w.artifact))];
    }

    /** The first half of a `record`, which may be all that happens. */
    method WriteArtifact(w: Write)
      modifies `disk
      ensures var slot := EntryPath(digest, w.entry.key);
        disk == old(disk)[slot := Files(if slot in old(disk) then old(disk)[slot].metadata else None, Some(w.artifact))]
    {
      var slot := EntryPath(digest, w.entry.key);
      var before := if slot in disk then disk[slot] else Files(None, None);
      disk := disk[slot := before.(artifact := Some(w.artifact))];
    }

    /** `lookup`. */
    method Find(key: CacheKey) returns (r: Lookup)
      ensures r == LookupIn(disk, digest, key)
    {
      var slot := EntryPath(digest, key);
      if slot !in disk || disk[slot].metadata == None {
        return Miss;
      }
      var parsed := ParseEntry(disk[slot].metadata.value);
      if parsed.None? {
        return Malformed;
      }
      if parsed.value.key != key {
        return Miss;
      }
      r := Hit(parsed.value);
    }

    /** `stats`: the slots with both files, and the lengths of their artifacts. */
    method Stats() returns (entries: nat, bytes: nat)
      ensures entries == |Populated(disk)| && bytes == Sum(Sizes(disk))
    {
      entries, bytes := 0, 0;
      var rest := disk.Keys;
      ghost var done: Disk := map[];
      assert Populated(done) == {} && Sizes(done) == map[];
      while rest != {}
        invariant rest <= disk.Keys && done == map s | s in disk && s !in rest :: disk[s]
        invariant entries == |Populated(done)| && bytes == Sum(Sizes(done))
        decreases |rest|
      {
        var s :| s in rest;
        StatsPut(done, s, disk[s]);
        if disk[s].metadata.Some? && disk[s].artifact.Some? {
          entries, bytes := entries + 1, bytes + |disk[s].artifact.value|;
        }
        rest := rest - {s};
        done := done[s := disk[s]];
      }
      assert done == disk;
    }
  }

  function LookupIn(disk: Disk, digest: CacheKey -> string, key: CacheKey): Lookup {
    var slot := EntryPath(digest, key);
    if slot !in disk || disk[slot].metadata == None then Miss
    else
      match ParseEntry(disk[slot].metadata.value)
      case None => Malformed
      case Some(e) => if e.key != key then Miss else Hit(e)
  }

  predicate Full(f: Files) {
    f.metadata.Some? && f.artifact.Some?
  }

  function Populated(disk: Disk): set<Slot> {
    set s | s in disk && Full(disk[s])
  }

  function Sizes(disk: Disk): map<Slot, nat> {
    map s | s in Populated(disk) :: |disk[s].artifact.value|
  }

  lemma StatsPut(done: Disk, s: Slot, f: Files)
    requires s !in done
    ensures |Populated(done[s := f])| == |Populated(done)| + (if Full(f) then 1 else 0)
    ensures Sum(Sizes(done[s := f])) == Sum(Sizes(done)) + (if Full(f) then |f.artifact.value| else 0)
  {
    if Full(f) {
      assert Populated(done[s := f]) == Populated(done) + {s};
      assert Sizes(done[s := f]) == Sizes(done)[s := |f.artifact.value|];
      SumPut(Sizes(done), s, |f.artifact.value|);
    } else {
      assert Populated(done[s := f]) == Populated(done);
      assert Sizes(done[s := f]) == Sizes(done);
    }
  }

  // ── Against the plain map ────────────────────────────────────────

  lemma {:induction false} SlotsAre(digest: CacheKey -> string, writes: seq<Write>)
    ensures var disk := DiskAfter(digest, writes); var last := LatestIn(digest, writes);
      && disk.Keys == last.Keys
      && (forall s :: s in disk ==>
          && disk[s] == Files(Some(MetadataOf(last[s])), Some(last[s].artifact))
          && EntryPath(digest, last[s].entry.key) == s)
      && (forall s :: s in last ==> last[s] in writes)
  {
    hide MetadataOf;
    if writes != [] {
      SlotsAre(digest, writes[..|writes| - 1]);
    }
  }

  lemma {:induction false} LatestKeys(writes: seq<Write>)
    ensures forall k :: k in Latest(writes) ==> Latest(writes)[k].entry.key == k && Latest(writes)[k] in writes
    ensures forall w :: w in writes ==> w.entry.key in Latest(writes)
  {
    if writes != [] {
      LatestKeys(writes[..|writes| - 1]);
      assert writes == writes[..|writes| - 1] + [writes[|writes| - 1]];
    }
  }

  /** The last write to a slot is the last write of its key. */
  lemma {:induction false} SlotsLatest(digest: CacheKey -> string, writes: seq<Write>)
    ensures var last := Latest(writes); var slots := LatestIn(digest, writes);
      forall s :: s in slots ==> slots[s].entry.key in last && last[slots[s].entry.key] == slots[s]
  {
    if writes != [] {
      SlotsLatest(digest, writes[..|writes| - 1]);
      SlotsAre(digest, writes[..|writes| - 1]);
      hide DiskAfter, EntryPath;
    }
  }

  lemma {:induction false} KeysInSlots(digest: CacheKey -> string, writes: seq<Write>)
    ensures forall k :: k in Latest(writes) ==> EntryPath(digest, k) in LatestIn(digest, writes)
  {
    if writes != [] {
      KeysInSlots(digest, writes[..|writes| - 1]);
      hide EntryPath;
    }
  }

  lemma {:induction false} SharingIs(digest: CacheKey -> string, writes: seq<Write>, key: CacheKey)
    ensures LatestSharing(digest, writes, key) ==
      var slot := EntryPath(digest, key); var last := LatestIn(digest, writes);
      if slot in last then Some(last[slot]) else None
  {
    if writes != [] {
      SharingIs(digest, writes[..|writes| - 1], key);
    }
  }

  /** For any digest, after any writes: a lookup finds what was written last under
      the key's package name and digest. It hits exactly if that was of this key and its
      metadata can be read back; a hit carries the entry and has the artifact of the key's
      latest write. */
  lemma LookupExactly(digest: CacheKey -> string, writes: seq<Write>, key: CacheKey)
    ensures LookupIn(DiskAfter(digest, writes), digest, key) ==
      match LatestSharing(digest, writes, key)
      case None => Miss
      case Some(w) =>
        if !WritableEntry(w.entry) then Malformed else if w.entry.key == key then Hit(w.entry) else Miss
    ensures var disk := DiskAfter(digest, writes);
      var slot := Slot(key.packageName, digest(key));
      var r := LookupIn(disk, digest, key);
      r.Hit? ==>
        && key in Latest(writes) && r.entry == Latest(writes)[key].entry
        && slot in disk && disk[slot].artifact == Some(Latest(writes)[key].artifact)
  {
    hide DiskAfter, LatestIn, Latest, LatestSharing, WritableEntry, MetadataOf;
    var slot := EntryPath(digest, key);
    var last := LatestIn(digest, writes);
    SlotsAre(digest, writes);
    LatestKeys(writes);
    SlotsLatest(digest, writes);
    SharingIs(digest, writes, key);
    if slot in last {
      Reads(last[slot]);
    }
  }

  /** Metadata with any schema version but 1 is malformed to every key of the slot. */
  lemma OtherSchemaMalformed(digest: CacheKey -> string, disk: Disk, key: CacheKey, e: CacheEntry, v: Value)
    requires v != Int(1)
    requires var slot := EntryPath(digest, key);
      slot in disk && disk[slot].metadata == Some(Lines([("schema_version", v)] + Table(e)[1..]))
    ensures LookupIn(disk, digest, key) == Malformed
  {
    hide Lines, ParseEntry;
    assert [("schema_version", v)] + Table(e)[1..] == Table(e)[0 := (Table(e)[0].0, v)];
    ChangedLine(e, 0, v);
  }

  lemma Reads(w: Write)
    ensures ParseEntry(MetadataOf(w)) == if WritableEntry(w.entry) then Some(w.entry) else None
  {
    hide WritableEntry, ParseEntry;
    EntryReadsBack(w.entry);
  }

  /** No other key written has the key's package name and digest. */
  ghost predicate CollisionFree(digest: CacheKey -> string, writes: seq<Write>, key: CacheKey) {
    forall w :: w in writes && w.entry.key != key ==>
      w.entry.key.packageName != key.packageName || digest(w.entry.key) != digest(key)
  }

  lemma FreeSlot(digest: CacheKey -> string, writes: seq<Write>, key: CacheKey)
    requires CollisionFree(digest, writes, key)
    ensures forall w :: w in writes && w.entry.key != key ==> EntryPath(digest, w.entry.key) != EntryPath(digest, key)
  {
  }

  /** If the key's slot is its own, the cache is the plain map from keys to latest writes. */
  lemma LookupIsMap(digest: CacheKey -> string, writes: seq<Write>, key: CacheKey)
    requires CollisionFree(digest, writes, key) &&
        (key in Latest(writes) ==> WritableEntry(Latest(writes)[key].entry))
    ensures LookupIn(DiskAfter(digest, writes), digest, key) == if key in Latest(writes) then
        Hit(Latest(writes)[key].entry) else Miss
  {
    LookupExactly(digest, writes, key);
    SharingIs(digest, writes, key);
    FreeSlot(digest, writes, key);
    SlotsAre(digest, writes);
    LatestKeys(writes);
    SlotsLatest(digest, writes);
    KeysInSlots(digest, writes);
    hide *;
    var slot := EntryPath(digest, key);
    var last := LatestIn(digest, writes);
    if slot in last {
      assert last[slot].entry.key == key;
    }
  }

  // ── Digests of encoded keys ──────────────────────────────────────

  function Raw(utf8: string -> Bytes, k: CacheKey): RawKey {
    RawKey(utf8(k.compilerVersion), utf8(k.packageName), utf8(k.packageVersion), utf8(k.edition), utf8(k.profile),
        utf8(k.targetTriple))
  }

  /** The encoding of a key: the package's name first. */
  function KeyBytes(utf8: string -> Bytes, k: CacheKey): Bytes {
    Encoded([utf8(k.packageName), utf8(k.compilerVersion), utf8(k.packageVersion), utf8(k.edition), utf8(k.profile),
             utf8(k.targetTriple)])
  }

  /** `digest`: the hash of the key's encoding. */
  function DigestOf(utf8: string -> Bytes, hash: Bytes -> string): CacheKey -> string {
    k => hash(KeyBytes(utf8, k))
  }

  ghost predicate Injective(utf8: string -> Bytes) {
    forall a, b :: utf8(a) == utf8(b) ==> a == b
  }

  predicate ShortKey(utf8: string -> Bytes, k: CacheKey) {
    Short(Fields(Raw(utf8, k)))
  }

  /** If the hash tells the encoding of the key from those of the other keys written, then
      it tells the keys apart, and the cache is the plain map. */
  lemma HashedLookupIsMap(utf8: string -> Bytes, hash: Bytes -> string, writes: seq<Write>, key: CacheKey)
    requires Injective(utf8) && ShortKey(utf8, key) && forall w :: w in writes ==> ShortKey(utf8, w.entry.key)
    requires forall w :: w in writes && KeyBytes(utf8, w.entry.key) != KeyBytes(utf8, key) ==>
        hash(KeyBytes(utf8, w.entry.key)) != hash(KeyBytes(utf8, key))
    requires key in Latest(writes) ==> WritableEntry(Latest(writes)[key].entry)
    ensures var digest := DigestOf(utf8, hash);
      && CollisionFree(digest, writes, key)
      && LookupIn(DiskAfter(digest, writes), digest, key) == if key in Latest(writes) then
          Hit(Latest(writes)[key].entry) else Miss
  {
    hide Encoded, Short, Latest, LookupIn, WritableEntry, DiskAfter;
    forall w | w in writes && w.entry.key != key
      ensures DigestOf(utf8, hash)(w.entry.key) != DigestOf(utf8, hash)(key)
    {
      assert KeyBytes(utf8, w.entry.key) == Encoded(Fields(Raw(utf8, w.entry.key)));
      assert KeyBytes(utf8, key) == Encoded(Fields(Raw(utf8, key)));
      if KeyBytes(utf8, w.entry.key) == KeyBytes(utf8, key) {
        EncodingInjective(Raw(utf8, w.entry.key), Raw(utf8, key));
      }
    }
    LookupIsMap(DigestOf(utf8, hash), writes, key);
  }

  function ArtifactSizes(writes: seq<Write>): map<CacheKey, nat> {
    map k | k in Latest(writes) :: |Latest(writes)[k].artifact|
  }

  /** If no two keys share a slot, the statistics are those of the plain map. */
  lemma StatsAreMap(digest: CacheKey -> string, writes: seq<Write>)
    requires forall w :: w in writes ==> CollisionFree(digest, writes, w.entry.key)
    ensures |Populated(DiskAfter(digest, writes))| == |Latest(writes)|
    ensures Sum(Sizes(DiskAfter(digest, writes))) == Sum(ArtifactSizes(writes))
  {
    hide DiskAfter, LatestIn, Latest, Populated, Sizes, Matches, OneToOne;
    OwnSlots(digest, writes);
    OwnSlotsMatch(Latest(writes), LatestIn(digest, writes), digest);
    SizesAre(digest, writes);
    assert ArtifactSizes(writes).Keys == Latest(writes).Keys;
    assert SlotSizes(LatestIn(digest, writes)).Keys == LatestIn(digest, writes).Keys;
    SameSum(ArtifactSizes(writes), Sizes(DiskAfter(digest, writes)), digest, LatestIn(digest, writes));
  }

  ghost predicate Matches(a: map<CacheKey, nat>, b: map<Slot, nat>, digest: CacheKey -> string, slots: map<Slot,
          Write>) {
    && (forall k :: k in a ==> EntryPath(digest, k) in b && b[EntryPath(digest, k)] == a[k])
    && (forall k :: k in a ==> EntryPath(digest, k) in slots && slots[EntryPath(digest, k)].entry.key == k)
    && (forall s :: s in b ==> s in slots && slots[s].entry.key in a && EntryPath(digest, slots[s].entry.key) == s)
  }

  function SlotSizes(slots: map<Slot, Write>): map<Slot, nat> {
    map s | s in slots :: |slots[s].artifact|
  }

  lemma SizesAre(digest: CacheKey -> string, writes: seq<Write>)
    ensures Sizes(DiskAfter(digest, writes)) == SlotSizes(LatestIn(digest, writes))
    ensures Populated(DiskAfter(digest, writes)) == LatestIn(digest, writes).Keys
  {
    SlotsAre(digest, writes);
    hide DiskAfter, LatestIn, EntryPath, MetadataOf;
  }

  lemma OwnSlotsMatch(last: map<CacheKey, Write>, slots: map<Slot, Write>, digest: CacheKey -> string)
    requires OneToOne(last, slots, digest)
    ensures Matches(map k | k in last :: |last[k].artifact|, SlotSizes(slots), digest, slots)
  {
    hide EntryPath;
  }

  /** Each key has a slot of its own. */
  ghost predicate OneToOne(last: map<CacheKey, Write>, slots: map<Slot, Write>, digest: CacheKey -> string) {
    && (forall k :: k in last ==>
        EntryPath(digest, k) in slots && slots[EntryPath(digest, k)] == last[k] && last[k].entry.key == k)
    && (forall s :: s in slots ==> slots[s].entry.key in last && EntryPath(digest, slots[s].entry.key) == s)
  }

  lemma OwnSlots(digest: CacheKey -> string, writes: seq<Write>)
    requires forall w :: w in writes ==> CollisionFree(digest, writes, w.entry.key)
    ensures OneToOne(Latest(writes), LatestIn(digest, writes), digest)
  {
    SlotsAre(digest, writes);
    LatestKeys(writes);
    SlotsLatest(digest, writes);
    KeysInSlots(digest, writes);
    hide DiskAfter, LatestIn, Latest, EntryPath, CollisionFree;
    forall k | k in Latest(writes)
      ensures LatestIn(digest, writes)[EntryPath(digest, k)] == Latest(writes)[k]
    {
      FreeSlot(digest, writes, Latest(writes)[k].entry.key);
      assert LatestIn(digest, writes)[EntryPath(digest, k)].entry.key == k;
    }
  }

  /** Maps with the same numbers, under keys and under the keys' slots, have the same sum and size. */
  lemma {:induction false} SameSum(a: map<CacheKey, nat>, b: map<Slot, nat>, digest: CacheKey -> string,
          slots: map<Slot, Write>)
    requires Matches(a, b, digest, slots)
    ensures Sum(a) == Sum(b) && |a| == |b|
    decreases |a|
  {
    hide EntryPath, Sum;
    if a == map[] {
      SumEmpty(a);
      SumEmpty(b);
    } else {
      var k :| k in a;
      var s := EntryPath(digest, k);
      SameSum(a - {k}, b - {s}, digest, slots);
      SumRemove(a, k);
      SumRemove(b, s);
      assert |a - {k}| == |a| - 1 && |b - {s}| == |b| - 1;
    }
  }

  // ── Interrupted writes ───────────────────────────────────────────

  /** What is on disk if the write stops between its two files. */
  function Interrupted(disk: Disk, digest: CacheKey -> string, w: Write): Disk {
    var slot := EntryPath(digest, w.entry.key);
    disk[slot := Files(if slot in disk then disk[slot].metadata else None, Some(w.artifact))]
  }

  /** A first write that stops before its metadata reads as a miss and does not
      count in the statistics; one over an older entry of the key still hits,
      with the old metadata and the new artifact. */
  lemma InterruptedWrite(disk: Disk, digest: CacheKey -> string, w: Write)
    ensures EntryPath(digest, w.entry.key) !in disk ==>
      && LookupIn(Interrupted(disk, digest, w), digest, w.entry.key) == Miss
      && Populated(Interrupted(disk, digest, w)) == Populated(disk)
    ensures EntryPath(digest, w.entry.key) in disk ==>
      && LookupIn(Interrupted(disk, digest, w), digest, w.entry.key) == LookupIn(disk, digest, w.entry.key)
      && Interrupted(disk, digest, w)[EntryPath(digest, w.entry.key)].artifact == Some(w.artifact)
  {
  }
}
