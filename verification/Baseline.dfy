/**
 * Comparing a run with its retained baseline: a durable index from state
 * identity to locator, over the bounded artifact store.
 */
module Baseline {
  import opened Common
  import Text
  import A = Artifacts

  const MAX_BASELINE_BYTES := 2 * 1024 * 1024

  datatype Envelope = Envelope(
    schemaVersion: nat, stateIdentity: string, route: string, viewport: (nat, nat),
    evidenceHashes: seq<string>, designHash: Option<string>, createdRevision: Option<string>,
    provenance: map<string, string>)

  datatype Locator = Locator(contentHash: string, storageId: string)

  type Index = map<string, Locator>

  type Disk = map<string, A.Bytes>

  /** Serialisation and hashing, as far as the comparison depends on them. */
  datatype Codec = Codec(
    encode: Envelope -> A.Bytes, decode: A.Bytes -> Option<Envelope>, hash: Envelope -> string, indexSize: Index -> nat)

  datatype Status = Created | Match | Changed | Incompatible

  // -------------------------------------------------------------------- envelopes

  /** Evidence sorted and without repetition. */
  function Normalized(e: Envelope): Envelope {
    e.(evidenceHashes := Text.Sorted(ToSet(e.evidenceHashes)))
  }

  /** Normal forms agree exactly when nothing but the order and repetition of evidence differs. */
  lemma NormalizedIsExact(a: Envelope, b: Envelope)
    ensures Normalized(a) == Normalized(b) <==>
              ToSet(a.evidenceHashes) == ToSet(b.evidenceHashes) && a.(evidenceHashes := []) == b.(evidenceHashes := [])
    ensures Normalized(Normalized(a)) == Normalized(a)
  {
    assert ToSet(Normalized(a).evidenceHashes) == ToSet(a.evidenceHashes);
    assert ToSet(Normalized(b).evidenceHashes) == ToSet(b.evidenceHashes);
    assert Normalized(a) == a.(evidenceHashes := []).(evidenceHashes := Normalized(a).evidenceHashes);
    assert Normalized(a).(evidenceHashes := []) == a.(evidenceHashes := []);
    assert Normalized(b).(evidenceHashes := []) == b.(evidenceHashes := []);
  }

  // ------------------------------------------------------------------- comparison

  predicate HexDigit(c: char) { '0' <= c <= '9' || 'a' <= c <= 'f' || 'A' <= c <= 'F' }

  /** `valid_physical_artifact_id` */
  predicate ValidStorageId(id: string) {
    |id| == 19 && id[..3] == "lv-" && forall i | 3 <= i < 19 :: HexDigit(id[i])
  }

  /** `load_retained_baseline` */
  function Load(codec: Codec, disk: Disk, at: Locator): Option<Envelope> {
    if !ValidStorageId(at.storageId) || at.storageId !in disk || |disk[at.storageId]| > MAX_BASELINE_BYTES then None
    else
      match codec.decode(disk[at.storageId])
      case None => None
      case Some(e) => if codec.hash(e) == at.contentHash then Some(e) else None
  }

  predicate SamePlace(a: Envelope, b: Envelope) {
    a.stateIdentity == b.stateIdentity && a.route == b.route && a.viewport == b.viewport
  }

  predicate SameEvidence(a: Envelope, b: Envelope) {
    a.evidenceHashes == b.evidenceHashes && a.designHash == b.designHash
  }

  /** What the run is compared to, and how it comes out. */
  function Compared(codec: Codec, index: Index, disk: Disk, c: Envelope): Status {
    if c.stateIdentity !in index then Created
    else
      match Load(codec, disk, index[c.stateIdentity])
      case None => Incompatible
      case Some(b) => if !SamePlace(b, c) then Incompatible else if SameEvidence(b, c) then Match else Changed
  }

  /** A new state is stored; one that changed, or whose baseline cannot be loaded, only by update. */
  predicate ShouldStore(codec: Codec, index: Index, disk: Disk, c: Envelope, update: bool) {
    || c.stateIdentity !in index
    || (update && (Load(codec, disk, index[c.stateIdentity]).None? || Compared(codec, index, disk, c) == Changed))
  }

  /** The ASCII codes of the hexadecimal digits. */
  predicate HexCode(c: int) { 48 <= c < 58 || 65 <= c < 71 || 97 <= c < 103 }

  /** The file of the locator is there under a storage name, within its limit, and is this envelope by its hash. */
  ghost predicate Holds(codec: Codec, disk: Disk, at: Locator, e: Envelope) {
    && |at.storageId| == 19 && "lv-" <= at.storageId
    && (forall i | 3 <= i < 19 :: HexCode(at.storageId[i] as int))
    && at.storageId in disk && |disk[at.storageId]| <= 2097152
    && codec.decode(disk[at.storageId]) == Some(e) && codec.hash(e) == at.contentHash
  }

  lemma LoadedIsHeld(codec: Codec, disk: Disk, at: Locator, e: Envelope)
    ensures Load(codec, disk, at) == Some(e) <==> Holds(codec, disk, at, e)
  {
    assert forall c: char :: HexDigit(c) <==> HexCode(c as int);
  }

  /** The entry of the state of `c` holds this envelope, of the same state, route and viewport. */
  ghost predicate HeldFor(codec: Codec, index: Index, disk: Disk, c: Envelope, b: Envelope) {
    && c.stateIdentity in index && Holds(codec, disk, index[c.stateIdentity], b)
    && (b.stateIdentity, b.route, b.viewport) == (c.stateIdentity, c.route, c.viewport)
  }

  function Evidence(e: Envelope): (seq<string>, Option<string>) { (e.evidenceHashes, e.designHash) }

  /**
   * A state without an entry is new; any other matches or has changed by the
   * envelope its entry holds, of the same state, route and viewport, and is
   * incompatible without one. What is new is stored, and by update what has
   * changed and what holds nothing.
   */
  lemma ComparedIsExact(codec: Codec, index: Index, disk: Disk, c: Envelope, update: bool)
    ensures var status := Compared(codec, index, disk, c);
            && (status == Created <==> c.stateIdentity !in index)
            && (status == Match <==> exists b :: HeldFor(codec, index, disk, c, b) && Evidence(b) == Evidence(c))
            && (status == Changed <==> exists b :: HeldFor(codec, index, disk, c, b) && Evidence(b) != Evidence(c))
            && (ShouldStore(codec, index, disk, c, update) <==>
                  || c.stateIdentity !in index
                  || (update && (status == Changed
                                 || forall b :: !Holds(codec, disk, index[c.stateIdentity], b))))
  {
    hide Load, Holds;
    if c.stateIdentity in index {
      var at := index[c.stateIdentity];
      forall e: Envelope ensures Load(codec, disk, at) == Some(e) <==> Holds(codec, disk, at, e) {
        LoadedIsHeld(codec, disk, at, e);
      }
      if Load(codec, disk, at).Some? {
        var b := Load(codec, disk, at).value;
        assert Holds(codec, disk, at, b);
        assert SamePlace(b, c) <==> HeldFor(codec, index, disk, c, b);
      }
    }
  }

  /** How one run left the index and the files, when what it stored went under `id`. */
  ghost predicate Ran(codec: Codec, index: Index, disk: Disk, c: Envelope, allowed: bool, update: bool,
                      index': Index, disk': Disk, stored: Option<string>)
  {
    && (stored.None? ==> index' == index)
    && (stored.Some? ==>
          && allowed && ShouldStore(codec, index, disk, c, update) && |codec.encode(c)| <= MAX_BASELINE_BYTES
          && index' == index[c.stateIdentity := Locator(codec.hash(c), stored.value)]
          && codec.indexSize(index') <= MAX_BASELINE_BYTES
          && stored.value in disk' && disk'[stored.value] == codec.encode(c))
    && (!(allowed && ShouldStore(codec, index, disk, c, update)) ==> disk' == disk)
  }

  // -------------------------------------------------------------------- the object

  datatype Failure =
    | StateUnsafe | IndexUnreadable | EnvelopeTooLarge | PutRefused | CollisionDetected
    | IndexTooLarge | IndexUnwritable

  datatype Outcome = Outcome(status: Status, baselineHash: Option<string>, stored: Option<string>)

  class BaselineState {
    const codec: Codec
    var index: Index
    var disk: Disk

    constructor (codec: Codec)
      ensures index == map[] && disk == map[] && this.codec == codec
    {
      this.codec, index, disk := codec, map[], map[];
    }

    /** The store indexes exactly the files there are, with their sizes. */
    ghost predicate Indexed(store: A.ArtifactStore)
      reads this, store
    {
      store.Valid() && store.index.Keys == disk.Keys && forall id | id in disk :: store.index[id].bytes == |disk[id]|
    }

    /** `compare_and_retain_baseline` */
    method CompareAndRetain(store: A.ArtifactStore, c: Envelope, allowed: bool, update: bool, rootsOk: bool,
                            indexWritable: bool, io: A.Io)
      returns (r: Result<Outcome, Failure>)
      requires Indexed(store) && store.used + |codec.encode(c)| <= A.U64_MAX
      requires var id := store.contentId(codec.encode(c)); io.retained == (if id in disk then Some(disk[id]) else None)
      modifies this, store
      ensures Indexed(store)
      ensures Ran(codec, old(index), old(disk), c, allowed, update, index, disk,
                  if r.Ok? then r.value.stored else None)
      ensures r.Ok? ==> r.value.status == if !allowed then Incompatible else Compared(codec, old(index), old(disk), c)
      ensures r.Ok? && c.stateIdentity in old(index) ==>
                r.value.baselineHash == Some(old(index)[c.stateIdentity].contentHash)
      ensures r.Ok? && c.stateIdentity !in old(index) ==> r.value.baselineHash == None
      ensures !(allowed && ShouldStore(codec, old(index), old(disk), c, update)) ==>
                store.used == old(store.used) && store.index == old(store.index) && store.queue == old(store.queue)
      ensures var storing := allowed && ShouldStore(codec, old(index), old(disk), c, update);
              && (r.Ok? <==> rootsOk && (storing ==> old(CanRetain(store, c, indexWritable, io))))
              && (r.Ok? ==> r.value.stored == if storing then Some(store.contentId(codec.encode(c))) else None)
      ensures r.Ok? && old(store.used) <= store.maxBytes ==> store.used <= store.maxBytes
    {
      if !rootsOk { return Err(StateUnsafe); }
      var existing := if c.stateIdentity in index then Some(index[c.stateIdentity]) else None;
      var baselineHash := if existing.Some? then Some(existing.value.contentHash) else None;
      if !allowed { return Ok(Outcome(Incompatible, baselineHash, None)); }
      var status := Created;
      var shouldStore := existing.None?;
      if existing.Some? {
        var loaded := Load(codec, disk, existing.value);
        if loaded.None? {
          status := Incompatible;
          shouldStore := update;
        } else if !SamePlace(loaded.value, c) {
          status := Incompatible;
        } else if SameEvidence(loaded.value, c) {
          status := Match;
        } else {
          status := Changed;
          shouldStore := update;
        }
      }
      if !shouldStore { return Ok(Outcome(status, baselineHash, None)); }
      var id := Retain(store, c, indexWritable, io);
      if id.Err? { return Err(id.error); }
      return Ok(Outcome(status, baselineHash, Some(id.value)));
    }

    /** With an entry for `c` the index file would be over its limit. */
    predicate IndexTooLargeWith(store: A.ArtifactStore, c: Envelope)
      reads this
    {
      codec.indexSize(index[c.stateIdentity := Locator(codec.hash(c), store.contentId(codec.encode(c)))])
      > MAX_BASELINE_BYTES
    }

    /** Everything it takes to store `c`: room for it, a put that goes through, and an index that can be written. */
    ghost predicate CanRetain(store: A.ArtifactStore, c: Envelope, indexWritable: bool, io: A.Io)
      reads this, store
    {
      && |codec.encode(c)| <= MAX_BASELINE_BYTES && store.Takes(codec.encode(c), io)
      && !IndexTooLargeWith(store, c) && indexWritable
    }

    /** Put the envelope and point the index at it; the index changes last and only if it can be written. */
    method Retain(store: A.ArtifactStore, c: Envelope, indexWritable: bool, io: A.Io)
      returns (r: Result<string, Failure>)
      requires Indexed(store) && store.used + |codec.encode(c)| <= A.U64_MAX
      requires var id := store.contentId(codec.encode(c)); io.retained == (if id in disk then Some(disk[id]) else None)
      modifies this, store
      ensures Indexed(store)
      ensures r.Ok? <==> old(CanRetain(store, c, indexWritable, io))
      ensures r.Err? ==> index == old(index)
      ensures r.Err? ==>
                r.error == if |codec.encode(c)| > MAX_BASELINE_BYTES then EnvelopeTooLarge
                           else if !old(store.Takes(codec.encode(c), io)) then PutRefused
                           else if old(IndexTooLargeWith(store, c)) then IndexTooLarge else IndexUnwritable
      ensures r.Ok? ==>
                && |codec.encode(c)| <= MAX_BASELINE_BYTES && r.value == store.contentId(codec.encode(c))
                && index == old(index)[c.stateIdentity := Locator(codec.hash(c), r.value)]
                && codec.indexSize(index) <= MAX_BASELINE_BYTES
                && r.value in disk && disk[r.value] == codec.encode(c)
                && (old(store.used) <= store.maxBytes ==> store.used <= store.maxBytes)
    {
      var bytes := codec.encode(c);
      if |bytes| > MAX_BASELINE_BYTES { return Err(EnvelopeTooLarge); }
      r := PutCanonical(store, bytes, io);
      if r.Err? { return; }
      var id := r.value;
      var index' := index[c.stateIdentity := Locator(codec.hash(c), id)];
      if codec.indexSize(index') > MAX_BASELINE_BYTES { return Err(IndexTooLarge); }
      if !indexWritable { return Err(IndexUnwritable); }
      index := index';
      return Ok(id);
    }

    /** `put_canonical`: put, then read the file back and compare. */
    method PutCanonical(store: A.ArtifactStore, bytes: A.Bytes, io: A.Io) returns (r: Result<string, Failure>)
      requires Indexed(store) && store.used + |bytes| <= A.U64_MAX
      requires var id := store.contentId(bytes); io.retained == (if id in disk then Some(disk[id]) else None)
      modifies this`disk, store
      ensures Indexed(store)
      ensures r.Ok? <==> old(store.Takes(bytes, io))
      ensures r.Err? ==> r.error == PutRefused
      ensures r.Ok? ==>
                && r.value == store.contentId(bytes) && r.value in disk && disk[r.value] == bytes
                && (old(store.used) <= store.maxBytes ==> store.used <= store.maxBytes)
    {
      hide A.Total, A.Evictions, A.Removable, A.Projection, A.StopsAt, A.ArtifactStore.Retained;
      hide A.ArtifactStore.Arrives, A.ArtifactStore.PartlyEvicted, A.ArtifactStore.Unchanged;
      var meta := store.Put("wave8/baseline-json", bytes, io);
      Mirror(store, bytes);
      if meta.Err? { return Err(PutRefused); }
      var id := store.contentId(bytes);
      if disk[id] != bytes { return Err(CollisionDetected); }
      return Ok(id);
    }

    /** `open` on the files there are; what is evicted on the way is deleted, whether or not the opening succeeds. */
    method Reopen(store: A.ArtifactStore, modified: string -> int, io: A.Io)
      returns (refused: Option<A.Refusal>, ghost aged: seq<A.Found>, ghost k: nat)
      requires store.Valid() && store.index == map[] && FilesFit(disk, A.U64_MAX)
      modifies this`disk, store
      ensures Indexed(store) && (refused.None? <==> store.used <= store.maxBytes)
      ensures Survive(disk, old(disk), store.queue, aged, k)
      ensures OpensLike(refused, aged, k, store.maxBytes, io)
      ensures FilesFit(old(disk), store.maxBytes) ==> refused.None? && disk == old(disk)
    {
      refused, disk, aged, k := OpenOn(store, disk, modified, io);
    }

    /** The same, told without the order the files went in. */
    method OpenForRun(store: A.ArtifactStore, modified: string -> int, io: A.Io) returns (refused: Option<A.Refusal>)
      requires store.Valid() && store.index == map[] && FilesFit(disk, A.U64_MAX)
      modifies this`disk, store
      ensures Indexed(store) && (refused.None? ==> store.used <= store.maxBytes)
      ensures SomeOf(disk, old(disk))
      ensures FilesFit(old(disk), store.maxBytes) ==> refused.None? && disk == old(disk)
    {
      ghost var aged, k;
      refused, aged, k := Reopen(store, modified, io);
    }

    /** The files follow the store: a new one holds the bytes put, evicted ones are gone. */
    method Mirror(store: A.ArtifactStore, bytes: A.Bytes)
      modifies this`disk
      ensures disk == map id | id in store.index :: if id in old(disk) then old(disk)[id] else bytes
    {
      disk := map id | id in store.index :: if id in disk then disk[id] else bytes;
    }
  }

  // ------------------------------------------------------------- files on the disk

  /** The files of a disk, as a listing of its directory finds them. */
  ghost predicate ListingOf(found: seq<A.Found>, disk: Disk) {
    && A.DistinctIds(found) && (forall f | f in found :: f.id in disk && |disk[f.id]| == f.bytes)
    && (forall id | id in disk :: exists f :: f in found && f.id == id)
  }

  lemma {:induction false} IsListing(ids: seq<string>, found: seq<A.Found>, disk: Disk)
    requires NoDuplicates(ids) && ToSet(ids) == disk.Keys && |found| == |ids|
    requires forall k | 0 <= k < |ids| ::
               found[k].id == ids[k] && ids[k] in disk && found[k].bytes == |disk[ids[k]]|
    ensures ListingOf(found, disk)
  {
    forall id | id in disk ensures exists f :: f in found && f.id == id {
      assert id in ToSet(ids);
      var k :| 0 <= k < |ids| && ids[k] == id;
      assert found[k].id == id;
    }
  }

  /** `read_dir`, whatever the modification times. */
  method ListFiles(disk: Disk, modified: string -> int) returns (found: seq<A.Found>)
    ensures ListingOf(found, disk)
  {
    hide ListingOf;
    var ids := Text.Sorted(disk.Keys);
    forall k | 0 <= k < |ids| ensures ids[k] in disk { assert ids[k] in ToSet(ids); }
    found := seq(|ids|, k requires 0 <= k < |ids| => A.Found(modified(ids[k]), ids[k], |disk[ids[k]]|));
    IsListing(ids, found, disk);
  }

  lemma ListedIds(found: seq<A.Found>, disk: Disk)
    requires ListingOf(found, disk)
    ensures ToSet(A.Ids(found)) == disk.Keys && NoDuplicates(A.Ids(found))
  {
    forall id | id in disk ensures id in ToSet(A.Ids(found)) {
      var f :| f in found && f.id == id;
      var i :| 0 <= i < |found| && found[i] == f;
      assert A.Ids(found)[i] == id;
    }
    forall id | id in ToSet(A.Ids(found)) ensures id in disk {
      var i :| 0 <= i < |A.Ids(found)| && A.Ids(found)[i] == id;
      assert found[i] in found;
    }
  }

  /** However the files are listed, their sizes add up to what the store that indexes them has in use. */
  lemma ListingIsUsed(found: seq<A.Found>, disk: Disk, index: map<string, A.Meta>, queue: seq<string>)
    requires ListingOf(found, disk) && NoDuplicates(queue) && ToSet(queue) == disk.Keys == index.Keys
    requires forall id | id in disk :: index[id].bytes == |disk[id]|
    ensures A.SumOf(found) == A.Total(index, queue)
  {
    ListedIds(found, disk);
    forall i | 0 <= i < |found| ensures found[i].id in index && index[found[i].id].bytes == found[i].bytes {
      assert found[i] in found;
    }
    A.TotalOfIds(index, found, 0);
    assert A.Ids(found)[0..] == A.Ids(found) && found[0..] == found;
    A.TotalOfSet(index, A.Ids(found), queue);
  }

  lemma SameListing(aged: seq<A.Found>, found: seq<A.Found>, disk: Disk)
    requires ListingOf(found, disk) && A.SameFiles(aged, found) && A.DistinctIds(aged)
    ensures ListingOf(aged, disk)
  {
    forall id | id in disk ensures exists f :: f in aged && f.id == id {
      var f :| f in found && f.id == id;
      assert f in aged;
    }
  }

  lemma {:induction false} FileAt(aged: seq<A.Found>, disk: Disk, i: nat)
    requires ListingOf(aged, disk) && i < |aged|
    ensures aged[i].id in disk && |disk[aged[i].id]| == aged[i].bytes
  {
    assert aged[i] in aged;
  }

  /** What is left in the queue is indexed, and nothing else: the files after the evicted ones. */
  lemma LeftAreListed(aged: seq<A.Found>, disk: Disk, index: map<string, A.Meta>, queue: seq<string>, k: nat)
    requires ListingOf(aged, disk) && k <= |aged| && queue == A.Ids(aged)[k..] && ToSet(queue) == index.Keys
    requires forall i | 0 <= i < |aged| && aged[i].id in index :: index[aged[i].id].bytes == aged[i].bytes
    ensures forall id | id in index :: id in disk && index[id].bytes == |disk[id]|
  {
    hide ListingOf;
    forall id | id in index ensures id in disk && index[id].bytes == |disk[id]| {
      assert id in ToSet(queue);
      var j :| 0 <= j < |queue| && queue[j] == id;
      assert aged[k + j].id == id;
      FileAt(aged, disk, k + j);
    }
  }

  /** Every way of listing the files comes to no more than so many bytes. */
  ghost predicate FilesFit(disk: Disk, limit: nat) {
    forall found | ListingOf(found, disk) :: A.SumOf(found) <= limit
  }

  /** Some of the files, as they were. */
  predicate SomeOf(left: Disk, disk: Disk) { forall id | id in left :: id in disk && left[id] == disk[id] }

  /** The files left are those from the `k`-th oldest on, as they were. */
  ghost predicate Survive(left: Disk, disk: Disk, queue: seq<string>, aged: seq<A.Found>, k: nat) {
    && ListingOf(aged, disk) && A.ByAge(aged) && k <= |aged| && queue == A.Ids(aged)[k..]
    && left == map id | id in disk && id in ToSet(queue) :: disk[id]
  }

  /** An opening gives up exactly at a file among the fewest that have to go, and otherwise only these go. */
  ghost predicate OpensLike(refused: Option<A.Refusal>, aged: seq<A.Found>, k: nat, limit: nat, io: A.Io) {
    exists n | A.Fewest(aged, n, limit) ::
      && (refused.None? ==> k == n) && (refused.None? <==> A.Removable(A.Ids(aged), n, io.stuck, io.rootOk))
      && (refused.Some? ==> A.StopsAt(A.Ids(aged), n, k, io.stuck, io.rootOk, refused.value))
  }

  lemma {:induction false} LeftIndexed(aged: seq<A.Found>, disk: Disk, index: map<string, A.Meta>, queue: seq<string>,
                                       k: nat)
    requires ListingOf(aged, disk) && k <= |aged| && queue == A.Ids(aged)[k..] && ToSet(queue) == index.Keys
    requires forall i | 0 <= i < |aged| && aged[i].id in index :: index[aged[i].id].bytes == aged[i].bytes
    ensures var left := map id | id in disk && id in ToSet(queue) :: disk[id];
            && left.Keys == index.Keys && (forall id | id in left :: index[id].bytes == |left[id]|)
            && (k == 0 ==> left == disk)
  {
    hide ListingOf;
    LeftAreListed(aged, disk, index, queue, k);
    ListedIds(aged, disk);
    assert k == 0 ==> queue == A.Ids(aged);
  }

  method OpenOn(store: A.ArtifactStore, disk: Disk, modified: string -> int, io: A.Io)
    returns (refused: Option<A.Refusal>, left: Disk, ghost aged: seq<A.Found>, ghost k: nat)
    requires store.Valid() && store.index == map[] && FilesFit(disk, A.U64_MAX)
    modifies store
    ensures store.Valid() && store.index.Keys == left.Keys
    ensures forall id | id in left :: store.index[id].bytes == |left[id]|
    ensures refused.None? <==> store.used <= store.maxBytes
    ensures Survive(left, disk, store.queue, aged, k)
    ensures OpensLike(refused, aged, k, store.maxBytes, io)
    ensures FilesFit(disk, store.maxBytes) ==> refused.None? && left == disk
  {
    var found := ListFiles(disk, modified);
    ghost var n;
    refused, aged, k, n := store.Open(found, io);
    SameListing(aged, found, disk);
    LeftIndexed(aged, disk, store.index, store.queue, k);
    LeftAll(aged, disk, store.queue);
    left := map id | id in disk && id in store.index :: disk[id];
  }

  lemma LeftAll(aged: seq<A.Found>, disk: Disk, queue: seq<string>)
    requires ListingOf(aged, disk)
    ensures queue == A.Ids(aged) ==> disk == map id | id in disk && id in ToSet(queue) :: disk[id]
  {
    ListedIds(aged, disk);
  }

  lemma IndexedFilesFit(disk: Disk, index: map<string, A.Meta>, queue: seq<string>, limit: nat)
    requires NoDuplicates(queue) && ToSet(queue) == disk.Keys == index.Keys && A.Total(index, queue) <= limit
    requires forall id | id in disk :: index[id].bytes == |disk[id]|
    ensures FilesFit(disk, limit)
  {
    forall found | ListingOf(found, disk) ensures A.SumOf(found) <= limit { ListingIsUsed(found, disk, index, queue); }
  }

  // ------------------------------------------------------------------- properties

  /** A baseline stored by one run matches any later run of the same place and evidence, while its file stays. */
  lemma StoredBaselineMatches(codec: Codec, index: Index, disk: Disk, c: Envelope, allowed: bool, update: bool,
                              index': Index, disk': Disk, id: string, later: Disk, next: Envelope)
    requires Ran(codec, index, disk, c, allowed, update, index', disk', Some(id))
    requires codec.decode(codec.encode(c)) == Some(c) && ValidStorageId(id)
    requires id in later && later[id] == disk'[id]
    requires SamePlace(c, next)
    ensures Compared(codec, index', later, next) == if SameEvidence(c, next) then Match else Changed
  {
    assert Load(codec, later, index'[c.stateIdentity]) == Some(c);
  }

  /** One run, over whatever files there are when it starts. */
  datatype Run = Run(c: Envelope, allowed: bool, update: bool, found: Disk, index: Index, left: Disk,
                     stored: Option<string>)

  /** Runs one after another on one index; between them files may come and go. */
  ghost predicate Runs(codec: Codec, index: Index, runs: seq<Run>)
    decreases |runs|
  {
    runs == [] ||
    (&& Ran(codec, index, runs[0].found, runs[0].c, runs[0].allowed, runs[0].update, runs[0].index, runs[0].left,
            runs[0].stored)
     && Runs(codec, runs[0].index, runs[1..]))
  }

  function LastIndex(index: Index, runs: seq<Run>): Index { if runs == [] then index else runs[|runs| - 1].index }

  /** Over any runs without the update flag an index entry, once there, never changes. */
  lemma {:induction false} EntriesStayWithoutUpdate(codec: Codec, index: Index, runs: seq<Run>, state: string)
    requires Runs(codec, index, runs) && state in index && (forall r | r in runs :: !r.update)
    ensures state in LastIndex(index, runs) && LastIndex(index, runs)[state] == index[state]
    decreases |runs|
  {
    if runs != [] {
      assert runs[0] in runs && forall r | r in runs[1..] :: r in runs;
      EntriesStayWithoutUpdate(codec, runs[0].index, runs[1..], state);
    }
  }

  /** An entry changes in a run exactly by an update of that state whose baseline changed or could not be loaded. */
  lemma EntryChangesOnlyByUpdate(codec: Codec, index: Index, r: Run, state: string)
    requires Runs(codec, index, [r]) && state in index
    ensures state in r.index
    ensures r.index[state] != index[state] ==>
              && r.update && r.allowed && r.c.stateIdentity == state
              && (Load(codec, r.found, index[state]).None? || Compared(codec, index, r.found, r.c) == Changed)
  {
  }

  /** Storage ids are made of a fixed prefix and hexadecimal digits. */
  ghost predicate MakesStorageIds(contentId: A.Bytes -> string) { forall bytes :: ValidStorageId(contentId(bytes)) }

  /** What one call of the file system answers, when what is stored under an id is what the disk holds. */
  function Faithfully(io: A.Io, disk: Disk, id: string): A.Io {
    io.(retained := if id in disk then Some(disk[id]) else None)
  }

  /** The index has an entry for `c`, and its file, if it is still there, holds `c`. */
  ghost predicate Retains(codec: Codec, index: Index, disk: Disk, c: Envelope, id: string) {
    && codec.decode(codec.encode(c)) == Some(c) && ValidStorageId(id)
    && c.stateIdentity in index && index[c.stateIdentity] == Locator(codec.hash(c), id)
    && (id in disk ==> disk[id] == codec.encode(c) && |disk[id]| <= MAX_BASELINE_BYTES)
  }

  lemma RetainedCompares(codec: Codec, index: Index, disk: Disk, c: Envelope, next: Envelope, id: string)
    requires Retains(codec, index, disk, c, id) && SamePlace(c, next)
    ensures Compared(codec, index, disk, next)
         == if id !in disk then Incompatible else if SameEvidence(c, next) then Match else Changed
  {
    if id in disk { assert Load(codec, disk, index[c.stateIdentity]) == Some(c); }
  }

  /** What an indexing store has in use is what its files take up, however they are listed. */
  lemma StoredFits(state: BaselineState, store: A.ArtifactStore)
    requires state.Indexed(store) && store.used <= store.maxBytes <= A.U64_MAX
    ensures FilesFit(state.disk, store.maxBytes) && FilesFit(state.disk, A.U64_MAX)
  {
    IndexedFilesFit(state.disk, store.index, store.queue, store.maxBytes);
    IndexedFilesFit(state.disk, store.index, store.queue, A.U64_MAX);
  }

  /** A run over an open store: what it reports, and that a match changes nothing. */
  method CompareAgain(state: BaselineState, store: A.ArtifactStore, ghost c: Envelope, next: Envelope, update: bool,
                      writable: bool,
                      io: A.Io, ghost id: string) returns (r: Result<Outcome, Failure>)
    requires state.Indexed(store) && store.used + |state.codec.encode(next)| <= A.U64_MAX
    requires Retains(state.codec, state.index, state.disk, c, id) && SamePlace(c, next)
    modifies state, store
    ensures r.Ok? ==>
              r.value.status ==
                if id !in old(state.disk) then Incompatible else if SameEvidence(c, next) then Match else Changed
    ensures id in old(state.disk) && SameEvidence(c, next) ==>
              && r.Ok? && r.value == Outcome(Match, Some(state.codec.hash(c)), None)
              && state.index == old(state.index) && state.disk == old(state.disk)
  {
    RetainedCompares(state.codec, state.index, state.disk, c, next, id);
    var idNext := store.contentId(state.codec.encode(next));
    r := state.CompareAndRetain(store, next, true, update, true, writable, Faithfully(io, state.disk, idNext));
  }

  /** A run that stores leaves a baseline that its own budget never evicts when the files are opened again. */
  method FirstRun(state: BaselineState, store: A.ArtifactStore, c: Envelope, allowed: bool, update: bool,
                  writable: bool, io: A.Io)
    returns (r: Result<Outcome, Failure>)
    requires state.Indexed(store) && store.used <= store.maxBytes
    requires store.maxBytes + |state.codec.encode(c)| <= A.U64_MAX
    requires MakesStorageIds(store.contentId) && state.codec.decode(state.codec.encode(c)) == Some(c)
    modifies state, store
    ensures r.Ok? && r.value.stored.Some? ==>
              && Retains(state.codec, state.index, state.disk, c, r.value.stored.value)
              && r.value.stored.value in state.disk
              && FilesFit(state.disk, store.maxBytes) && FilesFit(state.disk, A.U64_MAX)
  {
    var id := store.contentId(state.codec.encode(c));
    assert ValidStorageId(id);
    r := state.CompareAndRetain(store, c, allowed, update, true, writable, Faithfully(io, state.disk, id));
    if r.Ok? && r.value.stored.Some? { StoredFits(state, store); }
  }

  /**
   * Two runs, one after the other, under one budget. The first compares `c`
   * and may store it; the second opens the store anew on whatever files the
   * first left and compares `next`, which is of the same place. Whenever the
   * first stored, the second opens, and reports a match if the evidence is
   * the same and a change if it is not; a match changes nothing, whatever the
   * second run's flag.
   */
  method StoreThenCompare(state: BaselineState, store: A.ArtifactStore, again: A.ArtifactStore, c: Envelope,
                          next: Envelope,
                          allowed: bool, update: bool, updateNext: bool, writable: bool, writableNext: bool,
                          modified: string -> int, io: A.Io, opening: A.Io, ioNext: A.Io)
    returns (first: Result<Outcome, Failure>, refused: Option<A.Refusal>, second: Result<Outcome, Failure>)
    requires store != again && again.Valid() && again.index == map[]
    requires again.maxBytes == store.maxBytes && MakesStorageIds(store.contentId)
    requires state.Indexed(store) && store.used <= store.maxBytes
    requires store.maxBytes + |state.codec.encode(c)| <= A.U64_MAX
    requires store.maxBytes + |state.codec.encode(next)| <= A.U64_MAX
    requires state.codec.decode(state.codec.encode(c)) == Some(c) && SamePlace(c, next)
    modifies state, store, again
    ensures first.Ok? && first.value.stored.Some? ==>
              && refused.None?
              && (SameEvidence(c, next) ==>
                   second.Ok? && second.value == Outcome(Match, Some(state.codec.hash(c)), None))
              && (!SameEvidence(c, next) && second.Ok? ==> second.value.status == Changed)
  {
    refused, second := None, Err(IndexUnreadable);
    first := FirstRun(state, store, c, allowed, update, writable, io);
    if first.Err? || first.value.stored.None? { return; }
    refused := state.OpenForRun(again, modified, opening);
    second := CompareAgain(state, again, c, next, updateNext, writableNext, ioNext, first.value.stored.value);
  }

  /**
   * A run over a store opened under whatever budget: a stored baseline matches
   * exactly if its file survived the opening, and is incompatible otherwise.
   */
  method NextRun(state: BaselineState, store: A.ArtifactStore, c: Envelope, next: Envelope, update: bool,
                 writable: bool,
                 modified: string -> int, opening: A.Io, io: A.Io, ghost id: string)
    returns (refused: Option<A.Refusal>, r: Result<Outcome, Failure>, ghost left: Disk)
    requires store.Valid() && store.index == map[]
    requires FilesFit(state.disk, A.U64_MAX)
    requires store.maxBytes + |state.codec.encode(next)| <= A.U64_MAX
    requires Retains(state.codec, state.index, state.disk, c, id) && SamePlace(c, next) && SameEvidence(c, next)
    modifies state, store
    ensures SomeOf(left, old(state.disk))
    ensures refused.None? && r.Ok? ==> r.value.status == if id in left then Match else Incompatible
    ensures refused.None? && id in left ==> r.Ok? && state.index == old(state.index) && state.disk == left
    ensures refused.Some? ==> state.index == old(state.index) && state.disk == left
  {
    r := Err(IndexUnreadable);
    refused := state.OpenForRun(store, modified, opening);
    left := state.disk;
    if refused.Some? { return; }
    r := CompareAgain(state, store, c, next, update, writable, io, id);
  }
}
