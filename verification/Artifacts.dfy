/**
 * The bounded artifact store: an index of retained files, a queue of their
 * ids in order of retention, and eviction of the oldest to stay in budget.
 */
module Artifacts {
  import opened Common
  import Text

  type Bytes = seq<bv8>

  const U64_MAX := 0xFFFF_FFFF_FFFF_FFFF

  datatype Meta = Meta(id: string, kind: string, bytes: nat)

  datatype Refusal =
    | TooLarge | CannotProject | RootChanged | Collision | Unreadable | DestinationExists | WriteFailed
    | PersistedDiffers | CannotRemove(id: string)

  /** A file found when the store is opened. */
  datatype Found = Found(modified: int, id: string, bytes: nat)

  /** What the file system does during one call. */
  datatype Io = Io(
    rootOk: bool,
    retained: Option<Bytes>,
    exists_: bool,
    writeOk: bool,
    readBack: Option<Bytes>,
    stuck: set<string>)

  function SaturatingAdd(a: nat, b: nat): nat { if a + b > U64_MAX then U64_MAX else a + b }

  function SaturatingSub(a: nat, b: nat): nat { if b > a then 0 else a - b }

  // -------------------------------------------------------------- the specification

  function SizeOf(index: map<string, Meta>, id: string): nat { if id in index then index[id].bytes else 0 }

  /** The indexed sizes along a list of ids. */
  function Total(index: map<string, Meta>, ids: seq<string>): nat {
    if ids == [] then 0 else SizeOf(index, ids[0]) + Total(index, ids[1..])
  }

  /** How many of the oldest go before the rest fits. */
  function Evictions(index: map<string, Meta>, ids: seq<string>, max: nat): (k: nat)
    ensures k <= |ids|
  {
    if Total(index, ids) <= max || ids == [] then 0 else 1 + Evictions(index, ids[1..], max)
  }

  /** The evicted prefix is the shortest that makes the rest fit. */
  lemma {:induction false} EvictionsAreFewest(index: map<string, Meta>, ids: seq<string>, max: nat)
    ensures Total(index, ids[Evictions(index, ids, max)..]) <= max
    ensures forall j | 0 <= j < Evictions(index, ids, max) :: Total(index, ids[j..]) > max
  {
    if ids == [] || Total(index, ids) <= max {
      assert ids[0..] == ids;
    } else {
      var k := Evictions(index, ids[1..], max);
      EvictionsAreFewest(index, ids[1..], max);
      assert ids[1 + k..] == ids[1..][k..];
      forall j | 0 <= j < 1 + k ensures Total(index, ids[j..]) > max {
        if j == 0 { assert ids[0..] == ids; } else { assert ids[j..] == ids[1..][j - 1..]; }
      }
    }
  }

  /** Nothing stands in the way of removing the first `n`: the root holds, and none of them is stuck. */
  predicate Removable(ids: seq<string>, n: nat, stuck: set<string>, rootOk: bool) {
    n <= |ids| && (n > 0 ==> rootOk) && forall i | 0 <= i < n :: ids[i] !in stuck
  }

  /** Of the first `n` the `k`-th is the first that cannot be removed, and why. */
  predicate StopsAt(ids: seq<string>, n: nat, k: nat, stuck: set<string>, rootOk: bool, why: Refusal) {
    && k < n <= |ids| && Removable(ids, k, stuck, rootOk)
    && why == (if rootOk then CannotRemove(ids[k]) else RootChanged) && (rootOk ==> ids[k] in stuck)
  }

  /** The shortest oldest-first prefix without which the rest fits. */
  predicate Fewest(files: seq<Found>, n: nat, limit: nat) {
    && n <= |files| && SumOf(files[n..]) <= limit
    && forall j | 0 <= j < n :: SumOf(files[j..]) > limit
  }

  lemma {:induction false} TotalAppend(index: map<string, Meta>, ids: seq<string>, id: string)
    ensures Total(index, ids + [id]) == Total(index, ids) + SizeOf(index, id)
  {
    if ids == [] {
      assert [id][1..] == [];
    } else {
      assert (ids + [id])[1..] == ids[1..] + [id];
      TotalAppend(index, ids[1..], id);
    }
  }

  lemma {:induction false} TotalFrames(index: map<string, Meta>, index': map<string, Meta>, ids: seq<string>)
    requires forall id | id in ids :: SizeOf(index, id) == SizeOf(index', id)
    ensures Total(index, ids) == Total(index', ids)
  {
    if ids != [] {
      assert ids[0] in ids && forall id | id in ids[1..] :: id in ids;
      TotalFrames(index, index', ids[1..]);
    }
  }

  /** Without its oldest artifact the queue still lists what is indexed, and totals less by its size. */
  lemma {:induction false} OldestGone(index: map<string, Meta>, queue: seq<string>)
    requires queue != [] && NoDuplicates(queue) && ToSet(queue) == index.Keys
    ensures var rest := index - {queue[0]};
            && ToSet(queue[1..]) == rest.Keys && NoDuplicates(queue[1..])
            && Total(index, queue) == index[queue[0]].bytes + Total(rest, queue[1..])
            && Total(rest, queue[1..]) == Total(index, queue[1..])
  {
    var id := queue[0];
    assert id in ToSet(queue) && id !in queue[1..];
    TotalFrames(index, index - {id}, queue[1..]);
    assert ToSet(queue[1..]) == ToSet(queue) - {id};
  }

  /** The newest stays: whatever fits by itself is never evicted for its own arrival. */
  lemma {:induction false} NewestStays(index: map<string, Meta>, ids: seq<string>, id: string, max: nat)
    requires SizeOf(index, id) <= max
    ensures Evictions(index, ids + [id], max) <= |ids|
  {
    if ids == [] {
      assert Total(index, [id]) == SizeOf(index, id) + Total(index, [id][1..]);
    } else {
      assert (ids + [id])[1..] == ids[1..] + [id];
      NewestStays(index, ids[1..], id, max);
    }
  }

  /** Oldest first by modification time, then by id. */
  predicate Older(a: Found, b: Found) {
    a.modified < b.modified || (a.modified == b.modified && Text.AtMost(a.id, b.id))
  }

  predicate ByAge(s: seq<Found>) { forall i, j | 0 <= i < j < |s| :: Older(s[i], s[j]) }

  function Place(s: seq<Found>, x: Found): (r: seq<Found>)
    ensures multiset(r) == multiset(s) + multiset{x} && |r| == |s| + 1
  {
    if s == [] || Older(x, s[0]) then [x] + s
    else
      assert s == [s[0]] + s[1..];
      [s[0]] + Place(s[1..], x)
  }

  lemma OlderTransitive(a: Found, b: Found, c: Found)
    requires Older(a, b) && Older(b, c)
    ensures Older(a, c)
  {
    if a.modified == b.modified == c.modified { Text.AtMostTransitive(a.id, b.id, c.id); }
  }

  lemma {:induction false} PlaceKeepsAge(s: seq<Found>, x: Found)
    requires ByAge(s)
    ensures ByAge(Place(s, x))
  {
    if s == [] {
    } else if Older(x, s[0]) {
      forall i | 0 < i < |s| ensures Older(x, s[i]) { OlderTransitive(x, s[0], s[i]); }
    } else {
      Text.AtMostTotal(x.id, s[0].id);
      PlaceKeepsAge(s[1..], x);
      var rest := Place(s[1..], x);
      forall y | y in rest ensures Older(s[0], y) {
        assert y in multiset(rest);
        if y != x {
          assert y in multiset(s[1..]);
          var k :| 0 <= k < |s[1..]| && s[1..][k] == y;
          assert s[k + 1] == y;
        }
      }
    }
  }

  predicate DistinctIds(found: seq<Found>) { forall i, j | 0 <= i < j < |found| :: found[i].id != found[j].id }

  function Ids(found: seq<Found>): seq<string> { seq(|found|, i requires 0 <= i < |found| => found[i].id) }

  function SumOf(found: seq<Found>): nat { if found == [] then 0 else found[0].bytes + SumOf(found[1..]) }

  /** The same files, in whatever order. */
  ghost predicate SameFiles(a: seq<Found>, b: seq<Found>) {
    |a| == |b| && SumOf(a) == SumOf(b) && forall f :: f in a <==> f in b
  }

  lemma {:induction false} SumAppend(found: seq<Found>, f: Found)
    ensures SumOf(found + [f]) == SumOf(found) + f.bytes
  {
    if found == [] {
      assert [f][1..] == [];
    } else {
      assert (found + [f])[1..] == found[1..] + [f];
      SumAppend(found[1..], f);
    }
  }

  lemma PlaceHolds(s: seq<Found>, x: Found)
    ensures forall f :: f in Place(s, x) <==> f in s || f == x
  {
    forall f: Found ensures f in Place(s, x) <==> f in s || f == x {
      assert f in multiset(Place(s, x)) <==> f in multiset(s) || f == x;
    }
  }

  lemma {:induction false} PlaceSums(s: seq<Found>, x: Found)
    ensures SumOf(Place(s, x)) == SumOf(s) + x.bytes
  {
    if s == [] {
      assert [x][1..] == [];
    } else if Older(x, s[0]) {
      assert ([x] + s)[1..] == s;
    } else {
      PlaceSums(s[1..], x);
      assert ([s[0]] + Place(s[1..], x))[1..] == Place(s[1..], x);
    }
  }

  lemma {:induction false} PlaceAdds(s: seq<Found>, x: Found)
    requires DistinctIds(s) && (forall f | f in s :: f.id != x.id)
    ensures DistinctIds(Place(s, x)) && SumOf(Place(s, x)) == SumOf(s) + x.bytes
    ensures forall f :: f in Place(s, x) <==> f in s || f == x
  {
    hide SumOf;
    PlaceHolds(s, x);
    PlaceSums(s, x);
    if s != [] && !Older(x, s[0]) {
      var tail := s[1..];
      forall j | 0 <= j < |tail| ensures tail[j] == s[j + 1] {}
      PlaceAdds(tail, x);
      var rest := Place(tail, x);
      forall j | 0 <= j < |rest| ensures rest[j].id != s[0].id { assert rest[j] in rest; }
    }
  }

  method SortByAge(found: seq<Found>) returns (r: seq<Found>)
    requires DistinctIds(found)
    ensures ByAge(r) && DistinctIds(r) && SameFiles(r, found)
  {
    r := [];
    for k := 0 to |found|
      invariant ByAge(r) && DistinctIds(r) && SameFiles(r, found[..k])
    {
      assert found[..k + 1] == found[..k] + [found[k]];
      SumAppend(found[..k], found[k]);
      PlaceKeepsAge(r, found[k]);
      PlaceAdds(r, found[k]);
      r := Place(r, found[k]);
    }
    assert found[..|found|] == found;
  }

  lemma IdsAppend(found: seq<Found>, f: Found)
    ensures Ids(found + [f]) == Ids(found) + [f.id]
  {
  }

  lemma {:induction false} SumUpTo(found: seq<Found>, k: nat)
    requires k <= |found|
    ensures SumOf(found[..k]) <= SumOf(found)
  {
    if k > 0 {
      SumUpTo(found[1..], k - 1);
      assert found[..k][1..] == found[1..][..k - 1];
    }
  }

  /** The indexed sizes along the ids of some files are the sizes of the files. */
  lemma {:induction false} TotalOfIds(index: map<string, Meta>, files: seq<Found>, j: nat)
    requires j <= |files|
    requires forall i | 0 <= i < |files| :: files[i].id in index && index[files[i].id].bytes == files[i].bytes
    ensures Total(index, Ids(files)[j..]) == SumOf(files[j..])
    decreases |files| - j
  {
    if j < |files| {
      assert Ids(files)[j..][1..] == Ids(files)[j + 1..] && files[j..][1..] == files[j + 1..];
      TotalOfIds(index, files, j + 1);
    }
  }

  lemma {:induction false} TotalWithout(index: map<string, Meta>, ids: seq<string>, k: nat)
    requires k < |ids|
    ensures Total(index, ids) == SizeOf(index, ids[k]) + Total(index, ids[..k] + ids[k + 1..])
  {
    if k == 0 {
      assert ids[..0] + ids[1..] == ids[1..];
    } else {
      TotalWithout(index, ids[1..], k - 1);
      var rest := ids[..k] + ids[k + 1..];
      assert rest[0] == ids[0] && rest[1..] == ids[1..][..k - 1] + ids[1..][k..];
    }
  }

  /** What a set of ids takes up does not depend on the order they are listed in. */
  lemma {:induction false} TotalOfSet(index: map<string, Meta>, a: seq<string>, b: seq<string>)
    requires NoDuplicates(a) && NoDuplicates(b) && ToSet(a) == ToSet(b)
    ensures Total(index, a) == Total(index, b)
  {
    if a == [] {
      Text.HeadIsListed(b);
    } else {
      assert a[0] in ToSet(b);
      var k :| 0 <= k < |b| && b[k] == a[0];
      var rest := b[..k] + b[k + 1..];
      TotalWithout(index, b, k);
      assert NoDuplicates(rest) && NoDuplicates(a[1..]);
      forall x ensures x in ToSet(a[1..]) <==> x in ToSet(rest) {
        assert x in ToSet(a[1..]) <==> x in ToSet(a) && x != a[0];
        WithoutOne(b, k, x);
      }
      TotalOfSet(index, a[1..], rest);
    }
  }

  lemma WithoutOne(b: seq<string>, k: nat, x: string)
    requires k < |b| && NoDuplicates(b)
    ensures x in ToSet(b[..k] + b[k + 1..]) <==> x in ToSet(b) && x != b[k]
  {
    var rest := b[..k] + b[k + 1..];
    if x in b && x != b[k] {
      var j :| 0 <= j < |b| && b[j] == x;
      assert rest[if j < k then j else j - 1] == x;
    }
    if x in rest {
      var j :| 0 <= j < |rest| && rest[j] == x;
      assert b[if j < k then j else j + 1] == x;
    }
  }

  // --------------------------------------------------------------------- the store

  class ArtifactStore {
    const maxBytes: nat
    const contentId: Bytes -> string
    var index: map<string, Meta>
    var queue: seq<string>
    var used: nat

    /** `used` is the sum of the indexed sizes, and the queue lists each indexed id once. */
    ghost predicate Valid()
      reads this
    {
      && NoDuplicates(queue) && ToSet(queue) == index.Keys
      && (forall id | id in index :: index[id].id == id)
      && used == Total(index, queue)
    }

    constructor (maxBytes: nat, contentId: Bytes -> string)
      ensures Valid() && index == map[] && this.maxBytes == maxBytes && this.contentId == contentId
    {
      this.maxBytes, this.contentId := maxBytes, contentId;
      index, queue, used := map[], [], 0;
    }

    /** `restore_existing`: index the files found, oldest first. */
    method RestoreExisting(found: seq<Found>) returns (ghost aged: seq<Found>)
      requires Valid() && index == map[] && DistinctIds(found) && SumOf(found) <= U64_MAX
      modifies this
      ensures Valid() && ByAge(aged) && DistinctIds(aged) && SameFiles(aged, found) && Restored(aged, |aged|)
      ensures used == SumOf(found)
    {
      var sorted := SortByAge(found);
      aged := sorted;
      Text.HeadIsListed(queue);
      assert Ids([]) == [];
      for k := 0 to |sorted|
        invariant Valid() && used == SumOf(sorted[..k]) && Restored(sorted, k)
      {
        SumUpTo(sorted, k + 1);
        RestoreNext(sorted, k);
      }
      assert sorted[..|sorted|] == sorted;
    }

    /** One more file, behind those already restored. */
    method RestoreNext(sorted: seq<Found>, k: nat)
      requires Valid() && k < |sorted| && sorted[k].id !in index && Restored(sorted, k)
      requires used == SumOf(sorted[..k]) && SumOf(sorted[..k + 1]) <= U64_MAX
      modifies this
      ensures Valid() && used == SumOf(sorted[..k + 1]) && Restored(sorted, k + 1)
    {
      hide Total, SumOf;
      assert sorted[..k + 1] == sorted[..k] + [sorted[k]];
      IdsAppend(sorted[..k], sorted[k]);
      SumAppend(sorted[..k], sorted[k]);
      Index(Meta(sorted[k].id, "retained", sorted[k].bytes));
    }

    /** Exactly the first `k` files are indexed, in their order. */
    ghost predicate Restored(aged: seq<Found>, k: nat)
      requires k <= |aged|
      reads this
    {
      && queue == Ids(aged[..k])
      && (forall i | 0 <= i < k ::
           aged[i].id in index && index[aged[i].id] == Meta(aged[i].id, "retained", aged[i].bytes))
      && (forall id | id in index :: exists i :: 0 <= i < k && aged[i].id == id)
    }

    /**
     * `open`: restore what is on disk, then evict the oldest down to the limit; after a failed
     * eviction there is no store.
     */
    method Open(found: seq<Found>, io: Io)
      returns (failed: Option<Refusal>, ghost aged: seq<Found>, ghost k: nat, ghost n: nat)
      requires Valid() && index == map[] && DistinctIds(found) && SumOf(found) <= U64_MAX
      modifies this
      ensures Valid() && ByAge(aged) && DistinctIds(aged) && SameFiles(aged, found)
      ensures k <= |aged| && queue == Ids(aged)[k..]
      ensures SumOf(found) <= maxBytes ==> queue == Ids(aged) && used == SumOf(found)
      ensures failed.None? <==> used <= maxBytes
      ensures forall i | 0 <= i < |aged| && aged[i].id in index :: index[aged[i].id].bytes == aged[i].bytes
      ensures Fewest(aged, n, maxBytes) && (failed.None? ==> k == n)
      ensures failed.None? <==> Removable(Ids(aged), n, io.stuck, io.rootOk)
      ensures failed.Some? ==> StopsAt(Ids(aged), n, k, io.stuck, io.rootOk, failed.value)
    {
      hide SumOf, Total, Evictions, Removable, StopsAt, ByAge, DistinctIds, SameFiles;
      aged := RestoreExisting(found);
      assert aged[..|aged|] == aged;
      ghost var index0 := index;
      failed, k := Gc(io.stuck, io.rootOk);
      n := Evictions(index0, Ids(aged), maxBytes);
      EvictionsAreFewest(index0, Ids(aged), maxBytes);
      forall j | 0 <= j <= |aged| ensures Total(index0, Ids(aged)[j..]) == SumOf(aged[j..]) {
        TotalOfIds(index0, aged, j);
      }
    }

    /** `projected_used_bytes_after_put`: what `put` would leave in use. */
    method ProjectedUsedBytesAfterPut(bytes: Bytes) returns (r: Result<nat, Refusal>)
      requires Valid() && used + |bytes| <= U64_MAX
      ensures var id := contentId(bytes);
              && r == Projection(index, queue, used, id, |bytes|, maxBytes)
              && (r.Err? <==> id !in index && |bytes| > maxBytes) && (r.Err? ==> r.error == TooLarge)
              && (id in index ==> r == Ok(used))
              && (r.Ok? && id !in index ==> exists n: nat :: Leaves(index, queue, |bytes|, maxBytes, n, r.value))
    {
      var id := contentId(bytes);
      if id in index { return Ok(used); }
      var incoming := |bytes|;
      if incoming > maxBytes { return Err(TooLarge); }
      var projected := SaturatingAdd(used, incoming);
      ghost var index' := index[id := Meta(id, "", incoming)];
      ghost var all := queue + [id];
      TotalOfPut(index, queue, id, incoming);
      NewestStays(index', queue, id, maxBytes);
      var k := 0;
      while k < |queue| && projected > maxBytes
        invariant k <= |queue| && projected == Total(index', all[k..])
        invariant k + Evictions(index', all[k..], maxBytes) == Evictions(index', all, maxBytes)
      {
        assert queue[k] in ToSet(queue);
        assert all[k..][0] == queue[k] && all[k..][1..] == all[k + 1..];
        projected := SaturatingSub(projected, index[queue[k]].bytes);
        k := k + 1;
      }
      FitsAtLast(index', queue, id, k, maxBytes);
      AfterPutLeaves(index, queue, id, incoming, maxBytes);
      // The source refuses once more if the projection is still over the limit; here it never is.
      return Ok(projected);
    }

    /** An artifact already retained: checked against its file, kept as it is but for a restored kind. */
    method PutRetained(kind: string, bytes: Bytes, id: string, io: Io) returns (r: Result<Meta, Refusal>)
      requires Valid() && id in index
      modifies this
      ensures Valid() && queue == old(queue) && used == old(used) && index.Keys == old(index).Keys
      ensures forall x | x in index && x != id :: index[x] == old(index)[x]
      ensures r.Ok? <==> old(index)[id].bytes == |bytes| && io.retained == Some(bytes)
      ensures r.Err? ==>
                r.error == if old(index)[id].bytes == |bytes| && io.retained.None? then Unreadable else Collision
      ensures r.Ok? ==>
                && r.value == index[id]
                && index[id] ==
                   old(index)[id].(kind := if old(index)[id].kind == "retained" then kind else old(index)[id].kind)
      ensures r.Err? ==> index == old(index)
    {
      var existing := index[id];
      if existing.bytes != |bytes| { return Err(Collision); }
      if io.retained.None? { return Err(Unreadable); }
      if io.retained.value != bytes { return Err(Collision); }
      if existing.kind == "retained" {
        ghost var before := index;
        existing := existing.(kind := kind);
        index := index[id := existing];
        TotalFrames(before, index, queue);
      }
      return Ok(existing);
    }

    /** Everything a put needs: of the store, of the file system, and of the files it has to evict. */
    ghost predicate Takes(bytes: Bytes, io: Io)
      reads this
    {
      var id := contentId(bytes);
      && io.rootOk
      && if id in index then index[id].bytes == |bytes| && io.retained == Some(bytes)
         else
           && |bytes| <= maxBytes && !io.exists_ && io.writeOk && io.readBack == Some(bytes)
           && Removable(queue, Evictions(index[id := Meta(id, "", |bytes|)], queue + [id], maxBytes), io.stuck, true)
    }

    /**
     * `put`: retain an artifact, then evict the oldest until the store fits.
     * It succeeds exactly when the file system lets it, and every refusal has
     * its own reason.
     */
    method Put(kind: string, bytes: Bytes, io: Io) returns (r: Result<Meta, Refusal>)
      requires Valid() && used + |bytes| <= U64_MAX
      modifies this
      ensures Valid()
      ensures r.Ok? <==> old(Takes(bytes, io))
      ensures var id := contentId(bytes);
              id !in old(index) ==>
                && (r == Err(TooLarge) <==> |bytes| > maxBytes)
                && (r == Err(RootChanged) <==> |bytes| <= maxBytes && !io.rootOk)
                && (|bytes| <= maxBytes && io.rootOk ==>
                     && (r == Err(DestinationExists) <==> io.exists_)
                     && (r == Err(WriteFailed) <==> !io.exists_ && !io.writeOk)
                     && (r == Err(Unreadable) <==> !io.exists_ && io.writeOk && io.readBack.None?)
                     && (r == Err(PersistedDiffers) <==>
                           !io.exists_ && io.writeOk && io.readBack.Some? && io.readBack.value != bytes)
                     && (!io.exists_ && io.writeOk && io.readBack == Some(bytes) ==>
                           Arrives(old(index), old(queue), id, |bytes|, io.stuck, r)))
      ensures var id := contentId(bytes);
              id in old(index) ==>
                && (r == Err(RootChanged) <==> !io.rootOk)
                && (r == Err(Unreadable) <==> io.rootOk && old(index)[id].bytes == |bytes| && io.retained.None?)
                && (r == Err(Collision) <==>
                      io.rootOk && (old(index)[id].bytes != |bytes| || io.retained !in {None, Some(bytes)}))
      ensures var id := contentId(bytes);
              r.Ok? ==>
                && id in index && index[id] == r.value && index[id].bytes == |bytes|
                && Projection(old(index), old(queue), old(used), id, |bytes|, maxBytes) == Ok(used)
                && (used <= maxBytes <==> id !in old(index) || old(used) <= maxBytes)
                && (id !in old(index) ==> r.value.kind == kind && Retained(old(index), old(queue), r.value))
                && (id in old(index) ==> index.Keys == old(index).Keys && queue == old(queue) && used == old(used))
      ensures forall x | x in index && x in old(index) :: index[x].bytes == old(index)[x].bytes
      ensures forall x | x in index && x !in old(index) :: x == contentId(bytes) && index[x].bytes == |bytes|
      ensures r.Err? ==>
                if r.error.CannotRemove? then
                  PartlyEvicted(old(index), old(queue), Meta(contentId(bytes), kind, |bytes|))
                else Unchanged(old(index), old(queue), old(used))
    {
      var id := contentId(bytes);
      var projected := ProjectedUsedBytesAfterPut(bytes);
      if projected.Err? { return Err(projected.error); }
      if !io.rootOk { return Err(RootChanged); }
      if id in index {
        r := PutRetained(kind, bytes, id, io);
        return;
      }
      if io.exists_ { return Err(DestinationExists); }
      if !io.writeOk { return Err(WriteFailed); }
      if io.readBack.None? { return Err(Unreadable); }
      if io.readBack.value != bytes { return Err(PersistedDiffers); }
      r := PutNew(Meta(id, kind, |bytes|), io);
    }

    /** Index a newly persisted artifact and evict the oldest until the store fits. */
    method PutNew(meta: Meta, io: Io) returns (r: Result<Meta, Refusal>)
      requires Valid() && meta.id !in index && meta.bytes <= maxBytes && used + meta.bytes <= U64_MAX
      modifies this
      ensures Valid()
      ensures r.Ok? ==> r.value == meta && used <= maxBytes && Retained(old(index), old(queue), meta)
                        && used == AfterPut(old(index), old(queue), meta.id, meta.bytes, maxBytes)
      ensures r.Err? ==> PartlyEvicted(old(index), old(queue), meta)
      ensures io.rootOk ==> Arrives(old(index), old(queue), meta.id, meta.bytes, io.stuck, r)
    {
      hide Total, Evictions, Removable, StopsAt, ToSet, AfterPut;
      Index(meta);
      NewestStays(index, old(queue), meta.id, maxBytes);
      KindIsImmaterial(old(index), old(queue), meta, maxBytes);
      ghost var index' := index;
      var failed, k := Gc(io.stuck, io.rootOk);
      if io.rootOk { OldestDecide(old(index), old(queue), meta, maxBytes, io.stuck, failed, k); }
      assert queue[|queue| - 1] == meta.id;
      assert PartlyEvicted(old(index), old(queue), meta);
      if failed.Some? { return Err(failed.value); }
      TrimmedSizes(index', old(queue) + [meta.id], k);
      return Ok(meta);
    }

    /** With the artifact on disk, all that can go wrong is a stuck file among the oldest that have to go. */
    ghost predicate Arrives(index0: map<string, Meta>, queue0: seq<string>, id: string, size: nat, stuck: set<string>,
                            r: Result<Meta, Refusal>)
      reads this
    {
      var n := Evictions(index0[id := Meta(id, "", size)], queue0 + [id], maxBytes);
      if Removable(queue0, n, stuck, true) then r.Ok?
      else r.Err? && exists k :: StopsAt(queue0, n, k, stuck, true, r.error)
    }

    /** What is left keeps its size. */
    lemma TrimmedSizes(index0: map<string, Meta>, queue0: seq<string>, k: nat)
      requires Valid() && Trimmed(index0, queue0, k)
      ensures Total(index0, queue0[k..]) == used
    {
      forall id | id in queue ensures SizeOf(index0, id) == SizeOf(index, id) { assert id in ToSet(queue); }
      TotalFrames(index0, index, queue);
    }

    /** The new artifact goes to the end of the queue and the index. */
    method Index(meta: Meta)
      requires Valid() && meta.id !in index && used + meta.bytes <= U64_MAX
      modifies this
      ensures Valid() && index == old(index)[meta.id := meta] && queue == old(queue) + [meta.id]
      ensures used == old(used) + meta.bytes
    {
      TotalOfPut(index, queue, meta.id, meta.bytes);
      assert meta == Meta(meta.id, meta.kind, meta.bytes);
      assert meta.id !in ToSet(queue);
      used := SaturatingAdd(used, meta.bytes);
      index := index[meta.id := meta];
      queue := queue + [meta.id];
    }

    ghost predicate Unchanged(index0: map<string, Meta>, queue0: seq<string>, used0: nat)
      reads this
    {
      index == index0 && queue == queue0 && used == used0
    }

    /** Retained, and the shortest oldest-first prefix that had to go is gone. */
    ghost predicate Retained(index0: map<string, Meta>, queue0: seq<string>, meta: Meta)
      reads this
    {
      var index', all := index0[meta.id := meta], queue0 + [meta.id];
      Trimmed(index', all, Evictions(index', all, maxBytes)) && meta.id in queue
    }

    /** Retained, but eviction stopped early at a file that could not be removed. */
    ghost predicate PartlyEvicted(index0: map<string, Meta>, queue0: seq<string>, meta: Meta)
      reads this
    {
      var index', all := index0[meta.id := meta], queue0 + [meta.id];
      meta.id in queue && exists k :: 0 <= k <= Evictions(index', all, maxBytes) && Trimmed(index', all, k)
    }

    /** The oldest `k` are gone, and nothing else. */
    ghost predicate Trimmed(index0: map<string, Meta>, queue0: seq<string>, k: nat)
      reads this
    {
      k <= |queue0| && queue == queue0[k..] && index == index0 - ToSet(queue0[..k])
    }

    /** Forget the oldest artifact. */
    method DropOldest(ghost index0: map<string, Meta>, ghost queue0: seq<string>, ghost k: nat)
      requires Valid() && queue != [] && Trimmed(index0, queue0, k)
      modifies this
      ensures Valid() && Trimmed(index0, queue0, k + 1) && used == Total(index, old(queue)[1..])
      ensures queue == old(queue)[1..] && index == old(index) - {old(queue)[0]}
      ensures forall id | id in queue :: SizeOf(index, id) == SizeOf(old(index), id)
    {
      hide Total;
      OldestGone(index, queue);
      assert queue0[..k + 1] == queue0[..k] + [queue0[k]];
      var id := queue[0];
      var bytes := index[id].bytes;
      queue := queue[1..];
      index := index - {id};
      used := SaturatingSub(used, bytes);
    }

    /** `gc`: drop the oldest until the rest fits, or until one cannot be removed. */
    method Gc(stuck: set<string>, rootOk: bool) returns (failed: Option<Refusal>, ghost k: nat)
      requires Valid()
      modifies this
      ensures Valid() && Trimmed(old(index), old(queue), k) && k <= Evictions(old(index), old(queue), maxBytes)
      ensures failed.None? ==> k == Evictions(old(index), old(queue), maxBytes)
      ensures failed.None? <==> used <= maxBytes
      ensures var n := Evictions(old(index), old(queue), maxBytes);
              && (failed.None? <==> Removable(old(queue), n, stuck, rootOk))
              && (failed.Some? ==> StopsAt(old(queue), n, k, stuck, rootOk, failed.value))
      ensures old(used) <= maxBytes ==> Unchanged(old(index), old(queue), old(used))
    {
      k := 0;
      failed := None;
      assert queue == queue[0..];
      while used > maxBytes
        invariant Valid() && k <= Evictions(old(index), old(queue), maxBytes) && Trimmed(old(index), old(queue), k)
        invariant k + Evictions(index, queue, maxBytes) == Evictions(old(index), old(queue), maxBytes)
        invariant Removable(old(queue), k, stuck, rootOk)
        invariant old(used) <= maxBytes ==> Unchanged(old(index), old(queue), old(used))
        decreases |queue|
      {
        var id := queue[0];
        if !rootOk { return Some(RootChanged), k; }
        if id in stuck { return Some(CannotRemove(id)), k; }
        ghost var index0, rest := index, queue[1..];
        DropOldest(old(index), old(queue), k);
        EvictionsFrame(index0, index, rest, maxBytes);
        k := k + 1;
      }
    }
  }

  lemma {:induction false} KindIsImmaterial(index: map<string, Meta>, queue: seq<string>, meta: Meta, max: nat)
    ensures var index', all := index[meta.id := meta], queue + [meta.id];
            AfterPut(index, queue, meta.id, meta.bytes, max) == Total(index', all[Evictions(index', all, max)..])
  {
    var index', plain := index[meta.id := meta], index[meta.id := Meta(meta.id, "", meta.bytes)];
    var all := queue + [meta.id];
    EvictionsFrame(plain, index', all, max);
    TotalFrames(plain, index', all[Evictions(index', all, max)..]);
  }

  /** What stops an eviction after a put is among the files that were there before. */
  lemma {:induction false} OldestDecide(index: map<string, Meta>, queue: seq<string>, meta: Meta, max: nat,
                                        stuck: set<string>, failed: Option<Refusal>, k: nat)
    requires meta.bytes <= max
    requires var index', all := index[meta.id := meta], queue + [meta.id];
             var n := Evictions(index', all, max);
             && (failed.None? <==> Removable(all, n, stuck, true))
             && (failed.Some? ==> StopsAt(all, n, k, stuck, true, failed.value))
    ensures var n := Evictions(index[meta.id := Meta(meta.id, "", meta.bytes)], queue + [meta.id], max);
            && (failed.None? <==> Removable(queue, n, stuck, true))
            && (failed.Some? ==> StopsAt(queue, n, k, stuck, true, failed.value))
  {
    var index', plain := index[meta.id := meta], index[meta.id := Meta(meta.id, "", meta.bytes)];
    var all := queue + [meta.id];
    EvictionsFrame(plain, index', all, max);
    NewestStays(index', queue, meta.id, max);
    assert forall i | 0 <= i < |queue| :: all[i] == queue[i];
  }

  lemma {:induction false} EvictionsFrame(index: map<string, Meta>, index': map<string, Meta>, ids: seq<string>,
                                          max: nat)
    requires forall id | id in ids :: SizeOf(index, id) == SizeOf(index', id)
    ensures Evictions(index, ids, max) == Evictions(index', ids, max)
  {
    TotalFrames(index, index', ids);
    if ids != [] { EvictionsFrame(index, index', ids[1..], max); }
  }

  lemma {:induction false} FitsAtLast(index: map<string, Meta>, queue: seq<string>, id: string, k: nat, max: nat)
    requires k <= |queue| && SizeOf(index, id) <= max
    ensures var rest := (queue + [id])[k..];
            && (k == |queue| ==> Total(index, rest) <= max)
            && (Total(index, rest) <= max ==> Evictions(index, rest, max) == 0)
  {
    var rest := (queue + [id])[k..];
    if k == |queue| {
      assert rest == [id];
      assert Total(index, rest) == SizeOf(index, id) + Total(index, [id][1..]);
    }
  }

  /** Bytes in use once an absent artifact has been put and the oldest evicted. */
  function AfterPut(index: map<string, Meta>, queue: seq<string>, id: string, size: nat, max: nat): nat {
    var index' := index[id := Meta(id, "", size)];
    var all := queue + [id];
    Total(index', all[Evictions(index', all, max)..])
  }

  function Projection(index: map<string, Meta>, queue: seq<string>, used: nat, id: string, size: nat,
                      max: nat): Result<nat, Refusal> {
    if id in index then Ok(used) else if size > max then Err(TooLarge) else Ok(AfterPut(index, queue, id, size, max))
  }

  lemma {:induction false} TotalOfPut(index: map<string, Meta>, queue: seq<string>, id: string, size: nat)
    requires id !in index && ToSet(queue) == index.Keys
    ensures forall kind :: Total(index[id := Meta(id, kind, size)], queue + [id]) == Total(index, queue) + size
  {
    forall kind ensures Total(index[id := Meta(id, kind, size)], queue + [id]) == Total(index, queue) + size {
      var index' := index[id := Meta(id, kind, size)];
      TotalAppend(index', queue, id);
      forall x | x in queue ensures SizeOf(index, x) == SizeOf(index', x) { assert x in ToSet(queue); }
      TotalFrames(index, index', queue);
    }
  }

  /** Without the `n` oldest, and with no fewer, the rest fits beside what comes in. */
  predicate Leaves(index: map<string, Meta>, queue: seq<string>, size: nat, max: nat, n: nat, left: nat) {
    && n <= |queue| && left == size + Total(index, queue[n..]) <= max
    && forall j | 0 <= j < n :: size + Total(index, queue[j..]) > max
  }

  lemma RestOfPut(index: map<string, Meta>, queue: seq<string>, id: string, size: nat, j: nat)
    requires id !in index && ToSet(queue) == index.Keys && j <= |queue|
    ensures Total(index[id := Meta(id, "", size)], (queue + [id])[j..]) == Total(index, queue[j..]) + size
  {
    var index' := index[id := Meta(id, "", size)];
    assert (queue + [id])[j..] == queue[j..] + [id];
    TotalAppend(index', queue[j..], id);
    forall x | x in queue[j..] ensures SizeOf(index, x) == SizeOf(index', x) { assert x in ToSet(queue); }
    TotalFrames(index, index', queue[j..]);
  }

  lemma AfterPutLeaves(index: map<string, Meta>, queue: seq<string>, id: string, size: nat, max: nat)
    requires id !in index && ToSet(queue) == index.Keys && size <= max
    ensures exists n: nat :: Leaves(index, queue, size, max, n, AfterPut(index, queue, id, size, max))
  {
    var index' := index[id := Meta(id, "", size)];
    var n := Evictions(index', queue + [id], max);
    NewestStays(index', queue, id, max);
    EvictionsAreFewest(index', queue + [id], max);
    forall j | 0 <= j <= n ensures Total(index', (queue + [id])[j..]) == Total(index, queue[j..]) + size {
      RestOfPut(index, queue, id, size, j);
    }
    assert Leaves(index, queue, size, max, n, AfterPut(index, queue, id, size, max));
  }
}
