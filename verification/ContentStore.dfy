/** The content-addressed store: dependency closure, garbage collection and what hashes identify. */
module ContentStore {
  import opened Common
  import opened CanonicalJson
  import Text

  type Hash = string

  datatype Kind =
    Semantic | Layout | Visual | Region | Evidence | Proof | Contract | State | Asset | Report | Baseline | Attestation

  datatype RuntimeObject = RuntimeObject(kind: Kind, schemaVersion: nat, payload: Json, dependencies: seq<Hash>)

  type Objects = map<Hash, RuntimeObject>

  /** Sort and drop repetitions. */
  function Deduplicated(o: RuntimeObject): RuntimeObject {
    o.(dependencies := Text.Sorted(ToSet(o.dependencies)))
  }

  /** What an object's hash is taken of, as JSON. */
  function AsJson(o: RuntimeObject): Json {
    Object([("kind", Str(KindName(o.kind))), ("schema_version", Number(Decimal(o.schemaVersion))),
            ("payload", o.payload), ("dependencies", Strings(o.dependencies))])
  }

  function Strings(texts: seq<string>): Json {
    Array(seq(|texts|, i requires 0 <= i < |texts| => Str(texts[i])))
  }

  function KindName(k: Kind): string {
    match k
    case Semantic => "semantic" case Layout => "layout" case Visual => "visual" case Region => "region"
    case Evidence => "evidence" case Proof => "proof" case Contract => "contract" case State => "state"
    case Asset => "asset" case Report => "report" case Baseline => "baseline" case Attestation => "attestation"
  }

  function Decimal(n: nat): string {
    if n < 10 then [('0' as int + n) as char] else Decimal(n / 10) + [('0' as int + n % 10) as char]
  }

  // -------------------------------------------------------------- dependency closure

  function DependenciesOf(objects: Objects, h: Hash): set<Hash> {
    if h in objects then ToSet(objects[h].dependencies) else {}
  }

  /** Contains the root, and with every stored object its dependencies. */
  ghost predicate ClosedFrom(objects: Objects, root: Hash, s: set<Hash>) {
    root in s && forall h | h in s :: DependenciesOf(objects, h) <= s
  }

  /** The least such set. */
  ghost predicate IsClosure(objects: Objects, root: Hash, s: set<Hash>) {
    ClosedFrom(objects, root, s) && forall t | ClosedFrom(objects, root, t) :: s <= t
  }

  /** Every hash that can turn up from a root. */
  ghost function Mentioned(objects: Objects, root: Hash): set<Hash> {
    {root} + (set h, d | h in objects && d in ToSet(objects[h].dependencies) :: d)
  }

  ghost predicate Walking(objects: Objects, root: Hash, visited: set<Hash>, queue: seq<Hash>) {
    && (root in visited || root in queue)
    && (forall h | h in visited :: DependenciesOf(objects, h) <= visited + ToSet(queue))
    && visited <= Mentioned(objects, root) && ToSet(queue) <= Mentioned(objects, root)
    && (forall t | ClosedFrom(objects, root, t) :: visited + ToSet(queue) <= t)
  }

  lemma {:induction false} WalksOn(objects: Objects, root: Hash, visited: set<Hash>, queue: seq<Hash>)
    requires Walking(objects, root, visited, queue) && queue != []
    ensures var h := queue[0];
            var rest := if h in visited || h !in objects then queue[1..] else queue[1..] + objects[h].dependencies;
            Walking(objects, root, visited + {h}, rest) && h in Mentioned(objects, root)
  {
    var h := queue[0];
    var rest := if h in visited || h !in objects then queue[1..] else queue[1..] + objects[h].dependencies;
    assert queue == [h] + queue[1..];
    assert ToSet(queue) == {h} + ToSet(queue[1..]);
    assert ToSet(rest) ==
           if h in visited || h !in objects then ToSet(queue[1..])
           else ToSet(queue[1..]) + DependenciesOf(objects, h);
    if h in objects { assert DependenciesOf(objects, h) <= Mentioned(objects, root); }
    forall t | ClosedFrom(objects, root, t) ensures visited + {h} + ToSet(rest) <= t {
      assert h in visited + ToSet(queue);
    }
  }

  datatype Search = Search(visited: set<Hash>, queue: seq<Hash>)

  ghost predicate Walk(objects: Objects, root: Hash, s: Search) { Walking(objects, root, s.visited, s.queue) }

  function Next(objects: Objects, s: Search): Search
    requires s.queue != []
  {
    var h, rest := s.queue[0], s.queue[1..];
    if h in s.visited then Search(s.visited, rest)
    else Search(s.visited + {h}, if h in objects then rest + objects[h].dependencies else rest)
  }

  lemma WalkBegins(objects: Objects, root: Hash)
    ensures Walk(objects, root, Search({}, [root]))
  {
    assert ToSet([root]) == {root};
  }

  lemma {:induction false} WalkGoesOn(objects: Objects, root: Hash, s: Search)
    requires Walk(objects, root, s) && s.queue != []
    ensures var s' := Next(objects, s);
            && Walk(objects, root, s')
            && (s.queue[0] !in s.visited ==>
                 |Mentioned(objects, root) - s'.visited| < |Mentioned(objects, root) - s.visited|)
  {
    assert Walking(objects, root, s.visited, s.queue);
    WalksOn(objects, root, s.visited, s.queue);
    var h := s.queue[0];
    if h in s.visited {
      assert s.visited + {h} == s.visited;
    } else {
      assert Mentioned(objects, root) - (s.visited + {h}) == (Mentioned(objects, root) - s.visited) - {h};
    }
  }

  lemma WalkEnds(objects: Objects, root: Hash, s: Search)
    requires Walk(objects, root, s) && s.queue == []
    ensures IsClosure(objects, root, s.visited)
  {
    assert Walking(objects, root, s.visited, s.queue);
    assert s.visited + ToSet([]) == s.visited;
  }

  // ---------------------------------------------------------------------- the store

  class Store {
    /** The content hash of a JSON value. */
    const hashOf: Json -> Hash
    var objects: Objects

    constructor (hashOf: Json -> Hash)
      ensures objects == map[] && this.hashOf == hashOf
    {
      this.hashOf, objects := hashOf, map[];
    }

    /** An object's hash is taken of its canonical form. */
    function ObjectHash(o: RuntimeObject): Hash { hashOf(Canonical(AsJson(o))) }

    /** `insert`: what is already stored under the hash stays. */
    method Insert(o: RuntimeObject) returns (h: Hash)
      modifies this
      ensures h == ObjectHash(Deduplicated(o))
      ensures objects == if h in old(objects) then old(objects) else old(objects)[h := Deduplicated(o)]
    {
      var kept := Deduplicated(o);
      h := ObjectHash(kept);
      if h !in objects { objects := objects[h := kept]; }
    }

    /** `dependency_closure` */
    method DependencyClosure(root: Hash) returns (visited: set<Hash>)
      ensures IsClosure(objects, root, visited)
    {
      hide Walk;
      visited := {};
      var queue := [root];
      WalkBegins(objects, root);
      while queue != []
        invariant Walk(objects, root, Search(visited, queue))
        decreases |Mentioned(objects, root) - visited|, |queue|
      {
        WalkGoesOn(objects, root, Search(visited, queue));
        var h := queue[0];
        queue := queue[1..];
        if h !in visited {
          visited := visited + {h};
          if h in objects { queue := queue + objects[h].dependencies; }
        }
      }
      WalkEnds(objects, root, Search(visited, queue));
    }

    /** `collect_garbage` */
    method CollectGarbage(roots: seq<Hash>) returns (removed: nat)
      modifies this
      ensures Swept(old(objects), roots, objects)
      ensures removed == |old(objects)| - |objects|
    {
      var keep: set<Hash> := {};
      for i := 0 to |roots|
        invariant objects == old(objects)
        invariant forall h :: h in keep <==> exists j :: 0 <= j < i && Reachable(objects, roots[j], h)
      {
        var closure := DependencyClosure(roots[i]);
        ClosureIsReachable(objects, roots[i], closure);
        keep := keep + closure;
      }
      var before := |objects|;
      objects := map h | h in objects && h in keep :: objects[h];
      RestrictedSize(old(objects), objects);
      removed := if before > |objects| then before - |objects| else 0;
    }
  }

  /** In every set closed from the root. */
  ghost predicate Reachable(objects: Objects, root: Hash, h: Hash) {
    forall t | ClosedFrom(objects, root, t) :: h in t
  }

  lemma ClosureIsReachable(objects: Objects, root: Hash, s: set<Hash>)
    requires IsClosure(objects, root, s)
    ensures forall h :: h in s <==> Reachable(objects, root, h)
  {
  }

  /** Reachability unfolds as it should: the root, and the dependencies of what is reachable and stored. */
  lemma ReachableSteps(objects: Objects, root: Hash, h: Hash, d: Hash)
    ensures Reachable(objects, root, root)
    ensures Reachable(objects, root, h) && d in DependenciesOf(objects, h) ==> Reachable(objects, root, d)
  {
    forall t | ClosedFrom(objects, root, t) && h in t && d in DependenciesOf(objects, h) ensures d in t {}
  }

  ghost predicate FromSome(objects: Objects, roots: seq<Hash>, h: Hash) {
    exists j :: 0 <= j < |roots| && Reachable(objects, roots[j], h)
  }

  /** Exactly the stored objects reachable from a root are left, as they were. */
  ghost predicate Swept(before: Objects, roots: seq<Hash>, after: Objects) {
    && (forall h :: h in after <==> h in before && FromSome(before, roots, h))
    && (forall h | h in after :: after[h] == before[h])
  }

  /** No kept object loses a stored dependency. */
  lemma DependenciesSurvive(before: Objects, roots: seq<Hash>, after: Objects, h: Hash, d: Hash)
    requires Swept(before, roots, after) && h in after && d in ToSet(after[h].dependencies) && d in before
    ensures d in after
  {
    var j :| 0 <= j < |roots| && Reachable(before, roots[j], h);
    ReachableSteps(before, roots[j], h, d);
  }

  /** Sweeping takes nothing away that a root could reach. */
  lemma ReachabilitySurvives(before: Objects, roots: seq<Hash>, after: Objects, j: nat, h: Hash)
    requires Swept(before, roots, after) && j < |roots| && Reachable(before, roots[j], h)
    ensures Reachable(after, roots[j], h)
  {
    var root := roots[j];
    forall t | ClosedFrom(after, root, t) ensures h in t {
      // What `t` lacks it can only lack outside the reachable part.
      var s := Closure(before, root);
      var u := t * s;
      forall x | x in u ensures DependenciesOf(before, x) <= u {
        assert Reachable(before, root, x);
        if x in before { assert x in after; }
      }
      assert ClosedFrom(before, root, u);
    }
  }

  /** The closure exists: take everything mentioned and keep what is reachable. */
  ghost function Closure(objects: Objects, root: Hash): (s: set<Hash>)
    ensures IsClosure(objects, root, s)
  {
    var s := set h | h in Mentioned(objects, root) && Reachable(objects, root, h);
    ClosureExists(objects, root, s);
    s
  }

  lemma ClosureExists(objects: Objects, root: Hash, s: set<Hash>)
    requires s == set h | h in Mentioned(objects, root) && Reachable(objects, root, h)
    ensures IsClosure(objects, root, s)
  {
    ReachableSteps(objects, root, root, root);
    forall h | h in s ensures DependenciesOf(objects, h) <= s {
      forall d | d in DependenciesOf(objects, h) ensures d in s { ReachableSteps(objects, root, h, d); }
    }
  }

  /** Collecting again with the same roots removes nothing. */
  lemma SweepingIsIdempotent(before: Objects, roots: seq<Hash>, after: Objects, again: Objects)
    requires Swept(before, roots, after) && Swept(after, roots, again)
    ensures again == after
  {
    forall h | h in after ensures h in again {
      var j :| 0 <= j < |roots| && Reachable(before, roots[j], h);
      ReachabilitySurvives(before, roots, after, j, h);
    }
  }

  // ------------------------------------------------------------ what a hash identifies

  lemma {:induction false} DecimalIsInjective(m: nat, n: nat)
    requires Decimal(m) == Decimal(n)
    ensures m == n
  {
    var a, b := Decimal(m), Decimal(n);
    assert a[|a| - 1] == b[|b| - 1] && a[..|a| - 1] == b[..|b| - 1];
    DecimalEnds(m);
    DecimalEnds(n);
    if m >= 10 && n >= 10 { DecimalIsInjective(m / 10, n / 10); }
  }

  lemma DecimalEnds(n: nat)
    ensures var d := Decimal(n);
            && d != [] && d[|d| - 1] as int == '0' as int + n % 10
            && (if n < 10 then d[..|d| - 1] == [] else d[..|d| - 1] == Decimal(n / 10) && d[..|d| - 1] != [])
  {
    if n >= 10 { DecimalEnds(n / 10); }
  }

  lemma SameStrings(a: seq<string>, b: seq<string>)
    ensures Same(Strings(a), Strings(b)) <==> a == b
  {
    if Same(Strings(a), Strings(b)) {
      assert |Strings(a).items| == |a| && |Strings(b).items| == |b|;
      forall i | 0 <= i < |a| ensures a[i] == b[i] { assert Same(Strings(a).items[i], Strings(b).items[i]); }
    }
  }

  lemma {:induction false} FieldOf(o: RuntimeObject, k: string)
    ensures LastOf(AsJson(o).fields, k) ==
            if k == "dependencies" then Some(Strings(o.dependencies))
            else if k == "payload" then Some(o.payload)
            else if k == "schema_version" then Some(Number(Decimal(o.schemaVersion)))
            else if k == "kind" then Some(Str(KindName(o.kind)))
            else None
  {
    var fs := AsJson(o).fields;
    LookupSnoc([], fs[0], k);
    LookupSnoc([fs[0]], fs[1], k);
    LookupSnoc([fs[0], fs[1]], fs[2], k);
    LookupSnoc([fs[0], fs[1], fs[2]], fs[3], k);
    assert [] + [fs[0]] == [fs[0]] && [fs[0]] + [fs[1]] == [fs[0], fs[1]];
    assert [fs[0], fs[1]] + [fs[2]] == [fs[0], fs[1], fs[2]] && [fs[0], fs[1], fs[2]] + [fs[3]] == fs;
  }

  lemma LookupSnoc(fs: Fields, f: (string, Json), k: string)
    ensures LastOf(fs + [f], k) == if f.0 == k then Some(f.1) else LastOf(fs, k)
  {
    assert (fs + [f])[..|fs|] == fs;
  }

  /** Two objects are the same up to the order of keys in their payload and of their dependencies. */
  ghost predicate SameObject(o: RuntimeObject, p: RuntimeObject) {
    && o.kind == p.kind && o.schemaVersion == p.schemaVersion && Same(o.payload, p.payload)
    && ToSet(o.dependencies) == ToSet(p.dependencies)
  }

  /** The same but for how the dependencies are compared. */
  ghost predicate SameParts(o: RuntimeObject, p: RuntimeObject) {
    && o.kind == p.kind && o.schemaVersion == p.schemaVersion && Same(o.payload, p.payload)
    && o.dependencies == p.dependencies
  }

  lemma {:induction false} SameAt(o: RuntimeObject, p: RuntimeObject, k: string)
    requires Same(AsJson(o), AsJson(p)) && LastOf(AsJson(o).fields, k).Some? && LastOf(AsJson(p).fields, k).Some?
    ensures Same(LastOf(AsJson(o).fields, k).value, LastOf(AsJson(p).fields, k).value)
  {
  }

  lemma KindNamesDiffer(k: Kind, l: Kind)
    ensures KindName(k) == KindName(l) ==> k == l
  {
  }

  lemma {:induction false} JsonSameParts(o: RuntimeObject, p: RuntimeObject)
    requires Same(AsJson(o), AsJson(p))
    ensures SameParts(o, p)
  {
    FieldOf(o, "kind"); FieldOf(p, "kind"); SameAt(o, p, "kind");
    FieldOf(o, "schema_version"); FieldOf(p, "schema_version"); SameAt(o, p, "schema_version");
    FieldOf(o, "payload"); FieldOf(p, "payload"); SameAt(o, p, "payload");
    FieldOf(o, "dependencies"); FieldOf(p, "dependencies"); SameAt(o, p, "dependencies");
    KindNamesDiffer(o.kind, p.kind);
    DecimalIsInjective(o.schemaVersion, p.schemaVersion);
    SameStrings(o.dependencies, p.dependencies);
  }

  lemma {:induction false} PartsSameJson(o: RuntimeObject, p: RuntimeObject)
    requires SameParts(o, p)
    ensures Same(AsJson(o), AsJson(p))
  {
    SameStrings(o.dependencies, p.dependencies);
    forall k: string
      ensures LastOf(AsJson(o).fields, k).Some? <==> LastOf(AsJson(p).fields, k).Some?
      ensures LastOf(AsJson(o).fields, k).Some? && LastOf(AsJson(p).fields, k).Some? ==>
                Same(LastOf(AsJson(o).fields, k).value, LastOf(AsJson(p).fields, k).value)
    {
      FieldOf(o, k);
      FieldOf(p, k);
    }
  }

  /** With a hash that is injective on canonical forms, inserting identifies exactly the same objects. */
  lemma HashIdentifies(hashOf: Json -> Hash, o: RuntimeObject, p: RuntimeObject)
    requires forall a, b :: hashOf(Canonical(a)) == hashOf(Canonical(b)) ==> Canonical(a) == Canonical(b)
    ensures hashOf(Canonical(AsJson(Deduplicated(o)))) == hashOf(Canonical(AsJson(Deduplicated(p)))) <==>
              SameObject(o, p)
  {
    var a, b := Deduplicated(o), Deduplicated(p);
    CanonicalIsExact(AsJson(a), AsJson(b));
    if Same(AsJson(a), AsJson(b)) { JsonSameParts(a, b); }
    if SameParts(a, b) { PartsSameJson(a, b); }
    assert ToSet(a.dependencies) == ToSet(o.dependencies) && ToSet(b.dependencies) == ToSet(p.dependencies);
  }
}
