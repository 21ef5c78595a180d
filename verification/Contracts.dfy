/**
 * UX contracts: what a predicate demands of a page, when two predicates
 * conflict, and why the absence of pairwise conflicts is enough.
 */
module Contracts {
  import opened Common

  /** JSON numbers keep apart what was written as an integer. */
  datatype Number = Integer(n: int) | Float(x: real)

  /** Parsed JSON; objects are maps, so key order plays no part in equality. */
  datatype Value =
    | Null | Bool(flag: bool) | Num(number: Number) | Text(text: string)
    | List(items: seq<Value>) | Object(fields: map<string, Value>)

  datatype Predicate =
    | Exists(selector: string)
    | NotExists(selector: string)
    | MetricAtMost(metric: string, max: real)
    | MetricAtLeast(metric: string, min: real)
    | Equals(key: string, value: Value)
    | NoIssueCode(code: string)
    | EveryInteractiveNamed

  datatype Scope = Scope(routes: seq<string>, regions: seq<string>, personas: seq<string>, viewports: seq<string>)

  datatype Strength = Hard | Soft

  datatype Contract = Contract(
    id: string, strength: Strength, scope: Scope, demand: Predicate, provenance: string, inheritedFrom: Option<string>)

  datatype Exception = Exception(contractId: string, expiresRevision: Option<string>)

  /** What is known of a page. */
  datatype Facts = Facts(
    selectors: set<string>, metrics: map<string, real>, values: map<string, Value>,
    issueCodes: set<string>, unnamed: nat)

  datatype Verdict = Pass | Fail | Excepted | Unknown

  function Decided(pass: bool): Verdict { if pass then Pass else Fail }

  function Judge(p: Predicate, f: Facts): Verdict {
    match p
    case Exists(selector) => Decided(selector in f.selectors)
    case NotExists(selector) => Decided(selector !in f.selectors)
    case MetricAtMost(metric, max) => if metric in f.metrics then Decided(f.metrics[metric] <= max) else Unknown
    case MetricAtLeast(metric, min) => if metric in f.metrics then Decided(f.metrics[metric] >= min) else Unknown
    case Equals(key, value) => if key in f.values then Decided(f.values[key] == value) else Unknown
    case NoIssueCode(code) => Decided(code !in f.issueCodes)
    case EveryInteractiveNamed => Decided(f.unnamed == 0)
  }

  /** `evaluate` */
  function Evaluate(c: Contract, f: Facts, exception: Option<Exception>): Verdict {
    if exception.Some? && exception.value.contractId == c.id then Excepted else Judge(c.demand, f)
  }

  predicate Passes(p: Predicate, f: Facts) { Judge(p, f) == Pass }

  /** `predicates_conflict` */
  predicate Conflict(p: Predicate, q: Predicate) {
    match (p, q)
    case (Exists(a), NotExists(b)) => a == b
    case (NotExists(a), Exists(b)) => a == b
    case (MetricAtMost(a, max), MetricAtLeast(b, min)) => a == b && min > max
    case (MetricAtLeast(a, min), MetricAtMost(b, max)) => a == b && min > max
    case (Equals(a, v), Equals(b, w)) => a == b && v != w
    case _ => false
  }

  lemma ConflictIsSymmetric(p: Predicate, q: Predicate)
    ensures Conflict(p, q) <==> Conflict(q, p)
  {
  }

  // ------------------------------------------------------------ joint satisfaction

  predicate ConflictFree(ps: seq<Predicate>) {
    forall i, j | 0 <= i < j < |ps| :: !Conflict(ps[i], ps[j])
  }

  predicate AllPass(ps: seq<Predicate>, f: Facts) {
    forall i | 0 <= i < |ps| :: Passes(ps[i], f)
  }

  /** The greatest lower bound any predicate puts on a metric. */
  function Floor(ps: seq<Predicate>, metric: string): Option<real> {
    if ps == [] then None
    else
      var rest := Floor(ps[1..], metric);
      if !ps[0].MetricAtLeast? || ps[0].metric != metric || (rest.Some? && rest.value >= ps[0].min) then rest
      else Some(ps[0].min)
  }

  /** The least upper bound any predicate puts on a metric. */
  function Ceiling(ps: seq<Predicate>, metric: string): Option<real> {
    if ps == [] then None
    else
      var rest := Ceiling(ps[1..], metric);
      if !ps[0].MetricAtMost? || ps[0].metric != metric || (rest.Some? && rest.value <= ps[0].max) then rest
      else Some(ps[0].max)
  }

  lemma {:induction false} FloorBounds(ps: seq<Predicate>, metric: string)
    ensures forall p | p in ps && p.MetricAtLeast? && p.metric == metric ::
              Floor(ps, metric).Some? && p.min <= Floor(ps, metric).value
    ensures Floor(ps, metric).Some? ==> MetricAtLeast(metric, Floor(ps, metric).value) in ps
  {
    if ps != [] {
      FloorBounds(ps[1..], metric);
      assert ps == [ps[0]] + ps[1..];
    }
  }

  lemma {:induction false} CeilingBounds(ps: seq<Predicate>, metric: string)
    ensures forall p | p in ps && p.MetricAtMost? && p.metric == metric ::
              Ceiling(ps, metric).Some? && p.max >= Ceiling(ps, metric).value
    ensures Ceiling(ps, metric).Some? ==> MetricAtMost(metric, Ceiling(ps, metric).value) in ps
  {
    if ps != [] {
      CeilingBounds(ps[1..], metric);
      assert ps == [ps[0]] + ps[1..];
    }
  }

  /** A page made to measure: every lower bound met exactly, or failing one every upper bound. */
  ghost function Witness(ps: seq<Predicate>): Facts {
    Facts(
      set p | p in ps && p.Exists? :: p.selector,
      map m | m in (set p | p in ps && (p.MetricAtMost? || p.MetricAtLeast?) :: p.metric) ::
        (if Floor(ps, m).Some? then Floor(ps, m).value else if Ceiling(ps, m).Some? then Ceiling(ps, m).value else 0.0),
      map k | k in (set p | p in ps && p.Equals? :: p.key) :: Demanded(ps, k),
      {}, 0)
  }

  function Demanded(ps: seq<Predicate>, key: string): Value {
    if ps == [] then Null
    else if ps[0].Equals? && ps[0].key == key then ps[0].value
    else Demanded(ps[1..], key)
  }

  lemma {:induction false} DemandedIsDemanded(ps: seq<Predicate>, key: string)
    requires exists p :: p in ps && p.Equals? && p.key == key
    ensures Equals(key, Demanded(ps, key)) in ps
  {
    assert ps == [ps[0]] + ps[1..];
    if !(ps[0].Equals? && ps[0].key == key) { DemandedIsDemanded(ps[1..], key); }
  }

  lemma {:induction false} ConflictFreeAmong(ps: seq<Predicate>, p: Predicate, q: Predicate)
    requires ConflictFree(ps) && p in ps && q in ps && p != q
    ensures !Conflict(p, q)
  {
    var i :| 0 <= i < |ps| && ps[i] == p;
    var j :| 0 <= j < |ps| && ps[j] == q;
    ConflictIsSymmetric(p, q);
  }

  lemma {:induction false} WitnessPasses(ps: seq<Predicate>, p: Predicate)
    requires ConflictFree(ps) && p in ps
    ensures Passes(p, Witness(ps))
  {
    match p
    case NotExists(selector) =>
      if selector in Witness(ps).selectors {
        ConflictFreeAmong(ps, Exists(selector), p);
      }
    case MetricAtMost(metric, max) =>
      FloorBounds(ps, metric);
      CeilingBounds(ps, metric);
      if Floor(ps, metric).Some? { ConflictFreeAmong(ps, MetricAtLeast(metric, Floor(ps, metric).value), p); }
    case MetricAtLeast(metric, _) => FloorBounds(ps, metric);
    case Equals(key, value) =>
      DemandedIsDemanded(ps, key);
      if Demanded(ps, key) != value { ConflictFreeAmong(ps, Equals(key, Demanded(ps, key)), p); }
    case _ =>
  }

  lemma {:induction false} ConflictExcludes(p: Predicate, q: Predicate, f: Facts)
    requires Conflict(p, q)
    ensures !(Passes(p, f) && Passes(q, f))
  {
  }

  /**
   * Pairwise checks decide joint satisfiability: some page meets a list of predicates just when no
   * two of them conflict.
   */
  lemma JointlySatisfiable(ps: seq<Predicate>)
    ensures ConflictFree(ps) <==> exists f: Facts :: AllPass(ps, f)
  {
    if ConflictFree(ps) {
      forall i | 0 <= i < |ps| ensures Passes(ps[i], Witness(ps)) { WitnessPasses(ps, ps[i]); }
      assert AllPass(ps, Witness(ps));
    }
    forall f: Facts | AllPass(ps, f) ensures ConflictFree(ps) {
      forall i, j | 0 <= i < j < |ps| ensures !Conflict(ps[i], ps[j]) {
        if Conflict(ps[i], ps[j]) { ConflictExcludes(ps[i], ps[j], f); }
      }
    }
  }

  /** Two predicates conflict exactly when no page meets both. */
  lemma ConflictIsExact(p: Predicate, q: Predicate)
    ensures Conflict(p, q) <==> !exists f: Facts :: Passes(p, f) && Passes(q, f)
  {
    var ps := [p, q];
    JointlySatisfiable(ps);
    if !Conflict(p, q) {
      assert ConflictFree(ps);
      var f :| AllPass(ps, f);
      assert Passes(ps[0], f) && Passes(ps[1], f);
    } else {
      forall f: Facts ensures !(Passes(p, f) && Passes(q, f)) { ConflictExcludes(p, q, f); }
    }
  }
}
