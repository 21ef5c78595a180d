/**
 * The contract registry: inheritance along parent links, and compilation of a
 * requested subset into contracts that can all be met at once.
 */
module ContractRegistry {
  import opened Common
  import opened Contracts
  import Text

  datatype Failure = MissingContract(id: string) | MissingParent(parent: string) | InheritanceCycle(revisited: string)

  datatype CompileError = OfContract(failure: Failure) | OfConflicts(pairs: seq<(string, string)>)

  type Registered = map<string, Contract>

  /** Contracts are filed under their own id. */
  predicate Filed(m: Registered) { forall k | k in m :: m[k].id == k }

  function Choose(parent: seq<string>, child: seq<string>): seq<string> { if child == [] then parent else child }

  function MergeScope(parent: Scope, child: Scope): Scope {
    Scope(Choose(parent.routes, child.routes), Choose(parent.regions, child.regions),
          Choose(parent.personas, child.personas), Choose(parent.viewports, child.viewports))
  }

  /** One turn of the inheritance loop. */
  function Inherit(c: Contract, parent: Contract): Contract {
    c.(scope := MergeScope(parent.scope, c.scope),
       provenance := if c.provenance == "" then parent.provenance else c.provenance,
       inheritedFrom := parent.inheritedFrom)
  }

  /** The loop from contract `c` on, having been at `visited`. */
  function Climb(m: Registered, c: Contract, visited: set<string>): Result<Contract, Failure>
    decreases |m.Keys - visited|
  {
    match c.inheritedFrom
    case None => Ok(c)
    case Some(p) =>
      if p in visited then Err(InheritanceCycle(p))
      else if p !in m then Err(MissingParent(p))
      else
        assert m.Keys - (visited + {p}) == (m.Keys - visited) - {p};
        Climb(m, Inherit(c, m[p]), visited + {p})
  }

  function Effective(m: Registered, id: string): Result<Contract, Failure> {
    if id !in m then Err(MissingContract(id)) else Climb(m, m[id], {m[id].id})
  }

  // ----------------------------------------------------------- what it amounts to

  /** Registered contracts, each the parent of the one before. */
  predicate IsChain(m: Registered, ids: seq<string>) {
    && ids != [] && (forall i | 0 <= i < |ids| :: ids[i] in m)
    && (forall i | 0 <= i < |ids| - 1 :: m[ids[i]].inheritedFrom == Some(ids[i + 1]))
  }

  function Ancestor(m: Registered, ids: seq<string>): Option<string>
    requires IsChain(m, ids)
  {
    m[ids[|ids| - 1]].inheritedFrom
  }

  /** The whole inheritance chain of a contract, finite and fully registered. */
  predicate WholeChain(m: Registered, id: string, ids: seq<string>) {
    IsChain(m, ids) && ids[0] == id && Ancestor(m, ids) == None
  }

  datatype Dimension = Routes | Regions | Personas | Viewports

  function Of(s: Scope, d: Dimension): seq<string> {
    match d
    case Routes => s.routes
    case Regions => s.regions
    case Personas => s.personas
    case Viewports => s.viewports
  }

  /** The first nonempty value of a scope dimension along a chain. */
  function FirstScope(m: Registered, ids: seq<string>, d: Dimension): seq<string>
    requires forall id | id in ids :: id in m
  {
    if ids == [] then []
    else if Of(m[ids[0]].scope, d) != [] then Of(m[ids[0]].scope, d)
    else FirstScope(m, ids[1..], d)
  }

  function FirstProvenance(m: Registered, ids: seq<string>): string
    requires forall id | id in ids :: id in m
  {
    if ids == [] then ""
    else if m[ids[0]].provenance != "" then m[ids[0]].provenance
    else FirstProvenance(m, ids[1..])
  }

  /** Merging down a chain takes everything but scope and provenance from the first contract. */
  predicate Resolved(m: Registered, ids: seq<string>, c: Contract)
    requires IsChain(m, ids)
  {
    && (forall d: Dimension :: Of(c.scope, d) == FirstScope(m, ids, d))
    && c.provenance == FirstProvenance(m, ids)
    && c == m[ids[0]].(scope := c.scope, provenance := c.provenance, inheritedFrom := Ancestor(m, ids))
  }

  lemma {:induction false} FirstAppend(m: Registered, ids: seq<string>, p: string, d: Dimension)
    requires (forall id | id in ids :: id in m) && p in m
    ensures FirstScope(m, ids + [p], d) == Choose(Of(m[p].scope, d), FirstScope(m, ids, d))
    ensures FirstProvenance(m, ids + [p]) ==
            if FirstProvenance(m, ids) == "" then m[p].provenance else FirstProvenance(m, ids)
  {
    if ids == [] {
      assert [p][1..] == [];
    } else {
      assert (ids + [p])[1..] == ids[1..] + [p];
      FirstAppend(m, ids[1..], p, d);
    }
  }

  lemma {:induction false} ChainAppend(m: Registered, ids: seq<string>, p: string, c: Contract)
    requires IsChain(m, ids) && p in m && Ancestor(m, ids) == Some(p) && Resolved(m, ids, c)
    ensures IsChain(m, ids + [p]) && Ancestor(m, ids + [p]) == m[p].inheritedFrom
    ensures Resolved(m, ids + [p], Inherit(c, m[p]))
  {
    assert IsChain(m, ids + [p]);
    forall d: Dimension ensures Of(Inherit(c, m[p]).scope, d) == FirstScope(m, ids + [p], d) {
      FirstAppend(m, ids, p, d);
    }
    FirstAppend(m, ids, p, Routes);
  }

  /** How the climb ended, told by the chain it went along. */
  ghost predicate Explains(m: Registered, ids: seq<string>, r: Result<Contract, Failure>) {
    && IsChain(m, ids)
    && match r
       case Ok(c) => Ancestor(m, ids) == None && Resolved(m, ids, c)
       case Err(MissingContract(_)) => false
       case Err(MissingParent(p)) => Ancestor(m, ids) == Some(p) && p !in m
       case Err(InheritanceCycle(p)) => Ancestor(m, ids) == Some(p) && p in ids && NoDuplicates(ids)
  }

  lemma {:induction false} ClimbExplained(m: Registered, c: Contract, ids: seq<string>) returns (all: seq<string>)
    requires IsChain(m, ids) && NoDuplicates(ids) && Resolved(m, ids, c)
    ensures all != [] && all[0] == ids[0] && Explains(m, all, Climb(m, c, ToSet(ids)))
    decreases |m.Keys - ToSet(ids)|
  {
    all := ids;
    if c.inheritedFrom.Some? {
      var p := c.inheritedFrom.value;
      if p !in ids && p in m {
        ChainAppend(m, ids, p, c);
        assert ToSet(ids + [p]) == ToSet(ids) + {p};
        assert m.Keys - ToSet(ids + [p]) == (m.Keys - ToSet(ids)) - {p};
        all := ClimbExplained(m, Inherit(c, m[p]), ids + [p]);
      }
    }
  }

  /** Following parent links leaves no choice: one chain from a contract is a prefix of any whole one. */
  lemma {:induction false} ChainsAgree(m: Registered, whole: seq<string>, ids: seq<string>, k: nat)
    requires IsChain(m, whole) && Ancestor(m, whole) == None && IsChain(m, ids) && whole[0] == ids[0] && k < |ids|
    ensures k < |whole| && whole[k] == ids[k]
  {
    if k > 0 {
      ChainsAgree(m, whole, ids, k - 1);
      assert m[ids[k - 1]].inheritedFrom == Some(ids[k]);
      assert whole[k - 1] == ids[k - 1];
    }
  }

  lemma {:induction false} WholeChainHasNoCycle(m: Registered, whole: seq<string>, k: nat, n: nat)
    requires IsChain(m, whole) && Ancestor(m, whole) == None && k < n < |whole|
    ensures whole[k] != whole[n]
  {
    if whole[k] == whole[n] {
      var tail := whole[n..];
      var longer := whole[k..];
      assert IsChain(m, tail) && IsChain(m, longer);
      assert longer[|longer| - 1] == whole[|whole| - 1];
      ChainsAgree(m, tail, longer, |longer| - 1);
    }
  }

  lemma LinkAt(m: Registered, whole: seq<string>, i: nat)
    requires IsChain(m, whole) && i < |whole|
    ensures m[whole[i]].inheritedFrom == if i + 1 < |whole| then Some(whole[i + 1]) else Ancestor(m, whole)
  {
  }

  lemma {:induction false} WholeChainSucceeds(m: Registered, whole: seq<string>, ids: seq<string>,
                                              r: Result<Contract, Failure>)
    requires IsChain(m, whole) && Ancestor(m, whole) == None && Explains(m, ids, r) && whole[0] == ids[0]
    ensures r.Ok? && ids == whole
  {
    var n := |ids| - 1;
    forall k | 0 <= k <= n ensures k < |whole| && whole[k] == ids[k] { ChainsAgree(m, whole, ids, k); }
    if Ancestor(m, ids).Some? {
      var p := Ancestor(m, ids).value;
      assert whole[n] == ids[n] && n + 1 < |whole|;
      assert whole[n + 1] == p && p in m;
      if r.Err? {
        var k :| 0 <= k < |ids| && ids[k] == p;
        WholeChainHasNoCycle(m, whole, k, n + 1);
      }
    } else {
      LinkAt(m, whole, n);
    }
  }

  /**
   * Inheritance always resolves or says why not: it succeeds exactly when the
   * chain of parents is finite and registered, and then each scope dimension
   * is the first nonempty one along that chain.
   */
  lemma EffectiveContract(m: Registered, id: string)
    requires Filed(m)
    ensures Effective(m, id).Ok? <==> exists ids :: WholeChain(m, id, ids)
    ensures forall ids | WholeChain(m, id, ids) :: Effective(m, id).Ok? && Resolved(m, ids, Effective(m, id).value)
    ensures Effective(m, id) == Err(MissingContract(id)) <==> id !in m
    ensures Effective(m, id).Err? && id in m ==> exists ids :: Explains(m, ids, Effective(m, id)) && ids[0] == id
  {
    if id in m {
      assert ToSet([id]) == {id};
      forall d: Dimension ensures Of(m[id].scope, d) == FirstScope(m, [id], d) { assert [id][1..] == []; }
      assert FirstProvenance(m, [id]) == m[id].provenance by { assert [id][1..] == []; }
      var all := ClimbExplained(m, m[id], [id]);
      if Effective(m, id).Ok? { assert WholeChain(m, id, all); }
      forall ids | WholeChain(m, id, ids) ensures Effective(m, id).Ok? && Resolved(m, ids, Effective(m, id).value) {
        WholeChainSucceeds(m, ids, all, Effective(m, id));
      }
    }
  }

  // -------------------------------------------------------------------- compiling

  predicate Clash(a: Contract, b: Contract) { a.scope == b.scope && Conflict(a.demand, b.demand) }

  predicate ClashFree(cs: seq<Contract>) {
    forall i, j | 0 <= i < j < |cs| :: !Clash(cs[i], cs[j])
  }

  /** The demands of the contracts of one effective scope. */
  function DemandsIn(cs: seq<Contract>, scope: Scope): seq<Predicate> {
    if cs == [] then []
    else (if cs[0].scope == scope then [cs[0].demand] else []) + DemandsIn(cs[1..], scope)
  }

  lemma {:induction false} DemandFrom(cs: seq<Contract>, scope: Scope, k: nat)
    requires k < |DemandsIn(cs, scope)|
    ensures exists i | 0 <= i < |cs| :: cs[i].scope == scope && cs[i].demand == DemandsIn(cs, scope)[k]
  {
    if cs[0].scope == scope && k == 0 {
      assert cs[0].demand == DemandsIn(cs, scope)[0];
    } else {
      var before := if cs[0].scope == scope then 1 else 0;
      DemandFrom(cs[1..], scope, k - before);
      var i :| 0 <= i < |cs[1..]| && cs[1..][i].scope == scope
               && cs[1..][i].demand == DemandsIn(cs[1..], scope)[k - before];
      assert cs[i + 1].scope == scope && cs[i + 1].demand == DemandsIn(cs, scope)[k];
    }
  }

  lemma {:induction false} DemandListed(cs: seq<Contract>, scope: Scope, i: nat)
    requires i < |cs| && cs[i].scope == scope
    ensures cs[i].demand in DemandsIn(cs, scope)
  {
    if i > 0 { DemandListed(cs[1..], scope, i - 1); }
  }

  lemma {:induction false} DemandsConflictFree(cs: seq<Contract>, scope: Scope)
    requires ClashFree(cs)
    ensures ConflictFree(DemandsIn(cs, scope))
  {
    if cs != [] {
      DemandsConflictFree(cs[1..], scope);
      var rest := DemandsIn(cs[1..], scope);
      if cs[0].scope == scope {
        forall k | 0 <= k < |rest| ensures !Conflict(cs[0].demand, rest[k]) {
          DemandFrom(cs[1..], scope, k);
          var i :| 0 <= i < |cs[1..]| && cs[1..][i].scope == scope && cs[1..][i].demand == rest[k];
          assert !Clash(cs[0], cs[i + 1]);
        }
      }
    }
  }

  /** One page meets every contract of a scope. */
  predicate MeetsAll(cs: seq<Contract>, scope: Scope, f: Facts) {
    forall i | 0 <= i < |cs| && cs[i].scope == scope :: Evaluate(cs[i], f, None) == Pass
  }

  ghost predicate Satisfiable(cs: seq<Contract>, scope: Scope) { exists f: Facts :: MeetsAll(cs, scope, f) }

  /**
   * What compiles together can be met together: no two contracts clash exactly when every scope's
   * contracts have a page that meets them all.
   */
  lemma CompiledContractsAreSatisfiable(cs: seq<Contract>)
    ensures ClashFree(cs) <==> forall scope: Scope :: Satisfiable(cs, scope)
  {
    if ClashFree(cs) {
      forall scope: Scope ensures Satisfiable(cs, scope) {
        DemandsConflictFree(cs, scope);
        var ps := DemandsIn(cs, scope);
        JointlySatisfiable(ps);
        var f :| AllPass(ps, f);
        forall i | 0 <= i < |cs| && cs[i].scope == scope ensures Evaluate(cs[i], f, None) == Pass {
          DemandListed(cs, scope, i);
          var k :| 0 <= k < |ps| && ps[k] == cs[i].demand;
          assert Passes(ps[k], f);
        }
        assert MeetsAll(cs, scope, f);
      }
    }
    forall i, j | 0 <= i < j < |cs| && Clash(cs[i], cs[j])
      ensures !Satisfiable(cs, cs[i].scope)
    {
      forall f: Facts ensures !MeetsAll(cs, cs[i].scope, f) { ConflictExcludes(cs[i].demand, cs[j].demand, f); }
    }
  }

  /** The contracts behind a list of ids, in its order. */
  ghost predicate AllEffective(m: Registered, ids: seq<string>, cs: seq<Contract>) {
    |cs| == |ids| && forall k | 0 <= k < |ids| :: Effective(m, ids[k]) == Ok(cs[k])
  }

  /** The first id that does not resolve, and why. */
  ghost predicate FailsFirst(m: Registered, ids: seq<string>, failure: Failure) {
    exists k | 0 <= k < |ids| ::
      Effective(m, ids[k]) == Err(failure) && forall j | 0 <= j < k :: Effective(m, ids[j]).Ok?
  }

  predicate ClashAt(cs: seq<Contract>, i: nat, j: nat, pair: (string, string)) {
    i < j < |cs| && Clash(cs[i], cs[j]) && pair == (cs[i].id, cs[j].id)
  }

  /** Exactly the clashing pairs, by id. */
  ghost predicate ListsClashes(cs: seq<Contract>, pairs: seq<(string, string)>) {
    && (forall pair | pair in pairs :: exists i: nat, j: nat :: ClashAt(cs, i, j, pair))
    && (forall i: nat, j: nat, pair | ClashAt(cs, i, j, pair) :: pair in pairs)
  }

  /** The listed ids resolve, but not to contracts that can be met together. */
  ghost predicate ClashesAmong(m: Registered, ids: seq<string>, pairs: seq<(string, string)>) {
    pairs != [] && exists cs :: AllEffective(m, ids, cs) && ListsClashes(cs, pairs)
  }

  class Registry {
    var contracts: Registered

    constructor ()
      ensures contracts == map[]
    {
      contracts := map[];
    }

    method Insert(c: Contract)
      requires Filed(contracts)
      modifies this
      ensures contracts == old(contracts)[c.id := c] && Filed(contracts)
    {
      contracts := contracts[c.id := c];
    }

    /** `effective_contract` */
    method EffectiveContract(id: string) returns (r: Result<Contract, Failure>)
      ensures r == Effective(contracts, id)
    {
      if id !in contracts { return Err(MissingContract(id)); }
      var current := contracts[id];
      var visited := {current.id};
      while current.inheritedFrom.Some?
        invariant Effective(contracts, id) == Climb(contracts, current, visited)
        decreases |contracts.Keys - visited|
      {
        var p := current.inheritedFrom.value;
        if p in visited { return Err(InheritanceCycle(p)); }
        if p !in contracts { return Err(MissingParent(p)); }
        assert contracts.Keys - (visited + {p}) == (contracts.Keys - visited) - {p};
        visited := visited + {p};
        current := Inherit(current, contracts[p]);
      }
      return Ok(current);
    }

    /** The pairs of clashing contracts, in order. */
    static method FindClashes(cs: seq<Contract>) returns (pairs: seq<(string, string)>)
      ensures ListsClashes(cs, pairs)
    {
      pairs := [];
      for i := 0 to |cs|
        invariant forall pair | pair in pairs :: exists a: nat, b: nat :: ClashAt(cs, a, b, pair)
        invariant forall a: nat, b: nat, pair | a < i && ClashAt(cs, a, b, pair) :: pair in pairs
      {
        for j := i + 1 to |cs|
          invariant forall pair | pair in pairs :: exists a: nat, b: nat :: ClashAt(cs, a, b, pair)
          invariant forall a: nat, b: nat, pair | a < i && ClashAt(cs, a, b, pair) :: pair in pairs
          invariant forall b: nat, pair | b < j && ClashAt(cs, i, b, pair) :: pair in pairs
        {
          if Clash(cs[i], cs[j]) {
            assert ClashAt(cs, i, j, (cs[i].id, cs[j].id));
            pairs := pairs + [(cs[i].id, cs[j].id)];
          }
        }
      }
    }

    /** Resolve every id, stopping at the first that does not. */
    method ResolveAll(ids: seq<string>) returns (r: Result<seq<Contract>, Failure>)
      ensures r.Ok? ==> AllEffective(contracts, ids, r.value)
      ensures r.Err? ==> FailsFirst(contracts, ids, r.error)
    {
      var cs: seq<Contract> := [];
      for k := 0 to |ids|
        invariant |cs| == k && forall j | 0 <= j < k :: Effective(contracts, ids[j]) == Ok(cs[j])
      {
        var e := EffectiveContract(ids[k]);
        if e.Err? { return Err(e.error); }
        cs := cs + [e.value];
      }
      return Ok(cs);
    }

    /** `compile_autonomous_subset`: all contracts when none are requested. */
    method CompileAutonomousSubset(requested: set<string>) returns (r: Result<seq<Contract>, CompileError>)
      ensures var ids := Text.Sorted(if requested == {} then contracts.Keys else requested);
              match r
              case Ok(cs) => AllEffective(contracts, ids, cs) && ClashFree(cs)
              case Err(OfContract(failure)) => FailsFirst(contracts, ids, failure)
              case Err(OfConflicts(pairs)) => ClashesAmong(contracts, ids, pairs)
    {
      var ids := Text.Sorted(if requested == {} then contracts.Keys else requested);
      var resolved := ResolveAll(ids);
      if resolved.Err? { return Err(OfContract(resolved.error)); }
      var cs := resolved.value;
      var pairs := FindClashes(cs);
      if pairs != [] { return Err(OfConflicts(pairs)); }
      forall i, j | 0 <= i < j < |cs| ensures !Clash(cs[i], cs[j]) {
        if Clash(cs[i], cs[j]) { assert ClashAt(cs, i, j, (cs[i].id, cs[j].id)); }
      }
      return Ok(cs);
    }
  }
}
