/**
 * Contracts judged on partial knowledge: facts compiled from evidence, three
 * outcomes, and what they say of every page the evidence leaves possible.
 */
module LiveContracts {
  import opened Common
  import opened Contracts

  datatype Domain = Selectors | Metrics | Values | IssueCodes | InteractiveNames

  datatype Uncertainty = Observed | Derived | Heuristic | Subjective | Unclassified

  datatype Evidence = Evidence(
    id: string, secretTaint: bool, revision: Option<string>, uncertainty: Uncertainty, payload: Value)

  /** Facts, and how far they go: which domains are listed in full, which keys are known. */
  datatype Known = Known(facts: Facts, complete: set<Domain>, metricKeys: set<string>, valueKeys: set<string>)

  datatype Live = Live(known: Known, cited: set<string>, stale: set<string>, tainted: set<string>,
                       unauthoritative: set<string>)

  const NOTHING := Known(Facts({}, map[], map[], {}, 0), {}, {}, {})

  // -------------------------------------------------------------- compiling facts

  function ItemsAt(o: map<string, Value>, key: string): seq<Value> {
    if key in o && o[key].List? then o[key].items else []
  }

  function FieldsAt(o: map<string, Value>, key: string): map<string, Value> {
    if key in o && o[key].Object? then o[key].fields else map[]
  }

  /** The nonempty strings of a list; everything else in it is skipped. */
  function NamesIn(items: seq<Value>): set<string> {
    set v | v in items && v.Text? && v.text != "" :: v.text
  }

  function AsReal(n: Number): real { if n.Integer? then n.n as real else n.x }

  function NumbersIn(fields: map<string, Value>): map<string, real> {
    map k | k in fields && fields[k].Num? :: AsReal(fields[k].number)
  }

  function MetricsIn(o: map<string, Value>): map<string, real> { NumbersIn(FieldsAt(o, "metrics")) }

  predicate FlagAt(o: map<string, Value>, key: string) { key in o && o[key] == Bool(true) }

  function CountAt(o: map<string, Value>): nat {
    var key := "unnamed_interactive_count";
    if key in o && o[key].Num? && o[key].number.Integer? && 0 <= o[key].number.n < 0x1_0000_0000_0000_0000
    then o[key].number.n else 0
  }

  function Mark(done: set<Domain>, o: map<string, Value>, key: string, d: Domain): set<Domain> {
    if FlagAt(o, key) then done + {d} else done
  }

  function Completed(done: set<Domain>, o: map<string, Value>): set<Domain> {
    Mark(Mark(Mark(Mark(Mark(done, o, "selectors_complete", Selectors), o, "metrics_complete", Metrics),
                   o, "values_complete", Values), o, "issue_codes_complete", IssueCodes),
         o, "interactive_names_complete", InteractiveNames)
  }

  function Max(a: nat, b: nat): nat { if a < b then b else a }

  /** What one admissible payload adds; later metrics and values replace earlier ones. */
  function Absorb(k: Known, o: map<string, Value>): Known {
    var f := k.facts;
    Known(Facts(f.selectors + NamesIn(ItemsAt(o, "selectors")),
                f.metrics + MetricsIn(o),
                f.values + FieldsAt(o, "values"),
                f.issueCodes + NamesIn(ItemsAt(o, "issue_codes")),
                Max(f.unnamed, CountAt(o))),
          Completed(k.complete, o), k.metricKeys + MetricsIn(o).Keys, k.valueKeys + FieldsAt(o, "values").Keys)
  }

  predicate Current(e: Evidence, revision: string) { e.revision == Some(revision) }

  predicate Authoritative(e: Evidence) { e.uncertainty.Observed? || e.uncertainty.Derived? }

  datatype Standing = Tainted | Stale | Unauthoritative | Admissible

  /** The first reason, if any, to leave a piece of evidence out. */
  function StandingOf(e: Evidence, revision: string): Standing {
    if e.secretTaint then Tainted
    else if !Current(e, revision) then Stale
    else if !Authoritative(e) then Unauthoritative
    else Admissible
  }

  function Weight(k: Known): nat {
    |k.facts.selectors| + |k.facts.metrics| + |k.facts.values| + |k.facts.issueCodes|
    + |k.metricKeys| + |k.valueKeys| + |k.complete| + (if k.facts.unnamed > 0 then 1 else 0)
  }

  /** `compile_fact_payload` */
  method CompileFactPayload(o: map<string, Value>, k: Known) returns (r: Known)
    ensures r == Absorb(k, o)
  {
    var selectors := Extend(k.facts.selectors, ItemsAt(o, "selectors"));
    var metrics := TakeMetrics(FieldsAt(o, "metrics"), k.facts.metrics);
    var values := TakeValues(FieldsAt(o, "values"), k.facts.values);
    var codes := Extend(k.facts.issueCodes, ItemsAt(o, "issue_codes"));
    var complete := Mark(k.complete, o, "selectors_complete", Selectors);
    complete := Mark(complete, o, "metrics_complete", Metrics);
    complete := Mark(complete, o, "values_complete", Values);
    complete := Mark(complete, o, "issue_codes_complete", IssueCodes);
    complete := Mark(complete, o, "interactive_names_complete", InteractiveNames);
    r := Known(Facts(selectors, metrics, values, codes, Max(k.facts.unnamed, CountAt(o))), complete,
               k.metricKeys + MetricsIn(o).Keys, k.valueKeys + FieldsAt(o, "values").Keys);
  }

  /** The finite numbers of the payload, each replacing what was known of its metric. */
  method TakeMetrics(fields: map<string, Value>, known: map<string, real>) returns (metrics: map<string, real>)
    ensures metrics == known + NumbersIn(fields)
  {
    metrics := known;
    var rest := fields.Keys;
    assert fields - fields.Keys == map[] && known + NumbersIn(map[]) == known;
    while rest != {}
      invariant rest <= fields.Keys && metrics == known + NumbersIn(fields - rest)
      decreases |rest|
    {
      var m :| m in rest;
      NumberNext(known, fields, rest, m);
      rest := rest - {m};
      if fields[m].Num? { metrics := metrics[m := AsReal(fields[m].number)]; }
    }
    assert fields - {} == fields;
  }

  lemma NumberNext(known: map<string, real>, fields: map<string, Value>, rest: set<string>, m: string)
    requires m in rest && m in fields
    ensures var before := known + NumbersIn(fields - rest);
            known + NumbersIn(fields - (rest - {m}))
            == if fields[m].Num? then before[m := AsReal(fields[m].number)] else before
  {
  }

  method TakeValues(given: map<string, Value>, known: map<string, Value>) returns (values: map<string, Value>)
    ensures values == known + given
  {
    values := known;
    var rest := given.Keys;
    assert given - given.Keys == map[] && known + map[] == known;
    while rest != {}
      invariant rest <= given.Keys && values == known + (given - rest)
      decreases |rest|
    {
      var m :| m in rest;
      ValueNext(known, given, rest, m);
      rest := rest - {m};
      values := values[m := given[m]];
    }
    assert given - {} == given;
  }

  lemma ValueNext(known: map<string, Value>, given: map<string, Value>, rest: set<string>, m: string)
    requires m in rest && m in given
    ensures known + (given - (rest - {m})) == (known + (given - rest))[m := given[m]]
  {
  }

  method Extend(names: set<string>, items: seq<Value>) returns (r: set<string>)
    ensures r == names + NamesIn(items)
  {
    r := names;
    for i := 0 to |items|
      invariant r == names + NamesIn(items[..i])
    {
      assert items[..i + 1] == items[..i] + [items[i]];
      if items[i].Text? && items[i].text != "" { r := r + {items[i].text}; }
    }
    assert items[..|items|] == items;
  }

  const NO_EVIDENCE := Live(NOTHING, {}, {}, {}, {})

  /** One turn of the loop over the evidence. */
  function Take(live: Live, e: Evidence, revision: string): Live {
    match StandingOf(e, revision)
    case Tainted => live.(tainted := live.tainted + {e.id})
    case Stale => live.(stale := live.stale + {e.id})
    case Unauthoritative => live.(unauthoritative := live.unauthoritative + {e.id})
    case Admissible =>
      if !e.payload.Object? then live
      else
        var known := Absorb(live.known, e.payload.fields);
        live.(known := known, cited := if Weight(known) > Weight(live.known) then live.cited + {e.id} else live.cited)
  }

  function LiveOf(evidence: seq<Evidence>, revision: string): Live {
    if evidence == [] then NO_EVIDENCE
    else Take(LiveOf(evidence[..|evidence| - 1], revision), evidence[|evidence| - 1], revision)
  }

  /** Nothing known before is forgotten; a metric or a value may be reported anew. */
  predicate Extends(k: Known, k': Known) {
    && k.facts.selectors <= k'.facts.selectors && k.facts.issueCodes <= k'.facts.issueCodes
    && k.facts.metrics.Keys <= k'.facts.metrics.Keys && k.facts.values.Keys <= k'.facts.values.Keys
    && k.metricKeys <= k'.metricKeys && k.valueKeys <= k'.valueKeys
    && k.complete <= k'.complete && k.facts.unnamed <= k'.facts.unnamed
  }

  /** Everything known now was known of before. */
  predicate NothingNew(k: Known, k': Known) {
    && k'.facts.selectors == k.facts.selectors && k'.facts.issueCodes == k.facts.issueCodes
    && k'.facts.metrics.Keys == k.facts.metrics.Keys && k'.facts.values.Keys == k.facts.values.Keys
    && k'.metricKeys == k.metricKeys && k'.valueKeys == k.valueKeys && k'.complete == k.complete
    && (k.facts.unnamed == 0 ==> k'.facts.unnamed == 0)
  }

  lemma {:induction false} SubsetCount<T>(a: set<T>, b: set<T>)
    requires a <= b
    ensures |a| <= |b| && (|a| == |b| ==> a == b)
  {
    if a != b {
      var x :| x in b && x !in a;
      SubsetCount(a, b - {x});
    }
  }

  /** The weight by which the code tells whether evidence added anything does tell just that. */
  lemma {:induction false} WeightTells(k: Known, k': Known)
    requires Extends(k, k')
    ensures Weight(k') <= Weight(k) <==> NothingNew(k, k')
  {
    SubsetCount(k.facts.selectors, k'.facts.selectors);
    SubsetCount(k.facts.issueCodes, k'.facts.issueCodes);
    SubsetCount(k.facts.metrics.Keys, k'.facts.metrics.Keys);
    SubsetCount(k.facts.values.Keys, k'.facts.values.Keys);
    SubsetCount(k.metricKeys, k'.metricKeys);
    SubsetCount(k.valueKeys, k'.valueKeys);
    SubsetCount(k.complete, k'.complete);
    assert |k.facts.metrics| == |k.facts.metrics.Keys| && |k'.facts.metrics| == |k'.facts.metrics.Keys|;
    assert |k.facts.values| == |k.facts.values.Keys| && |k'.facts.values| == |k'.facts.values.Keys|;
  }

  lemma {:induction false} AbsorbExtends(k: Known, o: map<string, Value>)
    ensures Extends(k, Absorb(k, o))
  {
  }

  lemma {:induction false} TakingTells(live: Live, e: Evidence, revision: string)
    ensures var known := Take(live, e, revision).known;
            Extends(live.known, known) && (Weight(known) <= Weight(live.known) <==> NothingNew(live.known, known))
  {
    hide Weight;
    var known := Take(live, e, revision).known;
    if e.payload.Object? { AbsorbExtends(live.known, e.payload.fields); }
    WeightTells(live.known, known);
  }

  /**
   * The body of the loop over the evidence. Only admissible evidence can add
   * to what is known, nothing known is forgotten, other evidence is listed
   * under the one reason against it, and evidence is cited exactly when it
   * tells something new.
   */
  method TakeEvidence(live: Live, e: Evidence, revision: string) returns (r: Live)
    ensures r == Take(live, e, revision)
    ensures Extends(live.known, r.known) && (StandingOf(e, revision) != Admissible ==> r.known == live.known)
    ensures r.tainted == live.tainted + (if StandingOf(e, revision) == Tainted then {e.id} else {})
    ensures r.stale == live.stale + (if StandingOf(e, revision) == Stale then {e.id} else {})
    ensures r.unauthoritative
            == live.unauthoritative + (if StandingOf(e, revision) == Unauthoritative then {e.id} else {})
    ensures r.cited == live.cited + (if NothingNew(live.known, r.known) then {} else {e.id})
  {
    hide Extends, NothingNew, Weight, Absorb;
    TakingTells(live, e, revision);
    if e.secretTaint { return live.(tainted := live.tainted + {e.id}); }
    if !Current(e, revision) { return live.(stale := live.stale + {e.id}); }
    if !Authoritative(e) { return live.(unauthoritative := live.unauthoritative + {e.id}); }
    if !e.payload.Object? { return live; }
    var known := CompileFactPayload(e.payload.fields, live.known);
    if Weight(known) > Weight(live.known) { return live.(known := known, cited := live.cited + {e.id}); }
    return live.(known := known);
  }

  /** `compile_runtime_facts` */
  method CompileRuntimeFacts(evidence: seq<Evidence>, revision: string) returns (live: Live)
    ensures live == LiveOf(evidence, revision)
  {
    live := NO_EVIDENCE;
    for i := 0 to |evidence|
      invariant live == LiveOf(evidence[..i], revision)
    {
      assert evidence[..i + 1][..i] == evidence[..i];
      live := TakeEvidence(live, evidence[i], revision);
    }
    assert evidence[..|evidence|] == evidence;
  }

  // ------------------------------------------------------- what evidence can do

  /** Keys and facts go together in everything compiled. */
  predicate InSync(k: Known) {
    k.metricKeys == k.facts.metrics.Keys && k.valueKeys == k.facts.values.Keys
  }

  /** The evidence that is left once the inadmissible is dropped. */
  function Usable(evidence: seq<Evidence>, revision: string): seq<Evidence> {
    if evidence == [] then []
    else
      var n := |evidence| - 1;
      Usable(evidence[..n], revision) + (if StandingOf(evidence[n], revision) == Admissible then [evidence[n]] else [])
  }

  lemma {:induction false} LiveAppend(evidence: seq<Evidence>, e: Evidence, revision: string)
    ensures LiveOf(evidence + [e], revision) == Take(LiveOf(evidence, revision), e, revision)
  {
    assert (evidence + [e])[..|evidence|] == evidence;
  }

  predicate Authentic(e: Evidence) { e.uncertainty == Observed || e.uncertainty == Derived }

  /** The evidence left out for each reason: tainted first, then stale, then not observed or derived. */
  function TaintedOf(evidence: seq<Evidence>): set<string> { set e | e in evidence && e.secretTaint :: e.id }

  function StaleOf(evidence: seq<Evidence>, revision: string): set<string> {
    set e | e in evidence && !e.secretTaint && e.revision != Some(revision) :: e.id
  }

  function UnauthenticOf(evidence: seq<Evidence>, revision: string): set<string> {
    set e | e in evidence && !e.secretTaint && e.revision == Some(revision) && !Authentic(e) :: e.id
  }

  function RestOf(evidence: seq<Evidence>, revision: string): set<string> {
    set e | e in evidence && !e.secretTaint && e.revision == Some(revision) && Authentic(e) :: e.id
  }

  lemma {:induction false} StandingAppend(evidence: seq<Evidence>, e: Evidence, revision: string)
    ensures var all := evidence + [e];
            && TaintedOf(all) == TaintedOf(evidence) + (if e.secretTaint then {e.id} else {})
            && StaleOf(all, revision)
               == StaleOf(evidence, revision) + (if !e.secretTaint && e.revision != Some(revision) then {e.id} else {})
  {
    assert forall x :: x in evidence + [e] <==> x in evidence || x == e;
  }

  lemma {:induction false} AuthenticAppend(evidence: seq<Evidence>, e: Evidence, revision: string)
    requires !e.secretTaint && e.revision == Some(revision)
    ensures var all := evidence + [e];
            && UnauthenticOf(all, revision)
               == UnauthenticOf(evidence, revision) + (if !Authentic(e) then {e.id} else {})
            && RestOf(all, revision) == RestOf(evidence, revision) + (if Authentic(e) then {e.id} else {})
  {
    assert forall x :: x in evidence + [e] <==> x in evidence || x == e;
  }

  lemma {:induction false} OtherAppend(evidence: seq<Evidence>, e: Evidence, revision: string)
    requires e.secretTaint || e.revision != Some(revision)
    ensures var all := evidence + [e];
            && UnauthenticOf(all, revision) == UnauthenticOf(evidence, revision)
            && RestOf(all, revision) == RestOf(evidence, revision)
  {
    assert forall x :: x in evidence + [e] <==> x in evidence || x == e;
  }

  lemma {:induction false} ListedByStanding(evidence: seq<Evidence>, revision: string)
    ensures var live := LiveOf(evidence, revision);
            && live.tainted == TaintedOf(evidence) && live.stale == StaleOf(evidence, revision)
            && live.unauthoritative == UnauthenticOf(evidence, revision) && live.cited <= RestOf(evidence, revision)
  {
    hide Absorb, Weight;
    if evidence != [] {
      hide TaintedOf, StaleOf, UnauthenticOf, RestOf;
      var before, e := evidence[..|evidence| - 1], evidence[|evidence| - 1];
      ListedByStanding(before, revision);
      assert evidence == before + [e];
      StandingAppend(before, e, revision);
      if e.secretTaint || e.revision != Some(revision) {
        OtherAppend(before, e, revision);
      } else {
        AuthenticAppend(before, e, revision);
      }
    }
  }

  lemma {:induction false} OnlyUsableCounts(evidence: seq<Evidence>, revision: string)
    ensures var live := LiveOf(evidence, revision);
            var usable := LiveOf(Usable(evidence, revision), revision);
            InSync(live.known) && live.known == usable.known && live.cited == usable.cited
  {
    if evidence != [] {
      var before, e := evidence[..|evidence| - 1], evidence[|evidence| - 1];
      OnlyUsableCounts(before, revision);
      var rest := Usable(before, revision);
      LiveAppend(rest, e, revision);
      if StandingOf(e, revision) != Admissible { assert rest + [] == rest; }
    }
  }

  /**
   * Tainted, stale and non-authoritative evidence changes no fact and is
   * never cited; each piece is listed under the one reason that excludes it.
   */
  lemma InadmissibleChangesNothing(evidence: seq<Evidence>, revision: string)
    ensures var live := LiveOf(evidence, revision);
            var usable := LiveOf(Usable(evidence, revision), revision);
            && InSync(live.known) && live.known == usable.known && live.cited == usable.cited
            && live.tainted == TaintedOf(evidence) && live.stale == StaleOf(evidence, revision)
            && live.unauthoritative == UnauthenticOf(evidence, revision) && live.cited <= RestOf(evidence, revision)
  {
    OnlyUsableCounts(evidence, revision);
    ListedByStanding(evidence, revision);
  }

  // ---------------------------------------------------------- what evidence tells

  /** Everything one piece of evidence can tell of a page, but for a count. */
  datatype Claim =
    | Selector(name: string) | IssueCode(name: string) | Complete(domain: Domain)
    | MetricKey(name: string) | ValueKey(name: string)

  /** It is not tainted, is of the revision, was observed or derived, and is an object. */
  predicate Counts(e: Evidence, revision: string) {
    !e.secretTaint && e.revision == Some(revision) && Authentic(e) && e.payload.Object?
  }

  predicate Names(o: map<string, Value>, key: string, name: string) {
    key in o && o[key].List? && Text(name) in o[key].items && name != ""
  }

  predicate Has(o: map<string, Value>, key: string, name: string) {
    key in o && o[key].Object? && name in o[key].fields
  }

  /** The flag by which a piece of evidence says that it lists a domain in full. */
  function FlagOf(d: Domain): string {
    match d
    case Selectors => "selectors_complete"
    case Metrics => "metrics_complete"
    case Values => "values_complete"
    case IssueCodes => "issue_codes_complete"
    case InteractiveNames => "interactive_names_complete"
  }

  predicate Tells(o: map<string, Value>, c: Claim) {
    match c
    case Selector(name) => Names(o, "selectors", name)
    case IssueCode(name) => Names(o, "issue_codes", name)
    case Complete(d) => FlagOf(d) in o && o[FlagOf(d)] == Bool(true)
    case MetricKey(name) => Has(o, "metrics", name) && o["metrics"].fields[name].Num?
    case ValueKey(name) => Has(o, "values", name)
  }

  predicate IsKnown(k: Known, c: Claim) {
    match c
    case Selector(name) => name in k.facts.selectors
    case IssueCode(name) => name in k.facts.issueCodes
    case Complete(d) => d in k.complete
    case MetricKey(name) => name in k.facts.metrics
    case ValueKey(name) => name in k.facts.values
  }

  predicate Makes(e: Evidence, revision: string, c: Claim) { Counts(e, revision) && Tells(e.payload.fields, c) }

  predicate Made(evidence: seq<Evidence>, revision: string, c: Claim) {
    exists i | 0 <= i < |evidence| :: Makes(evidence[i], revision, c)
  }

  lemma {:induction false} MadeAppend(evidence: seq<Evidence>, e: Evidence, revision: string, c: Claim)
    ensures Made(evidence + [e], revision, c) <==> Made(evidence, revision, c) || Makes(e, revision, c)
  {
    var all := evidence + [e];
    if Made(evidence, revision, c) {
      var i :| 0 <= i < |evidence| && Makes(evidence[i], revision, c);
      assert all[i] == evidence[i];
    }
    if Makes(e, revision, c) { assert all[|evidence|] == e; }
  }

  lemma CompletedTells(done: set<Domain>, o: map<string, Value>, d: Domain)
    ensures d in Completed(done, o) <==> d in done || Tells(o, Complete(d))
  {
  }

  lemma {:induction false} AbsorbTells(k: Known, o: map<string, Value>, c: Claim)
    ensures IsKnown(Absorb(k, o), c) <==> IsKnown(k, c) || Tells(o, c)
  {
    hide Completed, FlagOf, NamesIn, ItemsAt;
    match c
    case Selector(name) => NamesAreIn(o, "selectors", name);
    case IssueCode(name) => NamesAreIn(o, "issue_codes", name);
    case Complete(d) => CompletedTells(k.complete, o, d);
    case MetricKey(_) =>
    case ValueKey(_) =>
  }

  lemma NamesAreIn(o: map<string, Value>, key: string, name: string)
    ensures name in NamesIn(ItemsAt(o, key)) <==> Names(o, key, name)
  {
    if Names(o, key, name) { assert Text(name) in ItemsAt(o, key); }
  }

  lemma {:induction false} TakeTells(live: Live, e: Evidence, revision: string, c: Claim)
    ensures IsKnown(Take(live, e, revision).known, c) <==> IsKnown(live.known, c) || Makes(e, revision, c)
  {
    hide Absorb, Weight, IsKnown, Tells;
    if Counts(e, revision) { AbsorbTells(live.known, e.payload.fields, c); }
  }

  /**
   * A selector, an issue code, a metric, a value or the completeness of a
   * domain is known exactly when some admissible evidence tells it.
   */
  lemma {:induction false} FactsAreReported(evidence: seq<Evidence>, revision: string, c: Claim)
    ensures IsKnown(LiveOf(evidence, revision).known, c) <==> Made(evidence, revision, c)
  {
    hide IsKnown, Makes, Take;
    if evidence == [] {
      NothingIsKnown(c);
    } else {
      var before, e := evidence[..|evidence| - 1], evidence[|evidence| - 1];
      FactsAreReported(before, revision, c);
      TakeTells(LiveOf(before, revision), e, revision, c);
      MadeAppend(before, e, revision, c);
      assert before + [e] == evidence;
    }
  }

  lemma NothingIsKnown(c: Claim)
    ensures !IsKnown(NOTHING, c)
  {
  }

  /** The last evidence that makes a claim. */
  predicate IsLast(evidence: seq<Evidence>, revision: string, c: Claim, i: nat) {
    && i < |evidence| && Makes(evidence[i], revision, c)
    && forall j | i < j < |evidence| :: !Makes(evidence[j], revision, c)
  }

  /** A number of a payload, as a metric. */
  predicate Measures(v: Value, x: real) {
    v.Num? && match v.number
              case Integer(n) => x == n as real
              case Float(y) => x == y
  }

  lemma {:induction false} LastAppend(evidence: seq<Evidence>, e: Evidence, revision: string, c: Claim, i: nat)
    ensures IsLast(evidence, revision, c, i) && !Makes(e, revision, c) ==> IsLast(evidence + [e], revision, c, i)
    ensures Makes(e, revision, c) ==> IsLast(evidence + [e], revision, c, |evidence|)
  {
    hide Makes;
    var all := evidence + [e];
    assert all[|evidence|] == e && forall j | 0 <= j < |evidence| :: all[j] == evidence[j];
  }

  predicate GivesMetric(e: Evidence, name: string, x: real) {
    e.payload.Object? && Has(e.payload.fields, "metrics", name) && Measures(e.payload.fields["metrics"].fields[name], x)
  }

  predicate GivesValue(e: Evidence, name: string, v: Value) {
    e.payload.Object? && Has(e.payload.fields, "values", name) && e.payload.fields["values"].fields[name] == v
  }

  lemma {:induction false} TakeMeasures(live: Live, e: Evidence, revision: string, name: string)
    requires name in Take(live, e, revision).known.facts.metrics
    ensures var x := Take(live, e, revision).known.facts.metrics[name];
            if Makes(e, revision, MetricKey(name)) then GivesMetric(e, name, x)
            else name in live.known.facts.metrics && x == live.known.facts.metrics[name]
  {
    hide Weight;
  }

  lemma {:induction false} TakeAssigns(live: Live, e: Evidence, revision: string, name: string)
    requires name in Take(live, e, revision).known.facts.values
    ensures var x := Take(live, e, revision).known.facts.values[name];
            if Makes(e, revision, ValueKey(name)) then GivesValue(e, name, x)
            else name in live.known.facts.values && x == live.known.facts.values[name]
  {
    hide Weight;
  }

  /** A metric has the number of the last admissible evidence that reports it. */
  lemma {:induction false} MetricsAreLastReported(evidence: seq<Evidence>, revision: string, name: string)
    returns (i: nat)
    requires name in LiveOf(evidence, revision).known.facts.metrics
    ensures IsLast(evidence, revision, MetricKey(name), i)
    ensures GivesMetric(evidence[i], name, LiveOf(evidence, revision).known.facts.metrics[name])
  {
    hide GivesMetric, Take, Makes;
    var before, e := evidence[..|evidence| - 1], evidence[|evidence| - 1];
    assert before + [e] == evidence;
    TakeMeasures(LiveOf(before, revision), e, revision, name);
    i := |before|;
    if !Makes(e, revision, MetricKey(name)) { i := MetricsAreLastReported(before, revision, name); }
    LastAppend(before, e, revision, MetricKey(name), i);
  }

  /** A value is that of the last admissible evidence that reports it. */
  lemma {:induction false} ValuesAreLastReported(evidence: seq<Evidence>, revision: string, name: string)
    returns (i: nat)
    requires name in LiveOf(evidence, revision).known.facts.values
    ensures IsLast(evidence, revision, ValueKey(name), i)
    ensures GivesValue(evidence[i], name, LiveOf(evidence, revision).known.facts.values[name])
  {
    hide GivesValue, Take, Makes;
    var before, e := evidence[..|evidence| - 1], evidence[|evidence| - 1];
    assert before + [e] == evidence;
    TakeAssigns(LiveOf(before, revision), e, revision, name);
    i := |before|;
    if !Makes(e, revision, ValueKey(name)) { i := ValuesAreLastReported(before, revision, name); }
    LastAppend(before, e, revision, ValueKey(name), i);
  }

  /** The evidence gives so many unnamed interactive elements, as a 64-bit count. */
  predicate CountsUnnamed(e: Evidence, revision: string, n: nat) {
    && Counts(e, revision) && n < 0x1_0000_0000_0000_0000 && "unnamed_interactive_count" in e.payload.fields
    && e.payload.fields["unnamed_interactive_count"] == Num(Integer(n))
  }

  /** It is none, or some evidence gives it, and no evidence gives a greater one. */
  ghost predicate IsLargestCount(evidence: seq<Evidence>, revision: string, count: nat) {
    && (count > 0 ==> exists i :: 0 <= i < |evidence| && CountsUnnamed(evidence[i], revision, count))
    && (forall i, n: nat | 0 <= i < |evidence| && CountsUnnamed(evidence[i], revision, n) :: n <= count)
  }

  lemma {:induction false} TakeCounts(live: Live, e: Evidence, revision: string)
    ensures var unnamed := Take(live, e, revision).known.facts.unnamed;
            && live.known.facts.unnamed <= unnamed
            && (unnamed == live.known.facts.unnamed || CountsUnnamed(e, revision, unnamed))
            && (forall n: nat | CountsUnnamed(e, revision, n) :: n <= unnamed)
  {
    hide Weight;
  }

  /** The count of unnamed interactive elements is the largest that admissible evidence gives. */
  lemma {:induction false} CountIsLargest(evidence: seq<Evidence>, revision: string)
    ensures IsLargestCount(evidence, revision, LiveOf(evidence, revision).known.facts.unnamed)
  {
    hide Take, CountsUnnamed;
    if evidence != [] {
      var before, e := evidence[..|evidence| - 1], evidence[|evidence| - 1];
      CountIsLargest(before, revision);
      TakeCounts(LiveOf(before, revision), e, revision);
      assert forall i | 0 <= i < |before| :: before[i] == evidence[i];
      assert evidence[|before|] == e;
    }
  }

  // --------------------------------------------------------------- live verdicts

  /** `decisive_partial_result` */
  function Decisive(c: Contract, k: Known, exception: Option<Exception>): Option<Verdict> {
    if exception.Some? then Some(Evaluate(c, k.facts, exception))
    else
      match c.demand
      case Exists(selector) => if selector in k.facts.selectors then Some(Pass) else None
      case NotExists(selector) => if selector in k.facts.selectors then Some(Fail) else None
      case NoIssueCode(code) => if code in k.facts.issueCodes then Some(Fail) else None
      case EveryInteractiveNamed => if k.facts.unnamed > 0 then Some(Fail) else None
      case _ => None
  }

  predicate DomainKnown(p: Predicate, k: Known) {
    match p
    case Exists(_) => Selectors in k.complete
    case NotExists(_) => Selectors in k.complete
    case MetricAtMost(metric, _) => metric in k.metricKeys || Metrics in k.complete
    case MetricAtLeast(metric, _) => metric in k.metricKeys || Metrics in k.complete
    case Equals(key, _) => key in k.valueKeys || Values in k.complete
    case NoIssueCode(_) => IssueCodes in k.complete
    case EveryInteractiveNamed => InteractiveNames in k.complete
  }

  predicate Applies(exception: Option<Exception>, c: Contract, revision: string) {
    && exception.Some? && exception.value.contractId == c.id
    && (exception.value.expiresRevision.None? || exception.value.expiresRevision == Some(revision))
  }

  /** `evaluate_live_contract` */
  function LiveVerdict(c: Contract, k: Known, exception: Option<Exception>, revision: string): Verdict {
    var applied := if Applies(exception, c, revision) then exception else None;
    match Decisive(c, k, applied)
    case Some(v) => v
    case None => if DomainKnown(c.demand, k) then Evaluate(c, k.facts, applied) else Unknown
  }

  /** A full page that agrees with what is known of it. */
  predicate Consistent(k: Known, world: Facts) {
    && k.facts.selectors <= world.selectors && (Selectors in k.complete ==> world.selectors == k.facts.selectors)
    && (forall m | m in k.facts.metrics :: m in world.metrics && world.metrics[m] == k.facts.metrics[m])
    && (Metrics in k.complete ==> world.metrics == k.facts.metrics)
    && (forall v | v in k.facts.values :: v in world.values && world.values[v] == k.facts.values[v])
    && (Values in k.complete ==> world.values == k.facts.values)
    && k.facts.issueCodes <= world.issueCodes && (IssueCodes in k.complete ==> world.issueCodes == k.facts.issueCodes)
    && k.facts.unnamed <= world.unnamed && (InteractiveNames in k.complete ==> world.unnamed == k.facts.unnamed)
  }

  ghost predicate Everywhere(p: Predicate, k: Known, v: Verdict) {
    forall world: Facts | Consistent(k, world) :: Judge(p, world) == v
  }

  /** Two pages consistent with the evidence are judged differently. */
  ghost predicate Disagree(p: Predicate, k: Known) {
    exists w, w' :: Consistent(k, w) && Consistent(k, w') && Judge(p, w) != Judge(p, w')
  }

  lemma {:induction false} DecidedEverywhere(c: Contract, k: Known, exception: Option<Exception>, revision: string,
                                             world: Facts)
    requires InSync(k) && Consistent(k, world) && !Applies(exception, c, revision)
    ensures LiveVerdict(c, k, exception, revision) != Unknown ==>
              Judge(c.demand, world) == LiveVerdict(c, k, exception, revision)
  {
  }

  /** Where the live verdict is unknown, some possible page is not met, and some possible page does not fail. */
  lemma {:induction false} UndecidedSomewhere(p: Predicate, k: Known) returns (unmet: Facts, unfailed: Facts)
    requires InSync(k) && !DomainKnown(p, k)
    requires Decisive(Contract("", Hard, Scope([], [], [], []), p, "", None), k, None).None?
    ensures Consistent(k, unmet) && Judge(p, unmet) != Pass
    ensures Consistent(k, unfailed) && Judge(p, unfailed) != Fail
  {
    var f := k.facts;
    unmet, unfailed := f, f;
    match p
    case Exists(selector) => unfailed := f.(selectors := f.selectors + {selector});
    case NotExists(selector) => unmet := f.(selectors := f.selectors + {selector});
    case MetricAtMost(metric, max) =>
      unmet, unfailed := f.(metrics := f.metrics[metric := max + 1.0]), f.(metrics := f.metrics[metric := max]);
    case MetricAtLeast(metric, min) =>
      unmet, unfailed := f.(metrics := f.metrics[metric := min - 1.0]), f.(metrics := f.metrics[metric := min]);
    case Equals(key, value) =>
      unmet := f.(values := f.values[key := if value == Null then Bool(true) else Null]);
      unfailed := f.(values := f.values[key := value]);
    case NoIssueCode(code) => unmet := f.(issueCodes := f.issueCodes + {code});
    case EveryInteractiveNamed => unmet := f.(unnamed := 1);
  }

  lemma {:induction false} UnknownIsUndecided(c: Contract, k: Known, exception: Option<Exception>, revision: string)
    requires InSync(k) && !Applies(exception, c, revision) && LiveVerdict(c, k, exception, revision) == Unknown
    ensures !Everywhere(c.demand, k, Pass) && !Everywhere(c.demand, k, Fail)
  {
    if DomainKnown(c.demand, k) {
      assert Consistent(k, k.facts);
    } else {
      var unmet, unfailed := UndecidedSomewhere(c.demand, k);
    }
  }

  /**
   * Live evaluation is exact. A pass or fail is what every page consistent
   * with the evidence gives, whenever all of them agree on it; unknown means
   * they all leave the contract unknown or two of them disagree.
   */
  lemma LiveVerdictIsExact(c: Contract, k: Known, exception: Option<Exception>, revision: string)
    requires InSync(k)
    ensures var v := LiveVerdict(c, k, exception, revision);
            var excepted := && exception.Some? && exception.value.contractId == c.id
                            && exception.value.expiresRevision in {None, Some(revision)};
            if excepted then v == Excepted
            else
              && (v == Pass <==> Everywhere(c.demand, k, Pass))
              && (v == Fail <==> Everywhere(c.demand, k, Fail))
              && (v == Unknown <==> Everywhere(c.demand, k, Unknown) || Disagree(c.demand, k))
  {
    if !Applies(exception, c, revision) {
      assert Consistent(k, k.facts);
      forall world: Facts | Consistent(k, world)
        ensures LiveVerdict(c, k, exception, revision) != Unknown ==>
                  Judge(c.demand, world) == LiveVerdict(c, k, exception, revision)
      {
        DecidedEverywhere(c, k, exception, revision, world);
      }
      if LiveVerdict(c, k, exception, revision) == Unknown { UnknownIsUndecided(c, k, exception, revision); }
    }
  }
}
