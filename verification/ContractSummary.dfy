/** Judging a compiled set: every contract lands in exactly one bucket, and a clear summary means what it says. */
module ContractSummary {
  import opened Common
  import opened Contracts
  import opened LiveContracts

  datatype Row = Row(contractId: string, strength: Strength, verdict: Verdict)

  datatype Summary = Summary(
    evaluated: seq<Row>, hardFailures: seq<string>, hardUnknowns: seq<string>, softWarnings: seq<string>,
    passCount: nat, exceptedCount: nat)

  const EMPTY := Summary([], [], [], [], 0, 0)

  function Add(s: Summary, r: Row): Summary {
    var s' := s.(evaluated := s.evaluated + [r]);
    match r.verdict
    case Pass => s'.(passCount := s.passCount + 1)
    case Excepted => s'.(exceptedCount := s.exceptedCount + 1)
    case Fail =>
      if r.strength.Hard? then s'.(hardFailures := s.hardFailures + [r.contractId])
      else s'.(softWarnings := s.softWarnings + [r.contractId])
    case Unknown =>
      if r.strength.Hard? then s'.(hardUnknowns := s.hardUnknowns + [r.contractId])
      else s'.(softWarnings := s.softWarnings + [r.contractId])
  }

  function RowOf(c: Contract, k: Known, exceptions: map<string, Exception>, revision: string): Row {
    Row(c.id, c.strength,
        LiveVerdict(c, k, if c.id in exceptions then Some(exceptions[c.id]) else None, revision))
  }

  function SummaryOf(cs: seq<Contract>, k: Known, exceptions: map<string, Exception>, revision: string): Summary {
    if cs == [] then EMPTY
    else Add(SummaryOf(cs[..|cs| - 1], k, exceptions, revision), RowOf(cs[|cs| - 1], k, exceptions, revision))
  }

  /** `evaluate_compiled_contracts` */
  method EvaluateCompiledContracts(cs: seq<Contract>, k: Known, exceptions: map<string, Exception>, revision: string)
    returns (s: Summary)
    ensures s == SummaryOf(cs, k, exceptions, revision)
  {
    s := EMPTY;
    for i := 0 to |cs|
      invariant s == SummaryOf(cs[..i], k, exceptions, revision)
    {
      assert cs[..i + 1][..i] == cs[..i];
      var exception := if cs[i].id in exceptions then Some(exceptions[cs[i].id]) else None;
      var row := Row(cs[i].id, cs[i].strength, LiveVerdict(cs[i], k, exception, revision));
      s := Add(s, row);
    }
    assert cs[..|cs|] == cs;
  }

  predicate ExceptedBy(exceptions: map<string, Exception>, c: Contract, revision: string) {
    c.id in exceptions && Applies(Some(exceptions[c.id]), c, revision)
  }

  /** The ids of the rows of these strengths and verdicts, in order. */
  function Listed(rows: seq<Row>, strengths: set<Strength>, verdicts: set<Verdict>): seq<string> {
    if rows == [] then []
    else
      var n := |rows| - 1;
      Listed(rows[..n], strengths, verdicts)
      + (if rows[n].strength in strengths && rows[n].verdict in verdicts then [rows[n].contractId] else [])
  }

  /** Each list and each count is of the rows of its kind. */
  predicate Sorted(s: Summary) {
    && s.hardFailures == Listed(s.evaluated, {Hard}, {Fail})
    && s.hardUnknowns == Listed(s.evaluated, {Hard}, {Unknown})
    && s.softWarnings == Listed(s.evaluated, {Soft}, {Fail, Unknown})
    && s.passCount == |Listed(s.evaluated, {Hard, Soft}, {Pass})|
    && s.exceptedCount == |Listed(s.evaluated, {Hard, Soft}, {Excepted})|
  }

  lemma {:induction false} ListedAppend(rows: seq<Row>, r: Row, strengths: set<Strength>, verdicts: set<Verdict>)
    ensures Listed(rows + [r], strengths, verdicts)
         == Listed(rows, strengths, verdicts)
            + (if r.strength in strengths && r.verdict in verdicts then [r.contractId] else [])
  {
    assert (rows + [r])[..|rows|] == rows;
  }

  lemma {:induction false} AddSorts(s: Summary, r: Row)
    requires Sorted(s)
    ensures Sorted(Add(s, r))
  {
    hide Listed;
    ListedAppend(s.evaluated, r, {Hard}, {Fail});
    ListedAppend(s.evaluated, r, {Hard}, {Unknown});
    ListedAppend(s.evaluated, r, {Soft}, {Fail, Unknown});
    ListedAppend(s.evaluated, r, {Hard, Soft}, {Pass});
    ListedAppend(s.evaluated, r, {Hard, Soft}, {Excepted});
  }

  lemma NothingIsSorted()
    ensures Sorted(EMPTY)
  {
  }

  lemma {:induction false} SummarySorts(cs: seq<Contract>, k: Known, exceptions: map<string, Exception>,
                                        revision: string)
    ensures Sorted(SummaryOf(cs, k, exceptions, revision))
  {
    hide Sorted, Add, RowOf;
    if cs == [] {
      NothingIsSorted();
    } else {
      var n := |cs| - 1;
      SummarySorts(cs[..n], k, exceptions, revision);
      AddSorts(SummaryOf(cs[..n], k, exceptions, revision), RowOf(cs[n], k, exceptions, revision));
    }
  }

  lemma {:induction false} SummaryRows(cs: seq<Contract>, k: Known, exceptions: map<string, Exception>,
                                       revision: string)
    ensures var s := SummaryOf(cs, k, exceptions, revision);
            && |s.evaluated| == |cs|
            && (forall i | 0 <= i < |cs| :: s.evaluated[i] == RowOf(cs[i], k, exceptions, revision))
            && s.passCount + s.exceptedCount + |s.hardFailures| + |s.hardUnknowns| + |s.softWarnings| == |cs|
  {
    hide RowOf;
    if cs != [] { SummaryRows(cs[..|cs| - 1], k, exceptions, revision); }
  }

  /** Every contract is judged once, in order, and is in the one bucket for its strength and verdict. */
  lemma {:induction false} SummaryCounts(cs: seq<Contract>, k: Known, exceptions: map<string, Exception>,
                                         revision: string)
    ensures var s := SummaryOf(cs, k, exceptions, revision);
            && |s.evaluated| == |cs| && Sorted(s)
            && (forall i | 0 <= i < |cs| :: s.evaluated[i] == RowOf(cs[i], k, exceptions, revision))
            && s.passCount + s.exceptedCount + |s.hardFailures| + |s.hardUnknowns| + |s.softWarnings| == |cs|
  {
    hide Sorted, RowOf, SummaryOf;
    SummarySorts(cs, k, exceptions, revision);
    SummaryRows(cs, k, exceptions, revision);
  }

  /** An id is listed in a bucket exactly when a row of that kind was recorded for it. */
  ghost predicate Bucketed(s: Summary, id: string) {
    && (id in s.hardFailures <==> Row(id, Hard, Fail) in s.evaluated)
    && (id in s.hardUnknowns <==> Row(id, Hard, Unknown) in s.evaluated)
    && (id in s.softWarnings <==> Row(id, Soft, Fail) in s.evaluated || Row(id, Soft, Unknown) in s.evaluated)
  }

  lemma AddBuckets(s: Summary, r: Row, id: string)
    requires Bucketed(s, id)
    ensures Bucketed(Add(s, r), id)
  {
    forall x: Row ensures x in s.evaluated + [r] <==> x in s.evaluated || x == r {}
  }

  lemma {:induction false} Buckets(cs: seq<Contract>, k: Known, exceptions: map<string, Exception>, revision: string,
                                   id: string)
    ensures Bucketed(SummaryOf(cs, k, exceptions, revision), id)
  {
    if cs != [] {
      var front := cs[..|cs| - 1];
      Buckets(front, k, exceptions, revision, id);
      AddBuckets(SummaryOf(front, k, exceptions, revision), RowOf(cs[|cs| - 1], k, exceptions, revision), id);
    }
  }

  /**
   * A summary without hard failures and unknowns means every page consistent
   * with the evidence meets every hard contract that is not excepted; a hard
   * failure means every such page fails the contract.
   */
  lemma ClearSummaryIsSound(cs: seq<Contract>, k: Known, exceptions: map<string, Exception>, revision: string, i: nat)
    requires InSync(k) && i < |cs| && cs[i].strength == Hard && !ExceptedBy(exceptions, cs[i], revision)
    ensures var s := SummaryOf(cs, k, exceptions, revision);
            && (s.hardFailures == [] && s.hardUnknowns == [] ==> Everywhere(cs[i].demand, k, Pass))
            && (Everywhere(cs[i].demand, k, Fail) ==> cs[i].id in s.hardFailures)
            && (cs[i].id in s.hardFailures && (forall j | 0 <= j < |cs| && cs[j].id == cs[i].id :: j == i) ==>
                  Everywhere(cs[i].demand, k, Fail))
  {
    hide Sorted, Disagree, Everywhere, SummaryOf;
    SummaryCounts(cs, k, exceptions, revision);
    Buckets(cs, k, exceptions, revision, cs[i].id);
    var s := SummaryOf(cs, k, exceptions, revision);
    var exception := if cs[i].id in exceptions then Some(exceptions[cs[i].id]) else None;
    LiveVerdictIsExact(cs[i], k, exception, revision);
    assert s.evaluated[i] == RowOf(cs[i], k, exceptions, revision);
  }
}
