/**
 * Reconciliation classifies every admitted contract exactly once, so the
 * journal never refuses the receipt for the way it is put together.
 */
module ManagedDraft {
  import opened Common
  import opened Managed
  import J = Journal
  import A = JournalApi

  type Observed = map<string, (ContractStatus, string)>

  lemma {:induction false} NoDuplicatesTail(refs: seq<string>)
    requires refs != []
    ensures NoDuplicates(refs) <==> refs[0] !in refs[1..] && NoDuplicates(refs[1..])
  {
    var tail := refs[1..];
    forall i, j | 0 <= i < j < |tail| ensures tail[i] == refs[i + 1] && tail[j] == refs[j + 1] {}
    if refs[0] !in tail && NoDuplicates(tail) {
      forall i, j | 0 <= i < j < |refs| ensures refs[i] != refs[j] {
        assert refs[j] == tail[j - 1];
      }
    }
    if NoDuplicates(refs) {
      forall k | 0 <= k < |tail| ensures tail[k] != refs[0] { assert tail[k] == refs[k + 1]; }
    }
  }

  lemma {:induction false} Classified(observed: Observed, refs: seq<string>, wanted: ContractStatus)
    requires NoDuplicates(refs)
    ensures NoDuplicates(WithStatus(observed, refs, wanted))
    ensures forall c :: c in WithStatus(observed, refs, wanted) <==>
              c in refs && c in observed && observed[c].0 == wanted
  {
    if refs != [] {
      NoDuplicatesTail(refs);
      Classified(observed, refs[1..], wanted);
      var rest := WithStatus(observed, refs[1..], wanted);
      assert refs == [refs[0]] + refs[1..];
      assert ([refs[0]] + rest)[1..] == rest;
      NoDuplicatesTail([refs[0]] + rest);
    }
  }

  lemma {:induction false} Undecided(observed: Observed, refs: seq<string>)
    requires NoDuplicates(refs)
    ensures NoDuplicates(Unresolved(observed, refs))
    ensures forall c :: c in Unresolved(observed, refs) <==> c in refs && (c !in observed || observed[c].0 == Unknown)
  {
    if refs != [] {
      NoDuplicatesTail(refs);
      Undecided(observed, refs[1..]);
      var rest := Unresolved(observed, refs[1..]);
      assert refs == [refs[0]] + refs[1..];
      assert ([refs[0]] + rest)[1..] == rest;
      NoDuplicatesTail([refs[0]] + rest);
    }
  }

  predicate Binds(bs: seq<J.EvidenceBinding>, c: string) {
    exists i | 0 <= i < |bs| :: bs[i].contractRef == c
  }

  /** Every binding is to the evidence of a listed contract, and every listed contract with evidence is bound. */
  predicate BoundTo(observed: Observed, refs: seq<string>, bs: seq<J.EvidenceBinding>) {
    && (forall i | 0 <= i < |bs| :: bs[i].contractRef in refs && bs[i].contractRef in observed
                                  && bs[i].receiptRef == observed[bs[i].contractRef].1)
    && (forall i, j | 0 <= i < j < |bs| :: bs[i].contractRef != bs[j].contractRef)
    && (forall c | c in refs && c in observed :: Binds(bs, c))
  }

  lemma {:induction false} BoundMore(observed: Observed, refs: seq<string>, c: string, bs: seq<J.EvidenceBinding>)
    requires BoundTo(observed, refs, bs) && c !in refs && c in observed
    ensures BoundTo(observed, [c] + refs, [J.EvidenceBinding(c, observed[c].1)] + bs)
  {
    var more := [J.EvidenceBinding(c, observed[c].1)] + bs;
    assert more[0].contractRef == c;
    forall x | x in refs && x in observed ensures Binds(more, x) {
      assert Binds(bs, x);
      var i :| 0 <= i < |bs| && bs[i].contractRef == x;
      assert more[i + 1].contractRef == x;
    }
  }

  lemma {:induction false} Bound(observed: Observed, refs: seq<string>)
    requires NoDuplicates(refs)
    ensures BoundTo(observed, refs, BindingsOf(observed, refs))
  {
    if refs != [] {
      NoDuplicatesTail(refs);
      Bound(observed, refs[1..]);
      assert refs == [refs[0]] + refs[1..];
      var rest := BindingsOf(observed, refs[1..]);
      if refs[0] in observed {
        BoundMore(observed, refs[1..], refs[0], rest);
      } else {
        assert BindingsOf(observed, refs) == rest;
        forall c | c in refs && c in observed ensures Binds(rest, c) { assert c in refs[1..]; }
      }
    }
  }

  lemma {:induction false} DisjointConcat(a: seq<string>, b: seq<string>)
    requires NoDuplicates(a) && NoDuplicates(b) && (forall c | c in a :: c !in b)
    ensures NoDuplicates(a + b)
  {
    forall i, j | 0 <= i < j < |a + b| ensures (a + b)[i] != (a + b)[j] {
      if i < |a| <= j { assert a[i] in a && b[j - |a|] in b; }
    }
  }

  lemma {:induction false} DraftPartitions(o: A.ObservationReceipt, expected: seq<string>, observed: Observed)
    requires NoDuplicates(expected) && expected != []
    ensures J.ExactPartition(Draft(o, expected, observed))
  {
    var d := Draft(o, expected, observed);
    Classified(observed, expected, VerifiedPass);
    Classified(observed, expected, VerifiedFail);
    Undecided(observed, expected);
    DisjointConcat(d.verified, d.failed);
    DisjointConcat(d.verified + d.failed, d.unresolved);
    var all := d.verified + d.failed + d.unresolved;
    forall c | c in expected ensures c in all {
      if c in observed && observed[c].0 == VerifiedPass { assert c in d.verified; }
      else if c in observed && observed[c].0 == VerifiedFail { assert c in d.failed; }
      else { assert c in d.unresolved; }
    }
    assert ToSet(all) == ToSet(expected);
  }

  lemma {:induction false} DraftBindings(o: A.ObservationReceipt, expected: seq<string>, observed: Observed)
    requires NoDuplicates(expected) && (forall c | c in expected && c in observed :: !Blank(observed[c].1))
    ensures J.BindingsValid(Draft(o, expected, observed))
  {
    var d := Draft(o, expected, observed);
    Bound(observed, expected);
    Classified(observed, expected, VerifiedPass);
    Classified(observed, expected, VerifiedFail);
    forall c | c in d.verified + d.failed ensures J.Evidenced(d, c) {
      assert c in d.verified || c in d.failed;
      assert Binds(d.bindings, c);
    }
    forall i | 0 <= i < |d.bindings| ensures d.bindings[i].receiptRef == d.evidenceRefs[i] {}
  }

  /**
   * What the journal checks of a receipt's content holds of every draft made
   * from a nonempty duplicate-free list of admitted contracts and evidence
   * that names its receipts; a contract without evidence stays unresolved, so
   * it can never be counted as verified.
   */
  lemma DraftsAreWellFormed(o: A.ObservationReceipt, expected: seq<string>, observed: Observed)
    requires NoDuplicates(expected) && expected != []
    requires forall c | c in expected && c in observed :: !Blank(observed[c].1)
    ensures var d := Draft(o, expected, observed);
            && J.ExactPartition(d) && J.BindingsValid(d) && d.verdict == J.PartitionVerdict(d.failed, d.unresolved)
            && (d.verdict == J.VerifiedExpected <==>
                  forall c | c in expected :: c in observed && observed[c].0 == VerifiedPass)
            && (d.verdict == J.VerifiedUnexpected <==>
                  exists c | c in expected :: c in observed && observed[c].0 == VerifiedFail)
  {
    var d := Draft(o, expected, observed);
    DraftPartitions(o, expected, observed);
    DraftBindings(o, expected, observed);
    Classified(observed, expected, VerifiedFail);
    Undecided(observed, expected);
    if d.failed != [] { assert d.failed[0] in d.failed; }
    if d.unresolved != [] { assert d.unresolved[0] in d.unresolved; }
  }
}
