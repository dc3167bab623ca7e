/** The v1beta1 volume placement spec: a slice of rule structs held by value. */
module PlacementRules {
  import opened Options
  import opened DeepCopy

  datatype RuleFields = RuleFields(affectedReplicas: int, weight: int, enforcement: string, ruleType: string)

  type PlacementRule = Rule<RuleFields>

  type RuleSlice = array?<PlacementRule>

  type RuleMeaning = RuleValue<RuleFields>

  ghost function Meaning(r: PlacementRule): RuleMeaning
    reads *
  {
    RuleValue(r.fields, ExpressionsOf(r.exprs))
  }

  ghost function CellsOf(s: seq<PlacementRule>): set<object>
    reads *
  {
    if s == [] then {} else CellsOf(s[..|s| - 1]) + ExpressionCells(s[|s| - 1].exprs)
  }

  ghost function MeaningOf(s: seq<PlacementRule>): seq<RuleMeaning>
    reads *
  {
    if s == [] then [] else MeaningOf(s[..|s| - 1]) + [Meaning(s[|s| - 1])]
  }

  /** No two rules share anything, and no rule shares anything with itself. */
  ghost predicate Separate(s: seq<PlacementRule>)
    reads *
  {
    s == [] || (
      var last := s[|s| - 1].exprs;
      Separate(s[..|s| - 1]) && Apart(last) && CellsOf(s[..|s| - 1]) !! ExpressionCells(last))
  }

  ghost function SliceCells(a: RuleSlice): set<object>
    reads *
  {
    if a == null then {} else {a} + CellsOf(a[..])
  }

  ghost function SliceOf(a: RuleSlice): Option<seq<RuleMeaning>>
    reads *
  {
    if a == null then None else Some(MeaningOf(a[..]))
  }

  ghost predicate SliceApart(a: RuleSlice)
    reads *
  {
    a == null || (Separate(a[..]) && a !in CellsOf(a[..]))
  }

  lemma CellsOfAreAllocated(s: seq<PlacementRule>)
    ensures forall o :: o in CellsOf(s) ==> allocated(o)
  {
    if s != [] {
      CellsOfAreAllocated(s[..|s| - 1]);
      ExpressionCellsAreAllocated(s[|s| - 1].exprs);
    }
  }

  twostate lemma MeaningFramed(s: seq<PlacementRule>)
    requires forall o :: o in old(CellsOf(s)) ==> old(allocated(o)) && unchanged(o)
    ensures MeaningOf(s) == old(MeaningOf(s)) && CellsOf(s) == old(CellsOf(s)) && Separate(s) == old(Separate(s))
  {
    if s != [] {
      var exprs := s[|s| - 1].exprs;
      assert old(CellsOf(s[..|s| - 1])) <= old(CellsOf(s)) && old(ExpressionCells(exprs)) <= old(CellsOf(s));
      assert forall o :: o in old(CellsOf(s[..|s| - 1])) ==> o in old(CellsOf(s));
      assert forall o :: o in old(ExpressionCells(exprs)) ==> o in old(CellsOf(s));
      MeaningFramed(s[..|s| - 1]);
      ExpressionsFramed(exprs);
    }
  }

  lemma MeaningLength(s: seq<PlacementRule>)
    ensures |MeaningOf(s)| == |s|
  {
  }

  lemma MeaningAt(s: seq<PlacementRule>, i: nat)
    requires i < |s|
    ensures |MeaningOf(s)| == |s| && MeaningOf(s)[i] == Meaning(s[i])
  {
    MeaningLength(s);
    MeaningLength(s[..|s| - 1]);
    if i < |s| - 1 {
      MeaningAt(s[..|s| - 1], i);
    }
  }

  /** `VolumePlacementRule.DeepCopyInto` applied to element `k` of the new slice. */
  method FillElement(a: array<PlacementRule>, k: nat, from: PlacementRule) returns (ghost added: set<object>)
    requires k < a.Length && a !in CellsOf(a[..k]) && Separate(a[..k])
    modifies a
    ensures forall i :: k < i < a.Length ==> a[i] == old(a[i])
    ensures MeaningOf(a[..k + 1]) == old(MeaningOf(a[..k])) + [old(Meaning(from))]
    ensures fresh(added) && CellsOf(a[..k + 1]) == old(CellsOf(a[..k])) + added
    ensures a !in CellsOf(a[..k + 1]) && Separate(a[..k + 1])
  {
    ghost var s := a[..k];
    CellsOfAreAllocated(s);
    var exprs := CopyExpressions(from.exprs, false);
    added := ExpressionCells(exprs);
    ExpressionCellsAreAllocated(exprs);
    label copied:
    a[k] := from.(exprs := exprs);
    ExpressionsFramed@copied(exprs);
    MeaningFramed(s);
    assert a[..k + 1][..k] == s && a[..k + 1][k] == a[k];
  }

  const ZERO_RULE: PlacementRule := Rule(RuleFields(0, 0, "", ""), null)

  ghost function ZeroRules(n: nat): seq<RuleMeaning> { seq(n, _ => RuleValue(RuleFields(0, 0, "", ""), None)) }

  /** With `same`, the new slice takes the place of the one that is read. */
  method CopyElements(inp: array<PlacementRule>, same: bool) returns (out: array<PlacementRule>)
    ensures fresh(out) && out.Length == inp.Length
    ensures MeaningOf(out[..inp.Length]) == if same then ZeroRules(inp.Length) else old(MeaningOf(inp[..]))
    ensures fresh(CellsOf(out[..inp.Length])) && out !in CellsOf(out[..inp.Length]) && Separate(out[..inp.Length])
  {
    ghost var rules, want := inp[..], if same then ZeroRules(inp.Length) else MeaningOf(inp[..]);
    MeaningLength(rules);
    CellsOfAreAllocated(rules);
    out := new PlacementRule[inp.Length](_ => ZERO_RULE);
    var from := if same then out else inp;
    ghost var cells := {};
    for n := 0 to inp.Length
      invariant fresh(out) && out.Length == inp.Length == |want|
      invariant same ==> forall i :: n <= i < out.Length ==> out[i] == ZERO_RULE
      invariant MeaningOf(out[..n]) == want[..n]
      invariant fresh(cells) && CellsOf(out[..n]) == cells && out !in cells && Separate(out[..n])
    {
      MeaningFramed(rules);
      MeaningAt(rules, n);
      ghost var added := FillElement(out, n, from[n]);
      cells := cells + added;
      TakeNext(want, n);
    }
  }

  ghost function EmptiedSlice(v: Option<seq<RuleMeaning>>): Option<seq<RuleMeaning>> {
    if v.None? then None else Some(ZeroRules(|v.value|))
  }

  method CopySlice(inp: RuleSlice, same: bool) returns (out: RuleSlice)
    ensures SliceOf(out) == if same then EmptiedSlice(old(SliceOf(inp))) else old(SliceOf(inp))
    ensures fresh(SliceCells(out)) && SliceApart(out)
  {
    out := null;
    if inp != null {
      MeaningLength(inp[..]);
      var copy := CopyElements(inp, same);
      assert copy[..inp.Length] == copy[..];
      out := copy;
    }
  }

  /** The value of a slice depends on its own cells alone. */
  twostate lemma SliceFramed(a: RuleSlice)
    requires forall o :: o in old(SliceCells(a)) ==> old(allocated(o)) && unchanged(o)
    ensures SliceCells(a) == old(SliceCells(a)) && SliceOf(a) == old(SliceOf(a)) && SliceApart(a) == old(SliceApart(a))
  {
    if a != null {
      assert a in old(SliceCells(a));
      assert a[..] == old(a[..]);
      assert forall o :: o in old(CellsOf(a[..])) ==> o in old(SliceCells(a));
      MeaningFramed(old(a[..]));
    }
  }

  /** `VolumePlacementSpec.DeepCopyInto` of v1beta1; the spec holds the slice and nothing else.
      Copied into itself, it is left with as many zero rules. */
  method CopyRulesInto(inp: Ptr<RuleSlice>, out: Ptr<RuleSlice>)
    modifies out
    ensures SliceOf(out.v) == if inp == out then EmptiedSlice(old(SliceOf(inp.v))) else old(SliceOf(inp.v))
    ensures fresh(SliceCells(out.v)) && SliceApart(out.v)
  {
    var copy := CopySlice(inp.v, inp == out);
    if copy != null {
      CellsOfAreAllocated(copy[..]);
    }
    label copied:
    out.v := copy;
    SliceFramed@copied(copy);
  }
}
