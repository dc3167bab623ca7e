/** The generated deep-copy functions of the placement rules. A Go struct is a datatype value, a
    pointer to a struct is a `Ptr`, and a slice is an array reference that may be nil. Every struct
    that holds match expressions has the same shape: some plain fields and one slice. */
module DeepCopy {
  import opened Options

  class Ptr<T> {
    var v: T

    constructor (v: T)
      ensures this.v == v
    {
      this.v := v;
    }
  }

  /** `LabelSelectorRequirement`. */
  datatype Requirement = Requirement(key: string, operator: string, values: array?<string>)

  type Expressions = array?<Ptr?<Requirement>>

  /** A struct with match expressions; `S` holds its plain fields. */
  datatype Rule<S> = Rule(fields: S, exprs: Expressions)

  // ---------------------------------------------------------------- what a graph means

  datatype RequirementValue = RequirementValue(key: string, operator: string, values: Option<seq<string>>)

  type ExpressionsValue = Option<seq<Option<RequirementValue>>>

  ghost function RequirementCells(p: Ptr?<Requirement>): set<object>
    reads *
  {
    if p == null then {} else {p} + if p.v.values == null then {} else {p.v.values}
  }

  ghost function RequirementOf(p: Ptr?<Requirement>): Option<RequirementValue>
    reads *
  {
    if p == null then None
    else Some(RequirementValue(p.v.key, p.v.operator, if p.v.values == null then None else Some(p.v.values[..])))
  }

  /** Everything reachable from a run of slots. */
  ghost function SlotCells(s: seq<Ptr?<Requirement>>): set<object>
    reads *
  {
    if s == [] then {} else SlotCells(s[..|s| - 1]) + RequirementCells(s[|s| - 1])
  }

  ghost function SlotsOf(s: seq<Ptr?<Requirement>>): seq<Option<RequirementValue>>
    reads *
  {
    if s == [] then [] else SlotsOf(s[..|s| - 1]) + [RequirementOf(s[|s| - 1])]
  }

  /** No two slots share anything. */
  ghost predicate SlotsApart(s: seq<Ptr?<Requirement>>)
    reads *
  {
    s == [] || (SlotsApart(s[..|s| - 1]) && SlotCells(s[..|s| - 1]) !! RequirementCells(s[|s| - 1]))
  }

  ghost function ExpressionCells(a: Expressions): set<object>
    reads *
  {
    if a == null then {} else {a} + SlotCells(a[..])
  }

  ghost function ExpressionsOf(a: Expressions): ExpressionsValue
    reads *
  {
    if a == null then None else Some(SlotsOf(a[..]))
  }

  /** No two slots of a slice share anything, and none of them leads back to the slice. */
  ghost predicate Apart(a: Expressions)
    reads *
  {
    a == null || (SlotsApart(a[..]) && a !in SlotCells(a[..]))
  }

  // ---------------------------------------------------------------- copying

  /** `LabelSelectorRequirement.DeepCopyInto`. The new slice is in place before the old one is read: an
      object copied into itself is left with as many empty values. */
  method CopyRequirementInto(inp: Ptr<Requirement>, out: Ptr<Requirement>)
    modifies out
    ensures inp != out ==> RequirementOf(out) == old(RequirementOf(inp))
    ensures inp == out ==> RequirementOf(out) == Some(EmptiedRequirement(old(RequirementOf(inp)).value))
    ensures out.v.values == null || fresh(out.v.values)
  {
    out.v := inp.v;
    if inp.v.values != null {
      ghost var before := inp.v.values[..];
      var values := new string[inp.v.values.Length](_ => "");
      out.v := out.v.(values := values);
      var from := inp.v.values;
      forall i | 0 <= i < values.Length {
        values[i] := from[i];
      }
      assert values[..] == if inp == out then seq(|before|, _ => "") else before;
    }
  }

  ghost function EmptiedRequirement(r: RequirementValue): RequirementValue {
    if r.values.None? then r else r.(values := Some(seq(|r.values.value|, _ => "")))
  }

  /** `LabelSelectorRequirement.DeepCopy`. */
  method CopyRequirement(inp: Ptr<Requirement>) returns (out: Ptr<Requirement>)
    ensures RequirementOf(out) == RequirementOf(inp)
    ensures fresh(RequirementCells(out))
  {
    out := new Ptr(inp.v);
    CopyRequirementInto(inp, out);
  }

  lemma CellsAreAllocated(s: seq<Ptr?<Requirement>>)
    ensures forall o :: o in SlotCells(s) ==> allocated(o)
  {
    if s != [] {
      CellsAreAllocated(s[..|s| - 1]);
    }
  }

  /** What slots mean depends on nothing but their own cells. */
  twostate lemma SlotsFramed(s: seq<Ptr?<Requirement>>)
    requires forall o :: o in old(SlotCells(s)) ==> old(allocated(o)) && unchanged(o)
    ensures SlotsOf(s) == old(SlotsOf(s)) && SlotCells(s) == old(SlotCells(s)) && SlotsApart(s) == old(SlotsApart(s))
  {
    if s != [] {
      var p := s[|s| - 1];
      assert old(SlotCells(s[..|s| - 1])) <= old(SlotCells(s)) && old(RequirementCells(p)) <= old(SlotCells(s));
      assert forall o :: o in old(SlotCells(s[..|s| - 1])) ==> o in old(SlotCells(s));
      assert forall o :: o in old(RequirementCells(p)) ==> o in old(SlotCells(s));
      SlotsFramed(s[..|s| - 1]);
      RequirementFramed(p);
    }
  }

  twostate lemma RequirementFramed(p: Ptr?<Requirement>)
    requires forall o :: o in old(RequirementCells(p)) ==> old(allocated(o)) && unchanged(o)
    ensures RequirementOf(p) == old(RequirementOf(p)) && RequirementCells(p) == old(RequirementCells(p))
  {
    if p != null {
      assert p in old(RequirementCells(p));
      assert p.v.values != null ==> p.v.values in old(RequirementCells(p)) && p.v.values[..] == old(p.v.values[..]);
    }
  }

  lemma SlotsLength(s: seq<Ptr?<Requirement>>)
    ensures |SlotsOf(s)| == |s|
  {
  }

  lemma SlotsAt(s: seq<Ptr?<Requirement>>, i: nat)
    requires i < |s|
    ensures |SlotsOf(s)| == |s| && SlotsOf(s)[i] == RequirementOf(s[i])
  {
    SlotsLength(s);
    SlotsLength(s[..|s| - 1]);
    if i < |s| - 1 {
      SlotsAt(s[..|s| - 1], i);
    }
  }

  /** Slot `k` of a slice under construction gets a fresh copy, or stays nil. */
  method FillSlot(a: array<Ptr?<Requirement>>, k: nat, from: Ptr?<Requirement>) returns (ghost added: set<object>)
    requires k < a.Length && a[k] == null && a !in SlotCells(a[..k]) && SlotsApart(a[..k])
    modifies a
    ensures forall i :: k < i < a.Length ==> a[i] == old(a[i])
    ensures SlotsOf(a[..k + 1]) == old(SlotsOf(a[..k])) + [old(RequirementOf(from))]
    ensures fresh(added) && SlotCells(a[..k + 1]) == old(SlotCells(a[..k])) + added
    ensures a !in SlotCells(a[..k + 1]) && SlotsApart(a[..k + 1])
  {
    ghost var s := a[..k];
    ghost var cells := SlotCells(s);
    CellsAreAllocated(s);
    added := {};
    if from != null {
      var p := CopyRequirement(from);
      added := RequirementCells(p);
      label copied:
      a[k] := p;
      RequirementFramed@copied(p);
    }
    SlotsFramed(s);
    assert a[..k + 1][..k] == s && a[..k + 1][k] == a[k];
  }

  lemma TakeNext<T>(s: seq<T>, n: nat)
    requires n < |s|
    ensures s[..n + 1] == s[..n] + [s[n]]
  {
  }

  /** As many nil slots. */
  ghost function Nils<T>(n: nat): seq<Option<T>> { seq(n, _ => None) }

  /** With `same`, the new slice takes the place of the one that is read. */
  method CopySlots(inp: array<Ptr?<Requirement>>, same: bool) returns (out: array<Ptr?<Requirement>>)
    ensures fresh(out) && out.Length == inp.Length
    ensures SlotsOf(out[..inp.Length]) == if same then Nils(inp.Length) else old(SlotsOf(inp[..]))
    ensures fresh(SlotCells(out[..inp.Length])) && out !in SlotCells(out[..inp.Length]) && SlotsApart(out[..inp.Length])
  {
    ghost var slots, want := inp[..], if same then Nils(inp.Length) else SlotsOf(inp[..]);
    SlotsLength(slots);
    CellsAreAllocated(slots);
    out := new Ptr?<Requirement>[inp.Length](_ => null);
    var from := if same then out else inp;
    ghost var cells := {};
    for n := 0 to inp.Length
      invariant fresh(out) && out.Length == inp.Length == |want|
      invariant forall i :: n <= i < out.Length ==> out[i] == null
      invariant SlotsOf(out[..n]) == want[..n]
      invariant fresh(cells) && SlotCells(out[..n]) == cells && out !in cells && SlotsApart(out[..n])
    {
      SlotsFramed(slots);
      SlotsAt(slots, n);
      ghost var added := FillSlot(out, n, from[n]);
      cells := cells + added;
      TakeNext(want, n);
    }
  }

  ghost function Emptied<T>(v: Option<seq<Option<T>>>): Option<seq<Option<T>>> {
    if v.None? then None else Some(Nils(|v.value|))
  }

  /** The loop over match expressions that every struct with expressions repeats. */
  method CopyExpressions(inp: Expressions, same: bool) returns (out: Expressions)
    ensures ExpressionsOf(out) == if same then Emptied(old(ExpressionsOf(inp))) else old(ExpressionsOf(inp))
    ensures fresh(ExpressionCells(out)) && Apart(out)
  {
    out := null;
    if inp != null {
      SlotsLength(inp[..]);
      var copy := CopySlots(inp, same);
      assert copy[..inp.Length] == copy[..];
      out := copy;
    }
  }

  // ---------------------------------------------------------------- structs with expressions

  datatype RuleValue<S> = RuleValue(fields: S, exprs: ExpressionsValue)

  ghost function RuleCells<S>(p: Ptr?<Rule<S>>): set<object>
    reads *
  {
    if p == null then {} else {p} + ExpressionCells(p.v.exprs)
  }

  ghost function RuleOf<S>(p: Ptr?<Rule<S>>): Option<RuleValue<S>>
    reads *
  {
    if p == null then None else Some(RuleValue(p.v.fields, ExpressionsOf(p.v.exprs)))
  }

  ghost predicate RuleApart<S>(p: Ptr?<Rule<S>>)
    reads *
  {
    p == null || (Apart(p.v.exprs) && p !in ExpressionCells(p.v.exprs))
  }

  /** The meaning of a slice of expressions depends on its cells alone. */
  twostate lemma ExpressionsFramed(a: Expressions)
    requires forall o :: o in old(ExpressionCells(a)) ==> old(allocated(o)) && unchanged(o)
    ensures ExpressionCells(a) == old(ExpressionCells(a)) && ExpressionsOf(a) == old(ExpressionsOf(a)) && Apart(a) == old(Apart(a))
  {
    if a != null {
      assert a in old(ExpressionCells(a));
      assert a[..] == old(a[..]);
      assert forall o :: o in old(SlotCells(a[..])) ==> o in old(ExpressionCells(a));
      SlotsFramed(old(a[..]));
    }
  }

  twostate lemma RuleFramed<S>(p: Ptr?<Rule<S>>)
    requires forall o :: o in old(RuleCells(p)) ==> old(allocated(o)) && unchanged(o)
    ensures RuleCells(p) == old(RuleCells(p)) && RuleOf(p) == old(RuleOf(p)) && RuleApart(p) == old(RuleApart(p))
  {
    if p != null {
      assert p in old(RuleCells(p));
      ExpressionsFramed(old(p.v.exprs));
    }
  }

  /** Everything reachable from a run of slots that point to structs. */
  ghost function RuleSlotCells<S>(s: seq<Ptr?<Rule<S>>>): set<object>
    reads *
  {
    if s == [] then {} else RuleSlotCells(s[..|s| - 1]) + RuleCells(s[|s| - 1])
  }

  ghost function RuleSlotsOf<S>(s: seq<Ptr?<Rule<S>>>): seq<Option<RuleValue<S>>>
    reads *
  {
    if s == [] then [] else RuleSlotsOf(s[..|s| - 1]) + [RuleOf(s[|s| - 1])]
  }

  ghost predicate RuleSlotsApart<S>(s: seq<Ptr?<Rule<S>>>)
    reads *
  {
    s == [] || (RuleSlotsApart(s[..|s| - 1]) && RuleApart(s[|s| - 1]) && RuleSlotCells(s[..|s| - 1]) !! RuleCells(s[|s| - 1]))
  }

  lemma ExpressionCellsAreAllocated(a: Expressions)
    ensures forall o :: o in ExpressionCells(a) ==> allocated(o)
  {
    if a != null {
      CellsAreAllocated(a[..]);
    }
  }

  lemma RuleCellsAreAllocated<S>(p: Ptr?<Rule<S>>)
    ensures forall o :: o in RuleCells(p) ==> allocated(o)
  {
    if p != null {
      ExpressionCellsAreAllocated(p.v.exprs);
    }
  }

  lemma RuleSlotCellsAreAllocated<S>(s: seq<Ptr?<Rule<S>>>)
    ensures forall o :: o in RuleSlotCells(s) ==> allocated(o)
  {
    if s != [] {
      RuleSlotCellsAreAllocated(s[..|s| - 1]);
      RuleCellsAreAllocated(s[|s| - 1]);
    }
  }

  twostate lemma RuleSlotsFramed<S>(s: seq<Ptr?<Rule<S>>>)
    requires forall o :: o in old(RuleSlotCells(s)) ==> old(allocated(o)) && unchanged(o)
    ensures RuleSlotsOf(s) == old(RuleSlotsOf(s)) && RuleSlotCells(s) == old(RuleSlotCells(s))
    ensures RuleSlotsApart(s) == old(RuleSlotsApart(s))
  {
    if s != [] {
      assert old(RuleSlotCells(s[..|s| - 1])) <= old(RuleSlotCells(s)) && old(RuleCells(s[|s| - 1])) <= old(RuleSlotCells(s));
      assert forall o :: o in old(RuleSlotCells(s[..|s| - 1])) ==> o in old(RuleSlotCells(s));
      assert forall o :: o in old(RuleCells(s[|s| - 1])) ==> o in old(RuleSlotCells(s));
      RuleSlotsFramed(s[..|s| - 1]);
      RuleFramed(s[|s| - 1]);
    }
  }

  /** `DeepCopyInto` of a struct with expressions. Copied into itself, it loses all of them. */
  method CopyRuleInto<S>(inp: Ptr<Rule<S>>, out: Ptr<Rule<S>>)
    modifies out
    ensures inp != out ==> RuleOf(out) == old(RuleOf(inp))
    ensures inp == out ==> RuleOf(out) == Some(RuleValue(old(inp.v.fields), Emptied(old(ExpressionsOf(inp.v.exprs)))))
    ensures fresh(ExpressionCells(out.v.exprs)) && RuleApart(out)
  {
    var exprs := CopyExpressions(inp.v.exprs, inp == out);
    ExpressionCellsAreAllocated(exprs);
    label copied:
    out.v := inp.v.(exprs := exprs);
    ExpressionsFramed@copied(exprs);
  }

  method CopyRule<S>(inp: Ptr<Rule<S>>) returns (out: Ptr<Rule<S>>)
    ensures RuleOf(out) == old(RuleOf(inp))
    ensures fresh(RuleCells(out)) && RuleApart(out)
  {
    out := new Ptr(inp.v);
    CopyRuleInto(inp, out);
  }

  lemma RuleSlotsLength<S>(s: seq<Ptr?<Rule<S>>>)
    ensures |RuleSlotsOf(s)| == |s|
  {
  }

  lemma RuleSlotsAt<S>(s: seq<Ptr?<Rule<S>>>, i: nat)
    requires i < |s|
    ensures |RuleSlotsOf(s)| == |s| && RuleSlotsOf(s)[i] == RuleOf(s[i])
  {
    RuleSlotsLength(s);
    RuleSlotsLength(s[..|s| - 1]);
    if i < |s| - 1 {
      RuleSlotsAt(s[..|s| - 1], i);
    }
  }

  /** Slot `k` of a slice of struct pointers gets a fresh copy, or stays nil. */
  method FillRule<S>(a: array<Ptr?<Rule<S>>>, k: nat, from: Ptr?<Rule<S>>) returns (ghost added: set<object>)
    requires k < a.Length && a[k] == null && a !in RuleSlotCells(a[..k]) && RuleSlotsApart(a[..k])
    modifies a
    ensures forall i :: k < i < a.Length ==> a[i] == old(a[i])
    ensures RuleSlotsOf(a[..k + 1]) == old(RuleSlotsOf(a[..k])) + [old(RuleOf(from))]
    ensures fresh(added) && RuleSlotCells(a[..k + 1]) == old(RuleSlotCells(a[..k])) + added
    ensures a !in RuleSlotCells(a[..k + 1]) && RuleSlotsApart(a[..k + 1])
  {
    ghost var s := a[..k];
    ghost var cells := RuleSlotCells(s);
    RuleSlotCellsAreAllocated(s);
    added := {};
    if from != null {
      var p := CopyRule(from);
      added := RuleCells(p);
      RuleCellsAreAllocated(p);
      label copied:
      a[k] := p;
      RuleFramed@copied(p);
    }
    RuleSlotsFramed(s);
    assert a[..k + 1][..k] == s && a[..k + 1][k] == a[k];
  }

  method CopyRuleSlots<S>(inp: array<Ptr?<Rule<S>>>, same: bool) returns (out: array<Ptr?<Rule<S>>>)
    ensures fresh(out) && out.Length == inp.Length
    ensures RuleSlotsOf(out[..inp.Length]) == if same then Nils(inp.Length) else old(RuleSlotsOf(inp[..]))
    ensures fresh(RuleSlotCells(out[..inp.Length])) && out !in RuleSlotCells(out[..inp.Length])
    ensures RuleSlotsApart(out[..inp.Length])
  {
    ghost var slots, want := inp[..], if same then Nils(inp.Length) else RuleSlotsOf(inp[..]);
    RuleSlotsLength(slots);
    RuleSlotCellsAreAllocated(slots);
    out := new Ptr?<Rule<S>>[inp.Length](_ => null);
    var from := if same then out else inp;
    ghost var cells := {};
    for n := 0 to inp.Length
      invariant fresh(out) && out.Length == inp.Length == |want|
      invariant forall i :: n <= i < out.Length ==> out[i] == null
      invariant RuleSlotsOf(out[..n]) == want[..n]
      invariant fresh(cells) && RuleSlotCells(out[..n]) == cells && out !in cells && RuleSlotsApart(out[..n])
    {
      RuleSlotsFramed(slots);
      RuleSlotsAt(slots, n);
      ghost var added := FillRule(out, n, from[n]);
      cells := cells + added;
      TakeNext(want, n);
    }
  }

  // ---------------------------------------------------------------- slices of pointers to structs

  type Rules<S> = array?<Ptr?<Rule<S>>>

  ghost function RulesCells<S>(a: Rules<S>): set<object>
    reads *
  {
    if a == null then {} else {a} + RuleSlotCells(a[..])
  }

  ghost function RulesOf<S>(a: Rules<S>): Option<seq<Option<RuleValue<S>>>>
    reads *
  {
    if a == null then None else Some(RuleSlotsOf(a[..]))
  }

  ghost predicate RulesApart<S>(a: Rules<S>)
    reads *
  {
    a == null || (RuleSlotsApart(a[..]) && a !in RuleSlotCells(a[..]))
  }

  lemma RulesCellsAreAllocated<S>(a: Rules<S>)
    ensures forall o :: o in RulesCells(a) ==> allocated(o)
  {
    if a != null {
      RuleSlotCellsAreAllocated(a[..]);
    }
  }

  twostate lemma RulesFramed<S>(a: Rules<S>)
    requires forall o :: o in old(RulesCells(a)) ==> old(allocated(o)) && unchanged(o)
    ensures RulesCells(a) == old(RulesCells(a)) && RulesOf(a) == old(RulesOf(a)) && RulesApart(a) == old(RulesApart(a))
  {
    if a != null {
      assert a in old(RulesCells(a));
      assert a[..] == old(a[..]);
      assert forall o :: o in old(RuleSlotCells(a[..])) ==> o in old(RulesCells(a));
      RuleSlotsFramed(old(a[..]));
    }
  }

  method CopyRules<S>(inp: Rules<S>, same: bool) returns (out: Rules<S>)
    ensures RulesOf(out) == if same then Emptied(old(RulesOf(inp))) else old(RulesOf(inp))
    ensures fresh(RulesCells(out)) && RulesApart(out)
  {
    out := null;
    if inp != null {
      RuleSlotsLength(inp[..]);
      var copy := CopyRuleSlots(inp, same);
      assert copy[..inp.Length] == copy[..];
      out := copy;
    }
  }

  // ---------------------------------------------------------------- v1beta2 placement specs

  datatype CommonFields = CommonFields(weight: nat, enforcement: string, topologyKey: string)

  /** The embedded common part, and the field of its own. */
  datatype ReplicaFields = ReplicaFields(common: CommonFields, affectedReplicas: nat)

  /** A list of affinity rules and one of anti-affinity rules. */
  datatype Affinity<S> = Affinity(rules: Rules<S>, antiRules: Rules<S>)

  datatype PlacementSpec = PlacementSpec(replica: Affinity<ReplicaFields>, volume: Affinity<CommonFields>)

  datatype AffinityValue<S> = AffinityValue(rules: Option<seq<Option<RuleValue<S>>>>, antiRules: Option<seq<Option<RuleValue<S>>>>)

  datatype SpecValue = SpecValue(replica: AffinityValue<ReplicaFields>, volume: AffinityValue<CommonFields>)

  ghost function AffinityOf<S>(x: Affinity<S>): AffinityValue<S>
    reads *
  {
    AffinityValue(RulesOf(x.rules), RulesOf(x.antiRules))
  }

  ghost function AffinityCells<S>(x: Affinity<S>): set<object>
    reads *
  {
    RulesCells(x.rules) + RulesCells(x.antiRules)
  }

  ghost predicate AffinityApart<S>(x: Affinity<S>)
    reads *
  {
    RulesApart(x.rules) && RulesApart(x.antiRules) && RulesCells(x.rules) !! RulesCells(x.antiRules)
  }

  ghost function SpecOf(s: PlacementSpec): SpecValue
    reads *
  {
    SpecValue(AffinityOf(s.replica), AffinityOf(s.volume))
  }

  ghost function SpecCells(s: PlacementSpec): set<object>
    reads *
  {
    AffinityCells(s.replica) + AffinityCells(s.volume)
  }

  /** Nothing in the graph is shared by two slots, at any level. */
  ghost predicate SpecApart(s: PlacementSpec)
    reads *
  {
    AffinityApart(s.replica) && AffinityApart(s.volume) && AffinityCells(s.replica) !! AffinityCells(s.volume)
  }

  twostate lemma AffinityFramed<S>(x: Affinity<S>)
    requires forall o :: o in old(AffinityCells(x)) ==> old(allocated(o)) && unchanged(o)
    ensures AffinityOf(x) == old(AffinityOf(x)) && AffinityCells(x) == old(AffinityCells(x))
    ensures AffinityApart(x) == old(AffinityApart(x))
  {
    assert forall o :: o in old(RulesCells(x.rules)) ==> o in old(AffinityCells(x));
    assert forall o :: o in old(RulesCells(x.antiRules)) ==> o in old(AffinityCells(x));
    RulesFramed(x.rules);
    RulesFramed(x.antiRules);
  }

  /** The value of a spec depends on its own cells alone: writing anywhere else, such as through a
      copy whose cells are fresh, leaves it as it was. */
  twostate lemma SpecFramed(s: PlacementSpec)
    requires forall o :: o in old(SpecCells(s)) ==> old(allocated(o)) && unchanged(o)
    ensures SpecOf(s) == old(SpecOf(s)) && SpecCells(s) == old(SpecCells(s)) && SpecApart(s) == old(SpecApart(s))
  {
    assert forall o :: o in old(AffinityCells(s.replica)) ==> o in old(SpecCells(s));
    assert forall o :: o in old(AffinityCells(s.volume)) ==> o in old(SpecCells(s));
    AffinityFramed(s.replica);
    AffinityFramed(s.volume);
  }

  lemma AffinityCellsAreAllocated<S>(x: Affinity<S>)
    ensures forall o :: o in AffinityCells(x) ==> allocated(o)
  {
    RulesCellsAreAllocated(x.rules);
    RulesCellsAreAllocated(x.antiRules);
  }

  ghost function EmptiedAffinity<S>(v: AffinityValue<S>): AffinityValue<S> {
    AffinityValue(Emptied(v.rules), Emptied(v.antiRules))
  }

  ghost function EmptiedSpec(v: SpecValue): SpecValue { SpecValue(EmptiedAffinity(v.replica), EmptiedAffinity(v.volume)) }

  /** Two slices of the same kind, one after the other. */
  method CopyAffinity<S>(x: Affinity<S>, same: bool) returns (copy: Affinity<S>)
    ensures AffinityOf(copy) == if same then EmptiedAffinity(old(AffinityOf(x))) else old(AffinityOf(x))
    ensures fresh(AffinityCells(copy)) && AffinityApart(copy)
  {
    RulesCellsAreAllocated(x.antiRules);
    var a := CopyRules(x.rules, same);
    RulesFramed(x.antiRules);
    RulesCellsAreAllocated(a);
    label first:
    var b := CopyRules(x.antiRules, same);
    RulesFramed@first(a);
    copy := Affinity(a, b);
  }

  /** Both pairs of slices. */
  method CopySpec(s: PlacementSpec, same: bool) returns (copy: PlacementSpec)
    ensures SpecOf(copy) == if same then EmptiedSpec(old(SpecOf(s))) else old(SpecOf(s))
    ensures fresh(SpecCells(copy)) && SpecApart(copy)
  {
    AffinityCellsAreAllocated(s.volume);
    ghost var want := if same then EmptiedSpec(SpecOf(s)) else SpecOf(s);
    var a := CopyAffinity(s.replica, same);
    AffinityFramed(s.volume);
    AffinityCellsAreAllocated(a);
    label replicas:
    var b := CopyAffinity(s.volume, same);
    AffinityFramed@replicas(a);
    assert AffinityCells(a) !! AffinityCells(b);
    assert AffinityOf(a) == want.replica && AffinityOf(b) == want.volume;
    copy := PlacementSpec(a, b);
  }

  /** `VolumePlacementSpec.DeepCopyInto` of v1beta2: an equal value on an entirely fresh graph in
      which no two slots share anything, whatever the original shared. A spec copied into itself keeps
      the lengths of its slices and nothing else. */
  method CopySpecInto(inp: Ptr<PlacementSpec>, out: Ptr<PlacementSpec>)
    modifies out
    ensures SpecOf(out.v) == if inp == out then EmptiedSpec(old(SpecOf(inp.v))) else old(SpecOf(inp.v))
    ensures fresh(SpecCells(out.v)) && SpecApart(out.v)
  {
    var copy := CopySpec(inp.v, inp == out);
    AffinityCellsAreAllocated(copy.replica);
    AffinityCellsAreAllocated(copy.volume);
    label copied:
    out.v := copy;
    SpecFramed@copied(copy);
  }

  /** `VolumePlacementSpec.DeepCopy` of v1beta2, nil receiver included. The copy and the original
      share no cell, and the original still means what it meant. */
  method DeepCopySpec(inp: Ptr?<PlacementSpec>) returns (out: Ptr?<PlacementSpec>)
    ensures inp == null <==> out == null
    ensures inp != null ==> fresh(out) && inp.v == old(inp.v)
    ensures inp != null ==> SpecOf(out.v) == SpecOf(inp.v) == old(SpecOf(inp.v)) && SpecApart(out.v)
    ensures inp != null ==> fresh(SpecCells(out.v)) && SpecCells(out.v) !! SpecCells(inp.v)
  {
    out := null;
    if inp != null {
      ghost var spec := inp.v;
      AffinityCellsAreAllocated(spec.replica);
      AffinityCellsAreAllocated(spec.volume);
      var copy := new Ptr(inp.v);
      SpecFramed(spec);
      label made:
      CopySpecInto(inp, copy);
      SpecFramed(spec);
      out := copy;
    }
  }
}
