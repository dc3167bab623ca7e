/** Reading a release number off an image tag, and deciding from it whether applications must be
    drained and scaled down before an upgrade. */
module Versions {
  import opened Options
  import opened Decimal

  /** A non-empty run of digits from `lo` up to `hi`. */
  predicate NumberIn(s: string, lo: nat, hi: nat) {
    lo < hi <= |s| && forall x :: lo <= x < hi ==> IsDigit(s[x])
  }

  /** Three numbers separated by dots, the dots being at `i` and `j`. */
  predicate DottedAt(p: string, i: nat, j: nat) {
    i < j < |p| && p[i] == '.' && p[j] == '.' && NumberIn(p, 0, i) && NumberIn(p, i + 1, j) && NumberIn(p, j + 1, |p|)
  }

  /** What the group of the pattern `^(\d+\.\d+\.\d+).*` can match. */
  ghost predicate IsVersion(p: string) { exists i: nat, j: nat :: DottedAt(p, i, j) }

  /** Where the digits that start at `from` end. */
  function RunEnd(s: string, from: nat): (end: nat)
    requires from <= |s|
    ensures from <= end <= |s|
    ensures forall x :: from <= x < end ==> IsDigit(s[x])
    ensures end < |s| ==> !IsDigit(s[end])
    decreases |s| - from
  {
    if from == |s| || !IsDigit(s[from]) then from else RunEnd(s, from + 1)
  }

  /** `parsePXVersion`: the greedy match, or an error. */
  function ParsePXVersion(s: string): Option<string> {
    var i := RunEnd(s, 0);
    if i == 0 || i == |s| || s[i] != '.' then None
    else
      var j := RunEnd(s, i + 1);
      if j == i + 1 || j == |s| || s[j] != '.' then None
      else
        var k := RunEnd(s, j + 1);
        if k == j + 1 then None else Some(s[..k])
  }

  lemma RunIsMaximal(s: string, from: nat, n: nat)
    requires from <= n <= |s| && forall x :: from <= x < n ==> IsDigit(s[x])
    ensures n <= RunEnd(s, from)
    ensures n < |s| && !IsDigit(s[n]) ==> RunEnd(s, from) == n
    decreases n - from
  {
    if from < n {
      RunIsMaximal(s, from + 1, n);
    }
  }

  /** Any dotted prefix has its dots where the greedy scan finds them. */
  lemma DotsAreForced(s: string, q: string, i: nat, j: nat)
    requires q <= s && DottedAt(q, i, j)
    ensures i == RunEnd(s, 0) && j == RunEnd(s, i + 1) && |q| <= RunEnd(s, j + 1)
    ensures ParsePXVersion(s) == Some(s[..RunEnd(s, j + 1)])
  {
    assert forall x :: 0 <= x < |q| ==> s[x] == q[x];
    RunIsMaximal(s, 0, i);
    RunIsMaximal(s, i + 1, j);
    RunIsMaximal(s, j + 1, |q|);
  }

  lemma ParseIsAVersion(s: string)
    requires ParsePXVersion(s).Some?
    ensures ParsePXVersion(s).value <= s && IsVersion(ParsePXVersion(s).value)
  {
    var i := RunEnd(s, 0);
    var j := RunEnd(s, i + 1);
    assert DottedAt(ParsePXVersion(s).value, i, j);
  }

  /** The parser accepts exactly the tags that begin with a version, and returns the longest. */
  lemma ParseFindsTheLongest(s: string)
    ensures ParsePXVersion(s) == None <==> forall q :: q <= s ==> !IsVersion(q)
    ensures ParsePXVersion(s).Some? ==>
              var p := ParsePXVersion(s).value;
              p <= s && IsVersion(p) && forall q :: q <= s && IsVersion(q) ==> |q| <= |p|
  {
    forall q | q <= s && IsVersion(q)
      ensures ParsePXVersion(s).Some? && |q| <= |ParsePXVersion(s).value|
    {
      var i: nat, j: nat :| DottedAt(q, i, j);
      DotsAreForced(s, q, i, j);
    }
    if ParsePXVersion(s).Some? {
      ParseIsAVersion(s);
    }
  }

  /** A tag made of a version and a suffix parses to that version exactly when the suffix does not
      extend its last number; with an empty suffix, the parser is a fixed point on its output. */
  lemma SuffixDoesNotMatter(p: string, t: string)
    requires IsVersion(p)
    ensures ParsePXVersion(p + t) == Some(p) <==> (t == [] || !IsDigit(t[0]))
  {
    var s := p + t;
    var i: nat, j: nat :| DottedAt(p, i, j);
    DotsAreForced(s, p, i, j);
    assert p == s[..|p|];
    RunIsMaximal(s, j + 1, |p|);
    if t != [] {
      assert s[|p|] == t[0];
      if IsDigit(t[0]) {
        RunIsMaximal(s, j + 1, |p| + 1);
      }
    }
  }

  // ---------------------------------------------------------------- nodes

  /** `isAnyNodeRunningVersionWithPrefix` over the version labels of the nodes. The loop looks at
      the first node on every turn. */
  method IsAnyNodeRunningVersionWithPrefix(nodes: Option<seq<string>>, prefix: string) returns (r: Option<bool>)
    ensures r == FirstNodeHasPrefix(nodes, prefix)
  {
    if nodes.None? { return None; }
    for n := 0 to |nodes.value|
      invariant n > 0 ==> nodes.value[0] != [] && !(prefix <= nodes.value[0])
    {
      var version := nodes.value[0];
      if |version| == 0 { return None; }
      if prefix <= version { return Some(true); }
    }
    return Some(false);
  }

  function FirstNodeHasPrefix(nodes: Option<seq<string>>, prefix: string): Option<bool> {
    if nodes.None? then None
    else if nodes.value == [] then Some(false)
    else if nodes.value[0] == [] then None
    else Some(prefix <= nodes.value[0])
  }

  ghost predicate AnyNodeHasPrefix(nodes: seq<string>, prefix: string) { exists v :: v in nodes && prefix <= v }

  /** The answer is the one its name promises exactly when the first node is representative. */
  lemma FirstNodeSpeaksForAll(nodes: seq<string>, prefix: string)
    requires nodes != [] && nodes[0] != []
    ensures FirstNodeHasPrefix(Some(nodes), prefix) == Some(AnyNodeHasPrefix(nodes, prefix)) <==>
            (forall v :: v in nodes && prefix <= v ==> prefix <= nodes[0])
    ensures (forall v :: v in nodes ==> v == nodes[0]) ==>
              FirstNodeHasPrefix(Some(nodes), prefix) == Some(AnyNodeHasPrefix(nodes, prefix))
  {
    assert nodes[0] in nodes;
  }

  /** A cluster half way through an upgrade, whose first node is already new, is not detected. */
  lemma MixedClusterIsMissed()
    ensures FirstNodeHasPrefix(Some(["1.3.0", "1.2.11"]), "1.2") == Some(false)
    ensures AnyNodeHasPrefix(["1.3.0", "1.2.11"], "1.2")
  {
    assert "1.3.0"[2] != "1.2"[2];
    assert "1.2.11" in ["1.3.0", "1.2.11"];
    assert "1.2" <= "1.2.11";
  }

  // ---------------------------------------------------------------- decisions

  /** `isUpgradeAppDrainRequired`, with the answer of the cluster manager as an argument. */
  function DrainRequired(nodes: Option<seq<string>>, tag: string): Option<bool> {
    var dublin := FirstNodeHasPrefix(nodes, "1.2");
    if dublin.None? then None
    else match ParsePXVersion(tag)
      case None => None
      case Some(v) =>
        if "1.3.3" <= v || "1.3.4" <= v then Some(true)
        else Some(dublin.value && ("1.3" <= v || "1.4" <= v))
  }

  /** Build suffixes of the tag never change the decision. */
  lemma DrainIgnoresTheSuffix(nodes: Option<seq<string>>, p: string, t: string)
    requires IsVersion(p) && (t == [] || !IsDigit(t[0]))
    ensures DrainRequired(nodes, p + t) == DrainRequired(nodes, p)
  {
    SuffixDoesNotMatter(p, t);
    SuffixDoesNotMatter(p, []);
    assert p + [] == p;
  }

  /** The table of answers: the two releases that need a reboot always drain, the two release lines only
      from a cluster whose first node is of line 1.2; without a version on either side there is none. */
  lemma DrainTable(nodes: Option<seq<string>>, tag: string)
    ensures DrainRequired(nodes, tag) == None <==>
      nodes.None? || (nodes.value != [] && nodes.value[0] == "") || forall q :: q <= tag ==> !IsVersion(q)
    ensures forall v :: ParsePXVersion(tag) == Some(v) && DrainRequired(nodes, tag).Some? ==>
      (DrainRequired(nodes, tag).value <==>
       || "1.3.3" <= v || "1.3.4" <= v
       || (nodes.value != [] && "1.2" <= nodes.value[0] && ("1.3" <= v || "1.4" <= v)))
  {
    ParseFindsTheLongest(tag);
  }

  /** The mode of the scale-down is text; the known ones are `auto`, `on` and `off`. */
  datatype UpgradeOptions = UpgradeOptions(scaleDown: string, timeoutPerNode: int)

  /** `isScaleDownOfSharedAppsRequired`. */
  predicate ScaleDownRequired(drain: bool, opts: Option<UpgradeOptions>) {
    if opts.None? || |opts.value.scaleDown| == 0 || opts.value.scaleDown == "auto" then drain
    else opts.value.scaleDown == "on"
  }

  /** What the options ask for: `on` always, nothing and `auto` when a drain is needed, all else never. */
  ghost predicate Decision(drain: bool, opts: Option<UpgradeOptions>, scaleDown: bool) {
    && (opts.None? ==> scaleDown == drain)
    && (opts.Some? && opts.value.scaleDown in {"", "auto"} ==> scaleDown == drain)
    && (opts.Some? && opts.value.scaleDown == "on" ==> scaleDown)
    && (opts.Some? && opts.value.scaleDown == "off" ==> !scaleDown)
    && (opts.Some? && opts.value.scaleDown !in {"", "auto", "on"} ==> !scaleDown)
  }

  lemma DecisionIsMade(drain: bool, opts: Option<UpgradeOptions>)
    ensures Decision(drain, opts, ScaleDownRequired(drain, opts))
  {
  }
}
