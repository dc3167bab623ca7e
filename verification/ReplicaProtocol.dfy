/** The scale-down / restore protocol on shared applications, as atomic changes to the API
    server's objects: what each retried closure would write, what a history of landed writes
    leaves behind, and when the original replica count survives it. */
module ReplicaProtocol {
  import opened Options
  import opened Decimal

  const MEMORY_KEY := "px/replicas-before-scale-down"

  datatype Kind = Deployment | StatefulSet

  datatype Key = Key(kind: Kind, namespace: string, name: string)

  type Annotations = Option<map<string, string>>

  /** An application object; `other` stands for every field the protocol never reads or writes.
      The server fills in `replicas`, so it is never nil; annotations may be nil. */
  datatype App = App(replicas: int, annotations: Annotations, version: nat, other: string)

  function MemoryOf(annotations: Annotations): Option<string> {
    if annotations.Some? && MEMORY_KEY in annotations.value then Some(annotations.value[MEMORY_KEY]) else None
  }

  function Memory(a: App): Option<string> { MemoryOf(a.annotations) }

  /** What one attempt of a closure decides after reading the object. */
  datatype Plan = Done | Crash | GiveUp | Write(app: App)

  /** Scale-down closure. Only deployments are left alone when already at 0; writing into nil
      annotations crashes. */
  function PlanScaleDown(kind: Kind, a: App): Plan {
    if kind.Deployment? && a.replicas == 0 then Done
    else if a.annotations.None? then Crash
    else Write(a.(annotations := Some(a.annotations.value[MEMORY_KEY := Print(a.replicas)]), replicas := 0))
  }

  /** Restore closure, the same for both kinds. */
  function PlanRestore(a: App): Plan {
    match Memory(a)
    case None => Done
    case Some(text) =>
      if text == [] then Done
      else match Parse(text)
        case StrVal(_) => GiveUp
        case IntVal(n) => Write(a.(annotations := Some(a.annotations.value - {MEMORY_KEY}), replicas := n))
  }

  /** `Touch` is a write by anyone else that respects the replica count and the saved count. */
  datatype Op = Down | Restore | Touch(annotations: Annotations, other: string)

  function PlanOf(kind: Kind, op: Op, a: App): Plan {
    match op
    case Down => PlanScaleDown(kind, a)
    case Restore => PlanRestore(a)
    case Touch(annotations, other) =>
      if MemoryOf(annotations) == Memory(a) then Write(a.(annotations := annotations, other := other)) else Done
  }

  /** An empty annotation map is not serialised, so it comes back as nil. */
  function Serialised(annotations: Annotations): Annotations {
    if annotations == Some(map[]) then None else annotations
  }

  /** The server's copy once an update of `current` to `written` has landed. */
  function Stored(current: App, written: App): App {
    written.(annotations := Serialised(written.annotations), version := current.version + 1)
  }

  predicate Lands(kind: Kind, op: Op, a: App) { PlanOf(kind, op, a).Write? }

  function Apply(kind: Kind, op: Op, a: App): App {
    match PlanOf(kind, op, a)
    case Write(w) => Stored(a, w)
    case _ => a
  }

  /** The state of one object after a history of operations, oldest first. */
  function Replay(kind: Kind, a: App, ops: seq<Op>): App {
    if ops == [] then a else Apply(kind, ops[|ops| - 1], Replay(kind, a, ops[..|ops| - 1]))
  }

  /** Every operation of the history really wrote something when its turn came. */
  ghost predicate AllLand(kind: Kind, a: App, ops: seq<Op>) {
    ops == [] ||
    (AllLand(kind, a, ops[..|ops| - 1]) && Lands(kind, ops[|ops| - 1], Replay(kind, a, ops[..|ops| - 1])))
  }

  // ---------------------------------------------------------------- conservation

  ghost predicate Untouched(original: int, a: App) {
    IsInt32(original) && a.replicas == original && Memory(a) == None
  }

  ghost predicate ScaledDown(original: int, a: App) {
    IsInt32(original) && a.replicas == 0 && Memory(a) == Some(Print(original))
  }

  /** The original count is still known: in place, or at 0 with the count saved. */
  ghost predicate Conserved(original: int, a: App) {
    Untouched(original, a) || ScaledDown(original, a)
  }

  lemma SerialisedKeepsMemory(annotations: Annotations)
    ensures MemoryOf(Serialised(annotations)) == MemoryOf(annotations)
  {
  }

  /** A landed scale-down saves whatever count it read and leaves 0. */
  lemma DownEffect(kind: Kind, a: App)
    ensures Lands(kind, Down, a) <==> (a.annotations.Some? && !(kind.Deployment? && a.replicas == 0))
    ensures Lands(kind, Down, a) ==>
              Apply(kind, Down, a).replicas == 0 && Memory(Apply(kind, Down, a)) == Some(Print(a.replicas))
    ensures !Lands(kind, Down, a) ==> Apply(kind, Down, a) == a
  {
    if Lands(kind, Down, a) {
      SerialisedKeepsMemory(PlanScaleDown(kind, a).app.annotations);
    }
  }

  /** A landed restore of a printed count brings that count back and forgets it. */
  lemma RestoreEffect(kind: Kind, a: App, n: int)
    requires IsInt32(n) && Memory(a) == Some(Print(n))
    ensures Lands(kind, Restore, a)
    ensures Apply(kind, Restore, a).replicas == n && Memory(Apply(kind, Restore, a)) == None
  {
    SavedCountReadsBack(n);
    SerialisedKeepsMemory(PlanRestore(a).app.annotations);
  }

  // ---------------------------------------------------------------- what is left alone

  /** Every annotation but the saved count; nil and empty are the same. */
  ghost function Rest(annotations: Annotations): map<string, string> {
    (if annotations.Some? then annotations.value else map[]) - {"px/replicas-before-scale-down"}
  }

  /** The object is the same but for its count, its saved count and its version. */
  ghost predicate SameRest(a: App, b: App) { b.other == a.other && Rest(b.annotations) == Rest(a.annotations) }

  /** What talisman itself does to an object changes nothing that is not its own. */
  lemma OwnOpKeepsTheRest(kind: Kind, op: Op, a: App)
    requires !op.Touch?
    ensures SameRest(a, Apply(kind, op, a))
    ensures Apply(kind, op, a).version == a.version + if Lands(kind, op, a) then 1 else 0
    ensures !Lands(kind, op, a) ==> Apply(kind, op, a) == a
  {
    if PlanOf(kind, op, a).Write? {
      var w := PlanOf(kind, op, a).app;
      assert Rest(Serialised(w.annotations)) == Rest(w.annotations);
      assert a.annotations.value - {MEMORY_KEY} == w.annotations.value - {MEMORY_KEY};
    }
  }

  /** However often an object is scaled down and restored, the rest of it is as it was. */
  lemma {:induction false} HistoryKeepsTheRest(kind: Kind, a: App, ops: seq<Op>)
    requires forall op :: op in ops ==> !op.Touch?
    ensures SameRest(a, Replay(kind, a, ops))
  {
    if ops != [] {
      var before := ops[..|ops| - 1];
      HistoryKeepsTheRest(kind, a, before);
      OwnOpKeepsTheRest(kind, ops[|ops| - 1], Replay(kind, a, before));
    }
  }

  /** What a restore makes of any saved text, its own or not: nothing saved and an empty text are left
      alone, a text that is no number is given up on, and a number comes back in 32 bits. */
  lemma RestoreDecides(a: App)
    ensures PlanRestore(a).Done? <==> Memory(a) == None || Memory(a) == Some("")
    ensures PlanRestore(a).GiveUp? <==> Memory(a).Some? && Memory(a).value != "" && Atoi(Memory(a).value) == None
    ensures PlanRestore(a).Write? ==> Memory(a).Some? && Atoi(Memory(a).value).Some?
    ensures PlanRestore(a).Write? ==> PlanRestore(a).app.replicas == Wrap32(Atoi(Memory(a).value).value)
    ensures !PlanRestore(a).Crash?
  {
  }

  /** An object whose only annotation was the saved count is left without any map by a restore: the next
      scale-down of it writes into nil. */
  lemma RestoreCanTakeTheMap(kind: Kind, a: App, n: int)
    requires IsInt32(n) && n != 0 && a.annotations == Some(map[MEMORY_KEY := Print(n)])
    ensures Apply(kind, Restore, a).annotations == None
    ensures PlanScaleDown(kind, Apply(kind, Restore, a)).Crash?
  {
    RestoreEffect(kind, a, n);
    assert map[MEMORY_KEY := Print(n)] - {MEMORY_KEY} == map[];
  }

  lemma TouchEffect(kind: Kind, op: Op, a: App)
    requires op.Touch?
    ensures Apply(kind, op, a).replicas == a.replicas && Memory(Apply(kind, op, a)) == Memory(a)
  {
    SerialisedKeepsMemory(op.annotations);
  }

  /** From either conserved state a restore brings the original count back, and it never reaches
      the unparsable-count branch. */
  lemma RestoreBringsBack(kind: Kind, original: int, a: App)
    requires Conserved(original, a)
    ensures Untouched(original, Apply(kind, Restore, a))
    ensures !PlanRestore(a).GiveUp? && !PlanRestore(a).Crash?
    ensures PlanRestore(a).Write? <==> ScaledDown(original, a)
  {
    if ScaledDown(original, a) {
      RestoreEffect(kind, a, original);
    }
  }

  /** With the count conserved and nothing saved, the count is in place. */
  lemma SavedTextIsNotEmpty(original: int, a: App)
    requires Conserved(original, a) && (Memory(a) == None || Memory(a) == Some([]))
    ensures Untouched(original, a)
  {
    SavedCountReadsBack(original);
  }

  /** Any operation other than scaling down an object that is already at 0 keeps the count. */
  lemma StepConserves(kind: Kind, original: int, op: Op, a: App)
    requires Conserved(original, a)
    requires op.Down? ==> kind.Deployment? || Untouched(original, a)
    ensures Conserved(original, Apply(kind, op, a))
  {
    match op {
      case Down => DownEffect(kind, a);
      case Restore => RestoreBringsBack(kind, original, a);
      case Touch(_, _) => TouchEffect(kind, op, a);
    }
  }

  /** Deployments: no history of scale-downs, restores and foreign writes, in any order and any
      number, loses the original count. */
  lemma {:induction false} DeploymentConservation(original: int, a: App, ops: seq<Op>)
    requires Untouched(original, a)
    ensures Conserved(original, Replay(Deployment, a, ops))
  {
    if ops != [] {
      var before := ops[..|ops| - 1];
      DeploymentConservation(original, a, before);
      StepConserves(Deployment, original, ops[|ops| - 1], Replay(Deployment, a, before));
    }
  }

  // ---------------------------------------------------------------- statefulsets, exactly

  /** Landed scale-downs since the last landed restore. */
  function DownsSinceRestore(ops: seq<Op>): nat {
    if ops == [] then 0
    else match ops[|ops| - 1]
      case Down => DownsSinceRestore(ops[..|ops| - 1]) + 1
      case Restore => 0
      case Touch(_, _) => DownsSinceRestore(ops[..|ops| - 1])
  }

  /** Between any two restores at most one scale-down landed. */
  ghost predicate NeverScaledTwice(ops: seq<Op>) {
    forall n :: 0 <= n <= |ops| ==> DownsSinceRestore(ops[..n]) <= 1
  }

  /** The count has been overwritten: 0 now, and 0 is all that a restore could bring back. */
  ghost predicate Forgotten(a: App) {
    a.replicas == 0 && (Memory(a) == None || Memory(a) == Some(Print(0)))
  }

  lemma ForgottenIsForever(op: Op, a: App)
    requires Forgotten(a)
    ensures Forgotten(Apply(StatefulSet, op, a))
  {
    match op {
      case Down => DownEffect(StatefulSet, a);
      case Restore =>
        if Memory(a).Some? { RestoreEffect(StatefulSet, a, 0); }
      case Touch(_, _) => TouchEffect(StatefulSet, op, a);
    }
  }

  lemma ForgottenIsNotConserved(original: int, a: App)
    requires Forgotten(a) && IsInt32(original) && original != 0
    ensures !Conserved(original, a)
  {
    if Memory(a) == Some(Print(original)) {
      PrintIsInjective(original, 0);
    }
  }

  lemma NeverScaledTwicePrefix(ops: seq<Op>)
    requires ops != []
    ensures NeverScaledTwice(ops) <==> NeverScaledTwice(ops[..|ops| - 1]) && DownsSinceRestore(ops) <= 1
  {
    var before := ops[..|ops| - 1];
    forall n | 0 <= n <= |before| ensures before[..n] == ops[..n] {}
    assert ops[..|ops|] == ops;
    assert forall n :: 0 <= n <= |ops| ==> n == |ops| || before[..n] == ops[..n];
    assert forall n :: 0 <= n <= |before| ==> DownsSinceRestore(before[..n]) == DownsSinceRestore(ops[..n]);
  }

  /** Where a landed history leaves a set, as a function of the scale-downs since its last restore. */
  ghost predicate Tracks(original: int, ops: seq<Op>, a: App) {
    if !NeverScaledTwice(ops) then Forgotten(a)
    else if DownsSinceRestore(ops) == 0 then Untouched(original, a)
    else ScaledDown(original, a)
  }

  /** A second scale-down reads the 0 written by the first. */
  lemma TrackedStep(original: int, ops: seq<Op>, op: Op, a: App)
    requires IsInt32(original) && original != 0 && Tracks(original, ops, a) && Lands(StatefulSet, op, a)
    ensures Tracks(original, ops + [op], Apply(StatefulSet, op, a))
  {
    assert (ops + [op])[..|ops|] == ops;
    NeverScaledTwicePrefix(ops + [op]);
    if !NeverScaledTwice(ops) {
      ForgottenIsForever(op, a);
    } else {
      assert ops[..|ops|] == ops;
      assert DownsSinceRestore(ops) <= 1;
      match op {
        case Down => DownEffect(StatefulSet, a);
        case Restore => RestoreBringsBack(StatefulSet, original, a);
        case Touch(_, _) => TouchEffect(StatefulSet, op, a);
      }
    }
  }

  lemma {:induction false} HistoryTracks(original: int, a: App, ops: seq<Op>)
    requires Untouched(original, a) && original != 0
    requires AllLand(StatefulSet, a, ops)
    ensures Tracks(original, ops, Replay(StatefulSet, a, ops))
  {
    if ops == [] {
      assert NeverScaledTwice([]);
    } else {
      var before := ops[..|ops| - 1];
      HistoryTracks(original, a, before);
      TrackedStep(original, before, ops[|ops| - 1], Replay(StatefulSet, a, before));
      assert before + [ops[|ops| - 1]] == ops;
    }
  }

  /** Statefulsets: the original count survives a history exactly when no two scale-downs landed
      without a restore between them. */
  lemma {:induction false} StatefulSetConservation(original: int, a: App, ops: seq<Op>)
    requires Untouched(original, a) && original != 0
    requires AllLand(StatefulSet, a, ops)
    ensures Conserved(original, Replay(StatefulSet, a, ops)) <==> NeverScaledTwice(ops)
  {
    HistoryTracks(original, a, ops);
    if !NeverScaledTwice(ops) {
      ForgottenIsNotConserved(original, Replay(StatefulSet, a, ops));
    }
  }

  /** A set whose count is 0 to begin with cannot be harmed. */
  lemma {:induction false} IdleStatefulSetConservation(a: App, ops: seq<Op>)
    requires Untouched(0, a)
    ensures Conserved(0, Replay(StatefulSet, a, ops))
  {
    if ops == [] {
    } else {
      IdleStatefulSetConservation(a, ops[..|ops| - 1]);
      ForgottenIsForever(ops[|ops| - 1], Replay(StatefulSet, a, ops[..|ops| - 1]));
    }
  }

  /** When the original count of an object survives a history: always for a deployment, for a set
      unless it was scaled down twice running, and vacuously when the count was 0. */
  ghost predicate Harmless(kind: Kind, original: int, ops: seq<Op>) {
    kind.Deployment? || original == 0 || NeverScaledTwice(ops)
  }

  lemma {:induction false} ObjectConservation(kind: Kind, original: int, a: App, ops: seq<Op>)
    requires Untouched(original, a) && AllLand(kind, a, ops)
    ensures Conserved(original, Replay(kind, a, ops)) <==> Harmless(kind, original, ops)
  {
    if kind == Deployment {
      DeploymentConservation(original, a, ops);
    } else if original == 0 {
      IdleStatefulSetConservation(a, ops);
    } else {
      StatefulSetConservation(original, a, ops);
    }
  }

  /** The separating run: whatever the original count, two landed scale-downs and a restore end
      at 0, whereas the same three calls on a deployment end at the original count. */
  lemma TwoScaleDownsThenRestore(original: int, a: App)
    requires Untouched(original, a) && a.annotations.Some?
    ensures Replay(StatefulSet, a, [Down, Down, Restore]).replicas == 0
    ensures Untouched(original, Replay(Deployment, a, [Down, Down, Restore]))
  {
    UnfoldThree(Deployment, a);
    var d := Apply(Deployment, Down, a);
    StepConserves(Deployment, original, Down, a);
    StepConserves(Deployment, original, Down, d);
    RestoreBringsBack(Deployment, original, Apply(Deployment, Down, d));

    UnfoldThree(StatefulSet, a);
    var s := Apply(StatefulSet, Down, a);
    DownEffect(StatefulSet, a);
    DownEffect(StatefulSet, s);
    RestoreEffect(StatefulSet, Apply(StatefulSet, Down, s), 0);
  }

  lemma UnfoldThree(kind: Kind, a: App)
    ensures Replay(kind, a, [Down, Down, Restore]) == Apply(kind, Restore, Apply(kind, Down, Apply(kind, Down, a)))
  {
    assert [Down, Down, Restore][..2] == [Down, Down];
    assert [Down, Down][..1] == [Down];
    assert [Down][..0] == [];
    assert Replay(kind, a, []) == a;
    assert Replay(kind, a, [Down]) == Apply(kind, Down, a);
    assert Replay(kind, a, [Down, Down]) == Apply(kind, Down, Apply(kind, Down, a));
  }
}
