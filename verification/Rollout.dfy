/** Rolling a daemonset to a new image: what the update closure decides for one listed daemonset,
    and when its expected generation really proves that the controller picked up the new image. */
module Rollout {
  import opened Options
  import opened Containers

  const PX_IMAGE_ENV := "PX_IMAGE"
  const CHANGE_CAUSE := "kubernetes.io/change-cause"

  /** The generation of a daemonset is the number of templates it has had: `revisions[g - 1]` is
      the template of generation `g`. `observed` is the controller's status field. */
  datatype DaemonSet = DaemonSet(
    uid: nat, namespace: string, revisions: seq<Template>, observed: nat,
    annotations: Option<map<string, string>>, version: nat, other: string)

  ghost predicate Valid(d: DaemonSet) { d.revisions != [] && d.observed <= |d.revisions| }

  function Generation(d: DaemonSet): nat { |d.revisions| }

  function Current(d: DaemonSet): Template
    requires d.revisions != []
  {
    d.revisions[|d.revisions| - 1]
  }

  /** The value of the first variable with this name, or the empty string. */
  function EnvValue(env: seq<EnvVar>, key: string): string {
    if env == [] then "" else if env[0].name == key then env[0].value else EnvValue(env[1..], key)
  }

  /** `env[i]` is the first variable with this name. */
  ghost predicate FirstVar(env: seq<EnvVar>, i: nat, key: string) {
    i < |env| && env[i].name == key && forall k :: 0 <= k < i ==> env[k].name != key
  }

  /** `getEnv`. */
  method GetEnv(env: seq<EnvVar>, key: string) returns (value: string)
    ensures value == EnvValue(env, key)
    ensures forall i: nat :: FirstVar(env, i, key) ==> value == env[i].value
    ensures (forall i :: 0 <= i < |env| ==> env[i].name != key) ==> value == ""
  {
    for i := 0 to |env|
      invariant EnvValue(env, key) == EnvValue(env[i..], key)
      invariant forall k :: 0 <= k < i ==> env[k].name != key
    {
      if env[i].name == key {
        NoNameNoValue(env, key);
        return env[i].value;
      }
    }
    NoNameNoValue(env, key);
    return "";
  }

  lemma NoNameNoValue(env: seq<EnvVar>, key: string)
    ensures (forall i :: 0 <= i < |env| ==> env[i].name != key) ==> EnvValue(env, key) == ""
  {
  }

  lemma {:induction false} FirstVarDecides(env: seq<EnvVar>, i: nat, key: string)
    requires FirstVar(env, i, key)
    ensures EnvValue(env, key) == env[i].value
  {
    if i > 0 {
      assert env[1..][i - 1] == env[i];
      FirstVarDecides(env[1..], i - 1, key);
    }
  }

  predicate AtImage(t: Template, image: string) { HasPx(t) && PxContainer(t).image == image }

  predicate PinsImage(t: Template) { HasPx(t) && EnvValue(PxContainer(t).env, PX_IMAGE_ENV) != "" }

  /** The first container named `portworx` has a first variable `PX_IMAGE` that is not empty. */
  ghost predicate Pinned(t: Template) {
    exists c: nat, i: nat ::
      && c < |t| && t[c].name == "portworx" && (forall k :: 0 <= k < c ==> t[k].name != "portworx")
      && FirstVar(t[c].env, i, "PX_IMAGE") && t[c].env[i].value != ""
  }

  lemma PinsMeansPinned(t: Template)
    ensures PinsImage(t) <==> Pinned(t)
  {
    if HasPx(t) {
      var env := PxContainer(t).env;
      if forall i :: 0 <= i < |env| ==> env[i].name != PX_IMAGE_ENV {
        NoNameNoValue(env, PX_IMAGE_ENV);
      } else {
        var i := FirstOfName(env, PX_IMAGE_ENV);
        FirstVarDecides(env, i, PX_IMAGE_ENV);
      }
      if Pinned(t) {
        var c: nat, i: nat :|
          && c < |t| && t[c].name == "portworx" && (forall k :: 0 <= k < c ==> t[k].name != "portworx")
          && FirstVar(t[c].env, i, "PX_IMAGE") && t[c].env[i].value != "";
        assert c == FirstPx(t);
        FirstVarDecides(env, i, PX_IMAGE_ENV);
      }
    }
  }

  lemma {:induction false} FirstOfName(env: seq<EnvVar>, key: string) returns (i: nat)
    requires exists k :: 0 <= k < |env| && env[k].name == key
    ensures FirstVar(env, i, key)
  {
    if env[0].name == key {
      i := 0;
    } else {
      var k :| 0 <= k < |env| && env[k].name == key;
      assert env[1..][k - 1].name == key;
      i := FirstOfName(env[1..], key);
      i := i + 1;
    }
  }

  /** What the update closure does with one listed daemonset. */
  datatype Verdict =
    | Refuse                                     // PX_IMAGE is pinned: give up for good
    | Skip(expected: nat)                        // already at the image
    | Rewrite(expected: nat, copy: DaemonSet)    // send this copy
    | Resend(copy: DaemonSet)                    // no portworx container: the copy goes back unchanged
    | Crash                                      // nil annotations

  function Judge(d: DaemonSet, image: string): Verdict
    requires d.revisions != []
  {
    var t := Current(d);
    if !HasPx(t) then Resend(d)
    else if PinsImage(t) then Refuse
    else if AtImage(t, image) then Skip(d.observed)
    else if d.annotations.None? then Crash
    else Rewrite(d.observed + 1, Rewritten(d, image))
  }

  /** The loop over the containers, as the closure runs it: it looks at the first `portworx` container only. */
  method Inspect(d: DaemonSet, image: string) returns (v: Verdict)
    requires d.revisions != []
    ensures v == Judge(d, image)
    ensures v.Refuse? <==> Pinned(Current(d))
  {
    var t := Current(d);
    PinsMeansPinned(t);
    for i := 0 to |t|
      invariant forall k :: 0 <= k < i ==> t[k].name != PX_CONTAINER
    {
      if t[i].name == PX_CONTAINER {
        assert FirstPx(t) == i;
        var pin := GetEnv(t[i].env, PX_IMAGE_ENV);
        if |pin| > 0 {
          return Refuse;
        }
        if t[i].image == image {
          return Skip(d.observed);
        }
        if d.annotations.None? {
          return Crash;
        }
        var copy := d.(revisions := d.revisions + [t[i := t[i].(image := image)]],
                       annotations := Some(d.annotations.value["kubernetes.io/change-cause" := "update PX to " + image]));
        return Rewrite(d.observed + 1, copy);
      }
    }
    return Resend(d);
  }

  function WithImage(t: Template, image: string): Template
    requires HasPx(t)
  {
    t[FirstPx(t) := PxContainer(t).(image := image)]
  }

  function Rewritten(d: DaemonSet, image: string): DaemonSet
    requires d.revisions != [] && HasPx(Current(d)) && d.annotations.Some?
  {
    d.(revisions := d.revisions + [WithImage(Current(d), image)],
       annotations := Some(d.annotations.value[CHANGE_CAUSE := "update PX to " + image]))
  }

  /** The server's object after an accepted update: an unchanged copy changes nothing. */
  function Stored(d: DaemonSet, copy: DaemonSet): DaemonSet {
    if copy == d then d else copy.(version := d.version + 1)
  }

  /** The rewrite reaches the image, in the first portworx container only. */
  lemma RewriteEffect(t: Template, image: string)
    requires HasPx(t)
    ensures var u := WithImage(t, image);
            && FirstPx(u) == FirstPx(t) && AtImage(u, image)
            && (PinsImage(u) <==> PinsImage(t))
            && |u| == |t|
            && (forall j :: 0 <= j < |t| && j != FirstPx(t) ==> u[j] == t[j])
            && PxContainer(u) == PxContainer(t).(image := image)
  {
    var u := WithImage(t, image);
    assert u[FirstPx(t)].name == PX_CONTAINER;
    assert forall j :: 0 <= j < FirstPx(t) ==> u[j].name == t[j].name;
    assert FirstPx(u) == FirstPx(t);
  }

  // ---------------------------------------------------------------- the controller

  /** `Observe` is a status write by the controller, `Edit` any later change of the template. */
  datatype RolloutEvent = Observe(generation: nat) | Edit(template: Template)

  function Step(d: DaemonSet, e: RolloutEvent): DaemonSet {
    match e
    case Observe(g) => if d.observed <= g <= |d.revisions| then d.(observed := g, version := d.version + 1) else d
    case Edit(t) => d.(revisions := d.revisions + [t], version := d.version + 1)
  }

  function Evolve(d: DaemonSet, es: seq<RolloutEvent>): DaemonSet {
    if es == [] then d else Step(Evolve(d, es[..|es| - 1]), es[|es| - 1])
  }

  lemma {:induction false} RevisionsOnlyGrow(d: DaemonSet, es: seq<RolloutEvent>)
    requires Valid(d)
    ensures Valid(Evolve(d, es)) && d.revisions <= Evolve(d, es).revisions && d.observed <= Evolve(d, es).observed
  {
    if es != [] {
      RevisionsOnlyGrow(d, es[..|es| - 1]);
    }
  }

  /** The controller is acting on a template with this image. */
  ghost predicate RunsImage(d: DaemonSet, image: string) {
    0 < d.observed <= |d.revisions| && AtImage(d.revisions[d.observed - 1], image)
  }

  /** Under every interleaving of controller and editors, the wait passes only once the controller
      has observed a generation that carries the image. */
  ghost predicate WaitIsSound(d: DaemonSet, expected: nat, image: string) {
    forall es :: Evolve(d, es).observed == expected ==> RunsImage(Evolve(d, es), image)
  }

  /** The daemonset as it stands once the closure has dealt with the listed copy. */
  function Posted(d: DaemonSet, image: string): DaemonSet
    requires d.revisions != []
  {
    match Judge(d, image)
    case Rewrite(_, copy) => Stored(d, copy)
    case _ => d
  }

  function Expected(d: DaemonSet, image: string): nat
    requires d.revisions != []
  {
    match Judge(d, image)
    case Skip(n) => n
    case Rewrite(n, _) => n
    case _ => 0
  }

  /** What must be true of the listed copy: for one that is skipped, that the controller already
      runs the image; for one that is rewritten, that the controller is up to date (or that the
      very next template it has yet to observe happens to carry the image). */
  ghost predicate CaughtUp(d: DaemonSet, image: string)
    requires Valid(d)
  {
    if AtImage(Current(d), image) then RunsImage(d, image)
    else d.observed == Generation(d) || AtImage(d.revisions[d.observed], image)
  }

  lemma CaughtUpIsSound(d: DaemonSet, image: string)
    requires Valid(d) && (Judge(d, image).Skip? || Judge(d, image).Rewrite?) && CaughtUp(d, image)
    ensures WaitIsSound(Posted(d, image), Expected(d, image), image)
  {
    var p, n := Posted(d, image), Expected(d, image);
    if Judge(d, image).Rewrite? {
      RewriteEffect(Current(d), image);
    }
    forall es | Evolve(p, es).observed == n ensures RunsImage(Evolve(p, es), image) {
      RevisionsOnlyGrow(p, es);
      assert Evolve(p, es).revisions[n - 1] == p.revisions[n - 1];
    }
  }

  /** Otherwise the controller may move exactly to the expected generation and no further. */
  lemma NotCaughtUpIsUnsound(d: DaemonSet, image: string)
    requires Valid(d) && (Judge(d, image).Skip? || Judge(d, image).Rewrite?) && !CaughtUp(d, image)
    ensures !WaitIsSound(Posted(d, image), Expected(d, image), image)
  {
    var p, n := Posted(d, image), Expected(d, image);
    assert [Observe(n)][..0] == [];
    assert Evolve(p, []) == p;
    assert Evolve(p, [Observe(n)]) == Step(p, Observe(n));
    assert Evolve(p, [Observe(n)]).observed == n && !RunsImage(Evolve(p, [Observe(n)]), image);
  }

  /** The expected generation is trustworthy exactly when the listed copy had caught up. */
  lemma ExpectationIsExact(d: DaemonSet, image: string)
    requires Valid(d) && (Judge(d, image).Skip? || Judge(d, image).Rewrite?)
    ensures WaitIsSound(Posted(d, image), Expected(d, image), image) <==> CaughtUp(d, image)
  {
    if CaughtUp(d, image) {
      CaughtUpIsSound(d, image);
    } else {
      NotCaughtUpIsUnsound(d, image);
    }
  }

  /** Succeeding on the first attempt from a settled daemonset is enough. */
  lemma SettledDaemonSetIsSound(d: DaemonSet, image: string)
    requires Valid(d) && Judge(d, image).Rewrite? && d.observed == Generation(d)
    ensures WaitIsSound(Posted(d, image), Expected(d, image), image)
  {
    ExpectationIsExact(d, image);
  }

  /** The retry that breaks it: the update lands but reports an error, so the next attempt lists
      the new template, skips it, and expects the generation already observed. The wait then
      passes at once although the controller still runs the old image. */
  lemma RetryForgetsTheExpectation(d: DaemonSet, image: string)
    requires Valid(d) && Judge(d, image).Rewrite? && d.observed == Generation(d)
    ensures var relisted := Posted(d, image);
            && Judge(relisted, image).Skip?
            && relisted.observed == Expected(relisted, image)
            && !RunsImage(relisted, image)
            && !WaitIsSound(relisted, Expected(relisted, image), image)
  {
    RewriteEffect(Current(d), image);
    ExpectationIsExact(Posted(d, image), image);
  }

  /** The same retry is harmless once the controller has caught up before the new listing. */
  lemma RetryAfterCatchingUpIsSound(d: DaemonSet, image: string, relisted: DaemonSet)
    requires Valid(d) && Judge(d, image).Rewrite?
    requires relisted == Step(Posted(d, image), Observe(Generation(Posted(d, image))))
    ensures Judge(relisted, image).Skip?
    ensures WaitIsSound(relisted, Expected(relisted, image), image)
  {
    RewriteEffect(Current(d), image);
    ExpectationIsExact(relisted, image);
  }

  // ---------------------------------------------------------------- one write

  /** What an update of the trigger may change: the image of the first portworx container, the
      change-cause annotation, and the version. */
  ghost predicate OnlyImageChanged(before: DaemonSet, after: DaemonSet, image: string) {
    && before.revisions != [] && HasPx(Current(before))
    && before.annotations.Some? && after.annotations.Some?
    && after.annotations.value - {CHANGE_CAUSE} == before.annotations.value - {CHANGE_CAUSE}
    && CHANGE_CAUSE in after.annotations.value && after.annotations.value[CHANGE_CAUSE] == "update PX to " + image
    && after == before.(revisions := before.revisions + [WithImage(Current(before), image)],
                        annotations := after.annotations, version := before.version + 1)
  }

  /** A legitimate write of the trigger: never of a daemonset that pins PX_IMAGE. */
  ghost predicate AllowedWrite(before: DaemonSet, after: DaemonSet, image: string) {
    before.revisions != [] && !PinsImage(Current(before)) && (after == before || OnlyImageChanged(before, after, image))
  }

  lemma RewriteTouchesOnlyTheImage(d: DaemonSet, image: string)
    requires d.revisions != [] && Judge(d, image).Rewrite?
    ensures OnlyImageChanged(d, Posted(d, image), image) && AllowedWrite(d, Posted(d, image), image)
  {
  }

  // ---------------------------------------------------------------- two states of one daemonset

  /** Only the controller wrote in between. */
  ghost predicate StatusOnly(before: DaemonSet, now: DaemonSet) {
    && now == before.(observed := now.observed, version := now.version)
    && before.observed <= now.observed && before.version <= now.version
    && (before.version == now.version ==> before == now)
  }

  /** What any number of trigger attempts, interleaved with the controller, may have done: nothing
      to the specification, or one rewrite of an unpinned daemonset that was not at the image. */
  ghost predicate Progressed(before: DaemonSet, now: DaemonSet, image: string) {
    && now == before.(revisions := now.revisions, annotations := now.annotations, observed := now.observed, version := now.version)
    && before.observed <= now.observed && before.version <= now.version
    && (before.version == now.version ==> before == now)
    && ((now.revisions == before.revisions && now.annotations == before.annotations) || RewrittenOnce(before, now, image))
  }

  ghost predicate RewrittenOnce(before: DaemonSet, now: DaemonSet, image: string) {
    && before.revisions != [] && HasPx(Current(before))
    && !PinsImage(Current(before)) && !AtImage(Current(before), image)
    && now.revisions == before.revisions + [WithImage(Current(before), image)]
    && before.annotations.Some? && now.annotations.Some?
    && now.annotations.value - {CHANGE_CAUSE} == before.annotations.value - {CHANGE_CAUSE}
  }

  lemma ProgressComposes(a: DaemonSet, b: DaemonSet, c: DaemonSet, image: string)
    requires Progressed(a, b, image) && Progressed(b, c, image)
    ensures Progressed(a, c, image)
  {
    if RewrittenOnce(a, b, image) {
      RewriteEffect(Current(a), image);
    }
  }

  /** The closure has dealt with the listed copy, and the controller may have moved since. */
  ghost predicate Settled(listed: DaemonSet, now: DaemonSet, image: string) {
    && listed.revisions != []
    && (Judge(listed, image).Skip? || Judge(listed, image).Rewrite? || Judge(listed, image).Resend?)
    && now.uid == listed.uid
    && now.revisions == Posted(listed, image).revisions
  }

  /** A settled daemonset is at the image, if it has a portworx container at all. */
  lemma SettledIsAtImage(listed: DaemonSet, now: DaemonSet, image: string)
    requires Settled(listed, now, image)
    ensures now.revisions != [] && (HasPx(Current(now)) ==> AtImage(Current(now), image))
    ensures HasPx(Current(listed)) ==> AtImage(Current(now), image)
  {
    if Judge(listed, image).Rewrite? {
      RewriteEffect(Current(listed), image);
    }
  }

  /** A poll that meets the expectation of a copy that had caught up sees the image running. */
  ghost predicate HonestPass(listed: DaemonSet, seen: DaemonSet, image: string) {
    Valid(listed) && HasPx(Current(listed)) && CaughtUp(listed, image) ==> RunsImage(seen, image)
  }

  lemma SettledPassIsHonest(listed: DaemonSet, seen: DaemonSet, image: string)
    requires Settled(listed, seen, image)
    requires HasPx(Current(listed)) ==> seen.observed == Expected(listed, image)
    ensures HonestPass(listed, seen, image)
  {
    if Judge(listed, image).Rewrite? {
      RewriteEffect(Current(listed), image);
    }
  }

  /** A daemonset that was settled when it was listed runs the image once the expected generation is
      observed, and goes on doing so: there is no later generation to observe. */
  lemma ObservedRuns(listed: DaemonSet, now: DaemonSet, image: string)
    requires Settled(listed, now, image) && HasPx(Current(listed)) && Valid(now)
    requires listed.observed == Generation(listed) && now.observed >= Expected(listed, image)
    ensures RunsImage(now, image)
  {
    if Judge(listed, image).Rewrite? {
      RewriteEffect(Current(listed), image);
    }
  }

  /** What the closure decides depends on nothing that the controller writes, the generation aside. */
  lemma CrashIsOfTheSpec(listed: DaemonSet, now: DaemonSet, image: string)
    requires StatusOnly(listed, now) && listed.revisions != []
    ensures Judge(listed, image).Crash? <==> Judge(now, image).Crash?
  {
  }

  lemma StatusIsProgress(before: DaemonSet, now: DaemonSet, image: string)
    requires StatusOnly(before, now)
    ensures Progressed(before, now, image)
  {
  }
}
