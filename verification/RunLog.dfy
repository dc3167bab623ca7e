/** The record of one run: what talisman and everybody else did, in order, and a monitor that
    reads the record and says whether the upgrade's steps came in the promised order. */
module RunLog {
  import opened Options
  import opened ReplicaProtocol
  import opened ReplicaStore
  import opened Volumes
  import SharedApps
  import Ports
  import Rollout

  /** The checks an upgrade makes before it changes anything. */
  datatype Guard = SpecGiven | OneNamespace | ServiceHasIp | DriverReady | Preflight | PodsManaged | ConfigParsed

  datatype Event =
    | AppEvent(change: Change)
    | DsWrite(before: Rollout.DaemonSet, after: Rollout.DaemonSet)
    | ObjectWrite(left: Ports.Objects)                                // services, API daemonset, permissions
    | Passed(guard: Guard)
    | DrainChecked(needed: bool)
    | ScaleDownDecided(required: bool)
    | ScaleDownReturned(how: SharedApps.Returned)
    | Storage(learnt: StorageEvent)
    | WaitPassed(listed: Rollout.DaemonSet, seen: Rollout.DaemonSet)
    | BodyReturned(out: Outcome)                                      // the value Upgrade will return
    | RestoreReturned(out: Outcome)
    | ProcessDied

  /** Done by somebody else. */
  ghost predicate IsForeign(e: Event) { e.AppEvent? && (e.change.Removed? || e.change.actor.Other?) }

  ghost predicate IsAppOp(e: Event, actor: Actor, op: Op) {
    e.AppEvent? && e.change.Changed? && e.change.actor == actor && e.change.op == op
  }

  /** A change that talisman makes to the cluster, other than putting replicas back. */
  ghost predicate IsWrite(e: Event) {
    e.DsWrite? || e.ObjectWrite? || IsAppOp(e, Self, Down)
  }

  // ---------------------------------------------------------------- the monitor

  datatype Monitor = Monitor(
    passed: set<Guard>,
    drain: bool,
    scaleDown: Option<bool>,
    scaledDown: bool,
    inspected: Option<seq<string>>,
    detached: bool,
    body: Option<Outcome>,
    restored: Option<Outcome>,
    died: bool,
    legal: bool)

  const START := Monitor({}, false, None, false, None, false, None, None, false, true)

  ghost function Required(drain: bool): set<Guard> {
    {SpecGiven, OneNamespace, ServiceHasIp, DriverReady, Preflight, ConfigParsed} + if drain then {PodsManaged} else {}
  }

  /** Every guard has been passed and the upgrade has not returned yet. */
  ghost predicate MayWrite(m: Monitor) {
    Required(m.drain) <= m.passed && m.scaleDown.Some? && m.body.None? && m.restored.None? && !m.died
  }

  ghost predicate MayScaleDown(m: Monitor) { MayWrite(m) && m.scaleDown.value && !m.scaledDown }

  ghost predicate MayUpgrade(m: Monitor) {
    MayWrite(m) && (m.scaleDown.value ==> m.scaledDown && m.detached)
  }

  ghost predicate MayRestore(m: Monitor) { m.body.Some? && m.scaleDown == Some(true) && m.restored.None? && !m.died }

  /** The volumes count as detached when the ones listed last were polled and none was attached. */
  ghost function Learn(m: Monitor, learnt: StorageEvent): Monitor {
    match learnt
    case Listed(_, volumes) => m.(inspected := Some(volumes), detached := false)
    case Polled(volumes, truth) =>
      m.(detached := m.scaledDown && m.inspected == Some(volumes) && !AnyExternal(truth, volumes))
  }

  ghost function Observe(m: Monitor, e: Event): Monitor {
    if IsForeign(e) then m
    else if m.restored.Some? || m.died then m.(legal := false)
    else match e
      case AppEvent(c) =>
        m.(legal := m.legal && c.Changed? && ((c.op.Down? && MayScaleDown(m)) || (c.op.Restore? && MayRestore(m))))
      case DsWrite(_, _) => m.(legal := m.legal && MayUpgrade(m))
      case ObjectWrite(_) => m.(legal := m.legal && MayUpgrade(m))
      case Passed(g) => m.(passed := m.passed + {g}, legal := m.legal && m.scaleDown.None?)
      case DrainChecked(needed) => m.(drain := needed, legal := m.legal && m.scaleDown.None?)
      case ScaleDownDecided(required) =>
        m.(scaleDown := Some(required), legal := m.legal && m.scaleDown.None? && Required(m.drain) <= m.passed)
      case ScaleDownReturned(how) => m.(scaledDown := SharedApps.WellScaled(how), inspected := None, detached := false)
      case Storage(learnt) => Learn(m, learnt)
      case BodyReturned(out) => m.(body := Some(out), legal := m.legal && m.body.None?)
      case RestoreReturned(out) => m.(restored := Some(out), legal := m.legal && MayRestore(m))
      case ProcessDied => m.(died := true)
      case _ => m
  }

  ghost function Watch(log: seq<Event>): Monitor {
    if log == [] then START else Observe(Watch(log[..|log| - 1]), log[|log| - 1])
  }

  lemma LogExtends(log: seq<Event>, e: Event)
    ensures Watch(log + [e]) == Observe(Watch(log), e)
  {
    assert (log + [e])[..|log|] == log;
  }

  /** The changes of a stretch of the applications' history, as events. */
  ghost function AppEvents(cs: seq<Change>): seq<Event> { seq(|cs|, i requires 0 <= i < |cs| => AppEvent(cs[i])) }

  ghost predicate Allows(m: Monitor, op: Op) {
    m.restored.None? && !m.died && (op.Down? ==> MayScaleDown(m)) && (op.Restore? ==> MayRestore(m))
  }

  /** What others do never moves the monitor. */
  lemma {:induction false} ForeignStretch(log: seq<Event>, cs: seq<Change>)
    requires forall c :: c in cs ==> c.Removed? || c.actor.Other?
    ensures Watch(log + AppEvents(cs)) == Watch(log)
  {
    if cs == [] {
      assert log + AppEvents(cs) == log;
    } else {
      var front, c := cs[..|cs| - 1], cs[|cs| - 1];
      ForeignStretch(log, front);
      assert AppEvents(cs) == AppEvents(front) + [AppEvent(c)];
      assert log + AppEvents(cs) == (log + AppEvents(front)) + [AppEvent(c)];
      LogExtends(log + AppEvents(front), AppEvent(c));
    }
  }

  /** A stretch in which talisman performs only a permitted operation does not move the monitor. */
  lemma {:induction false} PermittedStretch(log: seq<Event>, cs: seq<Change>, op: Op)
    requires !op.Touch? && Allows(Watch(log), op) && OwnOnly(cs, 0, op)
    ensures Watch(log + AppEvents(cs)) == Watch(log)
  {
    if cs == [] {
      assert log + AppEvents(cs) == log;
    } else {
      var front, c := cs[..|cs| - 1], cs[|cs| - 1];
      PermittedStretch(log, front, op);
      assert AppEvents(cs) == AppEvents(front) + [AppEvent(c)];
      assert log + AppEvents(cs) == (log + AppEvents(front)) + [AppEvent(c)];
      LogExtends(log + AppEvents(front), AppEvent(c));
    }
  }

  /** The finished upgrade: legal throughout, and the restore ran exactly when a scale-down was
      decided on and the process lived, after the result had been fixed. */
  ghost predicate Finished(log: seq<Event>, result: Outcome) {
    var m := Watch(log);
    && m.legal && (m.died <==> result.Died?)
    && m.body == (if m.died then None else Some(result))
    && (m.restored.Some? <==> m.scaleDown == Some(true) && !m.died)
  }

  ghost function StorageEvents(es: seq<StorageEvent>): seq<Event> { seq(|es|, i requires 0 <= i < |es| => Storage(es[i])) }

  ghost function LearnAll(m: Monitor, es: seq<StorageEvent>): Monitor {
    if es == [] then m else Learn(LearnAll(m, es[..|es| - 1]), es[|es| - 1])
  }

  /** Listings and polls move only what the monitor knows of volumes. */
  lemma {:induction false} LearnAllFrame(m: Monitor, es: seq<StorageEvent>)
    ensures LearnAll(m, es) == m.(inspected := LearnAll(m, es).inspected, detached := LearnAll(m, es).detached)
  {
    if es != [] {
      LearnAllFrame(m, es[..|es| - 1]);
    }
  }

  lemma {:induction false} LearnRounds(m: Monitor, es: seq<StorageEvent>, classes: seq<string>, volumes: seq<string>)
    requires Rounds(es, classes, volumes)
    ensures es != [] ==> LearnAll(m, es).inspected == Some(volumes)
    ensures EndsDetached(es, volumes) ==> LearnAll(m, es).detached == m.scaledDown
  {
    if es != [] {
      LearnRounds(m, es[..|es| - 1], classes, volumes);
      LearnAllFrame(m, es[..|es| - 1]);
    }
  }

  lemma {:induction false} StorageStretch(log: seq<Event>, es: seq<StorageEvent>)
    requires Watch(log).restored.None? && !Watch(log).died
    ensures Watch(log + StorageEvents(es)) == LearnAll(Watch(log), es)
  {
    if es == [] {
      assert log + StorageEvents(es) == log;
    } else {
      var front, e := es[..|es| - 1], es[|es| - 1];
      StorageStretch(log, front);
      LearnAllFrame(Watch(log), front);
      assert StorageEvents(es) == StorageEvents(front) + [Storage(e)];
      assert log + StorageEvents(es) == (log + StorageEvents(front)) + [Storage(e)];
      LogExtends(log + StorageEvents(front), Storage(e));
    }
  }

  // ---------------------------------------------------------------- what a legal record means

  lemma {:induction false} LegalPrefix(log: seq<Event>, n: nat)
    requires n <= |log| && Watch(log).legal
    ensures Watch(log[..n]).legal
  {
    if n < |log| {
      LegalPrefix(log[..|log| - 1], n);
      assert log[..|log| - 1][..n] == log[..n];
    } else {
      assert log[..n] == log;
    }
  }

  lemma {:induction false} OnePasses(m: Monitor, e: Event, g: Guard)
    requires g in Observe(m, e).passed && g !in m.passed
    ensures e == Passed(g)
  {
  }

  lemma {:induction false} PassedWasLogged(log: seq<Event>, g: Guard)
    requires g in Watch(log).passed
    ensures exists j :: 0 <= j < |log| && log[j] == Passed(g)
  {
    var n := |log| - 1;
    if g !in Watch(log[..n]).passed {
      OnePasses(Watch(log[..n]), log[n], g);
    } else {
      PassedWasLogged(log[..n], g);
      var j :| 0 <= j < n && log[..n][j] == Passed(g);
      assert log[j] == Passed(g);
    }
  }

  /** No change reaches the cluster before every guard has been passed. */
  lemma GuardsComeFirst(log: seq<Event>, i: nat, g: Guard)
    requires Watch(log).legal && i < |log| && IsWrite(log[i]) && g in Required(Watch(log[..i]).drain)
    ensures exists j :: 0 <= j < i && log[j] == Passed(g)
  {
    LegalPrefix(log, i + 1);
    assert log[..i + 1][..i] == log[..i];
    assert g in Watch(log[..i]).passed;
    PassedWasLogged(log[..i], g);
    var j :| 0 <= j < |log[..i]| && log[..i][j] == Passed(g);
    assert log[j] == Passed(g);
  }

  lemma {:induction false} DecisionIsFinal(log: seq<Event>, i: nat)
    requires Watch(log).legal && i <= |log| && Watch(log[..i]).scaleDown.Some?
    ensures Watch(log).scaleDown == Watch(log[..i]).scaleDown
  {
    if i == |log| {
      assert log[..i] == log;
    } else {
      var n := |log| - 1;
      LegalPrefix(log, n);
      assert log[..n][..i] == log[..i];
      DecisionIsFinal(log[..n], i);
    }
  }

  /** A run that changed anything had come as far as the decision about the scale-down. */
  lemma WritesFollowTheDecision(log: seq<Event>, i: nat)
    requires Watch(log).legal && i < |log| && IsWrite(log[i])
    ensures Watch(log[..i]).scaleDown.Some? && Watch(log).scaleDown == Watch(log[..i]).scaleDown
  {
    LegalPrefix(log, i + 1);
    assert log[..i + 1][..i] == log[..i];
    DecisionIsFinal(log, i);
  }

  /** A scale-down returned that had listed every shared application and left them all at 0, as far as
      nobody else changed the sharing or restored anything. */
  ghost predicate IsGoodReturn(e: Event) { e.ScaleDownReturned? && SharedApps.WellScaled(e.how) }

  lemma {:induction false} ScaledDownWasLogged(log: seq<Event>)
    requires Watch(log).scaledDown
    ensures exists j :: 0 <= j < |log| && IsGoodReturn(log[j])
  {
    var n := |log| - 1;
    if !IsGoodReturn(log[n]) {
      ScaledDownWasLogged(log[..n]);
      var j :| 0 <= j < n && IsGoodReturn(log[..n][j]);
      assert IsGoodReturn(log[j]);
    }
  }

  /** After the scale-down had returned, these volumes were listed. */
  ghost predicate ListedAfterScaleDown(log: seq<Event>, j: nat, l: nat, volumes: seq<string>) {
    && j < l < |log| && IsGoodReturn(log[j])
    && log[l].Storage? && log[l].learnt.Listed? && log[l].learnt.volumes == volumes
  }

  lemma {:induction false} ListingWasLogged(log: seq<Event>, volumes: seq<string>) returns (j: nat, l: nat)
    requires Watch(log).scaledDown && Watch(log).inspected == Some(volumes)
    ensures ListedAfterScaleDown(log, j, l, volumes)
  {
    var n := |log| - 1;
    if log[n].Storage? && log[n].learnt.Listed? && log[n].learnt.volumes == volumes {
      ScaledDownWasLogged(log[..n]);
      j :| 0 <= j < n && IsGoodReturn(log[..n][j]);
      l := n;
    } else {
      j, l := ListingWasLogged(log[..n], volumes);
    }
  }

  /** At `k` the driver had answered that none of the volumes listed after the scale-down was attached
      outside the storage cluster. */
  ghost predicate SeenDetached(log: seq<Event>, j: nat, l: nat, k: nat) {
    && l < k < |log| && log[k].Storage? && log[k].learnt.Polled?
    && ListedAfterScaleDown(log, j, l, log[k].learnt.volumes)
    && !AnyExternal(log[k].learnt.truth, log[k].learnt.volumes)
  }

  lemma {:induction false} DetachedWasLogged(log: seq<Event>) returns (j: nat, l: nat, k: nat)
    requires Watch(log).detached && Watch(log).legal
    ensures SeenDetached(log, j, l, k)
  {
    var n := |log| - 1;
    LegalPrefix(log, n);
    if log[n].Storage? && log[n].learnt.Polled? {
      j, l := ListingWasLogged(log[..n], log[n].learnt.volumes);
      k := n;
    } else {
      j, l, k := DetachedWasLogged(log[..n]);
    }
  }

  /** When a scale-down is required, no daemonset is written before a scale-down returned with every
      shared application listed and at 0, the volumes were listed, and a poll of just these found none of
      them attached externally. */
  lemma ImagesComeAfterDetach(log: seq<Event>, i: nat) returns (j: nat, l: nat, k: nat)
    requires Watch(log).legal && i < |log| && log[i].DsWrite? && Watch(log[..i]).scaleDown == Some(true)
    ensures SeenDetached(log[..i], j, l, k)
  {
    LegalPrefix(log, i + 1);
    LegalPrefix(log, i);
    assert log[..i + 1][..i] == log[..i];
    j, l, k := DetachedWasLogged(log[..i]);
  }

  lemma {:induction false} ResultIsFixedEarly(log: seq<Event>, i: nat)
    requires Watch(log).legal && i < |log| && (log[i].RestoreReturned? || IsAppOp(log[i], Self, Restore))
    ensures Watch(log[..i]).body.Some? && Watch(log).body == Watch(log[..i]).body
  {
    LegalPrefix(log, i + 1);
    assert log[..i + 1][..i] == log[..i];
    BodyIsFinal(log, i);
  }

  lemma {:induction false} BodyIsFinal(log: seq<Event>, i: nat)
    requires Watch(log).legal && i <= |log| && Watch(log[..i]).body.Some?
    ensures Watch(log).body == Watch(log[..i]).body
  {
    if i == |log| {
      assert log[..i] == log;
    } else {
      var n := |log| - 1;
      LegalPrefix(log, n);
      assert log[..n][..i] == log[..i];
      BodyIsFinal(log[..n], i);
    }
  }

  /** The deferred restore is talisman's last action: once it has returned, only others act. */
  lemma {:induction false} NothingAfterRestore(log: seq<Event>, i: nat, k: nat)
    requires Watch(log).legal && i < k < |log| && log[i].RestoreReturned?
    ensures IsForeign(log[k])
  {
    LegalPrefix(log, k + 1);
    assert log[..k + 1][..k] == log[..k];
    RestoredIsFinal(log[..k], i);
  }

  lemma {:induction false} RestoredIsFinal(log: seq<Event>, i: nat)
    requires Watch(log).legal && i < |log| && log[i].RestoreReturned?
    ensures Watch(log).restored.Some?
  {
    var n := |log| - 1;
    if i < n {
      LegalPrefix(log, n);
      RestoredIsFinal(log[..n], i);
    }
  }

  /** A process that has died does nothing any more, not even the deferred restore. */
  lemma {:induction false} NothingAfterDeath(log: seq<Event>, i: nat, k: nat)
    requires Watch(log).legal && i < k < |log| && log[i].ProcessDied?
    ensures IsForeign(log[k])
  {
    LegalPrefix(log, k + 1);
    assert log[..k + 1][..k] == log[..k];
    DeathIsFinal(log[..k], i);
  }

  lemma {:induction false} DeathIsFinal(log: seq<Event>, i: nat)
    requires Watch(log).legal && i < |log| && log[i].ProcessDied?
    ensures Watch(log).died
  {
    var n := |log| - 1;
    if i < n {
      LegalPrefix(log, n);
      DeathIsFinal(log[..n], i);
    }
  }
}
