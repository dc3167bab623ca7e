/** `pxClusterOps.Upgrade`: the guards, the optional scale-down with its deferred restore, and the
    rolling upgrade, over the shared applications and the daemonsets of the cluster. */
module Upgrade {
  import opened Options
  import opened ReplicaProtocol
  import opened ReplicaStore
  import opened RunLog
  import opened SharedApps
  import opened Volumes
  import opened Containers
  import opened Daemons
  import Rollout
  import Versions
  import Config
  import PodGate
  import Ports

  /** The fields of the requested cluster that an upgrade looks at. */
  datatype ClusterSpec = ClusterSpec(ociMonImage: string, ociMonTag: string, pxTag: string)

  /** The image an upgrade is about: the repository, one colon, the tag. */
  ghost predicate IsImageOf(image: string, spec: ClusterSpec) {
    && |image| == |spec.ociMonImage| + 1 + |spec.ociMonTag| && image[|spec.ociMonImage|] == ':'
    && spec.ociMonImage <= image && image[|spec.ociMonImage| + 1..] == spec.ociMonTag
  }

  /** What the cluster answers when an upgrade asks, each thing once: the address of the service, whether
      the driver's clients and the existing daemonsets are ready, the versions of the nodes, the pods and
      the lookups about them. A lookup that fails has no answer. */
  datatype World = World(
    serviceIp: Option<string>, driverReady: bool, daemonsReady: bool,
    nodes: Option<seq<string>>,
    pods: Option<seq<PodGate.Pod>>, lookups: PodGate.Lookups,
    csv: Config.Csv, secrets: Config.Secrets)

  /** The guards that look at the request, the installation and the driver. */
  predicate FirstHold(spec: Option<ClusterSpec>, w: World, namespaces: seq<string>) {
    && spec.Some? && |namespaces| == 1
    && w.serviceIp.Some? && w.serviceIp.value != "" && w.driverReady
    && spec.value.ociMonTag != "" && w.daemonsReady
  }

  /** Whether applications must be drained, by the tag of Portworx or, without one, that of its monitor; not
      knowing counts as no. */
  ghost predicate DrainAnswer(spec: ClusterSpec, w: World, drain: bool) {
    && (spec.pxTag != "" ==> (drain <==> Versions.DrainRequired(w.nodes, spec.pxTag) == Some(true)))
    && (spec.pxTag == "" ==> (drain <==> Versions.DrainRequired(w.nodes, spec.ociMonTag) == Some(true)))
  }

  /** Every pod could be judged, and every one that uses a Portworx volume has a controller. */
  ghost predicate GateIsOpen(w: World) {
    && w.pods.Some?
    && (forall i :: 0 <= i < |w.pods.value| ==> PodGate.Decidable(w.pods.value[i], w.lookups))
    && forall pod :: pod in w.pods.value && PodGate.UsesPx(pod, w.lookups) ==> PodGate.Managed(pod)
  }

  ghost function ParsedIn(w: World, t: Template): Config.Parsed {
    Config.ParsedFrom(Config.PxLine(t), Config.PxEnv(t), w.csv, w.secrets)
  }

  ghost predicate ConfigIsGood(w: World, t: Template) { ParsedIn(w, t).Usable? || ParsedIn(w, t).InternalEtcd? }

  /** The parser runs past the end of the arguments. */
  ghost predicate ParserCrashes(w: World, read: Option<Template>) { read.Some? && ParsedIn(w, read.value).Crashed? }

  /** The gate and the configuration, of the template that was read if one was. */
  ghost predicate MayProceed(w: World, drain: bool, read: Option<Template>) {
    (drain ==> GateIsOpen(w)) && read.Some? && ConfigIsGood(w, read.value)
  }

  /** What has to be true of the cluster before anything is changed, and what is decided then. */
  ghost predicate Permitted(spec: Option<ClusterSpec>, opts: Option<Versions.UpgradeOptions>, w: World,
                            namespaces: seq<string>, read: Option<Template>, drain: bool, scaleDown: bool) {
    && FirstHold(spec, w, namespaces) && MayProceed(w, drain, read)
    && DrainAnswer(spec.value, w, drain) && Versions.Decision(drain, opts, scaleDown)
  }

  /** The template of a daemonset in one of these namespaces. */
  ghost predicate IsTemplate(all: seq<Rollout.DaemonSet>, namespaces: seq<string>, t: Template) {
    exists i :: 0 <= i < |all| && all[i].namespace in namespaces && all[i].revisions != [] && Rollout.Current(all[i]) == t
  }

  lemma TemplateBefore(before: seq<Rollout.DaemonSet>, now: seq<Rollout.DaemonSet>, namespaces: seq<string>, t: Template)
    requires StatusesOnly(before, now) && IsTemplate(now, namespaces, t)
    ensures IsTemplate(before, namespaces, t)
  {
    var i :| 0 <= i < |now| && now[i].namespace in namespaces && now[i].revisions != [] && Rollout.Current(now[i]) == t;
    assert Rollout.StatusOnly(before[i], now[i]);
  }

  /** How the guards end, from what the cluster is like: passed, with the decision about the scale-down,
      or not. With listings that do not fail, they are passed whenever they hold. */
  ghost predicate Guards(spec: Option<ClusterSpec>, opts: Option<Versions.UpgradeOptions>, w: World,
                         all: seq<Rollout.DaemonSet>, namespaces: seq<string>, faults: nat, now: nat,
                         read: Option<Template>, out: Outcome, drain: bool, scaleDown: bool) {
    && (read.Some? ==> IsTemplate(all, namespaces, read.value))
    && !out.Died? && (out.Panicked? <==> ParserCrashes(w, read))
    && (out.Ok? ==> Permitted(spec, opts, w, namespaces, read, drain, scaleDown))
    && (now == faults && FirstHold(spec, w, namespaces) && SomeInstalled(all, namespaces) ==>
          && DrainAnswer(spec.value, w, drain)
          && ((drain ==> GateIsOpen(w)) ==> read.Some? && (out.Ok? <==> ConfigIsGood(w, read.value))))
  }

  lemma SomeInstalledBefore(before: seq<Rollout.DaemonSet>, now: seq<Rollout.DaemonSet>, namespaces: seq<string>)
    requires StatusesOnly(before, now)
    ensures SomeInstalled(before, namespaces) <==> SomeInstalled(now, namespaces)
  {
    forall i | 0 <= i < |now| ensures before[i].namespace == now[i].namespace {
      assert Rollout.StatusOnly(before[i], now[i]);
    }
  }

  /** What the guards came to does not depend on statuses. */
  lemma GuardsBefore(spec: Option<ClusterSpec>, opts: Option<Versions.UpgradeOptions>, w: World,
                     before: seq<Rollout.DaemonSet>, all: seq<Rollout.DaemonSet>, namespaces: seq<string>, faults: nat, now: nat,
                     read: Option<Template>, out: Outcome, drain: bool, scaleDown: bool)
    requires StatusesOnly(before, all) && Guards(spec, opts, w, all, namespaces, faults, now, read, out, drain, scaleDown)
    ensures Guards(spec, opts, w, before, namespaces, faults, now, read, out, drain, scaleDown)
  {
    SomeInstalledBefore(before, all, namespaces);
    if read.Some? {
      TemplateBefore(before, all, namespaces, read.value);
    }
  }

  ghost predicate SomeInstalled(all: seq<Rollout.DaemonSet>, namespaces: seq<string>) {
    exists i :: 0 <= i < |all| && all[i].namespace in namespaces
  }

  ghost function DsEvents(es: seq<DsEvent>): seq<Event> {
    seq(|es|, i requires 0 <= i < |es| => DsEventOf(es[i]))
  }

  ghost function DsEventOf(e: DsEvent): Event {
    match e
    case Wrote(before, after) => DsWrite(before, after)
    case Passed(listed, seen) => WaitPassed(listed, seen)
  }

  /** Who can tell of an event: one of the servers' records, or nobody else. */
  datatype Teller = OfChanges | OfReturns | OfDaemons | OfVolumes | OfObjects | OfNone

  ghost function TellerOf(e: Event): Teller {
    match e
    case AppEvent(_) => OfChanges
    case ScaleDownReturned(_) => OfReturns
    case DsWrite(_, _) => OfDaemons
    case WaitPassed(_, _) => OfDaemons
    case Storage(_) => OfVolumes
    case ObjectWrite(_) => OfObjects
    case _ => OfNone
  }

  /** What a record tells of one of them. */
  ghost function Told(log: seq<Event>, who: Teller): seq<Event> {
    if log == [] then []
    else Told(log[..|log| - 1], who) + if TellerOf(log[|log| - 1]) == who then [log[|log| - 1]] else []
  }

  lemma ToldOne(log: seq<Event>, e: Event, who: Teller)
    ensures Told(log + [e], who) == Told(log, who) + if TellerOf(e) == who then [e] else []
  {
    assert (log + [e])[..|log|] == log;
  }

  /** A stretch told by one server adds to what that one tells, and to nothing else. */
  lemma {:induction false} ToldStretch(log: seq<Event>, es: seq<Event>, teller: Teller, who: Teller)
    requires forall e :: e in es ==> TellerOf(e) == teller
    ensures Told(log + es, who) == Told(log, who) + if who == teller then es else []
  {
    if es == [] {
      assert log + es == log;
    } else {
      var front, e := es[..|es| - 1], es[|es| - 1];
      ToldStretch(log, front, teller, who);
      assert log + es == (log + front) + [e];
      ToldOne(log + front, e, who);
      if who == teller {
        assert Told(log, who) + front + [e] == Told(log, who) + es;
      }
    }
  }

  /** The records that the servers keep. */
  datatype Records = Records(
    changes: seq<Change>, returned: seq<Returned>, daemons: seq<DsEvent>, storage: seq<StorageEvent>, writes: seq<Ports.Objects>)

  ghost function ReturnEvents(rs: seq<Returned>): seq<Event> { seq(|rs|, i requires 0 <= i < |rs| => ScaleDownReturned(rs[i])) }

  ghost function ObjectEvents(ws: seq<Ports.Objects>): seq<Event> { seq(|ws|, i requires 0 <= i < |ws| => ObjectWrite(ws[i])) }

  /** One of these records as events. */
  ghost function EventsOf(r: Records, who: Teller): seq<Event> {
    match who
    case OfChanges => AppEvents(r.changes)
    case OfReturns => ReturnEvents(r.returned)
    case OfDaemons => DsEvents(r.daemons)
    case OfVolumes => StorageEvents(r.storage)
    case OfObjects => ObjectEvents(r.writes)
    case OfNone => []
  }

  /** The later records go on from the earlier ones. */
  ghost predicate Extends(a: Records, b: Records) {
    a.changes <= b.changes && a.returned <= b.returned && a.daemons <= b.daemons && a.storage <= b.storage && a.writes <= b.writes
  }

  /** What was added since. */
  ghost function Since(a: Records, b: Records): Records
    requires Extends(a, b)
  {
    Records(b.changes[|a.changes|..], b.returned[|a.returned|..], b.daemons[|a.daemons|..],
            b.storage[|a.storage|..], b.writes[|a.writes|..])
  }

  /** The log of a call holds exactly what the servers have recorded since it began. */
  ghost predicate Tells(log: seq<Event>, first: Records, now: Records) {
    Extends(first, now) && forall who :: who != OfNone ==> Told(log, who) == EventsOf(Since(first, now), who)
  }

  /** One record has grown; the log is made to tell of it. */
  lemma TellsMore(log: seq<Event>, first: Records, mid: Records, now: Records, teller: Teller)
    requires Tells(log, first, mid) && Extends(mid, now) && teller != OfNone
    requires forall who :: who != OfNone && who != teller ==> EventsOf(Since(mid, now), who) == []
    ensures Tells(log + EventsOf(Since(mid, now), teller), first, now)
  {
    var more := EventsOf(Since(mid, now), teller);
    forall who | who != OfNone ensures Told(log + more, who) == EventsOf(Since(first, now), who) {
      ToldStretch(log, more, teller, who);
      SinceAdds(first, mid, now, who);
    }
  }

  lemma SliceAdds<T>(a: seq<T>, b: seq<T>, c: seq<T>)
    requires a <= b <= c
    ensures c[|a|..] == b[|a|..] + c[|b|..]
  {
  }

  lemma EventsAdd(x: Records, y: Records, z: Records, who: Teller)
    requires z == Records(x.changes + y.changes, x.returned + y.returned, x.daemons + y.daemons, x.storage + y.storage, x.writes + y.writes)
    ensures EventsOf(z, who) == EventsOf(x, who) + EventsOf(y, who)
  {
    match who
    case OfChanges => assert AppEvents(z.changes) == AppEvents(x.changes) + AppEvents(y.changes);
    case OfReturns => assert ReturnEvents(z.returned) == ReturnEvents(x.returned) + ReturnEvents(y.returned);
    case OfDaemons => assert DsEvents(z.daemons) == DsEvents(x.daemons) + DsEvents(y.daemons);
    case OfVolumes => assert StorageEvents(z.storage) == StorageEvents(x.storage) + StorageEvents(y.storage);
    case OfObjects => assert ObjectEvents(z.writes) == ObjectEvents(x.writes) + ObjectEvents(y.writes);
    case OfNone =>
  }

  lemma SinceAdds(first: Records, mid: Records, now: Records, who: Teller)
    requires Extends(first, mid) && Extends(mid, now)
    ensures EventsOf(Since(first, now), who) == EventsOf(Since(first, mid), who) + EventsOf(Since(mid, now), who)
  {
    SliceAdds(first.changes, mid.changes, now.changes);
    SliceAdds(first.returned, mid.returned, now.returned);
    SliceAdds(first.daemons, mid.daemons, now.daemons);
    SliceAdds(first.storage, mid.storage, now.storage);
    SliceAdds(first.writes, mid.writes, now.writes);
    EventsAdd(Since(first, mid), Since(mid, now), Since(first, now), who);
  }

  lemma TellsNothingNew(log: seq<Event>, first: Records, now: Records, e: Event)
    requires Tells(log, first, now) && TellerOf(e) == OfNone
    ensures Tells(log + [e], first, now)
  {
    forall who | who != OfNone ensures Told(log + [e], who) == EventsOf(Since(first, now), who) {
      ToldOne(log, e, who);
    }
  }

  /** Once the upgrade proper may start, nothing it does to daemonsets moves the monitor. */
  lemma {:induction false} UpgradeStretch(log: seq<Event>, es: seq<DsEvent>)
    requires MayUpgrade(Watch(log))
    ensures Watch(log + DsEvents(es)) == Watch(log)
  {
    if es == [] {
      assert log + DsEvents(es) == log;
    } else {
      var front, e := es[..|es| - 1], es[|es| - 1];
      UpgradeStretch(log, front);
      assert DsEvents(es) == DsEvents(front) + [DsEventOf(e)];
      assert log + DsEvents(es) == (log + DsEvents(front)) + [DsEventOf(e)];
      LogExtends(log + DsEvents(front), DsEventOf(e));
    }
  }

  lemma {:induction false} ObjectStretch(log: seq<Event>, ws: seq<Ports.Objects>)
    requires MayUpgrade(Watch(log))
    ensures Watch(log + ObjectEvents(ws)) == Watch(log)
  {
    if ws == [] {
      assert log + ObjectEvents(ws) == log;
    } else {
      var front, w := ws[..|ws| - 1], ws[|ws| - 1];
      ObjectStretch(log, front);
      assert log + ObjectEvents(ws) == (log + ObjectEvents(front)) + [ObjectWrite(w)];
      LogExtends(log + ObjectEvents(front), ObjectWrite(w));
    }
  }

  lemma HandledStays(dss: seq<Rollout.DaemonSet>, mid: seq<Rollout.DaemonSet>, now: seq<Rollout.DaemonSet>, image: string)
    requires Handled(dss, |dss|, mid, image) && StatusesOnly(mid, now)
    ensures Handled(dss, |dss|, now, image)
  {
    forall j | 0 <= j < |dss| ensures Rollout.Settled(dss[j], now[dss[j].uid], image) {
      assert Rollout.StatusOnly(mid[dss[j].uid], now[dss[j].uid]);
    }
  }

  lemma StillAtImage(first: seq<Rollout.DaemonSet>, mid: seq<Rollout.DaemonSet>, now: seq<Rollout.DaemonSet>,
                     namespaces: seq<string>, image: string)
    requires AllProgressed(first, mid, image) && AllAtImage(mid, namespaces, image) && StatusesOnly(mid, now)
    ensures AllAtImage(now, namespaces, image) && AllProgressed(first, now, image)
  {
    StatusesAreProgress(mid, now, image);
    AllProgressCompose(first, mid, now, image);
    forall i | 0 <= i < |now| ensures now[i].revisions == mid[i].revisions && now[i].namespace == mid[i].namespace {
      assert Rollout.StatusOnly(mid[i], now[i]);
    }
  }

  ghost const FIRST_GUARDS: set<Guard> := {SpecGiven, OneNamespace, ServiceHasIp, DriverReady, Preflight}

  /** Only guards so far: nothing decided, nothing written. */
  ghost function Guarded(passed: set<Guard>, drain: bool): Monitor { START.(passed := passed, drain := drain) }

  ghost predicate Early(m: Monitor) { m == Guarded(m.passed, m.drain) }

  /** What there was at some moment. */
  datatype Snapshot = Snapshot(
    start: Apps, history: seq<Change>, gets: seq<Read>, edits: nat,
    all: seq<Rollout.DaemonSet>, events: seq<DsEvent>, judged: seq<Rollout.DaemonSet>, faults: nat, trace: seq<StorageEvent>, objects: Ports.Objects, trouble: nat)

  /** A trigger that ended well led from `b` to `m`. */
  ghost predicate Triggered(b: Snapshot, m: Snapshot, namespaces: seq<string>, image: string) {
    && AllProgressed(b.all, m.all, image) && AllAtImage(m.all, namespaces, image)
    && b.events <= m.events && b.judged <= m.judged && b.faults <= m.faults && b.trouble <= m.trouble && b.gets == m.gets
    && (forall i :: |b.events| <= i < |m.events| ==> m.events[i].Wrote? && EventIsFine(m.events[i], image))
    && JudgedThere(m.judged, |b.judged|, b.all, namespaces, image) && !KilledBy(m.judged, |b.judged|, image)
  }

  /** Everything may begin. */
  ghost predicate Ready(m: Monitor) { m.legal && MayWrite(m) && !m.scaledDown && !m.detached }

  class Operator {
    const apps: AppServer
    const daemons: DaemonServer
    const volumes: VolumeServer
    const services: Ports.ServiceServer
    ghost var log: seq<Event>     // the record of the current call
    ghost var first: Records      // the servers' records when it was opened

    ghost function Recorded(): Records
      reads apps, daemons, volumes, services
    {
      Records(apps.history, apps.returned, daemons.events, volumes.trace, services.writes)
    }

    /** The record omits and invents nothing. */
    ghost predicate Valid()
      reads this, apps, daemons, volumes, services
    {
      apps.Valid() && daemons.Valid() && services.Valid() && Tells(log, first, Recorded())
    }

    /** The log has still to be told of what happened since the servers' records were these. */
    ghost predicate Behind(mid: Records)
      reads this, apps, daemons, volumes, services
    {
      apps.Valid() && daemons.Valid() && services.Valid() && Tells(log, first, mid) && Extends(mid, Recorded())
    }

    constructor (apps: AppServer, daemons: DaemonServer, volumes: VolumeServer, services: Ports.ServiceServer)
      requires apps.Valid() && daemons.Valid() && services.Valid()
      ensures Valid() && this.apps == apps && this.daemons == daemons && this.volumes == volumes
      ensures this.services == services && log == []
    {
      this.apps, this.daemons, this.volumes, this.services, log := apps, daemons, volumes, services, [];
      first := Records(apps.history, apps.returned, daemons.events, volumes.trace, services.writes);
    }

    /** Records a step that is told by none of the servers. */
    method Note(e: Event)
      requires Valid() && TellerOf(e) == OfNone
      modifies this`log
      ensures Valid() && log == old(log) + [e] && Watch(log) == Observe(old(Watch(log)), e)
    {
      LogExtends(log, e);
      TellsNothingNew(log, first, Recorded(), e);
      log := log + [e];
    }

    /** Adds to the log what one server has recorded since. */
    ghost method Tell(mid: Records, now: Records, teller: Teller)
      requires Behind(mid) && Extends(mid, now) && Extends(now, Recorded()) && teller != OfNone
      requires forall who :: who != OfNone && who != teller ==> EventsOf(Since(mid, now), who) == []
      modifies this`log
      ensures Behind(now) && log == old(log) + EventsOf(Since(mid, now), teller)
    {
      TellsMore(log, first, mid, now, teller);
      log := log + EventsOf(Since(mid, now), teller);
    }

    /** Tells what a call on the applications has just done to them. */
    ghost method TellChanges(mid: Records, op: Op)
      requires Behind(mid) && Recorded() == mid.(changes := apps.history, returned := apps.returned)
      requires !op.Touch? && OwnOnly(apps.history, |mid.changes|, op) && Allows(Watch(log), op)
      modifies this`log
      ensures Behind(mid.(changes := apps.history)) && Watch(log) == old(Watch(log))
    {
      OwnOnlySuffix(apps.history, |mid.changes|, op);
      PermittedStretch(log, apps.history[|mid.changes|..], op);
      Tell(mid, mid.(changes := apps.history), OfChanges);
    }

    /** Tells what others have just done to the applications. */
    ghost method TellForeign(mid: Records)
      requires Behind(mid) && Recorded() == mid.(changes := apps.history)
      requires forall i :: |mid.changes| <= i < |apps.history| ==> apps.history[i].Removed? || apps.history[i].actor.Other?
      modifies this`log
      ensures Valid() && Watch(log) == old(Watch(log))
    {
      ForeignStretch(log, apps.history[|mid.changes|..]);
      Tell(mid, Recorded(), OfChanges);
    }

    /** Tells how a scale-down has just returned. */
    ghost method TellReturn(mid: Records)
      requires Behind(mid) && Recorded() == mid.(returned := apps.returned) && |apps.returned| == |mid.returned| + 1
      modifies this`log
      ensures Valid() && Watch(log) == Observe(old(Watch(log)), ScaleDownReturned(apps.returned[|mid.returned|]))
    {
      LogExtends(log, ScaleDownReturned(apps.returned[|mid.returned|]));
      Tell(mid, Recorded(), OfReturns);
      assert EventsOf(Since(mid, Recorded()), OfReturns) == [ScaleDownReturned(apps.returned[|mid.returned|])];
    }

    /** Tells what a call on the daemonsets has just done. */
    ghost method TellDaemons(mid: Records)
      requires Behind(mid) && Recorded() == mid.(daemons := daemons.events) && MayUpgrade(Watch(log))
      modifies this`log
      ensures Valid() && Watch(log) == old(Watch(log))
    {
      UpgradeStretch(log, daemons.events[|mid.daemons|..]);
      Tell(mid, Recorded(), OfDaemons);
    }

    /** Tells of writes to services and other objects. */
    ghost method TellObjects(mid: Records)
      requires Behind(mid) && Recorded() == mid.(writes := services.writes) && MayUpgrade(Watch(log))
      modifies this`log
      ensures Valid() && Watch(log) == old(Watch(log))
    {
      ObjectStretch(log, services.writes[|mid.writes|..]);
      Tell(mid, Recorded(), OfObjects);
    }

    /** Tells what has just been learnt about volumes. */
    ghost method TellStorage(mid: Records)
      requires Behind(mid) && Recorded() == mid.(storage := volumes.trace)
      requires Watch(log).restored.None? && !Watch(log).died
      modifies this`log
      ensures Valid() && Watch(log) == LearnAll(old(Watch(log)), volumes.trace[|mid.storage|..])
    {
      StorageStretch(log, volumes.trace[|mid.storage|..]);
      Tell(mid, Recorded(), OfVolumes);
    }

    // -------------------------------------------------------------- scale-down and detach

    twostate predicate StorageGoesOn()
      reads volumes
    {
      old(volumes.faults) <= volumes.faults && old(volumes.trace) <= volumes.trace
    }

    /** A request about volumes failed, or one of them stayed attached. */
    twostate predicate StorageTrouble()
      reads volumes
    {
      volumes.faults > old(volumes.faults) ||
      (old(volumes.trace) <= volumes.trace && StillAttached(volumes.trace[|old(volumes.trace)|..]))
    }

    /** The wait for the shared volumes, recorded: the storage classes are looked up again, and the volumes
        behind their claims are waited for. */
    method WaitTillDetached() returns (out: Outcome, asked: seq<string>)
      requires Valid() && Watch(log).legal && Watch(log).scaledDown && MayWrite(Watch(log))
      modifies this`log, apps`apps, apps`users, apps`sharedClasses, apps`history, apps`gets, apps`edits, apps`faults, volumes
      ensures Valid() && apps.OthersActed() && apps.gets == old(apps.gets) && (out.Ok? || out.Failed?)
      ensures Watch(log) == old(Watch(log)).(inspected := Watch(log).inspected, detached := Watch(log).detached)
      ensures out.Ok? ==> Watch(log).detached
      ensures volumes.ClaimsKept() && old(apps.faults) <= apps.faults
      ensures StorageGoesOn() && (out.Failed? ==> apps.faults > old(apps.faults) || StorageTrouble())
      ensures out.Ok? && volumes.edits == old(volumes.edits) ==> asked == VolumesOf(volumes.claims, apps.sharedClasses)
    {
      ghost var mid := Recorded();
      var ok, classes := apps.GetPXSharedSCs();
      TellForeign(mid);
      out, asked := Failed, [];
      if ok {
        out, asked := WaitFor(classes);
      }
    }

    method WaitFor(classes: seq<string>) returns (out: Outcome, asked: seq<string>)
      requires Valid() && Watch(log).scaledDown && MayWrite(Watch(log))
      modifies this`log, volumes
      ensures Valid() && (out.Ok? || out.Failed?)
      ensures Watch(log) == old(Watch(log)).(inspected := Watch(log).inspected, detached := Watch(log).detached)
      ensures out.Ok? ==> Watch(log).detached
      ensures volumes.ClaimsKept() && StorageGoesOn() && (out.Failed? ==> StorageTrouble())
      ensures out.Ok? && volumes.edits == old(volumes.edits) ==> asked == VolumesOf(volumes.claims, classes)
    {
      ghost var mid, m := Recorded(), Watch(log);
      out, asked := volumes.WaitTillDetached(classes);
      ghost var delta := volumes.trace[|mid.storage|..];
      TellStorage(mid);
      LearnAllFrame(m, delta);
      LearnRounds(m, delta, classes, asked);
    }

    ghost predicate AllAtZero(listed: seq<Key>)
      reads apps
    {
      forall key :: key in listed ==> AtZero(apps.apps, key)
    }

    /** What the applications' side of an upgrade keeps. */
    twostate predicate AppsGoOn()
      reads apps
    {
      apps.start == old(apps.start) && old(apps.history) <= apps.history && old(apps.gets) <= apps.gets && apps.SharingKept()
    }

    /** Some application cannot be scaled down without killing the process. */
    ghost predicate SomeAppKills()
      reads apps
    {
      exists key :: key in apps.apps && PlanScaleDown(key.kind, apps.apps[key]).Crash?
    }

    /** The scale-down, with the applications' changes and its return on record. */
    method ScaleDown() returns (out: Outcome, deployments: seq<Key>, statefulSets: seq<Key>)
      requires Valid() && Ready(Watch(log)) && MayScaleDown(Watch(log))
      modifies this`log, apps
      ensures Valid() && AppsGoOn()
      ensures Watch(log).legal && MayWrite(Watch(log)) && Watch(log).scaleDown == Some(true) && (out.Ok? ==> Watch(log).scaledDown)
      ensures out.Ok? && OthersDidNot(apps.history, |old(apps.history)|, Restore) ==> AllAtZero(deployments + statefulSets)
      ensures out.Ok? && apps.edits == old(apps.edits) ==> apps.ListsAll(deployments, statefulSets)
      ensures !out.Panicked? && (out.Died? <==> KilledSince(apps.gets, |old(apps.gets)|)) && (out.Died? ==> SomeAppKills())
      ensures old(apps.faults) <= apps.faults && (out.Failed? ==> apps.faults > old(apps.faults))
    {
      ghost var mid := Recorded();
      out, deployments, statefulSets := apps.ScaleSharedAppsToZero();
      TellChanges(mid, Down);
      if !out.Died? {
        TellReturn(mid.(changes := apps.history));
      }
    }

    /** Scale down and wait. When both succeed, every listed application is at 0 unless somebody restored
        it, the volumes waited for are those of the classes it was listed for, and the upgrade may go on. */
    method Drain() returns (out: Outcome, deployments: seq<Key>, statefulSets: seq<Key>, asked: seq<string>)
      requires Valid() && Ready(Watch(log)) && MayScaleDown(Watch(log))
      modifies this`log, apps, volumes
      ensures Valid() && AppsGoOn()
      ensures Watch(log).legal && MayWrite(Watch(log)) && Watch(log).scaleDown == Some(true)
      ensures out.Ok? ==> MayUpgrade(Watch(log))
      ensures out.Ok? && OthersDidNot(apps.history, |old(apps.history)|, Restore) ==> AllAtZero(deployments + statefulSets)
      ensures out.Ok? && apps.edits == old(apps.edits) ==> apps.ListsAll(deployments, statefulSets)
      ensures out.Ok? && volumes.edits == old(volumes.edits) ==> asked == VolumesOf(volumes.claims, apps.sharedClasses)
      ensures !out.Panicked? && (out.Died? <==> KilledSince(apps.gets, |old(apps.gets)|)) && (out.Died? ==> SomeAppKills())
      ensures old(apps.faults) <= apps.faults && StorageGoesOn() && (out.Failed? ==> apps.faults > old(apps.faults) || StorageTrouble())
    {
      asked := [];
      out, deployments, statefulSets := ScaleDown();
      if out.Ok? {
        ghost var mid := apps.history;
        out, asked := WaitTillDetached();
        if OthersDidNot(apps.history, |old(apps.history)|, Restore) {
          AllStayAtZero(apps.start, mid, apps.history, deployments + statefulSets);
        }
      }
    }

    // -------------------------------------------------------------- the rolling upgrade

    /** The services follow, and once a round of the upgrade has ended well they carry their targets. */
    ghost predicate FollowFrom(was: Ports.Objects, done: bool)
      reads services
    {
      && Ports.Follows(was.px, was.api, services.now.px, services.now.api)
      && (done ==> was.px.Some? && services.Carried(was.px.value) && services.now.apiDaemonSet)
      && (was.granted ==> services.now.granted)
    }

    /** Only statuses changed, and every pass of the wait was seen on the server and can be trusted. */
    twostate predicate Waited(image: string)
      reads daemons
    {
      && StatusesOnly(old(daemons.all), daemons.all) && old(daemons.events) <= daemons.events
      && PassesSeen(daemons.events, |old(daemons.events)|, old(daemons.all), daemons.all, image)
      && daemons.judged == old(daemons.judged) && daemons.faults == old(daemons.faults) && daemons.refused == old(daemons.refused)
    }

    /** Everything that has gone wrong so far: failed requests, polls that found the controller behind, and
        validations that failed. */
    ghost function Trouble(): nat
      reads apps, daemons, volumes, services
    {
      apps.faults + daemons.faults + daemons.refused + daemons.behind + daemons.unready + volumes.faults + services.faults
    }

    ghost function Snap(): Snapshot
      reads apps, daemons, volumes, services
    {
      Snapshot(apps.start, apps.history, apps.gets, apps.edits, daemons.all, daemons.events, daemons.judged, daemons.faults,
               volumes.trace, services.now, Trouble())
    }

    /** There was a reason to give up since `b`: trouble, a volume that stayed attached, a daemonset that pins
        its image, or none at all. */
    ghost predicate Excused(b: Snapshot)
      reads apps, daemons, volumes, services
    {
      || Trouble() > b.trouble || PinnedSince(daemons.judged, |b.judged|) || !SomeInstalled(daemons.all, daemons.namespaces)
      || (b.trace <= volumes.trace && StillAttached(volumes.trace[|b.trace|..]))
    }

    /** What the rollout has come to since `b`. When it ends well, every listed daemonset has passed the
        wait, and those whose controller was up to date when they were listed run the image. */
    ghost predicate RolledOut(b: Snapshot, out: Outcome, opts: Option<Versions.UpgradeOptions>, image: string, dss: seq<Rollout.DaemonSet>)
      reads daemons
    {
      && AllProgressed(b.all, daemons.all, image) && b.events <= daemons.events && b.judged <= daemons.judged && b.faults <= daemons.faults
      && (forall i :: |b.events| <= i < |daemons.events| ==> EventIsFine(daemons.events[i], image))
      && JudgedThere(daemons.judged, |b.judged|, b.all, daemons.namespaces, image)
      && PassesTrue(daemons.events, |b.events|, b.all, daemons.all, image)
      && (out.Ok? || out.Panicked? ==> AllAtImage(daemons.all, daemons.namespaces, image))
      && (out.Panicked? <==> opts.None? && PassedSince(daemons.events, |b.events|))
      && (out.Ok? ==> opts.Some? && Completed(dss, |b.events|, image))
    }

    /** The process dies exactly when a closure has read something that it cannot write to, and that is
        still there. */
    ghost predicate Deaths(b: Snapshot, out: Outcome, image: string)
      reads apps, daemons
    {
      && (out.Died? <==> KilledSince(apps.gets, |b.gets|) || KilledBy(daemons.judged, |b.judged|, image))
      && (out.Died? ==> SomeAppKills() || SomeCrash(daemons.all, daemons.namespaces, image))
    }

    /** A listing that was dealt with from end to end: written, waited for and running. */
    ghost predicate Completed(dss: seq<Rollout.DaemonSet>, from: nat, image: string)
      reads daemons
    {
      && dss != [] && Handled(dss, |dss|, daemons.all, image)
      && PassedEach(daemons.events, from, dss) && AllRunning(dss, daemons.all, image)
    }

    /** `upgradePX`. The options are dereferenced without a nil check: without options it panics as soon
        as a first wait has passed, with all images written. It dies exactly when the trigger meets a
        daemonset to rewrite that has no annotations. */
    method UpgradePX(image: string, opts: Option<Versions.UpgradeOptions>) returns (out: Outcome, dss: seq<Rollout.DaemonSet>)
      requires Valid() && Watch(log).legal && MayUpgrade(Watch(log))
      modifies this`log, daemons, services
      ensures Valid() && Watch(log) == old(Watch(log))
      ensures Accomplished(old(Snap()), out, opts, image, dss) && old(Trouble()) <= Trouble()
    {
      dss := [];
      ghost var mid := Recorded();
      var ok := services.GrantPermissions();
      TellObjects(mid);
      ghost var was := services.now;
      if ok {
        out, dss := RollOut(image, opts, was);
      } else {
        out := Failed;
        AllProgressReflexive(daemons.all, image);
      }
    }

    /** The trigger and the wait. */
    method RollOut(image: string, opts: Option<Versions.UpgradeOptions>, ghost was: Ports.Objects)
      returns (out: Outcome, dss: seq<Rollout.DaemonSet>)
      requires Valid() && Watch(log).legal && MayUpgrade(Watch(log)) && FollowFrom(was, false)
      modifies this`log, daemons, services
      ensures Valid() && Watch(log) == old(Watch(log))
      ensures RolledOut(old(Snap()), out, opts, image, dss) && Deaths(old(Snap()), out, image)
      ensures FollowFrom(was, out.Ok?)
      ensures old(Trouble()) <= Trouble() && (out.Failed? ==> Excused(old(Snap())))
    {
      var expected;
      out, dss, expected := WriteImages(image, opts);
      if out.Ok? {
        ghost var m := Snap();
        out := WaitForAll(dss, image, expected, opts, was);
        WaitIsTheRest(old(Snap()), m, dss, out, image, opts, was);
      }
    }

    /** What the trigger and the wait after it have come to together. */
    lemma WaitIsTheRest(b: Snapshot, m: Snapshot, dss: seq<Rollout.DaemonSet>, out: Outcome, image: string,
                        opts: Option<Versions.UpgradeOptions>, was: Ports.Objects)
      requires daemons.Valid() && dss != [] && Waiting(m, dss, |dss|, out, image, opts, was)
      requires Triggered(b, m, daemons.namespaces, image) && m.gets == apps.gets
      ensures RolledOut(b, out, opts, image, dss) && Deaths(b, out, image) && FollowFrom(was, out.Ok?)
      ensures b.trouble <= Trouble() && (out.Failed? ==> Excused(b))
    {
      WaitIsSound(b, m, dss, out, image, opts, was);
    }

    lemma WaitIsSound(b: Snapshot, m: Snapshot, dss: seq<Rollout.DaemonSet>, out: Outcome, image: string,
                      opts: Option<Versions.UpgradeOptions>, was: Ports.Objects)
      requires daemons.Valid() && dss != [] && Waiting(m, dss, |dss|, out, image, opts, was)
      requires Triggered(b, m, daemons.namespaces, image)
      ensures RolledOut(b, out, opts, image, dss)
    {
      StillAtImage(b.all, m.all, daemons.all, daemons.namespaces, image);
      PassesComeFromTheWait(m.events, daemons.events, |b.events|);
      SeenIsTrue(m.events, daemons.events, |b.events|, b.all, m.all, daemons.all, image);
      if out.Ok? {
        InTurnIsEach(daemons.events, |b.events|, |m.events|, dss);
        ObservedAreRunning(dss, daemons.all, image);
      }
      forall i | |b.events| <= i < |daemons.events| ensures EventIsFine(daemons.events[i], image) {
        if i < |m.events| {
          assert daemons.events[i] == m.events[i];
        }
      }
    }

    /** The trigger, with its writes recorded. When it does not end well, that is all there is. */
    method WriteImages(image: string, opts: Option<Versions.UpgradeOptions>)
      returns (out: Outcome, dss: seq<Rollout.DaemonSet>, expected: map<nat, nat>)
      requires Valid() && MayUpgrade(Watch(log))
      modifies this`log, daemons
      ensures Valid() && Watch(log) == old(Watch(log)) && !out.Panicked?
      ensures out.Ok? ==> Triggered(old(Snap()), Snap(), daemons.namespaces, image)
      ensures out.Ok? ==> dss != [] && Handled(dss, |dss|, daemons.all, image) && Expects(expected, dss, |dss|, image)
      ensures !out.Ok? ==> RolledOut(old(Snap()), out, opts, image, dss) && Deaths(old(Snap()), out, image)
      ensures old(Trouble()) <= Trouble() && (out.Failed? ==> Excused(old(Snap())))
    {
      ghost var mid, b, s := Recorded(), Snap(), daemons.Stand();
      out, dss, expected := daemons.Trigger(image);
      TriggerIsAll(b, s, out, opts, dss, expected, image);
      TellDaemons(mid);
    }

    /** What a trigger comes to, when it began with `b`. */
    lemma TriggerIsAll(b: Snapshot, s: Standing, out: Outcome, opts: Option<Versions.UpgradeOptions>, dss: seq<Rollout.DaemonSet>,
                       expected: map<nat, nat>, image: string)
      requires s.all == b.all && s.events == b.events && s.judged == b.judged && s.faults == b.faults
      requires Advanced(s, daemons.Stand(), daemons.namespaces, image) && !out.Panicked?
      requires Snap().gets == b.gets && Trouble() - b.trouble == daemons.faults - s.faults + daemons.refused - s.refused
      requires out.Failed? ==> PinnedSince(daemons.judged, |b.judged|) || daemons.HinderedSince(s)
      requires out.Died? <==> KilledBy(daemons.judged, |b.judged|, image)
      requires out.Died? ==> SomeCrash(daemons.all, daemons.namespaces, image)
      requires out.Ok? ==> daemons.Triggered(dss, expected, image)
      ensures out.Ok? ==> Triggered(b, Snap(), daemons.namespaces, image)
      ensures !out.Ok? ==> RolledOut(b, out, opts, image, dss) && Deaths(b, out, image)
      ensures b.trouble <= Trouble() && (out.Failed? ==> Excused(b))
    {
    }

    /** How far the wait for the daemonsets of the last listing has come since `b`. */
    ghost predicate Waiting(b: Snapshot, dss: seq<Rollout.DaemonSet>, n: nat, out: Outcome, image: string,
                            opts: Option<Versions.UpgradeOptions>, was: Ports.Objects)
      reads apps, daemons, volumes, services
    {
      && StatusesOnly(b.all, daemons.all) && b.events <= daemons.events
      && daemons.judged == b.judged && daemons.faults == b.faults
      && b.trouble <= Trouble() && (out.Failed? ==> Trouble() > b.trouble)
      && PassesSeen(daemons.events, |b.events|, b.all, daemons.all, image)
      && Handled(dss, |dss|, daemons.all, image)
      && FollowFrom(was, out.Ok? && n > 0)
      && (out.Panicked? <==> opts.None? && |daemons.events| > |b.events|)
      && !out.Died? && (out.Ok? && n > 0 ==> opts.Some?)
      && (out.Ok? ==> WaitedFor(dss, n, daemons.events, |b.events|, daemons.all, image))
    }

    /** The loop over the daemonsets of the last listing. Without an error each of them passes in turn. */
    method WaitForAll(dss: seq<Rollout.DaemonSet>, image: string, expected: map<nat, nat>, opts: Option<Versions.UpgradeOptions>,
                      ghost was: Ports.Objects)
      returns (out: Outcome)
      requires Valid() && Watch(log).legal && MayUpgrade(Watch(log)) && FollowFrom(was, false)
      requires Handled(dss, |dss|, daemons.all, image) && Expects(expected, dss, |dss|, image)
      modifies this`log, daemons`all, daemons`events, daemons`behind, daemons`unready, services
      ensures Valid() && Watch(log) == old(Watch(log)) && Waiting(old(Snap()), dss, |dss|, out, image, opts, was)
    {
      out := Ok;
      ghost var b := Snap();
      WaitingBegins(dss, image, opts, was);
      var n := 0;
      while n < |dss| && out.Ok?
        invariant 0 <= n <= |dss| && b == old(Snap())
        invariant Valid() && Watch(log) == old(Watch(log)) && Waiting(b, dss, n, out, image, opts, was)
        decreases |dss| - n
      {
        out := WaitForNext(dss, n, image, expected, opts, was, b);
        n := n + 1;
      }
      if n < |dss| {
        WaitingIsOver(b, dss, n, out, image, opts, was);
      }
    }

    lemma WaitingBegins(dss: seq<Rollout.DaemonSet>, image: string, opts: Option<Versions.UpgradeOptions>, was: Ports.Objects)
      requires FollowFrom(was, false) && Handled(dss, |dss|, daemons.all, image)
      ensures Waiting(Snap(), dss, 0, Ok, image, opts, was)
    {
      StatusesReflexive(daemons.all);
    }

    lemma WaitingIsOver(b: Snapshot, dss: seq<Rollout.DaemonSet>, n: nat, out: Outcome, image: string,
                        opts: Option<Versions.UpgradeOptions>, was: Ports.Objects)
      requires Waiting(b, dss, n, out, image, opts, was) && !out.Ok?
      ensures Waiting(b, dss, |dss|, out, image, opts, was)
    {
    }

    /** One round of the loop. */
    method WaitForNext(dss: seq<Rollout.DaemonSet>, n: nat, image: string, expected: map<nat, nat>, opts: Option<Versions.UpgradeOptions>,
                       ghost was: Ports.Objects, ghost b: Snapshot)
      returns (out: Outcome)
      requires Valid() && Watch(log).legal && MayUpgrade(Watch(log))
      requires n < |dss| && Waiting(b, dss, n, Ok, image, opts, was) && Expects(expected, dss, |dss|, image)
      modifies this`log, daemons`all, daemons`events, daemons`behind, daemons`unready, services
      ensures Valid() && Watch(log) == old(Watch(log)) && Waiting(b, dss, n + 1, out, image, opts, was)
    {
      ghost var mid, events := daemons.all, daemons.events;
      out := WaitForOne(dss[n], image, expected, opts, was);
      HandledStays(dss, mid, daemons.all, image);
      PassesAdd(events, daemons.events, |b.events|, b.all, mid, daemons.all, image);
      StatusesCompose(b.all, mid, daemons.all);
      if out.Ok? {
        WaitedForOneMore(dss, n, events, daemons.events, |b.events|, mid, daemons.all, image);
      }
    }

    method WaitForOne(listed: Rollout.DaemonSet, image: string, expected: map<nat, nat>, opts: Option<Versions.UpgradeOptions>,
                      ghost was: Ports.Objects)
      returns (out: Outcome)
      requires Valid() && Watch(log).legal && MayUpgrade(Watch(log)) && FollowFrom(was, false)
      requires Rollout.Valid(listed) && listed.uid < |daemons.all| && Rollout.Settled(listed, daemons.all[listed.uid], image)
      requires HasPx(Rollout.Current(listed)) ==>
                 listed.uid in expected && expected[listed.uid] == Rollout.Expected(listed, image)
      modifies this`log, daemons`all, daemons`events, daemons`behind, daemons`unready, services
      ensures Valid() && Waited(image) && FollowFrom(was, out.Ok?)
      ensures Watch(log) == old(Watch(log))
      ensures out.Panicked? <==> opts.None? && |daemons.events| > |old(daemons.events)|
      ensures !out.Died? && (out.Ok? ==> opts.Some?)
      ensures old(Trouble()) <= Trouble() && (out.Failed? ==> Trouble() > old(Trouble()))
      ensures out.Ok? ==> |daemons.events| == |old(daemons.events)| + 1 && IsPassOf(daemons.events[|old(daemons.events)|], listed)
      ensures out.Ok? && HasPx(Rollout.Current(listed)) ==> daemons.all[listed.uid].observed >= Rollout.Expected(listed, image)
    {
      var ok := WaitForPass(listed, image, expected);
      out := Failed;
      if ok {
        out := FinishDaemonSet(opts, was);
      }
    }

    /** The wait for the controller, recorded. */
    method WaitForPass(listed: Rollout.DaemonSet, image: string, expected: map<nat, nat>) returns (ok: bool)
      requires Valid() && MayUpgrade(Watch(log))
      requires Rollout.Valid(listed) && listed.uid < |daemons.all| && Rollout.Settled(listed, daemons.all[listed.uid], image)
      requires HasPx(Rollout.Current(listed)) ==>
                 listed.uid in expected && expected[listed.uid] == Rollout.Expected(listed, image)
      modifies this`log, daemons`all, daemons`events, daemons`behind
      ensures Valid() && Waited(image) && Watch(log) == old(Watch(log))
      ensures |daemons.events| == |old(daemons.events)| + if ok then 1 else 0
      ensures old(daemons.behind) <= daemons.behind && (!ok ==> daemons.behind > old(daemons.behind))
      ensures ok ==> IsPassOf(daemons.events[|old(daemons.events)|], listed)
      ensures ok && HasPx(Rollout.Current(listed)) ==> daemons.all[listed.uid].observed >= Rollout.Expected(listed, image)
    {
      ghost var mid := Recorded();
      ok := daemons.WaitForController(listed, image, expected);
      TellDaemons(mid);
    }

    /** Validation, service ports and the API daemonset and service of one namespace. It panics exactly
        without options, before anything else. */
    method FinishDaemonSet(opts: Option<Versions.UpgradeOptions>, ghost was: Ports.Objects) returns (out: Outcome)
      requires Valid() && Watch(log).legal && MayUpgrade(Watch(log)) && FollowFrom(was, false)
      modifies this`log, daemons`unready, services
      ensures Valid() && Watch(log) == old(Watch(log)) && FollowFrom(was, out.Ok?)
      ensures (out.Panicked? <==> opts.None?) && !out.Died?
      ensures old(daemons.unready) <= daemons.unready && old(services.faults) <= services.faults
      ensures out.Failed? ==> daemons.unready > old(daemons.unready) || services.faults > old(services.faults)
      ensures out.Panicked? ==> log == old(log) && services.now == old(services.now)
    {
      if opts.None? { return Panicked; }
      var ready := daemons.ValidateDaemonSet();
      if !ready { return Failed; }
      ghost var mid, now := Recorded(), services.now;
      var ok := services.UpdateServices();
      Ports.FollowsCompose(was.px, was.api, now.px, now.api, services.now.px, services.now.api);
      TellObjects(mid);
      out := if ok then Ok else Failed;
    }

    // -------------------------------------------------------------- guards

    /** A daemonset is installed, and no listing failed. */
    twostate predicate CanList()
      reads daemons
    {
      SomeInstalled(daemons.all, daemons.namespaces) && daemons.faults == old(daemons.faults)
    }

    /** One guard. */
    method Check(g: Guard, holds: bool, ghost passed: set<Guard>)
      requires Valid() && Watch(log) == Guarded(passed, false)
      modifies this`log
      ensures Valid() && Watch(log) == Guarded(if holds then passed + {g} else passed, false)
    {
      if holds {
        Note(RunLog.Passed(g));
      }
    }

    /** The guards that look at the request, the installation and the driver. They pass exactly when they
        hold, some daemonset is installed and it could be listed. */
    method FirstGuards(spec: Option<ClusterSpec>, w: World) returns (ok: bool)
      requires Valid() && Watch(log) == START
      modifies this`log, daemons`all, daemons`faults
      ensures Valid() && daemons.ControllerActed() && old(daemons.faults) <= daemons.faults
      ensures Early(Watch(log)) && !Watch(log).drain
      ensures ok <==> FirstHold(spec, w, daemons.namespaces) && CanList()
      ensures ok ==> Watch(log).passed == FIRST_GUARDS
    {
      ok := RequestGuards(spec, w);
      if ok {
        ok := Preflight(spec.value, w);
      }
    }

    /** The request, the installation, the service and the driver's clients. */
    method RequestGuards(spec: Option<ClusterSpec>, w: World) returns (ok: bool)
      requires Valid() && Watch(log) == START
      modifies this`log
      ensures Valid() && Early(Watch(log)) && !Watch(log).drain
      ensures ok <==> spec.Some? && |daemons.namespaces| == 1 && w.serviceIp.Some? && w.serviceIp.value != "" && w.driverReady
      ensures ok ==> Watch(log) == Guarded({SpecGiven, OneNamespace, ServiceHasIp, DriverReady}, false)
    {
      ok := spec.Some?;
      Check(SpecGiven, ok, {});
      if ok {
        ok := |daemons.namespaces| == 1;
        Check(OneNamespace, ok, {SpecGiven});
      }
      if ok {
        ok := DriverGuards(w);
      }
    }

    method DriverGuards(w: World) returns (ok: bool)
      requires Valid() && Watch(log) == Guarded({SpecGiven, OneNamespace}, false)
      modifies this`log
      ensures Valid() && Early(Watch(log)) && !Watch(log).drain
      ensures ok <==> w.serviceIp.Some? && w.serviceIp.value != "" && w.driverReady
      ensures ok ==> Watch(log) == Guarded({SpecGiven, OneNamespace, ServiceHasIp, DriverReady}, false)
    {
      ok := w.serviceIp.Some? && w.serviceIp.value != "";
      Check(ServiceHasIp, ok, {SpecGiven, OneNamespace});
      if ok {
        ok := w.driverReady;
        Check(DriverReady, ok, {SpecGiven, OneNamespace, ServiceHasIp});
      }
    }

    /** `preFlightChecks`. */
    method Preflight(spec: ClusterSpec, w: World) returns (ok: bool)
      requires Valid() && Watch(log) == Guarded({SpecGiven, OneNamespace, ServiceHasIp, DriverReady}, false)
      modifies this`log, daemons`all, daemons`faults
      ensures Valid() && daemons.ControllerActed() && Early(Watch(log)) && !Watch(log).drain && old(daemons.faults) <= daemons.faults
      ensures ok <==> spec.ociMonTag != "" && w.daemonsReady && CanList()
      ensures ok ==> Watch(log) == Guarded(FIRST_GUARDS, false)
    {
      ok := false;
      if spec.ociMonTag == "" { return; }
      var listed, dss := daemons.GetPXDaemonsets();
      ok := listed && dss != [] && w.daemonsReady;
      if dss != [] {
        assert Rollout.StatusOnly(dss[0], daemons.all[dss[0].uid]);
      }
      Check(Guard.Preflight, ok, {SpecGiven, OneNamespace, ServiceHasIp, DriverReady});
    }

    /** The gate on unmanaged pods that goes with a drain. */
    method DrainGate(drain: bool, w: World) returns (ok: bool)
      requires Valid() && Early(Watch(log)) && Watch(log).passed == FIRST_GUARDS
      modifies this`log
      ensures Valid() && Early(Watch(log)) && Watch(log).drain == drain
      ensures ok <==> (drain ==> GateIsOpen(w))
      ensures ok ==> Watch(log).passed == FIRST_GUARDS + if drain then {PodsManaged} else {}
    {
      Note(DrainChecked(drain));
      ok := true;
      if drain {
        var unmanaged := PodGate.IsAnyPXAppPodUnmanaged(w.pods, w.lookups);
        ok := unmanaged == Some(false);
        if ok {
          Note(RunLog.Passed(PodsManaged));
        }
      }
    }

    method ParseTemplate(t: Template, w: World) returns (out: Outcome)
      ensures (out.Ok? <==> ConfigIsGood(w, t)) && (out.Panicked? <==> ParsedIn(w, t).Crashed?) && !out.Died?
    {
      var parsed := Config.ParseConfig(t, w.csv, w.secrets);
      match parsed {
        case Crashed => out := Panicked;
        case Unusable => out := Failed;
        case _ => out := Ok;
      }
    }

    /** The configuration of the first daemonset that is listed; reading it may panic. */
    method ReadConfig(w: World) returns (out: Outcome, read: Option<Template>)
      requires Valid()
      modifies daemons`all, daemons`faults
      ensures Valid() && daemons.ControllerActed() && !out.Died? && old(daemons.faults) <= daemons.faults
      ensures read.None? ==> out.Failed? && (daemons.faults > old(daemons.faults) || !SomeInstalled(daemons.all, daemons.namespaces))
      ensures read.Some? ==> IsTemplate(daemons.all, daemons.namespaces, read.value)
      ensures read.Some? ==> (out.Ok? <==> ConfigIsGood(w, read.value))
      ensures out.Panicked? <==> ParserCrashes(w, read)
    {
      out, read := Failed, None;
      var listed, dss := daemons.GetPXDaemonsets();
      if !listed || dss == [] { return; }
      read := Some(Rollout.Current(dss[0]));
      assert Rollout.StatusOnly(dss[0], daemons.all[dss[0].uid]);
      out := ParseTemplate(read.value, w);
    }

    /** The last entries before the upgrade may change anything. */
    method Decide(scaleDown: bool)
      requires Valid() && Early(Watch(log))
      requires Watch(log).passed == FIRST_GUARDS + if Watch(log).drain then {PodsManaged} else {}
      modifies this`log
      ensures Valid() && Ready(Watch(log)) && Watch(log).scaleDown == Some(scaleDown) && Watch(log).drain == old(Watch(log)).drain
    {
      Note(RunLog.Passed(ConfigParsed));
      Note(ScaleDownDecided(scaleDown));
    }

    /** The drain gate, the configuration, and the decision to scale down. */
    method LastGuards(drain: bool, scaleDown: bool, w: World) returns (out: Outcome, read: Option<Template>)
      requires Valid() && Early(Watch(log)) && Watch(log).passed == FIRST_GUARDS
      modifies this`log, daemons`all, daemons`faults
      ensures Valid() && daemons.ControllerActed() && !out.Died? && old(daemons.faults) <= daemons.faults
      ensures read.Some? ==> IsTemplate(daemons.all, daemons.namespaces, read.value)
      ensures (drain ==> GateIsOpen(w)) && CanList() ==> read.Some?
      ensures out.Ok? <==> MayProceed(w, drain, read)
      ensures out.Panicked? <==> ParserCrashes(w, read)
      ensures if out.Ok? then Ready(Watch(log)) && Watch(log).scaleDown == Some(scaleDown) && Watch(log).drain == drain else Early(Watch(log))
    {
      read := None;
      var ok := DrainGate(drain, w);
      out := Failed;
      if ok {
        out, read := ReadConfig(w);
        if out.Ok? {
          Decide(scaleDown);
        }
      }
    }

    /** The tag is defaulted, then the versions decide. */
    method IsDrainNeeded(spec: ClusterSpec, w: World) returns (drain: bool)
      ensures DrainAnswer(spec, w, drain)
    {
      var tag := spec.pxTag;
      if |tag| == 0 {
        tag := spec.ociMonTag;
      }
      drain := Versions.DrainRequired(w.nodes, tag) == Some(true);
    }

    /** All guards, in order. They pass exactly when they hold, unless a listing fails. */
    method AllGuards(spec: Option<ClusterSpec>, opts: Option<Versions.UpgradeOptions>, w: World)
      returns (out: Outcome, drain: bool, scaleDown: bool, read: Option<Template>)
      requires Valid() && Watch(log) == START
      modifies this`log, daemons`all, daemons`faults
      ensures Valid() && daemons.ControllerActed() && !out.Died? && old(daemons.faults) <= daemons.faults
      ensures Guards(spec, opts, w, old(daemons.all), daemons.namespaces, old(daemons.faults), daemons.faults, read, out, drain, scaleDown)
      ensures if out.Ok? then Ready(Watch(log)) && Watch(log).scaleDown == Some(scaleDown) && Watch(log).drain == drain else Early(Watch(log))
    {
      out, drain, scaleDown, read := Failed, false, false, None;
      var go := FirstGuards(spec, w);
      if go {
        out, drain, scaleDown, read := LaterGuards(spec.value, opts, w);
      }
      GuardsBefore(spec, opts, w, old(daemons.all), daemons.all, daemons.namespaces, old(daemons.faults), daemons.faults,
                   read, out, drain, scaleDown);
    }

    /** What follows the first guards. */
    method LaterGuards(spec: ClusterSpec, opts: Option<Versions.UpgradeOptions>, w: World)
      returns (out: Outcome, drain: bool, scaleDown: bool, read: Option<Template>)
      requires Valid() && Early(Watch(log)) && Watch(log).passed == FIRST_GUARDS && FirstHold(Some(spec), w, daemons.namespaces)
      modifies this`log, daemons`all, daemons`faults
      ensures Valid() && daemons.ControllerActed() && old(daemons.faults) <= daemons.faults
      ensures Guards(Some(spec), opts, w, daemons.all, daemons.namespaces, old(daemons.faults), daemons.faults, read, out, drain, scaleDown)
      ensures if out.Ok? then Ready(Watch(log)) && Watch(log).scaleDown == Some(scaleDown) && Watch(log).drain == drain else Early(Watch(log))
    {
      drain := IsDrainNeeded(spec, w);
      scaleDown := Versions.ScaleDownRequired(drain, opts);
      Versions.DecisionIsMade(drain, opts);
      out, read := LastGuards(drain, scaleDown, w);
    }

    // -------------------------------------------------------------- Upgrade

    /** A scale-down that the upgrade went on from: since `b` every shared application was listed, and all
        of them are at 0, as far as nobody else changed the sharing or restored anything. */
    ghost predicate Drained(b: Snapshot, deployments: seq<Key>, statefulSets: seq<Key>)
      reads apps
    {
      && (apps.edits == b.edits ==> apps.ListsAll(deployments, statefulSets))
      && (|b.history| <= |apps.history| && OthersDidNot(apps.history, |b.history|, Restore) ==> AllAtZero(deployments + statefulSets))
    }

    /** What happens between the guards and the return, deferred restore aside. */
    method Body(image: string, opts: Option<Versions.UpgradeOptions>, scaleDown: bool)
      returns (out: Outcome, rolled: seq<Rollout.DaemonSet>, ghost deployments: seq<Key>, ghost statefulSets: seq<Key>)
      requires Valid() && Ready(Watch(log)) && Watch(log).scaleDown == Some(scaleDown)
      modifies this`log, apps, daemons, volumes, services
      ensures Valid() && AppsGoOn()
      ensures Accomplished(old(Snap()), out, opts, image, rolled)
      ensures Watch(log).legal && Watch(log).scaleDown == Some(scaleDown) && Watch(log).restored.None?
      ensures Watch(log).died == out.Died? && Watch(log).body == if out.Died? then None else Some(out)
      ensures (out.Ok? || out.Panicked?) && scaleDown ==> Drained(old(Snap()), deployments, statefulSets)
      ensures old(Trouble()) <= Trouble() && StorageGoesOn()
    {
      out, rolled, deployments, statefulSets := DrainAndUpgrade(image, opts, scaleDown);
      Conclude(out);
    }

    method DrainAndUpgrade(image: string, opts: Option<Versions.UpgradeOptions>, scaleDown: bool)
      returns (out: Outcome, rolled: seq<Rollout.DaemonSet>, ghost deployments: seq<Key>, ghost statefulSets: seq<Key>)
      requires Valid() && Ready(Watch(log)) && Watch(log).scaleDown == Some(scaleDown)
      modifies this`log, apps, daemons, volumes, services
      ensures Valid() && AppsGoOn() && Accomplished(old(Snap()), out, opts, image, rolled)
      ensures Watch(log).legal && MayWrite(Watch(log)) && Watch(log).scaleDown == Some(scaleDown)
      ensures (out.Ok? || out.Panicked?) && scaleDown ==> Drained(old(Snap()), deployments, statefulSets)
      ensures old(Trouble()) <= Trouble() && StorageGoesOn()
    {
      rolled := [];
      out, deployments, statefulSets := DrainFirst(image, opts, scaleDown);
      if out.Ok? {
        ghost var m := Snap();
        out, rolled := UpgradePX(image, opts);
        DrainCameFirst(old(Snap()), m, out, opts, image, rolled);
      }
    }

    /** The drain, if it was decided on. When it does not end well, that is all there is. */
    method DrainFirst(image: string, opts: Option<Versions.UpgradeOptions>, scaleDown: bool)
      returns (out: Outcome, ghost deployments: seq<Key>, ghost statefulSets: seq<Key>)
      requires Valid() && Ready(Watch(log)) && Watch(log).scaleDown == Some(scaleDown)
      modifies this`log, apps, volumes
      ensures Valid() && AppsGoOn() && !out.Panicked?
      ensures Watch(log).legal && MayWrite(Watch(log)) && Watch(log).scaleDown == Some(scaleDown) && (out.Ok? ==> MayUpgrade(Watch(log)))
      ensures out.Ok? && scaleDown ==> Drained(old(Snap()), deployments, statefulSets)
      ensures out.Ok? ==> !KilledSince(apps.gets, |old(apps.gets)|)
      ensures old(Trouble()) <= Trouble() && StorageGoesOn()
      ensures !out.Ok? ==> Accomplished(old(Snap()), out, opts, image, [])
    {
      out, deployments, statefulSets := Ok, [], [];
      if scaleDown {
        var ds, ss, asked;
        out, ds, ss, asked := Drain();
        deployments, statefulSets := ds, ss;
        AllProgressReflexive(daemons.all, image);
      }
    }

    /** A drain that went well does not change what is said of the rollout after it. */
    lemma DrainCameFirst(b: Snapshot, m: Snapshot, out: Outcome, opts: Option<Versions.UpgradeOptions>, image: string, rolled: seq<Rollout.DaemonSet>)
      requires Accomplished(m, out, opts, image, rolled) && m.gets == apps.gets && m.trouble <= Trouble()
      requires m.all == b.all && m.events == b.events && m.judged == b.judged && m.faults == b.faults && m.objects == b.objects
      requires b.gets <= m.gets && !KilledSince(m.gets, |b.gets|) && b.trouble <= m.trouble && b.trace <= m.trace <= volumes.trace
      ensures Accomplished(b, out, opts, image, rolled) && b.trouble <= Trouble()
    {
      if m.trace <= volumes.trace && StillAttached(volumes.trace[|m.trace|..]) {
        AttachedEarlier(volumes.trace, |b.trace|, |m.trace|);
      }
    }

    /** The result is fixed, or the process is gone. */
    method Conclude(out: Outcome)
      requires Valid() && Watch(log).legal && Watch(log).body.None? && Watch(log).restored.None? && !Watch(log).died
      modifies this`log
      ensures Valid() && Watch(log).died == out.Died?
      ensures Watch(log) == old(Watch(log)).(died := out.Died?, body := if out.Died? then None else Some(out))
    {
      if out.Died? {
        Note(ProcessDied);
      } else {
        Note(BodyReturned(out));
      }
    }

    /** The deferred restore. */
    method DeferredRestore(ghost originals: Originals) returns (deployments: seq<Key>, statefulSets: seq<Key>)
      requires Valid() && Pristine(originals, apps.start) && Watch(log).legal && MayRestore(Watch(log))
      modifies this`log, apps
      ensures Valid() && AppsGoOn() && apps.Reread() && old(apps.faults) <= apps.faults
      ensures Watch(log).restored == Some(Failed) ==> apps.faults > old(apps.faults)
      ensures Watch(log) == old(Watch(log)).(restored := Watch(log).restored) && Watch(log).restored.Some?
      ensures Watch(log).restored == Some(Ok) && apps.edits == old(apps.edits) ==> apps.ListsAll(deployments, statefulSets)
      ensures Watch(log).restored == Some(Ok) && OthersDidNot(apps.history, |old(apps.history)|, Down) ==>
                AllBack(originals, deployments + statefulSets)
    {
      ghost var mid := Recorded();
      var out;
      out, deployments, statefulSets := apps.RestoreSharedApps(originals);
      TellChanges(mid, Restore);
      Note(RestoreReturned(out));
    }

    /** Every listed application that still exists and whose count survived is at that count. */
    ghost predicate AllBack(originals: Originals, listed: seq<Key>)
      reads apps
    {
      forall key :: key in listed && key in apps.apps && Survives(originals, apps.history, key) ==>
        Untouched(originals[key], apps.apps[key])
    }

    /** What has become of the applications since `b`. The deferred restore began at `mark`. */
    ghost predicate Treated(b: Snapshot, originals: Originals, deployments: seq<Key>, statefulSets: seq<Key>, mark: nat)
      reads this, apps
    {
      && apps.start == b.start && b.history <= apps.history && b.gets <= apps.gets
      && (forall key :: key in apps.apps && key.kind.Deployment? ==> key in originals && Conserved(originals[key], apps.apps[key]))
      && |b.history| <= mark <= |apps.history|
      && (Watch(log).restored == Some(Ok) && OthersDidNot(apps.history, mark, Down) ==> AllBack(originals, deployments + statefulSets))
      && (Watch(log).restored == Some(Ok) && apps.edits == b.edits ==> apps.ListsAll(deployments, statefulSets))
    }

    /** Everything an upgrade that passed the guards comes to. */
    ghost predicate Accomplished(b: Snapshot, result: Outcome, opts: Option<Versions.UpgradeOptions>, image: string, rolled: seq<Rollout.DaemonSet>)
      reads apps, daemons, volumes, services
    {
      && RolledOut(b, result, opts, image, rolled) && Deaths(b, result, image)
      && FollowFrom(b.objects, result.Ok?) && (result.Ok? ==> services.now.granted)
      && (result.Failed? ==> Excused(b))
    }

    /** An upgrade that was stopped at a guard has changed nothing. */
    ghost predicate NothingDone(b: Snapshot)
      reads apps, daemons, services
    {
      && apps.history == b.history && apps.gets == b.gets && services.now == b.objects
      && StatusesOnly(b.all, daemons.all) && daemons.events == b.events && daemons.judged == b.judged
    }

    /** The upgrade proper with its deferred restore. Whatever happens, short of the death of the process,
        the restore runs last, and its own outcome is not the result. */
    method PastGuards(image: string, opts: Option<Versions.UpgradeOptions>, scaleDown: bool, ghost originals: Originals)
      returns (result: Outcome, rolled: seq<Rollout.DaemonSet>, deployments: seq<Key>, statefulSets: seq<Key>, ghost mark: nat)
      requires Valid() && Pristine(originals, apps.start) && Ready(Watch(log)) && Watch(log).scaleDown == Some(scaleDown)
      modifies this`log, apps, daemons, volumes, services
      ensures Valid() && Finished(log, result) && Watch(log).scaleDown == Some(scaleDown)
      ensures Accomplished(old(Snap()), result, opts, image, rolled)
      ensures Treated(old(Snap()), originals, deployments, statefulSets, mark)
    {
      ghost var ds, ss;
      result, rolled, ds, ss := Body(image, opts, scaleDown);
      deployments, statefulSets, mark := [], [], |apps.history|;
      if scaleDown && !result.Died? {
        ghost var gets := apps.gets;
        deployments, statefulSets := DeferredRestore(originals);
        RestoreKillsNothing(gets, apps.gets, |old(apps.gets)|);
      }
      DeploymentsConserved(originals, apps.start, apps.history);
    }

    /** The upgrade from the guards on, `guards` being how they ended and `b` what there was when the call
        began: only statuses have changed since. */
    method AfterGuards(guards: Outcome, image: string, opts: Option<Versions.UpgradeOptions>, scaleDown: bool,
                       ghost originals: Originals, ghost b: Snapshot)
      returns (result: Outcome, rolled: seq<Rollout.DaemonSet>, deployments: seq<Key>, statefulSets: seq<Key>, ghost mark: nat)
      requires Valid() && Pristine(originals, apps.start) && !guards.Died?
      requires Snap() == b.(all := daemons.all, faults := daemons.faults, trouble := Trouble())
      requires StatusesOnly(b.all, daemons.all) && b.faults <= daemons.faults && b.trouble <= Trouble()
      requires if guards.Ok? then Ready(Watch(log)) && Watch(log).scaleDown == Some(scaleDown) else Early(Watch(log))
      modifies this`log, apps, daemons, volumes, services
      ensures Valid() && Finished(log, result) && Watch(log).scaleDown == if guards.Ok? then Some(scaleDown) else None
      ensures if guards.Ok? then Accomplished(b, result, opts, image, rolled) else NothingDone(b) && result == guards
      ensures Treated(b, originals, deployments, statefulSets, mark)
      ensures old(daemons.faults) <= daemons.faults
    {
      ghost var now := Snap();
      if guards.Ok? {
        result, rolled, deployments, statefulSets, mark := PastGuards(image, opts, scaleDown, originals);
        AccomplishedSince(b, now, result, opts, image, rolled);
      } else {
        result, rolled, deployments, statefulSets, mark := guards, [], [], [], |apps.history|;
        Conclude(result);
        DeploymentsConserved(originals, apps.start, apps.history);
      }
    }

    /** Statuses that changed before do not matter. */
    lemma AccomplishedSince(b: Snapshot, now: Snapshot, result: Outcome, opts: Option<Versions.UpgradeOptions>, image: string, rolled: seq<Rollout.DaemonSet>)
      requires Accomplished(now, result, opts, image, rolled)
      requires now == b.(all := now.all, faults := now.faults, trouble := now.trouble)
      requires StatusesOnly(b.all, now.all) && b.faults <= now.faults && b.trouble <= now.trouble
      ensures Accomplished(b, result, opts, image, rolled)
    {
      StatusesAreProgress(b.all, now.all, image);
      AllProgressCompose(b.all, now.all, daemons.all, image);
      JudgedEarlier(daemons.judged, |b.judged|, b.all, now.all, daemons.namespaces, image);
      PassesEarlier(daemons.events, |b.events|, b.all, now.all, daemons.all, image);
    }

    /** `Upgrade`. The record `log` is that of this call, which began with what `Snap` had then. `guards` is
        how the guards ended, and `faults` counts the listings that had failed by then. */
    method Upgrade(spec: Option<ClusterSpec>, opts: Option<Versions.UpgradeOptions>, w: World, ghost originals: Originals)
      returns (result: Outcome, rolled: seq<Rollout.DaemonSet>, deployments: seq<Key>, statefulSets: seq<Key>,
               guards: Outcome, drain: bool, scaleDown: bool, read: Option<Template>, image: string, ghost faults: nat, ghost mark: nat)
      requires Valid() && Pristine(originals, apps.start)
      modifies this, apps, daemons, volumes, services
      ensures Valid() && first == old(Recorded()) && Finished(log, result)
      ensures Guards(spec, opts, w, old(daemons.all), daemons.namespaces, old(daemons.faults), faults, read, guards, drain, scaleDown)
      ensures old(daemons.faults) <= faults <= daemons.faults && (guards.Ok? ==> spec.Some? && IsImageOf(image, spec.value))
      ensures Watch(log).scaleDown == if guards.Ok? then Some(scaleDown) else None
      ensures if guards.Ok? then Accomplished(old(Snap()), result, opts, image, rolled)
              else NothingDone(old(Snap())) && result == guards
      ensures Treated(old(Snap()), originals, deployments, statefulSets, mark)
    {
      guards, drain, scaleDown, read := Begin(spec, opts, w);
      faults := daemons.faults;
      image := NameImage(spec);
      result, rolled, deployments, statefulSets, mark := AfterGuards(guards, image, opts, scaleDown, originals, old(Snap()));
    }

    /** The image that the request asks for. */
    method NameImage(spec: Option<ClusterSpec>) returns (image: string)
      ensures spec.Some? ==> IsImageOf(image, spec.value)
    {
      image := "";
      if spec.Some? {
        image := spec.value.ociMonImage + ":" + spec.value.ociMonTag;
      }
    }

    /** Opens a record and passes the guards; only statuses change. */
    method Begin(spec: Option<ClusterSpec>, opts: Option<Versions.UpgradeOptions>, w: World)
      returns (out: Outcome, drain: bool, scaleDown: bool, read: Option<Template>)
      requires Valid()
      modifies this`log, this`first, daemons`all, daemons`faults
      ensures Valid() && first == old(Recorded()) && !out.Died?
      ensures Snap() == old(Snap()).(all := daemons.all, faults := daemons.faults, trouble := Trouble())
      ensures StatusesOnly(old(daemons.all), daemons.all) && old(daemons.faults) <= daemons.faults && old(Trouble()) <= Trouble()
      ensures Guards(spec, opts, w, old(daemons.all), daemons.namespaces, old(daemons.faults), daemons.faults, read, out, drain, scaleDown)
      ensures if out.Ok? then Ready(Watch(log)) && Watch(log).scaleDown == Some(scaleDown) else Early(Watch(log))
    {
      Open();
      out, drain, scaleDown, read := AllGuards(spec, opts, w);
    }

    /** Opens a record. */
    ghost method Open()
      requires apps.Valid() && daemons.Valid() && services.Valid()
      modifies this`log, this`first
      ensures Valid() && first == Recorded() && Watch(log) == START
    {
      log, first := [], Recorded();
    }

    /** However the upgrade ended, and even if the process died before it could restore anything: a
        restore that is run afterwards and returns nil brings every listed application back whose count
        survived. */
    method UpgradeThenRestore(spec: Option<ClusterSpec>, opts: Option<Versions.UpgradeOptions>, w: World, ghost originals: Originals)
      returns (result: Outcome, restored: Outcome, listed: seq<Key>, ghost mark: nat)
      requires Valid() && Pristine(originals, apps.start)
      modifies this, apps, daemons, volumes, services
      ensures |old(apps.history)| <= mark <= |apps.history| && !restored.Died? && !restored.Panicked?
      ensures restored.Ok? && OthersDidNot(apps.history, mark, Down) ==> AllBack(originals, listed)
      ensures forall key :: key in apps.apps && key.kind.Deployment? ==>
                key in originals && Conserved(originals[key], apps.apps[key])
    {
      var rolled, deployments, statefulSets, guards, drain, scaleDown, read, image;
      ghost var faults;
      result, rolled, deployments, statefulSets, guards, drain, scaleDown, read, image, faults, mark := Upgrade(spec, opts, w, originals);
      mark := |apps.history|;
      restored, deployments, statefulSets := apps.RestoreSharedApps(originals);
      listed := deployments + statefulSets;
    }
  }

  /** What a trigger recorded holds no pass, and what a wait recorded holds nothing else. */
  lemma PassesComeFromTheWait(wrote: seq<DsEvent>, now: seq<DsEvent>, from: nat)
    requires from <= |wrote| && wrote <= now
    requires forall i :: from <= i < |wrote| ==> wrote[i].Wrote?
    requires forall i :: |wrote| <= i < |now| ==> now[i].Passed?
    ensures PassedSince(now, from) <==> |now| > |wrote|
  {
    if |now| > |wrote| {
      assert now[|wrote|].Passed?;
    }
    if i :| from <= i < |now| && now[i].Passed? {
      assert i < |wrote| ==> now[i] == wrote[i];
    }
  }

  lemma AttachedEarlier(trace: seq<StorageEvent>, from: nat, later: nat)
    requires from <= later <= |trace| && StillAttached(trace[later..])
    ensures StillAttached(trace[from..])
  {
    var es := trace[later..];
    var i :| 0 <= i < |es| && es[i].Polled? && AnyExternal(es[i].truth, es[i].volumes);
    assert trace[from..][later - from + i] == es[i];
  }

  lemma RestoreKillsNothing(before: seq<Read>, now: seq<Read>, from: nat)
    requires from <= |before| && before <= now && forall i :: |before| <= i < |now| ==> now[i].op.Restore?
    ensures KilledSince(now, from) <==> KilledSince(before, from)
  {
    MoreReads(before, now, from);
  }
}
