/** The shared applications on the API server, and the methods of `k8sutils.Instance` that scale
    them down and restore them. Every request may fail, may land and still report an error, and
    interleaves with anything others do. Each method extends the history of landed changes. */
module SharedApps {
  import opened Options
  import opened ReplicaProtocol
  import opened ReplicaStore

  /** The shared applications that use one storage class. */
  datatype ClassUsers = ClassUsers(deployments: seq<Key>, statefulSets: seq<Key>)

  predicate AllOfKind(keys: seq<Key>, kind: Kind) { forall key :: key in keys ==> key.kind == kind }

  predicate KindsAgree(users: map<string, ClassUsers>) {
    forall sc :: sc in users ==>
      AllOfKind(users[sc].deployments, Deployment) && AllOfKind(users[sc].statefulSets, StatefulSet)
  }

  /** What a listing finds, class by class; a class nobody uses may be missing from the map. */
  ghost function DeploymentsOf(users: map<string, ClassUsers>, classes: seq<string>): seq<Key> {
    if classes == [] then []
    else
      var sc := classes[|classes| - 1];
      DeploymentsOf(users, classes[..|classes| - 1]) + if sc in users then users[sc].deployments else []
  }

  ghost function StatefulSetsOf(users: map<string, ClassUsers>, classes: seq<string>): seq<Key> {
    if classes == [] then []
    else
      var sc := classes[|classes| - 1];
      StatefulSetsOf(users, classes[..|classes| - 1]) + if sc in users then users[sc].statefulSets else []
  }

  /** Which applications a listing holds: those of some shared class, as often as classes name them. */
  lemma {:induction false} ListedAre(users: map<string, ClassUsers>, classes: seq<string>, key: Key)
    ensures key in DeploymentsOf(users, classes) <==> exists sc :: sc in classes && sc in users && key in users[sc].deployments
    ensures key in StatefulSetsOf(users, classes) <==> exists sc :: sc in classes && sc in users && key in users[sc].statefulSets
  {
    if classes != [] {
      var rest, last := classes[..|classes| - 1], classes[|classes| - 1];
      ListedAre(users, rest, key);
      assert classes == rest + [last];
    }
  }

  /** One more class adds what it lists, duplicates included. */
  lemma ListedTimes(users: map<string, ClassUsers>, classes: seq<string>, sc: string, key: Key)
    requires sc in users
    ensures Times(DeploymentsOf(users, classes + [sc]), key) == Times(DeploymentsOf(users, classes), key) + Times(users[sc].deployments, key)
    ensures Times(StatefulSetsOf(users, classes + [sc]), key) == Times(StatefulSetsOf(users, classes), key) + Times(users[sc].statefulSets, key)
  {
    assert (classes + [sc])[..|classes|] == classes;
  }

  datatype Fetched = Missing | Broken | Found(app: App)

  /** A read of an application, and what it was for. */
  datatype Read = Read(key: Key, op: Op, got: Fetched)

  /** A scale-down closure that reads this writes into a nil map: it kills the process. */
  ghost predicate Kills(r: Read) { r.op.Down? && r.got.Found? && PlanScaleDown(r.key.kind, r.got.app).Crash? }

  ghost predicate KilledSince(gets: seq<Read>, from: nat) {
    exists i :: from <= i < |gets| && Kills(gets[i])
  }

  /** Everything read since `from` was read for this operation, and is one of these keys. */
  ghost predicate ReadsFor(gets: seq<Read>, from: nat, op: Op, keys: seq<Key>) {
    forall i :: from <= i < |gets| ==> gets[i].op == op && gets[i].key in keys
  }

  /** Exactly a set without annotations, and a deployment without them that is not at 0 already. */
  lemma WhatKills(r: Read)
    ensures Kills(r) <==> r.op.Down? && r.got.Found? && r.got.app.annotations.None? &&
                          (r.key.kind.StatefulSet? || r.got.app.replicas != 0)
  {
    match r.key.kind case Deployment => case StatefulSet =>
  }

  /** A scale-down that returned: how, what it had listed, what the applications and the sharing were like
      at that moment, and whether others had changed the sharing or restored anything meanwhile. */
  datatype Returned = Returned(
    out: Outcome, deployments: seq<Key>, statefulSets: seq<Key>,
    apps: Apps, users: map<string, ClassUsers>, classes: seq<string>, edited: bool, restored: bool)

  /** It did what it is for: it listed every application of a shared class, and all of them were at 0. */
  ghost predicate WellScaled(r: Returned) {
    && r.out.Ok?
    && (!r.edited ==> r.deployments == DeploymentsOf(r.users, r.classes) && r.statefulSets == StatefulSetsOf(r.users, r.classes))
    && (!r.restored ==> forall key :: key in r.deployments + r.statefulSets ==> AtZero(r.apps, key))
  }

  lemma OneMoreRead(before: seq<Read>, now: seq<Read>, from: nat)
    requires from <= |before| && before <= now && |now| == |before| + 1
    ensures KilledSince(now, from) <==> KilledSince(before, from) || Kills(now[|before|])
  {
    if i :| from <= i < |before| && Kills(before[i]) {
      assert Kills(now[i]);
    }
  }

  lemma MoreReads(before: seq<Read>, now: seq<Read>, from: nat)
    requires from <= |before| && before <= now
    ensures KilledSince(now, from) <==> KilledSince(before, from) || KilledSince(now, |before|)
  {
    if i :| from <= i < |before| && Kills(before[i]) {
      assert Kills(now[i]);
    }
  }

  ghost function Times(keys: seq<Key>, key: Key): nat { multiset(keys)[key] }

  /** Talisman scaled a set down at least `Times(keys, key)` times since the history was `before`. */
  ghost predicate Counted(start: Apps, before: seq<Change>, now: seq<Change>, keys: seq<Key>) {
    forall key: Key :: key.kind.StatefulSet? && key in Evolve(start, now) ==>
      OwnDowns(now, key) >= OwnDowns(before, key) + Times(keys, key)
  }

  lemma CountedStep(start: Apps, before: seq<Change>, mid: seq<Change>, now: seq<Change>, keys: seq<Key>, key: Key)
    requires mid <= now && Counted(start, before, mid, keys)
    requires key.kind.StatefulSet? && key in Evolve(start, now) ==> OwnDowns(now, key) > OwnDowns(mid, key)
    ensures Counted(start, before, now, keys + [key])
  {
    forall k: Key | k.kind.StatefulSet? && k in Evolve(start, now)
      ensures OwnDowns(now, k) >= OwnDowns(before, k) + Times(keys + [key], k)
    {
      NeverRecreated(start, mid, now, k);
      OwnDownsGrow(mid, now, k);
    }
  }

  lemma AtZeroOneMore(start: Apps, mid: seq<Change>, now: seq<Change>, from: nat, keys: seq<Key>, n: nat)
    requires n < |keys| && from <= |mid| && mid <= now && AtZero(Evolve(start, now), keys[n])
    requires forall i :: 0 <= i < n ==> WasAtZero(start, mid, from, keys[i])
    ensures forall i :: 0 <= i < n + 1 ==> WasAtZero(start, now, from, keys[i])
  {
    forall i | 0 <= i < n ensures WasAtZero(start, now, from, keys[i]) {
      WasAtZeroKeeps(start, mid, now, from, from, keys[i]);
    }
    WasAtZeroNow(start, now, from, keys[n]);
  }

  lemma ClearedOneMore(start: Apps, mid: seq<Change>, now: seq<Change>, from: nat, keys: seq<Key>, n: nat)
    requires n < |keys| && from <= |mid| && mid <= now && Cleared(Evolve(start, now), keys[n])
    requires forall i :: 0 <= i < n ==> WasCleared(start, mid, from, keys[i])
    ensures forall i :: 0 <= i < n + 1 ==> WasCleared(start, now, from, keys[i])
  {
    forall i | 0 <= i < n ensures WasCleared(start, now, from, keys[i]) {
      WasClearedKeeps(start, mid, now, from, from, keys[i]);
    }
    WasClearedNow(start, now, from, keys[n]);
  }

  /** The deployments were at 0 once, then the sets, and nobody restored anything: all are at 0. */
  lemma AllEndAtZero(start: Apps, listed: seq<Change>, mid: seq<Change>, now: seq<Change>, deployments: seq<Key>, statefulSets: seq<Key>)
    requires listed <= mid <= now && NoneSince(now, |listed|, Restore)
    requires forall key :: key in deployments ==> WasAtZero(start, mid, |listed|, key)
    requires forall key :: key in statefulSets ==> WasAtZero(start, now, |mid|, key)
    ensures forall key :: key in deployments + statefulSets ==> AtZero(Evolve(start, now), key)
  {
    forall key | key in deployments + statefulSets ensures AtZero(Evolve(start, now), key) {
      if key in deployments {
        WasAtZeroKeeps(start, mid, now, |listed|, |listed|, key);
      } else {
        WasAtZeroKeeps(start, now, now, |listed|, |mid|, key);
      }
      var p :| |listed| <= p <= |now| && AtZero(Evolve(start, now[..p]), key);
      ZeroLasts(start, now, p, key);
    }
  }

  lemma AllEndCleared(start: Apps, listed: seq<Change>, mid: seq<Change>, now: seq<Change>, deployments: seq<Key>, statefulSets: seq<Key>)
    requires listed <= mid <= now && NoneSince(now, |listed|, Down)
    requires forall key :: key in deployments ==> WasCleared(start, mid, |listed|, key)
    requires forall key :: key in statefulSets ==> WasCleared(start, now, |mid|, key)
    ensures forall key :: key in deployments + statefulSets ==> Cleared(Evolve(start, now), key)
  {
    forall key | key in deployments + statefulSets ensures Cleared(Evolve(start, now), key) {
      if key in deployments {
        WasClearedKeeps(start, mid, now, |listed|, |listed|, key);
      } else {
        WasClearedKeeps(start, now, now, |listed|, |mid|, key);
      }
      var p :| |listed| <= p <= |now| && Cleared(Evolve(start, now[..p]), key);
      ClearedLasts(start, now, p, key);
    }
  }

  lemma KindsOfSum(a: seq<Key>, b: seq<Key>, kind: Kind)
    requires AllOfKind(a, kind) && AllOfKind(b, kind)
    ensures AllOfKind(a + b, kind)
  {
  }

  lemma ListingNext(users: map<string, ClassUsers>, classes: seq<string>, n: nat)
    requires n < |classes|
    ensures DeploymentsOf(users, classes[..n + 1]) ==
      DeploymentsOf(users, classes[..n]) + if classes[n] in users then users[classes[n]].deployments else []
    ensures StatefulSetsOf(users, classes[..n + 1]) ==
      StatefulSetsOf(users, classes[..n]) + if classes[n] in users then users[classes[n]].statefulSets else []
  {
    assert classes[..n + 1][..n] == classes[..n];
  }

  lemma RestoreClears(kind: Kind, a: App)
    requires PlanRestore(a).Write?
    ensures Memory(Apply(kind, Restore, a)) == None
  {
    SerialisedKeepsMemory(PlanRestore(a).app.annotations);
  }

  class AppServer {
    var apps: Apps
    var users: map<string, ClassUsers>
    var sharedClasses: seq<string>
    ghost var start: Apps            // the applications when the history was opened
    ghost var history: seq<Change>
    ghost var gets: seq<Read>       // what talisman has read, in order
    ghost var returned: seq<Returned> // the scale-downs that returned
    ghost var faults: nat            // requests that reported an error
    ghost var edits: nat             // how often others changed which applications are shared

    ghost predicate Valid()
      reads this
    {
      apps == Evolve(start, history) && AllLandOn(start, history) && KindsAgree(users)
    }

    constructor (apps: Apps)
      ensures Valid() && this.apps == apps && start == apps && history == []
    {
      this.apps, users, sharedClasses := apps, map[], [];
      start, history, gets, returned, faults, edits := apps, [], [], [], 0, 0;
    }

    /** What is shared is what it was, unless others have changed that. */
    twostate predicate SharingKept()
      reads this
    {
      old(edits) <= edits && (edits == old(edits) ==> users == old(users) && sharedClasses == old(sharedClasses))
    }

    /** The history goes on from where it was, with nothing of talisman's but this operation. */
    twostate predicate Continues(op: Op)
      reads this
    {
      Valid() && start == old(start) && old(history) <= history && OwnOnly(history, |old(history)|, op) && SharingKept()
    }

    /** Nothing of talisman's at all: others acted. */
    twostate predicate OthersActed()
      reads this
    {
      Valid() && start == old(start) && old(history) <= history && Succeeds(old(apps), apps) && SharingKept() &&
      forall i :: |old(history)| <= i < |history| ==> history[i].Removed? || history[i].actor.Other?
    }

    /** A change of one application lands. */
    method Record(c: Change)
      requires Valid() && LandsOn(apps, c)
      modifies this`apps, this`history
      ensures Valid() && history == old(history) + [c] && apps == After(old(apps), c)
    {
      EvolveExtends(start, history, c);
      apps := After(apps, c);
      history := history + [c];
    }

    /** Everybody else gets any number of turns: changing or removing applications, and changing
        which applications use which storage classes. */
    method Interfere()
      requires Valid()
      modifies this`apps, this`users, this`sharedClasses, this`history, this`gets, this`edits, this`faults
      ensures OthersActed() && gets == old(gets) && faults == old(faults)
    {
      var turns: nat := *;
      while turns > 0
        invariant OthersActed() && gets == old(gets) && faults == old(faults)
      {
        turns := turns - 1;
        if * {
          var c: Change := *;
          if LandsOn(apps, c) && (c.Changed? ==> c.actor.Other?) {
            Record(c);
          }
        } else {
          var u: map<string, ClassUsers> := *;
          if KindsAgree(u) { users := u; }
          sharedClasses := *;
          edits := edits + 1;
        }
      }
    }

    // -------------------------------------------------------------- requests

    /** Reads one object; others may have acted first, and the call may fail. */
    method Get(key: Key, ghost op: Op) returns (r: Fetched)
      requires Valid()
      modifies this`apps, this`users, this`sharedClasses, this`history, this`gets, this`edits, this`faults
      ensures OthersActed() && gets == old(gets) + [Read(key, op, r)]
      ensures faults == old(faults) + if r.Broken? then 1 else 0
      ensures r.Missing? ==> key !in apps
      ensures r.Found? ==> key in apps && r.app == apps[key]
    {
      Interfere();
      if * {
        r := Broken;
        faults := faults + 1;
      } else if key in apps {
        r := Found(apps[key]);
      } else {
        r := Missing;
      }
      gets := gets + [Read(key, op, r)];
    }

    /** Sends the copy that `op` makes of what was read. Others may act first; the request may be
        refused because the object has moved on, be lost, or land; a landed request may still
        report an error. */
    method Update(key: Key, op: Op, copy: App) returns (ok: bool)
      requires Valid() && !op.Touch? && Lands(key.kind, op, copy) && key in apps && copy == apps[key]
      modifies this`apps, this`users, this`sharedClasses, this`history, this`gets, this`edits, this`faults
      ensures Continues(op) && gets == old(gets) && faults == old(faults) + if ok then 0 else 1
      ensures ok ==> key in apps && apps[key] == Apply(key.kind, op, copy)
      ensures ok && op.Down? ==> OwnDowns(history, key) > OwnDowns(old(history), key)
    {
      Interfere();
      ok := false;
      if key in apps && apps[key].version == copy.version {
        if * {
          OwnDownsGrow(old(history), history, key);
          RecordOwn(key, op);
          ok := *;
        }
      }
      if !ok {
        faults := faults + 1;
      }
    }

    /** A change of talisman's own lands. */
    method RecordOwn(key: Key, op: Op)
      requires Valid() && key in apps && Lands(key.kind, op, apps[key])
      modifies this`apps, this`history
      ensures Valid() && history == old(history) + [Changed(Self, key, op)]
      ensures key in apps && apps[key] == Apply(key.kind, op, old(apps)[key])
      ensures op.Down? ==> OwnDowns(history, key) == OwnDowns(old(history), key) + 1
    {
      OwnDownsExtend(history, Changed(Self, key, op), key);
      Record(Changed(Self, key, op));
    }

    /** The object on the server is what the operation makes of what was read, and keeps the rest of it. */
    ghost predicate Became(op: Op, r: Read)
      reads this
    {
      && r.key in apps && r.got.Found?
      && apps[r.key] == Apply(r.key.kind, op, r.got.app) && SameRest(r.got.app, apps[r.key])
    }

    // -------------------------------------------------------------- scaling down

    /** One run of the scale-down closure. */
    method TryScaleDown(key: Key) returns (a: Attempt)
      requires Valid()
      modifies this`apps, this`users, this`sharedClasses, this`history, this`gets, this`edits, this`faults
      ensures Continues(Down)
      ensures |gets| == |old(gets)| + 1 && old(gets) <= gets && ReadsFor(gets, |old(gets)|, Down, [key])
      ensures a.Panic? <==> Kills(gets[|old(gets)|])
      ensures a.Panic? ==> key in apps && PlanScaleDown(key.kind, apps[key]).Crash?
      ensures faults == old(faults) + (if a.Again? then 1 else 0) && !a.Abort?
      ensures a.Finish? && key in apps ==> Became(Down, gets[|old(gets)|])
      ensures a.Finish? ==> AtZero(apps, key)
      ensures a.Finish? && key.kind.StatefulSet? && key in apps ==> OwnDowns(history, key) > OwnDowns(old(history), key)
    {
      var r := Get(key, Down);
      match r {
        case Missing => a := Finish;
        case Broken => a := Again;
        case Found(copy) =>
          OwnOpKeepsTheRest(key.kind, Down, copy);
          if key.kind.Deployment? && copy.replicas == 0 {
            a := Finish;
          } else if copy.annotations.None? {
            a := Panic;
          } else {
            DownEffect(key.kind, copy);
            OwnDownsGrow(old(history), history, key);
            var ok := Update(key, Down, copy);
            a := if ok then Finish else Again;
          }
      }
    }

    /** The reads of a scale-down: of these keys only, and it dies exactly when one of them kills. */
    twostate predicate Dies(out: Outcome, keys: seq<Key>)
      reads this
    {
      && old(gets) <= gets && ReadsFor(gets, |old(gets)|, Down, keys)
      && (out.Died? <==> KilledSince(gets, |old(gets)|))
      && (out.Died? ==> exists key :: key in keys && key in apps && PlanScaleDown(key.kind, apps[key]).Crash?)
      && !out.Panicked?
    }

    /** The retried scale-down of one application: any number of attempts, then a timeout. An
        attempt follows another only after a request that failed. */
    method ScaleDownOne(key: Key) returns (out: Outcome)
      requires Valid()
      modifies this`apps, this`users, this`sharedClasses, this`history, this`gets, this`edits, this`faults
      ensures Continues(Down) && Dies(out, [key]) && old(faults) <= faults && (out.Failed? ==> faults > old(faults))
      ensures |gets| <= |old(gets)| + faults - old(faults) + 1
      ensures out.Ok? ==> AtZero(apps, key)
      ensures out.Ok? && key.kind.StatefulSet? && key in apps ==> OwnDowns(history, key) > OwnDowns(old(history), key)
    {
      var attempts: nat := *;
      if attempts == 0 { attempts := 1; }
      out := Failed;
      while attempts > 0 && out.Failed?
        invariant Continues(Down) && Dies(out, [key]) && old(faults) <= faults
        invariant attempts == 0 && out.Failed? ==> faults > old(faults)
        invariant |gets| <= |old(gets)| + faults - old(faults) + if out.Failed? then 0 else 1
        invariant out.Ok? ==> AtZero(apps, key)
        invariant out.Ok? && key.kind.StatefulSet? && key in apps ==> OwnDowns(history, key) > OwnDowns(old(history), key)
        decreases attempts
      {
        attempts := attempts - 1;
        OwnDownsGrow(old(history), history, key);
        ghost var before := gets;
        var a := TryScaleDown(key);
        OneMoreRead(before, gets, |old(gets)|);
        match a {
          case Finish => out := Ok;
          case Panic => out := Died;
          case _ =>
        }
      }
    }

    /** The first `n` of these applications have been scaled down since the history was `h`. */
    ghost predicate ScaledSoFar(h: seq<Change>, keys: seq<Key>, n: nat)
      reads this
    {
      && n <= |keys| && h <= history
      && (forall i :: 0 <= i < n ==> WasAtZero(start, history, |h|, keys[i]))
      && Counted(start, h, history, keys[..n])
    }

    method ScaleDownAll(keys: seq<Key>) returns (out: Outcome)
      requires Valid()
      modifies this`apps, this`users, this`sharedClasses, this`history, this`gets, this`edits, this`faults
      ensures Continues(Down) && Dies(out, keys) && old(faults) <= faults && (out.Failed? ==> faults > old(faults))
      ensures out.Ok? ==> forall key :: key in keys ==> WasAtZero(start, history, |old(history)|, key)
      ensures out.Ok? ==> Counted(start, old(history), history, keys)
    {
      out := Ok;
      var n := 0;
      while n < |keys| && out.Ok?
        invariant n <= |keys|
        invariant Continues(Down) && Dies(out, keys) && old(faults) <= faults && (out.Failed? ==> faults > old(faults))
        invariant out.Ok? ==> ScaledSoFar(old(history), keys, n)
        decreases |keys| - n
      {
        ghost var before := gets;
        out := ScaleDownNext(keys, n, old(history));
        MoreReads(before, gets, |old(gets)|);
        n := n + 1;
      }
      assert out.Ok? ==> keys[..n] == keys;
    }

    /** One round of the loop. */
    method ScaleDownNext(keys: seq<Key>, n: nat, ghost h: seq<Change>) returns (out: Outcome)
      requires Valid() && n < |keys| && ScaledSoFar(h, keys, n)
      modifies this`apps, this`users, this`sharedClasses, this`history, this`gets, this`edits, this`faults
      ensures Continues(Down) && Dies(out, [keys[n]]) && old(faults) <= faults && (out.Failed? ==> faults > old(faults))
      ensures out.Ok? ==> ScaledSoFar(h, keys, n + 1)
    {
      ghost var mid := history;
      out := ScaleDownOne(keys[n]);
      if out.Ok? {
        AtZeroOneMore(start, mid, history, |h|, keys, n);
        CountedStep(start, h, mid, history, keys[..n], keys[n]);
        assert keys[..n + 1] == keys[..n] + [keys[n]];
      }
    }

    // -------------------------------------------------------------- restoring

    /** An application whose saved count is no number. */
    ghost predicate SomeUnreadable()
      reads this
    {
      exists key :: key in apps && PlanRestore(apps[key]).GiveUp?
    }

    /** A restore fails only when a request does, or when a saved count is no number. */
    twostate predicate FailsForAReason(out: Outcome)
      reads this
    {
      old(faults) <= faults && (out.Failed? ==> faults > old(faults) || SomeUnreadable())
    }

    /** Only read in order to restore, which never kills. */
    twostate predicate Reread()
      reads this
    {
      old(gets) <= gets && (forall i :: |old(gets)| <= i < |gets| ==> gets[i].op.Restore?)
    }

    /** One run of the restore closure. */
    method TryRestore(key: Key) returns (a: Attempt)
      requires Valid()
      modifies this`apps, this`users, this`sharedClasses, this`history, this`gets, this`edits, this`faults
      ensures Continues(Restore) && Reread() && !a.Panic?
      ensures |gets| == |old(gets)| + 1 && gets[|old(gets)|].key == key
      ensures faults == old(faults) + if a.Again? then 1 else 0
      ensures a.Abort? ==> key in apps && PlanRestore(apps[key]).GiveUp?
      ensures a.Finish? && key in apps ==> Became(Restore, gets[|old(gets)|])
      ensures a.Finish? ==> Cleared(apps, key)
    {
      var r := Get(key, Restore);
      match r {
        case Missing => a := Finish;
        case Broken => a := Again;
        case Found(copy) =>
          OwnOpKeepsTheRest(key.kind, Restore, copy);
          match PlanRestore(copy) {
            case Done => a := Finish;
            case Write(_) =>
              RestoreClears(key.kind, copy);
              var ok := Update(key, Restore, copy);
              a := if ok then Finish else Again;
            case _ => a := Abort;
          }
      }
    }

    /** The retried restore of one application, with the same rule; a saved count that is no number ends it. */
    method RestoreOne(key: Key) returns (out: Outcome)
      requires Valid()
      modifies this`apps, this`users, this`sharedClasses, this`history, this`gets, this`edits, this`faults
      ensures Continues(Restore) && Reread() && FailsForAReason(out)
      ensures |gets| <= |old(gets)| + faults - old(faults) + 1
      ensures out.Ok? ==> Cleared(apps, key)
      ensures !out.Panicked? && !out.Died?
    {
      var attempts: nat := *;
      if attempts == 0 { attempts := 1; }
      out := Failed;
      while attempts > 0 && out.Failed?
        invariant Continues(Restore) && Reread() && old(faults) <= faults
        invariant attempts == 0 && out.Failed? ==> faults > old(faults) || SomeUnreadable()
        invariant |gets| <= |old(gets)| + faults - old(faults) + if out.Failed? && attempts > 0 then 0 else 1
        invariant out.Ok? ==> Cleared(apps, key)
        invariant !out.Panicked? && !out.Died?
        decreases attempts
      {
        attempts := attempts - 1;
        var a := TryRestore(key);
        match a {
          case Finish => out := Ok;
          case Abort => attempts := 0;
          case _ =>
        }
      }
    }

    method RestoreAll(keys: seq<Key>) returns (out: Outcome)
      requires Valid()
      modifies this`apps, this`users, this`sharedClasses, this`history, this`gets, this`edits, this`faults
      ensures Continues(Restore) && Reread() && FailsForAReason(out)
      ensures out.Ok? ==> forall key :: key in keys ==> WasCleared(start, history, |old(history)|, key)
      ensures !out.Panicked? && !out.Died?
    {
      out := Ok;
      var n := 0;
      while n < |keys| && out.Ok?
        invariant n <= |keys|
        invariant Continues(Restore) && Reread() && FailsForAReason(out)
        invariant out.Ok? ==> forall i :: 0 <= i < n ==> WasCleared(start, history, |old(history)|, keys[i])
        invariant !out.Panicked? && !out.Died?
        decreases |keys| - n
      {
        ghost var mid := history;
        out := RestoreOne(keys[n]);
        if out.Ok? {
          ClearedOneMore(start, mid, history, |old(history)|, keys, n);
        }
        n := n + 1;
      }
    }

    // -------------------------------------------------------------- entry points

    /** `GetPXSharedSCs`: the shared storage classes. */
    method GetPXSharedSCs() returns (ok: bool, classes: seq<string>)
      requires Valid()
      modifies this`apps, this`users, this`sharedClasses, this`history, this`gets, this`edits, this`faults
      ensures OthersActed() && gets == old(gets) && faults == old(faults) + if ok then 0 else 1
      ensures ok ==> classes == sharedClasses
    {
      Interfere();
      ok, classes := *, [];
      if ok {
        classes := sharedClasses;
      } else {
        faults := faults + 1;
      }
    }

    /** The applications that use one storage class. */
    method GetUsers(sc: string) returns (ok: bool, deployments: seq<Key>, statefulSets: seq<Key>)
      requires Valid()
      modifies this`apps, this`users, this`sharedClasses, this`history, this`gets, this`edits, this`faults
      ensures OthersActed() && gets == old(gets) && faults == old(faults) + if ok then 0 else 1
      ensures AllOfKind(deployments, Deployment) && AllOfKind(statefulSets, StatefulSet)
      ensures deployments == (if sc in users then users[sc].deployments else [])
      ensures statefulSets == (if sc in users then users[sc].statefulSets else [])
    {
      Interfere();
      deployments, statefulSets := [], [];
      if sc in users {
        deployments, statefulSets := users[sc].deployments, users[sc].statefulSets;
      }
      ok := *;
      if !ok {
        faults := faults + 1;
      }
    }

    /** `GetPXSharedApps`: the users of every shared storage class, class by class. An application
        that uses two shared classes is listed twice. */
    method GetPXSharedApps() returns (ok: bool, deployments: seq<Key>, statefulSets: seq<Key>)
      requires Valid()
      modifies this`apps, this`users, this`sharedClasses, this`history, this`gets, this`edits, this`faults
      ensures OthersActed() && gets == old(gets) && faults == old(faults) + if ok then 0 else 1
      ensures AllOfKind(deployments, Deployment) && AllOfKind(statefulSets, StatefulSet)
      ensures ok && edits == old(edits) ==> ListsAll(deployments, statefulSets)
    {
      deployments, statefulSets := [], [];
      var classes;
      ok, classes := GetPXSharedSCs();
      var n := 0;
      while n < |classes| && ok
        invariant n <= |classes| && OthersActed() && gets == old(gets) && faults == old(faults) + if ok then 0 else 1
        invariant AllOfKind(deployments, Deployment) && AllOfKind(statefulSets, StatefulSet)
        invariant ok && edits == old(edits) ==> classes == sharedClasses
        invariant edits == old(edits) ==> deployments == DeploymentsOf(users, classes[..n])
        invariant edits == old(edits) ==> statefulSets == StatefulSetsOf(users, classes[..n])
        decreases |classes| - n
      {
        var ds, ss;
        ok, ds, ss := GetUsers(classes[n]);
        ListingNext(users, classes, n);
        KindsOfSum(deployments, ds, Deployment);
        KindsOfSum(statefulSets, ss, StatefulSet);
        deployments, statefulSets := deployments + ds, statefulSets + ss;
        n := n + 1;
      }
      assert n == |classes| ==> classes[..n] == classes;
    }

    /** The two lists hold every application that uses a shared class. */
    ghost predicate ListsAll(deployments: seq<Key>, statefulSets: seq<Key>)
      reads this
    {
      deployments == DeploymentsOf(users, sharedClasses) && statefulSets == StatefulSetsOf(users, sharedClasses)
    }

    /** The listing, the deployments, then the sets. */
    method ScaleListedApps() returns (out: Outcome, deployments: seq<Key>, statefulSets: seq<Key>)
      requires Valid()
      modifies this`apps, this`users, this`sharedClasses, this`history, this`gets, this`edits, this`faults
      ensures Continues(Down) && Dies(out, deployments + statefulSets)
      ensures old(faults) <= faults && (out.Failed? ==> faults > old(faults))
      ensures AllOfKind(deployments, Deployment) && AllOfKind(statefulSets, StatefulSet)
      ensures out.Ok? && OthersDidNot(history, |old(history)|, Restore) ==>
                forall key :: key in deployments + statefulSets ==> AtZero(apps, key)
      ensures out.Ok? ==> Counted(start, old(history), history, statefulSets)
      ensures out.Ok? && edits == old(edits) ==> ListsAll(deployments, statefulSets)
    {
      var ok;
      ok, deployments, statefulSets := GetPXSharedApps();
      out := Failed;
      if ok {
        ghost var listed := history;
        out := ScaleDownAll(deployments);
        ghost var mid, read := history, gets;
        if out.Ok? {
          out := ScaleDownAll(statefulSets);
          MoreReads(read, gets, |old(gets)|);
          if out.Ok? {
            CountedWiden(start, old(history), mid, history, statefulSets);
            if OthersDidNot(history, |old(history)|, Restore) {
              AllEndAtZero(start, listed, mid, history, deployments, statefulSets);
            }
          }
        }
      }
    }

    /** When it returns nil, every listed application is at 0 unless somebody restored it, and
        every listed set was scaled down once per listing. */
    method ScaleSharedAppsToZero() returns (out: Outcome, deployments: seq<Key>, statefulSets: seq<Key>)
      requires Valid()
      modifies this
      ensures Continues(Down) && Dies(out, deployments + statefulSets)
      ensures old(faults) <= faults && (out.Failed? ==> faults > old(faults))
      ensures (forall key :: key in deployments ==> key.kind.Deployment?) && (forall key :: key in statefulSets ==> key.kind.StatefulSet?)
      ensures out.Ok? && OthersDidNot(history, |old(history)|, Restore) ==>
                forall key :: key in deployments + statefulSets ==> AtZero(apps, key)
      ensures out.Ok? ==> Counted(start, old(history), history, statefulSets)
      ensures out.Ok? && edits == old(edits) ==> ListsAll(deployments, statefulSets)
      ensures Records(out, deployments, statefulSets)
    {
      ghost var before, from := edits, |history|;
      out, deployments, statefulSets := ScaleListedApps();
      if !out.Died? {
        returned := returned + [Returned(out, deployments, statefulSets, apps, users, sharedClasses,
                                         edits != before, !OthersDidNot(history, from, Restore))];
      }
    }

    /** A scale-down is recorded when it returns, with what is true then. */
    twostate predicate Records(out: Outcome, deployments: seq<Key>, statefulSets: seq<Key>)
      reads this
    {
      if out.Died? then returned == old(returned)
      else
        && |returned| == |old(returned)| + 1 && old(returned) <= returned
        && returned[|old(returned)|] == Returned(out, deployments, statefulSets, apps, users, sharedClasses,
                                                 edits != old(edits), !OthersDidNot(history, |old(history)|, Restore))
        && (out.Ok? ==> WellScaled(returned[|old(returned)|]))
    }

    /** When it returns nil and nobody scaled down behind its back, no listed application has a
        saved count left. */
    method RestoreScaledAppsReplicas() returns (out: Outcome, deployments: seq<Key>, statefulSets: seq<Key>)
      requires Valid()
      modifies this`apps, this`users, this`sharedClasses, this`history, this`gets, this`edits, this`faults
      ensures Continues(Restore) && Reread() && FailsForAReason(out)
      ensures AllOfKind(deployments, Deployment) && AllOfKind(statefulSets, StatefulSet)
      ensures !out.Panicked? && !out.Died?
      ensures out.Ok? && OthersDidNot(history, |old(history)|, Down) ==>
                forall key :: key in deployments + statefulSets ==> Cleared(apps, key)
      ensures out.Ok? && edits == old(edits) ==> ListsAll(deployments, statefulSets)
    {
      var ok;
      ok, deployments, statefulSets := GetPXSharedApps();
      out := Failed;
      if ok {
        ghost var listed := history;
        out := RestoreAll(deployments);
        ghost var mid := history;
        if out.Ok? {
          out := RestoreAll(statefulSets);
          if out.Ok? {
            if OthersDidNot(history, |old(history)|, Down) {
              AllEndCleared(start, listed, mid, history, deployments, statefulSets);
            }
          }
        }
      }
    }

    /** The recovery command: at any point of any history, a restore that returns nil puts every
        listed application whose count survived back to its original count, with nothing saved. */
    method RestoreSharedApps(ghost originals: Originals) returns (out: Outcome, deployments: seq<Key>, statefulSets: seq<Key>)
      requires Valid() && Pristine(originals, start)
      modifies this`apps, this`users, this`sharedClasses, this`history, this`gets, this`edits, this`faults
      ensures Continues(Restore) && Reread() && old(faults) <= faults && (out.Failed? ==> faults > old(faults))
      ensures (forall key :: key in deployments ==> key.kind.Deployment?) && (forall key :: key in statefulSets ==> key.kind.StatefulSet?)
      ensures !out.Panicked? && !out.Died?
      ensures forall key :: key in apps && key.kind.Deployment? ==> key in originals && Conserved(originals[key], apps[key])
      ensures out.Ok? && OthersDidNot(history, |old(history)|, Down) ==>
                forall key :: key in deployments + statefulSets && key in apps && Survives(originals, history, key) ==>
                  Untouched(originals[key], apps[key])
      ensures out.Ok? && edits == old(edits) ==> ListsAll(deployments, statefulSets)
    {
      out, deployments, statefulSets := RestoreScaledAppsReplicas();
      forall key | key in apps ensures !PlanRestore(apps[key]).GiveUp? {
        RestoreNeverGivesUp(originals, start, history, key);
      }
      DeploymentsConserved(originals, start, history);
      forall key | key in apps && Survives(originals, history, key) && Cleared(apps, key)
        ensures Untouched(originals[key], apps[key])
      {
        StoreConservation(originals, start, history, key);
        SavedTextIsNotEmpty(originals[key], apps[key]);
      }
    }
  }

  /** The history of one scale-down of each of these applications. */
  ghost function DownsOf(keys: seq<Key>): seq<Change> {
    if keys == [] then [] else DownsOf(keys[..|keys| - 1]) + [Changed(Self, keys[|keys| - 1], Down)]
  }

  ghost predicate ReadyToScale(start: Apps, keys: seq<Key>) {
    && (forall i, j :: 0 <= i < j < |keys| ==> keys[i] != keys[j])
    && forall key :: key in keys ==>
         key.kind.Deployment? && key in start && start[key].annotations.Some? && start[key].replicas != 0
  }

  /** These applications are at 0 with their counts saved, and all others are as they were. */
  ghost predicate ScaledOnly(originals: Originals, start: Apps, now: Apps, keys: seq<Key>) {
    && now.Keys == start.Keys
    && (forall key :: key in start && key !in keys ==> now[key] == start[key])
    && (forall key :: key in keys ==> key in now && key in originals && ScaledDown(originals[key], now[key]))
  }

  lemma ScaledOneMore(originals: Originals, start: Apps, now: Apps, keys: seq<Key>, key: Key)
    requires Pristine(originals, start) && ScaledOnly(originals, start, now, keys) && key !in keys
    requires key.kind.Deployment? && key in start && start[key].annotations.Some? && start[key].replicas != 0
    ensures var c := Changed(Self, key, Down);
      LandsOn(now, c) && ScaledOnly(originals, start, After(now, c), keys + [key])
  {
    OneDownLands(originals[key], now, key);
  }

  lemma {:induction false} DownsLand(originals: Originals, start: Apps, keys: seq<Key>)
    requires Pristine(originals, start) && ReadyToScale(start, keys)
    ensures AllLandOn(start, DownsOf(keys)) && ScaledOnly(originals, start, Evolve(start, DownsOf(keys)), keys)
  {
    if keys != [] {
      var front, last := keys[..|keys| - 1], keys[|keys| - 1];
      assert keys == front + [last] && last !in front;
      DownsLand(originals, start, front);
      ScaledOneMore(originals, start, Evolve(start, DownsOf(front)), front, last);
      EvolveExtends(start, DownsOf(front), Changed(Self, last, Down));
    }
  }

  lemma OneDownLands(original: int, apps: Apps, key: Key)
    requires key.kind.Deployment? && key in apps && Untouched(original, apps[key])
    requires apps[key].annotations.Some? && apps[key].replicas != 0
    ensures var c := Changed(Self, key, Down);
      && LandsOn(apps, c) && After(apps, c).Keys == apps.Keys && ScaledDown(original, After(apps, c)[key])
      && forall k :: k in apps && k != key ==> After(apps, c)[k] == apps[k]
  {
    DownEffect(Deployment, apps[key]);
  }

  /** The scale-down that dies: the deployments come first and all of them are at 0, with their counts
      saved, when a set without annotations is read. No deferred restore runs, but a later one brings
      every deployment back. */
  lemma {:induction false} DeathStrandsTheDeployments(originals: Originals, start: Apps, deployments: seq<Key>, next: Key)
    requires Pristine(originals, start) && ReadyToScale(start, deployments)
    requires next.kind.StatefulSet? && next in start && start[next].annotations.None?
    ensures var now := Evolve(start, DownsOf(deployments));
      && AllLandOn(start, DownsOf(deployments)) && ScaledOnly(originals, start, now, deployments)
      && Kills(Read(next, Down, Found(now[next])))
      && (forall key :: key in deployments ==> Untouched(originals[key], Apply(Deployment, Restore, now[key])))
  {
    var now := Evolve(start, DownsOf(deployments));
    DownsLand(originals, start, deployments);
    forall key | key in deployments ensures Untouched(originals[key], Apply(Deployment, Restore, now[key])) {
      RestoreBringsBack(Deployment, originals[key], now[key]);
    }
    assert next !in deployments;
  }

  /** One scale-down call that returns nil, with no fault and nobody else at work, already loses the
      count of a set that is listed under two shared storage classes. */
  lemma DuplicateListingForgets(originals: Originals, start: Apps, history: seq<Change>, statefulSets: seq<Key>, key: Key)
    requires Pristine(originals, start) && AllLandOn(start, history) && NoneSince(history, 0, Restore)
    requires Counted(start, [], history, statefulSets) && Times(statefulSets, key) >= 2
    requires key.kind.StatefulSet? && key in Evolve(start, history) && key in originals && originals[key] != 0
    ensures !Conserved(originals[key], Evolve(start, history)[key])
  {
    TwoOwnDownsAreTooMany(history, key);
    StoreConservation(originals, start, history, key);
  }

  lemma CountedWiden(start: Apps, before: seq<Change>, mid: seq<Change>, now: seq<Change>, keys: seq<Key>)
    requires before <= mid && Counted(start, mid, now, keys)
    ensures Counted(start, before, now, keys)
  {
    forall key: Key | key.kind.StatefulSet? && key in Evolve(start, now)
      ensures OwnDowns(now, key) >= OwnDowns(before, key) + Times(keys, key)
    {
      OwnDownsGrow(before, mid, key);
    }
  }
}
