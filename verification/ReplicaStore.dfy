/** Histories of landed changes over the whole set of shared applications, and the conservation
    theorems lifted from one object to the store. */
module ReplicaStore {
  import opened Options
  import opened Decimal
  import opened ReplicaProtocol

  type Apps = map<Key, App>

  /** Who made a change: the talisman process under study, or anyone else. */
  datatype Actor = Self | Other

  datatype Change = Changed(actor: Actor, key: Key, op: Op) | Removed(key: Key)

  predicate LandsOn(apps: Apps, c: Change) {
    c.key in apps && (c.Changed? ==> Lands(c.key.kind, c.op, apps[c.key]))
  }

  function After(apps: Apps, c: Change): Apps {
    if c.key !in apps then apps
    else match c
      case Changed(_, key, op) => apps[key := Apply(key.kind, op, apps[key])]
      case Removed(key) => apps - {key}
  }

  function Evolve(apps: Apps, cs: seq<Change>): Apps {
    if cs == [] then apps else After(Evolve(apps, cs[..|cs| - 1]), cs[|cs| - 1])
  }

  ghost predicate AllLandOn(apps: Apps, cs: seq<Change>) {
    cs == [] ||
    (AllLandOn(apps, cs[..|cs| - 1]) && LandsOn(Evolve(apps, cs[..|cs| - 1]), cs[|cs| - 1]))
  }

  /** The operations that a history performed on one object. */
  function OpsOn(key: Key, cs: seq<Change>): seq<Op> {
    if cs == [] then []
    else
      var rest := OpsOn(key, cs[..|cs| - 1]);
      var c := cs[|cs| - 1];
      if c.Changed? && c.key == key then rest + [c.op] else rest
  }

  /** Objects do not interfere: each evolves by its own operations alone. */
  lemma {:induction false} OneObject(apps: Apps, cs: seq<Change>, key: Key)
    requires AllLandOn(apps, cs) && key in Evolve(apps, cs)
    ensures key in apps
    ensures Evolve(apps, cs)[key] == Replay(key.kind, apps[key], OpsOn(key, cs))
    ensures AllLand(key.kind, apps[key], OpsOn(key, cs))
  {
    if cs != [] {
      var before, c := cs[..|cs| - 1], cs[|cs| - 1];
      OneObject(apps, before, key);
      if c.Changed? && c.key == key {
        var ops := OpsOn(key, before);
        assert (ops + [c.op])[..|ops|] == ops;
      }
    }
  }

  lemma EvolveExtends(apps: Apps, cs: seq<Change>, c: Change)
    ensures Evolve(apps, cs + [c]) == After(Evolve(apps, cs), c)
    ensures AllLandOn(apps, cs + [c]) <==> AllLandOn(apps, cs) && LandsOn(Evolve(apps, cs), c)
    ensures forall key :: OpsOn(key, cs + [c]) ==
                            if c.Changed? && c.key == key then OpsOn(key, cs) + [c.op] else OpsOn(key, cs)
  {
    assert (cs + [c])[..|cs|] == cs;
  }

  lemma {:induction false} EvolveConcat(apps: Apps, cs: seq<Change>, ds: seq<Change>)
    ensures Evolve(apps, cs + ds) == Evolve(Evolve(apps, cs), ds)
    ensures AllLandOn(apps, cs + ds) <==> AllLandOn(apps, cs) && AllLandOn(Evolve(apps, cs), ds)
  {
    if ds == [] {
      assert cs + ds == cs;
    } else {
      var front, d := ds[..|ds| - 1], ds[|ds| - 1];
      EvolveConcat(apps, cs, front);
      assert cs + ds == (cs + front) + [d];
      EvolveExtends(apps, cs + front, d);
    }
  }

  lemma {:induction false} OpsAreThose(key: Key, cs: seq<Change>, op: Op)
    requires op in OpsOn(key, cs)
    ensures exists i :: 0 <= i < |cs| && cs[i].Changed? && cs[i].key == key && cs[i].op == op
  {
    var before, c := cs[..|cs| - 1], cs[|cs| - 1];
    if op in OpsOn(key, before) {
      OpsAreThose(key, before, op);
      var i :| 0 <= i < |before| && before[i].Changed? && before[i].key == key && before[i].op == op;
      assert cs[i] == before[i];
    }
  }

  /** Every object that nobody else wrote to has, after any history, all it had but for its count and its
      saved count. */
  lemma TheRestIsKept(apps: Apps, cs: seq<Change>, key: Key)
    requires AllLandOn(apps, cs) && key in Evolve(apps, cs)
    requires forall i :: 0 <= i < |cs| && cs[i].Changed? && cs[i].key == key ==> !cs[i].op.Touch?
    ensures key in apps && SameRest(apps[key], Evolve(apps, cs)[key])
  {
    OneObject(apps, cs, key);
    forall op | op in OpsOn(key, cs) ensures !op.Touch? {
      OpsAreThose(key, cs, op);
    }
    HistoryKeepsTheRest(key.kind, apps[key], OpsOn(key, cs));
  }

  /** An object that is removed is gone, and no other is. */
  lemma RemovedIsGone(apps: Apps, cs: seq<Change>, key: Key)
    ensures Evolve(apps, cs + [Removed(key)]).Keys == Evolve(apps, cs).Keys - {key}
  {
    EvolveExtends(apps, cs, Removed(key));
  }

  // ---------------------------------------------------------------- store-wide conservation

  type Originals = map<Key, int>

  /** Nothing has been scaled down yet, and `originals` records every count. */
  ghost predicate Pristine(originals: Originals, apps: Apps) {
    forall key :: key in apps ==> key in originals && Untouched(originals[key], apps[key])
  }

  ghost predicate Survives(originals: Originals, cs: seq<Change>, key: Key) {
    key in originals && Harmless(key.kind, originals[key], OpsOn(key, cs))
  }

  /** Every object that still exists after a history has its count conserved if and only if the
      history did its kind no harm. */
  lemma {:induction false} StoreConservation(originals: Originals, apps: Apps, cs: seq<Change>, key: Key)
    requires Pristine(originals, apps) && AllLandOn(apps, cs) && key in Evolve(apps, cs)
    ensures key in originals
    ensures Conserved(originals[key], Evolve(apps, cs)[key]) <==> Survives(originals, cs, key)
  {
    OneObject(apps, cs, key);
    ObjectConservation(key.kind, originals[key], apps[key], OpsOn(key, cs));
  }

  lemma DeploymentsConserved(originals: Originals, apps: Apps, cs: seq<Change>)
    requires Pristine(originals, apps) && AllLandOn(apps, cs)
    ensures forall key :: key in Evolve(apps, cs) && key.kind.Deployment? ==>
              key in originals && Conserved(originals[key], Evolve(apps, cs)[key])
  {
    forall key | key in Evolve(apps, cs) && key.kind.Deployment?
      ensures key in originals && Conserved(originals[key], Evolve(apps, cs)[key])
    {
      StoreConservation(originals, apps, cs, key);
    }
  }

  /** A saved count is always the decimal text of some 32-bit count. */
  ghost predicate WellSaved(a: App) {
    IsInt32(a.replicas) && (Memory(a) == None || exists n :: IsInt32(n) && Memory(a) == Some(Print(n)))
  }

  lemma ApplyKeepsWellSaved(kind: Kind, op: Op, a: App)
    requires WellSaved(a)
    ensures WellSaved(Apply(kind, op, a))
  {
    match op {
      case Down => DownEffect(kind, a);
      case Restore =>
        if Memory(a).Some? {
          var n :| IsInt32(n) && Memory(a) == Some(Print(n));
          RestoreEffect(kind, a, n);
        }
      case Touch(_, _) => TouchEffect(kind, op, a);
    }
  }

  /** As long as nobody else writes the memory annotation, a restore never meets an unparsable or
      an empty saved count, on either kind of object and after any history. */
  lemma {:induction false} RestoreNeverGivesUp(originals: Originals, apps: Apps, cs: seq<Change>, key: Key)
    requires Pristine(originals, apps) && key in Evolve(apps, cs)
    ensures WellSaved(Evolve(apps, cs)[key])
    ensures !PlanRestore(Evolve(apps, cs)[key]).GiveUp?
    ensures PlanRestore(Evolve(apps, cs)[key]).Done? <==> Memory(Evolve(apps, cs)[key]) == None
  {
    if cs == [] {
    } else {
      var before, c := cs[..|cs| - 1], cs[|cs| - 1];
      RestoreNeverGivesUp(originals, apps, before, key);
      if c.Changed? && c.key == key {
        ApplyKeepsWellSaved(key.kind, c.op, Evolve(apps, before)[key]);
      }
    }
    var a := Evolve(apps, cs)[key];
    if Memory(a).Some? {
      var n :| IsInt32(n) && Memory(a) == Some(Print(n));
      SavedCountReadsBack(n);
    }
  }

  /** Versions only grow, and a version names one state of an object. */
  ghost predicate Succeeds(before: Apps, now: Apps) {
    forall key :: key in now ==> key in before && before[key].version <= now[key].version &&
                                 (before[key].version == now[key].version ==> before[key] == now[key])
  }

  // ---------------------------------------------------------------- positions of a history

  /** No saved count is left on the object, or the object is gone. */
  ghost predicate Cleared(apps: Apps, key: Key) {
    key in apps ==> Memory(apps[key]) == None || Memory(apps[key]) == Some([])
  }

  ghost predicate AtZero(apps: Apps, key: Key) { key in apps ==> apps[key].replicas == 0 }

  ghost predicate Performs(c: Change, op: Op) { c.Changed? && c.op == op }

  /** Nobody performed this operation since position `from`. */
  ghost predicate NoneSince(cs: seq<Change>, from: nat, op: Op) {
    forall i :: from <= i < |cs| ==> !Performs(cs[i], op)
  }

  /** Talisman itself performed nothing but this operation since position `from`. */
  ghost predicate OwnOnly(cs: seq<Change>, from: nat, op: Op) {
    forall i :: from <= i < |cs| && cs[i].Changed? && cs[i].actor.Self? ==> cs[i].op == op
  }

  /** Nobody but talisman performed this operation since position `from`. */
  ghost predicate OthersDidNot(cs: seq<Change>, from: nat, op: Op) {
    forall i :: from <= i < |cs| && cs[i].Changed? && cs[i].actor.Other? ==> cs[i].op != op
  }

  lemma OwnOnlySuffix(cs: seq<Change>, from: nat, op: Op)
    requires from <= |cs| && OwnOnly(cs, from, op)
    ensures OwnOnly(cs[from..], 0, op)
  {
  }

  /** At some point since position `from` the object had no saved count. */
  ghost predicate WasCleared(start: Apps, cs: seq<Change>, from: nat, key: Key) {
    exists p :: from <= p <= |cs| && Cleared(Evolve(start, cs[..p]), key)
  }

  ghost predicate WasAtZero(start: Apps, cs: seq<Change>, from: nat, key: Key) {
    exists p :: from <= p <= |cs| && AtZero(Evolve(start, cs[..p]), key)
  }

  lemma WasClearedNow(start: Apps, cs: seq<Change>, from: nat, key: Key)
    requires from <= |cs| && Cleared(Evolve(start, cs), key)
    ensures WasCleared(start, cs, from, key)
  {
    assert cs[..|cs|] == cs;
  }

  lemma WasAtZeroNow(start: Apps, cs: seq<Change>, from: nat, key: Key)
    requires from <= |cs| && AtZero(Evolve(start, cs), key)
    ensures WasAtZero(start, cs, from, key)
  {
    assert cs[..|cs|] == cs;
  }

  lemma WasClearedKeeps(start: Apps, cs: seq<Change>, later: seq<Change>, from: nat, since: nat, key: Key)
    requires cs <= later && from <= since && WasCleared(start, cs, since, key)
    ensures WasCleared(start, later, from, key)
  {
    var p :| since <= p <= |cs| && Cleared(Evolve(start, cs[..p]), key);
    assert later[..p] == cs[..p];
  }

  lemma WasAtZeroKeeps(start: Apps, cs: seq<Change>, later: seq<Change>, from: nat, since: nat, key: Key)
    requires cs <= later && from <= since && WasAtZero(start, cs, since, key)
    ensures WasAtZero(start, later, from, key)
  {
    var p :| since <= p <= |cs| && AtZero(Evolve(start, cs[..p]), key);
    assert later[..p] == cs[..p];
  }

  /** Only a scale-down can put a saved count back. */
  lemma {:induction false} ClearedLasts(start: Apps, cs: seq<Change>, p: nat, key: Key)
    requires p <= |cs| && NoneSince(cs, p, Down) && Cleared(Evolve(start, cs[..p]), key)
    ensures Cleared(Evolve(start, cs), key)
  {
    if p == |cs| {
      assert cs[..p] == cs;
    } else {
      var n := |cs| - 1;
      assert cs[..n][..p] == cs[..p];
      ClearedLasts(start, cs[..n], p, key);
      var apps, c := Evolve(start, cs[..n]), cs[n];
      if c.Changed? && c.key == key && key in apps && c.op.Touch? {
        TouchEffect(key.kind, c.op, apps[key]);
      }
    }
  }

  /** Only a restore can raise a count from 0. */
  lemma {:induction false} ZeroLasts(start: Apps, cs: seq<Change>, p: nat, key: Key)
    requires p <= |cs| && NoneSince(cs, p, Restore) && AtZero(Evolve(start, cs[..p]), key)
    ensures AtZero(Evolve(start, cs), key)
  {
    if p == |cs| {
      assert cs[..p] == cs;
    } else {
      var n := |cs| - 1;
      assert cs[..n][..p] == cs[..p];
      ZeroLasts(start, cs[..n], p, key);
      var apps, c := Evolve(start, cs[..n]), cs[n];
      if c.Changed? && c.key == key && key in apps {
        DownEffect(key.kind, apps[key]);
        if c.op.Touch? { TouchEffect(key.kind, c.op, apps[key]); }
      }
    }
  }

  lemma AllStayAtZero(start: Apps, cs: seq<Change>, later: seq<Change>, listed: seq<Key>)
    requires cs <= later && NoneSince(later, |cs|, Restore) && forall key :: key in listed ==> AtZero(Evolve(start, cs), key)
    ensures forall key :: key in listed ==> AtZero(Evolve(start, later), key)
  {
    forall key | key in listed ensures AtZero(Evolve(start, later), key) {
      assert later[..|cs|] == cs;
      ZeroLasts(start, later, |cs|, key);
    }
  }

  // ---------------------------------------------------------------- counting talisman's scale-downs

  ghost predicate IsOwnDown(c: Change, key: Key) {
    c.Changed? && c.actor.Self? && c.op.Down? && c.key == key
  }

  ghost function OwnDowns(cs: seq<Change>, key: Key): nat {
    if cs == [] then 0 else OwnDowns(cs[..|cs| - 1], key) + if IsOwnDown(cs[|cs| - 1], key) then 1 else 0
  }

  lemma {:induction false} OwnDownsGrow(cs: seq<Change>, later: seq<Change>, key: Key)
    requires cs <= later
    ensures OwnDowns(cs, key) <= OwnDowns(later, key)
  {
    if |cs| < |later| {
      OwnDownsGrow(cs, later[..|later| - 1], key);
    } else {
      assert cs == later;
    }
  }

  lemma {:induction false} NeverRecreated(start: Apps, cs: seq<Change>, later: seq<Change>, key: Key)
    requires cs <= later && key in Evolve(start, later)
    ensures key in Evolve(start, cs)
  {
    if |cs| < |later| {
      NeverRecreated(start, cs, later[..|later| - 1], key);
    } else {
      assert cs == later;
    }
  }

  lemma OwnDownsExtend(cs: seq<Change>, c: Change, key: Key)
    ensures OwnDowns(cs + [c], key) == OwnDowns(cs, key) + if IsOwnDown(c, key) then 1 else 0
  {
    assert (cs + [c])[..|cs|] == cs;
  }

  /** Two scale-downs of one object by the same process, with nobody restoring it in between, are
      one too many: this is what a duplicate listing leads to even when nothing fails. */
  lemma TwoOwnDownsAreTooMany(cs: seq<Change>, key: Key)
    requires OwnDowns(cs, key) >= 2 && NoneSince(cs, 0, Restore)
    ensures !NeverScaledTwice(OpsOn(key, cs))
  {
    DownsAccumulate(cs, key);
    var ops := OpsOn(key, cs);
    assert ops[..|ops|] == ops;
  }

  lemma DownsGrow(ops: seq<Op>, op: Op)
    requires !op.Restore?
    ensures DownsSinceRestore(ops + [op]) == DownsSinceRestore(ops) + if op.Down? then 1 else 0
  {
    assert (ops + [op])[..|ops|] == ops;
  }

  lemma {:induction false} DownsAccumulate(cs: seq<Change>, key: Key)
    requires NoneSince(cs, 0, Restore)
    ensures DownsSinceRestore(OpsOn(key, cs)) >= OwnDowns(cs, key)
  {
    if cs != [] {
      var before, c := cs[..|cs| - 1], cs[|cs| - 1];
      assert NoneSince(before, 0, Restore) && !Performs(c, Restore);
      DownsAccumulate(before, key);
      var ops := OpsOn(key, before);
      if c.Changed? && c.key == key {
        assert OpsOn(key, cs) == ops + [c.op];
        DownsGrow(ops, c.op);
      } else {
        assert OpsOn(key, cs) == ops && !IsOwnDown(c, key);
      }
    }
  }
}
