/** Any number of talisman processes working on the same applications at once. Each holds the copy
    it last read while others read, write, retry, crash or are restarted; the server accepts an
    update only when the copy's resource version is still current. Every interleaving collapses to
    a history of atomic changes, so the conservation theorems hold for all of them. */
module ReplicaClients {
  import opened Options
  import opened ReplicaProtocol
  import opened ReplicaStore

  type ClientId = nat

  /** A closure between its read and its update. */
  datatype Pending = Idle | Holding(key: Key, op: Op, copy: App)

  datatype System = System(apps: Apps, clients: map<ClientId, Pending>)

  datatype Event =
    | Fetch(client: ClientId, key: Key, op: Op)   // Get, and the decision to write or stop
    | Land(client: ClientId)                       // the update request reaches the server
    | Drop(client: ClientId)                       // the request is lost, or the process dies
    | Meddle(key: Key, annotations: Annotations, other: string)
    | Delete(key: Key)

  /** The server applies the update only to the version that was read. */
  predicate Accepted(s: System, client: ClientId) {
    client in s.clients && s.clients[client].Holding? &&
    var h := s.clients[client];
    h.key in s.apps && s.apps[h.key].version == h.copy.version && Lands(h.key.kind, h.op, h.copy)
  }

  function Step(s: System, e: Event): System {
    match e
    case Fetch(client, key, op) =>
      if key in s.apps && !op.Touch? && Lands(key.kind, op, s.apps[key])
      then s.(clients := s.clients[client := Holding(key, op, s.apps[key])])
      else s.(clients := s.clients[client := Idle])
    case Land(client) =>
      if Accepted(s, client) then
        var h := s.clients[client];
        System(s.apps[h.key := Stored(s.apps[h.key], PlanOf(h.key.kind, h.op, h.copy).app)], s.clients[client := Idle])
      else s.(clients := s.clients[client := Idle])
    case Drop(client) => s.(clients := s.clients[client := Idle])
    case Meddle(key, annotations, other) => s.(apps := After(s.apps, Changed(Other, key, Touch(annotations, other))))
    case Delete(key) => s.(apps := After(s.apps, Removed(key)))
  }

  function Run(s: System, es: seq<Event>): System {
    if es == [] then s else Step(Run(s, es[..|es| - 1]), es[|es| - 1])
  }

  /** The atomic change that an event amounts to, if any. */
  function Effect(s: System, e: Event): seq<Change> {
    match e
    case Land(client) =>
      if Accepted(s, client) then [Changed(Self, s.clients[client].key, s.clients[client].op)] else []
    case Meddle(key, annotations, other) =>
      var c := Changed(Other, key, Touch(annotations, other));
      if LandsOn(s.apps, c) then [c] else []
    case Delete(key) => if key in s.apps then [Removed(key)] else []
    case _ => []
  }

  function Effects(s: System, es: seq<Event>): seq<Change> {
    if es == [] then [] else Effects(s, es[..|es| - 1]) + Effect(Run(s, es[..|es| - 1]), es[|es| - 1])
  }

  /** A held copy is never newer than the server's object, and equal to it when equally old. */
  ghost predicate Honest(apps: Apps, p: Pending) {
    p.Holding? && p.key in apps ==>
      p.copy.version <= apps[p.key].version && (p.copy.version == apps[p.key].version ==> p.copy == apps[p.key])
  }

  ghost predicate CopiesAreHonest(s: System) {
    forall client :: client in s.clients ==> Honest(s.apps, s.clients[client])
  }

  lemma {:induction false} FetchIsHonest(s: System, client: ClientId, p: Pending)
    requires CopiesAreHonest(s) && Honest(s.apps, p)
    ensures CopiesAreHonest(s.(clients := s.clients[client := p]))
  {
    var clients := s.clients[client := p];
    forall c | c in clients ensures Honest(s.apps, clients[c]) {
      if c != client {
        assert clients[c] == s.clients[c];
      }
    }
  }

  /** A change raises the version of the object it writes, so no copy held of it becomes dishonest. */
  lemma {:induction false} ApplyRaisesTheVersion(kind: Kind, op: Op, a: App)
    ensures Apply(kind, op, a) == a || Apply(kind, op, a).version == a.version + 1
  {
  }

  lemma {:induction false} ChangeKeepsCopies(s: System, c: Change)
    requires CopiesAreHonest(s)
    ensures CopiesAreHonest(s.(apps := After(s.apps, c)))
  {
    var apps := After(s.apps, c);
    forall client | client in s.clients ensures Honest(apps, s.clients[client]) {
      var h := s.clients[client];
      assert Honest(s.apps, h);
      if c.Changed? && c.key in s.apps {
        ApplyRaisesTheVersion(c.key.kind, c.op, s.apps[c.key]);
      }
    }
  }

  lemma {:induction false} OneChange(apps: Apps, c: Change)
    requires LandsOn(apps, c)
    ensures Evolve(apps, [c]) == After(apps, c) && AllLandOn(apps, [c])
  {
    EvolveExtends(apps, [], c);
    assert [] + [c] == [c];
    assert Evolve(apps, []) == apps;
  }

  /** An accepted update writes what the operation makes of the server's own object: the copy it was
      computed from is that object. */
  lemma {:induction false} LandIsAtomic(s: System, client: ClientId)
    requires CopiesAreHonest(s) && Accepted(s, client)
    ensures var c := Changed(Self, s.clients[client].key, s.clients[client].op);
            LandsOn(s.apps, c) && Step(s, Land(client)) == System(After(s.apps, c), s.clients[client := Idle])
  {
    assert Honest(s.apps, s.clients[client]);
  }

  /** Every step of any process or of anybody else is one atomic change, or none. */
  lemma {:induction false} StepIsAtomic(s: System, e: Event)
    requires CopiesAreHonest(s)
    ensures CopiesAreHonest(Step(s, e))
    ensures Step(s, e).apps == Evolve(s.apps, Effect(s, e))
    ensures AllLandOn(s.apps, Effect(s, e))
  {
    match e
    case Fetch(client, key, op) =>
      FetchIsHonest(s, client, Step(s, e).clients[client]);
    case Drop(client) =>
      FetchIsHonest(s, client, Idle);
    case Land(client) =>
      if Accepted(s, client) {
        var c := Changed(Self, s.clients[client].key, s.clients[client].op);
        LandIsAtomic(s, client);
        OneChange(s.apps, c);
        ChangeKeepsCopies(s, c);
        FetchIsHonest(s.(apps := After(s.apps, c)), client, Idle);
      } else {
        FetchIsHonest(s, client, Idle);
      }
    case Meddle(key, annotations, other) =>
      ForeignIsAtomic(s, Changed(Other, key, Touch(annotations, other)));
    case Delete(key) =>
      ForeignIsAtomic(s, Removed(key));
  }

  lemma {:induction false} ForeignIsAtomic(s: System, c: Change)
    requires CopiesAreHonest(s)
    ensures CopiesAreHonest(s.(apps := After(s.apps, c)))
    ensures LandsOn(s.apps, c) ==> Evolve(s.apps, [c]) == After(s.apps, c) && AllLandOn(s.apps, [c])
    ensures !LandsOn(s.apps, c) ==> After(s.apps, c) == s.apps
  {
    ChangeKeepsCopies(s, c);
    if LandsOn(s.apps, c) {
      OneChange(s.apps, c);
    }
  }

  /** An operation that nobody gets in the way of does to the server's object what it is meant to do. */
  lemma UndisturbedLands(s: System, client: ClientId, key: Key, op: Op)
    requires CopiesAreHonest(s) && !op.Touch?
    ensures Step(Step(s, Fetch(client, key, op)), Land(client)).apps == After(s.apps, Changed(Self, key, op))
    ensures Effects(s, [Fetch(client, key, op), Land(client)]) == if LandsOn(s.apps, Changed(Self, key, op)) then [Changed(Self, key, op)] else []
  {
    var es := [Fetch(client, key, op), Land(client)];
    assert es[..1] == [es[0]] && es[..1][..0] == [];
    assert Run(s, es[..1]) == Step(s, es[0]);
    assert Effects(s, es[..1]) == [];
  }

  /** Compare-and-swap makes every interleaved run equivalent to its landed writes performed one
      after the other. */
  lemma {:induction false} RunsLinearise(s: System, es: seq<Event>)
    requires CopiesAreHonest(s)
    ensures CopiesAreHonest(Run(s, es))
    ensures Run(s, es).apps == Evolve(s.apps, Effects(s, es))
    ensures AllLandOn(s.apps, Effects(s, es))
  {
    if es != [] {
      var before := es[..|es| - 1];
      RunsLinearise(s, before);
      StepIsAtomic(Run(s, before), es[|es| - 1]);
      EvolveConcat(s.apps, Effects(s, before), Effect(Run(s, before), es[|es| - 1]));
    }
  }

  ghost predicate Starts(originals: Originals, s: System) {
    Pristine(originals, s.apps) && s.clients == map[]
  }

  /** Whatever the processes do, every surviving object's original count is still known exactly
      when the landed history allows it; for deployments that is always. */
  lemma {:induction false} EveryRunConserves(originals: Originals, s: System, es: seq<Event>, key: Key)
    requires Starts(originals, s) && key in Run(s, es).apps
    ensures key in originals
    ensures Conserved(originals[key], Run(s, es).apps[key]) <==> Survives(originals, Effects(s, es), key)
    ensures key.kind.Deployment? ==> Conserved(originals[key], Run(s, es).apps[key])
  {
    RunsLinearise(s, es);
    StoreConservation(originals, s.apps, Effects(s, es), key);
  }

  /** Recovery: after any such run, a process that reads a deployment and whose update lands finds
      it, or leaves it, at its original count with the saved count gone. */
  lemma {:induction false} AnyLaterRestoreRecovers(originals: Originals, s: System, es: seq<Event>, client: ClientId, key: Key)
    requires Starts(originals, s) && key in Run(s, es).apps
    requires Survives(originals, Effects(s, es), key)
    ensures var done := Step(Step(Run(s, es), Fetch(client, key, Restore)), Land(client));
            key in done.apps && Untouched(originals[key], done.apps[key])
  {
    EveryRunConserves(originals, s, es, key);
    var now := Run(s, es);
    RestoreBringsBack(key.kind, originals[key], now.apps[key]);
    var held := Step(now, Fetch(client, key, Restore));
    if Lands(key.kind, Restore, now.apps[key]) {
      assert held.clients[client] == Holding(key, Restore, now.apps[key]);
    } else {
      assert held.clients[client] == Idle;
    }
  }

  /** Any number of processes leave everything of an object alone that is not its count or its saved
      count, as long as nobody else writes to it. */
  lemma {:induction false} EveryRunKeepsTheRest(s: System, es: seq<Event>, key: Key)
    requires s.clients == map[] && key in Run(s, es).apps
    requires forall e :: e in es ==> !(e.Meddle? && e.key == key)
    ensures key in s.apps && SameRest(s.apps[key], Run(s, es).apps[key])
  {
    RunsLinearise(s, es);
    OwnEffectsOnly(s, es, key);
    TheRestIsKept(s.apps, Effects(s, es), key);
  }

  lemma {:induction false} OwnEffectsOnly(s: System, es: seq<Event>, key: Key)
    requires s.clients == map[] && forall e :: e in es ==> !(e.Meddle? && e.key == key)
    ensures NoneHoldsATouch(Run(s, es))
    ensures forall c :: c in Effects(s, es) && c.Changed? && c.key == key ==> !c.op.Touch?
  {
    if es != [] {
      OwnEffectsOnly(s, es[..|es| - 1], key);
    }
  }

  /** A process only ever holds a copy in order to scale down or to restore. */
  ghost predicate NoneHoldsATouch(s: System) {
    forall client :: client in s.clients && s.clients[client].Holding? ==> !s.clients[client].op.Touch?
  }
}
