/** The target ports of the Portworx services: they are read from `portworx-service`, with defaults
    for the ports it does not have, and written back to it and to `portworx-api`. A patch merges its
    entries into the service's own by port number. */
module Ports {
  import opened Options

  /** A target port is a number or the name of a container port. */
  datatype TargetPort = Number(n: int) | Called(name: string)

  datatype ServicePort = ServicePort(name: string, port: int, target: TargetPort)

  /** What the code reads of a target port: a name reads as 0. */
  function IntVal(t: TargetPort): int { if t.Number? then t.n else 0 }

  /** An entry of a patch. */
  datatype Entry = Entry(name: string, port: int)

  const PX_ENTRIES := [Entry("px-api", 9001), Entry("px-kvdb", 9019), Entry("px-sdk", 9020), Entry("px-rest-gateway", 9021)]
  const API_ENTRIES := [Entry("px-api", 9001), Entry("px-sdk", 9020), Entry("px-rest-gateway", 9021)]

  predicate IsDefault(port: int) { port in {9001, 9019, 9020, 9021} }

  // ---------------------------------------------------------------- reading

  /** The target of the last entry for a port. */
  function LastTarget(ports: seq<ServicePort>, port: int): Option<TargetPort> {
    if ports == [] then None
    else if ports[|ports| - 1].port == port then Some(ports[|ports| - 1].target)
    else LastTarget(ports[..|ports| - 1], port)
  }

  /** The number a port is mapped to: what its last entry says, or itself. */
  function Chosen(ports: seq<ServicePort>, port: int): int {
    var t := LastTarget(ports, port);
    if t.Some? then IntVal(t.value) else port
  }

  /** The loop that overrides the default target ports. */
  method ReadTargetPorts(ports: seq<ServicePort>) returns (targets: map<int, int>)
    ensures forall p :: IsDefault(p) ==> p in targets && targets[p] == Chosen(ports, p)
    ensures forall p :: p in targets ==> targets[p] == Chosen(ports, p)
  {
    targets := map[9001 := 9001, 9019 := 9019, 9020 := 9020, 9021 := 9021];
    for n := 0 to |ports|
      invariant forall p :: p in targets <==> IsDefault(p) || LastTarget(ports[..n], p).Some?
      invariant forall p :: p in targets ==> targets[p] == Chosen(ports[..n], p)
    {
      assert ports[..n + 1][..n] == ports[..n];
      targets := targets[ports[n].port := IntVal(ports[n].target)];
    }
    assert ports[..|ports|] == ports;
  }

  // ---------------------------------------------------------------- patching

  /** One entry merged in: the first entry for the port takes name and target, or a new one is added. */
  function PatchOne(ports: seq<ServicePort>, e: Entry, target: int): seq<ServicePort> {
    if ports == [] then [ServicePort(e.name, e.port, Number(target))]
    else if ports[0].port == e.port then [ports[0].(name := e.name, target := Number(target))] + ports[1..]
    else [ports[0]] + PatchOne(ports[1..], e, target)
  }

  function Patch(ports: seq<ServicePort>, entries: seq<Entry>, targets: map<int, int>): seq<ServicePort>
    requires forall e :: e in entries ==> e.port in targets
    decreases |entries|
  {
    if entries == [] then ports
    else Patch(PatchOne(ports, entries[0], targets[entries[0].port]), entries[1..], targets)
  }

  /** An entry at the front decides only when no later one does. */
  lemma {:induction false} LastFromFront(ports: seq<ServicePort>, port: int)
    requires ports != []
    ensures LastTarget(ports, port) ==
      if LastTarget(ports[1..], port).Some? then LastTarget(ports[1..], port)
      else if ports[0].port == port then Some(ports[0].target) else None
  {
    if |ports| > 1 {
      var front := ports[..|ports| - 1];
      assert front[1..] == ports[1..][..|ports| - 2] && ports[1..][|ports| - 2] == ports[|ports| - 1];
      LastFromFront(front, port);
    } else {
      assert LastTarget(ports[..0], port) == None;
    }
  }

  /** A patch entry changes what its own port reads as, and no other. A port with several entries
      keeps reading as its last one. */
  lemma {:induction false} PatchOneReads(ports: seq<ServicePort>, e: Entry, target: int, port: int)
    ensures port != e.port ==> LastTarget(PatchOne(ports, e, target), port) == LastTarget(ports, port)
    ensures port == e.port && Chosen(ports, port) == target ==> LastTarget(PatchOne(ports, e, target), port).Some?
    ensures port == e.port && Chosen(ports, port) == target ==> Chosen(PatchOne(ports, e, target), port) == target
    ensures port == e.port && LastTarget(ports, port).None? ==> LastTarget(PatchOne(ports, e, target), port) == Some(Number(target))
  {
    var now := PatchOne(ports, e, target);
    LastFromFront(now, port);
    if ports == [] {
      assert LastTarget(now[1..], port) == None;
    } else {
      LastFromFront(ports, port);
      assert now[1..] == if ports[0].port == e.port then ports[1..] else PatchOne(ports[1..], e, target);
      if ports[0].port != e.port {
        PatchOneReads(ports[1..], e, target, port);
      }
    }
  }

  predicate Distinct(entries: seq<Entry>) { forall i, j :: 0 <= i < j < |entries| ==> entries[i].port != entries[j].port }

  predicate Agrees(targets: map<int, int>, ports: seq<ServicePort>, entries: seq<Entry>) {
    forall e :: e in entries ==> e.port in targets && targets[e.port] == Chosen(ports, e.port)
  }

  /** Patching a service with what was read from it changes nothing that is read. */
  lemma {:induction false} PatchReads(ports: seq<ServicePort>, entries: seq<Entry>, targets: map<int, int>, port: int)
    requires Agrees(targets, ports, entries)
    ensures Chosen(Patch(ports, entries, targets), port) == Chosen(ports, port)
    decreases |entries|
  {
    if entries != [] {
      var e := entries[0];
      var next := PatchOne(ports, e, targets[e.port]);
      forall p ensures Chosen(next, p) == Chosen(ports, p) {
        PatchOneReads(ports, e, targets[e.port], p);
      }
      PatchReads(next, entries[1..], targets, port);
    }
  }

  /** The first entry for a port is the one a patch has written. */
  predicate Written(ports: seq<ServicePort>, e: Entry, target: int) {
    if ports == [] then false
    else if ports[0].port == e.port then ports[0].name == e.name && ports[0].target == Number(target)
    else Written(ports[1..], e, target)
  }

  lemma {:induction false} PatchOneWrites(ports: seq<ServicePort>, e: Entry, target: int)
    ensures Written(PatchOne(ports, e, target), e, target)
  {
    if ports != [] && ports[0].port != e.port {
      PatchOneWrites(ports[1..], e, target);
      assert PatchOne(ports, e, target)[1..] == PatchOne(ports[1..], e, target);
    }
  }

  lemma {:induction false} WrittenLasts(ports: seq<ServicePort>, e: Entry, target: int, other: Entry, t: int)
    requires Written(ports, e, target) && other.port != e.port
    ensures Written(PatchOne(ports, other, t), e, target)
  {
    var now := PatchOne(ports, other, t);
    if ports[0].port != e.port {
      if ports[0].port == other.port {
        assert now[1..] == ports[1..];
      } else {
        WrittenLasts(ports[1..], e, target, other, t);
        assert now[1..] == PatchOne(ports[1..], other, t);
      }
    }
  }

  /** Merging in an entry that is already there changes nothing. */
  lemma {:induction false} WrittenIsFixed(ports: seq<ServicePort>, e: Entry, target: int)
    requires Written(ports, e, target)
    ensures PatchOne(ports, e, target) == ports
  {
    assert ports == [ports[0]] + ports[1..];
    if ports[0].port != e.port {
      WrittenIsFixed(ports[1..], e, target);
    }
  }

  lemma {:induction false} WrittenLastsThrough(ports: seq<ServicePort>, e: Entry, target: int, entries: seq<Entry>, targets: map<int, int>)
    requires forall x :: x in entries ==> x.port in targets && x.port != e.port
    requires Written(ports, e, target)
    ensures Written(Patch(ports, entries, targets), e, target)
    decreases |entries|
  {
    if entries != [] {
      WrittenLasts(ports, e, target, entries[0], targets[entries[0].port]);
      WrittenLastsThrough(PatchOne(ports, entries[0], targets[entries[0].port]), e, target, entries[1..], targets);
    }
  }

  /** After a patch every entry of it is in the service. */
  lemma {:induction false} PatchWrites(ports: seq<ServicePort>, entries: seq<Entry>, targets: map<int, int>, i: nat)
    requires Distinct(entries) && i < |entries| && forall e :: e in entries ==> e.port in targets
    ensures Written(Patch(ports, entries, targets), entries[i], targets[entries[i].port])
    decreases |entries|
  {
    var next := PatchOne(ports, entries[0], targets[entries[0].port]);
    if i == 0 {
      PatchOneWrites(ports, entries[0], targets[entries[0].port]);
      WrittenLastsThrough(next, entries[0], targets[entries[0].port], entries[1..], targets);
    } else {
      PatchWrites(next, entries[1..], targets, i - 1);
    }
  }

  lemma {:induction false} AllWrittenIsFixed(ports: seq<ServicePort>, entries: seq<Entry>, targets: map<int, int>)
    requires forall e :: e in entries ==> e.port in targets && Written(ports, e, targets[e.port])
    ensures Patch(ports, entries, targets) == ports
  {
    if entries != [] {
      WrittenIsFixed(ports, entries[0], targets[entries[0].port]);
      AllWrittenIsFixed(ports, entries[1..], targets);
    }
  }

  /** A stable fixed point, for every list of ports: reading the patched service gives the same targets
      for every port, and patching it again changes nothing. */
  lemma PatchIsStable(ports: seq<ServicePort>, targets: map<int, int>, again: map<int, int>)
    requires Agrees(targets, ports, PX_ENTRIES)
    requires Agrees(again, Patch(ports, PX_ENTRIES, targets), PX_ENTRIES)
    ensures forall p :: IsDefault(p) ==> p in targets && p in again && again[p] == targets[p]
    ensures Patch(Patch(ports, PX_ENTRIES, targets), PX_ENTRIES, again) == Patch(ports, PX_ENTRIES, targets)
  {
    var now := Patch(ports, PX_ENTRIES, targets);
    assert PX_ENTRIES[0] in PX_ENTRIES && PX_ENTRIES[1] in PX_ENTRIES && PX_ENTRIES[2] in PX_ENTRIES && PX_ENTRIES[3] in PX_ENTRIES;
    forall e | e in PX_ENTRIES ensures again[e.port] == targets[e.port] && Written(now, e, again[e.port]) {
      PatchReads(ports, PX_ENTRIES, targets, e.port);
      var i :| 0 <= i < |PX_ENTRIES| && PX_ENTRIES[i] == e;
      PatchWrites(ports, PX_ENTRIES, targets, i);
    }
    AllWrittenIsFixed(now, PX_ENTRIES, again);
  }

  // ---------------------------------------------------------------- what is kept

  /** The entries for a port, in order. Where they stand among the others is of no account: the server
      puts patched entries first. */
  function Of(ports: seq<ServicePort>, port: int): seq<ServicePort> {
    if ports == [] then [] else (if ports[0].port == port then [ports[0]] else []) + Of(ports[1..], port)
  }

  ghost predicate DistinctPorts(ports: seq<ServicePort>) { forall port :: |Of(ports, port)| <= 1 }

  /** An entry for a port takes its name and target; the first one, if there are several. */
  function Retargeted(own: seq<ServicePort>, e: Entry, target: int): seq<ServicePort> {
    if own == [] then [ServicePort(e.name, e.port, Number(target))]
    else [own[0].(name := e.name, target := Number(target))] + own[1..]
  }

  lemma {:induction false} PatchOneByPort(ports: seq<ServicePort>, e: Entry, target: int, port: int)
    ensures Of(PatchOne(ports, e, target), port) ==
      if port == e.port then Retargeted(Of(ports, port), e, target) else Of(ports, port)
  {
    var now := PatchOne(ports, e, target);
    if ports == [] {
      assert now[1..] == [] && Of([], port) == [];
    } else if ports[0].port == e.port {
      assert now[1..] == ports[1..];
    } else {
      assert now[1..] == PatchOne(ports[1..], e, target);
      PatchOneByPort(ports[1..], e, target, port);
    }
  }

  /** Port by port: what a patch names is renamed and retargeted, everything else is as it was. */
  lemma {:induction false} PatchFrame(ports: seq<ServicePort>, entries: seq<Entry>, targets: map<int, int>, port: int)
    requires Distinct(entries) && forall e :: e in entries ==> e.port in targets
    ensures (forall e :: e in entries ==> e.port != port) ==> Of(Patch(ports, entries, targets), port) == Of(ports, port)
    ensures forall e :: e in entries && e.port == port ==>
      Of(Patch(ports, entries, targets), port) == Retargeted(Of(ports, port), e, targets[port])
    decreases |entries|
  {
    if entries != [] {
      var e := entries[0];
      PatchOneByPort(ports, e, targets[e.port], port);
      PatchFrame(PatchOne(ports, e, targets[e.port]), entries[1..], targets, port);
      assert entries == [e] + entries[1..];
    }
  }

  /** What is read for a port is its last entry's target, wherever that stands. */
  lemma {:induction false} ReadsByPort(ports: seq<ServicePort>, port: int)
    ensures LastTarget(ports, port) ==
      if Of(ports, port) == [] then None else Some(Of(ports, port)[|Of(ports, port)| - 1].target)
  {
    if ports != [] {
      LastFromFront(ports, port);
      ReadsByPort(ports[1..], port);
    }
  }

  /** With distinct port numbers, a patched port has a single entry; an existing target of it is kept
      exactly when it is a number, a named one becomes 0, and a missing one becomes the port itself. */
  lemma TargetIsKept(ports: seq<ServicePort>, targets: map<int, int>, e: Entry)
    requires DistinctPorts(ports) && Agrees(targets, ports, PX_ENTRIES) && e in PX_ENTRIES
    ensures var own, now := Of(ports, e.port), Of(Patch(ports, PX_ENTRIES, targets), e.port);
      && |own| <= 1 && |now| == 1 && now[0].name == e.name && now[0].port == e.port
      && (own == [] ==> now[0].target == Number(e.port))
      && (own != [] && own[0].target.Called? ==> now[0].target == Number(0))
      && (own != [] ==> (now[0].target == own[0].target <==> own[0].target.Number?))
  {
    PatchFrame(ports, PX_ENTRIES, targets, e.port);
    ReadsByPort(ports, e.port);
    OfIsItsOwn(ports, e.port);
    assert |Of(ports, e.port)| <= 1;
  }

  /** The entries of an empty service that is patched with the defaults. */
  lemma DefaultEntries(targets: map<int, int>)
    requires Agrees(targets, [], PX_ENTRIES)
    ensures forall e :: e in PX_ENTRIES <==> e in [Entry("px-api", 9001), Entry("px-kvdb", 9019), Entry("px-sdk", 9020), Entry("px-rest-gateway", 9021)]
    ensures forall e :: e in PX_ENTRIES ==> Of(Patch([], PX_ENTRIES, targets), e.port) == [ServicePort(e.name, e.port, Number(e.port))]
  {
    forall e | e in PX_ENTRIES ensures Of(Patch([], PX_ENTRIES, targets), e.port) == [ServicePort(e.name, e.port, Number(e.port))] {
      PatchFrame([], PX_ENTRIES, targets, e.port);
      assert Of([], e.port) == [] && Chosen([], e.port) == e.port;
    }
  }

  lemma {:induction false} OfIsItsOwn(ports: seq<ServicePort>, port: int)
    ensures forall p :: p in Of(ports, port) ==> p.port == port
  {
    if ports != [] {
      OfIsItsOwn(ports[1..], port);
    }
  }

  // ---------------------------------------------------------------- the services

  /** Every entry is in a service, with the chosen target. */
  ghost predicate Carries(ports: seq<ServicePort>, entries: seq<Entry>, source: seq<ServicePort>) {
    forall e :: e in entries ==> Written(ports, e, Chosen(source, e.port))
  }

  lemma PatchCarries(ports: seq<ServicePort>, entries: seq<Entry>, targets: map<int, int>, source: seq<ServicePort>)
    requires Distinct(entries) && Agrees(targets, source, entries)
    ensures Carries(Patch(ports, entries, targets), entries, source)
  {
    forall e | e in entries ensures Written(Patch(ports, entries, targets), e, Chosen(source, e.port)) {
      var i :| 0 <= i < |entries| && entries[i] == e;
      PatchWrites(ports, entries, targets, i);
    }
  }

  /** A service has changed at the ports of these entries only. */
  ghost predicate KeepsOthers(was: seq<ServicePort>, now: seq<ServicePort>, entries: seq<Entry>) {
    forall p :: (forall e :: e in entries ==> e.port != p) ==> Of(now, p) == Of(was, p)
  }

  /** The first one got the chosen targets, at the ports of its entries and nowhere else. */
  ghost predicate Merged(was: seq<ServicePort>, now: seq<ServicePort>) {
    && KeepsOthers(was, now, PX_ENTRIES)
    && forall e :: e in PX_ENTRIES ==> Of(now, e.port) == Retargeted(Of(was, e.port), e, Chosen(was, e.port))
  }

  lemma PatchMerges(ports: seq<ServicePort>, targets: map<int, int>)
    requires Agrees(targets, ports, PX_ENTRIES)
    ensures Merged(ports, Patch(ports, PX_ENTRIES, targets))
  {
    var now := Patch(ports, PX_ENTRIES, targets);
    PatchKeepsOthers(ports, PX_ENTRIES, targets);
    forall e | e in PX_ENTRIES ensures Of(now, e.port) == Retargeted(Of(ports, e.port), e, Chosen(ports, e.port)) {
      PatchFrame(ports, PX_ENTRIES, targets, e.port);
    }
  }

  lemma PatchKeepsOthers(ports: seq<ServicePort>, entries: seq<Entry>, targets: map<int, int>)
    requires Distinct(entries) && forall e :: e in entries ==> e.port in targets
    ensures KeepsOthers(ports, Patch(ports, entries, targets), entries)
  {
    forall p | forall e :: e in entries ==> e.port != p ensures Of(Patch(ports, entries, targets), p) == Of(ports, p) {
      PatchFrame(ports, entries, targets, p);
    }
  }

  /** How the two services may have changed: whatever is read from the first one is as before, and the
      second one is as it was or carries what is read. Neither changes at other ports than its own. */
  ghost predicate Follows(px0: Option<seq<ServicePort>>, api0: Option<seq<ServicePort>>,
                          px: Option<seq<ServicePort>>, api: Option<seq<ServicePort>>) {
    && (px.Some? <==> px0.Some?)
    && (px.Some? ==> KeepsOthers(px0.value, px.value, PX_ENTRIES) && forall p :: Chosen(px.value, p) == Chosen(px0.value, p))
    && (api0.Some? ==> api.Some? && KeepsOthers(api0.value, api.value, API_ENTRIES))
    && (api == api0 || (px0.Some? && api.Some? && Carries(api.value, API_ENTRIES, px0.value)))
  }

  lemma FollowsCompose(px0: Option<seq<ServicePort>>, api0: Option<seq<ServicePort>>,
                       px1: Option<seq<ServicePort>>, api1: Option<seq<ServicePort>>,
                       px2: Option<seq<ServicePort>>, api2: Option<seq<ServicePort>>)
    requires Follows(px0, api0, px1, api1) && Follows(px1, api1, px2, api2)
    ensures Follows(px0, api0, px2, api2)
    ensures px0.Some? && api2.Some? && Carries(px2.value, PX_ENTRIES, px1.value) && Carries(api2.value, API_ENTRIES, px1.value) ==>
              Carries(px2.value, PX_ENTRIES, px0.value) && Carries(api2.value, API_ENTRIES, px0.value)
  {
    if px0.Some? && api2.Some? && Carries(api2.value, API_ENTRIES, px1.value) {
      forall e | e in API_ENTRIES ensures Written(api2.value, e, Chosen(px0.value, e.port)) {}
    }
    if px0.Some? && Carries(px2.value, PX_ENTRIES, px1.value) {
      forall e | e in PX_ENTRIES ensures Written(px2.value, e, Chosen(px0.value, e.port)) {}
    }
  }

  /** What an upgrade changes beside applications and daemonsets: the two services of the namespace,
      `None` being one that does not exist, the API daemonset, and the permissions Portworx needs. */
  datatype Objects = Objects(px: Option<seq<ServicePort>>, api: Option<seq<ServicePort>>, apiDaemonSet: bool, granted: bool)

  /** The ports that `portworx-api` is created with, or patched to. */
  method NextApi(api: Option<seq<ServicePort>>, targets: map<int, int>, ghost source: seq<ServicePort>) returns (ports: seq<ServicePort>)
    requires Agrees(targets, source, API_ENTRIES)
    ensures ports == Patch(if api.Some? then api.value else [], API_ENTRIES, targets) && Carries(ports, API_ENTRIES, source)
    ensures api.Some? ==> KeepsOthers(api.value, ports, API_ENTRIES)
  {
    PatchCarries(if api.Some? then api.value else [], API_ENTRIES, targets, source);
    PatchKeepsOthers(if api.Some? then api.value else [], API_ENTRIES, targets);
    if api.Some? {
      return Patch(api.value, API_ENTRIES, targets);
    }
    assert API_ENTRIES[0] in API_ENTRIES && API_ENTRIES[1] in API_ENTRIES && API_ENTRIES[2] in API_ENTRIES;
    CreatedIsPatched(targets);
    ports := [
      ServicePort("px-api", 9001, Number(targets[9001])),
      ServicePort("px-sdk", 9020, Number(targets[9020])),
      ServicePort("px-rest-gateway", 9021, Number(targets[9021]))];
  }

  class ServiceServer {
    var now: Objects
    ghost var start: Objects
    ghost var writes: seq<Objects>     // what every write that landed has left
    ghost var faults: nat              // requests that reported an error

    /** Nothing changes but by a write on record. */
    ghost predicate Valid()
      reads this
    {
      now == if writes == [] then start else writes[|writes| - 1]
    }

    constructor (now: Objects)
      ensures Valid() && this.now == now && writes == []
    {
      this.now, start, writes, faults := now, now, [], 0;
    }

    twostate predicate GoesOn()
      reads this
    {
      Valid() && start == old(start) && old(writes) <= writes
    }

    method Write(next: Objects)
      requires Valid()
      modifies this`now, this`writes
      ensures GoesOn() && now == next && |writes| == |old(writes)| + 1
    {
      now, writes := next, writes + [next];
    }

    /** Both services have the targets chosen from these ports. */
    ghost predicate Carried(source: seq<ServicePort>)
      reads this
    {
      now.px.Some? && now.api.Some? && Carries(now.px.value, PX_ENTRIES, source) && Carries(now.api.value, API_ENTRIES, source)
    }

    /** The cluster role and the permissions for secrets; each request may land without saying so. */
    method GrantPermissions() returns (ok: bool)
      requires Valid()
      modifies this`now, this`writes, this`faults
      ensures faults == old(faults) + if ok then 0 else 1
      ensures GoesOn() && now == old(now).(granted := now.granted) && (old(now).granted || ok ==> now.granted)
    {
      var accepted, landed: bool := *, *;
      if accepted || landed {
        Write(now.(granted := true));
      }
      if !accepted {
        faults := faults + 1;
      }
      return accepted;
    }

    /** `checkAPIDaemonset`: create it if it is not there. */
    method CheckAPIDaemonset() returns (ok: bool)
      requires Valid()
      modifies this`now, this`writes, this`faults
      ensures faults == old(faults) + if ok then 0 else 1
      ensures GoesOn() && now == old(now).(apiDaemonSet := now.apiDaemonSet) && (old(now).apiDaemonSet || ok ==> now.apiDaemonSet)
    {
      var reachable, accepted, landed: bool := *, *, *;
      if !reachable {
        faults := faults + 1;
        return false;
      }
      if now.apiDaemonSet {
        return true;
      }
      if accepted || landed {
        Write(now.(apiDaemonSet := true));
      }
      if !accepted {
        faults := faults + 1;
      }
      return accepted;
    }

    /** `checkAPIService`: create the service, or patch it, with the same targets. */
    method CheckAPIService(targets: map<int, int>, ghost source: seq<ServicePort>) returns (ok: bool)
      requires Valid() && Agrees(targets, source, API_ENTRIES)
      modifies this`now, this`writes, this`faults
      ensures GoesOn() && now == old(now).(api := now.api) && faults == old(faults) + if ok then 0 else 1
      ensures now.api != old(now).api || ok ==> now.api.Some? && Carries(now.api.value, API_ENTRIES, source)
      ensures now.api != old(now).api || ok ==>
        now.api == Some(Patch(if old(now).api.Some? then old(now).api.value else [], API_ENTRIES, targets))
      ensures old(now).api.Some? ==> now.api.Some? && KeepsOthers(old(now).api.value, now.api.value, API_ENTRIES)
    {
      var reachable, accepted, landed: bool := *, *, *;
      if !reachable {
        faults := faults + 1;
        return false;
      }
      if accepted || landed {
        var ports := NextApi(now.api, targets, source);
        Write(now.(api := Some(ports)));
      }
      if !accepted {
        faults := faults + 1;
      }
      return accepted;
    }

    /** The first service is as it was, or the chosen targets were merged into it. */
    twostate predicate PxPatched()
      reads this
    {
      && (now.px.Some? <==> old(now).px.Some?)
      && (now.px == old(now).px || (Carries(now.px.value, PX_ENTRIES, old(now).px.value) && Merged(old(now).px.value, now.px.value)))
      && (now.px.Some? ==> forall p :: Chosen(now.px.value, p) == Chosen(old(now).px.value, p))
    }

    /** The targets are read, and `portworx-service` is patched with them. */
    method PatchService() returns (ok: bool, targets: map<int, int>)
      requires Valid()
      modifies this`now, this`writes, this`faults
      ensures GoesOn() && now == old(now).(px := now.px) && PxPatched() && faults == old(faults) + if ok then 0 else 1
      ensures ok ==> now.px.Some? && Carries(now.px.value, PX_ENTRIES, old(now).px.value) && Agrees(targets, old(now).px.value, API_ENTRIES)
    {
      var reachable, accepted, landed: bool := *, *, *;
      targets := map[];
      if now.px.None? || !reachable {
        faults := faults + 1;
        return false, targets;
      }
      ghost var source := now.px.value;
      targets := ReadTargetPorts(now.px.value);
      ReadAgrees(source, targets);
      if accepted || landed {
        PatchIsRight(source, targets);
        Write(now.(px := Some(Patch(now.px.value, PX_ENTRIES, targets))));
      }
      if !accepted {
        faults := faults + 1;
      }
      return accepted, targets;
    }

    /** The end of one round of `upgradePX` (a service that is missing is an error): the targets are read,
        `portworx-service` is patched with them, the API daemonset is made sure of, and `portworx-api` gets
        the same targets. On failure each is as it was or as intended, and none is changed before the one
        that comes first. */
    method UpdateServices() returns (ok: bool)
      requires Valid()
      modifies this`now, this`writes, this`faults
      ensures GoesOn() && PxPatched() && Follows(old(now).px, old(now).api, now.px, now.api)
      ensures now != old(now) ==> now.px.Some? && Carries(now.px.value, PX_ENTRIES, old(now).px.value)
      ensures now.api != old(now).api ==> now.apiDaemonSet
      ensures ok ==> old(now).px.Some? && Carried(old(now).px.value) && now.apiDaemonSet
      ensures now.granted == old(now).granted
      ensures old(faults) <= faults && (!ok ==> faults > old(faults))
    {
      var targets;
      ok, targets := PatchService();
      if ok {
        ok := CheckAPIDaemonset();
        if ok {
          ok := CheckAPIService(targets, old(now).px.value);
        }
      }
    }
  }

  lemma ReadAgrees(ports: seq<ServicePort>, targets: map<int, int>)
    requires forall p :: IsDefault(p) ==> p in targets && targets[p] == Chosen(ports, p)
    ensures Agrees(targets, ports, PX_ENTRIES) && Agrees(targets, ports, API_ENTRIES)
  {
    PxEntriesAreDefaults();
  }

  lemma PatchIsRight(source: seq<ServicePort>, targets: map<int, int>)
    requires Agrees(targets, source, PX_ENTRIES)
    ensures var now := Patch(source, PX_ENTRIES, targets);
      Carries(now, PX_ENTRIES, source) && Merged(source, now) && forall p :: Chosen(now, p) == Chosen(source, p)
  {
    PatchCarries(source, PX_ENTRIES, targets, source);
    PatchMerges(source, targets);
    forall p ensures Chosen(Patch(source, PX_ENTRIES, targets), p) == Chosen(source, p) {
      PatchReads(source, PX_ENTRIES, targets, p);
    }
  }

  lemma PxEntriesAreDefaults()
    ensures forall e :: e in PX_ENTRIES || e in API_ENTRIES ==> IsDefault(e.port)
  {
  }

  lemma CreatedIsPatched(targets: map<int, int>)
    requires 9001 in targets && 9020 in targets && 9021 in targets
    ensures Patch([], API_ENTRIES, targets) == [
      ServicePort("px-api", 9001, Number(targets[9001])),
      ServicePort("px-sdk", 9020, Number(targets[9020])),
      ServicePort("px-rest-gateway", 9021, Number(targets[9021]))]
  {
    var a, b, c := API_ENTRIES[0], API_ENTRIES[1], API_ENTRIES[2];
    assert a in API_ENTRIES && b in API_ENTRIES && c in API_ENTRIES;
    var one := [ServicePort("px-api", 9001, Number(targets[9001]))];
    var two := one + [ServicePort("px-sdk", 9020, Number(targets[9020]))];
    assert PatchOne([], a, targets[9001]) == one;
    assert PatchOne(one, b, targets[9020]) == two by {
      assert PatchOne(one[1..], b, targets[9020]) == [ServicePort("px-sdk", 9020, Number(targets[9020]))];
    }
    PatchOneAppends(two, c, targets[9021]);
    var rest := API_ENTRIES[1..];
    assert rest == [b, c] && rest[1..] == [c] && [c][1..] == [];
  }

  lemma {:induction false} PatchOneAppends(ports: seq<ServicePort>, e: Entry, target: int)
    requires forall i :: 0 <= i < |ports| ==> ports[i].port != e.port
    ensures PatchOne(ports, e, target) == ports + [ServicePort(e.name, e.port, Number(target))]
  {
    if ports != [] {
      PatchOneAppends(ports[1..], e, target);
    }
  }
}
