/** The shared volumes, and the wait for them to be detached. The claims are listed once; the driver
    is then asked about those volumes until none of them is attached outside the storage cluster. */
module Volumes {
  import opened Options

  datatype AttachState = Detached | Internal | External

  /** What was learnt about volumes: which ones to ask about, and how things stood when the driver
      answered. */
  datatype StorageEvent =
    | Listed(classes: seq<string>, volumes: seq<string>)
    | Polled(volumes: seq<string>, truth: map<string, AttachState>)

  ghost predicate AnyExternal(truth: map<string, AttachState>, volumes: seq<string>) {
    exists v :: v in volumes && v in truth && truth[v] == External
  }

  /** The volumes behind the claims of these storage classes, class by class. */
  function VolumesOf(claims: map<string, seq<string>>, classes: seq<string>): seq<string> {
    if classes == [] then []
    else
      var sc := classes[|classes| - 1];
      VolumesOf(claims, classes[..|classes| - 1]) + if sc in claims then claims[sc] else []
  }

  /** One listing, and then polls of the listed volumes only. */
  ghost predicate Rounds(es: seq<StorageEvent>, classes: seq<string>, volumes: seq<string>) {
    && (es != [] ==> es[0] == Listed(classes, volumes))
    && forall i :: 0 < i < |es| ==> es[i].Polled? && es[i].volumes == volumes
  }

  /** The last thing learnt is that none of the volumes is attached externally. */
  ghost predicate EndsDetached(es: seq<StorageEvent>, volumes: seq<string>) {
    |es| > 1 && es[|es| - 1].Polled? && !AnyExternal(es[|es| - 1].truth, volumes)
  }

  /** Some answer was that a volume is attached externally. */
  ghost predicate StillAttached(es: seq<StorageEvent>) {
    exists i :: 0 <= i < |es| && es[i].Polled? && AnyExternal(es[i].truth, es[i].volumes)
  }

  /** Which volumes are listed: those behind a claim of some class. */
  lemma {:induction false} VolumesAre(claims: map<string, seq<string>>, classes: seq<string>, v: string)
    ensures v in VolumesOf(claims, classes) <==> exists sc :: sc in classes && sc in claims && v in claims[sc]
  {
    if classes != [] {
      var rest, last := classes[..|classes| - 1], classes[|classes| - 1];
      VolumesAre(claims, rest, v);
      assert classes == rest + [last];
    }
  }

  class VolumeServer {
    var claims: map<string, seq<string>>       // the volumes behind the claims of each class
    var attached: map<string, AttachState>     // what the driver knows
    ghost var trace: seq<StorageEvent>
    ghost var faults: nat                      // requests that failed
    ghost var edits: nat                       // how often others changed claims

    constructor (claims: map<string, seq<string>>, attached: map<string, AttachState>)
      ensures this.claims == claims && this.attached == attached && trace == []
    {
      this.claims, this.attached := claims, attached;
      trace, faults, edits := [], 0, 0;
    }

    twostate predicate ClaimsKept()
      reads this
    {
      old(edits) <= edits && (edits == old(edits) ==> claims == old(claims))
    }

    /** Volumes are attached and detached, claims come and go. */
    method Interfere()
      modifies this`claims, this`attached, this`edits
      ensures ClaimsKept()
    {
      attached := *;
      if * {
        claims := *;
        edits := edits + 1;
      }
    }

    /** The volumes to ask about, one request for each shared storage class. */
    method ListVolumes(classes: seq<string>) returns (ok: bool, volumes: seq<string>)
      modifies this
      ensures ClaimsKept() && trace == old(trace) + if ok then [Listed(classes, volumes)] else []
      ensures faults == old(faults) + if ok then 0 else 1
      ensures ok && edits == old(edits) ==> volumes == VolumesOf(claims, classes)
    {
      ok, volumes := true, [];
      var n := 0;
      while n < |classes| && ok
        invariant n <= |classes| && ClaimsKept() && trace == old(trace) && faults == old(faults) + if ok then 0 else 1
        invariant edits == old(edits) ==> volumes == VolumesOf(claims, classes[..n])
        decreases |classes| - n
      {
        assert classes[..n + 1][..n] == classes[..n];
        Interfere();
        ok := *;
        if !ok {
          faults := faults + 1;
        }
        if classes[n] in claims {
          volumes := volumes + claims[classes[n]];
        }
        n := n + 1;
      }
      assert n == |classes| ==> classes[..n] == classes;
      if ok {
        trace := trace + [Listed(classes, volumes)];
      }
    }

    /** The driver's answer: the states of those volumes that it knows. */
    method Inspect(volumes: seq<string>) returns (ok: bool, states: seq<AttachState>)
      modifies this
      ensures ClaimsKept() && trace == old(trace) + if ok then [Polled(volumes, attached)] else []
      ensures faults == old(faults) + if ok then 0 else 1
      ensures ok ==> (External in states <==> AnyExternal(attached, volumes))
    {
      Interfere();
      ok, states := *, [];
      if ok {
        for n := 0 to |volumes|
          invariant External in states <==> exists v :: v in volumes[..n] && v in attached && attached[v] == External
        {
          if volumes[n] in attached {
            states := states + [attached[volumes[n]]];
          }
          assert volumes[..n + 1] == volumes[..n] + [volumes[n]];
        }
        assert volumes[..|volumes|] == volumes;
        trace := trace + [Polled(volumes, attached)];
      } else {
        faults := faults + 1;
      }
    }

    /** Any volume still attached outside the storage cluster? */
    method AnyAttached(states: seq<AttachState>) returns (found: bool)
      ensures found <==> External in states
    {
      for i := 0 to |states|
        invariant External !in states[..i]
      {
        if states[i].External? { return true; }
        assert states[..i + 1] == states[..i] + [states[i]];
      }
      assert states[..|states|] == states;
      return false;
    }

    /** `waitTillPXSharedVolumesDetached`, from the shared storage classes on: the volumes behind their
        claims are listed, then any number of polls, then a timeout. It returns nil only when
        the driver has just answered that no listed volume is attached externally. */
    method WaitTillDetached(classes: seq<string>) returns (out: Outcome, volumes: seq<string>)
      modifies this
      ensures ClaimsKept() && old(trace) <= trace && Rounds(trace[|old(trace)|..], classes, volumes)
      ensures (out.Ok? || out.Failed?) && old(faults) <= faults
      ensures out.Failed? ==> faults > old(faults) || StillAttached(trace[|old(trace)|..])
      ensures out.Ok? ==> EndsDetached(trace[|old(trace)|..], volumes)
      ensures out.Ok? && edits == old(edits) ==> volumes == VolumesOf(claims, classes)
    {
      var ok;
      ok, volumes := ListVolumes(classes);
      out := Failed;
      if !ok { return; }
      var polls: nat := *;
      if polls == 0 { polls := 1; }
      while polls > 0 && out.Failed?
        invariant ClaimsKept() && old(trace) <= trace && |trace| > |old(trace)| && Rounds(trace[|old(trace)|..], classes, volumes)
        invariant (out.Ok? || out.Failed?) && old(faults) <= faults
        invariant polls == 0 && out.Failed? ==> faults > old(faults) || StillAttached(trace[|old(trace)|..])
        invariant out.Ok? ==> EndsDetached(trace[|old(trace)|..], volumes)
        invariant edits == old(edits) ==> volumes == VolumesOf(claims, classes)
        decreases polls
      {
        polls := polls - 1;
        ghost var before := trace;
        var states;
        ok, states := Inspect(volumes);
        if ok {
          assert trace[|old(trace)|..] == before[|old(trace)|..] + [Polled(volumes, attached)];
          var found := AnyAttached(states);
          assert trace[|old(trace)|..][|before| - |old(trace)|] == Polled(volumes, attached);
          if !found { out := Ok; }
        }
      }
    }
  }
}
