/** The gate in front of an upgrade that drains nodes: no pod that uses a Portworx volume may be
    without a controller. */
module PodGate {
  import opened Options

  const PX_PROVISIONER := "kubernetes.io/portworx-volume"

  datatype Volume = Volume(direct: bool, claim: Option<string>)

  datatype Pod = Pod(ns: string, volumes: seq<Volume>, controllers: seq<Option<bool>>)

  datatype Claim = Claim(name: string, volumeName: string)

  datatype Provisioner = Named(name: string) | NoClass | Broken

  /** What the API server answers; a lookup that fails has no answer. */
  datatype Lookups = Lookups(
    claim: (string, string) -> Option<Claim>,
    isPxVolume: string -> Option<bool>,
    provisioner: Claim -> Provisioner)

  // ---------------------------------------------------------------- meaning

  /** The lookups about a claim all have answers; the provisioner matters only past the volume. */
  ghost predicate Answered(v: Volume, ns: string, q: Lookups) {
    v.direct || v.claim.None? || (
      var c := q.claim(v.claim.value, ns);
      c.Some? && var pv := q.isPxVolume(c.value.volumeName);
      pv.Some? && (pv.value || !q.provisioner(c.value).Broken?))
  }

  /** A volume of Portworx: directly, through a pre-provisioned volume, or by its provisioner. */
  ghost predicate IsPx(v: Volume, ns: string, q: Lookups) {
    v.direct || (v.claim.Some? && (
      var c := q.claim(v.claim.value, ns);
      c.Some? && (q.isPxVolume(c.value.volumeName) == Some(true) || q.provisioner(c.value) == Named("kubernetes.io/portworx-volume"))))
  }

  /** Some owner is the pod's controller. */
  ghost predicate Managed(pod: Pod) { exists i :: 0 <= i < |pod.controllers| && pod.controllers[i] == Some(true) }

  ghost predicate UsesPx(pod: Pod, q: Lookups) { exists i :: 0 <= i < |pod.volumes| && IsPx(pod.volumes[i], pod.ns, q) }

  /** Every lookup about the pod up to its first Portworx volume has an answer. */
  ghost predicate Decidable(pod: Pod, q: Lookups) {
    forall i :: 0 <= i < |pod.volumes| && !Answered(pod.volumes[i], pod.ns, q) ==>
      exists j :: 0 <= j < i && Answered(pod.volumes[j], pod.ns, q) && IsPx(pod.volumes[j], pod.ns, q)
  }

  // ---------------------------------------------------------------- the loops

  /** `isPodUsingPxVolume`. A lookup that fails is an error unless an earlier volume has settled the
      matter. */
  method IsPodUsingPxVolume(pod: Pod, q: Lookups) returns (r: Option<bool>)
    ensures r.Some? <==> Decidable(pod, q)
    ensures r.Some? ==> (r.value <==> UsesPx(pod, q))
  {
    for n := 0 to |pod.volumes|
      invariant forall i :: 0 <= i < n ==> Answered(pod.volumes[i], pod.ns, q) && !IsPx(pod.volumes[i], pod.ns, q)
    {
      var vol := pod.volumes[n];
      if vol.direct {
        return Some(true);
      }
      if vol.claim.Some? {
        var pvc := q.claim(vol.claim.value, pod.ns);
        if pvc.None? {
          return None;
        }
        var pv := q.isPxVolume(pvc.value.volumeName);
        if pv.None? {
          return None;
        }
        if pv.value {
          return Some(true);
        }
        var sc := q.provisioner(pvc.value);
        if sc.NoClass? {
          continue;
        }
        if sc.Broken? {
          return None;
        }
        if sc.name == PX_PROVISIONER {
          return Some(true);
        }
      }
    }
    return Some(false);
  }

  /** `getPodsUsingPX`: one pod that cannot be judged spoils the whole answer. */
  method GetPodsUsingPX(pods: Option<seq<Pod>>, q: Lookups) returns (r: Option<seq<Pod>>)
    ensures r.Some? <==> pods.Some? && forall i :: 0 <= i < |pods.value| ==> Decidable(pods.value[i], q)
    ensures r.Some? ==> forall pod :: multiset(r.value)[pod] == if UsesPx(pod, q) then multiset(pods.value)[pod] else 0
  {
    if pods.None? {
      return None;
    }
    var found := [];
    for n := 0 to |pods.value|
      invariant forall i :: 0 <= i < n ==> Decidable(pods.value[i], q)
      invariant forall pod :: multiset(found)[pod] == if UsesPx(pod, q) then multiset(pods.value[..n])[pod] else 0
    {
      var using := IsPodUsingPxVolume(pods.value[n], q);
      if using.None? {
        return None;
      }
      if using.value {
        found := found + [pods.value[n]];
      }
      assert pods.value[..n + 1] == pods.value[..n] + [pods.value[n]];
    }
    assert pods.value[..|pods.value|] == pods.value;
    return Some(found);
  }

  method IsPodBeingManaged(pod: Pod) returns (managed: bool)
    ensures managed <==> Managed(pod)
  {
    for n := 0 to |pod.controllers|
      invariant forall i :: 0 <= i < n ==> pod.controllers[i] != Some(true)
    {
      if pod.controllers[n].Some? && pod.controllers[n].value {
        return true;
      }
    }
    return false;
  }

  /** `IsAnyPXAppPodUnmanaged`: exact whenever it answers, and it answers exactly when the pods could be
      listed and each of them judged. */
  method IsAnyPXAppPodUnmanaged(pods: Option<seq<Pod>>, q: Lookups) returns (r: Option<bool>)
    ensures r.Some? <==> pods.Some? && forall i :: 0 <= i < |pods.value| ==> Decidable(pods.value[i], q)
    ensures r.Some? ==> (r.value <==> exists pod :: pod in pods.value && UsesPx(pod, q) && !Managed(pod))
  {
    var found := GetPodsUsingPX(pods, q);
    if found.None? {
      return None;
    }
    assert forall pod :: pod in found.value <==> pod in multiset(found.value);
    assert forall pod :: pod in pods.value <==> pod in multiset(pods.value);
    var unmanaged := [];
    for n := 0 to |found.value|
      invariant forall pod :: pod in unmanaged <==> pod in found.value[..n] && !Managed(pod)
    {
      var managed := IsPodBeingManaged(found.value[n]);
      if !managed {
        unmanaged := unmanaged + [found.value[n]];
      }
      assert found.value[..n + 1] == found.value[..n] + [found.value[n]];
    }
    assert found.value[..|found.value|] == found.value;
    if |unmanaged| > 0 {
      assert unmanaged[0] in unmanaged;
      return Some(true);
    }
    return Some(false);
  }
}
