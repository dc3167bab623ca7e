/** `Delete`: the configuration is read from a daemonset, then every Portworx component is deleted,
    then nodes and key-value store are wiped if that was asked for. Every request may fail, and a
    deletion may take effect and still report an error. */
module Teardown {
  import opened Options
  import opened Components
  import opened Config
  import opened Containers
  import Endpoints
  import Colons

  datatype Reply = Gone | NotFound | Error

  const WIPER := Key(DaemonSet, SYSTEM_NS, "px-node-wiper")

  /** A call of `DeleteTree`: the endpoints of the client, and the cluster name. */
  datatype TreeDelete = TreeDelete(endpoints: seq<string>, cluster: string)

  /** The `portworx` namespace exists when anything is in it. */
  ghost predicate Grounded(s: Store) {
    forall k :: k in s && k.ns == SECRETS_NS ==> Key(Namespace, "", SECRETS_NS) in s
  }

  /** A namespace is only ever deleted with all it holds. */
  ghost predicate Proper(t: Target) {
    match t
    case One(key) => key.kind != Namespace
    case Whole(ns) => ns == SECRETS_NS
  }

  ghost predicate AllProper(ts: seq<Target>) { forall i :: 0 <= i < |ts| ==> Proper(ts[i]) }

  predicate Present(s: Store, t: Target) {
    match t
    case One(key) => key in s
    case Whole(ns) => Key(Namespace, "", ns) in s
  }

  lemma RemovedOne(s: Store, ts: seq<Target>, n: nat)
    requires n < |ts|
    ensures Removed(Removed(s, ts[..n]), [ts[n]]) == Removed(s, ts[..n + 1])
  {
    assert ts[..n + 1] == ts[..n] + [ts[n]];
    RemovedConcat(s, ts[..n], [ts[n]]);
  }

  lemma RemovedConcat(s: Store, a: seq<Target>, b: seq<Target>)
    ensures Removed(Removed(s, a), b) == Removed(s, a + b)
  {
    forall k | k in s ensures HitBy(a + b, k) <==> HitBy(a, k) || HitBy(b, k) {
      HitByConcat(a, b, k);
    }
  }

  lemma HitByOne(t: Target, k: Key)
    ensures HitBy([t], k) <==> Hits(t, k)
  {
    assert Hits([t][0], k) <==> Hits(t, k);
  }

  /** Deleting what is not there changes nothing. */
  lemma AbsentIsRemoved(s: Store, t: Target)
    requires Grounded(s) && Proper(t) && !Present(s, t)
    ensures Removed(s, [t]) == s
  {
    forall k | k in s ensures !HitBy([t], k) {
      HitByOne(t, k);
    }
  }

  /** What a request is about is there exactly when it hits anything. */
  lemma PresentIsHit(s: Store, t: Target)
    requires Grounded(s) && Proper(t)
    ensures Present(s, t) <==> exists k :: k in s && Hits(t, k)
  {
    match t
    case One(key) => assert Hits(t, key);
    case Whole(ns) => assert Hits(t, Key(Namespace, "", ns));
  }

  lemma StaysGrounded(s: Store, t: Target)
    requires Grounded(s) && Proper(t)
    ensures Grounded(Removed(s, [t]))
  {
    forall k | k in s ensures HitBy([t], k) <==> Hits(t, k) {
      HitByOne(t, k);
    }
  }

  lemma InNamespaceIsProper(ns: string, cluster: string)
    ensures AllProper(InNamespace(ns, cluster))
  {
  }

  /** The deletions before the listing leave the bring-up maps alone. */
  lemma MapsAreStillThere(dss: seq<Key>, cluster: string, k: Key)
    requires BringUp(k) && forall d :: d in dss ==> d.kind == DaemonSet
    ensures !HitBy(Ones(dss) + ClusterWide(cluster), k)
  {
    HitByConcat(Ones(dss), ClusterWide(cluster), k);
    HitByOnes(dss, k);
    HitByClusterWide(cluster, k);
    BringUpIsNotNamed(k, [], cluster, {});
  }

  function Flatten<T>(groups: seq<seq<T>>): seq<T> {
    if groups == [] then [] else Flatten(groups[..|groups| - 1]) + groups[|groups| - 1]
  }

  lemma FlattenNext<T>(groups: seq<seq<T>>, i: nat)
    requires i < |groups|
    ensures Flatten(groups[..i + 1]) == Flatten(groups[..i]) + groups[i]
  {
    assert groups[..i + 1][..i] == groups[..i];
  }

  lemma {:induction false} FlattenPrefix<T>(groups: seq<seq<T>>, i: nat, n: nat)
    requires i <= |groups| && n <= |Flatten(groups[..i])|
    ensures n <= |Flatten(groups)| && Flatten(groups)[..n] == Flatten(groups[..i])[..n]
  {
    if i < |groups| {
      assert groups[..|groups| - 1][..i] == groups[..i];
      FlattenPrefix(groups[..|groups| - 1], i, n);
    } else {
      assert groups[..i] == groups;
    }
  }

  lemma {:induction false} FlattenNamespaces(nss: seq<string>, groups: seq<seq<Target>>, cluster: string)
    requires |groups| == |nss| && forall i :: 0 <= i < |nss| ==> groups[i] == InNamespace(nss[i], cluster)
    ensures Flatten(groups) == InNamespaces(nss, cluster) && forall g :: g in groups ==> AllProper(g)
  {
    if nss != [] {
      FlattenNamespaces(nss[..|nss| - 1], groups[..|nss| - 1], cluster);
      assert forall g :: g in groups ==> g in groups[..|nss| - 1] || g == InNamespace(nss[|nss| - 1], cluster);
      InNamespaceIsProper(nss[|nss| - 1], cluster);
    }
  }

  lemma FourParts<T>(a: seq<T>, b: seq<T>, c: seq<T>, d: seq<T>)
    ensures a + b + c + d == [] + a + (b + c + d) == a + b + (c + d) == a + b + c + d + []
  {
  }

  lemma RemovedNothing(s: Store)
    ensures Removed(s, []) == s
  {
  }

  lemma ClusterWideIsProper(cluster: string)
    ensures AllProper(ClusterWide(cluster))
  {
  }

  /** What was listed is what a run reports as listed. */
  ghost predicate Listings(run: Run, s: Store, nss: seq<string>, px: set<Key>) {
    && (forall k :: k in run.dss <==> k in s && k in px && k.kind == DaemonSet && k.ns in nss)
    && (forall name :: name in run.maps <==> run.listed && Key(ConfigMap, SYSTEM_NS, name) in s && BRING_UP_PREFIX <= name)
  }

  /** A run that has done the part `a` of its plan and `n` deletions of the next. */
  lemma StoppedInside(run: Run, s: Store, nss: seq<string>, cluster: string, px: set<Key>,
                      a: seq<Target>, ts: seq<Target>, rest: seq<Target>, n: nat)
    requires Listings(run, s, nss, px) && Plan(run.dss, run.maps, nss, cluster) == a + ts + rest
    requires n <= |ts| && run.done == |a| + n && (run.ok ==> n == |ts| && rest == [])
    ensures Effect(run, s, Removed(Removed(s, a), ts[..n]), nss, cluster, px)
  {
    RemovedConcat(s, a, ts[..n]);
    assert (a + ts + rest)[..|a| + n] == a + ts[..n];
  }

  lemma PrefixOfSum<T>(a: seq<T>, b: seq<T>, n: nat)
    requires n <= |b|
    ensures (a + b)[..|a| + n] == a + b[..n]
  {
  }

  /** There is a configuration to go on with. */
  predicate Deletes(parsed: Option<Parsed>) { parsed.Some? && (parsed.value.Usable? || parsed.value.InternalEtcd?) }

  ghost predicate AllReadable(urls: seq<string>) { forall i :: 0 <= i < |urls| ==> Endpoints.Readable(urls[i]) }

  ghost function AllRewritten(urls: seq<string>): seq<string>
    requires AllReadable(urls)
  {
    seq(|urls|, i requires 0 <= i < |urls| => Endpoints.Rewritten(urls[i]))
  }

  /** The rewriting panics: the first scheme is the expected one, and some endpoint has no colon. */
  ghost predicate RewritingPanics(urls: seq<string>) {
    urls != [] && Colons.Split(urls[0])[0] == "etcd" && !AllReadable(urls)
  }

  /** The endpoints can be rewritten. */
  ghost predicate CanRewrite(urls: seq<string>) { urls != [] && Colons.Split(urls[0])[0] == "etcd" && AllReadable(urls) }

  /** A single tree was deleted, the cluster's own, by a client of the rewritten endpoints. */
  ghost predicate OneMoreTree(before: seq<TreeDelete>, after: seq<TreeDelete>, st: Settings) {
    AllReadable(st.endpoints) && after == before + [TreeDelete(AllRewritten(st.endpoints), st.clusterName)]
  }

  // ---------------------------------------------------------------- a new process

  /** What does not change while a cluster is torn down: which keys carry Portworx's label, the
      containers of the daemonsets, and how records and secrets read. */
  datatype Install = Install(px: set<Key>, containers: map<Key, Template>, csv: Csv, secrets: Config.Secrets)

  /** A daemonset that a new process may take its configuration from: whichever is listed first. */
  ghost predicate Left(ds: Key, s: Store, found: seq<string>, x: Install) {
    ds in s && ds in x.px && ds in x.containers && ds.kind == DaemonSet && ds.ns in found
  }

  ghost function ParsedAt(ds: Key, x: Install): Parsed
    requires ds in x.containers
  {
    ParsedFrom(PxLine(x.containers[ds]), PxEnv(x.containers[ds]), x.csv, x.secrets)
  }

  /** This daemonset's configuration lets the teardown go on, and asks for the same config maps. */
  ghost predicate Continues(ds: Key, s: Store, nss: seq<string>, cluster: string, found: seq<string>, x: Install)
    requires ds in x.containers
  {
    Deletes(Some(ParsedAt(ds, x))) && MapsAgree(s, nss, cluster, found, ParsedAt(ds, x).settings.clusterName)
  }

  /** A new process finishes in this store, whichever daemonset it reads. */
  ghost predicate ProcessFinishes(s: Store, goal: Store, found: seq<string>, x: Install) {
    && found != []
    && forall ds :: Left(ds, s, found, x) ==>
         Deletes(Some(ParsedAt(ds, x))) && Finishes(s, goal, found, ParsedAt(ds, x).settings.clusterName, x.px)
  }

  /** From wherever failed runs stopped, a new process finishes what they began exactly when some
      daemonset is left, no component is stranded, and the configuration of every daemonset that is left
      can be used and asks for the same config maps. */
  lemma NewProcessFinishes(first: Store, s: Store, nss: seq<string>, cluster: string, found: seq<string>, x: Install)
    requires Shrinks(first, s, nss, cluster, x.px) && x.px <= x.containers.Keys
    requires forall ns :: ns in nss <==> Installed(first, x.px, ns)
    requires forall ns :: ns in found <==> Installed(s, x.px, ns)
    ensures ProcessFinishes(s, Clean(first, nss, cluster, x.px), found, x) <==>
      && found != [] && (forall k :: !Stranded(k, s, nss, x.px))
      && forall ds :: Left(ds, s, found, x) ==> Continues(ds, s, nss, cluster, found, x)
  {
    forall ds | Left(ds, s, found, x) && Deletes(Some(ParsedAt(ds, x)))
      ensures Finishes(s, Clean(first, nss, cluster, x.px), found, ParsedAt(ds, x).settings.clusterName, x.px) <==>
        (forall k :: !Stranded(k, s, nss, x.px)) && MapsAgree(s, nss, cluster, found, ParsedAt(ds, x).settings.clusterName)
    {
      RestartFinishes(first, s, nss, cluster, found, ParsedAt(ds, x).settings.clusterName, x.px);
    }
    if found != [] {
      assert found[0] in found;
      var ds :| ds in s && ds in x.px && ds.kind == DaemonSet && ds.ns == found[0];
      assert Left(ds, s, found, x);
    }
  }

  /** What a new process comes to that has read this daemonset and met no error of the server. */
  lemma NewProcessVerdict(first: Store, s: Store, nss: seq<string>, cluster: string, found: seq<string>, x: Install,
                          ds: Key, run: Run, after: Store)
    requires Shrinks(first, s, nss, cluster, x.px) && found != [] && Left(ds, s, found, x)
    requires forall ns :: ns in nss <==> Installed(first, x.px, ns)
    requires forall ns :: ns in found <==> Installed(s, x.px, ns)
    requires Deletes(Some(ParsedAt(ds, x))) ==> FullRun(run, s, after, found, ParsedAt(ds, x).settings.clusterName, x.px)
    ensures Deletes(Some(ParsedAt(ds, x))) && after == Clean(first, nss, cluster, x.px) <==>
      (forall k :: !Stranded(k, s, nss, x.px)) && Continues(ds, s, nss, cluster, found, x)
    ensures ProcessFinishes(s, Clean(first, nss, cluster, x.px), found, x) ==>
      Deletes(Some(ParsedAt(ds, x))) && after == Clean(first, nss, cluster, x.px)
  {
    if Deletes(Some(ParsedAt(ds, x))) {
      OneRunDecides(first, s, nss, cluster, found, ParsedAt(ds, x).settings.clusterName, x.px, run, after);
    }
  }

  /** Without `-c` and without `-b` there is no configuration to go on with. */
  lemma NoNameNoConfig(line: Line, env: seq<EnvVar>, csv: Csv, secrets: Config.Secrets)
    requires forall i :: 0 <= i < |line| ==> line[i].flag != Name && line[i].flag != Flag.Internal
    ensures !Deletes(Some(ParsedFrom(line, env, csv, secrets)))
  {
    AbsentHasNoValue(line, |line|, Name);
    AbsentHasNoValue(line, |line|, Flag.Internal);
  }

  /** Two daemonsets in one namespace, the second without a name: the run that stops after the first one
      strands nothing and leaves a daemonset, and still no new process gets anywhere. */
  lemma ANamelessDaemonsetIsLeft(ns: string, cluster: string, second: string, x: Install)
    requires second != "portworx"
    requires x.px == {PxIn(ns), Key(DaemonSet, ns, second)} && x.px <= x.containers.Keys
    requires var line := PxLine(x.containers[Key(DaemonSet, ns, second)]);
             forall i :: 0 <= i < |line| ==> line[i].flag != Name && line[i].flag != Flag.Internal
    ensures var rest := Key(DaemonSet, ns, second);
      && Effect(Run([PxIn(ns), rest], [], false, 1, false), x.px, {rest}, [ns], cluster, x.px)
      && (forall other :: other in [ns] <==> Installed({rest}, x.px, other))
      && (forall k :: !Stranded(k, {rest}, [ns], x.px)) && MapsAgree({rest}, [ns], cluster, [ns], cluster)
      && !ProcessFinishes({rest}, Clean(x.px, [ns], cluster, x.px), [ns], x)
  {
    var rest := Key(DaemonSet, ns, second);
    StoppedAfterOne(x.px, [PxIn(ns), rest], [ns], cluster, x.px);
    assert x.px - {PxIn(ns)} == {rest};
    forall other ensures other in [ns] <==> Installed({rest}, x.px, other) {
      if other == ns {
        assert rest in {rest} && rest.ns == ns;
      }
    }
    NoNameNoConfig(PxLine(x.containers[rest]), PxEnv(x.containers[rest]), x.csv, x.secrets);
    assert Left(rest, {rest}, [ns], x);
  }

  class ClusterServer {
    var store: Store
    const px: set<Key>                            // the keys that carry Portworx's label
    const containers: map<Key, Template>    // the containers of the daemonsets
    var namespaces: seq<string>                   // where Portworx was found installed
    ghost var faults: nat                         // requests that reported an error of the server
    ghost var trees: seq<TreeDelete>              // the trees deleted from the key-value store
    ghost var nodeWipes: nat                      // runs of the node wiper
    ghost var wipers: nat                         // wipers that were created
    ghost var unready: nat                        // wipers that did not become ready
    ghost var kvdbFaults: nat                     // failures of the key-value store
    ghost var treeWipes: nat                      // calls of `wipePXKvdb`
    ghost var guarded: nat                        // how often a guard of `wipePXKvdb` was the reason to stop

    ghost predicate Valid()
      reads this
    {
      Grounded(store) && px <= containers.Keys && WIPER !in px &&
      forall i, j :: 0 <= i < j < |namespaces| ==> namespaces[i] != namespaces[j]
    }

    constructor (store: Store, px: set<Key>, containers: map<Key, Template>)
      requires Grounded(store) && px <= containers.Keys && WIPER !in px
      ensures Valid() && this.store == store && this.px == px && this.containers == containers && namespaces == []
    {
      this.store, this.px, this.containers, namespaces := store, px, containers, [];
      faults, trees, nodeWipes, treeWipes, guarded := 0, [], 0, 0, 0;
      wipers, unready, kvdbFaults := 0, 0, 0;
    }

    // -------------------------------------------------------------- requests

    method DeleteTarget(t: Target) returns (r: Reply)
      requires Valid() && Proper(t)
      modifies this`store, this`faults
      ensures Valid()
      ensures !r.Error? ==> store == Removed(old(store), [t]) && faults == old(faults)
      ensures !r.Error? ==> (r.Gone? <==> exists k :: k in old(store) && Hits(t, k))
      ensures r.Error? ==> faults == old(faults) + 1 && (store == old(store) || store == Removed(old(store), [t]))
    {
      StaysGrounded(store, t);
      PresentIsHit(store, t);
      var broken, lands: bool := *, *;
      if broken {
        faults := faults + 1;
        r := Error;
      } else if Present(store, t) {
        r := Gone;
      } else {
        AbsentIsRemoved(store, t);
        return NotFound;
      }
      if !broken || lands {
        forall k | k in store ensures HitBy([t], k) <==> Hits(t, k) { HitByOne(t, k); }
        store := set k | k in store && !Hits(t, k);
      }
    }

    /** The keys of a set in some order. */
    method Enumerate(keys: set<Key>) returns (listed: seq<Key>)
      ensures forall k :: k in listed <==> k in keys
      ensures forall i, j :: 0 <= i < j < |listed| ==> listed[i] != listed[j]
    {
      listed := [];
      var rest := keys;
      while rest != {}
        invariant rest <= keys
        invariant forall k :: k in listed <==> k in keys - rest
        invariant forall i, j :: 0 <= i < j < |listed| ==> listed[i] != listed[j]
      {
        var k :| k in rest;
        assert k !in listed;
        listed, rest := listed + [k], rest - {k};
      }
    }

    predicate IsPx(k: Key, ns: string) { k in px && k.kind == DaemonSet && k.ns == ns }

    method ListDaemonSets(ns: string) returns (ok: bool, dss: seq<Key>)
      modifies this`faults
      ensures if ok then faults == old(faults) else faults == old(faults) + 1
      ensures ok ==> forall k :: k in dss <==> k in store && IsPx(k, ns)
      ensures ok ==> forall i, j :: 0 <= i < j < |dss| ==> dss[i] != dss[j]
    {
      ok := *;
      dss := [];
      if ok {
        dss := Enumerate(set k | k in store && IsPx(k, ns));
      } else {
        faults := faults + 1;
      }
    }

    /** The detection of `NewPXClusterProvider`: the namespaces, of those listed, that hold a Portworx
        daemonset. With none there is no provider. */
    method DetectInstalled(all: seq<string>) returns (ok: bool)
      requires Valid() && forall i, j :: 0 <= i < j < |all| ==> all[i] != all[j]
      modifies this`namespaces, this`faults
      ensures Valid()
      ensures ok ==> faults == old(faults)
      ensures ok ==> namespaces != [] && forall ns :: ns in namespaces <==> ns in all && Installed(store, px, ns)
      ensures !ok ==> faults > old(faults) || forall ns :: ns in all ==> !Installed(store, px, ns)
    {
      var found := [];
      for n := 0 to |all|
        invariant Valid() && namespaces == old(namespaces) && faults == old(faults)
        invariant forall ns :: ns in found <==> ns in all[..n] && Installed(store, px, ns)
        invariant forall i, j :: 0 <= i < j < |found| ==> found[i] != found[j]
      {
        var listed, dss := ListDaemonSets(all[n]);
        if !listed {
          return false;
        }
        if |dss| > 0 {
          assert dss[0] in dss;
          found := found + [all[n]];
        }
        assert |dss| > 0 <==> Installed(store, px, all[n]);
        assert all[..n + 1] == all[..n] + [all[n]];
      }
      assert all[..|all|] == all;
      if found == [] {
        return false;
      }
      namespaces := found;
      return true;
    }

    /** `getPXDaemonsets`. What is to be listed is known even if the listing fails. */
    method GetPXDaemonsets() returns (ok: bool, dss: seq<Key>, ghost all: seq<Key>)
      requires Valid()
      modifies this`faults
      ensures Valid() && (if ok then faults == old(faults) && dss == all else faults > old(faults))
      ensures forall k :: k in all <==> k in store && k in px && k.kind == DaemonSet && k.ns in namespaces
      ensures forall i, j :: 0 <= i < j < |all| ==> all[i] != all[j]
    {
      all := Enumerate(set k | k in store && k in px && k.kind == DaemonSet && k.ns in namespaces);
      dss := [];
      for n := 0 to |namespaces|
        invariant Valid() && faults == old(faults)
        invariant forall k :: k in dss <==> k in store && k in px && k.kind == DaemonSet && k.ns in namespaces[..n]
        invariant forall i, j :: 0 <= i < j < |dss| ==> dss[i] != dss[j]
      {
        var listed, here := ListDaemonSets(namespaces[n]);
        if !listed {
          return false, dss, all;
        }
        assert forall k :: k in here ==> k !in dss;
        dss := dss + here;
        assert namespaces[..n + 1] == namespaces[..n] + [namespaces[n]];
      }
      assert namespaces[..|namespaces|] == namespaces;
      return true, dss, dss;
    }

    // -------------------------------------------------------------- loops of deletions

    /** A loop of deletions in which an object that is not there is as good as deleted. */
    method DeleteEach(ts: seq<Target>) returns (ok: bool, ghost n: nat)
      requires Valid() && AllProper(ts)
      modifies this`store, this`faults
      ensures Valid() && n <= |ts| && (ok ==> n == |ts|)
      ensures store == Removed(old(store), ts[..n])
      ensures if ok then faults == old(faults) else faults > old(faults)
    {
      n := 0;
      for i := 0 to |ts|
        invariant Valid() && n == i && faults == old(faults)
        invariant store == Removed(old(store), ts[..n])
      {
        var r := DeleteTarget(ts[i]);
        RemovedOne(old(store), ts, i);
        if r.Error? {
          if store == Removed(old(store), ts[..i + 1]) {
            n := i + 1;
          }
          return false, n;
        }
        n := n + 1;
      }
      return true, n;
    }

    /** The loop over listed daemonsets, in which one that is not there is an error. */
    method DeleteListed(dss: seq<Key>) returns (ok: bool, ghost n: nat)
      requires Valid() && forall k :: k in dss ==> k in store && k.kind == DaemonSet
      requires forall i, j :: 0 <= i < j < |dss| ==> dss[i] != dss[j]
      modifies this`store, this`faults
      ensures Valid() && n <= |dss| && (ok ==> n == |dss|)
      ensures store == Removed(old(store), Ones(dss)[..n])
      ensures if ok then faults == old(faults) else faults > old(faults)
    {
      ghost var ts := Ones(dss);
      n := 0;
      for i := 0 to |dss|
        invariant Valid() && n == i && faults == old(faults)
        invariant store == Removed(old(store), ts[..n])
        invariant forall j :: i <= j < |dss| ==> dss[j] in store
      {
        var r := DeleteTarget(One(dss[i]));
        RemovedOne(old(store), ts, i);
        if !r.Gone? {
          if store == Removed(old(store), ts[..i + 1]) {
            n := i + 1;
          }
          return false, n;
        }
        forall j | i + 1 <= j < |dss| ensures dss[j] in store {
          HitByOne(One(dss[i]), dss[j]);
        }
        n := n + 1;
      }
      return true, n;
    }

    /** Loops of deletions one after another. */
    method DeleteGroups(groups: seq<seq<Target>>) returns (ok: bool, ghost n: nat)
      requires Valid() && forall g :: g in groups ==> AllProper(g)
      modifies this`store, this`faults
      ensures Valid() && n <= |Flatten(groups)| && (ok ==> n == |Flatten(groups)|)
      ensures store == Removed(old(store), Flatten(groups)[..n])
      ensures if ok then faults == old(faults) else faults > old(faults)
    {
      n := 0;
      for i := 0 to |groups|
        invariant Valid() && faults == old(faults)
        invariant n == |Flatten(groups[..i])|
        invariant store == Removed(old(store), Flatten(groups[..i]))
      {
        ghost var before := Flatten(groups[..i]);
        var ts := groups[i];
        FlattenNext(groups, i);
        ghost var m;
        ok, m := DeleteEach(ts);
        RemovedConcat(old(store), before, ts[..m]);
        n := n + m;
        if !ok {
          PrefixOfSum(before, ts, m);
          FlattenPrefix(groups, i + 1, n);
          return;
        }
        assert ts[..m] == ts;
      }
      assert groups[..|groups|] == groups;
      assert Flatten(groups)[..n] == Flatten(groups);
      ok := true;
    }

    /** The loop over the namespaces in which Portworx is installed. */
    method DeleteInNamespaces(cluster: string) returns (ok: bool, ghost n: nat)
      requires Valid()
      modifies this`store, this`faults
      ensures Valid() && n <= |InNamespaces(namespaces, cluster)| && (ok ==> n == |InNamespaces(namespaces, cluster)|)
      ensures store == Removed(old(store), InNamespaces(namespaces, cluster)[..n])
      ensures if ok then faults == old(faults) else faults > old(faults)
    {
      var nss := namespaces;
      var groups := seq(|nss|, i requires 0 <= i < |nss| => InNamespace(nss[i], cluster));
      FlattenNamespaces(nss, groups, cluster);
      ok, n := DeleteGroups(groups);
    }

    /** The config maps of the system namespace that carry the bring-up prefix. A listing that fails is
        taken for an empty one. */
    method FindBringUpMaps() returns (names: seq<string>, ghost listed: bool)
      requires Valid()
      modifies this`faults
      ensures Valid() && (if listed then faults == old(faults) else faults == old(faults) + 1)
      ensures forall name :: name in names <==> listed && Key(ConfigMap, SYSTEM_NS, name) in store && BRING_UP_PREFIX <= name
    {
      var broken: bool := *;
      var items := [];
      listed := !broken;
      if broken {
        faults := faults + 1;
      } else {
        items := Enumerate(set k | k in store && k.kind == ConfigMap && k.ns == SYSTEM_NS);
      }
      names := [];
      for n := 0 to |items|
        invariant forall name :: name in names <==>
          BRING_UP_PREFIX <= name && Key(ConfigMap, SYSTEM_NS, name) in items[..n]
      {
        assert items[n] in items;
        if BRING_UP_PREFIX <= items[n].name {
          names := names + [items[n].name];
        }
        assert items[..n + 1] == items[..n] + [items[n]];
      }
      assert items[..|items|] == items;
    }

    // -------------------------------------------------------------- deleteAllPXComponents

    /** Everything after the daemonsets; `s` is the store before them. */
    method DeleteTheRest(cluster: string, ghost s: Store, ghost dss: seq<Key>) returns (ok: bool, ghost run: Run)
      requires Valid() && store == Removed(s, Ones(dss)) && Listings(Run(dss, [], false, 0, false), s, namespaces, px)
      modifies this`store, this`faults
      ensures Valid() && run.ok == ok && Effect(run, s, store, namespaces, cluster, px)
      ensures !ok || !run.listed ==> faults > old(faults)
      ensures faults >= old(faults)
    {
      ghost var a, d := Ones(dss), InNamespaces(namespaces, cluster);
      var b := ClusterWide(cluster);
      ClusterWideIsProper(cluster);
      ghost var n;
      ok, n := DeleteEach(b);
      if !ok {
        run := Run(dss, [], false, |a| + n, false);
        ghost var c0 := Named(ConfigMap, SYSTEM_NS, SystemMaps(cluster) + []);
        FourParts(a, b, c0, d);
        StoppedInside(run, s, namespaces, cluster, px, a, b, c0 + d, n);
        return;
      }
      assert b[..n] == b;
      RemovedConcat(s, a, b);
      ghost var listed;
      var names: seq<string>;
      names, listed := FindBringUpMaps();
      run := Run(dss, names, listed, 0, false);
      forall name ensures name in names <==> listed && Key(ConfigMap, SYSTEM_NS, name) in s && BRING_UP_PREFIX <= name {
        if BRING_UP_PREFIX <= name {
          MapsAreStillThere(dss, cluster, Key(ConfigMap, SYSTEM_NS, name));
        }
      }
      ok, run := DeleteMapsAndComponents(cluster, s, run, names);
    }

    /** The config maps of the system namespace, then the components of every namespace. */
    method DeleteMapsAndComponents(cluster: string, ghost s: Store, ghost found: Run, names: seq<string>)
      returns (ok: bool, ghost run: Run)
      requires Valid() && store == Removed(s, Ones(found.dss) + ClusterWide(cluster)) && Listings(found, s, namespaces, px)
      requires names == found.maps
      modifies this`store, this`faults
      ensures Valid() && run.ok == ok && run.listed == found.listed && Effect(run, s, store, namespaces, cluster, px)
      ensures !ok ==> faults > old(faults)
      ensures faults >= old(faults)
    {
      ghost var a, b, d := Ones(found.dss), ClusterWide(cluster), InNamespaces(namespaces, cluster);
      var c := Named(ConfigMap, SYSTEM_NS, SystemMaps(cluster) + names);
      FourParts(a, b, c, d);
      ghost var n;
      ok, n := DeleteEach(c);
      if !ok {
        run := found.(done := |a + b| + n, ok := false);
        StoppedInside(run, s, namespaces, cluster, px, a + b, c, d, n);
        return;
      }
      assert c[..n] == c;
      RemovedConcat(s, a + b, c);
      ok, n := DeleteInNamespaces(cluster);
      run := found.(done := |a + b + c| + n, ok := ok);
      StoppedInside(run, s, namespaces, cluster, px, a + b + c, d, [], n);
    }

    /** `deleteAllPXComponents`. An error of the server is the only reason for it to fail. */
    method DeleteAllPXComponents(cluster: string) returns (ok: bool, ghost run: Run)
      requires Valid()
      modifies this`store, this`faults
      ensures Valid() && run.ok == ok && Effect(run, old(store), store, namespaces, cluster, px)
      ensures !ok || !run.listed ==> faults > old(faults)
      ensures faults >= old(faults)
    {
      ghost var s, all := store, [];
      var dss: seq<Key>;
      ok, dss, all := GetPXDaemonsets();
      run := Run(all, [], false, 0, false);
      ghost var a, b := Ones(all), ClusterWide(cluster);
      ghost var c, d := Named(ConfigMap, SYSTEM_NS, SystemMaps(cluster) + []), InNamespaces(namespaces, cluster);
      FourParts(a, b, c, d);
      RemovedNothing(s);
      ghost var n := 0;
      if ok {
        ok, n := DeleteListed(dss);
      }
      if !ok {
        run := run.(done := n);
        StoppedInside(run, s, namespaces, cluster, px, [], a, b + c + d, n);
        return;
      }
      assert a[..n] == a;
      ok, run := DeleteTheRest(cluster, s, dss);
    }

    // -------------------------------------------------------------- wiping

    /** The wiper is created; the request may land without saying so. */
    method CreateWiper() returns (created: bool)
      requires Valid()
      modifies this`store, this`faults, this`wipers
      ensures Valid() && old(wipers) <= wipers <= old(wipers) + 1
      ensures store == if wipers > old(wipers) then old(store) + {Key(DaemonSet, "kube-system", "px-node-wiper")} else old(store)
      ensures faults == old(faults) + (if created then 0 else 1) && (created ==> wipers > old(wipers))
    {
      var landed: bool := *;
      created := *;
      if created || landed {
        store := store + {WIPER};
        wipers := wipers + 1;
      }
      if !created {
        faults := faults + 1;
      }
    }

    /** `runDaemonSet` with the node wiper: it is deleted before and, once created, after. Nothing else
        changes, and only an error of the server can leave it behind. */
    method RunNodeWiper() returns (ok: bool)
      requires Valid()
      modifies this`store, this`faults, this`nodeWipes, this`wipers, this`unready
      ensures Valid() && nodeWipes == old(nodeWipes) + 1 && store - {WIPER} == old(store) - {WIPER}
      ensures faults >= old(faults) && (WIPER in store ==> faults > old(faults))
      ensures old(wipers) <= wipers <= old(wipers) + 1 && (faults == old(faults) || ok ==> wipers == old(wipers) + 1)
      ensures !ok ==> faults > old(faults) || unready > old(unready)
    {
      nodeWipes := nodeWipes + 1;
      var r := DeleteTarget(One(WIPER));
      forall k ensures HitBy([One(WIPER)], k) <==> k == WIPER { HitByOne(One(WIPER), k); }
      if r.Error? {
        return false;
      }
      var created := CreateWiper();
      if !created {
        return false;
      }
      ok := *;
      if !ok {
        unready := unready + 1;
      }
      r := DeleteTarget(One(WIPER));
    }

    /** `wipePXKvdb`: a tree is deleted only with a cluster name and with endpoints, all of them
        rewritten. An endpoint without a colon ends the process. */
    method WipePXKvdb(endpoints: seq<string>, cluster: string) returns (r: Outcome)
      modifies this`trees, this`treeWipes, this`guarded, this`kvdbFaults
      ensures treeWipes == old(treeWipes) + 1
      ensures guarded == old(guarded) + (if endpoints == [] || cluster == "" then 1 else 0)
      ensures trees != old(trees) ==> endpoints != [] && cluster != "" && AllReadable(endpoints)
      ensures trees != old(trees) ==> trees == old(trees) + [TreeDelete(AllRewritten(endpoints), cluster)]
      ensures r.Panicked? <==> cluster != "" && RewritingPanics(endpoints)
      ensures r.Panicked? ==> trees == old(trees)
      ensures !r.Died?
      ensures kvdbFaults >= old(kvdbFaults) && (r.Ok? <==> trees != old(trees) && kvdbFaults == old(kvdbFaults))
      ensures kvdbFaults == old(kvdbFaults) && cluster != "" && CanRewrite(endpoints) ==> r.Ok? && trees != old(trees)
    {
      treeWipes := treeWipes + 1;
      if endpoints == [] || cluster == "" {
        guarded := guarded + 1;
        return Failed;
      }
      var a := new string[|endpoints|](i requires 0 <= i < |endpoints| => endpoints[i]);
      assert forall i :: 0 <= i < a.Length ==> a[i] == endpoints[i];
      label given:
      var rewriting, n := Endpoints.RewriteEndpoints(a);
      assert forall i :: 0 <= i < a.Length ==> old@given(a[i]) == endpoints[i];
      if !rewriting.Ok? {
        return rewriting;
      }
      forall i | 0 <= i < |endpoints| ensures Endpoints.Readable(endpoints[i]) && a[i] == Endpoints.Rewritten(endpoints[i]) {
        assert old@given(a[i]) == endpoints[i];
      }
      var client, deleted: bool := *, *;
      if !client {
        kvdbFaults := kvdbFaults + 1;
        return Failed;
      }
      assert a[..] == AllRewritten(endpoints);
      trees := trees + [TreeDelete(a[..], cluster)];
      if !deleted {
        kvdbFaults := kvdbFaults + 1;
      }
      return if deleted then Ok else Failed;
    }

    // -------------------------------------------------------------- Delete

    /** The configuration of the first daemonset listed, when there is one. */
    method ReadConfig(csv: Csv, secrets: Config.Secrets) returns (parsed: Option<Parsed>, ghost from: Key)
      requires Valid()
      modifies this`faults
      ensures Valid() && faults >= old(faults)
      ensures parsed.Some? ==> ReadFrom(parsed.value, from, csv, secrets)
      ensures parsed.Some? && parsed.value.Usable? ==>
        parsed.value.settings.endpoints != [] && parsed.value.settings.clusterName != ""
      ensures parsed.None? ==> faults > old(faults) || forall ns :: ns in namespaces ==> !Installed(store, px, ns)
    {
      var ok, dss, all := GetPXDaemonsets();
      from := WIPER;
      if !ok {
        return None, from;
      }
      if dss == [] {
        return None, from;
      }
      assert dss[0] in dss;
      var p := ParseConfig(containers[dss[0]], csv, secrets);
      return Some(p), dss[0];
    }

    /** The configuration is that of a Portworx daemonset in an installed namespace. */
    ghost predicate ReadFrom(parsed: Parsed, from: Key, csv: Csv, secrets: Config.Secrets)
      reads this
    {
      && from in store && from in px && from.kind == DaemonSet && from.ns in namespaces && from in containers
      && parsed == ParsedFrom(PxLine(containers[from]), PxEnv(containers[from]), csv, secrets)
    }

    /** A wipe wipes: the nodes unless the server fails, the store's tree unless the store does. */
    twostate predicate Wiped(config: Parsed)
      reads this
    {
      && old(faults) <= faults && old(kvdbFaults) <= kvdbFaults && (faults == old(faults) ==> wipers == old(wipers) + 1)
      && (kvdbFaults == old(kvdbFaults) && config.Usable? && CanRewrite(config.settings.endpoints) ==> trees != old(trees))
    }

    /** The wipe, of which no error shows. */
    method Wipe(config: Parsed) returns (r: Outcome)
      requires Valid() && Deletes(Some(config))
      requires config.Usable? ==> config.settings.endpoints != [] && config.settings.clusterName != ""
      modifies this`store, this`faults, this`trees, this`nodeWipes, this`treeWipes, this`guarded, this`wipers, this`unready, this`kvdbFaults
      ensures Valid() && guarded == old(guarded) && !r.Failed?
      ensures nodeWipes == old(nodeWipes) + 1 && treeWipes == old(treeWipes) + if config.Usable? then 1 else 0
      ensures (r.Panicked? <==> config.Usable? && RewritingPanics(config.settings.endpoints)) && !r.Died?
      ensures store - {WIPER} == old(store) - {WIPER}
      ensures faults >= old(faults) && (WIPER in store ==> faults > old(faults))
      ensures trees != old(trees) ==> config.Usable? && OneMoreTree(old(trees), trees, config.settings)
      ensures Wiped(config)
    {
      var _ := RunNodeWiper();
      r := Ok;
      if config.Usable? {
        var wiped := WipePXKvdb(config.settings.endpoints, config.settings.clusterName);
        if wiped.Panicked? {
          r := Panicked;
        }
      }
    }

    method RemoveAndWipe(config: Parsed, wipe: bool) returns (r: Outcome, ghost run: Run, ghost mid: Store)
      requires Valid() && Deletes(Some(config))
      requires config.Usable? ==> config.settings.endpoints != [] && config.settings.clusterName != ""
      modifies this`store, this`faults, this`trees, this`nodeWipes, this`treeWipes, this`guarded, this`wipers, this`unready, this`kvdbFaults
      ensures Valid() && guarded == old(guarded)
      ensures nodeWipes == old(nodeWipes) + if wipe && run.ok then 1 else 0
      ensures treeWipes == old(treeWipes) + if wipe && run.ok && config.Usable? then 1 else 0
      ensures r.Panicked? <==> wipe && run.ok && config.Usable? && RewritingPanics(config.settings.endpoints)
      ensures !r.Died?
      ensures Effect(run, old(store), mid, namespaces, config.settings.clusterName, px)
      ensures !run.ok || !run.listed ==> faults > old(faults)
      ensures store - {WIPER} == mid - {WIPER} && (r.Failed? <==> !run.ok)
      ensures !(wipe && run.ok) ==> store == mid && trees == old(trees)
      ensures wipe && run.ok && WIPER in store ==> faults > old(faults)
      ensures trees != old(trees) ==> config.Usable? && OneMoreTree(old(trees), trees, config.settings)
      ensures faults >= old(faults) && (wipe && run.ok ==> Wiped(config)) && (!(wipe && run.ok) ==> wipers == old(wipers))
    {
      var ok;
      ok, run := DeleteAllPXComponents(config.settings.clusterName);
      mid := store;
      r := if ok then Ok else Failed;
      if ok && wipe {
        r := Wipe(config);
      }
    }

    /** `Delete`. Without a configuration it does nothing at all. The tree is deleted only when wiping
        was asked for, all components are deleted and the cluster has no internal etcd, and the guards
        of `wipePXKvdb` are never the reason to stop. Errors while wiping do not show. */
    method Delete(wipe: bool, csv: Csv, secrets: Config.Secrets)
      returns (r: Outcome, ghost parsed: Option<Parsed>, ghost from: Key, ghost run: Run, ghost mid: Store)
      requires Valid()
      modifies this`store, this`faults, this`trees, this`nodeWipes, this`treeWipes, this`guarded, this`wipers, this`unready, this`kvdbFaults
      ensures Valid() && guarded == old(guarded) && namespaces == old(namespaces)
      ensures parsed.Some? ==> old(ReadFrom(parsed.value, from, csv, secrets))
      ensures parsed.None? ==> faults > old(faults) || forall ns :: ns in namespaces ==> !Installed(old(store), px, ns)
      ensures !Deletes(parsed) ==> r == (if parsed == Some(Crashed) then Panicked else Failed)
      ensures !Deletes(parsed) ==> store == old(store) && trees == old(trees)
      ensures nodeWipes == old(nodeWipes) + if Deletes(parsed) && wipe && run.ok then 1 else 0
      ensures treeWipes == old(treeWipes) + if Deletes(parsed) && wipe && run.ok && parsed.value.Usable? then 1 else 0
      ensures Deletes(parsed) ==>
        (r.Panicked? <==> wipe && run.ok && parsed.value.Usable? && RewritingPanics(parsed.value.settings.endpoints))
      ensures !r.Died?
      ensures Deletes(parsed) ==> Effect(run, old(store), mid, namespaces, parsed.value.settings.clusterName, px)
      ensures Deletes(parsed) && (!run.ok || !run.listed) ==> faults > old(faults)
      ensures faults >= old(faults) && (!Deletes(parsed) ==> mid == store)
      ensures Deletes(parsed) ==> store - {WIPER} == mid - {WIPER} && (r.Failed? <==> !run.ok)
      ensures Deletes(parsed) && !(wipe && run.ok) ==> store == mid && trees == old(trees)
      ensures Deletes(parsed) && wipe && run.ok && WIPER in store ==> faults > old(faults)
      ensures trees != old(trees) ==> Deletes(parsed) && wipe && run.ok && parsed.value.Usable?
      ensures trees != old(trees) ==> OneMoreTree(old(trees), trees, parsed.value.settings)
      ensures Deletes(parsed) && wipe && run.ok ==> Wiped(parsed.value)
      ensures !(Deletes(parsed) && wipe && run.ok) ==> wipers == old(wipers)
    {
      run, mid := Run([], [], false, 0, false), store;
      var config: Option<Parsed>;
      config, from := ReadConfig(csv, secrets);
      parsed := config;
      if config.None? || config.value.Unusable? {
        r := Failed;
        return;
      }
      if config.value.Crashed? {
        r := Panicked;
        return;
      }
      r, run, mid := RemoveAndWipe(config.value, wipe);
    }

    ghost function Installation(csv: Csv, secrets: Config.Secrets): Install { Install(px, containers, csv, secrets) }

    /** `NewPXClusterProvider` and then `Delete`, by a new process after failed ones. As long as the server
        does not fail, exactly the components are gone in the end if and only if some daemonset was left,
        nothing was stranded, and the configuration that was read could be used and asked for the same
        config maps. It cannot go wrong when that holds of every daemonset that was left. */
    method DeleteByNewProcess(all: seq<string>, wipe: bool, csv: Csv, secrets: Config.Secrets,
                              ghost first: Store, ghost nss: seq<string>, ghost cluster: string)
      returns (r: Outcome, ghost found: seq<string>, ghost from: Option<Key>, ghost deleted: bool, ghost mid: Store)
      requires Valid() && (forall i, j :: 0 <= i < j < |all| ==> all[i] != all[j])
      requires forall ns :: Installed(store, px, ns) ==> ns in all
      requires Shrinks(first, store, nss, cluster, px) && forall ns :: ns in nss <==> Installed(first, px, ns)
      modifies this
      ensures Valid() && !r.Died? && (r.Ok? ==> deleted) && (deleted ==> !r.Failed?)
      ensures store - {WIPER} == mid - {WIPER} && (!wipe ==> store == mid)
      ensures from.Some? ==> Left(from.value, old(store), found, Installation(csv, secrets))
      ensures faults == old(faults) ==> forall ns :: ns in found <==> Installed(old(store), px, ns)
      ensures faults == old(faults) ==>
        (deleted && mid == Clean(first, nss, cluster, px) <==>
         && from.Some? && (forall k :: !Stranded(k, old(store), nss, px))
         && Continues(from.value, old(store), nss, cluster, found, Installation(csv, secrets)))
      ensures faults == old(faults) && ProcessFinishes(old(store), Clean(first, nss, cluster, px), found, Installation(csv, secrets)) ==>
        deleted && mid == Clean(first, nss, cluster, px)
    {
      ghost var s := store;
      r, found, from, deleted, mid := Failed, [], None, false, store;
      var ok := DetectInstalled(all);
      if !ok { return; }
      found := namespaces;
      assert found[0] in found;
      ghost var parsed, ds, run;
      r, parsed, ds, run, mid := Delete(wipe, csv, secrets);
      if parsed.Some? {
        from := Some(ds);
        deleted := Deletes(parsed) && run.ok;
        if faults == old(faults) {
          NewProcessVerdict(first, s, nss, cluster, found, Installation(csv, secrets), ds, run, mid);
        }
      }
    }
  }
}
