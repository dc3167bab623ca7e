/** What `deleteAllPXComponents` deletes, in which order, and what is left. The API server's objects
    are a set of keys; a plan is the ordered list of deletions. */
module Components {
  datatype Kind =
    DaemonSet | Deployment | StatefulSet | ClusterRole | ClusterRoleBinding | Role | RoleBinding
    | ServiceAccount | Service | Secret | ConfigMap | StorageClass | Webhook | Namespace

  /** Objects of cluster-wide kinds have the empty namespace. */
  datatype Key = Key(kind: Kind, ns: string, name: string)

  type Store = set<Key>

  /** A request to delete one object, or a namespace with everything in it. */
  datatype Target = One(key: Key) | Whole(ns: string)

  predicate Hits(t: Target, k: Key) {
    match t
    case One(key) => k == key
    case Whole(ns) => k.ns == ns || k == Key(Namespace, "", ns)
  }

  ghost predicate HitBy(ts: seq<Target>, k: Key) { exists i :: 0 <= i < |ts| && Hits(ts[i], k) }

  ghost function Removed(s: Store, ts: seq<Target>): Store { set k | k in s && !HitBy(ts, k) }

  // ---------------------------------------------------------------- names

  function IsAlphanumeric(c: char): bool { 'a' <= c <= 'z' || 'A' <= c <= 'Z' || '0' <= c <= '9' }

  function Lower(c: char): char { if 'A' <= c <= 'Z' then c - 'A' + 'a' else c }

  /** The cluster name as config maps carry it: letters and digits only, in lower case. */
  function Stripped(name: string): string {
    if name == "" then ""
    else if IsAlphanumeric(name[0]) then [Lower(name[0])] + Stripped(name[1..])
    else Stripped(name[1..])
  }

  /** The name of a secret: underscores become dashes. */
  function Dashed(name: string): string {
    if name == "" then "" else [if name[0] == '_' then '-' else name[0]] + Dashed(name[1..])
  }

  lemma {:induction false} StrippedConcat(a: string, b: string)
    ensures Stripped(a + b) == Stripped(a) + Stripped(b)
  {
    if a == "" {
      assert a + b == b;
    } else {
      assert (a + b)[1..] == a[1..] + b;
      StrippedConcat(a[1..], b);
    }
  }

  /** Stripping leaves a name that it would not change, whatever the separators and the case were. */
  lemma {:induction false} StrippedIsNormal(name: string)
    ensures forall c :: c in Stripped(name) ==> 'a' <= c <= 'z' || '0' <= c <= '9'
    ensures Stripped(Stripped(name)) == Stripped(name)
  {
    if name != "" {
      StrippedIsNormal(name[1..]);
    }
  }

  /** A name of letters and digits keeps every character, in lower case. */
  lemma {:induction false} StrippedKeepsLetters(name: string, i: nat)
    requires i < |name| && forall c :: c in name ==> 'a' <= c <= 'z' || 'A' <= c <= 'Z' || '0' <= c <= '9'
    ensures |Stripped(name)| == |name|
    ensures 'A' <= name[i] <= 'Z' ==> Stripped(name)[i] as int == name[i] as int + 32
    ensures !('A' <= name[i] <= 'Z') ==> Stripped(name)[i] == name[i]
  {
    assert name[0] in name && forall c :: c in name[1..] ==> c in name;
    if |name| > 1 {
      StrippedKeepsLetters(name[1..], if i == 0 then 0 else i - 1);
    }
  }

  /** Any other character makes no difference, wherever it stands. */
  lemma StrippedIgnores(a: string, c: char, b: string)
    requires !('a' <= c <= 'z') && !('A' <= c <= 'Z') && !('0' <= c <= '9')
    ensures Stripped(a + [c] + b) == Stripped(a + b)
  {
    StrippedConcat(a, b);
    StrippedConcat(a + [c], b);
    StrippedConcat(a, [c]);
    assert [c][1..] == "";
  }

  /** Underscores, and nothing else, become dashes. */
  lemma {:induction false} DashedByPosition(name: string, i: nat)
    requires i < |name|
    ensures |Dashed(name)| == |name| && Dashed(name)[i] == if name[i] == '_' then '-' else name[i]
  {
    if |name| > 1 {
      DashedByPosition(name[1..], if i == 0 then 0 else i - 1);
    }
  }

  // ---------------------------------------------------------------- the fixed lists

  const CLUSTER_ROLES := ["node-get-put-list-role", "stork-role", "stork-scheduler-role", "portworx-pvc-controller-role", "px-csi-role"]
  const CLUSTER_BINDINGS := ["node-role-binding", "stork-role-binding", "stork-scheduler-role-binding", "portworx-pvc-controller-role-binding", "px-csi-role-binding"]
  const DEPLOYMENTS := ["stork", "stork-scheduler", "portworx-pvc-controller", "px-lighthouse", "px-csi-ext"]
  const ACCOUNTS := ["px-account", "px-lh-account", "stork-account", "stork-scheduler-account", "portworx-pvc-controller-account", "px-csi-account"]
  const SERVICES := ["portworx-service", "portworx-api", "stork-service", "px-lighthouse", "px-csi-service"]
  const SECRETS := ["px-osb", "px-essential"]
  const SECRETS_NS := "portworx"
  const SYSTEM_NS := "kube-system"
  const BRING_UP_PREFIX := "px-bringup-queue-lock"

  const ATTACH_LOCK := "px-attach-driveset-lock"
  const FIXED_MAPS := ["px-pure-cloud-drive", "px-lighthouse-config", "stork-config", ATTACH_LOCK]

  /** The config maps that carry the cluster's name. */
  function ClusterMaps(cluster: string): seq<string> {
    ["px-bootstrap-" + Stripped(cluster), "px-cloud-drive-" + Stripped(cluster)]
  }

  function SystemMaps(cluster: string): seq<string> { [ATTACH_LOCK] + ClusterMaps(cluster) }

  function OwnMaps(cluster: string): seq<string> { FIXED_MAPS + ClusterMaps(cluster) }

  // ---------------------------------------------------------------- the plan

  function Ones(keys: seq<Key>): (ts: seq<Target>)
    ensures |ts| == |keys|
  {
    seq(|keys|, i requires 0 <= i < |keys| => One(keys[i]))
  }

  function Named(kind: Kind, ns: string, names: seq<string>): (ts: seq<Target>)
    ensures |ts| == |names|
  {
    seq(|names|, i requires 0 <= i < |names| => One(Key(kind, ns, names[i])))
  }

  function ClusterWide(cluster: string): seq<Target> {
    Named(ClusterRole, "", CLUSTER_ROLES)
    + Named(ClusterRoleBinding, "", CLUSTER_BINDINGS)
    + Named(Secret, SECRETS_NS, [Dashed(cluster + "_px_secret")])
    + Named(StorageClass, "", ["stork-snapshot-sc"])
    + Named(Webhook, "", ["stork-webhooks-cfg"])
    + [Whole(SECRETS_NS)]
  }

  function Workloads(ns: string): seq<Target> {
    Named(DaemonSet, ns, ["portworx-api"]) + Named(Deployment, ns, DEPLOYMENTS)
  }

  function Permissions(ns: string): seq<Target> {
    Named(Role, SECRETS_NS, ["px-role"]) + Named(Role, ns, ["px-lh-role"])
    + Named(RoleBinding, SECRETS_NS, ["px-role-binding"]) + Named(RoleBinding, ns, ["px-lh-role-binding"])
    + Named(ServiceAccount, ns, ACCOUNTS)
  }

  function Others(ns: string, cluster: string): seq<Target> {
    Named(Service, ns, SERVICES)
    + Named(StatefulSet, ns, ["px-csi-ext"])
    + Named(Secret, ns, SECRETS)
    + Named(ConfigMap, ns, OwnMaps(cluster))
  }

  function InNamespace(ns: string, cluster: string): seq<Target> {
    Workloads(ns) + Permissions(ns) + Others(ns, cluster)
  }

  function InNamespaces(nss: seq<string>, cluster: string): seq<Target> {
    if nss == [] then [] else InNamespaces(nss[..|nss| - 1], cluster) + InNamespace(nss[|nss| - 1], cluster)
  }

  /** Everything, in order: the listed daemonsets, the cluster-wide objects, the config maps of the
      system namespace (three of them named, the others found by listing), and the components of every
      namespace in which Portworx is installed. */
  function Plan(dss: seq<Key>, maps: seq<string>, nss: seq<string>, cluster: string): seq<Target> {
    Ones(dss) + ClusterWide(cluster) + Named(ConfigMap, SYSTEM_NS, SystemMaps(cluster) + maps) + InNamespaces(nss, cluster)
  }

  // ---------------------------------------------------------------- what is to go

  /** A component of Portworx in a namespace where it is installed, daemonsets aside. */
  ghost predicate Component(k: Key, cluster: string) {
    match k.kind
    case DaemonSet => k.name == "portworx-api"
    case Deployment => k.name in DEPLOYMENTS
    case Role => k.name == "px-lh-role"
    case RoleBinding => k.name == "px-lh-role-binding"
    case ServiceAccount => k.name in ACCOUNTS
    case Service => k.name in SERVICES
    case StatefulSet => k.name == "px-csi-ext"
    case Secret => k.name in SECRETS
    case ConfigMap => k.name in OwnMaps(cluster)
    case _ => false
  }

  /** What goes wherever Portworx is installed: cluster-wide objects, the `portworx` namespace with
      all it holds, and the named maps of the system namespace. */
  ghost predicate Shared(k: Key, cluster: string) {
    || k.ns == SECRETS_NS
    || (k.ns == "" && match k.kind
        case Namespace => k.name == SECRETS_NS
        case ClusterRole => k.name in CLUSTER_ROLES
        case ClusterRoleBinding => k.name in CLUSTER_BINDINGS
        case StorageClass => k.name == "stork-snapshot-sc"
        case Webhook => k.name == "stork-webhooks-cfg"
        case _ => false)
    || (k.ns == SYSTEM_NS && k.kind == ConfigMap && k.name in SystemMaps(cluster))
  }

  ghost predicate BringUp(k: Key) { k.kind == ConfigMap && k.ns == SYSTEM_NS && BRING_UP_PREFIX <= k.name }

  /** What goes whether or not the config maps could be listed. */
  ghost predicate Always(k: Key, nss: seq<string>, cluster: string, px: set<Key>) {
    Shared(k, cluster) || (k.ns in nss && (Component(k, cluster) || (k.kind == DaemonSet && k in px)))
  }

  ghost predicate Doomed(k: Key, nss: seq<string>, cluster: string, px: set<Key>) {
    Always(k, nss, cluster, px) || BringUp(k)
  }

  /** The store without all that belongs to Portworx. */
  ghost function Clean(s: Store, nss: seq<string>, cluster: string, px: set<Key>): Store {
    set k | k in s && !Doomed(k, nss, cluster, px)
  }

  // ---------------------------------------------------------------- the plan does just that

  lemma HitByConcat(a: seq<Target>, b: seq<Target>, k: Key)
    ensures HitBy(a + b, k) <==> HitBy(a, k) || HitBy(b, k)
  {
    if i :| 0 <= i < |a| && Hits(a[i], k) {
      assert Hits((a + b)[i], k);
    }
    if i :| 0 <= i < |b| && Hits(b[i], k) {
      assert Hits((a + b)[|a| + i], k);
    }
  }

  lemma HitByNamed(kind: Kind, ns: string, names: seq<string>, k: Key)
    ensures HitBy(Named(kind, ns, names), k) <==> k.kind == kind && k.ns == ns && k.name in names
  {
    if k.kind == kind && k.ns == ns && k.name in names {
      var i :| 0 <= i < |names| && names[i] == k.name;
      assert Hits(Named(kind, ns, names)[i], k);
    }
  }

  lemma HitByOnes(keys: seq<Key>, k: Key)
    ensures HitBy(Ones(keys), k) <==> k in keys
  {
    if k in keys {
      var i :| 0 <= i < |keys| && keys[i] == k;
      assert Hits(Ones(keys)[i], k);
    }
  }

  lemma HitByThree(a: seq<Target>, b: seq<Target>, c: seq<Target>, k: Key)
    ensures HitBy(a + b + c, k) <==> HitBy(a, k) || HitBy(b, k) || HitBy(c, k)
  {
    HitByConcat(a + b, c, k);
    HitByConcat(a, b, k);
  }

  lemma HitByWorkloads(ns: string, k: Key)
    ensures HitBy(Workloads(ns), k) <==>
      k.ns == ns && ((k.kind == DaemonSet && k.name == "portworx-api") || (k.kind == Deployment && k.name in DEPLOYMENTS))
  {
    HitByNamed(DaemonSet, ns, ["portworx-api"], k);
    HitByNamed(Deployment, ns, DEPLOYMENTS, k);
    HitByConcat(Named(DaemonSet, ns, ["portworx-api"]), Named(Deployment, ns, DEPLOYMENTS), k);
  }

  lemma HitByPermissions(ns: string, k: Key)
    ensures k.ns != SECRETS_NS ==> (HitBy(Permissions(ns), k) <==>
      k.ns == ns && (|| (k.kind == Role && k.name == "px-lh-role")
                     || (k.kind == RoleBinding && k.name == "px-lh-role-binding")
                     || (k.kind == ServiceAccount && k.name in ACCOUNTS)))
  {
    var a, b := Named(Role, SECRETS_NS, ["px-role"]), Named(Role, ns, ["px-lh-role"]);
    var c, d := Named(RoleBinding, SECRETS_NS, ["px-role-binding"]), Named(RoleBinding, ns, ["px-lh-role-binding"]);
    var e := Named(ServiceAccount, ns, ACCOUNTS);
    HitByNamed(Role, SECRETS_NS, ["px-role"], k);
    HitByNamed(Role, ns, ["px-lh-role"], k);
    HitByNamed(RoleBinding, SECRETS_NS, ["px-role-binding"], k);
    HitByNamed(RoleBinding, ns, ["px-lh-role-binding"], k);
    HitByNamed(ServiceAccount, ns, ACCOUNTS, k);
    HitByConcat(a, b, k);
    HitByThree(a + b, c, d, k);
    HitByConcat(a + b + c + d, e, k);
  }

  lemma HitByOthers(ns: string, cluster: string, k: Key)
    ensures HitBy(Others(ns, cluster), k) <==>
      k.ns == ns && (|| (k.kind == Service && k.name in SERVICES)
                     || (k.kind == StatefulSet && k.name == "px-csi-ext")
                     || (k.kind == Secret && k.name in SECRETS)
                     || (k.kind == ConfigMap && k.name in OwnMaps(cluster)))
  {
    var a, b := Named(Service, ns, SERVICES), Named(StatefulSet, ns, ["px-csi-ext"]);
    var c, d := Named(Secret, ns, SECRETS), Named(ConfigMap, ns, OwnMaps(cluster));
    HitByNamed(Service, ns, SERVICES, k);
    HitByNamed(StatefulSet, ns, ["px-csi-ext"], k);
    HitByNamed(Secret, ns, SECRETS, k);
    HitByNamed(ConfigMap, ns, OwnMaps(cluster), k);
    HitByThree(a, b, c, k);
    HitByConcat(a + b + c, d, k);
  }

  lemma HitByInNamespace(ns: string, cluster: string, k: Key)
    requires k.ns != SECRETS_NS
    ensures HitBy(InNamespace(ns, cluster), k) <==> k.ns == ns && Component(k, cluster)
  {
    HitByWorkloads(ns, k);
    HitByPermissions(ns, k);
    HitByOthers(ns, cluster, k);
    HitByThree(Workloads(ns), Permissions(ns), Others(ns, cluster), k);
  }

  lemma {:induction false} HitByInNamespaces(nss: seq<string>, cluster: string, k: Key)
    requires k.ns != SECRETS_NS
    ensures HitBy(InNamespaces(nss, cluster), k) <==> k.ns in nss && Component(k, cluster)
  {
    if nss != [] {
      var rest, ns := nss[..|nss| - 1], nss[|nss| - 1];
      assert nss == rest + [ns];
      HitByInNamespaces(rest, cluster, k);
      HitByInNamespace(ns, cluster, k);
      HitByConcat(InNamespaces(rest, cluster), InNamespace(ns, cluster), k);
    }
  }

  lemma HitByClusterWide(cluster: string, k: Key)
    ensures HitBy(ClusterWide(cluster), k) || (k.ns == SYSTEM_NS && k.kind == ConfigMap && k.name in SystemMaps(cluster))
       <==> Shared(k, cluster)
  {
    var secret := [Dashed(cluster + "_px_secret")];
    var a, b := Named(ClusterRole, "", CLUSTER_ROLES), Named(ClusterRoleBinding, "", CLUSTER_BINDINGS);
    var c, d := Named(Secret, SECRETS_NS, secret), Named(StorageClass, "", ["stork-snapshot-sc"]);
    var e, f := Named(Webhook, "", ["stork-webhooks-cfg"]), [Whole(SECRETS_NS)];
    HitByNamed(ClusterRole, "", CLUSTER_ROLES, k);
    HitByNamed(ClusterRoleBinding, "", CLUSTER_BINDINGS, k);
    HitByNamed(Secret, SECRETS_NS, secret, k);
    HitByNamed(StorageClass, "", ["stork-snapshot-sc"], k);
    HitByNamed(Webhook, "", ["stork-webhooks-cfg"], k);
    HitByWhole(SECRETS_NS, k);
    HitByThree(a, b, c, k);
    HitByThree(a + b + c, d, e, k);
    HitByConcat(a + b + c + d + e, f, k);
  }

  lemma HitByWhole(ns: string, k: Key)
    ensures HitBy([Whole(ns)], k) <==> k.ns == ns || k == Key(Namespace, "", ns)
  {
    assert Hits([Whole(ns)][0], k) <==> k.ns == ns || k == Key(Namespace, "", ns);
  }

  /** The plan meets just the keys that are to go, given what was listed. */
  lemma PlanIsExact(dss: seq<Key>, maps: seq<string>, nss: seq<string>, cluster: string, k: Key)
    ensures HitBy(Plan(dss, maps, nss, cluster), k) <==>
      || k in dss
      || Shared(k, cluster)
      || (k.kind == ConfigMap && k.ns == SYSTEM_NS && k.name in maps)
      || (k.ns in nss && Component(k, cluster))
  {
    var system := SystemMaps(cluster) + maps;
    HitByOnes(dss, k);
    HitByClusterWide(cluster, k);
    HitByNamed(ConfigMap, SYSTEM_NS, system, k);
    if k.ns != SECRETS_NS {
      HitByInNamespaces(nss, cluster, k);
    }
    HitByThree(Ones(dss), ClusterWide(cluster), Named(ConfigMap, SYSTEM_NS, system), k);
    HitByConcat(Ones(dss) + ClusterWide(cluster) + Named(ConfigMap, SYSTEM_NS, system), InNamespaces(nss, cluster), k);
    assert k.name in system <==> k.name in SystemMaps(cluster) || k.name in maps;
  }

  /** The names, as they are documented. */
  lemma FixedNames(cluster: string)
    ensures CLUSTER_ROLES == ["node-get-put-list-role", "stork-role", "stork-scheduler-role", "portworx-pvc-controller-role", "px-csi-role"]
    ensures CLUSTER_BINDINGS == ["node-role-binding", "stork-role-binding", "stork-scheduler-role-binding", "portworx-pvc-controller-role-binding", "px-csi-role-binding"]
    ensures DEPLOYMENTS == ["stork", "stork-scheduler", "portworx-pvc-controller", "px-lighthouse", "px-csi-ext"]
    ensures ACCOUNTS == ["px-account", "px-lh-account", "stork-account", "stork-scheduler-account", "portworx-pvc-controller-account", "px-csi-account"]
    ensures SERVICES == ["portworx-service", "portworx-api", "stork-service", "px-lighthouse", "px-csi-service"]
    ensures SECRETS == ["px-osb", "px-essential"] && SECRETS_NS == "portworx" && SYSTEM_NS == "kube-system"
    ensures BRING_UP_PREFIX == "px-bringup-queue-lock"
    ensures SystemMaps(cluster) == ["px-attach-driveset-lock", "px-bootstrap-" + Stripped(cluster), "px-cloud-drive-" + Stripped(cluster)]
    ensures OwnMaps(cluster) == ["px-pure-cloud-drive", "px-lighthouse-config", "stork-config"] + SystemMaps(cluster)
  {
  }

  /** In which order the cluster-wide objects go: roles, bindings, the secret, the storage class, the
      webhook and at last the namespace. */
  lemma ClusterWideInOrder(cluster: string)
    ensures var p := ClusterWide(cluster);
      && |p| == 14
      && (forall i :: 0 <= i < 5 ==> p[i] == One(Key(ClusterRole, "", CLUSTER_ROLES[i])))
      && (forall i :: 0 <= i < 5 ==> p[5 + i] == One(Key(ClusterRoleBinding, "", CLUSTER_BINDINGS[i])))
      && p[10] == One(Key(Secret, "portworx", Dashed(cluster + "_px_secret")))
      && p[11] == One(Key(StorageClass, "", "stork-snapshot-sc")) && p[12] == One(Key(Webhook, "", "stork-webhooks-cfg"))
      && p[13] == Whole("portworx")
  {
  }

  /** And in which order the parts: the listed daemonsets, what is cluster-wide, the maps of the system
      namespace, those that were found last, and namespace after namespace. */
  lemma PlanInOrder(dss: seq<Key>, maps: seq<string>, nss: seq<string>, cluster: string)
    ensures var p, n, m := Plan(dss, maps, nss, cluster), |dss|, |dss| + |ClusterWide(cluster)|;
      && |p| >= m + 3 + |maps|
      && p[..n] == Ones(dss) && p[n..m] == ClusterWide(cluster)
      && p[m..m + 3 + |maps|] == Named(ConfigMap, "kube-system", SystemMaps(cluster) + maps)
      && p[m + 3 + |maps|..] == InNamespaces(nss, cluster)
  {
    FourInOrder(Ones(dss), ClusterWide(cluster), Named(ConfigMap, SYSTEM_NS, SystemMaps(cluster) + maps), InNamespaces(nss, cluster));
  }

  lemma FourInOrder<T>(a: seq<T>, b: seq<T>, c: seq<T>, d: seq<T>)
    ensures var p := a + b + c + d;
      && p[..|a|] == a && p[|a|..|a| + |b|] == b && p[|a| + |b|..|a| + |b| + |c|] == c && p[|a| + |b| + |c|..] == d
  {
  }

  lemma NamespacesInOrder(nss: seq<string>, ns: string, cluster: string)
    ensures InNamespaces(nss + [ns], cluster) == InNamespaces(nss, cluster) + InNamespace(ns, cluster)
    ensures var p := InNamespace(ns, cluster);
      |p| == 30 && p[..6] == Workloads(ns) && p[6..16] == Permissions(ns) && p[16..] == Others(ns, cluster)
  {
    assert (nss + [ns])[..|nss|] == nss;
    WorkloadsInOrder(ns);
    PermissionsInOrder(ns);
    OthersInOrder(ns, cluster);
    FourInOrder(Workloads(ns), Permissions(ns), Others(ns, cluster), []);
    assert Workloads(ns) + Permissions(ns) + Others(ns, cluster) + [] == InNamespace(ns, cluster);
  }

  lemma WorkloadsInOrder(ns: string)
    ensures var p := Workloads(ns);
      |p| == 6 && p[0] == One(Key(DaemonSet, ns, "portworx-api")) && forall i :: 0 <= i < 5 ==> p[1 + i] == One(Key(Deployment, ns, DEPLOYMENTS[i]))
  {
  }

  lemma PermissionsInOrder(ns: string)
    ensures var p := Permissions(ns);
      && |p| == 10 && p[0] == One(Key(Role, "portworx", "px-role")) && p[1] == One(Key(Role, ns, "px-lh-role"))
      && p[2] == One(Key(RoleBinding, "portworx", "px-role-binding")) && p[3] == One(Key(RoleBinding, ns, "px-lh-role-binding"))
      && forall i :: 0 <= i < 6 ==> p[4 + i] == One(Key(ServiceAccount, ns, ACCOUNTS[i]))
  {
  }

  lemma OthersInOrder(ns: string, cluster: string)
    ensures var p := Others(ns, cluster);
      && |p| == 14 && (forall i :: 0 <= i < 5 ==> p[i] == One(Key(Service, ns, SERVICES[i])))
      && p[5] == One(Key(StatefulSet, ns, "px-csi-ext"))
      && (forall i :: 0 <= i < 2 ==> p[6 + i] == One(Key(Secret, ns, SECRETS[i])))
      && forall i :: 0 <= i < 6 ==> p[8 + i] == One(Key(ConfigMap, ns, OwnMaps(cluster)[i]))
  {
  }

  // ---------------------------------------------------------------- what a run does

  /** One run of the deletions: what it listed, how many of the planned deletions took effect, and
      whether it returned nil. */
  datatype Run = Run(dss: seq<Key>, maps: seq<string>, listed: bool, done: nat, ok: bool)

  /** A run removes an initial part of its plan, and all of it when it returns nil. */
  ghost predicate Effect(run: Run, s: Store, after: Store, nss: seq<string>, cluster: string, px: set<Key>) {
    var plan := Plan(run.dss, run.maps, nss, cluster);
    && (forall k :: k in run.dss <==> k in s && k in px && k.kind == DaemonSet && k.ns in nss)
    && (forall name :: name in run.maps <==> run.listed && Key(ConfigMap, SYSTEM_NS, name) in s && BRING_UP_PREFIX <= name)
    && run.done <= |plan| && (run.ok ==> run.done == |plan|)
    && after == Removed(s, plan[..run.done])
  }

  lemma HitByPrefix(ts: seq<Target>, n: nat, k: Key)
    requires n <= |ts| && HitBy(ts[..n], k)
    ensures HitBy(ts, k)
  {
    var i :| 0 <= i < n && Hits(ts[..n][i], k);
    assert Hits(ts[i], k);
  }

  /** Whatever happens in a run, it removes nothing but what is to go: there is as much left to keep
      as before. */
  lemma NothingElseGoes(run: Run, s: Store, after: Store, nss: seq<string>, cluster: string, px: set<Key>)
    requires Effect(run, s, after, nss, cluster, px)
    ensures Shrinks(s, after, nss, cluster, px)
  {
    var plan := Plan(run.dss, run.maps, nss, cluster);
    forall k | k in s && k !in after ensures Doomed(k, nss, cluster, px) {
      HitByPrefix(plan, run.done, k);
      PlanIsExact(run.dss, run.maps, nss, cluster, k);
    }
  }

  /** A nil return means that exactly the keys that are to go are gone, but for the bring-up maps when
      the listing of config maps failed: that error is not looked at. */
  lemma SuccessIsExact(run: Run, s: Store, after: Store, nss: seq<string>, cluster: string, px: set<Key>)
    requires Effect(run, s, after, nss, cluster, px) && run.ok
    ensures after == set k | k in s && !Always(k, nss, cluster, px) && !(run.listed && BringUp(k))
    ensures after == Clean(s, nss, cluster, px) <==> run.listed || forall k :: k in s ==> !BringUp(k)
  {
    var plan := Plan(run.dss, run.maps, nss, cluster);
    assert plan[..run.done] == plan;
    forall k | k in s ensures k in after <==> !Always(k, nss, cluster, px) && !(run.listed && BringUp(k)) {
      PlanIsExact(run.dss, run.maps, nss, cluster, k);
    }
    forall k | k in s && BringUp(k) ensures k !in Clean(s, nss, cluster, px) && (run.listed || k in after) {
      BringUpIsNotNamed(k, nss, cluster, px);
    }
  }

  /** No list names a bring-up map. */
  lemma BringUpIsNotNamed(k: Key, nss: seq<string>, cluster: string, px: set<Key>)
    requires BringUp(k)
    ensures !Always(k, nss, cluster, px)
  {
    assert k.name[4] == BRING_UP_PREFIX[4] && k.name[3] == BRING_UP_PREFIX[3] && k.name[0] == BRING_UP_PREFIX[0];
  }

  /** A bring-up map outlives a nil return: no deletion needs to fail for it. */
  lemma UnlistedMapSurvives(nss: seq<string>, cluster: string, px: set<Key>, zone: string)
    ensures var k := Key(ConfigMap, SYSTEM_NS, BRING_UP_PREFIX + zone);
      var run := Run([], [], false, |Plan([], [], nss, cluster)|, true);
      Effect(run, {k}, {k}, nss, cluster, px) && Clean({k}, nss, cluster, px) == {}
  {
    var k := Key(ConfigMap, SYSTEM_NS, BRING_UP_PREFIX + zone);
    var plan := Plan([], [], nss, cluster);
    assert plan[..|plan|] == plan;
    BringUpIsNotNamed(k, nss, cluster, px);
    PlanIsExact([], [], nss, cluster, k);
  }

  /** Runs one after another, each from where the last one stopped. */
  ghost predicate Runs(stores: seq<Store>, runs: seq<Run>, nss: seq<string>, cluster: string, px: set<Key>) {
    && |stores| == |runs| + 1
    && forall i :: 0 <= i < |runs| ==> Effect(runs[i], stores[i], stores[i + 1], nss, cluster, px)
  }

  ghost predicate Shrinks(s: Store, after: Store, nss: seq<string>, cluster: string, px: set<Key>) {
    after <= s && Clean(after, nss, cluster, px) == Clean(s, nss, cluster, px)
  }

  lemma {:induction false} ShrinksOverall(stores: seq<Store>, nss: seq<string>, cluster: string, px: set<Key>, i: nat, j: nat)
    requires i <= j < |stores|
    requires forall m :: i <= m < j ==> Shrinks(stores[m], stores[m + 1], nss, cluster, px)
    ensures Shrinks(stores[i], stores[j], nss, cluster, px)
  {
    if i < j {
      ShrinksOverall(stores, nss, cluster, px, i, j - 1);
      assert Shrinks(stores[j - 1], stores[j - 1 + 1], nss, cluster, px);
    }
  }

  lemma CleanIsKept(stores: seq<Store>, runs: seq<Run>, nss: seq<string>, cluster: string, px: set<Key>, i: nat, j: nat)
    requires Runs(stores, runs, nss, cluster, px) && i <= j <= |runs|
    ensures Shrinks(stores[i], stores[j], nss, cluster, px)
  {
    forall m | i <= m < j ensures Shrinks(stores[m], stores[m + 1], nss, cluster, px) {
      NothingElseGoes(runs[m], stores[m], stores[m + 1], nss, cluster, px);
    }
    ShrinksOverall(stores, nss, cluster, px, i, j);
  }

  /** However many runs fail, and wherever they fail, one that returns nil with the config maps listed
      leaves the store as an undisturbed first run would have, and later runs keep it so. */
  lemma RerunsConverge(stores: seq<Store>, runs: seq<Run>, nss: seq<string>, cluster: string, px: set<Key>, j: nat)
    requires Runs(stores, runs, nss, cluster, px) && j < |runs| && runs[j].ok && runs[j].listed
    ensures stores[|runs|] == Clean(stores[0], nss, cluster, px)
  {
    CleanIsKept(stores, runs, nss, cluster, px, 0, j);
    SuccessIsExact(runs[j], stores[j], stores[j + 1], nss, cluster, px);
    CleanIsKept(stores, runs, nss, cluster, px, j + 1, |runs|);
    CleanIsKept(stores, runs, nss, cluster, px, 0, |runs|);
  }

  // ---------------------------------------------------------------- a new process

  /** Portworx counts as installed where one of its daemonsets is. */
  ghost predicate Installed(s: Store, px: set<Key>, ns: string) {
    exists k :: k in s && k in px && k.kind == DaemonSet && k.ns == ns
  }

  /** A component whose name does not depend on the cluster's. */
  ghost predicate FixedComponent(k: Key) {
    if k.kind == ConfigMap then k.name in FIXED_MAPS else Component(k, "")
  }

  /** A map of a cluster of this name, in the system namespace or where Portworx is installed. */
  ghost predicate ClusterMap(k: Key, nss: seq<string>, cluster: string) {
    k.kind == ConfigMap && k.ns != SECRETS_NS && (k.ns == SYSTEM_NS || k.ns in nss) && k.name in ClusterMaps(cluster)
  }

  /** What goes wherever Portworx is installed and whatever the cluster is called. */
  ghost predicate Common(k: Key) {
    BringUp(k) || if k.kind == ConfigMap && k.ns == SYSTEM_NS then k.name == ATTACH_LOCK else Shared(k, "")
  }

  /** A component in a namespace that has lost its daemonsets, which nothing else deletes. */
  ghost predicate Stranded(k: Key, s: Store, nss: seq<string>, px: set<Key>) {
    k in s && k.ns in nss && !Installed(s, px, k.ns) && FixedComponent(k) && !Common(k)
  }

  /** Both processes name the same config maps: with one name, none is left where Portworx is no longer
      found; with two names, there is none of either. */
  ghost predicate MapsAgree(s: Store, nss: seq<string>, cluster: string, found: seq<string>, other: string) {
    forall k :: k in s ==> (ClusterMap(k, nss, cluster) <==> ClusterMap(k, found, other))
  }

  lemma MapsAgreeMeans(s: Store, nss: seq<string>, cluster: string, found: seq<string>, other: string)
    requires forall ns :: ns in found ==> ns in nss
    ensures Stripped(cluster) == Stripped(other) ==>
      (MapsAgree(s, nss, cluster, found, other) <==>
       forall k :: k in s && ClusterMap(k, nss, cluster) ==> k.ns == SYSTEM_NS || k.ns in found)
    ensures Stripped(cluster) != Stripped(other) ==>
      (MapsAgree(s, nss, cluster, found, other) <==>
       forall k :: k in s ==> !ClusterMap(k, nss, cluster) && !ClusterMap(k, found, other))
  {
    if Stripped(cluster) != Stripped(other) {
      NamesDiffer(cluster, other);
      forall k | k in s ensures !(ClusterMap(k, nss, cluster) && ClusterMap(k, found, other)) {}
    }
  }

  /** A run that returned nil with the config maps listed. */
  ghost predicate FullRun(run: Run, s: Store, after: Store, nss: seq<string>, cluster: string, px: set<Key>) {
    run.ok && run.listed && Effect(run, s, after, nss, cluster, px)
  }

  /** A new process finishes in this store: it can start at all, it can succeed, and whenever it does
      this is the outcome. */
  ghost predicate Finishes(s: Store, goal: Store, found: seq<string>, other: string, px: set<Key>) {
    && found != []
    && (exists run :: FullRun(run, s, goal, found, other, px))
    && forall run, after :: FullRun(run, s, after, found, other, px) ==> after == goal
  }

  ghost function Enumerated(keys: set<Key>): (listed: seq<Key>)
    ensures forall k :: k in listed <==> k in keys
  {
    if keys == {} then [] else var k :| k in keys; [k] + Enumerated(keys - {k})
  }

  ghost function NamesOf(keys: seq<Key>): (names: seq<string>)
    ensures forall name :: name in names <==> exists k :: k in keys && k.name == name
  {
    if keys == [] then [] else [keys[0].name] + NamesOf(keys[1..])
  }

  /** A successful run is possible from every store. */
  lemma FullRunExists(s: Store, nss: seq<string>, cluster: string, px: set<Key>) returns (run: Run)
    ensures FullRun(run, s, Clean(s, nss, cluster, px), nss, cluster, px)
  {
    var dss := Enumerated(set k | k in s && k in px && k.kind == DaemonSet && k.ns in nss);
    var maps := Enumerated(set k | k in s && BringUp(k));
    forall name ensures name in NamesOf(maps) <==> Key(ConfigMap, SYSTEM_NS, name) in s && BRING_UP_PREFIX <= name {
      if Key(ConfigMap, SYSTEM_NS, name) in s && BRING_UP_PREFIX <= name {
        assert Key(ConfigMap, SYSTEM_NS, name) in maps;
      }
    }
    var plan := Plan(dss, NamesOf(maps), nss, cluster);
    run := Run(dss, NamesOf(maps), true, |plan|, true);
    SuccessIsExact(run, s, Removed(s, plan[..|plan|]), nss, cluster, px);
  }

  lemma FinishesWhenClean(s: Store, goal: Store, found: seq<string>, other: string, px: set<Key>)
    ensures Finishes(s, goal, found, other, px) <==> found != [] && Clean(s, found, other, px) == goal
  {
    var run := FullRunExists(s, found, other, px);
    forall r, after | FullRun(r, s, after, found, other, px) ensures after == Clean(s, found, other, px) {
      SuccessIsExact(r, s, after, found, other, px);
    }
  }

  /** A map with a cluster's name is none of the fixed ones and no bring-up map. */
  lemma ClusterMapsAreApart(cluster: string, name: string)
    requires name in ClusterMaps(cluster)
    ensures name !in FIXED_MAPS && !(BRING_UP_PREFIX <= name)
  {
    assert name[3] == 'b' || name[3] == 'c';
    assert name[3] == 'b' ==> name[4] == 'o';
    assert BRING_UP_PREFIX[3] == 'b' && BRING_UP_PREFIX[4] == 'r';
    assert forall n :: n in FIXED_MAPS ==> n[3] != 'b' && n[3] != 'c';
  }

  /** What is to go falls into what is fixed and the maps of the cluster's name, which do not overlap. */
  lemma DoomedSplits(k: Key, nss: seq<string>, cluster: string, px: set<Key>)
    ensures Doomed(k, nss, cluster, px) <==>
      || ClusterMap(k, nss, cluster)
      || Common(k)
      || (k.ns in nss && (FixedComponent(k) || (k.kind == DaemonSet && k in px)))
    ensures ClusterMap(k, nss, cluster) ==> !Common(k) && !FixedComponent(k) && k.kind != DaemonSet
  {
    if k.name in ClusterMaps(cluster) {
      ClusterMapsAreApart(cluster, k.name);
    }
  }

  lemma InstalledShrinks(first: Store, s: Store, px: set<Key>, ns: string)
    requires s <= first && Installed(s, px, ns)
    ensures Installed(first, px, ns)
  {
    var k :| k in s && k in px && k.kind == DaemonSet && k.ns == ns;
    assert k in first;
  }

  /** Key by key, what a new process treats differently. */
  lemma DifferentlyDoomed(k: Key, s: Store, nss: seq<string>, cluster: string, found: seq<string>, other: string, px: set<Key>)
    requires k in s && (forall ns :: ns in found ==> ns in nss) && forall ns :: ns in found <==> Installed(s, px, ns)
    ensures (Doomed(k, nss, cluster, px) <==> Doomed(k, found, other, px)) <==>
      !Stranded(k, s, nss, px) && (ClusterMap(k, nss, cluster) <==> ClusterMap(k, found, other))
  {
    DoomedSplits(k, nss, cluster, px);
    DoomedSplits(k, found, other, px);
    if k.kind == DaemonSet && k in px {
      assert Installed(s, px, k.ns);
    }
  }

  /** A new process looks for the daemonsets again and has read this name from one of them. From wherever
      failed runs stopped, it finishes what they began exactly when some daemonset is left, they stranded
      nothing, and the two names ask for the same config maps. */
  lemma RestartFinishes(first: Store, s: Store, nss: seq<string>, cluster: string, found: seq<string>, other: string, px: set<Key>)
    requires Shrinks(first, s, nss, cluster, px)
    requires forall ns :: ns in nss <==> Installed(first, px, ns)
    requires forall ns :: ns in found <==> Installed(s, px, ns)
    ensures Finishes(s, Clean(first, nss, cluster, px), found, other, px) <==>
      found != [] && (forall k :: !Stranded(k, s, nss, px)) && MapsAgree(s, nss, cluster, found, other)
  {
    forall ns | ns in found ensures ns in nss {
      InstalledShrinks(first, s, px, ns);
    }
    FinishesWhenClean(s, Clean(first, nss, cluster, px), found, other, px);
    var a, b := Clean(s, nss, cluster, px), Clean(s, found, other, px);
    forall k | k in s ensures (k in a <==> k in b) <==>
      !Stranded(k, s, nss, px) && (ClusterMap(k, nss, cluster) <==> ClusterMap(k, found, other))
    {
      DifferentlyDoomed(k, s, nss, cluster, found, other, px);
    }
  }

  /** What a single full run of the new process comes to. */
  lemma OneRunDecides(first: Store, s: Store, nss: seq<string>, cluster: string, found: seq<string>, other: string, px: set<Key>,
                      run: Run, after: Store)
    requires Shrinks(first, s, nss, cluster, px) && found != [] && FullRun(run, s, after, found, other, px)
    requires forall ns :: ns in nss <==> Installed(first, px, ns)
    requires forall ns :: ns in found <==> Installed(s, px, ns)
    ensures after == Clean(first, nss, cluster, px) <==>
      (forall k :: !Stranded(k, s, nss, px)) && MapsAgree(s, nss, cluster, found, other)
  {
    RestartFinishes(first, s, nss, cluster, found, other, px);
    FinishesWhenClean(s, Clean(first, nss, cluster, px), found, other, px);
    SuccessIsExact(run, s, after, found, other, px);
  }

  // ---------------------------------------------------------------- runs that cannot be finished

  /** A daemonset of Portworx in this namespace. */
  function PxIn(ns: string): Key { Key(DaemonSet, ns, "portworx") }

  /** What the first deletion of a run leaves when the second one fails. */
  lemma StoppedAfterOne(first: Store, dss: seq<Key>, nss: seq<string>, cluster: string, px: set<Key>)
    requires dss != [] && forall k :: k in dss <==> k in first && k in px && k.kind == DaemonSet && k.ns in nss
    ensures Effect(Run(dss, [], false, 1, false), first, first - {dss[0]}, nss, cluster, px)
  {
    var plan := Plan(dss, [], nss, cluster);
    assert plan[..1] == [One(dss[0])];
    forall k ensures HitBy(plan[..1], k) <==> k == dss[0] {
      assert Hits(plan[..1][0], k) <==> k == dss[0];
    }
  }

  /** The only daemonset is deleted and the next deletion fails: whatever else there is, and though
      nothing is stranded, there is no provider any more. */
  lemma NoProviderIsLeft(ns: string, cluster: string, other: string)
    requires ns != SECRETS_NS && ns != ""
    ensures var role := Key(ClusterRole, "", "stork-role");
      var first, s, px := {PxIn(ns), role}, {role}, {PxIn(ns)};
      && Effect(Run([PxIn(ns)], [], false, 1, false), first, s, [ns], cluster, px)
      && (forall x :: !Installed(s, px, x)) && (forall k :: !Stranded(k, s, [ns], px))
      && s != Clean(first, [ns], cluster, px)
      && !Finishes(s, Clean(first, [ns], cluster, px), [], other, px)
  {
    var role := Key(ClusterRole, "", "stork-role");
    var first, s, px := {PxIn(ns), role}, {role}, {PxIn(ns)};
    StoppedAfterOne(first, [PxIn(ns)], [ns], cluster, px);
    assert first - {PxIn(ns)} == s;
    assert role.name == CLUSTER_ROLES[1];
    assert Doomed(role, [ns], cluster, px);
    assert role !in Clean(first, [ns], cluster, px);
  }

  /** One of two daemonsets is deleted: the components beside it are stranded, and no new process
      finishes, whatever name it reads. */
  lemma AComponentIsStranded(a: string, b: string, cluster: string, other: string)
    requires a != b && a != SECRETS_NS && a != ""
    ensures var stork := Key(Deployment, a, "stork");
      var first, s, px := {PxIn(a), PxIn(b), stork}, {PxIn(b), stork}, {PxIn(a), PxIn(b)};
      && Effect(Run([PxIn(a), PxIn(b)], [], false, 1, false), first, s, [a, b], cluster, px)
      && (forall ns :: ns in [b] <==> Installed(s, px, ns))
      && Stranded(stork, s, [a, b], px)
      && !Finishes(s, Clean(first, [a, b], cluster, px), [b], other, px)
  {
    var stork := Key(Deployment, a, "stork");
    var first, s, px := {PxIn(a), PxIn(b), stork}, {PxIn(b), stork}, {PxIn(a), PxIn(b)};
    OneOfTwoIsGone(a, b, stork, cluster);
    StorkIsAComponent(a);
    assert Stranded(stork, s, [a, b], px) by {
      assert !Installed(s, px, a);
    }
    RestartFinishes(first, s, [a, b], cluster, [b], other, px);
  }

  lemma StorkIsAComponent(ns: string)
    requires ns != SECRETS_NS && ns != ""
    ensures FixedComponent(Key(Deployment, ns, "stork")) && !Common(Key(Deployment, ns, "stork"))
  {
    assert DEPLOYMENTS[0] == "stork";
  }

  /** Two namespaces have their daemonset and one other object is there; the first daemonset is deleted
      and the next deletion fails. */
  lemma OneOfTwoIsGone(a: string, b: string, k: Key, cluster: string)
    requires a != b && k !in {PxIn(a), PxIn(b)}
    ensures var first, s, px := {PxIn(a), PxIn(b), k}, {PxIn(b), k}, {PxIn(a), PxIn(b)};
      && Effect(Run([PxIn(a), PxIn(b)], [], false, 1, false), first, s, [a, b], cluster, px)
      && Shrinks(first, s, [a, b], cluster, px)
      && (forall ns :: ns in [a, b] <==> Installed(first, px, ns))
      && (forall ns :: ns in [b] <==> Installed(s, px, ns))
  {
    var first, s, px := {PxIn(a), PxIn(b), k}, {PxIn(b), k}, {PxIn(a), PxIn(b)};
    StoppedAfterOne(first, [PxIn(a), PxIn(b)], [a, b], cluster, px);
    assert first - {PxIn(a)} == s;
    NothingElseGoes(Run([PxIn(a), PxIn(b)], [], false, 1, false), first, s, [a, b], cluster, px);
    TwoInstalled(a, b, k);
    assert px + {k} == first;
  }

  lemma TwoInstalled(a: string, b: string, k: Key)
    requires a != b && k !in {PxIn(a), PxIn(b)}
    ensures var px := {PxIn(a), PxIn(b)};
      && (forall ns :: ns in [a, b] <==> Installed(px + {k}, px, ns))
      && (forall ns :: ns in [b] <==> Installed({PxIn(b), k}, px, ns))
  {
    var px := {PxIn(a), PxIn(b)};
    forall ns ensures (ns in [a, b] <==> Installed(px + {k}, px, ns)) && (ns in [b] <==> Installed({PxIn(b), k}, px, ns)) {
      if ns in [a, b] {
        assert PxIn(ns) in px + {k};
      }
      if ns == b {
        assert PxIn(b) in {PxIn(b), k};
      }
    }
  }

  /** Two daemonsets with different cluster names: a map of the first name outlives every new process
      that reads the second, with nothing stranded. */
  lemma {:induction false} AnOldNameSurvives(a: string, b: string, cluster: string, other: string)
    requires a != b && Stripped(cluster) != Stripped(other)
    ensures var left := Key(ConfigMap, SYSTEM_NS, "px-bootstrap-" + Stripped(cluster));
      var first, s, px := {PxIn(a), PxIn(b), left}, {PxIn(b), left}, {PxIn(a), PxIn(b)};
      && Effect(Run([PxIn(a), PxIn(b)], [], false, 1, false), first, s, [a, b], cluster, px)
      && (forall ns :: ns in [b] <==> Installed(s, px, ns))
      && (forall k :: !Stranded(k, s, [a, b], px))
      && !Finishes(s, Clean(first, [a, b], cluster, px), [b], other, px)
  {
    var left := Key(ConfigMap, SYSTEM_NS, "px-bootstrap-" + Stripped(cluster));
    var first, s, px := {PxIn(a), PxIn(b), left}, {PxIn(b), left}, {PxIn(a), PxIn(b)};
    OneOfTwoIsGone(a, b, left, cluster);
    assert left.name == ClusterMaps(cluster)[0];
    ClusterMapsAreApart(cluster, left.name);
    NamesDiffer(cluster, other);
    RestartFinishes(first, s, [a, b], cluster, [b], other, px);
  }

  lemma NamesDiffer(cluster: string, other: string)
    requires Stripped(cluster) != Stripped(other)
    ensures forall name :: name in ClusterMaps(cluster) ==> name !in ClusterMaps(other)
  {
    var a, b := Stripped(cluster), Stripped(other);
    assert ("px-bootstrap-" + a)[13..] == a && ("px-bootstrap-" + b)[13..] == b;
    assert ("px-cloud-drive-" + a)[15..] == a && ("px-cloud-drive-" + b)[15..] == b;
    assert "px-bootstrap-"[3] != "px-cloud-drive-"[3];
    assert ("px-bootstrap-" + a)[3] == 'b' && ("px-bootstrap-" + b)[3] == 'b';
    assert ("px-cloud-drive-" + a)[3] == 'c' && ("px-cloud-drive-" + b)[3] == 'c';
  }
}
