# Talisman, verified

A Dafny model of the parts of Talisman that carry state: the protocol that scales shared
applications down and restores them, the rolling upgrade of the Portworx daemonsets, the teardown
of a cluster with the parsers it relies on, the deep copies of the placement rules, and the shared
informer factory. `dafny verify dfyconfig.toml` checks the whole project.

## How the system is modelled

* The API server is an object whose requests may fail, may be refused, and may land and still
  report an error. Between any two requests everybody else gets any number of turns.
* `Update` is a compare-and-swap on the resource version. A change of a daemonset's template raises
  its generation by exactly one; the controller's observed generation never exceeds it. The server
  fills in `replicas`. An empty annotation map is not serialised, so it is read back as nil.
* `task.DoRetryWithTimeout` runs its closure any number of times and at least once, stops on a nil
  error or on one that is not worth retrying, and otherwise times out.
* A run-time panic is an outcome, not a precondition. A flag without its value, an endpoint without
  a colon and absent upgrade options panic in the calling goroutine (`Panicked`), which runs deferred
  calls. A closure given to `task.DoRetryWithTimeout` has a goroutine of its own: writing into a nil
  annotation map there ends the process (`Died`), and nothing deferred runs.
* Other actors may change or delete applications, but they do not write the saved-count annotation
  or the replica count except by the same two operations. During an upgrade nobody but the
  controller touches the Portworx daemonsets and nobody else the services; during a teardown nobody
  else creates or deletes objects, and a deletion that is accepted takes effect at once. Talisman
  deletes daemonsets in the foreground, so that one can be listed again and be gone when its turn
  comes; that a teardown fails only when the server does rests on this assumption.
* Reading a CSV record, reading a secret, the storage driver's answers and the API server's lookups
  for pods are parameters; an upgrade asks each of them once.

Modules, from the bottom up: `Options`, `Decimal`, `ReplicaProtocol` (one object), `ReplicaStore`
(all objects), `ReplicaClients` (any number of processes), `SharedApps` (the imperative code),
`Containers`, `Rollout` (one daemonset), `Daemons` (the trigger and the wait), `Volumes` (the wait for
detachment), `RunLog` (the order of a run), `Versions`, `Upgrade`; `Colons`, `Endpoints`, `Config`, `Components`, `Teardown`; `Ports`;
`PodGate`; `DeepCopy`, `PlacementRules`; `Informers`.

## What the proofs found

* A statefulset loses its replica count when two scale-downs land without a restore between them,
  and only then; deployments never do. A landed-but-errored update is enough, and so is a set that
  uses two shared storage classes, with no fault at all.
* A retried trigger forgets the generation it expects: the second attempt sees the new image, skips
  the daemonset and expects the generation already observed, so the wait passes at once.
* Upgrade options that are absent end the upgrade in a panic, as soon as a first wait has passed and
  with all images written; the deferred restore still runs.
* An application or daemonset without annotations kills the process in the middle of a scale-down or
  of the image rewrite, and the deferred restore does not run: deployments already scaled down stay
  at 0, with their counts saved, until a restore is run by hand.
* A restore that removes an object's only annotation leaves it without a map, and the next scale-down
  of it kills the process.
* "Any node runs this version" is decided by the first node alone.
* A failed listing of config maps is not looked at: the bring-up maps then survive a nil return.
* A failed `Delete` is finished by a new process, whichever daemonset it reads, exactly when some
  daemonset is left, no component is in a namespace that has lost its daemonsets, and the
  configuration of every daemonset left can be used and asks for the same config maps. If all
  daemonsets are gone, `Delete` only reports an error from then on.
* Endpoints with two colons in a row (IPv6 literals) or a trailing colon are not preserved.
* Named target ports become 0 when the services are patched.
* A flag's value is itself scanned for flags.
* An object deep-copied into itself loses what its slices held.

The design promises (`cmd/talisman/README.md:17-21`) that an interrupted run can be recovered by
running the restore; the model follows the code, for which this holds under the conditions above.

## Model

| member | source | states |
|---|---|---|
| `Decimal.SavedCountReadsBack` | pkg/k8sutils/k8sutils.go:188-188 | every 32-bit count is printed as non-empty text that parses back to the same count |
| `Decimal.PrintIsInjective` | pkg/k8sutils/k8sutils.go:219-219 | two different counts are never saved as the same text |
| `Decimal.ValueOfPieces` | vendor/k8s.io/apimachinery/pkg/util/intstr/intstr.go:70-78 | digits are worth what decimal notation makes them worth, piece by piece |
| `Decimal.AtoiAccepts` | vendor/k8s.io/apimachinery/pkg/util/intstr/intstr.go:70-78 | which texts are numbers and what they are worth: digits with at most one sign, if the value fits 64 bits |
| `Decimal.AtoiRefuses` | vendor/k8s.io/apimachinery/pkg/util/intstr/intstr.go:70-78 | no other text is a number |
| `Decimal.Wrap32` | vendor/k8s.io/apimachinery/pkg/util/intstr/intstr.go:54-78 | the conversion to 32 bits stays in range, keeps every value that fits and is congruent to its argument modulo 2^32 |
| `ReplicaProtocol.DownEffect` | pkg/k8sutils/k8sutils.go:170-199 | when a scale-down lands, and that it saves the count it read and leaves 0 |
| `ReplicaProtocol.RestoreEffect` | pkg/k8sutils/k8sutils.go:252-286 | a restore of a saved count always lands, brings it back and forgets it |
| `ReplicaProtocol.OwnOpKeepsTheRest` | pkg/k8sutils/k8sutils.go:180-191 | a landed scale-down or restore agrees with what it read on every field and every annotation but the saved count |
| `ReplicaProtocol.HistoryKeepsTheRest` | pkg/k8sutils/k8sutils.go:156-338 | so does every history of them: whatever nobody else touched is as it was at first |
| `ReplicaProtocol.RestoreDecides` | pkg/k8sutils/k8sutils.go:262-282 | exactly when a restore does nothing, gives up or writes, from the saved text alone |
| `ReplicaProtocol.RestoreCanTakeTheMap` | pkg/k8sutils/k8sutils.go:262-282 | an object whose only annotation was the saved count has a nil map after the restore, and kills the next process that scales it down |
| `ReplicaProtocol.RestoreBringsBack` | pkg/k8sutils/k8sutils.go:239-338 | from either conserved state a restore ends at the original count, without meeting an unparsable one |
| `ReplicaProtocol.StepConserves` | pkg/k8sutils/k8sutils.go:156-338 | which single operations keep the original count known |
| `ReplicaProtocol.DeploymentConservation` | pkg/k8sutils/k8sutils.go:165-202 | after every history a deployment is at its count with nothing saved, or at 0 with the count saved |
| `ReplicaProtocol.HistoryTracks` | pkg/k8sutils/k8sutils.go:204-233 | where any landed history leaves a statefulset, as a function of its scale-downs since the last restore |
| `ReplicaProtocol.StatefulSetConservation` | pkg/k8sutils/k8sutils.go:204-233 | a statefulset's count survives a history if and only if no two scale-downs landed without a restore between them |
| `ReplicaProtocol.IdleStatefulSetConservation` | pkg/k8sutils/k8sutils.go:207-228 | a set at 0 to begin with cannot be harmed |
| `ReplicaProtocol.ObjectConservation` | pkg/k8sutils/k8sutils.go:156-236 | the exact condition for both kinds and all counts |
| `ReplicaProtocol.TwoScaleDownsThenRestore` | pkg/k8sutils/k8sutils.go:180-183 | the separating run: two scale-downs and a restore end at 0 for a set, at the original count for a deployment |
| `ReplicaStore.OneObject` | pkg/k8sutils/k8sutils.go:165-233 | objects do not interfere: each evolves by the operations on it alone |
| `ReplicaStore.TheRestIsKept` | pkg/k8sutils/k8sutils.go:156-338 | the same frame for every object of the store |
| `ReplicaStore.StoreConservation` | pkg/k8sutils/k8sutils.go:156-338 | every object left in the store has its count conserved if and only if its own history was harmless |
| `ReplicaStore.RestoreNeverGivesUp` | pkg/k8sutils/k8sutils.go:266-278 | after any history no restore meets an unparsable or empty saved count, on either kind |
| `ReplicaStore.ClearedLasts` | pkg/k8sutils/k8sutils.go:247-335 | only a scale-down can put a saved count back |
| `ReplicaStore.ZeroLasts` | pkg/k8sutils/k8sutils.go:165-233 | only a restore can raise a count from 0 |
| `ReplicaStore.TwoOwnDownsAreTooMany` | pkg/k8sutils/k8sutils.go:204-233 | two scale-downs of one set by one process without a restore between them are harmful |
| `ReplicaClients.StepIsAtomic` | pkg/k8sutils/k8sutils.go:170-199 | with compare-and-swap every step of any process is an atomic change or none |
| `ReplicaClients.UndisturbedLands` | pkg/k8sutils/k8sutils.go:170-199 | an operation that nobody gets in the way of changes the server's object as it is meant to |
| `ReplicaClients.RunsLinearise` | pkg/k8sutils/k8sutils.go:156-338 | every interleaving of any number of processes equals its landed writes one after another |
| `ReplicaClients.EveryRunConserves` | cmd/talisman/README.md:17-21 | conservation over every interleaved, interrupted and restarted run; for deployments without condition |
| `ReplicaClients.EveryRunKeepsTheRest` | pkg/k8sutils/k8sutils.go:156-338 | over every interleaved and interrupted run, an object that nobody else writes to keeps everything but its count and its saved count |
| `ReplicaClients.AnyLaterRestoreRecovers` | cmd/talisman/README.md:17-21 | after any such run a restore whose update lands leaves the original count with nothing saved |
| `SharedApps.AppServer.TryScaleDown` | pkg/k8sutils/k8sutils.go:170-199 | one attempt of the scale-down closure: what the object on the server has become when it finishes, and what of it is kept; it panics exactly when what it read has nil annotations to write into, and is repeated only after a request that failed |
| `SharedApps.AppServer.ScaleDownOne` | pkg/k8sutils/k8sutils.go:204-233 | the retried closure: nil means the object was at 0 or gone; it fails only after a request that failed, and tries again only then; the process dies exactly when a read kills |
| `SharedApps.AppServer.ScaleDownAll` | pkg/k8sutils/k8sutils.go:165-233 | the loop over listed applications: one scale-down per listing, and death exactly at a killing read of a listed one |
| `SharedApps.WhatKills` | pkg/k8sutils/k8sutils.go:180-188 | what kills: a set without annotations, or a deployment without them that is not at 0 |
| `SharedApps.AppServer.TryRestore` | pkg/k8sutils/k8sutils.go:252-286 | one attempt of the restore closure: what the object has become when it finishes, and what of it is kept; it gives up only at a saved count that is no number |
| `SharedApps.AppServer.RestoreOne` | pkg/k8sutils/k8sutils.go:296-330 | the retried closure: nil means nothing is saved any more; it fails only after a request that failed or at a saved count that is no number, and tries again only after the former; it neither panics nor kills |
| `SharedApps.AppServer.GetPXSharedSCs` | pkg/k8sutils/k8sutils.go:132-153 | the shared storage classes of that moment |
| `SharedApps.AppServer.GetPXSharedApps` | pkg/k8sutils/k8sutils.go:72-103 | the users of every shared class, class by class and with duplicates, unless others changed what is shared meanwhile |
| `SharedApps.ListedAre` | pkg/k8sutils/k8sutils.go:72-103 | which applications are listed: those that use some shared class, by kind |
| `SharedApps.ListedTimes` | pkg/k8sutils/k8sutils.go:82-100 | and how often: as often as the classes name them |
| `SharedApps.AppServer.ScaleSharedAppsToZero` | pkg/k8sutils/k8sutils.go:156-236 | nil means every listed application is at 0 unless somebody restored it, and every listed set was scaled down once per listing; the process dies exactly when a listed application is read that kills; a return is recorded with what is true then |
| `SharedApps.AppServer.RestoreScaledAppsReplicas` | pkg/k8sutils/k8sutils.go:239-338 | nil means no listed application has a saved count left unless somebody scaled it down meanwhile |
| `SharedApps.AppServer.RestoreSharedApps` | pkg/k8sutils/k8sutils.go:239-338 | at any point of any history a restore that returns nil puts every listed application whose count survived back to it, and it fails only after a request that failed |
| `SharedApps.DuplicateListingForgets` | pkg/k8sutils/k8sutils.go:82-100 | a set listed twice loses its count in one successful scale-down |
| `SharedApps.DeathStrandsTheDeployments` | vendor/github.com/portworx/sched-ops/task/task.go:38-62 | the scale-down that dies: all deployments are at 0 with their counts saved when a set without annotations is read, and a later restore brings each of them back |
| `Rollout.GetEnv` | pkg/cluster/px/px.go:772-779 | the value of the first variable of that name, found by position, or the empty string when there is none |
| `Rollout.Inspect` | pkg/cluster/px/px.go:629-658 | the loop over the containers of one daemonset: it refuses exactly when the first `portworx` container has a first `PX_IMAGE` that is not empty |
| `Rollout.PinsMeansPinned` | pkg/cluster/px/px.go:636-641 | what a pinned image is, by positions of containers and variables |
| `Rollout.RewriteEffect` | pkg/cluster/px/px.go:633-656 | the rewrite puts the image into the first `portworx` container and changes no other container |
| `Rollout.ExpectationIsExact` | pkg/cluster/px/px.go:678-698 | under every interleaving with controller and editors the wait proves the new image running if and only if the listed copy had caught up |
| `Rollout.SettledDaemonSetIsSound` | pkg/cluster/px/px.go:613-698 | a first attempt from a daemonset observed at its generation is sound |
| `Rollout.RetryForgetsTheExpectation` | pkg/cluster/px/px.go:613-676 | the counterexample: after a landed-but-errored update the relisted daemonset is skipped and the wait passes on the old image |
| `Rollout.RetryAfterCatchingUpIsSound` | pkg/cluster/px/px.go:613-698 | the same retry is sound once the controller has caught up |
| `Rollout.ObservedRuns` | pkg/cluster/px/px.go:687-691 | a daemonset that was settled when listed runs the image from the moment the expected generation is observed, for good |
| `Rollout.ProgressComposes` | pkg/cluster/px/px.go:613-676 | any number of attempts amounts to no change or to a single rewrite |
| `Daemons.DaemonServer.GetPXDaemonsets` | pkg/cluster/px/px.go:503-518 | every daemonset of the installed namespaces once, current but for the controller's status |
| `Daemons.DaemonServer.TriggerOne` | pkg/cluster/px/px.go:629-669 | one daemonset in one attempt: refused for good exactly when it pins its image, tried again exactly after an update that reported an error, and a panic exactly when it has to be rewritten and has no annotations; the one write it can make is that of the listed copy with the image put in, and other daemonsets change in status only |
| `Daemons.DaemonServer.Trigger` | pkg/cluster/px/px.go:613-676 | after any failed attempts, nil means every daemonset of the installed namespaces that has a `portworx` container is at the image; one that is met with its image pinned ends it in an error and is never written; it fails only then or after a listing or an update that failed, or with nothing to list; every write is on record; the process dies exactly when one to rewrite has no annotations, which is then still on the server |
| `Daemons.DaemonServer.WaitForController` | pkg/cluster/px/px.go:678-698 | a pass is recorded with a state the server had, at the expected generation; from a caught-up listing that state runs the image; it gives up only after a poll that failed or found the controller behind |
| `Daemons.PassShowsTheImage` | pkg/cluster/px/px.go:678-698 | a caught-up daemonset that has passed was seen on the server with the controller running the image |
| `RunLog.GuardsComeFirst` | pkg/cluster/px/px.go:268-372 | in a legal record no write precedes any required guard, whether to applications, daemonsets, services, the API daemonset or permissions |
| `RunLog.WritesFollowTheDecision` | pkg/cluster/px/px.go:268-372 | a run that changed anything had passed all guards and decided about the scale-down |
| `RunLog.ImagesComeAfterDetach` | pkg/cluster/px/px.go:342-372 | with a scale-down no image is written before one returned that had listed every shared application and left all of them at 0 (unless others interfered), the volumes were listed and the driver answered for just these that none is attached externally |
| `RunLog.ResultIsFixedEarly` | pkg/cluster/px/px.go:343-372 | the result is fixed before the restore begins, and the restore does not change it |
| `RunLog.NothingAfterRestore` | pkg/cluster/px/px.go:343-349 | the deferred restore is the last action |
| `RunLog.NothingAfterDeath` | vendor/github.com/portworx/sched-ops/task/task.go:38-62 | a process that died does nothing any more, not even the deferred restore |
| `Volumes.VolumeServer.ListVolumes` | pkg/cluster/px/px.go:440-455 | the volumes behind the claims of the shared classes it is given, unless others changed claims meanwhile |
| `Volumes.VolumesAre` | pkg/cluster/px/px.go:440-455 | which volumes are listed: those behind a claim of one of the classes |
| `Volumes.VolumeServer.Inspect` | pkg/cluster/px/px.go:461-464 | an answer tells of an external attachment exactly when there is one among the volumes asked about |
| `Volumes.VolumeServer.AnyAttached` | pkg/cluster/px/px.go:466-470 | one poll: whether any inspected volume is attached externally |
| `Volumes.VolumeServer.WaitTillDetached` | pkg/cluster/px/px.go:434-481 | one listing, then polls of just those volumes; nil only after an answer that none of them is attached externally, an error only after a request that failed or an answer that one is |
| `Upgrade.Operator.WaitTillDetached` | pkg/cluster/px/px.go:434-481 | the shared classes are looked up again and the volumes behind their claims waited for, with the listing and every answer on record |
| `Upgrade.Operator.Drain` | pkg/cluster/px/px.go:351-360 | when it succeeds every listed application is at 0 unless somebody restored it, the listing is complete unless the sharing changed, and the volumes waited for are those of the shared classes; it dies exactly when the scale-down does |
| `Upgrade.Operator.WaitForAll` | pkg/cluster/px/px.go:678-758 | nil means every listed daemonset has passed the wait in turn and its expected generation is observed; only statuses and services change; a panic exactly without options and after a first pass |
| `Upgrade.Operator.UpgradePX` | pkg/cluster/px/px.go:521-758 | only permitted writes; nil means every daemonset with a `portworx` container is at the image, every listed one has passed the wait, those up to date when listed run the image, and both services carry their targets; a panic exactly without options once a wait has passed, with all images written; death exactly when the trigger dies; an error only after a request, a poll or a validation that failed, or because of a pinned image |
| `Upgrade.Operator.FinishDaemonSet` | pkg/cluster/px/px.go:700-754 | panics exactly without options, before it changes anything; otherwise the services follow |
| `Upgrade.Operator.FirstGuards` | pkg/cluster/px/px.go:268-301 | the guards before the drain decision pass exactly when they hold, a daemonset is installed and the listing does not fail; nothing is written |
| `Upgrade.Operator.DrainGate` | pkg/cluster/px/px.go:318-328 | passes exactly when no drain is needed or every pod that uses Portworx is managed |
| `Upgrade.Operator.ReadConfig` | pkg/cluster/px/px.go:332-338 | read from the template of an installed daemonset; passes exactly on a usable configuration or internal etcd, and panics exactly when the parser does |
| `Upgrade.Operator.AllGuards` | pkg/cluster/px/px.go:268-343 | passes only in a single namespace with an address, a driver, ready daemonsets, a tag, an open gate and a good configuration, and always does so then unless a listing fails; the scale-down is decided by the table of the options and the answer about draining; panics exactly when the parser does |
| `Upgrade.Operator.DeferredRestore` | pkg/cluster/px/px.go:344-349 | every listed application whose count survived is back when it succeeds |
| `Upgrade.Operator.PastGuards` | pkg/cluster/px/px.go:342-372 | the scale-down, the upgrade and the deferred restore: the restore runs last, exactly when a scale-down was decided and the process lived; an error only for a reason on record |
| `Upgrade.Operator.NameImage` | pkg/cluster/px/px.go:616-616 | the image is the repository, one colon and the tag |
| `Upgrade.Operator.Upgrade` | pkg/cluster/px/px.go:268-372 | every call leaves a record that omits and invents nothing and is legal; it goes past the guards exactly when they hold, unless a listing fails, and changes nothing otherwise; the restore runs last, exactly when a scale-down was decided and the process lived; exactly when the result is a panic and when the process dies; deployments are conserved, and after a restore that succeeds, with nobody else scaling down meanwhile, every listed application whose count survived is back, and the listing is complete unless others changed what is shared; a nil result means every daemonset with a `portworx` container is at the image, every listed one has passed the wait, those up to date when listed run the image, and both services carry their targets; the image is the repository, one colon and the tag, and the scale-down is decided by the table of options and drain; past the guards it fails only after a request, a poll or a validation that failed, with a volume that stayed attached, or because of a pinned image |
| `Upgrade.Operator.UpgradeThenRestore` | cmd/talisman/README.md:17-21 | however an upgrade ended, a restore run afterwards that succeeds brings every listed application back whose count survived |
| `Versions.ParseFindsTheLongest` | pkg/cluster/px/px.go:1811-1818 | accepts exactly the tags that begin with three dotted numbers and returns the longest such prefix |
| `Versions.SuffixDoesNotMatter` | pkg/cluster/px/px.go:1811-1818 | a suffix is ignored exactly when it does not extend the digits; a fixed point on its own output |
| `Versions.IsAnyNodeRunningVersionWithPrefix` | pkg/cluster/px/px.go:863-882 | the loop answers for the first node |
| `Versions.FirstNodeSpeaksForAll` | pkg/cluster/px/px.go:863-882 | the answer is the existential one exactly when the first node is representative, so in every homogeneous cluster |
| `Versions.MixedClusterIsMissed` | pkg/cluster/px/px.go:863-882 | a mixed cluster for which it is not |
| `Versions.DrainIgnoresTheSuffix` | pkg/cluster/px/px.go:894-913 | the drain decision is invariant under tag suffixes |
| `Versions.DrainTable` | pkg/cluster/px/px.go:894-913 | the table of answers about draining, and exactly when there is none |
| `Versions.DecisionIsMade` | pkg/cluster/px/px.go:885-891 | `on` scales down, nothing and `auto` follow the answer about draining, every other text does not |
| `Colons.JoinSplit` | pkg/cluster/px/px.go:1751-1752 | joining the pieces of a string gives it back |
| `Colons.SplitJoin` | pkg/cluster/px/px.go:1751-1752 | splitting a join of colon-free pieces finds them |
| `Colons.FirstTwoPieces` | pkg/cluster/px/px.go:1013-1019 | the first two pieces of `a:b` are `a` and `b` exactly when neither holds a colon |
| `Endpoints.Rebuild` | pkg/cluster/px/px.go:1770-1779 | the inner loop: the scheme and every piece that is not empty |
| `Endpoints.RewriteEndpoints` | pkg/cluster/px/px.go:1748-1781 | in place, endpoint by endpoint; an error exactly when the first one's scheme is not `etcd`, otherwise a panic exactly when some endpoint has no colon, with those before it rewritten |
| `Endpoints.TransportIsKept` | pkg/cluster/px/px.go:1760-1768 | an endpoint that names a transport keeps it and the rest with its colons collapsed |
| `Endpoints.BareTransportIsKept` | pkg/cluster/px/px.go:1760-1768 | also when nothing follows it |
| `Endpoints.PlainHttpIsAssumed` | pkg/cluster/px/px.go:1766-1768 | one that names none becomes `http` |
| `Endpoints.DiscoveryEndpoints` | pkg/cluster/px/px.go:1748-1781 | the three forms of a discovery endpoint are rewritten to plain URLs if and only if no piece of the remainder is empty |
| `Endpoints.EmptyPieces` | pkg/cluster/px/px.go:1773-1776 | the empty pieces are the colon pairs and a colon at the end |
| `Endpoints.Ipv6IsNotKept` | pkg/cluster/px/px.go:1773-1776 | no endpoint with an IPv6 literal that starts with two colons is preserved |
| `Config.CredentialsAreRecovered` | pkg/cluster/px/px.go:1013-1019 | `user:password` is read back exactly when neither part holds a colon |
| `Config.ScanArgs` | pkg/cluster/px/px.go:1001-1031 | the flag loop gives what the last occurrence of every flag says, the first error, or a panic at a flag without a value; what it gives is told from the texts of the arguments |
| `Config.ScanByText` | pkg/cluster/px/px.go:1001-1031 | every setting is the argument after the last text of its flag (`-c`, `-k`, `-ca`, `-cert`, `-key`, `-acl`, `-pwd` or `-userpwd`), whatever other texts there are, and internal etcd is `-b` anywhere |
| `Config.LastOccurrenceWins` | pkg/cluster/px/px.go:1001-1031 | a flag has the value after its last occurrence |
| `Config.AbsentHasNoValue` | pkg/cluster/px/px.go:1001-1031 | a flag that does not occur has none |
| `Config.ScanRefinesPairs` | pkg/cluster/px/px.go:997-1035 | from any position on, scanning agrees with a parser that consumes flags with their values |
| `Config.ScanIsPairs` | pkg/cluster/px/px.go:997-1035 | on every list in which no value is a flag, the scan and the pair-consuming parser agree, errors and panics included |
| `Config.PairsAreAMaskedScan` | pkg/cluster/px/px.go:997-1035 | on every list the pair-consuming parser is the scan of the list with consumed values masked |
| `Config.ScanFailsMoreOften` | pkg/cluster/px/px.go:1001-1031 | the scan reaches the end exactly when the parser does and no consumed value stops it |
| `Config.FlagsReadAlike` | pkg/cluster/px/px.go:1001-1031 | flag by flag, both have the same value exactly when the last occurrence is not a consumed value or repeats the last proper one |
| `Config.ScanAgreesExactly` | pkg/cluster/px/px.go:1001-1031 | all values agree exactly when every flag is read alike, and then so do the settings |
| `Config.InternalEtcdDiffers` | pkg/cluster/px/px.go:1004-1005 | they differ about internal etcd exactly when `-b` occurs and every occurrence is a consumed value |
| `Config.ClusterNameDiffers` | pkg/cluster/px/px.go:1006-1007 | they differ about the name exactly when the last `-c` is a consumed value and says something else than the last proper one |
| `Config.ValuesAreScannedToo` | pkg/cluster/px/px.go:1001-1031 | the separating list: a cluster named `-b` is taken for one with internal etcd |
| `Config.ExtractEnv` | pkg/cluster/px/px.go:1066-1094 | the content of the first variable that has a value or a source, or the text itself |
| `Config.ParseConfig` | pkg/cluster/px/px.go:968-1064 | the whole parse, from the first `portworx` container's arguments and environment |
| `Config.ParsedByText` | pkg/cluster/px/px.go:968-1064 | settings to go on with come from the texts of the first `portworx` container's arguments; the login is as written, or what both parts stand for when the user begins with a dollar sign |
| `Config.UsableSettings` | pkg/cluster/px/px.go:1049-1063 | a usable configuration has no `-b`, a non-empty name from the last `-c` and non-empty endpoints from the last `-k` |
| `Components.StrippedIsNormal` | pkg/cluster/px/px.go:1097-1097 | the stripped cluster name has lower-case letters and digits only and is a fixed point |
| `Components.StrippedKeepsLetters` | pkg/cluster/px/px.go:1097-1097 | a name of letters and digits keeps every character, in lower case |
| `Components.StrippedIgnores` | pkg/cluster/px/px.go:39-39 | any other character makes no difference, wherever it stands |
| `Components.DashedByPosition` | pkg/cluster/px/px.go:1146-1146 | the name of the cluster-wide secret: underscores, and nothing else, become dashes |
| `Components.PlanIsExact` | pkg/cluster/px/px.go:1096-1324 | the ordered deletions meet exactly the keys that are to go, stated kind by kind |
| `Components.PlanInOrder` | pkg/cluster/px/px.go:1096-1324 | the order of the deletions: the listed daemonsets, the cluster-wide objects, the config maps, then namespace by namespace |
| `Components.ClusterWideInOrder` | pkg/cluster/px/px.go:1116-1169 | the cluster-wide objects one by one |
| `Components.NamespacesInOrder` | pkg/cluster/px/px.go:1200-1321 | and those of a namespace: workloads, permissions, the others |
| `Components.NothingElseGoes` | pkg/cluster/px/px.go:1096-1324 | a run that stops anywhere removes nothing that is to stay |
| `Components.SuccessIsExact` | pkg/cluster/px/px.go:1181-1198 | after a nil return exactly the keys that are to go are gone, if and only if the config maps were listed or there was no bring-up map |
| `Components.UnlistedMapSurvives` | pkg/cluster/px/px.go:1181-1183 | a bring-up map that survives a nil return |
| `Components.BringUpIsNotNamed` | pkg/cluster/px/px.go:1171-1190 | no fixed list names a bring-up map |
| `Components.RerunsConverge` | pkg/cluster/px/px.go:1096-1324 | however many runs failed wherever, a successful one reaches the store an undisturbed run would have reached |
| `Components.RestartFinishes` | pkg/cluster/px/px.go:211-256 | a new process that has read this name, with the namespaces it finds, can finish and always finishes in the intended store if and only if some daemonset is left, nothing is stranded and both names ask for the same config maps |
| `Components.FullRunExists` | pkg/cluster/px/px.go:1096-1324 | a run that deletes everything is possible from every store |
| `Components.MapsAgreeMeans` | pkg/cluster/px/px.go:1171-1175 | what it takes for two names to ask for the same config maps, for equal and for different stripped names |
| `Components.NoProviderIsLeft` | pkg/cluster/px/px.go:242-244 | a run that stops after the only daemonset: nothing is stranded, objects are left, and no new process can start |
| `Components.AComponentIsStranded` | pkg/cluster/px/px.go:1108-1114 | a run that stops after one of two daemonsets strands a component that no new process deletes |
| `Components.AnOldNameSurvives` | pkg/cluster/px/px.go:374-404 | with two cluster names a config map of the first outlives every new process that reads the second |
| `Teardown.ClusterServer.DetectInstalled` | pkg/cluster/px/px.go:211-256 | exactly the namespaces that hold a Portworx daemonset; none is an error |
| `Teardown.ClusterServer.GetPXDaemonsets` | pkg/cluster/px/px.go:503-518 | exactly the labelled daemonsets of the installed namespaces, each once |
| `Teardown.ClusterServer.DeleteEach` | pkg/cluster/px/px.go:1116-1129 | a deletion loop removes an initial part of its list, all of it on success; only a server error stops it |
| `Teardown.ClusterServer.DeleteListed` | pkg/cluster/px/px.go:1108-1114 | the same for listed daemonsets, where a missing one is an error; it does not occur as long as deletions take effect at once |
| `Teardown.ClusterServer.FindBringUpMaps` | pkg/cluster/px/px.go:1177-1190 | exactly the maps with the prefix, or none when the listing fails |
| `Teardown.ClusterServer.DeleteAllPXComponents` | pkg/cluster/px/px.go:1096-1324 | removes an initial part of the plan, all of it on nil; as long as deletions take effect at once it fails only when the server does |
| `Teardown.ClusterServer.RunNodeWiper` | pkg/cluster/px/px.go:1554-1601 | nothing but the wiper changes, only a server error leaves it behind, and without one it was created exactly once |
| `Teardown.ClusterServer.WipePXKvdb` | pkg/cluster/px/px.go:949-966 | a tree is deleted only with a name and endpoints, by a client of the rewritten endpoints, and is deleted then unless the store fails; nil exactly when the deletion was confirmed |
| `Teardown.ClusterServer.ReadConfig` | pkg/cluster/px/px.go:968-985 | the configuration of an installed daemonset, or none |
| `Teardown.ClusterServer.Delete` | pkg/cluster/px/px.go:374-431 | no configuration, no change; wipes are attempted exactly when asked for after all components were deleted, and then nodes and tree are wiped unless the server or the store fails; at most one tree is deleted, only with a usable configuration; the guards of `wipePXKvdb` are never reached; wipe errors do not show, and a panic comes exactly from an endpoint without a colon |
| `Teardown.NewProcessFinishes` | pkg/cluster/px/px.go:374-404 | whichever daemonset it reads, a new process finishes what failed runs began if and only if some daemonset is left, nothing is stranded, and the configuration of every daemonset left can be used and asks for the same config maps |
| `Teardown.NoNameNoConfig` | pkg/cluster/px/px.go:1049-1063 | without `-c` and `-b` there is no configuration to go on with |
| `Teardown.ANamelessDaemonsetIsLeft` | pkg/cluster/px/px.go:394-397 | a run that stops after the first of two daemonsets, the second without a name: nothing is stranded, and no new process gets anywhere |
| `Teardown.ClusterServer.DeleteByNewProcess` | pkg/cluster/px/px.go:211-256 | detection and `Delete` by a new process: without an error of the server exactly the components are gone if and only if that condition holds of the daemonset it read |
| `Ports.ReadTargetPorts` | pkg/cluster/px/px.go:713-730 | the last entry for a port wins, over the default |
| `Ports.PatchReads` | pkg/cluster/px/px.go:732-743 | patching a service with what was read from it changes nothing that is read |
| `Ports.PatchWrites` | pkg/cluster/px/px.go:732-743 | after a patch every entry of it is in the service |
| `Ports.PatchIsStable` | pkg/cluster/px/px.go:713-743 | for every list of ports, reading the patched service gives the same targets and patching it again changes nothing |
| `Ports.PatchFrame` | pkg/cluster/px/px.go:732-743 | port by port, the entries a patch names are renamed and retargeted and all others are as they were |
| `Ports.ReadsByPort` | pkg/cluster/px/px.go:728-730 | what is read for a port depends on the entries for that port alone |
| `Ports.TargetIsKept` | pkg/cluster/px/px.go:728-743 | with distinct ports each patched port has one entry; an existing target is kept if and only if it is a number, a named one becomes 0, and a missing one is the port itself |
| `Ports.DefaultEntries` | pkg/cluster/px/px.go:713-743 | the entries themselves, and what an empty service gets from them |
| `Ports.PatchMerges` | pkg/cluster/px/px.go:732-743 | exactly the ports of the entries change, each to what its entry says |
| `Ports.ServiceServer.CheckAPIService` | pkg/cluster/px/px.go:1667-1734 | the API service, created or patched, gets the targets read from the other service and keeps its other ports |
| `Ports.ServiceServer.CheckAPIDaemonset` | pkg/cluster/px/px.go:1603-1665 | created only if it is missing, and there on success |
| `Ports.ServiceServer.GrantPermissions` | pkg/cluster/px/px.go:521-611 | the permissions are in place on success and nothing else changes |
| `Ports.ServiceServer.UpdateServices` | pkg/cluster/px/px.go:713-754 | both services get the same targets, keep all other ports, and the API daemonset is there; on failure, which takes a request that failed, each is as it was or as intended and none is changed before the one that comes first; every change is on record |
| `PodGate.IsPodUsingPxVolume` | pkg/k8sutils/k8sutils.go:363-402 | exact when it answers; a failing lookup is an error unless an earlier volume settled the matter |
| `PodGate.GetPodsUsingPX` | pkg/k8sutils/k8sutils.go:341-360 | exactly the pods that use Portworx, as often as they are listed, or an error if any cannot be judged |
| `PodGate.IsAnyPXAppPodUnmanaged` | pkg/k8sutils/k8sutils.go:106-129 | true if and only if some pod uses a Portworx volume and has no controller |
| `DeepCopy.CopyRequirementInto` | pkg/apis/portworx/v1beta1/zz_generated.deepcopy.go:160-168 | equal value, fresh slice of values, nil kept; copied into itself, as many empty values |
| `DeepCopy.CopyExpressions` | pkg/apis/portworx/v1beta2/zz_generated.deepcopy.go:32-43 | equal slots with nils kept, all fresh, no two slots sharing anything |
| `DeepCopy.CopyRuleInto` | pkg/apis/portworx/v1beta2/zz_generated.deepcopy.go:30-45 | the same for a struct with match expressions, with the result of copying it into itself |
| `DeepCopy.CopyRule` | pkg/apis/portworx/v1beta2/zz_generated.deepcopy.go:47-71 | the same for a struct behind a pointer |
| `DeepCopy.CopySpecInto` | pkg/apis/portworx/v1beta2/zz_generated.deepcopy.go:74-121 | for every spec, shared pointers and nils included: equal value, entirely fresh, no two slots aliased at any level; copied into itself it keeps only the lengths |
| `DeepCopy.DeepCopySpec` | pkg/apis/portworx/v1beta2/zz_generated.deepcopy.go:124-131 | the copy shares no cell with the original, which keeps its value |
| `DeepCopy.SpecFramed` | pkg/apis/portworx/v1beta2/zz_generated.deepcopy.go:74-121 | a spec's value depends on its own cells alone, so writes through a copy cannot change it |
| `PlacementRules.FillElement` | pkg/apis/portworx/v1beta1/zz_generated.deepcopy.go:324-338 | one rule copied into its place in the new slice |
| `PlacementRules.CopyRulesInto` | pkg/apis/portworx/v1beta1/zz_generated.deepcopy.go:351-361 | the v1beta1 spec, a slice of rule values: equal, fresh and unaliased, with the result of copying it into itself |
| `PlacementRules.SliceFramed` | pkg/apis/portworx/v1beta1/zz_generated.deepcopy.go:351-361 | its value depends on its own cells alone |
| `Informers.StepKeeps` | pkg/client/informers/externalversions/factory.go:111-166 | every call keeps the factory's invariant, and what is known or run stays so |
| `Informers.RunsOnce` | pkg/client/informers/externalversions/factory.go:111-166 | over every sequence of calls a type keeps its first informer, which is run once if the type is started and never otherwise |
| `Informers.Factory.InformerFor` | pkg/client/informers/externalversions/factory.go:147-166 | the known informer, or a new one with the resync period of its type or else the default |
| `Informers.Factory.Start` | pkg/client/informers/externalversions/factory.go:111-121 | runs exactly the informers that are known and not started, once each |
| `Informers.Factory.WaitForCacheSync` | pkg/client/informers/externalversions/factory.go:124-143 | whatever others request and start during the wait, it reports exactly the types started at its snapshot, about the informers they still have |

## Left out

- The Kubernetes, openstorage, kvdb and sched-ops clients: they appear as requests that may fail.
- `splitCSV`: it wraps Go's CSV reader and is a parameter.
- Wall-clock times, timeouts per node and `getDaemonSetReadyTimeout`: retries are any number of attempts.
- The literal RBAC rules and the pod specifications of the API daemonset and the node wiper: constant data.
- Detection of the PKS platform and the affinity handed to the wiper: they only select constants.
- The wait for the wiper's old daemonset to disappear: deletions take effect at once here.
- Logging, command-line flags and process exit; generated clients, listers and fakes; CRD registration.
- Deep copies of types that embed library metadata: their structure is not part of the repository.
- Upgrade.Operator.FinishDaemonSet: the readiness validation is reduced to whether it succeeds.
- Ports.ServiceServer.GrantPermissions: the cluster role, the secrets namespace, the role and its binding are one object that is in place or not.
- Upgrade.Operator.FirstGuards: whether the driver's clients can be made and whether the daemonsets are ready are answers of the cluster.
- Ports.PatchFrame: the order of entries of different ports in a service is not modelled, as the server sorts patched entries to the front.
- Creation of new objects by other actors during a run: deleted applications do not come back.
