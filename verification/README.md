# A verified model of the Atomix operator

The operator watches three kinds of custom resource, `AtomixCluster`, `PartitionGroup` and
`AtomixBenchmark`, and creates the ConfigMaps, disruption budgets, StatefulSets, Services and
Pods that run them. This project models it in four parts and proves what holds across them.

**The reconcile protocol.** Three controllers share an object store. Each runs ordered passes:
read the owner, default it in memory, then look each desired key up and create what is missing;
any error ends the pass, which is retried later. Reads come from a cache that lags behind the
API server, writes go to the API server, and anything may happen between two calls.
`protocol.dfy` is this as a transition system: a world (store, owners, what the cache shows and has
yet to learn of both, passes in flight) and ten kinds of step (begin, look, create, create whose
answer is lost, failing call, cache update of an object or an owner, user edit, user deletion,
garbage collection). `feed.dfy` is the watch-fed cache: it learns the states of each object and
owner in order, arbitrarily late, possibly skipping some, never going back. A run is any sequence
of steps, so a theorem about all traces is a theorem about all interleavings. What a pass looks up
and builds is a parameter (`Catalog`); `operator.dfy` supplies the operator's own.
`growth.dfy`, `lifecycle.dfy`, `confluence.dfy` and `progress.dfy` prove what runs keep, where
they end and how soon; `contest.dfy` and `retirement.dfy` prove that the conditions of two of these
results are exact. `reconciler.dfy` is the same protocol in the form it is written in: a client
with a cache and a server behind it, and methods that get or create in order and return at the
first error. `views.dfy` says what such a call is as a run of the transition system, made of the
pass's own steps and of what was announced to happen between its API calls, and what each of its
results means; `calls.dfy` draws the consequences: a loop of calls, with other owners' steps in
between, is one run, so confluence holds of it, and undisturbed calls end as they should.

**Names, scripts, labels, quorums.** `naming.dfy`, `initscript.dfy`, `config.dfy` and
`selection.dfy` model the names of objects, the shell script that takes a pod's host name apart
and lists the members, the printed configuration files together with a reader for them, label
selectors, and the arithmetic of the disruption budgets. Strings are unbounded.

**Builders.** `objects.dfy` and `builders.dfy` model what each step of a pass builds from a
defaulted spec. `resource.ParseQuantity` is a parameter, a predicate saying which texts parse.

**Spec objects on the heap.** `specobjects.dfy` models the structs that Go reaches through
pointers, the defaulting that writes through them and the generated deep copy that separates them
from the cached original. `specs.dfy` holds the same specs as values; every heap method is proved
against its functions.

`asked.dfy` says what a raw spec asks for, with documented defaults and names spelled out and
without the builders, and proves that the builders deliver it. `operator.dfy`, `outcomes.dfy` and
`stored.dfy` put the parts together: the facts about builders are shown of the objects that are in
the store after any run. `failures.dfy` says to the key what a single undisturbed call leaves behind
when a builder fails, and when none does.

How the source's entities appear:

- An object key is kind, namespace and name. UIDs are handed out in order; `World.uids` remembers
  to which name. A spec version counts the specs a name has had.
- `World.history`, `World.origins` and `World.done` record the run (all specs a name has had,
  which pass created a stored object, which owners have had an error-free pass). No step looks at
  them.
- A pass holds the copy of the owner it read. A look counts the misses of the current key; a
  benchmark's pass needs two before it creates, because its `reconcile*` and `add*` both call Get.
- int32 fields are the subset type `Int32`; the budget's halving truncates as Go's division does.
- Between two calls of one pass, `Client.turns` says what the rest of the system does, and whether
  the call goes through, fails without effect, or takes effect while its answer is lost.
- A start is any world in which no pass has run and the cache is behind the store by the news it
  has yet to learn (`Protocol.Starts`). Results about deletion-free runs also need that no deletion
  is among that news (`Growth.StartsBehind`), and results about runs that leave specs alone that
  the news of owners is how they are now (`Confluence.StartsQuiet`).

Where the documentation and the code disagree, the model follows the code. The repository's
README shows a discovery address with a `-service` suffix for a cluster; the code names a
cluster's Service after the cluster and prints that name.

Properties that hold only under a condition:

- *Confluence.* With valid specs that nobody edits, all complete runs end in the same store if and
  only if no two owners want a key that is not there at the start (`Contest.ConfluenceIsExact`);
  otherwise whoever comes first keeps it (`Contest.ContestsDiverge`). Two owners want a common
  key if and only if they share a namespace and either have the same name, or one is a benchmark
  `b` and the other a cluster or group named `b-service` (`Naming.KeyCollision`); so from an
  empty store the operator is confluent if and only if no two names clash
  (`Operator.OperatorConfluenceIsExact`). With edits the stored objects depend on the
  interleaving, but the stored keys do not (`Contest.EditsKeepTheKeys`).
- *Host names.* The script recovers a set's name and ordinal from a pod's host name if and only
  if the set's name has no dot, since `hostname -s` cuts there (`InitScript.HostRoundTrip`). The
  pods of a set of two or more get ids of their own if and only if its name has no dot
  (`InitScript.DotsLoseIds`).
- *Configuration text.* The header (name, protocol, partitions) and all settings of raft and
  primary-backup groups can always be read off the printed text. A log group's text leaves open
  where its strategy ends and its storage level begins: it determines the settings if and only if
  the line between the two does not occur elsewhere in them (`Config.AmbiguousTexts`).
- *Retired UIDs.* That an owner is deleted and the cache does not show it is not enough: an owner
  created and deleted before the cache learned of it can still have a pass that creates objects
  with its dead UID (`Retirement.LateOwnerCreates`). A
  UID is retired if and only if no run leads to another pass over a copy that has it
  (`Retirement.RetiredExactly`).
- *Benchmark selectors.* The worker StatefulSet of a benchmark selects the worker pods of every
  benchmark of its cluster, its own and the others', and no other pods
  (`Operator.StoredWorkersSelect`).
- *Benchmarks.* Controller and worker were meant to have their own ConfigMaps and Service, but
  both name functions give the same keys. The worker's versions are never stored
  (`Outcomes.WorkerVersionsNeverStored`), and a first call cannot go through unless the cache
  learns of the init ConfigMap while it runs (`Calls.BenchmarkNeedsAnotherCall`).

## Model

| member | source | states |
|---|---|---|
| `Reconcilers.Reconciler.Reconcile` | pkg/controller/partitiongroup/reconciler.go:88-139 | one call, whatever happens between its API calls, is other owners' steps until the owner is read, the beginning of a single pass, and then the pass's own steps among other owners'; nil means that the cache does not show the owner or that the pass went through every step, and an error is the one that stopped the pass: a failed call, a taken key or a failing builder at the very step it was about to create; no pass of the owner is left in flight |
| `Reconcilers.Reconciler.Serve` | pkg/controller/partitiongroup/reconciler.go:86-139 | any sequence of calls, with other owners' steps in between: each call, however it ends, takes one world to the next in the sense of Reconcile |
| `Calls.CallsAreConfluent` | pkg/controller/cluster/reconciler.go:88-184 | when no specs are edited meanwhile and no two owners want a key that was not there, such a sequence leaves the initial store plus desired objects only, and the one final store once every owner is done |
| `Calls.NilForAllMeansFinal` | pkg/controller/cluster/reconciler.go:88-184 | if moreover the cache shows every owner from the start and some call for each owner returned nil, the store is the final one |
| `Calls.ChainByTrace` | pkg/controller/cluster/reconciler.go:88-139 | all calls of a sequence together are one run of the transition system, through each world between them |
| `Reconcilers.Reconciler.ReconcileCluster` | pkg/controller/cluster/reconciler.go:106-138 | the five ordered steps with early return take the pass from its first step to its end, or leave no pass behind; the order is script, configuration, budget, StatefulSet, Service, as `Stored.StoredInOrder` and `Failures.FreshOwnerCall` spell it out |
| `Reconcilers.Reconciler.ReconcileGroup` | pkg/controller/partitiongroup/reconciler.go:106-138 | the same for the five steps of a partition group |
| `Reconcilers.Reconciler.ReconcileBenchmark` | pkg/controller/benchmark/reconciler.go:105-155 | the same for a benchmark's eight steps |
| `Reconcilers.Reconciler.ReconcileController` | pkg/controller/benchmark/reconciler.go:107-129 | the controller's four steps hand the pass over at the worker's first step |
| `Reconcilers.Reconciler.ReconcileWorker` | pkg/controller/benchmark/reconciler.go:131-153 | the worker's four steps finish the pass |
| `Reconcilers.Reconciler.ReconcileResource` | pkg/controller/cluster/reconciler.go:141-184 | get, and on NotFound add: the pass advances by exactly one step, or ends with an error that has a cause |
| `Reconcilers.Reconciler.ReconcileBenchmarkResource` | pkg/controller/benchmark/reconciler.go:162-183 | the same with the second Get of the benchmark's add functions |
| `Reconcilers.Reconciler.Add` | pkg/controller/partitiongroup/reconciler.go:223-233 | building from the defaulted copy and creating is the transition system's create step over the raw copy; a failing builder and a taken key both end the pass and leave the world as it was |
| `Reconcilers.Client.Get` | pkg/controller/cluster/reconciler.go:79-81 | reads come from the cache, after whatever the rest of the system did |
| `Reconcilers.Client.CreateObject` | pkg/controller/cluster/reconciler.go:79-81 | writes go to the API server: stored at once, refused because the key is taken, failed without effect, or stored although the answer is lost |
| `Views.OthersCommute` | pkg/controller/cluster/reconciler.go:88-139 | no step of anyone else reads or changes where an owner's pass is, so the pass can live in local variables |
| `Calls.CalledByTrace` | pkg/controller/cluster/reconciler.go:88-139 | a call takes the world along a trace of its own steps and the announced ones, whatever is on record, so every theorem about traces applies to it |
| `Calls.SettledCall` | pkg/controller/cluster/reconciler.go:141-184 | an undisturbed call against a cache with all the owner's keys stores nothing and returns nil |
| `Calls.FreshCall` | pkg/controller/partitiongroup/reconciler.go:108-136 | an undisturbed call for a cluster or group that the cache shows, whose spec builds and none of whose keys is stored unseen, returns nil, and its keys are then stored or were cached |
| `Failures.CallFillsUpToFailure` | pkg/controller/cluster/reconciler.go:108-136 | an undisturbed call for an owner of a fresh name, whose keys are all different, stores exactly the objects of the steps before the first failing builder, each as its builder makes it, changes nothing else, and returns that builder's error, or nil if none fails |
| `Failures.FreshOwnerCall` | pkg/controller/partitiongroup/reconciler.go:108-136 | for every spec of a cluster or group, by name: without a protocol exactly n-init is added, with a claim that does not parse exactly n-init, n-config and n-pdb, and the call fails; otherwise exactly the five objects, and it returns nil |
| `Calls.BenchmarkNeedsAnotherCall` | pkg/controller/benchmark/reconciler.go:107-133 | a benchmark's call that starts without its init ConfigMap in the cache, which does not learn of it meanwhile, never goes through |
| `Builders.StableRendering` | pkg/controller/partitiongroup/reconciler.go:106 | passes over the same raw spec build identical objects whichever version they read it from, and would if the defaults were written back |
| `Protocol.SoundRun` | pkg/controller/cluster/reconciler.go:88-232 | in every run, whatever happens, each object a pass created is, while stored, the rendering of one version of its owner's spec at its own key, and copies, news and passes hold genuine versions |
| `Protocol.CaughtUpRun` | pkg/controller/cluster/reconciler.go:79-81 | in every run the cache lags behind: having learned its news of an object or owner, it shows the current state |
| `Growth.GrowingRun` | pkg/controller/partitiongroup/reconciler.go:108-136 | without deletions the store only grows, passes and finished owners have all earlier keys stored, and no creation is older than what was created before it |
| `Growth.SpecVersionsNeverDecrease` | pkg/controller/partitiongroup/reconciler.go:92-136 | with arbitrary edits and stale forward-moving reads, an owner's objects are renderings of versions of its spec that never decrease in reconcile order |
| `Growth.OneSpecBetween` | pkg/controller/partitiongroup/reconciler.go:92-136 | if the first and last object of a stretch come from one version, so does everything between them |
| `Growth.PrefixStored` | pkg/controller/partitiongroup/reconciler.go:108-136 | an owner's stored objects form a prefix of its reconcile order, each created at the first step that wants its key |
| `Confluence.EveryRunHeadsForTheSameStore` | pkg/controller/cluster/reconciler.go:88-184 | with specs left alone and no two owners wanting a key that is not there, every state holds the initial store plus desired objects only; once every owner has had one error-free pass it holds all of them |
| `Confluence.FinalIsUnique` | pkg/controller/cluster/reconciler.go:88-184 | the initial store and the specs determine that final store |
| `Confluence.Confluent` | pkg/controller/cluster/reconciler.go:88-184 | any two such interleavings end in the same store |
| `Confluence.FinalStays` | pkg/controller/cluster/reconciler.go:141-184 | no later pass, whatever it reads or fails at, changes it again, even where owners want common keys |
| `Contest.ConfluenceIsExact` | pkg/controller/cluster/reconciler.go:88-184 | with valid specs all complete runs agree if and only if no two owners want a key that is not there at the start |
| `Contest.ContestsDiverge` | pkg/controller/cluster/reconciler.go:88-184 | two owners that do want one make two complete runs end in different stores |
| `Contest.EditsKeepTheKeys` | pkg/controller/cluster/reconciler.go:88-184 | in deletion-free runs from an empty store, with any edits and clashes, exactly the keys of all plans are stored once every name has had an error-free pass |
| `Progress.CreationsAreBounded` | pkg/controller/benchmark/reconciler.go:105-155 | in every deletion-free run, edits and clashing names included, an owner's creations plus its keys still missing are at most its keys missing at the start |
| `Progress.CreationsAreConserved` | pkg/controller/benchmark/reconciler.go:105-155 | with specs left alone and no two owners wanting a key that is not there, the two are equal |
| `Progress.LessonsAreConserved` | pkg/controller/cluster/reconciler.go:79-81 | in every deletion-free run the cache never unlearns a key: what it learned plus what it does not know equals what it did not know at the start |
| `Progress.AbortsAreBounded` | pkg/controller/benchmark/reconciler.go:105-155 | in every deletion-free run, edits and clashing names included: if the cache knows the keys at which an owner's passes aborted whenever its next pass begins, they abort at most once at each of its keys |
| `Progress.RetriesSucceed` | pkg/controller/benchmark/reconciler.go:105-155 | and if none of its calls fails, then once more of its passes have ended than it has keys, one was free of errors |
| `Progress.AbortMeansTaken` | pkg/controller/cluster/reconciler.go:186-232 | in every run from any start a pass whose builder works aborts by itself only because the key it missed is stored |
| `Progress.KnownPassOnlyLooks` | pkg/controller/cluster/reconciler.go:141-184 | a pass against a cache with all its keys changes nothing but its being done |
| `Progress.EveryOwnerCanFinish` | pkg/controller/benchmark/reconciler.go:105-155 | from every state of a deletion-free run, edits and clashing names included, an owner whose current spec is valid can finish with a single further pass |
| `Progress.TheEndIsReachable` | pkg/controller/cluster/reconciler.go:88-184 | with specs left alone and valid, all owners can finish from every reachable state, and the store is then the final one if no key was contested |
| `Lifecycle.RetiredRun` | pkg/controller/cluster/reconciler.go:92-101 | once a UID is retired, no run stores another object carrying it |
| `Lifecycle.DeletionRetires` | pkg/controller/cluster/reconciler.go:92-101 | a UID is retired when the owner is gone or new, the cache neither shows the old one nor has news of it to learn, and no pass over the old copy is in flight |
| `Lifecycle.SeenDeletionRetires` | pkg/controller/cluster/reconciler.go:92-101 | in particular when the owner is deleted, the cache has learned all news of its name and its passes are over |
| `Retirement.LateOwnerCreates` | pkg/controller/cluster/reconciler.go:92-101 | an owner created and deleted before the cache learns of it: the run in which a pass then creates an object with its dead UID |
| `Retirement.RetiredExactly` | pkg/controller/cluster/reconciler.go:92-101 | a UID is retired if and only if no run leads to another pass over a copy of its owner |
| `Lifecycle.CleanupIsExact` | pkg/controller/cluster/reconciler.go:186-232 | the stored objects with a UID are exactly those created from owner copies with it; collecting a retired UID removes exactly these |
| `Lifecycle.LivingKeepTheirs` | pkg/controller/cluster/reconciler.go:186-232 | as long as nobody deletes an owner, no pass, edit or collection changes or removes an object with its reference |
| `Lifecycle.FailureIsContained` | pkg/controller/partitiongroup/reconciler.go:176-186 | a builder that fails for every spec an owner ever had keeps its object and all later ones from ever being stored |
| `Operator.AtomixIsWellFormed` | pkg/controller/cluster/reconciler.go:141-232 | the operator's builders fit the protocol: each object has the key that was looked up and its owner's reference |
| `Operator.ClashFreePlans` | pkg/controller/util/benchmark.go:37-55 | without clashing names no key is contested, and over an empty store only then |
| `Operator.OperatorIsConfluent` | pkg/controller/cluster/reconciler.go:88-184 | confluence of the operator's own passes over any clash-free population |
| `Operator.OperatorConfluenceIsExact` | pkg/controller/cluster/reconciler.go:88-184 | from an empty store and with valid specs it holds if and only if no two names clash |
| `Operator.AtMostFiveCreations` | pkg/controller/benchmark/reconciler.go:105-155 | no owner's passes create more than five objects in any deletion-free run, edits and clashing names included |
| `Operator.AtMostFiveAborts` | pkg/controller/benchmark/reconciler.go:105-155 | nor do they abort more than five times in any such run if the cache heeds, and the sixth unfailing pass at the latest succeeds |
| `Operator.VolumesAreStored` | pkg/controller/util/partitiongroup.go:322-326 | every ConfigMap that a stored StatefulSet or Pod mounts is stored, clashes and edits included |
| `Operator.ServicesHaveTheirSets` | pkg/controller/partitiongroup/reconciler.go:128-136 | a stored Service of a cluster or group implies the stored StatefulSet of the same owner whose ServiceName names it |
| `Operator.StoredQuorum` | pkg/controller/util/cluster.go:64-75 | in every run from any start, for a stored budget and StatefulSet of one spec: minAvailable is at most replicas and is the least number whose pod sets always intersect |
| `Operator.StoredSelectorsSeparate` | pkg/controller/util/partitiongroup.go:108-115 | in every run from any start, the selector of a stored StatefulSet of a cluster or group matches the pods of a stored object if and only if that is the same StatefulSet |
| `Operator.StoredServicesSelect` | pkg/controller/util/cluster.go:97-100 | in every run from any start, a cluster's stored Service selects the pods of a stored object if and only if it was built for the cluster or for a group or benchmark naming it |
| `Operator.StoredServicesDisjoint` | pkg/controller/util/cluster.go:97-100 | the stored Services of two clusters of a namespace never select the pods of one stored object |
| `Operator.StoredWorkersSelect` | pkg/controller/util/benchmark.go:161-167 | in every run from any start, a benchmark's stored worker StatefulSet selects the pods of a stored object if and only if that is the worker StatefulSet of a benchmark of the same cluster |
| `Stored.StoredInOrder` | pkg/controller/partitiongroup/reconciler.go:108-136 | in every deletion-free run from an empty store without clashing names: a stored StatefulSet n of a cluster or group implies its budget n-pdb, config n-config and script n-init, the budget the two ConfigMaps, the config the script, and the Service all of them; a benchmark's Service n-service implies its Pod and ConfigMaps, and its StatefulSet the Service too; always the same owner's |
| `Stored.StoredIsAsked` | pkg/controller/util/partitiongroup.go:55-254 | in every run from any start, every object a pass created has, while stored, the names, labels, counts, images, claims, volumes, mounts, ports and scripts that the raw spec of its owner asks for, with the documented values for what was left out |
| `Stored.StoredReplicas` | pkg/controller/util/benchmark.go:228-258 | a stored StatefulSet has the size or workers of its spec, or one replica if the spec has none; its pods read exactly that count from ATOMIX_NODES, and every volume a container mounts is a volume or a claim of the pod |
| `Stored.StoredConfigIsAsked` | pkg/controller/util/partitiongroup.go:149-237 | a stored group configuration read back gives the owner's name, the partitions asked for (or as many as the size), and of the winning protocol the partition size, strategy and level asked for, or 3, "node_aware" and "mapped" |
| `Stored.StoredGroupServiceSelects` | pkg/controller/util/partitiongroup.go:83-105 | in every run from any start, a group's stored Service selects the pods of a stored object if and only if that is the group's own StatefulSet and was built for the same cluster |
| `Stored.StoredBenchmarkServiceSelects` | pkg/controller/util/benchmark.go:132-158 | in every run from any start, a Service stored by a benchmark's controller selects exactly the coordinator Pods of the benchmarks of its cluster, one stored by its worker exactly their worker StatefulSets |
| `Stored.CoordinatorServiceSelects` | pkg/controller/benchmark/reconciler.go:107-153 | in deletion-free runs from an empty store every benchmark's Service selects exactly the coordinator Pods of its cluster |
| `Stored.StoredMounts` | pkg/controller/util/resources.go:96-123 | the one volume called init-scripts of a stored StatefulSet or Pod comes from its owner's stored ConfigMap with create_config.sh, and the init container mounts it; the one called user-config from the stored one with atomix.conf, and the main container mounts it |
| `Stored.StoredMembership` | pkg/controller/util/cluster.go:120-149 | the script in the volume called init-scripts, run on each pod of the stored StatefulSet with its ATOMIX_NODES, succeeds and gives all pods the same members, each finding itself at its ordinal |
| `Stored.StoredDiscovery` | pkg/controller/util/cluster.go:120-154 | wherever that script succeeds, the value it writes for atomix.service is cluster.namespace.svc.cluster.local for the cluster its spec named; the Service of that name, when stored, selects the pods if and only if the spec still named the cluster when the StatefulSet was built |
| `Stored.StoredCoordinator` | pkg/controller/util/benchmark.go:70-86 | a stored coordinator Pod runs the controller's stored script, never the worker's: it announces the named cluster's DNS name, the benchmark's Service as its host, and no members |
| `Outcomes.StoredProtocolAgrees` | pkg/controller/util/partitiongroup.go:118-132 | in every run from any start, stored config and StatefulSet of one spec agree on the protocol whatever the free text contains, and the text gives back the effective settings whenever it can |
| `Outcomes.WorkerVersionsNeverStored` | pkg/controller/benchmark/reconciler.go:107-153 | a benchmark's stored init script, config and Service are always the controller's |
| `Outcomes.FiveObjectsInTheEnd` | pkg/controller/benchmark/reconciler.go:107-153 | after an error-free pass exactly five objects exist for it |
| `Outcomes.NoProtocolOnlyInit` | pkg/controller/util/partitiongroup.go:118-132 | a group that never had a protocol only ever gets its init ConfigMap |
| `Outcomes.BadSizeNoSet` | pkg/controller/util/resources.go:311-315 | an owner whose claim size never parsed never gets a StatefulSet or Service |
| `Naming.KeyCollision` | pkg/controller/util/cluster.go:30-52 | two owners want a common key if and only if their names clash |
| `Naming.PlanKeys` | pkg/controller/util/partitiongroup.go:30-52 | which keys an owner wants, by kind of object |
| `Naming.PlanRepeats` | pkg/controller/util/benchmark.go:169-187 | the only repeated keys are a benchmark's init, config and Service keys |
| `Naming.FiveKeys` | pkg/controller/util/benchmark.go:37-55 | every owner wants five different keys |
| `InitScript.CreateConfig` | pkg/controller/util/cluster.go:120-149 | the script with its variables and its counting loop computes the script function |
| `InitScript.MatchIsTheMatch` | pkg/controller/util/cluster.go:140-146 | the host name's match is sound, complete and unique |
| `InitScript.HostRoundTrip` | pkg/controller/util/cluster.go:124-146 | on pod k's host the script recovers the set's name and the ordinal if and only if the name has no dot |
| `InitScript.NodeIdsNeverCoincide` | pkg/controller/util/cluster.go:130 | on pods of sets without dots the script succeeds, and prints the same node id only for the same pod of the same set |
| `InitScript.DotsLoseIds` | pkg/controller/util/cluster.go:124-146 | the pods of a set of two or more all get ids of their own if and only if its name has no dot |
| `InitScript.ScriptSays` | pkg/controller/util/cluster.go:128-133 | every successful run writes the service it was printed for, the short host name as node id, that id under the domain as host, port 5679, and its argument as replicas, each read back by its key |
| `InitScript.CoordinatorSays` | pkg/controller/util/benchmark.go:71-86 | the same for a coordinator's script, whose host is the one printed into it, and which lists no member |
| `InitScript.MembershipAgreement` | pkg/controller/util/cluster.go:128-138 | with any argument that reads as the replica count the script lists, on every pod, exactly the n pods, the pod itself at its ordinal and nowhere else |
| `Text.ReadIntPrint` | pkg/controller/util/resources.go:97-106 | the count printed into ATOMIX_NODES reads back as the count |
| `Text.DecimalIsCanonical` | pkg/controller/util/cluster.go:137 | a printed ordinal has no leading zero, and one digit below ten |
| `Text.CanonicalIsDecimal` | pkg/controller/util/cluster.go:137 | and every digit string without leading zero is the printed form of the number it reads as |
| `Config.PrintedTexts` | pkg/controller/util/partitiongroup.go:149-237 | the three templates, with each setting in its place |
| `Config.HeaderRoundTrip` | pkg/controller/util/partitiongroup.go:149-237 | name, type and partitions are always recovered from the printed text |
| `Config.ConfigRoundTrip` | pkg/controller/util/partitiongroup.go:149-237 | all settings are recovered for raft and primary-backup groups, and for log groups if and only if the line between strategy and level does not occur earlier |
| `Config.EqualTexts` | pkg/controller/util/partitiongroup.go:149-237 | equal texts if and only if equal settings, or log groups of one name and partition count whose strategy and level spell the same text |
| `Config.AmbiguousTexts` | pkg/controller/util/partitiongroup.go:219-237 | other settings print the same text if and only if the group is a log group and the line between its two fields occurs at another place too |
| `Config.BlanksCollide` | pkg/controller/util/partitiongroup.go:219-237 | a family of log settings that differ and print the same text |
| `Builders.BuiltAtItsKey` | pkg/controller/util/partitiongroup.go:55-115 | every builder uses the key that was looked up and its owner's UID |
| `Builders.BuildFailures` | pkg/controller/util/partitiongroup.go:118-132 | exactly when a builder fails |
| `Builders.ProtocolAgreement` | pkg/controller/util/partitiongroup.go:240-254 | defaulting, config rendering and StatefulSet building choose the same protocol, whatever the free text contains; the set has no claim and no data mount exactly for primary-backup; the text reads back as the settings exactly when it determines them by its first such line |
| `Asked.BuiltAsAsked` | pkg/controller/util/cluster.go:55-231 | every builder delivers what the raw spec asks for, said without the builders |
| `Asked.GroupSetAsked` | pkg/controller/util/partitiongroup.go:240-332 | of a group: replicas, image, labels, the claim with the winning storage's class name and size (none for primary-backup), volumes by name, and mounts that exist |
| `Asked.WorkerSetAsked` | pkg/controller/util/benchmark.go:228-258 | of a benchmark's workers: as many replicas as workers, or one, and ATOMIX_NODES reading as that count |
| `Asked.GroupConfigAsked` | pkg/controller/util/partitiongroup.go:149-237 | of a group's configuration, without the function that prints it |
| `Selection.SetSelectsOwnPods` | pkg/controller/util/cluster.go:55-61 | a cluster's or group's selector matches its own pods and no other owner's |
| `Selection.WorkerSetSelects` | pkg/controller/util/benchmark.go:161-167 | a benchmark's worker selector matches exactly the worker pods of the benchmarks of its cluster |
| `Selection.ManagementServiceSelects` | pkg/controller/util/cluster.go:97-100 | a management Service selects exactly the pods of its cluster and of the groups and benchmarks naming it |
| `Selection.ManagementServicesDisjoint` | pkg/controller/util/cluster.go:97-100 | no labels are selected by the Services of two clusters |
| `Selection.BudgetIsLeastQuorum` | pkg/controller/util/partitiongroup.go:69-80 | size/2 + 1 is the least number of pods any two sets of which meet |
| `Specs.DefaultingFillsOnlyGaps` | pkg/apis/agent/v1alpha1/defaults.go:19-104 | defaulting completes every field that is read, changes only zero values, is idempotent, keeps the protocol, and lets partitions follow the size |
| `Specs.ClusterFilled` | pkg/apis/agent/v1alpha1/defaults.go:19-27 | a spec is the defaulted one if and only if a zero size became 1, an empty version "3.1.0", the empty storage fields "2G", "64M", "1K" and "mapped", and all else is as it was |
| `Specs.GroupFilled` | pkg/apis/agent/v1alpha1/defaults.go:29-95 | the same for a group: the winning protocol's zero partition size became 3, its empty strategy "node_aware", its zero buffers 0.2; the losing protocols are unchanged |
| `Specs.BenchmarkFilled` | pkg/apis/agent/v1alpha1/defaults.go:97-104 | the same for a benchmark: zero workers became 1 |
| `SpecObjects.SetDefaultsPartitionGroup` | pkg/apis/agent/v1alpha1/defaults.go:29-46 | the in-place defaulting leaves the spec filled with exactly the documented values, changes no pointer, and writes only to the spec's version, size and partitions and to the struct of the winning protocol with its storage and compaction |
| `SpecObjects.SetDefaultsProtocol` | pkg/apis/agent/v1alpha1/defaults.go:39-45 | only the protocol that wins the dispatch is defaulted |
| `SpecObjects.SetDefaultsCluster` | pkg/apis/agent/v1alpha1/defaults.go:19-27 | the same for a cluster |
| `SpecObjects.SetDefaultsBenchmark` | pkg/apis/agent/v1alpha1/defaults.go:97-104 | the same for a benchmark |
| `SpecObjects.PartitionGroupSpec.DeepCopyInto` | pkg/apis/agent/v1alpha1/zz_generated.deepcopy.go:326-352 | the copy has an equal value and shares no mutable object with the original |
| `SpecObjects.PartitionGroup.DeepCopyInto` | pkg/apis/agent/v1alpha1/zz_generated.deepcopy.go:265-272 | the same for the whole object |
| `SpecObjects.ClusterSpec.DeepCopyInto` | pkg/apis/agent/v1alpha1/zz_generated.deepcopy.go:191-203 | the same for a cluster's spec |
| `SpecObjects.BenchmarkSpec.DeepCopyInto` | pkg/apis/agent/v1alpha1/zz_generated.deepcopy.go:90-101 | the same for a benchmark's spec |
| `SpecObjects.Storage.DeepCopyInto` | pkg/apis/agent/v1alpha1/zz_generated.deepcopy.go:432-440 | the optional class name is copied into a new cell |
| `SpecObjects.CopyEnv` | pkg/apis/agent/v1alpha1/zz_generated.deepcopy.go:328-334 | a fresh slice with the same elements; nil stays nil |
| `SpecObjects.DeepCopy` | pkg/apis/agent/v1alpha1/zz_generated.deepcopy.go:275-282 | nil for nil, otherwise a graph of new objects with the same value |
| `SpecObjects.CopyList` | pkg/apis/agent/v1alpha1/zz_generated.deepcopy.go:293-305 | the loop over a list's items: equal values, all objects new, and no object in two of the copies |
| `SpecObjects.DeepCopyList` | pkg/apis/agent/v1alpha1/zz_generated.deepcopy.go:308-315 | nil for nil, otherwise a new list with the same metadata and such copies |
| `SpecObjects.ReadAndDefault` | pkg/controller/partitiongroup/reconciler.go:92-106 | defaulting a deep copy leaves every field reachable from the cached original unchanged |

## Left out

- The real API server, garbage collector and StatefulSet controller: abstract steps stand for them (an atomic create that fails on a taken key, removal by dead UID, pods named after their set and ordinal).
- Registration of controllers, watches, work queues, logging, leader election and `main`; that passes are triggered and retried is the freedom of the traces, and that one owner has at most one pass at a time is assumed.
- Liveness from watch events: the results are about given passes, not about when passes are triggered.
- Propagation of spec edits to existing objects: no reconciler updates or deletes anything, and none is claimed.
- `SetControllerReference` failing: its only effect here is the owner reference.
- Anti-affinity, probes, images' arguments, ports of containers, security contexts, mount paths and annotations.
- What the budgets protect: they carry no selector, so only the arithmetic is modelled.
- The quantity grammar: a parameter says which texts parse.
- Group names with blanks, which the API server rejects, in the results about printed configurations.
- The shell of the coordinator's script, which has no arguments, loops or matches: only the lines it prints.
- ATOMIX_NODES values other than printed integers make the modelled script fail; the shell would evaluate them as expressions.
- Negative sizes are modelled, and how they are halved, but no quorum or membership is claimed for them.
- JSON and YAML decoding: specs start in memory.
- `ObjectMeta`, `EnvVar` and `ResourceRequirements` are values in the heap model; their own deep copies belong to other repositories.
- The struct embedded in the raft and log structs is flattened into them.
- Deep copies of `AtomixCluster`, `AtomixBenchmark` and their lists beyond the specs: the same shape with fewer pointers.
- float32 rounding of the compaction buffers: they are reals, and only compared with zero.
- Users' edits in the results about the final store, and deletions in those about progress: objects are never updated, and nothing retries a deleted owner.
- Reconcilers.Reconciler.Reconcile: the order in which the announced turns are used up is not part of its contract, and the three controllers' methods, which differ only in the steps between reading the owner and returning, are one method that dispatches on the kind.
