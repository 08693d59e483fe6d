# monedula-gitops: a Dafny model of the desired-state engine

The engine turns manifests into desired tuples, plans operations against the live
cluster, applies them, and plans again. It also imports a live cluster back into
manifests, and several resources may share one cluster. This project models
those parts and proves what they promise over whole runs.

| file | what it holds |
|---|---|
| `Basics`, `Model`, `Operations` | string order, stable sorting, identities, the action taxonomy |
| `ManagedSet`, `Access`, `Rbac`, `AccessFacts` | desired sets and managed scopes, ACL and role-binding compilation, and what it yields tuple by tuple |
| `Store`, `Executor`, `Outcomes` | the in-memory Kafka and MDS clients as classes, the executor on them, and what a run reports and calls for each operation |
| `Mirror`, `MirrorReplies`, `MirrorVerdicts` | mirror rules, planner and writer, and their decisions in terms of the replies |
| `Diff`, `PlanFacts`, `PlanOrder`, `PlanOnce`, `Loop` | the planner; exactly what it plans, in which order and how often; one observe-plan-apply pass |
| `Intent`, `Soundness`, `Convergence`, `Settling`, `Guarding`, `OrderIndependence` | what a pass is for, and what every run keeps |
| `Owners` | several owners on one ACL set, as interleaved steps |
| `Names`, `Slugs`, `Manifests`, `ImportAcl`, `ImportPolicies`, `ImportRbac`, `FoldFacts`, `ImportClients`, `Importer`, `DriftFree` | the importer as the inverse of compilation |

## How the plan/apply loop is modelled

`Store.State` is what the two clients hold. Every claim about runs is made cell by
cell: a cell is one partition count, replication factor, config entry, ACL, role
binding, quota limit or SCRAM credential. `Intent.Goal` says, without mentioning
operations, what a cell should contain after a complete reconciliation.
`Soundness.Sound` (a dispatched call writes only goal values), `Soundness.Complete`
(a cell off its goal has a planned call) and `Soundness.Needed` (no planned call is
idle) connect the planner to it. From these follow, for every failure pattern:
each cell holds at every moment its old or its goal value, untouched cells never
change, a faultless pass ends at the goal, and a second pass repairs a faulty one.

The clients, the executor, the planner's walks, the fold and the finalizer are
imperative, over fields and objects updated in place; each is tied by its
postcondition to a function of its inputs or of the old state. A failing client call
is an oracle on the call's position and leaves the store unchanged.

Planner, executor, writer and importer share small decision functions with their
specifications. What those decide is stated once more in the terms of the manifests
and replies: `PlanFacts.PlannedIff` is the plan in field-by-field conditions,
`Outcomes` the run status by status, `MirrorReplies` and `MirrorVerdicts` the mirror
rules by status name and link config, `AccessFacts` the compiled grants, `FoldFacts`
the folded access lines, and `Slugs` the derived names.

## What turned out not to hold as stated, and the exact condition

* Recovery. After a first pass with failures, a second pass reaches what a
  faultless first pass would have reached in every cell but one kind: an old SCRAM
  mechanism whose deletion failed after the new one was written. `Settling.Recovery`
  is an if-and-only-if on that condition, and `Settling.ResidueHappens` a run that leaves one.
* Silence after a pass. It holds exactly when no desired grant is also a prune
  candidate (`Settling.SilentAfterOnePass`); own sets always satisfy this, and so do
  prune aggregates that contain them.
* Co-owner safety. The cluster-wide view sorts an Allow before a Deny on the same
  subject, so a surviving owner's Deny is not protected while another owner allows
  the same subject. `Owners.ProtectedIff` is the exact condition,
  `Owners.DeclaredDenyLost` an instance;
  `Owners.OverriddenDenyFlaps` shows such a tuple appearing and disappearing at every
  reconcile of its own resource when all covering owners consent.
* Prune consent. "A prune executes only when every covering resource opted in"
  (`internal/access/scope.go:17-29`, `internal/access/acl.go:40-46`) fails for a
  declaring owner whose tuples on the pattern are all overridden Denies: it is no
  contributor to the union's scope, so its missing consent goes unseen.
  `Owners.WithheldDenyLost` is an input. `Owners.PrunableIff` states exactly what is
  up for pruning in terms of what owners declare, and `Owners.VetoFailsIff` when a
  faultless reconcile removes a tuple in spite of those who withhold consent: exactly
  when each of them is overruled in all it declares on the pattern. Among owners that
  do not contradict each other everyone has the veto (`Owners.HarmoniousVeto`), and
  the view reports a conflict exactly when some do (`Owners.ConflictsReported`).
* Identity uniqueness of explicit role bindings (`internal/rbac/rbac.go:191-204`
  says two manifests on one identity collide). A topic-derived request that comes
  first hides the collision (`Rbac.RivalsMasked`); `Rbac.RefusedIff` is the exact
  condition. The pipeline compiles explicit manifests first, where the rule holds as
  stated (`Rbac.CollisionsReported`); the importer's own check compiles topics first
  (`Importer.RoleBindingsRoundTripClean`).
* The all-explicit fallback "guarantees fidelity" (`internal/importer/build.go:1482-1484`).
  On the ACL side it does exactly when no subject has two permissions; on the role-binding
  side exactly when there is a Kafka cluster id or nothing to compile
  (`Importer.BuildAccess`, `Importer.ListedImportable`). `Importer.ContradictionUnfaithful`
  and `Importer.NoClusterIdUnfaithful` are inputs on which it is not faithful.
* Folding on dual clusters. Both folds write to the same access blocks, and a line
  folded for one backend also grants on the other. `Importer.BuildAccess` states
  exactly when the folded manifests are kept; `Importer.FoldOverreaches` is a producer's
  pair of ACLs that forces the fallback although each side alone would fold.
* Metadata names. The comment at `internal/importer/build.go:955-972` says a valid dotted
  name comes out unchanged; `Names.UnchangedIff` is the exact condition and
  `Names.ValidNameRenamed` a valid name that is changed.

## Model

| member | source | states |
|---|---|---|
| `Model.FullKeyInjective` | internal/access/acl.go:71-89 | the NUL-joined key of an ACL determines all seven fields when none contains NUL |
| `Model.BindingKeyInjective` | internal/rbac/rbac.go:64-91 | the key of a role binding determines it, cluster-scoped ones included |
| `Model.EntityKeyInjective` | internal/quota/quota.go:24-38 | the rendered quota key determines the entity unless a name spells `<default>` or contains the separator |
| `ManagedSet.BuildDesiredSet` | internal/managedset/managedset.go:104-139 | the index-based walk with both hooks computes the specified output and refusals for any items and hooks |
| `ManagedSet.MergeLaw` | internal/managedset/managedset.go:79-103 | one element per identity in first-seen order, enforced if any contributor is, else only detecting if any is, else observing if any is; it consents if all do and belongs to the first |
| `ManagedSet.ScopeEntry` | internal/managedset/managedset.go:141-160 | an entry exists exactly for contributed keys, consents exactly when every contributor does, belongs to the first, and is enforced if any contributor is, else only detecting if any is, else observing if any is |
| `ManagedSet.ScopeOfDedup` | internal/managedset/managedset.go:141-160 | deduplicating first changes nothing in mode, consent or owner of any scope entry |
| `ManagedSet.BuildScope` | internal/managedset/managedset.go:147-160 | the map-updating loop computes the scope |
| `Access.CompileTopic` | internal/access/compile.go:24-44 | the nested loops produce the tuples of producers and consumers with their defaults, in order |
| `Access.CompilePolicy` | internal/access/compile.go:46-68 | the nested loops produce one tuple per rule and operation with rule defaults |
| `AccessFacts.TopicGrants` | internal/access/compile.go:24-44 | an access block grants exactly the literal Allow tuples of its entries: any host where none is given, the default operations where none are listed |
| `AccessFacts.PolicyGrants` | internal/access/compile.go:46-68 | a policy grants exactly its rules' tuples, with literal pattern, Allow and any host as defaults |
| `AccessFacts.ProducersInOrder` | internal/access/compile.go:24-33 | a further producer adds its tuples at the end, in the order of its operations |
| `AccessFacts.ConsumersInOrder` | internal/access/compile.go:34-44 | a further consumer adds its tuples after all producers, the topic's before the group's |
| `AccessFacts.RulesInOrder` | internal/access/compile.go:46-68 | a further rule adds its tuples at the end, in the order of its operations |
| `Access.BuildDesiredAcls` | internal/access/compile.go:92-102 | the walk with the stateful Allow/Deny hook computes the desired set and the refusals |
| `Access.DesiredAclsLaw` | internal/access/compile.go:70-102 | kept are exactly the requests agreeing with the first permission on their subject, merged per identity; refused are exactly the others |
| `Access.NoRefusals` | internal/access/compile.go:70-77 | nothing is refused if and only if no subject is requested with two permissions |
| `AccessFacts.RefusedForPermission` | internal/access/compile.go:70-102 | something is refused if and only if two requests agree in all six other fields and differ in the permission |
| `Access.ConflictFreeMerge` | internal/access/scope.go:41-47 | for conflict-free requests the set obeys the merge law and its scope is that of the raw list |
| `Access.DesiredScope` | internal/access/scope.go:17-47 | the scope consents under a key exactly when every accepted request under it does |
| `Access.Conflicts` | internal/access/conflict.go:17-36 | the walk with a map of first requests reports each later request with another permission, paired with the first on its subject |
| `Access.ConflictsAreRefusals` | internal/access/conflict.go:10-16 | the reported conflicts are exactly the requests the desired-set walk refuses, in order |
| `Access.ConflictParties` | internal/access/conflict.go:5-9 | each names the first request on the subject and a request that contradicts it |
| `Rbac.Compile` | internal/rbac/rbac.go:95-189 | fails exactly when a cluster id its scope needs is missing, else one item per resource in order, or one without a resource, each with the manifest's principal, role, scope, mode and source |
| `Rbac.CompileTopicAccess` | internal/rbac/topicaccess.go:24-87 | fails exactly without a Kafka cluster id, else the write, read and group roles of the access block, and a warning for each host or operation list that is dropped |
| `AccessFacts.TopicRoles` | internal/rbac/topicaccess.go:38-87 | the write role on the topic per producer, then the read roles on topic and group per consumer, in order, literal, Kafka-scoped and attributed to the topic |
| `AccessFacts.AccessWarnings` | internal/rbac/topicaccess.go:89-131 | the warnings are those of entries with a host other than any, or an operation list that differs from the role's as a set, naming what is dropped |
| `Rbac.ProducerWarned` | internal/rbac/topicaccess.go:89-106 | a producer is warned about exactly when its ACLs differ from those of the plain entry its role stands for |
| `Rbac.ConsumerWarned` | internal/rbac/topicaccess.go:89-106 | likewise for a consumer, on its topic and its group |
| `Rbac.DesiredBindingsLaw` | internal/rbac/rbac.go:191-234 | refused are exactly the requests whose identity was first requested by a rival manifest; the rest merge per identity |
| `Rbac.NoCollisions` | internal/rbac/rbac.go:191-234 | without rival manifests nothing is refused and every identity survives |
| `Rbac.CollisionsReported` | internal/pipeline/pipeline.go:490-552 | with explicit manifests compiled first, a collision is reported if and only if two manifests rival each other |
| `AccessFacts.RefusedForManifest` | internal/rbac/rbac.go:191-234 | with explicit manifests first, something is refused if and only if two that differ in namespace or name request one identity |
| `Rbac.RefusedIff` | internal/rbac/rbac.go:205-225 | in any list something is refused on an identity exactly when manifests rival each other on it and its first request is explicit |
| `Rbac.DerivedRequestMasks` | internal/rbac/rbac.go:205-225 | in any list, where an identity is first requested by a topic, nothing on it is refused |
| `Rbac.RivalsMasked` | internal/rbac/rbac.go:205-225 | two rival manifests behind a topic's request pass without a refusal |
| `Store.ExecAt` | internal/kafka/mock/mock.go:341-441 | an accepted call writes exactly the cells it touches and leaves every other cell |
| `Store.KafkaClient.CreateTopic` | internal/kafka/mock/mock.go:343-357 | fails on an injected failure or an existing topic and then changes nothing but the log; otherwise adds the topic |
| `Store.KafkaClient.UpdateTopicConfig` | internal/kafka/mock/mock.go:361-376 | fails on an unknown topic and then changes nothing, else sets one config entry |
| `Store.KafkaClient.CreatePartitions` | internal/kafka/mock/mock.go:381-394 | fails on an unknown topic or a shrinking count and then changes nothing, else sets the count |
| `Store.KafkaClient.DeleteAcls` | internal/kafka/mock/mock.go:421-441 | removes exactly the ACLs matching in all seven fields |
| `Store.KafkaClient.DeleteQuota` | internal/kafka/mock/mock.go:556-577 | removes the keys, and the entity when none is left |
| `Store.KafkaClient.UpsertScram` | internal/kafka/mock/mock.go:640-660 | stores the credential with 4096 iterations for zero and counts the upsert, or changes nothing on a failure |
| `Store.MdsClient.AddRoleBinding` | internal/mds/mock/mock.go:171-184 | adds the binding, or only logs the call when it fails |
| `Diff.ComputePlan` | internal/diff/diff.go:260-306 | the imperative planner, with guards, filters and the final sort, computes the specified plan |
| `PlanFacts.PlannedIff` | internal/diff/diff.go:260-306 | with or without a mirror snapshot, the plan holds exactly the operations, field by field, that declared topics, grants, quotas, users and mirrors and covered live grants call for, less what the guards hold back, plus the guards' findings |
| `PlanFacts.NumeralValue` | internal/diff/diff.go:436-451 | counts in an operation are shown by their decimal numerals |
| `PlanOrder.PlanInOrder` | internal/diff/diff.go:283-306 | nothing in the plan comes after an operation it precedes in action name, target, field and subject |
| `PlanOnce.PlannedOnce` | internal/diff/diff.go:260-306 | for unique identities, and topics and mirrors from different manifests, no operation is planned twice |
| `Diff.ComputeAddPruneOps` | internal/diff/diff.go:528-583 | the two sorted walks emit the additions and the consented prunes |
| `Diff.ComputeTopicOps` | internal/diff/diff.go:400-487 | the topic walk emits creations, partition, config and replication operations in key order |
| `Diff.ComputeQuotaOps` | internal/diff/diff.go:723-786 | the quota walk emits set, update and remove operations |
| `Diff.ComputeUserOps` | internal/diff/diff.go:884-963 | the user walk emits create, iteration, mechanism and rotation operations |
| `Diff.ComputeGuards` | internal/diff/diff.go:316-345 | the guard loop computes the guard map; which topics are guarded, and by which finding, is `Guarding.GuardedIff` |
| `Executor.ExecutionOrder` | internal/executor/executor.go:180-205 | the four-bucket loop computes the dependency order |
| `Executor.OrderedIsStable` | internal/executor/executor.go:180-205 | nothing is lost or duplicated, groups are in dependency order, and each group keeps its input order |
| `Executor.Apply` | internal/executor/executor.go:158-178 | on the clients, results and final contents are those of the specified run under the clients' failures; `Outcomes` says what such a run reports and calls |
| `Executor.ApplyOne` | internal/executor/executor.go:223-313 | one operation on the clients is one step of that run: settled, skipped or dispatched, and a failed creation recorded |
| `Executor.DispatchOp` | internal/executor/executor.go:315-479 | makes the operation's calls in order and stops at the first failure, so a failed upsert never deletes |
| `Executor.RunLogged` | internal/kafka/mock/mock.go:341-357 | calls made before a run only shift the positions at which injected failures strike; results and contents are the same |
| `Executor.PrerequisiteSafety` | internal/executor/executor.go:158-178 | for any list, approvals and failures, an ACL or schema operation whose topic failed to be created is never dispatched |
| `Executor.OneOutcomeEach` | internal/executor/executor.go:158-178 | one result for each operation, in execution order |
| `Outcomes.Statuses` | internal/executor/executor.go:223-295 | in a run of any list, per operation: report-only exactly if its mode does not act or it is a progressing mirror; rejected, blocked for a missing approval, prune disabled and unsupported exactly for the named actions |
| `Outcomes.Attempts` | internal/executor/executor.go:223-313 | skipped exactly if a creation of the topic it depends on failed before it in the run; a failed read fails; otherwise it succeeds or fails exactly if nothing settled or skipped it |
| `Outcomes.SpoiledRun` | internal/executor/executor.go:140-152 | a run with an acting rejection, failed read, unhealthy, stopping or promoted mirror, unsupported change or missing approval is not OK |
| `Outcomes.NotAttempted` | internal/executor/executor.go:223-305 | what is not attempted makes no call and changes nothing |
| `Outcomes.OneRequest` | internal/executor/executor.go:315-404 | an attempted operation makes the one call it describes and succeeds exactly when the client accepts it |
| `Outcomes.UpsertThenDelete` | internal/executor/executor.go:431-479 | a credential operation upserts first and deletes the old mechanism it names only after the upsert succeeded |
| `Outcomes.NoRequest` | internal/executor/executor.go:315-404 | without its payload, a resolvable password or a client method it fails and calls nobody; schema and mirror operations end as their backend decides |
| `Outcomes.TraceIsWhole` | internal/executor/executor.go:158-178 | the moments that claims about runs speak of are the first state and the one after each client call |
| `Outcomes.DependencyOrder` | internal/executor/executor.go:180-221 | topics and the rest run before ACLs, ACLs before schemas, schemas before role bindings |
| `Outcomes.GroupKeepsOrder` | internal/executor/executor.go:180-221 | each of the four groups keeps its members and their input order |
| `Executor.ResultOK` | internal/executor/executor.go:140-152 | true if and only if every outcome is a success, report-only or a disabled prune |
| `Intent.PlannedOrigin` | internal/diff/diff.go:260-306 | every planned operation comes from a declared or a live object in the way its kind prescribes |
| `Intent.OriginPlanned` | internal/diff/diff.go:260-306 | and everything so prescribed is planned when there is no mirror snapshot |
| `Intent.AddPruneMember` | internal/diff/diff.go:495-583 | the plan of a kind consists of exactly the missing desired and the covered undesired identities |
| `Soundness.Sound` | internal/diff/diff.go:260-306 | every call of a planned dispatchable operation writes goal values only |
| `Soundness.Complete` | internal/diff/diff.go:260-306 | every cell off its goal is written by a planned dispatchable operation |
| `Soundness.Needed` | internal/diff/diff.go:260-306 | a planned operation with a client call changes some cell, unless it only rotates a password |
| `Convergence.NothingElse` | internal/executor/executor.go:158-178 | under any approvals and failures each cell holds its original or its goal value at every moment |
| `Convergence.Frame` | internal/diff/diff.go:505-583 | what is neither declared nor in a managed scope is as it began at every moment |
| `Convergence.Consent` | internal/operations/operations.go:137-186 | without approvals and consent nothing disappears and no partition count changes, but for the old mechanism of a mechanism change |
| `Convergence.AuthenticableThroughout` | internal/executor/executor.go:431-479 | at every moment of every run a user who had a credential has one |
| `Settling.PlannedCreateOnce` | internal/diff/diff.go:400-420 | two creations of one topic in a plan, guarded or not, are the same entry |
| `Settling.OnePass` | internal/diff/diff.go:260-306 | a faultless pass leaves every cell at its goal, under any approvals |
| `Settling.Absorbs` | internal/executor/executor.go:158-178 | whatever part of a plan took effect, the goal stays the same except for residues |
| `Settling.SilentAfterOnePass` | internal/diff/diff.go:260-306 | after a faultless pass the next plan has nothing to dispatch if and only if no desired grant is a prune candidate |
| `Settling.KeptSettles` | internal/diff/diff.go:125-191 | prune aggregates that contain the desired sets meet that condition |
| `Settling.OwnSetSettles` | internal/diff/diff.go:162-191 | so do plans without aggregates |
| `Settling.OnlyFindingsRemain` | internal/diff/diff.go:400-487 | fully approved, what remains is rejected decreases, replication factors and rotations |
| `Settling.TopicFindings` | internal/diff/diff.go:422-483 | a decrease or a replication change is reported if and only if declared and live values call for it and it is not ignored |
| `Settling.Recovery` | internal/executor/executor.go:431-479 | after any failures a second pass reaches the state of a faultless first pass in a cell if and only if the cell is no residue |
| `Settling.ResidueHappens` | internal/executor/executor.go:431-479 | a mechanism change whose deletion fails leaves both mechanisms, a residue |
| `Settling.SilentAfterRecovery` | internal/diff/diff.go:260-306 | and the plan after it has nothing to dispatch |
| `OrderIndependence.PlanIgnoresOrder` | internal/diff/diff.go:283-306 | permuting desired, live, prune-aggregate and keep lists with unique sort keys leaves the plan identical, ties included |
| `OrderIndependence.SameObjectsSamePlan` | internal/diff/diff.go:283-306 | and so does permuting lists of distinct NUL-free tuples and bindings, plain quotas, topics, users and mirrors |
| `OrderIndependence.DistinctAclKeys` | internal/access/acl.go:71-89 | distinct NUL-free ACLs have unique sort keys |
| `OrderIndependence.DistinctBindingKeys` | internal/rbac/rbac.go:64-91 | so have distinct NUL-free role bindings |
| `OrderIndependence.DistinctQuotaKeys` | internal/quota/quota.go:24-38 | and quotas of distinct plain entities |
| `Guarding.GuardedTopicUntouched` | internal/diff/diff.go:308-386 | in any run a guarded topic is as it began at every moment and gets no new literal grant |
| `Guarding.GuardedIff` | internal/diff/diff.go:308-345 | a declared topic is guarded if and only if the snapshot is incomplete or lists a mirror of its name, other than a stopped one that the topic listing shows too; the planned finding is a rejection where both listings show a mirror of a known status, else a failed read |
| `Loop.ReconcilePass` | internal/executor/executor.go:158-178 | on clients with any call history, observing, planning and applying runs the plan for what was observed under the failures still to come, appends its calls and, without such failures, ends at the goal |
| `Mirror.MirrorOpsFor` | internal/diff/mirror.go:41-172 | the planner's loops compute its decision table, which `MirrorVerdicts` states action by action |
| `MirrorReplies.Classes` | internal/mirror/snapshot.go:132-158 | each classification of a topic by the two listings and the literal status names |
| `MirrorReplies.ReadComplete` | internal/mirror/snapshot.go:73-130 | a snapshot is complete exactly when both cluster ids were read and agree, all listings were read and no mirror or link is listed twice |
| `MirrorReplies.MirrorsAsListed` | internal/mirror/snapshot.go:73-130 | a complete snapshot holds exactly the listed mirrors and topics |
| `MirrorReplies.LinksAsListed` | internal/mirror/snapshot.go:73-130 | a link is known exactly when asked for and listed; its configs are in error exactly when they could not be read |
| `MirrorReplies.PrefixRule` | internal/mirror/rules.go:15-34 | a name fits a link exactly when it is the prefix and the source name, and explicit if there is a prefix |
| `MirrorReplies.OwnershipRule` | internal/mirror/rules.go:50-69 | a key is the link's exactly when a comma-separated entry of the sync list, without white space around it, names it or a stem of it before a star; undetermined exactly when the list is missing or blank |
| `MirrorReplies.SpaceRule` | internal/mirror/rules.go:56-61 | blanks, tabs and line ends are trimmed from the list and its entries, printable ASCII is not |
| `MirrorVerdicts.HealthFindings` | internal/diff/mirror.go:127-135 | unhealthy and progressing are reported exactly for the declared mirror in one of the named states |
| `MirrorVerdicts.StoppingFinding` | internal/diff/mirror.go:118-125 | stopping is reported exactly for the declared mirror in state PENDING_STOPPED |
| `MirrorVerdicts.PromotedFinding` | internal/diff/mirror.go:101-110 | promotion is reported exactly for a topic whose mirror is STOPPED |
| `MirrorVerdicts.CreationPlanned` | internal/diff/mirror.go:74-100 | a creation is planned exactly for a vacant, fitting name on an active link that owns none of the declared keys |
| `MirrorVerdicts.AlterationPlanned` | internal/diff/mirror.go:147-172 | an alteration is planned exactly when a declared key the link leaves alone differs on the declared mirror |
| `MirrorVerdicts.ReplicasReported` | internal/diff/mirror.go:137-145 | an unsupported replication factor is reported exactly when one is declared and differs |
| `MirrorVerdicts.UnknownsReported` | internal/diff/mirror.go:41-116 | a failed read is reported exactly for an incomplete snapshot, unread link configs, a mirror without its topic or an unknown status |
| `MirrorVerdicts.Refusals` | internal/diff/mirror.go:54-122 | a rejection is planned exactly for an unknown link, a name that does not fit, an ordinary, promoted or other mirror's topic, an inactive link or a key the link owns |
| `MirrorVerdicts.MirrorOpFields` | internal/diff/mirror.go:30-180 | every planned operation carries the mirror's source, target and mode; a creation the whole declaration, an alteration one key with its live and declared value |
| `Mirror.CreateMirror` | internal/mirror/writer.go:58-98 | posts the creation exactly when its ordered checks pass on a fresh snapshot |
| `Mirror.AlterMirrorConfig` | internal/mirror/writer.go:100-123 | sends the alteration exactly when its ordered checks pass on a fresh snapshot |
| `MirrorVerdicts.CreationAccepted` | internal/mirror/writer.go:58-98 | a creation passes the checks exactly when the link is usable and active, the name vacant and fitting, and the link owns none of its keys |
| `MirrorVerdicts.AlterationAccepted` | internal/mirror/writer.go:100-123 | an alteration passes exactly when the topic is a mirror on that link and of that source that still follows it, and the link leaves the key alone |
| `MirrorVerdicts.LinkErrors` | internal/mirror/writer.go:27-43 | an incomplete snapshot, a missing link and unread link configs each give their own error |
| `MirrorVerdicts.KeyErrors` | internal/mirror/writer.go:45-56 | a refused key is one the link does not leave alone: undetermined when the sync list is blank, link-managed otherwise |
| `Mirror.PlannerWriterAgreeOnCreate` | internal/mirror/writer.go:58-98 | on the same replies the writer posts if and only if the planner plans the creation, which is then the only operation |
| `Mirror.PlannerWriterAgreeOnAlter` | internal/diff/mirror.go:139-172 | an alteration is planned exactly for the differing declared keys that the writer accepts |
| `Mirror.FailsClosed` | internal/mirror/snapshot.go:70-71 | nothing is planned or written from an incomplete snapshot |
| `Owners.BuildClusterAclView` | internal/operator/reconcile/reconcile.go:177-235 | the loop over surviving resources computes the union, its scope and the contradictions between resources |
| `Owners.ConflictsReported` | internal/operator/reconcile/reconcile.go:170-190 | the view reports a conflict if and only if surviving owners contradict each other |
| `Owners.ProtectedIff` | internal/operator/reconcile/reconcile.go:186-235 | a declared tuple is in the union unless it is a Deny on a subject a surviving owner allows |
| `Owners.HarmoniousProtects` | internal/operator/reconcile/reconcile.go:177-235 | without contradictions the union is exactly what surviving owners declare |
| `Owners.ViewScope` | internal/access/scope.go:17-29 | the union's scope consents exactly when every owner with a protected tuple on the pattern does |
| `Owners.PrunableIff` | internal/access/scope.go:17-29 | a tuple is up for pruning exactly when it is undeclared or overridden, its pattern is declared, and every declaring owner without consent is overruled in all it declares there |
| `Owners.HarmoniousVeto` | internal/access/scope.go:17-29 | among owners without contradictions a prunable tuple has the consent of every owner that declares on its pattern |
| `Owners.WithheldDenyLost` | internal/access/acl.go:40-46 | a resource that declares a Deny and withholds consent cannot keep it from being pruned while a consenting one allows the subject |
| `Owners.PrunesPrunable` | internal/diff/diff.go:125-170 | a reconcile prunes exactly the tuples outside the union whose pattern is covered and whose covering owners, those with a protected tuple there, all consent |
| `Owners.ReconcileBounds` | internal/operator/reconcile/reconcile.go:560-593 | at every moment of a reconcile, under failures, a tuple goes only if prunable and comes only if declared |
| `Owners.ReconcileEnd` | internal/operator/reconcile/reconcile.go:560-593 | a faultless reconcile ends at the live set minus the prunable plus its own |
| `Owners.ReconcileOwner` | internal/operator/reconcile/reconcile.go:564-593 | the reconcile on the clients, whatever calls they have seen, is such a step |
| `Owners.OverriddenDenyFlaps` | internal/operator/reconcile/reconcile.go:186-190 | an overridden Deny under full consent flips at every reconcile of its resource |
| `Owners.DeclaredDenyLost` | internal/operator/reconcile/reconcile.go:186-235 | with an allowing and a denying resource, both consenting, the declared Deny is unprotected and prunable |
| `Owners.VetoFailsIff` | internal/access/scope.go:17-29 | a faultless reconcile removes an undeclared or overridden tuple in spite of owners that withhold consent if and only if each of them is overruled in all it declares on the pattern |
| `Owners.SubtractProtectedAcls` | internal/operator/controller/aclview.go:134-161 | keeps, in order, exactly the entries no survivor desires |
| `Owners.RetainedAcls` | internal/operator/controller/aclview.go:163-190 | returns, in order, the survivors' entries for the tuples that stay |
| `Owners.DeletedOrRetained` | internal/operator/controller/aclview.go:97-190 | each tuple to delete is deleted or retained, never both |
| `Owners.ShieldAclDeletion` | internal/operator/controller/aclview.go:97-132 | fails when there is something to delete and the resources cannot be listed; otherwise what remains is the owner's set minus the union, what is retained their intersection |
| `Owners.DeleteOwnerAcls` | internal/operator/controller/kafkaaccesspolicy_controller.go:308-334 | one delete call for exactly the unprotected own tuples, none when nothing is left or the listing fails, no change on failure and nothing else changed |
| `Owners.StepSafety` | internal/operator/controller/aclview.go:97-132 | no step removes a union tuple; a reconcile removes only what is prunable, against no withholding owner unless it is overruled on the pattern; a finalizer removes only a deleted owner's tuples |
| `Owners.CoOwnerSafety` | internal/operator/controller/kafkaaccesspolicy_controller.go:157-201 | over every history of failing reconciles, edits and deletions a live tuple stays while the union contains it |
| `Owners.DeclaredTupleSurvives` | internal/operator/controller/aclview.go:97-111 | a declared live tuple that no survivor overrides stays over every history |
| `Owners.LastOwnerRemoves` | internal/operator/controller/kafkaaccesspolicy_controller.go:308-334 | after the deletion of an owner its tuple is live exactly if it was and a survivor protects it |
| `Owners.Confluence` | internal/operator/reconcile/reconcile.go:157-235 | in any order and number, once every owner had a faultless turn the set is the union plus what was live and not prunable |
| `Names.Slug` | internal/importer/build.go:996-1014 | the dash-collapsing loop computes the slug |
| `Names.SlugIsClean` | internal/importer/build.go:996-1014 | a slug is empty or one clean label |
| `Slugs.SlugIsWords` | internal/importer/build.go:996-1014 | the slug is the maximal stretches of letters and digits, lower-cased, joined by single dashes |
| `Slugs.SlugKeepsLetters` | internal/importer/build.go:996-1014 | every ASCII letter or digit survives, lower-cased and in order |
| `Slugs.MetaNameKeepsLetters` | internal/importer/build.go:955-994 | a metadata name of at most 247 characters holds the name's letters and digits, all of them unless it was shortened; one without any becomes `topic` |
| `Names.TopicMetaName` | internal/importer/build.go:973-994 | the label loop computes the metadata name |
| `Names.MetaNameIdempotent` | internal/importer/build.go:955-994 | every derived name is a valid DNS name and is its own derived name |
| `Names.UnchangedIff` | internal/importer/build.go:955-972 | exactly the clean names of at most 247 characters are left as they are |
| `Names.ValidNameRenamed` | internal/importer/build.go:955-972 | a valid name that is changed |
| `Names.Pigeonhole` | internal/importer/build.go:1465-1480 | as many tried candidates as there are names taken exhaust them |
| `Names.DisambiguateName` | internal/importer/build.go:1465-1480 | the search ends within one try more than names taken, at the first free candidate |
| `Names.NextName` | internal/importer/build.go:211-216 | a free name, the derived one if free and else that with a number, and valid while fewer than 99,999 are taken |
| `Names.AssignNames` | internal/importer/build.go:402-412 | names of topics and mirrors drawn from one pool are the derived ones, with numbers where needed, pairwise distinct and, up to 99,999 in all, valid |
| `Manifests.AppendProducer` | internal/importer/build.go:769-773 | appending to one topic object grants exactly the producer's tuples more |
| `Manifests.AppendConsumer` | internal/importer/build.go:782-787 | likewise for a consumer |
| `Manifests.GrantedByEntries` | internal/access/compile.go:24-44 | what a set of topics grants is what the lines of their access blocks grant |
| `Manifests.BoundByEntries` | internal/rbac/topicaccess.go:24-87 | and likewise for the roles they bind |
| `ImportAcl.BucketExact` | internal/importer/build.go:735-767 | a bucket's tuples are determined by its operations |
| `ImportAcl.PairConsumers` | internal/importer/build.go:775-818 | in all four cases consumer topics and group reads end up granted or raw |
| `ImportAcl.FoldHolder` | internal/importer/build.go:706-818 | one holder's tuples end up granted by topics or raw, nothing else changes |
| `ImportAcl.ClassifyAndFold` | internal/importer/build.go:685-822 | what topics grant afterwards with the raw rest is what they granted before with the live tuples, and the access lines added are exactly those the live tuples call for |
| `FoldFacts.FoldedLinesAre` | internal/importer/build.go:685-822 | a producer line exactly for whom is allowed Write and Describe and nothing else on an imported topic; a consumer line exactly for Read and Describe, with Read on exactly one group from the same host |
| `ImportPolicies.BuildPolicies` | internal/importer/build.go:824-925 | one policy for each principal of the raw tuples, under distinct names, that together compile to exactly the raw tuples with defaults filled in |
| `ImportPolicies.RoundTripsClean` | internal/importer/build.go:1365-1395 | true if and only if the manifests compile without conflict to exactly the live tuples |
| `ImportRbac.GatherRoleBindings` | internal/importer/snapshot.go:296-315 | every listed binding once |
| `FoldFacts.ScopesListed` | internal/importer/snapshot.go:632-650 | the scopes listed are exactly those of known types whose cluster ids are configured |
| `ImportRbac.ListedRecompiles` | internal/importer/snapshot.go:632-650 | a binding listed under a configured scope survives the round trip through a manifest |
| `ImportRbac.AddProducer` | internal/importer/rbacfold.go:94-101 | the topic binds the write role more, added or already there |
| `ImportRbac.AddConsumer` | internal/importer/rbacfold.go:103-110 | the topic binds the read roles more, added or already there |
| `ImportRbac.FoldPrincipal` | internal/importer/rbacfold.go:68-87 | one principal's roles end up bound by topics or left over |
| `ImportRbac.FoldRoleBindings` | internal/importer/rbacfold.go:21-92 | what topics bind afterwards with the leftovers is what they bound before with the live bindings, no two leftovers share an identity, and the access lines added are exactly those the live bindings call for |
| `FoldFacts.RoleLinesAre` | internal/importer/rbacfold.go:21-92 | a producer line exactly for a Kafka-scoped literal write role on an imported topic; a consumer line exactly for read roles on one imported topic and one group |
| `ImportRbac.BuildManifests` | internal/importer/build.go:285-301 | one manifest per leftover under a name of its own |
| `ImportRbac.ManifestedIds` | internal/importer/rolebinding.go:11-46 | the manifests compile to exactly the identities they stand for |
| `ImportRbac.ManifestedNoRivals` | internal/importer/rolebinding.go:11-46 | manifests of distinct identities are never rivals |
| `ImportClients.QuotaRoundTrip` | internal/importer/build.go:1089-1146 | an imported quota compiles back to its entity and limits if and only if no client-id or address is empty and all keys are known; a user is written as a principal |
| `ImportClients.BuildQuotas` | internal/importer/build.go:1025-1057 | as many manifests as live quotas, each standing for one and every quota for one, under distinct names |
| `ImportClients.UserRoundTrip` | internal/user/user.go:30-39 | an imported user compiles to a credential the live one satisfies; only the default iteration count, 4096, is left out |
| `ImportClients.BuildUsers` | internal/importer/build.go:1214-1320 | one manifest per user, SCRAM-SHA-512 if live, else SCRAM-SHA-256, with its placeholder password, under distinct names, for all but the connecting principal |
| `Importer.BuildTopics` | internal/importer/build.go:203-254 | one manifest object per topic with its live name, counts and config, under distinct names derived from the live ones, indexed by live name |
| `Importer.RoleBindingsRoundTripClean` | internal/importer/build.go:1397-1441 | true if and only if the manifests compile to exactly the live bindings and rival manifests compete only for identities that topics bind |
| `Importer.FallbackAllExplicit` | internal/importer/build.go:1482-1515 | clears every access block and compiles to the live grants |
| `Importer.ListedImportable` | internal/importer/snapshot.go:632-650 | for listed bindings the round trip needs a Kafka cluster id, or nothing to compile |
| `Importer.PlainAcls` | internal/importer/build.go:333-341 | for spelled-out tuples the ACL round trip needs only that no subject has two permissions |
| `Importer.ContradictionUnfaithful` | internal/importer/build.go:1482-1515 | a subject both allowed and denied cannot round-trip, with the fallback either |
| `Importer.NoClusterIdUnfaithful` | internal/importer/build.go:1482-1515 | nor can a topic on a cluster without a Kafka cluster id |
| `Importer.BuildAccess` | internal/importer/build.go:273-347 | on any backends, for bindings with distinct identities, the fallback is taken exactly unless each active side can round-trip and the lines folded for one side grant only what is live on the other; afterwards each side is faithful exactly under its condition |
| `Importer.FoldableAlone` | internal/importer/build.go:312-347 | on one backend that comes down to the round trip of its own side |
| `Importer.FoldOverreaches` | internal/importer/build.go:273-347 | on both backends a producer's tuples without the matching role force the fallback |
| `DriftFree.CompilePlan` | internal/pipeline/pipeline.go:242-325 | compiling manifests succeeds exactly when they are free of contradictions and rivals and the cluster ids are there, and gives desired sets with exactly the granted and bound identities; every grant acts |
| `DriftFree.NothingPlanned` | internal/diff/diff.go:260-306 | when every kind is at rest the plan is empty |
| `DriftFree.BuildResult` | internal/importer/build.go:185-347 | the import holds one manifest per topic, quota and included user, and each access side under its condition |
| `DriftFree.TopicSettled` | internal/defaulting/defaulting.go:12-44 | an imported topic needs no operation under any cluster default replication factor |
| `DriftFree.ImportThenPlan` | internal/importer/build.go:185-347 | the manifests imported from a well-formed snapshot compile to a desired state that declares every topic, quota and included user of it and exactly its grants, and planning that state against the snapshot yields no operation, on ACL, RBAC and dual clusters |

## Left out

- Schema planning and registry calls: they rest on a JSON library. Schema operations exist in the executor, where an oracle decides their outcome.
- Mirror REST calls during a run: the executor's mirror operations are decided by the same oracle; the writer is modelled on its own in `Mirror`.
- Mirror topics and schemas in the importer (filtering of link-synced ACLs, mirror manifests, schema files), so `DriftFree` is about snapshots without either.
- Message text, warnings other than those of the role mapping, risk levels, status conditions, events and locks. Operator steps are atomic because the per-cluster lock makes them so.
- Resources that share a cluster but differ in mode: a reconcile step stands for a resource in Enforce mode, the only mode that applies.
- Tenancy, namespaces and clusterRef selection: owners are those of one cluster. Imported manifests have no namespace.
- Identities are tuples rather than NUL-joined strings; the strings serve for ordering, and the injectivity lemmas connect the two.
- Modes are an enumeration; an unknown mode string ranks as unattributed. Quota entities have at most one component of each type. Limits are `real`, so NaN is outside the model.
- A missing MDS client is a client whose every call fails. Password references are opaque, and so is the placeholder environment variable of an imported user.
- The state of the clients between listing and applying does not change in `Loop.ReconcilePass`: one pass has the clients to itself.
- Diff.ComputePlan: the operations of schemas and their guard filter are not part of the plan, as schemas are left out.
- Executor.DispatchOp: the outcome of schema and mirror operations is given by an oracle on position and operation.
- DriftFree.CompilePlan: validation, schemas and mirrors of the pipeline are not compiled.
- The choice of active backends from a list of strings, with an empty list meaning ACLs, is a pair of flags.
- Maps are iterated in arbitrary order where the original's order is arbitrary, and sorted where it sorts.
- Real clients, command line, rendering, YAML loading and validation: I/O or plumbing. What validation guarantees is a precondition (`Intent.WellFormed`, `DriftFree.WellFormed`).
