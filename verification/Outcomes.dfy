/** What a run reports and does for each operation of any list, status by status:
    in terms of the operation, the approvals and the outcomes before it, and
    without the executor's own decision functions. */
module Outcomes {
  import opened Basics
  import opened Model
  import opened Operations
  import opened Store
  import opened Executor

  // ---- the situations an operation can be in ------------------------------

  predicate Acting(op: Operation) { op.mode == Enforce || op.mode == Unattributed }

  /** Deletions and destructive changes, the schema ones included, without the approval they need. */
  predicate Unapproved(op: Operation, ap: Approvals) {
    || (op.action == DeleteTopic && !ap.delete)
    || (op.action in {IncreasePartitions, UpdateReplicationFactor, LowerSchemaCompatibility, DeleteSubject, RemoveQuota,
                      DeleteScramCredential} && !ap.destructive)
  }

  predicate Unconsented(op: Operation, ap: Approvals) {
    op.action in {DeleteAcl, RemoveRoleBinding} && !ap.prune && !op.pruneAllowed
  }

  /** Divergence that no client method resolves. */
  predicate OutOfReach(op: Operation, ap: Approvals) {
    || op.action in {MirrorTopicUnhealthy, MirrorTopicStopping, MirrorTopicPromoted, UnsupportedReplicationFactorChange,
                     SchemaSuperseded}
    || (op.action == UpdateReplicationFactor && ap.destructive)
  }

  /** An ACL on a topic, or a schema under one. */
  predicate DependsOn(op: Operation, t: string) {
    || (op.action == CreateAcl && op.payload.AclPayload? && op.payload.acl.resourceType == "topic"
        && op.payload.acl.resourceName == t)
    || (op.action in {RegisterSchema, RaiseSchemaCompatibility, LowerSchemaCompatibility, DeleteSubject}
        && op.payload.SchemaPayload? && op.payload.topic == t && t != "")
  }

  predicate FailedCreation(r: OpResult, t: string) {
    r.status == Failed && r.op.action in {CreateTopic, CreateMirrorTopic} && r.op.target == t
  }

  /** A topic it depends on failed to be created before it. */
  predicate Orphaned(before: seq<OpResult>, op: Operation) {
    exists r :: r in before && FailedCreation(r, r.op.target) && DependsOn(op, r.op.target)
  }

  /** Neither reported, refused, held back nor skipped. */
  predicate Attempted(before: seq<OpResult>, op: Operation, ap: Approvals) {
    && Acting(op) && op.action !in {MirrorTopicProgressing, Rejected, StateReadError}
    && !Unapproved(op, ap) && !Unconsented(op, ap) && !OutOfReach(op, ap) && !Orphaned(before, op)
  }

  predicate HasPayload(op: Operation) {
    match op.action
    case CreateTopic | UpdateTopicConfig | IncreasePartitions | DeleteTopic => true
    case CreateAcl | DeleteAcl => op.payload.AclPayload?
    case SetQuota | UpdateQuota | RemoveQuota => op.payload.QuotaPayload?
    case AddRoleBinding | RemoveRoleBinding => op.payload.BindingPayload?
    case DeleteScramCredential => op.payload.ScramPayload?
    case _ => false
  }

  predicate Upserts(op: Operation) {
    op.action in {CreateScramCredential, UpdateScramCredential, RotateScramCredential}
  }

  /** The credential and a resolvable password. */
  predicate HasPassword(op: Operation, f: Faults) {
    op.payload.ScramPayload? && op.payload.password.Some? && f.resolves(op.payload.password.value)
  }

  predicate OtherBackend(op: Operation) {
    op.action in {RegisterSchema, RaiseSchemaCompatibility, LowerSchemaCompatibility, DeleteSubject, SchemaSuperseded,
                  CreateMirrorTopic, UpdateMirrorTopicConfig}
  }

  /** `c` asks a client for exactly what the operation says. */
  predicate Requests(op: Operation, c: Call) {
    match c
    case CallCreateTopic(t, topic) =>
      op.action == CreateTopic && t == op.target
      && (op.payload.TopicPayload? ==> topic == Topic(op.payload.partitions, op.payload.replicationFactor, op.payload.config))
    case CallUpdateConfig(t, k, v) => op.action == UpdateTopicConfig && t == op.target && k == op.field && v == op.to
    case CallCreatePartitions(t, n) =>
      op.action == IncreasePartitions && t == op.target && (op.payload.TopicPayload? ==> n == op.payload.partitions)
    case CallDeleteTopic(t) => op.action == DeleteTopic && t == op.target
    case CallCreateAcl(a) => op.action == CreateAcl && op.payload == AclPayload(a)
    case CallDeleteAcls(drop) => op.action == DeleteAcl && op.payload.AclPayload? && drop == {op.payload.acl}
    case CallSetQuota(e, limits) => op.action in {SetQuota, UpdateQuota} && op.payload == QuotaPayload(e, limits)
    case CallDeleteQuota(e, keys) =>
      op.action == RemoveQuota && op.payload.QuotaPayload? && e == op.payload.entity && keys == op.payload.limits.Keys
    case CallUpsertScram(id, n) =>
      Upserts(op) && op.payload.ScramPayload? && id == op.payload.id && n == op.payload.iterations
    case CallDeleteScram(id) => op.action == DeleteScramCredential && op.payload.ScramPayload? && id == op.payload.id
    case CallAddBinding(b) => op.action == AddRoleBinding && op.payload == BindingPayload(b)
    case CallRemoveBinding(b) => op.action == RemoveRoleBinding && op.payload == BindingPayload(b)
  }

  // ---- statuses ----------------------------------------------------------

  lemma StepReported(o: Outcome, op: Operation, ap: Approvals, f: Faults)
    ensures var st := StepOp(o, op, ap, f).results[|o.results|].status;
      && (st == WasReportOnly <==> !Acting(op) || op.action == MirrorTopicProgressing)
      && (st == WasRejected <==> Acting(op) && op.action == Rejected)
      && (st == Unsupported <==> Acting(op) && OutOfReach(op, ap))
  {
  }

  lemma StepCases(o: Outcome, op: Operation, ap: Approvals, f: Faults)
    ensures var st := StepOp(o, op, ap, f).results[|o.results|].status;
      if Settled(op, ap).Some? then st == Settled(op, ap).value
      else if Skips(op, o.failedTopics) then st == Skipped
      else st == Succeeded || st == Failed
  {
  }

  lemma GatesSettle(op: Operation, ap: Approvals)
    ensures Settled(op, ap) == Some(Blocked) <==> Acting(op) && Unapproved(op, ap)
    ensures Settled(op, ap) == Some(PruneDisabled) <==> Acting(op) && Unconsented(op, ap)
  {
  }

  lemma StepGated(o: Outcome, op: Operation, ap: Approvals, f: Faults)
    ensures var st := StepOp(o, op, ap, f).results[|o.results|].status;
      && (st == Blocked <==> Acting(op) && Unapproved(op, ap))
      && (st == PruneDisabled <==> Acting(op) && Unconsented(op, ap))
  {
    GatesSettle(op, ap);
    StepCases(o, op, ap, f);
  }

  ghost predicate FailedSet(results: seq<OpResult>, failed: set<string>) {
    forall t :: t in failed <==> exists r :: r in results && FailedCreation(r, t)
  }

  lemma StepFailed(o: Outcome, op: Operation, ap: Approvals, f: Faults)
    requires FailedSet(o.results, o.failedTopics)
    ensures FailedSet(StepOp(o, op, ap, f).results, StepOp(o, op, ap, f).failedTopics)
  {
    var o' := StepOp(o, op, ap, f);
    var new_ := o'.results[|o.results|];
    assert o'.results == o.results + [new_];
    forall t ensures t in o'.failedTopics <==> exists r :: r in o'.results && FailedCreation(r, t) {
      assert t in o'.failedTopics <==> t in o.failedTopics || FailedCreation(new_, t);
      assert forall r :: r in o'.results <==> r in o.results || r == new_;
      if FailedCreation(new_, t) { assert new_ in o'.results; }
    }
  }

  lemma {:induction false} RunFailed(ops: seq<Operation>, ap: Approvals, f: Faults, w: World)
    ensures FailedSet(Run(ops, ap, f, w).results, Run(ops, ap, f, w).failedTopics)
  {
    if ops != [] {
      RunFailed(ops[..|ops| - 1], ap, f, w);
      StepFailed(Run(ops[..|ops| - 1], ap, f, w), ops[|ops| - 1], ap, f);
    }
  }

  lemma SkipsOrphans(results: seq<OpResult>, failed: set<string>, op: Operation)
    requires FailedSet(results, failed) && op.action != SchemaSuperseded
    ensures Skips(op, failed) <==> Orphaned(results, op)
  {
    if Orphaned(results, op) {
      var r :| r in results && FailedCreation(r, r.op.target) && DependsOn(op, r.op.target);
      assert r.op.target in failed;
    }
  }

  lemma SettledIff(op: Operation, ap: Approvals)
    ensures Settled(op, ap).Some? <==>
      || !Acting(op) || op.action in {MirrorTopicProgressing, Rejected, StateReadError}
      || Unapproved(op, ap) || Unconsented(op, ap) || OutOfReach(op, ap)
    ensures Settled(op, ap) == Some(Failed) <==> Acting(op) && op.action == StateReadError
    ensures Settled(op, ap) != Some(Skipped) && Settled(op, ap) != Some(Succeeded)
  {
  }

  lemma OrphansUnsettled(before: seq<OpResult>, op: Operation)
    requires Orphaned(before, op)
    ensures op.action in {CreateAcl, RegisterSchema, RaiseSchemaCompatibility, LowerSchemaCompatibility, DeleteSubject}
  {
  }

  lemma StepAttempted(o: Outcome, op: Operation, ap: Approvals, f: Faults)
    requires FailedSet(o.results, o.failedTopics)
    ensures var st := StepOp(o, op, ap, f).results[|o.results|].status;
      && (st == Skipped <==> Acting(op) && !Unapproved(op, ap) && Orphaned(o.results, op))
      && (op.action != StateReadError ==> (st in {Succeeded, Failed} <==> Attempted(o.results, op, ap)))
      && (op.action == StateReadError && Acting(op) ==> st == Failed)
  {
    StepCases(o, op, ap, f);
    SettledIff(op, ap);
    if Orphaned(o.results, op) { OrphansUnsettled(o.results, op); }
    if op.action != SchemaSuperseded { SkipsOrphans(o.results, o.failedTopics, op); }
  }

  /** Each status of each operation, in any list: what is decided from the
      operation and the approvals alone. */
  lemma Statuses(ops: seq<Operation>, ap: Approvals, f: Faults, w: World, i: nat)
    requires i < |ops|
    ensures |Run(ops, ap, f, w).results| == |ops| && Run(ops, ap, f, w).results[i].op == ops[i]
    ensures var op, st := ops[i], Run(ops, ap, f, w).results[i].status;
      && (st == WasReportOnly <==> !Acting(op) || op.action == MirrorTopicProgressing)
      && (st == WasRejected <==> Acting(op) && op.action == Rejected)
      && (st == Blocked <==> Acting(op) && Unapproved(op, ap))
      && (st == PruneDisabled <==> Acting(op) && Unconsented(op, ap))
      && (st == Unsupported <==> Acting(op) && OutOfReach(op, ap))
  {
    StepAt(ops, ap, f, w, i);
    StepReported(Run(ops[..i], ap, f, w), ops[i], ap, f);
    StepGated(Run(ops[..i], ap, f, w), ops[i], ap, f);
  }

  /** And what depends on the outcomes before it. */
  lemma Attempts(ops: seq<Operation>, ap: Approvals, f: Faults, w: World, i: nat)
    requires i < |ops|
    ensures |Run(ops, ap, f, w).results| == |ops| && Run(ops, ap, f, w).results[i].op == ops[i]
    ensures var op, before, st := ops[i], Run(ops, ap, f, w).results[..i], Run(ops, ap, f, w).results[i].status;
      && (st == Skipped <==> Acting(op) && !Unapproved(op, ap) && Orphaned(before, op))
      && (op.action != StateReadError ==> (st in {Succeeded, Failed} <==> Attempted(before, op, ap)))
      && (op.action == StateReadError && Acting(op) ==> st == Failed)
  {
    StepAt(ops, ap, f, w, i);
    RunPrefix(ops, ap, f, w, i);
    RunFailed(ops[..i], ap, f, w);
    StepAttempted(Run(ops[..i], ap, f, w), ops[i], ap, f);
  }

  // ---- the whole run -----------------------------------------------------

  /** The run is not OK as soon as an acting operation is a rejection, a failed
      read, a mirror finding other than progress, or lacks an approval. */
  predicate Spoils(op: Operation, ap: Approvals) {
    Acting(op) && (op.action in {Rejected, StateReadError} || OutOfReach(op, ap) || Unapproved(op, ap))
  }

  lemma SpoiledRun(ops: seq<Operation>, ap: Approvals, f: Faults, w: World, op: Operation)
    requires op in ops && Spoils(op, ap)
    ensures exists r :: r in Run(ops, ap, f, w).results && r.op == op
                        && r.status !in {Succeeded, WasReportOnly, PruneDisabled}
  {
    var i :| 0 <= i < |ops| && ops[i] == op;
    Statuses(ops, ap, f, w, i);
    Attempts(ops, ap, f, w, i);
    assert Run(ops, ap, f, w).results[i] in Run(ops, ap, f, w).results;
  }

  // ---- calls -------------------------------------------------------------

  /** One call: logged, on record in the trace, and effective unless the client
      raises an error or fails on it. */
  ghost predicate Sent(b: World, a: World, c: Call, ok: bool, f: Faults) {
    var mds := c.CallAddBinding? || c.CallRemoveBinding?;
    && a.kafkaCalls == (if mds then b.kafkaCalls else b.kafkaCalls + [c])
    && a.mdsCalls == (if mds then b.mdsCalls + [c] else b.mdsCalls)
    && ok == (Accepts(b.store, c) && !(if mds then f.mds(|b.mdsCalls|) else f.kafka(|b.kafkaCalls|)))
    && a.store == (if ok then Exec(b.store, c) else b.store)
    && a.trace == b.trace + [a.store]
    && a.applied == (if ok then b.applied + [c] else b.applied)
  }

  lemma StepDispatches(o: Outcome, op: Operation, ap: Approvals, f: Faults)
    requires FailedSet(o.results, o.failedTopics)
    ensures var o' := StepOp(o, op, ap, f);
      if Attempted(o.results, op, ap)
      then (o'.world, o'.results[|o.results|].status == Succeeded) == Dispatch(o.world, op, |o.results|, f)
      else o'.world == o.world
  {
    SettledIff(op, ap);
    if op.action != SchemaSuperseded { SkipsOrphans(o.results, o.failedTopics, op); }
  }

  lemma DispatchAt(ops: seq<Operation>, ap: Approvals, f: Faults, w: World, i: nat)
    requires i < |ops|
    ensures |Run(ops, ap, f, w).results| == |ops|
    ensures var b, a := Run(ops[..i], ap, f, w).world, Run(ops[..i + 1], ap, f, w).world;
      if Attempted(Run(ops, ap, f, w).results[..i], ops[i], ap)
      then (a, Run(ops, ap, f, w).results[i].status == Succeeded) == Dispatch(b, ops[i], i, f)
      else a == b
  {
    StepAt(ops, ap, f, w, i);
    RunPrefix(ops, ap, f, w, i);
    RunFailed(ops[..i], ap, f, w);
    StepDispatches(Run(ops[..i], ap, f, w), ops[i], ap, f);
  }

  /** Whatever is not attempted changes nothing and calls nobody. */
  lemma NotAttempted(ops: seq<Operation>, ap: Approvals, f: Faults, w: World, i: nat)
    requires i < |ops| && |Run(ops, ap, f, w).results| == |ops|
    requires !Attempted(Run(ops, ap, f, w).results[..i], ops[i], ap)
    ensures Run(ops[..i + 1], ap, f, w).world == Run(ops[..i], ap, f, w).world
  {
    DispatchAt(ops, ap, f, w, i);
  }

  lemma AttemptSent(w: World, c: Call, f: Faults)
    ensures Sent(w, Attempt(w, c, f), c, !Fails(w, c, f), f)
  {
  }

  lemma RequestOf(op: Operation) returns (c: Call)
    requires HasPayload(op)
    ensures StoreCalls(op) == Some([c]) && Requests(op, c)
  {
    c := StoreCalls(op).value[0];
  }

  lemma OneCall(w: World, c: Call, f: Faults)
    ensures RunCalls(w, [c], f) == (Attempt(w, c, f), !Fails(w, c, f))
  {
    assert [c][1..] == [];
  }

  lemma DispatchOne(w: World, op: Operation, n: nat, f: Faults) returns (c: Call)
    requires HasPayload(op)
    ensures Requests(op, c) && Sent(w, Dispatch(w, op, n, f).0, c, Dispatch(w, op, n, f).1, f)
  {
    c := RequestOf(op);
    OneCall(w, c, f);
    DispatchesCalls(w, op, n, f);
    AttemptSent(w, c, f);
  }

  lemma DispatchesCalls(w: World, op: Operation, n: nat, f: Faults)
    requires HasPayload(op)
    ensures StoreCalls(op).Some? && Dispatch(w, op, n, f) == RunCalls(w, StoreCalls(op).value, f)
  {
  }

  /** An attempted operation makes the one call it describes, and succeeds
      exactly when the call does. */
  lemma OneRequest(ops: seq<Operation>, ap: Approvals, f: Faults, w: World, i: nat) returns (c: Call)
    requires i < |ops| && |Run(ops, ap, f, w).results| == |ops|
    requires Attempted(Run(ops, ap, f, w).results[..i], ops[i], ap) && HasPayload(ops[i])
    ensures Requests(ops[i], c)
    ensures Sent(Run(ops[..i], ap, f, w).world, Run(ops[..i + 1], ap, f, w).world, c,
                 Run(ops, ap, f, w).results[i].status == Succeeded, f)
  {
    DispatchAt(ops, ap, f, w, i);
    c := DispatchOne(Run(ops[..i], ap, f, w).world, ops[i], i, f);
  }

  lemma UpsertCalls(op: Operation)
    requires Upserts(op) && op.payload.ScramPayload? && op.payload.password.Some?
    ensures StoreCalls(op) == Some(ScramCalls(op.payload)) && !IsExternal(op)
  {
  }

  lemma DispatchUpsert(w: World, op: Operation, n: nat, f: Faults)
    requires Upserts(op) && HasPassword(op, f)
    ensures Dispatch(w, op, n, f) == RunCalls(w, ScramCalls(op.payload), f)
  {
    UpsertCalls(op);
  }

  lemma TwoCalls(w: World, c: Call, d: Call, f: Faults)
    ensures RunCalls(w, [c, d], f) ==
            if Fails(w, c, f) then (Attempt(w, c, f), false)
            else (Attempt(Attempt(w, c, f), d, f), !Fails(Attempt(w, c, f), d, f))
  {
    assert [c, d][1..] == [d];
    OneCall(Attempt(w, c, f), d, f);
  }

  /** A credential operation upserts first; only after a successful upsert does
      it delete the old mechanism, if it names one. */
  lemma UpsertThenDelete(ops: seq<Operation>, ap: Approvals, f: Faults, w: World, i: nat) returns (mid: World, upserted: bool)
    requires i < |ops| && |Run(ops, ap, f, w).results| == |ops|
    requires Attempted(Run(ops, ap, f, w).results[..i], ops[i], ap) && Upserts(ops[i]) && HasPassword(ops[i], f)
    ensures var p, b, a, ok := ops[i].payload, Run(ops[..i], ap, f, w).world, Run(ops[..i + 1], ap, f, w).world,
                               Run(ops, ap, f, w).results[i].status == Succeeded;
      && Sent(b, mid, CallUpsertScram(p.id, p.iterations), upserted, f)
      && (!upserted || p.deleteMechanism == "" ==> a == mid && ok == upserted)
      && (upserted && p.deleteMechanism != "" ==>
            Sent(mid, a, CallDeleteScram(ScramId(p.id.user, p.deleteMechanism)), ok, f))
  {
    DispatchAt(ops, ap, f, w, i);
    var b, p := Run(ops[..i], ap, f, w).world, ops[i].payload;
    var c, d := CallUpsertScram(p.id, p.iterations), CallDeleteScram(ScramId(p.id.user, p.deleteMechanism));
    DispatchUpsert(b, ops[i], i, f);
    mid, upserted := Attempt(b, c, f), !Fails(b, c, f);
    AttemptSent(b, c, f);
    AttemptSent(mid, d, f);
    OneCall(b, c, f);
    TwoCalls(b, c, d, f);
    assert ScramCalls(p) == if p.deleteMechanism == "" then [c] else [c, d];
  }

  lemma NoCalls(op: Operation)
    requires !HasPayload(op) && !Upserts(op)
    ensures IsExternal(op) <==> OtherBackend(op)
    ensures !OtherBackend(op) ==> StoreCalls(op).None?
  {
  }

  lemma NoUpsert(w: World, op: Operation, n: nat, f: Faults)
    requires Upserts(op) && !HasPassword(op, f)
    ensures Dispatch(w, op, n, f) == (w, false)
  {
  }

  lemma DispatchNothing(w: World, op: Operation, n: nat, f: Faults)
    requires !HasPayload(op) && !(Upserts(op) && HasPassword(op, f))
    ensures Dispatch(w, op, n, f) == (w, OtherBackend(op) && !f.external(n, op))
  {
    if Upserts(op) { NoUpsert(w, op, n, f); } else { NoCalls(op); }
  }

  /** Without the payload, the password or a client method it fails and calls
      nobody; the schema and mirror backends decide for themselves. */
  lemma NoRequest(ops: seq<Operation>, ap: Approvals, f: Faults, w: World, i: nat)
    requires i < |ops| && |Run(ops, ap, f, w).results| == |ops|
    requires Attempted(Run(ops, ap, f, w).results[..i], ops[i], ap)
    requires !HasPayload(ops[i]) && !(Upserts(ops[i]) && HasPassword(ops[i], f))
    ensures Run(ops[..i + 1], ap, f, w).world == Run(ops[..i], ap, f, w).world
    ensures Run(ops, ap, f, w).results[i].status == Succeeded <==> OtherBackend(ops[i]) && !f.external(i, ops[i])
  {
    DispatchAt(ops, ap, f, w, i);
    DispatchNothing(Run(ops[..i], ap, f, w).world, ops[i], i, f);
  }

  ghost predicate WholeTrace(s: State, w: World) {
    |w.trace| == 1 + |w.kafkaCalls| + |w.mdsCalls| && w.trace[0] == s && w.trace[|w.trace| - 1] == w.store
  }

  lemma {:induction false} CallsTraced(s: State, w: World, cs: seq<Call>, f: Faults)
    requires WholeTrace(s, w)
    ensures WholeTrace(s, RunCalls(w, cs, f).0)
    decreases |cs|
  {
    if cs != [] && !Fails(w, cs[0], f) { CallsTraced(s, Attempt(w, cs[0], f), cs[1..], f); }
  }

  /** The trace holds the first state, the last, and the one after each call between. */
  lemma {:induction false} TraceIsWhole(ops: seq<Operation>, ap: Approvals, f: Faults, s: State)
    ensures WholeTrace(s, Run(ops, ap, f, Start(s)).world)
  {
    if ops != [] {
      var o, op := Run(ops[..|ops| - 1], ap, f, Start(s)), ops[|ops| - 1];
      TraceIsWhole(ops[..|ops| - 1], ap, f, s);
      if StoreCalls(op).Some? { CallsTraced(s, o.world, StoreCalls(op).value, f); }
    }
  }

  // ---- the order ---------------------------------------------------------

  /** Topics and the rest come before ACLs, ACLs before schemas, schemas before
      role bindings. */
  predicate Rank(a: Action, g: nat) {
    match a
    case CreateAcl | DeleteAcl => g == 1
    case RegisterSchema | RaiseSchemaCompatibility | LowerSchemaCompatibility | DeleteSubject | SchemaSuperseded => g == 2
    case AddRoleBinding | RemoveRoleBinding => g == 3
    case _ => g == 0
  }

  lemma DependencyOrder(ops: seq<Operation>, i: nat, j: nat, g: nat, h: nat)
    requires i < j < |Ordered(ops)| && Rank(Ordered(ops)[i].action, g) && Rank(Ordered(ops)[j].action, h)
    ensures g <= h
  {
    OrderedGrouped(ops);
  }

  function Ranked(g: nat): Operation -> bool { (op: Operation) => Rank(op.action, g) }

  lemma RankIsGroup(g: nat)
    ensures forall op :: Ranked(g)(op) == InGroup(g)(op)
  {
    forall op: Operation ensures Ranked(g)(op) == InGroup(g)(op) { RankOf(op, g); }
  }

  lemma RankOf(op: Operation, g: nat)
    ensures Rank(op.action, g) <==> GroupOf(op) == g
  {
  }

  /** Within a group nothing is lost and the input order stays. */
  lemma GroupKeepsOrder(ops: seq<Operation>, g: nat)
    requires g <= 3
    ensures Filter(Ordered(ops), Ranked(g)) == Filter(ops, Ranked(g))
  {
    OrderedFilter(ops, g);
    RankIsGroup(g);
    FilterCongruent(Ordered(ops), Ranked(g), InGroup(g));
    FilterCongruent(ops, Ranked(g), InGroup(g));
  }
}
