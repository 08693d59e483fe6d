/** Best-effort execution of an operation list: dependency order, gates,
    prerequisite skips, and one outcome for each operation. */
module Executor {
  import opened Basics
  import opened Model
  import opened Operations
  import opened Store

  datatype Approvals = Approvals(delete: bool, destructive: bool, prune: bool)
  const NO_APPROVALS := Approvals(false, false, false)
  const ALL_APPROVALS := Approvals(true, true, true)

  datatype Status =
    Succeeded | Failed | Skipped | Blocked | WasRejected | WasReportOnly | PruneDisabled | Unsupported

  datatype OpResult = OpResult(op: Operation, status: Status)

  // ---- execution order ---------------------------------------------------

  predicate IsAclOp(a: Action) { a == CreateAcl || a == DeleteAcl }
  predicate IsSchemaOp(a: Action) {
    a == RegisterSchema || a == RaiseSchemaCompatibility || a == LowerSchemaCompatibility || a == DeleteSubject
    || a == SchemaSuperseded
  }
  predicate IsRoleBindingOp(a: Action) { a == AddRoleBinding || a == RemoveRoleBinding }
  predicate IsMirrorOp(a: Action) { a == CreateMirrorTopic || a == UpdateMirrorTopicConfig }

  function GroupOf(op: Operation): nat {
    if IsAclOp(op.action) then 1 else if IsSchemaOp(op.action) then 2 else if IsRoleBindingOp(op.action) then 3 else 0
  }

  function InGroup(g: nat): Operation -> bool { op => GroupOf(op) == g }

  /** The stable partition: topics and the rest, ACLs, schemas, role bindings. */
  function Ordered(ops: seq<Operation>): seq<Operation> {
    Filter(ops, InGroup(0)) + Filter(ops, InGroup(1)) + Filter(ops, InGroup(2)) + Filter(ops, InGroup(3))
  }

  method ExecutionOrder(ops: seq<Operation>) returns (ordered: seq<Operation>)
    ensures ordered == Ordered(ops)
  {
    var topics, acls, schemas, roleBindings := [], [], [], [];
    for i := 0 to |ops|
      invariant topics == Filter(ops[..i], InGroup(0)) && acls == Filter(ops[..i], InGroup(1))
      invariant schemas == Filter(ops[..i], InGroup(2)) && roleBindings == Filter(ops[..i], InGroup(3))
    {
      var op := ops[i];
      assert ops[..i + 1][..i] == ops[..i] && ops[..i + 1][i] == op;
      if IsAclOp(op.action) { acls := acls + [op]; }
      else if IsSchemaOp(op.action) { schemas := schemas + [op]; }
      else if IsRoleBindingOp(op.action) { roleBindings := roleBindings + [op]; }
      else { topics := topics + [op]; }
    }
    assert ops[..|ops|] == ops;
    ordered := topics + acls + schemas + roleBindings;
  }

  /** One operation more lands in one group. */
  lemma FilterCount(front: seq<Operation>, last: Operation, g: nat)
    ensures multiset(Filter(front + [last], InGroup(g)))
         == multiset(Filter(front, InGroup(g))) + if GroupOf(last) == g then multiset([last]) else multiset([])
  {
    assert (front + [last])[..|front|] == front;
  }

  lemma OrderedMultiset(ops: seq<Operation>)
    ensures multiset(Ordered(ops)) ==
            multiset(Filter(ops, InGroup(0))) + multiset(Filter(ops, InGroup(1)))
            + multiset(Filter(ops, InGroup(2))) + multiset(Filter(ops, InGroup(3)))
  {
  }

  lemma {:induction false} GroupsPartition(ops: seq<Operation>)
    ensures multiset(ops) ==
            multiset(Filter(ops, InGroup(0))) + multiset(Filter(ops, InGroup(1)))
            + multiset(Filter(ops, InGroup(2))) + multiset(Filter(ops, InGroup(3)))
  {
    if ops != [] {
      var front, last := ops[..|ops| - 1], ops[|ops| - 1];
      assert ops == front + [last];
      GroupsPartition(front);
      FilterCount(front, last, 0);
      FilterCount(front, last, 1);
      FilterCount(front, last, 2);
      FilterCount(front, last, 3);
      OneGroup(last, multiset(Filter(front, InGroup(0))), multiset(Filter(front, InGroup(1))),
               multiset(Filter(front, InGroup(2))), multiset(Filter(front, InGroup(3))));
    }
  }

  lemma OneGroup(last: Operation, a: multiset<Operation>, b: multiset<Operation>, c: multiset<Operation>, d: multiset<Operation>)
    ensures var m, none, g := multiset([last]), multiset([]), GroupOf(last);
      a + b + c + d + m == (a + if g == 0 then m else none) + (b + if g == 1 then m else none)
                           + (c + if g == 2 then m else none) + (d + if g == 3 then m else none)
  {
  }

  lemma OrderedPermutes(ops: seq<Operation>)
    ensures multiset(Ordered(ops)) == multiset(ops)
  {
    OrderedMultiset(ops);
    GroupsPartition(ops);
  }

  lemma {:induction false} FilterAll(xs: seq<Operation>, g: nat, h: nat)
    requires AllIn(xs, h)
    ensures Filter(xs, InGroup(g)) == if g == h then xs else []
  {
    if xs != [] {
      FilterAll(xs[..|xs| - 1], g, h);
      assert xs == xs[..|xs| - 1] + [xs[|xs| - 1]];
    }
  }

  predicate AllIn(xs: seq<Operation>, g: nat) { forall i :: 0 <= i < |xs| ==> GroupOf(xs[i]) == g }

  /** Groups never decrease along the list, and none exceeds `g`. */
  predicate Grouped(xs: seq<Operation>, g: nat) {
    && (forall i :: 0 <= i < |xs| ==> GroupOf(xs[i]) <= g)
    && (forall i, j :: 0 <= i < j < |xs| ==> GroupOf(xs[i]) <= GroupOf(xs[j]))
  }

  lemma GroupedConcat(xs: seq<Operation>, ys: seq<Operation>, g: nat)
    requires g > 0 && Grouped(xs, g - 1) && AllIn(ys, g)
    ensures Grouped(xs + ys, g)
  {
  }

  lemma GroupMembers(ops: seq<Operation>, g: nat)
    ensures AllIn(Filter(ops, InGroup(g)), g)
  {
    var xs := Filter(ops, InGroup(g));
    forall i | 0 <= i < |xs| ensures GroupOf(xs[i]) == g {
      FilterMember(ops, InGroup(g), xs[i]);
    }
  }

  lemma OrderedGrouped(ops: seq<Operation>)
    ensures Grouped(Ordered(ops), 3)
  {
    var a, b, c, d := Filter(ops, InGroup(0)), Filter(ops, InGroup(1)), Filter(ops, InGroup(2)), Filter(ops, InGroup(3));
    GroupMembers(ops, 0); GroupMembers(ops, 1); GroupMembers(ops, 2); GroupMembers(ops, 3);
    GroupedConcat(a, b, 1);
    GroupedConcat(a + b, c, 2);
    GroupedConcat(a + b + c, d, 3);
  }

  lemma OrderedFilter(ops: seq<Operation>, g: nat)
    requires g <= 3
    ensures Filter(Ordered(ops), InGroup(g)) == Filter(ops, InGroup(g))
  {
    var a, b, c, d := Filter(ops, InGroup(0)), Filter(ops, InGroup(1)), Filter(ops, InGroup(2)), Filter(ops, InGroup(3));
    GroupMembers(ops, 0); GroupMembers(ops, 1); GroupMembers(ops, 2); GroupMembers(ops, 3);
    FilterConcat(a + b + c, d, InGroup(g));
    FilterConcat(a + b, c, InGroup(g));
    FilterConcat(a, b, InGroup(g));
    FilterAll(a, g, 0); FilterAll(b, g, 1); FilterAll(c, g, 2); FilterAll(d, g, 3);
    PickOne(g, a, b, c, d);
  }

  lemma PickOne<T>(g: nat, a: seq<T>, b: seq<T>, c: seq<T>, d: seq<T>)
    requires g <= 3
    ensures (if g == 0 then a else []) + (if g == 1 then b else []) + (if g == 2 then c else []) + (if g == 3 then d else [])
            == if g == 0 then a else if g == 1 then b else if g == 2 then c else d
  {
  }

  /** Nothing is lost or duplicated, groups come in dependency order, and each
      group keeps its input order. */
  lemma OrderedIsStable(ops: seq<Operation>, g: nat)
    requires g <= 3
    ensures multiset(Ordered(ops)) == multiset(ops)
    ensures Filter(Ordered(ops), InGroup(g)) == Filter(ops, InGroup(g))
    ensures Grouped(Ordered(ops), 3)
  {
    OrderedPermutes(ops);
    OrderedFilter(ops, g);
    OrderedGrouped(ops);
  }

  // ---- the decision for one operation ------------------------------------

  /** The outcomes decided without looking at the run: mode, findings, gates,
      and actions no client can perform. `None` means the operation may run. */
  function Settled(op: Operation, ap: Approvals): Option<Status> {
    if ReportOnly(op) then Some(WasReportOnly)
    else if op.action == Rejected then Some(WasRejected)
    else if op.action == MirrorTopicProgressing then Some(WasReportOnly)
    else if op.action == MirrorTopicUnhealthy || op.action == MirrorTopicStopping || op.action == MirrorTopicPromoted
            || op.action == UnsupportedReplicationFactorChange then Some(Unsupported)
    else if op.action == StateReadError then Some(Failed)
    else if op.action == SchemaSuperseded then Some(Unsupported)
    else match GateOf(op.action)
      case GateDelete => if ap.delete then None else Some(Blocked)
      case GateDestructive =>
        if !ap.destructive then Some(Blocked)
        else if op.action == UpdateReplicationFactor then Some(Unsupported) else None
      case GatePrune => if ap.prune || op.pruneAllowed then None else Some(PruneDisabled)
      case GateNone => None
  }

  predicate Dispatchable(op: Operation, ap: Approvals) { Settled(op, ap).None? }

  /** The topic whose creation must not have failed earlier in the run. */
  function Prerequisite(op: Operation): Option<string> {
    if op.action == CreateAcl && op.payload.AclPayload? && op.payload.acl.resourceType == "topic"
    then Some(op.payload.acl.resourceName)
    else if IsSchemaOp(op.action) && op.payload.SchemaPayload? && op.payload.topic != "" then Some(op.payload.topic)
    else None
  }

  predicate Skips(op: Operation, failedTopics: set<string>) {
    Prerequisite(op).Some? && Prerequisite(op).value in failedTopics
  }

  // ---- the run, as a function --------------------------------------------

  /** Which calls fail: the n-th Kafka call, the n-th MDS call, password
      references, and the schema and mirror operation at each position. */
  datatype Faults = Faults(kafka: nat -> bool, mds: nat -> bool, resolves: PasswordRef -> bool,
                           external: (nat, Operation) -> bool)

  ghost predicate Faultless(f: Faults) {
    && (forall n :: !f.kafka(n) && !f.mds(n))
    && (forall r :: f.resolves(r))
    && (forall n, op :: !f.external(n, op))
  }

  predicate IsExternal(op: Operation) { IsSchemaOp(op.action) || IsMirrorOp(op.action) }

  function ScramCalls(p: Payload): seq<Call>
    requires p.ScramPayload?
  {
    [CallUpsertScram(p.id, p.iterations)] +
    if p.deleteMechanism != "" then [CallDeleteScram(ScramId(p.id.user, p.deleteMechanism))] else []
  }

  function TopicOf(p: Payload): Topic {
    if p.TopicPayload? then Topic(p.partitions, p.replicationFactor, p.config) else Topic(0, 0, map[])
  }

  /** The client calls of an operation; `None` for a missing payload or an
      action without a client method. */
  function StoreCalls(op: Operation): Option<seq<Call>> {
    match op.action
    case CreateTopic => Some([CallCreateTopic(op.target, TopicOf(op.payload))])
    case UpdateTopicConfig => Some([CallUpdateConfig(op.target, op.field, op.to)])
    case IncreasePartitions => Some([CallCreatePartitions(op.target, TopicOf(op.payload).partitions)])
    case DeleteTopic => Some([CallDeleteTopic(op.target)])
    case CreateAcl => if op.payload.AclPayload? then Some([CallCreateAcl(op.payload.acl)]) else None
    case DeleteAcl => if op.payload.AclPayload? then Some([CallDeleteAcls({op.payload.acl})]) else None
    case SetQuota | UpdateQuota =>
      if op.payload.QuotaPayload? then Some([CallSetQuota(op.payload.entity, op.payload.limits)]) else None
    case RemoveQuota =>
      if op.payload.QuotaPayload? then Some([CallDeleteQuota(op.payload.entity, op.payload.limits.Keys)]) else None
    case CreateScramCredential | UpdateScramCredential | RotateScramCredential =>
      if op.payload.ScramPayload? && op.payload.password.Some? then Some(ScramCalls(op.payload)) else None
    case DeleteScramCredential =>
      if op.payload.ScramPayload? then Some([CallDeleteScram(op.payload.id)]) else None
    case AddRoleBinding => if op.payload.BindingPayload? then Some([CallAddBinding(op.payload.binding)]) else None
    case RemoveRoleBinding => if op.payload.BindingPayload? then Some([CallRemoveBinding(op.payload.binding)]) else None
    case _ => None
  }

  /** The backends during a run: the store, the two call logs, every state the
      store has been in, and the calls that took effect. */
  datatype World = World(store: State, kafkaCalls: seq<Call>, mdsCalls: seq<Call>,
                         trace: seq<State>, applied: seq<Call>)

  function Start(s: State): World { World(s, [], [], [s], []) }

  predicate Fails(w: World, c: Call, f: Faults) {
    (if IsMds(c) then f.mds(|w.mdsCalls|) else f.kafka(|w.kafkaCalls|)) || !Accepts(w.store, c)
  }

  function Attempt(w: World, c: Call, f: Faults): World {
    var store := if Fails(w, c, f) then w.store else Exec(w.store, c);
    World(store,
          if IsMds(c) then w.kafkaCalls else w.kafkaCalls + [c],
          if IsMds(c) then w.mdsCalls + [c] else w.mdsCalls,
          w.trace + [store],
          if Fails(w, c, f) then w.applied else w.applied + [c])
  }

  /** Calls in order, stopping at the first failure. */
  function RunCalls(w: World, cs: seq<Call>, f: Faults): (World, bool)
    decreases |cs|
  {
    if cs == [] then (w, true)
    else if Fails(w, cs[0], f) then (Attempt(w, cs[0], f), false)
    else RunCalls(Attempt(w, cs[0], f), cs[1..], f)
  }

  datatype Outcome = Outcome(world: World, failedTopics: set<string>, results: seq<OpResult>)

  predicate NeedsPassword(a: Action) {
    a == CreateScramCredential || a == UpdateScramCredential || a == RotateScramCredential
  }

  function Dispatch(w: World, op: Operation, n: nat, f: Faults): (World, bool) {
    if IsExternal(op) then (w, !f.external(n, op))
    else if StoreCalls(op).None? || (NeedsPassword(op.action) && !f.resolves(op.payload.password.value)) then (w, false)
    else RunCalls(w, StoreCalls(op).value, f)
  }

  function Blame(op: Operation, ok: bool): set<string> {
    if !ok && (op.action == CreateTopic || op.action == CreateMirrorTopic) then {op.target} else {}
  }

  function StepOp(o: Outcome, op: Operation, ap: Approvals, f: Faults): Outcome {
    if Settled(op, ap).Some? then o.(results := o.results + [OpResult(op, Settled(op, ap).value)])
    else if Skips(op, o.failedTopics) then o.(results := o.results + [OpResult(op, Skipped)])
    else
      var (w, ok) := Dispatch(o.world, op, |o.results|, f);
      Outcome(w, o.failedTopics + Blame(op, ok), o.results + [OpResult(op, if ok then Succeeded else Failed)])
  }

  function Run(ops: seq<Operation>, ap: Approvals, f: Faults, w: World): Outcome {
    if ops == [] then Outcome(w, {}, [])
    else StepOp(Run(ops[..|ops| - 1], ap, f, w), ops[|ops| - 1], ap, f)
  }

  // ---- prerequisite safety -----------------------------------------------

  lemma StepExtends(o: Outcome, op: Operation, ap: Approvals, f: Faults)
    ensures var o' := StepOp(o, op, ap, f);
      && |o'.results| == |o.results| + 1 && o'.results[..|o.results|] == o.results
      && o'.results[|o.results|].op == op
      && o.failedTopics <= o'.failedTopics
  {
  }

  lemma {:induction false} RunLength(ops: seq<Operation>, ap: Approvals, f: Faults, w: World)
    ensures |Run(ops, ap, f, w).results| == |ops|
  {
    if ops != [] {
      RunLength(ops[..|ops| - 1], ap, f, w);
      StepExtends(Run(ops[..|ops| - 1], ap, f, w), ops[|ops| - 1], ap, f);
    }
  }

  /** A shorter run is the beginning of a longer one. */
  lemma {:induction false} RunPrefix(ops: seq<Operation>, ap: Approvals, f: Faults, w: World, n: nat)
    requires n <= |ops|
    ensures |Run(ops, ap, f, w).results| == |ops|
    ensures Run(ops, ap, f, w).results[..n] == Run(ops[..n], ap, f, w).results
    ensures Run(ops[..n], ap, f, w).failedTopics <= Run(ops, ap, f, w).failedTopics
  {
    RunLength(ops, ap, f, w);
    if n == |ops| {
      assert ops[..n] == ops;
    } else {
      var front := ops[..|ops| - 1];
      assert front[..n] == ops[..n];
      RunPrefix(front, ap, f, w, n);
      RunLength(front, ap, f, w);
      StepExtends(Run(front, ap, f, w), ops[|ops| - 1], ap, f);
    }
  }

  /** The i-th result is that of one step from the run of the first i operations. */
  lemma StepAt(ops: seq<Operation>, ap: Approvals, f: Faults, w: World, i: nat)
    requires i < |ops|
    ensures |Run(ops, ap, f, w).results| == |ops| && |Run(ops[..i], ap, f, w).results| == i
    ensures Run(ops[..i + 1], ap, f, w) == StepOp(Run(ops[..i], ap, f, w), ops[i], ap, f)
    ensures |Run(ops[..i + 1], ap, f, w).results| == i + 1
    ensures Run(ops, ap, f, w).results[i] == Run(ops[..i + 1], ap, f, w).results[i]
    ensures Run(ops, ap, f, w).results[i].op == ops[i]
  {
    assert ops[..i + 1][..i] == ops[..i];
    RunPrefix(ops, ap, f, w, i + 1);
    RunLength(ops[..i], ap, f, w);
    RunLength(ops[..i + 1], ap, f, w);
    StepExtends(Run(ops[..i], ap, f, w), ops[i], ap, f);
  }

  predicate CreatesTopic(op: Operation) { op.action == CreateTopic || op.action == CreateMirrorTopic }

  lemma StepBlames(o: Outcome, op: Operation, ap: Approvals, f: Faults)
    requires CreatesTopic(op) && StepOp(o, op, ap, f).results[|o.results|].status == Failed
    ensures op.target in StepOp(o, op, ap, f).failedTopics
  {
  }

  /** A topic creation that failed is on record from the next step on. */
  lemma FailureRecorded(ops: seq<Operation>, ap: Approvals, f: Faults, w: World, j: nat, n: nat)
    requires j < n <= |ops|
    requires |Run(ops, ap, f, w).results| == |ops| && CreatesTopic(ops[j])
    requires Run(ops, ap, f, w).results[j].status == Failed
    ensures ops[j].target in Run(ops[..n], ap, f, w).failedTopics
  {
    StepAt(ops, ap, f, w, j);
    StepBlames(Run(ops[..j], ap, f, w), ops[j], ap, f);
    assert ops[..n][..j + 1] == ops[..j + 1];
    RunPrefix(ops[..n], ap, f, w, j + 1);
  }

  lemma SkipsUnsettled(op: Operation, ap: Approvals, failedTopics: set<string>)
    requires Skips(op, failedTopics)
    ensures Settled(op, ap) != Some(Succeeded) && Settled(op, ap) != Some(Failed)
  {
  }

  lemma StepSkips(o: Outcome, op: Operation, ap: Approvals, f: Faults)
    requires Skips(op, o.failedTopics)
    ensures StepOp(o, op, ap, f).world == o.world
    ensures var st := StepOp(o, op, ap, f).results[|o.results|].status; st != Succeeded && st != Failed
  {
    SkipsUnsettled(op, ap, o.failedTopics);
  }

  lemma DependantLater(creation: Operation, dependant: Operation)
    requires CreatesTopic(creation) && Prerequisite(dependant).Some?
    ensures GroupOf(creation) < GroupOf(dependant)
  {
  }

  /** For any operation list, approvals and faults: an ACL or schema operation
      whose topic failed to be created in the run, wherever either is listed, is
      never dispatched. */
  lemma PrerequisiteSafety(ops: seq<Operation>, ap: Approvals, f: Faults, w: World, i: nat, j: nat)
    requires i < |Ordered(ops)| && j < |Ordered(ops)|
    requires |Run(Ordered(ops), ap, f, w).results| == |Ordered(ops)|
    requires CreatesTopic(Ordered(ops)[j]) && Run(Ordered(ops), ap, f, w).results[j].status == Failed
    requires Prerequisite(Ordered(ops)[i]) == Some(Ordered(ops)[j].target)
    ensures var st := Run(Ordered(ops), ap, f, w).results[i].status; st != Succeeded && st != Failed
    ensures Run(Ordered(ops)[..i + 1], ap, f, w).world == Run(Ordered(ops)[..i], ap, f, w).world
  {
    var all := Ordered(ops);
    OrderedGrouped(ops);
    DependantLater(all[j], all[i]);
    StepAt(all, ap, f, w, i);
    FailureRecorded(all, ap, f, w, j, i);
    StepSkips(Run(all[..i], ap, f, w), all[i], ap, f);
  }

  /** One outcome for each operation, in execution order. */
  lemma OneOutcomeEach(ops: seq<Operation>, ap: Approvals, f: Faults, w: World)
    ensures var results := Run(Ordered(ops), ap, f, w).results;
      && |results| == |ops| == |Ordered(ops)|
      && (forall i :: 0 <= i < |results| ==> results[i].op == Ordered(ops)[i])
  {
    OrderedPermutes(ops);
    assert |multiset(Ordered(ops))| == |multiset(ops)|;
    RunLength(Ordered(ops), ap, f, w);
    var results := Run(Ordered(ops), ap, f, w).results;
    forall i | 0 <= i < |results| ensures results[i].op == Ordered(ops)[i] {
      StepAt(Ordered(ops), ap, f, w, i);
    }
  }

  // ---- Result.OK ---------------------------------------------------------

  /** Neither a finding of a resource that only reports nor a candidate without
      prune consent spoils a run. */
  method ResultOK(results: seq<OpResult>) returns (ok: bool)
    ensures ok <==> forall r :: r in results ==> r.status == Succeeded || r.status == WasReportOnly || r.status == PruneDisabled
  {
    for i := 0 to |results|
      invariant forall j :: 0 <= j < i ==> results[j].status in {Succeeded, WasReportOnly, PruneDisabled}
    {
      var status := results[i].status;
      if status != Succeeded && status != WasReportOnly && status != PruneDisabled { return false; }
    }
    ok := true;
  }

  // ---- the run, on the clients -------------------------------------------

  /** The two clients' contents as one state. */
  ghost function Joined(k: KafkaClient, m: MdsClient): State
    reads k, m
  {
    k.View().(bindings := m.bindings)
  }

  ghost function Now(k: KafkaClient, m: MdsClient, trace: seq<State>, applied: seq<Call>): World
    reads k, m
  {
    World(Joined(k, m), k.calls, m.calls, trace, applied)
  }

  lemma ExecIgnoresBindings(s: State, bs: set<Binding>, c: Call)
    requires !IsMds(c)
    ensures Accepts(s.(bindings := bs), c) <==> Accepts(s, c)
    ensures Accepts(s, c) ==> Exec(s.(bindings := bs), c) == Exec(s, c).(bindings := bs)
  {
  }

  /** The failures of a run that starts after so many calls on each client. */
  function Later(f: Faults, kafka: nat, mds: nat): Faults {
    f.(kafka := (n: nat) => f.kafka(kafka + n), mds := (n: nat) => f.mds(mds + n))
  }

  /** The same world with calls that were made before the run. */
  function Logged(w: World, kafkaCalls: seq<Call>, mdsCalls: seq<Call>): World {
    w.(kafkaCalls := kafkaCalls + w.kafkaCalls, mdsCalls := mdsCalls + w.mdsCalls)
  }

  lemma AttemptLogged(w: World, c: Call, f: Faults, ks: seq<Call>, ms: seq<Call>)
    ensures Fails(Logged(w, ks, ms), c, f) == Fails(w, c, Later(f, |ks|, |ms|))
    ensures Attempt(Logged(w, ks, ms), c, f) == Logged(Attempt(w, c, Later(f, |ks|, |ms|)), ks, ms)
  {
    assert ks + (w.kafkaCalls + [c]) == ks + w.kafkaCalls + [c];
    assert ms + (w.mdsCalls + [c]) == ms + w.mdsCalls + [c];
  }

  lemma {:induction false} CallsLogged(w: World, cs: seq<Call>, f: Faults, ks: seq<Call>, ms: seq<Call>)
    ensures RunCalls(Logged(w, ks, ms), cs, f)
            == var (w', ok) := RunCalls(w, cs, Later(f, |ks|, |ms|)); (Logged(w', ks, ms), ok)
    decreases |cs|
  {
    if cs != [] {
      AttemptLogged(w, cs[0], f, ks, ms);
      CallsLogged(Attempt(w, cs[0], Later(f, |ks|, |ms|)), cs[1..], f, ks, ms);
    }
  }

  lemma DispatchLogged(w: World, op: Operation, n: nat, f: Faults, ks: seq<Call>, ms: seq<Call>)
    ensures Dispatch(Logged(w, ks, ms), op, n, f)
            == var (w', ok) := Dispatch(w, op, n, Later(f, |ks|, |ms|)); (Logged(w', ks, ms), ok)
  {
    if StoreCalls(op).Some? { CallsLogged(w, StoreCalls(op).value, f, ks, ms); }
  }

  lemma StepLogged(o: Outcome, op: Operation, ap: Approvals, f: Faults, ks: seq<Call>, ms: seq<Call>)
    ensures StepOp(o.(world := Logged(o.world, ks, ms)), op, ap, f)
            == var o' := StepOp(o, op, ap, Later(f, |ks|, |ms|)); o'.(world := Logged(o'.world, ks, ms))
  {
    DispatchLogged(o.world, op, |o.results|, f, ks, ms);
  }

  /** Earlier calls only shift the positions at which failures strike. */
  lemma {:induction false} RunLogged(ops: seq<Operation>, ap: Approvals, f: Faults, w: World, ks: seq<Call>, ms: seq<Call>)
    ensures Run(ops, ap, f, Logged(w, ks, ms))
            == var o := Run(ops, ap, Later(f, |ks|, |ms|), w); o.(world := Logged(o.world, ks, ms))
  {
    if ops != [] {
      RunLogged(ops[..|ops| - 1], ap, f, w, ks, ms);
      StepLogged(Run(ops[..|ops| - 1], ap, Later(f, |ks|, |ms|), w), ops[|ops| - 1], ap, f, ks, ms);
    }
  }

  method Send(k: KafkaClient, m: MdsClient, c: Call, ghost f: Faults, ghost w: World) returns (ok: bool, ghost w': World)
    requires k.Valid() && f.kafka == k.fails && f.mds == m.fails
    requires w == Now(k, m, w.trace, w.applied)
    modifies k, m
    ensures k.Valid() && w' == Attempt(w, c, f) && w' == Now(k, m, w'.trace, w'.applied)
    ensures ok == !Fails(w, c, f)
  {
    w' := Attempt(w, c, f);
    if IsMds(c) {
      if c.CallAddBinding? { ok := m.AddRoleBinding(c.binding); } else { ok := m.RemoveRoleBinding(c.binding); }
    } else {
      ExecIgnoresBindings(k.View(), m.bindings, c);
      ok := SendKafka(k, c);
    }
  }

  method SendKafka(k: KafkaClient, c: Call) returns (ok: bool)
    requires k.Valid() && !IsMds(c)
    modifies k
    ensures k.Valid() && k.calls == old(k.calls) + [c]
    ensures ok == (!k.fails(old(|k.calls|)) && Accepts(old(k.View()), c))
    ensures k.View() == if ok then Exec(old(k.View()), c) else old(k.View())
  {
    match c
    case CallCreateTopic(t, topic) => ok := k.CreateTopic(t, topic);
    case CallUpdateConfig(t, key, v) => ok := k.UpdateTopicConfig(t, key, v);
    case CallCreatePartitions(t, n) => ok := k.CreatePartitions(t, n);
    case CallDeleteTopic(t) => ok := k.DeleteTopic(t);
    case CallCreateAcl(a) => ok := k.CreateAcl(a);
    case CallDeleteAcls(drop) => ok := k.DeleteAcls(drop);
    case CallSetQuota(e, limits) => ok := k.SetQuota(e, limits);
    case CallDeleteQuota(e, keys) => ok := k.DeleteQuota(e, keys);
    case CallUpsertScram(id, n) => ok := k.UpsertScram(id, n);
    case CallDeleteScram(id) => ok := k.DeleteScram(id);
  }

  /** Executes `ops` against the clients: the results and the final contents
      are those of `Run` on the dependency order. */
  method Apply(k: KafkaClient, m: MdsClient, resolves: PasswordRef -> bool, external: (nat, Operation) -> bool,
               ops: seq<Operation>, ap: Approvals) returns (results: seq<OpResult>, ghost world: World)
    requires k.Valid()
    modifies k, m
    ensures k.Valid() && world == Now(k, m, world.trace, world.applied)
    ensures var o := Run(Ordered(ops), ap, Faults(k.fails, m.fails, resolves, external),
                         old(Now(k, m, [Joined(k, m)], [])));
            results == o.results && world == o.world
  {
    var ordered := ExecutionOrder(ops);
    results, world := ApplyInOrder(k, m, resolves, external, ordered, ap,
                                   Faults(k.fails, m.fails, resolves, external), Now(k, m, [Joined(k, m)], []));
  }

  method ApplyInOrder(k: KafkaClient, m: MdsClient, resolves: PasswordRef -> bool, external: (nat, Operation) -> bool,
                      ordered: seq<Operation>, ap: Approvals, ghost f: Faults, ghost start: World)
    returns (results: seq<OpResult>, ghost world: World)
    requires k.Valid() && f == Faults(k.fails, m.fails, resolves, external)
    requires start == Now(k, m, start.trace, start.applied)
    modifies k, m
    ensures k.Valid() && world == Now(k, m, world.trace, world.applied)
    ensures results == Run(ordered, ap, f, start).results && world == Run(ordered, ap, f, start).world
  {
    var failedTopics: set<string> := {};
    results, world := [], start;
    for i := 0 to |ordered|
      invariant k.Valid() && world == Now(k, m, world.trace, world.applied)
      invariant Outcome(world, failedTopics, results) == Run(ordered[..i], ap, f, start)
    {
      RunSnoc(ordered, i, ap, f, start);
      var status;
      status, failedTopics, world := ApplyOne(k, m, resolves, external, ordered[i], ap, failedTopics, results, f, world);
      results := results + [OpResult(ordered[i], status)];
    }
    assert ordered[..|ordered|] == ordered;
  }

  lemma RunSnoc(ops: seq<Operation>, i: nat, ap: Approvals, f: Faults, w: World)
    requires i < |ops|
    ensures Run(ops[..i + 1], ap, f, w) == StepOp(Run(ops[..i], ap, f, w), ops[i], ap, f)
  {
    assert ops[..i + 1][..i] == ops[..i];
  }

  method ApplyOne(k: KafkaClient, m: MdsClient, resolves: PasswordRef -> bool, external: (nat, Operation) -> bool,
                  op: Operation, ap: Approvals, failedTopics: set<string>, results: seq<OpResult>,
                  ghost f: Faults, ghost w: World)
    returns (status: Status, failedTopics': set<string>, ghost w': World)
    requires k.Valid() && f == Faults(k.fails, m.fails, resolves, external)
    requires w == Now(k, m, w.trace, w.applied)
    modifies k, m
    ensures k.Valid() && w' == Now(k, m, w'.trace, w'.applied)
    ensures Outcome(w', failedTopics', results + [OpResult(op, status)])
            == StepOp(Outcome(w, failedTopics, results), op, ap, f)
  {
    failedTopics', w' := failedTopics, w;
    var settled := Settled(op, ap);
    if settled.Some? { return settled.value, failedTopics, w; }
    if Skips(op, failedTopics) { return Skipped, failedTopics, w; }
    var ok;
    ok, w' := DispatchOp(k, m, op, |results|, resolves, external, f, w);
    if !ok && CreatesTopic(op) { failedTopics' := failedTopics + {op.target}; }
    status := if ok then Succeeded else Failed;
  }

  method DispatchOp(k: KafkaClient, m: MdsClient, op: Operation, n: nat, resolves: PasswordRef -> bool,
                    external: (nat, Operation) -> bool, ghost f: Faults, ghost w: World)
    returns (ok: bool, ghost w': World)
    requires k.Valid() && f == Faults(k.fails, m.fails, resolves, external)
    requires w == Now(k, m, w.trace, w.applied)
    modifies k, m
    ensures k.Valid() && w' == Now(k, m, w'.trace, w'.applied)
    ensures (w', ok) == Dispatch(w, op, n, f)
  {
    w' := w;
    if IsExternal(op) { return !external(n, op), w; }
    var calls := StoreCalls(op);
    if calls.None? { return false, w; }
    if NeedsPassword(op.action) && !resolves(op.payload.password.value) { return false, w; }
    ok := true;
    var i := 0;
    while i < |calls.value|
      invariant 0 <= i <= |calls.value| && k.Valid() && ok
      invariant w' == Now(k, m, w'.trace, w'.applied)
      invariant RunCalls(w', calls.value[i..], f) == RunCalls(w, calls.value, f)
    {
      assert calls.value[i..][1..] == calls.value[i + 1..];
      ok, w' := Send(k, m, calls.value[i], f, w');
      if !ok { return; }
      i := i + 1;
    }
  }
}
