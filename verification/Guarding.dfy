/** Mirror topics: a topic the snapshot does not show to be an ordinary one is
    reported and otherwise left alone, whatever the plan says about it. */
module Guarding {
  import opened Basics
  import opened Model
  import opened Operations
  import opened Store
  import opened Executor
  import opened Diff
  import opened Intent
  import opened Soundness
  import opened Convergence
  import Mirror
  import MirrorReplies
  import OrderIndependence

  /** The cell has held its original value at every moment. */
  ghost predicate Constant(s: State, c: Cell, w: World) {
    At(w.store, c) == At(s, c) && forall i :: 0 <= i < |w.trace| ==> At(w.trace[i], c) == At(s, c)
  }

  lemma {:induction false} CallsKeep(s: State, c: Cell, w: World, cs: seq<Call>, f: Faults)
    requires Constant(s, c, w) && forall x :: x in cs ==> !Touches(x, c)
    ensures Constant(s, c, RunCalls(w, cs, f).0)
    decreases |cs|
  {
    if cs != [] {
      assert cs[0] in cs;
      if !Fails(w, cs[0], f) {
        ExecAt(w.store, cs[0], c);
        CallsKeep(s, c, Attempt(w, cs[0], f), cs[1..], f);
      }
    }
  }

  lemma StepKeeps(s: State, c: Cell, out: Outcome, op: Operation, ap: Approvals, f: Faults)
    requires Constant(s, c, out.world) && forall x :: MakesCall(op, ap, x) ==> !Touches(x, c)
    ensures Constant(s, c, StepOp(out, op, ap, f).world)
  {
    if Dispatchable(op, ap) && StoreCalls(op).Some? { CallsKeep(s, c, out.world, StoreCalls(op).value, f); }
    StepWorld(out, op, ap, f);
  }

  lemma {:induction false} RunKeeps(s: State, c: Cell, ops: seq<Operation>, ap: Approvals, f: Faults)
    requires forall op, x :: op in ops && MakesCall(op, ap, x) ==> !Touches(x, c)
    ensures Constant(s, c, Run(ops, ap, f, Start(s)).world)
  {
    if ops != [] {
      var front, last := ops[..|ops| - 1], ops[|ops| - 1];
      assert last in ops && forall op :: op in front ==> op in ops;
      RunKeeps(s, c, front, ap, f);
      StepKeeps(s, c, Run(front, ap, f, Start(s)), last, ap, f);
    }
  }

  // ---- the filtered plan -------------------------------------------------

  lemma {:induction false} GuardActions(topics: seq<DesiredTopic>, snapshot: Mirror.Snapshot)
    ensures forall t :: t in GuardMap(topics, snapshot) ==>
      var a := GuardMap(topics, snapshot)[t].action; a == Rejected || a == StateReadError
  {
    if topics != [] { GuardActions(topics[..|topics| - 1], snapshot); }
  }

  /** What survives the filter: findings, and operations that the guards let pass. */
  lemma GuardedOpShape(d: Desired, live: Live, op: Operation)
    requires op in GuardedOps(d, live) && Guards(d, live) != map[]
    ensures var guards := Guards(d, live);
      || op.action == Rejected || op.action == StateReadError
      || (op in TopicOps(d.topics, TopicMap(live.topics)) && KeepTopicOp(guards)(op))
      || (op in AclOps(d, live.acls) && KeepAclOp(guards)(op))
  {
    var guards := Guards(d, live);
    FilterMember(TopicOps(d.topics, TopicMap(live.topics)), KeepTopicOp(guards), op);
    FilterMember(AclOps(d, live.acls), KeepAclOp(guards), op);
    if op in FlatMap(SortedKeys(guards.Keys), GuardStep(guards)) { FindingAction(d, live, op); }
  }

  lemma FindingAction(d: Desired, live: Live, op: Operation)
    requires Guards(d, live) != map[]
    requires op in FlatMap(SortedKeys(Guards(d, live).Keys), GuardStep(Guards(d, live)))
    ensures op.action == Rejected || op.action == StateReadError
  {
    var guards := Guards(d, live);
    FlatMapMember(SortedKeys(guards.Keys), GuardStep(guards), op);
    GuardActions(d.topics, live.mirrors.value);
  }

  /** A call on quotas, credentials or role bindings. */
  predicate ClientCall(x: Call) {
    x.CallSetQuota? || x.CallDeleteQuota? || IsMds(x) || x.CallUpsertScram? || x.CallDeleteScram?
  }

  predicate ClientCallsOnly(op: Operation) {
    StoreCalls(op).Some? ==> forall x :: x in StoreCalls(op).value ==> ClientCall(x)
  }

  lemma BindingOpCalls(d: Desired, live: Live, op: Operation)
    requires op in BindingOps(d, live.bindings)
    ensures ClientCallsOnly(op)
  {
    var o := BindingOrigin(d, live, op);
    BindingOriginRuns(d, StateOf(live), op, o, ALL_APPROVALS);
  }

  lemma StorelessMakesNoCall(op: Operation)
    requires Storeless(op)
    ensures ClientCallsOnly(op)
  {
  }

  lemma OtherOpCalls(d: Desired, live: Live, op: Operation)
    requires op in Compute(d, live) && op !in GuardedOps(d, live)
    ensures ClientCallsOnly(op)
  {
    ComputeMembers(d, live, op);
    if op in QuotaOps(d.quotas, QuotaMap(live.quotas)) {
      var o := QuotaOrigin(d, live, op);
      if StoreCalls(op).Some? {
        forall x | x in StoreCalls(op).value ensures ClientCall(x) { QuotaOriginCall(o.dq, QuotaMap(live.quotas), op, x); }
      }
    } else if op in BindingOps(d, live.bindings) {
      BindingOpCalls(d, live, op);
    } else if op in UserOps(d.users, ScramMap(live.credentials), d.rotatePasswords) {
      var o := UserOrigin(d, live, op);
      if StoreCalls(op).Some? {
        forall x | x in StoreCalls(op).value ensures ClientCall(x) { UserOriginCall(o.du, ScramMap(live.credentials), d.rotatePasswords, op, x); }
      }
    } else {
      MirrorPlanStoreless(d, live, op);
      StorelessMakesNoCall(op);
    }
  }

  predicate TopicCellOf(c: Cell, t: string) { (c.PartitionsCell? || c.ReplicasCell? || c.ConfigCell?) && c.topic == t }

  /** A new literal grant on the topic. */
  predicate GrantOn(s: State, c: Cell, t: string) {
    c.AclCell? && c.acl !in s.acls && c.acl.resourceType == "topic" && c.acl.patternType == "literal" && c.acl.resourceName == t
  }

  ghost predicate Spared(d: Desired, live: Live, c: Cell) {
    forall t :: t in Guards(d, live) ==> !TopicCellOf(c, t) && !GrantOn(StateOf(live), c, t)
  }

  lemma TopicCallTouches(x: Call, t: string, c: Cell)
    requires TopicCall(x, t) && Touches(x, c)
    ensures TopicCellOf(c, t)
  {
  }

  lemma TopicOpMutates(dt: DesiredTopic, live: map<string, Topic>, op: Operation)
    requires op in TopicStep(live)(dt) && StoreCalls(op).Some?
    ensures MutatesTopic(op.action) && op.target == dt.name
  {
    if dt.name in live {
      if op in FlatMap(SortedKeys(dt.config.Keys), ConfigStep(dt, live[dt.name])) {
        ConfigOpShape(dt, live[dt.name], op);
      } else {
        StepWithoutConfig(dt, live[dt.name], op);
      }
    }
  }

  lemma StepWithoutConfig(dt: DesiredTopic, lt: Topic, op: Operation)
    requires op in PartitionOps(dt, lt) || op in ReplicationOps(dt, lt)
    ensures MutatesTopic(op.action) && op.target == dt.name
  {
  }

  lemma TopicOpKept(d: Desired, live: Live, op: Operation, x: Call, c: Cell)
    requires op in TopicOps(d.topics, TopicMap(live.topics)) && KeepTopicOp(Guards(d, live))(op)
    requires StoreCalls(op).Some? && x in StoreCalls(op).value && Touches(x, c)
    ensures Spared(d, live, c)
  {
    var o := TopicOrigin(d, live, op);
    TopicOriginCall(o.dt, TopicMap(live.topics), op, x);
    TopicOpMutates(o.dt, TopicMap(live.topics), op);
    TopicCallTouches(x, o.dt.name, c);
  }

  lemma AclOpKept(d: Desired, live: Live, op: Operation, x: Call, c: Cell)
    requires op in AclOps(d, live.acls) && KeepAclOp(Guards(d, live))(op)
    requires StoreCalls(op).Some? && x in StoreCalls(op).value && Touches(x, c)
    ensures Spared(d, live, c)
  {
    var o := AclOrigin(d, live, op);
    AclCallIs(d, StateOf(live), op, o, x, c);
    if o.FromAclAdd? { AclAddSpares(d, live, op, o.acl, c); } else { LiveAclSpared(d, live, o.live, c); }
  }

  lemma AclCallIs(d: Desired, s: State, op: Operation, o: Origin, x: Call, c: Cell)
    requires Derived(d, s, op, o) && (o.FromAclAdd? || o.FromAclPrune?)
    requires StoreCalls(op).Some? && x in StoreCalls(op).value && Touches(x, c)
    ensures c == AclCell(if o.FromAclAdd? then o.acl.id else o.live)
  {
    AclOriginRuns(d, s, op, o, ALL_APPROVALS);
  }

  lemma AclAddSpares(d: Desired, live: Live, op: Operation, it: Item<Acl>, c: Cell)
    requires op == AddOp(AclKind(PruneScope(d)), it) && KeepAclOp(Guards(d, live))(op) && c == AclCell(it.id)
    ensures Spared(d, live, c)
  {
    AclAddShape(PruneScope(d), it);
  }

  lemma LiveAclSpared(d: Desired, live: Live, a: Acl, c: Cell)
    requires a in StateOf(live).acls && c == AclCell(a)
    ensures Spared(d, live, c)
  {
  }

  lemma FindingMakesNoCall(op: Operation)
    requires op.action == Rejected || op.action == StateReadError
    ensures StoreCalls(op).None?
  {
  }

  lemma GuardedOpSpares(d: Desired, live: Live, op: Operation, x: Call, c: Cell)
    requires op in GuardedOps(d, live) && Guards(d, live) != map[]
    requires StoreCalls(op).Some? && x in StoreCalls(op).value && Touches(x, c)
    ensures Spared(d, live, c)
  {
    GuardedOpShape(d, live, op);
    if op in TopicOps(d.topics, TopicMap(live.topics)) && KeepTopicOp(Guards(d, live))(op) {
      TopicOpKept(d, live, op, x, c);
    } else if op in AclOps(d, live.acls) && KeepAclOp(Guards(d, live))(op) {
      AclOpKept(d, live, op, x, c);
    } else {
      FindingMakesNoCall(op);
    }
  }

  lemma ClientCallSpares(x: Call, c: Cell)
    requires ClientCall(x) && (c.PartitionsCell? || c.ReplicasCell? || c.ConfigCell? || c.AclCell?)
    ensures !Touches(x, c)
  {
  }

  lemma PlanSpares(d: Desired, ap: Approvals, live: Live, t: string, op: Operation, x: Call, c: Cell)
    requires t in Guards(d, live) && (TopicCellOf(c, t) || GrantOn(StateOf(live), c, t))
    requires op in Compute(d, live) && MakesCall(op, ap, x)
    ensures !Touches(x, c)
  {
    if op in GuardedOps(d, live) {
      if Touches(x, c) { GuardedOpSpares(d, live, op, x, c); }
    } else {
      OtherOpCalls(d, live, op);
      ClientCallSpares(x, c);
    }
  }

  /** In any run, with any approvals and faults, at every moment: a guarded
      topic is exactly as it began, and no literal grant on it has been added. */
  lemma GuardedTopicUntouched(d: Desired, ap: Approvals, live: Live, f: Faults, t: string, st: State, c: Cell)
    requires t in Guards(d, live) && (TopicCellOf(c, t) || GrantOn(StateOf(live), c, t))
    requires st in RunPlan(d, ap, live, f).world.trace
    ensures At(st, c) == At(StateOf(live), c)
  {
    forall op, x | op in Execution(d, live) && MakesCall(op, ap, x) ensures !Touches(x, c) {
      ExecutionMembers(d, live, op);
      PlanSpares(d, ap, live, t, op, x, c);
    }
    RunKeeps(StateOf(live), c, Execution(d, live), ap, f);
  }

  lemma GuardIs(dt: DesiredTopic, s: Mirror.Snapshot)
    ensures GuardOf(dt, s).Some? <==>
      !s.read || s.err || (dt.name in s.mirrors && !(dt.name in s.topics && s.mirrors[dt.name].status == "STOPPED"))
    ensures GuardOf(dt, s).Some? ==> var op := GuardOf(dt, s).value;
      && op.target == dt.name && op.source == dt.source && op.mode == dt.mode
      && op.action == if s.read && !s.err && dt.name in s.topics && MirrorReplies.Recognised(s.mirrors[dt.name].status)
                      then Rejected else StateReadError
  {
    MirrorReplies.Classes(s, dt.name);
  }

  /** A declared topic is guarded exactly when the snapshot is incomplete or
      lists a mirror of its name, unless that is a stopped one that the topic
      listing shows too. The finding is planned: a rejection where both listings
      show a mirror of a known status, a failed read otherwise. */
  lemma GuardedIff(d: Desired, live: Live, dt: DesiredTopic)
    requires live.mirrors.Some? && dt in d.topics && Unique(d.topics, TopicKey)
    ensures var s, t := live.mirrors.value, dt.name;
      t in Guards(d, live) <==>
        !(s.read && !s.err) || (t in s.mirrors && !(t in s.topics && s.mirrors[t].status == "STOPPED"))
    ensures var s, t := live.mirrors.value, dt.name;
      t in Guards(d, live) ==>
        && Guards(d, live)[t] in Compute(d, live)
        && Guards(d, live)[t].target == t && Guards(d, live)[t].source == dt.source && Guards(d, live)[t].mode == dt.mode
        && Guards(d, live)[t].action == if s.read && !s.err && t in s.topics && MirrorReplies.Recognised(s.mirrors[t].status)
                                        then Rejected else StateReadError
  {
    OrderIndependence.GuardMapLookup(d.topics, live.mirrors.value, dt.name);
    LookupUnique(d.topics, TopicKey, dt);
    GuardIs(dt, live.mirrors.value);
    if dt.name in Guards(d, live) { FindingPlanned(d, live, dt.name); }
  }

  lemma FindingListed(guards: map<string, Operation>, t: string)
    requires t in guards
    ensures guards[t] in FlatMap(SortedKeys(guards.Keys), GuardStep(guards))
  {
    SortedKeysMembers(guards.Keys);
    FlatMapMember(SortedKeys(guards.Keys), GuardStep(guards), guards[t]);
    assert t in SortedKeys(guards.Keys) && guards[t] in GuardStep(guards)(t);
  }

  lemma FindingPlanned(d: Desired, live: Live, t: string)
    requires t in Guards(d, live)
    ensures Guards(d, live)[t] in Compute(d, live)
  {
    FindingListed(Guards(d, live), t);
    ComputeMembers(d, live, Guards(d, live)[t]);
  }
}
