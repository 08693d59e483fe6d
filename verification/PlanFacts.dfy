/** The plan, operation by operation: exactly what is planned for a desired and a
    live state, field by field, and in which order. */
module PlanFacts {
  import opened Basics
  import opened Model
  import opened Operations
  import opened Store
  import opened Diff
  import opened Intent
  import Mirror

  // ---- what each declared or live object calls for -------------------------

  /** A missing topic is created; a live one is corrected where a field that is
      not ignored differs. */
  predicate TopicWants(dt: DesiredTopic, live: map<string, Topic>, op: Operation) {
    if dt.name !in live then
      op == Operation(CreateTopic, dt.source, dt.name, "", "", "", dt.mode, false,
                      TopicPayload(dt.partitions, dt.replicationFactor, dt.config))
    else
      var lt := live[dt.name];
      || ("partitions" !in dt.ignoreFields && dt.partitions > lt.partitions
          && op == Operation(IncreasePartitions, dt.source, dt.name, "", Itoa(lt.partitions), Itoa(dt.partitions), dt.mode, false,
                             TopicPayload(dt.partitions, 0, map[])))
      || ("partitions" !in dt.ignoreFields && dt.partitions < lt.partitions
          && op == Operation(Rejected, dt.source, dt.name, "", Itoa(lt.partitions), Itoa(dt.partitions), dt.mode, false, NoPayload))
      || (op.field in dt.config && "config." + op.field !in dt.ignoreFields
          && !(op.field in lt.config && lt.config[op.field] == dt.config[op.field])
          && op == Operation(UpdateTopicConfig, dt.source, dt.name, op.field,
                             if op.field in lt.config then lt.config[op.field] else "", dt.config[op.field],
                             dt.mode, false, NoPayload))
      || ("replicationFactor" !in dt.ignoreFields && dt.replicationFactor != 0 && lt.replicationFactor != 0
          && dt.replicationFactor != lt.replicationFactor
          && op == Operation(UpdateReplicationFactor, dt.source, dt.name, "", Itoa(lt.replicationFactor),
                             Itoa(dt.replicationFactor), dt.mode, false, NoPayload))
  }

  function OwnerOr(source: Source, kind: string): Source { if source.kind == "" then Source(kind, "", "") else source }

  /** A declared grant that is not live. */
  predicate AclWants(it: Item<Acl>, live: seq<Acl>, op: Operation) {
    it.id !in live
    && op == Operation(CreateAcl, OwnerOr(it.source, "ACL"), AclTarget(it.id), "", "", "", it.mode, false, AclPayload(it.id))
  }

  /** The scope entry that covers a live grant nobody keeps; the aggregate
      decides when there is one. */
  predicate AclDrops(d: Desired, a: Acl, op: Operation) {
    var scope := if d.pruneAggregate.Some? then d.pruneAggregate.value.scope else d.scope;
    var keep := if d.pruneAggregate.Some? then d.pruneAggregate.value.desired else d.acls;
    var key := AclScopeKey(a.principal, a.resourceType, a.resourceName, a.patternType);
    && (forall it :: it in keep ==> it.id != a) && key in scope
    && op == Operation(DeleteAcl, OwnerOr(scope[key].source, "ACL"), AclTarget(a), "", "", "", scope[key].mode, scope[key].prune,
                       AclPayload(a))
  }

  predicate BindingWants(it: Item<Binding>, live: seq<Binding>, op: Operation) {
    it.id !in live
    && op == Operation(AddRoleBinding, OwnerOr(it.source, "KafkaRoleBinding"), BindingTarget(it.id), "", "", "", it.mode, false,
                       BindingPayload(it.id))
  }

  predicate BindingDrops(d: Desired, b: Binding, op: Operation) {
    var keep := if d.bindingKeep.Some? then d.bindingKeep.value else d.bindings;
    var key := BindingScopeKey(b.principal, b.role, b.scope);
    && (forall it :: it in keep ==> it.id != b) && key in d.bindingScope
    && op == Operation(RemoveRoleBinding, OwnerOr(d.bindingScope[key].source, "KafkaRoleBinding"), BindingTarget(b), "", "", "",
                       d.bindingScope[key].mode, d.bindingScope[key].prune, BindingPayload(b))
  }

  /** The full limits for a new or a differing entity; the undeclared live keys
      to remove. */
  predicate QuotaWants(dq: DesiredQuota, live: map<Entity, map<string, real>>, op: Operation) {
    && op.source == Source("KafkaQuota", "", "") && op.target == Join(EntityParts(dq.entity), ',')
    && op.field == op.from == op.to == "" && op.mode == dq.mode && !op.pruneAllowed
    && op.payload.QuotaPayload? && op.payload.entity == dq.entity
    && if dq.entity !in live then op.action == SetQuota && op.payload.limits == dq.limits
       else
         var ls := live[dq.entity];
         || (op.action == UpdateQuota && op.payload.limits == dq.limits
             && exists k :: k in dq.limits && !(k in ls && ls[k] == dq.limits[k]))
         || (op.action == RemoveQuota && op.payload.limits != map[]
             && op.payload.limits == map k | k in ls && k !in dq.limits :: 0.0)
  }

  /** The least mechanism the user has, in string order. */
  ghost predicate FirstMechanism(scram: map<ScramId, int>, user: string, m: string) {
    ScramId(user, m) in scram && forall id :: id in scram && id.user == user ==> !StrLess(id.mechanism, m)
  }

  /** A new user, a new iteration count, a new mechanism that replaces the least
      live one, or a rotation of what is already right. */
  ghost predicate UserWants(du: DesiredUser, scram: map<ScramId, int>, rotate: bool, op: Operation) {
    && op.source == Source("KafkaUser", "", "") && op.target == du.id.user + " (" + du.id.mechanism + ")"
    && op.mode == Unattributed && !op.pruneAllowed
    && op.payload.ScramPayload? && op.payload.id == du.id && op.payload.iterations == du.iterations
    && op.payload.password == du.password
    && if du.id in scram then
         && op.payload.deleteMechanism == ""
         && if du.iterations == 0 || du.iterations == scram[du.id]
            then rotate && op.action == RotateScramCredential && op.field == op.from == op.to == ""
            else && op.action == UpdateScramCredential && op.field == "iterations"
                 && op.from == Itoa(scram[du.id]) && op.to == Itoa(du.iterations)
       else if exists m :: ScramId(du.id.user, m) in scram then
         && op.action == UpdateScramCredential && op.field == "mechanism" && op.to == du.id.mechanism
         && op.from == op.payload.deleteMechanism && FirstMechanism(scram, du.id.user, op.from)
       else op.action == CreateScramCredential && op.field == op.from == op.to == op.payload.deleteMechanism == ""
  }

  // ---- numerals ----------------------------------------------------------

  /** The number that decimal digits stand for. */
  function Decimal(s: string): int {
    if s == [] then 0 else 10 * Decimal(s[..|s| - 1]) + (s[|s| - 1] as int - '0' as int)
  }

  lemma DigitValue(d: nat)
    requires d < 10
    ensures Digit(d) as int - '0' as int == d
  {
  }

  /** A count is shown by its decimal numeral, without leading zeros. */
  lemma {:induction false} NumeralValue(n: nat)
    ensures Decimal(Itoa(n)) == n && Itoa(n) != "" && (n > 0 ==> Itoa(n)[0] != '0')
  {
    DigitValue(n % 10);
    if n < 10 {
      assert Itoa(n)[..0] == [];
    } else {
      NumeralValue(n / 10);
      assert Itoa(n)[..|Itoa(n)| - 1] == Itoa(n / 10);
    }
  }

  // ---- step by step ------------------------------------------------------

  lemma ConfigStepIs(dt: DesiredTopic, lt: Topic, op: Operation)
    ensures op in FlatMap(SortedKeys(dt.config.Keys), ConfigStep(dt, lt)) <==>
      ConfigDrifts(dt, lt, op.field) && op == ConfigOp(dt, lt, op.field)
  {
    var keys, f := SortedKeys(dt.config.Keys), ConfigStep(dt, lt);
    SortedKeysMembers(dt.config.Keys);
    FlatMapMember(keys, f, op);
    if ConfigDrifts(dt, lt, op.field) && op == ConfigOp(dt, lt, op.field) { assert op.field in keys && op in f(op.field); }
    if k :| k in keys && op in f(k) { assert op.field == k; }
  }

  lemma TopicStepIs(dt: DesiredTopic, live: map<string, Topic>, op: Operation)
    ensures op in TopicStep(live)(dt) <==> TopicWants(dt, live, op)
  {
    if dt.name in live { ConfigStepIs(dt, live[dt.name], op); }
  }

  lemma QuotaStepIs(dq: DesiredQuota, live: map<Entity, map<string, real>>, op: Operation)
    ensures op in QuotaStep(live)(dq) <==> QuotaWants(dq, live, op)
  {
    if dq.entity in live {
      var ls := live[dq.entity];
      assert NeedsUpdate(dq.limits, ls) <==> exists k :: k in dq.limits && !(k in ls && ls[k] == dq.limits[k]) by {
        assert forall k :: k in dq.limits ==> (LimitDiffers(dq.limits, ls, k) <==> !(k in ls && ls[k] == dq.limits[k]));
      }
    }
  }

  lemma LeastMechanism(scram: map<ScramId, int>, user: string, m: string)
    requires exists x :: ScramId(user, x) in scram
    ensures Mechanisms(scram, user) != {}
    ensures m == Least(Mechanisms(scram, user)) <==> FirstMechanism(scram, user, m)
  {
    var ms := Mechanisms(scram, user);
    var x :| ScramId(user, x) in scram;
    assert x in ms;
    assert forall y :: y in ms <==> ScramId(user, y) in scram;
    LeastIs(ms);
    var least := Least(ms);
    forall id | id in scram && id.user == user ensures !StrLess(id.mechanism, least) {
      assert id == ScramId(user, id.mechanism) && AtMost(least, id.mechanism);
      StrLessTotal(least, id.mechanism);
    }
    if FirstMechanism(scram, user, m) {
      assert ScramId(user, least) in scram && AtMost(least, m);
      assert !StrLess(least, m);
    }
  }

  lemma LeastIs(s: set<string>)
    requires s != {}
    ensures IsLeast(Least(s), s)
  {
  }

  lemma UserStepIs(du: DesiredUser, scram: map<ScramId, int>, rotate: bool, op: Operation)
    ensures op in UserStep(scram, rotate)(du) <==> UserWants(du, scram, rotate, op)
  {
    var ms := Mechanisms(scram, du.id.user);
    if exists m :: ScramId(du.id.user, m) in scram {
      LeastMechanism(scram, du.id.user, op.from);
    } else {
      assert ms == {};
    }
  }

  lemma AclAddIs(scope: AclScopes, it: Item<Acl>)
    ensures AddOp(AclKind(scope), it) ==
            Operation(CreateAcl, OwnerOr(it.source, "ACL"), AclTarget(it.id), "", "", "", it.mode, false, AclPayload(it.id))
  {
  }

  lemma AclPruneIs(scope: AclScopes, a: Acl, info: ScopeInfo)
    ensures PruneOp(AclKind(scope), a, info) ==
            Operation(DeleteAcl, OwnerOr(info.source, "ACL"), AclTarget(a), "", "", "", info.mode, info.prune, AclPayload(a))
  {
  }

  lemma BindingAddIs(scope: BindingScopes, it: Item<Binding>)
    ensures AddOp(BindingKind(scope), it) ==
            Operation(AddRoleBinding, OwnerOr(it.source, "KafkaRoleBinding"), BindingTarget(it.id), "", "", "", it.mode, false,
                      BindingPayload(it.id))
  {
  }

  lemma BindingPruneIs(scope: BindingScopes, b: Binding, info: ScopeInfo)
    ensures PruneOp(BindingKind(scope), b, info) ==
            Operation(RemoveRoleBinding, OwnerOr(info.source, "KafkaRoleBinding"), BindingTarget(b), "", "", "",
                      info.mode, info.prune, BindingPayload(b))
  {
  }

  // ---- list by list ------------------------------------------------------

  ghost predicate TopicCalled(d: Desired, live: map<string, Topic>, op: Operation) {
    exists dt :: dt in d.topics && TopicWants(dt, live, op)
  }
  ghost predicate AclCalled(d: Desired, live: seq<Acl>, op: Operation) { exists it :: it in d.acls && AclWants(it, live, op) }
  ghost predicate AclDropped(d: Desired, live: seq<Acl>, op: Operation) { exists a :: a in live && AclDrops(d, a, op) }
  ghost predicate QuotaCalled(d: Desired, live: map<Entity, map<string, real>>, op: Operation) {
    exists dq :: dq in d.quotas && QuotaWants(dq, live, op)
  }
  ghost predicate BindingCalled(d: Desired, live: seq<Binding>, op: Operation) {
    exists it :: it in d.bindings && BindingWants(it, live, op)
  }
  ghost predicate BindingDropped(d: Desired, live: seq<Binding>, op: Operation) {
    exists b :: b in live && BindingDrops(d, b, op)
  }
  ghost predicate UserCalled(d: Desired, scram: map<ScramId, int>, op: Operation) {
    exists du :: du in d.users && UserWants(du, scram, d.rotatePasswords, op)
  }
  ghost predicate MirrorCalled(d: Desired, snapshot: Option<Mirror.Snapshot>, op: Operation) {
    exists dm :: dm in d.mirrors && op in Mirror.MirrorOps(dm, snapshot)
  }
  ghost predicate GuardFinding(guards: map<string, Operation>, op: Operation) { exists t :: t in guards && op == guards[t] }

  lemma TopicOpsAre(d: Desired, live: map<string, Topic>, op: Operation)
    ensures op in TopicOps(d.topics, live) <==> TopicCalled(d, live, op)
  {
    SortedFlatMapMember(d.topics, TopicKey, TopicStep(live), op);
    forall dt | dt in d.topics ensures op in TopicStep(live)(dt) <==> TopicWants(dt, live, op) { TopicStepIs(dt, live, op); }
  }

  lemma QuotaOpsAre(d: Desired, live: map<Entity, map<string, real>>, op: Operation)
    ensures op in QuotaOps(d.quotas, live) <==> QuotaCalled(d, live, op)
  {
    SortedFlatMapMember(d.quotas, QuotaKey, QuotaStep(live), op);
    forall dq | dq in d.quotas ensures op in QuotaStep(live)(dq) <==> QuotaWants(dq, live, op) { QuotaStepIs(dq, live, op); }
  }

  lemma UserOpsAre(d: Desired, scram: map<ScramId, int>, op: Operation)
    ensures op in UserOps(d.users, scram, d.rotatePasswords) <==> UserCalled(d, scram, op)
  {
    SortedFlatMapMember(d.users, UserKey, UserStep(scram, d.rotatePasswords), op);
    forall du | du in d.users
      ensures op in UserStep(scram, d.rotatePasswords)(du) <==> UserWants(du, scram, d.rotatePasswords, op) {
      UserStepIs(du, scram, d.rotatePasswords, op);
    }
  }

  lemma AclOpsAre(d: Desired, live: seq<Acl>, op: Operation)
    ensures op in AclOps(d, live) <==> AclCalled(d, live, op) || AclDropped(d, live, op)
  {
    var k := AclKind(PruneScope(d));
    AddPruneMember(k, d.acls, PruneDesired(d), live, op);
    forall it | it in d.acls ensures AclWants(it, live, op) <==> it.id !in live && op == AddOp(k, it) {
      AclAddIs(PruneScope(d), it);
    }
    forall a | a in live
      ensures AclDrops(d, a, op) <==> k.cover(a).Some? && a !in Ids(PruneDesired(d)) && op == PruneOp(k, a, k.cover(a).value) {
      if AclScope(a) in PruneScope(d) { AclPruneIs(PruneScope(d), a, PruneScope(d)[AclScope(a)]); }
    }
  }

  lemma BindingOpsAre(d: Desired, live: seq<Binding>, op: Operation)
    ensures op in BindingOps(d, live) <==> BindingCalled(d, live, op) || BindingDropped(d, live, op)
  {
    var k := BindingKind(d.bindingScope);
    AddPruneMember(k, d.bindings, BindingKeepSet(d), live, op);
    forall it | it in d.bindings ensures BindingWants(it, live, op) <==> it.id !in live && op == AddOp(k, it) {
      BindingAddIs(d.bindingScope, it);
    }
    forall b | b in live
      ensures BindingDrops(d, b, op) <==> k.cover(b).Some? && b !in Ids(BindingKeepSet(d)) && op == PruneOp(k, b, k.cover(b).value) {
      if BindingScope(b) in d.bindingScope { BindingPruneIs(d.bindingScope, b, d.bindingScope[BindingScope(b)]); }
    }
  }

  lemma MirrorOpsAre(d: Desired, snapshot: Option<Mirror.Snapshot>, op: Operation)
    ensures op in MirrorPlan(d.mirrors, snapshot) <==> MirrorCalled(d, snapshot, op)
  {
    SortedFlatMapMember(d.mirrors, MirrorKey, MirrorStep(snapshot), op);
    forall dm | dm in d.mirrors ensures op in MirrorStep(snapshot)(dm) <==> op in Mirror.MirrorOps(dm, snapshot) {}
  }

  // ---- the whole plan ----------------------------------------------------

  /** An operation on a topic that the guards replace. */
  predicate OnGuarded(guards: map<string, Operation>, op: Operation) {
    op.target in guards
    && op.action in {CreateTopic, UpdateTopicConfig, IncreasePartitions, UpdateReplicationFactor, Rejected}
  }

  /** A new literal grant on such a topic. */
  predicate GrantsGuarded(guards: map<string, Operation>, op: Operation) {
    op.action == CreateAcl && op.payload.AclPayload? && op.payload.acl.resourceType == "topic"
    && op.payload.acl.patternType == "literal" && op.payload.acl.resourceName in guards
  }

  lemma FindingsAre(guards: map<string, Operation>, op: Operation)
    ensures op in FlatMap(SortedKeys(guards.Keys), GuardStep(guards)) <==> GuardFinding(guards, op)
  {
    var keys, f := SortedKeys(guards.Keys), GuardStep(guards);
    SortedKeysMembers(guards.Keys);
    FlatMapMember(keys, f, op);
    if t :| t in guards && op == guards[t] { assert t in keys && op in f(t); }
    if t :| t in keys && op in f(t) { assert t in guards && op == guards[t]; }
  }

  lemma KeptTopicOps(guards: map<string, Operation>, ops: seq<Operation>, op: Operation)
    ensures op in Filter(ops, KeepTopicOp(guards)) <==> op in ops && !OnGuarded(guards, op)
  {
    FilterMember(ops, KeepTopicOp(guards), op);
  }

  lemma KeptAclOps(guards: map<string, Operation>, ops: seq<Operation>, op: Operation)
    ensures op in Filter(ops, KeepAclOp(guards)) <==> op in ops && !GrantsGuarded(guards, op)
  {
    FilterMember(ops, KeepAclOp(guards), op);
  }

  lemma GuardedAre(d: Desired, live: Live, op: Operation)
    ensures op in GuardedOps(d, live) <==>
      || (op in TopicOps(d.topics, TopicMap(live.topics)) && !OnGuarded(Guards(d, live), op))
      || (op in AclOps(d, live.acls) && !GrantsGuarded(Guards(d, live), op))
      || GuardFinding(Guards(d, live), op)
  {
    var guards := Guards(d, live);
    KeptTopicOps(guards, TopicOps(d.topics, TopicMap(live.topics)), op);
    KeptAclOps(guards, AclOps(d, live.acls), op);
    FindingsAre(guards, op);
  }

  lemma DropsNoGrant(d: Desired, live: seq<Acl>, op: Operation, guards: map<string, Operation>)
    ensures AclDropped(d, live, op) ==> !GrantsGuarded(guards, op)
  {
  }

  /** The plan holds exactly the operations that the declared and the live
      objects call for, with or without a mirror snapshot. */
  lemma PlannedIff(d: Desired, live: Live, op: Operation)
    ensures op in Compute(d, live) <==>
      || (TopicCalled(d, TopicMap(live.topics), op) && !OnGuarded(Guards(d, live), op))
      || (AclCalled(d, live.acls, op) && !GrantsGuarded(Guards(d, live), op))
      || AclDropped(d, live.acls, op)
      || GuardFinding(Guards(d, live), op)
      || QuotaCalled(d, QuotaMap(live.quotas), op)
      || BindingCalled(d, live.bindings, op) || BindingDropped(d, live.bindings, op)
      || UserCalled(d, ScramMap(live.credentials), op)
      || MirrorCalled(d, live.mirrors, op)
  {
    ComputeMembers(d, live, op);
    GuardedAre(d, live, op);
    TopicOpsAre(d, TopicMap(live.topics), op);
    AclOpsAre(d, live.acls, op);
    DropsNoGrant(d, live.acls, op, Guards(d, live));
    QuotaOpsAre(d, QuotaMap(live.quotas), op);
    BindingOpsAre(d, live.bindings, op);
    UserOpsAre(d, ScramMap(live.credentials), op);
    MirrorOpsAre(d, live.mirrors, op);
  }
}
