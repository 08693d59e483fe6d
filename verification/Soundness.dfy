/** The plan against the goal: every dispatched call writes goal values, every
    cell off its goal is written, and no planned operation is idle. */
module Soundness {
  import opened Basics
  import opened Model
  import opened Operations
  import opened Store
  import opened Executor
  import opened Diff
  import opened Intent

  predicate MakesCall(op: Operation, ap: Approvals, call: Call) {
    Dispatchable(op, ap) && StoreCalls(op).Some? && call in StoreCalls(op).value
  }

  // ---- shapes of planned operations --------------------------------------

  predicate IsIncrease(dt: DesiredTopic, lt: Topic, op: Operation) {
    && op.action == IncreasePartitions && op.target == dt.name && op.mode == dt.mode
    && op.payload == TopicPayload(dt.partitions, 0, map[])
    && !Ignores(dt, "partitions") && dt.partitions > lt.partitions
  }

  predicate IsConfigUpdate(dt: DesiredTopic, lt: Topic, op: Operation) {
    && op.action == UpdateTopicConfig && op.target == dt.name && op.mode == dt.mode
    && ConfigDrifts(dt, lt, op.field) && op.to == dt.config[op.field]
  }

  lemma ConfigOpShape(dt: DesiredTopic, lt: Topic, op: Operation)
    requires op in FlatMap(SortedKeys(dt.config.Keys), ConfigStep(dt, lt))
    ensures IsConfigUpdate(dt, lt, op)
  {
    FlatMapMember(SortedKeys(dt.config.Keys), ConfigStep(dt, lt), op);
  }

  lemma TopicOpShape(dt: DesiredTopic, live: map<string, Topic>, op: Operation)
    requires op in TopicStep(live)(dt)
    ensures dt.name !in live ==> op == CreateTopicOp(dt)
    ensures dt.name in live ==>
      || op.action == Rejected || op.action == UpdateReplicationFactor
      || IsIncrease(dt, live[dt.name], op) || IsConfigUpdate(dt, live[dt.name], op)
  {
    if dt.name in live && op in FlatMap(SortedKeys(dt.config.Keys), ConfigStep(dt, live[dt.name])) {
      ConfigOpShape(dt, live[dt.name], op);
    }
  }

  predicate IsUserOp(du: DesiredUser, op: Operation, old_: string) {
    op.mode == Unattributed && op.payload == ScramPayload(du.id, du.iterations, old_, du.password)
  }

  lemma UserOpShape(du: DesiredUser, scram: map<ScramId, int>, rotate: bool, op: Operation)
    requires op in UserStep(scram, rotate)(du)
    ensures du.id in scram ==> IsUserOp(du, op, "")
    ensures du.id in scram ==>
      (if IterationsMatch(du, scram[du.id]) then rotate && op.action == RotateScramCredential else op.action == UpdateScramCredential)
    ensures du.id !in scram && Mechanisms(scram, du.id.user) != {} ==>
      op.action == UpdateScramCredential && IsUserOp(du, op, Least(Mechanisms(scram, du.id.user)))
    ensures du.id !in scram && Mechanisms(scram, du.id.user) == {} ==> op.action == CreateScramCredential && IsUserOp(du, op, "")
  {
  }

  lemma EmptyMap<K, V>(m: map<K, V>)
    ensures m.Keys == {} ==> m == map[]
  {
  }

  predicate IsQuotaOp(dq: DesiredQuota, op: Operation, a: Action, limits: map<string, real>) {
    op.action == a && op.mode == dq.mode && op.payload == QuotaPayload(dq.entity, limits)
  }

  lemma QuotaOpShape(dq: DesiredQuota, live: map<Entity, map<string, real>>, op: Operation)
    requires op in QuotaStep(live)(dq)
    ensures dq.entity !in live ==> IsQuotaOp(dq, op, SetQuota, dq.limits)
    ensures dq.entity in live ==>
      || (IsQuotaOp(dq, op, UpdateQuota, dq.limits) && NeedsUpdate(dq.limits, live[dq.entity]))
      || (IsQuotaOp(dq, op, RemoveQuota, Extra(dq.limits, live[dq.entity])) && Extra(dq.limits, live[dq.entity]) != map[])
  {
  }

  // ---- which calls an origin makes ---------------------------------------

  predicate TopicCall(x: Call, t: string) {
    (x.CallCreateTopic? || x.CallUpdateConfig? || x.CallCreatePartitions?) && x.name == t
  }

  predicate QuotaCallOn(x: Call, e: Entity) { (x.CallSetQuota? || x.CallDeleteQuota?) && x.entity == e }

  predicate UserCallOf(x: Call, du: DesiredUser) {
    x == CallUpsertScram(du.id, du.iterations) || (x.CallDeleteScram? && x.id.user == du.id.user)
  }

  /** The only kind of call that operations of an origin make. */
  predicate OriginCall(o: Origin, x: Call) {
    match o
    case FromTopic(dt) => TopicCall(x, dt.name)
    case FromAclAdd(it) => x == CallCreateAcl(it.id)
    case FromAclPrune(a) => x == CallDeleteAcls({a})
    case FromBindingAdd(it) => x == CallAddBinding(it.id)
    case FromBindingPrune(b) => x == CallRemoveBinding(b)
    case FromQuota(dq) => QuotaCallOn(x, dq.entity)
    case FromUser(du) => UserCallOf(x, du)
    case FromFinding => false
  }

  lemma TopicOriginCall(dt: DesiredTopic, live: map<string, Topic>, op: Operation, x: Call)
    requires op in TopicStep(live)(dt) && StoreCalls(op).Some? && x in StoreCalls(op).value
    ensures TopicCall(x, dt.name)
  {
    TopicOpShape(dt, live, op);
  }

  lemma QuotaOriginCall(dq: DesiredQuota, live: map<Entity, map<string, real>>, op: Operation, x: Call)
    requires op in QuotaStep(live)(dq) && StoreCalls(op).Some? && x in StoreCalls(op).value
    ensures QuotaCallOn(x, dq.entity)
  {
    QuotaOpShape(dq, live, op);
    QuotaCalls(op);
  }

  lemma UserOriginCall(du: DesiredUser, scram: map<ScramId, int>, rotate: bool, op: Operation, x: Call)
    requires op in UserStep(scram, rotate)(du) && StoreCalls(op).Some? && x in StoreCalls(op).value
    ensures UserCallOf(x, du)
  {
    UserOpShape(du, scram, rotate, op);
  }

  /** The addition or removal of a grant, field by field. */
  predicate IsAdd(op: Operation, a: Action, p: Payload, m: Mode) { op.action == a && op.payload == p && op.mode == m }

  predicate IsPrune(op: Operation, a: Action, p: Payload, info: ScopeInfo) {
    op.action == a && op.payload == p && op.mode == info.mode && op.pruneAllowed == info.prune
  }

  lemma AclAddShape(scope: AclScopes, it: Item<Acl>)
    ensures IsAdd(AddOp(AclKind(scope), it), CreateAcl, AclPayload(it.id), it.mode)
  {
  }

  lemma AclPruneShape(scope: AclScopes, a: Acl, info: ScopeInfo)
    ensures IsPrune(PruneOp(AclKind(scope), a, info), DeleteAcl, AclPayload(a), info)
  {
  }

  lemma BindingAddShape(scope: BindingScopes, it: Item<Binding>)
    ensures IsAdd(AddOp(BindingKind(scope), it), AddRoleBinding, BindingPayload(it.id), it.mode)
  {
  }

  lemma BindingPruneShape(scope: BindingScopes, b: Binding, info: ScopeInfo)
    ensures IsPrune(PruneOp(BindingKind(scope), b, info), RemoveRoleBinding, BindingPayload(b), info)
  {
  }

  /** A grant is added if its owner acts, and removed with consent. */
  lemma AclAddRuns(op: Operation, a: Acl, m: Mode, ap: Approvals)
    requires IsAdd(op, CreateAcl, AclPayload(a), m)
    ensures StoreCalls(op) == Some([CallCreateAcl(a)]) && (Dispatchable(op, ap) <==> Acts(m))
  {
  }

  lemma AclPruneRuns(op: Operation, a: Acl, info: ScopeInfo, ap: Approvals)
    requires IsPrune(op, DeleteAcl, AclPayload(a), info)
    ensures StoreCalls(op) == Some([CallDeleteAcls({a})]) && (Dispatchable(op, ap) <==> Consents(info, ap))
  {
  }

  lemma BindingAddRuns(op: Operation, b: Binding, m: Mode, ap: Approvals)
    requires IsAdd(op, AddRoleBinding, BindingPayload(b), m)
    ensures StoreCalls(op) == Some([CallAddBinding(b)]) && (Dispatchable(op, ap) <==> Acts(m))
  {
  }

  lemma BindingPruneRuns(op: Operation, b: Binding, info: ScopeInfo, ap: Approvals)
    requires IsPrune(op, RemoveRoleBinding, BindingPayload(b), info)
    ensures StoreCalls(op) == Some([CallRemoveBinding(b)]) && (Dispatchable(op, ap) <==> Consents(info, ap))
  {
  }

  predicate IsGrant(o: Origin) { o.FromAclAdd? || o.FromAclPrune? || o.FromBindingAdd? || o.FromBindingPrune? }

  /** The one call of a grant's operation, and when it is dispatched. */
  predicate GrantRuns(d: Desired, op: Operation, o: Origin, ap: Approvals) {
    match o
    case FromAclAdd(it) => StoreCalls(op) == Some([CallCreateAcl(it.id)]) && (Dispatchable(op, ap) <==> Acts(it.mode))
    case FromAclPrune(a) =>
      && AclScope(a) in PruneScope(d) && StoreCalls(op) == Some([CallDeleteAcls({a})])
      && (Dispatchable(op, ap) <==> Consents(PruneScope(d)[AclScope(a)], ap))
    case FromBindingAdd(it) => StoreCalls(op) == Some([CallAddBinding(it.id)]) && (Dispatchable(op, ap) <==> Acts(it.mode))
    case FromBindingPrune(b) =>
      && BindingScope(b) in d.bindingScope && StoreCalls(op) == Some([CallRemoveBinding(b)])
      && (Dispatchable(op, ap) <==> Consents(d.bindingScope[BindingScope(b)], ap))
    case _ => true
  }

  lemma AclOriginRuns(d: Desired, s: State, op: Operation, o: Origin, ap: Approvals)
    requires Derived(d, s, op, o) && (o.FromAclAdd? || o.FromAclPrune?)
    ensures GrantRuns(d, op, o, ap) && (op.action == CreateAcl || op.action == DeleteAcl)
  {
    match o
    case FromAclAdd(it) =>
      AclAddShape(PruneScope(d), it);
      AclAddRuns(op, it.id, it.mode, ap);
    case FromAclPrune(a) =>
      AclPruneShape(PruneScope(d), a, PruneScope(d)[AclScope(a)]);
      AclPruneRuns(op, a, PruneScope(d)[AclScope(a)], ap);
  }

  lemma BindingOriginRuns(d: Desired, s: State, op: Operation, o: Origin, ap: Approvals)
    requires Derived(d, s, op, o) && (o.FromBindingAdd? || o.FromBindingPrune?)
    ensures GrantRuns(d, op, o, ap) && (op.action == AddRoleBinding || op.action == RemoveRoleBinding)
  {
    match o
    case FromBindingAdd(it) =>
      BindingAddShape(d.bindingScope, it);
      BindingAddRuns(op, it.id, it.mode, ap);
    case FromBindingPrune(b) =>
      BindingPruneShape(d.bindingScope, b, d.bindingScope[BindingScope(b)]);
      BindingPruneRuns(op, b, d.bindingScope[BindingScope(b)], ap);
  }

  lemma GrantOriginRuns(d: Desired, s: State, op: Operation, o: Origin, ap: Approvals)
    requires Derived(d, s, op, o) && IsGrant(o)
    ensures GrantRuns(d, op, o, ap) && op.action in {CreateAcl, DeleteAcl, AddRoleBinding, RemoveRoleBinding}
  {
    if o.FromAclAdd? || o.FromAclPrune? { AclOriginRuns(d, s, op, o, ap); } else { BindingOriginRuns(d, s, op, o, ap); }
  }

  lemma GrantOriginCall(d: Desired, s: State, op: Operation, o: Origin)
    requires Derived(d, s, op, o) && IsGrant(o)
    ensures StoreCalls(op).Some? && |StoreCalls(op).value| == 1 && OriginCall(o, StoreCalls(op).value[0])
  {
    GrantOriginRuns(d, s, op, o, ALL_APPROVALS);
  }

  lemma OriginCalls(d: Desired, s: State, op: Operation, o: Origin, x: Call)
    requires Derived(d, s, op, o) && StoreCalls(op).Some? && x in StoreCalls(op).value
    ensures OriginCall(o, x)
  {
    match o
    case FromTopic(dt) => TopicOriginCall(dt, s.topics, op, x);
    case FromQuota(dq) => QuotaOriginCall(dq, s.quotas, op, x);
    case FromUser(du) => UserOriginCall(du, s.scram, d.rotatePasswords, op, x);
    case FromFinding =>
    case _ => GrantCallIs(d, s, op, o, x);
  }

  lemma GrantCallIs(d: Desired, s: State, op: Operation, o: Origin, x: Call)
    requires Derived(d, s, op, o) && IsGrant(o) && StoreCalls(op).Some? && x in StoreCalls(op).value
    ensures OriginCall(o, x)
  {
    GrantOriginCall(d, s, op, o);
  }

  // ---- soundness ---------------------------------------------------------

  lemma CreateSound(d: Desired, ap: Approvals, s: State, dt: DesiredTopic, call: Call, c: Cell)
    requires WellFormed(d) && dt in d.topics && dt.name !in s.topics && Acts(dt.mode)
    requires call == CallCreateTopic(dt.name, Topic(dt.partitions, dt.replicationFactor, dt.config)) && Touches(call, c)
    ensures Effect(call, c) == Goal(d, ap, s, c)
  {
    LookupUnique(d.topics, TopicKey, dt);
  }

  lemma UpdateSound(d: Desired, ap: Approvals, s: State, dt: DesiredTopic, op: Operation, call: Call, c: Cell)
    requires WellFormed(d) && dt in d.topics && dt.name in s.topics
    requires IsIncrease(dt, s.topics[dt.name], op) || IsConfigUpdate(dt, s.topics[dt.name], op)
    requires MakesCall(op, ap, call) && Touches(call, c)
    ensures Effect(call, c) == Goal(d, ap, s, c)
  {
    LookupUnique(d.topics, TopicKey, dt);
  }

  lemma TopicSound(d: Desired, ap: Approvals, s: State, dt: DesiredTopic, op: Operation, call: Call, c: Cell)
    requires WellFormed(d) && dt in d.topics && op in TopicStep(s.topics)(dt)
    requires MakesCall(op, ap, call) && Touches(call, c)
    ensures Effect(call, c) == Goal(d, ap, s, c)
  {
    TopicOpShape(dt, s.topics, op);
    if dt.name !in s.topics { CreateSound(d, ap, s, dt, call, c); } else { UpdateSound(d, ap, s, dt, op, call, c); }
  }

  /** When a grant is off its goal. */
  lemma AclOffGoal(d: Desired, ap: Approvals, s: State, a: Acl)
    ensures Goal(d, ap, s, AclCell(a)) == Held(if a in s.acls then !PrunesAcl(d, ap, a) else AddsAcl(d, a))
    ensures At(s, AclCell(a)) == Held(a in s.acls)
  {
  }

  lemma BindingOffGoal(d: Desired, ap: Approvals, s: State, b: Binding)
    ensures Goal(d, ap, s, BindingCell(b)) == Held(if b in s.bindings then !PrunesBinding(d, ap, b) else AddsBinding(d, b))
    ensures At(s, BindingCell(b)) == Held(b in s.bindings)
  {
  }

  lemma AclSound(d: Desired, ap: Approvals, s: State, op: Operation, o: Origin, call: Call, c: Cell)
    requires WellFormed(d) && (o.FromAclAdd? || o.FromAclPrune?) && Derived(d, s, op, o)
    requires MakesCall(op, ap, call) && Touches(call, c)
    ensures Effect(call, c) == Goal(d, ap, s, c)
  {
    AclOriginRuns(d, s, op, o, ap);
    AclOffGoal(d, ap, s, c.acl);
    if o.FromAclAdd? { LookupUnique(d.acls, IdOf, o.acl); }
  }

  lemma BindingSound(d: Desired, ap: Approvals, s: State, op: Operation, o: Origin, call: Call, c: Cell)
    requires WellFormed(d) && (o.FromBindingAdd? || o.FromBindingPrune?) && Derived(d, s, op, o)
    requires MakesCall(op, ap, call) && Touches(call, c)
    ensures Effect(call, c) == Goal(d, ap, s, c)
  {
    BindingOriginRuns(d, s, op, o, ap);
    BindingOffGoal(d, ap, s, c.binding);
    if o.FromBindingAdd? { LookupUnique(d.bindings, IdOf, o.binding); }
  }

  lemma SetQuotaSound(d: Desired, ap: Approvals, s: State, dq: DesiredQuota, c: Cell)
    requires WellFormed(d) && dq in d.quotas && Acts(dq.mode)
    requires Touches(CallSetQuota(dq.entity, dq.limits), c)
    ensures Effect(CallSetQuota(dq.entity, dq.limits), c) == Goal(d, ap, s, c)
  {
    LookupUnique(d.quotas, QuotaId, dq);
  }

  lemma RemoveQuotaSound(d: Desired, ap: Approvals, s: State, dq: DesiredQuota, keys: set<string>, c: Cell)
    requires WellFormed(d) && dq in d.quotas && Acts(dq.mode) && ap.destructive && keys !! dq.limits.Keys
    requires Touches(CallDeleteQuota(dq.entity, keys), c)
    ensures Effect(CallDeleteQuota(dq.entity, keys), c) == Goal(d, ap, s, c)
  {
    LookupUnique(d.quotas, QuotaId, dq);
  }

  /** The one call of a quota operation, and what its dispatch presupposes. */
  lemma QuotaDispatch(dq: DesiredQuota, op: Operation, a: Action, limits: map<string, real>, ap: Approvals, call: Call)
    requires IsQuotaOp(dq, op, a, limits) && a in {SetQuota, UpdateQuota, RemoveQuota} && MakesCall(op, ap, call)
    ensures Acts(dq.mode) && (a == RemoveQuota ==> ap.destructive)
    ensures call == if a == RemoveQuota then CallDeleteQuota(dq.entity, limits.Keys) else CallSetQuota(dq.entity, limits)
  {
    QuotaCalls(op);
  }

  lemma QuotaSound(d: Desired, ap: Approvals, s: State, dq: DesiredQuota, op: Operation, call: Call, c: Cell)
    requires WellFormed(d) && dq in d.quotas && op in QuotaStep(s.quotas)(dq)
    requires MakesCall(op, ap, call) && Touches(call, c)
    ensures Effect(call, c) == Goal(d, ap, s, c)
  {
    QuotaOpShape(dq, s.quotas, op);
    if op.action == RemoveQuota {
      var extra := Extra(dq.limits, s.quotas[dq.entity]);
      QuotaDispatch(dq, op, RemoveQuota, extra, ap, call);
      RemoveQuotaSound(d, ap, s, dq, extra.Keys, c);
    } else {
      QuotaDispatch(dq, op, op.action, dq.limits, ap, call);
      SetQuotaSound(d, ap, s, dq, c);
    }
  }

  /** An operation on a present credential has a reason. */
  lemma UserUpserts(du: DesiredUser, scram: map<ScramId, int>, rotate: bool, op: Operation)
    requires op in UserStep(scram, rotate)(du)
    ensures du.id in scram ==> !IterationsMatch(du, scram[du.id]) || rotate
  {
  }

  /** The only credential deleted is the one a mechanism change replaces. */
  lemma UserDeletes(du: DesiredUser, scram: map<ScramId, int>, rotate: bool, op: Operation, call: Call)
    requires op in UserStep(scram, rotate)(du) && StoreCalls(op).Some? && call in StoreCalls(op).value && call.CallDeleteScram?
    ensures du.id !in scram && Mechanisms(scram, du.id.user) != {} && call.id.mechanism != ""
    ensures call.id == ScramId(du.id.user, Least(Mechanisms(scram, du.id.user)))
  {
    UserOpShape(du, scram, rotate, op);
  }

  lemma UpsertSound(d: Desired, ap: Approvals, s: State, du: DesiredUser)
    requires WellFormed(d) && du in d.users
    requires du.id in s.scram ==> !IterationsMatch(du, s.scram[du.id]) || d.rotatePasswords
    ensures Goal(d, ap, s, ScramCell(du.id)) == Some(Count(EffectiveIterations(du.iterations)))
  {
    LookupUnique(d.users, UserKey, du);
  }

  lemma DeleteSound(d: Desired, ap: Approvals, s: State, du: DesiredUser, id: ScramId)
    requires WellFormed(d) && du in d.users && du.id !in s.scram && Mechanisms(s.scram, du.id.user) != {}
    requires id == ScramId(du.id.user, Least(Mechanisms(s.scram, du.id.user))) && id.mechanism != ""
    ensures Replaced(d, s, id) && Goal(d, ap, s, ScramCell(id)) == None
  {
    LookupUnique(d.users, UserKey, du);
    OldMechanism(s.scram, du.id.user);
    ReplacedAbsent(d, ap, s, id);
  }

  lemma UserSound(d: Desired, ap: Approvals, s: State, du: DesiredUser, op: Operation, call: Call, c: Cell)
    requires WellFormed(d) && du in d.users && op in UserStep(s.scram, d.rotatePasswords)(du)
    requires MakesCall(op, ap, call) && Touches(call, c)
    ensures Effect(call, c) == Goal(d, ap, s, c)
  {
    UserOriginCall(du, s.scram, d.rotatePasswords, op, call);
    if call.CallDeleteScram? {
      UserDeletes(du, s.scram, d.rotatePasswords, op, call);
      DeleteSound(d, ap, s, du, call.id);
    } else {
      UserUpserts(du, s.scram, d.rotatePasswords, op);
      UpsertSound(d, ap, s, du);
    }
  }

  lemma ReplacedAbsent(d: Desired, ap: Approvals, s: State, id: ScramId)
    requires Replaced(d, s, id)
    ensures Goal(d, ap, s, ScramCell(id)) == None
  {
  }

  /** The mechanism chosen for replacement is one the user has. */
  lemma OldMechanism(scram: map<ScramId, int>, user: string)
    requires Mechanisms(scram, user) != {}
    ensures ScramId(user, Least(Mechanisms(scram, user))) in scram
  {
    var m := Least(Mechanisms(scram, user));
    assert m in Mechanisms(scram, user);
  }

  /** Every call of a planned, dispatchable operation writes goal values only. */
  lemma Sound(d: Desired, ap: Approvals, s: State, op: Operation, o: Origin, call: Call, c: Cell)
    requires WellFormed(d) && Derived(d, s, op, o)
    requires MakesCall(op, ap, call) && Touches(call, c)
    ensures Effect(call, c) == Goal(d, ap, s, c)
  {
    match o
    case FromTopic(dt) => TopicSound(d, ap, s, dt, op, call, c);
    case FromAclAdd(_) | FromAclPrune(_) => AclSound(d, ap, s, op, o, call, c);
    case FromBindingAdd(_) | FromBindingPrune(_) => BindingSound(d, ap, s, op, o, call, c);
    case FromQuota(dq) => QuotaSound(d, ap, s, dq, op, call, c);
    case FromUser(du) => UserSound(d, ap, s, du, op, call, c);
    case FromFinding => assert false;
  }

  // ---- completeness ------------------------------------------------------

  datatype Writer = Writer(op: Operation, origin: Origin, call: Call)

  predicate Writes(d: Desired, ap: Approvals, s: State, c: Cell, w: Writer) {
    && Derived(d, s, w.op, w.origin) && !w.origin.FromFinding?
    && MakesCall(w.op, ap, w.call) && Touches(w.call, c)
  }

  lemma TopicComplete(d: Desired, ap: Approvals, s: State, c: Cell) returns (w: Writer)
    requires WellFormed(d) && (c.PartitionsCell? || c.ReplicasCell? || c.ConfigCell?)
    requires Goal(d, ap, s, c) != At(s, c)
    ensures Writes(d, ap, s, c, w)
  {
    var dt := FindTopic(d, c.topic).value;
    if c.topic !in s.topics {
      var op := CreateTopicOp(dt);
      assert op in TopicStep(s.topics)(dt);
      w := Writer(op, FromTopic(dt), StoreCalls(op).value[0]);
    } else {
      w := PresentTopicComplete(d, ap, s, dt, c);
    }
  }

  lemma PresentTopicComplete(d: Desired, ap: Approvals, s: State, dt: DesiredTopic, c: Cell) returns (w: Writer)
    requires (c.PartitionsCell? || c.ReplicasCell? || c.ConfigCell?) && c.topic in s.topics
    requires FindTopic(d, c.topic) == Some(dt) && Goal(d, ap, s, c) != At(s, c)
    ensures Writes(d, ap, s, c, w)
  {
    var lt := s.topics[c.topic];
    if c.PartitionsCell? {
      w := PartitionsComplete(d, ap, s, dt);
    } else {
      w := ConfigComplete(d, ap, s, dt, c.key);
    }
  }

  lemma PartitionsComplete(d: Desired, ap: Approvals, s: State, dt: DesiredTopic) returns (w: Writer)
    requires dt in d.topics && dt.name in s.topics && Acts(dt.mode) && ap.destructive
    requires !Ignores(dt, "partitions") && dt.partitions > s.topics[dt.name].partitions
    ensures Writes(d, ap, s, PartitionsCell(dt.name), w)
  {
    var op := PartitionOps(dt, s.topics[dt.name])[0];
    IncreasePlanned(s, dt, op);
    w := Writer(op, FromTopic(dt), CallCreatePartitions(dt.name, dt.partitions));
  }

  lemma ConfigComplete(d: Desired, ap: Approvals, s: State, dt: DesiredTopic, key: string) returns (w: Writer)
    requires dt in d.topics && dt.name in s.topics && Acts(dt.mode) && ConfigDrifts(dt, s.topics[dt.name], key)
    ensures Writes(d, ap, s, ConfigCell(dt.name, key), w)
  {
    ConfigOpPlanned(s, dt, key);
    ConfigOpRuns(dt, s.topics[dt.name], key, ap);
    w := Writer(ConfigOp(dt, s.topics[dt.name], key), FromTopic(dt), CallUpdateConfig(dt.name, key, dt.config[key]));
  }

  lemma ConfigOpRuns(dt: DesiredTopic, lt: Topic, key: string, ap: Approvals)
    requires key in dt.config && Acts(dt.mode)
    ensures MakesCall(ConfigOp(dt, lt, key), ap, CallUpdateConfig(dt.name, key, dt.config[key]))
  {
  }

  lemma IncreasePlanned(s: State, dt: DesiredTopic, op: Operation)
    requires dt.name in s.topics && PartitionOps(dt, s.topics[dt.name]) == [op] && op.action == IncreasePartitions
    ensures op in TopicStep(s.topics)(dt)
    ensures StoreCalls(op) == Some([CallCreatePartitions(dt.name, dt.partitions)])
  {
    assert op in PartitionOps(dt, s.topics[dt.name]);
  }

  lemma ConfigOpPlanned(s: State, dt: DesiredTopic, key: string)
    requires dt.name in s.topics && ConfigDrifts(dt, s.topics[dt.name], key)
    ensures ConfigOp(dt, s.topics[dt.name], key) in TopicStep(s.topics)(dt)
  {
    var lt := s.topics[dt.name];
    var keys, f := SortedKeys(dt.config.Keys), ConfigStep(dt, lt);
    SortedKeysMembers(dt.config.Keys);
    FlatMapMember(keys, f, ConfigOp(dt, lt, key));
    assert key in keys && ConfigOp(dt, lt, key) in f(key);
  }

  lemma AclPruneWrites(d: Desired, ap: Approvals, s: State, a: Acl) returns (w: Writer)
    requires a in s.acls && PrunesAcl(d, ap, a)
    ensures Writes(d, ap, s, AclCell(a), w) && w.op.action in {CreateAcl, DeleteAcl}
  {
    var op := PruneOp(AclKind(PruneScope(d)), a, PruneScope(d)[AclScope(a)]);
    AclOriginRuns(d, s, op, FromAclPrune(a), ap);
    w := Writer(op, FromAclPrune(a), CallDeleteAcls({a}));
  }

  lemma AclAddWrites(d: Desired, ap: Approvals, s: State, it: Item<Acl>) returns (w: Writer)
    requires it in d.acls && it.id !in s.acls && Acts(it.mode)
    ensures Writes(d, ap, s, AclCell(it.id), w) && w.op.action in {CreateAcl, DeleteAcl}
  {
    var op := AddOp(AclKind(PruneScope(d)), it);
    AclOriginRuns(d, s, op, FromAclAdd(it), ap);
    w := Writer(op, FromAclAdd(it), CallCreateAcl(it.id));
  }

  lemma AclComplete(d: Desired, ap: Approvals, s: State, a: Acl) returns (w: Writer)
    requires WellFormed(d) && Goal(d, ap, s, AclCell(a)) != At(s, AclCell(a))
    ensures Writes(d, ap, s, AclCell(a), w) && w.op.action in {CreateAcl, DeleteAcl}
  {
    AclOffGoal(d, ap, s, a);
    if a in s.acls { w := AclPruneWrites(d, ap, s, a); } else { w := AclAddWrites(d, ap, s, FindAcl(d, a).value); }
  }

  lemma BindingPruneWrites(d: Desired, ap: Approvals, s: State, b: Binding) returns (w: Writer)
    requires b in s.bindings && PrunesBinding(d, ap, b)
    ensures Writes(d, ap, s, BindingCell(b), w) && w.op.action in {AddRoleBinding, RemoveRoleBinding}
  {
    var op := PruneOp(BindingKind(d.bindingScope), b, d.bindingScope[BindingScope(b)]);
    BindingOriginRuns(d, s, op, FromBindingPrune(b), ap);
    w := Writer(op, FromBindingPrune(b), CallRemoveBinding(b));
  }

  lemma BindingAddWrites(d: Desired, ap: Approvals, s: State, it: Item<Binding>) returns (w: Writer)
    requires it in d.bindings && it.id !in s.bindings && Acts(it.mode)
    ensures Writes(d, ap, s, BindingCell(it.id), w) && w.op.action in {AddRoleBinding, RemoveRoleBinding}
  {
    var op := AddOp(BindingKind(d.bindingScope), it);
    BindingOriginRuns(d, s, op, FromBindingAdd(it), ap);
    w := Writer(op, FromBindingAdd(it), CallAddBinding(it.id));
  }

  lemma BindingComplete(d: Desired, ap: Approvals, s: State, b: Binding) returns (w: Writer)
    requires WellFormed(d) && Goal(d, ap, s, BindingCell(b)) != At(s, BindingCell(b))
    ensures Writes(d, ap, s, BindingCell(b), w) && w.op.action in {AddRoleBinding, RemoveRoleBinding}
  {
    BindingOffGoal(d, ap, s, b);
    if b in s.bindings { w := BindingPruneWrites(d, ap, s, b); } else { w := BindingAddWrites(d, ap, s, FindBinding(d, b).value); }
  }

  lemma GrantComplete(d: Desired, ap: Approvals, s: State, c: Cell) returns (w: Writer)
    requires WellFormed(d) && (c.AclCell? || c.BindingCell?)
    requires Goal(d, ap, s, c) != At(s, c)
    ensures Writes(d, ap, s, c, w) && w.op.action in {CreateAcl, DeleteAcl, AddRoleBinding, RemoveRoleBinding}
  {
    if c.AclCell? { w := AclComplete(d, ap, s, c.acl); } else { w := BindingComplete(d, ap, s, c.binding); }
  }

  lemma QuotaComplete(d: Desired, ap: Approvals, s: State, c: Cell) returns (w: Writer)
    requires WellFormed(d) && c.QuotaCell?
    requires Goal(d, ap, s, c) != At(s, c)
    ensures Writes(d, ap, s, c, w)
  {
    var dq := FindQuota(d, c.entity).value;
    w := LimitComplete(d, ap, s, dq, c.limit);
  }

  lemma LimitComplete(d: Desired, ap: Approvals, s: State, dq: DesiredQuota, k: string) returns (w: Writer)
    requires dq in d.quotas && Acts(dq.mode)
    requires if dq.entity !in s.quotas then k in dq.limits
             else LimitDiffers(dq.limits, s.quotas[dq.entity], k)
                  || (k in Extra(dq.limits, s.quotas[dq.entity]) && ap.destructive)
    ensures Writes(d, ap, s, QuotaCell(dq.entity, k), w)
  {
    var op := PlannedForLimit(dq, s.quotas, k);
    var call := QuotaCall(op, ap, k);
    w := Writer(op, FromQuota(dq), call);
  }

  lemma QuotaCall(op: Operation, ap: Approvals, k: string) returns (call: Call)
    requires op.payload.QuotaPayload? && op.action in {SetQuota, UpdateQuota, RemoveQuota} && k in op.payload.limits
    requires Acts(op.mode) && (op.action == RemoveQuota ==> ap.destructive)
    ensures MakesCall(op, ap, call) && Touches(call, QuotaCell(op.payload.entity, k))
  {
    QuotaCalls(op);
    call := StoreCalls(op).value[0];
  }

  lemma QuotaCalls(op: Operation)
    requires op.payload.QuotaPayload? && op.action in {SetQuota, UpdateQuota, RemoveQuota}
    ensures StoreCalls(op) == Some([if op.action == RemoveQuota then CallDeleteQuota(op.payload.entity, op.payload.limits.Keys)
                                    else CallSetQuota(op.payload.entity, op.payload.limits)])
    ensures GateOf(op.action) == if op.action == RemoveQuota then GateDestructive else GateNone
  {
  }

  lemma UserCalls(op: Operation, ap: Approvals)
    requires op.action in {CreateScramCredential, UpdateScramCredential, RotateScramCredential}
    requires op.mode == Unattributed && op.payload.ScramPayload? && op.payload.password.Some?
    ensures Dispatchable(op, ap) && StoreCalls(op) == Some(ScramCalls(op.payload))
  {
  }

  /** The quota operation that concerns one limit. */
  lemma PlannedForLimit(dq: DesiredQuota, live: map<Entity, map<string, real>>, k: string) returns (op: Operation)
    requires if dq.entity !in live then k in dq.limits
             else LimitDiffers(dq.limits, live[dq.entity], k) || k in Extra(dq.limits, live[dq.entity])
    ensures op in QuotaStep(live)(dq)
    ensures k in dq.limits ==> (IsQuotaOp(dq, op, SetQuota, dq.limits) || IsQuotaOp(dq, op, UpdateQuota, dq.limits))
    ensures k !in dq.limits ==> dq.entity in live && IsQuotaOp(dq, op, RemoveQuota, Extra(dq.limits, live[dq.entity]))
  {
    if dq.entity !in live {
      op := QuotaOp(dq, SetQuota, dq.limits);
    } else if k in dq.limits {
      op := QuotaOp(dq, UpdateQuota, dq.limits);
    } else {
      op := QuotaOp(dq, RemoveQuota, Extra(dq.limits, live[dq.entity]));
    }
  }

  /** The user operation that concerns one credential. */
  lemma PlannedForUser(du: DesiredUser, scram: map<ScramId, int>, rotate: bool, id: ScramId) returns (op: Operation)
    requires id.user == du.id.user
    requires if id == du.id then id !in scram || !IterationsMatch(du, scram[id]) || rotate
             else du.id !in scram && id in scram && id.mechanism in Mechanisms(scram, id.user)
                  && id.mechanism == Least(Mechanisms(scram, id.user))
    ensures op in UserStep(scram, rotate)(du)
    ensures op.action == CreateScramCredential || op.action == UpdateScramCredential || op.action == RotateScramCredential
    ensures op.mode == Unattributed && op.payload.ScramPayload?
    ensures op.payload.id == du.id && op.payload.iterations == du.iterations && op.payload.password == du.password
    ensures id != du.id ==> op.payload.deleteMechanism == id.mechanism
  {
    op := UserStep(scram, rotate)(du)[0];
  }

  lemma UserComplete(d: Desired, ap: Approvals, s: State, c: Cell) returns (w: Writer)
    requires WellFormed(d) && c.ScramCell? && forall du :: du in d.users ==> du.password.Some?
    requires Goal(d, ap, s, c) != At(s, c)
    ensures Writes(d, ap, s, c, w)
  {
    var du := FindUser(d, c.id.user).value;
    if c.id == du.id { w := DeclaredComplete(d, ap, s, du); } else { w := ReplacedComplete(d, ap, s, du, c.id); }
  }

  lemma DeclaredComplete(d: Desired, ap: Approvals, s: State, du: DesiredUser) returns (w: Writer)
    requires du in d.users && du.password.Some?
    requires du.id !in s.scram || !IterationsMatch(du, s.scram[du.id]) || d.rotatePasswords
    ensures Writes(d, ap, s, ScramCell(du.id), w)
  {
    var op := PlannedForUser(du, s.scram, d.rotatePasswords, du.id);
    UserCalls(op, ap);
    w := Writer(op, FromUser(du), CallUpsertScram(du.id, du.iterations));
  }

  lemma ReplacedComplete(d: Desired, ap: Approvals, s: State, du: DesiredUser, id: ScramId) returns (w: Writer)
    requires du in d.users && du.password.Some? && id != du.id && id.user == du.id.user
    requires du.id !in s.scram && id in s.scram && id.mechanism != ""
    requires id.mechanism in Mechanisms(s.scram, id.user) && id.mechanism == Least(Mechanisms(s.scram, id.user))
    ensures Writes(d, ap, s, ScramCell(id), w)
  {
    var op := PlannedForUser(du, s.scram, d.rotatePasswords, id);
    UserCalls(op, ap);
    w := Writer(op, FromUser(du), CallDeleteScram(id));
  }

  /** Every cell that is off its goal is written by a planned operation. */
  lemma Complete(d: Desired, ap: Approvals, s: State, c: Cell) returns (w: Writer)
    requires WellFormed(d) && forall du :: du in d.users ==> du.password.Some?
    requires Goal(d, ap, s, c) != At(s, c)
    ensures Writes(d, ap, s, c, w)
  {
    match c
    case PartitionsCell(_) | ReplicasCell(_) | ConfigCell(_, _) => w := TopicComplete(d, ap, s, c);
    case AclCell(_) | BindingCell(_) => w := GrantComplete(d, ap, s, c);
    case QuotaCell(_, _) => w := QuotaComplete(d, ap, s, c);
    case ScramCell(_) => w := UserComplete(d, ap, s, c);
  }

  // ---- no idle operation -------------------------------------------------

  lemma QuotaNeeded(d: Desired, s: State, dq: DesiredQuota, op: Operation) returns (k: string)
    requires WellFormed(d) && dq in d.quotas && op in QuotaStep(s.quotas)(dq)
    ensures k in op.payload.limits
    ensures op.action == RemoveQuota ==> At(s, QuotaCell(dq.entity, k)) != None
    ensures op.action != RemoveQuota ==> At(s, QuotaCell(dq.entity, k)) != Some(Rate(op.payload.limits[k]))
  {
    QuotaOpShape(dq, s.quotas, op);
    if op.action == UpdateQuota {
      k :| k in dq.limits && LimitDiffers(dq.limits, s.quotas[dq.entity], k);
    } else {
      EmptyMap(op.payload.limits);
      k :| k in op.payload.limits.Keys;
    }
  }

  lemma TopicNeeded(s: State, dt: DesiredTopic, op: Operation) returns (c: Cell)
    requires op in TopicStep(s.topics)(dt) && StoreCalls(op).Some?
    ensures StoreCalls(op).value != []
    ensures Touches(StoreCalls(op).value[0], c) && Effect(StoreCalls(op).value[0], c) != At(s, c)
  {
    TopicOpShape(dt, s.topics, op);
    c := if op.action == UpdateTopicConfig then ConfigCell(dt.name, op.field) else PartitionsCell(dt.name);
  }

  /** A planned operation that calls the store changes some cell, unless it
      only rotates a password. */
  lemma Needed(d: Desired, s: State, op: Operation, o: Origin) returns (c: Cell)
    requires WellFormed(d) && Derived(d, s, op, o)
    requires StoreCalls(op).Some? && op.action != RotateScramCredential
    ensures StoreCalls(op).value != []
    ensures Touches(StoreCalls(op).value[0], c) && Effect(StoreCalls(op).value[0], c) != At(s, c)
  {
    match o
    case FromTopic(dt) => c := TopicNeeded(s, dt, op);
    case FromQuota(dq) => c := QuotaOpNeeded(d, s, dq, op);
    case FromUser(du) => c := UserNeeded(d, s, du, op);
    case FromFinding => NoFindingCalls(op);
    case _ => c := GrantNeeded(d, s, op, o);
  }

  lemma NoFindingCalls(op: Operation)
    requires Storeless(op)
    ensures StoreCalls(op).None?
  {
  }

  lemma GrantNeeded(d: Desired, s: State, op: Operation, o: Origin) returns (c: Cell)
    requires Derived(d, s, op, o) && IsGrant(o) && StoreCalls(op).Some?
    ensures StoreCalls(op).value != []
    ensures Touches(StoreCalls(op).value[0], c) && Effect(StoreCalls(op).value[0], c) != At(s, c)
  {
    GrantOriginRuns(d, s, op, o, ALL_APPROVALS);
    c := match o
      case FromAclAdd(it) => AclCell(it.id)
      case FromAclPrune(a) => AclCell(a)
      case FromBindingAdd(it) => BindingCell(it.id)
      case FromBindingPrune(b) => BindingCell(b);
  }

  lemma QuotaOpNeeded(d: Desired, s: State, dq: DesiredQuota, op: Operation) returns (c: Cell)
    requires WellFormed(d) && dq in d.quotas && op in QuotaStep(s.quotas)(dq) && StoreCalls(op).Some?
    ensures StoreCalls(op).value != []
    ensures Touches(StoreCalls(op).value[0], c) && Effect(StoreCalls(op).value[0], c) != At(s, c)
  {
    QuotaOpShape(dq, s.quotas, op);
    QuotaCalls(op);
    var k := QuotaNeeded(d, s, dq, op);
    c := QuotaCell(dq.entity, k);
  }

  lemma UserNeeded(d: Desired, s: State, du: DesiredUser, op: Operation) returns (c: Cell)
    requires op in UserStep(s.scram, d.rotatePasswords)(du)
    requires StoreCalls(op).Some? && op.action != RotateScramCredential
    ensures StoreCalls(op).value != []
    ensures Touches(StoreCalls(op).value[0], c) && Effect(StoreCalls(op).value[0], c) != At(s, c)
  {
    UserOpShape(du, s.scram, d.rotatePasswords, op);
    c := ScramCell(du.id);
  }
}
