/** The planner: desired against live state, as a deterministic operation list. */
module Diff {
  import opened Basics
  import opened Model
  import opened Operations
  import opened Store
  import Mirror

  datatype DesiredTopic = DesiredTopic(source: Source, name: string, partitions: int, replicationFactor: int,
                                       config: map<string, string>, mode: Mode, ignoreFields: seq<string>)
  datatype DesiredQuota = DesiredQuota(entity: Entity, limits: map<string, real>, mode: Mode)
  datatype DesiredUser = DesiredUser(id: ScramId, iterations: int, password: Option<PasswordRef>)

  type AclScopes = map<AclScopeKey, ScopeInfo>
  type BindingScopes = map<BindingScopeKey, ScopeInfo>

  datatype PruneAggregate = PruneAggregate(desired: seq<Item<Acl>>, scope: AclScopes)

  datatype Desired = Desired(
    topics: seq<DesiredTopic>,
    mirrors: seq<Mirror.DesiredMirror>,
    acls: seq<Item<Acl>>,
    scope: AclScopes,
    quotas: seq<DesiredQuota>,
    users: seq<DesiredUser>,
    rotatePasswords: bool,
    bindings: seq<Item<Binding>>,
    bindingScope: BindingScopes,
    pruneAggregate: Option<PruneAggregate>,
    bindingKeep: Option<seq<Item<Binding>>>)

  datatype QuotaState = QuotaState(entity: Entity, limits: map<string, real>)
  datatype ScramCredential = ScramCredential(id: ScramId, iterations: int)

  datatype Live = Live(topics: seq<TopicState>, acls: seq<Acl>, quotas: seq<QuotaState>, bindings: seq<Binding>,
                       credentials: seq<ScramCredential>, mirrors: Option<Mirror.Snapshot>)

  function TopicKey(dt: DesiredTopic): string { dt.name }
  function QuotaId(dq: DesiredQuota): Entity { dq.entity }
  function QuotaKey(dq: DesiredQuota): string { EntityKey(dq.entity) }
  function UserKey(du: DesiredUser): string { du.id.user }
  function MirrorKey(dm: Mirror.DesiredMirror): string { dm.topicName }

  // ---- the live lists as maps --------------------------------------------

  function QuotaMap(qs: seq<QuotaState>): map<Entity, map<string, real>> {
    if qs == [] then map[] else QuotaMap(qs[..|qs| - 1])[qs[|qs| - 1].entity := qs[|qs| - 1].limits]
  }

  function ScramMap(cs: seq<ScramCredential>): map<ScramId, int> {
    if cs == [] then map[] else ScramMap(cs[..|cs| - 1])[cs[|cs| - 1].id := cs[|cs| - 1].iterations]
  }

  function Ids<I>(items: seq<Item<I>>): set<I> { set it | it in items :: it.id }

  /** The state a set of live lists describes. */
  function StateOf(live: Live): State {
    State(TopicMap(live.topics), Members(live.acls), Members(live.bindings), QuotaMap(live.quotas),
          ScramMap(live.credentials))
  }

  method IndexTopics(xs: seq<TopicState>) returns (index: map<string, Topic>)
    ensures index == TopicMap(xs)
  {
    index := map[];
    for i := 0 to |xs|
      invariant index == TopicMap(xs[..i])
    {
      assert xs[..i + 1][..i] == xs[..i];
      index := index[xs[i].name := xs[i].topic];
    }
    assert xs[..|xs|] == xs;
  }

  method IndexQuotas(xs: seq<QuotaState>) returns (index: map<Entity, map<string, real>>)
    ensures index == QuotaMap(xs)
  {
    index := map[];
    for i := 0 to |xs|
      invariant index == QuotaMap(xs[..i])
    {
      assert xs[..i + 1][..i] == xs[..i];
      index := index[xs[i].entity := xs[i].limits];
    }
    assert xs[..|xs|] == xs;
  }

  method IndexCredentials(xs: seq<ScramCredential>) returns (index: map<ScramId, int>)
    ensures index == ScramMap(xs)
  {
    index := map[];
    for i := 0 to |xs|
      invariant index == ScramMap(xs[..i])
    {
      assert xs[..i + 1][..i] == xs[..i];
      index := index[xs[i].id := xs[i].iterations];
    }
    assert xs[..|xs|] == xs;
  }

  // ---- topics ------------------------------------------------------------

  predicate Ignores(dt: DesiredTopic, field: string) { field in dt.ignoreFields }

  function TopicOp(dt: DesiredTopic, a: Action): Operation {
    New(a).(source := dt.source, target := dt.name, mode := dt.mode)
  }

  function CreateTopicOp(dt: DesiredTopic): Operation {
    TopicOp(dt, CreateTopic).(payload := TopicPayload(dt.partitions, dt.replicationFactor, dt.config))
  }

  function PartitionOps(dt: DesiredTopic, lt: Topic): seq<Operation> {
    if Ignores(dt, "partitions") || dt.partitions == lt.partitions then []
    else if dt.partitions < lt.partitions
    then [TopicOp(dt, Rejected).(from := Itoa(lt.partitions), to := Itoa(dt.partitions))]
    else [TopicOp(dt, IncreasePartitions).(from := Itoa(lt.partitions), to := Itoa(dt.partitions),
                                           payload := TopicPayload(dt.partitions, 0, map[]))]
  }

  predicate ConfigDrifts(dt: DesiredTopic, lt: Topic, key: string) {
    && key in dt.config && !Ignores(dt, "config." + key)
    && !(key in lt.config && lt.config[key] == dt.config[key])
  }

  function ConfigOp(dt: DesiredTopic, lt: Topic, key: string): Operation
    requires key in dt.config
  {
    TopicOp(dt, UpdateTopicConfig).(field := key, from := Mirror.Shown(lt.config, key), to := dt.config[key])
  }

  function ConfigStep(dt: DesiredTopic, lt: Topic): string -> seq<Operation> {
    (key: string) => if ConfigDrifts(dt, lt, key) then [ConfigOp(dt, lt, key)] else []
  }

  function ReplicationOps(dt: DesiredTopic, lt: Topic): seq<Operation> {
    if dt.replicationFactor != 0 && lt.replicationFactor != 0 && dt.replicationFactor != lt.replicationFactor
       && !Ignores(dt, "replicationFactor")
    then [TopicOp(dt, UpdateReplicationFactor).(from := Itoa(lt.replicationFactor), to := Itoa(dt.replicationFactor))]
    else []
  }

  function TopicStep(live: map<string, Topic>): DesiredTopic -> seq<Operation> {
    (dt: DesiredTopic) =>
      if dt.name !in live then [CreateTopicOp(dt)]
      else PartitionOps(dt, live[dt.name])
           + FlatMap(SortedKeys(dt.config.Keys), ConfigStep(dt, live[dt.name]))
           + ReplicationOps(dt, live[dt.name])
  }

  function TopicOps(topics: seq<DesiredTopic>, live: map<string, Topic>): seq<Operation> {
    FlatMap(SortOn(topics, TopicKey), TopicStep(live))
  }

  method ComputeTopicOps(d: Desired, live: Live) returns (ops: seq<Operation>)
    ensures ops == TopicOps(d.topics, TopicMap(live.topics))
  {
    var liveByName := IndexTopics(live.topics);
    var topics := SortOn(d.topics, TopicKey);
    ops := [];
    for i := 0 to |topics|
      invariant ops == FlatMap(topics[..i], TopicStep(liveByName))
    {
      FlatMapStep(topics, i, TopicStep(liveByName));
      var dt := topics[i];
      if dt.name !in liveByName {
        ops := ops + [CreateTopicOp(dt)];
      } else {
        var more := DiffTopic(dt, liveByName[dt.name]);
        ops := ops + more;
      }
    }
    assert topics[..|topics|] == topics;
  }

  method DiffTopic(dt: DesiredTopic, lt: Topic) returns (ops: seq<Operation>)
    ensures ops == PartitionOps(dt, lt) + FlatMap(SortedKeys(dt.config.Keys), ConfigStep(dt, lt)) + ReplicationOps(dt, lt)
  {
    var partitionOps := DiffPartitions(dt, lt);
    var configOps := DiffConfig(dt, lt);
    var replicationOps := DiffReplication(dt, lt);
    ops := partitionOps + configOps + replicationOps;
  }

  method DiffPartitions(dt: DesiredTopic, lt: Topic) returns (ops: seq<Operation>)
    ensures ops == PartitionOps(dt, lt)
  {
    if Ignores(dt, "partitions") { return []; }
    if dt.partitions < lt.partitions {
      ops := [TopicOp(dt, Rejected).(from := Itoa(lt.partitions), to := Itoa(dt.partitions))];
    } else if dt.partitions > lt.partitions {
      ops := [TopicOp(dt, IncreasePartitions).(from := Itoa(lt.partitions), to := Itoa(dt.partitions),
                                               payload := TopicPayload(dt.partitions, 0, map[]))];
    } else {
      ops := [];
    }
  }

  method DiffConfig(dt: DesiredTopic, lt: Topic) returns (ops: seq<Operation>)
    ensures ops == FlatMap(SortedKeys(dt.config.Keys), ConfigStep(dt, lt))
  {
    var keys := SortedKeys(dt.config.Keys);
    ops := [];
    for i := 0 to |keys|
      invariant ops == FlatMap(keys[..i], ConfigStep(dt, lt))
    {
      FlatMapStep(keys, i, ConfigStep(dt, lt));
      if ConfigDrifts(dt, lt, keys[i]) { ops := ops + [ConfigOp(dt, lt, keys[i])]; }
    }
    assert keys[..|keys|] == keys;
  }

  method DiffReplication(dt: DesiredTopic, lt: Topic) returns (ops: seq<Operation>)
    ensures ops == ReplicationOps(dt, lt)
  {
    ops := [];
    if dt.replicationFactor != 0 && lt.replicationFactor != 0 && dt.replicationFactor != lt.replicationFactor {
      if !Ignores(dt, "replicationFactor") {
        ops := [TopicOp(dt, UpdateReplicationFactor).(from := Itoa(lt.replicationFactor), to := Itoa(dt.replicationFactor))];
      }
    }
  }

  // ---- ACLs and role bindings: one add/prune walk -------------------------

  /** What varies per kind. `cover` is the managed-scope entry of an identity. */
  datatype AddPruneKind<!I> = AddPruneKind(key: I -> string, defaultKind: string, cover: I -> Option<ScopeInfo>,
                                           addAction: Action, pruneAction: Action, emit: (I, Action) -> Operation)

  function Owned(op: Operation, kind: string, source: Source, mode: Mode): Operation {
    op.(source := if source.kind != "" then source else Source(kind, "", ""), mode := mode)
  }

  function AddOp<I>(k: AddPruneKind<I>, it: Item<I>): Operation {
    Owned(k.emit(it.id, k.addAction), k.defaultKind, it.source, it.mode)
  }

  function PruneOp<I>(k: AddPruneKind<I>, x: I, info: ScopeInfo): Operation {
    Owned(k.emit(x, k.pruneAction), k.defaultKind, info.source, info.mode).(pruneAllowed := info.prune)
  }

  function AddStep<I(==)>(k: AddPruneKind<I>, live: set<I>): Item<I> -> seq<Operation> {
    (it: Item<I>) => if it.id in live then [] else [AddOp(k, it)]
  }

  function PruneStep<I(==)>(k: AddPruneKind<I>, keep: set<I>): I -> seq<Operation> {
    (x: I) => if k.cover(x).None? || x in keep then [] else [PruneOp(k, x, k.cover(x).value)]
  }

  function ItemKey<I>(key: I -> string): Item<I> -> string { (it: Item<I>) => key(it.id) }

  function AddPruneOps<I(==)>(k: AddPruneKind<I>, desired: seq<Item<I>>, keep: seq<Item<I>>, live: seq<I>): seq<Operation> {
    FlatMap(SortOn(desired, ItemKey(k.key)), AddStep(k, Members(live)))
    + FlatMap(SortOn(live, k.key), PruneStep(k, Ids(keep)))
  }

  method ComputeAddPruneOps<I(==)>(k: AddPruneKind<I>, desired: seq<Item<I>>, keep: seq<Item<I>>, live: seq<I>)
    returns (ops: seq<Operation>)
    ensures ops == AddPruneOps(k, desired, keep, live)
  {
    var keepKeys, liveKeys := Ids(keep), Members(live);
    ops := ComputeAdds(k, SortOn(desired, ItemKey(k.key)), liveKeys);
    var prunes := ComputePrunes(k, SortOn(live, k.key), keepKeys);
    ops := ops + prunes;
  }

  method ComputeAdds<I(==)>(k: AddPruneKind<I>, items: seq<Item<I>>, liveKeys: set<I>) returns (ops: seq<Operation>)
    ensures ops == FlatMap(items, AddStep(k, liveKeys))
  {
    ops := [];
    for i := 0 to |items|
      invariant ops == FlatMap(items[..i], AddStep(k, liveKeys))
    {
      FlatMapStep(items, i, AddStep(k, liveKeys));
      if items[i].id !in liveKeys { ops := ops + [AddOp(k, items[i])]; }
    }
    assert items[..|items|] == items;
  }

  method ComputePrunes<I(==)>(k: AddPruneKind<I>, live: seq<I>, keepKeys: set<I>) returns (ops: seq<Operation>)
    ensures ops == FlatMap(live, PruneStep(k, keepKeys))
  {
    ops := [];
    for i := 0 to |live|
      invariant ops == FlatMap(live[..i], PruneStep(k, keepKeys))
    {
      FlatMapStep(live, i, PruneStep(k, keepKeys));
      var info := k.cover(live[i]);
      if info.Some? && live[i] !in keepKeys { ops := ops + [PruneOp(k, live[i], info.value)]; }
    }
    assert live[..|live|] == live;
  }

  function AclTarget(a: Acl): string {
    a.principal + " " + a.operation + " " + a.resourceType + ":" + a.resourceName + " " + a.permission
    + if a.host != "*" then " (host=" + a.host + ")" else ""
  }

  function AclOp(a: Acl, action: Action): Operation { New(action).(target := AclTarget(a), payload := AclPayload(a)) }

  function AclCover(scope: AclScopes): Acl -> Option<ScopeInfo> {
    (a: Acl) => if AclScope(a) in scope then Some(scope[AclScope(a)]) else None
  }

  function AclKind(scope: AclScopes): AddPruneKind<Acl> {
    AddPruneKind(FullKey, "ACL", AclCover(scope), CreateAcl, DeleteAcl, AclOp)
  }

  /** The set and scope that govern pruning: the aggregate when supplied. */
  function PruneDesired(d: Desired): seq<Item<Acl>> {
    if d.pruneAggregate.Some? then d.pruneAggregate.value.desired else d.acls
  }
  function PruneScope(d: Desired): AclScopes {
    if d.pruneAggregate.Some? then d.pruneAggregate.value.scope else d.scope
  }
  function BindingKeepSet(d: Desired): seq<Item<Binding>> {
    if d.bindingKeep.Some? then d.bindingKeep.value else d.bindings
  }

  function AclOps(d: Desired, live: seq<Acl>): seq<Operation> {
    AddPruneOps(AclKind(PruneScope(d)), d.acls, PruneDesired(d), live)
  }

  function BindingTarget(b: Binding): string {
    b.principal + " " + b.role + " " + b.scope.scopeType
    + (if b.scope.subCluster != "" then "/" + b.scope.subCluster else "")
    + match b.resource
      case None => ""
      case Some(r) => " " + r.resourceType + ":" + r.name + "(" + r.patternType + ")"
  }

  function BindingOp(b: Binding, action: Action): Operation {
    New(action).(target := BindingTarget(b), payload := BindingPayload(b))
  }

  function BindingCover(scope: BindingScopes): Binding -> Option<ScopeInfo> {
    (b: Binding) => if BindingScope(b) in scope then Some(scope[BindingScope(b)]) else None
  }

  function BindingKind(scope: BindingScopes): AddPruneKind<Binding> {
    AddPruneKind(BindingKey, "KafkaRoleBinding", BindingCover(scope), AddRoleBinding, RemoveRoleBinding, BindingOp)
  }

  function BindingOps(d: Desired, live: seq<Binding>): seq<Operation> {
    AddPruneOps(BindingKind(d.bindingScope), d.bindings, BindingKeepSet(d), live)
  }

  // ---- quotas ------------------------------------------------------------

  predicate LimitDiffers(limits: map<string, real>, live: map<string, real>, key: string) {
    key in limits && !(key in live && live[key] == limits[key])
  }

  predicate NeedsUpdate(limits: map<string, real>, live: map<string, real>) {
    exists key :: key in limits && LimitDiffers(limits, live, key)
  }

  /** The live limits that are not declared; the values do not matter. */
  function Extra(limits: map<string, real>, live: map<string, real>): map<string, real> {
    map key | key in live && key !in limits :: 0.0
  }

  function QuotaOp(dq: DesiredQuota, a: Action, limits: map<string, real>): Operation {
    New(a).(source := Source("KafkaQuota", "", ""), target := Join(EntityParts(dq.entity), ','), mode := dq.mode,
            payload := QuotaPayload(dq.entity, limits))
  }

  function QuotaStep(live: map<Entity, map<string, real>>): DesiredQuota -> seq<Operation> {
    (dq: DesiredQuota) =>
      if dq.entity !in live then [QuotaOp(dq, SetQuota, dq.limits)]
      else (if NeedsUpdate(dq.limits, live[dq.entity]) then [QuotaOp(dq, UpdateQuota, dq.limits)] else [])
           + (if Extra(dq.limits, live[dq.entity]) != map[]
              then [QuotaOp(dq, RemoveQuota, Extra(dq.limits, live[dq.entity]))] else [])
  }

  function QuotaOps(quotas: seq<DesiredQuota>, live: map<Entity, map<string, real>>): seq<Operation> {
    FlatMap(SortOn(quotas, QuotaKey), QuotaStep(live))
  }

  method ComputeNeedsUpdate(limits: map<string, real>, live: map<string, real>) returns (needed: bool)
    ensures needed == NeedsUpdate(limits, live)
  {
    var keys := limits.Keys;
    while keys != {}
      invariant keys <= limits.Keys
      invariant forall key :: key in limits && key !in keys ==> !LimitDiffers(limits, live, key)
      decreases |keys|
    {
      var key :| key in keys;
      if LimitDiffers(limits, live, key) { return true; }
      keys := keys - {key};
    }
    needed := false;
  }

  method ComputeQuotaOps(d: Desired, live: Live) returns (ops: seq<Operation>)
    ensures ops == QuotaOps(d.quotas, QuotaMap(live.quotas))
  {
    var liveByKey := IndexQuotas(live.quotas);
    var quotas := SortOn(d.quotas, QuotaKey);
    ops := [];
    for i := 0 to |quotas|
      invariant ops == FlatMap(quotas[..i], QuotaStep(liveByKey))
    {
      FlatMapStep(quotas, i, QuotaStep(liveByKey));
      var more := DiffQuota(quotas[i], liveByKey);
      ops := ops + more;
    }
    assert quotas[..|quotas|] == quotas;
  }

  method DiffQuota(dq: DesiredQuota, live: map<Entity, map<string, real>>) returns (ops: seq<Operation>)
    ensures ops == QuotaStep(live)(dq)
  {
    if dq.entity !in live { return [QuotaOp(dq, SetQuota, dq.limits)]; }
    ops := [];
    var needed := ComputeNeedsUpdate(dq.limits, live[dq.entity]);
    if needed { ops := ops + [QuotaOp(dq, UpdateQuota, dq.limits)]; }
    var remove := Extra(dq.limits, live[dq.entity]);
    if remove != map[] { ops := ops + [QuotaOp(dq, RemoveQuota, remove)]; }
  }

  // ---- users -------------------------------------------------------------

  function Mechanisms(scram: map<ScramId, int>, user: string): set<string> {
    set id | id in scram && id.user == user :: id.mechanism
  }

  function UserOp(du: DesiredUser, a: Action, deleteMechanism: string): Operation {
    New(a).(source := Source("KafkaUser", "", ""), target := du.id.user + " (" + du.id.mechanism + ")",
            payload := ScramPayload(du.id, du.iterations, deleteMechanism, du.password))
  }

  predicate IterationsMatch(du: DesiredUser, live: int) { du.iterations == 0 || du.iterations == live }

  function UserStep(scram: map<ScramId, int>, rotate: bool): DesiredUser -> seq<Operation> {
    (du: DesiredUser) =>
      if du.id in scram then
        if IterationsMatch(du, scram[du.id]) then if rotate then [UserOp(du, RotateScramCredential, "")] else []
        else [UserOp(du, UpdateScramCredential, "").(field := "iterations", from := Itoa(scram[du.id]), to := Itoa(du.iterations))]
      else if Mechanisms(scram, du.id.user) != {} then
        var old_ := Least(Mechanisms(scram, du.id.user));
        [UserOp(du, UpdateScramCredential, old_).(field := "mechanism", from := old_, to := du.id.mechanism)]
      else [UserOp(du, CreateScramCredential, "")]
  }

  function UserOps(users: seq<DesiredUser>, scram: map<ScramId, int>, rotate: bool): seq<Operation> {
    FlatMap(SortOn(users, UserKey), UserStep(scram, rotate))
  }

  method ComputeUserOps(d: Desired, live: Live) returns (ops: seq<Operation>)
    ensures ops == UserOps(d.users, ScramMap(live.credentials), d.rotatePasswords)
  {
    var liveByUser := IndexCredentials(live.credentials);
    var users := SortOn(d.users, UserKey);
    ops := [];
    for i := 0 to |users|
      invariant ops == FlatMap(users[..i], UserStep(liveByUser, d.rotatePasswords))
    {
      FlatMapStep(users, i, UserStep(liveByUser, d.rotatePasswords));
      var more := DiffUser(users[i], liveByUser, d.rotatePasswords);
      ops := ops + more;
    }
    assert users[..|users|] == users;
  }

  method DiffUser(du: DesiredUser, live: map<ScramId, int>, rotate: bool) returns (ops: seq<Operation>)
    ensures ops == UserStep(live, rotate)(du)
  {
    ops := [];
    var others := Mechanisms(live, du.id.user);
    if du.id in live && (du.iterations == 0 || du.iterations == live[du.id]) {
      if rotate { ops := [UserOp(du, RotateScramCredential, "")]; }
    } else if du.id in live {
      ops := [UserOp(du, UpdateScramCredential, "").(field := "iterations", from := Itoa(live[du.id]), to := Itoa(du.iterations))];
    } else if others != {} {
      var first := SortedKeys(others)[0];
      ops := [UserOp(du, UpdateScramCredential, first).(field := "mechanism", from := first, to := du.id.mechanism)];
    } else {
      ops := [UserOp(du, CreateScramCredential, "")];
    }
  }

  // ---- mirror guards -----------------------------------------------------

  /** The finding that replaces the operations of a topic that must not be mutated. */
  function GuardOf(dt: DesiredTopic, snapshot: Mirror.Snapshot): Option<Operation> {
    match Mirror.Classify(snapshot, dt.name)
    case MirrorTopic | StoppingMirror => Some(TopicOp(dt, Rejected))
    case UnknownTopic => Some(TopicOp(dt, StateReadError))
    case AbsentTopic | NormalTopic | StoppedFormerMirror => None
  }

  function GuardMap(topics: seq<DesiredTopic>, snapshot: Mirror.Snapshot): map<string, Operation> {
    if topics == [] then map[]
    else
      var front, dt := GuardMap(topics[..|topics| - 1], snapshot), topics[|topics| - 1];
      if GuardOf(dt, snapshot).Some? then front[dt.name := GuardOf(dt, snapshot).value] else front
  }

  function Guards(d: Desired, live: Live): map<string, Operation> {
    if live.mirrors.None? then map[] else GuardMap(d.topics, live.mirrors.value)
  }

  predicate MutatesTopic(a: Action) {
    a == CreateTopic || a == UpdateTopicConfig || a == IncreasePartitions || a == UpdateReplicationFactor || a == Rejected
  }

  function KeepTopicOp(guards: map<string, Operation>): Operation -> bool {
    (op: Operation) => !(op.target in guards && MutatesTopic(op.action))
  }

  function KeepAclOp(guards: map<string, Operation>): Operation -> bool {
    (op: Operation) => !(op.action == CreateAcl && op.payload.AclPayload? && op.payload.acl.resourceType == "topic"
            && op.payload.acl.patternType == "literal" && op.payload.acl.resourceName in guards)
  }

  function GuardStep(guards: map<string, Operation>): string -> seq<Operation> {
    (name: string) => if name in guards then [guards[name]] else []
  }

  function MirrorStep(snapshot: Option<Mirror.Snapshot>): Mirror.DesiredMirror -> seq<Operation> {
    (dm: Mirror.DesiredMirror) => Mirror.MirrorOps(dm, snapshot)
  }

  function MirrorPlan(mirrors: seq<Mirror.DesiredMirror>, snapshot: Option<Mirror.Snapshot>): seq<Operation> {
    FlatMap(SortOn(mirrors, MirrorKey), MirrorStep(snapshot))
  }

  // ---- the whole plan ----------------------------------------------------

  /** Topic and ACL operations with guarded topics replaced by their findings. */
  function GuardedOps(d: Desired, live: Live): seq<Operation> {
    var guards := Guards(d, live);
    var topicOps, aclOps := TopicOps(d.topics, TopicMap(live.topics)), AclOps(d, live.acls);
    if guards == map[] then topicOps + aclOps
    else Filter(topicOps, KeepTopicOp(guards)) + FlatMap(SortedKeys(guards.Keys), GuardStep(guards))
         + Filter(aclOps, KeepAclOp(guards))
  }

  function Planned(d: Desired, live: Live): seq<Operation> {
    GuardedOps(d, live)
    + QuotaOps(d.quotas, QuotaMap(live.quotas))
    + BindingOps(d, live.bindings)
    + UserOps(d.users, ScramMap(live.credentials), d.rotatePasswords)
    + MirrorPlan(d.mirrors, live.mirrors)
  }

  function Compute(d: Desired, live: Live): seq<Operation> { SortBy(Planned(d, live), OpLess) }

  method ComputeGuards(d: Desired, live: Live) returns (guards: map<string, Operation>)
    ensures guards == Guards(d, live)
  {
    guards := map[];
    if live.mirrors.None? { return; }
    for i := 0 to |d.topics|
      invariant guards == GuardMap(d.topics[..i], live.mirrors.value)
    {
      assert d.topics[..i + 1][..i] == d.topics[..i];
      var op := GuardOf(d.topics[i], live.mirrors.value);
      if op.Some? { guards := guards[d.topics[i].name := op.value]; }
    }
    assert d.topics[..|d.topics|] == d.topics;
  }

  method FilterOps(ops: seq<Operation>, keep: Operation -> bool) returns (out: seq<Operation>)
    ensures out == Filter(ops, keep)
  {
    out := [];
    for i := 0 to |ops|
      invariant out == Filter(ops[..i], keep)
    {
      assert ops[..i + 1][..i] == ops[..i];
      if keep(ops[i]) { out := out + [ops[i]]; }
    }
    assert ops[..|ops|] == ops;
  }

  method ComputeMirrorOps(d: Desired, live: Live) returns (ops: seq<Operation>)
    ensures ops == MirrorPlan(d.mirrors, live.mirrors)
  {
    var mirrors := SortOn(d.mirrors, MirrorKey);
    ops := [];
    for i := 0 to |mirrors|
      invariant ops == FlatMap(mirrors[..i], MirrorStep(live.mirrors))
    {
      FlatMapStep(mirrors, i, MirrorStep(live.mirrors));
      var more := Mirror.MirrorOpsFor(mirrors[i], live.mirrors);
      ops := ops + more;
    }
    assert mirrors[..|mirrors|] == mirrors;
  }

  method ComputePlan(d: Desired, live: Live) returns (ops: seq<Operation>)
    ensures ops == Compute(d, live)
  {
    var guards := ComputeGuards(d, live);
    var topicOps := ComputeTopicOps(d, live);
    var aclOps := ComputeAddPruneOps(AclKind(PruneScope(d)), d.acls, PruneDesired(d), live.acls);
    if guards != map[] {
      topicOps := FilterOps(topicOps, KeepTopicOp(guards));
      aclOps := FilterOps(aclOps, KeepAclOp(guards));
      topicOps := topicOps + FlatMap(SortedKeys(guards.Keys), GuardStep(guards));
    }
    var quotaOps := ComputeQuotaOps(d, live);
    var bindingOps := ComputeAddPruneOps(BindingKind(d.bindingScope), d.bindings, BindingKeepSet(d), live.bindings);
    var userOps := ComputeUserOps(d, live);
    var mirrorOps := ComputeMirrorOps(d, live);
    ops := SortBy(topicOps + aclOps + quotaOps + bindingOps + userOps + mirrorOps, OpLess);
  }
}
