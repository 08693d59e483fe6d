/** A plan holds no operation twice. */
module PlanOnce {
  import opened Basics
  import opened Model
  import opened Operations
  import opened Store
  import opened Diff
  import opened Intent
  import opened PlanFacts
  import Mirror
  import MirrorVerdicts
  import OrderIndependence

  // ---- lists without repetition --------------------------------------------

  ghost predicate Apart<T>(xs: seq<T>, ys: seq<T>) { forall x :: x in xs ==> x !in ys }

  lemma OnceConcat<T>(xs: seq<T>, ys: seq<T>)
    requires Once(xs) && Once(ys) && Apart(xs, ys)
    ensures Once(xs + ys)
  {
    forall i, j | 0 <= i < |xs| <= j < |xs + ys| ensures (xs + ys)[i] != (xs + ys)[j] {
      assert xs[i] in xs && ys[j - |xs|] in ys;
    }
  }

  /** Each element yields a list without repetition, and the tag of an entry
      tells which element it came from. */
  ghost predicate Told<T, U, K>(xs: seq<T>, key: T -> K, f: T -> seq<U>, tag: U -> K) {
    forall x :: x in xs ==> Once(f(x)) && forall u :: u in f(x) ==> tag(u) == key(x)
  }

  /** Flattening keeps apart what comes from elements with different keys. */
  lemma {:induction false} OnceFlatMap<T, U, K>(xs: seq<T>, key: T -> K, f: T -> seq<U>, tag: U -> K)
    requires Unique(xs, key) && Told(xs, key, f, tag)
    ensures Once(FlatMap(xs, f))
  {
    if xs != [] {
      var front, last := xs[..|xs| - 1], xs[|xs| - 1];
      assert last in xs && forall x :: x in front ==> x in xs;
      OnceFlatMap(front, key, f, tag);
      forall u | u in FlatMap(front, f) ensures u !in f(last) {
        FlatMapMember(front, f, u);
        var x :| x in front && u in f(x);
        var i :| 0 <= i < |front| && front[i] == x;
        assert key(xs[i]) != key(xs[|xs| - 1]);
        assert tag(u) == key(x);
        assert u in f(last) ==> tag(u) == key(last);
      }
      OnceConcat(FlatMap(front, f), f(last));
    }
  }

  lemma OnceSortedFlatMap<T, U, K>(xs: seq<T>, order: T -> string, key: T -> K, f: T -> seq<U>, tag: U -> K)
    requires Unique(xs, key) && Told(xs, key, f, tag)
    ensures Once(FlatMap(SortOn(xs, order), f))
  {
    SortPermutes(xs, OnKey(order));
    SortUnique(xs, OnKey(order), key);
    var sorted := SortOn(xs, order);
    assert sorted == SortBy(xs, OnKey(order));
    forall x | x in sorted ensures Once(f(x)) && forall u :: u in f(x) ==> tag(u) == key(x) {
      SameMembers(sorted, xs, x);
    }
    assert Told(sorted, key, f, tag);
    OnceFlatMap(SortOn(xs, order), key, f, tag);
  }

  lemma {:induction false} OnceFilter<T>(xs: seq<T>, p: T -> bool)
    requires Once(xs)
    ensures Once(Filter(xs, p))
  {
    if xs != [] {
      var front, last := xs[..|xs| - 1], xs[|xs| - 1];
      OnceFilter(front, p);
      FilterMember(front, p, last);
      forall i | 0 <= i < |front| ensures front[i] != last { assert xs[i] != xs[|xs| - 1]; }
      OnceConcat(Filter(front, p), [last]);
    }
  }

  lemma {:induction false} OnceSort<T>(xs: seq<T>, less: (T, T) -> bool)
    requires Once(xs)
    ensures Once(SortBy(xs, less))
  {
    SortUnique(xs, less, Same());
  }

  lemma KeysOnce(s: set<string>)
    ensures Unique(SortedKeys(s), Same())
  {
    SortedKeysOnce(s);
  }

  function Field(): Operation -> string { (op: Operation) => op.field }
  function Target(): Operation -> string { (op: Operation) => op.target }
  function Paid(): Operation -> Payload { (op: Operation) => op.payload }

  // ---- kind by kind ------------------------------------------------------

  lemma ConfigOnce(dt: DesiredTopic, lt: Topic)
    ensures Once(FlatMap(SortedKeys(dt.config.Keys), ConfigStep(dt, lt)))
  {
    KeysOnce(dt.config.Keys);
    OnceFlatMap(SortedKeys(dt.config.Keys), Same(), ConfigStep(dt, lt), Field());
  }

  lemma TopicStepOnce(dt: DesiredTopic, live: map<string, Topic>)
    ensures Once(TopicStep(live)(dt))
  {
    if dt.name in live {
      var lt := live[dt.name];
      var x, y, z := PartitionOps(dt, lt), FlatMap(SortedKeys(dt.config.Keys), ConfigStep(dt, lt)), ReplicationOps(dt, lt);
      ConfigOnce(dt, lt);
      forall op | op in y ensures op.action == UpdateTopicConfig { ConfigStepIs(dt, lt, op); }
      OnceConcat(x, y);
      OnceConcat(x + y, z);
    }
  }

  lemma TopicOpsOnce(d: Desired, live: map<string, Topic>)
    requires Unique(d.topics, TopicKey)
    ensures Once(TopicOps(d.topics, live))
  {
    forall dt | dt in d.topics ensures Once(TopicStep(live)(dt)) { TopicStepOnce(dt, live); }
    forall dt, op | dt in d.topics && op in TopicStep(live)(dt) ensures Target()(op) == TopicKey(dt) { TopicStepIs(dt, live, op); }
    OnceSortedFlatMap(d.topics, TopicKey, TopicKey, TopicStep(live), Target());
  }

  /** Additions and prunes of one kind; the payload tells the identities apart. */
  lemma AddPruneOnce<I>(k: AddPruneKind<I>, desired: seq<Item<I>>, keep: seq<Item<I>>, live: seq<I>, paid: I -> Payload)
    requires Unique(desired, ItemPaid(paid)) && Unique(live, paid) && k.addAction != k.pruneAction
    requires forall x, a :: k.emit(x, a).payload == paid(x) && k.emit(x, a).action == a
    ensures Once(AddPruneOps(k, desired, keep, live))
  {
    var add, prune := AddStep(k, Members(live)), PruneStep(k, Ids(keep));
    OnceSortedFlatMap(desired, ItemKey(k.key), ItemPaid(paid), add, Paid());
    OnceSortedFlatMap(live, k.key, paid, prune, Paid());
    var xs, ys := FlatMap(SortOn(desired, ItemKey(k.key)), add), FlatMap(SortOn(live, k.key), prune);
    forall op | op in xs ensures op.action == k.addAction { FlatMapMember(SortOn(desired, ItemKey(k.key)), add, op); }
    forall op | op in ys ensures op.action == k.pruneAction { FlatMapMember(SortOn(live, k.key), prune, op); }
    OnceConcat(xs, ys);
  }

  function ItemPaid<I>(paid: I -> Payload): Item<I> -> Payload { (it: Item<I>) => paid(it.id) }

  function AclPaid(): Acl -> Payload { (a: Acl) => AclPayload(a) }
  function BindingPaid(): Binding -> Payload { (b: Binding) => BindingPayload(b) }

  lemma AclOpsOnce(d: Desired, live: seq<Acl>)
    requires Unique(d.acls, IdOf) && Once(live)
    ensures Once(AclOps(d, live))
  {
    forall i, j | 0 <= i < j < |d.acls| ensures ItemPaid(AclPaid())(d.acls[i]) != ItemPaid(AclPaid())(d.acls[j]) {
      assert IdOf(d.acls[i]) != IdOf(d.acls[j]);
    }
    AddPruneOnce(AclKind(PruneScope(d)), d.acls, PruneDesired(d), live, AclPaid());
  }

  lemma BindingOpsOnce(d: Desired, live: seq<Binding>)
    requires Unique(d.bindings, IdOf) && Once(live)
    ensures Once(BindingOps(d, live))
  {
    forall i, j | 0 <= i < j < |d.bindings| ensures ItemPaid(BindingPaid())(d.bindings[i]) != ItemPaid(BindingPaid())(d.bindings[j]) {
      assert IdOf(d.bindings[i]) != IdOf(d.bindings[j]);
    }
    AddPruneOnce(BindingKind(d.bindingScope), d.bindings, BindingKeepSet(d), live, BindingPaid());
  }

  function EntityTag(): Operation -> Entity {
    (op: Operation) => if op.payload.QuotaPayload? then op.payload.entity else Entity(Absent, Absent, Absent)
  }

  lemma QuotaStepOnce(dq: DesiredQuota, live: map<Entity, map<string, real>>)
    ensures Once(QuotaStep(live)(dq)) && forall op :: op in QuotaStep(live)(dq) ==> EntityTag()(op) == dq.entity
  {
  }

  lemma QuotaOpsOnce(d: Desired, live: map<Entity, map<string, real>>)
    requires Unique(d.quotas, QuotaId)
    ensures Once(QuotaOps(d.quotas, live))
  {
    forall dq | dq in d.quotas
      ensures Once(QuotaStep(live)(dq)) && forall op :: op in QuotaStep(live)(dq) ==> EntityTag()(op) == QuotaId(dq) {
      QuotaStepOnce(dq, live);
    }
    OnceSortedFlatMap(d.quotas, QuotaKey, QuotaId, QuotaStep(live), EntityTag());
  }

  function UserTag(): Operation -> string { (op: Operation) => if op.payload.ScramPayload? then op.payload.id.user else "" }

  lemma UserOpsOnce(d: Desired, scram: map<ScramId, int>)
    requires Unique(d.users, UserKey)
    ensures Once(UserOps(d.users, scram, d.rotatePasswords))
  {
    OnceSortedFlatMap(d.users, UserKey, UserKey, UserStep(scram, d.rotatePasswords), UserTag());
  }

  lemma MirrorKeysOnce(dm: Mirror.DesiredMirror, owner: string -> Mirror.Ownership, live: map<string, string>)
    ensures Once(FlatMap(SortedKeys(dm.config.Keys), Mirror.ConfigStep(dm, owner, live)))
    ensures Once(FlatMap(SortedKeys(dm.config.Keys), Mirror.RejectStep(dm, owner)))
  {
    KeysOnce(dm.config.Keys);
    OnceFlatMap(SortedKeys(dm.config.Keys), Same(), Mirror.ConfigStep(dm, owner, live), Field());
    OnceFlatMap(SortedKeys(dm.config.Keys), Same(), Mirror.RejectStep(dm, owner), Field());
  }

  lemma HealthOnce(dm: Mirror.DesiredMirror, status: string, live: int)
    ensures Once(Mirror.HealthOps(dm, status) + Mirror.ReplicationOps(dm, live))
    ensures forall op :: op in Mirror.HealthOps(dm, status) + Mirror.ReplicationOps(dm, live) ==>
      op.action != Rejected && op.action != UpdateMirrorTopicConfig
  {
    OnceConcat(Mirror.HealthOps(dm, status), Mirror.ReplicationOps(dm, live));
  }

  lemma ConfigActions(dm: Mirror.DesiredMirror, owner: string -> Mirror.Ownership, live: map<string, string>, op: Operation)
    requires op in FlatMap(SortedKeys(dm.config.Keys), Mirror.ConfigStep(dm, owner, live))
    ensures op.action == Rejected || op.action == UpdateMirrorTopicConfig
  {
    FlatMapMember(SortedKeys(dm.config.Keys), Mirror.ConfigStep(dm, owner, live), op);
  }

  lemma LiveOpsOnce(dm: Mirror.DesiredMirror, owner: string -> Mirror.Ownership, m: Mirror.MirrorState, live: Topic)
    ensures Once(Mirror.LiveOps(dm, owner, m, live))
  {
    var xy := Mirror.HealthOps(dm, m.status) + Mirror.ReplicationOps(dm, live.replicationFactor);
    var z := FlatMap(SortedKeys(dm.config.Keys), Mirror.ConfigStep(dm, owner, live.config));
    HealthOnce(dm, m.status, live.replicationFactor);
    MirrorKeysOnce(dm, owner, live.config);
    forall op | op in xy ensures op !in z {
      if op in z {
        ConfigActions(dm, owner, live.config, op);
        assert false;
      }
    }
    OnceConcat(xy, z);
  }

  lemma MirrorOpsOnce(dm: Mirror.DesiredMirror, snapshot: Option<Mirror.Snapshot>)
    ensures Once(Mirror.MirrorOps(dm, snapshot))
  {
    if snapshot.Some? {
      var s := snapshot.value;
      Mirror.StageSplit(dm, s);
      if Mirror.Ready(dm, s) { ClassOpsOnce(dm, s.links[dm.linkName], s); }
    }
  }

  lemma ClassOpsOnce(dm: Mirror.DesiredMirror, link: Mirror.LinkInfo, s: Mirror.Snapshot)
    ensures Once(Mirror.ClassOps(dm, link, s))
  {
    var class_ := Mirror.Classify(s, dm.topicName);
    if class_ == Mirror.AbsentTopic {
      MirrorKeysOnce(dm, Mirror.Owner(link), map[]);
    } else if class_ == Mirror.MirrorTopic && Mirror.SameMirror(dm, s.mirrors[dm.topicName]) {
      LiveOpsOnce(dm, Mirror.Owner(link), s.mirrors[dm.topicName], s.topics[dm.topicName]);
    }
  }

  lemma MirrorTarget(dm: Mirror.DesiredMirror, snapshot: Option<Mirror.Snapshot>, op: Operation)
    requires op in Mirror.MirrorOps(dm, snapshot)
    ensures op.target == dm.topicName && op.source == dm.source
  {
    if snapshot.Some? {
      MirrorVerdicts.MirrorOpFields(dm, snapshot.value);
      assert MirrorVerdicts.Carries(dm, MirrorVerdicts.LiveConfig(dm, snapshot.value), op);
    }
  }

  lemma MirrorPlanOnce(d: Desired, snapshot: Option<Mirror.Snapshot>)
    requires Unique(d.mirrors, MirrorKey)
    ensures Once(MirrorPlan(d.mirrors, snapshot))
  {
    forall dm | dm in d.mirrors
      ensures Once(MirrorStep(snapshot)(dm)) && forall op :: op in MirrorStep(snapshot)(dm) ==> Target()(op) == MirrorKey(dm) {
      MirrorOpsOnce(dm, snapshot);
      forall op | op in Mirror.MirrorOps(dm, snapshot) ensures op.target == dm.topicName { MirrorTarget(dm, snapshot, op); }
    }
    OnceSortedFlatMap(d.mirrors, MirrorKey, MirrorKey, MirrorStep(snapshot), Target());
  }

  // ---- the whole plan ----------------------------------------------------

  /** Which list an operation can be in. */
  datatype Kind = OnTopics | OnAcls | OnQuotas | OnBindings | OnUsers

  function KindOf(a: Action): Kind {
    match a
    case CreateAcl | DeleteAcl => OnAcls
    case SetQuota | UpdateQuota | RemoveQuota => OnQuotas
    case AddRoleBinding | RemoveRoleBinding => OnBindings
    case CreateScramCredential | UpdateScramCredential | RotateScramCredential => OnUsers
    case _ => OnTopics
  }

  ghost predicate All(ops: seq<Operation>, k: Kind) { forall op :: op in ops ==> KindOf(op.action) == k }

  lemma KindOfQuota(dq: DesiredQuota, live: map<Entity, map<string, real>>, op: Operation)
    requires QuotaWants(dq, live, op)
    ensures KindOf(op.action) == OnQuotas
  {
  }

  lemma KindOfUser(du: DesiredUser, scram: map<ScramId, int>, rotate: bool, op: Operation)
    requires UserWants(du, scram, rotate, op)
    ensures KindOf(op.action) == OnUsers
  {
  }

  lemma KindOfAcl(d: Desired, live: seq<Acl>, op: Operation)
    requires AclCalled(d, live, op) || AclDropped(d, live, op)
    ensures KindOf(op.action) == OnAcls
  {
  }

  lemma KindOfBinding(d: Desired, live: seq<Binding>, op: Operation)
    requires BindingCalled(d, live, op) || BindingDropped(d, live, op)
    ensures KindOf(op.action) == OnBindings
  {
  }

  lemma AclKinds(d: Desired, live: seq<Acl>)
    ensures All(AclOps(d, live), OnAcls)
  {
    forall op | op in AclOps(d, live) ensures KindOf(op.action) == OnAcls {
      AclOpsAre(d, live, op);
      KindOfAcl(d, live, op);
    }
  }

  lemma BindingKinds(d: Desired, live: seq<Binding>)
    ensures All(BindingOps(d, live), OnBindings)
  {
    forall op | op in BindingOps(d, live) ensures KindOf(op.action) == OnBindings {
      BindingOpsAre(d, live, op);
      KindOfBinding(d, live, op);
    }
  }

  lemma QuotaKinds(d: Desired, live: map<Entity, map<string, real>>)
    ensures All(QuotaOps(d.quotas, live), OnQuotas)
  {
    forall op | op in QuotaOps(d.quotas, live) ensures KindOf(op.action) == OnQuotas {
      QuotaOpsAre(d, live, op);
      var dq :| dq in d.quotas && QuotaWants(dq, live, op);
      KindOfQuota(dq, live, op);
    }
  }

  lemma UserKinds(d: Desired, scram: map<ScramId, int>)
    ensures All(UserOps(d.users, scram, d.rotatePasswords), OnUsers)
  {
    forall op | op in UserOps(d.users, scram, d.rotatePasswords) ensures KindOf(op.action) == OnUsers {
      UserOpsAre(d, scram, op);
      var du :| du in d.users && UserWants(du, scram, d.rotatePasswords, op);
      KindOfUser(du, scram, d.rotatePasswords, op);
    }
  }

  /** From a declared topic. */
  ghost predicate FromTopics(d: Desired, ops: seq<Operation>) {
    forall op :: op in ops ==> KindOf(op.action) == OnTopics && exists dt :: dt in d.topics && op.source == dt.source
  }

  /** From a declared mirror. */
  ghost predicate FromMirrors(d: Desired, ops: seq<Operation>) {
    forall op :: op in ops ==> KindOf(op.action) == OnTopics && exists dm :: dm in d.mirrors && op.source == dm.source
  }

  lemma TopicOpsFrom(d: Desired, live: map<string, Topic>)
    ensures FromTopics(d, TopicOps(d.topics, live))
  {
    forall op | op in TopicOps(d.topics, live)
      ensures KindOf(op.action) == OnTopics && exists dt :: dt in d.topics && op.source == dt.source {
      TopicOpsAre(d, live, op);
    }
  }

  lemma StorelessKind(op: Operation)
    requires Storeless(op)
    ensures KindOf(op.action) == OnTopics
  {
  }

  lemma MirrorKind(dm: Mirror.DesiredMirror, snapshot: Option<Mirror.Snapshot>, op: Operation)
    requires op in Mirror.MirrorOps(dm, snapshot)
    ensures KindOf(op.action) == OnTopics
  {
    MirrorOpsStoreless(dm, snapshot, op);
    StorelessKind(op);
  }

  lemma MirrorPlanFrom(d: Desired, snapshot: Option<Mirror.Snapshot>)
    ensures FromMirrors(d, MirrorPlan(d.mirrors, snapshot))
  {
    forall op | op in MirrorPlan(d.mirrors, snapshot)
      ensures KindOf(op.action) == OnTopics && exists dm :: dm in d.mirrors && op.source == dm.source {
      MirrorOpsAre(d, snapshot, op);
      var dm :| dm in d.mirrors && op in Mirror.MirrorOps(dm, snapshot);
      MirrorTarget(dm, snapshot, op);
      MirrorKind(dm, snapshot, op);
    }
  }

  function Findings(guards: map<string, Operation>): seq<Operation> { FlatMap(SortedKeys(guards.Keys), GuardStep(guards)) }

  lemma FindingOf(d: Desired, live: Live, t: string)
    requires Unique(d.topics, TopicKey) && t in Guards(d, live)
    ensures Guards(d, live)[t].target == t && KindOf(Guards(d, live)[t].action) == OnTopics
    ensures exists dt :: dt in d.topics && Guards(d, live)[t].source == dt.source
  {
    OrderIndependence.GuardMapLookup(d.topics, live.mirrors.value, t);
  }

  lemma FindingsOnce(d: Desired, live: Live)
    requires Unique(d.topics, TopicKey)
    ensures Once(Findings(Guards(d, live))) && FromTopics(d, Findings(Guards(d, live)))
    ensures forall op :: op in Findings(Guards(d, live)) ==> op.target in Guards(d, live)
  {
    var guards := Guards(d, live);
    var keys, f := SortedKeys(guards.Keys), GuardStep(guards);
    KeysOnce(guards.Keys);
    SortedKeysMembers(guards.Keys);
    forall t | t in keys ensures forall op :: op in f(t) ==> op.target == t { FindingOf(d, live, t); }
    OnceFlatMap(keys, Same(), f, Target());
    forall op | op in Findings(guards)
      ensures op.target in guards && KindOf(op.action) == OnTopics && exists dt :: dt in d.topics && op.source == dt.source {
      FlatMapMember(keys, f, op);
      var t :| t in keys && op in f(t);
      FindingOf(d, live, t);
    }
  }

  /** Topic operations and findings, as the guards leave them. */
  function OnTopic(d: Desired, live: Live): seq<Operation> {
    var guards := Guards(d, live);
    if guards == map[] then TopicOps(d.topics, TopicMap(live.topics))
    else Filter(TopicOps(d.topics, TopicMap(live.topics)), KeepTopicOp(guards)) + Findings(guards)
  }

  function OnAcl(d: Desired, live: Live): seq<Operation> {
    var guards := Guards(d, live);
    if guards == map[] then AclOps(d, live.acls) else Filter(AclOps(d, live.acls), KeepAclOp(guards))
  }

  lemma TopicsOnce(d: Desired, live: Live)
    requires Unique(d.topics, TopicKey)
    ensures Once(OnTopic(d, live)) && FromTopics(d, OnTopic(d, live))
  {
    var guards, ops := Guards(d, live), TopicOps(d.topics, TopicMap(live.topics));
    TopicOpsOnce(d, TopicMap(live.topics));
    TopicOpsFrom(d, TopicMap(live.topics));
    if guards != map[] {
      FindingsOnce(d, live);
      OnceFilter(ops, KeepTopicOp(guards));
      forall op | op in Filter(ops, KeepTopicOp(guards)) ensures op in ops && op.target !in guards {
        KeptTopicOps(guards, ops, op);
        TopicOpsAre(d, TopicMap(live.topics), op);
      }
      OnceConcat(Filter(ops, KeepTopicOp(guards)), Findings(guards));
    }
  }

  lemma AclsOnce(d: Desired, live: Live)
    requires Unique(d.acls, IdOf) && Once(live.acls)
    ensures Once(OnAcl(d, live)) && All(OnAcl(d, live), OnAcls)
  {
    var guards, ops := Guards(d, live), AclOps(d, live.acls);
    AclOpsOnce(d, live.acls);
    AclKinds(d, live.acls);
    if guards != map[] {
      OnceFilter(ops, KeepAclOp(guards));
      forall op | op in Filter(ops, KeepAclOp(guards)) ensures op in ops { KeptAclOps(guards, ops, op); }
    }
  }

  /** Six lists whose members cannot meet. */
  lemma SixApart(a: seq<Operation>, b: seq<Operation>, c: seq<Operation>, e: seq<Operation>, f: seq<Operation>, g: seq<Operation>)
    requires Once(a) && Once(b) && Once(c) && Once(e) && Once(f) && Once(g)
    requires All(a, OnTopics) && All(b, OnAcls) && All(c, OnQuotas) && All(e, OnBindings) && All(f, OnUsers) && All(g, OnTopics)
    requires Apart(a, g)
    ensures Once(a + b + c + e + f + g)
  {
    OnceConcat(a, b);
    OnceConcat(a + b, c);
    OnceConcat(a + b + c, e);
    OnceConcat(a + b + c + e, f);
    OnceConcat(a + b + c + e + f, g);
  }

  lemma SourcesApart(d: Desired, xs: seq<Operation>, ys: seq<Operation>)
    requires FromTopics(d, xs) && FromMirrors(d, ys)
    requires forall dt, dm :: dt in d.topics && dm in d.mirrors ==> dt.source != dm.source
    ensures Apart(xs, ys)
  {
  }

  lemma PlannedIs(d: Desired, live: Live)
    ensures Planned(d, live) == OnTopic(d, live) + OnAcl(d, live) + QuotaOps(d.quotas, QuotaMap(live.quotas))
      + BindingOps(d, live.bindings) + UserOps(d.users, ScramMap(live.credentials), d.rotatePasswords)
      + MirrorPlan(d.mirrors, live.mirrors)
  {
  }

  /** For desired lists with unique identities, and topics and mirrors from
      different manifests, no operation is planned twice. */
  lemma PlannedOnce(d: Desired, live: Live)
    requires WellFormed(d) && Unique(d.mirrors, MirrorKey) && Once(live.acls) && Once(live.bindings)
    requires forall dt, dm :: dt in d.topics && dm in d.mirrors ==> dt.source != dm.source
    ensures Once(Compute(d, live))
  {
    TopicsOnce(d, live);
    AclsOnce(d, live);
    QuotaOpsOnce(d, QuotaMap(live.quotas));
    BindingOpsOnce(d, live.bindings);
    UserOpsOnce(d, ScramMap(live.credentials));
    MirrorPlanOnce(d, live.mirrors);
    MirrorPlanFrom(d, live.mirrors);
    QuotaKinds(d, QuotaMap(live.quotas));
    BindingKinds(d, live.bindings);
    UserKinds(d, ScramMap(live.credentials));
    SourcesApart(d, OnTopic(d, live), MirrorPlan(d.mirrors, live.mirrors));
    SixApart(OnTopic(d, live), OnAcl(d, live), QuotaOps(d.quotas, QuotaMap(live.quotas)), BindingOps(d, live.bindings),
             UserOps(d.users, ScramMap(live.credentials), d.rotatePasswords), MirrorPlan(d.mirrors, live.mirrors));
    PlannedIs(d, live);
    OnceSort(Planned(d, live), OpLess);
  }
}
