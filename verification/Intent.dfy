/** What a reconciliation is for: the intended content of every cell, stated
    without reference to operations, and the plan's agreement with it. */
module Intent {
  import opened Basics
  import opened Model
  import opened Operations
  import opened Store
  import opened Executor
  import opened Diff
  import Mirror

  function FindTopic(d: Desired, t: string): Option<DesiredTopic> { Lookup(d.topics, TopicKey, t) }
  function FindQuota(d: Desired, e: Entity): Option<DesiredQuota> { Lookup(d.quotas, QuotaId, e) }
  function FindUser(d: Desired, u: string): Option<DesiredUser> { Lookup(d.users, UserKey, u) }
  function FindAcl(d: Desired, a: Acl): Option<Item<Acl>> { Lookup(d.acls, IdOf, a) }
  function FindBinding(d: Desired, b: Binding): Option<Item<Binding>> { Lookup(d.bindings, IdOf, b) }

  predicate Acts(m: Mode) { m != DetectOnly && m != ObserveOnly }

  predicate Consents(info: ScopeInfo, ap: Approvals) { Acts(info.mode) && (ap.prune || info.prune) }

  /** In scope, not kept by any resource, and with consent. */
  predicate PrunesAcl(d: Desired, ap: Approvals, a: Acl) {
    AclScope(a) in PruneScope(d) && a !in Ids(PruneDesired(d)) && Consents(PruneScope(d)[AclScope(a)], ap)
  }
  predicate PrunesBinding(d: Desired, ap: Approvals, b: Binding) {
    BindingScope(b) in d.bindingScope && b !in Ids(BindingKeepSet(d)) && Consents(d.bindingScope[BindingScope(b)], ap)
  }

  predicate AddsAcl(d: Desired, a: Acl) { FindAcl(d, a).Some? && Acts(FindAcl(d, a).value.mode) }
  predicate AddsBinding(d: Desired, b: Binding) { FindBinding(d, b).Some? && Acts(FindBinding(d, b).value.mode) }

  /** The mechanism a mechanism change replaces: the least one, when the
      declared one is absent. An empty name stands for none. */
  predicate Replaced(d: Desired, s: State, id: ScramId) {
    && FindUser(d, id.user).Some?
    && FindUser(d, id.user).value.id !in s.scram
    && id in s.scram && id.mechanism != ""
    && id.mechanism in Mechanisms(s.scram, id.user)
    && id.mechanism == Least(Mechanisms(s.scram, id.user))
  }

  /** The content of a cell after a complete reconciliation under `ap`. */
  function Goal(d: Desired, ap: Approvals, s: State, c: Cell): Option<Value> {
    match c
    case PartitionsCell(t) =>
      var dt := FindTopic(d, t);
      if dt.None? || !Acts(dt.value.mode) then At(s, c)
      else if t !in s.topics then Some(Count(dt.value.partitions))
      else if ap.destructive && !Ignores(dt.value, "partitions") && dt.value.partitions > s.topics[t].partitions
      then Some(Count(dt.value.partitions))
      else At(s, c)
    case ReplicasCell(t) =>
      var dt := FindTopic(d, t);
      if dt.None? || !Acts(dt.value.mode) || t in s.topics then At(s, c) else Some(Count(dt.value.replicationFactor))
    case ConfigCell(t, k) =>
      var dt := FindTopic(d, t);
      if dt.None? || !Acts(dt.value.mode) then At(s, c)
      else if k in dt.value.config && !(t in s.topics && Ignores(dt.value, "config." + k)) then Some(Text(dt.value.config[k]))
      else At(s, c)
    case AclCell(a) => Held(if a in s.acls then !PrunesAcl(d, ap, a) else AddsAcl(d, a))
    case BindingCell(b) => Held(if b in s.bindings then !PrunesBinding(d, ap, b) else AddsBinding(d, b))
    case QuotaCell(e, k) =>
      var dq := FindQuota(d, e);
      if dq.None? || !Acts(dq.value.mode) then At(s, c)
      else if k in dq.value.limits then Some(Rate(dq.value.limits[k]))
      else if ap.destructive then None
      else At(s, c)
    case ScramCell(id) =>
      var du := FindUser(d, id.user);
      if du.None? then At(s, c)
      else if id == du.value.id then
        if id in s.scram && IterationsMatch(du.value, s.scram[id]) && !d.rotatePasswords then At(s, c)
        else Some(Count(EffectiveIterations(du.value.iterations)))
      else if Replaced(d, s, id) then None
      else At(s, c)
  }

  /** What validation guarantees of a desired state. */
  ghost predicate WellFormed(d: Desired) {
    && Unique(d.topics, TopicKey) && Unique(d.acls, IdOf) && Unique(d.bindings, IdOf)
    && Unique(d.quotas, QuotaId) && Unique(d.users, UserKey)
    && (forall dq :: dq in d.quotas ==> dq.limits != map[])
  }

  // ---- where a planned operation comes from -------------------------------

  datatype Origin =
    | FromTopic(dt: DesiredTopic)
    | FromAclAdd(acl: Item<Acl>) | FromAclPrune(live: Acl)
    | FromBindingAdd(binding: Item<Binding>) | FromBindingPrune(bound: Binding)
    | FromQuota(dq: DesiredQuota)
    | FromUser(du: DesiredUser)
    | FromFinding

  /** Operations that make no client call on the store. */
  predicate Storeless(op: Operation) { op.action == Rejected || op.action == StateReadError || Mirrorish(op.action) }

  predicate Mirrorish(a: Action) {
    a == CreateMirrorTopic || a == UpdateMirrorTopicConfig || a == MirrorTopicUnhealthy || a == MirrorTopicStopping
    || a == MirrorTopicPromoted || a == MirrorTopicProgressing || a == UnsupportedReplicationFactorChange
  }

  predicate Derived(d: Desired, s: State, op: Operation, o: Origin) {
    match o
    case FromTopic(dt) => dt in d.topics && op in TopicStep(s.topics)(dt)
    case FromAclAdd(it) => it in d.acls && it.id !in s.acls && op == AddOp(AclKind(PruneScope(d)), it)
    case FromAclPrune(a) =>
      && a in s.acls && AclScope(a) in PruneScope(d) && a !in Ids(PruneDesired(d))
      && op == PruneOp(AclKind(PruneScope(d)), a, PruneScope(d)[AclScope(a)])
    case FromBindingAdd(it) => it in d.bindings && it.id !in s.bindings && op == AddOp(BindingKind(d.bindingScope), it)
    case FromBindingPrune(b) =>
      && b in s.bindings && BindingScope(b) in d.bindingScope && b !in Ids(BindingKeepSet(d))
      && op == PruneOp(BindingKind(d.bindingScope), b, d.bindingScope[BindingScope(b)])
    case FromQuota(dq) => dq in d.quotas && op in QuotaStep(s.quotas)(dq)
    case FromUser(du) => du in d.users && op in UserStep(s.scram, d.rotatePasswords)(du)
    case FromFinding => Storeless(op)
  }

  lemma SortedFlatMapMember<T>(xs: seq<T>, key: T -> string, f: T -> seq<Operation>, op: Operation)
    ensures op in FlatMap(SortOn(xs, key), f) <==> exists x :: x in xs && op in f(x)
  {
    SortPermutes(xs, OnKey(key));
    var sorted := SortOn(xs, key);
    FlatMapMember(sorted, f, op);
    if x :| x in xs && op in f(x) { assert x in sorted && op in f(x); }
    if x :| x in sorted && op in f(x) { assert x in xs && op in f(x); }
  }

  /** Exactly the additions and prunes of one kind. */
  lemma AddPruneMember<I>(k: AddPruneKind<I>, desired: seq<Item<I>>, keep: seq<Item<I>>, live: seq<I>, op: Operation)
    ensures op in AddPruneOps(k, desired, keep, live) <==>
      || (exists it :: it in desired && it.id !in live && op == AddOp(k, it))
      || (exists x :: x in live && k.cover(x).Some? && x !in Ids(keep) && op == PruneOp(k, x, k.cover(x).value))
  {
    var add, prune := AddStep(k, Members(live)), PruneStep(k, Ids(keep));
    SortedFlatMapMember(desired, ItemKey(k.key), add, op);
    SortedFlatMapMember(live, k.key, prune, op);
    forall it | it in desired ensures op in add(it) <==> it.id !in live && op == AddOp(k, it) {}
    forall x | x in live ensures op in prune(x) <==> k.cover(x).Some? && x !in Ids(keep) && op == PruneOp(k, x, k.cover(x).value) {}
  }

  lemma AclOrigin(d: Desired, live: Live, op: Operation) returns (o: Origin)
    requires op in AclOps(d, live.acls)
    ensures (o.FromAclAdd? || o.FromAclPrune?) && Derived(d, StateOf(live), op, o)
  {
    var k := AclKind(PruneScope(d));
    AddPruneMember(k, d.acls, PruneDesired(d), live.acls, op);
    if it :| it in d.acls && it.id !in live.acls && op == AddOp(k, it) {
      o := FromAclAdd(it);
    } else {
      var x :| x in live.acls && k.cover(x).Some? && x !in Ids(PruneDesired(d)) && op == PruneOp(k, x, k.cover(x).value);
      o := FromAclPrune(x);
    }
  }

  lemma BindingOrigin(d: Desired, live: Live, op: Operation) returns (o: Origin)
    requires op in BindingOps(d, live.bindings)
    ensures (o.FromBindingAdd? || o.FromBindingPrune?) && Derived(d, StateOf(live), op, o)
  {
    var k := BindingKind(d.bindingScope);
    AddPruneMember(k, d.bindings, BindingKeepSet(d), live.bindings, op);
    if it :| it in d.bindings && it.id !in live.bindings && op == AddOp(k, it) {
      o := FromBindingAdd(it);
    } else {
      var x :| x in live.bindings && k.cover(x).Some? && x !in Ids(BindingKeepSet(d)) && op == PruneOp(k, x, k.cover(x).value);
      o := FromBindingPrune(x);
    }
  }

  lemma MirrorOpsStoreless(dm: Mirror.DesiredMirror, snapshot: Option<Mirror.Snapshot>, op: Operation)
    requires op in Mirror.MirrorOps(dm, snapshot)
    ensures Storeless(op)
  {
    if snapshot.Some? {
      var s := snapshot.value;
      Mirror.StageSplit(dm, s);
      if Mirror.Ready(dm, s) {
        var owner := Mirror.Owner(s.links[dm.linkName]);
        var class_ := Mirror.Classify(s, dm.topicName);
        if class_ == Mirror.AbsentTopic {
          Mirror.NoRejections(dm, owner);
        } else if class_ == Mirror.MirrorTopic && Mirror.SameMirror(dm, s.mirrors[dm.topicName]) {
          LiveOpsStoreless(dm, owner, s.mirrors[dm.topicName], s.topics[dm.topicName], op);
        }
      }
    }
  }

  lemma MirrorPlanStoreless(d: Desired, live: Live, op: Operation)
    requires op in MirrorPlan(d.mirrors, live.mirrors)
    ensures Storeless(op)
  {
    SortedFlatMapMember(d.mirrors, MirrorKey, MirrorStep(live.mirrors), op);
    var dm :| dm in d.mirrors && op in MirrorStep(live.mirrors)(dm);
    MirrorOpsStoreless(dm, live.mirrors, op);
  }

  lemma LiveOpsStoreless(dm: Mirror.DesiredMirror, owner: string -> Mirror.Ownership, m: Mirror.MirrorState, live: Topic, op: Operation)
    requires op in Mirror.LiveOps(dm, owner, m, live)
    ensures Storeless(op)
  {
    var keys, f := SortedKeys(dm.config.Keys), Mirror.ConfigStep(dm, owner, live.config);
    if op in FlatMap(keys, f) {
      FlatMapMember(keys, f, op);
    }
  }

  lemma {:induction false} GuardMapStoreless(topics: seq<DesiredTopic>, snapshot: Mirror.Snapshot)
    ensures forall t :: t in GuardMap(topics, snapshot) ==> Storeless(GuardMap(topics, snapshot)[t])
  {
    if topics != [] { GuardMapStoreless(topics[..|topics| - 1], snapshot); }
  }

  lemma GuardedOrigin(d: Desired, live: Live, op: Operation) returns (o: Origin)
    requires op in GuardedOps(d, live)
    ensures Derived(d, StateOf(live), op, o)
  {
    var guards := Guards(d, live);
    var topicOps, aclOps := TopicOps(d.topics, TopicMap(live.topics)), AclOps(d, live.acls);
    FilterMember(topicOps, KeepTopicOp(guards), op);
    FilterMember(aclOps, KeepAclOp(guards), op);
    if op in topicOps {
      o := TopicOrigin(d, live, op);
    } else if op in aclOps {
      o := AclOrigin(d, live, op);
    } else {
      FlatMapMember(SortedKeys(guards.Keys), GuardStep(guards), op);
      GuardMapStoreless(d.topics, live.mirrors.value);
      o := FromFinding;
    }
  }

  lemma TopicOrigin(d: Desired, live: Live, op: Operation) returns (o: Origin)
    requires op in TopicOps(d.topics, TopicMap(live.topics))
    ensures o.FromTopic? && Derived(d, StateOf(live), op, o)
  {
    SortedFlatMapMember(d.topics, TopicKey, TopicStep(TopicMap(live.topics)), op);
    var dt :| dt in d.topics && op in TopicStep(TopicMap(live.topics))(dt);
    o := FromTopic(dt);
  }

  lemma QuotaOrigin(d: Desired, live: Live, op: Operation) returns (o: Origin)
    requires op in QuotaOps(d.quotas, QuotaMap(live.quotas))
    ensures o.FromQuota? && Derived(d, StateOf(live), op, o)
  {
    SortedFlatMapMember(d.quotas, QuotaKey, QuotaStep(QuotaMap(live.quotas)), op);
    var dq :| dq in d.quotas && op in QuotaStep(QuotaMap(live.quotas))(dq);
    o := FromQuota(dq);
  }

  lemma UserOrigin(d: Desired, live: Live, op: Operation) returns (o: Origin)
    requires op in UserOps(d.users, ScramMap(live.credentials), d.rotatePasswords)
    ensures o.FromUser? && Derived(d, StateOf(live), op, o)
  {
    SortedFlatMapMember(d.users, UserKey, UserStep(ScramMap(live.credentials), d.rotatePasswords), op);
    var du :| du in d.users && op in UserStep(ScramMap(live.credentials), d.rotatePasswords)(du);
    o := FromUser(du);
  }

  lemma ComputeMembers(d: Desired, live: Live, op: Operation)
    ensures op in Compute(d, live) <==>
      || op in GuardedOps(d, live) || op in QuotaOps(d.quotas, QuotaMap(live.quotas))
      || op in BindingOps(d, live.bindings) || op in UserOps(d.users, ScramMap(live.credentials), d.rotatePasswords)
      || op in MirrorPlan(d.mirrors, live.mirrors)
  {
    SortPermutes(Planned(d, live), OpLess);
  }

  /** Every planned operation has an origin. */
  lemma PlannedOrigin(d: Desired, live: Live, op: Operation) returns (o: Origin)
    requires op in Compute(d, live)
    ensures Derived(d, StateOf(live), op, o)
  {
    ComputeMembers(d, live, op);
    if op in GuardedOps(d, live) {
      o := GuardedOrigin(d, live, op);
    } else if op in QuotaOps(d.quotas, QuotaMap(live.quotas)) {
      o := QuotaOrigin(d, live, op);
    } else if op in BindingOps(d, live.bindings) {
      o := BindingOrigin(d, live, op);
    } else if op in UserOps(d.users, ScramMap(live.credentials), d.rotatePasswords) {
      o := UserOrigin(d, live, op);
    } else {
      MirrorPlanStoreless(d, live, op);
      o := FromFinding;
    }
  }

  /** Without a mirror snapshot, every origin is planned. */
  lemma OriginPlanned(d: Desired, live: Live, op: Operation, o: Origin)
    requires live.mirrors.None? && !o.FromFinding? && Derived(d, StateOf(live), op, o)
    ensures op in Compute(d, live)
  {
    ComputeMembers(d, live, op);
    match o
    case FromTopic(dt) => SortedFlatMapMember(d.topics, TopicKey, TopicStep(TopicMap(live.topics)), op);
    case FromAclAdd(_) => AddPruneMember(AclKind(PruneScope(d)), d.acls, PruneDesired(d), live.acls, op);
    case FromAclPrune(a) =>
      assert AclKind(PruneScope(d)).cover(a) == Some(PruneScope(d)[AclScope(a)]);
      AddPruneMember(AclKind(PruneScope(d)), d.acls, PruneDesired(d), live.acls, op);
    case FromBindingAdd(_) => AddPruneMember(BindingKind(d.bindingScope), d.bindings, BindingKeepSet(d), live.bindings, op);
    case FromBindingPrune(b) =>
      assert BindingKind(d.bindingScope).cover(b) == Some(d.bindingScope[BindingScope(b)]);
      AddPruneMember(BindingKind(d.bindingScope), d.bindings, BindingKeepSet(d), live.bindings, op);
    case FromQuota(dq) => SortedFlatMapMember(d.quotas, QuotaKey, QuotaStep(QuotaMap(live.quotas)), op);
    case FromUser(du) => SortedFlatMapMember(d.users, UserKey, UserStep(ScramMap(live.credentials), d.rotatePasswords), op);
  }
}
