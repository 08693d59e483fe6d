/** The import as the inverse of compilation: planning the imported manifests
    against the state they came from yields no operation. */
module DriftFree {
  import opened Basics
  import opened Model
  import opened Operations
  import opened ManagedSet
  import opened Access
  import opened Rbac
  import opened Manifests
  import opened Store
  import opened Diff
  import opened ImportPolicies
  import opened ImportRbac
  import opened ImportClients
  import opened Importer

  datatype Result = Result(topics: seq<KafkaTopic>, access: AccessManifests, quotas: seq<KafkaQuota>, users: seq<KafkaUser>)

  datatype Options = Options(connecting: string, includeConnecting: bool, placeholder: string -> PasswordRef)

  // ---- compiling the manifests -------------------------------------------

  /** The declared replication factor, or the cluster default where neither it
      nor a placement constraint is given. */
  function ReplicationOf(tp: KafkaTopic, defaultRf: Option<int>): int {
    if tp.replicationFactor.Some? then tp.replicationFactor.value
    else if PLACEMENT !in tp.config && defaultRf.Some? then defaultRf.value
    else 0
  }

  function DesiredTopicOf(tp: KafkaTopic, defaultRf: Option<int>): DesiredTopic {
    DesiredTopic(Source("KafkaTopic", "", tp.name), tp.Resolved(), tp.partitions, ReplicationOf(tp, defaultRf), tp.config, Enforce, [])
  }

  /** Every grant acts, and none consents to pruning. */
  ghost predicate Effective<I>(items: seq<Item<I>>) {
    forall it :: it in items ==> it.mode != DetectOnly && it.mode != ObserveOnly && !it.prune
  }

  lemma DedupEffective<I>(items: seq<Item<I>>)
    requires Effective(items)
    ensures Effective(Dedup(items))
  {
    MergeLaw(items);
    forall e | e in Dedup(items) ensures e.mode != DetectOnly && e.mode != ObserveOnly && !e.prune {
      var i :| 0 <= i < |Dedup(items)| && Dedup(items)[i] == e;
      assert MergedFrom(items, Dedup(items)[i]);
    }
  }

  lemma DesiredAclsEffective(items: seq<Item<Acl>>)
    requires Effective(items)
    ensures Effective(DesiredAcls(items).out)
  {
    DesiredAclsLaw(items);
    forall it | it in Filter(items, Accepted(items)) ensures it in items { FilterMember(items, Accepted(items), it); }
    DedupEffective(Filter(items, Accepted(items)));
  }

  method CompileAcls(topics: seq<KafkaTopic>, policies: seq<Policy>, fromTopics: bool) returns (items: seq<Item<Acl>>)
    ensures Effective(items)
    ensures IdSet(items) == (if fromTopics then Granted(Each(topics)) else {}) + PolicySet(policies)
  {
    items := [];
    if fromTopics {
      for i := 0 to |topics|
        invariant IdSet(items) == Granted(Each(topics[..i])) && Effective(items)
      {
        assert topics[..i + 1] == topics[..i] + [topics[i]];
        var acls := CompileTopic(topics[i].Resolved(), topics[i].access);
        var source := Source("KafkaTopic", "", topics[i].name);
        StampedIds(acls, Enforce, false, source);
        GrantedSnoc(topics[..i], topics[i]);
        IdSetConcat(items, Stamped(acls, Enforce, false, source));
        items := items + Stamped(acls, Enforce, false, source);
      }
      assert topics[..|topics|] == topics;
    }
    ghost var fromAccess := IdSet(items);
    for i := 0 to |policies|
      invariant IdSet(items) == fromAccess + PolicySet(policies[..i]) && Effective(items)
    {
      assert policies[..i + 1] == policies[..i] + [policies[i]];
      var acls := CompilePolicy(policies[i].rules);
      var source := Source("KafkaAccessPolicy", "", policies[i].name);
      StampedIds(acls, Enforce, false, source);
      PolicySetSnoc(policies[..i], policies[i]);
      IdSetConcat(items, Stamped(acls, Enforce, false, source));
      items := items + Stamped(acls, Enforce, false, source);
    }
    assert policies[..|policies|] == policies;
  }

  method DesiredAclsOf(topics: seq<KafkaTopic>, policies: seq<Policy>, fromTopics: bool) returns (r: Option<seq<Item<Acl>>>)
    ensures var compiled := (if fromTopics then Granted(Each(topics)) else {}) + PolicySet(policies);
      && (r.Some? <==> ConflictFree(compiled))
      && (r.Some? ==> IdSet(r.value) == compiled && Effective(r.value))
  {
    var items := CompileAcls(topics, policies, fromTopics);
    NoRefusals(items);
    var out, refused := BuildDesiredAcls(items);
    if |refused| > 0 { return None; }
    forall a ensures a in IdSet(out) <==> a in IdSet(items) { DedupIds(items, a); }
    DesiredAclsEffective(items);
    r := Some(out);
  }

  /** Explicit manifests first, then topic access, as the pipeline does. */
  method DesiredBindingsOf(topics: seq<KafkaTopic>, ms: seq<RoleBindingManifest>, c: Clusters) returns (r: Option<seq<Item<Binding>>>)
    ensures r.Some? <==> (topics == [] || c.kafka != "") && AllResolve(ms, c) && NoRivals(AllItems(ms, c))
    ensures r.Some? ==> IdSet(r.value) == Bound(Each(topics), c) + IdSet(AllItems(ms, c))
  {
    var explicit := CompileManifests(ms, c);
    if explicit.None? { return None; }
    var derived := CompileTopicBindings(topics, c);
    if derived.None? { return None; }
    var items := explicit.value + derived.value;
    IdSetConcat(explicit.value, derived.value);
    AllExplicit(ms, c);
    RivalsReported(explicit.value, derived.value);
    var out, refused := BuildDesiredBindings(items);
    if |refused| > 0 { return None; }
    AllIdsSurvive(items);
    SortedIds(DesiredBindings(items).out);
    r := Some(out);
  }

  /** With explicit manifests first, exactly their rivalries are refused. */
  lemma RivalsReported(explicit: seq<Item<Binding>>, derived: seq<Item<Binding>>)
    requires OnlyExplicit(explicit) && OnlyDerived(derived)
    ensures DesiredBindings(explicit + derived).refused == [] <==> NoRivals(explicit)
  {
    CollisionsReported(explicit + derived);
    if NoRivals(explicit) { MixedNoRivals(derived, explicit); }
    if NoRivals(explicit + derived) {
      forall x | x in explicit ensures x in explicit + derived {}
    }
  }

  function TopicsOf(topics: seq<KafkaTopic>, defaultRf: Option<int>): seq<DesiredTopic> {
    seq(|topics|, i requires 0 <= i < |topics| => DesiredTopicOf(topics[i], defaultRf))
  }
  function QuotasOf(quotas: seq<KafkaQuota>): seq<DesiredQuota> {
    seq(|quotas|, i requires 0 <= i < |quotas| => CompileQuota(quotas[i], Unattributed))
  }
  function UsersOf(users: seq<KafkaUser>): seq<DesiredUser> {
    seq(|users|, i requires 0 <= i < |users| => CompileUser(users[i]))
  }

  /** What the manifests' ACL side compiles to. */
  ghost function CompiledAcls(r: Result, on: Backends): set<Acl> reads Each(r.topics) {
    (if on.acl then Granted(Each(r.topics)) else {}) + PolicySet(r.access.policies)
  }

  /** The manifests compile without an error. */
  ghost predicate Compiles(r: Result, on: Backends, cfg: Option<Clusters>) reads Each(r.topics) {
    ConflictFree(CompiledAcls(r, on)) && BindingsCompile(r, on, cfg)
  }

  ghost predicate BindingsCompile(r: Result, on: Backends, cfg: Option<Clusters>) {
    on.rbac ==>
      && cfg.Some? && (r.topics == [] || cfg.value.kafka != "") && AllResolve(r.access.roleBindings, cfg.value)
      && NoRivals(AllItems(r.access.roleBindings, cfg.value))
  }

  /** The desired state stands for exactly the manifests. */
  ghost predicate CompiledFrom(d: Desired, r: Result, on: Backends, cfg: Option<Clusters>, defaultRf: Option<int>) reads Each(r.topics) {
    && d.topics == TopicsOf(r.topics, defaultRf) && d.quotas == QuotasOf(r.quotas) && d.users == UsersOf(r.users)
    && d.mirrors == [] && !d.rotatePasswords && d.pruneAggregate.None? && d.bindingKeep.None?
    && d.scope == Scope(d.acls, AclScope) && d.bindingScope == Scope(d.bindings, BindingScope)
    && IdSet(d.acls) == CompiledAcls(r, on) && Effective(d.acls)
    && (!on.rbac ==> d.bindings == [])
    && (on.rbac ==> cfg.Some? && IdSet(d.bindings) == Bound(Each(r.topics), cfg.value) + IdSet(AllItems(r.access.roleBindings, cfg.value)))
  }

  /** The desired state the pipeline assembles; `None` on a compile error. */
  method CompilePlan(r: Result, on: Backends, cfg: Option<Clusters>, defaultRf: Option<int>) returns (d: Option<Desired>)
    requires (!on.acl ==> r.access.policies == []) && (!on.rbac ==> r.access.roleBindings == [])
    ensures d.Some? <==> Compiles(r, on, cfg)
    ensures d.Some? ==> CompiledFrom(d.value, r, on, cfg, defaultRf)
  {
    var acls := DesiredAclsOf(r.topics, r.access.policies, on.acl);
    if acls.None? { return None; }
    var bindings := BindingsOf(r, on, cfg);
    if bindings.None? { return None; }
    var scope := BuildScope(acls.value, AclScope);
    var bindingScope := BuildScope(bindings.value, BindingScope);
    d := Some(Desired(TopicsOf(r.topics, defaultRf), [], acls.value, scope, QuotasOf(r.quotas), UsersOf(r.users), false,
                      bindings.value, bindingScope, None, None));
  }

  method BindingsOf(r: Result, on: Backends, cfg: Option<Clusters>) returns (bindings: Option<seq<Item<Binding>>>)
    ensures bindings.Some? <==> BindingsCompile(r, on, cfg)
    ensures bindings.Some? && !on.rbac ==> bindings.value == []
    ensures bindings.Some? && on.rbac ==>
      IdSet(bindings.value) == Bound(Each(r.topics), cfg.value) + IdSet(AllItems(r.access.roleBindings, cfg.value))
  {
    if !on.rbac { return Some([]); }
    if cfg.None? { return None; }
    bindings := DesiredBindingsOf(r.topics, r.access.roleBindings, cfg.value);
  }

  // ---- nothing to do -----------------------------------------------------

  lemma {:induction false} NothingFrom<T>(xs: seq<T>, f: T -> seq<Operation>)
    requires forall x :: x in xs ==> f(x) == []
    ensures FlatMap(xs, f) == []
  {
    if xs != [] {
      assert xs[|xs| - 1] in xs && forall x :: x in xs[..|xs| - 1] ==> x in xs;
      NothingFrom(xs[..|xs| - 1], f);
    }
  }

  lemma NothingSorted<T>(xs: seq<T>, key: T -> string, f: T -> seq<Operation>)
    requires forall x :: x in xs ==> f(x) == []
    ensures FlatMap(SortOn(xs, key), f) == []
  {
    SortPermutes(xs, OnKey(key));
    assert SortOn(xs, key) == SortBy(xs, OnKey(key));
    forall x | x in SortOn(xs, key) ensures f(x) == [] { SameMembers(SortOn(xs, key), xs, x); }
    NothingFrom(SortOn(xs, key), f);
  }

  /** No addition when everything desired is live, no prune when everything
      live and covered is desired. */
  lemma NoAddPrune<I>(k: AddPruneKind<I>, desired: seq<Item<I>>, live: seq<I>)
    requires forall it :: it in desired ==> it.id in live
    requires forall x :: x in live && k.cover(x).Some? ==> x in Ids(desired)
    ensures AddPruneOps(k, desired, desired, live) == []
  {
    NothingSorted(desired, ItemKey(k.key), AddStep(k, Members(live)));
    NothingSorted(live, k.key, PruneStep(k, Ids(desired)));
  }

  ghost predicate TopicsSettled(d: Desired, live: Live) {
    forall dt :: dt in d.topics ==> TopicStep(TopicMap(live.topics))(dt) == []
  }
  ghost predicate QuotasSettled(d: Desired, live: Live) {
    forall dq :: dq in d.quotas ==> QuotaStep(QuotaMap(live.quotas))(dq) == []
  }
  ghost predicate UsersSettled(d: Desired, live: Live) {
    forall du :: du in d.users ==> UserStep(ScramMap(live.credentials), false)(du) == []
  }
  ghost predicate AclsSettled(d: Desired, live: Live) {
    && (forall it :: it in d.acls ==> it.id in live.acls)
    && (forall a :: a in live.acls && AclScope(a) in d.scope ==> a in Ids(d.acls))
  }
  ghost predicate BindingsSettled(d: Desired, live: Live) {
    && (forall it :: it in d.bindings ==> it.id in live.bindings)
    && (forall b :: b in live.bindings && BindingScope(b) in d.bindingScope ==> b in Ids(d.bindings))
  }

  lemma NothingPlanned(d: Desired, live: Live)
    requires d.mirrors == [] && live.mirrors.None? && !d.rotatePasswords && d.pruneAggregate.None? && d.bindingKeep.None?
    requires TopicsSettled(d, live) && QuotasSettled(d, live) && UsersSettled(d, live)
    requires AclsSettled(d, live) && BindingsSettled(d, live)
    ensures Compute(d, live) == []
  {
    NothingSorted(d.topics, TopicKey, TopicStep(TopicMap(live.topics)));
    NoAddPrune(AclKind(PruneScope(d)), d.acls, live.acls);
    NothingSorted(d.quotas, QuotaKey, QuotaStep(QuotaMap(live.quotas)));
    NoAddPrune(BindingKind(d.bindingScope), d.bindings, live.bindings);
    NothingSorted(d.users, UserKey, UserStep(ScramMap(live.credentials), false));
    NothingSorted(d.mirrors, MirrorKey, MirrorStep(None));
    assert Planned(d, live) == [];
  }

  // ---- the round trip, kind by kind --------------------------------------

  function LiveOf(snap: Snapshot): Live {
    Live(snap.topics, snap.acls, snap.quotas, snap.bindings, snap.credentials, None)
  }

  lemma TopicSettled(tp: KafkaTopic, ts: TopicState, defaultRf: Option<int>, live: map<string, Topic>)
    requires ManifestsTopic(tp, ts) && ts.name != "" && ts.topic.replicationFactor >= 0
    requires ts.name in live && live[ts.name] == ts.topic
    ensures TopicStep(live)(DesiredTopicOf(tp, defaultRf)) == []
  {
    var dt := DesiredTopicOf(tp, defaultRf);
    NothingFrom(SortedKeys(dt.config.Keys), ConfigStep(dt, ts.topic));
    assert ReplicationOps(dt, ts.topic) == [];
    assert PartitionOps(dt, ts.topic) == [];
  }

  lemma ImportedTopicsSettle(topics: seq<KafkaTopic>, snap: Snapshot, defaultRf: Option<int>, dt: DesiredTopic)
    requires ManifestsTopics(topics, snap.topics) && Unique(snap.topics, TopicName)
    requires forall i :: 0 <= i < |snap.topics| ==> snap.topics[i].name != "" && snap.topics[i].topic.replicationFactor >= 0
    requires dt in TopicsOf(topics, defaultRf)
    ensures TopicStep(TopicMap(snap.topics))(dt) == []
  {
    var i :| 0 <= i < |topics| && dt == DesiredTopicOf(topics[i], defaultRf);
    TopicMapHas(snap.topics, snap.topics[i]);
    TopicSettled(topics[i], snap.topics[i], defaultRf, TopicMap(snap.topics));
  }

  function LiveEntity(q: QuotaState): Entity { q.entity }

  lemma {:induction false} QuotaMapHas(qs: seq<QuotaState>, q: QuotaState)
    requires Unique(qs, LiveEntity) && q in qs
    ensures q.entity in QuotaMap(qs) && QuotaMap(qs)[q.entity] == q.limits
  {
    var front, last := qs[..|qs| - 1], qs[|qs| - 1];
    if q != last {
      assert q in front;
      QuotaMapHas(front, q);
      var i :| 0 <= i < |front| && front[i] == q;
      assert LiveEntity(qs[i]) != LiveEntity(qs[|qs| - 1]);
    }
  }

  predicate Representable(q: QuotaState) {
    q.entity.clientId != Named("") && q.entity.ip != Named("") && q.limits.Keys <= LIMIT_KEYS
  }

  lemma ImportedQuotasSettle(quotas: seq<KafkaQuota>, live: seq<QuotaState>, dq: DesiredQuota)
    requires Unique(live, LiveEntity) && forall q :: q in live ==> Representable(q)
    requires forall m :: m in quotas ==> exists q :: q in live && ManifestsQuota(m, q)
    requires dq in QuotasOf(quotas)
    ensures QuotaStep(QuotaMap(live))(dq) == []
  {
    var i :| 0 <= i < |quotas| && dq == CompileQuota(quotas[i], Unattributed);
    assert quotas[i] in quotas;
    var q :| q in live && ManifestsQuota(quotas[i], q);
    QuotaRoundTrip(q, quotas[i].metaName, Unattributed);
    QuotaMapHas(live, q);
    QuotaAtRest(dq, QuotaMap(live));
  }

  lemma QuotaAtRest(dq: DesiredQuota, live: map<Entity, map<string, real>>)
    requires dq.entity in live && live[dq.entity] == dq.limits
    ensures QuotaStep(live)(dq) == []
  {
    assert !NeedsUpdate(dq.limits, live[dq.entity]);
    assert Extra(dq.limits, live[dq.entity]) == map[];
  }

  function LiveCredential(c: ScramCredential): ScramId { c.id }

  lemma {:induction false} ScramMapHas(cs: seq<ScramCredential>, c: ScramCredential)
    requires Unique(cs, LiveCredential) && c in cs
    ensures c.id in ScramMap(cs) && ScramMap(cs)[c.id] == c.iterations
  {
    var front, last := cs[..|cs| - 1], cs[|cs| - 1];
    if c != last {
      assert c in front;
      ScramMapHas(front, c);
      var i :| 0 <= i < |front| && front[i] == c;
      assert LiveCredential(cs[i]) != LiveCredential(cs[|cs| - 1]);
    }
  }

  lemma ImportedUsersSettle(users: seq<KafkaUser>, live: seq<ScramCredential>, du: DesiredUser)
    requires Unique(live, LiveCredential) && forall c :: c in live ==> c.id.user != "" && c.id.mechanism != ""
    requires AllCapture(users, live) && du in UsersOf(users)
    ensures UserStep(ScramMap(live), false)(du) == []
  {
    var i :| 0 <= i < |users| && du == CompileUser(users[i]);
    assert users[i] in users;
    var c :| Captures(users[i], live, c);
    UserRoundTrip(c, users[i].metaName, users[i].password);
    ScramMapHas(live, c);
  }

  // ---- the whole import --------------------------------------------------

  /** A snapshot as the brokers list it, without mirrors: unique identities,
      one permission per subject, representable quotas, and bindings gathered
      through the configured MDS scopes. */
  ghost predicate WellFormed(snap: Snapshot, on: Backends, cfg: Option<Clusters>) {
    && Unique(snap.topics, TopicName)
    && (forall i :: 0 <= i < |snap.topics| ==> snap.topics[i].name != "" && snap.topics[i].topic.replicationFactor >= 0)
    && (on.acl ==> CleanAcls(snap.acls))
    && (on.rbac ==> Importable(snap.topics == [], snap.bindings, cfg) && Unique(snap.bindings, Re(cfg.value)))
    && Unique(snap.quotas, LiveEntity) && (forall q :: q in snap.quotas ==> Representable(q))
    && Unique(snap.credentials, LiveCredential)
    && (forall c :: c in snap.credentials ==> c.id.user != "" && c.id.mechanism != "")
  }

  /** The manifests stand for the snapshot, each side under its condition. */
  ghost predicate ImportedFrom(r: Result, snap: Snapshot, on: Backends, cfg: Option<Clusters>, opt: Options) reads Each(r.topics) {
    && ManifestsTopics(r.topics, snap.topics)
    && (on.acl && CleanAcls(snap.acls) ==> AclFaithful(r.topics, r.access.policies, snap.acls))
    && (on.rbac && Importable(r.topics == [], snap.bindings, cfg) && Unique(snap.bindings, Re(cfg.value)) ==>
         RbacFaithful(r.topics, r.access.roleBindings, snap.bindings, cfg.value) && NoRivals(AllItems(r.access.roleBindings, cfg.value)))
    && (!on.acl ==> r.access.policies == []) && (!on.rbac ==> r.access.roleBindings == [])
    && |r.quotas| == |snap.quotas| && AllManifested(r.quotas, snap.quotas)
    && AllCapture(r.users, snap.credentials) && Unique(r.users, Username()) && PlaceholdersUsed(r.users, opt.placeholder)
    && Usernames(r.users) == ImportedUsers(snap.credentials, opt)
  }

  /** Every live user, except the connecting principal unless it is asked for. */
  function ImportedUsers(creds: seq<ScramCredential>, opt: Options): set<string> {
    set c | c in creds && !(c.id.user == opt.connecting && opt.connecting != "" && !opt.includeConnecting) :: c.id.user
  }

  /** The imported manifests of a snapshot. */
  method BuildResult(snap: Snapshot, on: Backends, cfg: Option<Clusters>, opt: Options) returns (r: Result)
    requires Unique(snap.topics, TopicName) && forall i :: 0 <= i < |snap.topics| ==> snap.topics[i].name != ""
    ensures fresh(Each(r.topics)) && ImportedFrom(r, snap, on, cfg, opt)
  {
    var topics, index := BuildTopics(snap.topics);
    var quotas := BuildQuotas(snap.quotas);
    var users := BuildUsers(snap.credentials, opt.connecting, opt.includeConnecting, opt.placeholder);
    var access := BuildAccess(index, topics, snap, on, cfg);
    r := Result(topics, access, quotas, users);
  }

  // ---- nothing is left out -----------------------------------------------

  /** The declaration carries the live topic; the replication factor only where
      the brokers report one and no placement constraint decides it. */
  predicate DeclaresTopic(dt: DesiredTopic, ts: TopicState) {
    && dt.name == ts.name && dt.partitions == ts.topic.partitions && dt.config == ts.topic.config
    && dt.mode == Enforce && dt.ignoreFields == []
    && (ts.topic.replicationFactor > 0 && "confluent.placement.constraints" !in ts.topic.config ==>
          dt.replicationFactor == ts.topic.replicationFactor)
  }

  predicate DeclaresQuota(dq: DesiredQuota, q: QuotaState) { dq.entity == q.entity && dq.limits == q.limits }

  /** The declaration is a live credential of the user, SCRAM-SHA-512 if there is
      one, with any iteration count but the default. */
  predicate DeclaresUser(du: DesiredUser, creds: seq<ScramCredential>, placeholder: string -> PasswordRef) {
    && (exists c :: c in creds && c.id == du.id && du.iterations == if c.iterations == 4096 then 0 else c.iterations)
    && (forall c :: c in creds && c.id.user == du.id.user && c.id.mechanism == "SCRAM-SHA-512" ==>
          du.id.mechanism == "SCRAM-SHA-512")
    && du.password == Some(placeholder(du.id.user))
  }

  ghost predicate DeclaresTopics(dts: seq<DesiredTopic>, live: seq<TopicState>) {
    |dts| == |live| && forall i :: 0 <= i < |live| ==> DeclaresTopic(dts[i], live[i])
  }
  ghost predicate DeclaresQuotas(dqs: seq<DesiredQuota>, live: seq<QuotaState>) {
    |dqs| == |live| && forall q :: q in live ==> exists dq :: dq in dqs && DeclaresQuota(dq, q)
  }
  ghost predicate DeclaresUsers(dus: seq<DesiredUser>, creds: seq<ScramCredential>, opt: Options) {
    && (forall du :: du in dus ==> DeclaresUser(du, creds, opt.placeholder))
    && (set du | du in dus :: du.id.user) == ImportedUsers(creds, opt)
  }

  /** The desired state declares the whole snapshot: topics, quotas, included
      users, and exactly the grants of the active backends. */
  ghost predicate Declares(d: Desired, snap: Snapshot, on: Backends, opt: Options) {
    && DeclaresTopics(d.topics, snap.topics) && DeclaresQuotas(d.quotas, snap.quotas)
    && DeclaresUsers(d.users, snap.credentials, opt)
    && IdSet(d.acls) == (if on.acl then Members(snap.acls) else {}) && Effective(d.acls)
    && IdSet(d.bindings) == (if on.rbac then Members(snap.bindings) else {})
  }

  lemma TopicsDeclared(topics: seq<KafkaTopic>, live: seq<TopicState>, defaultRf: Option<int>)
    requires ManifestsTopics(topics, live) && forall i :: 0 <= i < |live| ==> live[i].name != ""
    ensures DeclaresTopics(TopicsOf(topics, defaultRf), live)
  {
    forall i | 0 <= i < |live| ensures DeclaresTopic(TopicsOf(topics, defaultRf)[i], live[i]) {
      assert ManifestsTopic(topics[i], live[i]);
    }
  }

  lemma QuotaDeclared(quotas: seq<KafkaQuota>, q: QuotaState, m: KafkaQuota) returns (dq: DesiredQuota)
    requires m in quotas && ManifestsQuota(m, q) && Representable(q)
    ensures dq in QuotasOf(quotas) && DeclaresQuota(dq, q)
  {
    dq := CompileQuota(m, Unattributed);
    QuotaRoundTrip(q, m.metaName, Unattributed);
    var i :| 0 <= i < |quotas| && quotas[i] == m;
    assert QuotasOf(quotas)[i] == dq;
  }

  lemma QuotasDeclared(quotas: seq<KafkaQuota>, live: seq<QuotaState>)
    requires |quotas| == |live| && forall q :: q in live ==> Representable(q)
    requires forall q :: q in live ==> exists m :: m in quotas && ManifestsQuota(m, q)
    ensures DeclaresQuotas(QuotasOf(quotas), live)
  {
    forall q | q in live ensures exists dq :: dq in QuotasOf(quotas) && DeclaresQuota(dq, q) {
      var m :| m in quotas && ManifestsQuota(m, q);
      var dq := QuotaDeclared(quotas, q, m);
    }
  }

  lemma UserDeclared(u: KafkaUser, creds: seq<ScramCredential>, placeholder: string -> PasswordRef, c: ScramCredential)
    requires Captures(u, creds, c) && u.password == placeholder(u.username)
    requires forall x :: x in creds ==> x.id.user != "" && x.id.mechanism != ""
    ensures DeclaresUser(CompileUser(u), creds, placeholder) && CompileUser(u).id.user == u.username
  {
    UserRoundTrip(c, u.metaName, u.password);
  }

  lemma UsersDeclared(users: seq<KafkaUser>, creds: seq<ScramCredential>, opt: Options)
    requires AllCapture(users, creds) && PlaceholdersUsed(users, opt.placeholder)
    requires Usernames(users) == ImportedUsers(creds, opt)
    requires forall x :: x in creds ==> x.id.user != "" && x.id.mechanism != ""
    ensures DeclaresUsers(UsersOf(users), creds, opt)
  {
    var dus := UsersOf(users);
    forall i | 0 <= i < |users| ensures DeclaresUser(dus[i], creds, opt.placeholder) && dus[i].id.user == users[i].username {
      assert users[i] in users;
      var c :| Captures(users[i], creds, c);
      UserDeclared(users[i], creds, opt.placeholder, c);
    }
    forall n ensures n in (set du | du in dus :: du.id.user) <==> n in Usernames(users) {
      if n in Usernames(users) {
        var i :| 0 <= i < |users| && users[i].username == n;
        assert dus[i] in dus;
      }
    }
  }

  // ---- the import, planned -----------------------------------------------

  /** The manifests of a well-formed snapshot compile to its grants. */
  lemma ImportedCompiles(r: Result, snap: Snapshot, on: Backends, cfg: Option<Clusters>, opt: Options)
    requires WellFormed(snap, on, cfg) && ImportedFrom(r, snap, on, cfg, opt)
    ensures Compiles(r, on, cfg) && CompiledAcls(r, on) == if on.acl then Members(snap.acls) else {}
    ensures on.rbac ==> Bound(Each(r.topics), cfg.value) + IdSet(AllItems(r.access.roleBindings, cfg.value)) == Members(snap.bindings)
  {
    assert r.topics == [] <==> snap.topics == [];
    if !on.acl { assert CompiledAcls(r, on) == {}; }
  }

  lemma ImportedDeclares(d: Desired, r: Result, snap: Snapshot, on: Backends, cfg: Option<Clusters>, opt: Options, defaultRf: Option<int>)
    requires WellFormed(snap, on, cfg) && ImportedFrom(r, snap, on, cfg, opt) && CompiledFrom(d, r, on, cfg, defaultRf)
    ensures Declares(d, snap, on, opt)
  {
    ImportedCompiles(r, snap, on, cfg, opt);
    TopicsDeclared(r.topics, snap.topics, defaultRf);
    QuotasDeclared(r.quotas, snap.quotas);
    UsersDeclared(r.users, snap.credentials, opt);
  }

  lemma ImportedSettles(d: Desired, r: Result, snap: Snapshot, on: Backends, cfg: Option<Clusters>, opt: Options, defaultRf: Option<int>)
    requires WellFormed(snap, on, cfg) && ImportedFrom(r, snap, on, cfg, opt) && CompiledFrom(d, r, on, cfg, defaultRf)
    ensures Compute(d, LiveOf(snap)) == []
  {
    ImportedCompiles(r, snap, on, cfg, opt);
    SameAclsSettle(d, LiveOf(snap));
    SameBindingsSettle(d, LiveOf(snap));
    PlanIsEmpty(d, snap, on, cfg, r.topics, r.quotas, r.users, defaultRf);
  }

  lemma PlanIsEmpty(d: Desired, snap: Snapshot, on: Backends, cfg: Option<Clusters>, topics: seq<KafkaTopic>, quotas: seq<KafkaQuota>,
                    users: seq<KafkaUser>, defaultRf: Option<int>)
    requires WellFormed(snap, on, cfg) && ManifestsTopics(topics, snap.topics) && AllCapture(users, snap.credentials)
    requires forall m :: m in quotas ==> exists q :: q in snap.quotas && ManifestsQuota(m, q)
    requires d.topics == TopicsOf(topics, defaultRf) && d.quotas == QuotasOf(quotas) && d.users == UsersOf(users)
    requires d.mirrors == [] && !d.rotatePasswords && d.pruneAggregate.None? && d.bindingKeep.None?
    requires AclsSettled(d, LiveOf(snap)) && BindingsSettled(d, LiveOf(snap))
    ensures Compute(d, LiveOf(snap)) == []
  {
    forall dt | dt in d.topics ensures TopicStep(TopicMap(snap.topics))(dt) == [] { ImportedTopicsSettle(topics, snap, defaultRf, dt); }
    forall dq | dq in d.quotas ensures QuotaStep(QuotaMap(snap.quotas))(dq) == [] { ImportedQuotasSettle(quotas, snap.quotas, dq); }
    forall du | du in d.users ensures UserStep(ScramMap(snap.credentials), false)(du) == [] { ImportedUsersSettle(users, snap.credentials, du); }
    NothingPlanned(d, LiveOf(snap));
  }

  lemma SameAclsSettle(d: Desired, live: Live)
    requires IdSet(d.acls) == Members(live.acls) || (IdSet(d.acls) == {} && d.scope == Scope(d.acls, AclScope))
    ensures AclsSettled(d, live)
  {
    forall it | it in d.acls ensures it.id in live.acls { assert it.id in IdSet(d.acls); }
    assert forall it :: it in d.acls ==> it.id in IdSet(d.acls);
    forall a | a in live.acls && AclScope(a) in d.scope ensures a in Ids(d.acls) {
      if IdSet(d.acls) == Members(live.acls) {
        assert a in Members(live.acls);
      } else {
        ScopeEntry(d.acls, AclScope, AclScope(a));
      }
    }
  }

  lemma SameBindingsSettle(d: Desired, live: Live)
    requires IdSet(d.bindings) == Members(live.bindings) || (d.bindings == [] && d.bindingScope == Scope(d.bindings, BindingScope))
    ensures BindingsSettled(d, live)
  {
    forall it | it in d.bindings ensures it.id in live.bindings { assert it.id in IdSet(d.bindings); }
    if IdSet(d.bindings) == Members(live.bindings) {
      forall b | b in live.bindings ensures b in Ids(d.bindings) { assert b in Members(live.bindings); }
    }
  }

  /** Importing a snapshot and planning the result against the same live state:
      the manifests declare all of it, and there is nothing to do, on ACL, RBAC
      and dual clusters, with any default replication factor and whether or not
      the fallback was taken. */
  method ImportThenPlan(snap: Snapshot, on: Backends, cfg: Option<Clusters>, opt: Options, defaultRf: Option<int>)
    returns (d: Option<Desired>, ops: Option<seq<Operation>>)
    requires Unique(snap.topics, TopicName) && forall i :: 0 <= i < |snap.topics| ==> snap.topics[i].name != ""
    ensures ops == if d.Some? then Some(Compute(d.value, LiveOf(snap))) else None
    ensures WellFormed(snap, on, cfg) ==> d.Some? && Declares(d.value, snap, on, opt) && ops == Some([])
  {
    var r := BuildResult(snap, on, cfg, opt);
    if WellFormed(snap, on, cfg) { ImportedCompiles(r, snap, on, cfg, opt); }
    d := CompilePlan(r, on, cfg, defaultRf);
    if d.None? { return d, None; }
    if WellFormed(snap, on, cfg) {
      ImportedDeclares(d.value, r, snap, on, cfg, opt, defaultRf);
      ImportedSettles(d.value, r, snap, on, cfg, opt, defaultRf);
    }
    var plan := ComputePlan(d.value, LiveOf(snap));
    ops := Some(plan);
  }
}
