/** Building manifests from a live snapshot, with the check that they compile
    back to it and the all-explicit fallback when they do not. */
module Importer {
  import opened Basics
  import opened Model
  import opened ManagedSet
  import opened Access
  import opened Rbac
  import opened Manifests
  import opened Names
  import opened Store
  import opened ImportAcl
  import opened ImportPolicies
  import opened ImportRbac
  import Diff

  datatype Snapshot = Snapshot(topics: seq<TopicState>, acls: seq<Acl>, bindings: seq<Binding>,
                               quotas: seq<Diff.QuotaState>, credentials: seq<Diff.ScramCredential>)

  datatype Backends = Backends(acl: bool, rbac: bool)

  // ---- topics ------------------------------------------------------------

  const PLACEMENT: string := "confluent.placement.constraints"

  /** The manifest of a live topic; a placement constraint stands in for the
      replication factor. */
  predicate ManifestsTopic(tp: KafkaTopic, ts: TopicState) {
    && tp.topicName == ts.name && tp.partitions == ts.topic.partitions && tp.config == ts.topic.config
    && tp.replicationFactor ==
       if ts.topic.replicationFactor > 0 && PLACEMENT !in ts.topic.config then Some(ts.topic.replicationFactor) else None
  }

  ghost predicate NoAccessYet(topics: set<KafkaTopic>) reads topics { forall tp :: tp in topics ==> tp.access == NO_ACCESS }

  ghost predicate Indexed(index: TopicIndex, topics: seq<KafkaTopic>) {
    Keyed(index) && index.Values == Each(topics)
  }

  method BuildTopic(ts: TopicState, taken: set<string>) returns (tp: KafkaTopic, taken': set<string>)
    ensures fresh(tp) && ManifestsTopic(tp, ts) && tp.access == NO_ACCESS
    ensures tp.name !in taken && taken' == taken + {tp.name} && Numbered(MetaName(ts.name), tp.name)
  {
    var name;
    name, taken' := NextName(ts.name, taken);
    var rf := if ts.topic.replicationFactor > 0 && PLACEMENT !in ts.topic.config then Some(ts.topic.replicationFactor) else None;
    tp := new KafkaTopic(name, ts.name, ts.topic.partitions, rf, ts.topic.config);
  }

  /** Every topic is in the index under its live name, and nothing else is. */
  ghost predicate IndexedBy(index: TopicIndex, topics: seq<KafkaTopic>, live: seq<TopicState>) {
    && |topics| == |live|
    && (forall j :: 0 <= j < |live| ==> live[j].name in index && index[live[j].name] == topics[j])
    && (forall t :: t in index ==> exists j :: 0 <= j < |live| && live[j].name == t)
  }

  lemma IndexedSnoc(index: TopicIndex, topics: seq<KafkaTopic>, live: seq<TopicState>, tp: KafkaTopic, ts: TopicState)
    requires IndexedBy(index, topics, live) && forall j :: 0 <= j < |live| ==> live[j].name != ts.name
    ensures IndexedBy(index[ts.name := tp], topics + [tp], live + [ts])
  {
    var index', live' := index[ts.name := tp], live + [ts];
    forall t | t in index' ensures exists j :: 0 <= j < |live'| && live'[j].name == t {
      if t == ts.name { assert live'[|live|].name == t; }
      else {
        var j :| 0 <= j < |live| && live[j].name == t;
        assert live'[j].name == t;
      }
    }
  }

  lemma IndexedMeans(index: TopicIndex, topics: seq<KafkaTopic>, live: seq<TopicState>)
    requires IndexedBy(index, topics, live)
    requires forall j :: 0 <= j < |live| ==> live[j].name != "" && topics[j].topicName == live[j].name
    ensures Indexed(index, topics)
  {
    forall tp | tp in Each(topics) ensures tp in index.Values {
      var j :| 0 <= j < |topics| && topics[j] == tp;
      assert index[live[j].name] == tp;
    }
    forall t | t in index ensures index[t] in topics && index[t].Resolved() == t {
      var j :| 0 <= j < |live| && live[j].name == t;
    }
  }

  ghost predicate ManifestsTopics(topics: seq<KafkaTopic>, live: seq<TopicState>) {
    && |topics| == |live|
    && (forall i :: 0 <= i < |live| ==> ManifestsTopic(topics[i], live[i]))
    && (forall i, j :: 0 <= i < j < |topics| ==> topics[i].name != topics[j].name)
    && (forall i :: 0 <= i < |live| ==> Numbered(MetaName(live[i].name), topics[i].name))
  }

  lemma ManifestsMore(topics: seq<KafkaTopic>, live: seq<TopicState>, tp: KafkaTopic, ts: TopicState)
    requires ManifestsTopics(topics, live) && ManifestsTopic(tp, ts) && Numbered(MetaName(ts.name), tp.name)
    requires forall x :: x in topics ==> x.name != tp.name
    ensures ManifestsTopics(topics + [tp], live + [ts])
  {
    assert forall i :: 0 <= i < |topics| ==> topics[i] in topics;
  }

  method BuildTopicList(live: seq<TopicState>) returns (topics: seq<KafkaTopic>)
    ensures ManifestsTopics(topics, live)
    ensures forall tp :: tp in topics ==> fresh(tp) && tp.access == NO_ACCESS
  {
    var taken: set<string> := {};
    topics := [];
    for i := 0 to |live|
      invariant ManifestsTopics(topics, live[..i])
      invariant forall tp :: tp in topics ==> tp.name in taken
      invariant forall tp :: tp in topics ==> fresh(tp) && tp.access == NO_ACCESS
    {
      assert live[..i + 1] == live[..i] + [live[i]];
      var tp;
      tp, taken := BuildTopic(live[i], taken);
      ManifestsMore(topics, live[..i], tp, live[i]);
      topics := topics + [tp];
    }
    assert live[..|live|] == live;
  }

  method IndexTopics(topics: seq<KafkaTopic>, live: seq<TopicState>) returns (index: TopicIndex)
    requires Unique(live, TopicName) && ManifestsTopics(topics, live)
    ensures IndexedBy(index, topics, live)
  {
    index := map[];
    for i := 0 to |live|
      invariant IndexedBy(index, topics[..i], live[..i])
    {
      assert live[..i + 1] == live[..i] + [live[i]] && topics[..i + 1] == topics[..i] + [topics[i]];
      forall j | 0 <= j < i ensures live[..i][j].name != live[i].name { assert TopicName(live[j]) != TopicName(live[i]); }
      IndexedSnoc(index, topics[..i], live[..i], topics[i], live[i]);
      index := index[live[i].name := topics[i]];
    }
    assert live[..|live|] == live && topics[..|live|] == topics;
  }

  method BuildTopics(live: seq<TopicState>) returns (topics: seq<KafkaTopic>, index: TopicIndex)
    requires Unique(live, TopicName) && forall i :: 0 <= i < |live| ==> live[i].name != ""
    ensures ManifestsTopics(topics, live) && Indexed(index, topics)
    ensures fresh(Each(topics)) && NoAccessYet(Each(topics))
  {
    topics := BuildTopicList(live);
    index := IndexTopics(topics, live);
    IndexedMeans(index, topics, live);
  }

  // ---- checking the role bindings ----------------------------------------

  lemma AccessIds(topic: string, access: TopicAccess, source: Source, c: Clusters, b: Binding)
    ensures b in IdSet(AccessItems(topic, access, source, c)) <==> AccessBinds(topic, access, c, b)
  {
    AccessItemMember(topic, access, source, c, Derived(b, source));
    if it :| it in AccessItems(topic, access, source, c) && it.id == b {
      AccessItemMember(topic, access, source, c, it);
    }
    if AccessBinds(topic, access, c, b) { assert Derived(b, source).id == b; }
  }

  lemma BindsSnoc(done: seq<KafkaTopic>, tp: KafkaTopic, x: KafkaTopic, c: Clusters, b: Binding)
    ensures BindsAt(AccessOf(Each(done + [tp])), x, c, b) <==>
      BindsAt(AccessOf(Each(done)), x, c, b) || (x == tp && AccessBinds(tp.Resolved(), tp.access, c, b))
  {
  }

  lemma BoundSnoc(done: seq<KafkaTopic>, tp: KafkaTopic, source: Source, c: Clusters)
    ensures Bound(Each(done + [tp]), c) == Bound(Each(done), c) + IdSet(AccessItems(tp.Resolved(), tp.access, source, c))
  {
    var before, after := AccessOf(Each(done)), AccessOf(Each(done + [tp]));
    forall b ensures b in BoundBy(after, c) <==> b in BoundBy(before, c) || b in IdSet(AccessItems(tp.Resolved(), tp.access, source, c)) {
      BoundMember(before, c, b);
      BoundMember(after, c, b);
      AccessIds(tp.Resolved(), tp.access, source, c, b);
      BindsSnoc(done, tp, tp, c, b);
      if x :| BindsAt(after, x, c, b) { BindsSnoc(done, tp, x, c, b); }
      if x :| BindsAt(before, x, c, b) { BindsSnoc(done, tp, x, c, b); }
    }
  }

  ghost predicate OnlyDerived(items: seq<Item<Binding>>) { forall it :: it in items ==> it.source.kind != EXPLICIT }

  method CompileTopicBindings(topics: seq<KafkaTopic>, c: Clusters) returns (r: Option<seq<Item<Binding>>>)
    ensures r.Some? <==> topics == [] || c.kafka != ""
    ensures r.Some? ==> IdSet(r.value) == Bound(Each(topics), c) && OnlyDerived(r.value)
  {
    var all: seq<Item<Binding>> := [];
    assert IdSet(all) == Bound(Each([]), c);
    for i := 0 to |topics|
      invariant i > 0 ==> c.kafka != ""
      invariant IdSet(all) == Bound(Each(topics[..i]), c) && OnlyDerived(all)
    {
      assert topics[..i + 1] == topics[..i] + [topics[i]];
      var source := Source("KafkaTopic", "", topics[i].name);
      var compiled, _ := CompileTopicAccess(topics[i].Resolved(), topics[i].access, source, c);
      if compiled.None? { return None; }
      BoundSnoc(topics[..i], topics[i], source, c);
      forall it | it in compiled.value ensures it.source.kind != EXPLICIT {
        AccessItemMember(topics[i].Resolved(), topics[i].access, source, c, it);
      }
      IdSetConcat(all, compiled.value);
      all := all + compiled.value;
    }
    assert topics[..|topics|] == topics;
    r := Some(all);
  }

  lemma IdSetConcat<I>(xs: seq<Item<I>>, ys: seq<Item<I>>)
    ensures IdSet(xs + ys) == IdSet(xs) + IdSet(ys)
  {
  }

  method CompileManifests(ms: seq<RoleBindingManifest>, c: Clusters) returns (r: Option<seq<Item<Binding>>>)
    ensures r.Some? <==> AllResolve(ms, c)
    ensures r.Some? ==> r.value == AllItems(ms, c)
  {
    var all: seq<Item<Binding>> := [];
    for i := 0 to |ms|
      invariant forall j :: 0 <= j < i ==> ResolveScope(ms[j].scopeType, c).Some?
      invariant all == AllItems(ms[..i], c)
    {
      assert ms[..i + 1][..i] == ms[..i];
      var compiled := Compile(ms[i], c);
      if compiled.None? { return None; }
      all := all + compiled.value;
    }
    assert ms[..|ms|] == ms;
    r := Some(all);
  }

  /** The manifests compile, and to exactly the live bindings. */
  ghost predicate RbacFaithful(topics: seq<KafkaTopic>, ms: seq<RoleBindingManifest>, rbs: seq<Binding>, c: Clusters)
    reads Each(topics)
  {
    && (topics == [] || c.kafka != "") && AllResolve(ms, c)
    && Bound(Each(topics), c) + IdSet(AllItems(ms, c)) == Members(rbs)
  }

  lemma AllIdsSurvive(items: seq<Item<Binding>>)
    requires DesiredBindings(items).refused == []
    ensures IdSet(DesiredBindings(items).out) == IdSet(items)
  {
    DesiredBindingsLaw(items);
    forall it | it in items ensures Agrees(items)(it) {
      FilterMember(items, Collides(items), it);
    }
    FilterEverything(items, Agrees(items));
    forall b ensures b in IdSet(Dedup(items)) <==> b in IdSet(items) { DedupIds(items, b); }
  }

  lemma MixedNoRivals(derived: seq<Item<Binding>>, explicit: seq<Item<Binding>>)
    requires OnlyDerived(derived) && NoRivals(explicit)
    ensures NoRivals(derived + explicit) && NoRivals(explicit + derived)
  {
  }

  ghost predicate OnlyExplicit(items: seq<Item<Binding>>) { forall it :: it in items ==> it.source.kind == EXPLICIT }

  lemma AllExplicit(ms: seq<RoleBindingManifest>, c: Clusters)
    ensures OnlyExplicit(AllItems(ms, c))
  {
    forall it | it in AllItems(ms, c) ensures it.source.kind == EXPLICIT {
      FlatMapMember(ms, ItemsOf(c), it);
      var m :| m in ms && it in ItemsOf(c)(m);
      if m.resources != [] { FlatMapMember(m.resources, ResourceItem(m, Scoped(m.scopeType, c)), it); }
    }
  }

  /** Rival manifests compete only for identities that `bound` contains. */
  ghost predicate RivalsWithin(explicit: seq<Item<Binding>>, bound: set<Binding>) {
    forall x, y :: x in explicit && y in explicit && x.id == y.id && Rivals(x.source, y.source) ==> x.id in bound
  }

  lemma FirstOfMixed(derived: seq<Item<Binding>>, explicit: seq<Item<Binding>>, b: Binding)
    requires OnlyDerived(derived) && OnlyExplicit(explicit) && FirstSource(derived + explicit, b).Some?
    ensures FirstSource(derived + explicit, b).value.kind == EXPLICIT <==> b !in IdSet(derived)
  {
    var items := derived + explicit;
    FirstSourceFound(items, b);
    var i :| FirstAt(items, b, i) && FirstSource(items, b) == Some(items[i].source);
    if i < |derived| {
      assert items[i] == derived[i] && derived[i] in derived;
    } else {
      assert items[i] == explicit[i - |derived|];
      forall j | 0 <= j < |derived| ensures derived[j].id != b { assert items[j] == derived[j]; }
    }
  }

  /** Topic-derived requests compiled first hide rivalries on what they bind. */
  lemma MixedRefusals(derived: seq<Item<Binding>>, explicit: seq<Item<Binding>>)
    requires OnlyDerived(derived) && OnlyExplicit(explicit)
    ensures DesiredBindings(derived + explicit).refused == [] <==> RivalsWithin(explicit, IdSet(derived))
  {
    var items := derived + explicit;
    var refused := DesiredBindings(items).refused;
    Empty(refused);
    if z :| z in refused {
      RefusedIff(items, z.id);
      FirstOfMixed(derived, explicit, z.id);
      var x, y :| x in items && y in items && x.id == z.id && y.id == z.id && Rivals(x.source, y.source);
      assert x in explicit && y in explicit;
    } else {
      forall x, y | x in explicit && y in explicit && x.id == y.id && Rivals(x.source, y.source) ensures x.id in IdSet(derived) {
        assert x in items && y in items;
        assert Rivalry(items, x.id);
        RefusedIff(items, x.id);
        FirstSourceFound(items, x.id);
        FirstOfMixed(derived, explicit, x.id);
      }
    }
  }

  lemma NoRivalsWithin(explicit: seq<Item<Binding>>, bound: set<Binding>)
    requires NoRivals(explicit)
    ensures RivalsWithin(explicit, bound)
  {
  }

  /** Topic access and explicit manifests as one list of requests. */
  method CompileBindings(topics: seq<KafkaTopic>, ms: seq<RoleBindingManifest>, c: Clusters) returns (r: Option<seq<Item<Binding>>>)
    ensures r.Some? <==> (topics == [] || c.kafka != "") && AllResolve(ms, c)
    ensures r.Some? ==>
      && IdSet(r.value) == Bound(Each(topics), c) + IdSet(AllItems(ms, c))
      && (DesiredBindings(r.value).refused == [] <==> RivalsWithin(AllItems(ms, c), Bound(Each(topics), c)))
  {
    var derived := CompileTopicBindings(topics, c);
    if derived.None? { return None; }
    var explicit := CompileManifests(ms, c);
    if explicit.None? { return None; }
    IdSetConcat(derived.value, explicit.value);
    AllExplicit(ms, c);
    MixedRefusals(derived.value, explicit.value);
    r := Some(derived.value + explicit.value);
  }

  /** The check the importer runs: everything compiles, nothing is refused, and
      the identities are the live ones. */
  method RoleBindingsRoundTripClean(topics: seq<KafkaTopic>, ms: seq<RoleBindingManifest>, rbs: seq<Binding>, cfg: Option<Clusters>)
    returns (clean: bool)
    ensures clean <==> cfg.Some? && RbacFaithful(topics, ms, rbs, cfg.value)
                       && RivalsWithin(AllItems(ms, cfg.value), Bound(Each(topics), cfg.value))
  {
    if cfg.None? { return false; }
    var items := CompileBindings(topics, ms, cfg.value);
    if items.None? { return false; }
    var desired, refused := BuildDesiredBindings(items.value);
    if |refused| > 0 { return false; }
    AllIdsSurvive(items.value);
    SortedIds(DesiredBindings(items.value).out);
    clean := IdSet(desired) == Members(rbs);
  }

  lemma SortedIds(items: seq<Item<Binding>>)
    ensures IdSet(SortOn(items, ById())) == IdSet(items)
  {
    SortPermutes(items, OnKey(ById()));
  }

  // ---- folding, verifying, falling back ----------------------------------

  lemma NothingGranted(topics: set<KafkaTopic>)
    requires NoAccessYet(topics)
    ensures Granted(topics) == {} && forall c :: Bound(topics, c) == {}
  {
    forall c ensures Bound(topics, c) == {} {
      forall b ensures b !in BoundBy(AccessOf(topics), c) { BoundMember(AccessOf(topics), c, b); }
    }
  }

  method ClearAccess(topics: seq<KafkaTopic>)
    modifies Each(topics)
    ensures NoAccessYet(Each(topics))
  {
    for i := 0 to |topics|
      invariant forall j :: 0 <= j < i ==> topics[j].access == NO_ACCESS
    {
      topics[i].access := NO_ACCESS;
    }
  }

  /** The live set says one thing per subject and spells out every field. */
  ghost predicate CleanAcls(acls: seq<Acl>) {
    ConflictFree(Members(acls)) && Compiled(Members(acls)) == Members(acls)
  }

  /** With host, permission and pattern type spelled out, as a broker lists
      them, only contradictions are in the way. */
  lemma PlainAcls(acls: seq<Acl>)
    requires forall a :: a in acls ==> a.host != "" && a.permission != "" && a.patternType != ""
    ensures CleanAcls(acls) <==> ConflictFree(Members(acls))
  {
    forall a | a in Members(acls) ensures a in Compiled(Members(acls)) { assert Defaulted(a) == a; }
    forall a | a in Compiled(Members(acls)) ensures a in Members(acls) { var x :| x in acls && Defaulted(x) == a; }
  }

  /** The manifests compile without conflict to exactly the live tuples. */
  ghost predicate AclFaithful(topics: seq<KafkaTopic>, policies: seq<Policy>, acls: seq<Acl>)
    reads Each(topics)
  {
    ConflictFree(Granted(Each(topics)) + PolicySet(policies)) && Granted(Each(topics)) + PolicySet(policies) == Members(acls)
  }

  /** The cluster ids are there and the live bindings survive recompilation. */
  ghost predicate Importable(noTopics: bool, rbs: seq<Binding>, cfg: Option<Clusters>) {
    && cfg.Some? && (noTopics || cfg.value.kafka != "")
    && Resolves(rbs, cfg.value) && RecompiledSet(rbs, cfg.value) == Members(rbs)
  }

  /** For bindings listed through the configured scopes, all that is needed is
      a Kafka cluster id, and not even that when there is nothing to compile. */
  lemma ListedImportable(noTopics: bool, rbs: seq<Binding>, cfg: Option<Clusters>)
    requires cfg.Some? && forall b :: b in rbs ==> ListedFrom(b, cfg.value)
    ensures Importable(noTopics, rbs, cfg) <==> cfg.value.kafka != "" || (noTopics && rbs == [])
    ensures (Once(rbs)) ==> Unique(rbs, Re(cfg.value))
  {
    forall b | b in rbs
      ensures Recompiled(b, cfg.value) == b && (ResolveScope(b.scope.scopeType, cfg.value).Some? <==> cfg.value.kafka != "")
    {
      ListedRecompiles(b, cfg.value);
    }
    assert RecompiledSet(rbs, cfg.value) == Members(rbs) by {
      forall b | b in rbs ensures b in RecompiledSet(rbs, cfg.value) { assert Recompiled(b, cfg.value) == b; }
    }
    if rbs != [] { assert rbs[0] in rbs; }
    if Once(rbs) {
      forall i, j | 0 <= i < j < |rbs| ensures Re(cfg.value)(rbs[i]) != Re(cfg.value)(rbs[j]) {
        assert rbs[i] in rbs && rbs[j] in rbs;
      }
    }
  }

  /** Topic access binds kafka-scoped roles only, and only if there is a topic. */
  lemma BoundScope(topics: seq<KafkaTopic>, c: Clusters, b: Binding)
    requires b in Bound(Each(topics), c)
    ensures topics != [] && b.scope == Scoped("kafka", c)
  {
    BoundMember(AccessOf(Each(topics)), c, b);
    var tp :| BindsAt(AccessOf(Each(topics)), tp, c, b);
    assert tp in topics;
  }

  lemma FoldedResolves(topics: seq<KafkaTopic>, rbs: seq<Binding>, leftover: seq<Binding>, c: Clusters)
    requires Bound(Each(topics), c) + RecompiledSet(leftover, c) == RecompiledSet(rbs, c)
    requires topics == [] || c.kafka != ""
    ensures Resolves(rbs, c) <==> Resolves(leftover, c)
  {
    if Resolves(rbs, c) {
      forall b | b in leftover ensures ResolveScope(b.scope.scopeType, c).Some? {
        assert Recompiled(b, c) in RecompiledSet(rbs, c);
        var x :| x in rbs && Recompiled(x, c) == Recompiled(b, c);
      }
    }
    if Resolves(leftover, c) {
      forall b | b in rbs ensures ResolveScope(b.scope.scopeType, c).Some? {
        assert Recompiled(b, c) in RecompiledSet(rbs, c);
        if Recompiled(b, c) in Bound(Each(topics), c) {
          BoundScope(topics, c, Recompiled(b, c));
        } else {
          var x :| x in leftover && Recompiled(x, c) == Recompiled(b, c);
        }
      }
    }
  }

  /** Recompiling changes none of these bindings. */
  ghost predicate Settled(bs: set<Binding>, c: Clusters) { forall b :: b in bs ==> Recompiled(b, c) == b }

  lemma SettledWithin(rbs: seq<Binding>, bound: set<Binding>, c: Clusters)
    requires Settled(bound, c)
    ensures bound + RecompiledSet(rbs, c) == Members(rbs)
       <==> RecompiledSet(rbs, c) == Members(rbs) && bound <= Members(rbs)
  {
    if bound + RecompiledSet(rbs, c) == Members(rbs) {
      forall b | b in Members(rbs) ensures b in RecompiledSet(rbs, c) {
        assert b in bound || b in RecompiledSet(rbs, c);
        assert Recompiled(b, c) in RecompiledSet(rbs, c);
      }
    }
  }

  /** What a fold compiles back to, when topics bound `bound` before it. */
  lemma FoldedFaithful(topics: seq<KafkaTopic>, ms: seq<RoleBindingManifest>, rbs: seq<Binding>, leftover: seq<Binding>,
                       names: seq<string>, bound: set<Binding>, c: Clusters)
    requires Bound(Each(topics), c) + RecompiledSet(leftover, c) == bound + RecompiledSet(rbs, c)
    requires Manifested(ms, leftover, names) && Settled(bound, c)
    ensures RbacFaithful(topics, ms, rbs, c) <==> Importable(topics == [], rbs, Some(c)) && bound <= Members(rbs)
  {
    ManifestedIds(ms, leftover, names, c);
    ManifestedResolves(ms, leftover, names, c);
    SettledWithin(rbs, bound, c);
    if (topics == [] || c.kafka != "") && RecompiledSet(rbs, c) == Members(rbs) && bound <= Members(rbs) {
      assert bound + RecompiledSet(rbs, c) == RecompiledSet(rbs, c);
      FoldedResolves(topics, rbs, leftover, c);
    }
  }

  // ---- both folds on one set of topics -----------------------------------

  lemma NoEntries(index: TopicIndex, accesses: map<KafkaTopic, TopicAccess>)
    requires forall tp :: tp in accesses ==> accesses[tp] == NO_ACCESS
    ensures EntriesOf(index, accesses) == {}
  {
  }

  lemma FoldedPlain(acls: set<Acl>, names: set<string>)
    ensures Plain(FoldedLines(acls, names))
  {
  }

  lemma GrantedWithRoles(index: TopicIndex, mid: map<KafkaTopic, TopicAccess>, end: map<KafkaTopic, TopicAccess>, lines: set<Entry>)
    requires CoversIndex(index, mid) && CoversIndex(index, end)
    requires EntriesOf(index, end) == EntriesOf(index, mid) + lines
    ensures GrantedBy(end) == GrantedBy(mid) + GrantedOf(lines)
  {
    GrantedByEntries(index, mid);
    GrantedByEntries(index, end);
    GrantedOfUnion(EntriesOf(index, mid), lines);
  }

  lemma LinesSettled(lines: set<Entry>, c: Clusters)
    ensures Settled(BoundOf(lines, c), c)
  {
  }

  lemma GrantsDefaulted(lines: set<Entry>, a: Acl)
    requires a in GrantedOf(lines)
    ensures Defaulted(a) == a
  {
  }

  /** What the ACL side compiles back to, when roles brought `more`. */
  lemma FoldedClean(compiled: set<Acl>, acls: seq<Acl>, more: set<Acl>)
    requires compiled == Compiled(Members(acls)) + more && forall a :: a in more ==> Defaulted(a) == a
    ensures ConflictFree(compiled) && compiled == Members(acls) <==> CleanAcls(acls) && more <= Members(acls)
  {
    if compiled == Members(acls) {
      forall a | a in Members(acls) ensures a in Compiled(Members(acls)) {
        assert a in compiled;
        assert Defaulted(a) in Compiled(Members(acls));
        if a in Compiled(Members(acls)) && a !in more { var x :| x in Members(acls) && Defaulted(x) == a; }
      }
    }
  }

  /** The lines each side's live grants fold into. */
  function AclLines(snap: Snapshot, on: Backends, names: set<string>): set<Entry> {
    if on.acl then FoldedLines(Members(snap.acls), names) else {}
  }
  function BindingLines(snap: Snapshot, on: Backends, names: set<string>): set<Entry> {
    if on.rbac then RoleLines(snap.bindings, names) else {}
  }

  /** Every tuple that the folded roles grant is live. */
  predicate RolesGranted(snap: Snapshot, on: Backends, names: set<string>) {
    GrantedOf(BindingLines(snap, on, names)) <= Members(snap.acls)
  }

  /** Every role that the folded tuples bind is live. */
  predicate TuplesBound(snap: Snapshot, on: Backends, names: set<string>, c: Clusters) {
    BoundOf(AclLines(snap, on, names), c) <= Members(snap.bindings)
  }

  /** What topics grant and what policies hold is the live set and what folded roles bring. */
  ghost predicate AclsConserved(snap: Snapshot, on: Backends, names: set<string>, c: Clusters, granted: set<Acl>, policies: seq<Policy>) {
    on.acl && (on.rbac ==> Unique(snap.bindings, Re(c))) ==>
      granted + PolicySet(policies) == Compiled(Members(snap.acls)) + GrantedOf(BindingLines(snap, on, names))
  }

  /** What topics bind and what is left over is the live set and what folded tuples bring. */
  ghost predicate BindingsConserved(snap: Snapshot, on: Backends, names: set<string>, c: Clusters, bound: set<Binding>, leftover: seq<Binding>) {
    on.rbac ==> bound + RecompiledSet(leftover, c) == BoundOf(AclLines(snap, on, names), c) + RecompiledSet(snap.bindings, c)
  }

  method FoldAccess(index: TopicIndex, topics: seq<KafkaTopic>, snap: Snapshot, on: Backends, ghost c: Clusters)
    returns (policies: seq<Policy>, ms: seq<RoleBindingManifest>, leftover: seq<Binding>, ghost names: seq<string>)
    requires Indexed(index, topics) && NoAccessYet(Each(topics))
    modifies index.Values
    ensures AclsConserved(snap, on, index.Keys, c, Granted(Each(topics)), policies)
    ensures BindingsConserved(snap, on, index.Keys, c, Bound(Each(topics), c), leftover)
    ensures Manifested(ms, leftover, names) && (Unique(snap.bindings, Re(c)) ==> Unique(leftover, Re(c)))
    ensures (!on.acl ==> policies == []) && (!on.rbac ==> ms == [])
  {
    var raw := FoldAcls(index, topics, snap, on, c);
    policies := BuildPolicies(raw);
    ms, leftover, names := [], [], [];
    ghost var mid := AccessOf(index.Values);
    leftover := FoldBindings(index, snap, on, c);
    if on.rbac && |snap.bindings| > 0 { ms, names := BuildManifests(leftover); }
    if on.acl && (on.rbac ==> Unique(snap.bindings, Re(c))) {
      WithRoles(GrantedBy(mid), GrantedOf(BindingLines(snap, on, index.Keys)), Granted(index.Values), PolicySet(policies),
                Compiled(Members(snap.acls)));
    }
  }

  method FoldBindings(index: TopicIndex, snap: Snapshot, on: Backends, ghost c: Clusters) returns (leftover: seq<Binding>)
    requires Keyed(index) && Plain(Entries(index))
    modifies index.Values
    ensures !on.rbac || |snap.bindings| == 0 ==> leftover == []
    ensures on.rbac ==> Bound(index.Values, c) + RecompiledSet(leftover, c) == old(Bound(index.Values, c)) + RecompiledSet(snap.bindings, c)
    ensures Unique(snap.bindings, Re(c)) ==> Unique(leftover, Re(c))
    ensures (on.rbac ==> Unique(snap.bindings, Re(c))) ==>
      Granted(index.Values) == old(Granted(index.Values)) + GrantedOf(BindingLines(snap, on, index.Keys))
  {
    leftover := [];
    ghost var mid := AccessOf(index.Values);
    if on.rbac && |snap.bindings| > 0 { leftover := FoldRoleBindings(index, snap.bindings, c); }
    if on.rbac ==> Unique(snap.bindings, Re(c)) {
      GrantedWithRoles(index, mid, AccessOf(index.Values), BindingLines(snap, on, index.Keys));
    }
  }

  lemma WithRoles<T>(mid: set<T>, more: set<T>, end: set<T>, policies: set<T>, live: set<T>)
    requires mid + policies == live && end == mid + more
    ensures end + policies == live + more
  {
    forall x ensures x in end + policies <==> x in live + more { assert x in mid + policies <==> x in live; }
  }

  method FoldAcls(index: TopicIndex, topics: seq<KafkaTopic>, snap: Snapshot, on: Backends, ghost c: Clusters) returns (raw: seq<Acl>)
    requires Indexed(index, topics) && NoAccessYet(Each(topics))
    modifies index.Values
    ensures Entries(index) == AclLines(snap, on, index.Keys) && Plain(Entries(index))
    ensures Bound(index.Values, c) == BoundOf(AclLines(snap, on, index.Keys), c)
    ensures if on.acl then Granted(index.Values) + Compiled(Members(raw)) == Compiled(Members(snap.acls)) else raw == []
  {
    NothingGranted(Each(topics));
    NoEntries(index, AccessOf(index.Values));
    FoldedPlain(Members(snap.acls), index.Keys);
    raw := [];
    if on.acl { raw := ClassifyAndFold(index, snap.acls); }
    BoundByEntries(index, AccessOf(index.Values), c);
  }

  datatype AccessManifests = AccessManifests(policies: seq<Policy>, roleBindings: seq<RoleBindingManifest>,
                                             fellBack: bool, faithful: bool)

  /** Every grant as its own resource, on topics without access blocks. */
  method FallbackAllExplicit(topics: seq<KafkaTopic>, snap: Snapshot, on: Backends)
    returns (policies: seq<Policy>, ms: seq<RoleBindingManifest>, ghost names: seq<string>)
    modifies Each(topics)
    ensures NoAccessYet(Each(topics))
    ensures on.acl ==> PolicySet(policies) == Compiled(Members(snap.acls))
    ensures on.rbac ==> Manifested(ms, snap.bindings, names)
    ensures (!on.acl ==> policies == []) && (!on.rbac ==> ms == [])
  {
    ClearAccess(topics);
    policies, ms, names := [], [], [];
    if on.acl { policies := BuildPolicies(snap.acls); }
    if on.rbac { ms, names := BuildManifests(snap.bindings); }
  }

  lemma FallbackFaithful(topics: seq<KafkaTopic>, policies: seq<Policy>, acls: seq<Acl>)
    requires NoAccessYet(Each(topics)) && PolicySet(policies) == Compiled(Members(acls))
    ensures AclFaithful(topics, policies, acls) <==> CleanAcls(acls)
  {
    NothingGranted(Each(topics));
    assert {} + PolicySet(policies) == PolicySet(policies);
  }

  lemma FallbackBindings(topics: seq<KafkaTopic>, ms: seq<RoleBindingManifest>, rbs: seq<Binding>, names: seq<string>, c: Clusters)
    requires NoAccessYet(Each(topics)) && Manifested(ms, rbs, names)
    ensures RbacFaithful(topics, ms, rbs, c) <==> Importable(topics == [], rbs, Some(c))
    ensures Unique(rbs, Re(c)) ==> NoRivals(AllItems(ms, c))
  {
    NothingGranted(Each(topics));
    assert Bound(Each(topics), c) + RecompiledSet(rbs, c) == RecompiledSet(rbs, c);
    FoldedFaithful(topics, ms, rbs, rbs, names, {}, c);
    ManifestedNoRivals(ms, rbs, names, c);
  }

  /** An input on which the fallback is not faithful: one subject both allowed
      and denied. */
  lemma ContradictionUnfaithful(topics: seq<KafkaTopic>, policies: seq<Policy>, a: Acl)
    requires a.permission == "Allow"
    requires NoAccessYet(Each(topics)) && PolicySet(policies) == Compiled(Members([a, a.(permission := "Deny")]))
    ensures !CleanAcls([a, a.(permission := "Deny")]) && !AclFaithful(topics, policies, [a, a.(permission := "Deny")])
  {
    var acls := [a, a.(permission := "Deny")];
    assert Contradict(acls[0], acls[1]) && acls[0] in Members(acls) && acls[1] in Members(acls);
    FallbackFaithful(topics, policies, acls);
  }

  /** And another: a topic on a cluster whose Kafka id is not configured. */
  lemma NoClusterIdUnfaithful(topics: seq<KafkaTopic>, ms: seq<RoleBindingManifest>, rbs: seq<Binding>, names: seq<string>, c: Clusters)
    requires topics != [] && c.kafka == "" && NoAccessYet(Each(topics)) && Manifested(ms, rbs, names)
    ensures !Importable(topics == [], rbs, Some(c)) && !RbacFaithful(topics, ms, rbs, c)
  {
    FallbackBindings(topics, ms, rbs, names, c);
  }

  /** Some configuration for the ghost parameter when there is none. */
  function ConfigOr(cfg: Option<Clusters>): Clusters { if cfg.Some? then cfg.value else Clusters("", "", "", "") }

  /** The verdict on the folded manifests, in terms of the live grants. */
  ghost predicate Foldable(noTopics: bool, snap: Snapshot, on: Backends, names: set<string>, cfg: Option<Clusters>) {
    && (on.acl ==> CleanAcls(snap.acls) && RolesGranted(snap, on, names))
    && (on.rbac ==> Importable(noTopics, snap.bindings, cfg) && TuplesBound(snap, on, names, cfg.value))
  }

  /** On one backend only the round trip of its own side is in the way. */
  lemma FoldableAlone(noTopics: bool, snap: Snapshot, on: Backends, names: set<string>, cfg: Option<Clusters>)
    requires !(on.acl && on.rbac)
    ensures Foldable(noTopics, snap, on, names, cfg) <==>
      (on.acl ==> CleanAcls(snap.acls)) && (on.rbac ==> Importable(noTopics, snap.bindings, cfg))
  {
    assert GrantedOf({}) == {};
    forall c ensures BoundOf({}, c) == {} {}
  }

  /** On both, one producer's tuples without a role of the same meaning are
      enough: folded into the topic they would bind that role. */
  lemma FoldOverreaches(p: string, t: string, cfg: Option<Clusters>)
    ensures var write := Acl(p, "*", "topic", t, "literal", "Write", "Allow");
      var snap := Snapshot([], [write, write.(operation := "Describe")], [], [], []);
      CleanAcls(snap.acls) && !Foldable(false, snap, Backends(true, true), {t}, cfg)
  {
    var write := Acl(p, "*", "topic", t, "literal", "Write", "Allow");
    var acls := [write, write.(operation := "Describe")];
    var snap := Snapshot([], acls, [], [], []);
    PlainAcls(acls);
    if cfg.Some? {
      var h, live := HolderOf(write), Members(acls);
      assert acls[0] in live && acls[1] in live;
      assert OpsOn(live, h, "topic", t) == PRODUCER_OPS;
      var line := Produces(t, FoldedProducer(h));
      assert line in HolderLines(live, {t}, h);
      assert line in FoldedLines(live, {t});
      assert KafkaGrant(p, "DeveloperWrite", "Topic", t, cfg.value) in EntryRoles(line, cfg.value);
      assert KafkaGrant(p, "DeveloperWrite", "Topic", t, cfg.value) in BoundOf(AclLines(snap, Backends(true, true), {t}), cfg.value);
    }
  }

  /** Identities that stay distinct when recompiled. */
  ghost predicate DistinctBindings(snap: Snapshot, on: Backends, cfg: Option<Clusters>) {
    on.rbac && cfg.Some? ==> Unique(snap.bindings, Re(cfg.value))
  }

  /** Fold, compile back, and fall back when the result is not the live state:
      exactly when a side cannot round-trip, or the lines folded for one side
      grant something on the other that is not live. */
  method BuildAccess(index: TopicIndex, topics: seq<KafkaTopic>, snap: Snapshot, on: Backends, cfg: Option<Clusters>)
    returns (m: AccessManifests)
    requires Indexed(index, topics) && NoAccessYet(Each(topics))
    modifies index.Values
    ensures on.acl && CleanAcls(snap.acls) ==> AclFaithful(topics, m.policies, snap.acls)
    ensures on.acl && m.fellBack ==> (m.faithful <==> AclFaithful(topics, m.policies, snap.acls))
    ensures on.acl && m.fellBack ==> (m.faithful <==> CleanAcls(snap.acls))
    ensures on.rbac && Importable(topics == [], snap.bindings, cfg) && Unique(snap.bindings, Re(cfg.value)) ==>
      RbacFaithful(topics, m.roleBindings, snap.bindings, cfg.value) && NoRivals(AllItems(m.roleBindings, cfg.value))
    ensures on.rbac && m.fellBack && cfg.Some? ==>
      (RbacFaithful(topics, m.roleBindings, snap.bindings, cfg.value) <==> Importable(topics == [], snap.bindings, cfg))
    ensures DistinctBindings(snap, on, cfg) ==> (m.fellBack <==> !Foldable(topics == [], snap, on, index.Keys, cfg))
    ensures (!on.acl ==> m.policies == []) && (!on.rbac ==> m.roleBindings == [])
  {
    var policies, ms, clean := FoldChecked(index, topics, snap, on, cfg);
    if clean { return AccessManifests(policies, ms, false, true); }
    var faithful;
    policies, ms, faithful := FallbackChecked(topics, snap, on, cfg);
    m := AccessManifests(policies, ms, true, faithful);
  }

  method FoldChecked(index: TopicIndex, topics: seq<KafkaTopic>, snap: Snapshot, on: Backends, cfg: Option<Clusters>)
    returns (policies: seq<Policy>, ms: seq<RoleBindingManifest>, clean: bool)
    requires Indexed(index, topics) && NoAccessYet(Each(topics))
    modifies index.Values
    ensures clean && on.acl ==> AclFaithful(topics, policies, snap.acls)
    ensures clean && on.rbac ==> cfg.Some? && RbacFaithful(topics, ms, snap.bindings, cfg.value)
    ensures on.rbac && cfg.Some? && Unique(snap.bindings, Re(cfg.value)) ==> NoRivals(AllItems(ms, cfg.value))
    ensures DistinctBindings(snap, on, cfg) ==> (clean <==> Foldable(topics == [], snap, on, index.Keys, cfg))
    ensures (!on.acl ==> policies == []) && (!on.rbac ==> ms == [])
  {
    ghost var c := ConfigOr(cfg);
    var leftover;
    ghost var names;
    policies, ms, leftover, names := FoldAccess(index, topics, snap, on, c);
    ManifestedNoRivals(ms, leftover, names, c);
    FoldVerdict(topics, policies, ms, leftover, names, snap, on, index.Keys, c);
    clean := CheckFolded(topics, policies, ms, snap, on, cfg);
  }

  method CheckFolded(topics: seq<KafkaTopic>, policies: seq<Policy>, ms: seq<RoleBindingManifest>, snap: Snapshot, on: Backends,
                     cfg: Option<Clusters>) returns (clean: bool)
    ensures clean <==>
      && (on.acl ==> AclFaithful(topics, policies, snap.acls))
      && (on.rbac ==> cfg.Some? && RbacFaithful(topics, ms, snap.bindings, cfg.value)
                      && RivalsWithin(AllItems(ms, cfg.value), Bound(Each(topics), cfg.value)))
  {
    var aclOk, rbacOk := true, true;
    if on.acl { aclOk := RoundTripsClean(topics, policies, snap.acls); }
    if on.rbac { rbacOk := RoleBindingsRoundTripClean(topics, ms, snap.bindings, cfg); }
    clean := aclOk && rbacOk;
  }

  method FallbackChecked(topics: seq<KafkaTopic>, snap: Snapshot, on: Backends, cfg: Option<Clusters>)
    returns (policies: seq<Policy>, ms: seq<RoleBindingManifest>, faithful: bool)
    modifies Each(topics)
    ensures on.acl ==> (faithful <==> AclFaithful(topics, policies, snap.acls)) && (faithful <==> CleanAcls(snap.acls))
    ensures on.rbac && cfg.Some? ==>
      (RbacFaithful(topics, ms, snap.bindings, cfg.value) <==> Importable(topics == [], snap.bindings, cfg))
    ensures on.rbac && cfg.Some? && Unique(snap.bindings, Re(cfg.value)) ==> NoRivals(AllItems(ms, cfg.value))
    ensures (!on.acl ==> policies == []) && (!on.rbac ==> ms == [])
  {
    ghost var names;
    policies, ms, names := FallbackAllExplicit(topics, snap, on);
    faithful := true;
    if on.acl {
      faithful := RoundTripsClean(topics, policies, snap.acls);
      FallbackFaithful(topics, policies, snap.acls);
    }
    if on.rbac { FallbackBindings(topics, ms, snap.bindings, names, ConfigOr(cfg)); }
  }

  lemma FoldVerdict(topics: seq<KafkaTopic>, policies: seq<Policy>, ms: seq<RoleBindingManifest>, leftover: seq<Binding>,
                    names: seq<string>, snap: Snapshot, on: Backends, keys: set<string>, c: Clusters)
    requires AclsConserved(snap, on, keys, c, Granted(Each(topics)), policies)
    requires BindingsConserved(snap, on, keys, c, Bound(Each(topics), c), leftover)
    requires Manifested(ms, leftover, names)
    requires Unique(snap.bindings, Re(c)) ==> NoRivals(AllItems(ms, c))
    ensures on.acl && (on.rbac ==> Unique(snap.bindings, Re(c))) ==>
      (AclFaithful(topics, policies, snap.acls) <==> CleanAcls(snap.acls) && RolesGranted(snap, on, keys))
    ensures on.rbac ==>
      (RbacFaithful(topics, ms, snap.bindings, c) <==>
         Importable(topics == [], snap.bindings, Some(c)) && TuplesBound(snap, on, keys, c))
    ensures Unique(snap.bindings, Re(c)) ==> RivalsWithin(AllItems(ms, c), Bound(Each(topics), c))
  {
    var more := GrantedOf(BindingLines(snap, on, keys));
    forall a | a in more ensures Defaulted(a) == a { GrantsDefaulted(BindingLines(snap, on, keys), a); }
    if on.acl && (on.rbac ==> Unique(snap.bindings, Re(c))) {
      FoldedClean(Granted(Each(topics)) + PolicySet(policies), snap.acls, more);
    }
    if on.rbac {
      LinesSettled(AclLines(snap, on, keys), c);
      FoldedFaithful(topics, ms, snap.bindings, leftover, names, BoundOf(AclLines(snap, on, keys), c), c);
    }
    if Unique(snap.bindings, Re(c)) { NoRivalsWithin(AllItems(ms, c), Bound(Each(topics), c)); }
  }
}
