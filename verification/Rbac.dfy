/** Desired role bindings: compiling explicit manifests and topic access, and
    the identity-uniqueness rule between explicit manifests. */
module Rbac {
  import opened Basics
  import opened Model
  import opened ManagedSet
  import opened Access

  /** The MDS cluster ids; an empty one is not configured. */
  datatype Clusters = Clusters(kafka: string, schemaRegistry: string, connect: string, ksql: string)

  datatype RoleBindingManifest = RoleBindingManifest(ns: string, name: string, principal: string, role: string,
                                                     scopeType: string, resources: seq<Resource>, mode: Mode)

  const EXPLICIT: string := "KafkaRoleBinding"

  function SubCluster(scopeType: string, c: Clusters): string {
    if scopeType == "schema-registry" then c.schemaRegistry
    else if scopeType == "connect" then c.connect
    else if scopeType == "ksql" then c.ksql
    else ""
  }

  predicate Known(scopeType: string) { scopeType == "schema-registry" || scopeType == "connect" || scopeType == "ksql" }

  function Scoped(scopeType: string, c: Clusters): MdsScope { MdsScope(scopeType, c.kafka, SubCluster(scopeType, c)) }

  /** Fails on a missing cluster id; an unknown type passes through. */
  function ResolveScope(scopeType: string, c: Clusters): Option<MdsScope> {
    if c.kafka == "" || (Known(scopeType) && SubCluster(scopeType, c) == "") then None else Some(Scoped(scopeType, c))
  }

  // ---- compilation -------------------------------------------------------

  function ResourceItem(m: RoleBindingManifest, scope: MdsScope): Resource -> seq<Item<Binding>> {
    (r: Resource) => [Item(Binding(m.principal, m.role, scope, Some(r.(patternType := OrElse(r.patternType, "literal")))),
                           m.mode, false, Source(EXPLICIT, m.ns, m.name))]
  }

  function ManifestItems(m: RoleBindingManifest, scope: MdsScope): seq<Item<Binding>> {
    if m.resources == [] then [Item(Binding(m.principal, m.role, scope, None), m.mode, false, Source(EXPLICIT, m.ns, m.name))]
    else FlatMap(m.resources, ResourceItem(m, scope))
  }

  /** The cluster ids a scope type needs are there. */
  predicate IdsConfigured(scopeType: string, c: Clusters) {
    && c.kafka != ""
    && (scopeType == "schema-registry" ==> c.schemaRegistry != "")
    && (scopeType == "connect" ==> c.connect != "")
    && (scopeType == "ksql" ==> c.ksql != "")
  }

  /** The scope the ids make of it. */
  predicate ResolvesTo(scopeType: string, c: Clusters, scope: MdsScope) {
    && scope.scopeType == scopeType && scope.kafkaCluster == c.kafka
    && match scopeType
       case "schema-registry" => scope.subCluster == c.schemaRegistry
       case "connect" => scope.subCluster == c.connect
       case "ksql" => scope.subCluster == c.ksql
       case _ => scope.subCluster == ""
  }

  /** An item that carries what the manifest says, on the given resource. */
  predicate Carries(it: Item<Binding>, m: RoleBindingManifest, c: Clusters, resource: Option<Resource>) {
    && it.mode == m.mode && !it.prune && it.source == Source("KafkaRoleBinding", m.ns, m.name)
    && it.id.principal == m.principal && it.id.role == m.role && ResolvesTo(m.scopeType, c, it.id.scope)
    && it.id.resource == resource
  }

  /** One item for each resource in order, or one without a resource. A missing
      pattern type is literal. */
  method Compile(m: RoleBindingManifest, c: Clusters) returns (r: Option<seq<Item<Binding>>>)
    ensures r.Some? <==> IdsConfigured(m.scopeType, c)
    ensures r.Some? && m.resources == [] ==> |r.value| == 1 && Carries(r.value[0], m, c, None)
    ensures r.Some? && m.resources != [] ==> |r.value| == |m.resources|
    ensures r.Some? && m.resources != [] ==> forall i :: 0 <= i < |m.resources| ==>
      var res := m.resources[i];
      Carries(r.value[i], m, c, Some(Resource(res.resourceType, res.name, if res.patternType == "" then "literal" else res.patternType)))
    ensures r.Some? <==> ResolveScope(m.scopeType, c).Some?
    ensures r.Some? ==> r.value == ManifestItems(m, Scoped(m.scopeType, c))
  {
    ScopeResolves(m.scopeType, c);
    var scope := ResolveScope(m.scopeType, c);
    if scope.None? { return None; }
    if |m.resources| == 0 { return Some(ManifestItems(m, scope.value)); }
    var out: seq<Item<Binding>> := [];
    for i := 0 to |m.resources|
      invariant out == FlatMap(m.resources[..i], ResourceItem(m, scope.value)) && |out| == i
      invariant forall j :: 0 <= j < i ==>
        var res := m.resources[j];
        Carries(out[j], m, c, Some(Resource(res.resourceType, res.name, if res.patternType == "" then "literal" else res.patternType)))
    {
      FlatMapStep(m.resources, i, ResourceItem(m, scope.value));
      var res := m.resources[i];
      var pt := if res.patternType == "" then "literal" else res.patternType;
      out := out + [Item(Binding(m.principal, m.role, scope.value, Some(res.(patternType := pt))), m.mode, false,
                         Source(EXPLICIT, m.ns, m.name))];
    }
    assert m.resources[..|m.resources|] == m.resources;
    r := Some(out);
  }

  lemma ScopeResolves(scopeType: string, c: Clusters)
    ensures ResolveScope(scopeType, c).Some? <==> IdsConfigured(scopeType, c)
    ensures ResolveScope(scopeType, c).Some? ==>
      ResolveScope(scopeType, c).value == Scoped(scopeType, c) && ResolvesTo(scopeType, c, Scoped(scopeType, c))
  {
  }

  function KafkaGrant(principal: string, role: string, resourceType: string, name: string, c: Clusters): Binding {
    Binding(principal, role, Scoped("kafka", c), Some(Resource(resourceType, name, "literal")))
  }

  function Derived(b: Binding, source: Source): Item<Binding> { Item(b, Unattributed, false, source) }

  function ProducerBinding(topic: string, source: Source, c: Clusters): Producer -> seq<Item<Binding>> {
    (p: Producer) => [Derived(KafkaGrant(p.principal, "DeveloperWrite", "Topic", topic, c), source)]
  }

  function ConsumerBindings(topic: string, source: Source, c: Clusters): Consumer -> seq<Item<Binding>> {
    (u: Consumer) => [Derived(KafkaGrant(u.principal, "DeveloperRead", "Topic", topic, c), source),
                      Derived(KafkaGrant(u.principal, "DeveloperRead", "Group", u.group, c), source)]
  }

  function AccessItems(topic: string, access: TopicAccess, source: Source, c: Clusters): seq<Item<Binding>> {
    FlatMap(access.producers, ProducerBinding(topic, source, c)) + FlatMap(access.consumers, ConsumerBindings(topic, source, c))
  }

  /** What a role cannot express: a host or a custom operation list. */
  datatype Coarsening =
    | HostDropped(context: string, principal: string, host: string)
    | OperationsDropped(context: string, principal: string, operations: seq<string>)

  function HostLoss(context: string, principal: string, host: string): seq<Coarsening> {
    if host == "" || host == "*" then [] else [HostDropped(context, principal, host)]
  }

  function OpsLoss(context: string, principal: string, ops: seq<string>, bundle: seq<string>): seq<Coarsening> {
    if ops == [] || Members(ops) == Members(bundle) then [] else [OperationsDropped(context, principal, ops)]
  }

  function ProducerLoss(): Producer -> seq<Coarsening> {
    (p: Producer) => HostLoss("producer", p.principal, p.host)
                     + OpsLoss("producer", p.principal, p.operations, ["Write", "Describe"])
  }

  function ConsumerLoss(): Consumer -> seq<Coarsening> {
    (u: Consumer) => HostLoss("consumer", u.principal, u.host)
                     + OpsLoss("consumer topic", u.principal, u.topicOperations, ["Read", "Describe"])
                     + OpsLoss("consumer group", u.principal, u.groupOperations, ["Read"])
  }

  function AccessLoss(access: TopicAccess): seq<Coarsening> {
    FlatMap(access.producers, ProducerLoss()) + FlatMap(access.consumers, ConsumerLoss())
  }

  /** Hosts and operation lists are dropped with a warning: a role has neither. */
  method CompileTopicAccess(topic: string, access: TopicAccess, source: Source, c: Clusters)
    returns (r: Option<seq<Item<Binding>>>, warnings: seq<Coarsening>)
    ensures r.Some? <==> c.kafka != ""
    ensures r.Some? ==> r.value == AccessItems(topic, access, source, c)
    ensures warnings == if r.Some? then AccessLoss(access) else []
  {
    if ResolveScope("kafka", c).None? { return None, []; }
    var written, writeWarnings := CompileProducers(topic, access.producers, source, c);
    var read, readWarnings := CompileConsumers(topic, access.consumers, source, c);
    r, warnings := Some(written + read), writeWarnings + readWarnings;
  }

  method CompileProducers(topic: string, producers: seq<Producer>, source: Source, c: Clusters)
    returns (out: seq<Item<Binding>>, warnings: seq<Coarsening>)
    ensures out == FlatMap(producers, ProducerBinding(topic, source, c)) && warnings == FlatMap(producers, ProducerLoss())
  {
    out, warnings := [], [];
    for i := 0 to |producers|
      invariant out == FlatMap(producers[..i], ProducerBinding(topic, source, c))
      invariant warnings == FlatMap(producers[..i], ProducerLoss())
    {
      FlatMapStep(producers, i, ProducerBinding(topic, source, c));
      FlatMapStep(producers, i, ProducerLoss());
      var p := producers[i];
      warnings := warnings + (HostLoss("producer", p.principal, p.host)
                              + OpsLoss("producer", p.principal, p.operations, ["Write", "Describe"]));
      out := out + [Derived(KafkaGrant(p.principal, "DeveloperWrite", "Topic", topic, c), source)];
    }
    assert producers[..|producers|] == producers;
  }

  method CompileConsumers(topic: string, consumers: seq<Consumer>, source: Source, c: Clusters)
    returns (out: seq<Item<Binding>>, warnings: seq<Coarsening>)
    ensures out == FlatMap(consumers, ConsumerBindings(topic, source, c)) && warnings == FlatMap(consumers, ConsumerLoss())
  {
    out, warnings := [], [];
    for i := 0 to |consumers|
      invariant out == FlatMap(consumers[..i], ConsumerBindings(topic, source, c))
      invariant warnings == FlatMap(consumers[..i], ConsumerLoss())
    {
      FlatMapStep(consumers, i, ConsumerBindings(topic, source, c));
      FlatMapStep(consumers, i, ConsumerLoss());
      var u := consumers[i];
      warnings := warnings + (HostLoss("consumer", u.principal, u.host)
                              + OpsLoss("consumer topic", u.principal, u.topicOperations, ["Read", "Describe"])
                              + OpsLoss("consumer group", u.principal, u.groupOperations, ["Read"]));
      out := out + [Derived(KafkaGrant(u.principal, "DeveloperRead", "Topic", topic, c), source),
                    Derived(KafkaGrant(u.principal, "DeveloperRead", "Group", u.group, c), source)];
    }
    assert consumers[..|consumers|] == consumers;
  }

  // ---- what the warnings mean --------------------------------------------

  /** The entry that a role stands for. */
  function PlainProducer(p: Producer): Producer { Producer(p.principal, "", []) }
  function PlainConsumer(u: Consumer): Consumer { Consumer(u.principal, "", u.group, [], []) }

  ghost predicate SameSet(xs: seq<Acl>, ys: seq<Acl>) { forall x :: x in xs <==> x in ys }

  /** As ACLs, an expansion with a host and a list of operations is that of the
      plain entry exactly when neither is lost. */
  lemma ExpansionLoss(principal: string, host: string, resourceType: string, name: string, ops: seq<string>, bundle: seq<string>)
    requires bundle != []
    ensures SameSet(Expand(Grant(principal, host, resourceType, name), OrDefault(ops, bundle)),
                        Expand(Grant(principal, "", resourceType, name), bundle))
       <==> (host == "" || host == "*") && (ops == [] || Members(ops) == Members(bundle))
  {
    var g, plain := Grant(principal, host, resourceType, name), Grant(principal, "", resourceType, name);
    var lhs, rhs := Expand(g, OrDefault(ops, bundle)), Expand(plain, bundle);
    if SameSet(lhs, rhs) {
      assert plain.(operation := bundle[0]) in rhs;
      assert plain.(operation := bundle[0]) in lhs;
      assert g == plain;
      forall op ensures op in OrDefault(ops, bundle) <==> op in bundle {
        assert g.(operation := op) in lhs <==> g.(operation := op) in rhs;
      }
      assert Members(OrDefault(ops, bundle)) == Members(bundle);
    } else {
      var x :| x in lhs <==> x !in rhs;
      assert x.operation in Members(OrDefault(ops, bundle)) <==> x.operation in OrDefault(ops, bundle);
      assert x.operation in Members(bundle) <==> x.operation in bundle;
    }
  }

  /** A producer entry is warned about exactly when, as ACLs, it grants other
      tuples than the plain entry its role stands for. */
  lemma ProducerWarned(topic: string, p: Producer)
    ensures ProducerLoss()(p) == [] <==> SameSet(ProducerStep(topic)(p), ProducerStep(topic)(PlainProducer(p)))
  {
    ExpansionLoss(p.principal, p.host, "topic", topic, p.operations, ["Write", "Describe"]);
  }

  lemma ConsumerWarned(topic: string, u: Consumer)
    ensures ConsumerLoss()(u) == [] <==> SameSet(ConsumerStep(topic)(u), ConsumerStep(topic)(PlainConsumer(u)))
  {
    var a, b := Expand(Grant(u.principal, u.host, "topic", topic), OrDefault(u.topicOperations, ["Read", "Describe"])),
                Expand(Grant(u.principal, u.host, "group", u.group), OrDefault(u.groupOperations, ["Read"]));
    var a', b' := Expand(Grant(u.principal, "", "topic", topic), ["Read", "Describe"]),
                  Expand(Grant(u.principal, "", "group", u.group), ["Read"]);
    ExpansionLoss(u.principal, u.host, "topic", topic, u.topicOperations, ["Read", "Describe"]);
    ExpansionLoss(u.principal, u.host, "group", u.group, u.groupOperations, ["Read"]);
    ApartMembers(a, b, a', b');
  }

  /** Topic tuples and group tuples do not mix. */
  lemma ApartMembers(a: seq<Acl>, b: seq<Acl>, a': seq<Acl>, b': seq<Acl>)
    requires forall x :: (x in a || x in a') ==> x.resourceType == "topic"
    requires forall x :: (x in b || x in b') ==> x.resourceType == "group"
    ensures SameSet(a + b, a' + b') <==> SameSet(a, a') && SameSet(b, b')
  {
    if SameSet(a + b, a' + b') {
      forall x ensures x in a <==> x in a' { assert x in a + b <==> x in a' + b'; }
      forall x ensures x in b <==> x in b' { assert x in a + b <==> x in a' + b'; }
    }
  }

  // ---- the desired set ---------------------------------------------------

  function AcceptAll(): (bool, Item<Binding>) -> Option<bool> { (s: bool, it: Item<Binding>) => Some(s) }

  /** Two distinct explicit manifests on one identity. */
  function Collision(): (Item<Binding>, Item<Binding>) -> bool {
    (x: Item<Binding>, it: Item<Binding>) => Rivals(x.source, it.source)
  }

  predicate Rivals(x: Source, y: Source) { x.kind == EXPLICIT && y.kind == EXPLICIT && x != y }

  function DesiredBindings(items: seq<Item<Binding>>): Built<Binding, bool> { Build(items, AcceptAll(), Collision(), true) }

  function ById(): Item<Binding> -> string { (it: Item<Binding>) => BindingKey(it.id) }

  method BuildDesiredBindings(items: seq<Item<Binding>>) returns (out: seq<Item<Binding>>, refused: seq<Item<Binding>>)
    ensures out == SortOn(DesiredBindings(items).out, ById()) && refused == DesiredBindings(items).refused
    ensures forall i, j :: 0 <= i < j < |out| ==> !StrLess(BindingKey(out[j].id), BindingKey(out[i].id))
  {
    out, refused := BuildDesiredSet(items, AcceptAll(), Collision(), true);
    SortAscending(out, ById());
    out := SortOn(out, ById());
  }

  function FirstSource(items: seq<Item<Binding>>, b: Binding): Option<Source> {
    if items == [] then None
    else
      var earlier := FirstSource(items[..|items| - 1], b);
      if earlier.Some? then earlier
      else if items[|items| - 1].id == b then Some(items[|items| - 1].source) else None
  }

  /** The identity was first requested by a rival explicit manifest. */
  function Collides(items: seq<Item<Binding>>): Item<Binding> -> bool {
    (it: Item<Binding>) => FirstSource(items, it.id).Some? && Rivals(FirstSource(items, it.id).value, it.source)
  }

  function Agrees(items: seq<Item<Binding>>): Item<Binding> -> bool { (it: Item<Binding>) => !Collides(items)(it) }

  lemma {:induction false} FirstSourceFound(items: seq<Item<Binding>>, b: Binding)
    ensures FirstSource(items, b).None? <==> forall it :: it in items ==> it.id != b
    ensures FirstSource(items, b).Some? ==> exists i :: FirstAt(items, b, i) && FirstSource(items, b) == Some(items[i].source)
  {
    if items != [] {
      var front, last := items[..|items| - 1], items[|items| - 1];
      assert items == front + [last];
      FirstSourceFound(front, b);
      if FirstSource(front, b).Some? {
        var i :| FirstAt(front, b, i) && FirstSource(front, b) == Some(front[i].source);
        assert FirstAt(items, b, i);
      } else if last.id == b {
        assert FirstAt(items, b, |front|);
      }
    }
  }

  predicate FirstAt(items: seq<Item<Binding>>, b: Binding, i: int) {
    0 <= i < |items| && items[i].id == b && forall j :: 0 <= j < i ==> items[j].id != b
  }

  lemma FirstSourceSnoc(front: seq<Item<Binding>>, it: Item<Binding>, b: Binding)
    ensures FirstSource(front + [it], b) ==
            if FirstSource(front, b).None? && it.id == b then Some(it.source) else FirstSource(front, b)
  {
    assert (front + [it])[..|front|] == front;
  }

  lemma EarlierVerdicts(front: seq<Item<Binding>>, it: Item<Binding>)
    ensures Filter(front, Agrees(front + [it])) == Filter(front, Agrees(front))
    ensures Filter(front, Collides(front + [it])) == Filter(front, Collides(front))
  {
    forall x | x in front ensures Collides(front + [it])(x) == Collides(front)(x) {
      FirstSourceFound(front, x.id);
      FirstSourceSnoc(front, it, x.id);
    }
    FilterCongruent(front, Agrees(front + [it]), Agrees(front));
    FilterCongruent(front, Collides(front + [it]), Collides(front));
  }

  /** The output elements carry the first source of their identity. */
  ghost predicate Attributed(items: seq<Item<Binding>>, out: seq<Item<Binding>>) {
    forall b :: FirstSource(items, b) == if Position(out, b) < |out| then Some(out[Position(out, b)].source) else None
  }

  lemma DesiredStep(b: Built<Binding, bool>, it: Item<Binding>, kept: seq<Item<Binding>>, items: seq<Item<Binding>>)
    requires b.out == Dedup(kept) && Attributed(items, b.out)
    ensures var b' := Take(b, it, AcceptAll(), Collision());
      && b'.state == b.state
      && Attributed(items + [it], b'.out)
      && (if Collides(items + [it])(it) then b'.out == Dedup(kept) && b'.refused == b.refused + [it]
          else b'.out == Dedup(kept + [it]) && b'.refused == b.refused)
  {
    assert (kept + [it])[..|kept|] == kept;
    FirstSourceSnoc(items, it, it.id);
    var i := Position(b.out, it.id);
    assert FirstSource(items, it.id) == if i < |b.out| then Some(b.out[i].source) else None;
    StepAttributed(b, it, items);
  }

  lemma StepAttributed(b: Built<Binding, bool>, it: Item<Binding>, items: seq<Item<Binding>>)
    requires Attributed(items, b.out)
    ensures Attributed(items + [it], Take(b, it, AcceptAll(), Collision()).out)
  {
    var i, out' := Position(b.out, it.id), Take(b, it, AcceptAll(), Collision()).out;
    if i == |b.out| {
      PositionAfterAppend(b.out, it);
    } else {
      PositionAfterMerge(b.out, i, it);
    }
    forall x ensures FirstSource(items + [it], x) == if Position(out', x) < |out'| then Some(out'[Position(out', x)].source) else None {
      FirstSourceSnoc(items, it, x);
    }
  }

  /** The walk keeps, merged per identity, exactly the requests that do not
      rival the first request on their identity, and refuses the others. */
  lemma {:induction false} DesiredBindingsLaw(items: seq<Item<Binding>>)
    ensures DesiredBindings(items).out == Dedup(Filter(items, Agrees(items)))
    ensures DesiredBindings(items).refused == Filter(items, Collides(items))
    ensures Attributed(items, DesiredBindings(items).out)
  {
    if items != [] {
      var front, it := items[..|items| - 1], items[|items| - 1];
      assert items == front + [it];
      DesiredBindingsLaw(front);
      EarlierVerdicts(front, it);
      FilterSnoc(front, it, Agrees(items));
      FilterSnoc(front, it, Collides(items));
      var kept := Filter(front, Agrees(front));
      DesiredStep(DesiredBindings(front), it, kept, front);
      assert DesiredBindings(items) == Take(DesiredBindings(front), it, AcceptAll(), Collision());
      assert kept + [] == kept;
    }
  }

  ghost predicate NoRivals(items: seq<Item<Binding>>) {
    forall x, y :: x in items && y in items && x.id == y.id ==> !Rivals(x.source, y.source)
  }

  /** Without rival manifests nothing is refused and every identity survives. */
  lemma NoCollisions(items: seq<Item<Binding>>)
    requires NoRivals(items)
    ensures DesiredBindings(items).refused == [] && DesiredBindings(items).out == Dedup(items)
  {
    DesiredBindingsLaw(items);
    forall x | x in items ensures Agrees(items)(x) {
      FirstSourceFound(items, x.id);
      var i :| FirstAt(items, x.id, i) && FirstSource(items, x.id) == Some(items[i].source);
      assert items[i] in items;
    }
    FilterEverything(items, Agrees(items));
    forall x ensures x !in Filter(items, Collides(items)) { FilterMember(items, Collides(items), x); }
    Empty(Filter(items, Collides(items)));
  }

  ghost predicate ExplicitFirst(items: seq<Item<Binding>>) {
    forall i, j :: 0 <= i < j < |items| && items[j].source.kind == EXPLICIT ==> items[i].source.kind == EXPLICIT
  }

  /** When explicit manifests are compiled before topic access, collisions are
      reported exactly when two manifests rival each other. */
  lemma CollisionsReported(items: seq<Item<Binding>>)
    requires ExplicitFirst(items)
    ensures DesiredBindings(items).refused == [] <==> NoRivals(items)
  {
    if NoRivals(items) {
      NoCollisions(items);
    } else {
      DesiredBindingsLaw(items);
      var x, y :| x in items && y in items && x.id == y.id && Rivals(x.source, y.source);
      FirstSourceFound(items, x.id);
      var i :| FirstAt(items, x.id, i) && FirstSource(items, x.id) == Some(items[i].source);
      var j :| 0 <= j < |items| && items[j] == x;
      assert items[i].source.kind == EXPLICIT;
      var z := if items[i].source == x.source then y else x;
      assert Collides(items)(z);
      FilterMember(items, Collides(items), z);
    }
  }

  ghost predicate Rivalry(items: seq<Item<Binding>>, b: Binding) {
    exists x, y :: x in items && y in items && x.id == b && y.id == b && Rivals(x.source, y.source)
  }

  /** In any list: something is refused on an identity exactly when manifests
      rival each other on it and its first request is explicit. */
  lemma RefusedIff(items: seq<Item<Binding>>, b: Binding)
    ensures (exists z :: z in DesiredBindings(items).refused && z.id == b) <==>
      Rivalry(items, b) && FirstSource(items, b).Some? && FirstSource(items, b).value.kind == EXPLICIT
  {
    DesiredBindingsLaw(items);
    FirstSourceFound(items, b);
    if z :| z in DesiredBindings(items).refused && z.id == b {
      FilterMember(items, Collides(items), z);
      var i :| FirstAt(items, b, i) && FirstSource(items, b) == Some(items[i].source);
      assert items[i] in items && Rivals(items[i].source, z.source);
    }
    if Rivalry(items, b) && FirstSource(items, b).Some? && FirstSource(items, b).value.kind == EXPLICIT {
      var x, y :| x in items && y in items && x.id == b && y.id == b && Rivals(x.source, y.source);
      var z := if FirstSource(items, b).value == x.source then y else x;
      assert Collides(items)(z);
      FilterMember(items, Collides(items), z);
    }
  }

  /** A topic-derived request that comes first on an identity hides any rivalry
      behind it: nothing on the identity is refused. */
  lemma DerivedRequestMasks(items: seq<Item<Binding>>, z: Item<Binding>)
    requires FirstSource(items, z.id).Some? && FirstSource(items, z.id).value.kind != EXPLICIT
    ensures z !in DesiredBindings(items).refused
  {
    RefusedIff(items, z.id);
  }

  /** Two rival manifests behind a topic's request: a collision goes unreported. */
  lemma RivalsMasked(derived: Item<Binding>, x: Item<Binding>, y: Item<Binding>)
    requires derived.id == x.id == y.id && derived.source.kind != EXPLICIT && Rivals(x.source, y.source)
    ensures !NoRivals([derived, x, y]) && DesiredBindings([derived, x, y]).refused == []
  {
    var items := [derived, x, y];
    assert x in items && y in items;
    assert FirstAt(items, derived.id, 0);
    forall z ensures z !in DesiredBindings(items).refused {
      if z in DesiredBindings(items).refused {
        DesiredBindingsLaw(items);
        FilterMember(items, Collides(items), z);
        FirstIsDerived(items, derived);
        DerivedRequestMasks(items, z);
      }
    }
    Empty(DesiredBindings(items).refused);
  }

  lemma FirstIsDerived(items: seq<Item<Binding>>, first: Item<Binding>)
    requires items != [] && items[0] == first
    ensures FirstSource(items, first.id) == Some(first.source)
  {
    FirstSourceFound(items, first.id);
    assert first in items;
    var i :| FirstAt(items, first.id, i) && FirstSource(items, first.id) == Some(items[i].source);
    assert i == 0;
  }
}
