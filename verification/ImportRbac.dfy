/** Importing role bindings: folding producer and consumer roles into topic
    access, and one explicit manifest for each of the rest. */
module ImportRbac {
  import opened Basics
  import opened Model
  import opened Access
  import opened Rbac
  import opened Manifests
  import opened Names

  // ---- what a live binding compiles back to ------------------------------

  /** The binding its manifest compiles to: scope ids come from the cluster. */
  function Recompiled(b: Binding, c: Clusters): Binding {
    Binding(b.principal, b.role, Scoped(b.scope.scopeType, c),
            if b.resource.None? then None
            else Some(b.resource.value.(patternType := OrElse(b.resource.value.patternType, "literal"))))
  }

  function Re(c: Clusters): Binding -> Binding { (b: Binding) => Recompiled(b, c) }

  function RecompiledSet(bs: seq<Binding>, c: Clusters): set<Binding> { set b | b in bs :: Recompiled(b, c) }

  lemma RecompiledConcat(xs: seq<Binding>, ys: seq<Binding>, c: Clusters)
    ensures RecompiledSet(xs + ys, c) == RecompiledSet(xs, c) + RecompiledSet(ys, c)
  {
    forall b | b in RecompiledSet(xs, c) + RecompiledSet(ys, c) ensures b in RecompiledSet(xs + ys, c) {
      var x :| (x in xs || x in ys) && Recompiled(x, c) == b;
      assert x in xs + ys;
    }
  }

  lemma RecompiledSnoc(xs: seq<Binding>, y: Binding, c: Clusters)
    ensures RecompiledSet(xs + [y], c) == RecompiledSet(xs, c) + {Recompiled(y, c)}
  {
    RecompiledConcat(xs, [y], c);
    assert RecompiledSet([y], c) == {Recompiled(y, c)};
  }

  lemma UniqueSnoc(xs: seq<Binding>, y: Binding, c: Clusters)
    requires Unique(xs, Re(c)) && Recompiled(y, c) !in RecompiledSet(xs, c)
    ensures Unique(xs + [y], Re(c))
  {
    assert forall x :: x in xs ==> Re(c)(x) != Re(c)(y);
  }

  // ---- the listing -------------------------------------------------------

  /** Always kafka; the others when their cluster id is configured. */
  function ScopesFromConfig(c: Clusters): seq<MdsScope> {
    [MdsScope("kafka", c.kafka, "")]
    + (if c.schemaRegistry != "" then [MdsScope("schema-registry", c.kafka, c.schemaRegistry)] else [])
    + (if c.connect != "" then [MdsScope("connect", c.kafka, c.connect)] else [])
    + (if c.ksql != "" then [MdsScope("ksql", c.kafka, c.ksql)] else [])
  }

  /** Lists every scope and keeps the first binding of each identity. */
  method GatherRoleBindings(listings: seq<seq<Binding>>) returns (rbs: seq<Binding>)
    ensures forall b :: b in rbs <==> exists l :: l in listings && b in l
    ensures Once(rbs)
    ensures forall i, j :: 0 <= i < j < |rbs| ==> !StrLess(BindingKey(rbs[j]), BindingKey(rbs[i]))
  {
    var seen: set<Binding> := {};
    rbs := [];
    for i := 0 to |listings|
      invariant forall b :: b in seen <==> b in rbs
      invariant forall b :: b in rbs <==> exists l :: l in listings[..i] && b in l
      invariant Once(rbs)
    {
      var listed := listings[i];
      assert listings[..i + 1] == listings[..i] + [listed];
      ghost var before := rbs;
      for n := 0 to |listed|
        invariant forall b :: b in seen <==> b in rbs
        invariant forall b :: b in rbs <==> b in before || b in listed[..n]
        invariant Once(rbs)
      {
        assert listed[..n + 1] == listed[..n] + [listed[n]];
        if listed[n] !in seen {
          seen := seen + {listed[n]};
          rbs := rbs + [listed[n]];
        }
      }
      assert listed[..|listed|] == listed;
    }
    assert listings[..|listings|] == listings;
    rbs := Sorted(rbs);
  }

  method Sorted(xs: seq<Binding>) returns (ys: seq<Binding>)
    requires Once(xs)
    ensures (forall b :: b in ys <==> b in xs) && Once(ys)
    ensures forall i, j :: 0 <= i < j < |ys| ==> !StrLess(BindingKey(ys[j]), BindingKey(ys[i]))
  {
    SortPermutes(xs, OnKey(BindingKey));
    SortAscending(xs, BindingKey);
    UniquePermutation(xs, SortOn(xs, BindingKey), Same());
    ys := SortOn(xs, BindingKey);
  }

  /** Listed under a scope of the configuration, with a spelled-out pattern type. */
  predicate ListedFrom(b: Binding, c: Clusters) {
    b.scope in ScopesFromConfig(c) && (b.resource.Some? ==> b.resource.value.patternType != "")
  }

  /** Such a binding survives the round trip through a manifest, and its scope
      resolves exactly when there is a Kafka cluster id. */
  lemma ListedRecompiles(b: Binding, c: Clusters)
    requires ListedFrom(b, c)
    ensures Recompiled(b, c) == b
    ensures ResolveScope(b.scope.scopeType, c).Some? <==> c.kafka != ""
  {
  }

  // ---- folding -----------------------------------------------------------

  datatype Reads = Reads(producerTopics: seq<string>, topicReads: seq<string>, groupReads: seq<string>)
  const NO_READS := Reads([], [], [])

  type PerPrincipal = map<string, Reads>

  function Write(p: string, t: string, c: Clusters): Binding { KafkaGrant(p, "DeveloperWrite", "Topic", t, c) }
  function ReadTopic(p: string, t: string, c: Clusters): Binding { KafkaGrant(p, "DeveloperRead", "Topic", t, c) }
  function ReadGroup(p: string, g: string, c: Clusters): Binding { KafkaGrant(p, "DeveloperRead", "Group", g, c) }

  function RecordSet(p: string, r: Reads, c: Clusters): set<Binding> {
    (set t | t in r.producerTopics :: Write(p, t, c)) + (set t | t in r.topicReads :: ReadTopic(p, t, c))
    + (set g | g in r.groupReads :: ReadGroup(p, g, c))
  }

  ghost function Recorded(m: PerPrincipal, c: Clusters): set<Binding> {
    set p, b | p in m && b in RecordSet(p, m[p], c) :: b
  }

  datatype Fold = Keep | Producing | ReadingTopic | ReadingGroup

  /** Only kafka-scoped literal developer roles on imported topics and on groups fold. */
  function FoldOf(b: Binding, names: set<string>): Fold {
    if b.scope.scopeType != "kafka" || b.resource.None? || b.resource.value.patternType != "literal" then Keep
    else
      var res := b.resource.value;
      if b.role == "DeveloperWrite" && res.resourceType == "Topic" then if res.name in names then Producing else Keep
      else if b.role == "DeveloperRead" && res.resourceType == "Topic" then if res.name in names then ReadingTopic else Keep
      else if b.role == "DeveloperRead" && res.resourceType == "Group" then ReadingGroup
      else Keep
  }

  function Get(m: PerPrincipal, p: string): Reads { if p in m then m[p] else NO_READS }

  function Note(r: Reads, k: Fold, name: string): Reads {
    match k
    case Keep => r
    case Producing => r.(producerTopics := r.producerTopics + [name])
    case ReadingTopic => r.(topicReads := r.topicReads + [name])
    case ReadingGroup => r.(groupReads := r.groupReads + [name])
  }

  /** The binding a noted name stands for. */
  function Stands(p: string, k: Fold, name: string, c: Clusters): Binding
    requires k != Keep
  {
    match k
    case Producing => Write(p, name, c)
    case ReadingTopic => ReadTopic(p, name, c)
    case ReadingGroup => ReadGroup(p, name, c)
  }

  lemma FoldRecompiles(b: Binding, names: set<string>, c: Clusters)
    requires FoldOf(b, names) != Keep
    ensures Recompiled(b, c) == Stands(b.principal, FoldOf(b, names), b.resource.value.name, c)
  {
  }

  lemma RecordGrows(p: string, r: Reads, k: Fold, name: string, c: Clusters)
    requires k != Keep
    ensures RecordSet(p, Note(r, k, name), c) == RecordSet(p, r, c) + {Stands(p, k, name, c)}
  {
    forall xs: seq<string>, x: string ensures x in xs + [name] <==> x in xs || x == name {}
  }

  lemma RecordedUpdate(m: PerPrincipal, p: string, r: Reads, c: Clusters, b: Binding)
    requires RecordSet(p, r, c) == RecordSet(p, Get(m, p), c) + {b}
    ensures Recorded(m[p := r], c) == Recorded(m, c) + {b}
  {
    var m' := m[p := r];
    forall x | x in Recorded(m', c) ensures x in Recorded(m, c) + {b} {
      var q :| q in m' && x in RecordSet(q, m'[q], c);
      if q == p && p !in m { assert RecordSet(p, Get(m, p), c) == {}; }
    }
    forall x | x in Recorded(m, c) + {b} ensures x in Recorded(m', c) {
      if x == b { assert p in m' && x in RecordSet(p, m'[p], c); }
      else {
        var q :| q in m && x in RecordSet(q, m[q], c);
        assert q in m' && x in RecordSet(q, m'[q], c);
      }
    }
  }

  lemma NoteAdds(m: PerPrincipal, b: Binding, names: set<string>, c: Clusters)
    requires FoldOf(b, names) != Keep
    ensures var r := Note(Get(m, b.principal), FoldOf(b, names), b.resource.value.name);
      Recorded(m[b.principal := r], c) == Recorded(m, c) + {Recompiled(b, c)}
  {
    var p, k, name := b.principal, FoldOf(b, names), b.resource.value.name;
    RecordGrows(p, Get(m, p), k, name, c);
    FoldRecompiles(b, names, c);
    RecordedUpdate(m, p, Note(Get(m, p), k, name), c, Recompiled(b, c));
  }

  predicate Tidy(r: Reads) { Once(r.producerTopics) && Once(r.topicReads) && Once(r.groupReads) }

  ghost predicate AllTidy(m: PerPrincipal) { forall p :: p in m ==> Tidy(m[p]) }

  ghost predicate Imported(m: PerPrincipal, names: set<string>) {
    forall p, t :: p in m && (t in m[p].producerTopics || t in m[p].topicReads) ==> t in names
  }

  lemma NoteTidy(m: PerPrincipal, b: Binding, names: set<string>, c: Clusters)
    requires FoldOf(b, names) != Keep && AllTidy(m) && Recompiled(b, c) !in Recorded(m, c)
    ensures Tidy(Note(Get(m, b.principal), FoldOf(b, names), b.resource.value.name))
  {
    var p, name, r := b.principal, b.resource.value.name, Get(m, b.principal);
    if p in m {
      assert name in r.producerTopics ==> Write(p, name, c) in RecordSet(p, r, c);
      assert name in r.topicReads ==> ReadTopic(p, name, c) in RecordSet(p, r, c);
      assert name in r.groupReads ==> ReadGroup(p, name, c) in RecordSet(p, r, c);
      assert Recompiled(b, c) !in RecordSet(p, m[p], c);
    }
  }

  /** The bindings seen so far are split between the leftover and the records. */
  ghost predicate SplitUp(done: seq<Binding>, byP: PerPrincipal, leftover: seq<Binding>, names: set<string>, c: Clusters) {
    && Imported(byP, names)
    && RecompiledSet(done, c) == RecompiledSet(leftover, c) + Recorded(byP, c)
    && (Unique(done, Re(c)) ==>
          Unique(leftover, Re(c)) && AllTidy(byP) && RecompiledSet(leftover, c) !! Recorded(byP, c))
  }

  lemma UniqueFront(done: seq<Binding>, rb: Binding, c: Clusters)
    requires Unique(done + [rb], Re(c))
    ensures Unique(done, Re(c)) && Recompiled(rb, c) !in RecompiledSet(done, c)
  {
    var all := done + [rb];
    forall i, j | 0 <= i < j < |done| ensures Re(c)(done[i]) != Re(c)(done[j]) {
      assert all[i] == done[i] && all[j] == done[j];
    }
    forall j | 0 <= j < |done| ensures Recompiled(done[j], c) != Recompiled(rb, c) {
      assert Re(c)(all[j]) != Re(c)(all[|done|]);
    }
  }

  lemma KeepStep(done: seq<Binding>, rb: Binding, byP: PerPrincipal, leftover: seq<Binding>, names: set<string>, c: Clusters)
    requires SplitUp(done, byP, leftover, names, c)
    ensures SplitUp(done + [rb], byP, leftover + [rb], names, c)
  {
    RecompiledSnoc(done, rb, c);
    RecompiledSnoc(leftover, rb, c);
    if Unique(done + [rb], Re(c)) {
      UniqueFront(done, rb, c);
      UniqueSnoc(leftover, rb, c);
    }
  }

  lemma NoteImported(m: PerPrincipal, b: Binding, names: set<string>)
    requires FoldOf(b, names) != Keep && Imported(m, names)
    ensures Imported(m[b.principal := Note(Get(m, b.principal), FoldOf(b, names), b.resource.value.name)], names)
  {
  }

  function NotedIn(m: PerPrincipal, b: Binding, names: set<string>): (r: PerPrincipal)
    requires FoldOf(b, names) != Keep
    ensures forall p :: p in r <==> p in m || p == b.principal
  {
    m[b.principal := Note(Get(m, b.principal), FoldOf(b, names), b.resource.value.name)]
  }

  lemma NoteStep(done: seq<Binding>, rb: Binding, byP: PerPrincipal, leftover: seq<Binding>, names: set<string>, c: Clusters)
    requires SplitUp(done, byP, leftover, names, c) && FoldOf(rb, names) != Keep
    ensures SplitUp(done + [rb], NotedIn(byP, rb, names),
                  leftover, names, c)
  {
    RecompiledSnoc(done, rb, c);
    NoteImported(byP, rb, names);
    NoteAdds(byP, rb, names, c);
    if Unique(done + [rb], Re(c)) {
      UniqueFront(done, rb, c);
      NoteTidy(byP, rb, names, c);
    }
  }

  /** The resources on which a principal's bindings fold in a given way. */
  function FoldedNames(rbs: seq<Binding>, names: set<string>, k: Fold, p: string): set<string>
    requires k != Keep
  {
    set b | b in rbs && FoldOf(b, names) == k && b.principal == p :: b.resource.value.name
  }

  /** The records hold exactly the folded names. */
  ghost predicate NotedAt(rbs: seq<Binding>, byP: PerPrincipal, names: set<string>, p: string) {
    && Members(Get(byP, p).producerTopics) == FoldedNames(rbs, names, Producing, p)
    && Members(Get(byP, p).topicReads) == FoldedNames(rbs, names, ReadingTopic, p)
    && Members(Get(byP, p).groupReads) == FoldedNames(rbs, names, ReadingGroup, p)
  }

  ghost predicate Noted(rbs: seq<Binding>, byP: PerPrincipal, names: set<string>) { forall p :: NotedAt(rbs, byP, names, p) }

  lemma FoldedSnoc(done: seq<Binding>, rb: Binding, names: set<string>, k: Fold, p: string)
    requires k != Keep
    ensures FoldedNames(done + [rb], names, k, p) ==
            FoldedNames(done, names, k, p) + if FoldOf(rb, names) == k && rb.principal == p then {rb.resource.value.name} else {}
  {
    forall b ensures b in done + [rb] <==> b in done || b == rb {}
  }

  lemma ElementsSnoc(xs: seq<string>, x: string)
    ensures Members(xs + [x]) == Members(xs) + {x}
  {
  }

  lemma KeepNoted(done: seq<Binding>, rb: Binding, byP: PerPrincipal, names: set<string>)
    requires Noted(done, byP, names) && FoldOf(rb, names) == Keep
    ensures Noted(done + [rb], byP, names)
  {
    forall p ensures NotedAt(done + [rb], byP, names, p) {
      assert NotedAt(done, byP, names, p);
      FoldedSnoc(done, rb, names, Producing, p);
      FoldedSnoc(done, rb, names, ReadingTopic, p);
      FoldedSnoc(done, rb, names, ReadingGroup, p);
    }
  }

  lemma NoteNotedAt(done: seq<Binding>, rb: Binding, byP: PerPrincipal, names: set<string>, p: string)
    requires NotedAt(done, byP, names, p) && FoldOf(rb, names) != Keep
    ensures NotedAt(done + [rb], NotedIn(byP, rb, names), names, p)
  {
    FoldedSnoc(done, rb, names, Producing, p);
    FoldedSnoc(done, rb, names, ReadingTopic, p);
    FoldedSnoc(done, rb, names, ReadingGroup, p);
    if p == rb.principal { NoteElements(Get(byP, p), FoldOf(rb, names), rb.resource.value.name); }
  }

  lemma NoteElements(r: Reads, k: Fold, name: string)
    ensures Members(Note(r, k, name).producerTopics) == Members(r.producerTopics) + if k == Producing then {name} else {}
    ensures Members(Note(r, k, name).topicReads) == Members(r.topicReads) + if k == ReadingTopic then {name} else {}
    ensures Members(Note(r, k, name).groupReads) == Members(r.groupReads) + if k == ReadingGroup then {name} else {}
  {
    ElementsSnoc(r.producerTopics, name);
    ElementsSnoc(r.topicReads, name);
    ElementsSnoc(r.groupReads, name);
  }

  lemma NoteNoted(done: seq<Binding>, rb: Binding, byP: PerPrincipal, names: set<string>)
    requires Noted(done, byP, names) && FoldOf(rb, names) != Keep
    ensures Noted(done + [rb], NotedIn(byP, rb, names), names)
  {
    forall p ensures NotedAt(done + [rb], NotedIn(byP, rb, names), names, p) {
      assert NotedAt(done, byP, names, p);
      NoteNotedAt(done, rb, byP, names, p);
    }
  }

  /** What filing has established after some bindings. */
  ghost predicate Filed(done: seq<Binding>, byP: PerPrincipal, principals: seq<string>, leftover: seq<Binding>, names: set<string>, c: Clusters) {
    && SplitUp(done, byP, leftover, names, c) && Noted(done, byP, names)
    && Once(principals) && forall p :: p in principals <==> p in byP
  }

  lemma FiledKept(rbs: seq<Binding>, i: nat, byP: PerPrincipal, principals: seq<string>, leftover: seq<Binding>, names: set<string>, c: Clusters)
    requires i < |rbs| && Filed(rbs[..i], byP, principals, leftover, names, c) && FoldOf(rbs[i], names) == Keep
    ensures Filed(rbs[..i + 1], byP, principals, leftover + [rbs[i]], names, c)
  {
    assert rbs[..i + 1] == rbs[..i] + [rbs[i]];
    KeepStep(rbs[..i], rbs[i], byP, leftover, names, c);
    KeepNoted(rbs[..i], rbs[i], byP, names);
  }

  lemma FiledNoted(rbs: seq<Binding>, i: nat, byP: PerPrincipal, principals: seq<string>, leftover: seq<Binding>, names: set<string>, c: Clusters)
    requires i < |rbs| && Filed(rbs[..i], byP, principals, leftover, names, c) && FoldOf(rbs[i], names) != Keep
    ensures var p := rbs[i].principal;
      Filed(rbs[..i + 1], NotedIn(byP, rbs[i], names), if p in byP then principals else principals + [p], leftover, names, c)
  {
    assert rbs[..i + 1] == rbs[..i] + [rbs[i]];
    NoteStep(rbs[..i], rbs[i], byP, leftover, names, c);
    NoteNoted(rbs[..i], rbs[i], byP, names);
  }

  /** Files each binding under its principal or leaves it over. */
  method Classify(rbs: seq<Binding>, names: set<string>, ghost c: Clusters)
    returns (byP: PerPrincipal, principals: seq<string>, leftover: seq<Binding>)
    ensures Filed(rbs, byP, principals, leftover, names, c)
  {
    byP, principals, leftover := map[], [], [];
    for i := 0 to |rbs|
      invariant Filed(rbs[..i], byP, principals, leftover, names, c)
    {
      var rb := rbs[i];
      if FoldOf(rb, names) == Keep {
        FiledKept(rbs, i, byP, principals, leftover, names, c);
        leftover := leftover + [rb];
      } else {
        FiledNoted(rbs, i, byP, principals, leftover, names, c);
        if rb.principal !in byP { principals := principals + [rb.principal]; }
        byP := NotedIn(byP, rb, names);
      }
    }
    assert rbs[..|rbs|] == rbs;
  }

  // ---- rewriting the topics ----------------------------------------------

  function RoleProducer(p: string): Producer { Producer(p, "", []) }
  function RoleConsumer(p: string, g: string): Consumer { Consumer(p, "", g, [], []) }

  /** No line has an operation list of its own. */
  ghost predicate Plain(es: set<Entry>) { forall e :: e in es ==> PlainLine(e) }

  predicate PlainLine(e: Entry) {
    match e
    case Produces(_, p) => p.operations == []
    case Consumes(_, u) => u.topicOperations == [] && u.groupOperations == []
  }

  lemma ProducerBinds(topic: string, access: TopicAccess, p: string, c: Clusters)
    ensures forall b :: AccessBinds(topic, TopicAccess(access.producers + [Producer(p, "", [])], access.consumers), c, b) <==>
      AccessBinds(topic, access, c, b) || b == Write(p, topic, c)
  {
    assert Producer(p, "", []) in access.producers + [Producer(p, "", [])];
    forall x ensures x in access.producers + [Producer(p, "", [])] <==> x in access.producers || x == Producer(p, "", []) {}
  }

  lemma ConsumerBinds(topic: string, access: TopicAccess, p: string, g: string, c: Clusters)
    ensures forall b :: AccessBinds(topic, TopicAccess(access.producers, access.consumers + [Consumer(p, "", g, [], [])]), c, b) <==>
      AccessBinds(topic, access, c, b) || b == ReadTopic(p, topic, c) || b == ReadGroup(p, g, c)
  {
    assert Consumer(p, "", g, [], []) in access.consumers + [Consumer(p, "", g, [], [])];
    forall x ensures x in access.consumers + [Consumer(p, "", g, [], [])] <==> x in access.consumers || x == Consumer(p, "", g, [], []) {}
  }

  /** Adds a producer unless one without a host is there already. */
  method AddProducer(index: TopicIndex, t: string, p: string, ghost c: Clusters)
    requires Keyed(index) && t in index
    modifies index.Values
    ensures Bound(index.Values, c) == old(Bound(index.Values, c)) + {Write(p, t, c)}
    ensures LinesAdded(old(Entries(index)), {Produces(t, RoleProducer(p))}, Entries(index))
  {
    var tp := index[t];
    ghost var was := AccessOf(index.Values);
    for i := 0 to |tp.access.producers|
      modifies {}
    {
      var e := tp.access.producers[i];
      if e.principal == p && e.host == "" {
        BoundMember(was, c, Write(p, t, c));
        assert BindsAt(was, tp, c, Write(p, t, c));
        assert HasEntry(index, was, Produces(t, e));
        return;
      }
    }
    ProducerEntered(index, was, t, RoleProducer(p));
    ProducerBinds(t, was[tp], p, c);
    BoundGrew(was, tp, TopicAccess(was[tp].producers + [Producer(p, "", [])], was[tp].consumers), c, {Write(p, t, c)});
    SetAccess(index, tp, TopicAccess(tp.access.producers + [Producer(p, "", [])], tp.access.consumers));
  }

  function WithConsumer(access: TopicAccess, p: string, g: string): TopicAccess {
    TopicAccess(access.producers, access.consumers + [Consumer(p, "", g, [], [])])
  }

  lemma ConsumerGrew(was: map<KafkaTopic, TopicAccess>, tp: KafkaTopic, p: string, g: string, c: Clusters)
    requires tp in was
    ensures BoundBy(was[tp := WithConsumer(was[tp], p, g)], c)
         == BoundBy(was, c) + {ReadTopic(p, tp.Resolved(), c), ReadGroup(p, g, c)}
  {
    ConsumerBinds(tp.Resolved(), was[tp], p, g, c);
    BoundGrew(was, tp, WithConsumer(was[tp], p, g), c, {ReadTopic(p, tp.Resolved(), c), ReadGroup(p, g, c)});
  }

  lemma AlreadyConsumes(was: map<KafkaTopic, TopicAccess>, tp: KafkaTopic, e: Consumer, c: Clusters)
    requires tp in was && e in was[tp].consumers
    ensures BoundBy(was, c) == BoundBy(was, c) + {ReadTopic(e.principal, tp.Resolved(), c), ReadGroup(e.principal, e.group, c)}
  {
    BoundMember(was, c, ReadTopic(e.principal, tp.Resolved(), c));
    BoundMember(was, c, ReadGroup(e.principal, e.group, c));
    assert BindsAt(was, tp, c, ReadTopic(e.principal, tp.Resolved(), c));
    assert BindsAt(was, tp, c, ReadGroup(e.principal, e.group, c));
  }

  method FindConsumer(access: TopicAccess, p: string, g: string) returns (i: int)
    ensures -1 <= i < |access.consumers|
    ensures i >= 0 ==> access.consumers[i].principal == p && access.consumers[i].group == g && access.consumers[i].host == ""
  {
    for n := 0 to |access.consumers| {
      var e := access.consumers[n];
      if e.principal == p && e.group == g && e.host == "" { return n; }
    }
    i := -1;
  }

  /** Adds a consumer unless one without a host is there already. */
  method AddConsumer(index: TopicIndex, t: string, p: string, g: string, ghost c: Clusters)
    requires Keyed(index) && t in index
    modifies index.Values
    ensures Bound(index.Values, c) == old(Bound(index.Values, c)) + {ReadTopic(p, t, c), ReadGroup(p, g, c)}
    ensures LinesAdded(old(Entries(index)), {Consumes(t, RoleConsumer(p, g))}, Entries(index))
  {
    var tp := index[t];
    ghost var was := AccessOf(index.Values);
    var found := FindConsumer(tp.access, p, g);
    if found >= 0 {
      AlreadyConsumes(was, tp, tp.access.consumers[found], c);
      ConsumerListed(index, was, t, tp.access.consumers[found], p, g);
      return;
    }
    ConsumerAdded(index, was, t, p, g, c);
    SetAccess(index, tp, WithConsumer(tp.access, p, g));
  }

  lemma ConsumerListed(index: TopicIndex, was: map<KafkaTopic, TopicAccess>, t: string, e: Consumer, p: string, g: string)
    requires HasEntry(index, was, Consumes(t, e)) && e.principal == p && e.group == g && e.host == ""
    ensures LinesAdded(EntriesOf(index, was), {Consumes(t, RoleConsumer(p, g))}, EntriesOf(index, was))
  {
    if Plain(EntriesOf(index, was)) {
      assert PlainLine(Consumes(t, e));
      assert e == RoleConsumer(p, g);
    }
  }

  lemma ConsumerAdded(index: TopicIndex, was: map<KafkaTopic, TopicAccess>, t: string, p: string, g: string, c: Clusters)
    requires Keyed(index) && t in index && index[t] in was
    ensures var now := was[index[t] := WithConsumer(was[index[t]], p, g)];
      && BoundBy(now, c) == BoundBy(was, c) + {ReadTopic(p, t, c), ReadGroup(p, g, c)}
      && LinesAdded(EntriesOf(index, was), {Consumes(t, RoleConsumer(p, g))}, EntriesOf(index, now))
  {
    ConsumerEntered(index, was, t, RoleConsumer(p, g));
    ConsumerGrew(was, index[t], p, g, c);
  }

  // ---- one principal -----------------------------------------------------

  const BLANK: MdsScope := MdsScope("kafka", "", "")

  /** Rebuilt for the leftover list, without the scope ids. */
  function TopicRole(p: string, t: string): Binding { Binding(p, "DeveloperRead", BLANK, Some(Resource("Topic", t, "literal"))) }
  function GroupRole(p: string, g: string): Binding { Binding(p, "DeveloperRead", BLANK, Some(Resource("Group", g, "literal"))) }

  function TopicRoles(p: string, ts: seq<string>): seq<Binding> { seq(|ts|, i requires 0 <= i < |ts| => TopicRole(p, ts[i])) }
  function GroupRoles(p: string, gs: seq<string>): seq<Binding> { seq(|gs|, i requires 0 <= i < |gs| => GroupRole(p, gs[i])) }

  function ReadSet(p: string, ts: seq<string>, gs: seq<string>, c: Clusters): set<Binding> {
    (set t | t in ts :: ReadTopic(p, t, c)) + (set g | g in gs :: ReadGroup(p, g, c))
  }

  lemma TopicRolesRecompile(p: string, ts: seq<string>, c: Clusters)
    ensures RecompiledSet(TopicRoles(p, ts), c) == set t | t in ts :: ReadTopic(p, t, c)
  {
    forall t | t in ts ensures ReadTopic(p, t, c) in RecompiledSet(TopicRoles(p, ts), c) {
      var i :| 0 <= i < |ts| && ts[i] == t;
      assert TopicRoles(p, ts)[i] in TopicRoles(p, ts) && Recompiled(TopicRole(p, t), c) == ReadTopic(p, t, c);
    }
    forall b | b in TopicRoles(p, ts) ensures exists t :: t in ts && Recompiled(b, c) == ReadTopic(p, t, c) {
      var i :| 0 <= i < |ts| && b == TopicRole(p, ts[i]);
      assert ts[i] in ts;
    }
  }

  lemma GroupRolesRecompile(p: string, gs: seq<string>, c: Clusters)
    ensures RecompiledSet(GroupRoles(p, gs), c) == set g | g in gs :: ReadGroup(p, g, c)
  {
    forall g | g in gs ensures ReadGroup(p, g, c) in RecompiledSet(GroupRoles(p, gs), c) {
      var i :| 0 <= i < |gs| && gs[i] == g;
      assert GroupRoles(p, gs)[i] in GroupRoles(p, gs) && Recompiled(GroupRole(p, g), c) == ReadGroup(p, g, c);
    }
    forall b | b in GroupRoles(p, gs) ensures exists g :: g in gs && Recompiled(b, c) == ReadGroup(p, g, c) {
      var i :| 0 <= i < |gs| && b == GroupRole(p, gs[i]);
      assert gs[i] in gs;
    }
  }

  lemma RolesRecompile(p: string, ts: seq<string>, gs: seq<string>, c: Clusters)
    ensures RecompiledSet(TopicRoles(p, ts) + GroupRoles(p, gs), c) == ReadSet(p, ts, gs, c)
  {
    RecompiledConcat(TopicRoles(p, ts), GroupRoles(p, gs), c);
    TopicRolesRecompile(p, ts, c);
    GroupRolesRecompile(p, gs, c);
  }

  lemma RolesUnique(p: string, ts: seq<string>, gs: seq<string>, c: Clusters)
    requires Once(ts) && Once(gs)
    ensures Unique(TopicRoles(p, ts) + GroupRoles(p, gs), Re(c))
  {
    var all := TopicRoles(p, ts) + GroupRoles(p, gs);
    forall i, j | 0 <= i < j < |all| ensures Re(c)(all[i]) != Re(c)(all[j]) {
      if j < |ts| { assert ts[i] != ts[j]; }
      else if i >= |ts| { assert gs[i - |ts|] != gs[j - |ts|]; }
    }
  }

  function WriteSet(p: string, ts: seq<string>, c: Clusters): set<Binding> { set t | t in ts :: Write(p, t, c) }

  lemma WriteSetSnoc(p: string, ts: seq<string>, t: string, c: Clusters)
    ensures WriteSet(p, ts + [t], c) == WriteSet(p, ts, c) + {Write(p, t, c)}
  {
    assert forall x :: x in ts + [t] <==> x in ts || x == t;
  }

  lemma WriteMore(start: set<Binding>, done: set<Binding>, mid: set<Binding>, w: Binding, end: set<Binding>)
    requires mid == start + done && end == mid + {w}
    ensures end == start + (done + {w})
  {
  }

  function WriteLines(p: string, ts: seq<string>): set<Entry> { set t | t in ts :: Produces(t, RoleProducer(p)) }

  lemma WriteLinesSnoc(p: string, ts: seq<string>, t: string)
    ensures WriteLines(p, ts + [t]) == WriteLines(p, ts) + {Produces(t, RoleProducer(p))}
  {
  }

  /** A fold added these lines, if all were plain before. */
  ghost predicate LinesAdded(start: set<Entry>, more: set<Entry>, end: set<Entry>) { Plain(start) ==> end == start + more }

  lemma NoLinesAdded(start: set<Entry>)
    ensures LinesAdded(start, {}, start)
  {
  }

  lemma LinesAddedTwice(start: set<Entry>, done: set<Entry>, mid: set<Entry>, more: set<Entry>, end: set<Entry>)
    requires LinesAdded(start, done, mid) && Plain(done) && LinesAdded(mid, more, end)
    ensures LinesAdded(start, done + more, end)
  {
    if Plain(start) {
      assert Plain(start + done);
      Grow(start, done, mid, more, end);
    }
  }

  lemma WriteLinesPlain(p: string, ts: seq<string>)
    ensures Plain(WriteLines(p, ts)) && WriteLines(p, []) == {}
  {
  }

  /** The fold of a principal's write roles, as far as it got. */
  ghost predicate WritesFolded(start: set<Binding>, lines: set<Entry>, p: string, ts: seq<string>, c: Clusters,
                               bound: set<Binding>, entries: set<Entry>) {
    bound == start + WriteSet(p, ts, c) && LinesAdded(lines, WriteLines(p, ts), entries)
  }

  lemma NoWritesFolded(start: set<Binding>, lines: set<Entry>, p: string, c: Clusters)
    ensures WritesFolded(start, lines, p, [], c, start, lines)
  {
  }

  lemma WritesStep(start: set<Binding>, lines: set<Entry>, p: string, ts: seq<string>, i: nat, c: Clusters,
                   mid: set<Binding>, midLines: set<Entry>, bound: set<Binding>, entries: set<Entry>)
    requires i < |ts| && WritesFolded(start, lines, p, ts[..i], c, mid, midLines)
    requires bound == mid + {Write(p, ts[i], c)} && LinesAdded(midLines, {Produces(ts[i], RoleProducer(p))}, entries)
    ensures WritesFolded(start, lines, p, ts[..i + 1], c, bound, entries)
  {
    assert ts[..i + 1] == ts[..i] + [ts[i]];
    WriteSetSnoc(p, ts[..i], ts[i], c);
    WriteLinesSnoc(p, ts[..i], ts[i]);
    WriteLinesPlain(p, ts[..i]);
    WriteMore(start, WriteSet(p, ts[..i], c), mid, Write(p, ts[i], c), bound);
    LinesAddedTwice(lines, WriteLines(p, ts[..i]), midLines, {Produces(ts[i], RoleProducer(p))}, entries);
  }

  method FoldProducersOf(index: TopicIndex, p: string, ts: seq<string>, ghost c: Clusters)
    requires Keyed(index) && forall t :: t in ts ==> t in index
    modifies index.Values
    ensures WritesFolded(old(Bound(index.Values, c)), old(Entries(index)), p, ts, c, Bound(index.Values, c), Entries(index))
  {
    ghost var start, lines := Bound(index.Values, c), Entries(index);
    NoWritesFolded(start, lines, p, c);
    for i := 0 to |ts|
      invariant WritesFolded(start, lines, p, ts[..i], c, Bound(index.Values, c), Entries(index))
    {
      ghost var mid, midLines := Bound(index.Values, c), Entries(index);
      AddProducer(index, ts[i], p, c);
      WritesStep(start, lines, p, ts, i, c, mid, midLines, Bound(index.Values, c), Entries(index));
    }
    assert ts[..|ts|] == ts;
  }

  function ReadLines(p: string, ts: seq<string>, gs: seq<string>): set<Entry> {
    if |ts| == 1 && |gs| == 1 then {Consumes(ts[0], RoleConsumer(p, gs[0]))} else {}
  }

  function PrincipalLines(p: string, r: Reads): set<Entry> {
    WriteLines(p, r.producerTopics) + ReadLines(p, r.topicReads, r.groupReads)
  }

  lemma PrincipalLinesSorted(p: string, r: Reads, ws: seq<string>, ts: seq<string>, gs: seq<string>)
    requires forall x :: x in ws <==> x in r.producerTopics
    requires |ts| == |r.topicReads| && forall x :: x in ts <==> x in r.topicReads
    requires |gs| == |r.groupReads| && forall x :: x in gs <==> x in r.groupReads
    ensures WriteLines(p, ws) + ReadLines(p, ts, gs) == PrincipalLines(p, r)
  {
    if |ts| == 1 && |gs| == 1 {
      assert ts[0] in ts && gs[0] in gs;
    }
  }

  /** A consumer folds when the principal reads one topic and one group. */
  method FoldPrincipal(index: TopicIndex, p: string, r: Reads, ghost c: Clusters) returns (more: seq<Binding>)
    requires Keyed(index) && forall t :: t in r.producerTopics || t in r.topicReads ==> t in index
    modifies index.Values
    ensures Bound(index.Values, c) + RecompiledSet(more, c) == old(Bound(index.Values, c)) + RecordSet(p, r, c)
    ensures RecompiledSet(more, c) <= RecordSet(p, r, c) && (Tidy(r) ==> Unique(more, Re(c)))
    ensures LinesAdded(old(Entries(index)), PrincipalLines(p, r), Entries(index))
  {
    OnceSorted(r.producerTopics);
    OnceSorted(r.topicReads);
    OnceSorted(r.groupReads);
    var producerTopics := SortOn(r.producerTopics, Same());
    var topicReads, groupReads := SortOn(r.topicReads, Same()), SortOn(r.groupReads, Same());
    RecordSplit(p, r, producerTopics, topicReads, groupReads, c);
    PrincipalLinesSorted(p, r, producerTopics, topicReads, groupReads);
    WriteLinesPlain(p, producerTopics);
    ghost var start, lines := Bound(index.Values, c), Entries(index);
    FoldProducersOf(index, p, producerTopics, c);
    ghost var mid, midLines := Bound(index.Values, c), Entries(index);
    more := FoldReads(index, p, topicReads, groupReads, c);
    LinesAddedTwice(lines, WriteLines(p, producerTopics), midLines, ReadLines(p, topicReads, groupReads), Entries(index));
    PrincipalSets(start, WriteSet(p, producerTopics, c), mid, ReadSet(p, topicReads, groupReads, c), Bound(index.Values, c), RecompiledSet(more, c));
  }

  method FoldReads(index: TopicIndex, p: string, topicReads: seq<string>, groupReads: seq<string>, ghost c: Clusters)
    returns (more: seq<Binding>)
    requires Keyed(index) && forall t :: t in topicReads ==> t in index
    modifies index.Values
    ensures Bound(index.Values, c) + RecompiledSet(more, c) == old(Bound(index.Values, c)) + ReadSet(p, topicReads, groupReads, c)
    ensures RecompiledSet(more, c) <= ReadSet(p, topicReads, groupReads, c)
    ensures Once(topicReads) && Once(groupReads) ==> Unique(more, Re(c))
    ensures LinesAdded(old(Entries(index)), ReadLines(p, topicReads, groupReads), Entries(index))
  {
    if |topicReads| == 1 && |groupReads| == 1 {
      assert topicReads == [topicReads[0]] && groupReads == [groupReads[0]];
      AddConsumer(index, topicReads[0], p, groupReads[0], c);
      more := [];
      OneOfEach(p, topicReads[0], groupReads[0], c);
    } else {
      more := LeftReads(p, topicReads, groupReads, c);
      NoLinesAdded(Entries(index));
    }
  }

  method LeftReads(p: string, topicReads: seq<string>, groupReads: seq<string>, ghost c: Clusters) returns (more: seq<Binding>)
    ensures RecompiledSet(more, c) == ReadSet(p, topicReads, groupReads, c)
    ensures Once(topicReads) && Once(groupReads) ==> Unique(more, Re(c))
  {
    more := TopicRoles(p, topicReads) + GroupRoles(p, groupReads);
    RolesRecompile(p, topicReads, groupReads, c);
    if Once(topicReads) && Once(groupReads) { RolesUnique(p, topicReads, groupReads, c); }
  }

  lemma PrincipalSets<T>(start: set<T>, writes: set<T>, mid: set<T>, reading: set<T>, end: set<T>, more: set<T>)
    requires mid == start + writes && end + more == mid + reading && more <= reading
    ensures end + more == start + (writes + reading) && more <= writes + reading
  {
  }

  lemma OneOfEach(p: string, t: string, g: string, c: Clusters)
    ensures ReadSet(p, [t], [g], c) == {ReadTopic(p, t, c), ReadGroup(p, g, c)}
    ensures RecompiledSet([], c) == {} && Unique([], Re(c))
  {
    assert t in [t] && g in [g];
  }

  lemma RecordSplit(p: string, r: Reads, ws: seq<string>, ts: seq<string>, gs: seq<string>, c: Clusters)
    requires forall x :: x in ws <==> x in r.producerTopics
    requires forall x :: x in ts <==> x in r.topicReads
    requires forall x :: x in gs <==> x in r.groupReads
    ensures RecordSet(p, r, c) == WriteSet(p, ws, c) + ReadSet(p, ts, gs, c)
  {
  }

  // ---- every principal ---------------------------------------------------

  ghost function Records(m: PerPrincipal, ps: seq<string>, c: Clusters): set<Binding> {
    set p, b | p in ps && p in m && b in RecordSet(p, m[p], c) :: b
  }

  lemma RecordsSnoc(m: PerPrincipal, ps: seq<string>, p: string, c: Clusters)
    requires p in m
    ensures Records(m, ps + [p], c) == Records(m, ps, c) + RecordSet(p, m[p], c)
    ensures p !in ps ==> Records(m, ps, c) !! RecordSet(p, m[p], c)
  {
    forall b | b in RecordSet(p, m[p], c) ensures b.principal == p {}
    forall b | b in Records(m, ps, c) ensures b.principal in ps {
      var q :| q in ps && q in m && b in RecordSet(q, m[q], c);
      assert b.principal == q;
    }
  }

  lemma RecordsAll(m: PerPrincipal, ps: seq<string>, c: Clusters)
    requires forall p :: p in ps <==> p in m
    ensures Records(m, ps, c) == Recorded(m, c)
  {
  }

  lemma UniqueConcat(xs: seq<Binding>, ys: seq<Binding>, c: Clusters)
    requires Unique(xs, Re(c)) && Unique(ys, Re(c)) && RecompiledSet(xs, c) !! RecompiledSet(ys, c)
    ensures Unique(xs + ys, Re(c))
  {
    forall i, j | 0 <= i < |xs| && 0 <= j < |ys| ensures Recompiled(xs[i], c) != Recompiled(ys[j], c) {
      assert Recompiled(xs[i], c) in RecompiledSet(xs, c) && Recompiled(ys[j], c) in RecompiledSet(ys, c);
    }
    forall i, j | 0 <= i < j < |xs + ys| ensures Re(c)((xs + ys)[i]) != Re(c)((xs + ys)[j]) {
      if j >= |xs| && i >= |xs| { assert Re(c)(ys[i - |xs|]) != Re(c)(ys[j - |xs|]); }
      else if j < |xs| { assert Re(c)(xs[i]) != Re(c)(xs[j]); }
    }
  }

  /** One principal's turn, on the sets. */
  lemma TurnSets<T>(start: set<T>, base: set<T>, done: set<T>, mid: set<T>, left: set<T>, record: set<T>, end: set<T>, more: set<T>)
    requires mid + left == start + (base + done) && left <= base + done
    requires end + more == mid + record && more <= record
    ensures end + (left + more) == start + (base + (done + record)) && left + more <= base + (done + record)
  {
    forall x ensures x in end + (left + more) <==> x in start + (base + (done + record)) {
      assert x in mid + left <==> x in start + (base + done);
      assert x in end + more <==> x in mid + record;
    }
  }

  /** The access lines a principal's bindings fold into. */
  function RoleLinesOf(rbs: seq<Binding>, names: set<string>, p: string): set<Entry> {
    var ts, gs := FoldedNames(rbs, names, ReadingTopic, p), FoldedNames(rbs, names, ReadingGroup, p);
    (set t | t in FoldedNames(rbs, names, Producing, p) :: Produces(t, RoleProducer(p)))
    + (set t, g | t in ts && g in gs && ts == {t} && gs == {g} :: Consumes(t, RoleConsumer(p, g)))
  }

  /** The access lines that live bindings fold into on the named topics. */
  function RoleLines(rbs: seq<Binding>, names: set<string>): set<Entry> {
    set b, e | b in rbs && e in RoleLinesOf(rbs, names, b.principal) :: e
  }

  ghost function LinesOfPrincipals(m: PerPrincipal, ps: seq<string>): set<Entry> {
    set p, e | p in ps && p in m && e in PrincipalLines(p, m[p]) :: e
  }

  lemma LinesOfPrincipalsSnoc(m: PerPrincipal, ps: seq<string>, p: string)
    requires p in m
    ensures LinesOfPrincipals(m, ps + [p]) == LinesOfPrincipals(m, ps) + PrincipalLines(p, m[p])
  {
  }

  lemma PlainLines(m: PerPrincipal, ps: seq<string>)
    ensures Plain(LinesOfPrincipals(m, ps)) && LinesOfPrincipals(m, []) == {}
  {
  }

  lemma NotedLines(rbs: seq<Binding>, byP: PerPrincipal, names: set<string>, p: string)
    requires NotedAt(rbs, byP, names, p) && p in byP && Tidy(byP[p])
    ensures PrincipalLines(p, byP[p]) == RoleLinesOf(rbs, names, p)
  {
    var r := byP[p];
    var ts, gs := FoldedNames(rbs, names, ReadingTopic, p), FoldedNames(rbs, names, ReadingGroup, p);
    forall t ensures r.topicReads == [t] <==> ts == {t} { OnlyOne(r.topicReads, ts, t); }
    forall g ensures r.groupReads == [g] <==> gs == {g} { OnlyOne(r.groupReads, gs, g); }
    if |r.topicReads| == 1 { assert r.topicReads == [r.topicReads[0]]; }
    if |r.groupReads| == 1 { assert r.groupReads == [r.groupReads[0]]; }
  }

  lemma NoPrincipalNoLines(rbs: seq<Binding>, byP: PerPrincipal, names: set<string>, p: string)
    requires NotedAt(rbs, byP, names, p) && p !in byP
    ensures RoleLinesOf(rbs, names, p) == {}
  {
  }

  lemma FoldedPrincipal(rbs: seq<Binding>, names: set<string>, p: string, e: Entry)
    requires e in RoleLinesOf(rbs, names, p)
    ensures exists b :: b in rbs && b.principal == p
  {
    var k := if e.Produces? then Producing else ReadingTopic;
    assert e.topic in FoldedNames(rbs, names, k, p);
  }

  /** The principals' lines are those of the live bindings. */
  lemma RoleLinesGrouped(rbs: seq<Binding>, byP: PerPrincipal, principals: seq<string>, names: set<string>)
    requires Noted(rbs, byP, names) && AllTidy(byP) && forall p :: p in principals <==> p in byP
    ensures LinesOfPrincipals(byP, principals) == RoleLines(rbs, names)
  {
    forall p ensures (if p in byP then PrincipalLines(p, byP[p]) else {}) == RoleLinesOf(rbs, names, p) {
      assert NotedAt(rbs, byP, names, p);
      if p in byP { NotedLines(rbs, byP, names, p); } else { NoPrincipalNoLines(rbs, byP, names, p); }
    }
    forall e | e in LinesOfPrincipals(byP, principals) ensures e in RoleLines(rbs, names) {
      var p :| p in principals && p in byP && e in PrincipalLines(p, byP[p]);
      assert e in RoleLinesOf(rbs, names, p);
      FoldedPrincipal(rbs, names, p, e);
    }
    forall e | e in RoleLines(rbs, names) ensures e in LinesOfPrincipals(byP, principals) {
      var b :| b in rbs && e in RoleLinesOf(rbs, names, b.principal);
      assert b.principal in byP && e in PrincipalLines(b.principal, byP[b.principal]);
    }
  }

  /** The fold conserves access: what the topics bind afterwards together with
      the leftovers is what they bound before together with the live bindings;
      and it makes no two leftovers out of one identity. The lines it adds are
      determined by the live bindings. */
  method FoldRoleBindings(index: TopicIndex, rbs: seq<Binding>, ghost c: Clusters) returns (leftover: seq<Binding>)
    requires Keyed(index)
    modifies index.Values
    ensures Bound(index.Values, c) + RecompiledSet(leftover, c) == old(Bound(index.Values, c)) + RecompiledSet(rbs, c)
    ensures Unique(rbs, Re(c)) ==> Unique(leftover, Re(c))
    ensures Unique(rbs, Re(c)) ==> LinesAdded(old(Entries(index)), RoleLines(rbs, index.Keys), Entries(index))
  {
    var byP, principals, kept := Classify(rbs, index.Keys, c);
    OnceSorted(principals);
    principals := SortOn(principals, Same());
    RecordsAll(byP, principals, c);
    if Unique(rbs, Re(c)) { RoleLinesGrouped(rbs, byP, principals, index.Keys); }
    leftover := FoldPrincipals(index, byP, principals, kept, c);
    SortedLeftover(leftover, c);
    leftover := SortOn(leftover, BindingKey);
  }

  lemma SortedLeftover(leftover: seq<Binding>, c: Clusters)
    ensures RecompiledSet(SortOn(leftover, BindingKey), c) == RecompiledSet(leftover, c)
    ensures Unique(leftover, Re(c)) ==> Unique(SortOn(leftover, BindingKey), Re(c))
  {
    SortPermutes(leftover, OnKey(BindingKey));
    if Unique(leftover, Re(c)) { UniquePermutation(leftover, SortOn(leftover, BindingKey), Re(c)); }
  }

  /** The fold of the recorded principals, as far as it got. */
  ghost predicate PrincipalsFolded(start: set<Binding>, lines: set<Entry>, kept: seq<Binding>, byP: PerPrincipal, ps: seq<string>,
                                   c: Clusters, leftover: seq<Binding>, bound: set<Binding>, entries: set<Entry>) {
    && bound + RecompiledSet(leftover, c) == start + (RecompiledSet(kept, c) + Records(byP, ps, c))
    && RecompiledSet(leftover, c) <= RecompiledSet(kept, c) + Records(byP, ps, c)
    && (Separate(kept, byP, c) ==> Unique(leftover, Re(c)))
    && LinesAdded(lines, LinesOfPrincipals(byP, ps), entries)
  }

  /** No identity is kept or recorded twice. */
  ghost predicate Separate(kept: seq<Binding>, byP: PerPrincipal, c: Clusters) {
    Unique(kept, Re(c)) && AllTidy(byP) && RecompiledSet(kept, c) !! Recorded(byP, c)
  }

  lemma NoPrincipalsFolded(start: set<Binding>, lines: set<Entry>, kept: seq<Binding>, byP: PerPrincipal, c: Clusters)
    ensures PrincipalsFolded(start, lines, kept, byP, [], c, kept, start, lines)
  {
    PlainLines(byP, []);
    NoLinesAdded(lines);
    assert Records(byP, [], c) == {};
    assert RecompiledSet(kept, c) + {} == RecompiledSet(kept, c);
  }

  lemma PrincipalStep(start: set<Binding>, lines: set<Entry>, kept: seq<Binding>, byP: PerPrincipal, ps: seq<string>, i: nat, c: Clusters,
                      leftover: seq<Binding>, mid: set<Binding>, midLines: set<Entry>,
                      more: seq<Binding>, bound: set<Binding>, entries: set<Entry>)
    requires i < |ps| && ps[i] in byP && Once(ps)
    requires PrincipalsFolded(start, lines, kept, byP, ps[..i], c, leftover, mid, midLines)
    requires bound + RecompiledSet(more, c) == mid + RecordSet(ps[i], byP[ps[i]], c)
    requires RecompiledSet(more, c) <= RecordSet(ps[i], byP[ps[i]], c) && (Tidy(byP[ps[i]]) ==> Unique(more, Re(c)))
    requires LinesAdded(midLines, PrincipalLines(ps[i], byP[ps[i]]), entries)
    ensures PrincipalsFolded(start, lines, kept, byP, ps[..i + 1], c, leftover + more, bound, entries)
  {
    assert ps[..i + 1] == ps[..i] + [ps[i]];
    PrincipalTurn(start, kept, byP, ps[..i], ps[i], c, leftover, mid, more, bound);
    PrincipalLinesAdded(lines, byP, ps[..i], ps[i], midLines, entries);
  }

  lemma PrincipalLinesAdded(lines: set<Entry>, byP: PerPrincipal, done: seq<string>, p: string, midLines: set<Entry>, entries: set<Entry>)
    requires p in byP && LinesAdded(lines, LinesOfPrincipals(byP, done), midLines)
    requires LinesAdded(midLines, PrincipalLines(p, byP[p]), entries)
    ensures LinesAdded(lines, LinesOfPrincipals(byP, done + [p]), entries)
  {
    LinesOfPrincipalsSnoc(byP, done, p);
    PlainLines(byP, done);
    LinesAddedTwice(lines, LinesOfPrincipals(byP, done), midLines, PrincipalLines(p, byP[p]), entries);
  }

  lemma PrincipalTurn(start: set<Binding>, kept: seq<Binding>, byP: PerPrincipal, done: seq<string>, p: string, c: Clusters,
                      leftover: seq<Binding>, mid: set<Binding>, more: seq<Binding>, bound: set<Binding>)
    requires p in byP && p !in done
    requires mid + RecompiledSet(leftover, c) == start + (RecompiledSet(kept, c) + Records(byP, done, c))
    requires RecompiledSet(leftover, c) <= RecompiledSet(kept, c) + Records(byP, done, c)
    requires bound + RecompiledSet(more, c) == mid + RecordSet(p, byP[p], c)
    requires RecompiledSet(more, c) <= RecordSet(p, byP[p], c)
    requires Separate(kept, byP, c) ==> Unique(leftover, Re(c)) && Unique(more, Re(c))
    ensures bound + RecompiledSet(leftover + more, c) == start + (RecompiledSet(kept, c) + Records(byP, done + [p], c))
    ensures RecompiledSet(leftover + more, c) <= RecompiledSet(kept, c) + Records(byP, done + [p], c)
    ensures Separate(kept, byP, c) ==> Unique(leftover + more, Re(c))
  {
    RecordsSnoc(byP, done, p, c);
    TurnSets(start, RecompiledSet(kept, c), Records(byP, done, c), mid, RecompiledSet(leftover, c), RecordSet(p, byP[p], c),
             bound, RecompiledSet(more, c));
    RecompiledConcat(leftover, more, c);
    if Separate(kept, byP, c) { TurnUnique(byP, done, p, RecompiledSet(kept, c), leftover, more, c); }
  }

  method FoldPrincipals(index: TopicIndex, byP: PerPrincipal, principals: seq<string>, kept: seq<Binding>, ghost c: Clusters)
    returns (leftover: seq<Binding>)
    requires Keyed(index) && Imported(byP, index.Keys) && Once(principals) && forall p :: p in principals <==> p in byP
    modifies index.Values
    ensures PrincipalsFolded(old(Bound(index.Values, c)), old(Entries(index)), kept, byP, principals, c, leftover,
                             Bound(index.Values, c), Entries(index))
  {
    ghost var start, lines := Bound(index.Values, c), Entries(index);
    leftover := kept;
    NoPrincipalsFolded(start, lines, kept, byP, c);
    for i := 0 to |principals|
      invariant PrincipalsFolded(start, lines, kept, byP, principals[..i], c, leftover, Bound(index.Values, c), Entries(index))
    {
      ghost var mid, midLines := Bound(index.Values, c), Entries(index);
      var more := FoldPrincipal(index, principals[i], byP[principals[i]], c);
      PrincipalStep(start, lines, kept, byP, principals, i, c, leftover, mid, midLines, more, Bound(index.Values, c), Entries(index));
      leftover := leftover + more;
    }
    assert principals[..|principals|] == principals;
  }

  lemma TurnUnique(byP: PerPrincipal, done: seq<string>, p: string, base: set<Binding>, leftover: seq<Binding>,
                   more: seq<Binding>, c: Clusters)
    requires p in byP && p !in done && base !! Recorded(byP, c)
    requires RecompiledSet(leftover, c) <= base + Records(byP, done, c) && RecompiledSet(more, c) <= RecordSet(p, byP[p], c)
    requires Unique(leftover, Re(c)) && Unique(more, Re(c))
    ensures Unique(leftover + more, Re(c))
  {
    RecordsSnoc(byP, done, p, c);
    forall b | b in RecordSet(p, byP[p], c) ensures b !in base { assert b in Recorded(byP, c); }
    UniqueConcat(leftover, more, c);
  }

  // ---- explicit manifests ------------------------------------------------

  function NameParts(b: Binding): seq<string> {
    [b.principal, b.role] +
    match b.resource
      case None => []
      case Some(r) => [r.resourceType, r.name, r.patternType]
  }

  function ManifestName(b: Binding): string {
    var name := "imported-rb-" + Slugged(Join(NameParts(b), '-'));
    if |name| > MAX_NAME then Trim(name[..MAX_NAME], Dash()) else name
  }

  function ManifestOf(b: Binding, name: string): RoleBindingManifest {
    RoleBindingManifest("", name, b.principal, b.role, b.scope.scopeType,
                        if b.resource.None? then [] else [b.resource.value], Unattributed)
  }

  function ItemsOf(c: Clusters): RoleBindingManifest -> seq<Item<Binding>> {
    (m: RoleBindingManifest) => ManifestItems(m, Scoped(m.scopeType, c))
  }

  function AllItems(ms: seq<RoleBindingManifest>, c: Clusters): seq<Item<Binding>> { FlatMap(ms, ItemsOf(c)) }

  predicate AllResolve(ms: seq<RoleBindingManifest>, c: Clusters) {
    forall m :: m in ms ==> ResolveScope(m.scopeType, c).Some?
  }

  lemma ManifestCompiles(b: Binding, name: string, c: Clusters)
    ensures ItemsOf(c)(ManifestOf(b, name)) == [Item(Recompiled(b, c), Unattributed, false, Source(EXPLICIT, "", name))]
  {
    var m := ManifestOf(b, name);
    if b.resource.Some? {
      assert m.resources[..0] == [];
      assert FlatMap(m.resources, ResourceItem(m, Scoped(m.scopeType, c))) == [] + ResourceItem(m, Scoped(m.scopeType, c))(b.resource.value);
    }
  }

  ghost predicate AllNamed(rbs: seq<Binding>, names: seq<string>) {
    |names| <= |rbs| && forall i :: 0 <= i < |names| ==> Numbered(ManifestName(rbs[i]), names[i])
  }

  lemma AllNamedSnoc(rbs: seq<Binding>, names: seq<string>, name: string)
    requires AllNamed(rbs, names) && |names| < |rbs| && Numbered(ManifestName(rbs[|names|]), name)
    ensures AllNamed(rbs, names + [name])
  {
  }

  /** Each manifest stands for one binding, under a name of its own. */
  ghost predicate Manifested(ms: seq<RoleBindingManifest>, rbs: seq<Binding>, names: seq<string>) {
    && |names| == |rbs| && Once(names) && AllNamed(rbs, names)
    && (forall i :: 0 <= i < |rbs| ==> ManifestOf(rbs[i], names[i]) in ms)
    && (forall m :: m in ms ==> exists i :: 0 <= i < |rbs| && m == ManifestOf(rbs[i], names[i]))
  }

  lemma ManifestedItems(ms: seq<RoleBindingManifest>, rbs: seq<Binding>, names: seq<string>, c: Clusters, it: Item<Binding>)
    requires Manifested(ms, rbs, names)
    ensures it in AllItems(ms, c) <==>
      exists i :: 0 <= i < |rbs| && it == Item(Recompiled(rbs[i], c), Unattributed, false, Source(EXPLICIT, "", names[i]))
  {
    FlatMapMember(ms, ItemsOf(c), it);
    forall i | 0 <= i < |rbs| ensures ItemsOf(c)(ManifestOf(rbs[i], names[i])) ==
      [Item(Recompiled(rbs[i], c), Unattributed, false, Source(EXPLICIT, "", names[i]))]
    {
      ManifestCompiles(rbs[i], names[i], c);
    }
    if i :| 0 <= i < |rbs| && it == Item(Recompiled(rbs[i], c), Unattributed, false, Source(EXPLICIT, "", names[i])) {
      assert ManifestOf(rbs[i], names[i]) in ms && it in ItemsOf(c)(ManifestOf(rbs[i], names[i]));
    }
  }

  lemma ManifestedIds(ms: seq<RoleBindingManifest>, rbs: seq<Binding>, names: seq<string>, c: Clusters)
    requires Manifested(ms, rbs, names)
    ensures IdSet(AllItems(ms, c)) == RecompiledSet(rbs, c)
  {
    forall b | b in RecompiledSet(rbs, c) ensures b in IdSet(AllItems(ms, c)) {
      var x :| x in rbs && Recompiled(x, c) == b;
      var i :| 0 <= i < |rbs| && rbs[i] == x;
      ManifestedItems(ms, rbs, names, c, Item(b, Unattributed, false, Source(EXPLICIT, "", names[i])));
    }
    forall b | b in IdSet(AllItems(ms, c)) ensures b in RecompiledSet(rbs, c) {
      var it :| it in AllItems(ms, c) && it.id == b;
      ManifestedItems(ms, rbs, names, c, it);
    }
  }

  lemma ManifestedOnce(rbs: seq<Binding>, names: seq<string>, c: Clusters, x: Item<Binding>, y: Item<Binding>, i: nat, j: nat)
    requires |names| == |rbs| && Unique(rbs, Re(c)) && i < |rbs| && j < |rbs| && x.id == y.id
    requires x == Item(Recompiled(rbs[i], c), Unattributed, false, Source(EXPLICIT, "", names[i]))
    requires y == Item(Recompiled(rbs[j], c), Unattributed, false, Source(EXPLICIT, "", names[j]))
    ensures x.source == y.source
  {
    assert Re(c)(rbs[i]) == Re(c)(rbs[j]);
    assert i == j;
  }

  lemma ManifestedNoRivals(ms: seq<RoleBindingManifest>, rbs: seq<Binding>, names: seq<string>, c: Clusters)
    requires Manifested(ms, rbs, names)
    ensures Unique(rbs, Re(c)) ==> NoRivals(AllItems(ms, c))
  {
    if Unique(rbs, Re(c)) {
      forall x, y | x in AllItems(ms, c) && y in AllItems(ms, c) && x.id == y.id ensures !Rivals(x.source, y.source) {
        ManifestedItems(ms, rbs, names, c, x);
        ManifestedItems(ms, rbs, names, c, y);
        var i :| 0 <= i < |rbs| && x == Item(Recompiled(rbs[i], c), Unattributed, false, Source(EXPLICIT, "", names[i]));
        var j :| 0 <= j < |rbs| && y == Item(Recompiled(rbs[j], c), Unattributed, false, Source(EXPLICIT, "", names[j]));
        ManifestedOnce(rbs, names, c, x, y, i, j);
      }
    }
  }

  predicate Resolves(rbs: seq<Binding>, c: Clusters) { forall b :: b in rbs ==> ResolveScope(b.scope.scopeType, c).Some? }

  lemma ManifestedResolves(ms: seq<RoleBindingManifest>, rbs: seq<Binding>, names: seq<string>, c: Clusters)
    requires Manifested(ms, rbs, names)
    ensures AllResolve(ms, c) <==> Resolves(rbs, c)
  {
    forall b | b in rbs && AllResolve(ms, c) ensures ResolveScope(b.scope.scopeType, c).Some? {
      var i :| 0 <= i < |rbs| && rbs[i] == b;
      assert ManifestOf(rbs[i], names[i]) in ms;
    }
    forall m | m in ms && Resolves(rbs, c) ensures ResolveScope(m.scopeType, c).Some? {
      var i :| 0 <= i < |rbs| && m == ManifestOf(rbs[i], names[i]);
      assert rbs[i] in rbs;
    }
  }

  function ByName(): RoleBindingManifest -> string { (m: RoleBindingManifest) => m.name }

  /** The manifests of the first bindings, in their order. */
  ghost predicate Written(ms: seq<RoleBindingManifest>, rbs: seq<Binding>, names: seq<string>) {
    |ms| == |names| <= |rbs| && forall j :: 0 <= j < |ms| ==> ms[j] == ManifestOf(rbs[j], names[j])
  }

  lemma WrittenSnoc(ms: seq<RoleBindingManifest>, rbs: seq<Binding>, names: seq<string>, m: RoleBindingManifest, name: string)
    requires Written(ms, rbs, names) && |names| < |rbs| && m == ManifestOf(rbs[|names|], name)
    ensures Written(ms + [m], rbs, names + [name])
  {
  }

  ghost predicate OnceTaken(names: seq<string>, taken: set<string>) { Once(names) && forall n :: n in names ==> n in taken }

  lemma OnceTakenSnoc(names: seq<string>, taken: set<string>, name: string)
    requires OnceTaken(names, taken) && name !in taken
    ensures OnceTaken(names + [name], taken + {name})
  {
    forall i | 0 <= i < |names| ensures names[i] != name { assert names[i] in names; }
  }

  lemma WrittenSorted(ms: seq<RoleBindingManifest>, rbs: seq<Binding>, names: seq<string>, taken: set<string>)
    requires Written(ms, rbs, names) && OnceTaken(names, taken) && AllNamed(rbs, names) && |names| == |rbs|
    ensures Manifested(SortOn(ms, ByName()), rbs, names)
  {
    SortPermutes(ms, OnKey(ByName()));
    forall i | 0 <= i < |rbs| ensures ManifestOf(rbs[i], names[i]) in SortOn(ms, ByName()) { assert ms[i] in ms; }
  }

  method BuildManifests(rbs: seq<Binding>) returns (ms: seq<RoleBindingManifest>, ghost names: seq<string>)
    ensures Manifested(ms, rbs, names)
    ensures forall i, j :: 0 <= i < j < |ms| ==> !StrLess(ms[j].name, ms[i].name)
  {
    var taken: set<string> := {};
    ms, names := [], [];
    for i := 0 to |rbs|
      invariant |names| == i && Written(ms, rbs, names) && OnceTaken(names, taken) && AllNamed(rbs, names)
    {
      var name, taken' := DisambiguateName(ManifestName(rbs[i]), taken);
      WrittenSnoc(ms, rbs, names, ManifestOf(rbs[i], name), name);
      OnceTakenSnoc(names, taken, name);
      AllNamedSnoc(rbs, names, name);
      names, taken := names + [name], taken';
      ms := ms + [ManifestOf(rbs[i], name)];
    }
    WrittenSorted(ms, rbs, names, taken);
    SortAscending(ms, ByName());
    ms := SortOn(ms, ByName());
  }
}
