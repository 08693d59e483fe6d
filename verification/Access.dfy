/** Desired ACLs: compiling topic access and policies to tuples, and the
    Allow/Deny rule that guards the desired set. */
module Access {
  import opened Basics
  import opened Model
  import opened ManagedSet

  datatype Producer = Producer(principal: string, host: string, operations: seq<string>)
  datatype Consumer = Consumer(principal: string, host: string, group: string,
                               topicOperations: seq<string>, groupOperations: seq<string>)
  datatype TopicAccess = TopicAccess(producers: seq<Producer>, consumers: seq<Consumer>)
  const NO_ACCESS := TopicAccess([], [])

  /** One rule of a policy: a grant on a resource pattern for several operations. */
  datatype Rule = Rule(principal: string, permission: string, host: string, resourceType: string,
                       resourceName: string, patternType: string, operations: seq<string>)

  function OrElse(s: string, def: string): string { if s == "" then def else s }
  function HostOrStar(h: string): string { OrElse(h, "*") }
  function OrDefault(ops: seq<string>, def: seq<string>): seq<string> { if |ops| > 0 then ops else def }

  // ---- compilation -------------------------------------------------------

  /** One tuple for each operation. */
  function Expand(grant: Acl, ops: seq<string>): (r: seq<Acl>)
    ensures forall a :: a in r <==> a.operation in ops && a == grant.(operation := a.operation)
  {
    assert forall op :: op in ops ==> exists i :: 0 <= i < |ops| && ops[i] == op;
    var r := seq(|ops|, i requires 0 <= i < |ops| => grant.(operation := ops[i]));
    assert forall i :: 0 <= i < |ops| ==> r[i] in r && r[i] == grant.(operation := ops[i]);
    r
  }

  function Grant(principal: string, host: string, resourceType: string, resourceName: string): Acl {
    Acl(principal, HostOrStar(host), resourceType, resourceName, "literal", "", "Allow")
  }

  function ProducerStep(topic: string): Producer -> seq<Acl> {
    (p: Producer) => Expand(Grant(p.principal, p.host, "topic", topic), OrDefault(p.operations, ["Write", "Describe"]))
  }

  function ConsumerStep(topic: string): Consumer -> seq<Acl> {
    (c: Consumer) =>
      Expand(Grant(c.principal, c.host, "topic", topic), OrDefault(c.topicOperations, ["Read", "Describe"]))
      + Expand(Grant(c.principal, c.host, "group", c.group), OrDefault(c.groupOperations, ["Read"]))
  }

  function TopicAcls(topic: string, access: TopicAccess): seq<Acl> {
    FlatMap(access.producers, ProducerStep(topic)) + FlatMap(access.consumers, ConsumerStep(topic))
  }

  function RuleStep(): Rule -> seq<Acl> {
    (r: Rule) => Expand(Acl(r.principal, HostOrStar(r.host), r.resourceType, r.resourceName,
                            OrElse(r.patternType, "literal"), "", OrElse(r.permission, "Allow")), r.operations)
  }

  function PolicyAcls(rules: seq<Rule>): seq<Acl> { FlatMap(rules, RuleStep()) }

  method CompileOps(grant: Acl, ops: seq<string>) returns (out: seq<Acl>)
    ensures out == Expand(grant, ops)
  {
    out := [];
    for i := 0 to |ops|
      invariant |out| == i && forall j :: 0 <= j < i ==> out[j] == grant.(operation := ops[j])
    {
      out := out + [grant.(operation := ops[i])];
    }
  }

  method CompileTopic(topic: string, access: TopicAccess) returns (out: seq<Acl>)
    ensures out == TopicAcls(topic, access)
  {
    var produced := ExpandProducers(topic, access.producers);
    var consumed := ExpandConsumers(topic, access.consumers);
    out := produced + consumed;
  }

  method ExpandProducers(topic: string, producers: seq<Producer>) returns (out: seq<Acl>)
    ensures out == FlatMap(producers, ProducerStep(topic))
  {
    out := [];
    for i := 0 to |producers|
      invariant out == FlatMap(producers[..i], ProducerStep(topic))
    {
      var p := producers[i];
      FlatMapStep(producers, i, ProducerStep(topic));
      var acls := CompileOps(Grant(p.principal, p.host, "topic", topic), OrDefault(p.operations, ["Write", "Describe"]));
      out := out + acls;
    }
    assert producers[..|producers|] == producers;
  }

  method ExpandConsumers(topic: string, consumers: seq<Consumer>) returns (out: seq<Acl>)
    ensures out == FlatMap(consumers, ConsumerStep(topic))
  {
    out := [];
    for i := 0 to |consumers|
      invariant out == FlatMap(consumers[..i], ConsumerStep(topic))
    {
      var c := consumers[i];
      FlatMapStep(consumers, i, ConsumerStep(topic));
      var onTopic := CompileOps(Grant(c.principal, c.host, "topic", topic), OrDefault(c.topicOperations, ["Read", "Describe"]));
      var onGroup := CompileOps(Grant(c.principal, c.host, "group", c.group), OrDefault(c.groupOperations, ["Read"]));
      out := out + (onTopic + onGroup);
    }
    assert consumers[..|consumers|] == consumers;
  }

  method CompilePolicy(rules: seq<Rule>) returns (out: seq<Acl>)
    ensures out == PolicyAcls(rules)
  {
    out := [];
    for i := 0 to |rules|
      invariant out == FlatMap(rules[..i], RuleStep())
    {
      var r := rules[i];
      FlatMapStep(rules, i, RuleStep());
      var acls := CompileOps(Acl(r.principal, HostOrStar(r.host), r.resourceType, r.resourceName,
                                 OrElse(r.patternType, "literal"), "", OrElse(r.permission, "Allow")), r.operations);
      out := out + acls;
    }
    assert rules[..|rules|] == rules;
  }

  /** Compiled tuples with the attribution of the manifest they came from. */
  function Stamped(acls: seq<Acl>, mode: Mode, prune: bool, source: Source): (r: seq<Item<Acl>>)
    ensures forall it :: it in r <==> it.id in acls && it == Item(it.id, mode, prune, source)
  {
    assert forall a :: a in acls ==> exists i :: 0 <= i < |acls| && acls[i] == a;
    var r := seq(|acls|, i requires 0 <= i < |acls| => Item(acls[i], mode, prune, source));
    assert forall i :: 0 <= i < |acls| ==> r[i] in r && r[i].id == acls[i];
    r
  }

  // ---- the desired set ---------------------------------------------------

  /** The permission each subject was first requested with. */
  type Seen = map<Subject, string>

  function Reject(): (Seen, Item<Acl>) -> Option<Seen> {
    (seen: Seen, it: Item<Acl>) =>
      if SubjectOf(it.id) in seen && seen[SubjectOf(it.id)] != it.id.permission then None
      else Some(seen[SubjectOf(it.id) := it.id.permission])
  }

  function NoConflict<I>(): (Item<I>, Item<I>) -> bool { (x, y) => false }

  function DesiredAcls(items: seq<Item<Acl>>): Built<Acl, Seen> { Build(items, Reject(), NoConflict(), map[]) }

  method BuildDesiredAcls(items: seq<Item<Acl>>) returns (out: seq<Item<Acl>>, refused: seq<Item<Acl>>)
    ensures out == DesiredAcls(items).out && refused == DesiredAcls(items).refused
  {
    var seen: Seen := map[];
    out, refused := BuildDesiredSet(items, Reject(), NoConflict(), seen);
  }

  function FirstPermission(items: seq<Item<Acl>>, s: Subject): Option<string> {
    if items == [] then None
    else
      var earlier := FirstPermission(items[..|items| - 1], s);
      if earlier.Some? then earlier
      else if SubjectOf(items[|items| - 1].id) == s then Some(items[|items| - 1].id.permission) else None
  }

  /** Requested with the permission its subject was first requested with. */
  function Accepted(items: seq<Item<Acl>>): Item<Acl> -> bool {
    (it: Item<Acl>) => FirstPermission(items, SubjectOf(it.id)) == Some(it.id.permission)
  }

  function Declined(items: seq<Item<Acl>>): Item<Acl> -> bool { (it: Item<Acl>) => !Accepted(items)(it) }

  lemma {:induction false} FirstPermissionFound(items: seq<Item<Acl>>, s: Subject)
    ensures FirstPermission(items, s).None? <==> forall it :: it in items ==> SubjectOf(it.id) != s
    ensures FirstPermission(items, s).Some? ==> exists i :: IsFirst(items, s, i) && FirstPermission(items, s) == Some(items[i].id.permission)
  {
    if items != [] {
      var front, last := items[..|items| - 1], items[|items| - 1];
      assert items == front + [last];
      FirstPermissionFound(front, s);
      if FirstPermission(front, s).Some? {
        var i :| IsFirst(front, s, i) && FirstPermission(front, s) == Some(front[i].id.permission);
        assert IsFirst(items, s, i);
      } else if SubjectOf(last.id) == s {
        assert IsFirst(items, s, |front|);
      }
    }
  }

  predicate IsFirst(items: seq<Item<Acl>>, s: Subject, i: int) {
    0 <= i < |items| && SubjectOf(items[i].id) == s && forall j :: 0 <= j < i ==> SubjectOf(items[j].id) != s
  }

  lemma EarlierVerdicts(front: seq<Item<Acl>>, it: Item<Acl>)
    ensures Filter(front, Accepted(front + [it])) == Filter(front, Accepted(front))
    ensures Filter(front, Declined(front + [it])) == Filter(front, Declined(front))
  {
    var items := front + [it];
    assert items[..|items| - 1] == front;
    forall x | x in front ensures Accepted(items)(x) == Accepted(front)(x) {
      FirstPermissionFound(front, SubjectOf(x.id));
    }
    FilterCongruent(front, Accepted(items), Accepted(front));
    FilterCongruent(front, Declined(items), Declined(front));
  }

  /** One step of the walk, given the first permissions seen so far. */
  lemma DesiredStep(b: Built<Acl, Seen>, it: Item<Acl>, kept: seq<Item<Acl>>, first: Option<string>)
    requires b.out == Dedup(kept) && first == Find(b.state, SubjectOf(it.id))
    ensures var b' := Take(b, it, Reject(), NoConflict());
      if first.None? || first.value == it.id.permission
      then b'.out == Dedup(kept + [it]) && b'.refused == b.refused && b'.state == b.state[SubjectOf(it.id) := it.id.permission]
      else b' == b.(refused := b.refused + [it])
  {
    assert (kept + [it])[..|kept|] == kept;
  }

  lemma FirstPermissionSnoc(front: seq<Item<Acl>>, it: Item<Acl>, s: Subject)
    ensures FirstPermission(front + [it], s) ==
            if FirstPermission(front, s).None? && SubjectOf(it.id) == s then Some(it.id.permission) else FirstPermission(front, s)
  {
    assert (front + [it])[..|front|] == front;
  }

  lemma FilterSnoc<T>(front: seq<T>, x: T, p: T -> bool)
    ensures Filter(front + [x], p) == Filter(front, p) + if p(x) then [x] else []
  {
    assert (front + [x])[..|front|] == front;
  }

  /** The walk keeps, merged per identity, exactly the requests that agree with
      the first request on their subject, and refuses exactly the others. */
  lemma {:induction false} DesiredAclsLaw(items: seq<Item<Acl>>)
    ensures DesiredAcls(items).out == Dedup(Filter(items, Accepted(items)))
    ensures DesiredAcls(items).refused == Filter(items, Declined(items))
    ensures forall s :: FirstPermission(items, s) == Find(DesiredAcls(items).state, s)
  {
    if items != [] {
      var front, it := items[..|items| - 1], items[|items| - 1];
      assert items == front + [it];
      DesiredAclsLaw(front);
      EarlierVerdicts(front, it);
      FilterSnoc(front, it, Accepted(items));
      FilterSnoc(front, it, Declined(items));
      DesiredStep(DesiredAcls(front), it, Filter(front, Accepted(front)), FirstPermission(front, SubjectOf(it.id)));
      forall s ensures FirstPermission(items, s) ==
        if FirstPermission(front, s).None? && SubjectOf(it.id) == s then Some(it.id.permission) else FirstPermission(front, s)
      {
        FirstPermissionSnoc(front, it, s);
      }
      assert DesiredAcls(items) == Take(DesiredAcls(front), it, Reject(), NoConflict());
      var kept := Filter(front, Accepted(front));
      assert kept + [] == kept;
    }
  }

  function Find<K, V>(m: map<K, V>, k: K): Option<V> { if k in m then Some(m[k]) else None }

  ghost predicate ConflictFree(acls: set<Acl>) {
    forall a, b :: a in acls && b in acls ==> !Contradict(a, b)
  }

  lemma Empty<T>(xs: seq<T>)
    ensures xs != [] ==> exists x :: x in xs
  {
    if xs != [] { assert xs[0] in xs; }
  }

  function IdSet<I>(items: seq<Item<I>>): set<I> { set it | it in items :: it.id }

  lemma StampedIds(acls: seq<Acl>, mode: Mode, prune: bool, source: Source)
    ensures IdSet(Stamped(acls, mode, prune, source)) == set a | a in acls
  {
    forall a | a in acls ensures a in IdSet(Stamped(acls, mode, prune, source)) {
      assert Item(a, mode, prune, source) in Stamped(acls, mode, prune, source);
    }
  }

  /** Nothing is refused exactly when no subject is requested with two permissions. */
  lemma NoRefusals(items: seq<Item<Acl>>)
    ensures DesiredAcls(items).refused == [] <==> ConflictFree(IdSet(items))
    ensures DesiredAcls(items).refused == [] ==> DesiredAcls(items).out == Dedup(items)
  {
    DesiredAclsLaw(items);
    if x :| x in items && !Accepted(items)(x) {
      FilterMember(items, Declined(items), x);
      FirstPermissionFound(items, SubjectOf(x.id));
      var i :| IsFirst(items, SubjectOf(x.id), i) && FirstPermission(items, SubjectOf(x.id)) == Some(items[i].id.permission);
      assert Contradict(items[i].id, x.id) && items[i].id in IdSet(items) && x.id in IdSet(items);
    } else {
      forall x ensures x !in Filter(items, Declined(items)) { FilterMember(items, Declined(items), x); }
      Empty(Filter(items, Declined(items)));
      FilterEverything(items, Accepted(items));
      forall a, b | a in IdSet(items) && b in IdSet(items) ensures !Contradict(a, b) {
        var x :| x in items && x.id == a;
        var y :| y in items && y.id == b;
        assert Accepted(items)(x) && Accepted(items)(y);
      }
    }
  }

  /** Without contradictions the desired set obeys the merge law, and its scope
      is the scope of the raw requests: mode, consent and owner. */
  lemma ConflictFreeMerge(items: seq<Item<Acl>>)
    requires ConflictFree(IdSet(items))
    ensures Lawful(items, DesiredAcls(items).out)
    ensures Scope(DesiredAcls(items).out, AclScope) == Scope(items, AclScope)
  {
    NoRefusals(items);
    MergeLaw(items);
    ScopeOfDedup(items, AclScope);
  }

  /** The identities of the desired set. */
  lemma DesiredAclIds(items: seq<Item<Acl>>, a: Acl)
    ensures a in IdSet(DesiredAcls(items).out) <==>
      exists it :: it in items && it.id == a && FirstPermission(items, SubjectOf(a)) == Some(a.permission)
  {
    DesiredAclsLaw(items);
    var kept := Filter(items, Accepted(items));
    DedupIds(kept, a);
    if it :| it in items && it.id == a && Accepted(items)(it) { FilterMember(items, Accepted(items), it); }
    if it :| it in kept && it.id == a { FilterMember(items, Accepted(items), it); }
  }

  /** The scope of the desired set consents to pruning under a key exactly when
      every accepted request under that key does. */
  lemma DesiredScope(items: seq<Item<Acl>>, k: AclScopeKey)
    ensures var scope := Scope(DesiredAcls(items).out, AclScope);
      && (k in scope <==> exists it :: it in items && AclScope(it.id) == k && Accepted(items)(it))
      && (k in scope ==> (scope[k].prune <==>
           forall it :: it in items && AclScope(it.id) == k && Accepted(items)(it) ==> it.prune))
      && (k in scope ==>
           exists it :: it in items && AclScope(it.id) == k && Accepted(items)(it) && it.mode == scope[k].mode)
  {
    DesiredAclsLaw(items);
    var kept := Filter(items, Accepted(items));
    ScopeOfDedup(kept, AclScope);
    ScopeEntry(kept, AclScope, k);
    forall it ensures it in kept <==> it in items && Accepted(items)(it) { FilterMember(items, Accepted(items), it); }
  }

  // ---- the report of contradictions --------------------------------------

  /** A request and the first request on its subject, which it contradicts. */
  datatype Conflict = Conflict(first: Item<Acl>, later: Item<Acl>)

  function FirstRequest(items: seq<Item<Acl>>, s: Subject): Option<Item<Acl>> {
    if items == [] then None
    else
      var earlier := FirstRequest(items[..|items| - 1], s);
      if earlier.Some? then earlier
      else if SubjectOf(items[|items| - 1].id) == s then Some(items[|items| - 1]) else None
  }

  function ConflictOf(first: Option<Item<Acl>>, it: Item<Acl>): seq<Conflict> {
    if first.Some? && first.value.id.permission != it.id.permission then [Conflict(first.value, it)] else []
  }

  function ConflictsOf(items: seq<Item<Acl>>): seq<Conflict> {
    if items == [] then []
    else
      var front, it := items[..|items| - 1], items[|items| - 1];
      ConflictsOf(front) + ConflictOf(FirstRequest(front, SubjectOf(it.id)), it)
  }

  method Conflicts(items: seq<Item<Acl>>) returns (out: seq<Conflict>)
    ensures out == ConflictsOf(items)
  {
    var first: map<Subject, Item<Acl>> := map[];
    out := [];
    for i := 0 to |items|
      invariant out == ConflictsOf(items[..i])
      invariant forall s :: FirstRequest(items[..i], s) == Find(first, s)
    {
      assert items[..i + 1][..i] == items[..i];
      var s := SubjectOf(items[i].id);
      assert FirstRequest(items[..i], s) == Find(first, s);
      if s !in first {
        first := first[s := items[i]];
      } else if first[s].id.permission != items[i].id.permission {
        out := out + [Conflict(first[s], items[i])];
      }
    }
    assert items[..|items|] == items;
  }

  lemma {:induction false} FirstRequestFound(items: seq<Item<Acl>>, s: Subject)
    ensures FirstRequest(items, s).None? <==> FirstPermission(items, s).None?
    ensures FirstRequest(items, s).Some? ==>
      && FirstPermission(items, s) == Some(FirstRequest(items, s).value.id.permission)
      && exists i :: IsFirst(items, s, i) && items[i] == FirstRequest(items, s).value
  {
    if items != [] {
      var front := items[..|items| - 1];
      assert items == front + [items[|items| - 1]];
      FirstRequestFound(front, s);
      FirstPermissionFound(front, s);
      if FirstRequest(front, s).Some? {
        var i :| IsFirst(front, s, i) && front[i] == FirstRequest(front, s).value;
        assert IsFirst(items, s, i) && items[i] == front[i];
      } else if FirstRequest(items, s).Some? {
        assert IsFirst(items, s, |front|);
      }
    }
  }

  function Laters(cs: seq<Conflict>): (r: seq<Item<Acl>>)
    ensures |r| == |cs|
  {
    seq(|cs|, i requires 0 <= i < |cs| => cs[i].later)
  }

  lemma LatersConcat(cs: seq<Conflict>, ds: seq<Conflict>)
    ensures Laters(cs + ds) == Laters(cs) + Laters(ds)
  {
  }

  /** The reported conflicts are the refused requests, in order. */
  lemma {:induction false} ConflictsAreRefusals(items: seq<Item<Acl>>)
    ensures Laters(ConflictsOf(items)) == DesiredAcls(items).refused
  {
    if items != [] {
      var front, it := items[..|items| - 1], items[|items| - 1];
      ConflictsAreRefusals(front);
      DesiredAclsLaw(front);
      FirstRequestFound(front, SubjectOf(it.id));
      DesiredStep(DesiredAcls(front), it, Filter(front, Accepted(front)), FirstPermission(front, SubjectOf(it.id)));
      LatersConcat(ConflictsOf(front), ConflictOf(FirstRequest(front, SubjectOf(it.id)), it));
    }
  }

  /** Each names the first request on the subject. */
  lemma {:induction false} ConflictParties(items: seq<Item<Acl>>, c: Conflict)
    requires c in ConflictsOf(items)
    ensures c.later in items && Contradict(c.first.id, c.later.id)
    ensures exists i :: IsFirst(items, SubjectOf(c.later.id), i) && items[i] == c.first
  {
    var front, it := items[..|items| - 1], items[|items| - 1];
    assert items == front + [it];
    var s := SubjectOf(c.later.id);
    if c in ConflictsOf(front) {
      ConflictParties(front, c);
    } else {
      FirstRequestFound(front, s);
    }
    var i :| IsFirst(front, s, i) && front[i] == c.first;
    assert IsFirst(items, s, i) && items[i] == c.first;
  }
}
