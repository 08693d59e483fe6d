/** What manifests compile to, tuple by tuple and role by role. */
module AccessFacts {
  import opened Basics
  import opened Model
  import opened Access
  import opened Rbac

  // ---- ACLs --------------------------------------------------------------

  /** An allowed literal tuple of the entry's principal; a missing host is any host. */
  predicate Allows(a: Acl, principal: string, host: string, resourceType: string, resourceName: string) {
    && a.principal == principal && a.host == (if host == "" then "*" else host)
    && a.resourceType == resourceType && a.resourceName == resourceName && a.patternType == "literal" && a.permission == "Allow"
  }

  predicate ProducerGrants(p: Producer, topic: string, a: Acl) {
    Allows(a, p.principal, p.host, "topic", topic)
    && if p.operations == [] then a.operation in {"Write", "Describe"} else a.operation in p.operations
  }

  predicate ConsumerGrants(c: Consumer, topic: string, a: Acl) {
    || (Allows(a, c.principal, c.host, "topic", topic)
        && if c.topicOperations == [] then a.operation in {"Read", "Describe"} else a.operation in c.topicOperations)
    || (Allows(a, c.principal, c.host, "group", c.group)
        && if c.groupOperations == [] then a.operation == "Read" else a.operation in c.groupOperations)
  }

  lemma ProducerStepIs(p: Producer, topic: string, a: Acl)
    ensures a in ProducerStep(topic)(p) <==> ProducerGrants(p, topic, a)
  {
  }

  lemma ConsumerStepIs(c: Consumer, topic: string, a: Acl)
    ensures a in ConsumerStep(topic)(c) <==> ConsumerGrants(c, topic, a)
  {
  }

  /** The tuples of a topic's access block: those of its producers and consumers,
      with the default operations where an entry lists none. */
  lemma TopicGrants(topic: string, access: TopicAccess, a: Acl)
    ensures a in TopicAcls(topic, access) <==>
      || (exists p :: p in access.producers && ProducerGrants(p, topic, a))
      || (exists c :: c in access.consumers && ConsumerGrants(c, topic, a))
  {
    FlatMapMember(access.producers, ProducerStep(topic), a);
    FlatMapMember(access.consumers, ConsumerStep(topic), a);
    forall p | p in access.producers ensures a in ProducerStep(topic)(p) <==> ProducerGrants(p, topic, a) { ProducerStepIs(p, topic, a); }
    forall c | c in access.consumers ensures a in ConsumerStep(topic)(c) <==> ConsumerGrants(c, topic, a) { ConsumerStepIs(c, topic, a); }
  }

  predicate RuleGrants(r: Rule, a: Acl) {
    && a.principal == r.principal && a.host == (if r.host == "" then "*" else r.host)
    && a.resourceType == r.resourceType && a.resourceName == r.resourceName
    && a.patternType == (if r.patternType == "" then "literal" else r.patternType)
    && a.permission == (if r.permission == "" then "Allow" else r.permission) && a.operation in r.operations
  }

  /** The tuples of a policy: one for each operation of each rule. */
  lemma PolicyGrants(rules: seq<Rule>, a: Acl)
    ensures a in PolicyAcls(rules) <==> exists r :: r in rules && RuleGrants(r, a)
  {
    FlatMapMember(rules, RuleStep(), a);
    forall r | r in rules ensures a in RuleStep()(r) <==> RuleGrants(r, a) {}
  }

  lemma FlatMapSnoc<T>(xs: seq<T>, x: T, f: T -> seq<Acl>)
    ensures FlatMap(xs + [x], f) == FlatMap(xs, f) + f(x)
  {
    assert (xs + [x])[..|xs|] == xs;
  }

  lemma Suffix(a: seq<Acl>, b: seq<Acl>, more: seq<Acl>)
    ensures a + b <= a + (b + more) && (a + (b + more))[|a + b|..] == more
  {
  }

  predicate ProducerTuples(p: Producer, topic: string, r: seq<Acl>) {
    var ops := if p.operations == [] then ["Write", "Describe"] else p.operations;
    |r| == |ops| && forall i :: 0 <= i < |r| ==> Allows(r[i], p.principal, p.host, "topic", topic) && r[i].operation == ops[i]
  }

  /** A producer entry adds its tuples in the order of its operations. */
  lemma ProducersInOrder(topic: string, ps: seq<Producer>, p: Producer)
    ensures var before, after := TopicAcls(topic, TopicAccess(ps, [])), TopicAcls(topic, TopicAccess(ps + [p], []));
      before <= after && ProducerTuples(p, topic, after[|before|..])
  {
    FlatMapSnoc(ps, p, ProducerStep(topic));
    Suffix([], FlatMap(ps, ProducerStep(topic)), ProducerStep(topic)(p));
    var before, after := TopicAcls(topic, TopicAccess(ps, [])), TopicAcls(topic, TopicAccess(ps + [p], []));
    assert before == [] + FlatMap(ps, ProducerStep(topic));
    assert after == [] + (FlatMap(ps, ProducerStep(topic)) + ProducerStep(topic)(p));
  }

  /** The topic tuples of a consumer entry before its group tuples, each in the
      order of its operations. */
  predicate ConsumerTuples(c: Consumer, topic: string, r: seq<Acl>) {
    var onTopic := if c.topicOperations == [] then ["Read", "Describe"] else c.topicOperations;
    var onGroup := if c.groupOperations == [] then ["Read"] else c.groupOperations;
    && |r| == |onTopic| + |onGroup|
    && (forall i :: 0 <= i < |onTopic| ==> Allows(r[i], c.principal, c.host, "topic", topic) && r[i].operation == onTopic[i])
    && (forall i :: |onTopic| <= i < |r| ==>
          Allows(r[i], c.principal, c.host, "group", c.group) && r[i].operation == onGroup[i - |onTopic|])
  }

  lemma ConsumerListed(c: Consumer, topic: string)
    ensures ConsumerTuples(c, topic, ConsumerStep(topic)(c))
  {
  }

  /** A consumer entry adds its tuples after those of all producers. */
  lemma ConsumersInOrder(topic: string, ps: seq<Producer>, cs: seq<Consumer>, c: Consumer)
    ensures var before, after := TopicAcls(topic, TopicAccess(ps, cs)), TopicAcls(topic, TopicAccess(ps, cs + [c]));
      before <= after && ConsumerTuples(c, topic, after[|before|..])
  {
    FlatMapSnoc(cs, c, ConsumerStep(topic));
    Suffix(FlatMap(ps, ProducerStep(topic)), FlatMap(cs, ConsumerStep(topic)), ConsumerStep(topic)(c));
    ConsumerListed(c, topic);
  }

  predicate RuleTuples(r: Rule, tuples: seq<Acl>) {
    |tuples| == |r.operations|
    && forall i :: 0 <= i < |tuples| ==> RuleGrants(r, tuples[i]) && tuples[i].operation == r.operations[i]
  }

  /** A rule adds its tuples in the order of its operations. */
  lemma RulesInOrder(rules: seq<Rule>, r: Rule)
    ensures var before, after := PolicyAcls(rules), PolicyAcls(rules + [r]);
      before <= after && RuleTuples(r, after[|before|..])
  {
    FlatMapSnoc(rules, r, RuleStep());
    assert PolicyAcls(rules + [r])[|PolicyAcls(rules)|..] == RuleStep()(r);
    RuleListed(r);
  }

  lemma RuleListed(r: Rule)
    ensures RuleTuples(r, RuleStep()(r))
  {
    forall i | 0 <= i < |r.operations| ensures RuleStep()(r)[i].operation == r.operations[i] && RuleGrants(r, RuleStep()(r)[i]) {
      assert r.operations[i] in r.operations;
    }
  }

  /** Something is refused exactly when two requests agree in all but the permission. */
  lemma RefusedForPermission(items: seq<Item<Acl>>)
    ensures DesiredAcls(items).refused != [] <==>
      exists x, y :: x in items && y in items && x.id.permission != y.id.permission
                     && x.id == y.id.(permission := x.id.permission)
  {
    NoRefusals(items);
    forall x, y | x in items && y in items
      ensures Contradict(x.id, y.id) <==> x.id.permission != y.id.permission && x.id == y.id.(permission := x.id.permission) {}
    forall a, b | a in IdSet(items) && b in IdSet(items) && Contradict(a, b)
      ensures exists x, y :: x in items && y in items && Contradict(x.id, y.id) {
      var x :| x in items && x.id == a;
      var y :| y in items && y.id == b;
    }
  }

  // ---- roles -------------------------------------------------------------

  lemma {:induction false} OneEach<T, U>(xs: seq<T>, f: T -> seq<U>)
    requires forall x :: |f(x)| == 1
    ensures |FlatMap(xs, f)| == |xs| && forall i :: 0 <= i < |xs| ==> FlatMap(xs, f)[i] == f(xs[i])[0]
  {
    if xs != [] { OneEach(xs[..|xs| - 1], f); }
  }

  lemma {:induction false} TwoEach<T, U>(xs: seq<T>, f: T -> seq<U>)
    requires forall x :: |f(x)| == 2
    ensures |FlatMap(xs, f)| == 2 * |xs|
    ensures forall i :: 0 <= i < |xs| ==> FlatMap(xs, f)[2 * i] == f(xs[i])[0] && FlatMap(xs, f)[2 * i + 1] == f(xs[i])[1]
  {
    if xs != [] { TwoEach(xs[..|xs| - 1], f); }
  }

  /** The item of a topic: a role on a literal Kafka resource, attributed to the
      topic, without a mode of its own and without prune consent. */
  predicate IsRole(it: Item<Binding>, principal: string, role: string, resourceType: string, name: string, source: Source, c: Clusters) {
    && it.id == Binding(principal, role, MdsScope("kafka", c.kafka, ""), Some(Resource(resourceType, name, "literal")))
    && it.mode == Unattributed && !it.prune && it.source == source
  }

  /** The roles of a topic's access block, in order: writing for each producer;
      reading the topic and the group for each consumer. */
  lemma TopicRoles(topic: string, access: TopicAccess, source: Source, c: Clusters)
    ensures var items, n := AccessItems(topic, access, source, c), |access.producers|;
      && |items| == n + 2 * |access.consumers|
      && (forall i :: 0 <= i < n ==> IsRole(items[i], access.producers[i].principal, "DeveloperWrite", "Topic", topic, source, c))
      && (forall i :: 0 <= i < |access.consumers| ==> var u := access.consumers[i];
            && IsRole(items[n + 2 * i], u.principal, "DeveloperRead", "Topic", topic, source, c)
            && IsRole(items[n + 2 * i + 1], u.principal, "DeveloperRead", "Group", u.group, source, c))
  {
    OneEach(access.producers, ProducerBinding(topic, source, c));
    TwoEach(access.consumers, ConsumerBindings(topic, source, c));
  }

  // ---- warnings ----------------------------------------------------------

  /** Dropped with a warning: a host that is not any host, and a list of
      operations other than the ones the role stands for. */
  predicate Warned(w: Coarsening, context: string, principal: string, host: string) {
    w == HostDropped(context, principal, host) && host != "" && host != "*"
  }

  predicate WarnedOps(w: Coarsening, context: string, principal: string, ops: seq<string>, bundle: set<string>) {
    w == OperationsDropped(context, principal, ops) && ops != [] && (set op | op in ops) != bundle
  }

  lemma OpsLossIs(context: string, principal: string, ops: seq<string>, bundle: seq<string>, w: Coarsening)
    ensures w in OpsLoss(context, principal, ops, bundle) <==> WarnedOps(w, context, principal, ops, Members(bundle))
  {
    assert Members(ops) == set op | op in ops;
  }

  lemma BundlesAre()
    ensures Members(["Write", "Describe"]) == {"Write", "Describe"} && Members(["Read", "Describe"]) == {"Read", "Describe"}
    ensures Members(["Read"]) == {"Read"}
  {
  }

  predicate ProducerWarns(p: Producer, w: Coarsening) {
    Warned(w, "producer", p.principal, p.host) || WarnedOps(w, "producer", p.principal, p.operations, {"Write", "Describe"})
  }

  predicate ConsumerWarns(u: Consumer, w: Coarsening) {
    || Warned(w, "consumer", u.principal, u.host)
    || WarnedOps(w, "consumer topic", u.principal, u.topicOperations, {"Read", "Describe"})
    || WarnedOps(w, "consumer group", u.principal, u.groupOperations, {"Read"})
  }

  /** The warnings of an access block are those of its entries. */
  lemma AccessWarnings(access: TopicAccess, w: Coarsening)
    ensures w in AccessLoss(access) <==>
      || (exists p :: p in access.producers && ProducerWarns(p, w))
      || (exists u :: u in access.consumers && ConsumerWarns(u, w))
  {
    BundlesAre();
    FlatMapMember(access.producers, ProducerLoss(), w);
    FlatMapMember(access.consumers, ConsumerLoss(), w);
    forall p | p in access.producers ensures w in ProducerLoss()(p) <==> ProducerWarns(p, w) {
      OpsLossIs("producer", p.principal, p.operations, ["Write", "Describe"], w);
    }
    forall u | u in access.consumers ensures w in ConsumerLoss()(u) <==> ConsumerWarns(u, w) {
      OpsLossIs("consumer topic", u.principal, u.topicOperations, ["Read", "Describe"], w);
      OpsLossIs("consumer group", u.principal, u.groupOperations, ["Read"], w);
    }
  }

  // ---- collisions --------------------------------------------------------

  /** With explicit manifests first, something is refused exactly when two
      manifests that differ in namespace or name request one identity. */
  lemma RefusedForManifest(items: seq<Item<Binding>>)
    requires forall i, j :: 0 <= i < j < |items| && items[j].source.kind == "KafkaRoleBinding" ==>
               items[i].source.kind == "KafkaRoleBinding"
    ensures DesiredBindings(items).refused != [] <==>
      exists x, y :: x in items && y in items && x.id == y.id
                     && x.source.kind == "KafkaRoleBinding" && y.source.kind == "KafkaRoleBinding"
                     && (x.source.ns != y.source.ns || x.source.name != y.source.name)
  {
    assert ExplicitFirst(items);
    CollisionsReported(items);
  }
}
