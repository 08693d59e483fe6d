/** The manifests an import produces. */
module Manifests {
  import opened Basics
  import opened Model
  import opened Access
  import opened Rbac

  /** A topic manifest; folding grants rewrites its access block in place. */
  class KafkaTopic {
    const name: string
    const topicName: string
    const partitions: int
    const replicationFactor: Option<int>
    const config: map<string, string>
    var access: TopicAccess

    constructor (name: string, topicName: string, partitions: int, replicationFactor: Option<int>, config: map<string, string>)
      ensures this.name == name && this.topicName == topicName && this.partitions == partitions
      ensures this.replicationFactor == replicationFactor && this.config == config && access == NO_ACCESS
    {
      this.name, this.topicName, this.partitions := name, topicName, partitions;
      this.replicationFactor, this.config, access := replicationFactor, config, NO_ACCESS;
    }

    /** The Kafka topic the manifest targets. */
    function Resolved(): string { if topicName != "" then topicName else name }
  }

  datatype Policy = Policy(name: string, rules: seq<Rule>)

  type TopicIndex = map<string, KafkaTopic>

  ghost predicate Keyed(index: TopicIndex) { forall t :: t in index ==> index[t].Resolved() == t }

  // ---- what the manifests grant ------------------------------------------

  ghost function AccessOf(topics: set<KafkaTopic>): map<KafkaTopic, TopicAccess> reads topics {
    map tp | tp in topics :: tp.access
  }

  ghost function GrantedBy(accesses: map<KafkaTopic, TopicAccess>): set<Acl> {
    set tp, a | tp in accesses && a in TopicAcls(tp.Resolved(), accesses[tp]) :: a
  }

  ghost function Granted(topics: set<KafkaTopic>): set<Acl> reads topics { GrantedBy(AccessOf(topics)) }

  function PolicySet(policies: seq<Policy>): set<Acl> {
    set p, a | p in policies && a in PolicyAcls(p.rules) :: a
  }

  predicate AccessBinds(topic: string, access: TopicAccess, c: Clusters, b: Binding) {
    || (exists p :: p in access.producers && b == KafkaGrant(p.principal, "DeveloperWrite", "Topic", topic, c))
    || (exists u :: u in access.consumers && b == KafkaGrant(u.principal, "DeveloperRead", "Topic", topic, c))
    || (exists u :: u in access.consumers && b == KafkaGrant(u.principal, "DeveloperRead", "Group", u.group, c))
  }

  lemma AccessItemMember(topic: string, access: TopicAccess, source: Source, c: Clusters, it: Item<Binding>)
    ensures it in AccessItems(topic, access, source, c) <==>
      AccessBinds(topic, access, c, it.id) && it == Derived(it.id, source)
  {
    FlatMapMember(access.producers, ProducerBinding(topic, source, c), it);
    FlatMapMember(access.consumers, ConsumerBindings(topic, source, c), it);
    if p :| p in access.producers && it.id == KafkaGrant(p.principal, "DeveloperWrite", "Topic", topic, c) {
      assert ProducerBinding(topic, source, c)(p) == [Derived(it.id, source)];
    }
    if u :| u in access.consumers && it.id == KafkaGrant(u.principal, "DeveloperRead", "Topic", topic, c) {
      assert ConsumerBindings(topic, source, c)(u)[0] == Derived(it.id, source);
    }
    if u :| u in access.consumers && it.id == KafkaGrant(u.principal, "DeveloperRead", "Group", u.group, c) {
      assert ConsumerBindings(topic, source, c)(u)[1] == Derived(it.id, source);
    }
  }

  ghost function BoundBy(accesses: map<KafkaTopic, TopicAccess>, c: Clusters): set<Binding> {
    set tp, it | tp in accesses && it in AccessItems(tp.Resolved(), accesses[tp], NO_SOURCE, c) :: it.id
  }

  ghost function Bound(topics: set<KafkaTopic>, c: Clusters): set<Binding> reads topics { BoundBy(AccessOf(topics), c) }

  predicate BindsAt(accesses: map<KafkaTopic, TopicAccess>, tp: KafkaTopic, c: Clusters, b: Binding) {
    tp in accesses && AccessBinds(tp.Resolved(), accesses[tp], c, b)
  }

  lemma BoundMember(accesses: map<KafkaTopic, TopicAccess>, c: Clusters, b: Binding)
    ensures b in BoundBy(accesses, c) <==> exists tp :: BindsAt(accesses, tp, c, b)
  {
    if tp :| BindsAt(accesses, tp, c, b) {
      AccessItemMember(tp.Resolved(), accesses[tp], NO_SOURCE, c, Derived(b, NO_SOURCE));
    }
    if b in BoundBy(accesses, c) {
      var tp, it :| tp in accesses && it in AccessItems(tp.Resolved(), accesses[tp], NO_SOURCE, c) && it.id == b;
      AccessItemMember(tp.Resolved(), accesses[tp], NO_SOURCE, c, it);
      assert BindsAt(accesses, tp, c, b);
    }
  }

  lemma BindsElsewhere(was: map<KafkaTopic, TopicAccess>, tp: KafkaTopic, after: TopicAccess, x: KafkaTopic, c: Clusters, b: Binding)
    requires tp in was
    ensures BindsAt(was[tp := after], x, c, b) <==>
      if x == tp then AccessBinds(tp.Resolved(), after, c, b) else BindsAt(was, x, c, b)
  {
  }

  lemma BoundGrew(was: map<KafkaTopic, TopicAccess>, tp: KafkaTopic, after: TopicAccess, c: Clusters, more: set<Binding>)
    requires tp in was
    requires forall b :: AccessBinds(tp.Resolved(), after, c, b) <==> AccessBinds(tp.Resolved(), was[tp], c, b) || b in more
    ensures BoundBy(was[tp := after], c) == BoundBy(was, c) + more
  {
    var now := was[tp := after];
    forall b ensures b in BoundBy(now, c) <==> b in BoundBy(was, c) || b in more {
      BoundMember(was, c, b);
      BoundMember(now, c, b);
      BindsElsewhere(was, tp, after, tp, c, b);
      assert BindsAt(was, tp, c, b) <==> AccessBinds(tp.Resolved(), was[tp], c, b);
      if x :| BindsAt(was, x, c, b) { BindsElsewhere(was, tp, after, x, c, b); }
      if x :| BindsAt(now, x, c, b) { BindsElsewhere(was, tp, after, x, c, b); }
    }
  }

  function ProducerSet(t: string, p: Producer): set<Acl> { set a | a in ProducerStep(t)(p) }
  function ConsumerSet(t: string, u: Consumer): set<Acl> { set a | a in ConsumerStep(t)(u) }

  // ---- the lines of the access blocks ------------------------------------

  datatype Entry = Produces(topic: string, producer: Producer) | Consumes(topic: string, consumer: Consumer)

  function EntryAcls(e: Entry): set<Acl> {
    match e
    case Produces(t, p) => ProducerSet(t, p)
    case Consumes(t, u) => ConsumerSet(t, u)
  }

  function EntryRoles(e: Entry, c: Clusters): set<Binding> {
    match e
    case Produces(t, p) => {KafkaGrant(p.principal, "DeveloperWrite", "Topic", t, c)}
    case Consumes(t, u) => {KafkaGrant(u.principal, "DeveloperRead", "Topic", t, c), KafkaGrant(u.principal, "DeveloperRead", "Group", u.group, c)}
  }

  function GrantedOf(es: set<Entry>): set<Acl> { set e, a | e in es && a in EntryAcls(e) :: a }
  function BoundOf(es: set<Entry>, c: Clusters): set<Binding> { set e, b | e in es && b in EntryRoles(e, c) :: b }

  lemma GrantedOfUnion(x: set<Entry>, y: set<Entry>)
    ensures GrantedOf(x + y) == GrantedOf(x) + GrantedOf(y)
  {
  }

  ghost predicate HasEntry(index: TopicIndex, accesses: map<KafkaTopic, TopicAccess>, e: Entry) {
    && e.topic in index && index[e.topic] in accesses
    && match e
       case Produces(t, p) => p in accesses[index[t]].producers
       case Consumes(t, u) => u in accesses[index[t]].consumers
  }

  ghost function EntriesOf(index: TopicIndex, accesses: map<KafkaTopic, TopicAccess>): (r: set<Entry>)
    ensures forall e :: e in r <==> HasEntry(index, accesses, e)
  {
    (set t, p | t in index && index[t] in accesses && p in accesses[index[t]].producers :: Produces(t, p))
    + (set t, u | t in index && index[t] in accesses && u in accesses[index[t]].consumers :: Consumes(t, u))
  }

  ghost function Entries(index: TopicIndex): set<Entry> reads index.Values { EntriesOf(index, AccessOf(index.Values)) }

  ghost predicate CoversIndex(index: TopicIndex, accesses: map<KafkaTopic, TopicAccess>) { Keyed(index) && accesses.Keys == index.Values }

  lemma GrantsMember(topic: string, access: TopicAccess, a: Acl)
    ensures a in TopicAcls(topic, access) <==>
      || (exists p :: p in access.producers && a in ProducerStep(topic)(p))
      || (exists u :: u in access.consumers && a in ConsumerStep(topic)(u))
  {
    FlatMapMember(access.producers, ProducerStep(topic), a);
    FlatMapMember(access.consumers, ConsumerStep(topic), a);
  }

  lemma GrantHasEntry(index: TopicIndex, accesses: map<KafkaTopic, TopicAccess>, tp: KafkaTopic, a: Acl) returns (e: Entry)
    requires CoversIndex(index, accesses) && tp in accesses && a in TopicAcls(tp.Resolved(), accesses[tp])
    ensures HasEntry(index, accesses, e) && a in EntryAcls(e)
  {
    var t := tp.Resolved();
    assert t in index && index[t] == tp;
    GrantsMember(t, accesses[tp], a);
    if p :| p in accesses[tp].producers && a in ProducerStep(t)(p) {
      e := Produces(t, p);
    } else {
      var u :| u in accesses[tp].consumers && a in ConsumerStep(t)(u);
      e := Consumes(t, u);
    }
  }

  lemma EntryGrants(index: TopicIndex, accesses: map<KafkaTopic, TopicAccess>, e: Entry, a: Acl)
    requires CoversIndex(index, accesses) && HasEntry(index, accesses, e) && a in EntryAcls(e)
    ensures index[e.topic].Resolved() == e.topic && a in TopicAcls(e.topic, accesses[index[e.topic]])
  {
    GrantsMember(e.topic, accesses[index[e.topic]], a);
  }

  /** Topics grant what the lines of their access blocks grant. */
  lemma GrantedByEntries(index: TopicIndex, accesses: map<KafkaTopic, TopicAccess>)
    requires CoversIndex(index, accesses)
    ensures GrantedBy(accesses) == GrantedOf(EntriesOf(index, accesses))
  {
    forall a | a in GrantedBy(accesses) ensures a in GrantedOf(EntriesOf(index, accesses)) {
      var tp :| tp in accesses && a in TopicAcls(tp.Resolved(), accesses[tp]);
      var e := GrantHasEntry(index, accesses, tp, a);
    }
    forall a | a in GrantedOf(EntriesOf(index, accesses)) ensures a in GrantedBy(accesses) {
      var e :| e in EntriesOf(index, accesses) && a in EntryAcls(e);
      EntryGrants(index, accesses, e, a);
    }
  }

  lemma RolesMember(topic: string, access: TopicAccess, c: Clusters, b: Binding)
    ensures AccessBinds(topic, access, c, b) <==>
      || (exists p :: p in access.producers && b in EntryRoles(Produces(topic, p), c))
      || (exists u :: u in access.consumers && b in EntryRoles(Consumes(topic, u), c))
  {
  }

  lemma BoundByEntries(index: TopicIndex, accesses: map<KafkaTopic, TopicAccess>, c: Clusters)
    requires CoversIndex(index, accesses)
    ensures BoundBy(accesses, c) == BoundOf(EntriesOf(index, accesses), c)
  {
    forall b | b in BoundBy(accesses, c) ensures b in BoundOf(EntriesOf(index, accesses), c) {
      BoundMember(accesses, c, b);
      var tp :| BindsAt(accesses, tp, c, b);
      var t := tp.Resolved();
      assert t in index && index[t] == tp;
      RolesMember(t, accesses[tp], c, b);
      if p :| p in accesses[tp].producers && b in EntryRoles(Produces(t, p), c) {
        assert HasEntry(index, accesses, Produces(t, p));
      } else {
        var u :| u in accesses[tp].consumers && b in EntryRoles(Consumes(t, u), c);
        assert HasEntry(index, accesses, Consumes(t, u));
      }
    }
    forall b | b in BoundOf(EntriesOf(index, accesses), c) ensures b in BoundBy(accesses, c) {
      var e :| e in EntriesOf(index, accesses) && b in EntryRoles(e, c);
      RolesMember(e.topic, accesses[index[e.topic]], c, b);
      BoundMember(accesses, c, b);
      assert BindsAt(accesses, index[e.topic], c, b);
    }
  }

  lemma ProducerEntered(index: TopicIndex, was: map<KafkaTopic, TopicAccess>, t: string, p: Producer)
    requires Keyed(index) && t in index && index[t] in was
    ensures var tp := index[t];
      EntriesOf(index, was[tp := TopicAccess(was[tp].producers + [p], was[tp].consumers)]) == EntriesOf(index, was) + {Produces(t, p)}
  {
  }

  lemma ConsumerEntered(index: TopicIndex, was: map<KafkaTopic, TopicAccess>, t: string, u: Consumer)
    requires Keyed(index) && t in index && index[t] in was
    ensures var tp := index[t];
      EntriesOf(index, was[tp := TopicAccess(was[tp].producers, was[tp].consumers + [u])]) == EntriesOf(index, was) + {Consumes(t, u)}
  {
  }

  // ---- folding into one topic --------------------------------------------

  lemma ProducerAdds(topic: string, access: TopicAccess, p: Producer, a: Acl)
    ensures a in TopicAcls(topic, access.(producers := access.producers + [p])) <==>
      a in TopicAcls(topic, access) || a in ProducerStep(topic)(p)
  {
    assert (access.producers + [p])[..|access.producers|] == access.producers;
  }

  lemma ConsumerAdds(topic: string, access: TopicAccess, u: Consumer, a: Acl)
    ensures a in TopicAcls(topic, access.(consumers := access.consumers + [u])) <==>
      a in TopicAcls(topic, access) || a in ConsumerStep(topic)(u)
  {
    assert (access.consumers + [u])[..|access.consumers|] == access.consumers;
  }

  /** Rewrites one topic of the index. */
  method SetAccess(index: TopicIndex, tp: KafkaTopic, access: TopicAccess)
    requires tp in index.Values
    modifies tp
    ensures AccessOf(index.Values) == old(AccessOf(index.Values))[tp := access]
  {
    tp.access := access;
  }

  method AppendProducer(index: TopicIndex, t: string, p: Producer)
    requires Keyed(index) && t in index
    modifies index.Values
    ensures Granted(index.Values) == old(Granted(index.Values)) + ProducerSet(t, p)
    ensures Entries(index) == old(Entries(index)) + {Produces(t, p)}
  {
    var tp := index[t];
    ghost var was := AccessOf(index.Values);
    forall a { ProducerAdds(t, was[tp], p, a); }
    ProducerEntered(index, was, t, p);
    OneTopicGrew(was, tp, TopicAccess(was[tp].producers + [p], was[tp].consumers), ProducerSet(t, p));
    SetAccess(index, tp, TopicAccess(tp.access.producers + [p], tp.access.consumers));
  }

  method AppendConsumer(index: TopicIndex, t: string, u: Consumer)
    requires Keyed(index) && t in index
    modifies index.Values
    ensures Granted(index.Values) == old(Granted(index.Values)) + ConsumerSet(t, u)
    ensures Entries(index) == old(Entries(index)) + {Consumes(t, u)}
  {
    var tp := index[t];
    ghost var was := AccessOf(index.Values);
    forall a { ConsumerAdds(t, was[tp], u, a); }
    ConsumerEntered(index, was, t, u);
    OneTopicGrew(was, tp, TopicAccess(was[tp].producers, was[tp].consumers + [u]), ConsumerSet(t, u));
    SetAccess(index, tp, TopicAccess(tp.access.producers, tp.access.consumers + [u]));
  }

  /** One topic's access grew from `before` to `after`, granting `more`. */
  lemma OneTopicGrew(was: map<KafkaTopic, TopicAccess>, tp: KafkaTopic, after: TopicAccess, more: set<Acl>)
    requires tp in was
    requires forall a :: a in TopicAcls(tp.Resolved(), after) <==> a in TopicAcls(tp.Resolved(), was[tp]) || a in more
    ensures GrantedBy(was[tp := after]) == GrantedBy(was) + more
  {
    forall a ensures a in GrantedBy(was[tp := after]) <==> a in GrantedBy(was) || a in more {
      if x :| x in was && a in TopicAcls(x.Resolved(), was[x]) {
        assert x in was[tp := after] && a in TopicAcls(x.Resolved(), was[tp := after][x]);
      }
      if a in more { assert tp in was[tp := after] && a in TopicAcls(tp.Resolved(), after); }
    }
  }
}
