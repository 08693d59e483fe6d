/** The reference store: the in-memory Kafka and MDS clients, and the abstract
    state they implement. */
module Store {
  import opened Basics
  import opened Model

  datatype Topic = Topic(partitions: int, replicationFactor: int, config: map<string, string>)
  datatype TopicState = TopicState(name: string, topic: Topic)

  /** What the two clients hold, without the order of their lists. */
  datatype State = State(topics: map<string, Topic>, acls: set<Acl>, bindings: set<Binding>,
                         quotas: map<Entity, map<string, real>>, scram: map<ScramId, int>)

  const DEFAULT_ITERATIONS: int := 4096

  function EffectiveIterations(n: int): int { if n == 0 then DEFAULT_ITERATIONS else n }

  datatype Call =
    | CallCreateTopic(name: string, topic: Topic)
    | CallUpdateConfig(name: string, key: string, value: string)
    | CallCreatePartitions(name: string, count: int)
    | CallDeleteTopic(name: string)
    | CallCreateAcl(acl: Acl)
    | CallDeleteAcls(acls: set<Acl>)
    | CallSetQuota(entity: Entity, limits: map<string, real>)
    | CallDeleteQuota(entity: Entity, keys: set<string>)
    | CallUpsertScram(id: ScramId, iterations: int)
    | CallDeleteScram(id: ScramId)
    | CallAddBinding(binding: Binding)
    | CallRemoveBinding(binding: Binding)

  predicate IsMds(c: Call) { c.CallAddBinding? || c.CallRemoveBinding? }

  /** The errors a client raises on its own, without an injected failure. */
  predicate Accepts(s: State, c: Call) {
    match c
    case CallCreateTopic(t, _) => t !in s.topics
    case CallUpdateConfig(t, _, _) => t in s.topics
    case CallCreatePartitions(t, n) => t in s.topics && s.topics[t].partitions <= n
    case _ => true
  }

  function QuotaOf(s: State, e: Entity): map<string, real> {
    if e in s.quotas then s.quotas[e] else map[]
  }

  /** The state after an accepted call. */
  function Exec(s: State, c: Call): State
    requires Accepts(s, c)
  {
    match c
    case CallCreateTopic(t, topic) => s.(topics := s.topics[t := topic])
    case CallUpdateConfig(t, k, v) =>
      s.(topics := s.topics[t := s.topics[t].(config := s.topics[t].config[k := v])])
    case CallCreatePartitions(t, n) => s.(topics := s.topics[t := s.topics[t].(partitions := n)])
    case CallDeleteTopic(t) => s.(topics := s.topics - {t})
    case CallCreateAcl(a) => s.(acls := s.acls + {a})
    case CallDeleteAcls(as_) => s.(acls := s.acls - as_)
    case CallSetQuota(e, limits) => s.(quotas := s.quotas[e := QuotaOf(s, e) + limits])
    case CallDeleteQuota(e, keys) =>
      if e !in s.quotas then s
      else if s.quotas[e] - keys == map[] then s.(quotas := s.quotas - {e})
      else s.(quotas := s.quotas[e := s.quotas[e] - keys])
    case CallUpsertScram(id, n) => s.(scram := s.scram[id := EffectiveIterations(n)])
    case CallDeleteScram(id) => s.(scram := s.scram - {id})
    case CallAddBinding(b) => s.(bindings := s.bindings + {b})
    case CallRemoveBinding(b) => s.(bindings := s.bindings - {b})
  }

  // ---- the state as independent cells ------------------------------------

  datatype Cell =
    | PartitionsCell(topic: string)
    | ReplicasCell(topic: string)
    | ConfigCell(topic: string, key: string)
    | AclCell(acl: Acl)
    | BindingCell(binding: Binding)
    | QuotaCell(entity: Entity, limit: string)
    | ScramCell(id: ScramId)

  datatype Value = Count(n: int) | Text(s: string) | Present | Rate(r: real)

  function Held(b: bool): Option<Value> { if b then Some(Present) else None }

  /** The content of one cell; `None` when there is nothing there. */
  function At(s: State, c: Cell): Option<Value> {
    match c
    case PartitionsCell(t) => if t in s.topics then Some(Count(s.topics[t].partitions)) else None
    case ReplicasCell(t) => if t in s.topics then Some(Count(s.topics[t].replicationFactor)) else None
    case ConfigCell(t, k) =>
      if t in s.topics && k in s.topics[t].config then Some(Text(s.topics[t].config[k])) else None
    case AclCell(a) => Held(a in s.acls)
    case BindingCell(b) => Held(b in s.bindings)
    case QuotaCell(e, k) => if k in QuotaOf(s, e) then Some(Rate(QuotaOf(s, e)[k])) else None
    case ScramCell(id) => if id in s.scram then Some(Count(s.scram[id])) else None
  }

  predicate Touches(call: Call, c: Cell) {
    match call
    case CallCreateTopic(t, _) =>
      c == PartitionsCell(t) || c == ReplicasCell(t) || (c.ConfigCell? && c.topic == t)
    case CallUpdateConfig(t, k, _) => c == ConfigCell(t, k)
    case CallCreatePartitions(t, _) => c == PartitionsCell(t)
    case CallDeleteTopic(t) =>
      c == PartitionsCell(t) || c == ReplicasCell(t) || (c.ConfigCell? && c.topic == t)
    case CallCreateAcl(a) => c == AclCell(a)
    case CallDeleteAcls(as_) => c.AclCell? && c.acl in as_
    case CallSetQuota(e, limits) => c.QuotaCell? && c.entity == e && c.limit in limits
    case CallDeleteQuota(e, keys) => c.QuotaCell? && c.entity == e && c.limit in keys
    case CallUpsertScram(id, _) => c == ScramCell(id)
    case CallDeleteScram(id) => c == ScramCell(id)
    case CallAddBinding(b) => c == BindingCell(b)
    case CallRemoveBinding(b) => c == BindingCell(b)
  }

  /** What a call leaves in a cell it touches. */
  function Effect(call: Call, c: Cell): Option<Value> {
    match call
    case CallCreateTopic(_, topic) =>
      (match c
       case PartitionsCell(_) => Some(Count(topic.partitions))
       case ReplicasCell(_) => Some(Count(topic.replicationFactor))
       case ConfigCell(_, k) => if k in topic.config then Some(Text(topic.config[k])) else None
       case _ => None)
    case CallUpdateConfig(_, _, v) => Some(Text(v))
    case CallCreatePartitions(_, n) => Some(Count(n))
    case CallSetQuota(_, limits) =>
      if c.QuotaCell? && c.limit in limits then Some(Rate(limits[c.limit])) else None
    case CallUpsertScram(_, n) => Some(Count(EffectiveIterations(n)))
    case CallCreateAcl(_) | CallAddBinding(_) => Some(Present)
    case CallDeleteTopic(_) | CallDeleteAcls(_) | CallDeleteQuota(_, _) | CallDeleteScram(_)
       | CallRemoveBinding(_) => None
  }

  /** An accepted call writes exactly the cells it touches. */
  lemma ExecAt(s: State, call: Call, c: Cell)
    requires Accepts(s, call)
    ensures At(Exec(s, call), c) == if Touches(call, c) then Effect(call, c) else At(s, c)
  {
    match call
    case CallCreateTopic(_, _) | CallUpdateConfig(_, _, _) | CallCreatePartitions(_, _) | CallDeleteTopic(_) => TopicExecAt(s, call, c);
    case CallSetQuota(_, _) | CallDeleteQuota(_, _) => QuotaExecAt(s, call, c);
    case _ =>
  }

  lemma TopicExecAt(s: State, call: Call, c: Cell)
    requires Accepts(s, call)
    requires call.CallCreateTopic? || call.CallUpdateConfig? || call.CallCreatePartitions? || call.CallDeleteTopic?
    ensures At(Exec(s, call), c) == if Touches(call, c) then Effect(call, c) else At(s, c)
  {
  }

  lemma QuotaExecAt(s: State, call: Call, c: Cell)
    requires Accepts(s, call) && (call.CallSetQuota? || call.CallDeleteQuota?)
    ensures At(Exec(s, call), c) == if Touches(call, c) then Effect(call, c) else At(s, c)
  {
    if call.CallDeleteQuota? && call.entity in s.quotas {
      var left := s.quotas[call.entity] - call.keys;
      assert forall k :: k in left <==> k in s.quotas[call.entity] && k !in call.keys;
    }
  }

  // ---- lists -------------------------------------------------------------

  function TopicName(t: TopicState): string { t.name }

  function TopicMap(ts: seq<TopicState>): map<string, Topic> {
    if ts == [] then map[]
    else TopicMap(ts[..|ts| - 1])[ts[|ts| - 1].name := ts[|ts| - 1].topic]
  }

  lemma {:induction false} TopicMapLookup(ts: seq<TopicState>, name: string)
    ensures name in TopicMap(ts) <==> Lookup(ts, TopicName, name).Some?
    ensures name in TopicMap(ts) ==> Lookup(ts, TopicName, name).value == TopicState(name, TopicMap(ts)[name])
  {
    if ts != [] { TopicMapLookup(ts[..|ts| - 1], name); }
  }

  lemma TopicMapHas(ts: seq<TopicState>, t: TopicState)
    requires Unique(ts, TopicName) && t in ts
    ensures t.name in TopicMap(ts) && TopicMap(ts)[t.name] == t.topic
  {
    TopicMapLookup(ts, t.name);
    LookupUnique(ts, TopicName, t);
  }

  /** Replacing one list element updates one map entry. */
  lemma TopicMapUpdate(ts: seq<TopicState>, i: nat, topic: Topic)
    requires Unique(ts, TopicName) && i < |ts|
    ensures Unique(ts[i := TopicState(ts[i].name, topic)], TopicName)
    ensures TopicMap(ts[i := TopicState(ts[i].name, topic)]) == TopicMap(ts)[ts[i].name := topic]
  {
    var us := ts[i := TopicState(ts[i].name, topic)];
    forall j, k | 0 <= j < k < |us| ensures TopicName(us[j]) != TopicName(us[k]) {
      assert TopicName(us[j]) == TopicName(ts[j]) && TopicName(us[k]) == TopicName(ts[k]);
    }
    var l, r := TopicMap(us), TopicMap(ts)[ts[i].name := topic];
    forall n ensures n in l <==> n in r
             ensures n in l && n in r ==> l[n] == r[n] {
      TopicMapLookup(us, n);
      TopicMapLookup(ts, n);
      if n in l {
        var j :| 0 <= j < |us| && us[j] == TopicState(n, l[n]);
        TopicMapHas(ts, ts[j]);
      }
      if n in TopicMap(ts) {
        var j :| 0 <= j < |ts| && ts[j] == TopicState(n, TopicMap(ts)[n]);
        TopicMapHas(us, us[j]);
      } else if n == ts[i].name {
        TopicMapHas(us, us[i]);
      }
    }
  }

  /** The list without its i-th topic. */
  function Cut(ts: seq<TopicState>, i: nat): (r: seq<TopicState>)
    requires Unique(ts, TopicName) && i < |ts|
    ensures Unique(r, TopicName) && TopicMap(r) == TopicMap(ts) - {ts[i].name}
  {
    CutUnique(ts, i);
    TopicMapRemove(ts, i);
    ts[..i] + ts[i + 1..]
  }

  lemma CutUnique(ts: seq<TopicState>, i: nat)
    requires Unique(ts, TopicName) && i < |ts|
    ensures Unique(ts[..i] + ts[i + 1..], TopicName)
  {
    var us := ts[..i] + ts[i + 1..];
    forall j, k | 0 <= j < k < |us| ensures TopicName(us[j]) != TopicName(us[k]) {
      var j', k' := if j < i then j else j + 1, if k < i then k else k + 1;
      assert TopicName(ts[j']) != TopicName(ts[k']);
    }
  }

  /** Cutting one list element out removes one map entry. */
  lemma {:induction false} TopicMapRemove(ts: seq<TopicState>, i: nat)
    requires Unique(ts, TopicName) && i < |ts|
    ensures TopicMap(ts[..i] + ts[i + 1..]) == TopicMap(ts) - {ts[i].name}
  {
    var us, front := ts[..i] + ts[i + 1..], ts[..|ts| - 1];
    if i == |ts| - 1 {
      assert us == front;
      TopicMapLookup(front, ts[i].name);
      assert forall j :: 0 <= j < i ==> TopicName(ts[j]) != TopicName(ts[i]);
      assert ts[i].name !in TopicMap(front);
    } else {
      TopicMapRemove(front, i);
      assert us[..|us| - 1] == front[..i] + front[i + 1..];
      assert us[|us| - 1] == ts[|ts| - 1];
      assert TopicName(ts[i]) != TopicName(ts[|ts| - 1]);
    }
  }

  lemma MembersAppend(xs: seq<Acl>, a: Acl)
    ensures Members(xs + [a]) == Members(xs) + {a}
  {
  }

  datatype ScramEntry = ScramEntry(iterations: int, upserts: nat)

  // ---- the clients -------------------------------------------------------

  /** The in-memory Kafka client. Every mutating call is logged; the n-th call
      fails, without touching the state, when `fails(n)` holds. */
  class KafkaClient {
    var topics: seq<TopicState>
    var acls: seq<Acl>
    var quotas: map<Entity, map<string, real>>
    var scram: map<ScramId, ScramEntry>
    var calls: seq<Call>
    const fails: nat -> bool

    constructor (topics: seq<TopicState>, acls: seq<Acl>, fails: nat -> bool)
      requires Unique(topics, TopicName)
      ensures Valid() && calls == [] && this.fails == fails
      ensures View() == State(TopicMap(topics), Members(acls), {}, map[], map[])
    {
      this.topics, this.acls, this.fails := topics, acls, fails;
      quotas, scram, calls := map[], map[], [];
      new;
      assert (map id | id in scram :: scram[id].iterations) == map[];
    }

    ghost predicate Valid() reads this { Unique(topics, TopicName) }

    ghost function View(): State reads this {
      State(TopicMap(topics), Members(acls), {}, quotas, map id | id in scram :: scram[id].iterations)
    }

    method Record(c: Call) returns (failed: bool)
      modifies `calls
      ensures calls == old(calls) + [c] && failed == fails(old(|calls|))
    {
      failed := fails(|calls|);
      calls := calls + [c];
    }

    method IndexOfTopic(name: string) returns (i: int)
      requires Valid()
      ensures -1 <= i < |topics|
      ensures i >= 0 <==> name in TopicMap(topics)
      ensures i >= 0 ==> topics[i] == TopicState(name, TopicMap(topics)[name])
    {
      TopicMapLookup(topics, name);
      i := 0;
      while i < |topics|
        invariant 0 <= i <= |topics|
        invariant forall j :: 0 <= j < i ==> topics[j].name != name
      {
        if topics[i].name == name {
          TopicMapHas(topics, topics[i]);
          return;
        }
        i := i + 1;
      }
      i := -1;
    }

    method CreateTopic(name: string, topic: Topic) returns (ok: bool)
      requires Valid()
      modifies this
      ensures Valid() && calls == old(calls) + [CallCreateTopic(name, topic)]
      ensures ok <==> !fails(old(|calls|)) && name !in old(View()).topics
      ensures View() == if ok then old(View()).(topics := old(View()).topics[name := topic]) else old(View())
    {
      var failed := Record(CallCreateTopic(name, topic));
      if failed { return false; }
      var i := IndexOfTopic(name);
      if i >= 0 { return false; }
      TopicMapLookup(topics, name);
      assert (topics + [TopicState(name, topic)])[..|topics|] == topics;
      topics := topics + [TopicState(name, topic)];
      ok := true;
    }

    method UpdateTopicConfig(name: string, key: string, value: string) returns (ok: bool)
      requires Valid()
      modifies this
      ensures Valid() && calls == old(calls) + [CallUpdateConfig(name, key, value)]
      ensures ok <==> !fails(old(|calls|)) && name in old(View()).topics
      ensures !ok ==> View() == old(View())
      ensures ok ==> var t := old(View()).topics[name];
        View() == old(View()).(topics := old(View()).topics[name := t.(config := t.config[key := value])])
    {
      var failed := Record(CallUpdateConfig(name, key, value));
      if failed { return false; }
      var i := IndexOfTopic(name);
      if i < 0 { return false; }
      var t := topics[i].topic;
      TopicMapUpdate(topics, i, t.(config := t.config[key := value]));
      topics := topics[i := TopicState(topics[i].name, t.(config := t.config[key := value]))];
      ok := true;
    }

    method CreatePartitions(name: string, count: int) returns (ok: bool)
      requires Valid()
      modifies this
      ensures Valid() && calls == old(calls) + [CallCreatePartitions(name, count)]
      ensures ok <==> !fails(old(|calls|)) && name in old(View()).topics && old(View()).topics[name].partitions <= count
      ensures !ok ==> View() == old(View())
      ensures ok ==> var t := old(View()).topics[name];
        View() == old(View()).(topics := old(View()).topics[name := t.(partitions := count)])
    {
      var failed := Record(CallCreatePartitions(name, count));
      if failed { return false; }
      var i := IndexOfTopic(name);
      if i < 0 { return false; }
      if count < topics[i].topic.partitions { return false; }
      TopicMapUpdate(topics, i, topics[i].topic.(partitions := count));
      topics := topics[i := TopicState(topics[i].name, topics[i].topic.(partitions := count))];
      ok := true;
    }

    /** Deleting an absent topic is a no-op. */
    method DeleteTopic(name: string) returns (ok: bool)
      requires Valid()
      modifies this
      ensures Valid() && calls == old(calls) + [CallDeleteTopic(name)]
      ensures ok == !fails(old(|calls|))
      ensures View() == if ok then old(View()).(topics := old(View()).topics - {name}) else old(View())
    {
      var failed := Record(CallDeleteTopic(name));
      if failed { return false; }
      var i := IndexOfTopic(name);
      if i >= 0 {
        topics := Cut(topics, i);
      }
      ok := true;
    }

    method CreateAcl(acl: Acl) returns (ok: bool)
      requires Valid()
      modifies this
      ensures Valid() && calls == old(calls) + [CallCreateAcl(acl)]
      ensures ok == !fails(old(|calls|))
      ensures View() == if ok then old(View()).(acls := old(View()).acls + {acl}) else old(View())
    {
      var failed := Record(CallCreateAcl(acl));
      if failed { return false; }
      MembersAppend(acls, acl);
      acls := acls + [acl];
      ok := true;
    }

    /** Removes every stored ACL that matches one of the tuples in all seven fields. */
    method DeleteAcls(drop: set<Acl>) returns (ok: bool)
      requires Valid()
      modifies this
      ensures Valid() && calls == old(calls) + [CallDeleteAcls(drop)]
      ensures ok == !fails(old(|calls|))
      ensures View() == if ok then old(View()).(acls := old(View()).acls - drop) else old(View())
    {
      var failed := Record(CallDeleteAcls(drop));
      if failed { return false; }
      var stored, kept := acls, [];
      for i := 0 to |stored|
        modifies {}
        invariant Members(kept) == Members(stored[..i]) - drop
      {
        assert stored[..i + 1] == stored[..i] + [stored[i]];
        MembersAppend(stored[..i], stored[i]);
        MembersAppend(kept, stored[i]);
        if stored[i] !in drop { kept := kept + [stored[i]]; }
      }
      assert stored[..|stored|] == stored;
      acls := kept;
      ok := true;
    }

    method SetQuota(entity: Entity, limits: map<string, real>) returns (ok: bool)
      requires Valid()
      modifies this
      ensures Valid() && calls == old(calls) + [CallSetQuota(entity, limits)]
      ensures ok == !fails(old(|calls|))
      ensures var qs := old(View()).quotas;
        View() == if ok then old(View()).(quotas := qs[entity := (if entity in qs then qs[entity] else map[]) + limits]) else old(View())
    {
      var failed := Record(CallSetQuota(entity, limits));
      if failed { return false; }
      var existing := if entity in quotas then quotas[entity] else map[];
      quotas := quotas[entity := existing + limits];
      ok := true;
    }

    /** An entity left without limits disappears. */
    method DeleteQuota(entity: Entity, keys: set<string>) returns (ok: bool)
      requires Valid()
      modifies this
      ensures Valid() && calls == old(calls) + [CallDeleteQuota(entity, keys)]
      ensures ok == !fails(old(|calls|))
      ensures !ok || entity !in old(View()).quotas ==> View() == old(View())
      ensures ok && entity in old(View()).quotas ==> var qs, left := old(View()).quotas, old(View()).quotas[entity] - keys;
        View() == old(View()).(quotas := if left == map[] then qs - {entity} else qs[entity := left])
    {
      var failed := Record(CallDeleteQuota(entity, keys));
      if failed { return false; }
      ok := true;
      if entity !in quotas { return; }
      var left := quotas[entity] - keys;
      quotas := if left == map[] then quotas - {entity} else quotas[entity := left];
    }

    method UpsertScram(id: ScramId, iterations: int) returns (ok: bool)
      requires Valid()
      modifies this
      ensures Valid() && calls == old(calls) + [CallUpsertScram(id, iterations)]
      ensures ok == !fails(old(|calls|))
      ensures View() == if ok then old(View()).(scram := old(View()).scram[id := if iterations == 0 then 4096 else iterations]) else old(View())
      ensures !ok ==> scram == old(scram)
      ensures ok ==> scram == old(scram)[id := ScramEntry(if iterations == 0 then 4096 else iterations,
                                                          (if id in old(scram) then old(scram)[id].upserts else 0) + 1)]
    {
      var failed := Record(CallUpsertScram(id, iterations));
      if failed { return false; }
      var n := if iterations == 0 then DEFAULT_ITERATIONS else iterations;
      var upserts := if id in scram then scram[id].upserts else 0;
      scram := scram[id := ScramEntry(n, upserts + 1)];
      ok := true;
    }

    method DeleteScram(id: ScramId) returns (ok: bool)
      requires Valid()
      modifies this
      ensures Valid() && calls == old(calls) + [CallDeleteScram(id)]
      ensures ok == !fails(old(|calls|))
      ensures View() == if ok then old(View()).(scram := old(View()).scram - {id}) else old(View())
    {
      var failed := Record(CallDeleteScram(id));
      if failed { return false; }
      scram := scram - {id};
      ok := true;
    }
  }

  /** The in-memory MDS client. */
  class MdsClient {
    var bindings: set<Binding>
    var calls: seq<Call>
    const fails: nat -> bool

    constructor (bindings: set<Binding>, fails: nat -> bool)
      ensures this.bindings == bindings && calls == [] && this.fails == fails
    {
      this.bindings, this.fails, calls := bindings, fails, [];
    }

    method AddRoleBinding(b: Binding) returns (ok: bool)
      modifies this
      ensures calls == old(calls) + [CallAddBinding(b)] && ok == !fails(old(|calls|))
      ensures bindings == if ok then old(bindings) + {b} else old(bindings)
    {
      ok := !fails(|calls|);
      calls := calls + [CallAddBinding(b)];
      if ok && b !in bindings { bindings := bindings + {b}; }
    }

    method RemoveRoleBinding(b: Binding) returns (ok: bool)
      modifies this
      ensures calls == old(calls) + [CallRemoveBinding(b)] && ok == !fails(old(|calls|))
      ensures bindings == if ok then old(bindings) - {b} else old(bindings)
    {
      ok := !fails(|calls|);
      calls := calls + [CallRemoveBinding(b)];
      if ok { bindings := bindings - {b}; }
    }
  }
}
