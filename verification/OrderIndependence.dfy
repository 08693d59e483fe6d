/** The order of the desired and live lists does not reach the operation list. */
module OrderIndependence {
  import opened Basics
  import opened Model
  import opened Store
  import opened Diff
  import Mirror

  ghost predicate Permuted<T>(xs: seq<T>, ys: seq<T>) { multiset(xs) == multiset(ys) }

  function LiveQuotaId(q: QuotaState): Entity { q.entity }
  function CredentialId(c: ScramCredential): ScramId { c.id }

  /** The same lists in another order, the aggregate's and the keep list included. */
  ghost predicate PermutedDesired(d: Desired, d': Desired) {
    && Permuted(d.topics, d'.topics) && Permuted(d.mirrors, d'.mirrors) && Permuted(d.acls, d'.acls)
    && Permuted(d.quotas, d'.quotas) && Permuted(d.users, d'.users) && Permuted(d.bindings, d'.bindings)
    && d'.scope == d.scope && d'.bindingScope == d.bindingScope && d'.rotatePasswords == d.rotatePasswords
    && PermutedAggregate(d.pruneAggregate, d'.pruneAggregate) && PermutedKeep(d.bindingKeep, d'.bindingKeep)
  }

  ghost predicate PermutedAggregate(a: Option<PruneAggregate>, a': Option<PruneAggregate>) {
    if a.Some? then a'.Some? && Permuted(a.value.desired, a'.value.desired) && a'.value.scope == a.value.scope else a'.None?
  }

  ghost predicate PermutedKeep(k: Option<seq<Item<Binding>>>, k': Option<seq<Item<Binding>>>) {
    if k.Some? then k'.Some? && Permuted(k.value, k'.value) else k'.None?
  }

  ghost predicate PermutedLive(live: Live, live': Live) {
    && Permuted(live.topics, live'.topics) && Permuted(live.acls, live'.acls) && Permuted(live.quotas, live'.quotas)
    && Permuted(live.bindings, live'.bindings) && Permuted(live.credentials, live'.credentials)
    && live'.mirrors == live.mirrors
  }

  /** Each list has unique sort keys. */
  ghost predicate UniqueKeys(d: Desired) {
    && Unique(d.topics, TopicKey) && Unique(d.mirrors, MirrorKey) && Unique(d.acls, ItemKey(FullKey))
    && Unique(d.quotas, QuotaKey) && Unique(d.users, UserKey) && Unique(d.bindings, ItemKey(BindingKey))
  }

  ghost predicate UniqueLiveKeys(live: Live) {
    && Unique(live.topics, TopicName) && Unique(live.acls, FullKey) && Unique(live.quotas, LiveQuotaId)
    && Unique(live.bindings, BindingKey) && Unique(live.credentials, CredentialId)
  }

  lemma TopicMapPermuted(xs: seq<TopicState>, ys: seq<TopicState>)
    requires Permuted(xs, ys) && Unique(xs, TopicName)
    ensures TopicMap(xs) == TopicMap(ys)
  {
    var l, r := TopicMap(xs), TopicMap(ys);
    forall n ensures n in l <==> n in r
             ensures n in l && n in r ==> l[n] == r[n] {
      TopicMapLookup(xs, n);
      TopicMapLookup(ys, n);
      LookupPermutation(xs, ys, TopicName, n);
    }
  }

  lemma {:induction false} QuotaMapLookup(qs: seq<QuotaState>, e: Entity)
    ensures e in QuotaMap(qs) <==> Lookup(qs, LiveQuotaId, e).Some?
    ensures e in QuotaMap(qs) ==> Lookup(qs, LiveQuotaId, e).value.limits == QuotaMap(qs)[e]
  {
    if qs != [] { QuotaMapLookup(qs[..|qs| - 1], e); }
  }

  lemma QuotaMapPermuted(xs: seq<QuotaState>, ys: seq<QuotaState>)
    requires Permuted(xs, ys) && Unique(xs, LiveQuotaId)
    ensures QuotaMap(xs) == QuotaMap(ys)
  {
    var l, r := QuotaMap(xs), QuotaMap(ys);
    forall e ensures e in l <==> e in r
             ensures e in l && e in r ==> l[e] == r[e] {
      QuotaMapLookup(xs, e);
      QuotaMapLookup(ys, e);
      LookupPermutation(xs, ys, LiveQuotaId, e);
    }
  }

  lemma {:induction false} ScramMapLookup(cs: seq<ScramCredential>, id: ScramId)
    ensures id in ScramMap(cs) <==> Lookup(cs, CredentialId, id).Some?
    ensures id in ScramMap(cs) ==> Lookup(cs, CredentialId, id).value.iterations == ScramMap(cs)[id]
  {
    if cs != [] { ScramMapLookup(cs[..|cs| - 1], id); }
  }

  lemma ScramMapPermuted(xs: seq<ScramCredential>, ys: seq<ScramCredential>)
    requires Permuted(xs, ys) && Unique(xs, CredentialId)
    ensures ScramMap(xs) == ScramMap(ys)
  {
    var l, r := ScramMap(xs), ScramMap(ys);
    forall id ensures id in l <==> id in r
              ensures id in l && id in r ==> l[id] == r[id] {
      ScramMapLookup(xs, id);
      ScramMapLookup(ys, id);
      LookupPermutation(xs, ys, CredentialId, id);
    }
  }

  lemma {:induction false} GuardMapLookup(ts: seq<DesiredTopic>, snapshot: Mirror.Snapshot, t: string)
    requires Unique(ts, TopicKey)
    ensures var found := Lookup(ts, TopicKey, t);
      && (t in GuardMap(ts, snapshot) <==> found.Some? && GuardOf(found.value, snapshot).Some?)
      && (t in GuardMap(ts, snapshot) ==> GuardMap(ts, snapshot)[t] == GuardOf(found.value, snapshot).value)
  {
    if ts != [] {
      var front, dt := ts[..|ts| - 1], ts[|ts| - 1];
      GuardMapLookup(front, snapshot, t);
      assert forall i :: 0 <= i < |front| ==> TopicKey(ts[i]) != TopicKey(dt);
      if dt.name == t {
        assert Lookup(front, TopicKey, t).None?;
      }
    }
  }

  lemma GuardMapPermuted(xs: seq<DesiredTopic>, ys: seq<DesiredTopic>, snapshot: Mirror.Snapshot)
    requires Permuted(xs, ys) && Unique(xs, TopicKey)
    ensures GuardMap(xs, snapshot) == GuardMap(ys, snapshot)
  {
    UniquePermutation(xs, ys, TopicKey);
    var l, r := GuardMap(xs, snapshot), GuardMap(ys, snapshot);
    forall t ensures t in l <==> t in r
             ensures t in l && t in r ==> l[t] == r[t] {
      GuardMapLookup(xs, snapshot, t);
      GuardMapLookup(ys, snapshot, t);
      LookupPermutation(xs, ys, TopicKey, t);
    }
  }

  lemma MembersPermuted<T>(xs: seq<T>, ys: seq<T>)
    requires Permuted(xs, ys)
    ensures Members(xs) == Members(ys)
  {
    forall x ensures x in Members(xs) <==> x in Members(ys) { SameMembers(xs, ys, x); }
  }

  lemma IdsPermuted<I>(xs: seq<Item<I>>, ys: seq<Item<I>>)
    requires Permuted(xs, ys)
    ensures Ids(xs) == Ids(ys)
  {
    forall x ensures x in Ids(xs) <==> x in Ids(ys) {
      if x in Ids(xs) { var it :| it in xs && it.id == x; SameMembers(xs, ys, it); }
      if x in Ids(ys) { var it :| it in ys && it.id == x; SameMembers(xs, ys, it); }
    }
  }

  lemma AddPrunePermuted<I>(k: AddPruneKind<I>, desired: seq<Item<I>>, desired': seq<Item<I>>, keep: seq<Item<I>>,
                            keep': seq<Item<I>>, live: seq<I>, live': seq<I>)
    requires Permuted(desired, desired') && Unique(desired, ItemKey(k.key))
    requires Permuted(keep, keep')
    requires Permuted(live, live') && Unique(live, k.key)
    ensures AddPruneOps(k, desired, keep, live) == AddPruneOps(k, desired', keep', live')
  {
    SortCanonical(desired, desired', ItemKey(k.key));
    SortCanonical(live, live', k.key);
    MembersPermuted(live, live');
    IdsPermuted(keep, keep');
  }

  lemma AclOpsPermuted(d: Desired, d': Desired, live: Live, live': Live)
    requires PermutedDesired(d, d') && UniqueKeys(d) && PermutedLive(live, live') && UniqueLiveKeys(live)
    ensures AclOps(d, live.acls) == AclOps(d', live'.acls)
  {
    AddPrunePermuted(AclKind(PruneScope(d)), d.acls, d'.acls, PruneDesired(d), PruneDesired(d'), live.acls, live'.acls);
  }

  lemma BindingOpsPermuted(d: Desired, d': Desired, live: Live, live': Live)
    requires PermutedDesired(d, d') && UniqueKeys(d) && PermutedLive(live, live') && UniqueLiveKeys(live)
    ensures BindingOps(d, live.bindings) == BindingOps(d', live'.bindings)
  {
    AddPrunePermuted(BindingKind(d.bindingScope), d.bindings, d'.bindings, BindingKeepSet(d), BindingKeepSet(d'),
                     live.bindings, live'.bindings);
  }

  lemma TopicOpsPermuted(d: Desired, d': Desired, live: Live, live': Live)
    requires PermutedDesired(d, d') && UniqueKeys(d) && PermutedLive(live, live') && UniqueLiveKeys(live)
    ensures TopicOps(d.topics, TopicMap(live.topics)) == TopicOps(d'.topics, TopicMap(live'.topics))
    ensures Guards(d, live) == Guards(d', live')
  {
    TopicMapPermuted(live.topics, live'.topics);
    SortCanonical(d.topics, d'.topics, TopicKey);
    if live.mirrors.Some? { GuardMapPermuted(d.topics, d'.topics, live.mirrors.value); }
  }

  lemma ClientOpsPermuted(d: Desired, d': Desired, live: Live, live': Live)
    requires PermutedDesired(d, d') && UniqueKeys(d) && PermutedLive(live, live') && UniqueLiveKeys(live)
    ensures QuotaOps(d.quotas, QuotaMap(live.quotas)) == QuotaOps(d'.quotas, QuotaMap(live'.quotas))
    ensures UserOps(d.users, ScramMap(live.credentials), d.rotatePasswords)
            == UserOps(d'.users, ScramMap(live'.credentials), d'.rotatePasswords)
    ensures MirrorPlan(d.mirrors, live.mirrors) == MirrorPlan(d'.mirrors, live'.mirrors)
  {
    QuotaMapPermuted(live.quotas, live'.quotas);
    SortCanonical(d.quotas, d'.quotas, QuotaKey);
    ScramMapPermuted(live.credentials, live'.credentials);
    SortCanonical(d.users, d'.users, UserKey);
    SortCanonical(d.mirrors, d'.mirrors, MirrorKey);
  }

  /** Lists with unique keys may be given in any order: the plan is identical,
      including the relative order of operations that tie in the display order. */
  lemma PlanIgnoresOrder(d: Desired, d': Desired, live: Live, live': Live)
    requires PermutedDesired(d, d') && UniqueKeys(d) && PermutedLive(live, live') && UniqueLiveKeys(live)
    ensures Compute(d, live) == Compute(d', live')
  {
    TopicOpsPermuted(d, d', live, live');
    AclOpsPermuted(d, d', live, live');
    BindingOpsPermuted(d, d', live, live');
    ClientOpsPermuted(d, d', live, live');
    assert GuardedOps(d, live) == GuardedOps(d', live');
    assert Planned(d, live) == Planned(d', live');
  }

  // ---- identities instead of sort keys ------------------------------------

  function IdList<I>(items: seq<Item<I>>): seq<I> { seq(|items|, i requires 0 <= i < |items| => items[i].id) }

  /** Distinct ACLs without NUL characters have unique keys. */
  lemma DistinctAclKeys(xs: seq<Acl>)
    requires Once(xs) && forall x :: x in xs ==> FreeOf(AclFields(x), NUL)
    ensures Unique(xs, FullKey)
  {
    forall i, j | 0 <= i < j < |xs| ensures FullKey(xs[i]) != FullKey(xs[j]) {
      if FullKey(xs[i]) == FullKey(xs[j]) { FullKeyInjective(xs[i], xs[j]); }
    }
  }

  lemma DistinctBindingKeys(xs: seq<Binding>)
    requires Once(xs) && forall x :: x in xs ==> FreeOf(BindingFields(x), NUL)
    ensures Unique(xs, BindingKey)
  {
    forall i, j | 0 <= i < j < |xs| ensures BindingKey(xs[i]) != BindingKey(xs[j]) {
      if BindingKey(xs[i]) == BindingKey(xs[j]) { BindingKeyInjective(xs[i], xs[j]); }
    }
  }

  lemma DistinctQuotaKeys(xs: seq<DesiredQuota>)
    requires Unique(xs, QuotaId)
    requires forall x :: x in xs ==> PlainEntity(x.entity)
    ensures Unique(xs, QuotaKey)
  {
    forall i, j | 0 <= i < j < |xs| ensures QuotaKey(xs[i]) != QuotaKey(xs[j]) {
      assert QuotaId(xs[i]) != QuotaId(xs[j]);
      if QuotaKey(xs[i]) == QuotaKey(xs[j]) { EntityKeyInjective(xs[i].entity, xs[j].entity); }
    }
  }

  lemma ItemKeys<I>(items: seq<Item<I>>, key: I -> string)
    requires Unique(IdList(items), key)
    ensures Unique(items, ItemKey(key))
  {
    forall i, j | 0 <= i < j < |items| ensures ItemKey(key)(items[i]) != ItemKey(key)(items[j]) {
      assert key(IdList(items)[i]) != key(IdList(items)[j]);
    }
  }

  /** No two entries of a list stand for the same object. */
  ghost predicate DistinctDesired(d: Desired) {
    && Unique(d.topics, TopicKey) && Unique(d.mirrors, MirrorKey) && Once(IdList(d.acls))
    && Unique(d.quotas, QuotaId) && Unique(d.users, UserKey) && Once(IdList(d.bindings))
  }

  ghost predicate DistinctLive(live: Live) {
    && Unique(live.topics, TopicName) && Once(live.acls) && Unique(live.quotas, LiveQuotaId)
    && Once(live.bindings) && Unique(live.credentials, CredentialId)
  }

  ghost predicate PlainAcls(xs: seq<Acl>) { forall x :: x in xs ==> FreeOf(AclFields(x), NUL) }
  ghost predicate PlainBindings(xs: seq<Binding>) { forall x :: x in xs ==> FreeOf(BindingFields(x), NUL) }
  ghost predicate PlainQuotas(xs: seq<DesiredQuota>) { forall x :: x in xs ==> PlainEntity(x.entity) }

  lemma IdentitiesGiveKeys(d: Desired, live: Live)
    requires DistinctDesired(d) && PlainAcls(IdList(d.acls)) && PlainBindings(IdList(d.bindings)) && PlainQuotas(d.quotas)
    requires DistinctLive(live) && PlainAcls(live.acls) && PlainBindings(live.bindings)
    ensures UniqueKeys(d) && UniqueLiveKeys(live)
  {
    DistinctAclKeys(IdList(d.acls));
    ItemKeys(d.acls, FullKey);
    DistinctBindingKeys(IdList(d.bindings));
    ItemKeys(d.bindings, BindingKey);
    DistinctQuotaKeys(d.quotas);
    DistinctAclKeys(live.acls);
    DistinctBindingKeys(live.bindings);
  }

  /** What the planner promises about order, in terms of identities: the same
      distinct topics, tuples, bindings, quotas, users and mirrors, listed in any
      order on either side, give the same plan. */
  lemma SameObjectsSamePlan(d: Desired, d': Desired, live: Live, live': Live)
    requires DistinctDesired(d) && PlainAcls(IdList(d.acls)) && PlainBindings(IdList(d.bindings)) && PlainQuotas(d.quotas)
    requires DistinctLive(live) && PlainAcls(live.acls) && PlainBindings(live.bindings)
    requires PermutedDesired(d, d') && PermutedLive(live, live')
    ensures Compute(d, live) == Compute(d', live')
  {
    IdentitiesGiveKeys(d, live);
    PlanIgnoresOrder(d, d', live, live');
  }
}
