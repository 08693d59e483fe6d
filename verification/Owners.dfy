/** Several resources sharing the ACLs of one cluster: each reconciles its own
    tuples against the cluster-wide union and releases them when deleted. */
module Owners {
  import opened Basics
  import opened Model
  import opened Store
  import opened Executor
  import opened Diff
  import opened Intent
  import opened ManagedSet
  import opened Access
  import Convergence
  import Loop
  import Settling

  /** A topic or policy resource with its compiled ACLs. A resource that is
      being deleted no longer contributes to the union. */
  datatype Owner = Owner(source: Source, acls: seq<Acl>, prune: bool, deleting: bool)

  // ---- the cluster-wide view ---------------------------------------------

  function Contribution(): Owner -> seq<Item<Acl>> {
    (o: Owner) => if o.deleting then [] else Stamped(o.acls, Unattributed, o.prune, o.source)
  }

  function ViewKey(it: Item<Acl>): string {
    FullKey(it.id) + "|" + it.source.kind + "|" + it.source.ns + "|" + it.source.name
  }

  function Contributed(owners: seq<Owner>): seq<Item<Acl>> { SortOn(FlatMap(owners, Contribution()), ViewKey) }

  function View(owners: seq<Owner>): PruneAggregate {
    var union := DesiredAcls(Contributed(owners)).out;
    PruneAggregate(union, Scope(union, AclScope))
  }

  /** The union with its scope, and the contradictions between owners. */
  method BuildClusterAclView(owners: seq<Owner>) returns (view: PruneAggregate, conflicts: seq<Conflict>)
    ensures view == View(owners) && conflicts == ConflictsOf(Contributed(owners))
  {
    var all: seq<Item<Acl>> := [];
    for i := 0 to |owners|
      invariant all == FlatMap(owners[..i], Contribution())
    {
      FlatMapStep(owners, i, Contribution());
      if !owners[i].deleting { all := all + Stamped(owners[i].acls, Unattributed, owners[i].prune, owners[i].source); }
    }
    assert owners[..|owners|] == owners;
    all := SortOn(all, ViewKey);
    var union, _ := BuildDesiredAcls(all);
    conflicts := Conflicts(all);
    var scope := BuildScope(union, AclScope);
    view := PruneAggregate(union, scope);
  }

  /** A surviving owner that declares the tuple. */
  predicate Declares(owners: seq<Owner>, o: Owner, a: Acl) { o in owners && !o.deleting && a in o.acls }

  ghost predicate Wanted(owners: seq<Owner>, a: Acl) { exists o :: Declares(owners, o, a) }

  /** In the cluster-wide union. */
  predicate Protected(owners: seq<Owner>, a: Acl) { a in IdSet(View(owners).desired) }

  lemma ContributedMember(owners: seq<Owner>, it: Item<Acl>)
    ensures it in Contributed(owners) <==>
      exists o :: Declares(owners, o, it.id) && it == Item(it.id, Unattributed, o.prune, o.source)
  {
    var all := FlatMap(owners, Contribution());
    SortPermutes(all, OnKey(ViewKey));
    FlatMapMember(owners, Contribution(), it);
    if o :| o in owners && it in Contribution()(o) { assert Declares(owners, o, it.id); }
    if o :| Declares(owners, o, it.id) && it == Item(it.id, Unattributed, o.prune, o.source) {
      assert it in Contribution()(o);
    }
  }

  lemma WantedIsContributed(owners: seq<Owner>, a: Acl)
    ensures Wanted(owners, a) <==> exists it :: it in Contributed(owners) && it.id == a
  {
    if o :| Declares(owners, o, a) { ContributedMember(owners, Item(a, Unattributed, o.prune, o.source)); }
    if it :| it in Contributed(owners) && it.id == a { ContributedMember(owners, it); }
  }

  lemma ProtectedMeans(owners: seq<Owner>, a: Acl)
    ensures Protected(owners, a) <==>
      Wanted(owners, a) && FirstPermission(Contributed(owners), SubjectOf(a)) == Some(a.permission)
  {
    DesiredAclIds(Contributed(owners), a);
    WantedIsContributed(owners, a);
  }

  /** The declared tuple that decides the permission of a subject. */
  lemma FirstDeclared(owners: seq<Owner>, a: Acl) returns (first: Acl)
    requires Wanted(owners, a)
    ensures Wanted(owners, first) && SubjectOf(first) == SubjectOf(a)
    ensures FirstPermission(Contributed(owners), SubjectOf(a)) == Some(first.permission)
  {
    var items := Contributed(owners);
    WantedIsContributed(owners, a);
    FirstPermissionFound(items, SubjectOf(a));
    var i :| IsFirst(items, SubjectOf(a), i) && FirstPermission(items, SubjectOf(a)) == Some(items[i].id.permission);
    first := items[i].id;
    WantedIsContributed(owners, first);
  }

  ghost predicate AllowOrDeny(owners: seq<Owner>) {
    forall a :: Wanted(owners, a) ==> a.permission == "Allow" || a.permission == "Deny"
  }

  function Opposite(a: Acl): Acl { a.(permission := if a.permission == "Allow" then "Deny" else "Allow") }

  lemma SubjectPrefix(a: Acl)
    ensures FullKey(a) == Join(AclFields(a)[..6], NUL) + [NUL] + a.permission
  {
    assert AclFields(a) == AclFields(a)[..6] + [a.permission];
    JoinSnoc(AclFields(a)[..6], a.permission, NUL);
  }

  /** Among contributions on one subject the Allows sort before the Denies. */
  lemma AllowSortsFirst(x: Item<Acl>, y: Item<Acl>)
    requires SubjectOf(x.id) == SubjectOf(y.id) && x.id.permission == "Allow" && y.id.permission == "Deny"
    ensures StrLess(ViewKey(x), ViewKey(y))
  {
    SubjectPrefix(x.id);
    SubjectPrefix(y.id);
    assert AclFields(x.id)[..6] == AclFields(y.id)[..6];
    var p := Join(AclFields(x.id)[..6], NUL) + [NUL];
    var u := "|" + x.source.kind + "|" + x.source.ns + "|" + x.source.name;
    var v := "|" + y.source.kind + "|" + y.source.ns + "|" + y.source.name;
    assert ViewKey(x) == p + ("Allow" + u) && ViewKey(y) == p + ("Deny" + v);
    StrLessPrefix(p, "Allow" + u, "Deny" + v);
  }

  lemma FirstIsAllow(owners: seq<Owner>, a: Acl)
    requires AllowOrDeny(owners) && Wanted(owners, a) && a.permission == "Allow"
    ensures FirstPermission(Contributed(owners), SubjectOf(a)) == Some("Allow")
  {
    var items := Contributed(owners);
    FirstPermissionFound(items, SubjectOf(a));
    WantedIsContributed(owners, a);
    var i :| IsFirst(items, SubjectOf(a), i) && FirstPermission(items, SubjectOf(a)) == Some(items[i].id.permission);
    WantedIsContributed(owners, items[i].id);
    if items[i].id.permission == "Deny" {
      var it :| it in items && it.id == a;
      var j :| 0 <= j < |items| && items[j] == it;
      StrLessTotal(ViewKey(items[i]), ViewKey(items[j]));
      SortAscending(FlatMap(owners, Contribution()), ViewKey);
      AllowSortsFirst(items[j], items[i]);
      assert false;
    }
  }

  /** A Deny on a subject that some surviving owner allows. */
  ghost predicate Overridden(owners: seq<Owner>, a: Acl) { a.permission == "Deny" && Wanted(owners, Opposite(a)) }

  /** A declared tuple is in the union unless it is overridden. */
  lemma ProtectedIff(owners: seq<Owner>, a: Acl)
    requires AllowOrDeny(owners)
    ensures Protected(owners, a) <==> Wanted(owners, a) && !Overridden(owners, a)
  {
    ProtectedMeans(owners, a);
    if Wanted(owners, a) {
      if a.permission == "Allow" {
        FirstIsAllow(owners, a);
      } else if Wanted(owners, Opposite(a)) {
        FirstIsAllow(owners, Opposite(a));
      } else {
        var first := FirstDeclared(owners, a);
        assert first == if first.permission == "Allow" then Opposite(a) else a;
      }
    }
  }

  ghost predicate Harmonious(owners: seq<Owner>) {
    forall a, b :: Wanted(owners, a) && Wanted(owners, b) ==> !Contradict(a, b)
  }

  lemma HarmoniousProtects(owners: seq<Owner>, a: Acl)
    requires Harmonious(owners)
    ensures Protected(owners, a) <==> Wanted(owners, a)
  {
    ProtectedMeans(owners, a);
    if Wanted(owners, a) {
      var first := FirstDeclared(owners, a);
      assert !Contradict(a, first);
    }
  }

  /** The view reports a contradiction exactly when there is one. */
  lemma ConflictsReported(owners: seq<Owner>)
    ensures ConflictsOf(Contributed(owners)) == [] <==> Harmonious(owners)
  {
    var items := Contributed(owners);
    ConflictsAreRefusals(items);
    NoRefusals(items);
    forall a ensures Wanted(owners, a) <==> a in IdSet(items) { WantedIsContributed(owners, a); }
  }

  // ---- pruning against the union -----------------------------------------

  /** A surviving owner whose protected tuples share the pattern and principal. */
  ghost predicate Covering(owners: seq<Owner>, o: Owner, a: Acl) {
    exists b :: Declares(owners, o, b) && Protected(owners, b) && AclScope(b) == AclScope(a)
  }

  /** Undesired, covered, and every covering owner consents. */
  ghost predicate Prunable(owners: seq<Owner>, a: Acl) {
    && !Protected(owners, a)
    && (exists o :: Covering(owners, o, a))
    && (forall o :: Covering(owners, o, a) ==> o.prune)
  }

  // ---- whose consent a prune needs ---------------------------------------

  /** A surviving owner that declares some tuple on the pattern and principal. */
  ghost predicate DeclaresOn(owners: seq<Owner>, o: Owner, a: Acl) {
    exists b :: Declares(owners, o, b) && AclScope(b) == AclScope(a)
  }

  /** Such an owner without prune consent. */
  ghost predicate Withholds(owners: seq<Owner>, o: Owner, a: Acl) { DeclaresOn(owners, o, a) && !o.prune }

  /** All that the owner declares there is overridden. */
  ghost predicate Overruled(owners: seq<Owner>, o: Owner, a: Acl) {
    forall b :: Declares(owners, o, b) && AclScope(b) == AclScope(a) ==> Overridden(owners, b)
  }

  lemma CoveringIff(owners: seq<Owner>, o: Owner, a: Acl)
    requires AllowOrDeny(owners)
    ensures Covering(owners, o, a) <==> DeclaresOn(owners, o, a) && !Overruled(owners, o, a)
  {
    forall b | Declares(owners, o, b) ensures Protected(owners, b) <==> !Overridden(owners, b) {
      ProtectedIff(owners, b);
    }
  }

  /** A pattern on which something is declared is covered: by its owner, or by
      whoever overrides it. */
  lemma CoveredIff(owners: seq<Owner>, a: Acl)
    requires AllowOrDeny(owners)
    ensures (exists o :: Covering(owners, o, a)) <==> exists o :: DeclaresOn(owners, o, a)
  {
    if o :| Covering(owners, o, a) { assert DeclaresOn(owners, o, a); }
    if o :| DeclaresOn(owners, o, a) {
      var b :| Declares(owners, o, b) && AclScope(b) == AclScope(a);
      var c, t := o, b;
      if Overridden(owners, b) {
        t := Opposite(b);
        c :| Declares(owners, c, t);
      }
      ProtectedIff(owners, t);
      assert Declares(owners, c, t) && Protected(owners, t) && AclScope(t) == AclScope(a);
      assert Covering(owners, c, a);
    }
  }

  /** In terms of what owners declare: a tuple is up for pruning exactly when it
      is undeclared or overridden, its pattern is declared by someone, and every
      owner that withholds consent there is overruled in all it declares there. */
  lemma PrunableIff(owners: seq<Owner>, a: Acl)
    requires AllowOrDeny(owners)
    ensures Prunable(owners, a) <==>
      && (Wanted(owners, a) ==> Overridden(owners, a))
      && (exists o :: DeclaresOn(owners, o, a))
      && (forall o :: Withholds(owners, o, a) ==> Overruled(owners, o, a))
  {
    ProtectedIff(owners, a);
    CoveredIff(owners, a);
    forall o ensures Covering(owners, o, a) <==> DeclaresOn(owners, o, a) && !Overruled(owners, o, a) {
      CoveringIff(owners, o, a);
    }
  }

  /** Where no owners contradict each other, every declaring owner has a veto. */
  lemma HarmoniousVeto(owners: seq<Owner>, o: Owner, a: Acl)
    requires Harmonious(owners) && Prunable(owners, a) && DeclaresOn(owners, o, a)
    ensures o.prune
  {
    var b :| Declares(owners, o, b) && AclScope(b) == AclScope(a);
    HarmoniousProtects(owners, b);
    assert Covering(owners, o, a);
  }

  function OwnItems(o: Owner): seq<Item<Acl>> { DesiredAcls(Stamped(o.acls, Unattributed, false, NO_SOURCE)).out }

  function WithConsent(items: seq<Item<Acl>>, prune: bool): (r: seq<Item<Acl>>)
    ensures |r| == |items| && forall i :: 0 <= i < |r| ==> r[i] == items[i].(prune := prune)
  {
    seq(|items|, i requires 0 <= i < |items| => items[i].(prune := prune))
  }

  /** Creations from the owner's own set, prunes against the union. */
  function OwnDesired(owners: seq<Owner>, o: Owner): Desired {
    var own := WithConsent(OwnItems(o), o.prune);
    Desired([], [], own, Scope(own, AclScope), [], [], false, [], map[], Some(View(owners)), None)
  }

  /** The resource passes validation: no contradiction of its own. */
  ghost predicate Valid(o: Owner) { ConflictFree(Members(o.acls)) }

  lemma OwnIds(o: Owner, a: Acl)
    requires Valid(o)
    ensures a in Ids(WithConsent(OwnItems(o), o.prune)) <==> a in o.acls
  {
    var items := Stamped(o.acls, Unattributed, false, NO_SOURCE);
    DesiredAclIds(items, a);
    var own := WithConsent(OwnItems(o), o.prune);
    if a in Ids(own) { var i :| 0 <= i < |own| && own[i].id == a; assert OwnItems(o)[i] in OwnItems(o); }
    if a in IdSet(OwnItems(o)) { var i :| 0 <= i < |own| && OwnItems(o)[i].id == a; assert own[i] in own; }
    if a in o.acls {
      assert Item(a, Unattributed, false, NO_SOURCE) in items;
      FirstPermissionFound(items, SubjectOf(a));
      var i :| IsFirst(items, SubjectOf(a), i) && FirstPermission(items, SubjectOf(a)) == Some(items[i].id.permission);
      assert items[i] in items && items[i].id in Members(o.acls) && a in Members(o.acls);
    }
  }

  lemma OwnWellFormed(owners: seq<Owner>, o: Owner)
    ensures WellFormed(OwnDesired(owners, o))
  {
    DesiredAclsLaw(Stamped(o.acls, Unattributed, false, NO_SOURCE));
    DedupUnique(Filter(Stamped(o.acls, Unattributed, false, NO_SOURCE), Accepted(Stamped(o.acls, Unattributed, false, NO_SOURCE))));
    var own := WithConsent(OwnItems(o), o.prune);
    forall i, j | 0 <= i < j < |own| ensures IdOf(own[i]) != IdOf(own[j]) {
      assert IdOf(OwnItems(o)[i]) != IdOf(OwnItems(o)[j]);
    }
  }

  lemma OwnModes(o: Owner, it: Item<Acl>)
    requires it in WithConsent(OwnItems(o), o.prune)
    ensures it.mode == Unattributed
  {
    var items := Stamped(o.acls, Unattributed, false, NO_SOURCE);
    DesiredAclsLaw(items);
    var kept := Filter(items, Accepted(items));
    MergeLaw(kept);
    var own := WithConsent(OwnItems(o), o.prune);
    var i :| 0 <= i < |own| && own[i] == it;
    assert MergedFrom(kept, Dedup(kept)[i]);
    var x :| x in kept && x.mode == Dedup(kept)[i].mode;
    FilterMember(items, Accepted(items), x);
  }

  lemma OwnAdds(owners: seq<Owner>, o: Owner, a: Acl)
    requires Valid(o)
    ensures AddsAcl(OwnDesired(owners, o), a) <==> a in o.acls
  {
    OwnIds(o, a);
    var found := FindAcl(OwnDesired(owners, o), a);
    if found.Some? { OwnModes(o, found.value); }
  }

  lemma AcceptedContribution(owners: seq<Owner>, it: Item<Acl>)
    requires it in Contributed(owners)
    ensures Accepted(Contributed(owners))(it) <==> Protected(owners, it.id)
  {
    ProtectedMeans(owners, it.id);
    WantedIsContributed(owners, it.id);
  }

  lemma CoveringContribution(owners: seq<Owner>, it: Item<Acl>, a: Acl) returns (o: Owner)
    requires it in Contributed(owners) && Protected(owners, it.id) && AclScope(it.id) == AclScope(a)
    ensures Covering(owners, o, a) && o.prune == it.prune && it.mode == Unattributed
  {
    ContributedMember(owners, it);
    o :| Declares(owners, o, it.id) && it == Item(it.id, Unattributed, o.prune, o.source);
  }

  lemma ContributionOf(owners: seq<Owner>, o: Owner, a: Acl) returns (it: Item<Acl>)
    requires Covering(owners, o, a)
    ensures it in Contributed(owners) && AclScope(it.id) == AclScope(a) && it.prune == o.prune
    ensures Accepted(Contributed(owners))(it)
  {
    var b :| Declares(owners, o, b) && Protected(owners, b) && AclScope(b) == AclScope(a);
    it := Item(b, Unattributed, o.prune, o.source);
    ContributedMember(owners, it);
    AcceptedContribution(owners, it);
  }

  /** The union's scope covers a tuple exactly when some owner does, and
      consents exactly when every covering owner does. */
  lemma ViewScope(owners: seq<Owner>, a: Acl)
    ensures var scope, k := View(owners).scope, AclScope(a);
      && (k in scope <==> exists o :: Covering(owners, o, a))
      && (k in scope ==> scope[k].mode == Unattributed && (scope[k].prune <==> forall o :: Covering(owners, o, a) ==> o.prune))
  {
    var items, k, scope := Contributed(owners), AclScope(a), View(owners).scope;
    DesiredScope(items, k);
    if o :| Covering(owners, o, a) {
      var it := ContributionOf(owners, o, a);
      assert k in scope;
    }
    if k in scope {
      var it :| it in items && AclScope(it.id) == k && Accepted(items)(it) && it.mode == scope[k].mode;
      AcceptedContribution(owners, it);
      var o := CoveringContribution(owners, it, a);
      if scope[k].prune {
        forall o | Covering(owners, o, a) ensures o.prune { var it := ContributionOf(owners, o, a); }
      } else {
        var it :| it in items && AclScope(it.id) == k && Accepted(items)(it) && !it.prune;
        AcceptedContribution(owners, it);
        var o := CoveringContribution(owners, it, a);
      }
    }
  }

  /** A reconcile prunes exactly the prunable tuples. */
  lemma PrunesPrunable(owners: seq<Owner>, o: Owner, ap: Approvals, a: Acl)
    requires !ap.prune
    ensures PrunesAcl(OwnDesired(owners, o), ap, a) <==> Prunable(owners, a)
  {
    ViewScope(owners, a);
  }

  // ---- one reconcile -----------------------------------------------------

  /** The ACL set after a reconcile of `o` that found `before`, whatever else
      the cluster holds. */
  ghost predicate Reconciled(owners: seq<Owner>, o: Owner, ap: Approvals, f: Faults, before: set<Acl>, after: set<Acl>) {
    exists live: Live :: live.mirrors.None? && ReconciledFrom(owners, o, ap, f, live, before, after)
  }

  ghost predicate ReconciledFrom(owners: seq<Owner>, o: Owner, ap: Approvals, f: Faults, live: Live,
                                 before: set<Acl>, after: set<Acl>) {
    && StateOf(live).acls == before
    && after == Convergence.RunPlan(OwnDesired(owners, o), ap, live, f).world.store.acls
  }

  lemma AclAtGoal(d: Desired, ap: Approvals, s: State, st: State, a: Acl)
    ensures At(st, AclCell(a)) == Goal(d, ap, s, AclCell(a)) <==>
      (a in st.acls <==> if a in s.acls then !PrunesAcl(d, ap, a) else AddsAcl(d, a))
    ensures At(st, AclCell(a)) == At(s, AclCell(a)) <==> (a in st.acls <==> a in s.acls)
  {
  }

  lemma AnyMoment(d: Desired, ap: Approvals, f: Faults, live: Live, st: State, a: Acl)
    requires WellFormed(d) && st in Convergence.RunPlan(d, ap, live, f).world.trace
    ensures a in StateOf(live).acls && a !in st.acls ==> PrunesAcl(d, ap, a)
    ensures a !in StateOf(live).acls && a in st.acls ==> AddsAcl(d, a)
  {
    Convergence.NothingElse(d, ap, live, f, st, AclCell(a));
    AclAtGoal(d, ap, StateOf(live), st, a);
  }

  lemma AtTheEnd(d: Desired, ap: Approvals, f: Faults, live: Live, a: Acl)
    requires WellFormed(d)
    ensures var end := Convergence.RunPlan(d, ap, live, f).world.store.acls;
      && (a in StateOf(live).acls && a !in end ==> PrunesAcl(d, ap, a))
      && (a !in StateOf(live).acls && a in end ==> AddsAcl(d, a))
  {
    var c := AclCell(a);
    var w := Convergence.RunPlan(d, ap, live, f).world;
    Convergence.ExecutionIsPlan(d, live);
    Convergence.RunTracked(d, ap, StateOf(live), c, Convergence.Execution(d, live), f);
    assert Convergence.Tracked(d, ap, StateOf(live), c, w);
    AclAtGoal(d, ap, StateOf(live), w.store, a);
  }

  lemma AtAFaultlessEnd(d: Desired, ap: Approvals, f: Faults, live: Live, a: Acl)
    requires WellFormed(d) && Faultless(f) && Convergence.HasPasswords(d) && Convergence.StoreOnly(d, live)
    ensures a in Convergence.RunPlan(d, ap, live, f).world.store.acls <==>
      if a in StateOf(live).acls then !PrunesAcl(d, ap, a) else AddsAcl(d, a)
  {
    Settling.OnePass(d, ap, live, f, AclCell(a));
    AclAtGoal(d, ap, StateOf(live), Convergence.RunPlan(d, ap, live, f).world.store, a);
  }

  /** At every moment of a reconcile, under any faults, a tuple has gone only
      if it is prunable and has come only if the owner declares it. */
  lemma ReconcileBounds(owners: seq<Owner>, o: Owner, ap: Approvals, f: Faults, live: Live, st: State, a: Acl)
    requires Valid(o) && !ap.prune
    requires st in Convergence.RunPlan(OwnDesired(owners, o), ap, live, f).world.trace
    ensures a in StateOf(live).acls && a !in st.acls ==> Prunable(owners, a)
    ensures a !in StateOf(live).acls && a in st.acls ==> a in o.acls
  {
    OwnWellFormed(owners, o);
    AnyMoment(OwnDesired(owners, o), ap, f, live, st, a);
    PrunesPrunable(owners, o, ap, a);
    OwnAdds(owners, o, a);
  }

  /** The same at the end, where a faultless reconcile has removed everything
      prunable and added everything declared. */
  lemma ReconcileEnd(owners: seq<Owner>, o: Owner, ap: Approvals, f: Faults, before: set<Acl>, after: set<Acl>, a: Acl)
    requires Valid(o) && !ap.prune && Reconciled(owners, o, ap, f, before, after)
    ensures a in before && a !in after ==> Prunable(owners, a)
    ensures a !in before && a in after ==> a in o.acls
    ensures Faultless(f) ==> (a in after <==> if a in before then !Prunable(owners, a) else a in o.acls)
  {
    var live: Live :| live.mirrors.None? && ReconciledFrom(owners, o, ap, f, live, before, after);
    OwnWellFormed(owners, o);
    AtTheEnd(OwnDesired(owners, o), ap, f, live, a);
    if Faultless(f) { AtAFaultlessEnd(OwnDesired(owners, o), ap, f, live, a); }
    PrunesPrunable(owners, o, ap, a);
    OwnAdds(owners, o, a);
  }

  /** The reconcile of one resource on its client. */
  method ReconcileOwner(k: KafkaClient, m: MdsClient, owners: seq<Owner>, o: Owner, ap: Approvals)
    returns (results: seq<OpResult>)
    requires k.Valid()
    modifies k, m
    ensures k.Valid()
    ensures Reconciled(owners, o, ap, Later(NoOthers(k.fails, m.fails), old(|k.calls|), old(|m.calls|)),
                       old(k.View().acls), k.View().acls)
  {
    var items, _ := BuildDesiredAcls(Stamped(o.acls, Unattributed, false, NO_SOURCE));
    var own := WithConsent(items, o.prune);
    var scope := BuildScope(own, AclScope);
    var view, _ := BuildClusterAclView(owners);
    var d := Desired([], [], own, scope, [], [], false, [], map[], Some(view), None);
    var live;
    results, live := Loop.ReconcilePass(k, m, r => true, (n, op) => false, d, None, ap);
    assert ReconciledFrom(owners, o, ap, Later(NoOthers(k.fails, m.fails), old(|k.calls|), old(|m.calls|)), live,
                          old(k.View().acls), k.View().acls);
  }

  /** Only Kafka and MDS calls may fail. */
  function NoOthers(kafka: nat -> bool, mds: nat -> bool): Faults { Faults(kafka, mds, r => true, (n, op) => false) }

  lemma OverriddenPrunable(owners: seq<Owner>, a: Acl)
    requires AllowOrDeny(owners) && Wanted(owners, a) && Overridden(owners, a)
    requires forall c :: Covering(owners, c, a) ==> c.prune
    ensures Prunable(owners, a)
  {
    ProtectedIff(owners, a);
    ProtectedIff(owners, Opposite(a));
    var c :| Declares(owners, c, Opposite(a));
    assert Covering(owners, c, a);
  }

  /** A Deny that a co-owner's Allow keeps out of the union, under full consent,
      flips at every reconcile of its own resource. */
  lemma OverriddenDenyFlaps(owners: seq<Owner>, o: Owner, ap: Approvals, f: Faults, before: set<Acl>, after: set<Acl>, a: Acl)
    requires AllowOrDeny(owners) && Declares(owners, o, a) && Valid(o) && Overridden(owners, a)
    requires forall c :: Covering(owners, c, a) ==> c.prune
    requires !ap.prune && Faultless(f) && Reconciled(owners, o, ap, f, before, after)
    ensures a in after <==> a !in before
  {
    OverriddenPrunable(owners, a);
    ReconcileEnd(owners, o, ap, f, before, after, a);
  }

  /** Two consenting resources, one allowing what the other denies: the Deny
      is declared by a survivor and yet up for pruning. */
  lemma DeclaredDenyLost(a: Acl, x: Source, y: Source)
    requires a.permission == "Deny"
    ensures var owners := [Owner(x, [Opposite(a)], true, false), Owner(y, [a], true, false)];
      Wanted(owners, a) && !Protected(owners, a) && Prunable(owners, a)
  {
    var owners := [Owner(x, [Opposite(a)], true, false), Owner(y, [a], true, false)];
    assert Declares(owners, owners[0], Opposite(a)) && Declares(owners, owners[1], a);
    OverriddenPrunable(owners, a);
  }

  /** The veto of a withholding owner fails: it declares the Deny, a consenting
      owner allows the subject, and the Deny is up for pruning all the same. */
  lemma WithheldDenyLost(a: Acl, x: Source, y: Source)
    requires a.permission == "Deny"
    ensures var owners := [Owner(x, [Opposite(a)], true, false), Owner(y, [a], false, false)];
      Declares(owners, owners[1], a) && Withholds(owners, owners[1], a) && Prunable(owners, a)
  {
    var owners := [Owner(x, [Opposite(a)], true, false), Owner(y, [a], false, false)];
    assert Declares(owners, owners[0], Opposite(a)) && Declares(owners, owners[1], a);
    assert DeclaresOn(owners, owners[1], a) && Overridden(owners, a);
    assert forall w :: Withholds(owners, w, a) ==> w == owners[1];
    assert Overruled(owners, owners[1], a);
    PrunableIff(owners, a);
  }

  /** When a faultless reconcile goes against those who withhold their consent:
      a live tuple that is undeclared or overridden is removed in spite of them
      exactly when each is overruled in all it declares on the pattern. */
  lemma VetoFailsIff(owners: seq<Owner>, o: Owner, ap: Approvals, f: Faults, before: set<Acl>, after: set<Acl>, a: Acl)
    requires AllowOrDeny(owners) && Valid(o) && !ap.prune && Faultless(f) && Reconciled(owners, o, ap, f, before, after)
    requires a in before && (Wanted(owners, a) ==> Overridden(owners, a)) && exists w :: Withholds(owners, w, a)
    ensures a !in after <==> forall w :: Withholds(owners, w, a) ==> Overruled(owners, w, a)
  {
    var w :| Withholds(owners, w, a);
    assert DeclaresOn(owners, w, a);
    PrunableIff(owners, a);
    ReconcileEnd(owners, o, ap, f, before, after, a);
  }

  // ---- deletion ----------------------------------------------------------

  function Unprotected(protect: set<Acl>): Item<Acl> -> bool { (it: Item<Acl>) => it.id !in protect }
  function Claimed(wanted: set<Acl>): Item<Acl> -> bool { (it: Item<Acl>) => it.id in wanted }

  method SubtractProtectedAcls(toDelete: seq<Item<Acl>>, protect: seq<Item<Acl>>) returns (out: seq<Item<Acl>>)
    ensures out == Filter(toDelete, Unprotected(IdSet(protect)))
  {
    if |toDelete| == 0 || |protect| == 0 {
      FilterEverything(toDelete, Unprotected(IdSet(protect)));
      return toDelete;
    }
    var protected_ := CollectIds(protect);
    out := [];
    for i := 0 to |toDelete|
      invariant out == Filter(toDelete[..i], Unprotected(IdSet(protect)))
    {
      assert toDelete[..i + 1][..i] == toDelete[..i];
      if toDelete[i].id !in protected_ { out := out + [toDelete[i]]; }
    }
    assert toDelete[..|toDelete|] == toDelete;
  }

  /** The co-owners' entries for the tuples that stay, with their attribution. */
  method RetainedAcls(toDelete: seq<Item<Acl>>, protect: seq<Item<Acl>>) returns (out: seq<Item<Acl>>)
    ensures out == Filter(protect, Claimed(IdSet(toDelete)))
  {
    if |toDelete| == 0 || |protect| == 0 {
      NothingClaimed(protect, Claimed(IdSet(toDelete)));
      return [];
    }
    var wanted := CollectIds(toDelete);
    out := [];
    for i := 0 to |protect|
      invariant out == Filter(protect[..i], Claimed(IdSet(toDelete)))
    {
      assert protect[..i + 1][..i] == protect[..i];
      if protect[i].id in wanted { out := out + [protect[i]]; }
    }
    assert protect[..|protect|] == protect;
  }

  lemma {:induction false} NothingClaimed(protect: seq<Item<Acl>>, p: Item<Acl> -> bool)
    requires forall it :: it in protect ==> !p(it)
    ensures Filter(protect, p) == []
  {
    if protect != [] {
      assert protect[|protect| - 1] in protect && forall it :: it in protect[..|protect| - 1] ==> it in protect;
      NothingClaimed(protect[..|protect| - 1], p);
    }
  }

  method CollectIds(items: seq<Item<Acl>>) returns (ids: set<Acl>)
    ensures ids == IdSet(items)
  {
    ids := {};
    for i := 0 to |items|
      invariant ids == IdSet(items[..i])
    {
      assert items[..i + 1] == items[..i] + [items[i]];
      ids := ids + {items[i].id};
    }
    assert items[..|items|] == items;
  }

  /** Each tuple to delete is either deleted or retained for a co-owner. */
  lemma DeletedOrRetained(toDelete: seq<Item<Acl>>, protect: seq<Item<Acl>>, a: Acl)
    ensures a in IdSet(Filter(toDelete, Unprotected(IdSet(protect)))) <==> a in IdSet(toDelete) && a !in IdSet(protect)
    ensures a in IdSet(Filter(protect, Claimed(IdSet(toDelete)))) <==> a in IdSet(toDelete) && a in IdSet(protect)
  {
    forall it ensures it in Filter(toDelete, Unprotected(IdSet(protect))) <==> it in toDelete && it.id !in IdSet(protect) {
      FilterMember(toDelete, Unprotected(IdSet(protect)), it);
    }
    forall it ensures it in Filter(protect, Claimed(IdSet(toDelete))) <==> it in protect && it.id in IdSet(toDelete) {
      FilterMember(protect, Claimed(IdSet(toDelete)), it);
    }
  }

  /** What the finalizer of `o` deletes. */
  function Released(owners: seq<Owner>, o: Owner): set<Acl> { IdSet(OwnItems(o)) - IdSet(View(owners).desired) }

  /** The co-ownership shield: what may be deleted, and what stays for others.
      When the resources cannot be listed it fails, unless there is nothing to
      delete. */
  method ShieldAclDeletion(owners: seq<Owner>, listed: bool, toDelete: seq<Item<Acl>>)
    returns (ok: bool, remaining: seq<Item<Acl>>, retained: seq<Item<Acl>>)
    ensures ok <==> toDelete == [] || listed
    ensures ok ==> IdSet(remaining) == IdSet(toDelete) - IdSet(View(owners).desired)
    ensures ok ==> IdSet(retained) == IdSet(toDelete) * IdSet(View(owners).desired)
    ensures !ok ==> remaining == [] && retained == []
  {
    if |toDelete| == 0 { return true, [], []; }
    if !listed { return false, [], []; }
    var view, _ := BuildClusterAclView(owners);
    ok := true;
    remaining := SubtractProtectedAcls(toDelete, view.desired);
    retained := RetainedAcls(toDelete, view.desired);
    Shielded(toDelete, view.desired);
  }

  lemma NoIds(items: seq<Item<Acl>>)
    ensures IdSet(items) == {} <==> items == []
  {
    if items != [] { assert items[0] in items && items[0].id in IdSet(items); }
  }

  lemma DropNothing(s: State)
    ensures s.(acls := s.acls - {}) == s
  {
  }

  function ReleaseCalls(drop: set<Acl>): seq<Call> { if drop == {} then [] else [CallDeleteAcls(drop)] }

  /** The finalizer's ACL cleanup. It gives up when the resources cannot be
      listed; otherwise it makes one delete call, none when nothing is left. */
  method DeleteOwnerAcls(k: KafkaClient, owners: seq<Owner>, listed: bool, o: Owner) returns (ok: bool)
    requires k.Valid()
    modifies k
    ensures k.Valid()
    ensures OwnItems(o) != [] && !listed ==> !ok && k.calls == old(k.calls)
    ensures OwnItems(o) == [] || listed ==>
      && k.calls == old(k.calls) + ReleaseCalls(Released(owners, o))
      && (ok <==> Released(owners, o) == {} || !k.fails(old(|k.calls|)))
    ensures k.View() == old(k.View()).(acls := if ok then old(k.View()).acls - Released(owners, o) else old(k.View()).acls)
  {
    var toDelete, _ := BuildDesiredAcls(Stamped(o.acls, Unattributed, false, NO_SOURCE));
    var remaining, retained;
    ok, remaining, retained := ShieldAclDeletion(owners, listed, toDelete);
    NoIds(remaining);
    DropNothing(k.View());
    if !ok || |remaining| == 0 { return; }
    var drop := CollectIds(remaining);
    ok := k.DeleteAcls(drop);
  }

  lemma Shielded(toDelete: seq<Item<Acl>>, protect: seq<Item<Acl>>)
    ensures IdSet(Filter(toDelete, Unprotected(IdSet(protect)))) == IdSet(toDelete) - IdSet(protect)
    ensures IdSet(Filter(protect, Claimed(IdSet(toDelete)))) == IdSet(toDelete) * IdSet(protect)
  {
    forall a
      ensures a in IdSet(Filter(toDelete, Unprotected(IdSet(protect)))) <==> a in IdSet(toDelete) && a !in IdSet(protect)
      ensures a in IdSet(Filter(protect, Claimed(IdSet(toDelete)))) <==> a in IdSet(toDelete) && a in IdSet(protect)
    {
      DeletedOrRetained(toDelete, protect, a);
    }
  }

  // ---- every interleaving ------------------------------------------------

  datatype Cluster = Cluster(owners: seq<Owner>, live: set<Acl>)

  /** Atomic steps: the locks on a cluster's ACLs serialise them. */
  datatype Event =
    | Reconcile(owner: Owner, approvals: Approvals, faults: Faults)
    | Finalize(owner: Owner, done: bool)
    | Edit(owners: seq<Owner>)

  ghost predicate Next(c: Cluster, e: Event, c': Cluster) {
    match e
    case Reconcile(o, ap, f) =>
      && o in c.owners && !o.deleting && Valid(o) && !ap.prune
      && c'.owners == c.owners && Reconciled(c.owners, o, ap, f, c.live, c'.live)
    case Finalize(o, done) =>
      && o in c.owners && o.deleting
      && c'.owners == c.owners && c'.live == if done then c.live - Released(c.owners, o) else c.live
    case Edit(owners) => c' == Cluster(owners, c.live)
  }

  ghost predicate History(cs: seq<Cluster>, es: seq<Event>) {
    |cs| == |es| + 1 && forall i :: 0 <= i < |es| ==> NextAt(cs, es, i)
  }

  ghost predicate NextAt(cs: seq<Cluster>, es: seq<Event>, i: nat)
    requires |cs| == |es| + 1 && i < |es|
  {
    Next(cs[i], es[i], cs[i + 1])
  }

  /** Every declaring owner consents, or where a Deny is overridden, every one
      that is not overruled. */
  ghost predicate Consented(owners: seq<Owner>, a: Acl) {
    && (Harmonious(owners) ==> forall w :: !Withholds(owners, w, a))
    && (AllowOrDeny(owners) ==> forall w :: Withholds(owners, w, a) ==> Overruled(owners, w, a))
  }

  lemma PrunableConsented(owners: seq<Owner>, a: Acl)
    requires Prunable(owners, a)
    ensures Consented(owners, a)
  {
    if AllowOrDeny(owners) { PrunableIff(owners, a); }
    if Harmonious(owners) {
      forall w ensures !Withholds(owners, w, a) {
        if Withholds(owners, w, a) { HarmoniousVeto(owners, w, a); }
      }
    }
  }

  /** No step removes a tuple of the union; a reconcile removes only what is
      prunable, so every owner that declares on the pattern and withholds its
      consent is overruled there, and has a veto where nobody contradicts anybody;
      only a deleted owner's tuples are released. */
  lemma StepSafety(c: Cluster, e: Event, c': Cluster, a: Acl)
    requires Next(c, e, c') && a in c.live && a !in c'.live
    ensures !Protected(c.owners, a)
    ensures e.Reconcile? ==> Prunable(c.owners, a) && Consented(c.owners, a)
    ensures e.Finalize? ==> e.owner.deleting && a in e.owner.acls
  {
    match e
    case Reconcile(o, ap, f) =>
      ReconcileEnd(c.owners, o, ap, f, c.live, c'.live, a);
      PrunableConsented(c.owners, a);
    case Finalize(o, done) => DesiredAclIds(Stamped(o.acls, Unattributed, false, NO_SOURCE), a);
    case Edit(_) =>
  }

  lemma StepKeeps(c: Cluster, e: Event, c': Cluster, a: Acl)
    requires Next(c, e, c') && a in c.live && Protected(c.owners, a)
    ensures a in c'.live
  {
    if a !in c'.live { StepSafety(c, e, c', a); }
  }

  ghost predicate ProtectedAt(cs: seq<Cluster>, i: nat, a: Acl) { i < |cs| && Protected(cs[i].owners, a) }

  lemma KeptAt(cs: seq<Cluster>, es: seq<Event>, a: Acl, i: nat)
    requires History(cs, es) && i < |es| && a in cs[i].live && ProtectedAt(cs, i, a)
    ensures a in cs[i + 1].live
  {
    assert NextAt(cs, es, i);
    StepKeeps(cs[i], es[i], cs[i + 1], a);
  }

  /** Over any history of reconciles with faults, edits and deletions, a live
      tuple stays live for as long as the union contains it. */
  lemma {:induction false} CoOwnerSafety(cs: seq<Cluster>, es: seq<Event>, a: Acl, n: nat)
    requires History(cs, es) && n <= |es| && a in cs[0].live
    requires forall i: nat :: i < n ==> ProtectedAt(cs, i, a)
    ensures a in cs[n].live
  {
    if n > 0 {
      CoOwnerSafety(cs, es, a, n - 1);
      KeptAt(cs, es, a, n - 1);
    }
  }

  /** Declared by a surviving owner, and not denied against a surviving Allow. */
  ghost predicate Upheld(owners: seq<Owner>, a: Acl) {
    AllowOrDeny(owners) && Wanted(owners, a) && !Overridden(owners, a)
  }

  ghost predicate UpheldAt(cs: seq<Cluster>, i: nat, a: Acl) { i < |cs| && Upheld(cs[i].owners, a) }

  /** What one owner can rely on: while it declares a live tuple, and no
      surviving owner allows what it denies, nobody removes the tuple. */
  lemma DeclaredTupleSurvives(cs: seq<Cluster>, es: seq<Event>, a: Acl, n: nat)
    requires History(cs, es) && n <= |es| && a in cs[0].live
    requires forall i: nat :: i < n ==> UpheldAt(cs, i, a)
    ensures a in cs[n].live
  {
    forall i: nat | i < n ensures ProtectedAt(cs, i, a) {
      assert UpheldAt(cs, i, a);
      ProtectedIff(cs[i].owners, a);
    }
    CoOwnerSafety(cs, es, a, n);
  }

  /** Deleting the last owner of a tuple removes it. */
  lemma LastOwnerRemoves(c: Cluster, o: Owner, c': Cluster, a: Acl)
    requires Next(c, Finalize(o, true), c') && Valid(o) && a in o.acls
    ensures a in c'.live <==> a in c.live && Protected(c.owners, a)
  {
    OwnIds(o, a);
    var own := WithConsent(OwnItems(o), o.prune);
    var i :| 0 <= i < |own| && own[i].id == a;
    assert OwnItems(o)[i] in OwnItems(o) && OwnItems(o)[i].id == a;
  }

  // ---- confluence --------------------------------------------------------

  lemma ReconcileKeepsOwners(c: Cluster, e: Event, c': Cluster)
    requires Next(c, e, c') && e.Reconcile?
    ensures c'.owners == c.owners
  {
  }

  ghost predicate ReconcilesOnly(es: seq<Event>) { forall i :: 0 <= i < |es| ==> es[i].Reconcile? }

  lemma TurnKeepsOwners(cs: seq<Cluster>, es: seq<Event>, i: nat)
    requires History(cs, es) && ReconcilesOnly(es) && i < |es|
    ensures cs[i + 1].owners == cs[i].owners
  {
    assert NextAt(cs, es, i);
    ReconcileKeepsOwners(cs[i], es[i], cs[i + 1]);
  }

  lemma {:induction false} SameOwners(cs: seq<Cluster>, es: seq<Event>, n: nat)
    requires History(cs, es) && ReconcilesOnly(es) && n <= |es|
    ensures cs[n].owners == cs[0].owners
  {
    if n > 0 {
      SameOwners(cs, es, n - 1);
      TurnKeepsOwners(cs, es, n - 1);
    }
  }

  ghost predicate FaultlessTurns(cs: seq<Cluster>, es: seq<Event>) {
    && History(cs, es) && Harmonious(cs[0].owners) && ReconcilesOnly(es)
    && forall i :: 0 <= i < |es| ==> Faultless(es[i].faults)
  }

  lemma OneTurn(cs: seq<Cluster>, es: seq<Event>, i: nat, a: Acl)
    requires FaultlessTurns(cs, es) && i < |es|
    ensures a in cs[i + 1].live <==> if a in cs[i].live then !Prunable(cs[0].owners, a) else a in es[i].owner.acls
    ensures a in es[i].owner.acls ==> Wanted(cs[0].owners, a) && !Prunable(cs[0].owners, a)
  {
    SameOwners(cs, es, i);
    var e := es[i];
    assert NextAt(cs, es, i);
    ReconcileEnd(cs[0].owners, e.owner, e.approvals, e.faults, cs[i].live, cs[i + 1].live, a);
    if a in e.owner.acls {
      assert Declares(cs[0].owners, e.owner, a);
      HarmoniousProtects(cs[0].owners, a);
    }
  }

  /** Declared by one of the first `n` owners to have a turn. */
  ghost predicate HadTurn(es: seq<Event>, n: nat, a: Acl)
    requires n <= |es| && ReconcilesOnly(es)
  {
    exists i :: 0 <= i < n && a in es[i].owner.acls
  }

  /** Among owners that do not contradict each other, after `n` faultless
      reconciles the prunable tuples are gone and the tuples declared by those
      who had their turn are there. */
  lemma {:induction false} AfterReconciles(cs: seq<Cluster>, es: seq<Event>, a: Acl, n: nat)
    requires FaultlessTurns(cs, es) && n <= |es|
    ensures a in cs[n].live <==> HadTurn(es, n, a) || (a in cs[0].live && !(n > 0 && Prunable(cs[0].owners, a)))
  {
    if n > 0 {
      AfterReconciles(cs, es, a, n - 1);
      OneTurn(cs, es, n - 1, a);
      if HadTurn(es, n - 1, a) {
        var i :| 0 <= i < n - 1 && a in es[i].owner.acls;
        OneTurn(cs, es, i, a);
      }
    }
  }

  /** Whatever the order and however often each reconciles, once every owner has
      had a turn the cluster holds the union and what was not prunable. */
  lemma Confluence(cs: seq<Cluster>, es: seq<Event>, a: Acl)
    requires FaultlessTurns(cs, es)
    requires forall o :: o in cs[0].owners && !o.deleting ==> exists i :: 0 <= i < |es| && es[i].owner == o
    ensures a in cs[|es|].live <==> Wanted(cs[0].owners, a) || (a in cs[0].live && !Prunable(cs[0].owners, a))
  {
    AfterReconciles(cs, es, a, |es|);
    if o :| Declares(cs[0].owners, o, a) {
      var i :| 0 <= i < |es| && es[i].owner == o;
      assert HadTurn(es, |es|, a);
    }
    if i :| 0 <= i < |es| && a in es[i].owner.acls { OneTurn(cs, es, i, a); }
    if Prunable(cs[0].owners, a) {
      var o :| Covering(cs[0].owners, o, a);
    }
  }
}
