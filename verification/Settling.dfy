/** Where runs end: convergence in one pass, silence afterwards, and recovery
    from any pattern of failures in two. */
module Settling {
  import opened Basics
  import opened Model
  import opened Operations
  import opened Store
  import opened Executor
  import opened Diff
  import opened Intent
  import opened Soundness
  import opened Convergence

  // ---- each topic is created once ----------------------------------------

  predicate Names(ts: seq<DesiredTopic>, t: string) { exists dt :: dt in ts && dt.name == t }

  lemma NamedOnce(ts: seq<DesiredTopic>)
    requires Unique(ts, TopicKey) && ts != []
    ensures Unique(ts[..|ts| - 1], TopicKey) && !Names(ts[..|ts| - 1], ts[|ts| - 1].name)
    ensures Names(ts, ts[|ts| - 1].name) && forall t :: Names(ts[..|ts| - 1], t) ==> Names(ts, t)
  {
    var front, last := ts[..|ts| - 1], ts[|ts| - 1];
    forall dt | dt in front ensures dt in ts && dt.name != last.name {
      var i :| 0 <= i < |front| && front[i] == dt;
      assert TopicKey(ts[i]) != TopicKey(ts[|ts| - 1]);
    }
    assert last in ts;
  }

  lemma {:induction false} CreatedOnce(ts: seq<DesiredTopic>, live: map<string, Topic>, op: Operation)
    requires Unique(ts, TopicKey) && op.action == CreateTopic
    ensures multiset(FlatMap(ts, TopicStep(live)))[op] <= 1
    ensures multiset(FlatMap(ts, TopicStep(live)))[op] > 0 ==> Names(ts, op.target)
  {
    if ts != [] {
      NamedOnce(ts);
      CreatedOnce(ts[..|ts| - 1], live, op);
      CreatesAtMost(ts[|ts| - 1], live, op);
    }
  }

  lemma CreatesAtMost(dt: DesiredTopic, live: map<string, Topic>, op: Operation)
    requires op.action == CreateTopic
    ensures multiset(TopicStep(live)(dt))[op] <= 1
    ensures multiset(TopicStep(live)(dt))[op] > 0 ==> dt.name == op.target
  {
    var step := TopicStep(live)(dt);
    if dt.name in live {
      if op in step { TopicOpShape(dt, live, op); }
      assert op !in step;
      assert op !in multiset(step);
    } else {
      assert step == [CreateTopicOp(dt)];
    }
  }

  lemma {:induction false} FilterCounts<T>(xs: seq<T>, p: T -> bool, x: T)
    ensures multiset(Filter(xs, p))[x] <= multiset(xs)[x]
  {
    if xs != [] {
      FilterCounts(xs[..|xs| - 1], p, x);
      assert xs == xs[..|xs| - 1] + [xs[|xs| - 1]];
    }
  }

  lemma GuardsCreateNothing(d: Desired, live: Live, op: Operation)
    requires op.action == CreateTopic
    ensures op !in FlatMap(SortedKeys(Guards(d, live).Keys), GuardStep(Guards(d, live)))
  {
    var guards := Guards(d, live);
    if op in FlatMap(SortedKeys(guards.Keys), GuardStep(guards)) {
      FlatMapMember(SortedKeys(guards.Keys), GuardStep(guards), op);
      if live.mirrors.Some? { GuardMapStoreless(d.topics, live.mirrors.value); }
      assert false;
    }
  }

  /** The guards add no creation to the plan. */
  lemma GuardedCreations(d: Desired, live: Live, op: Operation)
    requires op.action == CreateTopic && op !in AclOps(d, live.acls)
    ensures multiset(GuardedOps(d, live))[op] <= multiset(TopicOps(d.topics, TopicMap(live.topics)))[op]
  {
    var guards := Guards(d, live);
    var topicOps, aclOps := TopicOps(d.topics, TopicMap(live.topics)), AclOps(d, live.acls);
    if guards == map[] {
      CountInFirst(topicOps, aclOps, op);
    } else {
      var kept, findings := Filter(topicOps, KeepTopicOp(guards)), FlatMap(SortedKeys(guards.Keys), GuardStep(guards));
      FilterCounts(topicOps, KeepTopicOp(guards), op);
      GuardsCreateNothing(d, live, op);
      CountInFirst(kept, findings, op);
      FilterMember(aclOps, KeepAclOp(guards), op);
      CountInFirst(kept + findings, Filter(aclOps, KeepAclOp(guards)), op);
    }
  }

  lemma PlannedAfterGuarded(d: Desired, live: Live, op: Operation)
    requires op.action == CreateTopic
    ensures multiset(Planned(d, live))[op] == multiset(GuardedOps(d, live))[op]
  {
    OtherKindsCreateNothing(d, live, op);
    GrantsCreateNothing(d, live, op);
    var a, b, c, u, m := GuardedOps(d, live), QuotaOps(d.quotas, QuotaMap(live.quotas)), BindingOps(d, live.bindings),
                         UserOps(d.users, ScramMap(live.credentials), d.rotatePasswords), MirrorPlan(d.mirrors, live.mirrors);
    CountInFirst(a, b, op);
    CountInFirst(a + b, c, op);
    CountInFirst(a + b + c, u, op);
    CountInFirst(a + b + c + u, m, op);
  }

  lemma CreationCountedOnce(d: Desired, live: Live, op: Operation)
    requires WellFormed(d) && op.action == CreateTopic
    ensures multiset(Execution(d, live))[op] <= 1
  {
    OrderedPermutes(Compute(d, live));
    SortPermutes(Planned(d, live), OpLess);
    SortUnique(d.topics, OnKey(TopicKey), TopicKey);
    CreatedOnce(SortOn(d.topics, TopicKey), TopicMap(live.topics), op);
    GrantsCreateNothing(d, live, op);
    GuardedCreations(d, live, op);
    PlannedAfterGuarded(d, live, op);
  }

  lemma CreationOf(d: Desired, live: Live, op: Operation) returns (dt: DesiredTopic)
    requires op in Execution(d, live) && op.action == CreateTopic
    ensures dt in d.topics && op == CreateTopicOp(dt)
  {
    ExecutionMembers(d, live, op);
    var o := PlannedOrigin(d, live, op);
    if o.FromTopic? {
      TopicOpShape(o.dt, TopicMap(live.topics), op);
      dt := o.dt;
    } else {
      NotACreation(d, live, op, o);
    }
  }

  lemma NotACreation(d: Desired, live: Live, op: Operation, o: Origin)
    requires Derived(d, StateOf(live), op, o) && !o.FromTopic?
    ensures op.action != CreateTopic
  {
    match o
    case FromQuota(dq) => QuotaOpShape(dq, QuotaMap(live.quotas), op);
    case FromUser(du) => UserOpShape(du, ScramMap(live.credentials), d.rotatePasswords, op);
    case FromFinding =>
    case _ => GrantOriginRuns(d, StateOf(live), op, o, ALL_APPROVALS);
  }

  /** A plan creates a topic at most once: two creations of one topic are the
      same entry of the plan. */
  lemma PlannedCreateOnce(d: Desired, live: Live, i: nat, j: nat)
    requires WellFormed(d) && i < |Execution(d, live)| && j < |Execution(d, live)|
    requires var ops := Execution(d, live);
      ops[i].action == CreateTopic && ops[j].action == CreateTopic && ops[i].target == ops[j].target
    ensures i == j
  {
    var ops := Execution(d, live);
    var x := CreationOf(d, live, ops[i]);
    var y := CreationOf(d, live, ops[j]);
    LookupUnique(d.topics, TopicKey, x);
    LookupUnique(d.topics, TopicKey, y);
    CreationCountedOnce(d, live, ops[i]);
    TwoIndices(ops, ops[i]);
  }

  lemma CountInFirst<T>(xs: seq<T>, ys: seq<T>, x: T)
    requires x !in ys
    ensures multiset(xs + ys)[x] == multiset(xs)[x]
  {
    assert x !in multiset(ys);
  }

  lemma GrantsCreateNothing(d: Desired, live: Live, op: Operation)
    requires op.action == CreateTopic
    ensures op !in AclOps(d, live.acls) && op !in BindingOps(d, live.bindings)
  {
    if op in AclOps(d, live.acls) {
      var o := AclOrigin(d, live, op);
      NotACreation(d, live, op, o);
    }
    if op in BindingOps(d, live.bindings) {
      var o := BindingOrigin(d, live, op);
      NotACreation(d, live, op, o);
    }
  }

  lemma OtherKindsCreateNothing(d: Desired, live: Live, op: Operation)
    requires op.action == CreateTopic
    ensures op !in QuotaOps(d.quotas, QuotaMap(live.quotas))
    ensures op !in UserOps(d.users, ScramMap(live.credentials), d.rotatePasswords)
    ensures op !in MirrorPlan(d.mirrors, live.mirrors)
  {
    if op in QuotaOps(d.quotas, QuotaMap(live.quotas)) {
      var o := QuotaOrigin(d, live, op);
      NotACreation(d, live, op, o);
    }
    if op in UserOps(d.users, ScramMap(live.credentials), d.rotatePasswords) {
      var o := UserOrigin(d, live, op);
      NotACreation(d, live, op, o);
    }
    if op in MirrorPlan(d.mirrors, live.mirrors) { MirrorPlanStoreless(d, live, op); }
  }

  lemma StorePlan(d: Desired, live: Live)
    requires WellFormed(d) && StoreOnly(d, live)
    ensures PlanOfStore(d, StateOf(live), Execution(d, live))
  {
    forall op | op in Execution(d, live) ensures exists o :: Derived(d, StateOf(live), op, o) && !o.FromFinding? {
      ExecutionMembers(d, live, op);
      var o := StoreOrigin(d, live, op);
    }
    forall op: Operation | op.action == CreateTopic ensures multiset(Execution(d, live))[op] <= 1 {
      CreationCountedOnce(d, live, op);
    }
  }

  lemma StoreOrigin(d: Desired, live: Live, op: Operation) returns (o: Origin)
    requires StoreOnly(d, live) && op in Compute(d, live)
    ensures Derived(d, StateOf(live), op, o) && !o.FromFinding?
  {
    ComputeMembers(d, live, op);
    SortedFlatMapMember(d.mirrors, MirrorKey, MirrorStep(live.mirrors), op);
    if op in TopicOps(d.topics, TopicMap(live.topics)) { o := TopicOrigin(d, live, op); }
    else if op in AclOps(d, live.acls) { o := AclOrigin(d, live, op); }
    else if op in QuotaOps(d.quotas, QuotaMap(live.quotas)) { o := QuotaOrigin(d, live, op); }
    else if op in BindingOps(d, live.bindings) { o := BindingOrigin(d, live, op); }
    else { o := UserOrigin(d, live, op); }
  }

  // ---- one-pass convergence ----------------------------------------------

  /** A faultless pass ends with every cell at its goal, under any approvals. */
  lemma OnePass(d: Desired, ap: Approvals, live: Live, f: Faults, c: Cell)
    requires WellFormed(d) && HasPasswords(d) && StoreOnly(d, live) && Faultless(f)
    ensures At(RunPlan(d, ap, live, f).world.store, c) == Goal(d, ap, StateOf(live), c)
  {
    var s, ops := StateOf(live), Execution(d, live);
    StorePlan(d, live);
    ExecutionIsPlan(d, live);
    RunTracked(d, ap, s, c, ops, f);
    if Goal(d, ap, s, c) != At(s, c) {
      var w := Complete(d, ap, s, c);
      OriginPlanned(d, live, w.op, w.origin);
      ExecutionMembers(d, live, w.op);
      RunFaultless(d, ap, s, ops, f);
      assert w.call in RunPlan(d, ap, live, f).world.applied;
    }
  }

  // ---- the goal absorbs partial progress ---------------------------------

  /** No desired grant is also a prune candidate. It holds whenever the prune
      aggregates, if supplied, contain the desired sets. */
  ghost predicate Settles(d: Desired, ap: Approvals) {
    && (forall a :: !(AddsAcl(d, a) && PrunesAcl(d, ap, a)))
    && (forall b :: !(AddsBinding(d, b) && PrunesBinding(d, ap, b)))
  }

  lemma KeptSettles(d: Desired, ap: Approvals)
    requires forall it :: it in d.acls ==> it.id in Ids(PruneDesired(d))
    requires forall it :: it in d.bindings ==> it.id in Ids(BindingKeepSet(d))
    ensures Settles(d, ap)
  {
  }

  lemma OwnSetSettles(d: Desired, ap: Approvals)
    requires d.pruneAggregate.None? && d.bindingKeep.None?
    ensures Settles(d, ap)
  {
    KeptSettles(d, ap);
  }

  /** What a state reached by applying some of the planned calls looks like. */
  ghost predicate Partway(d: Desired, ap: Approvals, s: State, applied: seq<Call>, s': State) {
    && (forall c :: At(s', c) == if Touched(applied, c) then Goal(d, ap, s, c) else At(s, c))
    && (forall x :: x in applied ==> exists op :: HasOrigin(d, s, op) && MakesCall(op, ap, x))
    && Paired(d, applied)
  }

  /** The old mechanism is still there although the declared one arrived. */
  ghost predicate Residue(d: Desired, s: State, applied: seq<Call>, c: Cell) {
    && c.ScramCell? && Replaced(d, s, c.id) && !Touched(applied, c)
    && Touched(applied, ScramCell(FindUser(d, c.id.user).value.id))
  }

  /** A call touching an absent topic created all of it. */
  lemma AbsentTopicWhole(d: Desired, ap: Approvals, s: State, applied: seq<Call>, s': State, t: string, c: Cell, c': Cell)
    requires WellFormed(d) && Partway(d, ap, s, applied, s') && t !in s.topics
    requires (c.PartitionsCell? || c.ReplicasCell? || c.ConfigCell?) && c.topic == t
    requires (c'.PartitionsCell? || c'.ReplicasCell? || c'.ConfigCell?) && c'.topic == t
    requires FindTopic(d, t).Some? && Touched(applied, c)
    ensures Touched(applied, c')
  {
    var x :| x in applied && Touches(x, c);
    var op :| HasOrigin(d, s, op) && MakesCall(op, ap, x);
    var o :| Derived(d, s, op, o);
    CreatesOnly(d, ap, s, op, o, x, FindTopic(d, t).value, c);
    assert Touches(x, c');
  }

  lemma TopicAbsorbs(d: Desired, ap: Approvals, s: State, applied: seq<Call>, s': State, c: Cell)
    requires WellFormed(d) && Partway(d, ap, s, applied, s')
    requires c.PartitionsCell? || c.ReplicasCell? || c.ConfigCell?
    ensures Goal(d, ap, s', c) == Goal(d, ap, s, c)
  {
    var t := c.topic;
    var p := PartitionsCell(t);
    assert At(s', c) == if Touched(applied, c) then Goal(d, ap, s, c) else At(s, c);
    assert At(s', p) == if Touched(applied, p) then Goal(d, ap, s, p) else At(s, p);
    if FindTopic(d, t).Some? && t !in s.topics {
      if Touched(applied, c) { AbsentTopicWhole(d, ap, s, applied, s', t, c, p); }
      if Touched(applied, p) { AbsentTopicWhole(d, ap, s, applied, s', t, p, c); }
    }
  }

  lemma GrantAbsorbs(d: Desired, ap: Approvals, s: State, applied: seq<Call>, s': State, c: Cell)
    requires Settles(d, ap) && Partway(d, ap, s, applied, s')
    requires c.AclCell? || c.BindingCell? || c.QuotaCell?
    ensures Goal(d, ap, s', c) == Goal(d, ap, s, c)
  {
    assert At(s', c) == if Touched(applied, c) then Goal(d, ap, s, c) else At(s, c);
  }

  /** Only a replaced mechanism is ever deleted, and other undeclared
      credentials are never touched. */
  lemma UndeclaredCredential(d: Desired, ap: Approvals, s: State, applied: seq<Call>, s': State, id: ScramId)
    requires WellFormed(d) && Partway(d, ap, s, applied, s')
    requires FindUser(d, id.user).Some? && id != FindUser(d, id.user).value.id
    requires Touched(applied, ScramCell(id))
    ensures Replaced(d, s, id) && Touched(applied, ScramCell(FindUser(d, id.user).value.id))
  {
    var x :| x in applied && Touches(x, ScramCell(id));
    var op :| HasOrigin(d, s, op) && MakesCall(op, ap, x);
    var o :| Derived(d, s, op, o);
    CredentialCall(d, ap, s, op, o, x, id);
  }

  lemma CredentialCall(d: Desired, ap: Approvals, s: State, op: Operation, o: Origin, x: Call, id: ScramId)
    requires WellFormed(d) && Derived(d, s, op, o) && MakesCall(op, ap, x) && Touches(x, ScramCell(id))
    ensures FindUser(d, id.user).Some?
    ensures id != FindUser(d, id.user).value.id ==> x.CallDeleteScram? && Replaced(d, s, id)
    ensures id == FindUser(d, id.user).value.id ==> x.CallUpsertScram?
  {
    OriginCalls(d, s, op, o, x);
    LookupUnique(d.users, UserKey, o.du);
    if x.CallDeleteScram? {
      UserDeletes(o.du, s.scram, d.rotatePasswords, op, x);
      DeleteSound(d, ap, s, o.du, id);
    }
  }

  lemma MechanismsSame(s: State, s': State, user: string)
    requires forall id: ScramId :: id.user == user ==> (id in s.scram <==> id in s'.scram)
    ensures Mechanisms(s.scram, user) == Mechanisms(s'.scram, user)
  {
    var a, b := Mechanisms(s.scram, user), Mechanisms(s'.scram, user);
    forall m | m in a ensures m in b { assert ScramId(user, m) in s.scram; assert ScramId(user, m) in s'.scram; }
    forall m | m in b ensures m in a { assert ScramId(user, m) in s'.scram; assert ScramId(user, m) in s.scram; }
  }

  lemma CredentialAbsorbs(d: Desired, ap: Approvals, s: State, applied: seq<Call>, s': State, id: ScramId)
    requires WellFormed(d) && Partway(d, ap, s, applied, s')
    requires !Residue(d, s, applied, ScramCell(id))
    ensures Goal(d, ap, s', ScramCell(id)) == Goal(d, ap, s, ScramCell(id))
  {
    var c := ScramCell(id);
    assert At(s', c) == if Touched(applied, c) then Goal(d, ap, s, c) else At(s, c);
    if FindUser(d, id.user).Some? {
      var own := FindUser(d, id.user).value.id;
      assert At(s', ScramCell(own)) == if Touched(applied, ScramCell(own)) then Goal(d, ap, s, ScramCell(own)) else At(s, ScramCell(own));
      if id != own {
        if Touched(applied, c) {
          UndeclaredCredential(d, ap, s, applied, s', id);
        } else if own !in s.scram && !Touched(applied, ScramCell(own)) {
          forall x: ScramId | x.user == id.user ensures x in s.scram <==> x in s'.scram {
            assert At(s', ScramCell(x)) == if Touched(applied, ScramCell(x)) then Goal(d, ap, s, ScramCell(x)) else At(s, ScramCell(x));
            if x != own && Touched(applied, ScramCell(x)) { UndeclaredCredential(d, ap, s, applied, s', x); }
          }
          MechanismsSame(s, s', id.user);
        }
      }
    }
  }

  /** Whatever part of the plan took effect, the goal is still the same one,
      except for residues. */
  lemma Absorbs(d: Desired, ap: Approvals, s: State, applied: seq<Call>, s': State, c: Cell)
    requires WellFormed(d) && Settles(d, ap) && Partway(d, ap, s, applied, s')
    ensures Goal(d, ap, s', c) == if Residue(d, s, applied, c) then At(s, c) else Goal(d, ap, s, c)
  {
    if Residue(d, s, applied, c) {
      var own := FindUser(d, c.id.user).value.id;
      assert At(s', c) == At(s, c);
      assert At(s', ScramCell(own)) == Goal(d, ap, s, ScramCell(own));
    } else {
      match c
      case PartitionsCell(_) | ReplicasCell(_) | ConfigCell(_, _) => TopicAbsorbs(d, ap, s, applied, s', c);
      case AclCell(_) | BindingCell(_) | QuotaCell(_, _) => GrantAbsorbs(d, ap, s, applied, s', c);
      case ScramCell(id) => CredentialAbsorbs(d, ap, s, applied, s', id);
    }
  }

  lemma RunPartway(d: Desired, ap: Approvals, live: Live, f: Faults)
    requires WellFormed(d)
    ensures Partway(d, ap, StateOf(live), RunPlan(d, ap, live, f).world.applied, RunPlan(d, ap, live, f).world.store)
  {
    var s, ops := StateOf(live), Execution(d, live);
    var w := RunPlan(d, ap, live, f).world;
    ExecutionIsPlan(d, live);
    forall c ensures Tracked(d, ap, s, c, w) { RunTracked(d, ap, s, c, ops, f); }
    forall c ensures At(w.store, c) == if Touched(w.applied, c) then Goal(d, ap, s, c) else At(s, c) {
      assert Tracked(d, ap, s, c, w);
    }
    RunApplied(ops, ap, f, s);
    RunGuarded(d, ap, s, ops, f);
  }

  // ---- silence -----------------------------------------------------------

  /** Nothing but password rotations is left for the executor to dispatch. */
  ghost predicate Silent(d: Desired, ap: Approvals, live: Live) {
    forall op :: op in Compute(d, live) && Dispatchable(op, ap) ==> op.action == RotateScramCredential
  }

  lemma AtGoalIsSilent(d: Desired, ap: Approvals, live: Live)
    requires WellFormed(d) && HasPasswords(d) && StoreOnly(d, live)
    requires forall c :: At(StateOf(live), c) == Goal(d, ap, StateOf(live), c)
    ensures Silent(d, ap, live)
  {
    forall op | op in Compute(d, live) && Dispatchable(op, ap) ensures op.action == RotateScramCredential {
      var o := StoreOrigin(d, live, op);
      OnlyRotates(d, ap, StateOf(live), op, o);
    }
  }

  lemma OnlyRotates(d: Desired, ap: Approvals, s: State, op: Operation, o: Origin)
    requires WellFormed(d) && HasPasswords(d) && Derived(d, s, op, o) && !o.FromFinding?
    requires Dispatchable(op, ap) && forall c :: At(s, c) == Goal(d, ap, s, c)
    ensures op.action == RotateScramCredential
  {
    DispatchedHasCalls(d, ap, s, op, o);
    CallsShape(op);
    if op.action != RotateScramCredential {
      var c := Needed(d, s, op, o);
      Sound(d, ap, s, op, o, StoreCalls(op).value[0], c);
      assert false;
    }
  }

  lemma SilentIsAtGoal(d: Desired, ap: Approvals, live: Live, c: Cell)
    requires WellFormed(d) && HasPasswords(d) && StoreOnly(d, live) && Silent(d, ap, live)
    requires c.AclCell? || c.BindingCell?
    ensures At(StateOf(live), c) == Goal(d, ap, StateOf(live), c)
  {
    var s := StateOf(live);
    if At(s, c) != Goal(d, ap, s, c) {
      var w := GrantComplete(d, ap, s, c);
      OriginPlanned(d, live, w.op, w.origin);
      assert false;
    }
  }

  /** A residue is a cell that is not at its goal. */
  lemma ResidueOffGoal(d: Desired, ap: Approvals, s: State, applied: seq<Call>, s': State, c: Cell)
    requires Partway(d, ap, s, applied, s') && Residue(d, s, applied, c)
    ensures At(s', c) == At(s, c) != Goal(d, ap, s, c)
  {
    assert At(s', c) == if Touched(applied, c) then Goal(d, ap, s, c) else At(s, c);
  }

  lemma AtGoalNoResidue(d: Desired, ap: Approvals, s: State, applied: seq<Call>, s': State, c: Cell)
    requires Partway(d, ap, s, applied, s') && At(s', c) == Goal(d, ap, s, c)
    ensures !Residue(d, s, applied, c)
  {
    if Residue(d, s, applied, c) { ResidueOffGoal(d, ap, s, applied, s', c); }
  }

  /** After a faultless pass the plan for the new state is silent, exactly when
      no desired grant is also a prune candidate. */
  lemma SilentAfterOnePass(d: Desired, ap: Approvals, live: Live, f: Faults, after: Live)
    requires WellFormed(d) && HasPasswords(d) && StoreOnly(d, live) && Faultless(f)
    requires StateOf(after) == RunPlan(d, ap, live, f).world.store && after.mirrors.None?
    ensures Silent(d, ap, after) <==> Settles(d, ap)
  {
    var s, s' := StateOf(live), StateOf(after);
    forall c ensures At(s', c) == Goal(d, ap, s, c) { OnePass(d, ap, live, f, c); }
    if Settles(d, ap) {
      RunPartway(d, ap, live, f);
      forall c ensures At(s', c) == Goal(d, ap, s', c) {
        AtGoalNoResidue(d, ap, s, RunPlan(d, ap, live, f).world.applied, s', c);
        Absorbs(d, ap, s, RunPlan(d, ap, live, f).world.applied, s', c);
      }
      AtGoalIsSilent(d, ap, after);
    } else if Silent(d, ap, after) {
      var c := Unsettled(d, ap);
      SilentIsAtGoal(d, ap, after, c);
      assert false;
    }
  }

  /** The grant that flips at every pass. */
  lemma Unsettled(d: Desired, ap: Approvals) returns (c: Cell)
    requires !Settles(d, ap)
    ensures c.AclCell? || c.BindingCell?
    ensures forall s :: Goal(d, ap, s, c) != At(s, c)
  {
    if a :| AddsAcl(d, a) && PrunesAcl(d, ap, a) {
      c := AclCell(a);
    } else {
      var b :| AddsBinding(d, b) && PrunesBinding(d, ap, b);
      c := BindingCell(b);
    }
  }

  /** What is left after full approval: findings no run can act on. */
  lemma OnlyFindingsRemain(d: Desired, live: Live, op: Operation)
    requires WellFormed(d) && HasPasswords(d) && StoreOnly(d, live) && Silent(d, ALL_APPROVALS, live)
    requires op in Compute(d, live) && Acts(op.mode)
    ensures op.action == Rejected || op.action == UpdateReplicationFactor || op.action == RotateScramCredential
  {
    var o := StoreOrigin(d, live, op);
    if StoreCalls(op).None? { NoCalls(op, d, StateOf(live), o); } else { FullyApproved(op); }
  }

  /** The declared topic exists with more partitions than declared. */
  predicate Shrinks(dt: DesiredTopic, live: map<string, Topic>) {
    dt.name in live && !Ignores(dt, "partitions") && dt.partitions < live[dt.name].partitions
  }

  /** Both replication factors are known and differ. */
  predicate Replicates(dt: DesiredTopic, live: map<string, Topic>) {
    && dt.name in live && !Ignores(dt, "replicationFactor")
    && dt.replicationFactor != 0 && live[dt.name].replicationFactor != 0
    && dt.replicationFactor != live[dt.name].replicationFactor
  }

  /** What a finding of a step is, and when there is one. */
  lemma StepFinding(dt: DesiredTopic, live: map<string, Topic>, op: Operation)
    requires op in TopicStep(live)(dt)
    ensures op.action == Rejected ==> Shrinks(dt, live)
    ensures op.action == UpdateReplicationFactor ==> Replicates(dt, live)
  {
    if dt.name in live && op in FlatMap(SortedKeys(dt.config.Keys), ConfigStep(dt, live[dt.name])) {
      ConfigOpShape(dt, live[dt.name], op);
    }
  }

  lemma ShrinkFound(dt: DesiredTopic, live: map<string, Topic>) returns (op: Operation)
    requires Shrinks(dt, live)
    ensures op in TopicStep(live)(dt) && op.action == Rejected
  {
    op := PartitionOps(dt, live[dt.name])[0];
    assert op in PartitionOps(dt, live[dt.name]);
  }

  lemma ReplicationFound(dt: DesiredTopic, live: map<string, Topic>) returns (op: Operation)
    requires Replicates(dt, live)
    ensures op in TopicStep(live)(dt) && op.action == UpdateReplicationFactor
  {
    op := ReplicationOps(dt, live[dt.name])[0];
    assert op in ReplicationOps(dt, live[dt.name]);
  }

  lemma StepFindings(dt: DesiredTopic, live: map<string, Topic>)
    ensures (exists op :: op in TopicStep(live)(dt) && op.action == Rejected) <==> Shrinks(dt, live)
    ensures (exists op :: op in TopicStep(live)(dt) && op.action == UpdateReplicationFactor) <==> Replicates(dt, live)
  {
    forall op | op in TopicStep(live)(dt)
      ensures (op.action == Rejected ==> Shrinks(dt, live)) && (op.action == UpdateReplicationFactor ==> Replicates(dt, live))
    {
      StepFinding(dt, live, op);
    }
    if Shrinks(dt, live) { var op := ShrinkFound(dt, live); }
    if Replicates(dt, live) { var op := ReplicationFound(dt, live); }
  }

  lemma TargetsItsTopic(dt: DesiredTopic, live: map<string, Topic>, op: Operation)
    requires op in TopicStep(live)(dt)
    ensures op.target == dt.name
  {
    if dt.name in live && op in FlatMap(SortedKeys(dt.config.Keys), ConfigStep(dt, live[dt.name])) {
      ConfigOpShape(dt, live[dt.name], op);
    }
  }

  /** A finding about a declared topic is planned exactly when there is cause. */
  lemma TopicFindings(d: Desired, live: Live, dt: DesiredTopic)
    requires WellFormed(d) && StoreOnly(d, live) && dt in d.topics
    ensures (exists op :: op in Compute(d, live) && op.action == Rejected && op.target == dt.name) <==>
      Shrinks(dt, TopicMap(live.topics))
    ensures (exists op :: op in Compute(d, live) && op.action == UpdateReplicationFactor && op.target == dt.name) <==>
      Replicates(dt, TopicMap(live.topics))
  {
    StepFindings(dt, TopicMap(live.topics));
    forall op | op in TopicStep(TopicMap(live.topics))(dt) ensures op in Compute(d, live) && op.target == dt.name {
      OriginPlanned(d, live, op, FromTopic(dt));
      TargetsItsTopic(dt, TopicMap(live.topics), op);
    }
    forall op | op in Compute(d, live) && (op.action == Rejected || op.action == UpdateReplicationFactor) && op.target == dt.name
      ensures op in TopicStep(TopicMap(live.topics))(dt)
    {
      var dt' := FindingOrigin(d, live, op);
      TargetsItsTopic(dt', TopicMap(live.topics), op);
      LookupUnique(d.topics, TopicKey, dt);
      LookupUnique(d.topics, TopicKey, dt');
    }
  }

  lemma FindingOrigin(d: Desired, live: Live, op: Operation) returns (dt: DesiredTopic)
    requires StoreOnly(d, live) && op in Compute(d, live) && (op.action == Rejected || op.action == UpdateReplicationFactor)
    ensures dt in d.topics && op in TopicStep(TopicMap(live.topics))(dt)
  {
    var o := StoreOrigin(d, live, op);
    FindingFromTopic(d, StateOf(live), op, o);
    dt := o.dt;
  }

  lemma FindingFromTopic(d: Desired, s: State, op: Operation, o: Origin)
    requires Derived(d, s, op, o) && !o.FromFinding? && (op.action == Rejected || op.action == UpdateReplicationFactor)
    ensures o.FromTopic?
  {
    match o
    case FromTopic(_) =>
    case FromQuota(dq) => QuotaOpShape(dq, s.quotas, op);
    case FromUser(du) => UserOpShape(du, s.scram, d.rotatePasswords, op);
    case _ => GrantOriginRuns(d, s, op, o, ALL_APPROVALS);
  }

  lemma FullyApproved(op: Operation)
    requires StoreCalls(op).Some? && Acts(op.mode)
    ensures Dispatchable(op, ALL_APPROVALS)
  {
  }

  // ---- recovery ----------------------------------------------------------

  /** Two ends compared: one reached from a partial state, one directly. */
  lemma EndsCompared(d: Desired, ap: Approvals, s: State, applied: seq<Call>, s': State, end: State, direct: State, c: Cell)
    requires WellFormed(d) && Settles(d, ap) && Partway(d, ap, s, applied, s')
    requires At(end, c) == Goal(d, ap, s', c) && At(direct, c) == Goal(d, ap, s, c)
    ensures At(end, c) == At(direct, c) <==> !Residue(d, s, applied, c)
  {
    Absorbs(d, ap, s, applied, s', c);
    if Residue(d, s, applied, c) { ResidueOffGoal(d, ap, s, applied, s', c); }
  }

  /** After a first pass with any faults, a faultless second pass reaches the
      state a faultless first pass would have reached, in every cell but the
      residues, and in those it does not. */
  lemma Recovery(d: Desired, ap: Approvals, live: Live, f1: Faults, between: Live, f2: Faults, f: Faults, c: Cell)
    requires WellFormed(d) && HasPasswords(d) && StoreOnly(d, live) && Settles(d, ap)
    requires StateOf(between) == RunPlan(d, ap, live, f1).world.store && between.mirrors.None?
    requires Faultless(f2) && Faultless(f)
    ensures At(RunPlan(d, ap, between, f2).world.store, c) == At(RunPlan(d, ap, live, f).world.store, c)
       <==> !Residue(d, StateOf(live), RunPlan(d, ap, live, f1).world.applied, c)
  {
    OnePass(d, ap, between, f2, c);
    OnePass(d, ap, live, f, c);
    RunPartway(d, ap, live, f1);
    EndsCompared(d, ap, StateOf(live), RunPlan(d, ap, live, f1).world.applied, StateOf(between),
                 RunPlan(d, ap, between, f2).world.store, RunPlan(d, ap, live, f).world.store, c);
  }

  /** And the plan after the second pass is silent. */
  lemma SilentAfterRecovery(d: Desired, ap: Approvals, between: Live, f2: Faults, after: Live)
    requires WellFormed(d) && HasPasswords(d) && StoreOnly(d, between) && Settles(d, ap) && Faultless(f2)
    requires StateOf(after) == RunPlan(d, ap, between, f2).world.store && after.mirrors.None?
    ensures Silent(d, ap, after)
  {
    SilentAfterOnePass(d, ap, between, f2, after);
  }

  // ---- the residue does occur --------------------------------------------

  const OLD: ScramId := ScramId("u", "SCRAM-SHA-256")
  const NEW: ScramId := ScramId("u", "SCRAM-SHA-512")

  /** One user, live with one mechanism and declared with another. */
  const CHANGING: DesiredUser := DesiredUser(NEW, 0, Some(PasswordRef("p")))

  function OneUser(): Desired { Desired([], [], [], map[], [], [CHANGING], false, [], map[], None, None) }
  function OneCredential(): Live { Live([], [], [], [], [ScramCredential(OLD, 4096)], None) }

  /** Only the second Kafka call fails. */
  function SecondCallFails(): Faults { Faults(n => n == 1, n => false, r => true, (n, op) => false) }

  lemma OnlyMechanism()
    ensures ScramMap(OneCredential().credentials) == map[OLD := 4096]
    ensures Mechanisms(map[OLD := 4096], "u") == {"SCRAM-SHA-256"}
    ensures Least(Mechanisms(map[OLD := 4096], "u")) == "SCRAM-SHA-256"
  {
    var cs := OneCredential().credentials;
    assert cs[..0] == [];
    assert Mechanisms(map[OLD := 4096], "u") == {"SCRAM-SHA-256"} by {
      assert OLD in map[OLD := 4096];
    }
  }

  lemma SingleFlatMap<T, U>(x: T, f: T -> seq<U>)
    ensures FlatMap([x], f) == f(x)
  {
    assert [x][..0] == [];
  }

  lemma SingleSorted<T>(x: T, less: (T, T) -> bool)
    ensures SortBy([x], less) == [x]
  {
    assert [x][1..] == [];
  }

  /** With nothing but users declared, the plan is the user operations. */
  lemma UsersOnly(d: Desired, live: Live)
    requires d.topics == [] && d.mirrors == [] && d.acls == [] && d.quotas == [] && d.bindings == []
    requires live.acls == [] && live.bindings == [] && live.mirrors.None?
    ensures Planned(d, live) == UserOps(d.users, ScramMap(live.credentials), d.rotatePasswords)
  {
    NoTopicOrAcl(d, live);
    NoQuotaBindingOrMirror(d, live);
    var u := UserOps(d.users, ScramMap(live.credentials), d.rotatePasswords);
    assert [] + [] + [] + u + [] == u;
  }

  lemma NoTopicOrAcl(d: Desired, live: Live)
    requires d.topics == [] && d.acls == [] && live.acls == [] && live.mirrors.None?
    ensures GuardedOps(d, live) == []
  {
    assert TopicOps(d.topics, TopicMap(live.topics)) == [] && AclOps(d, live.acls) == [];
  }

  lemma NoQuotaBindingOrMirror(d: Desired, live: Live)
    requires d.mirrors == [] && d.quotas == [] && d.bindings == [] && live.bindings == []
    ensures QuotaOps(d.quotas, QuotaMap(live.quotas)) == []
    ensures BindingOps(d, live.bindings) == [] && MirrorPlan(d.mirrors, live.mirrors) == []
  {
  }

  lemma ChangeOp(scram: map<ScramId, int>) returns (op: Operation)
    requires scram == map[OLD := 4096]
    ensures UserStep(scram, false)(CHANGING) == [op]
    ensures op.action == UpdateScramCredential && op.mode == Unattributed
    ensures op.payload == ScramPayload(NEW, 0, "SCRAM-SHA-256", Some(PasswordRef("p")))
  {
    OnlyMechanism();
    op := UserStep(scram, false)(CHANGING)[0];
  }

  /** The mechanism change is the whole plan. */
  lemma OneChange(d: Desired, live: Live, du: DesiredUser, op: Operation)
    requires Planned(d, live) == UserOps([du], ScramMap(live.credentials), false)
    requires UserStep(ScramMap(live.credentials), false)(du) == [op] && GroupOf(op) == 0
    ensures Execution(d, live) == [op]
  {
    SingleSorted(du, OnKey(UserKey));
    SingleFlatMap(du, UserStep(ScramMap(live.credentials), false));
    SingleSorted(op, OpLess);
    SingleOrdered(op);
  }

  lemma OneChangePlanned() returns (op: Operation)
    ensures Execution(OneUser(), OneCredential()) == [op]
    ensures op.action == UpdateScramCredential && op.mode == Unattributed
    ensures op.payload == ScramPayload(NEW, 0, "SCRAM-SHA-256", Some(PasswordRef("p")))
  {
    var scram := ScramMap(OneCredential().credentials);
    OnlyMechanism();
    op := ChangeOp(scram);
    UsersOnly(OneUser(), OneCredential());
    OneChange(OneUser(), OneCredential(), CHANGING, op);
  }

  lemma SingleOrdered(op: Operation)
    requires GroupOf(op) == 0
    ensures Ordered([op]) == [op]
  {
    assert Filter([op], InGroup(0)) == [op] && Filter([op], InGroup(1)) == [] by { assert [op][..0] == []; }
    assert Filter([op], InGroup(2)) == [] && Filter([op], InGroup(3)) == [] by { assert [op][..0] == []; }
  }

  lemma TwoCalls(w: World, x: Call, y: Call, f: Faults)
    requires !IsMds(x) && !IsMds(y) && Accepts(w.store, x)
    requires !f.kafka(|w.kafkaCalls|) && f.kafka(|w.kafkaCalls| + 1)
    ensures RunCalls(w, [x, y], f).0.applied == w.applied + [x] && RunCalls(w, [x, y], f).0.store == Exec(w.store, x)
  {
    assert [x, y][1..] == [y];
  }

  lemma SingleRun(op: Operation, f: Faults, s: State, calls: seq<Call>)
    requires op.action == UpdateScramCredential && op.mode == Unattributed && op.payload.ScramPayload?
    requires op.payload.password.Some? && f.resolves(op.payload.password.value) && StoreCalls(op) == Some(calls)
    ensures Run([op], NO_APPROVALS, f, Start(s)).world == RunCalls(Start(s), calls, f).0
  {
    assert [op][..0] == [];
  }

  lemma OneUserFound()
    ensures FindUser(OneUser(), "u") == Some(CHANGING)
  {
  }

  lemma ChangeInterrupted()
    ensures var w := RunPlan(OneUser(), NO_APPROVALS, OneCredential(), SecondCallFails()).world;
      w.applied == [CallUpsertScram(NEW, 0)] && w.store == Exec(StateOf(OneCredential()), CallUpsertScram(NEW, 0))
  {
    var op := OneChangePlanned();
    FaultPositions();
    var x, y, s, f := CallUpsertScram(NEW, 0), CallDeleteScram(OLD), StateOf(OneCredential()), SecondCallFails();
    ChangeCalls(op);
    SinglePlanRun(OneUser(), OneCredential(), op, f, [x, y]);
    InterruptedCalls(s, x, y);
  }

  lemma InterruptedCalls(s: State, x: Call, y: Call)
    requires x == CallUpsertScram(NEW, 0) && y == CallDeleteScram(OLD)
    ensures var w := RunCalls(Start(s), [x, y], SecondCallFails()).0; w.applied == [x] && w.store == Exec(s, x)
  {
    FaultPositions();
    TwoCalls(Start(s), x, y, SecondCallFails());
  }

  lemma SinglePlanRun(d: Desired, live: Live, op: Operation, f: Faults, calls: seq<Call>)
    requires Execution(d, live) == [op]
    requires op.action == UpdateScramCredential && op.mode == Unattributed && op.payload.ScramPayload?
    requires op.payload.password.Some? && f.resolves(op.payload.password.value) && StoreCalls(op) == Some(calls)
    ensures RunPlan(d, NO_APPROVALS, live, f).world == RunCalls(Start(StateOf(live)), calls, f).0
  {
    SingleRun(op, f, StateOf(live), calls);
  }

  lemma ChangeCalls(op: Operation)
    requires op.action == UpdateScramCredential && op.payload == ScramPayload(NEW, 0, "SCRAM-SHA-256", Some(PasswordRef("p")))
    ensures StoreCalls(op) == Some([CallUpsertScram(NEW, 0), CallDeleteScram(OLD)])
  {
    assert |"SCRAM-SHA-256"| > 0;
    assert ScramCalls(op.payload) == [CallUpsertScram(NEW, 0), CallDeleteScram(OLD)];
  }

  lemma FaultPositions()
    ensures !SecondCallFails().kafka(0) && SecondCallFails().kafka(1) && SecondCallFails().resolves(PasswordRef("p"))
  {
  }

  lemma ResidueOf(s: State, applied: seq<Call>)
    requires s.scram == map[OLD := 4096] && applied == [CallUpsertScram(NEW, 0)]
    ensures Residue(OneUser(), s, applied, ScramCell(OLD))
    ensures {OLD, NEW} <= Exec(s, CallUpsertScram(NEW, 0)).scram.Keys
  {
    OneUserFound();
    OnlyMechanism();
    assert Touches(applied[0], ScramCell(NEW)) && !Touches(applied[0], ScramCell(OLD));
  }

  /** The upsert takes effect and the deletion fails: the old mechanism stays. */
  lemma ResidueHappens()
    ensures var w := RunPlan(OneUser(), NO_APPROVALS, OneCredential(), SecondCallFails()).world;
      Residue(OneUser(), StateOf(OneCredential()), w.applied, ScramCell(OLD)) && {OLD, NEW} <= w.store.scram.Keys
  {
    ChangeInterrupted();
    OnlyMechanism();
    ResidueOf(StateOf(OneCredential()), [CallUpsertScram(NEW, 0)]);
  }
}
