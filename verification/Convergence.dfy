/** Whole runs of the plan on the reference store: what every run keeps at every
    moment, where a faultless run ends, and what a second pass repairs. */
module Convergence {
  import opened Basics
  import opened Model
  import opened Operations
  import opened Store
  import opened Executor
  import opened Diff
  import opened Intent
  import opened Soundness

  ghost predicate Touched(applied: seq<Call>, c: Cell) { exists x :: x in applied && Touches(x, c) }

  ghost predicate HasOrigin(d: Desired, s: State, op: Operation) { exists o :: Derived(d, s, op, o) }

  ghost predicate PlanOf(d: Desired, s: State, ops: seq<Operation>) {
    forall op :: op in ops ==> HasOrigin(d, s, op)
  }

  lemma PlanFront(d: Desired, s: State, ops: seq<Operation>)
    requires PlanOf(d, s, ops) && ops != []
    ensures PlanOf(d, s, ops[..|ops| - 1])
    ensures HasOrigin(d, s, ops[|ops| - 1])
  {
    assert forall op :: op in ops[..|ops| - 1] ==> op in ops;
  }

  /** The executed form of the plan for a live state. */
  function Execution(d: Desired, live: Live): seq<Operation> { Ordered(Compute(d, live)) }

  function RunPlan(d: Desired, ap: Approvals, live: Live, f: Faults): Outcome {
    Run(Execution(d, live), ap, f, Start(StateOf(live)))
  }

  lemma ExecutionMembers(d: Desired, live: Live, op: Operation)
    ensures op in Execution(d, live) <==> op in Compute(d, live)
  {
    OrderedPermutes(Compute(d, live));
    SameMembers(Execution(d, live), Compute(d, live), op);
  }

  lemma ExecutionIsPlan(d: Desired, live: Live)
    ensures PlanOf(d, StateOf(live), Execution(d, live))
  {
    forall op | op in Execution(d, live) ensures HasOrigin(d, StateOf(live), op) {
      ExecutionMembers(d, live, op);
      var o := PlannedOrigin(d, live, op);
    }
  }

  // ---- every moment of every run -----------------------------------------

  /** The cell holds its goal value once an applied call touched it and its
      original value before that, in the store and in every earlier state. */
  ghost predicate Tracked(d: Desired, ap: Approvals, s: State, c: Cell, w: World) {
    && At(w.store, c) == (if Touched(w.applied, c) then Goal(d, ap, s, c) else At(s, c))
    && forall i :: 0 <= i < |w.trace| ==> At(w.trace[i], c) == At(s, c) || At(w.trace[i], c) == Goal(d, ap, s, c)
  }

  lemma AttemptTracked(d: Desired, ap: Approvals, s: State, c: Cell, w: World, call: Call, f: Faults)
    requires Tracked(d, ap, s, c, w)
    requires Touches(call, c) ==> Effect(call, c) == Goal(d, ap, s, c)
    ensures Tracked(d, ap, s, c, Attempt(w, call, f))
  {
    if !Fails(w, call, f) {
      ExecAt(w.store, call, c);
      var applied := w.applied + [call];
      assert applied[|w.applied|] == call;
      if x :| x in w.applied && Touches(x, c) { assert x in applied; }
    }
  }

  lemma {:induction false} RunCallsTracked(d: Desired, ap: Approvals, s: State, c: Cell, w: World, cs: seq<Call>, f: Faults)
    requires Tracked(d, ap, s, c, w)
    requires forall call :: call in cs && Touches(call, c) ==> Effect(call, c) == Goal(d, ap, s, c)
    ensures Tracked(d, ap, s, c, RunCalls(w, cs, f).0)
    decreases |cs|
  {
    if cs != [] {
      assert cs[0] in cs;
      AttemptTracked(d, ap, s, c, w, cs[0], f);
      if !Fails(w, cs[0], f) { RunCallsTracked(d, ap, s, c, Attempt(w, cs[0], f), cs[1..], f); }
    }
  }

  lemma StepTracked(d: Desired, ap: Approvals, s: State, c: Cell, out: Outcome, op: Operation, o: Origin, f: Faults)
    requires WellFormed(d) && Derived(d, s, op, o) && Tracked(d, ap, s, c, out.world)
    ensures Tracked(d, ap, s, c, StepOp(out, op, ap, f).world)
  {
    if Dispatchable(op, ap) && StoreCalls(op).Some? {
      var cs := StoreCalls(op).value;
      forall call | call in cs && Touches(call, c) ensures Effect(call, c) == Goal(d, ap, s, c) {
        Sound(d, ap, s, op, o, call, c);
      }
      RunCallsTracked(d, ap, s, c, out.world, cs, f);
    }
    StepWorld(out, op, ap, f);
  }

  /** A step leaves the world alone or makes the operation's calls. */
  lemma StepWorld(out: Outcome, op: Operation, ap: Approvals, f: Faults)
    ensures var w := StepOp(out, op, ap, f).world;
      || w == out.world
      || (Dispatchable(op, ap) && StoreCalls(op).Some? && w == RunCalls(out.world, StoreCalls(op).value, f).0)
  {
  }

  lemma {:induction false} RunTracked(d: Desired, ap: Approvals, s: State, c: Cell, ops: seq<Operation>, f: Faults)
    requires WellFormed(d) && PlanOf(d, s, ops)
    ensures Tracked(d, ap, s, c, Run(ops, ap, f, Start(s)).world)
  {
    if ops != [] {
      var front, last := ops[..|ops| - 1], ops[|ops| - 1];
      PlanFront(d, s, ops);
      RunTracked(d, ap, s, c, front, f);
      var o :| Derived(d, s, last, o);
      StepTracked(d, ap, s, c, Run(front, ap, f, Start(s)), last, o, f);
    }
  }

  /** Under any approvals and any faults, at every moment of the run each cell
      holds either its original value or its goal value. */
  lemma NothingElse(d: Desired, ap: Approvals, live: Live, f: Faults, st: State, c: Cell)
    requires WellFormed(d) && st in RunPlan(d, ap, live, f).world.trace
    ensures At(st, c) == At(StateOf(live), c) || At(st, c) == Goal(d, ap, StateOf(live), c)
  {
    ExecutionIsPlan(d, live);
    RunTracked(d, ap, StateOf(live), c, Execution(d, live), f);
  }

  // ---- frame and consent -------------------------------------------------

  /** Nothing declared, and nothing in a managed scope, concerns this cell. */
  predicate Outside(d: Desired, c: Cell) {
    match c
    case PartitionsCell(t) => FindTopic(d, t).None?
    case ReplicasCell(t) => FindTopic(d, t).None?
    case ConfigCell(t, _) => FindTopic(d, t).None?
    case AclCell(a) => FindAcl(d, a).None? && AclScope(a) !in PruneScope(d)
    case BindingCell(b) => FindBinding(d, b).None? && BindingScope(b) !in d.bindingScope
    case QuotaCell(e, _) => FindQuota(d, e).None?
    case ScramCell(id) => FindUser(d, id.user).None?
  }

  /** Whatever is outside stays exactly as it began, at every moment. */
  lemma Frame(d: Desired, ap: Approvals, live: Live, f: Faults, st: State, c: Cell)
    requires WellFormed(d) && st in RunPlan(d, ap, live, f).world.trace && Outside(d, c)
    ensures At(st, c) == At(StateOf(live), c)
  {
    NothingElse(d, ap, live, f, st, c);
  }

  predicate NoPruneConsent(d: Desired) {
    && (forall k :: k in PruneScope(d) ==> !PruneScope(d)[k].prune)
    && (forall k :: k in d.bindingScope ==> !d.bindingScope[k].prune)
  }

  /** The goal without approvals and consent drops nothing. */
  lemma ConsentedGoal(d: Desired, s: State, c: Cell)
    requires NoPruneConsent(d) && At(s, c).Some?
    ensures !(c.ScramCell? && Replaced(d, s, c.id)) ==> Goal(d, NO_APPROVALS, s, c).Some?
    ensures c.PartitionsCell? ==> Goal(d, NO_APPROVALS, s, c) == At(s, c)
  {
  }

  /** Without approvals and without prune consent nothing disappears and no
      partition count changes, except for the old mechanism of a mechanism change. */
  lemma Consent(d: Desired, live: Live, f: Faults, st: State, c: Cell)
    requires WellFormed(d) && NoPruneConsent(d)
    requires st in RunPlan(d, NO_APPROVALS, live, f).world.trace
    ensures At(StateOf(live), c).Some? && !(c.ScramCell? && Replaced(d, StateOf(live), c.id)) ==> At(st, c).Some?
    ensures c.PartitionsCell? && At(StateOf(live), c).Some? ==> At(st, c) == At(StateOf(live), c)
  {
    NothingElse(d, NO_APPROVALS, live, f, st, c);
    if At(StateOf(live), c).Some? { ConsentedGoal(d, StateOf(live), c); }
  }

  // ---- which calls took effect -------------------------------------------

  ghost predicate AppliedFrom(ops: seq<Operation>, ap: Approvals, applied: seq<Call>) {
    forall x :: x in applied ==> exists op :: op in ops && MakesCall(op, ap, x)
  }

  /** The applied calls of a run of calls: an extension by calls among them,
      and by all of them when none fails. */
  ghost predicate Extends(before: seq<Call>, cs: seq<Call>, after: seq<Call>, all: bool) {
    && before <= after && (forall x :: x in after ==> x in before || x in cs)
    && (all ==> forall x :: x in cs ==> x in after)
  }

  lemma ExtendsFirst(before: seq<Call>, cs: seq<Call>, after: seq<Call>, all: bool)
    requires cs != [] && Extends(before + [cs[0]], cs[1..], after, all)
    ensures Extends(before, cs, after, all)
  {
    assert cs == [cs[0]] + cs[1..];
    assert (before + [cs[0]])[|before|] == cs[0] && before <= before + [cs[0]];
    assert cs[0] in before + [cs[0]];
    assert after[|before|] == cs[0];
  }

  lemma {:induction false} RunCallsApplied(w: World, cs: seq<Call>, f: Faults)
    ensures Extends(w.applied, cs, RunCalls(w, cs, f).0.applied, RunCalls(w, cs, f).1)
    decreases |cs|
  {
    if cs != [] && !Fails(w, cs[0], f) {
      RunCallsApplied(Attempt(w, cs[0], f), cs[1..], f);
      ExtendsFirst(w.applied, cs, RunCalls(w, cs, f).0.applied, RunCalls(w, cs, f).1);
    }
  }

  lemma StepApplied(out: Outcome, op: Operation, ap: Approvals, f: Faults)
    ensures var out' := StepOp(out, op, ap, f);
      && out.world.applied <= out'.world.applied
      && forall x :: x in out'.world.applied ==> x in out.world.applied || MakesCall(op, ap, x)
  {
    if StoreCalls(op).Some? { RunCallsApplied(out.world, StoreCalls(op).value, f); }
  }

  lemma {:induction false} RunApplied(ops: seq<Operation>, ap: Approvals, f: Faults, s: State)
    ensures AppliedFrom(ops, ap, Run(ops, ap, f, Start(s)).world.applied)
  {
    if ops != [] {
      var front, last := ops[..|ops| - 1], ops[|ops| - 1];
      RunApplied(front, ap, f, s);
      StepApplied(Run(front, ap, f, Start(s)), last, ap, f);
      assert forall op :: op in front ==> op in ops;
      assert last in ops;
    }
  }

  // ---- authenticable throughout ------------------------------------------

  /** Every user with a credential in `s` still has one in `st`. */
  ghost predicate Authenticable(s: State, st: State) {
    forall id :: id in s.scram ==> exists id' :: id' in st.scram && id'.user == id.user
  }

  /** A deletion is applied only after the declared mechanism is in place. */
  ghost predicate Paired(d: Desired, applied: seq<Call>) {
    forall x :: x in applied && x.CallDeleteScram? ==>
      FindUser(d, x.id.user).Some? && Touched(applied, ScramCell(FindUser(d, x.id.user).value.id))
  }

  ghost predicate AllSound(d: Desired, ap: Approvals, s: State, applied: seq<Call>) {
    forall x, c :: x in applied && Touches(x, c) ==> Effect(x, c) == Goal(d, ap, s, c)
  }

  ghost predicate Guarded(d: Desired, ap: Approvals, s: State, w: World) {
    && (forall c :: Tracked(d, ap, s, c, w))
    && AllSound(d, ap, s, w.applied) && Paired(d, w.applied)
    && (forall i :: 0 <= i < |w.trace| ==> Authenticable(s, w.trace[i]))
  }

  lemma PairedIsAuthenticable(d: Desired, ap: Approvals, s: State, w: World)
    requires (forall c :: Tracked(d, ap, s, c, w)) && AllSound(d, ap, s, w.applied) && Paired(d, w.applied)
    ensures Authenticable(s, w.store)
  {
    forall id | id in s.scram ensures exists id' :: id' in w.store.scram && id'.user == id.user {
      assert Tracked(d, ap, s, ScramCell(id), w);
      if id !in w.store.scram {
        var x :| x in w.applied && Touches(x, ScramCell(id));
        assert x.CallDeleteScram? && x.id == id;
        var du := FindUser(d, id.user).value;
        assert Tracked(d, ap, s, ScramCell(du.id), w);
        assert du.id in w.store.scram && du.id.user == id.user;
      }
    }
  }

  /** A call that writes goal values, and deletes a credential only in favour
      of the declared one, keeps every user able to authenticate. */
  lemma AttemptGuarded(d: Desired, ap: Approvals, s: State, w: World, call: Call, f: Faults)
    requires Guarded(d, ap, s, w)
    requires forall c :: Touches(call, c) ==> Effect(call, c) == Goal(d, ap, s, c)
    requires call.CallDeleteScram? ==>
      FindUser(d, call.id.user).Some? && Touched(w.applied, ScramCell(FindUser(d, call.id.user).value.id))
    ensures Guarded(d, ap, s, Attempt(w, call, f))
  {
    var w' := Attempt(w, call, f);
    forall c ensures Tracked(d, ap, s, c, w') {
      assert Tracked(d, ap, s, c, w);
      AttemptTracked(d, ap, s, c, w, call, f);
    }
    assert AllSound(d, ap, s, w'.applied);
    forall c | Touched(w.applied, c) ensures Touched(w'.applied, c) {
      var x :| x in w.applied && Touches(x, c);
      assert x in w'.applied;
    }
    assert Paired(d, w'.applied);
    PairedIsAuthenticable(d, ap, s, w');
  }

  lemma ScramCallShape(d: Desired, ap: Approvals, s: State, op: Operation, o: Origin)
    requires WellFormed(d) && Derived(d, s, op, o) && Dispatchable(op, ap) && StoreCalls(op).Some?
    ensures forall x :: x in StoreCalls(op).value && x.CallDeleteScram? ==>
      o.FromUser? && StoreCalls(op).value == [CallUpsertScram(o.du.id, o.du.iterations), x]
      && x.id.user == o.du.id.user && FindUser(d, x.id.user) == Some(o.du)
    ensures forall x :: x in StoreCalls(op).value && x.CallUpsertScram? ==> FindUser(d, x.id.user).Some?
  {
    forall x | x in StoreCalls(op).value ensures OriginCall(o, x) { OriginCalls(d, s, op, o, x); }
    if o.FromUser? {
      LookupUnique(d.users, UserKey, o.du);
      UserCallPair(o.du, s.scram, d.rotatePasswords, op);
    }
  }

  /** A user's operation upserts the declared credential, then may delete one
      of the same user. */
  lemma UserCallPair(du: DesiredUser, scram: map<ScramId, int>, rotate: bool, op: Operation)
    requires op in UserStep(scram, rotate)(du) && StoreCalls(op).Some?
    ensures forall x :: x in StoreCalls(op).value && x.CallDeleteScram? ==>
      StoreCalls(op).value == [CallUpsertScram(du.id, du.iterations), x] && x.id.user == du.id.user
    ensures forall x :: x in StoreCalls(op).value && x.CallUpsertScram? ==> x.id == du.id
  {
    UserOpShape(du, scram, rotate, op);
  }

  lemma {:induction false} RunCallsGuarded(d: Desired, ap: Approvals, s: State, w: World, cs: seq<Call>, f: Faults)
    requires Guarded(d, ap, s, w)
    requires forall x, c :: x in cs && Touches(x, c) ==> Effect(x, c) == Goal(d, ap, s, c)
    requires forall x :: x in cs && x.CallDeleteScram? ==>
      FindUser(d, x.id.user).Some? &&
      (Touched(w.applied, ScramCell(FindUser(d, x.id.user).value.id)) ||
       (x != cs[0] && cs[0].CallUpsertScram? && cs[0].id == FindUser(d, x.id.user).value.id))
    ensures Guarded(d, ap, s, RunCalls(w, cs, f).0)
    decreases |cs|
  {
    if cs != [] {
      assert cs[0] in cs;
      AttemptGuarded(d, ap, s, w, cs[0], f);
      var w' := Attempt(w, cs[0], f);
      if !Fails(w, cs[0], f) {
        assert w'.applied[|w.applied|] == cs[0];
        forall c | Touched(w.applied, c) || Touches(cs[0], c) ensures Touched(w'.applied, c) {
          if Touched(w.applied, c) {
            var x :| x in w.applied && Touches(x, c);
            assert x in w'.applied;
          }
        }
        RunCallsGuarded(d, ap, s, w', cs[1..], f);
      }
    }
  }

  lemma StepGuarded(d: Desired, ap: Approvals, s: State, out: Outcome, op: Operation, o: Origin, f: Faults)
    requires WellFormed(d) && Derived(d, s, op, o) && Guarded(d, ap, s, out.world)
    ensures Guarded(d, ap, s, StepOp(out, op, ap, f).world)
  {
    if Dispatchable(op, ap) && StoreCalls(op).Some? {
      var cs := StoreCalls(op).value;
      forall x, c | x in cs && Touches(x, c) ensures Effect(x, c) == Goal(d, ap, s, c) {
        Sound(d, ap, s, op, o, x, c);
      }
      ScramCallShape(d, ap, s, op, o);
      RunCallsGuarded(d, ap, s, out.world, cs, f);
    }
  }

  lemma {:induction false} RunGuarded(d: Desired, ap: Approvals, s: State, ops: seq<Operation>, f: Faults)
    requires WellFormed(d) && PlanOf(d, s, ops)
    ensures Guarded(d, ap, s, Run(ops, ap, f, Start(s)).world)
  {
    if ops == [] {
      assert forall c :: !Touched([], c);
    } else {
      PlanFront(d, s, ops);
      RunGuarded(d, ap, s, ops[..|ops| - 1], f);
      var o :| Derived(d, s, ops[|ops| - 1], o);
      StepGuarded(d, ap, s, Run(ops[..|ops| - 1], ap, f, Start(s)), ops[|ops| - 1], o, f);
    }
  }

  /** At every moment of every planned run, between the two halves of a
      mechanism change included, a user who had a credential has one. */
  lemma AuthenticableThroughout(d: Desired, ap: Approvals, live: Live, f: Faults, st: State)
    requires WellFormed(d) && st in RunPlan(d, ap, live, f).world.trace
    ensures Authenticable(StateOf(live), st)
  {
    ExecutionIsPlan(d, live);
    RunGuarded(d, ap, StateOf(live), Execution(d, live), f);
  }

  // ---- a faultless run ---------------------------------------------------

  /** No mirror is involved, so no operation leaves the store's clients. */
  predicate StoreOnly(d: Desired, live: Live) { live.mirrors.None? && d.mirrors == [] }

  ghost predicate PlanOfStore(d: Desired, s: State, ops: seq<Operation>) {
    && (forall op :: op in ops ==> exists o :: Derived(d, s, op, o) && !o.FromFinding?)
    && (forall op: Operation :: op.action == CreateTopic ==> multiset(ops)[op] <= 1)
  }

  ghost predicate HasPasswords(d: Desired) { forall du :: du in d.users ==> du.password.Some? }

  lemma TopicCallsOnly(d: Desired, ap: Approvals, s: State, op: Operation, o: Origin, x: Call, c: Cell)
    requires Derived(d, s, op, o) && MakesCall(op, ap, x) && Touches(x, c)
    requires c.PartitionsCell? || c.ReplicasCell? || c.ConfigCell?
    ensures o.FromTopic?
  {
    OriginCalls(d, s, op, o, x);
  }

  /** For an absent topic the only planned call on it is its creation. */
  lemma CreatesOnly(d: Desired, ap: Approvals, s: State, op: Operation, o: Origin, x: Call, dt: DesiredTopic, c: Cell)
    requires WellFormed(d) && Derived(d, s, op, o) && dt in d.topics && dt.name !in s.topics
    requires MakesCall(op, ap, x) && Touches(x, c)
    requires (c.PartitionsCell? || c.ReplicasCell? || c.ConfigCell?) && c.topic == dt.name
    ensures op == CreateTopicOp(dt) && x == CallCreateTopic(dt.name, TopicOf(op.payload))
  {
    TopicCallsOnly(d, ap, s, op, o, x, c);
    TopicOriginCall(o.dt, s.topics, op, x);
    SameTopic(d, o.dt, dt);
    TopicCallShape(d, ap, s, op, dt, x);
  }

  lemma SameTopic(d: Desired, x: DesiredTopic, y: DesiredTopic)
    requires WellFormed(d) && x in d.topics && y in d.topics && x.name == y.name
    ensures x == y
  {
    LookupUnique(d.topics, TopicKey, x);
    LookupUnique(d.topics, TopicKey, y);
  }

  lemma TwoOccurrences(ops: seq<Operation>, op: Operation)
    requires op in ops
    ensures multiset(ops + [op])[op] >= 2
  {
    assert multiset(ops)[op] >= 1;
  }

  /** A planned topic creation finds the topic still absent. */
  lemma CreateInTurn(d: Desired, ap: Approvals, s: State, ops: seq<Operation>, dt: DesiredTopic, w: World)
    requires WellFormed(d) && PlanOfStore(d, s, ops + [CreateTopicOp(dt)]) && dt in d.topics && dt.name !in s.topics
    requires AppliedFrom(ops, ap, w.applied) && Tracked(d, ap, s, PartitionsCell(dt.name), w)
    ensures dt.name !in w.store.topics
  {
    var c := PartitionsCell(dt.name);
    if Touched(w.applied, c) {
      var x :| x in w.applied && Touches(x, c);
      var op :| op in ops && MakesCall(op, ap, x);
      assert op in ops + [CreateTopicOp(dt)];
      var o :| Derived(d, s, op, o) && !o.FromFinding?;
      CreatesOnly(d, ap, s, op, o, x, dt, c);
      TwoOccurrences(ops, op);
      assert false;
    }
  }

  /** A topic that exists keeps existing, and its count stays within the plan. */
  lemma PresentInTurn(d: Desired, ap: Approvals, s: State, dt: DesiredTopic, w: World)
    requires WellFormed(d) && dt in d.topics && dt.name in s.topics
    requires Tracked(d, ap, s, PartitionsCell(dt.name), w)
    ensures dt.name in w.store.topics
    ensures dt.partitions > s.topics[dt.name].partitions ==> w.store.topics[dt.name].partitions <= dt.partitions
  {
    LookupUnique(d.topics, TopicKey, dt);
  }

  lemma TopicCallShape(d: Desired, ap: Approvals, s: State, op: Operation, dt: DesiredTopic, call: Call)
    requires op in TopicStep(s.topics)(dt) && MakesCall(op, ap, call)
    ensures dt.name !in s.topics ==> op == CreateTopicOp(dt) && call.CallCreateTopic? && call.name == dt.name
    ensures dt.name in s.topics ==>
      || (call.CallUpdateConfig? && call.name == dt.name)
      || (call == CallCreatePartitions(dt.name, dt.partitions) && dt.partitions > s.topics[dt.name].partitions)
  {
    TopicOpShape(dt, s.topics, op);
  }

  /** The client accepts a planned call at its turn. */
  lemma AcceptsInTurn(d: Desired, ap: Approvals, s: State, ops: seq<Operation>, op: Operation, o: Origin, call: Call, w: World)
    requires WellFormed(d) && PlanOfStore(d, s, ops + [op]) && Derived(d, s, op, o) && !o.FromFinding?
    requires MakesCall(op, ap, call) && AppliedFrom(ops, ap, w.applied)
    requires forall c :: Tracked(d, ap, s, c, w)
    ensures Accepts(w.store, call)
  {
    if call.CallCreateTopic? || call.CallUpdateConfig? || call.CallCreatePartitions? {
      TopicCallsOnly(d, ap, s, op, o, call, if call.CallUpdateConfig? then ConfigCell(call.name, call.key) else PartitionsCell(call.name));
      var dt := o.dt;
      TopicCallShape(d, ap, s, op, dt, call);
      assert Tracked(d, ap, s, PartitionsCell(dt.name), w);
      if dt.name !in s.topics {
        CreateInTurn(d, ap, s, ops, dt, w);
      } else {
        PresentInTurn(d, ap, s, dt, w);
      }
    }
  }

  /** Each call of the step finds itself acceptable, so the step succeeds. */
  lemma {:induction false} RunCallsFaultless(w: World, cs: seq<Call>, f: Faults)
    requires Faultless(f) && |cs| <= 2
    requires |cs| > 0 ==> Accepts(w.store, cs[0])
    requires |cs| == 2 ==> cs[1].CallDeleteScram?
    ensures RunCalls(w, cs, f).1
    decreases |cs|
  {
    if cs != [] {
      RunCallsFaultless(Attempt(w, cs[0], f), cs[1..], f);
    }
  }

  lemma CallsShape(op: Operation)
    requires StoreCalls(op).Some?
    ensures var cs := StoreCalls(op).value; 1 <= |cs| <= 2 && (|cs| == 2 ==> cs[1].CallDeleteScram?)
    ensures !IsExternal(op)
  {
  }

  /** The only planned operations without a client call are findings about topics. */
  lemma NoCalls(op: Operation, d: Desired, s: State, o: Origin)
    requires HasPasswords(d) && Derived(d, s, op, o) && !o.FromFinding? && StoreCalls(op).None?
    ensures op.action == Rejected || op.action == UpdateReplicationFactor
  {
    match o
    case FromTopic(dt) => TopicOpShape(dt, s.topics, op);
    case FromQuota(dq) => QuotaOpShape(dq, s.quotas, op); QuotaCalls(op);
    case FromUser(du) => UserOpShape(du, s.scram, d.rotatePasswords, op); UserCalls(op, ALL_APPROVALS);
    case _ => GrantOriginRuns(d, s, op, o, ALL_APPROVALS);
  }

  /** Such findings are settled without a dispatch. */
  lemma FindingsSettled(op: Operation, ap: Approvals)
    requires op.action == Rejected || op.action == UpdateReplicationFactor
    ensures !Dispatchable(op, ap)
  {
  }

  /** In a faultless run every call the approvals let through takes effect. */
  lemma {:induction false} RunFaultless(d: Desired, ap: Approvals, s: State, ops: seq<Operation>, f: Faults)
    requires WellFormed(d) && HasPasswords(d) && Faultless(f) && PlanOfStore(d, s, ops)
    ensures Run(ops, ap, f, Start(s)).failedTopics == {}
    ensures forall op, x :: op in ops && MakesCall(op, ap, x) ==> x in Run(ops, ap, f, Start(s)).world.applied
  {
    if ops != [] {
      var front, last := ops[..|ops| - 1], ops[|ops| - 1];
      assert ops == front + [last];
      PlanOfStoreFront(d, s, front, last);
      RunFaultless(d, ap, s, front, f);
      assert last in ops;
      var o :| Derived(d, s, last, o) && !o.FromFinding?;
      StepFaultless(d, ap, s, front, last, o, f);
    }
  }

  lemma PlanOfStoreFront(d: Desired, s: State, front: seq<Operation>, last: Operation)
    requires PlanOfStore(d, s, front + [last])
    ensures PlanOfStore(d, s, front) && PlanOf(d, s, front)
  {
    forall op | op in front ensures exists o :: Derived(d, s, op, o) && !o.FromFinding? {
      assert op in front + [last];
    }
    forall op: Operation | op.action == CreateTopic ensures multiset(front)[op] <= 1 {
      assert multiset(front + [last])[op] <= 1;
    }
  }

  lemma StepFaultless(d: Desired, ap: Approvals, s: State, front: seq<Operation>, last: Operation, o: Origin, f: Faults)
    requires WellFormed(d) && HasPasswords(d) && Faultless(f) && PlanOfStore(d, s, front + [last])
    requires Derived(d, s, last, o) && !o.FromFinding?
    requires Run(front, ap, f, Start(s)).failedTopics == {}
    ensures var out' := StepOp(Run(front, ap, f, Start(s)), last, ap, f);
      && out'.failedTopics == {}
      && (forall x :: MakesCall(last, ap, x) ==> x in out'.world.applied)
      && (forall x :: x in Run(front, ap, f, Start(s)).world.applied ==> x in out'.world.applied)
  {
    if Dispatchable(last, ap) {
      DispatchedHasCalls(d, ap, s, last, o);
      FirstCallAccepted(d, ap, s, front, last, o, f);
    }
    StepOutcome(Run(front, ap, f, Start(s)), last, ap, f);
  }

  lemma DispatchedHasCalls(d: Desired, ap: Approvals, s: State, op: Operation, o: Origin)
    requires HasPasswords(d) && Derived(d, s, op, o) && !o.FromFinding? && Dispatchable(op, ap)
    ensures StoreCalls(op).Some?
  {
    if StoreCalls(op).None? {
      NoCalls(op, d, s, o);
      FindingsSettled(op, ap);
    }
  }

  /** A step that may run makes all of its calls, and one that may not makes none. */
  lemma StepOutcome(out: Outcome, op: Operation, ap: Approvals, f: Faults)
    requires Faultless(f) && out.failedTopics == {}
    requires Dispatchable(op, ap) ==>
      StoreCalls(op).Some? && StoreCalls(op).value != [] && Accepts(out.world.store, StoreCalls(op).value[0])
    ensures var out' := StepOp(out, op, ap, f);
      && out'.failedTopics == {}
      && (forall x :: MakesCall(op, ap, x) ==> x in out'.world.applied)
      && (forall x :: x in out.world.applied ==> x in out'.world.applied)
  {
    StepApplied(out, op, ap, f);
    if Dispatchable(op, ap) { StepSucceeds(out, op, ap, f); }
  }

  lemma FirstCallAccepted(d: Desired, ap: Approvals, s: State, front: seq<Operation>, last: Operation, o: Origin, f: Faults)
    requires WellFormed(d) && PlanOfStore(d, s, front + [last]) && Derived(d, s, last, o) && !o.FromFinding?
    requires Dispatchable(last, ap) && StoreCalls(last).Some?
    ensures StoreCalls(last).value != [] && Accepts(Run(front, ap, f, Start(s)).world.store, StoreCalls(last).value[0])
  {
    var w := Run(front, ap, f, Start(s)).world;
    PlanOfStoreFront(d, s, front, last);
    forall c ensures Tracked(d, ap, s, c, w) { RunTracked(d, ap, s, c, front, f); }
    RunApplied(front, ap, f, s);
    CallsShape(last);
    AcceptsInTurn(d, ap, s, front, last, o, StoreCalls(last).value[0], w);
  }

  lemma StepSucceeds(out: Outcome, op: Operation, ap: Approvals, f: Faults)
    requires Faultless(f) && out.failedTopics == {} && Dispatchable(op, ap)
    requires StoreCalls(op).Some? && StoreCalls(op).value != [] && Accepts(out.world.store, StoreCalls(op).value[0])
    ensures var out' := StepOp(out, op, ap, f);
      out'.failedTopics == {} && forall x :: x in StoreCalls(op).value ==> x in out'.world.applied
  {
    CallsShape(op);
    RunCallsFaultless(out.world, StoreCalls(op).value, f);
    RunCallsApplied(out.world, StoreCalls(op).value, f);
    StepRuns(out, op, ap, f);
  }

  /** A dispatched step whose calls all succeed. */
  lemma StepRuns(out: Outcome, op: Operation, ap: Approvals, f: Faults)
    requires Dispatchable(op, ap) && !Skips(op, out.failedTopics) && !IsExternal(op) && StoreCalls(op).Some?
    requires NeedsPassword(op.action) ==> f.resolves(op.payload.password.value)
    requires RunCalls(out.world, StoreCalls(op).value, f).1
    ensures var out' := StepOp(out, op, ap, f);
      out'.world == RunCalls(out.world, StoreCalls(op).value, f).0 && out'.failedTopics == out.failedTopics
  {
  }
}
