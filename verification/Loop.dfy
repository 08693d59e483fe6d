/** One reconciliation on the clients: observe, plan, apply. */
module Loop {
  import opened Basics
  import opened Model
  import opened Operations
  import opened Store
  import opened Executor
  import opened Diff
  import opened Intent
  import opened Convergence
  import opened Settling
  import Mirror

  method ListQuotas(quotas: map<Entity, map<string, real>>) returns (out: seq<QuotaState>)
    ensures QuotaMap(out) == quotas
  {
    var left := quotas.Keys;
    out := [];
    while left != {}
      invariant left <= quotas.Keys
      invariant QuotaMap(out) == map e | e in quotas && e !in left :: quotas[e]
      decreases |left|
    {
      var e :| e in left;
      var next := out + [QuotaState(e, quotas[e])];
      assert next[..|next| - 1] == out;
      out, left := next, left - {e};
    }
  }

  method ListScramCredentials(scram: map<ScramId, ScramEntry>) returns (out: seq<ScramCredential>)
    ensures ScramMap(out) == map id | id in scram :: scram[id].iterations
  {
    var left := scram.Keys;
    out := [];
    while left != {}
      invariant left <= scram.Keys
      invariant ScramMap(out) == map id | id in scram && id !in left :: scram[id].iterations
      decreases |left|
    {
      var id :| id in left;
      var next := out + [ScramCredential(id, scram[id].iterations)];
      assert next[..|next| - 1] == out;
      out, left := next, left - {id};
    }
  }

  method ListRoleBindings(bindings: set<Binding>) returns (out: seq<Binding>)
    ensures Members(out) == bindings
  {
    var left := bindings;
    out := [];
    while left != {}
      invariant left <= bindings && Members(out) == bindings - left
      decreases |left|
    {
      var b :| b in left;
      MembersSnoc(out, b);
      out, left := out + [b], left - {b};
    }
  }

  lemma MembersSnoc(xs: seq<Binding>, b: Binding)
    ensures Members(xs + [b]) == Members(xs) + {b}
  {
  }

  method Observe(k: KafkaClient, m: MdsClient, mirrors: Option<Mirror.Snapshot>) returns (live: Live)
    requires k.Valid()
    ensures StateOf(live) == Joined(k, m) && live.mirrors == mirrors
  {
    var quotas := ListQuotas(k.quotas);
    var credentials := ListScramCredentials(k.scram);
    var bindings := ListRoleBindings(m.bindings);
    live := Live(k.topics, k.acls, quotas, bindings, credentials, mirrors);
  }

  /** The plan's run on clients that have been called before. */
  lemma RunOnClients(d: Desired, ap: Approvals, live: Live, f: Faults, ks: seq<Call>, ms: seq<Call>)
    ensures var a := Run(Ordered(Compute(d, live)), ap, f, World(StateOf(live), ks, ms, [StateOf(live)], []));
            var o := RunPlan(d, ap, live, Later(f, |ks|, |ms|));
            a.results == o.results && a.world == Logged(o.world, ks, ms)
  {
    var s := StateOf(live);
    assert ks + [] == ks && ms + [] == ms;
    assert Logged(Start(s), ks, ms) == World(s, ks, ms, [s], []);
    RunLogged(Ordered(Compute(d, live)), ap, f, Start(s), ks, ms);
  }

  /** Every cell of the store is at its goal. */
  ghost predicate Reached(d: Desired, ap: Approvals, s: State, end: State) {
    forall c :: At(end, c) == Goal(d, ap, s, c)
  }

  lemma PassReaches(d: Desired, ap: Approvals, live: Live, f: Faults)
    requires WellFormed(d) && HasPasswords(d) && StoreOnly(d, live) && Faultless(f)
    ensures Reached(d, ap, StateOf(live), RunPlan(d, ap, live, f).world.store)
  {
    forall c ensures At(RunPlan(d, ap, live, f).world.store, c) == Goal(d, ap, StateOf(live), c) {
      OnePass(d, ap, live, f, c);
    }
  }

  /** A pass runs the plan for what it observed, with the failures that come
      after the calls already made, and without failures leaves every cell of
      the store at its goal. */
  method ReconcilePass(k: KafkaClient, m: MdsClient, resolves: PasswordRef -> bool, external: (nat, Operation) -> bool,
                       d: Desired, mirrors: Option<Mirror.Snapshot>, ap: Approvals)
    returns (results: seq<OpResult>, live: Live)
    requires k.Valid()
    modifies k, m
    ensures k.Valid() && StateOf(live) == old(Joined(k, m)) && live.mirrors == mirrors
    ensures var f := Later(Faults(k.fails, m.fails, resolves, external), old(|k.calls|), old(|m.calls|));
            var o := RunPlan(d, ap, live, f);
            && results == o.results && Joined(k, m) == o.world.store
            && k.calls == old(k.calls) + o.world.kafkaCalls && m.calls == old(m.calls) + o.world.mdsCalls
            && (WellFormed(d) && HasPasswords(d) && StoreOnly(d, live) && Faultless(f)
                ==> Reached(d, ap, old(Joined(k, m)), Joined(k, m)))
  {
    live := Observe(k, m, mirrors);
    var ops := ComputePlan(d, live);
    ghost var world;
    ghost var ks, ms := k.calls, m.calls;
    results, world := Apply(k, m, resolves, external, ops, ap);
    ghost var all := Faults(k.fails, m.fails, resolves, external);
    RunOnClients(d, ap, live, all, ks, ms);
    ghost var f := Later(all, |ks|, |ms|);
    if WellFormed(d) && HasPasswords(d) && StoreOnly(d, live) && Faultless(f) { PassReaches(d, ap, live, f); }
  }
}
