/** Importing ACLs, continued: raw tuples become one policy per principal, and
    the result is compiled back and compared with the live set. */
module ImportPolicies {
  import opened Basics
  import opened Model
  import opened ManagedSet
  import opened Access
  import opened Manifests
  import opened Names
  import opened ImportAcl

  // ---- grouping ----------------------------------------------------------

  datatype RuleKey = RuleKey(permission: string, host: string, resourceType: string, resourceName: string, patternType: string)

  type RuleMap = map<RuleKey, set<string>>
  type Grouping = map<string, RuleMap>

  function KeyOf(a: Acl): RuleKey { RuleKey(a.permission, a.host, a.resourceType, a.resourceName, a.patternType) }

  function AclOf(principal: string, k: RuleKey, op: string): Acl {
    Acl(principal, k.host, k.resourceType, k.resourceName, k.patternType, op, k.permission)
  }

  function InRules(principal: string, m: RuleMap): set<Acl> { set k, op | k in m && op in m[k] :: AclOf(principal, k, op) }

  predicate Has(g: Grouping, a: Acl) {
    a.principal in g && KeyOf(a) in g[a.principal] && a.operation in g[a.principal][KeyOf(a)]
  }

  function Put(g: Grouping, a: Acl): Grouping {
    var m := if a.principal in g then g[a.principal] else map[];
    g[a.principal := m[KeyOf(a) := (if KeyOf(a) in m then m[KeyOf(a)] else {}) + {a.operation}]]
  }

  lemma PutAdds(g: Grouping, a: Acl)
    ensures forall x :: Has(Put(g, a), x) <==> Has(g, x) || x == a
  {
    forall x ensures Has(Put(g, a), x) <==> Has(g, x) || x == a {
      if x.principal == a.principal && KeyOf(x) == KeyOf(a) {
        assert x == AclOf(a.principal, KeyOf(a), x.operation) && a == AclOf(a.principal, KeyOf(a), a.operation);
      }
    }
  }

  predicate Holds(raw: seq<Acl>, p: string) { exists a :: a in raw && a.principal == p }

  lemma HoldsSnoc(done: seq<Acl>, a: Acl, p: string)
    ensures Holds(done + [a], p) <==> Holds(done, p) || p == a.principal
  {
    assert a in done + [a];
  }

  method GroupRules(raw: seq<Acl>) returns (byPrincipal: Grouping, principals: seq<string>)
    ensures forall a :: Has(byPrincipal, a) <==> a in raw
    ensures forall p :: p in principals <==> p in byPrincipal
    ensures Once(principals) && forall p :: p in principals <==> Holds(raw, p)
  {
    byPrincipal, principals := map[], [];
    for i := 0 to |raw|
      invariant forall a :: Has(byPrincipal, a) <==> a in raw[..i]
      invariant forall p :: p in principals <==> p in byPrincipal
      invariant Once(principals) && forall p :: p in principals <==> Holds(raw[..i], p)
    {
      assert raw[..i + 1] == raw[..i] + [raw[i]];
      forall p { HoldsSnoc(raw[..i], raw[i], p); }
      if raw[i].principal !in byPrincipal { principals := principals + [raw[i].principal]; }
      PutAdds(byPrincipal, raw[i]);
      byPrincipal := Put(byPrincipal, raw[i]);
    }
    assert raw[..|raw|] == raw;
  }

  // ---- rules and policies ------------------------------------------------

  function RuleFor(principal: string, k: RuleKey, ops: set<string>): Rule {
    Rule(principal, k.permission, k.host, k.resourceType, k.resourceName, k.patternType, SortedKeys(ops))
  }

  function RuleSet(rules: seq<Rule>): set<Acl> { set a | a in PolicyAcls(rules) }

  predicate RuleLess(x: Rule, y: Rule) {
    if x.resourceType != y.resourceType then StrLess(x.resourceType, y.resourceType)
    else if x.resourceName != y.resourceName then StrLess(x.resourceName, y.resourceName)
    else if x.patternType != y.patternType then StrLess(x.patternType, y.patternType)
    else StrLess(x.permission, y.permission)
  }

  lemma RuleCompiles(principal: string, k: RuleKey, ops: set<string>)
    ensures (set a | a in RuleStep()(RuleFor(principal, k, ops))) == Compiled(set op | op in ops :: AclOf(principal, k, op))
  {
    SortedKeysMembers(ops);
    var tuples := set op | op in ops :: AclOf(principal, k, op);
    forall a ensures a in RuleStep()(RuleFor(principal, k, ops)) <==> a in Compiled(tuples) {
      if a.operation in ops && a in RuleStep()(RuleFor(principal, k, ops)) {
        assert AclOf(principal, k, a.operation) in tuples && Defaulted(AclOf(principal, k, a.operation)) == a;
      }
      if a in Compiled(tuples) { var x :| x in tuples && Defaulted(x) == a; }
    }
  }

  lemma RuleSetSnoc(rules: seq<Rule>, r: Rule)
    ensures RuleSet(rules + [r]) == RuleSet(rules) + set a | a in RuleStep()(r)
  {
    assert (rules + [r])[..|rules|] == rules;
  }

  lemma RuleSetSorted(rules: seq<Rule>)
    ensures RuleSet(SortBy(rules, RuleLess)) == RuleSet(rules)
  {
    SortPermutes(rules, RuleLess);
    forall a ensures a in PolicyAcls(SortBy(rules, RuleLess)) <==> a in PolicyAcls(rules) {
      FlatMapMember(rules, RuleStep(), a);
      FlatMapMember(SortBy(rules, RuleLess), RuleStep(), a);
    }
  }

  function InKeys(principal: string, m: RuleMap, keys: set<RuleKey>): set<Acl> {
    set k, op | k in m && k in keys && op in m[k] :: AclOf(principal, k, op)
  }

  lemma InKeysMore(principal: string, m: RuleMap, done: set<RuleKey>, k: RuleKey)
    requires k in m
    ensures InKeys(principal, m, done + {k}) == InKeys(principal, m, done) + set op | op in m[k] :: AclOf(principal, k, op)
  {
  }

  predicate RulesFor(principal: string, rules: seq<Rule>) { forall r :: r in rules ==> r.principal == principal }

  /** The rules of one principal compile to its grouped tuples. */
  method RulesOf(principal: string, m: RuleMap) returns (rules: seq<Rule>)
    ensures RuleSet(rules) == Compiled(InRules(principal, m))
    ensures (rules == [] <==> m == map[]) && RulesFor(principal, rules)
  {
    rules := [];
    var left := m.Keys;
    while left != {}
      invariant left <= m.Keys && RuleSet(rules) == Compiled(InKeys(principal, m, m.Keys - left))
      invariant (rules == [] <==> left == m.Keys) && RulesFor(principal, rules)
      decreases |left|
    {
      var k :| k in left;
      InKeysMore(principal, m, m.Keys - left, k);
      assert (m.Keys - left) + {k} == m.Keys - (left - {k});
      CompiledUnion(InKeys(principal, m, m.Keys - left), set op | op in m[k] :: AclOf(principal, k, op));
      RuleCompiles(principal, k, m[k]);
      RuleSetSnoc(rules, RuleFor(principal, k, m[k]));
      rules, left := rules + [RuleFor(principal, k, m[k])], left - {k};
    }
    assert InKeys(principal, m, m.Keys - {}) == InRules(principal, m);
    RuleSetSorted(rules);
    SortPermutes(rules, RuleLess);
    rules := SortBy(rules, RuleLess);
  }

  function PolicyName(): Policy -> string { (p: Policy) => p.name }

  /** The principal of a policy, that of each of its rules. */
  function Principal(): Policy -> string { (p: Policy) => if p.rules == [] then "" else p.rules[0].principal }

  function Principals(policies: seq<Policy>): set<string> { set q | q in policies :: Principal()(q) }

  /** One policy for each of the principals. */
  ghost predicate OnePerPrincipal(policies: seq<Policy>, principals: set<string>) {
    && Unique(policies, Principal()) && Principals(policies) == principals
    && forall q :: q in policies ==>
         q.rules != [] && RulesFor(Principal()(q), q.rules) && Numbered("imported-" + Slugged(Principal()(q)), q.name)
  }

  lemma OneMore(policies: seq<Policy>, done: seq<string>, q: Policy, p: string)
    requires OnePerPrincipal(policies, set x | x in done) && p !in done
    requires q.rules != [] && RulesFor(p, q.rules) && Numbered("imported-" + Slugged(p), q.name)
    ensures OnePerPrincipal(policies + [q], set x | x in done + [p])
  {
    assert q.rules[0] in q.rules;
    forall i | 0 <= i < |policies| ensures Principal()(policies[i]) != p {
      assert policies[i] in policies && Principal()(policies[i]) in Principals(policies);
    }
    forall x | x in Principals(policies) + {p} ensures x in Principals(policies + [q]) {
      if x == p { assert q in policies + [q]; }
      else {
        var r :| r in policies && Principal()(r) == x;
        assert r in policies + [q];
      }
    }
    assert (set x | x in done + [p]) == (set x | x in done) + {p};
  }

  lemma OnePerPrincipalSorted(policies: seq<Policy>, principals: set<string>)
    requires OnePerPrincipal(policies, principals)
    ensures OnePerPrincipal(SortOn(policies, PolicyName()), principals)
  {
    SortPermutes(policies, OnKey(PolicyName()));
    UniquePermutation(policies, SortOn(policies, PolicyName()), Principal());
  }

  lemma PolicySetSnoc(policies: seq<Policy>, p: Policy)
    ensures PolicySet(policies + [p]) == PolicySet(policies) + RuleSet(p.rules)
  {
  }

  lemma PolicySetSorted(policies: seq<Policy>)
    ensures PolicySet(SortOn(policies, PolicyName())) == PolicySet(policies)
  {
    SortPermutes(policies, OnKey(PolicyName()));
  }

  ghost function Of(g: Grouping, principals: seq<string>): set<Acl> {
    set p, k, op | p in principals && p in g && k in g[p] && op in g[p][k] :: AclOf(p, k, op)
  }

  lemma OfMore(g: Grouping, done: seq<string>, p: string)
    requires p in g
    ensures Of(g, done + [p]) == Of(g, done) + InRules(p, g[p])
  {
  }

  lemma OfAll(g: Grouping, principals: seq<string>, raw: seq<Acl>)
    requires (forall a :: Has(g, a) <==> a in raw) && forall p :: p in principals <==> p in g
    ensures Of(g, principals) == Members(raw)
  {
    forall a ensures a in Of(g, principals) <==> a in raw {
      if a in raw { assert Has(g, a) && a == AclOf(a.principal, KeyOf(a), a.operation); }
      if a in Of(g, principals) {
        var p, k, op :| p in principals && p in g && k in g[p] && op in g[p][k] && a == AclOf(p, k, op);
        assert Has(g, a);
      }
    }
  }

  /** One policy per principal under distinct names; compiling them gives back
      the raw tuples with defaults filled in. */
  method BuildPolicies(raw: seq<Acl>) returns (policies: seq<Policy>)
    ensures PolicySet(policies) == Compiled(Members(raw)) && (raw == [] ==> policies == [])
    ensures Unique(policies, PolicyName()) && OnePerPrincipal(policies, set a | a in raw :: a.principal)
    ensures forall i, j :: 0 <= i < j < |policies| ==> !StrLess(policies[j].name, policies[i].name)
  {
    if |raw| == 0 {
      assert Members(raw) == {} && Compiled({}) == {};
      return [];
    }
    var byPrincipal, principals := GroupRules(raw);
    SortedPrincipals(principals, raw);
    principals := SortOn(principals, Same());
    OfAll(byPrincipal, principals, raw);
    policies := PoliciesFor(byPrincipal, principals);
    PolicySetSorted(policies);
    OnePerPrincipalSorted(policies, set p | p in principals);
    SortUnique(policies, OnKey(PolicyName()), PolicyName());
    SortAscending(policies, PolicyName());
    policies := SortOn(policies, PolicyName());
  }

  lemma SortedPrincipals(principals: seq<string>, raw: seq<Acl>)
    requires Once(principals) && forall p :: p in principals <==> Holds(raw, p)
    ensures var sorted := SortOn(principals, Same());
      && Once(sorted) && (forall p :: p in sorted <==> p in principals)
      && (set p | p in sorted) == set a | a in raw :: a.principal
  {
    SortPermutes(principals, OnKey(Same()));
    UniquePermutation(principals, SortOn(principals, Same()), Same());
  }

  method PoliciesFor(byPrincipal: Grouping, principals: seq<string>) returns (policies: seq<Policy>)
    requires Once(principals) && forall p :: p in principals ==> p in byPrincipal && byPrincipal[p] != map[]
    ensures PolicySet(policies) == Compiled(Of(byPrincipal, principals)) && Unique(policies, PolicyName())
    ensures OnePerPrincipal(policies, set p | p in principals)
  {
    var taken: set<string> := {};
    policies := [];
    for i := 0 to |principals|
      invariant PolicySet(policies) == Compiled(Of(byPrincipal, principals[..i]))
      invariant PoliciesNamed(policies, taken)
      invariant OnePerPrincipal(policies, set p | p in principals[..i])
    {
      var p := principals[i];
      assert principals[..i + 1] == principals[..i] + [p];
      var policy, taken' := BuildPolicy(p, byPrincipal[p], taken);
      PolicyStep(byPrincipal, principals[..i], p, policies, policy);
      OneMore(policies, principals[..i], policy, p);
      PoliciesNamedSnoc(policies, policy, taken, taken');
      policies, taken := policies + [policy], taken';
    }
    assert principals[..|principals|] == principals;
  }

  ghost predicate PoliciesNamed(policies: seq<Policy>, taken: set<string>) {
    Unique(policies, PolicyName()) && forall q :: q in policies ==> q.name in taken
  }

  lemma PoliciesNamedSnoc(policies: seq<Policy>, q: Policy, taken: set<string>, taken': set<string>)
    requires PoliciesNamed(policies, taken) && q.name !in taken && taken' == taken + {q.name}
    ensures PoliciesNamed(policies + [q], taken')
  {
  }

  lemma PolicyStep(g: Grouping, done: seq<string>, p: string, policies: seq<Policy>, q: Policy)
    requires p in g && PolicySet(policies) == Compiled(Of(g, done)) && RuleSet(q.rules) == Compiled(InRules(p, g[p]))
    ensures PolicySet(policies + [q]) == Compiled(Of(g, done + [p]))
  {
    OfMore(g, done, p);
    CompiledUnion(Of(g, done), InRules(p, g[p]));
    PolicySetSnoc(policies, q);
  }

  method BuildPolicy(p: string, m: RuleMap, taken: set<string>) returns (policy: Policy, taken': set<string>)
    requires m != map[]
    ensures RuleSet(policy.rules) == Compiled(InRules(p, m)) && policy.rules != [] && RulesFor(p, policy.rules)
    ensures policy.name !in taken && taken' == taken + {policy.name} && Numbered("imported-" + Slugged(p), policy.name)
  {
    var base := Slug(p);
    var name;
    name, taken' := DisambiguateName("imported-" + base, taken);
    var rules := RulesOf(p, m);
    policy := Policy(name, rules);
  }

  // ---- the round trip ----------------------------------------------------

  function Each(topics: seq<KafkaTopic>): set<KafkaTopic> { set tp | tp in topics }

  /** Compiles the topics and policies and collects every tuple. */
  method CompileAll(topics: seq<KafkaTopic>, policies: seq<Policy>) returns (all: seq<Acl>)
    ensures Members(all) == Granted(Each(topics)) + PolicySet(policies)
  {
    var granted := CompileTopics(topics);
    var held := CompilePolicies(policies);
    MembersConcat(granted, held);
    all := granted + held;
  }

  method CompileTopics(topics: seq<KafkaTopic>) returns (all: seq<Acl>)
    ensures Members(all) == Granted(Each(topics))
  {
    all := [];
    for i := 0 to |topics|
      invariant Members(all) == Granted(Each(topics[..i]))
    {
      assert topics[..i + 1] == topics[..i] + [topics[i]];
      var acls := CompileTopic(topics[i].Resolved(), topics[i].access);
      GrantedSnoc(topics[..i], topics[i]);
      MembersConcat(all, acls);
      all := all + acls;
    }
    assert topics[..|topics|] == topics;
  }

  method CompilePolicies(policies: seq<Policy>) returns (all: seq<Acl>)
    ensures Members(all) == PolicySet(policies)
  {
    all := [];
    for i := 0 to |policies|
      invariant Members(all) == PolicySet(policies[..i])
    {
      assert policies[..i + 1] == policies[..i] + [policies[i]];
      var acls := CompilePolicy(policies[i].rules);
      PolicySetSnoc(policies[..i], policies[i]);
      MembersConcat(all, acls);
      all := all + acls;
    }
    assert policies[..|policies|] == policies;
  }

  lemma GrantedSnoc(done: seq<KafkaTopic>, tp: KafkaTopic)
    ensures Granted(Each(done + [tp])) == Granted(Each(done)) + set a | a in TopicAcls(tp.Resolved(), tp.access)
  {
    var before, after := AccessOf(Each(done)), AccessOf(Each(done + [tp]));
    assert forall x :: x in after <==> x in before || x == tp;
    OneTopicGrants(before, after, tp);
  }

  lemma OneTopicGrants(before: map<KafkaTopic, TopicAccess>, after: map<KafkaTopic, TopicAccess>, tp: KafkaTopic)
    requires forall x :: x in after <==> x in before || x == tp
    requires forall x :: x in before ==> before[x] == after[x]
    ensures GrantedBy(after) == GrantedBy(before) + set a | a in TopicAcls(tp.Resolved(), after[tp])
  {
    forall a | a in GrantedBy(before) ensures a in GrantedBy(after) {
      var x :| x in before && a in TopicAcls(x.Resolved(), before[x]);
      assert x in after && a in TopicAcls(x.Resolved(), after[x]);
    }
  }

  /** The check the importer runs: no refused request, and the same tuples. */
  method RoundTripsClean(topics: seq<KafkaTopic>, policies: seq<Policy>, acls: seq<Acl>) returns (clean: bool)
    ensures var compiled := Granted(Each(topics)) + PolicySet(policies);
            clean <==> ConflictFree(compiled) && compiled == Members(acls)
  {
    var all := CompileAll(topics, policies);
    var items := Stamped(all, Unattributed, false, NO_SOURCE);
    StampedIds(all, Unattributed, false, NO_SOURCE);
    NoRefusals(items);
    var desired, refused := BuildDesiredAcls(items);
    if |refused| > 0 { return false; }
    forall a ensures a in IdSet(desired) <==> a in IdSet(items) { DedupIds(items, a); }
    clean := IdSet(desired) == Members(acls);
  }
}
