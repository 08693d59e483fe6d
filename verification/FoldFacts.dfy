/** Which live grants an import folds into the access blocks of topics, tuple by
    tuple and role by role. */
module FoldFacts {
  import opened Basics
  import opened Model
  import opened Access
  import opened Manifests
  import ImportAcl
  import ImportRbac
  import Rbac

  // ---- ACLs --------------------------------------------------------------

  /** On the literal resource the principal is allowed exactly `ops` from the host. */
  ghost predicate AllowedExactly(acls: set<Acl>, principal: string, host: string, resourceType: string, name: string, ops: set<string>) {
    forall op :: Acl(principal, host, resourceType, name, "literal", op, "Allow") in acls <==> op in ops
  }

  /** Writing and describing an imported topic, and no other operation on it,
      becomes a plain producer line. */
  ghost predicate ProducerLine(acls: set<Acl>, names: set<string>, principal: string, host: string, e: Entry) {
    && e.Produces? && e.topic in names
    && AllowedExactly(acls, principal, host, "topic", e.topic, {"Write", "Describe"})
    && e.producer == Producer(principal, if host == "*" then "" else host, [])
  }

  /** Reading and describing an imported topic becomes a plain consumer line, if
      the principal reads exactly one group from the same host. */
  ghost predicate ConsumerLine(acls: set<Acl>, names: set<string>, principal: string, host: string, e: Entry) {
    && e.Consumes? && e.topic in names
    && AllowedExactly(acls, principal, host, "topic", e.topic, {"Read", "Describe"})
    && (forall g :: AllowedExactly(acls, principal, host, "group", g, {"Read"}) <==> g == e.consumer.group)
    && e.consumer == Consumer(principal, if host == "*" then "" else host, e.consumer.group, [], [])
  }

  lemma OpsAre(acls: set<Acl>, h: ImportAcl.Holder, resourceType: string, name: string, ops: set<string>)
    ensures ImportAcl.OpsOn(acls, h, resourceType, name) == ops <==>
            AllowedExactly(acls, h.principal, h.host, resourceType, name, ops)
  {
    var on := ImportAcl.OpsOn(acls, h, resourceType, name);
    forall op ensures op in on <==> Acl(h.principal, h.host, resourceType, name, "literal", op, "Allow") in acls {
      var a := Acl(h.principal, h.host, resourceType, name, "literal", op, "Allow");
      if a in acls { assert ImportAcl.FoldEligible(a) && ImportAcl.HolderOf(a) == h; }
    }
  }

  lemma GroupsAre(acls: set<Acl>, h: ImportAcl.Holder, g: string)
    ensures g in ImportAcl.GroupsRead(acls, h) <==> AllowedExactly(acls, h.principal, h.host, "group", g, {"Read"})
  {
    ImportAcl.GroupsReadExact(acls, h, g);
    OpsAre(acls, h, "group", g, {"Read"});
  }

  lemma HolderLinesAre(acls: set<Acl>, names: set<string>, h: ImportAcl.Holder, e: Entry)
    ensures e in ImportAcl.HolderLines(acls, names, h) <==>
            ProducerLine(acls, names, h.principal, h.host, e) || ConsumerLine(acls, names, h.principal, h.host, e)
  {
    OpsAre(acls, h, "topic", e.topic, {"Write", "Describe"});
    OpsAre(acls, h, "topic", e.topic, {"Read", "Describe"});
    var gs := ImportAcl.GroupsRead(acls, h);
    forall g ensures g in gs <==> AllowedExactly(acls, h.principal, h.host, "group", g, {"Read"}) { GroupsAre(acls, h, g); }
    if e.Consumes? {
      assert gs == {e.consumer.group} <==> forall g :: g in gs <==> g == e.consumer.group;
    }
  }

  /** The access lines that live tuples fold into: exactly these, for whatever
      principal and host hold them. */
  lemma FoldedLinesAre(acls: set<Acl>, names: set<string>, e: Entry)
    ensures e in ImportAcl.FoldedLines(acls, names) <==>
            exists principal, host :: ProducerLine(acls, names, principal, host, e) || ConsumerLine(acls, names, principal, host, e)
  {
    if e in ImportAcl.FoldedLines(acls, names) {
      var a :| a in acls && e in ImportAcl.HolderLines(acls, names, ImportAcl.HolderOf(a));
      HolderLinesAre(acls, names, ImportAcl.HolderOf(a), e);
    }
    if principal, host :| ProducerLine(acls, names, principal, host, e) || ConsumerLine(acls, names, principal, host, e) {
      var h := ImportAcl.Holder(principal, host);
      HolderLinesAre(acls, names, h, e);
      var a := Acl(principal, host, "topic", e.topic, "literal", "Describe", "Allow");
      assert a in acls && ImportAcl.HolderOf(a) == h;
    }
  }

  // ---- role bindings -----------------------------------------------------

  /** The import lists exactly the scopes of known types whose cluster ids are there. */
  lemma ScopesListed(scopeType: string, c: Rbac.Clusters, scope: MdsScope)
    requires c.kafka != "" && Rbac.ResolvesTo(scopeType, c, scope)
    ensures scope in ImportRbac.ScopesFromConfig(c) <==>
            scopeType in {"kafka", "schema-registry", "connect", "ksql"} && Rbac.IdsConfigured(scopeType, c)
  {
  }

  /** A live Kafka role on a literal resource, whichever cluster it names. */
  predicate HasRole(rbs: seq<Binding>, principal: string, role: string, resourceType: string, name: string) {
    exists b :: b in rbs && b.principal == principal && b.role == role && b.scope.scopeType == "kafka"
                && b.resource == Some(Resource(resourceType, name, "literal"))
  }

  /** The write role on an imported topic becomes a plain producer line. */
  predicate WriterLine(rbs: seq<Binding>, names: set<string>, principal: string, e: Entry) {
    && e.Produces? && e.topic in names && HasRole(rbs, principal, "DeveloperWrite", "Topic", e.topic)
    && e.producer == Producer(principal, "", [])
  }

  /** Read roles become a plain consumer line if the principal has them on
      exactly one imported topic and on exactly one group. */
  ghost predicate ReaderLine(rbs: seq<Binding>, names: set<string>, principal: string, e: Entry) {
    && e.Consumes?
    && (forall t :: t in names && HasRole(rbs, principal, "DeveloperRead", "Topic", t) <==> t == e.topic)
    && (forall g :: HasRole(rbs, principal, "DeveloperRead", "Group", g) <==> g == e.consumer.group)
    && e.consumer == Consumer(principal, "", e.consumer.group, [], [])
  }

  lemma FoldsAre(b: Binding, names: set<string>, name: string)
    requires b.resource.Some? && b.resource.value.name == name
    ensures var kafka := b.scope.scopeType == "kafka" && b.resource.value.patternType == "literal";
      && (ImportRbac.FoldOf(b, names).Producing? <==>
            kafka && b.role == "DeveloperWrite" && b.resource.value.resourceType == "Topic" && name in names)
      && (ImportRbac.FoldOf(b, names).ReadingTopic? <==>
            kafka && b.role == "DeveloperRead" && b.resource.value.resourceType == "Topic" && name in names)
      && (ImportRbac.FoldOf(b, names).ReadingGroup? <==>
            kafka && b.role == "DeveloperRead" && b.resource.value.resourceType == "Group")
  {
  }

  lemma NamesAre(rbs: seq<Binding>, names: set<string>, principal: string, name: string)
    ensures name in ImportRbac.FoldedNames(rbs, names, ImportRbac.Producing, principal) <==>
            name in names && HasRole(rbs, principal, "DeveloperWrite", "Topic", name)
    ensures name in ImportRbac.FoldedNames(rbs, names, ImportRbac.ReadingTopic, principal) <==>
            name in names && HasRole(rbs, principal, "DeveloperRead", "Topic", name)
    ensures name in ImportRbac.FoldedNames(rbs, names, ImportRbac.ReadingGroup, principal) <==>
            HasRole(rbs, principal, "DeveloperRead", "Group", name)
  {
    forall b | b in rbs && b.resource.Some? && b.resource.value.name == name
      ensures b.resource == Some(Resource(b.resource.value.resourceType, name, b.resource.value.patternType)) {
      FoldsAre(b, names, name);
    }
  }

  lemma PrincipalLinesAre(rbs: seq<Binding>, names: set<string>, principal: string, e: Entry)
    ensures e in ImportRbac.RoleLinesOf(rbs, names, principal) <==>
            WriterLine(rbs, names, principal, e) || ReaderLine(rbs, names, principal, e)
  {
    var ts := ImportRbac.FoldedNames(rbs, names, ImportRbac.ReadingTopic, principal);
    var gs := ImportRbac.FoldedNames(rbs, names, ImportRbac.ReadingGroup, principal);
    NamesAre(rbs, names, principal, e.topic);
    forall n ensures n in ts <==> n in names && HasRole(rbs, principal, "DeveloperRead", "Topic", n)
             ensures n in gs <==> HasRole(rbs, principal, "DeveloperRead", "Group", n) {
      NamesAre(rbs, names, principal, n);
    }
    if e.Consumes? {
      assert ts == {e.topic} <==> forall t :: t in ts <==> t == e.topic;
      assert gs == {e.consumer.group} <==> forall g :: g in gs <==> g == e.consumer.group;
    }
  }

  /** The access lines that live role bindings fold into: exactly these. */
  lemma RoleLinesAre(rbs: seq<Binding>, names: set<string>, e: Entry)
    ensures e in ImportRbac.RoleLines(rbs, names) <==>
            exists principal :: WriterLine(rbs, names, principal, e) || ReaderLine(rbs, names, principal, e)
  {
    if e in ImportRbac.RoleLines(rbs, names) {
      var b :| b in rbs && e in ImportRbac.RoleLinesOf(rbs, names, b.principal);
      PrincipalLinesAre(rbs, names, b.principal, e);
    }
    if principal :| WriterLine(rbs, names, principal, e) || ReaderLine(rbs, names, principal, e) {
      PrincipalLinesAre(rbs, names, principal, e);
      if WriterLine(rbs, names, principal, e) {
        assert HasRole(rbs, principal, "DeveloperWrite", "Topic", e.topic);
      } else {
        assert e.topic in names && HasRole(rbs, principal, "DeveloperRead", "Topic", e.topic);
      }
    }
  }
}
