/** The identities and payloads that every stage of the engine exchanges. */
module Model {
  import opened Basics

  /** A reconciliation mode; any unrecognised string behaves as `Unattributed`. */
  datatype Mode = Unattributed | ObserveOnly | DetectOnly | Enforce

  /** The manifest an item came from. `kind == ""` means unattributed. */
  datatype Source = Source(kind: string, ns: string, name: string)
  const NO_SOURCE := Source("", "", "")

  /** The seven-field ACL identity. */
  datatype Acl = Acl(principal: string, host: string, resourceType: string, resourceName: string,
                     patternType: string, operation: string, permission: string)

  datatype MdsScope = MdsScope(scopeType: string, kafkaCluster: string, subCluster: string)
  datatype Resource = Resource(resourceType: string, name: string, patternType: string)

  /** The identity of an MDS role binding; no resource means cluster-scoped. */
  datatype Binding = Binding(principal: string, role: string, scope: MdsScope, resource: Option<Resource>)

  /** One component of a quota entity: not constrained, the per-type default, or named. */
  datatype Component = Absent | Default | Named(name: string)
  datatype Entity = Entity(user: Component, clientId: Component, ip: Component)

  datatype ScramId = ScramId(user: string, mechanism: string)
  datatype PasswordRef = PasswordRef(reference: string)

  /** A desired identity with the attribution of the resources that contribute it. */
  datatype Item<+I> = Item(id: I, mode: Mode, prune: bool, source: Source)

  function IdOf<I>(it: Item<I>): I { it.id }

  datatype ScopeInfo = ScopeInfo(mode: Mode, prune: bool, source: Source)
  datatype AclScopeKey = AclScopeKey(principal: string, resourceType: string, resourceName: string, patternType: string)
  datatype BindingScopeKey = BindingScopeKey(principal: string, role: string, scope: MdsScope)

  function AclScope(a: Acl): AclScopeKey {
    AclScopeKey(a.principal, a.resourceType, a.resourceName, a.patternType)
  }

  function BindingScope(b: Binding): BindingScopeKey {
    BindingScopeKey(b.principal, b.role, b.scope)
  }

  /** The identity without the permission, on which Allow and Deny conflict. */
  datatype Subject = Subject(principal: string, host: string, resourceType: string, resourceName: string,
                             patternType: string, operation: string)

  function SubjectOf(a: Acl): Subject {
    Subject(a.principal, a.host, a.resourceType, a.resourceName, a.patternType, a.operation)
  }

  predicate Contradict(a: Acl, b: Acl) {
    SubjectOf(a) == SubjectOf(b) && a.permission != b.permission
  }

  // ---- string keys, used for ordering ------------------------------------

  const NUL: char := '\0'

  function AclFields(a: Acl): seq<string> {
    [a.principal, a.host, a.resourceType, a.resourceName, a.patternType, a.operation, a.permission]
  }

  function FullKey(a: Acl): string { Join(AclFields(a), NUL) }

  function BindingFields(b: Binding): seq<string> {
    [b.principal, b.role, b.scope.scopeType, b.scope.kafkaCluster, b.scope.subCluster] +
    match b.resource
      case None => [""]
      case Some(r) => [r.resourceType, r.name, r.patternType]
  }

  function BindingKey(b: Binding): string { Join(BindingFields(b), NUL) }

  function ComponentPart(kind: string, c: Component): seq<string> {
    match c
    case Absent => []
    case Default => [kind + "=<default>"]
    case Named(n) => [kind + "=" + n]
  }

  /** Components in type order: client-id, ip, user. */
  function EntityParts(e: Entity): seq<string> {
    ComponentPart("client-id", e.clientId) + ComponentPart("ip", e.ip) + ComponentPart("user", e.user)
  }

  function EntityKey(e: Entity): string { Join(EntityParts(e), '|') }

  predicate Unaliased(c: Component) {
    c.Named? ==> '|' !in c.name && c.name != "<default>"
  }

  predicate PlainEntity(e: Entity) {
    Unaliased(e.user) && Unaliased(e.clientId) && Unaliased(e.ip) && EntityParts(e) != []
  }

  lemma FullKeyInjective(a: Acl, b: Acl)
    requires FreeOf(AclFields(a), NUL) && FreeOf(AclFields(b), NUL)
    requires FullKey(a) == FullKey(b)
    ensures a == b
  {
    JoinInjective(AclFields(a), AclFields(b), NUL);
    var x, y := AclFields(a), AclFields(b);
    assert x[0] == y[0] && x[1] == y[1] && x[2] == y[2] && x[3] == y[3] && x[4] == y[4] && x[5] == y[5] && x[6] == y[6];
  }

  lemma BindingKeyInjective(a: Binding, b: Binding)
    requires FreeOf(BindingFields(a), NUL) && FreeOf(BindingFields(b), NUL)
    requires BindingKey(a) == BindingKey(b)
    ensures a == b
  {
    var x, y := BindingFields(a), BindingFields(b);
    JoinInjective(x, y, NUL);
    assert x[0] == y[0] && x[1] == y[1] && x[2] == y[2] && x[3] == y[3] && x[4] == y[4];
    assert |x| == |y|;
    if a.resource.Some? {
      assert x[5] == y[5] && x[6] == y[6] && x[7] == y[7];
    }
  }

  lemma PartDetermines(kind: string, x: Component, y: Component)
    requires Unaliased(x) && Unaliased(y)
    requires ComponentPart(kind, x) == ComponentPart(kind, y)
    ensures x == y
  {
    if !x.Absent? && !y.Absent? {
      var p, q := ComponentPart(kind, x)[0], ComponentPart(kind, y)[0];
      assert p[|kind| + 1..] == if x.Default? then "<default>" else x.name;
      assert q[|kind| + 1..] == if y.Default? then "<default>" else y.name;
    }
  }

  /** The rendered quota key identifies the entity unless a name spells
      `<default>` or contains the separator. */
  lemma EntityKeyInjective(a: Entity, b: Entity)
    requires PlainEntity(a) && PlainEntity(b)
    requires EntityKey(a) == EntityKey(b)
    ensures a == b
  {
    var x, y := EntityParts(a), EntityParts(b);
    PartsPlain(a);
    PartsPlain(b);
    JoinInjective(x, y, '|');
    FirstLetters(a, 'c'); FirstLetters(a, 'i'); FirstLetters(a, 'u');
    FirstLetters(b, 'c'); FirstLetters(b, 'i'); FirstLetters(b, 'u');
    PartDetermines("client-id", a.clientId, b.clientId);
    PartDetermines("ip", a.ip, b.ip);
    PartDetermines("user", a.user, b.user);
  }

  lemma PartsPlain(e: Entity)
    requires PlainEntity(e)
    ensures FreeOf(EntityParts(e), '|')
  {
    PartPlain("client-id", e.clientId);
    PartPlain("ip", e.ip);
    PartPlain("user", e.user);
  }

  lemma PartPlain(kind: string, x: Component)
    requires Unaliased(x) && '|' !in kind
    ensures FreeOf(ComponentPart(kind, x), '|')
  {
  }

  function Led(c: char): string -> bool { s => |s| > 0 && s[0] == c }

  lemma LedPart(kind: string, x: Component, c: char)
    requires |kind| > 0
    ensures Filter(ComponentPart(kind, x), Led(c)) == if kind[0] == c then ComponentPart(kind, x) else []
  {
    var p := ComponentPart(kind, x);
    if p != [] {
      assert p[..0] == [];
      assert p == [p[0]];
    }
  }

  /** Each part of an entity starts with the letter of its component type. */
  lemma FirstLetters(e: Entity, c: char)
    ensures Filter(EntityParts(e), Led(c)) ==
            if c == 'c' then ComponentPart("client-id", e.clientId)
            else if c == 'i' then ComponentPart("ip", e.ip)
            else if c == 'u' then ComponentPart("user", e.user) else []
  {
    var x, y, z := ComponentPart("client-id", e.clientId), ComponentPart("ip", e.ip), ComponentPart("user", e.user);
    FilterConcat(x + y, z, Led(c));
    FilterConcat(x, y, Led(c));
    LedPart("client-id", e.clientId, c);
    LedPart("ip", e.ip, c);
    LedPart("user", e.user, c);
  }
}
