/** Importing client quotas and SCRAM users. */
module ImportClients {
  import opened Basics
  import opened Model
  import opened Diff
  import opened Names
  import opened Store

  // ---- quotas ------------------------------------------------------------

  datatype QuotaLimits = QuotaLimits(producer: Option<real>, consumer: Option<real>, request: Option<real>,
                                     mutation: Option<real>, connection: Option<real>)

  /** A name, or the per-type default; neither when both are unset. */
  datatype Selector = Selector(name: string, isDefault: bool)

  datatype KafkaQuota = KafkaQuota(metaName: string, user: Selector, clientId: Selector, ip: Selector, limits: QuotaLimits)

  const USER_PREFIX: string := "User:"
  const LIMIT_KEYS: set<string> :=
    {"producer_byte_rate", "consumer_byte_rate", "request_percentage", "controller_mutation_rate", "connection_creation_rate"}

  function TrimPrefix(s: string, prefix: string): string { if prefix <= s then s[|prefix|..] else s }

  function Written(c: Component, prefix: string): Selector {
    match c
    case Absent => Selector("", false)
    case Default => Selector("", true)
    case Named(n) => Selector(prefix + n, false)
  }

  function Read(s: Selector, prefix: string): Component {
    if s.name != "" then Named(TrimPrefix(s.name, prefix)) else if s.isDefault then Default else Absent
  }

  function LimitAt(limits: map<string, real>, key: string): Option<real> {
    if key in limits then Some(limits[key]) else None
  }

  function WrittenLimits(limits: map<string, real>): QuotaLimits {
    QuotaLimits(LimitAt(limits, "producer_byte_rate"), LimitAt(limits, "consumer_byte_rate"), LimitAt(limits, "request_percentage"),
                LimitAt(limits, "controller_mutation_rate"), LimitAt(limits, "connection_creation_rate"))
  }

  function Set(m: map<string, real>, key: string, v: Option<real>): map<string, real> {
    if v.Some? then m[key := v.value] else m
  }

  function ReadLimits(l: QuotaLimits): map<string, real> {
    Set(Set(Set(Set(Set(map[], "producer_byte_rate", l.producer), "consumer_byte_rate", l.consumer),
                    "request_percentage", l.request), "controller_mutation_rate", l.mutation),
        "connection_creation_rate", l.connection)
  }

  /** quota.Compile: the entity and the limits a manifest declares. */
  function CompileQuota(q: KafkaQuota, mode: Mode): DesiredQuota {
    DesiredQuota(Entity(Read(q.user, USER_PREFIX), Read(q.clientId, ""), Read(q.ip, "")), ReadLimits(q.limits), mode)
  }

  function QuotaManifest(q: QuotaState, metaName: string): KafkaQuota {
    KafkaQuota(metaName, Written(q.entity.user, USER_PREFIX), Written(q.entity.clientId, ""), Written(q.entity.ip, ""),
               WrittenLimits(q.limits))
  }

  lemma LimitsRoundTrip(limits: map<string, real>)
    ensures ReadLimits(WrittenLimits(limits)) == map k | k in limits && k in LIMIT_KEYS :: limits[k]
    ensures ReadLimits(WrittenLimits(limits)) == limits <==> limits.Keys <= LIMIT_KEYS
  {
    var m := ReadLimits(WrittenLimits(limits));
    assert m == map k | k in limits && k in LIMIT_KEYS :: limits[k];
    if m == limits { assert m.Keys <= LIMIT_KEYS; }
  }

  lemma ComponentRoundTrip(c: Component, prefix: string)
    ensures Read(Written(c, prefix), prefix) == c <==> prefix != "" || c != Named("")
  {
    if c.Named? { assert (prefix + c.name)[|prefix|..] == c.name; }
  }

  /** An imported quota compiles back to the live entity unless a client-id or
      an address is the empty name, and to the live limits exactly when all of
      their keys are known ones. A user is written as a principal. */
  lemma QuotaRoundTrip(q: QuotaState, metaName: string, mode: Mode)
    ensures q.entity.user.Named? ==> QuotaManifest(q, metaName).user == Selector("User:" + q.entity.user.name, false)
    ensures var dq := CompileQuota(QuotaManifest(q, metaName), mode);
      && (dq.entity == q.entity <==> q.entity.clientId != Named("") && q.entity.ip != Named(""))
      && (dq.limits == q.limits <==> q.limits.Keys <= LIMIT_KEYS)
      && dq.mode == mode
  {
    ComponentRoundTrip(q.entity.user, USER_PREFIX);
    ComponentRoundTrip(q.entity.clientId, "");
    ComponentRoundTrip(q.entity.ip, "");
    LimitsRoundTrip(q.limits);
  }

  const DEFAULT_SENTINEL: string := "0dflt0"

  function NamePart(kind: string, c: Component): seq<string> {
    match c
    case Absent => []
    case Default => [kind + "-" + DEFAULT_SENTINEL]
    case Named(n) => [kind + "-" + n]
  }

  function QuotaName(e: Entity): string {
    var name := "quota-" + Slugged(Join(NamePart("client-id", e.clientId) + NamePart("ip", e.ip) + NamePart("user", e.user), '-'));
    Trim(if |name| > MAX_NAME - SUFFIX_RESERVE then name[..MAX_NAME - SUFFIX_RESERVE] else name, Dash())
  }

  function QuotaMetaName(): KafkaQuota -> string { (q: KafkaQuota) => q.metaName }

  ghost predicate ManifestsQuota(m: KafkaQuota, q: QuotaState) {
    m == QuotaManifest(q, m.metaName) && Numbered(QuotaName(q.entity), m.metaName)
  }

  ghost predicate AllManifested(out: seq<KafkaQuota>, live: seq<QuotaState>) {
    && (forall m :: m in out ==> exists q :: q in live && ManifestsQuota(m, q))
    && (forall q :: q in live ==> exists m :: m in out && ManifestsQuota(m, q))
  }

  lemma SortedQuotas(out: seq<KafkaQuota>, live: seq<QuotaState>)
    requires |out| == |live| && forall j :: 0 <= j < |out| ==> ManifestsQuota(out[j], live[j])
    ensures AllManifested(SortOn(out, QuotaMetaName()), live) && |SortOn(out, QuotaMetaName())| == |live|
  {
    SortPermutes(out, OnKey(QuotaMetaName()));
    var sorted := SortOn(out, QuotaMetaName());
    forall m | m in sorted ensures exists q :: q in live && ManifestsQuota(m, q) {
      var j :| 0 <= j < |out| && out[j] == m;
      assert live[j] in live;
    }
    forall q | q in live ensures exists m :: m in sorted && ManifestsQuota(m, q) {
      var j :| 0 <= j < |live| && live[j] == q;
      assert out[j] in sorted;
    }
  }

  method BuildQuota(q: QuotaState, taken: set<string>) returns (m: KafkaQuota, taken': set<string>)
    ensures ManifestsQuota(m, q) && m.metaName !in taken && taken' == taken + {m.metaName}
  {
    var name;
    name, taken' := DisambiguateName(QuotaName(q.entity), taken);
    m := QuotaManifest(q, name);
  }

  ghost predicate QuotaNames(out: seq<KafkaQuota>, taken: set<string>) {
    Unique(out, QuotaMetaName()) && forall j :: 0 <= j < |out| ==> out[j].metaName in taken
  }

  lemma QuotaNamesMore(out: seq<KafkaQuota>, taken: set<string>, m: KafkaQuota)
    requires QuotaNames(out, taken) && m.metaName !in taken
    ensures QuotaNames(out + [m], taken + {m.metaName})
  {
  }

  /** The manifests of the first live quotas. */
  ghost predicate QuotasBuilt(out: seq<KafkaQuota>, live: seq<QuotaState>) {
    |out| <= |live| && forall j :: 0 <= j < |out| ==> ManifestsQuota(out[j], live[j])
  }

  lemma QuotaBuilt(out: seq<KafkaQuota>, live: seq<QuotaState>, m: KafkaQuota)
    requires QuotasBuilt(out, live) && |out| < |live| && ManifestsQuota(m, live[|out|])
    ensures QuotasBuilt(out + [m], live)
  {
  }

  /** One manifest for each live quota, under distinct names. */
  method BuildQuotas(live: seq<QuotaState>) returns (out: seq<KafkaQuota>)
    ensures |out| == |live| && AllManifested(out, live) && Unique(out, QuotaMetaName())
    ensures forall i, j :: 0 <= i < j < |out| ==> !StrLess(out[j].metaName, out[i].metaName)
  {
    var taken: set<string> := {};
    out := [];
    for i := 0 to |live|
      invariant |out| == i && QuotasBuilt(out, live) && QuotaNames(out, taken)
    {
      var m, taken' := BuildQuota(live[i], taken);
      QuotaBuilt(out, live, m);
      QuotaNamesMore(out, taken, m);
      out, taken := out + [m], taken';
    }
    SortedQuotas(out, live);
    SortUnique(out, OnKey(QuotaMetaName()), QuotaMetaName());
    SortAscending(out, QuotaMetaName());
    out := SortOn(out, QuotaMetaName());
  }

  // ---- users -------------------------------------------------------------

  datatype KafkaUser = KafkaUser(metaName: string, username: string, mechanism: string, iterations: Option<int>, password: PasswordRef)

  function MechanismRank(m: string): nat { if m == "SCRAM-SHA-512" then 2 else if m == "SCRAM-SHA-256" then 1 else 0 }

  /** user.Compile after defaulting: an unset iteration count is not compared. */
  function CompileUser(u: KafkaUser): DesiredUser {
    DesiredUser(ScramId(if u.username == "" then u.metaName else u.username,
                        if u.mechanism == "" then "SCRAM-SHA-512" else u.mechanism),
                if u.iterations.Some? then u.iterations.value else 0, Some(u.password))
  }

  /** The password is a placeholder reference for the operator to fill in. */
  function UserManifest(c: ScramCredential, metaName: string, password: PasswordRef): KafkaUser {
    KafkaUser(metaName, c.id.user, c.id.mechanism,
              if c.iterations != 0 && c.iterations != DEFAULT_ITERATIONS then Some(c.iterations) else None, password)
  }

  /** An imported user compiles to a credential the live one satisfies; only the
      default iteration count, 4096, is left out. */
  lemma UserRoundTrip(c: ScramCredential, metaName: string, password: PasswordRef)
    requires c.id.user != "" && c.id.mechanism != ""
    ensures var du := CompileUser(UserManifest(c, metaName, password));
      && du.id == c.id && IterationsMatch(du, c.iterations)
      && du.iterations == (if c.iterations == 4096 then 0 else c.iterations) && du.password == Some(password)
  {
  }

  type ByUser = map<string, seq<ScramCredential>>

  method GroupByUser(creds: seq<ScramCredential>) returns (byUser: ByUser, order: seq<string>)
    ensures forall u, c :: u in byUser && c in byUser[u] ==> c in creds && c.id.user == u
    ensures forall c :: c in creds ==> c.id.user in byUser && c in byUser[c.id.user]
    ensures (forall u :: u in order <==> u in byUser) && Once(order)
    ensures forall u :: u in byUser ==> byUser[u] != []
  {
    byUser, order := map[], [];
    for i := 0 to |creds|
      invariant forall u, c :: u in byUser && c in byUser[u] ==> c in creds && c.id.user == u
      invariant forall c :: c in creds[..i] ==> c.id.user in byUser && c in byUser[c.id.user]
      invariant (forall u :: u in order <==> u in byUser) && Once(order)
      invariant forall u :: u in byUser ==> byUser[u] != []
    {
      var c := creds[i];
      assert creds[..i + 1] == creds[..i] + [c];
      if c.id.user !in byUser {
        order := order + [c.id.user];
        byUser := byUser[c.id.user := [c]];
      } else {
        byUser := byUser[c.id.user := byUser[c.id.user] + [c]];
      }
    }
    assert creds[..|creds|] == creds;
  }

  /** SCRAM-SHA-512 before SCRAM-SHA-256 before anything else. */
  predicate NoWeaker(best: string, m: string) {
    && (m == "SCRAM-SHA-512" ==> best == "SCRAM-SHA-512")
    && (m == "SCRAM-SHA-256" ==> best == "SCRAM-SHA-256" || best == "SCRAM-SHA-512")
  }

  /** The strongest mechanism; the first on a tie. */
  method Preferred(creds: seq<ScramCredential>) returns (best: ScramCredential)
    requires creds != []
    ensures best in creds && forall c :: c in creds ==> NoWeaker(best.id.mechanism, c.id.mechanism)
  {
    best := creds[0];
    for i := 1 to |creds|
      invariant best in creds
      invariant forall j :: 0 <= j < i ==> MechanismRank(creds[j].id.mechanism) <= MechanismRank(best.id.mechanism)
    {
      if MechanismRank(creds[i].id.mechanism) > MechanismRank(best.id.mechanism) { best := creds[i]; }
    }
  }

  ghost predicate Captures(u: KafkaUser, creds: seq<ScramCredential>, c: ScramCredential) {
    && c in creds && u == UserManifest(c, u.metaName, u.password) && Numbered(MetaName(c.id.user), u.metaName)
    && forall x :: x in creds && x.id.user == c.id.user ==> NoWeaker(c.id.mechanism, x.id.mechanism)
  }

  function UserMetaName(): KafkaUser -> string { (u: KafkaUser) => u.metaName }
  function Username(): KafkaUser -> string { (u: KafkaUser) => u.username }

  predicate Included(user: string, connecting: string, includeConnecting: bool) {
    !(user == connecting && connecting != "" && !includeConnecting)
  }

  function Usernames(out: seq<KafkaUser>): set<string> { set u | u in out :: u.username }

  ghost predicate PlaceholdersUsed(out: seq<KafkaUser>, placeholder: string -> PasswordRef) {
    forall u :: u in out ==> u.password == placeholder(u.username)
  }

  ghost predicate AllCapture(out: seq<KafkaUser>, creds: seq<ScramCredential>) {
    forall u :: u in out ==> exists c :: Captures(u, creds, c)
  }

  lemma AddUser(out: seq<KafkaUser>, u: KafkaUser, creds: seq<ScramCredential>, c: ScramCredential)
    requires AllCapture(out, creds) && Captures(u, creds, c) && Unique(out, Username()) && u.username !in Usernames(out)
    ensures AllCapture(out + [u], creds) && Unique(out + [u], Username()) && Usernames(out + [u]) == Usernames(out) + {u.username}
  {
    forall i | 0 <= i < |out| ensures Username()(out[i]) != u.username { assert out[i] in out; }
    assert Usernames(out + [u]) == Usernames(out) + {u.username} by {
      assert forall x :: x in out + [u] <==> x in out || x == u;
    }
  }

  lemma SortedUsers(out: seq<KafkaUser>, creds: seq<ScramCredential>)
    requires AllCapture(out, creds) && Unique(out, Username()) && Unique(out, UserMetaName())
    ensures var sorted := SortOn(out, UserMetaName());
      && AllCapture(sorted, creds) && Unique(sorted, Username()) && Unique(sorted, UserMetaName())
      && Usernames(sorted) == Usernames(out)
  {
    SortPermutes(out, OnKey(UserMetaName()));
    UniquePermutation(out, SortOn(out, UserMetaName()), Username());
    UniquePermutation(out, SortOn(out, UserMetaName()), UserMetaName());
  }

  ghost predicate NamesTaken(out: seq<KafkaUser>, taken: set<string>) {
    Unique(out, UserMetaName()) && forall u :: u in out ==> u.metaName in taken
  }

  lemma NamesTakenSnoc(out: seq<KafkaUser>, u: KafkaUser, before: set<string>, taken: set<string>)
    requires NamesTaken(out, before) && u.metaName !in before && taken == before + {u.metaName}
    ensures NamesTaken(out + [u], taken)
  {
  }

  function IncludedIn(order: seq<string>, connecting: string, includeConnecting: bool): set<string> {
    set n | n in order && Included(n, connecting, includeConnecting)
  }

  lemma IncludedSnoc(done: seq<string>, name: string, connecting: string, includeConnecting: bool)
    ensures IncludedIn(done + [name], connecting, includeConnecting) ==
            IncludedIn(done, connecting, includeConnecting) + if Included(name, connecting, includeConnecting) then {name} else {}
  {
    assert forall n :: n in done + [name] <==> n in done || n == name;
  }

  /** The manifests of some of the users. */
  ghost predicate UsersBuilt(out: seq<KafkaUser>, creds: seq<ScramCredential>, names: set<string>, taken: set<string>) {
    AllCapture(out, creds) && Unique(out, Username()) && NamesTaken(out, taken) && Usernames(out) == names
  }

  lemma UserBuilt(out: seq<KafkaUser>, creds: seq<ScramCredential>, names: set<string>, before: set<string>, taken: set<string>,
                  u: KafkaUser, c: ScramCredential)
    requires UsersBuilt(out, creds, names, before) && Captures(u, creds, c) && u.username !in names
    requires u.metaName !in before && taken == before + {u.metaName}
    ensures UsersBuilt(out + [u], creds, names + {u.username}, taken)
  {
    AddUser(out, u, creds, c);
    NamesTakenSnoc(out, u, before, taken);
  }

  method BuildUser(name: string, of: seq<ScramCredential>, ghost creds: seq<ScramCredential>, taken: set<string>,
                   placeholder: string -> PasswordRef)
    returns (u: KafkaUser, taken': set<string>, ghost c: ScramCredential)
    requires of != [] && (forall x :: x in of ==> x in creds && x.id.user == name)
    requires forall x :: x in creds && x.id.user == name ==> x in of
    ensures Captures(u, creds, c) && u.username == name && u.password == placeholder(name)
    ensures u.metaName !in taken && taken' == taken + {u.metaName}
  {
    var best := Preferred(of);
    var metaName;
    metaName, taken' := NextName(name, taken);
    u, c := UserManifest(best, metaName, placeholder(name)), best;
  }

  /** One manifest for each user, with the strongest live mechanism; the
      connecting principal is left out unless asked for. */
  method BuildUsers(creds: seq<ScramCredential>, connecting: string, includeConnecting: bool, placeholder: string -> PasswordRef)
    returns (out: seq<KafkaUser>)
    ensures AllCapture(out, creds) && Unique(out, Username()) && Unique(out, UserMetaName())
    ensures PlaceholdersUsed(out, placeholder)
    ensures forall i, j :: 0 <= i < j < |out| ==> !StrLess(out[j].metaName, out[i].metaName)
    ensures Usernames(out) ==
            set c | c in creds && !(c.id.user == connecting && connecting != "" && !includeConnecting) :: c.id.user
  {
    var byUser, order := GroupByUser(creds);
    out := BuildEach(creds, byUser, order, connecting, includeConnecting, placeholder);
    SortedUsers(out, creds);
    SortPermutes(out, OnKey(UserMetaName()));
    SortAscending(out, UserMetaName());
    out := SortOn(out, UserMetaName());
  }

  method BuildEach(ghost creds: seq<ScramCredential>, byUser: ByUser, order: seq<string>, connecting: string, includeConnecting: bool,
                   placeholder: string -> PasswordRef) returns (out: seq<KafkaUser>)
    requires Once(order) && forall n :: n in order ==> n in byUser
    requires forall u, c :: u in byUser && c in byUser[u] ==> c in creds && c.id.user == u
    requires forall c :: c in creds ==> c.id.user in byUser && c in byUser[c.id.user]
    requires forall u :: u in byUser ==> byUser[u] != []
    ensures AllCapture(out, creds) && Unique(out, Username()) && Unique(out, UserMetaName())
    ensures PlaceholdersUsed(out, placeholder)
    ensures Usernames(out) == IncludedIn(order, connecting, includeConnecting)
  {
    var taken: set<string> := {};
    out := [];
    for i := 0 to |order|
      invariant UsersBuilt(out, creds, IncludedIn(order[..i], connecting, includeConnecting), taken)
      invariant PlaceholdersUsed(out, placeholder)
    {
      var name := order[i];
      assert order[..i + 1] == order[..i] + [name];
      IncludedSnoc(order[..i], name, connecting, includeConnecting);
      if Included(name, connecting, includeConnecting) {
        assert name !in order[..i];
        var u, taken', c := BuildUser(name, byUser[name], creds, taken, placeholder);
        UserBuilt(out, creds, IncludedIn(order[..i], connecting, includeConnecting), taken, taken', u, c);
        out, taken := out + [u], taken';
      }
    }
    assert order[..|order|] == order;
  }
}
