/** Cluster-link mirror topics: the live snapshot, the shared rules, the
    planner's decision table and the writer's pre-write checks. */
module Mirror {
  import opened Basics
  import opened Model
  import opened Operations
  import opened Store

  // ---- strings -----------------------------------------------------------

  predicate IsSpace(c: char) {
    '\t' <= c <= '\r' || c == ' ' || c == '\U{0085}' || c == '\U{00A0}' || c == '\U{1680}'
    || '\U{2000}' <= c <= '\U{200A}' || c == '\U{2028}' || c == '\U{2029}' || c == '\U{202F}' || c == '\U{205F}'
    || c == '\U{3000}'
  }

  function TrimSpace(s: string): string { Trim(s, Space()) }

  function Space(): char -> bool { (c: char) => IsSpace(c) }

  // ---- mirror status -----------------------------------------------------

  datatype StatusClass = StatusUnknown | Healthy | Unhealthy | Stopping | Stopped | Progressing

  function ClassifyStatus(status: string): StatusClass {
    if status == "ACTIVE" then Healthy
    else if status in ["PAUSED", "LINK_PAUSED", "FAILED", "LINK_FAILED", "SOURCE_UNAVAILABLE"] then Unhealthy
    else if status == "PENDING_STOPPED" then Stopping
    else if status == "STOPPED" then Stopped
    else if status in ["PENDING_MIRROR", "PENDING_SYNCHRONIZE", "PENDING_SETUP_FOR_RESTORE", "PENDING_RESTORE",
                       "PENDING_RESTORE_MIRROR"] then Progressing
    else StatusUnknown
  }

  // ---- snapshot ----------------------------------------------------------

  datatype Link = Link(name: string, state: string)
  datatype LinkInfo = LinkInfo(link: Link, configs: map<string, string>, configErr: bool)
  datatype MirrorState = MirrorState(name: string, linkName: string, sourceTopic: string, status: string)

  /** `err` and `read` decide completeness; a snapshot starts out incomplete. */
  datatype Snapshot = Snapshot(topics: map<string, Topic>, mirrors: map<string, MirrorState>,
                               links: map<string, LinkInfo>, err: bool, read: bool)
  const INCOMPLETE := Snapshot(map[], map[], map[], true, false)

  /** The replies of the Kafka Admin and REST reads; `None` is a failed read. */
  datatype Replies = Replies(adminId: Option<string>, restId: Option<string>,
                             topics: Option<seq<TopicState>>, mirrors: Option<seq<MirrorState>>,
                             links: Option<seq<Link>>, linkConfigs: map<string, map<string, string>>)

  function MirrorName(m: MirrorState): string { m.name }
  function LinkName(l: Link): string { l.name }

  function MirrorMap(ms: seq<MirrorState>): map<string, MirrorState> {
    if ms == [] then map[] else MirrorMap(ms[..|ms| - 1])[ms[|ms| - 1].name := ms[|ms| - 1]]
  }

  function LinkMap(ls: seq<Link>, configs: map<string, map<string, string>>, names: seq<string>): map<string, LinkInfo> {
    map n | n in names && Lookup(ls, LinkName, n).Some? ::
      LinkInfo(Lookup(ls, LinkName, n).value, if n in configs then configs[n] else map[], n !in configs)
  }

  function NewSnapshot(adminId: string, restId: string, topics: map<string, Topic>,
                       mirrors: map<string, MirrorState>, links: map<string, LinkInfo>): Snapshot {
    if adminId == "" || restId == "" || adminId != restId then INCOMPLETE
    else Snapshot(topics, mirrors, links, false, true)
  }

  /** Reads the destination, restricted to the named links. Any failed read,
      mismatched identity or duplicated name leaves the snapshot incomplete. */
  function ReadSnapshot(r: Replies, linkNames: seq<string>): Snapshot {
    if r.adminId.None? || r.restId.None? || r.adminId.value == "" || r.adminId != r.restId then INCOMPLETE
    else if r.topics.None? || r.mirrors.None? || r.links.None? then INCOMPLETE
    else if !Unique(r.mirrors.value, MirrorName) || !Unique(r.links.value, LinkName) then INCOMPLETE
    else NewSnapshot(r.adminId.value, r.restId.value, TopicMap(r.topics.value), MirrorMap(r.mirrors.value),
                     LinkMap(r.links.value, r.linkConfigs, linkNames))
  }

  predicate Complete(s: Snapshot) { s.read && !s.err }

  datatype Classification = AbsentTopic | NormalTopic | MirrorTopic | StoppingMirror | StoppedFormerMirror | UnknownTopic

  function Classify(s: Snapshot, topic: string): Classification {
    if !Complete(s) then UnknownTopic
    else if topic !in s.mirrors then if topic in s.topics then NormalTopic else AbsentTopic
    else if topic !in s.topics then UnknownTopic
    else match ClassifyStatus(s.mirrors[topic].status)
      case Healthy | Unhealthy | Progressing => MirrorTopic
      case Stopping => StoppingMirror
      case Stopped => StoppedFormerMirror
      case StatusUnknown => UnknownTopic
  }

  // ---- rules -------------------------------------------------------------

  function ConfigOf(l: LinkInfo, key: string): string { if key in l.configs then l.configs[key] else "" }

  predicate CheckPrefix(l: LinkInfo, topicName: string, sourceTopic: string, explicit: bool) {
    var p := ConfigOf(l, "cluster.link.prefix");
    if p == "" then topicName == sourceTopic else explicit && topicName == p + sourceTopic
  }

  predicate LinkActive(l: LinkInfo) { l.link.state == "ACTIVE" }

  predicate EntryCovers(entry: string, key: string) {
    var e := TrimSpace(entry);
    e != "" && (e == key || (e[|e| - 1] == '*' && e[..|e| - 1] <= key))
  }

  datatype Ownership = OwnershipUnknown | LinkOwned | Local

  /** Whether the link syncs a topic config key from the source. */
  function LinkManaged(l: LinkInfo, key: string): Ownership {
    var v := ConfigOf(l, "topic.config.sync.include");
    if TrimSpace(v) == "" then OwnershipUnknown
    else if exists e :: e in Split(v, ',') && EntryCovers(e, key) then LinkOwned
    else Local
  }

  /** The ownership of each key on one link. */
  function Owner(l: LinkInfo): string -> Ownership { key => LinkManaged(l, key) }

  // ---- planner -----------------------------------------------------------

  datatype DesiredMirror = DesiredMirror(source: Source, linkName: string, sourceTopic: string, topicName: string,
                                         explicit: bool, replicationFactor: int, config: map<string, string>, mode: Mode)

  function MirrorOp(dm: DesiredMirror, a: Action): Operation {
    New(a).(source := dm.source, target := dm.topicName, mode := dm.mode)
  }

  function CreateOp(dm: DesiredMirror): Operation {
    MirrorOp(dm, CreateMirrorTopic).(payload :=
      MirrorPayload(dm.linkName, dm.sourceTopic, dm.explicit, dm.replicationFactor, dm.config))
  }

  function Shown(config: map<string, string>, key: string): string { if key in config then config[key] else "" }

  function UpdateOp(dm: DesiredMirror, live: map<string, string>, key: string): Operation
    requires key in dm.config
  {
    MirrorOp(dm, UpdateMirrorTopicConfig).(field := key, from := Shown(live, key), to := dm.config[key],
      payload := MirrorPayload(dm.linkName, dm.sourceTopic, dm.explicit, 0, map[]))
  }

  function RejectKey(dm: DesiredMirror, live: map<string, string>, key: string): Operation {
    MirrorOp(dm, Rejected).(field := key, from := Shown(live, key), to := Shown(dm.config, key))
  }

  function RejectStep(dm: DesiredMirror, owner: string -> Ownership): string -> seq<Operation> {
    key => if owner(key) == Local then [] else [RejectKey(dm, map[], key)]
  }

  function ConfigStep(dm: DesiredMirror, owner: string -> Ownership, live: map<string, string>): string -> seq<Operation> {
    key =>
      if owner(key) != Local then [RejectKey(dm, live, key)]
      else if key !in dm.config || (key in live && live[key] == dm.config[key]) then []
      else [UpdateOp(dm, live, key)]
  }

  function HealthOps(dm: DesiredMirror, status: string): seq<Operation> {
    match ClassifyStatus(status)
    case Unhealthy => [MirrorOp(dm, MirrorTopicUnhealthy)]
    case Progressing => [MirrorOp(dm, MirrorTopicProgressing)]
    case _ => []
  }

  function ReplicationOps(dm: DesiredMirror, live: int): seq<Operation> {
    if dm.replicationFactor > 0 && dm.replicationFactor != live
    then [MirrorOp(dm, UnsupportedReplicationFactorChange).(from := Itoa(live), to := Itoa(dm.replicationFactor))]
    else []
  }

  function AbsentOps(dm: DesiredMirror, active: bool, owner: string -> Ownership): seq<Operation> {
    if !active then [MirrorOp(dm, Rejected)]
    else
      var rejected := FlatMap(SortedKeys(dm.config.Keys), RejectStep(dm, owner));
      if rejected != [] then rejected else [CreateOp(dm)]
  }

  function LiveOps(dm: DesiredMirror, owner: string -> Ownership, m: MirrorState, live: Topic): seq<Operation> {
    HealthOps(dm, m.status) + ReplicationOps(dm, live.replicationFactor)
    + FlatMap(SortedKeys(dm.config.Keys), ConfigStep(dm, owner, live.config))
  }

  /** The decision table for one declared mirror. */
  function MirrorOps(dm: DesiredMirror, snapshot: Option<Snapshot>): seq<Operation> {
    if snapshot.None? || !Complete(snapshot.value) then [MirrorOp(dm, StateReadError)]
    else
      var s := snapshot.value;
      if dm.linkName !in s.links then [MirrorOp(dm, Rejected)]
      else if s.links[dm.linkName].configErr then [MirrorOp(dm, StateReadError)]
      else if !CheckPrefix(s.links[dm.linkName], dm.topicName, dm.sourceTopic, dm.explicit) then [MirrorOp(dm, Rejected)]
      else
        var link := s.links[dm.linkName];
        ClassOps(dm, link, s)
  }

  predicate SameMirror(dm: DesiredMirror, m: MirrorState) {
    m.linkName == dm.linkName && m.sourceTopic == dm.sourceTopic
  }

  function ClassOps(dm: DesiredMirror, link: LinkInfo, s: Snapshot): seq<Operation> {
    match Classify(s, dm.topicName)
    case AbsentTopic => AbsentOps(dm, LinkActive(link), Owner(link))
    case NormalTopic => [MirrorOp(dm, Rejected)]
    case StoppedFormerMirror => [MirrorOp(dm, Rejected), MirrorOp(dm, MirrorTopicPromoted)]
    case UnknownTopic => [MirrorOp(dm, StateReadError)]
    case StoppingMirror =>
      if SameMirror(dm, s.mirrors[dm.topicName]) then [MirrorOp(dm, MirrorTopicStopping)] else [MirrorOp(dm, Rejected)]
    case MirrorTopic =>
      if SameMirror(dm, s.mirrors[dm.topicName])
      then LiveOps(dm, Owner(link), s.mirrors[dm.topicName], s.topics[dm.topicName])
      else [MirrorOp(dm, Rejected)]
  }

  /** The same table, appending in loops over the sorted config keys. */
  method MirrorOpsFor(dm: DesiredMirror, snapshot: Option<Snapshot>) returns (ops: seq<Operation>)
    ensures ops == MirrorOps(dm, snapshot)
  {
    if snapshot.None? || !Complete(snapshot.value) { return [MirrorOp(dm, StateReadError)]; }
    var s := snapshot.value;
    if dm.linkName !in s.links { return [MirrorOp(dm, Rejected)]; }
    var link := s.links[dm.linkName];
    if link.configErr { return [MirrorOp(dm, StateReadError)]; }
    if !CheckPrefix(link, dm.topicName, dm.sourceTopic, dm.explicit) { return [MirrorOp(dm, Rejected)]; }
    match Classify(s, dm.topicName)
    case AbsentTopic => ops := PlanAbsent(dm, LinkActive(link), Owner(link));
    case NormalTopic => ops := [MirrorOp(dm, Rejected)];
    case StoppedFormerMirror => ops := [MirrorOp(dm, Rejected), MirrorOp(dm, MirrorTopicPromoted)];
    case UnknownTopic => ops := [MirrorOp(dm, StateReadError)];
    case StoppingMirror =>
      ops := [MirrorOp(dm, if SameMirror(dm, s.mirrors[dm.topicName]) then MirrorTopicStopping else Rejected)];
    case MirrorTopic =>
      if !SameMirror(dm, s.mirrors[dm.topicName]) { return [MirrorOp(dm, Rejected)]; }
      ops := PlanLive(dm, Owner(link), s.mirrors[dm.topicName], s.topics[dm.topicName]);
  }

  method PlanAbsent(dm: DesiredMirror, active: bool, owner: string -> Ownership) returns (ops: seq<Operation>)
    ensures ops == AbsentOps(dm, active, owner)
  {
    if !active { return [MirrorOp(dm, Rejected)]; }
    var keys, rejected := SortedKeys(dm.config.Keys), [];
    for i := 0 to |keys|
      invariant rejected == FlatMap(keys[..i], RejectStep(dm, owner))
    {
      FlatMapStep(keys, i, RejectStep(dm, owner));
      if owner(keys[i]) != Local { rejected := rejected + [RejectKey(dm, map[], keys[i])]; }
    }
    assert keys[..|keys|] == keys;
    ops := if rejected != [] then rejected else [CreateOp(dm)];
  }

  method PlanLive(dm: DesiredMirror, owner: string -> Ownership, m: MirrorState, live: Topic) returns (ops: seq<Operation>)
    ensures ops == LiveOps(dm, owner, m, live)
  {
    var configOps := PlanKeys(dm, owner, live.config);
    ops := HealthOps(dm, m.status) + ReplicationOps(dm, live.replicationFactor) + configOps;
  }

  method PlanKeys(dm: DesiredMirror, owner: string -> Ownership, live: map<string, string>) returns (ops: seq<Operation>)
    ensures ops == FlatMap(SortedKeys(dm.config.Keys), ConfigStep(dm, owner, live))
  {
    var keys := SortedKeys(dm.config.Keys);
    SortedKeysMembers(dm.config.Keys);
    ops := [];
    for i := 0 to |keys|
      invariant ops == FlatMap(keys[..i], ConfigStep(dm, owner, live))
    {
      FlatMapStep(keys, i, ConfigStep(dm, owner, live));
      var more := PlanKey(dm, owner, live, keys[i]);
      ops := ops + more;
    }
    assert keys[..|keys|] == keys;
  }

  method PlanKey(dm: DesiredMirror, owner: string -> Ownership, live: map<string, string>, key: string)
    returns (ops: seq<Operation>)
    requires key in dm.config
    ensures ops == ConfigStep(dm, owner, live)(key)
  {
    if owner(key) != Local { return [RejectKey(dm, live, key)]; }
    if key in live && live[key] == dm.config[key] { return []; }
    ops := [UpdateOp(dm, live, key)];
  }

  // ---- writer ------------------------------------------------------------

  datatype WriteError =
    | SnapshotIncomplete | LinkMissing | LinkConfigUnread
    | WrongClass(class_: Classification) | LinkNotActive | PrefixMismatch | WrongIdentity
    | KeyUndetermined(key: string) | KeyLinkManaged(key: string)
    | RestFailed

  /** The mirror identity an operation carries; empty when it carries none. */
  function Identity(op: Operation): (r: Payload)
    ensures r.MirrorPayload?
  {
    if op.payload.MirrorPayload? then op.payload else MirrorPayload("", "", false, 0, map[])
  }

  function FreshLink(id: Payload, s: Snapshot): Option<WriteError>
    requires id.MirrorPayload?
  {
    if !Complete(s) then Some(SnapshotIncomplete)
    else if id.linkName !in s.links then Some(LinkMissing)
    else if s.links[id.linkName].configErr then Some(LinkConfigUnread)
    else None
  }

  function CheckKey(owner: string -> Ownership, key: string): Option<WriteError> {
    match owner(key)
    case OwnershipUnknown => Some(KeyUndetermined(key))
    case LinkOwned => Some(KeyLinkManaged(key))
    case Local => None
  }

  function CheckKeys(owner: string -> Ownership, keys: seq<string>): Option<WriteError> {
    if keys == [] then None
    else if CheckKey(owner, keys[0]).Some? then CheckKey(owner, keys[0])
    else CheckKeys(owner, keys[1..])
  }

  /** The ordered pre-write checks of a creation; `None` lets the POST through. */
  function CreateCheck(op: Operation, s: Snapshot): Option<WriteError> {
    if FreshLink(Identity(op), s).Some? then FreshLink(Identity(op), s)
    else
      var l := s.links[Identity(op).linkName];
      if Classify(s, op.target) != AbsentTopic then Some(WrongClass(Classify(s, op.target)))
      else if !LinkActive(l) then Some(LinkNotActive)
      else if !CheckPrefix(l, op.target, Identity(op).sourceTopic, Identity(op).explicit) then Some(PrefixMismatch)
      else CheckKeys(Owner(l), SortedKeys(Identity(op).declared.Keys))
  }

  function AlterCheck(op: Operation, s: Snapshot): Option<WriteError> {
    if FreshLink(Identity(op), s).Some? then FreshLink(Identity(op), s)
    else if Classify(s, op.target) != MirrorTopic then Some(WrongClass(Classify(s, op.target)))
    else if s.mirrors[op.target].linkName != Identity(op).linkName || s.mirrors[op.target].sourceTopic != Identity(op).sourceTopic
    then Some(WrongIdentity)
    else CheckKey(Owner(s.links[Identity(op).linkName]), op.field)
  }

  datatype Request =
    | Create(linkName: string, sourceTopic: string, topicName: string, replicationFactor: int, config: map<string, string>)
    | Alter(topicName: string, key: string, value: string)

  /** The Kafka REST backend: every request sent, and which of them fail. */
  class RestClient {
    var sent: seq<Request>
    const fails: nat -> bool

    constructor (fails: nat -> bool)
      ensures sent == [] && this.fails == fails
    { this.fails, sent := fails, []; }

    method Post(r: Request) returns (ok: bool)
      modifies this
      ensures sent == old(sent) + [r] && ok == !fails(old(|sent|))
    {
      ok := !fails(|sent|);
      sent := sent + [r];
    }
  }

  /** Checks a fresh snapshot, then sends exactly one creation request or none. */
  method CreateMirror(rest: RestClient, replies: Replies, op: Operation) returns (err: Option<WriteError>)
    modifies rest
    ensures var check := CreateCheck(op, ReadSnapshot(replies, [Identity(op).linkName]));
      if check.Some? then err == check && rest.sent == old(rest.sent)
      else && rest.sent == old(rest.sent) +
                [Create(Identity(op).linkName, Identity(op).sourceTopic, op.target, Identity(op).replicas, Identity(op).declared)]
           && err == if rest.fails(old(|rest.sent|)) then Some(RestFailed) else None
  {
    var s := ReadSnapshot(replies, [Identity(op).linkName]);
    err := FreshLink(Identity(op), s);
    if err.Some? { return; }
    var l := s.links[Identity(op).linkName];
    if Classify(s, op.target) != AbsentTopic { return Some(WrongClass(Classify(s, op.target))); }
    if !LinkActive(l) { return Some(LinkNotActive); }
    if !CheckPrefix(l, op.target, Identity(op).sourceTopic, Identity(op).explicit) { return Some(PrefixMismatch); }
    var keys := SortedKeys(Identity(op).declared.Keys);
    var i := 0;
    while i < |keys|
      invariant 0 <= i <= |keys| && err.None?
      invariant CheckKeys(Owner(l), keys) == CheckKeys(Owner(l), keys[i..])
    {
      err := CheckKey(Owner(l), keys[i]);
      if err.Some? { return; }
      i := i + 1;
    }
    var ok := rest.Post(Create(Identity(op).linkName, Identity(op).sourceTopic, op.target, Identity(op).replicas, Identity(op).declared));
    err := if ok then None else Some(RestFailed);
  }

  method AlterMirrorConfig(rest: RestClient, replies: Replies, op: Operation) returns (err: Option<WriteError>)
    modifies rest
    ensures var check := AlterCheck(op, ReadSnapshot(replies, [Identity(op).linkName]));
      if check.Some? then err == check && rest.sent == old(rest.sent)
      else && rest.sent == old(rest.sent) + [Alter(op.target, op.field, op.to)]
           && err == if rest.fails(old(|rest.sent|)) then Some(RestFailed) else None
  {
    var s := ReadSnapshot(replies, [Identity(op).linkName]);
    err := FreshLink(Identity(op), s);
    if err.Some? { return; }
    if Classify(s, op.target) != MirrorTopic { return Some(WrongClass(Classify(s, op.target))); }
    var m := s.mirrors[op.target];
    if m.linkName != Identity(op).linkName || m.sourceTopic != Identity(op).sourceTopic { return Some(WrongIdentity); }
    err := CheckKey(Owner(s.links[Identity(op).linkName]), op.field);
    if err.Some? { return; }
    var ok := rest.Post(Alter(op.target, op.field, op.to));
    err := if ok then None else Some(RestFailed);
  }

  // ---- planner and writer agree ------------------------------------------

  /** Two snapshots that a decision about one mirror on one link cannot tell apart. */
  predicate Alike(s: Snapshot, s': Snapshot, link: string) {
    && Complete(s) == Complete(s') && s.topics == s'.topics && s.mirrors == s'.mirrors
    && (link in s.links <==> link in s'.links)
    && (link in s.links ==> s.links[link] == s'.links[link])
  }

  /** Reading more links changes nothing that a decision about one link looks at. */
  lemma ScopedRead(r: Replies, links: seq<string>, link: string)
    requires link in links
    ensures Alike(ReadSnapshot(r, links), ReadSnapshot(r, [link]), link)
  {
  }

  lemma {:induction false} CheckKeysLocal(owner: string -> Ownership, keys: seq<string>)
    ensures CheckKeys(owner, keys).None? <==> forall k :: k in keys ==> owner(k) == Local
  {
    if keys != [] {
      CheckKeysLocal(owner, keys[1..]);
      assert keys == [keys[0]] + keys[1..];
    }
  }

  lemma NoRejections(dm: DesiredMirror, owner: string -> Ownership)
    ensures FlatMap(SortedKeys(dm.config.Keys), RejectStep(dm, owner)) == []
       <==> forall k :: k in dm.config ==> owner(k) == Local
    ensures forall op :: op in FlatMap(SortedKeys(dm.config.Keys), RejectStep(dm, owner)) ==> op.action == Rejected
  {
    var keys, f := SortedKeys(dm.config.Keys), RejectStep(dm, owner);
    SortedKeysMembers(dm.config.Keys);
    var rejected := FlatMap(keys, f);
    forall op | op in rejected ensures op.action == Rejected && exists k :: k in keys && op in f(k) {
      FlatMapMember(keys, f, op);
    }
    forall k | k in keys && owner(k) != Local ensures rejected != [] {
      FlatMapMember(keys, f, RejectKey(dm, map[], k));
      assert RejectKey(dm, map[], k) in f(k);
    }
    if rejected != [] {
      var op := rejected[0];
      assert op in rejected;
      var k :| k in keys && op in f(k);
      assert k in dm.config.Keys;
    }
  }

  lemma LiveOpShape(dm: DesiredMirror, owner: string -> Ownership, m: MirrorState, live: Topic, op: Operation)
    requires op in LiveOps(dm, owner, m, live)
    ensures op.action != CreateMirrorTopic
    ensures op.action == UpdateMirrorTopicConfig ==>
      op.field in dm.config && op in ConfigStep(dm, owner, live.config)(op.field) && owner(op.field) == Local
  {
    var keys, f := SortedKeys(dm.config.Keys), ConfigStep(dm, owner, live.config);
    if op in FlatMap(keys, f) { ConfigOpShape(dm, owner, live, op); }
  }

  lemma ConfigOpShape(dm: DesiredMirror, owner: string -> Ownership, live: Topic, op: Operation)
    requires op in FlatMap(SortedKeys(dm.config.Keys), ConfigStep(dm, owner, live.config))
    ensures op.action != CreateMirrorTopic
    ensures op.action == UpdateMirrorTopicConfig ==>
      op.field in dm.config && op in ConfigStep(dm, owner, live.config)(op.field) && owner(op.field) == Local
  {
    var keys, f := SortedKeys(dm.config.Keys), ConfigStep(dm, owner, live.config);
    SortedKeysMembers(dm.config.Keys);
    FlatMapMember(keys, f, op);
    var k :| k in keys && op in f(k);
    assert k in dm.config.Keys;
  }

  predicate PrefixHolds(dm: DesiredMirror, s: Snapshot) {
    dm.linkName in s.links && CheckPrefix(s.links[dm.linkName], dm.topicName, dm.sourceTopic, dm.explicit)
  }

  /** The checks both sides make before looking at the topic. */
  predicate Ready(dm: DesiredMirror, s: Snapshot) {
    Complete(s) && PrefixHolds(dm, s) && !s.links[dm.linkName].configErr
  }

  lemma StageSplit(dm: DesiredMirror, s: Snapshot)
    ensures Ready(dm, s) ==> MirrorOps(dm, Some(s)) == ClassOps(dm, s.links[dm.linkName], s)
    ensures !Ready(dm, s) ==> exists a :: a in {Rejected, StateReadError} && MirrorOps(dm, Some(s)) == [MirrorOp(dm, a)]
  {
    if !Ready(dm, s) {
      assert MirrorOps(dm, Some(s)) == [MirrorOp(dm, Rejected)] || MirrorOps(dm, Some(s)) == [MirrorOp(dm, StateReadError)];
    }
  }

  predicate Creatable(dm: DesiredMirror, s: Snapshot) {
    && Ready(dm, s) && Classify(s, dm.topicName) == AbsentTopic && LinkActive(s.links[dm.linkName])
    && forall k :: k in dm.config ==> LinkManaged(s.links[dm.linkName], k) == Local
  }

  lemma PlannedIffCreatable(dm: DesiredMirror, s: Snapshot)
    ensures Creatable(dm, s) ==> MirrorOps(dm, Some(s)) == [CreateOp(dm)]
    ensures !Creatable(dm, s) ==> forall op :: op in MirrorOps(dm, Some(s)) ==> op.action != CreateMirrorTopic
  {
    StageSplit(dm, s);
    if Ready(dm, s) {
      var link := s.links[dm.linkName];
      var class_ := Classify(s, dm.topicName);
      if class_ == AbsentTopic {
        NoRejections(dm, Owner(link));
      } else if class_ == MirrorTopic {
        var m, live := s.mirrors[dm.topicName], s.topics[dm.topicName];
        forall op | op in LiveOps(dm, Owner(link), m, live) ensures op.action != CreateMirrorTopic {
          LiveOpShape(dm, Owner(link), m, live, op);
        }
      }
    }
  }

  lemma WrittenIffCreatable(dm: DesiredMirror, s: Snapshot)
    ensures CreateCheck(CreateOp(dm), s).None? <==> Creatable(dm, s)
  {
    if Ready(dm, s) {
      SortedKeysMembers(dm.config.Keys);
      CheckKeysLocal(Owner(s.links[dm.linkName]), SortedKeys(dm.config.Keys));
    }
  }

  lemma AlikeCreatable(dm: DesiredMirror, s: Snapshot, s': Snapshot)
    requires Alike(s, s', dm.linkName)
    ensures Creatable(dm, s) <==> Creatable(dm, s')
  {
    assert Classify(s, dm.topicName) == Classify(s', dm.topicName);
  }

  /** On the same replies, the writer sends the creation request exactly when
      the planner plans the creation, and then the planned operation is the
      only one and the one the writer sees. */
  lemma PlannerWriterAgreeOnCreate(dm: DesiredMirror, r: Replies, links: seq<string>)
    requires dm.linkName in links
    ensures var plan := MirrorOps(dm, Some(ReadSnapshot(r, links)));
            var check := CreateCheck(CreateOp(dm), ReadSnapshot(r, [dm.linkName]));
      && ((exists op :: op in plan && op.action == CreateMirrorTopic) <==> check.None?)
      && (check.None? ==> plan == [CreateOp(dm)])
  {
    ScopedRead(r, links, dm.linkName);
    var s, one := ReadSnapshot(r, links), ReadSnapshot(r, [dm.linkName]);
    PlannedIffCreatable(dm, s);
    WrittenIffCreatable(dm, one);
    AlikeCreatable(dm, s, one);
    assert CreateOp(dm) in [CreateOp(dm)];
  }

  predicate Differs(dm: DesiredMirror, s: Snapshot, key: string) {
    && key in dm.config && dm.topicName in s.topics
    && !(key in s.topics[dm.topicName].config && s.topics[dm.topicName].config[key] == dm.config[key])
  }

  lemma AlterPlanned(dm: DesiredMirror, s: Snapshot, op: Operation)
    requires op.action == UpdateMirrorTopicConfig && op in MirrorOps(dm, Some(s))
    ensures Ready(dm, s) && Differs(dm, s, op.field)
    ensures op == UpdateOp(dm, s.topics[dm.topicName].config, op.field)
    ensures AlterCheck(op, s).None?
  {
    StageSplit(dm, s);
    var link := s.links[dm.linkName];
    var class_ := Classify(s, dm.topicName);
    if class_ == AbsentTopic {
      NoRejections(dm, Owner(link));
      assert false;
    }
    assert class_ == MirrorTopic;
    LiveOpShape(dm, Owner(link), s.mirrors[dm.topicName], s.topics[dm.topicName], op);
  }

  lemma AlterAccepted(dm: DesiredMirror, s: Snapshot, op: Operation)
    requires Ready(dm, s) && Differs(dm, s, op.field)
    requires op == UpdateOp(dm, s.topics[dm.topicName].config, op.field)
    requires AlterCheck(op, s).None?
    ensures op in MirrorOps(dm, Some(s))
  {
    StageSplit(dm, s);
    var link, live := s.links[dm.linkName], s.topics[dm.topicName];
    LiveOpPlanned(dm, Owner(link), s.mirrors[dm.topicName], live, op.field);
  }

  lemma LiveOpPlanned(dm: DesiredMirror, owner: string -> Ownership, m: MirrorState, live: Topic, key: string)
    requires key in dm.config && owner(key) == Local
    requires !(key in live.config && live.config[key] == dm.config[key])
    ensures UpdateOp(dm, live.config, key) in LiveOps(dm, owner, m, live)
  {
    var keys, f := SortedKeys(dm.config.Keys), ConfigStep(dm, owner, live.config);
    SortedKeysMembers(dm.config.Keys);
    FlatMapMember(keys, f, UpdateOp(dm, live.config, key));
    assert key in keys && UpdateOp(dm, live.config, key) in f(key);
  }

  lemma AlikeAlter(s: Snapshot, s': Snapshot, op: Operation)
    requires Alike(s, s', Identity(op).linkName)
    ensures AlterCheck(op, s) == AlterCheck(op, s')
  {
    assert Classify(s, op.target) == Classify(s', op.target);
  }

  /** An alteration is planned for exactly the declared keys whose value
      differs, whose topic name satisfies the link prefix and that the writer accepts. */
  lemma PlannerWriterAgreeOnAlter(dm: DesiredMirror, r: Replies, links: seq<string>, op: Operation)
    requires dm.linkName in links && op.action == UpdateMirrorTopicConfig
    ensures var s := ReadSnapshot(r, links);
      op in MirrorOps(dm, Some(s)) <==>
      && Ready(dm, s) && Differs(dm, s, op.field)
      && op == UpdateOp(dm, s.topics[dm.topicName].config, op.field)
      && AlterCheck(op, ReadSnapshot(r, [dm.linkName])).None?
  {
    var s, one := ReadSnapshot(r, links), ReadSnapshot(r, [dm.linkName]);
    ScopedRead(r, links, dm.linkName);
    if op in MirrorOps(dm, Some(s)) {
      AlterPlanned(dm, s, op);
      AlikeAlter(s, one, op);
    } else if Ready(dm, s) && Differs(dm, s, op.field) && op == UpdateOp(dm, s.topics[dm.topicName].config, op.field)
              && AlterCheck(op, one).None? {
      AlikeAlter(s, one, op);
      AlterAccepted(dm, s, op);
      assert false;
    }
  }

  /** Nothing is planned or written from an incomplete snapshot. */
  lemma FailsClosed(dm: DesiredMirror, s: Snapshot, op: Operation)
    requires !Complete(s)
    ensures MirrorOps(dm, Some(s)) == [MirrorOp(dm, StateReadError)]
    ensures CreateCheck(op, s) == AlterCheck(op, s) == Some(SnapshotIncomplete)
    ensures Classify(s, dm.topicName) == UnknownTopic
  {
  }
}
