/** The plan for a declared mirror and the writer's decision, action by action:
    conditions on the replies, without the classifications that planner, writer
    and topic guards share. */
module MirrorVerdicts {
  import opened Basics
  import opened Model
  import opened Operations
  import opened Store
  import opened Mirror
  import opened MirrorReplies

  // ---- the plan for a declared mirror ------------------------------------

  /** The snapshot is complete, the link is known and readable, and the name fits it. */
  predicate Checked(dm: DesiredMirror, s: Snapshot) {
    && s.read && !s.err && dm.linkName in s.links && !s.links[dm.linkName].configErr
    && NameFits(s.links[dm.linkName].configs, dm.topicName, dm.sourceTopic, dm.explicit)
  }

  predicate AsDeclared(dm: DesiredMirror, m: MirrorState) { m.linkName == dm.linkName && m.sourceTopic == dm.sourceTopic }

  /** The declared mirror exists and follows its source. */
  predicate Mirrored(dm: DesiredMirror, s: Snapshot) {
    Checked(dm, s) && InBoth(s, dm.topicName) && AsDeclared(dm, s.mirrors[dm.topicName])
    && Following(s.mirrors[dm.topicName].status)
  }

  predicate Vacant(dm: DesiredMirror, s: Snapshot) {
    Checked(dm, s) && dm.topicName !in s.topics && dm.topicName !in s.mirrors
  }

  /** A declared key the link leaves to the destination. */
  ghost predicate Settable(dm: DesiredMirror, s: Snapshot, key: string)
    requires dm.linkName in s.links
  {
    key in dm.config && LeftTo(s.links[dm.linkName], key)
  }

  ghost predicate AllSettable(dm: DesiredMirror, s: Snapshot)
    requires dm.linkName in s.links
  {
    forall key :: key in dm.config ==> Settable(dm, s, key)
  }

  ghost predicate Has(ops: seq<Operation>, a: Action) { exists op :: op in ops && op.action == a }

  lemma CheckedIsReady(dm: DesiredMirror, s: Snapshot)
    ensures Ready(dm, s) <==> Checked(dm, s)
  {
    if dm.linkName in s.links { PrefixRule(s.links[dm.linkName], dm.topicName, dm.sourceTopic, dm.explicit); }
  }

  lemma LocalIsSettable(dm: DesiredMirror, s: Snapshot, key: string)
    requires dm.linkName in s.links && key in dm.config
    ensures Owner(s.links[dm.linkName])(key) == Local <==> Settable(dm, s, key)
  {
    OwnershipRule(s.links[dm.linkName], key);
  }

  lemma HasConcat(x: seq<Operation>, y: seq<Operation>, a: Action)
    ensures Has(x + y, a) <==> Has(x, a) || Has(y, a)
  {
    assert forall op :: op in x + y <==> op in x || op in y;
  }

  lemma HasOne(op: Operation, a: Action)
    ensures Has([op], a) <==> op.action == a
  {
    assert op in [op];
  }

  lemma HasNone(a: Action)
    ensures !Has([], a)
  {
  }

  predicate Drifts(dm: DesiredMirror, live: map<string, string>, key: string) {
    key in dm.config && !(key in live && live[key] == dm.config[key])
  }

  lemma StepHas(dm: DesiredMirror, owner: string -> Ownership, live: map<string, string>, key: string, a: Action)
    requires key in dm.config
    ensures Has(ConfigStep(dm, owner, live)(key), a) <==>
      (a == Rejected && owner(key) != Local) || (a == UpdateMirrorTopicConfig && owner(key) == Local && Drifts(dm, live, key))
  {
    HasNone(a);
    if owner(key) != Local {
      HasOne(RejectKey(dm, live, key), a);
    } else if Drifts(dm, live, key) {
      HasOne(UpdateOp(dm, live, key), a);
    }
  }

  lemma {:induction false} FlatHas(keys: seq<string>, f: string -> seq<Operation>, a: Action)
    ensures Has(FlatMap(keys, f), a) <==> exists k :: k in keys && Has(f(k), a)
  {
    if Has(FlatMap(keys, f), a) {
      var op :| op in FlatMap(keys, f) && op.action == a;
      FlatMapMember(keys, f, op);
    }
    if k :| k in keys && Has(f(k), a) {
      var op :| op in f(k) && op.action == a;
      FlatMapMember(keys, f, op);
    }
  }

  lemma ConfigHas(dm: DesiredMirror, owner: string -> Ownership, live: map<string, string>, a: Action)
    ensures Has(FlatMap(SortedKeys(dm.config.Keys), ConfigStep(dm, owner, live)), a) <==>
      || (a == Rejected && exists k :: k in dm.config && owner(k) != Local)
      || (a == UpdateMirrorTopicConfig && exists k :: k in dm.config && owner(k) == Local && Drifts(dm, live, k))
  {
    var keys, f := SortedKeys(dm.config.Keys), ConfigStep(dm, owner, live);
    SortedKeysMembers(dm.config.Keys);
    FlatHas(keys, f, a);
    forall k | k in dm.config
      ensures Has(f(k), a) <==>
        (a == Rejected && owner(k) != Local) || (a == UpdateMirrorTopicConfig && owner(k) == Local && Drifts(dm, live, k)) {
      StepHas(dm, owner, live, k, a);
    }
    forall k ensures k in keys <==> k in dm.config { assert k in keys <==> k in dm.config.Keys; }
  }

  lemma HealthHas(dm: DesiredMirror, status: string, a: Action)
    ensures Has(HealthOps(dm, status), a) <==>
      (a == MirrorTopicUnhealthy && Troubled(status)) || (a == MirrorTopicProgressing && Converging(status))
  {
    StatusClasses(status);
    HasNone(a);
    HasOne(MirrorOp(dm, MirrorTopicUnhealthy), a);
    HasOne(MirrorOp(dm, MirrorTopicProgressing), a);
  }

  lemma ReplicationHas(dm: DesiredMirror, live: int, a: Action)
    ensures Has(ReplicationOps(dm, live), a) <==>
      a == UnsupportedReplicationFactorChange && dm.replicationFactor > 0 && dm.replicationFactor != live
  {
    HasNone(a);
    if dm.replicationFactor > 0 && dm.replicationFactor != live { HasOne(ReplicationOps(dm, live)[0], a); }
  }

  lemma LiveHas(dm: DesiredMirror, owner: string -> Ownership, m: MirrorState, live: Topic, a: Action)
    ensures Has(LiveOps(dm, owner, m, live), a) <==>
      || (a == MirrorTopicUnhealthy && Troubled(m.status))
      || (a == MirrorTopicProgressing && Converging(m.status))
      || (a == UnsupportedReplicationFactorChange && dm.replicationFactor > 0 && dm.replicationFactor != live.replicationFactor)
      || (a == Rejected && exists k :: k in dm.config && owner(k) != Local)
      || (a == UpdateMirrorTopicConfig && exists k :: k in dm.config && owner(k) == Local && Drifts(dm, live.config, k))
  {
    var x, y := HealthOps(dm, m.status), ReplicationOps(dm, live.replicationFactor);
    var z := FlatMap(SortedKeys(dm.config.Keys), ConfigStep(dm, owner, live.config));
    HasConcat(x + y, z, a);
    HasConcat(x, y, a);
    HealthHas(dm, m.status, a);
    ReplicationHas(dm, live.replicationFactor, a);
    ConfigHas(dm, owner, live.config, a);
  }

  lemma AbsentHas(dm: DesiredMirror, active: bool, owner: string -> Ownership, a: Action)
    ensures Has(AbsentOps(dm, active, owner), a) <==>
      if active && forall k :: k in dm.config ==> owner(k) == Local then a == CreateMirrorTopic else a == Rejected
  {
    HasOne(MirrorOp(dm, Rejected), a);
    HasOne(CreateOp(dm), a);
    NoRejections(dm, owner);
    var rejected := FlatMap(SortedKeys(dm.config.Keys), RejectStep(dm, owner));
    if rejected != [] { assert rejected[0] in rejected; }
  }

  // ---- stage by stage ----------------------------------------------------

  function Halted(dm: DesiredMirror, s: Snapshot): Action {
    if !s.read || s.err then StateReadError
    else if dm.linkName !in s.links then Rejected
    else if s.links[dm.linkName].configErr then StateReadError
    else Rejected
  }

  /** No other check has a say while the snapshot, the link or the name is not in order. */
  lemma Unchecked(dm: DesiredMirror, s: Snapshot, a: Action)
    requires !Checked(dm, s)
    ensures Has(MirrorOps(dm, Some(s)), a) <==> a == Halted(dm, s)
  {
    CheckedIsReady(dm, s);
    HasOne(MirrorOp(dm, StateReadError), a);
    HasOne(MirrorOp(dm, Rejected), a);
  }

  lemma ClassHas(dm: DesiredMirror, s: Snapshot, a: Action)
    requires Checked(dm, s) && Classify(s, dm.topicName) != AbsentTopic && Classify(s, dm.topicName) != MirrorTopic
    ensures Has(MirrorOps(dm, Some(s)), a) <==>
      match Classify(s, dm.topicName)
      case NormalTopic => a == Rejected
      case StoppedFormerMirror => a == Rejected || a == MirrorTopicPromoted
      case StoppingMirror => a == if AsDeclared(dm, s.mirrors[dm.topicName]) then MirrorTopicStopping else Rejected
      case _ => a == StateReadError
  {
    CheckedIsReady(dm, s);
    StageSplit(dm, s);
    HasOne(MirrorOp(dm, StateReadError), a);
    HasOne(MirrorOp(dm, Rejected), a);
    HasOne(MirrorOp(dm, MirrorTopicStopping), a);
    HasOne(MirrorOp(dm, MirrorTopicPromoted), a);
    HasConcat([MirrorOp(dm, Rejected)], [MirrorOp(dm, MirrorTopicPromoted)], a);
    assert [MirrorOp(dm, Rejected)] + [MirrorOp(dm, MirrorTopicPromoted)] == [MirrorOp(dm, Rejected), MirrorOp(dm, MirrorTopicPromoted)];
  }

  ghost predicate VacantSays(dm: DesiredMirror, s: Snapshot, a: Action)
    requires dm.linkName in s.links
  {
    a == if s.links[dm.linkName].link.state == "ACTIVE" && AllSettable(dm, s) then CreateMirrorTopic else Rejected
  }

  lemma VacantHas(dm: DesiredMirror, s: Snapshot, a: Action)
    requires Vacant(dm, s)
    ensures Has(MirrorOps(dm, Some(s)), a) <==> VacantSays(dm, s, a)
  {
    Classes(s, dm.topicName);
    CheckedIsReady(dm, s);
    StageSplit(dm, s);
    AbsentHas(dm, LinkActive(s.links[dm.linkName]), Owner(s.links[dm.linkName]), a);
    forall k | k in dm.config ensures Owner(s.links[dm.linkName])(k) == Local <==> Settable(dm, s, k) { LocalIsSettable(dm, s, k); }
  }

  ghost predicate MirroredSays(dm: DesiredMirror, s: Snapshot, a: Action)
    requires dm.linkName in s.links && InBoth(s, dm.topicName)
  {
    var status, live := s.mirrors[dm.topicName].status, s.topics[dm.topicName];
    || (a == MirrorTopicUnhealthy && Troubled(status))
    || (a == MirrorTopicProgressing && Converging(status))
    || (a == UnsupportedReplicationFactorChange && dm.replicationFactor > 0 && dm.replicationFactor != live.replicationFactor)
    || (a == Rejected && !AllSettable(dm, s))
    || (a == UpdateMirrorTopicConfig && exists k :: Settable(dm, s, k) && Drifts(dm, live.config, k))
  }

  lemma MirroredHas(dm: DesiredMirror, s: Snapshot, a: Action)
    requires Mirrored(dm, s)
    ensures Has(MirrorOps(dm, Some(s)), a) <==> MirroredSays(dm, s, a)
  {
    Classes(s, dm.topicName);
    CheckedIsReady(dm, s);
    StageSplit(dm, s);
    LiveHas(dm, Owner(s.links[dm.linkName]), s.mirrors[dm.topicName], s.topics[dm.topicName], a);
    forall k | k in dm.config ensures Owner(s.links[dm.linkName])(k) == Local <==> Settable(dm, s, k) { LocalIsSettable(dm, s, k); }
  }

  lemma StrangerHas(dm: DesiredMirror, s: Snapshot, a: Action)
    requires Checked(dm, s) && InBoth(s, dm.topicName) && Following(s.mirrors[dm.topicName].status)
    requires !AsDeclared(dm, s.mirrors[dm.topicName])
    ensures Has(MirrorOps(dm, Some(s)), a) <==> a == Rejected
  {
    Classes(s, dm.topicName);
    CheckedIsReady(dm, s);
    StageSplit(dm, s);
    HasOne(MirrorOp(dm, Rejected), a);
  }

  predicate UnfollowedSays(dm: DesiredMirror, s: Snapshot, a: Action) {
    if dm.topicName !in s.mirrors then a == Rejected
    else if dm.topicName !in s.topics || !Recognised(s.mirrors[dm.topicName].status) then a == StateReadError
    else if s.mirrors[dm.topicName].status == "STOPPED" then a == Rejected || a == MirrorTopicPromoted
    else a == if AsDeclared(dm, s.mirrors[dm.topicName]) then MirrorTopicStopping else Rejected
  }

  lemma UnfollowedHas(dm: DesiredMirror, s: Snapshot, a: Action)
    requires Checked(dm, s) && (dm.topicName in s.topics || dm.topicName in s.mirrors)
    requires !(InBoth(s, dm.topicName) && Following(s.mirrors[dm.topicName].status))
    ensures Has(MirrorOps(dm, Some(s)), a) <==> UnfollowedSays(dm, s, a)
  {
    Classes(s, dm.topicName);
    ClassHas(dm, s, a);
  }

  // ---- one action at a time ----------------------------------------------

  lemma StatusFacts(status: string)
    ensures Following(status) ==> status != "STOPPED" && status != "PENDING_STOPPED" && Recognised(status)
    ensures Recognised(status) && !Following(status) ==> status == "STOPPED" || status == "PENDING_STOPPED"
  {
  }

  lemma FollowedHas(dm: DesiredMirror, s: Snapshot, a: Action)
    requires Checked(dm, s) && InBoth(s, dm.topicName) && Following(s.mirrors[dm.topicName].status)
    ensures Has(MirrorOps(dm, Some(s)), a) <==>
      if AsDeclared(dm, s.mirrors[dm.topicName]) then MirroredSays(dm, s, a) else a == Rejected
  {
    if AsDeclared(dm, s.mirrors[dm.topicName]) { MirroredHas(dm, s, a); } else { StrangerHas(dm, s, a); }
  }

  /** The stages in which a mirror exists in both listings. */
  lemma InBothHas(dm: DesiredMirror, s: Snapshot, a: Action)
    requires Checked(dm, s) && InBoth(s, dm.topicName)
    ensures var m := s.mirrors[dm.topicName];
      Has(MirrorOps(dm, Some(s)), a) <==>
      if !Recognised(m.status) then a == StateReadError
      else if m.status == "STOPPED" then a == Rejected || a == MirrorTopicPromoted
      else if !AsDeclared(dm, m) then a == Rejected
      else if m.status == "PENDING_STOPPED" then a == MirrorTopicStopping
      else MirroredSays(dm, s, a)
  {
    StatusFacts(s.mirrors[dm.topicName].status);
    if !Following(s.mirrors[dm.topicName].status) {
      UnfollowedHas(dm, s, a);
    } else {
      FollowedHas(dm, s, a);
    }
  }

  /** And those in which it does not. */
  lemma NotInBothHas(dm: DesiredMirror, s: Snapshot, a: Action)
    requires !(Checked(dm, s) && InBoth(s, dm.topicName))
    ensures Has(MirrorOps(dm, Some(s)), a) <==>
      if !Checked(dm, s) then a == Halted(dm, s)
      else if Vacant(dm, s) then VacantSays(dm, s, a)
      else a == if dm.topicName in s.mirrors then StateReadError else Rejected
  {
    if !Checked(dm, s) {
      Unchecked(dm, s, a);
    } else if Vacant(dm, s) {
      VacantHas(dm, s, a);
    } else {
      UnfollowedHas(dm, s, a);
    }
  }

  /** A mirror in trouble, or still being set up. */
  lemma HealthFindings(dm: DesiredMirror, s: Snapshot, a: Action)
    requires a == MirrorTopicUnhealthy || a == MirrorTopicProgressing
    ensures Has(MirrorOps(dm, Some(s)), a) <==>
      Mirrored(dm, s) && if a == MirrorTopicUnhealthy then Troubled(s.mirrors[dm.topicName].status)
                         else Converging(s.mirrors[dm.topicName].status)
  {
    if Checked(dm, s) && InBoth(s, dm.topicName) {
      StatusFacts(s.mirrors[dm.topicName].status);
      InBothHas(dm, s, a);
    } else {
      NotInBothHas(dm, s, a);
    }
  }

  /** A mirror on its way to an ordinary topic. */
  lemma StoppingFinding(dm: DesiredMirror, s: Snapshot)
    ensures Has(MirrorOps(dm, Some(s)), MirrorTopicStopping) <==>
      Checked(dm, s) && InBoth(s, dm.topicName) && AsDeclared(dm, s.mirrors[dm.topicName])
      && s.mirrors[dm.topicName].status == "PENDING_STOPPED"
  {
    if Checked(dm, s) && InBoth(s, dm.topicName) {
      StatusFacts(s.mirrors[dm.topicName].status);
      InBothHas(dm, s, MirrorTopicStopping);
    } else {
      NotInBothHas(dm, s, MirrorTopicStopping);
    }
  }

  /** And one that has become one, whatever it mirrored. */
  lemma PromotedFinding(dm: DesiredMirror, s: Snapshot)
    ensures Has(MirrorOps(dm, Some(s)), MirrorTopicPromoted) <==>
      Checked(dm, s) && InBoth(s, dm.topicName) && s.mirrors[dm.topicName].status == "STOPPED"
  {
    if Checked(dm, s) && InBoth(s, dm.topicName) {
      StatusFacts(s.mirrors[dm.topicName].status);
      InBothHas(dm, s, MirrorTopicPromoted);
    } else {
      NotInBothHas(dm, s, MirrorTopicPromoted);
    }
  }

  /** A mirror is created under a vacant name, over an active link, when the
      link owns none of the declared keys. */
  lemma CreationPlanned(dm: DesiredMirror, s: Snapshot)
    ensures Has(MirrorOps(dm, Some(s)), CreateMirrorTopic) <==>
      Vacant(dm, s) && s.links[dm.linkName].link.state == "ACTIVE" && AllSettable(dm, s)
  {
    if Checked(dm, s) && InBoth(s, dm.topicName) {
      InBothHas(dm, s, CreateMirrorTopic);
    } else {
      NotInBothHas(dm, s, CreateMirrorTopic);
    }
  }

  /** A declared key that drifts is set. */
  lemma AlterationPlanned(dm: DesiredMirror, s: Snapshot)
    ensures Has(MirrorOps(dm, Some(s)), UpdateMirrorTopicConfig) <==>
      Mirrored(dm, s) && exists k :: Settable(dm, s, k) && Drifts(dm, s.topics[dm.topicName].config, k)
  {
    if Checked(dm, s) && InBoth(s, dm.topicName) {
      StatusFacts(s.mirrors[dm.topicName].status);
      InBothHas(dm, s, UpdateMirrorTopicConfig);
    } else {
      NotInBothHas(dm, s, UpdateMirrorTopicConfig);
    }
  }

  /** A replication factor that differs cannot be. */
  lemma ReplicasReported(dm: DesiredMirror, s: Snapshot)
    ensures Has(MirrorOps(dm, Some(s)), UnsupportedReplicationFactorChange) <==>
      Mirrored(dm, s) && dm.replicationFactor > 0 && dm.replicationFactor != s.topics[dm.topicName].replicationFactor
  {
    if Checked(dm, s) && InBoth(s, dm.topicName) {
      StatusFacts(s.mirrors[dm.topicName].status);
      InBothHas(dm, s, UnsupportedReplicationFactorChange);
    } else {
      NotInBothHas(dm, s, UnsupportedReplicationFactorChange);
    }
  }

  /** What cannot be told: an incomplete snapshot, unread link configs, a mirror
      without its topic, or a status the tool does not know. */
  lemma UnknownsReported(dm: DesiredMirror, s: Snapshot)
    ensures Has(MirrorOps(dm, None), StateReadError)
    ensures Has(MirrorOps(dm, Some(s)), StateReadError) <==>
      || !s.read || s.err
      || (dm.linkName in s.links && s.links[dm.linkName].configErr)
      || (Checked(dm, s) && dm.topicName in s.mirrors
          && !(dm.topicName in s.topics && Recognised(s.mirrors[dm.topicName].status)))
  {
    HasOne(MirrorOp(dm, StateReadError), StateReadError);
    if Checked(dm, s) && InBoth(s, dm.topicName) {
      InBothHas(dm, s, StateReadError);
    } else {
      NotInBothHas(dm, s, StateReadError);
    }
  }

  /** Refused before the topic is looked at. */
  predicate LinkRefused(dm: DesiredMirror, s: Snapshot) {
    s.read && !s.err
    && (dm.linkName !in s.links
        || (!s.links[dm.linkName].configErr
            && !NameFits(s.links[dm.linkName].configs, dm.topicName, dm.sourceTopic, dm.explicit)))
  }

  /** The topic is no mirror, no longer one, or another one. */
  predicate TopicRefused(dm: DesiredMirror, s: Snapshot) {
    || (dm.topicName in s.topics && dm.topicName !in s.mirrors)
    || (InBoth(s, dm.topicName) && s.mirrors[dm.topicName].status == "STOPPED")
    || (InBoth(s, dm.topicName) && Recognised(s.mirrors[dm.topicName].status) && !AsDeclared(dm, s.mirrors[dm.topicName]))
  }

  /** What is refused: the link, the topic, a link that is not active, or a key the link owns. */
  lemma Refusals(dm: DesiredMirror, s: Snapshot)
    ensures Has(MirrorOps(dm, Some(s)), Rejected) <==>
      || LinkRefused(dm, s)
      || (Checked(dm, s) && TopicRefused(dm, s))
      || (Vacant(dm, s) && !(s.links[dm.linkName].link.state == "ACTIVE" && AllSettable(dm, s)))
      || (Mirrored(dm, s) && !AllSettable(dm, s))
  {
    if Checked(dm, s) && InBoth(s, dm.topicName) {
      StatusFacts(s.mirrors[dm.topicName].status);
      InBothHas(dm, s, Rejected);
    } else {
      NotInBothHas(dm, s, Rejected);
    }
  }

  // ---- what each operation carries ---------------------------------------

  function LinkPayload(dm: DesiredMirror, replicas: int, declared: map<string, string>): Payload {
    MirrorPayload(dm.linkName, dm.sourceTopic, dm.explicit, replicas, declared)
  }

  /** The operation is the mirror's own; a creation carries the whole
      declaration, an alteration one key with its live and its declared value. */
  predicate Carries(dm: DesiredMirror, live: map<string, string>, op: Operation) {
    && op.source == dm.source && op.target == dm.topicName && op.mode == dm.mode && !op.pruneAllowed
    && (op.action == CreateMirrorTopic ==> op.payload == LinkPayload(dm, dm.replicationFactor, dm.config))
    && (op.action == UpdateMirrorTopicConfig ==>
          && Drifts(dm, live, op.field) && op.to == dm.config[op.field]
          && op.from == (if op.field in live then live[op.field] else "") && op.payload == LinkPayload(dm, 0, map[]))
  }

  function LiveConfig(dm: DesiredMirror, s: Snapshot): map<string, string> {
    if dm.topicName in s.topics then s.topics[dm.topicName].config else map[]
  }

  ghost predicate AllCarry(dm: DesiredMirror, live: map<string, string>, ops: seq<Operation>) {
    forall op :: op in ops ==> Carries(dm, live, op)
  }

  lemma ConfigCarries(dm: DesiredMirror, owner: string -> Ownership, live: map<string, string>)
    ensures AllCarry(dm, live, FlatMap(SortedKeys(dm.config.Keys), ConfigStep(dm, owner, live)))
    ensures AllCarry(dm, live, FlatMap(SortedKeys(dm.config.Keys), RejectStep(dm, owner)))
  {
    var keys := SortedKeys(dm.config.Keys);
    forall op | op in FlatMap(keys, ConfigStep(dm, owner, live)) ensures Carries(dm, live, op) {
      FlatMapMember(keys, ConfigStep(dm, owner, live), op);
    }
    forall op | op in FlatMap(keys, RejectStep(dm, owner)) ensures Carries(dm, live, op) {
      FlatMapMember(keys, RejectStep(dm, owner), op);
    }
  }

  lemma AbsentCarries(dm: DesiredMirror, active: bool, owner: string -> Ownership)
    ensures AllCarry(dm, map[], AbsentOps(dm, active, owner))
  {
    ConfigCarries(dm, owner, map[]);
  }

  lemma LiveCarries(dm: DesiredMirror, owner: string -> Ownership, m: MirrorState, live: Topic)
    ensures AllCarry(dm, live.config, LiveOps(dm, owner, m, live))
  {
    ConfigCarries(dm, owner, live.config);
    assert AllCarry(dm, live.config, HealthOps(dm, m.status));
    assert AllCarry(dm, live.config, ReplicationOps(dm, live.replicationFactor));
  }

  lemma FindingCarries(dm: DesiredMirror, live: map<string, string>, a: Action, b: Action)
    requires a != CreateMirrorTopic && a != UpdateMirrorTopicConfig && b != CreateMirrorTopic && b != UpdateMirrorTopicConfig
    ensures AllCarry(dm, live, [MirrorOp(dm, a)])
    ensures AllCarry(dm, live, [MirrorOp(dm, a), MirrorOp(dm, b)])
  {
    assert Carries(dm, live, MirrorOp(dm, a)) && Carries(dm, live, MirrorOp(dm, b));
  }

  lemma ClassCarries(dm: DesiredMirror, link: LinkInfo, s: Snapshot)
    ensures AllCarry(dm, LiveConfig(dm, s), ClassOps(dm, link, s))
  {
    var class_ := Classify(s, dm.topicName);
    if class_ == AbsentTopic {
      AbsentCarries(dm, LinkActive(link), Owner(link));
    } else if class_ == MirrorTopic && SameMirror(dm, s.mirrors[dm.topicName]) {
      LiveCarries(dm, Owner(link), s.mirrors[dm.topicName], s.topics[dm.topicName]);
    } else {
      FindingCarries(dm, LiveConfig(dm, s), Rejected, MirrorTopicPromoted);
      FindingCarries(dm, LiveConfig(dm, s), StateReadError, Rejected);
      FindingCarries(dm, LiveConfig(dm, s), MirrorTopicStopping, Rejected);
    }
  }

  lemma MirrorOpFields(dm: DesiredMirror, s: Snapshot)
    ensures AllCarry(dm, LiveConfig(dm, s), MirrorOps(dm, Some(s)))
  {
    StageSplit(dm, s);
    if Ready(dm, s) { ClassCarries(dm, s.links[dm.linkName], s); }
  }

  // ---- the writer --------------------------------------------------------

  predicate LinkUsable(s: Snapshot, name: string) {
    s.read && !s.err && name in s.links && !s.links[name].configErr
  }

  /** The creation is posted exactly when the name is vacant and fits an active
      link that owns none of the keys it carries. */
  lemma CreationAccepted(op: Operation, s: Snapshot)
    requires op.payload.MirrorPayload?
    ensures CreateCheck(op, s).None? <==> var id := op.payload;
      && LinkUsable(s, id.linkName) && op.target !in s.topics && op.target !in s.mirrors
      && s.links[id.linkName].link.state == "ACTIVE"
      && NameFits(s.links[id.linkName].configs, op.target, id.sourceTopic, id.explicit)
      && forall k :: k in id.declared ==> LeftTo(s.links[id.linkName], k)
  {
    var id := op.payload;
    if LinkUsable(s, id.linkName) {
      var l := s.links[id.linkName];
      Classes(s, op.target);
      PrefixRule(l, op.target, id.sourceTopic, id.explicit);
      CheckKeysLocal(Owner(l), SortedKeys(id.declared.Keys));
      SortedKeysMembers(id.declared.Keys);
      forall k ensures Owner(l)(k) == Local <==> LeftTo(l, k) { OwnershipRule(l, k); }
      assert forall k :: k in SortedKeys(id.declared.Keys) <==> k in id.declared;
    }
  }

  /** An alteration is sent exactly when the topic is a mirror, on that link and
      of that source, that still follows it, and the link leaves the key alone. */
  lemma AlterationAccepted(op: Operation, s: Snapshot)
    requires op.payload.MirrorPayload?
    ensures AlterCheck(op, s).None? <==> var id := op.payload;
      && LinkUsable(s, id.linkName) && InBoth(s, op.target) && Following(s.mirrors[op.target].status)
      && s.mirrors[op.target].linkName == id.linkName && s.mirrors[op.target].sourceTopic == id.sourceTopic
      && LeftTo(s.links[id.linkName], op.field)
  {
    Classes(s, op.target);
    if LinkUsable(s, op.payload.linkName) { OwnershipRule(s.links[op.payload.linkName], op.field); }
  }

  /** Why nothing is written, as far as the link is concerned. */
  lemma LinkErrors(op: Operation, s: Snapshot)
    requires op.payload.MirrorPayload?
    ensures var link, create, alter := op.payload.linkName, CreateCheck(op, s), AlterCheck(op, s);
      && (create == Some(SnapshotIncomplete) <==> !s.read || s.err) && (alter == Some(SnapshotIncomplete) <==> !s.read || s.err)
      && (s.read && !s.err && link !in s.links ==> create == alter == Some(LinkMissing))
      && (s.read && !s.err && link in s.links && s.links[link].configErr ==> create == alter == Some(LinkConfigUnread))
  {
    if LinkUsable(s, op.payload.linkName) {
      var keys := SortedKeys(op.payload.declared.Keys);
      KeyErrors(s.links[op.payload.linkName], keys);
    }
  }

  /** The first key in string order that the link does not leave alone. */
  lemma {:induction false} KeyErrors(l: LinkInfo, keys: seq<string>)
    ensures CheckKeys(Owner(l), keys).Some? ==>
      exists k :: k in keys && !LeftTo(l, k)
                  && CheckKeys(Owner(l), keys) == Some(if Blank(SyncList(l)) then KeyUndetermined(k) else KeyLinkManaged(k))
  {
    if keys != [] {
      OwnershipRule(l, keys[0]);
      assert keys[0] in keys && forall k :: k in keys[1..] ==> k in keys;
      KeyErrors(l, keys[1..]);
    }
  }
}
