/** The operation taxonomy shared by the planner and the executor. */
module Operations {
  import opened Basics
  import opened Model

  datatype Action =
    | NoOp
    | CreateTopic | UpdateTopicConfig | IncreasePartitions | UpdateReplicationFactor | DeleteTopic
    | CreateAcl | DeleteAcl
    | Rejected
    | RegisterSchema | RaiseSchemaCompatibility | LowerSchemaCompatibility | DeleteSubject | SchemaSuperseded
    | SetQuota | UpdateQuota | RemoveQuota
    | AddRoleBinding | RemoveRoleBinding
    | CreateScramCredential | UpdateScramCredential | RotateScramCredential | DeleteScramCredential
    | CreateMirrorTopic | UpdateMirrorTopicConfig
    | MirrorTopicUnhealthy | MirrorTopicStopping | MirrorTopicPromoted | MirrorTopicProgressing
    | UnsupportedReplicationFactorChange | StateReadError

  /** The string value of an action, the first key of the display order. */
  function ActionName(a: Action): string {
    match a
    case NoOp => "NoOp"
    case CreateTopic => "CreateTopic"
    case UpdateTopicConfig => "UpdateTopicConfig"
    case IncreasePartitions => "IncreasePartitions"
    case UpdateReplicationFactor => "UpdateReplicationFactor"
    case DeleteTopic => "DeleteTopic"
    case CreateAcl => "CreateAcl"
    case DeleteAcl => "DeleteAcl"
    case Rejected => "Rejected"
    case RegisterSchema => "RegisterSchema"
    case RaiseSchemaCompatibility => "RaiseSchemaCompatibility"
    case LowerSchemaCompatibility => "LowerSchemaCompatibility"
    case DeleteSubject => "DeleteSubject"
    case SchemaSuperseded => "SchemaSuperseded"
    case SetQuota => "SetQuota"
    case UpdateQuota => "UpdateQuota"
    case RemoveQuota => "RemoveQuota"
    case AddRoleBinding => "AddRoleBinding"
    case RemoveRoleBinding => "RemoveRoleBinding"
    case CreateScramCredential => "CreateScramCredential"
    case UpdateScramCredential => "UpdateScramCredential"
    case RotateScramCredential => "RotateScramCredential"
    case DeleteScramCredential => "DeleteScramCredential"
    case CreateMirrorTopic => "CreateMirrorTopic"
    case UpdateMirrorTopicConfig => "UpdateMirrorTopicConfig"
    case MirrorTopicUnhealthy => "MirrorTopicUnhealthy"
    case MirrorTopicStopping => "MirrorTopicStopping"
    case MirrorTopicPromoted => "MirrorTopicPromoted"
    case MirrorTopicProgressing => "MirrorTopicProgressing"
    case UnsupportedReplicationFactorChange => "UnsupportedReplicationFactorChange"
    case StateReadError => "StateReadError"
  }

  datatype Gate = GateNone | GateDestructive | GateDelete | GatePrune

  /** Actions absent from the taxonomy carry no gate. */
  function GateOf(a: Action): Gate {
    match a
    case IncreasePartitions | UpdateReplicationFactor | LowerSchemaCompatibility | DeleteSubject
       | RemoveQuota | DeleteScramCredential => GateDestructive
    case DeleteTopic => GateDelete
    case DeleteAcl | RemoveRoleBinding => GatePrune
    case _ => GateNone
  }

  /** The executable part of an operation; an action reads only its own kind. */
  datatype Payload =
    | NoPayload
    | TopicPayload(partitions: int, replicationFactor: int, config: map<string, string>)
    | AclPayload(acl: Acl)
    | SchemaPayload(subject: string, topic: string)
    | QuotaPayload(entity: Entity, limits: map<string, real>)
    | BindingPayload(binding: Binding)
    | ScramPayload(id: ScramId, iterations: int, deleteMechanism: string, password: Option<PasswordRef>)
    | MirrorPayload(linkName: string, sourceTopic: string, explicit: bool, replicas: int, declared: map<string, string>)

  datatype Operation = Operation(action: Action, source: Source, target: string, field: string, from: string, to: string,
                                 mode: Mode, pruneAllowed: bool, payload: Payload)

  function New(a: Action): Operation {
    Operation(a, NO_SOURCE, "", "", "", "", Unattributed, false, NoPayload)
  }

  function SubjectKey(op: Operation): string { if op.payload.SchemaPayload? then op.payload.subject else "" }

  /** Owned by a resource whose mode forbids mutation. */
  predicate ReportOnly(op: Operation) { op.mode == DetectOnly || op.mode == ObserveOnly }

  /** The four-key display order. */
  predicate OpLess(a: Operation, b: Operation) {
    if ActionName(a.action) != ActionName(b.action) then StrLess(ActionName(a.action), ActionName(b.action))
    else if a.target != b.target then StrLess(a.target, b.target)
    else if a.field != b.field then StrLess(a.field, b.field)
    else StrLess(SubjectKey(a), SubjectKey(b))
  }
}
