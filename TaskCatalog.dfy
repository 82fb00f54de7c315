/**
  The version-1 catalog of remote tasks of the distributed server
  (`ODefaultRemoteTaskFactoryV1`): it turns the integer code read from the
  wire into the kind of task to instantiate.  Each task class is modelled only
  by its constructor tag; what a task carries and does is outside this model.
*/
module TaskCatalog {
  import opened JavaInt

  /** One tag per task class the catalog names. */
  datatype TaskKind =
    | CreateRecord
    | ReadRecord
    | ReadRecordIfNotLatest
    | UpdateRecord
    | DeleteRecord
    | SqlCommand
    | Script
    | Tx
    | Completed2pc             // the plain completion task of protocol version 0
    | Completed2pcV1           // the completion task that also carries the partition keys
    | StopServer
    | RestartServer
    | ResurrectRecord
    | SyncCluster
    | SyncDatabaseDelta
    | SyncDatabase
    | CopyDatabaseChunk
    | Gossip
    | RepairRecords
    | RepairCluster
    | ClusterRepairInfo
    | FixCreateRecord
    | FixUpdateRecord
    | StartReplication
    | DropDatabase
    | UpdateDatabaseConfiguration
    | UpdateDatabaseStatus
    | DistributedLock
    | RequestDatabaseConfiguration
    | UnreachableServerLocal   // a marker that only the local server may create
    | EnterpriseStats

  /**
    The outcome of `createTask`: a fresh task of some kind, or one of the two
    `IllegalArgumentException`s, each carrying the code its message reports.
  */
  datatype TaskResult =
    | Ok(kind: TaskKind)
    | RemoteNotSupported(code: int32)  // "... is not supported in remote configuration"
    | Unsupported(code: int32)         // "... is not supported"

  /** The `FACTORYID` constant of each task class. */
  function FactoryId(kind: TaskKind): (code: int32)
    ensures 0 <= code <= 29
  {
    match kind
    case CreateRecord => 0
    case ReadRecord => 1
    case ReadRecordIfNotLatest => 2
    case UpdateRecord => 3
    case DeleteRecord => 4
    case SqlCommand => 5
    case Script => 6
    case Tx => 7
    case Completed2pc => 8
    case Completed2pcV1 => 8   // assumed: its case is labelled with the code of the task it replaces
    case StopServer => 9
    case RestartServer => 10
    case ResurrectRecord => 11
    case SyncCluster => 12
    case SyncDatabaseDelta => 13
    case SyncDatabase => 14
    case CopyDatabaseChunk => 15
    case Gossip => 16
    case RepairRecords => 17
    case RepairCluster => 18
    case ClusterRepairInfo => 19
    case FixCreateRecord => 20
    case FixUpdateRecord => 21
    case StartReplication => 22
    case DropDatabase => 23
    case UpdateDatabaseConfiguration => 24
    case UpdateDatabaseStatus => 25
    case DistributedLock => 26
    case RequestDatabaseConfiguration => 27
    case UnreachableServerLocal => 28
    case EnterpriseStats => 29
  }

  /** The codes a remote peer may ask this catalog for. */
  predicate RemotelyCreatableCode(code: int32) {
    0 <= code <= 27 || code == 29
  }

  /** The kinds this catalog ever hands out. */
  predicate RemotelyCreatableKind(kind: TaskKind) {
    kind != Completed2pc && kind != UnreachableServerLocal
  }

  /** The protocol version this catalog implements. */
  function ProtocolVersion(): (v: int32)
    ensures v == 1
  {
    1
  }

  /** `createTask(code)`: decodes a task code received from a remote peer. */
  function CreateTask(code: int32): (r: TaskResult)
    ensures r.Ok? <==> RemotelyCreatableCode(code)
    ensures r.RemoteNotSupported? <==> code == 28
    ensures r.Unsupported? <==> code < 0 || 29 < code
    ensures !r.Ok? ==> r.code == code
  {
    match code
    case 0 => Ok(CreateRecord)
    case 1 => Ok(ReadRecord)
    case 2 => Ok(ReadRecordIfNotLatest)
    case 3 => Ok(UpdateRecord)
    case 4 => Ok(DeleteRecord)
    case 5 => Ok(SqlCommand)
    case 6 => Ok(Script)
    case 7 => Ok(Tx)
    case 8 => Ok(Completed2pcV1)
    case 9 => Ok(StopServer)
    case 10 => Ok(RestartServer)
    case 11 => Ok(ResurrectRecord)
    case 12 => Ok(SyncCluster)
    case 13 => Ok(SyncDatabaseDelta)
    case 14 => Ok(SyncDatabase)
    case 15 => Ok(CopyDatabaseChunk)
    case 16 => Ok(Gossip)
    case 17 => Ok(RepairRecords)
    case 18 => Ok(RepairCluster)
    case 19 => Ok(ClusterRepairInfo)
    case 20 => Ok(FixCreateRecord)
    case 21 => Ok(FixUpdateRecord)
    case 22 => Ok(StartReplication)
    case 23 => Ok(DropDatabase)
    case 24 => Ok(UpdateDatabaseConfiguration)
    case 25 => Ok(UpdateDatabaseStatus)
    case 26 => Ok(DistributedLock)
    case 27 => Ok(RequestDatabaseConfiguration)
    case 28 => RemoteNotSupported(code)
    case 29 => Ok(EnterpriseStats)
    case _ => Unsupported(code)
  }

  /** Every code a peer may send decodes to a task whose own code it is. */
  lemma CodeRoundTrip(code: int32)
    requires RemotelyCreatableCode(code)
    ensures CreateTask(code).Ok?
    ensures FactoryId(CreateTask(code).kind) == code
    ensures RemotelyCreatableKind(CreateTask(code).kind)
  {
  }

  /** Distinct codes never decode to the same task kind. */
  lemma CreateTaskInjective(c1: int32, c2: int32)
    requires CreateTask(c1).Ok? && CreateTask(c2).Ok?
    requires CreateTask(c1).kind == CreateTask(c2).kind
    ensures c1 == c2
  {
    CodeRoundTrip(c1);
    CodeRoundTrip(c2);
  }

  /**
    Going from kind to code and back gives the same kind exactly for the kinds
    the catalog hands out: the plain completion task and the local-only marker
    are never produced, although their codes are known.
  */
  lemma KindRoundTrip(kind: TaskKind)
    ensures CreateTask(FactoryId(kind)) == Ok(kind) <==> RemotelyCreatableKind(kind)
  {
  }

  /** The code of the completion task decodes to the version-1 variant. */
  lemma CompletionCodeGivesV1Variant()
    ensures CreateTask(FactoryId(Completed2pc)) == Ok(Completed2pcV1)
    ensures CreateTask(FactoryId(Completed2pcV1)) != Ok(Completed2pc)
  {
  }

  /** The two rejections are told apart: no code gives both. */
  lemma ErrorClassesDistinct(c1: int32, c2: int32)
    requires CreateTask(c1).RemoteNotSupported? && CreateTask(c2).Unsupported?
    ensures c1 != c2 && c1 == FactoryId(UnreachableServerLocal)
  {
  }
}
