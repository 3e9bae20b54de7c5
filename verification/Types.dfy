/** The values that travel between replicas and the server: operations, transactions,
    checkpoints, push-pull packs and the errors they carry. */
module Types {

  datatype Option<+T> = None | Some(value: T)

  datatype Result<+T, +E> = Success(value: T) | Failure(error: E)

  /** A signed 64-bit machine integer. */
  type i64 = x: int | -0x8000_0000_0000_0000 <= x < 0x8000_0000_0000_0000

  type byte = x: int | 0 <= x < 256

  const TWO_63: int := 0x8000_0000_0000_0000
  const TWO_64: int := 0x1_0000_0000_0000_0000

  type Cuid = nat
  type Duid = nat
  type ResourceId = nat

  datatype DataType = Counter | Variable | Map

  datatype DatatypeState =
    | Creating
    | Subscribing
    | SubscribingOrCreating
    | Subscribed
    | Unsubscribing
    | Deleting
    | Disabled

  datatype OperationBody =
    | CounterIncrease(delta: i64)
    | Snapshot(data: seq<byte>)
  {
    function Size(): nat {
      match this
      case CounterIncrease(_) => 8
      case Snapshot(data) => |data|
    }
  }

  const OPERATION_CONSTANT_SIZE: nat := 8 + 16

  datatype Operation = Operation(lamport: nat, body: OperationBody) {
    function Size(): nat { OPERATION_CONSTANT_SIZE + body.Size() }

    function Delta(): int {
      if body.CounterIncrease? then body.delta else 0
    }
  }

  function OperationsSize(ops: seq<Operation>): nat {
    if ops == [] then 0 else OperationsSize(ops[..|ops| - 1]) + ops[|ops| - 1].Size()
  }

  function OperationsDelta(ops: seq<Operation>): int {
    if ops == [] then 0 else OperationsDelta(ops[..|ops| - 1]) + ops[|ops| - 1].Delta()
  }

  /** The highest lamport among the operations, 0 when there is none. */
  function MaxLamport(ops: seq<Operation>): (m: nat)
    ensures forall k :: 0 <= k < |ops| ==> ops[k].lamport <= m
    ensures m == 0 || exists k :: 0 <= k < |ops| && ops[k].lamport == m
  {
    if ops == [] then 0 else Max(MaxLamport(ops[..|ops| - 1]), ops[|ops| - 1].lamport)
  }

  function Max(a: nat, b: nat): nat { if a > b then a else b }

  const TRANSACTION_CONSTANT_SIZE: nat := 24 + 16 + 24 + 8 + 8 + 1

  datatype Transaction = Transaction(
    cuid: Cuid,
    cseq: nat,
    sseq: nat,
    tag: Option<string>,
    event: bool,
    operations: seq<Operation>)
  {
    static function New(cuid: Cuid, cseq: nat): Transaction {
      Transaction(cuid, cseq, 0, None, false, [])
    }

    function PushOperation(op: Operation): Transaction {
      this.(operations := operations + [op])
    }

    function Size(): nat {
      TRANSACTION_CONSTANT_SIZE
      + (match tag case Some(s) => |s| case None => 0)
      + OperationsSize(operations)
    }

    function Delta(): int { OperationsDelta(operations) }

    /** The transaction as its client committed it, before the server numbers it. */
    function Unnumbered(): Transaction { this.(sseq := 0) }

    /** Only counter increases; every other body is unimplemented in the counter. */
    predicate OnlyIncreases() {
      forall k :: 0 <= k < |operations| ==> operations[k].body.CounterIncrease?
    }
  }

  datatype CheckPoint = CheckPoint(sseq: nat, cseq: nat) {
    function CheckWith(other: CheckPoint): CheckPoint {
      CheckPoint(Max(sseq, other.sseq), Max(cseq, other.cseq))
    }
  }

  const ZERO_CHECKPOINT := CheckPoint(0, 0)

  datatype OperationId = OperationId(lamport: nat, cuid: Cuid, cseq: nat) {
    function Next(isNewTx: bool): OperationId {
      OperationId(lamport + 1, cuid, if isNewTx then cseq + 1 else cseq)
    }

    /** The order of operations: by lamport, ties broken by client. */
    predicate Less(other: OperationId) {
      lamport < other.lamport || (lamport == other.lamport && cuid < other.cuid)
    }
  }

  /** Wire errors set by the server. */
  datatype PushPullError =
    | ProtocolViolation
    | ReadonlyViolation
    | CreateFailed
    | ResourceNotFound
    | MissingSubscription
    | ServerInternalError

  datatype RecoveryAction =
    | NotifyOnly
    | RetryWithBackOff
    | RollbackTransaction
    | Resubscribe
    | ResubscribeWithBackOff
    | Disable

  /** Errors met on the client; only those that are routed to a recovery action. */
  datatype DatatypeError =
    | SyncFailed
    | NonSequentialCseq
    | PushBufferExceededMaxMemSize
    | GetPushingTransactions
    | Deserialize
    | ServerRejected(reason: PushPullError)
  {
    function Recovery(): RecoveryAction {
      match this
      case SyncFailed => RetryWithBackOff
      case NonSequentialCseq => RollbackTransaction
      case PushBufferExceededMaxMemSize => RollbackTransaction
      case GetPushingTransactions => Disable
      case Deserialize => Disable
      case ServerRejected(_) => Disable
    }
  }

  function ToDatatypeError(e: PushPullError): DatatypeError {
    if e.ServerInternalError? then SyncFailed else ServerRejected(e)
  }

  datatype PushPullPack = PushPullPack(
    resource: ResourceId,
    cuid: Cuid,
    duid: Duid,
    typ: DataType,
    state: DatatypeState,
    checkpoint: CheckPoint,
    transactions: seq<Transaction>,
    snapshotTransaction: Option<Transaction>,
    isReadonly: bool,
    error: Option<PushPullError>)
  {
    /** The empty answer to a request: zero checkpoint, no transactions, no error. */
    function PulledStub(): PushPullPack {
      this.(checkpoint := ZERO_CHECKPOINT, transactions := [], snapshotTransaction := None, error := None)
    }

    function Rejected(e: PushPullError): PushPullPack {
      PulledStub().(error := Some(e), state := Disabled)
    }

    function Checkpointing(cp: CheckPoint): PushPullPack {
      this.(checkpoint := CheckPoint(cp.sseq,
        if transactions == [] then cp.cseq else transactions[|transactions| - 1].cseq))
    }
  }

  datatype Notification = Notification(cuid: Cuid, duid: Duid, sseq: nat)
}
