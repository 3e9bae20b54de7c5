/** One client's replica as a value, and what each of its operations does to it. */
module Replica {
  import opened Types
  import opened CounterArithmetic
  import opened PushBuffer
  import opened History

  const DEFAULT_MAX_TRANSMISSION_SIZE: nat := 4_000_000

  /** The open transaction and the point an abort goes back to. */
  datatype Record = Record(
    pending: Option<Transaction>,
    rollbackOpId: OperationId,
    rollbackState: DatatypeState)
  {
    function RecordOperation(opId: OperationId, state: DatatypeState, op: Operation): Record {
      if pending.None? then
        Record(Some(Transaction.New(opId.cuid, opId.cseq + 1).PushOperation(op)), opId, state)
      else
        this.(pending := Some(pending.value.PushOperation(op)))
    }

    function OpenDelta(): int {
      if pending.Some? then pending.value.Delta() else 0
    }
  }

  datatype Replica = Replica(
    resource: ResourceId,
    typ: DataType,
    cuid: Cuid,
    duid: Duid,
    isReadonly: bool,
    limit: nat,
    value: i64,
    opId: OperationId,
    buffer: Buffer,
    checkpoint: CheckPoint,
    state: DatatypeState,
    record: Record)
  {
    static function New(resource: ResourceId, cuid: Cuid, duid: Duid, isReadonly: bool,
                        limit: nat, state: DatatypeState): Replica
    {
      var opId := OperationId(0, cuid, 0);
      Replica(resource, DataType.Counter, cuid, duid, isReadonly, limit, 0, opId,
              Buffer.OfRun([]), ZERO_CHECKPOINT, state, Record(None, opId, state))
    }

    function ExecuteLocal(delta: i64): Replica {
      var op := Operation(opId.lamport + 1, CounterIncrease(delta));
      this.(value := Wrap(value + delta),
            record := record.RecordOperation(opId, state, op),
            opId := opId.Next(record.pending.None?))
    }

    function ExecuteRemote(txs: seq<Transaction>): Replica {
      this.(value := Wrap(value + Total(txs)),
            opId := opId.(lamport := Max(opId.lamport, TopLamport(txs))))
    }

    function Rollback(): Replica {
      if record.pending.None? then this
      else
        this.(value := Wrap(value - record.pending.value.Delta()),
              opId := record.rollbackOpId,
              state := record.rollbackState,
              record := record.(pending := None))
    }

    function Reset(): Replica {
      this.(buffer := Buffer.OfRun([]), record := Record(None, opId, state))
    }

    function Disable(): Replica { Reset().(state := Disabled) }

    function ApplyAction(action: RecoveryAction): Replica {
      match action
      case NotifyOnly => this
      case RetryWithBackOff => this
      case RollbackTransaction => Rollback()
      case Resubscribe => Reset().(state := SubscribingOrCreating)
      case ResubscribeWithBackOff => Reset().(state := SubscribingOrCreating)
      case Disable => Disable()
    }

    /** Closes the open transaction. A refused enqueue leaves it open and reports the error. */
    function EndTransaction(tag: Option<string>, committed: bool): (Replica, Option<DatatypeError>) {
      if !committed then (Rollback(), None)
      else if record.pending.None? then (this, None)
      else
        var tx := record.pending.value.(tag := tag);
        match buffer.Enqueue(tx, limit)
        case Success(b) => (this.(buffer := b, record := record.(pending := None)), None)
        case Failure(e) => (this.(record := record.(pending := Some(tx))), Some(e))
    }

    /** Closing a transaction together with the recovery from a refused enqueue. */
    function FinishTransaction(tag: Option<string>, committed: bool): Replica {
      var (r, error) := EndTransaction(tag, committed);
      if error.Some? then r.ApplyAction(error.value.Recovery()) else r
    }

    function SnapshotTransaction(): Transaction {
      Transaction(cuid, 0, checkpoint.sseq, None, false,
                  [Operation(opId.lamport, Snapshot(ToBytes(value)))])
    }

    function ApplySnapshot(tx: Transaction): Result<Replica, DatatypeError> {
      if tx.operations == [] || !tx.operations[0].body.Snapshot? then
        Failure(ServerRejected(ProtocolViolation))
      else if |tx.operations[0].body.data| != 8 then Failure(Deserialize)
      else
        Success(this.(value := FromBytes(tx.operations[0].body.data),
                      opId := opId.(cseq := 0, lamport := tx.operations[0].lamport)).Reset())
    }

    function Sendable(): Result<seq<Transaction>, DatatypeError> {
      buffer.PushingTransactions(checkpoint.cseq + 1, DEFAULT_MAX_TRANSMISSION_SIZE)
    }

    function CreatePack(): Result<PushPullPack, DatatypeError> {
      match Sendable()
      case Failure(e) => Failure(e)
      case Success(txs) =>
        Success(PushPullPack(resource, cuid, duid, typ, state, ZERO_CHECKPOINT, txs, None, isReadonly, None)
                .Checkpointing(checkpoint))
    }

    predicate NeedPush() {
      || state.Creating? || state.Subscribing? || state.SubscribingOrCreating? || state.Unsubscribing?
      || buffer.lastCseq > checkpoint.cseq
    }

    /** Whether a server notification calls for an exchange. */
    predicate HandleNotification(n: Notification) {
      duid == n.duid && cuid != n.cuid && checkpoint.sseq < n.sseq
    }
  }
}
