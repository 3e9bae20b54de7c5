/** The replica as the program keeps it: objects updated in place, each method proved against what
    the replica as a value does. */
module MutableReplica {
  import opened Types
  import opened CounterArithmetic
  import opened PushBuffer
  import opened History
  import opened Replica

  class TxRecord {
    var pending: Option<Transaction>
    var rollbackOpId: OperationId
    var rollbackState: DatatypeState

    ghost function View(): Record
      reads this
    {
      Record(pending, rollbackOpId, rollbackState)
    }

    constructor (state: DatatypeState, opId: OperationId)
      ensures View() == Record(None, opId, state)
    {
      pending, rollbackOpId, rollbackState := None, opId, state;
    }

    method RecordOperation(opId: OperationId, state: DatatypeState, op: Operation) returns (isNew: bool)
      modifies this
      ensures View() == old(View()).RecordOperation(opId, state, op) && isNew == old(pending).None?
    {
      isNew := pending.None?;
      if isNew {
        rollbackOpId := opId;
        rollbackState := state;
        pending := Some(Transaction.New(opId.cuid, opId.cseq + 1));
      }
      pending := Some(pending.value.PushOperation(op));
    }
  }

  // ---- sums over the part of a list that a loop has done ----

  lemma DeltaStep(ops: seq<Operation>, k: nat)
    requires k < |ops|
    ensures OperationsDelta(ops[..k + 1]) == OperationsDelta(ops[..k]) + ops[k].Delta()
    ensures MaxLamport(ops[..k + 1]) == Max(MaxLamport(ops[..k]), ops[k].lamport)
  {
    assert ops[..k + 1][..k] == ops[..k];
  }

  lemma WrapSame(v: i64)
    ensures Wrap(v + 0) == v
  {
  }

  lemma NoOperations()
    ensures OperationsDelta([]) == 0 && MaxLamport([]) == 0
  {
  }

  lemma RemoteOne(r: Replica, tx: Transaction)
    ensures r.ExecuteRemote([tx]) == r.(value := Wrap(r.value + tx.Delta()),
                                        opId := r.opId.(lamport := Max(r.opId.lamport, MaxLamport(tx.operations))))
  {
    assert [tx][..0] == [];
    assert Total([tx]) == tx.Delta() && TopLamport([tx]) == MaxLamport(tx.operations);
  }

  /** Executing transactions one after the other is executing them all. */
  lemma RemoteStep(r: Replica, txs: seq<Transaction>, k: nat)
    requires k < |txs|
    ensures r.ExecuteRemote(txs[..k + 1]) == r.ExecuteRemote(txs[..k]).ExecuteRemote([txs[k]])
  {
    hide Total, TopLamport, Wrap;
    assert txs[..k + 1] == txs[..k] + [txs[k]];
    TotalAppend(txs[..k], [txs[k]]);
    TopAppend(txs[..k], [txs[k]]);
    WrapAdd(r.value + Total(txs[..k]), Total([txs[k]]));
  }

  class MutableDatatype {
    const resource: ResourceId
    const typ: DataType
    const cuid: Cuid
    const isReadonly: bool
    const limit: nat
    var duid: Duid
    var crdt: CounterCrdt
    var opId: OperationId
    var pushBuffer: MemoryPushBuffer
    var checkpoint: CheckPoint
    var state: DatatypeState
    var txRecord: TxRecord

    /** What the methods may change: this object and the parts it owns. */
    ghost function Repr(): set<object>
      reads this
    {
      {this, crdt, pushBuffer, txRecord}
    }

    ghost function View(): Replica
      reads this, crdt, pushBuffer, txRecord
    {
      Replica(resource, typ, cuid, duid, isReadonly, limit, crdt.value, opId, pushBuffer.View(),
              checkpoint, state, txRecord.View())
    }

    ghost predicate Valid()
      reads this, pushBuffer, txRecord
    {
      && pushBuffer.Valid() && pushBuffer.limit == limit && opId.cuid == cuid
      && txRecord.rollbackOpId.cuid == cuid
      && (txRecord.pending.Some? ==>
            && txRecord.pending.value.OnlyIncreases()
            && txRecord.pending.value.cseq >= 1
            && txRecord.pending.value.cuid == cuid)
    }

    constructor (resource: ResourceId, cuid: Cuid, duid: Duid, isReadonly: bool, limit: nat, state: DatatypeState)
      ensures Valid() && fresh(Repr())
      ensures View() == Replica.New(resource, cuid, duid, isReadonly, limit, state)
    {
      this.resource, this.typ, this.cuid, this.isReadonly, this.limit :=
        resource, DataType.Counter, cuid, isReadonly, limit;
      this.duid, this.state, this.checkpoint := duid, state, ZERO_CHECKPOINT;
      this.opId := OperationId(0, cuid, 0);
      crdt := new CounterCrdt();
      pushBuffer := new MemoryPushBuffer(limit);
      txRecord := new TxRecord(state, OperationId(0, cuid, 0));
    }

    method Reset()
      requires Valid()
      modifies this
      ensures Valid() && fresh(Repr() - old(Repr())) && crdt == old(crdt)
      ensures View() == old(View()).Reset()
    {
      pushBuffer := new MemoryPushBuffer(limit);
      txRecord := new TxRecord(state, opId);
    }

    method Disable()
      requires Valid()
      modifies this
      ensures Valid() && fresh(Repr() - old(Repr())) && crdt == old(crdt)
      ensures View() == old(View()).Disable()
    {
      Reset();
      state := Disabled;
    }

    method ApplySnapshotTransaction(tx: Transaction) returns (error: Option<DatatypeError>)
      requires Valid()
      modifies this, crdt
      ensures Valid() && fresh(Repr() - old(Repr())) && crdt == old(crdt)
      ensures match old(View()).ApplySnapshot(tx)
        case Success(r) => error == None && View() == r
        case Failure(e) => error == Some(e) && View() == old(View())
    {
      if tx.operations == [] {
        return Some(ServerRejected(ProtocolViolation));
      }
      var snapOp := tx.operations[0];
      if !snapOp.body.Snapshot? {
        return Some(ServerRejected(ProtocolViolation));
      }
      var ok := crdt.Deserialize(snapOp.body.data);
      if !ok {
        return Some(DatatypeError.Deserialize);
      }
      opId := opId.(cseq := 0, lamport := snapOp.lamport);
      Reset();
      error := None;
    }

    /** Undoes the open operations, last first. */
    method DoRollback()
      requires Valid()
      modifies this, crdt, txRecord
      ensures Valid() && Repr() == old(Repr())
      ensures View() == old(View()).Rollback()
    {
      hide OperationsDelta, MaxLamport, Wrap;
      if txRecord.pending.None? {
        return;
      }
      NoOperations();
      WrapSame(crdt.value);
      var ops := txRecord.pending.value.operations;
      txRecord.pending := None;
      var i := |ops|;
      assert ops[..i] == ops && ops[..0] == [];
      while i > 0
        modifies crdt
        invariant 0 <= i <= |ops|
        invariant crdt.value == Wrap(old(crdt.value) - (OperationsDelta(ops) - OperationsDelta(ops[..i])))
      {
        i := i - 1;
        DeltaStep(ops, i);
        WrapAdd(old(crdt.value) - (OperationsDelta(ops) - OperationsDelta(ops[..i + 1])), -ops[i].Delta());
        var _ := crdt.ExecuteInverseOperation(ops[i]);
      }
      opId := txRecord.rollbackOpId;
      state := txRecord.rollbackState;
    }

    method EndTransaction(tag: Option<string>, committed: bool) returns (pushed: bool, error: Option<DatatypeError>)
      requires Valid()
      modifies Repr()
      ensures Valid() && Repr() == old(Repr())
      ensures (View(), error) == old(View()).EndTransaction(tag, committed)
      ensures pushed == (committed && error.None?)
    {
      if !committed {
        DoRollback();
        return false, None;
      }
      if txRecord.pending.Some? {
        var tx := txRecord.pending.value.(tag := tag);
        txRecord.pending := None;
        if tx.cuid == opId.cuid {
          error := pushBuffer.Enqueue(tx);
          if error.Some? {
            txRecord.pending := Some(tx);
            return false, error;
          }
        }
      }
      pushed, error := true, None;
    }

    method ApplyAction(recovery: RecoveryAction)
      requires Valid()
      modifies Repr()
      ensures Valid() && fresh(Repr() - old(Repr()))
      ensures View() == old(View()).ApplyAction(recovery)
      ensures recovery.Resubscribe? || recovery.ResubscribeWithBackOff? ==>
        state == SubscribingOrCreating && pushBuffer.transaction == [] && txRecord.pending.None?
        && crdt.value == old(crdt.value) && opId == old(opId)
    {
      match recovery {
        case NotifyOnly =>
        case RetryWithBackOff =>
        case RollbackTransaction => DoRollback();
        case Resubscribe =>
          Reset();
          state := SubscribingOrCreating;
        case ResubscribeWithBackOff =>
          Reset();
          state := SubscribingOrCreating;
        case Disable => Disable();
      }
    }

    /** Closing a transaction as the guard of a local call does: a refused commit is recovered from. */
    method FinishTransaction(tag: Option<string>, committed: bool) returns (pushed: bool)
      requires Valid()
      modifies Repr()
      ensures Valid() && fresh(Repr() - old(Repr()))
      ensures View() == old(View()).FinishTransaction(tag, committed)
    {
      var error;
      pushed, error := EndTransaction(tag, committed);
      if error.Some? {
        ApplyAction(error.value.Recovery());
      }
    }

    method ExecuteRemoteTransaction(tx: Transaction)
      requires Valid() && tx.OnlyIncreases()
      modifies this`opId, crdt
      ensures Valid() && View() == old(View()).ExecuteRemote([tx])
    {
      hide OperationsDelta, MaxLamport, Total, TopLamport, Wrap;
      RemoteOne(View(), tx);
      WrapSame(crdt.value);
      NoOperations();
      var ops := tx.operations;
      var i := 0;
      assert ops[..0] == [];
      while i < |ops|
        invariant 0 <= i <= |ops|
        invariant crdt.value == Wrap(old(crdt.value) + OperationsDelta(ops[..i]))
        invariant opId == old(opId).(lamport := Max(old(opId).lamport, MaxLamport(ops[..i])))
      {
        DeltaStep(ops, i);
        WrapAdd(old(crdt.value) + OperationsDelta(ops[..i]), ops[i].Delta());
        opId := opId.(lamport := Max(opId.lamport, ops[i].lamport));
        var _ := crdt.ExecuteCommonOperation(ops[i]);
        i := i + 1;
      }
      assert ops[..i] == ops;
    }

    method ExecuteLocalOperation(delta: i64) returns (value: i64)
      requires Valid()
      modifies this`opId, crdt, txRecord
      ensures Valid() && View() == old(View()).ExecuteLocal(delta) && value == View().value
    {
      var op := Operation(opId.lamport + 1, CounterIncrease(delta));
      value := crdt.ExecuteCommonOperation(op);
      var isNewTx := txRecord.RecordOperation(opId, state, op);
      opId := opId.Next(isNewTx);
      assert txRecord.pending.value.OnlyIncreases();
    }

    /** The snapshot a subscriber is given. */
    method GetSubscribeSnapshot() returns (tx: Transaction)
      requires Valid()
      ensures tx == View().SnapshotTransaction()
    {
      tx := Transaction.New(cuid, 0)
            .PushOperation(Operation(opId.lamport, Snapshot(ToBytes(crdt.value))))
            .(sseq := checkpoint.sseq);
    }

    method CreatePushPullPack() returns (r: Result<PushPullPack, DatatypeError>)
      requires Valid()
      ensures r == View().CreatePack()
    {
      var ppp := PushPullPack(resource, cuid, duid, typ, state, ZERO_CHECKPOINT, [], None, isReadonly, None);
      var pushing := pushBuffer.GetPushingTransactions(checkpoint.cseq + 1, DEFAULT_MAX_TRANSMISSION_SIZE);
      match pushing {
        case Failure(e) => r := Failure(e);
        case Success((transactions, _)) =>
          r := Success(ppp.(transactions := transactions).Checkpointing(checkpoint));
      }
    }
  }
}
