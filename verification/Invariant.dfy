/** The structural invariant: how the replicas' clocks, buffers, checkpoints and exchanges fit
    the server's history. It holds in every state of every run. */
module Invariant {
  import opened Types
  import opened CounterArithmetic
  import opened PushBuffer
  import opened History
  import opened Replica
  import opened PullHandling
  import opened DatatypeServer
  import opened Protocol

  const MAX_SEND: nat := DEFAULT_MAX_TRANSMISSION_SIZE

  predicate OwnTx(tx: Transaction, i: Cuid) {
    tx.cuid == i && tx.sseq == 0 && tx.cseq >= 1 && tx.OnlyIncreases()
  }

  function Open(r: Replica): nat { if r.record.pending.Some? then 1 else 0 }

  /** The clock, the open transaction, the save point and the buffer of one replica. */
  ghost predicate BufferOk(r: Replica) {
    && r.opId.cuid == r.cuid
    && r.buffer.WellFormed(r.limit)
    && (forall j :: 0 <= j < |r.buffer.transactions| ==> OwnTx(r.buffer.transactions[j], r.cuid))
    && (r.buffer.transactions != [] ==> r.buffer.lastCseq + Open(r) == r.opId.cseq)
    && r.checkpoint.cseq + Open(r) <= r.opId.cseq
    && (r.record.pending.Some? ==>
          && OwnTx(r.record.pending.value, r.cuid)
          && r.record.pending.value.cseq == r.opId.cseq
          && r.record.rollbackOpId.cuid == r.cuid
          && r.record.rollbackOpId.cseq + 1 == r.opId.cseq)
  }

  ghost predicate LogOk(log: seq<Transaction>, i: Cuid) {
    forall j :: 0 <= j < |log| ==> log[j].cseq == j + 1 && OwnTx(log[j], i)
  }

  /** A running replica still buffers everything it has committed. */
  predicate RunOk(r: Replica, log: seq<Transaction>) {
    r.buffer.transactions == log && r.opId.cseq == |log| + Open(r)
  }

  ghost predicate HistoryOk(server: Server) {
    && server.sseq == |server.history|
    && (forall j :: 0 <= j < |server.history| ==>
          server.history[j].sseq == j + 1 && server.history[j].OnlyIncreases())
  }

  /** What the server holds of one client: exactly its first `Known` committed transactions,
      of which the acknowledged ones lie within the acknowledged prefix of the history. */
  ghost predicate HeldOk(server: Server, i: Cuid, cp: CheckPoint, log: seq<Transaction>, running: bool) {
    var h, own := server.history, Own(server.history, i);
    && cp.sseq <= |h|
    && |Own(h[..cp.sseq], i)| == cp.cseq <= |own|
    && |own| == server.Known(i) <= |log|
    && (forall j :: 0 <= j < |own| ==> own[j].Unnumbered() == log[j])
    && (running ==> |own| <= cp.cseq + |Fitting(log[cp.cseq..], MAX_SEND)|)
  }

  /** The replica belongs to the datatype the server has created. */
  predicate Attached(server: Server, duid: Duid) { server.created && duid == server.duid }

  ghost predicate StateOk(server: Server, r: Replica, log: seq<Transaction>) {
    && !r.state.Deleting?
    && (r.isReadonly ==> log == [] && r.record.pending.None?)
    && (r.record.pending.Some? ==>
          && !r.record.rollbackState.Deleting? && !r.record.rollbackState.Subscribing?
          && (r.record.rollbackState.Disabled? ==> r.state.Disabled?))
    && (r.state.Subscribing? ==>
          log == [] && r.record.pending.None? && !Attached(server, r.duid))
    && (!Attached(server, r.duid) ==>
          && r.checkpoint == ZERO_CHECKPOINT
          && server.Known(r.cuid) == 0
          && (r.state.Creating? || r.state.Subscribing? || r.state.SubscribingOrCreating?)
          && (r.record.pending.Some? ==> r.record.rollbackState == r.state))
  }

  ghost predicate RequestOk(server: Server, i: Cuid, duid: Duid, cp: CheckPoint, state: DatatypeState,
                            log: seq<Transaction>, p: PushPullPack)
  {
    var c, m := cp.cseq, |p.transactions|;
    && p.cuid == i && p.duid == duid && p.typ == DataType.Counter
    && p.error.None? && p.snapshotTransaction.None?
    && p.checkpoint.sseq == cp.sseq
    && c + m <= |log| && p.transactions == log[c..c + m]
    && SizeOf(p.transactions) <= MAX_SEND
    && server.Known(i) <= c + m
    && !p.state.Deleting?
    && (state.Disabled? ==> p.state.Disabled?)
    && (p.state.Subscribing? <==> state.Subscribing?)
    && (!Attached(server, duid) ==> p.state == state)
  }

  predicate SnapshotOk(tx: Transaction) {
    && |tx.operations| == 1 && tx.operations[0].body.Snapshot?
    && |tx.operations[0].body.data| == 8
  }

  /** The failure that leaves the replica running: it only takes the request's state back. */
  ghost predicate RetryOk(server: Server, duid: Duid, state: DatatypeState, p: PushPullPack) {
    && (p.state.Subscribing? || p.state.SubscribingOrCreating?)
    && !state.Disabled?
    && (p.state.Subscribing? <==> state.Subscribing?)
    && (!Attached(server, duid) ==> p.state == state)
  }

  /** An answer that moves the checkpoint. */
  ghost predicate ProgressOk(server: Server, i: Cuid, cp: CheckPoint, p: PushPullPack) {
    && server.created && p.duid == server.duid
    && cp.sseq <= p.checkpoint.sseq <= |server.history|
    && |Own(server.history[..p.checkpoint.sseq], i)| == server.Known(i)
  }

  ghost predicate CreatedOk(server: Server, i: Cuid, duid: Duid, p: PushPullPack) {
    && Attached(server, duid) && p.state.Subscribed?
    && p.transactions == [] && p.snapshotTransaction.None?
    && p.checkpoint.cseq == server.Known(i)
  }

  ghost predicate PulledOk(server: Server, i: Cuid, duid: Duid, cp: CheckPoint, p: PushPullPack)
    requires cp.sseq <= p.checkpoint.sseq <= |server.history|
  {
    && Attached(server, duid) && p.snapshotTransaction.None?
    && p.transactions == Foreign(server.history[cp.sseq..p.checkpoint.sseq], i)
    && p.checkpoint.cseq == server.Known(i)
  }

  ghost predicate JoinedOk(server: Server, i: Cuid, duid: Duid, cp: CheckPoint, state: DatatypeState,
                           p: PushPullPack)
    requires p.checkpoint.sseq <= |server.history|
  {
    && p.state.Subscribed? && p.snapshotTransaction.Some?
    && SnapshotOk(p.snapshotTransaction.value)
    && p.snapshotTransaction.value.sseq <= p.checkpoint.sseq
    && p.transactions
        == Foreign(server.history[p.snapshotTransaction.value.sseq..p.checkpoint.sseq], i)
    && p.checkpoint.cseq == 0 && cp.cseq == server.Known(i)
    && (!Attached(server, duid) ==> state.Subscribing? || state.SubscribingOrCreating?)
  }

  ghost predicate AnswerOk(server: Server, i: Cuid, duid: Duid, cp: CheckPoint, state: DatatypeState,
                           p: PushPullPack, kind: Kind)
  {
    && (p.error.Some? <==> kind.Rejected?)
    && (kind.Rejected? && p.error.value.ServerInternalError? ==> RetryOk(server, duid, state, p))
    && (kind.Void? ==>
          && p == p.PulledStub() && p.state.Disabled? && p.duid == duid
          && Attached(server, duid) && !state.Disabled?)
    && (kind.Created? || kind.Joined? || kind.Pulled? ==>
          && !state.Disabled?
          && ProgressOk(server, i, cp, p)
          && (kind.Created? ==> CreatedOk(server, i, duid, p))
          && (kind.Pulled? ==> PulledOk(server, i, duid, cp, p))
          && (kind.Joined? ==> JoinedOk(server, i, duid, cp, state, p)))
  }

  ghost predicate NetOk(server: Server, n: Node) {
    var r := n.replica;
    match n.net
    case Idle => true
    case Sent(p) =>
      && !n.stopped && p.isReadonly == r.isReadonly
      && RequestOk(server, r.cuid, r.duid, r.checkpoint, r.state, n.ledger.committed, p)
    case Answered(p, kind, _, _) =>
      !n.stopped && AnswerOk(server, r.cuid, r.duid, r.checkpoint, r.state, p, kind)
  }

  ghost predicate NodeOk(server: Server, i: Cuid, n: Node) {
    && n.replica.cuid == i
    && n.replica.typ == DataType.Counter
    && BufferOk(n.replica)
    && LogOk(n.ledger.committed, i)
    && HeldOk(server, i, n.replica.checkpoint, n.ledger.committed, !n.stopped)
    && (!n.stopped ==> RunOk(n.replica, n.ledger.committed) && StateOk(server, n.replica, n.ledger.committed))
    && NetOk(server, n)
  }

  /** The parts of the server that concern no single client. */
  ghost predicate ServerOk(s: System) {
    && HistoryOk(s.server)
    && s.server.typ == DataType.Counter
    && (!s.server.created ==> s.server.history == [])
    && (forall i :: i in s.server.cseqMap ==> i in s.nodes)
    && (forall j :: 0 <= j < |s.server.history| ==> s.server.history[j].cuid in s.nodes)
    && s.server.wired <= s.nodes.Keys
    && (s.phase == Live <==> s.server.wired != {})
    && (s.phase == Fresh ==> s == Init())
    && (forall i, j :: i in s.nodes && j in s.nodes && i != j && !Attached(s.server, s.nodes[i].replica.duid) ==>
          s.nodes[i].replica.duid != s.nodes[j].replica.duid)
  }

  ghost predicate Inv(s: System) {
    ServerOk(s) && (forall i :: i in s.nodes ==> NodeOk(s.server, i, s.nodes[i]))
  }

  // ---- steps of one replica that leave the server alone ----

  lemma LocalBufferOk(r: Replica, delta: i64)
    requires BufferOk(r)
    ensures BufferOk(r.ExecuteLocal(delta))
  {
    var r' := r.ExecuteLocal(delta);
    var tx' := r'.record.pending.value;
    var before := if r.record.pending.Some? then r.record.pending.value.operations else [];
    assert tx'.operations == before + [Operation(r.opId.lamport + 1, CounterIncrease(delta))];
    assert tx'.OnlyIncreases();
  }

  lemma LocalKeeps(server: Server, i: Cuid, n: Node, delta: i64)
    requires NodeOk(server, i, n) && !n.replica.state.Subscribing? && !n.replica.isReadonly
    ensures NodeOk(server, i, n.Local(delta))
  {
    LocalBufferOk(n.replica, delta);
  }

  lemma RollbackKeeps(server: Server, i: Cuid, n: Node)
    requires NodeOk(server, i, n)
    ensures NodeOk(server, i, n.(replica := n.replica.Rollback()))
  {
    assert BufferOk(n.replica.Rollback());
  }

  /** The error `NonSequentialCseq` is never met. */
  lemma EnqueueIsSequential(r: Replica, tx: Transaction)
    requires BufferOk(r) && r.record.pending.Some? && tx.cseq == r.record.pending.value.cseq
    ensures r.buffer.Enqueue(tx, r.limit) != Failure(NonSequentialCseq)
  {
  }

  lemma EnqueueBufferOk(r: Replica, tag: Option<string>)
    requires BufferOk(r) && r.record.pending.Some?
    requires r.buffer.Enqueue(r.record.pending.value.(tag := tag), r.limit).Success?
    ensures BufferOk(r.EndTransaction(tag, true).0)
  {
    hide SizeOf, Transaction.Size;
    EnqueueKeepsWellFormed(r.buffer, r.record.pending.value.(tag := tag), r.limit);
  }

  lemma HeldGrows(server: Server, i: Cuid, cp: CheckPoint, log: seq<Transaction>, tx: Transaction)
    requires HeldOk(server, i, cp, log, true)
    ensures HeldOk(server, i, cp, log + [tx], true)
  {
    assert (log + [tx])[cp.cseq..] == log[cp.cseq..] + [tx];
    FittingGrows(log[cp.cseq..], [tx], MAX_SEND);
  }

  /** A refused enqueue is rolled back exactly as an abort would be. */
  lemma RefusedCommitIsAbort(n: Node, tag: Option<string>)
    requires BufferOk(n.replica) && n.replica.record.pending.Some?
    requires n.replica.buffer.Enqueue(n.replica.record.pending.value.(tag := tag), n.replica.limit).Failure?
    ensures n.Finish(tag, true) == n.Finish(None, false) == n.(replica := n.replica.Rollback())
  {
    EnqueueIsSequential(n.replica, n.replica.record.pending.value.(tag := tag));
  }

  /** The node after an accepted commit. */
  lemma EnqueuedIs(n: Node, tag: Option<string>)
    requires BufferOk(n.replica) && n.replica.record.pending.Some?
    requires n.replica.buffer.Enqueue(n.replica.record.pending.value.(tag := tag), n.replica.limit).Success?
    ensures var tx := n.replica.record.pending.value.(tag := tag);
      n.Finish(tag, true) == n.(
        replica := n.replica.EndTransaction(tag, true).0,
        ledger := if n.stopped then n.ledger else n.ledger.(committed := n.ledger.committed + [tx]))
  {
  }

  lemma RequestGrows(server: Server, i: Cuid, duid: Duid, cp: CheckPoint, state: DatatypeState,
                     log: seq<Transaction>, tx: Transaction, p: PushPullPack)
    requires RequestOk(server, i, duid, cp, state, log, p)
    ensures RequestOk(server, i, duid, cp, state, log + [tx], p)
  {
    var c, m := cp.cseq, |p.transactions|;
    assert (log + [tx])[c..c + m] == log[c..c + m];
  }

  lemma EnqueuedKeeps(server: Server, i: Cuid, n: Node, tag: Option<string>)
    requires NodeOk(server, i, n) && n.replica.record.pending.Some?
    requires n.replica.buffer.Enqueue(n.replica.record.pending.value.(tag := tag), n.replica.limit).Success?
    ensures NodeOk(server, i, n.Finish(tag, true))
  {
    var r, log := n.replica, n.ledger.committed;
    var tx := r.record.pending.value.(tag := tag);
    var r' := r.EndTransaction(tag, true).0;
    EnqueuedIs(n, tag);
    EnqueueBufferOk(r, tag);
    if !n.stopped {
      assert RunOk(r', log + [tx]) && LogOk(log + [tx], i);
      HeldGrows(server, i, r.checkpoint, log, tx);
      assert StateOk(server, r', log + [tx]);
      if n.net.Sent? {
        RequestGrows(server, i, r.duid, r.checkpoint, r.state, log, tx, n.net.request);
      }
    }
  }

  lemma CommitKeeps(server: Server, i: Cuid, n: Node, tag: Option<string>)
    requires NodeOk(server, i, n)
    ensures NodeOk(server, i, n.Finish(tag, true))
  {
    var r := n.replica;
    if r.record.pending.None? {
      assert n.Finish(tag, true) == n;
    } else if r.buffer.Enqueue(r.record.pending.value.(tag := tag), r.limit).Failure? {
      RefusedCommitIsAbort(n, tag);
      RollbackKeeps(server, i, n);
    } else {
      EnqueuedKeeps(server, i, n, tag);
    }
  }

  lemma AbortKeeps(server: Server, i: Cuid, n: Node)
    requires NodeOk(server, i, n)
    ensures NodeOk(server, i, n.Finish(None, false))
  {
    RollbackKeeps(server, i, n);
  }

  lemma UnsubscribeKeeps(server: Server, i: Cuid, n: Node)
    requires NodeOk(server, i, n)
    ensures NodeOk(server, i, n.Unsubscribe())
  {
    hide HeldOk, LogOk, OwnTx, Buffer.WellFormed;
    assert BufferOk(n.Unsubscribe().replica);
  }

  lemma LoseKeeps(server: Server, i: Cuid, n: Node)
    requires NodeOk(server, i, n)
    ensures NodeOk(server, i, n.(net := Idle))
  {
  }

  /** What a running replica sends: its committed transactions from the checkpoint on, as many
      as fit. The error `GetPushingTransactions` is never met. */
  lemma SendableIs(r: Replica, log: seq<Transaction>)
    requires BufferOk(r) && RunOk(r, log) && LogOk(log, r.cuid)
    ensures r.checkpoint.cseq <= |log|
    ensures r.Sendable() == Success(Fitting(log[r.checkpoint.cseq..], MAX_SEND))
  {
  }

  /** What a running node's part of the invariant says about a request built now. */
  lemma BuildFacts(server: Server, i: Cuid, n: Node)
    requires NodeOk(server, i, n) && !n.stopped
    ensures BufferOk(n.replica) && RunOk(n.replica, n.ledger.committed) && LogOk(n.ledger.committed, i)
    ensures n.replica.cuid == i && n.replica.typ == DataType.Counter
    ensures StateOk(server, n.replica, n.ledger.committed)
    ensures n.replica.checkpoint.cseq <= |n.ledger.committed|
    ensures server.Known(i) <= n.replica.checkpoint.cseq
      + |Fitting(n.ledger.committed[n.replica.checkpoint.cseq..], MAX_SEND)|
  {
  }

  lemma BuildKeeps(server: Server, i: Cuid, n: Node)
    requires NodeOk(server, i, n) && !n.stopped
    ensures n.Build().net.Sent?
    ensures NodeOk(server, i, n.Build())
  {
    hide Fitting, Own, OwnTx, BufferOk, LogOk, RunOk, HeldOk;
    BuildFacts(server, i, n);
    SendableIs(n.replica, n.ledger.committed);
    RequestBuilt(n.replica, n.ledger.committed);
    FittingFits(n.ledger.committed[n.replica.checkpoint.cseq..], MAX_SEND);
    assert RequestOk(server, i, n.replica.duid, n.replica.checkpoint, n.replica.state, n.ledger.committed,
                     n.Build().net.request);
  }

  lemma RequestBuilt(r: Replica, log: seq<Transaction>)
    requires r.checkpoint.cseq <= |log|
    requires r.Sendable() == Success(Fitting(log[r.checkpoint.cseq..], MAX_SEND))
    ensures r.CreatePack().Success?
    ensures var p, c := r.CreatePack().value, r.checkpoint.cseq;
      && p.transactions == Fitting(log[c..], MAX_SEND)
      && c + |p.transactions| <= |log| && p.transactions == log[c..c + |p.transactions|]
  {
    var fit := Fitting(log[r.checkpoint.cseq..], MAX_SEND);
    assert fit == log[r.checkpoint.cseq..][..|fit|] == log[r.checkpoint.cseq..r.checkpoint.cseq + |fit|];
  }
}
