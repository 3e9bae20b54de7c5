/** What the memory and transmission limits amount to in bytes, in every run. */
module Limits {
  import opened Types
  import opened PushBuffer
  import opened History
  import opened Replica
  import opened DatatypeServer
  import opened Protocol
  import opened Invariant
  import opened Requests
  import opened Lamports

  lemma BufferedSize(r: Replica)
    requires BufferOk(r)
    ensures r.buffer.memSize == SizeOf(r.buffer.transactions) == Bytes(r.buffer.transactions) <= r.limit
  {
    SizeInBytes(r.buffer.transactions);
  }

  /** A buffer never holds more than its limit, every operation of every transaction counted. */
  lemma MemoryBound(ls: seq<Label>, i: Cuid)
    requires i in Exec(Init(), ls).nodes
    ensures var r := Exec(Init(), ls).nodes[i].replica; Bytes(r.buffer.transactions) <= r.limit
  {
    hide Exec, Inv, NodeOk, BufferOk, Bytes;
    ReachableInv(ls);
    NodeFacts(Exec(Init(), ls), i);
    BufferedSize(Exec(Init(), ls).nodes[i].replica);
  }

  /** A commit is accepted exactly when the buffer with the transaction is within the limit; otherwise it
      is undone. */
  lemma CommitAcceptedIff(ls: seq<Label>, i: Cuid, tag: Option<string>)
    requires i in Exec(Init(), ls).nodes && Exec(Init(), ls).nodes[i].replica.record.pending.Some?
    ensures var n := Exec(Init(), ls).nodes[i];
      var txs, tx := n.replica.buffer.transactions, n.replica.record.pending.value.(tag := tag);
      && (Bytes(txs + [tx]) <= n.replica.limit ==> n.Finish(tag, true).replica.buffer.transactions == txs + [tx])
      && (Bytes(txs + [tx]) > n.replica.limit ==> n.Finish(tag, true) == n.(replica := n.replica.Rollback()))
  {
    hide Exec, Inv, NodeOk, Bytes;
    ReachableInv(ls);
    NodeFacts(Exec(Init(), ls), i);
    AcceptedIff(Exec(Init(), ls).nodes[i], tag);
  }

  lemma AcceptedIff(n: Node, tag: Option<string>)
    requires BufferOk(n.replica) && n.replica.record.pending.Some?
    ensures var txs, tx := n.replica.buffer.transactions, n.replica.record.pending.value.(tag := tag);
      && (Bytes(txs + [tx]) <= n.replica.limit ==> n.Finish(tag, true).replica.buffer.transactions == txs + [tx])
      && (Bytes(txs + [tx]) > n.replica.limit ==> n.Finish(tag, true) == n.(replica := n.replica.Rollback()))
  {
    hide Bytes, SizeOf, Transaction.Size;
    var txs, tx := n.replica.buffer.transactions, n.replica.record.pending.value.(tag := tag);
    BufferedSize(n.replica);
    SizeOfSnoc(txs, tx);
    assert tx.OnlyIncreases();
    SizeInBytes(txs + [tx]);
    EnqueueIsSequential(n.replica, tx);
    if Bytes(txs + [tx]) > n.replica.limit {
      RefusedCommitIsAbort(n, tag);
    } else {
      EnqueuedIs(n, tag);
    }
  }

  /** What a replica sends is the longest run of its unacknowledged transactions within the limit of a
      transmission. */
  lemma SendsLongestRun(ls: seq<Label>, i: Cuid, k: nat)
    requires Enabled(Exec(Init(), ls), Build(i))
    requires k <= |Exec(Init(), ls).nodes[i].Unacknowledged()|
    ensures var n := Exec(Init(), ls).nodes[i];
      && n.Build().net.Sent?
      && n.Build().net.request.transactions <= n.Unacknowledged()
      && (Bytes(n.Unacknowledged()[..k]) <= 4_000_000 <==> k <= |n.Build().net.request.transactions|)
  {
    hide Exec, Inv, NodeOk, Bytes, Above, Node.Build;
    ReachableInv(ls);
    var s := Exec(Init(), ls);
    NodeFacts(s, i);
    SendsLongest(s.server, i, s.nodes[i], k);
  }

  lemma SendsLongest(server: Server, i: Cuid, n: Node, k: nat)
    requires NodeOk(server, i, n) && !n.stopped && k <= |n.Unacknowledged()|
    ensures n.Build().net.Sent?
    ensures n.Build().net.request.transactions <= n.Unacknowledged()
    ensures Bytes(n.Unacknowledged()[..k]) <= 4_000_000 <==> k <= |n.Build().net.request.transactions|
  {
    hide Bytes, Above, Fitting, SizeOf, NodeOk, BufferOk, OwnTx;
    var log, c := n.ledger.committed, n.replica.checkpoint.cseq;
    BuildFacts(server, i, n);
    SendableIs(n.replica, log);
    RequestBuilt(n.replica, log);
    AboveIsSuffix(log, c);
    FittingIsLongest(log[c..], MAX_SEND, k);
    OwnIncreases(log, i);
    SizeInBytes(log[c..][..k]);
  }

  lemma OwnIncreases(log: seq<Transaction>, i: Cuid)
    requires LogOk(log, i)
    ensures forall j :: 0 <= j < |log| ==> log[j].OnlyIncreases()
  {
  }
}
