/** Lamport clocks: operations in the history are uniquely identified, and new ones come after
    everything the replica holds. */
module Lamports {
  import opened Types
  import opened CounterArithmetic
  import opened PushBuffer
  import opened History
  import opened Replica
  import opened PullHandling
  import opened DatatypeServer
  import opened Protocol
  import opened Invariant
  import opened Delivery
  import opened Requests
  import opened Meaning

  predicate OpsIncrease(ops: seq<Operation>) {
    forall x, y :: 0 <= x < y < |ops| ==> ops[x].lamport < ops[y].lamport
  }

  predicate OpsBefore(a: seq<Operation>, b: seq<Operation>) {
    forall x, y :: 0 <= x < |a| && 0 <= y < |b| ==> a[x].lamport < b[y].lamport
  }

  predicate OpsUpTo(ops: seq<Operation>, top: nat) {
    forall x :: 0 <= x < |ops| ==> ops[x].lamport <= top
  }

  predicate OpsAfter(ops: seq<Operation>, bottom: nat) {
    forall x :: 0 <= x < |ops| ==> bottom < ops[x].lamport
  }

  /** Strictly increasing lamports, within and across transactions. */
  predicate LogIncreases(log: seq<Transaction>) {
    && (forall j :: 0 <= j < |log| ==> OpsIncrease(log[j].operations))
    && (forall j, k :: 0 <= j < k < |log| ==> OpsBefore(log[j].operations, log[k].operations))
  }

  predicate LogUpTo(log: seq<Transaction>, top: nat) {
    forall j :: 0 <= j < |log| ==> OpsUpTo(log[j].operations, top)
  }

  /** The clock is past everything committed, and the save point is past everything committed
      before the open transaction. */
  predicate ClockOk(n: Node) {
    var r, log := n.replica, n.ledger.committed;
    && LogIncreases(log)
    && (!n.stopped ==>
          && LogUpTo(log, if r.record.pending.Some? then r.record.rollbackOpId.lamport else r.opId.lamport)
          && (r.record.pending.Some? ==>
                && r.record.rollbackOpId.lamport <= r.opId.lamport
                && OpsIncrease(r.record.pending.value.operations)
                && OpsAfter(r.record.pending.value.operations, r.record.rollbackOpId.lamport)
                && OpsUpTo(r.record.pending.value.operations, r.opId.lamport)))
  }

  lemma LocalClock(n: Node, delta: i64)
    requires ClockOk(n)
    ensures ClockOk(n.Local(delta))
  {
    hide LogIncreases;
    var r := n.replica;
    var op := Operation(r.opId.lamport + 1, CounterIncrease(delta));
    var before := if r.record.pending.Some? then r.record.pending.value.operations else [];
    assert n.Local(delta).replica.record.pending.value.operations == before + [op];
  }

  lemma LogSnoc(log: seq<Transaction>, tx: Transaction, bottom: nat, top: nat)
    requires LogIncreases(log) && LogUpTo(log, bottom) && bottom <= top
    requires OpsIncrease(tx.operations) && OpsAfter(tx.operations, bottom) && OpsUpTo(tx.operations, top)
    ensures LogIncreases(log + [tx]) && LogUpTo(log + [tx], top)
  {
    forall j, k | 0 <= j < k < |log + [tx]|
      ensures OpsBefore((log + [tx])[j].operations, (log + [tx])[k].operations)
    {
      if k == |log| {
        assert OpsUpTo(log[j].operations, bottom);
      }
    }
    forall j | 0 <= j < |log + [tx]|
      ensures OpsUpTo((log + [tx])[j].operations, top)
    {
      if j < |log| {
        assert OpsUpTo(log[j].operations, bottom);
      }
    }
  }

  lemma RollbackClock(n: Node)
    requires ClockOk(n)
    ensures ClockOk(n.(replica := n.replica.Rollback()))
  {
    hide LogIncreases, LogUpTo, OpsIncrease, OpsAfter, OpsUpTo;
  }

  lemma CommitClock(n: Node, tag: Option<string>)
    requires ClockOk(n) && BufferOk(n.replica)
    ensures ClockOk(n.Finish(tag, true))
  {
    hide LogIncreases, LogUpTo, OpsIncrease, OpsAfter, OpsUpTo, BufferOk, Node.Finish;
    var r := n.replica;
    if r.record.pending.None? {
      NothingToCommit(n, tag);
    } else {
      var tx := r.record.pending.value.(tag := tag);
      if r.buffer.Enqueue(tx, r.limit).Failure? {
        RefusedCommitIsAbort(n, tag);
        RollbackClock(n);
      } else {
        EnqueuedIs(n, tag);
        if !n.stopped {
          LogSnoc(n.ledger.committed, tx, r.record.rollbackOpId.lamport, r.opId.lamport);
        }
      }
    }
  }

  lemma AbsorbedShape(n: Node)
    requires n.net.Answered? && ApplyPull(n.replica, n.net.answer).1.Synced? && !Joins(n.replica, n.net.answer)
    ensures var n' := n.Deliver();
      && n'.ledger.committed == n.ledger.committed && n'.replica.record == n.replica.record
      && n.replica.opId.lamport <= n'.replica.opId.lamport
  {
    hide Executed, Total, Foreign, TopLamport, Wrap, Subscribe;
  }

  lemma JoinedShape(n: Node)
    requires n.net.Answered? && ApplyPull(n.replica, n.net.answer).1.Synced? && Joins(n.replica, n.net.answer)
    requires n.net.answer.snapshotTransaction.Some?
    ensures var n' := n.Deliver();
      && n'.ledger.committed == [] && n'.replica.record.pending.None?
  {
    hide Executed, Total, Foreign, TopLamport, Wrap, FromBytes;
  }

  lemma FailedShape(n: Node)
    requires n.net.Answered? && ApplyPull(n.replica, n.net.answer).1.Failed?
    requires n.net.answer.error.Some? <==> n.net.kind.Rejected?
    ensures var n' := n.Deliver();
      && n'.ledger.committed == n.ledger.committed
      && (!n'.stopped ==> n'.replica.record == n.replica.record && n'.replica.opId == n.replica.opId
                          && n'.ledger == n.ledger)
  {
    hide Node.Settled, Node.PendingDelta, ApplyPull, Above;
    FailedIs(n);
  }

  /** Pulling only moves the clock forward, and joining starts a new log. */
  lemma DeliverClock(server: Server, i: Cuid, n: Node)
    requires ClockOk(n) && NodeOk(server, i, n) && n.net.Answered?
    ensures ClockOk(n.Deliver())
  {
    hide LogIncreases, LogUpTo, OpsIncrease, OpsAfter, OpsUpTo, NodeOk, Node.Deliver, ApplyPull, Executed;
    Running(server, i, n);
    NeverUnimplemented(server, i, n);
    var n' := n.Deliver();
    if ApplyPull(n.replica, n.net.answer).1.Failed? {
      AnswerKind(server, i, n);
      FailedShape(n);
      if !n'.stopped { SameClock(n, n'); }
    } else if Joins(n.replica, n.net.answer) {
      NoErrorWhenSynced(n);
      JoinedOnly(server, i, n);
      JoinExecutesAll(server, i, n);
      JoinedShape(n);
      EmptyLog(n'.replica.opId.lamport);
    } else {
      AbsorbedShape(n);
      ClockForward(n, n');
    }
  }

  lemma AnswerKind(server: Server, i: Cuid, n: Node)
    requires NodeOk(server, i, n) && n.net.Answered?
    ensures n.net.answer.error.Some? <==> n.net.kind.Rejected?
  {
  }

  lemma NoErrorWhenSynced(n: Node)
    requires n.net.Answered? && ApplyPull(n.replica, n.net.answer).1.Synced?
    ensures n.net.answer.error.None?
  {
  }

  lemma EmptyLog(top: nat)
    ensures LogIncreases([]) && LogUpTo([], top)
  {
  }

  lemma UpToLater(log: seq<Transaction>, top: nat, later: nat)
    requires LogUpTo(log, top) && top <= later
    ensures LogUpTo(log, later)
  {
    forall j | 0 <= j < |log|
      ensures OpsUpTo(log[j].operations, later)
    {
      assert OpsUpTo(log[j].operations, top);
    }
  }

  lemma ClockForward(n: Node, n': Node)
    requires ClockOk(n) && !n.stopped
    requires n'.ledger.committed == n.ledger.committed && n'.replica.record == n.replica.record
    requires n.replica.opId.lamport <= n'.replica.opId.lamport
    ensures ClockOk(n')
  {
    hide LogIncreases, LogUpTo;
    if n.replica.record.pending.None? {
      UpToLater(n.ledger.committed, n.replica.opId.lamport, n'.replica.opId.lamport);
    }
  }

  ghost predicate Clocks(s: System) {
    forall i :: i in s.nodes ==> ClockOk(s.nodes[i])
  }

  lemma NodeClock(server: Server, i: Cuid, n: Node, l: Label)
    requires ClockOk(n) && NodeOk(server, i, n) && BufferOk(n.replica)
    ensures l.LocalOp? ==> ClockOk(n.Local(l.delta))
    ensures l.Commit? ==> ClockOk(n.Finish(l.tag, true))
    ensures l.Abort? ==> ClockOk(n.Finish(None, false))
    ensures l.Unsubscribe? ==> ClockOk(n.Unsubscribe())
    ensures l.Build? && !n.stopped ==> ClockOk(n.Build())
    ensures l.Deliver? && n.net.Answered? ==> ClockOk(n.Deliver())
  {
    hide ClockOk, NodeOk, BufferOk;
    match l {
      case LocalOp(_, delta) => LocalClock(n, delta);
      case Commit(_, tag) => CommitClock(n, tag);
      case Abort(_) => RollbackClock(n);
      case Unsubscribe(_) => SameClock(n, n.Unsubscribe());
      case Build(_) => if !n.stopped { BuildKeeps(server, i, n); SameClock(n, n.Build()); }
      case Deliver(_) => if n.net.Answered? { DeliverClock(server, i, n); }
      case _ =>
    }
  }

  lemma SameClock(n: Node, n': Node)
    requires ClockOk(n)
    requires n'.ledger.committed == n.ledger.committed
    requires n'.replica.record == n.replica.record && n'.replica.opId == n.replica.opId
    requires n'.stopped == n.stopped
    ensures ClockOk(n')
  {
  }

  lemma NextClocks(s: System, l: Label)
    requires Inv(s) && Clocks(s)
    ensures Clocks(Next(s, l))
  {
    hide Inv, ClockOk, NodeOk, BufferOk, Handle;
    var s' := Next(s, l);
    if Enabled(s, l) {
      forall j | j in s'.nodes
        ensures ClockOk(s'.nodes[j])
      {
        if j == l.i {
          if l.Register? {
            NewClock(s'.nodes[j]);
          } else {
            NodeFacts(s, j);
            NodeClock(s.server, j, s.nodes[j], l);
            if l.Process? || l.Lose? {
              SameClock(s.nodes[j], s'.nodes[j]);
            }
          }
        }
      }
    }
  }

  lemma NodeFacts(s: System, i: Cuid)
    requires Inv(s) && i in s.nodes
    ensures NodeOk(s.server, i, s.nodes[i]) && BufferOk(s.nodes[i].replica)
  {
  }

  lemma NewClock(n: Node)
    requires n == NewNode(n.replica.cuid, n.replica.duid, n.replica.state, n.replica.isReadonly, n.replica.limit)
    ensures ClockOk(n)
  {
  }

  lemma {:induction false} ReachableClocks(ls: seq<Label>)
    ensures Inv(Exec(Init(), ls)) && Clocks(Exec(Init(), ls))
  {
    hide Inv, Next, ClockOk;
    ReachableInv(ls);
    if ls != [] {
      ReachableClocks(ls[..|ls| - 1]);
      NextClocks(Exec(Init(), ls[..|ls| - 1]), ls[|ls| - 1]);
    }
  }

  /** Where a client's transaction of the history stands among that client's own. */
  lemma OwnPosition(h: seq<Transaction>, i: Cuid, a: nat)
    requires a < |h| && h[a].cuid == i
    ensures |Own(h[..a], i)| < |Own(h, i)| && Own(h, i)[|Own(h[..a], i)|] == h[a]
  {
    hide Own, Foreign;
    SplitSnoc(h[..a], h[a], i);
    SplitSlice(h, a + 1, |h|, i);
    assert h[..a + 1] == h[..a] + [h[a]] && h[..|h|] == h;
  }

  lemma OwnPositions(h: seq<Transaction>, i: Cuid, a: nat, b: nat)
    requires a < b < |h| && h[a].cuid == i
    ensures |Own(h[..a], i)| < |Own(h[..b], i)|
  {
    hide Own, Foreign;
    SplitSnoc(h[..a], h[a], i);
    SplitSlice(h, a + 1, b, i);
    assert h[..a + 1] == h[..a] + [h[a]];
  }

  /** The lamports of one client's operations strictly increase along the history, aborted
      transactions notwithstanding. */
  lemma HistoryLamportsIncrease(ls: seq<Label>, a: nat, b: nat)
    requires var h := Exec(Init(), ls).server.history; a < b < |h| && h[a].cuid == h[b].cuid
    ensures var h := Exec(Init(), ls).server.history;
      && OpsIncrease(h[a].operations) && OpsIncrease(h[b].operations)
      && OpsBefore(h[a].operations, h[b].operations)
  {
    hide Own, Exec, Inv, ClockOk, OpsIncrease, OpsBefore;
    ReachableClocks(ls);
    var s := Exec(Init(), ls);
    var h := s.server.history;
    var i := h[a].cuid;
    HistoryClients(s, a);
    HeldLog(s, i);
    LogOf(s.nodes[i]);
    OwnPosition(h, i, a);
    OwnPosition(h, i, b);
    OwnPositions(h, i, a, b);
  }

  lemma HistoryClients(s: System, a: nat)
    requires Inv(s) && a < |s.server.history|
    ensures s.server.history[a].cuid in s.nodes
  {
  }

  lemma HeldLog(s: System, i: Cuid)
    requires Inv(s) && i in s.nodes
    ensures var own, log := Own(s.server.history, i), s.nodes[i].ledger.committed;
      |own| <= |log| && forall j :: 0 <= j < |own| ==> own[j].operations == log[j].operations
  {
    hide Own;
    NodeFacts(s, i);
    assert HeldOk(s.server, i, s.nodes[i].replica.checkpoint, s.nodes[i].ledger.committed, !s.nodes[i].stopped);
    var own, log := Own(s.server.history, i), s.nodes[i].ledger.committed;
    forall j | 0 <= j < |own|
      ensures own[j].operations == log[j].operations
    {
      assert own[j].Unnumbered() == log[j];
    }
  }

  lemma LogOf(n: Node)
    requires ClockOk(n)
    ensures LogIncreases(n.ledger.committed)
  {
  }

  /** So lamport and client identify an operation of the history. */
  lemma OperationIdsUnique(ls: seq<Label>, a: nat, x: nat, b: nat, y: nat)
    requires var h := Exec(Init(), ls).server.history;
      && a < |h| && x < |h[a].operations| && b < |h| && y < |h[b].operations|
      && h[a].cuid == h[b].cuid && h[a].operations[x].lamport == h[b].operations[y].lamport
    ensures a == b && x == y
  {
    hide Exec;
    var h := Exec(Init(), ls).server.history;
    if a < b {
      HistoryLamportsIncrease(ls, a, b);
    } else if b < a {
      HistoryLamportsIncrease(ls, b, a);
    } else if x != y {
      OneTransaction(ls, a);
    }
  }

  function IdOf(h: seq<Transaction>, a: nat, x: nat): OperationId
    requires a < |h| && x < |h[a].operations|
  {
    OperationId(h[a].operations[x].lamport, h[a].cuid, h[a].cseq)
  }

  /** And any two different operations of the history, of whatever clients, are strictly ordered: those of
      one client as it executed them, those with the same lamport by client. */
  lemma HistoryTotallyOrdered(ls: seq<Label>, a: nat, x: nat, b: nat, y: nat)
    requires var h := Exec(Init(), ls).server.history;
      && a < |h| && x < |h[a].operations| && b < |h| && y < |h[b].operations| && (a != b || x != y)
    ensures var h := Exec(Init(), ls).server.history;
      && (IdOf(h, a, x).Less(IdOf(h, b, y)) <==> !IdOf(h, b, y).Less(IdOf(h, a, x)))
      && (h[a].cuid == h[b].cuid && (a < b || (a == b && x < y)) ==> IdOf(h, a, x).Less(IdOf(h, b, y)))
      && (h[a].operations[x].lamport == h[b].operations[y].lamport && h[a].cuid < h[b].cuid ==>
            IdOf(h, a, x).Less(IdOf(h, b, y)))
  {
    hide Exec;
    var h := Exec(Init(), ls).server.history;
    if h[a].cuid == h[b].cuid {
      if h[a].operations[x].lamport == h[b].operations[y].lamport {
        OperationIdsUnique(ls, a, x, b, y);
      }
      if a < b {
        HistoryLamportsIncrease(ls, a, b);
      } else if a == b {
        OneTransaction(ls, a);
      }
    }
  }

  lemma OneTransaction(ls: seq<Label>, a: nat)
    requires a < |Exec(Init(), ls).server.history|
    ensures OpsIncrease(Exec(Init(), ls).server.history[a].operations)
  {
    hide Own, Exec, Inv, ClockOk, OpsIncrease;
    ReachableClocks(ls);
    var s := Exec(Init(), ls);
    var i := s.server.history[a].cuid;
    HistoryClients(s, a);
    HeldLog(s, i);
    LogOf(s.nodes[i]);
    OwnPosition(s.server.history, i, a);
  }
}
