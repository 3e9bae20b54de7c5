/** A new operation's lamport exceeds that of everything its replica holds, unless an abort has thrown
    the clock back behind something pulled while the transaction was open. */
module Causality {
  import opened Types
  import opened CounterArithmetic
  import opened PushBuffer
  import opened History
  import opened Replica
  import opened PullHandling
  import opened DatatypeServer
  import opened Protocol
  import opened Invariant
  import opened Delivery
  import opened Requests
  import opened Meaning
  import opened Theorems
  import opened Lamports
  import opened Registration
  import opened Exactness

  /** Nothing executed, committed or folded in is past `top`. */
  predicate UpTo(folded: seq<Transaction>, direct: seq<Transaction>, committed: seq<Transaction>, top: nat) {
    TopLamport(folded) <= top && TopLamport(direct) <= top && TopLamport(committed) <= top
  }

  /** The clock is past everything the replica holds, and the save point past everything it held when
      the open transaction began. */
  predicate CausalOk(n: Node) {
    && UpTo(n.ledger.folded, n.ledger.direct, n.ledger.committed, n.replica.opId.lamport)
    && (n.replica.record.pending.Some? ==>
          && MaxLamport(n.replica.record.pending.value.operations) <= n.replica.opId.lamport
          && n.ledger.begun <= |n.ledger.direct|
          && UpTo(n.ledger.folded, n.ledger.direct[..n.ledger.begun], n.ledger.committed,
                  n.replica.record.rollbackOpId.lamport))
  }

  /** The lamport of a snapshot is past everything folded into it. */
  predicate SnapshotCausal(net: Net) {
    net.Answered? && net.kind.Joined?
      && net.answer.snapshotTransaction.Some? && SnapshotOk(net.answer.snapshotTransaction.value) ==>
      TopLamport(net.folded) <= net.answer.snapshotTransaction.value.operations[0].lamport
  }

  ghost predicate Causal(s: System) {
    forall i :: i in s.nodes ==> CausalOk(s.nodes[i]) && SnapshotCausal(s.nodes[i].net)
  }

  /** The step undoes a transaction in whose time something has been executed whose lamport is past the
      save point. */
  predicate Regresses(s: System, l: Label) {
    && Enabled(s, l) && (l.Abort? || l.Commit?)
    && RollsBack(s.nodes[l.i], l)
    && TopLamport(s.nodes[l.i].Meanwhile()) > s.nodes[l.i].replica.record.rollbackOpId.lamport
  }

  /** The step undoes a transaction in whose time anything has been executed from an answer. */
  predicate PulledInside(s: System, l: Label) {
    && Enabled(s, l) && (l.Abort? || l.Commit?)
    && RollsBack(s.nodes[l.i], l)
    && s.nodes[l.i].Meanwhile() != []
  }

  predicate NeverRegresses(ls: seq<Label>) {
    ls == [] || (NeverRegresses(ls[..|ls| - 1]) && !Regresses(Exec(Init(), ls[..|ls| - 1]), ls[|ls| - 1]))
  }

  predicate NeverPulledInside(ls: seq<Label>) {
    ls == [] || (NeverPulledInside(ls[..|ls| - 1]) && !PulledInside(Exec(Init(), ls[..|ls| - 1]), ls[|ls| - 1]))
  }

  lemma {:induction false} NoPullNoRegress(ls: seq<Label>)
    requires NeverPulledInside(ls)
    ensures NeverRegresses(ls)
  {
    hide Exec, RollsBack, Node.Meanwhile;
    if ls != [] {
      NoPullNoRegress(ls[..|ls| - 1]);
      var s, l := Exec(Init(), ls[..|ls| - 1]), ls[|ls| - 1];
      if Enabled(s, l) && (l.Abort? || l.Commit?) && RollsBack(s.nodes[l.i], l) {
        EmptyTop();
        assert s.nodes[l.i].Meanwhile() == [];
      }
    }
  }

  // ---- top lamports ----

  lemma {:induction false} TopBound(txs: seq<Transaction>, top: nat)
    requires LogUpTo(txs, top)
    ensures TopLamport(txs) <= top
  {
    if txs == [] {
    } else {
      var init, ops := txs[..|txs| - 1], txs[|txs| - 1].operations;
      forall j | 0 <= j < |init|
        ensures OpsUpTo(init[j].operations, top)
      {
        assert init[j] == txs[j];
      }
      TopBound(init, top);
      assert OpsUpTo(ops, top);
    }
  }

  lemma EmptyTop()
    ensures TopLamport([]) == 0
  {
  }

  lemma {:induction false} TopSplit(txs: seq<Transaction>, i: Cuid)
    ensures TopLamport(txs) == Max(TopLamport(Own(txs, i)), TopLamport(Foreign(txs, i)))
  {
    hide Own, Foreign, TopLamport, MaxLamport;
    EmptySplit(i);
    EmptyTop();
    if txs == [] {
    } else {
      var init, last := txs[..|txs| - 1], txs[|txs| - 1];
      TopSplit(init, i);
      assert txs == init + [last];
      SplitSnoc(init, last, i);
      TopAppend(init, [last]);
      if last.cuid == i {
        TopAppend(Own(init, i), [last]);
        assert Foreign(init, i) + [] == Foreign(init, i);
      } else {
        TopAppend(Foreign(init, i), [last]);
        assert Own(init, i) + [] == Own(init, i);
      }
    }
  }

  lemma TopSlice(h: seq<Transaction>, s: nat, t: nat)
    requires s <= t <= |h|
    ensures TopLamport(h[..t]) == Max(TopLamport(h[..s]), TopLamport(h[s..t]))
  {
    assert h[..t] == h[..s] + h[s..t];
    TopAppend(h[..s], h[s..t]);
  }

  lemma {:induction false} TopAttained(txs: seq<Transaction>)
    requires TopLamport(txs) > 0
    ensures exists k, x :: (0 <= k < |txs| && 0 <= x < |txs[k].operations|
                             && txs[k].operations[x].lamport == TopLamport(txs))
  {
    var init, last := txs[..|txs| - 1], txs[|txs| - 1];
    if MaxLamport(last.operations) == TopLamport(txs) {
      var x :| 0 <= x < |last.operations| && last.operations[x].lamport == TopLamport(txs);
      assert txs[|txs| - 1].operations[x].lamport == TopLamport(txs);
    } else {
      TopAttained(init);
      var k, x :| 0 <= k < |init| && 0 <= x < |init[k].operations|
        && init[k].operations[x].lamport == TopLamport(init);
      assert txs[k].operations[x].lamport == TopLamport(txs);
    }
  }

  lemma TopOne(tx: Transaction)
    ensures TopLamport([tx]) == MaxLamport(tx.operations)
  {
    assert [tx][..0] == [];
    EmptyTop();
  }

  /** What a replica holds reaches as far as the furthest of its parts. */
  lemma HeldTop(n: Node)
    ensures var open := if n.replica.record.pending.Some?
                        then MaxLamport(n.replica.record.pending.value.operations) else 0;
      TopLamport(n.Held()) == Max(Max(TopLamport(n.ledger.folded), TopLamport(n.ledger.direct)),
                                  Max(TopLamport(n.ledger.committed), open))
  {
    hide TopLamport, MaxLamport;
    var f, d, c := n.ledger.folded, n.ledger.direct, n.ledger.committed;
    TopAppend(f, d);
    TopAppend(f + d, c);
    if n.replica.record.pending.Some? {
      TopOne(n.replica.record.pending.value);
      TopAppend(f + d + c, [n.replica.record.pending.value]);
    } else {
      assert f + d + c + [] == f + d + c;
    }
  }

  // ---- steps ----

  lemma MaxSnoc(ops: seq<Operation>, op: Operation)
    ensures MaxLamport(ops + [op]) == Max(MaxLamport(ops), op.lamport)
  {
    assert (ops + [op])[..|ops|] == ops;
  }

  lemma LocalCausal(n: Node, delta: i64)
    requires CausalOk(n)
    ensures CausalOk(n.Local(delta))
  {
    hide TopLamport, MaxLamport;
    var r := n.replica;
    var op := Operation(r.opId.lamport + 1, CounterIncrease(delta));
    var before := if r.record.pending.Some? then r.record.pending.value.operations else [];
    assert n.Local(delta).replica.record.pending.value.operations == before + [op];
    MaxSnoc(before, op);
    NoneMax();
    assert n.ledger.direct[..|n.ledger.direct|] == n.ledger.direct;
  }

  lemma NoneMax()
    ensures MaxLamport([]) == 0
  {
  }

  lemma CommitCausal(n: Node, tag: Option<string>)
    requires CausalOk(n) && BufferOk(n.replica) && n.replica.record.pending.Some?
    requires n.replica.buffer.Enqueue(n.replica.record.pending.value.(tag := tag), n.replica.limit).Success?
    ensures CausalOk(n.Finish(tag, true))
  {
    hide TopLamport, MaxLamport, BufferOk, Node.Finish;
    var tx := n.replica.record.pending.value.(tag := tag);
    EnqueuedIs(n, tag);
    TopAppend(n.ledger.committed, [tx]);
    TopOne(tx);
  }

  /** What was executed is what had been when the transaction began and what has been since. */
  lemma DirectSplit(n: Node)
    requires n.ledger.begun <= |n.ledger.direct|
    ensures TopLamport(n.ledger.direct)
         == Max(TopLamport(n.ledger.direct[..n.ledger.begun]), TopLamport(n.Meanwhile()))
  {
    hide TopLamport;
    assert n.ledger.direct == n.ledger.direct[..n.ledger.begun] + n.Meanwhile();
    TopAppend(n.ledger.direct[..n.ledger.begun], n.Meanwhile());
  }

  /** Undoing keeps the clock past everything held exactly when nothing executed meanwhile is past the
      save point. */
  lemma RollbackCausalIff(n: Node)
    requires CausalOk(n) && n.replica.record.pending.Some?
    ensures CausalOk(n.(replica := n.replica.Rollback()))
      <==> TopLamport(n.Meanwhile()) <= n.replica.record.rollbackOpId.lamport
  {
    hide TopLamport, MaxLamport, Node.Meanwhile;
    DirectSplit(n);
  }

  lemma FinishCausal(s: System, l: Label, n: Node)
    requires Enabled(s, l) && (l.Abort? || l.Commit?) && s.nodes[l.i] == n && BufferOk(n.replica)
    requires CausalOk(n) && !Regresses(s, l)
    ensures CausalOk(Take(s, l).nodes[l.i])
  {
    hide BufferOk, CausalOk, TopLamport, Node.Meanwhile;
    if n.replica.record.pending.Some? {
      if RollsBack(n, l) {
        if l.Commit? { RefusedCommitIsAbort(n, l.tag); }
        RollbackCausalIff(n);
      } else {
        CommitCausal(n, l.tag);
      }
    }
  }

  lemma AbsorbLamport(n: Node)
    requires n.net.Answered? && ApplyPull(n.replica, n.net.answer).1.Synced? && !Joins(n.replica, n.net.answer)
    ensures n.Deliver().replica.opId.lamport
      == Max(n.replica.opId.lamport, TopLamport(Executed(n.replica.checkpoint, n.net.answer)))
    ensures n.Deliver().replica.record == n.replica.record
  {
    hide Executed, Total, TopLamport, Wrap;
  }

  lemma AbsorbCausal(n: Node)
    requires CausalOk(n) && n.net.Answered?
    requires ApplyPull(n.replica, n.net.answer).1.Synced? && !Joins(n.replica, n.net.answer)
    ensures CausalOk(n.Deliver())
  {
    hide TopLamport, MaxLamport, Executed, Node.Deliver, ApplyPull, Joins;
    var executed := Executed(n.replica.checkpoint, n.net.answer);
    AbsorbLamport(n);
    SyncedMoves(n);
    TopAppend(n.ledger.direct, executed);
    if n.ledger.begun <= |n.ledger.direct| {
      assert (n.ledger.direct + executed)[..n.ledger.begun] == n.ledger.direct[..n.ledger.begun];
    }
  }

  lemma JoinLamport(n: Node)
    requires n.net.Answered? && n.net.answer.snapshotTransaction.Some?
    requires SnapshotOk(n.net.answer.snapshotTransaction.value)
    requires ApplyPull(n.replica, n.net.answer).1.Synced? && Joins(n.replica, n.net.answer)
    ensures var executed, n' := Executed(n.replica.checkpoint, n.net.answer), n.Deliver();
      && n'.replica.opId.lamport
          == Max(n.net.answer.snapshotTransaction.value.operations[0].lamport, TopLamport(executed))
      && n'.replica.record.pending.None?
      && n'.ledger.folded == n.net.folded && n'.ledger.direct == executed && n'.ledger.committed == []
  {
    hide Executed, Total, TopLamport, FromBytes, Wrap;
  }

  lemma JoinCausal(server: Server, i: Cuid, n: Node)
    requires NodeOk(server, i, n) && MeaningOk(server, n) && SnapshotCausal(n.net) && n.net.Answered?
    requires n.net.kind.Joined?
    requires ApplyPull(n.replica, n.net.answer).1.Synced? && Joins(n.replica, n.net.answer)
    ensures CausalOk(n.Deliver())
  {
    hide TopLamport, NodeOk, ValueOk, LedgerOk, Executed, Node.Deliver, ApplyPull, Joins, Wrap, FromBytes, Total;
    JoinLamport(n);
    EmptyTop();
  }

  lemma FailedCausal(server: Server, i: Cuid, n: Node)
    requires NodeOk(server, i, n) && CausalOk(n) && n.net.Answered?
    requires ApplyPull(n.replica, n.net.answer).1.Failed?
    ensures CausalOk(n.Deliver())
  {
    hide Node.Settled, Above, Total, TopLamport, MaxLamport, NodeOk, ApplyPull;
    AnswerKind(server, i, n);
    FailedIs(n);
  }

  lemma DeliverCausal(server: Server, i: Cuid, n: Node)
    requires NodeOk(server, i, n) && MeaningOk(server, n) && n.net.Answered?
    requires CausalOk(n) && SnapshotCausal(n.net)
    ensures CausalOk(n.Deliver())
  {
    hide NodeOk, MeaningOk, CausalOk, SnapshotCausal, ApplyPull, Node.Deliver;
    NeverUnimplemented(server, i, n);
    if ApplyPull(n.replica, n.net.answer).1.Failed? {
      FailedCausal(server, i, n);
    } else if Joins(n.replica, n.net.answer) {
      NoErrorWhenSynced(n);
      JoinedOnly(server, i, n);
      JoinCausal(server, i, n);
    } else {
      AbsorbCausal(n);
    }
  }

  lemma SameCausal(n: Node, n': Node)
    requires CausalOk(n) && n'.ledger == n.ledger
    requires n'.replica.opId == n.replica.opId && n'.replica.record == n.replica.record
    ensures CausalOk(n')
  {
    hide UpTo, MaxLamport;
  }

  lemma NodeCausal(s: System, l: Label, n: Node)
    requires Enabled(s, l) && !l.Register? && s.nodes[l.i] == n
    requires NodeOk(s.server, l.i, n) && BufferOk(n.replica) && MeaningOk(s.server, n)
    requires CausalOk(n) && SnapshotCausal(n.net) && !Regresses(s, l)
    ensures CausalOk(Take(s, l).nodes[l.i])
  {
    hide NodeOk, BufferOk, MeaningOk, CausalOk, SnapshotCausal, Regresses, Node.Deliver, Node.Finish, Handle;
    match l {
      case LocalOp(_, delta) => LocalCausal(n, delta);
      case Commit(_, _) => FinishCausal(s, l, n);
      case Abort(_) => FinishCausal(s, l, n);
      case Unsubscribe(_) => SameCausal(n, n.Unsubscribe());
      case Build(_) => BuildKeeps(s.server, l.i, n); SameCausal(n, n.Build());
      case Deliver(_) => DeliverCausal(s.server, l.i, n);
      case Lose(_) => SameCausal(n, n.(net := Idle));
      case Process(i, heir) => SameCausal(n, n.(net := Handle(s, n.net.request, heir).1));
    }
  }

  /** A snapshot carries its donor's clock, which is past all the donor holds. */
  lemma SnapshotMade(s: System, p: PushPullPack, heir: Cuid)
    requires Causal(s)
    ensures SnapshotCausal(Handle(s, p, heir).1)
  {
    hide TopLamport, MaxLamport, ToBytes, Accepted, PullAfter, Total, Above, Node.Held, Node.Drift, CausalOk;
    var net := Handle(s, p, heir).1;
    if net.kind.Joined? {
      assert CausalOk(Donor(s).value);
      HeldUpTo(Donor(s).value);
    }
  }

  lemma HeldUpTo(n: Node)
    requires CausalOk(n)
    ensures TopLamport(n.Held()) <= n.replica.opId.lamport
  {
    hide TopLamport, MaxLamport;
    HeldTop(n);
  }

  lemma SnapshotStep(s: System, l: Label, n: Node)
    requires Enabled(s, l) && !l.Register? && s.nodes[l.i] == n && Causal(s)
    requires SnapshotCausal(n.net)
    ensures SnapshotCausal(Take(s, l).nodes[l.i].net)
  {
    hide Causal, TopLamport, CausalOk, AfterPull, Handle, SnapshotOk;
    if l.Process? {
      SnapshotMade(s, n.net.request, l.heir);
    }
  }

  lemma NewCausal(n: Node)
    requires n == NewNode(n.replica.cuid, n.replica.duid, n.replica.state, n.replica.isReadonly, n.replica.limit)
    ensures CausalOk(n) && SnapshotCausal(n.net)
  {
  }

  lemma NextCausal(s: System, l: Label)
    requires Inv(s) && Meaningful(s) && Causal(s) && !Regresses(s, l)
    ensures Causal(Next(s, l))
  {
    hide Inv, Meaningful, MeaningOk, NodeOk, BufferOk, CausalOk, SnapshotCausal, Regresses, Take;
    var s' := Next(s, l);
    if Enabled(s, l) {
      forall j | j in s'.nodes
        ensures CausalOk(s'.nodes[j]) && SnapshotCausal(s'.nodes[j].net)
      {
        NodesMoved(s, l, j);
        if j !in s.nodes {
          NewCausal(s'.nodes[j]);
        } else if j == l.i {
          ActorOk(s, j);
          NodeCausal(s, l, s.nodes[j]);
          SnapshotStep(s, l, s.nodes[j]);
        }
      }
    }
  }

  lemma {:induction false} ReachableCausal(ls: seq<Label>)
    requires NeverRegresses(ls)
    ensures Inv(Exec(Init(), ls)) && Meaningful(Exec(Init(), ls)) && Causal(Exec(Init(), ls))
  {
    hide Inv, Meaningful, CausalOk, Next, Regresses;
    ReachableMeaningful(ls);
    if ls != [] {
      ReachableCausal(ls[..|ls| - 1]);
      NextCausal(Exec(Init(), ls[..|ls| - 1]), ls[|ls| - 1]);
    }
  }

  /** Causality: the next operation of a replica has a higher lamport than every operation it has
      executed, committed, begun, or taken in with its snapshot. */
  lemma NewOperationIsLater(ls: seq<Label>, i: Cuid, delta: i64, k: nat, x: nat)
    requires NeverRegresses(ls) && i in Exec(Init(), ls).nodes
    requires k < |Exec(Init(), ls).nodes[i].Held()|
    requires x < |Exec(Init(), ls).nodes[i].Held()[k].operations|
    ensures var n := Exec(Init(), ls).nodes[i];
      var ops := n.replica.ExecuteLocal(delta).record.pending.value.operations;
      ops != [] && ops[|ops| - 1].lamport > n.Held()[k].operations[x].lamport
  {
    hide Inv, Exec, TopLamport, Meaningful, MaxLamport, CausalOk, Node.Held;
    ReachableCausal(ls);
    var n := Exec(Init(), ls).nodes[i];
    assert CausalOk(n);
    HeldUpTo(n);
    assert MaxLamport(n.Held()[k].operations) <= TopLamport(n.Held());
  }

  /** So it is in every run in which no answer is taken inside a transaction that is undone. */
  lemma NoPullInsideIsLater(ls: seq<Label>, i: Cuid, delta: i64, k: nat, x: nat)
    requires NeverPulledInside(ls) && i in Exec(Init(), ls).nodes
    requires k < |Exec(Init(), ls).nodes[i].Held()|
    requires x < |Exec(Init(), ls).nodes[i].Held()[k].operations|
    ensures var n := Exec(Init(), ls).nodes[i];
      var ops := n.replica.ExecuteLocal(delta).record.pending.value.operations;
      ops != [] && ops[|ops| - 1].lamport > n.Held()[k].operations[x].lamport
  {
    hide Exec, Node.Held;
    NoPullNoRegress(ls);
    NewOperationIsLater(ls, i, delta, k, x);
  }

  /** And the condition is exact: the first abort to meet it makes the next operation of its replica no
      later than one it holds, and no other abort does. */
  lemma AbortRegressesIff(ls: seq<Label>, i: Cuid)
    requires NeverRegresses(ls) && i in Exec(Init(), ls).nodes
    requires Exec(Init(), ls).nodes[i].replica.record.pending.Some?
    ensures i in Exec(Init(), ls + [Abort(i)]).nodes
    ensures var n' := Exec(Init(), ls + [Abort(i)]).nodes[i];
      (exists k, x :: (0 <= k < |n'.Held()| && 0 <= x < |n'.Held()[k].operations|
                       && n'.Held()[k].operations[x].lamport >= n'.replica.opId.lamport + 1))
      <==> Regresses(Exec(Init(), ls), Abort(i))
  {
    hide Inv, Exec, TopLamport, Meaningful, MaxLamport, Node.Held, Node.Meanwhile;
    ReachableCausal(ls);
    ExecOne(Init(), ls, Abort(i));
    var n, n' := Exec(Init(), ls).nodes[i], Exec(Init(), ls + [Abort(i)]).nodes[i];
    assert CausalOk(n) && n' == n.(replica := n.replica.Rollback());
    RollbackCausalIff(n);
    HeldTop(n');
    HeldBeyond(n', n'.replica.opId.lamport);
  }

  lemma HeldBeyond(n: Node, top: nat)
    ensures (exists k, x :: (0 <= k < |n.Held()| && 0 <= x < |n.Held()[k].operations|
                             && n.Held()[k].operations[x].lamport >= top + 1))
      <==> TopLamport(n.Held()) > top
  {
    hide TopLamport, Node.Held, MaxLamport;
    var held := n.Held();
    if TopLamport(held) > top {
      TopAttained(held);
      var k, x :| 0 <= k < |held| && 0 <= x < |held[k].operations|
        && held[k].operations[x].lamport == TopLamport(held);
      assert held[k].operations[x].lamport >= top + 1;
    }
    forall k, x | 0 <= k < |held| && 0 <= x < |held[k].operations|
      ensures held[k].operations[x].lamport <= TopLamport(held)
    {
      assert MaxLamport(held[k].operations) <= TopLamport(held);
    }
  }

  // ---- what a replica holds reaches as far as its acknowledged history ----

  /** What was folded in reaches as far as the history the snapshot is stamped with. */
  ghost predicate FoldedOk(h: seq<Transaction>, since: nat, folded: seq<Transaction>) {
    since <= |h| && TopLamport(h[..since]) <= TopLamport(folded)
  }

  ghost predicate NodeFolded(server: Server, n: Node) {
    && FoldedOk(server.history, n.ledger.since, n.ledger.folded)
    && (n.net.Answered? && n.net.kind.Joined? && !Attached(server, n.replica.duid) ==>
          && n.net.answer.snapshotTransaction.Some?
          && FoldedOk(server.history, n.net.answer.snapshotTransaction.value.sseq, n.net.folded))
  }

  ghost predicate FoldedAt(s: System, i: Cuid) { i in s.nodes && NodeFolded(s.server, s.nodes[i]) }

  ghost predicate AllFolded(s: System) { forall i :: i in s.nodes ==> FoldedAt(s, i) }

  /** The own part of an acknowledged history is no further than what was committed. */
  lemma OwnTop(server: Server, i: Cuid, n: Node, from: nat)
    requires NodeOk(server, i, n) && from <= n.replica.checkpoint.sseq <= |server.history|
    ensures TopLamport(Own(server.history[from..n.replica.checkpoint.sseq], i)) <= TopLamport(n.ledger.committed)
  {
    hide Own, Foreign, TopLamport, BufferOk, StateOk, NetOk, OpsUpTo, Fitting;
    var h, s, log := server.history, n.replica.checkpoint.sseq, n.ledger.committed;
    SplitSlice(h, from, s, i);
    SplitSlice(h, s, |h|, i);
    assert h[..|h|] == h;
    var window, own := Own(h[from..s], i), Own(h, i);
    assert own == Own(h[..from], i) + window + Own(h[s..], i);
    forall j | 0 <= j < |window|
      ensures OpsUpTo(window[j].operations, TopLamport(log))
    {
      var k := |Own(h[..from], i)| + j;
      assert window[j] == own[k] && own[k].Unnumbered() == log[k];
      OpsAll(log, k);
    }
    TopBound(window, TopLamport(log));
  }

  lemma OpsAll(log: seq<Transaction>, k: nat)
    requires k < |log|
    ensures OpsUpTo(log[k].operations, TopLamport(log))
  {
    assert MaxLamport(log[k].operations) <= TopLamport(log);
  }

  /** An exact replica holds something as late as anything in its acknowledged history. */
  lemma HeldReaches(server: Server, i: Cuid, n: Node)
    requires NodeOk(server, i, n) && n.replica.cuid == i && n.Exact(server.history)
    requires n.ledger.since <= n.replica.checkpoint.sseq <= |server.history|
    requires FoldedOk(server.history, n.ledger.since, n.ledger.folded)
    ensures TopLamport(server.history[..n.replica.checkpoint.sseq]) <= TopLamport(n.Held())
  {
    hide NodeOk, Own, Foreign, TopLamport, MaxLamport, Node.Held;
    var h, since, s := server.history, n.ledger.since, n.replica.checkpoint.sseq;
    HeldTop(n);
    TopSlice(h, since, s);
    TopSplit(h[since..s], i);
    OwnTop(server, i, n, since);
  }

  lemma FoldedLater(h: seq<Transaction>, h': seq<Transaction>, since: nat, folded: seq<Transaction>)
    requires h <= h' && FoldedOk(h, since, folded)
    ensures FoldedOk(h', since, folded)
  {
    hide TopLamport;
    assert h'[..since] == h[..since];
  }

  lemma KeptFolded(server: Server, n: Node, n': Node)
    requires NodeFolded(server, n) && n'.ledger.since == n.ledger.since && n'.ledger.folded == n.ledger.folded
    requires !n'.net.Answered? || (n'.net == n.net && n'.replica.duid == n.replica.duid)
    ensures NodeFolded(server, n')
  {
    hide FoldedOk;
  }

  lemma OthersFolded(server: Server, server': Server, n: Node)
    requires NodeFolded(server, n) && server.history <= server'.history
    requires server.created ==> server'.created && server'.duid == server.duid
    requires n.net.Answered? && n.net.kind.Joined? ==> server.created
    ensures NodeFolded(server', n)
  {
    hide FoldedOk;
    FoldedLater(server.history, server'.history, n.ledger.since, n.ledger.folded);
    if n.net.Answered? && n.net.kind.Joined? && !Attached(server, n.replica.duid) {
      FoldedLater(server.history, server'.history, n.net.answer.snapshotTransaction.value.sseq, n.net.folded);
    }
  }

  /** A snapshot given to a newcomer folds in all the history it is stamped with. */
  lemma ServedFolded(s: System, l: Label)
    requires Enabled(s, l) && l.Process?
    requires Inv(s) && Meaningful(s) && AllExact(s) && AllFolded(s)
    requires !RepeatsCreationLate(s, l) && !AsksUnquietDonor(s, l)
    ensures FoldedAt(Next(s, l), l.i)
  {
    hide Inv, Meaningful, Handle, NodeOk, BufferOk, MeaningOk, RepeatsCreationLate, AsksUnquietDonor, FoldedOk;
    hide Donor, Aligned, ExactAt, Foreign, Node.Quiet, Node.Drift, Node.PendingDelta, AllExact;
    var n, p := s.nodes[l.i], s.nodes[l.i].net.request;
    var (server', net) := Handle(s, p, l.heir);
    ActorOk(s, l.i);
    RequestIs(s.server, l.i, n);
    assert FoldedAt(s, l.i);
    CleanAnswer(s, l.i, p, l.heir);
    ServedGrows(s, l.i, n, p, l.heir);
    FoldedLater(s.server.history, server'.history, n.ledger.since, n.ledger.folded);
    if net.kind.Joined? && p.duid != s.server.duid {
      FoldsDonor(s, p, l.heir);
      DonorReaches(s);
    }
  }

  lemma FoldsDonor(s: System, p: PushPullPack, heir: Cuid)
    requires Donor(s).Some? && Handle(s, p, heir).1.Answered? && Handle(s, p, heir).1.kind.Joined?
    ensures Handle(s, p, heir).1.folded == Donor(s).value.Held()
    ensures Donor(s).value.replica.SnapshotTransaction().sseq == Donor(s).value.replica.checkpoint.sseq
  {
    hide Accepted, PullAfter, Donor, Node.Held, Node.Drift, Node.PendingDelta;
  }

  lemma DonorReaches(s: System)
    requires Inv(s) && Meaningful(s) && AllExact(s) && AllFolded(s)
    requires Donor(s).Some? && !Donor(s).value.stopped
    ensures FoldedOk(s.server.history, Donor(s).value.replica.checkpoint.sseq, Donor(s).value.Held())
  {
    hide Inv, Meaningful, NodeOk, BufferOk, MeaningOk, TopLamport, Node.Held, Node.Exact, AnswerExact;
    var i, n := s.server.creator, Donor(s).value;
    ActorOk(s, i);
    NodeCuid(s.server, i, n);
    Ranges(s.server, n);
    assert ExactAt(s, i) && FoldedAt(s, i);
    HeldReaches(s.server, i, n);
  }

  lemma FinishFolded(n: Node, tag: Option<string>, commit: bool)
    ensures var n' := n.Finish(tag, commit);
      n'.ledger.since == n.ledger.since && n'.ledger.folded == n.ledger.folded && n'.net == n.net
      && n'.replica.duid == n.replica.duid
  {
  }

  lemma DeliverFolded(server: Server, i: Cuid, n: Node)
    requires NodeOk(server, i, n) && MeaningOk(server, n) && n.net.Answered? && NodeFolded(server, n)
    ensures NodeFolded(server, n.Deliver())
  {
    hide NodeOk, MeaningOk, FoldedOk, ApplyPull, Node.Settled, Above, Total, Foreign;
    NeverUnimplemented(server, i, n);
    AnswerKind(server, i, n);
    if ApplyPull(n.replica, n.net.answer).1.Failed? {
      FailedIs(n);
    } else {
      NoErrorWhenSynced(n);
      if Joins(n.replica, n.net.answer) {
        JoinedOnly(server, i, n);
        JoinsApart(server, i, n);
        JoinMeans(server, i, n);
      } else {
        SyncedMoves(n);
      }
    }
  }

  /** Only a replica that has not been let in joins. */
  lemma JoinsApart(server: Server, i: Cuid, n: Node)
    requires NodeOk(server, i, n) && n.net.Answered? && n.net.kind.Joined?
    requires Joins(n.replica, n.net.answer)
    ensures !Attached(server, n.replica.duid)
  {
    hide BufferOk, LogOk, HeldOk, RunOk, Own, Foreign;
  }

  lemma LocalFolded(s: System, l: Label)
    requires Enabled(s, l) && !l.Register? && !l.Process?
    requires Inv(s) && Meaningful(s) && FoldedAt(s, l.i)
    ensures FoldedAt(Next(s, l), l.i)
  {
    hide Inv, Meaningful, NodeOk, BufferOk, MeaningOk, NodeFolded, Node.Deliver, Node.Finish, Node.Build;
    var n := s.nodes[l.i];
    ActorOk(s, l.i);
    match l {
      case LocalOp(_, delta) => KeptFolded(s.server, n, n.Local(delta));
      case Commit(_, tag) => FinishFolded(n, tag, true); KeptFolded(s.server, n, n.Finish(tag, true));
      case Abort(_) => FinishFolded(n, None, false); KeptFolded(s.server, n, n.Finish(None, false));
      case Unsubscribe(_) => KeptFolded(s.server, n, n.Unsubscribe());
      case Build(_) => BuiltState(s.server, l.i, n); KeptFolded(s.server, n, n.Build());
      case Deliver(_) => DeliverFolded(s.server, l.i, n);
      case Lose(_) => KeptFolded(s.server, n, n.(net := Idle));
    }
  }

  lemma NextFolded(s: System, l: Label)
    requires Inv(s) && Meaningful(s) && AllExact(s) && AllFolded(s)
    requires !RepeatsCreationLate(s, l) && !AsksUnquietDonor(s, l)
    ensures AllFolded(Next(s, l))
  {
    hide Inv, Meaningful, AllExact, NodeFolded, RepeatsCreationLate, AsksUnquietDonor, Take;
    var s' := Next(s, l);
    HistoryGrows(s, l);
    CoreKept(s, l);
    if Enabled(s, l) {
      forall j | j in s'.nodes
        ensures FoldedAt(s', j)
      {
        NodesMoved(s, l, j);
        if j !in s.nodes {
          NewFolded(s'.server, s'.nodes[j]);
        } else if j != l.i {
          assert FoldedAt(s, j);
          JoinedCreated(s, j);
          OthersFolded(s.server, s'.server, s.nodes[j]);
        } else if l.Process? {
          ServedFolded(s, l);
        } else {
          assert FoldedAt(s, j);
          LocalFolded(s, l);
        }
      }
    }
  }

  lemma NewFolded(server: Server, n: Node)
    requires n == NewNode(n.replica.cuid, n.replica.duid, n.replica.state, n.replica.isReadonly, n.replica.limit)
    ensures NodeFolded(server, n)
  {
    assert server.history[..0] == [];
    EmptyTop();
  }

  lemma {:induction false} CleanRunsFolded(ls: seq<Label>)
    requires Clean(Init(), ls)
    ensures AllFolded(Exec(Init(), ls))
  {
    hide Inv, Meaningful, AllExact, NodeFolded, Next, RepeatsCreationLate, AsksUnquietDonor;
    if ls != [] {
      CleanRunsFolded(ls[..|ls| - 1]);
      CleanRunsExact(ls[..|ls| - 1]);
      NextFolded(Exec(Init(), ls[..|ls| - 1]), ls[|ls| - 1]);
    }
  }

  /** In a clean run a replica's next operation is later than everything in its acknowledged history,
      whether it has executed that itself or taken it in with its snapshot. */
  lemma LaterThanHistory(ls: seq<Label>, i: Cuid, delta: i64, j: nat, x: nat)
    requires NeverRegresses(ls) && Clean(Init(), ls)
    requires var s := Exec(Init(), ls);
      && i in s.nodes && !s.nodes[i].stopped
      && j < s.nodes[i].replica.checkpoint.sseq <= |s.server.history|
      && x < |s.server.history[j].operations|
    ensures var s := Exec(Init(), ls);
      var ops := s.nodes[i].replica.ExecuteLocal(delta).record.pending.value.operations;
      ops != [] && ops[|ops| - 1].lamport > s.server.history[j].operations[x].lamport
  {
    hide Inv, Exec, TopLamport, Meaningful, MaxLamport, CausalOk, Node.Held, Node.Exact, NodeOk, BufferOk, MeaningOk;
    hide FoldedOk, Clean;
    ReachableCausal(ls);
    CleanRunsFolded(ls);
    CleanExact(ls, i);
    var s := Exec(Init(), ls);
    var n, prefix := s.nodes[i], s.server.history[..s.nodes[i].replica.checkpoint.sseq];
    ActorOk(s, i);
    NodeCuid(s.server, i, n);
    Ranges(s.server, n);
    assert CausalOk(n) && FoldedAt(s, i);
    HeldReaches(s.server, i, n);
    HeldUpTo(n);
    assert prefix[j] == s.server.history[j] && MaxLamport(prefix[j].operations) <= TopLamport(prefix);
  }
}
