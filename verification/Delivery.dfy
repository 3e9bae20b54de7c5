/** Delivering an answer keeps the structural invariant. */
module Delivery {
  import opened Types
  import opened CounterArithmetic
  import opened PushBuffer
  import opened History
  import opened Replica
  import opened PullHandling
  import opened DatatypeServer
  import opened Protocol
  import opened Invariant

  /** Stopping drops the pending work and keeps what the server holds. */
  lemma RetireKeeps(server: Server, i: Cuid, n: Node, state: DatatypeState)
    requires NodeOk(server, i, n)
    ensures NodeOk(server, i, Node(n.replica.(state := state).Disable(), Idle, true, n.Retired()))
  {
    assert BufferOk(n.replica.(state := state).Disable());
  }

  lemma RetryKeeps(server: Server, i: Cuid, n: Node)
    requires NodeOk(server, i, n) && n.net.Answered?
    requires n.net.kind.Rejected? && n.net.answer.error.value.ServerInternalError?
    ensures NodeOk(server, i, Node(n.replica.(state := n.net.answer.state), Idle, false, n.ledger))
  {
    assert BufferOk(n.replica.(state := n.net.answer.state));
  }

  /** Moving the checkpoint to where the server holds exactly the acknowledged transactions. */
  lemma AbsorbKeeps(server: Server, i: Cuid, n: Node, p: PushPullPack, ledger: Ledger)
    requires NodeOk(server, i, n) && !n.stopped && Attached(server, n.replica.duid)
    requires p.state.Subscribed? || p.state.Disabled?
    requires ledger.committed == n.ledger.committed
    requires n.replica.checkpoint.CheckWith(p.checkpoint).sseq <= |server.history|
    requires |Own(server.history[..n.replica.checkpoint.CheckWith(p.checkpoint).sseq], i)|
          == n.replica.checkpoint.CheckWith(p.checkpoint).cseq <= server.Known(i)
    requires !n.replica.state.Disabled?
    ensures NodeOk(server, i, Node(Absorb(n.replica, p), Idle, false, ledger))
  {
    var r, r', log := n.replica, Absorb(n.replica, p), n.ledger.committed;
    var cp := r'.checkpoint;
    assert BufferOk(r');
    assert r.checkpoint.cseq <= cp.cseq;
    HeldLater(server, i, r.checkpoint, cp, log);
  }

  lemma HeldLater(server: Server, i: Cuid, cp: CheckPoint, cp': CheckPoint, log: seq<Transaction>)
    requires HeldOk(server, i, cp, log, true) && cp.cseq <= cp'.cseq
    requires cp'.sseq <= |server.history| && |Own(server.history[..cp'.sseq], i)| == cp'.cseq <= server.Known(i)
    ensures HeldOk(server, i, cp', log, true)
  {
    hide Own, Fitting, SizeOf;
    FittingFits(log[cp.cseq..], MAX_SEND);
    var d := server.Known(i) - cp'.cseq;
    var a, b := log[cp.cseq..], log[cp'.cseq..];
    var head := a[..cp'.cseq - cp.cseq];
    var n := server.Known(i) - cp.cseq;
    FittingIsLongest(a, MAX_SEND, n);
    assert a[..n] == head + b[..d];
    SizeOfAppend(head, b[..d]);
    FittingIsLongest(b, MAX_SEND, d);
  }

  /** Taking a subscription: the replica starts over from the snapshot. */
  lemma JoinKeeps(server: Server, i: Cuid, n: Node, ledger: Ledger)
    requires NodeOk(server, i, n) && n.net.Answered? && n.net.kind.Joined?
    requires Joins(n.replica, n.net.answer) && ledger.committed == []
    ensures Subscribe(n.replica, n.net.answer).Success?
    ensures NodeOk(server, i, Node(Absorb(Subscribe(n.replica, n.net.answer).value, n.net.answer), Idle, false, ledger))
  {
    hide Own, Foreign, Fitting, ToUnsigned;
    var p, r1 := n.net.answer, Subscribe(n.replica, n.net.answer).value;
    assert !Attached(server, n.replica.duid);
    var r' := Absorb(r1, p);
    assert r'.checkpoint == CheckPoint(p.checkpoint.sseq, 0);
    assert Own(server.history, i) == [];
    assert BufferOk(r');
  }

  lemma SyncedKeeps(server: Server, i: Cuid, n: Node, ledger: Ledger)
    requires NodeOk(server, i, n) && n.net.Answered?
    requires ApplyPull(n.replica, n.net.answer).1.Synced?
    requires ledger.committed == if Joins(n.replica, n.net.answer) then [] else n.ledger.committed
    ensures NodeOk(server, i, Node(ApplyPull(n.replica, n.net.answer).0, Idle, false, ledger))
  {
    var p, kind, r := n.net.answer, n.net.kind, n.replica;
    if Joins(r, p) {
      JoinKeeps(server, i, n, ledger);
    } else {
      if kind.Void? {
        assert r.checkpoint.CheckWith(p.checkpoint) == r.checkpoint;
      }
      assert Attached(server, r.duid);
      AbsorbKeeps(server, i, n, p, ledger);
    }
  }

  /** The branches of the pull handler that are not implemented are never reached. */
  lemma NeverUnimplemented(server: Server, i: Cuid, n: Node)
    requires NodeOk(server, i, n) && n.net.Answered?
    ensures !ApplyPull(n.replica, n.net.answer).1.Unimplemented?
  {
    hide BufferOk, LogOk, HeldOk, RunOk, Absorb, Subscribe, ProgressOk, CreatedOk, PulledOk, JoinedOk;
  }

  /** A failed pull has changed nothing but the state, and leaves the replica running only when
      the server asked for a retry. */
  lemma FailedIs(n: Node)
    requires n.net.Answered? && (n.net.answer.error.Some? <==> n.net.kind.Rejected?)
    requires ApplyPull(n.replica, n.net.answer).1.Failed?
    ensures var (r1, outcome) := ApplyPull(n.replica, n.net.answer);
      && r1 == n.replica.(state := r1.state)
      && (Stops(outcome) || (outcome.error.SyncFailed? && r1.state == n.net.answer.state
            && n.net.kind.Rejected? && n.net.answer.error.value.ServerInternalError?))
  {
  }

  lemma SettledCommitted(server: Server, i: Cuid, n: Node)
    requires NodeOk(server, i, n) && n.net.Answered?
    requires ApplyPull(n.replica, n.net.answer).1.Synced?
    ensures n.Settled().committed
      == if Joins(n.replica, n.net.answer) then [] else n.ledger.committed
  {
    if Joins(n.replica, n.net.answer) {
      assert n.net.kind.Joined?;
    }
  }

  lemma DeliverKeeps(server: Server, i: Cuid, n: Node)
    requires NodeOk(server, i, n) && n.net.Answered?
    ensures NodeOk(server, i, n.Deliver())
  {
    hide BufferOk, LogOk, HeldOk, StateOk, RunOk, Own, Foreign, Node.Settled;
    NeverUnimplemented(server, i, n);
    var (r1, outcome) := ApplyPull(n.replica, n.net.answer);
    if outcome.Synced? {
      SettledCommitted(server, i, n);
      SyncedKeeps(server, i, n, n.Settled());
    } else {
      FailedIs(n);
      if Stops(outcome) {
        RetireKeeps(server, i, n, r1.state);
      } else {
        RetryKeeps(server, i, n);
      }
    }
  }
}
