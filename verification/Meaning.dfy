/** What a replica's value means: in every state of every run it is the acknowledged history,
    plus the replica's own pending work, plus a drift that the ledger of what it was given, executed and
    dropped determines. */
module Meaning {
  import opened Types
  import opened CounterArithmetic
  import opened PushBuffer
  import opened History
  import opened Replica
  import opened PullHandling
  import opened DatatypeServer
  import opened Protocol
  import opened Invariant
  import opened Delivery
  import opened Requests

  ghost predicate ValueOk(server: Server, n: Node) {
    && n.replica.checkpoint.sseq <= |server.history|
    && n.replica.value
        == Wrap(Total(server.history[..n.replica.checkpoint.sseq]) + n.PendingDelta() + n.Drift(server.history))
  }

  /** What was executed starts at a snapshot within the acknowledged history. */
  ghost predicate LedgerOk(server: Server, n: Node) {
    n.ledger.since <= n.replica.checkpoint.sseq <= |server.history|
  }

  /** The snapshot of a subscription answer holds the history up to its number, plus `donated`. */
  ghost predicate DonationOk(server: Server, net: Net) {
    net.Answered? && net.kind.Joined? ==>
      && net.answer.snapshotTransaction.Some? && SnapshotOk(net.answer.snapshotTransaction.value)
      && net.answer.snapshotTransaction.value.sseq <= |server.history|
      && FromBytes(net.answer.snapshotTransaction.value.operations[0].body.data)
          == Wrap(Total(server.history[..net.answer.snapshotTransaction.value.sseq]) + net.donated)
  }

  ghost predicate MeaningOk(server: Server, n: Node) {
    ValueOk(server, n) && LedgerOk(server, n) && DonationOk(server, n.net)
  }

  ghost predicate Meaningful(s: System) {
    forall i :: i in s.nodes ==> MeaningOk(s.server, s.nodes[i])
  }

  // ---- local steps ----

  lemma LocalMeans(server: Server, n: Node, delta: i64)
    requires MeaningOk(server, n) && BufferOk(n.replica)
    ensures MeaningOk(server, n.Local(delta))
  {
    hide Foreign, Above, BufferOk, Total;
    var r, r' := n.replica, n.replica.ExecuteLocal(delta);
    var op := Operation(r.opId.lamport + 1, CounterIncrease(delta));
    var before := if r.record.pending.Some? then r.record.pending.value.operations else [];
    assert r'.record.pending.value.operations == before + [op];
    DeltaSnoc(before, op);
    assert r'.record.OpenDelta() == r.record.OpenDelta() + delta;
    WrapAdd(Total(server.history[..r.checkpoint.sseq]) + n.PendingDelta() + n.Drift(server.history), delta);
  }

  lemma RollbackMeans(server: Server, n: Node)
    requires MeaningOk(server, n)
    ensures MeaningOk(server, n.(replica := n.replica.Rollback()))
  {
    hide Foreign, Above, OperationsDelta;
    var r := n.replica;
    if r.record.pending.Some? {
      WrapAdd(Total(server.history[..r.checkpoint.sseq]) + n.PendingDelta() + n.Drift(server.history),
              -r.record.pending.value.Delta());
    }
  }

  lemma AboveSnoc(txs: seq<Transaction>, tx: Transaction, c: nat)
    requires tx.cseq > c
    ensures Above(txs + [tx], c) == Above(txs, c) + [tx]
    ensures Total(Above(txs + [tx], c)) == Total(Above(txs, c)) + tx.Delta()
  {
    assert (txs + [tx])[..|txs|] == txs;
    assert (Above(txs, c) + [tx])[..|Above(txs, c)|] == Above(txs, c);
  }

  /** An accepted commit moves the open transaction into the buffer. */
  lemma CommitMovesPending(n: Node, tag: Option<string>)
    requires BufferOk(n.replica) && n.replica.record.pending.Some?
    requires n.replica.buffer.Enqueue(n.replica.record.pending.value.(tag := tag), n.replica.limit).Success?
    ensures var n' := n.Finish(tag, true);
      && n'.PendingDelta() == n.PendingDelta()
      && n' == n.(replica := n'.replica, ledger := n.ledger.(committed := n'.ledger.committed))
      && n'.replica == n.replica.(buffer := n'.replica.buffer, record := n'.replica.record)
  {
    hide Above, OperationsDelta, Total;
    var r := n.replica;
    EnqueuedIs(n, tag);
    AboveSnoc(r.buffer.transactions, r.record.pending.value.(tag := tag), r.checkpoint.cseq);
  }

  lemma CommitMeans(server: Server, n: Node, tag: Option<string>)
    requires MeaningOk(server, n) && BufferOk(n.replica)
    ensures MeaningOk(server, n.Finish(tag, true))
  {
    hide Foreign, Above, OperationsDelta, Wrap, BufferOk, Total, Node.Finish, Node.PendingDelta;
    var r := n.replica;
    if r.record.pending.None? {
      NothingToCommit(n, tag);
    } else if r.buffer.Enqueue(r.record.pending.value.(tag := tag), r.limit).Failure? {
      RefusedCommitIsAbort(n, tag);
      RollbackMeans(server, n);
    } else {
      CommitMovesPending(n, tag);
    }
  }

  lemma NothingToCommit(n: Node, tag: Option<string>)
    requires n.replica.record.pending.None?
    ensures n.Finish(tag, true) == n
  {
  }

  // ---- deliveries ----

  /** The own transactions between two checkpoints weigh what the log says. */
  lemma OwnWindow(server: Server, i: Cuid, cp: CheckPoint, cp': CheckPoint, log: seq<Transaction>)
    requires HeldOk(server, i, cp, log, true)
    requires cp.sseq <= cp'.sseq <= |server.history|
    requires |Own(server.history[..cp'.sseq], i)| == cp'.cseq
    ensures cp.cseq <= cp'.cseq <= |log|
    ensures |Own(server.history[cp.sseq..cp'.sseq], i)| == cp'.cseq - cp.cseq
    ensures Total(Own(server.history[cp.sseq..cp'.sseq], i)) == Total(log[cp.cseq..cp'.cseq])
  {
    hide Own, Fitting, Total;
    var h := server.history;
    var own := Own(h, i);
    SplitSlice(h, cp.sseq, cp'.sseq, i);
    SplitSlice(h, cp'.sseq, |h|, i);
    assert h[..|h|] == h;
    var window := Own(h[cp.sseq..cp'.sseq], i);
    assert own == Own(h[..cp.sseq], i) + window + Own(h[cp'.sseq..], i);
    forall j | 0 <= j < |window|
      ensures window[j].operations == log[cp.cseq..cp'.cseq][j].operations
    {
      assert window[j] == own[cp.cseq + j];
    }
    SameTotal(window, log[cp.cseq..cp'.cseq]);
  }

  /** Moving the checkpoint from `cp` to `cp'` trades pending work for history, and what the
      history has more are the foreign transactions in between. */
  lemma CheckpointMoves(server: Server, i: Cuid, cp: CheckPoint, cp': CheckPoint, log: seq<Transaction>)
    requires HeldOk(server, i, cp, log, true) && LogOk(log, i)
    requires cp.sseq <= cp'.sseq <= |server.history|
    requires |Own(server.history[..cp'.sseq], i)| == cp'.cseq
    ensures Total(server.history[..cp.sseq]) + Total(Above(log, cp.cseq))
          + Total(Foreign(server.history[cp.sseq..cp'.sseq], i))
      == Total(server.history[..cp'.sseq]) + Total(Above(log, cp'.cseq))
  {
    hide Own, Foreign, Fitting, Total, Above, HeldOk;
    var h := server.history;
    OwnWindow(server, i, cp, cp', log);
    SplitSlice(h, cp.sseq, cp'.sseq, i);
    SplitAddsUp(h[cp.sseq..cp'.sseq], i);
    AboveIsSuffix(log, cp.cseq);
    AboveIsSuffix(log, cp'.cseq);
    assert log[cp.cseq..] == log[cp.cseq..cp'.cseq] + log[cp'.cseq..];
    TotalAppend(log[cp.cseq..cp'.cseq], log[cp'.cseq..]);
  }

  /** A replica with an exchange under way is running. */
  lemma Running(server: Server, i: Cuid, n: Node)
    requires NodeOk(server, i, n) && !n.net.Idle?
    ensures !n.stopped && n.replica.cuid == i
    ensures HeldOk(server, i, n.replica.checkpoint, n.ledger.committed, true)
    ensures LogOk(n.ledger.committed, i)
    ensures n.replica.buffer.transactions == n.ledger.committed
  {
  }

  /** Where the checkpoint of a replica goes when it absorbs an answer without joining. */
  lemma CheckpointGoes(server: Server, i: Cuid, n: Node)
    requires NodeOk(server, i, n) && n.net.Answered? && n.net.answer.error.None?
    requires !Joins(n.replica, n.net.answer)
    ensures var cp, cp' := n.replica.checkpoint, n.replica.checkpoint.CheckWith(n.net.answer.checkpoint);
      && cp.sseq <= cp'.sseq <= |server.history|
      && |Own(server.history[..cp'.sseq], i)| == cp'.cseq
  {
    hide BufferOk, LogOk, Own, Foreign;
  }

  lemma AbsorbMeans(server: Server, i: Cuid, n: Node)
    requires NodeOk(server, i, n) && MeaningOk(server, n) && n.net.Answered?
    requires ApplyPull(n.replica, n.net.answer).1.Synced? && !Joins(n.replica, n.net.answer)
    ensures MeaningOk(server, n.Deliver())
  {
    hide Own, Foreign, Total, Above, BufferOk, HeldOk, LogOk, StateOk, NetOk, SkipCount;
    var p, r, cp := n.net.answer, n.replica, n.replica.checkpoint;
    var cp' := cp.CheckWith(p.checkpoint);
    var executed := Executed(cp, p);
    CheckpointGoes(server, i, n);
    Running(server, i, n);
    var missing := Foreign(server.history[cp.sseq..cp'.sseq], i);
    CheckpointMoves(server, i, cp, cp', n.ledger.committed);
    WrapAdd(Total(server.history[..cp.sseq]) + n.PendingDelta() + n.Drift(server.history), Total(executed));
    DriftMoves(server.history, i, n, n.Deliver(), executed);
  }

  /** An answer moves the drift by what was executed without being missing, or missing without being
      executed. */
  lemma DriftMoves(h: seq<Transaction>, i: Cuid, n: Node, n': Node, executed: seq<Transaction>)
    requires n.ledger.since <= n.replica.checkpoint.sseq <= n'.replica.checkpoint.sseq <= |h|
    requires n.replica.cuid == n'.replica.cuid == i
    requires n'.ledger == n.ledger.(direct := n.ledger.direct + executed)
    ensures var missing := Foreign(h[n.replica.checkpoint.sseq..n'.replica.checkpoint.sseq], i);
      && n'.Owed(h) == n.Owed(h) + missing
      && n'.Drift(h) == n.Drift(h) + Total(executed) - Total(missing)
  {
    hide Foreign, Total;
    var s, t := n.replica.checkpoint.sseq, n'.replica.checkpoint.sseq;
    ForeignWindows(h, n.ledger.since, s, t, i);
    TotalAppend(n.Owed(h), Foreign(h[s..t], i));
    TotalAppend(n.ledger.direct, executed);
  }

  lemma ForeignWindows(h: seq<Transaction>, a: nat, b: nat, c: nat, i: Cuid)
    requires a <= b <= c <= |h|
    ensures Foreign(h[a..c], i) == Foreign(h[a..b], i) + Foreign(h[b..c], i)
  {
    assert h[a..c] == h[a..b] + h[b..c];
    SplitAppend(h[a..b], h[b..c], i);
  }

  lemma ForeignEmpty(h: seq<Transaction>, a: nat, i: Cuid)
    requires a <= |h|
    ensures Foreign(h[a..a], i) == []
  {
  }

  lemma {:induction false} AllForeign(txs: seq<Transaction>, i: Cuid)
    requires Own(txs, i) == []
    ensures Foreign(txs, i) == txs
  {
    hide Own, Foreign;
    EmptySplit(i);
    if txs == [] {
    } else {
      var init, last := txs[..|txs| - 1], txs[|txs| - 1];
      assert txs == init + [last];
      SplitSnoc(init, last, i);
      AllForeign(init, i);
    }
  }

  /** What a joining replica is given: an answer to a replica the server holds nothing from. */
  lemma JoinGiven(server: Server, i: Cuid, n: Node)
    requires NodeOk(server, i, n) && n.net.Answered? && n.net.kind.Joined?
    requires Joins(n.replica, n.net.answer)
    ensures n.replica.checkpoint == ZERO_CHECKPOINT && n.replica.cuid == i
    ensures var p := n.net.answer;
      && p.snapshotTransaction.Some?
      && p.snapshotTransaction.value.sseq <= p.checkpoint.sseq <= |server.history|
      && p.checkpoint.cseq == 0
      && Own(server.history[..p.checkpoint.sseq], i) == []
      && p.transactions == Foreign(server.history[p.snapshotTransaction.value.sseq..p.checkpoint.sseq], i)
  {
    hide BufferOk, LogOk, Own, Foreign;
  }

  /** A joining replica executes every pulled transaction: the history after the snapshot. */
  lemma JoinExecutesAll(server: Server, i: Cuid, n: Node)
    requires NodeOk(server, i, n) && n.net.Answered? && n.net.kind.Joined?
    requires Joins(n.replica, n.net.answer)
    ensures n.replica.checkpoint == ZERO_CHECKPOINT && n.replica.cuid == i
    ensures var p := n.net.answer;
      && p.snapshotTransaction.Some?
      && p.snapshotTransaction.value.sseq <= p.checkpoint.sseq <= |server.history|
      && p.checkpoint.cseq == 0
      && Executed(ZERO_CHECKPOINT, p) == p.transactions
      && p.transactions == server.history[p.snapshotTransaction.value.sseq..p.checkpoint.sseq]
      && Foreign(p.transactions, i) == p.transactions
  {
    hide NodeOk, Own, Foreign;
    JoinGiven(server, i, n);
    var h, sd, t := server.history, n.net.answer.snapshotTransaction.value.sseq, n.net.answer.checkpoint.sseq;
    SplitSlice(h, sd, t, i);
    AllForeign(h[sd..t], i);
  }

  /** The replica once it has taken the snapshot. */
  lemma SubscribedIs(r: Replica, p: PushPullPack)
    requires p.snapshotTransaction.Some? && SnapshotOk(p.snapshotTransaction.value)
    ensures Subscribe(r, p).Success?
    ensures var r1 := Subscribe(r, p).value;
      && r1.value == FromBytes(p.snapshotTransaction.value.operations[0].body.data)
      && r1.checkpoint == r.checkpoint && r1.cuid == r.cuid
      && r1.buffer.transactions == [] && r1.record.pending.None?
  {
  }

  /** The replica after a subscription. */
  lemma JoinedIs(n: Node)
    requires n.net.Answered? && n.replica.checkpoint == ZERO_CHECKPOINT
    requires var p := n.net.answer;
      && p.snapshotTransaction.Some? && SnapshotOk(p.snapshotTransaction.value)
      && Executed(ZERO_CHECKPOINT, p) == p.transactions && p.checkpoint.cseq == 0
    requires ApplyPull(n.replica, n.net.answer).1.Synced? && Joins(n.replica, n.net.answer)
    ensures var p, n' := n.net.answer, n.Deliver();
      && n'.replica.value
          == Wrap(FromBytes(p.snapshotTransaction.value.operations[0].body.data) + Total(p.transactions))
      && n'.replica.checkpoint == p.checkpoint
      && n'.replica.buffer.transactions == [] && n'.replica.record.pending.None?
      && n'.replica.cuid == n.replica.cuid && n'.net.Idle? && !n'.stopped
      && n'.ledger
          == Ledger(p.snapshotTransaction.value.sseq, n.net.donated, n.net.folded, p.transactions, 0, [], 0)
  {
    hide Total, Executed, Subscribe, FromBytes, SnapshotOk;
    SubscribedIs(n.replica, n.net.answer);
    var r1 := Subscribe(n.replica, n.net.answer).value;
    assert n.Deliver().replica == Absorb(r1, n.net.answer);
  }

  lemma JoinMeans(server: Server, i: Cuid, n: Node)
    requires NodeOk(server, i, n) && MeaningOk(server, n) && n.net.Answered? && n.net.kind.Joined?
    requires ApplyPull(n.replica, n.net.answer).1.Synced? && Joins(n.replica, n.net.answer)
    ensures MeaningOk(server, n.Deliver())
    ensures n.net.answer.snapshotTransaction.Some?
    ensures n.Deliver().replica.checkpoint == n.net.answer.checkpoint
    ensures n.Deliver().PendingDelta() == 0
    ensures n.Deliver().ledger
      == Ledger(n.net.answer.snapshotTransaction.value.sseq, n.net.donated, n.net.folded,
                n.net.answer.transactions, 0, [], 0)
    ensures n.Deliver().Faithful(server.history) && n.Deliver().Drift(server.history) == n.net.donated
  {
    hide NodeOk, ApplyPull, Executed, Own, Foreign, Total, Above, Wrap, FromBytes;
    JoinExecutesAll(server, i, n);
    var p, h, n' := n.net.answer, server.history, n.Deliver();
    JoinedIs(n);
    var sd, t := p.snapshotTransaction.value.sseq, p.checkpoint.sseq;
    SplitSlice(h, sd, t, i);
    WrapAdd(Total(h[..sd]) + n.net.donated, Total(h[sd..t]));
    NothingPending(n'.replica.checkpoint.cseq);
    assert n'.Owed(h) == p.transactions;
    assert ValueOk(server, n');
    assert LedgerOk(server, n');
  }

  lemma NothingPending(c: nat)
    ensures Total(Above([], c)) == 0
  {
  }

  lemma RetireMeans(server: Server, n: Node, state: DatatypeState)
    requires MeaningOk(server, n)
    ensures MeaningOk(server, Node(n.replica.(state := state).Disable(), Idle, true, n.Retired()))
  {
    hide Foreign;
  }

  lemma DeliverMeans(server: Server, i: Cuid, n: Node)
    requires NodeOk(server, i, n) && MeaningOk(server, n) && n.net.Answered?
    ensures MeaningOk(server, n.Deliver())
  {
    hide BufferOk, HeldOk, LogOk, StateOk, Total, Above, Foreign, SkipCount;
    NeverUnimplemented(server, i, n);
    var (r1, outcome) := ApplyPull(n.replica, n.net.answer);
    if outcome.Synced? {
      if Joins(n.replica, n.net.answer) {
        JoinedOnly(server, i, n);
        JoinMeans(server, i, n);
      } else {
        AbsorbMeans(server, i, n);
      }
    } else {
      FailedIs(n);
      if Stops(outcome) {
        RetireMeans(server, n, r1.state);
      }
    }
  }

  lemma JoinedOnly(server: Server, i: Cuid, n: Node)
    requires NodeOk(server, i, n) && n.net.Answered? && n.net.answer.error.None?
    requires Joins(n.replica, n.net.answer)
    ensures n.net.kind.Joined?
  {
  }

  // ---- requests ----

  lemma MeaningStable(server: Server, server': Server, n: Node)
    requires MeaningOk(server, n)
    requires server.history <= server'.history
    ensures MeaningOk(server', n)
  {
    hide Total, Foreign, FromBytes, Wrap;
    var h, h', s := server.history, server'.history, n.replica.checkpoint.sseq;
    assert h'[..s] == h[..s] && h'[n.ledger.since..s] == h[n.ledger.since..s];
    assert n.Drift(h') == n.Drift(h);
    if n.net.Answered? && n.net.kind.Joined? {
      var sd := n.net.answer.snapshotTransaction.value.sseq;
      assert h'[..sd] == h[..sd];
    }
  }

  /** The snapshot given to a subscriber holds the history up to its number, plus the donor's
      own drift and pending work. */
  lemma DonationMade(s: System, p: PushPullPack, heir: Cuid)
    requires Inv(s) && Meaningful(s)
    ensures DonationOk(s.server, Handle(s, p, heir).1)
  {
    hide Total, Foreign, FromBytes, ToBytes, Wrap, Accepted, PullAfter, NodeOk;
    var net := Handle(s, p, heir).1;
    if net.kind.Joined? {
      var donor := Donor(s).value;
      assert NodeOk(s.server, s.server.creator, donor) && MeaningOk(s.server, donor);
      BytesRoundTrip(donor.replica.value);
    }
  }

  lemma QuietPendsNothing(n: Node)
    ensures n.Quiet() ==> n.PendingDelta() == 0
  {
  }

  lemma HistoryGrows(s: System, l: Label)
    requires Inv(s)
    ensures s.server.history <= Next(s, l).server.history
  {
    hide Inv, Handle, Node.Finish, Node.Build, Node.Deliver;
    if Enabled(s, l) {
      if l.Register? && s.phase == Fresh { FreshIsInit(s); }
      if l.Process? { HandleGrows(s, s.nodes[l.i].net.request, l.heir); }
    }
  }

  lemma HandleGrows(s: System, p: PushPullPack, heir: Cuid)
    ensures s.server.history <= Handle(s, p, heir).0.history
  {
    hide Accepted, PullAfter, Replica.SnapshotTransaction, Node.PendingDelta, Node.Quiet;
  }

  lemma FreshIsInit(s: System)
    requires Inv(s) && s.phase == Fresh
    ensures s == Init()
  {
  }

  lemma NextMeans(s: System, l: Label)
    requires Inv(s) && Meaningful(s)
    ensures Meaningful(Next(s, l))
  {
    hide NodeOk, MeaningOk, Inv, Wrap;
    var s' := Next(s, l);
    HistoryGrows(s, l);
    if Enabled(s, l) {
      forall j | j in s'.nodes
        ensures MeaningOk(s'.server, s'.nodes[j])
      {
        if j != l.i {
          MeaningStable(s.server, s'.server, s.nodes[j]);
        } else {
          ActorMeans(s, l);
        }
      }
    }
  }

  lemma ActorOk(s: System, i: Cuid)
    requires Inv(s) && Meaningful(s) && i in s.nodes
    ensures NodeOk(s.server, i, s.nodes[i]) && BufferOk(s.nodes[i].replica) && MeaningOk(s.server, s.nodes[i])
  {
  }

  lemma ActorMeans(s: System, l: Label)
    requires Inv(s) && Meaningful(s) && Enabled(s, l)
    ensures MeaningOk(Take(s, l).server, Take(s, l).nodes[l.i])
  {
    hide Inv, Meaningful, NodeOk, BufferOk, MeaningOk, Handle;
    var i := l.i;
    match l {
      case Register(_, _, _, _, _) => NewMeans(s, l);
      case Process(_, heir) => ProcessMeans(s, i, s.nodes[i], heir);
      case _ =>
        ActorOk(s, i);
        LocalStepMeans(s.server, i, s.nodes[i], l);
    }
  }

  lemma LocalStepMeans(server: Server, i: Cuid, n: Node, l: Label)
    requires NodeOk(server, i, n) && BufferOk(n.replica) && MeaningOk(server, n)
    ensures l.LocalOp? ==> MeaningOk(server, n.Local(l.delta))
    ensures l.Commit? ==> MeaningOk(server, n.Finish(l.tag, true))
    ensures l.Abort? ==> MeaningOk(server, n.Finish(None, false))
    ensures l.Unsubscribe? ==> MeaningOk(server, n.Unsubscribe())
    ensures l.Build? && !n.stopped ==> MeaningOk(server, n.Build())
    ensures l.Deliver? && n.net.Answered? ==> MeaningOk(server, n.Deliver())
    ensures l.Lose? ==> MeaningOk(server, n.(net := Idle))
  {
    hide NodeOk, BufferOk, MeaningOk;
    match l {
      case LocalOp(_, delta) => LocalMeans(server, n, delta);
      case Commit(_, tag) => CommitMeans(server, n, tag);
      case Abort(_) => RollbackMeans(server, n);
      case Unsubscribe(_) => UnsubscribeMeans(server, n);
      case Build(_) => if !n.stopped { BuildMeans(server, i, n); }
      case Deliver(_) => if n.net.Answered? { DeliverMeans(server, i, n); }
      case Lose(_) => SameMeaning(server, n, Idle);
      case _ =>
    }
  }

  lemma UnsubscribeMeans(server: Server, n: Node)
    requires MeaningOk(server, n)
    ensures MeaningOk(server, n.Unsubscribe())
  {
  }

  lemma BuildMeans(server: Server, i: Cuid, n: Node)
    requires NodeOk(server, i, n) && MeaningOk(server, n) && !n.stopped
    ensures MeaningOk(server, n.Build())
  {
    hide NodeOk, MeaningOk;
    BuildKeeps(server, i, n);
    SameMeaning(server, n, n.Build().net);
  }

  lemma NewMeans(s: System, l: Label)
    requires Inv(s) && Enabled(s, l) && l.Register?
    ensures MeaningOk(Take(s, l).server, Take(s, l).nodes[l.i])
  {
    hide Inv, Above, Foreign;
    var server, n := Take(s, l).server, Take(s, l).nodes[l.i];
    assert server.history[..0] == [] && server.history[0..0] == [];
    NothingPending(0);
    EmptySplit(l.i);
    assert n.PendingDelta() == 0;
  }

  lemma ProcessMeans(s: System, i: Cuid, n: Node, heir: Cuid)
    requires i in s.nodes && s.nodes[i] == n && n.net.Sent?
    requires Enabled(s, Process(i, heir))
    requires Inv(s) && Meaningful(s)
    ensures MeaningOk(Handle(s, n.net.request, heir).0, n.(net := Handle(s, n.net.request, heir).1))
  {
    hide NodeOk, Inv, Meaningful, MeaningOk, DonationOk, Handle;
    var (server', net) := Handle(s, n.net.request, heir);
    HistoryGrows(s, Process(i, heir));
    DonationMade(s, n.net.request, heir);
    ActorOk(s, i);
    SameMeaning(s.server, n, net);
    MeaningStable(s.server, server', n.(net := net));
  }

  /** The exchange under way is no part of what a value means. */
  lemma SameMeaning(server: Server, n: Node, net: Net)
    requires MeaningOk(server, n) && DonationOk(server, net)
    ensures MeaningOk(server, n.(net := net))
  {
  }

  lemma {:induction false} ReachableMeaningful(ls: seq<Label>)
    ensures Inv(Exec(Init(), ls)) && Meaningful(Exec(Init(), ls))
  {
    hide Inv, Meaningful;
    ReachableInv(ls);
    if ls == [] {
      InitMeaningful();
    } else {
      var init := ls[..|ls| - 1];
      ReachableMeaningful(init);
      NextMeans(Exec(Init(), init), ls[|ls| - 1]);
    }
  }

  lemma InitMeaningful()
    ensures Meaningful(Init())
  {
  }
}
