/** More runs in which something goes wrong: answers whose checkpoint subtraction underflows, a retried
    creation that disables its sender, and a clock thrown back by an abort. */
module Failures {
  import opened Types
  import opened CounterArithmetic
  import opened PushBuffer
  import opened History
  import opened Replica
  import opened PullHandling
  import opened PullSteps
  import opened DatatypeServer
  import opened Protocol
  import opened Theorems
  import opened Causality
  import opened Scenarios

  // ---- a creation retried after its answer was lost ----

  /** The server once client 1 has created the datatype with its transaction. */
  const STARTED := CREATED.(sseq := 1, history := [Seven(1).(sseq := 1)], cseqMap := map[1 := CheckPoint(1, 1)])

  lemma StartServed(s: System)
    requires s.phase == Live && s.server == Server.New(Counter, 10, 1).Insert(1)
    ensures var (server, net) := Handle(s, Pushing(1, SubscribingOrCreating), 0);
      && server == STARTED && net.Answered? && net.kind.Created?
      && net.answer == Asking(1, 10, Subscribed).(checkpoint := CheckPoint(1, 1))
  {
    hide Total, Above, Node.Held, Replica.SnapshotTransaction;
    var txs := [Seven(1)];
    assert txs[1..] == [] && Accepted(0, 0, txs) == [Seven(1).(sseq := 1)];
    var h: seq<Transaction> := [];
    assert h + [Seven(1).(sseq := 1)] == [Seven(1).(sseq := 1)];
  }

  /** A client that subscribes or creates has pushed its first transaction with the creation. */
  lemma StartedRun() returns (ls: seq<Label>, s: System)
    ensures Exec(Init(), ls) == s && s.phase == Live && s.server == STARTED
    ensures s.nodes.Keys == {1} && s.nodes[1] == Sevened(Empty(1, 10, SubscribingOrCreating), 1)
  {
    hide Exec, Handle, Sevened, Pushing;
    Started();
    ls, s := Go([], Init(), Register(1, 10, SubscribingOrCreating, false, 1000));
    assert s.nodes[1] == Empty(1, 10, SubscribingOrCreating);
    ls, s := SevenRun(ls, s, 1);
    SevenedIdle(Empty(1, 10, SubscribingOrCreating), 1);
    StartServed(s);
    ls, s := Go(ls, s, Process(1, 0));
    ls, s := Go(ls, s, Lose(1));
  }

  lemma StartedBuilds()
    ensures var n := Sevened(Empty(1, 10, SubscribingOrCreating), 1);
      n.net.Idle? && !n.stopped && n.Build() == n.(net := Sent(Pushing(1, SubscribingOrCreating)))
  {
    CommitsSeven(Empty(1, 10, SubscribingOrCreating), 1);
  }

  lemma RestartServed(s: System)
    requires s.phase == Live && s.server == STARTED
    ensures var (server, net) := Handle(s, Pushing(1, SubscribingOrCreating), 0);
      && server == STARTED && net.Answered?
      && net.answer == Pushing(1, SubscribingOrCreating).Rejected(ProtocolViolation)
  {
    hide Total, Above, Node.Held, Replica.SnapshotTransaction;
  }

  lemma RejectionDisables(n: Node, p: PushPullPack)
    requires n.net.Answered? && n.net.answer == p.Rejected(ProtocolViolation)
    ensures n.Deliver().stopped && n.Deliver().replica.state.Disabled? && n.Deliver().replica.buffer == Buffer.OfRun([])
  {
    hide Node.Settled, Node.PendingDelta;
  }

  /** The retry of a creation that carried a transaction meets a created datatype: its sender is
      disabled, although the server holds everything it has committed. */
  lemma RetriedCreationDisables() returns (ls: seq<Label>)
    ensures var s := Exec(Init(), ls);
      && 1 in s.nodes && s.nodes[1].stopped && s.nodes[1].replica.state.Disabled?
      && s.server.history == [Seven(1).(sseq := 1)]
  {
    hide Exec, Handle, Sevened, Pushing, Empty, Node.Build, Node.Deliver;
    var s: System;
    ls, s := StartedRun();
    StartedBuilds();
    ls, s := Go(ls, s, Build(1));
    RestartServed(s);
    ls, s := Go(ls, s, Process(1, 0));
    RejectionDisables(s.nodes[1], Pushing(1, SubscribingOrCreating));
    ls, s := Go(ls, s, Deliver(1));
  }

  // ---- a creation asked for again after an abort ----

  /** Client 1 with its transaction committed and another one open. */
  function Opened(): Node { Sevened(Empty(1, 10, SubscribingOrCreating), 1).Local(1) }

  /** The same, let in with the committed one acknowledged. */
  function LetIn(): Node {
    Opened().(replica := Opened().replica.(checkpoint := CheckPoint(1, 1), state := Subscribed))
  }

  lemma OpenedBuilds()
    ensures Opened().net.Idle? && !Opened().stopped
    ensures Opened().Build() == Opened().(net := Sent(Pushing(1, SubscribingOrCreating)))
  {
    hide SizeOf, Fitting, Transaction.Size, Wrap;
    SevenSize(1);
    assert [Seven(1)][0..] == [Seven(1)];
  }

  lemma OpenedAcknowledged(n: Node)
    requires n.net.Answered? && n == Opened().(net := n.net)
    requires n.net.answer == Asking(1, 10, Subscribed).(checkpoint := CheckPoint(1, 1))
    ensures n.Deliver() == LetIn()
  {
    hide Total, TopLamport, Foreign, Wrap, SkipCount, Replica.ExecuteRemote;
    assert Executed(ZERO_CHECKPOINT, n.net.answer) == [];
    PullSteps.NothingExecuted(n.replica);
    assert n.ledger.direct + [] == n.ledger.direct;
  }

  lemma LetInAborts()
    ensures var n := LetIn().Finish(None, false);
      && n.net.Idle? && !n.stopped && n.replica.checkpoint == CheckPoint(1, 1)
      && n.Build() == n.(net := Sent(Asking(1, 10, SubscribingOrCreating).(checkpoint := CheckPoint(1, 1))))
  {
    hide SizeOf, Transaction.Size, Wrap;
  }

  lemma OwnSnapshotServed(s: System)
    requires s.phase == Live && s.server == STARTED && 1 in s.nodes && s.nodes[1].replica.checkpoint == CheckPoint(1, 1)
    ensures var p := Asking(1, 10, SubscribingOrCreating).(checkpoint := CheckPoint(1, 1));
      var net := Handle(s, p, 0).1;
      && net.Answered? && net.kind.Joined? && net.answer.error.None?
      && net.answer.checkpoint == CheckPoint(1, 0)
  {
    hide Total, Above, Node.Held, PullAfter, ToBytes;
  }

  /** Client 1 has been let in while a transaction begun before was open. */
  lemma LetInRun() returns (ls: seq<Label>, s: System)
    ensures Exec(Init(), ls) == s && s.phase == Live && s.server == STARTED
    ensures s.nodes.Keys == {1} && s.nodes[1] == LetIn()
  {
    hide Exec, Handle, Pushing, Sevened, Node.Local, Node.Build, Node.Deliver, LetIn;
    Started();
    ls, s := Go([], Init(), Register(1, 10, SubscribingOrCreating, false, 1000));
    assert s.nodes[1] == Empty(1, 10, SubscribingOrCreating);
    ls, s := CommitRun(ls, s, 1);
    WritableSevened();
    ls, s := Go(ls, s, LocalOp(1, 1));
    OpenedBuilds();
    ls, s := Go(ls, s, Build(1));
    StartServed(s);
    ls, s := Go(ls, s, Process(1, 0));
    OpenedAcknowledged(s.nodes[1]);
    ls, s := Go(ls, s, Deliver(1));
  }

  lemma WritableSevened()
    ensures var r := Sevened(Empty(1, 10, SubscribingOrCreating), 1).replica;
      !r.isReadonly && r.state.SubscribingOrCreating?
  {
  }

  /** An abort takes the replica back to asking for its creation; the answer is the snapshot of its own
      value at cseq 0, and the subtraction underflows. */
  lemma RepeatedJoinUnderflows() returns (ls: seq<Label>)
    ensures var s := Exec(Init(), ls);
      && 1 in s.nodes && s.nodes[1].net.Answered? && s.nodes[1].net.kind.Joined?
      && s.nodes[1].net.answer.error.None?
      && Underflows(s.nodes[1].replica.checkpoint, s.nodes[1].net.answer.checkpoint)
  {
    hide Exec, Handle, LetIn, Asking, Node.Build, Node.Finish;
    var s: System;
    ls, s := LetInRun();
    LetInAborts();
    ls, s := Go(ls, s, Abort(1));
    ls, s := Go(ls, s, Build(1));
    OwnSnapshotServed(s);
    ls, s := Go(ls, s, Process(1, 0));
  }

  // ---- an unsubscription repeated after its answer was lost ----

  /** Client 2 has pushed its transaction; client 1 has one open if `begun`. */
  lemma PushedShared(begun: bool) returns (ls: seq<Label>, s: System)
    ensures Exec(Init(), ls) == s && s.phase == Live && s.server == PUSHED && s.nodes.Keys == {1, 2}
    ensures s.nodes[1] == if begun then Owner(true).Local(1) else Owner(true)
    ensures s.nodes[2].net.Answered? && s.nodes[2] == Sevened(Member(0, 0, 0, []), 2).(net := s.nodes[2].net)
    ensures s.nodes[2].net.answer == Asking(2, 10, Subscribed).(checkpoint := CheckPoint(1, 1))
  {
    hide Exec, Handle, Pushing, Sevened, Owner, Member, Node.Local, Node.Drift, Node.PendingDelta, Node.Held, Asking;
    ls, s := CreatedRun(true);
    QuietMember();
    ls, s := JoinRun(ls, s, Owner(true));
    MemberIdle();
    if begun {
      OwnerWritable();
      ls, s := Go(ls, s, LocalOp(1, 1));
    }
    ls, s := SevenRun(ls, s, 2);
    SharedPush(s);
    ls, s := Go(ls, s, Process(2, 1));
  }

  lemma OwnerWritable()
    ensures !Owner(true).replica.isReadonly && Owner(true).replica.state.Subscribed?
  {
  }

  /** Client 2 once its push is acknowledged, in a given state. */
  function Acknowledged(state: DatatypeState): Node {
    var n := Sevened(Member(0, 0, 0, []), 2);
    n.(replica := n.replica.(checkpoint := CheckPoint(1, 1), state := state))
  }

  lemma PushAcknowledged(n: Node)
    requires n.net.Answered? && n == Sevened(Member(0, 0, 0, []), 2).(net := n.net)
    requires n.net.answer == Asking(2, 10, Subscribed).(checkpoint := CheckPoint(1, 1))
    ensures n.Deliver() == Acknowledged(Subscribed)
  {
    hide Total, TopLamport, Foreign, Wrap, SkipCount, Replica.ExecuteRemote;
    assert Executed(ZERO_CHECKPOINT, n.net.answer) == [];
    PullSteps.NothingExecuted(n.replica);
    assert n.ledger.direct + [] == n.ledger.direct;
  }

  /** Its request to unsubscribe. */
  function Leaving2(): PushPullPack { Asking(2, 10, Unsubscribing).(checkpoint := CheckPoint(1, 1)) }

  lemma AcknowledgedLeaves()
    ensures Acknowledged(Subscribed).Unsubscribe() == Acknowledged(Unsubscribing)
    ensures var n := Acknowledged(Unsubscribing);
      && n.net.Idle? && !n.stopped && n.replica.checkpoint == CheckPoint(1, 1)
      && n.Build() == n.(net := Sent(Leaving2()))
  {
    hide SizeOf, Transaction.Size, Wrap;
  }

  lemma LeavingServed(s: System)
    requires s.phase == Live && s.server == PUSHED
    ensures Handle(s, Leaving2(), 1).0 == PUSHED.(wired := {1}) && Handle(s, Leaving2(), 1).1.Answered?
  {
    hide Total, Above, Node.Held, Replica.SnapshotTransaction, PullAfter;
    assert PUSHED.history + [] == PUSHED.history;
    assert PUSHED.cseqMap[2 := CheckPoint(1, 1)] == PUSHED.cseqMap;
    assert {1, 2} - {2} == {1};
  }

  lemma LeavingAgainServed(s: System)
    requires s.phase == Live && s.server == PUSHED.(wired := {1})
    ensures var net := Handle(s, Leaving2(), 1).1;
      net.Answered? && net.kind.Void? && net.answer.error.None? && net.answer.checkpoint == ZERO_CHECKPOINT
  {
    hide Total, Above, Node.Held, Replica.SnapshotTransaction;
  }

  /** Client 2 has left and does not know it. */
  lemma LeftRun() returns (ls: seq<Label>, s: System)
    ensures Exec(Init(), ls) == s && s.phase == Live && s.server == PUSHED.(wired := {1})
    ensures s.nodes.Keys == {1, 2} && s.nodes[2] == Acknowledged(Unsubscribing)
  {
    hide Exec, Handle, Acknowledged, Leaving2, Sevened, Member, Asking, Node.Build, Node.Deliver, Node.Unsubscribe;
    ls, s := PushedShared(false);
    PushAcknowledged(s.nodes[2]);
    ls, s := Go(ls, s, Deliver(2));
    AcknowledgedLeaves();
    ls, s := Go(ls, s, Unsubscribe(2));
    ls, s := Go(ls, s, Build(2));
    LeavingServed(s);
    ls, s := Go(ls, s, Process(2, 1));
    ls, s := Go(ls, s, Lose(2));
  }

  /** Asked again to unsubscribe a client that has left, the server answers with the zero checkpoint, and
      the subtraction underflows. */
  lemma RepeatedUnsubscriptionUnderflows() returns (ls: seq<Label>)
    ensures var s := Exec(Init(), ls);
      && 2 in s.nodes && s.nodes[2].net.Answered? && s.nodes[2].net.kind.Void?
      && s.nodes[2].net.answer.error.None?
      && Underflows(s.nodes[2].replica.checkpoint, s.nodes[2].net.answer.checkpoint)
  {
    hide Exec, Handle, Acknowledged, Leaving2, Node.Build;
    var s: System;
    ls, s := LeftRun();
    AcknowledgedLeaves();
    ls, s := Go(ls, s, Build(2));
    LeavingAgainServed(s);
    ls, s := Go(ls, s, Process(2, 1));
  }

  // ---- a clock thrown back ----

  /** Client 1 with an operation open, and when it has pulled the transaction of client 2 meanwhile. */
  function Pulling(): Node { Owner(true).Local(1) }

  lemma PullingBuilds()
    ensures Pulling().net.Idle? && !Pulling().stopped
    ensures Pulling().Build() == Pulling().(net := Sent(Asking(1, 10, Subscribed)))
  {
  }

  /** What client 1 is answered. */
  function News(): PushPullPack {
    Asking(1, 10, Subscribed).(checkpoint := CheckPoint(1, 0), transactions := [Seven(2).(sseq := 1)])
  }

  lemma NewsServed(s: System)
    requires s.phase == Live && s.server == PUSHED
    ensures var net := Handle(s, Asking(1, 10, Subscribed), 2).1;
      net.Answered? && net.answer == News()
  {
    hide Total, Above, Node.Held, Replica.SnapshotTransaction;
    var tx := Seven(2).(sseq := 1);
    assert PUSHED.history + [] == [tx];
    assert [tx][..0] == [] && PullAfter([tx], 0, 1) == [] + [tx] == [tx];
  }

  lemma NewsTaken(n: Node)
    requires n.net.Answered? && n == Pulling().(net := n.net) && n.net.answer == News()
    ensures var n' := n.Deliver();
      && n'.ledger.direct == [Seven(2).(sseq := 1)] && n'.ledger.begun == 0
      && n'.replica.record == Pulling().replica.record
  {
    hide Total, TopLamport, Foreign, Wrap;
    assert Executed(ZERO_CHECKPOINT, News()) == [Seven(2).(sseq := 1)];
    assert n.ledger.direct + [Seven(2).(sseq := 1)] == [Seven(2).(sseq := 1)];
  }

  lemma PullingRecord()
    ensures Pulling().replica.record.pending.Some? && Pulling().replica.record.rollbackOpId == OperationId(0, 1, 0)
  {
  }

  /** What client 1 has pulled while its transaction was open is past the save point. */
  lemma NewsIsLater(n: Node)
    requires n.ledger.direct == [Seven(2).(sseq := 1)] && n.ledger.begun == 0
    ensures TopLamport(n.Meanwhile()) == 1
  {
    SevenSize(2);
    assert n.Meanwhile() == [Seven(2).(sseq := 1)];
    TopOne(Seven(2).(sseq := 1));
  }

  /** After an abort across a pull the next operation has the same lamport as one already executed. */
  lemma ClockThrownBack() returns (ls: seq<Label>)
    ensures var s := Exec(Init(), ls);
      && 1 in s.nodes && Regresses(s, Abort(1))
      && var n := Next(s, Abort(1)).nodes[1];
         && n.ledger.direct == [Seven(2).(sseq := 1)] && n.ledger.direct[0].operations == [ADD_SEVEN]
         && n.replica.opId.lamport + 1 == ADD_SEVEN.lamport
  {
    hide Exec, Handle, News, Pulling, Asking, Node.Build, Node.Deliver, Node.Meanwhile, TopLamport;
    var s: System;
    ls, s := PushedShared(true);
    assert s.nodes[1] == Pulling() by { PullingIs(); }
    PullingBuilds();
    ls, s := Go(ls, s, Build(1));
    NewsServed(s);
    ls, s := Go(ls, s, Process(1, 2));
    NewsTaken(s.nodes[1]);
    ls, s := Go(ls, s, Deliver(1));
    PullingRecord();
    NewsIsLater(s.nodes[1]);
  }

  lemma PullingIs()
    ensures Owner(true).Local(1) == Pulling()
  {
  }
}
