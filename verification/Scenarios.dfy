/** Runs in which a promise of the documentation is not kept, each the input for which the guard of a
    theorem is needed. */
module Scenarios {
  import opened Types
  import opened CounterArithmetic
  import opened PushBuffer
  import opened History
  import opened Replica
  import opened PullHandling
  import opened PullSteps
  import opened DatatypeServer
  import opened Protocol
  import opened Realtime

  lemma Go(ls: seq<Label>, s: System, l: Label) returns (longer: seq<Label>, s': System)
    requires Exec(Init(), ls) == s && Enabled(s, l)
    ensures longer == ls + [l] && s' == Take(s, l) && Exec(Init(), longer) == s'
  {
    hide Take;
    longer, s' := ls + [l], Take(s, l);
    assert longer[..|ls|] == ls;
  }

  lemma Started()
    ensures Exec(Init(), []) == Init()
  {
  }

  /** The server answers a request that is not an unsubscription. */
  lemma Serves(s: System, i: Cuid, heir: Cuid, server: Server, net: Net)
    requires Enabled(s, Process(i, heir)) && s.phase == Live && !s.nodes[i].net.request.state.Unsubscribing?
    requires Handle(s, s.nodes[i].net.request, heir) == (server, net)
    ensures Take(s, Process(i, heir)) == System(Live, server, s.nodes[i := s.nodes[i].(net := net)])
  {
    hide Handle;
  }

  /** A replica as it is registered, but in the given state. */
  function Entered(i: Cuid, duid: Duid, state: DatatypeState): Replica {
    Replica.New(0, i, duid, false, 1000, state)
  }

  function Empty(i: Cuid, duid: Duid, state: DatatypeState): Node {
    Node(Entered(i, duid, state), Idle, false, Ledger(0, 0, [], [], 0, [], 0))
  }

  /** The server once client 1 has created the datatype 10. */
  const CREATED := Server(Counter, 10, true, 1, {1}, 0, map[1 := CheckPoint(0, 0)], [])

  lemma EmptyBuild(i: Cuid, duid: Duid, state: DatatypeState)
    ensures Empty(i, duid, state).Build() == Empty(i, duid, state).(
      net := Sent(Asking(i, duid, state)))
  {
  }

  /** Client 1 after it has sent its creation request, and whether it has been answered. */
  function Owner(acknowledged: bool): Node {
    var r := Entered(1, 10, Creating);
    Empty(1, 10, Creating).(replica := if acknowledged then r.(state := Subscribed) else r)
  }

  /** The request of a replica with nothing to push. */
  function Asking(i: Cuid, duid: Duid, state: DatatypeState): PushPullPack {
    PushPullPack(0, i, duid, Counter, state, ZERO_CHECKPOINT, [], None, false, None)
  }

  lemma AcknowledgedIs(n: Node, donated: int, folded: seq<Transaction>)
    requires n == Empty(1, 10, Creating).(net := Answered(Asking(1, 10, Subscribed), Created, donated, folded))
    ensures n.Deliver() == Owner(true)
  {
    hide Total, TopLamport, Foreign, Wrap, SkipCount, Replica.ExecuteRemote;
    var p := n.net.answer;
    assert Executed(ZERO_CHECKPOINT, p) == [];
    NothingExecuted(n.replica);
    assert AfterPull(n.replica, p) == (Entered(1, 10, Creating).(state := Subscribed), Synced);
    var h: seq<Transaction> := [];
    assert h[0..0] == [];
    EmptySplit(1);
  }

  lemma CreationServed(s: System)
    requires s.phase == Live && s.server == Server.New(Counter, 10, 1).Insert(1)
    ensures Handle(s, Asking(1, 10, Creating), 0).0 == CREATED
    ensures Handle(s, Asking(1, 10, Creating), 0).1.Answered?
    ensures Handle(s, Asking(1, 10, Creating), 0).1.answer == Asking(1, 10, Subscribed)
    ensures Handle(s, Asking(1, 10, Creating), 0).1.kind.Created?
  {
  }

  /** Client 1 has created the datatype; `acknowledged` says whether it knows. */
  lemma CreatedRun(acknowledged: bool) returns (ls: seq<Label>, s: System)
    ensures Exec(Init(), ls) == s
    ensures s == System(Live, CREATED, map[1 := Owner(acknowledged)])
  {
    hide Exec, Handle, Node.Build, Node.Deliver;
    Started();
    EmptyBuild(1, 10, Creating);
    ls, s := Go([], Init(), Register(1, 10, Creating, false, 1000));
    assert s.nodes[1] == Empty(1, 10, Creating);
    ls, s := Go(ls, s, Build(1));
    CreationServed(s);
    ls, s := Go(ls, s, Process(1, 0));
    if acknowledged {
      AcknowledgedIs(s.nodes[1], s.nodes[1].net.donated, s.nodes[1].net.folded);
      ls, s := Go(ls, s, Deliver(1));
    } else {
      ls, s := Go(ls, s, Lose(1));
    }
  }

  // ---- one transaction ----

  const ADD_SEVEN := Operation(1, CounterIncrease(7))

  /** The first transaction of a client: it adds seven. */
  function Seven(i: Cuid): Transaction { Transaction(i, 1, 0, None, false, [ADD_SEVEN]) }

  /** A replica of datatype 10 that has committed nothing yet. */
  predicate Untouched(v: Node, i: Cuid) {
    && v.replica == Entered(i, 10, v.replica.state).(value := v.replica.value, duid := 10,
                                                     record := v.replica.record)
    && v.replica.record.pending.None? && v.net.Idle? && !v.stopped && v.ledger.committed == []
  }

  /** The same with the transaction committed. */
  function Sevened(v: Node, i: Cuid): Node {
    v.(replica := v.replica.(value := Wrap(v.replica.value + 7), opId := OperationId(1, i, 1),
                             buffer := Buffer.OfRun([Seven(i)]),
                             record := Record(None, OperationId(0, i, 0), v.replica.state)),
       ledger := v.ledger.(begun := |v.ledger.direct|, committed := [Seven(i)]))
  }

  /** The request that pushes it. */
  function Pushing(i: Cuid, state: DatatypeState): PushPullPack {
    Asking(i, 10, state).(transactions := [Seven(i)], checkpoint := CheckPoint(0, 1))
  }

  lemma SevenSize(i: Cuid)
    ensures Seven(i).Size() == 113 && SizeOf([Seven(i)]) == 113 && Seven(i).Delta() == 7
    ensures MaxLamport(Seven(i).operations) == 1
    ensures Fitting([Seven(i)], DEFAULT_MAX_TRANSMISSION_SIZE) == [Seven(i)]
  {
    assert OperationsSize([ADD_SEVEN]) == 32 by { assert [ADD_SEVEN][..0] == []; }
    assert OperationsDelta([ADD_SEVEN]) == 7 by { assert [ADD_SEVEN][..0] == []; }
    assert MaxLamport([ADD_SEVEN]) == 1 by { assert [ADD_SEVEN][..0] == []; }
    assert SizeOf([Seven(i)]) == Seven(i).Size() by { assert [Seven(i)][..0] == []; }
    assert [Seven(i)][1..] == [];
  }

  lemma CommitsSeven(v: Node, i: Cuid)
    requires Untouched(v, i)
    ensures v.Local(7).Finish(None, true) == Sevened(v, i)
    ensures Sevened(v, i).Build() == Sevened(v, i).(net := Sent(Pushing(i, v.replica.state)))
  {
    hide SizeOf, Fitting, Transaction.Size, Wrap;
    SevenSize(i);
    assert [] + [ADD_SEVEN] == [ADD_SEVEN] && [] + [Seven(i)] == [Seven(i)] && [Seven(i)][0..] == [Seven(i)];
    assert v.Local(7).replica.record.pending == Some(Seven(i));
  }

  /** An untouched replica commits the transaction. */
  lemma CommitRun(ls: seq<Label>, s: System, i: Cuid) returns (longer: seq<Label>, s': System)
    requires Exec(Init(), ls) == s && i in s.nodes && Untouched(s.nodes[i], i)
    requires !s.nodes[i].replica.state.Subscribing?
    ensures Exec(Init(), longer) == s' && s' == With(s, i, Sevened(s.nodes[i], i))
  {
    hide Exec, Node.Local, Node.Finish;
    CommitsSeven(s.nodes[i], i);
    longer, s' := Go(ls, s, LocalOp(i, 7));
    longer, s' := Go(longer, s', Commit(i, None));
    assert s'.nodes == s.nodes[i := s'.nodes[i]];
  }

  /** And asks to push it. */
  lemma SevenRun(ls: seq<Label>, s: System, i: Cuid) returns (longer: seq<Label>, s': System)
    requires Exec(Init(), ls) == s && i in s.nodes && Untouched(s.nodes[i], i)
    requires !s.nodes[i].replica.state.Subscribing?
    ensures Exec(Init(), longer) == s'
    ensures s' == With(s, i, Sevened(s.nodes[i], i).(net := Sent(Pushing(i, s.nodes[i].replica.state))))
  {
    hide Exec, Node.Build;
    CommitsSeven(s.nodes[i], i);
    longer, s' := CommitRun(ls, s, i);
    longer, s' := Go(longer, s', Build(i));
    assert s'.nodes == s.nodes[i := s'.nodes[i]];
  }

  lemma SevenedIdle(v: Node, i: Cuid)
    ensures Sevened(v, i).net == v.net && Sevened(v, i).stopped == v.stopped
  {
  }

  // ---- a snapshot of unacknowledged work ----

  /** Client 2 once it has joined with a snapshot of `v` at history zero. */
  function Member(v: i64, lamport: nat, donated: int, folded: seq<Transaction>): Node {
    Node(Entered(2, 20, Subscribing).(duid := 10, state := Subscribed, value := v,
                                      opId := OperationId(lamport, 2, 0),
                                      record := Record(None, OperationId(lamport, 2, 0), Subscribing)),
         Idle, false, Ledger(0, donated, folded, [], 0, [], 0))
  }

  const SHARED := CREATED.(wired := {1, 2})

  /** What client 2 is answered while client 1 is the only other one. */
  function Joining(d: Node): PushPullPack {
    Asking(2, 10, Subscribed).(snapshotTransaction := Some(d.replica.SnapshotTransaction()))
  }

  lemma JoinServed(s: System, d: Node)
    requires s.phase == Live && s.server == SHARED && 1 in s.nodes && s.nodes[1] == d
    requires d.replica.cuid == 1 && d.replica.checkpoint == ZERO_CHECKPOINT
    ensures var (server, net) := Handle(s, Asking(2, 20, Subscribing), 1);
      server == SHARED
      && net == Answered(Joining(d), Joined, d.Drift([]) + d.PendingDelta(), d.Held())
  {
    hide Total, Above, ToBytes;
  }

  lemma JoinDelivered(n: Node, d: Node, donated: int, folded: seq<Transaction>)
    requires n == Empty(2, 20, Subscribing).(net := Answered(Joining(d), Joined, donated, folded))
    requires d.replica.checkpoint == ZERO_CHECKPOINT
    ensures n.Deliver() == Member(d.replica.value, d.replica.opId.lamport, donated, folded)
  {
    hide Total, TopLamport, Foreign, Wrap, SkipCount, Replica.ExecuteRemote, FromBytes, ToBytes;
    var p := n.net.answer;
    BytesRoundTrip(d.replica.value);
    assert Executed(ZERO_CHECKPOINT, p) == [];
    NothingExecuted(Subscribe(n.replica, p).value);
  }

  lemma JoinRun(ls: seq<Label>, s: System, d: Node) returns (longer: seq<Label>, s': System)
    requires Exec(Init(), ls) == s && s == System(Live, CREATED, map[1 := d])
    requires d.replica.cuid == 1 && d.replica.duid == 10 && d.replica.checkpoint == ZERO_CHECKPOINT
    ensures Exec(Init(), longer) == s'
    ensures s'.phase == Live && s'.server == SHARED && s'.nodes.Keys == {1, 2} && s'.nodes[1] == d
    ensures s'.nodes[2] == Member(d.replica.value, d.replica.opId.lamport, d.Drift([]) + d.PendingDelta(), d.Held())
  {
    hide Exec, Handle, Node.Build, Node.Deliver, Node.PendingDelta, Node.Quiet, Joining, Member, Asking;
    hide Node.Drift, Node.Held;
    EmptyBuild(2, 20, Subscribing);
    longer, s' := Go(ls, s, Register(2, 20, Subscribing, false, 1000));
    assert s'.server == SHARED && s'.nodes[2] == Empty(2, 20, Subscribing);
    longer, s' := Go(longer, s', Build(2));
    JoinServed(s', d);
    longer, s' := Go(longer, s', Process(2, 1));
    JoinDelivered(s'.nodes[2], d, d.Drift([]) + d.PendingDelta(), d.Held());
    longer, s' := Go(longer, s', Deliver(2));
  }

  /** The donor's transaction is aborted after its snapshot was given away: both are quiet, at the same
      server version, and differ for good. */
  lemma UnquietDonorDiverges() returns (ls: seq<Label>)
    ensures var s := Exec(Init(), ls);
      && 1 in s.nodes && 2 in s.nodes
      && s.nodes[1].Quiet() && s.nodes[2].Quiet()
      && s.nodes[1].replica.checkpoint == s.nodes[2].replica.checkpoint
      && s.nodes[1].replica.value == 0 && s.nodes[2].replica.value == 5
  {
    hide Exec, Node.Local, Node.Finish;
    var s: System;
    ls, s := CreatedRun(true);
    ls, s := Go(ls, s, LocalOp(1, 5));
    var d := Owner(true).Local(5);
    LocalFive();
    ls, s := JoinRun(ls, s, d);
    ls, s := Go(ls, s, Abort(1));
  }

  lemma LocalFive()
    ensures var d := Owner(true).Local(5);
      && d.replica.value == 5 && d.replica.cuid == 1 && d.replica.duid == 10
      && d.replica.checkpoint == ZERO_CHECKPOINT
      && d.Finish(None, false).Quiet() && d.Finish(None, false).replica.value == 0
      && d.Finish(None, false).replica.checkpoint == ZERO_CHECKPOINT
  {
    var d := Owner(true).Local(5);
    var op := Operation(1, CounterIncrease(5));
    assert d.replica.record.pending.value.operations == [] + [op];
    DeltaSnoc([], op);
    assert d.replica.record.pending.value.Delta() == 5;
  }

  // ---- a creation acknowledged late ----

  const PUSHED := SHARED.(sseq := 1, history := [Seven(2).(sseq := 1)],
                          cseqMap := map[1 := CheckPoint(0, 0), 2 := CheckPoint(1, 1)])

  lemma SharedPushed()
    ensures SHARED.Push(Pushing(2, Subscribed)) == PUSHED
  {
    var txs, tx := [Seven(2)], Seven(2).(sseq := 1);
    assert txs[1..] == [] && Accepted(0, 0, txs) == [tx];
    var h: seq<Transaction> := [];
    assert h + [tx] == [tx];
  }

  lemma OwnNotPulled()
    ensures PullAfter(PUSHED.history, 0, 2) == []
  {
    var tx := Seven(2).(sseq := 1);
    assert [tx][..0] == [];
  }

  lemma SharedPush(s: System)
    requires s.phase == Live && s.server == SHARED
    ensures var (server, net) := Handle(s, Pushing(2, Subscribed), 1);
      && server == PUSHED && net.Answered? && net.kind.Pulled?
      && net.answer == Asking(2, 10, Subscribed).(checkpoint := CheckPoint(1, 1))
  {
    hide Total, Above, Node.Held, Replica.SnapshotTransaction, Server.Push, PullAfter;
    SharedPushed();
    OwnNotPulled();
  }

  lemma MemberIdle()
    ensures var v := Member(0, 0, 0, []);
      && Untouched(v, 2) && v.net.Idle? && !v.stopped && v.replica.state.Subscribed? && !v.replica.isReadonly
  {
  }

  lemma PushedTotal()
    ensures |PUSHED.history| == 1 && Total(PUSHED.history) == 7 && PUSHED.Known(1) == 0
  {
    var tx := Seven(2).(sseq := 1);
    SevenSize(2);
    assert [tx][..0] == [];
  }

  lemma LateCreationServed(s: System)
    requires s.phase == Live && s.server == PUSHED
    ensures var (server, net) := Handle(s, Asking(1, 10, Creating), 2);
      && server.history == PUSHED.history
      && net == Answered(Asking(1, 10, Subscribed).(checkpoint := CheckPoint(1, 0)), Created, net.donated, net.folded)
  {
    hide Total, Above, Node.Held, Replica.SnapshotTransaction;
    assert PUSHED.history + [] == PUSHED.history;
  }

  lemma LateAcknowledged(n: Node)
    requires n.net.Answered? && n == Owner(false).(net := n.net)
    requires n.net.answer == Asking(1, 10, Subscribed).(checkpoint := CheckPoint(1, 0))
    ensures n.Deliver() == Owner(true).(replica := Owner(true).replica.(checkpoint := CheckPoint(1, 0)))
  {
    hide Total, TopLamport, Wrap, SkipCount, Replica.ExecuteRemote;
    var p := n.net.answer;
    assert Executed(ZERO_CHECKPOINT, p) == [];
    PullSteps.NothingExecuted(n.replica);
    assert AfterPull(n.replica, p) == (Owner(true).replica.(checkpoint := CheckPoint(1, 0)), Synced);
    assert n.ledger.direct + [] == n.ledger.direct;
  }

  lemma LateQuiet()
    ensures var n := Owner(true).(replica := Owner(true).replica.(checkpoint := CheckPoint(1, 0)));
      n.Quiet() && n.replica.value == 0 && n.replica.checkpoint.sseq == 1
  {
  }

  /** Client 1 does not know it has created the datatype, client 2 has joined and pushed. */
  lemma PushedRun() returns (ls: seq<Label>, s: System)
    ensures Exec(Init(), ls) == s && s.phase == Live && s.nodes.Keys == {1, 2} && s.nodes[1] == Owner(false)
    ensures s.server == PUSHED
  {
    hide Exec, Handle, Pushing, Sevened, Owner, Member, Node.Drift, Node.PendingDelta, Node.Held, Asking;
    ls, s := CreatedRun(false);
    QuietOwner();
    ls, s := JoinRun(ls, s, Owner(false));
    MemberIdle();
    ls, s := SevenRun(ls, s, 2);
    SharedPush(s);
    ls, s := Go(ls, s, Process(2, 1));
  }

  /** Client 1 asks again and is acknowledged. */
  lemma LateRun() returns (ls: seq<Label>, s: System)
    ensures Exec(Init(), ls) == s && s.server.history == PUSHED.history && 1 in s.nodes
    ensures s.nodes[1] == Owner(true).(replica := Owner(true).replica.(checkpoint := CheckPoint(1, 0)))
  {
    hide Exec, Take, Handle, Node.Build, Node.Deliver, Node.Drift, Node.PendingDelta, Node.Held, Owner, Empty;
    ls, s := PushedRun();
    QuietOwner();
    OwnerIdle();
    EmptyBuild(1, 10, Creating);
    Builds(s, 1);
    ls, s := Go(ls, s, Build(1));
    LateCreationServed(s);
    assert 2 in s.server.wired - {1};
    var (server, net) := Handle(s, Asking(1, 10, Creating), 2);
    Serves(s, 1, 2, server, net);
    ls, s := Go(ls, s, Process(1, 2));
    LateAcknowledged(s.nodes[1]);
    Delivers(s, 1);
    ls, s := Go(ls, s, Deliver(1));
  }

  lemma Builds(s: System, i: Cuid)
    requires Enabled(s, Build(i))
    ensures Take(s, Build(i)) == With(s, i, s.nodes[i].Build())
  {
  }

  lemma Delivers(s: System, i: Cuid)
    requires Enabled(s, Deliver(i))
    ensures Take(s, Deliver(i)) == With(s, i, s.nodes[i].Deliver())
  {
  }

  /** A creation whose first acknowledgement was lost is acknowledged again after another client has
      pushed: the creator never sees that push, though its checkpoint says it has. */
  lemma LateAcknowledgementLoses() returns (ls: seq<Label>)
    ensures var s := Exec(Init(), ls);
      && 1 in s.nodes && s.nodes[1].Quiet()
      && s.nodes[1].replica.checkpoint.sseq == |s.server.history|
      && s.nodes[1].replica.value == 0 && Total(s.server.history) == 7
  {
    hide Exec, Node.Quiet, Total, Owner;
    var s: System;
    ls, s := LateRun();
    LateQuiet();
    PushedTotal();
  }

  lemma OwnerIdle()
    ensures Owner(false).net.Idle? && !Owner(false).stopped
  {
  }

  lemma QuietOwner()
    ensures Owner(false).PendingDelta() == 0 && Owner(false).Drift([]) == 0 && Owner(false).Held() == []
    ensures Owner(false) == Empty(1, 10, Creating)
    ensures var r := Owner(false).replica;
      && r.value == 0 && r.opId.lamport == 0 && r.cuid == 1 && r.duid == 10 && r.checkpoint == ZERO_CHECKPOINT
  {
    hide Node.PendingDelta, Node.Drift, Node.Held;
    GivesNothing(Owner(false));
  }

  /** A replica that has done nothing has nothing to give away beyond history zero. */
  lemma GivesNothing(n: Node)
    requires n.replica.buffer.transactions == [] && n.replica.record.pending.None?
    requires n.ledger == Ledger(0, 0, [], [], 0, [], 0)
    ensures n.PendingDelta() == 0 && n.Drift([]) == 0 && n.Held() == [] && n.Quiet()
  {
    hide Replica.CreatePack, Node.Build;
  }

  // ---- an abort that takes an unsubscription back ----

  /** Client 1 with a transaction begun before it knew that its creation had succeeded. */
  function Straddling(state: DatatypeState): Node {
    var n := Owner(false).Local(1);
    n.(replica := n.replica.(state := state))
  }

  lemma StraddlingBuilds(state: DatatypeState)
    ensures Straddling(state).Build() == Straddling(state).(net := Sent(Asking(1, 10, state)))
    ensures Straddling(state).net.Idle? && !Straddling(state).stopped && Straddling(state).replica.duid == 10
    ensures Straddling(Subscribed).Unsubscribe() == Straddling(Unsubscribing)
    ensures var n := Straddling(state).Finish(None, false);
      n.net.Idle? && !n.stopped && n.Build() == n.(net := Sent(Asking(1, 10, Creating)))
  {
  }

  lemma StraddlingAcknowledged(n: Node)
    requires n.net.Answered? && n == Straddling(Creating).(net := n.net)
    requires n.net.answer == Asking(1, 10, Subscribed)
    ensures n.Deliver() == Straddling(Subscribed)
  {
    hide Total, TopLamport, Foreign, Wrap, SkipCount, Replica.ExecuteRemote;
    var p := n.net.answer;
    assert Executed(ZERO_CHECKPOINT, p) == [];
    NothingExecuted(n.replica);
    assert AfterPull(n.replica, p).0 == Straddling(Subscribed).replica;
    var h: seq<Transaction> := [];
    assert h[0..0] == [];
    EmptySplit(1);
  }

  lemma RecreationServed(s: System, heir: Cuid)
    requires s.phase == Live && s.server == CREATED.(wired := s.server.wired, creator := s.server.creator)
    ensures Handle(s, Asking(1, 10, Creating), heir).0 == s.server.(creator := 1)
    ensures Handle(s, Asking(1, 10, Creating), heir).1.Answered?
    ensures Handle(s, Asking(1, 10, Creating), heir).1.answer == Asking(1, 10, Subscribed)
  {
    assert s.server.history + [] == s.server.history;
  }

  lemma DepartureServed(s: System)
    requires s.phase == Live && s.server == CREATED.(wired := {1, 2})
    ensures Handle(s, Asking(1, 10, Unsubscribing), 2).0 == CREATED.(wired := {2}, creator := 2)
    ensures Handle(s, Asking(1, 10, Unsubscribing), 2).1.Answered?
  {
    assert s.server.history + [] == s.server.history;
    assert {1, 2} - {1} == {2};
  }

  /** Client 1 is subscribed while its first transaction is still open. */
  lemma StraddlingRun() returns (ls: seq<Label>, s: System)
    ensures Exec(Init(), ls) == s && s == System(Live, CREATED, map[1 := Straddling(Subscribed)])
  {
    hide Exec, Handle, Node.Build, Node.Deliver, Node.Local, Straddling;
    ls, s := CreatedRun(false);
    ls, s := Go(ls, s, LocalOp(1, 1));
    OwnerStraddles();
    StraddlingBuilds(Creating);
    ls, s := Go(ls, s, Build(1));
    RecreationServed(s, 0);
    ls, s := Go(ls, s, Process(1, 0));
    StraddlingAcknowledged(s.nodes[1]);
    ls, s := Go(ls, s, Deliver(1));
  }

  /** Client 1 has left, and an abort has taken it back to its creation. */
  lemma RevivedRun() returns (ls: seq<Label>, s: System)
    ensures Exec(Init(), ls) == s && s.phase == Live && s.nodes.Keys == {1, 2}
    ensures s.server == CREATED.(wired := {2}, creator := 2)
    ensures s.nodes[1] == Straddling(Unsubscribing).Finish(None, false)
  {
    hide Exec, Handle, Node.Build, Node.Finish, Node.Unsubscribe, Straddling;
    ls, s := StraddlingRun();
    StraddlingBuilds(Subscribed);
    StraddlingBuilds(Unsubscribing);
    ls, s := Go(ls, s, Register(2, 20, Subscribing, false, 1000));
    ls, s := Go(ls, s, Unsubscribe(1));
    ls, s := Go(ls, s, Build(1));
    DepartureServed(s);
    ls, s := Go(ls, s, Process(1, 2));
    ls, s := Go(ls, s, Lose(1));
    ls, s := Go(ls, s, Abort(1));
  }

  lemma OwnerStraddles()
    ensures Owner(false).Local(1) == Straddling(Creating)
  {
  }

  /** An abort that takes an unsubscription back revives the creation request: the server makes the
      departed client the creator again, and a subscriber is told that the creator is unavailable. */
  lemma RevivalLosesDonor() returns (ls: seq<Label>)
    ensures var s := Exec(Init(), ls);
      && s.phase == Live && s.server.created && s.server.wired == {2} && Donor(s).None?
      && Handle(s, Asking(2, 20, Subscribing), 2).1.Answered?
      && Handle(s, Asking(2, 20, Subscribing), 2).1.answer.error == Some(ServerInternalError)
  {
    hide Exec, Node.Build, Node.Finish, Node.Deliver;
    var s: System;
    ls, s := RevivedRun();
    StraddlingBuilds(Unsubscribing);
    ls, s := Go(ls, s, Build(1));
    RecreationServed(s, 2);
    ls, s := Go(ls, s, Process(1, 2));
  }

  // ---- an answer lost in realtime mode ----

  lemma Perform(actions: seq<Action>, r: Realtime, a: Action) returns (longer: seq<Action>, r': Realtime)
    requires Run(actions) == r && Possible(r, a)
    ensures longer == actions + [a] && r' == Act(r, a) && Run(longer) == r'
  {
    hide Act;
    longer, r' := actions + [a], Act(r, a);
    assert longer[..|actions|] == actions;
  }

  lemma BeganAt()
    ensures Run([]) == Realtime(Init(), [], {}, map[])
  {
  }

  /** Client 1 has created the datatype and both loops are idle. */
  lemma CreatedLive() returns (actions: seq<Action>, r: Realtime)
    ensures Run(actions) == r && r.bounded == {} && r.unbounded == map[1 := []]
    ensures r.sys == System(Live, CREATED, map[1 := Owner(true)])
  {
    hide Run, Handle, Node.Build, Node.Deliver;
    BeganAt();
    EmptyBuild(1, 10, Creating);
    var r0 := Realtime(Init(), [], {}, map[]);
    actions, r := Perform([], r0, User(Register(1, 10, Creating, false, 1000)));
    assert r.sys.nodes[1] == Empty(1, 10, Creating);
    actions, r := Perform(actions, r, PushIfNeeded(1));
    CreationServed(r.sys);
    actions, r := Perform(actions, r, Serve(1, 0));
    AcknowledgedIs(r.sys.nodes[1], r.sys.nodes[1].net.donated, r.sys.nodes[1].net.folded);
    actions, r := Perform(actions, r, Respond(1));
  }

  /** Client 2 has asked to join. */
  lemma AskedLive() returns (actions: seq<Action>, r: Realtime)
    ensures Run(actions) == r && r.bounded == {} && r.unbounded == map[1 := [], 2 := []]
    ensures r.sys == System(Live, SHARED, map[
      1 := Owner(true), 2 := Empty(2, 20, Subscribing).(net := Sent(Asking(2, 20, Subscribing)))])
  {
    hide Run, Node.Build, Asking, Owner;
    EmptyBuild(2, 20, Subscribing);
    OwnerIs();
    actions, r := CreatedLive();
    actions, r := Perform(actions, r, User(Register(2, 20, Subscribing, false, 1000)));
    assert r.sys.server == SHARED && r.sys.nodes[2] == Empty(2, 20, Subscribing);
    actions, r := Perform(actions, r, PushIfNeeded(2));
  }

  /** Client 2 once it has been answered. */
  function Answered2(): Node {
    Empty(2, 20, Subscribing).(net := Answered(Joining(Owner(true)), Joined, 0, []))
  }

  lemma JoinStep(s: System)
    requires s.phase == Live && s.server == SHARED && s.nodes == map[
      1 := Owner(true), 2 := Empty(2, 20, Subscribing).(net := Sent(Asking(2, 20, Subscribing)))]
    ensures Enabled(s, Process(2, 1))
    ensures Next(s, Process(2, 1)) == System(Live, SHARED, map[1 := Owner(true), 2 := Answered2()])
  {
    hide Handle, Take, Node.PendingDelta, Node.Drift, Node.Held, Node.Quiet, Joining, Owner;
    QuietMember();
    JoinServed(s, Owner(true));
    assert 1 in s.server.wired - {2};
    Serves(s, 2, 1, SHARED, Answered(Joining(Owner(true)), Joined, 0, []));
    assert s.nodes[2 := Answered2()] == map[1 := Owner(true), 2 := Answered2()];
  }

  /** Client 2 has been answered. */
  lemma ServedLive() returns (actions: seq<Action>, r: Realtime)
    ensures Run(actions) == r && r.bounded == {} && r.unbounded == map[1 := [], 2 := []]
    ensures r.sys == System(Live, SHARED, map[1 := Owner(true), 2 := Answered2()])
  {
    hide Run, Next, Asking, Owner, Empty, Answered2, Server.Notifies, Act, Enabled;
    actions, r := AskedLive();
    JoinStep(r.sys);
    JoinersNotifyNobody(r.sys.server);
    ServedQuietly(r, 2, 1);
    actions, r := Perform(actions, r, Serve(2, 1));
  }

  lemma ServedQuietly(r: Realtime, i: Cuid, heir: Cuid)
    requires Possible(r, Serve(i, heir)) && !r.sys.server.Notifies(r.sys.nodes[i].net.request)
    ensures Act(r, Serve(i, heir)) == Do(r, Process(i, heir))
  {
    hide Next, Server.Notifies, Notified;
  }

  /** Client 2 has joined, and both loops are idle. */
  lemma JoinedLive() returns (actions: seq<Action>, r: Realtime)
    ensures Run(actions) == r && r.bounded == {} && r.unbounded == map[1 := [], 2 := []]
    ensures r.sys == System(Live, SHARED, map[1 := Owner(true), 2 := Member(0, 0, 0, [])])
  {
    hide Run, Node.Deliver, Joining, Member, Owner, Empty;
    OwnerIs();
    actions, r := ServedLive();
    JoinDelivered(r.sys.nodes[2], Owner(true), 0, []);
    actions, r := Perform(actions, r, Respond(2));
  }

  lemma JoinersNotifyNobody(server: Server)
    ensures !server.Notifies(Asking(2, 20, Subscribing))
  {
  }

  lemma OwnerIs()
    ensures var r := Owner(true).replica;
      && r.value == 0 && r.opId == OperationId(0, 1, 0) && r.duid == 10 && r.cuid == 1
      && r.checkpoint == ZERO_CHECKPOINT && !r.NeedPush()
  {
  }

  lemma OwnerGives()
    ensures Owner(true).PendingDelta() == 0 && Owner(true).Quiet()
    ensures Owner(true).Drift([]) == 0 && Owner(true).Held() == []
  {
    hide Node.PendingDelta, Node.Drift, Node.Held, Node.Quiet;
    GivesNothing(Owner(true));
  }

  lemma OwnerBuilds()
    ensures Owner(true).Build() == Owner(true).(net := Sent(Asking(1, 10, Subscribed)))
  {
  }

  lemma QuietMember()
    ensures Owner(true).PendingDelta() == 0 && Owner(true).Quiet() && Owner(true).replica.value == 0
    ensures Owner(true).replica.opId == OperationId(0, 1, 0) && Owner(true).replica.duid == 10
    ensures Owner(true).Build() == Owner(true).(net := Sent(Asking(1, 10, Subscribed)))
    ensures !Owner(true).replica.NeedPush() && Owner(true).replica.checkpoint == ZERO_CHECKPOINT
    ensures Owner(true).replica.cuid == 1 && Owner(true).Drift([]) == 0 && Owner(true).Held() == []
  {
    hide Owner, Asking, Node.Build, Node.Held, Node.Drift, Node.PendingDelta, Node.Quiet, Replica.NeedPush;
    OwnerIs();
    OwnerGives();
    OwnerBuilds();
  }

  lemma SevenKept(v: Node, i: Cuid)
    requires Untouched(v, i)
    ensures !RollsBack(v.Local(7), Commit(i, None))
    ensures Sevened(v, i).replica.NeedPush()
  {
    hide SizeOf, Transaction.Size, Wrap;
    SevenSize(i);
    assert [] + [ADD_SEVEN] == [ADD_SEVEN];
    assert v.Local(7).replica.record.pending == Some(Seven(i));
  }

  lemma LocalStep(r: Realtime, i: Cuid, delta: i64)
    requires i in r.sys.nodes && Enabled(r.sys, LocalOp(i, delta))
    ensures Possible(r, User(LocalOp(i, delta)))
    ensures var r' := Act(r, User(LocalOp(i, delta)));
      && r'.sys == With(r.sys, i, r.sys.nodes[i].Local(delta))
      && r'.bounded == r.bounded && r'.unbounded == r.unbounded
  {
    hide Node.Local, RollsBack;
  }

  lemma CommitStep(r: Realtime, i: Cuid)
    requires i in r.sys.nodes && !RollsBack(r.sys.nodes[i], Commit(i, None))
    ensures Possible(r, User(Commit(i, None)))
    ensures var r' := Act(r, User(Commit(i, None)));
      && r'.sys == With(r.sys, i, r.sys.nodes[i].Finish(None, true))
      && r'.bounded == r.bounded + {i} && r'.unbounded == r.unbounded
  {
    hide Node.Finish, RollsBack;
  }

  lemma PushStep(r: Realtime, i: Cuid)
    requires IdleLoop(r, i) && !r.sys.nodes[i].stopped && r.sys.nodes[i].replica.NeedPush()
    ensures Possible(r, PushIfNeeded(i))
    ensures var r' := Act(r, PushIfNeeded(i));
      && r'.sys == With(r.sys, i, r.sys.nodes[i].Build())
      && r'.bounded == r.bounded && r'.unbounded == r.unbounded
  {
    hide Node.Build, Replica.NeedPush;
  }

  /** Client 2 has committed and is about to push. */
  lemma CommittedLive() returns (actions: seq<Action>, r: Realtime)
    ensures Run(actions) == r && 1 !in r.bounded && r.unbounded == map[1 := [], 2 := []]
    ensures r.sys == System(Live, SHARED, map[1 := Owner(true), 2 := Sevened(Member(0, 0, 0, []), 2)])
  {
    hide Run, Act, Possible, Node.Local, Node.Finish, Owner, Member, Sevened, RollsBack, Untouched;
    actions, r := JoinedLive();
    MemberIdle();
    CommitsSeven(Member(0, 0, 0, []), 2);
    SevenKept(Member(0, 0, 0, []), 2);
    LocalStep(r, 2, 7);
    actions, r := Perform(actions, r, User(LocalOp(2, 7)));
    CommitStep(r, 2);
    actions, r := Perform(actions, r, User(Commit(2, None)));
    assert r.sys.nodes == map[1 := Owner(true), 2 := Sevened(Member(0, 0, 0, []), 2)];
  }

  lemma SevenedPushes()
    ensures var v := Sevened(Member(0, 0, 0, []), 2);
      && v.net.Idle? && !v.stopped && v.replica.NeedPush() && v.Build().net == Sent(Pushing(2, Subscribed))
  {
    hide Node.Local, Node.Finish, Node.Build, Member, Sevened, Untouched, Pushing, RollsBack;
    hide Replica.NeedPush;
    MemberIdle();
    SevenedIdle(Member(0, 0, 0, []), 2);
    CommitsSeven(Member(0, 0, 0, []), 2);
    SevenKept(Member(0, 0, 0, []), 2);
  }

  /** Client 2 has asked to push. */
  lemma PushingLive() returns (actions: seq<Action>, r: Realtime)
    ensures Run(actions) == r && 1 !in r.bounded && r.unbounded == map[1 := [], 2 := []]
    ensures r.sys.phase == Live && r.sys.server == SHARED && r.sys.nodes.Keys == {1, 2}
    ensures r.sys.nodes[1] == Owner(true)
    ensures r.sys.nodes[2].net == Sent(Pushing(2, Subscribed))
  {
    hide Run, Act, Possible, Node.Build, Owner, Member, Sevened, Pushing, Replica.NeedPush;
    hide Enabled, RollsBack, SHARED;
    actions, r := CommittedLive();
    SevenedPushes();
    PushStep(r, 2);
    actions, r := Perform(actions, r, PushIfNeeded(2));
  }

  lemma PushNotifiesOwner()
    ensures SHARED.Notifies(Pushing(2, Subscribed))
  {
  }

  /** Client 2 has pushed, and client 1 has been notified. */
  lemma NotifiedLive() returns (actions: seq<Action>, r: Realtime)
    ensures Run(actions) == r && 1 !in r.bounded && 1 in r.unbounded
    ensures r.unbounded[1] == [Notify(Notification(2, 10, 1))]
    ensures r.sys.phase == Live && r.sys.nodes.Keys == {1, 2} && r.sys.nodes[1] == Owner(true)
    ensures r.sys.server == PUSHED
  {
    hide Run, Handle, Owner, Pushing, Server.Notifies;
    actions, r := PushingLive();
    SharedPush(r.sys);
    PushNotifiesOwner();
    actions, r := Perform(actions, r, Serve(2, 1));
  }

  lemma OwnerWakes()
    ensures Owner(true).replica.HandleNotification(Notification(2, 10, 1))
    ensures Owner(true).net.Idle? && !Owner(true).stopped && Owner(true).replica.state.Subscribed?
  {
  }

  lemma EmptyPullServed(s: System)
    requires s.phase == Live && 1 in s.server.wired && s.server.typ == Counter
    ensures var (server, net) := Handle(s, Asking(1, 10, Subscribed), 2);
      net.Answered? && server.sseq == s.server.sseq && server.wired == s.server.wired
  {
    hide PullAfter, Replica.SnapshotTransaction, Node.PendingDelta, Node.Quiet;
  }

  /** Client 1 has been woken, has asked, and has been answered, with nothing else to do. */
  lemma AnsweredLive() returns (actions: seq<Action>, r: Realtime)
    ensures Run(actions) == r && 1 !in r.bounded && 1 in r.unbounded && r.unbounded[1] == []
    ensures 1 in r.sys.nodes && r.sys.nodes[1].net.Answered?
    ensures r.sys.nodes[1] == Owner(true).(net := r.sys.nodes[1].net)
    ensures 1 in r.sys.server.wired && r.sys.server.sseq == 1
  {
    hide Run, Act, Possible, Next, Handle, Node.Build, Owner, Server.Notifies, Replica.HandleNotification;
    actions, r := NotifiedLive();
    OwnerWakes();
    WakeStep(r, 1, Notification(2, 10, 1));
    actions, r := Perform(actions, r, ReceiveUnbounded(1));
    QuietMember();
    ExchangeStep(r, 1);
    actions, r := Perform(actions, r, ReceiveBounded(1));
    PullStep(r);
    actions, r := Perform(actions, r, Serve(1, 2));
  }

  lemma WakeStep(r: Realtime, i: Cuid, n: Notification)
    requires IdleLoop(r, i) && i in r.unbounded && r.unbounded[i] == [Notify(n)]
    requires r.sys.nodes[i].replica.HandleNotification(n)
    ensures Possible(r, ReceiveUnbounded(i))
    ensures Act(r, ReceiveUnbounded(i)) == r.(unbounded := r.unbounded[i := []], bounded := r.bounded + {i})
  {
    hide Replica.HandleNotification;
    assert [Notify(n)][1..] == [];
  }

  lemma ExchangeStep(r: Realtime, i: Cuid)
    requires IdleLoop(r, i) && i in r.bounded && !r.sys.nodes[i].stopped
    ensures Possible(r, ReceiveBounded(i))
    ensures var r' := Act(r, ReceiveBounded(i));
      && r'.sys == With(r.sys, i, r.sys.nodes[i].Build())
      && r'.bounded == r.bounded - {i} && r'.unbounded == r.unbounded
  {
    hide Node.Build;
  }

  lemma PullStep(r: Realtime)
    requires r.sys.phase == Live && r.sys.server == PUSHED && 1 in r.sys.nodes
    requires r.sys.nodes[1].net == Sent(Asking(1, 10, Subscribed))
    ensures Possible(r, Serve(1, 2))
    ensures var r' := Act(r, Serve(1, 2));
      && r'.bounded == r.bounded && r'.unbounded == r.unbounded
      && 1 in r'.sys.nodes && r'.sys.nodes[1].net.Answered?
      && r'.sys.nodes[1] == r.sys.nodes[1].(net := r'.sys.nodes[1].net)
      && 1 in r'.sys.server.wired && r'.sys.server.sseq == 1
  {
    hide Handle, Act, Take, Server.Notifies;
    EmptyPullServed(r.sys);
    assert 2 in r.sys.server.wired - {1};
    var (server, net) := Handle(r.sys, Asking(1, 10, Subscribed), 2);
    Serves(r.sys, 1, 2, server, net);
    AskersNotifyNobody(r.sys.server, 1);
    ServedQuietly(r, 1, 2);
  }

  lemma AskersNotifyNobody(server: Server, i: Cuid)
    ensures !server.Notifies(Asking(i, 10, Subscribed))
  {
  }

  lemma LoseLeaves(r: Realtime, i: Cuid)
    requires i in r.sys.nodes
    ensures var r' := Do(r, Lose(i));
      i in r'.sys.nodes && r'.sys.nodes[i].replica == r.sys.nodes[i].replica && r'.sys.server == r.sys.server
  {
  }

  lemma NothingQueued(r: Realtime, i: Cuid)
    requires i in r.sys.nodes && !r.sys.nodes[i].replica.NeedPush()
    requires i !in r.bounded && (i !in r.unbounded || r.unbounded[i] == [])
    ensures !HasReason(r, i)
  {
  }

  /** A run in which the answer a notified replica was waiting for is lost: it is subscribed and behind,
      and nothing is left that would make it exchange again. */
  lemma LostAnswerSleeps() returns (actions: seq<Action>)
    ensures var r := Run(actions);
      var r' := Do(r, Lose(1));
      && 1 in r.sys.nodes && r.sys.nodes[1].net.Answered?
      && 1 in r'.sys.nodes && r'.sys.nodes[1].replica.state.Subscribed? && 1 in r'.sys.server.wired
      && r'.sys.nodes[1].replica.checkpoint.sseq < r'.sys.server.sseq && !ComesBack(r', 1)
  {
    hide Run, HasReason, ComesBack, Do, Owner;
    var r: Realtime;
    actions, r := AnsweredLive();
    QuietMember();
    OwnerWakes();
    LossSurvivedIff(actions, 1);
    NothingQueued(r, 1);
    LoseLeaves(r, 1);
  }
}
