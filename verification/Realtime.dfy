/** Realtime mode: the event loops, their channels and the server's notifications. Without transport
    failure no replica sleeps through a transaction it has not pulled. */
module Realtime {
  import opened Types
  import opened CounterArithmetic
  import opened PushBuffer
  import opened History
  import opened Replica
  import opened PullHandling
  import opened DatatypeServer
  import opened Protocol
  import opened Invariant
  import opened Delivery
  import opened Requests
  import opened Lamports
  import opened Registration
  import opened Meaning
  import opened Theorems
  import opened Exactness

  datatype Event = Notify(notification: Notification) | PushTransaction

  /** The protocol with the channels of every event loop: the unbounded one as a queue, the one of
      capacity 1 as the set of the loops that have an event in it. `trace` are the protocol steps taken. */
  datatype Realtime = Realtime(
    sys: System,
    trace: seq<Label>,
    bounded: set<Cuid>,
    unbounded: map<Cuid, seq<Event>>)

  datatype Action =
    | User(l: Label)
    | Sync(i: Cuid)
    | ReceiveUnbounded(i: Cuid)
    | ReceiveBounded(i: Cuid)
    | PushIfNeeded(i: Cuid)
    | Serve(i: Cuid, heir: Cuid)
    | Respond(i: Cuid)

  /** The step undoes a transaction begun in another lifecycle state. */
  predicate ChangesState(s: System, l: Label) {
    && Enabled(s, l) && (l.Abort? || l.Commit?)
    && RollsBack(s.nodes[l.i], l)
    && s.nodes[l.i].replica.record.rollbackState != s.nodes[l.i].replica.state
  }

  predicate IdleLoop(r: Realtime, i: Cuid) { i in r.sys.nodes && r.sys.nodes[i].net.Idle? }

  function Queue(r: Realtime, i: Cuid): seq<Event> {
    if i in r.unbounded then r.unbounded[i] else []
  }

  predicate Possible(r: Realtime, a: Action) {
    match a
    case User(l) =>
      && (l.Register? || l.LocalOp? || l.Commit? || l.Abort? || l.Unsubscribe?)
      && Enabled(r.sys, l) && !ChangesState(r.sys, l)
    case Sync(i) => i in r.sys.nodes && !r.sys.nodes[i].replica.state.Disabled?
    case ReceiveUnbounded(i) => IdleLoop(r, i) && Queue(r, i) != []
    case ReceiveBounded(i) => IdleLoop(r, i) && i in r.bounded
    case PushIfNeeded(i) => IdleLoop(r, i) && !r.sys.nodes[i].stopped && r.sys.nodes[i].replica.NeedPush()
    case Serve(i, heir) => Enabled(r.sys, Process(i, heir))
    case Respond(i) => Enabled(r.sys, Deliver(i))
  }

  function Do(r: Realtime, l: Label): Realtime { r.(sys := Next(r.sys, l), trace := r.trace + [l]) }

  /** A best-effort event: dropped when one is already queued. */
  function TrySend(r: Realtime, i: Cuid): Realtime { r.(bounded := r.bounded + {i}) }

  /** What a loop does with a push event: exchange, or refuse when it has stopped. */
  function PushPull(r: Realtime, i: Cuid): Realtime
    requires i in r.sys.nodes
  {
    if r.sys.nodes[i].stopped then r else Do(r, Build(i))
  }

  function Notified(r: Realtime, to: set<Cuid>, e: Event): Realtime {
    r.(unbounded := map j | j in r.unbounded :: if j in to then r.unbounded[j] + [e] else r.unbounded[j])
  }

  function Act(r: Realtime, a: Action): Realtime
    requires Possible(r, a)
  {
    match a
    case User(l) =>
      var r1 := Do(r, l);
      if l.Register? then r1.(unbounded := r1.unbounded[l.i := []], bounded := r1.bounded - {l.i})
      else if l.Commit? && !RollsBack(r.sys.nodes[l.i], l) then TrySend(r1, l.i)
      else if l.Unsubscribe? && r.sys.nodes[l.i].replica.state.Subscribed? then TrySend(r1, l.i)
      else r1
    case Sync(i) => r.(unbounded := r.unbounded[i := Queue(r, i) + [PushTransaction]])
    case ReceiveUnbounded(i) =>
      var r1 := r.(unbounded := r.unbounded[i := Queue(r, i)[1..]]);
      (match Queue(r, i)[0]
       case Notify(n) => if r.sys.nodes[i].replica.HandleNotification(n) then TrySend(r1, i) else r1
       case PushTransaction => PushPull(r1, i))
    case ReceiveBounded(i) => PushPull(r.(bounded := r.bounded - {i}), i)
    case PushIfNeeded(i) => PushPull(r, i)
    case Serve(i, heir) =>
      var r1, p := Do(r, Process(i, heir)), r.sys.nodes[i].net.request;
      if r.sys.phase == Live && r.sys.server.Notifies(p) then
        Notified(r1, r.sys.server.wired - {i},
                 Notify(Notification(i, r1.sys.server.duid, r1.sys.server.sseq)))
      else r1
    case Respond(i) => Do(r, Deliver(i))
  }

  function Step(r: Realtime, a: Action): Realtime {
    if Possible(r, a) then Act(r, a) else r
  }

  function Run(actions: seq<Action>): Realtime {
    if actions == [] then Realtime(Init(), [], {}, map[])
    else Step(Run(actions[..|actions| - 1]), actions[|actions| - 1])
  }

  // ---- the invariant ----

  predicate Entering(state: DatatypeState) {
    state.Creating? || state.Subscribing? || state.SubscribingOrCreating?
  }

  /** A replica still entering has not been let in by any answer yet. */
  ghost predicate EnteringOk(server: Server, n: Node) {
    && (!n.stopped && Entering(n.replica.state) && !n.net.Answered? ==> !Attached(server, n.replica.duid))
    && (n.net.Sent? && Entering(n.net.request.state) ==> !Attached(server, n.replica.duid))
  }

  /** A notification that makes a replica behind `sseq` exchange. */
  predicate Wakes(e: Event, i: Cuid, duid: Duid, sseq: nat) {
    e.Notify? && e.notification.cuid != i && e.notification.duid == duid && e.notification.sseq == sseq
  }

  ghost predicate Woken(server: Server, bounded: set<Cuid>, queue: seq<Event>, i: Cuid) {
    || i in bounded
    || PushTransaction in queue
    || exists k :: 0 <= k < |queue| && Wakes(queue[k], i, server.duid, server.sseq)
  }

  /** The replica is behind, or will be once it has taken its answer. */
  predicate Behind(server: Server, n: Node) {
    || (n.net.Idle? && n.replica.state.Subscribed? && n.replica.checkpoint.sseq < server.sseq)
    || (n.net.Answered? && (n.net.kind.Created? || n.net.kind.Joined? || n.net.kind.Pulled?)
        && n.net.answer.checkpoint.sseq < server.sseq)
  }

  ghost predicate WakeOk(server: Server, bounded: set<Cuid>, queue: seq<Event>, i: Cuid, n: Node) {
    i in server.wired && !n.stopped && Behind(server, n) ==> Woken(server, bounded, queue, i)
  }

  ghost predicate AwakeAt(r: Realtime, i: Cuid) {
    && i in r.sys.nodes && i in r.unbounded
    && EnteringOk(r.sys.server, r.sys.nodes[i])
    && WakeOk(r.sys.server, r.bounded, r.unbounded[i], i, r.sys.nodes[i])
  }

  ghost predicate Awake(r: Realtime) {
    r.unbounded.Keys == r.sys.nodes.Keys && (forall i :: i in r.sys.nodes ==> AwakeAt(r, i))
  }

  ghost predicate Sound(r: Realtime) { Inv(r.sys) && Members(r.sys) && r.sys == Exec(Init(), r.trace) }

  // ---- one replica ----

  lemma KeptAwake(server: Server, bounded: set<Cuid>, queue: seq<Event>, i: Cuid, n: Node, n': Node)
    requires EnteringOk(server, n) && WakeOk(server, bounded, queue, i, n)
    requires n'.stopped == n.stopped && n'.net == n.net && n'.replica.duid == n.replica.duid
    requires n'.replica.checkpoint == n.replica.checkpoint
    requires n'.replica.state == n.replica.state || !(Entering(n'.replica.state) || n'.replica.state.Subscribed?)
    ensures EnteringOk(server, n') && WakeOk(server, bounded, queue, i, n')
  {
    hide Woken;
  }

  lemma FinishKeepsShape(s: System, l: Label, n: Node)
    requires Enabled(s, l) && (l.Abort? || l.Commit?) && s.nodes[l.i] == n && BufferOk(n.replica)
    requires !ChangesState(s, l)
    ensures var n' := Take(s, l).nodes[l.i];
      && n'.stopped == n.stopped && n'.net == n.net && n'.replica.duid == n.replica.duid
      && n'.replica.checkpoint == n.replica.checkpoint && n'.replica.state == n.replica.state
  {
    hide BufferOk;
    if n.replica.record.pending.Some? {
      if RollsBack(n, l) {
        if l.Commit? { RefusedCommitIsAbort(n, l.tag); }
      } else {
        EnqueuedIs(n, l.tag);
      }
    }
  }

  lemma UserAwake(s: System, l: Label, bounded: set<Cuid>, queue: seq<Event>)
    requires Inv(s) && Enabled(s, l) && (l.LocalOp? || l.Commit? || l.Abort? || l.Unsubscribe?)
    requires !ChangesState(s, l)
    requires EnteringOk(s.server, s.nodes[l.i]) && WakeOk(s.server, bounded, queue, l.i, s.nodes[l.i])
    ensures EnteringOk(s.server, Take(s, l).nodes[l.i])
    ensures WakeOk(s.server, bounded, queue, l.i, Take(s, l).nodes[l.i])
  {
    hide Inv, NodeOk, BufferOk, WakeOk, EnteringOk, Node.Finish, ChangesState;
    NodeFacts(s, l.i);
    if l.Commit? || l.Abort? {
      FinishKeepsShape(s, l, s.nodes[l.i]);
    }
    KeptAwake(s.server, bounded, queue, l.i, s.nodes[l.i], Take(s, l).nodes[l.i]);
  }

  lemma SyncedCheckpoint(r: Replica, p: PushPullPack)
    requires ApplyPull(r, p).1.Synced?
    ensures AfterPull(r, p).0.checkpoint == r.checkpoint.CheckWith(p.checkpoint)
  {
    hide Executed, Total, FromBytes;
  }

  lemma VoidDisables(server: Server, i: Cuid, n: Node)
    requires NodeOk(server, i, n) && n.net.Answered?
    ensures n.net.kind.Void? ==> n.net.answer.state.Disabled?
  {
  }

  /** An answer leaves a replica stopped, disabled, or subscribed as far as the answer reached. */
  lemma DeliverAwake(server: Server, bounded: set<Cuid>, queue: seq<Event>, i: Cuid, n: Node)
    requires NodeOk(server, i, n) && n.net.Answered?
    requires n.net.answer.error != Some(ServerInternalError)
    requires WakeOk(server, bounded, queue, i, n)
    ensures EnteringOk(server, n.Deliver())
    ensures WakeOk(server, bounded, queue, i, n.Deliver())
  {
    hide NodeOk, Node.Settled, Absorb, ApplyPull, Above, Total, Woken, Node.PendingDelta;
    NeverUnimplemented(server, i, n);
    AnswerKind(server, i, n);
    RunningActor(server, i, n);
    VoidDisables(server, i, n);
    if ApplyPull(n.replica, n.net.answer).1.Failed? {
      FailedIs(n);
    } else {
      NoErrorWhenSynced(n);
      SyncedState(n.replica, n.net.answer);
      SyncedCheckpoint(n.replica, n.net.answer);
    }
  }

  // ---- requests ----

  /** A positive answer reaches the end of the history. */
  lemma ServedCurrent(s: System, p: PushPullPack, heir: Cuid)
    ensures var (server', net) := Handle(s, p, heir);
      net.Answered? && (net.kind.Created? || net.kind.Joined? || net.kind.Pulled? ==>
        net.answer.checkpoint.sseq == server'.sseq)
  {
    hide Accepted, PullAfter, Replica.SnapshotTransaction, Node.PendingDelta, Node.Quiet;
  }

  /** Whatever is pushed to a created datatype, the others are notified of. */
  lemma PushNotifies(s: System, n: Node, p: PushPullPack, heir: Cuid)
    requires n.net == Sent(p) && EnteringOk(s.server, n) && p.duid == n.replica.duid
    requires s.server.created && Handle(s, p, heir).0.sseq != s.server.sseq
    ensures s.phase == Live && s.server.Notifies(p)
  {
    hide Accepted, PullAfter;
  }

  lemma ServerCore(s: System, i: Cuid, heir: Cuid)
    requires Inv(s) && Enabled(s, Process(i, heir))
    ensures var p := s.nodes[i].net.request;
      var server' := Handle(s, p, heir).0;
      && p.cuid == i && p.duid == s.nodes[i].replica.duid
      && server'.wired <= s.server.wired
      && (s.server.created ==> server'.created && server'.duid == s.server.duid)
      && (server'.created && !s.server.created ==> server'.duid == s.nodes[i].replica.duid)
  {
    hide Inv, NodeOk, BufferOk, Accepted, PullAfter;
    NodeFacts(s, i);
    RequestIs(s.server, i, s.nodes[i]);
    LiveWired(s);
    ProcessFrame(s, i, s.nodes[i], s.nodes[i].net.request, heir);
  }

  lemma LiveWired(s: System)
    requires Inv(s)
    ensures s.phase == Live <==> s.server.wired != {}
  {
  }

  lemma BehindCreated(s: System, j: Cuid)
    requires Inv(s) && j in s.nodes && !s.nodes[j].stopped
    ensures (s.nodes[j].net.Idle? && s.nodes[j].replica.state.Subscribed?)
      || (s.nodes[j].net.Answered?
          && (s.nodes[j].net.kind.Created? || s.nodes[j].net.kind.Joined? || s.nodes[j].net.kind.Pulled?))
      ==> s.server.created
  {
    hide BufferOk, LogOk, HeldOk;
    assert NodeOk(s.server, j, s.nodes[j]);
  }

  lemma OtherDuid(s: System, i: Cuid, j: Cuid)
    requires Inv(s) && i in s.nodes && j in s.nodes && i != j
    requires !Attached(s.server, s.nodes[j].replica.duid)
    ensures s.nodes[i].replica.duid != s.nodes[j].replica.duid
  {
    hide NodeOk;
  }

  /** The notification queued for another replica is one that wakes it. */
  lemma QueueWakes(server': Server, bounded: set<Cuid>, queue: seq<Event>, i: Cuid, j: Cuid)
    requires i != j
    ensures Woken(server', bounded,
                  queue + [Notify(Notification(i, server'.duid, server'.sseq))], j)
  {
    var e := Notify(Notification(i, server'.duid, server'.sseq));
    assert (queue + [e])[|queue|] == e;
    assert Wakes((queue + [e])[|queue|], j, server'.duid, server'.sseq);
  }

  lemma StillWoken(server: Server, server': Server, bounded: set<Cuid>, queue: seq<Event>, more: seq<Event>, j: Cuid)
    requires Woken(server, bounded, queue, j)
    requires server'.duid == server.duid && server'.sseq == server.sseq
    ensures Woken(server', bounded, queue + more, j)
  {
    if k :| 0 <= k < |queue| && Wakes(queue[k], j, server.duid, server.sseq) {
      assert (queue + more)[k] == queue[k];
    }
  }

  /** A replica other than the one served stays awake. */
  lemma OtherAwake(r: Realtime, i: Cuid, heir: Cuid, j: Cuid)
    requires Inv(r.sys) && AwakeAt(r, i) && AwakeAt(r, j) && Enabled(r.sys, Process(i, heir)) && j != i
    ensures AwakeAt(Step(r, Serve(i, heir)), j)
  {
    hide Inv, Handle, Woken, Server.Notifies, EnteringOk;
    var s, n, p := r.sys, r.sys.nodes[j], r.sys.nodes[i].net.request;
    var r', server' := Act(r, Serve(i, heir)), Handle(s, p, heir).0;
    ServerCore(s, i, heir);
    EnteringStays(s, i, j, server');
    if j in server'.wired && !n.stopped && Behind(server', n) {
      BehindCreated(s, j);
      if server'.sseq != s.server.sseq {
        PushNotifies(s, s.nodes[i], p, heir);
        QueueWakes(server', r.bounded, r.unbounded[j], i, j);
      } else {
        StillWoken(s.server, server', r.bounded, r.unbounded[j], r'.unbounded[j][|r.unbounded[j]|..], j);
        assert r'.unbounded[j] == r.unbounded[j] + r'.unbounded[j][|r.unbounded[j]|..];
      }
    }
  }

  lemma EnteringStays(s: System, i: Cuid, j: Cuid, server': Server)
    requires Inv(s) && i in s.nodes && j in s.nodes && i != j && EnteringOk(s.server, s.nodes[j])
    requires s.server.created ==> server'.created && server'.duid == s.server.duid
    requires server'.created && !s.server.created ==> server'.duid == s.nodes[i].replica.duid
    ensures EnteringOk(server', s.nodes[j])
  {
    hide Inv;
    if !Attached(s.server, s.nodes[j].replica.duid) {
      OtherDuid(s, i, j);
    }
  }

  lemma ServeAwake(r: Realtime, i: Cuid, heir: Cuid)
    requires Inv(r.sys) && Awake(r) && Enabled(r.sys, Process(i, heir))
    ensures Awake(Step(r, Serve(i, heir)))
  {
    hide Inv, Handle, EnteringOk, WakeOk, Server.Notifies;
    var r' := Step(r, Serve(i, heir));
    forall j | j in r'.sys.nodes
      ensures AwakeAt(r', j)
    {
      if j == i {
        ServedCurrent(r.sys, r.sys.nodes[i].net.request, heir);
        ServedAwake(r'.sys.server, r'.bounded, r'.unbounded[j], j, r'.sys.nodes[j]);
      } else {
        OtherAwake(r, i, heir, j);
      }
    }
  }

  lemma ServedAwake(server: Server, bounded: set<Cuid>, queue: seq<Event>, i: Cuid, n: Node)
    requires n.net.Answered?
    requires n.net.kind.Created? || n.net.kind.Joined? || n.net.kind.Pulled? ==>
      n.net.answer.checkpoint.sseq == server.sseq
    ensures EnteringOk(server, n) && WakeOk(server, bounded, queue, i, n)
  {
  }

  // ---- channels ----

  lemma RegisterAwake(r: Realtime, l: Label)
    requires Inv(r.sys) && Awake(r) && Possible(r, User(l)) && l.Register?
    ensures Awake(Step(r, User(l)))
  {
    hide NodeOk, WakeOk, EnteringOk;
    var r' := Step(r, User(l));
    RegisteredAwake(r.sys, l, r'.bounded, []);
    if r.sys.phase == Fresh {
      FreshServer(r.sys);
    }
    forall j | j in r'.sys.nodes
      ensures AwakeAt(r', j)
    {
      if j != l.i {
        assert AwakeAt(r, j);
        EnteringElsewhere(r.sys.server, l.i, r.sys.nodes[j]);
        RegisteredElsewhere(r.sys.server, r.bounded, r'.bounded, r.unbounded[j], j, l.i, r.sys.nodes[j]);
      }
    }
  }

  lemma RegisteredAwake(s: System, l: Label, bounded: set<Cuid>, queue: seq<Event>)
    requires Enabled(s, l) && l.Register?
    ensures EnteringOk(Take(s, l).server, Take(s, l).nodes[l.i])
    ensures WakeOk(Take(s, l).server, bounded, queue, l.i, Take(s, l).nodes[l.i])
  {
    hide Woken;
  }

  lemma EnteringElsewhere(server: Server, j: Cuid, n: Node)
    requires EnteringOk(server, n)
    ensures EnteringOk(server.Insert(j), n)
  {
  }

  lemma RegisteredElsewhere(server: Server, bounded: set<Cuid>, more: set<Cuid>, queue: seq<Event>,
                            i: Cuid, j: Cuid, n: Node)
    requires WakeOk(server, bounded, queue, i, n) && i != j && (i in bounded ==> i in more)
    ensures WakeOk(server.Insert(j), more, queue, i, n)
  {
  }

  lemma UserStepAwake(r: Realtime, l: Label)
    requires Inv(r.sys) && Awake(r) && Possible(r, User(l)) && !l.Register?
    ensures Awake(Step(r, User(l)))
  {
    hide Inv, EnteringOk, WakeOk, ChangesState, Node.Finish, RollsBack, Node.Unsubscribe, Node.Local;
    var r' := Step(r, User(l));
    assert AwakeAt(r, l.i);
    UserAwake(r.sys, l, r.bounded, r.unbounded[l.i]);
    forall j | j in r'.sys.nodes
      ensures AwakeAt(r', j)
    {
      assert AwakeAt(r, j);
      MoreBounded(r'.sys.server, r.bounded, r'.bounded, r.unbounded[j], j, r'.sys.nodes[j]);
    }
  }

  lemma MoreBounded(server: Server, bounded: set<Cuid>, more: set<Cuid>, queue: seq<Event>, i: Cuid, n: Node)
    requires WakeOk(server, bounded, queue, i, n) && bounded <= more
    ensures WakeOk(server, more, queue, i, n)
  {
  }

  /** A loop that exchanges is awake whatever it has taken from its channels. */
  lemma ExchangeAwake(r: Realtime, r1: Realtime, i: Cuid)
    requires Inv(r.sys) && Awake(r) && IdleLoop(r, i)
    requires r1.sys == r.sys && r1.bounded >= r.bounded - {i}
    requires r1.unbounded.Keys == r.unbounded.Keys
    requires forall j :: j in r.unbounded && j != i ==> r1.unbounded[j] == r.unbounded[j]
    ensures Awake(PushPull(r1, i))
  {
    hide Inv, Node.Build, NodeOk, BufferOk, Woken;
    var n := r.sys.nodes[i];
    assert AwakeAt(r, i);
    if !n.stopped {
      NodeFacts(r.sys, i);
      BuiltState(r.sys.server, i, n);
    }
    forall j | j in PushPull(r1, i).sys.nodes
      ensures AwakeAt(PushPull(r1, i), j)
    {
      assert AwakeAt(r, j);
      if j != i { OthersBounded(r.sys.server, r.bounded, r1.bounded, r.unbounded[j], j, r.sys.nodes[j]); }
    }
  }

  lemma OthersBounded(server: Server, bounded: set<Cuid>, more: set<Cuid>, queue: seq<Event>, i: Cuid, n: Node)
    requires WakeOk(server, bounded, queue, i, n) && (i in bounded ==> i in more)
    ensures WakeOk(server, more, queue, i, n)
  {
  }

  /** A notification is only dropped by a replica that is as far as it says. */
  lemma NotifyAwake(server: Server, bounded: set<Cuid>, queue: seq<Event>, i: Cuid, n: Node)
    requires NodeOk(server, i, n) && n.net.Idle? && queue != [] && queue[0].Notify?
    requires WakeOk(server, bounded, queue, i, n)
    ensures WakeOk(server, if n.replica.HandleNotification(queue[0].notification) then bounded + {i} else bounded,
                   queue[1..], i, n)
  {
    hide BufferOk, LogOk, HeldOk, RunOk;
    if i in server.wired && !n.stopped && Behind(server, n) && i !in bounded && PushTransaction !in queue {
      var k :| 0 <= k < |queue| && Wakes(queue[k], i, server.duid, server.sseq);
      if k > 0 {
        assert queue[1..][k - 1] == queue[k];
      }
    }
    if PushTransaction in queue {
      assert PushTransaction in queue[1..];
    }
  }

  lemma SameAt(r: Realtime, r': Realtime, j: Cuid)
    requires AwakeAt(r, j) && r'.sys == r.sys && r.bounded <= r'.bounded
    requires j in r'.unbounded && r'.unbounded[j] == r.unbounded[j]
    ensures AwakeAt(r', j)
  {
  }

  lemma NotifiedAwake(r: Realtime, i: Cuid)
    requires Inv(r.sys) && Awake(r) && Possible(r, ReceiveUnbounded(i)) && Queue(r, i)[0].Notify?
    ensures Awake(Step(r, ReceiveUnbounded(i)))
  {
    hide Inv, NodeOk, BufferOk, EnteringOk, WakeOk, Replica.HandleNotification;
    var r' := Step(r, ReceiveUnbounded(i));
    assert AwakeAt(r, i);
    NodeFacts(r.sys, i);
    NotifyAwake(r.sys.server, r.bounded, r.unbounded[i], i, r.sys.nodes[i]);
    forall j | j in r'.sys.nodes
      ensures AwakeAt(r', j)
    {
      assert AwakeAt(r, j);
      if j != i { SameAt(r, r', j); }
    }
  }

  lemma SyncAwake(r: Realtime, i: Cuid)
    requires Awake(r) && Possible(r, Sync(i))
    ensures Awake(Step(r, Sync(i)))
  {
    hide EnteringOk;
    var r' := Step(r, Sync(i));
    forall j | j in r'.sys.nodes
      ensures AwakeAt(r', j)
    {
      assert AwakeAt(r, j);
      if j != i {
        SameAt(r, r', j);
      } else {
        assert r'.unbounded[i][|r.unbounded[i]|] == PushTransaction;
      }
    }
  }

  lemma RespondAwake(r: Realtime, i: Cuid)
    requires Inv(r.sys) && Members(r.sys) && Awake(r) && Possible(r, Respond(i))
    ensures Awake(Step(r, Respond(i)))
  {
    hide Inv, NodeOk, BufferOk, EnteringOk, WakeOk, Node.Deliver;
    var r', n := Step(r, Respond(i)), r.sys.nodes[i];
    assert AwakeAt(r, i) && MemberOk(r.sys.server.wired, i, n);
    NodeFacts(r.sys, i);
    DeliverAwake(r.sys.server, r.bounded, r.unbounded[i], i, n);
    forall j | j in r'.sys.nodes
      ensures AwakeAt(r', j)
    {
      assert AwakeAt(r, j);
    }
  }

  lemma StepAwake(r: Realtime, a: Action)
    requires Inv(r.sys) && Members(r.sys) && Awake(r)
    ensures Awake(Step(r, a))
  {
    hide Inv, Members, Awake, Notified, ChangesState, Replica.HandleNotification;
    if Possible(r, a) {
      match a {
        case User(l) => if l.Register? { RegisterAwake(r, l); } else { UserStepAwake(r, l); }
        case Sync(i) => SyncAwake(r, i);
        case ReceiveUnbounded(i) =>
          QueueKnown(r, i);
          if Queue(r, i)[0].Notify? { NotifiedAwake(r, i); }
          else { ExchangeAwake(r, r.(unbounded := r.unbounded[i := Queue(r, i)[1..]]), i); }
        case ReceiveBounded(i) => ExchangeAwake(r, r.(bounded := r.bounded - {i}), i);
        case PushIfNeeded(i) => ExchangeAwake(r, r, i);
        case Serve(i, heir) => ServeAwake(r, i, heir);
        case Respond(i) => RespondAwake(r, i);
      }
    }
  }

  lemma QueueKnown(r: Realtime, i: Cuid)
    requires Awake(r) && i in r.sys.nodes
    ensures i in r.unbounded
  {
  }

  // ---- runs ----

  lemma NoRevival(s: System, l: Label)
    requires !ChangesState(s, l)
    ensures !Revives(s, l)
  {
  }

  lemma DoSound(r: Realtime, l: Label)
    requires Sound(r) && !ChangesState(r.sys, l)
    ensures Sound(Do(r, l))
  {
    hide Inv, Members, Next, Exec, Revives, ChangesState;
    NextKeeps(r.sys, l);
    NoRevival(r.sys, l);
    NextMembers(r.sys, l);
    ExecOne(Init(), r.trace, l);
  }

  /** The protocol steps of a realtime run are a run of the protocol. */
  lemma StepSound(r: Realtime, a: Action)
    requires Sound(r)
    ensures Sound(Step(r, a))
  {
    hide Inv, Members, Exec, Next, RollsBack;
    if Possible(r, a) {
      match a {
        case User(l) => DoSound(r, l);
        case ReceiveUnbounded(i) => DoSound(r, Build(i));
        case ReceiveBounded(i) => DoSound(r, Build(i));
        case PushIfNeeded(i) => DoSound(r, Build(i));
        case Serve(i, heir) => DoSound(r, Process(i, heir));
        case Respond(i) => DoSound(r, Deliver(i));
        case _ =>
      }
    }
  }

  lemma {:induction false} RunAwake(actions: seq<Action>)
    ensures Sound(Run(actions)) && Awake(Run(actions))
  {
    hide Inv, Members, Step, Exec;
    if actions == [] {
      StartSound();
    } else {
      RunAwake(actions[..|actions| - 1]);
      StepSound(Run(actions[..|actions| - 1]), actions[|actions| - 1]);
      StepAwake(Run(actions[..|actions| - 1]), actions[|actions| - 1]);
    }
  }

  lemma StartSound()
    ensures Inv(Init()) && Members(Init()) && Init() == Exec(Init(), [])
  {
  }

  /** A notification of a larger server version is queued for a replica of this datatype. */
  ghost predicate NotificationWaits(r: Realtime, i: Cuid)
    requires i in r.sys.nodes
  {
    exists k :: 0 <= k < |Queue(r, i)| && Queue(r, i)[k].Notify?
                && r.sys.nodes[i].replica.HandleNotification(Queue(r, i)[k].notification)
  }

  /** No lost wakeup: a registered, running, subscribed replica behind the server is exchanging, or
      has an event queued that makes it exchange. */
  lemma NoLostWakeup(actions: seq<Action>, i: Cuid)
    requires var s := Run(actions).sys;
      && i in s.nodes && i in s.server.wired && !s.nodes[i].stopped
      && s.nodes[i].replica.state.Subscribed? && s.nodes[i].replica.checkpoint.sseq < s.server.sseq
    ensures var r := Run(actions);
      || !r.sys.nodes[i].net.Idle?
      || i in r.bounded
      || PushTransaction in Queue(r, i)
      || NotificationWaits(r, i)
  {
    hide Inv, Members, Exec, Run, EnteringOk;
    RunAwake(actions);
    var r := Run(actions);
    assert AwakeAt(r, i);
    if r.sys.nodes[i].net.Idle? && i !in r.bounded && PushTransaction !in r.unbounded[i] {
      WakingNotification(r, i);
    }
  }

  lemma WakingNotification(r: Realtime, i: Cuid)
    requires Inv(r.sys) && AwakeAt(r, i) && r.sys.nodes[i].net.Idle?
    requires i in r.sys.server.wired && !r.sys.nodes[i].stopped && r.sys.nodes[i].replica.state.Subscribed?
    requires r.sys.nodes[i].replica.checkpoint.sseq < r.sys.server.sseq
    requires i !in r.bounded && PushTransaction !in r.unbounded[i]
    ensures NotificationWaits(r, i)
  {
    hide BufferOk, LogOk, HeldOk, RunOk;
    assert NodeOk(r.sys.server, i, r.sys.nodes[i]);
    var k :| 0 <= k < |r.unbounded[i]| && Wakes(r.unbounded[i][k], i, r.sys.server.duid, r.sys.server.sseq);
    assert Queue(r, i)[k].Notify? && r.sys.nodes[i].replica.HandleNotification(Queue(r, i)[k].notification);
  }

  /** A loop with nothing to do: no exchange, nothing queued, no need to push. */
  predicate Asleep(r: Realtime, i: Cuid) {
    && i in r.sys.nodes && i in r.sys.server.wired && !r.sys.nodes[i].stopped
    && r.sys.nodes[i].replica.state.Subscribed?
    && !Possible(r, ReceiveUnbounded(i)) && !Possible(r, ReceiveBounded(i)) && !Possible(r, PushIfNeeded(i))
    && r.sys.nodes[i].net.Idle?
  }

  /** So a replica that sleeps is up to date and has nothing unacknowledged. */
  lemma AsleepIsCurrent(actions: seq<Action>, i: Cuid)
    requires Asleep(Run(actions), i)
    ensures var s := Run(actions).sys;
      && s.nodes[i].replica.checkpoint.sseq == |s.server.history|
      && s.nodes[i].Unacknowledged() == []
  {
    hide Inv, Members, Exec, Run, Replica.NeedPush, Replica.HandleNotification, Node.Unacknowledged;
    RunAwake(actions);
    var r := Run(actions);
    SubscribedFacts(r.sys, i);
    if r.sys.nodes[i].replica.checkpoint.sseq < r.sys.server.sseq {
      NoLostWakeup(actions, i);
    }
  }

  /** Nobody sleeps while entering or leaving: a running replica with nothing to do is subscribed, or is
      disabled because it has left. */
  lemma SleepersAreSettled(actions: seq<Action>, i: Cuid)
    requires IdleLoop(Run(actions), i) && !Run(actions).sys.nodes[i].stopped
    requires !Possible(Run(actions), ReceiveUnbounded(i)) && !Possible(Run(actions), ReceiveBounded(i))
    requires !Possible(Run(actions), PushIfNeeded(i))
    ensures var state := Run(actions).sys.nodes[i].replica.state; state.Subscribed? || state.Disabled?
  {
    hide Inv, Members, Exec, Run, Awake;
    RunAwake(actions);
    RunningState(Run(actions).sys, i);
  }

  lemma RunningState(s: System, i: Cuid)
    requires Inv(s) && i in s.nodes && !s.nodes[i].stopped
    ensures !s.nodes[i].replica.state.Deleting?
  {
    hide BufferOk, LogOk, HeldOk, RunOk, NetOk;
    assert NodeOk(s.server, i, s.nodes[i]);
  }

  lemma SubscribedFacts(s: System, i: Cuid)
    requires Inv(s) && i in s.nodes && !s.nodes[i].stopped && s.nodes[i].replica.state.Subscribed?
    ensures s.server.sseq == |s.server.history| >= s.nodes[i].replica.checkpoint.sseq
    ensures !s.nodes[i].replica.NeedPush() ==> s.nodes[i].Unacknowledged() == []
  {
    hide Fitting, Own;
    NodeFacts(s, i);
    AboveIsSuffix(s.nodes[i].ledger.committed, s.nodes[i].replica.checkpoint.cseq);
  }

  // ---- a loop that waits ----

  /** Waiting for an event, a loop does not look at what it has to push; whatever gives it something to push
      queues an event for it. */
  lemma PushAnnounced(r: Realtime, a: Action, i: Cuid)
    requires Inv(r.sys) && Possible(r, a) && IdleLoop(r, i) && !OwnAction(a, i)
    ensures IdleLoop(Act(r, a), i) && (i in r.bounded ==> i in Act(r, a).bounded)
    ensures !r.sys.nodes[i].replica.NeedPush() && Act(r, a).sys.nodes[i].replica.NeedPush() ==> i in Act(r, a).bounded
  {
    hide Inv, NodeOk, BufferOk, Replica.NeedPush, Replica.HandleNotification, Server.Notifies, Next, Handle;
    hide RollsBack, ChangesState, Node.Build, Node.Finish, Node.Deliver;
    if a.User? {
      UserAnnounces(r.sys, a.l, i);
    } else {
      OthersKeep(r, a, i);
    }
  }

  lemma UserAnnounces(s: System, l: Label, i: Cuid)
    requires Inv(s) && Enabled(s, l) && !ChangesState(s, l) && i in s.nodes && s.nodes[i].net.Idle?
    requires l.Register? || l.LocalOp? || l.Commit? || l.Abort? || l.Unsubscribe?
    ensures var s' := Next(s, l);
      && i in s'.nodes && s'.nodes[i].net.Idle?
      && (!s.nodes[i].replica.NeedPush() && s'.nodes[i].replica.NeedPush() ==>
            && l.i == i
            && (l.Commit? ==> !RollsBack(s.nodes[i], l))
            && (l.Commit? || (l.Unsubscribe? && s.nodes[i].replica.state.Subscribed?)))
  {
    hide Inv, NodeOk, BufferOk, RollsBack, ChangesState, Node.Finish;
    NodeFacts(s, i);
    if l.i == i && (l.Commit? || l.Abort?) {
      FinishKeepsShape(s, l, s.nodes[i]);
      if l.Abort? || RollsBack(s.nodes[i], l) { UndoneNeeds(s, l, i); }
    }
  }

  lemma UndoneNeeds(s: System, l: Label, i: Cuid)
    requires Enabled(s, l) && l.i == i && i in s.nodes && (l.Commit? || l.Abort?) && BufferOk(s.nodes[i].replica)
    requires !ChangesState(s, l) && (l.Commit? ==> RollsBack(s.nodes[i], l))
    ensures Next(s, l).nodes[i].replica.NeedPush() == s.nodes[i].replica.NeedPush()
  {
    hide BufferOk;
    var n := s.nodes[i];
    if n.replica.record.pending.Some? {
      if l.Commit? { RefusedCommitIsAbort(n, l.tag); }
    }
  }

  lemma OthersKeep(r: Realtime, a: Action, i: Cuid)
    requires Possible(r, a) && IdleLoop(r, i) && !OwnAction(a, i) && !a.User?
    ensures IdleLoop(Act(r, a), i) && Act(r, a).sys.nodes[i] == r.sys.nodes[i]
    ensures i in r.bounded ==> i in Act(r, a).bounded
  {
    hide Replica.NeedPush, Replica.HandleNotification, Server.Notifies, Handle, Node.Build, Node.Deliver;
  }

  /** So a loop that has found nothing to push and waits since then has either still nothing to push or an
      event that wakes it. */
  lemma {:induction false} WaitingIsWoken(actions: seq<Action>, more: seq<Action>, i: Cuid)
    requires IdleLoop(Run(actions), i) && !Run(actions).sys.nodes[i].replica.NeedPush()
    requires forall k :: 0 <= k < |more| ==> !OwnAction(more[k], i)
    ensures var r := Run(actions + more);
      IdleLoop(r, i) && (r.sys.nodes[i].replica.NeedPush() ==> i in r.bounded)
  {
    hide Inv, Members, Exec, Act, Possible, OwnAction, Replica.NeedPush, Awake;
    if more == [] {
      assert actions + more == actions;
    } else {
      var before, a := more[..|more| - 1], more[|more| - 1];
      assert forall k :: 0 <= k < |before| ==> before[k] == more[k];
      WaitingIsWoken(actions, before, i);
      var r := Run(actions + before);
      assert (actions + more)[..|actions + more| - 1] == actions + before;
      RunAwake(actions + before);
      assert !OwnAction(a, i);
      if Possible(r, a) { PushAnnounced(r, a, i); }
    }
  }

  /** Queued notifications tell of the pushes of others, and no further than the history goes. */
  ghost predicate NewsOk(r: Realtime) {
    forall i, e :: i in r.unbounded && e in r.unbounded[i] && e.Notify? ==>
      e.notification.cuid != i && e.notification.sseq <= |r.sys.server.history|
  }

  /** What an action adds to a queue is a push event or the news of somebody else's push. */
  lemma QueueGrows(r: Realtime, a: Action, i: Cuid, e: Event)
    requires Possible(r, a) && i in Act(r, a).unbounded && e in Act(r, a).unbounded[i]
    ensures (i in r.unbounded && e in r.unbounded[i])
      || e.PushTransaction? || (e.notification.cuid != i && e.notification.sseq == Act(r, a).sys.server.sseq)
  {
    hide Next, RollsBack, ChangesState, Server.Notifies, Replica.NeedPush, Replica.HandleNotification;
  }

  lemma ActGrows(r: Realtime, a: Action)
    requires Inv(r.sys) && Possible(r, a)
    ensures r.sys.server.history <= Act(r, a).sys.server.history
  {
    hide Inv, Next, RollsBack, ChangesState, Server.Notifies, Replica.NeedPush, Replica.HandleNotification;
    match a {
      case User(l) => HistoryGrows(r.sys, l);
      case Serve(i, heir) => HistoryGrows(r.sys, Process(i, heir));
      case Respond(i) => HistoryGrows(r.sys, Deliver(i));
      case ReceiveUnbounded(i) => HistoryGrows(r.sys, Build(i));
      case ReceiveBounded(i) => HistoryGrows(r.sys, Build(i));
      case PushIfNeeded(i) => HistoryGrows(r.sys, Build(i));
      case Sync(_) =>
    }
  }

  lemma StepNews(r: Realtime, a: Action)
    requires NewsOk(r) && Sound(r) && Possible(r, a)
    ensures NewsOk(Act(r, a))
  {
    hide Inv, Members, Exec, Act, Possible;
    StepSound(r, a);
    ServerNumbers(Act(r, a).sys);
    ActGrows(r, a);
    var r' := Act(r, a);
    forall i, e | i in r'.unbounded && e in r'.unbounded[i] && e.Notify?
      ensures e.notification.cuid != i && e.notification.sseq <= |r'.sys.server.history|
    {
      QueueGrows(r, a, i, e);
    }
  }

  lemma ServerNumbers(s: System)
    requires Inv(s)
    ensures s.server.sseq == |s.server.history|
  {
    hide NodeOk;
  }

  lemma {:induction false} RunNews(actions: seq<Action>)
    ensures NewsOk(Run(actions))
  {
    hide Inv, Members, Act, Possible, Exec, Awake, NewsOk;
    if actions == [] {
      NoNews();
    } else {
      RunNews(actions[..|actions| - 1]);
      RunAwake(actions[..|actions| - 1]);
      var r, a := Run(actions[..|actions| - 1]), actions[|actions| - 1];
      if Possible(r, a) { StepNews(r, a); }
    }
  }

  lemma NoNews()
    ensures NewsOk(Realtime(Init(), [], {}, map[]))
  {
  }

  /** And nobody is woken for nothing: no notification makes an up-to-date replica exchange. */
  lemma UpToDateNotWoken(actions: seq<Action>, i: Cuid)
    requires i in Run(actions).sys.nodes
    requires Run(actions).sys.nodes[i].replica.checkpoint.sseq == |Run(actions).sys.server.history|
    ensures !NotificationWaits(Run(actions), i)
  {
    hide Run;
    RunNews(actions);
  }

  // ---- convergence ----

  /** No newcomer is ever given the snapshot of a donor that has stopped or has work pending. */
  predicate QuietDonors(ls: seq<Label>) {
    ls == [] || (QuietDonors(ls[..|ls| - 1]) && !AsksUnquietDonor(Exec(Init(), ls[..|ls| - 1]), ls[|ls| - 1]))
  }

  /** Without losses a creation is never asked for again once it has been served. */
  lemma NeverRepeats(r: Realtime, i: Cuid, heir: Cuid)
    requires Inv(r.sys) && Awake(r)
    ensures !RepeatsCreationLate(r.sys, Process(i, heir))
  {
    hide Inv, NodeOk, BufferOk, WakeOk, Foreign, Aligned;
    if Enabled(r.sys, Process(i, heir)) {
      assert AwakeAt(r, i);
      NodeFacts(r.sys, i);
      RequestIs(r.sys.server, i, r.sys.nodes[i]);
    }
  }

  lemma CleanSnoc(ls: seq<Label>, l: Label)
    requires Clean(Init(), ls)
    requires !RepeatsCreationLate(Exec(Init(), ls), l) && !AsksUnquietDonor(Exec(Init(), ls), l)
    ensures Clean(Init(), ls + [l])
  {
    hide RepeatsCreationLate, AsksUnquietDonor;
    assert (ls + [l])[..|ls|] == ls;
  }

  lemma QuietSnoc(ls: seq<Label>, l: Label)
    requires QuietDonors(ls + [l])
    ensures QuietDonors(ls) && !AsksUnquietDonor(Exec(Init(), ls), l)
  {
    hide AsksUnquietDonor;
    assert (ls + [l])[..|ls|] == ls;
  }

  /** The step's protocol label, if it has one. */
  lemma StepTrace(r: Realtime, a: Action)
    ensures Step(r, a).trace == r.trace || exists l :: Step(r, a).trace == r.trace + [l]
  {
    hide Next, ChangesState, Replica.HandleNotification, Enabled, Server.Notifies, RollsBack, Replica.NeedPush;
    if Possible(r, a) {
      match a {
        case User(l) => assert Step(r, a).trace == r.trace + [l];
        case Serve(i, heir) => assert Step(r, a).trace == r.trace + [Process(i, heir)];
        case Respond(i) => assert Step(r, a).trace == r.trace + [Deliver(i)];
        case _ =>
      }
    }
  }

  lemma {:induction false} RealtimeClean(actions: seq<Action>)
    requires QuietDonors(Run(actions).trace)
    ensures Clean(Init(), Run(actions).trace)
  {
    hide Inv, Members, Step, Exec, QuietDonors, Awake, RepeatsCreationLate, AsksUnquietDonor, Clean;
    if actions == [] {
      NothingUnclean();
    } else {
      var init, a := actions[..|actions| - 1], actions[|actions| - 1];
      var r := Run(init);
      RunAwake(init);
      StepTrace(r, a);
      if Run(actions).trace == r.trace {
        RealtimeClean(init);
      } else {
        var l :| Run(actions).trace == r.trace + [l];
        QuietSnoc(r.trace, l);
        RealtimeClean(init);
        if l.Process? { NeverRepeats(r, l.i, l.heir); } else { OnlyRequestsRepeat(r.sys, l); }
        CleanSnoc(r.trace, l);
      }
    }
  }

  lemma NothingUnclean()
    ensures Run([]).trace == [] && Clean(Init(), [])
  {
  }

  lemma OnlyRequestsRepeat(s: System, l: Label)
    requires !l.Process?
    ensures !RepeatsCreationLate(s, l)
  {
  }

  /** In realtime mode with quiet donors, replicas asleep without an open transaction all hold the sum of
      the whole history. */
  lemma AsleepConverge(actions: seq<Action>, i: Cuid)
    requires QuietDonors(Run(actions).trace)
    requires Asleep(Run(actions), i) && Run(actions).sys.nodes[i].replica.record.pending.None?
    ensures Run(actions).sys.nodes[i].replica.value == Wrap(Total(Run(actions).sys.server.history))
  {
    hide Inv, Members, Exec, Run, QuietDonors, Clean, Total, Wrap, Awake, Node.Unacknowledged;
    RunAwake(actions);
    RealtimeClean(actions);
    AsleepIsCurrent(actions, i);
    var s := Run(actions).sys;
    CleanValue(Run(actions).trace, i);
    assert s.server.history[..|s.server.history|] == s.server.history;
    NothingTotal();
  }

  // ---- what a lost answer costs ----

  /** What the loop of one replica does on its own. */
  predicate OwnAction(a: Action, i: Cuid) {
    a == ReceiveUnbounded(i) || a == ReceiveBounded(i) || a == PushIfNeeded(i)
  }

  predicate AllOwn(own: seq<Action>, i: Cuid) { forall k :: 0 <= k < |own| ==> OwnAction(own[k], i) }

  function Then(r: Realtime, own: seq<Action>): Realtime
    decreases |own|
  {
    if own == [] then r else Then(Step(r, own[0]), own[1..])
  }

  /** Its loop gets to another exchange without anybody else doing anything. */
  ghost predicate ComesBack(r: Realtime, i: Cuid) {
    exists own :: AllOwn(own, i) && i in Then(r, own).sys.nodes && Then(r, own).sys.nodes[i].net.Sent?
  }

  /** It has something to push, or an event queued that makes it exchange. */
  ghost predicate HasReason(r: Realtime, i: Cuid)
    requires i in r.sys.nodes
  {
    || r.sys.nodes[i].replica.NeedPush()
    || i in r.bounded
    || PushTransaction in Queue(r, i)
    || NotificationWaits(r, i)
  }

  lemma ThenCons(r: Realtime, a: Action, own: seq<Action>)
    ensures Then(r, [a] + own) == Then(Step(r, a), own)
  {
    assert ([a] + own)[1..] == own;
  }

  lemma BackOnce(r: Realtime, a: Action, i: Cuid)
    requires OwnAction(a, i) && i in Step(r, a).sys.nodes && Step(r, a).sys.nodes[i].net.Sent?
    ensures ComesBack(r, i)
  {
    hide Step;
    ThenCons(r, a, []);
    var own := [a] + [];
    assert AllOwn(own, i) && Then(r, own) == Step(r, a);
  }

  lemma BackLater(r: Realtime, a: Action, i: Cuid)
    requires OwnAction(a, i) && ComesBack(Step(r, a), i)
    ensures ComesBack(r, i)
  {
    hide Step, OwnAction, Then;
    var own :| AllOwn(own, i) && i in Then(Step(r, a), own).sys.nodes
               && Then(Step(r, a), own).sys.nodes[i].net.Sent?;
    ThenCons(r, a, own);
    var longer := [a] + own;
    assert AllOwn(longer, i);
  }

  /** Any push event starts an exchange of an idle running replica. */
  lemma PushPullSends(r: Realtime, i: Cuid)
    requires Inv(r.sys) && IdleLoop(r, i) && !r.sys.nodes[i].stopped
    ensures i in PushPull(r, i).sys.nodes && PushPull(r, i).sys.nodes[i].net.Sent?
  {
    hide Inv, NodeOk, BufferOk, Node.Build;
    NodeFacts(r.sys, i);
    BuildKeeps(r.sys.server, i, r.sys.nodes[i]);
  }

  lemma ReasonWakes(r: Realtime, i: Cuid)
    requires Inv(r.sys) && IdleLoop(r, i) && !r.sys.nodes[i].stopped && i in r.unbounded
    requires HasReason(r, i)
    ensures ComesBack(r, i)
    decreases |Queue(r, i)|, i !in r.bounded
  {
    hide Inv, Node.Build, Do, ComesBack, Replica.HandleNotification, Replica.NeedPush, Next;
    if r.sys.nodes[i].replica.NeedPush() {
      PushPullSends(r, i);
      BackOnce(r, PushIfNeeded(i), i);
    } else if i in r.bounded {
      PushPullSends(r.(bounded := r.bounded - {i}), i);
      BackOnce(r, ReceiveBounded(i), i);
    } else {
      var a, e := ReceiveUnbounded(i), Queue(r, i)[0];
      if e.PushTransaction? {
        PushPullSends(r.(unbounded := r.unbounded[i := Queue(r, i)[1..]]), i);
        BackOnce(r, a, i);
      } else {
        ReasonStays(r, i);
        ReasonWakes(Step(r, a), i);
        BackLater(r, a, i);
      }
    }
  }

  /** A notification that is dropped was not the reason, and one that counts becomes another. */
  lemma ReasonStays(r: Realtime, i: Cuid)
    requires IdleLoop(r, i) && i in r.unbounded && Queue(r, i) != [] && Queue(r, i)[0].Notify?
    requires HasReason(r, i)
    ensures var r' := Step(r, ReceiveUnbounded(i));
      i in r'.sys.nodes && r'.sys == r.sys && i in r'.unbounded && HasReason(r', i)
      && Queue(r', i) == Queue(r, i)[1..]
  {
    hide Replica.HandleNotification, Replica.NeedPush;
    var r' := Step(r, ReceiveUnbounded(i));
    var q := Queue(r, i);
    if PushTransaction in q { assert PushTransaction in q[1..]; }
    if NotificationWaits(r, i) && !r.sys.nodes[i].replica.HandleNotification(q[0].notification) {
      var k :| 0 <= k < |q| && q[k].Notify? && r.sys.nodes[i].replica.HandleNotification(q[k].notification);
      assert Queue(r', i)[k - 1] == q[k];
    }
  }

  /** Without a reason no action of its own gets a replica anywhere. */
  lemma NoReasonStays(r: Realtime, a: Action, i: Cuid)
    requires IdleLoop(r, i) && !HasReason(r, i) && OwnAction(a, i)
    ensures IdleLoop(Step(r, a), i) && !HasReason(Step(r, a), i)
  {
    hide Replica.HandleNotification, Replica.NeedPush, Next;
    var r' := Step(r, a);
    if a.ReceiveUnbounded? && Queue(r, i) != [] {
      var q := Queue(r, i);
      assert q[0] in q;
      assert Queue(r', i) == q[1..] && forall e :: e in q[1..] ==> e in q;
      assert forall k :: 0 <= k < |q[1..]| ==> q[1..][k] == q[k + 1];
    }
  }

  lemma {:induction false} NoReasonNeverBack(r: Realtime, own: seq<Action>, i: Cuid)
    requires IdleLoop(r, i) && !HasReason(r, i) && AllOwn(own, i)
    ensures IdleLoop(Then(r, own), i)
    decreases |own|
  {
    hide HasReason, Step, OwnAction;
    if own != [] {
      assert OwnAction(own[0], i);
      NoReasonStays(r, own[0], i);
      assert forall k :: 0 <= k < |own[1..]| ==> own[1..][k] == own[k + 1];
      NoReasonNeverBack(Step(r, own[0]), own[1..], i);
    }
  }

  /** The guarantee needs every answer to arrive. After an answer is lost a replica comes back by itself
      exactly when it has something to push or an event queued that counts; otherwise it stays as far
      behind as it is until somebody else does something. */
  lemma LossSurvivedIff(actions: seq<Action>, i: Cuid)
    requires i in Run(actions).sys.nodes && !Run(actions).sys.nodes[i].stopped
    ensures ComesBack(Do(Run(actions), Lose(i)), i) <==> HasReason(Run(actions), i)
  {
    hide Run, Inv, Members, ComesBack, Exec, AwakeAt, Replica.NeedPush, Replica.HandleNotification;
    RunAwake(actions);
    var r := Run(actions);
    var r' := Do(r, Lose(i));
    LoseSound(r, i);
    SameReasons(r, r', i);
    if HasReason(r, i) {
      ReasonWakes(r', i);
    } else {
      NeverBack(r', i);
    }
  }

  lemma LoseSound(r: Realtime, i: Cuid)
    requires Inv(r.sys) && i in r.sys.nodes
    ensures var r' := Do(r, Lose(i));
      && Inv(r'.sys) && IdleLoop(r', i) && r'.sys.nodes[i] == r.sys.nodes[i].(net := Idle)
      && r'.bounded == r.bounded && r'.unbounded == r.unbounded
  {
    hide Inv;
    NextKeeps(r.sys, Lose(i));
  }

  lemma SameReasons(r: Realtime, r': Realtime, i: Cuid)
    requires i in r.sys.nodes && i in r'.sys.nodes && r'.sys.nodes[i].replica == r.sys.nodes[i].replica
    requires r'.bounded == r.bounded && r'.unbounded == r.unbounded
    ensures HasReason(r', i) <==> HasReason(r, i)
  {
    hide Replica.NeedPush, Replica.HandleNotification;
    assert Queue(r', i) == Queue(r, i);
    if NotificationWaits(r, i) {
      var k :| 0 <= k < |Queue(r, i)| && Queue(r, i)[k].Notify?
        && r.sys.nodes[i].replica.HandleNotification(Queue(r, i)[k].notification);
      assert Queue(r', i)[k] == Queue(r, i)[k];
    }
    if NotificationWaits(r', i) {
      var k :| 0 <= k < |Queue(r', i)| && Queue(r', i)[k].Notify?
        && r'.sys.nodes[i].replica.HandleNotification(Queue(r', i)[k].notification);
      assert Queue(r, i)[k] == Queue(r', i)[k];
    }
  }

  lemma NeverBack(r: Realtime, i: Cuid)
    requires IdleLoop(r, i) && !HasReason(r, i)
    ensures !ComesBack(r, i)
  {
    hide HasReason, Then, OwnAction;
    if own :| AllOwn(own, i) && i in Then(r, own).sys.nodes && Then(r, own).sys.nodes[i].net.Sent? {
      NoReasonNeverBack(r, own, i);
      assert false;
    }
  }
}
