/** The event loop of one datatype within a realtime run: each of its turns is a step of the realtime
    machine, so that what is proved of that machine holds of the loop as it is. */
module LoopRefinement {
  import opened Types
  import opened CounterArithmetic
  import opened History
  import opened Replica
  import opened PullHandling
  import opened DatatypeServer
  import opened Protocol
  import opened Invariant
  import opened Delivery
  import opened Requests
  import opened Lamports
  import opened Registration
  import opened Refusals
  import opened Realtime
  import L = EventLoop

  /** A realtime run up to now, the loop of one replica, and the push event whose exchange is under way. */
  datatype Driven = Driven(actions: seq<Action>, loop: L.Loop, busy: Option<(L.Event, L.Source)>)

  /** Somebody else acts, `waiter` being who waits if it is a sync; the loop receives; or its exchange
      ends. */
  datatype Move = Others(a: Action, waiter: Option<nat>) | Receive(pickBounded: bool) | Finish

  function Arrived(queue: seq<Event>, waiter: Option<nat>): seq<L.Event> {
    if queue == [] then []
    else
      Arrived(queue[..|queue| - 1], waiter)
      + [match queue[|queue| - 1] case Notify(n) => L.Notify(n) case PushTransaction => L.PushTransaction(waiter)]
  }

  /** What the loop is told by its surroundings in one turn. */
  function TurnAt(sent: seq<L.Event>, tried: bool, r: Replica, pickBounded: bool, n: Option<Notification>,
                  result: Option<DatatypeError>): L.Turn
  {
    L.Turn(sent, tried, r.NeedPush(), pickBounded, n.Some? && r.HandleNotification(n.value), result)
  }

  function ResultOf(outcome: Outcome): Option<DatatypeError> {
    if outcome.Failed? then Some(outcome.error) else None
  }

  /** The realtime action that taking an event is. */
  function ActionOf(source: L.Source, i: Cuid): Action {
    match source
    case Bounded => ReceiveBounded(i)
    case NeedPush => PushIfNeeded(i)
    case _ => ReceiveUnbounded(i)
  }

  predicate CanMove(d: Driven, m: Move, i: Cuid) {
    var r := Run(d.actions);
    match m
    case Others(a, _) =>
      Possible(r, a) && !OwnAction(a, i) && a != Respond(i)
    case Receive(_) => d.busy.None? && IdleLoop(r, i)
    case Finish => d.busy.Some? && Enabled(r.sys, Deliver(i))
  }

  function TakeOthers(d: Driven, a: Action, waiter: Option<nat>, i: Cuid): Driven {
    var r, r' := Run(d.actions), Step(Run(d.actions), a);
    var before, after := Queue(r, i), Queue(r', i);
    var sent := if |before| <= |after| then Arrived(after[|before|..], waiter) else [];
    Driven(d.actions + [a], d.loop.Arrive(L.Turn(sent, i in r'.bounded && i !in r.bounded, false, false, false, None)),
           d.busy)
  }

  function TakeReceive(d: Driven, pickBounded: bool, i: Cuid): Driven
    requires IdleLoop(Run(d.actions), i)
  {
    var r := Run(d.actions).sys.nodes[i].replica;
    var (l, received) := d.loop.Receive(TurnAt([], false, r, pickBounded, None, None));
    match received
    case None => d
    case Some((e, source)) =>
      var n := if e.Notify? then Some(e.notification) else None;
      var handled := l.Handle(e, source, TurnAt([], false, r, pickBounded, n, None));
      if source.Timer? then Driven(d.actions, handled, None)
      else if e.PushTransaction? && !l.mode.Stopped? then
        Driven(d.actions + [ActionOf(source, i)], l, Some((e, source)))
      else Driven(d.actions + [ActionOf(source, i)], handled, None)
  }

  function TakeFinish(d: Driven, i: Cuid): Driven
    requires d.busy.Some? && Enabled(Run(d.actions).sys, Deliver(i))
  {
    var n := Run(d.actions).sys.nodes[i];
    var t := TurnAt([], false, n.replica, false, None, ResultOf(AfterPull(n.replica, n.net.answer).1));
    Driven(d.actions + [Respond(i)], d.loop.Handle(d.busy.value.0, d.busy.value.1, t), None)
  }

  function Take(d: Driven, m: Move, i: Cuid): Driven
    requires CanMove(d, m, i)
  {
    match m
    case Others(a, waiter) => TakeOthers(d, a, waiter, i)
    case Receive(pickBounded) => TakeReceive(d, pickBounded, i)
    case Finish => TakeFinish(d, i)
  }

  /** The loop from its start on, right after its replica has been registered. */
  function Drive(start: seq<Action>, moves: seq<Move>, i: Cuid): Driven {
    if moves == [] then Driven(start, L.FRESH, None)
    else
      var d, m := Drive(start, moves[..|moves| - 1], i), moves[|moves| - 1];
      if CanMove(d, m, i) then Take(d, m, i) else d
  }

  predicate Starts(start: seq<Action>, i: Cuid) {
    && start != []
    && var r, a := Run(start[..|start| - 1]), start[|start| - 1];
       a.User? && a.l.Register? && a.l.i == i && Possible(r, a)
  }

  // ---- the loop and the machine agree ----

  predicate SameEvent(e: L.Event, e': Event) {
    match e
    case PushTransaction(_) => e'.PushTransaction?
    case Notify(n) => e' == Notify(n)
    case _ => false
  }

  ghost predicate SameQueue(queue: seq<L.Event>, queue': seq<Event>) {
    |queue| == |queue'| && forall k :: 0 <= k < |queue| ==> SameEvent(queue[k], queue'[k])
  }

  ghost predicate Agrees(l: L.Loop, busy: Option<(L.Event, L.Source)>, r: Realtime, i: Cuid) {
    && i in r.sys.nodes && i in r.unbounded && !l.quit
    && SameQueue(l.unbounded, r.unbounded[i])
    && (l.bounded <==> i in r.bounded)
    && (l.mode.Stopped? <==> r.sys.nodes[i].stopped)
    && (busy.None? <==> r.sys.nodes[i].net.Idle?)
    && (busy.Some? ==> busy.value.0.PushTransaction? && !l.mode.Stopped?)
  }

  ghost predicate Match(d: Driven, i: Cuid) { Agrees(d.loop, d.busy, Run(d.actions), i) }

  lemma {:induction false} ArrivedSame(queue: seq<Event>, waiter: Option<nat>)
    ensures SameQueue(Arrived(queue, waiter), queue)
  {
    if queue != [] {
      ArrivedSame(queue[..|queue| - 1], waiter);
    }
  }

  lemma SameAppend(a: seq<L.Event>, a': seq<Event>, b: seq<L.Event>, b': seq<Event>)
    requires SameQueue(a, a') && SameQueue(b, b')
    ensures SameQueue(a + b, a' + b')
  {
  }

  lemma RunSnoc(actions: seq<Action>, a: Action)
    ensures Run(actions + [a]) == Step(Run(actions), a)
  {
    hide Step;
    assert (actions + [a])[..|actions|] == actions;
  }

  /** What anybody else does to a replica: its queue may grow, its bounded channel may be filled, its
      request may be served, and nothing is taken from it. */
  lemma OthersLeave(r: Realtime, a: Action, i: Cuid)
    requires Possible(r, a) && !OwnAction(a, i) && a != Respond(i)
    requires i in r.sys.nodes && i in r.unbounded
    ensures var r' := Act(r, a);
      && i in r'.sys.nodes && i in r'.unbounded
      && r.unbounded[i] <= r'.unbounded[i]
      && (i in r.bounded ==> i in r'.bounded)
      && r'.sys.nodes[i].stopped == r.sys.nodes[i].stopped
      && (r'.sys.nodes[i].net.Idle? <==> r.sys.nodes[i].net.Idle?)
  {
    hide Node.Deliver, Node.Finish, Node.Build, Server.Notifies, Replica.HandleNotification, RollsBack, ChangesState;
    if a.User? { UserLeaves(r.sys, a.l, i); }
    if a.Serve? { ServeLeaves(r.sys, a.i, a.heir, i); }
  }

  lemma UserLeaves(s: System, l: Label, i: Cuid)
    requires Enabled(s, l) && i in s.nodes
    requires l.Register? || l.LocalOp? || l.Commit? || l.Abort? || l.Unsubscribe?
    ensures var s' := Next(s, l);
      && i in s'.nodes && s'.nodes[i].stopped == s.nodes[i].stopped && s'.nodes[i].net == s.nodes[i].net
  {
  }

  lemma ServeLeaves(s: System, j: Cuid, heir: Cuid, i: Cuid)
    requires Enabled(s, Process(j, heir)) && i in s.nodes
    ensures var s' := Next(s, Process(j, heir));
      && i in s'.nodes && s'.nodes[i].stopped == s.nodes[i].stopped
      && (s'.nodes[i].net.Idle? <==> s.nodes[i].net.Idle?)
  {
    hide Server.Process;
  }

  lemma OthersMatch(d: Driven, a: Action, waiter: Option<nat>, i: Cuid)
    requires Match(d, i) && CanMove(d, Others(a, waiter), i)
    ensures Match(TakeOthers(d, a, waiter, i), i)
  {
    hide Run, Act, Possible, OwnAction, Arrived, SameQueue;
    var r := Run(d.actions);
    RunSnoc(d.actions, a);
    OthersLeave(r, a, i);
    var more := Act(r, a).unbounded[i][|r.unbounded[i]|..];
    ArrivedSame(more, waiter);
    SameAppend(d.loop.unbounded, r.unbounded[i], Arrived(more, waiter), more);
    assert r.unbounded[i] + more == Act(r, a).unbounded[i];
  }

  /** Taking a push event, a running replica sends its request. */
  lemma PushBegins(r: Realtime, r0: Realtime, i: Cuid)
    requires Inv(r.sys) && IdleLoop(r, i) && r0.sys == r.sys
    ensures var r' := PushPull(r0, i);
      && i in r'.sys.nodes && r'.bounded == r0.bounded && r'.unbounded == r0.unbounded
      && r'.sys.nodes[i].stopped == r.sys.nodes[i].stopped
      && (r'.sys.nodes[i].net.Idle? <==> r.sys.nodes[i].stopped)
  {
    hide Inv, Node.Build, NodeOk;
    NodeFacts(r.sys, i);
    if !r.sys.nodes[i].stopped {
      BuildKeeps(r.sys.server, i, r.sys.nodes[i]);
      BuildLeaves(r.sys.nodes[i]);
    }
  }

  lemma BuildLeaves(n: Node)
    requires n.Build().net.Sent?
    ensures n.Build().stopped == n.stopped
  {
  }

  lemma TailSame(queue: seq<L.Event>, queue': seq<Event>)
    requires SameQueue(queue, queue') && queue != []
    ensures queue' != [] && SameEvent(queue[0], queue'[0]) && SameQueue(queue[1..], queue'[1..])
  {
  }

  /** What the loop receives is what the realtime action takes, and the action is possible. */
  lemma ReceiveIsAction(l: L.Loop, r: Realtime, i: Cuid, t: L.Turn)
    requires Agrees(l, None, r, i) && t.needPush == r.sys.nodes[i].replica.NeedPush()
    requires l.Receive(t).1.Some? && !l.Receive(t).1.value.1.Timer?
    ensures var (l1, received) := l.Receive(t);
      var (e, source) := received.value;
      && Possible(r, ActionOf(source, i))
      && l1.mode == l.mode && !l1.quit
      && (source.NeedPush? ==> e == L.PushTransaction(None) && l1 == l && !l.mode.Stopped?)
      && (source.Bounded? ==> e == L.PushTransaction(None) && l1 == l.(bounded := false))
      && (source.Unbounded? ==>
            l.unbounded != [] && e == l.unbounded[0] && l1.unbounded == l.unbounded[1..] && l1.bounded == l.bounded)
  {
    hide L.Delay, Replica.NeedPush, SameEvent;
  }

  lemma ReceiveMatch(d: Driven, pickBounded: bool, i: Cuid)
    requires Match(d, i) && CanMove(d, Receive(pickBounded), i) && Inv(Run(d.actions).sys)
    ensures Match(TakeReceive(d, pickBounded, i), i)
  {
    hide Run, Inv, Act, Possible, SameQueue, SameEvent, L.Loop.Receive, L.Loop.Handle;
    hide Replica.NeedPush, Replica.HandleNotification, Agrees;
    var r := Run(d.actions);
    var t := TurnAt([], false, r.sys.nodes[i].replica, pickBounded, None, None);
    assert Agrees(d.loop, None, r, i);
    var (l, received) := d.loop.Receive(t);
    if received.Some? {
      var (e, source) := received.value;
      if source.Timer? {
        TimerMatch(d.loop, r, i, t, TurnAt([], false, r.sys.nodes[i].replica, pickBounded, None, None));
      } else {
        ReceiveIsAction(d.loop, r, i, t);
        RunSnoc(d.actions, ActionOf(source, i));
        var n := if e.Notify? then Some(e.notification) else None;
        EventMatch(d.loop, r, i, t, TurnAt([], false, r.sys.nodes[i].replica, pickBounded, n, None));
      }
    }
  }

  lemma TimerMatch(l: L.Loop, r: Realtime, i: Cuid, t: L.Turn, t': L.Turn)
    requires Agrees(l, None, r, i) && l.Receive(t).1.Some? && l.Receive(t).1.value.1.Timer?
    ensures var (l1, received) := l.Receive(t);
      !received.value.0.PushTransaction? && !received.value.0.Notify?
      && Agrees(l1.Handle(received.value.0, received.value.1, t'), None, r, i)
  {
    hide L.Delay, SameQueue;
  }

  lemma EventMatch(l: L.Loop, r: Realtime, i: Cuid, t: L.Turn, t': L.Turn)
    requires Agrees(l, None, r, i) && Inv(r.sys) && IdleLoop(r, i)
    requires t.needPush == r.sys.nodes[i].replica.NeedPush()
    requires l.Receive(t).1.Some? && !l.Receive(t).1.value.1.Timer?
    requires var e := l.Receive(t).1.value.0;
      e.Notify? ==> t'.notificationWakes == r.sys.nodes[i].replica.HandleNotification(e.notification)
    ensures var (l1, received) := l.Receive(t);
      var (e, source) := received.value;
      && Possible(r, ActionOf(source, i))
      && (if e.PushTransaction? && !l1.mode.Stopped?
          then Agrees(l1, Some((e, source)), Act(r, ActionOf(source, i)), i)
          else Agrees(l1.Handle(e, source, t'), None, Act(r, ActionOf(source, i)), i))
  {
    hide Inv, SameQueue, SameEvent, L.Loop.Receive, L.Loop.Handle, Act, Agrees, Possible;
    hide Replica.NeedPush, Replica.HandleNotification;
    ReceiveIsAction(l, r, i, t);
    var (l1, received) := l.Receive(t);
    var (e, source) := received.value;
    if e.PushTransaction? {
      PushMatch(l, l1, r, i, e, source, t');
    } else {
      NotifyMatch(l, l1, r, i, e, t');
    }
  }

  lemma PushMatch(l: L.Loop, l1: L.Loop, r: Realtime, i: Cuid, e: L.Event, source: L.Source, t: L.Turn)
    requires Agrees(l, None, r, i) && Inv(r.sys) && IdleLoop(r, i) && e.PushTransaction? && !source.Timer?
    requires Possible(r, ActionOf(source, i)) && l1.mode == l.mode && !l1.quit
    requires source.NeedPush? ==> l1 == l
    requires source.Bounded? ==> l1 == l.(bounded := false)
    requires source.Unbounded? ==>
      l.unbounded != [] && e == l.unbounded[0] && l1.unbounded == l.unbounded[1..] && l1.bounded == l.bounded
    ensures if !l1.mode.Stopped?
            then Agrees(l1, Some((e, source)), Act(r, ActionOf(source, i)), i)
            else Agrees(l1.Handle(e, source, t), None, Act(r, ActionOf(source, i)), i)
  {
    hide Inv, SameQueue, PushPull, Replica.NeedPush, Replica.HandleNotification, IdleLoop;
    if source.Unbounded? {
      TailSame(l.unbounded, r.unbounded[i]);
      PushBegins(r, r.(unbounded := r.unbounded[i := Queue(r, i)[1..]]), i);
    } else if source.Bounded? {
      PushBegins(r, r.(bounded := r.bounded - {i}), i);
    } else {
      PushBegins(r, r, i);
    }
  }

  lemma NotifyMatch(l: L.Loop, l1: L.Loop, r: Realtime, i: Cuid, e: L.Event, t: L.Turn)
    requires Agrees(l, None, r, i) && IdleLoop(r, i) && !e.PushTransaction?
    requires Possible(r, ReceiveUnbounded(i)) && l1.mode == l.mode && !l1.quit
    requires l.unbounded != [] && e == l.unbounded[0] && l1.unbounded == l.unbounded[1..] && l1.bounded == l.bounded
    requires e.Notify? ==> t.notificationWakes == r.sys.nodes[i].replica.HandleNotification(e.notification)
    ensures Agrees(l1.Handle(e, L.Unbounded, t), None, Act(r, ReceiveUnbounded(i)), i)
  {
    hide SameQueue, PushPull, Replica.HandleNotification;
    TailSame(l.unbounded, r.unbounded[i]);
  }

  /** The loop takes the mode its exchange calls for, and the replica stops when the loop does. */
  lemma FinishMatch(d: Driven, i: Cuid)
    requires Match(d, i) && CanMove(d, Finish, i) && Inv(Run(d.actions).sys)
    ensures Match(TakeFinish(d, i), i)
  {
    hide Run, Inv, SameQueue, AfterPull, NodeOk, L.ModeAfterExchange;
    var r := Run(d.actions);
    var n := r.sys.nodes[i];
    RunSnoc(d.actions, Respond(i));
    NodeFacts(r.sys, i);
    NeverUnimplemented(r.sys.server, i, n);
    DeliverEnds(n);
    ModeIsEnd(AfterPull(n.replica, n.net.answer).1, d.busy.value.1);
  }

  lemma DeliverEnds(n: Node)
    requires n.net.Answered? && !ApplyPull(n.replica, n.net.answer).1.Unimplemented?
    ensures n.Deliver().stopped == Stops(AfterPull(n.replica, n.net.answer).1) && n.Deliver().net.Idle?
    ensures !AfterPull(n.replica, n.net.answer).1.Unimplemented?
  {
    hide ApplyPull, Node.Settled, Node.PendingDelta;
  }

  /** An exchange puts the loop out of action exactly when its outcome stops the replica. */
  lemma ModeIsEnd(outcome: Outcome, source: L.Source)
    requires !outcome.Unimplemented?
    ensures L.ModeAfterExchange(ResultOf(outcome)).Stopped? <==> Stops(outcome)
    ensures L.Fatal(L.Exchanged(source, ResultOf(outcome))) <==> Stops(outcome)
  {
  }

  /** What the loop does after an exchange is decided by the answer: it backs off when it is told to try
      again, stops when it is refused or the answer no longer fits, and goes on as usual otherwise. */
  lemma ModeAfterAnswer(start: seq<Action>, moves: seq<Move>, i: Cuid)
    requires Starts(start, i) && CanMove(Drive(start, moves, i), Finish, i)
    ensures var d := Drive(start, moves, i);
      var n, mode := Run(d.actions).sys.nodes[i], TakeFinish(d, i).loop.mode;
      && (mode.BackOff? <==> n.net.answer.error == Some(ServerInternalError))
      && (mode.Stopped? <==>
            Refuses(n.net.answer)
            || (n.net.answer.error.None? && n.net.answer.state != ExpectedState(n.replica.state)))
  {
    hide Run, Drive, Inv, Match, TakeFinish, AfterPull, NodeOk, Starts, Refuses, ExpectedState, ResultOf;
    hide L.ModeAfterExchange, Node.Deliver;
    var d := Drive(start, moves, i);
    DriveMatches(start, moves, i);
    RunAwake(d.actions);
    var r := Run(d.actions);
    NodeFacts(r.sys, i);
    StopsIff(r.sys.server, i, r.sys.nodes[i]);
    AnswerMode(r.sys.server, i, r.sys.nodes[i]);
    FinishTakes(d, i);
  }

  lemma AnswerMode(server: Server, i: Cuid, n: Node)
    requires NodeOk(server, i, n) && n.net.Answered?
    ensures var mode := L.ModeAfterExchange(ResultOf(AfterPull(n.replica, n.net.answer).1));
      && (mode.Stopped? <==> n.Deliver().stopped)
      && (mode.BackOff? <==> n.net.answer.error == Some(ServerInternalError))
  {
    hide AfterPull, ApplyPull, NodeOk, L.ModeAfterExchange, ResultOf, Node.Deliver, Stops;
    NeverUnimplemented(server, i, n);
    DeliverEnds(n);
    ModeIsEnd(AfterPull(n.replica, n.net.answer).1, L.Unbounded);
    TransientIs(n);
  }

  lemma FinishTakes(d: Driven, i: Cuid)
    requires Match(d, i) && CanMove(d, Finish, i)
    ensures var n := Run(d.actions).sys.nodes[i];
      TakeFinish(d, i).loop.mode == L.ModeAfterExchange(ResultOf(AfterPull(n.replica, n.net.answer).1))
  {
    hide Run, AfterPull, L.ModeAfterExchange, ResultOf, SameQueue;
  }

  lemma TransientIs(n: Node)
    requires n.net.Answered? && !ApplyPull(n.replica, n.net.answer).1.Unimplemented?
    ensures L.ModeAfterExchange(ResultOf(AfterPull(n.replica, n.net.answer).1)).BackOff?
      <==> n.net.answer.error == Some(ServerInternalError)
  {
    hide Absorb;
  }

  lemma StartMatch(start: seq<Action>, i: Cuid)
    requires Starts(start, i)
    ensures Match(Driven(start, L.FRESH, None), i)
  {
    hide Run;
    var init, a := start[..|start| - 1], start[|start| - 1];
    assert init + [a] == start;
    RunSnoc(init, a);
  }

  lemma {:induction false} DriveMatches(start: seq<Action>, moves: seq<Move>, i: Cuid)
    requires Starts(start, i)
    ensures Match(Drive(start, moves, i), i)
  {
    hide Run, Inv, Match, TakeOthers, TakeReceive, TakeFinish, Starts, Possible, IdleLoop, Enabled;
    if moves == [] {
      StartMatch(start, i);
    } else {
      var d, m := Drive(start, moves[..|moves| - 1], i), moves[|moves| - 1];
      DriveMatches(start, moves[..|moves| - 1], i);
      RunAwake(d.actions);
      if CanMove(d, m, i) {
        match m {
          case Others(a, waiter) => OthersMatch(d, a, waiter, i);
          case Receive(pickBounded) => ReceiveMatch(d, pickBounded, i);
          case Finish => FinishMatch(d, i);
        }
      }
    }
  }

  // ---- what holds of the loop ----

  /** An event in the loop's own channels that makes its replica exchange. */
  predicate Calls(e: L.Event, r: Replica) {
    e.PushTransaction? || (e.Notify? && r.HandleNotification(e.notification))
  }

  /** No lost wakeup in the loop itself: while its replica is registered, subscribed and behind the server,
      the loop has stopped, or is exchanging, or has an event in one of its channels that makes it exchange. */
  lemma LoopNeverSleepsBehind(start: seq<Action>, moves: seq<Move>, i: Cuid)
    requires Starts(start, i)
    requires var s := Run(Drive(start, moves, i).actions).sys;
      && i in s.nodes && i in s.server.wired && s.nodes[i].replica.state.Subscribed?
      && s.nodes[i].replica.checkpoint.sseq < s.server.sseq
    ensures var d := Drive(start, moves, i);
      var r := Run(d.actions).sys.nodes[i].replica;
      || d.loop.mode.Stopped? || d.busy.Some? || d.loop.bounded
      || exists k :: 0 <= k < |d.loop.unbounded| && Calls(d.loop.unbounded[k], r)
  {
    hide Run, Drive, Inv, Starts, Replica.HandleNotification, Members, Awake;
    DriveMatches(start, moves, i);
    var d := Drive(start, moves, i);
    var r := Run(d.actions);
    if !r.sys.nodes[i].stopped {
      NoLostWakeup(d.actions, i);
      if PushTransaction in Queue(r, i) {
        var k :| 0 <= k < |Queue(r, i)| && Queue(r, i)[k] == PushTransaction;
        assert SameEvent(d.loop.unbounded[k], Queue(r, i)[k]);
        assert Calls(d.loop.unbounded[k], r.sys.nodes[i].replica);
      } else if NotificationWaits(r, i) {
        var k :| 0 <= k < |Queue(r, i)| && Queue(r, i)[k].Notify?
          && r.sys.nodes[i].replica.HandleNotification(Queue(r, i)[k].notification);
        assert SameEvent(d.loop.unbounded[k], Queue(r, i)[k]);
        assert Calls(d.loop.unbounded[k], r.sys.nodes[i].replica);
      }
    }
  }

  /** So a loop that runs, with empty channels, no exchange under way and nothing to push, has an up-to-date
      replica with nothing unacknowledged. */
  lemma IdleLoopIsCurrent(start: seq<Action>, moves: seq<Move>, i: Cuid)
    requires Starts(start, i)
    requires var d := Drive(start, moves, i);
      var s := Run(d.actions).sys;
      && !d.loop.mode.Stopped? && d.busy.None? && !d.loop.bounded && d.loop.unbounded == []
      && i in s.nodes && i in s.server.wired && s.nodes[i].replica.state.Subscribed?
      && !s.nodes[i].replica.NeedPush()
    ensures var s := Run(Drive(start, moves, i).actions).sys;
      && s.nodes[i].replica.checkpoint.sseq == |s.server.history|
      && s.nodes[i].Unacknowledged() == []
  {
    hide Run, Drive, Starts, Replica.NeedPush, Node.Unacknowledged;
    DriveMatches(start, moves, i);
    AsleepIsCurrent(Drive(start, moves, i).actions, i);
  }

  predicate OnlyOthers(moves: seq<Move>) { forall k :: 0 <= k < |moves| ==> moves[k].Others? }

  /** While only others move, the run grows by their actions alone. */
  lemma {:induction false} OthersExtend(start: seq<Action>, moves: seq<Move>, others: seq<Move>, i: Cuid)
    returns (more: seq<Action>)
    requires OnlyOthers(others)
    ensures Drive(start, moves + others, i).actions == Drive(start, moves, i).actions + more
    ensures forall k :: 0 <= k < |more| ==> !OwnAction(more[k], i)
  {
    hide Run, OwnAction, Possible, TakeReceive, TakeFinish;
    if others == [] {
      assert moves + others == moves;
      more := [];
    } else {
      var init, m := others[..|others| - 1], others[|others| - 1];
      assert forall k :: 0 <= k < |init| ==> init[k] == others[k];
      more := OthersExtend(start, moves, init, i);
      assert (moves + others)[..|moves + others| - 1] == moves + init;
      var d := Drive(start, moves + init, i);
      if CanMove(d, m, i) {
        assert (Drive(start, moves, i).actions + more) + [m.a] == Drive(start, moves, i).actions + (more + [m.a]);
        more := more + [m.a];
      }
    }
  }

  /** A loop that blocks in normal mode, whatever others do meanwhile, is given an event as soon as its
      replica has something to push. */
  lemma BlockedLoopIsWoken(start: seq<Action>, moves: seq<Move>, others: seq<Move>, i: Cuid)
    requires Starts(start, i) && OnlyOthers(others)
    requires var d := Drive(start, moves, i);
      && CanMove(d, Receive(false), i) && d.loop.mode.Normal?
      && d.loop.Receive(TurnAt([], false, Run(d.actions).sys.nodes[i].replica, false, None, None)).1.None?
    ensures var d := Drive(start, moves + others, i);
      && i in Run(d.actions).sys.nodes
      && (Run(d.actions).sys.nodes[i].replica.NeedPush() ==> d.loop.bounded)
  {
    hide Run, Drive, Starts, OnlyOthers, OwnAction, Replica.NeedPush, Replica.HandleNotification, L.Loop.Receive;
    var d := Drive(start, moves, i);
    L.BlocksIff(d.loop, TurnAt([], false, Run(d.actions).sys.nodes[i].replica, false, None, None));
    var more := OthersExtend(start, moves, others, i);
    WaitingIsWoken(d.actions, more, i);
    DriveMatches(start, moves + others, i);
  }
}
