/** The event loop of one datatype: which events it takes in which mode, when it exchanges with the
    server, and what it answers to those who wait for a sync. */
module EventLoop {
  import opened Types

  datatype LoopMode = Normal | BackOff | Stopped

  function ModeOf(recovery: RecoveryAction): LoopMode {
    match recovery
    case NotifyOnly => Normal
    case Resubscribe => Normal
    case RetryWithBackOff => BackOff
    case ResubscribeWithBackOff => BackOff
    case Disable => Stopped
    case RollbackTransaction => Normal
  }

  function ModeAfterExchange(result: Option<DatatypeError>): LoopMode {
    match result
    case None => Normal
    case Some(e) => ModeOf(e.Recovery())
  }

  /** A push event carries whoever waits for its outcome. */
  datatype Event = Stop | PushTransaction(waiter: Option<nat>) | TimedOut | Notify(notification: Notification)

  datatype Source = Unbounded | Bounded | NeedPush | Timer

  /** The waiter of one event. */
  function WaiterOf(e: Event): seq<nat> {
    if e.PushTransaction? && e.waiter.Some? then [e.waiter.value] else []
  }

  /** What happens around one turn of the loop: events sent to the unbounded channel, a best-effort
      push to the bounded one, and the outcomes of whatever the loop asks its surroundings. */
  datatype Turn = Turn(
    sent: seq<Event>,
    tried: bool,
    needPush: bool,
    pickBounded: bool,
    notificationWakes: bool,
    result: Option<DatatypeError>)

  datatype Reply = Outcome(error: Option<DatatypeError>) | LoopStopped

  /** What the loop has done, in order. */
  datatype Deed =
    | Waited(milliseconds: nat)
    | TimerFired
    | Exchanged(source: Source, result: Option<DatatypeError>)
    | Replied(waiter: nat, reply: Reply)

  const BACKOFF_MIN_DELAY: nat := 500
  const BACKOFF_MAX_DELAY: nat := 30_000

  function Doubled(delay: nat, times: nat): nat {
    if times == 0 then delay else 2 * Doubled(delay, times - 1)
  }

  /** The delay of the `k`-th wait of one back-off. */
  function Delay(k: nat): nat {
    var d := Doubled(BACKOFF_MIN_DELAY, k);
    if d > BACKOFF_MAX_DELAY then BACKOFF_MAX_DELAY else d
  }

  datatype Loop = Loop(
    mode: LoopMode,
    waits: nat,
    bounded: bool,
    unbounded: seq<Event>,
    quit: bool,
    deeds: seq<Deed>)
  {
    function Arrive(t: Turn): Loop {
      this.(unbounded := unbounded + t.sent, bounded := bounded || t.tried)
    }

    function FromUnbounded(): (Loop, Option<(Event, Source)>)
      requires unbounded != []
    {
      (this.(unbounded := unbounded[1..]), Some((unbounded[0], Unbounded)))
    }

    /** The event taken, or none while the loop blocks. */
    function Receive(t: Turn): (Loop, Option<(Event, Source)>) {
      match mode
      case BackOff =>
        var waiting := this.(waits := waits + 1, deeds := deeds + [Waited(Delay(waits))]);
        if unbounded != [] then waiting.FromUnbounded()
        else (waiting.(mode := Normal, deeds := waiting.deeds + [TimerFired]), Some((TimedOut, Timer)))
      case _ =>
        if mode.Normal? && t.needPush then (this, Some((PushTransaction(None), NeedPush)))
        else if bounded && (t.pickBounded || unbounded == []) then
          (this.(bounded := false), Some((PushTransaction(None), Bounded)))
        else if unbounded != [] then FromUnbounded()
        else (this, None)
    }

    function Reply(waiter: Option<nat>, reply: Reply): Loop {
      match waiter
      case None => this
      case Some(w) => this.(deeds := deeds + [Replied(w, reply)])
    }

    function Push(waiter: Option<nat>, source: Source, t: Turn): Loop {
      if mode.Stopped? then Reply(waiter, LoopStopped)
      else
        var m := ModeAfterExchange(t.result);
        this.(mode := m, waits := if m.BackOff? then waits else 0, deeds := deeds + [Exchanged(source, t.result)])
          .Reply(waiter, Outcome(t.result))
    }

    function Handle(e: Event, source: Source, t: Turn): Loop {
      match e
      case Stop => this.(quit := true)
      case PushTransaction(waiter) => Push(waiter, source, t)
      case TimedOut => this
      case Notify(_) => if t.notificationWakes then this.(bounded := true) else this
    }

    function Take(t: Turn): Loop {
      if quit then this
      else
        var (l, received) := Arrive(t).Receive(t);
        match received
        case None => l
        case Some((e, source)) => l.Handle(e, source, t)
    }
  }

  const FRESH := Loop(Normal, 0, false, [], false, [])

  function After(turns: seq<Turn>): Loop {
    if turns == [] then FRESH else After(turns[..|turns| - 1]).Take(turns[|turns| - 1])
  }

  // ---- what every trace keeps ----

  /** The mode the deeds so far put the loop in. */
  function ModeBy(deeds: seq<Deed>): LoopMode {
    if deeds == [] then Normal
    else
      match deeds[|deeds| - 1]
      case TimerFired => Normal
      case Exchanged(_, result) => ModeAfterExchange(result)
      case _ => ModeBy(deeds[..|deeds| - 1])
  }

  /** How often it has waited since the last result that was not transient. */
  function WaitsBy(deeds: seq<Deed>): nat {
    if deeds == [] then 0
    else
      var before := WaitsBy(deeds[..|deeds| - 1]);
      match deeds[|deeds| - 1]
      case Waited(_) => before + 1
      case Exchanged(_, _) => if Transient(deeds[|deeds| - 1]) then before else 0
      case _ => before
  }

  /** Every wait is the next longer one of its back-off. */
  ghost predicate WaitsOk(deeds: seq<Deed>) {
    forall k :: 0 <= k < |deeds| && deeds[k].Waited? ==> deeds[k].milliseconds == Delay(WaitsBy(deeds[..k]))
  }

  lemma WaitsSnoc(deeds: seq<Deed>, d: Deed)
    requires WaitsOk(deeds) && (d.Waited? ==> d.milliseconds == Delay(WaitsBy(deeds)))
    ensures WaitsOk(deeds + [d])
    ensures WaitsBy(deeds + [d]) ==
      (match d
       case Waited(_) => WaitsBy(deeds) + 1
       case Exchanged(_, _) => if Transient(d) then WaitsBy(deeds) else 0
       case _ => WaitsBy(deeds))
  {
    assert (deeds + [d])[..|deeds|] == deeds;
    forall k | 0 <= k < |deeds + [d]| && (deeds + [d])[k].Waited?
      ensures (deeds + [d])[k].milliseconds == Delay(WaitsBy((deeds + [d])[..k]))
    {
      if k < |deeds| { assert (deeds + [d])[..k] == deeds[..k]; }
    }
  }

  lemma ModeSnoc(deeds: seq<Deed>, d: Deed)
    ensures ModeBy(deeds + [d]) ==
      (match d case TimerFired => Normal case Exchanged(_, result) => ModeAfterExchange(result) case _ => ModeBy(deeds))
  {
    assert (deeds + [d])[..|deeds|] == deeds;
  }

  /** No exchange when stopped, in back-off only one from the unbounded channel, a wait and its timer
      only in back-off. */
  predicate DeedOk(before: LoopMode, d: Deed) {
    match d
    case Exchanged(source, _) => !before.Stopped? && (before.BackOff? ==> source.Unbounded?)
    case TimerFired => before.BackOff?
    case Waited(_) => before.BackOff?
    case Replied(_, reply) => reply.LoopStopped? ==> before.Stopped?
  }

  ghost predicate DeedsOk(deeds: seq<Deed>) {
    forall k :: 0 <= k < |deeds| ==> DeedOk(ModeBy(deeds[..k]), deeds[k])
  }

  lemma DeedsSnoc(deeds: seq<Deed>, d: Deed)
    requires DeedsOk(deeds) && DeedOk(ModeBy(deeds), d)
    ensures DeedsOk(deeds + [d])
  {
    hide ModeBy, DeedOk;
    forall k | 0 <= k < |deeds + [d]|
      ensures DeedOk(ModeBy((deeds + [d])[..k]), (deeds + [d])[k])
    {
      assert (deeds + [d])[..k] == deeds[..k];
      if k == |deeds| { assert deeds[..k] == deeds; }
    }
  }

  /** Who waits is told the outcome of the exchange made for them. */
  ghost predicate RepliesOk(deeds: seq<Deed>) {
    forall k :: 0 <= k < |deeds| && deeds[k].Replied? && deeds[k].reply.Outcome? ==>
      k > 0 && deeds[k - 1] == Exchanged(Unbounded, deeds[k].reply.error)
  }

  ghost predicate LoopOk(l: Loop) {
    && DeedsOk(l.deeds) && RepliesOk(l.deeds) && l.mode == ModeBy(l.deeds)
    && WaitsOk(l.deeds) && l.waits == WaitsBy(l.deeds)
  }

  lemma ReceiveOk(l: Loop, t: Turn)
    requires LoopOk(l)
    ensures LoopOk(l.Receive(t).0)
    ensures l.Receive(t).1.Some? ==>
      var (e, source) := l.Receive(t).1.value;
      && (l.Receive(t).0.mode.BackOff? ==> source.Unbounded?)
      && (WaiterOf(e) != [] ==> source.Unbounded?)
  {
    hide DeedsOk, ModeBy, WaitsOk, WaitsBy, Delay;
    if l.mode.BackOff? {
      var w := Waited(Delay(l.waits));
      DeedsSnoc(l.deeds, w);
      ModeSnoc(l.deeds, w);
      WaitsSnoc(l.deeds, w);
      if l.unbounded == [] {
        DeedsSnoc(l.deeds + [w], TimerFired);
        ModeSnoc(l.deeds + [w], TimerFired);
        WaitsSnoc(l.deeds + [w], TimerFired);
      }
    }
  }

  lemma HandleOk(l: Loop, e: Event, source: Source, t: Turn)
    requires LoopOk(l) && (l.mode.BackOff? || WaiterOf(e) != [] ==> source.Unbounded?)
    ensures LoopOk(l.Handle(e, source, t))
  {
    hide DeedsOk, ModeBy, WaitsOk, WaitsBy;
    if e.PushTransaction? {
      var d := Exchanged(source, t.result);
      var before := if l.mode.Stopped? then l.deeds else l.deeds + [d];
      if !l.mode.Stopped? {
        DeedsSnoc(l.deeds, d);
        ModeSnoc(l.deeds, d);
        WaitsSnoc(l.deeds, d);
      }
      if e.waiter.Some? {
        var reply := Replied(e.waiter.value, if l.mode.Stopped? then LoopStopped else Outcome(t.result));
        DeedsSnoc(before, reply);
        ModeSnoc(before, reply);
        WaitsSnoc(before, reply);
      }
    }
  }

  lemma {:induction false} RunLoopOk(turns: seq<Turn>)
    ensures LoopOk(After(turns))
  {
    hide DeedsOk, ModeBy, WaitsOk, WaitsBy;
    if turns == [] {
      NothingDone();
    } else {
      var l, t := After(turns[..|turns| - 1]), turns[|turns| - 1];
      RunLoopOk(turns[..|turns| - 1]);
      if !l.quit {
        assert LoopOk(l.Arrive(t));
        ReceiveOk(l.Arrive(t), t);
        var (l1, received) := l.Arrive(t).Receive(t);
        if received.Some? {
          HandleOk(l1, received.value.0, received.value.1, t);
        }
      }
    }
  }

  lemma NothingDone()
    ensures LoopOk(FRESH)
  {
  }

  /** An exchange whose result disables the datatype. */
  predicate Fatal(d: Deed) {
    d.Exchanged? && d.result.Some? && d.result.value.Recovery().Disable?
  }

  /** An exchange whose result asks to try again later. */
  predicate Transient(d: Deed) {
    && d.Exchanged? && d.result.Some?
    && (d.result.value.Recovery().RetryWithBackOff? || d.result.value.Recovery().ResubscribeWithBackOff?)
  }

  lemma {:induction false} StaysStopped(deeds: seq<Deed>, a: nat, b: nat)
    requires DeedsOk(deeds) && a < b <= |deeds| && Fatal(deeds[a])
    ensures ModeBy(deeds[..b]).Stopped?
    decreases b
  {
    assert deeds[..b] == deeds[..b - 1] + [deeds[b - 1]];
    ModeSnoc(deeds[..b - 1], deeds[b - 1]);
    if b - 1 > a {
      StaysStopped(deeds, a, b - 1);
      assert DeedOk(ModeBy(deeds[..b - 1]), deeds[b - 1]);
    }
  }

  /** A sync is told the outcome of the exchange made for it, or that the loop has stopped. */
  lemma ReplyIsOutcome(turns: seq<Turn>, k: nat)
    requires k < |After(turns).deeds| && After(turns).deeds[k].Replied?
    ensures var deeds := After(turns).deeds;
      match deeds[k].reply
      case Outcome(error) => k > 0 && deeds[k - 1] == Exchanged(Unbounded, error)
      case LoopStopped => exists a :: 0 <= a < k && Fatal(deeds[a])
  {
    hide After;
    RunLoopOk(turns);
    var deeds := After(turns).deeds;
    if deeds[k].reply.LoopStopped? {
      assert DeedOk(ModeBy(deeds[..k]), deeds[k]);
      StoppedWhy(deeds[..k]);
      var a :| 0 <= a < k && Fatal(deeds[..k][a]);
      assert Fatal(deeds[a]);
    }
  }

  lemma {:induction false} StoppedWhy(deeds: seq<Deed>)
    requires ModeBy(deeds).Stopped?
    ensures exists a :: 0 <= a < |deeds| && Fatal(deeds[a])
  {
    var init := deeds[..|deeds| - 1];
    if deeds[|deeds| - 1].Exchanged? {
      assert Fatal(deeds[|deeds| - 1]);
    } else {
      StoppedWhy(init);
      var a :| 0 <= a < |init| && Fatal(init[a]);
      assert Fatal(deeds[a]);
    }
  }

  /** After the first result that disables the datatype no exchange is ever made again. */
  lemma NoExchangeAfterDisable(turns: seq<Turn>, a: nat, b: nat)
    requires a < b < |After(turns).deeds| && Fatal(After(turns).deeds[a])
    ensures !After(turns).deeds[b].Exchanged?
  {
    hide After;
    RunLoopOk(turns);
    StaysStopped(After(turns).deeds, a, b);
    assert DeedOk(ModeBy(After(turns).deeds[..b]), After(turns).deeds[b]);
  }

  /** A loop has stopped exactly when some result so far has disabled the datatype. */
  lemma StoppedIff(turns: seq<Turn>)
    ensures After(turns).mode.Stopped?
      <==> exists a :: 0 <= a < |After(turns).deeds| && Fatal(After(turns).deeds[a])
  {
    hide After, Fatal, DeedOk;
    RunLoopOk(turns);
    var deeds := After(turns).deeds;
    assert deeds[..|deeds|] == deeds;
    if After(turns).mode.Stopped? {
      StoppedWhy(deeds);
    } else if a :| 0 <= a < |deeds| && Fatal(deeds[a]) {
      StaysStopped(deeds, a, |deeds|);
      assert false;
    }
  }

  /** It is backing off exactly when a transient result has been the last that happened to it. */
  lemma BackOffIff(turns: seq<Turn>)
    ensures var deeds := After(turns).deeds;
      After(turns).mode.BackOff?
      <==> exists a :: (0 <= a < |deeds| && Transient(deeds[a])
                        && forall k :: a < k < |deeds| ==> !deeds[k].Exchanged? && !deeds[k].TimerFired?)
  {
    hide After, Transient, DeedOk, DeedsOk;
    RunLoopOk(turns);
    var deeds := After(turns).deeds;
    assert deeds[..|deeds|] == deeds;
    if After(turns).mode.BackOff? {
      BackedOffWhy(deeds);
    } else if a :| (0 <= a < |deeds| && Transient(deeds[a])
                    && forall k :: a < k < |deeds| ==> !deeds[k].Exchanged? && !deeds[k].TimerFired?) {
      StaysBackedOff(deeds, a, |deeds|);
      assert false;
    }
  }

  lemma {:induction false} BackedOffWhy(deeds: seq<Deed>)
    requires ModeBy(deeds).BackOff?
    ensures exists a :: (0 <= a < |deeds| && Transient(deeds[a])
                         && forall k :: a < k < |deeds| ==> !deeds[k].Exchanged? && !deeds[k].TimerFired?)
  {
    var init := deeds[..|deeds| - 1];
    if deeds[|deeds| - 1].Exchanged? {
      assert Transient(deeds[|deeds| - 1]);
    } else {
      BackedOffWhy(init);
      var a :| (0 <= a < |init| && Transient(init[a])
                && forall k :: a < k < |init| ==> !init[k].Exchanged? && !init[k].TimerFired?);
      assert Transient(deeds[a]);
      assert forall k :: a < k < |init| ==> deeds[k] == init[k];
    }
  }

  /** After a result that asks for back-off, and until the timer has fired or another exchange has been
      made, an exchange can only come from the unbounded channel. */
  lemma BackOffOnlyUnbounded(turns: seq<Turn>, a: nat, b: nat)
    requires a < b < |After(turns).deeds|
    requires var deeds := After(turns).deeds;
      && Transient(deeds[a]) && deeds[b].Exchanged?
      && (forall k :: a < k < b ==> !deeds[k].Exchanged? && !deeds[k].TimerFired?)
    ensures After(turns).deeds[b].source.Unbounded?
  {
    hide After;
    RunLoopOk(turns);
    var deeds := After(turns).deeds;
    StaysBackedOff(deeds, a, b);
    assert DeedOk(ModeBy(deeds[..b]), deeds[b]);
  }

  lemma {:induction false} StaysBackedOff(deeds: seq<Deed>, a: nat, b: nat)
    requires a < b <= |deeds| && Transient(deeds[a])
    requires forall k :: a < k < b ==> !deeds[k].Exchanged? && !deeds[k].TimerFired?
    ensures ModeBy(deeds[..b]).BackOff?
    decreases b
  {
    assert deeds[..b] == deeds[..b - 1] + [deeds[b - 1]];
    ModeSnoc(deeds[..b - 1], deeds[b - 1]);
    if b - 1 > a {
      StaysBackedOff(deeds, a, b - 1);
    }
  }

  // ---- every waiter is answered once ----

  /** The waiters of a stretch of the unbounded channel, in order. */
  function Waiters(events: seq<Event>): seq<nat> {
    if events == [] then [] else WaiterOf(events[0]) + Waiters(events[1..])
  }

  function Answered(deeds: seq<Deed>): seq<nat> {
    if deeds == [] then []
    else Answered(deeds[..|deeds| - 1])
         + (if deeds[|deeds| - 1].Replied? then [deeds[|deeds| - 1].waiter] else [])
  }

  lemma AnsweredSnoc(deeds: seq<Deed>, d: Deed)
    ensures Answered(deeds + [d]) == Answered(deeds) + (if d.Replied? then [d.waiter] else [])
  {
    assert (deeds + [d])[..|deeds|] == deeds;
  }

  lemma WaitersCons(events: seq<Event>)
    requires events != []
    ensures Waiters(events) == WaiterOf(events[0]) + Waiters(events[1..])
  {
  }

  lemma {:induction false} WaitersAppend(a: seq<Event>, b: seq<Event>)
    ensures Waiters(a + b) == Waiters(a) + Waiters(b)
  {
    hide WaiterOf, Waiters;
    if a == [] {
      NobodyWaits();
      assert a + b == b && [] + Waiters(b) == Waiters(b);
    } else {
      WaitersAppend(a[1..], b);
      assert (a + b)[1..] == a[1..] + b;
      WaitersCons(a);
      WaitersCons(a + b);
      assert WaiterOf(a[0]) + (Waiters(a[1..]) + Waiters(b)) == (WaiterOf(a[0]) + Waiters(a[1..])) + Waiters(b);
    }
  }

  /** Everything sent to the unbounded channel while the loop was running. */
  function SentWhileRunning(turns: seq<Turn>): seq<Event> {
    if turns == [] then []
    else
      SentWhileRunning(turns[..|turns| - 1])
      + (if After(turns[..|turns| - 1]).quit then [] else turns[|turns| - 1].sent)
  }

  /** One turn moves the first waiter of the queue, if it takes it, from waiting to answered. */
  lemma TakeAnswers(l: Loop, t: Turn)
    requires !l.quit
    ensures Answered(l.Take(t).deeds) + Waiters(l.Take(t).unbounded)
         == Answered(l.deeds) + Waiters(l.unbounded) + Waiters(t.sent)
  {
    hide Answered, Waiters, WaiterOf, Loop.Receive, Loop.Handle;
    WaitersAppend(l.unbounded, t.sent);
    var l0 := l.Arrive(t);
    var (l1, received) := l0.Receive(t);
    ReceiveAnswersNobody(l0, t);
    if received.Some? {
      var e := received.value.0;
      HandleAnswers(l1, e, received.value.1, t);
      assert (Answered(l.deeds) + WaiterOf(e)) + Waiters(l1.unbounded)
          == Answered(l.deeds) + (WaiterOf(e) + Waiters(l1.unbounded));
    } else {
      assert [] + Waiters(l1.unbounded) == Waiters(l1.unbounded);
    }
  }

  lemma ReceiveAnswersNobody(l: Loop, t: Turn)
    ensures Answered(l.Receive(t).0.deeds) == Answered(l.deeds)
    ensures (if l.Receive(t).1.Some? then WaiterOf(l.Receive(t).1.value.0) else []) + Waiters(l.Receive(t).0.unbounded)
         == Waiters(l.unbounded)
  {
    hide Answered;
    if l.mode.BackOff? {
      var w := Waited(Delay(l.waits));
      AnsweredSnoc(l.deeds, w);
      AnsweredSnoc(l.deeds + [w], TimerFired);
    }
  }

  lemma HandleAnswers(l: Loop, e: Event, source: Source, t: Turn)
    ensures Answered(l.Handle(e, source, t).deeds) == Answered(l.deeds) + WaiterOf(e)
    ensures l.Handle(e, source, t).unbounded == l.unbounded
  {
    hide Answered;
    if e.PushTransaction? {
      var d := Exchanged(source, t.result);
      AnsweredSnoc(l.deeds, d);
      var before := if l.mode.Stopped? then l.deeds else l.deeds + [d];
      if e.waiter.Some? {
        AnsweredSnoc(before, Replied(e.waiter.value, if l.mode.Stopped? then LoopStopped else Outcome(t.result)));
      }
    }
  }

  /** Every sync request is answered exactly once and in the order it was made, or is still queued;
      none is answered that was not made. */
  lemma {:induction false} AnsweredExactlyOnce(turns: seq<Turn>)
    ensures Answered(After(turns).deeds) + Waiters(After(turns).unbounded) == Waiters(SentWhileRunning(turns))
  {
    hide Answered, Waiters, Loop.Take;
    if turns == [] {
      NobodyWaits();
    } else {
      var init, t := turns[..|turns| - 1], turns[|turns| - 1];
      AnsweredExactlyOnce(init);
      var l := After(init);
      if l.quit {
        TakeQuit(l, t);
        assert SentWhileRunning(init) + [] == SentWhileRunning(init);
      } else {
        TakeAnswers(l, t);
        WaitersAppend(SentWhileRunning(init), t.sent);
      }
    }
  }

  /** The unbounded channel is served in order, and the loop quits exactly when a stop is taken from it. */
  lemma {:induction false} QuitsOnStop(turns: seq<Turn>) returns (taken: seq<Event>)
    ensures taken + After(turns).unbounded == SentWhileRunning(turns)
    ensures After(turns).quit <==> Stop in taken
  {
    hide Loop.Take;
    if turns == [] {
      taken := [];
    } else {
      var init, t := turns[..|turns| - 1], turns[|turns| - 1];
      taken := QuitsOnStop(init);
      var l := After(init);
      if l.quit {
        TakeQuit(l, t);
        assert SentWhileRunning(init) + [] == SentWhileRunning(init);
      } else {
        var more := TakesFirst(l, t);
        assert (taken + more) + l.Take(t).unbounded == taken + (l.unbounded + t.sent);
        taken := taken + more;
      }
    }
  }

  lemma TakesFirst(l: Loop, t: Turn) returns (taken: seq<Event>)
    requires !l.quit
    ensures taken + l.Take(t).unbounded == l.unbounded + t.sent
    ensures l.Take(t).quit <==> Stop in taken
  {
    hide Loop.Receive, Loop.Handle;
    var l0 := l.Arrive(t);
    ReceivesFirst(l0, t);
    var (l1, received) := l0.Receive(t);
    taken := [];
    if received.Some? {
      HandlesOne(l1, received.value.0, received.value.1, t);
      if received.value.1.Unbounded? { taken := [received.value.0]; }
    }
  }

  lemma ReceivesFirst(l: Loop, t: Turn)
    ensures var (l1, received) := l.Receive(t);
      && l1.quit == l.quit
      && (if received.Some? && received.value.1.Unbounded?
          then l.unbounded == [received.value.0] + l1.unbounded
          else l1.unbounded == l.unbounded && (received.Some? ==> !received.value.0.Stop?))
  {
    hide Delay;
  }

  lemma HandlesOne(l: Loop, e: Event, source: Source, t: Turn)
    ensures var l' := l.Handle(e, source, t);
      l'.unbounded == l.unbounded && (l'.quit <==> l.quit || e.Stop?)
  {
  }

  // ---- nothing that calls for an exchange is lost ----

  /** An exchange has been made after the first `from` deeds. */
  ghost predicate ExchangedSince(l: Loop, from: nat) {
    exists k :: from <= k < |l.deeds| && l.deeds[k].Exchanged?
  }

  lemma ExchangedLater(l: Loop, t: Turn, from: nat)
    ensures l.deeds <= l.Take(t).deeds
    ensures ExchangedSince(l, from) ==> ExchangedSince(l.Take(t), from)
  {
    DeedsGrow(l, t);
    if k :| from <= k < |l.deeds| && l.deeds[k].Exchanged? {
      assert l.Take(t).deeds[k].Exchanged?;
    }
  }

  lemma DeedsGrow(l: Loop, t: Turn)
    ensures l.deeds <= l.Take(t).deeds
  {
    hide Loop.Handle, Loop.Receive;
    var l0 := l.Arrive(t);
    ReceiveGrows(l0, t);
    var (l1, received) := l0.Receive(t);
    if received.Some? { HandleGrows(l1, received.value.0, received.value.1, t); }
  }

  lemma ReceiveGrows(l: Loop, t: Turn)
    ensures l.deeds <= l.Receive(t).0.deeds
  {
    hide Delay;
  }

  lemma HandleGrows(l: Loop, e: Event, source: Source, t: Turn)
    ensures l.deeds <= l.Handle(e, source, t).deeds
  {
  }

  /** A running loop that takes a push event makes an exchange. */
  lemma PushExchanges(l: Loop, t: Turn)
    requires !l.quit && !l.mode.Stopped?
    requires var received := l.Arrive(t).Receive(t).1; received.Some? && received.value.0.PushTransaction?
    ensures ExchangedSince(l.Take(t), |l.deeds|)
  {
    hide Delay;
    var l1 := l.Arrive(t).Receive(t).0;
    assert |l.deeds| <= |l1.deeds| < |l.Take(t).deeds|;
    assert l.Take(t).deeds[|l1.deeds|].Exchanged?;
  }

  /** A running loop waits for others only when there is nothing for it in either channel, and in back-off
      not even then. */
  lemma BlocksIff(l: Loop, t: Turn)
    ensures l.Receive(t).1.None?
      <==> !l.mode.BackOff? && !l.bounded && l.unbounded == [] && !(l.mode.Normal? && t.needPush)
  {
    hide Delay;
  }

  /** In normal mode a need to push is met at once. */
  lemma NeedPushHeard(turns: seq<Turn>, t: Turn)
    requires !After(turns).quit && After(turns).mode.Normal? && t.needPush
    ensures ExchangedSince(After(turns).Take(t), |After(turns).deeds|)
  {
    hide After;
    PushExchanges(After(turns), t);
  }

  /** A best-effort push is queued, and so is one for a notification that counts. */
  lemma WakeQueued(turns: seq<Turn>, t: Turn)
    requires !After(turns).quit && !After(turns).mode.Stopped?
    requires var received := After(turns).Arrive(t).Receive(t).1;
      t.tried || (received.Some? && received.value.0.Notify? && t.notificationWakes)
    ensures After(turns).Take(t).bounded || ExchangedSince(After(turns).Take(t), |After(turns).deeds|)
  {
    hide After;
    var l := After(turns);
    var (l1, received) := l.Arrive(t).Receive(t);
    if received.Some? && received.value.0.PushTransaction? { PushExchanges(l, t); }
  }

  /** How many events the loop takes at most before it gets to the bounded channel: those queued and sent,
      and the timer. */
  function Before(l: Loop, turns: seq<Turn>): nat {
    (if l.mode.BackOff? then 1 else 0) + |l.unbounded| + Sent(turns)
  }

  function Sent(turns: seq<Turn>): nat
    decreases |turns|
  {
    if turns == [] then 0 else |turns[0].sent| + Sent(turns[1..])
  }

  function Onwards(l: Loop, turns: seq<Turn>): Loop
    decreases |turns|
  {
    if turns == [] then l else Onwards(l.Take(turns[0]), turns[1..])
  }

  predicate NoStop(l: Loop, turns: seq<Turn>) {
    Stop !in l.unbounded && forall k :: 0 <= k < |turns| ==> Stop !in turns[k].sent
  }

  /** One turn of a loop with a push queued: it exchanges, or it is one event closer to it. */
  lemma WakeStep(l: Loop, t: Turn)
    requires l.bounded && !l.quit && !l.mode.Stopped? && Stop !in l.unbounded && Stop !in t.sent
    ensures var l' := l.Take(t);
      || ExchangedSince(l', |l.deeds|)
      || (l'.bounded && !l'.quit && !l'.mode.Stopped? && Stop !in l'.unbounded
          && Before(l', []) < Before(l, [t]))
  {
    hide Delay;
    var (l1, received) := l.Arrive(t).Receive(t);
    if received.Some? && received.value.0.PushTransaction? {
      PushExchanges(l, t);
    } else {
      assert [t][1..] == [] && Sent([t]) == |t.sent|;
      assert l1.unbounded == l.unbounded + t.sent || l1.unbounded == (l.unbounded + t.sent)[1..];
      if received.Some? && received.value.1.Unbounded? {
        assert received.value.0 == (l.unbounded + t.sent)[0];
      }
    }
  }

  lemma {:induction false} OnwardsKeeps(l: Loop, turns: seq<Turn>, from: nat)
    requires ExchangedSince(l, from)
    ensures ExchangedSince(Onwards(l, turns), from)
    decreases |turns|
  {
    hide Loop.Take, ExchangedSince;
    if turns != [] {
      ExchangedLater(l, turns[0], from);
      OnwardsKeeps(l.Take(turns[0]), turns[1..], from);
    }
  }

  lemma SentTail(l: Loop, turns: seq<Turn>)
    requires turns != [] && NoStop(l, turns) && Stop !in l.Take(turns[0]).unbounded
    ensures Sent(turns) == |turns[0].sent| + Sent(turns[1..])
    ensures Stop !in turns[0].sent && NoStop(l.Take(turns[0]), turns[1..])
  {
    hide Loop.Take;
    assert forall k :: 0 <= k < |turns[1..]| ==> turns[1..][k] == turns[k + 1];
  }

  lemma {:induction false} BoundedServed(l: Loop, turns: seq<Turn>, from: nat)
    requires l.bounded && !l.quit && !l.mode.Stopped? && NoStop(l, turns)
    requires |turns| > Before(l, turns) && from <= |l.deeds|
    ensures ExchangedSince(Onwards(l, turns), from)
    decreases |turns|
  {
    hide Loop.Take, ExchangedSince, NoStop;
    var t := turns[0];
    var l' := l.Take(t);
    NoStopNow(l, turns);
    WakeStep(l, t);
    DeedsGrow(l, t);
    assert [t][1..] == [] && Sent([t]) == |t.sent|;
    if ExchangedSince(l', |l.deeds|) {
      SinceEarlier(l', |l.deeds|, from);
      OnwardsKeeps(l', turns[1..], from);
    } else {
      SentTail(l, turns);
      BoundedServed(l', turns[1..], from);
    }
  }

  lemma NoStopNow(l: Loop, turns: seq<Turn>)
    requires turns != [] && NoStop(l, turns)
    ensures Stop !in l.unbounded && Stop !in turns[0].sent
  {
  }

  lemma SinceEarlier(l: Loop, from: nat, earlier: nat)
    requires ExchangedSince(l, from) && earlier <= from
    ensures ExchangedSince(l, earlier)
  {
  }

  lemma {:induction false} OnwardsIsAfter(turns: seq<Turn>, more: seq<Turn>)
    ensures Onwards(After(turns), more) == After(turns + more)
    decreases |more|
  {
    hide Loop.Take;
    if more == [] {
      assert turns + more == turns;
    } else {
      var longer := turns + [more[0]];
      assert longer[..|turns|] == turns;
      OnwardsIsAfter(longer, more[1..]);
      assert longer + more[1..] == turns + more;
    }
  }

  /** A queued push, of a commit or of a notification that counts, is followed by an exchange as soon as the
      running loop has taken what was sent to it, whatever mode it is in. */
  lemma WakeServed(turns: seq<Turn>, more: seq<Turn>)
    requires After(turns).bounded && !After(turns).quit && !After(turns).mode.Stopped?
    requires NoStop(After(turns), more) && |more| > Before(After(turns), more)
    ensures var deeds := After(turns + more).deeds;
      exists k :: |After(turns).deeds| <= k < |deeds| && deeds[k].Exchanged?
  {
    hide After, NoStop;
    BoundedServed(After(turns), more, |After(turns).deeds|);
    OnwardsIsAfter(turns, more);
  }

  lemma NobodyWaits()
    ensures Answered([]) == [] && Waiters([]) == []
  {
  }

  lemma TakeQuit(l: Loop, t: Turn)
    requires l.quit
    ensures l.Take(t) == l
  {
  }

  /** The waits of a back-off start at the least delay and grow, and only a result that is not transient
      starts them over. */
  lemma WaitsGrow(turns: seq<Turn>, k: nat)
    requires k < |After(turns).deeds| && After(turns).deeds[k].Waited?
    ensures After(turns).deeds[k].milliseconds == Delay(WaitsBy(After(turns).deeds[..k]))
  {
    hide After, DeedsOk, RepliesOk, Delay;
    RunLoopOk(turns);
  }

  /** Consecutive waits get longer, up to the limit. */
  lemma DelaysGrow(k: nat)
    ensures Delay(0) == 500 && BACKOFF_MAX_DELAY == 30_000
    ensures BACKOFF_MIN_DELAY <= Delay(k) <= Delay(k + 1) <= BACKOFF_MAX_DELAY
    ensures Delay(k + 1) == 2 * Delay(k) || Delay(k + 1) == BACKOFF_MAX_DELAY
  {
    DoubledAtLeast(BACKOFF_MIN_DELAY, k);
  }

  lemma {:induction false} DoubledAtLeast(delay: nat, times: nat)
    ensures Doubled(delay, times) >= delay
  {
    if times > 0 {
      DoubledAtLeast(delay, times - 1);
    }
  }

  // ---- the loop itself ----

  class DatatypeEventLoop {
    var boundedRx: seq<Event>
    var unboundedRx: seq<Event>
    var loopMode: LoopMode
    var backoff: Option<nat>
    var quit: bool
    var deeds: seq<Deed>

    ghost function View(): Loop
      reads this
    {
      Loop(loopMode, if backoff.Some? then backoff.value else 0, boundedRx != [], unboundedRx, quit, deeds)
    }

    /** The bounded channel has capacity 1 and only ever holds an unawaited push. */
    ghost predicate Valid()
      reads this
    {
      boundedRx == [] || boundedRx == [PushTransaction(None)]
    }

    constructor ()
      ensures Valid() && View() == FRESH
    {
      boundedRx, unboundedRx, loopMode, backoff, quit, deeds := [], [], Normal, None, false, [];
    }

    /** Best effort: the event is dropped when the channel is full. */
    method TrySendToBounded()
      requires Valid()
      modifies this
      ensures Valid() && View() == old(View()).(bounded := true)
    {
      if |boundedRx| < 1 {
        boundedRx := boundedRx + [PushTransaction(None)];
      }
    }

    method SendToUnbounded(e: Event)
      requires Valid()
      modifies this
      ensures Valid() && View() == old(View()).(unbounded := old(unboundedRx) + [e])
    {
      unboundedRx := unboundedRx + [e];
    }

    method ReceiveFromUnbounded() returns (e: Event)
      requires Valid() && unboundedRx != []
      modifies this
      ensures Valid() && View() == old(View()).(unbounded := old(unboundedRx)[1..]) && e == old(unboundedRx)[0]
    {
      e := unboundedRx[0];
      unboundedRx := unboundedRx[1..];
    }

    method ReceiveEvent(t: Turn) returns (received: Option<(Event, Source)>)
      requires Valid()
      modifies this
      ensures Valid() && (View(), received) == old(View()).Receive(t)
    {
      var pushIfNeeded, waiting := loopMode.Normal?, loopMode.BackOff?;
      if waiting {
        if backoff.None? {
          backoff := Some(0);
        }
        deeds := deeds + [Waited(Delay(backoff.value))];
        backoff := Some(backoff.value + 1);
      }
      if pushIfNeeded && t.needPush {
        return Some((PushTransaction(None), NeedPush));
      }
      if waiting {
        if unboundedRx != [] {
          var e := ReceiveFromUnbounded();
          return Some((e, Unbounded));
        }
        loopMode := Normal;
        deeds := deeds + [TimerFired];
        return Some((TimedOut, Timer));
      }
      if boundedRx != [] && (t.pickBounded || unboundedRx == []) {
        var e := boundedRx[0];
        boundedRx := [];
        return Some((e, Bounded));
      }
      if unboundedRx != [] {
        var e := ReceiveFromUnbounded();
        return Some((e, Unbounded));
      }
      received := None;
    }

    method ProcessBlockingResp(waiter: Option<nat>, reply: Reply)
      requires Valid()
      modifies this`deeds
      ensures View() == old(View()).Reply(waiter, reply)
    {
      if waiter.Some? {
        deeds := deeds + [Replied(waiter.value, reply)];
      }
    }

    method PushTransactionEvent(waiter: Option<nat>, source: Source, t: Turn)
      requires Valid()
      modifies this
      ensures Valid() && View() == old(View()).Push(waiter, source, t)
    {
      if loopMode.Stopped? {
        ProcessBlockingResp(waiter, LoopStopped);
        return;
      }
      deeds := deeds + [Exchanged(source, t.result)];
      match t.result {
        case None => loopMode := Normal;
        case Some(e) => loopMode := ModeOf(e.Recovery());
      }
      if !loopMode.BackOff? {
        backoff := None;
      }
      ProcessBlockingResp(waiter, Outcome(t.result));
    }

    /** What the other threads send before the loop receives. */
    method Arrive(t: Turn)
      requires Valid()
      modifies this
      ensures Valid() && View() == old(View()).Arrive(t)
    {
      var k := 0;
      while k < |t.sent|
        invariant 0 <= k <= |t.sent| && Valid()
        invariant View() == old(View()).(unbounded := old(unboundedRx) + t.sent[..k])
      {
        SendToUnbounded(t.sent[k]);
        assert t.sent[..k + 1] == t.sent[..k] + [t.sent[k]];
        k := k + 1;
      }
      assert t.sent[..k] == t.sent;
      if t.tried {
        TrySendToBounded();
      }
    }

    method Dispatch(e: Event, source: Source, t: Turn)
      requires Valid()
      modifies this
      ensures Valid() && View() == old(View()).Handle(e, source, t)
    {
      match e {
        case Stop => quit := true;
        case PushTransaction(waiter) => PushTransactionEvent(waiter, source, t);
        case TimedOut =>
        case Notify(_) => if t.notificationWakes { TrySendToBounded(); }
      }
    }

    method Run(turns: seq<Turn>)
      requires Valid() && View() == FRESH
      modifies this
      ensures Valid() && View() == After(turns)
    {
      hide Loop.Arrive, Loop.Receive, Loop.Handle;
      var i := 0;
      assert turns[..0] == [];
      while i < |turns|
        invariant 0 <= i <= |turns| && Valid() && View() == After(turns[..i])
      {
        ghost var before := View();
        assert turns[..i + 1][..i] == turns[..i];
        if !quit {
          Arrive(turns[i]);
          var received := ReceiveEvent(turns[i]);
          if received.Some? {
            Dispatch(received.value.0, received.value.1, turns[i]);
          }
        }
        assert View() == before.Take(turns[i]);
        i := i + 1;
      }
      assert turns[..i] == turns;
    }
  }
}
