/** Transactions under concurrency: any number of calls of the operation and transaction functions of
    one datatype, interleaved step by step. Isolation rests on the shared transaction context alone:
    the transaction mutex may be unlocked by a call that never locked it. */
module Threads {
  import opened Types

  /** What a call has to do when its guard is dropped, last registered first. */
  datatype Deferred = EndTransaction | UnlockOperation

  /** The calls in reverse order of registration, each with the commit flag. */
  function Unwound<T>(deferred: seq<T>, committed: bool): seq<(T, bool)> {
    if deferred == [] then []
    else [(deferred[|deferred| - 1], committed)] + Unwound(deferred[..|deferred| - 1], committed)
  }

  lemma {:induction false} UnwoundReverses<T>(deferred: seq<T>, committed: bool, k: nat)
    requires k < |deferred|
    ensures |Unwound(deferred, committed)| == |deferred|
    ensures Unwound(deferred, committed)[k] == (deferred[|deferred| - 1 - k], committed)
  {
    if k == 0 {
      if |deferred| > 1 { UnwoundReverses(deferred[..|deferred| - 1], committed, 0); }
    } else {
      UnwoundReverses(deferred[..|deferred| - 1], committed, k - 1);
    }
  }

  class DeferGuard<T> {
    var deferFuncLifo: seq<T>
    var committed: bool

    constructor ()
      ensures deferFuncLifo == [] && !committed
    {
      deferFuncLifo, committed := [], false;
    }

    method AddDeferFunc(f: T)
      modifies this`deferFuncLifo
      ensures deferFuncLifo == old(deferFuncLifo) + [f]
    {
      deferFuncLifo := deferFuncLifo + [f];
    }

    method Commit()
      modifies this`committed
      ensures committed
    {
      committed := true;
    }

    /** Runs every registered function, last first, with the flag as it stands. */
    method Drop() returns (calls: seq<(T, bool)>)
      modifies this`deferFuncLifo
      ensures deferFuncLifo == [] && calls == Unwound(old(deferFuncLifo), committed)
    {
      calls := [];
      while deferFuncLifo != []
        invariant calls + Unwound(deferFuncLifo, committed) == Unwound(old(deferFuncLifo), committed)
        decreases |deferFuncLifo|
      {
        var f := deferFuncLifo[|deferFuncLifo| - 1];
        assert calls + Unwound(deferFuncLifo, committed)
            == (calls + [(f, committed)]) + Unwound(deferFuncLifo[..|deferFuncLifo| - 1], committed);
        deferFuncLifo := deferFuncLifo[..|deferFuncLifo| - 1];
        calls := calls + [(f, committed)];
      }
    }
  }

  // ---- the machine ----

  /** Where a call stands. `Working` holds the operation mutex, or runs the transaction function;
      `Ended` has closed the transaction, `Released` has cleared the context too. */
  datatype Stage = Asking | Entered | Working | Dropping(committed: bool) | Ended | Released | Done

  /** One call. A transaction has a context of its own, named after it; an operation runs within the
      context of a transaction, or else in a fresh one of its own. */
  datatype Call =
    | OperationCall(within: Option<nat>, guard: seq<Deferred>, stage: Stage)
    | TransactionCall(guard: seq<Deferred>, stage: Stage)

  function Context(id: nat, c: Call): nat {
    if c.OperationCall? && c.within.Some? then c.within.value else id
  }

  /** An executed operation: the call that made it and the context that call belongs to. */
  datatype Executed = Executed(id: nat, ctx: nat)

  /** `executed` are the operations since the last reset, `lost` those before it. */
  datatype State = State(
    calls: map<nat, Call>,
    txCtx: Option<nat>,
    opLocked: bool,
    txLocked: bool,
    pending: seq<Executed>,
    buffer: seq<seq<Executed>>,
    executed: seq<Executed>,
    lost: seq<Executed>,
    closed: set<nat>)

  function Start(): State { State(map[], None, false, false, [], [], [], [], {}) }

  datatype Action =
    | StartOperation(id: nat, within: Option<nat>)
    | StartTransaction(id: nat)
    | Begin(id: nat)
    | Lock(id: nat)
    | Execute(id: nat, ok: bool)
    | Return(id: nat, ok: bool)
    | DropUnlock(id: nat)
    | DropEnd(id: nat, accepted: bool)
    | ClearContext(id: nat)
    | UnlockTransaction(id: nat)
    | Reset

  predicate Unfinished(s: State, t: nat) {
    exists id ::
      id in s.calls && s.calls[id].OperationCall? && s.calls[id].within == Some(t) && !s.calls[id].stage.Done?
  }

  /** `scoped`: the clones a transaction function is given do not outlive it. */
  ghost predicate Possible(s: State, a: Action, scoped: bool) {
    match a
    case StartOperation(id, within) =>
      id !in s.calls
      && (within.Some? ==>
            && within.value in s.calls && s.calls[within.value].TransactionCall?
            && !s.calls[within.value].stage.Asking? && !s.calls[within.value].stage.Entered?
            && (scoped ==> s.calls[within.value].stage.Working?))
    case StartTransaction(id) => id !in s.calls
    case Begin(id) => id in s.calls && s.calls[id].stage.Asking?
    case Lock(id) =>
      && id in s.calls && s.calls[id].stage.Entered?
      && (if s.calls[id].OperationCall? then !s.opLocked else !s.txLocked)
    case Execute(id, _) => id in s.calls && s.calls[id].OperationCall? && s.calls[id].stage.Working?
    case Return(id, _) =>
      id in s.calls && s.calls[id].TransactionCall? && s.calls[id].stage.Working? && (scoped ==> !Unfinished(s, id))
    case DropUnlock(id) =>
      && id in s.calls && s.calls[id].stage.Dropping?
      && s.calls[id].guard != [] && s.calls[id].guard[|s.calls[id].guard| - 1].UnlockOperation?
    case DropEnd(id, _) =>
      && id in s.calls && s.calls[id].stage.Dropping?
      && s.calls[id].guard != [] && s.calls[id].guard[|s.calls[id].guard| - 1].EndTransaction?
    case ClearContext(id) => id in s.calls && s.calls[id].stage.Ended?
    case UnlockTransaction(id) => id in s.calls && s.calls[id].stage.Released?
    case Reset => true
  }

  function Move(s: State, id: nat, guard: seq<Deferred>, stage: Stage): State
    requires id in s.calls
  {
    s.(calls := s.calls[id := s.calls[id].(guard := guard, stage := stage)])
  }

  /** `begin_transaction`: takes a free context, joins its own, and otherwise has to ask again. */
  function BeginTransaction(s: State, id: nat): State
    requires id in s.calls
  {
    var c := s.calls[id];
    if s.txCtx.None? then Move(s, id, [EndTransaction], Entered).(txCtx := Some(Context(id, c)))
    else if c.OperationCall? && c.within.Some? && s.txCtx == c.within then Move(s, id, [], Entered)
    else s
  }

  /** Closing the transaction: an empty one leaves nothing, a refused or uncommitted one is undone. */
  function Close(s: State, ctx: nat, committed: bool, accepted: bool): State {
    s.(pending := [],
       closed := s.closed + {ctx},
       buffer := if committed && accepted && s.pending != [] then s.buffer + [s.pending] else s.buffer)
  }

  ghost function Act(s: State, a: Action, scoped: bool): State
    requires Possible(s, a, scoped)
  {
    match a
    case StartOperation(id, within) => s.(calls := s.calls[id := OperationCall(within, [], Asking)])
    case StartTransaction(id) => s.(calls := s.calls[id := TransactionCall([], Asking)])
    case Begin(id) => BeginTransaction(s, id)
    case Lock(id) =>
      if s.calls[id].OperationCall? then
        Move(s, id, s.calls[id].guard + [UnlockOperation], Working).(opLocked := true)
      else Move(s, id, s.calls[id].guard, Working).(txLocked := true)
    case Execute(id, ok) =>
      var s1, op := Move(s, id, s.calls[id].guard, Dropping(ok)), Executed(id, Context(id, s.calls[id]));
      if ok then s1.(pending := s.pending + [op], executed := s.executed + [op]) else s1
    case Return(id, ok) => Move(s, id, s.calls[id].guard, Dropping(ok))
    case DropUnlock(id) =>
      var rest := s.calls[id].guard[..|s.calls[id].guard| - 1];
      Move(s, id, rest, if rest == [] then Done else s.calls[id].stage).(opLocked := false)
    case DropEnd(id, accepted) =>
      Close(Move(s, id, s.calls[id].guard[..|s.calls[id].guard| - 1], Ended),
            Context(id, s.calls[id]), s.calls[id].stage.committed, accepted)
    case ClearContext(id) => Move(s, id, s.calls[id].guard, Released).(txCtx := None)
    case UnlockTransaction(id) => Move(s, id, s.calls[id].guard, Done).(txLocked := false)
    case Reset => s.(pending := [], buffer := [], executed := [], lost := s.lost + s.executed)
  }

  ghost function Step(s: State, a: Action, scoped: bool): State {
    if Possible(s, a, scoped) then Act(s, a, scoped) else s
  }

  ghost function Run(actions: seq<Action>, scoped: bool): State {
    if actions == [] then Start()
    else Step(Run(actions[..|actions| - 1], scoped), actions[|actions| - 1], scoped)
  }

  /** The operations of one context, in execution order. */
  function Of(ops: seq<Executed>, ctx: nat): seq<Executed> {
    if ops == [] then []
    else Of(ops[..|ops| - 1], ctx) + (if ops[|ops| - 1].ctx == ctx then [ops[|ops| - 1]] else [])
  }

  lemma OfSnoc(ops: seq<Executed>, op: Executed, ctx: nat)
    ensures Of(ops + [op], ctx) == Of(ops, ctx) + (if op.ctx == ctx then [op] else [])
  {
    assert (ops + [op])[..|ops|] == ops;
  }

  lemma {:induction false} OfMembers(ops: seq<Executed>, ctx: nat)
    ensures forall k :: 0 <= k < |Of(ops, ctx)| ==> Of(ops, ctx)[k].ctx == ctx && Of(ops, ctx)[k] in ops
    ensures Of(ops, ctx) == [] <==> forall k :: 0 <= k < |ops| ==> ops[k].ctx != ctx
  {
    if ops == [] {
    } else {
      OfMembers(ops[..|ops| - 1], ctx);
      assert ops == ops[..|ops| - 1] + [ops[|ops| - 1]];
    }
  }

  lemma {:induction false} OfAppend(a: seq<Executed>, b: seq<Executed>, ctx: nat)
    ensures Of(a + b, ctx) == Of(a, ctx) + Of(b, ctx)
  {
    hide Of;
    if b == [] {
      OfNothing(ctx);
      assert a + b == a && Of(a, ctx) + [] == Of(a, ctx);
    } else {
      var init, last := b[..|b| - 1], b[|b| - 1];
      OfAppend(a, init, ctx);
      OfSnoc(a + init, last, ctx);
      OfSnoc(init, last, ctx);
      assert a + b == (a + init) + [last] && b == init + [last];
    }
  }

  lemma OfNothing(ctx: nat)
    ensures Of([], ctx) == []
  {
  }

  // ---- the invariant of scoped runs ----

  /** The call has taken the context and not yet cleared it. */
  predicate Holds(c: Call) {
    || c.stage.Ended?
    || (c.guard != [] && c.guard[0].EndTransaction?
        && (c.stage.Entered? || c.stage.Working? || c.stage.Dropping?))
  }

  /** What a call has deferred at each stage. */
  predicate CallOk(c: Call) {
    var joins := c.OperationCall? && c.within.Some?;
    var end := if joins then [] else [EndTransaction];
    match c.stage
    case Asking => c.guard == []
    case Entered => c.guard == end
    case Working => c.guard == (if c.OperationCall? then end + [UnlockOperation] else end)
    case Dropping(_) =>
      c.guard != [] && (c.guard == end || (c.OperationCall? && c.guard == end + [UnlockOperation]))
    case Done => true
    case _ => c.guard == [] && !joins
  }

  /** The transaction an operation runs within waits for it. */
  predicate WithinOk(s: State, c: Call) {
    c.OperationCall? && c.within.Some? && !c.stage.Done? ==>
      && c.within.value in s.calls && s.calls[c.within.value].TransactionCall?
      && s.calls[c.within.value].stage.Working?
  }

  /** The context is set exactly by the call it is named after. */
  predicate ContextOk(s: State, id: nat) {
    && (s.txCtx == Some(id) <==> id in s.calls && Holds(s.calls[id]))
    && (id in s.closed ==>
          id in s.calls && (s.calls[id].stage.Ended? || s.calls[id].stage.Released? || s.calls[id].stage.Done?))
    && (id in s.calls && s.calls[id].stage.Ended? ==> id in s.closed)
  }

  predicate PendingOk(s: State) {
    s.pending == if s.txCtx.Some? && s.txCtx.value !in s.closed then Of(s.executed, s.txCtx.value) else []
  }

  predicate EntryOk(s: State, e: seq<Executed>) {
    e != [] && e[0].ctx in s.closed && e == Of(s.executed, e[0].ctx)
  }

  ghost predicate CallsOk(s: State) {
    forall id :: id in s.calls ==> CallOk(s.calls[id]) && WithinOk(s, s.calls[id])
  }

  ghost predicate ContextsOk(s: State) {
    forall id :: ContextOk(s, id)
  }

  /** Closed contexts are complete: each has at most one entry, with all its operations. */
  ghost predicate OperationsOk(s: State) {
    && PendingOk(s)
    && (forall k :: 0 <= k < |s.executed| ==> s.executed[k].ctx in s.closed || s.txCtx == Some(s.executed[k].ctx))
    && (forall k :: 0 <= k < |s.buffer| ==> EntryOk(s, s.buffer[k]))
    && (forall j, k :: 0 <= j < k < |s.buffer| && s.buffer[j] != [] && s.buffer[k] != [] ==>
          s.buffer[j][0].ctx != s.buffer[k][0].ctx)
  }

  ghost predicate Ok(s: State) { CallsOk(s) && ContextsOk(s) && OperationsOk(s) }

  // ---- every step keeps it ----

  /** One call moves; the calls within it are finished when it stops working. */
  lemma CallsStep(s: State, s': State, id: nat)
    requires CallsOk(s) && id in s'.calls && s'.calls == s.calls[id := s'.calls[id]]
    requires CallOk(s'.calls[id]) && WithinOk(s', s'.calls[id])
    requires id in s.calls && s.calls[id].TransactionCall? && s.calls[id].stage.Working? ==>
      !Unfinished(s, id) || (s'.calls[id].TransactionCall? && s'.calls[id].stage.Working?)
    ensures CallsOk(s')
  {
    forall x | x in s'.calls
      ensures CallOk(s'.calls[x]) && WithinOk(s', s'.calls[x])
    {
      if x != id {
        assert CallOk(s.calls[x]) && WithinOk(s, s.calls[x]);
      }
    }
  }

  lemma ContextsStep(s: State, s': State, id: nat)
    requires ContextsOk(s) && id in s'.calls && s'.calls == s.calls[id := s'.calls[id]]
    requires ContextOk(s', id)
    requires forall x :: x != id ==>
      (s'.txCtx == Some(x) <==> s.txCtx == Some(x)) && (x in s'.closed <==> x in s.closed)
    ensures ContextsOk(s')
  {
    hide Holds;
    forall x
      ensures ContextOk(s', x)
    {
      assert ContextOk(s, x);
    }
  }

  /** What the invariant says of one call and of the call it runs within. */
  lemma CallFacts(s: State, id: nat)
    requires Ok(s) && id in s.calls
    ensures CallOk(s.calls[id]) && WithinOk(s, s.calls[id]) && ContextOk(s, id)
    ensures s.calls[id].OperationCall? && s.calls[id].within.Some? && !s.calls[id].stage.Done? ==>
      s.txCtx == s.calls[id].within && s.calls[id].within.value !in s.closed
  {
    if s.calls[id].OperationCall? && s.calls[id].within.Some? && !s.calls[id].stage.Done? {
      var t := s.calls[id].within.value;
      assert WithinOk(s, s.calls[id]) && ContextOk(s, t) && CallOk(s.calls[t]);
    }
  }

  /** Nothing the invariant of the operations looks at. */
  lemma SameOperations(s: State, s': State)
    requires OperationsOk(s)
    requires s' == s.(calls := s'.calls, opLocked := s'.opLocked, txLocked := s'.txLocked)
    ensures OperationsOk(s')
  {
    hide Of;
    forall k | 0 <= k < |s'.buffer|
      ensures EntryOk(s', s'.buffer[k])
    {
      assert EntryOk(s, s.buffer[k]);
    }
  }

  /** A step of one call that touches neither the context nor the operations. */
  predicate Quiet(a: Action) {
    a.StartOperation? || a.StartTransaction? || a.Lock? || a.Return? || a.DropUnlock? || a.UnlockTransaction?
  }

  lemma QuietCalls(s: State, a: Action)
    requires Ok(s) && Possible(s, a, true) && Quiet(a)
    ensures CallsOk(Act(s, a, true))
  {
    hide Of, CallsOk, ContextsOk, OperationsOk, Unfinished, Holds;
    if a.id in s.calls { CallFacts(s, a.id); }
    CallsStep(s, Act(s, a, true), a.id);
  }

  lemma QuietContexts(s: State, a: Action)
    requires Ok(s) && Possible(s, a, true) && Quiet(a)
    ensures ContextsOk(Act(s, a, true))
  {
    hide Of, CallsOk, ContextsOk, OperationsOk, Unfinished, WithinOk;
    if a.id in s.calls { CallFacts(s, a.id); }
    NewFacts(s, a.id);
    ContextsStep(s, Act(s, a, true), a.id);
  }

  lemma QuietStep(s: State, a: Action)
    requires Ok(s) && Possible(s, a, true) && Quiet(a)
    ensures Ok(Act(s, a, true))
  {
    hide CallsOk, ContextsOk, OperationsOk, Unfinished;
    QuietCalls(s, a);
    QuietContexts(s, a);
    SameOperations(s, Act(s, a, true));
  }

  lemma NewFacts(s: State, id: nat)
    requires Ok(s)
    ensures ContextOk(s, id)
  {
  }

  lemma BeginStep(s: State, id: nat)
    requires Ok(s) && Possible(s, Begin(id), true)
    ensures Ok(Act(s, Begin(id), true))
  {
    hide Of, CallsOk, ContextsOk, Unfinished;
    var s' := Act(s, Begin(id), true);
    CallFacts(s, id);
    OfMembers(s.executed, id);
    if s' != s {
      CallsStep(s, s', id);
      ContextsStep(s, s', id);
      assert OperationsOk(s');
    }
  }

  lemma ExecuteStep(s: State, id: nat, ok: bool)
    requires Ok(s) && Possible(s, Execute(id, ok), true)
    ensures Ok(Act(s, Execute(id, ok), true))
  {
    hide Of, CallsOk, ContextsOk, Unfinished;
    var s' := Act(s, Execute(id, ok), true);
    var op := Executed(id, Context(id, s.calls[id]));
    CallFacts(s, id);
    CallsStep(s, s', id);
    ContextsStep(s, s', id);
    forall x: nat
      ensures Of(s.executed + [op], x) == Of(s.executed, x) + (if op.ctx == x then [op] else [])
    {
      OfSnoc(s.executed, op, x);
    }
    forall k | 0 <= k < |s'.buffer|
      ensures EntryOk(s', s'.buffer[k])
    {
      assert EntryOk(s, s.buffer[k]);
    }
  }

  lemma DropEndStep(s: State, id: nat, accepted: bool)
    requires Ok(s) && Possible(s, DropEnd(id, accepted), true)
    ensures Ok(Act(s, DropEnd(id, accepted), true))
  {
    hide Of, CallsOk, ContextsOk, Unfinished;
    var s' := Act(s, DropEnd(id, accepted), true);
    CallFacts(s, id);
    OfMembers(s.executed, id);
    CallsStep(s, s', id);
    ContextsStep(s, s', id);
    forall k | 0 <= k < |s'.buffer|
      ensures EntryOk(s', s'.buffer[k])
    {
      if k < |s.buffer| { assert EntryOk(s, s.buffer[k]); }
    }
  }

  lemma ClearStep(s: State, id: nat)
    requires Ok(s) && Possible(s, ClearContext(id), true)
    ensures Ok(Act(s, ClearContext(id), true))
  {
    hide Of, CallsOk, ContextsOk, Unfinished;
    var s' := Act(s, ClearContext(id), true);
    CallFacts(s, id);
    CallsStep(s, s', id);
    ContextsStep(s, s', id);
  }

  lemma ResetStep(s: State)
    requires Ok(s)
    ensures Ok(Act(s, Reset, true))
  {
    var s' := Act(s, Reset, true);
    forall id
      ensures ContextOk(s', id)
    {
      assert ContextOk(s, id);
    }
  }

  lemma {:induction false} RunOk(actions: seq<Action>)
    ensures Ok(Run(actions, true))
  {
    hide Ok, Act;
    if actions == [] {
      StartOk();
    } else {
      var s, a := Run(actions[..|actions| - 1], true), actions[|actions| - 1];
      RunOk(actions[..|actions| - 1]);
      if Possible(s, a, true) {
        match a {
          case Begin(id) => BeginStep(s, id);
          case Execute(id, ok) => ExecuteStep(s, id, ok);
          case DropEnd(id, accepted) => DropEndStep(s, id, accepted);
          case ClearContext(id) => ClearStep(s, id);
          case Reset => ResetStep(s);
          case _ => QuietStep(s, a);
        }
      }
    }
  }

  lemma StartOk()
    ensures Ok(Start())
  {
  }

  // ---- isolation ----

  /** Every transaction in the push buffer holds the operations of exactly one context, all those
      executed since the last reset, in execution order, and no other entry holds any of them. */
  lemma Isolated(actions: seq<Action>, k: nat)
    requires k < |Run(actions, true).buffer|
    ensures var s := Run(actions, true);
      s.buffer[k] != [] &&
      var ctx := s.buffer[k][0].ctx;
      && s.buffer[k] == Of(s.executed, ctx)
      && (forall x :: 0 <= x < |s.buffer[k]| ==> s.buffer[k][x].ctx == ctx)
      && (forall j, x :: 0 <= j < |s.buffer| && j != k && 0 <= x < |s.buffer[j]| ==> s.buffer[j][x].ctx != ctx)
  {
    hide Of, CallsOk, ContextsOk, Run;
    RunOk(actions);
    var s := Run(actions, true);
    forall j | 0 <= j < |s.buffer|
      ensures s.buffer[j] != [] && forall x :: 0 <= x < |s.buffer[j]| ==> s.buffer[j][x].ctx == s.buffer[j][0].ctx
    {
      assert EntryOk(s, s.buffer[j]);
      OfMembers(s.executed, s.buffer[j][0].ctx);
    }
    assert EntryOk(s, s.buffer[k]);
  }

  /** The `j`-th action of the run executes an operation of the context. */
  ghost predicate ExecutesFor(actions: seq<Action>, j: nat, ctx: nat)
    requires j < |actions|
  {
    var s, a := Run(actions[..j], true), actions[j];
    a.Execute? && a.ok && Possible(s, a, true) && Context(a.id, s.calls[a.id]) == ctx
  }

  ghost predicate Begun(actions: seq<Action>, ctx: nat) {
    exists j :: 0 <= j < |actions| && ExecutesFor(actions, j, ctx)
  }

  /** The replica is reset at some time after the context has executed its first operation. */
  ghost predicate ResetSinceBegun(actions: seq<Action>, ctx: nat) {
    exists k :: 0 <= k < |actions| && actions[k].Reset? && Begun(actions[..k], ctx)
  }

  ghost predicate Has(ops: seq<Executed>, ctx: nat) { exists x :: 0 <= x < |ops| && ops[x].ctx == ctx }

  lemma HasSnoc(ops: seq<Executed>, op: Executed, ctx: nat)
    ensures Has(ops + [op], ctx) <==> Has(ops, ctx) || op.ctx == ctx
  {
    if Has(ops, ctx) {
      var x :| 0 <= x < |ops| && ops[x].ctx == ctx;
      assert (ops + [op])[x].ctx == ctx;
    }
    assert (ops + [op])[|ops|] == op;
  }

  lemma HasAppend(a: seq<Executed>, b: seq<Executed>, ctx: nat)
    ensures Has(a + b, ctx) <==> Has(a, ctx) || Has(b, ctx)
  {
    if Has(a, ctx) {
      var x :| 0 <= x < |a| && a[x].ctx == ctx;
      assert (a + b)[x].ctx == ctx;
    }
    if Has(b, ctx) {
      var x :| 0 <= x < |b| && b[x].ctx == ctx;
      assert (a + b)[|a| + x].ctx == ctx;
    }
  }

  lemma BegunSnoc(actions: seq<Action>, a: Action, ctx: nat)
    ensures Begun(actions + [a], ctx) <==> Begun(actions, ctx) || ExecutesFor(actions + [a], |actions|, ctx)
  {
    hide Run, Possible;
    var longer := actions + [a];
    assert forall j :: 0 <= j < |actions| ==> longer[j] == actions[j] && longer[..j] == actions[..j];
    if Begun(actions, ctx) {
      var j :| 0 <= j < |actions| && ExecutesFor(actions, j, ctx);
      assert ExecutesFor(longer, j, ctx);
    }
    if Begun(longer, ctx) {
      var j :| 0 <= j < |longer| && ExecutesFor(longer, j, ctx);
      if j < |actions| { assert ExecutesFor(actions, j, ctx); }
    }
  }

  lemma ResetSnoc(actions: seq<Action>, a: Action, ctx: nat)
    ensures ResetSinceBegun(actions + [a], ctx) <==> ResetSinceBegun(actions, ctx) || (a.Reset? && Begun(actions, ctx))
  {
    hide Begun;
    var longer := actions + [a];
    assert longer[..|actions|] == actions;
    assert forall k :: 0 <= k < |actions| ==> longer[k] == actions[k] && longer[..k] == actions[..k];
    if ResetSinceBegun(actions, ctx) {
      var k :| 0 <= k < |actions| && actions[k].Reset? && Begun(actions[..k], ctx);
      assert longer[k].Reset? && Begun(longer[..k], ctx);
    }
    if a.Reset? && Begun(actions, ctx) {
      assert longer[|actions|].Reset? && Begun(longer[..|actions|], ctx);
    }
    if ResetSinceBegun(longer, ctx) {
      var k :| 0 <= k < |longer| && longer[k].Reset? && Begun(longer[..k], ctx);
      if k < |actions| { assert actions[k].Reset? && Begun(actions[..k], ctx); }
    }
  }

  /** Where the executed operations are after one more action. */
  lemma LogStep(s: State, a: Action)
    ensures var s' := Step(s, a, true);
      && (a.Execute? && a.ok && Possible(s, a, true) ==>
            s'.executed == s.executed + [Executed(a.id, Context(a.id, s.calls[a.id]))] && s'.lost == s.lost)
      && (a.Reset? ==> s'.executed == [] && s'.lost == s.lost + s.executed)
      && (!a.Reset? && !(a.Execute? && a.ok && Possible(s, a, true)) ==>
            s'.executed == s.executed && s'.lost == s.lost)
  {
    hide Unfinished;
  }

  lemma {:induction false} LogsOf(actions: seq<Action>, ctx: nat)
    ensures Has(Run(actions, true).lost, ctx) <==> ResetSinceBegun(actions, ctx)
    ensures Has(Run(actions, true).lost, ctx) || Has(Run(actions, true).executed, ctx) <==> Begun(actions, ctx)
  {
    hide Has, Begun, ResetSinceBegun, Step, Unfinished;
    if actions == [] {
      NothingLogged(ctx);
    } else {
      var init, a := actions[..|actions| - 1], actions[|actions| - 1];
      var s := Run(init, true);
      assert actions == init + [a] && actions[..|init|] == init;
      LogsOf(init, ctx);
      LogStep(s, a);
      BegunSnoc(init, a, ctx);
      ResetSnoc(init, a, ctx);
      HasAppend(s.lost, s.executed, ctx);
      NothingHas(ctx);
      if a.Execute? && a.ok && Possible(s, a, true) {
        HasSnoc(s.executed, Executed(a.id, Context(a.id, s.calls[a.id])), ctx);
      }
    }
  }

  lemma NothingHas(ctx: nat)
    ensures !Has([], ctx)
  {
  }

  lemma NothingLogged(ctx: nat)
    ensures !Has(Run([], true).lost, ctx) && !Has(Run([], true).executed, ctx)
    ensures !Begun([], ctx) && !ResetSinceBegun([], ctx)
  {
  }

  /** A buffered transaction holds all operations its context ever executed exactly when the replica has
      not been reset since the first of them. */
  lemma AllOrNoneIff(actions: seq<Action>, k: nat)
    requires k < |Run(actions, true).buffer|
    ensures var s := Run(actions, true);
      s.buffer[k] != [] &&
      var ctx := s.buffer[k][0].ctx;
      s.buffer[k] == Of(s.lost + s.executed, ctx) <==> !ResetSinceBegun(actions, ctx)
  {
    hide Of, Run, ResetSinceBegun, Begun;
    Isolated(actions, k);
    var s := Run(actions, true);
    var ctx := s.buffer[k][0].ctx;
    OfAppend(s.lost, s.executed, ctx);
    OfMembers(s.lost, ctx);
    LogsOf(actions, ctx);
    if Of(s.lost, ctx) == [] {
      assert [] + Of(s.executed, ctx) == Of(s.executed, ctx);
    }
  }

  // ---- what isolation does and does not rest on ----

  lemma RunSnoc(actions: seq<Action>, a: Action, scoped: bool)
    ensures Run(actions + [a], scoped) == Step(Run(actions, scoped), a, scoped)
  {
    assert (actions + [a])[..|actions|] == actions;
  }

  lemma Extend(actions: seq<Action>, s: State, a: Action, scoped: bool) returns (longer: seq<Action>, s': State)
    requires Run(actions, scoped) == s && Possible(s, a, scoped)
    ensures longer == actions + [a] && s' == Act(s, a, scoped) && Run(longer, scoped) == s'
  {
    RunSnoc(actions, a, scoped);
    longer, s' := actions + [a], Act(s, a, scoped);
  }

  lemma StartRun(scoped: bool)
    ensures Run([], scoped) == Start()
  {
  }

  /** A free datatype and one operation from call to the start of its end. */
  lemma OperationRun(actions: seq<Action>, s: State, id: nat, scoped: bool) returns (longer: seq<Action>, s': State)
    requires Run(actions, scoped) == s && id !in s.calls && s.txCtx.None? && !s.opLocked
    ensures Run(longer, scoped) == s'
    ensures s' == s.(calls := s.calls[id := OperationCall(None, [EndTransaction], Dropping(true))], txCtx := Some(id),
                     pending := s.pending + [Executed(id, id)], executed := s.executed + [Executed(id, id)])
  {
    hide Run;
    longer, s' := Extend(actions, s, StartOperation(id, None), scoped);
    longer, s' := Extend(longer, s', Begin(id), scoped);
    longer, s' := Extend(longer, s', Lock(id), scoped);
    longer, s' := Extend(longer, s', Execute(id, true), scoped);
    longer, s' := Extend(longer, s', DropUnlock(id), scoped);
  }

  /** A free datatype and one transaction up to its function. */
  lemma TransactionRun(actions: seq<Action>, s: State, id: nat, scoped: bool) returns (longer: seq<Action>, s': State)
    requires Run(actions, scoped) == s && id !in s.calls && s.txCtx.None? && !s.txLocked
    ensures Run(longer, scoped) == s'
    ensures s' == s.(calls := s.calls[id := TransactionCall([EndTransaction], Working)],
                     txCtx := Some(id), txLocked := true)
  {
    hide Run;
    longer, s' := Extend(actions, s, StartTransaction(id), scoped);
    longer, s' := Extend(longer, s', Begin(id), scoped);
    longer, s' := Extend(longer, s', Lock(id), scoped);
  }

  /** The transaction mutex excludes nobody: an operation that ends unlocks it under a running
      transaction. */
  lemma MutexUnlockedByAnother() returns (actions: seq<Action>)
    ensures var s := Run(actions, true);
      0 in s.calls && s.calls[0].TransactionCall? && s.calls[0].stage.Working? && !s.txLocked
  {
    hide Run, Unfinished;
    StartRun(true);
    var s: State;
    actions, s := OperationRun([], Start(), 1, true);
    actions, s := Extend(actions, s, DropEnd(1, true), true);
    actions, s := Extend(actions, s, ClearContext(1), true);
    actions, s := TransactionRun(actions, s, 0, true);
    actions, s := Extend(actions, s, UnlockTransaction(1), true);
  }

  /** A transaction that ends while an operation of its clone has joined it. */
  lemma AbandonedRun() returns (actions: seq<Action>, s: State)
    ensures Run(actions, false) == s
    ensures s == Start().(calls := map[0 := TransactionCall([], Released), 1 := OperationCall(Some(0), [], Entered)],
                          txLocked := true, closed := {0})
  {
    hide Run, Unfinished;
    StartRun(false);
    actions, s := TransactionRun([], Start(), 0, false);
    actions, s := Extend(actions, s, StartOperation(1, Some(0)), false);
    actions, s := Extend(actions, s, Begin(1), false);
    actions, s := Extend(actions, s, Return(0, true), false);
    actions, s := Extend(actions, s, DropEnd(0, true), false);
    actions, s := Extend(actions, s, ClearContext(0), false);
    assert s.closed == {0};
  }

  /** The joined operation after the end, whatever transaction is open by then. */
  lemma LateOperation(actions: seq<Action>, s: State, id: nat, t: nat) returns (longer: seq<Action>, s': State)
    requires Run(actions, false) == s && !s.opLocked
    requires id in s.calls && s.calls[id] == OperationCall(Some(t), [], Entered)
    ensures Run(longer, false) == s'
    ensures s'.pending == s.pending + [Executed(id, t)] && s'.buffer == s.buffer
    ensures forall x :: x in s.calls && x != id ==> x in s'.calls && s'.calls[x] == s.calls[x]
  {
    hide Run, Unfinished;
    longer, s' := Extend(actions, s, Lock(id), false);
    longer, s' := Extend(longer, s', Execute(id, true), false);
    longer, s' := Extend(longer, s', DropUnlock(id), false);
  }

  /** A clone that outlives its transaction function breaks isolation: an operation it began before
      the end lands in the transaction of somebody else. */
  lemma OutlivingCloneMixes() returns (actions: seq<Action>)
    ensures Run(actions, false).buffer == [[Executed(2, 2), Executed(1, 0)]]
  {
    hide Run, Unfinished;
    var s: State;
    actions, s := AbandonedRun();
    actions, s := OperationRun(actions, s, 2, false);
    actions, s := LateOperation(actions, s, 1, 0);
    assert s.buffer == [] && s.pending == [Executed(2, 2), Executed(1, 0)];
    actions, s := Extend(actions, s, DropEnd(2, true), false);
  }
}
