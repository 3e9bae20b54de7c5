/** Which transactions reach the push buffer: exactly those that executed something, succeeded and were
    accepted, whatever runs beside them; and that operations never overlap. */
module Commits {
  import opened Types
  import opened Threads

  /** The action has been taken in the run. */
  ghost predicate Taken(actions: seq<Action>, a: Action) {
    exists j :: 0 <= j < |actions| && actions[j] == a && Possible(Run(actions[..j], true), a, true)
  }

  /** The call the context is named after has returned or executed without an error. */
  ghost predicate Succeeded(actions: seq<Action>, ctx: nat) {
    Taken(actions, Return(ctx, true)) || Taken(actions, Execute(ctx, true))
  }

  /** The `j`-th action executes an operation of the context, and no reset comes after it. */
  ghost predicate ExecutesLast(actions: seq<Action>, j: nat, ctx: nat)
    requires j < |actions|
  {
    ExecutesFor(actions, j, ctx) && (forall k :: j < k < |actions| ==> !actions[k].Reset?)
  }

  ghost predicate ExecutedSinceReset(actions: seq<Action>, ctx: nat) {
    exists j :: 0 <= j < |actions| && ExecutesLast(actions, j, ctx)
  }

  /** Some entry of the buffer belongs to the context. */
  ghost predicate HasEntry(s: State, ctx: nat) {
    exists k :: 0 <= k < |s.buffer| && s.buffer[k] != [] && s.buffer[k][0].ctx == ctx
  }

  // ---- one more action ----

  lemma TakenSnoc(actions: seq<Action>, x: Action, a: Action)
    ensures Taken(actions + [x], a) <==> Taken(actions, a) || (x == a && Possible(Run(actions, true), a, true))
  {
    hide Run, Possible;
    var longer := actions + [x];
    assert longer[..|actions|] == actions;
    assert forall j :: 0 <= j < |actions| ==> longer[j] == actions[j] && longer[..j] == actions[..j];
    if Taken(actions, a) {
      var j :| 0 <= j < |actions| && actions[j] == a && Possible(Run(actions[..j], true), a, true);
      assert longer[j] == a && Possible(Run(longer[..j], true), a, true);
    }
    if x == a && Possible(Run(actions, true), a, true) {
      assert longer[|actions|] == a && Possible(Run(longer[..|actions|], true), a, true);
    }
    if Taken(longer, a) {
      var j :| 0 <= j < |longer| && longer[j] == a && Possible(Run(longer[..j], true), a, true);
      if j < |actions| { assert actions[j] == a && Possible(Run(actions[..j], true), a, true); }
    }
  }

  lemma SinceResetSnoc(actions: seq<Action>, x: Action, ctx: nat)
    ensures ExecutedSinceReset(actions + [x], ctx)
      <==> ExecutesFor(actions + [x], |actions|, ctx) || (!x.Reset? && ExecutedSinceReset(actions, ctx))
  {
    hide Run, ExecutesFor;
    var longer := actions + [x];
    assert forall j :: 0 <= j < |actions| ==> longer[j] == actions[j];
    if ExecutesFor(longer, |actions|, ctx) {
      assert ExecutesLast(longer, |actions|, ctx);
    }
    if !x.Reset? && ExecutedSinceReset(actions, ctx) {
      var j :| 0 <= j < |actions| && ExecutesLast(actions, j, ctx);
      SamePrefix(actions, x, j, ctx);
      assert ExecutesLast(longer, j, ctx);
    }
    if ExecutedSinceReset(longer, ctx) {
      var j :| 0 <= j < |longer| && ExecutesLast(longer, j, ctx);
      if j < |actions| {
        assert !longer[|actions|].Reset?;
        SamePrefix(actions, x, j, ctx);
        assert ExecutesLast(actions, j, ctx);
      }
    }
  }

  lemma SamePrefix(actions: seq<Action>, x: Action, j: nat, ctx: nat)
    requires j < |actions|
    ensures ExecutesFor(actions + [x], j, ctx) <==> ExecutesFor(actions, j, ctx)
  {
    hide Run, Possible;
    assert (actions + [x])[..j] == actions[..j];
  }

  /** The operations kept since the last reset are those executed since then. */
  lemma {:induction false} KeptSinceReset(actions: seq<Action>, ctx: nat)
    ensures Has(Run(actions, true).executed, ctx) <==> ExecutedSinceReset(actions, ctx)
  {
    hide Has, Step, Possible, ExecutedSinceReset;
    if actions == [] {
      NothingKept(ctx);
    } else {
      var init, a := actions[..|actions| - 1], actions[|actions| - 1];
      var s := Run(init, true);
      assert actions == init + [a] && actions[..|init|] == init;
      KeptSinceReset(init, ctx);
      LogStep(s, a);
      SinceResetSnoc(init, a, ctx);
      NothingHas(ctx);
      if a.Execute? && a.ok && Possible(s, a, true) {
        ExecutesKnown(s, a);
        HasSnoc(s.executed, Executed(a.id, Context(a.id, s.calls[a.id])), ctx);
      }
    }
  }

  lemma ExecutesKnown(s: State, a: Action)
    requires a.Execute? && Possible(s, a, true)
    ensures a.id in s.calls
  {
  }

  lemma NothingKept(ctx: nat)
    ensures !Has(Run([], true).executed, ctx) && !ExecutedSinceReset([], ctx)
  {
  }

  // ---- the invariant ----

  /** What the run so far says of the call a context is named after. */
  ghost predicate OutcomeOk(actions: seq<Action>, ctx: nat) {
    var s := Run(actions, true);
    && (HasEntry(s, ctx) <==> Has(s.executed, ctx) && Succeeded(actions, ctx) && Taken(actions, DropEnd(ctx, true)))
    && (Taken(actions, DropEnd(ctx, true)) ==> ctx in s.closed)
    && (Succeeded(actions, ctx) ==> ctx in s.calls && !(Unreturned(s.calls[ctx])))
    && (ctx in s.calls && s.calls[ctx].stage.Dropping? && Owns(s.calls[ctx]) ==>
          (Succeeded(actions, ctx) <==> s.calls[ctx].stage.committed))
  }

  predicate Unreturned(c: Call) { c.stage.Asking? || c.stage.Entered? || c.stage.Working? }

  predicate Owns(c: Call) { c.TransactionCall? || c.within.None? }

  /** Whether this action makes the context's call succeed. */
  predicate Succeeds(a: Action, ctx: nat) { a == Return(ctx, true) || a == Execute(ctx, true) }

  lemma SucceededSnoc(actions: seq<Action>, a: Action, ctx: nat)
    ensures Succeeded(actions + [a], ctx)
      <==> Succeeded(actions, ctx) || (Succeeds(a, ctx) && Possible(Run(actions, true), a, true))
  {
    hide Taken, Possible;
    TakenSnoc(actions, a, Return(ctx, true));
    TakenSnoc(actions, a, Execute(ctx, true));
  }

  lemma EntrySnoc(s: State, s': State, e: seq<Executed>, ctx: nat)
    requires s'.buffer == s.buffer + [e] && e != []
    ensures HasEntry(s', ctx) <==> HasEntry(s, ctx) || e[0].ctx == ctx
  {
    if HasEntry(s, ctx) {
      var k :| 0 <= k < |s.buffer| && s.buffer[k] != [] && s.buffer[k][0].ctx == ctx;
      assert s'.buffer[k] != [] && s'.buffer[k][0].ctx == ctx;
    }
    assert s'.buffer[|s.buffer|] == e;
  }

  /** An open context has no entry yet. */
  lemma OpenHasNone(s: State, ctx: nat)
    requires Ok(s) && ctx !in s.closed
    ensures !HasEntry(s, ctx)
  {
    hide CallsOk, ContextsOk, Of;
    forall k | 0 <= k < |s.buffer|
      ensures s.buffer[k] == [] || s.buffer[k][0].ctx != ctx
    {
      assert EntryOk(s, s.buffer[k]);
    }
  }

  lemma HasIsOf(ops: seq<Executed>, ctx: nat)
    ensures Has(ops, ctx) <==> Of(ops, ctx) != []
  {
    OfMembers(ops, ctx);
  }

  /** The call that closes its transaction still owns an open context. */
  lemma ClosingFacts(s: State, id: nat, accepted: bool)
    requires Ok(s) && Possible(s, DropEnd(id, accepted), true)
    ensures id in s.calls && s.calls[id].stage.Dropping? && Owns(s.calls[id]) && Context(id, s.calls[id]) == id
    ensures id !in s.closed && s.pending == Of(s.executed, id)
  {
    hide CallsOk, ContextsOk, Of;
    CallFacts(s, id);
  }

  lemma CloseStep(actions: seq<Action>, id: nat, accepted: bool, ctx: nat)
    requires var s := Run(actions, true); Ok(s) && Possible(s, DropEnd(id, accepted), true)
    requires OutcomeOk(actions, ctx)
    ensures OutcomeOk(actions + [DropEnd(id, accepted)], ctx)
  {
    hide Run, Ok, HasEntry, Has, Of, Succeeded, Taken, Unfinished;
    var s, a := Run(actions, true), DropEnd(id, accepted);
    var s' := Act(s, a, true);
    RunSnoc(actions, a, true);
    SucceededSnoc(actions, a, ctx);
    TakenSnoc(actions, a, DropEnd(ctx, true));
    ClosingFacts(s, id, accepted);
    HasIsOf(s.executed, id);
    OfMembers(s.executed, id);
    if s'.buffer != s.buffer {
      EntrySnoc(s, s', s.pending, ctx);
    } else {
      SameEntries(s, s', ctx);
    }
    if ctx == id { OpenHasNone(s, id); }
  }

  lemma SameEntries(s: State, s': State, ctx: nat)
    requires s'.buffer == s.buffer
    ensures HasEntry(s', ctx) <==> HasEntry(s, ctx)
  {
  }

  lemma ResetOutcome(actions: seq<Action>, ctx: nat)
    requires OutcomeOk(actions, ctx)
    ensures OutcomeOk(actions + [Reset], ctx)
  {
    hide Run, Succeeded, Taken;
    RunSnoc(actions, Reset, true);
    SucceededSnoc(actions, Reset, ctx);
    TakenSnoc(actions, Reset, DropEnd(ctx, true));
  }

  /** A call that executes or returns is not closed, nor is the transaction it runs within. */
  lemma WorkingIsOpen(s: State, id: nat)
    requires Ok(s) && id in s.calls && s.calls[id].stage.Working?
    ensures Context(id, s.calls[id]) !in s.closed && id !in s.closed
  {
    hide CallsOk, ContextsOk, OperationsOk;
    CallFacts(s, id);
  }

  lemma WorkStep(actions: seq<Action>, a: Action, ctx: nat)
    requires var s := Run(actions, true); Ok(s) && Possible(s, a, true)
    requires a.Execute? || a.Return?
    requires OutcomeOk(actions, ctx)
    ensures OutcomeOk(actions + [a], ctx)
  {
    hide Run, Ok, HasEntry, Has, Succeeded, Taken, Unfinished;
    var s, s' := Run(actions, true), Act(Run(actions, true), a, true);
    RunSnoc(actions, a, true);
    SucceededSnoc(actions, a, ctx);
    TakenSnoc(actions, a, DropEnd(ctx, true));
    SameEntries(s, s', ctx);
    WorkingIsOpen(s, a.id);
    if a.Execute? && a.ok {
      var op := Executed(a.id, Context(a.id, s.calls[a.id]));
      HasSnoc(s.executed, op, ctx);
      OpenHasNone(s, op.ctx);
    }
    if ctx == a.id { OpenHasNone(s, ctx); }
  }

  lemma OtherStep(actions: seq<Action>, a: Action, ctx: nat)
    requires var s := Run(actions, true); Ok(s) && Possible(s, a, true)
    requires !a.Execute? && !a.Return? && !a.DropEnd? && !a.Reset?
    requires OutcomeOk(actions, ctx)
    ensures OutcomeOk(actions + [a], ctx)
  {
    hide Run, Ok, Act, Possible, Owns, Unreturned, HasEntry, Has, Succeeded, Taken, Unfinished;
    var s, s' := Run(actions, true), Act(Run(actions, true), a, true);
    RunSnoc(actions, a, true);
    SucceededSnoc(actions, a, ctx);
    TakenSnoc(actions, a, DropEnd(ctx, true));
    OtherLeaves(s, a);
    OtherMoves(s, a, ctx);
    SameEntries(s, s', ctx);
  }

  /** Such a step closes nothing, and returns nobody. */
  lemma OtherLeaves(s: State, a: Action)
    requires Possible(s, a, true) && !a.Execute? && !a.Return? && !a.DropEnd? && !a.Reset?
    ensures var s' := Act(s, a, true);
      s'.executed == s.executed && s'.closed == s.closed && s'.buffer == s.buffer
  {
    hide Unfinished;
  }

  lemma OtherMoves(s: State, a: Action, ctx: nat)
    requires Possible(s, a, true) && !a.Execute? && !a.Return? && !a.DropEnd? && !a.Reset?
    ensures var s' := Act(s, a, true);
      && (ctx in s.calls && !Unreturned(s.calls[ctx]) ==> ctx in s'.calls && !Unreturned(s'.calls[ctx]))
      && (ctx in s'.calls && s'.calls[ctx].stage.Dropping? && Owns(s'.calls[ctx]) ==>
            ctx in s.calls && s.calls[ctx].stage == s'.calls[ctx].stage && Owns(s.calls[ctx]))
  {
    hide Unfinished;
    if a.id != ctx {
      OtherCalls(s, a, ctx);
    }
  }

  lemma OtherCalls(s: State, a: Action, ctx: nat)
    requires Possible(s, a, true) && !a.Execute? && !a.Return? && !a.DropEnd? && !a.Reset? && a.id != ctx
    ensures var s' := Act(s, a, true);
      (ctx in s'.calls <==> ctx in s.calls) && (ctx in s.calls ==> s'.calls[ctx] == s.calls[ctx])
  {
    hide Unfinished;
  }

  lemma {:induction false} OutcomesKnown(actions: seq<Action>, ctx: nat)
    ensures OutcomeOk(actions, ctx)
  {
    hide OutcomeOk, Act, Ok;
    if actions == [] {
      NoOutcome(ctx);
    } else {
      var init, a := actions[..|actions| - 1], actions[|actions| - 1];
      assert actions == init + [a];
      OutcomesKnown(init, ctx);
      RunOk(init);
      if Possible(Run(init, true), a, true) {
        if a.DropEnd? { CloseStep(init, a.id, a.accepted, ctx); }
        else if a.Reset? { ResetOutcome(init, ctx); }
        else if a.Execute? || a.Return? { WorkStep(init, a, ctx); }
        else { OtherStep(init, a, ctx); }
      } else {
        NotTaken(init, a, ctx);
      }
    }
  }

  lemma NotTaken(actions: seq<Action>, a: Action, ctx: nat)
    requires !Possible(Run(actions, true), a, true) && OutcomeOk(actions, ctx)
    ensures OutcomeOk(actions + [a], ctx)
  {
    hide Run, Possible, HasEntry, Has, Succeeded, Taken;
    RunSnoc(actions, a, true);
    SucceededSnoc(actions, a, ctx);
    TakenSnoc(actions, a, DropEnd(ctx, true));
  }

  lemma NoOutcome(ctx: nat)
    ensures OutcomeOk([], ctx)
  {
    NothingHas(ctx);
  }

  // ---- what is committed ----

  /** A context has an entry in the push buffer exactly when it has executed an operation since the last
      reset, its call has succeeded, and its end was accepted. */
  lemma CommittedIff(actions: seq<Action>, ctx: nat)
    ensures HasEntry(Run(actions, true), ctx)
      <==> ExecutedSinceReset(actions, ctx) && Succeeded(actions, ctx) && Taken(actions, DropEnd(ctx, true))
  {
    hide Run, HasEntry, Has, Succeeded, Taken, ExecutedSinceReset;
    OutcomesKnown(actions, ctx);
    KeptSinceReset(actions, ctx);
  }

  /** So no operation of a failed or refused transaction is in any entry. */
  lemma FailedLeavesNothing(actions: seq<Action>, k: nat, x: nat)
    requires k < |Run(actions, true).buffer| && x < |Run(actions, true).buffer[k]|
    ensures var ctx := Run(actions, true).buffer[k][x].ctx;
      Succeeded(actions, ctx) && Taken(actions, DropEnd(ctx, true))
  {
    hide Run, Succeeded, Taken, ExecutedSinceReset, Of;
    Isolated(actions, k);
    CommittedIff(actions, Run(actions, true).buffer[k][x].ctx);
  }

  /** A call only ever begins under its own context, in scoped runs and others: it takes the context when it
      is free, joins it when it is its own, and otherwise has to ask again. */
  lemma BeginsUnderOwn(s: State, id: nat, scoped: bool)
    requires Possible(s, Begin(id), scoped)
    ensures var s', ctx := Act(s, Begin(id), scoped), Context(id, s.calls[id]);
      && (s'.calls[id].stage.Entered? ==> s'.txCtx == Some(ctx))
      && (!s'.calls[id].stage.Entered? ==> s' == s && s.txCtx.Some?)
      && (s.txCtx.Some? ==> s'.txCtx == s.txCtx)
  {
    hide Unfinished;
  }

  /** And it goes on only when the mutex of its kind is free, which it then is not. */
  lemma LocksFree(s: State, id: nat, scoped: bool)
    requires Possible(s, Lock(id), scoped)
    ensures var s' := Act(s, Lock(id), scoped);
      && (s.calls[id].OperationCall? ==> !s.opLocked && s'.opLocked && s'.txLocked == s.txLocked)
      && (s.calls[id].TransactionCall? ==> !s.txLocked && s'.txLocked && s'.opLocked == s.opLocked)
  {
    hide Unfinished;
  }

  // ---- operations never overlap ----

  /** The call has locked the operation mutex and not yet unlocked it. */
  predicate Locks(c: Call) { UnlockOperation in c.guard }

  ghost predicate ExclusiveOk(s: State) {
    && (forall id :: id in s.calls && Locks(s.calls[id]) ==> s.opLocked)
    && (forall a, b :: a in s.calls && b in s.calls && Locks(s.calls[a]) && Locks(s.calls[b]) ==> a == b)
    && (s.opLocked ==> exists id :: id in s.calls && Locks(s.calls[id]))
  }

  /** One call moves without touching the mutex. */
  lemma MoveLocks(s: State, s': State, id: nat)
    requires ExclusiveOk(s) && id in s'.calls && s'.calls == s.calls[id := s'.calls[id]]
    requires Locks(s'.calls[id]) == (id in s.calls && Locks(s.calls[id])) && s'.opLocked == s.opLocked
    ensures ExclusiveOk(s')
  {
    hide Locks;
    if s'.opLocked {
      var x :| x in s.calls && Locks(s.calls[x]);
      assert x in s'.calls && Locks(s'.calls[x]);
    }
  }

  lemma LockStep(s: State, id: nat)
    requires Ok(s) && ExclusiveOk(s) && Possible(s, Lock(id), true)
    ensures ExclusiveOk(Act(s, Lock(id), true))
  {
    hide ContextsOk, OperationsOk;
    var s' := Act(s, Lock(id), true);
    CallFacts(s, id);
    if s.calls[id].OperationCall? {
      assert s'.calls[id].guard[|s'.calls[id].guard| - 1] == UnlockOperation;
      assert Locks(s'.calls[id]);
    } else {
      MoveLocks(s, s', id);
    }
  }

  lemma UnlockStep(s: State, id: nat)
    requires Ok(s) && ExclusiveOk(s) && Possible(s, DropUnlock(id), true)
    ensures ExclusiveOk(Act(s, DropUnlock(id), true))
  {
    hide ContextsOk, OperationsOk, CallsOk, ExclusiveOk, Locks;
    CallFacts(s, id);
    var s' := Act(s, DropUnlock(id), true);
    UnlocksLast(s.calls[id], s'.calls[id].stage);
    FreesMutex(s, s', id);
  }

  lemma UnlocksLast(c: Call, stage: Stage)
    requires CallOk(c) && c.stage.Dropping? && c.guard[|c.guard| - 1].UnlockOperation?
    ensures Locks(c) && !Locks(c.(guard := c.guard[..|c.guard| - 1], stage := stage))
  {
  }

  lemma FreesMutex(s: State, s': State, id: nat)
    requires ExclusiveOk(s) && id in s.calls && id in s'.calls && s'.calls == s.calls[id := s'.calls[id]]
    requires Locks(s.calls[id]) && !Locks(s'.calls[id]) && !s'.opLocked
    ensures ExclusiveOk(s')
  {
    hide Locks;
  }

  lemma ExclusiveStep(s: State, a: Action)
    requires Ok(s) && ExclusiveOk(s) && Possible(s, a, true)
    ensures ExclusiveOk(Act(s, a, true))
  {
    hide ExclusiveOk, ContextsOk, OperationsOk, CallsOk, Unfinished;
    if a.Lock? {
      LockStep(s, a.id);
    } else if a.DropUnlock? {
      UnlockStep(s, a.id);
    } else if a.Reset? {
      SameLocks(s, Act(s, a, true));
    } else {
      if a.id in s.calls { CallFacts(s, a.id); }
      if a.Begin? && Act(s, a, true) == s {
      } else {
        MoveLocks(s, Act(s, a, true), a.id);
      }
    }
  }

  lemma SameLocks(s: State, s': State)
    requires ExclusiveOk(s) && s'.calls == s.calls && s'.opLocked == s.opLocked
    ensures ExclusiveOk(s')
  {
  }

  lemma {:induction false} RunExclusive(actions: seq<Action>)
    ensures ExclusiveOk(Run(actions, true))
  {
    hide Ok, Act, Possible, ExclusiveOk;
    if actions == [] {
      NothingLocked();
    } else {
      var s, a := Run(actions[..|actions| - 1], true), actions[|actions| - 1];
      RunExclusive(actions[..|actions| - 1]);
      RunOk(actions[..|actions| - 1]);
      if Possible(s, a, true) { ExclusiveStep(s, a); }
    }
  }

  lemma NothingLocked()
    ensures ExclusiveOk(Start())
  {
  }

  /** Two operations are never executed at once, within one transaction or in different ones. */
  lemma OperationsExclusive(actions: seq<Action>, a: nat, b: nat)
    requires var s := Run(actions, true);
      && a in s.calls && s.calls[a].OperationCall? && s.calls[a].stage.Working?
      && b in s.calls && s.calls[b].OperationCall? && s.calls[b].stage.Working?
    ensures a == b
  {
    hide Run, ContextsOk, OperationsOk;
    var s := Run(actions, true);
    RunOk(actions);
    RunExclusive(actions);
    CallFacts(s, a);
    CallFacts(s, b);
    assert s.calls[a].guard[|s.calls[a].guard| - 1] == UnlockOperation;
    assert s.calls[b].guard[|s.calls[b].guard| - 1] == UnlockOperation;
  }

  /** The operation mutex is never left locked: it is free exactly when no call has yet to unlock it. */
  lemma MutexFreeIff(actions: seq<Action>)
    ensures var s := Run(actions, true);
      s.opLocked <==> exists id :: id in s.calls && Locks(s.calls[id])
  {
    hide Run, Locks;
    RunExclusive(actions);
  }
}
