/** The handler of one answer as the program keeps it: a list of steps is queued while the answer is
    judged, and carried out on the replica in one go. */
module PullSteps {
  import opened Types
  import opened CounterArithmetic
  import opened PushBuffer
  import opened History
  import opened Replica
  import opened PullHandling
  import opened MutableReplica

  datatype PendingStep = ApplySubscribeResponse | SkipDuplicatedTransactions | ExecuteTransactions | SyncCheckpoint

  /** What the steps work on. */
  datatype Handling = Handling(replica: Replica, pulled: PushPullPack, skip: nat)

  function StepOn(h: Handling, step: PendingStep): Result<Handling, DatatypeError> {
    match step
    case ApplySubscribeResponse =>
      (match Subscribe(h.replica, h.pulled)
       case Failure(e) => Failure(e)
       case Success(r) => Success(h.(replica := r, pulled := h.pulled.(snapshotTransaction := None))))
    case SkipDuplicatedTransactions =>
      var need := PullCount(h.replica.checkpoint, h.pulled.checkpoint);
      var len := |h.pulled.transactions|;
      Success(if len > need then h.(skip := len - need) else h)
    case ExecuteTransactions =>
      var from := if h.skip <= |h.pulled.transactions| then h.skip else |h.pulled.transactions|;
      Success(h.(replica := h.replica.ExecuteRemote(h.pulled.transactions[from..])))
    case SyncCheckpoint =>
      Success(h.(replica := h.replica.(checkpoint := h.replica.checkpoint.CheckWith(h.pulled.checkpoint))))
  }

  /** All steps in order, up to the first that fails. */
  function StepsOn(h: Handling, steps: seq<PendingStep>): (Handling, Option<DatatypeError>)
    decreases |steps|
  {
    if steps == [] then (h, None)
    else
      match StepOn(h, steps[0])
      case Failure(e) => (h, Some(e))
      case Success(h1) => StepsOn(h1, steps[1..])
  }

  const ABSORBING: seq<PendingStep> := [SkipDuplicatedTransactions, ExecuteTransactions, SyncCheckpoint]

  /** The queued steps do to the replica what taking the answer means. */
  lemma AbsorbingSteps(r: Replica, p: PushPullPack)
    ensures var (h, error) := StepsOn(Handling(r, p, 0), ABSORBING);
      error.None? && h.replica.(state := p.state) == Absorb(r, p)
  {
    hide Total, TopLamport, PullCount;
    var h0 := Handling(r, p, 0);
    var h1 := StepOn(h0, SkipDuplicatedTransactions).value;
    assert h1.skip == SkipCount(r.checkpoint, p);
    var h2 := StepOn(h1, ExecuteTransactions).value;
    var h3 := StepOn(h2, SyncCheckpoint).value;
    assert ABSORBING[1..] == [ExecuteTransactions, SyncCheckpoint];
    assert ABSORBING[1..][1..] == [SyncCheckpoint];
    assert StepsOn(h2, [SyncCheckpoint]) == StepsOn(h3, []);
    assert StepsOn(h1, ABSORBING[1..]) == StepsOn(h2, [SyncCheckpoint]);
  }

  lemma SubscribingSteps(r: Replica, p: PushPullPack)
    ensures var (h, error) := StepsOn(Handling(r, p, 0), [ApplySubscribeResponse] + ABSORBING);
      match Subscribe(r, p)
      case Failure(e) => h.replica == r && error == Some(e)
      case Success(r1) => error.None? && h.replica.(state := p.state) == Absorb(r1, p)
  {
    hide Absorb, Subscribe;
    assert ([ApplySubscribeResponse] + ABSORBING)[1..] == ABSORBING;
    if Subscribe(r, p).Success? {
      var r1, p1 := Subscribe(r, p).value, p.(snapshotTransaction := None);
      AbsorbingSteps(r1, p1);
      SnapshotNotAbsorbed(r1, p);
    }
  }

  lemma SnapshotNotAbsorbed(r: Replica, p: PushPullPack)
    ensures Absorb(r, p.(snapshotTransaction := None)) == Absorb(r, p)
  {
    hide Total, TopLamport, PullCount;
  }

  class PullHandler {
    var pulledPpp: PushPullPack
    const mutable: MutableDatatype
    const oldState: DatatypeState
    var newState: DatatypeState
    var isCreated: bool
    var pendingSteps: seq<PendingStep>
    var skip: nat

    ghost function View(): Handling
      reads this, mutable, mutable.Repr()
    {
      Handling(mutable.View(), pulledPpp, skip)
    }

    ghost predicate Valid()
      reads this, mutable, mutable.Repr()
    {
      && mutable.Valid()
      && this !in mutable.Repr()
      && forall k :: 0 <= k < |pulledPpp.transactions| ==> pulledPpp.transactions[k].OnlyIncreases()
    }

    constructor (pulledPpp: PushPullPack, mutable: MutableDatatype)
      requires mutable.Valid()
      requires forall k :: 0 <= k < |pulledPpp.transactions| ==> pulledPpp.transactions[k].OnlyIncreases()
      ensures Valid() && this.mutable == mutable && View() == Handling(mutable.View(), pulledPpp, 0)
      ensures oldState == mutable.state && pendingSteps == []
    {
      this.pulledPpp, this.mutable, this.oldState, this.newState := pulledPpp, mutable, mutable.state, mutable.state;
      isCreated, pendingSteps, skip := false, [], 0;
    }

    /** Judges the answer: an error, a state that does not fit, or the steps to carry out. */
    method HandleErrorAndDatatypeState() returns (outcome: Outcome)
      requires Valid() && pendingSteps == [] && oldState == mutable.state
      modifies this`newState, this`isCreated, this`pendingSteps
      ensures
        if pulledPpp.error.Some? then
          outcome == Failed(ToDatatypeError(pulledPpp.error.value)) && newState == pulledPpp.state && pendingSteps == []
        else if oldState.Deleting? || oldState.Disabled? then outcome == Unimplemented
        else if pulledPpp.state != ExpectedState(oldState) then
          outcome == Failed(ServerRejected(ProtocolViolation)) && newState == Disabled && pendingSteps == []
        else
          && outcome == Synced && newState == pulledPpp.state
          && pendingSteps == if Joins(mutable.View(), pulledPpp) then [ApplySubscribeResponse] else []
    {
      newState := pulledPpp.state;
      if pulledPpp.error.Some? {
        return Failed(ToDatatypeError(pulledPpp.error.value));
      }
      match oldState {
        case Creating =>
          if !pulledPpp.state.Subscribed? {
            newState := Disabled;
            return Failed(ServerRejected(ProtocolViolation));
          }
          isCreated := true;
        case Subscribing =>
          if !pulledPpp.state.Subscribed? {
            newState := Disabled;
            return Failed(ServerRejected(ProtocolViolation));
          }
          pendingSteps := pendingSteps + [ApplySubscribeResponse];
        case SubscribingOrCreating =>
          if !pulledPpp.state.Subscribed? {
            newState := Disabled;
            return Failed(ServerRejected(ProtocolViolation));
          }
          if pulledPpp.duid == mutable.duid {
            isCreated := true;
          } else {
            pendingSteps := pendingSteps + [ApplySubscribeResponse];
          }
        case Subscribed =>
          if !pulledPpp.state.Subscribed? {
            newState := Disabled;
            return Failed(ServerRejected(ProtocolViolation));
          }
        case Unsubscribing =>
          if !pulledPpp.state.Disabled? {
            newState := Disabled;
            return Failed(ServerRejected(ProtocolViolation));
          }
        case Deleting => return Unimplemented;
        case Disabled => return Unimplemented;
      }
      outcome := Synced;
    }

    method ApplySubscribeResponseStep() returns (error: Option<DatatypeError>)
      requires Valid()
      modifies this`pulledPpp, mutable, mutable.crdt
      ensures Valid() && fresh(mutable.Repr() - old(mutable.Repr()))
      ensures pulledPpp.transactions == old(pulledPpp).transactions
      ensures old(pulledPpp).snapshotTransaction.None? ==>
        error.None? && mutable.View() == old(mutable.View()).(duid := pulledPpp.duid)
      ensures match StepOn(old(View()), ApplySubscribeResponse)
        case Success(h) => error == None && View() == h
        case Failure(e) => error == Some(e) && mutable.View() == old(mutable.View())
    {
      if pulledPpp.snapshotTransaction.Some? {
        var tx := pulledPpp.snapshotTransaction.value;
        pulledPpp := pulledPpp.(snapshotTransaction := None);
        error := mutable.ApplySnapshotTransaction(tx);
        if error.Some? {
          return;
        }
      }
      mutable.duid := pulledPpp.duid;
      error := None;
    }

    method CalculatePullingTransactions() returns (need: nat)
      ensures need == PullCount(mutable.checkpoint, pulledPpp.checkpoint)
    {
      var was, now := mutable.checkpoint, pulledPpp.checkpoint;
      need := U64Sub(U64Sub(now.sseq, was.sseq), U64Sub(now.cseq, was.cseq));
    }

    method SkipDuplicatedTransactionsStep()
      requires Valid()
      modifies this`skip
      ensures Valid() && Success(View()) == StepOn(old(View()), SkipDuplicatedTransactions)
    {
      var needToPull := CalculatePullingTransactions();
      if |pulledPpp.transactions| > needToPull {
        skip := |pulledPpp.transactions| - needToPull;
      }
    }

    method ExecuteTransactionsStep()
      requires Valid() && skip <= |pulledPpp.transactions|
      modifies mutable`opId, mutable.crdt
      ensures Valid() && Success(View()) == StepOn(old(View()), ExecuteTransactions)
    {
      hide Replica.ExecuteRemote;
      var transactions := pulledPpp.transactions[skip..];
      var k := 0;
      assert transactions[..0] == [];
      NothingExecuted(mutable.View());
      while k < |transactions|
        invariant 0 <= k <= |transactions| && Valid()
        invariant mutable.View() == old(mutable.View()).ExecuteRemote(transactions[..k])
      {
        RemoteStep(old(mutable.View()), transactions, k);
        mutable.ExecuteRemoteTransaction(transactions[k]);
        k := k + 1;
      }
      assert transactions[..k] == transactions;
    }

    method SyncCheckpointStep()
      requires Valid()
      modifies mutable`checkpoint
      ensures Valid() && Success(View()) == StepOn(old(View()), SyncCheckpoint)
    {
      mutable.checkpoint := mutable.checkpoint.CheckWith(pulledPpp.checkpoint);
    }

    method PerformStep(step: PendingStep) returns (error: Option<DatatypeError>)
      requires Valid() && skip <= |pulledPpp.transactions|
      modifies this`pulledPpp, this`skip, mutable.Repr()
      ensures Valid() && skip <= |pulledPpp.transactions| && fresh(mutable.Repr() - old(mutable.Repr()))
      ensures match StepOn(old(View()), step)
        case Success(h) => error == None && View() == h
        case Failure(e) => error == Some(e) && mutable.View() == old(mutable.View())
    {
      error := None;
      match step {
        case ApplySubscribeResponse => error := ApplySubscribeResponseStep();
        case SkipDuplicatedTransactions => SkipDuplicatedTransactionsStep();
        case ExecuteTransactions => ExecuteTransactionsStep();
        case SyncCheckpoint => SyncCheckpointStep();
      }
    }

    /** Carries the queued steps out and moves the state; a step that fails leaves the state. */
    method Commit() returns (error: Option<DatatypeError>)
      requires Valid() && skip == 0
      modifies this, mutable.Repr()
      ensures Valid() && fresh(mutable.Repr() - old(mutable.Repr()))
      ensures var (h, e) := StepsOn(old(View()), old(pendingSteps));
        && error == e
        && mutable.View() == (if e.None? then h.replica.(state := old(newState)) else h.replica)
    {
      hide StepOn;
      var steps := pendingSteps;
      pendingSteps := [];
      var k := 0;
      while k < |steps|
        invariant 0 <= k <= |steps| && Valid() && skip <= |pulledPpp.transactions|
        invariant newState == old(newState) && fresh(mutable.Repr() - old(mutable.Repr()))
        invariant StepsOn(View(), steps[k..]) == StepsOn(old(View()), steps)
      {
        ghost var before := View();
        assert steps[k..][1..] == steps[k + 1..];
        error := PerformStep(steps[k]);
        if error.Some? {
          return;
        }
        k := k + 1;
      }
      mutable.state := newState;
      error := None;
    }

    /** The whole handling: what the replica becomes, and the outcome, are those of the answer. */
    method Apply() returns (outcome: Outcome)
      requires Valid() && pendingSteps == [] && oldState == mutable.state && skip == 0
      modifies this, mutable.Repr()
      ensures Valid() && fresh(mutable.Repr() - old(mutable.Repr()))
      ensures (mutable.View(), outcome) == ApplyPull(old(mutable.View()), old(pulledPpp))
    {
      hide StepsOn, Absorb, Subscribe;
      ghost var r, p := mutable.View(), pulledPpp;
      AbsorbingSteps(r, p);
      SubscribingSteps(r, p);
      outcome := HandleErrorAndDatatypeState();
      if outcome.Unimplemented? {
        return;
      }
      if outcome.Synced? {
        pendingSteps := pendingSteps + ABSORBING;
        assert [] + ABSORBING == ABSORBING;
      } else {
        NoSteps(View());
      }
      var error := Commit();
      if error.Some? {
        outcome := Failed(error.value);
      }
    }
  }

  lemma NothingExecuted(r: Replica)
    ensures r.ExecuteRemote([]) == r
  {
  }

  lemma NoSteps(h: Handling)
    ensures StepsOn(h, []) == (h, None)
  {
  }
}
