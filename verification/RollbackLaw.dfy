/** Aborting a transaction whose operations were mixed with remote ones. */
module RollbackLaw {
  import opened Types
  import opened CounterArithmetic
  import opened PushBuffer
  import opened History
  import opened Replica

  /** What may happen while a transaction is open: own operations, pulled transactions, and changes of
      the lifecycle state by an answer or an unsubscription. */
  datatype TxStep = Op(delta: i64) | Remote(txs: seq<Transaction>) | Lifecycle(state: DatatypeState)

  function PlayOne(r: Replica, step: TxStep): Replica {
    match step
    case Op(delta) => r.ExecuteLocal(delta)
    case Remote(txs) => r.ExecuteRemote(txs)
    case Lifecycle(state) => r.(state := state)
  }

  function Play(r: Replica, steps: seq<TxStep>): Replica {
    if steps == [] then r else PlayOne(Play(r, steps[..|steps| - 1]), steps[|steps| - 1])
  }

  function Remotes(steps: seq<TxStep>): seq<TxStep> {
    if steps == [] then []
    else Remotes(steps[..|steps| - 1]) + (if steps[|steps| - 1].Remote? then [steps[|steps| - 1]] else [])
  }

  lemma PlaySnoc(r: Replica, steps: seq<TxStep>, step: TxStep)
    ensures Play(r, steps + [step]) == PlayOne(Play(r, steps), step)
  {
    assert (steps + [step])[..|steps|] == steps;
  }

  /** `p`, begun as `r`, is the remote-only replica `q` plus its open operations, and its save
      point keeps the cseq the transaction began with. */
  predicate Tracks(r: Replica, p: Replica, q: Replica) {
    && p.value == Wrap(q.value + p.record.OpenDelta())
    && p.buffer == q.buffer == r.buffer && p.checkpoint == q.checkpoint == r.checkpoint
    && q.record.pending.None?
    && (p.record.pending.None? ==> p.opId.cseq == r.opId.cseq)
    && (p.record.pending.Some? ==> p.record.rollbackOpId.cseq == r.opId.cseq)
  }

  lemma OpTracks(r: Replica, p: Replica, q: Replica, delta: i64)
    requires Tracks(r, p, q)
    ensures Tracks(r, p.ExecuteLocal(delta), q)
  {
    hide OperationsDelta, Wrap;
    WrapAdd(q.value + p.record.OpenDelta(), delta);
    OpenDeltaGrows(p, delta);
  }

  lemma RemoteTracks(r: Replica, p: Replica, q: Replica, txs: seq<Transaction>)
    requires Tracks(r, p, q)
    ensures Tracks(r, p.ExecuteRemote(txs), q.ExecuteRemote(txs))
  {
    hide OperationsDelta, Wrap, Total, TopLamport;
    WrapAdd(q.value + p.record.OpenDelta(), Total(txs));
    WrapAdd(q.value + Total(txs), p.record.OpenDelta());
  }

  lemma LifecycleTracks(r: Replica, p: Replica, q: Replica, state: DatatypeState)
    requires Tracks(r, p, q)
    ensures Tracks(r, p.(state := state), q)
  {
  }

  lemma {:induction false} OpenTransaction(r: Replica, steps: seq<TxStep>)
    requires r.record.pending.None?
    ensures Tracks(r, Play(r, steps), Play(r, Remotes(steps)))
  {
    if steps == [] {
      NoRemotes();
      WrapSame(r.value);
    } else {
      hide Tracks, Remotes, Play;
      var init, step := steps[..|steps| - 1], steps[|steps| - 1];
      OpenTransaction(r, init);
      RemotesSnoc(init, step);
      assert steps == init + [step];
      PlaySnoc(r, init, step);
      if step.Op? {
        assert Remotes(init) + [] == Remotes(init);
        OpTracks(r, Play(r, init), Play(r, Remotes(init)), step.delta);
      } else if step.Lifecycle? {
        assert Remotes(init) + [] == Remotes(init);
        LifecycleTracks(r, Play(r, init), Play(r, Remotes(init)), step.state);
      } else {
        PlaySnoc(r, Remotes(init), step);
        RemoteTracks(r, Play(r, init), Play(r, Remotes(init)), step.txs);
      }
    }
  }

  lemma NoRemotes()
    ensures Remotes([]) == []
  {
  }

  lemma RemotesSnoc(steps: seq<TxStep>, step: TxStep)
    ensures Remotes(steps + [step]) == Remotes(steps) + (if step.Remote? then [step] else [])
  {
    assert (steps + [step])[..|steps|] == steps;
  }

  lemma WrapSame(v: i64)
    ensures Wrap(v + 0) == v
  {
  }

  lemma OpenDeltaGrows(r: Replica, delta: i64)
    ensures r.ExecuteLocal(delta).record.OpenDelta() == r.record.OpenDelta() + delta
  {
    var op := Operation(r.opId.lamport + 1, CounterIncrease(delta));
    var before := if r.record.pending.Some? then r.record.pending.value.operations else [];
    assert r.ExecuteLocal(delta).record.pending.value.operations == before + [op];
    DeltaSnoc(before, op);
  }

  /** Rollback is exact: however local and remote operations interleave, undoing leaves the value
      the remote ones alone give, the cseq from before, and the buffer untouched. */
  lemma RollbackExact(r: Replica, steps: seq<TxStep>)
    requires r.record.pending.None?
    ensures var undone, remote := Play(r, steps).Rollback(), Play(r, Remotes(steps));
      && undone.value == remote.value
      && undone.opId.cseq == r.opId.cseq
      && undone.buffer == r.buffer && undone.checkpoint == r.checkpoint
      && undone.record.pending.None?
  {
    hide Play, Remotes, OperationsDelta, Wrap;
    OpenTransaction(r, steps);
    var p, q := Play(r, steps), Play(r, Remotes(steps));
    WrapAdd(q.value + p.record.OpenDelta(), -p.record.OpenDelta());
    WrapSame(q.value);
  }

  /** The lifecycle state after some steps: the last one they set. */
  function StateAfter(state: DatatypeState, steps: seq<TxStep>): DatatypeState {
    if steps == [] then state
    else if steps[|steps| - 1].Lifecycle? then steps[|steps| - 1].state
    else StateAfter(state, steps[..|steps| - 1])
  }

  lemma {:induction false} PlayState(r: Replica, steps: seq<TxStep>)
    ensures Play(r, steps).state == StateAfter(r.state, steps)
  {
    if steps != [] {
      PlayState(r, steps[..|steps| - 1]);
    }
  }

  /** The save point remembers the state in which the first operation found the replica. */
  lemma {:induction false} SavedState(r: Replica, steps: seq<TxStep>, first: nat)
    requires r.record.pending.None? && first < |steps| && steps[first].Op?
    requires forall j :: 0 <= j < first ==> !steps[j].Op?
    ensures Play(r, steps).record.pending.Some?
    ensures Play(r, steps).record.rollbackState == StateAfter(r.state, steps[..first])
    decreases |steps|
  {
    hide StateAfter, Wrap, Total, TopLamport;
    var init := steps[..|steps| - 1];
    if first < |steps| - 1 {
      SavedState(r, init, first);
      assert init[..first] == steps[..first];
    } else {
      NothingOpened(r, init);
      PlayState(r, init);
    }
  }

  lemma {:induction false} NothingOpened(r: Replica, steps: seq<TxStep>)
    requires r.record.pending.None? && forall j :: 0 <= j < |steps| ==> !steps[j].Op?
    ensures Play(r, steps).record.pending.None?
  {
    hide Wrap, Total, TopLamport;
    if steps != [] {
      NothingOpened(r, steps[..|steps| - 1]);
    }
  }

  /** An abort takes back every lifecycle change since the first operation, answers of the server and
      unsubscriptions included; so it keeps the state exactly when these have led back to where it was. */
  lemma RollbackUndoesLifecycle(r: Replica, steps: seq<TxStep>, first: nat)
    requires r.record.pending.None? && first < |steps| && steps[first].Op?
    requires forall j :: 0 <= j < first ==> !steps[j].Op?
    ensures Play(r, steps).Rollback().state == StateAfter(r.state, steps[..first])
    ensures Play(r, steps).Rollback().state == Play(r, steps).state
      <==> StateAfter(r.state, steps) == StateAfter(r.state, steps[..first])
  {
    hide Play, StateAfter, Wrap;
    SavedState(r, steps, first);
    PlayState(r, steps);
  }
}
