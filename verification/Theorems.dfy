/** What the protocol promises, over every run. */
module Theorems {
  import opened Types
  import opened CounterArithmetic
  import opened PushBuffer
  import opened History
  import opened Replica
  import opened PullHandling
  import opened DatatypeServer
  import opened Protocol
  import opened Invariant
  import opened Delivery
  import opened Requests
  import opened Meaning

  // ---- the value of a replica ----

  /** Whatever has happened, a replica's value is the acknowledged history, its own pending work and
      its drift. */
  lemma ValueByDrift(ls: seq<Label>, i: Cuid)
    requires i in Exec(Init(), ls).nodes
    ensures var s := Exec(Init(), ls);
      var n := s.nodes[i];
      && n.ledger.since <= n.replica.checkpoint.sseq <= |s.server.history|
      && n.replica.cuid == i
      && n.replica.value == Wrap(Total(s.server.history[..n.replica.checkpoint.sseq]) + n.PendingDelta()
                                 + n.Drift(s.server.history))
  {
    hide Exec, Inv, Meaningful, Total, Above, NodeOk, DonationOk, Node.PendingDelta, Node.Drift, Wrap;
    ReachableMeaningful(ls);
    ActorOk(Exec(Init(), ls), i);
    NodeCuid(Exec(Init(), ls).server, i, Exec(Init(), ls).nodes[i]);
  }

  lemma NodeCuid(server: Server, i: Cuid, n: Node)
    requires NodeOk(server, i, n)
    ensures n.replica.cuid == i
  {
  }

  /** In every run a value is exactly what its snapshot held, every transaction executed since, the own
      acknowledged and the own pending work, and what was dropped when the replica stopped. */
  lemma ReplicaValue(ls: seq<Label>, i: Cuid)
    requires i in Exec(Init(), ls).nodes
    ensures var s := Exec(Init(), ls);
      var n, h := s.nodes[i], s.server.history;
      && n.ledger.since <= n.replica.checkpoint.sseq <= |h|
      && n.replica.value == Wrap(Total(h[..n.ledger.since]) + n.ledger.donated + Total(n.ledger.direct)
                                 + Total(Own(h[n.ledger.since..n.replica.checkpoint.sseq], i))
                                 + n.PendingDelta() + n.ledger.abandoned)
  {
    hide Exec, Total, Above, Own, Foreign, Wrap, Node.PendingDelta;
    ValueByDrift(ls, i);
    var n, h := Exec(Init(), ls).nodes[i], Exec(Init(), ls).server.history;
    SplitSlice(h, n.ledger.since, n.replica.checkpoint.sseq, i);
    SplitAddsUp(h[n.ledger.since..n.replica.checkpoint.sseq], i);
  }

  /** Two quiet replicas that have acknowledged the same history hold equal values exactly when
      their drifts are congruent. */
  lemma EqualValues(ls: seq<Label>, i: Cuid, j: Cuid)
    requires i in Exec(Init(), ls).nodes && j in Exec(Init(), ls).nodes
    requires var s := Exec(Init(), ls);
      && s.nodes[i].Quiet() && s.nodes[j].Quiet()
      && s.nodes[i].replica.checkpoint.sseq == s.nodes[j].replica.checkpoint.sseq
    ensures var s := Exec(Init(), ls);
      (s.nodes[i].replica.value == s.nodes[j].replica.value)
      <==> ((s.nodes[i].Drift(s.server.history) - s.nodes[j].Drift(s.server.history)) % TWO_64 == 0)
  {
    hide Exec, Total, Above, Wrap, Node.Drift;
    var s := Exec(Init(), ls);
    ValueByDrift(ls, i);
    ValueByDrift(ls, j);
    QuietPendsNothing(s.nodes[i]);
    QuietPendsNothing(s.nodes[j]);
    var sum := Total(s.server.history[..s.nodes[i].replica.checkpoint.sseq]);
    WrapCongruence(sum + s.nodes[i].Drift(s.server.history), sum + s.nodes[j].Drift(s.server.history));
  }

  lemma ExactHasNoDrift(n: Node, h: seq<Transaction>)
    requires n.Exact(h)
    ensures n.Drift(h) == 0
  {
  }

  // ---- sequences of transactions ----

  lemma {:induction false} SplitMultiset(txs: seq<Transaction>, i: Cuid)
    ensures multiset(txs) == multiset(Own(txs, i)) + multiset(Foreign(txs, i))
  {
    hide Own, Foreign;
    EmptySplit(i);
    if txs == [] {
    } else {
      var init, last := txs[..|txs| - 1], txs[|txs| - 1];
      assert txs == init + [last];
      SplitSnoc(init, last, i);
      SplitMultiset(init, i);
    }
  }

  lemma {:induction false} ForeignMembers(txs: seq<Transaction>, i: Cuid)
    ensures forall k :: 0 <= k < |Foreign(txs, i)| ==> Foreign(txs, i)[k].cuid != i
    ensures forall k :: 0 <= k < |Own(txs, i)| ==> Own(txs, i)[k].cuid == i
  {
    if txs == [] {
    } else {
      ForeignMembers(txs[..|txs| - 1], i);
    }
  }

  // ---- pushing exactly once ----

  /** However requests are repeated, the history is numbered without gaps, and what it holds of a
      client is exactly the first transactions that client committed, each once and in order,
      unchanged but for the server number. */
  lemma PushedExactlyOnce(ls: seq<Label>, i: Cuid)
    requires i in Exec(Init(), ls).nodes
    ensures var s := Exec(Init(), ls);
      var own, committed := Own(s.server.history, i), s.nodes[i].ledger.committed;
      && s.server.sseq == |s.server.history|
      && (forall j :: 0 <= j < |s.server.history| ==> s.server.history[j].sseq == j + 1)
      && |own| == s.server.Known(i) <= |committed|
      && (forall j :: 0 <= j < |own| ==> own[j].Unnumbered() == committed[j] && own[j].cseq == j + 1)
  {
    hide Own;
    ReachableInv(ls);
    var s := Exec(Init(), ls);
    InvAt(s, i);
  }

  // ---- errors that never happen ----

  /** `NonSequentialCseq` and `GetPushingTransactions` are unreachable. */
  lemma SequenceErrorsUnreachable(ls: seq<Label>, i: Cuid, tag: Option<string>)
    requires i in Exec(Init(), ls).nodes
    ensures var n := Exec(Init(), ls).nodes[i];
      && n.replica.EndTransaction(tag, true).1 != Some(NonSequentialCseq)
      && (!n.stopped ==> n.replica.CreatePack().Success?)
  {
    ReachableInv(ls);
    var s := Exec(Init(), ls);
    InvAt(s, i);
    var r := s.nodes[i].replica;
    if r.record.pending.Some? {
      EnqueueIsSequential(r, r.record.pending.value.(tag := tag));
    }
    if !s.nodes[i].stopped {
      SendableIs(r, s.nodes[i].ledger.committed);
    }
  }

  // ---- which answers are taken exactly ----

  /** The answer to an active subscription: nothing underflows, nothing is skipped, and what is
      executed is precisely the foreign part of the history in between. */
  lemma PulledIsExact(server: Server, i: Cuid, n: Node)
    requires NodeOk(server, i, n) && n.net.Answered? && n.net.kind.Pulled?
    ensures var cp, p, h := n.replica.checkpoint, n.net.answer, server.history;
      && cp.sseq <= p.checkpoint.sseq <= |h|
      && !Underflows(cp, p.checkpoint)
      && PullCount(cp, p.checkpoint) == |p.transactions|
      && Executed(cp, p) == Foreign(h[cp.sseq..p.checkpoint.sseq], i)
  {
    hide Own, Foreign, BufferOk, LogOk;
    var cp, p, h := n.replica.checkpoint, n.net.answer, server.history;
    SplitSlice(h, cp.sseq, p.checkpoint.sseq, i);
    SplitAddsUp(h[cp.sseq..p.checkpoint.sseq], i);
    assert |Own(h[..p.checkpoint.sseq], i)| == p.checkpoint.cseq;
  }

  /** Taking the answer to an active subscription executes the foreign transactions up to the new
      checkpoint, and so keeps a replica as faithful as it was. */
  lemma PulledKeepsFaithful(server: Server, i: Cuid, n: Node)
    requires NodeOk(server, i, n) && n.net.Answered? && n.net.kind.Pulled?
    requires n.ledger.since <= n.replica.checkpoint.sseq
    requires ApplyPull(n.replica, n.net.answer).1.Synced?
    ensures n.replica.checkpoint.sseq <= n.net.answer.checkpoint.sseq <= |server.history|
    ensures var led := n.Deliver().ledger;
      led == n.ledger.(direct := n.ledger.direct
        + Foreign(server.history[n.replica.checkpoint.sseq..n.net.answer.checkpoint.sseq], i))
    ensures n.Deliver().replica.checkpoint.sseq == n.net.answer.checkpoint.sseq
    ensures n.Deliver().Faithful(server.history) <==> n.Faithful(server.history)
  {
    hide Own, Foreign, Total, Executed, BufferOk, HeldOk, LogOk;
    PulledIsExact(server, i, n);
    PulledNeverJoins(server, i, n);
    OwedGrows(server.history, i, n, n.Deliver());
    SameBefore(n.ledger.direct, n.Owed(server.history),
               Foreign(server.history[n.replica.checkpoint.sseq..n.net.answer.checkpoint.sseq], i));
  }

  lemma SameBefore(a: seq<Transaction>, b: seq<Transaction>, tail: seq<Transaction>)
    ensures a + tail == b + tail <==> a == b
  {
    if a + tail == b + tail {
      assert a == (a + tail)[..|a|] && b == (b + tail)[..|b|];
    }
  }

  lemma SameAfter(a: seq<Transaction>, x: seq<Transaction>, y: seq<Transaction>)
    ensures a + x == a + y <==> x == y
  {
    if a + x == a + y {
      assert x == (a + x)[|a|..] && y == (a + y)[|a|..];
    }
  }

  /** What is owed grows by the foreign transactions between the checkpoints. */
  lemma OwedGrows(h: seq<Transaction>, i: Cuid, n: Node, n': Node)
    requires n.ledger.since == n'.ledger.since <= n.replica.checkpoint.sseq <= n'.replica.checkpoint.sseq <= |h|
    requires n.replica.cuid == n'.replica.cuid == i
    ensures n'.Owed(h) == n.Owed(h) + Foreign(h[n.replica.checkpoint.sseq..n'.replica.checkpoint.sseq], i)
  {
    hide Foreign;
    ForeignWindows(h, n.ledger.since, n.replica.checkpoint.sseq, n'.replica.checkpoint.sseq, i);
  }

  lemma PulledNeverJoins(server: Server, i: Cuid, n: Node)
    requires NodeOk(server, i, n) && n.net.Answered? && (n.net.kind.Pulled? || n.net.kind.Created?)
    ensures !Joins(n.replica, n.net.answer) && n.replica.cuid == i
  {
  }

  /** An acknowledged creation leaves a faithful replica faithful exactly when no foreign transaction
      has come first: a repeated creation request is answered with the current number but pulls nothing,
      so those are lost to the replica for good, and its value falls short by their sum. */
  lemma CreatedFaithfulIff(server: Server, i: Cuid, n: Node)
    requires NodeOk(server, i, n) && n.net.Answered? && n.net.kind.Created?
    requires n.ledger.since <= n.replica.checkpoint.sseq && n.Faithful(server.history)
    requires ApplyPull(n.replica, n.net.answer).1.Synced?
    ensures n.replica.checkpoint.sseq <= n.net.answer.checkpoint.sseq <= |server.history|
    ensures var n', h := n.Deliver(), server.history;
      var lost := Foreign(h[n.replica.checkpoint.sseq..n.net.answer.checkpoint.sseq], i);
      && (n'.Faithful(h) <==> lost == [])
      && n'.Drift(h) == n.Drift(h) - Total(lost)
      && n'.ledger == n.ledger
  {
    hide Own, Foreign, Total, BufferOk, HeldOk, LogOk;
    PulledNeverJoins(server, i, n);
    NothingTotal();
    var n', h := n.Deliver(), server.history;
    assert n.ledger.direct + [] == n.ledger.direct;
    OwedGrows(h, i, n, n');
    TotalAppend(n.Owed(h), Foreign(h[n.replica.checkpoint.sseq..n.net.answer.checkpoint.sseq], i));
  }

  lemma NothingTotal()
    ensures Total([]) == 0
  {
  }

  /** An underflow of the unsigned subtraction happens for exactly two answers: the one to an
      unsubscription the server has already carried out, and a subscription answer given to a
      replica that already has acknowledged transactions. */
  lemma UnderflowIff(server: Server, i: Cuid, n: Node)
    requires NodeOk(server, i, n) && n.net.Answered? && n.net.answer.error.None?
    ensures Underflows(n.replica.checkpoint, n.net.answer.checkpoint) <==>
      || (n.net.kind.Void? && n.replica.checkpoint != ZERO_CHECKPOINT)
      || (n.net.kind.Joined? && n.replica.checkpoint.cseq > 0)
  {
    hide Own, Foreign, BufferOk, LogOk;
    var cp, p, h := n.replica.checkpoint, n.net.answer, server.history;
    if n.net.kind.Pulled? || n.net.kind.Created? {
      SplitSlice(h, cp.sseq, p.checkpoint.sseq, i);
      SplitAddsUp(h[cp.sseq..p.checkpoint.sseq], i);
    }
  }

  /** How many transactions a replica takes for new when a subscription answer carries cseq 0. */
  lemma WrappedNeed(was: CheckPoint, now: CheckPoint)
    requires was.sseq <= now.sseq < TWO_63 && was.cseq < TWO_63 && now.cseq == 0
    ensures PullCount(was, now) == now.sseq - was.sseq + was.cseq
  {
    var t, c := now.sseq - was.sseq, was.cseq;
    if c > 0 {
      assert (0 - c) % TWO_64 == TWO_64 - c;
      assert t - (TWO_64 - c) == (t + c) + TWO_64 * (-1);
      assert (t - (TWO_64 - c)) % TWO_64 == t + c;
    }
  }

  /** What the invariant says of a subscription answer given to a replica that has already been let in. */
  lemma RepeatedJoinGiven(server: Server, i: Cuid, n: Node)
    requires NodeOk(server, i, n) && n.net.Answered? && n.net.kind.Joined?
    requires Attached(server, n.replica.duid)
    ensures !Joins(n.replica, n.net.answer) && n.replica.cuid == i
    ensures var p, h, cp := n.net.answer, server.history, n.replica.checkpoint;
      && p.snapshotTransaction.Some? && p.snapshotTransaction.value.sseq <= p.checkpoint.sseq <= |h|
      && cp.sseq <= p.checkpoint.sseq && p.checkpoint.cseq == 0
      && p.transactions == Foreign(h[p.snapshotTransaction.value.sseq..p.checkpoint.sseq], i)
      && |Own(h[..cp.sseq], i)| == cp.cseq == |Own(h[..p.checkpoint.sseq], i)|
  {
    hide Own, Foreign, BufferOk, LogOk, RunOk;
  }

  /** What such a replica executes of the answer: the snapshot is ignored, and of the transactions after
      its number too few are skipped as soon as some of the own ones have been acknowledged. */
  lemma RepeatedJoinExecutes(server: Server, i: Cuid, n: Node)
    requires NodeOk(server, i, n) && n.net.Answered? && n.net.kind.Joined?
    requires Attached(server, n.replica.duid) && n.net.answer.checkpoint.sseq < TWO_63
    requires n.net.answer.snapshotTransaction.Some?
    requires n.replica.checkpoint.sseq <= n.net.answer.checkpoint.sseq <= |server.history|
    ensures n.net.answer.snapshotTransaction.value.sseq <= |server.history|
    ensures var h, sd, s, t := server.history, n.net.answer.snapshotTransaction.value.sseq,
                               n.replica.checkpoint.sseq, n.net.answer.checkpoint.sseq;
      Executed(n.replica.checkpoint, n.net.answer) == Foreign(h[s..t], i)
      <==> if sd <= s then n.replica.checkpoint.cseq == 0 || Foreign(h[sd..s], i) == []
           else Foreign(h[s..sd], i) == []
  {
    hide Own, Foreign, NodeOk, Executed;
    RepeatedJoinGiven(server, i, n);
    if n.net.answer.snapshotTransaction.value.sseq <= n.replica.checkpoint.sseq {
      EarlierSnapshot(server.history, i, n.replica.checkpoint, n.net.answer,
                      n.net.answer.snapshotTransaction.value.sseq);
    } else {
      LaterSnapshot(server.history, i, n.replica.checkpoint, n.net.answer,
                    n.net.answer.snapshotTransaction.value.sseq);
    }
  }

  /** Of an answer from before the checkpoint the surplus over the own transactions is skipped. */
  lemma EarlierSnapshot(h: seq<Transaction>, i: Cuid, cp: CheckPoint, p: PushPullPack, sd: nat)
    requires sd <= cp.sseq <= p.checkpoint.sseq <= |h| && p.checkpoint.sseq < TWO_63 && p.checkpoint.cseq == 0
    requires |Own(h[..cp.sseq], i)| == cp.cseq == |Own(h[..p.checkpoint.sseq], i)|
    requires p.transactions == Foreign(h[sd..p.checkpoint.sseq], i)
    ensures Executed(cp, p) == Foreign(h[cp.sseq..p.checkpoint.sseq], i)
      <==> cp.cseq == 0 || Foreign(h[sd..cp.sseq], i) == []
  {
    hide Own, Foreign, PullCount;
    var s, t := cp.sseq, p.checkpoint.sseq;
    var repeated, missing := Foreign(h[sd..s], i), Foreign(h[s..t], i);
    NothingOwnSince(h, i, s, t);
    OwnBound(h, i, s);
    WrappedNeed(cp, p.checkpoint);
    ForeignWindows(h, sd, s, t, i);
    var skip := SkipCount(cp, p);
    assert skip <= |repeated|;
    assert Executed(cp, p) == repeated[skip..] + missing;
    assert [] + missing == missing;
    SameBefore(repeated[skip..], [], missing);
  }

  /** Of an answer from after the checkpoint nothing is skipped. */
  lemma LaterSnapshot(h: seq<Transaction>, i: Cuid, cp: CheckPoint, p: PushPullPack, sd: nat)
    requires cp.sseq < sd <= p.checkpoint.sseq <= |h| && p.checkpoint.sseq < TWO_63 && p.checkpoint.cseq == 0
    requires |Own(h[..cp.sseq], i)| == cp.cseq
    requires p.transactions == Foreign(h[sd..p.checkpoint.sseq], i)
    ensures Executed(cp, p) == Foreign(h[cp.sseq..p.checkpoint.sseq], i)
      <==> Foreign(h[cp.sseq..sd], i) == []
  {
    hide Own, Foreign, PullCount;
    var s, t := cp.sseq, p.checkpoint.sseq;
    OwnBound(h, i, s);
    WrappedNeed(cp, p.checkpoint);
    ForeignWindows(h, s, sd, t, i);
    SplitAddsUp(h[sd..t], i);
    assert Executed(cp, p) == p.transactions;
    assert [] + Foreign(h[sd..t], i) == Foreign(h[sd..t], i);
    SameBefore(Foreign(h[s..sd], i), [], Foreign(h[sd..t], i));
  }

  lemma OwnBound(h: seq<Transaction>, i: Cuid, s: nat)
    requires s <= |h|
    ensures |Own(h[..s], i)| <= s
  {
    hide Own, Foreign;
    SplitAddsUp(h[..s], i);
  }

  lemma NothingOwnSince(h: seq<Transaction>, i: Cuid, s: nat, t: nat)
    requires s <= t <= |h| && |Own(h[..s], i)| == |Own(h[..t], i)|
    ensures |Foreign(h[s..t], i)| == t - s
  {
    hide Own, Foreign;
    SplitSlice(h, s, t, i);
    SplitAddsUp(h[s..t], i);
  }

  /** A subscription answer given to a replica that has already been let in leaves it faithful exactly
      when the snapshot is no newer than its checkpoint or nothing foreign lies in between, and no older
      or nothing foreign lies in between or none of its own transactions have been acknowledged. */
  lemma RepeatedJoinFaithfulIff(server: Server, i: Cuid, n: Node)
    requires NodeOk(server, i, n) && n.net.Answered? && n.net.kind.Joined?
    requires Attached(server, n.replica.duid) && n.net.answer.checkpoint.sseq < TWO_63
    requires n.ledger.since <= n.replica.checkpoint.sseq && n.Faithful(server.history)
    requires n.net.answer.snapshotTransaction.Some?
    requires ApplyPull(n.replica, n.net.answer).1.Synced?
    ensures n.replica.checkpoint.sseq <= |server.history|
    ensures n.net.answer.snapshotTransaction.value.sseq <= |server.history|
    ensures var h, sd, s := server.history, n.net.answer.snapshotTransaction.value.sseq, n.replica.checkpoint.sseq;
      n.Deliver().Faithful(h)
      <==> if sd <= s then n.replica.checkpoint.cseq == 0 || Foreign(h[sd..s], i) == []
           else Foreign(h[s..sd], i) == []
    ensures n.Deliver().ledger == n.ledger.(direct := n.Deliver().ledger.direct)
  {
    hide Own, Foreign, Total, Executed, NodeOk, TopLamport;
    RepeatedJoinGiven(server, i, n);
    RepeatedJoinExecutes(server, i, n);
    var h, s, t := server.history, n.replica.checkpoint.sseq, n.net.answer.checkpoint.sseq;
    SyncedMoves(n);
    OwedGrows(h, i, n, n.Deliver());
    SameAfter(n.ledger.direct, Executed(n.replica.checkpoint, n.net.answer), Foreign(h[s..t], i));
  }

  /** Where an answer that is not a subscription leaves checkpoint and ledger. */
  lemma SyncedMoves(n: Node)
    requires n.net.Answered? && ApplyPull(n.replica, n.net.answer).1.Synced? && !Joins(n.replica, n.net.answer)
    ensures n.Deliver().replica.checkpoint == n.replica.checkpoint.CheckWith(n.net.answer.checkpoint)
    ensures n.Deliver().replica.cuid == n.replica.cuid
    ensures n.Deliver().ledger
      == n.ledger.(direct := n.ledger.direct + Executed(n.replica.checkpoint, n.net.answer))
  {
    hide Executed, Total, TopLamport;
  }

  /** The answer to an unsubscription the server has already carried out makes the subtraction
      underflow, and yet changes nothing but the state. */
  lemma VoidIsHarmless(server: Server, i: Cuid, n: Node)
    requires NodeOk(server, i, n) && n.net.Answered? && n.net.kind.Void?
    requires n.replica.state.Unsubscribing?
    ensures AfterPull(n.replica, n.net.answer) == (n.replica.(state := Disabled), Synced)
  {
    hide NodeOk, AfterPull;
    VoidIs(server, i, n);
    StubTaken(n.replica, n.net.answer);
  }

  lemma NothingExecuted(was: CheckPoint, p: PushPullPack)
    requires p.transactions == []
    ensures Executed(was, p) == []
  {
    hide PullCount;
  }

  lemma StubTaken(r: Replica, p: PushPullPack)
    requires p.error.None? && p.checkpoint == ZERO_CHECKPOINT && p.transactions == []
    requires p.state.Disabled? && r.state.Unsubscribing?
    ensures AfterPull(r, p) == (r.(state := Disabled), Synced)
  {
    hide Executed, Replica.ExecuteRemote, Subscribe;
    NothingExecuted(r.checkpoint, p);
    assert r.checkpoint.CheckWith(p.checkpoint) == r.checkpoint;
    NothingRemote(r);
    assert ApplyPull(r, p) == (Absorb(r, p), Synced);
  }

  lemma VoidIs(server: Server, i: Cuid, n: Node)
    requires NodeOk(server, i, n) && n.net.Answered? && n.net.kind.Void?
    ensures var p := n.net.answer;
      p.error.None? && p.checkpoint == ZERO_CHECKPOINT && p.transactions == [] && p.state.Disabled?
  {
    hide BufferOk, HeldOk, LogOk, RunOk;
  }

  lemma NothingRemote(r: Replica)
    ensures r.ExecuteRemote([]) == r
  {
  }

  // ---- answers to old requests ----

  /** The dedupe arithmetic: of an answer computed from an older checkpoint of the same client,
      exactly the part already applied is skipped. */
  lemma DedupeFromOlder(h: seq<Transaction>, i: Cuid, older: CheckPoint, cp: CheckPoint, p: PushPullPack)
    requires forall j :: 0 <= j < |h| ==> h[j].sseq == j + 1
    requires older.sseq <= cp.sseq <= p.checkpoint.sseq == |h|
    requires |Own(h[..cp.sseq], i)| == cp.cseq && |Own(h, i)| == p.checkpoint.cseq
    requires p.transactions == PullAfter(h, older.sseq, i)
    ensures !Underflows(cp, p.checkpoint)
    ensures PullCount(cp, p.checkpoint) == |Foreign(h[cp.sseq..], i)|
    ensures p.transactions[..SkipCount(cp, p)] == Foreign(h[older.sseq..cp.sseq], i)
    ensures Executed(cp, p) == Foreign(h[cp.sseq..], i)
  {
    hide Own, Foreign, PullAfter;
    PullAfterIsForeign(h, older.sseq, i);
    ForeignWindows(h, older.sseq, cp.sseq, |h|, i);
    assert h[older.sseq..|h|] == h[older.sseq..] && h[cp.sseq..|h|] == h[cp.sseq..] && h[..|h|] == h;
    SplitSlice(h, cp.sseq, |h|, i);
    SplitAddsUp(h[cp.sseq..], i);
  }

  /** A retransmitted request: any run of the client's log starting at or below what the server
      holds, sent from any checkpoint the client has passed. */
  ghost predicate Retransmission(server: Server, i: Cuid, n: Node, older: CheckPoint, p: PushPullPack) {
    && p.cuid == i && p.checkpoint.sseq == older.sseq <= n.replica.checkpoint.sseq
    && older.cseq <= server.Known(i) && older.cseq + |p.transactions| <= |n.ledger.committed|
    && p.transactions == n.ledger.committed[older.cseq..older.cseq + |p.transactions|]
    && (p.isReadonly ==> p.transactions == [])
  }

  lemma {:induction false} AcceptedNothing(sseq: nat, known: nat, txs: seq<Transaction>)
    requires forall j :: 0 <= j < |txs| ==> txs[j].cseq <= known
    ensures Accepted(sseq, known, txs) == []
  {
    if txs == [] {
    } else {
      AcceptedNothing(sseq, known, txs[1..]);
    }
  }

  /** What a retransmission adds: the unheld rest of its run, which may be nothing. */
  lemma RetransmissionAdds(server: Server, i: Cuid, c: nat, log: seq<Transaction>, p: PushPullPack)
    requires LogOk(log, i) && p.cuid == i
    requires c <= server.Known(i) <= |log| && c + |p.transactions| <= |log|
    requires p.transactions == log[c..c + |p.transactions|]
    ensures var k, end := server.Known(i), c + |p.transactions|;
      server.NewFrom(p) == if k <= end then Stamped(server.sseq, log[k..end]) else []
  {
    hide Accepted, OwnTx;
    var k, m := server.Known(i), |p.transactions|;
    if k <= c + m {
      AcceptedIsSuffix(server.sseq, k, c, p.transactions);
      assert p.transactions[k - c..] == log[k..c + m];
    } else {
      AcceptedNothing(server.sseq, k, p.transactions);
    }
  }

  /** A handle created again under a client id the server still remembers starts over at cseq 1: its
      first transactions are taken for repetitions, so all are recorded exactly when the server holds
      none of that client, or nothing is pushed. */
  lemma ReusedClientIdIff(server: Server, p: PushPullPack)
    requires forall j :: 0 <= j < |p.transactions| ==> p.transactions[j].cseq == 1 + j
    ensures server.NewFrom(p) == (if server.Known(p.cuid) <= |p.transactions|
                                  then Stamped(server.sseq, p.transactions[server.Known(p.cuid)..]) else [])
    ensures |server.NewFrom(p)| == |p.transactions| <==> server.Known(p.cuid) == 0 || p.transactions == []
  {
    hide Accepted;
    var k := server.Known(p.cuid);
    if k <= |p.transactions| {
      AcceptedIsSuffix(server.sseq, k, 0, p.transactions);
    } else {
      AcceptedNothing(server.sseq, k, p.transactions);
    }
  }

  lemma AddedByOne(server: Server, i: Cuid, added: seq<Transaction>, p: PushPullPack)
    requires HistoryOk(server) && p.cuid == i && added == server.NewFrom(p)
    requires |Own(server.history, i)| == server.Known(i)
    requires forall j :: 0 <= j < |added| ==>
      && added[j].cuid == i && added[j].OnlyIncreases() && added[j].sseq == server.sseq + 1 + j
      && added[j].cseq == server.Known(i) + 1 + j
    ensures var server' := server.Push(p);
      && server.history <= server'.history && HistoryOk(server')
      && |Own(server'.history, i)| == server'.Known(i)
  {
    hide Own, Accepted, Transaction.OnlyIncreases;
    SplitAppend(server.history, added, i);
    AllOwn(added, i);
  }

  lemma RetransmissionPushed(server: Server, i: Cuid, n: Node, older: CheckPoint, p: PushPullPack)
    requires HistoryOk(server) && NodeOk(server, i, n) && Retransmission(server, i, n, older, p)
    ensures var server' := server.Push(p);
      && server.history <= server'.history && HistoryOk(server')
      && |Own(server'.history, i)| == server'.Known(i)
  {
    hide Own, Accepted, OwnTx, BufferOk, NetOk, StateOk, RunOk, Fitting;
    var k, end, log := server.Known(i), older.cseq + |p.transactions|, n.ledger.committed;
    RetransmissionAdds(server, i, older.cseq, log, p);
    if k <= end {
      StampedLog(server.sseq, log, k, end, i);
    }
    AddedByOne(server, i, server.NewFrom(p), p);
  }

  /** Whatever old request is handled again, its answer makes the client execute exactly the
      foreign transactions it has not executed yet, and the history stays free of repeats. */
  lemma RetransmissionHarmless(ls: seq<Label>, i: Cuid, older: CheckPoint, p: PushPullPack)
    requires i in Exec(Init(), ls).nodes
    requires Retransmission(Exec(Init(), ls).server, i, Exec(Init(), ls).nodes[i], older, p)
    ensures var s := Exec(Init(), ls);
      var cp := s.nodes[i].replica.checkpoint;
      var (server', answer) := s.server.ProcessClientPush(p, Subscribed);
      && s.server.history <= server'.history && HistoryOk(server')
      && |Own(server'.history, i)| == server'.Known(i)
      && cp.sseq <= |server'.history|
      && !Underflows(cp, answer.checkpoint)
      && Executed(cp, answer) == Foreign(server'.history[cp.sseq..], i)
  {
    hide Own, Foreign, PullAfter, Accepted, Executed, Inv, Exec;
    ReachableInv(ls);
    var s := Exec(Init(), ls);
    var n := s.nodes[i];
    InvAt(s, i);
    ServerHistoryOk(s);
    RetransmissionPushed(s.server, i, n, older, p);
    HeldPrefix(s.server, i, n);
    var (server', answer) := s.server.ProcessClientPush(p, Subscribed);
    assert server'.history[..n.replica.checkpoint.sseq] == s.server.history[..n.replica.checkpoint.sseq];
    DedupeFromOlder(server'.history, i, older, n.replica.checkpoint, answer);
  }

  lemma ServerHistoryOk(s: System)
    requires Inv(s)
    ensures HistoryOk(s.server)
  {
  }

  lemma HeldPrefix(server: Server, i: Cuid, n: Node)
    requires NodeOk(server, i, n)
    ensures n.replica.checkpoint.sseq <= |server.history|
    ensures |Own(server.history[..n.replica.checkpoint.sseq], i)| == n.replica.checkpoint.cseq
  {
  }

  // ---- what the server remembers of a client ----

  /** The checkpoint the server keeps of a client is a true one: so many of the client's transactions are
      within so much of the history. */
  ghost predicate RememberedOk(server: Server, i: Cuid) {
    i in server.cseqMap ==>
      var cp := server.cseqMap[i];
      cp.sseq <= |server.history| && |Own(server.history[..cp.sseq], i)| == cp.cseq
  }

  lemma RequestRemembers(s: System, i: Cuid, heir: Cuid, j: Cuid)
    requires Enabled(s, Process(i, heir))
    ensures var server' := Next(s, Process(i, heir)).server;
      j in server'.cseqMap ==>
        (j in s.server.cseqMap && server'.cseqMap[j] == s.server.cseqMap[j]) || server'.cseqMap[j].sseq == server'.sseq
  {
    hide Accepted, PullAfter, Node.Held, Node.Drift, Node.PendingDelta, Replica.SnapshotTransaction;
  }

  lemma StepRemembers(s: System, l: Label, j: Cuid)
    requires Inv(s) && j in Next(s, l).server.cseqMap
    ensures (j in s.server.cseqMap && Next(s, l).server.cseqMap[j] == s.server.cseqMap[j])
      || Next(s, l).server.cseqMap[j].sseq == Next(s, l).server.sseq
  {
    hide Inv, Handle, Node.Deliver, Node.Build, Node.Finish;
    if l.Process? && Enabled(s, l) { RequestRemembers(s, l.i, l.heir, j); }
    if s.phase == Fresh { NothingRemembered(s); }
  }

  lemma NothingRemembered(s: System)
    requires Inv(s) && s.phase == Fresh
    ensures s.server.cseqMap == map[]
  {
    hide NodeOk;
  }

  lemma {:induction false} ServerRemembers(ls: seq<Label>, i: Cuid)
    ensures RememberedOk(Exec(Init(), ls).server, i)
  {
    hide Inv, Next, Own;
    ReachableInv(ls);
    if ls != [] && i in Exec(Init(), ls).server.cseqMap {
      var s, l, s' := Exec(Init(), ls[..|ls| - 1]), ls[|ls| - 1], Exec(Init(), ls);
      ReachableInv(ls[..|ls| - 1]);
      ServerRemembers(ls[..|ls| - 1], i);
      StepRemembers(s, l, i);
      HistoryGrows(s, l);
      KnownIsOwn(s', i);
      if i in s.server.cseqMap && s'.server.cseqMap[i] == s.server.cseqMap[i] {
        var k := s.server.cseqMap[i].sseq;
        assert s'.server.history[..k] == s.server.history[..k];
      } else {
        assert s'.server.history[..|s'.server.history|] == s'.server.history;
      }
    }
  }

  lemma KnownIsOwn(s: System, i: Cuid)
    requires Inv(s) && i in s.server.cseqMap
    ensures s.server.sseq == |s.server.history| && |Own(s.server.history, i)| == s.server.cseqMap[i].cseq
  {
    hide BufferOk, LogOk, RunOk, StateOk, NetOk, Fitting;
    assert NodeOk(s.server, i, s.nodes[i]);
  }

  // ---- joining from a snapshot ----

  /** A subscriber that takes the snapshot and the pulled tail holds what replaying the whole
      history would give, plus the donor's drift and pending work when the server asked it; so it
      agrees with the replay exactly when those vanish. */
  lemma SnapshotJoin(ls: seq<Label>, i: Cuid, heir: Cuid)
    requires var s := Exec(Init(), ls);
      && i in s.nodes && s.nodes[i].net.Sent? && Enabled(s, Process(i, heir))
      && Donor(s).Some?
      && var net := Handle(s, s.nodes[i].net.request, heir).1;
         net.kind.Joined? && Joins(s.nodes[i].replica, net.answer)
         && ApplyPull(s.nodes[i].replica, net.answer).1.Synced?
    ensures var s := Exec(Init(), ls);
      var s' := Exec(Init(), ls + [Process(i, heir), Deliver(i)]);
      var donated := Donor(s).value.Drift(s.server.history) + Donor(s).value.PendingDelta();
      && s'.server.history == s.server.history
      && i in s'.nodes && s'.nodes[i].replica.checkpoint == CheckPoint(|s'.server.history|, 0)
      && s'.nodes[i].replica.value == Wrap(Total(s'.server.history) + donated)
      && (s'.nodes[i].replica.value == Wrap(Total(s'.server.history)) <==> donated % TWO_64 == 0)
      && s'.nodes[i].Faithful(s'.server.history)
      && (s'.nodes[i].Exact(s'.server.history) <==> donated == 0)
  {
    hide Inv, Meaningful, ApplyPull, Handle, Joins, Donor, Exec;
    hide Total, Wrap, Node.Deliver, Node.PendingDelta, Node.Drift;
    var s := Exec(Init(), ls);
    var l1, l2 := Process(i, heir), Deliver(i);
    ExecTwo(Init(), ls, l1, l2);
    ExecOne(Init(), ls, l1);
    ReachableInv(ls);
    ReachableMeaningful(ls + [l1]);
    ServerHistoryOk(s);
    JoinedServer(s, i, heir);
    JoinDelivered(Next(s, l1), i);
  }

  lemma ExecOne(s: System, ls: seq<Label>, l: Label)
    ensures Exec(s, ls + [l]) == Next(Exec(s, ls), l)
  {
    hide Next;
    assert (ls + [l])[..|ls|] == ls;
  }

  lemma ExecTwo(s: System, ls: seq<Label>, l1: Label, l2: Label)
    ensures Exec(s, ls + [l1, l2]) == Next(Next(Exec(s, ls), l1), l2)
  {
    hide Next, Exec;
    ExecOne(s, ls, l1);
    ExecOne(s, ls + [l1], l2);
    assert ls + [l1, l2] == (ls + [l1]) + [l2];
  }

  lemma JoinDelivered(s: System, i: Cuid)
    requires Inv(s) && Meaningful(s) && i in s.nodes
    requires var n := s.nodes[i];
      && n.net.Answered? && n.net.kind.Joined? && Joins(n.replica, n.net.answer)
      && ApplyPull(n.replica, n.net.answer).1.Synced?
      && n.net.answer.checkpoint == CheckPoint(|s.server.history|, 0)
    ensures var n, n' := s.nodes[i], s.nodes[i].Deliver();
      && n'.replica.checkpoint == n.net.answer.checkpoint
      && n'.replica.value == Wrap(Total(s.server.history) + n.net.donated)
      && (n'.replica.value == Wrap(Total(s.server.history)) <==> n.net.donated % TWO_64 == 0)
      && n'.Faithful(s.server.history) && n'.ledger.donated == n.net.donated && n'.ledger.abandoned == 0
  {
    hide Inv, Meaningful, MeaningOk, NodeOk, ApplyPull, Joins;
    hide Total, Wrap, Node.Deliver, Node.PendingDelta, Node.Drift;
    ActorOk(s, i);
    var n, h := s.nodes[i], s.server.history;
    JoinMeans(s.server, i, n);
    ValueAtEnd(s.server, n.Deliver());
    WrapCongruence(Total(h) + n.net.donated, Total(h));
  }

  lemma ValueAtEnd(server: Server, n: Node)
    requires MeaningOk(server, n) && n.replica.checkpoint.sseq == |server.history|
    ensures n.replica.value == Wrap(Total(server.history) + n.PendingDelta() + n.Drift(server.history))
  {
    assert server.history[..|server.history|] == server.history;
  }

  /** Answering a subscription changes nothing on the server. */
  lemma JoinedServer(s: System, i: Cuid, heir: Cuid)
    requires i in s.nodes && s.nodes[i].net.Sent? && Enabled(s, Process(i, heir))
    requires Handle(s, s.nodes[i].net.request, heir).1.kind.Joined? && Donor(s).Some?
    ensures var s1 := Next(s, Process(i, heir));
      && s1.server == s.server && i in s1.nodes
      && s1.nodes[i] == s.nodes[i].(net := Handle(s, s.nodes[i].net.request, heir).1)
      && s1.nodes[i].net.Answered? && s1.nodes[i].net.kind.Joined?
      && s1.nodes[i].net.answer.checkpoint == CheckPoint(s.server.sseq, 0)
      && s1.nodes[i].net.donated == Donor(s).value.Drift(s.server.history) + Donor(s).value.PendingDelta()
      && s1.nodes[i].net.folded == Donor(s).value.Held()
  {
    hide Accepted, PullAfter;
  }
}
