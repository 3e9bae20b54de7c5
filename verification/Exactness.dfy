/** Runs in which every donor is quiet and no creation is acknowledged again behind a transaction of
    another client: no replica drifts, so each value is exactly the acknowledged history and the own
    pending work, and every foreign transaction is executed exactly once. */
module Exactness {
  import opened Types
  import opened CounterArithmetic
  import opened PushBuffer
  import opened History
  import opened Replica
  import opened PullHandling
  import opened DatatypeServer
  import opened Protocol
  import opened Invariant
  import opened Delivery
  import opened Requests
  import opened Meaning
  import opened Theorems
  import opened Lamports
  import opened Registration

  /** The snapshot number `sd` fits a replica at checkpoint `cp`: what an answer after `sd` adds to it is
      exactly what it misses. */
  predicate Aligned(h: seq<Transaction>, i: Cuid, cp: CheckPoint, sd: nat) {
    if sd <= cp.sseq then cp.cseq == 0 || (cp.sseq <= |h| && Foreign(h[sd..cp.sseq], i) == [])
    else sd <= |h| && Foreign(h[cp.sseq..sd], i) == []
  }

  /** A creation request of the client that has already created the datatype, when others have pushed
      in between; or, asked as a subscription, when the donor's number does not fit it. */
  predicate RepeatsCreationLate(s: System, l: Label) {
    && l.Process? && Enabled(s, l) && s.phase == Live && s.server.created
    && var p, h, cp := s.nodes[l.i].net.request, s.server.history, s.nodes[l.i].replica.checkpoint;
       && p.duid == s.server.duid
       && ((p.state.Creating? && cp.sseq <= |h| && Foreign(h[cp.sseq..], l.i) != [])
           || (p.state.SubscribingOrCreating? && Donor(s).Some?
               && (|h| >= TWO_63 || !Aligned(h, l.i, cp, Donor(s).value.replica.checkpoint.sseq))))
  }

  /** A subscription of a newcomer while the creator has stopped, or has work open or unacknowledged. */
  predicate AsksUnquietDonor(s: System, l: Label) {
    && l.Process? && Enabled(s, l) && s.phase == Live && s.server.created
    && var p := s.nodes[l.i].net.request;
       && p.duid != s.server.duid && (p.state.Subscribing? || p.state.SubscribingOrCreating?)
       && Donor(s).Some? && (Donor(s).value.stopped || !Donor(s).value.Quiet())
  }

  predicate Clean(s: System, ls: seq<Label>) {
    ls == []
    || (Clean(s, ls[..|ls| - 1])
        && !RepeatsCreationLate(Exec(s, ls[..|ls| - 1]), ls[|ls| - 1])
        && !AsksUnquietDonor(Exec(s, ls[..|ls| - 1]), ls[|ls| - 1]))
  }

  /** An answer that will leave its replica exact. */
  ghost predicate AnswerExact(server: Server, i: Cuid, n: Node) {
    n.net.Answered? ==>
      && (n.net.kind.Joined? ==>
            && n.net.answer.snapshotTransaction.Some?
            && (if Attached(server, n.replica.duid)
                then n.net.answer.checkpoint.sseq < TWO_63
                     && Aligned(server.history, i, n.replica.checkpoint, n.net.answer.snapshotTransaction.value.sseq)
                else n.net.donated == 0))
      && (n.net.kind.Created? ==>
            n.replica.checkpoint.sseq <= n.net.answer.checkpoint.sseq <= |server.history|
            && Foreign(server.history[n.replica.checkpoint.sseq..n.net.answer.checkpoint.sseq], i) == [])
  }

  ghost predicate NodeExact(server: Server, i: Cuid, n: Node) {
    (!n.stopped ==> n.Exact(server.history)) && AnswerExact(server, i, n)
  }

  ghost predicate ExactAt(s: System, i: Cuid) {
    i in s.nodes && NodeExact(s.server, i, s.nodes[i])
  }

  ghost predicate AllExact(s: System) {
    forall i :: i in s.nodes ==> ExactAt(s, i)
  }

  // ---- answers ----

  /** A subscription answer finds its replica still waiting for one. */
  lemma StillJoins(server: Server, i: Cuid, n: Node)
    requires NodeOk(server, i, n) && n.net.Answered? && n.net.kind.Joined?
    requires !Attached(server, n.replica.duid)
    ensures Joins(n.replica, n.net.answer)
  {
    hide BufferOk, LogOk, HeldOk, RunOk, Own, Foreign;
  }

  lemma VoidKeepsExact(server: Server, i: Cuid, n: Node)
    requires NodeOk(server, i, n) && n.net.Answered? && n.net.kind.Void?
    requires ApplyPull(n.replica, n.net.answer).1.Synced? && n.Exact(server.history)
    ensures n.Deliver().Exact(server.history)
  {
    hide NodeOk, Total, Foreign, Executed, ApplyPull, Node.Deliver;
    VoidIs(server, i, n);
    VoidNeverJoins(n);
    NothingExecuted(n.replica.checkpoint, n.net.answer);
    SyncedMoves(n);
    assert n.ledger.direct + [] == n.ledger.direct;
  }

  lemma VoidNeverJoins(n: Node)
    requires n.net.Answered? && n.net.answer.state.Disabled?
    requires ApplyPull(n.replica, n.net.answer).1.Synced?
    ensures !Joins(n.replica, n.net.answer)
  {
    hide Absorb, Subscribe;
  }

  lemma DeliverExact(server: Server, i: Cuid, n: Node)
    requires NodeOk(server, i, n) && MeaningOk(server, n) && n.net.Answered?
    requires NodeExact(server, i, n)
    ensures NodeExact(server, i, n.Deliver())
  {
    hide NodeOk, MeaningOk, ApplyPull, Node.Settled, Foreign, Above, Total, Aligned;
    NeverUnimplemented(server, i, n);
    AnswerKind(server, i, n);
    RunningActor(server, i, n);
    if ApplyPull(n.replica, n.net.answer).1.Failed? {
      FailedIs(n);
    } else {
      NoErrorWhenSynced(n);
      SyncedExact(server, i, n);
    }
  }

  /** Only an answer to an active subscription needs to know that the ledger starts in the past. */
  lemma Ranges(server: Server, n: Node)
    requires MeaningOk(server, n)
    ensures n.ledger.since <= n.replica.checkpoint.sseq <= |server.history|
  {
  }

  lemma SyncedExact(server: Server, i: Cuid, n: Node)
    requires NodeOk(server, i, n) && MeaningOk(server, n) && n.net.Answered? && !n.net.kind.Rejected?
    requires ApplyPull(n.replica, n.net.answer).1.Synced?
    requires n.Exact(server.history) && AnswerExact(server, i, n)
    ensures n.Deliver().Exact(server.history) && n.Deliver().net.Idle?
  {
    hide NodeOk, MeaningOk, ApplyPull, Foreign, Node.Deliver, Node.Faithful;
    Ranges(server, n);
    match n.net.kind {
      case Created => CreatedFaithfulIff(server, i, n);
      case Pulled => PulledKeepsFaithful(server, i, n);
      case Void => VoidKeepsExact(server, i, n);
      case Joined =>
        if Attached(server, n.replica.duid) {
          RepeatedJoinFaithfulIff(server, i, n);
        } else {
          StillJoins(server, i, n);
          JoinMeans(server, i, n);
        }
    }
    DeliveredIdle(n);
  }

  lemma DeliveredIdle(n: Node)
    requires n.net.Answered?
    ensures n.Deliver().net.Idle?
  {
    hide Node.Settled, AfterPull, Node.Retired;
  }

  // ---- requests ----

  /** What a creation pushes is its own: with nothing foreign before, there is nothing foreign after. */
  lemma CreationExact(server: Server, server': Server, i: Cuid, from: nat, to: nat, added: seq<Transaction>)
    requires Grown(server, server', i, added) && from <= |server.history| && from <= to <= |server'.history|
    requires Foreign(server.history[from..], i) == []
    ensures Foreign(server'.history[from..to], i) == []
  {
    hide Foreign, Own;
    var h, h' := server.history, server'.history;
    AllOwn(added, i);
    SplitAppend(h[from..], added, i);
    assert h'[from..|h'|] == h[from..] + added;
    ForeignWindows(h', from, to, |h'|, i);
  }

  /** What a clean request is answered with: a snapshot of a quiet donor to a newcomer, one that fits to
      the creator itself; an acknowledged creation only when nothing foreign has come first. */
  ghost predicate CleanNet(s: System, i: Cuid, cp: CheckPoint, p: PushPullPack, server': Server, net: Net) {
    && net.Answered?
    && (net.kind.Joined? ==>
          && s.server.created && server' == s.server && Donor(s).Some?
          && net.answer.snapshotTransaction == Some(Donor(s).value.replica.SnapshotTransaction())
          && net.answer.checkpoint.sseq == s.server.sseq
          && net.donated == Donor(s).value.Drift(s.server.history) + Donor(s).value.PendingDelta()
          && (p.duid != s.server.duid ==> Donor(s).value.Quiet() && !Donor(s).value.stopped)
          && (p.duid == s.server.duid ==>
                |s.server.history| < TWO_63
                && Aligned(s.server.history, i, cp, Donor(s).value.replica.checkpoint.sseq)))
    && (net.kind.Created? && s.server.created && cp.sseq <= |s.server.history| ==>
          Foreign(s.server.history[cp.sseq..], i) == [])
  }

  lemma CleanAnswer(s: System, i: Cuid, p: PushPullPack, heir: Cuid)
    requires Enabled(s, Process(i, heir)) && s.nodes[i].net == Sent(p)
    requires !RepeatsCreationLate(s, Process(i, heir)) && !AsksUnquietDonor(s, Process(i, heir))
    requires Inv(s)
    ensures CleanNet(s, i, s.nodes[i].replica.checkpoint, p, Handle(s, p, heir).0, Handle(s, p, heir).1)
  {
    hide Inv, Accepted, PullAfter, Foreign, Aligned, Total, Above;
    hide Node.PendingDelta, Node.Quiet, Node.Drift, Node.Held, Replica.SnapshotTransaction;
    if p.state.Subscribing? && s.phase == Live && s.server.created && s.server.duid == p.duid {
      SubscriberApart(s, i);
    }
  }

  /** A replica that asks to subscribe has a datatype id of its own. */
  lemma SubscriberApart(s: System, i: Cuid)
    requires Inv(s) && i in s.nodes && s.nodes[i].net.Sent?
    requires s.nodes[i].net.request.state.Subscribing?
    ensures !Attached(s.server, s.nodes[i].net.request.duid)
  {
    hide Own, BufferOk, LogOk, HeldOk, RunOk;
    assert NodeOk(s.server, i, s.nodes[i]);
  }

  lemma Uncreated(s: System)
    requires Inv(s) && !s.server.created
    ensures s.server.history == []
  {
  }

  lemma JoinedExact(s: System, i: Cuid, n: Node, p: PushPullPack, net: Net)
    requires CleanNet(s, i, n.replica.checkpoint, p, s.server, net) && net.kind.Joined?
    requires p.duid == n.replica.duid && AllExact(s) && s.server.sseq == |s.server.history|
    ensures AnswerExact(s.server, i, n.(net := net))
  {
    hide Foreign, Aligned, Node.Exact, Node.Quiet, Node.PendingDelta, Node.Drift, Replica.SnapshotTransaction;
    hide ExactAt, Donor;
    DonorGives(s);
  }

  lemma CreatedExact(s: System, server': Server, i: Cuid, n: Node, p: PushPullPack, net: Net, added: seq<Transaction>)
    requires CleanNet(s, i, n.replica.checkpoint, p, server', net) && net.kind.Created?
    requires Grown(s.server, server', i, added) && n.replica.checkpoint.sseq <= |s.server.history|
    requires !s.server.created ==> s.server.history == []
    requires NodeOk(server', i, n.(net := net))
    ensures AnswerExact(server', i, n.(net := net))
  {
    hide Foreign, Grown, NodeOk;
    if !s.server.created {
      EmptySplit(i);
      assert s.server.history[n.replica.checkpoint.sseq..] == [];
    }
    CreatedAnswer(server', i, n.(net := net));
    CreationExact(s.server, server', i, n.replica.checkpoint.sseq, net.answer.checkpoint.sseq, added);
  }

  /** The node whose request is served. */
  lemma ServedExact(s: System, l: Label)
    requires Enabled(s, l) && l.Process?
    requires Inv(s) && Meaningful(s) && AllExact(s)
    requires !RepeatsCreationLate(s, l) && !AsksUnquietDonor(s, l)
    ensures ExactAt(Next(s, l), l.i)
  {
    hide Inv, Meaningful, Handle, NodeOk, BufferOk, MeaningOk, RepeatsCreationLate, AsksUnquietDonor, CleanNet;
    hide AnswerExact, Node.Exact, Grown;
    var n, p := s.nodes[l.i], s.nodes[l.i].net.request;
    var (server', net) := Handle(s, p, l.heir);
    ActorOk(s, l.i);
    RunningActor(s.server, l.i, n);
    RequestIs(s.server, l.i, n);
    Ranges(s.server, n);
    assert ExactAt(s, l.i);
    CleanAnswer(s, l.i, p, l.heir);
    ServedGrows(s, l.i, n, p, l.heir);
    ExactLater(s.server.history, server'.history, n, n.(net := net));
    CleanJoinKeeps(s, l.i, n.replica.checkpoint, p, server', net);
    Numbered(s);
    if net.kind.Joined? {
      JoinedExact(s, l.i, n, p, net);
    } else if net.kind.Created? {
      var added :| Grown(s.server, server', l.i, added);
      if !s.server.created { Uncreated(s); }
      CreatedExact(s, server', l.i, n, p, net, added);
    } else {
      OtherwiseExact(server', l.i, n.(net := net));
    }
  }

  lemma CleanJoinKeeps(s: System, i: Cuid, cp: CheckPoint, p: PushPullPack, server': Server, net: Net)
    requires CleanNet(s, i, cp, p, server', net)
    ensures net.Answered? && (net.kind.Joined? ==> server' == s.server)
  {
  }

  lemma OtherwiseExact(server: Server, i: Cuid, n: Node)
    requires n.net.Answered? && !n.net.kind.Joined? && !n.net.kind.Created?
    ensures AnswerExact(server, i, n)
  {
  }

  lemma ServedGrows(s: System, i: Cuid, n: Node, p: PushPullPack, heir: Cuid)
    requires i in s.nodes && s.nodes[i] == n && n.net == Sent(p) && Enabled(s, Process(i, heir)) && Inv(s)
    ensures NodeOk(Handle(s, p, heir).0, i, n.(net := Handle(s, p, heir).1))
    ensures exists added :: Grown(s.server, Handle(s, p, heir).0, i, added)
    ensures s.server.history <= Handle(s, p, heir).0.history
  {
    hide Inv, NodeOk, Handle, HistoryOk;
    ProcessHandled(s, i, n, p, heir);
  }

  lemma Numbered(s: System)
    requires Inv(s)
    ensures s.server.sseq == |s.server.history|
  {
  }

  /** What a replica owes and has executed is not touched when the history grows. */
  lemma ExactLater(h: seq<Transaction>, h': seq<Transaction>, n: Node, n': Node)
    requires n.replica.checkpoint.sseq <= |h| && h <= h'
    requires n'.replica == n.replica && n'.ledger == n.ledger
    ensures n'.Exact(h') <==> n.Exact(h)
  {
    hide Foreign;
    var a, b := n.ledger.since, n.replica.checkpoint.sseq;
    if a <= b { assert h'[a..b] == h[a..b]; }
  }

  /** The answer to a creation reaches the end of the history it made. */
  lemma CreatedAnswer(server': Server, i: Cuid, n: Node)
    requires NodeOk(server', i, n) && n.net.Answered? && n.net.kind.Created?
    ensures n.replica.checkpoint.sseq <= n.net.answer.checkpoint.sseq <= |server'.history|
  {
    hide BufferOk, LogOk, HeldOk, RunOk, Own;
  }

  /** A running quiet donor gives nothing beyond its number. */
  lemma DonorGives(s: System)
    requires AllExact(s) && Donor(s).Some?
    ensures Donor(s).value.Quiet() && !Donor(s).value.stopped ==>
      Donor(s).value.Drift(s.server.history) + Donor(s).value.PendingDelta() == 0
    ensures Donor(s).value.replica.SnapshotTransaction().sseq == Donor(s).value.replica.checkpoint.sseq
  {
    hide Foreign, AnswerExact;
    assert ExactAt(s, s.server.creator);
    if Donor(s).value.Quiet() { QuietPendsNothing(Donor(s).value); }
  }

  // ---- all steps ----

  lemma SameExact(server: Server, i: Cuid, n: Node, n': Node)
    requires NodeExact(server, i, n) && !n'.net.Answered?
    requires !n'.stopped ==> !n.stopped && SameLedger(n, n')
    ensures NodeExact(server, i, n')
  {
    hide Foreign;
  }

  /** The same in everything exactness looks at. */
  predicate SameLedger(n: Node, n': Node) {
    && n'.ledger == n.ledger.(begun := n'.ledger.begun, committed := n'.ledger.committed)
    && n'.replica.checkpoint == n.replica.checkpoint && n'.replica.cuid == n.replica.cuid
    && n'.replica.duid == n.replica.duid
  }

  lemma KeptExact(server: Server, i: Cuid, n: Node, n': Node)
    requires NodeExact(server, i, n) && n'.net == n.net && n'.stopped == n.stopped && SameLedger(n, n')
    ensures NodeExact(server, i, n')
  {
    hide Foreign, Aligned;
  }

  lemma FinishedShape(n: Node, tag: Option<string>, commit: bool)
    requires BufferOk(n.replica)
    ensures var n' := n.Finish(tag, commit);
      n'.net == n.net && n'.stopped == n.stopped && SameLedger(n, n')
  {
    hide BufferOk;
    if commit && n.replica.record.pending.Some? {
      var tx := n.replica.record.pending.value.(tag := tag);
      if n.replica.buffer.Enqueue(tx, n.replica.limit).Success? {
        EnqueuedIs(n, tag);
      } else {
        RefusedCommitIsAbort(n, tag);
      }
    }
  }

  lemma LocalExact(s: System, l: Label)
    requires Enabled(s, l) && !l.Register? && !l.Process?
    requires Inv(s) && Meaningful(s) && ExactAt(s, l.i)
    ensures ExactAt(Next(s, l), l.i)
  {
    hide Inv, Meaningful, NodeOk, BufferOk, MeaningOk, NodeExact, Node.Deliver, Node.Finish, Node.Build;
    var n := s.nodes[l.i];
    ActorOk(s, l.i);
    match l {
      case LocalOp(_, delta) => KeptExact(s.server, l.i, n, n.Local(delta));
      case Commit(_, tag) => FinishedShape(n, tag, true); KeptExact(s.server, l.i, n, n.Finish(tag, true));
      case Abort(_) => FinishedShape(n, None, false); KeptExact(s.server, l.i, n, n.Finish(None, false));
      case Unsubscribe(_) => KeptExact(s.server, l.i, n, n.Unsubscribe());
      case Build(_) => BuiltState(s.server, l.i, n); SameExact(s.server, l.i, n, n.Build());
      case Deliver(_) => DeliverExact(s.server, l.i, n);
      case Lose(_) => SameExact(s.server, l.i, n, n.(net := Idle));
    }
  }

  /** What a replica has been answered is not touched by what others do. */
  lemma OthersExact(server: Server, server': Server, j: Cuid, n: Node)
    requires NodeExact(server, j, n) && server.history <= server'.history
    requires n.replica.checkpoint.sseq <= |server.history|
    requires server.created ==> server'.created && server'.duid == server.duid
    requires n.net.Answered? && n.net.kind.Joined? ==> server.created
    ensures NodeExact(server', j, n)
  {
    hide Foreign, Node.Exact;
    ExactLater(server.history, server'.history, n, n);
    if n.net.Answered? && n.net.kind.Created? {
      var a, b := n.replica.checkpoint.sseq, n.net.answer.checkpoint.sseq;
      assert server'.history[a..b] == server.history[a..b];
    }
    if n.net.Answered? && n.net.kind.Joined? && Attached(server, n.replica.duid) {
      AlignedLater(server.history, server'.history, j, n.replica.checkpoint,
                   n.net.answer.snapshotTransaction.value.sseq);
    }
  }

  lemma AlignedLater(h: seq<Transaction>, h': seq<Transaction>, i: Cuid, cp: CheckPoint, sd: nat)
    requires h <= h' && Aligned(h, i, cp, sd)
    ensures Aligned(h', i, cp, sd)
  {
    hide Foreign;
    if sd <= cp.sseq <= |h| { assert h'[sd..cp.sseq] == h[sd..cp.sseq]; }
    if cp.sseq < sd <= |h| { assert h'[cp.sseq..sd] == h[cp.sseq..sd]; }
  }

  lemma JoinedCreated(s: System, j: Cuid)
    requires Inv(s) && j in s.nodes
    ensures s.nodes[j].net.Answered? && s.nodes[j].net.kind.Joined? ==> s.server.created
  {
    hide BufferOk, LogOk, HeldOk, RunOk;
    assert NodeOk(s.server, j, s.nodes[j]);
  }

  /** Once created, a server keeps its datatype id. */
  lemma CoreKept(s: System, l: Label)
    requires Inv(s)
    ensures var server, server' := s.server, Next(s, l).server;
      server.created ==> server'.created && server'.duid == server.duid
  {
    hide Inv, Handle, Node.Deliver, Node.Finish, Node.Build;
    if Enabled(s, l) {
      if l.Register? && s.phase == Fresh { FreshServer(s); }
      if l.Process? && s.server.created {
        HandleKeepsDuid(s, s.nodes[l.i].net.request, l.heir);
      }
    }
  }

  lemma HandleKeepsDuid(s: System, p: PushPullPack, heir: Cuid)
    requires s.server.created
    ensures Handle(s, p, heir).0.created && Handle(s, p, heir).0.duid == s.server.duid
  {
    hide Accepted, PullAfter, Replica.SnapshotTransaction, Node.PendingDelta, Node.Quiet;
  }

  lemma NewExact(server: Server, n: Node)
    requires n == NewNode(n.replica.cuid, n.replica.duid, n.replica.state, n.replica.isReadonly, n.replica.limit)
    ensures NodeExact(server, n.replica.cuid, n)
  {
  }

  lemma NextExact(s: System, l: Label)
    requires Inv(s) && Meaningful(s) && AllExact(s)
    requires !RepeatsCreationLate(s, l) && !AsksUnquietDonor(s, l)
    ensures AllExact(Next(s, l))
  {
    hide Inv, Meaningful, NodeExact, RepeatsCreationLate, AsksUnquietDonor, Take;
    var s' := Next(s, l);
    HistoryGrows(s, l);
    CoreKept(s, l);
    if Enabled(s, l) {
      forall j | j in s'.nodes
        ensures ExactAt(s', j)
      {
        NodesMoved(s, l, j);
        if j !in s.nodes {
          NewExact(s'.server, s'.nodes[j]);
        } else if j != l.i {
          assert ExactAt(s, j);
          ActorOk(s, j);
          Ranges(s.server, s.nodes[j]);
          JoinedCreated(s, j);
          OthersExact(s.server, s'.server, j, s.nodes[j]);
        } else if l.Process? {
          ServedExact(s, l);
        } else {
          assert ExactAt(s, j);
          LocalExact(s, l);
        }
      }
    }
  }

  lemma {:induction false} CleanRunsExact(ls: seq<Label>)
    requires Clean(Init(), ls)
    ensures Inv(Exec(Init(), ls)) && Meaningful(Exec(Init(), ls)) && AllExact(Exec(Init(), ls))
  {
    hide Inv, Meaningful, ExactAt, Next, RepeatsCreationLate, AsksUnquietDonor;
    ReachableMeaningful(ls);
    if ls != [] {
      CleanRunsExact(ls[..|ls| - 1]);
      NextExact(Exec(Init(), ls[..|ls| - 1]), ls[|ls| - 1]);
    }
  }

  lemma CleanExact(ls: seq<Label>, i: Cuid)
    requires Clean(Init(), ls) && i in Exec(Init(), ls).nodes && !Exec(Init(), ls).nodes[i].stopped
    ensures Exec(Init(), ls).nodes[i].Exact(Exec(Init(), ls).server.history)
    ensures Exec(Init(), ls).nodes[i].Drift(Exec(Init(), ls).server.history) == 0
  {
    hide Exec, Inv, Meaningful, Clean, Node.Exact, Node.Drift, AnswerExact;
    CleanRunsExact(ls);
    assert ExactAt(Exec(Init(), ls), i);
    ExactHasNoDrift(Exec(Init(), ls).nodes[i], Exec(Init(), ls).server.history);
  }

  /** The value theorem: in a clean run every running replica holds exactly its acknowledged history,
      its unacknowledged transactions and its open operations. */
  lemma CleanValue(ls: seq<Label>, i: Cuid)
    requires Clean(Init(), ls) && i in Exec(Init(), ls).nodes && !Exec(Init(), ls).nodes[i].stopped
    ensures var s := Exec(Init(), ls);
      var n := s.nodes[i];
      && n.replica.checkpoint.sseq <= |s.server.history|
      && n.replica.value == Wrap(Total(s.server.history[..n.replica.checkpoint.sseq])
                                 + Total(n.Unacknowledged()) + n.replica.record.OpenDelta())
  {
    hide Exec, Total, Above, Wrap, Clean, Node.Exact, Node.Drift;
    CleanExact(ls, i);
    ValueByDrift(ls, i);
  }

  /** Strong convergence: in a clean run quiet running replicas at the same server version are equal. */
  lemma CleanConvergence(ls: seq<Label>, i: Cuid, j: Cuid)
    requires Clean(Init(), ls) && i in Exec(Init(), ls).nodes && j in Exec(Init(), ls).nodes
    requires var s := Exec(Init(), ls);
      && !s.nodes[i].stopped && !s.nodes[j].stopped && s.nodes[i].Quiet() && s.nodes[j].Quiet()
      && s.nodes[i].replica.checkpoint.sseq == s.nodes[j].replica.checkpoint.sseq
    ensures var s := Exec(Init(), ls); s.nodes[i].replica.value == s.nodes[j].replica.value
  {
    hide Exec, Clean, Node.Exact, Node.Drift;
    CleanExact(ls, i);
    CleanExact(ls, j);
    EqualValues(ls, i, j);
  }

  // ---- execution exactly once ----

  /** At step `k` of the run the replica joins with a snapshot numbered `sd`. */
  predicate JoinsAt(ls: seq<Label>, k: nat, i: Cuid, sd: nat)
    requires k < |ls|
  {
    var s := Exec(Init(), ls[..k]);
    && ls[k] == Deliver(i) && i in s.nodes && s.nodes[i].net.Answered?
    && Joins(s.nodes[i].replica, s.nodes[i].net.answer)
    && s.nodes[i].net.answer.snapshotTransaction.Some?
    && s.nodes[i].net.answer.snapshotTransaction.value.sseq == sd
  }

  lemma FinishSince(n: Node, tag: Option<string>, commit: bool)
    ensures n.Finish(tag, commit).ledger.since == n.ledger.since
  {
  }

  lemma DeliverSince(n: Node)
    requires n.net.Answered?
    ensures var p := n.net.answer;
      || n.Deliver().ledger.since == n.ledger.since
      || (Joins(n.replica, p) && p.snapshotTransaction.Some?
          && n.Deliver().ledger.since == p.snapshotTransaction.value.sseq)
  {
    hide AfterPull, Executed;
  }

  /** Only a join moves the point a replica's executions are counted from. */
  lemma StepSince(s: System, l: Label, i: Cuid)
    requires i in Next(s, l).nodes
    ensures var since := Next(s, l).nodes[i].ledger.since;
      || (i in s.nodes && since == s.nodes[i].ledger.since)
      || (i !in s.nodes && since == 0)
      || (l == Deliver(i) && Enabled(s, l)
          && Joins(s.nodes[i].replica, s.nodes[i].net.answer)
          && s.nodes[i].net.answer.snapshotTransaction.Some?
          && since == s.nodes[i].net.answer.snapshotTransaction.value.sseq)
  {
    hide Node.Deliver, Node.Finish, Handle, AfterPull, Replica.CreatePack, Replica.ExecuteLocal, Joins;
    if Enabled(s, l) && i == l.i && !l.Register? {
      if l.Commit? { FinishSince(s.nodes[i], l.tag, true); }
      if l.Abort? { FinishSince(s.nodes[i], None, false); }
      if l.Deliver? { DeliverSince(s.nodes[i]); }
    }
  }

  lemma {:induction false} SinceIsJoin(ls: seq<Label>, i: Cuid)
    requires i in Exec(Init(), ls).nodes
    ensures var since := Exec(Init(), ls).nodes[i].ledger.since;
      since == 0 || exists k :: 0 <= k < |ls| && JoinsAt(ls, k, i, since)
  {
    hide Next, Joins;
    if ls != [] {
      var init, l := ls[..|ls| - 1], ls[|ls| - 1];
      var s := Exec(Init(), init);
      var since := Exec(Init(), ls).nodes[i].ledger.since;
      StepSince(s, l, i);
      if i in s.nodes && since == s.nodes[i].ledger.since {
        SinceIsJoin(init, i);
        if since != 0 {
          var k :| 0 <= k < |init| && JoinsAt(init, k, i, since);
          assert ls[..k] == init[..k] && ls[k] == init[k];
          assert JoinsAt(ls, k, i, since);
        }
      } else if since != 0 {
        assert JoinsAt(ls, |ls| - 1, i, since);
      }
    }
  }

  /** Exactly once: since the start, or since the snapshot it has joined with, a running replica of a
      clean run has executed every foreign transaction of its acknowledged history once, in server
      order, and nothing else; with its own acknowledged ones these are that history. */
  lemma ExecutedExactlyOnce(ls: seq<Label>, i: Cuid)
    requires Clean(Init(), ls) && i in Exec(Init(), ls).nodes && !Exec(Init(), ls).nodes[i].stopped
    ensures var s := Exec(Init(), ls);
      var n, h := s.nodes[i], s.server.history;
      var since, sseq := n.ledger.since, n.replica.checkpoint.sseq;
      && since <= sseq <= |h|
      && (since == 0 || exists k :: 0 <= k < |ls| && JoinsAt(ls, k, i, since))
      && n.ledger.direct == Foreign(h[since..sseq], i)
      && (forall k :: 0 <= k < |n.ledger.direct| ==> n.ledger.direct[k].cuid != i)
      && multiset(h[since..sseq]) == multiset(Own(h[since..sseq], i)) + multiset(n.ledger.direct)
      && |Own(h[..sseq], i)| == n.replica.checkpoint.cseq
  {
    hide Exec, Clean, Own, Foreign, Inv, Meaningful, NodeOk, JoinsAt;
    CleanExact(ls, i);
    SinceIsJoin(ls, i);
    ReachableMeaningful(ls);
    var s := Exec(Init(), ls);
    ActorOk(s, i);
    NodeCuid(s.server, i, s.nodes[i]);
    HeldPrefix(s.server, i, s.nodes[i]);
    var n := s.nodes[i];
    Ranges(s.server, n);
    var window := s.server.history[n.ledger.since..n.replica.checkpoint.sseq];
    SplitMultiset(window, i);
    ForeignMembers(window, i);
  }
}
