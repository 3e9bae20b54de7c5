/** Draining the backlog, and convergence once everyone has drained. */
module Convergence {
  import opened Types
  import opened CounterArithmetic
  import opened PushBuffer
  import opened History
  import opened Replica
  import opened PullHandling
  import opened DatatypeServer
  import opened Protocol
  import opened Invariant
  import opened Delivery
  import opened Requests
  import opened Meaning
  import opened Theorems
  import opened Exactness

  /** A replica that can exchange: subscribed, registered, running, with nothing under way. */
  predicate Ready(s: System, i: Cuid) {
    && i in s.nodes && i in s.server.wired
    && s.nodes[i].net.Idle? && !s.nodes[i].stopped && s.nodes[i].replica.state.Subscribed?
  }

  /** One undisturbed exchange. */
  function Sync(s: System, i: Cuid, heir: Cuid): System {
    Next(Next(Next(s, Build(i)), Process(i, heir)), Deliver(i))
  }

  predicate GoodHeir(s: System, i: Cuid, heir: Cuid) {
    heir in s.server.wired - {i} || s.server.wired - {i} == {}
  }

  /** How many committed transactions are not acknowledged. */
  function Backlog(s: System, i: Cuid): int {
    if i in s.nodes then |s.nodes[i].ledger.committed| - s.nodes[i].replica.checkpoint.cseq else 0
  }

  /** The first unacknowledged transaction is small enough to be sent. */
  predicate FirstFits(n: Node) {
    n.replica.checkpoint.cseq < |n.ledger.committed|
      && n.ledger.committed[n.replica.checkpoint.cseq].Size() <= MAX_SEND
  }

  lemma ReadyFacts(s: System, i: Cuid)
    requires Inv(s) && Ready(s, i)
    ensures var n := s.nodes[i];
      && NodeOk(s.server, i, n) && HistoryOk(s.server)
      && BufferOk(n.replica) && RunOk(n.replica, n.ledger.committed) && LogOk(n.ledger.committed, i)
      && n.replica.cuid == i && n.replica.typ == s.server.typ
      && Attached(s.server, n.replica.duid)
      && (n.replica.isReadonly ==> n.ledger.committed == [])
      && n.replica.checkpoint.cseq <= |n.ledger.committed|
      && s.phase == Live
      && HeldOk(s.server, i, n.replica.checkpoint, n.ledger.committed, true)
  {
  }

  /** What is sent: the fitting part of the backlog. */
  lemma SyncBuilds(s: System, i: Cuid)
    requires Inv(s) && Ready(s, i)
    ensures s.nodes[i].replica.checkpoint.cseq <= |s.nodes[i].ledger.committed|
    ensures var n := s.nodes[i];
      var fit := Fitting(n.ledger.committed[n.replica.checkpoint.cseq..], MAX_SEND);
      && n.replica.CreatePack().Success?
      && Next(s, Build(i)) == With(s, i, n.(net := Sent(n.replica.CreatePack().value)))
      && n.replica.CreatePack().value.transactions == fit
      && n.replica.CreatePack().value.state.Subscribed?
      && n.replica.CreatePack().value.checkpoint.sseq == n.replica.checkpoint.sseq
      && n.replica.CreatePack().value.cuid == i
      && n.replica.CreatePack().value.duid == n.replica.duid
      && n.replica.CreatePack().value.typ == s.server.typ
      && (n.replica.CreatePack().value.isReadonly ==> fit == [])
      && n.replica.CreatePack().value.error.None?
  {
    hide Inv, NodeOk, BufferOk, RunOk, LogOk, Fitting;
    ReadyFacts(s, i);
    SendableIs(s.nodes[i].replica, s.nodes[i].ledger.committed);
  }

  /** How the server answers it. */
  lemma SyncProcesses(s: System, i: Cuid, heir: Cuid, p: PushPullPack)
    requires Inv(s) && i in s.nodes && s.nodes[i].net == Sent(p) && GoodHeir(s, i, heir)
    requires s.phase == Live && i in s.server.wired && p.cuid == i && p.state.Subscribed?
    requires p.typ == s.server.typ && (p.isReadonly ==> p.transactions == [])
    ensures var s1 := Next(s, Process(i, heir));
      && s1.server == s.server.Push(p) && s1.phase == s.phase
      && i in s1.nodes && s1 == s.(server := s1.server, nodes := s.nodes[i := s1.nodes[i]])
      && s1.nodes[i].net.Answered? && s1.nodes[i] == s.nodes[i].(net := s1.nodes[i].net)
      && s1.nodes[i].net.kind.Pulled?
      && s1.nodes[i].net.answer == s1.server.Pull(
            p.PulledStub().(checkpoint := CheckPoint(p.checkpoint.sseq, s1.server.Known(i))), p.checkpoint.sseq)
            .(state := Subscribed)
  {
    hide Inv, PullAfter, Accepted;
  }

  /** What the replica makes of the answer. */
  lemma SyncDelivers(s: System, i: Cuid)
    requires i in s.nodes && s.nodes[i].net.Answered? && s.nodes[i].replica.state.Subscribed?
    requires var p := s.nodes[i].net.answer; p.error.None? && p.state.Subscribed?
    ensures var s1, n := Next(s, Deliver(i)), s.nodes[i];
      && s1 == With(s, i, s1.nodes[i]) && i in s1.nodes
      && s1.nodes[i].replica == Absorb(n.replica, n.net.answer)
      && s1.nodes[i].net.Idle? && !s1.nodes[i].stopped
      && s1.nodes[i].ledger == n.Settled()
      && s1.nodes[i].ledger.committed == n.ledger.committed
  {
    hide Executed, Total, Foreign;
  }

  /** An exchange acknowledges the fitting part of the backlog, brings the replica up to the end
      of the history, and touches nobody else. */
  lemma SyncAdvances(s: System, i: Cuid, heir: Cuid)
    requires Inv(s) && Ready(s, i) && GoodHeir(s, i, heir)
    ensures s.nodes[i].replica.checkpoint.cseq <= |s.nodes[i].ledger.committed|
    ensures var s', n := Sync(s, i, heir), s.nodes[i];
      var fit := Fitting(n.ledger.committed[n.replica.checkpoint.cseq..], MAX_SEND);
      && Inv(s') && Ready(s', i)
      && s'.nodes[i].replica.checkpoint
          == CheckPoint(|s'.server.history|, n.replica.checkpoint.cseq + |fit|)
      && s'.nodes[i].replica.record == n.replica.record
      && s'.nodes[i].ledger.committed == n.ledger.committed
      && (Backlog(s, i) == 0 ==> s'.server.history == s.server.history)
      && s'.nodes == s.nodes[i := s'.nodes[i]]
      && s'.server.wired == s.server.wired
  {
    hide Inv, NodeOk, BufferOk, RunOk, LogOk, HeldOk, Fitting, Node.Settled, ExpectedState, PullAfter, Accepted;
    var n := s.nodes[i];
    ReadyFacts(s, i);
    SyncBuilds(s, i);
    var p := n.replica.CreatePack().value;
    var s1 := Next(s, Build(i));
    NextKeeps(s, Build(i));
    RequestPushes(s1.server, i, s1.nodes[i]) by { InvAt(s1, i); }
    PushIs(s1.server, i, n.replica.checkpoint, n.ledger.committed, p);
    SyncProcesses(s1, i, heir, p);
    var s2 := Next(s1, Process(i, heir));
    NextKeeps(s1, Process(i, heir));
    SyncDelivers(s2, i);
    NextKeeps(s2, Deliver(i));
    ServerNumbered(s2);
    PrefixBound(s, i);
    NothingNew(s1.server, p);
    HistoryGrowsOnly(s1.server, p);
  }

  lemma ServerNumbered(s: System)
    requires Inv(s)
    ensures s.server.sseq == |s.server.history|
  {
  }

  lemma PrefixBound(s: System, i: Cuid)
    requires Inv(s) && i in s.nodes
    ensures s.nodes[i].replica.checkpoint.sseq <= |s.server.history|
  {
  }

  lemma NothingNew(server: Server, p: PushPullPack)
    ensures p.transactions == [] ==> server.Push(p).history == server.history
  {
  }

  lemma HistoryGrowsOnly(server: Server, p: PushPullPack)
    ensures |server.history| <= |server.Push(p).history|
    ensures server.Push(p).wired == server.wired
  {
  }

  /** A sync makes progress exactly when the first unacknowledged transaction fits a transmission. */
  lemma SyncProgressIff(s: System, i: Cuid, heir: Cuid)
    requires Inv(s) && Ready(s, i) && GoodHeir(s, i, heir)
    ensures Backlog(Sync(s, i, heir), i) < Backlog(s, i) <==> FirstFits(s.nodes[i])
    ensures Backlog(Sync(s, i, heir), i) <= Backlog(s, i)
  {
    hide Sync, Inv;
    SyncAdvances(s, i, heir);
  }

  function Syncs(s: System, i: Cuid, heir: Cuid, k: nat): System {
    if k == 0 then s else Sync(Syncs(s, i, heir, k - 1), i, heir)
  }

  /** Without new writes the backlog shrinks with every sync until nothing is left, the checkpoint
      never going back, provided every buffered transaction fits a transmission. */
  lemma {:induction false} DrainTerminates(s: System, i: Cuid, heir: Cuid, k: nat)
    requires Inv(s) && Ready(s, i) && GoodHeir(s, i, heir)
    requires forall j :: 0 <= j < |s.nodes[i].ledger.committed| ==> s.nodes[i].ledger.committed[j].Size() <= MAX_SEND
    ensures var s' := Syncs(s, i, heir, k);
      && Inv(s') && Ready(s', i) && GoodHeir(s', i, heir)
      && 0 <= Backlog(s', i) && (Backlog(s', i) == 0 || Backlog(s', i) + k <= Backlog(s, i))
      && s'.nodes[i].ledger.committed == s.nodes[i].ledger.committed
      && s'.nodes[i].replica.checkpoint.sseq >= s.nodes[i].replica.checkpoint.sseq
      && s'.nodes[i].replica.checkpoint.cseq >= s.nodes[i].replica.checkpoint.cseq
  {
    hide Sync, Inv, NodeOk, BufferOk, RunOk, LogOk, HeldOk, HistoryOk, Fitting, Transaction.Size;
    ReadyFacts(s, i);
    if k > 0 {
      var t := Syncs(s, i, heir, k - 1);
      DrainTerminates(s, i, heir, k - 1);
      SyncAdvances(t, i, heir);
      SyncProgressIff(t, i, heir);
      PrefixBound(t, i);
      HistoryNeverShrinks(t, i, heir);
    }
  }

  /** So a backlog is gone after as many syncs as it is long. */
  lemma BacklogDrained(s: System, i: Cuid, heir: Cuid, k: nat)
    requires Inv(s) && Ready(s, i) && GoodHeir(s, i, heir) && Backlog(s, i) <= k
    requires forall j :: 0 <= j < |s.nodes[i].ledger.committed| ==> s.nodes[i].ledger.committed[j].Size() <= MAX_SEND
    ensures Backlog(Syncs(s, i, heir, k), i) == 0
  {
    hide Sync, Inv;
    DrainTerminates(s, i, heir, k);
  }

  lemma HistoryNeverShrinks(s: System, i: Cuid, heir: Cuid)
    requires Inv(s)
    ensures |s.server.history| <= |Sync(s, i, heir).server.history|
  {
    hide Inv, Next;
    NextKeeps(s, Build(i));
    NextKeeps(Next(s, Build(i)), Process(i, heir));
    HistoryGrows(s, Build(i));
    HistoryGrows(Next(s, Build(i)), Process(i, heir));
    HistoryGrows(Next(Next(s, Build(i)), Process(i, heir)), Deliver(i));
  }

  // ---- convergence ----

  /** Every replica of the list syncs once, in the order of the list. */
  function SyncAll(s: System, order: seq<(Cuid, Cuid)>): System {
    if order == [] then s
    else Sync(SyncAll(s, order[..|order| - 1]), order[|order| - 1].0, order[|order| - 1].1)
  }

  /** Ready, with a possible heir, nothing to acknowledge and no open transaction. */
  predicate Drained(s: System, e: (Cuid, Cuid)) {
    && Ready(s, e.0) && GoodHeir(s, e.0, e.1)
    && Backlog(s, e.0) == 0 && s.nodes[e.0].replica.record.pending.None?
  }

  predicate AtEnd(s: System, i: Cuid) {
    i in s.nodes && s.nodes[i].replica.checkpoint.sseq == |s.server.history|
  }

  predicate AllDrained(s: System, order: seq<(Cuid, Cuid)>) {
    forall k :: 0 <= k < |order| ==> Drained(s, order[k])
  }

  /** The sync of a drained replica moves nothing but its own checkpoint, to the end. */
  lemma DrainedSyncs(s: System, f: (Cuid, Cuid))
    requires Inv(s) && Drained(s, f)
    ensures var s' := Sync(s, f.0, f.1);
      && Inv(s') && f.0 in s'.nodes && Drained(s', f) && AtEnd(s', f.0)
      && s'.server.history == s.server.history && s'.server.wired == s.server.wired
      && s'.nodes == s.nodes[f.0 := s'.nodes[f.0]]
  {
    hide Inv, Sync, Fitting;
    SyncAdvances(s, f.0, f.1);
    ReadyFacts(s, f.0);
    NothingFits();
    assert s.nodes[f.0].ledger.committed[s.nodes[f.0].replica.checkpoint.cseq..] == [];
  }

  /** So it leaves everyone as drained, and as far, as before. */
  lemma DrainedStays(s: System, e: (Cuid, Cuid), f: (Cuid, Cuid))
    requires Inv(s) && Drained(s, e) && Drained(s, f)
    ensures Drained(Sync(s, f.0, f.1), e)
    ensures AtEnd(s, e.0) ==> AtEnd(Sync(s, f.0, f.1), e.0)
  {
    hide Inv, Sync;
    DrainedSyncs(s, f);
  }

  lemma NothingFits()
    ensures Fitting([], MAX_SEND) == []
  {
  }

  /** Syncing drained replicas changes no history and brings each of them to its end. */
  lemma {:induction false} SyncAllReaches(s: System, all: seq<(Cuid, Cuid)>, order: seq<(Cuid, Cuid)>)
    requires Inv(s) && AllDrained(s, all) && order <= all
    ensures var s' := SyncAll(s, order);
      && Inv(s') && AllDrained(s', all) && s'.server.history == s.server.history
      && (forall k :: 0 <= k < |order| ==> AtEnd(s', order[k].0))
  {
    hide Inv, Sync, Drained, AtEnd;
    if order == [] {
    } else {
      var init, f := order[..|order| - 1], order[|order| - 1];
      var t := SyncAll(s, init);
      SyncAllReaches(s, all, init);
      assert all[|order| - 1] == f;
      forall k | 0 <= k < |all|
        ensures Drained(Sync(t, f.0, f.1), all[k])
        ensures AtEnd(t, all[k].0) ==> AtEnd(Sync(t, f.0, f.1), all[k].0)
      {
        DrainedStays(t, all[k], f);
      }
      DrainedSyncs(t, f);
      forall k | 0 <= k < |order|
        ensures AtEnd(Sync(t, f.0, f.1), order[k].0)
      {
        assert order[k] == all[k];
        if k < |init| { assert init[k] == order[k]; }
      }
    }
  }

  /** An exchange of a subscribed replica adds nothing that could make any replica drift. */
  lemma SyncExact(s: System, i: Cuid, heir: Cuid)
    requires Inv(s) && Meaningful(s) && AllExact(s) && Ready(s, i) && GoodHeir(s, i, heir)
    ensures Meaningful(Sync(s, i, heir)) && AllExact(Sync(s, i, heir))
  {
    hide Inv, Meaningful, AllExact, Next, NodeOk, BufferOk, RunOk, LogOk, HeldOk, HistoryOk;
    var s1 := Next(s, Build(i));
    var s2 := Next(s1, Process(i, heir));
    ReadyFacts(s, i);
    SyncBuilds(s, i);
    NextKeeps(s, Build(i));
    NextMeans(s, Build(i));
    NextExact(s, Build(i));
    SubscribedIsClean(s1, i, heir);
    NextKeeps(s1, Process(i, heir));
    NextMeans(s1, Process(i, heir));
    NextExact(s1, Process(i, heir));
    NextMeans(s2, Deliver(i));
    NextExact(s2, Deliver(i));
  }

  lemma SubscribedIsClean(s: System, i: Cuid, heir: Cuid)
    requires i in s.nodes && s.nodes[i].net.Sent? && s.nodes[i].net.request.state.Subscribed?
    ensures !RepeatsCreationLate(s, Process(i, heir)) && !AsksUnquietDonor(s, Process(i, heir))
  {
    hide Foreign, Aligned;
  }

  lemma {:induction false} SyncAllExact(s: System, all: seq<(Cuid, Cuid)>, order: seq<(Cuid, Cuid)>)
    requires Inv(s) && Meaningful(s) && AllExact(s) && AllDrained(s, all) && order <= all
    ensures Meaningful(SyncAll(s, order)) && AllExact(SyncAll(s, order))
  {
    hide Inv, Meaningful, AllExact, Sync, Ready, GoodHeir;
    if order != [] {
      var init, f := order[..|order| - 1], order[|order| - 1];
      assert all[|order| - 1] == f;
      SyncAllExact(s, all, init);
      SyncAllReaches(s, all, init);
      assert Drained(SyncAll(s, init), all[|order| - 1]);
      SyncExact(SyncAll(s, init), f.0, f.1);
    }
  }

  /** Convergence: when in a clean run every replica of a list has drained its backlog and syncs once
      more without new writes, all hold exactly the sum of the whole history. */
  lemma AllConverge(ls: seq<Label>, order: seq<(Cuid, Cuid)>, k: nat)
    requires Clean(Init(), ls) && AllDrained(Exec(Init(), ls), order) && k < |order|
    ensures var s' := SyncAll(Exec(Init(), ls), order);
      && order[k].0 in s'.nodes
      && s'.nodes[order[k].0].replica.value == Wrap(Total(Exec(Init(), ls).server.history))
  {
    hide Inv, Meaningful, MeaningOk, AllExact, NodeOk, BufferOk, RunOk, LogOk, HeldOk, HistoryOk;
    hide Exec, Sync, SyncAll, Total, Wrap, Clean;
    var s := Exec(Init(), ls);
    var i := order[k].0;
    CleanRunsExact(ls);
    SyncAllReaches(s, order, order);
    SyncAllExact(s, order, order);
    var s' := SyncAll(s, order);
    assert Drained(s', order[k]) && AtEnd(s', i);
    ActorOk(s', i);
    ReadyFacts(s', i);
    RunningExact(s', i);
    DrainedValue(s'.server, s'.nodes[i]);
  }

  lemma RunningExact(s: System, i: Cuid)
    requires AllExact(s) && i in s.nodes && !s.nodes[i].stopped
    ensures s.nodes[i].Exact(s.server.history)
  {
    hide AnswerExact, Node.Exact;
    assert ExactAt(s, i);
  }

  lemma DrainedValue(server: Server, n: Node)
    requires MeaningOk(server, n) && n.replica.checkpoint.sseq == |server.history| && n.Exact(server.history)
    requires RunOk(n.replica, n.ledger.committed) && LogOk(n.ledger.committed, n.replica.cuid)
    requires n.replica.checkpoint.cseq == |n.ledger.committed| && n.replica.record.pending.None?
    ensures n.replica.value == Wrap(Total(server.history))
  {
    hide Foreign, Above, OwnTx;
    AboveIsSuffix(n.ledger.committed, n.replica.checkpoint.cseq);
    assert server.history[..|server.history|] == server.history;
    assert n.Unacknowledged() == [];
    NothingPending(0);
    ExactHasNoDrift(n, server.history);
  }
}
