/** Who is registered: the donor of snapshots stays available and the directory entry lives as long
    as somebody has not left, unless an abort takes an unsubscription back. */
module Registration {
  import opened Types
  import opened History
  import opened Replica
  import opened PullHandling
  import opened DatatypeServer
  import opened Protocol
  import opened Invariant
  import opened Delivery
  import opened Requests
  import opened Lamports

  predicate Leaving(state: DatatypeState) { state.Unsubscribing? || state.Disabled? }

  /** The step undoes a transaction that was open across an unsubscription, and takes that back too. */
  predicate Revives(s: System, l: Label) {
    && Enabled(s, l) && (l.Abort? || l.Commit?)
    && RollsBack(s.nodes[l.i], l)
    && Leaving(s.nodes[l.i].replica.state)
    && !Leaving(s.nodes[l.i].replica.record.rollbackState)
  }

  predicate NeverRevives(s: System, ls: seq<Label>) {
    ls == [] || (NeverRevives(s, ls[..|ls| - 1]) && !Revives(Exec(s, ls[..|ls| - 1]), ls[|ls| - 1]))
  }

  /** A replica that has left, or that asks to, does not come back. */
  ghost predicate MemberOk(wired: set<Cuid>, i: Cuid, n: Node) {
    && (!n.stopped && i !in wired ==>
          && Leaving(n.replica.state)
          && (n.net.Sent? ==> Leaving(n.net.request.state)))
    && (n.net.Sent? && n.net.request.state.Unsubscribing? ==> Leaving(n.replica.state))
    && (n.net.Answered? ==> n.net.answer.error != Some(ServerInternalError))
  }

  predicate DonorOk(server: Server) {
    server.created && server.wired != {} ==> server.creator in server.wired
  }

  ghost predicate Members(s: System) {
    && DonorOk(s.server)
    && (forall i :: i in s.nodes ==> MemberOk(s.server.wired, i, s.nodes[i]))
  }

  // ---- steps of one replica ----

  lemma FinishMember(s: System, l: Label, n: Node)
    requires Enabled(s, l) && (l.Abort? || l.Commit?) && s.nodes[l.i] == n && BufferOk(n.replica)
    requires MemberOk(s.server.wired, l.i, n) && !Revives(s, l)
    ensures MemberOk(s.server.wired, l.i, Take(s, l).nodes[l.i])
  {
    hide BufferOk;
    if n.replica.record.pending.Some? {
      if RollsBack(n, l) {
        if l.Commit? { RefusedCommitIsAbort(n, l.tag); }
      } else {
        EnqueuedIs(n, l.tag);
      }
    }
  }

  /** A replica that is leaving never leaves that path when it is answered. */
  lemma DeliverMember(wired: set<Cuid>, server: Server, i: Cuid, n: Node)
    requires NodeOk(server, i, n) && n.net.Answered? && MemberOk(wired, i, n)
    ensures MemberOk(wired, i, n.Deliver())
  {
    hide NodeOk, Node.Settled, Executed, Absorb, Total, Above, Node.PendingDelta;
    NeverUnimplemented(server, i, n);
    AnswerKind(server, i, n);
    RunningActor(server, i, n);
    var (r1, outcome) := ApplyPull(n.replica, n.net.answer);
    if outcome.Failed? {
      FailedIs(n);
    } else {
      SyncedState(n.replica, n.net.answer);
    }
  }

  lemma SyncedState(r: Replica, p: PushPullPack)
    requires ApplyPull(r, p).1.Synced?
    ensures AfterPull(r, p).0.state == p.state == ExpectedState(r.state) && !r.state.Disabled?
  {
    hide Executed, Total;
  }

  lemma BuiltState(server: Server, i: Cuid, n: Node)
    requires NodeOk(server, i, n) && !n.stopped
    ensures n.Build().net.Sent? && n.Build() == n.(net := n.Build().net)
    ensures n.Build().net.request.state == n.replica.state
  {
    hide NodeOk;
    BuildKeeps(server, i, n);
  }

  lemma LocalMember(s: System, l: Label, n: Node)
    requires Enabled(s, l) && !l.Register? && !l.Process? && s.nodes[l.i] == n
    requires NodeOk(s.server, l.i, n) && BufferOk(n.replica)
    requires MemberOk(s.server.wired, l.i, n) && !Revives(s, l)
    ensures MemberOk(s.server.wired, l.i, Take(s, l).nodes[l.i])
  {
    hide NodeOk, BufferOk, Node.Deliver, Node.Finish, Revives, Node.Build;
    match l {
      case Commit(_, _) => FinishMember(s, l, n);
      case Abort(_) => FinishMember(s, l, n);
      case Build(_) => BuiltState(s.server, l.i, n);
      case Deliver(_) => DeliverMember(s.server.wired, s.server, l.i, n);
      case LocalOp(_, delta) => SameMember(s.server.wired, l.i, n, n.Local(delta));
      case _ =>
    }
  }

  lemma SameMember(wired: set<Cuid>, i: Cuid, n: Node, n': Node)
    requires MemberOk(wired, i, n)
    requires n'.stopped == n.stopped && n'.net == n.net && n'.replica.state == n.replica.state
    ensures MemberOk(wired, i, n')
  {
  }

  // ---- requests ----

  lemma DonatedAnswer(server: Server, p: PushPullPack, donor: Option<Transaction>, heir: Cuid)
    requires server.created ==> donor.Some?
    ensures server.Process(p, donor, heir).1.error != Some(ServerInternalError)
  {
    hide Accepted, PullAfter;
  }

  /** With a live donor nobody is told that the creator is unavailable. */
  lemma DonorAnswers(s: System, p: PushPullPack, heir: Cuid)
    requires Inv(s) && DonorOk(s.server)
    ensures Handle(s, p, heir).1.Answered? && Handle(s, p, heir).1.answer.error != Some(ServerInternalError)
  {
    hide NodeOk, Server.Process, Node.PendingDelta, Node.Quiet, HistoryOk;
    if s.phase == Live {
      var snapshot := if Donor(s).Some? then Some(Donor(s).value.replica.SnapshotTransaction()) else None;
      DonatedAnswer(s.server, p, snapshot, heir);
    }
  }

  /** Handling a request keeps a donor, exactly when a creating client is itself registered. */
  lemma DonorKept(server: Server, p: PushPullPack, donor: Option<Transaction>, heir: Cuid)
    requires DonorOk(server)
    requires heir in server.wired - {p.cuid} || server.wired - {p.cuid} == {}
    requires !Leaving(p.state) ==> p.cuid in server.wired
    ensures DonorOk(server.Process(p, donor, heir).0)
  {
    hide Accepted, PullAfter;
  }

  lemma AcceptedCreationKeepsDonorIff(server: Server, p: PushPullPack)
    requires server.wired != {} && server.ProcessCreating(p).1.error.None?
    ensures DonorOk(server.ProcessCreating(p).0) <==> p.cuid in server.wired
  {
    hide Accepted, PullAfter;
  }

  /** Handling a request removes nobody but an unsubscribing sender. */
  lemma WiredAfter(s: System, p: PushPullPack, heir: Cuid)
    ensures Handle(s, p, heir).0.wired
      == if s.phase == Live && p.state.Unsubscribing? then s.server.wired - {p.cuid} else s.server.wired
    ensures Handle(s, p, heir).1.Answered?
  {
    hide Accepted, PullAfter;
  }

  lemma ProcessDonor(s: System, p: PushPullPack, heir: Cuid)
    requires DonorOk(s.server)
    requires heir in s.server.wired - {p.cuid} || s.server.wired - {p.cuid} == {}
    requires !Leaving(p.state) ==> p.cuid in s.server.wired
    ensures DonorOk(Handle(s, p, heir).0)
  {
    hide DonorOk, Server.Process;
    var snapshot := if Donor(s).Some? then Some(Donor(s).value.replica.SnapshotTransaction()) else None;
    if s.phase == Live {
      DonorKept(s.server, p, snapshot, heir);
    }
  }

  lemma RunningActor(server: Server, i: Cuid, n: Node)
    requires NodeOk(server, i, n) && !n.net.Idle?
    ensures !n.stopped
  {
  }

  lemma RunningSender(server: Server, i: Cuid, n: Node)
    requires NodeOk(server, i, n) && n.net.Sent?
    ensures !n.stopped && n.net.request.cuid == i
  {
  }

  lemma NextMembers(s: System, l: Label)
    requires Inv(s) && Members(s) && !Revives(s, l)
    ensures Members(Next(s, l))
  {
    hide Inv, NodeOk, BufferOk, Revives, Handle, Node.Deliver, Node.Finish, Node.Build, DonorOk;
    if Enabled(s, l) {
      var i, s' := l.i, Take(s, l);
      if l.Register? {
        RegisterMembers(s, l);
      } else if l.Process? {
        var n := s.nodes[i];
        NodeFacts(s, i);
        RunningSender(s.server, i, n);
        WiredAfter(s, n.net.request, l.heir);
        DonorAnswers(s, n.net.request, l.heir);
        ProcessDonor(s, n.net.request, l.heir);
      } else {
        NodeFacts(s, i);
        LocalMember(s, l, s.nodes[i]);
      }
    }
  }

  lemma RegisterMembers(s: System, l: Label)
    requires Inv(s) && Members(s) && Enabled(s, l) && l.Register?
    ensures Members(Take(s, l))
  {
    hide NodeOk;
    if s.phase == Fresh {
      FreshServer(s);
    }
  }

  lemma {:induction false} ReachableMembers(ls: seq<Label>)
    requires NeverRevives(Init(), ls)
    ensures Inv(Exec(Init(), ls)) && Members(Exec(Init(), ls))
  {
    hide Inv, Next, Revives, MemberOk;
    ReachableInv(ls);
    if ls != [] {
      ReachableMembers(ls[..|ls| - 1]);
      NextMembers(Exec(Init(), ls[..|ls| - 1]), ls[|ls| - 1]);
    }
  }

  /** As long as somebody is registered a created datatype has a donor, so a subscriber is never
      told that the creator is unavailable. */
  lemma DonorAvailable(ls: seq<Label>)
    requires NeverRevives(Init(), ls)
    ensures var s := Exec(Init(), ls);
      && (s.server.created && s.server.wired != {} ==> Donor(s).Some?)
      && (forall p: PushPullPack, heir: Cuid ::
            Handle(s, p, heir).1.Answered? && Handle(s, p, heir).1.answer.error != Some(ServerInternalError))
  {
    hide Exec, Inv, NodeOk, MemberOk, Handle, HistoryOk;
    ReachableMembers(ls);
    var s := Exec(Init(), ls);
    DonorRegistered(s);
    forall p: PushPullPack, heir: Cuid
      ensures Handle(s, p, heir).1.Answered? && Handle(s, p, heir).1.answer.error != Some(ServerInternalError)
    {
      WiredAfter(s, p, heir);
      DonorAnswers(s, p, heir);
    }
  }

  lemma DonorRegistered(s: System)
    requires Inv(s)
    ensures s.server.wired <= s.nodes.Keys
  {
  }

  // ---- the directory entry ----

  /** The clients whose unsubscription the server has carried out. */
  function Departed(ls: seq<Label>): set<Cuid> {
    if ls == [] then {}
    else
      var s, l := Exec(Init(), ls[..|ls| - 1]), ls[|ls| - 1];
      Departed(ls[..|ls| - 1])
      + (if l.Process? && Enabled(s, l) && s.phase == Live && s.nodes[l.i].net.request.state.Unsubscribing?
         then {l.i} else {})
  }

  lemma StepWired(s: System, l: Label)
    requires Inv(s)
    ensures var leaves := l.Process? && Enabled(s, l) && s.phase == Live
                           && s.nodes[l.i].net.request.state.Unsubscribing?;
      && Next(s, l).server.wired == s.server.wired
          + (if Enabled(s, l) && l.Register? then {l.i} else {}) - (if leaves then {l.i} else {})
      && Next(s, l).nodes.Keys == s.nodes.Keys + (if Enabled(s, l) && l.Register? then {l.i} else {})
  {
    hide Inv, NodeOk, BufferOk, Handle, Node.Deliver, Node.Finish, Node.Build;
    if Enabled(s, l) {
      if l.Process? {
        NodeFacts(s, l.i);
        RunningSender(s.server, l.i, s.nodes[l.i]);
        WiredAfter(s, s.nodes[l.i].net.request, l.heir);
      } else if l.Register? && s.phase == Fresh {
        FreshServer(s);
      }
    }
  }

  lemma FreshServer(s: System)
    requires Inv(s) && s.phase == Fresh
    ensures s == Init()
  {
  }

  lemma {:induction false} WiredIs(ls: seq<Label>)
    ensures Departed(ls) <= Exec(Init(), ls).nodes.Keys
    ensures Exec(Init(), ls).server.wired == Exec(Init(), ls).nodes.Keys - Departed(ls)
  {
    hide Next, Inv;
    if ls != [] {
      var init := ls[..|ls| - 1];
      WiredIs(init);
      ReachableInv(init);
      StepWired(Exec(Init(), init), ls[|ls| - 1]);
    }
  }

  /** The server is kept in the directory exactly while some registered client has not been
      unsubscribed. This needs no assumption on the run. */
  lemma EntryIffSomebodyLeft(ls: seq<Label>)
    ensures Exec(Init(), ls).phase == Live
      <==> exists i :: i in Exec(Init(), ls).nodes && i !in Departed(ls)
  {
    hide Exec, Departed, NodeOk;
    WiredIs(ls);
    ReachableInv(ls);
    var s := Exec(Init(), ls);
    assert s.phase == Live <==> s.server.wired != {};
    if s.phase == Live {
      var i :| i in s.server.wired;
      assert i in s.nodes && i !in Departed(ls);
    }
    assert forall i :: i in s.nodes && i !in Departed(ls) ==> i in s.server.wired;
  }
}
