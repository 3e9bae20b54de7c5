/** Which requests the server refuses and why, what a refusal does to its sender, and what readonly
    replicas never do. */
module Refusals {
  import opened Types
  import opened CounterArithmetic
  import opened PushBuffer
  import opened History
  import opened Replica
  import opened PullHandling
  import opened DatatypeServer
  import opened Protocol
  import opened Invariant
  import opened Delivery
  import opened Requests
  import opened Theorems

  // ---- why a request is refused ----

  /** What is wrong with the request a replica has in flight: the datatype is gone, somebody else has
      created it, or nobody has for a mere subscriber; the sender has left; a readonly replica creates;
      a subscription meets a created datatype with transactions on board, or one whose creator is not
      available; or the sender is disabled. */
  function Refusal(s: System, i: Cuid): Option<PushPullError>
    requires i in s.nodes && s.nodes[i].net.Sent?
  {
    var p, r, server := s.nodes[i].net.request, s.nodes[i].replica, s.server;
    if s.phase != Live then Some(ResourceNotFound)
    else
      match p.state
      case Creating =>
        if server.created && !Attached(server, r.duid) then Some(CreateFailed)
        else if r.isReadonly then Some(ReadonlyViolation)
        else None
      case Subscribing =>
        if !server.created then Some(ResourceNotFound)
        else if Donor(s).None? then Some(ServerInternalError)
        else None
      case SubscribingOrCreating =>
        if !server.created then (if r.isReadonly then Some(ReadonlyViolation) else None)
        else if p.transactions != [] then Some(ProtocolViolation)
        else if Donor(s).None? then Some(ServerInternalError)
        else None
      case Subscribed => if i in server.wired then None else Some(MissingSubscription)
      case Unsubscribing => None
      case _ => Some(ProtocolViolation)
  }

  /** In every run the server answers a request, first or retried, with exactly that error; in
      particular the retry of a creation whose answer was lost is refused if it was asked as a
      subscription and carries transactions, and is not otherwise. */
  lemma RefusedIff(ls: seq<Label>, i: Cuid, heir: Cuid)
    requires i in Exec(Init(), ls).nodes && Enabled(Exec(Init(), ls), Process(i, heir))
    ensures var s := Exec(Init(), ls);
      var net := Handle(s, s.nodes[i].net.request, heir).1;
      net.Answered? && net.answer.error == Refusal(s, i)
  {
    hide Exec, Inv, NodeOk;
    ReachableInv(ls);
    var s := Exec(Init(), ls);
    RequestFits(s, i);
    RefusedFor(s, i, s.nodes[i].net.request, heir);
  }

  /** A request answered with an error has changed nothing on the server, and the answer carries nothing; one
      that is refused for good is answered as disabled. */
  lemma RefusalChangesNothing(ls: seq<Label>, i: Cuid, heir: Cuid)
    requires i in Exec(Init(), ls).nodes && Enabled(Exec(Init(), ls), Process(i, heir))
    requires Refusal(Exec(Init(), ls), i).Some?
    ensures var s := Exec(Init(), ls);
      var (server, net) := Handle(s, s.nodes[i].net.request, heir);
      && server == s.server && net.Answered?
      && net.answer.transactions == [] && net.answer.snapshotTransaction.None?
      && net.answer.checkpoint == ZERO_CHECKPOINT
      && net.answer.duid == (if Refuses(net.answer) then s.nodes[i].replica.duid else s.server.duid)
      && net.answer.state == if Refuses(net.answer) then Disabled else s.nodes[i].net.request.state
  {
    hide Exec, Inv, NodeOk;
    ReachableInv(ls);
    var s := Exec(Init(), ls);
    RequestFits(s, i);
    NothingChanges(s, i, s.nodes[i].net.request, heir);
  }

  lemma NothingChanges(s: System, i: Cuid, p: PushPullPack, heir: Cuid)
    requires i in s.nodes && s.nodes[i].net == Sent(p) && Refusal(s, i).Some?
    requires var r := s.nodes[i].replica;
      && p.typ == s.server.typ && p.cuid == i && p.duid == r.duid && p.isReadonly == r.isReadonly
      && !p.state.Deleting?
      && (p.state.Subscribing? || r.isReadonly ==> p.transactions == [])
    requires p.error.None?
    ensures var (server, net) := Handle(s, p, heir);
      && server == s.server && net.Answered?
      && net.answer.transactions == [] && net.answer.snapshotTransaction.None?
      && net.answer.checkpoint == ZERO_CHECKPOINT
      && net.answer.duid == (if Refuses(net.answer) then s.nodes[i].replica.duid else s.server.duid)
      && net.answer.state == if Refuses(net.answer) then Disabled else p.state
  {
    hide Accepted, PullAfter, Node.Held, Node.Drift, Node.PendingDelta, Replica.SnapshotTransaction;
  }

  /** A request carries its replica's name, datatype and readonly flag; a readonly replica has nothing
      to push, and a mere subscriber never pushes. */
  lemma RequestFits(s: System, i: Cuid)
    requires Inv(s) && i in s.nodes && s.nodes[i].net.Sent?
    ensures var p, r := s.nodes[i].net.request, s.nodes[i].replica;
      && p.typ == s.server.typ && p.cuid == i && p.duid == r.duid && p.isReadonly == r.isReadonly
      && !p.state.Deleting? && p.error.None?
      && (p.state.Subscribing? || r.isReadonly ==> p.transactions == [])
  {
    hide BufferOk, LogOk, HeldOk, RunOk;
    assert NodeOk(s.server, i, s.nodes[i]);
  }

  lemma RefusedFor(s: System, i: Cuid, p: PushPullPack, heir: Cuid)
    requires i in s.nodes && s.nodes[i].net == Sent(p)
    requires var r := s.nodes[i].replica;
      && p.typ == s.server.typ && p.cuid == i && p.duid == r.duid && p.isReadonly == r.isReadonly
      && !p.state.Deleting?
      && (p.state.Subscribing? || r.isReadonly ==> p.transactions == [])
    requires p.error.None?
    ensures Handle(s, p, heir).1.Answered?
    ensures Handle(s, p, heir).1.answer.error == Refusal(s, i)
  {
    hide Accepted, PullAfter, Node.Held, Node.Drift, Node.PendingDelta, Replica.SnapshotTransaction;
  }

  /** A created datatype of another type is not found by a subscriber and out of bounds for a subscribed
      sender; nothing changes either way. A creation and a departure are not checked for it. */
  lemma MistypedRefused(server: Server, p: PushPullPack, donor: Option<Transaction>, heir: Cuid)
    requires server.created && server.typ != p.typ
    ensures var (server', answer) := server.Process(p, donor, heir);
      && (p.state.Subscribing? || p.state.SubscribingOrCreating? ==>
            server' == server && answer.error == Some(ResourceNotFound) && answer.state.Disabled?)
      && (p.state.Subscribed? ==>
            && server' == server && answer.state.Disabled?
            && answer.error == Some(if p.cuid in server.wired then ProtocolViolation else MissingSubscription))
    ensures var untyped, (server', answer) := server.(typ := p.typ), server.Process(p, donor, heir);
      p.state.Creating? || p.state.Unsubscribing? ==>
        (server'.(typ := p.typ), answer) == untyped.Process(p, donor, heir)
  {
    hide Accepted, PullAfter;
  }

  // ---- what it does to the sender ----

  /** An answer after which its replica is disabled for good. */
  predicate Refuses(answer: PushPullPack) { answer.error.Some? && !answer.error.value.ServerInternalError? }

  /** A replica stops exactly when it is refused, or when the answer has a state it no longer expects
      because an abort has changed its own; it then keeps nothing it has buffered. */
  lemma StopsIff(server: Server, i: Cuid, n: Node)
    requires NodeOk(server, i, n) && n.net.Answered?
    ensures n.Deliver().stopped
      <==> Refuses(n.net.answer)
           || (n.net.answer.error.None? && n.net.answer.state != ExpectedState(n.replica.state))
    ensures n.Deliver().stopped ==>
      n.Deliver().replica.state.Disabled? && n.Deliver().replica.buffer.transactions == []
  {
    hide BufferOk, LogOk, HeldOk, RunOk, Absorb, Node.Settled, Node.PendingDelta;
    NeverUnimplemented(server, i, n);
  }

  /** Told to try again, it keeps everything it has and asks again by itself. */
  lemma RetryHarmless(server: Server, i: Cuid, n: Node)
    requires NodeOk(server, i, n) && n.net.Answered? && n.net.answer.error == Some(ServerInternalError)
    ensures var n' := n.Deliver();
      && n' == n.(net := Idle, replica := n.replica.(state := n.net.answer.state))
      && !n'.stopped && n'.replica.NeedPush()
  {
    hide BufferOk, LogOk, HeldOk, RunOk, Absorb, Node.Settled, Node.PendingDelta;
  }

  /** A snapshot that cannot be read disables any replica that is to start over from it. */
  lemma BadSnapshotDisables(r: Replica, p: PushPullPack)
    requires p.error.None? && p.state == ExpectedState(r.state) && Joins(r, p)
    requires !r.state.Deleting? && !r.state.Disabled?
    requires p.snapshotTransaction.Some? && !SnapshotOk(p.snapshotTransaction.value)
    requires |p.snapshotTransaction.value.operations| <= 1
    ensures Stops(AfterPull(r, p).1) && AfterPull(r, p).0.state.Disabled?
    ensures AfterPull(r, p).0.buffer.transactions == []
  {
    hide Absorb, FromBytes;
  }

  /** A backlog of which the buffer has dropped a part cannot be sent, and that alone; it disables any
      replica. */
  lemma LostBacklogDisables(r: Replica)
    ensures r.CreatePack().Failure? <==> r.checkpoint.cseq + 1 < r.buffer.firstCseq
    ensures r.CreatePack().Failure? ==> r.ApplyAction(r.CreatePack().error.Recovery()).state.Disabled?
  {
    hide Fitting;
  }

  // ---- what a readonly replica never does ----

  /** Serving a request makes its sender the creator only if it may write; otherwise the role only
      passes on when its holder leaves. */
  lemma CreatorMoves(s: System, i: Cuid, heir: Cuid)
    requires Inv(s) && Enabled(s, Process(i, heir))
    ensures var server' := Next(s, Process(i, heir)).server;
      && (server'.created && !s.server.created ==> server'.creator == i && !s.nodes[i].replica.isReadonly)
      && (server'.creator != s.server.creator ==>
            || (server'.creator == i && !s.nodes[i].replica.isReadonly)
            || (s.server.creator == i && server'.creator == heir && heir in server'.wired && i !in server'.wired))
  {
    hide Inv, Accepted, PullAfter, Node.Held, Node.Drift, Node.PendingDelta;
    hide Replica.SnapshotTransaction;
    RequestFits(s, i);
  }

  /** What a step that is not a request leaves of the server. */
  lemma ServerStays(s: System, l: Label)
    requires Inv(s) && !l.Process?
    ensures Next(s, l).server.created == s.server.created && Next(s, l).server.history == s.server.history
  {
    hide Inv, Node.Deliver, Node.Build, Node.Finish;
    if s.phase == Fresh { FreshIsInit(s); }
  }

  lemma FreshIsInit(s: System)
    requires Inv(s) && s.phase == Fresh
    ensures s == Init()
  {
    hide NodeOk;
  }

  /** The flag never changes. */
  lemma FlagStays(s: System, l: Label, i: Cuid)
    requires i in s.nodes
    ensures i in Next(s, l).nodes && Next(s, l).nodes[i].replica.isReadonly == s.nodes[i].replica.isReadonly
  {
    hide Handle, Executed, Total, Replica.Sendable, Node.Settled, Node.PendingDelta, TopLamport, Wrap, FromBytes;
  }

  /** A datatype is only ever created by a replica that may write. */
  lemma {:induction false} CreatedByWriter(ls: seq<Label>)
    requires Exec(Init(), ls).server.created
    ensures exists i :: i in Exec(Init(), ls).nodes && !Exec(Init(), ls).nodes[i].replica.isReadonly
  {
    hide Inv, Next;
    if ls == [] {
      assert false;
    } else {
      var s, l := Exec(Init(), ls[..|ls| - 1]), ls[|ls| - 1];
      ReachableInv(ls[..|ls| - 1]);
      if s.server.created {
        CreatedByWriter(ls[..|ls| - 1]);
        var i :| i in s.nodes && !s.nodes[i].replica.isReadonly;
        FlagStays(s, l, i);
      } else {
        if !l.Process? {
          ServerStays(s, l);
          assert false;
        } else {
          CreatesEnabled(s, l);
          CreatorMoves(s, l.i, l.heir);
          FlagStays(s, l, l.i);
        }
      }
    }
  }

  lemma CreatesEnabled(s: System, l: Label)
    requires l.Process? && Next(s, l) != s
    ensures Enabled(s, l) && l.i in s.nodes
  {
  }

  /** A readonly replica has nothing of its own, running or stopped. */
  predicate Blank(n: Node) { n.ledger.committed == [] && n.replica.record.pending.None? }

  lemma StaysBlank(s: System, l: Label, i: Cuid)
    requires i in s.nodes && s.nodes[i].replica.isReadonly && Blank(s.nodes[i])
    ensures i in Next(s, l).nodes && Blank(Next(s, l).nodes[i])
  {
    hide Handle, Executed, Total, Replica.Sendable, Node.PendingDelta, TopLamport, Wrap, FromBytes;
  }

  lemma {:induction false} ReadonlyBlank(ls: seq<Label>, i: Cuid)
    requires i in Exec(Init(), ls).nodes && Exec(Init(), ls).nodes[i].replica.isReadonly
    ensures Blank(Exec(Init(), ls).nodes[i])
  {
    hide Next, Blank;
    if ls != [] {
      var s, l := Exec(Init(), ls[..|ls| - 1]), ls[|ls| - 1];
      if i in s.nodes {
        FlagStays(s, l, i);
        ReadonlyBlank(ls[..|ls| - 1], i);
        StaysBlank(s, l, i);
      } else {
        BlankNewcomer(s, l, i);
      }
    }
  }

  lemma BlankNewcomer(s: System, l: Label, i: Cuid)
    requires i !in s.nodes && i in Next(s, l).nodes
    ensures Blank(Next(s, l).nodes[i])
  {
    hide Handle, Node.Deliver, Node.Build, Node.Finish;
    NodesMoved(s, l, i);
  }

  /** In every run nothing in the history is a readonly replica's. */
  lemma ReadonlyNeverWrites(ls: seq<Label>, i: Cuid, k: nat)
    requires k < |Exec(Init(), ls).server.history|
    requires i in Exec(Init(), ls).nodes && Exec(Init(), ls).nodes[i].replica.isReadonly
    ensures Exec(Init(), ls).server.history[k].cuid != i
  {
    hide Exec, Inv;
    ReachableInv(ls);
    ReadonlyBlank(ls, i);
    NothingHeld(Exec(Init(), ls), i, k);
  }

  lemma NothingHeld(s: System, i: Cuid, k: nat)
    requires Inv(s) && i in s.nodes && s.nodes[i].ledger.committed == [] && k < |s.server.history|
    ensures s.server.history[k].cuid != i
  {
    hide BufferOk, LogOk, RunOk, StateOk, NetOk;
    assert NodeOk(s.server, i, s.nodes[i]);
    OwnMembers(s.server.history, i, k);
  }

  lemma {:induction false} OwnMembers(h: seq<Transaction>, i: Cuid, k: nat)
    requires k < |h| && Own(h, i) == []
    ensures h[k].cuid != i
  {
    if k < |h| - 1 { OwnMembers(h[..|h| - 1], i, k); }
  }
}
