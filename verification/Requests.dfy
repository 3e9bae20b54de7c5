/** The server's handling of a request, and a registration, keep the structural invariant;
    so it holds in every state of every run. */
module Requests {
  import opened Types
  import opened CounterArithmetic
  import opened PushBuffer
  import opened History
  import opened Replica
  import opened PullHandling
  import opened DatatypeServer
  import opened Protocol
  import opened Invariant
  import opened Delivery

  /** The server after taking `added` from client `i`. */
  ghost predicate Grown(server: Server, server': Server, i: Cuid, added: seq<Transaction>) {
    && server'.history == server.history + added
    && server'.sseq == server.sseq + |added|
    && server'.typ == server.typ
    && (server.created ==> server'.created && server'.duid == server.duid)
    && (!server'.created ==> added == [])
    && (forall j :: j != i ==> server'.Known(j) == server.Known(j))
    && (forall j :: j in server'.cseqMap ==> j in server.cseqMap || j == i)
    && (forall k :: 0 <= k < |added| ==>
          && added[k].cuid == i && added[k].OnlyIncreases()
          && added[k].sseq == |server.history| + 1 + k)
  }

  lemma OwnUnchanged(server: Server, server': Server, i: Cuid, added: seq<Transaction>, j: Cuid)
    requires Grown(server, server', i, added) && j != i
    ensures Own(server'.history, j) == Own(server.history, j)
    ensures forall t: nat :: t <= |server.history| ==> server'.history[..t] == server.history[..t]
    ensures forall s: nat, t: nat :: s <= t <= |server.history| ==> server'.history[s..t] == server.history[s..t]
  {
    hide Own;
    SplitAppend(server.history, added, j);
    NoneOwn(added, j);
  }

  lemma AnswerStable(server: Server, server': Server, i: Cuid, added: seq<Transaction>, j: Cuid,
                     duid: Duid, cp: CheckPoint, state: DatatypeState, p: PushPullPack, kind: Kind)
    requires Grown(server, server', i, added) && j != i
    requires Attached(server', duid) ==> Attached(server, duid)
    requires AnswerOk(server, j, duid, cp, state, p, kind)
    ensures AnswerOk(server', j, duid, cp, state, p, kind)
  {
    OwnUnchanged(server, server', i, added, j);
  }

  /** A client is not concerned by what the server takes from another. */
  lemma OthersKeep(server: Server, server': Server, i: Cuid, added: seq<Transaction>, j: Cuid, n: Node)
    requires Grown(server, server', i, added) && j != i
    requires NodeOk(server, j, n)
    requires Attached(server', n.replica.duid) ==> Attached(server, n.replica.duid)
    ensures NodeOk(server', j, n)
  {
    hide BufferOk, LogOk, AnswerOk, Fitting, RunOk, Own;
    OwnUnchanged(server, server', i, added, j);
    if n.net.Answered? {
      AnswerStable(server, server', i, added, j, n.replica.duid, n.replica.checkpoint, n.replica.state,
                   n.net.answer, n.net.kind);
    }
  }

  /** The request carries the log from the checkpoint on, and the server holds part of it. */
  ghost predicate PushOk(server: Server, i: Cuid, cp: CheckPoint, log: seq<Transaction>, p: PushPullPack) {
    && p.cuid == i && LogOk(log, i)
    && cp.cseq + |p.transactions| <= |log|
    && p.transactions == log[cp.cseq..cp.cseq + |p.transactions|]
    && SizeOf(p.transactions) <= MAX_SEND
    && cp.cseq <= server.Known(i) <= cp.cseq + |p.transactions|
  }

  /** What the server takes from a request: exactly the part of the log it does not hold. */
  lemma PushIs(server: Server, i: Cuid, cp: CheckPoint, log: seq<Transaction>, p: PushPullPack)
    requires PushOk(server, i, cp, log, p)
    ensures server.NewFrom(p) == Stamped(server.sseq, log[server.Known(i)..cp.cseq + |p.transactions|])
    ensures server.Push(p).Known(i) == cp.cseq + |p.transactions|
  {
    var c, k := cp.cseq, server.Known(i);
    AcceptedIsSuffix(server.sseq, k, c, p.transactions);
    assert p.transactions[k - c..] == log[k..c + |p.transactions|];
  }

  lemma PushGrows(server: Server, i: Cuid, cp: CheckPoint, log: seq<Transaction>, p: PushPullPack)
    requires HistoryOk(server) && PushOk(server, i, cp, log, p)
    ensures Grown(server, server.Push(p).(created := true), i, server.NewFrom(p))
    ensures HistoryOk(server.Push(p))
  {
    PushIs(server, i, cp, log, p);
    StampedLog(server.sseq, log, server.Known(i), cp.cseq + |p.transactions|, i);
  }

  lemma StampedLog(sseq: nat, log: seq<Transaction>, a: nat, b: nat, i: Cuid)
    requires LogOk(log, i) && a <= b <= |log|
    ensures var added := Stamped(sseq, log[a..b]);
      && |added| == b - a
      && (forall j :: 0 <= j < |added| ==>
            && added[j].cuid == i && added[j].OnlyIncreases() && added[j].sseq == sseq + 1 + j
            && added[j].Unnumbered() == log[a + j])
  {
    forall j | 0 <= j < b - a
      ensures OwnTx(log[a + j], i) && log[a..b][j] == log[a + j]
    {
    }
  }

  lemma OwnAfterPush(server: Server, i: Cuid, cp: CheckPoint, log: seq<Transaction>, p: PushPullPack)
    requires PushOk(server, i, cp, log, p)
    ensures Own(server.Push(p).history, i) == Own(server.history, i) + server.NewFrom(p)
    ensures |server.NewFrom(p)| == cp.cseq + |p.transactions| - server.Known(i)
    ensures forall j :: 0 <= j < |server.NewFrom(p)| ==>
      server.NewFrom(p)[j].Unnumbered() == log[server.Known(i) + j]
  {
    hide Own, Accepted, OwnTx;
    PushIs(server, i, cp, log, p);
    StampedLog(server.sseq, log, server.Known(i), cp.cseq + |p.transactions|, i);
    SplitAppend(server.history, server.NewFrom(p), i);
    AllOwn(server.NewFrom(p), i);
  }

  lemma SendableCovers(log: seq<Transaction>, c: nat, m: nat)
    requires c + m <= |log| && SizeOf(log[c..c + m]) <= MAX_SEND
    ensures m <= |Fitting(log[c..], MAX_SEND)|
  {
    assert log[c..][..m] == log[c..c + m];
    FittingIsLongest(log[c..], MAX_SEND, m);
  }

  lemma HeldExtends(log: seq<Transaction>, own: seq<Transaction>, added: seq<Transaction>)
    requires |own| + |added| <= |log|
    requires forall j :: 0 <= j < |own| ==> own[j].Unnumbered() == log[j]
    requires forall j :: 0 <= j < |added| ==> added[j].Unnumbered() == log[|own| + j]
    ensures forall j :: 0 <= j < |own + added| ==> (own + added)[j].Unnumbered() == log[j]
  {
    forall j | 0 <= j < |own + added|
      ensures (own + added)[j].Unnumbered() == log[j]
    {
      if j >= |own| {
        assert added[j - |own|].Unnumbered() == log[|own| + (j - |own|)];
      }
    }
  }

  lemma HeldAfter(server: Server, server': Server, i: Cuid, cp: CheckPoint, log: seq<Transaction>,
                  added: seq<Transaction>)
    requires HeldOk(server, i, cp, log, true)
    requires server'.history == server.history + added
    requires Own(server'.history, i) == Own(server.history, i) + added
    requires server'.Known(i) == server.Known(i) + |added| <= |log|
    requires server'.Known(i) <= cp.cseq + |Fitting(log[cp.cseq..], MAX_SEND)|
    requires forall j :: 0 <= j < |added| ==> added[j].Unnumbered() == log[server.Known(i) + j]
    ensures HeldOk(server', i, cp, log, true)
  {
    hide Own, Fitting;
    HeldExtends(log, Own(server.history, i), added);
    assert server'.history[..cp.sseq] == server.history[..cp.sseq];
  }

  /** After a push the server holds the log up to the end of the request. */
  lemma PushHeld(server: Server, i: Cuid, cp: CheckPoint, log: seq<Transaction>, p: PushPullPack)
    requires PushOk(server, i, cp, log, p) && HeldOk(server, i, cp, log, true)
    ensures HeldOk(server.Push(p), i, cp, log, true)
    ensures server.Push(p).Known(i) == cp.cseq + |p.transactions|
  {
    SendableCovers(log, cp.cseq, |p.transactions|);
    OwnAfterPush(server, i, cp, log, p);
    PushIs(server, i, cp, log, p);
    HeldAfter(server, server.Push(p), i, cp, log, server.NewFrom(p));
  }

  /** The node whose request has been handled, given a server that holds what the node sent. */
  lemma AnsweredKeeps(server: Server, server': Server, i: Cuid, n: Node, net: Net)
    requires NodeOk(server, i, n) && n.net.Sent?
    requires Attached(server, n.replica.duid) ==> Attached(server', n.replica.duid)
    requires !Attached(server', n.replica.duid) ==> server'.Known(i) == 0
    requires n.replica.state.Subscribing? ==> !Attached(server', n.replica.duid)
    requires HeldOk(server', i, n.replica.checkpoint, n.ledger.committed, true)
    requires net.Answered?
    requires AnswerOk(server', i, n.replica.duid, n.replica.checkpoint, n.replica.state, net.answer, net.kind)
    ensures NodeOk(server', i, n.(net := net))
  {
  }

  /** Only the fields of the server that a node's part of the invariant looks at. */
  lemma HeldSame(server: Server, server': Server, i: Cuid, cp: CheckPoint, log: seq<Transaction>)
    requires HeldOk(server, i, cp, log, true)
    requires server'.history == server.history && server'.Known(i) == server.Known(i)
    ensures HeldOk(server', i, cp, log, true)
  {
  }

  lemma PushSame(server: Server, server': Server, i: Cuid, cp: CheckPoint, log: seq<Transaction>, p: PushPullPack)
    requires PushOk(server, i, cp, log, p) && server'.Known(i) == server.Known(i)
    ensures PushOk(server', i, cp, log, p)
  {
  }

  /** The whole history as the progress of an answer given right after a push. */
  lemma ProgressAtEnd(server: Server, i: Cuid, cp: CheckPoint, log: seq<Transaction>, p: PushPullPack)
    requires HistoryOk(server) && HeldOk(server, i, cp, log, true)
    requires server.created && p.duid == server.duid && p.checkpoint.sseq == server.sseq
    ensures ProgressOk(server, i, cp, p)
    ensures PullAfter(server.history, cp.sseq, i) == Foreign(server.history[cp.sseq..p.checkpoint.sseq], i)
  {
    PullAfterIsForeign(server.history, cp.sseq, i);
    assert server.history[..p.checkpoint.sseq] == server.history;
    assert server.history[cp.sseq..] == server.history[cp.sseq..p.checkpoint.sseq];
  }

  ghost predicate Handled(server: Server, server': Server, i: Cuid, n: Node, net: Net) {
    && NodeOk(server', i, n.(net := net))
    && HistoryOk(server')
    && exists added :: Grown(server, server', i, added)
  }

  lemma RejectedKeeps(server: Server, i: Cuid, n: Node, net: Net)
    requires HistoryOk(server) && (!server.created ==> server.history == [])
    requires NodeOk(server, i, n) && n.net.Sent?
    requires net.Answered? && net.kind.Rejected? && net.answer.error.Some?
    requires !net.answer.error.value.ServerInternalError?
    ensures Handled(server, server, i, n, net)
  {
    AnsweredKeeps(server, server, i, n, net);
    assert Grown(server, server, i, []);
  }

  /** What a node's part of the invariant says about the request it has sent. */
  lemma RequestPushes(server: Server, i: Cuid, n: Node)
    requires NodeOk(server, i, n) && n.net.Sent?
    ensures PushOk(server, i, n.replica.checkpoint, n.ledger.committed, n.net.request)
    ensures HeldOk(server, i, n.replica.checkpoint, n.ledger.committed, true)
    ensures n.replica.cuid == i
    ensures RequestOk(server, i, n.replica.duid, n.replica.checkpoint, n.replica.state, n.ledger.committed,
                      n.net.request)
    ensures n.replica.state.Subscribing? ==> !Attached(server, n.replica.duid)
    ensures !Attached(server, n.replica.duid) ==> server.Known(i) == 0
    ensures n.replica.state.Subscribed? || n.replica.state.Unsubscribing? ==> Attached(server, n.replica.duid)
  {
  }

  lemma CreatingKeeps(server: Server, i: Cuid, n: Node, net: Net)
    requires HistoryOk(server) && (!server.created ==> server.history == [])
    requires NodeOk(server, i, n) && n.net.Sent?
    requires var p := n.net.request;
      && (p.state.Creating? || (p.state.SubscribingOrCreating? && !server.created))
      && net.Answered? && net.answer == server.ProcessCreating(p).1
      && net.kind == if net.answer.error.Some? then Rejected else Created
    ensures Handled(server, server.ProcessCreating(n.net.request).0, i, n, net)
  {
    hide NodeOk, PushOk, HeldOk, Own, Foreign, Accepted, PullAfter, LogOk;
    RequestPushes(server, i, n);
    var p, cp, log := n.net.request, n.replica.checkpoint, n.ledger.committed;
    var (server', answer) := server.ProcessCreating(p);
    if answer.error.Some? {
      RejectedKeeps(server, i, n, net);
    } else {
      var launched := server.(created := true, creator := p.cuid, duid := p.duid);
      HeldSame(server, launched, i, cp, log);
      PushSame(server, launched, i, cp, log, p);
      PushGrows(launched, i, cp, log, p);
      PushHeld(launched, i, cp, log, p);
      assert server' == launched.Push(p);
      ProgressAtEnd(server', i, cp, log, answer);
      AnsweredKeeps(server, server', i, n, net);
      assert Grown(server, server', i, server.NewFrom(p));
    }
  }

  lemma ClientPushKeeps(server: Server, i: Cuid, n: Node, success: DatatypeState, net: Net)
    requires HistoryOk(server) && (!server.created ==> server.history == [])
    requires NodeOk(server, i, n) && n.net.Sent?
    requires n.net.request.state.Subscribed? || n.net.request.state.Unsubscribing?
    requires net.Answered? && net.answer == server.ProcessClientPush(n.net.request, success).1
    requires net.kind == if net.answer.error.Some? then Rejected else Pulled
    ensures Handled(server, server.ProcessClientPush(n.net.request, success).0, i, n, net)
  {
    hide NodeOk, PushOk, HeldOk, Own, Foreign, Accepted, PullAfter, LogOk;
    RequestPushes(server, i, n);
    var p, cp, log := n.net.request, n.replica.checkpoint, n.ledger.committed;
    var (server', answer) := server.ProcessClientPush(p, success);
    if answer.error.Some? {
      RejectedKeeps(server, i, n, net);
    } else {
      PushGrows(server, i, cp, log, p);
      PushHeld(server, i, cp, log, p);
      assert server' == server.Push(p);
      ProgressAtEnd(server', i, cp, log, answer);
      AnsweredKeeps(server, server', i, n, net);
      assert Grown(server, server', i, server.NewFrom(p));
    }
  }

  lemma SubscribingKeeps(server: Server, i: Cuid, n: Node, donor: Option<Transaction>, net: Net)
    requires HistoryOk(server) && (!server.created ==> server.history == [])
    requires NodeOk(server, i, n) && n.net.Sent?
    requires n.net.request.state.Subscribing? || n.net.request.state.SubscribingOrCreating?
    requires donor.Some? ==> SnapshotOk(donor.value) && donor.value.sseq <= |server.history|
    requires net.Answered? && net.answer == server.ProcessSubscribing(n.net.request, donor)
    requires net.kind == if net.answer.error.Some? then Rejected else Joined
    ensures Handled(server, server, i, n, net)
  {
    hide NodeOk, PushOk, HeldOk, Own, Foreign, Accepted, PullAfter, LogOk;
    RequestPushes(server, i, n);
    var p, cp, log, answer := n.net.request, n.replica.checkpoint, n.ledger.committed, net.answer;
    if answer.error.Some? && !answer.error.value.ServerInternalError? {
      RejectedKeeps(server, i, n, net);
    } else {
      assert Grown(server, server, i, []);
      if answer.error.None? {
        ProgressAtEnd(server, i, cp, log, answer);
        PullAfterIsForeign(server.history, donor.value.sseq, i);
        assert server.history[donor.value.sseq..] == server.history[donor.value.sseq..answer.checkpoint.sseq];
      }
      AnsweredKeeps(server, server, i, n, net);
    }
  }

  lemma UnsubscribingKeeps(server: Server, i: Cuid, n: Node, heir: Cuid, net: Net)
    requires HistoryOk(server) && (!server.created ==> server.history == [])
    requires NodeOk(server, i, n) && n.net.Sent? && n.net.request.state.Unsubscribing?
    requires net.Answered? && net.answer == server.ProcessUnsubscribing(n.net.request, heir).1
    requires net.kind == if net.answer.error.Some? then Rejected else if i in server.wired then Pulled else Void
    ensures Handled(server, server.ProcessUnsubscribing(n.net.request, heir).0, i, n, net)
  {
    hide NodeOk, PushOk, HeldOk, Own, Foreign, Accepted, PullAfter, LogOk;
    RequestPushes(server, i, n);
    var p := n.net.request;
    if i in server.wired {
      ClientPushKeeps(server, i, n, Disabled, net);
      var pushed := server.ProcessClientPush(p, Disabled).0;
      var server' := server.ProcessUnsubscribing(p, heir).0;
      var added :| Grown(server, pushed, i, added);
      assert Grown(server, server', i, added);
      OnlyCore(pushed, server', i, n.(net := net));
    } else {
      assert Grown(server, server, i, []);
      AnsweredKeeps(server, server, i, n, net);
    }
  }

  /** The registrations and the creator are no part of a node's invariant. */
  lemma OnlyCore(server: Server, server': Server, i: Cuid, n: Node)
    requires NodeOk(server, i, n)
    requires server' == server.(wired := server'.wired, creator := server'.creator)
    ensures NodeOk(server', i, n)
  {
    hide BufferOk, LogOk, Own;
    assert server'.Known(i) == server.Known(i);
  }

  // ---- whole systems ----

  /** Replacing one node by another that satisfies the invariant. */
  lemma NodeReplaced(s: System, i: Cuid, n: Node)
    requires Inv(s) && i in s.nodes && NodeOk(s.server, i, n)
    requires n.replica.duid == s.nodes[i].replica.duid || Attached(s.server, n.replica.duid)
    ensures Inv(With(s, i, n))
  {
    hide NodeOk;
  }

  lemma StepKeeps(s: System, l: Label)
    requires Inv(s) && Enabled(s, l) && !l.Register? && !l.Process?
    ensures Inv(Take(s, l))
  {
    hide BufferOk, Node.Finish, Node.Build, Node.Deliver, Node.Local, Node.Unsubscribe;
    var i := l.i;
    var n := s.nodes[i];
    var n' := Take(s, l).nodes[i];
    match l {
      case LocalOp(_, delta) => LocalKeeps(s.server, i, n, delta);
      case Commit(_, tag) => CommitKeeps(s.server, i, n, tag);
      case Abort(_) => AbortKeeps(s.server, i, n);
      case Unsubscribe(_) => UnsubscribeKeeps(s.server, i, n);
      case Build(_) => BuildKeeps(s.server, i, n);
      case Deliver(_) => DeliverKeeps(s.server, i, n);
      case Lose(_) => LoseKeeps(s.server, i, n);
    }
    DuidMoves(s, l);
    NodeReplaced(s, i, n');
  }

  /** A replica's datatype id only ever changes to that of the created datatype. */
  lemma DuidMoves(s: System, l: Label)
    requires Inv(s) && Enabled(s, l) && !l.Register? && !l.Process?
    ensures var r, r' := s.nodes[l.i].replica, Take(s, l).nodes[l.i].replica;
      r'.duid == r.duid || Attached(s.server, r'.duid)
  {
    hide NodeOk, Inv;
    var n := s.nodes[l.i];
    if l.Deliver? {
      assert NetOk(s.server, n) && !n.stopped by { InvAt(s, l.i); }
      DuidDelivered(s.server, n);
    }
  }

  lemma InvAt(s: System, i: Cuid)
    requires Inv(s) && i in s.nodes
    ensures NodeOk(s.server, i, s.nodes[i]) && NetOk(s.server, s.nodes[i])
    ensures s.nodes[i].net.Answered? ==> !s.nodes[i].stopped
  {
  }

  lemma DuidDelivered(server: Server, n: Node)
    requires n.net.Answered? && NetOk(server, n)
    ensures var r' := AfterPull(n.replica, n.net.answer).0;
      r'.duid == n.replica.duid || Attached(server, r'.duid)
  {
    hide Own, Foreign;
  }

  lemma NewReplicaOk(r: Replica)
    requires r == Replica.New(r.resource, r.cuid, r.duid, r.isReadonly, r.limit, r.state)
    ensures BufferOk(r) && RunOk(r, [])
  {
  }

  lemma NewHeldOk(server: Server, i: Cuid)
    requires Own(server.history, i) == [] && server.Known(i) == 0
    ensures HeldOk(server, i, ZERO_CHECKPOINT, [], true)
  {
    hide Fitting;
    assert server.history[..0] == [];
    NoneOwn([], i);
  }

  lemma NewNodeOk(s: System, server: Server, i: Cuid, n: Node)
    requires ServerOk(s) && HistoryOk(server) && i !in s.nodes
    requires server.history == s.server.history && server.cseqMap == s.server.cseqMap
    requires n.replica.state.Creating? || n.replica.state.Subscribing? || n.replica.state.SubscribingOrCreating?
    requires n == NewNode(i, n.replica.duid, n.replica.state, n.replica.isReadonly, n.replica.limit)
    requires !Attached(server, n.replica.duid)
    ensures NodeOk(server, i, n)
  {
    hide BufferOk, HeldOk, RunOk;
    NoneOwn(server.history, i);
    NewHeldOk(server, i);
    NewReplicaOk(n.replica);
  }

  lemma RegisterServerOk(s: System, l: Label)
    requires Inv(s) && Enabled(s, l) && l.Register?
    ensures ServerOk(Take(s, l))
  {
    hide NodeOk;
  }

  lemma RegisterKeeps(s: System, l: Label)
    requires Inv(s) && Enabled(s, l) && l.Register?
    ensures Inv(Take(s, l))
  {
    hide NodeOk;
    var s' := Take(s, l);
    RegisterServerOk(s, l);
    NewNodeOk(s, s'.server, l.i, s'.nodes[l.i]);
    forall j | j in s'.nodes
      ensures NodeOk(s'.server, j, s'.nodes[j])
    {
      if j != l.i {
        OnlyCore(s.server, s'.server, j, s.nodes[j]);
      }
    }
  }

  /** What handling a request does to the node that sent it and to the server. */
  lemma ProcessHandled(s: System, i: Cuid, n: Node, p: PushPullPack, heir: Cuid)
    requires i in s.nodes && s.nodes[i] == n && n.net == Sent(p)
    requires heir in s.server.wired - {i} || s.server.wired - {i} == {}
    requires Inv(s)
    ensures Handled(s.server, Handle(s, p, heir).0, i, n, Handle(s, p, heir).1)
  {
    hide BufferOk, LogOk, HeldOk;
    var (server', net) := Handle(s, p, heir);
    assert NodeOk(s.server, i, n);
    if s.phase != Live || p.state.Disabled? {
      RejectedKeeps(s.server, i, n, net);
    } else {
      var donor := if Donor(s).Some? then Some(Donor(s).value.replica.SnapshotTransaction()) else None;
      if donor.Some? {
        assert NodeOk(s.server, s.server.creator, s.nodes[s.server.creator]);
        assert HeldOk(s.server, s.server.creator, Donor(s).value.replica.checkpoint,
                      Donor(s).value.ledger.committed, !Donor(s).value.stopped);
        DonorWithin(s.server, Donor(s).value);
      }
      if p.state.Creating? || (p.state.SubscribingOrCreating? && !s.server.created) {
        CreatingKeeps(s.server, i, n, net);
      } else if p.state.Subscribing? || p.state.SubscribingOrCreating? {
        SubscribingKeeps(s.server, i, n, donor, net);
      } else if p.state.Unsubscribing? {
        UnsubscribingKeeps(s.server, i, n, heir, net);
      } else {
        SubscribedKeeps(s.server, i, n, net);
      }
    }
  }

  lemma DonorWithin(server: Server, n: Node)
    requires NodeOk(server, n.replica.cuid, n)
    ensures SnapshotOk(n.replica.SnapshotTransaction())
    ensures n.replica.SnapshotTransaction().sseq <= |server.history|
  {
  }

  lemma SubscribedKeeps(server: Server, i: Cuid, n: Node, net: Net)
    requires HistoryOk(server) && (!server.created ==> server.history == [])
    requires server.typ == DataType.Counter
    requires NodeOk(server, i, n) && n.net.Sent? && n.net.request.state.Subscribed?
    requires net.Answered? && net.answer == server.ProcessSubscribed(n.net.request).1
    requires net.kind == if net.answer.error.Some? then Rejected else Pulled
    ensures Handled(server, server.ProcessSubscribed(n.net.request).0, i, n, net)
  {
    hide BufferOk, LogOk, HeldOk;
    if i in server.wired {
      ClientPushKeeps(server, i, n, Subscribed, net);
    } else {
      RejectedKeeps(server, i, n, net);
    }
  }

  lemma ProcessServerOk(s: System, i: Cuid, heir: Cuid)
    requires Inv(s) && Enabled(s, Process(i, heir))
    ensures ServerOk(Take(s, Process(i, heir)))
    ensures forall j :: j in s.nodes && j != i ==>
      NodeOk(Take(s, Process(i, heir)).server, j, s.nodes[j])
  {
    hide NodeOk, Handle, AnswerOk;
    var s' := Take(s, Process(i, heir));
    var n, p := s.nodes[i], s.nodes[i].net.request;
    RequestIs(s.server, i, n);
    ProcessHandled(s, i, n, p, heir);
    var added :| Grown(s.server, s'.server, i, added);
    ProcessFrame(s, i, n, p, heir);
    forall j | j in s.nodes && j != i
      ensures NodeOk(s'.server, j, s.nodes[j])
    {
      OthersKeep(s.server, s'.server, i, added, j, s.nodes[j]);
    }
  }

  lemma RequestIs(server: Server, i: Cuid, n: Node)
    requires NodeOk(server, i, n) && n.net.Sent?
    ensures n.net.request.cuid == i && n.net.request.duid == n.replica.duid
  {
  }

  /** What handling a request cannot do: register anyone, adopt a foreign datatype id, or leave
      the entry of a server without clients in place. */
  lemma ProcessFrame(s: System, i: Cuid, n: Node, p: PushPullPack, heir: Cuid)
    requires i in s.nodes && s.nodes[i] == n && n.net == Sent(p) && p.cuid == i && p.duid == n.replica.duid
    requires s.phase == Live ==> s.server.wired != {}
    ensures var server' := Handle(s, p, heir).0;
      && server'.wired <= s.server.wired
      && (server'.wired != s.server.wired ==> s.phase == Live && p.state.Unsubscribing?)
      && (server'.created && !s.server.created ==> server'.duid == n.replica.duid)
  {
    hide Accepted, PullAfter;
  }

  lemma ProcessKeeps(s: System, i: Cuid, heir: Cuid)
    requires Inv(s) && Enabled(s, Process(i, heir))
    ensures Inv(Take(s, Process(i, heir)))
  {
    hide NodeOk;
    ProcessServerOk(s, i, heir);
    ProcessHandled(s, i, s.nodes[i], s.nodes[i].net.request, heir);
  }

  /** A step touches the nodes of nobody but its actor. */
  lemma NodesMoved(s: System, l: Label, j: Cuid)
    requires Enabled(s, l) && j in Take(s, l).nodes
    ensures j != l.i ==> j in s.nodes && Take(s, l).nodes[j] == s.nodes[j]
    ensures j !in s.nodes ==> l.Register? && j == l.i
    ensures j !in s.nodes ==> Take(s, l).nodes[j] == NewNode(l.i, l.duid, l.state, l.isReadonly, l.limit)
    ensures j in s.nodes && j == l.i ==> !l.Register?
  {
    hide Handle, Node.Deliver, Node.Finish, Node.Build;
  }

  lemma NextKeeps(s: System, l: Label)
    requires Inv(s)
    ensures Inv(Next(s, l))
  {
    hide Inv;
    if Enabled(s, l) {
      match l {
        case Register(_, _, _, _, _) => RegisterKeeps(s, l);
        case Process(i, heir) => ProcessKeeps(s, i, heir);
        case _ => StepKeeps(s, l);
      }
    }
  }

  /** The invariant holds in every state of every run. */
  lemma {:induction false} ExecKeeps(s: System, ls: seq<Label>)
    requires Inv(s)
    ensures Inv(Exec(s, ls))
  {
    hide Inv;
    if ls == [] {
    } else {
      ExecKeeps(s, ls[..|ls| - 1]);
      NextKeeps(Exec(s, ls[..|ls| - 1]), ls[|ls| - 1]);
    }
  }

  lemma ReachableInv(ls: seq<Label>)
    ensures Inv(Exec(Init(), ls))
  {
    assert Inv(Init());
    ExecKeeps(Init(), ls);
  }
}
