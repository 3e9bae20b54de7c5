/** A replica wired to a server: one whole exchange, and what calls for one. */
module WiredReplica {
  import opened Types
  import opened PushBuffer
  import opened History
  import opened Replica
  import opened PullHandling
  import opened DatatypeServer
  import opened MutableReplica
  import opened PullSteps
  import opened LocalServer
  import opened LocalConnection
  import opened Protocol
  import opened Convergence

  predicate AllOnlyIncrease(txs: seq<Transaction>) {
    forall k :: 0 <= k < |txs| ==> txs[k].OnlyIncreases()
  }

  lemma {:induction false} AcceptedOnlyIncrease(sseq: nat, cseq: nat, txs: seq<Transaction>)
    requires AllOnlyIncrease(txs)
    ensures AllOnlyIncrease(Accepted(sseq, cseq, txs))
    decreases |txs|
  {
    if txs == [] {
    } else if txs[0].cseq <= cseq {
      AcceptedOnlyIncrease(sseq, cseq, txs[1..]);
    } else {
      AcceptedOnlyIncrease(sseq + 1, txs[0].cseq, txs[1..]);
      assert txs[0].OnlyIncreases();
    }
  }

  lemma {:induction false} PulledOnlyIncrease(history: seq<Transaction>, from: nat, cuid: Cuid)
    requires AllOnlyIncrease(history)
    ensures AllOnlyIncrease(PullAfter(history, from, cuid))
  {
    if history == [] {
    } else {
      PulledOnlyIncrease(history[..|history| - 1], from, cuid);
      assert history[|history| - 1].OnlyIncreases();
    }
  }

  lemma NothingIncreases()
    ensures AllOnlyIncrease([])
  {
  }

  lemma PushedOnlyIncrease(server: Server, p: PushPullPack)
    requires AllOnlyIncrease(server.history) && AllOnlyIncrease(p.transactions)
    ensures AllOnlyIncrease(server.history + server.NewFrom(p))
    ensures AllOnlyIncrease(PullAfter(server.history + server.NewFrom(p), p.checkpoint.sseq, p.cuid))
  {
    AcceptedOnlyIncrease(server.sseq, server.Known(p.cuid), p.transactions);
    var pushed := server.history + server.NewFrom(p);
    forall k | 0 <= k < |pushed|
      ensures pushed[k].OnlyIncreases()
    {
    }
    PulledOnlyIncrease(pushed, p.checkpoint.sseq, p.cuid);
  }

  /** Everything a server answers with is an increase, if what it holds and is sent are. */
  lemma AnswerOnlyIncreases(server: Server, p: PushPullPack, donor: Option<Transaction>, heir: Cuid)
    requires AllOnlyIncrease(server.history) && AllOnlyIncrease(p.transactions)
    ensures AllOnlyIncrease(server.Process(p, donor, heir).0.history)
    ensures AllOnlyIncrease(server.Process(p, donor, heir).1.transactions)
  {
    hide Accepted, PullAfter, AllOnlyIncrease;
    NothingIncreases();
    PushedOnlyIncrease(server, p);
    if donor.Some? {
      PulledOnlyIncrease(server.history, donor.value.sseq, p.cuid);
    }
  }

  lemma PackIsBuffered(r: Replica)
    requires r.CreatePack().Success? && AllOnlyIncrease(r.buffer.transactions)
    ensures AllOnlyIncrease(r.CreatePack().value.transactions) && r.CreatePack().value.resource == r.resource
  {
    var b, from := r.buffer.transactions, r.checkpoint.cseq + 1 - r.buffer.firstCseq;
    if from < |b| {
      var fit := Fitting(b[from..], DEFAULT_MAX_TRANSMISSION_SIZE);
      forall k | 0 <= k < |fit|
        ensures fit[k].OnlyIncreases()
      {
        assert fit[k] == b[from..][k] == b[from + k];
      }
    }
  }

  /** What a server was and became when it handled a request. */
  datatype Service = Service(before: Server, donor: Option<Transaction>, after: Server, heir: Cuid)

  /** The messages of one exchange, and the server that handled it if there was one. */
  datatype Exchange = Unsent | Done(request: PushPullPack, answer: PushPullPack, service: Option<Service>)

  /** The answer is what the server of the resource gives, or the refusal when there is none. */
  predicate ServedBy(request: PushPullPack, answer: PushPullPack, service: Option<Service>) {
    match service
    case None => answer == request.Rejected(ResourceNotFound)
    case Some(v) =>
      && (v.after, answer) == v.before.Process(request, v.donor, v.heir)
      && (v.heir in v.before.wired - {request.cuid} || v.before.wired - {request.cuid} == {})
  }

  class WiredDatatype {
    const mutable: MutableDatatype
    const connectivity: LocalConnectivity

    constructor (mutable: MutableDatatype, connectivity: LocalConnectivity)
      ensures this.mutable == mutable && this.connectivity == connectivity
    {
      this.mutable, this.connectivity := mutable, connectivity;
    }

    method PushIfNeeded() returns (needed: bool)
      requires mutable.Valid()
      ensures needed == (connectivity.isRealtime && mutable.View().NeedPush())
      ensures mutable.state.Subscribed? || mutable.state.Deleting? || mutable.state.Disabled? ==>
        (needed <==> connectivity.isRealtime && mutable.pushBuffer.lastCseq > mutable.checkpoint.cseq)
      ensures !mutable.state.Subscribed? && !mutable.state.Deleting? && !mutable.state.Disabled? ==>
        needed == connectivity.isRealtime
    {
      var s := mutable.state;
      needed := connectivity.isRealtime
        && (s.Creating? || s.Subscribing? || s.SubscribingOrCreating? || s.Unsubscribing?
            || mutable.pushBuffer.lastCseq > mutable.checkpoint.cseq);
    }

    /** A notification counts when it is of this datatype, from somebody else, and news. */
    method HandleNotification(notify: Notification) returns (wakes: bool)
      requires mutable.Valid()
      ensures wakes == mutable.View().HandleNotification(notify)
      ensures wakes
        <==> mutable.duid == notify.duid && mutable.cuid != notify.cuid && mutable.checkpoint.sseq < notify.sseq
    {
      if mutable.duid != notify.duid {
        return false;
      }
      if mutable.cuid == notify.cuid {
        return false;
      }
      if mutable.checkpoint.sseq >= notify.sseq {
        return false;
      }
      wakes := true;
    }

    /** One exchange: the request of the replica, the answer of the server to it, and what the replica
        makes of that answer. A request that cannot be built reaches nobody. */
    method DoPushPull() returns (outcome: Outcome, ghost x: Exchange)
      requires mutable.Valid() && connectivity.Valid()
      requires AllOnlyIncrease(mutable.pushBuffer.transaction)
      requires mutable.resource in connectivity.datatypeServers ==>
        && connectivity.datatypeServers[mutable.resource].DonorValid()
        && AllOnlyIncrease(connectivity.datatypeServers[mutable.resource].history)
      modifies mutable.Repr(), connectivity, connectivity.datatypeServers.Values
      ensures mutable.Valid() && fresh(mutable.Repr() - old(mutable.Repr()))
      ensures Exchanged(old(mutable.View()), mutable.View(), x, outcome)
      ensures x.Done? ==> ServedBy(x.request, x.answer, x.service)
      ensures x.Done? ==> (x.service.Some? <==> mutable.resource in old(connectivity.datatypeServers))
      ensures x.Done? && x.service.Some? ==>
        var server, v := old(connectivity.datatypeServers)[mutable.resource], x.service.value;
        v.before == old(server.View()) && v.donor == old(server.Donor()) && v.after == server.View()
    {
      hide Replica.CreatePack, ApplyPull, ServedBy, MutableDatatype.View;
      hide LocalConnectivity.Valid, LocalDatatypeServer.View;
      x := Unsent;
      var pack := mutable.CreatePushPullPack();
      if pack.Failure? {
        outcome := Failed(pack.error);
        return;
      }
      BufferOfView();
      PackIsBuffered(mutable.View());
      outcome, x := Send(pack.value);
    }

    /** The exchange of one request. */
    method Send(pushing: PushPullPack) returns (outcome: Outcome, ghost x: Exchange)
      requires mutable.Valid() && connectivity.Valid() && AllOnlyIncrease(pushing.transactions)
      requires pushing.resource in connectivity.datatypeServers ==>
        && connectivity.datatypeServers[pushing.resource].DonorValid()
        && AllOnlyIncrease(connectivity.datatypeServers[pushing.resource].history)
      modifies mutable.Repr(), connectivity, connectivity.datatypeServers.Values
      ensures mutable.Valid() && fresh(mutable.Repr() - old(mutable.Repr()))
      ensures x.Done? && x.request == pushing
      ensures (mutable.View(), outcome) == ApplyPull(old(mutable.View()), x.answer)
      ensures ServedBy(x.request, x.answer, x.service)
      ensures x.service.Some? <==> pushing.resource in old(connectivity.datatypeServers)
      ensures x.service.Some? ==>
        var server, v := old(connectivity.datatypeServers)[pushing.resource], x.service.value;
        v.before == old(server.View()) && v.donor == old(server.Donor()) && v.after == server.View()
    {
      hide ApplyPull, ServedBy, MutableDatatype.View, LocalConnectivity.Valid;
      hide LocalDatatypeServer.DonorValid, LocalDatatypeServer.Donor, LocalDatatypeServer.View;
      var pulled, service := Ask(pushing);
      x := Done(pushing, pulled, service);
      outcome := Take(pulled);
    }

    lemma BufferOfView()
      ensures mutable.View().buffer.transactions == mutable.pushBuffer.transaction
      ensures mutable.View().resource == mutable.resource
    {
    }

    /** What the event loop does with a push: an exchange, and the recovery from its failure. */
    method PushPull() returns (outcome: Outcome, ghost x: Exchange)
      requires mutable.Valid() && connectivity.Valid()
      requires AllOnlyIncrease(mutable.pushBuffer.transaction)
      requires mutable.resource in connectivity.datatypeServers ==>
        && connectivity.datatypeServers[mutable.resource].DonorValid()
        && AllOnlyIncrease(connectivity.datatypeServers[mutable.resource].history)
      modifies mutable.Repr(), connectivity, connectivity.datatypeServers.Values
      ensures mutable.Valid() && fresh(mutable.Repr() - old(mutable.Repr()))
      ensures Recovered(old(mutable.View()), mutable.View(), x, outcome)
      ensures x.Done? ==> ServedBy(x.request, x.answer, x.service)
      ensures x.Done? ==> (x.service.Some? <==> mutable.resource in old(connectivity.datatypeServers))
      ensures x.Done? && x.service.Some? ==>
        var server, v := old(connectivity.datatypeServers)[mutable.resource], x.service.value;
        v.before == old(server.View()) && v.donor == old(server.Donor()) && v.after == server.View()
    {
      hide Replica.CreatePack, ApplyPull, ServedBy, Replica.ApplyAction, AllOnlyIncrease;
      hide MutableDatatype.View, MutableDatatype.Valid;
      hide LocalConnectivity.Valid, LocalDatatypeServer.DonorValid, LocalDatatypeServer.Donor, LocalDatatypeServer.View;
      outcome, x := DoPushPull();
      HandleError(outcome);
    }

    method HandleError(outcome: Outcome)
      requires mutable.Valid()
      modifies mutable.Repr()
      ensures mutable.Valid() && fresh(mutable.Repr() - old(mutable.Repr()))
      ensures mutable.View() ==
        if outcome.Failed? then old(mutable.View()).ApplyAction(outcome.error.Recovery()) else old(mutable.View())
    {
      if outcome.Failed? {
        mutable.ApplyAction(outcome.error.Recovery());
      }
    }

    method Take(pulled: PushPullPack) returns (outcome: Outcome)
      requires mutable.Valid() && AllOnlyIncrease(pulled.transactions)
      modifies mutable.Repr()
      ensures mutable.Valid() && fresh(mutable.Repr() - old(mutable.Repr()))
      ensures (mutable.View(), outcome) == ApplyPull(old(mutable.View()), pulled)
    {
      hide ApplyPull;
      var handler := new PullHandler(pulled, mutable);
      outcome := handler.Apply();
    }

    method Ask(pushing: PushPullPack) returns (pulled: PushPullPack, ghost service: Option<Service>)
      requires connectivity.Valid() && AllOnlyIncrease(pushing.transactions)
      requires pushing.resource in connectivity.datatypeServers ==>
        && connectivity.datatypeServers[pushing.resource].DonorValid()
        && AllOnlyIncrease(connectivity.datatypeServers[pushing.resource].history)
      modifies connectivity, connectivity.datatypeServers.Values
      ensures ServedBy(pushing, pulled, service) && AllOnlyIncrease(pulled.transactions)
      ensures service.Some? <==> pushing.resource in old(connectivity.datatypeServers)
      ensures service.Some? ==>
        var server, v := old(connectivity.datatypeServers)[pushing.resource], service.value;
        v.before == old(server.View()) && v.donor == old(server.Donor()) && v.after == server.View()
    {
      hide Server.Process;
      ghost var resource, servers := pushing.resource, connectivity.datatypeServers;
      ghost var before, donor;
      if resource in servers {
        before, donor := servers[resource].View(), servers[resource].Donor();
      }
      ghost var heir;
      pulled, heir := connectivity.PushPull(pushing);
      service := None;
      if resource in servers {
        service := Some(Service(before, donor, servers[resource].View(), heir));
        AnswerOnlyIncreases(before, pushing, donor, heir);
      }
    }
  }

  /** What one exchange makes of a replica. */
  predicate Exchanged(r: Replica, r': Replica, x: Exchange, outcome: Outcome) {
    match r.CreatePack()
    case Failure(e) => x == Unsent && outcome == Failed(e) && r' == r
    case Success(p) => x.Done? && x.request == p && (r', outcome) == ApplyPull(r, x.answer)
  }

  /** The same with the recovery: what the protocol's steps do to a replica. */
  predicate Recovered(r: Replica, r': Replica, x: Exchange, outcome: Outcome) {
    match r.CreatePack()
    case Failure(e) => x == Unsent && r' == r.ApplyAction(e.Recovery())
    case Success(p) => x.Done? && x.request == p && (r', outcome) == AfterPull(r, x.answer)
  }

  /** The snapshot a server of the machine would be given. */
  function SnapshotOf(s: System): Option<Transaction> {
    if Donor(s).Some? then Some(Donor(s).value.replica.SnapshotTransaction()) else None
  }

  lemma Built(s: System, i: Cuid, p: PushPullPack)
    requires i in s.nodes && s.nodes[i].net.Idle? && !s.nodes[i].stopped
    requires s.nodes[i].replica.CreatePack() == Success(p)
    ensures var s1 := Next(s, Build(i));
      s1 == With(s, i, s.nodes[i].(net := Sent(p))) && SnapshotOf(s1) == SnapshotOf(s)
  {
    hide Replica.CreatePack, Replica.SnapshotTransaction;
  }

  /** The server of the machine answers as the directory does. */
  lemma HandledAs(s: System, x: Exchange)
    requires x.Done? && ServedBy(x.request, x.answer, x.service)
    requires x.service.Some? <==> s.phase == Live
    requires x.service.Some? ==> x.service.value.before == s.server && x.service.value.donor == SnapshotOf(s)
    ensures var heir := if x.service.Some? then x.service.value.heir else 0;
      var (server, net) := Handle(s, x.request, heir);
      && net.Answered? && net.answer == x.answer
      && server == if x.service.Some? then x.service.value.after else s.server
    ensures forall heir :: x.service.None? ==>
      Handle(s, x.request, heir).0 == s.server && Handle(s, x.request, heir).1.Answered?
      && Handle(s, x.request, heir).1.answer == x.answer
  {
    hide Server.Process, Node.Held, Node.Drift, Node.PendingDelta, Replica.SnapshotTransaction;
  }

  /** One exchange through the objects is one build, serve and deliver of the protocol machine: the same
      replica, the same server, and nobody else touched. */
  lemma ExchangeIsProtocol(s: System, i: Cuid, heir: Cuid, x: Exchange, r': Replica, outcome: Outcome)
    requires i in s.nodes && s.nodes[i].net.Idle? && !s.nodes[i].stopped
    requires x.Done? && x.request.cuid == i && Recovered(s.nodes[i].replica, r', x, outcome)
    requires ServedBy(x.request, x.answer, x.service)
    requires x.service.Some? <==> s.phase == Live
    requires x.service.Some? ==>
      x.service.value.before == s.server && x.service.value.donor == SnapshotOf(s) && x.service.value.heir == heir
    requires x.service.None? ==> GoodHeir(s, i, heir)
    ensures var s' := Sync(s, i, heir);
      && i in s'.nodes && s'.nodes[i].replica == r' && s'.nodes[i].net.Idle?
      && s'.nodes[i].stopped == Stops(outcome)
      && s'.server == (if x.service.Some? then x.service.value.after else s.server)
      && s'.nodes == s.nodes[i := s'.nodes[i]]
  {
    hide Replica.CreatePack, AfterPull, Handle, Server.Process, Node.Build, Node.Settled, Node.Retired, SnapshotOf;
    Built(s, i, x.request);
    var s1 := Next(s, Build(i));
    HandledAs(s1, x);
    var s2 := Next(s1, Process(i, heir));
    assert s2.server == (if x.service.Some? then x.service.value.after else s.server);
    assert s2.nodes == s1.nodes[i := s2.nodes[i]] && s2.nodes[i].net.Answered?;
    assert s2.nodes[i].net.answer == x.answer && s2.nodes[i].replica == s.nodes[i].replica;
  }
}
