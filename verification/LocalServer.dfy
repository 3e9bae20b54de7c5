/** The server of one datatype as the program keeps it, updated in place by every request. */
module LocalServer {
  import opened Types
  import opened History
  import opened Replica
  import opened DatatypeServer
  import opened MutableReplica

  lemma PullSnoc(history: seq<Transaction>, tx: Transaction, from: nat, cuid: Cuid)
    ensures PullAfter(history + [tx], from, cuid)
      == PullAfter(history, from, cuid) + (if tx.sseq > from && tx.cuid != cuid then [tx] else [])
  {
    assert (history + [tx])[..|history|] == history;
  }

  lemma AcceptedStep(sseq: nat, known: nat, txs: seq<Transaction>, k: nat)
    requires k <= |txs|
    ensures k == |txs| ==> Accepted(sseq, known, txs[k..]) == []
    ensures k < |txs| && txs[k].cseq <= known ==>
      Accepted(sseq, known, txs[k..]) == Accepted(sseq, known, txs[k + 1..])
    ensures k < |txs| && txs[k].cseq > known ==>
      Accepted(sseq, known, txs[k..])
        == [txs[k].(sseq := sseq + 1)] + Accepted(sseq + 1, txs[k].cseq, txs[k + 1..])
  {
    if k < |txs| {
      assert txs[k..][1..] == txs[k + 1..];
    }
  }

  /** What is in the channels of the registered clients once all but the sender have been notified. */
  function AfterNotifying(senders: map<Cuid, seq<Notification>>, notifies: bool, n: Notification)
    : map<Cuid, seq<Notification>>
  {
    map k | k in senders :: if notifies && k != n.cuid then senders[k] + [n] else senders[k]
  }

  /** Every client but the sender is told exactly once, and nobody when there is nothing to tell. */
  lemma NotifiesOthers(senders: map<Cuid, seq<Notification>>, n: Notification, k: Cuid)
    requires k in senders
    ensures AfterNotifying(senders, true, n)[k] == senders[k] + (if k == n.cuid then [] else [n])
    ensures AfterNotifying(senders, false, n) == senders
  {
    assert AfterNotifying(senders, false, n).Keys == senders.Keys;
  }

  lemma AnyOther(clients: set<Cuid>, cuid: Cuid) returns (heir: Cuid)
    ensures heir in clients - {cuid} || clients - {cuid} == {}
  {
    heir := cuid;
    if clients - {cuid} != {} {
      heir :| heir in clients - {cuid};
    }
  }

  class LocalDatatypeServer {
    /** The registered replicas, and the sending ends of their event channels. */
    var wiredMap: map<Cuid, MutableDatatype>
    var senderMap: map<Cuid, seq<Notification>>
    const typ: DataType
    var duid: Duid
    var created: bool
    var creator: Cuid
    var sseq: nat
    var cseqMap: map<Cuid, CheckPoint>
    var history: seq<Transaction>

    ghost function View(): Server
      reads this
    {
      Server(typ, duid, created, creator, wiredMap.Keys, sseq, cseqMap, history)
    }

    ghost predicate Valid()
      reads this
    {
      wiredMap.Keys == senderMap.Keys
    }

    /** The replica that subscribers are given a snapshot of can be read. */
    ghost predicate DonorValid()
      reads this, if creator in wiredMap then {wiredMap[creator]} + wiredMap[creator].Repr() else {}
    {
      creator in wiredMap ==> wiredMap[creator].Valid()
    }

    /** The snapshot of the creator, if it is registered. */
    ghost function Donor(): Option<Transaction>
      reads this, if creator in wiredMap then {wiredMap[creator]} + wiredMap[creator].Repr() else {}
    {
      if creator in wiredMap then Some(wiredMap[creator].View().SnapshotTransaction()) else None
    }

    constructor (typ: DataType, duid: Duid, cuid: Cuid)
      ensures Valid() && View() == Server.New(typ, duid, cuid) && senderMap == map[]
    {
      this.typ, this.duid, this.creator := typ, duid, cuid;
      wiredMap, senderMap, created, sseq, cseqMap, history := map[], map[], false, 0, map[], [];
    }

    method InsertClientItem(wired: MutableDatatype)
      requires Valid()
      modifies this
      ensures Valid() && View() == old(View()).Insert(wired.cuid)
      ensures wiredMap == old(wiredMap)[wired.cuid := wired]
      ensures senderMap == old(senderMap)[wired.cuid := []]
    {
      wiredMap := wiredMap[wired.cuid := wired];
      senderMap := senderMap[wired.cuid := []];
    }

    method PushTransactions(pushed: PushPullPack) returns (cseq: nat, pushedAny: bool)
      requires Valid()
      modifies this`sseq, this`history, this`cseqMap
      ensures Valid() && View() == old(View()).Push(pushed)
      ensures cseq == View().Known(pushed.cuid) && pushedAny == (old(View()).NewFrom(pushed) != [])
    {
      hide Accepted;
      var clientCp := if pushed.cuid in cseqMap then cseqMap[pushed.cuid] else CheckPoint(0, 0);
      pushedAny := false;
      ghost var all := old(View()).NewFrom(pushed);
      ghost var added := [];
      var k := 0;
      assert pushed.transactions[0..] == pushed.transactions;
      while k < |pushed.transactions|
        invariant 0 <= k <= |pushed.transactions|
        invariant all == added + Accepted(sseq, clientCp.cseq, pushed.transactions[k..])
        invariant history == old(history) + added && sseq == old(sseq) + |added| && cseqMap == old(cseqMap)
        invariant clientCp.cseq == LastCseq(old(View()).Known(pushed.cuid), added)
        invariant pushedAny == (added != [])
      {
        var tx := pushed.transactions[k];
        AcceptedStep(sseq, clientCp.cseq, pushed.transactions, k);
        if tx.cseq > clientCp.cseq {
          pushedAny := true;
          sseq := sseq + 1;
          var ownedTx := tx.(sseq := sseq);
          history := history + [ownedTx];
          clientCp := clientCp.(cseq := tx.cseq);
          assert added + ([ownedTx] + Accepted(sseq, tx.cseq, pushed.transactions[k + 1..]))
              == (added + [ownedTx]) + Accepted(sseq, tx.cseq, pushed.transactions[k + 1..]);
          added := added + [ownedTx];
        }
        k := k + 1;
      }
      AcceptedStep(sseq, clientCp.cseq, pushed.transactions, k);
      assert all == added;
      clientCp := clientCp.(sseq := sseq);
      assert clientCp == CheckPoint(sseq, LastCseq(old(View()).Known(pushed.cuid), all));
      assert history == old(history) + all;
      cseqMap := cseqMap[pushed.cuid := clientCp];
      cseq := clientCp.cseq;
    }

    method PullTransactions(pulled: PushPullPack) returns (r: PushPullPack)
      requires pulled.transactions == []
      ensures r == View().Pull(pulled, pulled.checkpoint.sseq)
    {
      var fromSseq := pulled.checkpoint.sseq;
      r := pulled;
      var k := 0;
      assert history[..0] == [];
      while k < |history|
        invariant 0 <= k <= |history|
        invariant r == pulled.(transactions := PullAfter(history[..k], fromSseq, pulled.cuid))
      {
        var tx := history[k];
        assert history[..k + 1] == history[..k] + [tx];
        PullSnoc(history[..k], tx, fromSseq, pulled.cuid);
        if tx.sseq > fromSseq && tx.cuid != pulled.cuid {
          r := r.(transactions := r.transactions + [tx]);
        }
        k := k + 1;
      }
      assert history[..k] == history;
      r := r.(checkpoint := r.checkpoint.(sseq := sseq));
    }

    /** Tells every registered client but the sender, once, how far the history reaches. */
    method NotifyPushed(cuid: Cuid)
      requires Valid()
      modifies this`senderMap
      ensures Valid() && senderMap == AfterNotifying(old(senderMap), true, Notification(cuid, duid, sseq))
      ensures forall k :: k in senderMap && k != cuid ==>
        senderMap[k] == old(senderMap)[k] + [Notification(cuid, duid, sseq)]
      ensures cuid in senderMap ==> senderMap[cuid] == old(senderMap)[cuid]
    {
      var notification := Notification(cuid, duid, sseq);
      var rest := senderMap.Keys;
      while rest != {}
        invariant rest <= senderMap.Keys == old(senderMap).Keys
        invariant forall k :: k in senderMap ==>
          senderMap[k] == if k == cuid || k in rest then old(senderMap)[k] else old(senderMap)[k] + [notification]
        decreases rest
      {
        var registered :| registered in rest;
        if registered != cuid {
          senderMap := senderMap[registered := senderMap[registered] + [notification]];
        }
        rest := rest - {registered};
      }
    }

    method ProcessCreating(pushed: PushPullPack) returns (pulled: PushPullPack)
      requires Valid()
      modifies this
      ensures Valid() && (View(), pulled) == old(View()).ProcessCreating(pushed)
      ensures wiredMap == old(wiredMap) && senderMap == old(senderMap)
    {
      pulled := pushed.PulledStub();
      if created && duid != pushed.duid {
        pulled := pulled.(error := Some(CreateFailed), state := Disabled);
        return;
      }
      if pulled.isReadonly {
        pulled := pulled.(error := Some(ReadonlyViolation), state := Disabled);
        return;
      }
      created := true;
      creator := pushed.cuid;
      duid := pushed.duid;
      var cseq, _ := PushTransactions(pushed);
      pulled := pulled.(checkpoint := CheckPoint(sseq, cseq), state := Subscribed);
    }

    method ProcessSubscribing(pushed: PushPullPack) returns (pulled: PushPullPack)
      requires Valid() && DonorValid()
      ensures pulled == View().ProcessSubscribing(pushed, Donor())
    {
      pulled := pushed.PulledStub();
      if !created {
        pulled := pulled.(error := Some(ResourceNotFound), state := Disabled);
        return;
      }
      if typ != pushed.typ {
        pulled := pulled.(error := Some(ResourceNotFound), state := Disabled);
        return;
      }
      if pushed.transactions != [] {
        pulled := pulled.(error := Some(ProtocolViolation), state := Disabled);
        return;
      }
      pulled := pulled.(duid := duid);
      if creator !in wiredMap {
        pulled := pulled.(error := Some(ServerInternalError));
        return;
      }
      var tx := wiredMap[creator].GetSubscribeSnapshot();
      pulled := pulled.(checkpoint := pulled.checkpoint.(sseq := tx.sseq), snapshotTransaction := Some(tx));
      pulled := PullTransactions(pulled);
      pulled := pulled.(state := Subscribed);
    }

    method ProcessSubscribingOrCreating(pushed: PushPullPack) returns (pulled: PushPullPack)
      requires Valid() && DonorValid()
      modifies this
      ensures Valid() && (View(), pulled) == old(View()).ProcessSubscribingOrCreating(pushed, old(Donor()))
      ensures wiredMap == old(wiredMap) && senderMap == old(senderMap)
    {
      if created {
        pulled := ProcessSubscribing(pushed);
      } else {
        pulled := ProcessCreating(pushed);
      }
    }

    method ProcessClientPush(pushed: PushPullPack, success: DatatypeState, isRealtime: bool)
      returns (pulled: PushPullPack)
      requires Valid()
      modifies this
      ensures Valid() && (View(), pulled) == old(View()).ProcessClientPush(pushed, success)
      ensures wiredMap == old(wiredMap)
      ensures senderMap == AfterNotifying(
        old(senderMap),
        isRealtime && !(pushed.isReadonly && pushed.transactions != []) && old(View()).NewFrom(pushed) != [],
        Notification(pushed.cuid, duid, sseq))
    {
      pulled := pushed.PulledStub();
      if pulled.isReadonly && pushed.transactions != [] {
        pulled := pulled.(error := Some(ReadonlyViolation), state := Disabled);
        return;
      }
      var cseq, pushedAny := PushTransactions(pushed);
      pulled := pulled.(checkpoint := CheckPoint(pushed.checkpoint.sseq, cseq));
      pulled := PullTransactions(pulled);
      pulled := pulled.(state := success);
      if isRealtime && pushedAny {
        NotifyPushed(pushed.cuid);
      }
    }

    method ProcessSubscribed(pushed: PushPullPack, isRealtime: bool) returns (pulled: PushPullPack)
      requires Valid()
      modifies this
      ensures Valid() && (View(), pulled) == old(View()).ProcessSubscribed(pushed)
      ensures wiredMap == old(wiredMap)
      ensures pushed.state.Subscribed? ==> senderMap == AfterNotifying(
        old(senderMap), isRealtime && old(View()).Notifies(pushed), Notification(pushed.cuid, duid, sseq))
    {
      pulled := pushed.PulledStub();
      if pushed.cuid !in wiredMap {
        pulled := pulled.(error := Some(MissingSubscription), state := Disabled);
        return;
      }
      if typ != pushed.typ {
        pulled := pulled.(error := Some(ProtocolViolation), state := Disabled);
        return;
      }
      pulled := ProcessClientPush(pushed, Subscribed, isRealtime);
    }

    /** `heir` is the client the iteration over the registered ones gives first, if the sender was
        the creator and somebody is left. */
    method ProcessUnsubscribing(pushed: PushPullPack, isRealtime: bool)
      returns (pulled: PushPullPack, ghost heir: Cuid)
      requires Valid()
      modifies this
      ensures Valid() && (View(), pulled) == old(View()).ProcessUnsubscribing(pushed, heir)
      ensures heir in old(wiredMap).Keys - {pushed.cuid} || old(wiredMap).Keys - {pushed.cuid} == {}
      ensures wiredMap == old(wiredMap) - {pushed.cuid}
      ensures var notifies := isRealtime && old(View()).Notifies(pushed);
        pushed.state.Unsubscribing? ==>
          senderMap == AfterNotifying(old(senderMap), notifies, Notification(pushed.cuid, duid, sseq)) - {pushed.cuid}
    {
      if pushed.cuid !in wiredMap {
        pulled := pushed.PulledStub();
        pulled := pulled.(state := Disabled);
        heir := AnyOther(wiredMap.Keys, pushed.cuid);
        return;
      }
      hide Server.NewFrom, PullAfter, AfterNotifying;
      pulled := ProcessClientPush(pushed, Disabled, isRealtime);
      heir := RemoveClient(pushed.cuid);
    }

    /** Takes the registration away, and hands the role of the creator on if somebody is left. */
    method RemoveClient(cuid: Cuid) returns (ghost heir: Cuid)
      requires Valid()
      modifies this`wiredMap, this`senderMap, this`creator
      ensures Valid() && wiredMap == old(wiredMap) - {cuid} && senderMap == old(senderMap) - {cuid}
      ensures heir in wiredMap.Keys || wiredMap.Keys == {}
      ensures creator == if old(creator) == cuid && heir in wiredMap.Keys then heir else old(creator)
    {
      wiredMap := wiredMap - {cuid};
      senderMap := senderMap - {cuid};
      heir := AnyOther(wiredMap.Keys, cuid);
      if creator == cuid {
        if wiredMap.Keys != {} {
          var nextCreator :| nextCreator in wiredMap.Keys;
          heir := nextCreator;
          creator := nextCreator;
        }
      }
    }

    method ProcessDeleting(pushed: PushPullPack) returns (pulled: PushPullPack)
      ensures pulled == pushed.PulledStub()
    {
      pulled := pushed.PulledStub();
    }

    method ProcessDisabled(pushed: PushPullPack) returns (pulled: PushPullPack)
      ensures pulled == pushed.Rejected(ProtocolViolation)
    {
      pulled := pushed.PulledStub();
      pulled := pulled.(error := Some(ProtocolViolation), state := Disabled);
    }
  }
}
