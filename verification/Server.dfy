/** The server of one datatype as a value: its ordered history and what it does with a request. */
module DatatypeServer {
  import opened Types
  import opened History

  /** The transactions the server takes from a push: those numbered above what it holds,
      stamped with the next server numbers. */
  function Accepted(sseq: nat, cseq: nat, txs: seq<Transaction>): seq<Transaction>
    decreases |txs|
  {
    if txs == [] then []
    else if txs[0].cseq <= cseq then Accepted(sseq, cseq, txs[1..])
    else [txs[0].(sseq := sseq + 1)] + Accepted(sseq + 1, txs[0].cseq, txs[1..])
  }

  function LastCseq(cseq: nat, txs: seq<Transaction>): nat {
    if txs == [] then cseq else txs[|txs| - 1].cseq
  }

  /** The history after `from`, without the transactions of `cuid`. */
  function PullAfter(history: seq<Transaction>, from: nat, cuid: Cuid): seq<Transaction> {
    if history == [] then []
    else
      var tx := history[|history| - 1];
      PullAfter(history[..|history| - 1], from, cuid)
      + (if tx.sseq > from && tx.cuid != cuid then [tx] else [])
  }

  datatype Server = Server(
    typ: DataType,
    duid: Duid,
    created: bool,
    creator: Cuid,
    wired: set<Cuid>,
    sseq: nat,
    cseqMap: map<Cuid, CheckPoint>,
    history: seq<Transaction>)
  {
    static function New(typ: DataType, duid: Duid, cuid: Cuid): Server {
      Server(typ, duid, false, cuid, {}, 0, map[], [])
    }

    function Insert(cuid: Cuid): Server { this.(wired := wired + {cuid}) }

    /** The highest cseq held from a client. */
    function Known(cuid: Cuid): nat {
      if cuid in cseqMap then cseqMap[cuid].cseq else 0
    }

    function NewFrom(p: PushPullPack): seq<Transaction> {
      Accepted(sseq, Known(p.cuid), p.transactions)
    }

    function Push(p: PushPullPack): Server {
      var added := NewFrom(p);
      this.(sseq := sseq + |added|,
            history := history + added,
            cseqMap := cseqMap[p.cuid := CheckPoint(sseq + |added|, LastCseq(Known(p.cuid), added))])
    }

    function Pull(stub: PushPullPack, from: nat): PushPullPack {
      stub.(transactions := PullAfter(history, from, stub.cuid),
            checkpoint := stub.checkpoint.(sseq := sseq))
    }

    function ProcessCreating(p: PushPullPack): (Server, PushPullPack) {
      if created && duid != p.duid then (this, p.Rejected(CreateFailed))
      else if p.isReadonly then (this, p.Rejected(ReadonlyViolation))
      else
        var s := this.(created := true, creator := p.cuid, duid := p.duid).Push(p);
        (s, p.PulledStub().(checkpoint := CheckPoint(s.sseq, s.Known(p.cuid)), state := Subscribed))
    }

    /** `donor` is the snapshot of the creator, absent when the creator is not registered. */
    function ProcessSubscribing(p: PushPullPack, donor: Option<Transaction>): PushPullPack {
      if !created then p.Rejected(ResourceNotFound)
      else if typ != p.typ then p.Rejected(ResourceNotFound)
      else if p.transactions != [] then p.Rejected(ProtocolViolation)
      else if donor.None? then
        p.PulledStub().(duid := duid, error := Some(ServerInternalError))
      else
        Pull(p.PulledStub().(duid := duid, snapshotTransaction := donor), donor.value.sseq)
          .(state := Subscribed)
    }

    function ProcessSubscribingOrCreating(p: PushPullPack, donor: Option<Transaction>): (Server, PushPullPack) {
      if created then (this, ProcessSubscribing(p, donor)) else ProcessCreating(p)
    }

    function ProcessClientPush(p: PushPullPack, success: DatatypeState): (Server, PushPullPack) {
      if p.isReadonly && p.transactions != [] then (this, p.Rejected(ReadonlyViolation))
      else
        var s := Push(p);
        (s, s.Pull(p.PulledStub().(checkpoint := CheckPoint(p.checkpoint.sseq, s.Known(p.cuid))),
                   p.checkpoint.sseq).(state := success))
    }

    function ProcessSubscribed(p: PushPullPack): (Server, PushPullPack) {
      if p.cuid !in wired then (this, p.Rejected(MissingSubscription))
      else if typ != p.typ then (this, p.Rejected(ProtocolViolation))
      else ProcessClientPush(p, Subscribed)
    }

    /** `heir` is the registered client the map iteration happens to give first. */
    function ProcessUnsubscribing(p: PushPullPack, heir: Cuid): (Server, PushPullPack) {
      if p.cuid !in wired then (this, p.PulledStub().(state := Disabled))
      else
        var (s, pulled) := ProcessClientPush(p, Disabled);
        var rest := s.wired - {p.cuid};
        (s.(wired := rest, creator := if s.creator == p.cuid && heir in rest then heir else s.creator), pulled)
    }

    function Process(p: PushPullPack, donor: Option<Transaction>, heir: Cuid): (Server, PushPullPack) {
      match p.state
      case Creating => ProcessCreating(p)
      case Subscribing => (this, ProcessSubscribing(p, donor))
      case SubscribingOrCreating => ProcessSubscribingOrCreating(p, donor)
      case Subscribed => ProcessSubscribed(p)
      case Unsubscribing => ProcessUnsubscribing(p, heir)
      case Deleting => (this, p.PulledStub())
      case Disabled => (this, p.Rejected(ProtocolViolation))
    }

    /** Whether processing the request notifies the other registered clients in realtime mode. */
    predicate Notifies(p: PushPullPack) {
      && (p.state.Subscribed? || p.state.Unsubscribing?)
      && p.cuid in wired
      && (p.state.Subscribed? ==> typ == p.typ)
      && !(p.isReadonly && p.transactions != [])
      && NewFrom(p) != []
    }
  }

  /** The transactions numbered from `sseq + 1` on. */
  function Stamped(sseq: nat, txs: seq<Transaction>): seq<Transaction> {
    seq(|txs|, j requires 0 <= j < |txs| => txs[j].(sseq := sseq + 1 + j))
  }

  /** Pushing a gap-free run that starts at or below the next expected cseq adds exactly the
      part the server does not hold yet, in order. */
  lemma {:induction false} AcceptedIsSuffix(sseq: nat, known: nat, c: nat, txs: seq<Transaction>)
    requires c <= known <= c + |txs|
    requires forall j :: 0 <= j < |txs| ==> txs[j].cseq == c + 1 + j
    ensures Accepted(sseq, known, txs) == Stamped(sseq, txs[known - c..])
    decreases |txs|
  {
    if txs == [] {
    } else if known > c {
      AcceptedIsSuffix(sseq, known, c + 1, txs[1..]);
      assert txs[1..][known - c - 1..] == txs[known - c..];
    } else {
      AcceptedIsSuffix(sseq + 1, c + 1, c + 1, txs[1..]);
      assert txs[0..] == txs && txs[1..][0..] == txs[1..];
      assert Stamped(sseq, txs) == [txs[0].(sseq := sseq + 1)] + Stamped(sseq + 1, txs[1..]);
    }
  }

  /** With the history numbered from 1, a pull returns the foreign part of its tail. */
  lemma {:induction false} PullAfterIsForeign(history: seq<Transaction>, from: nat, cuid: Cuid)
    requires forall j :: 0 <= j < |history| ==> history[j].sseq == j + 1
    ensures PullAfter(history, from, cuid) ==
      if from <= |history| then Foreign(history[from..], cuid) else []
  {
    if history == [] {
    } else {
      var init, tx := history[..|history| - 1], history[|history| - 1];
      PullAfterIsForeign(init, from, cuid);
      if from < |history| {
        assert history[from..] == init[from..] + [tx];
        SplitSnoc(init[from..], tx, cuid);
      }
    }
  }
}
