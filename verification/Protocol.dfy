/** The replication protocol as a machine: one server, any number of replicas, and for each
    replica at most one exchange under way. A run is any sequence of labels; a label that is
    not enabled does nothing, so every statement about `Exec` is about every run. */
module Protocol {
  import opened Types
  import opened History
  import opened Replica
  import opened PullHandling
  import opened DatatypeServer

  /** How the server answered. */
  datatype Kind = Rejected | Created | Joined | Pulled | Void

  /** The exchange of one replica. An answer to a subscription also records, for reasoning only, what
      the donor's value had beyond the history its snapshot is stamped with, and what it had folded in. */
  datatype Net =
    | Idle
    | Sent(request: PushPullPack)
    | Answered(answer: PushPullPack, kind: Kind, donated: int, folded: seq<Transaction>)

  /** What a run has done to a replica, kept for reasoning only; nothing in it is ever corrected.
      `since`, `donated`, `folded`: the number of the snapshot it has joined with, what that held beyond
      its number, and the transactions in it; 0 and nothing when it has not joined.
      `direct`: every transaction executed from an answer since then, in order.
      `begun`: how many of these had been executed when the open transaction began.
      `committed`: the transactions committed under the current cseq numbering.
      `abandoned`: the pending work dropped when the replica stopped. */
  datatype Ledger = Ledger(
    since: nat,
    donated: int,
    folded: seq<Transaction>,
    direct: seq<Transaction>,
    begun: nat,
    committed: seq<Transaction>,
    abandoned: int)

  datatype Node = Node(replica: Replica, net: Net, stopped: bool, ledger: Ledger) {

    /** The committed transactions not yet acknowledged. */
    function Unacknowledged(): seq<Transaction> {
      Above(replica.buffer.transactions, replica.checkpoint.cseq)
    }

    /** What the replica's own pending work adds to its value. */
    function PendingDelta(): int { Total(Unacknowledged()) + replica.record.OpenDelta() }

    predicate Quiet() { replica.record.pending.None? && Unacknowledged() == [] }

    /** The foreign transactions a replica owes its acknowledged history since its snapshot. */
    function Owed(h: seq<Transaction>): seq<Transaction> {
      if ledger.since <= replica.checkpoint.sseq <= |h|
      then Foreign(h[ledger.since..replica.checkpoint.sseq], replica.cuid) else []
    }

    /** It has executed exactly these, once each and in order. */
    predicate Faithful(h: seq<Transaction>) { ledger.direct == Owed(h) }

    /** What its value has beyond the acknowledged history and its own pending work. */
    function Drift(h: seq<Transaction>): int {
      ledger.donated + ledger.abandoned + Total(ledger.direct) - Total(Owed(h))
    }

    /** Faithful since a snapshot that held nothing beyond its number, with no work dropped. */
    predicate Exact(h: seq<Transaction>) { Faithful(h) && ledger.donated == 0 && ledger.abandoned == 0 }

    /** Everything that has been applied at the replica or was folded into its snapshot. */
    function Held(): seq<Transaction> {
      ledger.folded + ledger.direct + ledger.committed
      + (if replica.record.pending.Some? then [replica.record.pending.value] else [])
    }

    /** What it has executed from answers while the open transaction was open. */
    function Meanwhile(): seq<Transaction> {
      if ledger.begun <= |ledger.direct| then ledger.direct[ledger.begun..] else []
    }

    function Local(delta: i64): Node {
      this.(replica := replica.ExecuteLocal(delta),
            ledger := if replica.record.pending.None? then ledger.(begun := |ledger.direct|) else ledger)
    }

    function Finish(tag: Option<string>, commit: bool): Node {
      var r := replica.FinishTransaction(tag, commit);
      var txs := r.buffer.transactions;
      this.(replica := r,
            ledger := if !stopped && |txs| > |replica.buffer.transactions|
                      then ledger.(committed := ledger.committed + [txs[|txs| - 1]])
                      else ledger)
    }

    function Unsubscribe(): Node {
      if replica.state.Subscribed? then this.(replica := replica.(state := Unsubscribing)) else this
    }

    /** The ledger of a replica that drops its pending work and stops. */
    function Retired(): Ledger { ledger.(abandoned := ledger.abandoned + PendingDelta()) }

    function Build(): Node {
      match replica.CreatePack()
      case Success(p) => this.(net := Sent(p))
      case Failure(e) =>
        Node(replica.ApplyAction(e.Recovery()), Idle, true, Retired())
    }

    function Settled(): Ledger
      requires net.Answered?
    {
      var executed := Executed(replica.checkpoint, net.answer);
      if Joins(replica, net.answer) && net.answer.snapshotTransaction.Some? then
        Ledger(net.answer.snapshotTransaction.value.sseq, net.donated, net.folded, executed, 0, [], 0)
      else ledger.(direct := ledger.direct + executed)
    }

    function Deliver(): Node
      requires net.Answered?
    {
      var (r, outcome) := AfterPull(replica, net.answer);
      var ended := Stops(outcome);
      Node(r, Idle, ended,
           if outcome.Synced? then Settled()
           else if outcome.Failed? && ended then Retired()
           else ledger)
    }
  }

  datatype Phase = Fresh | Live | Closed

  datatype System = System(phase: Phase, server: Server, nodes: map<Cuid, Node>)

  function Init(): System { System(Fresh, Server.New(DataType.Counter, 0, 0), map[]) }

  datatype Label =
    | Register(i: Cuid, duid: Duid, state: DatatypeState, isReadonly: bool, limit: nat)
    | LocalOp(i: Cuid, delta: i64)
    | Commit(i: Cuid, tag: Option<string>)
    | Abort(i: Cuid)
    | Unsubscribe(i: Cuid)
    | Build(i: Cuid)
    | Process(i: Cuid, heir: Cuid)
    | Deliver(i: Cuid)
    | Lose(i: Cuid)

  /** An operation is checked against readonly and the state before it takes the write lock, so it
      may still execute after the state has moved on; only a replica that was never writable has none. */
  predicate Enabled(s: System, l: Label) {
    match l
    case Register(i, duid, state, _, _) =>
      && s.phase != Closed && i !in s.nodes
      && (state.Creating? || state.Subscribing? || state.SubscribingOrCreating?)
      && (forall j :: j in s.nodes ==> s.nodes[j].replica.duid != duid)
      && (s.phase == Live ==> s.server.duid != duid)
    case LocalOp(i, _) =>
      i in s.nodes && !s.nodes[i].replica.isReadonly && !s.nodes[i].replica.state.Subscribing?
    case Commit(i, _) => i in s.nodes
    case Abort(i) => i in s.nodes
    case Unsubscribe(i) => i in s.nodes
    case Build(i) => i in s.nodes && s.nodes[i].net.Idle? && !s.nodes[i].stopped
    case Process(i, heir) =>
      && i in s.nodes && s.nodes[i].net.Sent?
      && (heir in s.server.wired - {i} || s.server.wired - {i} == {})
    case Deliver(i) => i in s.nodes && s.nodes[i].net.Answered?
    case Lose(i) => i in s.nodes
  }

  function KindOf(server: Server, p: PushPullPack, answer: PushPullPack): Kind {
    if answer.error.Some? then Rejected
    else match p.state
      case Creating => Created
      case Subscribing => Joined
      case SubscribingOrCreating => if server.created then Joined else Created
      case Subscribed => Pulled
      case Unsubscribing => if p.cuid in server.wired then Pulled else Void
      case Deleting => Void
      case Disabled => Rejected
  }

  function Donor(s: System): Option<Node> {
    if s.server.creator in s.server.wired && s.server.creator in s.nodes
    then Some(s.nodes[s.server.creator]) else None
  }

  function Handle(s: System, p: PushPullPack, heir: Cuid): (Server, Net) {
    if s.phase != Live then (s.server, Answered(p.Rejected(ResourceNotFound), Rejected, 0, []))
    else
      var donor := Donor(s);
      var snapshot := if donor.Some? then Some(donor.value.replica.SnapshotTransaction()) else None;
      var (server, answer) := s.server.Process(p, snapshot, heir);
      (server,
       Answered(answer, KindOf(s.server, p, answer),
                if donor.Some? then donor.value.Drift(s.server.history) + donor.value.PendingDelta() else 0,
                if donor.Some? then donor.value.Held() else []))
  }

  function With(s: System, i: Cuid, n: Node): System { s.(nodes := s.nodes[i := n]) }

  function NewNode(i: Cuid, duid: Duid, state: DatatypeState, isReadonly: bool, limit: nat): Node {
    Node(Replica.New(0, i, duid, isReadonly, limit, state), Idle, false, Ledger(0, 0, [], [], 0, [], 0))
  }

  function Take(s: System, l: Label): System
    requires Enabled(s, l)
  {
    match l
    case Register(i, duid, state, isReadonly, limit) =>
      var server := if s.phase == Fresh then Server.New(DataType.Counter, duid, i) else s.server;
      System(Live, server.Insert(i), s.nodes[i := NewNode(i, duid, state, isReadonly, limit)])
    case LocalOp(i, delta) => With(s, i, s.nodes[i].Local(delta))
    case Commit(i, tag) => With(s, i, s.nodes[i].Finish(tag, true))
    case Abort(i) => With(s, i, s.nodes[i].Finish(None, false))
    case Unsubscribe(i) => With(s, i, s.nodes[i].Unsubscribe())
    case Build(i) => With(s, i, s.nodes[i].Build())
    case Process(i, heir) =>
      var p := s.nodes[i].net.request;
      var (server, net) := Handle(s, p, heir);
      System(if s.phase == Live && p.state.Unsubscribing? && server.wired == {} then Closed else s.phase,
             server, s.nodes[i := s.nodes[i].(net := net)])
    case Deliver(i) => With(s, i, s.nodes[i].Deliver())
    case Lose(i) => With(s, i, s.nodes[i].(net := Idle))
  }

  function Next(s: System, l: Label): System {
    if Enabled(s, l) then Take(s, l) else s
  }

  /** The step undoes a transaction. */
  predicate RollsBack(n: Node, l: Label) {
    && n.replica.record.pending.Some?
    && (l.Abort?
        || (l.Commit?
            && n.replica.buffer.Enqueue(n.replica.record.pending.value.(tag := l.tag), n.replica.limit).Failure?))
  }

  function Exec(s: System, ls: seq<Label>): System {
    if ls == [] then s else Next(Exec(s, ls[..|ls| - 1]), ls[|ls| - 1])
  }
}
