/** What a replica does with the server's answer. */
module PullHandling {
  import opened Types
  import opened Replica
  import opened History

  datatype Outcome =
    | Synced
    | Failed(error: DatatypeError)
    | Unimplemented

  /** Unsigned 64-bit subtraction as release builds do it: an underflow wraps around. */
  function U64Sub(a: nat, b: nat): nat {
    if a >= b then a - b else (a - b) % TWO_64
  }

  predicate Underflows(was: CheckPoint, now: CheckPoint) {
    now.sseq < was.sseq || now.cseq < was.cseq || now.sseq - was.sseq < now.cseq - was.cseq
  }

  /** How many of the answer's transactions are new to a replica at checkpoint `was`. */
  function PullCount(was: CheckPoint, now: CheckPoint): nat {
    U64Sub(U64Sub(now.sseq, was.sseq), U64Sub(now.cseq, was.cseq))
  }

  function SkipCount(was: CheckPoint, p: PushPullPack): (skip: nat)
    ensures skip <= |p.transactions|
  {
    var need := PullCount(was, p.checkpoint);
    if |p.transactions| > need then |p.transactions| - need else 0
  }

  function Executed(was: CheckPoint, p: PushPullPack): seq<Transaction> {
    p.transactions[SkipCount(was, p)..]
  }

  /** The state an error-free answer has to carry. */
  function ExpectedState(was: DatatypeState): DatatypeState {
    if was.Unsubscribing? then Disabled else Subscribed
  }

  /** Whether the answer is taken as a subscription, adopting the snapshot it carries. */
  predicate Joins(r: Replica, p: PushPullPack) {
    r.state.Subscribing? || (r.state.SubscribingOrCreating? && p.duid != r.duid)
  }

  function Subscribe(r: Replica, p: PushPullPack): Result<Replica, DatatypeError> {
    if p.snapshotTransaction.None? then Success(r.(duid := p.duid))
    else
      match r.ApplySnapshot(p.snapshotTransaction.value)
      case Failure(e) => Failure(e)
      case Success(r1) => Success(r1.(duid := p.duid))
  }

  function Absorb(r: Replica, p: PushPullPack): Replica {
    r.ExecuteRemote(Executed(r.checkpoint, p))
     .(checkpoint := r.checkpoint.CheckWith(p.checkpoint), state := p.state)
  }

  function ApplyPull(r: Replica, p: PushPullPack): (Replica, Outcome) {
    if p.error.Some? then (r.(state := p.state), Failed(ToDatatypeError(p.error.value)))
    else if r.state.Deleting? || r.state.Disabled? then (r, Unimplemented)
    else if p.state != ExpectedState(r.state) then
      (r.(state := Disabled), Failed(ServerRejected(ProtocolViolation)))
    else if !Joins(r, p) then (Absorb(r, p), Synced)
    else
      match Subscribe(r, p)
      case Failure(e) => (r, Failed(e))
      case Success(r1) => (Absorb(r1, p), Synced)
  }

  /** The whole reaction to an answer: the pull and the recovery from its failure. */
  function AfterPull(r: Replica, p: PushPullPack): (Replica, Outcome) {
    var (r1, outcome) := ApplyPull(r, p);
    if outcome.Failed? then (r1.ApplyAction(outcome.error.Recovery()), outcome) else (r1, outcome)
  }

  predicate Stops(outcome: Outcome) {
    outcome.Unimplemented? || (outcome.Failed? && outcome.error.Recovery().Disable?)
  }
}
