/** The push buffer: committed transactions waiting to be acknowledged. */
module PushBuffer {
  import opened Types

  function SizeOf(txs: seq<Transaction>): nat {
    if txs == [] then 0 else SizeOf(txs[..|txs| - 1]) + txs[|txs| - 1].Size()
  }

  lemma SizeOfNothing()
    ensures SizeOf([]) == 0
  {
  }

  lemma {:induction false} SizeOfAppend(a: seq<Transaction>, b: seq<Transaction>)
    ensures SizeOf(a + b) == SizeOf(a) + SizeOf(b)
  {
    if b == [] {
      assert a + b == a;
    } else {
      SizeOfAppend(a, b[..|b| - 1]);
      assert (a + b)[..|a + b| - 1] == a + b[..|b| - 1];
    }
  }

  // ---- what sizes amount to ----

  /** All operations of the transactions, in order. */
  function Operations(txs: seq<Transaction>): seq<Operation> {
    if txs == [] then [] else Operations(txs[..|txs| - 1]) + txs[|txs| - 1].operations
  }

  function TagLengths(txs: seq<Transaction>): nat {
    if txs == [] then 0
    else
      var tag := txs[|txs| - 1].tag;
      TagLengths(txs[..|txs| - 1]) + if tag.Some? then |tag.value| else 0
  }

  /** The bytes of transactions that hold only counter increases: 81 for each transaction, the
      characters of its tag, and 32 for each operation. */
  function Bytes(txs: seq<Transaction>): nat {
    81 * |txs| + TagLengths(txs) + 32 * |Operations(txs)|
  }

  lemma {:induction false} IncreasesSize(ops: seq<Operation>)
    requires forall k :: 0 <= k < |ops| ==> ops[k].body.CounterIncrease?
    ensures OperationsSize(ops) == 32 * |ops|
  {
    if ops != [] {
      IncreasesSize(ops[..|ops| - 1]);
    }
  }

  lemma {:induction false} SizeInBytes(txs: seq<Transaction>)
    requires forall j :: 0 <= j < |txs| ==> txs[j].OnlyIncreases()
    ensures SizeOf(txs) == Bytes(txs)
  {
    if txs != [] {
      SizeInBytes(txs[..|txs| - 1]);
      IncreasesSize(txs[|txs| - 1].operations);
    }
  }

  /** One more operation makes a transaction larger by exactly its size, one tagged by the length of
      the tag, and an empty one has the fixed size only. */
  lemma PushedSize(tx: Transaction, op: Operation, tag: string)
    ensures tx.PushOperation(op).Size() == tx.Size() + op.Size()
    ensures tx.(tag := Some(tag)).Size() == tx.(tag := None).Size() + |tag|
    ensures Transaction.New(tx.cuid, tx.cseq).Size() == 81
    ensures op.Size() == 24 + if op.body.CounterIncrease? then 8 else |op.body.data|
  {
    var longer := tx.PushOperation(op).operations;
    assert longer[..|longer| - 1] == tx.operations;
  }

  predicate Consecutive(txs: seq<Transaction>) {
    forall j :: 0 <= j < |txs| ==> txs[j].cseq == txs[0].cseq + j >= 1
  }

  /** The longest prefix whose total size stays within `max`. */
  function Fitting(txs: seq<Transaction>, max: nat): (fit: seq<Transaction>)
    ensures |fit| <= |txs| && fit == txs[..|fit|]
  {
    if txs == [] || txs[0].Size() > max then []
    else [txs[0]] + Fitting(txs[1..], max - txs[0].Size())
  }

  lemma SizeOfSnoc(txs: seq<Transaction>, tx: Transaction)
    ensures SizeOf(txs + [tx]) == SizeOf(txs) + tx.Size()
  {
    assert (txs + [tx])[..|txs|] == txs;
  }

  lemma SizeOfCons(tx: Transaction, txs: seq<Transaction>)
    ensures SizeOf([tx] + txs) == tx.Size() + SizeOf(txs)
  {
    SizeOfSnoc([], tx);
    assert [] + [tx] == [tx];
    SizeOfAppend([tx], txs);
  }

  lemma {:induction false} FittingFits(txs: seq<Transaction>, max: nat)
    ensures SizeOf(Fitting(txs, max)) <= max
  {
    if txs == [] || txs[0].Size() > max {
    } else {
      FittingFits(txs[1..], max - txs[0].Size());
      SizeOfCons(txs[0], Fitting(txs[1..], max - txs[0].Size()));
    }
  }

  /** `Fitting` is the longest fitting prefix: every prefix that fits is no longer. */
  lemma {:induction false} FittingIsLongest(txs: seq<Transaction>, max: nat, n: nat)
    requires n <= |txs|
    ensures SizeOf(txs[..n]) <= max <==> n <= |Fitting(txs, max)|
    decreases |txs|
  {
    if n == 0 {
    } else {
      var tx, rest := txs[0], txs[1..];
      assert txs[..n] == [tx] + rest[..n - 1];
      SizeOfCons(tx, rest[..n - 1]);
      if tx.Size() <= max {
        FittingIsLongest(rest, max - tx.Size(), n - 1);
      }
    }
  }

  lemma LongestRun(txs: seq<Transaction>, max: nat, run: seq<Transaction>)
    requires run <= txs && SizeOf(run) <= max
    requires |run| < |txs| ==> SizeOf(run + [txs[|run|]]) > max
    ensures run == Fitting(txs, max)
  {
    hide Fitting, SizeOf;
    var n := |run|;
    assert run == txs[..n];
    FittingIsLongest(txs, max, n);
    if n < |txs| {
      assert run + [txs[n]] == txs[..n + 1];
      FittingIsLongest(txs, max, n + 1);
    }
  }

  /** New transactions at the end never shorten what is sent. */
  lemma {:induction false} FittingGrows(txs: seq<Transaction>, more: seq<Transaction>, max: nat)
    ensures |Fitting(txs, max)| <= |Fitting(txs + more, max)|
  {
    if txs == [] || txs[0].Size() > max {
    } else {
      assert (txs + more)[1..] == txs[1..] + more;
      FittingGrows(txs[1..], more, max - txs[0].Size());
    }
  }

  datatype Buffer = Buffer(transactions: seq<Transaction>, memSize: nat, firstCseq: nat, lastCseq: nat) {

    static function OfRun(txs: seq<Transaction>): Buffer {
      if txs == [] then Buffer([], 0, 0, 0)
      else Buffer(txs, SizeOf(txs), txs[0].cseq, txs[|txs| - 1].cseq)
    }

    /** A gap-free run of cseqs within the limit, the counters being its ends and its size. */
    predicate WellFormed(limit: nat) {
      this == OfRun(transactions) && Consecutive(transactions) && memSize <= limit
    }

    function Enqueue(tx: Transaction, limit: nat): Result<Buffer, DatatypeError> {
      if lastCseq != 0 && lastCseq + 1 != tx.cseq then Failure(NonSequentialCseq)
      else if memSize + tx.Size() > limit then Failure(PushBufferExceededMaxMemSize)
      else Success(OfRun(transactions + [tx]))
    }

    function PushingTransactions(cseq: nat, max: nat): Result<seq<Transaction>, DatatypeError> {
      if cseq == 0 || cseq < firstCseq then Failure(GetPushingTransactions)
      else if |transactions| <= cseq - firstCseq then Success([])
      else Success(Fitting(transactions[cseq - firstCseq..], max))
    }

    /** How many transactions `Deque` removes. */
    function Acknowledged(upto: nat): (n: nat)
      ensures n <= |transactions|
    {
      if upto < firstCseq then 0
      else if upto - firstCseq >= |transactions| then |transactions|
      else upto - firstCseq + 1
    }

    function Deque(upto: nat): Buffer { OfRun(transactions[Acknowledged(upto)..]) }
  }

  lemma EnqueueKeepsWellFormed(b: Buffer, tx: Transaction, limit: nat)
    requires b.WellFormed(limit) && tx.cseq >= 1
    ensures b.Enqueue(tx, limit).Success? ==> b.Enqueue(tx, limit).value.WellFormed(limit)
  {
    SizeOfSnoc(b.transactions, tx);
  }

  /** An enqueue is refused exactly for a gap, or else for its size: the gap is found first. */
  lemma EnqueueRefusedIff(b: Buffer, tx: Transaction, limit: nat)
    requires b.WellFormed(limit)
    ensures var txs := b.transactions;
      var gap := txs != [] && tx.cseq != txs[|txs| - 1].cseq + 1;
      && (b.Enqueue(tx, limit) == Failure(NonSequentialCseq) <==> gap)
      && (b.Enqueue(tx, limit) == Failure(PushBufferExceededMaxMemSize) <==> !gap && SizeOf(txs + [tx]) > limit)
      && (b.Enqueue(tx, limit).Success? ==> b.Enqueue(tx, limit).value.transactions == txs + [tx])
  {
    hide SizeOf, Transaction.Size;
    SizeOfSnoc(b.transactions, tx);
    SizeOfNothing();
  }

  lemma DequeKeepsWellFormed(b: Buffer, upto: nat, limit: nat)
    requires b.WellFormed(limit)
    ensures b.Deque(upto).WellFormed(limit)
    ensures forall j :: 0 <= j < |b.transactions| ==>
      (b.transactions[j] in b.Deque(upto).transactions <==> b.transactions[j].cseq > upto)
  {
    var n := b.Acknowledged(upto);
    var txs := b.transactions;
    assert txs == txs[..n] + txs[n..];
    SizeOfAppend(txs[..n], txs[n..]);
    forall j | 0 <= j < |txs|
      ensures txs[j] in txs[n..] <==> txs[j].cseq > upto
    {
      if j >= n { assert txs[n..][j - n] == txs[j]; }
    }
  }

  /** The queue a push buffer stands for: everything enqueued so far, and how much is dropped. */
  datatype Queue = Queue(buffer: Buffer, log: seq<Transaction>, dropped: nat)

  datatype QueueStep = Enq(tx: Transaction) | Deq(upto: nat)

  /** One use of the buffer. An enqueue carries the next cseq, any other is not made. */
  function NextQueue(q: Queue, step: QueueStep, limit: nat): Queue {
    match step
    case Enq(tx) =>
      if tx.cseq == |q.log| + 1 && q.buffer.Enqueue(tx, limit).Success? then
        Queue(q.buffer.Enqueue(tx, limit).value, q.log + [tx], q.dropped)
      else q
    case Deq(upto) =>
      Queue(q.buffer.Deque(upto), q.log, q.dropped + q.buffer.Acknowledged(upto))
  }

  function RunQueue(steps: seq<QueueStep>, limit: nat): Queue {
    if steps == [] then Queue(Buffer.OfRun([]), [], 0)
    else NextQueue(RunQueue(steps[..|steps| - 1], limit), steps[|steps| - 1], limit)
  }

  ghost predicate QueueOk(q: Queue, limit: nat) {
    && q.dropped <= |q.log|
    && (forall j :: 0 <= j < |q.log| ==> q.log[j].cseq == j + 1)
    && q.buffer.transactions == q.log[q.dropped..]
    && q.buffer.WellFormed(limit)
  }

  lemma EnqKeepsQueueOk(q: Queue, tx: Transaction, limit: nat)
    requires QueueOk(q, limit)
    ensures QueueOk(NextQueue(q, Enq(tx), limit), limit)
  {
    hide SizeOf, Transaction.Size;
    if tx.cseq == |q.log| + 1 {
      EnqueueKeepsWellFormed(q.buffer, tx, limit);
      assert (q.log + [tx])[q.dropped..] == q.log[q.dropped..] + [tx];
    }
  }

  lemma DeqKeepsQueueOk(q: Queue, upto: nat, limit: nat)
    requires QueueOk(q, limit)
    ensures QueueOk(NextQueue(q, Deq(upto), limit), limit)
  {
    hide Buffer.WellFormed, Buffer.Acknowledged, Buffer.Deque;
    DequeKeepsWellFormed(q.buffer, upto, limit);
    DequeTransactions(q.buffer, upto);
    var n := q.buffer.Acknowledged(upto);
    assert q.log[q.dropped..][n..] == q.log[q.dropped + n..];
  }

  lemma DequeTransactions(b: Buffer, upto: nat)
    ensures b.Deque(upto).transactions == b.transactions[b.Acknowledged(upto)..]
  {
  }

  lemma NextQueueOk(q: Queue, step: QueueStep, limit: nat)
    requires QueueOk(q, limit)
    ensures QueueOk(NextQueue(q, step, limit), limit)
  {
    match step
    case Enq(tx) => EnqKeepsQueueOk(q, tx, limit);
    case Deq(upto) => DeqKeepsQueueOk(q, upto, limit);
  }

  lemma {:induction false} RunQueueOk(steps: seq<QueueStep>, limit: nat)
    ensures QueueOk(RunQueue(steps, limit), limit)
  {
    if steps == [] {
    } else {
      RunQueueOk(steps[..|steps| - 1], limit);
      NextQueueOk(RunQueue(steps[..|steps| - 1], limit), steps[|steps| - 1], limit);
    }
  }

  /** After any mix of enqueues and deques the buffer is exactly the undropped tail of what was
      enqueued, its counters being that run's ends and size. */
  lemma BufferRefinesQueue(steps: seq<QueueStep>, limit: nat)
    ensures var q := RunQueue(steps, limit);
      q.dropped <= |q.log| && q.buffer == Buffer.OfRun(q.log[q.dropped..]) && q.buffer.WellFormed(limit)
  {
    RunQueueOk(steps, limit);
  }

  /** The next enqueue is never refused as non-sequential. */
  lemma NextEnqueueIsSequential(steps: seq<QueueStep>, tx: Transaction, limit: nat)
    requires tx.cseq == |RunQueue(steps, limit).log| + 1
    ensures RunQueue(steps, limit).buffer.Enqueue(tx, limit) != Failure(NonSequentialCseq)
  {
    RunQueueOk(steps, limit);
  }

  /** What is sent from an undropped cseq is the longest fitting run of the log starting there;
      asking for a dropped cseq is the error. */
  lemma PushingIsLongestRun(steps: seq<QueueStep>, cseq: nat, max: nat, limit: nat)
    requires 0 < cseq <= |RunQueue(steps, limit).log|
    ensures var q := RunQueue(steps, limit);
      q.buffer.PushingTransactions(cseq, max) ==
        if cseq <= q.dropped && q.dropped < |q.log| then Failure(GetPushingTransactions)
        else if cseq <= q.dropped then Success([])
        else Success(Fitting(q.log[cseq - 1..], max))
  {
    hide Fitting, SizeOf, RunQueue;
    RunQueueOk(steps, limit);
    var q := RunQueue(steps, limit);
    if q.dropped < cseq {
      assert q.log[q.dropped..][cseq - 1 - q.dropped..] == q.log[cseq - 1..];
    }
  }

  class MemoryPushBuffer {
    var transaction: seq<Transaction>
    var memSize: nat
    var firstCseq: nat
    var lastCseq: nat
    const limit: nat

    ghost function View(): Buffer
      reads this
    {
      Buffer(transaction, memSize, firstCseq, lastCseq)
    }

    ghost predicate Valid()
      reads this
    {
      View().WellFormed(limit)
    }

    constructor (limit: nat)
      ensures Valid() && View() == Buffer.OfRun([]) && this.limit == limit
    {
      this.limit := limit;
      transaction, memSize, firstCseq, lastCseq := [], 0, 0, 0;
    }

    method Enqueue(tx: Transaction) returns (error: Option<DatatypeError>)
      requires Valid()
      modifies this
      ensures tx.cseq >= 1 || error.Some? ==> Valid()
      ensures match old(View()).Enqueue(tx, limit)
        case Success(b) => error == None && View() == b
        case Failure(e) => error == Some(e) && View() == old(View())
    {
      hide SizeOf, Transaction.Size;
      SizeOfNothing();
      if tx.cseq >= 1 {
        EnqueueKeepsWellFormed(View(), tx, limit);
      }
      if lastCseq != 0 && lastCseq + 1 != tx.cseq {
        return Some(NonSequentialCseq);
      }
      if memSize + tx.Size() > limit {
        return Some(PushBufferExceededMaxMemSize);
      }
      SizeOfSnoc(transaction, tx);
      if firstCseq == 0 {
        firstCseq := tx.cseq;
      }
      lastCseq := tx.cseq;
      memSize := memSize + tx.Size();
      transaction := transaction + [tx];
      error := None;
    }

    method GetPushingTransactions(cseq: nat, maxMemSize: nat)
      returns (r: Result<(seq<Transaction>, nat), DatatypeError>)
      requires Valid()
      ensures match View().PushingTransactions(cseq, maxMemSize)
        case Success(txs) => r == Success((txs, SizeOf(txs)))
        case Failure(e) => r == Failure(e)
    {
      if cseq == 0 || cseq < firstCseq {
        return Failure(DatatypeError.GetPushingTransactions);
      }
      var popped, totalSize := [], 0;
      var index := cseq - firstCseq;
      if |transaction| <= index {
        return Success((popped, totalSize));
      }
      var i := index;
      while i < |transaction|
        invariant index <= i <= |transaction|
        invariant popped == transaction[index..i]
        invariant totalSize == SizeOf(popped) <= maxMemSize
      {
        var tx := transaction[i];
        SizeOfSnoc(popped, tx);
        if totalSize + tx.Size() > maxMemSize {
          break;
        }
        totalSize := totalSize + tx.Size();
        popped := popped + [tx];
        i := i + 1;
      }
      LongestRun(transaction[index..], maxMemSize, popped);
      r := Success((popped, totalSize));
    }

    method Deque(uptoCseq: nat) returns (removed: seq<Transaction>)
      requires Valid()
      modifies this
      ensures Valid() && View() == old(View()).Deque(uptoCseq)
      ensures removed == old(transaction)[..old(View()).Acknowledged(uptoCseq)]
    {
      hide SizeOf, Transaction.Size;
      SizeOfNothing();
      ghost var was := View();
      ghost var n := was.Acknowledged(uptoCseq);
      DequeKeepsWellFormed(was, uptoCseq, limit);
      removed := [];
      if uptoCseq < firstCseq {
        assert transaction[0..] == transaction;
        return;
      }
      if uptoCseq > lastCseq {
        removed := transaction;
        transaction, memSize, firstCseq, lastCseq := [], 0, 0, 0;
        return;
      }
      while transaction != [] && transaction[0].cseq <= uptoCseq
        invariant |removed| <= n && removed == was.transactions[..|removed|]
        invariant transaction == was.transactions[|removed|..]
        invariant View() == Buffer.OfRun(transaction) && memSize <= was.memSize
        decreases |transaction|
      {
        var tx := transaction[0];
        assert transaction == [tx] + transaction[1..];
        SizeOfCons(tx, transaction[1..]);
        transaction := transaction[1..];
        memSize := memSize - tx.Size();
        removed := removed + [tx];
        if transaction != [] {
          firstCseq := transaction[0].cseq;
        } else {
          firstCseq, lastCseq := 0, 0;
        }
      }
      assert |removed| == n;
    }
  }
}
