# Verification model of the Qortoo replication protocol

A Qortoo client keeps a replica of a shared datatype: the counter's value, a clock, the transaction
being built, a buffer of committed transactions and a checkpoint. From time to time it exchanges one
push-pull pack with the server of the datatype, which keeps one ordered history, remembers how much of
each client it holds, and answers with what the client has not seen. This project models that protocol
and proves what it keeps.

Two layers model the same code. As values: `Replica`, `PullHandling`, `DatatypeServer` and the machine
of `Protocol`, in which one server and any number of replicas take steps in any order (a local operation,
a commit, an abort, building a request, serving it, delivering the answer, losing it, registering,
unsubscribing). A run is any sequence of labels, and a label that is not enabled does nothing, so a lemma
about `Exec(Init(), ls)` is about every run. As objects: `CounterCrdt`, `MemoryPushBuffer`, `TxRecord`,
`MutableDatatype`, `PullHandler`, `LocalDatatypeServer`, `LocalConnectivity`, `WiredDatatype`,
`DeferGuard` and `DatatypeEventLoop` are updated in place by loops and assignments as in the program,
and every method is proved to do what the value layer says.

What the proofs rest on:

- `Invariant.Inv`, kept by every step (`Requests.ExecKeeps`): the history is numbered without gaps; what
  the server holds of a client is exactly the first transactions that client committed; an acknowledged
  checkpoint `(s, c)` says that `c` of the client's own transactions are among the first `s`.
- `Meaning.Meaningful`, also kept by every step: a replica's value is what its snapshot held, every
  transaction it has executed since, its own acknowledged and pending work, and what it dropped when it
  stopped. The ledger of the machine only records these and is never corrected, so what a pull misses or
  repeats stays visible: the *drift* of a replica is what was donated and dropped, plus what it has
  executed, minus the foreign transactions of the history up to its checkpoint.

The code lets a replica drift: through a snapshot of unacknowledged work, a creation acknowledged again
behind somebody else's push, a subscription answered twice, or pending work dropped when it is disabled.
For each there is the exact condition (`Theorems`), a run in which it happens (`Scenarios`, `Failures`),
and the theorem for the runs without it: in a *clean* run (`Exactness.Clean`: no newcomer is given the
snapshot of a donor with open or unacknowledged work, and no repeated creation request is answered when
foreign transactions lie in between) every foreign transaction is executed exactly once, every value is
the acknowledged history and the own pending work, and drained replicas that sync once more all hold the
sum of the whole history. Losses and retries are part of clean runs, and in realtime mode without losses
only the condition on donors is left.

The arithmetic of the counter is 64-bit with wrap-around throughout (`CounterArithmetic.Wrap`), so the
value theorems hold for overflowing counters and for the least integer too.

| files | subject |
|---|---|
| `Types`, `Counter`, `History`, `PushBuffer`, `Replica`, `PullHandling`, `Server` | the values and the operations on them |
| `MutableDatatype`, `PullHandler`, `LocalServer`, `LocalConnectivity`, `Wired` | the objects, proved against the values |
| `Protocol`, `Invariant`, `Delivery`, `Requests`, `Meaning` | the machine and its two invariants |
| `Theorems`, `Refusals`, `Limits`, `Lamports`, `RollbackLaw`, `Registration` | what follows for every run |
| `Exactness`, `Convergence`, `Causality` | what follows for runs that keep a guard, and when the guard is needed |
| `Realtime`, `EventLoop`, `LoopRefinement` | notifications and channels, the loop of one datatype, and the loop as part of the realtime machine |
| `Threads`, `Commits` | concurrent transactions: isolation, and which of them are committed |
| `Scenarios`, `Failures` | runs in which a promise needs its guard |

`dafny verify dfyconfig.toml` checks all of it.

## Model

| member | source | states |
|---|---|---|
| CounterArithmetic.WrapInverse | src/datatypes/crdts/counter_crdt.rs:38-50 | adding the negated delta undoes an increase under 64-bit wrap-around, for the least integer too |
| CounterArithmetic.WrapCongruence | src/datatypes/crdts/counter_crdt.rs:15-18 | two sums leave the same machine value exactly when they are congruent modulo 2^64 |
| CounterArithmetic.BytesRoundTrip | src/datatypes/crdts/counter_crdt.rs:52-62 | a counter written as bytes and read back is itself |
| CounterArithmetic.ValueRoundTrip | src/datatypes/crdts/counter_crdt.rs:52-62 | eight bytes read as a counter and written again are themselves |
| CounterArithmetic.LowByteFirst | src/datatypes/crdts/counter_crdt.rs:52-62 | the lowest byte comes first |
| CounterArithmetic.CounterCrdt.ExecuteCommonOperation | src/datatypes/crdts/counter_crdt.rs:24-36 | local and remote execution add the operation's delta |
| CounterArithmetic.CounterCrdt.ExecuteInverseOperation | src/datatypes/crdts/counter_crdt.rs:38-50 | the inverse takes exactly the operation's delta away |
| CounterArithmetic.CounterCrdt.Serialize | src/datatypes/crdts/mod.rs:69-73 | the bytes stand for the value |
| CounterArithmetic.CounterCrdt.Deserialize | src/datatypes/crdts/mod.rs:75-91 | eight bytes set the value they stand for, any other length is refused and changes nothing |
| PushBuffer.FittingFits | src/datatypes/push_buffer.rs:96-104 | what is sent stays within the size limit |
| PushBuffer.FittingIsLongest | src/datatypes/push_buffer.rs:96-104 | a prefix fits if and only if it is no longer than what is sent |
| PushBuffer.EnqueueKeepsWellFormed | src/datatypes/push_buffer.rs:64-78 | an accepted enqueue keeps a gap-free run, its two ends and its exact size within the limit |
| PushBuffer.EnqueueRefusedIff | src/datatypes/push_buffer.rs:64-78 | an enqueue is refused if and only if it leaves a gap, or else exceeds the limit, and with the error of the one it is |
| PushBuffer.DequeKeepsWellFormed | src/datatypes/push_buffer.rs:107-135 | a deque keeps the same, and keeps exactly the transactions above the given cseq |
| PushBuffer.BufferRefinesQueue | src/datatypes/push_buffer.rs:64-135 | after any mix of enqueues and deques the buffer is the undropped tail of everything enqueued |
| PushBuffer.NextEnqueueIsSequential | src/datatypes/push_buffer.rs:65-67 | after any such mix the next cseq is never refused as non-sequential |
| PushBuffer.PushingIsLongestRun | src/datatypes/push_buffer.rs:80-105 | after any such mix, what is sent from a cseq is the longest fitting run of the log from there; a dropped cseq is the error |
| PushBuffer.PushedSize | src/operations/transaction.rs:114-123 | an operation makes its transaction larger by exactly its own size, a tag by its length, and an empty transaction has the fixed size |
| PushBuffer.SizeInBytes | src/operations/transaction.rs:114-123 | transactions of counter increases take 81 bytes each, their tags, and 32 bytes for every operation in them |
| Limits.MemoryBound | src/datatypes/push_buffer.rs:64-78 | in every run the bytes of everything buffered, each operation counted, stay within the limit of the replica |
| Limits.CommitAcceptedIff | src/datatypes/push_buffer.rs:64-78 | in every run a commit is accepted if and only if the bytes of the buffer with it are within the limit, and is undone otherwise |
| Limits.SendsLongestRun | src/datatypes/push_buffer.rs:80-105 | in every run what is sent is the longest run of the unacknowledged transactions of at most 4,000,000 bytes |
| PushBuffer.MemoryPushBuffer.constructor | src/datatypes/push_buffer.rs:37-45 | a new buffer is empty with both ends zero |
| PushBuffer.MemoryPushBuffer.Enqueue | src/datatypes/push_buffer.rs:64-78 | appends, or refuses a gap or an excess of memory and changes nothing |
| PushBuffer.MemoryPushBuffer.GetPushingTransactions | src/datatypes/push_buffer.rs:80-105 | the loop returns the longest fitting run and its size |
| PushBuffer.MemoryPushBuffer.Deque | src/datatypes/push_buffer.rs:107-135 | removes and returns exactly the acknowledged prefix, all counters staying exact |
| MutableReplica.TxRecord.RecordOperation | src/datatypes/tx_record.rs:28-42 | the first operation opens a transaction and sets the save point, the others only join it |
| MutableReplica.MutableDatatype.constructor | src/datatypes/mutable.rs:37-54 | a new replica is at zero in every counter |
| MutableReplica.MutableDatatype.Reset | src/datatypes/mutable.rs:56-59 | drops the buffer and the open transaction, keeps value and clock |
| MutableReplica.MutableDatatype.Disable | src/datatypes/mutable.rs:61-64 | a reset that ends disabled |
| MutableReplica.MutableDatatype.ApplySnapshotTransaction | src/datatypes/mutable.rs:66-87 | takes value and lamport of a snapshot and starts over at cseq 0, or fails and changes nothing |
| MutableReplica.MutableDatatype.DoRollback | src/datatypes/mutable.rs:89-100 | the loop over the inverses, last first, takes the open transaction's sum away and goes back to the save point |
| MutableReplica.MutableDatatype.EndTransaction | src/datatypes/mutable.rs:108-131 | commits into the buffer, rolls back, or leaves the refused transaction open with the error |
| MutableReplica.MutableDatatype.ApplyAction | src/datatypes/mutable.rs:138-148 | the lifecycle effect of each recovery action |
| MutableReplica.MutableDatatype.FinishTransaction | src/datatypes/transactional.rs:254-280 | a refused commit is rolled back at once |
| MutableReplica.MutableDatatype.ExecuteRemoteTransaction | src/datatypes/mutable.rs:150-159 | the loop adds the transaction's sum and raises the lamport to its highest |
| MutableReplica.MutableDatatype.ExecuteLocalOperation | src/datatypes/mutable.rs:161-173 | executes, records and advances the clock, the cseq only with a new transaction |
| MutableReplica.MutableDatatype.GetSubscribeSnapshot | src/datatypes/wired.rs:140-147 | the current value, stamped with the acknowledged sseq |
| MutableReplica.MutableDatatype.CreatePushPullPack | src/datatypes/wired.rs:151-163 | the fitting unacknowledged transactions with the checkpoint they reach, or the buffer's error |
| MutableReplica.RemoteStep | src/datatypes/pull_handler.rs:150-158 | executing transactions one by one is executing their sum |
| PullSteps.AbsorbingSteps | src/datatypes/pull_handler.rs:37-48 | the three queued steps together do what taking the answer means |
| PullSteps.SubscribingSteps | src/datatypes/pull_handler.rs:77-94 | with the subscription step in front they start over from the snapshot, and a bad snapshot stops them all |
| PullSteps.PullHandler.constructor | src/datatypes/pull_handler.rs:24-35 | a handler begins with the replica's state and nothing queued |
| PullSteps.PullHandler.HandleErrorAndDatatypeState | src/datatypes/pull_handler.rs:63-119 | the state table: which answer is an error, illegal, plain or a subscription |
| PullSteps.PullHandler.ApplySubscribeResponseStep | src/datatypes/pull_handler.rs:125-133 | takes the snapshot once and adopts the datatype id |
| PullSteps.PullHandler.SkipDuplicatedTransactionsStep | src/datatypes/pull_handler.rs:135-143 | the surplus at the front is skipped |
| PullSteps.PullHandler.ExecuteTransactionsStep | src/datatypes/pull_handler.rs:150-158 | the loop executes everything after the skipped part |
| PullSteps.PullHandler.PerformStep | src/datatypes/pull_handler.rs:167-171 | a step that fails leaves the replica as it was |
| PullSteps.PullHandler.Commit | src/datatypes/pull_handler.rs:167-174 | the loop performs the queued steps up to the first failure and moves the state only at the end |
| PullSteps.PullHandler.Apply | src/datatypes/pull_handler.rs:37-48 | the whole handler has the effect and the outcome of the pull as a value |
| LocalServer.LocalDatatypeServer.constructor | src/connectivity/local_datatype_server.rs:64-79 | a new server is empty and not created |
| LocalServer.LocalDatatypeServer.InsertClientItem | src/connectivity/local_datatype_server.rs:81-84 | registers the replica and its channel |
| LocalServer.LocalDatatypeServer.PushTransactions | src/connectivity/local_datatype_server.rs:96-116 | the loop appends exactly the transactions above the known cseq, numbered on |
| LocalServer.LocalDatatypeServer.PullTransactions | src/connectivity/local_datatype_server.rs:340-348 | the loop collects the history after a number without the client's own, up to its end |
| LocalServer.LocalDatatypeServer.NotifyPushed | src/connectivity/local_datatype_server.rs:215-231 | every registered client but the sender gets one notification of the new version |
| LocalServer.NotifiesOthers | src/connectivity/local_datatype_server.rs:215-231 | every client but the sender is told exactly once, and nobody when nothing was pushed |
| LocalServer.LocalDatatypeServer.ProcessCreating | src/connectivity/local_datatype_server.rs:118-146 | creation, its repetition with the same id, and its two refusals |
| LocalServer.LocalDatatypeServer.ProcessSubscribing | src/connectivity/local_datatype_server.rs:284-334 | the four refusals, or the creator's snapshot with the tail after it |
| LocalServer.LocalDatatypeServer.ProcessSubscribingOrCreating | src/connectivity/local_datatype_server.rs:148-158 | one or the other by whether the datatype exists |
| LocalServer.LocalDatatypeServer.ProcessClientPush | src/connectivity/local_datatype_server.rs:190-212 | push, pull and, in realtime mode, a notification exactly when something new was pushed |
| LocalServer.LocalDatatypeServer.ProcessSubscribed | src/connectivity/local_datatype_server.rs:160-188 | refuses the unregistered and the mistyped, else exchanges |
| LocalServer.LocalDatatypeServer.ProcessUnsubscribing | src/connectivity/local_datatype_server.rs:233-260 | a last exchange, after which the client is gone whatever its outcome |
| LocalServer.LocalDatatypeServer.RemoveClient | src/connectivity/local_datatype_server.rs:249-258 | the role of the creator passes to a remaining client |
| LocalConnection.LocalConnectivity.Register | src/connectivity/local_connectivity.rs:160-173 | the first replica of a resource makes its server, no other server changes |
| LocalConnection.LocalConnectivity.Dispatch | src/connectivity/local_connectivity.rs:192-206 | the server handles the request by the state it carries, and notifies in realtime mode only |
| LocalConnection.LocalConnectivity.PushPull | src/connectivity/local_connectivity.rs:181-224 | no server answers not found; a server left without clients is removed, and only then |
| WiredReplica.WiredDatatype.PushIfNeeded | src/datatypes/wired.rs:60-65 | in realtime mode exactly when the state or the backlog calls for it |
| WiredReplica.WiredDatatype.HandleNotification | src/datatypes/wired.rs:73-98 | counts only if it is of this datatype, of another client, and ahead of the checkpoint |
| WiredReplica.WiredDatatype.DoPushPull | src/datatypes/wired.rs:108-134 | one exchange through the objects is the server's answer to the replica's request, applied to the replica |
| WiredReplica.WiredDatatype.Send | src/datatypes/wired.rs:122-133 | a request reaches the server of its resource or is refused as not found, and its answer is applied |
| WiredReplica.WiredDatatype.PushPull | src/datatypes/event_loop.rs:149-162 | one exchange through the objects: the request built, served and answered, and the recovery from its failure applied, with the outcome of that answer |
| WiredReplica.ExchangeIsProtocol | src/datatypes/wired.rs:108-134 | such an exchange is exactly the build, serve and deliver of the protocol machine: same replica, same server, same end of the loop, nobody else touched |
| WiredReplica.WiredDatatype.HandleError | src/datatypes/wired.rs:67-70 | the recovery action is applied to the replica |
| WiredReplica.AnswerOnlyIncreases | src/connectivity/local_datatype_server.rs:340-348 | a server never answers with an operation the counter does not implement |
| DatatypeServer.AcceptedIsSuffix | src/connectivity/local_datatype_server.rs:96-116 | of a gap-free run the server takes exactly the part it does not hold, in order |
| DatatypeServer.PullAfterIsForeign | src/connectivity/local_datatype_server.rs:340-348 | with a numbered history a pull is the foreign part of its tail |
| Invariant.EnqueueIsSequential | src/datatypes/mutable.rs:118-129 | a commit is never refused as non-sequential |
| Invariant.RefusedCommitIsAbort | src/datatypes/transactional.rs:262-270 | a commit the buffer refuses ends in exactly the state of an abort |
| Invariant.SendableIs | src/datatypes/wired.rs:152-163 | a running replica always sends its log from the checkpoint on, as much as fits |
| Invariant.BuildKeeps | src/datatypes/wired.rs:108-115 | building a request always succeeds and keeps the invariant |
| Delivery.NeverUnimplemented | src/datatypes/pull_handler.rs:107-112 | the two unimplemented branches of the state table are never reached |
| Delivery.DeliverKeeps | src/datatypes/wired.rs:131-133 | every answer, taken or failed, keeps the invariant |
| Requests.PushIs | src/connectivity/local_datatype_server.rs:96-116 | a served request adds exactly the unheld part of the client's log |
| Requests.PushHeld | src/connectivity/local_datatype_server.rs:96-116 | afterwards the server holds the log up to the end of the request |
| Requests.ProcessKeeps | src/connectivity/local_connectivity.rs:181-224 | serving any request keeps the invariant for every client |
| Requests.ReachableInv | src/connectivity/local_datatype_server.rs:36-48 | the structural invariant holds in every state of every run |
| Meaning.CheckpointMoves | src/datatypes/pull_handler.rs:160-165 | moving a checkpoint trades pending work for history, the difference being the foreign transactions in between |
| Meaning.JoinExecutesAll | src/datatypes/pull_handler.rs:125-158 | on a snapshot join nothing is skipped and everything after the snapshot is executed |
| Meaning.JoinMeans | src/datatypes/mutable.rs:66-87 | a joined replica means the history up to the answer plus what the snapshot held beyond its number |
| Meaning.DonationMade | src/datatypes/wired.rs:140-147 | what a snapshot holds beyond its number is the donor's drift and its pending work |
| Meaning.ReachableMeaningful | src/datatypes/mutable.rs:150-173 | in every state of every run the value of every replica, disabled ones included, is the acknowledged history, its pending work and the drift computed from what it was given, executed and dropped |
| Theorems.ReplicaValue | src/datatypes/pull_handler.rs:150-165 | in every run a value is what the snapshot held, the transactions executed since, the own acknowledged and pending ones, and what was dropped at the stop |
| Theorems.PushedExactlyOnce | src/connectivity/local_datatype_server.rs:96-116 | whatever is retransmitted, each client's part of the history is its first commits, once each, in order, unchanged but for the number |
| Theorems.SequenceErrorsUnreachable | src/datatypes/push_buffer.rs:64-94 | neither sequence error of the buffer occurs in any run |
| Theorems.PulledIsExact | src/datatypes/pull_handler.rs:135-148 | for every answer to an active subscription the subtraction does not underflow and counts the foreign transactions in between |
| Theorems.PulledKeepsFaithful | src/datatypes/pull_handler.rs:150-165 | such an answer executes exactly the foreign transactions in between, so a replica has executed all of its history once and in order afterwards if and only if it had before |
| Theorems.CreatedFaithfulIff | src/connectivity/local_datatype_server.rs:138-145 | an acknowledged creation keeps its replica faithful to the history if and only if no foreign transaction lies before the acknowledgement, else the value falls short by their sum |
| Theorems.UnderflowIff | src/datatypes/pull_handler.rs:145-148 | the subtraction underflows for exactly two kinds of answer, both of which occur |
| Theorems.RepeatedJoinFaithfulIff | src/datatypes/pull_handler.rs:135-158 | a subscription answered to a replica already let in keeps it faithful if and only if no foreign transaction lies between checkpoint and snapshot, or the snapshot is the older and nothing of its own is acknowledged |
| Failures.RepeatedJoinUnderflows | src/datatypes/pull_handler.rs:145-148 | a run in which an abort takes a creator back to its request and the answer, its own snapshot, underflows |
| Failures.RepeatedUnsubscriptionUnderflows | src/connectivity/local_datatype_server.rs:241-245 | a run in which the retry of an unsubscription whose answer was lost underflows |
| Theorems.VoidIsHarmless | src/connectivity/local_datatype_server.rs:241-245 | the answer to a repeated unsubscription underflows and yet changes only the state |
| Theorems.DedupeFromOlder | src/datatypes/pull_handler.rs:135-148 | of an answer computed from an older checkpoint exactly the part already applied is skipped |
| Theorems.RetransmissionHarmless | src/connectivity/local_datatype_server.rs:190-212 | any old request served again leaves the history free of repeats and makes its client execute only what it misses |
| Theorems.ReusedClientIdIff | src/connectivity/local_datatype_server.rs:97-106 | a handle created again under a remembered client id is recorded in full if and only if the server holds nothing of that id |
| Theorems.ServerRemembers | src/connectivity/local_datatype_server.rs:96-116 | in every run the checkpoint the server keeps of a client is a true one: so many of its transactions lie within so much of the history |
| Theorems.SnapshotJoin | src/connectivity/local_datatype_server.rs:317-333 | in every run a snapshot join ends at the whole history plus the donor's drift and pending work, so it agrees with replaying the history if and only if their sum vanishes modulo 2^64 |
| Refusals.RefusedIff | src/connectivity/local_datatype_server.rs:118-188 | in every run a request, first or retried, is answered with an error if and only if one of the listed faults is its sender's, and with the error of that fault; among them a readonly creator, and a subscription that carries transactions |
| Refusals.RefusalChangesNothing | src/connectivity/local_datatype_server.rs:118-188 | in every run a request answered with an error has changed nothing on the server, and the answer carries nothing |
| Refusals.MistypedRefused | src/connectivity/local_datatype_server.rs:296-308 | a datatype of another type is not found by a subscriber and a protocol violation of a subscribed sender; a creation and a departure are served as if it were of the same type |
| Refusals.StopsIff | src/datatypes/pull_handler.rs:63-119 | an answer stops its replica if and only if it refuses the request or no longer fits the state, and then nothing buffered is kept |
| Refusals.RetryHarmless | src/datatypes/pull_handler.rs:63-75 | a replica told to try again keeps all it has and asks again by itself |
| Refusals.BadSnapshotDisables | src/datatypes/mutable.rs:66-87 | a snapshot that cannot be read disables the replica that is to start over from it |
| Refusals.LostBacklogDisables | src/datatypes/push_buffer.rs:80-94 | a request cannot be built if and only if the buffer has dropped a part of the backlog, and that disables the replica |
| Refusals.CreatorMoves | src/connectivity/local_datatype_server.rs:118-146 | serving a request makes its sender the creator only if it may write; otherwise the role passes on only when its holder leaves |
| Refusals.CreatedByWriter | src/connectivity/local_datatype_server.rs:133-137 | in every run a created datatype has a replica that may write |
| Refusals.ReadonlyNeverWrites | src/datatypes/wired.rs:152-163 | in every run nothing in the history is of a readonly replica |
| Failures.RetriedCreationDisables | src/connectivity/local_datatype_server.rs:309-316 | a run in which the retry of a first request with a transaction, whose answer was lost, disables its sender though the server holds the transaction |
| Exactness.CleanRunsExact | src/datatypes/wired.rs:140-147 | with quiet donors and no creation acknowledged again behind foreign transactions, every running replica has executed exactly what it owes and drifts by nothing |
| Exactness.ExecutedExactlyOnce | src/connectivity/local_datatype_server.rs:340-348 | then every foreign transaction after the snapshot it joined with, or from the beginning, is executed once and in server order, none of its own, and with the own ones they are the history |
| Exactness.SinceIsJoin | src/datatypes/pull_handler.rs:125-133 | in every run that beginning is 0 or the number of a snapshot the replica joined with |
| Exactness.CleanValue | src/datatypes/pull_handler.rs:150-165 | then every value is exactly the acknowledged history and the own pending work |
| Exactness.CleanConvergence | src/datatypes/pull_handler.rs:150-165 | then quiet replicas at the same server version are equal |
| Convergence.SyncAdvances | src/datatypes/wired.rs:108-134 | one exchange acknowledges the fitting backlog, reaches the end of the history and touches nobody else |
| Convergence.SyncProgressIff | src/datatypes/push_buffer.rs:96-104 | a sync shortens the backlog if and only if its first transaction fits a transmission |
| Convergence.DrainTerminates | src/datatypes/wired.rs:152-172 | every sync shortens the backlog until it is empty, checkpoints never going back |
| Convergence.BacklogDrained | src/datatypes/wired.rs:152-172 | a backlog is gone after as many syncs as it is long |
| Convergence.SyncAllReaches | src/connectivity/local_datatype_server.rs:190-212 | once all have drained, one more sync each brings all to the end of the history |
| Convergence.AllConverge | src/connectivity/local_datatype_server.rs:190-212 | strong convergence: in a clean run they then all hold exactly the sum of the whole history |
| RollbackLaw.RollbackExact | src/datatypes/mutable.rs:89-100 | however remote transactions interleave, undoing leaves the value they alone give, the old cseq and the same buffer |
| RollbackLaw.RollbackUndoesLifecycle | src/datatypes/mutable.rs:97-98 | an abort undoes every lifecycle change since the first operation, so it keeps the state if and only if those changes end where they began |
| Lamports.HistoryLamportsIncrease | src/datatypes/mutable.rs:161-173 | one client's lamports strictly increase along every history, aborted transactions notwithstanding |
| Lamports.OperationIdsUnique | src/types/operation_id.rs:81-90 | lamport and client identify an operation of the history |
| Lamports.HistoryTotallyOrdered | src/types/operation_id.rs:81-90 | any two different operations of the history are strictly ordered one way: one client's as it executed them, equal lamports by client |
| Causality.RollbackCausalIff | src/datatypes/mutable.rs:97 | an abort keeps the clock past everything the replica holds if and only if nothing executed while the transaction was open is past the save point |
| Causality.NewOperationIsLater | src/datatypes/mutable.rs:150-173 | with no such abort a new operation's lamport exceeds that of every operation its replica holds: executed, folded into its snapshot, committed or open |
| Causality.NoPullInsideIsLater | src/datatypes/mutable.rs:89-100 | so it does in every run in which no transaction is undone that has been open across a pull |
| Causality.AbortRegressesIff | src/datatypes/mutable.rs:97 | an abort makes the next operation no later than one its replica holds if and only if something past the save point was executed while it was open |
| Causality.LaterThanHistory | src/datatypes/mutable.rs:150-173 | in clean runs without such an abort a new operation is later than every operation of the acknowledged history, the part before a snapshot included |
| Failures.ClockThrownBack | src/datatypes/mutable.rs:97 | a run in which an abort across a pull makes the next operation no later than the one just pulled |
| Registration.AcceptedCreationKeepsDonorIff | src/connectivity/local_datatype_server.rs:138-140 | an accepted creation leaves a donor if and only if its sender is registered |
| Registration.DonorAvailable | src/connectivity/local_datatype_server.rs:318-327 | while somebody is registered a created datatype has a donor, and nobody is told that the creator is unavailable |
| Registration.WiredIs | src/connectivity/local_datatype_server.rs:249-252 | the registered clients are those that registered and whose unsubscription has not been served |
| Registration.EntryIffSomebodyLeft | src/connectivity/local_connectivity.rs:206-221 | a directory entry exists if and only if such a client remains |
| Realtime.PushNotifies | src/connectivity/local_datatype_server.rs:207-209 | without aborts across lifecycle changes, whatever reaches a created history is announced |
| Realtime.StepAwake | src/datatypes/event_loop.rs:130-175 | every step of the loops, channels and server keeps the no-lost-wakeup invariant |
| Realtime.NoLostWakeup | src/datatypes/event_loop.rs:169-174 | a subscribed replica behind the server is exchanging or has an event queued that makes it exchange |
| Realtime.AsleepIsCurrent | src/datatypes/event_loop.rs:215-240 | an idle loop with empty queues means an up-to-date replica with nothing unacknowledged |
| Realtime.SleepersAreSettled | src/datatypes/wired.rs:165-172 | a running replica with nothing to do is subscribed or has left, never entering or leaving |
| Realtime.UpToDateNotWoken | src/datatypes/wired.rs:73-98 | no queued notification makes an up-to-date replica exchange |
| Realtime.WaitingIsWoken | src/datatypes/transactional.rs:254-262 | a waiting loop does not look at what it has to push, and whatever gives its replica something to push queues an event for it |
| Realtime.NeverRepeats | src/datatypes/event_loop.rs:169-174 | without losses no creation is ever answered behind foreign transactions |
| Realtime.RealtimeClean | src/datatypes/event_loop.rs:130-175 | so every realtime run with quiet donors is clean |
| Realtime.AsleepConverge | src/datatypes/event_loop.rs:215-240 | and then replicas whose loops are idle with empty queues all hold exactly the sum of the whole history |
| Realtime.LossSurvivedIff | src/datatypes/event_loop.rs:149-163 | after a lost answer a replica exchanges again by itself if and only if it has something to push, a sync or push event queued, or a notification that counts |
| Threads.UnwoundReverses | src/utils/defer_guard.rs:24-30 | deferred functions run in reverse order of registration, all with the same flag |
| Threads.DeferGuard.Drop | src/utils/defer_guard.rs:24-30 | the loop runs each registered function once, last first, and leaves none |
| Threads.RunOk | src/datatypes/transactional.rs:214-350 | every interleaving of calls keeps the isolation invariant, whatever the two mutexes do |
| Threads.Isolated | src/datatypes/transactional.rs:282-318 | every buffered transaction is all operations of exactly one context, in execution order, and shares none with another |
| Threads.AllOrNoneIff | src/datatypes/transactional.rs:320-350 | a buffered transaction is all operations its context ever executed if and only if the replica was not reset since the first of them |
| Commits.CommittedIff | src/datatypes/transactional.rs:254-350 | in every interleaving a context has an entry in the buffer if and only if it has executed an operation since the last reset, its call succeeded, and its end was accepted |
| Commits.FailedLeavesNothing | src/datatypes/mutable.rs:108-131 | no operation of a failed or refused transaction is in any entry |
| Commits.BeginsUnderOwn | src/datatypes/transactional.rs:282-318 | a call takes a free context, joins its own, and otherwise changes nothing and asks again |
| Commits.OperationsExclusive | src/datatypes/transactional.rs:241-252 | two operations are never executed at once, in one transaction or in two |
| Commits.MutexFreeIff | src/datatypes/transactional.rs:241-252 | the operation mutex is locked if and only if a call has yet to unlock it |
| Threads.MutexUnlockedByAnother | src/datatypes/transactional.rs:278-279 | a run in which the transaction mutex is unlocked under a running transaction |
| Threads.OutlivingCloneMixes | src/datatypes/transactional.rs:305-310 | a run in which a clone that outlives its closure puts an operation into another transaction |
| EventLoop.NoExchangeAfterDisable | src/datatypes/event_loop.rs:139-148 | after the first result that disables, no exchange is ever made again |
| EventLoop.BackOffOnlyUnbounded | src/datatypes/event_loop.rs:224-233 | in back-off an exchange comes only from the unbounded channel until the timer fires |
| EventLoop.StoppedIff | src/datatypes/event_loop.rs:40-55 | the loop has stopped if and only if some result so far has disabled the datatype |
| EventLoop.BackOffIff | src/datatypes/event_loop.rs:40-55 | it is backing off if and only if a transient result has been neither followed by an exchange nor ended by the timer |
| EventLoop.QuitsOnStop | src/datatypes/event_loop.rs:130-137 | the unbounded channel is served in order and the loop quits if and only if a stop is taken from it |
| EventLoop.BlocksIff | src/datatypes/event_loop.rs:198-240 | the loop blocks if and only if it is not in back-off, both channels are empty and nothing needs to be pushed |
| EventLoop.NeedPushHeard | src/datatypes/event_loop.rs:214-217 | in normal mode a need to push is met by an exchange at once |
| EventLoop.WakeQueued | src/datatypes/event_loop.rs:169-174 | a best-effort push, or a notification that counts, is queued or served by an exchange |
| EventLoop.WakeServed | src/datatypes/event_loop.rs:224-240 | in whatever mode a running loop is, a queued push is followed by an exchange within as many turns as events are sent, one for the timer and one for itself |
| EventLoop.WaitsGrow | src/datatypes/event_loop.rs:205-211 | each wait of a back-off is the next longer one, and only a result that is not transient starts over |
| EventLoop.AnsweredExactlyOnce | src/datatypes/event_loop.rs:186-195 | every sync request is answered exactly once and in order, or still queued |
| EventLoop.ReplyIsOutcome | src/datatypes/event_loop.rs:138-167 | a sync is told the outcome of the exchange made for it, or that the loop has stopped, and then it was disabled |
| EventLoop.DelaysGrow | src/datatypes/event_loop.rs:79-85 | waits double up to the limit |
| EventLoop.DatatypeEventLoop.TrySendToBounded | src/datatypes/event_loop.rs:264-280 | a best-effort event is dropped when one is queued |
| EventLoop.DatatypeEventLoop.ReceiveEvent | src/datatypes/event_loop.rs:198-240 | which event is taken in which mode, with the back-off it consumes |
| EventLoop.DatatypeEventLoop.PushTransactionEvent | src/datatypes/event_loop.rs:138-167 | a stopped loop refuses, a running one exchanges and takes the mode of the result |
| EventLoop.DatatypeEventLoop.Dispatch | src/datatypes/event_loop.rs:130-175 | what each event does |
| EventLoop.DatatypeEventLoop.Run | src/datatypes/event_loop.rs:108-184 | the loop over any event stream does what the trace theorems are about |
| LoopRefinement.DriveMatches | src/datatypes/event_loop.rs:108-184 | from its start the loop, its channels and its mode agree with the realtime machine, each turn being a step of that machine, whatever the others do |
| LoopRefinement.ModeIsEnd | src/datatypes/event_loop.rs:150-167 | a result puts the loop out of action if and only if the outcome it reports stops the replica |
| LoopRefinement.ModeAfterAnswer | src/datatypes/event_loop.rs:146-163 | in every run the loop backs off if and only if the answer told it to try again, and stops if and only if it was refused or the answer no longer fits |
| LoopRefinement.LoopNeverSleepsBehind | src/datatypes/event_loop.rs:169-174 | while its subscribed replica is behind the server, the loop has stopped, is exchanging, or holds an event in its own channels that makes it exchange |
| LoopRefinement.IdleLoopIsCurrent | src/datatypes/event_loop.rs:215-240 | a running loop with empty channels and nothing to do has an up-to-date replica with nothing unacknowledged |
| LoopRefinement.BlockedLoopIsWoken | src/datatypes/event_loop.rs:214-240 | a loop that blocks, whatever others do meanwhile, has an event in its channel as soon as its replica has something to push |
| Scenarios.UnquietDonorDiverges | src/datatypes/wired.rs:140-147 | a run in which two quiet replicas at the same version differ because the donor's open work was aborted later |
| Scenarios.LateAcknowledgementLoses | src/connectivity/local_datatype_server.rs:138-145 | a run in which a creator never sees a push its checkpoint says it has |
| Scenarios.RevivalLosesDonor | src/datatypes/mutable.rs:97-98 | a run in which an abort takes an unsubscription back and a subscriber is told the creator is unavailable |
| Scenarios.LostAnswerSleeps | src/datatypes/event_loop.rs:149-174 | a realtime run in which a lost answer leaves a notified replica behind, and nothing its own loop can do makes it exchange again |

## Left out

- Logs, metrics, traces, user handlers, builders, the client facade and its name checks.
- `NullConnectivity`, which keeps no history to converge with.
- The Map and Variable datatypes, whose constructors the program does not implement yet.
- The states Deleting and NotifyOnly and the recovery actions that resubscribe: no error is routed to them; the functions have their branches, no theorem is about them.
- Real channels, timers and thread scheduling: a channel is a sequence, the timer and the choice between two ready channels are inputs.
- A closed channel: the program logs that the loop is stopping and goes on receiving; here a channel never closes.
- Progress of the waiting loops of the two mutexes, and nested transactions.
- The race between removing a server and registering with it: `register` and `push_pull` are one step each.
- More than one server per run of the machine: once the last client has left, the entry stays gone. Client ids are not used again within a run; `Theorems.ReusedClientIdIff` says what would happen.
- The check and the change of state in `unsubscribe` are one step of the machine, and so are applying an answer and recovering from its failure.
- Overflow of the counters `cseq`, `sseq` and `lamport`, which are unbounded here; the checkpoint subtraction keeps its wrap-around, and debug builds panic where it says underflow.
- The fields `at`, `event` and `safe_sseq`, which no decision depends on; the length of a tag is counted in characters.
- Operations other than counter increases and snapshots: the methods that execute or undo require increases, which is what `WiredReplica.AnswerOnlyIncreases` and the invariant provide.
- Checkpoints, operation ids, transactions and packs are values, since the program copies them; `CheckPoint.check_with` and `PushPullPack.checkpointing` return the new value.
- The map of registered replicas points at `MutableDatatype` rather than at `WiredDatatype`, which only wraps it.
- The delays of the back-off are those of an exponential strategy with factor 2 and no jitter, the defaults of the library used.
- Exactness.CleanRunsExact: not an equivalence for whole runs, since a donor's later commit can make a drift good again; the steps at which a replica can drift have theirs (`Theorems.CreatedFaithfulIff`, `Theorems.RepeatedJoinFaithfulIff`, `Theorems.SnapshotJoin`).
- Theorems.RepeatedJoinFaithfulIff: for histories shorter than 2^63, beyond which the wrapped difference is no longer above every count of transactions.
- Realtime.NoLostWakeup: assumes that no answer is lost and that no abort changes the lifecycle state; `Realtime.LossSurvivedIff` and `RollbackLaw.RollbackUndoesLifecycle` say what happens otherwise.

Where the documentation says otherwise, the model follows the code: `docs/architecture.md` has the push
buffer dequeued when an answer is applied, but nothing calls `deque`, so a running replica keeps
everything it has committed; `docs/transaction-and-rollback.md` has an operation of another context fail
at once, but it waits and asks again; the same document restores the clock on rollback as if nothing
could have been pulled meanwhile, which `Causality.AbortRegressesIff` makes precise and
`Failures.ClockThrownBack` shows.
