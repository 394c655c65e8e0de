# Formal model of the post office cluster

This project models the clustering core of the post office service (`app/web/postoffice/clustering`) and the parts of
`internal/` it rests on, and proves properties of the model.  Nothing in it is executed against the Go program.

* **Two-phase transactions** (`Tcc`, `TccFacts`, `Scheduling`, `Coordination`, `Barrier`, `Lone`, `Drive`,
  `BarrierExact`, `Retries`, `Recovery`, `Rounds`, `Outcome`, `Cancellation`, `Leftover`, `Isolation`, `TaskManager`,
  `Interleaving`).  A task is a queue of jobs, a job a set of transactions.  `Tcc` is the coordinator of one task as a
  state machine; `Coordination` adds participants, acknowledgements and timers over a network that may lose, repeat and
  reorder everything.  The results hold for all runs.  `TaskManager` is the imperative manager over maps shared by all
  tasks, proved against that machine, and `Interleaving` carries the results of single runs over to every task of any
  interleaving.
* **Consistent hashing** (`Ring`, `HandOff`, `Membership`).  The token ring, its replica lists, the two rings a node
  keeps and the token ranges handed over when a member joins.  The hash function is a parameter.
* **Storage** (`Bytes`, `Buffer`, `KeyCodec`, `Versions`, `Rows`, `Store`, `Scan`, `Transfer`, `Query`, `Rebalance`).
  The byte layout of rows, the operations on any bytes, the local store as a refinement of a versioned map, the
  transfer of ranges between nodes, queries, and what a joiner ends up with.
* **Dispatch** (`Dispatch`, `Registry`, `Rotation`).  Round-robin delivery to connected listeners and over endpoints.
* **Ids** (`Snowflake`).

`dafny verify dfyconfig.toml` checks everything.

Where the code and its documentation disagree the model follows the code; `docs/cluster-formation.md` names CRC32 as
the ring hash, the code uses another function, and no result depends on which.

Several natural properties turn out to be false of the code.  Each has a failing input or family and the exact
condition under which it holds:

* The two-phase barrier with cancels: it holds in all runs exactly for jobs with at most one transaction and for jobs
  behind a job without transactions, which is never completed.
* Reading a row at the joiner after a transfer: only under prefix 0, while readers use the token of the key.
* Independence of the prefixes a key is stored under: headers never depend on one another, but a write that sets or
  deletes the data row of a revision at which the key is live under another prefix replaces or erases its value there
  (`Rows.ReadAfter`; for `set`, a live row, or a tombstone that finds a row under prefix 0).
* Hand-off when names are prefixes of one another: exact at a token under the condition of `Membership.HandOffExactIff`,
  with a failing ring for every such pair of names.
* Recovery of lost asks: asks to reserve are retried until they are answered or used up, but a reservation that is
  acknowledged again in the second phase closes the timer of the confirm, and then no timer repeats a lost ask to
  confirm.  All runs recover exactly if there is nothing to retry or the job is never reached.
* Clean-up of a task: a job of it can be left in the channel exactly for plans with a second job and transactions in
  the first, and taking that job from the channel then follows a missing entry.
* Lost-update freedom for deletes: exactly for rows that are missing, immutable or tombstones.
* The class scan: for every class but one marker class; and it lists every stored revision, also of deleted keys.
* Keys of subscriptions: told apart from those of other nodes exactly without colons in node id and tag.  Turns of
  picks: kept apart exactly without hash signs in topic and tag.
* Success reports of `QWrite`, delivery from pools with repeated or empty ids, node numbers above 1023, and id order
  when the clock steps back.

Inputs of the model: clock readings, hash values, the readiness of a listener's queue, the success of a participant's
handler, and every network step.

## Model

| member | source | states |
|---|---|---|
| `Barrier.ConfirmWaitsForAllReservations` | app/web/postoffice/clustering/task_manager.go:103-207 | in every run (losses, duplicates, reorderings, handler errors, late timers), until a cancel of the job has been handled, a transaction is asked to confirm, and a confirm handler runs, only if every transaction of the job has reserved, and none is asked to cancel |
| `Barrier.NextJobWaitsForCompletion` | app/web/postoffice/clustering/task_manager.go:209-223 | in every run whatsoever, a job is scheduled only after every transaction of every earlier job acknowledged `TCC_FINISHED` and its confirm handler ran |
| `Barrier.FinishedJobHasNoTimer` | app/web/postoffice/clustering/task_manager.go:242-279 | once a job without handled cancels is finished, neither it nor any of its transactions has a timer |
| `Barrier.RunKeepsInv` | app/web/postoffice/clustering/task_manager.go:341-411 | the invariant behind these results holds in every reachable state of coordinator, network and participants |
| `Barrier.JoinReservation` | app/web/postoffice/clustering/job_resource.go:57-80 | in the first phase each transaction is counted once, and an acknowledgement completes the phase exactly when all have reserved |
| `Barrier.JoinCompletion` | app/web/postoffice/clustering/job_resource.go:57-80 | in the second phase the same counter counts completions once each, and completes exactly when all have finished |
| `BarrierExact.BarrierHoldsIff` | app/web/postoffice/clustering/task_manager.go:156-223 | the exact condition of the barrier with cancels: it holds in all runs if and only if the job has at most one transaction or an earlier job of the plan has none |
| `BarrierExact.CancelBreaksTheBarrier` | app/web/postoffice/clustering/task_manager.go:156-207 | every reachable job with two or more transactions has a run that, after a cancel, confirms a transaction that never reserved: completions and late reservations share one counter |
| `Lone.LoneJobKeepsBarrier` | app/web/postoffice/clustering/job_resource.go:57-80 | a job with at most one transaction keeps the barrier in every run, cancels included |
| `Lone.UnreachedJobKeepsBarrier` | app/web/postoffice/clustering/task_manager.go:209-223 | a job behind one without transactions is never loaded, because nobody acknowledges an empty job |
| `Drive.ReachJob` | app/web/postoffice/clustering/task_manager.go:90-223 | every job with only non-empty jobs before it is reached by some run, with nothing of it asked yet |
| `Cancellation.CancelsAreNotBounded` | app/web/postoffice/clustering/task_manager.go:180-207 | for every reachable job with transactions and every n there is a run in which it is asked to cancel at least n times: a redelivered cancel asks everybody again |
| `Rounds.EveryoneIsAskedAlike` | app/web/postoffice/clustering/task_manager.go:103-279 | in every run, whatever is canceled, a loaded job has been through a number of rounds, more than its handled cancels; each of its transactions has been asked exactly once for every round and once for every retry, and asked to cancel at least once for every handled cancel |
| `Rounds.CancelReachesEveryone` | app/web/postoffice/clustering/task_manager.go:180-207 | in every run, once a cancel of a job has been handled, every transaction of the job has been asked to cancel |
| `Rounds.CancelTellsEveryone` | app/web/postoffice/clustering/task_manager.go:180-207 | a handled cancel gives up the remaining jobs and leaves every transaction in the canceled state with a timer that has its full retries |
| `Rounds.LastReservationTellsEveryone` | app/web/postoffice/clustering/task_manager.go:156-178 | the reservation that completes the first phase leaves every transaction in the confirmed state with a timer that has its full retries, and the counter at zero |
| `Outcome.NextFollowsDone` | app/web/postoffice/clustering/task_manager.go:209-223 | in every run without cancels and job timeouts, a job that is done is followed by the next one, and the last by the end of the task |
| `Outcome.EndsOnlyWhenDone` | app/web/postoffice/clustering/task_manager.go:141-240 | in every run a task has ended only if all its jobs are done, or one of them has been marked by a cancel or a timeout |
| `Outcome.EndsIff` | app/web/postoffice/clustering/task_manager.go:360-409 | one event ends a task exactly if it is a job timeout or the completion after which no job is left |
| `Outcome.RunKeepsFlags` | app/web/postoffice/clustering/task_manager.go:141-207 | in every run a transaction is marked as canceled exactly if its cancel was handled, a job only by a cancel or a timeout of it, a task only by one of its jobs, and the task has ended exactly if its end was published |
| `Outcome.UnfinishedJobsAreTimed` | app/web/postoffice/clustering/task_manager.go:103-113 | in every run a loaded job of which no cancel was handled keeps its timer, which never retries, until all its transactions have finished or the task has ended |
| `Outcome.TimeoutClosesTimers` | app/web/postoffice/clustering/task_manager.go:141-154 | a job timeout ends the task and closes exactly the timers of the job and its transactions |
| `Coordination.EveryAskIsAnswered` | internal/bootstrap/cluster_manager.go:418-457 | a participant answers every ask once, by what its handler did; an error, or a state without a handler, is answered by a cancel and recorded nowhere |
| `Retries.AsksAreBounded` | app/web/postoffice/clustering/task_manager.go:251-279 | in every run, until a cancel of the job has been handled, a transaction is asked to reserve at most retries + 1 times and to confirm at most retries + 1 times, and to confirm only if the whole job has reserved |
| `Retries.RetriesAreAsks` | app/web/postoffice/clustering/task_manager.go:251-279 | in every run, for a loaded job without handled cancels: every retry of a transaction has asked it exactly once; the asks of the phase and the retries left on its timer add up to retries + 1; and one that has not reserved keeps its timer until it has been asked that often |
| `Retries.FiringAsksOrCloses` | app/web/postoffice/clustering/task_manager.go:251-279 | a firing timer asks once more and stays as long as the transaction may be asked again, and otherwise is closed without asking |
| `Recovery.ConfirmsAreRecovered` | app/web/postoffice/clustering/task_manager.go:156-178 | in every run in which its reservation is not acknowledged again in the second phase, a transaction that has not finished keeps its timer until it has been asked to confirm retries + 1 times |
| `Recovery.ConfirmsAreRecoveredIff` | app/web/postoffice/clustering/task_manager.go:379-385 | without that condition, a lost ask to confirm is retried in all runs if and only if there is nothing to retry or the job is never reached |
| `Recovery.RepeatStopsRetries` | app/web/postoffice/clustering/task_manager.go:379-385 | for every other transaction there is a run in which a repeated reservation closes the timer of its confirm: it has been asked once, has not finished, and has no timer that would ask again |
| `Retries.HandleAsksItsJob` | app/web/postoffice/clustering/task_manager.go:360-409 | an event never makes the coordinator ask a transaction of another job |
| `Coordination.RunSchedulesInOrder` | app/web/postoffice/clustering/task_manager.go:77-101 | in every run, including cancels, duplicates and timeouts, the scheduled jobs are a gap-free, repeat-free prefix of the plan, nothing is scheduled after a cancel or the end, the task ends at most once, and after the end nobody is asked except to reserve for a job that was still in the channel |
| `Coordination.RunStaysLinked` | internal/bootstrap/cluster_manager.go:418-457 | every acknowledgement in flight names a loaded job and one of its transactions, so the coordinator never follows a missing entry |
| `Scheduling.HandleIsOrderly` | app/web/postoffice/clustering/task_manager.go:375-408 | one event adds a job to the schedule exactly when it is the completion that advances the task |
| `Isolation.HandleIsLocal` | app/web/postoffice/clustering/task_manager.go:360-409 | on the maps shared by all tasks, an event acts on its own task as the single-task machine does and leaves the part of every other task alone |
| `Isolation.StartIsLocal` | app/web/postoffice/clustering/task_manager.go:103-139 | so does starting a job |
| `Manager.TaskManager.Admit` | app/web/postoffice/clustering/task_manager.go:77-88 | the queue is the validator, if there is one, and then the jobs, and its first is scheduled; a new task starts as the single-task machine does, a resident one with the same id is overwritten and keeps its loaded jobs and timers; no other view changes |
| `Interleaving.ValidatorGoesFirst` | app/web/postoffice/clustering/task_manager.go:77-88 | in every run of a task with a validator, no job of the task is scheduled before every transaction of the validator has confirmed |
| `Manager.TaskManager.StartTxns` | app/web/postoffice/clustering/task_manager.go:103-139 | arms the job timer and one timer per transaction and asks every transaction to reserve |
| `Manager.TaskManager.StartJob` | app/web/postoffice/clustering/task_manager.go:355-359 | a job leaving the channel changes the view of its task as the machine says, and no other view; if the task has been cleared the code follows a missing entry, and exactly then this is reported |
| `Manager.TaskManager.Confirmed` | app/web/postoffice/clustering/task_manager.go:156-178 | resets the counter, re-arms every timer and asks every transaction to confirm |
| `Manager.TaskManager.Canceled` | app/web/postoffice/clustering/task_manager.go:180-207 | gives up the remaining jobs and asks every transaction of this job to cancel |
| `Manager.TaskManager.Finished` | app/web/postoffice/clustering/task_manager.go:209-223 | closes the job timer and schedules the next job or ends the task |
| `Manager.TaskManager.Stop` | app/web/postoffice/clustering/task_manager.go:141-154 | closes the timers of the job and ends the task |
| `Manager.TaskManager.TimeoutTxn` | app/web/postoffice/clustering/task_manager.go:251-279 | retries with one retry less, or drops the timer |
| `Manager.TaskManager.JoinAck` | app/web/postoffice/clustering/job_resource.go:57-80 | counts an acknowledgement once and reports completion |
| `Manager.TaskManager.Dispatch` | app/web/postoffice/clustering/task_manager.go:379-409 | the switch over the event kinds equals the machine |
| `Manager.TaskManager.OnUpdate` | app/web/postoffice/clustering/task_manager.go:360-409 | every event changes the view of its own resident task as the machine says, with timers of jobs that are not loaded retried or dropped, and no other view; where the code follows a missing entry, exactly then this is reported; all invariants of the shared maps are kept |
| `Manager.TaskManager.TimeoutOrphan` | app/web/postoffice/clustering/task_manager.go:251-279 | the timer of a transaction whose job is not loaded asks again with one retry less, or is dropped; no other task notices |
| `Manager.OrphanAsksAlike` | app/web/postoffice/clustering/task_manager.go:251-279 | the timer of a transaction whose job is not loaded does to timers and asks what it does for a loaded job |
| `Manager.UnknownTimerIsSpent` | app/web/postoffice/clustering/task_manager.go:251-279 | a timer that fires for a job that is not loaded is closed, or has asked once more with one retry less |
| `Manager.TaskManager.ClearResource` | app/web/postoffice/clustering/task_manager.go:281-295 | clearing a task removes all its queued jobs and none of another task, whose view does not change; if all its loaded jobs are queued, none is left |
| `Manager.HandleStaysValid` | app/web/postoffice/clustering/task_manager.go:360-409 | every event keeps loaded jobs among the jobs of their task and job timers free of retries |
| `Interleaving.Serve` | app/web/postoffice/clustering/task_manager.go:341-411 | any interleaving of arrivals, job deliveries, acknowledgements, handlers, timers and clean-ups over any number of tasks: the manager follows a missing entry exactly when a job is delivered that its task, cleared meanwhile, has left in the channel, and otherwise holds for each task the state its own steps lead to when it runs alone |
| `Interleaving.EveryTaskKeepsItsPromises` | app/web/postoffice/clustering/task_manager.go:341-411 | so every task of the shared manager schedules its jobs in order and after completion, ends with the last, times its unfinished jobs, keeps the barrier, balances retries by asks and cancels all transactions of a job together, under the same conditions as alone |
| `Interleaving.OnUpdate` | app/web/postoffice/clustering/task_manager.go:360-409 | in such an interleaving every acknowledgement in flight names a loaded job and one of its transactions, so the manager never follows a missing entry |
| `Interleaving.ClearTask` | app/web/postoffice/clustering/task_manager.go:281-295 | clearing a task in such an interleaving leaves none of its jobs and does not disturb the run of any other task |
| `Interleaving.PossibleIsEnabled` | app/web/postoffice/clustering/task_manager.go:355-409 | whether an event can occur is decided by what the shared maps hold, and agrees with the single-task machine |
| `Leftover.JobOutlivesTaskIff` | app/web/postoffice/clustering/task_manager.go:355-359 | some run ends a task while a job of it waits in the channel if and only if the plan has a second job and the first has transactions |
| `Leftover.LateTimerLeavesJob` | app/web/postoffice/clustering/task_manager.go:141-154 | for every reachable job but the first: the late timer of the job before it ends the task and leaves it in the channel |
| `Ring.NodeRing.OwnerOf` | app/web/postoffice/clustering/node_ring.go:64-84 | the binary search finds the first token strictly above the argument, or index 0 |
| `Ring.NodeRing.RangeOfRing` | app/web/postoffice/clustering/node_ring.go:53-62 | predecessor and owner, cyclically |
| `Ring.NodeRing.KeyRing` | app/web/postoffice/clustering/node_ring.go:22-51 | ends within one revolution with the first `replica` distinct IPs clockwise from the owner |
| `Ring.WalkStartsAtOwner` | app/web/postoffice/clustering/node_ring.go:22-51 | the preference list of a token starts with its owner |
| `Ring.WalkCoversEveryIp` | app/web/postoffice/clustering/node_ring.go:22-51 | a preference list names every member exactly once |
| `Ring.WalkIsFirstCome` | app/web/postoffice/clustering/node_ring.go:22-51 | the preference list takes each member at its first virtual node, clockwise from the owner of the token |
| `Ring.ClockwiseIsRotation` | app/web/postoffice/clustering/node_ring.go:64-84 | clockwise order is the rotation of the sorted ring that starts at the owner |
| `Ring.WalkDelete` | app/web/postoffice/clustering/node_ring.go:22-51 | removing a member deletes it from every preference list and moves nobody else |
| `Ring.LeaveDisturbsOneReplica` | app/web/postoffice/clustering/node_ring.go:22-51 | a leave changes any replica list by at most one member |
| `Ring.LeaveKeepsOtherOwners` | app/web/postoffice/clustering/node_ring.go:64-84 | keys the leaving member did not own keep their owner |
| `HandOff.InsertSplitsOneArc` | app/web/postoffice/clustering/member_hash_ring_listener.go:84-95 | inserting a virtual node takes exactly one arc of tokens, wrap-around included |
| `HandOff.HandOffExact` | app/web/postoffice/clustering/member_hash_ring_listener.go:74-101 | the ranges a member emits cover each token once if it passes from this member to the joiner, and not at all otherwise |
| `HandOff.HandOffCount` | app/web/postoffice/clustering/member_hash_ring_listener.go:74-101 | for any names, how often a token is emitted: decided by the name test on its former owner, its new owner and, when it goes round by the front of the ring, the first joining node |
| `HandOff.CoverAtMostOnceIsDisjoint` | app/web/postoffice/clustering/member_hash_ring_listener.go:74-101 | ranges that cover a token at most once do not overlap there |
| `HandOff.JoinerEmitsNothing` | app/web/postoffice/clustering/member_hash_ring_listener.go:84-92 | a node emits nothing for its own virtual nodes |
| `HandOff.OwnerKeptOrTaken` | app/web/postoffice/clustering/member_hash_ring_listener.go:74-101 | after a join every token keeps its owner or belongs to the joiner |
| `Membership.JoinsAgree` | app/web/postoffice/clustering/member_hash_ring.go:44-59 | sorting once and sorting after each insertion build the same ring |
| `Membership.LeaveUndoesJoin` | app/web/postoffice/clustering/member_hash_ring.go:61-79 | a leave after a join restores the ring |
| `Membership.JoinDisturbsOneReplica` | app/web/postoffice/clustering/node_ring.go:22-51 | a replica list that does not take the joiner in is unchanged; one that does takes in the joiner, keeps everybody else in order and loses at most its last member |
| `Membership.RingIgnoresEventOrder` | app/web/postoffice/clustering/member_hash_ring.go:44-79 | nodes that know the same members hold the same ring, whatever the order of events |
| `Membership.MemberHasWeightNodes` | app/web/postoffice/clustering/member_hash_ring.go:38-59 | every live member has exactly `weight` virtual nodes, and they are its own |
| `Membership.ReplicasAreMembers` | app/web/postoffice/clustering/member_hash_ring.go:44-59 | every entry of a replica list carries the address and the endpoint of one and the same live member |
| `Membership.LocalIffNamePrefix` | app/web/postoffice/clustering/member_hash_ring_listener.go:329-331 | a virtual node counts as local exactly when the local name is a prefix of its member's name, or extends that name by `#` and leading digits of the node's number |
| `Membership.HandOffExactIff` | app/web/postoffice/clustering/member_hash_ring_listener.go:74-101 | the exact condition for any names: a member emits a token once if it loses it to the joiner and not at all otherwise, if and only if, should the joiner gain the token, the name test sends it on exactly when the member owned it |
| `Membership.StrangerHandOffIff` | app/web/postoffice/clustering/member_hash_ring_listener.go:74-101 | when no virtual node of the joiner passes for the member's own, this is so if and only if a gained token's former owner passes for the member's own exactly when it is |
| `Membership.NamesakeHandOffIff` | app/web/postoffice/clustering/member_hash_ring_listener.go:84-101 | when all of them do, the member emits nothing, which is right if and only if it does not lose the token |
| `Membership.PrefixNameEmitsForeignRange` | app/web/postoffice/clustering/member_hash_ring_listener.go:84-101 | whenever the name of one member is a proper prefix of another's, there is a ring on which the first emits a range that the second owns |
| `Membership.PrefixNameKeepsLostRange` | app/web/postoffice/clustering/member_hash_ring_listener.go:84-101 | whenever it is a proper prefix of the joiner's, there is a ring on which the member emits nothing although the joiner takes tokens from it |
| `Membership.MemberHandsOffItsLoss` | app/web/postoffice/clustering/member_hash_ring_listener.go:74-101 | in a cluster without prefix names, a member emits exactly the tokens it loses to the joiner |
| `Membership.ClusterHandsOffEveryGain` | app/web/postoffice/clustering/member_hash_ring_listener.go:74-101 | across all members, every token the joiner gains is emitted once, by its old owner, and no other token is |
| `Membership.RingListener.OnAdd` | app/web/postoffice/clustering/member_hash_ring.go:44-59 | appends the virtual nodes, sorts, counts the member |
| `Membership.RingListener.BalanceOnNodeAdded` | app/web/postoffice/clustering/member_hash_ring_listener.go:74-101 | the back ring after the insertions and the ranges emitted on the way |
| `Membership.RingListener.NodeAdded` | app/web/postoffice/clustering/member_hash_ring_listener.go:176-178 | after a join the serving ring and the back ring are the same ring of the live members and both count them |
| `Membership.RingListener.BalanceOnNodeRemoved` | app/web/postoffice/clustering/member_hash_ring_listener.go:115-123 | one deletion pass per virtual node removes the member from the back ring |
| `Membership.RingListener.NodeRemoved` | app/web/postoffice/clustering/member_hash_ring_listener.go:179-180 | after a leave the twin rings still agree |
| `Rebalance.JoinerReceivesItsShare` | app/web/postoffice/clustering/local_data_service.go:215-370 | end to end: a live row with a key up to 270 bytes is merged at the joiner exactly when its token passes from the pulled member to the joiner, with revision, timestamp, state and value |
| `Rebalance.MovedRowIsReadableIff` | app/web/postoffice/clustering/local_data_service.go:131-173 | such a row can be read at the joiner under a prefix exactly when it has moved and the prefix is 0, not under the token readers use |
| `Rebalance.Recover` | app/web/postoffice/clustering/data_service_provider.go:271-316 | pulling all the ranges, batch by batch, leaves a valid store with exactly the merged rows, under prefix 0 |
| `Rebalance.PullFromMember` | app/web/postoffice/clustering/data_service_provider.go:271-316 | pulling what a member hands off leaves a store in which every live row with a key up to 270 bytes reads so, under every prefix |
| `Rebalance.JoinerHolds` | app/web/postoffice/clustering/local_data_service.go:323-370 | merging the rows pulled for several ranges yields exactly the entries some range transfers |
| `Bytes.U32RoundTrip` | internal/core/byte_data_buffer.go:96-104 | big-endian 32-bit encoding is undone by decoding |
| `Bytes.I64RoundTrip` | internal/core/byte_data_buffer.go:163-175 | so is the two's-complement 64-bit encoding |
| `Buffer.GetStringWritten` | internal/core/byte_data_buffer.go:125-133 | reading undoes writing a length-prefixed string |
| `Buffer.ByteBuffer.Write` | internal/core/byte_data_buffer.go:323-325 | appends everything, or fails and changes nothing |
| `Buffer.ByteBuffer.WriteString` | internal/core/byte_data_buffer.go:125-133 | fails when it does not fit; the length stays written if only that fits |
| `Buffer.ByteBuffer.ReadString` | internal/core/byte_data_buffer.go:274-285 | reads what `GetString` specifies and advances past it |
| `Buffer.ByteBuffer.Read` | internal/core/byte_data_buffer.go:294-310 | zero means all the rest |
| `Buffer.ByteBuffer.Flip` | internal/core/byte_data_buffer.go:331-333 | what was written becomes what is read |
| `KeyCodec.IndexKeysPrefixFree` | app/web/postoffice/clustering/key_index.go:21-40 | index keys are injective and prefix-free |
| `KeyCodec.DataKeysPrefixFree` | app/web/postoffice/clustering/set_data.go:22-35 | data keys are injective and prefix-free |
| `KeyCodec.DataKeyIsNoIndexKey` | app/web/postoffice/clustering/key_index.go:170-176 | a data key never starts with the index marker, for any factory |
| `KeyCodec.IndexKeyHasClassPrefix` | app/web/postoffice/clustering/key_index.go:21-40 | an index key carries the prefix of a class only for factory 10 and class 0x245F5F5F |
| `KeyCodec.DataKeyHasClassPrefix` | app/web/postoffice/clustering/get_data.go:19-33 | a data key carries the prefix of exactly its own class |
| `KeyCodec.KeyLayout` | app/web/postoffice/clustering/key_index.go:21-40 | where the fields of index keys and data keys are, the user key at the bytes that `pull` cuts out |
| `KeyCodec.HeaderLayout` | app/web/postoffice/clustering/key_index.go:42-58 | where the fields of an index value are |
| `KeyCodec.WriteKey` | app/web/postoffice/clustering/key_index.go:21-40 | succeeds exactly when 30 bytes and the user key fit |
| `KeyCodec.WriteHeader` | app/web/postoffice/clustering/key_index.go:42-58 | succeeds exactly when 25 bytes fit |
| `KeyCodec.CompositKey` | app/web/postoffice/clustering/key_index.go:132-138 | fails exactly for user keys over 470 bytes |
| `KeyCodec.Pair` | app/web/postoffice/clustering/key_index.go:148-168 | both rows, or an error exactly for user keys over 470 bytes |
| `KeyCodec.MakeDataKey` | app/web/postoffice/clustering/set_data.go:22-35 | the size guard is exact: every later write fits |
| `KeyCodec.ReadHeader` | app/web/postoffice/clustering/key_index.go:60-87 | reads what the row parser specifies |
| `KeyCodec.ReadKey` | app/web/postoffice/clustering/key_index.go:89-119 | reads what the key parser specifies; the marker is not compared |
| `KeyCodec.ParseWrittenKey` | app/web/postoffice/clustering/key_index.go:89-119 | parsing undoes writing an index key |
| `KeyCodec.ParseWrittenHeader` | app/web/postoffice/clustering/key_index.go:60-87 | parsing undoes writing an index value |
| `KeyCodec.Import` | internal/core/persistence.go:52-70 | both rows through one buffer, with its size limit |
| `KeyCodec.ImportUndoesPair` | internal/core/persistence.go:52-70 | importing a written record gives it back exactly when its key row fits the buffer |
| `Versions.GetReturnsLastAcceptedWrite` | app/web/postoffice/clustering/local_data_service.go:131-173 | over every run of create, update, delete and reset, get returns the value of the last accepted write with the revision, time, size and mutability that the accepted calls have left, and fails exactly when nothing was accepted or the key is a tombstone |
| `Versions.AcceptedIff` | app/web/postoffice/clustering/local_data_service.go:15-213 | over every run, which calls are accepted, told from the calls accepted before: creates of new keys and tombstones, updates of changeable keys with the revision reached, deletes of changeable live keys, resets of changeable keys |
| `Versions.ImmutableForever` | app/web/postoffice/clustering/local_data_service.go:15-213 | a live key that was created as not updatable reads for good with the value, revision, time and size of its creation, whatever is called |
| `Versions.RevisionCountsSuccesses` | app/web/postoffice/clustering/local_data_service.go:47-130 | over every run of updates and deletes the revision grows by the number of successes, modulo 2^64 |
| `Versions.SameRevisionSucceedsOnce` | app/web/postoffice/clustering/local_data_service.go:47-88 | two updates carrying the same revision never both succeed |
| `Versions.UpdateSawAllSuccesses` | app/web/postoffice/clustering/local_data_service.go:47-88 | no lost updates: in every run of updates and deletes an update that succeeds carries the start revision plus the number of successes before it, and one that does not changes nothing |
| `Versions.StaleDeleteChangesNothing` | app/web/postoffice/clustering/local_data_service.go:90-129 | a stale delete changes nothing exactly when the key is too long, the row is missing or immutable, or it is already a tombstone |
| `Versions.StaleDeleteCanSucceed` | app/web/postoffice/clustering/local_data_service.go:90-129 | otherwise it removes the row: for every storable key and every stale revision there is a run from the empty store in which it does |
| `Versions.UpdateDoesNotRevive` | app/web/postoffice/clustering/local_data_service.go:47-88 | an accepted update makes the key readable exactly if it was not a tombstone |
| `Store.LocalStore.Create` | app/web/postoffice/clustering/local_data_service.go:15-45 | on any bytes and under any prefix the rows change and the call answers as `Rows` says; on a valid store and under the key's own prefix as the versioned map does, the tombstone's header being returned over a tombstone |
| `Store.LocalStore.Update` | app/web/postoffice/clustering/local_data_service.go:47-88 | on any bytes and under any prefix the rows change and the call answers as `Rows` says; on a valid store and under the key's own prefix as the versioned map does, and under another prefix with an error and no effect |
| `Store.LocalStore.Delete` | app/web/postoffice/clustering/local_data_service.go:90-129 | on any bytes and under any prefix the rows change and the call answers as `Rows` says; on a valid store and under the key's own prefix as the versioned map does, and under another prefix with an error and no effect |
| `Store.LocalStore.Reset` | app/web/postoffice/clustering/local_data_service.go:175-213 | on any bytes and under any prefix the rows change and the call answers as `Rows` says; on a valid store and under the key's own prefix as the versioned map does, and under another prefix with an error and no effect |
| `Store.LocalStore.Get` | app/web/postoffice/clustering/local_data_service.go:131-173 | on any bytes it reads what the rows say; on a valid store exactly what the versioned map holds under the key's own prefix, and an error under any other |
| `Store.LocalStore.RunCalls` | app/web/postoffice/clustering/local_data_service.go:15-213 | any run of writes under any prefixes leaves the bytes that `Rows` predicts; if every create carries the prefix of its key they are the rows of the versioned map, each live index row with its data row at the stored revision |
| `Store.ReplaceRows` | app/web/postoffice/clustering/local_data_service.go:15-213 | rewriting the rows of one key changes its entry and no other |
| `Store.ReadUnderItsPrefix` | app/web/postoffice/clustering/local_data_service.go:131-173 | a key is read under its own prefix as the versioned map has it and under no other prefix |
| `Store.CallRefines` | app/web/postoffice/clustering/local_data_service.go:15-213 | on rows that represent a versioned map, a call under the key's own prefix answers as the map does and leaves the rows of the new map |
| `Store.ForeignCall` | app/web/postoffice/clustering/local_data_service.go:15-213 | under another prefix only a create has an effect: a second index row and the data row of revision 1 |
| `Rows.ReadAfter` | app/web/postoffice/clustering/local_data_service.go:15-370 | on any bytes, what every read returns after every change: under its own prefix the key reads as written, other keys are untouched, and under another prefix the header stays while the value is replaced or lost exactly when the key is live there at the revision whose data row is set or deleted |
| `Rows.ReadUnchangedIff` | app/web/postoffice/clustering/local_data_service.go:15-370 | a read under another prefix is unchanged if and only if the revisions do not collide, or the same value is set, or the deleted data row was missing |
| `Rows.PlacesAreIndependent` | app/web/postoffice/clustering/local_data_service.go:15-213 | in every run with any prefixes, the index row of a key under a prefix is where the calls for that key and prefix alone would have left it, so acceptance and revisions never depend on other prefixes |
| `Transfer.MergeTakesNewest` | app/web/postoffice/clustering/local_data_service.go:323-370 | a merged entry comes from the store or a row, and nothing offered has a higher revision |
| `Transfer.MergeKeepsFirst` | app/web/postoffice/clustering/local_data_service.go:323-370 | which entry a merge leaves: that of the store unless a row is newer, and otherwise that of the first row with the highest revision, so equal revisions are not taken again |
| `Transfer.MergeConverges` | app/web/postoffice/clustering/local_data_service.go:323-370 | if equal key and revision mean equal content, any order, split or repetition of the rows gives the same store |
| `Transfer.MergeSplits` | app/web/postoffice/clustering/local_data_service.go:323-370 | merging in batches equals merging at once |
| `Transfer.SetBatch` | app/web/postoffice/clustering/local_data_service.go:323-370 | a batch is set row by row on any bytes, and is the merge on a valid store for keys routed to prefix 0 |
| `Transfer.SetRaw` | app/web/postoffice/clustering/local_data_service.go:323-370 | `set` of one row on any bytes |
| `Transfer.SetIsMerge` | app/web/postoffice/clustering/local_data_service.go:323-370 | `set` keeps the store valid and acts as the merge of one row when the key is routed to prefix 0 |
| `Transfer.SetUnderOtherPrefix` | app/web/postoffice/clustering/local_data_service.go:323-370 | on any bytes, what is read under another prefix changes only if the received row is newer than the one under prefix 0 and the key is live there at the same revision; then a live row replaces the value and a tombstone that finds a row under prefix 0 deletes it |
| `Transfer.SetCanOverwrite` | app/web/postoffice/clustering/local_data_service.go:339-343 | a live row of the stored revision with another value changes what is read: a failing family |
| `Transfer.SetCanErase` | app/web/postoffice/clustering/local_data_service.go:348-360 | an older row and then a tombstone of the stored revision make a live key unreadable: another failing family |
| `Transfer.Pull` | app/web/postoffice/clustering/local_data_service.go:215-321 | the batches concatenate to the rows of the range in key order; all but the last hold 100 rows |
| `Transfer.PullIsExact` | app/web/postoffice/clustering/local_data_service.go:215-321 | a row is sent exactly if its key has at most 270 bytes and it is a tombstone or its prefix lies in the cyclic range |
| `Transfer.WhoTravels` | app/web/postoffice/clustering/local_data_service.go:215-321 | of the entries with keys up to 270 bytes, tombstones travel with every range and live ones with the ranges that hold their token, with revision, timestamp, state and value |
| `Transfer.TransferIsFaithful` | app/web/postoffice/clustering/local_data_service.go:215-370 | merging the pulled rows into an empty store reproduces revision, timestamp, state and value of each; only the size is lost |
| `Transfer.TransferRange` | app/web/postoffice/clustering/local_data_service.go:215-370 | pull from one store and set on a fresh one, batch by batch |
| `Transfer.ReceivedRowsAreAtZero` | app/web/postoffice/clustering/local_data_service.go:323-370 | a received live row can be read under prefix 0 and under no other, whatever prefix it had |
| `Query.RunQuery` | app/web/postoffice/clustering/local_data_service.go:372-418 | returns rows of the scan in byte order, each with its key after the twelfth byte and its stored value: only rows after the offset that pass the filter, at most the limit, which is 10 if not positive, and none left out before the limit is reached |
| `Query.ItemsAreStored` | app/web/postoffice/clustering/local_data_service.go:372-418 | on a valid store, for every class but one, each item returned is a stored data row of the class: user key, revision and value, passing the filter |
| `Query.StoredRowsAreListed` | app/web/postoffice/clustering/local_data_service.go:372-418 | and each stored data row of the class that passes is returned, unless it is skipped or the limit is reached |
| `Query.RevisionsInOrder` | app/web/postoffice/clustering/local_data_service.go:384-416 | the stored revisions of one key are listed from the oldest to the newest |
| `Query.DeletedValueIsStillListed` | app/web/postoffice/clustering/local_data_service.go:90-129 | after an accepted delete `get` fails, but the data row of the revision before stays and queries with room for it list the deleted value |
| `Query.Select` | app/web/postoffice/clustering/local_data_service.go:384-416 | the countdown loop is skip, filter and take |
| `Query.ScanVisitsTheClass` | app/web/postoffice/clustering/local_data_service.go:372-383 | the scan visits exactly the data rows of the class, every stored revision, never an index row, for every class but one |
| `Query.MarkerClassVisitsIndexRows` | app/web/postoffice/clustering/local_data_service.go:372-383 | the exception: factory 10 with class 0x245F5F5F lists every index row |
| `Query.QWrite` | internal/core/query_obj.go:80-112 | the encoding is complete exactly when it fits; a too small buffer is still reported as success when the first three fields overflow it |
| `Query.QRead` | internal/core/query_obj.go:25-78 | reads what the parser specifies |
| `Query.ParseUndoesEncode` | internal/core/query_obj.go:25-112 | reading undoes writing |
| `Dispatch.Dispatcher.TransMail` | app/web/postoffice/clustering/member_hash_ring_listener.go:280-317 | the loop ends on every pool and offers and rotates as specified; every live listener stays in the pool |
| `Dispatch.Dispatcher.Rotate` | app/web/postoffice/clustering/member_hash_ring_listener.go:284-314 | the index of the pool where the loop stops, and the pool it leaves |
| `Dispatch.OfferedIff` | app/web/postoffice/clustering/member_hash_ring_listener.go:284-314 | a mail is offered exactly when some subscriber comes before the end of the lap, and then to the first |
| `Dispatch.CleanPoolOffersFirst` | app/web/postoffice/clustering/member_hash_ring_listener.go:284-314 | with distinct non-empty ids the first live subscriber is chosen, nobody only if there is none |
| `Dispatch.LiveIdsAreRotated` | app/web/postoffice/clustering/member_hash_ring_listener.go:288-314 | on every pool only dead ids leave; the live ones are rotated |
| `Dispatch.MailsGoRound` | app/web/postoffice/clustering/member_hash_ring_listener.go:280-317 | the n-th mail of a topic goes to subscriber n modulo their number |
| `Dispatch.EachRoundReachesEveryone` | app/web/postoffice/clustering/member_hash_ring_listener.go:280-317 | k successive mails to k unchanged subscribers reach each exactly once |
| `Dispatch.DuplicateHidesSubscribers` | app/web/postoffice/clustering/member_hash_ring_listener.go:289-312 | a second entry of a live listener at the head hides all subscribers behind it |
| `Dispatch.EmptyIdBlocksMail` | app/web/postoffice/clustering/member_hash_ring_listener.go:282-291 | an empty id at the head blocks all mail |
| `Dispatch.Dispatcher.ReceiverStart` | app/web/postoffice/clustering/member_hash_ring_listener.go:214-227 | a new queue for the listener, and every subscription as before; a pool without duplicates stays so exactly when the id is live or new |
| `Dispatch.StartKeepsSubscriptions` | app/web/postoffice/clustering/member_hash_ring_listener.go:214-227 | who subscribes to what survives every start of a stream, also of a listener that reconnects |
| `Dispatch.StaleRemoveKeepsListener` | app/web/postoffice/clustering/member_hash_ring_listener.go:214-239 | a stream that a restart replaced cannot remove the listener, however late its removal arrives and whoever starts in between |
| `Dispatch.RestartDuplicates` | app/web/postoffice/clustering/member_hash_ring_listener.go:214-239 | a listener that ends its stream and starts again is in the pool twice |
| `Dispatch.RestartHidesSubscriber` | app/web/postoffice/clustering/member_hash_ring_listener.go:214-317 | after such a restart, reached from the empty dispatcher, mail for another live subscriber is dropped |
| `Dispatch.Dispatcher.Subscribe` | app/web/postoffice/clustering/member_hash_ring_listener.go:151-166 | adds exactly one subscription |
| `Dispatch.Dispatcher.Unsubscribe` | app/web/postoffice/clustering/member_hash_ring_listener.go:141-150 | removes exactly one subscription |
| `Registry.SubscriptionRegistry.Add` | app/web/postoffice/clustering/subscription_registry.go:20-34 | adds one subscription, keeps an existing one; a new topic and endpoint gets one pool of that endpoint; both maps keep the same keys and no inner map is empty |
| `Registry.AddHoldsAndKeeps` | app/web/postoffice/clustering/subscription_registry.go:20-34 | afterwards the subscription is held, unless one with its key was, and every other is held as before |
| `Registry.SubscriptionRegistry.Del` | app/web/postoffice/clustering/subscription_registry.go:36-48 | removes one subscription and, with the last, the topic and its pool |
| `Registry.DeleteUndoesAdd` | app/web/postoffice/clustering/subscription_registry.go:20-48 | deleting a subscription that was just added restores the registry |
| `Registry.SubscriptionRegistry.RemoveMatching` | app/web/postoffice/clustering/subscription_registry.go:142-148 | deleting during the lookup removes exactly the matching subscriptions |
| `Registry.SubscriptionRegistry.RemoveByNodeId` | app/web/postoffice/clustering/member_hash_ring_listener.go:130-136 | removes exactly the subscriptions of the node |
| `Registry.SubscriptionRegistry.RemoveByEndpoint` | app/web/postoffice/clustering/member_hash_ring_listener.go:124-128 | removes exactly the subscriptions at the endpoint |
| `Registry.SubscriptionRegistry.Pick` | app/web/postoffice/clustering/subscription_registry.go:70-98 | chooses the eligible endpoint at the place the counter gives in string order, with the pool of that endpoint, and moves on only the counter of this topic and tag |
| `Registry.EligibleIff` | app/web/postoffice/clustering/subscription_registry.go:70-88 | with an empty tag every endpoint of the topic can be chosen, otherwise those with a subscription of the tag |
| `Registry.TagsTakeTurnsApart` | app/web/postoffice/clustering/subscription_registry.go:91-93 | different tags of one topic have counters of their own |
| `Registry.TurnIsSharedIff` | app/web/postoffice/clustering/subscription_registry.go:91-93 | another name and tag use the same counter if and only if the name or the tag holds a hash sign |
| `Registry.SubscriptionRegistry.PickTimes` | app/web/postoffice/clustering/subscription_registry.go:70-98 | successive picks on an unchanged registry go round the eligible endpoints |
| `Registry.EachRoundPicksEveryone` | app/web/postoffice/clustering/subscription_registry.go:91-97 | of n successive counter values exactly one selects any given one of n endpoints |
| `Registry.KeysTellApart` | internal/core/cluster.go:94-96 | node ids without a colon keep the keys of one topic apart |
| `Registry.ColonConfuses` | internal/core/cluster.go:94-96 | a node id with a colon shares its key with another node |
| `Registry.KeyIsSharedIff` | internal/core/cluster.go:94-96 | some other node can share the key of a subscription if and only if its node id or its tag holds a colon |
| `Snowflake.Snowflake.Id` | internal/util/snowflake.go:32-52 | fails without effect when the clock is behind; otherwise moves on as specified, waiting when the sequence is used up |
| `Snowflake.Snowflake.ParseId` | internal/util/snowflake.go:54-61 | the masks and shifts select the three fields |
| `Snowflake.ParseUndoesCompose` | internal/util/snowflake.go:50-60 | parsing recovers timestamp, node and sequence within the bit budget |
| `Snowflake.NextIdIsLargerIff` | internal/util/snowflake.go:36-51 | a new id is larger than the last one exactly unless the clock stepped back during the wait |
| `Snowflake.IdsIncrease` | internal/util/snowflake.go:32-52 | over every run without such a step the ids strictly increase |
| `Snowflake.GeneratorsNeverCollide` | internal/util/snowflake.go:32-52 | generators with different node numbers up to 1023 never issue the same id |
| `Snowflake.BigNodeCollides` | internal/util/snowflake.go:50-50 | at every timestamp a node number above 1023 issues an id of another node, so 1023 is the exact limit |
| `Snowflake.SteppingBackRepeats` | internal/util/snowflake.go:41-45 | a run whose clock steps back during the wait repeats an id |

## Left out

- `reload`, `updateTask` and task recovery: they depend on unsynchronised goroutines and remote reads; updates of tasks that are not resident are dropped by the model.
- Aliasing in the task manager: resources are values in maps, so a message whose state changes between the scheduling of a send and the send itself is not captured.
- Interleaving.Serve: a task id takes effect once; `Manager.TaskManager.Admit` says what a second arrival does to the maps.
- Event builders, task events and descriptions of transactions: they do not influence the protocol.
- The resend loop inside the senders of asks: lost messages are already steps of the network.
- Badger's own limits on key and value sizes, its transactions and its failures.
- Negative lengths in `ByteBuffer` reads: the Go code panics, the model returns an error.
- Floats, complex numbers and 8- and 16-bit integers of the buffer: they would only add easy members.
- Membership.RingListener.NodeAdded: assumes that tokens of different virtual nodes differ; equal tokens make the sorted order depend on the sort.
- The update of a member's metadata, which touches only the serving ring.
- Registry.SubscriptionRegistry.Pick: the counter does not overflow, and which of several fitting subscriptions at one endpoint names the node is not determined.
- pickByNodeId, topic, list and the topic-mail broadcast: they would only add easy members.
- Closing of connection pools and stream queues.
- Network plumbing: gRPC proxies, memberlist callbacks, etcd, HTTP.
- internal/cloud, app/web/admin, deployment configuration, authentication and encryption.
