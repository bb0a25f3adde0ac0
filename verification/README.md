# A Dafny model of the PCX persistent work-queue engine

PCX records a communication graph once and then lets the network card run it again and again. Recording only counts and
queues closures; `CommGraph::finish` turns the counts into rings, the closures into work-queue entries (WQEs), copies
the block of entries over the whole ring and pre-arms the copies. Each later round rings a doorbell and patches a few
index fields of one copy. This project models that engine, what the resulting entries make the devices do, the
handshake that connects the queues, the completion poller, pipelined memory, and the shared verbs context.
`dafny verify dfyconfig.toml` checks everything.

## How it fits together

* `Words`: 32-bit arithmetic, bit masks, powers of two, and byte order: `Read` is the number a device reads from the
  four bytes of a word. What devices find in memory is stated through it.
* `Rounding`: how the send queue is split into equal copies.
* `Program`: a graph as data. `Tallied` is what recording counts, `Run` what replaying the closures counts, `Stream` the
  program recorded again and again on unbounded queues, `Rerecorded` the index that recording number `k` would write for
  a call, `Recycled` the index the recycled ring holds for it: first value plus `k` increments.
* `Counting`: the same indices along the endless stream of calls, and what they count.
* `RearmTasks`, `WqeLayout`, `Recycle`: the registered index fields, WQEs as 64-byte slots of memory words, and what one
  rearm does to a copy. `ArmedFor` says which round each copy is armed for after a number of rearms.
* `QpContext`: class `QpCtx`, the low-level context with its buffer, counters, registered fields and doorbell.
* `Replay`, `CommGraph`: classes `PcxQp` and `CommGraph`: recording, initialisation with the pairing of contexts,
  replay, completion, and rounds. `Done` states what every queue looks like after `Finish`, `Running` what a graph in
  use keeps. `Persistence` reads the management buffer of such a graph, `Operations` the buffers of its slave queues.
* `Fabric`, `Dependency`, `Progress`, `Completion`, `RingGraph`: any number of ranks running the recorded graph, as a
  state machine over doorbells, management entries, and the execution, delivery and acknowledgement of operations.
  `Ordering` says exactly when the dependency order holds, `LaggingRun` is a small run in which it does not, `Serial`
  ties the unbounded indices to 32-bit comparisons, and `Host` adds the doorbells and rearms of the hosts.
  `RingGraph` also ties the links of the system to the handshake that connects them.
* `Handshake`, `Poller`, `PipeMem`, `VerbCtx`: the remaining protocols.

Management WQE number `i` is the one of recorded call `i` (a send-enable for an operation, a receive-enable for a
construction, a wait for a wait), so a call and its entry share an index throughout. Queues are named by registration
number in `CommGraph`; `RingGraph` names them as an odd rank registers them and lets even ranks construct the two ends
of a pair in the opposite order.

## Main results

1. The recycled ring is the program recorded again and again. `CommGraph.Finish` leaves every context `Done`; `Db`,
   `Rearm` and `Rounds` keep the graph `Running` for ever; `Persistence.GraphHolds` and `HoldsRound` read opcode, queue
   number and index of every call out of the buffer, modulo 2^32, for every round whose copy is armed: the running
   round, the next, and whatever else the number of copies allows. `Program.RightForever` says exactly when the recycled
   index is right in all rounds: one family of calls goes wrong, waits for the send CQ of a doubling queue on which a
   completion-signalled write was recorded, because `DoublingQp::writeCmpl` does not count its local completion
   (`qps.cc:469-478`) although replay does (`dv_mgr.cc:282-286`). `Program.Agreement` gives the exact deficit,
   `Program.RecyclingRerecords` the exact lag, `Counting.RecycledStays` a recording that shows it. The data path is read
   out of memory as well: `Operations.SlaveHolds` finds every recorded operation in every copy of its queue,
   `EnabledIsOp` says that each send-enable releases the operation it was recorded for, in every round, and
   `AskedIsCounted` that the entries ask for exactly the completions the running graph counts on. `Host.ReleasesTold`
   says that doorbell record and register tell the device to go exactly as far as the running graph releases.
2. Dependency order and deadlock freedom over every interleaving, any number of ranks and rounds.
   `Ordering.OrderKeptIff` is the safety half: for every graph that does not deadlock, in all runs every operation that
   has left its queue is behind everything that the waits before it were recorded for, if and only if no wait is for the
   send CQ of a queue with uncounted writes. With such waits `DependencyOrder` holds up to the completions that
   recording missed; `LaggingRun.DependencyBreaks` is an example on two ranks. `DeadlockFreeIff`, `RingProgress` and,
   for graphs that went through `Finish`, `FinishedProgress` are the progress half, as an equivalence: no run stops
   early if and only if no queue posts more than 0x6fff operations in one recording (the constant of the first
   receive-enable) and no wait is for a completion that never comes. The second condition depends on the device. A wait
   recorded before any completion names completion 2^32 - 1 (`dv_mgr.cc:389`); the model has both readings, as a
   completion still to come (`Unsigned`) and as the one before the first (`Serial`), and only under the first does such
   a wait block. The argument for progress is the SPMD one: a rank counts completions on its left queue when it writes
   to its right, which is true of the left neighbour because it records the same program.
3. The handshake finishes in every interleaving if and only if the number of ranks is even (or there is one rank and the
   caller's exchange function lets it meet itself), with any sharing of mutexes, in a bounded number of steps, and never
   meets while holding a mutex. What its meetings join are the links of the running graph (`RingGraph.MeetingsLink`).
4. In flight, the copies of round j and j-1 are not touched by the rearm during round j when there are three or more;
   the copy of round j-2 is, so round j-2 must have finished by then. With two copies it is round j-1 that must have
   finished (`InFlight`, `InFlightTwo`, `RunningHeld`). `Host.RightIff` puts hosts and devices into one state machine:
   in every interleaving every management entry is read from a copy armed for its round, if and only if the rearm during
   a round waits at least that long. A grouped rearm is the rearm in registration order.
5. `Poll` is exact inside its window, the finished block walks correctly, the rounding is the least divisor, pipelined
   slots tile the buffer exactly below 4 GiB, the shared context is a safe singleton and no client waits for ever.

Every lemma carries `{:induction false}`: its body is its proof, and nothing is left to automatic induction.

## Model

| member | source | states |
|---|---|---|
| CommGraph.TallyExtends | qps.cc:9-13 | registering more queues changes no counter recorded before |
| Words.BeBe | dv_mgr.cc:503 | network byte order is its own inverse |
| Words.BeBytes | dv_mgr.cc:225-229 | which byte goes where: byte `i` in memory is byte `3-i` of the number stored |
| Words.ReadBe | dv_mgr.cc:225-229 | the device reads from these bytes the number that was stored |
| Words.BumpDecodes | dv_mgr.cc:500-505 | whatever is in a field, patching it adds the increment to the number the device reads there, modulo 2^32 |
| Words.PlusWraps | dv_mgr.cc:241-242 | `n` increments of a 32-bit counter are one addition modulo 2^32 |
| Words.MaskIsRemainder | dv_mgr.cc:158-169 | for a power of two, `x & (c-1)` is the remainder and `x & c` tests the parity of the quotient |
| Rounding.Split | dv_mgr.cc:82-97 | the loop ends; the block is the least divisor of the queue size that holds the program, copies times block is the queue; too big a program and an empty one are the two failures |
| Rounding.LittleWaste | dv_mgr.cc:89-93 | on a power-of-two queue the block is below twice the program |
| Rounding.Pow2Split | dv_mgr.cc:93-97 | block and number of copies are powers of two |
| Rounding.RecycledIffHalf | dv_mgr.cc:96-97 | there are at least two copies if and only if the program fills at most half the queue |
| Program.Agreement | qps.cc:57-153 | record/replay agreement for every sequence of calls: slots and receive completions equal, send-CQ completions ahead by exactly the uncounted writes |
| Program.FirstDoorbell | qps.cc:37 | the first doorbell releases exactly the receive-enables if and only if all queues are constructed first |
| Program.RoundRun | qps.cc:23-36 | one padded recording moves every counter by what was recorded |
| Program.RoundStart | dv_mgr.cc:457-490 | counters when round `k` begins on unbounded queues |
| Program.RecyclingRerecords | dv_mgr.cc:349-412 | re-recording `k` times gives the recycled index plus `k` times the lag |
| Program.RightForever | qps.cc:459-478 | the recycled 32-bit index is right in all rounds if and only if the call is not a send-CQ wait on a queue with uncounted writes |
| Program.LagIff | dv_mgr.cc:394-412 | exactly those calls lag |
| Program.DeficitBound | qps.cc:469-478 | the deficit is positive exactly when a completion-signalled write of a doubling queue was recorded |
| Counting.TallyCounts | qps.cc:57-108 | recorded counters are numbers of calls: operations of the pair, own signalled operations |
| Counting.FirstIndex | dv_mgr.cc:349-412 | the index first written, from the tallies before the call; the receive-enable starts from 0x6fff |
| Counting.WaitThreshold | dv_mgr.cc:379-392 | a wait names the last completion recorded before it, counted over the whole endless stream |
| Counting.SendThreshold | dv_mgr.cc:394-412 | a send-CQ wait never names more than was recorded, and exactly that without uncounted writes |
| Counting.WaitIndexGrows | dv_mgr.cc:379-392 | receive-CQ wait thresholds of a queue never decrease along the stream |
| Counting.SendWaitsOrdered | dv_mgr.cc:394-412 | send-CQ wait thresholds never decrease if and only if no two waits of a recording are further apart than one round counts |
| Counting.CountedWaitsClose | qps.cc:79-97 | without uncounted writes they never decrease |
| Counting.WaitsFarApart | qps.cc:469-478 | a recording the interface makes, with two uncounted writes, where they do |
| Counting.RecycledStays | qps.cc:469-478 | a recording the interface makes whose wait holds 0 in every round where re-recording would write the number of the round |
| Counting.SendShort | dv_mgr.cc:394-412 | a send-CQ wait names exactly as many completions too few as recording missed in earlier rounds |
| Counting.SendIndexInRound | dv_mgr.cc:349-362 | the send-enable index is the slot count just after its own operation, and positive |
| Counting.SendIndexGrows | dv_mgr.cc:349-362 | send-enable indices of a queue strictly increase within and across rounds |
| Counting.SendRegReleases | dv_mgr.cc:349-362 | the producer index releases exactly the operations whose send-enable has been executed |
| RearmTasks.ValRearmTasks.Add | dv_mgr.cc:129-143 | the list is the added sequence; capacity 4*2^k at least the size; all growths move fewer than 2*size elements |
| RearmTasks.ValRearmTasks.Exec | dv_mgr.cc:500-505 | every listed field of the destination is the bumped field of the source, nothing else changes |
| RearmTasks.RearmTasks.Add | dv_mgr.cc:145-151 | one more registered field, in the list of its increment |
| RearmTasks.RearmTasks.Find | dv_mgr.cc:145-151 | looking an increment up creates its list, and keeps the others |
| RearmTasks.LookedIs | dv_mgr.cc:145-151 | increments stay in map order |
| RearmTasks.RearmTasks.Exec | dv_mgr.cc:492-498 | grouped by increment, the patch is the one of registration order and touches only registered fields |
| RearmTasks.GroupedIsInOrder | dv_mgr.cc:492-505 | any patch of the registered fields is the update in registration order |
| RearmTasks.InOrderPatches | dv_mgr.cc:492-505 | the update in registration order writes each field once, from its source |
| WqeLayout.LaidAt | dv_mgr.cc:231-412 | every recorded entry lies whole at its own slot |
| WqeLayout.HeaderDecodes | dv_mgr.cc:239-240 | byte by byte, opcode, modifier, own queue number, length and flags are where the device looks for them, and the entry number cut to 16 bits |
| WqeLayout.WalkVisits | dv_mgr.cc:231-438 | following the lengths in memory visits every entry in order, with its opcode and flags, and lands exactly on the end |
| Recycle.AdvancedAt | dv_mgr.cc:500-505 | `k` rearms move an index by `k` increments modulo 2^32 and change nothing else of an entry |
| Recycle.FieldBounds | dv_mgr.cc:349-412 | registered fields are inside the block and never registered twice |
| Recycle.FieldHere | dv_mgr.cc:359-360 | within an entry, the index of a core-direct segment is the only registered field |
| Recycle.RearmAdvances | dv_mgr.cc:487-505 | rearming from a copy armed for round `k` arms the destination for round `k+1`, whatever it was armed for |
| Recycle.ArmedExactly | dv_mgr.cc:487-490 | copy `k mod D` is armed for round `k` from rearm `k` up to but not including rearm `k+D` |
| Recycle.InFlight | dv_mgr.cc:474-490 | with D >= 3 the rounds j..j+D-3 are armed when round j starts, and the rearm during it overwrites the copy of round j-2, not those of j and j-1 (what this means for the buffer is QpCtx.RunningHeld) |
| Recycle.InFlightTwo | dv_mgr.cc:474-490 | with D = 2 the rearm during round j overwrites the copy of round j-1 |
| QpContext.QpCtx.constructor | dv_mgr.cc:56-109 | an empty ring of least-divisor blocks, paired with itself; at least two copies if and only if the program fills at most half the queue |
| QpContext.QpCtx.Put | dv_mgr.cc:349-412 | one more entry behind the last, its index field registered, all earlier entries intact |
| QpContext.QpCtx.Count | dv_mgr.cc:282-288 | a local completion on the send CQ if there is one, else on the own CQ, and one on the pair, also when that is the queue itself |
| QpContext.QpCtx.Post | dv_mgr.cc:231-345 | the entry of the operation lies in memory behind the last one with the opcode, modifier, flags and length of its kind (`OpAt`); its completions |
| QpContext.OpReads | dv_mgr.cc:231-345 | for each kind of operation the values the device reads in its entry |
| QpContext.QpCtx.CdSendEnable | dv_mgr.cc:349-362 | entry naming the slave's write counter, incremented by its block |
| QpContext.QpCtx.CdRecvEnable | dv_mgr.cc:364-377 | entry naming 0x6fff, incremented by the slave's completions |
| QpContext.QpCtx.CdWait | dv_mgr.cc:379-392 | entry naming the last completion counted, also across wrap-around |
| QpContext.QpCtx.CdWaitSend | dv_mgr.cc:394-412 | the same for the send CQ, or a plain wait without one |
| QpContext.QpCtx.Nop | dv_mgr.cc:429-438 | an empty entry; for length zero exactly one header is written, behind the entries or, if they fill the queue, over the first |
| QpContext.QpCtx.Pad | dv_mgr.cc:457-465 | padding to exactly the end of the block; a full queue of a single copy loses its first header |
| QpContext.QpCtx.Duplicate | dv_mgr.cc:467-472 | the buffer is the first block repeated, end to end |
| QpContext.RepeatedCopies | dv_mgr.cc:467-472 | every copy is that block and the copies tile the buffer |
| QpContext.QpCtx.Rearm | dv_mgr.cc:487-490 | every copy holds the entries of the round it is armed for, before and after; the exact patch |
| QpContext.RearmArms | dv_mgr.cc:487-505 | the patch keeps all other copies and arms the next |
| QpContext.QpCtx.Fin | dv_mgr.cc:457-477 | recorded entries, padding, all copies armed, max(D,3)-3 of them ahead |
| QpContext.QpCtx.Db | dv_mgr.cc:183-192 | round j occupies copy j mod D, also after the 32-bit index has wrapped; the device reads the end of the block in doorbell record and register, and the queue's number behind it |
| QpContext.DoorbellCopy | dv_mgr.cc:183-192 | the slot of every entry released by doorbell j |
| QpContext.QpCtx.DbFirst | dv_mgr.cc:194-202 | the device reads `k` in doorbell record and register |
| QpContext.QpCtx.RoundHeld | dv_mgr.cc:487-490 | after any number of rearms the copy of round k holds that round's entries from rearm k until D more are done |
| QpContext.QpCtx.RunningHeld | dv_mgr.cc:474-490 | with one rearm per round, the copy of round j is in the buffer when it is released, after the rearm during it and, with D >= 3, after that of the next round; D = 2 without the last |
| Host.RightIff | dv_mgr.cc:474-490 | with hosts and devices interleaved in any way, every management entry is read from a copy armed for its round if and only if the rearm during round j waits for round j-2 to be done, with two copies for round j-1 |
| Host.ReadsRound | dv_mgr.cc:487-505 | what a management queue then finds in its buffer is the whole copy of the round it executes |
| Host.ReadsEntry | dv_mgr.cc:349-412 | and the entry it executes is the one of its call, with the index of its round |
| Host.RearmHolds | dv_mgr.cc:487-505 | after the rearm of any buffer whose copies are all armed, all are armed for one rearm more |
| Host.FinishedWorld | qps.cc:23-40 | finished graphs, one for each rank, are a state in which hosts and devices begin |
| Host.ReleasesTold | dv_mgr.cc:183-202 | the producer index a finished graph tells its device, before the first round and in any later one, releases exactly the entries that the running graph releases, each in the slot where its copy holds it |
| QpContext.QpCtx.WalkCopy | dv_mgr.cc:457-490 | every copy, in every round, walks as the recorded entries, then empty ones, to its exact end |
| Replay.PostedWritten | qps.cc:57-97 | replaying an operation keeps every queue's entries and counters those of the closures executed |
| Replay.Emitted | qps.cc:57-97 | the operation is written into its own queue and credited to its pair, all other queues keep what they have |
| Replay.ManagedBy | qps.cc:121-153 | a management closure writes one entry from the slave's counters at that point |
| Replay.Execute | qps.cc:28-32 | after every closure all queues are as the executed closures leave them |
| Replay.MgmtEntries | qps.cc:121-153 | management entry `i` is that of call `i` |
| Replay.SlaveEntries | qps.cc:57-108 | a slave queue holds its recorded operations in order |
| Replay.EntryInRound | dv_mgr.cc:349-412 | the entry of a call in round `k` has the recycled index of that round |
| CommGraph.CommGraph.constructor | qps.cc:4-7 | a graph with its management queue |
| CommGraph.CommGraph.Count | qps.cc:320-398 | which counters an operation bumps, by its kind, also when the pair is the queue itself |
| CommGraph.CommGraph.Post | qps.cc:57-108 | counters stay the tallies of the calls made, closures those of the calls made |
| CommGraph.CommGraph.Wait | qps.cc:17 | one more management entry, no completion counted |
| CommGraph.CommGraph.WaitSend | qps.cc:19 | one more management entry, no completion counted |
| CommGraph.CommGraph.NewSelfPaired | qps.cc:188-192 | a registered queue that is its own pair, with its receive-enable recorded |
| CommGraph.CommGraph.NewRingPair | qps.cc:303-318 | two queues paired with each other, the right one first on odd ranks |
| CommGraph.CommGraph.InitAll | qps.cc:24-26 | a context of the recorded size for every queue, recycled or not; two contexts are each other's pair exactly as their queues are |
| CommGraph.CommGraph.Introduce | qps.cc:285-290 | pairing in any registration order: done when the second of the two is initialised |
| CommGraph.CommGraph.ReplayAll | qps.cc:28-32 | all closures executed in order; every entry fits the block sized from the counters |
| CommGraph.CommGraph.FinAll | qps.cc:34-36 | every queue complete, others untouched meanwhile |
| CommGraph.CommGraph.Finish | qps.cc:23-40 | every queue done, paired and measured; the device of the management queue is told the number of queues constructed, no other device anything |
| CommGraph.CommGraph.StartsRunning | qps.cc:34-37 | a finished graph is ready to run, with no rearm owed |
| CommGraph.CommGraph.Db | qps.cc:21 | one more round released and the device told its end, the buffer unchanged, the graph still ready to run |
| CommGraph.CommGraph.Rearm | dv_mgr.cc:487-490 | one more rearm of the management queue, all other queues and what devices were told untouched |
| CommGraph.CommGraph.Rounds | dv_mgr.cc:183-192 | any number of rounds, each released and then rearmed for, keep the invariant that GraphHolds reads; the device was told the end of the last |
| CommGraph.CommGraph.Agrees | qps.cc:23-36 | counted slots and completions are those written; each context's pair is the context of its queue's pair |
| CommGraph.Executable | qps.cc:28-32 | no closure outgrows the block of the queue it writes to |
| Persistence.HoldsRound | dv_mgr.cc:457-505 | persistent refinement in memory: after any number of rearms, for every round k armed and not rearmed over, the device reads in the entry of every call its opcode, its queue number and the recycled index modulo 2^32; that is the re-recorded index exactly if the lag of k rounds is nothing modulo 2^32 |
| Persistence.MemoryIsStream | dv_mgr.cc:349-412 | the value in memory is the index the running-graph model acts on, for the same rounds |
| Persistence.GraphHolds | qps.cc:21-40 | the same from a finished graph that is rung and rearmed any number of times: round j is in memory from its release, while it runs, and through the rearm of the next round |
| Operations.SlaveHolds | dv_mgr.cc:231-345 | in a graph in use every copy of every slave queue holds the operation of every call, as the device reads it, behind those recorded before |
| Operations.EnabledIsOp | dv_mgr.cc:349-362 | in every round the entry that ends where the 32-bit index of a send-enable points is the operation of its call, on the queue it names |
| Operations.AskedIsCounted | dv_mgr.cc:256-290 | up to any call, the entries in memory that ask for a completion are as many as the running graph counts for the send CQ |
| Fabric.CreditIsLast | dv_mgr.cc:364-377 | a queue has no receive credit before the first receive-enable of its own, and then that of the last |
| Fabric.RecvRegGrows | dv_mgr.cc:364-377 | receive credit never shrinks |
| Dependency.ExecutesEnabled | dv_mgr.cc:349-362 | an operation executes only after its send-enable |
| Dependency.PassingMeets | dv_mgr.cc:379-412 | a passed wait has all its completions, not just as many; a send-CQ wait all but the shortfall |
| Dependency.InvStays | qps.cc:57-153 | the invariant of the running graph is kept by every step of every rank |
| Dependency.DependencyOrder | qps.cc:17-19 | an operation recorded after a wait leaves its queue only when everything recorded before the wait on the awaited CQ has completed, this round and earlier; for a send CQ all but the completions recording missed in earlier rounds |
| Ordering.CountedKeepsOrder | qps.cc:17-19 | where no wait is for the send CQ of a queue with uncounted writes, an operation that has left is behind everything that all waits before it were recorded for |
| Ordering.OrderBreaks | qps.cc:469-478 | any such wait, in any graph that does not deadlock, gives a run in which an operation behind it leaves although a write before it has not completed |
| Ordering.OrderKeptIff | qps.cc:17-19 | the dependency order holds in all runs if and only if no wait is for the send CQ of a queue with uncounted writes, for every graph that does not deadlock |
| LaggingRun.DependencyBreaks | qps.cc:469-478 | a reachable state, on either kind of device, where an operation behind such a wait has left although the write before the wait has not completed |
| Serial.RecvBehind | dv_mgr.cc:389-390 | no wait is more than one round of completions ahead of those produced |
| Serial.RecvAhead | dv_mgr.cc:374-375 | no CQ is more than the first credit, 0x6fff, ahead of the wait for it |
| Serial.SendBetween | dv_mgr.cc:409-410 | the same for a send CQ, ahead by at most what recording missed |
| Serial.SerialDecides | dv_mgr.cc:389-410 | a serial comparison of the 32-bit index in memory with a 32-bit count decides as the model does while the count is less than 2^31 ahead, which it always is except for the send CQ of a queue with uncounted writes; from there to 2^32 the wait blocks although it should pass |
| Serial.EnableNear | dv_mgr.cc:359-360 | an operation that is not enabled yet is at most one block ahead of the producer index |
| Progress.CreditSuffices | dv_mgr.cc:364-377 | a receive is available for every operation the receiving rank has itself reached |
| Progress.ReadyPasses | dv_mgr.cc:379-392 | a wait that can be answered passes once all earlier operations of all ranks are through |
| Progress.Moves | qps.cc:57-153 | while a started round is incomplete some device can move: the slowest rank is never blocked |
| Completion.EveryRunCompletes | qps.cc:21-40 | device steps are bounded by the most rounds any rank was asked for, and when they end every rank has completed the least |
| Completion.HeavyStarves | dv_mgr.cc:374-375 | a queue that posts more than 0x6fff operations cannot complete its first round |
| Completion.UntimelyStarves | dv_mgr.cc:389 | on devices that take completion 2^32 - 1 never to come, a wait recorded before any completion, which this line makes name it, blocks the first round |
| Completion.DeadlockFreeIff | qps.cc:57-153 | deadlock freedom over all interleavings, ranks and rounds, exactly when no queue posts too much and, on devices that take completion 2^32 - 1 never to come, no wait is early |
| RingGraph.RingSound | qps.cc:303-402 | rings of any number of ranks with ring pairs, constructed in odd and even order, doubling queues between symmetric peers, and loopbacks meet the model's assumptions |
| RingGraph.PeerIsFar | qps.cc:303-318 | the rank a ring queue's exchange and barrier are with is the one at its far end in the running graph |
| RingGraph.MeetingsLink | qps.cc:259-318 | every meeting in every handshake of an even number of ranks joins the two ends of one link of the running graph |
| RingGraph.CreateIndex | dv_mgr.cc:374-375 | the receive-enable of a queue starts from 0x6fff and adds the completions of a round |
| RingGraph.RingProgress | qps.cc:303-336 | the equivalence for every program recorded on a ring, and for those that do not deadlock the one for the dependency order |
| RingGraph.FinishedProgress | qps.cc:23-40 | graphs of odd and even ranks, with any kinds of queues, recorded and finished through the graph interface meet every assumption of both equivalences, and their rings hold the indices these act on |
| RingGraph.FinishBoth | qps.cc:23-40 | mirrored recordings finished on send queues of the same sizes are the twin graphs of FinishedProgress |
| RingGraph.Serve | qps.cc:303-318 | every request made on an odd and an even rank keeps their recordings mirrored, ring pairs constructed in opposite order |
| RingGraph.MirrorTallies | qps.cc:57-108 | what an even rank counts for one end of a pair is what an odd rank counts for the other |
| RingGraph.MirrorIndex | qps.cc:303-318 | the even rank's recycled ring holds, call by call and round by round, the indices of the odd rank's program |
| Counting.CreatedStays | qps.cc:129-137 | a queue is constructed before anything is posted on it or its pair, whatever is recorded later |
| Handshake.Joined | qps.cc:303-318 | every rendezvous joins a rank's right queue with its right neighbour's left queue, under equal tags |
| Handshake.MeetingTags | qps.cc:219-228 | the exchange of a queue has its tag, the barrier that plus 0xf000 |
| Handshake.ValidIff | qps.cc:219-228 | tags tell all meetings apart exactly when no two queues share one and none is that of a barrier |
| Handshake.StepKeeps | qps.cc:259-283 | mutual exclusion and equal progress of both ends of every link |
| Handshake.Moves | qps.cc:259-283 | with an even number of ranks someone can always move |
| Handshake.FirstRankStarves | qps.cc:309-315 | with an odd number, and not one rank that can meet itself, rank 0 never completes its first exchange |
| Handshake.FinishesIffEven | qps.cc:219-318 | the handshake always finishes if and only if the number of ranks is even, or is one and the caller's exchange lets a rank meet itself |
| Handshake.RunsEnd | qps.cc:230-295 | every interleaving has a bounded number of steps |
| Handshake.NobodyMeetsLocked | qps.cc:259-283 | nobody is in an exchange or barrier while holding a mutex; no mutex has two holders |
| Poller.Arrives | dv_mgr.cc:153-158 | what the device's writes keep true of the ring |
| Poller.RingShows | dv_mgr.cc:153-158 | a ring that starts invalid shows, after any sequence of completions, just the last ones |
| Poller.SlotTells | dv_mgr.cc:155-158 | inside the window, parity and opcode of a slot tell whether the completion has arrived, both ways |
| Poller.CounterTells | dv_mgr.cc:158-169 | slot and parity from the 32-bit counter are those of the unbounded number |
| Poller.CqPoller.constructor | dv_mgr.cc:103-108 | the first awaited completion is the last of the first round, whatever the size of a round |
| Poller.CqPoller.Poll | dv_mgr.cc:153-175 | 1 exactly when all completions of the round have arrived, across wrap-around, and never for a round of none; the window's lower bound is kept if a round fits the ring; consumer index written |
| PipeMem.PipeMem.constructor | pcx_mem.cc:252-253 | no slot taken yet |
| PipeMem.PipeMem.Remote | pcx_mem.cc:283-287 | own slot length and number over the peer's address |
| PipeMem.PipeMem.At | pcx_mem.cc:295-297 | a position is at its number modulo the depth, in slots, from the start of the buffer |
| PipeMem.PipeMem.Next | pcx_mem.cc:299-302 | call number `i` returns the slot of position `i`, at `i` modulo the depth from the start of the buffer |
| PipeMem.NextForever | pcx_mem.cc:299-302 | that slot is the one at `i` modulo the depth for every call, past the counter's wrap too, if and only if the depth divides 2^64 |
| PipeMem.SlotAddress | pcx_mem.cc:129-134 | slots lie inside the buffer, where unbounded arithmetic puts them |
| PipeMem.FitsIff | pcx_mem.cc:129-134 | the assumption on address and sizes is that every slot ends within the address space |
| PipeMem.WindowDisjoint | pcx_mem.cc:295-302 | consecutive slots share no byte |
| PipeMem.WindowCovers | pcx_mem.cc:129-134 | they cover the buffer exactly if and only if a slot is shorter than 4 GiB |
| PipeMem.RemoteNamesIncoming | qps.cc:271-273 | `remote[pos]` is the peer's `incoming[pos]` for every position if and only if length and depth agree |
| VerbCtx.StepKeeps | verbs_ctx.cc:41-60 | the count is the references held, the instance exists while counted, kept by every statement |
| VerbCtx.Singleton | verbs_ctx.cc:41-90 | never initiated twice, at most one live instance, live exactly while the count is positive, every reference is to it |
| VerbCtx.ReadIsLive | verbs_ctx.cc:47-48 | the unlocked read yields the live instance |
| VerbCtx.KeptAlive | verbs_ctx.cc:51-60 | no step replaces or deletes the instance while a client holds a reference |
| VerbCtx.EndsFree | verbs_ctx.cc:41-60 | no client waits for ever: however the clients inside a call take their steps there are at most four each, and they can take no more exactly when every call is over and every client can take the mutex |
| VerbCtx.CanEnd | verbs_ctx.cc:41-60 | such an end is reached from every reachable state |

## Left out

- QpContext.QpCtx.constructor: assumes a program that is not empty and fits the send queue. An empty one divides by zero
  (`dv_mgr.cc:96`), one that is too big leaves an unusable object (`dv_mgr.cc:84-87`); both are outcomes of
  `Rounding.Split`. Send queues of up to 2^31 slots are allowed, although `stride * rounded_num_of_wqes`
  (`dv_mgr.cc:97`) leaves the range of `int` for blocks from 2^25 slots of 64 bytes on.
- QpContext.QpCtx.Fin: assumes two copies or more, and so does CommGraph.CommGraph.Finish. With a single copy
  `number_of_duplicates - 2` wraps and the signed loop counter overflows before it gets there (`dv_mgr.cc:474`), which
  has no defined meaning; what happens up to that point is in the contract of `Pad`.
- CommGraph.CommGraph.Post: the separate record functions are one method over `Op`, which carries what differs between
  them; record counters are unbounded, so overflow of `int` and the truncation to 16-bit work-request counts
  (`qps.cc:521`, `qps.cc:619`) are not modelled.
- Completion.DeadlockFreeIff: positions and indices are unbounded in the running-graph model and a queue executes one
  entry at a time. `Persistence.MemoryIsStream` ties the indices to memory modulo 2^32, and `Serial.SerialDecides` shows
  when comparing waits serially in 32 bits decides the same. Producer indices are treated so on one side only
  (`Serial.EnableNear`): how far a slave queue may lag behind what is enabled has no bound in the code. The host may
  ring any number of doorbells; that it does not outrun its copies is what `RunningHeld` and `Host.RightIff` are about.
- Handshake.FinishesIffEven: is about ring queues only; the peers of doubling queues are chosen by the caller. Exchange
  and barrier complete together on both sides when each names the other and the tags agree, and the tags of one rank
  differ from one another. Loopback and management queues do not communicate and add no steps.
- VerbCtx.Singleton: a client hands back only references it was given itself; opening and closing the device is part of
  one step, and its failures are left out.
- Verbs and device calls: queues, completion queues, memory regions and their numbers are inputs (`Device`); send queues
  have a power-of-two number of slots of 64 bytes. `mlx5dv_set_ctrl_seg` and the data-segment helper of the driver
  library are not part of this model beyond the layout of the control segment; the entry number in it is written but
  never interpreted, as the index check of the firmware is disabled (`README.md:13`).
- Operations: segments behind the control segment are opaque words fixed when recorded; rkeys, immediates,
  vector-calculation encoding and the addresses that closures resolve when they run are inside them.
- Receive work requests, flow control below them, and transport errors; the message `poll` prints for an error
  completion; allocation in device or host memory and the copying of keys between ranks.
- Memory fences and posted stores: doorbell and queue writes are sequentially consistent steps.
- `pad`, `dup`, `cq_db` and `cd_wait_signal`, which the graph layer never uses; printing, error classes, destructors.
- Data races on user buffers inside a particular collective, and the shell scripts.
