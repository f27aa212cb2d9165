# Request scheduling and block ciphers of Linux 2.6.34

A model in Dafny of the parts of the kernel's block layer that decide when a request reaches the
driver and what becomes of it, and of three pieces of its crypto code.  Almost all of the block
layer works under the queue lock, so a locked region is one step and a property is an invariant
over all runs.

Every imperative part exists twice: as a class or method with the loops and updates of the C
code, and as a definition on values that the method is proved to compute.  The theorems about
runs are about the definitions.

## The parts

- **Barriers** (`Barrier.dfy`, `BarrierInvariants.dfy`, `BarrierOrder.dfy`, `BarrierLog.dfy`,
  `BarrierFence.dfy`, `BarrierProgress.dfy`, `BarrierStuck.dfy`, `BarrierSweep.dfy`,
  `BarrierQueue.dfy`).  A machine whose events are adding, dispatching, peeking, starting,
  requeueing and finishing requests and changing the ordered mode.  Its state has the dispatch
  queue, what the scheduler and the driver hold, the sequence bits, the colour, the proxies, and a
  log of what was handed over and ended.
  `Core` is the invariant for all modes, `Order` the one for drain-ordered queues, where requests
  are ordered by a key made of the number of barriers before them and of their phase.  `Fence` is
  what is left of this order in all modes; with a measure of the work of the driver it shows when
  barriers end.
- **Camellia** (`Camellia.dfy`, `CamelliaKeys.dfy`, `CamelliaTable.dfy`, `CamelliaSetup.dfy`,
  `CamelliaCipher.dfy`).  RFC 3713 from the key bytes on, against the optimised table.  The
  S-boxes are any four functions.
- **CBC** (`Cbc.dfy`).  The four loops and the two that drive them, for any block cipher, and
  Camellia as one.
- **Spawns** (`Spawns.dfy`).  The walk that tears down what was built on an algorithm.
- **Deadline scheduler** (`Deadline.dfy`, `DeadlineTimes.dfy`, `DeadlineOrder.dfy`,
  `DeadlineStarvation.dfy`, `DeadlineQueue.dfy`).
- **Merge hash** (`MergeHash.dfy`), for any hash function.
- **Completion** (`Completion.dfy`, `CompletionRequest.dfy`): partial completion and mixed
  failfast merges.
- **Segments** (`Segments.dfy`, `SegmentMerge.dfy`, `SegmentLoops.dfy`): counting, merging and
  mapping physical segments.
- **CFQ** (`CfqChoose.dfy`, `CfqGroups.dfy`, `CfqGroupTree.dfy`): the choice among neighbours and
  the fairness of groups.
- **Request pool** (`RequestPool.dfy`): the allocator with its sleepers.
- **Tags** (`TagMap.dfy`).
- `NumberLists.dfy` holds what several of these need of lists.

## Reading the model

- An rb-tree is the sequence of its nodes in order.  Linked lists are sequences.  Requests, bios,
  tasks, spawns and algorithms are known by numbers.
- Jiffies, sectors and byte counts do not wrap.  The virtual times of CFQ groups do: the trees
  compare them as 64-bit words, and the unwrapped times are ghost state.
- The constants of ordered modes and sequence bits are those of `include/linux/blkdev.h`.
- A `BUG_ON` or `WARN_ON` about something the model has is a precondition, an assertion or an
  outcome.  The table names those that are shown not to fire and those whose exact condition is
  given; the ones that are not modelled are listed under "Left out".
- Where the proof of a loop is about where things are rather than what they are, the bodies of
  definitions that do not matter are hidden from it.

Some statements one might expect are false of the code.  Each has an input that shows it and the
exact condition under which it holds.

- A barrier is not always ended: on a tag-ordered queue the drain of an empty barrier can get
  stuck (`TagQueueSticks`, `DrainSticksIff`).
- The sector of a request after two partial completions is not always that after one
  (`SectorsDiffer`, `SectorComposes`, `UpdateTwice`).
- The neighbours do not always include the best request if flags differ (`FlagsHideTheBest`,
  `FlagsHideTheShortWay`, `FindNextIsBestIff`).
- Growing a tag map does not always keep the tags in flight: the depth is limited after it was
  compared with the old one (`ResizeOverruns`, `Resize`).
- The bios of a request that is not mixed do not always have its failfast bits, so that the
  warning in `blk_rq_set_mixed_merge` can be reached (`FromBioWarns`, `NoWarningIff`).
- The deadline scheduler does not always go on with the least sector above the last one: a request
  that comes in between after the dispatch is passed over (`LateIsPassed`, `TakesLeastIff`).
- A slice is not always scaled exactly where an unsigned long has 32 bits (`ScaleSliceExact`).

Two hold for more than the comments in the code ask.  The penalty for backward seeks may be
zero, and one request per direction is enough for no wakeup to be lost; with none at all it
fails (`NoRequestsForgetsSleepers`).

## Model

| member | source | states |
|---|---|---|
| `BarrierLog.EveryRequestHandedRight` | linux-2.6.34/block/blk-barrier.c:154-280 | in every run of a drain-ordered queue: pre-flush, barrier write and post-flush reach the driver in that order, each only after every request added before the barrier has completed; a request added after a barrier, empty or not, reaches the driver only after that barrier has ended and after everything added before the barrier has completed |
| `BarrierLog.EveryBarrierEndsRight` | linux-2.6.34/block/blk-barrier.c:92-130 | in every run, in every mode, for empty and non-empty barriers: the sequence of a barrier begins at most once and the barrier is ended at most once, only when every proxy of its sequence has finished, and with the first error of the sequence (or -EOPNOTSUPP if no sequence began) |
| `BarrierLog.ColorTellsSide` | linux-2.6.34/block/blk-barrier.c:63-90 | one colour bit is enough: the head of the queue has the barrier's colour if and only if it was added before the barrier |
| `BarrierLog.NoPhasePassed` | linux-2.6.34/block/blk-barrier.c:273-276 | a request at the head is never of a phase that has passed, so the WARN_ON is unreachable |
| `BarrierLog.PhasesSorted` | linux-2.6.34/block/elevator.c:653-681 | while a sequence is in progress the dispatch queue, up to the next pending hard barrier, is sorted by the phases that `blk_ordered_req_seq` computes, insertions and requeues included |
| `BarrierLog.StillDue` | linux-2.6.34/block/blk-barrier.c:56-61 | as long as a sequence is in progress and its drain is over, a proxy that is due has not finished |
| `BarrierProgress.EndedExactlyWhen` | linux-2.6.34/block/blk-barrier.c:92-112 | in every run and mode a barrier whose sequence began has been ended if and only if every phase that was not skipped has completed: each proxy due has finished, and no drain is in progress |
| `BarrierProgress.EveryBarrierEnds` | linux-2.6.34/block/blk-barrier.c:154-280 | a drain-ordered queue ends every barrier: after any run, a driver that finishes what it holds and takes what it is offered comes to rest within a number of steps known beforehand, and then every barrier added has been ended (once, by `EveryBarrierEndsRight`) |
| `BarrierProgress.DrainGoesOn` | linux-2.6.34/block/blk-barrier.c:268-277 | in every run of a drain-ordered queue a sequence in progress has something with the driver, or offers it the head of the queue: during the drain a request added before the barrier, later the proxy whose turn it is, which is due and has not finished |
| `BarrierProgress.BarriersEndUnlessStuck` | linux-2.6.34/block/blk-barrier.c:154-280 | the same in every mode, unless a drain is stuck: nothing is in flight, and what is at the head has to wait for the end of the drain |
| `BarrierProgress.WorkDecreases` | linux-2.6.34/block/blk-barrier.c:236-280 | every completion, every start and every peek that changes anything brings the driver nearer to rest, in every mode |
| `BarrierProgress.WorkEnds` | linux-2.6.34/block/blk-barrier.c:236-280 | so from every state the driver can come to rest |
| `BarrierProgress.IdleStuck` | linux-2.6.34/block/blk-barrier.c:236-280 | at rest the queue is empty and no sequence is in progress, or a drain is stuck |
| `BarrierStuck.DrainSticksIff` | linux-2.6.34/block/blk-barrier.c:163-181 | in every mode, for the barrier at the head: some continuation leaves its drain stuck if and only if its sequence is ordered by draining, as that of an empty barrier on a tag-ordered queue is, and a request in flight has another colour than the barrier |
| `BarrierStuck.StuckForever` | linux-2.6.34/block/elevator.c:839-855 | a barrier whose drain is stuck is never ended, whatever is added, dispatched and peeked at, unless the queue is switched to tags |
| `BarrierStuck.TagQueueSticks` | linux-2.6.34/block/blk-barrier.c:163-181 | a run of a tag-ordered queue that ends so: a request that has passed a barrier is requeued during the drain of an empty one |
| `BarrierFence.StepFence` | linux-2.6.34/block/elevator.c:601-733 | every step, in every mode, keeps it that a hard barrier in the dispatch queue has only later requests behind it and only earlier ones in front of it, that none behind it is started, that proxies wait behind earlier phases only, and that during a drain with nothing at the driver the head of the queue is no barrier |
| `BarrierFence.BackFront` | linux-2.6.34/block/elevator.c:653-681 | in every mode the ordered requeue puts a request in front of every pending hard barrier |
| `BarrierLog.StepLogged` | linux-2.6.34/block/blk-barrier.c:92-112 | every step keeps the log: which barriers began, which proxies finished, the first error, and that all entries so far end barriers rightly |
| `BarrierLog.StepHands` | linux-2.6.34/block/blk-barrier.c:236-280 | every step of a drain-ordered queue hands over only what may be handed over |
| `BarrierLog.EndOfSequence` | linux-2.6.34/block/blk-barrier.c:92-112 | when the current phase is DONE, every proxy that the sequence includes has its completion in the log |
| `BarrierLog.HandRq` | linux-2.6.34/block/blk-barrier.c:272-277 | a request that is started has every barrier added before it ended and everything before such a barrier completed |
| `BarrierLog.HandProxy` | linux-2.6.34/block/blk-barrier.c:272-280 | a proxy that is started has all earlier requests completed and all earlier phases finished |
| `BarrierInvariants.StepCore` | linux-2.6.34/block/elevator.c:601-733 | every step, in every mode, keeps the books: each request is in one place, the in-flight count is right, phase bits agree with what has finished, no phase bit is set twice, and barriers wait in order |
| `BarrierInvariants.CurCases` | linux-2.6.34/block/blk-barrier.c:56-61 | the first clear bit of `ordseq` is the phase whose predecessors are all set; it is DONE only when all are |
| `BarrierInvariants.ProxyCompleted` | linux-2.6.34/block/blk-barrier.c:92-130 | when a proxy finishes, its phase bit was clear: the BUG_ON of `blk_ordered_complete_seq` is unreachable |
| `BarrierInvariants.StartOrderedCore` | linux-2.6.34/block/blk-barrier.c:154-234 | starting a sequence, including the phases it skips at once, keeps the books |
| `BarrierInvariants.RejectCore` | linux-2.6.34/block/blk-barrier.c:247-256 | refusing a barrier on a queue without ordering keeps the books |
| `BarrierInvariants.DrainCore` | linux-2.6.34/block/elevator.c:559-571 | draining the scheduler into the dispatch queue keeps the books |
| `BarrierOrder.StepOrder` | linux-2.6.34/block/elevator.c:411-447 | every step of a drain-ordered queue keeps the dispatch queue sorted by epoch and phase, and nothing of a later epoch is in flight during a drain |
| `BarrierOrder.DispatchSorted` | linux-2.6.34/block/elevator.c:411-447 | sorted insertion into the dispatch queue never passes a barrier, so the order by epoch is kept |
| `BarrierOrder.RequeueAtHead` | linux-2.6.34/block/elevator.c:653-681 | in a drain-ordered sequence the ordered requeue puts a request at the head of the queue |
| `BarrierOrder.HeadSeq` | linux-2.6.34/block/blk-barrier.c:63-90 | the phase computed for the request at the head says on which side of the barrier it was added |
| `BarrierOrder.StartServes` | linux-2.6.34/block/blk-barrier.c:154-234 | a sequence that can start at once serves its first proxy, whose turn it is |
| `BarrierQueue.RequestQueue.AddRequest` | linux-2.6.34/block/elevator.c:698-733 | colour, barrier toggle, drain for back insertion and sorted insertion, as one transition of the machine |
| `BarrierQueue.RequestQueue.DispatchSort` | linux-2.6.34/block/elevator.c:411-447 | the backward walk inserts at the place the machine defines |
| `BarrierSweep.DrainSweeps` | linux-2.6.34/block/elevator.c:411-447 | requests of one kind that are sorted in one by one, in any order, leave what was in the queue before alone and end up behind it in the order in which a head going up from the boundary, and then again from sector 0, reaches them |
| `BarrierSweep.SortPosIsExact` | linux-2.6.34/block/elevator.c:424-446 | among requests of its kind at the end of the queue a request goes behind exactly those that the head reaches no later |
| `BarrierQueue.RequestQueue.DispatchTail` | linux-2.6.34/block/elevator.c:455-467 | insertion at the tail of the dispatch queue |
| `BarrierQueue.RequestQueue.DrainElevator` | linux-2.6.34/block/elevator.c:559-571 | the loop dispatches every request the scheduler holds, in some order |
| `BarrierQueue.RequestQueue.Requeue` | linux-2.6.34/block/elevator.c:542-557 | a requeued request goes back where the machine defines |
| `BarrierQueue.RequestQueue.RequeueWalk` | linux-2.6.34/block/elevator.c:672-681 | the forward walk stops at the first request of the same or a later phase |
| `BarrierQueue.RequestQueue.CompleteSeq` | linux-2.6.34/block/blk-barrier.c:92-112 | sets the bits, keeps the first error, and ends the barrier and clears the sequence when DONE is reached |
| `BarrierQueue.RequestQueue.StackProxies` | linux-2.6.34/block/blk-barrier.c:188-220 | the proxies end up in front of the queue in the order of their phases; the skipped phases are those of the mode |
| `BarrierQueue.RequestQueue.BeginOrdered` | linux-2.6.34/block/blk-barrier.c:154-227 | the masked mode, the dequeued barrier, its proxies and the phases to skip |
| `BarrierQueue.RequestQueue.StartOrdered` | linux-2.6.34/block/blk-barrier.c:154-234 | the whole start with its verdict: serve, wait, or gone because everything was skipped |
| `BarrierQueue.RequestQueue.DoOrdered` | linux-2.6.34/block/blk-barrier.c:236-280 | what happens to the request at the head, for every branch |
| `BarrierQueue.RequestQueue.PeekRequest` | linux-2.6.34/block/blk.h:54-68 | the loop is a run of the machine and terminates, whatever requests the scheduler gives up and wherever they go; it hands out the head of the queue exactly when the last look at it says so, and leaves it started; it returns nothing only if that look says to wait, or the queue is empty and the scheduler was asked for more; a head that is not gone is looked at once, and an ordinary one with no sequence in progress is handed out as it stands |
| `BarrierQueue.RequestQueue.Start` | linux-2.6.34/block/blk-core.c:1844-1860 | a started request leaves the queue and is counted in flight |
| `BarrierQueue.RequestQueue.CompletedRequest` | linux-2.6.34/block/elevator.c:826-856 | a completion is counted, and ends the drain phase when nothing of it is left |
| `BarrierQueue.RequestQueue.Finish` | linux-2.6.34/block/blk-barrier.c:114-130 | the three end_io functions complete their phase; their bits were clear |
| `CamelliaTable.TableComputesCamellia` | linux-2.6.34/crypto/camellia.c:381-578 | key absorption preserves meaning: for all subkeys, blocks, S-box contents and both sizes, the optimised cipher on the table that key setup builds is the cipher of sections 2.3 and 2.4 of RFC 3713 on the subkeys it started from |
| `CamelliaTable.DecryptUndoesEncrypt` | linux-2.6.34/crypto/camellia.c:942-995 | decryption undoes encryption for every table, whether or not key setup built it |
| `CamelliaTable.EncryptUndoesDecrypt` | linux-2.6.34/crypto/camellia.c:887-940 | and encryption undoes decryption, so both are permutations of the blocks |
| `CamelliaTable.SectionAlike` | linux-2.6.34/crypto/camellia.c:896-915 | six rounds on the table and six rounds of the RFC keep the two halves of the data apart by known subkeys |
| `CamelliaTable.LayerAlike` | linux-2.6.34/crypto/camellia.c:916-921 | an FL layer turns the offsets behind one section into those in front of the next |
| `CamelliaTable.SectionKeys` | linux-2.6.34/crypto/camellia.c:470-559 | closed form of the table: in it the absorbed whitening keys have cancelled, leaving XORs of original subkeys |
| `CamelliaAlgebra.FLInvAffine` | linux-2.6.34/crypto/camellia.c:854-868 | FLINV is affine in the data; Lin is its linear part, the transformation that key setup applies to whitening keys |
| `CamelliaAlgebra.FLAffine` | linux-2.6.34/crypto/camellia.c:854-868 | FL is affine too, and its linear part is the inverse of Lin |
| `CamelliaAlgebra.LinXor` | linux-2.6.34/crypto/camellia.c:394-396 | Lin is additive |
| `CamelliaAlgebra.FLInverse` | linux-2.6.34/crypto/camellia.c:854-868 | FL and FLINV undo each other |
| `CamelliaAlgebra.LookupIsF` | linux-2.6.34/crypto/camellia.c:359-376 | the eight table lookups and their mixing are the function F of the RFC |
| `CamelliaAlgebra.MixIsP` | linux-2.6.34/crypto/camellia.c:373-375 | the last three XORs complete the P-function of the RFC |
| `CamelliaAlgebra.MixUnMix` | linux-2.6.34/crypto/camellia.c:561-577 | the loop at the end of key setup applies the inverse of the last half of P |
| `CamelliaAlgebra.MixXor` | linux-2.6.34/crypto/camellia.c:870-884 | the last half of P is additive, so the key XOR can move behind the lookups |
| `CamelliaRotations.RoldqIsRot` | linux-2.6.34/crypto/camellia.c:340-347 | ROLDQ on four words is the 128-bit rotation by that many bits |
| `CamelliaRotations.RoldqO32IsRot` | linux-2.6.34/crypto/camellia.c:349-357 | and so is ROLDQo32 for more than a word |
| `CamelliaRotations.FullTurn` | linux-2.6.34/crypto/camellia.c:734-754 | the five rotations of the right key half make a full turn |
| `CamelliaSetup.AbsorbKw2` | linux-2.6.34/crypto/camellia.c:387-429 | in place: each even round key takes up kw2 as the FLINV layers before it have changed it; kw3 takes up the last |
| `CamelliaSetup.AbsorbKw4` | linux-2.6.34/crypto/camellia.c:416-468 | in place, backwards: each odd round key takes up kw4 as the FL layers behind it have changed it |
| `CamelliaSetup.KeyXors` | linux-2.6.34/crypto/camellia.c:470-559 | the key XOR moves to the end of F |
| `CamelliaSetup.UnmixRounds` | linux-2.6.34/crypto/camellia.c:561-577 | the do-while undoes the last half of P on every round key and touches nothing else |
| `CamelliaSetup.SetupTail` | linux-2.6.34/crypto/camellia.c:381-578 | the whole in-place transformation builds the table of its subkeys |
| `CamelliaSetup.GenerateA128` | linux-2.6.34/crypto/camellia.c:635-653 | KA of section 2.2 of RFC 3713, with KL cancelled instead of added twice |
| `CamelliaSetup.GenerateA256` | linux-2.6.34/crypto/camellia.c:756-774 | KA for long keys, again with the cancellations |
| `CamelliaSetup.GenerateB256` | linux-2.6.34/crypto/camellia.c:776-786 | KB |
| `CamelliaSetup.SubkeysFromL128` | linux-2.6.34/crypto/camellia.c:595-633 | the 13 subkeys of the 128-bit schedule that come from KL, by successive rotations |
| `CamelliaSetup.SubkeysFromA128` | linux-2.6.34/crypto/camellia.c:655-681 | and the 13 that come from KA |
| `CamelliaSetup.SubkeysFromL256` | linux-2.6.34/crypto/camellia.c:707-731 | the subkeys of the 256-bit schedule from KL |
| `CamelliaSetup.SubkeysFromR256` | linux-2.6.34/crypto/camellia.c:733-754 | those from KR; the register is back at its start afterwards |
| `CamelliaSetup.SubkeysFromA256` | linux-2.6.34/crypto/camellia.c:788-809 | those from KA, one pair by a rotation of whole words |
| `CamelliaSetup.SubkeysFromB256` | linux-2.6.34/crypto/camellia.c:811-830 | those from KB |
| `CamelliaSchedule.KeyBytes` | linux-2.6.34/crypto/camellia.c:590-703 | byte by byte, first byte highest: KL is the first 16 key bytes; KR is the last 16 of a 32-byte key, for 24 bytes the last eight followed by their complements, and zero for 16 |
| `CamelliaSchedule.ReadHalfBytes` | linux-2.6.34/crypto/camellia.c:590-593 | the eight bytes at an offset are those of the two words, in the order of the key |
| `CamelliaSchedule.SigmasAreRoots` | linux-2.6.34/crypto/camellia.c:324-335 | the six constants are the 2nd to 17th hexadecimal places of the square roots of the first six primes |
| `CamelliaSetup.Setup128` | linux-2.6.34/crypto/camellia.c:580-684 | from 16 key bytes to the table of the schedule of RFC 3713, with KL read as in `KeyBytes` |
| `CamelliaSetup.Setup256` | linux-2.6.34/crypto/camellia.c:686-833 | from 32 key bytes, with KL and KR read as in `KeyBytes` |
| `CamelliaSetup.Setup192` | linux-2.6.34/crypto/camellia.c:835-848 | from 24 key bytes, padded as in `KeyBytes` with the complement of the last eight |
| `CamelliaCipher.Fls` | linux-2.6.34/crypto/camellia.c:854-868 | the interleaved macro is FL on one half and FLINV on the other |
| `CamelliaCipher.Round` | linux-2.6.34/crypto/camellia.c:870-884 | the round macro |
| `CamelliaCipher.DoEncryptInPlace` | linux-2.6.34/crypto/camellia.c:887-940 | the in-place encryption computes DoEncrypt |
| `CamelliaCipher.DoDecryptInPlace` | linux-2.6.34/crypto/camellia.c:942-995 | the in-place decryption computes DoDecrypt |
| `CamelliaCipher.CamelliaInjective` | linux-2.6.34/crypto/camellia.c:887-940 | under one key different blocks have different ciphertexts |
| `CamelliaCipher.SpareEntry` | linux-2.6.34/crypto/camellia.c:470-474 | the entry that key setup leaves alone is never used |
| `CamelliaCipher.Context.SetKey` | linux-2.6.34/crypto/camellia.c:1003-1031 | -EINVAL, with nothing changed, exactly for key lengths other than 16, 24 and 32; otherwise the table of the key |
| `CamelliaCipher.Context.EncryptBlock` | linux-2.6.34/crypto/camellia.c:1033-1055 | encrypts as RFC 3713 does under the key that was set |
| `CamelliaCipher.Context.DecryptBlock` | linux-2.6.34/crypto/camellia.c:1057-1079 | gives the block that encrypts to its argument |
| `Cbc.DecUndoesEnc` | linux-2.6.34/crypto/cbc.c:42-191 | the mode of section 6.2 of NIST SP 800-38A: decryption undoes encryption for every cipher with D(E(x)) = x |
| `Cbc.EncSplit` | linux-2.6.34/crypto/cbc.c:90-112 | a message may be cut between any two blocks if the outgoing IV is handed on |
| `Cbc.DecSplit` | linux-2.6.34/crypto/cbc.c:169-191 | the same for decryption |
| `Cbc.DecAt` | linux-2.6.34/crypto/cbc.c:114-167 | each block decrypts from itself and the ciphertext before it |
| `Cbc.EncryptSegment` | linux-2.6.34/crypto/cbc.c:42-64 | the loop between two buffers computes the recursive definition and the outgoing IV |
| `Cbc.EncryptInPlace` | linux-2.6.34/crypto/cbc.c:66-88 | the loop in place, with the IV read from the buffer, computes the same |
| `Cbc.DecryptSegment` | linux-2.6.34/crypto/cbc.c:114-138 | the decrypting loop between two buffers |
| `Cbc.DecryptInPlace` | linux-2.6.34/crypto/cbc.c:140-167 | the decrypting loop in place, which runs backwards |
| `Cbc.Encrypt` | linux-2.6.34/crypto/cbc.c:90-112 | whatever chunks the walk maps, each in place or not, the result is that of one piece |
| `Cbc.Decrypt` | linux-2.6.34/crypto/cbc.c:169-191 | the same for decryption |
| `Cbc.DecryptBack` | linux-2.6.34/crypto/cbc.c:169-191 | buffers that hold an encrypted message, cut in any way, are decrypted to the message |
| `Cbc.RoundTrip` | linux-2.6.34/crypto/cbc.c:90-191 | a message encrypted, and decrypted where it was put, comes back |
| `CbcCamellia.CamelliaIsSound` | linux-2.6.34/crypto/camellia.c:1033-1079 | Camellia under any key is a cipher of which all this holds |
| `Spawns.Registry.RemoveSpawns` | linux-2.6.34/crypto/algapi.c:132-179 | without a replacement: the BUG_ON is reached if and only if the algorithm is built on itself; otherwise exactly the instances built on it, at any remove, become dead, each that was alive and registered and has its template goes on the removal list once, nothing else does, no list of an uninvolved algorithm changes, and the lists are fit for the next removal |
| `Spawns.Registry.WalkAll` | linux-2.6.34/crypto/algapi.c:144-171 | the walk terminates on every spawn graph; it runs into its BUG_ON if and only if the algorithm is built on itself, and otherwise moves exactly the spawns built on it |
| `Spawns.Registry.Descend` | linux-2.6.34/crypto/algapi.c:153-169 | the inner loop goes down to an instance without users, or stops at the algorithm itself, which then is built on itself |
| `Spawns.Registry.RemoveSpawn` | linux-2.6.34/crypto/algapi.c:108-130 | one instance dies; its users are gone, so the BUG_ON is unreachable |
| `Spawns.WalkEnds` | linux-2.6.34/crypto/algapi.c:152-171 | with the top list and the stack empty, what was moved is the least closed set of spawns |
| `Spawns.PushWalks` | linux-2.6.34/crypto/algapi.c:153-169 | moving a spawn to the stack keeps the invariant of the walk, unless its instance is the algorithm itself |
| `Spawns.PopWalks` | linux-2.6.34/crypto/algapi.c:85-106 | moving on from an exhausted instance keeps the invariant of the walk |
| `Spawns.LedIsLeast` | linux-2.6.34/crypto/algapi.c:132-179 | what is built on an algorithm is the least set closed under use |
| `Spawns.FoundIsLed` | linux-2.6.34/crypto/algapi.c:153-160 | every spawn the walk meets is built on the algorithm, the one that makes it stop included |
| `Spawns.StillFormed` | linux-2.6.34/crypto/algapi.c:132-179 | without what was built on an algorithm the lists are in order |
| `DeadlineInvariants.StepValid` | linux-2.6.34/block/deadline-iosched.c:76-222 | every operation keeps it that tree and FIFO of a direction hold the same requests, that next_rq is in its tree and set in one direction at most, and that nr_sorted is the number held |
| `DeadlineInvariants.Run` | linux-2.6.34/block/deadline-iosched.c:76-327 | every reachable state satisfies that invariant |
| `DeadlineInvariants.WritesNotStarved` | linux-2.6.34/block/deadline-iosched.c:245-327 | a pending write is passed over by at most writes_starved * max(1, fifo_batch) + fifo_batch dispatches in a row, whatever is inserted, displaced and merged in between |
| `DeadlineInvariants.WaitingCostsPatience` | linux-2.6.34/block/deadline-iosched.c:245-327 | the potential behind the bound: every read picked over a pending write uses some of it up |
| `DeadlineInvariants.OthersKeepPatience` | linux-2.6.34/block/deadline-iosched.c:76-84 | nothing but a dispatch touches the counters, not even an insertion that displaces next_rq |
| `DeadlineStarvation.StarvationBoundMet` | linux-2.6.34/block/deadline-iosched.c:76-84 | for all tunables the bound is attained by a run from the empty scheduler, in which an insertion displaces a request at the same sector |
| `DeadlineStarvation.GoingStep` | linux-2.6.34/block/deadline-iosched.c:245-327 | how: each dispatch of that run picks the next read in sector order and takes one step off the bound |
| `DeadlineInvariants.DrainEmpties` | linux-2.6.34/block/elevator.c:559-571 | a forced drain ends with nr_sorted 0 and has dispatched every request held, each once |
| `DeadlineInvariants.NoSecondAlias` | linux-2.6.34/block/deadline-iosched.c:76-84 | one displaced request makes room |
| `DeadlineInvariants.AddRbClosed` | linux-2.6.34/block/deadline-iosched.c:76-84 | insertion into the tree works although the request may already be in the FIFO and be next_rq, as it is in the middle of a front merge |
| `DeadlineInvariants.TakesPlace` | linux-2.6.34/block/deadline-iosched.c:170-189 | in a merge of two requests the survivor takes the FIFO place of the other |
| `DeadlineInvariants.MergedSpans` | linux-2.6.34/block/deadline-iosched.c:170-189 | in a merge of two requests the survivor begins where it did, ends where the other ended and is due when the earlier of the two was; the other leaves, and nothing else changes |
| `DeadlineInvariants.ChosenIsHeld` | linux-2.6.34/block/deadline-iosched.c:245-327 | what is dispatched is held, and nothing is dispatched only when nothing is held |
| `DeadlineTimes.ExpiredServedFirst` | linux-2.6.34/block/deadline-iosched.c:228-313 | in every reachable state a new batch starts with the request of the earliest expiry time of its direction whenever one there has expired |
| `DeadlineOrder.GoesOnInSectorOrder` | linux-2.6.34/block/deadline-iosched.c:253-314 | in every reachable state, for reads and writes: a dispatch in the direction of the last one, unless it starts a batch with an expired request, takes the least sector above the last one among the requests that were waiting there then; if none is above, it starts again from the earliest expiry time |
| `DeadlineOrder.StepFollows` | linux-2.6.34/block/deadline-iosched.c:76-222 | every operation keeps it that next_rq is of the least sector above the last request dispatched, or there is none, among those that came before that dispatch, and that the other direction has none; until a front merge takes it elsewhere |
| `DeadlineOrder.TakesLeastIff` | linux-2.6.34/block/deadline-iosched.c:302-314 | it is the least sector above of all if and only if none that came later lies in between |
| `DeadlineOrder.LateIsPassed` | linux-2.6.34/block/deadline-iosched.c:100-113 | a run in which one does: after sector 100 it is 300, although 200 is waiting |
| `DeadlineTimes.StepTimely` | linux-2.6.34/block/deadline-iosched.c:100-189 | every operation keeps each FIFO ordered by expiry time |
| `DeadlineQueue.Scheduler.AddRqRb` | linux-2.6.34/block/deadline-iosched.c:76-84 | the loop over displaced requests |
| `DeadlineQueue.Scheduler.AddRequest` | linux-2.6.34/block/deadline-iosched.c:100-113 | insertion into tree and FIFO, with the expiry time of its direction |
| `DeadlineQueue.Scheduler.RemoveRequest` | linux-2.6.34/block/deadline-iosched.c:118-124 | removal from tree and FIFO; next_rq moves on |
| `DeadlineQueue.Scheduler.MergedRequest` | linux-2.6.34/block/deadline-iosched.c:156-168 | a front merge moves the request in the tree |
| `DeadlineQueue.Scheduler.TakeOver` | linux-2.6.34/block/deadline-iosched.c:170-189 | a merge of two requests |
| `DeadlineQueue.Scheduler.MoveRequest` | linux-2.6.34/block/deadline-iosched.c:194-222 | a request moves to the dispatch queue; next_rq becomes its successor |
| `DeadlineQueue.Scheduler.DispatchRequests` | linux-2.6.34/block/deadline-iosched.c:245-327 | the choice between batch, reads and writes, with the BUG_ONs unreachable; something is dispatched exactly when something is held; what it takes is in `GoesOnInSectorOrder` and `ExpiredServedFirst` |
| `DeadlineQueue.Scheduler.DrainElevator` | linux-2.6.34/block/elevator.c:559-571 | the draining loop ends with both FIFOs empty |
| `MergeHash.LookupIsComplete` | linux-2.6.34/block/elevator.c:328-348 | the hash agrees with a linear scan: after any insertions, merges, dispatches and lookups an offset is found if and only if some mergeable request held ends there |
| `MergeHash.StepValid` | linux-2.6.34/block/elevator.c:514-540 | every operation keeps each mergeable request on the hash, under the sector behind its end |
| `MergeHash.ChangedValid` | linux-2.6.34/block/blk-core.c:1205-1236 | a front merge needs no rehash, as start plus length is unchanged |
| `MergeHash.RepositionValid` | linux-2.6.34/block/elevator.c:322-326 | repositioning after a back merge or a merge of requests restores the invariant |
| `MergeHash.JoinedSpan` | linux-2.6.34/block/elevator.c:527-540 | a joined request begins where it began and ends where the other one ended; no other changes |
| `MergeHash.StepCovers` | linux-2.6.34/block/elevator.c:514-540 | the sectors that the requests held are on: a merge of requests keeps them, a merge of a bio adds those of the bio, and nothing else but arrival and departure changes them |
| `MergeHash.HashAgrees` | linux-2.6.34/block/elevator.c:328-348 | in a valid state a bucket yields a mergeable request that ends at the offset, or there is none |
| `MergeHash.Elevator.Find` | linux-2.6.34/block/elevator.c:328-348 | the lookup loop returns what the bucket yields and takes exactly the requests off the hash that it meets and that may not be merged |
| `MergeHash.Elevator.Add` | linux-2.6.34/block/elevator.c:635-651 | a mergeable request goes on the hash |
| `MergeHash.Elevator.Merged` | linux-2.6.34/block/elevator.c:514-525 | after a back merge the request is repositioned, after a front merge it is not |
| `MergeHash.Elevator.MergeRequests` | linux-2.6.34/block/elevator.c:527-540 | one request is repositioned, the other leaves |
| `MergeHash.Elevator.Dispatch` | linux-2.6.34/block/elevator.c:455-467 | a dispatched request leaves the hash |
| `Completion.CompleteTwice` | linux-2.6.34/block/blk-core.c:1940-2070 | partial completion composes: a bytes and then b bytes end the same bios with the same errors, and leave the same bios and bvecs, as a + b bytes |
| `Completion.ChunksDoNotMatter` | linux-2.6.34/block/blk-core.c:1940-2070 | however a transfer is cut into completions the outcome is that of one |
| `Completion.CompleteSolid` | linux-2.6.34/block/blk-core.c:1970-2046 | bytes are conserved: what is left is what was there less what was completed, and nothing is left only when all is done |
| `Completion.CompleteLeavesRest` | linux-2.6.34/block/blk-core.c:1970-2046 | what is left is named byte by byte: the pages and offsets of the chain from the completed byte on |
| `Completion.FailureIsKept` | linux-2.6.34/block/blk-core.c:133-158 | a bio that failed in part ends with an error although its last part succeeds: the error given last, or -EIO |
| `Completion.EndedThenLeft` | linux-2.6.34/block/blk-core.c:133-170 | every bio has ended once, in order, with the error its owner is due, or is still there |
| `CompletionRequest.Request.EndIo` | linux-2.6.34/block/blk-core.c:133-158 | the effect on one bio, with the bytes cut down to what it has; it ends exactly when no byte is left |
| `CompletionRequest.Request.Consume` | linux-2.6.34/block/blk-core.c:1969-2019 | the loop over bios and bvecs stops where the completed bytes do; no bvec index leaves its bio, and no bvec is longer than what is left of its bio |
| `CompletionRequest.Request.Update` | linux-2.6.34/block/blk-core.c:1940-2070 | bios ended and left, errors, data length, sector and failfast bits are those of the definition; the request is never botched |
| `CompletionRequest.Request.SetMixedMerge` | linux-2.6.34/block/blk-merge.c:319-338 | every bio takes over the failfast bits of the request; the WARN_ON_ONCE fires exactly when a bio of a request that is not mixed has bits other than none or those of the request |
| `CompletionRequest.Request.BackMerge` | linux-2.6.34/block/blk-core.c:1183-1203 | a bio merged behind |
| `CompletionRequest.Request.FrontMerge` | linux-2.6.34/block/blk-core.c:1205-1236 | a bio merged in front |
| `CompletionRequest.Request.MergeNext` | linux-2.6.34/block/blk-merge.c:359-430 | two requests merged; both become mixed if either is or their bits differ |
| `CompletionRequest.Request.ErrBytes` | linux-2.6.34/block/blk-core.c:1677-1702 | the bytes of the leading bios that have all failfast bits of the request, or of all bios if it is not mixed; positive on a request that is not empty, so the BUG_ON is unreachable |
| `CompletionRequest.Request.FailAll` | linux-2.6.34/block/blk-core.c:2247-2251 | a driver that keeps failing what it is told to fail comes to an end, and each bio is told once |
| `CompletionRequest.SectorComposes` | linux-2.6.34/block/blk-core.c:2020-2049 | the sector does not compose; with L bytes left, completions of a and then b bytes leave it where one of a + b does if and only if: a % 512 + b % 512 < 512 when a + b < L, a < 512 when a < L <= a + b, and always when L <= a |
| `CompletionRequest.UpdateTwice` | linux-2.6.34/block/blk-core.c:1940-2070 | two calls on a request end and leave the same bios as one, and leave its sector and length where one call does exactly under that condition |
| `CompletionRequest.SectorsDiffer` | linux-2.6.34/block/blk-core.c:2020-2049 | a request of 1024 bytes on which it does not: 256 and 256 bytes against 512, and 512 and 512 against 1024 |
| `CompletionRequest.CurrentBytes` | linux-2.6.34/block/blk-core.c:2057-2064 | the first bvec never exceeds the data length |
| `MixedMerge.HistoryLed` | linux-2.6.34/block/blk-core.c:2051-2055 | after any history of merges and partial completions the failfast bits of a mixed merge are among those of its first bio |
| `MixedMerge.NoWarningIff` | linux-2.6.34/block/blk-merge.c:319-338 | no merge or completion of some requests can make the WARN_ON_ONCE fire if and only if each was made from a bio with no failfast bits or with those of the request |
| `MixedMerge.FromBioWarns` | linux-2.6.34/block/blk-core.c:1110-1122 | and that fails exactly for a read-ahead bio with some, but not all, of the bits |
| `MixedMerge.ErrBytesEnds` | linux-2.6.34/block/blk-core.c:1677-1702 | failing that many bytes ends whole bios only: of a mixed request exactly the longest run of leading bios that have all of its failfast bits, of any other request all of them |
| `MixedMerge.BitsAreKept` | linux-2.6.34/block/blk-merge.c:319-338 | after any history of merges and partial completions the failfast bits of a request are those its first bio came with; the bios of a mixed request still have the bits they came with, and those of any other all came with the same |
| `MixedMerge.FailsTheEager` | linux-2.6.34/block/blk-core.c:1677-1702 | hence failing a request, mixed or not, ends exactly the longest run of leading bios that came with all the failfast bits of the first one |
| `MixedMerge.FromBioProper` | linux-2.6.34/block/blk-core.c:1110-1122 | what a request made from a bio starts with: the bits of the bio, or all of them for read-ahead |
| `MixedMerge.ErrorRetryProgresses` | linux-2.6.34/block/blk-core.c:1677-1702 | hence failing a request that is not empty always makes progress |
| `MixedMerge.EagerEndsWholeBios` | linux-2.6.34/block/blk-core.c:1686-1698 | what is failed is a run of whole bios, all at least as eager as the request; the next one is not |
| `Segments.MapFitsRecalc` | linux-2.6.34/block/blk-merge.c:118-170 | on any chain the scatterlist has at most as many entries as segments were counted, although the count also breaks at high pages |
| `Segments.GreedyIsBest` | linux-2.6.34/block/blk-merge.c:118-170 | no segmentation that respects the limits has fewer segments than the greedy map |
| `Segments.MapSgBytes` | linux-2.6.34/block/blk-merge.c:118-170 | the lengths of the entries add up to the data |
| `Segments.MapSgAddrs` | linux-2.6.34/block/blk-merge.c:118-170 | the entries name every byte of the chain, in order |
| `Segments.RecalcMeasure` | linux-2.6.34/block/blk-merge.c:12-70 | the count is that of a segmentation within the limits, and its last segment is the recorded one |
| `Segments.MapSgHolds` | linux-2.6.34/block/blk-merge.c:118-170 | entry by entry: the bvecs of one entry follow each other in memory, cross no segment boundary and, if there are several, are no longer together than a segment may be; a new entry starts only where one of these would fail or clustering is off; each entry has the address of its first bvec and the bytes of all |
| `Segments.RecalcHolds` | linux-2.6.34/block/blk-merge.c:12-70 | the segments counted are those, with a break at high pages besides; the count is their number, and the recorded size that of the last |
| `Segments.SegmentsAreUnique` | linux-2.6.34/block/blk-merge.c:12-170 | only one way to cut a chain is of that kind |
| `Segments.SegmentWithinBoundary` | linux-2.6.34/include/linux/bio.h:274-277 | with boundaries every b bytes, a segment of several bvecs lies between two of them |
| `SegmentMerge.BioMergedIff` | linux-2.6.34/block/blk-merge.c:203-271 | a bio is merged exactly when it fits and the counts add up to at most the segment limit; the data is then that of both in order, and else nothing changes |
| `SegmentMerge.RequestsMergedIff` | linux-2.6.34/block/blk-merge.c:273-308 | two requests are merged exactly when they fit and the counts, less one if the ends continue each other in memory within size and boundary, stay within the limit |
| `SegmentMerge.EstimateHolds` | linux-2.6.34/block/blk-merge.c:203-308 | whatever merges and partial completions a request has been through, mapping it takes at most nr_phys_segments entries |
| `SegmentMerge.MergesStayWithinLimit` | linux-2.6.34/block/blk-merge.c:203-308 | merges never take a request beyond the segment limit of its queue |
| `SegmentMerge.BackMergeCounted` | linux-2.6.34/block/blk-merge.c:224-246 | a back merge keeps the estimate sound, accepted or refused |
| `SegmentMerge.FrontMergeCounted` | linux-2.6.34/block/blk-merge.c:248-271 | a front merge does too |
| `SegmentMerge.JoinCounted` | linux-2.6.34/block/blk-merge.c:273-308 | so does a merge of requests, also when it counts two neighbouring segments as one, and when it is refused after the sizes were updated |
| `SegmentMerge.ChainedAsOne` | linux-2.6.34/block/blk-merge.c:88-112 | the recorded sizes of the two ends are large enough to justify counting one segment less |
| `SegmentMerge.RecalcedCounted` | linux-2.6.34/block/blk-merge.c:72-75 | a recount makes the estimate sound whatever was recorded before |
| `SegmentLoops.RecalcRqSegments` | linux-2.6.34/block/blk-merge.c:12-70 | the nested loops compute the count and the two recorded sizes; there is a cut of the chain into segments within the limits, broken only where a limit or a high page breaks it, and the count is their number |
| `SegmentLoops.RqMapSg` | linux-2.6.34/block/blk-merge.c:118-170 | the loop builds the greedy map: its entries are those of a cut of the chain into segments within the limits, broken only where a limit breaks it |
| `CfqChoose.FindNextIsBest` | linux-2.6.34/block/cfq-iosched.c:744-766 | with equal flags, looking at the neighbours and the first request finds the best of all others; there is none exactly when the request is alone |
| `CfqChoose.FindNextBeats` | linux-2.6.34/block/cfq-iosched.c:744-766 | whatever the flags, it beats every request whose class is not above that of a neighbour |
| `CfqChoose.FindNextIsBestIff` | linux-2.6.34/block/cfq-iosched.c:744-766 | with any flags it finds the best of all others if and only if none of a higher class than the winner exists and, when the flags have decided between the neighbours, none of the winner's class has a better way; the better ways are given by sectors |
| `CfqChoose.FlagsHideTheBest` | linux-2.6.34/block/cfq-iosched.c:744-766 | an input on which it misses a request of a higher class |
| `CfqChoose.FlagsHideTheShortWay` | linux-2.6.34/block/cfq-iosched.c:744-766 | and one on which it misses a shorter way |
| `CfqChoose.ChooseTakesFirst` | linux-2.6.34/block/cfq-iosched.c:610-696 | `cfq_choose_req` returns the one of its arguments that precedes the other |
| `CfqChoose.GoesBackIff` | linux-2.6.34/block/cfq-iosched.c:633-677 | between requests of the same flags behind and ahead of the head, it goes back exactly if the way back is at most cfq_back_max * 1024 bytes in sectors of 512, and cfq_back_penalty times that way is shorter than the way ahead |
| `CfqChoose.BothOutOfReach` | linux-2.6.34/block/cfq-iosched.c:683-694 | of two that are both further behind than that, it takes the one further behind |
| `CfqChoose.FlagsGoFirst` | linux-2.6.34/block/cfq-iosched.c:619-631 | an asynchronous request does not win against a synchronous one, nor data against metadata; the order of the arguments does not matter |
| `CfqChoose.PrecedesIsTotalOrder` | linux-2.6.34/block/cfq-iosched.c:610-696 | precedence is a total order on distinct sectors |
| `CfqGroups.GroupsStayClose` | linux-2.6.34/block/cfq-iosched.c:892-909 | through any number of picks and charges the spread of virtual times stays within the larger of the initial spread and the largest charge |
| `CfqGroups.ServiceIsFair` | linux-2.6.34/block/cfq-iosched.c:892-909 | two groups that stay backlogged are charged the same up to twice that bound |
| `CfqGroups.LeastAdvances` | linux-2.6.34/block/cfq-iosched.c:510-526 | the least virtual time never goes back |
| `CfqGroups.DeltaExact` | linux-2.6.34/block/cfq-iosched.c:492-508 | signed 64-bit differences of wrapped times are exact within 2^63 |
| `CfqGroups.ScaleSliceExact` | linux-2.6.34/block/cfq-iosched.c:483-490 | for every weight a group can have the charge is the true share if and only if the shift, done in an unsigned long, loses no bit: always with 64-bit words, and below 2^20 jiffies with 32-bit words |
| `CfqGroupTree.ServiceTree.Link` | linux-2.6.34/block/cfq-iosched.c:784-810 | linking by wrapped keys keeps the tree in the order of the unwrapped times, and the cached leftmost missing or true |
| `CfqGroupTree.ServiceTree.Erase` | linux-2.6.34/block/cfq-iosched.c:733-739 | erasing keeps the cached leftmost missing or true |
| `CfqGroupTree.ServiceTree.Join` | linux-2.6.34/block/cfq-iosched.c:812-838 | a group that becomes backlogged joins at the end |
| `CfqGroupTree.ServiceTree.Leave` | linux-2.6.34/block/cfq-iosched.c:840-862 | a group that is done leaves |
| `CfqGroupTree.ServiceTree.GetNext` | linux-2.6.34/block/cfq-iosched.c:2066-2077 | picks the least group; min_vdisktime is monotone and at most every group's time |
| `CfqGroupTree.ServiceTree.UpdateMin` | linux-2.6.34/block/cfq-iosched.c:510-526 | min_vdisktime stays without an active group, and else moves on to the leftmost time, or to the active one if the leftmost is unknown; it never goes back |
| `CfqGroupTree.ServiceTree.Served` | linux-2.6.34/block/cfq-iosched.c:892-909 | the charge is added off the tree |
| `CfqGroupTree.ServiceTree.PickAndCharge` | linux-2.6.34/block/cfq-iosched.c:892-909 | a pick with its charge keeps the spread within d, and with d below 2^63 wrapping upsets no comparison |
| `RequestPool.NoLostWakeup` | linux-2.6.34/block/blk-core.c:680-860 | in every reachable state, for nr_requests of at least 1: a direction holds at most 3 * nr_requests / 2 requests, and if a task sleeps there un-woken then a request is out, or the direction is marked starved, or a woken task has yet to retry |
| `RequestPool.NoRequestsForgetsSleepers` | linux-2.6.34/block/blk-core.c:761-764 | the condition is needed: with no requests at all, whatever the congestion threshold, a task sleeps and nothing will wake it |
| `RequestPool.StepSound` | linux-2.6.34/block/blk-core.c:718-860 | every step keeps that, and that a direction is marked full only while it is |
| `RequestPool.RefusedIff` | linux-2.6.34/block/blk-core.c:718-764 | in every reachable state a direction is marked full exactly when at least nr_requests are out; a caller is refused exactly when the scheduler says no, or the direction is full and that caller is neither batching nor exempt, or 3 * nr_requests / 2 requests are out |
| `RequestPool.FreeingWakes` | linux-2.6.34/block/blk-core.c:680-711 | a request that comes back wakes the first sleeper of its direction below the limit, and that of a starved other direction |
| `RequestPool.RequestList.FreedRequest` | linux-2.6.34/block/blk-core.c:699-711 | release and both notifications |
| `RequestPool.RequestList.GetRequest` | linux-2.6.34/block/blk-core.c:718-860 | the tests up to dropping the lock, and the sleep on refusal |
| `RequestPool.RequestList.Allocated` | linux-2.6.34/block/blk-core.c:777-815 | the outcome of the allocation; on failure everything is undone |
| `RequestPool.RequestList.PutRequest` | linux-2.6.34/block/blk-core.c:1070-1096 | the last reference to a request of the pool gives it back; others change nothing |
| `TagSteps.TagsNeverShared` | linux-2.6.34/block/blk-tag.c:282-384 | in every interleaving of queues that share a map no two requests have one tag, and between operations a bit is set exactly when tag_index holds a request with that tag |
| `TagMap.ResizeOverruns` | linux-2.6.34/block/blk-tag.c:107-266 | an input on which growing copies past the end of the new map: real depth 10, nr_requests 4, new depth 12 |
| `TagMap.TagsAreUnique` | linux-2.6.34/block/blk-tag.c:337-384 | tags are not shared |
| `TagMap.Tags.StartTag` | linux-2.6.34/block/blk-tag.c:337-384 | the lowest free tag below the depth, for an asynchronous request below the tags kept back: two, or one of two; or none and nothing changed |
| `TagMap.SyncFindsTag` | linux-2.6.34/block/blk-tag.c:351-371 | while fewer synchronous requests have a tag than are kept back for them, the next one finds a tag |
| `TagMap.Tags.EndTag` | linux-2.6.34/block/blk-tag.c:282-316 | the tag is free again and no other is touched |
| `TagMap.Tags.FindTag` | linux-2.6.34/include/linux/blkdev.h:990-996 | finds exactly the request in flight with that tag, also above a lowered limit |
| `TagMap.Tags.Resize` | linux-2.6.34/block/blk-tag.c:220-266 | shrinking lowers only the limit for new tags; growing fails for a shared map and without memory, changing nothing, copies past the end of the new map if and only if the depth, limited to twice nr_requests, is below the real depth of the old one, and else keeps every tag |
| `TagMap.Tags.Invalidate` | linux-2.6.34/block/blk-tag.c:399-405 | every tag of the queue is freed and no other; the requests go back in the order they were started |

## Left out

- Tag-ordered barriers across requests: the hardware orders them; their phase bookkeeping is part of the all-modes results.
- Requests that are not file system requests in the ordering of barriers: the code exempts them.
- `bar_rq` in partial completion: its bios are left untouched on purpose.
- Bios without data: discards and empty barriers have no bvecs to complete or to map.
- Padding and drain entries of the scatterlist: they are added behind the data.
- `SegmentMerge.Build`: a partial completion may leave any chain with data, which covers more than the chains it can leave.
- `MixedMerge.Build`: request-level fields other than the failfast bits are in `CompletionRequest` only.
- Queue plugging, tracing, disk statistics, I/O priorities and CPU affinity.
- The one-hit cache `last_merge` and the choice between back and front merge in `elv_merge`.
- `elvpriv` and the switch of schedulers.
- `last_sector` of the deadline scheduler, which nothing reads, and changes of its tunables at run time.
- Idling, preemption, cooperating queues, reference counts and weight changes in CFQ.
- The choice of the waking task: a wakeup takes the first sleeper; `ioc_batching` may say anything.
- Contents of the Camellia S-boxes, and the byte order of blocks: a pair of words is one value.
- What is left over behind the last whole block in CBC, and how the scatterlist walk cuts a message: chunks are any cut of the blocks into buffers.
- `crypto_remove_spawns` with a replacement algorithm.
- The memory ordering of tag bits: steps are atomic.
- `TagMap.Tags.Invalidate`: the order is that of a queue without a barrier sequence in progress, where requeueing is at the front.
- `TagMap.Tags.Resize`: says nothing about the map after the copy past its end.
- `Spawns.Registry.RemoveSpawns`: says nothing about the lists after the BUG_ON.
- `BarrierStuck.DrainSticksIff`, `BarrierStuck.StuckForever`: about continuations that do not switch between draining and tags in the middle of the sequence; such a switch lets requests pass or gets a stuck queue going.
- `RequestPool.RequestList.PutRequest`: does not model the tests that the request has no bio left and is on no list and no hash.
- BUG_ONs about the kind of a request (elevator.c:636), about bits that the model does not have (`rq_mergeable` in `__make_request`, `ELV_ON_HASH` in `blk_dequeue_request`), and about `nr_sync` and `nr_cfqq` in CFQ.
