# forkrun: a verified model of the streaming engine

forkrun cuts one input stream into batches, hands them to workers through a
lock-free ring, recovers the batches of workers that die, and puts the outputs
back into input order. This project models the protocols that make this correct
and proves their promises over every input, every run and every interleaving.
`dafny verify dfyconfig.toml` checks all of it.

| files | part of the engine |
|---|---|
| ClaimProtocol, ClaimConservation, ClaimInvariant, ClaimTheorems, ClaimProgress, ClaimOutputs, ClaimCounterexamples | tickets, transaction records, escrow, recovery, supervision loop, where each gets to on its own, output files, retry budget |
| MinHeap, Coalescer, Framing, Orderer | array heaps, interval coalescer and hole punchers, pipe buffer, ordered output |
| Stream, VectorScan, LineScan, LineChain, LineRun, HandoffChain, HandoffRun, ByteScan, Indexer, EndToEnd, CrashOrder | delimiter search, the three chunk paths, the -n and -L chains, chunk boundaries, scanners and crashing workers to stdout |
| Cluster, ClusterOrder | several nodes: their rings under one resume horizon, and the orderer behind all of them |
| Resume, ResumeBytes, Seqlock | checkpoint, reading it back, the resume filter, the byte path under it; publication of the ledger |
| IngestLimit, IngestMeter, IngestRun, IngestTuning, IngestHeld, IngestCases, ScanCommit, Registry | NUMA ingest with indexers and scanners: queue bound and its tuning, meta-ring lifetime, held tickets; write-index commits, supervision registry |

Each protocol among processes is a state machine: every load, store, fetch-add
or pipe operation that another process can observe is one step, and the theorems
are about every state of every run. In the claim protocol a worker may die at
every step. The heaps, trackers, pipe buffer, orderer, chunk scans, vector scans,
collapse and filter loops, tuner and registry are imperative methods and classes
like their originals, each proved against a specification function or predicate
whose properties the lemmas beside it state.

## Hypotheses

- Steps are sequentially consistent; `pread`, pipe writes, truncations and punches
  that the code does not check for failure succeed in full.
- Byte offsets and ticket numbers do not overflow 64 bits. Where the code relies
  on 22, 32 or 42 bits the widths are modelled.
- The scanner does not reuse the ring slot of a ticket that is not yet
  acknowledged (`ClaimProtocol.WithinWindow`); the window tests of the code bound
  the distance to the read index only.
- Consecutive loads are one step only where the values move one way, so that the
  decision also follows from their values at the last load: recovery's
  classification, one node's counters at the frontier pin, a tuning round's sums.
- A chunk's batches become visible in one step, the scan of the chunk; the stores
  after it are steps of their own.  Chunks that ingest never publishes are those
  that stay waiting for ever, whatever the layout says they would have held.
- A tuning round's two products fit 64 bits (`IngestRun.Fits64`): at 8192 workers
  that is 2^51 bytes of input.  The steal threshold between nodes is the same for
  every pair.
- The scanners' ranges are disjoint and start at or above the resume horizon, and
  the committed horizon covers bytes that some node acknowledged. The chunk paths and
  the coalescer are proved to provide this.
- Every batch of a chunk is flushed to one ring, once (`ClusterOrder.Scanned`). The
  supervision of each node's workers is taken to run on its own; the one loop for
  all nodes makes fewer runs.

The two loads of write index and end flag after an overshoot
(forkrun_ring.c:6334, forkrun_ring.c:6338) are not taken as one snapshot: they are
separate steps, and what that costs is stated exactly.

## Where the code does not keep its promise

Each of these is a lemma with a concrete case or run, and the exact condition under
which the promise holds is proved for all cases.

1. These steps lose a published batch, and no others do
   (`ClaimTheorems.LossExactly`): the ring-side read of an escrow packet that tests
   it against a write-index snapshot older than the packet
   (`StaleSnapshotLoses`, forkrun_ring.c:6212-6249); either escrow read of a packet
   once exactly a ring of tickets has been taken since its own, which counts its
   slot as recycled one ticket too early (`WindowEdgeLoses`,
   forkrun_ring.c:1488-1491); the overshoot test whose two loads straddle the last
   publication (`SplitLoadLoses`, forkrun_ring.c:6334-6342); recovery of an empty
   batch below the committed horizon, which is taken for an acknowledged one
   (`EmptyBatchLoses`, forkrun_ring.c:7153-7168). What such a batch had emitted
   stays in the output file: the file is the committed output if and only if there
   are no such bytes (`OutputIsCommitted`, `StrayOutput`).
2. When all worker slots have been freed, packets are left in the escrow pipe if
   and only if the last slot was freed on a death between batches, with exit code 0
   or with the pending flag clear at the end of the input, while the pipe held
   packets: only the flag is looked at (`ClaimTheorems.StrandedIff`,
   `ErrorExitStrandsEscrow`, forkrun_ring.c:7062-7086).
3. A batch tried more often than the retry limit is not counted as poisoned if and
   only if a worker dies between publishing the attempt that would have counted it
   and counting: the next attempt carries another kill count
   (`ClaimOutputs.RetryBudget`, `PoisonMissed`, forkrun_ring.c:6717-6749).
4. The resume filter cuts a batch at the start of a completed island and drops the
   bytes behind the island too: nothing is lost exactly when no batch reaches
   beyond the island that cuts it (`Resume.ResumeCoversIff`, `Resume.TornBatch`,
   forkrun_ring.c:3917-3949).
5. The NUMA byte path adds the batch length to a start the filter may have moved,
   so later batches of the chunk start too far ahead. Every incomplete byte is
   published if and only if no batch is torn and no batch with an incomplete byte
   follows, in its chunk, one whose first incomplete byte was deeper inside it;
   without islands, if and only if no batch but a chunk's last reaches over the
   horizon. A batch is published with its start past its end if and only if the
   drift has taken the start there, to an incomplete byte; without islands that is
   a last batch shorter than the drift (`ResumeBytes.ResumedBytesCoverIff`,
   `CoversIffHorizon`, `InvertedIff`, `InvertedIffShort`, `ByteDriftLoses`,
   forkrun_ring.c:5509-5598).
6. The byte cap of a line batch cuts a record if and only if a read ends inside the
   first record that is over the cap (`LineScan.CapExact`); for every read window
   there is such an input (`LineScan.CapCutsRecord`, `LineRun.CutChunkArises`,
   forkrun_ring.c:5660-5704).
7. The tuned queue limit stays between 4 and its share of the ring in every run if
   and only if the run is not a resumed one of the line path
   (`IngestCases.LimitIff`). A resumed run passes over completed chunks without a
   batch, so few batches can be visible far into the input: at a floor of 2^30 the
   32-bit ceiling wraps to 0 and the limit with it, and ingest publishes nothing
   more, however the run goes on (`IngestCases.IngestHangs`, `LimitDrops`,
   forkrun_ring.c:3510-3604). With
   512 workers on each node and chunks of 2 MiB that is 8 TiB into the input.
8. The frontier pin looks at counters that a claim moves, so it does not cover a
   chunk that is claimed but not read. When a scanner is held up between its claim
   and its read while a ring of chunks goes to the other nodes, the meta slot it then
   reads is that of another chunk. Held tickets are safe in every run if and only if
   there is one node, or the pin does what its comment says for chunks that nobody
   has read, up to a whole ring
   (`IngestCases.HeldSafeIff`, `HeldTicketOvertaken`, forkrun_ring.c:3246-3285).
   The exact step is `IngestHeld.PublishLosesIff`.

One more arm of the code would lose lines if it ran: refilling the read buffer in
the middle of an exact-L chunk forgets the delimiters passed since the last batch
(forkrun_ring.c:5135-5151). `HandoffChain.WindowCovers` shows that one read always
covers a raw chunk.

## Model

| member | source | states |
|---|---|---|
| ClaimTheorems.ExactlyOnce | forkrun_ring.c:6153-6405 | in every state of every run with deaths anywhere, each ticket is in exactly one of: untaken, one worker's hand, escrow, committed, lost |
| ClaimTheorems.CommitsAtMostOnce | forkrun_ring.c:6814-6965 | no two workers hold one ticket and no ticket commits twice |
| ClaimTheorems.ClassifyExact | forkrun_ring.c:7048-7218 | recovery never finds a stale generation or a recycled slot, and takes a claimed batch for done exactly when it is empty and below the horizon |
| ClaimTheorems.BelowHorizonAcked | forkrun_ring.c:7153-7168 | a non-empty batch of this ring at or below the horizon has been acknowledged, however many bytes of other rings the horizon covers |
| ClaimTheorems.LossExactly | forkrun_ring.c:6212-6346 | a step newly loses a published batch if and only if its guard is one of those listed above: the stale snapshot, the slot counted as recycled at either escrow read, the overshoot test, the empty batch below the horizon |
| ClaimTheorems.NoLossRun | forkrun_ring.c:6153-6405 | a run without loss steps has lost nothing |
| ClaimTheorems.CompleteAtEof | forkrun_ring.c:6258-6271 | end of input is returned only with the scanner finished, the read index past the write index and escrow empty; then, with no one else holding a ticket, every batch not lost is committed |
| ClaimProgress.EofReturned | forkrun_ring.c:6258-6271 | with the scanner finished, every ticket taken and the pipe empty, a worker anywhere in the claim loop, also with an overshot ticket in hand, returns the end of the input within 13 steps of its own |
| ClaimProgress.TicketTaken | forkrun_ring.c:6205-6225 | with a published ticket waiting, a worker in the claim loop comes out with exactly that ticket within 10 steps of its own |
| ClaimProgress.PacketTaken | forkrun_ring.c:6165-6249 | with a live packet at the front of the pipe, a worker told to drain or with nothing in the ring comes out with that packet and its kill count within 11 steps of its own |
| ClaimProgress.HeldTaken | forkrun_ring.c:6332-6372 | a worker waiting for the ticket it holds comes out with it within 3 steps of its own once it is published |
| ClaimProgress.TicketServed | forkrun_ring.c:6205-6405 | and goes on to commit it: within 15 steps of its own the order pipe has that ticket's packet with all it emitted |
| ClaimProgress.PacketServed | forkrun_ring.c:6165-6249 | the same for an escrowed batch, within 16 |
| ClaimProgress.OrphanReturned | forkrun_ring.c:7195-7218 | a death whose batch must be run again: within 5 steps of the supervision loop the file is cut back, the batch is in the pipe with one kill more and the drain flag set, and the slot has its next generation, or the loop ends at the cap |
| ClaimProgress.VerdictSettled | forkrun_cleanroom.c:3768-3900 | any other death: the two fatal verdicts end the loop, a normal exit frees the slot, everything else brings the next generation or ends at the cap, and the drain is told the file's length exactly for exits 0 to 2 |
| ClaimProgress.DeadBatchServed | forkrun_cleanroom.c:3768-3900 | a batch whose worker dies is committed by the loop and the new worker alone |
| ClaimTheorems.MissingWhenAllFreed | forkrun_cleanroom.c:3572-3904 | when the supervision loop has freed every slot, a batch is missing exactly if untaken, in escrow or lost |
| ClaimTheorems.StrandedIff | forkrun_ring.c:7062-7086 | then the escrow pipe holds packets if and only if the last slot was freed from an idle record, on exit 0 or with the pending flag clear at the end of the input, while the pipe held them; and they are the same packets |
| ClaimTheorems.TicketsDense | forkrun_ring.c:6217-6225 | the k-th fetch-add of a run yields ticket k |
| ClaimTheorems.HandedPublished | forkrun_ring.c:6332-6405 | a worker runs only a batch below the write index, read from the slot its ticket names |
| ClaimInvariant.StepInv | forkrun_ring.c:6446-6539 | every step of workers, scanner, orderer, deaths and supervision keeps conservation, records, outputs, ledger, retries and launches in order |
| ClaimInvariant.RunInv | forkrun_cleanroom.c:3572-3904 | the invariant holds in every state of every run |
| ClaimConservation.DepositConserves | forkrun_ring.c:7195-7218 | handing a dead worker's batch to escrow moves one ticket and creates none |
| ClaimConservation.BeginClaimConserves | forkrun_ring.c:6446-6450 | beginning a claim moves no ticket |
| ClaimConservation.TakeTicketConserves | forkrun_ring.c:6217-6225 | the fetch-add moves exactly the next untaken ticket into one worker's hand |
| ClaimOutputs.OutputIsCommitted | forkrun_ring.c:6467-6539 | a slot's output file is its committed outputs over all generations plus what the batch in flight has written, if and only if no stood-down execution had emitted anything; its length always accounts for those bytes |
| ClaimOutputs.StrayExactly | forkrun_ring.c:7153-7168 | bytes go astray in a step if and only if recovery stands down an execution that had emitted them |
| ClaimOutputs.PacketsNameOutput | forkrun_ring.c:6946-6965 | an order packet names exactly the bytes its execution emitted, and packets of one slot name disjoint ranges in order, whatever was stood down |
| ClaimOutputs.PacketsConsecutive | forkrun_ring.c:6946-6965 | successive packets of one slot name ranges exactly as far apart as bytes went astray between them: adjacent if and only if none did |
| ClaimOutputs.SignalsBelowCommitted | forkrun_cleanroom.c:2386-2415 | no frontier signalled to the drain exceeds the committed length by more than the bytes astray |
| ClaimOutputs.SignalExact | forkrun_cleanroom.c:2386-2415 | when signalled, a frontier is the committed length plus the bytes astray |
| ClaimOutputs.NeverStoodDown | forkrun_ring.c:7153-7168 | without loss steps recovery never clears a record it did not re-deposit |
| ClaimOutputs.ExecutionsExact | forkrun_ring.c:6724-6799 | of the published attempts of a batch exactly the first max(1, limit) may run, and one at most would be counted poisoned |
| ClaimOutputs.RunsExact | forkrun_ring.c:6717-6749 | each published attempt goes on to be counted and run exactly once, unless its worker dies in between or is still there |
| ClaimOutputs.RetryBudget | forkrun_ring.c:6717-6799 | in every run a batch is executed at most max(1, limit) times, and counted poisoned once if tried more often, unless a worker died (or is) between publishing and counting the attempt that would count it; the counter counts these |
| ClaimOutputs.KillsIncrease | forkrun_ring.c:7195-7213 | the kill counts of one batch strictly increase from execution to execution |
| ClaimOutputs.ArmedExactly | forkrun_ring.c:6599-6626 | in every state of every run a worker is armed for a coredump exactly while it runs a retry whose failure would be poisoned |
| ClaimOutputs.RecordsCurrent | forkrun_cleanroom.c:2187-2208 | every claimed or committing record carries the generation the supervisor holds for its worker id |
| ClaimOutputs.ForksBounded | forkrun_cleanroom.c:3835-3855 | with a nonnegative cap a run forks at most workers × (cap + 1) workers |
| ClaimCounterexamples.StaleSnapshotLoses | forkrun_ring.c:6212-6249 | a reachable state in which a live escrow packet is refused and lost |
| ClaimCounterexamples.SplitLoadLoses | forkrun_ring.c:6332-6342 | a reachable state in which a published ticket is abandoned |
| ClaimCounterexamples.EmptyBatchLoses | forkrun_ring.c:7153-7168 | a reachable state in which recovery drops an empty batch that was never acknowledged, whatever it had emitted |
| ClaimCounterexamples.StrayOutput | forkrun_ring.c:7153-7168 | a reachable state with a byte of that batch in an output file that has nothing committed |
| ClaimCounterexamples.WindowEdgeLoses | forkrun_ring.c:1488-1491 | reachable states in which each escrow read drops a packet whose slot has not been written again |
| ClaimCounterexamples.PoisonMissed | forkrun_ring.c:6717-6749 | with limit 1, a reachable state with a batch tried three times and never counted poisoned |
| ClaimCounterexamples.ErrorExitStrandsEscrow | forkrun_ring.c:7062-7086 | a reachable state with all slots freed and a published batch left in the escrow pipe |
| MinHeap.SiftUp | forkrun_ring.c:7259-7270 | shifting up restores heap order and adds exactly the new node |
| MinHeap.SiftDown | forkrun_ring.c:7272-7286 | shifting down restores heap order and removes exactly the old root |
| MinHeap.RootLeast | forkrun_ring.c:7272-7286 | the root of a heap-ordered table carries the least key |
| MinHeap.Heap.Reserve | forkrun_ring.c:7244-7258 | growth keeps the contents and is refused exactly past the ceiling |
| MinHeap.Heap.Push | forkrun_ring.c:7396-7417 | the contents gain exactly the node, and it is refused exactly when the table is full and cannot double under the ceiling |
| MinHeap.Heap.Pop | forkrun_ring.c:7419-7431 | the node of least key leaves and nothing else |
| Coalescer.FrontierMaximal | forkrun_ring.c:7611-7624 | the frontier is the largest p with everything below p reported |
| Coalescer.Tracker.Report | forkrun_ring.c:7611-7624 | after any intervals in any order, frontier and islands together are exactly what was reported, every island starts above the frontier, and an interval is refused exactly when it starts beyond the frontier and the heap is full for good |
| Coalescer.Tracker.Absorb | forkrun_ring.c:7616-7620 | absorbing reached islands changes nothing about what is covered |
| Coalescer.Tracker.Restore | forkrun_ring.c:7575-7587 | a tracker started from a checkpoint accounts for its islands too, all of them when the heap may come to hold them |
| Coalescer.Puncher.Ack | forkrun_ring.c:7482-7505 | each packet is absorbed unless the heap is full for good, exactly the whole pages below the frontier are released, and after a failed punch none more |
| Coalescer.Puncher.PunchedReported | forkrun_ring.c:7884-7909 | every released byte was acknowledged |
| Coalescer.IndexPuncher.Ack | forkrun_ring.c:8650-8682 | with acknowledged batch indices and the ring's end offsets, only bytes below the frontier batch's end are released |
| Coalescer.IndexPuncher.PunchedAcked | forkrun_ring.c:8650-8682 | a batch with a released byte was acknowledged |
| Framing.RecordsAppend | forkrun_ring.c:7642-7667 | cutting the rest together with the next read continues the cut of the whole stream |
| Framing.SplitIrrelevant | forkrun_ring.c:7642-7667 | however the pipe's bytes are split into reads, the same packets come out |
| Framing.PipeBuffer.Read | forkrun_ring.c:7642-7667 | the in-place buffer hands on exactly the next whole packets of the stream |
| Orderer.PackKeyOrder | forkrun_substrate.h:65-69 | on fields that fit, packed keys compare as (major, minor) pairs |
| Orderer.PackKeyCollides | forkrun_substrate.h:65-69 | a minor of 2^22 has the key of minor 0, so the 22-bit bound is needed |
| Orderer.Ledger.Emit | forkrun_ring.c:7611-7640 | an emitted packet's range enters the ledger and its length the byte count |
| Orderer.Engine.Receive | forkrun_ring.c:7669-7798 | pending and emitted together are what was received, a packet is refused exactly when the heap is full and cannot grow, emitted packets carry the expected keys in turn, and no pending packet could leave |
| Orderer.Engine.Serve | forkrun_ring.c:7669-7798 | over the packets of a read: while the heap may come to hold them, all are received |
| Orderer.Engine.SentPrefix | forkrun_ring.c:7736-7797 | then the emission is the plan up to the first packet that was not sent |
| Orderer.Engine.Release | forkrun_ring.c:7736-7797 | the expected packet leaves the heap, is emitted, and the cursor follows its count and flag |
| Orderer.MaximalPrefix | forkrun_ring.c:7669-7798 | for any arrival order the emission is exactly the plan up to the first packet missing, and all of it with an empty heap once all have arrived |
| Stream.Input.EdgeUnique | forkrun_ring.c:4874-4884 | a line number names one boundary |
| Stream.TilesContent | forkrun_ring.c:3998-4023 | batches that tile a range carry exactly its bytes in order |
| Stream.TilesOnce | forkrun_ring.c:3998-4023 | no two batches of a tiling share a byte |
| VectorScan.BlsrShifts | forkrun_ring.c:139-143 | clearing the lowest set bit turns the n-th set bit into the (n-1)-th |
| VectorScan.MaskNth | forkrun_ring.c:113-144 | the n-th bit of a match mask is the n-th delimiter's position |
| VectorScan.MoveMask | forkrun_ring.c:113-115 | the 32-bit mask of a comparison with the delimiter |
| VectorScan.ScanAvx2 | forkrun_ring.c:107-157 | one past the n-th delimiter, or nothing exactly when fewer exist |
| VectorScan.CountAvx2 | forkrun_ring.c:161-176 | the popcount count is the scalar count |
| VectorScan.ClearShifts | forkrun_ring.c:205-209 | clearing the first full byte of a lane turns the n-th into the (n-1)-th |
| VectorScan.FirstFull | forkrun_ring.c:206-211 | trailing zeros over eight is the index of the first full byte |
| VectorScan.ScanNeon | forkrun_ring.c:184-239 | as the AVX2 scan, two 64-bit lanes at a time |
| VectorScan.CountNeon | forkrun_ring.c:242-260 | the lane count is the scalar count |
| VectorScan.TrySimdScan | forkrun_ring.c:263-286 | a hit is the n-th delimiter; with a vector unit a miss means fewer than n |
| VectorScan.ScanNthDelim | forkrun_ring.c:311-326 | for n ≥ 1 the answer is the same on every dispatch |
| VectorScan.NthHitUnique | forkrun_ring.c:311-326 | the search has one right answer |
| LineScan.GatheredLines | forkrun_ring.c:5660-5731 | a round advances by exactly the lines it counts, at most its target, and stops short only at the chunk's end or the byte cap |
| LineScan.CapBetweenRecords | forkrun_ring.c:5689-5704 | if one read covers the rest of the chunk the byte cap ends a batch between records |
| LineScan.CapExact | forkrun_ring.c:5660-5704 | the cap cuts a batch if and only if a record it could still take, not its first, is over the cap; it cuts at the first such record, and inside it if and only if a read ends inside it, then where the last such read ended |
| LineScan.CapCutsRecord | forkrun_ring.c:5660-5704 | for every read window, every target and a range of caps, a chunk with a record that is cut |
| LineRun.CutChunkArises | forkrun_ring.c:3746-3831 | ingest and indexer lay that input out so that a scanner is given this chunk |
| LineScan.JumpAgrees | forkrun_ring.c:5636-5658 | a vector jump below the safe end lands where line by line would |
| LineScan.Gather | forkrun_ring.c:5636-5731 | jump and loop together compute the line-by-line result |
| LineChain.RoundTarget | forkrun_ring.c:5600-5634 | a round's target is what the batch lacks, at least one, and less only for the rest of the budget, which it never exceeds |
| LineChain.ScanLines | forkrun_ring.c:5600-5868 | for any batch sizes, timers and caps a chunk's batches tile its records up to the limit, minors run 0..k with only k flagged; batch k has the size in force in round k, and fewer lines only at the chunk's end, at the limit or at the byte cap; the budget is never overrun, so the rewind arm never runs |
| LineChain.MidGather | forkrun_ring.c:5636-5731 | a round in mid-chunk finds a line, moves ahead and keeps the tiling |
| LineRun.StepInv | forkrun_ring.c:5261-5310 | gate, cutoff escape, skip, scan, the cutoff store before the last flush, the flush and the count store keep every published count at min(limit, lines so far) |
| LineRun.CutoffExact | forkrun_ring.c:5774-5782 | in every reachable state the cutoff is set, to the chunk the limit falls into and no other, before that chunk's last batches are out, and every chunk after it that waits can then escape |
| LineRun.GateNeverHangs | forkrun_ring.c:5261-5310 | as long as a chunk is not done, it or one before it is past the gate or can pass it |
| LineRun.DeliversFirstLines | forkrun_ring.c:5261-5310 | in every reachable state the batches of the first n chunks are consecutive from byte 0 and hold their lines up to the limit; once the limit is among them the batches of all chunks are exactly the first limit lines, sentinel or not |
| LineRun.MinorsFit | forkrun_ring.c:5815-5856 | every chunk is numbered 0..k with only k flagged, and k is bounded by its raw length |
| HandoffChain.PendingIsMod | forkrun_ring.c:5045-5056 | the open batch holds the count modulo L |
| HandoffChain.PendingAdd | forkrun_ring.c:5045-5056 | adding lines to the count adds them to the open batch or fills it |
| HandoffChain.SearchBatch | forkrun_ring.c:5088-5134 | the jump is to the delimiter that fills the batch or spends the budget |
| HandoffChain.NextBatch | forkrun_ring.c:5088-5195 | a hit seals the open batch with exactly L lines, or the limit's last one |
| HandoffChain.ScanChunk | forkrun_ring.c:5044-5236 | a raw chunk's batches are exact, tile on from the handoff, are numbered, and its own handoff is the open batch and the delimiters so far |
| HandoffChain.WindowCovers | forkrun_ring.c:1163-1174 | a scanner's read buffer holds any raw chunk of line-mode ingest, whose minors fit 22 bits |
| HandoffRun.StepInv | forkrun_ring.c:4894-5042 | gate, escape, skip, scan, cutoff store and the two handoff stores keep every handoff in its closed form |
| HandoffRun.CutoffExact | forkrun_ring.c:5180-5221 | in every reachable state the cutoff is the chunk the limit falls into or none, is set once that chunk is past its store, and every chunk after it that waits can then escape |
| HandoffRun.HandoffRefinesSequentialSplit | forkrun_ring.c:4890-5240 | in every reachable state the batches of the first n chunks are consecutive from byte 0, exactly L lines each, up to the open batch; once the limit or the end is among them the batches of all chunks are the sequential split, the first min(limit, total) lines, sentinel or not |
| HandoffRun.HandoffClosedForm | forkrun_ring.c:5216-5228 | a chunk hands on its delimiters so far and the edge after the last whole batch |
| HandoffRun.MinorsFit | forkrun_ring.c:5157-5214 | minors run 0..k with only k flagged and k at most the chunk's length |
| HandoffRun.GateNeverHangs | forkrun_ring.c:4886-4889 | as long as a chunk is not done, it or one before it is past the gate or can pass it |
| ByteScan.ScanBytes | forkrun_ring.c:5509-5598 | a chunk's batches are L bytes each but the last, tile its share of the limit, are numbered, and fit the minor range |
| ByteScan.DeliversFirstBytes | forkrun_ring.c:5335-5349 | with the batches of the first n chunks out, exactly their bytes up to the limit are delivered; once the limit is among them, exactly the first limit bytes over all chunks |
| Indexer.SearchChunk | forkrun_ring.c:3767-3790 | the backward search finds the last delimiter of the raw chunk, whatever the window |
| Indexer.IndexChunk | forkrun_ring.c:3746-3831 | an indexer publishes what its branch decides, and waits exactly when its chunk has bytes but no delimiter and its predecessor is not published |
| Indexer.BoundariesExact | forkrun_ring.c:3746-3831 | in every interleaving a published boundary is one past the last delimiter before the raw end (0 if none), the sentinel's is the stream end |
| Indexer.FrontBeforeBoundary | forkrun_ring.c:5245-5259 | boundaries never decrease and tile the stream at record edges |
| Indexer.LowestPublishes | forkrun_ring.c:3801-3826 | the lowest unpublished chunk never has to wait |
| EndToEnd.PacketsArePlan | forkrun_ring.c:7736-7797 | numbered chunks within 22 and 42 bits form a plan of the orderer |
| EndToEnd.EmittedOf | forkrun_ring.c:7669-7798 | for any completion order and any chunks still unscanned, the emission is a prefix of the leading chunks' packets, and all of them once they are in |
| EndToEnd.ServedInOrder | forkrun_ring.c:7669-7798 | the emitted input is an unbroken stretch from byte 0 that never passes the leading chunks' end, and reaches it once their packets are in |
| EndToEnd.LinePathInOrder | forkrun_ring.c:5600-5868 | line mode end to end in every reachable state: the lines of the leading chunks in input order; once the limit is among them, the first limit lines and nothing after |
| EndToEnd.HandoffPathInOrder | forkrun_ring.c:4890-5240 | exact-L mode end to end in every reachable state: the sequential split's batches in input order, all of it once the limit or the end is reached |
| EndToEnd.BytePathInOrder | forkrun_ring.c:5509-5598 | byte mode end to end: the bytes of the leading chunks up to the limit in input order, for raw chunks as ingest clamps them |
| ByteScan.BlocksFit | forkrun_ring.c:3052-3062 | the clamp of the chunk size keeps a chunk's batches within 2^22 |
| EndToEnd.FlatPlan | forkrun_ring.c:4010-4021 | on one node batch indices alone form a plan |
| CrashOrder.EmitsInTicketOrder | forkrun_ring.c:7736-7797 | on one node, in every state of every run with deaths, the orderer has emitted tickets 0, 1, 2, ... up to the first whose packet it has not read |
| CrashOrder.EverythingLeaves | forkrun_ring.c:6258-6271 | at the end of the input with no batch lost every batch has left exactly once, in order, and the heap is empty |
| Cluster.RingRun | forkrun_ring.c:6153-6405 | whatever all nodes do, each node goes through a run of its own ring, with the other nodes' batches as foreign bytes; so every theorem about one ring's runs holds of it |
| Cluster.NodeInv | forkrun_ring.c:7195-7218 | the whole invariant of the claim protocol holds on every node in every reachable state |
| Cluster.BelowHorizonAcked | forkrun_ring.c:7153-7168 | on every node, a non-empty batch at or below the one horizon has been acknowledged |
| ClusterOrder.NodesServe | forkrun_ring.c:7669-7798 | in every state of every run of all nodes with deaths, the orderer is sent packets of the chunks' batches with their committed lengths, each once |
| ClusterOrder.LinesInOrder | forkrun_ring.c:5600-5868 | line mode from scanners through dying workers of several nodes to the orderer: the lines of the leading chunks in input order, up to the limit |
| ClusterOrder.BatchesInOrder | forkrun_ring.c:4890-5240 | the same in exact-L mode |
| ClusterOrder.BytesInOrder | forkrun_ring.c:5509-5598 | the same in byte mode |
| ClusterOrder.EverythingLeaves | forkrun_ring.c:6258-6271 | when every node is at the end of the input with no batch lost and all packets are read, every batch of every chunk has left, in order |
| Resume.Collapse | forkrun_ring.c:8841-8857 | the collapsed islands cover the same bytes and no two touch |
| Resume.Load | forkrun_ring.c:8887-8902 | loading drops nothing but empty intervals and what exceeds the table |
| Resume.JaggedExact | forkrun_ring.c:7625-7636 | the published horizon and islands cover only completed bytes, and all of them with at most 1024 islands |
| Resume.Checkpoint | forkrun_ring.c:8785-8902 | dumped and loaded again, a checkpoint declares complete only bytes that completed or, exactly when the ledger's horizon is 0, all that the hole puncher saw acknowledged, and all completed ones with at most 1024 islands |
| Resume.FallowAcked | forkrun_ring.c:7884-7909 | below the byte hole puncher's frontier every byte was acknowledged |
| Resume.FallowBatchAcked | forkrun_ring.c:8650-8682 | below the index hole puncher's frontier every byte is one of an acknowledged batch |
| Resume.Filter | forkrun_ring.c:3917-3949 | the filter loop computes what is published and where it leaves the start |
| Resume.FilterAvoids | forkrun_ring.c:3917-3949 | what the filter publishes lies in the batch and is not complete |
| Resume.ResumeNeverRepeats | forkrun_ring.c:3917-3949 | a resumed run publishes no completed byte and no byte twice |
| Resume.ResumeCoversIff | forkrun_ring.c:3940-3945 | completed and republished bytes are the whole input if and only if no batch is torn |
| Resume.TornBatch | forkrun_ring.c:3940-3945 | a batch that loses bytes behind an island |
| ResumeBytes.ScanResumed | forkrun_ring.c:5509-5598 | the resumed byte loop publishes the specified outputs, batch by batch |
| ResumeBytes.ByteChunk.CoversIff | forkrun_ring.c:5565-5589 | of a chunk every incomplete byte is published if and only if no batch is torn and no batch with an incomplete byte follows one whose first incomplete byte was deeper inside it |
| ResumeBytes.ResumedBytesCoverIff | forkrun_ring.c:5565-5589 | the same over all chunks of the run |
| ResumeBytes.ByteChunk.LeadIff | forkrun_ring.c:3922-3945 | the filter moves a start exactly for a batch over the horizon, or starting in an island that ends before the batch |
| ResumeBytes.ByteChunk.CoversIffHorizon | forkrun_ring.c:5565-5589 | without islands nothing is lost if and only if no batch but the last of a chunk reaches over the horizon |
| ResumeBytes.ByteChunk.NeverRepeats | forkrun_ring.c:5565-5589 | whatever the drift, no completed byte is published and no byte twice |
| ResumeBytes.ByteChunk.InvertedIff | forkrun_ring.c:3998-4003 | a batch is published with its start past its end if and only if its drifted start is past its end and incomplete |
| ResumeBytes.ByteChunk.InvertedIffShort | forkrun_ring.c:5565-5589 | without islands it is the chunk's last batch, when shorter than the lead of the one over the horizon |
| ResumeBytes.ByteDriftLoses | forkrun_ring.c:5565-5589 | a resumed byte chunk that loses bytes, and one with a batch from 11 to 10 |
| Seqlock.AcceptedIsOneGeneration | forkrun_ring.c:8803-8816 | with fewer than 2^31 publishes during an attempt, an accepted snapshot is one published generation |
| Seqlock.AcceptsIff | forkrun_ring.c:8803-8816 | an attempt is accepted exactly when no publish was under way at its first load and none has begun since |
| Seqlock.GenerationsArePublishes | forkrun_ring.c:7625-7639 | every generation is the cells some publish left |
| IngestLimit.GlobalMax | forkrun_ring.c:3529-3530 | a node's share is at least 4, and for up to 512 nodes it is the largest with which all shares together are within half the ring |
| IngestLimit.RangeKeptIff | forkrun_ring.c:3510-3604 | one round keeps the limit between 4 and the share for every prior limit and meter if and only if floor and ceiling survive 32 bits |
| IngestLimit.SmallFloorsAreSane | forkrun_ring.c:3510-3530 | a floor below 2^30 always survives |
| IngestLimit.StealThreshold | forkrun_ring.c:3547-3558 | a scaled steal threshold is a quarter of floor times base, within 1..255 |
| IngestLimit.Tuner.Tune | forkrun_ring.c:3486-3604 | a tuning round computes the tuned limit and meter, never above the share |
| IngestLimit.CeilingOver | forkrun_ring.c:3522-3528 | a floor's ceiling is between it and four times it, up to 128, and 16 for the floor of 4 |
| IngestMeter.RoundInBand | forkrun_ring.c:3533-3544 | a round leaves the limit between floor and ceiling, wherever it was |
| IngestMeter.MeterBand | forkrun_ring.c:3565-3578 | at the ceiling the meter never climbs over 75, at the floor it never falls below 15 without steals |
| IngestMeter.QuietSettles | forkrun_ring.c:3591-3604 | without steals the limit comes down to the floor, step by step |
| IngestMeter.FloorHolds | forkrun_ring.c:3565-3604 | and stays there |
| IngestMeter.StealGrows | forkrun_ring.c:3574-3604 | a round with a stolen chunk takes the limit a step up exactly when the queue is full |
| IngestRun.RunInv | forkrun_ring.c:3209-3285 | in every run, with the limit tuned on the way: queues ascend, indexers advertise no more than they consumed, unread chunks lag the frontier by at most half a ring, limit and backlogs stay within their share |
| IngestRun.PublishHarmless | forkrun_ring.c:3454-3470 | no publication, nor the sentinel's, takes the meta slot of an unindexed chunk or its predecessor, or a queue entry unconsumed or unclaimed |
| IngestRun.BacklogBounded | forkrun_ring.c:3209-3223 | however the limit is tuned, unclaimed chunks over all nodes never exceed 2048 |
| IngestCases.IngestGoesOn | forkrun_ring.c:3158-3285 | when no chunk waits and the limit is not 0, ingest alone passes both gates and publishes what it reads |
| IngestCases.Steals | forkrun_ring.c:4614-4810 | a scanner with nothing indexed of its own gets the next chunk of a node that has as many as the tuned threshold asks for |
| IngestTuning.AheadBounded | forkrun_ring.c:3493-3517 | on a run that is not resumed ingest is ahead of the visible batches by at most the queue shares, a chunk in each scanner's hand and the scanners' lags |
| IngestTuning.LimitInRange | forkrun_ring.c:3486-3604 | in every run the tuned limit is at most the share, and at least 4 unless the run is a resumed one of the line path |
| IngestHeld.HeldStaysIntact | forkrun_ring.c:3246-3285 | with one node, or a pin that covers every unread chunk up to a ring, every claimed unread ticket finds its own entry and its own meta slot |
| IngestHeld.PublishLosesIff | forkrun_ring.c:3454-3470 | a publication, or the sentinel's, takes an entry or meta slot from a held ticket if and only if that ticket's chunk is a whole ring of chunks back |
| IngestCases.HeldTicketOvertaken | forkrun_ring.c:4729-4810 | on any two or more nodes, with any thresholds and chunk sizes, a run in which chunk 0 is claimed and unread when chunk 4096 takes its meta slot |
| IngestCases.HeldSafeIff | forkrun_ring.c:3246-3285 | held tickets are safe in every run if and only if there is one node or the pin covers unread chunks up to a ring |
| IngestCases.LimitDrops | forkrun_ring.c:3510-3530 | a resumed run whose limit drops to 0 |
| IngestCases.ShutForGood | forkrun_ring.c:3209-3223 | a state with nothing under way and limit 0 publishes nothing more |
| IngestCases.IngestHangs | forkrun_ring.c:3209-3223 | in every continuation of that resumed run no further chunk is published |
| IngestCases.LimitIff | forkrun_ring.c:3486-3604 | the limit stays at 4 or more in every run if and only if the run is not a resumed one of the line path |
| ScanCommit.Window.Commit | forkrun_ring.c:3856-3909 | the write index never decreases nor passes the scan index, shows everything on demand, and otherwise all but what may be held back: nothing while workers have two batches each, four for each when they have ten |
| ScanCommit.HeldBackGrows | forkrun_ring.c:3877-3889 | the more batches are pending, the more is held back |
| Registry.Registry.FindPid | forkrun_cleanroom.c:1567-1572 | the one live process with this pid |
| Registry.Registry.RegisterWorker | forkrun_cleanroom.c:1742-1789 | a new generation reuses its id's retired slot or takes a new one, a live one is never overwritten |
| Registry.Registry.Reconcile | forkrun_cleanroom.c:1585-1603 | a note is applied exactly to the live process whose role, pid and number it carries: its exit code is then the note's, completion is kept, and nothing else changes |
| Registry.Registry.RegisterHelper | forkrun_cleanroom.c:1711-1741 | a helper gets a slot of its own, with a death channel or without, unless the registry is full |
| Registry.Registry.HelperWrites | forkrun_cleanroom.c:1939-1976 | a helper's note carries the identity it was forked with |
| Registry.Registry.TakeNote | forkrun_cleanroom.c:1818-1836 | the note found in a slot's channel is applied to that slot and no other, and the channel is empty |
| Registry.NoteNamesItsHelper | forkrun_cleanroom.c:1585-1603 | a note in a channel names its own, live helper, and looking its pid up finds no other process |
| Registry.StaleNoteDropped | forkrun_cleanroom.c:3876-3890 | a note under a live worker's pid with an earlier number, and one under a pid nobody has, are dropped |

## Left out

- ClaimTheorems.CompleteAtEof: speaks of a worker about to leave with no other worker holding a ticket. `ClaimProgress` says where each worker and the supervision loop get to by their own steps; that the scheduler lets every one of them move is not stated.
- HandoffChain.ScanChunk: requires the read buffer to hold the raw chunk, which `WindowCovers` proves of ingest's and the scanner's sizes.
- ByteScan.ScanBytes: requires a positive block size; with zero the loop of the original does not end.
- Coalescer.IndexPuncher.Ack: requires the scanner to be less than one ring ahead of the frontier, as its slots would otherwise hold later batches.
- Orderer.Engine.Receive: output writes succeed; the broken-pipe exits that stop the loop are not modelled.
- ClusterOrder.EverythingLeaves: takes the chunks' batches to be published in some ring; that each scanner's flushes go to its own node's ring, in the order it makes them, is not modelled.
- The worker-side deposit of a batch after a soft failure, whose caller is the Python front end.
- Waiting for the resume horizon in ordered resume mode before the first emission.
- The single-node scanner loop over a growing file and its re-batching of the tail at the end of the input.
- The adaptive batch-size controller and worker spawning: batch sizes and early flushes are arbitrary here.
- The emergency-abort exits of the loops: the runs here are those that are not aborted, but for the supervision loop's own abort.
- Kernel effects (splice, sendfile, copy_file_range, punch, event descriptors, poll, memory policy) beyond reads and writes of byte sequences; waits are steps that are not enabled.
- Fences and weak memory orders.
- Shell variables, argument parsing, plugin loading, signal handling, statistics and tracing.
- IngestCases.LimitDrops: one batch is visible at the last two rounds, which takes a checkpoint whose only incomplete batch is two chunks before the end.
- Registry.StaleNoteDropped: is for notes injected as the test hook does; no worker writes one.
- The helper processes' supervision policy beyond the registry: which exits are fatal to the run.
