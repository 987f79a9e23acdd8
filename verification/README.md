# girth, verified

girth moves one large file over UDP. The sender numbers the blocks, injects them once in
order at a paced rate, and resends what it is asked for. The receiver decides everything
else: it keeps a bitmap of arrived blocks, watches for holes, asks for each missing block
again after one retransmission timeout, writes blocks in file order, steers the sender's
rate from round-trip times, and says DONE when the last block has been written.

This project models that data plane in Dafny and proves what it promises. There are two
kinds of model here. Components that are objects or in-place buffer code in girth are
classes and methods with loops, each proved against a function of its inputs or of its old
state. The transfer itself, in which the prefetch, pacing and feedback threads of the
sender, the network, and the ingest workers, flusher and feedback thread of the receiver
all run at once, is a step system: each step is one access to shared state, a run is any
sequence of enabled steps, and a theorem about runs is a theorem about every interleaving.
The network is a bag of datagrams that may be lost, repeated, reordered, delayed and joined
by forged ones that some check rejects. File reads and writes that fail are steps too, so the
theorems say what such a failure does instead of ruling it out.

Batch sizes, NACK caps, timeouts and clock readings are free in the steps, which is right for
what every run keeps. Where a theorem says that some run exists, the run obeys a policy: any
function from what has happened so far to those numbers, within the ranges the code keeps
them in. Such theorems hold for every policy, so for the one the code computes. The strongest
result on progress is about all schedules, not one: `TransferLive.FairRunsComplete`.

| file | holds |
|---|---|
| `Prelude.dfy` | `Option`, two limits, the least element and the size of a set |
| `Blocks.dfy` | how a file is cut into blocks, and positional writes |
| `Bitmap.dfy` | the received-block bitmap as 64-bit words |
| `LossTracker.dfy` | the loss scanner's state and its loop bodies, shared by the next two and by the transfer |
| `LossScanning.dfy` | the scanner object and what each of its calls amounts to |
| `LossHistory.dfy` | the scanner over whole histories, with other threads setting bits between any two iterations |
| `TransferModel.dfy` | state and steps of the transfer |
| `TransferInvariant.dfy`, `TransferSafety.dfy` | the inductive invariant, and that every step keeps it |
| `TransferTheorems.dfy` | what holds in every run |
| `TransferSink.dfy` | what completion leaves in the sink, failed writes included |
| `TransferDone.dfy` | which contiguous mark a report carries |
| `TransferPolicy.dfy` | runs whose numbers a policy chooses |
| `TransferProgress.dfy` | that a transfer can always be completed |
| `TransferFinish.dfy` | when the sender, too, can finish |
| `TransferWitness.dfy` | runs that show which provisos are needed |
| `TransferOverflow.dfy` | when the stage pool can overflow, and so a direct write fail |
| `TransferOversize.dfy` | reports too long to be heard, and which transfers can always be completed |
| `TransferFair.dfy`, `TransferLive.dfy` | fair runs without end, and that every one of them completes |
| `Rate.dfy` | round-trip estimator and rate controller |
| `Pacing.dfy` | the pacing loop's schedule and its token-bucket bound |
| `Wire.dfy` | byte layouts of DATA, FEEDBACK, START and FIN |
| `Crc.dfy` | CRC32C as in section 12.1 of RFC 3720, bit by bit |
| `Pdus.dfy` | filling, sealing, resending and receiving DATA datagrams |
| `Storage.dfy` | the in-memory sink and the final integrity check |
| `Retransmits.dfy` | the sender's queue of blocks to send again |
| `Ticks.dfy`, `TickHistory.dfy` | echoing timing ticks, and what the samples measure |
| `Rio.dfy` | ownership of the registered-I/O receive slots |

Findings where the code does less than a reader might expect, each with its exact
condition:

- A direct write that fails leaves its block accepted but never ready: from such a state no
  run completes, and if reports fit, a loss-free run of any policy does from every other
  reachable state (`TransferProgress.NeverWedged`, `TransferTheorems.StuckForever`). A direct
  write can fail if and only if the file has more blocks than the stage pool has buffers
  (`TransferOverflow.StuckIffOverflows`), and then for any block at any byte
  (`TransferOverflow.DirectWriteMayFail`).
- The sender reads FEEDBACK into 2048 bytes, so a report with more than 125 NACKs is cut and
  dropped (`Wire.FeedbackHeard`). The default limit of 90 is safe; where one above 125 is
  configured and the file has more than 125 blocks, a run can come to a state from which it
  never completes although nothing goes wrong any more
  (`TransferOversize.LongReportsWedge`). A transfer can be recovered from whatever
  happens, under every policy, if and only if no report can be too long and the file fits
  the stage pool (`TransferOversize.RecoversIff`).
- A flusher write that fails after k bytes is logged and passed over. The transfer is still
  declared complete, and that block is then its first k bytes followed by what the sink held
  before; the sink equals the source exactly if all those left-over tails were right from the
  start (`TransferSink.SinkAtCompletion`). It can happen to any block of any file at any k
  (`TransferWitness.FailedFlushShows`).
- After a read error in prefetch the sender still announces FIN, and the receiver may then
  ask for blocks that were never sent; without one it never does
  (`TransferTheorems.NeverNacksUninjected`). Any block's read may be the one that fails
  (`TransferWitness.ReadErrorNacksUnsent`). One pooled buffer is lost as well
  (`TransferTheorems.PoolsConserved`).
- A DONE may carry a contiguous mark short of the file. It does exactly if a block was still
  missing when `advance` stopped in its tick (`TransferDone.ReportedMark`); every DONE from
  the second on is full (`TransferDone.LaterDonesAreFull`), so at most one per run falls short
  (`TransferDone.AtMostOneLags`), and for every file that is not empty one can
  (`TransferWitness.FirstDoneMayLag`).
- The receiver says DONE eight times and leaves; the sender can still finish exactly while a
  DONE was heard, is in flight or has yet to be said (`TransferFinish.SenderCanFinish`), and
  all eight may be lost (`TransferWitness.AllDonesMayBeLost`).
- The pacing plan does not count the 16-byte tag of a sealed datagram. The bits sent stay
  within the plan's own token bucket if and only if datagrams have no tag; with one, the
  bound swells by the tag's share (`Pacing.BucketIffUntagged`, `Pacing.TokenBucket`).
- In clear text the checksum covers the payload only: a datagram whose block number was
  damaged into another one of the file is taken for that block
  (`Pdus.RenumberedInClear`). Under a cipher that opens nothing under one nonce that was sealed
  under another it is rejected (`Pdus.RenumberedSealed`).
- FEEDBACK with 65536 or more entries does not survive its 16-bit count
  (`Wire.FeedbackRoundTrip`).
- A NACK for a number whose byte offset overflows 64 bits is no block of the file, yet may be
  served from the wrapped offset (`Pdus.ServesBlocks`, `Pdus.OverflowServes`).
- A larger ratio of base to smoothed round-trip time can give a smaller next rate across the
  cut-off for short round trips, and nowhere else (`Rate.ShareMonotone`,
  `Rate.UpdatedMonotone`, `Rate.RateFalls`).
- Samples over 60 s are dropped, and so is a network sample of -1, which clocks out of phase
  can give to a tick that travels for less than a microsecond; no others are
  (`TickHistory.DroppedExactly`, `TickHistory.MinusOneHappens`).

## Model

| member | source | states |
|---|---|---|
| TransferTheorems.CompleteIsByteExact | src/receiver.rs:639-640 | in every run, whatever is lost, repeated, reordered or delayed, whatever is corrupted or forged that some check rejects, and however the threads interleave, when FIN was heard and every block is flushed the sink has the file's length and every block whose flusher write did not fail holds the source's bytes; with no failed write sink and source are equal |
| TransferSink.SinkAtCompletion | src/receiver.rs:338-344 | at completion of any run a block whose flusher write failed after k bytes is its first k source bytes followed by the sink's bytes from before the transfer, every other block is the source's, and sink and source are equal if and only if all those left-over tails agreed with the source from the start |
| TransferProgress.NeverWedged | src/receiver.rs:522-541 | whatever policy computes batch sizes, NACK caps, timeouts and tick times: where no report can be too long, a run of that policy without further loss, forgery or failure completes the transfer from a reachable state if and only if no direct write has failed, even with the stage pool exhausted, every packet lost or prefetch gone; after a failed direct write none does anywhere |
| TransferLive.FairRunsComplete | src/receiver.rs:569-702 | every endless run of any policy from a reachable state, moments of rest allowed, in which nothing more goes wrong and neither a thread that can go on nor a datagram that can be taken in is neglected for ever, completes, if no report can be too long and no direct write has failed |
| TransferOversize.RecoversIff | src/receiver.rs:115-127 | whatever has happened and under every policy the transfer can still be completed, if and only if the NACK limit or the number of blocks is at most 125 and the file has no more blocks than the stage pool buffers |
| TransferOversize.LongReportsWedge | src/sender.rs:547-568 | where both exceed 125, under every policy whose cap always does there is a run to a state without a failed direct write from which no run of the policy completes, whatever the network does |
| TransferFinish.SenderCanFinish | src/receiver.rs:696-702 | whatever the policy: where no report can be too long or the transfer is complete, a run of it without further loss, forgery or failure lets the sender's pacing loop return success from a reachable state if and only if no direct write has failed and a DONE was heard, is in flight or has yet to be said; otherwise none does anywhere |
| TransferPolicy.Cap | src/receiver.rs:652-663 | the NACK cap of any policy allows at least one block and no more than the configured limit |
| TransferTheorems.NeverNacksUninjected | src/receiver.rs:617-638 | while prefetch has met no read error, every NACK in flight, pending block, block in the report being built and queued retransmission is of a block already injected, also when a tick saw `seen_any` but not yet `max_seen`; a FIN in flight means everything was injected |
| TransferTheorems.NoForgottenHole | src/losstracker.rs:90-147 | between any two steps every block below the scan mark has arrived or is pending, every pending block has a heap entry, no block has two, and an entry beyond `pending` is for a block that has arrived |
| TransferProgress.TickAfterFin | src/receiver.rs:616-638 | once FIN was heard, any whole tick of the feedback thread, with the other threads interleaved at will, leaves every missing block of the file pending |
| TransferTheorems.AcceptedExactlyOnce | src/receiver.rs:508-541 | over any run a block is accepted at most once, staged or directly written at most once and only if accepted; in a run that ends complete both happened exactly once to every block |
| TransferTheorems.CountersExact | src/receiver.rs:512-515 | at completion `blocks_written` is the number of blocks and `payload_recv` the size of the file |
| TransferTheorems.SenderDoneIsTrue | src/sender.rs:363-365 | the sender takes DONE, and its pacing loop returns success, only when the receiver is complete and the bytes are in place |
| TransferTheorems.ReceiverDoneIsTrue | src/receiver.rs:696-702 | a receiver that leaves through `done` has sent DONE exactly eight times, passes the exit test on `hi_contig`, is complete and has the file |
| TransferDone.ReportedMark | src/receiver.rs:616-690 | a report, DONE or not, carries the whole file as its mark if and only if no block was missing when `advance` stopped in its tick, however the other threads went on meanwhile |
| TransferDone.LaterDonesAreFull | src/receiver.rs:696-702 | in every run, from the second DONE on, a DONE carries the whole file as its mark |
| TransferDone.AtMostOneLags | src/receiver.rs:680-702 | in no run does more than one DONE carry a mark short of the file |
| TransferTheorems.CompletionIsFinal | src/receiver.rs:328-359 | after completion no step of any thread takes it back or writes to the sink again |
| TransferTheorems.PeerIsSender | src/receiver.rs:423-452 | data and FIN are only taken in from a known peer, and that peer is the sender |
| TransferTheorems.PoolsConserved | src/receiver.rs:121-132 | free, staged, worker-held and flusher-held buffers always add up to `depth`, the sender's to 4096 less one after a read error, so no hand-back or publication waits on a full channel and no staged block is overwritten |
| TransferTheorems.StuckForever | src/receiver.rs:534-536 | after a failed direct write no continuation of any kind completes |
| TransferOverflow.StuckIffOverflows | src/receiver.rs:119-127 | under every policy some run has a failed direct write if and only if the file has more blocks than the stage pool has buffers |
| TransferOverflow.FitsNeverStuck | src/receiver.rs:522-541 | in no run of a file that fits the pool does a worker turn to a direct write, let alone fail in one |
| TransferOverflow.DirectWriteMayFail | src/receiver.rs:529-537 | for every larger file, block, number k of its bytes and policy there is a run that ends with exactly that block's direct write failed after k bytes |
| TransferWitness.ReadErrorNacksUnsent | src/sender.rs:271-277 | for every block of a file and every policy there is a run of it in which prefetch fails on the read of that block and the receiver then NACKs a block that was never sent |
| TransferWitness.FailedFlushShows | src/receiver.rs:338-344 | for every file, block, number k of its bytes and policy there is a run that ends complete with just that block's write cut short after k bytes; its sink is the source exactly if the rest of the block was right before |
| TransferWitness.FirstDoneMayLag | src/receiver.rs:680-690 | for every file that is not empty and every policy there is a run of it that sends a DONE whose contiguous mark is short of the file |
| TransferWitness.AllDonesMayBeLost | src/receiver.rs:696-702 | for every transfer and policy there is a run of it that ends with the file complete, no direct write failed and the receiver gone, after which the sender's pacing loop never returns in any continuation |
| TransferModel.StageDepth | src/receiver.rs:121-127 | the stage pool has at least one buffer and no more than there are blocks |
| TransferSafety.StepKeeps | src/receiver.rs:440-542 | every step of every thread and of the network, failing ones included, keeps the invariant that ties bitmaps, stage, frontier, sink, scanner, sender and datagrams in flight together |
| TransferSafety.DeliverGate | src/receiver.rs:440-499 | whatever datagram arrives, a worker goes on only with a genuine one, holding the sender's block and with the sender as peer; otherwise only the datagram is consumed |
| TransferInvariant.CompleteMeansAll | src/receiver.rs:639-640 | completion means that every block was accepted, made ready and passed by the frontier |
| LossHistory.WaitOneRto | src/losstracker.rs:100-147 | over every history, a block's NACK comes more than RTO + 999 microseconds after the scan that found it and after each earlier NACK of it, by the RTO used when it was scheduled |
| LossHistory.NoStarvation | src/losstracker.rs:122-147 | once a missing pending block is due it is NACKed or has arrived by the time the capacity of the later collections exceeds its rank in the heap, whatever is rescheduled or found meanwhile |
| LossScanning.LossScanner.constructor | src/losstracker.rs:77-86 | a new scanner watches nothing and agrees with any bitmap |
| LossScanning.LossScanner.Advance | src/losstracker.rs:90-96 | returns the first missing block, or the total, with all before it arrived; equals the specification and keeps agreement |
| LossScanning.LossScanner.ScanForHoles | src/losstracker.rs:100-118 | equals one scan up to `max_seen`, clamped to the file, and keeps agreement |
| LossScanning.LossScanner.CollectDue | src/losstracker.rs:122-147 | ends for every clock, RTO and cap, equals the specification, keeps agreement and reports no block twice |
| LossScanning.LossScanner.PopTop | src/losstracker.rs:126-144 | one round takes the least entry, and puts it back for later exactly if its block is still wanted |
| LossScanning.AdvanceMeans | src/losstracker.rs:90-96 | `advance` stops at the first missing block and takes from `pending` exactly the blocks it passed |
| LossScanning.ScanMeans | src/losstracker.rs:100-118 | `scan_holes` makes pending exactly the missing blocks it had not looked at yet, each with one entry at the due time, and moves the mark past them |
| LossScanning.ScanAfterFin | src/receiver.rs:616-638 | a scan to the end of the file leaves no missing block unwatched |
| LossScanning.CollectMeans | src/losstracker.rs:122-147 | at most `max` blocks are reported, all missing, pending and due; when fewer are, nothing due is left; only arrived blocks leave `pending` |
| LossScanning.CollectDistinct | src/losstracker.rs:122-147 | no block is reported twice by one call |
| LossScanning.CollectEarliest | src/losstracker.rs:43-58 | a missing pending block that is not reported stands behind every block that is |
| LossTracker.AdvanceAgrees | src/losstracker.rs:90-96 | one iteration keeps bitmap, `pending`, heap and marks in agreement |
| LossTracker.ScanAgrees | src/losstracker.rs:109-114 | one iteration extends the agreement by one block |
| LossTracker.PopAgrees | src/losstracker.rs:126-144 | one iteration keeps agreement |
| LossTracker.AgreesGrows | src/receiver.rs:508 | bits set by other threads at any moment keep agreement |
| Bitmap.RecvBitmap.constructor | src/losstracker.rs:18-25 | enough words for every block, standing for the empty set |
| Bitmap.RecvBitmap.SetAndTest | src/losstracker.rs:30-35 | adds exactly that block to the set the words stand for, and says whether it was new |
| Bitmap.RecvBitmap.IsSet | src/losstracker.rs:38-41 | tells membership in that set |
| Bitmap.OrBit | src/losstracker.rs:30-35 | OR-ing a block's mask into a word sets that block's bit and no other |
| Rate.RttEstimator.Sample | src/rate.rs:40-58 | the new estimate and RTO equal the specification |
| Rate.RttEstimator.Seed | src/rate.rs:64-76 | the seeded estimate equals the specification; a zero seed changes nothing |
| Rate.RttAlwaysSane | src/rate.rs:40-76 | for every sequence of samples and seeds, base RTT is between 0 and the smoothed RTT, the deviation is not negative and the RTO lies between 2 ms and 4 s |
| Rate.MatchesRfc6298 | src/rate.rs:40-62 | unseeded, smoothed RTT and deviation are those of sections 2.2 and 2.3 of RFC 6298, the base RTT is the least sample and the RTO is theirs clamped |
| Rate.RttConverges | src/rate.rs:40-58 | under a constant sample the error shrinks by exactly 7/8 per step, and the deviation is bounded by the larger of its start and twice the first error times (7/8)^n |
| Rate.Rto | src/rate.rs:60-62 | the RTO lies between 2 ms and 4 s for any state |
| Rate.RateController.constructor | src/rate.rs:132-153 | bounds and step left out are filled in with positive defaults, a fixed controller starts at its very target, and an adaptive one within its bounds |
| Rate.RateController.Update | src/rate.rs:156-173 | the new rate equals the specification and the result is its whole part |
| Rate.RateController.SetRate | src/rate.rs:175-180 | zero changes nothing, and any other request gets the rate within the bounds that is nearest to it |
| Rate.ClampIsNearest | src/rate.rs:175-180 | the clamped value, and no other, is the nearest one in the range |
| Rate.RateStaysInBounds | src/rate.rs:132-180 | an adaptive rate stays in bounds over every run, start included |
| Rate.FixedRateInBounds | src/rate.rs:156-180 | a fixed rate stays in bounds over every run exactly when its target is in them |
| Rate.AdaptedMonotone | src/rate.rs:168-172 | a larger rate or share never gives a smaller next rate |
| Rate.ShareMonotone | src/rate.rs:164-167 | a larger ratio of base to smoothed RTT gives a share at least as large if and only if it is not the case that only the smaller one is under the cut-off while the larger shows queueing |
| Rate.UpdatedMonotone | src/rate.rs:156-173 | over all rates, `update` gives no smaller next rate for a larger ratio of base to smoothed RTT if and only if it is not the case that only the smaller ratio is under the cut-off while the larger shows queueing |
| Rate.RateFalls | src/rate.rs:156-173 | at 1 Gbit/s with default bounds and step the ratio rises from 0.4 to 0.5 and the next rate falls |
| Rate.EquilibriumIsFixed | src/rate.rs:168-171 | alpha / (1 - b) pulled into the bounds is a fixed point |
| Rate.AdaptedContracts | src/rate.rs:168-171 | any two rates come together by (1 + b) / 2 per update |
| Rate.RateConverges | src/rate.rs:156-173 | for a constant ratio below one the distance to the equilibrium shrinks by at least (1 + b) / 2 per update from any start, also when alpha / (1 - b) is out of bounds |
| Rate.RateRamps | src/rate.rs:164-171 | without queueing the rate climbs by alpha / 2 per update up to the ceiling |
| Pacing.PlanIsExact | src/sender.rs:331-349 | a batch has 1 to 64 packets, takes exactly as long as its bits need at the rate, and has fewer than 64 only if it fills 5 ms |
| Pacing.Pacer.Retarget | src/sender.rs:375-379 | the plan is always the one for the current target |
| Pacing.Pacer.EndBatch | src/sender.rs:462-469 | the deadline moves one interval on, or to now when more than 100 intervals behind, and the sleep is the rest of the way to it |
| Pacing.DeadlinesClimb | src/sender.rs:462-469 | deadlines climb at least one interval per batch |
| Pacing.FlushWaits | src/util.rs:34-49 | no flush, the first one included, is a microsecond or more ahead of its deadline |
| Pacing.TokenBucket | src/sender.rs:382-469 | at rates that change from batch to batch but never exceed a top, the DATA bits flushed in any window, tags included, are at most the top rate times the window plus one microsecond, plus 101 intervals of the first batch and one of the last, all scaled by the length of a tagged full datagram over that of an untagged one |
| Pacing.TokenBucketAtConstantRate | src/sender.rs:382-469 | at a constant rate that is rate times window plus one microsecond, plus a burst of 102 batches, scaled in the same way |
| Pacing.BucketIffUntagged | src/sender.rs:331-349 | at every block size, every run at a constant rate stays within the unscaled bound if and only if datagrams carry no bytes that the plan leaves out |
| Wire.LeRoundTrip | src/protocol.rs:61-83 | little-endian encoding then decoding gives back every value that fits |
| Wire.UnLeRoundTrip | src/protocol.rs:61-83 | decoding then encoding gives back the bytes |
| Wire.PutLe | src/protocol.rs:61-71 | writes the bytes of a value in place and nothing else |
| Wire.EncodeDataHeader | src/protocol.rs:117-126 | the first 36 bytes become the header's layout and the rest of the buffer stays |
| Wire.DataRoundTrip | src/protocol.rs:117-142 | every DATA header survives encoding and decoding, whatever payload follows |
| Wire.DataIsCanonical | src/protocol.rs:129-142 | an accepted header encodes to the very bytes it came from |
| Wire.EncodeFeedback | src/protocol.rs:179-202 | the buffer holds exactly the layout of header and entries, and its length is returned |
| Wire.ReadFeedback | src/protocol.rs:205-234 | the decoding loop equals the specification on every input, short and malformed ones included |
| Wire.FeedbackDecodes | src/protocol.rs:179-234 | what comes back is the header as sent and the first `len % 65536` entries |
| Wire.FeedbackRoundTrip | src/protocol.rs:179-234 | FEEDBACK survives the trip if and only if it has fewer than 65536 entries |
| Wire.FeedbackHeard | src/sender.rs:547-568 | what the sender's 2048-byte buffer keeps of a FEEDBACK decodes to it if and only if it has at most 125 entries, and decodes to anything if and only if its 16-bit count is at most 125 |
| Wire.StartFinRoundTrip | src/protocol.rs:239-273 | START and FIN survive the trip |
| Wire.DecodersDisjoint | src/protocol.rs:277-283 | no datagram is accepted by two of the four decoders, and the one that accepts it is the one its type byte names |
| Wire.EncodeStart | src/protocol.rs:239-246 | the buffer holds the START layout |
| Wire.EncodeFin | src/protocol.rs:257-265 | the buffer holds the FIN layout |
| Blocks.BlockBounds | src/protocol.rs:286-291 | every block has 1 to `bs` bytes inside the file, all but the last are full, the last ends at the end, and no offset overflows 64 bits |
| Blocks.BlocksDisjoint | src/protocol.rs:286-291 | two blocks never overlap |
| Blocks.BlocksCover | src/protocol.rs:286-291 | every byte of the file lies in a block |
| Blocks.SameBlocksSameFile | src/protocol.rs:286-291 | two files of one length with equal blocks are equal |
| Blocks.WriteAt | src/io.rs:250-260 | a positional write puts the bytes there, keeps all others, and grows the buffer only as far as needed |
| Blocks.WriteLeavesOthers | src/io.rs:250-260 | writing a block, or some of it, changes no other block |
| Blocks.WriteFillsBlock | src/io.rs:250-260 | writing a whole block makes it those bytes |
| Blocks.WriteStartsBlock | src/io.rs:250-260 | writing the first bytes of a block puts them in front of what the block held |
| Blocks.AnyOrderRebuilds | src/receiver.rs:328-359 | writing every block at least once, in any order with any repeats, rebuilds the source |
| Blocks.BytesInAll | src/receiver.rs:512-514 | the blocks together carry exactly the file's bytes |
| Crc.AppendJoin | src/protocol.rs:41-43 | appending one chunk after another is appending both at once |
| Crc.StreamCrc | src/io.rs:65-77 | the chunked CRC32C is that of the whole source |
| Crc.OneByteShows | src/receiver.rs:490-494 | any change confined to one byte changes the CRC32C |
| Storage.MemSink.Allocate | src/io.rs:244-249 | the buffer becomes that many zeros |
| Storage.MemSink.WriteAllAt | src/io.rs:250-260 | the buffer is the old one with the bytes written at the offset |
| Storage.MemSink.ReadCrc | src/io.rs:261-264 | the CRC32C of the buffer, equal to what appending it in two pieces gives wherever it is cut |
| Storage.ReceiveAll | src/transfer.rs:838-842 | when no block is missing, in whatever order with whatever repeats, the sink holds the source and the final comparison cannot fail |
| Pdus.NoncesDistinct | src/crypto.rs:94-99 | distinct blocks have distinct nonces |
| Pdus.SealData | src/crypto.rs:130-143 | ciphertext and tag replace the plaintext in place and nothing else changes |
| Pdus.OpenData | src/crypto.rs:148-163 | on success exactly the plaintext replaces the ciphertext; a short buffer or a wrong tag fails and changes nothing |
| Pdus.ReadExactAt | src/io.rs:194-203 | fails exactly when the range ends past the source, and otherwise copies exactly that range |
| Pdus.FillNew | src/sender.rs:265-302 | the buffer holds the block's datagram, and there is none exactly when the read fails |
| Pdus.FillAgain | src/sender.rs:473-511 | for every 64-bit number, the buffer holds the retransmission or there is none; where the byte offset does not overflow there is one exactly for a block of the file that can be read, and it is that block's datagram |
| Pdus.ServesBlocks | src/sender.rs:473-483 | numbers whose byte offset does not overflow are served exactly if they are readable blocks, with the block's own datagram |
| Pdus.OverflowServes | src/sender.rs:473-483 | with 32 KiB blocks and any readable file that is not empty, number 2^49 is no block and is served all the same |
| Pdus.RetransmitSame | src/sender.rs:473-511 | a retransmission has the very payload, tag, length and checksum of the first transmission; only the retransmit flag and index differ |
| Pdus.BodyReceived | src/receiver.rs:458-496 | a datagram with the sender's body is taken as the sender's payload whatever its flags, tick and index say |
| Pdus.PduReceived | src/receiver.rs:458-496 | what the sender puts on the wire, sealed or not, first time or again, is received as exactly that block of the file |
| Pdus.DamageRejected | src/receiver.rs:486-496 | in clear text, a change to any one payload byte is rejected |
| Pdus.RenumberedInClear | src/receiver.rs:486-496 | in clear text a datagram whose number is changed to another block of the file is received as that block with the first one's bytes |
| Pdus.RenumberedSealed | src/crypto.rs:148-163 | under a cipher that opens nothing under one nonce that was sealed under another, a datagram with any other number is rejected |
| Retransmits.RexQueue.Push | src/sender.rs:610-620 | the members become the old ones and all blocks asked for, heap and set in agreement |
| Retransmits.RexQueue.Pop | src/sender.rs:622-630 | returns and removes the least member, or nothing from an empty queue |
| Retransmits.RexQueue.Len | src/sender.rs:632-634 | the heap's size is the set's |
| Retransmits.ServedOncePerRequest | src/sender.rs:610-630 | over any history a block is served no more often than it was requested, and no request is lost |
| Retransmits.DrainAscends | src/sender.rs:622-630 | pops alone return exactly the members in ascending order |
| Retransmits.PopsDrain | src/sender.rs:622-630 | after any history, as many pops as there are members return that order and empty the queue |
| Ticks.TickState.Store | src/sender.rs:574-580 | the slot follows the history's step of hearing that tick, whatever was in it |
| Ticks.TickState.Attach | src/sender.rs:516-537 | a waiting tick changes the decoded header in its echo tick and tick flags only, the payload not at all, and is used up, as in the history's step of taking it; without one the datagram stays |
| Ticks.StampIsEcho | src/sender.rs:516-537 | what is stamped into the header is the echo that the history records, while readings fit 64 bits |
| Ticks.TickFlagsMean | src/sender.rs:528-534 | the two tick flags say what was stamped and every other flag stays |
| Ticks.StampedIsReceived | src/receiver.rs:458-496 | stamping changes nothing of what the receiver gets from the datagram |
| TickHistory.SamplesAreTrue | src/receiver.rs:545-566 | over every run, for any clock offsets and phases and any loss, repetition or overwriting of ticks, a network sample is within 2 us of the travelling time and a path sample within 1 us of that plus the holding time |
| TickHistory.SamplesAreExact | src/receiver.rs:545-566 | between events on whole microseconds of the clocks that read them, a network sample is exactly the tick's travelling time and a path sample that plus the sender's holding time, whatever the clock offsets |
| TickHistory.DroppedExactly | src/receiver.rs:545-549 | a sample is thrown away if and only if it is over 60 s or it is -1, and -1 is only ever a network sample whose tick travelled for less than a microsecond |
| TickHistory.MinusOneHappens | src/protocol.rs:54-56 | a run with clocks half a microsecond out of phase in which such a sample is dropped |
| TickHistory.StampedOnce | src/sender.rs:516-525 | each stored tick is stamped into at most one datagram |
| Rio.SlotsConserved | src/sys/rio.rs:529-599 | however receives complete and whichever re-posts fail, each of the 4096 slots always has exactly one owner among posted, queued and pending, and nothing else is owned |
| Rio.NeverOverflows | src/sys/rio.rs:200-201 | the receive completion queue never holds more than the slots, so it never overflows and is never corrupt |
| Rio.ReadableIsOwned | src/sys/rio.rs:529-599 | between calls a slot that can be read is pending, not posted, not queued, and in the batch once |
| Rio.ViewsDisjoint | src/sys/rio.rs:592-599 | the byte ranges handed out for one batch lie in the region and never overlap |
| Rio.BatchReceiver.Repost | src/sys/rio.rs:539-540 | every pending slot is tried; exactly those refused stay pending, in order |
| Rio.KeptExactly | src/sys/rio.rs:539-540 | a slot stays pending exactly as often as it was if its re-post is refused and not at all otherwise |
| Rio.BatchReceiver.Collect | src/sys/rio.rs:564-578 | the batch is made of the receive completions, failed ones as empty, and their slots become pending |
| Rio.BatchReceiver.Recv | src/sys/rio.rs:529-580 | one call is a run of the pool from idle to idle; afterwards pending are the refused slots and the batch's, and an error leaves no batch |
| Rio.Open | src/sys/rio.rs:281-284 | the pool starts with every slot posted, or not at all if one post or the arming of the notification fails |

## Left out

- Cryptographic primitives and authentication (src/auth.rs, key agreement): a cipher is any pair of functions in which opening undoes sealing and lengths are kept.
- The TCP control channel, JSON, the server's accept loop, paths and file handling (src/control.rs, most of src/transfer.rs): the negotiated size, block size, session and addresses are parameters.
- src/sys/linux.rs, src/sys/portable.rs and the registered-I/O send path: sending adds to the bag of datagrams, receiving takes from it.
- Weak memory: the atomic accesses interleave sequentially.
- Rounding of 64-bit floats: controllers, RTOs and deadlines are over exact reals, with the whole part where the code casts to an integer.
- Stop, pause, cancel and live rate limits: runs end through `done` or not at all.
- Delivery of DONE: the receiver says it eight times and leaves, so what is claimed is the truth of DONE and when it can still be heard, not that it will be.
- The START bootstrap and its timeout: the sender knows the receiver's address from the beginning.
- Forged datagrams that pass every check (session, range, address, checksum or tag): the network invents any other.
- TransferTheorems.PeerIsSender: a datagram with the right session from another port of an allowed host is one of those, so that it would be learned as the peer is not modelled.
- Fatal receive errors: an ingest worker that leaves on one (src/receiver.rs:404-407) and the sender's feedback thread leaving on one (src/sender.rs:561) are not steps; without that thread no NACK or DONE would be heard any more.
- TransferTheorems.CompleteIsByteExact: a clear-text datagram whose block number was damaged passes every check and is one of those too, so byte-exactness is not claimed where it arrives.
- Datagrams whose source address the backend cannot report: taken to come from an allowed host.
- Writeback hints, statistics formatting, logging, the command line and error classification: they would only add easy members.
- The readiness signal between workers and flusher: the flusher may probe its frontier at any time, which allows at least the runs that the signal does.
- LossScanning.LossScanner.CollectDue: the object's methods see one bitmap throughout a call; bits set during a call are covered by `LossHistory` and by the transfer's steps.
- LossHistory.WaitOneRto: for clock readings below the point where a due time no longer fits 64 bits.
- Due times in the transfer model: its clock has no 64-bit limit and due times do not saturate, as they do in `LossScanning` and `LossHistory`.
- FEEDBACK longer than the receive buffer: taken to be cut, as on Unix; a platform that reports an error instead ends the sender's feedback thread.
- TransferLive.FairRunsComplete: source addresses are taken to be known, and that the sender then leaves as well is left to `TransferFinish.SenderCanFinish`.
- Pdus.FillAgain: offsets wrap around at 64 bits, as in a release build; a build with overflow checks stops instead.
- Ticks.TickState.Attach: the sender's clock is taken not to run backwards between hearing a tick and stamping it.
- TickHistory.SamplesAreTrue: clock readings are integers without a 64-bit limit.
- Pacing.TokenBucket: counts DATA datagrams only, as the loop does; FIN datagrams and lower-layer headers are not paced.
- Rate.UpdatedMonotone: for positive smoothed round-trip times, since before the first sample an adaptive update leaves the rate alone; lower bound below upper bound and half a step below the upper bound, since otherwise every next rate is the same or the step alone exceeds the ceiling.
- Rate.RateController.Update: adaptive bounds are taken in order, lower below upper, which `f64::clamp` itself demands.
