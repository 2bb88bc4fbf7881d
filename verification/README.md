# Device manager: protocol and firmware update, verified

A Dafny 4.11 model of the device manager's link protocol and resumable firmware
update. `dafny verify dfyconfig.toml` checks all of it.

The parts stack on each other as they do in the program.

- **Bytes and checksums.** `Wire` has the protocol constants and little-endian
  fields, `Crc32` the bitwise checksum, `Residue` the number that every good frame
  leaves in its register, `FrameCodec` and `Stm32Codec` the host's and the
  microcontroller's codecs. A 32-bit register is a sequence of 32 bits,
  lowest first, so that shifting and xor are what they are in the C code.
- **The byte stream.** `RingBuffer` is the wrap-around queue, `Parser` the
  scanner that works on it in place, `StreamScan` the pure scan of a byte string
  that the parser refines.
- **Requests.** `Session` is the tracker of the one request in flight, with its
  sequence numbers, retries and deadlines.
- **The update protocol.** `Upgrade` is the host's state machine, `Simulator` the
  device, `Driver` the part of the daemon that drives an update through the
  tracker. `LossyLink` joins them over a line that keeps frames in order and may
  lose any of them, `Resumption` is about what an interrupted update leaves on the
  device and on the line, `LinkInvariant` is the inductive invariant of the whole,
  `LinkRuns` has the theorems about all runs, `QuietLine` says which updates can
  still be completed, and which schedules do complete them. `AnySession` has a
  second, weaker invariant, which needs to know nothing of the device.
- **The second device.** `Stm32Update` is the bootloader's update core over a
  flash that may fail in any operation. `Stm32Link` joins it with the host over the
  lossy line and shows that it is to the host a simulator on a line that loses
  more; `Stm32Runs` follows how far the two are apart, and `Stm32Completion` says
  which updates can still be completed.
- **The daemon.** `Worker` is the mailbox between the validation thread and the
  reactor, over all interleavings of their critical sections; `Daemon` is the
  reactor, whose handlers share session, update, client, output buffer and the
  mapped image.
- **Everything together.** `Installation` runs the daemon's loop with its clients
  and its worker against the device over the lossy line, through any number of
  updates; `Numbering` keeps account of the numbers its requests carry, and
  `AnyClients` lets clients send whatever they like to any device.
  `FirstUpdate` and `Mishaps` have runs of the whole that reach what the theorems
  speak of: an update that completes, one that a client undoes afterwards, and one
  that a full output buffer ends.

Code that updates a structure in place is a class here. Each of its methods is
proved to change the object's `View()` exactly as a function on values does, and
the theorems are about runs of those functions. Clocks, the verdicts of epoll
and of callbacks, memory from the allocator, the contents of files and the
behaviour of the flash driver are parameters of the steps. The theorems about the
lossy link are for all clocks, all losses, all verdicts of the output buffer, and
any lack of memory on the device: a step of the host carries the verdict on what it
sends, and a verdict other than success stops the daemon or ends the update as the
code has it.

The main results:

1. In every run of daemon, clients, worker, line and device, an update that is
   reported complete has put exactly the adopted file, under the requested
   version, on the device, and its session there is closed
   (`Installation.CompleteMeansFileInstalled`; until the sequence numbers come
   round, with nothing asked of the frames on the line,
   `Installation.EarlyCompletionMeansFileInstalled`; for one update,
   `LinkRuns.CompleteMeansInstalled`). Any file that is listed can be installed so
   (`FirstUpdate.UpdateCanComplete`). A client can undo it
   (`Mishaps.CompletionCanBeUndone`), by exactly these requests
   (`Installation.InstalledUnlessDisturbed`). Whatever session the device has and
   whatever chunks clients send, in the moment an update becomes complete the
   device's flash has the file's size and checksum, and the version is the requested
   one (`AnyClients.CompletionIsVerified`,
   `AnyClients.EarlyCompletionIsVerified`; for one update,
   `AnySession.CompleteMeansVerified`).
2. Loss alone never causes a refusal (`LinkRuns.RefusesOnlyForMemory`), and it is
   known exactly what fails an update (`LinkRuns.FailsExactly`). An update can
   still be completed on a line that stops losing frames if and only if its request
   is on the line, can be repeated, or can be followed by a recovery, and no refusal
   is on its way (`QuietLine.QuietLineCompletes`). Once its request or the answer is
   on the line, every schedule without loss completes it within a bound on the
   frames moved, unless the timer ends it first
   (`QuietLine.EveryScheduleCompletes`).
3. Against any device at all, even one that answers nonsense, an update ends
   within a bound that depends only on the number of chunks
   (`Upgrade.UpdateTerminates`, `Upgrade.FreshUpdateRounds`).
4. However a stream is cut into reads, the parser yields the frames, counters
   and remaining bytes of one scan of the whole (`Parser.FeedSlices`); no byte
   is lost or invented (`Parser.Parser.Feed`); and it finds the next frame after
   garbage (`StreamScan.Resynchronises`).
5. No error burst of up to 32 bits in a frame goes unnoticed
   (`FrameCodec.BurstRejected`), because every good frame leaves the register at
   0xDEBB20E3 (`Residue.ResidueNumber`).
6. In every state the daemon's loop passes through, session, update, image and
   client agree (`Daemon.ReactorStatesAgree`), and after shutdown every image
   ever opened has been closed exactly once (`Daemon.EveryImageClosedOnce`).
7. The bootloader activates only an image that is the concatenation of what it
   acknowledged and whose checksum is the announced one
   (`Stm32Update.ActivationSafe`). Over the lossy line, and however its flash fails,
   an update reported complete has been activated, and the flash held exactly its
   image (`Stm32Link.CompleteMeansActivated`). From any point of any run, an update
   can still be completed if and only if its request is on the line, granted, can be
   repeated or can be followed by a recovery; no answer to the `FW_END` or
   `FW_VERIFY` that moved the bootloader on has been lost; and the session takes the
   update's chunks (`Stm32Completion.CompletableExactly`). Such a lost answer is
   fatal (`Stm32Runs.LostAnswerIsFatal`), and every start that can complete leads to
   one in some run (`Stm32Completion.StrandedReached`). A session that takes only smaller chunks is
   resumed all the same, and the update then never completes: a client's own
   `FW_BEGIN` sets this up (`Stm32Completion.SmallerChunksBlock`), and exactly which
   starts are so blocked is `Stm32Completion.LaunchCompletable`.

Where the documentation and the code disagree, the model follows the code.

- `docs/protocol.md` (lines 35 and 36) has devices cache the last result. They
  compute it anew. The simulator then gives the same answer again, exactly
  unless it lacked memory the first time (`Simulator.RetryIdempotent`); the
  bootloader does, exactly unless the request was the `FW_END` or `FW_VERIFY`
  that moved it to its next stage (`Stm32Update.RepeatableUnlessAdvancing`).
- `docs/protocol.md` gives each command its own timeout and retries. The daemon
  has one policy for all requests of an update.
- `docs/reliability.md` (lines 30 to 35) lets an update fail by timeout only after
  three recoveries. The code fails it at the first one if the output buffer still
  holds a frame (in a run from the daemon's start, `Mishaps.BusyTimeoutReached`;
  exactly when, `Daemon.TimeoutFailsExactly`).
- `docs/state-machines.md` (lines 54 to 56) has an update wait for the device to
  reconnect and confirm its version. The code completes on the answer to
  `REBOOT`.

## Model

| member | source | states |
|---|---|---|
| Wire.GetPut16 | src/protocol/frame.c:8-25 | a 16-bit field reads back as it was written, whatever follows it |
| Wire.PutGet16 | src/protocol/frame.c:8-25 | writing what was read gives the same two bytes |
| Wire.GetPut32 | src/protocol/frame.c:14-31 | a 32-bit field reads back as it was written, whatever follows it |
| Wire.PutGet32 | src/protocol/frame.c:14-31 | writing what was read gives the same four bytes |
| Wire.WithRetry | src/device/session.c:176-176 | sets the retry bit and no other |
| Crc32.PolynomialNumber | src/common/crc32.c:14-14 | the polynomial's bits are those of 0xEDB88320 |
| Crc32.UpdateRegister | src/common/crc32.c:3-18 | the loop over bytes and bits computes the recursive checksum register |
| Crc32.ComputeChecksum | src/common/crc32.c:20-28 | the checksum of a byte string |
| Crc32.StepInjective | src/common/crc32.c:12-15 | a bit step forgets nothing: two registers that step to the same one are equal |
| Crc32.StepDelays | src/common/crc32.c:12-15 | a bit step is linear: what is xored in one place higher arrives one step later |
| Crc32.FeedWindow | src/common/crc32.c:10-16 | up to 32 bits enter the register as if xored in at once |
| Crc32.UpdateIsFeed | src/common/crc32.c:10-16 | the bytewise update is the bit-serial one on the message's bits |
| Crc32.FeedInjective | src/common/crc32.c:10-16 | after any message, different registers stay different |
| Crc32.BurstChangesRegister | src/common/crc32.c:3-18 | two messages that differ inside at most 32 consecutive bits leave different registers |
| Crc32.ChecksumLeavesResidue | src/common/crc32.c:20-28 | every message followed by its own checksum leaves the same register |
| Crc32.ResidueCharacterises | src/protocol/frame.c:83-87 | a trailer matches if and only if the register ends at that residue |
| Residue.ResidueNumber | src/common/crc32.c:10-28 | the register after any message and its checksum is 0xDEBB20E3, the good final FCS of appendix C.3 of RFC 1662 |
| FrameCodec.EncodeFrame | src/protocol/frame.c:33-59 | exact status for every frame and capacity; writes the frame's bytes at the start of the buffer and nothing else, or leaves the buffer alone |
| FrameCodec.DecodeFrame | src/protocol/frame.c:61-94 | the verdict and the fields of every byte string, each error in its order |
| FrameCodec.DecodeEncode | src/protocol/frame.c:33-94 | decoding an encoded frame gives it back |
| FrameCodec.EncodeDecode | src/protocol/frame.c:33-94 | whatever is accepted is the encoding of the frame that comes out: one byte string per frame |
| FrameCodec.AcceptedLeavesResidue | src/protocol/frame.c:83-87 | an accepted frame, trailer included, leaves the residue |
| FrameCodec.BurstRejected | src/protocol/frame.c:61-94 | an accepted frame altered inside any 32 consecutive bits is rejected |
| FrameCodec.FourByteWindowRejected | src/protocol/frame.c:61-94 | an encoded frame altered inside any four consecutive bytes, its checksum included, is rejected |
| Stm32Codec.ComputeCrc | firmware/stm32f103/common/protocol.c:30-42 | the device's checksum loop computes the host's checksum |
| Stm32Codec.EncodeView | firmware/stm32f103/common/protocol.c:63-82 | succeeds exactly when the host's encoder does and writes the same bytes |
| Stm32Codec.DecodeView | firmware/stm32f103/common/protocol.c:44-61 | accepts exactly what the host's decoder accepts, with the same fields, and gives a fixed error code for each of its errors |
| RingBuffer.Ring.Init | src/common/ring_buffer.c:12-22 | a ring over no storage is refused, any other starts empty |
| RingBuffer.Ring.Reset | src/common/ring_buffer.c:24-30 | the queue becomes empty |
| RingBuffer.WindowExtends | src/common/ring_buffer.c:57-61 | the two copies of a wrapped write extend the queue at its end and leave what was queued |
| RingBuffer.Ring.Write | src/common/ring_buffer.c:52-64 | appends as much as fits, across the end of the storage, and counts it |
| RingBuffer.Ring.Peek | src/common/ring_buffer.c:66-78 | the queued bytes from an offset on, as many as there are |
| RingBuffer.Ring.Discard | src/common/ring_buffer.c:80-92 | drops the oldest bytes and keeps the others in order |
| RingBuffer.Ring.Read | src/common/ring_buffer.c:94-99 | returns the oldest bytes and drops them |
| RingBuffer.Perform | src/common/ring_buffer.c:52-99 | under any sequence of operations the ring answers as a bounded queue does |
| StreamScan.LookIsStable | src/protocol/parser.c:14-62 | a decision about the front of the buffer does not change when more bytes arrive |
| StreamScan.DrainReassembles | src/protocol/parser.c:41-60 | the dropped bytes, the emitted frames' encodings and the remainder are the input, in order, without gap or overlap |
| StreamScan.DrainConserves | src/protocol/parser.c:14-62 | every byte is discarded, in a delivered frame, or still held |
| StreamScan.DrainLeavesRoom | src/protocol/parser.c:14-62 | a scan that runs to its end keeps less than a frame; one stopped by a callback has used up at least a minimal frame |
| StreamScan.DrainAppend | src/protocol/parser.c:14-62 | scanning a + b is scanning a, then what a left followed by b, even when a callback stops it |
| StreamScan.StreamRoundTrip | src/protocol/parser.c:14-62 | a stream of encoded frames scans to those frames, with nothing dropped or left |
| StreamScan.Resynchronises | src/protocol/parser.c:14-54 | after garbage in which no valid frame starts, exactly the garbage is dropped and the frame behind it is the first delivered |
| Parser.Parser.constructor | src/protocol/parser.c:65-72 | an empty parser with zero counters |
| Parser.Parser.Reset | src/protocol/parser.c:74-80 | nothing held, counters zero |
| Parser.Parser.Inspect | src/protocol/parser.c:14-46 | what peeking into the ring decides is what the bytes held call for |
| Parser.Parser.DropByte | src/protocol/parser.c:20-54 | drops one byte and counts it under its cause |
| Parser.Parser.Drain | src/protocol/parser.c:7-63 | the in-place loop delivers, counts and keeps what the pure scan of the bytes held does |
| Parser.Parser.Feed | src/protocol/parser.c:82-107 | the same for everything fed; received bytes = discarded + delivered + held; the ring never overflows, even when callbacks fail |
| Parser.IndexIrrelevant | src/protocol/parser.c:14-62 | with callbacks that succeed a scan does not depend on how many frames came before |
| Parser.FeedSlices | src/protocol/parser.c:93-106 | however a stream is cut into reads: the frames, every counter and the remainder of one scan |
| Session.Tracker.constructor | src/device/session.c:18-25 | a disconnected session whose first sequence number is 1 |
| Session.Tracker.ChangeState | src/device/session.c:27-77 | the session table on the object's fields; any other event is refused without change |
| Session.Tracker.BeginRequest | src/device/session.c:93-123 | new state and outcome of a request, with the order of its refusals |
| Session.Tracker.AcceptResponse | src/device/session.c:125-157 | new state and verdict for any frame, pending or not |
| Session.Tracker.OnTick | src/device/session.c:159-188 | new state, verdict and the frame handed out again, for any verdict of the callback |
| Session.Tracker.CancelRequest | src/device/session.c:190-195 | nothing is in flight any more |
| Session.RunConsistent | src/device/session.c:102-122 | every run keeps the numbering: the next number, and the one in flight, follow from the count of requests |
| Session.KthRequestNumber | src/device/session.c:93-123 | in every run the k-th request carries ((k-1) mod (2^32-1)) + 1, and a request is refused exactly for its size, a zero timeout or one in flight |
| Session.NumberedDistinct | src/device/session.c:102-111 | numbers repeat no sooner than 2^32-1 requests apart |
| Session.EchoIgnored | src/device/session.c:131-146 | an echo of any earlier request within that distance leaves the one in flight as it is |
| Session.UnresolvedAreCancelled | src/device/session.c:125-195 | from any state, a run cancels exactly the requests it does not otherwise resolve |
| Session.RequestsAccounted | src/device/session.c:93-195 | in every run, requests = responses + timeouts + cancelled + in flight |
| Session.WaitingRun | src/device/session.c:159-188 | while a request is in flight, its deadline and retry count grow together and each frame sent again is the original with the retry flag |
| Session.TimeoutIsEarned | src/device/session.c:159-188 | a timeout comes no earlier than the timeout and all retry intervals allow, saturating at 2^64-1, and after exactly the allowed retransmissions |
| Upgrade.Updater.constructor | src/upgrade/upgrade.c:8-14 | an idle update |
| Upgrade.Updater.StartUpdate | src/upgrade/upgrade.c:16-34 | a started update, or a refusal without change |
| Upgrade.Updater.BuildRequest | src/upgrade/upgrade.c:36-92 | the request of each phase, with the chunk's end and the wrapping chunk count |
| Upgrade.Updater.AcceptResponse | src/upgrade/upgrade.c:94-151 | the move for every response, storing offset and session before checking them |
| Upgrade.Updater.StartRecovery | src/upgrade/upgrade.c:159-171 | recovery where the phase and the count of three allow it |
| Upgrade.StartIsGood | src/upgrade/upgrade.c:16-34 | a successful start establishes the update's invariant for this image, a refused one changes nothing |
| Upgrade.BuildSucceeds | src/upgrade/upgrade.c:36-92 | an active update can always build its next request, and it fits a frame |
| Upgrade.ChunksLeftIsCeiling | src/upgrade/upgrade.c:56-67 | the number of chunks is the remaining size over the chunk size, rounded up |
| Upgrade.AnswerMoves | src/upgrade/upgrade.c:94-151 | any answer moves an update one phase on, or fails it |
| Upgrade.RoundProgress | src/upgrade/upgrade.c:36-171 | every request, whatever becomes of it, uses up one of the rounds left |
| Upgrade.UpdateTerminates | src/upgrade/upgrade.c:36-171 | against any device, after that many rounds the update is complete or failed |
| Upgrade.FreshUpdateRounds | src/upgrade/upgrade.c:16-171 | a fresh update has 4 * chunks + 9 rounds |
| Upgrade.DataRequestsBounded | src/upgrade/upgrade.c:56-67 | against any device the FW_DATA requests stay within their budget and chunks_sent counts them modulo 2^32 |
| Upgrade.FreshUpdateData | src/upgrade/upgrade.c:56-67 | a fresh update sends at most 4 * chunks FW_DATA requests |
| Upgrade.RecoveriesAreSilences | src/upgrade/upgrade.c:159-171 | while an update is active its recoveries are exactly its unanswered requests |
| Upgrade.FourthSilenceFails | src/upgrade/upgrade.c:159-171 | in transfer or recovery an unanswered request fails the update if and only if it is the fourth or the request for recovery cannot be queued; elsewhere the first does |
| Simulator.SimulatedDevice.OnBegin | simulator/device/simulator.c:158-211 | new state and answer to FW_BEGIN: refusal, resumption, allocation failure or new session |
| Simulator.SimulatedDevice.Open | simulator/device/simulator.c:196-210 | a new session over fresh memory, its number never zero |
| Simulator.SimulatedDevice.OnData | simulator/device/simulator.c:212-256 | new state and answer to FW_DATA: only the next chunk is written, a stored one is compared |
| Simulator.SimulatedDevice.OnFrame | simulator/device/simulator.c:153-311 | new state and answer to every update request |
| Simulator.DataTwice | simulator/device/simulator.c:212-256 | a repeated chunk is answered alike and not written twice |
| Simulator.BeginTwice | simulator/device/simulator.c:158-211 | a repeated FW_BEGIN is answered alike exactly unless memory was missing and is there now |
| Simulator.RetryIdempotent | simulator/device/simulator.c:153-311 | in every state, any update request repeated changes nothing more and gets the same answer, if and only if it did not need memory that was missing the first time and there the second |
| Simulator.RefusedThenServed | simulator/device/simulator.c:189-195 | a concrete FW_BEGIN refused for want of memory and served when repeated |
| Driver.QueueNumbers | apps/devmgrd/daemon.c:279-294 | with nothing in flight an active update numbers its next request, for any verdict of the output buffer; the request waits for its answer exactly if it was queued, and is in the buffer exactly unless that was occupied |
| LossyLink.BeginFields | simulator/device/simulator.c:165-171 | the device reads from FW_BEGIN what the host wrote into it |
| LossyLink.DataFields | simulator/device/simulator.c:220-221 | the device reads from FW_DATA what the host wrote into it |
| LossyLink.ChunkHandled | simulator/device/simulator.c:222-248 | any chunk the update has sent is the next one or already stored, and is acknowledged |
| LossyLink.ServesBegin | simulator/device/simulator.c:158-211 | a FW_BEGIN of this update, current or stale, loses no progress and is accepted, or refused for want of memory with nothing changed |
| LossyLink.ServesData | simulator/device/simulator.c:212-256 | a FW_DATA of this update, current or stale, is accepted and keeps flash a prefix of the image |
| LossyLink.ServesStatus | simulator/device/simulator.c:257-268 | a FW_STATUS of this update reports the device's session and offset |
| LossyLink.ServesEnd | simulator/device/simulator.c:269-277 | a FW_END of this update finds the image complete |
| LossyLink.ServesVerify | simulator/device/simulator.c:278-294 | a FW_VERIFY of this update finds the announced checksum |
| LossyLink.ServesActivate | simulator/device/simulator.c:295-305 | a FW_ACTIVATE of this update finds a verified image and names the version |
| LossyLink.ServesReboot | simulator/device/simulator.c:306-311 | a REBOOT finds the image installed and leaves it |
| LossyLink.ServesRequest | simulator/device/simulator.c:153-311 | every request this update can have on the line keeps the device ready for the host, does not outdate an answer already given, and is accepted, save a FW_BEGIN for which there is no memory |
| Resumption.CalmWithout | simulator/device/simulator.c:180-188 | frames that leave a session resumable still do when some of them are lost |
| Resumption.StaysResumable | simulator/device/simulator.c:153-311 | handling any request leaves a resumable session resumable, if and only if it does not store at the session's offset bytes that the image of its label does not have there |
| Resumption.CalmAppend | simulator/device/simulator.c:153-256 | and when any request follows them that is no chunk, or a chunk of bytes that all listed images have there |
| Resumption.CalmTwice | simulator/device/simulator.c:212-256 | and when the last of them is sent again |
| Resumption.RequestsAreCalm | simulator/device/simulator.c:153-311 | whichever frames of an interrupted update still reach the device, and whether it has memory or not, the session they leave holds the beginning of the image its label stands for |
| LinkInvariant.NumbersDoNotRepeat | src/device/session.c:102-111 | one update is too short for its sequence numbers to repeat |
| LinkInvariant.PassKeeps | simulator/device/simulator.c:153-311 | the device handling a frame from before the update keeps the joint invariant |
| LinkInvariant.DeviceStepKeeps | simulator/device/simulator.c:153-311 | the device handling any frame on the line keeps the joint invariant, its answer lost or not, memory there or not |
| LinkInvariant.ReplyAdvances | src/upgrade/upgrade.c:94-151 | the host accepts the answer to its request, and moves to the phase and offset the device has |
| LinkInvariant.AdvanceIsSound | src/upgrade/upgrade.c:36-151 | the request that follows is one the device is ready for |
| LinkInvariant.SessionAccepts | src/device/session.c:125-157 | the tracker completes the request in flight exactly on an answer to it |
| LinkInvariant.AnswerKeeps | apps/devmgrd/daemon.c:198-256 | taking the awaited answer keeps the invariant and leads to the next request, or from REBOOT to completion; the daemon stops exactly if the next request cannot be queued |
| LinkInvariant.RefusalKeeps | apps/devmgrd/daemon.c:233-238 | taking a refusal fails the update and keeps the invariant |
| LinkInvariant.StaleReplyKeeps | apps/devmgrd/daemon.c:198-212 | any other answer keeps the invariant and the update as it was |
| LinkInvariant.ReceiveStepKeeps | apps/devmgrd/daemon.c:198-256 | receiving any frame on the line, for any verdict of the output buffer, keeps the invariant, and fails the update exactly on a refusal of its request |
| LinkInvariant.RetransmitKeeps | src/device/session.c:176-187 | sending the request again keeps the invariant, whether it gets into the buffer or not, and whether it stops the daemon or not |
| LinkInvariant.RecoveryReady | src/upgrade/upgrade.c:159-171 | the recovery after a timeout asks a question the device is ready for |
| LinkInvariant.TimeoutKeeps | apps/devmgrd/daemon.c:616-637 | a request that runs out of retries leads to recovery or failure, for any verdict of the output buffer: failure exactly if no recovery is left or its request cannot be queued |
| LinkInvariant.TickStepKeeps | apps/devmgrd/daemon.c:613-637 | the timer, at any time and for any verdict of the output buffer, keeps the invariant |
| LinkRuns.LaunchEstablishes | apps/devmgrd/daemon.c:95-110 | starting an update establishes the invariant, its first request queued or not, with frames from before still on the line and an interrupted session of this image on the device |
| LinkRuns.QuietStart | apps/devmgrd/daemon.c:95-110 | an empty line, and a device with no session under the update's label or an interrupted one of its image, is such a start |
| LinkRuns.EarlierIsForeign | src/device/session.c:102-111 | frames of the last 2^32-1 requests, less the most an update can take, do not carry a number it is going to use |
| LinkRuns.RunKeeps | src/upgrade/upgrade.c:36-171 | every run of host, device and losing line keeps the invariant |
| LinkRuns.CompleteMeansInstalled | src/upgrade/upgrade.c:94-151 | in every run, complete means the flash is the image, the version is the requested one, and the device has left its bootloader with its session closed |
| LinkRuns.HostTrailsByOneChunk | src/upgrade/upgrade.c:115-129 | in every run, during transfer flash up to the device's offset is the image and the host is at that offset or one chunk behind |
| LinkRuns.FailsExactly | apps/devmgrd/daemon.c:198-256 | in every run, a step fails an active update if and only if the timer finds its last retry gone with no recovery left or no room to queue one, or the host receives a refusal of its request |
| LinkRuns.RefusesOnlyForMemory | simulator/device/simulator.c:153-311 | in every run the device refuses a request of the update if and only if it is a FW_BEGIN for which there is no memory, and no other refusal is ever on the line |
| LinkRuns.FewChunksSent | src/upgrade/upgrade.c:122-129 | in every run at most chunks + 3 FW_DATA requests are built |
| LinkRuns.OffsetNeverFalls | src/upgrade/upgrade.c:115-129 | in every run, once a session is open no step takes the host's offset back |
| AnySession.ToldStays | simulator/device/simulator.c:153-311 | whatever bytes the device has under the update's label, none of the update's frames closes that session, changes a full flash or takes back what has been granted |
| AnySession.GrantTells | simulator/device/simulator.c:158-305 | a grant of FW_BEGIN, FW_END, FW_VERIFY or FW_ACTIVATE proves the session's label, that it is full, that its checksum is the image's, or the version |
| AnySession.NextHolds | apps/devmgrd/daemon.c:198-256 | every step of host, any device and losing line keeps an invariant that is about what has been granted, and not about what the device stored |
| AnySession.CompleteMeansVerified | src/upgrade/upgrade.c:130-151 | in every run, whatever session the device has and whatever is on its way to it, complete means that the flash has the image's size and checksum, the version is the requested one, and the device has left its bootloader with its session closed |
| QuietLine.HandlingWorks | simulator/device/simulator.c:153-311 | the device handling a frame without loss leaves the awaited answer on its way and less work to do |
| QuietLine.AnswerWorks | apps/devmgrd/daemon.c:198-256 | the host taking the awaited answer completes the update, or gets a round further with its next request on the line |
| QuietLine.StepWorks | apps/devmgrd/daemon.c:602-655 | whatever the next step is, if nothing is lost and the timer does not end the update, it completes or a measure of rounds and frames goes down by what the step moved |
| QuietLine.EveryScheduleCompletes | src/upgrade/upgrade.c:36-171 | from any point of any run with the request or its answer on the line: every continuation without loss, in which the timer does not end the update, has completed it after as many frames moved as the measure says, plus one for a report and two for a retransmission |
| QuietLine.Retransmits | src/device/session.c:176-187 | a request with retries left is on the line again when its deadline comes |
| QuietLine.Recovers | src/upgrade/upgrade.c:159-171 | a request whose retries are gone is followed by a recovery that is on the line, if one is left |
| QuietLine.HopelessForever | apps/devmgrd/daemon.c:602-655 | once the daemon has stopped, or the request is lost with neither retry nor recovery left, no further steps at all complete the update |
| QuietLine.QuietLineCompletes | src/upgrade/upgrade.c:36-171 | from any point of any run, some continuation without loss completes the update if and only if the daemon still runs it, its request is on the line, can be repeated or can be followed by a recovery, and the first answer on its way is no refusal |
| QuietLine.AnyLineCompletes | src/upgrade/upgrade.c:36-171 | from any point of any run, some continuation at all completes the update if and only if the daemon still runs it and its request is on the line, can be repeated or can be followed by a recovery |
| Stm32Update.Bootloader.constructor | firmware/stm32f103/bootloader/update.c:23-34 | an idle bootloader |
| Stm32Update.Bootloader.DuplicateMatches | firmware/stm32f103/bootloader/update.c:36-49 | the 32-byte compare loop says yes exactly when every read works and the stored bytes are the chunk |
| Stm32Update.Bootloader.OnBegin | firmware/stm32f103/bootloader/update.c:51-86 | new state and answer to FW_BEGIN: refusal, resumption, failed erase or new session |
| Stm32Update.Bootloader.OnData | firmware/stm32f103/bootloader/update.c:88-113 | new state, flash and answer to FW_DATA, the flash failing or not |
| Stm32Update.Bootloader.OnRequest | firmware/stm32f103/bootloader/update.c:115-160 | new state, answer, and call of activation or reboot for every request |
| Stm32Update.ExtendKeeps | firmware/stm32f103/bootloader/update.c:115-160 | every request, on any flash, keeps flash below the offset equal to the accepted chunks, and verified images matching their checksum |
| Stm32Update.ActivationSafe | firmware/stm32f103/bootloader/update.c:146-151 | after any requests on any flash, activation is only called for the in-order concatenation of this session's chunks, with the announced size and checksum |
| Stm32Update.AcknowledgedStays | firmware/stm32f103/bootloader/update.c:88-113 | every acknowledged chunk stays readable at its offset until a new session erases the flash |
| Stm32Update.RepeatableUnlessAdvancing | firmware/stm32f103/bootloader/update.c:115-160 | on a working flash a repeated request is answered alike and changes nothing, if and only if it is not the FW_END or FW_VERIFY that moves the stage on |
| Stm32Update.RepeatedEndRefused | firmware/stm32f103/bootloader/update.c:134-138 | a concrete FW_END that is accepted and refused when repeated |
| Stm32Link.RefinesBegin | firmware/stm32f103/bootloader/update.c:51-86 | the bootloader answers this update's FW_BEGIN as the simulator does, or refuses and stays as it is to the update |
| Stm32Link.RefinesData | firmware/stm32f103/bootloader/update.c:88-113 | the same for any chunk of this update, the write failing or not |
| Stm32Link.RefinesRequest | firmware/stm32f103/bootloader/update.c:115-160 | the same for every request this update can have on the line |
| Stm32Link.BootStaysResumable | firmware/stm32f103/bootloader/update.c:51-113 | handling any request leaves a session that would be resumed with the beginning of the image, if and only if it does not store at its offset bytes that the image does not have there |
| Stm32Link.HonestIsCalm | firmware/stm32f103/bootloader/update.c:88-113 | frames from before the update whose chunks are where the image has them leave the session resumable, whichever of them arrive and however the flash fails |
| Stm32Link.OldHandled | firmware/stm32f103/bootloader/update.c:115-160 | the bootloader handling a frame from before the update keeps the joint invariant |
| Stm32Link.NextBootKeeps | firmware/stm32f103/bootloader/update.c:115-160 | every step of host, bootloader and losing line, with any flash, keeps the joint invariant of the link, the bootloader seen as the simulator and its refusals as lost answers, and keeps the record of activations to the update's image |
| Stm32Link.CompleteMeansActivated | firmware/stm32f103/bootloader/update.c:146-156 | in every run, with frames from before still on the line, an update reported complete has been activated under its size, checksum and version while the flash held exactly its image, and the device has been told to restart |
| Stm32Runs.StrandedNeverCompletes | firmware/stm32f103/bootloader/update.c:134-145 | once the bootloader has moved on and the answer is lost, no continuation completes the update |
| Stm32Runs.LostAnswerIsFatal | firmware/stm32f103/bootloader/update.c:134-145 | in every run, losing the only answer to the request in flight strands the update if and only if it is the FW_END or FW_VERIFY that moved the bootloader on, and then no continuation completes it |
| Stm32Completion.CrampedNeverCompletes | firmware/stm32f103/bootloader/update.c:64-99 | once nothing that is on the line can rid the bootloader of a session that takes only smaller chunks and lacks more than one of them, no continuation completes the update |
| Stm32Completion.HopelessNeverCompletes | apps/devmgrd/daemon.c:602-655 | once the daemon has stopped, or the request is neither on the line nor granted with no retry and no recovery left, no continuation completes the update |
| Stm32Completion.HopefulCompletes | firmware/stm32f103/bootloader/update.c:115-160 | in every other state that is not stranded there is a continuation that completes it |
| Stm32Completion.CompletableExactly | firmware/stm32f103/bootloader/update.c:115-160 | from any point of any run, some continuation completes the update if and only if the daemon runs it and its request is on the line, granted, can be repeated or can be followed by a recovery; it is not stranded by a lost answer; and it can get a session that takes its chunks |
| Stm32Completion.LaunchCompletable | firmware/stm32f103/bootloader/update.c:64-99 | an update whose first request is queued can be completed if and only if it can get a session that takes its chunks; with nothing from before on the line, exactly unless the bootloader would resume one that takes only smaller chunks and lacks more than one of them |
| Stm32Completion.SmallerChunksBlock | firmware/stm32f103/bootloader/update.c:64-99 | after a client's FW_BEGIN for the image with a smaller chunk size, the update is one that can start and that no run completes |
| Stm32Completion.SmallerChunksInput | firmware/stm32f103/bootloader/update.c:64-99 | a concrete one: two bytes, in a session of one-byte chunks |
| Stm32Completion.StrandedReached | firmware/stm32f103/bootloader/update.c:134-138 | from every start that finds room a run in which the answer to FW_END is lost and the update stranded |
| Worker.Mailbox.constructor | src/worker/worker.c:54-80 | an empty mailbox |
| Worker.Mailbox.SubmitFirmware | src/worker/worker.c:82-100 | a job is taken only into an idle mailbox, with the order of refusals |
| Worker.Mailbox.TakeResult | src/worker/worker.c:107-123 | the result with its image moves to the caller, once |
| Worker.Mailbox.BeginJob | src/worker/worker.c:28-39 | the worker's first critical section |
| Worker.Mailbox.PostResult | src/worker/worker.c:44-48 | the worker's second critical section |
| Worker.RunKeeps | src/worker/worker.c:22-139 | every interleaving keeps the mailbox invariant |
| Worker.OneUseOneWakeup | src/worker/worker.c:28-49 | in every interleaving at most one of pending, running and result, and exactly one wake-up per result |
| Worker.NothingOverwritten | src/worker/worker.c:44-49 | no result is overwritten and the reactor never comes for one that is not there |
| Worker.EveryImageOnce | src/worker/worker.c:111-133 | every opened image is in exactly one place, and after destruction handed over or closed exactly once |
| Worker.PendingJobIsServed | src/worker/worker.c:28-39 | a pending job finds the worker waiting for it, unless it was told to stop |
| Worker.JoinFinishes | src/worker/worker.c:125-133 | wherever the worker is when it is told to stop, its next moves let the join finish |
| Daemon.Reactor.constructor | apps/devmgrd/daemon.c:520-562 | a context with nothing connected |
| Daemon.Reactor.StartHandshake | apps/devmgrd/daemon.c:577-590 | the context after the handshake request has been queued, and the status that decides whether the loop starts |
| Daemon.Reactor.QueueOutput | apps/devmgrd/daemon.c:178-191 | one frame at a time: busy, or the frame is in the buffer and the verdict is the transport's |
| Daemon.Reactor.Answer | apps/devmgrd/daemon.c:144-167 | the response is in the client's own buffer; one whose payload is too long says so and has none |
| Daemon.Reactor.QueueUpgradeRequest | apps/devmgrd/daemon.c:279-294 | builds, numbers and queues the next request; a failure leaves none in flight |
| Daemon.Reactor.HandleWorkerCompletion | apps/devmgrd/daemon.c:73-111 | a stale, failed or awaited validation, and what becomes of its image |
| Daemon.Reactor.AdoptImage | apps/devmgrd/daemon.c:95-110 | the awaited image is adopted and its update set going, or released |
| Daemon.Reactor.HandleDeviceFrame | apps/devmgrd/daemon.c:198-256 | a frame from the device: telemetry kept and counted, handshake, update, the client in service with the response it is sent, or nobody's |
| Daemon.Reactor.HandleUpgradeCommand | apps/devmgrd/daemon.c:346-386 | an upgrade command: the client is told that it is malformed, that the daemon is busy, or how submitting the job went |
| Daemon.Reactor.SubmitJob | apps/devmgrd/daemon.c:367-386 | a new operation, its file with the worker, and the client told its number or the error |
| Daemon.Reactor.ReportProgress | apps/devmgrd/daemon.c:332-345 | the client is told operation, phase, result, offset and size, or that there is no such operation |
| Daemon.Reactor.HandleCommand | apps/devmgrd/daemon.c:318-420 | a client's command, with the status and payload of its response for every refusal, in the order of the refusals |
| Daemon.Reactor.ForwardCommand | apps/devmgrd/daemon.c:406-419 | a command is numbered and queued for the device, or the client told why not |
| Daemon.Reactor.RecoverOrFail | apps/devmgrd/daemon.c:619-630 | recovery, or the end of the update |
| Daemon.Reactor.HandleTimer | apps/devmgrd/daemon.c:613-637 | retransmission, recovery, or a timeout for update, client or handshake |
| Daemon.AcceptStaysGood | src/upgrade/upgrade.c:94-151 | an accepted answer leads an active update to another phase of transfer, or to its end |
| Daemon.QueueUpgradeEffect | apps/devmgrd/daemon.c:279-294 | after queueing, the request in flight is the one the phase calls for, or there is none |
| Daemon.WorkerReadyKeeps | apps/devmgrd/daemon.c:73-111 | a validation reaching the reactor keeps the joint invariant |
| Daemon.DeviceFrameKeeps | apps/devmgrd/daemon.c:198-256 | any frame keeps the joint invariant while the loop continues |
| Daemon.CommandKeeps | apps/devmgrd/daemon.c:318-420 | any command keeps it |
| Daemon.TimerKeeps | apps/devmgrd/daemon.c:613-637 | the timer keeps it while the loop continues |
| Daemon.TimeoutFailsExactly | apps/devmgrd/daemon.c:618-630 | when the last retry of a request is gone, the update fails if and only if it is neither in transfer nor recovery, its three recoveries are gone, or the output buffer cannot take the request for one |
| Daemon.BusyTimeoutFails | apps/devmgrd/daemon.c:618-630 | a frame still in the output buffer makes the first unanswered request fail the update |
| Daemon.LoopKeeps | apps/devmgrd/daemon.c:602-655 | every sequence of events keeps it while the loop continues |
| Daemon.BootEstablishes | apps/devmgrd/daemon.c:577-590 | the handshake establishes it |
| Daemon.ReactorStatesAgree | apps/devmgrd/daemon.c:602-655 | in every reachable state: upgrading if and only if in transfer if and only if an image is mapped, then with exactly the request its phase calls for; an active update excludes a client; a served client has a request in flight; a validation under way is with the worker |
| Daemon.FrameIsDriven | apps/devmgrd/daemon.c:198-256 | during a transfer a frame moves session, update and output buffer, and stops the loop, as in the update driver of the link theorems |
| Daemon.TimerIsDriven | apps/devmgrd/daemon.c:613-637 | during a transfer so does the timer, retransmissions included |
| Daemon.OthersStandStill | apps/devmgrd/daemon.c:318-420 | during a transfer nothing else touches session, update or output buffer |
| Daemon.ReactOwned | apps/devmgrd/daemon.c:73-256 | even a handler that fails keeps every image accounted for |
| Daemon.ShutdownFinishes | apps/devmgrd/daemon.c:564-575 | whatever the worker has done since it was told to stop, its last moves let the cleanup finish |
| Daemon.EveryImageClosedOnce | apps/devmgrd/daemon.c:564-575 | however the loop ends and whatever the worker was doing, cleanup can finish, and when it has, every image ever opened has been closed exactly once |
| Installation.ValidationLaunches | apps/devmgrd/daemon.c:73-111 | a validation that leads to a transfer is a start of the link theorems, with whatever is still on the line |
| Installation.ReceiptIsLinked | apps/devmgrd/daemon.c:198-256 | during a transfer a received frame is a step of the link |
| Installation.TimerIsLinked | apps/devmgrd/daemon.c:613-637 | during a transfer the timer is a step of the link |
| Installation.LinkLeaves | src/upgrade/upgrade.c:94-171 | an update that ends leaves a device and a line from which the next one can start, and if complete, an installed image, no session, and nothing on the line that would open one |
| Installation.InstalledUnlessDisturbed | simulator/device/simulator.c:153-311 | a device that has an update installed keeps image and version, if and only if the request it handles is no FW_BEGIN that gets memory with other contents, no next chunk of the open session with other bytes, and no activation of another version |
| Installation.NextKeepsPlant | apps/devmgrd/daemon.c:602-655 | every move of daemon, client, worker, device and line keeps the invariant of the whole system |
| Installation.CompleteMeansFileInstalled | apps/devmgrd/daemon.c:592-660 | in every run of the whole system from its start, through any number of updates: whenever an update is reported complete, the device's flash is exactly the file adopted for it, under the version the client asked for, and its session is closed |
| Numbering.HandlerContinues | src/device/session.c:93-123 | every handler keeps the numbers in order, and what it leaves in the output buffer was there before or is the last request numbered |
| Installation.NextKeepsNumbers | src/device/session.c:93-123 | after every move each frame on the line carries no number, or that of a request sent so far |
| Installation.EarlyCompletionMeansFileInstalled | apps/devmgrd/daemon.c:592-660 | the same as CompleteMeansFileInstalled with nothing asked of the numbers on the line, if the updates are adopted before the numbers come round |
| AnyClients.NextHolds | apps/devmgrd/daemon.c:602-655 | with clients that send anything and any device, every move keeps the invariant, and completes an update only on a device whose flash has the file's size and checksum, under the requested version |
| AnyClients.CompletionIsVerified | apps/devmgrd/daemon.c:592-660 | in every run of the whole system from its start, for any device and any commands of clients: in the moment an update becomes complete, the device's flash has the size and checksum of the file adopted for it, the device runs under the version the client asked for, and its session is closed |
| AnyClients.EarlyCompletionIsVerified | apps/devmgrd/daemon.c:592-660 | the same with nothing asked of the numbers on the line, if the updates are adopted before the numbers come round |
| FirstUpdate.UpdateCanComplete | apps/devmgrd/daemon.c:592-660 | for any listed file and version there is an allowed run from the daemon's start, on any device whose session can be resumed, that completes its update and leaves the file in the device's flash |
| Mishaps.ClientUndoesUpdate | apps/devmgrd/daemon.c:406-419 | after an update is complete, a client that enters the bootloader and sends a FW_BEGIN of its own replaces the image, and the update is still reported complete |
| Mishaps.CompletionCanBeUndone | apps/devmgrd/daemon.c:318-420 | for any listed file there is such a run from the daemon's start |
| Mishaps.BusyTimeoutReached | apps/devmgrd/daemon.c:618-630 | from the daemon's start a run leads to a transfer with no recovery used whose last retransmission is still in the output buffer at its deadline: the update fails, and would not have had the buffer been flushed |

## Left out

- Serial and pseudo-terminal transports, and the epoll, timer, signal and socket plumbing of the daemon: system calls; the state its handlers share is modelled.
- Opening and mapping a firmware file: an operation that fails or yields contents of 1 byte to 16 MiB with their true checksum.
- The command-line programs, the local IPC codec, logging, and the tables of names: easier copies or strings.
- Telemetry, health, statistics, delay and random faults of the simulator, and what it does with requests other than those of an update; loss is nondeterministic instead, and any answer is possible to those requests.
- The bootloader's application part (`device_app.c`): two stateless answers.
- Null-pointer arguments: references in the model are never null.
- Parser.Parser.Feed: the 64-bit counters do not wrap around in the model; the same holds for those of the session.
- Parser.FeedSlices: requires callbacks that succeed, since a failing one ends a feed early; Parser.Parser.Feed covers failing ones.
- Parser.Parser.Drain: the callback sees only how many frames came before, since it stands for any verdicts at all.
- Stm32Update.Bootloader.OnBegin: a failing erase is taken to leave the flash as it was, as the code keeps the state that relies on it.
- Stm32Update.Bootloader.OnData: a failing write is taken to disturb only the cells it was to fill, as the code goes on relying on the others.
- Stm32Update.Bootloader.OnRequest: responses always fit the caller's buffer, and the checksum of FW_VERIFY is over flash that can be read.
- Worker.Mailbox.constructor: does not model that creating the mutex, the eventfd or the thread can fail; the daemon then does not start.
- Daemon.Reactor.constructor: does not model that setting up the worker, the transport, the sockets and the timers can fail; the daemon then does not start.
- Daemon.Reactor.Answer: does not model the encoding of a response, nor that the connection is closed once it is written.
- LinkRuns.CompleteMeansInstalled: for a line that neither duplicates, reorders nor corrupts frames, frames on it whose numbers the update is not about to use, a device that is not told to fail verification, and one image to a label (size, checksum, chunk size and version); the code recognises an interrupted session by its label alone.
- Installation.NextKeepsPlant: under the conditions of the next line.
- Installation.CompleteMeansFileInstalled: under the same conditions; and for clients that send no FW_BEGIN while an update is reported complete, without which it is false (Mishaps.CompletionCanBeUndone; exactly which requests do it, Installation.InstalledUnlessDisturbed), and no FW_DATA that, with some of what is before it on the line lost, would put other bytes into a session under a listed label (exactly when one does, Resumption.StaysResumable). All other commands are theirs to send, so the device may be back in its bootloader. A frame goes to the device whole: part of a frame at the end of a stopped daemon is a lost frame. AnyClients.CompletionIsVerified has none of these conditions on clients and device, and says size, checksum and version instead of the bytes.
- QuietLine.EveryScheduleCompletes: that the timer does not end the update is a condition, since clocks are parameters.
- Stm32Link.CompleteMeansActivated: for frames from before the update that carry no number it is going to use and of which none, if it arrives, would leave in a session to be resumed bytes that the image does not have (exactly when one does, Stm32Link.BootStaysResumable). A restart leaves the update core as it was, as the code does; what runs after it is not followed.
- Stm32Completion.StrandedReached: for starts whose first request is queued and that can get a session which takes their chunks; the others have failed at once, or no run completes them (Stm32Completion.LaunchCompletable).
- Corruption on the line: a corrupted frame is rejected (FrameCodec.BurstRejected), but a payload may itself contain a valid frame, so corruption is not loss at stream level.
- Daemon.LoopKeeps: says nothing once a handler has failed, because the loop then ends; a handshake that times out, or a retransmission into a busy buffer, does so. Daemon.EveryImageClosedOnce covers that case.
