# Lely CANopen on RT-Thread: verified model

This project models the parts of the Lely CANopen port for RT-Thread whose
correctness depends on interleavings, retransmission or bit-level tricks, and
proves what they are for.  All files belong to one Dafny project
(`dafny verify dfyconfig.toml`).

| area | files | what is modelled |
|---|---|---|
| Application SDO requests | `SdoModel`, `SdoInvariant`, `SdoFrame`, `SdoAppSteps`, `SdoOrder`, `SdoOwner*`, `SdoRuns`, `SdoAdmission`, `SdoTheorems`, `SdoLatch`, `SdoRepost`, `SdoLimits` | the eleven-state request shared by the owner and any number of threads, with the command queue, its admission latch and the callback pins, as a transition system whose steps are single atomic operations |
| Per-node FIFO | `PendingFifo` | the linked list the owner edits in place, and the reap loop |
| NMT gate | `NmtGate`, `SdoGate` | suspension of application SDOs around resets and boots, alone and combined with the request protocol |
| Client-SDO | `MemBuf`, `CsdoModel`, `Csdo`, `CsdoRuns`, `CsdoSegDownload`, `CsdoBlockDownload`, `CsdoUpload*`, `CsdoListens`, `CsdoValue*` | the wire protocol of section 7.2.4.3 of CiA 301: `CsdoModel` gives one function per event and state, `Csdo` the object with its members and byte buffers and the handlers that update them in place, the others prove what holds over runs and against a server behind a lossy channel |
| Concise DCF | `ConciseDcf`, `DcfChain` | both validators, the generator, the chain of downloads, and the chain run on a Client-SDO |
| Checksums and frame size | `Gf2`, `BitStrings`, `Crc16`, `CanCrc`, `Stuffing`, `StuffCount`, `CanMsg`, `CanWorst` | table-driven CRCs against polynomial division, the exact size of a CAN frame against bit-by-bit stuffing, and the largest size any frame has |
| EMCY history | `EmcyRing`, `EmcyReads` | the ring of seqlock slots with a concurrent reader |
| Timers, EMCY queue, clock | `CanTimers`, `EmcyInhibit`, `Ticks` | the timer heap, the inhibit queue, and tick arithmetic |
| Shared | `Options`, `Sequences`, `Arith` | optional values, sequences of sequences, quotients |

How the request protocol is proved: `SdoInvariant.Inv` is an inductive invariant.
`ReqOk` is about one record, the other predicates tie records to threads, to the
owner's lists and to the reference counts.  `SdoFrame` says what a step that
touches one thread and one record has to re-establish, so that each step needs
only a local lemma.  `SdoTheorems` reads the results off the invariant.

Six promises turned out to hold only under a condition; each has a concrete
counterexample and the exact boundary:

* `cancel` may return `RT_EOK` for a request it found QUEUED although that request
  becomes ACTIVE later.  This happens when the post it belonged to is rejected
  afterwards: the poster puts the request back to NEW and it may be posted again
  (`SdoLimits.CancelOfRejectedPost`, `SdoTheorems.RejectionFrees`).  From any state in
  which a post is being rejected, some continuation makes the request ACTIVE if and
  only if the stop latch is clear and the owner is not past its main loop
  (`SdoRepost.RejectedBoundary`).  The promise holds in every state up to any later
  one if and only if the post is not rejected in between
  (`SdoTheorems.CancelIffNotRejected`); an admitted post cannot be rejected any more
  (`AdmittedStands`).
* After the stop latch is set a thread can still enter the queue section
  (`SdoLimits.EntersAfterLatch` is such a run).  In a state with the latch set, a
  thread outside the section has a continuation in which it enters if and only if it
  is about to load the quiescing flag for the second time and that flag is clear
  (`SdoLatch.LatchBoundary`; `LatchShuts` is the half about all continuations).  After
  the owner's wait none is inside (`SdoTheorems.NoneInside`).
* A transfer that the application itself aborts with code zero is confirmed as a
  success, whatever has been transferred: an upload with the data as they stand, a
  download that the server has not got (`CsdoUploadSize.Halfway`,
  `CsdoSegDownload.Unanswered`, `CsdoBlockDownload.NothingSent` are such runs).  Every
  success is earned if and only if the code of every abort is different from zero
  (`AbortCodes` in each of the three modules).  A chain of downloads that ends with
  zero has sent all entries if and only if none of its downloads was aborted with code
  zero (`DcfChain.SendsAll`, with the run `Skipped`).
* If a server does not announce the size, a block upload can lose all data and
  still be confirmed with code zero: a repeated last segment with sequence number
  93 reads as the end of the transfer (`CsdoUploadLoss.UnsizedLoss`, for every data
  set of that many segments).  A success delivers the server's data if and only if
  the server announced their size or has none (`CsdoUpload.UploadIsExact`).
* A request to download a value fails while another transfer is in progress, as
  documented (`upstream/include/lely/co/csdo.h:346-350`), but by then it has replaced
  the client's own buffer.  An upload under way can end in a success that delivers the
  refused value in place of the bytes received so far
  (`CsdoValueLoss.RefusedReplaces`, `ZerosDelivered`).  A value download under way goes
  on with the bytes of the refused value and is confirmed as a success
  (`CsdoValueLoss.SecondReplaces`, and `OtherSent` for any two values of the same length
  above four bytes); if the buffer had to grow, it reads a block that has been freed.
  A value request is harmless for every value if and only if no upload is under way,
  nor a download that still has to read its data from the own buffer
  (`CsdoValue.ValueBoundary`): one that has not sent all its segments, or a block
  download before its end request.
* The chain of downloads asserts that the client is valid whenever one of them is
  confirmed (`upstream/src/co/csdo.c:2639-2641`).  That holds if and only if the
  confirmation is not due to an update that makes the parameters invalid
  (`DcfChain.AssertsValid`; `Invalidated` is such a run).

One bound turned out not to be tight: no CAN frame attains the worst-case size that
`can_msg_bits` computes.  The exact size of every frame is at least one bit less, and a
base frame with seven data bytes attains that (`CanWorst.NeverWorst`, `OneLess`).

## Model

| member | source | states |
|---|---|---|
| SdoAppSteps.AppPreserves | port/rtthread/src/master_sdo_request.c:398-502 | every atomic step of post, cancel, unpin, destroy, a callback or stop() keeps the protocol invariant, in any state of the other threads |
| SdoOwnerStages.OwnerPreserves | port/rtthread/src/master_sdo.c:183-563 | every owner step (receive, claim, start, confirm, promote, cancel, detach, complete, teardown) keeps the invariant |
| SdoRuns.RunInv | port/rtthread/src/runtime.c:539-565 | every state of every interleaving from prepare to exit satisfies the invariant |
| SdoRuns.RunFollows | port/rtthread/src/master_sdo_request.c:27-154 | from any state of a run to any later one: final results are frozen, counters grow, a freed record is not written |
| SdoTheorems.CompletionOnce | port/rtthread/src/master_sdo_request.c:86-98 | at most one completion event per request, only for DONE, and sent by the time completion_refs is zero again |
| SdoTheorems.ResultFrozen | port/rtthread/src/master_sdo_request.c:38-56 | DONE is absorbing; staged or published result fields never change |
| SdoTheorems.FreeIsSafe | port/rtthread/src/master_sdo_request.c:190-221 | from the free on, the request is in no owner list, no thread is posting it, between pin and unpin, or inside its event send, and its record never changes |
| SdoTheorems.CancelRefsCount | port/rtthread/src/master_sdo_request.c:58-80 | sdo_cancel_refs is the number of staged or not yet subtracted requests plus the owner's speculative add |
| SdoTheorems.StagesAdvance | port/rtthread/src/runtime.c:539-565 | the owner's teardown never goes back |
| SdoTheorems.TeardownBarrier | port/rtthread/src/master_sdo.c:538-563 | past the cancel wait no thread pins a request or owes a runtime reference; past exit no thread inside cancel uses the runtime, then or later |
| SdoTheorems.CancelIffNotRejected | port/rtthread/src/master_sdo_request.c:413-501 | after cancel returned RT_EOK for QUEUED or PENDING in an attempt that stands, in every state up to n the request has not run and can end only as CANCELED, if and only if its post is not rejected before n |
| SdoTheorems.CancelWins | port/rtthread/src/master_sdo_request.c:413-501 | while the post attempt of a cancelled request stands no transfer was or is issued; the attempt of a request found PENDING always stands |
| SdoTheorems.AdmittedStands | port/rtthread/src/master_command.c:249-266 | a post attempt whose command was queued is never taken back |
| SdoTheorems.RejectionFrees | port/rtthread/src/master_sdo_request.c:346-354 | a rejected post makes the request NEW again in the same attempt, so that it may be posted anew |
| SdoLimits.CancelOfRejectedPost | port/rtthread/src/master_sdo_request.c:346-354 | a run in which cancel succeeds on a queued request that later becomes ACTIVE |
| SdoRepost.RejectedBoundary | port/rtthread/src/master_sdo_request.c:346-354 | from any state of a run in which a thread is rejecting a post, some continuation makes the request ACTIVE if and only if the stop latch is clear and the owner is in or before its main loop |
| SdoRepost.CanRun | port/rtthread/src/master_sdo_request.c:313-356 | from every such state the owner can finish its operation, drain the queue and clear the node, after which a new post of the request is admitted and claimed |
| SdoAdmission.QueuedOnce | port/rtthread/src/master_command.c:233-270 | over every run the command of a request has been queued exactly once if its post was admitted and never otherwise |
| SdoAdmission.SuccessIsQueued | port/rtthread/src/master_command.c:233-270 | over every run every command has been queued as often as posts of it returned success, plus once for each thread that is about to |
| SdoAdmission.PostReports | port/rtthread/src/master_sdo_request.c:346-354 | a post of a request reports success if and only if its command has been queued |
| SdoAdmission.ReceivedOnce | port/rtthread/src/master_command.c:332-490 | after the drain every command has been received as often as posts of it succeeded: that of an admitted request exactly once, that of a rejected one never |
| SdoTheorems.AllCompleted | port/rtthread/src/master_sdo.c:538-563 | once the pins have drained at teardown every admitted request is DONE, its completion has been sent once and no reference is held: no posted request is lost |
| SdoTheorems.NoneInside | port/rtthread/src/master_command.c:206-214 | after the wait for command references no thread is inside the queue section, ever again |
| SdoTheorems.Consumed | port/rtthread/src/master_command.c:332-490 | commands are consumed in order and exactly once; after the drain none is left |
| SdoLatch.LatchBoundary | port/rtthread/src/master_command.c:191-204 | in a state with the stop latch set, a thread outside the queue section may still enter it in some continuation, if and only if its next step is the second load of the quiescing flag and that is clear |
| SdoLatch.LatchShuts | port/rtthread/src/master_command.c:43-59 | once the latch is set, any other thread outside the queue section never enters it in any continuation, in this post or a later one, whatever admission_open does |
| SdoLimits.EntersAfterLatch | port/rtthread/src/master_command.c:191-204 | a run in which a thread past its second latch load enters after the latch was set |
| SdoTheorems.NodeFifo | port/rtthread/src/master_sdo.c:226-289 | per node the FIFO is bounded, without repetition, holds only PENDING, PENDING_CANCEL_PINNED or CANCEL_PENDING and not the active request, and starts are a subsequence of dispatches |
| SdoTheorems.OneActive | port/rtthread/src/master_sdo.c:457-536 | two requests of a node with a transfer under way are the same request, and a transfer starts only while the node has none |
| PendingFifo.NodeQueue.Append | port/rtthread/src/master_sdo.c:226-252 | appends at the end of the linked list unless it is full or the request was cancelled instead of claimed |
| PendingFifo.NodeQueue.Unlink | port/rtthread/src/master_sdo.c:291-315 | removes exactly the request with the identity, or reports that there is none |
| PendingFifo.NodeQueue.Detach | port/rtthread/src/master_sdo.c:426-441 | empties the list and hands out its requests in order, each unlinked |
| PendingFifo.NodeQueue.StartPending | port/rtthread/src/master_sdo.c:457-495 | takes at most the head; true only if it finished at once |
| PendingFifo.NodeQueue.Reap | port/rtthread/src/master_sdo.c:497-536 | the loop ends, and what it takes is a prefix of the FIFO |
| NmtGate.Gate.SetSuspended | port/rtthread/src/master_sdo.c:39-54 | sets both flags of the addressed nodes and of no others |
| NmtGate.Gate.OnCommand | port/rtthread/src/master_sdo.c:124-163 | each addressed node reacts to the command as specified; START and PREOP respect a reset hold |
| NmtGate.Gate.OnState | port/rtthread/src/master_sdo.c:77-122 | the node's reaction to a state; only Boot-up may end a reset hold |
| NmtGate.Gate.OnBootComplete | port/rtthread/src/master_sdo.c:165-181 | ends the hold and opens the gate only for a usable state |
| NmtGate.Gate.OnStateInd | port/rtthread/src/runtime.c:132-202 | a state indication with its pre-boot step, and a boot that completes meanwhile |
| NmtGate.SaneKept | port/rtthread/src/master_sdo.c:39-181 | over every sequence of commands, states, boot completions and teardown reset_pending implies suspended |
| NmtGate.HeldThroughout | port/rtthread/src/master_sdo.c:77-181 | a node stays held throughout a sequence of events if and only if none of them is a release: Boot-up outside a boot process, boot completion or teardown |
| NmtGate.BootDecides | port/rtthread/src/runtime.c:186-195 | after any sequence of events a boot that completes while Boot-up is processed alone decides the gate: the hold ends, and the gate is closed for an unusable state |
| NmtGate.NoTransferAfterReset | port/rtthread/src/master_sdo.c:203-224 | after an accepted reset the gate is closed under any mix of commands and states until a release |
| SdoGate.NoTransferWhileHeld | port/rtthread/src/master_sdo.c:203-289 | in every interleaving of the request protocol with NMT events: from an accepted reset to a release the node has no transfer under way, none is issued for it and no request waits for it |
| MemBuf.Buffer.Reserve | upstream/src/util/membuf.c:51-85 | what has been written is kept; on success there is room for the bytes asked for, in a block of the first size of 16, 32, 64, ... that is large enough |
| MemBuf.Buffer.Write | upstream/include/lely/util/membuf.h:222-231 | the bytes that fit are appended at the cursor |
| Csdo.CSdo.SendSegments | upstream/src/co/csdo.c:1972-1976 | the loop sends exactly the segments of the block, from the download buffer and moving its cursor |
| Csdo.CSdo.EnterBlkDnSub | upstream/src/co/csdo.c:1956-1981 | clamps the block size and sends the block, or the end request with the table-driven CRC of the buffer |
| Csdo.CSdo.BlkUpEndRecv | upstream/src/co/csdo.c:2247-2291 | the table-driven CRC over the upload buffer decides as polynomial division over the received data does |
| Csdo.CSdo.Recv | upstream/src/co/csdo.c:1487-1508 | a received frame: the handler exists, what it asserts about cursor and capacity of the buffers holds, and the object follows its specification and keeps the invariant |
| Csdo.CSdo.Time | upstream/src/co/csdo.c:1510-1520 | a timeout: the handler exists; the client is idle afterwards and whoever waited has been told the timeout code |
| Csdo.CSdo.Request | upstream/src/co/csdo.c:1216-1374 | a request is accepted exactly when the client is valid and idle; a download may be of bytes in the client's own buffer |
| Csdo.CSdo.RequestValue | upstream/src/co/csdo.c:1238-1260 | in every state: the value is written to the client's own buffer, grown if need be, and downloaded from there in place if the client is valid and idle; a download that reads the buffer reads the new bytes, or a freed block, from then on |
| CsdoValue.IdleRequest | upstream/src/co/csdo.c:1238-1260 | on a valid, idle client a value request is the download of the value's bytes, from the own buffer |
| CsdoValue.Refused | upstream/src/co/csdo.c:1329-1350 | a busy client refuses the value, segmented or in blocks, but its own buffer and a download that reads it have changed |
| CsdoValue.SafeHarmless | upstream/src/co/csdo.c:1238-1260 | a request outside of an upload and of a download that still reads the own buffer keeps the invariant, and whatever happens the transfer under way sends and confirms the same |
| CsdoValue.Disturbed | upstream/src/co/csdo.c:1238-1260 | a download that still has to read the own buffer sends other bytes after some value request |
| CsdoValue.ValueBoundary | upstream/src/co/csdo.c:1238-1260 | in every state of every run whose earlier value requests kept to it, a value request is harmless whatever the value, if and only if no upload is under way and no download that still has to read its data from the own buffer |
| CsdoValueLoss.RefusedReplaces | upstream/src/co/csdo.c:1238-1260 | an upload during which a value as long as the data received so far is refused still succeeds and delivers the value in their place; the data are right only if the two are equal |
| CsdoValueLoss.ZerosDelivered | upstream/src/co/csdo.c:1238-1260 | a run of a new client in which seven refused zeros are delivered as upload data |
| CsdoValueLoss.SecondReplaces | upstream/src/co/csdo.c:1329-1350 | after a value download and a refused value of the same length the client cannot be told from one asked to download the second value, segmented or in blocks |
| CsdoValueLoss.OtherSent | upstream/src/co/csdo.c:1238-1260 | for any two values of the same length above four bytes, a run of a new client in which the first is accepted, the second refused, and the success that confirms the first has sent exactly the segments of the second |
| CsdoListens.ListensKept | upstream/src/co/csdo.c:1487-1508 | whatever its buffers hold, a client that is not stopped listens exactly if it is valid, and a busy one is valid |
| Csdo.CSdo.Stop | upstream/src/co/csdo.c:1066-1089 | afterwards neither timer nor receiver is active and whoever waited has been told, once |
| Csdo.CSdo.Start | upstream/src/co/csdo.c:1031-1064 | a stopped client becomes idle and listens exactly if its parameters are valid; any other client is left alone |
| Csdo.CSdo.Update | upstream/src/co/csdo.c:1376-1399 | afterwards the client is idle, listens exactly if the new parameters are valid, and whoever waited has been told, once |
| CsdoRuns.ReactKeeps | upstream/src/co/csdo.c:1522-1567 | every event in every state keeps the client invariant |
| CsdoRuns.EventEnds | upstream/src/co/csdo.c:1616-1641 | an event confirms nothing, or one request more and ends idle |
| CsdoRuns.HandlersExist | upstream/src/co/csdo.c:1539-1567 | over every run the timer is armed and the receiver active only where there is a handler, and the buffer is never overrun |
| CsdoRuns.ConfirmedOnce | upstream/src/co/csdo.c:2293-2378 | over every run accepted requests are confirmed in order, each once; none is owed while idle or stopped |
| CsdoRuns.ConfirmedIdle | upstream/src/co/csdo.c:1522-1537 | a confirmation is delivered with the client no longer busy |
| CsdoRuns.SevenRetries | upstream/src/co/csdo.c:2118-2130 | the block size is halved at most seven times |
| CsdoSegDownload.InitiateStarts | upstream/src/co/csdo.c:1677-1705 | the answer to the initiate request leads to the first segment or ends an expedited download; any other frame fails |
| CsdoSegDownload.SegmentStep | upstream/src/co/csdo.c:1688-1747 | an acknowledgement with a fresh toggle leads to the segment with the next seven bytes or, after the last, to a success; any other frame fails |
| CsdoSegDownload.SegsCarry | upstream/src/co/csdo.c:2426-2443 | the segments, with alternating toggles, carry exactly the data and only the final one is marked last |
| CsdoSegDownload.SegmentedDownload | upstream/src/co/csdo.c:1677-1747 | over every run of a client, with timeouts, aborts, restarts and any frames: a success means that the request and all segments of the data, and no other frames, have been sent and each was acknowledged |
| CsdoSegDownload.AbortCodes | upstream/src/co/csdo.c:1208-1214 | no abort with a code confirms an incomplete download as a success in any run, if and only if the code is not zero |
| CsdoSegDownload.Unanswered | upstream/src/co/csdo.c:1208-1214 | for every data set, a run of a new client in which an abort with code zero confirms a download the server has not answered |
| CsdoBlockDownload.BlockSent | upstream/src/co/csdo.c:2490-2510 | the frames of a block carry the right segments, numbers and last flag |
| CsdoBlockDownload.AcceptsPrefix | upstream/src/co/csdo.c:1997-2033 | whatever is lost, an in-order server accepts a prefix of the block |
| CsdoBlockDownload.AckSyncs | upstream/src/co/csdo.c:2020-2041 | the acknowledgement of what the server accepted puts the cursor where the server's data end, and the next block starts there |
| CsdoBlockDownload.RoundKeeps | upstream/src/co/csdo.c:1913-2082 | whatever event comes and whatever frames are lost, client and server agree on the data sent so far, the transfer fails or is aborted with code zero, or the end response confirms exactly the data |
| CsdoBlockDownload.BlockDownload | upstream/src/co/csdo.c:1331-1374 | over every run from the request on: the end request carries the length of the last segment and the CRC of the data, and a success other than by an abort with code zero means that the segments the server accepted are exactly the data |
| CsdoBlockDownload.AbortCodes | upstream/src/co/csdo.c:1208-1214 | no abort with a code confirms data that the server does not have, in any run and for any losses, if and only if the code is not zero |
| CsdoBlockDownload.NothingSent | upstream/src/co/csdo.c:1208-1214 | for every data set that is not empty, a run in which an abort with code zero confirms the download with nothing at the server |
| CsdoBlockDownload.InitiateStarts | upstream/src/co/csdo.c:1913-1954 | the initiate response starts the transfer in agreement |
| CsdoUpload.SegDelivers | upstream/src/co/csdo.c:1866-1896 | the segment that answers the request extends the data by the server's next bytes |
| CsdoUpload.BlkDelivers | upstream/src/co/csdo.c:2203-2230 | a block segment is stored exactly if it is the next one |
| CsdoUpload.StepKeeps | upstream/src/co/csdo.c:1763-2291 | every delivery, loss, timeout, abort or server step keeps client and server in agreement |
| CsdoUpload.UploadIsExact | upstream/src/co/csdo.c:1763-2291 | over a lossy FIFO channel there is at most one confirmation, and a success delivers exactly the server's data if and only if the server announced the size or has no data |
| CsdoUploadSize.ConfirmedWhole | upstream/src/co/csdo.c:1876-1890 | over every run a success delivers as many bytes as were announced |
| CsdoUploadCrc.ChecksumMatched | upstream/src/co/csdo.c:2282-2290 | over every run, if a CRC was negotiated for an upload, its success is due to an end frame that carries the checksum of exactly the delivered data |
| CsdoUploadSize.AbortCodes | upstream/src/co/csdo.c:1208-1214 | no abort with a code confirms an incomplete upload as a success in any run, if and only if the code is not zero |
| CsdoUploadSize.Halfway | upstream/src/co/csdo.c:1208-1214 | a run of a new client in which an abort with code zero confirms eight announced bytes as none |
| CsdoUploadData.EventAdds | upstream/src/co/csdo.c:1811-2231 | during an upload every event extends the data by the payload of an accepted frame; stale toggles, repeated and out-of-sequence segments add nothing |
| CsdoUploadData.UploadCollects | upstream/src/co/csdo.c:1763-2291 | over every run and for every server a success delivers the accepted payloads in order, each once |
| CsdoUploadLoss.UnsizedLoss | upstream/src/co/csdo.c:2222-2281 | for every data set of 93 segments and a server that does not announce the size, a run from a new client on that loses segments and ends in a success without data |
| ConciseDcf.ParseEncoded | tools/gen_cfg_dcf.py:41-71 | decoding inverts encoding |
| ConciseDcf.ParsedIffEncoding | tools/gen_cfg_dcf.py:41-71 | a buffer is accepted exactly if it encodes a non-empty list of entries |
| ConciseDcf.Validate | port/rtthread/src/master_cfg.c:64-98 | the C validator accepts exactly the encodings and counts their entries |
| ConciseDcf.ParseBuffer | tools/gen_cfg_dcf.py:41-71 | the Python parser accepts exactly the encodings and returns the entries they encode |
| ConciseDcf.FormatBytes | tools/gen_cfg_dcf.py:140-147 | the rows contain the bytes in order, at most twelve each |
| ConciseDcf.Render | tools/gen_cfg_dcf.py:150-184 | the emitted bytes are the encoding of the entries |
| ConciseDcf.Regenerate | tools/gen_cfg_dcf.py:41-184 | an accepted buffer is emitted again unchanged |
| ConciseDcf.Chain.Start | upstream/src/co/csdo.c:1262-1289 | reads the count and submits the first entry, or ends |
| ConciseDcf.Chain.Confirmed | upstream/src/co/csdo.c:2635-2689 | submits the next entry or ends, with every framing error |
| ConciseDcf.ChainIssues | upstream/src/co/csdo.c:2635-2689 | the chain issues the encoded entries in order up to the first failure and ends once, with that failure or zero |
| ConciseDcf.DownloadIssuesEntries | upstream/src/co/csdo.c:1262-1289 | for an accepted buffer the chain issues exactly its entries and reports no framing error of its own |
| DcfChain.Confirms | upstream/src/co/csdo.c:1522-1537 | an event during a download of the chain leaves it under way or confirms it once; a success leaves the client valid and idle with everything sent |
| DcfChain.ChainStep | upstream/src/co/csdo.c:2635-2689 | whatever event the client gets, the chain waits, submits the next entry, which is always accepted, or ends with the code just confirmed |
| DcfChain.OneAtATime | upstream/src/co/csdo.c:2635-2689 | over every run of a client with a chain: the requests accepted are exactly the entries submitted so far, in order, all but the latest have succeeded and that one is under way; the chain ends once |
| DcfChain.EndsOnce | upstream/src/co/csdo.c:2671-2689 | the chain reports the code of its last confirmation for the last entry submitted, and zero only after all entries have succeeded |
| DcfChain.SendsAll | upstream/src/co/csdo.c:2635-2689 | a chain that ends with zero has sent exactly the frames of complete downloads of all entries of the buffer, in order, if and only if none of them was aborted with code zero |
| DcfChain.Skipped | upstream/src/co/csdo.c:2643-2689 | for every entry and every valid, idle client, a run in which its download is aborted with code zero and the chain ends with zero |
| DcfChain.AssertsValid | upstream/src/co/csdo.c:2639-2641 | whenever a download of the chain is confirmed the client is idle, and it is valid if and only if the event is not an update that makes its parameters invalid |
| DcfChain.Invalidated | upstream/src/co/csdo.c:2639-2641 | for every entry and every valid, idle client, a run in which the chain is confirmed while the client is no longer valid |
| Gf2.SerialIsRemainder | upstream/src/co/crc.c:32-44 | the bit-serial register computes the remainder of schoolbook division |
| Crc16.TableIsGenerated | upstream/src/co/crc.c:46-79 | the literal table equals its generator |
| Crc16.ByteStep | upstream/src/co/crc.c:82-85 | one table step is eight clocks of the register |
| Crc16.Crc | upstream/src/co/crc.c:27-87 | the checksum of every byte string equals polynomial division by 0x1021 |
| Crc16.CrcSplits | upstream/src/co/crc.c:82-86 | the checksum splits over concatenation |
| Crc16.SerialFromZero | upstream/src/co/crc.c:27-87 | with initial value zero it is the remainder of the message shifted up by sixteen |
| CanCrc.TableIsGenerated | upstream/src/can/msg.c:344-377 | the literal table equals its generator |
| CanCrc.ByteStep | upstream/src/can/msg.c:380-381 | one table step is eight clocks of the 15-bit register |
| CanCrc.CrcBits | upstream/src/can/msg.c:307-321 | the bits of one byte from an offset |
| CanCrc.CrcBytes | upstream/src/can/msg.c:323-383 | whole bytes |
| CanCrc.Crc | upstream/src/can/msg.c:277-305 | any bit offset, also negative, and any length equal bit-at-a-time CRC-15 on that range |
| Stuffing.DestuffStuffed | upstream/src/can/msg.c:146-174 | removing stuff bits recovers the frame |
| Stuffing.StuffedNoSix | upstream/src/can/msg.c:146-174 | a stuffed frame never has six equal bits in a row |
| Stuffing.WorstCase | upstream/src/can/msg.c:71-76 | for every length some bit string, not necessarily a frame with its own CRC, attains the bound on stuff bits |
| StuffCount.CountStuffBits | upstream/src/can/msg.c:146-173 | the counter that skips up to five bits at a time ends and equals bit-by-bit stuffing |
| CanMsg.HeaderIs | upstream/src/can/msg.c:86-133 | the header bytes are padding followed by start of frame, identifier, flags and length code |
| CanMsg.PutBody | upstream/src/can/msg.c:81-138 | the buffer holds header and payload |
| CanMsg.FrameInBuffer | upstream/src/can/msg.c:140-144 | with the CRC bytes the buffer holds exactly the stuffable part of the frame |
| CanMsg.MsgBits | upstream/src/can/msg.c:47-181 | the frame size for each mode, and the error cases |
| CanMsg.SizesAreOrdered | upstream/src/can/msg.c:64-76 | NO_STUFF <= EXACT <= WORST |
| CanWorst.NeverWorst | upstream/src/can/msg.c:71-76 | every classic frame, with its fixed bits and its own CRC, is at least one bit smaller than WORST |
| CanWorst.OneLess | upstream/src/can/msg.c:71-76 | a base frame with seven data bytes attains WORST less one |
| EmcyRing.PackRoundTrip | port/rtthread/src/master_emcy.c:31-39 | the reader recovers the packed event |
| EmcyRing.NextSeqIs | port/rtthread/src/master_emcy.c:87-89 | the sequence counter skips zero when it wraps |
| EmcyRing.GuardStep | port/rtthread/src/master_emcy.c:101-118 | guards step through the even values, wrapping before the top |
| EmcyReads.WriterKeeps | port/rtthread/src/master_emcy.c:72-120 | every store of a publication keeps the ring and a concurrent scan consistent |
| EmcyReads.StableRead | port/rtthread/src/master_emcy.c:370-397 | equal even guards and a matching sequence mean the words are those of that publication |
| EmcyReads.ReaderKeeps | port/rtthread/src/master_emcy.c:349-420 | every load of a scan keeps it consistent |
| EmcyReads.ReadsAreRight | port/rtthread/src/master_emcy.c:338-420 | a read reports the newest wanted event at or below the sampled sequence, untorn; empty means none in the retained window of the epoch |
| CanTimers.Net.SetTime | upstream/src/can/net.c:204-246 | processing ends; each periodic timer fires floor((t-start)/interval)+1 times, each due one-shot once, at its deadlines in non-decreasing order; all queued deadlines are after t and next is their minimum |
| CanTimers.Net.Start | upstream/src/can/net.c:439-468 | the timer is queued with its deadline and period, or only stopped; next is the minimum |
| CanTimers.Net.Stop | upstream/src/can/net.c:470-484 | the timer leaves the queue; next is the minimum |
| CanTimers.Net.SetNext | upstream/src/can/net.c:641-654 | next becomes the earliest deadline if there is one |
| EmcyInhibit.Emcy.Flush | upstream/src/co/emcy.c:900-924 | the loop over the object's buffer, inhibit time and timer has the effect its specification describes |
| EmcyInhibit.Emcy.SendFrame | upstream/src/co/emcy.c:856-898 | a frame is accepted, ignored or refused; the queue invariant is kept |
| EmcyInhibit.Emcy.Timer | upstream/src/co/emcy.c:844-854 | the timer flushes; the queue invariant is kept |
| EmcyInhibit.FlushKeeps | upstream/src/co/emcy.c:900-924 | flushing conserves frames, keeps the spacing and leaves waiting frames with the timer armed |
| EmcyInhibit.InhibitHolds | upstream/src/co/emcy.c:844-924 | in every state of every run the accepted frames are those sent followed by those waiting, any two transmissions are at least the inhibit time apart, and frames wait only behind one sent, with the timer armed at its inhibit deadline |
| Ticks.Compare | port/rtthread/src/timer.c:27-39 | the comparison orders normalized times by nanoseconds |
| Ticks.Clock.Now | port/rtthread/src/time.c:61-96 | sampled within one wrap, the counter equals the ticks elapsed since the first sample |
| Ticks.ExtensionExact | port/rtthread/src/time.c:78-88 | the same over any sequence of samples |
| Ticks.DelayIsNeeded | port/rtthread/src/timer.c:52-82 | the delay is the time to the deadline in ticks, rounded up, unless clamped |
| Ticks.DeadlineMet | port/rtthread/src/timer.c:52-82 | after an unclamped delay the clock is not before the deadline and past it by less than one tick and one nanosecond; after a clamped one it is not past the deadline |
| Ticks.TimeoutTicks | port/rtthread/src/time.c:29-53 | at least one tick, the time asked for rounded up, and within the kernel's limit |

## Left out

- RT-Thread devices, threads, events, mailboxes and memory: only their atomic effect is modelled; `rt_mq_send` may fail at any time and an allocation failure is an input of the step.
- Weak memory ordering: steps are sequentially consistent.
- Preconditions on the application that the source states but cannot enforce: one thread at a time posts a request, a request is not destroyed while it is being posted or by two threads, and `cancel` is not called on freed memory.  The plain stores that follow the store of NEW when a post is rejected belong to that step.
- Request identities: a request carries its own name in a cancel command; wrap-around of the 32-bit identity counter is not modelled.
- `sdo_stop_pending`, the creation and validation of custom channels, and the other command types: they do not touch request states.  Availability of a node is an input of dispatch; `NmtGate` models the part that depends on NMT.
- Two runs of one runtime: a model run goes from prepare to exit.
- The one-shot completion object of synchronous commands (`lely_rtt_master_sync_*`) and the staged result of NMT configuration requests (`lely_rtt_master_cfg_dcf_con`, `_reap`): both are simpler cases of the completion of an SDO request.
- Client-SDO: outgoing frames are values, not bytes; uploads go to the client's own buffer, not to one of the caller; progress indications are taken to leave the client alone, and a callback that submits a request is the event after its confirmation.
- MemBuf: sizes are unbounded, and writing in place of `membuf_alloc` is the only way bytes enter a buffer.
- Encoding of values (`co_val_write`) and object 1280h checks: a parameter update is an event with the resulting validity.
- ConciseDcf.Chain.Confirmed: takes a size comparison in `ptrdiff_t` to be exact, which on a 32-bit target holds for sizes below 2^31; accepted buffers always satisfy it.
- CsdoUpload.UploadIsExact: is about an application that does not abort with code zero, because the statement is false otherwise; the channel starts empty, and frames may be lost but not duplicated.
- CsdoBlockDownload.BlockDownload: acknowledgements that arrive say what the server has accepted of the current block; one that is lost shows as a timeout, stale ones do not arrive.
- CsdoValue: what a freed block holds is chosen once, when it is freed; runs of `CsdoRuns` contain a value download as the download of its bytes.
- DcfChain.OneAtATime: is about buffers that the validators accept; for others `ConciseDcf.Chain.Confirmed` says with which error the chain ends.
- SdoGate.NoTransferWhileHeld: an NMT command to all nodes is one event per node; the cancellation of the node's work that precedes a stop, a reset or a Boot-up has ended when the event takes effect, as in the owner thread.
- EmcyReads.ReadsAreRight: assumes that while the reader looks at one slot its guard does not go through all 2^31 - 1 even values, and that the slot does not then hold the publication 2^32 - 1 later, which has the same sequence value.
- CanTimers.Net.SetTime: times are nanoseconds instead of normalized seconds and nanoseconds, and the callbacks' return values are not modelled.
- EmcyInhibit.InhibitHolds: is about a service that stays started; stopping keeps the buffer and restarting resets the inhibit time, so neither spacing nor the armed timer is promised across a restart.
- Ticks: the 64-bit products of the delay computation are exact; a tick rate below 2^32 keeps them within 64 bits.
- The receivers of `net.c`, the error stack and object 1003h of `emcy.c`, CAN FD frames, `master_od.c`, `master_time.c`, `master_sync.c`, `master_pdo.c` and configuration requests other than concise-DCF validation: they would add only easier members.
