# MSX-AI host: verified model

The host side of MSX-AI talks to a Z80 machine over a link that may lose, repeat, garble or
forge anything, and to a foreground DOS helper that may be restarted at any time. This project
models the parts of the host where a mistake would cost data or hang a machine, and proves what
they promise.

- **Uploads and downloads** (`PutTransfer`, `UploadHelper`, `GetTransfer`, `DownloadHelper`,
  `TransferJournal`, `TransferReplies`, `OpenCodec`). One run of the program is a class whose
  methods follow the source step by step. The other end is either honest, and then moves as
  `agent/README.md:261-417` describes between any two requests, or answers anything at all.
  Journal and partial file survive; everything else is lost when a run ends, at any exchange.
  `Persistent` is what each run may rely on and leaves behind. Each link keeps a log of what was
  said; claims about CLOSE, the order of data and what the peer vouched for are about this log.
  Claims that something does succeed are about the case that nothing goes wrong (`Smooth`): the
  link is `obliging`, so it loses nothing and the helper does at once what it can, and the local
  files are `steady`. The keyboard and its spool have the same kind of partner.
- **Stream codecs** (`Crc`, `FrameCodec`, `FrameStream`, `PackBits`, `BasicListing`,
  `BasicLines`). Each streaming class is proved equal to a function of the whole input, and the
  properties are proved of that function.
- **The framed session** (`V3Session`) over a stream that may do anything.
- **The relocation linker** (`Relocation`, `MemManTsr`, `AgentTsr`).
- **Screenshots** (`VdpTables`, `VdpRender`, `VdpSprites`, `SparseCapture`): the pixels as a
  function of video memory, the loops that paint them, and the plan of what to fetch.
  `VdpPicture` and `VdpSpritePicture` say what the picture is from the other side: they store a
  screen and its sprites at literal addresses and prove that the picture gives them back.
- **Ownership** (`SnapshotLease`, `ToolLocks`) and **the keyboard** (`KeyboardRing`,
  `KeyboardTyping`).

Choices of the world outside (answers, lost messages, deadlines that pass, cancellation, power
cuts, how far a write got) are arbitrary values or `if *` branches. A loop that the source bounds
by a clock carries an arbitrary number of polls instead, so a statement about every run of a
method is a statement about every finite run of the source's loop.

## What the proofs found

- Inferring relocations from two images of one payload never meets an ambiguity:
  `Relocation.OneExplanation` shows that two tables explaining the same pair are equal, and
  `InferRelocations` never reports several. The cover search alone can be ambiguous, and stays
  so here, but the comment at `tests/test_build_memman_tsr.py:81-87` promises an ambiguity that
  the candidate filter already excludes. The check that a returned table recreates the second
  image (`tools/build_memman_tsr.py:180`) and the emission checks
  (`tools/build_memman_tsr.py:251-281`) cannot fail.
- `decode_open` accepts a resume offset without the RESUME bit, so encoding after decoding is not
  always the identity. `OpenCodec.EncodeAfterDecode` gives the exact condition,
  `UnmarkedResumeIsAccepted` a payload, and `DecodeAcceptsExactly` all accepted payloads.
- In an upload, six checks can never fail whatever the peer answers (`PutTransfer.Dead`); in a
  download, the second binding check after the size is learnt cannot fail; a queue length over 39
  computed from two pointers inside the ring cannot occur.
- A recovered status in the SUSPENDED state is not asked whether the helper had ever reached
  READY before the close intent of a zero-byte upload is journalled
  (`server/msx_real.py:2194-2202`, `server/msx_real.py:2494-2496`). The proof of the receiptless replay
  needs the environment fact that only a helper that had begun can be suspended; it is part of
  `UploadHelper.Enabled`.
- The CLOSE after the upload loop (`server/msx_real.py:2614-2618`) precedes the final checks;
  claims about CLOSE are about the one inside the loop, and for an honest helper about both.
- Sync, acknowledge and journal are needed in exactly that order for a download to survive an
  interruption at any point and a power cut: `GetTransfer.OrderIsForced`, with the two ways to
  fail in `AckBeforeSync` and `JournalBeforeAck`.
- `_recover_active_transfer` takes every rejected STATUS for the absence of a worker
  (`server/msx_real.py:2190-2195`), also one the agent rejected because it arrived garbled. The
  download then cuts its partial back to the journal while the worker lives on. If the worker had
  acknowledged more than was journalled, each later run finds it ahead of the partial, until it
  stops or a further rejection lets OPEN replace it: `GetTransfer.RejectedProbe` gives the exact
  condition, `GarbledProbeLosesPlace` a state, and `GetFile` shows that nothing else leads there.
  No byte is ever wrong: the linked file is the remote one all the same.
- The partial of a download is journalled before it has ever been synced
  (`server/msx_real.py:2708-2751`). A power cut in that window can leave a journal without its
  partial, and every later resume stops there: `GetFile` reports it exactly then.
- The build of the resident agent looks at the template bytes of the primary link only
  (`tools/build_agent_tsr.py:232-240`). A driver loads as another link exactly if that link has the
  same bytes there (`AgentTsr.GoodDrivers`); `AgentTsr.DriverCanMissLink` gives three links that
  are accepted and a driver that fails to.
- An honest helper can make an upload fail on its accepted offset, and only by becoming idle
  with bytes it had accepted but not committed (`PutTransfer.PutSession.OnlyDropsDiverge`); every
  other stop is reported as a state the loop gives up on.

## Model

| member | source | states |
|---|---|---|
| PutTransfer.UploadFile | server/msx_real.py:2216-2667 | A whole upload, from normalising a BASIC listing and choosing the wire form through any number of runs: with an honest helper a reported publication means that the MSX holds the canonical listing of a textual BASIC source and any other source byte for byte, and a listing without a canonical form is never published; when nothing goes wrong and the target is new, a source that can be sent is published |
| PutTransfer.RunUntilPublished | agent/README.md:323-395 | Retrying after any failure keeps every persistent claim, success means that this transfer published the source, and when nothing goes wrong one run is enough |
| PutTransfer.BetweenRuns | agent/README.md:335-359 | Between runs the helper's bytes are a prefix of the wire, the journalled offset is at most what is durable with the right checksum, and an intent means that every byte is durable |
| PutTransfer.PutSession.PutFile | server/msx_real.py:2216-2667 | Whatever is answered, one run asks for exactly the journalled place, sends the wire from its starting offset to its end once and in order, then the one CLOSE of the stream, and succeeds only after that CLOSE on a complete, verified, published status; a run that times out at the complete boundary of data it sent has sent CLOSE; with an honest helper no integrity check ever fails, and the accepted offsets disagree only if the helper became idle and kept fewer bytes than it had accepted in this run; when nothing goes wrong it succeeds |
| PutTransfer.PutSession.Connect | server/msx_real.py:2290-2369 | From the journal to a status that may be trusted; nothing is sent as data on the way |
| PutTransfer.PutSession.Discover | server/msx_real.py:2290-2325 | The attempt is journalled before anything is asked of the MSX, and the local prefix always matches the journal |
| PutTransfer.PutSession.RecoverActive | server/msx_real.py:2182-2202 | A worker is attached to only under its own binding and never below the journalled offset |
| PutTransfer.PutSession.RequestedOrder | server/msx_transfer.py:1356-1360 | An OPEN of a resumed transfer has the RESUME bit, offset and checksum of the journal, a first one none of them, and its receiptless bit is the journalled close intent |
| PutTransfer.PutSession.OpenOrder | server/msx_real.py:2332-2341 | Staging keeps every persistent claim; only three states are accepted |
| PutTransfer.PutSession.Launch | server/msx_real.py:2346-2369 | Launching, waiting and arming leave a status as trustworthy as it was |
| PutTransfer.PutSession.WaitForHelper | server/msx_real.py:2128-2160 | Polling ends in a state a stream can begin from, or in an error that says why not |
| PutTransfer.PutSession.Recover | server/msx_real.py:2371-2423 | The reported boundaries are taken over only if the local bytes below them have the reported checksum and the gap fits the window |
| PutTransfer.PutSession.SaveBoundary | server/msx_real.py:2406-2415 | A recovered boundary is journalled; the journal refuses it only if a complete intent would move backwards |
| PutTransfer.PutSession.Reconcile | server/msx_real.py:2427-2460 | The durable boundary moves only forward over bytes in flight, the rolling checksum stays that of the durable prefix, and with an honest helper no divergence is reported |
| PutTransfer.PutSession.Advance | server/msx_real.py:2436-2441 | Bytes that become durable leave the buffer and enter the rolling checksum |
| PutTransfer.PutSession.Boundaries | server/msx_real.py:2388-2404 | Durable at most accepted at most wire size, a gap of at most 16384, and a buffer of exactly that gap, at every step |
| PutTransfer.PutSession.SaveProgress | server/msx_real.py:2442-2450 | The journal never refuses a durable boundary reached during a stream |
| PutTransfer.PutSession.PersistCloseIntent | server/msx_real.py:2462-2483 | The intent is set only at the complete durable boundary; at that boundary only an interrupted write can fail |
| PutTransfer.PutSession.SaveIntent | server/msx_real.py:2474-2483 | The intent is true of an honest helper: every byte is durable and the helper had begun |
| PutTransfer.PutSession.SendNext | server/msx_real.py:2546-2583 | One more block of the wire, exactly the next one and within the window; an honest helper's answer is never taken for a refusal |
| PutTransfer.PutSession.SendBlock | server/msx_real.py:2559-2571 | The data requests of the run end one block further on, whatever becomes of the answer |
| PutTransfer.PutSession.PollProgress | server/msx_real.py:2604-2613 | A status is accepted only with the same binding and accepted offset, and then agrees with the host on the durable prefix |
| PutTransfer.PutSession.OnlyDropsDiverge | server/msx_real.py:2604-2613 | For an honest helper that reports no failure, the accepted offsets differ if and only if it became idle and kept fewer bytes than it had accepted |
| PutTransfer.PutSession.BoundaryFault | server/msx_real.py:2371-2403 | With an honest helper neither reported boundary is ever refused; otherwise acceptance means range, window and prefix checksum |
| PutTransfer.PutSession.SignalEnd | server/msx_real.py:2589-2596 | CLOSE is sent, unless the save of the intent was interrupted, and only after the complete boundary and the intent are journalled; a willing helper then verifies |
| PutTransfer.PutSession.Watch | server/msx_real.py:2584-2613 | With nothing to send, the end is signalled before the MSX is asked: a run that gives up at the complete boundary has sent CLOSE, and a prompt helper reports completion at once |
| PutTransfer.PutSession.Pump | server/msx_real.py:2522-2613 | The loop keeps the stream's account whatever is answered, the journal lags less than 64 KiB, it ends only on completion or an error, at the complete boundary never by the clock before CLOSE was sent, and on completion when nothing goes wrong |
| PutTransfer.PutSession.Conclude | server/msx_real.py:2614-2638 | Success needs the full size, the checksum and all three flags; the check for a measured boundary cannot fail |
| PutTransfer.StreamedPayload | server/msx_real.py:2522-2583 | The blocks of a log that passes the ordering rule are, put together, one stretch of the wire |
| PutTransfer.EarnedGrows | agent/README.md:385-395 | A receiptless OPEN always comes after a report that the whole wire was durable, made once the helper had opened its files |
| PutTransfer.EvolvesKeeps | agent/README.md:323-359 | Any moves of the helper by itself keep upload and journal in step and lose no progress |
| PutTransfer.ServedOpenKeeps | agent/README.md:261-271 | Staging again, served or not, keeps upload and journal in step |
| PutTransfer.ServedDataKeeps | agent/README.md:323-333 | A data request, served or not, keeps upload and journal in step |
| PutTransfer.ServedCloseKeeps | agent/README.md:352-359 | A CLOSE under a journalled intent, served or not, keeps upload and journal in step |
| UploadHelper.PlayKeeps | agent/README.md:323-395 | Whatever sequence of commits, restarts, publications and failures the helper goes through, it stays sound and later than before |
| UploadHelper.PublishRestores | agent/README.md:371-384 | What an honest helper publishes is the source, byte for byte |
| UploadHelper.PlayContinues | agent/README.md:323-359 | Without an OPEN or data in between, a running helper keeps exactly the bytes it has taken until it stops |
| UploadHelper.ReportIsTruthful | server/msx_transfer.py:708-731 | An honest status is well formed and says only what is true of the helper then and later |
| UploadHelper.OpenKeeps | agent/README.md:385-395 | An OPEN whose receiptless bit is the journalled intent cannot lead an honest helper to adopt a file it did not publish |
| UploadHelper.PromptDoesIt | agent/README.md:323-384 | A helper that does at once what it can takes, commits, publishes and completes in the next step wherever it stands |
| UploadHelper.PromptPublishes | agent/README.md:371-384 | Once it was closed, such a helper publishes and completes |
| GetTransfer.DownloadFile | server/msx_real.py:2669-2992 | A whole download over any number of runs and power cuts: an existing destination is returned as it was, with an honest helper a new one is the remote file, and when nothing goes wrong it is there after the first run |
| GetTransfer.RunUntilLinked | agent/README.md:335-345 | Through crashes and power cuts the only file ever linked is the remote one, an existing file is never replaced, and when nothing goes wrong one run is enough, unless earlier ones lost the partial or the worker's place |
| GetTransfer.BetweenRuns | server/msx_real.py:2728-2822 | Between runs the journalled offset is at most the acknowledged one and at most the synced length, and the synced bytes are a prefix of the remote file; an acknowledged offset above the synced length means that a rejected probe was taken for absence and the partial is shorter still; a partial lost in a power cut has journalled offset 0 |
| GetTransfer.GetSession.GetFile | server/msx_real.py:2669-2992 | Whatever is answered, a linked file has the announced size and checksum, and success comes after the one CLOSE of the run, which the peer's own word for the whole size preceded; with an honest helper the file is the remote one, and no integrity check fails but two: a journalled partial is missing exactly if a power cut took it before its first sync, and the helper is ahead of the partial only if an earlier probe was rejected without naming the transfer unknown; such a run loses reach only of a worker whose boundary was above the journalled one; when nothing goes wrong it succeeds |
| GetTransfer.GetSession.Discover | server/msx_real.py:2698-2751 | Journal, partial file and descriptor agree before anything is asked; a journalled partial is reported missing exactly if a power cut took it before its first sync, and with an honest helper only at journalled offset 0 |
| GetTransfer.GetSession.FindAgain | server/msx_real.py:2720-2742 | With an honest helper a journalled partial is never short and never has another checksum |
| GetTransfer.GetSession.RecoverActive | server/msx_real.py:2182-2202 | With an honest helper no worker is alive when the probe finds none, unless a rejection that did not name the transfer unknown was taken for that; then one may be, in any state |
| GetTransfer.GetSession.CutBack | server/msx_real.py:2757-2766 | The partial is cut to the journalled boundary; a worker that does live on stays within reach if and only if its boundary is not above the journalled one |
| GetTransfer.GetSession.StartWorker | server/msx_real.py:2757-2771 | The partial is cut back and the transfer staged at the journalled boundary, by an OPEN that asks for exactly this; a living worker can get out of reach only if its boundary was above that, and never when OPEN was accepted |
| GetTransfer.GetSession.Launch | server/msx_real.py:2774-2797 | Only a status of a serving worker with a matching binding is used; a prompt worker is found at work and armed, or complete |
| GetTransfer.GetSession.AdoptMetadata | server/msx_real.py:2798-2808 | The size is learnt from the first status that tells it; the second binding check can never fail |
| GetTransfer.GetSession.HonestMetadata | server/msx_real.py:2798-2808 | From an honest status the learnt descriptor is the remote file's |
| GetTransfer.GetSession.Reposition | server/msx_real.py:2809-2855 | The errors 'behind' and 'ahead' are reported exactly when the boundary is below the journal or beyond the partial file; with an honest helper 'behind' and 'prefix differs' never occur, 'ahead' exactly if the boundary is above the synced bytes, and the journal never refuses the place |
| GetTransfer.GetSession.CutToStatus | server/msx_real.py:2815-2822 | Cutting to the acknowledged boundary keeps journal, acknowledgement and synced bytes in step |
| GetTransfer.GetSession.StreamBlocks | server/msx_real.py:2861-2915 | The loop ends at the declared size, vouched for by the peer, with the file's checksum and a journal that has caught up; on the way the journal lags less than 64 KiB, no CLOSE is sent, honest data is never refused, and a worker that answers is read to the end |
| GetTransfer.GetSession.NextBlock | server/msx_real.py:2866-2888 | A block is stored only at the requested offset and inside the declared size |
| GetTransfer.GetSession.Store | server/msx_real.py:2882-2888 | Appending rolls the checksum and keeps the partial a prefix of the remote file |
| GetTransfer.GetSession.Checkpoint | server/msx_real.py:2889-2915 | Sync, acknowledge, journal, in that order, keeps the three offsets in step however the checkpoint ends; success means that the peer acknowledged the new place |
| GetTransfer.OrderIsForced | server/msx_real.py:2889-2915 | Of all orders of sync, acknowledgement and journal only this one lets a next run go on after every interruption and power cut |
| GetTransfer.AckBeforeSync | server/msx_real.py:2889-2915 | Acknowledging before the sync, a power cut can leave the MSX ahead of the partial file |
| GetTransfer.JournalBeforeAck | server/msx_real.py:2889-2915 | Journalling before the acknowledgement, any interruption leaves the MSX behind the journal |
| GetTransfer.WorkerFitsAgain | server/msx_real.py:2809-2855 | However a run ended, a living worker is found ahead of the partial file if and only if its boundary is above the synced bytes, which takes a misread probe; otherwise every power cut leaves a place to go on from |
| GetTransfer.RejectedProbe | server/msx_real.py:2182-2202 | After a rejected probe cut the partial under a living worker, its next report is ahead exactly if it had acknowledged more than was journalled; had the probe been answered, no run would find it ahead |
| GetTransfer.GarbledProbeLosesPlace | server/msx_real.py:2182-2202 | Such a state: nothing journalled, 64 KiB acknowledged and synced, one garbled probe |
| GetTransfer.GetSession.NamedAbsenceKeepsReach | server/msx_real.py:2182-2202 | As long as only an answer that names the transfer unknown was taken for absence, a living worker can always be taken up again |
| GetTransfer.PowerCut | server/msx_real.py:2708-2751 | A power cut between runs keeps every claim; it takes a partial only before its first sync |
| GetTransfer.GetSession.SavePlace | server/msx_real.py:2909-2915 | The journal never refuses a place both sides have committed |
| GetTransfer.GetSession.Finish | server/msx_real.py:2922-2944 | Success needs CLOSE, size, checksum and both flags, and a timeout comes only after CLOSE; CLOSE is the only one of the run and comes after the peer has vouched for the whole size; an honest helper always meets the checks |
| GetTransfer.GetSession.CloseStream | server/msx_real.py:2922-2928 | CLOSE is sent whatever is answered; with an honest worker every byte is synced by then, and one that is at work goes on to complete |
| GetTransfer.GetSession.Publish | server/msx_real.py:2945-2965 | The synced partial becomes the destination only where none exists |
| GetTransfer.EvolvesKeeps | agent/README.md:335-345 | Moves of the helper by itself start no worker and move no boundary |
| GetTransfer.ServedAckKeeps | agent/README.md:341-345 | An acknowledgement of a synced boundary, served or not, keeps everything in step |
| DownloadHelper.DriftKeeps | agent/README.md:335-345 | Whatever the download worker does by itself, the journal stays behind its boundary, which moves only to a staged one |
| DownloadHelper.PromptDoesIt | agent/README.md:335-345 | A worker that does at once what it can opens its file at the staged offset, and completes once it was closed |
| TransferJournal.IntentIsMonotone | server/msx_transfer.py:1414-1463 | Over any sequence of accepted saves a close intent is never lost and pins the complete boundary and binding |
| TransferJournal.ResumedIsValid | server/msx_transfer.py:1356-1360 | Every loadable record yields a valid descriptor, receiptless only for a complete upload |
| TransferJournal.Journal.Save | server/msx_transfer.py:1414-1510 | A save leaves the old or the new record, and refuses exactly the records that break a rule |
| TransferJournal.Journal.Remove | server/msx_transfer.py:1779-1787 | A removal is final; an interrupted one leaves the record or removes it |
| OpenCodec.DecodeAfterEncode | server/msx_transfer.py:354-435 | Decoding an encoded descriptor gives it back |
| OpenCodec.EncodedLayout | server/msx_transfer.py:354-380 | Every field of an OPEN payload at its octet, numbers and checksums with the least significant octet first |
| OpenCodec.EncodeAfterDecode | server/msx_transfer.py:354-435 | An accepted payload re-encodes to itself if and only if its RESUME bit is set or its resume offset is zero |
| OpenCodec.DecodeAcceptsExactly | server/msx_transfer.py:382-435 | A payload decodes to a descriptor exactly when it is the encoding, or the encoding of a resumed descriptor without its RESUME bit |
| OpenCodec.UnmarkedResumeIsAccepted | server/msx_transfer.py:288-290 | A concrete payload that is accepted and does not come back |
| OpenCodec.Build | server/msx_transfer.py:254-306 | A descriptor is built exactly when no rule is broken, and a positive offset implies resumption |
| Crc.Crc16 | server/msx_protocol.py:227-240 | The loop computes the fold of the CRC-16 over the bytes |
| Crc.Fold16Concat | server/msx_protocol.py:227-240 | The CRC-16 of a concatenation folds over its parts |
| Crc.Fold16Injective | server/msx_protocol.py:227-240 | Different registers stay different over the same bytes |
| Crc.OneByteChangesCrc16 | server/msx_protocol.py:227-240 | Replacing one byte of a message of any length changes its CRC-16 |
| Crc.CheckValue16 | tests/test_msx_protocol.py:38-39 | The CRC-16 of 123456789 is 29B1h |
| Crc.Crc32Rolls | server/msx_transfer.py:769-777 | A rolling CRC-32 over blocks is that of the whole |
| Crc.CheckValue32 | tests/test_msx_transfer.py:418-420 | The CRC-32 of 123456789 is CBF43926h |
| Crc.Crc32Stream | server/msx_transfer.py:808-843 | The digest of a stream does not depend on the chunk size; too long a stream is refused |
| Crc.Crc32FilePrefix | server/msx_transfer.py:863-888 | Exactly the requested prefix is hashed, or the file is reported short |
| FrameCodec.DecodeAfterEncode | server/msx_protocol.py:243-310 | Decoding an encoded frame gives it back |
| FrameCodec.EncodedLayout | server/msx_protocol.py:243-260 | Every field of a frame at its octet, and the CRC of all octets before it, low octet first |
| FrameCodec.EncodeAfterDecode | server/msx_protocol.py:243-310 | An accepted frame is the encoding of what it decodes to |
| FrameCodec.DecodeAcceptsExactly | server/msx_protocol.py:281-310 | The accepted byte strings are exactly the encodings within the limits |
| FrameCodec.EncodingsDifferTwice | server/msx_protocol.py:243-260 | Two different encodings differ in at least two bytes |
| FrameCodec.OneByteErrorRejected | server/msx_protocol.py:243-310 | Changing any one byte of an encoded frame makes it undecodable |
| FrameStream.LookIsStable | server/msx_protocol.py:356-409 | A decision taken on a prefix is never revised by later bytes |
| FrameStream.ScanSplits | server/msx_protocol.py:356-409 | Reading a then b is reading a+b |
| FrameStream.FragmentsDoNotMatter | server/msx_protocol.py:348-409 | Any fragmentation gives the same frames and the same residue |
| FrameStream.ResidueShape | server/msx_protocol.py:356-409 | What stays in the buffer is empty, one M, or an incomplete candidate shorter than 13 plus the payload limit |
| FrameStream.EveryByteAccounted | server/msx_protocol.py:348-409 | Every byte is garbage, one skipped byte, part of one frame, or residue, in order |
| FrameStream.EncodedFramesComeBack | server/msx_protocol.py:524-527 | Encoded frames followed by nothing are read back as themselves |
| FrameStream.NoFrameIsPassedOver | server/msx_protocol.py:348-409 | Wherever the scan stands when it decides, after whatever noise, a complete valid frame that begins there is taken |
| FrameStream.StreamRoundTrip | server/msx_protocol.py:348-409 | Any frame list, encoded and fed in any chunks, comes back without an error |
| FrameStream.SalvageSkips | server/msx_protocol.py:411-440 | Offsets where no valid frame begins can be dropped without losing a frame |
| FrameStream.SalvageEmptyIff | server/msx_protocol.py:442-491 | Nothing is salvaged exactly when no offset begins a complete valid frame |
| FrameStream.FindMagic | server/msx_protocol.py:358-372 | The first magic at or after an offset, or none |
| FrameStream.FrameParser.Feed | server/msx_protocol.py:348-409 | The incremental parser computes the whole-input scan and reports exactly its errors |
| FrameStream.FrameParser.FindValidFrame | server/msx_protocol.py:411-440 | The first offset at which a complete valid frame begins |
| FrameStream.FrameParser.Finish | server/msx_protocol.py:442-491 | Ends with an empty buffer and every salvageable frame; an error is reported exactly when bytes were discarded |
| FrameStream.FrameParser.PopErrors | server/msx_protocol.py:344-346 | Hands over the errors once |
| V3Session.Session.RequestFrame | server/msx_v3.py:381-463 | One sequence number, at most retries+1 transmissions of one encoding, each of them whole unless a wake ACK, a lapse or a broken stream cut it short, with the second byte held back for the ACK in strict mode; the result is the first usable matching answer of the attempts, or what the last attempt ended with, and an answer was on the stream; every failure has its cause on the stream or in the request; a quarantined session writes nothing |
| V3Session.Session.Exchange | server/msx_v3.py:417-463 | The outcome is the first answer that is not a checksum complaint, or that of the last attempt; every attempt is written whole or cut short for cause; giving up means that every transmission was made; a transport failure has its cause on the stream and quarantines |
| V3Session.Session.Converse | server/msx_v3.py:339-463 | Over any sequence of requests and negotiations a quarantining session writes nothing after the first transport failure, and every transport error reported is such a failure |
| V3Session.Session.TryOnce | server/msx_v3.py:420-445 | One attempt writes the whole encoding before it reads for an answer, or is cut short by a missing wake ACK, a lapse or a broken stream; its answer is the first matching frame received in time, or after a timeout the first in what can be salvaged, and there is none only if no such frame came and the time had passed |
| V3Session.Session.SendWire | server/msx_v3.py:488-512 | Going on to the answer means that exactly the encoding was written, in strict mode nothing after the first byte before the ACK; otherwise a lapse, a wrong or missing ACK or a broken stream cut it short |
| V3Session.Session.AwaitWake | server/msx_v3.py:523-543 | Strict mode goes on only after exactly the expected byte |
| V3Session.Session.WaitForResponse | server/msx_v3.py:545-565 | The response is the first matching frame completed by what was received, however it was cut into reads, and the wait goes on only while there is none |
| V3Session.Session.FinishAttempt | server/msx_v3.py:567-570 | A timeout empties the parser, and what it salvages was received |
| V3Session.HeardFurther | server/msx_v3.py:545-565 | Searching the frames read by read finds the same first match as searching everything received at once |
| V3Session.Session.RouteFrames | server/msx_v3.py:575-598 | Every frame goes to its queue, the first match is the answer, and the queues keep the newest entries |
| V3Session.EveryFrameRouted | server/msx_v3.py:575-598 | No frame is lost or counted twice |
| V3Session.Session.NoteFailure | server/msx_v3.py:339-342 | The first failure is remembered and later ones do not replace it |
| V3Session.Session.NegotiateMaxPayload | server/msx_v3.py:344-352 | The effective limit is the smaller one, and the parser follows it |
| V3Session.SequenceCounter.Next | server/msx_protocol.py:501-505 | Sequence numbers advance by one and wrap at sixteen bits |
| V3Session.ScannedFramesInside | server/msx_protocol.py:348-409 | A reported frame lies on the stream octet for octet |
| V3Session.SalvagedFramesInside | server/msx_protocol.py:442-491 | So does a salvaged one |
| PackBits.PackedIsFaithful | server/msx_transfer.py:1170-1264 | Standard decoding restores any input, controls 80h and FFh never occur, and the length is at most n plus one per 128 bytes begun |
| PackBits.PackedIsEconomical | server/msx_transfer.py:1176-1252 | Three equal bytes in a row are never literals, a run goes on as long as its byte repeats and to 128 at the most, and a literal packet ends early only before a run or at the end |
| PackBits.DecodeConcat | agent/README.md:371-378 | Decoding goes packet by packet |
| PackBits.StrictIsStandard | agent/README.md:371-378 | What the strict decoder of the target accepts, a standard decoder decodes to the same bytes |
| PackBits.PushAllConcat | server/msx_transfer.py:1225-1252 | Encoding in blocks is encoding the whole |
| PackBits.DeterministicPackBits | server/msx_transfer.py:1170-1264 | The output and both digests are the same for every chunk size, and limits are enforced |
| PackBits.PrepareRaw | server/msx_transfer.py:1300-1312 | Raw preparation keeps the bytes and digests them |
| PackBits.PreparePut | server/msx_transfer.py:1277-1346 | The wire always restores the source, and compression is chosen exactly when it saves enough |
| PackBits.Writer.AcceptBlock | server/msx_transfer.py:1235-1249 | The buffered writer follows the encoder's state, unless the output limit is passed |
| PackBits.Writer.Close | server/msx_transfer.py:1253-1255 | Closing flushes exactly what the encoder owes |
| BasicListing.NormalizedIsCanonical | server/msx_transfer.py:967-1064 | The machine accepts exactly the listings that split into blank and numbered rows, and gives their CRLF form with one 1Ah |
| BasicListing.NormalizationIsIdempotent | server/msx_transfer.py:967-1064 | Normalising a normalised listing changes nothing |
| BasicListing.CanonicalIsFixed | server/msx_transfer.py:967-1064 | A canonical form is acceptable and its own canonical form |
| BasicListing.RunConcat | server/msx_transfer.py:1008-1048 | The machine's state after a concatenation is that after its parts |
| BasicListing.RunRows | server/msx_transfer.py:1008-1048 | Reading a text is reading its rows one by one |
| BasicListing.PrepareBasicSource | server/msx_transfer.py:1083-1152 | A textual BASIC source becomes its canonical form or is refused, exactly by the whole-text rule; any other file is left alone |
| BasicListing.DestinedIsFixed | server/msx_transfer.py:1083-1152 | Preparing a prepared source again changes nothing |
| BasicListing.NormalizeStream | server/msx_transfer.py:967-1064 | The streaming code gives the whole-text result for every chunk size |
| BasicLines.TypedIsSaved | server/msx_transfer.py:967-1064 | A text of numbered and blank lines, ended by CR, LF or both in any mixture, with any number of end marks, becomes the numbered lines in order, each with CR and LF, and one 1Ah; without a numbered line it is refused |
| BasicLines.AcceptedIsTyped | server/msx_transfer.py:967-1064 | Every accepted text is one of these |
| BasicListing.Normalizer.FinishCurrentLine | server/msx_transfer.py:993-1006 | Blank rows are taken back by truncation and program rows end in CRLF |
| BasicListing.Normalizer.Accept | server/msx_transfer.py:1016-1048 | One source byte is one step of the machine, errors included |
| BasicListing.Normalizer.Conclude | server/msx_transfer.py:1052-1062 | The end of input finishes the last line and needs at least one program row |
| Relocation.ResolveUniqueCover | tools/build_memman_tsr.py:99-133 | None, one or several, correctly, against all sets of separated candidate words that cover exactly the changed bytes |
| Relocation.SampleOfUnion | tools/build_memman_tsr.py:111-117 | Keeping two paths of each part keeps two paths of the whole, if there are two |
| Relocation.AppendedSample | tools/build_memman_tsr.py:118-130 | Extending a sample by one word samples the extended covers |
| Relocation.OneExplanation | tools/build_memman_tsr.py:136-184 | Two tables that explain the same pair of images are the same table |
| Relocation.CoversAreExplanations | tools/build_memman_tsr.py:144-178 | The covers the search runs over are exactly the explaining tables |
| Relocation.InferRelocations | tools/build_memman_tsr.py:136-184 | A result is the table that explains the pair, an error means that there is none; ambiguity and the recreation check are never reported |
| Relocation.ExactlyThisTable | tools/build_memman_tsr.py:136-184 | An image moved by a known table gives back that table |
| Relocation.RelocationsAdd | tools/build_memman_tsr.py:168-181 | Moving twice is moving once by the sum |
| Relocation.OneTableForThreeImages | tools/build_agent_tsr.py:298-312 | Agreement on two displacements means that one table maps each of the three images to the others |
| MemManTsr.ValidateHooks | tools/build_memman_tsr.py:217-228 | Hooks are accepted exactly when addresses are words, distinct, and handlers lie in the code |
| MemManTsr.EmitHookTable | tools/build_memman_tsr.py:240-248 | The hook table is the flattened list of address and handler words |
| MemManTsr.ParseAfterFile | tools/build_memman_tsr.py:284-328 | The emitted file reads back as its parts |
| MemManTsr.FileIsLaidOut | tools/build_memman_tsr.py:284-328 | Every emitted file holds each scalar, relocation, payload octet and hook word at its literal offset, and zeros to the end of the last record |
| MemManTsr.EmissionIsConsistent | tools/build_memman_tsr.py:251-281 | The internal consistency checks hold of every file that is emitted |
| MemManTsr.CheckPin | tools/build_memman_tsr.py:297-306 | A pinned table is accepted exactly when it is the inferred one |
| MemManTsr.BuildMemManTsr | tools/build_memman_tsr.py:284-328 | A file is built exactly when an acceptable table exists, internal errors never occur, and the file is laid out as the loader reads it: name, entry points, relocations, payload and each hook with its own handler at their octets |
| MemManTsr.LoadGivesLinkedImage | tools/build_memman_tsr.py:284-328 | Loading the file at either origin gives the image linked for it |
| MemManTsr.NoDuplicatesInTable | tools/build_memman_tsr.py:232-237 | An inferred table has no repeated entry |
| AgentTsr.RelocatePatched | tools/build_agent_tsr.py:341-375 | Patching any bytes and relocating commute if and only if relocation leaves those bytes of the unpatched image alone |
| AgentTsr.DriverIsPatchedBuild | tools/build_agent_tsr.py:341-375 | A patched driver is the build of a patched image; it loads as another link with the byte replaced if and only if that link has the template byte there too |
| AgentTsr.BuiltIsResident | tools/build_agent_tsr.py:313-338 | A built resident has its name, entry points, relocations and five hooks at their octets |
| AgentTsr.PatchDrivers | tools/build_agent_tsr.py:341-393 | The driver checks cannot fail; every driver loads as the primary link with only its own bytes changed, and as another link exactly if that link agrees with the primary one on those bytes |
| AgentTsr.BuildAgentTsr | tools/build_agent_tsr.py:277-393 | The build succeeds exactly when the links are in order and one table explains both displacements and fits the file format; the five files hold, octet by octet, the entry points and FD9Ah, FD9Fh, FDA4h, FDC2h and FF20h each with its own handler; then one file loads as each of the three links, and a driver as each link that agrees with the primary one on the patched bytes, and as no other |
| AgentTsr.DriverCanMissLink | tools/build_agent_tsr.py:232-241 | Three links the build accepts and a driver that does not load as the third: the template byte belongs to a relocated address |
| SparseCapture.Screenshot | server/msx_screenshot.py:768-817 | Plan, fetch and draw give the picture of the whole memory, for every mode, register state, page and sprite setting; what this picture is, StoredIsShown and SceneIsShown tell |
| VdpPicture.StoredIsShown | server/msx_screenshot.py:243-382 | For every mode: a screen of characters with shapes and pens, of colour numbers, levels or chroma values, stored at the literal table addresses any registers give, is shown dot for dot: a set dot in the ink of its octet's high half, a clear one in the paper of the low half, the left pixel from the high bits, text blinking in the pen of R#12, scrolled both ways |
| VdpPicture.Photograph | server/msx_screenshot.py:768-817 | A screenshot of memory that stores a screen has the mode's size and is this screen |
| VdpPicture.RoundTrip | server/msx_screenshot.py:526-548 | A screen of SCREEN 0 in 40 columns, 2, 4, 5 or 7, encoded into memory as the BIOS lays it out, comes back from a screenshot, dot for dot |
| VdpSpritePicture.SceneIsShown | server/msx_screenshot.py:385-523 | Of a scene of sprites stored at the literal table addresses, a dot shows the first of the four or eight sprites on its line that has a dot there, in its colour or that of the joined ones by OR, and the background where none has |
| VdpSpritePicture.PhotographScene | server/msx_screenshot.py:768-817 | A screenshot of a stored screen with stored sprites shows both |
| SparseCapture.SparseIsExact | server/msx_screenshot.py:698-745 | Images that agree on the planned addresses give the same picture |
| SparseCapture.TextAgrees | server/msx_screenshot.py:707-721 | The text tables planned are all that text modes read |
| SparseCapture.TilesAgree | server/msx_screenshot.py:722-732 | The tables planned are all that tile modes read |
| SparseCapture.BitmapAgrees | server/msx_screenshot.py:733-738 | The lines planned are all that bitmap modes read, scrolled or not |
| SparseCapture.SpritesAgree | server/msx_screenshot.py:740-745 | The sprite tables planned are all that sprites read |
| SparseCapture.Render | server/msx_screenshot.py:526-548 | Background and sprites together are the picture, pixel for pixel |
| VdpTables.Ranges | server/msx_screenshot.py:748-758 | The ranges are ascending, disjoint, maximal and cover exactly the addresses |
| VdpTables.RangesAreUnique | server/msx_screenshot.py:748-758 | There is only one such list of ranges |
| VdpTables.CaptureVram | server/msx_screenshot.py:761-765 | The image has the target's bytes at the planned addresses and zero elsewhere |
| VdpTables.PlannedFits | server/msx_screenshot.py:698-745 | Every planned address is inside video memory |
| VdpTables.Wiring | server/msx_screenshot.py:190-201 | Address lines above a table come from its register, those the register cannot name from the index, and those in between are on only if both say so; so registers with cleared bits mirror a table |
| VdpTables.ColourPlaces | server/msx_screenshot.py:218-222 | The colour tables of each mode in plain numbers, mirrored or not |
| VdpTables.NamePlaces | server/msx_screenshot.py:207-211 | The name tables of each mode in plain numbers |
| VdpRender.PaintText | server/msx_screenshot.py:248-277 | The loops paint every text pixel as specified |
| VdpRender.PaintTiles | server/msx_screenshot.py:279-316 | The loops paint every tile pixel as specified |
| VdpRender.DecodeLine | server/msx_screenshot.py:344-376 | A bitmap line is decoded octet by octet, or in YJK groups of four |
| VdpRender.PaintBitmap | server/msx_screenshot.py:333-382 | Every bitmap line is decoded, scrolled and placed |
| VdpSprites.CollectRecords | server/msx_screenshot.py:448-455 | Attribute records up to the terminator |
| VdpSprites.CollectVisible | server/msx_screenshot.py:457-478 | The first sprites that touch a line, as many as the hardware shows |
| VdpSprites.PaintLine | server/msx_screenshot.py:480-523 | Painting from the lowest priority up shows the first sprite that covers each pixel |
| VdpSprites.PaintSprite | server/msx_screenshot.py:484-523 | One sprite changes exactly the pixels its dots cover |
| VdpSprites.CompositeSprites | server/msx_screenshot.py:434-523 | Sprites over the background, pixel for pixel |
| SnapshotLease.Agent.WithSnapshotLease | server/msx_real.py:1250-1393 | A paused or idle target is never sent pause or resume; a lease is reported only if the target was paused before and after the work and then released by exactly the prescribed steps; every failure shows its cause on the link, and unless the pause had expired or writes are quarantined the pause was released, or tried to be by all prescribed steps; a normal exit owns nothing; no second lease starts while one is owned |
| SnapshotLease.Agent.Lease | server/msx_real.py:1326-1393 | From a running target: a held lease is released, a failed one is cleaned up, each by exactly the prescribed steps, every failure has its cause on the link, and resumes only follow pauses |
| SnapshotLease.Agent.Enter | server/msx_real.py:1330-1355 | The pause is verified by a status, in at most two tries; it fails only for a lost or negative answer, quarantine, or a target that is neither paused nor, the first time, still running |
| SnapshotLease.Agent.ResumeSnapshotPause | server/msx_real.py:1165-1247 | A resume first, then at most two reconnections, each followed through; ownership ends with an acknowledged resume, a report of running, or quarantine, after which nothing is sent |
| SnapshotLease.Agent.Recover | server/msx_real.py:1212-1232 | A reconnection, a status, a resume if the target is paused, and a status again: it counts exactly if the target reports running |
| KeyboardRing.FillIsInvisible | server/msx_real.py:1508-1513 | Writing free slots does not change the visible queue |
| KeyboardRing.RingSpellsQueue | server/msx_real.py:205-210 | With the writing pointer at F3F8h and the reading one at F3FAh, the queue is what lies between them, going round in FBF0h to FC17h |
| KeyboardRing.PublishAppends | server/msx_real.py:1514-1517 | Moving the pointer appends the whole batch |
| KeyboardRing.TwoWritesFill | server/msx_real.py:1510-1513 | The two writes around the wrap fill consecutive slots |
| KeyboardRing.Writer.QueueState | server/msx_real.py:1469-1477 | Pointers inside the ring always imply a queue within its capacity |
| KeyboardRing.Writer.Enqueue | server/msx_real.py:1505-1518 | The queue becomes the old one plus as much of the batch as there is room for; on failure it has all of that or nothing |
| KeyboardRing.Writer.WriteLegacy | server/msx_real.py:1479-1531 | The transaction refines a bounded FIFO whose length never exceeds 39; on failure the queue has all of the accepted batch or nothing of it; when no exchange fails it succeeds on a running machine with good pointers, and refuses one that is not running untouched |
| KeyboardTyping.Typist.Type | server/msx_real.py:1683-1739 | The payload is accepted once and in order, typing waits for a drain after each Return, and an honest queue delivers it all; when no exchange fails and the program reads on, it succeeds |
| KeyboardTyping.Typist.TypeBatch | server/msx_real.py:1708-1735 | Over any accept counts a batch is typed once and in order |
| KeyboardTyping.Typist.WaitEmpty | server/msx_real.py:1631-1670 | Returns only on a report that nothing is pending |
| KeyboardTyping.OfferThroughRing | server/msx_real.py:1479-1570 | On a machine nobody else types on, the ring transaction is the FIFO that typing assumes: keys read plus keys queued grow by exactly the accepted octets |
| KeyboardTyping.TypeSpooled | server/msx_real.py:1741-1801 | The spool takes the payload once and in order, lines are authorised only when it is idle, and every failure ends in a cancellation but one: frames too small for data are refused before anything is sent; a spool that takes what it is offered takes it all |
| ToolLocks.FromTheStart | server/mcp_runtime.py:88-115 | Every state the server can reach from its start is consistent |
| ToolLocks.RunIsConsistent | server/mcp_runtime.py:88-115 | Under any schedule of any number of calls a lock's owner is the one call that holds it |
| ToolLocks.WorkersDoNotOverlap | server/mcp_runtime.py:216-262 | Two workers, cancelled or not, never use the same lock |
| ToolLocks.WorkerKeepsLocks | server/mcp_runtime.py:216-262 | Whatever step is taken, cancellation included, a worker goes on and its call keeps every lock until the worker itself has ended |
| ToolLocks.AgentOwnerHasTarget | server/mcp_runtime.py:109-113 | Whoever owns the agent lock owns the target lock |
| ToolLocks.AgentIsFree | server/mcp_runtime.py:98-103 | Whoever waits for the agent lock finds it free |
| ToolLocks.WaitsAreShort | server/mcp_runtime.py:88-115 | A blocked call is at most two calls behind one that can move |
| ToolLocks.NoDeadlock | server/mcp_runtime.py:88-130 | While a call is unfinished some call can move |
| ToolLocks.DiagnosticsPassAgentCalls | server/mcp_runtime.py:94-97 | A local diagnostic waits only for one movable call that is not an agent call |
| ToolLocks.StepsRunOut | server/mcp_runtime.py:216-262 | Without new arrivals every step is one of finitely many |
| ToolLocks.EveryScheduleEnds | server/mcp_runtime.py:118-130 | Without arrivals no schedule, fair or not, has more steps than moves are left, and one that cannot be extended has finished every call |
| ToolLocks.RestIsTheEnd | server/mcp_runtime.py:118-130 | No step is possible if and only if every call has finished |
| ToolLocks.EverythingCanFinish | server/mcp_runtime.py:118-130 | All calls can be brought to their end, so shutdown gets its locks |
| ToolLocks.AgentToolsTakeBoth | server/mcp_runtime.py:109-113 | Every agent tool takes the target lock and then the agent lock |

## Left out

- The Z80 agent, the MSXAIXF helper and the MemMan loader themselves: their environment document
  is modelled, their code is not.
- Sockets, clocks, threads and timeouts as such: outcomes and poll budgets stand for them.
- Several transfers of one file at once and the search for a matching journal: a session is about
  one random transfer ID, and an upload or download with a removed journal is over.
- A source file that changes between two runs but keeps its size and both checksums: the staged
  wire bytes and the remote file are fixed for a transfer.
- The directory entries of a download: the first sync of the partial is taken to put its entry on
  the disk, and the hard link to the destination and the removal of the partial to survive a power
  cut, though the program syncs none of them.
- Someone other than the helper replacing the published file or deleting the partial file.
- Progress callbacks, rate hints and result dictionaries: observation only.
- The JSON text of the journal, its older versions and its file-system hardening: a record is a
  value that is replaced atomically.
- Capability negotiation before a transfer and the payload ceiling around one fast frame.
- V3Session.Session.CollectParserErrors: the complaints a request collects on the way are bounded
  and emptied from the parser, but how they are worded is not described.
- SnapshotLease.Agent.WithSnapshotLease: the caller's own work is one event, and the timeouts set
  and restored around it are not modelled.
- ToolLocks.EverythingCanFinish: fairness of the lock queue is not modelled; a schedule that
  finishes everything exists, and no schedule without arrivals is longer than the measure.
- KeyboardRing.Writer.WriteLegacy: one poke is served or not served as a whole, as one framed
  request is.
- KeyboardTyping.Typist.Type: types on a queue with the contract that `OfferThroughRing` proves of
  the ring; the agent's own keyboard request is Z80 code and is taken to have that contract too.
- A source that changes while it is being normalised, and the staging file its listing goes to.
- Parsing assembler labels and comparing them between the three links, metadata JSON and atomic
  file writes of the build tools; a resident end beyond the image is reported as outside the code.
- Direct table addresses passed to the renderer instead of registers, PNG output, palettes read
  from the target, and register shadows: a capture uses none of the first and the others are I/O.
- openMSX process control, Tcl, assembler subprocesses, MCP metadata, prompts, documentation
  search, doctor reports and command-line parsing.
