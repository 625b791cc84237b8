# RemoteControl: a verified model

RemoteControl streams a Windows desktop to a phone and moves files in both directions,
either over the LAN or through a relay that multiplexes many phones onto one WebSocket of
the PC. This Dafny project models that behaviour and proves what the two ends may rely on.
`dafny verify dfyconfig.toml` checks all of it.

## What is proved

**One channel per phone.** `Link` defines what a phone and its PC session may observe of
each other: the session's inbox is a prefix of what the phone sent; text and FILE messages
reach the phone in the order they were emitted, without gaps within each class, and no
FILE message arrives before a text emitted ahead of it; A/V frames arrive as an in-order
subsequence. `Tunnel` is the whole relay path as a step system (client loops, the host
loop, the PC's demultiplexer and pumps, bounded queues that block or drop, biased writers,
tasks that die at any point) and `TunnelProof` shows that every run of it, with any number
of phones, is for each phone a run of that channel which other phones' steps do not move.
`TunnelTasks` has the same steps as code that updates queues and maps in place and keeps
the same invariant. `TunnelFlow` adds what may be lost: A/V frames only at a full queue, a
missing route or a dead writer, and nothing of a live session. `LanPath` is the LAN bridge,
as steps and as code, which refines the same channel, and `LanFlow` its losses.

**Files end to end.** `Transfer`, `TransferProof` and `EndToEnd` run both chunking senders
and both sequence-checked receivers over any transport that keeps the channel intact, so
over the relay as well. The announcement is always there first, the out-of-order branch is
never taken, what is on disk is a prefix of the source, and completion means all of it, also
when the 32-bit chunk number wraps. `Completion` is the converse: a transfer that meets no
failure ends complete. `Partials` adds that a download cut short is always shorter than
announced, which is what the phone's cleanup goes by. `Senders`, `PhoneFiles` and `Session`
are the imperative code of the ends, proved against the same receiver functions, and against
the disk. `Codec` has the byte layouts of both languages.

**Sessions and trust.** `Session` is `run_connection` from handshake to cleanup, with
`Ledger` accounting for every file it creates; `Paths` has the file names. `Pairing`, `Gate`
and `TrustStore` are the one-shot code, the handshakes of any number of peers, and the
device list under crashes at any step. `Takeover` is the relay's `online` slot under
overlapping host loops, `Bridge` the slot and ids for sends (the classes of these three keep
the invariants of their step systems), `Dial` the phone's dialling and
fallback, `Uri` and `Qr` the QR code that both ends agree on.

**Media and input.** `AvSync` bounds the distance between the audio and video clocks and
orders frame releases; `FeedQueue` accounts for every frame fed to a decoder; `Pacing`
bounds the capture rate; `Nv12` is the color conversion on arrays, within one level of
BT.601; `Gesture` the touch machine.

## What turned out false, and exactly when it holds

- A PC upload is reported complete even when the final flush fails, which is where a lost
  write of an earlier chunk surfaces, since the phone's last frame is empty: FileTransferComplete
  vouches for the whole file exactly when flush succeeded or the file is empty
  (`Session.CompleteIntact`, `Session.ShortUpload`).
- A minted device can be lost: when the list cannot be read at a start, the store begins
  empty and the next save replaces the complete file. A mint lasts exactly until a list begun
  that way is saved (`TrustStore.MintedSurvives`, `TrustStore.UnreadableLoses`).
- Waiting frames and free decoder indices can coexist: exactly when a frame is fed while no
  codec is published but an index is already on hand (`FeedQueue.DisjointExactly`). Frames then
  leave out of order exactly when one is submitted past a waiting one (`FeedQueue.OrderExactly`,
  `FeedQueue.GapReorders`).
- Frames are released in order for exactly those PTS gaps that exceed the time between a
  callback's two clock reads by a millisecond (`AvSync.GapNeeded`).
- A relay URL whose host is an IPv6 literal without a port is the one shape for which the
  phone loses the fallback (`Qr.CombinedTrip`).
- A tunnel frame decodes to what was encoded exactly for 36-byte UTF-8 client ids
  (`Codec.TunnelRoundTrip`).
- A gesture that is cut off leaves the left button held exactly if one finger had got beyond
  the slop before any second finger landed (`Gesture.CutGesture`).
- A failed trusted reconnect dials the relay of an earlier scan exactly when that scan's
  fallback is still pending (`Dial.TrustedFailureRedials`).

## Where the code and its documentation differ

The model follows the code.

- relay/src/main.rs:24-33 describes JSON envelopes with base64 payloads; the tunnel is binary.
- server-pc/src/file_send.rs:46-50 says a cancelled phone gets FileSendFailed; nothing is sent.
- Protocol.kt:428-431 says frames of unknown type are rejected; they are parsed.
- OpusPlayer.kt:180-183 says frames fed before `start` are drained by it; `start` clears them
  first. H264Player.kt:201 says frames after `stop` are dropped; they are queued.
- OpusPlayer.kt:298-300 says the first refined reference is final; later ones replace it.
- trusted_devices.rs:140-143 describes a boolean result; there are three outcomes.
- ConnectionClient.kt:180 says `pendingHello` is null for a trusted reconnect; it is not, and
  `pendingFallback` is not cleared either.

## Reading the model

Client ids are numbers where their bytes do not matter; JSON control messages are a
datatype; a message a dead task still held stays in its queue for ever, which no observer
can tell from its loss. Kotlin's `Int` ids are taken as their 32-bit pattern. SHA-256 is a
parameter. Verdicts of the file system, codecs and clocks are arguments of the steps.

## Model

| member | source | states |
|---|---|---|
| Codec.Encode | relay/src/main.rs:380-409 | the relay's encoder, byte by byte, yields the 38-byte header layout followed by the payload |
| Codec.PushUuid | relay/src/main.rs:431-440 | an id is cut or zero-padded to exactly 36 bytes |
| Codec.TunnelRoundTrip | server-pc/src/relay_client.rs:193-243 | decoding returns the encoded frame if and only if the client id is 36 bytes of valid UTF-8 |
| Codec.BuildFileChunkFrame | server-pc/src/protocol.rs:391-405 | the PC's builder yields the FILE frame layout for every id, number, flag and payload |
| Codec.KtBuildFileChunkFrame | app-android/app/src/main/java/com/remotecontrol/app/net/Protocol.kt:370-392 | the phone's builder, writing into an array, yields the same bytes as the PC's |
| Codec.ReadLongLe | app-android/app/src/main/java/com/remotecontrol/app/net/Protocol.kt:448-454 | the shift loop reads the 64-bit little-endian value |
| Codec.DecodersAgree | app-android/app/src/main/java/com/remotecontrol/app/net/ConnectionClient.kt:642-650 | on every byte string the phone's PTS split and the PC's parser accept the same frames and read the same chunk |
| Codec.NestedRoundTrip | server-pc/src/protocol.rs:391-419 | a file frame inside a Data tunnel frame comes out of either side's decoders with exactly the values that went in |
| Codec.BuildVideoFrame | server-pc/src/protocol.rs:348-365 | the phone parses a built video frame back to its timestamp, flags and payload |
| Codec.BuildAudioFrame | server-pc/src/protocol.rs:366-378 | likewise for audio frames |
| TunnelProof.StepKeeps | relay/src/main.rs:639-701 | every step of every task keeps all legs intact: link script, blocking and dropping queues, routing, cut legs |
| TunnelProof.Independent | relay/src/main.rs:647-656 | a step that belongs to another phone leaves this phone's channel exactly as it was |
| TunnelProof.TunnelRefinesLinks | relay/src/main.rs:24-33 | in every run each phone sees an independent ordered channel: the claim that phones see what the LAN path would give them |
| TunnelProof.DialStartsFresh | relay/src/main.rs:756-763 | a phone that has just dialled starts on an untouched channel |
| TunnelProof.LinkScript | relay/src/main.rs:789-911 | what one phone puts on the shared link is a prefix of Open, its messages in order, Close, and the PC takes a prefix of that |
| TunnelProof.Observed | server-pc/src/relay_client.rs:371-507 | at every reachable state the inbox is a prefix of what the phone sent, and what reached the phone is ordered and complete up to a point |
| TunnelProof.TaskStep | relay/src/main.rs:24-33 | any task's step keeps the tunnel's invariant and moves each channel by at most one step, and none when the action is nobody's |
| TunnelTasks.Tasks.Observed | relay/src/main.rs:24-33 | between any two steps of the code every phone's channel is intact |
| TunnelFlow.AvConserved | relay/src/main.rs:684-699 | in every run exactly those A/V frames are missing that met a full queue, a missing route or a dead writer; if none did, all are with the phone or on their way, in the order produced |
| TunnelFlow.SessionsExact | server-pc/src/relay_client.rs:371-507 | in every run a phone is served exactly from its Open until its Close or the end of its pump, and while it is, everything taken for it was handed on |
| TunnelTasks.Tasks.SendToHost | relay/src/main.rs:789-800 | a send on the shared queue waits for room, and fails at once when the host writer is gone |
| TunnelTasks.Tasks.Accept | relay/src/main.rs:756-763 | a phone that dials gets an untouched channel and moves nobody else's |
| TunnelTasks.Tasks.OpenTunnel | relay/src/main.rs:789-800 | registering announces the phone, or removes its map entry and ends when the tunnel is dead; no channel moves |
| TunnelTasks.Tasks.ForwardOne | relay/src/main.rs:870-902 | one turn of the phone's reader is the Forward step and keeps the invariant |
| TunnelTasks.Tasks.CloseTunnel | relay/src/main.rs:905-912 | leaving notifies the host and ignores a failure |
| TunnelTasks.Tasks.PhoneWriterTurn | relay/src/main.rs:824-862 | one turn of the phone's writer sends the oldest fast message, or the oldest bulk one when no fast one waits |
| TunnelTasks.Tasks.HostWriterTurn | relay/src/main.rs:580-604 | the host writer carries the oldest frame on: the frames in flight for every phone stay the same, in the same order, and no channel moves |
| TunnelTasks.Tasks.RouteFrame | relay/src/main.rs:639-656 | a frame whose phone is registered is taken along with copies of its queues; any other is discarded; either way every channel stays as it was |
| TunnelTasks.Tasks.QueueFrame | relay/src/main.rs:673-699 | the fast queue grows by the message exactly if it is A/V, the writer runs and fewer than 8 wait; the bulk queue exactly if it must be delivered and the writer runs; nothing else of the leg changes but that a lost message is marked |
| TunnelTasks.Tasks.DemuxOne | server-pc/src/relay_client.rs:371-507 | Open starts a session, Close ends it, Data goes to the inbox of a live session; each channel takes at most one step of its own |
| TunnelTasks.Tasks.PumpOne | server-pc/src/relay_client.rs:437-481 | the pump sends the oldest control message, else the oldest video frame, else the oldest chunk |
| TunnelTasks.Tasks.PcWriterTurn | server-pc/src/relay_client.rs:529-556 | the PC writer carries the oldest frame on: the frames in flight for every phone stay the same, in the same order, and no channel moves |
| TunnelTasks.Tasks.SessionSends | server-pc/src/connection.rs:322-326 | whatever a session emits counts as emitted at once on its own channel and no other; only an A/V frame that finds two waiting is dropped |
| Link.WriterTakesText | server-pc/src/ws_server.rs:135-161 | a writer that picks control first keeps the delivered log ordered |
| Link.WriterTakesFile | server-pc/src/ws_server.rs:151-156 | picking bulk only when no control waits keeps every earlier text ahead of a FILE message |
| LanPath.LanBridge.WriterTurn | server-pc/src/ws_server.rs:135-161 | one turn of the LAN writer takes the first non-empty queue in declaration order and is a step of the channel |
| LanPath.LanBridge.Send | server-pc/src/connection.rs:774-778 | a control message is queued without bound and never dropped |
| LanPath.LanBridge.TrySendVideo | server-pc/src/connection.rs:322-326 | a video frame is queued if fewer than two wait and dropped otherwise |
| LanPath.LanBridge.SendBulk | server-pc/src/connection.rs:1092-1099 | a FILE chunk enters the bulk queue only when there is room |
| LanPath.LanBridge.ReaderTurn | server-pc/src/ws_server.rs:105-123 | the reader hands messages to the inbox in order, one by one |
| LanPath.LanBridge.Observed | server-pc/src/ws_server.rs:90-165 | the LAN path gives the same intact channel as the relay |
| LanPath.LanRefinesLink | server-pc/src/ws_server.rs:99-161 | in every run of reader, session and writer each step is a step of the channel, which is intact throughout |
| LanFlow.AvConserved | server-pc/src/ws_server.rs:94-96 | over the LAN exactly those A/V frames are missing that met a full queue |
| ChunkLog.ReceivedChunk | server-pc/src/connection.rs:931-1013 | on a proper stream the chunk handler never meets the out-of-order branch and the file stays the payload received, numbers counted modulo 2^32 |
| TransferProof.SessionHandlesKeeps | server-pc/src/connection.rs:813-1013 | the session's uploads match the prefix of the phone's log it has handled, whatever its file I/O does |
| TransferProof.PhoneHandlesKeeps | app-android/app/src/main/java/com/remotecontrol/app/net/ConnectionClient.kt:591-694 | the phone's downloads match the messages it received, whatever its file I/O does |
| TransferProof.BeginArrivedFirst | server-pc/src/connection.rs:1155-1189 | FileSendBegin travels on another queue but reaches the phone before any chunk of that id |
| EndToEnd.FilesOverChannel | app-android/app/src/main/java/com/remotecontrol/app/net/ConnectionClient.kt:444-516 | over any intact channel: no chunk out of order, partial files are prefixes, completed ones are the whole spool or everything the uploader read |
| EndToEnd.FilesOverRelay | relay/src/main.rs:639-701 | the same through the tunnel for any number of phones, sharing one queue and using any transfer ids |
| EndToEnd.FilesOverLan | server-pc/src/ws_server.rs:90-165 | the same in every run of the LAN bridge |
| Completion.UploadCompletes | server-pc/src/connection.rs:813-1013 | an upload whose sender reached end of file, whose messages were all handled, and which met no failure, abort or disconnect is complete on the PC with every byte read |
| Completion.DownloadCompletes | app-android/app/src/main/java/com/remotecontrol/app/net/ConnectionClient.kt:591-694 | a download whose chunks have all arrived and which met no failure, cancel or disconnect is complete on the phone with every byte of the spool that was sent |
| Partials.PartialsAreShort | app-android/app/src/main/java/com/remotecontrol/app/net/ConnectionClient.kt:573-589 | in every run an unfinished download is shorter than announced, or was announced empty and is empty |
| Senders.UploadThread | app-android/app/src/main/java/com/remotecontrol/app/net/ConnectionClient.kt:444-516 | the upload thread's frames are a proper stream of exactly the bytes read; LAST_CHUNK is sent exactly at an accepted end of file, every other exit aborts |
| Senders.StreamSpool | server-pc/src/connection.rs:1034-1137 | the streamer's frames are a proper stream of exactly the bytes asked for; LAST_CHUNK exactly when the declared size is reached, early end of file only for a short or empty spool, and no other stop but a cancel, a failed read or a closed queue |
| PhoneFiles.Downloads.HandleFileSendBegin | app-android/app/src/main/java/com/remotecontrol/app/net/ConnectionClient.kt:591-640 | without a socket nothing happens; without a directory or when the file cannot be opened the send is refused; otherwise a new file directly in the directory is created and accepted; no existing file changes |
| PhoneFiles.Downloads.HandleIncomingFileChunk | app-android/app/src/main/java/com/remotecontrol/app/net/ConnectionClient.kt:642-694 | an in-order chunk that can be written is appended to its file, which stays when complete; anything else deletes the file; completion and failure are each told exactly then; every completed file stays on disk with its content |
| PhoneFiles.Downloads.FailIncoming | app-android/app/src/main/java/com/remotecontrol/app/net/ConnectionClient.kt:696-708 | the partial file is deleted, the entry forgotten and the PC told |
| PhoneFiles.Downloads.Accept | app-android/app/src/main/java/com/remotecontrol/app/net/ConnectionClient.kt:662-694 | an in-order chunk is appended, and the last one leaves the file on disk, retires its entry and tells the PC |
| PhoneFiles.Downloads.Finish | app-android/app/src/main/java/com/remotecontrol/app/net/ConnectionClient.kt:672-690 | a finished file stays where it is with its content, its entry goes and the PC is told |
| PhoneFiles.Downloads.CancelDownload | app-android/app/src/main/java/com/remotecontrol/app/net/ConnectionClient.kt:545-571 | a user cancel deletes that download's file and entry and no other |
| PhoneFiles.Downloads.AbortAll | app-android/app/src/main/java/com/remotecontrol/app/net/ConnectionClient.kt:573-589 | every entry goes, a file stays only if it already has its announced size, all other files are untouched |
| PhoneFiles.Downloads.OnMessage | app-android/app/src/main/java/com/remotecontrol/app/net/ConnectionClient.kt:787-869 | the handlers together are the phone's receiver function |
| Paths.SanitizeSafe | server-pc/src/connection.rs:1212-1235 | whatever the phone sends, the name is one safe path component of 1 to 200 characters |
| Paths.SanitizeKeeps | server-pc/src/connection.rs:1212-1235 | a name is kept exactly if it is already a safe component within the limit without whitespace at its ends |
| Paths.TruncateIs | server-pc/src/connection.rs:1224-1232 | a name that is too long becomes 200 characters: a short extension whole, the rest from the front |
| Paths.UniqueDestPath | server-pc/src/connection.rs:1240-1256 | the first free candidate; none only if all thousand are taken |
| Paths.CandidatesDiffer | server-pc/src/connection.rs:1245-1255 | no two candidates are the same path |
| Paths.UniqueDestFile | app-android/app/src/main/java/com/remotecontrol/app/net/ConnectionClient.kt:710-731 | whatever name the PC sends, the destination is the first free one of the name with underscores and its numbers 2 to 999, or one with a fresh UUID: a new file directly inside the directory |
| Session.Connection.HandleFileBegin | server-pc/src/connection.rs:813-907 | an upload is accepted exactly when the id is new, the size at most 16 GiB, the directory and a free path exist and creation works; it then lands, empty, at the first free candidate for its cleaned name, which is the path the phone is told; otherwise nothing changes but the refusal |
| Session.Connection.Create | server-pc/src/connection.rs:872-899 | the created file is empty, tracked, and shared with no other transfer |
| Session.Connection.Write | server-pc/src/connection.rs:968-984 | a payload is appended, length and chunk number advance, and a non-empty one confirms what was written before it |
| Session.Connection.Complete | server-pc/src/connection.rs:986-1009 | the last chunk retires the entry and reports the file, which keeps what the flush left of it |
| Session.Connection.Unlink | server-pc/src/connection.rs:956-958 | a failed transfer loses its entry and its file |
| Session.Connection.HandleFileAbort | server-pc/src/connection.rs:909-929 | an abort unlinks the partial file and forgets the entry, an unknown id changes nothing |
| Session.Connection.HandleFileChunk | server-pc/src/connection.rs:931-1013 | a chunk is appended, completes, or fails and unlinks, as the receiver theory says, and is answered accordingly; a failed flush costs unconfirmed bytes of what completes and changes no answer |
| Session.CompleteIntact | server-pc/src/connection.rs:968-1008 | completion vouches for every byte if and only if the flush succeeded, which is not checked, or the file is empty |
| Session.ShortUpload | app-android/app/src/main/java/com/remotecontrol/app/net/ConnectionClient.kt:461-476 | the phone's own one-chunk upload, closed by its empty last frame, can be reported complete as an empty file |
| Session.Connection.HandleClientMsg | server-pc/src/connection.rs:425-755 | only an accepted handshake authenticates and sends Welcome; a refused one, or a ping or stream request before it, drops the connection with an error |
| Session.Connection.HandleSendReply | server-pc/src/connection.rs:201-242 | completion and failure retire a send and its spool, failure also stops its streamer |
| Session.Connection.HandleCommand | server-pc/src/connection.rs:329-374 | a send is announced and entered, a cancel stops it and deletes its spool; before authentication only the spool is deleted |
| Session.Connection.DropSend | server-pc/src/connection.rs:357-361 | a retired send loses its spool and, when cancelled, stops its streamer |
| Session.Connection.OnText | server-pc/src/connection.rs:155-258 | a parsed message goes to its handler; file messages before authentication change nothing |
| Session.Connection.OnBinary | server-pc/src/connection.rs:259-287 | binary frames before authentication and frames of other types are ignored; FILE frames go to the chunk handler |
| Session.Connection.UnlinkAll | server-pc/src/connection.rs:394-404 | at exit every upload under way is unlinked, completed files stay |
| Session.Connection.CancelAll | server-pc/src/connection.rs:405-416 | at exit every send is cancelled and its spool deleted |
| Session.Connection.OnEvent | server-pc/src/connection.rs:142-375 | one turn of the select loop: authentication is never taken back, uploads follow the receiver theory, and silence, a lost transport, a close and a refused message end the connection |
| Session.Connection.CleanUp | server-pc/src/connection.rs:391-422 | however the loop ended, no upload, send, stream or registration is left, and the disk is what was found plus what was reported complete |
| Session.Connection.Run | server-pc/src/connection.rs:81-422 | over a whole connection: authenticated only after an accepted handshake; at exit no upload, send, stream or registration, the files it added are exactly those it reported complete, with their content, everything it created is directly in its directory, files found are untouched, spools of its sends are gone unless displaced |
| Ledger.Takes | server-pc/src/connection.rs:968-984 | an accepted payload keeps content, length and count of every open file exact and paths unshared |
| Ledger.Settles | server-pc/src/connection.rs:391-404 | with no transfer open the disk is what was found plus what was completed |
| Pairing.PairingStore.VerifyAndConsume | server-pc/src/pairing.rs:61-74 | a code is accepted exactly if it is unspent, equal and at most 300 seconds old, each other answer comes exactly in its own case, and only acceptance spends |
| Pairing.PairingStore.Rotate | server-pc/src/pairing.rs:79-86 | a rotation makes a fresh, unspent code |
| Gate.WelcomesBounded | server-pc/src/connection.rs:436-497 | over any interleaving of peers, QR welcomes and added devices number at most one plus the rotations |
| Gate.OneCodeOneHandshake | server-pc/src/pairing.rs:61-86 | over any stretch of a run, accepted codes number at most its rotations plus one if the code was live |
| Gate.AcceptedIsFresh | server-pc/src/pairing.rs:61-86 | in every run a code is accepted only within five minutes of the rotation that made it, and only while no later one has |
| Gate.ReconnectsWereMinted | server-pc/src/connection.rs:513-577 | an accepted trusted reconnect carries the id and token hash of a device on the initial list, or of one that a peer pushed after a handshake whose code was accepted |
| TrustStore.Store.Lookup | server-pc/src/trusted_devices.rs:144-157 | the first device with the id decides; only a match updates its last-seen time |
| TrustStore.Store.Push | server-pc/src/trusted_devices.rs:132-135 | from now on the minted device is accepted, every device that was still is, and the invariant of the whole system stands |
| TrustStore.Store.Save | server-pc/src/trusted_devices.rs:167-177 | whichever file operation fails, the file keeps its old content or gets the whole list |
| TrustStore.StepKeeps | server-pc/src/trusted_devices.rs:111-177 | under concurrent mints, verifies, saves, crashes and reopenings a save always has the current list in hand and every mint under way is in memory under an id of its own |
| TrustStore.FileIsComplete | server-pc/src/trusted_devices.rs:167-177 | the file is always its initial content or a complete copy of a list that was in memory |
| TrustStore.MintedSurvives | server-pc/src/trusted_devices.rs:74-138 | a successful mint stays on disk exactly as long as no list begun without reading the file has been saved over it, and in memory exactly as long as the latest reopening also read the file |
| TrustStore.ReadsKeepAll | server-pc/src/trusted_devices.rs:65-69 | as long as every reopening reads the file nothing minted is lost |
| TrustStore.UnreadableLoses | server-pc/src/trusted_devices.rs:97-100 | a run with one unreadable reopening loses a device that had been on disk |
| TrustStore.MintReports | server-pc/src/trusted_devices.rs:132-138 | mint succeeds exactly when its rename does, with its list in the file; on every failure, at serializing, writing or renaming, the file is as it was; either way memory accepts the device |
| Takeover.Registry.Insert | relay/src/main.rs:544-559 | the swap-in makes the loop the slot's owner; whoever it displaced is a live loop that it now owes a signal |
| Takeover.Registry.FetchInstance | relay/src/main.rs:536-536 | no loop ever gets a tag that another loop has or had |
| Takeover.Registry.Remove | relay/src/main.rs:713-722 | cleanup removes the entry only if its tag is the loop's own, so a displaced loop changes no slot |
| Takeover.StepKeeps | relay/src/main.rs:536-722 | every interleaving of tag fetch, swap-in, notify, reader end and cleanup keeps slots and signals exact |
| Takeover.OnlineIsLive | relay/src/main.rs:544-559 | a slot belongs to the last loop to swap itself in, which has not cleaned up and has not been cancelled |
| Takeover.DisplacedIsSignalled | relay/src/main.rs:560-565 | a displaced serving loop has been signalled or exactly one loop still owes it the signal, never both; the owner is never signalled |
| Takeover.CleanupIsOwn | relay/src/main.rs:711-722 | cleanup takes away exactly the loop's own entry, so a displaced loop's changes nothing |
| Takeover.NothingLeftOnline | relay/src/main.rs:713-722 | once every loop has finished no host is online |
| Takeover.OneSurvivor | relay/src/main.rs:544-565 | when no signal is owed each host has at most one serving loop not told to stop |
| Bridge.SlotIsLastClaim | server-pc/src/file_send.rs:106-134 | the slot is the last session to claim it unless that session gave it back; a late give-back by another changes nothing, and a dispatch reaches the last claimant or nobody |
| Bridge.FileSendBridge.Deregister | server-pc/src/file_send.rs:118-125 | the slot is free afterwards if the session was the last to claim it and as it was if not |
| Bridge.FileSendBridge.Claim | server-pc/src/file_send.rs:113-113 | after a claim the session holds the slot and no other session's give-back takes it away |
| Bridge.FileSendBridge.FetchInstance | server-pc/src/file_send.rs:112-112 | no session ever gets a number that another session has or had |
| Bridge.FileSendBridge.Dispatch | server-pc/src/file_send.rs:130-134 | a command reaches the queue of the last claimant, or fails without a holder or with a closed queue |
| Bridge.FileSendBridge.AllocateTransferId | server-pc/src/file_send.rs:93-104 | an id is never 0 and the counter wraps past it |
| Bridge.IdsDistinct | server-pc/src/file_send.rs:93-104 | from any counter two allocations get the same id exactly when they are a multiple of 2^32 - 1 apart |
| Dial.Client.Connect | app-android/app/src/main/java/com/remotecontrol/app/net/ConnectionClient.kt:226-245 | a scan replaces the socket, the fallback and the hello, or stops halfway on a bad key |
| Dial.Client.ConnectTrusted | app-android/app/src/main/java/com/remotecontrol/app/net/ConnectionClient.kt:252-266 | a trusted reconnect replaces socket and hello and leaves the fallback alone |
| Dial.Client.Disconnect | app-android/app/src/main/java/com/remotecontrol/app/net/ConnectionClient.kt:268-273 | the socket is forgotten, the state idle, and downloads aborted; the fallback stays |
| Dial.Client.OnFailure | app-android/app/src/main/java/com/remotecontrol/app/net/ConnectionClient.kt:871-909 | only the current socket's failure counts; it consumes the fallback or surfaces the error |
| Dial.Client.OnClosed | app-android/app/src/main/java/com/remotecontrol/app/net/ConnectionClient.kt:915-928 | only the current socket's close counts |
| Dial.StaleIgnored | app-android/app/src/main/java/com/remotecontrol/app/net/ConnectionClient.kt:871-928 | in every reachable state a callback of any socket but the last one dialled changes nothing |
| Dial.CurrentIsLatest | app-android/app/src/main/java/com/remotecontrol/app/net/ConnectionClient.kt:226-273 | the current socket is always the last one dialled, on the URL kept for the trust store |
| Dial.DialsBounded | app-android/app/src/main/java/com/remotecontrol/app/net/ConnectionClient.kt:226-266 | dials number at most two per scan plus one per trusted reconnect |
| Dial.RetriesEnd | app-android/app/src/main/java/com/remotecontrol/app/net/ConnectionClient.kt:891-906 | without a user action new dials are at most the pending fallbacks |
| Dial.TrustedFailureRedials | app-android/app/src/main/java/com/remotecontrol/app/net/ConnectionClient.kt:897-908 | a failed trusted reconnect dials an old scan's relay exactly when that fallback is still pending |
| Dial.ScanFallsBack | app-android/app/src/main/java/com/remotecontrol/app/net/ConnectionClient.kt:226-245 | a scan dials the payload's URL with its code, and when that socket fails, whatever stale sockets report meanwhile, its fallback in the same way |
| Dial.PrintedCodeDials | app-android/app/src/main/java/com/remotecontrol/app/net/ConnectionClient.kt:891-906 | the printed combined code dials the PC and then the relay under the PC's host id |
| Dial.LossAborts | app-android/app/src/main/java/com/remotecontrol/app/net/ConnectionClient.kt:871-928 | whenever the current socket goes or is replaced, downloads under way are aborted |
| Qr.FallbackIsLast | app-android/app/src/main/java/com/remotecontrol/app/model/QrPayload.kt:58-122 | whatever is scanned, a fallback has no fallback of its own |
| Qr.LanTrip | server-pc/src/qr.rs:11-18 | the LAN code reads back as the printed endpoint, code, key and version, without a fallback |
| Qr.CombinedTrip | server-pc/src/qr.rs:38-64 | the combined code also reads back the relay's host, explicit or default port, host id and TLS flag, except for an IPv6 literal without a port |
| Qr.AuthorityTrip | app-android/app/src/main/java/com/remotecontrol/app/model/QrPayload.kt:113-122 | the phone splits the printed authority back into host and port, and fails exactly on that literal |
| Qr.ScanDials | app-android/app/src/main/java/com/remotecontrol/app/model/QrPayload.kt:45-55 | a scanned LAN code dials the printed endpoint under /ws, its fallback the relay's scheme, host and port under /v1/client with the host id |
| Uri.PairsParam | app-android/app/src/main/java/com/remotecontrol/app/model/QrPayload.kt:70-88 | every parameter of a printed query is found with its own value |
| AvSync.OpusPlayer.OnOutput | app-android/app/src/main/java/com/remotecontrol/app/video/OpusPlayer.kt:213-262 | the first sample publishes the seed, later ones refine it |
| AvSync.OpusPlayer.TryRefineAudioRef | app-android/app/src/main/java/com/remotecontrol/app/video/OpusPlayer.kt:302-352 | a usable timestamp yields the wall time of sample 0 by which its sample is heard at its time, up to a nanosecond, and that is republished unless within 5 ms of the last refined value |
| AvSync.AvSyncClock.AudioReference | app-android/app/src/main/java/com/remotecontrol/app/video/AvSyncClock.kt:60-63 | a reference exists exactly when a non-negative PTS is published |
| AvSync.AvSyncClock.PublishAudioStart | app-android/app/src/main/java/com/remotecontrol/app/video/AvSyncClock.kt:50-53 | publishing always overwrites |
| AvSync.AvSyncClock.Reset | app-android/app/src/main/java/com/remotecontrol/app/video/AvSyncClock.kt:71-74 | a reset leaves nothing published |
| AvSync.AudioTracks | app-android/app/src/main/java/com/remotecontrol/app/video/OpusPlayer.kt:302-340 | a refined clock holds the last published value, within 5 ms of what the latest timestamp measures |
| AvSync.H264Player.OnOutputBufferAvailable | app-android/app/src/main/java/com/remotecontrol/app/video/H264Player.kt:238-334 | the callback anchors, re-anchors beyond 30 ms, and holds a frame for the clamped, truncated delay |
| AvSync.SyncBound | app-android/app/src/main/java/com/remotecontrol/app/video/H264Player.kt:254-304 | over any run the video origin is within 30 ms of the published audio origin, and once refined the video clock puts the sample of the latest timestamp within 35 ms of when it is heard |
| AvSync.AnchorsOnce | app-android/app/src/main/java/com/remotecontrol/app/video/H264Player.kt:278-304 | while the reference stands still the origin moves at most once |
| AvSync.FirstGuess | app-android/app/src/main/java/com/remotecontrol/app/video/OpusPlayer.kt:213-262 | before there is a measurement the first audio sample counts as heard 250 ms after it was decoded, and video without audio starts 100 ms late |
| AvSync.DueOnTime | app-android/app/src/main/java/com/remotecontrol/app/video/H264Player.kt:316-334 | truncation makes a frame early by less than two milliseconds and late by no more than what passes before it is posted, unless its slot has passed |
| AvSync.AllReleasedInOrder | app-android/app/src/main/java/com/remotecontrol/app/video/H264Player.kt:305-334 | with an unchanged origin, frames whose slots are a millisecond plus the time between a callback's two clock reads apart are released in order and none is held over 400 ms |
| AvSync.GapNeeded | app-android/app/src/main/java/com/remotecontrol/app/video/H264Player.kt:316-326 | that order holds for a PTS gap and a bound on that time if and only if the gap is a millisecond more than the bound |
| FeedQueue.Player.Feed | app-android/app/src/main/java/com/remotecontrol/app/video/H264Player.kt:192-224 | a frame is gated, submitted to a waiting index, or queued with the oldest evicted beyond the cap |
| FeedQueue.Player.OnInputBufferAvailable | app-android/app/src/main/java/com/remotecontrol/app/video/H264Player.kt:227-236 | an index takes the oldest waiting frame or waits |
| FeedQueue.Player.Stop | app-android/app/src/main/java/com/remotecontrol/app/video/H264Player.kt:172-190 | stopping clears both queues and closes the keyframe gate, every waiting frame being cleared; the video player does nothing without a codec |
| FeedQueue.Player.Start | app-android/app/src/main/java/com/remotecontrol/app/video/H264Player.kt:89-153 | starting stops first and then publishes the codec |
| FeedQueue.DisjointExactly | app-android/app/src/main/java/com/remotecontrol/app/video/H264Player.kt:205-235 | over a run frames and indices never wait for each other if and only if no frame is ever fed while the codec is unpublished and an index waits |
| FeedQueue.RunFifo | app-android/app/src/main/java/com/remotecontrol/app/video/H264Player.kt:192-236 | outside that gap frames leave in acceptance order and indices are used in offer order |
| FeedQueue.Conservation | app-android/app/src/main/java/com/remotecontrol/app/video/OpusPlayer.kt:174-211 | in every run each accepted frame was submitted once, evicted once, cleared once, or still waits |
| FeedQueue.OrderExactly | app-android/app/src/main/java/com/remotecontrol/app/video/H264Player.kt:205-235 | frames leave in acceptance order if and only if none was submitted directly while another waited |
| FeedQueue.FedInOrder | app-android/app/src/main/java/com/remotecontrol/app/video/OpusPlayer.kt:174-211 | without such an overtaking the decoder is fed an ordered subsequence of the accepted frames, and everything waiting comes after it |
| FeedQueue.EvictsOldest | app-android/app/src/main/java/com/remotecontrol/app/video/OpusPlayer.kt:184-198 | a frame is evicted only by one that finds the queue full, and it is the oldest |
| FeedQueue.RunBounded | app-android/app/src/main/java/com/remotecontrol/app/video/H264Player.kt:205-222 | at most 32 or 64 frames wait, and video accepted since the gate closed starts with a keyframe |
| FeedQueue.AcceptedExactly | app-android/app/src/main/java/com/remotecontrol/app/video/H264Player.kt:192-224 | the audio path lets every frame in; the video path a keyframe always and any other exactly if one was let in since the gate last closed |
| FeedQueue.EarlyFrames | app-android/app/src/main/java/com/remotecontrol/app/video/OpusPlayer.kt:84-90 | frames fed before the codec exists survive `start` on the video path only |
| FeedQueue.GapReorders | app-android/app/src/main/java/com/remotecontrol/app/video/H264Player.kt:137-153 | a run through that gap feeds the decoder out of order |
| Pacing.VideoLoop | server-pc/src/stream.rs:389-470 | the loop captures, skips and forces keyframes exactly as its step function says |
| Pacing.LoopPaced | server-pc/src/stream.rs:400-470 | a capture is due at least one interval after the previous one was, and is let through at most 2 ms early |
| Pacing.IdleForces | server-pc/src/stream.rs:420-428 | while nothing is captured every 30th turn past the gate forces a keyframe |
| Pacing.PacingBound | server-pc/src/stream.rs:389-411 | a window of length W sees at most (W + 2 ms) / interval + 2 captures, for any capture and encode times |
| Pacing.BoundReached | server-pc/src/stream.rs:465-467 | the bound is attained |
| Nv12.BgraToNv12 | server-pc/src/encoder/common.rs:55-95 | the loops stay in bounds, write every one of the w * h * 3 / 2 bytes to the per-pixel and per-block value, and nothing else |
| Nv12.BlockMean | server-pc/src/encoder/common.rs:76-88 | the running sums give the mean of the 2x2 block for each channel |
| Nv12.LumaRow | server-pc/src/encoder/common.rs:60-70 | one row of luma bytes is written and nothing else |
| Nv12.ChromaRow | server-pc/src/encoder/common.rs:72-94 | one row of interleaved chroma bytes is written and nothing else |
| Nv12.VideoRange | server-pc/src/encoder/common.rs:67-92 | luma lies in 16..235 and chroma in 16..240 for every color, so the clamps never fire |
| Nv12.MeetsBt601 | server-pc/src/encoder/common.rs:67-90 | for every color the three integer formulas are within one level of BT.601's |
| Nv12.FrameMeetsBt601 | server-pc/src/encoder/common.rs:55-95 | every luma byte of a converted frame is within one level of BT.601 for its pixel, every chroma byte for the mean color of its block |
| Nv12.Determined | server-pc/src/encoder/common.rs:55-58 | the specification fixes every byte of the frame, and each is a legal sample |
| Nv12.GraysAreNeutral | server-pc/src/encoder/common.rs:89-90 | grays have neutral chroma, black and white are the ends of the luma range |
| Nv12.Packer.Pack | server-pc/src/encoder/resize.rs:42-49 | the packing loop copies every row to its packed place |
| Nv12.PackedSame | server-pc/src/encoder/resize.rs:42-49 | converting the packed copy and converting the padded frame give the same bytes |
| Gesture.GestureLoop | app-android/app/src/main/java/com/remotecontrol/app/ui/StreamSurface.kt:224-334 | the nested loops emit exactly the outputs of the step functions, gesture after gesture |
| Gesture.Events | app-android/app/src/main/java/com/remotecontrol/app/ui/StreamSurface.kt:239-290 | the event loop of one gesture |
| Gesture.Lift | app-android/app/src/main/java/com/remotecontrol/app/ui/StreamSurface.kt:292-333 | what the last finger lifting emits: release, click, double click, right click or nothing |
| Gesture.ButtonsBalanced | app-android/app/src/main/java/com/remotecontrol/app/ui/StreamSurface.kt:239-333 | over any strokes no button is pressed while held or released while not, and nothing is held at the end of a gesture |
| Gesture.CutGesture | app-android/app/src/main/java/com/remotecontrol/app/ui/StreamSurface.kt:256-264 | a gesture cut off in the middle leaves the left button held exactly if one finger had got beyond the slop before any second finger landed |
| Gesture.NoLateDrag | app-android/app/src/main/java/com/remotecontrol/app/ui/StreamSurface.kt:252-264 | once a second finger has landed nothing is pressed for the rest of the gesture |
| Gesture.DragSurvives | app-android/app/src/main/java/com/remotecontrol/app/ui/StreamSurface.kt:268-298 | a drag under way by then only scrolls and is released at the end |
| Gesture.ScrollConserved | app-android/app/src/main/java/com/remotecontrol/app/ui/StreamSurface.kt:273-288 | in an uninterrupted two-finger phase notches times pixels plus the remainder is the midpoint's travel, and the remainder is under a notch |
| Gesture.OnePress | app-android/app/src/main/java/com/remotecontrol/app/ui/StreamSurface.kt:292-333 | a gesture presses left once if one finger got beyond the slop first; if a single finger stays within it, left when lifted before 300 ms and right when after 500; otherwise nothing |
| Gesture.ClickLands | app-android/app/src/main/java/com/remotecontrol/app/ui/StreamSurface.kt:292-333 | a tap or long press happens where the finger came down; the second of two quick taps leaves the pointer alone |
| Gesture.DragFollows | app-android/app/src/main/java/com/remotecontrol/app/ui/StreamSurface.kt:247-264 | a drag by one finger brings the pointer to the finger before pressing and then follows it event by event |
| Gesture.NormIs | app-android/app/src/main/java/com/remotecontrol/app/ui/StreamSurface.kt:257-258 | a move is the exact share of the surface on each axis by itself and stays on the edge beyond it |

## Left out

- TunnelTasks.Tasks.ForwardOne: the tunnel's many tasks interleave as a step system over values; the methods show each step in place, but no loop of a task runs as one method, because tasks take turns between any two steps.
- TunnelProof.TunnelRefinesLinks: safety only; that a phone is told promptly when the host goes away is not claimed, and the code keeps queue handles that can delay it.
- TunnelProof.LinkScript: keepalive pings and pongs on either WebSocket are not part of the model, nor is the UTF-8 check of text payloads, which WebSockets already guarantee.
- EndToEnd.FilesOverChannel: transfer ids are used once per connection; the counters on both ends wrap only after 2^32 transfers.
- EndToEnd.FilesOverRelay: a write the PC's file system accepted is taken to reach the file; what a failing flush costs is in `Session.CompleteIntact` and `Session.Connection.HandleFileChunk`.
- Session.CompleteIntact: a file under way is shown with all that was written to it; which buffered bytes are missing shows when it completes.
- Session.Connection.Run: unlinking is taken to succeed; the code only logs when it does not. Commands never taken off the send queue leave their spools, as in the code.
- Session.Connection.HandleClientMsg: mouse, keyboard and clipboard messages are one case without effect; they carry no authentication check in the code. Bitrate and interval adjustment for relay peers is left out.
- Paths.UniqueDestPath: another connection could create the chosen path before this one does; that race is not modelled.
- Paths.SanitizeSafe: truncation may leave trailing whitespace; only characters and length are claimed.
- Gate.WelcomesBounded: that the Welcome's HMAC key belongs to the consumed code is not claimed, since a rotation can come between the two locks.
- PhoneFiles.Downloads.AbortAll: a file whose close fails there counts as written; the code ignores that failure and goes by its own byte count.
- PhoneFiles.Downloads.Finish: files deleted or changed by the user or another app are not modelled.
- TrustStore.MintedSurvives: JSON is taken as lossless, a rename as atomic and, once reported, as outlasting the process, and fresh UUIDs as unused.
- Takeover.StepKeeps: instance tags are unbounded numbers; a 64-bit counter does not wrap in practice.
- Dial.StaleIgnored: creating a socket and storing it is one step; messages from stale sockets, which have no guard in the code, are not modelled.
- Qr.CombinedTrip: percent- and plus-decoding of query values, non-ASCII digits and user info are outside; the printed values contain none.
- AvSync.SyncBound: 64-bit overflow is not modelled, nor a read that falls between the two volatile writes of `reset` or of the first publication of a restarted audio player. Other publications write the same PTS again, so a read between their two writes sees one of the two published pairs.
- AvSync.AllReleasedInOrder: the handler thread is taken to run a release when it is due, and both clocks to tick alike.
- FeedQueue.OrderExactly: of two equal frames none can be told to have come first, so the accepted frames are taken to differ.
- FeedQueue.Conservation: exceptions of `queueInputBuffer` are swallowed by the code, so submitted means handed to the codec.
- Pacing.PacingBound: bitrate statistics and packet delivery of the same loop are left out.
- Gesture.ScrollConserved: floats are reals, so rounding is not modelled.
- Nv12.BgraToNv12: odd widths and heights make the code panic and are outside its contract; the resize filter itself is left out.
- The relay's host registry and its persistence, HTTP endpoints, TLS, the tray, Compose screens, capture, encoders, codecs, audio and input devices, and installers.
