# MirrorWTransport: a verified model

MirrorWTransport is a transport for the Mirror networking library on top of
WebTransport. Its server and its editor and standalone client are written in
Rust, its browser client in JavaScript, and C# drives both. This project models
the parts in which those programs have to agree, and proves that they do.

* **The reliable stream.** `Framing` is the wire format and a reference decoder.
  `NativeWriter` (batches), `NativeReader` (offset buffer with lazy compaction)
  and `BrowserPlugin` (a real array that doubles and moves in place) are proved
  against it, `JsNumbers` settles the signed shifts, and `ReaderAgreement` and
  `Delivery` join the two implementations in both directions, `Datagrams` adds the
  unreliable channel.
* **The browser session.** `BrowserSession` says what every call and every
  promise callback does to the one session object, `BrowserPlugin` is that
  object, and `BrowserRuns`, `BrowserSends` and `BrowserReads` are about all
  interleavings of calls and settlements over any number of sessions;
  `BrowserReplay` carries them out on the object.
  `ClientSession`, `WebGLClient`, `ClientRuns` and `ClientData` add the C# side.
* **The native client.** `NativeSession` is the session worker, one atomic
  operation, lock or await at a time, against the game's thread, and `NativeReads`
  puts its readers in;
  `NativeBackend`, `NativeClient`, `NativeClientRuns` and `NativeClientData` add the
  library's client slot and the C# side.
* **The server's registry.** `IdAllocator` is the wrapping id counter.
  `Registry` lets any number of `handle_session` tasks interleave step by step,
  `RegistryRuns` proves the books and the events, `Admission` how far the
  capacity check can be overrun.
* **Certificates.** `Certificate` is the validity window and the rotation loop,
  `Inspector` the clamps of the settings that feed it.
* **The border to C#.** `Utf8`, `Interop` and `Settings`: cutting texts,
  rendering events, and the sizes that keep messages from being dropped.

Objects that the programs update in place are classes, each proved equal to a
specification function on values; the theorems over runs are about those
functions. Fields marked as bookkeeping (the events ever queued, the session an
event came from, the bytes ever sent) are not kept by the programs.

## Where the code and its documentation differ

The model follows the code.

* Documentation~/Protocol.md:66-67 caps a write at 64 KB. The writer checks the
  size before it appends, so a batch can be longer by one frame. The cap holds
  exactly when no frame can cross it (`NativeWriter.CapHoldsExactly`).
* `max_connections` is checked long before the session is counted. With p
  handshakes under way at once the server can hold up to `max_connections - 1 + p`
  sessions (`Admission.AdmissionBoundExactly`).
* README.md:185-187 and Runtime/WebTransportTransport.cs:170-174 promise that a
  failed rotation leaves room for another attempt. A failed attempt waits a whole
  interval, so that holds only if two intervals fit
  (`Inspector.FailedRotationHasRoomExactly`), and not at the defaults
  (`Inspector.DefaultsHaveNoRoom`).
* In a browser without WebTransport, the plugin's connect function queues events
  without counting their bytes (`BrowserRuns.CounterIsExactWhenSupported`). The C#
  client never calls it there, so through the client the counter is exact
  (`ClientRuns.ClientKeepsCounterExact`).
* An event too long for the receive buffer is shown by the browser plugin as an
  error even if it is a Disconnected; the C# client then does not learn that the
  session is over (`ClientData.DrainedClientAgreesExactly`,
  `ClientData.LongComplaintIsMissed`). The native library cuts texts instead.
* Native~/mirror-wtransport/src/client.rs:181-182 and Runtime/Client/WTClient.cs:24-27
  say that Disconnected follows a request to disconnect. The request travels behind
  the frames queued before it, so a peer that accepts none of them holds it up
  (`NativeSession.DisconnectIsAnsweredExactly`, `NativeSession.StalledDisconnect`).

## Model

| member | source | states |
|---|---|---|
| `Framing.BigEndianRoundTrip` | Native~/mirror-wtransport/src/common.rs:140-147 | reading back the four length bytes gives the length, for every length below 2^32 |
| `Framing.FromBigEndianRoundTrip` | Native~/mirror-wtransport/src/common.rs:213-214 | every four length bytes are the encoding of the length read from them |
| `Framing.DecodeSplit` | Native~/mirror-wtransport/src/common.rs:205-241 | decoding a concatenation is decoding its first part and then, unless that was a violation, what was left of it followed by the second part: chunk boundaries do not matter |
| `Framing.DecodeIsExact` | Native~/mirror-wtransport/src/common.rs:205-241 | re-encoding every decoded frame and appending the undecoded rest gives back the input, and the rest is either an incomplete frame or an announced length above the limit: nothing is lost, invented or torn |
| `Framing.DecodeEncoded` | Native~/mirror-wtransport/src/common.rs:140-147 | round trip: the encoding of any messages within the limit decodes to those messages, whatever follows them |
| `Framing.PrefixSafety` | Native~/mirror-wtransport/src/common.rs:205-241 | any byte prefix of an encoding decodes to a prefix of the messages and is never a violation |
| `Framing.NextMessageIsDecode` | Native~/mirror-wtransport/src/common.rs:205-241 | popping one non-empty message at a time, skipping empty frames, is the same as decoding |
| `Framing.FeedIsDecode` | Native~/mirror-wtransport/src/session.rs:87-117 | feeding chunks one after the other delivers what the concatenation decodes to |
| `JsNumbers.FrameLengthIsBigEndian` | Runtime/Plugins/WebGL/MirrorWTransport.jslib:221-224 | the signed shifts, ors and the final `>>> 0` compute the unsigned big-endian length for all four-byte inputs, also from 2^31 on |
| `JsNumbers.LengthBytesAreBigEndian` | Runtime/Plugins/WebGL/MirrorWTransport.jslib:475-480 | the four bytes the plugin writes are the big-endian length |
| `NativeReader.FrameReader.Extend` | Native~/mirror-wtransport/src/common.rs:196-198 | appends to the unread bytes and to nothing else |
| `NativeReader.FrameReader.NextFrame` | Native~/mirror-wtransport/src/common.rs:205-241 | one call takes exactly the next non-empty message off the unread bytes, or says that more are needed, or reports the announced length that is too large; the unread bytes afterwards are those of the pure reader |
| `NativeReader.FrameReader.Compact` | Native~/mirror-wtransport/src/common.rs:243-254 | leaves the unread bytes alone; moves at most `max_payload + 4` bytes, and only after 65536 consumed ones |
| `NativeReader.FrameReader.CompactionIsAmortised` | Native~/mirror-wtransport/src/common.rs:184-254 | drains x 65536 <= bytes consumed, and bytes moved <= drains x (max_payload + 4) |
| `NativeReader.DrainIsDecode` | Native~/mirror-wtransport/src/session.rs:96-117 | emptying the reader reports what the unread bytes decode to |
| `NativeReader.PopAll` | Native~/mirror-wtransport/src/session.rs:96-117 | the inner loop reports exactly the messages in the buffer and the violation that stops it |
| `NativeReader.ReadStream` | Native~/mirror-wtransport/src/session.rs:87-117 | the outer loop, over any chunking: the report is that of the whole byte string |
| `NativeReader.ReliableReader` | Native~/mirror-wtransport/src/session.rs:76-118 | for any stream and chunking: reports exactly the messages of the concatenated bytes and stops at the first violation; the buffer never exceeds 65535 + max_payload + 4 + 16384 bytes; bytes moved <= (received / 65536) x (max_payload + 4) |
| `NativeWriter.ReliableWriter` | Native~/mirror-wtransport/src/session.rs:30-73 | the loops over the queue write exactly the batches of the specification, stop at a failed write and close after the first Close |
| `NativeWriter.BatchesPreserve` | Native~/mirror-wtransport/src/session.rs:30-73 | whatever is ready when, the concatenated batches are the frames queued before the first Close, in order; each batch is a run of whole frames |
| `NativeWriter.BatchBound` | Native~/mirror-wtransport/src/session.rs:36-61 | every batch is at most 65535 bytes and one largest frame |
| `NativeWriter.CapHoldsExactly` | Native~/mirror-wtransport/src/session.rs:52-61 | the documented 64 KB cap holds under every schedule if and only if no frame of the queue can cross it |
| `NativeWriter.CapIsNotHard` | Native~/mirror-wtransport/src/session.rs:52-61 | two messages of 39995 bytes and a schedule whose one batch exceeds the cap |
| `NativeWriter.WireIsEncoding` | Native~/mirror-wtransport/src/server.rs:236-299 | what `send` and `disconnect` queue reaches the wire as the encoding of the messages sent before the first disconnect |
| `NativeWriter.EndToEnd` | Native~/mirror-wtransport/src/session.rs:30-118 | reliable delivery: for every batching and every chunking of any prefix, the reader reports a prefix of the non-empty messages sent before the first disconnect, no violation, and all of them once every byte is there |
| `ReaderAgreement.ArrivalsAgree` | Runtime/Plugins/WebGL/MirrorWTransport.jslib:179-256 | agreement on both channels: given the same reads of the stream and the same datagrams in the same order, with C# polling at any time in between, the browser session hears a prefix of what the native readers hand on, all of it while it lives, and all of it with the same verdict if and only if each arrival fits the event queue as it is at that moment |
| `ReaderAgreement.ReadersAgree` | Runtime/Plugins/WebGL/MirrorWTransport.jslib:268-291 | the same for the reliable stream, with the native reader cutting the bytes into chunks of its own |
| `ReaderAgreement.DatagramReadersAgree` | Runtime/Plugins/WebGL/MirrorWTransport.jslib:293-316 | the same for the datagrams, against those the native loop passes on |
| `BrowserReads.ReadsAreDecoded` | Runtime/Plugins/WebGL/MirrorWTransport.jslib:201-256 | over every run, whatever other calls, polls and callbacks come in between: the reliable messages a session has queued are a prefix of what the bytes fed to it after the prologue decode to, and while it lives exactly those, with exactly the undecoded rest unread |
| `Delivery.BrowserToNative` | Runtime/Plugins/WebGL/MirrorWTransport.jslib:466-504 | over every run of the plugin and any part of its stream that has arrived in any chunks, the native reader reports a prefix of the non-empty messages the plugin accepted, all of them once everything has arrived, and no violation |
| `Delivery.NativeToBrowser` | Native~/mirror-wtransport/src/session.rs:30-73 | over every run of the plugin whose stream is fed any part of what the native side has put there: the session has heard a prefix of the non-empty messages sent before the first disconnect, while connected all that have arrived in full, and all of them once the whole stream has |
| `Delivery.NativeToBrowserExactly` | Native~/mirror-wtransport/src/session.rs:30-73 | a session that is fed the whole stream, and polled, in any way hears all of them and lives on if and only if what each read completes fits the queue as it is then |
| `Datagrams.DatagramRoundTrip` | Native~/mirror-wtransport/src/common.rs:149-154 | a message within the limit comes through its datagram unchanged, a longer one not at all, and what is decoded was sent as just that datagram |
| `Datagrams.DatagramReader` | Native~/mirror-wtransport/src/session.rs:121-151 | the loop passes on the messages of exactly the datagrams that are neither empty nor too long, in their order of arrival |
| `BrowserPlugin.MirrorWTransport.Reset` | Runtime/Plugins/WebGL/MirrorWTransport.jslib:70-93 | the whole session object is that of a new session; queued events are dropped with their byte count |
| `BrowserPlugin.MirrorWTransport.MoveToFront` | Runtime/Plugins/WebGL/MirrorWTransport.jslib:190-194 | the in-place copy keeps the unread bytes |
| `BrowserPlugin.MirrorWTransport.Grow` | Runtime/Plugins/WebGL/MirrorWTransport.jslib:183-189 | the doubling loop ends with a buffer that is big enough and less than twice what was needed; the unread bytes move to its front |
| `BrowserPlugin.MirrorWTransport.Append` | Runtime/Plugins/WebGL/MirrorWTransport.jslib:179-199 | the unread bytes become the old ones followed by the chunk; 0 <= start <= end <= capacity, and the capacity is 16384 or less than twice (limit + 4 + largest chunk) |
| `BrowserPlugin.MirrorWTransport.FrameStep` | Runtime/Plugins/WebGL/MirrorWTransport.jslib:215-244 | one round of the frame loop on the real buffer is one round of the specification |
| `BrowserPlugin.MirrorWTransport.Parse` | Runtime/Plugins/WebGL/MirrorWTransport.jslib:201-256 | prologue, frame loop and reclaiming on the real buffer do what the specification does to the session and its unread bytes |
| `BrowserPlugin.MirrorWTransport.Settle` | Runtime/Plugins/WebGL/MirrorWTransport.jslib:264-364 | a settled promise has the effect the specification gives its callback, on the whole session object |
| `BrowserPlugin.MirrorWTransport.Connect` | Runtime/Plugins/WebGL/MirrorWTransport.jslib:385-452 | resets, and starts connecting or fails, for each way the browser can respond; the two promises it starts belong to the new session |
| `BrowserPlugin.MirrorWTransport.Send` | Runtime/Plugins/WebGL/MirrorWTransport.jslib:466-515 | accepts, refuses or fails exactly as specified; the send counter grows by the frame handed over |
| `BrowserReplay.Replay` | Runtime/Plugins/WebGL/MirrorWTransport.jslib:179-256 | carried out on the object with its real buffer, every run of calls and settlements ends in the session value of that run; and the buffer is at most 16384 bytes, or less than twice (limit + 4 + longest chunk of the run) |
| `BrowserRuns.StaleIsSilent` | Runtime/Plugins/WebGL/MirrorWTransport.jslib:264-266 | a settlement for a session that is no longer current changes nothing and starts nothing |
| `BrowserRuns.StaleCallbackErasure` | Runtime/Plugins/WebGL/MirrorWTransport.jslib:258-364 | stale-callback erasure: deleting from any run all settlements that come too late for their session leaves the same session object and the same event queue |
| `BrowserRuns.StaleForever` | Runtime/Plugins/WebGL/MirrorWTransport.jslib:258-266 | once a session is not current it never is again, so a callback that is stale stays stale |
| `BrowserRuns.PushFlows` | Runtime/Plugins/WebGL/MirrorWTransport.jslib:99-102 | queueing an event keeps the byte count exact and the queue the unpolled end of the session's word, and takes the grammar one step on |
| `BrowserRuns.PushDataIsAllOrNothing` | Runtime/Plugins/WebGL/MirrorWTransport.jslib:106-114 | a message is queued whole and the session goes on, or nothing of it is and the session ends with Error and Disconnected; which of the two depends on the cap alone |
| `BrowserRuns.CloseTellsOnce` | Runtime/Plugins/WebGL/MirrorWTransport.jslib:121-136 | the end of a session is told by exactly one Disconnected, and closing again tells nothing |
| `BrowserRuns.FailTellsErrorThenEnd` | Runtime/Plugins/WebGL/MirrorWTransport.jslib:138-141 | a failure adds exactly an Error with a Disconnected right behind it, and no message |
| `BrowserRuns.DisconnectIsFinal` | Runtime/Plugins/WebGL/MirrorWTransport.jslib:454-464 | in every reachable state a disconnect ends the session at once, and until C# connects again no settlement, send or further disconnect changes the session object |
| `BrowserRuns.SessionGrammar` | Runtime/Plugins/WebGL/MirrorWTransport.jslib:70-141 | over every run: the events queued since the last reset are a prefix of `(Connected Data*)? Error? Disconnected` that does not end in Error, and there is a transport exactly while the session has not ended |
| `BrowserRuns.ExactCounters` | Runtime/Plugins/WebGL/MirrorWTransport.jslib:99-114 | over every run: queuedBytes is exactly the bytes of the queued events (so the clamp in Poll never acts), queued data is within its cap, and while a session lives pendingSendBytes is exactly its unsettled frames and within its cap |
| `BrowserRuns.PollIsSound` | Runtime/Plugins/WebGL/MirrorWTransport.jslib:520-521 | what is polled was counted, so the clamp at zero never acts |
| `BrowserRuns.CounterIsExactWhenSupported` | Runtime/Plugins/WebGL/MirrorWTransport.jslib:386-400 | the plugin's byte counter is exact in every run if and only if the browser has WebTransport |
| `ClientRuns.ClientKeepsCounterExact` | Runtime/Client/WTWebGLClient.cs:44-51 | used through the client it is exact in every run, in browsers of both kinds: without WebTransport the client never calls the plugin |
| `BrowserRuns.CounterIsWrongUnsupported` | Runtime/Plugins/WebGL/MirrorWTransport.jslib:386-400 | a run in which it is wrong in a browser without |
| `BrowserRuns.RunKeepsInv` | Runtime/Plugins/WebGL/MirrorWTransport.jslib:18-548 | the invariant behind these holds in every reachable state |
| `BrowserSends.WireCarriesWhatWasSent` | Runtime/Plugins/WebGL/MirrorWTransport.jslib:334-348 | over every run: the session's stream carries nothing, or the prologue and the encoding of exactly the accepted messages in order; at most one promise of set-up and reading is outstanding |
| `WebGLClient.WTWebGLClient.Tick` | Runtime/Client/WTWebGLClient.cs:93-106 | the loop polls and dispatches until the queue is empty, the client is off, or the limit is reached |
| `WebGLClient.TransportClient.ConnectTo` | Runtime/WebTransportTransport.cs:334-350 | a new client object is made, with the current settings, exactly when there is none or the old one is off; for flags, plugin and callbacks that is the same as connecting the old one |
| `ClientRuns.CallbackRuns` | Runtime/Client/WTWebGLClient.cs:93-146 | composed callback runs: under every interleaving, OnData is heard only after the OnConnected of its own session and OnConnected, OnDisconnected and OnError only after the attempt of their own session, with no other attempt, shutdown or OnDisconnected in between, nor another OnConnected before an OnConnected |
| `ClientRuns.OpenSinceMeaning` | Runtime/Client/WTWebGLClient.cs:93-146 | what that says position by position of the calls heard |
| `ClientRuns.ConnectStartsAfresh` | Runtime/Client/WTWebGLClient.cs:36-60 | connecting a busy client changes nothing; one that is off gets a session never seen before, nothing to poll that is not of that session, and no outstanding promise that belongs to it from before |
| `ClientRuns.DispatchKeepsStep` | Runtime/Client/WTWebGLClient.cs:108-146 | after any event of its session the two flags are never both set and stand for what Mirror has heard by the rules of the conversation |
| `ClientRuns.SilentAfterShutdown` | Runtime/Client/WTWebGLClient.cs:168-173 | after a shutdown Mirror hears nothing until it connects again, whatever settles and whatever was left in the queue |
| `ClientData.OnDataIsWhatWasQueued` | Runtime/Client/WTWebGLClient.cs:93-130 | over every run, whatever sizes were in force before: if from an attempt on no text and no message is longer than a tick's buffer, what Mirror has heard through OnData since the last attempt is, in order, a prefix of the messages the plugin has queued for that session, and all of them while the client is on and the queue is drained |
| `ClientData.DrainedClientAgreesExactly` | Runtime/Client/WTWebGLClient.cs:24-32 | with texts of up to t bytes and buffers of at least b, a client whose queue is drained is in the plugin's state in every run if and only if t <= b |
| `ClientData.LongComplaintIsMissed` | Runtime/Plugins/WebGL/MirrorWTransport.jslib:411-417 | a run in which it is not: a certificate hash setting that is no hash and whose complaint is longer than the buffer reaches the client only as two errors, and from then on nothing but a shutdown changes client or plugin: it stays connecting for good |
| `NativeSession.ClientGrammar` | Native~/mirror-wtransport/src/client.rs:220-356 | over every interleaving of the session worker with the game's thread: the events are a prefix of `(Connected Data*)? Error? Disconnected`; a session that fails to connect has said nothing before its Error; a state of Connected means queue and connection are there; after Disconnected the state says so and both are gone |
| `NativeSession.AskedIsAnswered` | Native~/mirror-wtransport/src/client.rs:183-201 | once a disconnect has been asked for, the worker can get to Disconnected by steps of its own, with the network accepting what it is offered only if something is outstanding |
| `NativeSession.DisconnectIsAnsweredExactly` | Native~/mirror-wtransport/src/session.rs:61-70 | in every reachable state with a disconnect asked for, the worker can answer it without the network if and only if nothing is outstanding: the signal was sent, the loops are over, or the stream has accepted the frames ahead of the Close message and has been finished; and within twelve steps in any case once the network accepts |
| `NativeSession.StalledDisconnect` | Native~/mirror-wtransport/src/client.rs:183-201 | a run in which it is not: with one frame not accepted, the call has returned, calling again changes nothing, and no steps of the worker's own get to Disconnected |
| `NativeClient.WTNativeClient.Tick` | Runtime/Client/WTNativeClient.cs:122-137 | the loop polls and dispatches until the queue is empty, the client is off, or the limit is reached |
| `NativeClientRuns.NativeCallbackRuns` | Runtime/Client/WTNativeClient.cs:122-182 | the native client keeps the same promise to Mirror, under every interleaving of calls, ticks and steps of the session worker |
| `NativeClientRuns.NewestSessionOnly` | Native~/mirror-wtransport/src/ffi.rs:547-564 | over every run, an event polled is of the session started last: a replaced one is never heard of again |
| `NativeClientRuns.SilentAfterShutdown` | Runtime/Client/WTNativeClient.cs:177-182 | after a shutdown Mirror hears nothing until it connects again, whatever the old session still does |
| `NativeClientData.NativeOnDataIsWhatWasTold` | Runtime/Client/WTNativeClient.cs:139-163 | over every run, whatever sizes were in force before: if from an attempt on no message is longer than a tick's buffer, what Mirror has heard through OnData since the last attempt is, in order, a prefix of the messages its session has passed on, and all of them while the client is on and the queue is drained |
| `NativeReads.NativeReadsAreDecoded` | Native~/mirror-wtransport/src/session.rs:84-117 | over every run of the session worker with its readers: the reliable messages passed on are, in order, a prefix of what the chunks read so far decode to, all of it whenever the reader goes on to the next chunk; and an Error told after Connected means that a message too long comes next and everything ahead of it was passed on |
| `NativeReads.ReaderRunsAreRuns` | Native~/mirror-wtransport/src/session.rs:76-151 | every such run is a run of the worker, so the event grammar and the rest hold of it too |
| `NativeReads.ToldIsWhatWasRead` | Native~/mirror-wtransport/src/session.rs:96-104 | without datagrams in between, the messages told to the game's side are exactly those |
| `NativeClientRuns.DrainedNativeClientAgrees` | Runtime/Client/WTNativeClient.cs:24-33 | once the queue is drained, a client that is not off is connected if and only if its session has said so, and no client waits for a session that is over |
| `IdAllocator.ServerContext.AllocateId` | Native~/mirror-wtransport/src/server.rs:92-105 | with n < 2^31 - 1 connections, returns within n + 1 probes the first id in counter order that is in 1..2^31-1 and not in the map |
| `IdAllocator.ProbesAreDistinct` | Native~/mirror-wtransport/src/server.rs:96-98 | within one lap the counter yields no id twice |
| `IdAllocator.AllocationEndsExactly` | Native~/mirror-wtransport/src/server.rs:92-105 | the probing loop ends if and only if fewer than 2^31 - 1 ids are in use |
| `Registry.CountStep` | Native~/mirror-wtransport/src/server.rs:537-682 | each step keeps the head counts: counted sessions, and admitted ones in flight |
| `Registry.MapStep` | Native~/mirror-wtransport/src/server.rs:627-678 | each step keeps the map exact |
| `Registry.IdsStep` | Native~/mirror-wtransport/src/server.rs:627-629 | each step keeps the ids in use distinct |
| `RegistryRuns.RegistryInvariant` | Native~/mirror-wtransport/src/server.rs:533-682 | in every reachable state of any number of interleaved sessions: connection_count is the number of sessions between increment and decrement, the map holds exactly those between insert and remove, under their own ids, and is no larger than the count; count + admitted in flight <= max_connections - 1 + peak in flight |
| `RegistryRuns.ServerGrammar` | Native~/mirror-wtransport/src/server.rs:646-682 | over every interleaving: the events of one session are a prefix of `Connected Data* Error? Disconnected`, and under one id Mirror sees such sessions strictly one after the other |
| `Admission.AdmissionBoundExactly` | Native~/mirror-wtransport/src/server.rs:537-545 | for every maximum and every peak of simultaneous handshakes, max_connections - 1 + peak is the exact bound on the sessions counted: never more, and some run gets there |
| `Admission.MaximumHoldsExactly` | Native~/mirror-wtransport/src/server.rs:537-545 | so the maximum is kept if and only if handshakes come one at a time |
| `Admission.Overfills` | Native~/mirror-wtransport/src/server.rs:537-628 | a run that fills the server to that bound |
| `Certificate.Rotation.RotationLoop` | Native~/mirror-wtransport/src/server.rs:480-530 | after any attempts: when the served certificate was made, its hash, and the rotations announced; an attempt that fails changes nothing but costs a whole interval |
| `Certificate.AnnouncedIsServed` | Native~/mirror-wtransport/src/server.rs:512-529 | the last hash announced is the one served |
| `Certificate.SurvivesExactly` | Native~/mirror-wtransport/src/server.rs:322-345 | for every requested validity and every interval, k failures in a row never leave an invalid certificate served if and only if (k + 1) intervals <= validity - backdate |
| `Inspector.WebTransportTransport.OnValidate` | Runtime/WebTransportTransport.cs:153-183 | every setting becomes the nearest allowed one, the rotation at most three quarters of the validity already clamped |
| `Inspector.StartServer` | Runtime/Server/WTServer.cs:91-92 | validity and rotation as the native server gets them |
| `Inspector.RotationIsContinuousExactly` | Runtime/WebTransportTransport.cs:164-174 | for all inspector values with rotation on, rotations that succeed keep a valid certificate served at all times if and only if the clamped validity is two minutes or more |
| `Inspector.FailedRotationHasRoomExactly` | Runtime/WebTransportTransport.cs:170-174 | with rotation on, one failed rotation is survived if and only if twice the rotation fits, in minutes: 2r + 60 <= v from four hours on, 8r <= 3v below |
| `Inspector.WithoutRotationItExpires` | Native~/mirror-wtransport/src/server.rs:176-190 | with rotation off the first certificate is served for good and is valid for exactly the validity less the back-dating |
| `Inspector.DefaultsHaveNoRoom` | Runtime/WebTransportTransport.cs:170-174 | at the defaults one failed rotation leaves an expired certificate |
| `Utf8.TruncatedIsLongestRun` | Native~/mirror-wtransport/src/ffi.rs:132-139 | for every text and capacity, the bytes kept are exactly the longest run of whole characters that fits, are UTF-8 themselves (section 3 of RFC 3629), and if anything is cut fewer than four bytes of the capacity go unused |
| `Interop.WriteString` | Native~/mirror-wtransport/src/ffi.rs:127-140 | copies that run over the start of the buffer, leaves the rest, and returns its length; nothing for a null buffer or no capacity |
| `Interop.WriteBytes` | Native~/mirror-wtransport/src/ffi.rs:144-150 | all of the bytes, or none and a refusal |
| `Interop.WriteEvent` | Native~/mirror-wtransport/src/ffi.rs:157-226 | the fields and the buffer for every kind of event; a message that does not fit becomes an error |
| `Settings.NothingIsDroppedExactly` | Runtime/Common/WTSettings.cs:57-62 | for all 32 bit sizes, every payload the native readers admit fits the receive buffer if and only if neither size is below -64 and the larger one plus 64 stays below 2^31 |
| `Settings.NothingIsDroppedInBrowserExactly` | Runtime/Client/WTWebGLClient.cs:55-59 | for all 32 bit sizes, every payload the browser plugin admits is polled unchanged if and only if the larger size plus 64 stays below 2^31, or the smaller one plus 64 does not, or is at most 2048 |
| `Settings.LegalSendsPass` | Runtime/Common/WTSettings.cs:60-62 | for all 32 bit sizes, what C# accepts to send is within the native limit |
| `Settings.LegalMessagesArrive` | Runtime/Common/WTSettings.cs:57-62 | between programs with the same sizes, legal messages are encoded, decoded within the native limit and shown to the receiving C# unchanged |

## Left out

- QUIC, TLS, HTTP/3, wtransport, tokio and the browser's WebTransport object: a read yields a chunk, the end or an error, a write succeeds or fails, a promise settles at any time or never.
- Liveness and real time: connect, handshake and idle timeouts are failures that can come at any moment; of what happens eventually only the answer to a disconnect request is stated, as steps the session worker can take.
- Texts: error messages, addresses and reasons are parameters; the error code tables are not modelled.
- Datagrams on the way: they may be lost or reordered, so only what each side makes of those that arrive is stated; what the browser hands to its datagram writer is not kept.
- Exceptions and failed allocations inside callbacks, other than those in which the browser refuses a reader or a writer.
- `BufPool`: a pooled buffer is an empty one.
- The server's and the client's stop, with its grace period: `Shutdown` empties the client slot, after which nothing of the old session can be polled.
- PEM certificates, certificate generation and hash verification: only the validity window of self signed ones. Certificate times are whole seconds and installing one takes no time.
- `BuildUrl`, certificate hash parsing, logging, the inspector's layout, library loading, pointer and ABI plumbing, and the smoke tests.
- C#'s own checks in `Send` are part of `Settings` and of the runs, not of the client classes; the warning about small datagrams is left out.
- Browser limits are natural numbers: a size so large that its 32 bit value turns negative is only modelled on the native side, in `Settings`.
- RegistryRuns.RegistryInvariant: assumes that the id counter does not complete a lap of 2^31 - 1 ids during the life of one session, because the code reuses ids after that; counts are unbounded where the code has 32 bits.
- RegistryRuns.ServerGrammar: under the same assumption; messages are steps without their contents.
- Admission.AdmissionBoundExactly: shown for bounds up to the number of ids, beyond which no id is free.
- NativeClient.WTNativeClient.Tick: what the session worker queues while one Tick is draining is seen as arriving between ticks; `NativeClientRuns` interleaves single polls instead.
- Certificate.SurvivesExactly: an attempt is instantaneous and the loop's sleeps are exact.
- NativeSession.DisconnectIsAnsweredExactly: takes the await of `finish` (session.rs:65) to be on the network, and the await of `closed` after a local close to complete by itself, as the comment at server.rs:672-674 has it; the libraries behind them are not part of this model, and that the scheduler runs the worker is not stated.
- ClientData.OnDataIsWhatWasQueued: the queued messages are those of both channels in the order they were queued; `BrowserReads` ties the reliable ones to the stream.
- Delivery.NativeToBrowserExactly: starts at a finished handshake; bytes that came along with the prologue count as the first read.
- NativeReads.ToldIsWhatWasRead: with datagrams in between, that the two kinds of message are interleaved in the order they were passed on is left to the worker's steps.
