# A verified model of just-proxy

just-proxy is a multiplexing SOCKS5 proxy. Local applications speak SOCKS5 to a local server; the
local server sends all their traffic as encrypted frames over one link; the far end dials the
targets and sends their data back. This project models the proxy's own logic in Dafny and proves
what it guarantees, for all inputs and over all runs.

| layer | files |
|---|---|
| bytes, buffers, projections, UTF-8, the cipher interface | `Bytes`, `Sequences`, `Utf8`, `Aead` |
| link messages, their frames, streams of frames | `Messages`, `FrameCodec`, `FrameStream` |
| SOCKS requests, request streams, replies, address text | `SocksMessages`, `SocksRequests`, `SocksStream`, `SocksReplies`, `AddressText` |
| the three actors | `SocksSession` (one local connection), `LocalServer`, `ProxySide` (far end) |
| far end over all runs | `ProxyRuns` |
| the whole system and its runs | `Session`, `SessionLinks`, `SessionRouting`, `SessionActors`, `SessionTheorems`, `SessionReuse`, `SessionExamples` |
| when exactly a new session can panic | `PanicCondition`, `PanicUnreachable`, `PanicReachable`, `SessionPanics` |
| the system joined to the layers below it: encrypted bytes on the link, byte streams from and to applications | `WireSystem`, `SessionStreams`, `SessionReplies` |
| configuration merge | `JsonMerge` |

Code that updates state is modelled as classes whose methods update fields and buffers, and each
method's contract equates the new state with a specification function of the old one. Runs are
sequences of events over those functions: an event that cannot happen in a state changes nothing, so
every sequence of events is a run and every interleaving is covered. A Rust panic is an explicit
outcome. `BytesMut.Put` demands room and only `BytesMut.Reserve` makes it, so a verified encoder never
writes beyond what it reserved.

## What is assumed

- The cipher obeys `Aead.Cipher.Lawful`: sealing a plaintext of permitted length adds a tag of fixed
  length, and opening what was sealed under the same associated data returns it (RFC 5116, sections
  2.1 and 2.2). `Aead.ToyIsLawful` shows that the assumption can be met.
- Peer ports are nonzero, ticks of the interval timer are at least its interval apart, mailboxes are
  first-in-first-out, and a handler runs to its end before the next one starts. The items of one local
  connection arrive in the order of `SocksRequests.Accept`, which the items of any byte stream do
  (`SessionStreams.StreamItemPossible`). The link is a pair of queues, which the sealed frames refine
  (`WireSystem.BytesRefineQueues`).
- A uuid is the local port, and ports may be reused at any time. A lemma about one session that needs
  more says what of that session's own port: `Session.Alone`, no other session of the run had it, or
  `SessionReuse.Answered` and `SessionReuse.Settled`, its earlier requests were answered and its
  earlier sessions can send no other. What other ports do is never restricted.

## What turned out not to hold, and exactly when it does

- The greeting parser casts the remaining length to eight bits. A complete greeting is overlooked
  exactly when that length modulo 256 is below its method count (`SocksRequests.GreetingExactly`). What
  is observed of a stream differs from its meaning exactly when its complete greeting is overlooked at
  every chunk boundary, so the cut into chunks can matter (`SocksStream.ChunksMatterExactly`,
  `SocksStream.ChunksCanMatter`).
- Ports are read as signed numbers. The dialled address carries the right port if and only if it is
  below 32768 (`AddressText.PortTextExactly`).
- The frame length is cast to 32 bits. A frame round-trips if and only if its payload is shorter than
  2^32 bytes (`FrameCodec.RoundTripExactly`).
- A SOCKS client can read a reply if and only if the reply has no IPv4 address and no name longer than
  255 bytes (`SocksReplies.ReplyReadableExactly`).
- The far end panics on data exactly when the uuid's last table change is not an insertion
  (`ProxyRuns.DataPanicsExactly`, and in the whole system
  `SessionTheorems.NextRequestPanicsExactly`). A patient application can still reach that panic when a
  reader error races with its data (`SessionExamples.RemovalRacesWithData`), a hasty one before there
  is any connection (`SessionExamples.HastePanics`); there is no third cause
  (`SessionTheorems.UnroutedDataExplained`).
- The count returned by a socket's write is ignored. What a target was given is the data handled for it
  if and only if all of that was written whole: no short or failed write, and none for a missing
  connection (`SessionTheorems.UpstreamConserved`). A short write loses bytes without any panic
  (`SessionExamples.ShortWriteLoses`).
- With a reused port the outcome of an old dial can panic the new session
  (`SessionExamples.ReusePanicsSession`). In every reachable state a session's next message panics it
  exactly if it is an outcome and the session has not sent its request (`SessionReuse.UnwrapExactly`).
  The first session of a port never panics (`SessionReuse.FirstSessionNeverPanics`), nor does one
  accepted when every request of the port is answered and no older session of it can send another,
  whatever follows (`SessionReuse.NewSessionSafe`). For any port accepted in any reachable state, some
  continuation panics the new session if and only if `PanicCondition.CanPanic` holds of that state
  (`SessionPanics.ReusedPortPanicsExactly`). That condition reads the responses of the port on the link
  and then, while the far end is alive, in its mailbox. If there are any, the first must be an outcome
  and not an abort. If there are none, the far end must be alive and either a dial of the port
  outstanding, or a request of it (the first on its way up, or else one that an older session can still
  send) able to reach the far end: the heartbeats still to be numbered ahead of it fit their 32-bit
  counter, and the far end can connect in turn, by its table, the mail it has not handled, and the dials
  outstanding or requested earlier, each uuid with data ahead of it.

## Model

| member | source | states |
|---|---|---|
| Messages.New | just-proxy-lib/src/message.rs:54-86 | a message made by `new` knows the length of its payload |
| FrameCodec.Codec.Encode | just-proxy-lib/src/message.rs:354-415 | appends exactly one frame or, where the cipher refuses, nothing; every write fits what was reserved |
| FrameCodec.Codec.Decode | just-proxy-lib/src/message.rs:250-325 | result and remaining buffer of one call, including the calls that leave the buffer alone, fail or panic; the response decoder (146-221) is the same |
| FrameCodec.Codec.FillPayload | just-proxy-lib/src/message.rs:384-402 | the payload buffer holds the payload and room for the tag, within its reserved capacity |
| FrameCodec.BytesCodec.Decode | just-proxy-lib/src/message.rs:31-41 | a target reader yields all that has arrived, and nothing if nothing has |
| FrameCodec.RoundTripExactly | just-proxy-lib/src/message.rs:354-415 | decoding an encoded message returns it and leaves exactly what followed, if and only if its length fits 32 bits |
| FrameCodec.FrameOpens | just-proxy-lib/src/message.rs:354-415 | a frame opens, part by part, to uuid, four random bytes, big-endian length and type, and then the payload |
| FrameCodec.OpenedDecidedExactly | just-proxy-lib/src/message.rs:274-324 | of any frame that opens, whoever sealed it: it is cut off and yields exactly what its bytes say, if type and payload are readable, and otherwise panics |
| FrameCodec.TamperedRefused | just-proxy-lib/src/message.rs:260-291 | a header that does not open is an error and stays; a payload that does not is an error and goes |
| FrameCodec.StrictPrefixPending | just-proxy-lib/src/message.rs:252-279 | every strict prefix of a frame is left unchanged and yields nothing |
| FrameCodec.DecodeMonotone | just-proxy-lib/src/message.rs:252-291 | of any bytes: once a call yields an item, an error or a panic, more bytes change only the remainder |
| FrameStream.ChunkIndependence | just-proxy-lib/src/message.rs:246-326 | any byte stream, valid or not, decodes to the same items and ends the same way however it is cut |
| FrameStream.StepIsQueueStep | just-proxy-lib/src/message.rs:250-415 | each event of the byte pipe is a step of a queue; a poll takes the head exactly when its frame has arrived |
| FrameStream.PipeIsQueue | just-proxy-lib/src/message.rs:250-415 | over every run of sends, partial transfers and polls, the bytes under way are the frames of the undelivered messages, the rest was received in order, and the decoder never fails |
| FrameStream.QuietPipeHasDelivered | just-proxy-lib/src/message.rs:250-415 | when all bytes have arrived and the decoder wants more, every message has been received |
| SocksRequests.Socks5RequestCodec.DecodeMethodSelection | just-proxy-lib/src/socks/codec.rs:37-59 | result and remaining buffer of a greeting call, with the eight-bit cast |
| SocksRequests.Socks5RequestCodec.DecodeTargetRequest | just-proxy-lib/src/socks/codec.rs:61-120 | result and remaining buffer of a request call, with its panics |
| SocksRequests.Socks5RequestCodec.Decode | just-proxy-lib/src/socks/codec.rs:127-147 | dispatch on the state, which advances exactly when an item is returned |
| SocksRequests.GreetingExactly | just-proxy-lib/src/socks/codec.rs:37-59 | never splits past the end; agrees with RFC 1928 section 3 up to 257 bytes; the exact condition of disagreement at any length |
| SocksRequests.GreetingOverlooked | just-proxy-lib/src/socks/codec.rs:43-46 | every nonempty greeting is overlooked when 256 bytes follow its first two |
| SocksRequests.GreetingRoundTrip | just-proxy-lib/src/socks/codec.rs:37-59 | a greeting with at most 255 bytes behind its first two is read back, leaving what followed |
| SocksRequests.TargetRoundTrip | just-proxy-lib/src/socks/codec.rs:61-120 | every request of RFC 1928 section 4 is read back, version and reserved byte normalised, port signed, leaving what followed |
| SocksRequests.TargetWasOnWire | just-proxy-lib/src/socks/codec.rs:61-120 | conversely every request returned was on the wire in that format |
| SocksRequests.TargetDecidedExactly | just-proxy-lib/src/socks/codec.rs:61-120 | from the bytes alone: exactly when a call waits, panics or yields a request, and the port it yields |
| Utf8.ValidExactly | just-proxy-lib/src/socks/codec.rs:100 | what `String::from_utf8` accepts are exactly the encodings of sequences of Unicode scalar values by section 3 of RFC 3629 |
| SocksRequests.ItemsProgress | just-proxy-lib/src/socks/codec.rs:127-147 | items shorten the buffer, come in order, and carry no empty data |
| SocksStream.FeedTracks | just-proxy-lib/src/socks/codec.rs:29-147 | over every chunking: greeting, request, then nonempty data; data delivered plus buffer is exactly the input after the two headers |
| SocksStream.ChunksMatterExactly | just-proxy-lib/src/socks/codec.rs:29-147 | what is observed equals the meaning of the whole stream if and only if the greeting is incomplete or accepted at some chunk boundary |
| SocksStream.ShortGreetingIndependent | just-proxy-lib/src/socks/codec.rs:43-46 | chunks do not matter when the greeting completes within 257 bytes |
| SocksStream.ChunksCanMatter | just-proxy-lib/src/socks/codec.rs:43-46 | two chunkings of the same 258 bytes that differ |
| SocksReplies.Socks5ResponseCodec.EncodeTargetResponse | just-proxy-lib/src/socks/codec.rs:158-199 | appends one reply, or panics leaving the buffer alone if type and address differ; every write fits |
| SocksReplies.Socks5ResponseCodec.Encode | just-proxy-lib/src/socks/codec.rs:206-216 | appends the encoding of a response within the reserved capacity |
| SocksReplies.ReplyReadableExactly | just-proxy-lib/src/socks/codec.rs:158-199 | a reader of RFC 1928 section 6 gets back code, address and port if and only if the address is not IPv4 and a name has at most 255 bytes |
| SocksReplies.CodesDistinct | just-proxy-lib/src/socks/codec.rs:158-199 | no two replies share a code |
| AddressText.AddressReadBack | just-proxy-lib/src/socks/message.rs:92-104 | host and port can be read back from the text, even with colons in the host |
| AddressText.TextNamesTarget | just-proxy-lib/src/socks/message.rs:92-104 | before the last colon stands the name itself, the dotted numerals of the four octets in wire order, or the text of the sixteen bytes; behind it the numeral of the port |
| AddressText.AddressInjective | just-proxy-lib/src/socks/message.rs:92-104 | different hosts or ports give different texts |
| AddressText.PortTextExactly | just-proxy-lib/src/socks/codec.rs:94-107 | the text carries the wire port if and only if it is below 32768, otherwise 65536 less |
| AddressText.AddressIsText | just-proxy-lib/src/socks/message.rs:92-104 | the text is valid UTF-8, so the far decoder accepts it |
| ProxySide.ProxyClient.HandleRequest | just-proxy-lib/src/component/server.rs:87-183 | state after a request, including failed writes and both panics, and which socket took which bytes |
| ProxySide.ProxyClient.HandleConnectionDead | just-proxy-lib/src/component/server.rs:59-65 | removes the connection and queues an abort |
| ProxySide.ProxyClient.HandleConnectionEstablished | just-proxy-lib/src/component/server.rs:72-82 | connects the uuid to that socket, replacing any it had, and queues a success |
| ProxySide.ProxyClient.DialContinuation | just-proxy-lib/src/component/server.rs:96-154 | posts the outcome of a dial; on success before its reader is spawned |
| ProxySide.ProxyClient.ReaderEnds | just-proxy-lib/src/component/server.rs:104-115 | a reader error is posted, a clean end is not |
| ProxyRuns.ReplyGrammar | just-proxy-lib/src/component/server.rs:56-153 | over every run, the replies of a uuid dialled at most once are a refusal, a timeout, or success, data and at most one final abort |
| ProxyRuns.DialAccounting | just-proxy-lib/src/component/server.rs:72-156 | over every run, requests handled are the outstanding dials, the outcomes in the mailbox and the outcomes sent |
| ProxyRuns.DataPanicsExactly | just-proxy-lib/src/component/server.rs:157-166 | data panics if and only if its uuid was never connected or was removed since |
| ProxyRuns.RequestPanicsExactly | just-proxy-lib/src/component/server.rs:157-171 | a live far end panics on a request if and only if it is a response, or data of a uuid never connected or removed since |
| ProxyRuns.SocketsAreOwn | just-proxy-lib/src/component/server.rs:72-82 | over every run: a uuid is connected to the socket it was last given, which was opened by a dial requested for that uuid; no two uuids share a socket; every write is a leading part of data of the uuid its socket was opened for |
| ProxyRuns.WrittenUpToTorn | just-proxy-lib/src/component/server.rs:158-163 | up to the first data not written whole, and with what was written of that, the sockets of a uuid are given its data in order |
| ProxyRuns.BytesConserved | just-proxy-lib/src/component/server.rs:50-53 | bytes read from the sockets opened for a uuid become its data replies in order; unless empty data was requested, the bytes written to them are its data if and only if all of it was written whole: no short or failed write, and none for a missing connection |
| LocalServer.Server.HandleResponse | just-proxy-lib/src/component/client.rs:88-133 | the forward, echo or panic each reply leads to |
| LocalServer.ResponseDecidedExactly | just-proxy-lib/src/component/client.rs:88-133 | from the reply and the table: exactly which replies panic, to whom each other goes and as what, and that only an echo changes the server |
| LocalServer.HeartbeatOverflowsExactly | just-proxy-lib/src/component/client.rs:144-152 | exactly the heartbeat after the last 32-bit number panics |
| LocalServer.Server.HandleHeartbeat | just-proxy-lib/src/component/client.rs:144-152 | numbers and sends a heartbeat; the checked 32-bit addition |
| LocalServer.Server.TimerTick | just-proxy-lib/src/component/client.rs:46-70 | posts a heartbeat unless the last echo is more than 15 seconds old |
| LocalServer.Server.HandleConnected | just-proxy-lib/src/component/client.rs:165-178 | a new session takes over its port |
| SocksSession.SocksClient.HandleConnectorResponse | just-proxy-lib/src/socks.rs:82-115 | replies written, bytes counted, and the unwraps that panic |
| SocksSession.ConnectorPanicsExactly | just-proxy-lib/src/socks.rs:84-114 | exactly which messages panic a session, and that exactly an abort stops it |
| SocksSession.SocksClient.HandleSocksRequest | just-proxy-lib/src/socks.rs:126-153 | what is recorded and what is sent up for each item |
| SessionTheorems.RoutingSafe | just-proxy-lib/src/component/client.rs:88-133 | over every run, with uuid reuse: all traffic is for 0 or a known session and of an expected kind, uuid 0 carries exactly the heartbeats, and no routing panic is reachable at either end |
| SessionTheorems.HeartbeatsInOrder | just-proxy-lib/src/component/client.rs:144-152 | echoes received, then those in the two pipes, are exactly 1 to the current index |
| SessionTheorems.AtMostFourHeartbeats | just-proxy-lib/src/component/client.rs:46-70 | at most four ticks post a heartbeat between one echo and the next, five seconds apart and within fifteen of the echo |
| SessionTheorems.TickPostsExactly | just-proxy-lib/src/component/client.rs:46-95 | over every run, a tick posts a heartbeat if and only if the last echo was taken at most fifteen seconds ago |
| SessionTheorems.ClocksAreRight | just-proxy-lib/src/socks.rs:84-143 | over every run, the instants kept are those of the last echo, the last heartbeat handled and the request taken, and the round-trip time is from the request to the outcome handled last |
| SessionReuse.UnwrapExactly | just-proxy-lib/src/socks.rs:84-106 | in every reachable state, the next message panics a session if and only if it is an outcome and the session has not sent its request |
| SessionReuse.FirstSessionNeverPanics | just-proxy-lib/src/socks.rs:84-106 | over every run, the first session of a port never panics, however often the port is reused |
| SessionReuse.NewSessionSafe | just-proxy-lib/src/socks.rs:84-106 | a session accepted when the port's requests are answered and its older sessions can send no other never panics, in any continuation, further reuse included |
| SessionPanics.ReusedPortPanicsExactly | just-proxy-lib/src/socks.rs:84-106 | for any port accepted in any reachable state, with no other hypothesis: some continuation panics the new session if and only if the state meets `PanicCondition.CanPanic`, a computable condition on its queues, dials and older sessions |
| PanicUnreachable.BlockedNeverPanics | just-proxy-lib/src/socks.rs:84-115 | a new session whose port has an abort as the first response on its way down never panics, in any continuation; nor, with no response on its way down, if the far end has panicked, or if it is dialling nothing for the port and cannot take what is ahead of the next request of it |
| SessionTheorems.OneOutcomePerSession | just-proxy-lib/src/socks.rs:82-143 | a session whose port no other session had is dialled for at most once, is told exactly the replies of its uuid, and gets at most one outcome, after it recorded its request |
| SessionTheorems.ApplicationsToldTruth | just-proxy-lib/src/socks.rs:84-106 | an application whose port no other had is told at most one outcome, and success only if success was reported |
| SessionTheorems.SessionRepliesReadable | just-proxy-lib/src/socks.rs:86-105 | the two replies sessions send are readable and carry codes 0 and 5 |
| SessionTheorems.DownstreamConserved | just-proxy-lib/src/socks.rs:107-110 | of a running session whose port no other had: bytes read from its target are delivered or on their way, in order, and the byte count is what was delivered |
| SessionTheorems.EveryRequestAccounted | just-proxy-lib/src/component/server.rs:92-156 | over every run, with reuse, every request is under way, being dialled, or its single outcome is under way or received |
| SessionTheorems.DialsWereAskedFor | just-proxy-lib/src/socks.rs:134-143 | over every run, with reuse, whatever is being dialled for a uuid, and whatever a socket was dialled for, is the target a session of that uuid recorded |
| SessionTheorems.UnroutedDataExplained | just-proxy-lib/src/component/server.rs:157-166 | the far end panics on data only for a uuid that sent data before success or was removed |
| SessionTheorems.NextRequestPanicsExactly | just-proxy-lib/src/component/server.rs:157-172 | in every reachable state, the next message on the link panics the far end if and only if it is data of a uuid never connected or removed since |
| SessionTheorems.PatienceIsSafe | just-proxy-lib/src/component/server.rs:157-166 | patient applications whose connections are not removed never make it panic |
| SessionTheorems.UpstreamConserved | just-proxy-lib/src/socks.rs:144-151 | over every run, with reuse: data sent up is consumed or on its way, in order; what a target was given is the data consumed if and only if all of that was written whole (no short or failed write, none for a missing connection), and strictly shorter otherwise |
| SessionTheorems.LinkMessagesSendable | just-proxy-lib/src/message.rs:54-86 | every message the system puts on the link was made by `new`, so only its size limits whether it can be sent |
| SessionExamples.RemovalRacesWithData | just-proxy-lib/src/component/server.rs:110-166 | a run in which a reader error races with data in flight and the far end panics |
| SessionExamples.ShortWriteLoses | just-proxy-lib/src/component/server.rs:158-163 | a run in which a write takes one byte of two and the other is lost |
| SessionExamples.HastePanics | just-proxy-lib/src/component/server.rs:157-166 | a run in which data sent before success makes the far end panic |
| SessionExamples.FourHeartbeatsHappen | just-proxy-lib/src/component/client.rs:46-70 | a run in which four heartbeats are posted without an echo |
| SessionExamples.ReusePanicsSession | just-proxy-lib/src/socks.rs:84-85 | a run in which a reused port panics a session |
| WireSystem.BytesRefineQueues | just-proxy-lib/src/message.rs:250-415 | every run of the system over sealed frames, cut into arbitrary pieces, is message by message a run of the system over queues |
| WireSystem.QueuesHaveBytes | just-proxy-lib/src/message.rs:250-415 | conversely, every run over queues whose messages the encoder can send is brought about by a run over frames |
| SessionStreams.ItemsPossibleExactly | just-proxy-lib/src/socks/codec.rs:127-147 | over every run, a running session takes an item exactly if its items so far, with this one, come in the parser's order |
| SessionStreams.StreamItemPossible | just-proxy-lib/src/socks/codec.rs:127-147 | the items of any byte stream, however cut, can be taken in turn whatever else happens in between |
| SessionStreams.SentBytesCounted | just-proxy-lib/src/socks.rs:144-147 | over every run, a session has counted exactly the data it has taken |
| SessionStreams.AskedIsOnWire | just-proxy-lib/src/socks/message.rs:92-104 | if a byte stream asks for an address, a request of RFC 1928 section 4 stands behind its greeting, followed by its data, and the text dialled names the address and port of that request |
| SessionStreams.TargetsGetTheStream | just-proxy-lib/src/socks.rs:126-153 | of a session whose port no other had: the far end dials, and has opened sockets for it, only at the address its byte stream asks for and, while all its data was written whole, those sockets have been given a prefix of the data in that stream |
| SessionStreams.QuietTargetsHaveTheStream | just-proxy-lib/src/socks.rs:144-151 | once the stream is taken and nothing is on its way up, the target has all its data if and only if all of it was written whole |
| SessionReplies.ApplicationsReadTheTarget | just-proxy-lib/src/socks.rs:82-132 | the bytes an application reads, if no other session has its port, are in every run nothing, or the method, then a refusal or success followed only by bytes of its target, in order and from the first |
| SessionReplies.QuietApplicationsHaveTheTarget | just-proxy-lib/src/socks.rs:82-132 | once nothing is on its way down, such an application whose session runs has been given all that was read from its target |
| JsonMerge.Merge | just-proxy-bin/src/opt.rs:114-125 | the in-place loop computes the functional deep merge, whatever the order of keys |
| JsonMerge.MergeExactly | just-proxy-bin/src/opt.rs:114-125 | a value is the merge of two others if and only if at every path it reads so: where both hold objects, an object with the keys of both; where only the second lacks a key, what the first holds; elsewhere what the second holds, if anything |
| JsonMerge.MergeLookup | just-proxy-bin/src/opt.rs:114-125 | the merged value reads so at every path |
| JsonMerge.LeavesOfSecondWin | just-proxy-bin/src/opt.rs:114-125 | every leaf of the second value reads as in it |
| JsonMerge.SilentPathsKept | just-proxy-bin/src/opt.rs:114-125 | what the first value holds where the second lacks a key is kept |
| JsonMerge.MergeTwice | just-proxy-bin/src/opt.rs:114-125 | merging the same value again changes nothing |

## Left out

- SessionTheorems.DownstreamConserved: speaks of running sessions; what is forwarded to a stopped session is dropped.
- AddressText.AddressInjective: speaks of host texts; how IPv6 addresses are written is a parameter, so that different addresses have different texts is not shown.
- Aead.OpenInPlace: the cipher is an interface; cryptographic strength, key derivation and the constant nonce are not modelled.
- SocksSession.SocksClient.HandleConnectorResponse: byte counters and round-trip times are unbounded numbers, not 64-bit ones.
- JsonMerge.Merge: numbers are integers, as merging never looks inside them; `entry` hands out a fresh slot that is written back.
- Links that fail: the end or error of the link's stream stops the actors; runs here have a link that stays up, and over bytes a step that would send a message the encoder refuses does not happen.
- Panics end an actor, not the process: after a panic the actor does nothing more.
- QUIC and TCP connectors, TLS, the actor runtime, the resolver, logging, command line, daemon mode and configuration files.
- `crypto.rs`, `ext.rs`, `bytesmut_to_u8_16` and `u8_to_u8_2`: not on the proxy's path.
