# p2p-tun: a verified model of the relay and its parts

p2p-tun exposes local TCP and UDP services through a relay. A signal-server accepts external connections and
packets and carries them over one TCP link to the client, which dials the local services. This project models the
server and the client halves of that link, the plugin RPC, the three limiters and detectors, the frame codec, the
STUN messages and the exec-line tokenizer, and proves what each promises.

`dafny verify dfyconfig.toml` checks everything (Dafny 4.11).

## How the parts fit

- **The link.** `RelayTypes` has the entities, `RelayMachine` the transition system: every goroutine of both
  endpoints is a program counter, and every lock-protected block, limiter operation, counter draw, frame read or
  write and connection read or write is one step of its own. Steps are grouped by goroutine: the accept loop
  (signal-server/main.go:700-777), pipeExternalToClient (952-1013), relayReadLoop (1015-1148), udpReadLoop
  (808-924), udpSessionCleanup (926-949), the client's readLoop with its handlers (relay/relay.go:280-456) and its
  pipes (458-577). The two directions are FIFO streams that keep the log of everything written. A write either
  appends its whole frame or breaks the connection for good, which is what `FrameCodec.WriteFrames` proves of
  the bytes.
- **Its invariant.** `RelayInvariant` states the invariant one channel at a time over a view of everything that
  concerns that channel; `RelayLocal` has one lemma per move, `RelaySteps` lifts each to the whole world,
  `RelayStreams` and `RelayCounts` add ids, stream order and the counters, `RelayRuns` goes to runs, and
  `RelayTheorems`, `RelayLimits` and `RelayHub` draw the conclusions.
- **Its payloads.** `RelayCarriage` compares what is read at one end, taken from the steps and the session table
  alone, with what the frames of a channel carry; `RelayDelivery` says that each read loop acts on the frame it read
  last; `RelayOrder` puts the two together from end to end, for chunks and for datagrams.
- **Its progress.** `RelayProgress` shows that nobody gets stuck, `RelayRest` that the link comes to rest: it counts
  the work at hand, and every step with which nothing new enters uses some of it up.
- **Its objects.** `ServerTables` and `ClientTables` are the two classes whose methods are the lock-protected
  blocks. Each holds the machine's state as a ghost field and shows that the block takes exactly the machine's step
  from agreeing state to agreeing state; every other step of either endpoint is `Elsewhere`. So each step of the
  machine has its method, and the theorems hold of the maps themselves. `PluginCalls` does the same for `PluginHost`.
- **The rest.** `Negotiation` and `StaleFeatures` tie the feature lists to the roles the machine assumes.
  `UdpSessions` and `IdleDetector` are timed; `RateLimit`, `RateSharing` and `ConnLimit` interleave goroutines over
  one object; `PluginSdk`, `PluginHost` and `PluginCalls` are the two halves of the RPC and the host object;
  `Tokenizer`, `Words` and `Stun` are the parsers. `Listing` visits the keys of a map in any order.

## What does not hold

Five promises turned out not to hold of the code as it is; each has its exact condition among the lemmas.

- The tables can hold one channel more than MaxConns, because the cleanup releases the limiter before it deletes
  the session (signal-server/main.go:939-943): `RelayLimits.LimitExceededIff`, `RelayLimits.LimitExceededRun`.
- A reused client object keeps `serverSupportsCompression` from an earlier server (relay/relay.go:154-159):
  `StaleFeatures.ReadableIff`, and `StaleFeatures.RegisterTwice` for two registrations. The program registers each
  object once.
- The STUN client looks for the address family in the first octet of the attribute (stun/stun.go:64,
  stun/stun.go:101), while the server, like sections 15.1 and 15.2 of RFC 5389, writes it in the second
  (signal-server/main.go:424-428): `Stun.AcceptedIff`, `Stun.ConformingResponsesFail`,
  `Stun.OwnResponseIsRefused`.
- In `xorIP^stunMagicCookie>>24` the shift binds tighter than the exclusive or (stun/stun.go:75-77), so three
  octets of an IPv4 address are lost: `Stun.WholeAddressIff`, with `Stun.IntendedRoundTrip` for the intended form.
- k goroutines on one rate limiter may together send k times the rate, because a sleeper takes from the bucket
  while others refill it (plugin/ratelimit.go:39-68): `RateSharing.ClassicIff`, with `RateLimit.RateBound` for the
  factor and `RateSharing.BoundIsMet` for its being reached.

Where the STUN length check compares `uint16(len(data))-20` with the message length (stun/stun.go:131), the model
keeps the 16-bit wrap-around; the walk itself goes to the end of the data and ignores the message length.

## Model

| member | source | states |
|---|---|---|
| `RelayRuns.RunGood` | signal-server/main.go:673-1148 | every state of every run, whatever the goroutines of both endpoints do in which order, for any number of TCP channels and UDP sessions, satisfies the inductive invariant, the limiter balance and the client bookkeeping |
| `RelayRuns.GoodKept` | signal-server/main.go:952-1148 | any one of the 47 steps of the link, taken from a state that satisfies all of these, leads to one that does |
| `RelayRuns.InvKept` | relay/relay.go:280-577 | the per-channel invariant, the unambiguous ids and the order of both streams survive every step |
| `RelayTheorems.ClientListed` | relay/relay.go:353-368 | in every reachable state, a channel the client lists is listed by the server too, or its close frame is queued or being handled, or the client pipe is about to remove it, or the connection is broken towards the client |
| `RelayTheorems.ServerListed` | signal-server/main.go:739-777 | conversely, a channel the server lists is listed by the client, or not announced yet, or its announcement is queued or being dialled, or it is being closed by one side, or the connection is broken |
| `RelayTheorems.QuietTablesAgree` | signal-server/main.go:952-1013 | when nothing is in flight and every goroutine waits for input, channelConns equals channels and the ids of udpSessions equal udpChannels |
| `RelayTheorems.TableKinds` | signal-server/main.go:1112-1146 | an id in a TCP table on either side is never one of a UDP session and the other way round, so one close frame never hits both tables |
| `RelayTheorems.StreamsAreSafe` | signal-server/main.go:967-1012 | for every TCP channel and any interleaving, the bytes written at the far connection are a prefix of those read from the near one, in both directions: nothing lost in between, reordered, repeated or taken from another channel |
| `RelayTheorems.StreamsAreComplete` | relay/relay.go:473-515 | at rest, on a channel both sides still serve and whose two connections work, nothing read is missing at the far end |
| `RelayTheorems.FramesAreReadable` | signal-server/main.go:1044-1060 | no data frame ever written is over the 65536 bytes its reader accepts, and none is compressed unless its reader decompresses it successfully |
| `RelayTheorems.DownDiscipline` | signal-server/main.go:757-777 | on the whole server-to-client stream each channel is announced at most once and before every data or close frame for it, is closed at most once, and a TCP channel has no frame after its close |
| `RelayTheorems.UpDiscipline` | relay/relay.go:458-471 | on the whole client-to-server stream a close frame is the last frame of its channel, hence the only one, and there are no announcements |
| `RelayTheorems.UnknownCloseIsIgnored` | signal-server/main.go:1112-1146 | a close frame for a channel the server does not list only moves its read loop on, in the block under chanMu and in the later one under udpMu, whatever the other goroutines do between the two; nothing is sent, closed, removed or released |
| `RelayTheorems.UnknownLocalCloseIsIgnored` | relay/relay.go:353-368 | the same on the client, in its one block |
| `RelayTheorems.CloseTrafficEnds` | signal-server/main.go:970-977 | each side writes at most one close frame per id ever drawn, so close traffic is bounded in every run |
| `RelayTheorems.LimiterConserved` | signal-server/main.go:729-777 | the client limiter counts the listed channels and sessions, plus those admitted and not yet listed, plus those removed and not yet released, minus the one session the cleanup has released early; it stays between 0 and MaxConns |
| `RelayLimits.LimitExceededIff` | signal-server/main.go:934-947 | the tables hold more than MaxConns entries exactly when the cleanup stands between releasing and deleting a session while the limiter is full and nobody else is on the way in or out |
| `RelayLimits.LimitExceededRun` | signal-server/main.go:934-947 | a concrete run with MaxConns 1 in which a TCP connection is listed while an expired UDP session still is |
| `RelayTheorems.IdsAreUnambiguous` | signal-server/main.go:1097-1103 | an id names at most one session, and the TCP and UDP tables of either side share no id |
| `RelayTheorems.ClientBooks` | relay/relay.go:399-411 | connInfos lists exactly the channels of the two tables, and the active-channel counter plus the increment still owed is their number |
| `RelayTheorems.NothingLeaks` | signal-server/main.go:953-965 | an open external or local connection is in a table, or a goroutine is about to put it there or to close it |
| `RelayHub.HubRunGood` | signal-server/main.go:477-490 | with any number of clients drawing from one counter, each link keeps its invariant |
| `RelayHub.IdsAreGlobal` | signal-server/main.go:735-735 | ids given to the channels and sessions of different clients, and the client ids themselves, are pairwise distinct |
| `RelayHub.Counter.Draw` | signal-server/main.go:735-735 | the counter is one step of the wrapping word further, and that is the id |
| `RelayHub.CanDrawIff` | signal-server/main.go:852-852 | the link may draw exactly while the wrapping word still counts up, so the model stops where it would wrap |
| `RelayHub.DrawsCollideIff` | signal-server/main.go:852-852 | from any value, two draws of the wrapping word give the same id exactly when a multiple of 2^32 draws lies between them |
| `RelayStreams.StepMoves` | signal-server/main.go:1150-1162 | which frame each step writes on which stream, and that a step of one endpoint leaves the tables of the other alone |
| `RelayStreams.FramesFit` | relay/relay.go:473-515 | every chunk read becomes one frame that fits and that the peer can unpack |
| `RelayRuns.ConservedKept` | signal-server/main.go:934-965 | every step keeps the limiter balance, so each admitted channel is released exactly once however close frames, pipe exits and idle cleanup race |
| `RelayRuns.BookedKept` | relay/relay.go:458-471 | every step keeps the client bookkeeping, so a close frame racing a pipe cleanup decrements once |
| `RelayCarriage.SessionsCarry` | signal-server/main.go:836-919 | over every run the data frames of a session carry, one for one and in order of arrival, exactly the packets that came from the address holding its id when they arrived; only the packet whose write fails is missing, and it is the last |
| `RelayCarriage.PipesCarry` | signal-server/main.go:967-1012 | chunk for chunk and in order, the data frames of a TCP channel carry what its pipe read from the external connection, apart from the one chunk in hand or lost with the pipe |
| `RelayCarriage.LocalsCarry` | relay/relay.go:458-577 | the same towards the server, for TCP connections and UDP services |
| `RelayDelivery.ServerTakes` | signal-server/main.go:1015-1064 | every frame the server reads is the oldest unread one and is taken up: a ping, a close for its channel, or data for its channel with the unpacked bytes |
| `RelayDelivery.ServerWritesTheFrame` | signal-server/main.go:1087-1096 | a write on the server adds the bytes of the frame read last to the connection of the channel of that frame, all of them if it succeeds, and touches no other connection |
| `RelayDelivery.ServerPostsTheFrame` | signal-server/main.go:1097-1109 | a datagram from the client goes, whole, to the address whose session had the channel of the frame read last when it was looked up |
| `RelayDelivery.ClientTakes` | relay/relay.go:280-378 | every frame the client reads is the oldest unread one and is taken up: an announcement, a close or data, for its own channel and with the unpacked bytes |
| `RelayDelivery.ClientWritesTheFrame` | relay/relay.go:333-352 | a write on the client adds the bytes of the frame read last to the local connection of the channel of that frame and touches no other |
| `RelayDelivery.PingsAreAnswered` | signal-server/main.go:1031-1041 | in every reachable state the pongs written are as many as the pings read, one less while one is being answered, and fewer only after the stream broke |
| `RelayDelivery.ReadyIff` | relay/relay.go:411-456 | in every reachable state the pipe of a channel has been started on the client exactly if conn_ready was written for it |
| `RelayOrder.ServerHandsInOrder` | signal-server/main.go:1087-1109 | what the server hands to the connection or address of a channel is, in order and each once, what the frames it read carry: all of it while the channel is listed, a beginning of it ever after |
| `RelayOrder.ClientHandsInOrder` | relay/relay.go:333-352 | the same on the client |
| `RelayOrder.DatagramsArrive` | signal-server/main.go:808-924 | from end to end: the datagrams handed to the local service of a session are the first ones that came from the address holding its id, in order and each once, and at rest all of them |
| `RelayOrder.ChunksArrive` | signal-server/main.go:952-1013 | the same for the chunks of a TCP channel |
| `RelayOrder.RepliesArrive` | relay/relay.go:458-577 | the same towards the external side, for both kinds of channel |
| `RelayProgress.NoDeadlock` | signal-server/main.go:840-949 | in every reachable state that is not at rest, while both streams work, some goroutine can carry on with what is already there |
| `RelayProgress.LockHolderGoesOn` | signal-server/main.go:840-949 | whoever holds udpMu can take its next step, so waiting for it ends |
| `RelayProgress.ReaderGoesOn` | signal-server/main.go:1015-1148 | the read loop of the server can always take the next step of the frame it is busy with, once udpMu is free where it needs it |
| `RelayProgress.PacketIsTaken` | signal-server/main.go:840-850 | a packet is taken up unless its address is unknown and the limiter is full |
| `RelayRest.ComesToRest` | signal-server/main.go:839-1148 | on every run, the steps in a row with which nothing new enters are at most as many as there was work at hand, so close frames, replies and cleanups never chase each other for ever |
| `RelayRest.RestIsReached` | signal-server/main.go:839-1148 | every run whose streams work can be carried on, with nothing new entering and no write failing, until nothing is in flight and every goroutine waits for input; and however it is carried on, that ends within the work at hand |
| `ServerTables.RelayClient.TablesAreConsistent` | signal-server/main.go:1097-1103 | whenever the object is valid: sessions have distinct ids, none of them is in channelConns, and the real limiter counter is the balance over the real tables |
| `ServerTables.RelayClient.Elsewhere` | signal-server/main.go:952-1148 | any step of any goroutine of either endpoint that is none of the methods here leaves tables, limiter and connections agreeing with the link |
| `ServerTables.RelayClient.Admit` | signal-server/main.go:729-733 | the answer is that of the limiter, and the object takes exactly the admission step of the machine or none |
| `ServerTables.RelayClient.Number` | signal-server/main.go:735-735 | the connection gets the next id and the object takes exactly the numbering step |
| `ServerTables.RelayClient.Insert` | signal-server/main.go:739-741 | the connection is in the table under its id before it is announced |
| `ServerTables.RelayClient.DropFailed` | signal-server/main.go:764-768 | after a failed new_conn the entry is gone, whether it was there or not |
| `ServerTables.RelayClient.PipeRemove` | signal-server/main.go:953-965 | the connection is closed, the entry is gone, and the answer says whether this goroutine removed it |
| `ServerTables.RelayClient.CloseTcp` | signal-server/main.go:1112-1119 | a close frame closes and removes the connection if it is listed, and answers whether it was |
| `ServerTables.RelayClient.ReleaseFailed` | signal-server/main.go:769-773 | after a failed new_conn one place is given back and the connection closed |
| `ServerTables.RelayClient.Release` | signal-server/main.go:1121-1146 | a goroutine that removed an entry, or the cleanup before it does, gives exactly one place back |
| `ServerTables.RelayClient.FindSession` | signal-server/main.go:1095-1103 | the search over the session map finds a session with this id if there is one, in whatever order the map is visited |
| `ServerTables.RelayClient.CloseUdp` | signal-server/main.go:1128-1138 | of the sessions exactly those with this id go, although the loop stops at the first |
| `ServerTables.RelayClient.Packet` | signal-server/main.go:840-884 | a known address is refreshed; an unknown one gets a session with the next id if the limiter admits it, and none otherwise; the packet is then about to be sent under the id that is returned, with its own bytes, and the steps taken are those of the machine |
| `ServerTables.RelayClient.AdmitSession` | signal-server/main.go:846-850 | the answer to a packet from an unknown address is that of the limiter, in exactly the machine step |
| `ServerTables.RelayClient.EnterSession` | signal-server/main.go:851-858 | the new session is in the table under the address with the next id |
| `ServerTables.RelayClient.DeleteSession` | signal-server/main.go:943-943 | the expired session is out of the table, in exactly the machine step |
| `ServerTables.RelayClient.Cleanup` | signal-server/main.go:926-949 | a tick removes exactly the expired sessions and releases one place for each; the channels it closes are exactly theirs, and each has its close frame on the stream unless the connection is broken |
| `ServerTables.OneSession` | signal-server/main.go:1129-1136 | because ids are unambiguous, deleting the first hit is deleting every session with that id |
| `ClientTables.Client.BooksBalance` | relay/relay.go:203-207 | whenever the object is valid: the two tables are disjoint, connInfos is their union, and the counter plus what is owed is their size |
| `ClientTables.Client.Elsewhere` | relay/relay.go:280-577 | any step of any goroutine of either endpoint that is none of the methods here leaves tables, counters and connections agreeing with the link |
| `ClientTables.Client.Register` | relay/relay.go:399-409 | after a successful dial one table, connInfos and the total have the channel, in exactly the machine step |
| `ClientTables.Client.Count` | relay/relay.go:411-411 | the counter follows one step later |
| `ClientTables.Client.CloseChannel` | relay/relay.go:353-368 | a close frame removes the channel from all three tables, closes its connection, and decrements by one if it was listed |
| `ClientTables.Client.RemoveChannel` | relay/relay.go:459-471 | the deferred block of a pipe removes the channel from its own table and connInfos and decrements only if it was still listed |
| `ClientTables.Client.CloseLocal` | relay/relay.go:530-530 | the connection itself is closed last |
| `ClientTables.Client.AddBytes` | relay/relay.go:345-349 | byte counts go to the channel they belong to and to no other, and to nobody if it is gone |
| `Negotiation.Supports` | signal-server/main.go:167-174 | the loop finds the feature exactly when the list holds it |
| `Negotiation.ServerFeatures` | signal-server/main.go:597-600 | the server announces compression exactly when it can decompress |
| `Negotiation.Client.Accept` | relay/relay.go:154-164 | the client keeps its compressor exactly when this server or, the flag never being cleared, an earlier one announced compression |
| `Negotiation.Client.Register` | relay/relay.go:117-164 | after one registration the server packs exactly if both sides have a compressor, it unpacks exactly if it has any compression plugin, and the client packs and unpacks exactly if it has a compressor and this server or an earlier one announced compression |
| `Negotiation.SoundIff` | relay/relay.go:154-164 | the settled roles let a side pack only if the other can unpack, for every combination of plugins, except exactly when a reused client object carries the flag of an earlier server and the present one cannot decompress |
| `StaleFeatures.ReadableIff` | relay/relay.go:154-164 | if compression has any use, every data frame of every run can be read by its reader exactly unless a reused client trusts the answer of an earlier server and the present one cannot decompress |
| `StaleFeatures.ChunkGoesUp` | relay/relay.go:473-508 | under any settings there is a run that puts a given chunk, packed if the client packs, on the client-to-server stream |
| `StaleFeatures.RegisterTwice` | relay/relay.go:99-164 | one client object registered with two servers in turn leaves frames unreadable exactly when it has a compressor, the first server can decompress and the second cannot |
| `Negotiation.NegotiatedFramesAreReadable` | signal-server/main.go:597-607 | after any first registration, on every run of the link, every data frame is accepted and decoded by its reader |
| `FrameCodec.EncodeOctets` | signal-server/main.go:1172-1188 | octet 0 is the type, octets 1 to 4 are the channel and 5 to 8 the length, highest first, and the payload follows |
| `FrameCodec.ReadOctets` | signal-server/main.go:1190-1213 | on any octets readFrame takes the type, the channel and the length from these places, refuses a length over 65536, and takes as many octets as it says |
| `FrameCodec.ReadsBackIff` | signal-server/main.go:1172-1213 | a written frame is read back unchanged if its payload has at most 65536 bytes and refused as too large otherwise, whatever follows |
| `FrameCodec.CutFrameEnds` | signal-server/main.go:1190-1213 | no proper prefix of a frame reads as a frame |
| `FrameCodec.CutStreamDecodes` | relay/relay.go:237-262 | a stream cut anywhere decodes to exactly the frames that arrived whole |
| `FrameCodec.StreamRoundTrip` | relay/relay.go:217-262 | reading the concatenation of written frames gives those frames |
| `FrameCodec.BrokenLinkIsExact` | signal-server/main.go:1180-1187 | when the connection breaks after any number of bytes, the peer decodes exactly the frames that lie whole within them |
| `FrameCodec.WriteFrames` | signal-server/main.go:1158-1188 | writers that use the link until it breaks and after see their first writes succeed and all later ones fail, and the peer decodes exactly the frames of the writes that succeeded |
| `FrameCodec.Inbound.ReceiveFull` | signal-server/main.go:1191-1194 | ReadFull returns the next n bytes however the network cuts them, or fails at the end |
| `FrameCodec.Inbound.ReadFrame` | signal-server/main.go:1190-1213 | the frame read depends on the bytes alone and not on how they were chunked |
| `FrameCodec.Outbound.WriteFrame` | signal-server/main.go:1172-1188 | the whole frame is written, or a proper prefix of it and an error |
| `Words.WordRoundTrip` | signal-server/main.go:1196-1198 | a big-endian word is read back as written |
| `Words.PutUint32` | signal-server/main.go:1175-1176 | four bytes of the buffer change to the big-endian word, the others stay |
| `RateLimit.Limiter.Refill` | plugin/ratelimit.go:29-37 | the bucket gains the elapsed time times the rate and is capped at one second worth |
| `RateLimit.Limiter.Begin` | plugin/ratelimit.go:39-54 | the call passes at once exactly if the refilled bucket holds its bytes, and leaves the rest; otherwise the bucket is emptied and the sleep times the rate is what is missing |
| `RateLimit.Limiter.Finish` | plugin/ratelimit.go:60-67 | after the sleep exactly the bytes are taken from the refilled bucket, which stops at zero |
| `RateLimit.RateBound` | plugin/ratelimit.go:39-68 | with k goroutines calling Wait in any interleaving, the bytes admitted by time t are at most one second worth plus k times the rate times the time passed, and the bucket stays within its bounds |
| `RateLimit.CallsLeaveTheRest` | plugin/ratelimit.go:43-67 | for any number of goroutines, as long as no call goes to sleep the bucket loses no more than the bytes of the calls that return, at once or from a sleep |
| `RateLimit.SleepersAskForMore` | plugin/ratelimit.go:43-54 | a call is made to sleep only when it and the calls returned since some moment ask for more than the bucket held then; so calls that together ask for no more all pass |
| `RateLimit.NoByteIsLost` | plugin/ratelimit.go:39-68 | for a goroutine that has the limiter to itself and wakes on time, while the bucket does not overflow, bytes returned plus bytes held are what was held at first plus the rate times the time |
| `RateSharing.BoundIsMet` | plugin/ratelimit.go:39-68 | for every rate, every number k of goroutines and every whole number of seconds there is a run that admits exactly what that bound allows |
| `RateSharing.ClassicIff` | plugin/ratelimit.go:39-68 | all runs keep the bound of a plain token bucket, one second worth plus the rate times the time passed, exactly when one goroutine uses the limiter |
| `ConnLimit.Limiter.OnAccept` | plugin/connlimit.go:17-30 | with other threads storing any values between each load and its swap, the retry loop admits the call at the first undisturbed load below the limit, adding one, and refuses it at the first load that finds the limit reached |
| `ConnLimit.OneRetryLoopOnePlace` | plugin/connlimit.go:21-29 | whatever the rivals store, an admitted call adds one to the value it swapped and never passes the limit; a refused one saw the limiter full |
| `ConnLimit.LimitHolds` | plugin/connlimit.go:17-37 | for any number of threads interleaved at load and compare-and-swap, the counter stays between 0 and a positive limit and equals accepts minus closes |
| `ConnLimit.MissMeansProgress` | plugin/connlimit.go:26-28 | a swap that misses was overtaken by an accept or a close that completed since the load |
| `ConnLimit.RefusalIsJust` | plugin/connlimit.go:23-25 | a refused thread had read a counter that really was at the limit at that moment |
| `ConnLimit.FirstSwapSucceeds` | plugin/connlimit.go:22-28 | a thread whose load is up to date succeeds |
| `ConnLimit.SomeAcceptCompletes` | plugin/connlimit.go:21-29 | between a thread load and the end of its swap, with no close in between, some accept completes: its own exactly if nobody came first |
| `PluginHost.ReplyCarriesId` | dynplugin/process.go:142-172 | for any plugin output, a successful Call returns a response that carries its own id and that the plugin wrote |
| `PluginHost.DeliveredOnce` | dynplugin/process.go:117-126 | no id is delivered twice, whatever the plugin repeats |
| `PluginHost.PendingIsOpen` | dynplugin/process.go:142-172 | a pending id lies in 1..nextID and belongs to a call that has not returned or, after Stop, that returned as stopped |
| `PluginHost.ReaderNeverBlocks` | dynplugin/process.go:117-126 | when the read loop is about to send on a channel, the channel has room |
| `PluginHost.RunInv` | dynplugin/process.go:100-172 | every interleaving of calls, timeouts, stop, reads and plugin output keeps the tables and the origin of every response |
| `PluginHost.CallsRefineSequential` | dynplugin/sdk.go:32-79 | with a plugin built on the SDK, a successful Call returns the result of the handler registered under its own name on its own parameters, or the error that names the method if there is none, on the variables as the handlers of the lines before its own leave them one after the other; and its line was written after the call began and served before it returned |
| `PluginHost.LinesAreWritten` | dynplugin/process.go:142-180 | every line the host wrote is the request of the call it is numbered for, with the name and parameters that call was begun with, or a notification; calls are numbered in the order they began |
| `PluginHost.ReturnsAreSteps` | dynplugin/process.go:149-171 | a call returns what its last step was: the response that lay in its own channel, a timeout, a stop after Stop was called, or a request that could not be written |
| `PluginCalls.PluginProcess.Elsewhere` | dynplugin/process.go:130-197 | lines written, handed over or answered, stop, and calls that see it leave the table and the channels agreeing with the system |
| `PluginCalls.PluginProcess.Register` | dynplugin/process.go:143-148 | a new id, one above the last, a fresh empty channel in the table, and a call that waits with its own name and parameters |
| `PluginCalls.PluginProcess.Forget` | dynplugin/process.go:150-156 | a call that gives up leaves the table |
| `PluginCalls.PluginProcess.Take` | dynplugin/process.go:117-122 | the waiting channel is found and its entry deleted in one step; an unknown or late id changes nothing |
| `PluginCalls.PluginProcess.Put` | dynplugin/process.go:124-126 | the send finds the channel empty, so it never blocks |
| `PluginCalls.PluginProcess.Receive` | dynplugin/process.go:158-163 | what is received carries the id of this call |
| `PluginSdk.PluginSDK.RegisterFilter` | dynplugin/sdk.go:27-30 | the hook is announced once more and the later handler serves it |
| `PluginSdk.PluginSDK.Run` | dynplugin/sdk.go:32-79 | on any input the handshake is written, then for each request with an id, in order, the result of its handler on its parameters and the variables then, or the error naming the method; every handled line, notifications included, leaves the variables its handler returns |
| `PluginSdk.SequentialExecution` | dynplugin/sdk.go:32-79 | there is one chain of variables through the lines, each link made by the handler registered under the name of the line on its parameters, and every reply is what the handler yields at its place in the chain |
| `PluginSdk.AskingIsExact` | dynplugin/sdk.go:64-77 | the lines answered are exactly the requests with an id, in their order |
| `PluginSdk.RepliesExplained` | dynplugin/sdk.go:60-77 | every reply carries the id of one request of the input and what the handler of that request yields on its parameters after the lines before it; notifications are never answered |
| `PluginSdk.OneReplyEach` | dynplugin/sdk.go:60-77 | the replies are exactly as many as the requests with an id, and carry their ids in order |
| `UdpSessions.OnlyIdleSessionsAreDropped` | signal-server/main.go:934-947 | the cleanup drops a session only if no packet came from its address for more than 120 seconds |
| `UdpSessions.IdleSessionsEnd` | signal-server/main.go:926-949 | with a tick at least every p, no session is still listed later than 120 seconds and p after the last packet from its address |
| `UdpSessions.LastActiveIsLast` | signal-server/main.go:883-883 | lastActive is the time of the last packet from the address |
| `IdleDetector.Plugin.OnOpen` | plugins/conn-timeout/plugin.py:30-41 | the channel is tracked afresh and any warning is forgotten |
| `IdleDetector.Plugin.OnClose` | plugins/conn-timeout/plugin.py:44-52 | the channel leaves both dictionaries |
| `IdleDetector.Plugin.OnData` | plugins/conn-timeout/plugin.py:55-61 | a tracked channel is marked as heard of now, and any warning is forgotten |
| `IdleDetector.Plugin.OnCheck` | plugins/conn-timeout/plugin.py:64-84 | exactly the channels warned about for the timeout are reported, each once, and exactly the silent unwarned ones are warned about, in whatever order the loop visits them |
| `IdleDetector.RunInv` | plugins/conn-timeout/plugin.py:55-84 | warned keys are tracked keys, and a warning is at least the timeout after the last data |
| `IdleDetector.LastDataIsLast` | plugins/conn-timeout/plugin.py:30-61 | last_data is the latest opening or packet of the channel |
| `IdleDetector.TrackedIff` | plugins/conn-timeout/plugin.py:30-52 | a channel is tracked exactly if some on_open for it has had no on_close after it |
| `IdleDetector.TrackedSince` | plugins/conn-timeout/plugin.py:30-37 | time, protocol and address kept of a tracked channel are those of the on_open that came last |
| `IdleDetector.ReportMeansSilence` | plugins/conn-timeout/plugin.py:64-84 | a reported channel was opened, has not been closed since, and has been silent for at least twice the timeout |
| `IdleDetector.ReportsAreApart` | plugins/conn-timeout/plugin.py:64-84 | two reports of one channel are at least the timeout apart, whatever happens in between |
| `IdleDetector.SilenceIsReported` | plugins/conn-timeout/plugin.py:64-84 | with checks at most p apart, a channel silent for longer than twice the timeout and twice p has been reported, and within that time |
| `Tokenizer.ParseExec` | dynplugin/process.go:214-245 | the loop over the runes returns the non-empty fields of the line, or the error if there is none; SpaceCuts and OnlySpacesCut say which those are |
| `Tokenizer.SpaceCuts` | dynplugin/process.go:228-232 | a space outside quotes cuts the line: the parts of the whole are those of the text before it followed by those of the text after it |
| `Tokenizer.OnlySpacesCut` | dynplugin/process.go:233-234 | nothing else cuts: a line with no space outside quotes is one part, its text without quotes, or none |
| `Tokenizer.WordsParse` | dynplugin/process.go:214-245 | words without spaces and quotes, joined by spaces, come back as they were |
| `Tokenizer.PartsAreTheKeptText` | dynplugin/process.go:214-245 | on any line every part is non-empty and without double quotes, the parts concatenate to the line minus its quotes and unquoted spaces, and the error means that nothing is left |
| `Tokenizer.QuotedParses` | dynplugin/process.go:214-245 | quoting arguments without double quotes and joining them with spaces keeps every non-empty one, in order |
| `Tokenizer.RoundTripIff` | dynplugin/process.go:214-245 | parsing the quoted arguments returns them exactly when there is at least one, none is empty and none holds a double quote |
| `Stun.ParseXORMappedAddr` | stun/stun.go:60-95 | the port is read under the top half of the cookie, an IPv6 address octet by octet under cookie and transaction id, and a short value or another family is refused |
| `Stun.XorMappedOctets` | stun/stun.go:60-95 | the decoded port is octets 2 and 3 under 0x21 and 0x12, an IPv6 octet is the one at its place under that of the cookie or the transaction id, and all four IPv4 octets come from octet 7 |
| `Stun.MappedOctets` | stun/stun.go:97-120 | the decoded port is octets 2 and 3, and the address the 4 or 16 octets from octet 4 on |
| `Stun.ResponseOctets` | stun/stun.go:122-136 | a response is read at all exactly if octets 0 and 1 are 1, octets 4 to 7 the cookie, and the length in octets 2 and 3 is at most the size less 20 in 16 bits |
| `Stun.OneAddressFound` | stun/stun.go:136-173 | a response of one address attribute of kind 0x0001 or 0x0020 and family 1 gives the address of that attribute |
| `Stun.OneAttributeCounts` | stun/stun.go:136-173 | on any attribute list the address found is that of the last XOR-MAPPED-ADDRESS, or without one that of the first MAPPED-ADDRESS that can be decoded, unless an XOR-MAPPED-ADDRESS is malformed |
| `Stun.CutListIsRead` | stun/stun.go:136-143 | an attribute cut off at the end is left alone and all before it count |
| `Stun.ServerOctets` | signal-server/main.go:416-447 | the response of the server octet by octet |
| `Stun.ParseBindingResponse` | stun/stun.go:122-173 | on any bytes every slice is in range, the walk ends, and the result is the selection over the attribute list |
| `Stun.ResponseSelects` | stun/stun.go:122-173 | on the encoding of any attribute list with any padding: a malformed XOR-MAPPED-ADDRESS is an error, else the last one wins, else the first decodable MAPPED-ADDRESS |
| `Stun.AttrsOfEncoding` | stun/stun.go:140-167 | the walk over the encoding of a list sees that list |
| `Stun.BuildSTUNResponse` | signal-server/main.go:416-447 | the buffer holds the header for the request and one XOR-MAPPED-ADDRESS attribute |
| `Stun.AcceptedIff` | stun/stun.go:64-93 | an address attribute is decoded exactly when its first octet is 1 with 8 octets or 2 with 20; the standard puts the family into the second octet |
| `Stun.ConformingResponsesFail` | stun/stun.go:136-172 | no attribute list whose address attributes start with the zero octet the standard demands yields an address: invalid with an XOR-MAPPED-ADDRESS, no address without |
| `Stun.ConformingBytesFail` | stun/stun.go:122-173 | no bytes at all whose attributes conform yield an address |
| `Stun.OwnResponseIsRefused` | signal-server/main.go:424-447 | the client refuses every response of this server, for every request, address and port |
| `Stun.WrittenExpression` | stun/stun.go:68-80 | with the family in the first octet the port comes back and of an IPv4 address the last octet, the other three being that octet under fixed masks |
| `Stun.WholeAddressIff` | stun/stun.go:74-80 | the whole IPv4 address comes back exactly when its first three octets are the last one under 0x63, 0x50 and 0xE6 |
| `Stun.AddressIsLost` | stun/stun.go:74-80 | 203.0.113.7 does not come back |
| `Stun.IntendedRoundTrip` | signal-server/main.go:416-447 | read with the family in the second octet and the mask applied before the shift, the attribute of the server gives back every IPv4 address and port |
| `Stun.Ipv6RoundTrip` | stun/stun.go:81-91 | applying the key of cookie and transaction id again gives back every IPv6 address |
| `Words.XorSplits` | stun/stun.go:69-79 | exclusive or works on the high and the low part of a word separately |

## Left out

- Assumed of the link: no dynamic plugins (signal-server/main.go:744-752, 861-868 and 322-354 break the accounting when a plugin asks to close), so OnOpen, OnData and OnCheck never ask to close anything.
- Assumed of the link: no external connection is accepted before the `ok` frame, which is written without writeMu (signal-server/main.go:585-608).
- Assumed of the link: the client's read deadline passes only between frames; in the middle of one the bytes already read would be dropped (relay/relay.go:290-301).
- Assumed of the link: once a write on a connection failed, later ones fail too; a partly written frame is then never completed.
- Assumed of the link: one UDP service per client, since the session key omits the service port (signal-server/main.go:841); hence one cleanup goroutine.
- Assumed of the link: the id counter has not wrapped (`CanDraw`); `RelayHub.DrawsCollideIff` says when it matters.
- Teardown of a client (signal-server/main.go:620-659) and Close: runs end there, so what happens to tables set to nil is not modelled.
- The global limiter and global rate limiter: the former counts every UDP packet and is not released when a later filter rejects (signal-server/main.go:718-733), so only the client limiter is balanced; rate limiting delays steps and does not appear in the link.
- What the network does with a datagram after WriteToUDP, whose error the source does not look at either; packets that the limiter turns away leave no trace in the model.
- In pipeExternalToClient closing the connection and removing the entry are one step; the source closes just before it takes the lock. Writes may fail at any time in the model, which covers the gap.
- Which accept loop (listener) a connection came from, the `listeners` port map, IP filters, and the LocalPort and RemoteAddr that announcements carry.
- LZ4 itself: only that a successful compression is shorter and that decompression inverts it (`Lawful`).
- JSON: control messages, requests and responses are already decoded; a line that does not decode is one constructor. Parameters and results are texts.
- Byte-level faults of the plugin pipe: a line is written whole or not at all, and lines over the scanner's 1 MB limit, process start and exit are left out.
- Wait of RateLimit on floating point: amounts and times are reals, the clock does not go back, and a sleep lasts at least as long as asked (the source truncates to nanoseconds, and a nil limiter admits everything).
- NewConnLimit truncates its argument to 32 bits; `maxConns` is the value after that.
- The tokenizer works on characters where the source works on runes; invalid UTF-8 is not modelled.
- A net.IP is its 4 or 16 octets; net.IPv4 returns the 16-octet form of the same address. BuildSTUNResponse is for IPv4 clients, as the source's To4 call demands.
- conn-timeout: log lines, the lock (every hook runs alone) and the parsing of its input lines; the order of the reported channels.
- `runSTUNServer`, DetectNATType, upnp, forward, keepalive, the GUI, flags and logging: network clients and plumbing.
- Other plugins (IP filter, traffic log, geoip, web access log, the plugin manager): library calls and simple folds.
- RelayTheorems.ClientListed: a close that is queued or owed counts as agreement, and so does a broken connection, because the peer then never learns of the close.
- ServerTables.RelayClient.Packet: runs its block without another goroutine in between, and so does Cleanup; their parts are methods of their own, between which Elsewhere and the others may come.
