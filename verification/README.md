# mux-protocol: a verified model

A Dafny model of a stream multiplexer and the programs built on it: the `libmux` session and wire format,
the edge-peer router, the relay, the `libpeer` client and the SHA-256/HMAC proof.

**The session.** `Session` gives every API call and every received frame as a function on values. `Node`
adds a history (frames emitted and processed, bytes accepted and consumed, events taken), and the `Node*`
modules prove laws that every call and every frame keeps, against any peer. `Pair` joins a dialer and an
acceptor by two ordered byte channels whose bytes are cut and delivered anyhow; `Theorems` holds what is true
in every state of every such run. `Keepalive` and `Detecting` treat the timer, `Refeed` bytes that arrive in pieces,
`Sending`, `Crediting` and `CallResults` what one call takes, `Finishing` and `Closing` the end of a stream in
either direction, `Welcome` and `Draining` its beginning. `Emitting` and `Notices` tie what is said on the wire to
what the hosts said and what they are told, `Faults` says what each received frame costs its sender, `Layout` where
each octet lies.

**The session as built.** `MuxSession` is the mutable object with its tombstoned stream table (`StreamTable`),
event ring and compacting output buffer (`Buffers`). Every method is proved to do what `Session` says, so the
theorems are about it too.

**The hosts.** `Router` splices streams of edge tunnels to streams of worker tunnels; `RouterLaws.SpliceLaw`
says what its invariant means for a route, `RouterEvents` what each event does, `RouterEnds` when a finished route
has lost nothing. `PeerClient` is the client object with its work, ready and accept lists; `PeerLaws.StreamLaw` and
`PeerDesk.TryFreedOk` say what its invariant means for a stream, `PeerEnds` what the application sees of it.
`RelayFlow` is a relayed connection with its two directions. All three hold a session with its history, and rest on
`HostWake`: ids do not come back, and a stream with unsent bytes is always owed a wake-up. `RouterLost` accounts for
the credit the router loses, `RouterTrust` and `Auth` for who is let in.

**Where the code falls short.** Seven properties one would expect do not hold of the code; each has a run or state
that breaks it and a theorem that says exactly when it holds:

| property | broken by | exactly when |
|---|---|---|
| a quiet pair of sessions can always send | `LostCredit.StalledForGood` | `Theorems.NoStallAtQuiescence` |
| STREAM_CLOSED is reported once | `Failures.ClosedTwice` | `Closing.SecondClosingExactly` |
| the router sends every byte before the FIN | `CutOff.ByteCutOff` | `RouterEnds.CutOffExactly` |
| a client stream is written and finished only by its owner | `Failures.OldHandleFinishesNewStream` | `Meddling.MeddlingExactly` |
| an opener that keeps to the cap is let in | `Crossing.CrossedOpens` | `Welcome.LetInExactly` |
| the router gives all credit back | `CutOff.CreditLost` | `RouterLost.RecoverableExactly` |
| a silent peer is detected | `Keepalive.DefaultNeverDetects` | `Detecting.DetectedExactly` |

**The pieces.** `ProbeMap` is the map without tombstones of router and client, `RelaySlab` the relay's slab and
index-sized table, `Swrr` the worker choice, `Sha256` the incremental hash, `KnownAnswers` two published
values of it.

What the pair theorems ask of the hosts is `Pair.CallOk`: no more is consumed than was delivered, an acceptor
emits nothing before the peer's greeting, and a dialer opens fewer than 2^31 streams. `EarlyFrameKills` and
`FreshIdsExactly` show what the last two are for. The one-session laws ask only the last.

Where code and documentation differ the model follows the code: a greeting with an empty payload is a protocol
error, since the TLV reader rejects a null buffer.

Check it with `dafny verify --resource-limit 2000000 dfyconfig.toml`.

## Model

| member | source | states |
|---|---|---|
| `Theorems.HonestPairSafety` | libmux/src/session.c:474-701 | in every state of every run of a dialer and an acceptor, under any interleaving and any fragmentation, neither end ever reports a PROTOCOL or FLOW_CONTROL violation by the other |
| `Theorems.CreditConservation` | libmux/src/session.c:435-463 | connection: send window + DATA bytes in flight + sid-0 grants in flight + bytes dropped for unknown streams = the peer's receive window; per stream the same without the drop term while both ends have the stream; both directions, every reachable state |
| `Theorems.StreamIntegrity` | libmux/src/session.c:529-578 | for every stream and direction the bytes delivered are a prefix of the bytes mux_write accepted, and all of them once STREAM_CLOSED is queued |
| `Theorems.NoStallAtQuiescence` | libmux/src/session.c:448-463 | once both channels are drained and every delivered byte is consumed, resets and refusals included: send window = the peer's window - its pending credit - the bytes it dropped, exactly; every stream window is positive and no stream is blocked if and only if the dropped bytes are fewer than the window less the pending credit |
| `Theorems.NoStallWithoutResets` | libmux/src/session.c:448-463 | in a run without resets the condition holds, so nothing stalls |
| `LostCredit.StalledForGood` | libmux/src/session.c:529-533 | a run of an honest pair that does stall: DATA in flight when the acceptor resets its stream is dropped, its credit never returns, and the dialer rests with a connection window of 0 |
| `Theorems.ClosedAtMostOnce` | libmux/src/session.c:572-578 | in every run of an honest pair each end reports STREAM_CLOSED at most once for each stream |
| `Closing.SecondClosingExactly` | libmux/src/session.c:521-579 | against any peer, once STREAM_CLOSED was reported for a stream a frame makes it be reported again if and only if it is an empty FIN without RST on that stream, still live and half closed by the peer; it then changes nothing else |
| `Closing.FrameClosings` | libmux/src/session.c:474-701 | for every session and frame, the exact condition under which one STREAM_CLOSED is added |
| `Closing.RepeatOnlyReports` | libmux/src/session.c:572-578 | the repeated FIN leaves everything but the event queue as it was, so it can repeat for ever |
| `Failures.ClosedTwice` | libmux/src/session.c:572-578 | a run against a peer that repeats its FIN, in which STREAM_CLOSED is reported twice |
| `Theorems.NoticeIntegrity` | libmux/src/session.c:474-519 | in every state of every run of an honest pair, both ways: STREAM_OPENED carries exactly the metadata the other host gave mux_open for that id, capacities and leavings are those it announced and in that order, the greeting is that of the other session, and a reset code is the one the other host gave unless the session itself reset the stream |
| `Theorems.OneOpening` | libmux/src/session.c:755-761 | for one id at most one opening was ever asked for, so the metadata reported for it is determined |
| `Theorems.OpenRecords` | libmux/src/session.c:737-761 | what counts as asked for is the argument of mux_open under the id it returned |
| `Notices.StepTold` | libmux/src/session.c:737-761 | every step keeps: the SYN, CAPACITY and GOAWAY frames on the wire, in order, are exactly what the host asked for, and nothing else |
| `Notices.StepCuts` | libmux/src/session.c:814-823 | every step keeps: the code of an RST on the wire is the one the host gave mux_reset, or one of the session's own |
| `Notices.ReceiveReports` | libmux/src/session.c:474-648 | any frame of any peer keeps: what is reported of openings, capacity, leaving and resets was said by a received frame, in the same order |
| `Notices.StepPings` | libmux/src/session.c:856-892 | every step keeps: pings carry consecutive numbers and each ping received was answered once, in order, with its own payload |
| `Theorems.PingsAnsweredInOrder` | libmux/src/session.c:619-629 | in every run the answers received are to one's own pings in the order sent: the i-th carries number i |
| `Emitting.StepEmits` | libmux/src/session.c:474-892 | against any peer, which kinds of frame each call and each received frame may put on the wire |
| `Faults.FrameJudged` | libmux/src/session.c:474-701 | for every live session and every frame: it ends with exactly the code due (PROTOCOL, FLOW_CONTROL, or INTERNAL when the reply does not fit), and sends exactly the reply due (RST with its code, ping answer, greeting), told from the frame and the session before |
| `Finishing.FinOnlyByClose` | libmux/src/session.c:798-812 | no step of a session but mux_close of a stream puts a FIN of that stream on the wire |
| `CallResults.OpenExactly` | libmux/src/session.c:737-761 | mux_open gives the next id, a record and a SYN with the metadata if and only if the session is greeted, not leaving, below the peer's cap, has ids and room; otherwise nothing changes on the wire or in the table, and each error code has its exact cause |
| `CallResults.CloseExactly` | libmux/src/session.c:798-812 | the FIN goes out exactly when it is due and fits; the stream is then finished, or gone when the peer finished first; each answer has its exact cause |
| `CallResults.ResetExactly` | libmux/src/session.c:814-823 | the record goes whether or not the RST with its code fits; no other stream changes |
| `Sending.WriteAllExactly` | libmux/src/session.c:763-796 | mux_write takes all of a non-empty buffer if and only if the stream may send, both windows cover it and its frames fit the output buffer |
| `Sending.ShortThenNothing` | libmux/src/session.c:763-796 | after a short or failed mux_write a further one takes nothing |
| `Theorems.MaxStreamsSound` | libmux/src/session.c:491-496 | in every state of every run: while an end has opened no stream and is not draining, every SYN it has processed was let in and reported, wherever in a mux_recv it came |
| `Welcome.LetInExactly` | libmux/src/session.c:488-519 | a legal SYN is let in if and only if the receiver is not draining and its streams, of either end, are below its cap |
| `Crossing.CrossedOpens` | libmux/src/session.c:491-496 | why one side has to do all the opening: a run of an honest pair in which two openings cross and one is refused although its opener kept to the cap |
| `Theorems.FreshIdsExactly` | libmux/src/session.c:743-747 | the next id of a dialer is unused if and only if it has opened fewer than 2^31 streams: the exact bound behind the id hypothesis, since odd ids wrap past the exhaustion test |
| `Theorems.EarlyFrameKills` | libmux/src/session.c:685-701 | before the greeting any other frame kills the session with PROTOCOL: why an acceptor must emit nothing earlier |
| `Theorems.PairRunInv` | libmux/src/session.c:1-924 | the joint invariant of two sessions and two byte channels holds in every state of every run |
| `NodeRuns.RunInv` | libmux/src/session.c:474-924 | every state of every run of one session, whatever the peer sends, satisfies the session laws |
| `NodeRuns.ReceiveMemoryCap` | libmux/src/session.c:435-463 | against any peer: receive window + pending credit + delivered - consumed = the configured window exactly, for the connection and for each live stream; so unconsumed bytes never exceed it |
| `NodeRuns.BlockedMeansExhausted` | libmux/src/session.c:581-617 | blocked_count is the number of blocked live streams, and a blocked stream has an exhausted stream or connection window |
| `NodeRuns.WakeUpIsQueued` | libmux/src/session.c:585-616 | the very step after which a blocked stream has room on both windows queues WRITABLE for it |
| `NodeRuns.ShortWriteBlocks` | libmux/src/session.c:770-795 | a short mux_write on a session that survives it leaves its stream blocked |
| `NodeSend.WriteInv` | libmux/src/session.c:763-796 | mux_write keeps the session laws: chunking, both windows debited by exactly what went on the wire |
| `NodeSend.CloseInv` | libmux/src/session.c:798-812 | mux_close keeps the session laws: one FIN, and no data after it |
| `NodeSend.ResetInv` | libmux/src/session.c:814-823 | mux_reset keeps the session laws |
| `NodeSend.OpenInv` | libmux/src/session.c:737-761 | mux_open keeps the session laws: fresh ids of the right parity in increasing order |
| `NodeConsume.ConsumeInv` | libmux/src/session.c:825-837 | mux_consume keeps the session laws: batched credit in 32-bit chunks, never more than was delivered |
| `NodeControl.ReceiveInv` | libmux/src/session.c:685-701 | any received frame, from any peer, keeps the session laws |
| `NodeReceive.StreamDataInv` | libmux/src/session.c:521-579 | non-SYN DATA keeps the session laws in every branch: dropped, reset, refused, delivered, finished |
| `NodeControl.SynInv` | libmux/src/session.c:474-519 | SYN keeps the session laws in every branch: fatal, refused, admitted, with FIN or RST |
| `NodeControl.HelloInv` | libmux/src/session.c:650-683 | a greeting keeps the session laws, also when it is malformed half-way |
| `NodeHonest.CallExact` | libmux/src/session.c:737-854 | every host call keeps live streams, emitted frames and delivered events in exact correspondence |
| `NodeHonest.ReceiveExact` | libmux/src/session.c:685-701 | every frame of a disciplined peer keeps that correspondence |
| `PairLaws.NextClean` | libmux/src/session.c:474-701 | whatever an honest peer's next frame is, processing it reports no violation |
| `PairRecv.RecvRunInv` | libmux/src/session.c:707-735 | a whole mux_recv, at any fragmentation, keeps the joint invariant |
| `Keepalive.NoFalseAlarm` | libmux/src/session.c:856-892 | when a session with room for a ping dies in mux_on_timer, a ping has gone unanswered for at least the timeout |
| `Keepalive.OutstandingIsUnanswered` | libmux/src/session.c:619-629 | in every run an outstanding ping was sent at the recorded time and no answer arrived since |
| `Keepalive.DeadPeerDetectedExactly` | libmux/src/session.c:864-882 | driven at its own deadlines against a silent peer, the session is dead after k calls if and only if k >= 3 and 0 < timeout <= heartbeat; with a longer timeout each ping overwrites the time of the last |
| `Keepalive.DefaultNeverDetects` | libmux/src/session.c:330-333 | with the default timeout of three heartbeats a new session driven at its own deadlines against a silent peer is alive after any number of calls |
| `Detecting.DetectedExactly` | libmux/src/session.c:856-892 | in every run, whenever it is called and whatever else happens: mux_on_timer with room for a ping kills a live session if and only if it comes a timeout or more after the last ping, which no answer followed |
| `Detecting.FrequentCallsNeverDetect` | libmux/src/session.c:874-882 | a host whose calls are never further apart than timeout less heartbeat never gives up its peer, though it never hears from it |
| `Codec.ParseEncode` | libmux/src/frame.c:49-124 | parsing a crafted frame gives the frame back, whatever bytes follow it |
| `Codec.EncodeParse` | libmux/src/frame.c:49-124 | crafting inverts parsing: an accepted frame is exactly the bytes it consumed |
| `Codec.ParsePrefix` | libmux/src/frame.c:49-87 | a strict prefix of a crafted frame asks for more bytes and is never a violation |
| `Codec.ParseStable` | libmux/src/frame.c:49-87 | once decided, a parse does not change when more bytes arrive |
| `Layout.FrameLayout` | libmux/src/frame.c:89-124 | octet by octet: version, type, then flags, stream id and length each most significant octet first, then the payload |
| `Layout.TlvLayout` | libmux/src/frame.c:130-149 | a TLV in place: type and length most significant octet first, then the value |
| `Layout.CodeLayout` | libmux/src/session.c:435-446 | the octets of a WINDOW_UPDATE and of an RST: the credit or the code, most significant octet first |
| `Layout.NoticeLayout` | libmux/src/session.c:839-854 | the octets of CAPACITY and GOAWAY, weight; reason, then the highest id received; sent if and only if the session lives and has room |
| `Layout.GreetingLayout` | libmux/src/session.c:391-425 | the five numbers of a greeting lie in the source's order, each under its type |
| `Codec.Craft` | libmux/src/frame.c:89-124 | writes exactly the encoding in place, or nothing and the right error |
| `Codec.PutTlv` | libmux/src/frame.c:130-149 | appends exactly one TLV in place, or nothing and the right error |
| `Codec.NextTlvEncode` | libmux/src/frame.c:151-172 | iteration inverts encoding at any offset of a TLV block |
| `Greeting.HelloRoundTrip` | libmux/src/session.c:391-425 | whatever the receiver assumed before, after reading a greeting it holds the sender's cap, windows and identity blobs |
| `Session.HelloPayloadBound` | libmux/src/session.c:391-425 | a greeting is at most 820 bytes, so its 1024-byte buffer never overflows |
| `Recv.RecvConsumes` | libmux/src/session.c:707-735 | what mux_recv consumes is exactly the encodings of the frames it processed |
| `Recv.HonestParse` | libmux/src/session.c:707-735 | on encoder output cut anywhere, parsing yields the next frame or asks for more |
| `Refeed.FeedingIsMeaning` | libmux/src/session.c:707-735 | bytes in any number of pieces, the unread tail fed again before each, events taken at any time, stops at the soft cap included: the frames processed are those the bytes stand for, in order, and once nothing more can be read also the state, up to the event queue |
| `Refeed.SplitsAgree` | libmux/src/session.c:707-735 | two ways to cut the same bytes process the same frames to the same state and the same tail; the events taken and queued are the same, in the same order but for WRITABLE |
| `Refeed.ProcessBlind` | libmux/src/session.c:685-701 | processing a frame only adds to the event queue, and what it does depends on no event in it |
| `Refeed.OnlyTheCapStops` | libmux/src/session.c:707-735 | a call leaves a readable frame behind only when the session is dead or the queue is at its soft cap |
| `StreamTable.Table.Find` | libmux/src/session.c:216-230 | returns the slot of a live stream, or none, for every id |
| `StreamTable.Table.constructor` | libmux/src/session.c:353-356 | an empty table in good order |
| `StreamTable.Table.Grow` | libmux/src/session.c:232-254 | rehashing keeps the contents and the count and drops every tombstone |
| `StreamTable.Table.Insert` | libmux/src/session.c:257-286 | adds exactly one id; the table-full exit of the probe loop is unreachable |
| `StreamTable.Table.Vacancy` | libmux/src/session.c:262-286 | the first tombstone of the chain before its first empty slot, or that empty slot when there is none |
| `StreamTable.Table.Remove` | libmux/src/session.c:288-296 | removes exactly one id and keeps every other chain unbroken; count and tombstones stay exact |
| `Probing.TombOk` | libmux/src/session.c:288-296 | a tombstone keeps every other probe chain unbroken |
| `Probing.ProbeMiss` | libmux/src/session.c:216-230 | a probe that meets an empty slot first proves the id absent |
| `Probing.SomeEmpty` | libmux/src/session.c:257-286 | below full load an empty slot remains, so probing ends |
| `Probing.OrderEnumerates` | libmux/src/session.c:594-602 | a sweep in table order visits every live stream exactly once |
| `Probing.Rehash` | libmux/src/session.c:240-250 | every used slot moves and the map it stands for is unchanged |
| `Buffers.EventRing.Push` | libmux/src/session.c:170-186 | first in, first out, across the growth of the ring |
| `Buffers.EventRing.Pop` | libmux/src/session.c:917-924 | takes the oldest event |
| `Buffers.OutBuf.Reserve` | libmux/src/session.c:124-148 | room is made if and only if the pending bytes stay within the buffer or the ceiling; pending bytes are untouched by compaction and growth |
| `Buffers.OutBuf.Append` | libmux/src/session.c:152-164 | the pending bytes grow by exactly one encoded frame, or not at all |
| `Buffers.OutBuf.Advance` | libmux/src/session.c:904-915 | the host takes a prefix of the pending bytes |
| `MuxSession.MuxSession.Create` | libmux/src/session.c:315-367 | a new session object stands for the specified new session; none for an oversized blob or when the greeting does not fit |
| `MuxSession.MuxSession.Greet` | libmux/src/session.c:391-425 | the greeting built TLV by TLV in its buffer is the specified one |
| `MuxSession.CraftHello` | libmux/src/session.c:391-425 | the TLV loop produces the greeting block byte for byte |
| `MuxSession.MuxSession.Send` | libmux/src/session.c:152-164 | emitting a frame into the output buffer is the specified emission, fatal when it does not fit |
| `MuxSession.MuxSession.MarkBlocked` | libmux/src/session.c:109-112 | the blocked counter follows the flag |
| `MuxSession.MuxSession.Drop` | libmux/src/session.c:470-472 | closing a record keeps table, counter and specification in step |
| `MuxSession.MuxSession.CreditConnection` | libmux/src/session.c:457-463 | the crediting loop comes to the specified batched credit |
| `MuxSession.MuxSession.CreditRecord` | libmux/src/session.c:448-455 | the same for one stream |
| `MuxSession.MuxSession.OnSyn` | libmux/src/session.c:474-519 | refines the specified SYN handling in every branch |
| `MuxSession.MuxSession.OnStreamData` | libmux/src/session.c:521-579 | refines the specified DATA handling in every branch |
| `MuxSession.MuxSession.OnWindowUpdate` | libmux/src/session.c:581-617 | refines the specified credit handling, including the sweep in table order |
| `MuxSession.MuxSession.SweepTable` | libmux/src/session.c:594-602 | the slot loop is the specified sweep over the live streams in table order |
| `MuxSession.MuxSession.OnPing` | libmux/src/session.c:619-629 | refines the specified echo and answer handling |
| `MuxSession.MuxSession.OnGoAway` | libmux/src/session.c:631-639 | refines the specified notice |
| `MuxSession.MuxSession.OnCapacity` | libmux/src/session.c:641-648 | refines the specified notice |
| `MuxSession.MuxSession.OnHello` | libmux/src/session.c:650-683 | the TLV loop stores parameters as it reads them, as specified, also when a TLV is malformed |
| `MuxSession.MuxSession.Dispatch` | libmux/src/session.c:685-701 | refines the specified processing of any frame |
| `MuxSession.MuxSession.Receive` | libmux/src/session.c:707-735 | the receive loop is one specified run over the buffer, and returns the bytes of the frames processed |
| `MuxSession.MuxSession.Open` | libmux/src/session.c:737-761 | refines the specified mux_open, whose SYN carries the metadata given (OpenRecords, StepTold); result and every error code |
| `MuxSession.MuxSession.Write` | libmux/src/session.c:763-796 | debiting once after the chunk loop equals debiting chunk by chunk; result and every error code |
| `MuxSession.MuxSession.Close` | libmux/src/session.c:798-812 | refines the specified mux_close |
| `MuxSession.MuxSession.Reset` | libmux/src/session.c:814-823 | refines the specified mux_reset |
| `MuxSession.MuxSession.Consume` | libmux/src/session.c:825-837 | refines the specified mux_consume; the connection is credited even for a stream that is gone |
| `MuxSession.MuxSession.Announce` | libmux/src/session.c:839-844 | refines the specified mux_send_capacity |
| `MuxSession.MuxSession.Drain` | libmux/src/session.c:846-854 | refines the specified mux_goaway |
| `MuxSession.MuxSession.Tick` | libmux/src/session.c:856-892 | refines the specified timer, 64-bit wrap-around included |
| `MuxSession.MuxSession.Advance` | libmux/src/session.c:904-915 | refines the specified hand-over of output |
| `MuxSession.MuxSession.NextEvent` | libmux/src/session.c:917-924 | refines the specified event queue |
| `MuxSession.DebitChunk` | libmux/src/session.c:781-795 | debiting both windows at the end comes to the same as debiting with each chunk |
| `Swrr.PickWorker` | edge-peer/router.c:113-124 | the loop picks the first eligible worker with the largest raised weight and charges it the total |
| `Swrr.PickInvariant` | edge-peer/router.c:113-124 | after any picks from rest the current weight of worker i is n*w_i - W*picks_i, above -W, and the weights sum to zero |
| `Swrr.RoundIsFair` | edge-peer/router.c:113-124 | W picks from rest choose worker i exactly w_i times and return every current weight to zero |
| `Swrr.AnyWindowIsFair` | edge-peer/router.c:113-124 | any W consecutive picks of a run from rest choose worker i exactly w_i times |
| `Swrr.NeverAheadByOne` | edge-peer/router.c:113-124 | no worker is ever ahead of its proportional share by a whole pick |
| `Swrr.Periodic` | edge-peer/router.c:113-124 | the pool is in the same state one round later |
| `ProbeMap.UMap.Get` | edge-peer/router.c:43-43 | lookup agrees with the finite map |
| `ProbeMap.UMap.Locate` | libpeer/src/libpeer.c:153-162 | the probe loop finds the slot of a key or proves it absent |
| `ProbeMap.UMap.Put` | edge-peer/router.c:42-42 | sets exactly one key, growing first when too full |
| `ProbeMap.UMap.Grow` | edge-peer/router.c:41-41 | growing keeps the contents |
| `ProbeMap.UMap.Del` | libpeer/src/libpeer.c:216-229 | removes exactly the key; no remaining entry moves further from its home, and the table does not grow |
| `ProbeMap.UMap.Reput` | edge-peer/router.c:44-44 | one entry of the cluster goes back at or before its old slot, and the loop moves on |
| `ProbeMap.MoveBack` | edge-peer/router.c:44-44 | the first free slot of a displaced entry's chain is never past its old slot |
| `ProbeMap.OpenGap` | edge-peer/router.c:44-44 | emptying a slot breaks only chains of the cluster right after it |
| `ProbeMap.CloseGap` | edge-peer/router.c:44-44 | once the cluster is done the table is in order again |
| `RelaySlab.Slab.Alloc` | common/relay.c:105-122 | never-used indices come out in ascending order and given-back ones before them |
| `RelaySlab.Slab.Attach` | common/relay.c:126-143 | adds exactly one live connection; the index-sized table keeps a free slot |
| `RelaySlab.Slab.Map` | common/relay.c:126-143 | doubling once is always enough for the index at hand |
| `RelaySlab.Slab.Lookup` | common/relay.c:144-154 | agrees with the set of live connections for every id |
| `RelaySlab.Slab.Detach` | common/relay.c:155-171 | removes exactly one live connection from table and slab |
| `RelaySlab.Slab.Release` | common/relay.c:123-123 | the index goes back on the free stack |
| `RelaySlab.PopFree` | common/relay.c:105-122 | the top of the free stack is a given-back index or the lowest never used one |
| `RelaySlab.PowCeil` | common/relay.c:103-103 | the least power of two from 16 up that is large enough: 16, or less than twice the argument |
| `RelaySlab.Strike` | common/relay.c:155-171 | deletion with re-insertion of the cluster keeps every other chain |
| `HostWake.WaitingStep` | libmux/src/session.c:581-617 | a host with unsent bytes keeps being owed a WRITABLE through every step except the one that hands it over |
| `HostWake.NoRevival` | libmux/src/session.c:474-519 | an id that was used and is gone never comes back |
| `HostWake.OpeningIsNew` | libmux/src/session.c:508-516 | when STREAM_OPENED is taken no earlier event opened, filled, ended or reset that stream |
| `Splice.WriteConserves` | edge-peer/router.c:149-165 | one write and its credit move bytes from hand or buffer to the destination, none lost; a short write leaves a wake-up owed |
| `RouterLaws.SpliceLaw` | edge-peer/router.c:149-165 | in every sound state, for each route and direction: delivered = accepted ++ pending, credited = accepted, pending fits the source's stream window and the sum over routes its connection window, and pending bytes are owed a WRITABLE |
| `RouterLost.WindowAccount` | edge-peer/router.c:136-165 | in every sound state a tunnel's connection window is, exactly, with the peer, waiting to be credited, queued, held for a route, or lost |
| `RouterLost.DataLoses` | edge-peer/router.c:197-203 | STREAM_DATA loses nothing for an id with a route, and exactly its bytes for any other |
| `RouterLost.FreeLoses` | edge-peer/router.c:136-145 | freeing a route loses exactly its pending bytes, at either end |
| `RouterLost.FlushShift` | edge-peer/router.c:157-165 | a flush loses nothing |
| `RouterLost.EndedShift` | edge-peer/router.c:213-215 | nor does the end of a direction, what the FIN cuts off being still held |
| `RouterLost.RecoverableExactly` | edge-peer/router.c:136-165 | with nothing queued and nothing held, the peer can have any of the window back if and only if less than the window was lost |
| `CutOff.CreditLost` | edge-peer/router.c:136-145 | a sound state in which freeing a route loses a byte of credit |
| `Router.Router.constructor` | edge-peer/router.c:379-388 | all tunnels down, no routes |
| `Router.Router.Forward` | edge-peer/router.c:149-156 | new bytes wait behind pending ones or are written and credited; the new state is exactly the specified one, and sound |
| `RouterEnds.ForwardedSound` | edge-peer/router.c:149-156 | the specified forward conserves bytes and credit and leaves what waits owed a WRITABLE |
| `Router.Router.FlushPend` | edge-peer/router.c:157-165 | the loop of writes comes to the specified flush; what stays is owed a WRITABLE |
| `RouterEnds.FlushedSuffix` | edge-peer/router.c:157-165 | what a flush leaves pending is a suffix of what was pending |
| `RouterEnds.FlushedExactly` | edge-peer/router.c:157-165 | a flush empties the buffer if and only if it was empty or the destination could take all of it to begin with: both windows and the output buffer |
| `RouterEnds.PendingIsMissing` | edge-peer/router.c:149-165 | in every sound state nothing is pending if and only if everything delivered was accepted at the other end |
| `Router.Router.Join` | edge-peer/router.c:127-135 | exactly one route is added, in both maps, inflight included |
| `Router.Router.Free` | edge-peer/router.c:136-145 | exactly one route is removed, from both maps, inflight included |
| `Router.Router.Kill` | edge-peer/router.c:168-176 | the other end is reset and the route freed, nothing else |
| `Router.Router.Finish` | edge-peer/router.c:210-218 | one direction is flushed, the other end finished, and the route freed when both directions are done; every byte delivered was accepted before the FIN if and only if the destination could take all the pending bytes at once |
| `Router.Router.EndDirection` | edge-peer/router.c:213-215 | the new state exactly: the flush, the close and the mark; bytes stay pending behind the FIN if and only if the destination could not take them all |
| `RouterEnds.CutOffExactly` | edge-peer/router.c:213-214 | the same, said of the specified step for any state and route |
| `CutOff.ByteCutOff` | edge-peer/router.c:213-214 | a sound state in which STREAM_CLOSED is next, a byte is pending and the worker's window is 0: afterwards the worker's stream is finished, the byte is still pending, and every mux_write there is refused |
| `Router.Router.OnOpened` | edge-peer/router.c:188-196 | a worker is picked by smooth round-robin, one whose greeting has proved the token; the stream is spliced to a new one there whose SYN carries the edge's metadata, or refused when there is no worker or no stream |
| `Router.Router.OnData` | edge-peer/router.c:197-203 | STREAM_DATA from either side is forwarded along its route, behind what waits; bytes of an id with no route are dropped; splice conservation is kept |
| `Router.Router.OnWritable` | edge-peer/router.c:204-209 | WRITABLE from either side flushes the bytes waiting for that end, and nothing without a route |
| `Router.Router.OnClosed` | edge-peer/router.c:256-265 | STREAM_CLOSED flushes, finishes the other end and marks the direction; the route goes exactly when both directions are finished; no byte is cut off if and only if the destination could take all the pending ones |
| `Router.Router.OnReset` | edge-peer/router.c:219-223 | STREAM_RESET: the stream at the other end is gone from its session and the route from both maps; nothing without a route |
| `Router.Router.OnForeign` | edge-peer/router.c:271-273 | a stream opened by a worker is refused and nothing else changes |
| `Router.Router.OnHello` | edge-peer/router.c:234-238 | a tunnel is marked ready, a worker with its weight or 1 and no history, if and only if its greeting proves the token; otherwise its session is shut |
| `Auth.CheckAuth` | edge-peer/router.c:105-110 | true if and only if there is no token or the greeting carries the keyed hash of its own nonce under it |
| `Auth.SameTokenProves` | edge-peer/router.c:98-103 | a greeting built with the same token proves it once it is read, whatever was assumed before |
| `Draining.OnlyQueuedOpen` | edge-peer/router.c:185-196 | after a session is shut, as for a failed proof, the streams reported opened, whatever happens, are exactly those whose opening was queued by then |
| `Draining.ShutStep` | libmux/src/session.c:491-496 | no step of a session that drains or is dead reports a new stream |
| `Router.Router.OnCapacity` | edge-peer/router.c:239-242 | only that worker's weight changes |
| `Router.Router.Handle` | edge-peer/router.c:230-278 | one round of either event loop takes exactly the next event and does what that event calls for, stated for each kind of event: opened spliced or refused, bytes forwarded, WRITABLE flushed, closed finishes the other end, reset removes route and other end, a greeting makes ready if and only if it proves the token, capacity sets that worker's weight, the rest changes nothing |
| `Router.Router.OnStream` | edge-peer/router.c:197-223 | the same for the events of a stream |
| `Router.Router.OnTunnel` | edge-peer/router.c:234-242 | the same for the events of a tunnel |
| `RouterEvents.KilledReset` | edge-peer/router.c:168-176 | after a kill the other end's stream is gone and neither map has the route |
| `RouterEvents.ConnectedCarries` | edge-peer/router.c:188-196 | the worker's SYN carries the metadata reported by the edge, and the two streams are joined |
| `Router.Router.Teardown` | edge-peer/router.c:281-356 | every route of the tunnel is reset at its other end and freed, the others are untouched; both loops end with the map empty; the tunnel is no longer ready |
| `Router.Router.DropRoutes` | edge-peer/router.c:289-295 | the loop ends, having freed exactly the routes of the tunnel |
| `Router.Router.Reconnect` | edge-peer/router.c:367-376 | a tunnel that was down gets a new session and an empty map |
| `RouterNet.FreedOk` | edge-peer/router.c:136-145 | freeing keeps the maps of the two ends mutually inverse and inflight the size of the worker map |
| `RouterNet.JoinedOk` | edge-peer/router.c:127-135 | joining two new streams keeps them so |
| `RelayFlow.Conn.FlushToMux` | common/relay.c:288-299 | what waits goes out in order until it is gone or the stream is blocked, all of it if and only if the session can take all at once; after end of file the stream is finished once nothing waits |
| `RelayFlow.Conn.Readable` | common/relay.c:399-418 | everything read is accepted or waits, in order; reading stops only at backpressure, nothing is read while something waits, a FIN is on the wire only after end of file with every byte accepted, and a connection that is over is destroyed with every byte of either direction passed on |
| `RelayFlow.Conn.OnWritable` | common/relay.c:343-349 | the stream's WRITABLE resumes the flush; no byte is lost, and the connection does not end by it |
| `RelayFlow.Conn.Finish` | common/relay.c:409-412 | the end goes out exactly as mux_close sends it, after the last byte |
| `RelayFlow.Conn.FlushToSocket` | common/relay.c:276-287 | as many bytes as the socket takes go out in order and are credited as they go, exactly; it fails exactly when a write fails; the socket is shut if and only if it was or the stream ended, nothing waits and the read side is open, and then everything delivered was written |
| `RelayFlow.Conn.ShutDue` | common/relay.c:285-285 | the shutdown, exactly when due |
| `RelayFlow.Conn.MaybeFinish` | common/relay.c:234-239 | destroyed if and only if both ends are finished and nothing waits, and then nothing was lost |
| `RelayFlow.Conn.OnData` | common/relay.c:321-328 | the bytes of the event come after those waiting, and exactly as many as the socket takes go out; a connection whose stream ended, with nothing waiting and its read side open, is shut |
| `RelayFlow.Conn.OnClosed` | common/relay.c:329-336 | the stream is marked ended and exactly what the socket takes is written; when that is all, the socket is shut, unless the read side is at its end; the connection is destroyed exactly when it is over, every byte of either direction passed on |
| `RelayFlow.Conn.OnReset` | common/relay.c:337-342 | the connection is destroyed |
| `RelayFlow.Conn.OnSockWritable` | common/relay.c:419-428 | a writable socket is connected and takes exactly what it can of what waits, shut if that was the last of an ended stream; a connection that fails is reset, one that is over is destroyed with nothing lost |
| `RelayFlow.Conn.Elsewhere` | common/relay.c:431-457 | any other step of the session keeps both directions in order, wake-up and FIN included |
| `RelayFlow.WaitingFits` | common/relay.c:276-287 | bytes waiting for the socket never exceed the stream window |
| `PeerLaws.StreamLaw` | libpeer/src/libpeer.c:307-336 | for each registered stream of which no stream left from an earlier session has moved anything: delivered = read ++ buffered, written = accepted ++ unsent, a FIN is on the wire only after the application closed and every byte was accepted, unsent bytes are queued for work or owed a WRITABLE, and buffered bytes fit the stream window |
| `PeerLaws.StartRested` | libpeer/src/libpeer.c:392-448 | a session begun over any streams left from before satisfies the client's laws, with no id set apart |
| `Failures.OldHandleFinishesNewStream` | libpeer/src/libpeer.c:323-334 | a state in good order; closing a handle left from an earlier session sends a FIN on the new stream of the same id, whose law is then broken, and the old stream is freed, so no later state shows the clash |
| `Meddling.MeddlingExactly` | libpeer/src/libpeer.c:323-334 | a call of process_pending for a leftover stream leaves the books of the present stream with its id in order if and only if it moves nothing, told beforehand: no credit that fits on a live stream, no byte, no FIN its owner has not sent |
| `Failures.OldBytesEnterNewStream` | libpeer/src/libpeer.c:307-329 | whatever an old handle had left to send goes out on the new stream of the same id |
| `Meddling.HarmlessFlows` | libpeer/src/libpeer.c:323-334 | a call for a leftover stream that moves nothing leaves every stream of the session in order |
| `Crediting.ConsumeDiesExactly` | libmux/src/session.c:825-837 | mux_consume kills a live session if and only if the WINDOW_UPDATE frames that fall due, for the connection and then for the stream, do not fit the output buffer |
| `Meddling.WriteSomeExactly` | libmux/src/session.c:763-796 | mux_write takes a byte if and only if the stream may send, both windows are open and the first frame fits |
| `PeerDesk.TryFreedOk` | libpeer/src/libpeer.c:213-236 | a stream is freed only when it is in no pending, ready, accept or registry structure and in nobody's hands; afterwards there is no zombie |
| `PeerDesk.NoDangling` | libpeer/src/libpeer.c:213-236 | whatever is not a live stream is referenced from nowhere, so nothing is freed twice |
| `PeerClient.Client.OnOpened` | libpeer/src/libpeer.c:253-263 | a new stream enters the registry and the end of the accept queue |
| `PeerClient.Client.OnData` | libpeer/src/libpeer.c:264-271 | exactly the bytes are buffered and the reader told |
| `PeerClient.Client.OnClosed` | libpeer/src/libpeer.c:272-281 | end of file; with the FIN out the stream is done, and freed when nothing holds it |
| `PeerClient.Client.OnReset` | libpeer/src/libpeer.c:282-291 | the stream is over, and freed when nothing holds it |
| `PeerClient.Client.OnWritable` | libpeer/src/libpeer.c:292-296 | a stream with unsent bytes goes on the work list |
| `PeerClient.Client.OnHello` | libpeer/src/libpeer.c:244-252 | the session counts as authenticated if and only if the greeting proves the token; otherwise it is shut |
| `PeerClient.Client.Handle` | libpeer/src/libpeer.c:240-303 | one round of the event loop does exactly that to the structures, shows the application what NoticedHeeds says, and keeps every law |
| `PeerClient.Client.FlushWbuf` | libpeer/src/libpeer.c:307-320 | unsent bytes go out in order until none is left or the session takes no more; a waiting writer is told once there is room |
| `PeerClient.Client.FinMaybe` | libpeer/src/libpeer.c:330-334 | the FIN is sent exactly when the application has closed and nothing is left to send, with the same account |
| `PeerClient.Client.TryFree` | libpeer/src/libpeer.c:213-236 | frees exactly when allowed, and then nothing refers to the stream |
| `PeerClient.Client.Process` | libpeer/src/libpeer.c:323-336 | reads are credited, bytes sent, the FIN sent if due; no other stream is touched, and at most the stream's own id is set apart, only for a leftover stream |
| `PeerClient.Client.CreditRead` | libpeer/src/libpeer.c:324-327 | what was read is credited; the id is set apart exactly when the stream is a leftover and the call moves something of the present one |
| `PeerClient.Client.WriteOnce` | libpeer/src/libpeer.c:309-315 | one write of the unsent bytes, with the same account |
| `PeerClient.Client.RunPending` | libpeer/src/libpeer.c:323-336 | every stream on the work list is served, no other is touched, and the list ends empty; only ids of leftover streams on the list are set apart |
| `PeerClient.Client.Accept` | libpeer/src/libpeer.c:577-590 | hands over the oldest stream not yet accepted: streams are named as they are opened, and the queue ascends |
| `PeerClient.Client.Read` | libpeer/src/libpeer.c:691-711 | fails if and only if the peer's reset was taken; reports the end if and only if the peer's end was taken and nothing is buffered, and then the application has every byte delivered; asks to wait if and only if nothing is buffered and no end was taken; otherwise gives the next bytes in order, as many as there are and fit; a leftover stream never makes it wait |
| `PeerEnds.NoticedHeeds` | libpeer/src/libpeer.c:240-303 | what each event shows the application: a new stream is empty and last in the accept queue; bytes are appended and the reader told; an end is shown and told, or the stream was closed and is gone; WRITABLE puts a stream with unsent bytes on the work list; nothing else changes |
| `PeerClient.Client.WorkOwed` | libpeer/src/libpeer.c:323-336 | work owed is never lost: in every state of the client a registered stream with credit to give or a FIN due is on the work list |
| `PeerEnds.EndsEnd` | libpeer/src/libpeer.c:272-291 | taking STREAM_CLOSED or STREAM_RESET ends exactly that stream; in every state a registered stream is at its end if and only if one of them was taken for it, reset if and only if the latter, done if and only if reset or finished both ways |
| `PeerEnds.EndsFin` | libpeer/src/libpeer.c:330-334 | the FIN keeps that: with the peer's end taken the stream is done |
| `PeerEnds.EndsOpened` | libpeer/src/libpeer.c:253-263 | a stream just opened has not ended |
| `PeerEnds.EndsDown` | libpeer/src/libpeer.c:374-390 | with the session gone every stream is at its end and done, and reset unless it was finished both ways |
| `PeerClient.Client.Write` | libpeer/src/libpeer.c:713-728 | takes all the bytes in order, or none with the right refusal, also once the client is stopping |
| `PeerClient.Client.Close` | libpeer/src/libpeer.c:627-636 | the handle is given up and the stream queued for the I/O thread, so that its FIN is owed |
| `PeerClient.Client.Poll` | libpeer/src/libpeer.c:654-689 | openings first and in order; reports only of streams handed over before and not closed; with room to spare nothing stays unreported |
| `PeerClient.Client.SessionDown` | libpeer/src/libpeer.c:374-390 | every stream is ended and its reader told, lists and registry are emptied, and exactly the streams nobody needs are freed |
| `PeerClient.Client.SessionUp` | libpeer/src/libpeer.c:392-448 | a new session over the streams left from before, with no id set apart |
| `PeerClient.Client.Fileno` | libpeer/src/libpeer.c:645-652 | readiness is signalled from now on; nothing else changes |
| `PeerClient.Client.Stop` | libpeer/src/libpeer.c:557-563 | the client is stopping; nothing else changes |
| `Sha256.Context.Update` | common/auth.c:51-61 | the hashed message grows by the data, however it is split |
| `Sha256.Context.Final` | common/auth.c:63-80 | gives the fold of the compression function over the padded message, sections 5.1.1 and 6.2 of FIPS 180-4 |
| `Sha256.HashChunks` | common/auth.c:51-87 | any split into updates gives the digest of the whole |
| `Sha256.Expand` | common/auth.c:19-28 | the schedule loops compute the recurrence of section 6.2.2 of FIPS 180-4 |
| `Sha256.Mix` | common/auth.c:29-42 | the 64-round loop computes the compression function |
| `KnownAnswers.DigestOfAbc` | common/auth.c:19-87 | the digest of "abc" is the one of appendix B.1 of FIPS 180-2, so rounds, constants, schedule, padding and order of octets are the standard's |
| `KnownAnswers.HmacOfText` | common/auth.c:89-117 | the keyed hash of the text of section 4.3 of RFC 4231 under the key "Jefe" is the published one |
| `Sha256.ChBits` | common/auth.c:29-42 | each bit of Ch is the second or third argument's, as the first says |
| `Sha256.MajBits` | common/auth.c:29-42 | each bit of Maj is the majority of the three |
| `Sha256.RorBits` | common/auth.c:6-6 | bit i of a word turned right by n is bit i + n mod 32 of it |
| `Sha256.PadZerosLeast` | common/auth.c:63-69 | the padding is the shortest that leaves room for the length |
| `Sha256.Hmac` | common/auth.c:89-117 | the keyed hash of section 2 of RFC 2104, long keys hashed first |
| `Sha256.AuthProof` | common/auth.c:128-140 | the proof covers the context string and at most 256 octets of the nonce |
| `Sha256.CtEqual` | common/auth.c:119-126 | true if and only if the two are equal |

## Left out

- Theorems.MaxStreamsSound: asks that the receiver opens no stream of its own, because the cap counts the streams of both; CrossedOpens shows the refusal.
- MuxSession.MuxSession.Open: asks that the next id is not live; FreshIdsExactly says exactly when it is unused. After 2^31 opens the original would enter a second record for a live id.
- Router.Router.OnOpened: asks that workers have ids left, for the same reason.
- Router.Router.Handle: asks the same, since the next event may be an opening.
- PeerLaws.StreamLaw: is silent on an id once a stream left from an earlier session has moved something of it, because the original applies queued work by id; the law is broken by that very call, as MeddlingExactly says. Lifetime and list structure are proved for all streams.
- Keepalive.DeadPeerDetectedExactly: asks that the 64-bit clock does not wrap within the calls considered, and room for a ping; so does DefaultNeverDetects. DetectedExactly asks only for room.
- Keepalive.NoFalseAlarm: the other way a session dies in mux_on_timer, a full output buffer, is excluded by asking for room.
- RelayFlow.Conn.Readable: the results of read(2), and elsewhere those of write(2) and connect(2), are parameters; connections are one at a time.
- Allocation is taken to succeed; out-of-memory branches are not modelled.
- Windows and current weights are unbounded integers; overflow of their 64-bit types is not modelled.
- Byte FIFOs of the hosts (`buf_t`) are sequences; the growth of their arrays is not modelled.
- Router tables and the client registry appear in the hosts as maps; UMap shows that the arrays behave as such maps.
- The client's intrusive lists are sequences of stream names; the doubly linked list of all streams is a map.
- The event loops of router and client are modelled one event at a time, and a session's output, input and timers as separate steps.
- Blocking waits, condition variables, wake-up pipes and the joining of the client's thread; each call is one step under its mutex, taken once it need not wait.
- Readiness bits of lp_poll are not kept apart: a stream is reported ready or not.
- Edge streams are routed whether or not the edge is ready, as in the original; the relay's own check of a proof is not modelled.
- The relay's dirty list and interest masks, and its listening side.
- Sockets, polling, name resolution, signals, process supervision, the Python binding, examples and load generators.
- The working variables of SHA-256 are a record and not an array; bit length is taken modulo 2^64 as in the original.
- Cryptographic strength, and the timing of ct_equal.
