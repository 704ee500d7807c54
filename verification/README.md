# A model of the Echo Proxy tunnel, with proofs

Echo Proxy carries many local connections over one WebSocket. A client process gives each
accepted connection an id, sends OPEN, waits for OPEN_ACK, and then copies bytes both ways in
DATA frames until CLOSE. This project models both processes as one transition system, step by
step as their tasks can be preempted, and proves what holds in every reachable state, on every
run and under every interleaving. `dafny verify dfyconfig.toml` checks all of it.

## How the model is laid out

| file | what it holds |
|---|---|
| `Basics`, `Numbers`, `Utf8` | bytes, decimal numbers, strict UTF-8 with both round trips |
| `Frames` | the frame codec |
| `History` | what a sequence of frames says about one stream: its stage, its data, the order of OPENs and acks |
| `Pipes` | one direction: bounded frame channel (128), writer loop with the frame in its hand, wire |
| `Streams` | one process's receiving side: registry, bounded channels (32), the reader's parked chunk, write tasks |
| `Registry` | the registry and its channels as objects, each method proved to act as `Streams` says |
| `Tunnel` | the session: handlers, relays, write tasks, writers, readers, `handle_open` inside the server's reader |
| `TunnelInvariant` | the invariant of that system and its preservation by each group of steps |
| `TunnelEnds`, `TunnelDestinations` | two further invariants: how write tasks end, and which destinations the server registers |
| `TunnelSafety` | delivery, conservation, grammar, acknowledgements, verdicts, registries, memory |
| `TunnelHalfClose` | what is lost on a stream that this side closes first, and exactly when |
| `Totals`, `TunnelDrain`, `TunnelProgress` | the measure that every step without input decreases; what a stuck session looks like and what a drained one has delivered |
| `TunnelScripts`, `TunnelJam` | pieces of runs written out; runs that jam a session, and exactly when there are any |
| `TunnelShutdown`, `TunnelTeardown` | what becomes of a session that has lost a writer or a reader; what a sweep of a registry does, for good |
| `ByteTunnel` | the same session with encoded messages on the wire |
| `Keeper`, `World` | the reconnect keeper with its back-off; any number of sessions and handlers holding snapshots of them |
| `Tokens` | HELLO gate and the shared token set under concurrent `/control` and `/mux` connections |
| `Socks5`, `HttpFields`, `HttpHeader` | the two parsers that decide which bytes enter the tunnel, and what Host and Content-Length lines say |
| `HostNames`, `HostMatch` | cutting names at colons and dots; routing rules, given meaning by label lists |

A session is a value; an action is one atomic step of one task (`Can` is its guard, `Do` its
effect); a run is a sequence of actions; `Reachable` means at the end of some run. Three details
of the source are kept because the hard properties turn on them. `route` clones the sender
under the lock and waits outside it, so a reader can be parked on a channel that is no longer in
the registry. A channel whose senders are gone is still drained before its receiver sees the
end. Write tasks outlive the relay that spawned them. Every frame ever queued and every frame
ever read is kept in a history, and the statements below are about those histories.

The wire holds at most `wireCap` frames and is reliable and in order until a writer fails or a
reader leaves. Sockets are arbitrary: a read yields any chunk of 1 to 8192 bytes or the end, a
write may take any number of bytes or fail, a connect may succeed or fail, an ack may time out
at any moment.

The parsers, the registry, the keeper, the token store and the frame encoder change variables
step by step in the source; they are methods with loops here, proved against functions, and the
promises are proved about those functions.

## What came out

* A stream whose peer has sent CLOSE, that this side has not removed before, and whose socket refused
  nothing, ends complete: the socket has every byte ever sent on it, which while the peer's writer
  lives is every byte the peer's relay read (`TunnelSafety.CompleteDelivery`).
* A half-close loses data. When a local socket reports its end, the relay sends CLOSE and removes the
  stream from its own registry (client/src/lib.rs:493-494, server/src/lib.rs:308-309), and DATA that
  arrives later is dropped without an error, though the write task could still deliver it.
  `TunnelHalfClose.HalfCloseLoses` gives a run, for every wire of positive capacity and every allowed
  destination, in which a client gets nothing of an answer that the server read, sent and closed.
  `TunnelHalfClose.CompleteForeverIff` gives the exact condition: such a stream is sure to end complete
  exactly when the peer's relay has read its last byte and produced nothing that had not been accepted
  by then.
* Sessions made of CONNECT and SOCKS5 streams cannot deadlock: with live writers and readers, any
  state in which something is on its way has an enabled step, and without new input every schedule
  of steps, acks timing out at any moment included, ends with all queues empty, every OPEN answered
  and, on every stream neither removed here nor refused by its socket, every byte delivered.
* Sessions with a plain HTTP stream can deadlock. Such a stream queues its request as a first DATA
  frame before its write task exists (client/src/lib.rs:1200-1217). If the upstream talks first,
  the client's reader can park on that stream's full channel while the handler waits for room in a
  frame channel that only drains when the server's reader moves, which itself waits to queue an
  ack towards the parked client. `TunnelJam.JamCondition` shows that this is reachable on a plain
  stream exactly when the server allows its destination and its request is within the header
  limits, on a wire of any positive capacity. `TunnelProgress.StuckMeansDrainedOrJammed` shows that
  it is the only way a live session gets stuck, `TunnelProgress.JamIsForever` that it lasts until a
  WebSocket write fails, and `TunnelShutdown.EveryShutdownEnds` that no jam outlives the session.
* Back-off never grows over failed `/mux` connects: a token resets it, so each failed connect is
  followed by 500 ms and a failed HELLO by no delay at all (`Keeper.TokenResetsBackoff`).
* A Content-Length beyond 64 MiB is refused only as long as it fits a `usize`; a longer number does
  not parse and counts as 0 (`HttpFields.DecimalLength`).
* `split_host_port` gives back the host of a SOCKS5 request exactly when the name has no bracket at
  its edges (`Socks5.SplitGivesBack`).

## Model

| member | source | states |
|---|---|---|
| TunnelSafety.DeliveryIsPrefix | client/src/lib.rs:458-496 | In every reachable state, on either side, the bytes written to a stream's socket are a prefix of the bytes put into that stream's DATA frames by the peer, and of what the peer's relay produced: no reordering, no gap, nothing from another stream |
| TunnelSafety.Conservation | core-lib/src/session.rs:42-64 | While the sender's writer lives, on every stream that this side has not removed, whose handler has not given it up and whose socket has refused nothing, bytes sent are exactly bytes written plus, in order, the rest of the chunk in hand, the channel, the parked chunk, the wire, the writer's hand and the frame channel; neither the peer's CLOSE nor the end of the write task disturbs this |
| TunnelSafety.CompleteDelivery | client/src/lib.rs:467-496 | When the write task of such a stream, not removed by this side, has ended, the peer has closed the stream and the socket has every byte ever sent on it, whatever became of the session since; while the peer's writer lives that is every byte the peer's relay read |
| TunnelHalfClose.HalfCloseLoses | client/src/lib.rs:486-495 | For every wire of positive capacity, every id and every allowed destination there is a run in which the client ends its side first and, with both sides closed, all sent data read off the wire and no socket failure, its socket has nothing of what the server's relay read |
| TunnelHalfClose.RemovalKeeps | client/src/lib.rs:493-494 | When a relay removes its stream, the channel has accepted exactly the data read off the wire for it so far |
| TunnelHalfClose.RemovedGetsNoMore | core-lib/src/session.rs:54-64 | On every continuation the socket of a removed stream gets that and nothing more: all of it when the write task ends in peace, a prefix if a write fails |
| TunnelHalfClose.CompleteIff | client/src/lib.rs:467-495 | A removed stream whose write task has ended in peace is complete exactly when the peer's relay produced no byte beyond what had been accepted here |
| TunnelHalfClose.CompleteForeverIff | client/src/lib.rs:475-495 | A removed stream with a peer relay ends complete on every continuation exactly when the peer's relay has read its last byte and produced nothing beyond what had been accepted here |
| TunnelEnds.ReachableEnds | client/src/lib.rs:467-473 | In every reachable state a relayed stream's write task has ended only after a failed socket write or with every sender gone; on a stream that the peer's CLOSE has taken out of the registry, not this side, only with every chunk written, and nothing is ever parked for such a stream |
| TunnelDestinations.OnlyPermitted | server/src/lib.rs:266-277 | Every stream the server ever registers or relays is for the destination that stream's own handler asked for, and the destination filter allows it |
| TunnelSafety.SentIsFed | client/src/lib.rs:475-491 | What a relay has read and what it has put into DATA frames differ by at most the one chunk it is waiting to queue |
| TunnelSafety.EndedRelayHasClosed | client/src/lib.rs:475-496 | A relay that has finished while its writer lives has queued every chunk it read and then CLOSE as the stream's last frame |
| TunnelSafety.RequestGoesFirst | client/src/lib.rs:1200-1217 | What reaches the upstream of a plain HTTP stream starts with its headers and body |
| TunnelSafety.NoRegistrationRace | server/src/lib.rs:273-277 | Whenever a reader takes DATA(id) off the wire its side has registered id, and the sender is still in the registry unless that side's own task closed it or all streams were cleared |
| TunnelSafety.OwnerClosedMeansDone | client/src/lib.rs:493-495 | A stream removed by its own task belongs to a relay that has taken its last step or to a handler that has given up |
| TunnelSafety.StageMeansGrammar | server/src/lib.rs:266-318 | The stage automaton the invariant uses accepts exactly the prefixes of OPEN_ACK(false), or of OPEN or OPEN_ACK(true), DATA*, CLOSE, the order in which a relay and its opening queue frames |
| TunnelSafety.FrameGrammar | client/src/lib.rs:1157-1217 | On every run the frames either side queues for a stream are a prefix of that grammar, the client's with OPEN and the server's with OPEN_ACK at the head |
| TunnelSafety.NothingBeforeAck | client/src/lib.rs:606-654 | The client queues no DATA and no CLOSE on a stream before its reader has read OPEN_ACK(id, true) |
| TunnelSafety.AcksInOrder | server/src/lib.rs:244-253 | The ids of the acks the client has read are a prefix of the ids of the OPENs it wrote, whatever mix of connects fails; no stream is opened twice; while the server's writer lives every OPEN it has read is answered once or is the one being handled |
| TunnelSafety.OpensAreOnce | client/src/lib.rs:1162-1172 | A history that keeps the grammar for all ids opens each id at most once |
| TunnelSafety.VerdictIsSound | client/src/lib.rs:318-322 | A handler is told ok only if the server of the same session registered the stream and acknowledged it |
| TunnelSafety.AcceptedNeedsVerdict | client/src/lib.rs:1174-1217 | A handler past its verdict was told ok |
| TunnelSafety.SlotIsEmpty | client/src/lib.rs:318-322 | The one-shot ack channel is empty whenever the reader sends into it |
| TunnelSafety.VerdictStays | client/src/lib.rs:318-322 | A verdict once sent never changes on any continuation |
| TunnelSafety.ClearedWaitersFail | client/src/lib.rs:881-884 | Clearing the pending acks, by the reader or by the keeper, makes every waiter with an empty slot fail on every continuation: it never reports success and no tunnel byte reaches its socket |
| TunnelSafety.ReplyComesFirst | client/src/lib.rs:642-654 | Tunnel bytes reach a local socket only after the success reply (a plain request has none) |
| TunnelSafety.SilenceMeansUnsent | client/src/lib.rs:1162-1190 | A handler that leaves without a reply had been told ok, or never queued a frame; so every refusal is passed on |
| TunnelSafety.UnsentReply | client/src/lib.rs:1162-1172 | A handler that never queued a frame reports the failure if it is a SOCKS5 one, and says nothing if it is an HTTP one |
| TunnelSafety.SentReply | client/src/lib.rs:1174-1190 | With its OPEN queued, a handler that returns without having been told ok reports the failure, whatever its kind |
| TunnelSafety.OkIsNeverFailure | client/src/lib.rs:642-654 | Once past an ok verdict a handler relays or goes silently, on every continuation |
| TunnelSafety.RegistryHasOwners | client/src/lib.rs:1157-1217 | Every id in the client's registry belongs to a handler between its register and its last close, every id in the server's to an open being acknowledged or a relay before its last close |
| TunnelSafety.IdleRegistryIsEmpty | core-lib/src/session.rs:42-69 | A side with no live handlers or relays has an empty registry |
| TunnelSafety.MemoryBound | core-lib/src/session.rs:42-46 | A client stream channel holds at most 262144 bytes, a server one at most 67174400 + 31 * 8192, a frame channel at most 128 frames, in every reachable state |
| TunnelSafety.LimitsInNumbers | core-lib/src/session.rs:42-46 | The capacities and sizes of the model are 128 frames, 32 chunks, 8192 bytes a read and 67174400 bytes for a first request |
| TunnelSafety.WriterSeesEnd | server/src/lib.rs:232-241 | A writer leaves its loop in peace exactly when its channel is empty and every task that held a sender is done |
| TunnelSafety.WriterFailsOnly | server/src/lib.rs:232-241 | Nothing else takes a writer out of its loop but a failed send |
| TunnelInvariant.RunKeeps | server/src/lib.rs:203-319 | The invariant of both processes survives every run |
| TunnelInvariant.ReachableOk | client/src/lib.rs:304-335 | Every reachable state satisfies the invariant |
| TunnelInvariant.Cross | server/src/lib.rs:244-263 | How far a stream has come on one side bounds how far it is on the other |
| TunnelSafety.WireIsFaithful | core-lib/src/session.rs:14-17 | In every reachable state what a reader has taken is a prefix of what its peer queued, writer broken or not, and while that writer lives the rest is on the way in order |
| Streams.WrittenIsPrefix | client/src/lib.rs:467-473 | What a write task has put on its socket is a prefix of the data read off the wire for that stream |
| Streams.TaskMoves | client/src/lib.rs:467-473 | A write task neither drops nor reorders chunks while it lives, and keeps a prefix of them when it stops |
| TunnelDrain.StepCosts | client/src/lib.rs:458-496 | Every step of either process other than new input strictly decreases one measure of the whole session |
| TunnelDrain.QuietRunsEnd | client/src/lib.rs:458-496 | A run without new input is no longer than that measure |
| TunnelProgress.StuckMeansDrainedOrJammed | client/src/lib.rs:1157-1217 | A live session without an enabled step has empty queues, every OPEN answered and every task waiting for input, or is jammed by a plain HTTP stream in the one way described |
| TunnelProgress.JamIsForever | client/src/lib.rs:1200-1217 | A jam persists over every run in which no WebSocket write fails, and no frame is read again |
| TunnelProgress.NoDeadlock | client/src/lib.rs:606-654 | A live session of CONNECT and SOCKS5 streams that is not drained has an enabled step |
| TunnelProgress.EveryScheduleDrains | client/src/lib.rs:606-654 | In such a session every schedule of steps, with acks timing out and local sockets refusing replies or chunks at any moment, is bounded and can stop only with all queues empty and, on every stream neither removed by its receiving side nor refused by its socket, every byte sent, and every byte the peer's relay read, on the socket |
| TunnelProgress.StandstillHasDelivered | client/src/lib.rs:458-496 | A live session that stands still has delivered everything in that sense, in both directions, or is jammed |
| TunnelProgress.HopsSuffice | client/src/lib.rs:1157-1217 | From every reachable live state internal steps alone lead to a drained session that has delivered everything, or to a jammed one if it has a plain stream |
| TunnelJam.PlainStreamCanJam | client/src/lib.rs:1200-1217 | For every wire of positive capacity, every request within the limits and every destination the server allows, a session jammed on that stream is reachable |
| TunnelJam.JamCondition | client/src/lib.rs:1200-1217 | It is reachable exactly then |
| TunnelShutdown.HaltedIsClean | client/src/lib.rs:304-335 | A session that has lost a writer or a reader and has nothing left to wind down has every handler relaying or returned, nobody parked, all stream channels and both frame channels empty, and registers only streams whose relay still reads a live socket |
| TunnelShutdown.EveryShutdownEnds | client/src/lib.rs:1174-1190 | However such a session is wound down, whatever else fails on the way, it takes a bounded number of steps and can stop only in such a state |
| Frames.EncodeFrame | core-lib/src/frame.rs:46-83 | The buffer filled step by step has the type byte 0x10, 0x01, 0x02, 0x03 or 0x04, the id with the most significant byte first (0 for HELLO) and the payload, status 0 for ok and 1 for failed; it decodes to the frame |
| Frames.DecodeInNumbers | core-lib/src/frame.rs:85-121 | Every message is decoded by those numbers, and the errors are exactly for what is too short, of another type, or not text |
| Frames.DecodeEncodeFrame | core-lib/src/frame.rs:85-121 | Decoding the encoding of any frame gives the frame back |
| Frames.EncodeInjective | core-lib/src/frame.rs:46-83 | Different frames have different encodings |
| Frames.ReencodeIffCanonical | core-lib/src/frame.rs:85-121 | A message that decodes is the encoding of its frame exactly when it is canonical: HELLO id zero, OPEN_ACK of length 6 with status 0 or 1, CLOSE of length 5 |
| Utf8.DecodeEncode | core-lib/src/frame.rs:53-61 | Every string survives the trip through bytes |
| Utf8.EncodeDecode | core-lib/src/frame.rs:93-104 | Bytes accepted as UTF-8 are exactly the bytes of the string they give |
| Utf8.EncodeCharInTable | core-lib/src/frame.rs:53-61 | Characters are encoded as the table of RFC 3629, section 3, says |
| ByteTunnel.StepRefines | client/src/lib.rs:310-330 | With encoded messages on the wire exactly the same steps are possible, with the same outcome |
| ByteTunnel.RunsRefine | server/src/lib.rs:244-263 | Byte level and frame level have the same runs and reach the same states |
| ByteTunnel.NoCatchAll | client/src/lib.rs:317-330 | Every message on a wire decodes, canonically, to a frame its reader has an arm for: the catch-all arms are dead between two such processes |
| Registry.StreamRegistry.Register | core-lib/src/session.rs:42-46 | A fresh channel replaces whatever the map held for the id |
| Registry.StreamRegistry.Route | core-lib/src/session.rs:54-59 | A chunk goes to the stream's channel, or is dropped without an error if there is none or its receiver is gone; while the channel is full the call waits, and it returns at the first turn of the write task that makes room or ends, the same as the steps of a parked reader |
| Registry.WaitIsSteps | core-lib/src/session.rs:54-59 | A waiting send is exactly a sequence of steps of a write task and a parked reader |
| Registry.WaitOk | core-lib/src/session.rs:49-59 | However long a send waits, every channel keeps to the data read off the wire, in order and without a gap |
| Registry.StreamRegistry.Close | core-lib/src/session.rs:62-64 | The sender leaves the map, the channel and its queue stay |
| Registry.StreamRegistry.CloseAll | core-lib/src/session.rs:67-69 | The map is empty afterwards; every channel ever handed out keeps its queue, its write task and what it has written |
| Streams.UnlinkAllMeans | core-lib/src/session.rs:67-69 | The same of the values: an empty registry, channels unchanged but for how their sender left |
| TunnelTeardown.SweepEmpties | server/src/lib.rs:240 | A sweep by a reader, a writer or the keeper empties that side's registry and touches no queue and no write task |
| TunnelTeardown.ReaderExits | client/src/lib.rs:331-335 | A reader loop ends only by sweeping its streams, and the client's then by clearing the pending acks |
| TunnelTeardown.WriterExits | server/src/lib.rs:232-241 | A writer loop ends only by sweeping its streams after it has left its loop |
| TunnelTeardown.ClearReleases | client/src/lib.rs:879-884 | Clearing the acks unblocks every waiting handler at once: it can take its verdict in the next step |
| TunnelTeardown.SweptStaysOut | client/src/lib.rs:332 | On every continuation of a sweep the streams it met stay out of the registry |
| TunnelTeardown.ReadCloseIsOut | core-lib/src/session.rs:62-64 | A reader that has read CLOSE has taken the stream out of the registry, in every reachable state since |
| TunnelTeardown.OutHasStopped | client/src/lib.rs:467-473 | Where a live session stands still without being jammed, or a dead one has been wound down, the write task of every relayed stream that is out of the registry has ended |
| Registry.DataChannel.Send | core-lib/src/session.rs:54-59 | A send waits exactly when a live receiver's queue holds 32 chunks |
| Registry.DataChannel.Drain | client/src/lib.rs:467-473 | A closed channel is still drained: the socket gets all queued bytes, or as many as it accepts before it fails |
| Keeper.MuxKeeper.Run | client/src/lib.rs:975-1088 | The keeper's loop, for any outcome of each await, goes through the states of the keeper's state machine; over an outage of n failed requests it has waited 500, 1000, 2000, 4000, 8000, 16000 and then 30000 ms each, n times in all, and is requesting again |
| Keeper.RequestFails | client/src/lib.rs:983-995 | A failed request is followed by the next delay of that list; a shutdown during it ends the keeper, anything else has it request again |
| Keeper.TokenThen | client/src/lib.rs:984-1041 | A token leads to a connect, a failed connect to a wait of 500 ms, a failed HELLO to a new request at once, and both succeeding to a newly published session |
| Keeper.DisconnectThen | client/src/lib.rs:1073-1086 | A disconnect takes the published session away and starts over, a shutdown takes it away and ends |
| Keeper.OutagePlays | client/src/lib.rs:981-996 | An outage from any requesting state adds exactly one wait per failure, with the delays of the list, and publishes nothing |
| Keeper.WaitsAreFailures | client/src/lib.rs:981-1019 | On every run the waits since the start or the last token are as many as the requests and connects that failed since |
| Keeper.DelayTable | client/src/lib.rs:868-870 | The delays in numbers |
| Keeper.MuxKeeper.ObtainToken | client/src/lib.rs:981-996 | The token loop ends with a token or with the shutdown signal, in the state the state machine is in then |
| Keeper.MuxKeeper.Establish | client/src/lib.rs:998-1044 | Connecting, HELLO and publication, with the retries of each |
| Keeper.MuxKeeper.TakeAndClose | client/src/lib.rs:1073-1086 | The published session is taken and closed, and the keeper starts over or returns |
| Keeper.BackoffClosedForm | client/src/lib.rs:976-1031 | On every run the k-th wait since the start or the last token is min(500 * 2^k, 30000) ms |
| Keeper.TokenResetsBackoff | client/src/lib.rs:984-1031 | A failed connect is always followed by 500 ms, a failed HELLO by no delay |
| Keeper.PublishStep | client/src/lib.rs:1037-1086 | A published session leaves the shared slot only by being taken, and none is published while one is there |
| Keeper.PublishedOnlyWhileWatched | client/src/lib.rs:975-1088 | On every run a session is published only while the keeper watches it or is about to take it |
| Keeper.PlayOk | client/src/lib.rs:975-1088 | The loop, whatever its awaits return, keeps the back-off and publication rules |
| World.OnePublishedSession | client/src/lib.rs:975-1088 | Over any number of reconnects at most one session is published, it is the newest, all earlier ones have been taken and closed, and nothing is published in any other phase or after the keeper has returned |
| World.OnlyOwnSession | client/src/lib.rs:1127-1140 | Frames, acks and ack slots of a stream exist only in the session its handler took a snapshot of |
| World.AcceptedIsServed | client/src/lib.rs:948-957 | Accepted connections get the ids 1, 2, 3 and so on, and in whichever session its handler ends up it has the kind and destination that were accepted |
| World.SnapshotKeeps | client/src/lib.rs:1127-1140 | A handler finds exactly the published session, joins it as the accepted connection, and changes no other session's promises |
| World.OnlyDeadIsTaken | client/src/lib.rs:1072-1078 | Without a shutdown the keeper takes a session away only after its writer or its reader has ended |
| World.ClosingActs | client/src/lib.rs:881-884 | Closing clears that session's pending acks, then its registry, then lets it go |
| World.ClosedIsReleased | client/src/lib.rs:1074-1083 | The keeper holds on to no session it has closed |
| World.SessionsAreReachable | client/src/lib.rs:897-973 | Every session of such a world is a reachable session, so all of the above holds for it |
| Tokens.HelloGate | server/src/lib.rs:207-219 | The gate skips pings and takes the token of the first other message if that is a HELLO with one |
| Tokens.HelloPasses | client/src/lib.rs:247-251 | A client's HELLO brings its token to the store whatever pings come first |
| Tokens.GateIff | server/src/lib.rs:207-219 | A token gets through exactly as the token of a HELLO with nothing but pings before it |
| Tokens.TokenConservation | server/src/lib.rs:193-225 | Under every interleaving issued tokens are the disjoint union of stored and spent ones, and every spent token started exactly one session |
| Tokens.UnspentIsAdmitted | server/src/lib.rs:221-225 | A HELLO is admitted exactly when its token was issued and not spent |
| Tokens.PresentedIsConsumed | server/src/lib.rs:207-225 | The token a connection presents is the one looked up and spent, whatever other connections do in between |
| Tokens.DrawnIsTold | server/src/lib.rs:193-198 | The token a connection draws is the one stored and the one its client is told |
| Tokens.TokenStore.Insert | server/src/lib.rs:193-194 | A drawn token enters the shared set as the service's insertion, and issued stays the disjoint union of stored and spent |
| Tokens.TokenStore.Remove | server/src/lib.rs:221-225 | One step looks the token up and takes it out: a session starts on it exactly when it was issued and not spent before, and the service's invariant is kept |
| Socks5.Connection.ParseRequest | client/src/lib.rs:511-577 | For any input and a peer that breaks after any number of bytes: the request is returned exactly when a handshake stands at the start of the input and the method answer could be written, exactly its bytes are read, never more than 519, and what reaches the peer is the answer, as far as the peer takes it; for a handshake followed by any payload the returned string has its port behind the last colon and before it the four address bytes as decimal labels in order, the printed IPv6 address in brackets, or the domain's own bytes |
| Socks5.TargetSays | client/src/lib.rs:549-576 | The string of a handshake says exactly that |
| Socks5.HandshakeLayoutInNumbers | client/src/lib.rs:513-575 | The bytes of a handshake are those of RFC 1928, sections 3 to 5, given as numbers: version 5, command 1, address types 1, 3 and 4, port with the more significant byte first |
| Socks5.AnswerInNumbers | client/src/lib.rs:500-570 | The answers are those of sections 3 and 6, byte by byte, for every input |
| Socks5.Connection.Negotiate | client/src/lib.rs:513-535 | NO_AUTH is chosen exactly when it is offered and the peer takes the answer |
| Socks5.Connection.ReadRequest | client/src/lib.rs:537-576 | Behind an accepted greeting: the request is returned exactly when it is complete and served, exactly its bytes are read, and an unsupported command or address type gets its own reply |
| Socks5.AcceptsHandshake | client/src/lib.rs:511-577 | Every well-formed greeting with NO_AUTH and CONNECT request, followed by any payload, is recognised with its exact length |
| Socks5.OnlyHandshakes | client/src/lib.rs:511-577 | Whatever is accepted is a well-formed handshake and its own bytes are what was consumed |
| Socks5.SplitGivesBack | client/src/lib.rs:579-589 | Splitting the parser's result gives back the port always, and the host exactly when it is not a domain with a bracket at its edge |
| Socks5.SplitMeans | client/src/lib.rs:581-589 | For every string: cut at the last colon and trimmed of brackets, with port 80 when there is no colon or no 16-bit number behind it |
| Socks5.TrimMeans | client/src/lib.rs:584 | Trimming takes brackets only, from the edges only, and all of them |
| Numbers.ParseDecimal | client/src/lib.rs:583 | Printing and parsing a number are inverse up to the type's limit |
| Numbers.ValueFront | client/src/lib.rs:583 | Digits count as decimal, most significant first |
| Numbers.DigitsInText | client/src/lib.rs:583 | The digits are 0 to 9 and stand for their numbers |
| Numbers.ParseMeans | client/src/lib.rs:841-847 | What parses as an unsigned number is digits, an optional plus in front, up to the limit, and nothing else |
| HttpHeader.ParseRequestHeader | client/src/lib.rs:814-864 | For any input: a request is returned exactly when all lines up to the first blank one are text, fit in 65536 bytes, declare no oversized body, and the body is there; then headers and body are a prefix of the input; the host is the value of the last Host line, in any letter case and with any white space around it, with port 80 added if it has no colon; the body is as long as the last Content-Length says and at most 67108864 bytes; the loop ends |
| HttpFields.NamesMeans | client/src/lib.rs:830-841 | A line is a Host or Content-Length line exactly when it starts with that name and colon, in any letter case |
| HttpFields.SpaceTable | client/src/lib.rs:833-843 | What `trim` takes for white space is exactly the 25 code points of the Unicode property |
| HttpFields.LastHostSays | client/src/lib.rs:830-840 | The host of a list of header lines is what its last Host line says |
| HttpFields.LastLengthSays | client/src/lib.rs:841-851 | The length is the number its last Content-Length line says, 0 if that is no 64-bit number |
| HttpHeader.ServedInNumbers | client/src/lib.rs:826-851 | The limits are 65536 bytes of headers and 67108864 bytes of body, declared in any line |
| HttpHeader.HeaderStops | client/src/lib.rs:820-855 | The headers end with the first CRLF-only line, or with the input when there is none |
| HttpHeader.LinesReadBack | client/src/lib.rs:820-855 | Any list of header lines followed by a blank one is read back line by line, whatever follows |
| HttpFields.LastOneCounts | client/src/lib.rs:831-851 | Of several Content-Length or Host lines the last one counts |
| HttpFields.NoneCounts | client/src/lib.rs:815-817 | Without such lines there is no body and no host |
| HttpFields.DecimalLength | client/src/lib.rs:841-851 | A decimal Content-Length has its value up to the largest usize and counts as 0 beyond, and is refused exactly between 64 MiB and there |
| HttpFields.TrimIsEnough | client/src/lib.rs:832-847 | The two trim_end_matches calls after trim never change anything |
| HttpHeader.RequestFits | client/src/lib.rs:1201-1202 | Headers and body together stay within the 67174400 bytes the tunnel's memory bound uses |
| HostMatch.MatchesByLabels | client/src/lib.rs:82-97 | A rule *.s matches exactly the names whose label list properly extends that of s, a plain rule exactly its own name, each only on its port |
| HostNames.BelowMeans | client/src/lib.rs:90-93 | Ending with a dot and a name is the same as having a label list that properly extends the name's |
| HostMatch.ContainsMeans | client/src/geosite.rs:61-64 | A keyword rule matches exactly the names that have the keyword somewhere in them |
| HostMatch.PatternWithPort | client/src/lib.rs:66-80 | A number behind the last colon is the rule's port up to 65535, and part of the host beyond |
| HostMatch.PatternWithoutPort | client/src/lib.rs:66-80 | Without a colon a rule holds for every port |
| HostMatch.DomainRuleByLabels | client/src/geosite.rs:65-72 | A GeoSite domain rule matches exactly the names whose label list ends with that of its value |
| HostMatch.RoutesByLabels | client/src/lib.rs:123-152 | The whole routing decision in terms of labels: a proxy rule overrides everything, then bypass, GeoSite and address ranges decide |

## Left out

- TLS, WebSocket framing with its message-size limits, pings and real sockets: a wire is a reliable sequence of frames that can be cut, a socket an arbitrary source or sink.
- Fewer than 2^32 - 1 connections are accepted in one process: ids are then unique and `fetch_add` does not wrap.
- Cancellation of a whole server session by its `shutdown` channel, and the process around a session (`serve`, `accept_connection`, both `main.rs`, configuration, logging).
- Cleanup the code does not do: after an ack timeout the pending entry stays until a late ack or the end of the session, no CLOSE is sent, and the server's relay may outlive the handler. Only safety is stated for these.
- The non-resilient client (`run_proxy`, `handle_via_mux`): its handlers take the steps of the resilient ones without the timeout, so safety carries over; that its waiters are ever released is not claimed.
- TunnelProgress.NoDeadlock: assumes live writers and readers, sockets that accept writes and connects that return; a timeout is always possible and is not needed for it.
- TunnelJam.JamCondition: a wire of capacity 0 carries nothing and is not counted as live.
- TunnelShutdown.HaltedIsClean: a writer whose peer has left its loop is taken to fail, and a reader whose peer has stopped writing to see the end, sooner or later; how long the network takes is not modelled.
- TunnelSafety.MemoryBound: counts what the channels hold; the chunk a task has in its hand and the parked chunk come on top.
- Plain byte streams across the HTTP parser: what its `BufReader` read past headers and body is discarded by the source, so a relay's input starts as a stream of its own and no prefix of the raw local input is claimed across that point.
- How a request becomes a kind of stream (`CONNECT ` at the start of the headers, the destination string): a handler arrives with its kind and destination.
- `handle_direct`, `relay_tcp` and `handle_socks_direct`: plain copying without the tunnel.
- `is_dest_allowed` and `is_public_ip`: an opaque predicate on destinations, since they rest on the standard library's address classes.
- Version and user checks of `process_control`: a `/control` connection is modelled from the point where it draws a token.
- Tokens.HelloPasses: UUID formatting is opaque, what is printed parses back; generated UUIDs are assumed fresh.
- HostMatch.RoutesByLabels: names and rules are lower case already; exact and keyword GeoSite rules stay string comparisons, regular expressions and address ranges are opaque predicates, and the loading of GeoSite and GeoIP files is not modelled.
- Socks5.SplitGivesBack: IPv6 text comes from an opaque printer of which it asks that it prints something without edge brackets.
- TunnelHalfClose.CompleteForeverIff: asks for a relay on the other side, which a removed stream of the client always has; whether a handler that is still waiting for its ack will ever relay depends on the whole session and is not decided.
- Frame buffers and maps are sequences and maps reassigned by the methods; capacity and sharing of Rust's vectors are not modelled.
