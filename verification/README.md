# TunnelMate data plane, in Dafny

TunnelMate exposes a service behind NAT through a broker. A client (or, on a closed tunnel, an authenticated peer) connects to the broker; the agent next to the service dials in over TLS; broker and agent each pair two legs and relay octets both ways. This project models the C data plane and proves what it promises, in five groups:

1. **The TCP relay and its write queues.** `Tcp`, `Tls` and `Legs` are the write sides of the two kinds of leg; `TcpIo` and `TlsStream` are the same legs over their real arrays, each method proved equal to its specification. `RelayState`, `Relay` and `RelayLaws` are the relay, one model for the broker's and the agent's code with the differences marked by a role. `Tunnel` joins the two relays by FIFO channels into whole runs, as a step relation and the program that follows it; `TunnelLaws` are laws about runs, `TunnelRuns` the runs in which the code fails.
2. **Framing and role handoff.** `Frames` is the frame and envelope codec and the incremental reader; `Handoff` is the connection that is frames up to one frame and raw octets from then on.
3. **The UDP plane.** `Datagrams` is the bounded queue of length-prefixed envelopes; `UdpFlows` is the translation of flow ids at the peer, the broker and the agent; `UdpSystem` joins the three over a network that loses, repeats and reorders.
4. **The JSON codec.** `Json` and `JsonStrings` specify printing and parsing; `JsonStringCode`, `JsonParser` and `JsonPrinter` are the loops of the code proved against them; `JsonRoundTrip` and `JsonCodec` prove the round trip.
5. **Registry and listener.** `Registry` is the port allocator and the tunnels that hold ports; `Listener` is the asynchronous close with deferred restart and deferred free.

`dafny verify dfyconfig.toml` checks everything.

## How the model is built

**Callbacks.** The C code is single-threaded and re-entrant: a write into a leg can call the owner's low-water or error callback before it returns, and that callback writes again. A leg function of the model returns at its callback and names it (`Fired`), together with what the leg still has to do (`Cont`). `Relay.Dispatch` runs the callback at that point, so `FlushPend`, `Dispatch`, `Proceed`, `Low`, `Error`, `EndOf` and `PassFin` are mutually recursive exactly as in C; their termination is proved.

**Environment.** The results of `SSL_write` and of socket writes are scripts inside a leg's state (an exhausted script answers WANT, or success); completions, reads, ends of input (also repeated ones), errors, aborts, binds and connects are events that may come in any order. A run returns its whole trace, and each state follows from the one before by the step relation of its event. What is proved for every script and every event sequence holds for every behaviour of OpenSSL and libuv in a finite run.

**Histories.** Fields marked as history (`fed`, `accepted`, `handed`, `done`, `calls`, `issued`, `log`, ...) record what happened so that laws can speak about it; no branch of the modelled code reads them. A TLS record is modelled by the plaintext it carries.

**Reads and pauses.** A read event may come while the leg is paused; then the direction is marked `rude`. Order, conservation and the end-to-end laws hold regardless; the bounds on queues hold for sources that respect their pause. A read of more than 65536 octets, which no socket read is, marks the direction `bulk`; a raw leg put over a dead peer's marks it `foreign`.

## What the code does that its comments do not say

- **Early end of the broker's input (agent).** `local_connected` sends the FIN although octets may still wait for the local socket. `Relay.Bind` proves exactly when that happens (`CutExactly`): the broker's input ended before the connect, more than 65536 octets wait, and the first write succeeds. `RelayLaws.EarlyEnd` runs such a case: the service gets a proper prefix on healthy legs. The end-to-end completeness law excludes only this case.
- **A peer whose leg dies before the bind (broker).** `tm_stream_relay_start` then puts a raw TCP leg on the peer's socket. Both directions suffer. Upstream, `relay_a_read` does not look at `a_eof`: whatever arrives there enters the stream as if the client had sent it. Downstream, the service's octets leave on that socket outside the TLS connection the peer had. `TunnelLaws.ForeignExactly` and `TunnelLaws.RawExactly` say exactly when that happens (the agent attaches while the peer's leg is dead), `TunnelLaws.PrefixLaw` proves the prefix law for every state before it, and `TunnelRuns.StrayRun` and `TunnelRuns.PlainRun` give the runs: for every client, every service and all frames before, up to 16384 octets of anybody's choice arrive at the service although the client sent none of them, and as many octets of the service leave raw. A stream that ends well (`Tunnels.Complete`) never had such a leg.
- **A finished stream left open.** `stream_maybe_close` runs in the end-of-input, error and low-water callbacks. The last write of a TLS leg that never passed its low-water mark causes none of them, so a stream whose last event is such a completion stays open with both inputs ended and everything delivered. `TunnelLaws.FinishedCloses` proves that this is the only way an event on whole legs leaves a finished stream open; `TunnelRuns.HangRun` gives the run, for all frames before: two silent users end, and both relays stay open. A repeated end, an error or an abort closes them.
- **A WANT with no write in flight.** After `SSL_write` answers WANT and no socket write is in flight, nothing calls `pump_write` before the next write. `RelayLaws.Progress` proves that this is the only way octets keep waiting, or a source keeps paused, on healthy legs.
- **Resuming the local reads (agent).** `relay_broker_eof` also flushes towards the broker without resuming the local reads. That loses no wakeup: the flush finds the broker's leg busy or only adds to a write in flight, so its low-water callback is still to come (`RelayLaws.NoLostWakeup`).
- **Low-water callbacks inside a write.** The comment on `flush_pend` fears a callback from inside `tm_io_write`. The legs as written never do that for a non-empty write, since the memory BIO holds every record until `uv_write`; the model allows it, and every law holds with it.
- **Frame size.** The reader refuses a chunk that would exceed its limit even if it completes a frame, so the largest payload that survives every chunking into pieces of at most m octets is 262144 - m + 1 octets, not the documented maximum of 262144 (`Handoff.ExactLimit`). `SSL_read` returns at most one record of 16384 octets, so for a TLS connection it is 245761 (`Handoff.RecordLimit`).
- **Port 0.** The allocator reports failure as port 0, so a port range that starts at 0 loses its first port to a refused request (`Registry.ZeroIsLost`); with any other start the books balance.
- **`ports_used` is 16 bits wide.** It is the number of held ports modulo 2^16, and equal to it exactly while fewer than 2^16 are held (`Registry.Registry.UsedIsTotal`).
- **Malformed `\u` escapes.** A `\u` whose four characters are not hex digits is not an error: it decodes as U+0000, and a string value ends there. The two scans of `parse_string` can then disagree about where an escape begins; the output still fits the allocation (`JsonStringCode.DecodeBody`).

## Model

| member | source | states |
|---|---|---|
| Tunnels.Run | agent/src/tcp.c:73-286 | for a client of an open tunnel and a peer of a closed one, over every sequence of reads, partial and failed writes, pauses, ends and repeated ends, errors, aborts, late attach and late connect, over any TLS and socket behaviour: the trace of the run, each state following from the one before by its event; in every state what the service was given is a prefix of what the broker took on (the client's octets, then those of a raw leg over a dead peer's), what the client was given is a prefix of what the service sent, and if both relays closed on their own on the legs they were bound to and nothing was cut off, exactly what the client and the service sent arrived |
| Tunnels.Tunnel.Handle | broker/src/relay.c:77-146 | every event of either relay does what the step relation says (a write completion included: a failed one kills its leg, a successful one ends in the callbacks the leg owes), takes effect exactly under its stated conditions, and keeps the invariant of the whole tunnel |
| Tunnels.UpPrefix | broker/src/relay.c:77-132 | in every reachable state of the tunnel, the octets accepted for the service are a prefix of those the broker took on; they are a prefix of those the client sent if and only if no octet of a raw leg over a dead peer's is among them |
| Tunnels.DownPrefix | broker/src/relay.c:217-246 | in every reachable state of the tunnel, the octets accepted for the client after its frames are a prefix of those the service sent |
| Tunnels.Complete | broker/src/relay.c:62-70 | if both relays closed cleanly, no end was abrupt and the agent cut nothing off, the service got exactly what the client sent and the client exactly what the service sent, in completed socket writes, and no raw leg had taken a dead one's place |
| Tunnels.ClosedUp | common/src/tls.c:658-703 | a reader that finds the close signal next on the broker's channel has everything the broker's relay read from the client |
| TunnelLaws.PrefixLaw | broker/src/relay.c:326-361 | over every run: until the agent attaches to a stream whose peer's leg is dead, what the service has is a prefix of what the client sent |
| TunnelLaws.ForeignExactly | broker/src/relay.c:326-341 | over every run: the broker reads from a raw leg over a dead peer's if and only if an attach came while the peer's leg of a closed tunnel was dead |
| TunnelLaws.RawExactly | broker/src/relay.c:331-340 | over every run of a closed tunnel: what leaves for the peer goes into a raw leg if and only if such an attach came before |
| TunnelLaws.FinishedCloses | broker/src/relay.c:62-70 | for both relays and every event of a run on whole legs: the event leaves a stream open that has ended and delivered everything if and only if it is the last completion of a TLS leg that owes no low-water callback |
| TunnelRuns.StrayEnters | broker/src/relay.c:113-131 | whatever a raw leg over a dead peer's reads enters the stream, as long as the agent's leg takes octets |
| TunnelRuns.StrayArrives | broker/src/relay.c:148-164 | the failing input upstream, for all legs that take the octets: the peer's leg fails, the agent attaches, octets arrive on the socket, the agent starts behind its frames, connects and reads; the service has exactly those octets although the client sent nothing |
| TunnelRuns.StrayRun | broker/src/relay.c:326-361 | that run exists for every client, every service, all frames before and all octets up to one record |
| TunnelRuns.PlainLeaves | broker/src/relay.c:217-246 | the failing input downstream: after the same start, the service's octets are accepted by a raw leg on the peer's socket |
| TunnelRuns.PlainRun | broker/src/relay.c:326-361 | that run exists for every client, every service, all frames before and all octets up to one record |
| TunnelRuns.Hangs | broker/src/relay.c:134-146 | an open tunnel whose users only end: after both ends went through both relays and both alerts were written, both relays have delivered everything and are open |
| TunnelRuns.HangRun | common/src/tls.c:299-318 | that run exists for all frames before |
| TunnelLaws.RefusalIsPermanent | common/src/io.c:164-166 | over every run: a bound leg of either relay that refuses octets refuses them in every later state |
| TunnelLaws.AbruptByEvent | common/src/tls.c:539-544 | an end is taken for an abrupt one only where the run has a TCP end without a closure alert |
| RelayLaws.Conservation | broker/src/relay.c:113-132 | between events, octets read for a sink that takes octets, or is still to come, equal the octets it accepted followed by the queue |
| RelayLaws.NoLostWakeup | broker/src/relay.c:198-213 | on healthy bound legs, with reads of at most 65536 octets: a non-empty queue implies that its sink owes a low-water callback (a write in flight; on TLS above_low, with a write in flight or an SSL_write to be retried) and that its source is paused or ended; a paused source that has not ended implies that callback too, and, except for the agent's local leg after the broker's end, a non-empty queue |
| RelayLaws.Advances | common/src/io.c:79-102 | every completed write leaves fewer tokens to complete, and there are no more of them than octets read and one half-close |
| RelayLaws.AtRest | broker/src/relay.c:198-213 | on healthy legs with no write in flight and no SSL_write to be retried, nothing waits and no source is paused |
| RelayLaws.Progress | broker/src/relay.c:198-213 | the owed callback comes: from every state, at most that many successful completions empty the queue and resume its source, unless SSL_write answered WANT to the last of them or a leg died |
| RelayLaws.NoTailLoss | broker/src/relay.c:62-70 | a stream closed by maybe_close on the legs it was bound to had passed every octet it read to the other leg, in completed socket writes |
| RelayLaws.CloseOrdering | common/src/io.c:49-77 | a half-close signal on a sink comes once, after every accepted octet, with nothing behind it; unless the agent cut the stream off, after every octet read for it |
| RelayLaws.Bounded | broker/src/relay.c:93-110 | sources that respect their pause never make a queue exceed the high-water mark by more than one read; leg buffers never exceed 256 KiB |
| RelayLaws.CutLosesTail | agent/src/tcp.c:281-284 | after a cut the leg refuses, and has a proper prefix of the stream |
| RelayLaws.EarlyEnd | agent/src/tcp.c:247-286 | a run of the agent that loses the tail of a stream although no leg failed |
| RelayState.RoomBeforeBind | broker/src/relay.c:95-98 | with pauses respected, the branch that closes a stream for an overfull pre-bind queue is never taken |
| RelayState.FlushNext | broker/src/relay.c:177-196 | after the nested callbacks of a write inside flush_pend, taking the written piece off the queue restores conservation |
| RelayState.StillWaits | agent/src/tcp.c:269-284 | after the first flush into a new TCP leg, octets wait exactly when more than one piece was queued and the socket works |
| Relays.Relay.Close | broker/src/relay.c:33-60 | both legs closed, nothing else changed, invariant kept |
| Relays.Relay.MaybeClose | broker/src/relay.c:62-70 | closes exactly when both inputs ended, both queues are empty and both legs drained; otherwise changes nothing |
| Relays.Relay.FlushPend | broker/src/relay.c:177-196 | keeps order and conservation through every re-entrant callback, terminates, leaves waiting only what the leg would not take now and only for a leg that will call back, leaves such a leg that callback even if nothing is left, and fills a new TCP leg with exactly one piece |
| Relays.Relay.Low | broker/src/relay.c:198-213 | inside a flush or a direct write it changes nothing; otherwise it leaves no lost wakeup, no pending half-close behind an empty queue and no finished stream open |
| Relays.Relay.Wake | broker/src/relay.c:207-212 | passes a half-close on, resumes the source, closes a finished stream |
| Relays.Relay.Error | broker/src/relay.c:148-164 | the broker drops the dead leg and goes on as after its end of input; the agent closes the stream |
| Relays.Relay.Lose | broker/src/relay.c:264-282 | the dead leg is unlinked, its input ended, what it had sent is pushed, and a finished stream closed |
| Relays.Relay.Finish | broker/src/relay.c:134-146 | after the end of a source: flush (at the agent, after the broker's end, both ways), then half-close only if nothing waits, then maybe close |
| Relays.Relay.PassFin | broker/src/relay.c:143-144 | the half-close goes to the sink only behind everything fed to it; without a callback it changes the leg and nothing else |
| Relays.Relay.Dispatch | common/src/io.c:57-77 | what a leg's callback and the leg's own code after it leave behind: invariant and histories kept, an owed half-close passed on, a dead leg dropped, a finished stream closed |
| Relays.Relay.Proceed | common/src/tls.c:316-318 | the same for what the leg does after the callback returned; if that is nothing, nothing changes |
| Relays.Relay.constructor | broker/src/relay.c:382-440 | a relay that waits for its service-side leg, with the octets that came with the frame that made it |
| Relays.Relay.Read | broker/src/relay.c:77-132 | every octet read joins the history of its direction in order, also from a raw leg over a dead peer's; with a sink that takes octets, or room before the bind, it is accepted or queued behind everything else; the invariant is kept on every branch |
| Relays.Relay.Forward | broker/src/relay.c:113-131 | once anything waits, everything queues behind it; otherwise it goes straight to the sink |
| Relays.Relay.Accept | broker/src/relay.c:117-131 | an accepted read and the callbacks it causes keep the invariant, and the read stays accepted |
| Relays.Relay.OnEof | broker/src/relay.c:134-146 | the end of an input, the first or a repeated one, is recorded, passed on if nothing waits, and a finished stream closed; the invariant is kept |
| Relays.Relay.OnError | broker/src/relay.c:264-282 | a failed leg is unlinked at the broker and closes the stream at the agent; before the bind the broker does nothing else; invariant and histories kept |
| Relays.Relay.OnWriteDone | common/src/io.c:79-102 | a completed socket write completes everything handed over before it; a failed one kills the leg, which is dropped; with nothing in flight it changes nothing; the last write of a TLS leg that owes no callback changes only the leg, and is the only completion that leaves a finished stream open; one that ends a low-water wait passes the pending half-close on; invariant and histories kept |
| Relays.Relay.Abort | broker/src/relay.c:317-324 | a stream closed from outside |
| Relays.Relay.Bind | agent/src/tcp.c:247-286 | the pre-bind queue reaches the new leg in order; the agent cuts the stream off if and only if the broker's input has ended, more than 65536 octets wait and the first write succeeds |
| Relays.Relay.PushPending | broker/src/relay.c:342-352 | what came before the new leg is pushed into it; the invariant, the histories and the flags are as the rest of the bind needs them, and octets still wait exactly in the case of the cut |
| Relays.Relay.EarlyFin | agent/src/tcp.c:281-284 | the half-close of local_connected: a cut exactly when octets wait |
| Relays.Relay.EarlyFinRest | agent/src/tcp.c:281-284 | after that half-close and its callbacks the stream is closed if the local input had ended too; the cut, the invariant and the histories kept |
| Tcp.Pump | common/src/io.c:57-77 | hands the whole queue to one write; accepts nothing, loses nothing, reports an error only when the leg dies |
| Tcp.Write | common/src/io.c:164-194 | refused iff closed or half-closed; busy only above the high-water mark or while the buffer cannot move; otherwise appended once and the queue invariant kept |
| Tcp.Fin | common/src/io.c:49-55 | FIN at most once, only behind the last accepted octet |
| Tcp.ShutdownSend | common/src/io.c:196-202 | half-close deferred until the queue is empty |
| Tcp.WriteDone | common/src/io.c:79-102 | retires exactly the slice in flight; what was appended meanwhile stays queued |
| Tcp.FirstWrite | common/src/io.c:164-194 | a new leg takes one piece of up to 65536 octets, all of it in flight at once |
| Tcp.SecondWrite | common/src/io.c:172-178 | while that piece is in flight a full buffer answers busy |
| TcpIo.TcpIo.Write | common/src/io.c:164-194 | over the real buffer: the same result as the specification, and while a write is outstanding neither the block nor any octet of it moves or changes |
| TcpIo.TcpIo.Pump | common/src/io.c:57-77 | over the real buffer: as specified, without touching an outstanding write |
| TcpIo.TcpIo.Reserve | common/src/io.c:179-187 | compaction and doubling keep the queued octets |
| TcpIo.TcpIo.WriteDone | common/src/io.c:79-102 | over the real buffer: as specified |
| TcpIo.TcpIo.ShutdownSend | common/src/io.c:196-202 | over the real buffer: as specified |
| Tls.Pump | common/src/tls.c:335-407 | accepted octets stay the octets SSL_write took followed by the queue; records leave in order; every SSL_write after a WANT offers the same octets again; the low-water callback fires exactly when an armed queue drained |
| Tls.Write | common/src/tls.c:428-451 | refused iff not open or half-closed; busy only above the high-water mark; otherwise appended once |
| Tls.TryShutdown | common/src/tls.c:658-696 | the whole queue becomes records before the alert, and the alert is the last one |
| Tls.ShutdownSend | common/src/tls.c:698-703 | the closure alert is requested once |
| Tls.WriteDone | common/src/tls.c:299-315 | a completed write goes on with the queue |
| Tls.AfterDone | common/src/tls.c:316-318 | a deferred shutdown goes on after a completed write |
| Tls.FirstWrite | common/src/tls.c:428-451 | an idle leg, whatever it sent before, hands the next octets over at once, in order and without a callback |
| Tls.IdleShuts | common/src/tls.c:658-703 | an idle leg, whatever it sent before, sends its alert at once and waits for its completion |
| Tls.ClosingEnds | common/src/tls.c:299-318 | the completion of that alert drains the leg without a callback |
| Tls.DisciplinedLeg | common/src/tls.c:421-426 | what was handed over is a prefix of the accepted octets and one alert; a drained leg has everything in completed writes |
| Tls.SslWriteKeepsCore | common/src/tls.c:379-396 | one SSL_write, by result: the queue, the retry pin and the order of records |
| TlsStream.TlsStream.SslWrite | common/src/tls.c:379-396 | over the real array: the octets offered, and the cursor, as specified |
| TlsStream.TlsStream.Pump | common/src/tls.c:335-407 | the loop over the real array equals the specification |
| TlsStream.TlsStream.TryShutdown | common/src/tls.c:658-696 | the loop over the real array equals the specification |
| TlsStream.TlsStream.Enqueue | common/src/tls.c:436-448 | growth, compaction and append over the real array, with the retry octets unchanged |
| TlsStream.TlsStream.Write | common/src/tls.c:428-451 | over the real array: as specified |
| TlsStream.TlsStream.ShutdownSend | common/src/tls.c:698-703 | over the real array: as specified |
| TlsStream.TlsStream.WriteDone | common/src/tls.c:299-315 | over the real array: as specified |
| Legs.Write | common/src/io.c:391-394 | one contract for both kinds of leg: accepted octets, permanent refusal, and a certain callback after busy |
| Legs.ShutdownSend | common/src/io.c:196-202 | one contract for both kinds of leg: the half-close requested once, nothing accepted or lost |
| Legs.WriteDone | common/src/io.c:79-102 | one contract for both kinds of leg: everything in flight is completed, and the next write or the deferred half-close follows |
| Legs.Continue | common/src/io.c:93-102 | what a leg still does after its callback returns (pump, FIN or deferred shutdown) is exactly its own code's, and accepts and loses nothing |
| Legs.LegFacts | common/src/io.c:224-227 | the half-close discipline, and a drained live leg delivered everything it accepted |
| Bytes.Double | common/src/io.c:184-185 | the doubling loop computes the least capacity of the chain that fits |
| Bytes.NextCapStaysInChain | common/src/tls.c:436-446 | capacities stay in the chain 16 KiB to 256 KiB while a queue respects the high-water mark |
| Frames.RoundTrip | common/src/frame.c:72-83 | a frame is encoded if and only if its payload is not too long, and then parses back and leaves what follows it |
| Frames.ParseIsEncoding | common/src/frame.c:51-63 | whatever parses is the encoding of the frame found, followed by the rest |
| Frames.CutShort | common/src/frame.c:51-56 | a frame cut anywhere is incomplete, never malformed |
| Frames.ParseMore | common/src/frame.c:33-64 | more octets never change what was found |
| Frames.EnvRoundTrip | common/src/frame.c:100-126 | an envelope decodes back if and only if it uses only the defined flags |
| Frames.FrameReader.Feed | common/src/frame.c:33-64 | over the real buffer: a chunk is refused whole iff it overflows the reader, else appended, and the first frame taken off exactly when it is complete |
| Frames.FrameReader.Drain | common/src/frame.c:23-31 | returns everything buffered and leaves nothing |
| Frames.FrameReader.Append | common/src/frame.c:42-49 | growth keeps the buffered octets and bounds the capacity |
| Handoff.TurnSplits | broker/src/control.c:454-470 | for any octets and any decisions, processing a chunk in two parts is processing it whole, also across the switch to raw octets |
| Handoff.ChunkingInvariance | broker/src/control.c:454-470 | for every m: frames with payloads up to 262144 - m + 1 octets come out of every chunking into pieces of at most m octets, in order and without error, and the start of the next frame stays buffered |
| Handoff.LargerFrameCanFail | common/src/frame.c:36-41 | for every m: every larger frame has such a chunking that makes the reader fail |
| Handoff.ExactLimit | common/src/frame.c:36-41 | a binding frame is handed over with what follows it from every chunking into pieces of at most m octets if and only if its payload has at most 262144 - m + 1 octets |
| Handoff.RecordLimit | common/src/tls.c:470-476 | with chunks of one TLS record, if and only if it has at most 245761 octets |
| Handoff.HandsOver | broker/src/control.c:398-414 | for every chunking of frames, the binding frame and raw octets, the relay gets exactly the raw octets, once and in order; none is parsed, none stays in the reader |
| Handoff.BindHandsOver | broker/src/control.c:368-415 | that law for an agent's data connection |
| Handoff.PeerHandsOver | broker/src/control.c:297-340 | that law for a peer: HELLO, AUTH, then DATA_BIND of stream 0 |
| Handoff.BindOkHandsOver | agent/src/tcp.c:300-347 | that law for the agent: raw octets start right behind its DATA_BIND_OK |
| Handoff.Inlet.Read | broker/src/control.c:454-470 | the loop over the real reader does what the specification of the connection says |
| Handoff.Inlet.Handle | broker/src/control.c:421-452 | one frame: keep, switch with the drained leftover, or leave |
| Datagrams.UnpackPack | broker/src/udp.c:102-116 | the array parses back into exactly the queued envelopes |
| Datagrams.Queue.Parses | broker/src/udp.c:75-107 | in every reachable state the unsent part of the array parses as exactly outq_packets records |
| Datagrams.Queue.Enqueue | broker/src/udp.c:75-107 | an envelope is admitted whole iff the packet and octet limits allow it, at the end of the queue |
| Datagrams.Queue.Reserve | broker/src/udp.c:85-101 | compaction before growth: the capacity never exceeds the larger of 4096 and twice the octet limit |
| Datagrams.Queue.BrokerPump | broker/src/udp.c:110-136 | at most one whole envelope per call, the oldest, and only if SSL_write took all of it |
| Datagrams.Queue.ClientPump | agent/src/udp.c:71-101 | the recursive drain terminates and takes exactly the envelopes the answers allow, in order |
| Datagrams.Queue.Submit | agent/src/udp.c:40-69 | admitted envelopes are those taken, once and in order, followed by those waiting |
| Datagrams.Queue.SendDone | broker/src/udp.c:28-42 | a completed send lets the next envelope go |
| UdpFlows.ReplyReachesSender | broker/src/udp.c:351-394 | a corollary of the table invariant: an answer under a tag reaches the source whose datagrams went out under it, and no other |
| UdpSystem.Run | peer/src/udp.c:145-195 | for every run of peer, broker and agent over a network that loses, repeats and reorders, among strangers, expiries and session changes: the trace of the run, each state following from the one before by its event; in each of its first 2^64 states every table routes an answer only to the source of its tag, and each answer an application got was sent by the service on a socket that only ever carried that application's datagrams |
| UdpSystem.OnlyOwnAnswers | broker/src/udp.c:351-394 | the same for any three logs whose messages came from each other |
| UdpSystem.System.Handle | agent/src/udp.c:150-210 | every event does what the step relation says, keeps the three tables consistent and the origin of every message known |
| UdpFlows.Tunnel.FlowNew | broker/src/udp.c:232-255 | a new flow id was never used before, for the first 2^64 - 1 flows |
| UdpFlows.Tunnel.FlowFor | broker/src/udp.c:412-422 | one live flow per source: the existing one, or a new one if the limits allow |
| UdpFlows.Tunnel.AgentEnv | broker/src/udp.c:375-394 | an answer goes to the source of its live flow, or is dropped |
| UdpFlows.Tunnel.FromSource | broker/src/udp.c:397-431 | a datagram goes to the agent under the tag of its source's live flow exactly when an agent is there, the payload fits and the source has or may get a flow; otherwise it is dropped |
| UdpFlows.Tunnel.Datagram | broker/src/udp.c:434-465 | the same for a client of an open tunnel |
| UdpFlows.Tunnel.SessionClose | broker/src/udp.c:281-303 | a session takes its flows with it, so every peer flow's session is live |
| UdpFlows.Tunnel.SessionFor | broker/src/udp.c:306-327 | one session per address |
| UdpFlows.Tunnel.Authenticate | broker/src/udp.c:507-513 | at most one authenticated agent session exists; a new one replaces the old one |
| UdpFlows.Tunnel.AppData | broker/src/udp.c:475-536 | an unauthenticated session moves no datagram; a peer only under its own flows; every invariant kept |
| UdpFlows.Tunnel.Expire | broker/src/udp.c:200-210 | the flow is gone and its id stays used |
| UdpFlows.PeerTable.FlowIdNew | peer/src/udp.c:120-127 | the loop terminates with an unused non-zero id even after the counter wrapped around |
| UdpFlows.PeerTable.FromLocal | peer/src/udp.c:145-178 | a local application's datagrams go out under its own tag |
| UdpFlows.PeerTable.FromBroker | peer/src/udp.c:181-195 | an answer goes to the application of its tag, or nowhere |
| UdpFlows.AgentTable.FromBroker | agent/src/udp.c:174-210 | each flow id has its own local socket, opened under the limit, and its datagrams go out on it |
| UdpFlows.AgentTable.FromService | agent/src/udp.c:150-171 | what a socket receives is tagged with the flow id that opened it |
| JsonCodec.PrintAndParse | common/src/cJSON.c:1239-1315 | the printer's loops followed by the parser's loops return the value, if and only if it prints |
| JsonRoundTrip.RoundTrip | common/src/cJSON.c:1368-1494 | every tree of null, booleans, 32-bit integers, NUL-free strings, arrays and objects that prints, formatted or not, parses back from its text |
| JsonRoundTrip.ValueBack | common/src/cJSON.c:1368-1420 | the same in any context whose next octet cannot continue a number |
| JsonRoundTrip.PrintsIff | common/src/cJSON.c:1606-1609 | a value prints if and only if it is nested at most 1000 deep |
| JsonRoundTrip.NoNul | common/src/cJSON.c:576-586 | no printed text contains a NUL, so looking for its end by strlen is right |
| JsonStrings.StringRoundTrip | common/src/cJSON.c:824-951 | every NUL-free string parses back from its quoted text, whatever follows |
| JsonStrings.Utf16Exact | common/src/cJSON.c:703-764 | an escape is decoded to a Unicode scalar value if and only if its four hex digits, or two such escapes, spell it; one without four hex digits is taken for U+0000; nothing else is decoded |
| JsonStrings.Utf8RoundTrip | common/src/cJSON.c:766-813 | the octets written for a scalar value are UTF-8 for it |
| JsonStrings.Utf8Unique | common/src/cJSON.c:766-813 | and the only UTF-8 sequence for it |
| JsonStringCode.PrintString | common/src/cJSON.c:954-1073 | the octets counted first are exactly the octets written |
| JsonStringCode.CountEscapes | common/src/cJSON.c:981-1005 | the escape pre-count |
| JsonStringCode.ParseHex4 | common/src/cJSON.c:666-699 | the value of four hex digits, or 0 if one is not |
| JsonStringCode.PutUtf8 | common/src/cJSON.c:798-815 | the backward loop writes the UTF-8 encoding in place |
| JsonStringCode.Utf16Literal | common/src/cJSON.c:703-764 | the code point and length of an escape, as specified |
| JsonStringCode.FindEnd | common/src/cJSON.c:837-859 | the closing quote, and how many escapes come before it |
| JsonStringCode.DecodeBody | common/src/cJSON.c:861-928 | the decoded literal, written within the allocation computed before, for every input |
| JsonStringCode.ReadString | common/src/cJSON.c:824-951 | the two loops together parse the literal as specified |
| JsonParser.Parser.SkipWhitespace | common/src/cJSON.c:1090-1113 | skips octets up to 32 and steps back at the end of the input |
| JsonParser.Parser.ReadValue | common/src/cJSON.c:1368-1420 | the specified value, failure or numeral, with the offset behind the value |
| JsonParser.Parser.ReadArray | common/src/cJSON.c:1497-1592 | the element loop with its step back equals the specification; the nesting counter returns to its value |
| JsonParser.Parser.ReadObject | common/src/cJSON.c:1662-1777 | the member loop with its step back equals the specification |
| JsonParser.ParseText | common/src/cJSON.c:1147-1192 | the parser on a text and its NUL |
| JsonPrinter.Printer.Ensure | common/src/cJSON.c:490-573 | room exactly while the total stays within INT_MAX |
| JsonPrinter.Printer.PrintValue | common/src/cJSON.c:1423-1494 | succeeds if and only if the value is not nested too deep and its text fits, and then the buffer holds the text, however far the offset moved |
| JsonPrinter.Printer.PrintArray | common/src/cJSON.c:1595-1659 | the same for arrays |
| JsonPrinter.Printer.PrintObject | common/src/cJSON.c:1780-1896 | the same for objects, with their indentation |
| JsonPrinter.PrintText | common/src/cJSON.c:1239-1288 | the printed text, or nothing |
| Registry.Registry.Alloc | broker/src/registry.c:19-42 | the preferred port if free, else the first free one from the rotating cursor, which moves behind it; none if and only if the protocol has none free |
| Registry.Registry.Scan | broker/src/registry.c:29-41 | the rotating scan finds a free port iff there is one |
| Registry.Registry.Free | broker/src/registry.c:44-49 | unmarks a marked port and no other |
| Registry.Registry.Create | broker/src/registry.c:51-92 | a tunnel is created iff admitted and, if it needs a port, one is free; the books stay balanced |
| Registry.Registry.Delete | broker/src/registry.c:122-134 | the tunnel and its port are gone; the books stay balanced |
| Registry.Registry.UsedIsTotal | broker/src/registry.c:23-26 | ports_used equals the number of tunnels with a port iff that is below 2^16 |
| Registry.BooksAdd | broker/src/registry.c:59-67 | marked ports are exactly the ports of live tunnels that need one, pairwise distinct, and as many as there are such tunnels: kept by a creation |
| Registry.BooksRemove | broker/src/registry.c:95-112 | the same, kept by a deletion |
| Registry.ZeroIsLost | broker/src/registry.c:63-67 | a range that starts at port 0 loses that port to a refused tunnel |
| Listener.Run | broker/src/tcp.c:118-181 | over every sequence of enable, disable, delete and close callbacks: once quiescent a live tunnel listens iff the last request enabled it, if every bind worked; a deleted one does not listen and is freed exactly once, after its last callback |
| Listener.Tunnel.Start | broker/src/tcp.c:118-152 | never initialises a handle that is closing or in use; defers to the close callback instead |
| Listener.Tunnel.Stop | broker/src/tcp.c:172-181 | one close per open listener, counted |
| Listener.Tunnel.Handle | broker/src/ipc.c:213-245 | close_refs is the number of closes under way, after every event |

## Left out

- OpenSSL, libuv, DTLS handshakes, timers, sockets and HMACs: their results are parameters, scripts or events.
- RelayLaws.NoLostWakeup: for the agent's local leg after the broker's end a pause implies the owed callback, not a non-empty queue, because `relay_broker_eof` may move the queue into the leg without resuming; reads of more than 65536 octets are outside the clause about paused sources.
- The relay's own queues as arrays: they are sequences in the model; the arrays of the legs, the frame reader, the datagram queue and the string buffers are modelled as arrays.
- Pointer lifetimes: a leg freed inside its own callback is a closed leg that refuses writes.
- Relays.Relay.FlushPend: the loop of the model also tests `closing`; the loop of the code does not, and on a closed stream its next write is refused by the closed leg, which drops the queue; closed streams differ in their queue and nothing else.
- A synchronous read or end inside tm_io_resume_read (common/src/tls.c:728): it is the next event. The two orders agree, because the resume is the last thing a callback does before maybe_close and the sink's own continuation. If maybe_close finds the stream finished, the nested event was a repeated end, which closes it as well; otherwise it does nothing in either order, since on whole legs neither a read nor an end leaves a finished stream behind (TunnelLaws.ReadUnfinished, TunnelLaws.EofUnfinished). The continuation pumps a queue that the nested write has pumped already, and its half-close comes only after the end of that source. In local_connected the half-close follows instead; a nested end comes only with an empty queue and has done it already.
- RelayLaws.Progress: an SSL_write that has to be retried with no write in flight waits for the next write; the renegotiation that would answer it is not modelled.
- Progress after a leg error with octets still queued, and FIN delivery when the client ends before the bind: the code does not establish them.
- Traffic counters, logging and the stream-id counters.
- peer/src/tcp.c: the agent's relay again.
- Registration of an agent's control session: the connection leaves the handoff model there.
- JSON numbers that are not 32-bit integers: the parser model reports them as a numeral and stops; the printer model has none.
- cJSON's Minify, Compare, Duplicate, raw and reference items, and allocation failures.
- Rate limits of TCP accepts and of UDP packets: they are boolean inputs.
- The DTLS records behind the datagram queue, and the progress of a broker session after a dropped send.
- The bit operations of the UTF-8 and surrogate arithmetic: they are written as division and remainder.
- Idle expiry of UDP flows: expiry is an event that may come at any time.
- Restart of UDP sockets.
- Configuration, metrics, the control plane, the admin UI and the SDK.
