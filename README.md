# A verified model of tcp.py

tcp.py is a teaching prototype of the server side of TCP, written as two cooperating
classes. `Servidor` is the demultiplexer. It owns the connection table `conexoes`, keyed by
the flow's four-tuple (source address, source port, destination address, destination port),
and decides for every inbound segment whether to drop it, accept a new connection, hand it
to the passive close or forward it to the flow's connection. `Conexao` is the
per-connection engine:

- sequence and acknowledgment counters (`seq_no`, `ack_no`, `next_seq_no`);
- a send buffer and a buffer of sent but unacknowledged bytes;
- a congestion window that grows by one segment after a full, clean batch and halves on a
  timeout;
- a single retransmission timer;
- the state of an active close.

The project has four modules:

- `Segments` (segments.dfy) holds the shared vocabulary: bytes, addresses, decoded
  segments, outbound packets, the flow identity, MSS, and Python's `s[:n]` and `s[n:]` as
  `Take` and `Drop`.
- `ConnectionSpec` (connection_spec.dfy) describes a connection as a value `Conn` with one
  function per operation. Each function returns a `Step`: the new state, the packets handed
  to the network layer and the payloads delivered to the application, in order. The
  properties of the engine are stated and proved here.
- `DemuxSpec` (demux_spec.dfy) states the dispatch decision of `Servidor._rdt_rcv` as a
  function `Classify`.
- `Tcp` (tcp.dfy) holds the classes that update state in place. `Network` logs every packet
  handed to it. `Connection` has the fields of `Conexao`, a log of delivered payloads and
  whether a receive callback is registered. `Server` owns `map<Id, Connection>` and the log
  of connections handed to the accept monitor. Every method of `Connection` that models a
  `Conexao` operation, except `SendAck`, which states its one packet directly, ensures
  `Performed(Spec.X(old(Model())))`: its new fields, the packets it sent and the
  payloads it delivered are exactly the step that `ConnectionSpec.X` defines, so the
  properties proved there hold of the methods. `Server.OnSegment` ties each dispatch
  decision of `Classify` to the table change and the connection step it performs, and says that
  every other connection in the table and the monitor registration stay as they were.

`fazEnvio`'s loop is a `while` loop in `Tcp.Connection.SendPass`. It works on local copies of
the buffers and of `next_seq_no`, writes them back after the loop, and is proved against
`ConnectionSpec.SendPass`. That function is the closed form of the loop: the pass moves
`min(|unsent|, window * MSS)` bytes and sends them as `Chunks`, the bytes cut into
consecutive MSS-sized segments. The loop invariant is maintained by the lemma `SendRound`.

## Model

| member | source | states |
|---|---|---|
| Segments.Take | tcp.py:159 | `s[:n]` has `min(n, len(s))` bytes and is a prefix of `s` |
| Segments.Drop | tcp.py:161 | `s[n:]` is what remains after `s[:n]`: the two concatenate to `s` |
| DemuxSpec.Classify | tcp.py:25-55 | a segment is dropped iff its destination port differs from the server's, or its checksum fails while checksums are checked, or it is a non-SYN for an unknown flow; it is accepted iff it passes both checks and carries SYN; it goes to the passive close iff it is kept, is not a SYN and carries both ACK and FIN; every kept segment is filed under its own four-tuple, and a close or a forward only happens for a flow in the table |
| DemuxSpec.RemovedFlowIsUnassociated | tcp.py:46-55 | once a flow's key has been deleted from the table, its non-SYN segments are dropped |
| Tcp.Server.constructor | tcp.py:10-15 | a new server has an empty connection table and no accept monitor |
| Tcp.Server.RegisterAcceptMonitor | tcp.py:18-23 | after registration, accepted connections are handed to the monitor |
| Tcp.Server.OnSegment | tcp.py:25-55 | the monitor registration never changes, and every connection in the table other than the one a close or a forward goes to is left untouched; a dropped segment also leaves the table, the network and the accepted list untouched; a SYN stores a fresh connection under its four-tuple, replacing any old entry, with ack_no = seq + 1, hands it to the monitor when one is registered and sends exactly its SYN+ACK; an ACK+FIN for a known flow performs the passive close and deletes the entry; any other segment for a known flow performs that connection's receive step; the target keeps its receive-callback registration; the table stays valid |
| Tcp.Connection.constructor | tcp.py:60-79 | a new connection has the random initial sequence number, the given ack_no, window 1, no retries, empty buffers, no pending close, no timer and no RTT sample |
| Tcp.Connection.RegisterReceiver | tcp.py:141-146 | after registration, delivered payloads reach the application |
| ConnectionSpec.Handshake | tcp.py:95-99 | exactly one SYN+ACK goes out, to the peer with the ports swapped, at the current sequence number and acknowledging ack_no with no payload; the SYN consumes one sequence number and nothing else changes |
| ConnectionSpec.SynAccepted | tcp.py:37-45 | a SYN with sequence number S, answered by a connection with initial sequence number isn, produces exactly the packet SYN+ACK(seq isn, ack S+1) with the ports swapped, and leaves ack_no = S+1, seq_no = isn+1, window 1, no retries, empty buffers and a valid state |
| Tcp.Connection.Handshake | tcp.py:95-99 | performs the Handshake step |
| Tcp.Connection.SendAck | tcp.py:102-105 | sends exactly one pure ACK carrying the current seq_no and ack_no |
| ConnectionSpec.Chunks | tcp.py:158-165 | the segments of a send pass are empty exactly when there are no bytes to send |
| ConnectionSpec.ChunksAppend | tcp.py:158-165 | after k full rounds, a round that takes `segment` appends one segment carrying exactly those bytes, numbered by the bytes sent before it |
| ConnectionSpec.ChunksAt | tcp.py:158-165 | segment k carries the bytes from k * MSS up to the next MSS boundary (or the end) and is numbered n + k * MSS |
| ConnectionSpec.ChunksSizes | tcp.py:158-165 | every segment goes to the peer with the ports swapped, carries ACK and the current ack_no, and holds 1 to MSS bytes |
| ConnectionSpec.ChunksCount | tcp.py:158-165 | there is one segment for every started block of MSS bytes |
| ConnectionSpec.SendRound | tcp.py:158-165 | one loop round after i rounds takes the next min(MSS, remaining) bytes, so that min(len, (i+1) * MSS) bytes have gone out, and extends the sent segments by exactly that segment |
| ConnectionSpec.SendPass | tcp.py:154-169 | a send pass keeps the window at least 1, delivers nothing, and arms the timer that guards the RTT sample it starts |
| ConnectionSpec.SendPassState | tcp.py:156-169 | a pass moves exactly min(len(unsent), window * MSS) bytes from the front of unsent to the end of unacked, so unacked + unsent is unchanged; next_seq_no becomes seq_no plus the bytes moved; increase_window_size is set iff len(unsent) >= window * MSS; nothing is sent iff nothing was queued; the timer is armed and an RTT sample started; no other field changes |
| ConnectionSpec.SendPassPackets | tcp.py:158-165 | a pass sends at most window segments, each a data segment of 1 to MSS bytes to the peer with the ports swapped, acknowledging ack_no |
| ConnectionSpec.SendPassSegmentAt | tcp.py:157-165 | the k-th segment of a pass is numbered seq_no + k * MSS (seq_no plus the bytes sent before it) and carries the bytes of unsent that follow those |
| Tcp.Connection.SendPass | tcp.py:154-169 | the loop performs the SendPass step |
| ConnectionSpec.Send | tcp.py:149-151 | enviar keeps the window at least 1 and loses no byte: unacked + unsent afterwards is the old unacked + unsent + data; seq_no, ack_no and the window are unchanged |
| ConnectionSpec.SendRestartsNumbering | tcp.py:149-157 | enviar while bytes are still unacknowledged starts a pass whose first segment is numbered seq_no again, the number the front of unacked already went out with |
| Tcp.Connection.Send | tcp.py:149-151 | performs the Send step: queue the data, then always run a send pass |
| ConnectionSpec.Retransmit | tcp.py:171-177 | exactly one segment goes out: the first MSS bytes of unacked at the unchanged seq_no and ack_no, to the peer with the ports swapped; the RTT sample is discarded, the timer rearmed and nothing else changes |
| Tcp.Connection.Retransmit | tcp.py:171-177 | performs the Retransmit step |
| ConnectionSpec.Backoff | tcp.py:193-194 | max(1, ceil(w / 2)) is at least 1, at most w, and twice it is w or w + 1 |
| ConnectionSpec.Timeout | tcp.py:190-198 | n_tentativa grows by 1; the window becomes Backoff of the old one; exactly unacked[:MSS] is re-sent at the unchanged seq_no; both buffers, the counters, increase_window_size and the close state are unchanged; the timer is rearmed, the RTT sample discarded and the window stays at least 1 |
| Tcp.Connection.OnTimeout | tcp.py:190-198 | when the armed timer fires, performs the Timeout step |
| ConnectionSpec.OnAck | tcp.py:108-137 | every ACK stops the timer and consumes the RTT sample. An ACK equal to next_seq_no sets seq_no to next_seq_no and resets n_tentativa to 0. It grows the window by 1 only when increase_window_size held and n_tentativa was 0. It starts a new pass exactly when unsent was non-empty, so unacked + unsent then equals the old unsent, and it sends something iff it starts a pass. With nothing queued, next_seq_no is kept. Any other ACK after a retransmission keeps next_seq_no, increase_window_size, unsent and the window, drops unacked[:MSS] and adds a full MSS to seq_no, then re-sends the new front segment, or clears n_tentativa when nothing remains. Any other ACK without a retransmission only stops the timer. ack_no, the close state and window >= 1 are kept |
| Tcp.Connection.OnAck | tcp.py:108-137 | performs the OnAck step |
| ConnectionSpec.Receive | tcp.py:81-93 | a segment whose seq differs from ack_no changes nothing, sends nothing and delivers nothing. An in-order segment advances ack_no by exactly its payload length. A non-empty one is delivered once and first answered by a pure ACK with the new ack_no. With nothing in flight the state changes only in ack_no, with one ACK per delivery. With data in flight its ack field is then processed as OnAck from the updated state: the new state is OnAck's, and the packets sent are the ACK (for a non-empty payload) followed by OnAck's |
| ConnectionSpec.ReceiveAllAccounting | tcp.py:84-90 | over any run of arrivals, ack_no advances by exactly the number of bytes delivered, so it never decreases, and no delivery is empty |
| ConnectionSpec.DuplicateDeliveredOnce | tcp.py:84-90 | an in-order segment that arrives twice is delivered only once |
| Tcp.Connection.OnSegment | tcp.py:81-93 | performs the Receive step |
| ConnectionSpec.PassiveClose | tcp.py:224-228 | the peer's FIN adds 1 to ack_no, delivers one empty payload and sends exactly one pure ACK carrying the new ack_no; nothing else changes |
| Tcp.Connection.OnFin | tcp.py:224-228 | performs the PassiveClose step and deletes the connection from the server's table |
| ConnectionSpec.Close | tcp.py:231-245 | the first close sends exactly one FIN at the current seq_no, delivers one empty payload, sets esperando_ack_fin and adds 1 to seq_no; a later close changes no field and sends nothing |
| Tcp.Connection.Close | tcp.py:231-245 | performs the Close step; the second close deletes the connection from the server's table, the first leaves the table alone |

## Left out

- Header encoding and checksums (`read_header`, `make_header`, `fix_checksum`, `calc_checksum`, the `FLAGS_*` constants, and the payload offset `4*(flags>>12)`). They belong to tcputils, which is not part of this model. Segments arrive decoded, with the checksum verdict as a boolean. MSS is fixed at 1460.
- RTT estimation (`_calc_time_interval`, `time.time()`, `time_interval`, `estimatedRTT`, `devRTT`) is floating-point timing. Only whether a sample is pending (`t0 != None`) is kept, as `samplePending`.
- The asyncio timer (`call_later`, `cancel`) is the flag `timerArmed`. `_start_timer` and `_stop_timer` are the assignments that set and clear it; they are not separate methods. The timeout is a method the environment may call while the flag is set. Real time and concurrency are not modelled.
- The network layer (`rede.enviar`, `rede.registrar_recebedor`) is the append-only log `Network.outbox`. Registering the server with the network layer is not modelled.
- The application callbacks are the log `delivered` and the list `accepted`. Calling a callback that was never registered raises a TypeError in Python; the model requires `hasReceiver` on those paths instead.
- Deleting a key that is not in `conexoes` raises a KeyError in Python. `OnFin` and the second `Close` require the key to be present instead.
- `print` diagnostics.
- `random.randint(0, 0xffff)` is the parameter `isn`, required to lie in that range.
- Sequence numbers are unbounded, as Python's ints are. There is no 32-bit wrap-around.
- The `flags` argument of `Conexao._rdt_rcv` is accepted and not consulted, as in the source.
- `increase_window_size` is computed with true division in the source (`len(...) / MSS >= window_size`). The model uses the equivalent integer comparison `len(...) >= window_size * MSS`.
- Tcp.Connection.SendPass: the loop keeps the buffers and `next_seq_no` in local variables and writes them back after the loop, where the source updates the fields in every round. The end state and the packets sent are the same.
- Tcp.Connection.OnFin: `recebe_fechar` does not cancel the timer. The model follows the code, so a connection that leaves the table may still have `timerArmed` set.
- ConnectionSpec.OnAck: the partial-ACK path adds a full MSS to `seq_no` even when the front segment was shorter. This is modelled as written.
- ConnectionSpec.Receive: the ACK field is processed only when the segment's sequence number equals `ack_no`. This is modelled as written.
- ConnectionSpec.SendRestartsNumbering: `enviar` always starts a pass, even while a batch is unacknowledged. The lemma records the consequence, that the new pass reuses `seq_no`; it is modelled as written.
