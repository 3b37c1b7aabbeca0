/** The two cooperating classes of tcp.py: Server (Servidor), the demultiplexer that
    owns the connection table, and Connection (Conexao), the per-flow engine whose
    methods update its fields in place. The network layer is a Network object that
    logs every packet handed to it; the application callback is a delivery log on
    each connection. Every Connection method that models a Conexao operation, except
    SendAck, which states its one packet directly, is proved to perform the step that
    module ConnectionSpec defines for it. */
module Tcp {
  import opened Segments
  import opened DemuxSpec
  import Spec = ConnectionSpec

  /** The network layer as far as tcp.py uses it: its ignore_checksum setting and
      enviar, which here appends to an outbound log. */
  class Network {
    const ignoreChecksum: bool
    var outbox: seq<Packet>

    constructor (ignoreChecksum: bool)
      ensures this.ignoreChecksum == ignoreChecksum && outbox == []
    {
      this.ignoreChecksum := ignoreChecksum;
      outbox := [];
    }

    method Send(p: Packet)
      modifies this
      ensures outbox == old(outbox) + [p]
    {
      outbox := outbox + [p];
    }
  }

  class Connection {
    const server: Server
    const id: Id
    var seqNo: int
    var ackNo: int
    var nextSeqNo: int
    var unsent: seq<Byte>
    var unacked: seq<Byte>
    var window: int
    var retries: nat
    var growWindow: bool
    var awaitingFinAck: bool
    var timerArmed: bool
    var samplePending: bool
    /** Whether the application has registered its receive callback. */
    var hasReceiver: bool
    /** Every payload handed to the receive callback, in order. */
    var delivered: seq<seq<Byte>>

    ghost function Model(): Spec.Conn
      reads this
    {
      Spec.Conn(id, seqNo, ackNo, nextSeqNo, unsent, unacked, window, retries,
                growWindow, awaitingFinAck, timerArmed, samplePending)
    }

    ghost predicate Valid()
      reads this
    {
      Spec.Valid(Model())
    }

    /** The call did exactly step s: the new fields, the packets sent, the payloads delivered. */
    twostate predicate Performed(new s: Spec.Step)
      reads this, server.net
    {
      && Model() == s.conn
      && server.net.outbox == old(server.net.outbox) + s.sent
      && delivered == old(delivered) + s.delivered
      && hasReceiver == old(hasReceiver)
    }

    /** Conexao.__init__; isn stands for random.randint(0, 0xffff). */
    constructor (server: Server, id: Id, ackNo: int, isn: int)
      requires 0 <= isn <= 0xffff
      ensures this.server == server
      ensures Model() == Spec.Initial(id, ackNo, isn)
      ensures Valid() && delivered == [] && !hasReceiver
    {
      this.server := server;
      this.id := id;
      seqNo := isn;
      this.ackNo := ackNo;
      awaitingFinAck := false;
      unsent := [];
      unacked := [];
      samplePending := false;
      retries := 0;
      window := 1;
      growWindow := false;
      nextSeqNo := 0;
      timerArmed := false;
      hasReceiver := false;
      delivered := [];
    }

    method RegisterReceiver()
      modifies this`hasReceiver
      ensures hasReceiver
    {
      hasReceiver := true;
    }

    method Handshake()
      requires Valid()
      modifies this, server.net
      ensures Valid() && Performed(Spec.Handshake(old(Model())))
    {
      server.net.Send(Spec.Reply(id, seqNo, ackNo, SynAck, []));
      seqNo := seqNo + 1;
    }

    /** send_ack: a pure ACK carrying the current sequence and acknowledgment numbers. */
    method SendAck()
      modifies server.net
      ensures server.net.outbox == old(server.net.outbox) + [Spec.Reply(id, seqNo, ackNo, AckOnly, [])]
    {
      server.net.Send(Spec.Reply(id, seqNo, ackNo, AckOnly, []));
    }

    /** recv_ack. */
    method OnAck(ack: int)
      requires Valid()
      modifies this, server.net
      ensures Valid() && Performed(Spec.OnAck(old(Model()), ack))
    {
      samplePending := false;  // _calc_time_interval consumes the sample, if any
      timerArmed := false;     // _stop_timer
      if ack == nextSeqNo {
        unacked := [];
        seqNo := nextSeqNo;
        if growWindow && retries == 0 {
          window := window + 1;
          growWindow := false;
        }
        if |unsent| > 0 {
          SendPass();
        }
        retries := 0;
      } else if retries > 0 {
        unacked := Drop(unacked, MSS);
        seqNo := seqNo + MSS;
        if |unacked| > 0 {
          Retransmit();
        } else {
          retries := 0;
        }
      }
    }

    /** enviar: queue the data and always start a send pass. */
    method Send(data: seq<Byte>)
      requires Valid()
      modifies this, server.net
      ensures Valid() && Performed(Spec.Send(old(Model()), data))
    {
      unsent := unsent + data;
      SendPass();
    }

    /** fazEnvio: window iterations, each moving the next MSS bytes of unsent, if any,
        into unacked and onto the network. */
    method SendPass()
      requires Valid()
      modifies this, server.net
      ensures Valid() && Performed(Spec.SendPass(old(Model())))
    {
      growWindow := |Take(unsent, window * MSS)| >= window * MSS;
      var data, queued, inFlight, start, next, ack, rounds := unsent, unsent, unacked, seqNo, seqNo, ackNo, window;
      var net := server.net;
      ghost var base, out0 := unacked, net.outbox;
      ghost var moved := 0;
      var i := 0;
      while i < rounds
        invariant 0 <= i <= rounds && moved == Min(|data|, i * MSS)
        invariant queued == data[moved..] && inFlight == base + data[..moved]
        invariant next == start + moved
        invariant net.outbox == out0 + Spec.Chunks(id, ack, data[..moved], start)
        modifies net
      {
        Spec.SendRound(id, ack, data, start, moved, i);
        var segment := Take(queued, MSS);
        if |segment| > 0 {
          AppendAssoc(base, data[..moved], segment);
          AppendAssoc(out0, Spec.Chunks(id, ack, data[..moved], start), [Spec.Reply(id, next, ack, AckOnly, segment)]);
          queued := Drop(queued, MSS);
          inFlight := inFlight + segment;
          net.Send(Spec.Reply(id, next, ack, AckOnly, segment));
          next := next + |segment|;
          moved := moved + |segment|;
        }
        i := i + 1;
      }
      unsent, unacked, nextSeqNo := queued, inFlight, next;
      samplePending := true;
      timerArmed := true;
    }

    /** reenvia. */
    method Retransmit()
      requires Valid()
      modifies this, server.net
      ensures Valid() && Performed(Spec.Retransmit(old(Model())))
    {
      samplePending := false;
      server.net.Send(Spec.Reply(id, seqNo, ackNo, AckOnly, Take(unacked, MSS)));
      timerArmed := true;  // _start_timer
    }

    /** _timer_timeout: the environment fires the armed timer. */
    method OnTimeout()
      requires Valid() && timerArmed
      modifies this, server.net
      ensures Valid() && Performed(Spec.Timeout(old(Model())))
    {
      retries := retries + 1;
      window := Spec.Backoff(window);
      Retransmit();
    }

    /** Conexao._rdt_rcv; the flags are not consulted. */
    method OnSegment(segSeqNo: int, segAckNo: int, flags: Flags, payload: seq<Byte>)
      requires Valid()
      requires segSeqNo == ackNo && |payload| > 0 ==> hasReceiver
      modifies this, server.net
      ensures Valid() && Performed(Spec.Receive(old(Model()), segSeqNo, segAckNo, payload))
    {
      if segSeqNo == ackNo {
        if |payload| > 0 {
          ackNo := ackNo + |payload|;
          delivered := delivered + [payload];
          SendAck();
        }
        if |unacked| > 0 {
          OnAck(segAckNo);
        }
      }
    }

    /** recebe_fechar: acknowledge the peer's FIN and leave the server's table. */
    method OnFin()
      requires Valid() && hasReceiver && id in server.connections
      modifies this, server`connections, server.net
      ensures Valid() && Performed(Spec.PassiveClose(old(Model())))
      ensures server.connections == old(server.connections) - {id}
    {
      ackNo := ackNo + 1;
      delivered := delivered + [[]];
      SendAck();
      server.connections := server.connections - {id};
    }

    /** fechar: the first call sends FIN; the second removes the connection from the table. */
    method Close()
      requires Valid()
      requires !awaitingFinAck ==> hasReceiver
      requires awaitingFinAck ==> id in server.connections
      modifies this, server`connections, server.net
      ensures Valid() && Performed(Spec.Close(old(Model())))
      ensures server.connections == if old(awaitingFinAck) then old(server.connections) - {id}
                                    else old(server.connections)
    {
      if awaitingFinAck {
        server.connections := server.connections - {id};
      } else {
        var fin := Spec.Reply(id, seqNo, ackNo, FinOnly, []);
        delivered := delivered + [[]];
        server.net.Send(fin);
        awaitingFinAck := true;
        seqNo := seqNo + 1;
      }
    }
  }

  class Server {
    const net: Network
    const port: int
    var connections: map<Id, Connection>
    /** Whether the application registered a monitor for accepted connections. */
    var monitor: bool
    /** Every connection handed to that monitor, in order. */
    var accepted: seq<Connection>

    /** Every entry belongs to this server, is filed under its own identity and is valid. */
    ghost predicate Valid()
      reads this, connections.Values
    {
      forall k :: k in connections ==>
        connections[k].server == this && connections[k].id == k && connections[k].Valid()
    }

    /** Servidor.__init__; registering with the network layer is not modelled. */
    constructor (net: Network, port: int)
      ensures this.net == net && this.port == port
      ensures connections == map[] && !monitor && accepted == []
      ensures Valid()
    {
      this.net := net;
      this.port := port;
      connections := map[];
      monitor := false;
      accepted := [];
    }

    method RegisterAcceptMonitor()
      modifies this`monitor
      ensures monitor
    {
      monitor := true;
    }

    /** The application callbacks that a segment would invoke are registered. */
    ghost predicate ReceiverReady(srcAddr: Addr, dstAddr: Addr, seg: Segment, checksumOk: bool)
      reads this, connections.Values
    {
      var a := Classify(port, net.ignoreChecksum, connections.Keys, srcAddr, dstAddr, seg, checksumOk);
      && (a.Finish? ==> connections[a.id].hasReceiver)
      && (a.Forward? && seg.seqNo == connections[a.id].ackNo && |seg.payload| > 0 ==>
            connections[a.id].hasReceiver)
    }

    /** Servidor._rdt_rcv; isn stands for the random initial sequence number a SYN draws. */
    method OnSegment(srcAddr: Addr, dstAddr: Addr, seg: Segment, checksumOk: bool, isn: int)
      requires Valid()
      requires 0 <= isn <= 0xffff
      requires ReceiverReady(srcAddr, dstAddr, seg, checksumOk)
      modifies this, net, connections.Values
      ensures Valid() && monitor == old(monitor)
      ensures var a := Classify(port, net.ignoreChecksum, old(connections).Keys, srcAddr, dstAddr, seg, checksumOk);
        forall k | k in old(connections) && (a.Discard? || a.Accept? || k != a.id) :: unchanged(old(connections)[k])
      ensures var a := Classify(port, net.ignoreChecksum, old(connections).Keys, srcAddr, dstAddr, seg, checksumOk);
        a.Discard? ==>
          connections == old(connections) && net.outbox == old(net.outbox) && accepted == old(accepted)
      ensures var a := Classify(port, net.ignoreChecksum, old(connections).Keys, srcAddr, dstAddr, seg, checksumOk);
        a.Accept? ==>
          && a.id in connections
          && fresh(connections[a.id])
          && connections == old(connections)[a.id := connections[a.id]]
          && connections[a.id].Model() == Spec.Handshake(Spec.Initial(a.id, seg.seqNo + 1, isn)).conn
          && connections[a.id].delivered == [] && !connections[a.id].hasReceiver
          && net.outbox == old(net.outbox) + Spec.Handshake(Spec.Initial(a.id, seg.seqNo + 1, isn)).sent
          && accepted == old(accepted) + (if monitor then [connections[a.id]] else [])
      ensures var a := Classify(port, net.ignoreChecksum, old(connections).Keys, srcAddr, dstAddr, seg, checksumOk);
        a.Finish? ==>
          var t := old(connections)[a.id];
          && connections == old(connections) - {a.id}
          && t.Model() == Spec.PassiveClose(old(t.Model())).conn
          && net.outbox == old(net.outbox) + Spec.PassiveClose(old(t.Model())).sent
          && t.delivered == old(t.delivered) + [[]]
          && t.hasReceiver == old(t.hasReceiver)
          && accepted == old(accepted)
      ensures var a := Classify(port, net.ignoreChecksum, old(connections).Keys, srcAddr, dstAddr, seg, checksumOk);
        a.Forward? ==>
          var t := old(connections)[a.id];
          var r := Spec.Receive(old(t.Model()), seg.seqNo, seg.ackNo, seg.payload);
          && connections == old(connections)
          && t.Model() == r.conn
          && net.outbox == old(net.outbox) + r.sent
          && t.delivered == old(t.delivered) + r.delivered
          && t.hasReceiver == old(t.hasReceiver)
          && accepted == old(accepted)
    {
      if seg.dstPort != port {
        return;
      }
      if !net.ignoreChecksum && !checksumOk {
        return;
      }
      var id := Id(srcAddr, seg.srcPort, dstAddr, seg.dstPort);
      if seg.flags.syn {
        var c := new Connection(this, id, seg.seqNo + 1, isn);
        connections := connections[id := c];
        if monitor {
          accepted := accepted + [c];
        }
        c.Handshake();
      } else if id in connections {
        var c := connections[id];
        if seg.flags.ack && seg.flags.fin {
          c.OnFin();
        } else {
          c.OnSegment(seg.seqNo, seg.ackNo, seg.flags, seg.payload);
        }
      }
    }
  }
}
