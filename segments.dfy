/** Vocabulary shared by the connection engine and the demultiplexer of tcp.py:
    bytes, addresses, decoded segment headers, outbound packets and the
    four-tuple that names a flow. Header encoding and checksums belong to
    tcputils, which is not part of this model: segments arrive here decoded. */
module Segments {

  type Byte = bv8

  /** A network-layer address, as the network layer hands it over. */
  type Addr = string

  /** Maximum payload carried by one segment. tcputils defines it; the model fixes it at 1460. */
  const MSS: nat := 1460

  /** The control bits of a segment header that tcp.py inspects or sets. */
  datatype Flags = Flags(syn: bool, ack: bool, fin: bool)

  const SynAck := Flags(true, true, false)
  const AckOnly := Flags(false, true, false)
  const FinOnly := Flags(false, false, true)

  /** A decoded segment: the header fields tcp.py reads or writes, and the payload. */
  datatype Segment = Segment(srcPort: int, dstPort: int, seqNo: int, ackNo: int, flags: Flags, payload: seq<Byte>)

  /** A segment handed to the network layer, with the address it is sent to. */
  datatype Packet = Packet(dst: Addr, seg: Segment)

  /** The connection identity (src_addr, src_port, dst_addr, dst_port), seen from the peer's side. */
  datatype Id = Id(srcAddr: Addr, srcPort: int, dstAddr: Addr, dstPort: int)

  function Min(a: int, b: int): int
  {
    if a <= b then a else b
  }

  /** Python's s[:n] for a non-negative n. */
  function Take(s: seq<Byte>, n: nat): (r: seq<Byte>)
    ensures |r| == Min(n, |s|) && r == s[..|r|]
  {
    s[..Min(n, |s|)]
  }

  /** Python's s[n:] for a non-negative n. */
  function Drop(s: seq<Byte>, n: nat): (r: seq<Byte>)
    ensures Take(s, n) + r == s
  {
    s[Min(n, |s|)..]
  }

  /** Regrouping a concatenation, stated once so that a proof can name the step. */
  lemma AppendAssoc<T>(a: seq<T>, b: seq<T>, c: seq<T>)
    ensures (a + b) + c == a + (b + c)
  {
  }

  /** The bytes of a list of payloads, one after the other. */
  function Concat(parts: seq<seq<Byte>>): seq<Byte>
  {
    if parts == [] then [] else parts[0] + Concat(parts[1..])
  }

  lemma {:induction false} ConcatAppend(a: seq<seq<Byte>>, b: seq<seq<Byte>>)
    ensures Concat(a + b) == Concat(a) + Concat(b)
  {
    if a == [] {
      assert a + b == b;
    } else {
      assert (a + b)[1..] == a[1..] + b;
      ConcatAppend(a[1..], b);
    }
  }
}
