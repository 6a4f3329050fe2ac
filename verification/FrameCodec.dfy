// Ethernet frames laid out byte by byte (RFC 791, RFC 793, RFC 768), and the proof that
// both capture paths read back exactly the flow key and the length that were laid out,
// and accept nothing else.
module FrameCodec {
  import opened Basics
  import opened Capture

  // An IPv4 packet with any options, carrying TCP or UDP. `tail` is what follows the
  // two ports, `misc` and `sum` are fields that nobody reads.
  datatype Wire = Wire(
    macs: seq<Byte>, tos: Byte, total: U16, misc: seq<Byte>, ttl: Byte, sum: seq<Byte>,
    key: Key, options: seq<Byte>, tail: seq<Byte>)

  predicate ValidWire(w: Wire) {
    && |w.macs| == 12 && |w.misc| == 4 && |w.sum| == 2
    && |w.options| <= 40 && |w.options| % 4 == 0
    && (w.key.proto == 6 || w.key.proto == 17)
  }

  // The Ethernet type and the fixed part of the IPv4 header.
  function PutHeader(w: Wire): (r: seq<Byte>)
    requires ValidWire(w)
    ensures |r| == 34
  {
    w.macs + [8, 0]
    + [0x40 + 5 + |w.options| / 4, w.tos, w.total / 256, w.total % 256]
    + w.misc + [w.ttl, w.key.proto] + w.sum
    + [w.key.src.a, w.key.src.b, w.key.src.c, w.key.src.d]
    + [w.key.dst.a, w.key.dst.b, w.key.dst.c, w.key.dst.d]
  }

  function PutPorts(k: Key): seq<Byte> {
    [k.sport.hi, k.sport.lo, k.dport.hi, k.dport.lo]
  }

  function PutFrame(w: Wire): (r: seq<Byte>)
    requires ValidWire(w)
    ensures |r| == 38 + |w.options| + |w.tail|
  {
    PutHeader(w) + w.options + PutPorts(w.key) + w.tail
  }

  lemma HeaderBytes(w: Wire)
    requires ValidWire(w)
    ensures var r := PutHeader(w);
      && r[12] == 8 && r[13] == 0 && r[14] == 0x40 + 5 + |w.options| / 4
      && r[16] == w.total / 256 && r[17] == w.total % 256 && r[23] == w.key.proto
      && r[26] == w.key.src.a && r[27] == w.key.src.b && r[28] == w.key.src.c && r[29] == w.key.src.d
      && r[30] == w.key.dst.a && r[31] == w.key.dst.b && r[32] == w.key.dst.c && r[33] == w.key.dst.d
  {
  }

  lemma FrameBytes(w: Wire)
    requires ValidWire(w)
    ensures var r, t := PutFrame(w), 34 + |w.options|;
      && (forall i :: 0 <= i < 34 ==> r[i] == PutHeader(w)[i])
      && r[t] == w.key.sport.hi && r[t + 1] == w.key.sport.lo
      && r[t + 2] == w.key.dport.hi && r[t + 3] == w.key.dport.lo
  {
    hide PutHeader;
  }

  // What the AF_PACKET path makes of it: key, total length, and the first 512 bytes
  // behind the Ethernet header.
  lemma SocketReads(w: Wire)
    requires ValidWire(w)
    ensures var f := PutFrame(w);
      SocketEvent(f) ==
        Some(Event(w.key, w.total, Payload(f[14..if |f| - 14 > 512 then 526 else |f|]), 0))
  {
    hide PutFrame, PutHeader;
    HeaderBytes(w);
    FrameBytes(w);
    var f := PutFrame(w);
    assert Transport(f) == 34 + |w.options|;
    assert SocketAccepts(f);
    assert FrameKey(f) == w.key && TotalLength(f) == w.total;
  }

  // What the kernel path makes of it, if the whole transport header is in the linear
  // part: the same key and length, and the largest of 512, 256, 128 and 60 bytes there are.
  lemma KernelReads(w: Wire, linear: nat, ts: nat)
    requires ValidWire(w) && linear <= |PutFrame(w)|
    ensures var f := PutFrame(w);
      var n := |f| - 14;
      KernelEvent(f, linear, ts) ==
        if linear >= 34 + |w.options| + (if w.key.proto == 6 then 20 else 8) then
          Some(Event(w.key, w.total,
                     if n >= 512 then Payload(f[14..526])
                     else if n >= 256 then Payload(f[14..270])
                     else if n >= 128 then Payload(f[14..142])
                     else if n >= 60 then Payload(f[14..74])
                     else TooShort, ts))
        else None
  {
    hide PutFrame, PutHeader;
    HeaderBytes(w);
    FrameBytes(w);
    var f := PutFrame(w);
    assert Transport(f) == 34 + |w.options|;
    assert SocketAccepts(f);
    assert FrameKey(f) == w.key && TotalLength(f) == w.total;
  }

  // The fields of an accepted frame.
  function Taken(f: Frame): (w: Wire)
    requires SocketAccepts(f)
    ensures ValidWire(w)
  {
    var t := 14 + f[14] % 16 * 4;
    Wire(f[..12], f[15], f[16] as int * 256 + f[17], f[18..22], f[22], f[24..26],
         Key(Ip(f[26], f[27], f[28], f[29]), Ip(f[30], f[31], f[32], f[33]),
             Port(f[t], f[t + 1]), Port(f[t + 2], f[t + 3]), f[23]),
         f[34..t], f[t + 4..])
  }

  lemma TakenIsWhole(f: Frame)
    requires SocketAccepts(f)
    ensures PutFrame(Taken(f)) == f
  {
    var w := Taken(f);
    assert PutHeader(w) == f[..34];
    assert f == f[..34] + w.options + PutPorts(w.key) + w.tail;
  }

  // The AF_PACKET path accepts exactly such frames; the kernel path exactly those whose
  // transport header, of 20 bytes for TCP and 8 for UDP, is in the linear part.
  lemma OnlyWires(f: Frame, linear: nat, ts: nat)
    requires linear <= |f|
    ensures SocketEvent(f).Some? <==> exists w :: ValidWire(w) && f == PutFrame(w)
    ensures KernelEvent(f, linear, ts).Some? <==> exists w ::
      ValidWire(w) && f == PutFrame(w) && linear >= 34 + |w.options| + (if w.key.proto == 6 then 20 else 8)
  {
    hide PutFrame, PutHeader, KernelData, FrameKey, TotalLength;
    if SocketAccepts(f) {
      TakenIsWhole(f);
      KernelReads(Taken(f), linear, ts);
    }
    if w :| ValidWire(w) && f == PutFrame(w) {
      SocketReads(w);
    }
    if w :| ValidWire(w) && f == PutFrame(w) && linear >= 34 + |w.options| + (if w.key.proto == 6 then 20 else 8) {
      KernelReads(w, linear, ts);
    }
  }
}
