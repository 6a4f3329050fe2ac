// Vocabulary shared by both tiers: machine-sized numbers, addresses and the
// 5-tuple flow key of bpf/ndpi_obs_types.h.
module Basics {
  datatype Option<+T> = None | Some(value: T)

  type Byte = n: nat | n < 0x100
  type U16 = n: nat | n < 0x1_0000
  type U32 = n: nat | n < 0x1_0000_0000

  const IPPROTO_TCP: Byte := 6
  const IPPROTO_UDP: Byte := 17
  // FLOW_MAX_CLASSIFY_PKTS
  const MAX_CLASSIFY_PKTS: nat := 8
  // Slots of every per-application array, in the kernel and in the daemon.
  const APPS: nat := 512

  // An IPv4 address and a port, byte by byte as they lie in the packet.
  datatype Ip = Ip(a: Byte, b: Byte, c: Byte, d: Byte)
  datatype Port = Port(hi: Byte, lo: Byte)

  datatype Key = Key(src: Ip, dst: Ip, sport: Port, dport: Port, proto: Byte)

  // The address whose four bytes lie at an offset.
  function IpAt(bytes: seq<Byte>, off: nat): Ip
    requires off + 4 <= |bytes|
  {
    Ip(bytes[off], bytes[off + 1], bytes[off + 2], bytes[off + 3])
  }

  function PortNumber(p: Port): U16 {
    p.hi * 256 + p.lo
  }

  // The sixteen bytes of the key in memory; the three pad bytes are always zero.
  function KeyBytes(k: Key): (bytes: seq<Byte>)
    ensures |bytes| == 16
  {
    [k.src.a, k.src.b, k.src.c, k.src.d,
     k.dst.a, k.dst.b, k.dst.c, k.dst.d,
     k.sport.hi, k.sport.lo, k.dport.hi, k.dport.lo,
     k.proto, 0, 0, 0]
  }

  // Comparing the bytes (memcmp) is comparing the keys.
  lemma KeyBytesInjective(k: Key, l: Key)
    ensures KeyBytes(k) == KeyBytes(l) <==> k == l
  {
    if KeyBytes(k) == KeyBytes(l) {
      var x, y := KeyBytes(k), KeyBytes(l);
      assert forall i :: 0 <= i < 16 ==> x[i] == y[i];
      assert x[0] == y[0] && x[1] == y[1] && x[2] == y[2] && x[3] == y[3];
      assert x[4] == y[4] && x[5] == y[5] && x[6] == y[6] && x[7] == y[7];
      assert x[8] == y[8] && x[9] == y[9] && x[10] == y[10] && x[11] == y[11];
    }
  }

  function Min(a: int, b: int): int {
    if a <= b then a else b
  }

  function Max(a: int, b: int): int {
    if a >= b then a else b
  }

  // Exclusive or, bit by bit.
  function Xor(a: nat, b: nat): nat
    decreases a + b
  {
    if a == 0 then b else if b == 0 then a
    else (a + b) % 2 + 2 * Xor(a / 2, b / 2)
  }

  // The value of a C string held in a character buffer: what precedes the first NUL.
  function CString(s: string): (r: string)
    ensures |r| <= |s| && r == s[..|r|]
    ensures '\0' !in r
    ensures |r| < |s| ==> s[|r|] == '\0'
  {
    if s == [] || s[0] == '\0' then []
    else
      [s[0]] + CString(s[1..])
  }

  lemma {:induction false} CStringOfClean(s: string)
    requires '\0' !in s
    ensures CString(s) == s
  {
    if s != [] {
      CStringOfClean(s[1..]);
    }
  }

  // strncpy into a zeroed buffer of cap + 1 characters.
  function Capped(s: string, cap: nat): (r: string)
    ensures |r| == Min(|s|, cap) && r <= s
  {
    if |s| <= cap then s else s[..cap]
  }
}
