// From an Ethernet frame to a flow event, on both capture paths: the TC program
// (bpf/ndpi_observe.bpf.c) and the AF_PACKET daemon (daemon/main_noebpf.c).
module Capture {
  import opened Basics
  import DnsParser

  // The captured IP bytes, or the mark that not even the smallest tier was there.
  datatype Data = Payload(bytes: seq<Byte>) | TooShort

  datatype Event = Event(key: Key, pktLen: U16, data: Data, ts: nat)

  const ETH_LEN: nat := 14
  const ETH_P_IP: nat := 0x0800
  // FLOW_EVENT_DATA_LEN
  const DATA_LEN: nat := 512

  type Frame = seq<Byte>

  function IpHeaderLength(f: Frame): nat
    requires |f| > ETH_LEN
  {
    f[ETH_LEN] % 16 * 4
  }

  function Proto(f: Frame): Byte
    requires |f| >= 34
  {
    f[23]
  }

  // An IPv4 header lies within the first n bytes of the frame.
  predicate HasIpv4(f: Frame, n: nat)
    requires n <= |f|
  {
    && n >= ETH_LEN + 20
    && f[12] as int * 256 + f[13] == ETH_P_IP
    && f[14] / 16 == 4
    && IpHeaderLength(f) >= 20
    && n >= ETH_LEN + IpHeaderLength(f)
    && (Proto(f) == IPPROTO_TCP || Proto(f) == IPPROTO_UDP)
  }

  function Transport(f: Frame): nat
    requires |f| > ETH_LEN
  {
    ETH_LEN + IpHeaderLength(f)
  }

  // The kernel wants the whole transport header, the daemon only the ports.
  predicate KernelAccepts(f: Frame, linear: nat)
    requires linear <= |f|
  {
    HasIpv4(f, linear) && linear >= Transport(f) + (if Proto(f) == IPPROTO_TCP then 20 else 8)
  }

  predicate SocketAccepts(f: Frame) {
    HasIpv4(f, |f|) && |f| >= Transport(f) + 4
  }

  function FrameKey(f: Frame): Key
    requires SocketAccepts(f)
  {
    var t := Transport(f);
    Key(IpAt(f, 26), IpAt(f, 30), Port(f[t], f[t + 1]), Port(f[t + 2], f[t + 3]), Proto(f))
  }

  function TotalLength(f: Frame): U16
    requires |f| >= 34
  {
    f[16] as int * 256 + f[17]
  }

  const TIERS := {512, 256, 128, 60}

  // What the kernel copies of `n` available bytes.
  function Tier(n: nat): nat {
    if n >= 512 then 512 else if n >= 256 then 256 else if n >= 128 then 128 else if n >= 60 then 60 else 0
  }

  function KernelData(f: Frame): Data
    requires |f| >= ETH_LEN
  {
    var tier := Tier(|f| - ETH_LEN);
    if tier == 0 then TooShort else Payload(f[ETH_LEN..ETH_LEN + tier])
  }

  function KernelEvent(f: Frame, linear: nat, ts: nat): Option<Event>
    requires linear <= |f|
  {
    if KernelAccepts(f, linear) then Some(Event(FrameKey(f), TotalLength(f), KernelData(f), ts)) else None
  }

  function SocketEvent(f: Frame): Option<Event> {
    if SocketAccepts(f)
    then Some(Event(FrameKey(f), TotalLength(f), Payload(f[ETH_LEN..ETH_LEN + Min(DATA_LEN, |f| - ETH_LEN)]), 0))
    else None
  }

  // ---- The two paths, statement by statement -------------------------------

  // bpf_skb_load_bytes: all of the bytes, or none.
  method LoadBytes(f: Frame, off: nat, len: nat) returns (data: Option<seq<Byte>>)
    ensures data == if off + len <= |f| then Some(f[off..off + len]) else None
  {
    data := if off + len <= |f| then Some(f[off..off + len]) else None;
  }

  method CaptureTiers(f: Frame) returns (data: Data)
    requires |f| >= ETH_LEN
    ensures data == KernelData(f)
  {
    var got := LoadBytes(f, ETH_LEN, DATA_LEN);
    if got.None? { got := LoadBytes(f, ETH_LEN, 256); }
    if got.None? { got := LoadBytes(f, ETH_LEN, 128); }
    if got.None? { got := LoadBytes(f, ETH_LEN, 60); }
    data := if got.Some? then Payload(got.value) else TooShort;
  }

  // The header checks at the top of process_pkt; `linear` bytes are directly readable.
  method ParseFrame(f: Frame, linear: nat) returns (parsed: Option<(Key, U16)>)
    requires linear <= |f|
    ensures parsed == if KernelAccepts(f, linear) then Some((FrameKey(f), TotalLength(f))) else None
  {
    if 14 > linear { return None; }
    if f[12] as int * 256 + f[13] != ETH_P_IP { return None; }
    if 14 + 20 > linear { return None; }
    if f[14] / 16 != 4 { return None; }
    var ihl := f[14] % 16 * 4;
    if ihl < 20 { return None; }
    if 14 + ihl > linear { return None; }
    var src, dst, proto := IpAt(f, 26), IpAt(f, 30), f[23];
    var l4 := 14 + ihl;
    if proto == IPPROTO_TCP {
      if l4 + 20 > linear { return None; }
    } else if proto == IPPROTO_UDP {
      if l4 + 8 > linear { return None; }
    } else {
      return None;
    }
    var key := Key(src, dst, Port(f[l4], f[l4 + 1]), Port(f[l4 + 2], f[l4 + 3]), proto);
    return Some((key, f[16] as int * 256 + f[17]));
  }

  lemma SliceOfPrefix(s: seq<Byte>, n: nat, from: nat, to: nat)
    requires from <= to <= n <= |s|
    ensures s[..n][from..to] == s[from..to]
  {
  }

  // The body of the receive loop: n bytes of the buffer have been filled.
  method BuildEvent(buf: array<Byte>, n: nat) returns (evt: Option<Event>)
    requires n <= buf.Length
    ensures evt == SocketEvent(buf[..n])
  {
    ghost var f := buf[..n];
    if n < 14 + 20 { return None; }
    if buf[12] as int * 256 + buf[13] != ETH_P_IP { return None; }
    var ipLen := n - 14;
    if buf[14] / 16 != 4 { return None; }
    var ihl := buf[14] % 16 * 4;
    if ihl < 20 || ipLen < ihl { return None; }
    var proto := buf[23];
    if proto != IPPROTO_TCP && proto != IPPROTO_UDP { return None; }
    if ipLen < ihl + 4 { return None; }
    var l4 := 14 + ihl;
    var key := Key(Ip(buf[26], buf[27], buf[28], buf[29]), Ip(buf[30], buf[31], buf[32], buf[33]),
                   Port(buf[l4], buf[l4 + 1]), Port(buf[l4 + 2], buf[l4 + 3]), proto);
    var copyLen := if ipLen > DATA_LEN then DATA_LEN else ipLen;
    ghost var all := buf[..];
    assert f == all[..n] && buf[14..14 + copyLen] == all[14..14 + copyLen];
    SliceOfPrefix(all, n, 14, 14 + copyLen);
    return Some(Event(key, buf[16] as int * 256 + buf[17], Payload(buf[14..14 + copyLen]), 0));
  }

  // ---- The kernel path against the AF_PACKET path --------------------------

  // The kernel accepts a frame exactly when the daemon does and the linear part
  // of the packet holds the whole transport header.
  lemma KernelAcceptsIff(f: Frame, linear: nat)
    requires linear <= |f|
    ensures KernelAccepts(f, linear) <==>
      SocketAccepts(f) && linear >= Transport(f) + (if Proto(f) == IPPROTO_TCP then 20 else 8)
  {
  }

  // Same key, same length; the kernel's payload is the largest tier that fits and
  // the start of the daemon's, so its DNS bindings are the first of the daemon's.
  lemma KernelEventRefines(f: Frame, linear: nat, ts: nat)
    requires linear <= |f| && KernelEvent(f, linear, ts).Some?
    ensures SocketEvent(f).Some?
    ensures var k, s := KernelEvent(f, linear, ts).value, SocketEvent(f).value;
      && k.key == s.key && k.pktLen == s.pktLen && s.data.Payload?
      && (k.data.TooShort? <==> |f| - ETH_LEN < 60)
      && (k.data.Payload? ==>
           && |k.data.bytes| in TIERS
           && (forall t :: t in TIERS && t > |k.data.bytes| ==> t > |f| - ETH_LEN)
           && k.data.bytes <= s.data.bytes
           && DnsParser.Parse(k.data.bytes) <= DnsParser.Parse(s.data.bytes))
  {
    hide DnsParser.Parse, FrameKey;
    var k, s := KernelEvent(f, linear, ts).value, SocketEvent(f).value;
    if k.data.Payload? {
      assert k.data.bytes == s.data.bytes[..|k.data.bytes|];
      DnsParser.TruncationYieldsPrefix(k.data.bytes, s.data.bytes);
    }
  }
}
