// The direct-mapped address cache of daemon/ndpi_dns_cache.h: its slots as a
// value, and the log of every insert that the slots are compared with.
module DnsSlots {
  import opened Basics
  import opened DnsParser

  const SIZE: nat := 512
  const MAX_TTL: nat := 300

  datatype Slot = Slot(ip: Ip, expires: U32, app: U16, host: string)

  const EMPTY_SLOT := Slot(Ip(0, 0, 0, 0), 0, 0, "")

  // The address as the 32-bit word a little-endian host loads.
  function Word(ip: Ip): U32 {
    ip.a as int + 0x100 * ip.b + 0x1_0000 * ip.c + 0x100_0000 * ip.d
  }

  function Folded(w: U32): nat {
    Xor(w, w / 0x1_0000)
  }

  function Hash(ip: Ip): (r: nat)
    ensures r < SIZE
  {
    var x := Folded(Word(ip)) * 0x45d9f3b % 0x1_0000_0000;
    Folded(x) % SIZE
  }

  // The hash of two addresses, worked out digit by digit.
  lemma HashValues()
    ensures Hash(Ip(1, 0, 0, 0)) == 358 && Hash(Ip(2, 0, 0, 0)) == 205
  {
    hide Xor;
    NoXor(1);
    NoXor(2);
    FirstXor();
    SecondXor();
  }

  lemma NoXor(a: nat)
    ensures Xor(a, 0) == a
  {
  }

  // One binary digit more.
  lemma XorDigit(a: nat, b: nat, x: nat, y: nat, r: nat)
    requires x <= 1 && y <= 1 && Xor(a, b) == r
    ensures Xor(2 * a + x, 2 * b + y) == 2 * r + if x == y then 0 else 1
  {
  }

  lemma FirstXor()
    ensures Xor(0x45d9f3b, 0x45d) == 0x45d9b66
  {
    hide Xor;
    NoXor(35763);
    XorDigit(35763, 0, 1, 1, 35763);
    XorDigit(71527, 1, 1, 0, 71526);
    XorDigit(143055, 2, 1, 0, 143053);
    XorDigit(286111, 4, 0, 0, 286107);
    XorDigit(572222, 8, 0, 1, 572214);
    XorDigit(1144444, 17, 1, 0, 1144429);
    XorDigit(2288889, 34, 1, 1, 2288859);
    XorDigit(4577779, 69, 1, 1, 4577718);
    XorDigit(9155559, 139, 0, 1, 9155436);
    XorDigit(18311118, 279, 1, 0, 18310873);
    XorDigit(36622237, 558, 1, 1, 36621747);
  }

  lemma SecondXor()
    ensures Xor(0x8bb3e76, 0x8bb) == 0x8bb36cd
  {
    hide Xor;
    NoXor(35763);
    XorDigit(35763, 0, 1, 1, 35763);
    XorDigit(71527, 1, 1, 0, 71526);
    XorDigit(143055, 2, 1, 0, 143053);
    XorDigit(286111, 4, 0, 0, 286107);
    XorDigit(572222, 8, 0, 1, 572214);
    XorDigit(1144444, 17, 1, 0, 1144429);
    XorDigit(2288889, 34, 1, 1, 2288859);
    XorDigit(4577779, 69, 1, 1, 4577718);
    XorDigit(9155559, 139, 0, 1, 9155436);
    XorDigit(18311118, 279, 1, 0, 18310873);
    XorDigit(36622237, 558, 1, 1, 36621747);
    XorDigit(73244475, 1117, 0, 1, 73243494);
  }

  // Expiry is kept in 32 bits and may wrap around.
  function Expiry(ttl: U32, now: U32): U32 {
    (now + Min(ttl, MAX_TTL)) % 0x1_0000_0000
  }

  type Slots = s: seq<Slot> | |s| == SIZE witness seq(SIZE, _ => EMPTY_SLOT)

  function Insert(slots: Slots, b: Binding, now: U32): Slots {
    slots[Hash(b.ip) := Slot(b.ip, Expiry(b.ttl, now), 0, Capped(b.name, NAME_CAP))]
  }

  function InsertAll(slots: Slots, bindings: seq<Binding>, now: U32): Slots
    decreases |bindings|
  {
    if bindings == [] then slots
    else InsertAll(Insert(slots, bindings[0], now), bindings[1..], now)
  }

  // The slot holding a live entry for `ip`, if there is one.
  function Lookup(slots: Slots, ip: Ip, now: U32): (r: Option<nat>)
    ensures r.Some? ==> r.value < SIZE
  {
    var s := slots[Hash(ip)];
    if s.ip == ip && s.host != "" && now < s.expires then Some(Hash(ip)) else None
  }

  // ---- The unbounded log ---------------------------------------------------

  datatype Logged = Logged(binding: Binding, at: U32)

  function Stamp(bindings: seq<Binding>, now: U32): seq<Logged> {
    if bindings == [] then [] else [Logged(bindings[0], now)] + Stamp(bindings[1..], now)
  }

  // `j` is the last insert that went to slot `i`.
  ghost predicate LastInto(log: seq<Logged>, i: int, j: int) {
    && 0 <= j < |log| && Hash(log[j].binding.ip) == i
    && forall k :: j < k < |log| ==> Hash(log[k].binding.ip) != i
  }

  ghost predicate Holds(s: Slot, l: Logged) {
    && s.ip == l.binding.ip && s.host == Capped(l.binding.name, NAME_CAP)
    && s.expires == Expiry(l.binding.ttl, l.at)
  }

  // Every slot holds the last insert into it, and is blank if there was none.
  ghost predicate Agrees(slots: Slots, log: seq<Logged>) {
    && (forall i, j :: 0 <= i < SIZE && LastInto(log, i, j) ==> Holds(slots[i], log[j]))
    && (forall i :: 0 <= i < SIZE && (forall k :: 0 <= k < |log| ==> Hash(log[k].binding.ip) != i) ==>
          slots[i].host == "")
  }

  lemma AgreesAtStart(slots: Slots)
    requires forall i :: 0 <= i < SIZE ==> slots[i].host == ""
    ensures Agrees(slots, [])
  {
  }

  lemma InsertAgrees(slots: Slots, log: seq<Logged>, b: Binding, now: U32)
    requires Agrees(slots, log)
    ensures Agrees(Insert(slots, b, now), log + [Logged(b, now)])
  {
    hide Hash, Expiry;
    var slots', log' := Insert(slots, b, now), log + [Logged(b, now)];
    assert forall k :: 0 <= k < |log| ==> log'[k] == log[k];
    assert log'[|log|] == Logged(b, now);
    forall i, j | 0 <= i < SIZE && LastInto(log', i, j) ensures Holds(slots'[i], log'[j]) {
      if j < |log| {
        assert LastInto(log, i, j);
      }
    }
    forall i | 0 <= i < SIZE && (forall k :: 0 <= k < |log'| ==> Hash(log'[k].binding.ip) != i)
      ensures slots'[i].host == ""
    {
      assert Hash(log'[|log|].binding.ip) != i;
      forall k | 0 <= k < |log| ensures Hash(log[k].binding.ip) != i {
        assert Hash(log'[k].binding.ip) != i;
      }
    }
  }

  // Not yet expired: a binding lives for its time to live, at most 300 seconds. The
  // end is kept in 32 bits, so one beyond them lies at the start of the count again.
  predicate Unexpired(l: Logged, now: U32) {
    var end := l.at + if l.binding.ttl > 300 then 300 else l.binding.ttl;
    now < if end < 0x1_0000_0000 then end else end - 0x1_0000_0000
  }

  lemma ExpiryValue(ttl: U32, at: U32)
    ensures var end := at + if ttl > 300 then 300 else ttl;
      Expiry(ttl, at) == if end < 0x1_0000_0000 then end else end - 0x1_0000_0000
  {
  }

  lemma ExpiryInNumbers(l: Logged, now: U32)
    ensures now < Expiry(l.binding.ttl, l.at) <==> Unexpired(l, now)
  {
  }

  // An insert for this very address, still unexpired, with nothing inserted into
  // its slot since.
  ghost predicate Live(log: seq<Logged>, j: int, ip: Ip, now: U32) {
    && LastInto(log, Hash(ip), j) && log[j].binding.ip == ip
    && log[j].binding.name != "" && Unexpired(log[j], now)
  }

  // What is inserted is found, under its own name, from then on until its time is up,
  // and not a second longer; whatever was in the slot before.
  lemma InsertThenLookup(slots: Slots, b: Binding, at: U32, now: U32)
    requires b.name != "" && |b.name| <= 79
    ensures var end := at + if b.ttl > 300 then 300 else b.ttl;
      var after := Insert(slots, b, at);
      var found := Lookup(after, b.ip, now);
      && (end < 0x1_0000_0000 ==> (found.Some? <==> now < end))
      && (end >= 0x1_0000_0000 ==> (found.Some? <==> now < end - 0x1_0000_0000))
      && (found.Some? ==> after[found.value].host == b.name && after[found.value].ip == b.ip)
  {
    hide Hash;
    ExpiryInNumbers(Logged(b, at), now);
  }

  lemma {:induction false} SomeLast(log: seq<Logged>, i: int) returns (j: int)
    ensures LastInto(log, i, j) || forall k :: 0 <= k < |log| ==> Hash(log[k].binding.ip) != i
    decreases |log|
  {
    hide Hash;
    j := 0;
    if log != [] {
      var n := |log| - 1;
      if Hash(log[n].binding.ip) == i {
        j := n;
      } else {
        j := SomeLast(log[..n], i);
        if LastInto(log[..n], i, j) {
          assert LastInto(log, i, j) by {
            assert forall k :: 0 <= k < n ==> log[..n][k] == log[k];
          }
        } else {
          assert forall k :: 0 <= k < n ==> log[..n][k] == log[k];
        }
      }
    }
  }

  // A lookup hits exactly when the log holds a live insert for the address, and
  // then returns that insert, strictly before its time plus min(ttl, 300).
  lemma LookupIsLatestLive(slots: Slots, log: seq<Logged>, ip: Ip, now: U32)
    requires Agrees(slots, log)
    ensures Lookup(slots, ip, now).Some? <==> exists j :: Live(log, j, ip, now)
    ensures forall j :: Live(log, j, ip, now) ==>
      && Lookup(slots, ip, now) == Some(Hash(ip))
      && slots[Hash(ip)].host == Capped(log[j].binding.name, NAME_CAP)
      && now < log[j].at + (if log[j].binding.ttl > 300 then 300 else log[j].binding.ttl)
      && forall k :: j < k < |log| ==> log[k].binding.ip != ip
  {
    hide Hash;
    var last := SomeLast(log, Hash(ip));
    forall l: Logged ensures now < Expiry(l.binding.ttl, l.at) <==> Unexpired(l, now) {
      ExpiryInNumbers(l, now);
    }
    if Lookup(slots, ip, now).Some? {
      assert LastInto(log, Hash(ip), last) && Holds(slots[Hash(ip)], log[last]);
      assert Live(log, last, ip, now);
    }
    forall j | Live(log, j, ip, now)
      ensures Lookup(slots, ip, now) == Some(Hash(ip))
      ensures slots[Hash(ip)].host == Capped(log[j].binding.name, NAME_CAP)
      ensures now < log[j].at + (if log[j].binding.ttl > 300 then 300 else log[j].binding.ttl)
      ensures forall k :: j < k < |log| ==> log[k].binding.ip != ip
    {
      assert Holds(slots[Hash(ip)], log[j]);
    }
  }
}

// The cache as the daemon updates it, slot by slot.
module DnsCaches {
  import opened Basics
  import opened DnsParser
  import opened DnsSlots

  class DnsCache {
    const entries: array<Slot>
    ghost var log: seq<Logged>

    ghost predicate Valid()
      reads this, entries
    {
      entries.Length == SIZE && Agrees(entries[..], log)
    }

    ghost function View(): Slots
      reads this, entries
      requires Valid()
    {
      entries[..]
    }

    constructor ()
      ensures Valid() && fresh(entries)
      ensures log == [] && forall i :: 0 <= i < SIZE ==> View()[i] == EMPTY_SLOT
    {
      entries := new Slot[SIZE](_ => EMPTY_SLOT);
      log := [];
      new;
      AgreesAtStart(entries[..]);
    }

    method Insert(ip: Ip, name: string, ttl: U32, now: U32)
      requires Valid()
      modifies this, entries
      ensures Valid()
      ensures View() == DnsSlots.Insert(old(View()), Binding(ip, name, ttl), now)
      ensures log == old(log) + [Logged(Binding(ip, name, ttl), now)]
      ensures var s, end := View()[Hash(ip)], now + (if ttl > 300 then 300 else ttl);
        && s.ip == ip && s.app == 0 && s.host == (if |name| <= 79 then name else name[..79])
        && s.expires == (if end < 0x1_0000_0000 then end else end - 0x1_0000_0000)
    {
      hide Hash, Expiry, Agrees;
      ExpiryValue(ttl, now);
      InsertAgrees(View(), log, Binding(ip, name, ttl), now);
      var idx := Hash(ip);
      entries[idx] := Slot(ip, Expiry(ttl, now), 0, Capped(name, NAME_CAP));
      log := log + [Logged(Binding(ip, name, ttl), now)];
      assert entries[..] == DnsSlots.Insert(old(entries[..]), Binding(ip, name, ttl), now);
    }

    method LookupEntry(ip: Ip, now: U32) returns (at: Option<nat>)
      requires Valid()
      ensures at == Lookup(View(), ip, now)
    {
      hide Hash, Agrees;
      var idx := Hash(ip);
      var e := entries[idx];
      if e.ip == ip && e.host != "" && now < e.expires {
        return Some(idx);
      }
      return None;
    }

    method Entry(at: nat) returns (e: Slot)
      requires Valid() && at < SIZE
      ensures e == View()[at]
    {
      e := entries[at];
    }

    // Writing back what an entry already remembers changes nothing.
    lemma SameMemo(at: nat)
      requires Valid() && at < SIZE
      ensures View()[at := View()[at].(app := View()[at].app)] == View()
    {
    }

    // Remembers the application an entry's host name resolved to.
    method Memoise(at: nat, app: U16)
      requires Valid() && at < SIZE
      modifies entries
      ensures Valid()
      ensures View() == old(View())[at := old(View())[at].(app := app)]
    {
      entries[at] := entries[at].(app := app);
      assert entries[..] == old(entries[..])[at := old(entries[at]).(app := app)];
    }

    // Parses one DNS response and inserts its addresses, in one pass over the
    // packet: the slots and the log end up as if the parsed list had been inserted.
    method Update(pkt: seq<Byte>, now: U32)
      requires Valid()
      modifies this, entries
      ensures Valid()
      ensures View() == InsertAll(old(View()), Parse(pkt), now)
      ensures log == old(log) + Stamp(Parse(pkt), now)
    {
      hide Agrees, Answers, ReadName, SkipName, SkipQuestions, CString, InsertAll, Stamp;
      EmptyBindings(View(), now);
      if |pkt| < 40 { return; }
      var ihl := pkt[0] % 16 * 4;
      if ihl < 20 || |pkt| < ihl + 8 + 12 { return; }
      var dns := ihl + 8;
      var qdcount, ancount := Be16(pkt, dns + 4), Be16(pkt, dns + 6);
      if pkt[dns + 2] < 0x80 || ancount == 0 || qdcount == 0 { return; }

      var off, qname := ReadQueryName(pkt, dns + 12);
      if qname == "" { return; }
      off := SkipMoreQuestions(pkt, off, qdcount - 1);
      off := off + 4;
      assert AnswersStart(pkt, dns) == (off, qname);
      InsertAnswers(pkt, off, ancount, qname, now);
    }

    method InsertAnswers(d: seq<Byte>, start: nat, ancount: nat, qname: string, now: U32)
      requires Valid()
      modifies this, entries
      ensures Valid()
      ensures View() == InsertAll(old(View()), Answers(d, start, ancount, qname), now)
      ensures log == old(log) + Stamp(Answers(d, start, ancount, qname), now)
    {
      hide Agrees, DnsSlots.Insert, SkipName, Answers, Record, Pending;
      ghost var all := Answers(d, start, ancount, qname);
      ghost var slots, whole := InsertAll(View(), all, now), log + Stamp(all, now);
      PendingAtStart(View(), log, all, now);
      var off: nat, a: nat := start, 0;
      while a < ancount && off + 10 <= |d|
        invariant Valid() && a <= ancount
        invariant Pending(View(), log, Answers(d, off, ancount - a, qname), now, slots, whole)
      {
        var rec := SkipOwner(d, off);
        if rec + 10 > |d| { break; }
        var rtype, ttl, rdlength := Be16(d, rec), Be32(d, rec + 4), Be16(d, rec + 8);
        if rec + 10 + rdlength > |d| { break; }
        AnswersStep(d, off, ancount - a, qname, rec, rec + 10 + rdlength);
        RecordIs(d, rec, qname);
        PendingStep(View(), log, Record(d, rec, qname), Answers(d, rec + 10 + rdlength, ancount - a - 1, qname),
                    now, slots, whole);
        if rtype == 1 && rdlength == 4 {
          Insert(IpAt(d, rec + 10), qname, ttl, now);
        }
        off := rec + 10 + rdlength;
        a := a + 1;
      }
      AnswersEnd(d, off, ancount - a, qname);
      PendingAtEnd(View(), log, now, slots, whole);
    }
  }

  // What is left to insert leads from here to the final slots and log.
  ghost predicate Pending(slots: Slots, log: seq<Logged>, left: seq<Binding>, now: U32,
                          final: Slots, whole: seq<Logged>) {
    InsertAll(slots, left, now) == final && log + Stamp(left, now) == whole
  }

  lemma PendingAtStart(slots: Slots, log: seq<Logged>, left: seq<Binding>, now: U32)
    ensures Pending(slots, log, left, now, InsertAll(slots, left, now), log + Stamp(left, now))
  {
  }

  lemma PendingAtEnd(slots: Slots, log: seq<Logged>, now: U32, final: Slots, whole: seq<Logged>)
    requires Pending(slots, log, [], now, final, whole)
    ensures slots == final && log == whole
  {
  }

  lemma EmptyBindings(slots: Slots, now: U32)
    ensures InsertAll(slots, [], now) == slots && Stamp([], now) == []
  {
  }

  lemma PendingStep(slots: Slots, log: seq<Logged>, rec: seq<Binding>, rest: seq<Binding>, now: U32,
                    final: Slots, whole: seq<Logged>)
    requires |rec| <= 1 && Pending(slots, log, rec + rest, now, final, whole)
    ensures rec == [] ==> Pending(slots, log, rest, now, final, whole)
    ensures rec != [] ==>
      Pending(DnsSlots.Insert(slots, rec[0], now), log + [Logged(rec[0], now)], rest, now, final, whole)
  {
    hide DnsSlots.Insert;
    if rec == [] {
      assert rec + rest == rest;
    } else {
      assert (rec + rest)[0] == rec[0] && (rec + rest)[1..] == rest;
    }
  }

  lemma RecordIs(d: seq<Byte>, rec: nat, name: string)
    requires rec + 10 <= |d| && rec + 10 + Be16(d, rec + 8) <= |d|
    ensures Record(d, rec, name) ==
      if Be16(d, rec) == 1 && Be16(d, rec + 8) == 4
      then [Binding(IpAt(d, rec + 10), name, Be32(d, rec + 4))] else []
  {
  }

  lemma AnswersEnd(d: seq<Byte>, off: nat, n: nat, name: string)
    requires n == 0 || off + 10 > |d| || SkipName(d, off) + 10 > |d|
          || SkipName(d, off) + 10 + Be16(d, SkipName(d, off) + 8) > |d|
    ensures Answers(d, off, n, name) == []
  {
  }

  // Copies the query name into an 80-byte buffer, one label after the other.
  method ReadQueryName(d: seq<Byte>, start: nat) returns (off: nat, name: string)
    ensures var (end, buf) := ReadName(d, start, ""); off == end && name == CString(buf)
  {
    hide CString, Chars, Copied, Dotted, ReadName;
    var qname := new char[NAME_CAP + 1](_ => '\0');
    var npos: nat := 0;
    ghost var buf := "";
    off := start;
    assert qname[..npos] == buf;
    while off < |d|
      invariant npos <= NAME_CAP && qname[..npos] == buf
      invariant ReadName(d, off, buf) == ReadName(d, start, "")
    {
      ReadNameRound(d, off, buf);
      var llen := d[off];
      off := off + 1;
      if llen == 0 {
        return off, CString(qname[..npos]);
      }
      if llen >= 0xC0 {
        off := off + 1;
        return off, CString(qname[..npos]);
      }
      npos := AddDot(qname, npos);
      ghost var from := off;
      off, npos := CopyLabel(d, off, llen, qname, npos);
      buf := Dotted(buf) + Chars(d[from..off]);
    }
    ReadNameRound(d, off, buf);
    name := CString(qname[..npos]);
  }

  method AddDot(buf: array<char>, used: nat) returns (npos: nat)
    requires buf.Length == NAME_CAP + 1 && used <= NAME_CAP
    modifies buf
    ensures npos <= NAME_CAP && buf[..npos] == Dotted(old(buf[..used]))
  {
    npos := used;
    if npos > 0 && npos < NAME_CAP {
      buf[npos] := '.';
      npos := npos + 1;
      assert buf[..npos] == old(buf[..used]) + ".";
    }
  }

  // Appends the bytes of one label that are captured and still fit.
  method CopyLabel(d: seq<Byte>, from: nat, llen: Byte, buf: array<char>, used: nat)
    returns (off: nat, npos: nat)
    requires from <= |d| && buf.Length == NAME_CAP + 1 && used <= NAME_CAP
    modifies buf
    ensures var n := Copied(d, from, llen, used);
      off == from + n && npos == used + n
      && buf[..npos] == old(buf[..used]) + Chars(d[from..off])
  {
    off, npos := from, used;
    var i: nat := 0;
    while i < llen && off < |d| && npos < NAME_CAP
      invariant i <= llen && off == from + i <= |d| && npos == used + i <= NAME_CAP
      invariant buf[..npos] == old(buf[..used]) + Chars(d[from..off])
    {
      ghost var done := buf[..npos];
      buf[npos] := d[off] as char;
      assert buf[..npos + 1] == done + [d[off] as char];
      assert Chars(d[from..off + 1]) == Chars(d[from..off]) + [d[off] as char];
      npos, off, i := npos + 1, off + 1, i + 1;
    }
    assert i == Copied(d, from, llen, used);
  }

  method SkipMoreQuestions(d: seq<Byte>, start: nat, more: nat) returns (off: nat)
    ensures off == SkipQuestions(d, start, more)
  {
    off := start;
    var q: nat := 0;
    while q < more && off < |d|
      invariant q <= more
      invariant SkipQuestions(d, off, more - q) == SkipQuestions(d, start, more)
    {
      off := SkipLabels(d, off);
      off := off + 4;
      q := q + 1;
    }
  }

  method SkipLabels(d: seq<Byte>, start: nat) returns (off: nat)
    ensures off == SkipName(d, start)
  {
    off := start;
    while off < |d|
      invariant SkipName(d, off) == SkipName(d, start)
    {
      var llen := d[off];
      if llen == 0 { return off + 1; }
      if llen >= 0xC0 { return off + 2; }
      off := off + 1 + llen;
    }
  }

  // The owner name of an answer is usually a pointer, which is tried first.
  method SkipOwner(d: seq<Byte>, start: nat) returns (off: nat)
    ensures off == SkipName(d, start)
  {
    if start < |d| && d[start] >= 0xC0 {
      off := start + 2;
    } else {
      off := SkipLabels(d, start);
    }
  }
}
