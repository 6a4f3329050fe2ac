// What dns_cache_update (daemon/ndpi_dns_cache.h) extracts from the bytes of an
// IPv4 packet: the list of address bindings it inserts, in order. `d` is always
// the whole packet and `off` an offset into it, which may run past the end; the
// DNS message starts at `base`.
module DnsParser {
  import opened Basics

  datatype Binding = Binding(ip: Ip, name: string, ttl: U32)

  // sizeof(qname) - 1
  const NAME_CAP: nat := 79

  function Be16(d: seq<Byte>, off: nat): U16
    requires off + 2 <= |d|
  {
    d[off] as int * 256 + d[off + 1] as int
  }

  function Be32(d: seq<Byte>, off: nat): U32
    requires off + 4 <= |d|
  {
    Be16(d, off) * 0x1_0000 + Be16(d, off + 2)
  }

  function Chars(bytes: seq<Byte>): (s: string)
    ensures |s| == |bytes| && forall i :: 0 <= i < |s| ==> s[i] as int == bytes[i]
  {
    seq(|bytes|, i requires 0 <= i < |bytes| => bytes[i] as char)
  }

  // The bytes of one label that are copied: stops at the label's end, at the end
  // of the capture and when the buffer is full.
  function Copied(d: seq<Byte>, off: nat, llen: Byte, used: nat): (n: nat)
    requires off <= |d| && used <= NAME_CAP
    ensures n <= llen && off + n <= |d| && used + n <= NAME_CAP
  {
    Min(llen, Min(|d| - off, NAME_CAP - used))
  }

  function Dotted(name: string): (r: string)
    requires |name| <= NAME_CAP
    ensures |r| <= NAME_CAP
  {
    if 0 < |name| < NAME_CAP then name + "." else name
  }

  // Reads the query name from `off`; returns the offset after it and the buffer.
  function ReadName(d: seq<Byte>, off: nat, name: string): (r: (nat, string))
    requires |name| <= NAME_CAP
    ensures r.0 >= off && |r.1| <= NAME_CAP
    decreases if off < |d| then |d| - off else 0
  {
    if off >= |d| then (off, name)
    else if d[off] == 0 then (off + 1, name)
    else if d[off] >= 0xC0 then (off + 2, name)
    else
      var dotted := Dotted(name);
      var n := Copied(d, off + 1, d[off], |dotted|);
      ReadName(d, off + 1 + n, dotted + Chars(d[off + 1..off + 1 + n]))
  }

  // One round of the name loop.
  lemma ReadNameRound(d: seq<Byte>, off: nat, name: string)
    requires |name| <= NAME_CAP
    ensures off >= |d| ==> ReadName(d, off, name) == (off, name)
    ensures off < |d| && d[off] == 0 ==> ReadName(d, off, name) == (off + 1, name)
    ensures off < |d| && d[off] >= 0xC0 ==> ReadName(d, off, name) == (off + 2, name)
    ensures off < |d| && 0 < d[off] < 0xC0 ==>
      var n := Copied(d, off + 1, d[off], |Dotted(name)|);
      ReadName(d, off, name) == ReadName(d, off + 1 + n, Dotted(name) + Chars(d[off + 1..off + 1 + n]))
  {
  }

  // The offset after the name at `off`.
  function SkipName(d: seq<Byte>, off: nat): (r: nat)
    ensures r >= off
    decreases if off < |d| then |d| - off else 0
  {
    if off >= |d| then off
    else if d[off] == 0 then off + 1
    else if d[off] >= 0xC0 then off + 2
    else SkipName(d, off + 1 + d[off])
  }

  function SkipQuestions(d: seq<Byte>, off: nat, n: nat): (r: nat)
    ensures r >= off
    decreases n
  {
    if n == 0 || off >= |d| then off
    else SkipQuestions(d, SkipName(d, off) + 4, n - 1)
  }

  function Record(d: seq<Byte>, off: nat, name: string): seq<Binding>
    requires off + 10 <= |d| && off + 10 + Be16(d, off + 8) <= |d|
  {
    if Be16(d, off) == 1 && Be16(d, off + 8) == 4
    then [Binding(IpAt(d, off + 10), name, Be32(d, off + 4))]
    else []
  }

  function Answers(d: seq<Byte>, off: nat, n: nat, name: string): seq<Binding>
    decreases n
  {
    if n == 0 || off + 10 > |d| then []
    else
      var rec := SkipName(d, off);
      if rec + 10 > |d| || rec + 10 + Be16(d, rec + 8) > |d| then []
      else Record(d, rec, name) + Answers(d, rec + 10 + Be16(d, rec + 8), n - 1, name)
  }

  function HeaderLength(pkt: seq<Byte>): nat
    requires pkt != []
  {
    pkt[0] % 16 * 4
  }

  // IP, UDP and DNS headers are all captured.
  predicate HasHeaders(pkt: seq<Byte>) {
    |pkt| >= 40 && HeaderLength(pkt) >= 20 && |pkt| >= HeaderLength(pkt) + 8 + 12
  }

  // A response with at least one question and one answer.
  predicate IsResponse(d: seq<Byte>, base: nat)
    requires base + 12 <= |d|
  {
    d[base + 2] >= 0x80 && Be16(d, base + 6) != 0 && Be16(d, base + 4) != 0
  }

  // Where the answer records start, and the query name they are filed under.
  function AnswersStart(d: seq<Byte>, base: nat): (nat, string)
    requires base + 12 <= |d| && Be16(d, base + 4) != 0
  {
    var (off, name) := ReadName(d, base + 12, "");
    (SkipQuestions(d, off, Be16(d, base + 4) - 1) + 4, CString(name))
  }

  function ParseMessage(d: seq<Byte>, base: nat): seq<Binding>
    requires base + 12 <= |d|
  {
    if !IsResponse(d, base) then []
    else
      var (start, name) := AnswersStart(d, base);
      if name == "" then [] else Answers(d, start, Be16(d, base + 6), name)
  }

  function Parse(pkt: seq<Byte>): seq<Binding> {
    if HasHeaders(pkt) then ParseMessage(pkt, HeaderLength(pkt) + 8) else []
  }

  // ---- Truncated captures -------------------------------------------------

  lemma {:induction false} ReadNameCut(d: seq<Byte>, whole: seq<Byte>, off: nat, name: string)
    requires d <= whole && |name| <= NAME_CAP
    ensures ReadName(d, off, name) == ReadName(whole, off, name) || ReadName(d, off, name).0 >= |d|
    decreases if off < |d| then |d| - off else 0
  {
    hide Chars, Dotted;
    if off < |d| && 0 < d[off] < 0xC0 {
      var dotted := Dotted(name);
      var n := Copied(d, off + 1, d[off], |dotted|);
      if n == Copied(whole, off + 1, d[off], |dotted|) {
        assert d[off + 1..off + 1 + n] == whole[off + 1..off + 1 + n];
        ReadNameCut(d, whole, off + 1 + n, dotted + Chars(d[off + 1..off + 1 + n]));
      } else {
        assert off + 1 + n == |d|;
      }
    }
  }

  lemma {:induction false} SkipNameCut(d: seq<Byte>, whole: seq<Byte>, off: nat)
    requires d <= whole
    ensures SkipName(d, off) == SkipName(whole, off) || SkipName(d, off) >= |d|
    decreases if off < |d| then |d| - off else 0
  {
    if off < |d| && 0 < d[off] < 0xC0 {
      SkipNameCut(d, whole, off + 1 + d[off]);
    }
  }

  lemma {:induction false} SkipQuestionsCut(d: seq<Byte>, whole: seq<Byte>, off: nat, n: nat)
    requires d <= whole
    ensures SkipQuestions(d, off, n) == SkipQuestions(whole, off, n) || SkipQuestions(d, off, n) >= |d|
    decreases n
  {
    if n != 0 && off < |d| {
      SkipNameCut(d, whole, off);
      if SkipName(d, off) == SkipName(whole, off) {
        SkipQuestionsCut(d, whole, SkipName(d, off) + 4, n - 1);
      }
    }
  }

  lemma RecordCut(d: seq<Byte>, whole: seq<Byte>, off: nat, name: string)
    requires d <= whole
    requires off + 10 <= |d|
    ensures Be16(d, off + 8) == Be16(whole, off + 8)
    ensures off + 10 + Be16(d, off + 8) <= |d| ==> Record(d, off, name) == Record(whole, off, name)
  {
  }

  lemma SamePrefix<T>(x: seq<T>, a: seq<T>, b: seq<T>)
    requires a <= b
    ensures x + a <= x + b
  {
    assert b == a + b[|a|..];
    assert x + b == x + a + b[|a|..];
  }

  // One step of the answer loop.
  lemma AnswersStep(d: seq<Byte>, off: nat, n: nat, name: string, rec: nat, next: nat)
    requires n != 0 && off + 10 <= |d|
    requires rec == SkipName(d, off) && rec + 10 <= |d|
    requires next == rec + 10 + Be16(d, rec + 8) <= |d|
    ensures Answers(d, off, n, name) == Record(d, rec, name) + Answers(d, next, n - 1, name)
  {
  }

  lemma {:induction false} AnswersCut(d: seq<Byte>, whole: seq<Byte>, off: nat, n: nat, name: string)
    requires d <= whole
    ensures Answers(d, off, n, name) <= Answers(whole, off, n, name)
    decreases n
  {
    hide Be16, Record;
    var rec := SkipName(d, off);
    if n == 0 || off + 10 > |d| || rec + 10 > |d| {
      assert Answers(d, off, n, name) == [];
      return;
    }
    var next := rec + 10 + Be16(d, rec + 8);
    if next > |d| {
      assert Answers(d, off, n, name) == [];
      return;
    }
    RecordCut(d, whole, rec, name);
    SkipNameCut(d, whole, off);
    AnswersCut(d, whole, next, n - 1, name);
    AnswersStep(d, off, n, name, rec, next);
    AnswersStep(whole, off, n, name, rec, next);
    SamePrefix(Record(d, rec, name), Answers(d, next, n - 1, name), Answers(whole, next, n - 1, name));
  }

  lemma AnswersStartCut(d: seq<Byte>, whole: seq<Byte>, base: nat)
    requires d <= whole && base + 12 <= |d| && Be16(d, base + 4) != 0
    ensures AnswersStart(d, base) == AnswersStart(whole, base) || AnswersStart(d, base).0 >= |d|
  {
    ReadNameCut(d, whole, base + 12, "");
    SkipQuestionsCut(d, whole, ReadName(d, base + 12, "").0, Be16(d, base + 4) - 1);
  }

  lemma {:induction false} MessageCut(d: seq<Byte>, whole: seq<Byte>, base: nat)
    requires d <= whole && base + 12 <= |d|
    ensures ParseMessage(d, base) <= ParseMessage(whole, base)
  {
    assert IsResponse(d, base) == IsResponse(whole, base);
    if IsResponse(d, base) {
      AnswersStartCut(d, whole, base);
      var (start, name) := AnswersStart(d, base);
      if start >= |d| {
        assert Answers(d, start, Be16(d, base + 6), name) == [];
      } else {
        AnswersCut(d, whole, start, Be16(d, base + 6), name);
      }
    }
  }

  // Whatever the bytes and wherever the capture stops, a shorter capture yields
  // a prefix of the bindings of a longer one.
  lemma TruncationYieldsPrefix(cut: seq<Byte>, pkt: seq<Byte>)
    requires cut <= pkt
    ensures Parse(cut) <= Parse(pkt)
  {
    hide ParseMessage;
    if HasHeaders(cut) {
      assert cut[0] == pkt[0];
      MessageCut(cut, pkt, HeaderLength(cut) + 8);
    }
  }

  lemma {:induction false} AnswersAreNamed(d: seq<Byte>, off: nat, n: nat, name: string)
    ensures forall b :: b in Answers(d, off, n, name) ==> b.name == name
    decreases n
  {
    hide SkipName;
    if n > 0 && off + 10 <= |d| {
      var rec := SkipName(d, off);
      if rec + 10 <= |d| && rec + 10 + Be16(d, rec + 8) <= |d| {
        AnswersAreNamed(d, rec + 10 + Be16(d, rec + 8), n - 1, name);
      }
    }
  }

  // Every binding has a name, of at most 79 characters and free of NUL.
  lemma BindingsAreNamed(pkt: seq<Byte>)
    ensures forall b :: b in Parse(pkt) ==> b.name != "" && |b.name| <= 79 && '\0' !in b.name
  {
    hide Answers, ReadName, SkipQuestions;
    if HasHeaders(pkt) && IsResponse(pkt, HeaderLength(pkt) + 8) {
      var base := HeaderLength(pkt) + 8;
      var (off, name) := AnswersStart(pkt, base);
      NameIsCapped(pkt, base);
      AnswersAreNamed(pkt, off, Be16(pkt, base + 6), name);
    }
  }

  lemma NameIsCapped(d: seq<Byte>, base: nat)
    requires base + 12 <= |d| && Be16(d, base + 4) != 0
    ensures |AnswersStart(d, base).1| <= NAME_CAP && '\0' !in AnswersStart(d, base).1
  {
  }

  // What is not an answer yields nothing: too short for the headers, an IPv4 header of
  // fewer than 20 bytes, a query, or no question or answer counted.
  lemma NothingElse(pkt: seq<Byte>)
    ensures |pkt| < 40 ==> Parse(pkt) == []
    ensures |pkt| >= 40 ==>
      var udp := pkt[0] % 16 * 4;
      (udp < 20 || |pkt| < udp + 20) ==> Parse(pkt) == []
    ensures |pkt| >= 40 ==>
      var dns := pkt[0] % 16 * 4 + 8;
      |pkt| >= dns + 12 ==>
        && (pkt[dns + 2] < 128 ==> Parse(pkt) == [])
        && (pkt[dns + 4] == 0 && pkt[dns + 5] == 0 ==> Parse(pkt) == [])
        && (pkt[dns + 6] == 0 && pkt[dns + 7] == 0 ==> Parse(pkt) == [])
  {
    hide AnswersStart, Answers;
  }
}
