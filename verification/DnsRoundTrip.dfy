// An encoder for DNS responses after sections 4.1.1 to 4.1.4 of RFC 1035, and
// the proof that the parser gets back exactly the addresses that were encoded.
module DnsRoundTrip {
  import opened Basics
  import opened DnsParser

  // Section 4.1.4: a name is a list of labels ended by the root or by a pointer.
  datatype Ending = Root | Pointer(hi: Byte, lo: Byte)
  datatype Name = Name(labels: seq<seq<Byte>>, ending: Ending)
  datatype Answer = Answer(owner: Name, rtype: U16, rclass: U16, ttl: U32, rdata: seq<Byte>)
  datatype Message = Message(
    id: U16, flags: U16, question: seq<seq<Byte>>, qtype: U16, qclass: U16,
    answers: seq<Answer>, nscount: U16, arcount: U16, rest: seq<Byte>)

  predicate ValidLabels(labels: seq<seq<Byte>>) {
    forall i :: 0 <= i < |labels| ==> 1 <= |labels[i]| <= 63
  }

  predicate ValidName(n: Name) {
    ValidLabels(n.labels) && (n.ending.Pointer? ==> n.ending.hi >= 0xC0)
  }

  predicate ValidAnswer(a: Answer) {
    ValidName(a.owner) && |a.rdata| < 0x1_0000
  }

  // A response with one question, of any name.
  predicate Valid(m: Message) {
    && m.flags >= 0x8000
    && ValidLabels(m.question)
    && |m.answers| < 0x1_0000
    && (forall i :: 0 <= i < |m.answers| ==> ValidAnswer(m.answers[i]))
  }

  // A name the parser can hold: 1 to 79 characters, none of them NUL.
  predicate Readable(name: string) {
    0 < |name| <= 79 && '\0' !in name
  }

  function DottedName(labels: seq<seq<Byte>>): string {
    if labels == [] then ""
    else if |labels| == 1 then Chars(labels[0])
    else Chars(labels[0]) + "." + DottedName(labels[1..])
  }

  function Put16(n: U16): (r: seq<Byte>)
    ensures |r| == 2 && Be16(r, 0) == n
  {
    [n / 256, n % 256]
  }

  function Put32(n: U32): (r: seq<Byte>)
    ensures |r| == 4 && Be32(r, 0) == n
  {
    var hi, lo := n / 0x1_0000, n % 0x1_0000;
    [hi / 256, hi % 256, lo / 256, lo % 256]
  }

  function PutLabels(labels: seq<seq<Byte>>): seq<Byte>
    requires ValidLabels(labels)
  {
    if labels == [] then [] else [|labels[0]|] + labels[0] + PutLabels(labels[1..])
  }

  function PutEnding(e: Ending): seq<Byte> {
    if e.Root? then [0] else [e.hi, e.lo]
  }

  function PutName(n: Name): seq<Byte>
    requires ValidName(n)
  {
    PutLabels(n.labels) + PutEnding(n.ending)
  }

  function PutFixed(a: Answer): (r: seq<Byte>)
    requires ValidAnswer(a)
    ensures |r| == 10
  {
    Put16(a.rtype) + Put16(a.rclass) + Put32(a.ttl) + Put16(|a.rdata|)
  }

  function PutAnswer(a: Answer): seq<Byte>
    requires ValidAnswer(a)
  {
    PutName(a.owner) + PutFixed(a) + a.rdata
  }

  function PutAnswers(answers: seq<Answer>): seq<Byte>
    requires forall i :: 0 <= i < |answers| ==> ValidAnswer(answers[i])
  {
    if answers == [] then [] else PutAnswer(answers[0]) + PutAnswers(answers[1..])
  }

  function PutHeader(m: Message): (r: seq<Byte>)
    requires Valid(m)
    ensures |r| == 12
  {
    Put16(m.id) + Put16(m.flags) + Put16(1) + Put16(|m.answers|) + Put16(m.nscount) + Put16(m.arcount)
  }

  function PutQuestion(m: Message): seq<Byte>
    requires Valid(m)
  {
    PutLabels(m.question) + [0] + Put16(m.qtype) + Put16(m.qclass)
  }

  // `rest` stands for the authority and additional sections.
  function Encode(m: Message): seq<Byte>
    requires Valid(m)
  {
    PutHeader(m) + PutQuestion(m) + PutAnswers(m.answers) + m.rest
  }

  // Section 3.4.1: the four bytes of an address, first to last.
  function Address(rdata: seq<Byte>): Ip
    requires |rdata| == 4
  {
    Ip(rdata[0], rdata[1], rdata[2], rdata[3])
  }

  function Expected(answers: seq<Answer>, name: string): seq<Binding> {
    if answers == [] then []
    else
      (if answers[0].rtype == 1 && |answers[0].rdata| == 4
       then [Binding(Address(answers[0].rdata), name, answers[0].ttl)] else [])
      + Expected(answers[1..], name)
  }

  // `x` lies at offset `off` of `d`.
  predicate At(d: seq<Byte>, off: nat, x: seq<Byte>) {
    off + |x| <= |d| && d[off..off + |x|] == x
  }

  lemma AtSplit(d: seq<Byte>, off: nat, x: seq<Byte>, y: seq<Byte>)
    requires At(d, off, x + y)
    ensures At(d, off, x) && At(d, off + |x|, y)
  {
    assert x == (x + y)[..|x|] && y == (x + y)[|x|..];
  }

  lemma AtBytes(d: seq<Byte>, off: nat, x: seq<Byte>)
    requires At(d, off, x)
    ensures forall i :: 0 <= i < |x| ==> d[off + i] == x[i]
  {
    forall i | 0 <= i < |x| ensures d[off + i] == x[i] {
      assert d[off..off + |x|][i] == x[i];
    }
  }

  // ---- Names ---------------------------------------------------------------

  lemma {:induction false} SkipsLabels(d: seq<Byte>, off: nat, labels: seq<seq<Byte>>)
    requires ValidLabels(labels) && At(d, off, PutLabels(labels))
    ensures SkipName(d, off) == SkipName(d, off + |PutLabels(labels)|)
    decreases |labels|
  {
    if labels != [] {
      var head, tail := [|labels[0]|] + labels[0], PutLabels(labels[1..]);
      AtSplit(d, off, head, tail);
      AtBytes(d, off, head);
      assert d[off] == |labels[0]|;
      SkipsLabels(d, off + |head|, labels[1..]);
    }
  }

  lemma SkipsName(d: seq<Byte>, off: nat, n: Name)
    requires ValidName(n) && At(d, off, PutName(n))
    ensures SkipName(d, off) == off + |PutName(n)|
  {
    AtSplit(d, off, PutLabels(n.labels), PutEnding(n.ending));
    SkipsLabels(d, off, n.labels);
    AtBytes(d, off + |PutLabels(n.labels)|, PutEnding(n.ending));
    var last := off + |PutLabels(n.labels)|;
    assert d[last] == PutEnding(n.ending)[0];
  }

  function Separated(name: string): string {
    if name == "" then "" else name + "."
  }

  // The buffer after the remaining labels have been appended to it.
  function Appended(name: string, labels: seq<seq<Byte>>): string
    decreases |labels|
  {
    if labels == [] then name
    else Appended(Separated(name) + Chars(labels[0]), labels[1..])
  }

  lemma {:induction false} AppendedGrows(name: string, labels: seq<seq<Byte>>)
    ensures |name| <= |Appended(name, labels)|
    decreases |labels|
  {
    if labels != [] {
      AppendedGrows(Separated(name) + Chars(labels[0]), labels[1..]);
    }
  }

  lemma {:induction false} AppendedIsDotted(name: string, labels: seq<seq<Byte>>)
    requires labels != [] && ValidLabels(labels)
    ensures Appended(name, labels) == Separated(name) + DottedName(labels)
    decreases |labels|
  {
    var next := Separated(name) + Chars(labels[0]);
    if |labels| > 1 {
      AppendedIsDotted(next, labels[1..]);
    } else {
      assert labels[1..] == [];
    }
  }

  // One round of the name loop when the label and its separator fit the buffer.
  lemma OneRound(d: seq<Byte>, off: nat, len: nat, name: string)
    requires off + 1 + len <= |d| && d[off] == len && 1 <= len < 0xC0
    requires |Separated(name)| + len <= NAME_CAP
    ensures ReadName(d, off, name)
         == ReadName(d, off + 1 + len, Separated(name) + Chars(d[off + 1..off + 1 + len]))
  {
    assert Dotted(name) == Separated(name);
    assert Copied(d, off + 1, d[off], |Separated(name)|) == len;
  }

  lemma ReadsLabel(d: seq<Byte>, off: nat, text: seq<Byte>, name: string)
    requires 1 <= |text| <= 63 && At(d, off, [|text|] + text)
    requires |Separated(name)| + |text| <= NAME_CAP
    ensures ReadName(d, off, name) == ReadName(d, off + 1 + |text|, Separated(name) + Chars(text))
  {
    hide At, ReadName, Chars, Separated;
    AtSplit(d, off, [|text|], text);
    AtBytes(d, off, [|text|]);
    assert d[off + 0] == [|text|][0];
    AtMeans(d, off + 1, text);
    OneRound(d, off, |text|, name);
  }

  lemma AtMeans(d: seq<Byte>, off: nat, x: seq<Byte>)
    requires At(d, off, x)
    ensures off + |x| <= |d| && d[off..off + |x|] == x
  {
  }

  lemma ReadsRoot(d: seq<Byte>, off: nat, name: string)
    requires At(d, off, [0]) && |name| <= NAME_CAP
    ensures ReadName(d, off, name) == (off + 1, name)
  {
    AtBytes(d, off, [0]);
    assert d[off + 0] == [0][0];
  }

  lemma {:induction false} ReadsLabels(d: seq<Byte>, off: nat, labels: seq<seq<Byte>>, name: string)
    requires ValidLabels(labels) && At(d, off, PutLabels(labels))
    requires At(d, off + |PutLabels(labels)|, [0])
    requires |Appended(name, labels)| <= NAME_CAP && |name| <= NAME_CAP
    ensures ReadName(d, off, name) == (off + |PutLabels(labels)| + 1, Appended(name, labels))
    decreases |labels|
  {
    hide At, Chars, Separated, ReadName;
    if labels == [] {
      ReadsRoot(d, off, name);
    } else {
      var head, tail := [|labels[0]|] + labels[0], PutLabels(labels[1..]);
      AtSplit(d, off, head, tail);
      var next := Separated(name) + Chars(labels[0]);
      AppendedGrows(next, labels[1..]);
      ReadsLabel(d, off, labels[0], name);
      ReadsLabels(d, off + |head|, labels[1..], next);
    }
  }

  // ---- Records -------------------------------------------------------------

  lemma FixedFields(d: seq<Byte>, off: nat, a: Answer)
    requires ValidAnswer(a) && At(d, off, PutFixed(a))
    ensures Be16(d, off) == a.rtype && Be32(d, off + 4) == a.ttl && Be16(d, off + 8) == |a.rdata|
  {
    AtBytes(d, off, PutFixed(a));
    var t, l, n := Put16(a.rtype), Put32(a.ttl), Put16(|a.rdata|);
    var x := PutFixed(a);
    assert x[0] == t[0] && x[1] == t[1];
    assert x[4] == l[0] && x[5] == l[1] && x[6] == l[2] && x[7] == l[3];
    assert x[8] == n[0] && x[9] == n[1];
    assert d[off + 0] == x[0] && d[off + 1] == x[1];
    assert d[off + 4] == x[4] && d[off + 5] == x[5] && d[off + 6] == x[6] && d[off + 7] == x[7];
    assert d[off + 8] == x[8] && d[off + 9] == x[9];
  }

  lemma ReadsAnswer(d: seq<Byte>, off: nat, a: Answer, more: nat, name: string)
    requires ValidAnswer(a) && At(d, off, PutAnswer(a))
    ensures Answers(d, off, more + 1, name)
         == Expected([a], name) + Answers(d, off + |PutAnswer(a)|, more, name)
  {
    hide At, Be16, Record, Answers, Expected, PutName, PutFixed, ValidName;
    AtSplit(d, off, PutName(a.owner) + PutFixed(a), a.rdata);
    AtSplit(d, off, PutName(a.owner), PutFixed(a));
    SkipsName(d, off, a.owner);
    var rec := off + |PutName(a.owner)|;
    AtMeans(d, rec + 10, a.rdata);
    AtMeans(d, rec, PutFixed(a));
    FixedFields(d, rec, a);
    AnswersStep(d, off, more + 1, name, rec, rec + 10 + |a.rdata|);
    RecordIsExpected(d, rec, a, name);
  }

  lemma RecordIsExpected(d: seq<Byte>, rec: nat, a: Answer, name: string)
    requires rec + 10 <= |d| && Be16(d, rec) == a.rtype && Be32(d, rec + 4) == a.ttl
    requires Be16(d, rec + 8) == |a.rdata| && At(d, rec + 10, a.rdata)
    ensures Record(d, rec, name) == Expected([a], name)
  {
    hide Be16, Be32;
    AtBytes(d, rec + 10, a.rdata);
    if |a.rdata| == 4 {
      assert d[rec + 10 + 0] == a.rdata[0] && d[rec + 10 + 1] == a.rdata[1]
        && d[rec + 10 + 2] == a.rdata[2] && d[rec + 10 + 3] == a.rdata[3];
    }
    NothingExpected(name);
    assert [a][1..] == [];
  }

  lemma NothingExpected(name: string)
    ensures Expected([], name) == []
  {
  }

  lemma ExpectedStep(answers: seq<Answer>, name: string)
    requires answers != []
    ensures Expected(answers, name) == Expected([answers[0]], name) + Expected(answers[1..], name)
  {
    assert [answers[0]][1..] == [];
  }

  lemma {:induction false} ReadsAnswers(d: seq<Byte>, off: nat, answers: seq<Answer>, name: string)
    requires forall i :: 0 <= i < |answers| ==> ValidAnswer(answers[i])
    requires At(d, off, PutAnswers(answers))
    ensures Answers(d, off, |answers|, name) == Expected(answers, name)
    decreases |answers|
  {
    hide At, PutAnswer, ValidAnswer;
    if answers != [] {
      var a, rest := answers[0], answers[1..];
      AtSplit(d, off, PutAnswer(a), PutAnswers(rest));
      ReadsAnswer(d, off, a, |rest|, name);
      ReadsAnswers(d, off + |PutAnswer(a)|, rest, name);
      ExpectedStep(answers, name);
    }
  }

  // ---- The message ---------------------------------------------------------

  lemma HeaderFields(d: seq<Byte>, base: nat, m: Message)
    requires Valid(m) && At(d, base, PutHeader(m))
    ensures d[base + 2] >= 0x80 && Be16(d, base + 4) == 1 && Be16(d, base + 6) == |m.answers|
  {
    AtBytes(d, base, PutHeader(m));
    var x, f, n := PutHeader(m), Put16(m.flags), Put16(|m.answers|);
    assert d[base + 2] == x[2] == f[0];
    assert d[base + 4] == x[4] == Put16(1)[0] && d[base + 5] == x[5] == Put16(1)[1];
    assert d[base + 6] == x[6] == n[0] && d[base + 7] == x[7] == n[1];
  }

  lemma ReadsQuestionName(d: seq<Byte>, off: nat, m: Message)
    requires Valid(m) && Readable(DottedName(m.question)) && At(d, off, PutQuestion(m))
    ensures ReadName(d, off, "") == (off + |PutQuestion(m)| - 4, DottedName(m.question))
    ensures CString(DottedName(m.question)) == DottedName(m.question) != ""
  {
    hide At, ReadName, PutLabels;
    var labels, fixed := PutLabels(m.question), Put16(m.qtype) + Put16(m.qclass);
    assert PutQuestion(m) == (labels + [0]) + fixed;
    AtSplit(d, off, labels + [0], fixed);
    AtSplit(d, off, labels, [0]);
    AppendedIsDotted("", m.question);
    assert Separated("") + DottedName(m.question) == DottedName(m.question);
    ReadsLabels(d, off, m.question, "");
    CStringOfClean(DottedName(m.question));
  }

  lemma ReadsQuestion(d: seq<Byte>, base: nat, m: Message)
    requires Valid(m) && Readable(DottedName(m.question))
    requires At(d, base, PutHeader(m)) && At(d, base + 12, PutQuestion(m))
    ensures IsResponse(d, base) <==> m.answers != []
    ensures Be16(d, base + 4) == 1 && Be16(d, base + 6) == |m.answers|
    ensures AnswersStart(d, base) == (base + 12 + |PutQuestion(m)|, DottedName(m.question))
    ensures DottedName(m.question) != ""
  {
    hide Be16, ReadName, DottedName, PutHeader, PutQuestion, CString;
    HeaderFields(d, base, m);
    ReadsQuestionName(d, base + 12, m);
  }

  lemma ReadsMessage(d: seq<Byte>, base: nat, m: Message)
    requires Valid(m) && Readable(DottedName(m.question)) && At(d, base, Encode(m))
    ensures base + 12 <= |d|
    ensures ParseMessage(d, base) == Expected(m.answers, DottedName(m.question))
  {
    hide Encode, PutHeader, PutQuestion, PutAnswers, Expected, DottedName;
    var header, question, answers := PutHeader(m), PutQuestion(m), PutAnswers(m.answers);
    Sections(d, base, m);
    ReadsQuestion(d, base, m);
    ReadsAnswers(d, base + 12 + |question|, m.answers, DottedName(m.question));
    NothingExpected(DottedName(m.question));
  }

  lemma Sections(d: seq<Byte>, base: nat, m: Message)
    requires Valid(m) && At(d, base, Encode(m))
    ensures At(d, base, PutHeader(m)) && At(d, base + 12, PutQuestion(m))
    ensures At(d, base + 12 + |PutQuestion(m)|, PutAnswers(m.answers))
  {
    hide PutHeader, PutQuestion, PutAnswers;
    var header, question, answers := PutHeader(m), PutQuestion(m), PutAnswers(m.answers);
    AtSplit(d, base, header + question + answers, m.rest);
    AtSplit(d, base, header + question, answers);
    AtSplit(d, base, header, question);
  }

  // Behind any IPv4 and UDP headers, the parser inserts exactly the type-1
  // answers of four bytes, in order, each under the question's name with its TTL.
  lemma RoundTrip(headers: seq<Byte>, m: Message)
    requires Valid(m) && Readable(DottedName(m.question))
    requires headers != [] && HeaderLength(headers) >= 20 && |headers| == HeaderLength(headers) + 8
    ensures Parse(headers + Encode(m)) == Expected(m.answers, DottedName(m.question))
  {
    hide Encode, ParseMessage, Expected, DottedName, Valid;
    var pkt := headers + Encode(m);
    assert pkt[|headers|..|headers| + |Encode(m)|] == Encode(m);
    ReadsMessage(pkt, |headers|, m);
    assert pkt[0] == headers[0];
  }

  lemma {:induction false} ExpectedAreNamed(answers: seq<Answer>, name: string)
    ensures forall b :: b in Expected(answers, name) ==> b.name == name
  {
    if answers != [] {
      ExpectedAreNamed(answers[1..], name);
    }
  }

  // And exactly then: for a message with an address to report the parser gets the
  // bindings back if and only if the question's dotted name has 1 to 79 characters
  // and no NUL.
  lemma RoundTripIff(headers: seq<Byte>, m: Message)
    requires Valid(m) && Expected(m.answers, DottedName(m.question)) != []
    requires headers != [] && HeaderLength(headers) >= 20 && |headers| == HeaderLength(headers) + 8
    ensures Parse(headers + Encode(m)) == Expected(m.answers, DottedName(m.question)) <==>
            Readable(DottedName(m.question))
  {
    hide Encode, Parse, Expected, DottedName, Valid;
    var name := DottedName(m.question);
    if Readable(name) {
      RoundTrip(headers, m);
    } else {
      BindingsAreNamed(headers + Encode(m));
      ExpectedAreNamed(m.answers, name);
      assert Expected(m.answers, name)[0].name == name;
    }
  }

  // A message the parser gets wrong for its name alone: two labels of 63 bytes, and
  // the address 1.2.3.4.
  lemma LongNameLosesTheAnswer(headers: seq<Byte>)
    requires headers != [] && HeaderLength(headers) >= 20 && |headers| == HeaderLength(headers) + 8
    ensures Valid(LONG_NAMED) && Expected(LONG_NAMED.answers, DottedName(LONG_NAMED.question)) != []
    ensures Parse(headers + Encode(LONG_NAMED)) != Expected(LONG_NAMED.answers, DottedName(LONG_NAMED.question))
  {
    hide Parse, Encode;
    LongIsValid();
    RoundTripIff(headers, LONG_NAMED);
  }

  const LABEL: seq<Byte> := seq(63, i => 97)
  const ADDRESS := Answer(Name([], Pointer(0xC0, 12)), 1, 1, 60, [1, 2, 3, 4])
  const LONG_NAMED := Message(1, 0x8180, [LABEL, LABEL], 1, 1, [ADDRESS], 0, 0, [])

  lemma LongIsValid()
    ensures Valid(LONG_NAMED) && Expected(LONG_NAMED.answers, DottedName(LONG_NAMED.question)) != []
    ensures |DottedName(LONG_NAMED.question)| == 127
  {
    assert LONG_NAMED.question[1..] == [LABEL];
    assert DottedName([LABEL]) == Chars(LABEL);
  }

  // ---- More than one question ----------------------------------------------

  datatype Question = Question(name: Name, qtype: U16, qclass: U16)

  function PutAsked(q: Question): seq<Byte>
    requires ValidName(q.name)
  {
    PutName(q.name) + (Put16(q.qtype) + Put16(q.qclass))
  }

  // Only the root takes a single byte.
  lemma RootIsShortest(n: Name)
    requires ValidName(n)
    ensures |PutName(n)| >= 1 && (|PutName(n)| == 1 <==> n == Name([], Root))
  {
  }

  // With two questions the skip begins at the type of the first. For every type
  // below 256 it stops there, whatever the second question is, and the answers are
  // taken to start nine bytes behind the first name; which is right if and only if
  // the second question asks for the root.
  lemma SecondQuestionIffRoot(d: seq<Byte>, base: nat, m: Message, second: Question)
    requires Valid(m) && Readable(DottedName(m.question)) && ValidName(second.name)
    requires base + 12 <= |d| && Be16(d, base + 4) == 2
    requires At(d, base + 12, PutQuestion(m)) && At(d, base + 12 + |PutQuestion(m)|, PutAsked(second))
    ensures var fixed := base + 12 + |PutQuestion(m)| - 4;
      AnswersStart(d, base) == (SkipName(d, fixed) + 8, DottedName(m.question))
    ensures m.qtype < 256 ==>
      && AnswersStart(d, base).0 == base + 12 + |PutQuestion(m)| - 4 + 9
      && (AnswersStart(d, base).0 == base + 12 + |PutQuestion(m)| + |PutAsked(second)| <==>
            second.name == Name([], Root))
  {
    hide Be16, ReadName, DottedName, PutName, CString, At, SkipName, Put16;
    ReadsQuestionName(d, base + 12, m);
    RootIsShortest(second.name);
    var fixed := base + 12 + |PutQuestion(m)| - 4;
    TypeFollowsName(d, base + 12, m);
    SkipOne(d, fixed);
  }

  function PutAllAsked(questions: seq<Question>): seq<Byte>
    requires forall q :: q in questions ==> ValidName(q.name)
  {
    if questions == [] then [] else PutAsked(questions[0]) + PutAllAsked(questions[1..])
  }

  // Questions for the root, each of a type below 256 unless it is the last.
  predicate Harmless(questions: seq<Question>) {
    && (forall q :: q in questions ==> q.name == Name([], Root))
    && (forall i :: 0 <= i < |questions| - 1 ==> questions[i].qtype < 256)
  }

  // The skip runs one type-and-class ahead of the questions and falls in step.
  lemma {:induction false} SkipsHarmless(d: seq<Byte>, off: nat, questions: seq<Question>)
    requires Harmless(questions) && off + 4 <= |d| && At(d, off + 4, PutAllAsked(questions))
    requires questions != [] ==> d[off] == 0
    ensures SkipQuestions(d, off, |questions|) == off + 5 * |questions|
    ensures |PutAllAsked(questions)| == 5 * |questions|
    decreases |questions|
  {
    hide At, SkipName, Put16;
    if questions != [] {
      var q, rest := questions[0], questions[1..];
      AtSplit(d, off + 4, PutAsked(q), PutAllAsked(rest));
      AskedForRoot(d, off + 4, q);
      SkipOne(d, off);
      SkipsHarmless(d, off + 5, rest);
      MoreSkipped(d, off, |rest|);
    }
  }

  lemma MoreSkipped(d: seq<Byte>, off: nat, n: nat)
    requires off < |d|
    ensures SkipQuestions(d, off, n + 1) == SkipQuestions(d, SkipName(d, off) + 4, n)
  {
    hide SkipName;
  }

  lemma AskedForRoot(d: seq<Byte>, off: nat, q: Question)
    requires q.name == Name([], Root) && At(d, off, PutAsked(q))
    ensures |PutAsked(q)| == 5 && off + 5 <= |d| && d[off + 1] == q.qtype / 256
  {
    AtMeans(d, off, PutAsked(q));
    assert PutAsked(q)[1] == q.qtype / 256;
    assert d[off..off + 5][1] == d[off + 1];
  }

  // With any number of such questions behind the first, itself of a type below 256 if
  // there are any, the answers are read back after all.
  lemma HarmlessQuestionsRoundTrip(d: seq<Byte>, base: nat, m: Message, more: seq<Question>)
    requires Valid(m) && Readable(DottedName(m.question)) && Harmless(more) && (more != [] ==> m.qtype < 256)
    requires base + 12 <= |d| && d[base + 2] >= 0x80
    requires Be16(d, base + 4) == 1 + |more| && Be16(d, base + 6) == |m.answers|
    requires At(d, base + 12, PutQuestion(m)) && At(d, base + 12 + |PutQuestion(m)|, PutAllAsked(more))
    requires At(d, base + 12 + |PutQuestion(m)| + |PutAllAsked(more)|, PutAnswers(m.answers))
    ensures ParseMessage(d, base) == Expected(m.answers, DottedName(m.question))
  {
    hide Be16, ReadName, DottedName, CString, At, SkipQuestions, Expected, PutAnswers, PutQuestion, PutAllAsked,
      Answers;
    var name, behind := DottedName(m.question), base + 12 + |PutQuestion(m)|;
    ReadsQuestionName(d, base + 12, m);
    TypeFollowsName(d, base + 12, m);
    SkipsHarmless(d, behind - 4, more);
    ReadsAnswers(d, behind + |PutAllAsked(more)|, m.answers, name);
    NothingExpected(name);
  }

  lemma TypeFollowsName(d: seq<Byte>, off: nat, m: Message)
    requires Valid(m) && At(d, off, PutQuestion(m))
    ensures off + |PutQuestion(m)| <= |d| && d[off + |PutQuestion(m)| - 4] == m.qtype / 256
    ensures |PutQuestion(m)| > 4
  {
    hide At, PutLabels;
    var q := PutQuestion(m);
    AtMeans(d, off, q);
    assert q[|q| - 4] == m.qtype / 256;
    assert d[off..off + |q|][|q| - 4] == d[off + |q| - 4];
  }

  lemma SkipOne(d: seq<Byte>, off: nat)
    requires off < |d|
    ensures SkipQuestions(d, off, 1) == SkipName(d, off) + 4
    ensures d[off] == 0 ==> SkipName(d, off) == off + 1
  {
  }

  // A response to two questions, for "a" and "b", with the address 1.2.3.4 of the
  // first, behind 28 bytes of IPv4 and UDP headers.
  const HEADERS: seq<Byte> := seq(28, i => if i == 0 then 0x45 else 0)
  const COUNTS: seq<Byte> := [0, 1, 0x81, 0x80, 0, 2, 0, 1, 0, 0, 0, 0]
  const QUESTIONS: seq<Byte> := [1, 97, 0, 0, 1, 0, 1, 1, 98, 0, 0, 1, 0, 1]

  // The parser loses it.
  lemma TwoQuestionsLoseTheAnswer()
    ensures ValidAnswer(ADDRESS) && Expected([ADDRESS], "a") != []
    ensures Parse(HEADERS + COUNTS + QUESTIONS + PutAnswer(ADDRESS)) == []
  {
    hide Parse, PutAnswer;
    AddressBytes();
    Misread(HEADERS + COUNTS + QUESTIONS + PutAnswer(ADDRESS));
  }

  lemma AddressBytes()
    ensures PutAnswer(ADDRESS) == [0xC0, 12, 0, 1, 0, 1, 0, 0, 0, 60, 0, 4, 1, 2, 3, 4]
  {
  }

  lemma Misread(d: seq<Byte>)
    requires |d| == 70 && d[0] == 0x45 && d[30] == 0x81
    requires d[32] == 0 && d[33] == 2 && d[34] == 0 && d[35] == 1
    requires d[40] == 1 && d[41] == 97 && d[42] == 0 && d[43] == 0
    requires d[52] == 0 && d[53] == 1 && d[54] == 0xC0 && d[61] == 0 && d[62] == 0
    ensures Parse(d) == []
  {
    hide ReadName, SkipName, SkipQuestions, Answers, CString;
    assert Dotted("") + Chars(d[41..42]) == "a";
    ReadNameRound(d, 40, "");
    ReadNameRound(d, 42, "a");
    assert ReadName(d, 40, "") == (43, "a");
    SkipOne(d, 43);
    SkipOne(d, 52);
    CStringOfClean("a");
    assert AnswersStart(d, 28) == (52, "a");
    AnswersStep(d, 52, 1, "a", 53, 63);
    NoAnswers(d, 63);
  }

  lemma NoAnswers(d: seq<Byte>, off: nat)
    ensures Answers(d, off, 0, "a") == []
  {
  }
}
