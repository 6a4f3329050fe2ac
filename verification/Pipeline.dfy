// Both tiers together: kernel maps, ring buffer and daemon as one transition
// system. A step is a packet on some CPU, the drain of one event, or a sweep of the
// daemon's table; ring-buffer reservation and allocation fail at any time.
module Pipeline {
  import opened Basics
  import opened Capture
  import opened DnsParser
  import opened DnsSlots
  import opened Tally
  import opened EngineModel
  import opened EngineLedger
  import EngineRuns
  import Ownership
  import K = KernelModel

  datatype Write = Write(key: Key, app: U16)

  // An accepted frame: its flow, its length, and whether it was to be copied.
  datatype Accepted = Accepted(key: Key, len: nat, copied: bool)

  // `ring` is every event ever queued, of which the first `head` are drained. The
  // last four fields are history: accepted packets, packets that found no room in
  // the ring, fast-path packets of applications beyond the counters, verdicts.
  datatype Sys = Sys(
    kernel: K.State, ring: seq<Event>, head: nat, engine: State,
    arrived: seq<Accepted>, lost: seq<Key>, unbilled: nat, writes: seq<Write>)

  datatype Step =
    | Packet(cpu: nat, frame: Frame, linear: nat, ts: nat, reserveOk: bool)
    | Drain(o: Oracle, now: U32)
    | Age(order: seq<Key>, now: U32)

  // ---- Steps ---------------------------------------------------------------

  // A packet of the flow of `e`, and what it puts into the ring.
  function Arrive(s: Sys, cpu: nat, e: Event, len: nat, ok: bool): Sys
    requires cpu < |s.kernel.cnt|
  {
    var copies := K.Copies(s.kernel, e.key);
    var kernel := K.OnPacket(s.kernel, cpu, e.key, len, e.ts);
    s.(kernel := kernel,
       ring := if copies && ok then s.ring + [e] else s.ring,
       lost := if copies && !ok then s.lost + [e.key] else s.lost,
       arrived := s.arrived + [Accepted(e.key, len, copies)],
       unbilled := s.unbilled + One(!copies && kernel.flows[e.key].app >= APPS))
  }

  function Wrote(s: Sys, key: Key, verdict: Option<U16>): Sys {
    match verdict
    case None => s
    case Some(app) => s.(kernel := K.OnVerdict(s.kernel, key, app), writes := s.writes + [Write(key, app)])
  }

  // The daemon takes the oldest event; its verdict, if any, goes to the kernel.
  function DrainOne(env: Env, s: Sys, o: Oracle, now: U32): Sys {
    if s.head >= |s.ring| then s
    else
      var e := s.ring[s.head];
      var (engine, verdict) := Process(env, s.engine, e, o, now);
      Wrote(s.(engine := engine, head := s.head + 1), e.key, verdict)
  }

  ghost function Next(env: Env, s: Sys, step: Step): Sys {
    match step
    case Packet(cpu, f, linear, ts, ok) =>
      if linear <= |f| && cpu < |s.kernel.cnt| && KernelEvent(f, linear, ts).Some?
      then Arrive(s, cpu, KernelEvent(f, linear, ts).value, |f|, ok) else s
    case Drain(o, now) => DrainOne(env, s, o, now)
    case Age(order, now) =>
      if IsSweep(s.engine.flows, order, now) then s.(engine := ExpireAll(env, s.engine, order)) else s
  }

  ghost function Run(env: Env, s: Sys, steps: seq<Step>): Sys
    decreases |steps|
  {
    if steps == [] then s else Next(env, Run(env, s, steps[..|steps| - 1]), steps[|steps| - 1])
  }

  lemma RunSnoc(env: Env, s: Sys, steps: seq<Step>, step: Step)
    ensures Run(env, s, steps + [step]) == Next(env, Run(env, s, steps), step)
  {
    hide Next;
    assert (steps + [step])[..|steps|] == steps;
  }

  // One run after another is a run.
  lemma {:induction false} RunsCompose(env: Env, s: Sys, first: seq<Step>, second: seq<Step>)
    ensures Run(env, s, first + second) == Run(env, Run(env, s, first), second)
    decreases |second|
  {
    hide Next;
    if second == [] {
      assert first + second == first;
    } else {
      var init, last := second[..|second| - 1], second[|second| - 1];
      RunsCompose(env, s, first, init);
      RunSnoc(env, s, first + init, last);
      assert first + second == first + init + [last];
    }
  }

  function Start(cpus: nat, mlEnabled: bool): Sys {
    Sys(K.Start(cpus), [], 0, EngineModel.Start(mlEnabled), [], [], 0, [])
  }

  // ---- Conservation of packets ---------------------------------------------

  function CntPackets(): K.Cnt -> nat {
    (c: K.Cnt) => c.packets
  }

  function BankPackets(): K.Bank -> nat {
    (b: K.Bank) => Sum(b, CntPackets())
  }

  // Packets accounted in the kernel, over all CPUs and applications.
  function Billed(k: K.State): nat {
    Sum(k.cnt, BankPackets())
  }

  function PacketsIn(): Flow -> nat {
    (f: Flow) => f.packets
  }

  // Every accepted packet is in exactly one place.
  ghost predicate Conserved(s: Sys) {
    s.head <= |s.ring| &&
    |s.arrived| == Billed(s.kernel) + s.unbilled + |s.lost| + (|s.ring| - s.head)
      + s.engine.refused + s.engine.cached + Total(s.engine.flows, PacketsIn()) + Sum(s.engine.expired, PacketsIn())
  }

  lemma PacketIsBilled(k: K.State, cpu: nat, key: Key, len: nat, ts: nat)
    requires cpu < |k.cnt|
    ensures var k' := K.OnPacket(k, cpu, key, len, ts);
      Billed(k') == Billed(k) + One(!K.Copies(k, key) && k'.flows[key].app < APPS)
  {
    hide K.Counted, CntPackets, Sum;
    if !K.Copies(k, key) {
      var r := K.Advance(k.flows[key], K.VerdictFor(k, key), len, ts);
      var bank := K.Counted(k.cnt[cpu], r.app, len, k.flows[key].phase == K.Classifying);
      CountedBills(k.cnt[cpu], r.app, len, k.flows[key].phase == K.Classifying);
      SumReplace(k.cnt, cpu, bank, BankPackets());
    }
  }

  lemma CountedBills(bank: K.Bank, app: U16, len: nat, isNew: bool)
    ensures BankPackets()(K.Counted(bank, app, len, isNew)) == BankPackets()(bank) + One(app < APPS)
  {
    hide Sum;
    if app < APPS {
      var c := bank[app];
      SumReplace(bank, app, K.Cnt(c.bytes + len, c.packets + 1, c.flows + if isNew then 1 else 0), CntPackets());
    }
  }

  lemma ArriveConserves(s: Sys, cpu: nat, e: Event, len: nat, ok: bool)
    requires cpu < |s.kernel.cnt| && Conserved(s)
    ensures Conserved(Arrive(s, cpu, e, len, ok))
  {
    hide K.Copies, K.OnPacket, Billed, PacketsIn, Total, Sum;
    PacketIsBilled(s.kernel, cpu, e.key, len, e.ts);
    CopiesIsTracked(s.kernel, cpu, e.key, len, e.ts);
  }

  lemma CopiesIsTracked(k: K.State, cpu: nat, key: Key, len: nat, ts: nat)
    requires cpu < |k.cnt|
    ensures !K.Copies(k, key) ==> key in K.OnPacket(k, cpu, key, len, ts).flows
  {
  }

  // ---- What one event does to the daemon's table ---------------------------

  function VerdictAt(s: State, k: Key): Option<U16> {
    if k in s.flows then VerdictOf(s.flows[k]) else None
  }

  // Only the entry of the event's key changes; it takes at most one packet more,
  // and a verdict is that of an entry that had none.
  ghost predicate Took(s: State, s': State, verdict: Option<U16>, k: Key) {
    && s'.expired == s.expired
    && (forall l :: l != k ==> (l in s'.flows <==> l in s.flows))
    && (forall l :: l != k && l in s.flows ==> s'.flows[l] == s.flows[l])
    && (k in s'.flows ==> s'.flows[k].packets <= WeightAt(s.flows, k, PacketsIn()) + 1)
    && VerdictAt(s', k) == (if verdict.Some? then verdict else VerdictAt(s, k))
    && (verdict.Some? ==> VerdictAt(s, k) == None)
  }

  // Places outside the kernel where a packet can be.
  ghost function Daemon(s: State): nat {
    s.refused + s.cached + Ever(s, PacketsIn())
  }

  lemma EnteredTakes(env: Env, s: State, k: Key, now: U32)
    ensures var t := Entered(s, k, now);
      && Took(s, t, None, k) && k in t.flows && Daemon(t) == Daemon(s)
      && t.flows[k].packets == WeightAt(s.flows, k, PacketsIn())
  {
    hide Ever;
    EverUpdate(s, Entered(s, k, now), k, Entry(s, k, now), PacketsIn());
  }

  lemma EntryTakes(env: Env, s: State, e: Event, o: Oracle, now: U32)
    requires e.key in s.flows && FlowOk(s.flows[e.key])
    ensures var (s', verdict) := ProcessEntry(env, s, e, o, now);
      Took(s, s', verdict, e.key) && Daemon(s') == Daemon(s) + 1
  {
    hide Judge, Book, Ever, FlowOk, Verdicted;
    var k, f := e.key, s.flows[e.key];
    EngineRuns.StatusMeans(f);
    var (s', verdict) := ProcessEntry(env, s, e, o, now);
    if f.status != New {
      assert s'.flows[k := f] == s'.flows;
      EverUpdate(s, s', k, f, PacketsIn());
    } else {
      var j := Judge(env, s, f, e, o, now);
      JudgeOk(env, s, f, e, o, now);
      EngineRuns.BookKeepsRest(env, EngineModel.Judging(s, k, j), j.flow);
      BookKeepsPlaces(env, EngineModel.Judging(s, k, j), j.flow);
      EverUpdate(s, s', k, j.flow, PacketsIn());
      NoVerdictYet(f);
    }
  }

  lemma NoVerdictYet(f: Flow)
    requires f.outcome == Undecided
    ensures VerdictOf(f) == None
  {
  }

  lemma BookKeepsPlaces(env: Env, s: State, f: Flow)
    ensures Book(env, s, f).refused == s.refused && Book(env, s, f).cached == s.cached
  {
  }

  lemma ProcessTakes(env: Env, s: State, e: Event, o: Oracle, now: U32)
    requires EngineRuns.Inv(env, s)
    ensures var (s', verdict) := Process(env, s, e, o, now);
      Took(s, s', verdict, e.key) && Daemon(s') == Daemon(s) + 1
  {
    hide Took, Daemon, Entered, ProcessEntry, EngineRuns.Inv, FlowOk, InsertAll;
    var h := Heard(s, e, o, now);
    SameDaemon(s, h);
    if e.key in h.flows || o.entryOk {
      EnteredTakes(env, h, e.key, now);
      var t := Entered(h, e.key, now);
      FlowsFine(env, s, e, o, now);
      EntryTakes(env, t, e, o, now);
      TookBoth(s, h, t, ProcessEntry(env, t, e, o, now).0, ProcessEntry(env, t, e, o, now).1, e.key);
    } else {
      RefusedTakes(s, h, e.key);
    }
  }

  lemma FlowsFine(env: Env, s: State, e: Event, o: Oracle, now: U32)
    requires EngineRuns.Inv(env, s)
    ensures var t := Entered(Heard(s, e, o, now), e.key, now); e.key in t.flows && FlowOk(t.flows[e.key])
  {
    hide Ledger, FlowOk, EngineRuns.ContextOk, Ownership.OwnedBy, InsertAll, Parse, Entered, Heard;
    EngineRuns.HeardKeepsInv(env, s, e, o, now);
    EngineRuns.EnteredKeepsInv(env, Heard(s, e, o, now), e.key, now);
    EngineRuns.EntersKey(Heard(s, e, o, now), e.key, now);
  }

  lemma TookBoth(s: State, h: State, t: State, u: State, verdict: Option<U16>, k: Key)
    requires h.flows == s.flows && h.expired == s.expired
    requires Took(h, t, None, k) && Took(t, u, verdict, k) && k in t.flows
    requires t.flows[k].packets == WeightAt(h.flows, k, PacketsIn())
    ensures Took(s, u, verdict, k)
  {
    hide VerdictOf;
  }

  lemma SameDaemon(s: State, h: State)
    requires h.flows == s.flows && h.expired == s.expired && h.refused == s.refused && h.cached == s.cached
    ensures Daemon(h) == Daemon(s)
  {
    EngineRuns.SameEver(s, h);
  }

  lemma RefusedTakes(s: State, h: State, k: Key)
    requires h.flows == s.flows && h.expired == s.expired && k !in s.flows
    ensures Took(s, h.(refused := h.refused + 1), None, k)
    ensures Daemon(h.(refused := h.refused + 1)) == Daemon(h) + 1
  {
    EngineRuns.SameEver(h, h.(refused := h.refused + 1));
  }

  // ---- Sweeps --------------------------------------------------------------

  // The verdicts of the expired entries of a key, in order.
  function PastVerdicts(expired: seq<Flow>, k: Key): seq<U16> {
    if expired == [] then []
    else
      var n := |expired| - 1;
      var v := VerdictOf(expired[n]);
      PastVerdicts(expired[..n], k) + if expired[n].key == k && v.Some? then [v.value] else []
  }

  // The verdicts of every entry a key ever had.
  function Verdicts(s: State, k: Key): seq<U16> {
    PastVerdicts(s.expired, k) + if VerdictAt(s, k).Some? then [VerdictAt(s, k).value] else []
  }

  lemma ExpireKeepsVerdicts(env: Env, s: State, k: Key, l: Key)
    requires k in s.flows && s.flows[k].key == k
    ensures Verdicts(Expire(env, s, k), l) == Verdicts(s, l)
  {
    hide VerdictOf, AppCharged, CatCharged, HandlesOf;
    var s' := Expire(env, s, k);
    assert s'.expired[..|s.expired|] == s.expired;
  }

  // What a sweep leaves alone, seen from outside.
  ghost predicate OnlyExpired(s: State, s': State) {
    && s.expired <= s'.expired
    && (forall k :: k in s'.flows ==> k in s.flows && s'.flows[k] == s.flows[k])
    && (forall i :: |s.expired| <= i < |s'.expired| ==>
          var f := s'.expired[i]; f.key in s.flows && s.flows[f.key] == f)
    && (forall k :: Verdicts(s', k) == Verdicts(s, k))
    && Daemon(s') == Daemon(s)
  }

  lemma {:induction false} SweepOnlyExpires(env: Env, s: State, order: seq<Key>)
    requires AllPresent(s.flows, order) && forall k :: k in s.flows ==> s.flows[k].key == k
    ensures OnlyExpired(s, ExpireAll(env, s, order))
    decreases |order|
  {
    hide Verdicts, AppCharged, CatCharged, HandlesOf, Ever;
    if order != [] {
      var t := Expire(env, s, order[0]);
      SweepOnlyExpires(env, t, order[1..]);
      EverExpire(env, s, order[0], PacketsIn());
      forall k ensures Verdicts(t, k) == Verdicts(s, k) {
        ExpireKeepsVerdicts(env, s, order[0], k);
      }
      OnlyExpiredTwice(s, t, ExpireAll(env, t, order[1..]), order[0]);
    }
  }

  lemma OnlyExpiredTwice(s: State, t: State, u: State, k: Key)
    requires k in s.flows && s.flows[k].key == k
    requires t.flows == s.flows - {k} && t.expired == s.expired + [s.flows[k]]
    requires Daemon(t) == Daemon(s) && (forall l :: Verdicts(t, l) == Verdicts(s, l))
    requires OnlyExpired(t, u)
    ensures OnlyExpired(s, u)
  {
    hide Verdicts, Daemon;
    forall i | |s.expired| <= i < |u.expired|
      ensures var f := u.expired[i]; f.key in s.flows && s.flows[f.key] == f
    {
      if i == |s.expired| {
        assert u.expired[i] == t.expired[i] == s.flows[k];
      }
    }
  }

  // ---- Copies of a key's packets -------------------------------------------

  function IsKey(k: Key): Key -> nat {
    (l: Key) => One(l == k)
  }

  function OfKey(k: Key): Event -> nat {
    (e: Event) => One(e.key == k)
  }

  function FrameOf(k: Key): Accepted -> nat {
    (a: Accepted) => One(a.key == k)
  }

  function CopyOf(k: Key): Accepted -> nat {
    (a: Accepted) => One(a.key == k && a.copied)
  }

  function BytesOf(k: Key): Accepted -> nat {
    (a: Accepted) => if a.key == k then a.len else 0
  }

  function CopiedBytesOf(k: Key): Accepted -> nat {
    (a: Accepted) => if a.key == k && a.copied then a.len else 0
  }

  function Arrivals(s: Sys, k: Key): nat {
    Sum(s.arrived, FrameOf(k))
  }

  // Packets of a key handed to the ring, and those that found no room there.
  function Handed(s: Sys, k: Key): nat {
    Sum(s.ring, OfKey(k)) + Sum(s.lost, IsKey(k))
  }

  function Drained(s: Sys, k: Key): nat {
    if s.head <= |s.ring| then Sum(s.ring[..s.head], OfKey(k)) else 0
  }

  // A key is tracked from its first packet or never; its record counts the packets
  // and bytes that came, and of them those handed to the ring.
  ghost predicate Copying(s: Sys, k: Key) {
    Handed(s, k) == Sum(s.arrived, CopyOf(k)) &&
    if k in s.kernel.flows then
      && s.kernel.flows[k].packets == Arrivals(s, k) && Handed(s, k) == K.Sent(s.kernel.flows[k])
      && s.kernel.flows[k].bytes == Sum(s.arrived, BytesOf(k))
      && s.kernel.flows[k].sent == Sum(s.arrived, CopiedBytesOf(k))
    else
      Handed(s, k) == Arrivals(s, k) && (Arrivals(s, k) > 0 ==> |s.kernel.flows| == K.MAX_ENTRIES)
  }

  // No entry the daemon ever had counts more packets than were drained for its key.
  ghost predicate Bounded(s: Sys) {
    && (forall k :: k in s.engine.flows ==> s.engine.flows[k].packets <= Drained(s, k))
    && (forall i :: 0 <= i < |s.engine.expired| ==>
          s.engine.expired[i].packets <= Drained(s, s.engine.expired[i].key))
  }

  lemma KernelStepCopies(k: K.State, cpu: nat, key: Key, len: nat, ts: nat)
    requires K.Inv(k) && cpu < |k.cnt|
    ensures var k' := K.OnPacket(k, cpu, key, len, ts);
      && (key in k'.flows <==> key in k.flows || |k.flows| < K.MAX_ENTRIES)
      && (key in k.flows ==>
            && k'.flows[key].packets == k.flows[key].packets + 1
            && K.Sent(k'.flows[key]) == K.Sent(k.flows[key]) + One(K.Copies(k, key))
            && k'.flows[key].bytes == k.flows[key].bytes + len
            && k'.flows[key].sent == k.flows[key].sent + if K.Copies(k, key) then len else 0)
      && (key !in k.flows ==> K.Copies(k, key))
      && (key !in k'.flows ==> |k'.flows| == K.MAX_ENTRIES)
      && (key !in k.flows && key in k'.flows ==>
            && k'.flows[key].packets == 1 && K.Sent(k'.flows[key]) == 1
            && k'.flows[key].bytes == len && k'.flows[key].sent == len)
  {
    hide K.Ledger;
    if key in k.flows {
      assert K.RecOk(k.flows[key]);
    }
  }

  lemma OtherKeysKept(k: K.State, cpu: nat, key: Key, len: nat, ts: nat, other: Key)
    requires cpu < |k.cnt| && other != key && |k.flows| <= K.MAX_ENTRIES
    ensures var k' := K.OnPacket(k, cpu, key, len, ts);
      && (other in k'.flows <==> other in k.flows)
      && (other in k.flows ==> k'.flows[other] == k.flows[other])
      && k'.verdicts == k.verdicts && (|k.flows| == K.MAX_ENTRIES ==> |k'.flows| == K.MAX_ENTRIES)
  {
    hide K.Advance, K.Counted;
    var k' := K.OnPacket(k, cpu, key, len, ts);
    assert key in k.flows ==> k'.flows.Keys == k.flows.Keys;
  }

  lemma ArriveMovesSums(s: Sys, cpu: nat, e: Event, len: nat, ok: bool, k: Key)
    requires cpu < |s.kernel.cnt|
    ensures var t := Arrive(s, cpu, e, len, ok);
      && Arrivals(t, k) == Arrivals(s, k) + One(k == e.key)
      && Handed(t, k) == Handed(s, k) + One(k == e.key && K.Copies(s.kernel, e.key))
      && Sum(t.arrived, CopyOf(k)) == Sum(s.arrived, CopyOf(k)) + One(k == e.key && K.Copies(s.kernel, e.key))
      && Sum(t.arrived, BytesOf(k)) == Sum(s.arrived, BytesOf(k)) + (if k == e.key then len else 0)
      && Sum(t.arrived, CopiedBytesOf(k))
           == Sum(s.arrived, CopiedBytesOf(k)) + (if k == e.key && K.Copies(s.kernel, e.key) then len else 0)
      && t.kernel == K.OnPacket(s.kernel, cpu, e.key, len, e.ts)
  {
    hide Sum, K.Copies, K.OnPacket;
    CopiesIsTracked(s.kernel, cpu, e.key, len, e.ts);
    var a := Accepted(e.key, len, K.Copies(s.kernel, e.key));
    SumSnoc(s.arrived, a, FrameOf(k));
    SumSnoc(s.arrived, a, CopyOf(k));
    SumSnoc(s.arrived, a, BytesOf(k));
    SumSnoc(s.arrived, a, CopiedBytesOf(k));
    SumSnoc(s.ring, e, OfKey(k));
    SumSnoc(s.lost, e.key, IsKey(k));
  }

  lemma NoFramesNoBytes(s: Sys, k: Key)
    ensures Arrivals(s, k) == 0 ==> Sum(s.arrived, BytesOf(k)) == 0 && Sum(s.arrived, CopiedBytesOf(k)) == 0
  {
    NoneNoBytes(s.arrived, k);
  }

  lemma {:induction false} NoneNoBytes(arrived: seq<Accepted>, k: Key)
    ensures Sum(arrived, FrameOf(k)) == 0 ==>
      Sum(arrived, BytesOf(k)) == 0 && Sum(arrived, CopiedBytesOf(k)) == 0
  {
    if arrived != [] {
      NoneNoBytes(arrived[..|arrived| - 1], k);
    }
  }

  lemma ArriveKeepsCopying(s: Sys, cpu: nat, e: Event, len: nat, ok: bool, k: Key)
    requires K.Inv(s.kernel) && cpu < |s.kernel.cnt| && Copying(s, k)
    ensures Copying(Arrive(s, cpu, e, len, ok), k)
  {
    hide Arrive, Arrivals, Handed, K.Copies, K.OnPacket, K.Sent, K.Ledger, K.RecOk, Sum;
    ArriveMovesSums(s, cpu, e, len, ok, k);
    NoFramesNoBytes(s, k);
    if k == e.key {
      KernelStepCopies(s.kernel, cpu, k, len, e.ts);
    } else {
      OtherKeysKept(s.kernel, cpu, e.key, len, e.ts, k);
    }
  }

  lemma ArriveKeepsBounded(s: Sys, cpu: nat, e: Event, len: nat, ok: bool)
    requires cpu < |s.kernel.cnt| && s.head <= |s.ring| && Bounded(s)
    ensures Bounded(Arrive(s, cpu, e, len, ok))
  {
    hide Sum, K.Copies, K.OnPacket;
    CopiesIsTracked(s.kernel, cpu, e.key, len, e.ts);
    var t := Arrive(s, cpu, e, len, ok);
    assert t.ring[..s.head] == s.ring[..s.head];
  }

  lemma DrainMovesSum(s: Sys, t: Sys, k: Key)
    requires s.head < |s.ring| && t.ring == s.ring && t.head == s.head + 1
    ensures Drained(t, k) == Drained(s, k) + One(s.ring[s.head].key == k)
  {
    assert t.ring[..t.head][..s.head] == s.ring[..s.head];
  }

  lemma TakingKeepsBounded(s: Sys, t: Sys, verdict: Option<U16>)
    requires s.head < |s.ring| && t.ring == s.ring && t.head == s.head + 1 && Bounded(s)
    requires Took(s.engine, t.engine, verdict, s.ring[s.head].key)
    ensures Bounded(t)
  {
    hide Drained, VerdictAt;
    forall k ensures Drained(t, k) == Drained(s, k) + One(s.ring[s.head].key == k) {
      DrainMovesSum(s, t, k);
    }
  }

  lemma SweepKeepsBounded(s: Sys, t: Sys)
    requires t == s.(engine := t.engine) && Bounded(s) && OnlyExpired(s.engine, t.engine)
    ensures Bounded(t)
  {
    hide Sum, Verdicts, Daemon;
    forall i | 0 <= i < |t.engine.expired|
      ensures t.engine.expired[i].packets <= Drained(t, t.engine.expired[i].key)
    {
      if i < |s.engine.expired| {
        assert t.engine.expired[i] == s.engine.expired[i];
      }
    }
  }

  // ---- Verdicts on both sides ----------------------------------------------

  // The verdicts ever written for a key, in order.
  function Written(writes: seq<Write>, k: Key): seq<U16> {
    if writes == [] then []
    else
      var n := |writes| - 1;
      Written(writes[..n], k) + if writes[n].key == k then [writes[n].app] else []
  }

  // They are those of the key's entries; the verdict map holds the last of them,
  // unless it was full; the kernel classified with one of them.
  ghost predicate Agreed(s: Sys, k: Key) {
    var written := Written(s.writes, k);
    && written == Verdicts(s.engine, k)
    && (if k in s.kernel.verdicts then written != [] && s.kernel.verdicts[k] == written[|written| - 1]
        else written != [] ==> |s.kernel.verdicts| == K.MAX_ENTRIES)
    && (k in s.kernel.flows && s.kernel.flows[k].phase == K.Classified ==>
          k in s.kernel.verdicts && s.kernel.flows[k].app in written)
  }

  lemma ClassifiedByVerdict(k: K.State, cpu: nat, key: Key, len: nat, ts: nat)
    requires cpu < |k.cnt|
    ensures var k' := K.OnPacket(k, cpu, key, len, ts);
      k'.verdicts == k.verdicts &&
      (key in k'.flows && k'.flows[key].phase == K.Classified ==>
        || (key in k.flows && k.flows[key].phase == K.Classified && k'.flows[key].app == k.flows[key].app)
        || (key in k.verdicts && k'.flows[key].app == k.verdicts[key]))
  {
  }

  lemma ArriveKeepsAgreed(s: Sys, cpu: nat, e: Event, len: nat, ok: bool, k: Key)
    requires K.Inv(s.kernel) && cpu < |s.kernel.cnt| && Agreed(s, k)
    ensures Agreed(Arrive(s, cpu, e, len, ok), k)
  {
    hide K.Copies, K.OnPacket, K.Ledger, K.RecOk, Verdicts, Written;
    CopiesIsTracked(s.kernel, cpu, e.key, len, e.ts);
    ClassifiedByVerdict(s.kernel, cpu, e.key, len, e.ts);
    if k != e.key {
      OtherKeysKept(s.kernel, cpu, e.key, len, e.ts, k);
    }
  }

  lemma WrittenMore(writes: seq<Write>, key: Key, app: U16, k: Key)
    ensures Written(writes + [Write(key, app)], k) == Written(writes, k) + if k == key then [app] else []
  {
    assert (writes + [Write(key, app)])[..|writes|] == writes;
  }

  lemma TookVerdicts(s: State, s': State, verdict: Option<U16>, key: Key, k: Key)
    requires Took(s, s', verdict, key)
    ensures Verdicts(s', k) == Verdicts(s, k) + if k == key && verdict.Some? then [verdict.value] else []
  {
    hide VerdictOf, PastVerdicts;
  }

  lemma TakingKeepsAgreed(s: Sys, engine: State, verdict: Option<U16>, key: Key, head: nat, k: Key)
    requires K.Inv(s.kernel) && Agreed(s, k) && Took(s.engine, engine, verdict, key)
    ensures Agreed(Wrote(s.(engine := engine, head := head), key, verdict), k)
  {
    hide K.Ledger, K.RecOk, Verdicts, Written, Took;
    TookVerdicts(s.engine, engine, verdict, key, k);
    if verdict.Some? {
      WrittenMore(s.writes, key, verdict.value, k);
    }
  }

  // ---- The invariant -------------------------------------------------------

  ghost predicate Inv(env: Env, s: Sys) {
    && EngineRuns.Inv(env, s.engine) && K.Inv(s.kernel)
    && Conserved(s) && Bounded(s)
    && (forall k :: Copying(s, k))
    && (forall k :: Agreed(s, k))
  }

  lemma StartHolds(env: Env, cpus: nat, mlEnabled: bool)
    ensures Inv(env, Start(cpus, mlEnabled))
  {
    hide EngineRuns.Inv, K.Inv;
    K.StartHolds(cpus);
    EngineRuns.StartHolds(env, mlEnabled);
    NothingBilled(K.Start(cpus));
  }

  lemma NothingBilled(k: K.State)
    requires forall bank :: bank in k.cnt ==> forall c :: c in bank ==> c.packets == 0
    ensures Billed(k) == 0
  {
    forall bank | bank in k.cnt ensures BankPackets()(bank) == 0 {
      K.ZeroSum(bank, CntPackets());
    }
    K.ZeroSum(k.cnt, BankPackets());
  }

  lemma ArriveKeepsInv(env: Env, s: Sys, cpu: nat, e: Event, len: nat, ok: bool)
    requires Inv(env, s) && cpu < |s.kernel.cnt|
    ensures Inv(env, Arrive(s, cpu, e, len, ok))
  {
    hide EngineRuns.Inv, K.Inv, Conserved, Bounded, Copying, Agreed, K.Copies, K.OnPacket;
    var t := Arrive(s, cpu, e, len, ok);
    CopiesIsTracked(s.kernel, cpu, e.key, len, e.ts);
    K.PacketKeepsInv(s.kernel, cpu, e.key, len, e.ts);
    ArriveConserves(s, cpu, e, len, ok);
    InOrder(s);
    ArriveKeepsBounded(s, cpu, e, len, ok);
    forall k ensures Copying(t, k) {
      ArriveKeepsCopying(s, cpu, e, len, ok, k);
    }
    forall k ensures Agreed(t, k) {
      ArriveKeepsAgreed(s, cpu, e, len, ok, k);
    }
  }

  lemma InOrder(s: Sys)
    requires Conserved(s)
    ensures s.head <= |s.ring|
  {
  }

  lemma WroteMeans(s: Sys, key: Key, verdict: Option<U16>)
    ensures var t := Wrote(s, key, verdict);
      && t.ring == s.ring && t.head == s.head && t.engine == s.engine && t.arrived == s.arrived && t.lost == s.lost
      && t.unbilled == s.unbilled && t.kernel.flows == s.kernel.flows && t.kernel.cnt == s.kernel.cnt
  {
  }

  lemma TakingConserves(s: Sys, t: Sys)
    requires Conserved(s) && s.head < |s.ring| && Daemon(t.engine) == Daemon(s.engine) + 1
    requires t.ring == s.ring && t.head == s.head + 1 && t.arrived == s.arrived && t.lost == s.lost
    requires t.unbilled == s.unbilled && t.kernel.cnt == s.kernel.cnt
    ensures Conserved(t)
  {
    hide PacketsIn, Total, Sum;
  }

  lemma TakingKeepsCopying(s: Sys, t: Sys, k: Key)
    requires Copying(s, k) && t.ring == s.ring && t.lost == s.lost && t.arrived == s.arrived
    requires t.kernel.flows == s.kernel.flows
    ensures Copying(t, k)
  {
    hide Sum;
  }

  lemma WroteKeepsKernel(s: Sys, key: Key, verdict: Option<U16>)
    requires K.Inv(s.kernel)
    ensures K.Inv(Wrote(s, key, verdict).kernel)
  {
    hide K.Inv;
    if verdict.Some? {
      K.VerdictKeepsInv(s.kernel, key, verdict.value);
    }
  }

  lemma DrainKeepsInv(env: Env, s: Sys, o: Oracle, now: U32)
    requires Inv(env, s)
    ensures Inv(env, DrainOne(env, s, o, now))
  {
    hide EngineRuns.Inv, K.Inv, Conserved, Bounded, Copying, Agreed, Wrote, Process, Took, Daemon;
    if s.head < |s.ring| {
      var e := s.ring[s.head];
      var (engine, verdict) := Process(env, s.engine, e, o, now);
      var u := s.(engine := engine, head := s.head + 1);
      var t := Wrote(u, e.key, verdict);
      ProcessTakes(env, s.engine, e, o, now);
      EngineRuns.ProcessKeepsInv(env, s.engine, e, o, now);
      WroteMeans(u, e.key, verdict);
      WroteKeepsKernel(u, e.key, verdict);
      TakingConserves(s, t);
      TakingKeepsBounded(s, t, verdict);
      forall k ensures Copying(t, k) {
        TakingKeepsCopying(s, t, k);
      }
      forall k ensures Agreed(t, k) {
        TakingKeepsAgreed(s, engine, verdict, e.key, s.head + 1, k);
      }
    }
  }

  lemma AgeKeepsInv(env: Env, s: Sys, order: seq<Key>)
    requires Inv(env, s) && AllPresent(s.engine.flows, order)
    ensures Inv(env, s.(engine := ExpireAll(env, s.engine, order)))
  {
    hide EngineRuns.Inv, K.Inv, Bounded, ExpireAll, AllPresent, Verdicts, Total, Sum, Written;
    var t := s.(engine := ExpireAll(env, s.engine, order));
    EngineRuns.SweepKeepsInv(env, s.engine, order);
    KeysOfFlows(env, s.engine);
    SweepOnlyExpires(env, s.engine, order);
    SweepKeepsBounded(s, t);
    forall k ensures Copying(t, k) {
      assert Copying(s, k);
    }
    forall k ensures Agreed(t, k) {
      assert Agreed(s, k);
    }
  }

  lemma KeysOfFlows(env: Env, s: State)
    requires EngineRuns.Inv(env, s)
    ensures forall k :: k in s.flows ==> s.flows[k].key == k && FlowOk(s.flows[k])
  {
    hide FlowOk, Ledger, EngineRuns.ContextOk;
  }

  // Whatever the order of packets, drains and sweeps, on any number of CPUs.
  lemma {:induction false} RunKeepsInv(env: Env, s: Sys, steps: seq<Step>)
    requires Inv(env, s)
    ensures Inv(env, Run(env, s, steps))
    decreases |steps|
  {
    hide Inv, DrainOne, Arrive, KernelEvent, ExpireAll;
    if steps != [] {
      RunKeepsInv(env, s, steps[..|steps| - 1]);
      var t := Run(env, s, steps[..|steps| - 1]);
      match steps[|steps| - 1]
      case Packet(cpu, f, linear, ts, ok) =>
        if linear <= |f| && cpu < |t.kernel.cnt| && KernelEvent(f, linear, ts).Some? {
          ArriveKeepsInv(env, t, cpu, KernelEvent(f, linear, ts).value, |f|, ok);
        }
      case Drain(o, now) => DrainKeepsInv(env, t, o, now);
      case Age(order, now) =>
        if IsSweep(t.engine.flows, order, now) {
          AgeKeepsInv(env, t, order);
        }
    }
  }

  // ---- What holds after every run ------------------------------------------

  ghost function After(env: Env, cpus: nat, mlEnabled: bool, steps: seq<Step>): Sys {
    Run(env, Start(cpus, mlEnabled), steps)
  }

  lemma AlwaysInv(env: Env, cpus: nat, mlEnabled: bool, steps: seq<Step>)
    ensures Inv(env, After(env, cpus, mlEnabled, steps))
  {
    hide Inv, Run, Start;
    StartHolds(env, cpus, mlEnabled);
    RunKeepsInv(env, Start(cpus, mlEnabled), steps);
  }

  // No packet is lost from the books and none is counted twice.
  lemma PacketsAreConserved(env: Env, cpus: nat, mlEnabled: bool, steps: seq<Step>)
    ensures var s := After(env, cpus, mlEnabled, steps);
      && s.head <= |s.ring|
      && |s.arrived| == Billed(s.kernel) + s.unbilled + |s.lost| + |s.ring[s.head..]| + s.engine.refused
           + s.engine.cached + Total(s.engine.flows, PacketsIn()) + Sum(s.engine.expired, PacketsIn())
  {
    hide After, EngineRuns.Inv, K.Inv, Bounded, Copying, Agreed;
    AlwaysInv(env, cpus, mlEnabled, steps);
  }

  // The kernel's counters are exact: flows by application count the tracked keys
  // that ended there, packets and bytes what they had beyond the packets sent up.
  lemma KernelLedger(env: Env, cpus: nat, mlEnabled: bool, steps: seq<Step>, a: nat)
    requires a < 512
    ensures var k := After(env, cpus, mlEnabled, steps).kernel;
      && Sum(k.cnt, K.FlowsAt(a)) == Total(k.flows, K.Terminal(a))
      && Sum(k.cnt, K.PacketsAt(a)) == Total(k.flows, K.Fast(a))
      && Sum(k.cnt, K.BytesAt(a)) == Total(k.flows, K.FastBytes(a))
      && forall key :: key in k.flows ==> K.RecOk(k.flows[key])
  {
    hide After, EngineRuns.Inv, Conserved, Bounded, Copying, Agreed, K.RecOk;
    AlwaysInv(env, cpus, mlEnabled, steps);
    assert K.LedgerAt(After(env, cpus, mlEnabled, steps).kernel, a);
  }

  // A record is the sum of the frames that came for its key: all of them in packets
  // and bytes, and in the part the kernel's counters leave out exactly those handed to
  // the ring or lost before it.
  lemma RecordsMatchFrames(env: Env, cpus: nat, mlEnabled: bool, steps: seq<Step>, k: Key)
    requires k in After(env, cpus, mlEnabled, steps).kernel.flows
    ensures var s := After(env, cpus, mlEnabled, steps);
      var r := s.kernel.flows[k];
      && r.packets == Sum(s.arrived, FrameOf(k)) && r.bytes == Sum(s.arrived, BytesOf(k))
      && K.Sent(r) == Sum(s.arrived, CopyOf(k)) == Sum(s.ring, OfKey(k)) + Sum(s.lost, IsKey(k))
      && r.sent == Sum(s.arrived, CopiedBytesOf(k))
  {
    hide After, EngineRuns.Inv, K.Inv, Conserved, Bounded, Agreed, Sum;
    AlwaysInv(env, cpus, mlEnabled, steps);
    assert Copying(After(env, cpus, mlEnabled, steps), k);
  }

  // In every run an undecided flow with a verdict on file is classified by its next
  // frame, with that verdict; and a flow is given up only by its eighth frame, and only
  // if that finds no verdict.
  lemma NextFrameTakesVerdict(env: Env, cpus: nat, mlEnabled: bool, steps: seq<Step>,
                              cpu: nat, f: Frame, linear: nat, ts: nat, ok: bool)
    requires linear <= |f| && KernelEvent(f, linear, ts).Some?
    requires cpu < |After(env, cpus, mlEnabled, steps).kernel.cnt|
    ensures var s := After(env, cpus, mlEnabled, steps);
      var t := After(env, cpus, mlEnabled, steps + [Packet(cpu, f, linear, ts, ok)]);
      var k := KernelEvent(f, linear, ts).value.key;
      k in s.kernel.flows && s.kernel.flows[k].phase == K.Classifying ==>
        && k in t.kernel.flows
        && (k in s.kernel.verdicts ==>
              t.kernel.flows[k].phase == K.Classified && t.kernel.flows[k].app == s.kernel.verdicts[k])
        && (t.kernel.flows[k].phase == K.GaveUp <==> k !in s.kernel.verdicts && Arrivals(t, k) == 8)
        && (t.kernel.flows[k].phase == K.Classified ==> k in s.kernel.verdicts)
  {
    hide KernelEvent, EngineRuns.Inv, Conserved, Bounded, Agreed, Run, Start, Sum, K.OnPacket, K.Copies, Handed;
    var s0, packet := Start(cpus, mlEnabled), Packet(cpu, f, linear, ts, ok);
    var s, e := After(env, cpus, mlEnabled, steps), KernelEvent(f, linear, ts).value;
    AlwaysInv(env, cpus, mlEnabled, steps);
    AlwaysInv(env, cpus, mlEnabled, steps + [packet]);
    RunSnoc(env, s0, steps, packet);
    K.PacketOutcome(s.kernel, cpu, e.key, |f|, e.ts);
    ArriveMovesSums(s, cpu, e, |f|, ok, e.key);
    assert Copying(s, e.key);
    if e.key in s.kernel.flows {
      assert K.RecOk(s.kernel.flows[e.key]);
    }
  }

  // A flow of a tracked key: too few packets for anything but nDPI's own verdict.
  predicate Early(f: Flow) {
    f.packets < 8 && (f.outcome == Undecided || f.outcome == Direct || f.outcome == NoMemory)
  }

  // A key is tracked from its first packet, or arrives at a full map and never is.
  // A tracked key is decided in the kernel by its eighth packet at the latest, hands
  // at most seven to the ring, and whatever entry the daemon has or had for it never
  // reaches the budget: only nDPI itself can have decided it.
  lemma CopyingIsBounded(env: Env, cpus: nat, mlEnabled: bool, steps: seq<Step>, k: Key)
    ensures var s := After(env, cpus, mlEnabled, steps);
      && (k !in s.kernel.flows && Arrivals(s, k) > 0 ==> |s.kernel.flows| == 65536)
      && (k in s.kernel.flows ==>
            && Arrivals(s, k) == s.kernel.flows[k].packets
            && (Arrivals(s, k) >= 8 ==> s.kernel.flows[k].phase != K.Classifying)
            && Drained(s, k) <= Handed(s, k) < 8
            && (k in s.engine.flows ==> Early(s.engine.flows[k]))
            && forall i :: 0 <= i < |s.engine.expired| && s.engine.expired[i].key == k ==> Early(s.engine.expired[i]))
  {
    hide After;
    AlwaysInv(env, cpus, mlEnabled, steps);
    BoundedNow(env, After(env, cpus, mlEnabled, steps), k);
  }

  lemma BoundedNow(env: Env, s: Sys, k: Key)
    requires Inv(env, s)
    ensures k !in s.kernel.flows && Arrivals(s, k) > 0 ==> |s.kernel.flows| == 65536
    ensures k in s.kernel.flows ==>
      && Arrivals(s, k) == s.kernel.flows[k].packets
      && (Arrivals(s, k) >= 8 ==> s.kernel.flows[k].phase != K.Classifying)
      && Drained(s, k) <= Handed(s, k) < 8
      && (k in s.engine.flows ==> Early(s.engine.flows[k]))
      && forall i :: 0 <= i < |s.engine.expired| && s.engine.expired[i].key == k ==> Early(s.engine.expired[i])
  {
    hide EngineRuns.Inv, Agreed, Arrivals, Early, K.Ledger, Billed, Total, FlowOk;
    assert Copying(s, k);
    if k in s.kernel.flows {
      assert K.RecOk(s.kernel.flows[k]);
      PrefixWeighsLess(s.ring, s.head, OfKey(k));
      FlowsAreSound(env, s.engine);
      if k in s.engine.flows {
        ShortIsEarly(s.engine.flows[k]);
      }
      forall i | 0 <= i < |s.engine.expired| && s.engine.expired[i].key == k ensures Early(s.engine.expired[i]) {
        ShortIsEarly(s.engine.expired[i]);
      }
    }
  }

  lemma ShortIsEarly(f: Flow)
    requires FlowOk(f) && f.packets < 8
    ensures Early(f)
  {
  }

  lemma FlowsAreSound(env: Env, s: State)
    requires EngineRuns.Inv(env, s)
    ensures forall k :: k in s.flows ==> s.flows[k].key == k && FlowOk(s.flows[k])
    ensures forall i :: 0 <= i < |s.expired| ==> FlowOk(s.expired[i])
  {
    hide FlowOk, Ledger, EngineRuns.ContextOk;
  }

  lemma {:induction false} PrefixWeighsLess<T>(xs: seq<T>, n: nat, w: T -> nat)
    requires n <= |xs|
    ensures Sum(xs[..n], w) <= Sum(xs, w)
    decreases |xs|
  {
    if n < |xs| {
      PrefixWeighsLess(xs[..|xs| - 1], n, w);
      assert xs[..|xs| - 1][..n] == xs[..n];
    } else {
      assert xs[..n] == xs;
    }
  }

  function HasKey(k: Key): Flow -> nat {
    (f: Flow) => One(f.key == k)
  }

  // The verdicts of past entries are at most as many as the entries.
  lemma {:induction false} PastIsFew(expired: seq<Flow>, k: Key)
    ensures |PastVerdicts(expired, k)| <= Sum(expired, HasKey(k))
  {
    hide VerdictOf;
    if expired != [] {
      PastIsFew(expired[..|expired| - 1], k);
    }
  }

  lemma {:induction false} PastComesFrom(expired: seq<Flow>, k: Key, app: U16) returns (i: nat)
    requires app in PastVerdicts(expired, k)
    ensures i < |expired| && expired[i].key == k && VerdictOf(expired[i]) == Some(app)
    decreases |expired|
  {
    hide VerdictOf;
    var n := |expired| - 1;
    if expired[n].key == k && VerdictOf(expired[n]) == Some(app) {
      i := n;
    } else {
      i := PastComesFrom(expired[..n], k, app);
    }
  }

  lemma EarlyVerdictIsReal(f: Flow, app: U16)
    requires Early(f) && FlowOk(f) && VerdictOf(f) == Some(app)
    ensures app != 0 && f.status == Classified
  {
  }

  // In whatever order the steps come: what the kernel classified a flow as was once
  // written for its key, and is a real application; each entry of a key writes one
  // verdict at most, in order; and while no entry of the key has expired, kernel,
  // verdict map and daemon agree.
  lemma VerdictHistory(env: Env, cpus: nat, mlEnabled: bool, steps: seq<Step>, k: Key)
    ensures var s := After(env, cpus, mlEnabled, steps);
      var written := Written(s.writes, k);
      && written == Verdicts(s.engine, k)
      && |written| <= Sum(s.engine.expired, HasKey(k)) + 1
      && (k in s.kernel.verdicts ==> written != [] && s.kernel.verdicts[k] == written[|written| - 1])
      && (k !in s.kernel.verdicts && written != [] ==> |s.kernel.verdicts| == 65536)
      && (k in s.kernel.flows && s.kernel.flows[k].phase == K.GaveUp ==> s.kernel.flows[k].app == 0)
      && (k in s.kernel.flows && s.kernel.flows[k].phase == K.Classified ==>
            var app := s.kernel.flows[k].app;
            && app in written && app != 0
            && (Sum(s.engine.expired, HasKey(k)) == 0 ==>
                  && written == [app] && k in s.kernel.verdicts && s.kernel.verdicts[k] == app
                  && k in s.engine.flows && s.engine.flows[k].status == Classified && s.engine.flows[k].app == app))
  {
    hide After;
    AlwaysInv(env, cpus, mlEnabled, steps);
    AgreedNow(env, After(env, cpus, mlEnabled, steps), k);
  }

  lemma AgreedNow(env: Env, s: Sys, k: Key)
    requires Inv(env, s)
    ensures var written := Written(s.writes, k);
      && written == Verdicts(s.engine, k)
      && |written| <= Sum(s.engine.expired, HasKey(k)) + 1
      && (k in s.kernel.verdicts ==> written != [] && s.kernel.verdicts[k] == written[|written| - 1])
      && (k !in s.kernel.verdicts && written != [] ==> |s.kernel.verdicts| == 65536)
      && (k in s.kernel.flows && s.kernel.flows[k].phase == K.GaveUp ==> s.kernel.flows[k].app == 0)
      && (k in s.kernel.flows && s.kernel.flows[k].phase == K.Classified ==>
            var app := s.kernel.flows[k].app;
            && app in written && app != 0
            && (Sum(s.engine.expired, HasKey(k)) == 0 ==>
                  && written == [app] && k in s.kernel.verdicts && s.kernel.verdicts[k] == app
                  && k in s.engine.flows && s.engine.flows[k].status == Classified && s.engine.flows[k].app == app))
  {
    hide EngineRuns.Inv, Copying, K.Ledger, Conserved, Bounded, FlowOk, Early, Written, PastVerdicts;
    assert Agreed(s, k);
    PastIsFew(s.engine.expired, k);
    if k in s.kernel.flows {
      assert K.RecOk(s.kernel.flows[k]);
      if s.kernel.flows[k].phase == K.Classified {
        WrittenIsReal(env, s, k, s.kernel.flows[k].app);
      }
    }
  }

  lemma WrittenIsReal(env: Env, s: Sys, k: Key, app: U16)
    requires Inv(env, s) && k in s.kernel.flows && app in Verdicts(s.engine, k)
    ensures app != 0
    ensures VerdictAt(s.engine, k) == Some(app) ==>
      k in s.engine.flows && s.engine.flows[k].status == Classified && s.engine.flows[k].app == app
  {
    hide EngineRuns.Inv, Copying, K.Inv, Conserved, Bounded, Agreed, FlowOk, Early, PastVerdicts;
    BoundedNow(env, s, k);
    FlowsAreSound(env, s.engine);
    if VerdictAt(s.engine, k) == Some(app) {
      EarlyVerdictIsReal(s.engine.flows[k], app);
    } else {
      var i := PastComesFrom(s.engine.expired, k, app);
      EarlyVerdictIsReal(s.engine.expired[i], app);
    }
  }

  // Once the kernel has decided a flow, no later step of either tier changes its
  // state or application, and the history of verdicts only grows.
  lemma {:induction false} TerminalForever(env: Env, s: Sys, steps: seq<Step>, k: Key)
    requires k in s.kernel.flows && s.kernel.flows[k].phase != K.Classifying
    ensures var t := Run(env, s, steps);
      && k in t.kernel.flows && t.kernel.flows[k].phase == s.kernel.flows[k].phase
      && t.kernel.flows[k].app == s.kernel.flows[k].app
      && s.writes <= t.writes && s.arrived <= t.arrived
    decreases |steps|
  {
    hide DrainOne, Arrive, KernelEvent, ExpireAll;
    if steps != [] {
      TerminalForever(env, s, steps[..|steps| - 1], k);
      var t := Run(env, s, steps[..|steps| - 1]);
      match steps[|steps| - 1]
      case Packet(cpu, f, linear, ts, ok) =>
        if linear <= |f| && cpu < |t.kernel.cnt| && KernelEvent(f, linear, ts).Some? {
          ArriveKeepsTerminal(t, cpu, KernelEvent(f, linear, ts).value, |f|, ok, k);
        }
      case Drain(o, now) => DrainKeepsFlows(env, t, o, now);
      case Age(order, now) =>
    }
  }

  lemma ArriveKeepsTerminal(s: Sys, cpu: nat, e: Event, len: nat, ok: bool, k: Key)
    requires cpu < |s.kernel.cnt| && k in s.kernel.flows && s.kernel.flows[k].phase != K.Classifying
    ensures var t := Arrive(s, cpu, e, len, ok);
      && k in t.kernel.flows && t.kernel.flows[k].phase == s.kernel.flows[k].phase
      && t.kernel.flows[k].app == s.kernel.flows[k].app && t.writes == s.writes && s.arrived <= t.arrived
  {
    hide K.OnPacket;
    CopiesIsTracked(s.kernel, cpu, e.key, len, e.ts);
    K.TerminalIsAbsorbing(s.kernel, cpu, e.key, len, e.ts, k);
  }

  lemma DrainKeepsFlows(env: Env, s: Sys, o: Oracle, now: U32)
    ensures var t := DrainOne(env, s, o, now);
      t.kernel.flows == s.kernel.flows && s.writes <= t.writes && t.arrived == s.arrived
  {
    hide Process;
  }
}
