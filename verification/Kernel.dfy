// The TC program of bpf/ndpi_observe.bpf.c: its maps as a value, the effect of
// one packet on them, and the ledger its counters keep. One packet is one step.
module KernelModel {
  import opened Basics
  import opened Tally

  // FLOW_STATE_*; a flow is never stored as new.
  datatype Phase = Classifying | Classified | GaveUp

  // `sent` is history: the bytes of the flow's packets that went to userspace, or
  // were lost on the way.
  datatype Rec = Rec(phase: Phase, pktCount: nat, app: U16, bytes: nat, packets: nat, lastSeen: nat, sent: nat)

  datatype Cnt = Cnt(bytes: nat, packets: nat, flows: nat)

  // One CPU's slice of the per-CPU array.
  type Bank = s: seq<Cnt> | |s| == APPS witness seq(APPS, _ => Cnt(0, 0, 0))

  // max_entries of both hash maps
  const MAX_ENTRIES: nat := 65536

  datatype State = State(flows: map<Key, Rec>, verdicts: map<Key, U16>, cnt: seq<Bank>)

  function FirstRec(bytes: nat, ts: nat): Rec {
    Rec(Classifying, 1, 0, bytes, 1, ts, bytes)
  }

  // The flow record after a packet, given the verdict on file for its key.
  function Advance(r: Rec, verdict: Option<U16>, bytes: nat, ts: nat): Rec {
    var s := r.(bytes := r.bytes + bytes, packets := r.packets + 1, lastSeen := ts);
    if r.phase != Classifying then s
    else if verdict.Some? then s.(phase := Classified, app := verdict.value)
    else if r.pktCount + 1 < MAX_CLASSIFY_PKTS then s.(pktCount := r.pktCount + 1, sent := r.sent + bytes)
    else s.(pktCount := r.pktCount + 1, phase := GaveUp, app := 0)
  }

  function VerdictFor(k: State, key: Key): Option<U16> {
    if key in k.verdicts then Some(k.verdicts[key]) else None
  }

  function Counted(bank: Bank, app: U16, bytes: nat, isNew: bool): Bank {
    if app >= APPS then bank
    else
      var c := bank[app];
      bank[app := Cnt(c.bytes + bytes, c.packets + 1, c.flows + if isNew then 1 else 0)]
  }

  // A packet is copied to userspace unless it leaves its flow in a terminal state.
  predicate Copies(k: State, key: Key) {
    key !in k.flows || Advance(k.flows[key], VerdictFor(k, key), 0, 0).phase == Classifying
  }

  function OnPacket(k: State, cpu: nat, key: Key, bytes: nat, ts: nat): State
    requires cpu < |k.cnt|
  {
    if key !in k.flows then
      if |k.flows| < MAX_ENTRIES then k.(flows := k.flows[key := FirstRec(bytes, ts)]) else k
    else
      var r := Advance(k.flows[key], VerdictFor(k, key), bytes, ts);
      var isNew := k.flows[key].phase == Classifying;
      k.(flows := k.flows[key := r],
         cnt := if r.phase == Classifying then k.cnt
                else k.cnt[cpu := Counted(k.cnt[cpu], r.app, bytes, isNew)])
  }

  // A verdict from userspace; a new key is refused when the map is full.
  function OnVerdict(k: State, key: Key, app: U16): State {
    if key in k.verdicts || |k.verdicts| < MAX_ENTRIES then k.(verdicts := k.verdicts[key := app]) else k
  }

  // ---- One packet, in numbers ----------------------------------------------

  // A key is new to the map: it is tracked if the map has room. A record counts
  // every packet. A decided one keeps its state and application; an undecided one
  // takes the verdict on file before anything else, and only without one is counted
  // towards the eight, at which it is given up.
  lemma PacketOutcome(k: State, cpu: nat, key: Key, len: nat, ts: nat)
    requires cpu < |k.cnt|
    ensures var t := OnPacket(k, cpu, key, len, ts);
      && t.verdicts == k.verdicts
      && (forall l :: l != key ==> (l in t.flows <==> l in k.flows))
      && (forall l :: l != key && l in k.flows ==> t.flows[l] == k.flows[l])
      && (key !in k.flows ==>
            t.flows == if |k.flows| < 65536 then k.flows[key := Rec(Classifying, 1, 0, len, 1, ts, len)] else k.flows)
      && (key in k.flows ==>
            && key in t.flows
            && var r, q := k.flows[key], t.flows[key];
            && q.packets == r.packets + 1 && q.bytes == r.bytes + len && q.lastSeen == ts
            && (r.phase != Classifying ==> q.phase == r.phase && q.app == r.app && q.pktCount == r.pktCount)
            && (r.phase == Classifying && key in k.verdicts ==>
                  q.phase == Classified && q.app == k.verdicts[key] && q.pktCount == r.pktCount)
            && (r.phase == Classifying && key !in k.verdicts ==>
                  && q.pktCount == r.pktCount + 1
                  && (q.pktCount < 8 ==> q.phase == Classifying && q.app == r.app)
                  && (q.pktCount >= 8 ==> q.phase == GaveUp && q.app == 0)))
  {
  }

  // The packet is accounted on its own CPU, to the application its flow has in the end,
  // and only once the flow is decided; the flow itself with the deciding packet.
  lemma PacketCounted(k: State, cpu: nat, key: Key, len: nat, ts: nat, c: nat, a: nat)
    requires cpu < |k.cnt| && c < |k.cnt| && a < 512
    ensures var t := OnPacket(k, cpu, key, len, ts);
      && |t.cnt| == |k.cnt|
      && var decided := key in k.flows && t.flows[key].phase != Classifying;
      if decided && c == cpu && t.flows[key].app == a then
        t.cnt[c][a] == Cnt(k.cnt[c][a].bytes + len, k.cnt[c][a].packets + 1,
                           k.cnt[c][a].flows + if k.flows[key].phase == Classifying then 1 else 0)
      else t.cnt[c][a] == k.cnt[c][a]
  {
    hide Advance;
  }

  // A verdict is stored, except for a new key in a map of 65536.
  lemma VerdictStored(k: State, key: Key, app: U16)
    ensures OnVerdict(k, key, app) == k.(verdicts :=
      if key in k.verdicts || |k.verdicts| < 65536 then k.verdicts[key := app] else k.verdicts)
  {
  }

  // ---- What holds of every record ------------------------------------------

  predicate RecOk(r: Rec) {
    && 1 <= r.pktCount <= MAX_CLASSIFY_PKTS
    && r.sent <= r.bytes && (r.phase == Classifying ==> r.sent == r.bytes)
    && match r.phase
       case Classifying => r.packets == r.pktCount < MAX_CLASSIFY_PKTS
       case Classified => r.pktCount < MAX_CLASSIFY_PKTS && r.packets > r.pktCount
       case GaveUp => r.pktCount == MAX_CLASSIFY_PKTS <= r.packets && r.app == 0
  }

  // Packets of a flow that went to the ring buffer, or were lost on the way.
  function Sent(r: Rec): nat {
    if r.phase == GaveUp then MAX_CLASSIFY_PKTS - 1 else r.pktCount
  }

  function Terminal(a: nat): Rec -> nat {
    (r: Rec) => if r.phase != Classifying && r.app == a then 1 else 0
  }

  function Fast(a: nat): Rec -> nat {
    (r: Rec) => if r.phase != Classifying && r.app == a && r.packets >= Sent(r) then r.packets - Sent(r) else 0
  }

  function FastBytes(a: nat): Rec -> nat {
    (r: Rec) => if r.phase != Classifying && r.app == a && r.bytes >= r.sent then r.bytes - r.sent else 0
  }

  function FlowsAt(a: nat): Bank -> nat {
    (b: Bank) => if a < APPS then b[a].flows else 0
  }

  function PacketsAt(a: nat): Bank -> nat {
    (b: Bank) => if a < APPS then b[a].packets else 0
  }

  function BytesAt(a: nat): Bank -> nat {
    (b: Bank) => if a < APPS then b[a].bytes else 0
  }

  // For every application: the flow counter, summed over the CPUs, counts the
  // tracked keys that ended with it; the packet and byte counters, their packets
  // that were not sent to userspace and the bytes of those.
  ghost predicate LedgerAt(k: State, a: nat) {
    && Sum(k.cnt, FlowsAt(a)) == Total(k.flows, Terminal(a))
    && Sum(k.cnt, PacketsAt(a)) == Total(k.flows, Fast(a))
    && Sum(k.cnt, BytesAt(a)) == Total(k.flows, FastBytes(a))
  }

  ghost predicate Ledger(k: State) {
    forall a :: 0 <= a < APPS ==> LedgerAt(k, a)
  }

  ghost predicate Inv(k: State) {
    && (forall key :: key in k.flows ==> RecOk(k.flows[key]))
    && |k.flows| <= MAX_ENTRIES && |k.verdicts| <= MAX_ENTRIES
    && Ledger(k)
  }

  function Start(cpus: nat): State {
    State(map[], map[], seq(cpus, _ => seq(APPS, _ => Cnt(0, 0, 0))))
  }

  lemma {:induction false} ZeroSum<T>(s: seq<T>, w: T -> nat)
    requires forall x :: x in s ==> w(x) == 0
    ensures Sum(s, w) == 0
  {
    if s != [] {
      ZeroSum(s[..|s| - 1], w);
    }
  }

  lemma StartHolds(cpus: nat)
    ensures Inv(Start(cpus))
  {
    forall a | 0 <= a < APPS ensures LedgerAt(Start(cpus), a) {
      ZeroSum(Start(cpus).cnt, FlowsAt(a));
      ZeroSum(Start(cpus).cnt, PacketsAt(a));
      ZeroSum(Start(cpus).cnt, BytesAt(a));
    }
  }

  lemma AdvanceKeepsRecord(r: Rec, verdict: Option<U16>, bytes: nat, ts: nat)
    requires RecOk(r)
    ensures RecOk(Advance(r, verdict, bytes, ts))
    ensures Advance(r, verdict, bytes, ts).packets == r.packets + 1
    ensures r.phase != Classifying ==>
      var s := Advance(r, verdict, bytes, ts); s.phase == r.phase && s.app == r.app && Sent(s) == Sent(r)
  {
  }

  lemma CountedMoves(k: State, cpu: nat, app: U16, bytes: nat, isNew: bool, a: nat)
    requires cpu < |k.cnt| && a < APPS
    ensures var cnt' := k.cnt[cpu := Counted(k.cnt[cpu], app, bytes, isNew)];
      && Sum(cnt', FlowsAt(a)) == Sum(k.cnt, FlowsAt(a)) + (if a == app && isNew then 1 else 0)
      && Sum(cnt', PacketsAt(a)) == Sum(k.cnt, PacketsAt(a)) + (if a == app then 1 else 0)
      && Sum(cnt', BytesAt(a)) == Sum(k.cnt, BytesAt(a)) + (if a == app then bytes else 0)
  {
    hide Sum;
    SumReplace(k.cnt, cpu, Counted(k.cnt[cpu], app, bytes, isNew), FlowsAt(a));
    SumReplace(k.cnt, cpu, Counted(k.cnt[cpu], app, bytes, isNew), PacketsAt(a));
    SumReplace(k.cnt, cpu, Counted(k.cnt[cpu], app, bytes, isNew), BytesAt(a));
  }

  // What one packet adds to the weights of its record.
  lemma AdvanceMoves(r: Rec, verdict: Option<U16>, bytes: nat, ts: nat, a: nat)
    requires RecOk(r)
    ensures var s := Advance(r, verdict, bytes, ts);
      var hit := s.phase != Classifying && s.app == a;
      && Terminal(a)(s) == Terminal(a)(r) + (if hit && r.phase == Classifying then 1 else 0)
      && Fast(a)(s) == Fast(a)(r) + (if hit then 1 else 0)
      && FastBytes(a)(s) == FastBytes(a)(r) + (if hit then bytes else 0)
  {
  }

  lemma TrackedKeepsLedgerAt(k: State, cpu: nat, key: Key, bytes: nat, ts: nat, a: nat)
    requires cpu < |k.cnt| && LedgerAt(k, a) && a < APPS
    requires key in k.flows && RecOk(k.flows[key])
    ensures LedgerAt(OnPacket(k, cpu, key, bytes, ts), a)
  {
    hide Advance, Counted, Terminal, Fast, FastBytes, RecOk, PacketsAt, FlowsAt, BytesAt, Total, Sum;
    var r := k.flows[key];
    var s := Advance(r, VerdictFor(k, key), bytes, ts);
    AdvanceMoves(r, VerdictFor(k, key), bytes, ts, a);
    TotalUpdate(k.flows, key, s, Terminal(a));
    TotalUpdate(k.flows, key, s, Fast(a));
    TotalUpdate(k.flows, key, s, FastBytes(a));
    CountedMoves(k, cpu, s.app, bytes, r.phase == Classifying, a);
  }

  lemma UntrackedKeepsLedgerAt(k: State, cpu: nat, key: Key, bytes: nat, ts: nat, a: nat)
    requires cpu < |k.cnt| && LedgerAt(k, a) && key !in k.flows
    ensures LedgerAt(OnPacket(k, cpu, key, bytes, ts), a)
  {
    hide Terminal, Fast, FastBytes, PacketsAt, FlowsAt, BytesAt, Total, Sum;
    FirstWeighsNothing(bytes, ts, a);
    TotalUpdate(k.flows, key, FirstRec(bytes, ts), Terminal(a));
    TotalUpdate(k.flows, key, FirstRec(bytes, ts), Fast(a));
    TotalUpdate(k.flows, key, FirstRec(bytes, ts), FastBytes(a));
  }

  lemma FirstWeighsNothing(bytes: nat, ts: nat, a: nat)
    ensures Terminal(a)(FirstRec(bytes, ts)) == 0 && Fast(a)(FirstRec(bytes, ts)) == 0
    ensures FastBytes(a)(FirstRec(bytes, ts)) == 0
  {
  }

  lemma PacketKeepsLedger(k: State, cpu: nat, key: Key, bytes: nat, ts: nat)
    requires cpu < |k.cnt| && Inv(k)
    ensures Ledger(OnPacket(k, cpu, key, bytes, ts))
  {
    hide LedgerAt, RecOk, OnPacket;
    forall a | 0 <= a < APPS ensures LedgerAt(OnPacket(k, cpu, key, bytes, ts), a) {
      if key in k.flows {
        TrackedKeepsLedgerAt(k, cpu, key, bytes, ts, a);
      } else {
        UntrackedKeepsLedgerAt(k, cpu, key, bytes, ts, a);
      }
    }
  }

  lemma PacketKeepsInv(k: State, cpu: nat, key: Key, bytes: nat, ts: nat)
    requires cpu < |k.cnt| && Inv(k)
    ensures Inv(OnPacket(k, cpu, key, bytes, ts))
  {
    hide Ledger;
    assert Ledger(OnPacket(k, cpu, key, bytes, ts)) by {
      PacketKeepsLedger(k, cpu, key, bytes, ts);
    }
    if key in k.flows {
      AdvanceKeepsRecord(k.flows[key], VerdictFor(k, key), bytes, ts);
      assert k.flows[key := Advance(k.flows[key], VerdictFor(k, key), bytes, ts)].Keys == k.flows.Keys;
    }
  }

  lemma VerdictKeepsInv(k: State, key: Key, app: U16)
    requires Inv(k)
    ensures Inv(OnVerdict(k, key, app))
  {
    assert forall a :: 0 <= a < APPS ==> LedgerAt(k, a) ==> LedgerAt(OnVerdict(k, key, app), a);
    if key in k.verdicts {
      assert k.verdicts[key := app].Keys == k.verdicts.Keys;
    }
  }

  // Terminal states are absorbing: no packet changes the state or the application.
  lemma TerminalIsAbsorbing(k: State, cpu: nat, other: Key, bytes: nat, ts: nat, key: Key)
    requires cpu < |k.cnt| && key in k.flows && k.flows[key].phase != Classifying
    ensures var k' := OnPacket(k, cpu, other, bytes, ts);
      && key in k'.flows && k'.flows[key].phase == k.flows[key].phase && k'.flows[key].app == k.flows[key].app
      && !Copies(k, key)
  {
  }
}

// The program itself: one class holding the BPF maps.
module Kernels {
  import opened Basics
  import opened Capture
  import opened KernelModel

  class Kernel {
    var flowMap: map<Key, Rec>
    var verdictMap: map<Key, U16>
    var appCounters: seq<Bank>

    ghost function View(): State
      reads this
    {
      State(flowMap, verdictMap, appCounters)
    }

    constructor (cpus: nat)
      ensures View() == Start(cpus)
    {
      flowMap, verdictMap := map[], map[];
      appCounters := seq(cpus, _ => seq(APPS, _ => Cnt(0, 0, 0)));
    }

    method UpdateAppCounter(cpu: nat, app: U16, bytes: nat, isNewFlow: bool)
      requires cpu < |appCounters|
      modifies this`appCounters
      ensures appCounters == old(appCounters)[cpu := Counted(old(appCounters)[cpu], app, bytes, isNewFlow)]
    {
      var bank := appCounters[cpu];
      if app >= APPS {
        assert appCounters == appCounters[cpu := bank];
        return;
      }
      bank := bank[app := bank[app].(bytes := bank[app].bytes + bytes)];
      bank := bank[app := bank[app].(packets := bank[app].packets + 1)];
      if isNewFlow {
        bank := bank[app := bank[app].(flows := bank[app].flows + 1)];
      }
      assert bank == Counted(old(appCounters)[cpu], app, bytes, isNewFlow);
      appCounters := appCounters[cpu := bank];
    }

    // One packet on one CPU; the result is what went into the ring buffer. A
    // reservation may fail at any time.
    method ProcessPkt(f: Frame, linear: nat, cpu: nat, ts: nat, reserveOk: bool) returns (queued: Option<Event>)
      requires linear <= |f| && cpu < |appCounters|
      modifies this
      ensures |appCounters| == old(|appCounters|)
      ensures View() == if KernelAccepts(f, linear) then OnPacket(old(View()), cpu, FrameKey(f), |f|, ts)
                        else old(View())
      ensures queued == if KernelAccepts(f, linear) && Copies(old(View()), FrameKey(f)) && reserveOk
                        then KernelEvent(f, linear, ts) else None
      ensures KernelAccepts(f, linear) ==>
        var key := FrameKey(f);
        key in old(flowMap) && old(flowMap)[key].phase == Classifying && key in old(verdictMap) ==>
          key in flowMap && flowMap[key].phase == Classified && flowMap[key].app == old(verdictMap)[key]
    {
      hide FrameKey, KernelAccepts, Counted, KernelData;
      queued := None;
      var parsed := ParseFrame(f, linear);
      if parsed.None? { return; }
      AcceptedHasHeader(f, linear);
      var (key, ipTot) := parsed.value;
      if key !in flowMap {
        if |flowMap| < MAX_ENTRIES {
          flowMap := flowMap[key := Rec(Classifying, 1, 0, |f|, 1, ts, |f|)];
        }
        queued := SendToRingbuf(f, key, ipTot, ts, reserveOk);
        return;
      }

      var fs := flowMap[key];
      fs := fs.(bytes := fs.bytes + |f|);
      fs := fs.(packets := fs.packets + 1);
      fs := fs.(lastSeen := ts);
      flowMap := flowMap[key := fs];
      if fs.phase == Classified || fs.phase == GaveUp {
        UpdateAppCounter(cpu, fs.app, |f|, false);
        return;
      }
      if key in verdictMap {
        fs := fs.(app := verdictMap[key]);
        fs := fs.(phase := Classified);
        flowMap := flowMap[key := fs];
        UpdateAppCounter(cpu, fs.app, |f|, true);
        return;
      }
      fs := fs.(pktCount := fs.pktCount + 1);
      flowMap := flowMap[key := fs];
      if fs.pktCount >= MAX_CLASSIFY_PKTS {
        fs := fs.(phase := GaveUp);
        fs := fs.(app := 0);
        flowMap := flowMap[key := fs];
        UpdateAppCounter(cpu, 0, |f|, true);
        return;
      }
      fs := fs.(sent := fs.sent + |f|);
      flowMap := flowMap[key := fs];
      queued := SendToRingbuf(f, key, ipTot, ts, reserveOk);
    }

    // bpf_map_update_elem on the verdict map
    method WriteVerdict(key: Key, app: U16)
      modifies this`verdictMap
      ensures View() == OnVerdict(old(View()), key, app)
    {
      if key in verdictMap || |verdictMap| < MAX_ENTRIES {
        verdictMap := verdictMap[key := app];
      }
    }
  }

  lemma AcceptedHasHeader(f: Frame, linear: nat)
    requires linear <= |f| && KernelAccepts(f, linear)
    ensures |f| >= ETH_LEN
  {
  }

  method SendToRingbuf(f: Frame, key: Key, pktLen: U16, ts: nat, reserveOk: bool) returns (evt: Option<Event>)
    requires |f| >= ETH_LEN
    ensures evt == if reserveOk then Some(Event(key, pktLen, KernelData(f), ts)) else None
  {
    if !reserveOk { return None; }
    var data := CaptureTiers(f);
    return Some(Event(key, pktLen, data, ts));
  }
}
