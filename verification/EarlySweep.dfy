// Why the loop must poll before it sweeps (Pacing): a consumer that swept while a
// copy of a decided flow was still in the ring would lose the agreement of kernel and
// verdict map. The daemon's own loop never takes this run.
module EarlySweep {
  import opened Basics
  import opened Capture
  import opened DnsSlots
  import MlStats
  import opened EngineModel
  import EngineRuns
  import opened Pacing
  import opened Pipeline
  import K = KernelModel

  // Two packets of one flow are copied before the first is drained. The first
  // verdict reaches the kernel, the entry expires, and the second copy founds a new
  // entry with a verdict of its own.
  ghost function Parting(f: Frame, linear: nat, k: Key, first: Oracle, second: Oracle): seq<Step> {
    var packet := Packet(0, f, linear, 0, true);
    [packet] + [packet] + [Drain(first, 0)] + [packet] + [Age([k], 1000)] + [Drain(second, 1000)]
  }

  // nDPI recognises the application on the first packet and names no host.
  predicate Recognises(o: Oracle, app: U16) {
    o.entryOk && o.ndpiOk && o.det == Detection(app, 0, "") && app != 0
  }

  ghost predicate BlankCache(s: State) {
    forall i :: 0 <= i < DnsSlots.SIZE ==> s.cache[i].host == ""
  }

  lemma FreshVerdict(env: Env, s: State, e: Event, o: Oracle, now: U32, app: U16)
    requires BlankCache(s) && e.key !in s.flows && HasPayload(e) && !IsDns(e.key) && Recognises(o, app)
    ensures var (s', verdict) := Process(env, s, e, o, now);
      && verdict == Some(app) && s'.expired == s.expired && s'.cache == s.cache
      && (exists g :: s'.flows == s.flows[e.key := g] && g.key == e.key && g.lastSeen == now
            && g.app == app && VerdictOf(g) == Some(app))
  {
    hide MlStats.Add, Hash;
    var t := Entered(s, e.key, now);
    var f := t.flows[e.key];
    var j := Judge(env, t, f, e, o, now);
    assert f == NewFlow(e.key, now).(lastSeen := now);
    FreshJudgement(env, t, f, e, o, now, app);
    EngineRuns.BookKeepsRest(env, EngineModel.Judging(t, e.key, j), j.flow);
    assert s.flows[e.key := f][e.key := j.flow] == s.flows[e.key := j.flow];
    assert Process(env, s, e, o, now).0.flows == s.flows[e.key := j.flow];
  }

  lemma FreshJudgement(env: Env, s: State, f: Flow, e: Event, o: Oracle, now: U32, app: U16)
    requires BlankCache(s) && f.sni == "" && HasPayload(e) && Recognises(o, app)
    ensures var j := Judge(env, s, f, e, o, now);
      && j.flow.key == f.key && j.flow.lastSeen == f.lastSeen && j.flow.app == app
      && VerdictOf(j.flow) == Some(app) && j.context == Context(s.cache, s.pool)
  {
    hide MlStats.Add, Hash;
  }

  lemma FirstCopies(env: Env, cpus: nat, mlEnabled: bool, f: Frame, linear: nat, e: Event)
    requires cpus > 0 && linear <= |f| && KernelEvent(f, linear, 0) == Some(e)
    ensures var packet := Packet(0, f, linear, 0, true);
      var s := Run(env, Pipeline.Start(cpus, mlEnabled), [packet] + [packet]);
      && s.ring == [e, e] && s.head == 0 && s.engine == EngineModel.Start(mlEnabled) && s.writes == []
      && s.kernel.flows == map[e.key := K.Rec(K.Classifying, 2, 0, |f| + |f|, 2, 0, |f| + |f|)]
      && s.kernel.verdicts == map[] && |s.kernel.cnt| == cpus
  {
    EventTime(f, linear, 0);
    hide KernelEvent, EngineModel.Start, K.Counted, Run;
    var packet := Packet(0, f, linear, 0, true);
    var s0 := Pipeline.Start(cpus, mlEnabled);
    var s1 := Next(env, s0, packet);
    RunOne(env, s0, packet);
    RunSnoc(env, s0, [packet], packet);
    assert s1.kernel.flows == map[e.key := K.Rec(K.Classifying, 1, 0, |f|, 1, 0, |f|)];
  }

  lemma RunOne(env: Env, s: Sys, step: Step)
    ensures Run(env, s, [step]) == Next(env, s, step)
  {
    hide Next;
    assert [step][..0] == [];
  }

  lemma EventTime(f: Frame, linear: nat, ts: nat)
    requires linear <= |f|
    ensures KernelEvent(f, linear, ts).Some? ==> KernelEvent(f, linear, ts).value.ts == ts
  {
    hide KernelAccepts, FrameKey, KernelData;
  }

  lemma ExpireOne(env: Env, s: State, k: Key)
    requires k in s.flows
    ensures ExpireAll(env, s, [k]) == Expire(env, s, k)
  {
    hide Expire;
    assert [k][1..] == [];
  }

  // The fourth to sixth step, from where the first verdict has just been written.
  lemma SecondVerdict(env: Env, s: Sys, f: Frame, linear: nat, e: Event, g: Flow, second: Oracle, app: U16, other: U16)
    requires linear <= |f| && KernelEvent(f, linear, 0) == Some(e) && HasPayload(e) && !IsDns(e.key)
    requires s.ring == [e, e] && s.head == 1 && |s.kernel.cnt| > 0 && BlankCache(s.engine)
    requires s.kernel.verdicts == map[e.key := app] && s.writes == [Write(e.key, app)]
    requires s.kernel.flows == map[e.key := K.Rec(K.Classifying, 2, 0, |f| + |f|, 2, 0, |f| + |f|)]
    requires s.engine.flows == map[e.key := g] && g.key == e.key && g.lastSeen == 0
    requires Recognises(second, other)
    ensures var aged := Next(env, Next(env, s, Packet(0, f, linear, 0, true)), Age([e.key], 1000));
      var t := Next(env, aged, Drain(second, 1000));
      && e.key in t.kernel.flows && t.kernel.flows[e.key].phase == K.Classified && t.kernel.flows[e.key].app == app
      && t.kernel.verdicts == map[e.key := other] && t.writes == [Write(e.key, app), Write(e.key, other)]
      && e.key in t.engine.flows && t.engine.flows[e.key].app == other
      && !Rested(Next(env, s, Packet(0, f, linear, 0, true)))
  {
    hide KernelEvent, Process, BlankCache, K.Counted, AppCharged, CatCharged, HandlesOf;
    var s4 := Next(env, s, Packet(0, f, linear, 0, true));
    assert s4.kernel.flows[e.key].phase == K.Classified && s4.ring == [e, e] && s4.engine == s.engine;
    assert OnFile(s4, e.key) && s4.ring[1].key == e.key && Waiting(s4, e.key);
    assert IsSweep(s.engine.flows, [e.key], 1000);
    var s5 := Next(env, s4, Age([e.key], 1000));
    ExpireOne(env, s.engine, e.key);
    assert s5.engine == Expire(env, s.engine, e.key);
    assert BlankCache(s5.engine) by { SameCache(s.engine, s5.engine); }
    FreshVerdict(env, s5.engine, e, second, 1000, other);
  }

  lemma SameCache(s: State, t: State)
    requires BlankCache(s) && t.cache == s.cache
    ensures BlankCache(t)
  {
  }

  // After this run the kernel accounts the flow to the first application while map
  // and daemon hold the other; and the run does not sweep at rest.
  lemma EarlySweepParts(env: Env, cpus: nat, mlEnabled: bool, f: Frame, linear: nat, e: Event,
                        first: Oracle, second: Oracle, app: U16, other: U16)
    requires cpus > 0 && linear <= |f| && KernelEvent(f, linear, 0) == Some(e) && HasPayload(e) && !IsDns(e.key)
    requires Recognises(first, app) && Recognises(second, other)
    ensures var s := Pipeline.After(env, cpus, mlEnabled, Parting(f, linear, e.key, first, second));
      && e.key in s.kernel.flows && s.kernel.flows[e.key].phase == K.Classified && s.kernel.flows[e.key].app == app
      && s.kernel.verdicts == map[e.key := other] && s.writes == [Write(e.key, app), Write(e.key, other)]
      && e.key in s.engine.flows && s.engine.flows[e.key].app == other
      && !Paced(env, Pipeline.Start(cpus, mlEnabled), Parting(f, linear, e.key, first, second))
  {
    hide KernelEvent, Process, Next, Run, Rested, HasPayload, IsDns, Recognises;
    var packet, s0 := Packet(0, f, linear, 0, true), Pipeline.Start(cpus, mlEnabled);
    FirstCopies(env, cpus, mlEnabled, f, linear, e);
    var two := [packet] + [packet];
    var s2 := Run(env, s0, two);
    RunSnoc(env, s0, two, Drain(first, 0));
    RunSnoc(env, s0, two + [Drain(first, 0)], packet);
    RunSnoc(env, s0, two + [Drain(first, 0)] + [packet], Age([e.key], 1000));
    RunSnoc(env, s0, two + [Drain(first, 0)] + [packet] + [Age([e.key], 1000)], Drain(second, 1000));
    FirstVerdict(env, s2, e, first, app, mlEnabled);
    var s3 := Next(env, s2, Drain(first, 0));
    var g := s3.engine.flows[e.key];
    SecondVerdict(env, s3, f, linear, e, g, second, app, other);
    NotPaced(env, s0, two + [Drain(first, 0)] + [packet], [e.key], 1000, Drain(second, 1000));
  }

  lemma NotPaced(env: Env, s: Sys, steps: seq<Step>, order: seq<Key>, now: U32, last: Step)
    requires !Rested(Run(env, s, steps))
    ensures !Paced(env, s, steps + [Age(order, now)] + [last])
  {
    hide Rested, Run;
    var aged := steps + [Age(order, now)];
    assert aged[..|aged| - 1] == steps && (aged + [last])[..|aged|] == aged;
  }

  // A TCP packet of 74 bytes: Ethernet, IPv4 and TCP headers and twenty bytes more.
  function SampleFrame(): Frame {
    seq(74, i => if i == 12 then 8 else if i == 14 then 0x45 else if i == 17 || i == 23 then 6 else 0)
  }

  function Answering(app: U16): Oracle {
    Oracle(true, true, [], Detection(app, 0, ""), Detection(0, 0, ""), 0)
  }

  // The same, with a frame and two answers written out.
  lemma ConcreteEarlySweep(env: Env, mlEnabled: bool)
    ensures KernelAccepts(SampleFrame(), 74)
    ensures var k := FrameKey(SampleFrame());
      var steps := Parting(SampleFrame(), 74, k, Answering(5), Answering(7));
      var s := Pipeline.After(env, 1, mlEnabled, steps);
      && k in s.kernel.flows && s.kernel.flows[k].phase == K.Classified && s.kernel.flows[k].app == 5
      && s.kernel.verdicts == map[k := 7] && !Paced(env, Pipeline.Start(1, mlEnabled), steps)
  {
    hide Pipeline.After, Pipeline.Start, Paced, Parting;
    var f := SampleFrame();
    assert f[12] == 8 && f[13] == 0 && f[14] == 0x45 && f[23] == 6;
    assert KernelData(f).Payload?;
    var e := KernelEvent(f, 74, 0).value;
    EarlySweepParts(env, 1, mlEnabled, f, 74, e, Answering(5), Answering(7), 5, 7);
  }

  lemma FirstVerdict(env: Env, s: Sys, e: Event, first: Oracle, app: U16, mlEnabled: bool)
    requires s.ring == [e, e] && s.head == 0 && s.engine == EngineModel.Start(mlEnabled) && s.writes == []
    requires s.kernel.verdicts == map[] && HasPayload(e) && !IsDns(e.key) && Recognises(first, app)
    ensures var t := Next(env, s, Drain(first, 0));
      && t.ring == s.ring && t.head == 1 && t.kernel.flows == s.kernel.flows && t.kernel.cnt == s.kernel.cnt
      && t.kernel.verdicts == map[e.key := app] && t.writes == [Write(e.key, app)] && BlankCache(t.engine)
      && exists g :: t.engine.flows == map[e.key := g] && g.key == e.key && g.lastSeen == 0
  {
    hide Process, HasPayload, IsDns, Recognises;
    FreshVerdict(env, s.engine, e, first, 0, app);
  }
}
