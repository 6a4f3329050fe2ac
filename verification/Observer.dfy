// The running system of daemon/main.c: the kernel program, the ring buffer and the
// daemon's engine as objects. Its entry points take the steps of Pipeline and keep the
// run they have made; its loop polls before it sweeps, so everything proved of runs in
// Pipeline and Pacing holds of it.
module Observers {
  import opened Basics
  import opened Capture
  import opened EngineModel
  import opened Engines
  import opened Kernels
  import opened Pacing
  import opened Pipeline
  import KernelModel

  // A frame on some CPU, of which `linear` bytes are directly readable.
  datatype Arrival = Arrival(cpu: nat, frame: Frame, linear: nat, ts: nat, reserveOk: bool)

  // One turn of the loop: frames before the poll, after each callback of it and
  // behind it; nDPI's answers; the clock at the poll and at the end.
  datatype Turn = Turn(
    before: seq<Arrival>, o: nat -> Oracle, during: seq<seq<Arrival>>, between: seq<Arrival>, now: U32, later: U32)

  predicate AllFit(arrivals: seq<Arrival>, cpus: nat) {
    forall a :: a in arrivals ==> a.linear <= |a.frame| && a.cpu < cpus
  }

  predicate TurnFits(t: Turn, cpus: nat) {
    AllFit(t.before, cpus) && AllFit(t.between, cpus) && forall a :: a in t.during ==> AllFit(a, cpus)
  }

  // Seconds between two sweeps.
  const AGE_EVERY: nat := 10

  class Observer {
    const kernel: Kernel
    const engine: Engine
    const cpus: nat
    // Events reserved and submitted, not yet consumed.
    var ring: seq<Event>
    var lastAge: nat
    // The run so far and where it has led.
    ghost var steps: seq<Step>
    ghost var sys: Sys

    ghost predicate Valid()
      reads `ring, `steps, `sys, kernel, engine, engine.flows, engine.flows.buckets, engine.flows.index.Values
      reads engine.flows.ndpi, engine.dns, engine.dns.entries
    {
      && engine.Valid() && Pipeline.Inv(engine.env, sys) && Settled(sys)
      && sys.kernel == kernel.View() && sys.engine == engine.View() && |kernel.appCounters| == cpus
      && sys.head <= |sys.ring| && ring == sys.ring[sys.head..]
      && sys == Run(engine.env, Origin(), steps) && Paced(engine.env, Origin(), steps)
    }

    ghost function Origin(): Sys {
      Pipeline.Start(cpus, engine.mlEnabled)
    }

    // Every sweep of the run so far followed a poll.
    ghost predicate Disciplined()
      reads `steps
    {
      Polled(engine.env, Origin(), steps)
    }

    // The ring has been emptied, and only packets have come since.
    ghost predicate Ready()
      reads `steps
    {
      JustPolled(engine.env, Origin(), steps)
    }

    constructor (kernel: Kernel, engine: Engine, now: nat)
      requires kernel.View() == KernelModel.Start(|kernel.appCounters|)
      requires engine.Valid() && engine.View() == EngineModel.Start(engine.mlEnabled)
      ensures Valid() && this.kernel == kernel && this.engine == engine && cpus == |kernel.appCounters|
      ensures sys == Pipeline.Start(cpus, engine.mlEnabled) && steps == [] && Disciplined() && lastAge == now
    {
      hide *;
      this.kernel, this.engine := kernel, engine;
      cpus := |kernel.appCounters|;
      ring, lastAge := [], now;
      steps := [];
      sys := Pipeline.Start(|kernel.appCounters|, engine.mlEnabled);
      new;
      Pipeline.StartHolds(engine.env, cpus, engine.mlEnabled);
      StartIs(cpus, engine.mlEnabled);
      StartIsSettled(cpus, engine.mlEnabled);
      NothingRun(engine.env, Origin());
      FromOrigin();
      Linked();
    }

    lemma FromOrigin()
      ensures Origin() == Pipeline.Start(cpus, engine.mlEnabled)
      ensures steps == [] && Polled(engine.env, Origin(), []) ==> Disciplined()
    {
    }

    // All that Valid asks for.
    lemma Linked()
      requires engine.Valid() && Pipeline.Inv(engine.env, sys) && Settled(sys)
      requires sys.kernel == kernel.View() && sys.engine == engine.View() && |kernel.appCounters| == cpus
      requires sys.head <= |sys.ring| && ring == sys.ring[sys.head..]
      requires sys == Run(engine.env, Origin(), steps) && Paced(engine.env, Origin(), steps)
      ensures Valid()
    {
      hide Engine.Valid, Engine.View, Pipeline.Inv, Settled, Run, Paced;
    }

    // A step taken lengthens the run.
    lemma Lengthened(before: seq<Step>, step: Step)
      requires Paced(engine.env, Origin(), before) && steps == before + [step]
      requires step.Age? ==> Rested(Run(engine.env, Origin(), before))
      ensures Run(engine.env, Origin(), steps) == Next(engine.env, Run(engine.env, Origin(), before), step)
      ensures Paced(engine.env, Origin(), steps)
      ensures Polled(engine.env, Origin(), before) && (step.Age? ==> JustPolled(engine.env, Origin(), before)) ==>
        Disciplined()
      ensures JustPolled(engine.env, Origin(), before) && step.Packet? ==> Ready()
    {
      hide Run, Paced, Polled, JustPolled, Rested, Next;
      RunSnoc(engine.env, Origin(), before, step);
      DisciplineGrows(engine.env, Origin(), before, step);
    }

    // A frame on some CPU; a system at rest, or ready for a sweep, stays so.
    method OnPacket(cpu: nat, f: Frame, linear: nat, ts: nat, reserveOk: bool)
      requires Valid() && linear <= |f| && cpu < cpus
      modifies `ring, `steps, `sys, kernel
      ensures Valid() && sys == Next(engine.env, old(sys), Packet(cpu, f, linear, ts, reserveOk))
      ensures steps == old(steps) + [Packet(cpu, f, linear, ts, reserveOk)]
      ensures old(Rested(sys)) ==> Rested(sys)
      ensures (old(Ready()) ==> Ready()) && (old(Disciplined()) ==> Disciplined())
    {
      hide Engine.Valid, Engine.View, Pipeline.Inv, Settled, Rested, KernelEvent, KernelAccepts, FrameKey,
        KernelModel.OnPacket, KernelModel.Copies, Run, Paced, Polled, JustPolled, Origin;
      AcceptedEvent(f, linear, ts);
      PacketKeepsInv(engine.env, sys, cpu, f, linear, ts, reserveOk);
      var queued := kernel.ProcessPkt(f, linear, cpu, ts, reserveOk);
      if queued.Some? {
        ring := ring + [queued.value];
      }
      sys := Next(engine.env, sys, Packet(cpu, f, linear, ts, reserveOk));
      ghost var before := steps;
      steps := steps + [Packet(cpu, f, linear, ts, reserveOk)];
      Lengthened(before, Packet(cpu, f, linear, ts, reserveOk));
    }

    // ring_buf_cb: the oldest event goes through the engine, its verdict back
    method OnEvent(o: Oracle, now: U32)
      requires Valid() && ring != []
      modifies `ring, `steps, `sys, kernel, engine, engine.flows, engine.flows.buckets, engine.flows.index.Values
      modifies engine.flows.ndpi, engine.dns, engine.dns.entries
      ensures Valid() && sys == Next(engine.env, old(sys), Drain(o, now)) && ring == old(ring)[1..]
      ensures steps == old(steps) + [Drain(o, now)] && (old(Disciplined()) ==> Disciplined())
      ensures forall l :: l in engine.flows.index ==>
        fresh(engine.flows.index[l]) || engine.flows.index[l] in old(engine.flows.index.Values)
    {
      hide Engine.Valid, Engine.View, Pipeline.Inv, Settled, Process, Run, Paced, Polled, JustPolled, Origin;
      Pipeline.DrainKeepsInv(engine.env, sys, o, now);
      DrainKeepsSettled(engine.env, sys, o, now);
      var evt := ring[0];
      assert evt == sys.ring[sys.head];
      var verdict := engine.Process(evt, o, now);
      if verdict.Some? {
        kernel.WriteVerdict(evt.key, verdict.value);
      }
      ring := ring[1..];
      sys := Next(engine.env, sys, Drain(o, now));
      ghost var before := steps;
      steps := steps + [Drain(o, now)];
      Lengthened(before, Drain(o, now));
    }

    method Receive(arrivals: seq<Arrival>)
      requires Valid() && AllFit(arrivals, cpus)
      modifies `ring, `steps, `sys, kernel
      ensures Valid() && steps == old(steps) + Frames(arrivals)
      ensures (old(Ready()) ==> Ready()) && (old(Disciplined()) ==> Disciplined())
    {
      hide Valid, Next, Ready, Disciplined, Rested, Frames;
      var i := 0;
      NoFrames(old(steps), arrivals);
      while i < |arrivals|
        invariant i <= |arrivals| && Valid() && steps == old(steps) + Frames(arrivals[..i])
        invariant (old(Ready()) ==> Ready()) && (old(Disciplined()) ==> Disciplined())
      {
        FramesSnoc(old(steps), arrivals, i);
        var a := arrivals[i];
        OnPacket(a.cpu, a.frame, a.linear, a.ts, a.reserveOk);
        i := i + 1;
      }
      assert arrivals[..i] == arrivals;
    }

    // ring_buffer__poll: callbacks until the ring is empty, while frames keep coming;
    // `n` counts the callbacks.
    method Poll(o: nat -> Oracle, during: seq<seq<Arrival>>, now: U32) returns (ghost n: nat)
      requires Valid() && forall a :: a in during ==> AllFit(a, cpus)
      modifies `ring, `steps, `sys, kernel, engine, engine.flows, engine.flows.buckets, engine.flows.index.Values
      modifies engine.flows.ndpi, engine.dns, engine.dns.entries
      ensures Valid() && ring == [] && Rested(sys) && Ready() && (old(Disciplined()) ==> Disciplined())
      ensures steps == old(steps) + Callbacks(n, o, during, now) && (during == [] ==> n == |old(ring)|)
      ensures sys == Run(engine.env, old(sys), Callbacks(n, o, during, now))
      ensures forall l :: l in engine.flows.index ==>
        fresh(engine.flows.index[l]) || engine.flows.index[l] in old(engine.flows.index.Values)
    {
      hide Valid, Next, Run, Ready, Disciplined, Rested, Callbacks, AllFit;
      n := 0;
      var i := 0;
      SoFar();
      NoCallbacks(old(steps), o, during, now);
      while ring != []
        invariant n == i && Valid() && steps == old(steps) + Callbacks(n, o, during, now)
        invariant (old(Disciplined()) ==> Disciplined()) && (during == [] ==> n + |ring| == |old(ring)|)
        invariant forall l :: l in engine.flows.index ==>
          fresh(engine.flows.index[l]) || engine.flows.index[l] in old(engine.flows.index.Values)
        decreases if i < |during| then |during| - i else 0, |ring|
      {
        CallbacksSnoc(old(steps), n, o, during, now);
        OnEvent(o(i), now);
        if i < |during| {
          Receive(during[i]);
        }
        i := i + 1;
        n := n + 1;
      }
      AtRest();
      Composed(old(steps), old(sys), Callbacks(n, o, during, now));
    }

    lemma AtRest()
      requires Valid() && ring == []
      ensures Rested(sys) && Ready()
    {
      hide Engine.Valid, Engine.View, Pipeline.Inv, Settled, Rested, Run, Paced, Origin;
      EmptyRingIsRested(sys);
    }

    lemma SoFar()
      requires Valid()
      ensures sys == Run(engine.env, Origin(), steps)
    {
      hide Engine.Valid, Engine.View, Pipeline.Inv, Settled, Run, Paced, Origin;
    }

    lemma Composed(before: seq<Step>, was: Sys, more: seq<Step>)
      requires Valid() && was == Run(engine.env, Origin(), before) && steps == before + more
      ensures sys == Run(engine.env, was, more)
    {
      hide Engine.Valid, Engine.View, Pipeline.Inv, Settled, Rested, Run, Paced, Origin;
      RunsCompose(engine.env, Origin(), before, more);
    }

    // The ten-second tick, which comes after a poll.
    method OnTick(now: U32) returns (ghost order: seq<Key>)
      requires Valid() && Rested(sys)
      modifies `steps, `sys, engine, engine.flows, engine.flows.buckets, engine.flows.index.Values, engine.flows.ndpi
      ensures IsSweep(old(sys).engine.flows, order, now)
      ensures Valid() && sys == Next(engine.env, old(sys), Age(order, now))
      ensures steps == old(steps) + [Age(order, now)]
      ensures old(Ready()) && old(Disciplined()) ==> Disciplined()
      ensures forall k :: k in engine.flows.index ==>
        now as int - engine.flows.index[k].flow.lastSeen as int <= if k.proto == 6 then 300 else 30
      ensures forall l :: l in engine.flows.index ==>
        fresh(engine.flows.index[l]) || engine.flows.index[l] in old(engine.flows.index.Values)
    {
      hide Engine.Valid, Engine.View, Pipeline.Inv, Settled, Rested, IsSweep, AllPresent, ExpireAll, Run, Paced,
        Polled, JustPolled, Origin;
      order := engine.Age(now);
      Pipeline.AgeKeepsInv(engine.env, sys, order);
      SweepKeepsSettled(engine.env, sys, order);
      sys := Next(engine.env, sys, Age(order, now));
      ghost var before := steps;
      steps := steps + [Age(order, now)];
      Lengthened(before, Age(order, now));
    }

    // One turn of the loop: poll, and sweep if the last sweep is ten seconds old.
    method TakeTurn(t: Turn) returns (ghost n: nat, ghost order: seq<Key>)
      requires Valid() && TurnFits(t, cpus)
      modifies this, kernel, engine, engine.flows, engine.flows.buckets, engine.flows.index.Values
      modifies engine.flows.ndpi, engine.dns, engine.dns.entries
      ensures Valid() && (old(Disciplined()) ==> Disciplined())
      ensures var polled := old(steps) + Frames(t.before) + Callbacks(n, t.o, t.during, t.now) + Frames(t.between);
        if t.later as int - old(lastAge) as int >= 10 then
          steps == polled + [Age(order, t.later)] && lastAge == t.later
          && IsSweep(Run(engine.env, Origin(), polled).engine.flows, order, t.later)
        else steps == polled && lastAge == old(lastAge)
      ensures t.later as int - old(lastAge) as int >= 10 ==> forall k :: k in engine.flows.index ==>
        t.later as int - engine.flows.index[k].flow.lastSeen as int <= if k.proto == 6 then 300 else 30
      ensures forall l :: l in engine.flows.index ==>
        fresh(engine.flows.index[l]) || engine.flows.index[l] in old(engine.flows.index.Values)
    {
      hide Valid, Next, Run, Ready, Disciplined, Rested, Callbacks, Frames, AllFit, IsSweep;
      order := [];
      Receive(t.before);
      n := Poll(t.o, t.during, t.now);
      Receive(t.between);
      if IsDue(lastAge, t.later) {
        ReadyIsRested();
        SoFar();
        order := OnTick(t.later);
        lastAge := t.later;
      }
    }

    lemma ReadyIsRested()
      requires Valid() && Ready()
      ensures Rested(sys)
    {
      hide Engine.Valid, Engine.View, Pipeline.Inv, Settled, Rested, Run, Paced, JustPolled;
      Pipeline.StartHolds(engine.env, cpus, engine.mlEnabled);
      StartIsSettled(cpus, engine.mlEnabled);
      JustPolledIsRested(engine.env, Origin(), steps);
    }

    // The loop, for as long as it runs.
    method Loop(turns: seq<Turn>)
      requires Valid() && Disciplined() && forall t :: t in turns ==> TurnFits(t, cpus)
      modifies this, kernel, engine, engine.flows, engine.flows.buckets, engine.flows.index.Values
      modifies engine.flows.ndpi, engine.dns, engine.dns.entries
      ensures Valid() && Disciplined()
      ensures forall k :: Agrees(k)
      ensures forall l :: l in engine.flows.index ==>
        fresh(engine.flows.index[l]) || engine.flows.index[l] in old(engine.flows.index.Values)
    {
      hide Valid, Disciplined, TurnFits, Agrees;
      for i := 0 to |turns|
        invariant Valid() && Disciplined()
        invariant forall l :: l in engine.flows.index ==>
          fresh(engine.flows.index[l]) || engine.flows.index[l] in old(engine.flows.index.Values)
      {
        var _, _ := TakeTurn(turns[i]);
      }
      forall k ensures Agrees(k) {
        AllAgree(k);
      }
    }

    // What the kernel classified a flow as is a real application, the verdict in its
    // map and the label of the daemon's entry, if it still has one.
    ghost predicate Agrees(k: Key)
      reads kernel, engine.flows`index, engine.flows.index.Values
    {
      k in kernel.flowMap && kernel.flowMap[k].phase == KernelModel.Classified ==>
        var app := kernel.flowMap[k].app;
        && app != 0 && k in kernel.verdictMap && kernel.verdictMap[k] == app
        && (k in engine.flows.index ==>
              engine.flows.index[k].flow.status == Classified && engine.flows.index[k].flow.app == app)
    }

    // The objects agree whenever they are looked at.
    lemma AllAgree(k: Key)
      requires Valid()
      ensures Agrees(k)
    {
      hide Engine.Valid, Pipeline.Inv, Settled, Run, Paced, OnFile;
      VerdictsAgree(engine.env, cpus, engine.mlEnabled, steps, k);
    }
  }

  predicate IsDue(last: nat, now: nat) {
    now as int - last as int >= AGE_EVERY
  }

  function Frames(arrivals: seq<Arrival>): (steps: seq<Step>)
    ensures |steps| == |arrivals|
  {
    seq(|arrivals|, i requires 0 <= i < |arrivals| =>
      var a := arrivals[i]; Packet(a.cpu, a.frame, a.linear, a.ts, a.reserveOk))
  }

  // n drains, with the frames that come after each.
  function Callbacks(n: nat, o: nat -> Oracle, during: seq<seq<Arrival>>, now: U32): seq<Step> {
    if n == 0 then []
    else
      Callbacks(n - 1, o, during, now) + [Drain(o(n - 1), now)] + if n <= |during| then Frames(during[n - 1]) else []
  }

  lemma NothingRun(env: Env, s: Sys)
    ensures Run(env, s, []) == s && Paced(env, s, []) && Polled(env, s, [])
  {
  }

  lemma NoFrames(steps: seq<Step>, arrivals: seq<Arrival>)
    ensures steps == steps + Frames(arrivals[..0])
  {
  }

  lemma FramesSnoc(steps: seq<Step>, arrivals: seq<Arrival>, i: nat)
    requires i < |arrivals|
    ensures var a := arrivals[i];
      steps + Frames(arrivals[..i]) + [Packet(a.cpu, a.frame, a.linear, a.ts, a.reserveOk)]
        == steps + Frames(arrivals[..i + 1])
  {
    var a := arrivals[i];
    assert Frames(arrivals[..i + 1])
        == Frames(arrivals[..i]) + [Packet(a.cpu, a.frame, a.linear, a.ts, a.reserveOk)];
  }

  lemma NoCallbacks(steps: seq<Step>, o: nat -> Oracle, during: seq<seq<Arrival>>, now: U32)
    ensures steps == steps + Callbacks(0, o, during, now)
  {
  }

  lemma CallbacksSnoc(steps: seq<Step>, n: nat, o: nat -> Oracle, during: seq<seq<Arrival>>, now: U32)
    ensures var drained := steps + Callbacks(n, o, during, now) + [Drain(o(n), now)];
      steps + Callbacks(n + 1, o, during, now)
        == if n < |during| then drained + Frames(during[n]) else drained
  {
    hide Frames;
  }

  lemma StartIs(cpus: nat, mlEnabled: bool)
    ensures var s := Pipeline.Start(cpus, mlEnabled);
      && s.kernel == KernelModel.Start(cpus) && s.engine == EngineModel.Start(mlEnabled) && s.ring == [] && s.head == 0
  {
  }

  lemma AcceptedEvent(f: Frame, linear: nat, ts: nat)
    requires linear <= |f|
    ensures KernelEvent(f, linear, ts).Some? <==> KernelAccepts(f, linear)
    ensures KernelAccepts(f, linear) ==>
      KernelEvent(f, linear, ts).value.key == FrameKey(f) && KernelEvent(f, linear, ts).value.ts == ts
  {
  }

  lemma PacketKeepsInv(env: Env, s: Sys, cpu: nat, f: Frame, linear: nat, ts: nat, ok: bool)
    requires Pipeline.Inv(env, s) && Settled(s) && linear <= |f| && cpu < |s.kernel.cnt|
    ensures var t := Next(env, s, Packet(cpu, f, linear, ts, ok));
      Pipeline.Inv(env, t) && Settled(t) && (Rested(s) ==> Rested(t))
  {
    hide Pipeline.Inv, Settled, Rested, Arrive, KernelEvent;
    if KernelEvent(f, linear, ts).Some? {
      ArriveKeepsInv(env, s, cpu, KernelEvent(f, linear, ts).value, |f|, ok);
      ArriveKeepsSettled(env, s, cpu, KernelEvent(f, linear, ts).value, |f|, ok);
    }
  }
}
