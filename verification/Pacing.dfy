// The daemon's loop empties the ring before it sweeps its table. In every run of
// that discipline kernel, verdict map and daemon agree on each flow the kernel has
// classified, whether or not entries expire.
module Pacing {
  import opened Basics
  import opened Capture
  import opened Tally
  import opened EngineModel
  import opened Pipeline
  import EngineRuns
  import K = KernelModel

  // ---- When a sweep is safe ------------------------------------------------

  // An event of the key is still in the ring.
  ghost predicate Waiting(s: Sys, k: Key) {
    exists i :: s.head <= i < |s.ring| && s.ring[i].key == k
  }

  // The kernel tracks the key and finds a verdict for it.
  predicate OnFile(s: Sys, k: Key) {
    k in s.kernel.flows && k in s.kernel.verdicts
  }

  // No packet of a flow with a verdict is still on its way up.
  ghost predicate Rested(s: Sys) {
    forall k :: OnFile(s, k) ==> !Waiting(s, k)
  }

  // The condition on a run: sweeps happen only at rest.
  ghost predicate Paced(env: Env, s: Sys, steps: seq<Step>)
    decreases |steps|
  {
    steps == [] ||
    var init := steps[..|steps| - 1];
    Paced(env, s, init) && (steps[|steps| - 1].Age? ==> Rested(Run(env, s, init)))
  }

  // What the loop does: since the ring was last empty there have only been packets.
  ghost predicate JustPolled(env: Env, s: Sys, steps: seq<Step>)
    decreases |steps|
  {
    || Run(env, s, steps).head == |Run(env, s, steps).ring|
    || (steps != [] && steps[|steps| - 1].Packet? && JustPolled(env, s, steps[..|steps| - 1]))
  }

  ghost predicate Polled(env: Env, s: Sys, steps: seq<Step>)
    decreases |steps|
  {
    steps == [] ||
    var init := steps[..|steps| - 1];
    Polled(env, s, init) && (steps[|steps| - 1].Age? ==> JustPolled(env, s, init))
  }

  // ---- The invariant of such runs ------------------------------------------

  // A flow with a verdict on file had one verdict; while the daemon has an entry
  // for it, or an event of it is still to come, that entry is the decided one.
  ghost predicate Calm(s: Sys, k: Key) {
    OnFile(s, k) ==>
      |Written(s.writes, k)| == 1 && (Waiting(s, k) || k in s.engine.flows ==> VerdictAt(s.engine, k).Some?)
  }

  // No verdict without an event.
  ghost predicate Sourced(s: Sys, k: Key) {
    k in s.kernel.verdicts ==> Drained(s, k) > 0
  }

  ghost predicate Settled(s: Sys) {
    (forall k :: Calm(s, k)) && (forall k :: Sourced(s, k))
  }

  lemma StartIsSettled(cpus: nat, mlEnabled: bool)
    ensures Settled(Pipeline.Start(cpus, mlEnabled))
  {
    hide EngineModel.Start;
  }

  // ---- Packets -------------------------------------------------------------

  // A key whose verdict is on file after a packet had it on file before, and the
  // packet was not copied.
  lemma NothingMoreIsCopied(s: Sys, cpu: nat, e: Event, len: nat, ok: bool, k: Key)
    requires K.Inv(s.kernel) && cpu < |s.kernel.cnt| && s.head <= |s.ring|
    requires Copying(s, k) && Sourced(s, k) && OnFile(Arrive(s, cpu, e, len, ok), k)
    ensures OnFile(s, k)
    ensures Waiting(Arrive(s, cpu, e, len, ok), k) <==> Waiting(s, k)
  {
    hide K.Ledger, K.RecOk, Arrivals, K.Sent, K.Counted;
    CopiesIsTracked(s.kernel, cpu, e.key, len, e.ts);
    var t := Arrive(s, cpu, e, len, ok);
    if k == e.key && k !in s.kernel.flows {
      KernelStepCopies(s.kernel, cpu, k, len, e.ts);
      PrefixWeighsLess(s.ring, s.head, OfKey(k));
      assert false;
    }
    if k != e.key {
      OtherKeysKept(s.kernel, cpu, e.key, len, e.ts, k);
    }
    assert forall i :: 0 <= i < |s.ring| ==> t.ring[i] == s.ring[i];
  }

  lemma ArriveKeepsSettled(env: Env, s: Sys, cpu: nat, e: Event, len: nat, ok: bool)
    requires Inv(env, s) && Settled(s) && cpu < |s.kernel.cnt|
    ensures var t := Arrive(s, cpu, e, len, ok); Settled(t) && (Rested(s) ==> Rested(t))
  {
    hide EngineRuns.Inv, K.Inv, Bounded, Copying, Agreed, Waiting, OnFile, VerdictAt, Written, K.Copies, K.OnPacket;
    CopiesIsTracked(s.kernel, cpu, e.key, len, e.ts);
    var t := Arrive(s, cpu, e, len, ok);
    assert t.ring[..s.head] == s.ring[..s.head];
    forall k ensures Sourced(t, k) {
      assert Sourced(s, k);
      VerdictsKept(s.kernel, cpu, e.key, len, e.ts);
    }
    forall k ensures Calm(t, k) && (Rested(s) && OnFile(t, k) ==> !Waiting(t, k)) {
      assert Calm(s, k) && Sourced(s, k) && Copying(s, k);
      if OnFile(t, k) {
        NothingMoreIsCopied(s, cpu, e, len, ok, k);
      }
    }
  }

  lemma VerdictsKept(k: K.State, cpu: nat, key: Key, len: nat, ts: nat)
    requires cpu < |k.cnt|
    ensures K.OnPacket(k, cpu, key, len, ts).verdicts == k.verdicts
  {
  }

  // ---- Drains --------------------------------------------------------------

  lemma TakingKeepsCalm(s: Sys, engine: State, verdict: Option<U16>, k: Key)
    requires K.Inv(s.kernel) && s.head < |s.ring| && Agreed(s, k) && Calm(s, k)
    requires Took(s.engine, engine, verdict, s.ring[s.head].key)
    ensures Calm(Wrote(s.(engine := engine, head := s.head + 1), s.ring[s.head].key, verdict), k)
  {
    hide K.Ledger, K.RecOk, Verdicts, Written, VerdictOf;
    var key := s.ring[s.head].key;
    if key == k {
      assert Waiting(s, k);
    }
    if verdict.Some? {
      WrittenMore(s.writes, key, verdict.value, k);
    }
    var t := Wrote(s.(engine := engine, head := s.head + 1), key, verdict);
    assert Waiting(t, k) ==> Waiting(s, k);
  }

  lemma TakingKeepsSourced(s: Sys, engine: State, verdict: Option<U16>, k: Key)
    requires s.head < |s.ring| && Sourced(s, k)
    ensures Sourced(Wrote(s.(engine := engine, head := s.head + 1), s.ring[s.head].key, verdict), k)
  {
    hide Drained;
    DrainMovesSum(s, Wrote(s.(engine := engine, head := s.head + 1), s.ring[s.head].key, verdict), k);
  }

  lemma DrainKeepsSettled(env: Env, s: Sys, o: Oracle, now: U32)
    requires Inv(env, s) && Settled(s)
    ensures Settled(DrainOne(env, s, o, now))
  {
    hide EngineRuns.Inv, K.Inv, Conserved, Bounded, Copying, Agreed, Wrote, Process, Took, Calm, Sourced;
    if s.head < |s.ring| {
      var (engine, verdict) := Process(env, s.engine, s.ring[s.head], o, now);
      ProcessTakes(env, s.engine, s.ring[s.head], o, now);
      var t := DrainOne(env, s, o, now);
      forall k ensures Calm(t, k) && Sourced(t, k) {
        TakingKeepsCalm(s, engine, verdict, k);
        TakingKeepsSourced(s, engine, verdict, k);
      }
    }
  }

  // ---- Sweeps --------------------------------------------------------------

  lemma SweepKeepsSettled(env: Env, s: Sys, order: seq<Key>)
    requires Inv(env, s) && Settled(s) && Rested(s) && AllPresent(s.engine.flows, order)
    ensures Settled(s.(engine := ExpireAll(env, s.engine, order)))
  {
    hide EngineRuns.Inv, K.Inv, Conserved, Bounded, Copying, Agreed, ExpireAll, AllPresent, Verdicts, VerdictOf,
      Written, Sum, Daemon;
    var t := s.(engine := ExpireAll(env, s.engine, order));
    KeysOfFlows(env, s.engine);
    SweepOnlyExpires(env, s.engine, order);
    forall k ensures Calm(t, k) && Sourced(t, k) {
      assert Calm(s, k) && Sourced(s, k);
      assert OnFile(t, k) ==> OnFile(s, k) && !Waiting(s, k);
      assert Waiting(t, k) ==> Waiting(s, k);
    }
  }

  // ---- Whole runs ----------------------------------------------------------

  lemma {:induction false} PacedKeepsSettled(env: Env, s: Sys, steps: seq<Step>)
    requires Inv(env, s) && Settled(s) && Paced(env, s, steps)
    ensures Settled(Run(env, s, steps))
    decreases |steps|
  {
    hide Inv, Settled, Rested, DrainOne, Arrive, KernelEvent, ExpireAll;
    if steps != [] {
      var init := steps[..|steps| - 1];
      var t := Run(env, s, init);
      PacedKeepsSettled(env, s, init);
      RunKeepsInv(env, s, init);
      match steps[|steps| - 1]
      case Packet(cpu, f, linear, ts, ok) =>
        if linear <= |f| && cpu < |t.kernel.cnt| && KernelEvent(f, linear, ts).Some? {
          ArriveKeepsSettled(env, t, cpu, KernelEvent(f, linear, ts).value, |f|, ok);
        }
      case Drain(o, now) => DrainKeepsSettled(env, t, o, now);
      case Age(order, now) =>
        if IsSweep(t.engine.flows, order, now) {
          SweepKeepsSettled(env, t, order);
        }
    }
  }

  lemma EmptyRingIsRested(s: Sys)
    requires s.head == |s.ring|
    ensures Rested(s)
  {
  }

  lemma {:induction false} JustPolledIsRested(env: Env, s: Sys, steps: seq<Step>)
    requires Inv(env, s) && Settled(s) && Paced(env, s, steps) && JustPolled(env, s, steps)
    ensures Rested(Run(env, s, steps))
    decreases |steps|
  {
    hide Inv, Settled, Rested, Arrive, KernelEvent;
    var u := Run(env, s, steps);
    if u.head == |u.ring| {
      EmptyRingIsRested(u);
    } else {
      var init := steps[..|steps| - 1];
      var t := Run(env, s, init);
      JustPolledIsRested(env, s, init);
      RunKeepsInv(env, s, init);
      PacedKeepsSettled(env, s, init);
      var Packet(cpu, f, linear, ts, ok) := steps[|steps| - 1];
      if linear <= |f| && cpu < |t.kernel.cnt| && KernelEvent(f, linear, ts).Some? {
        ArriveKeepsSettled(env, t, cpu, KernelEvent(f, linear, ts).value, |f|, ok);
      }
    }
  }

  // A run whose sweeps follow an emptied ring, packets in between at most, sweeps
  // only at rest.
  lemma {:induction false} PolledIsPaced(env: Env, s: Sys, steps: seq<Step>)
    requires Inv(env, s) && Settled(s) && Polled(env, s, steps)
    ensures Paced(env, s, steps)
    decreases |steps|
  {
    hide Inv, Settled, Rested, JustPolled, Run;
    if steps != [] {
      PolledIsPaced(env, s, steps[..|steps| - 1]);
      if steps[|steps| - 1].Age? {
        JustPolledIsRested(env, s, steps[..|steps| - 1]);
      }
    }
  }

  // How the discipline grows with a run: packets keep a polled run polled and ready
  // for a sweep, drains keep it polled, a sweep must find it ready.
  lemma DisciplineGrows(env: Env, s: Sys, steps: seq<Step>, step: Step)
    ensures Polled(env, s, steps) && (step.Age? ==> JustPolled(env, s, steps)) ==> Polled(env, s, steps + [step])
    ensures JustPolled(env, s, steps) && step.Packet? ==> JustPolled(env, s, steps + [step])
    ensures Paced(env, s, steps) && (step.Age? ==> Rested(Run(env, s, steps))) ==> Paced(env, s, steps + [step])
  {
    hide Run, Rested;
    assert (steps + [step])[..|steps|] == steps;
  }

  // In every run that sweeps only at rest, a flow with a verdict on file has had that
  // verdict and no other; and what the kernel classified a flow as is a real
  // application, the verdict on file and the label of the daemon's entry, if it
  // still has one.
  lemma VerdictsAgree(env: Env, cpus: nat, mlEnabled: bool, steps: seq<Step>, k: Key)
    requires Paced(env, Pipeline.Start(cpus, mlEnabled), steps)
    ensures var s := Pipeline.After(env, cpus, mlEnabled, steps);
      && (OnFile(s, k) ==> Written(s.writes, k) == [s.kernel.verdicts[k]])
      && (k in s.kernel.flows && s.kernel.flows[k].phase == K.Classified ==>
            var app := s.kernel.flows[k].app;
            && app != 0 && k in s.kernel.verdicts && s.kernel.verdicts[k] == app
            && (k in s.engine.flows ==> s.engine.flows[k].status == Classified && s.engine.flows[k].app == app))
  {
    hide Pipeline.Start, Settled, Inv;
    AlwaysInv(env, cpus, mlEnabled, steps);
    StartHolds(env, cpus, mlEnabled);
    StartIsSettled(cpus, mlEnabled);
    PacedKeepsSettled(env, Pipeline.Start(cpus, mlEnabled), steps);
    AgreeNow(env, Pipeline.After(env, cpus, mlEnabled, steps), k);
  }

  lemma AgreeNow(env: Env, s: Sys, k: Key)
    requires Inv(env, s) && Settled(s)
    ensures OnFile(s, k) ==> Written(s.writes, k) == [s.kernel.verdicts[k]]
    ensures k in s.kernel.flows && s.kernel.flows[k].phase == K.Classified ==>
      var app := s.kernel.flows[k].app;
      && app != 0 && k in s.kernel.verdicts && s.kernel.verdicts[k] == app
      && (k in s.engine.flows ==> s.engine.flows[k].status == Classified && s.engine.flows[k].app == app)
  {
    hide EngineRuns.Inv, K.Inv, Conserved, Bounded, Copying, VerdictOf, Written, PastVerdicts;
    assert Agreed(s, k) && Calm(s, k);
    if k in s.kernel.flows && s.kernel.flows[k].phase == K.Classified {
      WrittenIsReal(env, s, k, s.kernel.flows[k].app);
    }
  }

  // Such is every run in which sweeps follow a poll, and the loop's runs are of this
  // kind (Observers.Observer.Loop).
  lemma PolledVerdictsAgree(env: Env, cpus: nat, mlEnabled: bool, steps: seq<Step>, k: Key)
    requires Polled(env, Pipeline.Start(cpus, mlEnabled), steps)
    ensures var s := Pipeline.After(env, cpus, mlEnabled, steps);
      k in s.kernel.flows && s.kernel.flows[k].phase == K.Classified ==>
        var app := s.kernel.flows[k].app;
        && app != 0 && k in s.kernel.verdicts && s.kernel.verdicts[k] == app
        && (k in s.engine.flows ==> s.engine.flows[k].status == Classified && s.engine.flows[k].app == app)
  {
    hide Pipeline.Start, Pipeline.After, Settled, Inv, Polled, Paced;
    StartHolds(env, cpus, mlEnabled);
    StartIsSettled(cpus, mlEnabled);
    PolledIsPaced(env, Pipeline.Start(cpus, mlEnabled), steps);
    VerdictsAgree(env, cpus, mlEnabled, steps, k);
  }
}
