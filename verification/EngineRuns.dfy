// The invariant of the daemon in every run, and what follows from it.
module Ownership {
  import opened Basics
  import opened EngineModel

  // The live nDPI allocations are exactly the handles held by table entries, each
  // held once; a handle made later is different from all of them.
  ghost predicate OwnedBy(flows: map<Key, Flow>, handles: set<nat>, made: nat) {
    && (forall k :: k in flows && flows[k].ndpi.Some? ==> flows[k].ndpi.value in handles)
    && (forall h :: h in handles ==> h < made && exists k :: k in flows && flows[k].ndpi == Some(h))
    && (forall k, l :: k in flows && l in flows && k != l && flows[k].ndpi.Some? ==> flows[k].ndpi != flows[l].ndpi)
  }

  // An entry keeps its handle, takes the next one or gives its own back.
  lemma EntryChanges(flows: map<Key, Flow>, handles: set<nat>, made: nat, k: Key, f: Flow,
                     handles': set<nat>, made': nat)
    requires OwnedBy(flows, handles, made)
    requires var held := if k in flows then flows[k].ndpi else None;
      || (f.ndpi == held && handles' == handles && made' == made)
      || (held == None && f.ndpi == Some(made) && handles' == handles + {made} && made' == made + 1)
      || (held.Some? && f.ndpi == None && handles' == handles - {held.value} && made' == made)
      || (held == None && f.ndpi == None && handles' == handles && made' == made + 1)
    ensures OwnedBy(flows[k := f], handles', made')
  {
    var after := flows[k := f];
    forall h | h in handles' ensures h < made' && exists l :: l in after && after[l].ndpi == Some(h) {
      if f.ndpi == Some(h) {
        assert after[k].ndpi == Some(h);
      } else {
        assert h in handles;
        var l :| l in flows && flows[l].ndpi == Some(h);
        assert after[l].ndpi == Some(h);
      }
    }
  }

  lemma EntryLeaves(flows: map<Key, Flow>, handles: set<nat>, made: nat, k: Key)
    requires OwnedBy(flows, handles, made) && k in flows
    ensures OwnedBy(flows - {k}, handles - HandlesOf(flows[k]), made)
  {
    var after, left := flows - {k}, handles - HandlesOf(flows[k]);
    forall h | h in left ensures h < made && exists l :: l in after && after[l].ndpi == Some(h) {
      var l :| l in flows && flows[l].ndpi == Some(h);
      assert l != k && after[l].ndpi == Some(h);
    }
  }

  lemma NothingHeld(made: nat)
    ensures OwnedBy(map[], {}, made)
  {
  }
}

module EngineRuns {
  import opened Basics
  import opened Capture
  import opened DnsParser
  import opened DnsSlots
  import opened Labels
  import MlStats
  import opened Tally
  import opened EngineModel
  import opened EngineLedger
  import opened Ownership

  // ---- Memoised applications and the label pool ----------------------------

  // A remembered application is what the host name still resolves to.
  ghost predicate MemoOk(env: Env, cache: Slots, pool: Pool) {
    forall i :: 0 <= i < SIZE && cache[i].app != 0 ==> Recomputed(env, pool, cache[i].host) == cache[i].app
  }

  ghost predicate ContextOk(env: Env, c: Context) {
    MemoOk(env, c.cache, c.pool) && ValidPool(c.pool)
  }

  lemma RecomputedIsStable(env: Env, pool: Pool, later: Pool, host: string)
    requires pool <= later && Recomputed(env, pool, host) != 0
    ensures Recomputed(env, later, host) == Recomputed(env, pool, host)
  {
    hide IdIn;
    if env.service(host) == 0 {
      IdIsForever(env.native, pool, later, host);
    }
  }

  lemma GrowthKeepsMemo(env: Env, cache: Slots, pool: Pool, later: Pool)
    requires MemoOk(env, cache, pool) && pool <= later
    ensures MemoOk(env, cache, later)
  {
    hide Recomputed;
    forall i | 0 <= i < SIZE && cache[i].app != 0 ensures Recomputed(env, later, cache[i].host) == cache[i].app {
      RecomputedIsStable(env, pool, later, cache[i].host);
    }
  }

  lemma {:induction false} InsertsKeepMemo(env: Env, cache: Slots, pool: Pool, bindings: seq<Binding>, now: U32)
    requires MemoOk(env, cache, pool)
    ensures MemoOk(env, InsertAll(cache, bindings, now), pool)
    decreases |bindings|
  {
    hide Recomputed, Hash, Expiry, Capped;
    if bindings != [] {
      InsertsKeepMemo(env, Insert(cache, bindings[0], now), pool, bindings[1..], now);
    }
  }

  // The pool is only extended, and of the cache only memos change.
  ghost predicate Extends(c: Context, c': Context) {
    c.pool <= c'.pool && forall i :: 0 <= i < SIZE ==> c'.cache[i] == c.cache[i].(app := c'.cache[i].app)
  }

  lemma AfterExtends(env: Env, c: Context, src: Source)
    requires InCache(src)
    ensures Extends(c, After(env, c, src))
  {
    hide Resolved;
  }

  lemma AfterKeepsContext(env: Env, c: Context, src: Source)
    requires ContextOk(env, c) && InCache(src) && (src.Cached? ==> src.host == c.cache[src.slot].host)
    ensures ContextOk(env, After(env, c, src)) && Extends(c, After(env, c, src))
  {
    hide IdIn, Grown, ValidPool, MemoOk;
    AfterExtends(env, c, src);
    if !src.Nowhere? {
      GrownIsValid(env.native, c.pool, src.host);
      var pool := After(env, c, src).pool;
      GrowthKeepsMemo(env, c.cache, c.pool, pool);
      if src.Cached? {
        SlotKeepsMemo(env, c.cache, pool, src.slot, Resolved(env, c, src));
      }
    }
  }

  lemma SlotKeepsMemo(env: Env, cache: Slots, pool: Pool, i: nat, app: U16)
    requires MemoOk(env, cache, pool) && i < SIZE
    requires app != 0 ==> cache[i].app == app || Recomputed(env, pool, cache[i].host) == app
    ensures MemoOk(env, cache[i := cache[i].(app := app)], pool)
  {
    hide Recomputed;
  }

  // The application a host names in the pool as it is after asking for it.
  function Named(env: Env, pool: Pool, src: Source): U16 {
    match src
    case Sni(h) => IdIn(env.native, pool, h)
    case Cached(_, h) => Recomputed(env, pool, h)
    case Nowhere => 0
  }

  // The memo is transparent: with it or without, a host resolves to what it names
  // once its label is in the pool; and it is remembered.
  lemma MemoIsTransparent(env: Env, c: Context, src: Source)
    requires ContextOk(env, c) && InCache(src) && (src.Cached? ==> src.host == c.cache[src.slot].host)
    ensures Resolved(env, c, src) == Named(env, After(env, c, src).pool, src)
    ensures src.Cached? ==> After(env, c, src).cache[src.slot].app == Named(env, After(env, c, src).pool, src)
  {
    hide IdIn, Grown, ValidPool;
  }

  // The label of a direct verdict: what the host names, if it names anything and
  // nDPI's own label has a counter; else nDPI's own, the master protocol standing in
  // for an unknown application.
  lemma DirectLabel(env: Env, c: Context, f: Flow, d: Detection, now: U32)
    requires ContextOk(env, c) && Known(d)
    ensures var (g, c') := DirectVerdict(env, c, f, d, now);
      var own := if d.app != 0 then d.app else d.master;
      var src := HostOf(c.cache, g, now);
      var named := Named(env, c'.pool, src);
      && g.app == (if named != 0 && own < 512 then named else own)
      && (g.app != own <==> g.via != ByNdpi)
      && (g.via == BySni ==> src.Sni?) && (g.via == ByDns ==> src.Cached?)
  {
    hide Resolved, After, ContextOk, Named, Lookup;
    var g := Claimed(f, d, ByNdpi);
    MemoIsTransparent(env, c, HostOf(c.cache, g, now));
    SameHost(c.cache, g, DirectVerdict(env, c, f, d, now).0, now);
    NowhereNamesNothing(env, c);
  }

  lemma SameHost(cache: Slots, f: Flow, g: Flow, now: U32)
    requires f.sni == g.sni && f.key == g.key
    ensures HostOf(cache, f, now) == HostOf(cache, g, now)
  {
    hide Lookup;
  }

  lemma NowhereNamesNothing(env: Env, c: Context)
    ensures Resolved(env, c, Nowhere) == 0
  {
  }

  lemma DirectKeepsContext(env: Env, c: Context, f: Flow, d: Detection, now: U32)
    requires ContextOk(env, c)
    ensures var c' := DirectVerdict(env, c, f, d, now).1; ContextOk(env, c') && Extends(c, c')
  {
    hide After, Relabelled, ContextOk;
    AfterKeepsContext(env, c, HostOf(c.cache, Claimed(f, d, ByNdpi), now));
  }

  lemma LastResortKeepsContext(env: Env, c: Context, f: Flow, o: Oracle, mlEnabled: bool, now: U32)
    requires ContextOk(env, c)
    ensures var c' := LastResort(env, c, f, o, mlEnabled, now).1; ContextOk(env, c') && Extends(c, c')
  {
    hide After, Relabelled, ContextOk, MlChoice;
    AfterKeepsContext(env, c, HostOf(c.cache, Claimed(f, o.guess, ByGiveup), now));
  }

  lemma JudgeKeepsContext(env: Env, s: State, f: Flow, e: Event, o: Oracle, now: U32)
    requires ContextOk(env, Context(s.cache, s.pool))
    ensures var c := Judge(env, s, f, e, o, now).context; ContextOk(env, c) && Extends(Context(s.cache, s.pool), c)
  {
    hide DirectVerdict, LastResort, ContextOk;
    var c := Context(s.cache, s.pool);
    var h := Scanned(f, s.made, e.pktLen, now);
    DirectKeepsContext(env, c, h, o.det, now);
    LastResortKeepsContext(env, c, h, o, s.mlEnabled, now);
  }

  // ---- Ownership of nDPI state ---------------------------------------------

  ghost predicate Owned(s: State) {
    OwnedBy(s.flows, s.handles, s.made)
  }

  lemma JudgeMovesHandle(env: Env, s: State, k: Key, e: Event, o: Oracle, now: U32)
    requires k in s.flows && Owned(s)
    ensures var j := Judge(env, s, s.flows[k], e, o, now);
      OwnedBy(s.flows[k := j.flow], j.handles, j.made)
  {
    hide DirectVerdict, LastResort;
    var f := s.flows[k];
    var j := Judge(env, s, f, e, o, now);
    var h := Scanned(f, s.made, e.pktLen, now);
    VerdictsKeepHandle(env, Context(s.cache, s.pool), h, o, s.mlEnabled, now);
    assert s.made !in s.handles;
    assert f.ndpi.Some? ==> s.handles + {f.ndpi.value} == s.handles;
    assert s.handles + {s.made} - {s.made} == s.handles;
    EntryChanges(s.flows, s.handles, s.made, k, j.flow, j.handles, j.made);
  }

  lemma VerdictsKeepHandle(env: Env, c: Context, f: Flow, o: Oracle, mlEnabled: bool, now: U32)
    ensures DirectVerdict(env, c, f, o.det, now).0.ndpi == f.ndpi
    ensures LastResort(env, c, f, o, mlEnabled, now).0.ndpi == f.ndpi
  {
    hide Resolved, After, HostOf, MlChoice;
  }

  // ---- The log of DNS bindings ---------------------------------------------

  predicate WellNamed(b: Binding) {
    b.name != "" && |b.name| <= 79
  }

  // The cache agrees with everything ever inserted, and every insert had a name.
  ghost predicate Recorded(cache: Slots, log: seq<Logged>) {
    Agrees(cache, log) && forall i :: 0 <= i < |log| ==> WellNamed(log[i].binding)
  }

  lemma MemosKeepRecorded(cache: Slots, cache': Slots, log: seq<Logged>)
    requires Recorded(cache, log)
    requires forall i :: 0 <= i < SIZE ==> cache'[i] == cache[i].(app := cache'[i].app)
    ensures Recorded(cache', log)
  {
    hide Hash, Expiry;
  }

  lemma {:induction false} InsertsKeepRecorded(cache: Slots, log: seq<Logged>, bindings: seq<Binding>, now: U32)
    requires Recorded(cache, log) && forall b :: b in bindings ==> WellNamed(b)
    ensures Recorded(InsertAll(cache, bindings, now), log + Stamp(bindings, now))
    decreases |bindings|
  {
    hide Agrees, Insert, WellNamed;
    if bindings == [] {
      assert log + Stamp(bindings, now) == log;
    } else {
      var first := Logged(bindings[0], now);
      InsertAgrees(cache, log, bindings[0], now);
      InsertsKeepRecorded(Insert(cache, bindings[0], now), log + [first], bindings[1..], now);
      assert log + Stamp(bindings, now) == log + [first] + Stamp(bindings[1..], now);
    }
  }

  lemma HeardKeepsRecorded(s: State, e: Event, o: Oracle, now: U32)
    requires Recorded(s.cache, s.log)
    ensures var h := Heard(s, e, o, now); Recorded(h.cache, h.log)
  {
    hide Recorded, InsertAll, Stamp, Parse;
    BindingsAreNamed(if e.data.Payload? then e.data.bytes else o.slack);
    InsertsKeepRecorded(s.cache, s.log, Bindings(e, o), now);
  }

  // ---- The invariant -------------------------------------------------------

  ghost predicate Inv(env: Env, s: State) {
    && FlowsOk(s) && Ledger(env, s) && Owned(s)
    && ContextOk(env, Context(s.cache, s.pool)) && Recorded(s.cache, s.log)
  }

  lemma HeardKeepsInv(env: Env, s: State, e: Event, o: Oracle, now: U32)
    requires Inv(env, s)
    ensures Inv(env, Heard(s, e, o, now))
  {
    hide Ledger, InsertAll, Stamp, Parse, MemoOk, ValidPool, OwnedBy, Recorded;
    HeardKeepsRecorded(s, e, o, now);
    InsertsKeepMemo(env, s.cache, s.pool, Bindings(e, o), now);
    var s' := Heard(s, e, o, now);
    SameLedger(env, s, s');
  }

  // The ledger does not look at the other fields.
  lemma SameLedger(env: Env, s: State, s': State)
    requires Ledger(env, s) && s'.flows == s.flows && s'.expired == s.expired
    requires s'.created == s.created && s'.classified == s.classified && s'.guessed == s.guessed
    requires s'.learned == s.learned && s'.gaveUp == s.gaveUp
    requires s'.credit == s.credit && s'.apps == s.apps && s'.cats == s.cats
    ensures Ledger(env, s')
  {
    hide Ever;
    assert forall w :: Ever(s', w) == Ever(s, w) by { SameEver(s, s'); }
    assert forall via, a: nat :: via != NoMethod && a < APPS && AttributionAt(s, via, a) ==> AttributionAt(s', via, a);
    assert forall q, a: nat :: a < APPS && AppAt(s, q, a) ==> AppAt(s', q, a);
    assert forall q, c: nat :: c < 64 && CatAt(env, s, q, c) ==> CatAt(env, s', q, c);
  }

  lemma SameEver(s: State, s': State)
    requires s'.flows == s.flows && s'.expired == s.expired
    ensures forall w :: Ever(s', w) == Ever(s, w)
  {
  }

  lemma EnteredKeepsInv(env: Env, s: State, k: Key, now: U32)
    requires Inv(env, s)
    ensures Inv(env, Entered(s, k, now))
  {
    hide Ledger, ContextOk, OwnedBy;
    EnteredKeepsLedger(env, s, k, now);
    EntryChanges(s.flows, s.handles, s.made, k, Entry(s, k, now), s.handles, s.made);
  }

  lemma EntryKeepsInv(env: Env, s: State, e: Event, o: Oracle, now: U32)
    requires Inv(env, s) && e.key in s.flows
    ensures Inv(env, ProcessEntry(env, s, e, o, now).0)
  {
    hide Ledger, ContextOk, OwnedBy, Judge, FlowOk, Book, Recorded;
    var k, f := e.key, s.flows[e.key];
    assert FlowOk(f);
    StatusMeans(f);
    if f.status != New {
      SameLedger(env, s, s.(cached := s.cached + 1));
    } else {
      var j := Judge(env, s, f, e, o, now);
      JudgeOk(env, s, f, e, o, now);
      StatusMeans(j.flow);
      JudgeKeepsContext(env, s, f, e, o, now);
      MemosKeepRecorded(s.cache, j.context.cache, s.log);
      JudgeMovesHandle(env, s, k, e, o, now);
      BookKeepsLedger(env, s, k, j);
      BookKeepsRest(env, Judging(s, k, j), j.flow);
    }
  }

  lemma StatusMeans(f: Flow)
    requires FlowOk(f)
    ensures ViaOk(f) && (f.status == New <==> f.outcome == Undecided)
  {
  }

  lemma BookKeepsRest(env: Env, s: State, f: Flow)
    ensures var b := Book(env, s, f);
      && b.flows == s.flows && b.expired == s.expired && b.handles == s.handles && b.made == s.made
      && b.cache == s.cache && b.pool == s.pool && b.log == s.log
  {
  }

  // Every event keeps the invariant.
  lemma ProcessKeepsInv(env: Env, s: State, e: Event, o: Oracle, now: U32)
    requires Inv(env, s)
    ensures Inv(env, Process(env, s, e, o, now).0)
  {
    hide Inv, Heard, Entered, ProcessEntry;
    var h := Heard(s, e, o, now);
    HeardKeepsInv(env, s, e, o, now);
    if e.key !in h.flows && !o.entryOk {
      RefusedKeepsInv(env, h);
    } else {
      EnteredKeepsInv(env, h, e.key, now);
      EntersKey(h, e.key, now);
      EntryKeepsInv(env, Entered(h, e.key, now), e, o, now);
    }
  }

  lemma EntersKey(s: State, k: Key, now: U32)
    ensures k in Entered(s, k, now).flows
  {
  }

  lemma RefusedKeepsInv(env: Env, s: State)
    requires Inv(env, s)
    ensures Inv(env, s.(refused := s.refused + 1))
  {
    hide Ledger, ContextOk, OwnedBy;
    SameLedger(env, s, s.(refused := s.refused + 1));
  }

  lemma ExpireKeepsInv(env: Env, s: State, k: Key)
    requires Inv(env, s) && k in s.flows
    ensures Inv(env, Expire(env, s, k))
  {
    hide Ledger, ContextOk, OwnedBy, AppCharged, CatCharged, HandlesOf, FlowOk;
    ExpireKeepsLedger(env, s, k);
    EntryLeaves(s.flows, s.handles, s.made, k);
  }

  // Every sweep keeps the invariant.
  lemma {:induction false} SweepKeepsInv(env: Env, s: State, order: seq<Key>)
    requires Inv(env, s) && AllPresent(s.flows, order)
    ensures Inv(env, ExpireAll(env, s, order))
    decreases |order|
  {
    hide Inv, AppCharged, CatCharged, HandlesOf;
    if order != [] {
      ExpireKeepsInv(env, s, order[0]);
      SweepKeepsInv(env, Expire(env, s, order[0]), order[1..]);
    }
  }

  lemma StartHolds(env: Env, mlEnabled: bool)
    ensures Inv(env, EngineModel.Start(mlEnabled))
  {
    hide Ledger, Recorded, ValidPool;
    var s := EngineModel.Start(mlEnabled);
    StartBalances(env, mlEnabled);
    NothingRecorded(s.cache, s.pool);
  }

  lemma NothingRecorded(cache: Slots, pool: Pool)
    requires pool == [] && forall i :: 0 <= i < SIZE ==> cache[i] == EMPTY_SLOT
    ensures Recorded(cache, []) && ValidPool(pool)
  {
    AgreesAtStart(cache);
  }

  lemma StartBalances(env: Env, mlEnabled: bool)
    ensures Ledger(env, EngineModel.Start(mlEnabled))
  {
    var s := EngineModel.Start(mlEnabled);
    assert forall w :: Ever(s, w) == 0;
    forall q ensures Sum(AppColumn(s.apps, q), Plain()) == 0 == Sum(CatColumn(s.cats, q), Plain()) {
      NoSum(AppColumn(s.apps, q));
      NoSum(CatColumn(s.cats, q));
    }
    forall via, a: nat | via != NoMethod && a < APPS ensures AttributionAt(s, via, a) {
    }
  }

  lemma {:induction false} NoSum(row: seq<nat>)
    requires forall i :: 0 <= i < |row| ==> row[i] == 0
    ensures Sum(row, Plain()) == 0
  {
    if row != [] {
      NoSum(row[..|row| - 1]);
    }
  }

  // ---- Whole runs ----------------------------------------------------------

  datatype Step = Packet(e: Event, o: Oracle, now: U32) | Sweep(order: seq<Key>, now: U32)

  // One call of ndpi_engine_process or ndpi_engine_age; a sweep visits exactly
  // the idle entries, each once.
  ghost function Next(env: Env, s: State, step: Step): State {
    match step
    case Packet(e, o, now) => Process(env, s, e, o, now).0
    case Sweep(order, now) => if IsSweep(s.flows, order, now) then ExpireAll(env, s, order) else s
  }

  ghost function Run(env: Env, s: State, steps: seq<Step>): State
    decreases |steps|
  {
    if steps == [] then s else Next(env, Run(env, s, steps[..|steps| - 1]), steps[|steps| - 1])
  }

  // Everything the counters promise holds after any sequence of events and sweeps.
  lemma {:induction false} RunKeepsInv(env: Env, s: State, steps: seq<Step>)
    requires Inv(env, s)
    ensures Inv(env, Run(env, s, steps))
    decreases |steps|
  {
    hide Inv, Process;
    if steps != [] {
      RunKeepsInv(env, s, steps[..|steps| - 1]);
      var t := Run(env, s, steps[..|steps| - 1]);
      match steps[|steps| - 1]
      case Packet(e, o, now) => ProcessKeepsInv(env, t, e, o, now);
      case Sweep(order, now) =>
        if IsSweep(t.flows, order, now) {
          SweepKeepsInv(env, t, order);
        }
    }
  }

  // In every run, for every method and application: the counter is the number of
  // flows ever created that ended with this credit and application, whatever was
  // credited to them on the way.
  lemma AttributionIsExact(env: Env, mlEnabled: bool, steps: seq<Step>, via: Method, a: nat)
    requires via != NoMethod && a < 512
    ensures var s := Run(env, EngineModel.Start(mlEnabled), steps);
      Row(s.credit, via)[a] == Total(s.flows, Credited(via, a)) + Sum(s.expired, Credited(via, a))
  {
    hide Run, FlowsOk, Owned, ContextOk, Counts, Totals, Agreement, Row, Credited, Total, Sum;
    StartHolds(env, mlEnabled);
    RunKeepsInv(env, EngineModel.Start(mlEnabled), steps);
    assert AttributionAt(Run(env, EngineModel.Start(mlEnabled), steps), via, a);
  }

  // A flow charges its application once at its verdict, if it reached the end of the
  // function, and once when it expires; categories together match applications.
  lemma TotalsAreTwoEvents(env: Env, mlEnabled: bool, steps: seq<Step>, q: Quantity, a: nat)
    requires a < 512
    ensures var s := Run(env, EngineModel.Start(mlEnabled), steps);
      && AppColumn(s.apps, q)[a] ==
           Total(s.flows, AtVerdict(q, a)) + Sum(s.expired, AtVerdict(q, a)) + Sum(s.expired, AtExpiry(q, a))
      && Sum(AppColumn(s.apps, q), Plain()) == Sum(CatColumn(s.cats, q), Plain())
      && |AppColumn(s.apps, q)| == 512 && |CatColumn(s.cats, q)| == 64
      && forall c: nat :: c < 64 ==>
           CatColumn(s.cats, q)[c] == Total(s.flows, CatAtVerdict(env, q, c))
             + Sum(s.expired, CatAtVerdict(env, q, c)) + Sum(s.expired, CatAtExpiry(env, q, c))
  {
    hide Run, FlowsOk, Owned, ContextOk, Counts, Attribution, AppColumn, CatColumn, AtVerdict, AtExpiry,
      CatAtVerdict, CatAtExpiry, Total, Sum;
    StartHolds(env, mlEnabled);
    RunKeepsInv(env, EngineModel.Start(mlEnabled), steps);
    var s := Run(env, EngineModel.Start(mlEnabled), steps);
    assert AppAt(s, q, a);
    forall c: nat | c < 64 ensures CatColumn(s.cats, q)[c] ==
      Total(s.flows, CatAtVerdict(env, q, c)) + Sum(s.expired, CatAtVerdict(env, q, c))
        + Sum(s.expired, CatAtExpiry(env, q, c))
    {
      assert CatAt(env, s, q, c);
    }
  }

  function Decided(): Flow -> nat {
    (f: Flow) => One(f.outcome != Undecided)
  }

  function Rescued(): Flow -> nat {
    (f: Flow) => One(f.outcome == Guessed || f.outcome == Learned)
  }

  lemma EverSplit(s: State, w: Flow -> nat, u: Flow -> nat, v: Flow -> nat)
    requires forall f :: w(f) == u(f) + v(f)
    ensures Ever(s, w) == Ever(s, u) + Ever(s, v)
  {
    TotalSplit(s.flows, w, u, v);
    SumSplit(s.expired, w, u, v);
  }

  // Flows are never lost: each one created is classified, given up or undecided,
  // and each classified one was labelled by nDPI, by its guesser or by the model.
  lemma FlowConservation(env: Env, s: State)
    requires Inv(env, s)
    ensures s.created == s.classified + s.gaveUp
              + Total(s.flows, With(Undecided)) + Sum(s.expired, With(Undecided))
    ensures s.classified == Ever(s, With(Direct)) + s.guessed + s.learned
    ensures s.classified - s.guessed - s.learned >= 0
  {
    CountsSplit(s);
  }

  lemma CountsSplit(s: State)
    requires Counts(s)
    ensures s.created == s.classified + s.gaveUp + Ever(s, With(Undecided))
    ensures s.classified == Ever(s, With(Direct)) + s.guessed + s.learned
  {
    hide Ever;
    EverSplit(s, Each(), Decided(), With(Undecided));
    EverSplit(s, Decided(), Classifieds(), GivenUps());
    EverSplit(s, Classifieds(), With(Direct), Rescued());
    EverSplit(s, Rescued(), With(Guessed), With(Learned));
  }

  // No nDPI state outlives the table.
  lemma NothingLeaks(env: Env, s: State)
    requires Inv(env, s)
    ensures Destroyed(s).handles == {}
  {
    hide Ledger, ContextOk, FlowsOk;
    forall h | h in s.handles ensures exists k :: k in s.flows && h in HandlesOf(s.flows[k]) {
      var k :| k in s.flows && s.flows[k].ndpi == Some(h);
      assert h in HandlesOf(s.flows[k]);
    }
  }

  // A decided flow is left alone by every later event, up to its time stamp.
  lemma DecidedIsFinal(env: Env, s: State, e: Event, o: Oracle, now: U32, k: Key)
    requires k in s.flows && s.flows[k].status != New
    ensures var s' := Process(env, s, e, o, now).0; k in s'.flows && Stamped(s.flows[k], s'.flows[k])
  {
    hide Judge, Book, InsertAll, Parse;
    var t := Entered(Heard(s, e, o, now), e.key, now);
    if t.flows[e.key].status == New {
      BookKeepsRest(env, Judging(t, e.key, Judge(env, t, t.flows[e.key], e, o, now)),
                    Judge(env, t, t.flows[e.key], e, o, now).flow);
    }
  }

  // A verdict is written exactly when an undecided flow is decided, unless memory
  // ran out, and it is the application of that flow.
  lemma VerdictIsTheFlows(env: Env, s: State, e: Event, o: Oracle, now: U32)
    requires Inv(env, s)
    ensures var (s', verdict) := Process(env, s, e, o, now);
      && (verdict.Some? ==>
            && e.key in s'.flows && s'.flows[e.key].app == verdict.value
            && (Verdicted(s'.flows[e.key].outcome) || s'.flows[e.key].outcome == Silent)
            && (e.key in s.flows ==> s.flows[e.key].outcome == Undecided))
      && (verdict.None? && e.key in s'.flows && (e.key !in s.flows || s.flows[e.key].outcome == Undecided) ==>
            s'.flows[e.key].outcome == Undecided || s'.flows[e.key].outcome == NoMemory)
  {
    hide Ledger, ContextOk, OwnedBy, Judge, Book, FlowOk, InsertAll, Parse;
    var h := Heard(s, e, o, now);
    if e.key in s.flows {
      assert FlowOk(s.flows[e.key]);
      StatusMeans(s.flows[e.key]);
    }
    if e.key in h.flows || o.entryOk {
      var t := Entered(h, e.key, now);
      if t.flows[e.key].status == New {
        var j := Judge(env, t, t.flows[e.key], e, o, now);
        BookKeepsRest(env, Judging(t, e.key, j), j.flow);
        OutcomeCases(j.flow);
      }
    }
  }

  lemma OutcomeCases(f: Flow)
    ensures Verdicted(f.outcome) || f.outcome == Silent || f.outcome == Undecided || f.outcome == NoMemory
  {
  }

  // The label pool only grows, in every run; so an id given to a host stays.
  lemma {:induction false} PoolGrows(env: Env, s: State, steps: seq<Step>)
    requires Inv(env, s)
    ensures s.pool <= Run(env, s, steps).pool
    decreases |steps|
  {
    hide Inv, Process;
    if steps != [] {
      var init, step := steps[..|steps| - 1], steps[|steps| - 1];
      var t := Run(env, s, init);
      PoolGrows(env, s, init);
      RunKeepsInv(env, s, init);
      match step
      case Packet(e, o, now) => ProcessGrowsPool(env, t, e, o, now);
      case Sweep(order, now) =>
        if IsSweep(t.flows, order, now) {
          SweepKeepsPool(env, t, order);
        }
    }
  }

  lemma ProcessGrowsPool(env: Env, s: State, e: Event, o: Oracle, now: U32)
    requires Inv(env, s)
    ensures s.pool <= Process(env, s, e, o, now).0.pool
  {
    hide Ledger, OwnedBy, FlowsOk, Judge, Book, MemoOk, ValidPool, InsertAll, Parse;
    var h := Heard(s, e, o, now);
    if e.key in h.flows || o.entryOk {
      var t := Entered(h, e.key, now);
      if t.flows[e.key].status == New {
        HeardKeepsInv(env, s, e, o, now);
        JudgeKeepsContext(env, t, t.flows[e.key], e, o, now);
        var j := Judge(env, t, t.flows[e.key], e, o, now);
        BookKeepsRest(env, Judging(t, e.key, j), j.flow);
      }
    }
  }

  lemma {:induction false} SweepKeepsPool(env: Env, s: State, order: seq<Key>)
    requires AllPresent(s.flows, order)
    ensures ExpireAll(env, s, order).pool == s.pool && ExpireAll(env, s, order).cache == s.cache
    ensures ExpireAll(env, s, order).log == s.log
    decreases |order|
  {
    hide AppCharged, CatCharged, HandlesOf;
    if order != [] {
      SweepKeepsPool(env, Expire(env, s, order[0]), order[1..]);
    }
  }

  // In every run labels stay distinct, and an application remembered by a cache
  // slot is what its host name resolves to in the current pool.
  lemma MemosAreCurrent(env: Env, mlEnabled: bool, steps: seq<Step>, i: nat)
    requires i < 512
    ensures var s := Run(env, EngineModel.Start(mlEnabled), steps);
      && ValidPool(s.pool) && |s.pool| <= 64 && |s.cache| == 512
      && (s.cache[i].app != 0 ==> s.cache[i].app == Recomputed(env, s.pool, s.cache[i].host))
  {
    hide Ledger, OwnedBy, FlowsOk, Run, Recomputed, ValidPool;
    StartHolds(env, mlEnabled);
    RunKeepsInv(env, EngineModel.Start(mlEnabled), steps);
  }

  // The DNS bindings of a run, in the order they are heard: those of every UDP packet
  // from port 53.
  function HeardIn(steps: seq<Step>): seq<Logged>
    decreases |steps|
  {
    if steps == [] then []
    else
      HeardIn(steps[..|steps| - 1]) +
      match steps[|steps| - 1]
      case Packet(e, o, now) =>
        if e.key.proto == 17 && e.key.sport == Port(0, 53)
        then Stamp(Parse(if e.data.Payload? then e.data.bytes else o.slack), now) else []
      case Sweep(_, _) => []
  }

  lemma ProcessLogs(env: Env, s: State, e: Event, o: Oracle, now: U32)
    ensures Process(env, s, e, o, now).0.log == s.log + HeardIn([Packet(e, o, now)])
  {
    hide Judge, Book, InsertAll, Stamp, Parse;
    var t := Entered(Heard(s, e, o, now), e.key, now);
    if t.flows[e.key].status == New {
      var j := Judge(env, t, t.flows[e.key], e, o, now);
      BookKeepsRest(env, Judging(t, e.key, j), j.flow);
    }
  }

  lemma {:induction false} LogIsHeard(env: Env, s: State, steps: seq<Step>)
    ensures Run(env, s, steps).log == s.log + HeardIn(steps)
    decreases |steps|
  {
    hide Process, Stamp, Parse;
    if steps != [] {
      assert [steps[|steps| - 1]][..0] == [];
      var t := Run(env, s, steps[..|steps| - 1]);
      LogIsHeard(env, s, steps[..|steps| - 1]);
      match steps[|steps| - 1]
      case Packet(e, o, now) => ProcessLogs(env, t, e, o, now);
      case Sweep(order, now) =>
        if IsSweep(t.flows, order, now) {
          SweepKeepsPool(env, t, order);
        }
    }
  }

  // In every run the address cache answers with the last binding heard: a lookup
  // hits exactly when the latest insert into the slot was for this address and has
  // not expired, and then gives its host name, before its time plus min(ttl, 300).
  lemma CacheHoldsLastHeard(env: Env, mlEnabled: bool, steps: seq<Step>, ip: Ip, now: U32)
    ensures var cache, heard := Run(env, EngineModel.Start(mlEnabled), steps).cache, HeardIn(steps);
      && (Lookup(cache, ip, now).Some? <==> exists j :: Live(heard, j, ip, now))
      && forall j :: Live(heard, j, ip, now) ==>
           && Lookup(cache, ip, now) == Some(Hash(ip))
           && cache[Hash(ip)].host == heard[j].binding.name != ""
           && now < heard[j].at + (if heard[j].binding.ttl > 300 then 300 else heard[j].binding.ttl)
           && forall k :: j < k < |heard| ==> heard[k].binding.ip != ip
    ensures var cache, heard := Run(env, EngineModel.Start(mlEnabled), steps).cache, HeardIn(steps);
      forall j :: LastInto(heard, Hash(ip), j) && heard[j].binding.ip == ip ==>
        var end := heard[j].at + if heard[j].binding.ttl > 300 then 300 else heard[j].binding.ttl;
        end < 0x1_0000_0000 ==>
          && (Lookup(cache, ip, now).Some? <==> now < end)
          && (now < end ==> cache[Hash(ip)].host == heard[j].binding.name)
  {
    hide Ledger, OwnedBy, FlowsOk, ContextOk, Run, Agrees, Lookup, Hash, Expiry, HeardIn;
    StartHolds(env, mlEnabled);
    RunKeepsInv(env, EngineModel.Start(mlEnabled), steps);
    LogIsHeard(env, EngineModel.Start(mlEnabled), steps);
    var s, heard := Run(env, EngineModel.Start(mlEnabled), steps), HeardIn(steps);
    assert s.log == heard;
    LookupIsLatestLive(s.cache, heard, ip, now);
    assert forall j :: Live(heard, j, ip, now) ==> WellNamed(heard[j].binding);
    forall j | LastInto(heard, Hash(ip), j) && heard[j].binding.ip == ip
      ensures forall l :: Live(heard, l, ip, now) ==> l == j
      ensures Unexpired(heard[j], now) ==> Live(heard, j, ip, now)
    {
      assert WellNamed(heard[j].binding);
    }
  }

  // An id handed out for a host is its id for the rest of the run.
  lemma IdsLastForever(env: Env, s: State, steps: seq<Step>, host: string)
    requires Inv(env, s) && IdIn(env.native, s.pool, host) != 0
    ensures IdIn(env.native, Run(env, s, steps).pool, host) == IdIn(env.native, s.pool, host)
  {
    hide Inv, Run, IdIn;
    PoolGrows(env, s, steps);
    IdIsForever(env.native, s.pool, Run(env, s, steps).pool, host);
  }

  // ---- Statistics of the flows of a run ------------------------------------

  // The samples of a flow are in order of time, none later than t.
  predicate Timed(samples: seq<MlStats.Sample>, t: nat) {
    && (forall i :: 0 <= i < |samples| ==> samples[i].at <= t)
    && (forall i, j :: 0 <= i < j < |samples| ==> samples[i].at <= samples[j].at)
  }

  ghost predicate AllTimed(s: State, t: nat) {
    && (forall k :: k in s.flows ==> Timed(s.flows[k].samples, t))
    && (forall i :: 0 <= i < |s.expired| ==> Timed(s.expired[i].samples, t))
  }

  lemma JudgeSamples(env: Env, s: State, f: Flow, e: Event, o: Oracle, now: U32, t: nat)
    requires FlowOk(f) && f.status == New && Timed(f.samples, t) && t <= now
    ensures Timed(Judge(env, s, f, e, o, now).flow.samples, now)
  {
    hide DirectVerdict, LastResort, MlStats.Run, MlStats.Add;
    var c := Context(s.cache, s.pool);
    var h := Scanned(f, s.made, e.pktLen, now);
    if Known(o.det) {
      DirectOk(env, c, h, o.det, now);
    }
    LastResortOk(env, c, h, o, s.mlEnabled, now);
  }

  lemma ProcessKeepsTime(env: Env, s: State, e: Event, o: Oracle, now: U32, t: nat)
    requires Inv(env, s) && AllTimed(s, t) && t <= now
    ensures AllTimed(Process(env, s, e, o, now).0, now)
  {
    hide Ledger, OwnedBy, ContextOk, Recorded, FlowOk, Judge, Book, InsertAll, Stamp, Parse, Timed;
    TimedLater(s, t, now);
    var h := Heard(s, e, o, now);
    if e.key in h.flows || o.entryOk {
      var u := Entered(h, e.key, now);
      NoSamples(now);
      if u.flows[e.key].status == New {
        HeardKeepsInv(env, s, e, o, now);
        EnteredKeepsInv(env, h, e.key, now);
        var j := Judge(env, u, u.flows[e.key], e, o, now);
        JudgeSamples(env, u, u.flows[e.key], e, o, now, now);
        BookKeepsRest(env, Judging(u, e.key, j), j.flow);
      }
    }
  }

  lemma NoSamples(t: nat)
    ensures Timed([], t)
  {
  }

  lemma TimedLater(s: State, t: nat, t': nat)
    requires AllTimed(s, t) && t <= t'
    ensures AllTimed(s, t')
  {
  }

  lemma {:induction false} SweepKeepsTime(env: Env, s: State, order: seq<Key>, t: nat)
    requires AllPresent(s.flows, order) && AllTimed(s, t)
    ensures AllTimed(ExpireAll(env, s, order), t)
    decreases |order|
  {
    hide AppCharged, CatCharged, HandlesOf, Timed;
    if order != [] {
      SweepKeepsTime(env, Expire(env, s, order[0]), order[1..], t);
    }
  }

  // The clock never goes back during a run.
  ghost predicate Ticking(steps: seq<Step>) {
    forall i, j :: 0 <= i < j < |steps| ==> steps[i].now <= steps[j].now
  }

  lemma {:induction false} RunKeepsTime(env: Env, s: State, steps: seq<Step>)
    requires Inv(env, s) && AllTimed(s, 0) && Ticking(steps)
    ensures AllTimed(Run(env, s, steps), if steps == [] then 0 else steps[|steps| - 1].now)
    decreases |steps|
  {
    hide Inv, Process, AllTimed;
    if steps != [] {
      var init, step := steps[..|steps| - 1], steps[|steps| - 1];
      var u := Run(env, s, init);
      var t := if init == [] then 0 else init[|init| - 1].now;
      RunKeepsTime(env, s, init);
      RunKeepsInv(env, s, init);
      TimedLater(u, t, step.now);
      match step
      case Packet(e, o, now) => ProcessKeepsTime(env, u, e, o, now, now);
      case Sweep(order, now) =>
        if IsSweep(u.flows, order, now) {
          SweepKeepsTime(env, u, order, now);
        }
    }
  }

  predicate Seen(s: State, f: Flow) {
    (f.key in s.flows && s.flows[f.key] == f) || f in s.expired
  }

  // For every flow of every run whose clock does not go back, what the model is fed
  // are the statistics of the packets scanned for it: means lie between extremes and
  // no variance is negative.
  lemma FlowStatisticsAreSound(env: Env, mlEnabled: bool, steps: seq<Step>, f: Flow)
    requires Ticking(steps) && Seen(Run(env, EngineModel.Start(mlEnabled), steps), f) && f.samples != []
    ensures f.ml == MlStats.Run(f.samples) && f.ml.n == |f.samples| <= f.packets
    ensures f.ml.min as real <= MlStats.Mean(f.ml.sum, f.ml.n) <= f.ml.max as real
    ensures MlStats.Variance(f.ml.sum, f.ml.sq, f.ml.n) >= 0.0
    ensures f.ml.n > 1 ==> f.ml.gapMin as real <= MlStats.Mean(f.ml.gapSum, f.ml.n - 1) <= f.ml.gapMax as real
    ensures f.ml.n > 2 ==> MlStats.Variance(f.ml.gapSum, f.ml.gapSq, f.ml.n - 1) >= 0.0
  {
    hide Ledger, OwnedBy, ContextOk, Recorded, Run, MlStats.Run, MlStats.Mean, MlStats.Variance, ViaOk;
    var s := Run(env, EngineModel.Start(mlEnabled), steps);
    StartHolds(env, mlEnabled);
    RunKeepsInv(env, EngineModel.Start(mlEnabled), steps);
    RunKeepsTime(env, EngineModel.Start(mlEnabled), steps);
    assert FlowOk(f) && exists t: nat :: Timed(f.samples, t);
    MlStats.StatisticsAreSound(f.samples);
    MlStats.RunCounts(f.samples);
  }
}
