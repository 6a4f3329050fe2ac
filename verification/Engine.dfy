// The daemon's engine as it runs: flow table and address cache on the heap,
// counters bumped, undone and bumped again as labels are refined. Every method is
// proved against the functions of EngineModel, which record only the outcome.
module Engines {
  import opened Basics
  import opened Capture
  import opened DnsParser
  import opened DnsSlots
  import opened DnsCaches
  import opened Labels
  import opened MlStats
  import opened EngineModel
  import opened EngineLedger
  import opened Ownership
  import EngineRuns
  import opened FlowTables

  class Engine {
    const env: Env
    const flows: FlowTable
    const dns: DnsCache
    const mlEnabled: bool

    var pktsScanned: nat
    var pktsCached: nat
    var ndpiCalls: nat
    var flowsClassified: nat
    var flowsGuessed: nat
    var flowsMl: nat
    var flowsGaveUp: nat

    var dynLabels: Pool

    var appBytes: AppRow
    var appPackets: AppRow
    var appFlows: AppRow
    var byNdpi: AppRow
    var byGiveup: AppRow
    var byMl: AppRow
    var bySni: AppRow
    var byDns: AppRow
    var catBytes: CatRow
    var catPackets: CatRow
    var catFlows: CatRow

    // History: flows that left the table, events that found no memory.
    ghost var expired: seq<Flow>
    ghost var refused: nat

    ghost function Credit(): Credits
      reads `byNdpi, `byGiveup, `bySni, `byMl, `byDns
    {
      Credits(byNdpi, byGiveup, bySni, byMl, byDns)
    }

    ghost function Apps(): AppTotals
      reads `appBytes, `appPackets, `appFlows
    {
      AppTotals(appBytes, appPackets, appFlows)
    }

    ghost function Cats(): CatTotals
      reads `catBytes, `catPackets, `catFlows
    {
      CatTotals(catBytes, catPackets, catFlows)
    }

    ghost function Names(): Context
      reads `dynLabels, dns, dns.entries
      requires dns.Valid()
    {
      Context(dns.View(), dynLabels)
    }

    // The state of the model this engine stands for.
    ghost function View(): State
      reads this, flows`index, flows.index.Values, flows`totalCreated, flows.ndpi, dns, dns.entries
      requires dns.Valid()
    {
      State(flows.View(), expired, flows.totalCreated, refused, pktsScanned, ndpiCalls, pktsCached,
            flowsClassified, flowsGuessed, flowsMl, flowsGaveUp, mlEnabled, dns.View(), dns.log, dynLabels,
            Credit(), Apps(), Cats(), flows.ndpi.live, flows.ndpi.made)
    }

    ghost predicate Formed()
      reads flows, flows.buckets, flows.index.Values, dns, dns.entries
    {
      flows.Valid() && dns.Valid() && flows.buckets as object != dns.entries as object
    }

    ghost predicate Valid()
      reads this, flows, flows.buckets, flows.index.Values, flows.ndpi, dns, dns.entries
    {
      Formed() && EngineRuns.Inv(env, View())
    }

    constructor (env: Env, mlEnabled: bool)
      ensures Valid() && this.env == env && this.mlEnabled == mlEnabled
      ensures View() == EngineModel.Start(mlEnabled)
      ensures fresh(flows) && fresh(flows.buckets) && fresh(flows.ndpi) && fresh(dns) && fresh(dns.entries)
    {
      this.env, this.mlEnabled := env, mlEnabled;
      flows := new FlowTable();
      dns := new DnsCache();
      pktsScanned, pktsCached, ndpiCalls := 0, 0, 0;
      flowsClassified, flowsGuessed, flowsMl, flowsGaveUp := 0, 0, 0, 0;
      dynLabels := [];
      appBytes, appPackets, appFlows := NO_APPS, NO_APPS, NO_APPS;
      byNdpi, byGiveup, byMl, bySni, byDns := NO_APPS, NO_APPS, NO_APPS, NO_APPS, NO_APPS;
      catBytes, catPackets, catFlows := NO_CATS, NO_CATS, NO_CATS;
      expired, refused := [], 0;
      new;
      hide *;
      EngineRuns.StartHolds(env, mlEnabled);
      Blank();
    }

    // All fields at their first values make up the model's start.
    lemma Blank()
      requires flows.Valid() && dns.Valid() && flows.buckets as object != dns.entries as object
      requires flows.View() == map[] && flows.totalCreated == 0 && flows.ndpi.live == {} && flows.ndpi.made == 0
      requires dns.log == [] && forall i :: 0 <= i < SIZE ==> dns.View()[i] == EMPTY_SLOT
      requires pktsScanned == 0 && pktsCached == 0 && ndpiCalls == 0 && expired == [] && refused == 0
      requires flowsClassified == 0 && flowsGuessed == 0 && flowsMl == 0 && flowsGaveUp == 0 && dynLabels == []
      requires byNdpi == byGiveup == byMl == bySni == byDns == NO_APPS && appBytes == appPackets == appFlows == NO_APPS
      requires catBytes == catPackets == catFlows == NO_CATS
      requires EngineRuns.Inv(env, EngineModel.Start(mlEnabled))
      ensures Valid() && View() == EngineModel.Start(mlEnabled)
    {
      hide EngineRuns.Inv, FlowTable.Valid, FlowTable.View, DnsCache.Valid, DnsCache.View, NO_APPS, NO_CATS;
      assert dns.View() == EngineModel.Start(mlEnabled).cache;
    }

    // ---- Host names --------------------------------------------------------

    method GetDynApp(host: string) returns (id: U16)
      modifies `dynLabels
      ensures dynLabels == Grown(env.native, old(dynLabels), host)
      ensures id == IdIn(env.native, dynLabels, host)
    {
      hide CleanLabel, Contains, TopLevel;
      if '.' !in host { return 0; }
      var tld := TopLevel(host);
      if tld == "local" || tld == "localdomain" { return 0; }
      if Contains(host, ".arpa") || Contains(host, ".in-addr.") { return 0; }
      var pid := env.native(host);
      if pid != 0 { return pid; }
      var name := ComputeCleanLabel(host);
      var i: nat := 0;
      while i < |dynLabels|
        invariant i <= |dynLabels| && name !in dynLabels[..i]
      {
        if dynLabels[i] == name {
          FirstIs(dynLabels, name, i);
          return FIRST_DYNAMIC + i;
        }
        i := i + 1;
      }
      if |dynLabels| >= POOL_SIZE { return 0; }
      ghost var pool := dynLabels;
      dynLabels := dynLabels + [name];
      assert dynLabels[..|pool|] == pool;
      FirstIs(dynLabels, name, |pool|);
      return FIRST_DYNAMIC + |dynLabels| - 1;
    }

    // The application named by the flow's host, consulting and feeding the memo.
    method ResolveHost(f: Flow, now: U32) returns (src: Source, id: U16)
      requires dns.Valid()
      modifies `dynLabels, dns.entries
      ensures dns.Valid() && src == HostOf(old(Names().cache), f, now)
      ensures id == Resolved(env, old(Names()), src) && Names() == After(env, old(Names()), src)
    {
      hide IdIn, Grown, Lookup, DnsCache.Valid;
      src, id := Nowhere, 0;
      if f.sni != "" {
        src := Sni(f.sni);
        id := GetDynApp(f.sni);
        return;
      }
      var at := dns.LookupEntry(f.key.dst, now);
      if at == None { return; }
      var e := dns.Entry(at.value);
      src := Cached(at.value, e.host);
      if e.app != 0 {
        id := e.app;
      } else {
        id := env.service(e.host);
        if id == 0 {
          id := GetDynApp(e.host);
        }
      }
      if id != 0 {
        dns.Memoise(at.value, id);
      } else {
        dns.SameMemo(at.value);
      }
    }

    // ---- Credits -----------------------------------------------------------

    // Moves a flow's credit from nDPI or its guesser to the host's application.
    method MoveCredit(f0: Flow, id: U16, cached: bool, ghost before: Credits) returns (f: Flow)
      requires f0.app < APPS && (f0.via == ByNdpi || f0.via == ByGiveup)
      requires Credit() == Given(before, f0)
      modifies `byNdpi, `byGiveup, `bySni, `byDns
      ensures f == f0.(app := id, via := if cached then ByDns else BySni)
      ensures Credit() == Given(before, f)
    {
      f := f0;
      if f.via == ByNdpi {
        byNdpi := Down(byNdpi, f.app);
      } else {
        byGiveup := Down(byGiveup, f.app);
      }
      assert Credit() == before;
      f := f.(app := id);
      if f.app < APPS {
        if cached { byDns := Up(byDns, f.app, 1); } else { bySni := Up(bySni, f.app, 1); }
      }
      f := f.(via := if cached then ByDns else BySni);
    }

    // The host's application replaces the label nDPI or its guesser gave.
    method ApplyHost(f0: Flow, now: U32, ghost before: Credits) returns (f: Flow)
      requires dns.Valid() && (f0.via == ByNdpi || f0.via == ByGiveup) && Credit() == Given(before, f0)
      modifies `dynLabels, dns.entries, `byNdpi, `byGiveup, `bySni, `byDns
      ensures dns.Valid() && Credit() == Given(before, f)
      ensures var src := HostOf(old(Names()).cache, f0, now);
        && f == Relabelled(env, old(Names()), f0, src) && Names() == After(env, old(Names()), src)
    {
      hide HostOf, Resolved, After, Given, DnsCache.Valid;
      f := f0;
      var src, id := ResolveHost(f, now);
      if id != 0 && id != f.app && f.app < APPS {
        f := MoveCredit(f, id, src.Cached?, before);
      }
    }

    // nDPI's own verdict. The flow is credited to nDPI first; if its host names a
    // different application, that credit is undone and the host's one given.
    method ApplyDirect(f0: Flow, d: Detection, now: U32) returns (f: Flow)
      requires dns.Valid() && Known(d)
      modifies `dynLabels, dns.entries, `byNdpi, `byGiveup, `bySni, `byDns, `flowsClassified
      ensures dns.Valid() && (f, Names()) == DirectVerdict(env, old(Names()), f0, d, now)
      ensures Credit() == Given(old(Credit()), f) && flowsClassified == old(flowsClassified) + 1
    {
      hide HostOf, Resolved, After, Capped, Relabelled, DnsCache.Valid;
      f := f0.(app := if d.app != 0 then d.app else d.master);
      flowsClassified := flowsClassified + 1;
      if f.app < APPS {
        byNdpi := Up(byNdpi, f.app, 1);
      }
      f := f.(via := ByNdpi);
      if d.host != "" {
        f := f.(sni := Capped(d.host, SNI_CAP));
      }
      f := ApplyHost(f, now, old(Credit()));
      f := f.(status := Classified, outcome := Direct);
    }

    // The guess of nDPI's heuristics, treated likewise.
    method ApplyGuess(f0: Flow, d: Detection, now: U32) returns (f: Flow)
      requires dns.Valid()
      modifies `dynLabels, dns.entries, `byNdpi, `byGiveup, `bySni, `byDns, `flowsClassified, `flowsGuessed
      ensures dns.Valid() && (f, Names()) == Guess(env, old(Names()), f0, d, now)
      ensures Credit() == if Known(d) then Given(old(Credit()), f) else old(Credit())
      ensures flowsClassified == old(flowsClassified) + One(Known(d))
      ensures flowsGuessed == old(flowsGuessed) + One(Known(d))
    {
      hide HostOf, Resolved, After, Capped, Relabelled, DnsCache.Valid;
      f := f0;
      if d.app == 0 && d.master == 0 { return; }
      f := f.(app := if d.app != 0 then d.app else d.master);
      flowsGuessed := flowsGuessed + 1;
      flowsClassified := flowsClassified + 1;
      if f.app < APPS {
        byGiveup := Up(byGiveup, f.app, 1);
      }
      f := f.(via := ByGiveup);
      if d.host != "" {
        f := f.(sni := Capped(d.host, SNI_CAP));
      }
      f := ApplyHost(f, now, old(Credit()));
      f := f.(status := Classified, outcome := Guessed);
    }

    // The model's answer, unless it is the generic class and no host makes it
    // specific.
    method Refined(f: Flow, score: U16, now: U32) returns (app: U16)
      requires dns.Valid()
      ensures app == MlChoice(env, dns.View(), f, score, now)
    {
      hide Lookup, DnsCache.Valid;
      app := score;
      if app == NDPI_APP_MCP {
        if f.sni != "" {
          app := env.mcp(f.sni);
        } else {
          var at := dns.LookupEntry(f.key.dst, now);
          if at == None {
            app := 0;
          } else {
            var e := dns.Entry(at.value);
            app := env.mcp(e.host);
          }
        }
        if app == NDPI_APP_MCP {
          app := 0;
        }
      }
    }

    // Takes back the credit a guess has given.
    method Undo(f: Flow, ghost before: Credits)
      requires f.via == ByGiveup || f.via == BySni || f.via == ByDns
      requires Credit() == Given(before, f)
      modifies `byGiveup, `bySni, `byDns
      ensures Credit() == before
    {
      if f.app < APPS {
        if f.via == ByGiveup {
          byGiveup := Down(byGiveup, f.app);
        } else if f.via == BySni {
          bySni := Down(bySni, f.app);
        } else if f.via == ByDns {
          byDns := Down(byDns, f.app);
        }
      }
    }

    // The model's choice replaces a guess, whose credit is taken back, or decides a
    // flow nobody could label.
    method ApplyModel(f0: Flow, choice: U16, ghost before: Credits) returns (f: Flow)
      requires f0.status == New ==> Credit() == before
      requires f0.status == New || f0.status == Classified
      requires f0.status != New ==> flowsGuessed > 0 && Credit() == Given(before, f0)
      requires f0.status != New ==> f0.via == ByGiveup || f0.via == BySni || f0.via == ByDns
      modifies `byGiveup, `bySni, `byDns, `byMl, `flowsClassified, `flowsGuessed, `flowsMl
      ensures f == f0.(app := choice, via := ByMl, status := Classified, outcome := Learned)
      ensures Credit() == Given(before, f) && flowsMl == old(flowsMl) + 1
      ensures flowsClassified == old(flowsClassified) + One(f0.status == New)
      ensures flowsGuessed == old(flowsGuessed) - One(f0.status != New)
    {
      hide Given;
      f := f0;
      if f.status == Classified {
        Undo(f, before);
        flowsGuessed := flowsGuessed - 1;
      } else {
        flowsClassified := flowsClassified + 1;
      }
      f := f.(app := choice, status := Classified, via := ByMl, outcome := Learned);
      flowsMl := flowsMl + 1;
      if f.app < APPS {
        byMl := Up(byMl, f.app, 1);
      }
      GivenToMl(before, f);
    }

    // The packet budget is spent: guess, then let the model refine or decide.
    method ApplyLastResort(f0: Flow, o: Oracle, now: U32) returns (f: Flow)
      requires dns.Valid() && f0.status == New && f0.outcome == Undecided && f0.app == 0 && f0.via == NoMethod
      modifies `dynLabels, dns.entries, `byNdpi, `byGiveup, `bySni, `byDns, `byMl
      modifies `flowsClassified, `flowsGuessed, `flowsMl, `flowsGaveUp
      ensures dns.Valid() && (f, Names()) == LastResort(env, old(Names()), f0, o, mlEnabled, now)
      ensures Credit() == if IsClassified(f.outcome) then Given(old(Credit()), f) else old(Credit())
      ensures flowsClassified == old(flowsClassified) + One(IsClassified(f.outcome))
      ensures flowsGuessed == old(flowsGuessed) + One(f.outcome == Guessed)
      ensures flowsMl == old(flowsMl) + One(f.outcome == Learned)
      ensures flowsGaveUp == old(flowsGaveUp) + One(IsGivenUp(f.outcome))
    {
      hide Given, Guess, MlChoice, Lookup, DnsCache.Valid, HostOf, Known;
      f := f0;
      if mlEnabled {
        ghost var c := Names();
        f := ApplyGuess(f, o.guess, now);
        GuessIs(env, c, f0, o.guess, now);
        var choice := Refined(f, o.ml, now);
        if choice != 0 {
          f := ApplyModel(f, choice, old(Credit()));
        }
      }
      if f.status != Classified {
        f := f.(app := 0, status := GaveUp, outcome := Exhausted);
        flowsGaveUp := flowsGaveUp + 1;
      }
    }

    // ---- One event ---------------------------------------------------------

    // A scanned flow: nDPI's answer if it has one, else the last resort once the
    // budget is spent. A decision frees the flow's nDPI state.
    method Decide(f0: Flow, o: Oracle, now: U32) returns (f: Flow)
      requires dns.Valid() && f0.ndpi.Some? && f0.ndpi.value in flows.ndpi.live
      requires f0.status == New && f0.outcome == Undecided && f0.app == 0 && f0.via == NoMethod
      modifies `dynLabels, dns.entries, `byNdpi, `byGiveup, `bySni, `byDns, `byMl
      modifies `flowsClassified, `flowsGuessed, `flowsMl, `flowsGaveUp, flows.ndpi`live
      ensures dns.Valid()
      ensures var (g, c) := Decision(env, old(Names()), f0, o, mlEnabled, now);
        && Names() == c && (g == f0 ==> f == f0) && (g != f0 ==> f == g.(ndpi := None))
        && flows.ndpi.live == if g == f0 then old(flows.ndpi.live) else old(flows.ndpi.live) - {f0.ndpi.value}
      ensures Credit() == if IsClassified(f.outcome) then Given(old(Credit()), f) else old(Credit())
      ensures Tallied(f, flowsClassified - old(flowsClassified), flowsGuessed - old(flowsGuessed),
                      flowsMl - old(flowsMl), flowsGaveUp - old(flowsGaveUp))
    {
      hide Given, DirectVerdict, LastResort, DnsCache.Valid, HostOf, Relabelled, Resolved, After;
      f := f0;
      DecisionIs(env, Names(), f0, o, mlEnabled, now);
      if o.det.app != 0 || o.det.master != 0 {
        f := ApplyDirect(f, o.det, now);
        flows.ndpi.Free(f.ndpi.value);
        GivenAnyway(old(Credit()), f);
        f := f.(ndpi := None);
      } else if f.pktCount >= MAX_CLASSIFY_PKTS {
        f := ApplyLastResort(f, o, now);
        flows.ndpi.Free(f.ndpi.value);
        GivenAnyway(old(Credit()), f);
        f := f.(ndpi := None);
      }
    }

    // Prepares a flow for nDPI: state on its first payload, and the statistics.
    method Scan(f0: Flow, len: U16, now: U32, ok: bool) returns (f: Option<Flow>)
      modifies flows.ndpi, `pktsScanned, `ndpiCalls
      ensures f.None? <==> f0.ndpi.None? && !ok
      ensures f.Some? ==> f.value == f0.(
        ndpi := if f0.ndpi.None? then Some(old(flows.ndpi.made)) else f0.ndpi,
        ml := MlStats.Add(f0.ml, Sample(len, now)), samples := f0.samples + [Sample(len, now)])
      ensures f.Some? && f0.ndpi.None? ==>
        flows.ndpi.live == old(flows.ndpi.live) + {old(flows.ndpi.made)} && flows.ndpi.made == old(flows.ndpi.made) + 1
      ensures f.None? || f0.ndpi.Some? ==>
        flows.ndpi.live == old(flows.ndpi.live) && flows.ndpi.made == old(flows.ndpi.made)
      ensures pktsScanned == old(pktsScanned) + One(f.Some?) && ndpiCalls == old(ndpiCalls) + One(f.Some?)
    {
      hide MlStats.Add;
      var g := f0;
      if g.ndpi.None? {
        var handle := flows.ndpi.Malloc(ok);
        if handle.None? { return None; }
        g := g.(ndpi := handle);
      }
      pktsScanned := pktsScanned + 1;
      ndpiCalls := ndpiCalls + 1;
      var acc := Accumulate(g.ml, len, now);
      return Some(g.(ml := acc, samples := g.samples + [Sample(len, now)]));
    }

    // One counted packet that carries payload.
    method JudgePayload(f1: Flow, evt: Event, o: Oracle, now: U32, ghost f0: Flow, ghost s: State)
      returns (f: Flow, ghost j: Judged)
      requires dns.Valid() && FlowOk(f0) && f0.status == New && f1 == Received(f0, evt.pktLen) && HasPayload(evt)
      requires Context(s.cache, s.pool) == Names() && s.mlEnabled == mlEnabled
      requires s.handles == flows.ndpi.live && s.made == flows.ndpi.made
      requires f0.ndpi.Some? ==> f0.ndpi.value in flows.ndpi.live
      modifies `dynLabels, dns.entries, `byNdpi, `byGiveup, `bySni, `byDns, `byMl
      modifies `flowsClassified, `flowsGuessed, `flowsMl, `flowsGaveUp, flows.ndpi, `pktsScanned, `ndpiCalls
      ensures dns.Valid() && j == Judge(env, s, f0, evt, o, now) && f == j.flow
      ensures Names() == j.context && flows.ndpi.live == j.handles && flows.ndpi.made == j.made
      ensures pktsScanned == old(pktsScanned) + One(j.scanned) && ndpiCalls == old(ndpiCalls) + One(j.scanned)
      ensures Credit() == if IsClassified(f.outcome) then Given(old(Credit()), f) else old(Credit())
      ensures Tallied(f, flowsClassified - old(flowsClassified), flowsGuessed - old(flowsGuessed),
                      flowsMl - old(flowsMl), flowsGaveUp - old(flowsGaveUp))
    {
      hide Given, Judge, DnsCache.Valid, DnsCache.View, MlStats.Add, Decision, FlowOk, Bump, Tallied,
        IsClassified, IsGivenUp;
      j := Judge(env, s, f0, evt, o, now);
      JudgeCases(env, s, f0, evt, o, now);
      TalliedEarly();
      f := f1;
      var scanned := Scan(f, evt.pktLen, now, o.ndpiOk);
      if scanned.None? {
        f := f.(status := GaveUp, outcome := NoMemory);
        flowsGaveUp := flowsGaveUp + 1;
        return;
      }
      assert scanned.value == Scanned(f0, s.made, evt.pktLen, now);
      f := Decide(scanned.value, o, now);
    }

    // One packet of an undecided flow.
    method JudgeFlow(f0: Flow, evt: Event, o: Oracle, now: U32, ghost s: State) returns (f: Flow, ghost j: Judged)
      requires dns.Valid() && FlowOk(f0) && f0.status == New
      requires Context(s.cache, s.pool) == Names() && s.mlEnabled == mlEnabled
      requires s.handles == flows.ndpi.live && s.made == flows.ndpi.made
      requires f0.ndpi.Some? ==> f0.ndpi.value in flows.ndpi.live
      modifies `dynLabels, dns.entries, `byNdpi, `byGiveup, `bySni, `byDns, `byMl
      modifies `flowsClassified, `flowsGuessed, `flowsMl, `flowsGaveUp, flows.ndpi, `pktsScanned, `ndpiCalls
      ensures dns.Valid() && j == Judge(env, s, f0, evt, o, now) && f == j.flow
      ensures Names() == j.context && flows.ndpi.live == j.handles && flows.ndpi.made == j.made
      ensures pktsScanned == old(pktsScanned) + One(j.scanned) && ndpiCalls == old(ndpiCalls) + One(j.scanned)
      ensures Credit() == if IsClassified(f.outcome) then Given(old(Credit()), f) else old(Credit())
      ensures Tallied(f, flowsClassified - old(flowsClassified), flowsGuessed - old(flowsGuessed),
                      flowsMl - old(flowsMl), flowsGaveUp - old(flowsGaveUp))
    {
      hide Given, Judge, DnsCache.Valid, DnsCache.View, MlStats.Add, Decision, FlowOk, Bump, Tallied,
        IsClassified, IsGivenUp;
      j := Judge(env, s, f0, evt, o, now);
      JudgeCases(env, s, f0, evt, o, now);
      TalliedEarly();
      f := f0.(pktCount := f0.pktCount + 1);
      f := f.(bytes := f.bytes + evt.pktLen);
      f := f.(packets := f.packets + 1);
      if evt.data.Payload? && evt.data.bytes != [] {
        f, j := JudgePayload(f, evt, o, now, f0, s);
      } else if f.pktCount >= MAX_CLASSIFY_PKTS {
        f := f.(app := 0, status := GaveUp, outcome := Silent);
        flowsGaveUp := flowsGaveUp + 1;
      }
    }

    // on_flow_expire, and the same block at the end of ndpi_engine_process
    method Charge(f: Flow)
      modifies `appBytes, `appPackets, `appFlows, `catBytes, `catPackets, `catFlows
      ensures Apps() == AppCharged(old(Apps()), f) && Cats() == CatCharged(env, old(Cats()), f)
    {
      if f.app < APPS {
        appBytes := Up(appBytes, f.app, f.bytes);
        appPackets := Up(appPackets, f.app, f.packets);
        appFlows := Up(appFlows, f.app, 1);
        var cat := CategoryOf(env, f.app, f.sni);
        catBytes := Up(catBytes, cat, f.bytes);
        catPackets := Up(catPackets, cat, f.packets);
        catFlows := Up(catFlows, cat, 1);
      }
    }

    lemma ViewIs(s: State)
      requires Formed() && s == View()
      ensures s == State(flows.View(), expired, flows.totalCreated, refused, pktsScanned, ndpiCalls, pktsCached,
            flowsClassified, flowsGuessed, flowsMl, flowsGaveUp, mlEnabled, dns.View(), dns.log, dynLabels,
            Credit(), Apps(), Cats(), flows.ndpi.live, flows.ndpi.made)
      ensures Names() == Context(s.cache, s.pool)
    {
    }

    lemma EntryFacts(e: FlowEntry)
      requires Valid() && e.key in flows.index && flows.index[e.key] == e
      ensures e.key in View().flows && View().flows[e.key] == e.flow && FlowOk(e.flow) && e.flow.key == e.key
      ensures e.flow.ndpi.Some? ==> e.flow.ndpi.value in flows.ndpi.live
    {
      hide Ledger, EngineRuns.ContextOk, FlowOk, DnsCache.Valid;
      HeldIsLive(View().flows, flows.ndpi.live, flows.ndpi.made, e.key);
      flows.FlowKeys();
    }

    // An undecided entry is judged and written back.
    method JudgeEntry(e: FlowEntry, evt: Event, o: Oracle, now: U32, ghost s: State)
      returns (f: Flow, ghost j: Judged)
      requires Formed() && s == View() && e.key == evt.key && evt.key in flows.index && flows.index[evt.key] == e
      requires FlowOk(e.flow) && e.flow.status == New && e.flow.key == e.key
      requires e.flow.ndpi.Some? ==> e.flow.ndpi.value in flows.ndpi.live
      modifies `dynLabels, dns.entries, `byNdpi, `byGiveup, `bySni, `byDns, `byMl, e`flow
      modifies `flowsClassified, `flowsGuessed, `flowsMl, `flowsGaveUp, flows.ndpi, `pktsScanned, `ndpiCalls
      ensures Formed() && j == Judge(env, s, old(e.flow), evt, o, now) && f == j.flow
      ensures flows.View() == s.flows[evt.key := f]
      ensures Names() == j.context && flows.ndpi.live == j.handles && flows.ndpi.made == j.made
      ensures pktsScanned == s.scanned + One(j.scanned) && ndpiCalls == s.calls + One(j.scanned)
      ensures Credit() == if IsClassified(f.outcome) then Given(s.credit, f) else s.credit
      ensures Tallied(f, flowsClassified - s.classified, flowsGuessed - s.guessed,
                      flowsMl - s.learned, flowsGaveUp - s.gaveUp)
    {
      hide FlowTable.Valid, FlowTable.View, DnsCache.Valid, DnsCache.View, FlowOk, Judge, Given, Tallied, IsClassified;
      f := e.flow;
      JudgeOk(env, s, f, evt, o, now);
      f, j := JudgeFlow(f, evt, o, now, s);
      flows.Store(e, f);
    }

    // An undecided entry takes a packet: judged, written back, and charged once
    // decided.
    method Settle(e: FlowEntry, evt: Event, o: Oracle, now: U32, ghost s: State) returns (verdict: Option<U16>)
      requires Formed() && s == View() && e.key == evt.key && evt.key in flows.index && flows.index[evt.key] == e
      requires FlowOk(e.flow) && e.flow.status == New && e.flow.key == e.key
      requires e.flow.ndpi.Some? ==> e.flow.ndpi.value in flows.ndpi.live
      modifies this, e`flow, flows.ndpi, dns.entries
      ensures Formed()
      ensures var j := Judge(env, s, old(e.flow), evt, o, now);
        && View() == Book(env, EngineModel.Judging(s, evt.key, j), j.flow) && verdict == VerdictOf(j.flow)
    {
      hide *;
      ViewIs(s);
      var f;
      ghost var j;
      f, j := JudgeEntry(e, evt, o, now, s);
      if Verdicted(f.outcome) {
        Charge(f);
      }
      verdict := VerdictOf(f);
      Assembled(s, evt.key, j);
    }

    // The fields after a judgement make up the model's next state.
    lemma Assembled(s: State, k: Key, j: Judged)
      requires Formed() && flows.View() == s.flows[k := j.flow]
      requires Names() == j.context && flows.ndpi.live == j.handles && flows.ndpi.made == j.made
      requires pktsScanned == s.scanned + One(j.scanned) && ndpiCalls == s.calls + One(j.scanned)
      requires expired == s.expired && flows.totalCreated == s.created && refused == s.refused
      requires pktsCached == s.cached && mlEnabled == s.mlEnabled && dns.log == s.log
      requires Credit() == if IsClassified(j.flow.outcome) then Given(s.credit, j.flow) else s.credit
      requires Apps() == if Verdicted(j.flow.outcome) then AppCharged(s.apps, j.flow) else s.apps
      requires Cats() == if Verdicted(j.flow.outcome) then CatCharged(env, s.cats, j.flow) else s.cats
      requires Tallied(j.flow, flowsClassified - s.classified, flowsGuessed - s.guessed,
                       flowsMl - s.learned, flowsGaveUp - s.gaveUp)
      ensures View() == Book(env, EngineModel.Judging(s, k, j), j.flow)
    {
      hide FlowTable.Valid, FlowTable.View, DnsCache.Valid, DnsCache.View, Tallied, IsClassified, Given, AppCharged,
        CatCharged, Verdicted, Book;
      BookIs(env, EngineModel.Judging(s, k, j), j.flow, View());
    }

    // The entry of an event's key takes the packet.
    method ProcessEntry(e: FlowEntry, evt: Event, o: Oracle, now: U32) returns (verdict: Option<U16>)
      requires Valid() && e.key == evt.key && evt.key in flows.index && flows.index[evt.key] == e
      modifies this, e`flow, flows.ndpi, dns.entries
      ensures Valid() && evt.key in old(View()).flows
      ensures (View(), verdict) == EngineModel.ProcessEntry(env, old(View()), evt, o, now)
    {
      hide EngineRuns.Inv, FlowTable.Valid, FlowTable.View, DnsCache.Valid, FlowOk, Judge, AppCharged,
        CatCharged, Given, Tallied;
      EntryFacts(e);
      EngineRuns.EntryKeepsInv(env, View(), evt, o, now);
      if e.flow.status == Classified || e.flow.status == GaveUp {
        pktsCached := pktsCached + 1;
        return None;
      }
      verdict := Settle(e, evt, o, now, View());
    }

    // DNS responses feed the address cache first.
    method Hear(evt: Event, o: Oracle, now: U32)
      requires Valid()
      modifies dns, dns.entries
      ensures Valid() && View() == Heard(old(View()), evt, o, now)
    {
      hide EngineRuns.Inv, FlowTable.Valid, FlowTable.View, DnsCache.Valid, InsertAll, Parse;
      EngineRuns.HeardKeepsInv(env, View(), evt, o, now);
      if evt.key.proto == IPPROTO_UDP && PortNumber(evt.key.sport) == 53 {
        dns.Update(if evt.data.Payload? then evt.data.bytes else o.slack, now);
      }
    }

    // The entry of a key, created if there is memory for it, stamped with the time.
    method Stamped(k: Key, now: U32, ok: bool, ghost s: State) returns (e: FlowEntry?)
      requires Formed() && s.flows == flows.View()
      modifies flows, flows.buckets, flows.index.Values`flow
      ensures Formed()
      ensures forall l :: l in flows.index ==> fresh(flows.index[l]) || flows.index[l] in old(flows.index.Values)
      ensures k in s.flows || ok ==>
        && e != null && e.key == k && k in flows.index && flows.index[k] == e
        && (fresh(e) || e in old(flows.index.Values)) && flows.View() == s.flows[k := EngineModel.Entry(s, k, now)]
        && flows.totalCreated == old(flows.totalCreated) + One(k !in s.flows)
      ensures e != null ==> e.flow.lastSeen == now
      ensures k !in s.flows && !ok ==>
        e == null && flows.View() == s.flows && flows.totalCreated == old(flows.totalCreated)
    {
      hide FlowTable.Valid, DnsCache.Valid, DnsCache.View, NewFlow;
      KeyOfNewFlow(k, now);
      flows.KeysOfEntries();
      flows.FlowKeys();
      e := flows.GetOrCreate(k, now, ok);
      if e != null {
        flows.KeysOfEntries();
        assert k in flows.index && flows.index[k] == e;
        flows.Store(e, e.flow.(lastSeen := now));
      }
    }

    method Enter(k: Key, now: U32, ok: bool) returns (e: FlowEntry?)
      requires Valid()
      modifies flows, flows.buckets, flows.index.Values`flow, `refused
      ensures Valid()
      ensures forall l :: l in flows.index ==> fresh(flows.index[l]) || flows.index[l] in old(flows.index.Values)
      ensures k in old(View()).flows || ok ==>
        && e != null && e.key == k && k in flows.index && flows.index[k] == e
        && (fresh(e) || e in old(flows.index.Values)) && View() == Entered(old(View()), k, now)
      ensures e != null ==> e.flow.lastSeen == now
      ensures k !in old(View()).flows && !ok ==> e == null && View() == old(View()).(refused := old(refused) + 1)
    {
      hide EngineRuns.Inv, FlowTable.Valid, FlowTable.View, DnsCache.Valid, DnsCache.View, EngineModel.Entry;
      ghost var s := View();
      EngineRuns.EnteredKeepsInv(env, s, k, now);
      EngineRuns.RefusedKeepsInv(env, s);
      e := Stamped(k, now, ok, s);
      if e == null {
        refused := refused + 1;
      }
    }

    // ndpi_engine_process: one event, and the verdict to write back, if any
    method Process(evt: Event, o: Oracle, now: U32) returns (verdict: Option<U16>)
      requires Valid()
      modifies this, flows, flows.buckets, flows.ndpi, flows.index.Values, dns, dns.entries
      ensures Valid() && (View(), verdict) == EngineModel.Process(env, old(View()), evt, o, now)
      ensures forall l :: l in flows.index ==> fresh(flows.index[l]) || flows.index[l] in old(flows.index.Values)
    {
      hide EngineRuns.Inv, FlowTable.Valid, FlowTable.View, DnsCache.Valid, DnsCache.View, InsertAll, Heard, Entry;
      Hear(evt, o, now);
      var e := Enter(evt.key, now, o.entryOk);
      if e == null { return None; }
      verdict := ProcessEntry(e, evt, o, now);
    }

    // ---- Ageing ------------------------------------------------------------

    // The callbacks of one sweep, in order.
    method ChargeAll(calls: seq<Flow>, ghost s: State, ghost order: seq<Key>)
      requires AllPresent(s.flows, order) && CallsFor(s.flows, order, calls)
      requires Apps() == s.apps && Cats() == s.cats && expired == s.expired
      modifies `appBytes, `appPackets, `appFlows, `catBytes, `catPackets, `catFlows, `expired
      ensures var t := ExpireAll(env, s, order); Apps() == t.apps && Cats() == t.cats && expired == t.expired
    {
      hide Apps, Cats, AppCharged, CatCharged, HandlesOf, AllPresent;
      ghost var cur := s;
      WholeOrder(order, calls);
      var i := 0;
      while i < |calls|
        invariant i <= |calls| && |order| == |calls|
        invariant AllPresent(cur.flows, order[i..]) && CallsFor(cur.flows, order[i..], calls[i..])
        invariant ExpireAll(env, cur, order[i..]) == ExpireAll(env, s, order)
        invariant Apps() == cur.apps && Cats() == cur.cats && expired == cur.expired
      {
        SweepStep(env, cur, order[i..], calls[i..]);
        assert order[i..][1..] == order[i + 1..] && calls[i..][1..] == calls[i + 1..];
        Charge(calls[i]);
        expired := expired + [calls[i]];
        cur := Expire(env, cur, order[i]);
        i := i + 1;
      }
    }

    // ndpi_engine_age: `order` lists the keys of the callbacks
    method Age(now: U32) returns (ghost order: seq<Key>)
      requires Valid()
      modifies this, flows, flows.buckets, flows.ndpi, flows.index.Values
      ensures Valid() && flows.index.Values <= old(flows.index.Values)
      ensures IsSweep(old(View()).flows, order, now)
      ensures AllPresent(old(View()).flows, order) && View() == ExpireAll(env, old(View()), order)
      ensures forall k :: k in flows.index ==>
        now as int - flows.index[k].flow.lastSeen as int <= if k.proto == 6 then 300 else 30
    {
      hide *;
      BeforeSweep();
      ghost var s := View();
      ViewIs(s);
      var calls := flows.Age(now);
      order := KeysOf(calls);
      SweepIs(s.flows, flows.View(), calls, now);
      ChargeAll(calls, s, order);
      AfterSweep(s, order);
    }

    lemma BeforeSweep()
      requires Valid()
      ensures Formed() && flows.Valid() && flows.Owned() && dns.Valid() && EngineRuns.Inv(env, View())
      ensures flows.buckets as object != dns.entries as object
      ensures forall k :: k in flows.View() ==> flows.View()[k].key == k
    {
      hide EngineRuns.Inv, DnsCache.Valid, View, FlowTable.Valid, FlowTable.Owned;
      OwnsIts();
      KeysFit();
    }

    lemma AfterSweep(s: State, order: seq<Key>)
      requires EngineRuns.Inv(env, s) && AllPresent(s.flows, order)
      requires flows.Valid() && flows.Owned() && dns.Valid() && flows.buckets as object != dns.entries as object
      requires flows.View() == s.flows - (set k | k in order) && flows.ndpi.made == s.made
      requires expired == ExpireAll(env, s, order).expired
      requires Apps() == ExpireAll(env, s, order).apps && Cats() == ExpireAll(env, s, order).cats
      requires Names() == Context(s.cache, s.pool) && dns.log == s.log
      requires Credit() == s.credit && mlEnabled == s.mlEnabled
      requires flows.totalCreated == s.created && refused == s.refused
      requires pktsScanned == s.scanned && ndpiCalls == s.calls && pktsCached == s.cached
      requires flowsClassified == s.classified && flowsGuessed == s.guessed && flowsMl == s.learned
      requires flowsGaveUp == s.gaveUp
      ensures Valid() && View() == ExpireAll(env, s, order)
    {
      hide EngineRuns.Inv, FlowTable.Valid, DnsCache.Valid, DnsCache.View, FlowTable.View, AllPresent,
        ExpireAll, OwnedBy;
      EngineRuns.SweepKeepsInv(env, s, order);
      SweptState(env, s, order);
      SameHandles(env, ExpireAll(env, s, order), flows.ndpi.live);
    }

    lemma KeysFit()
      requires Valid()
      ensures forall k :: k in flows.View() ==> flows.View()[k].key == k
    {
      hide EngineRuns.Inv, DnsCache.Valid, View;
      flows.FlowKeys();
    }

    // ndpi_engine_destroy
    method Destroy()
      requires Valid()
      modifies flows, flows.buckets, flows.ndpi, flows.index.Values
      ensures Formed() && View() == Destroyed(old(View())) && flows.ndpi.live == {} && flows.index == map[]
    {
      hide EngineRuns.Inv, FlowTable.Valid, DnsCache.Valid, DnsCache.View;
      EngineRuns.NothingLeaks(env, View());
      OwnsIts();
      flows.Destroy();
    }

    lemma OwnsIts()
      requires Valid()
      ensures flows.Owned()
    {
      hide Ledger, EngineRuns.ContextOk, FlowsOk, DnsCache.Valid, FlowTable.Valid, FlowTable.View, OwnedBy;
    }
  }

  function Decision(env: Env, c: Context, f: Flow, o: Oracle, mlEnabled: bool, now: U32): (Flow, Context) {
    if Known(o.det) then DirectVerdict(env, c, f, o.det, now)
    else if f.pktCount >= MAX_CLASSIFY_PKTS then LastResort(env, c, f, o, mlEnabled, now)
    else (f, c)
  }

  // A decision is visible in the outcome and leaves the handle alone.
  lemma DecisionIs(env: Env, c: Context, f: Flow, o: Oracle, mlEnabled: bool, now: U32)
    requires f.status == New && f.outcome == Undecided && f.app == 0 && f.via == NoMethod
    ensures var g := Decision(env, c, f, o, mlEnabled, now).0;
      && g.ndpi == f.ndpi
      && (Known(o.det) ==> g.outcome == Direct)
      && (!Known(o.det) && f.pktCount >= MAX_CLASSIFY_PKTS ==>
            g.outcome == Guessed || g.outcome == Learned || g.outcome == Exhausted)
  {
    hide DirectVerdict, LastResort;
    if Known(o.det) {
      DirectOk(env, c, f, o.det, now);
    } else if f.pktCount >= MAX_CLASSIFY_PKTS {
      LastResortOk(env, c, f, o, mlEnabled, now);
    }
  }

  lemma JudgeCases(env: Env, s: State, f: Flow, e: Event, o: Oracle, now: U32)
    requires FlowOk(f) && f.status == New && (f.ndpi.Some? ==> f.ndpi.value in s.handles)
    ensures f.outcome == Undecided && f.app == 0 && f.via == NoMethod
    ensures !HasPayload(e) ==>
      var g := Received(f, e.pktLen);
      Judge(env, s, f, e, o, now) ==
        Judged(if g.pktCount >= MAX_CLASSIFY_PKTS then g.(app := 0, status := GaveUp, outcome := Silent) else g,
               Context(s.cache, s.pool), s.handles, s.made, false)
    ensures HasPayload(e) && f.ndpi.None? && !o.ndpiOk ==>
      Judge(env, s, f, e, o, now) ==
        Judged(Received(f, e.pktLen).(status := GaveUp, outcome := NoMemory),
               Context(s.cache, s.pool), s.handles, s.made, false)
    ensures HasPayload(e) && (f.ndpi.Some? || o.ndpiOk) ==>
      var h := Scanned(f, s.made, e.pktLen, now);
      var (g, c) := Decision(env, Context(s.cache, s.pool), h, o, s.mlEnabled, now);
      var handles := s.handles + {h.ndpi.value};
      Judge(env, s, f, e, o, now) ==
        Judged(if g == h then h else g.(ndpi := None), c,
               if g == h then handles else handles - {h.ndpi.value},
               if f.ndpi.None? then s.made + 1 else s.made, true)
  {
    hide DirectVerdict, LastResort, MlStats.Add;
    if HasPayload(e) && (f.ndpi.Some? || o.ndpiOk) {
      DecisionIs(env, Context(s.cache, s.pool), Scanned(f, s.made, e.pktLen, now), o, s.mlEnabled, now);
    }
  }

  // What a judgement adds to the global counters.
  ghost predicate Tallied(f: Flow, classified: int, guessed: int, learned: int, gaveUp: int) {
    && classified == One(IsClassified(f.outcome)) && guessed == One(f.outcome == Guessed)
    && learned == One(f.outcome == Learned) && gaveUp == One(IsGivenUp(f.outcome))
  }

  lemma BookIs(env: Env, s: State, f: Flow, t: State)
    requires t == s.(classified := t.classified, guessed := t.guessed, learned := t.learned, gaveUp := t.gaveUp,
                     credit := t.credit, apps := t.apps, cats := t.cats)
    requires Tallied(f, t.classified - s.classified, t.guessed - s.guessed, t.learned - s.learned, t.gaveUp - s.gaveUp)
    requires t.credit == if IsClassified(f.outcome) then Given(s.credit, f) else s.credit
    requires t.apps == if Verdicted(f.outcome) then AppCharged(s.apps, f) else s.apps
    requires t.cats == if Verdicted(f.outcome) then CatCharged(env, s.cats, f) else s.cats
    ensures t == Book(env, s, f)
  {
    hide AppCharged, CatCharged, Bump;
  }

  lemma TalliedEarly()
    ensures forall f: Flow :: f.outcome == Undecided ==> Tallied(f, 0, 0, 0, 0)
    ensures forall f: Flow :: f.outcome == Silent || f.outcome == NoMemory ==> Tallied(f, 0, 0, 0, 1)
    ensures !IsClassified(Undecided) && !IsClassified(Silent) && !IsClassified(NoMemory)
  {
  }

  // The columns once the flow's credit has been given.
  function Given(c: Credits, f: Flow): Credits {
    if f.app < APPS then Bump(c, f.via, f.app) else c
  }

  function Down(row: AppRow, a: nat): AppRow
    requires a < APPS && row[a] > 0
  {
    row[a := row[a] - 1]
  }

  // A guess leaves an undecided flow alone or credits it in one of three columns.
  lemma GuessIs(env: Env, c: Context, f: Flow, d: Detection, now: U32)
    requires f.status == New
    ensures var g := Guess(env, c, f, d, now).0;
      && (Known(d) <==> g.status == Classified) && (!Known(d) ==> g == f)
      && (Known(d) ==> g.outcome == Guessed && (g.via == ByGiveup || g.via == BySni || g.via == ByDns))
  {
    hide HostOf, Resolved, After;
  }

  lemma GivenAnyway(c: Credits, f: Flow)
    ensures Given(c, f.(ndpi := None)) == Given(c, f)
  {
  }

  lemma GivenToMl(c: Credits, f: Flow)
    requires f.via == ByMl
    ensures Given(c, f) == if f.app < APPS then c.(ml := Up(c.ml, f.app, 1)) else c
  {
  }

  lemma FirstIs(pool: seq<string>, word: string, i: nat)
    requires i < |pool| && pool[i] == word && word !in pool[..i]
    ensures IndexOf(pool, word) == i
  {
    assert forall k :: 0 <= k < i ==> pool[..i][k] == pool[k];
  }

  // ---- Sweeps --------------------------------------------------------------

  function KeysOf(calls: seq<Flow>): (r: seq<Key>)
    ensures |r| == |calls| && forall i :: 0 <= i < |r| ==> r[i] == calls[i].key
  {
    seq(|calls|, i requires 0 <= i < |calls| => calls[i].key)
  }

  // The callbacks receive the entries of the keys.
  predicate CallsFor(flows: map<Key, Flow>, order: seq<Key>, calls: seq<Flow>) {
    |order| == |calls| && forall i :: 0 <= i < |order| ==> order[i] in flows && flows[order[i]] == calls[i]
  }

  lemma WholeOrder(order: seq<Key>, calls: seq<Flow>)
    ensures order[0..] == order && calls[0..] == calls
  {
  }

  lemma SweepStep(env: Env, s: State, order: seq<Key>, calls: seq<Flow>)
    requires AllPresent(s.flows, order) && CallsFor(s.flows, order, calls) && order != []
    ensures s.flows[order[0]] == calls[0]
    ensures var t := Expire(env, s, order[0]);
      && AllPresent(t.flows, order[1..]) && CallsFor(t.flows, order[1..], calls[1..])
      && ExpireAll(env, t, order[1..]) == ExpireAll(env, s, order)
  {
    hide AppCharged, CatCharged, HandlesOf;
  }

  // A table sweep is a sweep of the model.
  lemma SweepIs(before: map<Key, Flow>, after: map<Key, Flow>, calls: seq<Flow>, now: U32)
    requires Expired(before, after, calls, now)
    requires forall k :: k in before ==> before[k].key == k
    requires forall k :: k in after ==> !EngineModel.Idle(after[k], now)
    ensures IsSweep(before, KeysOf(calls), now) && AllPresent(before, KeysOf(calls))
    ensures CallsFor(before, KeysOf(calls), calls)
    ensures after == before - (set k | k in KeysOf(calls))
  {
    hide Idle;
    var order := KeysOf(calls);
    forall k ensures k in order <==> exists c :: c in calls && c.key == k {
      if k in order {
        var i :| 0 <= i < |order| && order[i] == k;
        assert calls[i] in calls;
      }
      if c :| c in calls && c.key == k {
        var i :| 0 <= i < |calls| && calls[i] == c;
        assert order[i] == k;
      }
    }
    assert forall i :: 0 <= i < |calls| ==> calls[i] in calls;
    assert forall k :: k in before && k !in order ==> k in after && after[k] == before[k];
  }

  // What a sweep leaves of the model's state.
  lemma {:induction false} SweptState(env: Env, s: State, order: seq<Key>)
    requires AllPresent(s.flows, order)
    ensures var t := ExpireAll(env, s, order);
      t == s.(flows := s.flows - (set k | k in order), expired := t.expired, apps := t.apps, cats := t.cats,
              handles := t.handles)
    decreases |order|
  {
    hide AppCharged, CatCharged, HandlesOf;
    if order != [] {
      SweptState(env, Expire(env, s, order[0]), order[1..]);
      assert (set k | k in order) == {order[0]} + set k | k in order[1..];
    }
  }

  // Ownership determines the live allocations.
  lemma SameHandles(env: Env, s: State, handles: set<nat>)
    requires EngineRuns.Inv(env, s) && OwnedBy(s.flows, handles, s.made)
    ensures s.handles == handles
  {
    hide Ledger, EngineRuns.ContextOk, FlowsOk;
  }
}
