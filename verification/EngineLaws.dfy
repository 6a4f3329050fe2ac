// What one event does to the daemon, said without the functions that do it: in terms of
// packet counts, nDPI's answers, the bindings heard and plain numbers.
module EngineLaws {
  import opened Basics
  import opened Capture
  import opened DnsSlots
  import opened Labels
  import opened EngineModel
  import opened EngineLedger
  import opened EngineRuns
  import opened Ownership
  import MlStats

  // ---- The host of a flow and what it names --------------------------------

  datatype Host = NoHost | ServerName(name: string) | FromDns(name: string)

  // The server name if there is one, else the last name heard for the destination, if
  // its time is not up.
  ghost function HostNow(log: seq<Logged>, sni: string, dst: Ip, now: U32): Host {
    if sni != "" then ServerName(sni)
    else if exists j :: Live(log, j, dst, now) then
      var j :| Live(log, j, dst, now);
      FromDns(log[j].binding.name)
    else NoHost
  }

  // A name heard from DNS is first looked for among the services.
  function HostApp(env: Env, pool: Pool, host: Host): U16 {
    match host
    case NoHost => 0
    case ServerName(h) => IdIn(env.native, pool, h)
    case FromDns(h) => if env.service(h) != 0 then env.service(h) else IdIn(env.native, pool, h)
  }

  // The label of a host that is asked for its application joins the pool, unless the
  // service list answers first.
  function Asked(env: Env, pool: Pool, host: Host): Pool {
    match host
    case NoHost => pool
    case ServerName(h) => Grown(env.native, pool, h)
    case FromDns(h) => if env.service(h) != 0 then pool else Grown(env.native, pool, h)
  }

  // The server name nDPI saw replaces the old one, cut to 79 characters.
  function NewSni(was: string, said: string): string {
    if said == "" then was else if |said| <= 79 then said else said[..79]
  }

  lemma HostIsHeard(cache: Slots, log: seq<Logged>, f: Flow, now: U32)
    requires Recorded(cache, log)
    ensures match HostOf(cache, f, now)
      case Sni(h) => HostNow(log, f.sni, f.key.dst, now) == ServerName(h)
      case Cached(i, h) => HostNow(log, f.sni, f.key.dst, now) == FromDns(h) && h == cache[i].host
      case Nowhere => HostNow(log, f.sni, f.key.dst, now) == NoHost
  {
    hide Agrees, Hash, Unexpired;
    LookupIsLatestLive(cache, log, f.key.dst, now);
    forall j | Live(log, j, f.key.dst, now) ensures Capped(log[j].binding.name, 79) == log[j].binding.name {
      assert WellNamed(log[j].binding);
    }
  }

  // The memo saves asking again, but never changes what asking does to the pool.
  lemma AskedIs(env: Env, c: Context, log: seq<Logged>, f: Flow, now: U32)
    requires ContextOk(env, c) && Recorded(c.cache, log)
    ensures var src := HostOf(c.cache, f, now);
      var host := HostNow(log, f.sni, f.key.dst, now);
      && After(env, c, src).pool == Asked(env, c.pool, host)
      && Resolved(env, c, src) == HostApp(env, Asked(env, c.pool, host), host)
  {
    hide Recorded, HostNow, Rejected, CleanLabel;
    var src := HostOf(c.cache, f, now);
    HostIsHeard(c.cache, log, f, now);
    MemoIsTransparent(env, c, src);
  }

  // A flow labelled by nDPI (or its guesser): the application, or else the master
  // protocol, unless the host names one and that label has a counter. Pools are those
  // before the question.
  ghost predicate Labelled(env: Env, pool: Pool, log: seq<Logged>, f: Flow, d: Detection, via: Method, now: U32,
                           g: Flow) {
    var own := if d.app != 0 then d.app else d.master;
    var host := HostNow(log, NewSni(f.sni, d.host), f.key.dst, now);
    var named := HostApp(env, Asked(env, pool, host), host);
    && g.status == Classified && g.sni == NewSni(f.sni, d.host)
    && g.app == (if named != 0 && own < 512 then named else own)
    && g.via == (if g.app == own then via else if host.ServerName? then BySni else ByDns)
  }

  lemma RelabelledIs(env: Env, c: Context, log: seq<Logged>, f: Flow, d: Detection, via: Method, now: U32, g: Flow)
    requires ContextOk(env, c) && Recorded(c.cache, log)
    requires var claimed := Claimed(f, d, via);
      var r := Relabelled(env, c, claimed, HostOf(c.cache, claimed, now));
      g.app == r.app && g.via == r.via && g.sni == r.sni && g.status == Classified
    ensures Labelled(env, c.pool, log, f, d, via, now, g)
  {
    hide Resolved, After, HostOf, ContextOk, Recorded, HostNow, IdIn, Asked;
    var claimed := Claimed(f, d, via);
    HostIsHeard(c.cache, log, claimed, now);
    AskedIs(env, c, log, claimed, now);
  }

  // ---- The last packet of the budget ---------------------------------------

  // The model's answer; the generic class 307 stands for what the host's MCP entry says,
  // if that is specific.
  ghost function Choice(env: Env, log: seq<Logged>, sni: string, dst: Ip, score: U16, now: U32): U16 {
    if score != 307 then score
    else
      match HostNow(log, sni, dst, now)
      case NoHost => 0
      case ServerName(h) => if env.mcp(h) == 307 then 0 else env.mcp(h)
      case FromDns(h) => if env.mcp(h) == 307 then 0 else env.mcp(h)
  }

  // The model beats the guess, the guess beats giving up.
  ghost predicate FinallyDecided(env: Env, pool: Pool, log: seq<Logged>, f: Flow, o: Oracle, mlEnabled: bool, now: U32,
                                 g: Flow) {
    var guessed := o.guess.app != 0 || o.guess.master != 0;
    var sni := if guessed then NewSni(f.sni, o.guess.host) else f.sni;
    var choice := Choice(env, log, sni, f.key.dst, o.ml, now);
    if mlEnabled && choice != 0 then
      g.status == Classified && g.outcome == Learned && g.via == ByMl && g.app == choice && g.sni == sni
    else if mlEnabled && guessed then
      g.outcome == Guessed && Labelled(env, pool, log, f, o.guess, ByGiveup, now, g)
    else
      g.status == GaveUp && g.outcome == Exhausted && g.app == 0 && g.sni == f.sni
  }

  lemma ChoiceIs(env: Env, cache: Slots, log: seq<Logged>, f: Flow, score: U16, now: U32)
    requires Recorded(cache, log)
    ensures MlChoice(env, cache, f, score, now) == Choice(env, log, f.sni, f.key.dst, score, now)
  {
    hide HostOf, HostNow, Recorded;
    HostIsHeard(cache, log, f, now);
  }

  lemma GuessIs(env: Env, c: Context, log: seq<Logged>, f: Flow, d: Detection, now: U32)
    requires ContextOk(env, c) && Recorded(c.cache, log) && f.status == New
    ensures var (g, c') := Guess(env, c, f, d, now);
      && Recorded(c'.cache, log) && g.key == f.key
      && g.sni == (if d.app != 0 || d.master != 0 then NewSni(f.sni, d.host) else f.sni)
      && (d.app != 0 || d.master != 0 ==>
            && g.outcome == Guessed && Labelled(env, c.pool, log, f, d, ByGiveup, now, g)
            && c'.pool == Asked(env, c.pool, HostNow(log, NewSni(f.sni, d.host), f.key.dst, now)))
      && (d.app == 0 && d.master == 0 ==> g == f && c' == c)
  {
    hide Resolved, After, HostOf, ContextOk, Recorded, HostNow, Labelled, Asked;
    if Known(d) {
      var claimed := Claimed(f, d, ByGiveup);
      var src := HostOf(c.cache, claimed, now);
      AfterExtends(env, c, src);
      MemosKeepRecorded(c.cache, After(env, c, src).cache, log);
      RelabelledIs(env, c, log, f, d, ByGiveup, now, Guess(env, c, f, d, now).0);
      LabelledSni(env, c.pool, log, f, d, ByGiveup, now, Guess(env, c, f, d, now).0);
      AskedIs(env, c, log, claimed, now);
    }
  }

  lemma LabelledSni(env: Env, pool: Pool, log: seq<Logged>, f: Flow, d: Detection, via: Method, now: U32, g: Flow)
    requires Labelled(env, pool, log, f, d, via, now, g)
    ensures g.status == Classified && g.sni == NewSni(f.sni, d.host)
  {
  }

  lemma LastResortIs(env: Env, c: Context, log: seq<Logged>, f: Flow, o: Oracle, mlEnabled: bool, now: U32)
    requires ContextOk(env, c) && Recorded(c.cache, log) && f.status == New
    ensures var (g, c') := LastResort(env, c, f, o, mlEnabled, now);
      && FinallyDecided(env, c.pool, log, f, o, mlEnabled, now, g)
      && c'.pool ==
         if mlEnabled && (o.guess.app != 0 || o.guess.master != 0)
         then Asked(env, c.pool, HostNow(log, NewSni(f.sni, o.guess.host), f.key.dst, now)) else c.pool
  {
    hide Guess, MlChoice, ContextOk, Recorded, HostNow, Labelled, Choice, Asked;
    if mlEnabled {
      var (g, c') := Guess(env, c, f, o.guess, now);
      GuessIs(env, c, log, f, o.guess, now);
      ChoiceIs(env, c'.cache, log, g, o.ml, now);
      if o.guess.app != 0 || o.guess.master != 0 {
        LabelledSni(env, c.pool, log, f, o.guess, ByGiveup, now, g);
      }
    }
  }

  // ---- One packet of an undecided flow -------------------------------------

  // There are bytes to show to nDPI.
  predicate Speaks(e: Event) {
    e.data.Payload? && |e.data.bytes| > 0
  }

  ghost predicate JudgedWell(env: Env, pool: Pool, log: seq<Logged>, f: Flow, e: Event, o: Oracle, mlEnabled: bool,
                             now: U32, g: Flow, scanned: bool) {
    var memory := f.ndpi.Some? || o.ndpiOk;
    var eighth := f.packets + 1 >= 8;
    && g.key == f.key && g.packets == f.packets + 1 && g.bytes == f.bytes + e.pktLen
    && g.firstSeen == f.firstSeen && g.lastSeen == f.lastSeen
    && (scanned <==> Speaks(e) && memory)
    && g.samples == (if scanned then f.samples + [MlStats.Sample(e.pktLen, now)] else f.samples)
    && if !Speaks(e) then
         if eighth then g.status == GaveUp && g.outcome == Silent && g.app == 0 else g.status == New
       else if !memory then
         g.status == GaveUp && g.outcome == NoMemory && g.app == 0
       else if o.det.app != 0 || o.det.master != 0 then
         g.outcome == Direct && Labelled(env, pool, log, f, o.det, ByNdpi, now, g)
       else if eighth then
         FinallyDecided(env, pool, log, f, o, mlEnabled, now, g)
       else
         g.status == New && g.app == 0
  }

  // The pool after a packet that nDPI saw: whoever labels the flow asks for its host.
  ghost function PoolThen(env: Env, pool: Pool, log: seq<Logged>, f: Flow, o: Oracle, mlEnabled: bool, now: U32): Pool {
    if o.det.app != 0 || o.det.master != 0 then
      Asked(env, pool, HostNow(log, NewSni(f.sni, o.det.host), f.key.dst, now))
    else if f.packets + 1 >= 8 && mlEnabled && (o.guess.app != 0 || o.guess.master != 0) then
      Asked(env, pool, HostNow(log, NewSni(f.sni, o.guess.host), f.key.dst, now))
    else pool
  }

  lemma JudgeIs(env: Env, s: State, f: Flow, e: Event, o: Oracle, now: U32)
    requires FlowOk(f) && f.status == New && ContextOk(env, Context(s.cache, s.pool)) && Recorded(s.cache, s.log)
    ensures var j := Judge(env, s, f, e, o, now);
      && JudgedWell(env, s.pool, s.log, f, e, o, s.mlEnabled, now, j.flow, j.scanned)
      && j.context.pool == if j.scanned then PoolThen(env, s.pool, s.log, f, o, s.mlEnabled, now) else s.pool
  {
    hide DirectVerdict, LastResort, ContextOk, Recorded, Labelled, FinallyDecided, Asked, HostNow;
    hide MlStats.Add, MlStats.Run;
    if Speaks(e) && (f.ndpi.Some? || o.ndpiOk) {
      var c, h := Context(s.cache, s.pool), Scanned(f, s.made, e.pktLen, now);
      if Known(o.det) {
        DirectOk(env, c, h, o.det, now);
        DirectIs(env, c, s.log, f, h, o.det, now);
      } else if h.pktCount >= 8 {
        LastResortOk(env, c, h, o, s.mlEnabled, now);
        LastResortIs(env, c, s.log, h, o, s.mlEnabled, now);
        DecidedFromScanned(env, s.pool, s.log, f, h, o, s.mlEnabled, now,
                           LastResort(env, c, h, o, s.mlEnabled, now).0);
      }
    }
  }

  lemma DirectIs(env: Env, c: Context, log: seq<Logged>, f: Flow, h: Flow, d: Detection, now: U32)
    requires ContextOk(env, c) && Recorded(c.cache, log) && h.sni == f.sni && h.key == f.key
    ensures var (g, c') := DirectVerdict(env, c, h, d, now);
      && Labelled(env, c.pool, log, f, d, ByNdpi, now, g.(ndpi := None))
      && c'.pool == Asked(env, c.pool, HostNow(log, NewSni(f.sni, d.host), f.key.dst, now))
  {
    hide Resolved, After, HostOf, ContextOk, Recorded, HostNow, Relabelled, IdIn, Asked, HostApp;
    AskedIs(env, c, log, Claimed(h, d, ByNdpi), now);
    RelabelledIs(env, c, log, h, d, ByNdpi, now, DirectVerdict(env, c, h, d, now).0);
  }

  // The decision does not look at what the scan itself changed.
  lemma DecidedFromScanned(env: Env, pool: Pool, log: seq<Logged>, f: Flow, h: Flow, o: Oracle, mlEnabled: bool,
                           now: U32, g: Flow)
    requires h.sni == f.sni && h.key == f.key && FinallyDecided(env, pool, log, h, o, mlEnabled, now, g)
    ensures FinallyDecided(env, pool, log, f, o, mlEnabled, now, g.(ndpi := None))
  {
    hide HostNow, HostApp, Choice;
  }

  // ---- Charging ------------------------------------------------------------

  // The category of an override for the server name, else Web (5) for the dynamic
  // labels from 400 on, else nDPI's own.
  function ChargedCategory(env: Env, app: U16, sni: string): Category {
    if sni != "" && env.override(sni).Some? then env.override(sni).value
    else if app >= 400 then 5
    else env.base(app)
  }

  // The flow's bytes and packets and one flow are added to its application and its
  // category; nothing, if the application has no counter.
  ghost predicate Charges(env: Env, s: State, t: State, f: Flow) {
    if f.app < 512 then
      var a, c := f.app, ChargedCategory(env, f.app, f.sni);
      && t.apps.bytes == s.apps.bytes[a := s.apps.bytes[a] + f.bytes]
      && t.apps.packets == s.apps.packets[a := s.apps.packets[a] + f.packets]
      && t.apps.flows == s.apps.flows[a := s.apps.flows[a] + 1]
      && t.cats.bytes == s.cats.bytes[c := s.cats.bytes[c] + f.bytes]
      && t.cats.packets == s.cats.packets[c := s.cats.packets[c] + f.packets]
      && t.cats.flows == s.cats.flows[c := s.cats.flows[c] + 1]
    else t.apps == s.apps && t.cats == s.cats
  }

  lemma ChargesIs(env: Env, s: State, t: State, f: Flow)
    requires t.apps == AppCharged(s.apps, f) && t.cats == CatCharged(env, s.cats, f)
    ensures Charges(env, s, t, f)
  {
  }

  // A flow that leaves the table is charged, whatever became of it.
  lemma ExpiredIsCharged(env: Env, s: State, k: Key)
    requires k in s.flows
    ensures var t := Expire(env, s, k);
      && Charges(env, s, t, s.flows[k])
      && t.flows == s.flows - {k} && t.expired == s.expired + [s.flows[k]]
      && t.classified == s.classified && t.gaveUp == s.gaveUp && t.credit == s.credit
  {
    hide AppCharged, CatCharged, Charges, HandlesOf;
    ChargesIs(env, s, Expire(env, s, k), s.flows[k]);
  }

  // ---- One event -----------------------------------------------------------

  function Fresh(k: Key, now: U32): Flow {
    Flow(k, New, 0, 0, NoMethod, Undecided, 0, 0, now, now, "", None, MlStats.BLANK, [])
  }

  // The entry as the packet finds it, stamped with the time.
  function Found(s: State, k: Key, now: U32): Flow {
    if k in s.flows then s.flows[k].(lastSeen := now) else Fresh(k, now)
  }

  // An entry that was decided before is only stamped; the packet counts as cached.
  lemma DecidedTakes(env: Env, s: State, e: Event, o: Oracle, now: U32)
    requires e.key in s.flows && s.flows[e.key].status != New
    ensures var (t, verdict) := Process(env, s, e, o, now);
      && verdict == None
      && t == s.(flows := s.flows[e.key := s.flows[e.key].(lastSeen := now)], cached := s.cached + 1,
                 cache := t.cache, log := t.log)
  {
    hide Judge, Book, InsertAll, Stamp, Bindings;
  }

  // Without memory for an entry the packet is only counted as refused.
  lemma RefusedTakes(env: Env, s: State, e: Event, o: Oracle, now: U32)
    requires e.key !in s.flows && !o.entryOk
    ensures var (t, verdict) := Process(env, s, e, o, now);
      && verdict == None && t == s.(refused := s.refused + 1, cache := t.cache, log := t.log)
  {
    hide Judge, Book, InsertAll, Stamp, Bindings;
  }

  predicate TakesPacket(s: State, e: Event, o: Oracle) {
    if e.key in s.flows then s.flows[e.key].status == New else o.entryOk
  }

  // What is counted of a judged flow, and what is written back for it.
  ghost predicate CountedWell(env: Env, s: State, t: State, e: Event, verdict: Option<U16>, g: Flow) {
    var silent, starved := g.outcome == Silent, g.outcome == NoMemory;
    && t.classified == s.classified + (if g.status == Classified then 1 else 0)
    && t.gaveUp == s.gaveUp + (if g.status == GaveUp then 1 else 0)
    && t.guessed == s.guessed + (if g.outcome == Guessed then 1 else 0)
    && t.learned == s.learned + (if g.outcome == Learned then 1 else 0)
    && verdict == (if g.status == New || starved then None else Some(g.app))
    && if g.status == New || silent || starved then t.apps == s.apps && t.cats == s.cats
       else Charges(env, s, t, g)
  }

  lemma BookIs(env: Env, s: State, g: Flow, e: Event)
    requires FlowOk(g)
    ensures CountedWell(env, s, Book(env, s, g), e, VerdictOf(g), g)
  {
    hide AppCharged, CatCharged, Charges, Bump, MlStats.Run;
    if Verdicted(g.outcome) {
      ChargesIs(env, s, Book(env, s, g), g);
    }
  }

  // An undecided entry, or a new one, takes the packet; no other entry changes.
  lemma UndecidedTakes(env: Env, s: State, e: Event, o: Oracle, now: U32)
    requires Inv(env, s) && TakesPacket(s, e, o)
    ensures var (t, verdict) := Process(env, s, e, o, now);
      && e.key in t.flows && t.flows == s.flows[e.key := t.flows[e.key]]
      && t.expired == s.expired && t.refused == s.refused && t.cached == s.cached
      && t.created == s.created + (if e.key in s.flows then 0 else 1)
      && var g, was := t.flows[e.key], Found(s, e.key, now);
      && t.scanned - s.scanned == t.calls - s.calls
      && (t.scanned == s.scanned || t.scanned == s.scanned + 1)
      && JudgedWell(env, s.pool, t.log, was, e, o, s.mlEnabled, now, g, t.scanned != s.scanned)
      && t.pool == (if t.scanned != s.scanned then PoolThen(env, s.pool, t.log, was, o, s.mlEnabled, now) else s.pool)
      && CountedWell(env, s, t, e, verdict, g)
  {
    hide Inv, Judge, Book, FlowOk, InsertAll, Stamp, Bindings, JudgedWell, Charges, PoolThen;
    var h := Heard(s, e, o, now);
    HeardKeepsInv(env, s, e, o, now);
    EnteredKeepsInv(env, h, e.key, now);
    var t := Entered(h, e.key, now);
    var f := t.flows[e.key];
    assert f == Found(s, e.key, now);
    EntryIsSound(env, t, e.key);
    var j := Judge(env, t, f, e, o, now);
    JudgeIs(env, t, f, e, o, now);
    JudgeOk(env, t, f, e, o, now);
    var b := Judging(t, e.key, j);
    BookIs(env, b, j.flow, e);
    BookKeepsRest(env, b, j.flow);
    BookKeepsCounts(env, b, j.flow);
    assert s.flows[e.key := f][e.key := j.flow] == s.flows[e.key := j.flow];
    SameCounts(env, s, b, Book(env, b, j.flow), e, VerdictOf(j.flow), j.flow);
  }

  lemma EntryIsSound(env: Env, s: State, k: Key)
    requires Inv(env, s) && k in s.flows
    ensures FlowOk(s.flows[k]) && ContextOk(env, Context(s.cache, s.pool)) && Recorded(s.cache, s.log)
  {
    hide Ledger, FlowOk, ContextOk, Recorded, OwnedBy;
  }

  lemma BookKeepsCounts(env: Env, s: State, f: Flow)
    ensures var b := Book(env, s, f);
      b.scanned == s.scanned && b.calls == s.calls && b.cached == s.cached && b.refused == s.refused
      && b.created == s.created
  {
  }

  lemma SameCounts(env: Env, s: State, b: State, t: State, e: Event, verdict: Option<U16>, g: Flow)
    requires CountedWell(env, b, t, e, verdict, g) && b.classified == s.classified && b.gaveUp == s.gaveUp
    requires b.guessed == s.guessed && b.learned == s.learned && b.apps == s.apps && b.cats == s.cats
    ensures CountedWell(env, s, t, e, verdict, g)
  {
  }

  // ---- Time stamps and sweeps ----------------------------------------------

  // After an event its key's entry bears its time; every other entry is as it was.
  lemma ProcessStamps(env: Env, s: State, e: Event, o: Oracle, now: U32)
    requires Inv(env, s)
    ensures var t := Process(env, s, e, o, now).0;
      && (e.key in t.flows ==> t.flows[e.key].lastSeen == now)
      && (e.key in s.flows ==> e.key in t.flows)
      && (forall k :: k != e.key ==> (k in t.flows <==> k in s.flows))
      && (forall k :: k != e.key && k in s.flows ==> t.flows[k] == s.flows[k])
  {
    hide Inv, Process, Charges, Labelled, FinallyDecided;
    if TakesPacket(s, e, o) {
      UndecidedTakes(env, s, e, o, now);
    } else if e.key in s.flows {
      DecidedTakes(env, s, e, o, now);
    } else {
      RefusedTakes(env, s, e, o, now);
    }
  }

  lemma {:induction false} SweepTakes(env: Env, s: State, order: seq<Key>, k: Key)
    requires AllPresent(s.flows, order)
    ensures var t := ExpireAll(env, s, order);
      && (k in t.flows <==> k in s.flows && k !in order)
      && (k in t.flows ==> t.flows[k] == s.flows[k])
    decreases |order|
  {
    hide AppCharged, CatCharged, HandlesOf;
    if order != [] {
      SweepTakes(env, Expire(env, s, order[0]), order[1..], k);
    }
  }

  // When a key had its last event.
  function LastEvent(steps: seq<EngineRuns.Step>, k: Key): Option<U32>
    decreases |steps|
  {
    if steps == [] then None
    else
      var last := steps[|steps| - 1];
      if last.Packet? && last.e.key == k then Some(last.now) else LastEvent(steps[..|steps| - 1], k)
  }

  // In every run an entry's time stamp is the time of the last event of its key.
  lemma {:induction false} StampIsLastEvent(env: Env, mlEnabled: bool, steps: seq<EngineRuns.Step>, k: Key)
    ensures var s := EngineRuns.Run(env, EngineModel.Start(mlEnabled), steps);
      k in s.flows ==> LastEvent(steps, k) == Some(s.flows[k].lastSeen)
    decreases |steps|
  {
    hide Inv, Process, ExpireAll;
    if steps != [] {
      var init := steps[..|steps| - 1];
      var u := EngineRuns.Run(env, EngineModel.Start(mlEnabled), init);
      StampIsLastEvent(env, mlEnabled, init, k);
      EngineRuns.StartHolds(env, mlEnabled);
      EngineRuns.RunKeepsInv(env, EngineModel.Start(mlEnabled), init);
      match steps[|steps| - 1]
      case Packet(e, o, now) => ProcessStamps(env, u, e, o, now);
      case Sweep(order, now) =>
        if IsSweep(u.flows, order, now) {
          SweepTakes(env, u, order, k);
        }
    }
  }

  // Seconds a flow may be silent.
  function Patience(k: Key): nat {
    if k.proto == 6 then 300 else 30
  }

  // In every run a sweep takes exactly the entries whose key had its last event more
  // than 300 seconds ago, for TCP, or 30 seconds for all others.
  lemma SweepTakesTheSilent(env: Env, mlEnabled: bool, steps: seq<EngineRuns.Step>, order: seq<Key>, now: U32, k: Key)
    requires var s := EngineRuns.Run(env, EngineModel.Start(mlEnabled), steps);
      k in s.flows && IsSweep(s.flows, order, now)
    ensures var s := EngineRuns.Run(env, EngineModel.Start(mlEnabled), steps);
      var t := ExpireAll(env, s, order);
      && LastEvent(steps, k).Some?
      && (k in t.flows <==> now as int - LastEvent(steps, k).value as int <= Patience(k))
      && (k in t.flows ==> t.flows[k] == s.flows[k])
  {
    hide Ledger, OwnedBy, ContextOk, Recorded, FlowOk, EngineRuns.Run, ExpireAll, LastEvent;
    var s := EngineRuns.Run(env, EngineModel.Start(mlEnabled), steps);
    StampIsLastEvent(env, mlEnabled, steps, k);
    EngineRuns.StartHolds(env, mlEnabled);
    EngineRuns.RunKeepsInv(env, EngineModel.Start(mlEnabled), steps);
    SweepTakes(env, s, order, k);
  }
}
