// What ndpi_engine_process and ndpi_engine_age (daemon/ndpi_engine.c) do to the
// daemon's state, as functions on values. nDPI's answers, the ML score and memory
// are oracles; host matching is a pure function of the host name. A flow is first
// judged on its own; the counters then record only the judgement that stands.
module EngineModel {
  import opened Basics
  import opened Capture
  import opened DnsParser
  import opened DnsSlots
  import opened Labels
  import opened MlStats

  type Category = c: nat | c < 64
  type AppRow = s: seq<nat> | |s| == APPS witness seq(APPS, _ => 0)
  type CatRow = s: seq<nat> | |s| == 64 witness seq(64, _ => 0)
  type Pool = p: seq<string> | |p| <= POOL_SIZE witness []

  const WEB: Category := 5
  const NDPI_APP_MCP: U16 := 307
  const SNI_CAP: nat := 79

  // Host and application lookups: nDPI's host database (0 for nothing specific),
  // the service table, the MCP table, category overrides, nDPI's categories.
  datatype Env = Env(
    native: string -> U16, service: string -> U16, mcp: string -> U16,
    override: string -> Option<Category>, base: U16 -> Category)

  datatype Status = New | Classified | GaveUp
  datatype Method = NoMethod | ByNdpi | ByGiveup | BySni | ByMl | ByDns

  // How a flow was decided; like the packets scanned for it (`samples`), kept for
  // the statements only.
  datatype Outcome = Undecided | Direct | Guessed | Learned | Exhausted | Silent | NoMemory

  datatype Flow = Flow(
    key: Key, status: Status, pktCount: nat, app: U16, via: Method, outcome: Outcome,
    bytes: nat, packets: nat, firstSeen: U32, lastSeen: U32, sni: string, ndpi: Option<nat>,
    ml: Acc, samples: seq<Sample>)

  // One column per counter array.
  datatype Credits = Credits(ndpi: AppRow, giveup: AppRow, sni: AppRow, ml: AppRow, dns: AppRow)
  datatype AppTotals = AppTotals(bytes: AppRow, packets: AppRow, flows: AppRow)
  datatype CatTotals = CatTotals(bytes: CatRow, packets: CatRow, flows: CatRow)

  // `expired`, `refused` (entries that could not be allocated) and `log` (every
  // insert into the address cache) are history.
  datatype State = State(
    flows: map<Key, Flow>, expired: seq<Flow>, created: nat, refused: nat,
    scanned: nat, calls: nat, cached: nat,
    classified: nat, guessed: nat, learned: nat, gaveUp: nat,
    mlEnabled: bool, cache: Slots, log: seq<Logged>, pool: Pool,
    credit: Credits, apps: AppTotals, cats: CatTotals,
    handles: set<nat>, made: nat)

  datatype Detection = Detection(app: U16, master: U16, host: string)

  // Everything the daemon cannot foresee about one event; `slack` is what lies in
  // the event's ring slot when no payload was captured.
  datatype Oracle = Oracle(
    entryOk: bool, ndpiOk: bool, slack: seq<Byte>, det: Detection, guess: Detection, ml: U16)

  // ---- Hosts ---------------------------------------------------------------

  datatype Source = Sni(host: string) | Cached(slot: nat, host: string) | Nowhere

  datatype Context = Context(cache: Slots, pool: Pool)

  predicate InCache(src: Source) {
    src.Cached? ==> src.slot < SIZE
  }

  function HostOf(cache: Slots, f: Flow, now: U32): (src: Source)
    ensures InCache(src)
  {
    if f.sni != "" then Sni(f.sni)
    else
      match Lookup(cache, f.key.dst, now)
      case Some(i) => Cached(i, cache[i].host)
      case None => Nowhere
  }

  // The application a host name stands for in a pool that does not grow.
  function Recomputed(env: Env, pool: Pool, host: string): U16 {
    if env.service(host) != 0 then env.service(host) else IdIn(env.native, pool, host)
  }

  function Resolved(env: Env, c: Context, src: Source): U16
    requires InCache(src)
  {
    match src
    case Sni(h) => IdIn(env.native, Grown(env.native, c.pool, h), h)
    case Cached(i, h) =>
      if c.cache[i].app != 0 then c.cache[i].app
      else if env.service(h) != 0 then env.service(h)
      else IdIn(env.native, Grown(env.native, c.pool, h), h)
    case Nowhere => 0
  }

  // Resolving may add a label and memoises the answer in the cache slot.
  function After(env: Env, c: Context, src: Source): Context
    requires InCache(src)
  {
    match src
    case Sni(h) => c.(pool := Grown(env.native, c.pool, h))
    case Cached(i, h) =>
      Context(
        c.cache[i := c.cache[i].(app := Resolved(env, c, src))],
        if c.cache[i].app != 0 || env.service(h) != 0 then c.pool else Grown(env.native, c.pool, h))
    case Nowhere => c
  }

  // nDPI's label gives way to the one the host name stands for.
  function Relabelled(env: Env, c: Context, f: Flow, src: Source): Flow
    requires InCache(src)
  {
    var id := Resolved(env, c, src);
    if id != 0 && id != f.app && f.app < APPS
    then f.(app := id, via := if src.Cached? then ByDns else BySni)
    else f
  }

  // ---- Judging a flow ------------------------------------------------------

  predicate Known(d: Detection) {
    d.app != 0 || d.master != 0
  }

  // The flow as nDPI (or its guesser) labels it, and the server name it saw.
  function Claimed(f: Flow, d: Detection, via: Method): Flow {
    f.(app := if d.app != 0 then d.app else d.master, via := via,
       sni := if d.host != "" then Capped(d.host, SNI_CAP) else f.sni)
  }

  // The generic MCP class counts only when the host names a service.
  function MlChoice(env: Env, cache: Slots, f: Flow, score: U16, now: U32): U16 {
    if score != NDPI_APP_MCP then score
    else
      var src := HostOf(cache, f, now);
      if src.Nowhere? || env.mcp(src.host) == NDPI_APP_MCP then 0 else env.mcp(src.host)
  }

  function DirectVerdict(env: Env, c: Context, f: Flow, d: Detection, now: U32): (Flow, Context) {
    var g := Claimed(f, d, ByNdpi);
    var src := HostOf(c.cache, g, now);
    (Relabelled(env, c, g, src).(status := Classified, outcome := Direct), After(env, c, src))
  }

  function Guess(env: Env, c: Context, f: Flow, d: Detection, now: U32): (Flow, Context) {
    if Known(d) then
      var g := Claimed(f, d, ByGiveup);
      var src := HostOf(c.cache, g, now);
      (Relabelled(env, c, g, src).(status := Classified, outcome := Guessed), After(env, c, src))
    else (f, c)
  }

  // The decision forced by the last packet of the budget.
  function LastResort(env: Env, c: Context, f: Flow, o: Oracle, mlEnabled: bool, now: U32): (Flow, Context) {
    if !mlEnabled then (f.(app := 0, status := GaveUp, outcome := Exhausted), c)
    else
      var (g, c') := Guess(env, c, f, o.guess, now);
      var choice := MlChoice(env, c'.cache, g, o.ml, now);
      if choice != 0 then (g.(app := choice, via := ByMl, status := Classified, outcome := Learned), c')
      else if g.status == Classified then (g, c')
      else (f.(app := 0, status := GaveUp, outcome := Exhausted), c')
  }

  predicate HasPayload(e: Event) {
    e.data.Payload? && e.data.bytes != []
  }

  function Received(f: Flow, len: U16): Flow {
    f.(pktCount := f.pktCount + 1, bytes := f.bytes + len, packets := f.packets + 1)
  }

  // The flow as it is handed to nDPI, with state on its first payload.
  function Scanned(f: Flow, made: nat, len: U16, now: U32): Flow {
    Received(f, len).(
      ndpi := if f.ndpi.None? then Some(made) else f.ndpi,
      ml := Add(f.ml, Sample(len, now)), samples := f.samples + [Sample(len, now)])
  }

  datatype Judged = Judged(flow: Flow, context: Context, handles: set<nat>, made: nat, scanned: bool)

  // nDPI state is allocated on the first payload and freed with the decision.
  function Judge(env: Env, s: State, f: Flow, e: Event, o: Oracle, now: U32): Judged {
    var c := Context(s.cache, s.pool);
    var g := Received(f, e.pktLen);
    if !HasPayload(e) then
      var silent := g.pktCount >= MAX_CLASSIFY_PKTS;
      Judged(if silent then g.(app := 0, status := GaveUp, outcome := Silent) else g, c, s.handles, s.made, false)
    else if f.ndpi.None? && !o.ndpiOk then
      Judged(g.(status := GaveUp, outcome := NoMemory), c, s.handles, s.made, false)
    else
      var h := Scanned(f, s.made, e.pktLen, now);
      var made := if f.ndpi.None? then s.made + 1 else s.made;
      var handles := s.handles + {h.ndpi.value};
      if Known(o.det) then
        var (d, c') := DirectVerdict(env, c, h, o.det, now);
        Judged(d.(ndpi := None), c', handles - {h.ndpi.value}, made, true)
      else if h.pktCount >= MAX_CLASSIFY_PKTS then
        var (d, c') := LastResort(env, c, h, o, s.mlEnabled, now);
        Judged(d.(ndpi := None), c', handles - {h.ndpi.value}, made, true)
      else Judged(h, c, handles, made, true)
  }

  // Decisions that reach the end of the function; the other two return early.
  predicate Verdicted(o: Outcome) {
    o == Direct || o == Guessed || o == Learned || o == Exhausted
  }

  function VerdictOf(f: Flow): Option<U16> {
    if Verdicted(f.outcome) || f.outcome == Silent then Some(f.app) else None
  }

  // ---- Counting ------------------------------------------------------------

  function CategoryOf(env: Env, app: U16, sni: string): Category {
    if sni != "" && env.override(sni).Some? then env.override(sni).value
    else if app >= FIRST_DYNAMIC then WEB
    else env.base(app)
  }

  function Up(row: seq<nat>, i: nat, n: nat): (r: seq<nat>)
    requires i < |row|
    ensures |r| == |row|
  {
    row[i := row[i] + n]
  }

  // One more flow credited to a method.
  function Bump(c: Credits, via: Method, app: nat): Credits
    requires app < APPS
  {
    match via
    case NoMethod => c
    case ByNdpi => c.(ndpi := Up(c.ndpi, app, 1))
    case ByGiveup => c.(giveup := Up(c.giveup, app, 1))
    case BySni => c.(sni := Up(c.sni, app, 1))
    case ByMl => c.(ml := Up(c.ml, app, 1))
    case ByDns => c.(dns := Up(c.dns, app, 1))
  }

  function AppCharged(t: AppTotals, f: Flow): AppTotals {
    if f.app >= APPS then t
    else AppTotals(Up(t.bytes, f.app, f.bytes), Up(t.packets, f.app, f.packets), Up(t.flows, f.app, 1))
  }

  function CatCharged(env: Env, t: CatTotals, f: Flow): CatTotals {
    if f.app >= APPS then t
    else
      var c := CategoryOf(env, f.app, f.sni);
      CatTotals(Up(t.bytes, c, f.bytes), Up(t.packets, c, f.packets), Up(t.flows, c, 1))
  }

  function One(b: bool): nat {
    if b then 1 else 0
  }

  predicate IsClassified(o: Outcome) {
    o == Direct || o == Guessed || o == Learned
  }

  predicate IsGivenUp(o: Outcome) {
    o == Exhausted || o == Silent || o == NoMemory
  }

  // The counters once an undecided flow has become f.
  function Book(env: Env, s: State, f: Flow): State {
    s.(classified := s.classified + One(IsClassified(f.outcome)),
       guessed := s.guessed + One(f.outcome == Guessed),
       learned := s.learned + One(f.outcome == Learned),
       gaveUp := s.gaveUp + One(IsGivenUp(f.outcome)),
       credit := if IsClassified(f.outcome) && f.app < APPS then Bump(s.credit, f.via, f.app) else s.credit,
       apps := if Verdicted(f.outcome) then AppCharged(s.apps, f) else s.apps,
       cats := if Verdicted(f.outcome) then CatCharged(env, s.cats, f) else s.cats)
  }

  // ---- One event -----------------------------------------------------------

  function NewFlow(k: Key, now: U32): Flow {
    Flow(k, New, 0, 0, NoMethod, Undecided, 0, 0, now, now, "", None, BLANK, [])
  }

  predicate IsDns(k: Key) {
    k.proto == IPPROTO_UDP && PortNumber(k.sport) == 53
  }

  // An event without payload still has its ring slot parsed, whatever lies there.
  function Bindings(e: Event, o: Oracle): seq<Binding> {
    Parse(if e.data.Payload? then e.data.bytes else o.slack)
  }

  function Heard(s: State, e: Event, o: Oracle, now: U32): State {
    if IsDns(e.key)
    then s.(cache := InsertAll(s.cache, Bindings(e, o), now), log := s.log + Stamp(Bindings(e, o), now))
    else s
  }

  // The entry for a key, created if need be and stamped with the clock.
  function Entry(s: State, k: Key, now: U32): Flow {
    (if k in s.flows then s.flows[k] else NewFlow(k, now)).(lastSeen := now)
  }

  function Entered(s: State, k: Key, now: U32): State {
    s.(flows := s.flows[k := Entry(s, k, now)], created := s.created + One(k !in s.flows))
  }

  function Judging(s: State, k: Key, j: Judged): State {
    s.(flows := s.flows[k := j.flow], cache := j.context.cache, pool := j.context.pool,
       handles := j.handles, made := j.made,
       scanned := s.scanned + One(j.scanned), calls := s.calls + One(j.scanned))
  }

  function ProcessEntry(env: Env, s: State, e: Event, o: Oracle, now: U32): (State, Option<U16>)
    requires e.key in s.flows
  {
    var f := s.flows[e.key];
    if f.status != New then (s.(cached := s.cached + 1), None)
    else
      var j := Judge(env, s, f, e, o, now);
      (Book(env, Judging(s, e.key, j), j.flow), VerdictOf(j.flow))
  }

  // The state after one event and the verdict written back, if any.
  function Process(env: Env, s: State, e: Event, o: Oracle, now: U32): (State, Option<U16>) {
    var h := Heard(s, e, o, now);
    if e.key !in h.flows && !o.entryOk then (h.(refused := h.refused + 1), None)
    else ProcessEntry(env, Entered(h, e.key, now), e, o, now)
  }

  // ---- Ageing --------------------------------------------------------------

  const TCP_IDLE: nat := 300
  const UDP_IDLE: nat := 30

  predicate Idle(f: Flow, now: U32) {
    now as int - f.lastSeen as int > if f.key.proto == IPPROTO_TCP then TCP_IDLE else UDP_IDLE
  }

  function HandlesOf(f: Flow): set<nat> {
    if f.ndpi.Some? then {f.ndpi.value} else {}
  }

  // A flow that leaves the table is charged once more, decided or not.
  function Expire(env: Env, s: State, k: Key): State
    requires k in s.flows
  {
    var f := s.flows[k];
    s.(flows := s.flows - {k}, expired := s.expired + [f],
       apps := AppCharged(s.apps, f), cats := CatCharged(env, s.cats, f),
       handles := s.handles - HandlesOf(f))
  }

  // The keys of a sweep, in the order of the callbacks.
  ghost predicate IsSweep(flows: map<Key, Flow>, order: seq<Key>, now: U32) {
    && (forall i, j :: 0 <= i < j < |order| ==> order[i] != order[j])
    && (forall k :: k in order <==> k in flows && Idle(flows[k], now))
  }

  predicate AllPresent(flows: map<Key, Flow>, order: seq<Key>) {
    && (forall i :: 0 <= i < |order| ==> order[i] in flows)
    && (forall i, j :: 0 <= i < j < |order| ==> order[i] != order[j])
  }

  function ExpireAll(env: Env, s: State, order: seq<Key>): State
    requires AllPresent(s.flows, order)
    decreases |order|
  {
    if order == [] then s else ExpireAll(env, Expire(env, s, order[0]), order[1..])
  }

  // The table is emptied without callbacks.
  function Destroyed(s: State): State {
    s.(flows := map[], handles := s.handles - set k, h | k in s.flows && h in HandlesOf(s.flows[k]) :: h)
  }

  const NO_APPS: AppRow := seq(APPS, _ => 0)
  const NO_CATS: CatRow := seq(64, _ => 0)

  function Start(mlEnabled: bool): State {
    State(map[], [], 0, 0, 0, 0, 0, 0, 0, 0, 0, mlEnabled, seq(SIZE, _ => EMPTY_SLOT), [], [],
          Credits(NO_APPS, NO_APPS, NO_APPS, NO_APPS, NO_APPS), AppTotals(NO_APPS, NO_APPS, NO_APPS),
          CatTotals(NO_CATS, NO_CATS, NO_CATS), {}, 0)
  }
}
