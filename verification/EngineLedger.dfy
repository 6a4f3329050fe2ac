// What the daemon's counters mean, in every run: each equals a sum over the flows
// it ever created, live in the table or expired.
module EngineLedger {
  import opened Basics
  import opened Capture
  import DnsSlots
  import opened Tally
  import opened EngineModel

  // ---- Single flows --------------------------------------------------------

  predicate ViaOk(f: Flow) {
    match f.outcome
    case Direct => f.via == ByNdpi || f.via == BySni || f.via == ByDns
    case Guessed => f.via == ByGiveup || f.via == BySni || f.via == ByDns
    case Learned => f.via == ByMl
    case _ => f.via == NoMethod
  }

  // Decisions other than nDPI's own need the whole packet budget.
  predicate NeedsBudget(o: Outcome) {
    o == Guessed || o == Learned || o == Exhausted || o == Silent
  }

  predicate FlowOk(f: Flow) {
    && f.pktCount == f.packets <= MAX_CLASSIFY_PKTS
    && |f.samples| <= f.pktCount && f.ml == MlStats.Run(f.samples)
    && (f.status == New <==> f.outcome == Undecided)
    && (f.status == Classified <==> IsClassified(f.outcome))
    && (IsClassified(f.outcome) <==> f.app != 0)
    && ViaOk(f)
    && (f.outcome == Undecided ==> f.pktCount < MAX_CLASSIFY_PKTS)
    && (NeedsBudget(f.outcome) ==> f.pktCount == MAX_CLASSIFY_PKTS)
    && (f.ndpi.Some? ==> f.outcome == Undecided || f.outcome == Silent)
  }

  ghost predicate FlowsOk(s: State) {
    && (forall k :: k in s.flows ==> s.flows[k].key == k && FlowOk(s.flows[k]))
    && (forall i :: 0 <= i < |s.expired| ==> FlowOk(s.expired[i]))
  }

  lemma RelabelledOk(env: Env, c: Context, f: Flow, src: Source)
    requires InCache(src) && f.app != 0
    ensures var g := Relabelled(env, c, f, src);
      && g.app != 0 && (g.via == f.via || g.via == BySni || g.via == ByDns)
      && g == f.(app := g.app, via := g.via)
  {
    hide Resolved;
  }

  lemma DirectOk(env: Env, c: Context, f: Flow, d: Detection, now: U32)
    requires Known(d)
    ensures var g := DirectVerdict(env, c, f, d, now).0;
      && g.app != 0 && g.outcome == Direct && g.status == Classified && ViaOk(g)
      && (g.key, g.pktCount, g.packets, g.bytes, g.ml, g.samples, g.ndpi, g.firstSeen, g.lastSeen)
         == (f.key, f.pktCount, f.packets, f.bytes, f.ml, f.samples, f.ndpi, f.firstSeen, f.lastSeen)
  {
    hide Relabelled, Resolved, After, HostOf;
    var g := Claimed(f, d, ByNdpi);
    RelabelledOk(env, c, g, HostOf(c.cache, g, now));
  }

  // The generic class is never a label.
  lemma ChoiceIsSpecific(env: Env, cache: DnsSlots.Slots, f: Flow, score: U16, now: U32)
    ensures MlChoice(env, cache, f, score, now) != NDPI_APP_MCP
  {
    hide HostOf;
  }

  lemma LastResortOk(env: Env, c: Context, f: Flow, o: Oracle, mlEnabled: bool, now: U32)
    requires f.status == New && f.outcome == Undecided && f.app == 0 && f.via == NoMethod
    ensures var g := LastResort(env, c, f, o, mlEnabled, now).0;
      && (g.outcome == Guessed || g.outcome == Learned || g.outcome == Exhausted) && ViaOk(g)
      && (g.app != 0 <==> g.outcome != Exhausted)
      && (g.outcome == Learned ==> g.app != 307)
      && g.status == (if g.outcome == Exhausted then GaveUp else Classified)
      && (g.key, g.pktCount, g.packets, g.bytes, g.ml, g.samples, g.ndpi, g.firstSeen, g.lastSeen)
         == (f.key, f.pktCount, f.packets, f.bytes, f.ml, f.samples, f.ndpi, f.firstSeen, f.lastSeen)
  {
    hide Relabelled, Resolved, After, HostOf, MlChoice;
    if Known(o.guess) {
      var g := Claimed(f, o.guess, ByGiveup);
      RelabelledOk(env, c, g, HostOf(c.cache, g, now));
    }
    var (g, c') := Guess(env, c, f, o.guess, now);
    ChoiceIsSpecific(env, c'.cache, g, o.ml, now);
  }

  // A judged flow is sound, and everything about its packets is simply counted.
  lemma JudgeOk(env: Env, s: State, f: Flow, e: Event, o: Oracle, now: U32)
    requires FlowOk(f) && f.status == New
    ensures var g := Judge(env, s, f, e, o, now).flow;
      FlowOk(g) && g.key == f.key && g.packets == f.packets + 1 && g.bytes == f.bytes + e.pktLen
  {
    hide DirectVerdict, LastResort, MlStats.Run, MlStats.Add;
    if HasPayload(e) && (f.ndpi.Some? || o.ndpiOk) {
      var h := Scanned(f, s.made, e.pktLen, now);
      MlStats.RunMore(f.samples, MlStats.Sample(e.pktLen, now));
      var c := Context(s.cache, s.pool);
      if Known(o.det) {
        DirectOk(env, c, h, o.det, now);
      } else if h.pktCount >= MAX_CLASSIFY_PKTS {
        LastResortOk(env, c, h, o, s.mlEnabled, now);
      }
    }
  }

  // ---- Sums over every flow ever created -----------------------------------

  ghost function Ever(s: State, w: Flow -> nat): nat {
    Total(s.flows, w) + Sum(s.expired, w)
  }

  function Each(): Flow -> nat {
    (f: Flow) => 1
  }

  function With(o: Outcome): Flow -> nat {
    (f: Flow) => One(f.outcome == o)
  }

  function Classifieds(): Flow -> nat {
    (f: Flow) => One(IsClassified(f.outcome))
  }

  function GivenUps(): Flow -> nat {
    (f: Flow) => One(IsGivenUp(f.outcome))
  }

  // Flows whose final credit is (via, a).
  function Credited(via: Method, a: nat): Flow -> nat {
    (f: Flow) => One(IsClassified(f.outcome) && f.via == via && f.app == a)
  }

  datatype Quantity = Bytes | Packets | Flows

  function Amount(q: Quantity, f: Flow): nat {
    match q
    case Bytes => f.bytes
    case Packets => f.packets
    case Flows => 1
  }

  // Decisions that are charged when they are made.
  predicate Final(o: Outcome) {
    o == Direct || o == Guessed || o == Learned || o == Exhausted
  }

  // What a flow added to application a (category c) at its verdict, and what it
  // adds when it expires.
  function AtVerdict(q: Quantity, a: nat): Flow -> nat {
    (f: Flow) => if Final(f.outcome) && f.app == a then Amount(q, f) else 0
  }

  function AtExpiry(q: Quantity, a: nat): Flow -> nat {
    (f: Flow) => if f.app == a then Amount(q, f) else 0
  }

  function CatAtVerdict(env: Env, q: Quantity, c: nat): Flow -> nat {
    (f: Flow) => if Final(f.outcome) && f.app < APPS && CategoryOf(env, f.app, f.sni) == c then Amount(q, f) else 0
  }

  function CatAtExpiry(env: Env, q: Quantity, c: nat): Flow -> nat {
    (f: Flow) => if f.app < APPS && CategoryOf(env, f.app, f.sni) == c then Amount(q, f) else 0
  }

  function Row(c: Credits, via: Method): AppRow
    requires via != NoMethod
  {
    match via
    case ByNdpi => c.ndpi
    case ByGiveup => c.giveup
    case BySni => c.sni
    case ByMl => c.ml
    case ByDns => c.dns
  }

  function AppColumn(t: AppTotals, q: Quantity): AppRow {
    match q
    case Bytes => t.bytes
    case Packets => t.packets
    case Flows => t.flows
  }

  function CatColumn(t: CatTotals, q: Quantity): CatRow {
    match q
    case Bytes => t.bytes
    case Packets => t.packets
    case Flows => t.flows
  }

  // The global flow counters.
  ghost predicate Counts(s: State) {
    && s.created == Ever(s, Each())
    && s.classified == Ever(s, Classifieds())
    && s.guessed == Ever(s, With(Guessed))
    && s.learned == Ever(s, With(Learned))
    && s.gaveUp == Ever(s, GivenUps())
  }

  ghost predicate AttributionAt(s: State, via: Method, a: nat)
    requires via != NoMethod && a < APPS
  {
    Row(s.credit, via)[a] == Ever(s, Credited(via, a))
  }

  // Every per-method counter counts the flows whose final credit it is.
  ghost predicate Attribution(s: State) {
    forall via, a: nat :: via != NoMethod && a < APPS ==> AttributionAt(s, via, a)
  }

  ghost predicate AppAt(s: State, q: Quantity, a: nat)
    requires a < APPS
  {
    AppColumn(s.apps, q)[a] == Ever(s, AtVerdict(q, a)) + Sum(s.expired, AtExpiry(q, a))
  }

  ghost predicate CatAt(env: Env, s: State, q: Quantity, c: nat)
    requires c < 64
  {
    CatColumn(s.cats, q)[c] == Ever(s, CatAtVerdict(env, q, c)) + Sum(s.expired, CatAtExpiry(env, q, c))
  }

  // Every application and category total is its verdict charges plus its expiry
  // charges.
  ghost predicate Totals(env: Env, s: State) {
    && (forall q, a: nat :: a < APPS ==> AppAt(s, q, a))
    && (forall q, c: nat :: c < 64 ==> CatAt(env, s, q, c))
  }

  // All applications together carry what all categories together carry.
  ghost predicate Agreement(s: State) {
    forall q :: Sum(AppColumn(s.apps, q), Plain()) == Sum(CatColumn(s.cats, q), Plain())
  }

  ghost predicate Ledger(env: Env, s: State) {
    Counts(s) && Attribution(s) && Totals(env, s) && Agreement(s)
  }

  // ---- How the sums move ---------------------------------------------------

  lemma EverUpdate(s: State, s': State, k: Key, f: Flow, w: Flow -> nat)
    requires s'.flows == s.flows[k := f] && s'.expired == s.expired
    ensures Ever(s', w) + WeightAt(s.flows, k, w) == Ever(s, w) + w(f)
  {
    TotalUpdate(s.flows, k, f, w);
  }

  lemma EverExpire(env: Env, s: State, k: Key, w: Flow -> nat)
    requires k in s.flows
    ensures Ever(Expire(env, s, k), w) == Ever(s, w)
    ensures Sum(Expire(env, s, k).expired, w) == Sum(s.expired, w) + w(s.flows[k])
  {
    hide AppCharged, CatCharged, HandlesOf, Total, Sum;
    TotalRemove(s.flows, k, w);
    SumSnoc(s.expired, s.flows[k], w);
  }

  // An entry weighs what it weighed before its time stamp; a new one is only counted.
  predicate Stamped(f: Flow, g: Flow) {
    g == f.(lastSeen := g.lastSeen)
  }

  lemma StampWeighsSame(env: Env, f: Flow, g: Flow)
    requires Stamped(f, g)
    ensures forall o :: With(o)(f) == With(o)(g)
    ensures Classifieds()(f) == Classifieds()(g) && GivenUps()(f) == GivenUps()(g)
    ensures forall via, a :: Credited(via, a)(f) == Credited(via, a)(g)
    ensures forall q, a :: AtVerdict(q, a)(f) == AtVerdict(q, a)(g)
    ensures forall q, c :: CatAtVerdict(env, q, c)(f) == CatAtVerdict(env, q, c)(g)
  {
    assert forall q :: Amount(q, f) == Amount(q, g);
  }

  lemma UndecidedWeighsNothing(env: Env, f: Flow)
    requires f.outcome == Undecided
    ensures forall o :: o != Undecided ==> With(o)(f) == 0
    ensures Classifieds()(f) == 0 && GivenUps()(f) == 0
    ensures forall via, a :: Credited(via, a)(f) == 0
    ensures forall q, a :: AtVerdict(q, a)(f) == 0
    ensures forall q, c :: CatAtVerdict(env, q, c)(f) == 0
  {
  }

  lemma EntryWeight(env: Env, s: State, k: Key, now: U32)
    ensures forall o :: o != Undecided ==> With(o)(Entry(s, k, now)) == WeightAt(s.flows, k, With(o))
    ensures Classifieds()(Entry(s, k, now)) == WeightAt(s.flows, k, Classifieds())
    ensures GivenUps()(Entry(s, k, now)) == WeightAt(s.flows, k, GivenUps())
    ensures forall via, a :: Credited(via, a)(Entry(s, k, now)) == WeightAt(s.flows, k, Credited(via, a))
    ensures forall q, a :: AtVerdict(q, a)(Entry(s, k, now)) == WeightAt(s.flows, k, AtVerdict(q, a))
    ensures forall q, c :: CatAtVerdict(env, q, c)(Entry(s, k, now)) == WeightAt(s.flows, k, CatAtVerdict(env, q, c))
  {
    if k in s.flows {
      StampWeighsSame(env, s.flows[k], Entry(s, k, now));
    } else {
      UndecidedWeighsNothing(env, Entry(s, k, now));
    }
  }

  // ---- Entering a key ------------------------------------------------------

  lemma EnteredKeepsCounts(env: Env, s: State, k: Key, now: U32)
    requires Counts(s)
    ensures Counts(Entered(s, k, now))
  {
    hide Entry;
    var s', f := Entered(s, k, now), Entry(s, k, now);
    EntryWeight(env, s, k, now);
    EverUpdate(s, s', k, f, Each());
    EverUpdate(s, s', k, f, Classifieds());
    EverUpdate(s, s', k, f, With(Guessed));
    EverUpdate(s, s', k, f, With(Learned));
    EverUpdate(s, s', k, f, GivenUps());
  }

  lemma EnteredKeepsLedger(env: Env, s: State, k: Key, now: U32)
    requires Ledger(env, s)
    ensures Ledger(env, Entered(s, k, now))
  {
    hide Entry, Ever, Counts, Agreement, Row, AppColumn, CatColumn;
    var s', f := Entered(s, k, now), Entry(s, k, now);
    EnteredKeepsCounts(env, s, k, now);
    EntryWeight(env, s, k, now);
    forall via, a: nat | via != NoMethod && a < APPS ensures AttributionAt(s', via, a) {
      assert AttributionAt(s, via, a);
      EverUpdate(s, s', k, f, Credited(via, a));
    }
    forall q, a: nat | a < APPS ensures AppAt(s', q, a) {
      assert AppAt(s, q, a);
      EverUpdate(s, s', k, f, AtVerdict(q, a));
    }
    forall q, c: nat | c < 64 ensures CatAt(env, s', q, c) {
      assert CatAt(env, s, q, c);
      EverUpdate(s, s', k, f, CatAtVerdict(env, q, c));
    }
    SameTotals(s, s');
  }

  lemma SameTotals(s: State, s': State)
    requires Agreement(s) && s'.apps == s.apps && s'.cats == s.cats
    ensures Agreement(s')
  {
  }

  // ---- Booking a decision --------------------------------------------------

  ghost predicate Decides(s: State, s': State, k: Key, f: Flow) {
    && k in s.flows && s.flows[k].outcome == Undecided && ViaOk(f)
    && s'.flows == s.flows[k := f] && s'.expired == s.expired
  }

  lemma DecidedWeight(env: Env, s: State, s': State, k: Key, f: Flow, w: Flow -> nat)
    requires Decides(s, s', k, f) && w(s.flows[k]) == 0
    ensures Ever(s', w) == Ever(s, w) + w(f)
  {
    EverUpdate(s, s', k, f, w);
  }

  lemma BookKeepsCounts(env: Env, s: State, s': State, k: Key, f: Flow)
    requires Counts(s) && Decides(s, s', k, f)
    requires s'.created == s.created && s'.classified == s.classified + One(IsClassified(f.outcome))
    requires s'.guessed == s.guessed + One(f.outcome == Guessed)
    requires s'.learned == s.learned + One(f.outcome == Learned)
    requires s'.gaveUp == s.gaveUp + One(IsGivenUp(f.outcome))
    ensures Counts(s')
  {
    UndecidedWeighsNothing(env, s.flows[k]);
    EverUpdate(s, s', k, f, Each());
    DecidedWeight(env, s, s', k, f, Classifieds());
    DecidedWeight(env, s, s', k, f, With(Guessed));
    DecidedWeight(env, s, s', k, f, With(Learned));
    DecidedWeight(env, s, s', k, f, GivenUps());
  }

  lemma BumpMoves(c: Credits, f: Flow, via: Method, a: nat)
    requires f.app < APPS && f.via != NoMethod && via != NoMethod && a < APPS
    ensures Row(Bump(c, f.via, f.app), via)[a] == Row(c, via)[a] + One(f.via == via && f.app == a)
  {
  }

  lemma BookKeepsAttribution(env: Env, s: State, s': State, k: Key, f: Flow)
    requires Attribution(s) && Decides(s, s', k, f)
    requires s'.credit == if IsClassified(f.outcome) && f.app < APPS then Bump(s.credit, f.via, f.app) else s.credit
    ensures Attribution(s')
  {
    hide Ever, Row, Bump;
    UndecidedWeighsNothing(env, s.flows[k]);
    forall via, a: nat | via != NoMethod && a < APPS ensures AttributionAt(s', via, a) {
      assert AttributionAt(s, via, a);
      DecidedWeight(env, s, s', k, f, Credited(via, a));
      if IsClassified(f.outcome) && f.app < APPS {
        BumpMoves(s.credit, f, via, a);
      }
    }
  }

  lemma AppChargeMoves(t: AppTotals, f: Flow, q: Quantity, a: nat)
    requires a < APPS
    ensures AppColumn(AppCharged(t, f), q)[a] == AppColumn(t, q)[a] + AtExpiry(q, a)(f)
  {
  }

  lemma CatChargeMoves(env: Env, t: CatTotals, f: Flow, q: Quantity, c: nat)
    requires c < 64
    ensures CatColumn(CatCharged(env, t, f), q)[c] == CatColumn(t, q)[c] + CatAtExpiry(env, q, c)(f)
  {
  }

  // Charging a flow adds the same amount to all applications and to all categories.
  lemma ChargeSums(env: Env, apps: AppTotals, cats: CatTotals, f: Flow, q: Quantity)
    ensures Sum(AppColumn(AppCharged(apps, f), q), Plain())
         == Sum(AppColumn(apps, q), Plain()) + if f.app < APPS then Amount(q, f) else 0
    ensures Sum(CatColumn(CatCharged(env, cats, f), q), Plain())
         == Sum(CatColumn(cats, q), Plain()) + if f.app < APPS then Amount(q, f) else 0
  {
    hide CategoryOf, Sum;
    if f.app < APPS {
      var n, c := Amount(q, f), CategoryOf(env, f.app, f.sni);
      SumReplace(AppColumn(apps, q), f.app, AppColumn(apps, q)[f.app] + n, Plain());
      SumReplace(CatColumn(cats, q), c, CatColumn(cats, q)[c] + n, Plain());
    }
  }

  lemma BookKeepsApps(env: Env, s: State, s': State, k: Key, f: Flow, q: Quantity, a: nat)
    requires a < APPS && AppAt(s, q, a) && Decides(s, s', k, f)
    requires s'.apps == if Verdicted(f.outcome) then AppCharged(s.apps, f) else s.apps
    ensures AppAt(s', q, a)
  {
    hide Ever, AppColumn, AppCharged;
    UndecidedWeighsNothing(env, s.flows[k]);
    DecidedWeight(env, s, s', k, f, AtVerdict(q, a));
    AppChargeMoves(s.apps, f, q, a);
  }

  lemma BookKeepsCats(env: Env, s: State, s': State, k: Key, f: Flow, q: Quantity, c: nat)
    requires c < 64 && CatAt(env, s, q, c) && Decides(s, s', k, f)
    requires s'.cats == if Verdicted(f.outcome) then CatCharged(env, s.cats, f) else s.cats
    ensures CatAt(env, s', q, c)
  {
    hide Ever, CatColumn, CatCharged, CategoryOf;
    UndecidedWeighsNothing(env, s.flows[k]);
    DecidedWeight(env, s, s', k, f, CatAtVerdict(env, q, c));
    CatChargeMoves(env, s.cats, f, q, c);
  }

  lemma BookKeepsTotals(env: Env, s: State, s': State, k: Key, f: Flow)
    requires Totals(env, s) && Agreement(s) && Decides(s, s', k, f)
    requires s'.apps == if Verdicted(f.outcome) then AppCharged(s.apps, f) else s.apps
    requires s'.cats == if Verdicted(f.outcome) then CatCharged(env, s.cats, f) else s.cats
    ensures Totals(env, s') && Agreement(s')
  {
    hide AppAt, CatAt, Decides, AppCharged, CatCharged, AppColumn, CatColumn;
    forall q, a: nat | a < APPS ensures AppAt(s', q, a) {
      BookKeepsApps(env, s, s', k, f, q, a);
    }
    forall q, c: nat | c < 64 ensures CatAt(env, s', q, c) {
      BookKeepsCats(env, s, s', k, f, q, c);
    }
    forall q ensures Sum(AppColumn(s'.apps, q), Plain()) == Sum(CatColumn(s'.cats, q), Plain()) {
      ChargeSums(env, s.apps, s.cats, f, q);
    }
  }

  lemma BookKeepsLedger(env: Env, s: State, k: Key, j: Judged)
    requires Ledger(env, s) && k in s.flows && s.flows[k].outcome == Undecided && ViaOk(j.flow)
    ensures Ledger(env, Book(env, Judging(s, k, j), j.flow))
  {
    hide Counts, Attribution, Totals, Agreement, AppCharged, CatCharged, Bump, ViaOk;
    var s' := Book(env, Judging(s, k, j), j.flow);
    BookKeepsCounts(env, s, s', k, j.flow);
    BookKeepsAttribution(env, s, s', k, j.flow);
    BookKeepsTotals(env, s, s', k, j.flow);
  }

  // ---- Expiring ------------------------------------------------------------

  lemma ExpireKeepsCounts(env: Env, s: State, k: Key)
    requires k in s.flows && Counts(s)
    ensures Counts(Expire(env, s, k))
  {
    hide Ever, AppCharged, CatCharged, HandlesOf;
    EverExpire(env, s, k, Each());
    EverExpire(env, s, k, Classifieds());
    EverExpire(env, s, k, With(Guessed));
    EverExpire(env, s, k, With(Learned));
    EverExpire(env, s, k, GivenUps());
  }

  lemma ExpireKeepsApps(env: Env, s: State, k: Key, q: Quantity, a: nat)
    requires k in s.flows && a < APPS && AppAt(s, q, a)
    ensures AppAt(Expire(env, s, k), q, a)
  {
    hide Ever, AppCharged, CatCharged, HandlesOf, AppColumn, AtVerdict, AtExpiry;
    EverExpire(env, s, k, AtVerdict(q, a));
    EverExpire(env, s, k, AtExpiry(q, a));
    AppChargeMoves(s.apps, s.flows[k], q, a);
  }

  lemma ExpireKeepsCats(env: Env, s: State, k: Key, q: Quantity, c: nat)
    requires k in s.flows && c < 64 && CatAt(env, s, q, c)
    ensures CatAt(env, Expire(env, s, k), q, c)
  {
    hide Ever, AppCharged, CatCharged, HandlesOf, CatColumn, CatAtVerdict, CatAtExpiry;
    EverExpire(env, s, k, CatAtVerdict(env, q, c));
    EverExpire(env, s, k, CatAtExpiry(env, q, c));
    CatChargeMoves(env, s.cats, s.flows[k], q, c);
  }

  lemma ExpireKeepsLedger(env: Env, s: State, k: Key)
    requires k in s.flows && Ledger(env, s)
    ensures Ledger(env, Expire(env, s, k))
  {
    hide Ever, Counts, AppCharged, CatCharged, HandlesOf, AppColumn, CatColumn, Row, AppAt, CatAt;
    var s' := Expire(env, s, k);
    ExpireKeepsCounts(env, s, k);
    forall via, a: nat | via != NoMethod && a < APPS ensures AttributionAt(s', via, a) {
      assert AttributionAt(s, via, a);
      EverExpire(env, s, k, Credited(via, a));
    }
    forall q, a: nat | a < APPS ensures AppAt(s', q, a) {
      ExpireKeepsApps(env, s, k, q, a);
    }
    forall q, c: nat | c < 64 ensures CatAt(env, s', q, c) {
      ExpireKeepsCats(env, s, k, q, c);
    }
    forall q ensures Sum(AppColumn(s'.apps, q), Plain()) == Sum(CatColumn(s'.cats, q), Plain()) {
      ChargeSums(env, s.apps, s.cats, s.flows[k], q);
    }
  }
}
