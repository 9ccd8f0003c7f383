/**
 Adapty webhook events: delivery is deduplicated by event id, the grant by transaction. Together
 they make the coins independent of the order and the number of deliveries.
 */
module Adapty {
  import opened Options
  import opened Keys
  import B = Billing
  import W = Wallets
  import WR = Writers
  import opened CoinTables

  /** A parsed event and the user its identifier resolves to. */
  datatype Event = Event(id: string, eventType: string, user: Option<Uuid>, vendorProduct: Option<string>,
                         transaction: Option<string>, original: Option<string>,
                         isActive: Option<bool>, accessLevel: Option<string>, willRenew: Option<bool>,
                         expires: Option<int>)

  datatype Semantics = Granting | Expiring | Noop

  datatype Status = Active | Canceled | Expired

  datatype Sub = Sub(status: Status, product: Option<string>, original: Option<string>, willRenew: Option<bool>,
                     expires: Option<int>)

  datatype State = State(seen: set<string>, subs: map<Uuid, Sub>, store: W.Store)

  /** The catalogue and the grant for products it does not price. */
  datatype Config = Config(catalogue: B.Catalogue, fallback: int)

  datatype Outcome = IgnoredEvent | Duplicate | Applied

  const GRANTING_EVENTS := {"trial_started", "subscription_started", "subscription_renewed"}
  const EXPIRING_EVENTS := {"subscription_expired", "subscription_cancelled"}
  const NOOP_EVENTS := {"subscription_renewal_cancelled", "trial_renewal_cancelled"}
  const CONDITIONAL_EVENTS := {"access_level_updated"}

  predicate Known(eventType: string) {
    eventType in GRANTING_EVENTS + EXPIRING_EVENTS + NOOP_EVENTS + CONDITIONAL_EVENTS
  }

  function Classify(e: Event): Semantics {
    if e.eventType in GRANTING_EVENTS then Granting
    else if e.eventType in EXPIRING_EVENTS then Expiring
    else if e.eventType in NOOP_EVENTS then Noop
    else if e.isActive == Some(true) && e.accessLevel == Some("premium") then Granting
    else if e.isActive == Some(false) then Expiring
    else Noop
  }

  /** The key of the paid period: transaction, else original transaction, else the event itself. */
  function Period(e: Event): string {
    if e.transaction.Some? then e.transaction.value
    else if e.original.Some? then e.original.value
    else e.id
  }

  function ProductFor(cfg: Config, e: Event): Option<B.Product> {
    if e.vendorProduct.Some? && e.vendorProduct.value != "" then B.Lookup(cfg.catalogue, e.vendorProduct.value)
    else None
  }

  function CoinsFor(cfg: Config, e: Event): int {
    var p := ProductFor(cfg, e);
    if p.Some? && p.value.coins > 0 then p.value.coins else cfg.fallback
  }

  function ActivatedSub(cfg: Config, e: Event): Sub {
    var p := ProductFor(cfg, e);
    Sub(Active, if p.Some? then Some(p.value.id) else e.vendorProduct, e.original, e.willRenew, e.expires)
  }

  function ExpiredSub(subs: map<Uuid, Sub>, u: Uuid, e: Event): Sub {
    var status := if e.eventType == "subscription_expired" then Expired else Canceled;
    if u !in subs then Sub(status, None, None, e.willRenew, None)
    else if e.willRenew.Some? then subs[u].(status := status, willRenew := e.willRenew)
    else subs[u].(status := status)
  }

  function Handled(cfg: Config, s: State, e: Event): (State, Outcome) {
    if e.user == None || !Known(e.eventType) then (s, IgnoredEvent)
    else if e.id in s.seen then (s, Duplicate)
    else
      var u := e.user.value;
      var t := s.(seen := s.seen + {e.id});
      match Classify(e)
      case Granting =>
        (t.(subs := t.subs[u := ActivatedSub(cfg, e)],
            store := W.Apply(t.store, W.AdaptyGrant(u, CoinsFor(cfg, e), Period(e))).0), Applied)
      case Expiring => (t.(subs := t.subs[u := ExpiredSub(t.subs, u, e)]), Applied)
      case Noop => (t, Applied)
  }

  function Run(cfg: Config, s: State, es: seq<Event>): State {
    if es == [] then s else Handled(cfg, Run(cfg, s, es[..|es| - 1]), es[|es| - 1]).0
  }

  // ---- in place ----

  class AdaptyDatabase {
    const coins: CoinDatabase
    var seen: set<string>
    var subs: map<Uuid, Sub>

    function View(): State
      reads this, coins
    {
      State(seen, subs, coins.View())
    }

    constructor (coins: CoinDatabase)
      ensures View() == State({}, map[], coins.View()) && this.coins == coins
    {
      this.coins := coins;
      seen := {};
      subs := map[];
    }

    method Handle(cfg: Config, e: Event) returns (r: Outcome)
      modifies this, coins
      ensures (View(), r) == Handled(cfg, old(View()), e)
    {
      if e.user == None || !Known(e.eventType) {
        return IgnoredEvent;
      }
      if e.id in seen {
        return Duplicate;
      }
      seen := seen + {e.id};
      var u := e.user.value;
      r := Applied;
      match Classify(e)
      case Granting =>
        var product := ProductFor(cfg, e);
        var productId := e.vendorProduct;
        if product.Some? {
          productId := Some(product.value.id);
        }
        subs := subs[u := Sub(Active, productId, e.original, e.willRenew, e.expires)];
        var _ := coins.GrantCoins(W.AdaptyGrant(u, CoinsFor(cfg, e), Period(e)));
      case Expiring =>
        var status := Canceled;
        if e.eventType == "subscription_expired" {
          status := Expired;
        }
        if u !in subs {
          subs := subs[u := Sub(status, None, None, e.willRenew, None)];
        } else {
          var sub := subs[u].(status := status);
          if e.willRenew.Some? {
            sub := sub.(willRenew := e.willRenew);
          }
          subs := subs[u := sub];
        }
      case Noop =>
    }
  }

  // ---- the grants of a set of events ----

  datatype Grant = Grant(period: string, user: Uuid, coins: int)

  /** The event earns coins that are not booked yet. */
  predicate Earns(cfg: Config, s: State, e: Event) {
    && IsGrant(e) && CoinsFor(cfg, e) > 0
    && e.id !in s.seen && !W.KeyTaken(s.store.ledger, AdaptyKey(Period(e)))
  }

  function GrantOf(cfg: Config, e: Event): Grant
    requires e.user.Some?
  {
    Grant(Period(e), e.user.value, CoinsFor(cfg, e))
  }

  ghost function Grants(cfg: Config, s: State, es: seq<Event>): set<Grant> {
    set e | e in es && Earns(cfg, s, e) :: GrantOf(cfg, e)
  }

  ghost function Total(gs: set<Grant>, u: Uuid): int
    decreases |gs|
  {
    if gs == {} then 0
    else
      var g :| g in gs;
      (if g.user == u then g.coins else 0) + Total(gs - {g}, u)
  }

  lemma {:induction false} TotalWithout(gs: set<Grant>, g: Grant, u: Uuid)
    requires g in gs
    ensures Total(gs, u) == (if g.user == u then g.coins else 0) + Total(gs - {g}, u)
    decreases |gs|
  {
    var h :| h in gs && Total(gs, u) == (if h.user == u then h.coins else 0) + Total(gs - {h}, u);
    if h != g {
      TotalWithout(gs - {h}, g, u);
      TotalWithout(gs - {g}, h, u);
      assert gs - {h} - {g} == gs - {g} - {h};
    }
  }

  lemma TotalWith(gs: set<Grant>, g: Grant, u: Uuid)
    requires g !in gs
    ensures Total(gs + {g}, u) == (if g.user == u then g.coins else 0) + Total(gs, u)
  {
    TotalWithout(gs + {g}, g, u);
    assert gs + {g} - {g} == gs;
  }

  predicate IsGrant(e: Event) { e.user.Some? && Known(e.eventType) && Classify(e) == Granting }

  /** An event id fixes its body, and granting events of one paid period agree on user and product. */
  ghost predicate Consistent(es: seq<Event>) {
    forall e, f :: e in es && f in es ==>
      && (e.id == f.id ==> e == f)
      && (IsGrant(e) && IsGrant(f) && Period(e) == Period(f) ==>
            e.user == f.user && e.vendorProduct == f.vendorProduct)
  }

  /** The state `t` reached from `s` holds exactly the grants `gs` on top. */
  ghost predicate Holds(s: State, t: State, gs: set<Grant>) {
    && (forall u: Uuid :: u in t.store.wallets <==> u in s.store.wallets || exists g :: g in gs && g.user == u)
    && (forall u: Uuid :: W.WalletOf(t.store, u) ==
          W.Wallet(W.Available(s.store, u) + Total(gs, u), W.Reserved(s.store, u)))
    && (forall x: W.Entry :: x in t.store.ledger <==> x in s.store.ledger || exists g :: g in gs && x == Row(g))
  }

  function Row(g: Grant): W.Entry { W.EntryOf(W.AdaptyGrant(g.user, g.coins, g.period)) }

  /** Which deliveries have been recorded. */
  ghost predicate Recorded(s: State, t: State, es: seq<Event>) {
    forall id :: id in t.seen <==>
      id in s.seen || exists e :: e in es && e.id == id && e.user.Some? && Known(e.eventType)
  }

  lemma PeriodTaken(s: State, t: State, gs: set<Grant>, period: string)
    requires Holds(s, t, gs)
    ensures W.KeyTaken(t.store.ledger, AdaptyKey(period)) <==>
            W.KeyTaken(s.store.ledger, AdaptyKey(period)) || exists g :: g in gs && g.period == period
  {
    if W.KeyTaken(t.store.ledger, AdaptyKey(period)) {
      var i :| 0 <= i < |t.store.ledger| && t.store.ledger[i].key == Some(AdaptyKey(period));
      assert t.store.ledger[i] in t.store.ledger;
    }
    if W.KeyTaken(s.store.ledger, AdaptyKey(period)) {
      var i :| 0 <= i < |s.store.ledger| && s.store.ledger[i].key == Some(AdaptyKey(period));
      assert s.store.ledger[i] in t.store.ledger;
    }
    if g :| g in gs && g.period == period {
      assert Row(g) in t.store.ledger;
    }
  }

  lemma NewGrantHolds(s: State, t: State, gs: set<Grant>, g: Grant)
    requires Holds(s, t, gs) && g !in gs && g.coins > 0
    requires !W.KeyTaken(t.store.ledger, AdaptyKey(g.period))
    ensures Holds(s, t.(store := W.Apply(t.store, W.AdaptyGrant(g.user, g.coins, g.period)).0), gs + {g})
  {
    var r := t.(store := W.Apply(t.store, W.AdaptyGrant(g.user, g.coins, g.period)).0);
    assert r.store.ledger == t.store.ledger + [Row(g)];
    forall u: Uuid ensures W.WalletOf(r.store, u) ==
          W.Wallet(W.Available(s.store, u) + Total(gs + {g}, u), W.Reserved(s.store, u)) {
      TotalWith(gs, g, u);
      assert W.WalletOf(t.store, u) == W.Wallet(W.Available(s.store, u) + Total(gs, u), W.Reserved(s.store, u));
    }
  }

  lemma GrantsOfPrefix(cfg: Config, s: State, es: seq<Event>, e: Event)
    ensures Grants(cfg, s, es + [e]) == Grants(cfg, s, es) + if Earns(cfg, s, e) then {GrantOf(cfg, e)} else {}
  {
  }

  lemma AgreeingEventsSameGrant(cfg: Config, es: seq<Event>, e: Event, f: Event)
    requires Consistent(es) && e in es && f in es && IsGrant(e) && IsGrant(f) && Period(e) == Period(f)
    ensures GrantOf(cfg, e) == GrantOf(cfg, f)
  {
    assert e.user == f.user && e.vendorProduct == f.vendorProduct;
  }

  /** Events of the run so far with the same period carry the same grant. */
  lemma SamePeriodSameGrant(cfg: Config, s: State, es: seq<Event>, e: Event)
    requires Consistent(es + [e]) && IsGrant(e)
    ensures forall g :: g in Grants(cfg, s, es) && g.period == Period(e) ==> g == GrantOf(cfg, e)
  {
    forall g | g in Grants(cfg, s, es) && g.period == Period(e) ensures g == GrantOf(cfg, e) {
      var f :| f in es && Earns(cfg, s, f) && g == GrantOf(cfg, f);
      AgreeingEventsSameGrant(cfg, es + [e], e, f);
    }
  }

  /** The event earns on top of what the run so far has booked. */
  predicate StillEarns(cfg: Config, t: State, e: Event) {
    && IsGrant(e) && CoinsFor(cfg, e) > 0 && e.id !in t.seen
    && !W.KeyTaken(t.store.ledger, AdaptyKey(Period(e)))
  }

  lemma OnlyEarningMovesCoins(cfg: Config, t: State, e: Event)
    ensures Handled(cfg, t, e).0.store ==
            if StillEarns(cfg, t, e) then W.Apply(t.store, W.AdaptyGrant(e.user.value, CoinsFor(cfg, e), Period(e))).0
            else t.store
  {
  }

  lemma RepeatedDeliveryIsBooked(cfg: Config, s: State, es: seq<Event>, e: Event)
    requires Consistent(es + [e]) && Recorded(s, Run(cfg, s, es), es)
    requires Earns(cfg, s, e) && e.id in Run(cfg, s, es).seen
    ensures GrantOf(cfg, e) in Grants(cfg, s, es)
  {
    var f :| f in es && f.id == e.id;
    assert f in es + [e] && e in es + [e];
  }

  /** What earns relative to the start either earns now or is already among the grants. */
  lemma EarningIsNewOrBooked(cfg: Config, s: State, es: seq<Event>, e: Event)
    requires Consistent(es + [e])
    requires Holds(s, Run(cfg, s, es), Grants(cfg, s, es)) && Recorded(s, Run(cfg, s, es), es)
    ensures StillEarns(cfg, Run(cfg, s, es), e) <==> Earns(cfg, s, e) && GrantOf(cfg, e) !in Grants(cfg, s, es)
  {
    var t, gs := Run(cfg, s, es), Grants(cfg, s, es);
    assert e in es + [e] && forall f :: f in es ==> f in es + [e];
    PeriodTaken(s, t, gs, Period(e));
    if IsGrant(e) {
      SamePeriodSameGrant(cfg, s, es, e);
    }
    if Earns(cfg, s, e) && e.id in t.seen {
      RepeatedDeliveryIsBooked(cfg, s, es, e);
    }
    if StillEarns(cfg, t, e) {
      assert e.id !in s.seen;
    }
  }

  lemma DeliveryHolds(cfg: Config, s: State, es: seq<Event>, e: Event)
    requires Consistent(es + [e])
    requires Holds(s, Run(cfg, s, es), Grants(cfg, s, es)) && Recorded(s, Run(cfg, s, es), es)
    ensures Holds(s, Handled(cfg, Run(cfg, s, es), e).0, Grants(cfg, s, es + [e]))
  {
    var t, gs := Run(cfg, s, es), Grants(cfg, s, es);
    GrantsOfPrefix(cfg, s, es, e);
    OnlyEarningMovesCoins(cfg, t, e);
    EarningIsNewOrBooked(cfg, s, es, e);
    if StillEarns(cfg, t, e) {
      NewGrantHolds(s, t, gs, GrantOf(cfg, e));
    } else {
      assert Grants(cfg, s, es + [e]) == gs;
    }
    HoldsOnlySeesTheStore(s, Handled(cfg, t, e).0, Grants(cfg, s, es + [e]));
  }

  lemma HoldsOnlySeesTheStore(s: State, t: State, gs: set<Grant>)
    ensures forall r: State :: r.store == t.store ==> (Holds(s, r, gs) <==> Holds(s, t, gs))
  {
  }

  lemma DeliveryRecorded(cfg: Config, s: State, es: seq<Event>, e: Event)
    requires Recorded(s, Run(cfg, s, es), es)
    ensures Recorded(s, Handled(cfg, Run(cfg, s, es), e).0, es + [e])
  {
    var t, r := Run(cfg, s, es), Handled(cfg, Run(cfg, s, es), e).0;
    assert forall f :: f in es + [e] <==> f in es || f == e;
    assert e.user.Some? && Known(e.eventType) ==> e.id in r.seen;
  }

  /** After any deliveries the books show exactly the grants of the set of delivered events. */
  lemma {:induction false} RunHoldsItsGrants(cfg: Config, s: State, es: seq<Event>)
    requires Consistent(es)
    ensures Holds(s, Run(cfg, s, es), Grants(cfg, s, es))
    ensures Recorded(s, Run(cfg, s, es), es)
  {
    if es != [] {
      var n := |es| - 1;
      assert forall e :: e in es[..n] ==> e in es;
      assert es == es[..n] + [es[n]];
      RunHoldsItsGrants(cfg, s, es[..n]);
      DeliveryHolds(cfg, s, es[..n], es[n]);
      DeliveryRecorded(cfg, s, es[..n], es[n]);
    }
  }

  /**
   Order and duplicates do not matter: two sequences with the same set of events end with the same
   wallets and the same ledger rows, and each balance has grown by the sum over distinct periods.
   */
  lemma OrderAndDuplicatesDoNotMatter(cfg: Config, s: State, es: seq<Event>, fs: seq<Event>, u: Uuid)
    requires Consistent(es) && (forall e :: e in es <==> e in fs)
    ensures Run(cfg, s, es).store.wallets == Run(cfg, s, fs).store.wallets
    ensures forall x :: x in Run(cfg, s, es).store.ledger <==> x in Run(cfg, s, fs).store.ledger
    ensures W.Available(Run(cfg, s, es).store, u) == W.Available(s.store, u) + Total(Grants(cfg, s, es), u)
  {
    RunHoldsItsGrants(cfg, s, es);
    RunHoldsItsGrants(cfg, s, fs);
    assert Grants(cfg, s, es) == Grants(cfg, s, fs);
    SameWallets(s, Run(cfg, s, es), Run(cfg, s, fs), Grants(cfg, s, es));
    assert W.WalletOf(Run(cfg, s, es).store, u)
        == W.Wallet(W.Available(s.store, u) + Total(Grants(cfg, s, es), u), W.Reserved(s.store, u));
  }

  /** The sum runs over distinct paid periods: two grants of one period are the same grant. */
  lemma OneGrantPerPeriod(cfg: Config, s: State, es: seq<Event>)
    requires Consistent(es)
    ensures forall g, h :: g in Grants(cfg, s, es) && h in Grants(cfg, s, es) && g.period == h.period ==> g == h
  {
    forall g, h | g in Grants(cfg, s, es) && h in Grants(cfg, s, es) && g.period == h.period ensures g == h {
      var e :| e in es && Earns(cfg, s, e) && g == GrantOf(cfg, e);
      var f :| f in es && Earns(cfg, s, f) && h == GrantOf(cfg, f);
      AgreeingEventsSameGrant(cfg, es, e, f);
    }
  }

  lemma SameWallets(s: State, t: State, r: State, gs: set<Grant>)
    requires Holds(s, t, gs) && Holds(s, r, gs)
    ensures t.store.wallets == r.store.wallets
  {
    assert forall u: Uuid :: u in t.store.wallets <==> u in r.store.wallets;
    forall u: Uuid | u in t.store.wallets ensures t.store.wallets[u] == r.store.wallets[u] {
      assert W.WalletOf(t.store, u) == W.WalletOf(r.store, u);
    }
  }

  // ---- access ----

  predicate Recordable(e: Event) { e.user.Some? && Known(e.eventType) }

  /** The status an event sets, if any. */
  function StatusSet(e: Event): Option<Status> {
    if !Recordable(e) || Classify(e) == Noop then None
    else if Classify(e) == Granting then Some(Active)
    else if e.eventType == "subscription_expired" then Some(Expired) else Some(Canceled)
  }

  predicate Decides(u: Uuid, e: Event) { e.user == Some(u) && StatusSet(e).Some? }

  /** Neither seen before the sequence nor recorded earlier in it. */
  predicate FirstDelivered(s: State, es: seq<Event>, n: nat)
    requires n < |es|
  {
    es[n].id !in s.seen && forall i :: 0 <= i < n && Recordable(es[i]) ==> es[i].id != es[n].id
  }

  /** Status set by the last first-delivered event that decides for `u`; else what it was. */
  function LastStatus(s: State, es: seq<Event>, u: Uuid): Option<Status> {
    if es == [] then StatusOf(s, u)
    else
      var n := |es| - 1;
      if Decides(u, es[n]) && FirstDelivered(s, es, n) then StatusSet(es[n]) else LastStatus(s, es[..n], u)
  }

  lemma {:induction false} RunRecorded(cfg: Config, s: State, es: seq<Event>)
    ensures Recorded(s, Run(cfg, s, es), es)
  {
    if es != [] {
      var n := |es| - 1;
      assert es == es[..n] + [es[n]];
      RunRecorded(cfg, s, es[..n]);
      DeliveryRecorded(cfg, s, es[..n], es[n]);
    }
  }

  lemma NewToTheRun(cfg: Config, s: State, es: seq<Event>, n: nat)
    requires n < |es|
    ensures es[n].id in Run(cfg, s, es[..n]).seen <==> !FirstDelivered(s, es, n)
  {
    RunRecorded(cfg, s, es[..n]);
    if i :| 0 <= i < n && Recordable(es[i]) && es[i].id == es[n].id {
      assert es[i] in es[..n];
    }
  }

  lemma OneEventDecides(cfg: Config, t: State, e: Event, u: Uuid)
    ensures StatusOf(Handled(cfg, t, e).0, u) ==
            if Decides(u, e) && e.id !in t.seen then StatusSet(e) else StatusOf(t, u)
  {
  }

  /** Access, unlike coins, depends on the order: the last first-delivered deciding event wins. */
  lemma {:induction false} LastFirstDeliveryDecides(cfg: Config, s: State, es: seq<Event>, u: Uuid)
    ensures StatusOf(Run(cfg, s, es), u) == LastStatus(s, es, u)
  {
    if es != [] {
      var n := |es| - 1;
      LastFirstDeliveryDecides(cfg, s, es[..n], u);
      NewToTheRun(cfg, s, es, n);
      OneEventDecides(cfg, Run(cfg, s, es[..n]), es[n], u);
    }
  }

  /** Two new deciding events of one user: the orders agree exactly when both set the same status. */
  lemma OrdersAgreeIff(cfg: Config, s: State, e: Event, f: Event, u: Uuid)
    requires Decides(u, e) && Decides(u, f) && e.id != f.id && e.id !in s.seen && f.id !in s.seen
    ensures StatusOf(Run(cfg, s, [e, f]), u) == StatusOf(Run(cfg, s, [f, e]), u) <==> StatusSet(e) == StatusSet(f)
  {
    LastFirstDeliveryDecides(cfg, s, [e, f], u);
    LastFirstDeliveryDecides(cfg, s, [f, e], u);
  }

  /** A pair for which they differ. */
  lemma AccessDependsOnOrder(cfg: Config, u: Uuid)
    ensures var start := Event("1", "subscription_started", Some(u), None, Some("t"), None, None, None, None, None);
            var stop := Event("2", "subscription_expired", Some(u), None, Some("t"), None, None, None, None, None);
            var s := State({}, map[], W.EMPTY_STORE);
            && StatusOf(Run(cfg, s, [start, stop]), u) == Some(Expired)
            && StatusOf(Run(cfg, s, [stop, start]), u) == Some(Active)
  {
    var start := Event("1", "subscription_started", Some(u), None, Some("t"), None, None, None, None, None);
    var stop := Event("2", "subscription_expired", Some(u), None, Some("t"), None, None, None, None, None);
    var s := State({}, map[], W.EMPTY_STORE);
    RunOfTwo(cfg, s, start, stop);
    RunOfTwo(cfg, s, stop, start);
  }

  function StatusOf(s: State, u: Uuid): Option<Status> {
    if u in s.subs then Some(s.subs[u].status) else None
  }

  lemma RunOfTwo(cfg: Config, s: State, e: Event, f: Event)
    ensures Run(cfg, s, [e, f]) == Handled(cfg, Handled(cfg, s, e).0, f).0
  {
    assert [e, f][..1] == [e] && [e][..0] == [];
    assert Run(cfg, s, [e]) == Handled(cfg, s, e).0;
  }

  // ---- what one event does ----

  /** A payment, or an active premium level. */
  predicate Pays(e: Event) {
    || e.eventType == "trial_started" || e.eventType == "subscription_started" || e.eventType == "subscription_renewed"
    || (e.eventType == "access_level_updated" && e.isActive == Some(true) && e.accessLevel == Some("premium"))
  }

  predicate Ends(e: Event) {
    || e.eventType == "subscription_expired" || e.eventType == "subscription_cancelled"
    || (e.eventType == "access_level_updated" && e.isActive == Some(false))
  }

  /** Everything else that is recorded. */
  predicate Informs(e: Event) {
    || e.eventType == "subscription_renewal_cancelled" || e.eventType == "trial_renewal_cancelled"
    || (e.eventType == "access_level_updated" && !Pays(e) && !Ends(e))
  }

  /** An event is ignored exactly when its user is unknown or its type is, and a duplicate when its id was seen. */
  lemma OutcomeIff(cfg: Config, s: State, e: Event)
    ensures var (t, r) := Handled(cfg, s, e);
            && (r == IgnoredEvent <==> e.user == None || !(Pays(e) || Ends(e) || Informs(e)))
            && (r == Duplicate <==> r != IgnoredEvent && e.id in s.seen)
            && (r == Applied ==> t.seen == s.seen + {e.id})
            && (r != Applied ==> t == s)
  {
  }

  /** The catalogue's coins when the product is there and has any, else the fallback. */
  lemma CoinsIs(cfg: Config, e: Event)
    ensures CoinsFor(cfg, e) ==
            if e.vendorProduct.Some? && e.vendorProduct.value != "" && B.Lower(e.vendorProduct.value) in cfg.catalogue
               && cfg.catalogue[B.Lower(e.vendorProduct.value)].coins > 0
            then cfg.catalogue[B.Lower(e.vendorProduct.value)].coins else cfg.fallback
  {
  }

  /** `adapty-txn:` followed by the transaction when there is one, else by its original, else by the event id. */
  function PaidKey(e: Event): LedgerKey {
    match (e.transaction, e.original)
    case (Some(t), _) => AdaptyKey(t)
    case (None, Some(o)) => AdaptyKey(o)
    case (None, None) => AdaptyKey(e.id)
  }

  /** A new paying event activates its user's subscription and pays its coins once per key. */
  lemma PayingEvent(cfg: Config, s: State, e: Event, v: Uuid)
    requires e.user.Some? && Pays(e) && e.id !in s.seen
    ensures var t, u, coins := Handled(cfg, s, e).0, e.user.value, CoinsFor(cfg, e);
            && t.subs.Keys == s.subs.Keys + {u}
            && (v in t.subs ==>
                  if v != u then t.subs[v] == s.subs[v]
                  else
                    && t.subs[v].status == Active && t.subs[v].original == e.original
                    && t.subs[v].willRenew == e.willRenew && t.subs[v].expires == e.expires
                    && t.subs[v].product ==
                       if e.vendorProduct.Some? && e.vendorProduct.value != ""
                          && B.Lower(e.vendorProduct.value) in cfg.catalogue
                       then Some(cfg.catalogue[B.Lower(e.vendorProduct.value)].id) else e.vendorProduct)
            && if coins > 0 && !W.KeyTaken(s.store.ledger, PaidKey(e))
               then
                 && |t.store.ledger| == |s.store.ledger| + 1 && t.store.ledger[..|s.store.ledger|] == s.store.ledger
                 && t.store.ledger[|s.store.ledger|].key == Some(PaidKey(e))
                 && t.store.ledger[|s.store.ledger|].user == u && t.store.ledger[|s.store.ledger|].amount == coins
                 && W.WalletOf(t.store, v) ==
                    (if v == u then W.Wallet(W.Available(s.store, v) + coins, W.Reserved(s.store, v))
                     else W.WalletOf(s.store, v))
               else t.store == s.store
  {
    WR.AdaptyGrantWrites(s.store, e.user.value, CoinsFor(cfg, e), Period(e));
    assert Classify(e) == Granting && AdaptyKey(Period(e)) == PaidKey(e);
  }

  /** A new ending event sets the status and takes nothing back; without a row it makes one. */
  lemma EndingEvent(cfg: Config, s: State, e: Event, v: Uuid)
    requires e.user.Some? && Ends(e) && e.id !in s.seen
    ensures var t, u := Handled(cfg, s, e).0, e.user.value;
            var status := if e.eventType == "subscription_expired" then Expired else Canceled;
            && t.store == s.store && t.subs.Keys == s.subs.Keys + {u}
            && (v in t.subs ==>
                  t.subs[v] ==
                  if v != u then s.subs[v]
                  else if u !in s.subs then Sub(status, None, None, e.willRenew, None)
                  else Sub(status, s.subs[u].product, s.subs[u].original,
                           if e.willRenew.Some? then e.willRenew else s.subs[u].willRenew, s.subs[u].expires))
  {
    assert Classify(e) == Expiring;
  }

  lemma InformingEvent(cfg: Config, s: State, e: Event)
    requires e.user.Some? && Informs(e) && e.id !in s.seen
    ensures var t := Handled(cfg, s, e).0; t.store == s.store && t.subs == s.subs
  {
    assert Classify(e) == Noop;
  }

  /**
   Two new paying events of one user that both name a transaction: two different transactions are
   paid twice and one is paid once, whatever their original transactions are.
   */
  lemma RenewalIsPaidAgain(cfg: Config, s: State, e: Event, f: Event, u: Uuid)
    requires e.user == Some(u) && f.user == Some(u) && Pays(e) && Pays(f)
    requires e.id != f.id && e.id !in s.seen && f.id !in s.seen
    requires e.transaction.Some? && f.transaction.Some? && CoinsFor(cfg, e) > 0 && CoinsFor(cfg, f) > 0
    requires !W.KeyTaken(s.store.ledger, AdaptyKey(e.transaction.value))
    requires !W.KeyTaken(s.store.ledger, AdaptyKey(f.transaction.value))
    ensures var t := Run(cfg, s, [e, f]);
            W.Available(t.store, u) - W.Available(s.store, u) ==
            CoinsFor(cfg, e) + (if e.transaction == f.transaction then 0 else CoinsFor(cfg, f))
  {
    RunOfTwo(cfg, s, e, f);
    PayingEvent(cfg, s, e, u);
    var t := Handled(cfg, s, e).0;
    OutcomeIff(cfg, s, e);
    assert t.store.ledger == s.store.ledger + [t.store.ledger[|s.store.ledger|]];
    W.TakenAppend(s.store.ledger, t.store.ledger[|s.store.ledger|], PaidKey(f));
    PayingEvent(cfg, t, f, u);
  }
}
