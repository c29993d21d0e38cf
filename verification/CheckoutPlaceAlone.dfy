/** A place with nothing in between, in three parts: opening (lock, store, billing),
    gating (lines, prices, stock) and recording (mint, arm, commit). */
module CheckoutPlaceAlone {
  import opened StorefrontTypes
  import Availability
  import Pricing
  import Text
  import opened CheckoutState
  import opened CheckoutSteps
  import opened CheckoutInvariants
  import opened CheckoutAlone
  import opened CheckoutOrigins

  function PlaceAlone(around: Surroundings, tab: Tables, a: PlaceArgs): Effect {
    Alone(around, Effect(tab, Idle(NotStarted)), PlaceSteps(PlaceActs(a)))
  }

  // ── the three parts ───────────────────────────────────────────────────────

  datatype Opening = Opening(row: Cart, country: Option<string>, bill: Billing)

  /** The pinned store's country, read only for a pickup cart. */
  function StoreCountry(around: Surroundings, row: Cart): Result<Option<string>, Refusal> {
    if row.mode != Pickup then Ok(None)
    else if row.pin == None || row.pin.value !in around.locations || !around.locations[row.pin.value].active then
      Err(PickupLocationNotFound)
    else if around.locations[row.pin.value].country == None then Err(PickupCountryMissing)
    else Ok(around.locations[row.pin.value].country)
  }

  function PlaceBilling(tab: Tables, row: Cart, a: PlaceArgs): Result<Billing, Refusal> {
    if a.billing == None then
      if row.party == None then Err(BillingRequired) else Ok(Billing(row.party.value, None, false))
    else
      var key := Key(a.company, NormalizeEmail(a.billing.value));
      if !ValidEmail(key.email) then Err(InvalidEmail) else Ok(ResolveBilling(tab, key, a.minted))
  }

  function OpenPlace(around: Surroundings, tab: Tables, a: PlaceArgs): Result<Opening, Refusal> {
    if a.cart !in tab.carts || tab.carts[a.cart].state != Open then Err(CartNotFound)
    else if a.lane == OnSite && tab.carts[a.cart].mode != Pickup then Err(PickupModeRequired)
    else
      var row := tab.carts[a.cart];
      var country := StoreCountry(around, row);
      if country.Err? then Err(country.error)
      else
        var bill := PlaceBilling(tab, row, a);
        if bill.Err? then Err(bill.error) else Ok(Opening(row, country.value, bill.value))
  }

  /** The order lines of a basket every check lets through. */
  function GateBasket(around: Surroundings, cart: Id, row: Cart): Result<seq<OrderLine>, Refusal> {
    var lines, prices := LinesOf(around, cart), AtWebsite(around.prices, row.website);
    if lines == [] then Err(EmptyCart)
    else if !Pricing.AllPriceable(prices, lines) then Err(PublishGateRefused)
    else
      var stock := StockIn(around, ScopeOf(around, row.mode, row.pin));
      var verdict := GateVerdict(stock, AtWebsite(around.policies, row.website), lines);
      if verdict.Err? then Err(StockRefused(verdict.error)) else Ok(Pricing.MintLines(prices, lines))
  }

  function Birth(a: PlaceArgs): SessionState {
    if a.lane == OnSite then PendingPickup else if a.total == 0.0 then ConfirmedFree else PendingPayment
  }

  /** The tables once the order is minted and the lane has armed. */
  function Armed(tab: Tables, a: PlaceArgs, o: Opening, items: seq<OrderLine>): Tables {
    var order := Order(a.checkout, o.bill.party, o.row.carrier, o.row.coupon, o.country, items, a.total, Draft);
    var minted := tab.(orders := tab.orders[a.order := order]);
    match Birth(a)
    case ConfirmedFree => ConfirmOrder(minted, a.order, ByFreePlace(a.checkout))
    case PendingPayment =>
      minted.(gateways := tab.gateways[a.gateway := GatewayRow(a.checkout, o.bill.party, a.total, 0.0, a.total, false)])
    case PendingPickup => minted
    case Settled => minted
    case Failed => minted
    case Cancelled => minted
  }

  /** The outer commit. */
  function Recorded(tab: Tables, a: PlaceArgs, o: Opening): Effect {
    var gateway := if Birth(a) == PendingPayment then Some(a.gateway) else None;
    var session := Session(a.cart, o.row.website, Some(a.order), gateway, a.total, Birth(a), PickupPin(o.row));
    if a.total < 0.0 then Finish(tab, Refused(AmountRefused))
    else
      Finish(CommitBilling(RecordSession(tab, a.checkout, session, PlacedRow(o.row, o.bill)), o.bill),
             CheckedOut(a.checkout, a.lane, o.bill.key, o.bill.party))
  }

  /** The parts in order: a refusal by one of the first two ends the place with the
      tables untouched, one by the commit leaves what the mint and the lane committed. */
  function PlacedAlone(around: Surroundings, tab: Tables, a: PlaceArgs): Effect {
    var o := OpenPlace(around, tab, a);
    if o.Err? then Finish(tab, Refused(o.error))
    else
      var items := GateBasket(around, a.cart, o.value.row);
      if items.Err? then Finish(tab, Refused(items.error))
      else Recorded(Armed(tab, a, o.value, items.value), a, o.value)
  }

  // ── the parts are the steps ───────────────────────────────────────────────

  function CallOf(a: PlaceArgs, country: Option<string>): PlaceCall {
    PlaceCall(a.company, a.lane, a.billing, country)
  }

  function StoredAt(tab: Tables, a: PlaceArgs, row: Cart, country: Option<string>): Effect {
    Effect(tab, Proc(Some(Hold(a.cart, row)), None, None, PlaceStored(CallOf(a, country))))
  }

  function MissedAt(tab: Tables, a: PlaceArgs, row: Cart, country: Option<string>, key: Key): Effect {
    Effect(tab, Proc(Some(Hold(a.cart, row)), None, None, PlaceMissed(CallOf(a, country), key)))
  }

  function OpenedAt(tab: Tables, a: PlaceArgs, o: Opening): Effect {
    Effect(tab, Proc(Some(Hold(a.cart, o.row)), Some(o.bill), None, PlaceBilled(CallOf(a, o.country))))
  }

  function GatedAt(tab: Tables, a: PlaceArgs, o: Opening, lines: seq<CartLine>, items: seq<OrderLine>,
                   policy: map<Id, bool>): Effect
  {
    Effect(tab, Proc(Some(Hold(a.cart, o.row)), Some(o.bill), None, PlaceGated(CallOf(a, o.country), lines, items, policy)))
  }

  lemma LockIs(around: Surroundings, tab: Tables, a: PlaceArgs)
    ensures var acts := PlaceActs(a);
      var locked := PlaceLockCart(tab, a.company, a.cart, a.lane, a.billing);
      PlaceAlone(around, tab, a) == Alone(around, locked, PlaceSteps(acts)[1..])
  {
    var acts := PlaceActs(a);
    assert PlaceSteps(acts)[0..] == PlaceSteps(acts);
    AdvancePlace(around, Effect(tab, Idle(NotStarted)), acts, 0);
  }

  lemma StoreIs(around: Surroundings, tab: Tables, a: PlaceArgs, row: Cart)
    ensures var acts := PlaceActs(a);
      var locked := Effect(tab, Proc(Some(Hold(a.cart, row)), None, None, PlaceLocked(CallOf(a, None))));
      Alone(around, locked, PlaceSteps(acts)[1..])
      == if StoreCountry(around, row).Err? then Finish(tab, Refused(StoreCountry(around, row).error))
         else Alone(around, StoredAt(tab, a, row, StoreCountry(around, row).value), PlaceSteps(acts)[2..])
  {
    var acts := PlaceActs(a);
    var locked := Effect(tab, Proc(Some(Hold(a.cart, row)), None, None, PlaceLocked(CallOf(a, None))));
    AdvancePlace(around, locked, acts, 1);
    var next := PlaceReadStore(around, tab, locked.proc);
    if next.proc.at.Done? { FinishedStays(around, next, PlaceSteps(acts)[2..]); }
  }

  lemma InsertingIs(around: Surroundings, tab: Tables, a: PlaceArgs, row: Cart, country: Option<string>, key: Key)
    requires key !in tab.parties
    ensures var acts := PlaceActs(a);
      Alone(around, MissedAt(tab, a, row, country, key), PlaceSteps(acts)[3..])
      == Alone(around, OpenedAt(tab, a, Opening(row, country, Billing(a.minted, Some(key), true))), PlaceSteps(acts)[4..])
  {
    AdvancePlace(around, MissedAt(tab, a, row, country, key), PlaceActs(a), 3);
  }

  /** The map lookup refuses, misses with the key still free, or resolves. */
  lemma ReadMapIs(tab: Tables, a: PlaceArgs, row: Cart, country: Option<string>)
    ensures var next := PlaceReadMap(tab, StoredAt(tab, a, row, country).proc); var bill := PlaceBilling(tab, row, a);
      if bill.Err? then next == Finish(tab, Refused(bill.error))
      else if bill.value.inserts then
        bill.value.key.Some? && bill.value.key.value !in tab.parties
        && bill.value == Billing(a.minted, bill.value.key, true)
        && next == MissedAt(tab, a, row, country, bill.value.key.value)
      else next == OpenedAt(tab, a, Opening(row, country, bill.value))
  {}

  lemma BillingIs(around: Surroundings, tab: Tables, a: PlaceArgs, row: Cart, country: Option<string>)
    ensures var acts := PlaceActs(a);
      Alone(around, StoredAt(tab, a, row, country), PlaceSteps(acts)[2..])
      == if PlaceBilling(tab, row, a).Err? then Finish(tab, Refused(PlaceBilling(tab, row, a).error))
         else Alone(around, OpenedAt(tab, a, Opening(row, country, PlaceBilling(tab, row, a).value)),
                    PlaceSteps(acts)[4..])
  {
    var acts := PlaceActs(a);
    var bill := PlaceBilling(tab, row, a);
    AdvancePlace(around, StoredAt(tab, a, row, country), acts, 2);
    ReadMapIs(tab, a, row, country);
    if bill.Err? {
      FinishedStays(around, Finish(tab, Refused(bill.error)), PlaceSteps(acts)[3..]);
    } else if bill.value.inserts {
      InsertingIs(around, tab, a, row, country, bill.value.key.value);
    } else {
      PassPlace(around, OpenedAt(tab, a, Opening(row, country, bill.value)), acts, 3);
    }
  }

  /** Under the lock and billed, at a later point. */
  function HeldAt(tab: Tables, a: PlaceArgs, o: Opening, at: Point): Effect {
    Effect(tab, Proc(Some(Hold(a.cart, o.row)), Some(o.bill), None, at))
  }

  lemma LinesIs(around: Surroundings, tab: Tables, a: PlaceArgs, o: Opening)
    ensures var acts, lines, call := PlaceActs(a), LinesOf(around, a.cart), CallOf(a, o.country);
      Alone(around, HeldAt(tab, a, o, PlaceBilled(call)), PlaceSteps(acts)[4..])
      == if lines == [] then Finish(tab, Refused(EmptyCart))
         else Alone(around, HeldAt(tab, a, o, PlaceSnapped(call, lines)), PlaceSteps(acts)[5..])
  {
    var acts := PlaceActs(a);
    var billed := HeldAt(tab, a, o, PlaceBilled(CallOf(a, o.country)));
    AdvancePlace(around, billed, acts, 4);
    if LinesOf(around, a.cart) == [] {
      FinishedStays(around, Finish(tab, Refused(EmptyCart)), PlaceSteps(acts)[5..]);
    }
  }

  lemma PricesIs(around: Surroundings, tab: Tables, a: PlaceArgs, o: Opening, lines: seq<CartLine>)
    ensures var acts, call := PlaceActs(a), CallOf(a, o.country); var prices := AtWebsite(around.prices, o.row.website);
      Alone(around, HeldAt(tab, a, o, PlaceSnapped(call, lines)), PlaceSteps(acts)[5..])
      == if !Pricing.AllPriceable(prices, lines) then Finish(tab, Refused(PublishGateRefused))
         else Alone(around, HeldAt(tab, a, o, PlacePriced(call, lines, Pricing.MintLines(prices, lines))),
                    PlaceSteps(acts)[6..])
  {
    var acts := PlaceActs(a);
    AdvancePlace(around, HeldAt(tab, a, o, PlaceSnapped(CallOf(a, o.country), lines)), acts, 5);
    if !Pricing.AllPriceable(AtWebsite(around.prices, o.row.website), lines) {
      FinishedStays(around, Finish(tab, Refused(PublishGateRefused)), PlaceSteps(acts)[6..]);
    }
  }

  lemma PolicyIs(around: Surroundings, tab: Tables, a: PlaceArgs, o: Opening, lines: seq<CartLine>,
                 items: seq<OrderLine>)
    ensures var acts, call := PlaceActs(a), CallOf(a, o.country);
      var policy := AtWebsite(around.policies, o.row.website);
      Alone(around, HeldAt(tab, a, o, PlacePriced(call, lines, items)), PlaceSteps(acts)[6..])
      == Alone(around, HeldAt(tab, a, o, PlacePolicied(call, lines, items, policy)), PlaceSteps(acts)[7..])
  {
    AdvancePlace(around, HeldAt(tab, a, o, PlacePriced(CallOf(a, o.country), lines, items)), PlaceActs(a), 6);
  }

  lemma StockIs(around: Surroundings, tab: Tables, a: PlaceArgs, o: Opening, lines: seq<CartLine>,
                items: seq<OrderLine>, policy: map<Id, bool>)
    ensures var acts, call := PlaceActs(a), CallOf(a, o.country);
      var verdict := GateVerdict(StockIn(around, ScopeOf(around, o.row.mode, o.row.pin)), policy, lines);
      Alone(around, HeldAt(tab, a, o, PlacePolicied(call, lines, items, policy)), PlaceSteps(acts)[7..])
      == if verdict.Err? then Finish(tab, Refused(StockRefused(verdict.error)))
         else Alone(around, HeldAt(tab, a, o, PlaceGated(call, lines, items, policy)), PlaceSteps(acts)[8..])
  {
    var acts := PlaceActs(a);
    var verdict := GateVerdict(StockIn(around, ScopeOf(around, o.row.mode, o.row.pin)), policy, lines);
    AdvancePlace(around, HeldAt(tab, a, o, PlacePolicied(CallOf(a, o.country), lines, items, policy)), acts, 7);
    if verdict.Err? {
      FinishedStays(around, Finish(tab, Refused(StockRefused(verdict.error))), PlaceSteps(acts)[8..]);
    }
  }

  lemma GatingIs(around: Surroundings, tab: Tables, a: PlaceArgs, o: Opening)
    ensures var acts := PlaceActs(a); var lines := LinesOf(around, a.cart);
      var policy := AtWebsite(around.policies, o.row.website);
      Alone(around, OpenedAt(tab, a, o), PlaceSteps(acts)[4..])
      == if GateBasket(around, a.cart, o.row).Err? then Finish(tab, Refused(GateBasket(around, a.cart, o.row).error))
         else Alone(around, GatedAt(tab, a, o, lines, GateBasket(around, a.cart, o.row).value, policy),
                    PlaceSteps(acts)[8..])
  {
    var lines, prices := LinesOf(around, a.cart), AtWebsite(around.prices, o.row.website);
    LinesIs(around, tab, a, o);
    if lines != [] {
      PricesIs(around, tab, a, o, lines);
      if Pricing.AllPriceable(prices, lines) {
        var items := Pricing.MintLines(prices, lines);
        PolicyIs(around, tab, a, o, lines, items);
        StockIs(around, tab, a, o, lines, items, AtWebsite(around.policies, o.row.website));
      }
    }
  }

  function MintedTables(tab: Tables, a: PlaceArgs, o: Opening, items: seq<OrderLine>): Tables {
    tab.(orders := tab.orders[a.order := Order(a.checkout, o.bill.party, o.row.carrier, o.row.coupon, o.country,
                                               items, a.total, Draft)])
  }

  function TotalledAt(tab: Tables, a: PlaceArgs, o: Opening): Effect {
    Effect(tab, Proc(Some(Hold(a.cart, o.row)), Some(o.bill), Some(Draw(a.checkout, a.order)),
                     PlaceTotalled(CallOf(a, o.country), a.total)))
  }

  lemma MintingIs(around: Surroundings, tab: Tables, a: PlaceArgs, o: Opening, lines: seq<CartLine>,
                  items: seq<OrderLine>, policy: map<Id, bool>)
    requires Undrawn(tab, a)
    ensures Alone(around, GatedAt(tab, a, o, lines, items, policy), PlaceSteps(PlaceActs(a))[8..])
            == Alone(around, TotalledAt(MintedTables(tab, a, o, items), a, o), PlaceSteps(PlaceActs(a))[10..])
  {
    var acts := PlaceActs(a);
    var gated := GatedAt(tab, a, o, lines, items, policy);
    AdvancePlace(around, gated, acts, 8);
    var minted := PlaceMint(tab, gated.proc, a.checkout, a.order, a.total);
    assert minted.tab == MintedTables(tab, a, o, items);
    AdvancePlace(around, minted, acts, 9);
  }

  lemma ArmingIs(around: Surroundings, tab: Tables, a: PlaceArgs, o: Opening)
    requires a.gateway !in tab.gateways && a.order in tab.orders && tab.orders[a.order].status == Draft
    ensures var armed := PlaceArm(tab, TotalledAt(tab, a, o).proc, a.gateway);
      armed.proc.hold.Some? && armed.proc.bill.Some? && armed.proc.draw.Some? && armed.proc.at.PlaceArmed?
      && Alone(around, TotalledAt(tab, a, o), PlaceSteps(PlaceActs(a))[10..]) == PlaceCommit(armed.tab, armed.proc)
  {
    var acts := PlaceActs(a);
    var totalled := TotalledAt(tab, a, o);
    AdvancePlace(around, totalled, acts, 10);
    var armed := PlaceArm(totalled.tab, totalled.proc, a.gateway);
    AdvancePlace(around, armed, acts, 11);
    assert PlaceSteps(acts)[12..] == [];
  }

  lemma ArmedAndRecorded(tab: Tables, a: PlaceArgs, o: Opening, items: seq<OrderLine>)
    ensures var armed := PlaceArm(MintedTables(tab, a, o, items), TotalledAt(tab, a, o).proc, a.gateway);
      armed.proc.hold.Some? && armed.proc.bill.Some? && armed.proc.draw.Some? && armed.proc.at.PlaceArmed?
      && PlaceCommit(armed.tab, armed.proc) == Recorded(Armed(tab, a, o, items), a, o)
  {
    var armed := PlaceArm(MintedTables(tab, a, o, items), TotalledAt(tab, a, o).proc, a.gateway);
    assert armed.tab == Armed(tab, a, o, items);
  }

  lemma RecordingIs(around: Surroundings, tab: Tables, a: PlaceArgs, o: Opening, lines: seq<CartLine>,
                    items: seq<OrderLine>, policy: map<Id, bool>)
    requires Undrawn(tab, a)
    ensures Alone(around, GatedAt(tab, a, o, lines, items, policy), PlaceSteps(PlaceActs(a))[8..])
            == Recorded(Armed(tab, a, o, items), a, o)
  {
    MintingIs(around, tab, a, o, lines, items, policy);
    ArmingIs(around, MintedTables(tab, a, o, items), a, o);
    ArmedAndRecorded(tab, a, o, items);
  }

  /** The twelve steps of a place run alone are its three parts in order. */
  lemma PlaceAloneIs(around: Surroundings, tab: Tables, a: PlaceArgs)
    requires Undrawn(tab, a)
    ensures PlaceAlone(around, tab, a) == PlacedAlone(around, tab, a)
  {
    LockIs(around, tab, a);
    var locked := PlaceLockCart(tab, a.company, a.cart, a.lane, a.billing);
    if locked.proc.at.Done? {
      FinishedStays(around, locked, PlaceSteps(PlaceActs(a))[1..]);
    } else {
      var row := tab.carts[a.cart];
      StoreIs(around, tab, a, row);
      if StoreCountry(around, row).Ok? {
        BillingIs(around, tab, a, row, StoreCountry(around, row).value);
        if PlaceBilling(tab, row, a).Ok? {
          var o := Opening(row, StoreCountry(around, row).value, PlaceBilling(tab, row, a).value);
          GatingIs(around, tab, a, o);
          if GateBasket(around, a.cart, row).Ok? {
            RecordingIs(around, tab, a, o, LinesOf(around, a.cart), GateBasket(around, a.cart, row).value,
                        AtWebsite(around.policies, row.website));
          }
        }
      }
    }
  }

  // ── when a place checks out ───────────────────────────────────────────────

  predicate StoreReady(around: Surroundings, row: Cart) {
    row.mode == Pickup ==>
      row.pin.Some? && row.pin.value in around.locations && around.locations[row.pin.value].active
      && around.locations[row.pin.value].country.Some?
  }

  predicate BillingReady(row: Cart, a: PlaceArgs) {
    if a.billing.Some? then '@' in Text.Lower(Text.Trim(a.billing.value)) else row.party.Some?
  }

  predicate BasketReady(around: Surroundings, cart: Id, row: Cart) {
    cart in around.lines && around.lines[cart] != []
    && forall k | 0 <= k < |around.lines[cart]| :: LineReady(around, row, around.lines[cart][k])
  }

  /** Priced on the website, and backorder-allowed there or carried where the cart is
      served from. */
  predicate LineReady(around: Surroundings, row: Cart, line: CartLine) {
    && row.website in around.prices && line.item in around.prices[row.website]
    && (MayBackorder(around.policies, row.website, line.item)
        || (if row.mode == Pickup && row.pin.Some? && row.pin.value in around.locations
            then CarriedIn(around.stock, around.locations[row.pin.value].warehouse, line)
            else CarriedIn(around.stock, None, line)))
  }

  lemma BasketReadyIff(around: Surroundings, cart: Id, row: Cart)
    ensures GateBasket(around, cart, row).Ok? <==> BasketReady(around, cart, row)
    ensures GateBasket(around, cart, row).Err? ==> GateBasket(around, cart, row).error != AmountRefused
  {
    var lines, policy := LinesOf(around, cart), AtWebsite(around.policies, row.website);
    var scope := if row.mode == Pickup && row.pin.Some? && row.pin.value in around.locations
                 then around.locations[row.pin.value].warehouse else None;
    GatePassesIff(StockIn(around, ScopeOf(around, row.mode, row.pin)), policy, lines);
    CoveredInScope(around, row.mode, row.pin, scope, policy, lines);
    forall k | 0 <= k < |lines| ensures LineReady(around, row, lines[k])
      <==> Pricing.Priceable(AtWebsite(around.prices, row.website), lines[k])
           && (Backordered(policy, lines[k]) || CarriedIn(around.stock, scope, lines[k])) {}
  }

  predicate OpeningReady(around: Surroundings, tab: Tables, a: PlaceArgs) {
    a.cart in tab.carts && tab.carts[a.cart].state == Open
    && (a.lane == OnSite ==> tab.carts[a.cart].mode == Pickup)
    && StoreReady(around, tab.carts[a.cart]) && BillingReady(tab.carts[a.cart], a)
  }

  lemma OpeningReadyIff(around: Surroundings, tab: Tables, a: PlaceArgs)
    ensures var o := OpenPlace(around, tab, a);
      && (o.Ok? <==> OpeningReady(around, tab, a))
      && (o.Ok? ==> o.value.row == tab.carts[a.cart])
      && (o.Err? ==> o.error != AmountRefused)
  {}

  /** What a place that got past its gates leaves. */
  lemma RecordedOutcome(tab: Tables, a: PlaceArgs, o: Opening, items: seq<OrderLine>)
    ensures var e := Recorded(Armed(tab, a, o, items), a, o);
      && e.proc == Idle(e.proc.at) && e.proc.at.Done?
      && (a.total >= 0.0 ==> e.proc.at.outcome.CheckedOut?)
      && (a.total < 0.0 ==>
            e.proc.at.outcome == Refused(AmountRefused)
            && a.order in e.tab.orders && e.tab.orders[a.order].status == Draft
            && e.tab.carts == tab.carts && e.tab.sessions == tab.sessions && e.tab.parties == tab.parties)
  {}

  /** A place with nothing in between checks out exactly when the cart is open, the
      on-site lane has a pickup cart, a pickup cart's store is live with a country,
      billing is at hand, and every line of a non-empty basket is priced on the
      website and covered by stock, and the minted total is not negative. It refuses
      otherwise: with no table changed, or, for a negative total, with the order and
      gateway row already committed and no session, cart or map row touched. */
  lemma PlaceAloneChecksOutIff(around: Surroundings, tab: Tables, a: PlaceArgs)
    requires Undrawn(tab, a)
    ensures var e := PlaceAlone(around, tab, a);
      && e.proc.at.Done? && e.proc == Idle(e.proc.at)
      && (e.proc.at.outcome.CheckedOut? <==>
            OpeningReady(around, tab, a) && BasketReady(around, a.cart, tab.carts[a.cart]) && a.total >= 0.0)
      && (!e.proc.at.outcome.CheckedOut? ==> e.proc.at.outcome.Refused?)
      && (e.proc.at.outcome.Refused? && e.proc.at.outcome.why != AmountRefused ==> e.tab == tab)
      && (e.proc.at.outcome == Refused(AmountRefused) ==>
            a.total < 0.0 && a.order in e.tab.orders && e.tab.orders[a.order].status == Draft
            && e.tab.carts == tab.carts && e.tab.sessions == tab.sessions && e.tab.parties == tab.parties)
  {
    PlaceAloneIs(around, tab, a);
    OpeningReadyIff(around, tab, a);
    var o := OpenPlace(around, tab, a);
    if o.Ok? {
      BasketReadyIff(around, a.cart, o.value.row);
      var items := GateBasket(around, a.cart, o.value.row);
      if items.Ok? { RecordedOutcome(tab, a, o.value, items.value); }
    }
  }

  /** The first line not covered where the cart is served from, and the refusal for it. */
  ghost predicate ShortAt(around: Surroundings, row: Cart, lines: seq<CartLine>, k: nat, why: Refusal) {
    && k < |lines| && !LineReady(around, row, lines[k])
    && (forall j | 0 <= j < k :: LineReady(around, row, lines[j]))
    && var scope := if row.mode == Pickup && row.pin.Some? && row.pin.value in around.locations
                    then around.locations[row.pin.value].warehouse else None;
    why == StockRefused(
      if scope in around.stock && lines[k].item in around.stock[scope]
      then Availability.Insufficient(lines[k].item, lines[k].quantity, around.stock[scope][lines[k].item])
      else Availability.PortRefused("availability_port_incomplete"))
  }

  lemma BasketRefuses(around: Surroundings, cart: Id, row: Cart)
    requires GateBasket(around, cart, row).Err?
    ensures var why := GateBasket(around, cart, row).error;
      if cart !in around.lines || around.lines[cart] == [] then why == EmptyCart
      else if exists k | 0 <= k < |around.lines[cart]| ::
                row.website !in around.prices || around.lines[cart][k].item !in around.prices[row.website] then
        why == PublishGateRefused
      else exists k: nat :: ShortAt(around, row, around.lines[cart], k, why)
  {
    var lines, policy := LinesOf(around, cart), AtWebsite(around.policies, row.website);
    var prices := AtWebsite(around.prices, row.website);
    if lines != [] {
      if k :| 0 <= k < |lines| && !Pricing.Priceable(prices, lines[k]) {
        assert row.website !in around.prices || around.lines[cart][k].item !in around.prices[row.website];
      } else {
        var scope := if row.mode == Pickup && row.pin.Some? && row.pin.value in around.locations
                     then around.locations[row.pin.value].warehouse else None;
        var stock := StockIn(around, ScopeOf(around, row.mode, row.pin));
        var k := GateRefusesFirst(stock, policy, lines);
        CoveredInScope(around, row.mode, row.pin, scope, policy, lines);
        forall j | 0 <= j < |lines| ensures LineReady(around, row, lines[j]) <==> Covered(stock, policy, lines[j]) {
          assert Pricing.Priceable(prices, lines[j]);
        }
        assert ShortAt(around, row, lines, k, GateBasket(around, cart, row).error);
      }
    }
  }

  /** Which refusal a place with nothing in between meets, the first in the order of its
      checks. */
  lemma PlaceAloneRefuses(around: Surroundings, tab: Tables, a: PlaceArgs)
    requires Undrawn(tab, a)
    requires PlaceAlone(around, tab, a).proc.at.Done? && PlaceAlone(around, tab, a).proc.at.outcome.Refused?
    ensures var why := PlaceAlone(around, tab, a).proc.at.outcome.why;
      if a.cart !in tab.carts || tab.carts[a.cart].state != Open then why == CartNotFound
      else
        var row := tab.carts[a.cart];
        if a.lane == OnSite && row.mode == Delivery then why == PickupModeRequired
        else if row.mode == Pickup && (row.pin.None? || row.pin.value !in around.locations
                                       || !around.locations[row.pin.value].active) then why == PickupLocationNotFound
        else if row.mode == Pickup && around.locations[row.pin.value].country.None? then why == PickupCountryMissing
        else if a.billing.None? && row.party.None? then why == BillingRequired
        else if a.billing.Some? && '@' !in Text.Lower(Text.Trim(a.billing.value)) then why == InvalidEmail
        else if a.cart !in around.lines || around.lines[a.cart] == [] then why == EmptyCart
        else if exists k | 0 <= k < |around.lines[a.cart]| ::
                  row.website !in around.prices || around.lines[a.cart][k].item !in around.prices[row.website] then
          why == PublishGateRefused
        else if !BasketReady(around, a.cart, row) then
          exists k: nat :: ShortAt(around, row, around.lines[a.cart], k, why)
        else why == AmountRefused && a.total < 0.0
  {
    PlaceAloneIs(around, tab, a);
    OpeningReadyIff(around, tab, a);
    var o := OpenPlace(around, tab, a);
    if o.Ok? {
      BasketReadyIff(around, a.cart, o.value.row);
      var items := GateBasket(around, a.cart, o.value.row);
      if items.Ok? { RecordedOutcome(tab, a, o.value, items.value); } else { BasketRefuses(around, a.cart, o.value.row); }
    }
  }

  lemma RecordedCarts(tab: Tables, a: PlaceArgs, o: Opening, items: seq<OrderLine>)
    ensures var e := Recorded(Armed(tab, a, o, items), a, o);
      if a.total < 0.0 then e.tab.carts == tab.carts && e.proc.at == Done(Refused(AmountRefused))
      else e.tab.carts == tab.carts[a.cart := PlacedRow(o.row, o.bill)]
           && e.proc.at == Done(CheckedOut(a.checkout, a.lane, o.bill.key, o.bill.party))
  {}

  /** Of the carts, a place that checks out writes its own, and any other place none. */
  lemma PlaceAloneCarts(around: Surroundings, tab: Tables, a: PlaceArgs)
    requires Undrawn(tab, a)
    ensures var e := PlaceAlone(around, tab, a);
      && e.proc.at.Done?
      && (e.proc.at.outcome.CheckedOut? ==>
            a.cart in tab.carts && a.cart in e.tab.carts && e.tab.carts == tab.carts[a.cart := e.tab.carts[a.cart]])
      && (!e.proc.at.outcome.CheckedOut? ==> e.tab.carts == tab.carts)
  {
    PlaceAloneIs(around, tab, a);
    var o := OpenPlace(around, tab, a);
    if o.Ok? {
      var items := GateBasket(around, a.cart, o.value.row);
      if items.Ok? { RecordedCarts(tab, a, o.value, items.value); }
    }
  }

  // ── what a place leaves ───────────────────────────────────────────────────

  /** Who pays: the party already captured, the party the shopper's key is bound to, or
      the one minted for it. */
  predicate Pays(tab: Tables, a: PlaceArgs, party: Id) {
    && (a.billing.None? ==> a.cart in tab.carts && tab.carts[a.cart].party == Some(party))
    && (a.billing.Some? ==>
          var key := Key(a.company, Text.Lower(Text.Trim(a.billing.value)));
          party == if key in tab.parties then tab.parties[key] else a.minted)
  }

  /** The order: this cart's lines at the website's prices, its carrier and coupon, the
      pinned store's country, and a confirmed status only for a free online place. */
  ghost predicate OrderPlaced(around: Surroundings, row: Cart, a: PlaceArgs, party: Id, order: Order) {
    && order.number == a.checkout && order.customer == party && order.total == a.total
    && order.carrier == row.carrier && order.coupon == row.coupon
    && (row.mode == Delivery ==> order.jurisdiction == None)
    && (row.mode == Pickup ==>
          row.pin.Some? && row.pin.value in around.locations
          && order.jurisdiction == around.locations[row.pin.value].country)
    && a.cart in around.lines && row.website in around.prices
    && MintsSnapshot(order.lines, around.lines[a.cart], around.prices[row.website])
    && order.status == (if a.lane == Online && a.total == 0.0 then Confirmed else Draft)
  }

  /** The session, its gateway row and the history, by the lane and the total. */
  predicate LaneFollowed(t: Tables, u: Tables, a: PlaceArgs, party: Id) {
    && a.checkout in u.sessions
    && var z := u.sessions[a.checkout];
    && (a.lane == OnSite ==> z.state == PendingPickup && z.gateway == None && u.gateways == t.gateways)
    && (a.lane == Online && a.total == 0.0 ==>
          z.state == ConfirmedFree && z.gateway == None && u.gateways == t.gateways)
    && (a.lane == Online && a.total > 0.0 ==>
          z.state == PendingPayment && z.gateway == Some(a.gateway)
          && u.gateways == t.gateways[a.gateway := GatewayRow(a.checkout, party, a.total, 0.0, a.total, false)])
    && u.births == t.births[a.checkout := z.state]
    && (a.lane == Online && a.total == 0.0 ==>
          u.confirmations == t.confirmations + [Confirmation(a.order, ByFreePlace(a.checkout))])
    && (a.lane == OnSite || a.total != 0.0 ==> u.confirmations == t.confirmations)
  }

  /** Every table after a place that checked out. */
  ghost predicate PlacedRight(around: Surroundings, t: Tables, u: Tables, a: PlaceArgs, party: Id) {
    && a.cart in t.carts && a.total >= 0.0 && Pays(t, a, party)
    && var row := t.carts[a.cart];
    && a.order in u.orders && u.orders == t.orders[a.order := u.orders[a.order]]
    && OrderPlaced(around, row, a, party, u.orders[a.order])
    && LaneFollowed(t, u, a, party)
    && u.sessions == t.sessions[a.checkout := u.sessions[a.checkout]]
    && var z := u.sessions[a.checkout];
    && z.cart == a.cart && z.website == row.website && z.order == Some(a.order) && z.amount == a.total
    && z.pin == (if row.mode == Pickup then row.pin else None)
    && u.carts == t.carts[a.cart := row.(state := Placed, party := Some(party))]
    && (a.billing.None? ==> u.parties == t.parties)
    && (a.billing.Some? ==> u.parties == t.parties[Key(a.company, Text.Lower(Text.Trim(a.billing.value))) := party])
  }

  lemma OpeningIs(around: Surroundings, tab: Tables, a: PlaceArgs)
    requires OpenPlace(around, tab, a).Ok?
    ensures var o := OpenPlace(around, tab, a).value;
      && a.cart in tab.carts && o.row == tab.carts[a.cart] && Pays(tab, a, o.bill.party)
      && (o.row.mode == Delivery ==> o.country == None)
      && (o.row.mode == Pickup ==>
            o.row.pin.Some? && o.row.pin.value in around.locations
            && o.country == around.locations[o.row.pin.value].country)
      && (a.billing.None? ==> o.bill == Billing(o.bill.party, None, false))
      && (a.billing.Some? ==>
            var key := Key(a.company, Text.Lower(Text.Trim(a.billing.value)));
            o.bill == Billing(o.bill.party, Some(key), key !in tab.parties))
  {}

  lemma ItemsAre(around: Surroundings, cart: Id, row: Cart)
    requires GateBasket(around, cart, row).Ok?
    ensures cart in around.lines && row.website in around.prices
    ensures MintsSnapshot(GateBasket(around, cart, row).value, around.lines[cart], around.prices[row.website])
  {
    var lines := LinesOf(around, cart);
    assert Pricing.Priceable(AtWebsite(around.prices, row.website), lines[0]);
  }

  function LeftBy(tab: Tables, a: PlaceArgs, o: Opening, items: seq<OrderLine>): Tables {
    Recorded(Armed(tab, a, o, items), a, o).tab
  }

  lemma OrderLeft(tab: Tables, a: PlaceArgs, o: Opening, items: seq<OrderLine>)
    requires a.total >= 0.0
    ensures LeftBy(tab, a, o, items).orders
            == tab.orders[a.order := Order(a.checkout, o.bill.party, o.row.carrier, o.row.coupon, o.country, items, a.total,
                                           if a.lane == Online && a.total == 0.0 then Confirmed else Draft)]
  {
    var order := Order(a.checkout, o.bill.party, o.row.carrier, o.row.coupon, o.country, items, a.total, Draft);
    assert tab.orders[a.order := order][a.order := order.(status := Confirmed)]
           == tab.orders[a.order := order.(status := Confirmed)];
  }

  lemma LaneLeft(tab: Tables, a: PlaceArgs, o: Opening, items: seq<OrderLine>)
    requires a.total >= 0.0
    ensures LaneFollowed(tab, LeftBy(tab, a, o, items), a, o.bill.party)
  {}

  lemma SessionLeft(tab: Tables, a: PlaceArgs, o: Opening, items: seq<OrderLine>)
    requires a.total >= 0.0
    ensures var u := LeftBy(tab, a, o, items);
      && a.checkout in u.sessions && u.sessions == tab.sessions[a.checkout := u.sessions[a.checkout]]
      && u.sessions[a.checkout].cart == a.cart && u.sessions[a.checkout].website == o.row.website
      && u.sessions[a.checkout].order == Some(a.order) && u.sessions[a.checkout].amount == a.total
      && u.sessions[a.checkout].pin == PickupPin(o.row)
  {
    ArmingRecordsNothing(tab, a, o, items);
  }

  lemma ArmingRecordsNothing(tab: Tables, a: PlaceArgs, o: Opening, items: seq<OrderLine>)
    ensures Armed(tab, a, o, items).sessions == tab.sessions
  {}

  lemma ArmingBindsNobody(tab: Tables, a: PlaceArgs, o: Opening, items: seq<OrderLine>)
    ensures Armed(tab, a, o, items).parties == tab.parties
  {}

  lemma KeyLeft(tab: Tables, a: PlaceArgs, o: Opening, items: seq<OrderLine>)
    requires a.total >= 0.0
    ensures LeftBy(tab, a, o, items).parties == CommitBilling(tab, o.bill).parties
  {
    ArmingBindsNobody(tab, a, o, items);
  }

  lemma RecordedRight(around: Surroundings, tab: Tables, a: PlaceArgs, o: Opening, items: seq<OrderLine>)
    requires a.total >= 0.0 && OpenPlace(around, tab, a) == Ok(o) && GateBasket(around, a.cart, o.row) == Ok(items)
    ensures PlacedRight(around, tab, LeftBy(tab, a, o, items), a, o.bill.party)
  {
    OpeningIs(around, tab, a);
    ItemsAre(around, a.cart, o.row);
    OrderLeft(tab, a, o, items);
    LaneLeft(tab, a, o, items);
    SessionLeft(tab, a, o, items);
    RecordedCarts(tab, a, o, items);
    KeyLeft(tab, a, o, items);
    assert OrderPlaced(around, o.row, a, o.bill.party, LeftBy(tab, a, o, items).orders[a.order]);
    PartiesLeft(tab, a, o);
  }

  /** Binding a key to the party it already has changes nothing. */
  lemma PartiesLeft(tab: Tables, a: PlaceArgs, o: Opening)
    requires Pays(tab, a, o.bill.party)
    requires a.billing.None? ==> o.bill == Billing(o.bill.party, None, false)
    requires a.billing.Some? ==>
      var key := Key(a.company, Text.Lower(Text.Trim(a.billing.value)));
      o.bill == Billing(o.bill.party, Some(key), key !in tab.parties)
    ensures a.billing.None? ==> CommitBilling(tab, o.bill).parties == tab.parties
    ensures a.billing.Some? ==>
      CommitBilling(tab, o.bill).parties == tab.parties[Key(a.company, Text.Lower(Text.Trim(a.billing.value))) := o.bill.party]
  {}

  /** A place that checks out leaves every table exactly so: the order as the cart and
      the shelf had it, the session and gateway row its lane and total call for, the
      cart placed and billed, the shopper's key bound. */
  lemma PlaceAloneRecords(around: Surroundings, tab: Tables, a: PlaceArgs) returns (party: Id)
    requires Undrawn(tab, a) && PlaceAlone(around, tab, a).proc.at.Done?
    requires PlaceAlone(around, tab, a).proc.at.outcome.CheckedOut?
    ensures PlacedRight(around, tab, PlaceAlone(around, tab, a).tab, a, party)
    ensures var outcome := PlaceAlone(around, tab, a).proc.at.outcome;
      outcome.checkout == a.checkout && outcome.lane == a.lane && outcome.customer == party
      && outcome.billed == if a.billing.Some? then Some(Key(a.company, Text.Lower(Text.Trim(a.billing.value)))) else None
  {
    PlaceAloneIs(around, tab, a);
    var o := OpenPlace(around, tab, a).value;
    var items := GateBasket(around, a.cart, o.row).value;
    RecordedOutcome(tab, a, o, items);
    RecordedRight(around, tab, a, o, items);
    OpeningIs(around, tab, a);
    RecordedCarts(tab, a, o, items);
    party := o.bill.party;
  }
}
