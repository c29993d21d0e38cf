/** The state of the checkout step system: shared tables, and one process per
    running verb. A verb that holds a cart's row lock keeps its uncommitted
    writes in its own process record until its commit step. */
module CheckoutState {
  import opened StorefrontTypes
  import Availability
  import Pricing
  import Text

  // ── rows ──────────────────────────────────────────────────────────────────

  datatype CartState = Open | Placed | Closed | Cancelled

  datatype Mode = Delivery | Pickup

  datatype Cart = Cart(
    website: Id, visitor: Id, portalUser: Option<Id>, party: Option<Id>, state: CartState,
    coupon: Option<string>, carrier: Option<Id>, mode: Mode, pin: Option<Id>)

  datatype Location = Location(website: Id, active: bool, country: Option<string>, warehouse: Option<Id>)

  datatype OrderStatus = Draft | Confirmed | Void

  /** A minted sales order; `number` is the checkout id inside `STF-{checkout}`. */
  datatype Order = Order(
    number: Id, customer: Id, carrier: Option<Id>, coupon: Option<string>, jurisdiction: Option<string>,
    lines: seq<OrderLine>, total: real, status: OrderStatus)

  /** A gateway transaction; `reference` is the checkout id inside `stf-{checkout}`. */
  datatype GatewayRow = GatewayRow(reference: Id, party: Id, gross: real, fee: real, net: real, settled: bool)

  /** The six state texts the service reads and writes. */
  datatype SessionState = PendingPayment | PendingPickup | ConfirmedFree | Settled | Failed | Cancelled

  datatype Session = Session(
    cart: Id, website: Id, order: Option<Id>, gateway: Option<Id>, amount: real,
    state: SessionState, pin: Option<Id>)

  /** The key of the shopper-party map: company and normalized email. */
  datatype Key = Key(company: Id, email: string)

  /** Tables and ports the checkout only reads; anybody may change them between
      any two steps. Prices and policies are kept per website, stock per scope. */
  datatype Surroundings = Surroundings(
    lines: map<Id, seq<CartLine>>,
    prices: map<Id, map<Id, PriceRow>>,
    policies: map<Id, map<Id, bool>>,
    locations: map<Id, Location>,
    stock: map<Option<Id>, map<Id, real>>)

  // ── processes ─────────────────────────────────────────────────────────────

  datatype Lane = Online | OnSite

  datatype Refusal =
    | CartNotFound
    | CartNotOpen(state: CartState)
    | PickupModeRequired
    | PickupLocationNotFound
    | PickupCountryMissing
    | InvalidEmail
    | BillingRequired
    | EmptyCart
    | PublishGateRefused
    | StockRefused(why: Availability.StockRefusal)
    | CarrierNotFound
    | CartNotAdoptable
    | OpenCartExists
    | OpenCartVanished
    | CheckoutNotFound
    | CheckoutStateRefused(was: SessionState)
    | SellingRefused
    | AmountRefused

  datatype Outcome =
    | Refused(why: Refusal)
    | Aborted
    | CheckedOut(checkout: Id, lane: Lane, billed: Option<Key>, customer: Id)
    | BillingCaptured(key: Key, party: Id)
    | Changed
    | NotOurs
    | AlreadyHandled
    | Stamped(checkout: Id)

  /** The row lock a process holds, with the cart row it read under it. */
  datatype Hold = Hold(cart: Id, row: Cart)

  /** A place's arguments, and the pinned store's country once read. */
  datatype PlaceCall = PlaceCall(company: Id, lane: Lane, billing: Option<string>, country: Option<string>)

  /** A party resolution: with `inserts`, the map row is still uncommitted. */
  datatype Billing = Billing(party: Id, key: Option<Key>, inserts: bool)

  /** The checkout id a place has drawn and the order it has minted for it. */
  datatype Draw = Draw(checkout: Id, order: Id)

  datatype LockedVerb =
    | SetDelivery(carrier: Id)
    | SetPickup(location: Id)
    | ResetFulfillment
    | CaptureBilling(key: Key)

  /** Where a verb is, between two of its transactions or statements. */
  datatype Point =
    | NotStarted
    // place, in program order
    | PlaceLocked(call: PlaceCall)
    | PlaceStored(call: PlaceCall)
    | PlaceMissed(call: PlaceCall, key: Key)
    | PlaceBilled(call: PlaceCall)
    | PlaceSnapped(call: PlaceCall, lines: seq<CartLine>)
    | PlacePriced(call: PlaceCall, lines: seq<CartLine>, items: seq<OrderLine>)
    | PlacePolicied(call: PlaceCall, lines: seq<CartLine>, items: seq<OrderLine>, policy: map<Id, bool>)
    | PlaceGated(call: PlaceCall, lines: seq<CartLine>, items: seq<OrderLine>, policy: map<Id, bool>)
    | PlaceMinted(call: PlaceCall)
    | PlaceTotalled(call: PlaceCall, amount: real)
    | PlaceArmed(call: PlaceCall, amount: real, birth: SessionState, gateway: Option<Id>)
    // the four sibling verbs that take the row lock
    | VerbLocked(verb: LockedVerb)
    | VerbMissed(key: Key)
    | VerbBilled
    // unlocked cart verbs
    | CreateInserted(visitor: Id)
    | CouponRead(cart: Id, code: Option<string>)
    | AdoptRead(cart: Id, visitor: Id, user: Id)
    | AdoptChecked(cart: Id, visitor: Id, user: Id)
    | RecoverRead(cart: Id, visitor: Id, user: Id)
    | RecoverChecked(cart: Id, visitor: Id, user: Id)
    // settlement consumer, officer pickup confirm, cancel mirror
    | SettleRead(event: Id, target: Id, order: Id)
    | SettleConfirmed(event: Id, target: Id, order: Id)
    | PickupRead(target: Id, order: Id)
    | PickupConfirmed(target: Id, order: Id)
    | CancelRead(target: Id, order: Id, cart: Id)
    | CancelVoided(target: Id, order: Id, cart: Id)
    | CancelStamped(target: Id, cart: Id)
    // finished
    | Done(outcome: Outcome)

  /** One running verb: what it holds, what it has resolved and minted, where it is. */
  datatype Proc = Proc(hold: Option<Hold>, bill: Option<Billing>, draw: Option<Draw>, at: Point)

  /** Who asked selling to confirm an order. */
  datatype Confirmer = ByFreePlace(checkout: Id) | BySettlement(gateway: Id) | ByPickupOfficer(target: Id)

  datatype Confirmation = Confirmation(order: Id, who: Confirmer)

  /** The committed tables. `births` (the state each session was inserted with) and
      `confirmations` (every Draft-to-Confirmed transition, in order) are history:
      no step reads them. */
  datatype Tables = Tables(
    carts: map<Id, Cart>,
    parties: map<Key, Id>,
    orders: map<Id, Order>,
    gateways: map<Id, GatewayRow>,
    sessions: map<Id, Session>,
    births: map<Id, SessionState>,
    confirmations: seq<Confirmation>)

  /** `locks` maps a cart to the process holding its row lock. */
  datatype State = State(around: Surroundings, tab: Tables, locks: map<Id, Id>, procs: map<Id, Proc>)

  /** What one step of a process does: the tables it leaves behind and its own
      next record. */
  datatype Effect = Effect(tab: Tables, proc: Proc)

  // ── small helpers ─────────────────────────────────────────────────────────

  function Idle(at: Point): Proc {
    Proc(None, None, None, at)
  }

  /** The process record of an id; an id nobody uses has not started. */
  function ProcOf(s: State, p: Id): Proc {
    if p in s.procs then s.procs[p] else Idle(NotStarted)
  }

  /** Run a process step: its tables become visible, and the row lock follows what
      its record holds (taken when it starts to hold a cart, released when it stops). */
  function Install(s: State, p: Id, e: Effect): State {
    var freed := if ProcOf(s, p).hold.Some? then s.locks - {ProcOf(s, p).hold.value.cart} else s.locks;
    State(s.around, e.tab,
          if e.proc.hold.Some? then freed[e.proc.hold.value.cart := p] else freed,
          s.procs[p := e.proc])
  }

  /** The map row a process has inserted but not committed. */
  function Uncommitted(pr: Proc): Option<Key> {
    if pr.bill.Some? && pr.bill.value.inserts then pr.bill.value.key else None
  }

  /** Leave with an outcome: every lock and uncommitted write is let go. */
  function Finish(tab: Tables, outcome: Outcome): Effect {
    Effect(tab, Idle(Done(outcome)))
  }

  /** Trim and lowercase: the only form the shopper-party map is keyed on. */
  function NormalizeEmail(raw: string): string {
    Text.Lower(Text.Trim(raw))
  }

  predicate ValidEmail(email: string) {
    email != "" && '@' in email
  }

  function AtWebsite<V>(tables: map<Id, map<Id, V>>, website: Id): map<Id, V> {
    if website in tables then tables[website] else map[]
  }

  function LinesOf(around: Surroundings, cart: Id): seq<CartLine> {
    if cart in around.lines then around.lines[cart] else []
  }

  function Pairs(lines: seq<CartLine>): seq<(Id, real)> {
    seq(|lines|, k requires 0 <= k < |lines| => (lines[k].item, lines[k].quantity))
  }

  /** The checkout scope: the pinned store's warehouse, else the company aggregate. */
  function ScopeOf(around: Surroundings, mode: Mode, pin: Option<Id>): Option<Id> {
    if mode == Pickup && pin.Some? && pin.value in around.locations
    then around.locations[pin.value].warehouse
    else None
  }

  function StockIn(around: Surroundings, scope: Option<Id>): map<Id, real> {
    if scope in around.stock then around.stock[scope] else map[]
  }

  /** The availability port's batch form over one stock table: an item the table
      does not carry is left out of the answer. */
  function StockAnswers(stock: map<Id, real>, items: seq<Id>): seq<ItemAvailability> {
    if items == [] then []
    else
      (if items[0] in stock then [ItemAvailability(items[0], stock[items[0]])] else [])
      + StockAnswers(stock, items[1..])
  }

  function GateVerdict(stock: map<Id, real>, policy: map<Id, bool>, lines: seq<CartLine>)
    : Result<Availability.Unit, Availability.StockRefusal>
  {
    var port: Availability.BatchPort := items => Ok(StockAnswers(stock, items));
    Availability.GatePlaceQuantities(policy, port, Pairs(lines))
  }

  predicate IsOpen(tab: Tables, c: Id) {
    c in tab.carts && tab.carts[c].state == Open
  }

  predicate HasOpenCart(carts: map<Id, Cart>, visitor: Id) {
    exists c | c in carts :: carts[c].state == Open && carts[c].visitor == visitor
  }

  /** Another cart than this one is the visitor's open cart. */
  predicate OtherOpenCart(carts: map<Id, Cart>, visitor: Id, cart: Id) {
    exists c | c in carts && c != cart :: carts[c].state == Open && carts[c].visitor == visitor
  }

  // ── table writes ──────────────────────────────────────────────────────────

  function PutCart(tab: Tables, c: Id, row: Cart): Tables {
    tab.(carts := tab.carts[c := row])
  }

  /** Selling's confirm: Draft to Confirmed, anything else answers NotDraft and
      changes nothing. */
  function ConfirmOrder(tab: Tables, order: Id, who: Confirmer): Tables {
    if order in tab.orders && tab.orders[order].status == Draft then
      tab.(orders := tab.orders[order := tab.orders[order].(status := Confirmed)],
           confirmations := tab.confirmations + [Confirmation(order, who)])
    else tab
  }

  /** Selling's cancel of an order that is not cancelled yet. */
  function CancelOrder(tab: Tables, order: Id): Tables
    requires order in tab.orders
  {
    tab.(orders := tab.orders[order := tab.orders[order].(status := Void)])
  }

  function StampSession(tab: Tables, target: Id, st: SessionState): Tables
    requires target in tab.sessions
  {
    tab.(sessions := tab.sessions[target := tab.sessions[target].(state := st)])
  }

  /** A locked verb's commit: the shopper-party insert becomes visible. */
  function CommitBilling(tab: Tables, bill: Billing): Tables {
    if bill.inserts && bill.key.Some? then tab.(parties := tab.parties[bill.key.value := bill.party]) else tab
  }

  /** The session row and the placement flip, in one commit. */
  function RecordSession(tab: Tables, checkout: Id, session: Session, row: Cart): Tables {
    tab.(sessions := tab.sessions[checkout := session],
         births := tab.births[checkout := session.state],
         carts := tab.carts[session.cart := row])
  }
}
