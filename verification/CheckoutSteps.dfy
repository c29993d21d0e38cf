/** The steps. Each family is one service verb (or a group of sibling verbs),
    split where its statements read other transactions' work or commit their own.
    A step is enabled when its process is at the right point (`..Ready`) and need
    not wait for a row lock or an index entry (`..Free`). `Abort` is a crash, or
    any refusal by a port, at any point: it drops the uncommitted writes and keeps
    what the order mint, the confirm and the gateway create already committed. */
module CheckoutSteps {
  import opened StorefrontTypes
  import opened CheckoutState
  import Pricing

  datatype PlaceAct =
    | LockCart(company: Id, cart: Id, lane: Lane, billing: Option<string>)
    | ReadStore
    | ReadMap
    | InsertMap(minted: Id)
    | ReadLines
    | Price
    | ReadPolicy
    | ReadStock
    | Mint(checkout: Id, order: Id, total: real)
    | ReadTotal
    | Arm(gateway: Id)
    | Commit

  datatype VerbAct =
    | Lock(cart: Id, verb: LockedVerb)
    | LookUp
    | Insert(minted: Id)
    | Write(owned: bool)
    | WriteBilling

  datatype CartAct =
    | Create(cart: Id, website: Id, visitor: Id)
    | ReadCreated
    | CouponStart(cart: Id, code: Option<string>)
    | CouponWrite
    | AdoptStart(cart: Id, visitor: Id, user: Id)
    | AdoptCheck
    | AdoptWrite
    | RecoverStart(cart: Id, visitor: Id, principal: Option<Id>)
    | RecoverCheck
    | RecoverWrite

  datatype SettleAct =
    | DeliverFound(event: Id, target: Id)
    | DeliverNone(event: Id)
    | ConfirmPaid
    | StampPaid
    | PickupStart(target: Id)
    | ConfirmPickup
    | StampPickup

  datatype CancelAct =
    | CancelStart(target: Id)
    | CancelSelling
    | StampCancelled
    | CancelCart
    | CancelAtomic(target: Id)

  datatype Step =
    | Surround(around: Surroundings)
    | GatewaySettles(gateway: Id)
    | Abort(p: Id)
    | PlaceStep(p: Id, place: PlaceAct)
    | VerbStep(p: Id, verb: VerbAct)
    | CartStep(p: Id, cart: CartAct)
    | SettleStep(p: Id, settle: SettleAct)
    | CancelStep(p: Id, cancel: CancelAct)

  // ── place ─────────────────────────────────────────────────────────────────

  /** No other transaction has this key's map row inserted and uncommitted: the
      insert would otherwise wait for that transaction to end. */
  predicate KeyFree(s: State, key: Key) {
    forall q | q in s.procs :: Uncommitted(s.procs[q]) != Some(key)
  }

  predicate Unlocked(s: State, cart: Id) {
    cart !in s.locks
  }

  /** The process is at this act's program point, with what that point holds. */
  predicate PlaceReady(tab: Tables, pr: Proc, act: PlaceAct) {
    match act
    case LockCart(_, _, _, _) => pr.at.NotStarted?
    case ReadStore => pr.hold.Some? && pr.at.PlaceLocked?
    case ReadMap => pr.hold.Some? && pr.at.PlaceStored?
    case InsertMap(_) => pr.hold.Some? && pr.at.PlaceMissed?
    case ReadLines => pr.hold.Some? && pr.bill.Some? && pr.at.PlaceBilled?
    case Price => pr.hold.Some? && pr.bill.Some? && pr.at.PlaceSnapped?
    case ReadPolicy => pr.hold.Some? && pr.bill.Some? && pr.at.PlacePriced?
    case ReadStock => pr.hold.Some? && pr.bill.Some? && pr.at.PlacePolicied?
    case Mint(checkout, order, _) =>
      pr.hold.Some? && pr.bill.Some? && pr.at.PlaceGated?
      && order !in tab.orders && forall o | o in tab.orders :: tab.orders[o].number != checkout
    case ReadTotal => pr.draw.Some? && pr.at.PlaceMinted? && pr.draw.value.order in tab.orders
    case Arm(gateway) => pr.bill.Some? && pr.draw.Some? && pr.at.PlaceTotalled? && gateway !in tab.gateways
    case Commit => pr.hold.Some? && pr.bill.Some? && pr.draw.Some? && pr.at.PlaceArmed?
  }

  /** What a place step may have to wait for. */
  predicate PlaceFree(s: State, pr: Proc, act: PlaceAct) {
    match act
    case LockCart(_, cart, _, _) => Unlocked(s, cart)
    case InsertMap(_) => pr.at.PlaceMissed? ==> KeyFree(s, pr.at.key)
    case _ => true
  }

  function ResolveBilling(tab: Tables, key: Key, minted: Id): Billing {
    if key in tab.parties then Billing(tab.parties[key], Some(key), false) else Billing(minted, Some(key), true)
  }

  function PlacedRow(row: Cart, bill: Billing): Cart {
    row.(state := Placed, party := if bill.key.Some? then Some(bill.party) else row.party)
  }

  function PickupPin(row: Cart): Option<Id> {
    if row.mode == Pickup then row.pin else None
  }

  function PlaceEffect(around: Surroundings, tab: Tables, pr: Proc, act: PlaceAct): Effect
    requires PlaceReady(tab, pr, act)
  {
    match act
    case LockCart(company, cart, lane, billing) => PlaceLockCart(tab, company, cart, lane, billing)
    case ReadStore => PlaceReadStore(around, tab, pr)
    case ReadMap => PlaceReadMap(tab, pr)
    case InsertMap(minted) =>
      Effect(tab, pr.(bill := Some(ResolveBilling(tab, pr.at.key, minted)), at := PlaceBilled(pr.at.call)))
    case ReadLines =>
      var lines := LinesOf(around, pr.hold.value.cart);
      if lines == [] then Finish(tab, Refused(EmptyCart))
      else Effect(tab, pr.(at := PlaceSnapped(pr.at.call, lines)))
    case Price =>
      var prices := AtWebsite(around.prices, pr.hold.value.row.website);
      if !Pricing.AllPriceable(prices, pr.at.lines) then Finish(tab, Refused(PublishGateRefused))
      else Effect(tab, pr.(at := PlacePriced(pr.at.call, pr.at.lines, Pricing.MintLines(prices, pr.at.lines))))
    case ReadPolicy =>
      var policy := AtWebsite(around.policies, pr.hold.value.row.website);
      Effect(tab, pr.(at := PlacePolicied(pr.at.call, pr.at.lines, pr.at.items, policy)))
    case ReadStock =>
      var stock := StockIn(around, ScopeOf(around, pr.hold.value.row.mode, pr.hold.value.row.pin));
      var verdict := GateVerdict(stock, pr.at.policy, pr.at.lines);
      if verdict.Err? then Finish(tab, Refused(StockRefused(verdict.error)))
      else Effect(tab, pr.(at := PlaceGated(pr.at.call, pr.at.lines, pr.at.items, pr.at.policy)))
    case Mint(checkout, order, total) => PlaceMint(tab, pr, checkout, order, total)
    case ReadTotal =>
      Effect(tab, pr.(at := PlaceTotalled(pr.at.call, tab.orders[pr.draw.value.order].total)))
    case Arm(gateway) => PlaceArm(tab, pr, gateway)
    case Commit => PlaceCommit(tab, pr)
  }

  /** `lock_cart` and the state test: a cart that is missing or not open answers
      the closed door, whatever the interleaving. */
  function PlaceLockCart(tab: Tables, company: Id, cart: Id, lane: Lane, billing: Option<string>): Effect {
    if cart !in tab.carts || tab.carts[cart].state != Open then Finish(tab, Refused(CartNotFound))
    else if lane == OnSite && tab.carts[cart].mode != Pickup then Finish(tab, Refused(PickupModeRequired))
    else Effect(tab, Proc(Some(Hold(cart, tab.carts[cart])), None, None,
                          PlaceLocked(PlaceCall(company, lane, billing, None))))
  }

  /** A pickup cart's store must be live here and name its country. */
  function PlaceReadStore(around: Surroundings, tab: Tables, pr: Proc): Effect
    requires pr.hold.Some? && pr.at.PlaceLocked?
  {
    var row := pr.hold.value.row;
    if row.mode != Pickup then Effect(tab, pr.(at := PlaceStored(pr.at.call.(country := None))))
    else if row.pin == None || row.pin.value !in around.locations || !around.locations[row.pin.value].active then
      Finish(tab, Refused(PickupLocationNotFound))
    else if around.locations[row.pin.value].country == None then Finish(tab, Refused(PickupCountryMissing))
    else Effect(tab, pr.(at := PlaceStored(pr.at.call.(country := around.locations[row.pin.value].country))))
  }

  /** Billing: the party already captured, or the express arm's map lookup. */
  function PlaceReadMap(tab: Tables, pr: Proc): Effect
    requires pr.hold.Some? && pr.at.PlaceStored?
  {
    var call := pr.at.call;
    if call.billing == None then
      if pr.hold.value.row.party == None then Finish(tab, Refused(BillingRequired))
      else
        Effect(tab, pr.(bill := Some(Billing(pr.hold.value.row.party.value, None, false)), at := PlaceBilled(call)))
    else
      var key := Key(call.company, NormalizeEmail(call.billing.value));
      if !ValidEmail(key.email) then Finish(tab, Refused(InvalidEmail))
      else if key in tab.parties then
        Effect(tab, pr.(bill := Some(Billing(tab.parties[key], Some(key), false)), at := PlaceBilled(call)))
      else Effect(tab, pr.(at := PlaceMissed(call, key)))
  }

  /** Selling commits the draft order on its own transaction. */
  function PlaceMint(tab: Tables, pr: Proc, checkout: Id, order: Id, total: real): Effect
    requires pr.hold.Some? && pr.bill.Some? && pr.at.PlaceGated?
  {
    var row := pr.hold.value.row;
    var minted := Order(checkout, pr.bill.value.party, row.carrier, row.coupon, pr.at.call.country,
                        pr.at.items, total, Draft);
    Effect(tab.(orders := tab.orders[order := minted]),
           pr.(draw := Some(Draw(checkout, order)), at := PlaceMinted(pr.at.call)))
  }

  /** The arms: pay on site, the free arm's direct confirm, or the gateway row. */
  function PlaceArm(tab: Tables, pr: Proc, gateway: Id): Effect
    requires pr.bill.Some? && pr.draw.Some? && pr.at.PlaceTotalled?
  {
    var PlaceTotalled(call, amount) := pr.at;
    var Draw(checkout, order) := pr.draw.value;
    if call.lane == OnSite then Effect(tab, pr.(at := PlaceArmed(call, amount, PendingPickup, None)))
    else if amount == 0.0 then
      if order in tab.orders && tab.orders[order].status == Draft then
        Effect(ConfirmOrder(tab, order, ByFreePlace(checkout)),
               pr.(at := PlaceArmed(call, amount, ConfirmedFree, None)))
      else Finish(tab, Refused(SellingRefused))
    else
      var row := GatewayRow(checkout, pr.bill.value.party, amount, 0.0, amount, false);
      Effect(tab.(gateways := tab.gateways[gateway := row]),
             pr.(at := PlaceArmed(call, amount, PendingPayment, Some(gateway))))
  }

  /** The outer commit: session row, billing stamp, placement flip, lock release. The
      sessions table refuses a negative amount, and the whole transaction with it. */
  function PlaceCommit(tab: Tables, pr: Proc): Effect
    requires pr.hold.Some? && pr.bill.Some? && pr.draw.Some? && pr.at.PlaceArmed?
  {
    var Draw(checkout, order) := pr.draw.value;
    var Hold(cart, row) := pr.hold.value;
    var session := Session(cart, row.website, Some(order), pr.at.gateway, pr.at.amount, pr.at.birth, PickupPin(row));
    if pr.at.amount < 0.0 then Finish(tab, Refused(AmountRefused))
    else
      Finish(CommitBilling(RecordSession(tab, checkout, session, PlacedRow(row, pr.bill.value)), pr.bill.value),
             CheckedOut(checkout, pr.at.call.lane, pr.bill.value.key, pr.bill.value.party))
  }

  // ── delivery, pickup, reset, billing ──────────────────────────────────────

  predicate VerbReady(pr: Proc, act: VerbAct) {
    match act
    case Lock(_, _) => pr.at.NotStarted?
    case LookUp => pr.hold.Some? && pr.at.VerbLocked? && pr.at.verb.CaptureBilling?
    case Insert(_) => pr.hold.Some? && pr.at.VerbMissed?
    case Write(_) => pr.hold.Some? && pr.at.VerbLocked? && !pr.at.verb.CaptureBilling?
    case WriteBilling => pr.hold.Some? && pr.bill.Some? && pr.bill.value.key.Some? && pr.at.VerbBilled?
  }

  predicate VerbFree(s: State, pr: Proc, act: VerbAct) {
    match act
    case Lock(cart, _) => Unlocked(s, cart)
    case Insert(_) => pr.at.VerbMissed? ==> KeyFree(s, pr.at.key)
    case _ => true
  }

  function VerbEffect(around: Surroundings, tab: Tables, pr: Proc, act: VerbAct): Effect
    requires VerbReady(pr, act)
  {
    match act
    case Lock(cart, verb) =>
      if cart !in tab.carts then Finish(tab, Refused(CartNotFound))
      else if tab.carts[cart].state != Open then Finish(tab, Refused(CartNotOpen(tab.carts[cart].state)))
      else Effect(tab, Proc(Some(Hold(cart, tab.carts[cart])), None, None, VerbLocked(verb)))
    case LookUp =>
      var key := pr.at.verb.key;
      if key in tab.parties then
        Effect(tab, pr.(bill := Some(Billing(tab.parties[key], Some(key), false)), at := VerbBilled))
      else Effect(tab, pr.(at := VerbMissed(key)))
    case Insert(minted) =>
      Effect(tab, pr.(bill := Some(ResolveBilling(tab, pr.at.key, minted)), at := VerbBilled))
    case Write(owned) =>
      var refusal := WriteRefusal(around, pr, owned);
      if refusal.Some? then Finish(tab, Refused(refusal.value))
      else Finish(PutCart(tab, pr.hold.value.cart, WrittenRow(pr.hold.value.row, pr.at.verb)), Changed)
    case WriteBilling =>
      var bill := pr.bill.value;
      Finish(CommitBilling(PutCart(tab, pr.hold.value.cart, pr.hold.value.row.(party := Some(bill.party))), bill),
             BillingCaptured(bill.key.value, bill.party))
  }

  /** The carrier must be the company's own (`owned` is the registry's answer); the
      store must be active and on the cart's website. */
  function WriteRefusal(around: Surroundings, pr: Proc, owned: bool): Option<Refusal>
    requires pr.hold.Some? && pr.at.VerbLocked?
  {
    var verb := pr.at.verb;
    if verb.SetDelivery? && !owned then Some(CarrierNotFound)
    else if verb.SetPickup? && !(verb.location in around.locations && around.locations[verb.location].active
                && around.locations[verb.location].website == pr.hold.value.row.website) then
      Some(PickupLocationNotFound)
    else None
  }

  function WrittenRow(row: Cart, verb: LockedVerb): Cart
    requires !verb.CaptureBilling?
  {
    match verb
    case SetDelivery(carrier) => row.(carrier := Some(carrier))
    case SetPickup(location) => row.(mode := Pickup, pin := Some(location))
    case ResetFulfillment => row.(mode := Delivery, pin := None)
  }

  // ── unlocked cart verbs ───────────────────────────────────────────────────

  predicate CartReady(tab: Tables, pr: Proc, act: CartAct) {
    match act
    case Create(cart, _, _) => pr.at.NotStarted? && cart !in tab.carts
    case ReadCreated => pr.at.CreateInserted?
    case CouponStart(_, _) => pr.at.NotStarted?
    case CouponWrite => pr.at.CouponRead?
    case AdoptStart(_, _, _) => pr.at.NotStarted?
    case AdoptCheck => pr.at.AdoptRead?
    case AdoptWrite => pr.at.AdoptChecked?
    case RecoverStart(_, _, _) => pr.at.NotStarted?
    case RecoverCheck => pr.at.RecoverRead?
    case RecoverWrite => pr.at.RecoverChecked?
  }

  /** An `UPDATE carts` waits for the row lock. */
  predicate CartFree(s: State, pr: Proc, act: CartAct) {
    match act
    case Create(cart, _, _) => Unlocked(s, cart)
    case CouponWrite => pr.at.CouponRead? ==> Unlocked(s, pr.at.cart)
    case AdoptWrite => pr.at.AdoptChecked? ==> Unlocked(s, pr.at.cart)
    case RecoverWrite => pr.at.RecoverChecked? ==> Unlocked(s, pr.at.cart)
    case _ => true
  }

  /** `UPDATE carts SET visitor .. WHERE id AND state = 'open'` under the unique
      index on open carts per visitor. */
  function Rebind(tab: Tables, cart: Id, visitor: Id, user: Option<Id>): Effect {
    if cart !in tab.carts || tab.carts[cart].state != Open then Finish(tab, Changed)
    else if OtherOpenCart(tab.carts, visitor, cart) then Finish(tab, Refused(OpenCartExists))
    else
      var row := tab.carts[cart];
      Finish(PutCart(tab, cart, row.(visitor := visitor,
                                     portalUser := if user.Some? then user else row.portalUser)), Changed)
  }

  function CartEffect(tab: Tables, pr: Proc, act: CartAct): Effect
    requires CartReady(tab, pr, act)
  {
    match act
    case Create(cart, website, visitor) =>
      if HasOpenCart(tab.carts, visitor) then Effect(tab, Idle(CreateInserted(visitor)))
      else
        Effect(PutCart(tab, cart, Cart(website, visitor, None, None, Open, None, None, Delivery, None)),
               Idle(CreateInserted(visitor)))
    case ReadCreated =>
      if HasOpenCart(tab.carts, pr.at.visitor) then Finish(tab, Changed)
      else Finish(tab, Refused(OpenCartVanished))
    case CouponStart(cart, code) =>
      if cart !in tab.carts then Finish(tab, Refused(CartNotFound))
      else if tab.carts[cart].state != Open then Finish(tab, Refused(CartNotOpen(tab.carts[cart].state)))
      else Effect(tab, Idle(CouponRead(cart, code)))
    case CouponWrite =>
      var cart := pr.at.cart;
      if cart in tab.carts && tab.carts[cart].state == Open then
        Finish(PutCart(tab, cart, tab.carts[cart].(coupon := pr.at.code)), Changed)
      else Finish(tab, Changed)
    case AdoptStart(cart, visitor, user) =>
      if cart !in tab.carts then Finish(tab, Refused(CartNotFound))
      else if tab.carts[cart].portalUser != Some(user) || tab.carts[cart].state != Open then
        Finish(tab, Refused(CartNotAdoptable))
      else Effect(tab, Idle(AdoptRead(cart, visitor, user)))
    case AdoptCheck =>
      if OtherOpenCart(tab.carts, pr.at.visitor, pr.at.cart) then Finish(tab, Refused(OpenCartExists))
      else Effect(tab, Idle(AdoptChecked(pr.at.cart, pr.at.visitor, pr.at.user)))
    case AdoptWrite => Rebind(tab, pr.at.cart, pr.at.visitor, Some(pr.at.user))
    case RecoverStart(cart, visitor, principal) => RecoverOpen(tab, cart, visitor, principal)
    case RecoverCheck =>
      if OtherOpenCart(tab.carts, pr.at.visitor, pr.at.cart) then Finish(tab, Refused(OpenCartExists))
      else Effect(tab, Idle(RecoverChecked(pr.at.cart, pr.at.visitor, pr.at.user)))
    case RecoverWrite => Rebind(tab, pr.at.cart, pr.at.visitor, None)
  }

  /** The recover verb's first read: ownership by visitor lineage or linkage. */
  function RecoverOpen(tab: Tables, cart: Id, visitor: Id, principal: Option<Id>): Effect {
    if cart !in tab.carts then Finish(tab, Refused(CartNotFound))
    else
      var row := tab.carts[cart];
      if row.visitor != visitor && !(principal.Some? && row.portalUser == principal) then
        Finish(tab, Refused(CartNotFound))
      else if row.state != Open then Finish(tab, Refused(CartNotOpen(row.state)))
      else if row.visitor == visitor then Finish(tab, Changed)
      else Effect(tab, Idle(RecoverRead(cart, visitor, principal.value)))
  }

  // ── settlement and pickup confirm ─────────────────────────────────────────

  predicate SettleReady(tab: Tables, pr: Proc, act: SettleAct) {
    match act
    case DeliverFound(event, target) =>
      pr.at.NotStarted? && event in tab.gateways && tab.gateways[event].settled
      && target in tab.sessions && tab.sessions[target].gateway == Some(event)
    case DeliverNone(event) =>
      pr.at.NotStarted? && event in tab.gateways && tab.gateways[event].settled
      && forall x | x in tab.sessions :: tab.sessions[x].gateway != Some(event)
    case ConfirmPaid => pr.at.SettleRead?
    case StampPaid => pr.at.SettleConfirmed?
    case PickupStart(_) => pr.at.NotStarted?
    case ConfirmPickup => pr.at.PickupRead?
    case StampPickup => pr.at.PickupConfirmed?
  }

  /** `UPDATE .. SET state = 'settled' WHERE id AND state = from`. */
  function StampFrom(tab: Tables, target: Id, from: SessionState): Tables {
    if target in tab.sessions && tab.sessions[target].state == from then StampSession(tab, target, Settled) else tab
  }

  function SettleEffect(tab: Tables, pr: Proc, act: SettleAct): Effect
    requires SettleReady(tab, pr, act)
  {
    match act
    case DeliverFound(event, target) =>
      var session := tab.sessions[target];
      if session.state != PendingPayment then Finish(tab, AlreadyHandled)
      else if session.order == None then Finish(tab, Refused(SellingRefused))
      else Effect(tab, Idle(SettleRead(event, target, session.order.value)))
    case DeliverNone(_) => Finish(tab, NotOurs)
    case ConfirmPaid =>
      Effect(ConfirmOrder(tab, pr.at.order, BySettlement(pr.at.event)),
             Idle(SettleConfirmed(pr.at.event, pr.at.target, pr.at.order)))
    case StampPaid => Finish(StampFrom(tab, pr.at.target, PendingPayment), Stamped(pr.at.target))
    case PickupStart(target) =>
      if target !in tab.sessions then Finish(tab, Refused(CheckoutNotFound))
      else if tab.sessions[target].state != PendingPickup then
        Finish(tab, Refused(CheckoutStateRefused(tab.sessions[target].state)))
      else if tab.sessions[target].order == None then Finish(tab, Refused(SellingRefused))
      else Effect(tab, Idle(PickupRead(target, tab.sessions[target].order.value)))
    case ConfirmPickup =>
      Effect(ConfirmOrder(tab, pr.at.order, ByPickupOfficer(pr.at.target)),
             Idle(PickupConfirmed(pr.at.target, pr.at.order)))
    case StampPickup => Finish(StampFrom(tab, pr.at.target, PendingPickup), Stamped(pr.at.target))
  }

  // ── cancel ────────────────────────────────────────────────────────────────

  predicate Cancellable(st: SessionState) {
    st != Settled && st != SessionState.Cancelled && st != Failed
  }

  predicate CancelReady(tab: Tables, pr: Proc, act: CancelAct) {
    match act
    case CancelStart(_) => pr.at.NotStarted?
    case CancelSelling => pr.at.CancelRead?
    case StampCancelled => pr.at.CancelVoided? && pr.at.target in tab.sessions
    case CancelCart => pr.at.CancelStamped? && pr.at.cart in tab.carts
    case CancelAtomic(target) =>
      pr.at.NotStarted? && (target in tab.sessions ==> tab.sessions[target].cart in tab.carts)
  }

  predicate CancelFree(s: State, pr: Proc, act: CancelAct) {
    match act
    case CancelCart => pr.at.CancelStamped? ==> Unlocked(s, pr.at.cart)
    case CancelAtomic(target) => target in s.tab.sessions ==> Unlocked(s, s.tab.sessions[target].cart)
    case _ => true
  }

  function CancelEffect(tab: Tables, pr: Proc, act: CancelAct): Effect
    requires CancelReady(tab, pr, act)
  {
    match act
    case CancelStart(target) => CancelOpen(tab, target)
    case CancelSelling =>
      if pr.at.order !in tab.orders || tab.orders[pr.at.order].status == Void then Finish(tab, Refused(SellingRefused))
      else Effect(CancelOrder(tab, pr.at.order), Idle(CancelVoided(pr.at.target, pr.at.order, pr.at.cart)))
    case StampCancelled =>
      Effect(StampSession(tab, pr.at.target, SessionState.Cancelled), Idle(CancelStamped(pr.at.target, pr.at.cart)))
    case CancelCart =>
      Finish(PutCart(tab, pr.at.cart, tab.carts[pr.at.cart].(state := CartState.Cancelled)), Changed)
    case CancelAtomic(target) => CancelWhole(tab, target)
  }

  function CancelOpen(tab: Tables, target: Id): Effect {
    if target !in tab.sessions then Finish(tab, Refused(CheckoutNotFound))
    else if !Cancellable(tab.sessions[target].state) then
      Finish(tab, Refused(CheckoutStateRefused(tab.sessions[target].state)))
    else if tab.sessions[target].order == None then Finish(tab, Refused(SellingRefused))
    else Effect(tab, Idle(CancelRead(target, tab.sessions[target].order.value, tab.sessions[target].cart)))
  }

  /** The whole cancel with nothing in between. */
  function CancelWhole(tab: Tables, target: Id): Effect
    requires target in tab.sessions ==> tab.sessions[target].cart in tab.carts
  {
    var open := CancelOpen(tab, target);
    if open.proc.at.Done? then open
    else
      var CancelRead(_, order, cart) := open.proc.at;
      if order !in tab.orders || tab.orders[order].status == Void then Finish(tab, Refused(SellingRefused))
      else
        var voided := StampSession(CancelOrder(tab, order), target, SessionState.Cancelled);
        Finish(PutCart(voided, cart, tab.carts[cart].(state := CartState.Cancelled)), Changed)
  }

  // ── all steps ─────────────────────────────────────────────────────────────

  predicate Enabled(s: State, step: Step) {
    match step
    case Surround(_) => true
    case GatewaySettles(g) => g in s.tab.gateways
    case Abort(p) => p in s.procs && !s.procs[p].at.Done?
    case PlaceStep(p, act) => PlaceReady(s.tab, ProcOf(s, p), act) && PlaceFree(s, ProcOf(s, p), act)
    case VerbStep(p, act) => VerbReady(ProcOf(s, p), act) && VerbFree(s, ProcOf(s, p), act)
    case CartStep(p, act) => CartReady(s.tab, ProcOf(s, p), act) && CartFree(s, ProcOf(s, p), act)
    case SettleStep(p, act) => SettleReady(s.tab, ProcOf(s, p), act)
    case CancelStep(p, act) => CancelReady(s.tab, ProcOf(s, p), act) && CancelFree(s, ProcOf(s, p), act)
  }

  /** What a process's step does, as an effect. */
  function StepEffect(s: State, step: Step): Effect
    requires Enabled(s, step) && !step.Surround? && !step.GatewaySettles?
  {
    match step
    case Abort(_) => Finish(s.tab, Aborted)
    case PlaceStep(p, act) => PlaceEffect(s.around, s.tab, ProcOf(s, p), act)
    case VerbStep(p, act) => VerbEffect(s.around, s.tab, ProcOf(s, p), act)
    case CartStep(p, act) => CartEffect(s.tab, ProcOf(s, p), act)
    case SettleStep(p, act) => SettleEffect(s.tab, ProcOf(s, p), act)
    case CancelStep(p, act) => CancelEffect(s.tab, ProcOf(s, p), act)
  }

  function Apply(s: State, step: Step): State
    requires Enabled(s, step)
  {
    match step
    case Surround(around) => s.(around := around)
    case GatewaySettles(g) =>
      s.(tab := s.tab.(gateways := s.tab.gateways[g := s.tab.gateways[g].(settled := true)]))
    case Abort(p) => Install(s, p, Finish(s.tab, Aborted))
    case PlaceStep(p, act) => Install(s, p, PlaceEffect(s.around, s.tab, ProcOf(s, p), act))
    case VerbStep(p, act) => Install(s, p, VerbEffect(s.around, s.tab, ProcOf(s, p), act))
    case CartStep(p, act) => Install(s, p, CartEffect(s.tab, ProcOf(s, p), act))
    case SettleStep(p, act) => Install(s, p, SettleEffect(s.tab, ProcOf(s, p), act))
    case CancelStep(p, act) => Install(s, p, CancelEffect(s.tab, ProcOf(s, p), act))
  }

  /** Before anything has been placed: open carts, at most one per visitor, with a
      pin exactly when they are pickup carts; no session, order or process. */
  ghost predicate Init(s: State) {
    && (forall c | c in s.tab.carts ::
          s.tab.carts[c].state == Open && (s.tab.carts[c].mode == Pickup <==> s.tab.carts[c].pin.Some?))
    && (forall c, d | c in s.tab.carts && d in s.tab.carts && s.tab.carts[c].visitor == s.tab.carts[d].visitor :: c == d)
    && s.tab.orders == map[] && s.tab.gateways == map[] && s.tab.sessions == map[] && s.tab.births == map[]
    && s.tab.confirmations == [] && s.locks == map[] && s.procs == map[]
  }

  /** A run: each state follows from the previous one by the listed step. */
  ghost predicate IsRun(states: seq<State>, steps: seq<Step>) {
    |states| == |steps| + 1
    && Init(states[0])
    && forall i | 0 <= i < |steps| :: Enabled(states[i], steps[i]) && states[i + 1] == Apply(states[i], steps[i])
  }
}
