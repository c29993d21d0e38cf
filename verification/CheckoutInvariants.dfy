/** What every reachable state of the checkout step system satisfies: the tables
    agree with one another, every process agrees with the tables, row locks are
    held by the processes that say so, and no two processes share a draft. */
module CheckoutInvariants {
  import opened StorefrontTypes
  import opened CheckoutState

  // ── the tables ────────────────────────────────────────────────────────────

  ghost predicate PinsMatchMode(carts: map<Id, Cart>) {
    forall c | c in carts :: carts[c].mode == Pickup <==> carts[c].pin.Some?
  }

  ghost predicate OneOpenCartPerVisitor(carts: map<Id, Cart>) {
    forall c, d | c in carts && d in carts && carts[c].state == Open && carts[d].state == Open
                  && carts[c].visitor == carts[d].visitor :: c == d
  }

  /** The gateway row records this checkout's amount, gross and net, without a fee. */
  ghost predicate GatewayAgrees(gateways: map<Id, GatewayRow>, g: Id, checkout: Id, amount: real, party: Id) {
    g in gateways
    && gateways[g].reference == checkout && gateways[g].party == party
    && gateways[g].gross == amount && gateways[g].fee == 0.0 && gateways[g].net == amount
  }

  /** A session, its order, its gateway row and its cart tell one story. */
  ghost predicate SessionAgrees(tab: Tables, x: Id)
    requires x in tab.sessions
  {
    var z := tab.sessions[x];
    && z.cart in tab.carts && z.order.Some? && z.order.value in tab.orders
    && var cart, order := tab.carts[z.cart], tab.orders[z.order.value];
    && (cart.state == Placed || cart.state == CartState.Cancelled)
    && z.website == cart.website && z.pin == cart.pin
    && order.number == x
    && order.total == z.amount && z.amount >= 0.0
    && order.carrier == cart.carrier && order.coupon == cart.coupon && Some(order.customer) == cart.party
    && (order.jurisdiction.Some? <==> cart.mode == Pickup)
    && (z.gateway.Some? ==> GatewayAgrees(tab.gateways, z.gateway.value, x, z.amount, order.customer))
  }

  ghost predicate SessionsAgree(tab: Tables) {
    forall x {:trigger SessionAgrees(tab, x)} | x in tab.sessions :: SessionAgrees(tab, x)
  }

  ghost predicate HasSession(sessions: map<Id, Session>, c: Id) {
    exists x | x in sessions :: sessions[x].cart == c
  }

  ghost predicate OneSessionPerCart(carts: map<Id, Cart>, sessions: map<Id, Session>) {
    && (forall x, y | x in sessions && y in sessions && sessions[x].cart == sessions[y].cart :: x == y)
    && (forall c {:trigger HasSession(sessions, c)} | c in carts && carts[c].state != Open :: HasSession(sessions, c))
  }

  /** Order numbers (`STF-{checkout}`) are unique. */
  ghost predicate NumbersUnique(orders: map<Id, Order>) {
    forall o, q | o in orders && q in orders && orders[o].number == orders[q].number :: o == q
  }

  predicate IsBirth(st: SessionState) {
    st == PendingPayment || st == PendingPickup || st == ConfirmedFree
  }

  /** The lane and the locked total decide how a session is born. */
  predicate BirthOf(lane: Lane, amount: real, birth: SessionState) {
    && IsBirth(birth)
    && (birth == PendingPickup <==> lane == OnSite)
    && (birth == ConfirmedFree <==> lane == Online && amount == 0.0)
    && (birth == PendingPayment <==> lane == Online && amount != 0.0)
  }

  ghost predicate BirthAgrees(birth: SessionState, z: Session) {
    && IsBirth(birth)
    && (birth == ConfirmedFree ==> z.amount == 0.0)
    && (birth == PendingPayment ==> z.amount > 0.0)
    && (birth == PendingPayment <==> z.gateway.Some?)
    && (z.state == birth || z.state == SessionState.Cancelled || (z.state == Settled && birth != ConfirmedFree))
  }

  ghost predicate BirthsRecorded(sessions: map<Id, Session>, births: map<Id, SessionState>) {
    && births.Keys == sessions.Keys
    && forall x {:trigger BirthAgrees(births[x], sessions[x])} | x in sessions :: BirthAgrees(births[x], sessions[x])
  }

  ghost predicate SettlesOwn(tab: Tables, event: Id, target: Id, order: Id) {
    && target in tab.sessions && tab.sessions[target].order == Some(order)
    && tab.sessions[target].gateway == Some(event)
    && event in tab.gateways && tab.gateways[event].settled
  }

  ghost predicate PicksOwn(tab: Tables, target: Id, order: Id) {
    target in tab.sessions && tab.sessions[target].order == Some(order)
    && target in tab.births && tab.births[target] == PendingPickup
  }

  /** The confirmer is the one the order's lane allows. */
  ghost predicate ConfirmerAllowed(tab: Tables, e: Confirmation) {
    && e.order in tab.orders && tab.orders[e.order].status != Draft
    && match e.who
       case ByFreePlace(checkout) =>
         tab.orders[e.order].number == checkout
         && (checkout in tab.births ==> tab.births[checkout] == ConfirmedFree)
       case BySettlement(gateway) =>
         gateway in tab.gateways && SettlesOwn(tab, gateway, tab.gateways[gateway].reference, e.order)
       case ByPickupOfficer(target) => PicksOwn(tab, target, e.order)
  }

  ghost predicate WasConfirmed(confirmations: seq<Confirmation>, o: Id) {
    exists i | 0 <= i < |confirmations| :: confirmations[i].order == o
  }

  ghost predicate ConfirmedOnce(orders: map<Id, Order>, confirmations: seq<Confirmation>) {
    && (forall i, j | 0 <= i < j < |confirmations| :: confirmations[i].order != confirmations[j].order)
    && (forall o {:trigger WasConfirmed(confirmations, o)} | o in orders && orders[o].status == Confirmed ::
          WasConfirmed(confirmations, o))
  }

  ghost predicate ConfirmersAllowed(tab: Tables) {
    forall i {:trigger ConfirmerAllowed(tab, tab.confirmations[i])} | 0 <= i < |tab.confirmations| ::
      ConfirmerAllowed(tab, tab.confirmations[i])
  }

  ghost predicate TablesOk(tab: Tables) {
    && PinsMatchMode(tab.carts)
    && OneOpenCartPerVisitor(tab.carts)
    && SessionsAgree(tab)
    && OneSessionPerCart(tab.carts, tab.sessions)
    && NumbersUnique(tab.orders)
    && BirthsRecorded(tab.sessions, tab.births)
    && ConfirmersAllowed(tab)
    && ConfirmedOnce(tab.orders, tab.confirmations)
  }

  // ── one process against the tables ────────────────────────────────────────

  /** The points inside a row lock's critical section. */
  predicate Critical(at: Point) {
    at.PlaceLocked? || AfterStore(at) || AfterMint(at) || at.VerbLocked? || at.VerbMissed? || at.VerbBilled?
  }

  /** The points at which a party has been resolved. */
  predicate AfterBilling(at: Point) {
    at.PlaceBilled? || at.PlaceSnapped? || at.PlacePriced? || at.PlacePolicied? || at.PlaceGated?
    || AfterMint(at) || at.VerbBilled?
  }

  /** The row a lock holder read is still the cart's row, and it is open; a process
      holds a lock exactly inside its critical section. */
  ghost predicate HoldOk(tab: Tables, pr: Proc) {
    && (pr.hold.Some? <==> Critical(pr.at))
    && (pr.hold.Some? ==>
          var h := pr.hold.value;
          h.cart in tab.carts && tab.carts[h.cart] == h.row && h.row.state == Open)
  }

  /** A resolution agrees with the shopper-party map; without an express capture the
      customer is the party already on the cart. */
  ghost predicate BillOk(tab: Tables, pr: Proc) {
    && (pr.bill.Some? <==> AfterBilling(pr.at))
    && (pr.bill.Some? ==>
          var bill := pr.bill.value;
          && pr.hold.Some?
          && (bill.key.None? ==> !bill.inserts && pr.hold.value.row.party == Some(bill.party))
          && (bill.key.Some? ==>
                if bill.inserts then bill.key.value !in tab.parties
                else bill.key.value in tab.parties && tab.parties[bill.key.value] == bill.party)
          && (pr.at.VerbBilled? ==> bill.key.Some?))
  }

  predicate AfterMint(at: Point) {
    at.PlaceMinted? || at.PlaceTotalled? || at.PlaceArmed?
  }

  /** A minted but unrecorded order belongs to its place alone. */
  ghost predicate DrawOk(tab: Tables, pr: Proc) {
    (pr.draw.Some? <==> AfterMint(pr.at))
    && (pr.draw.Some? ==>
          var Draw(checkout, o) := pr.draw.value;
          && pr.hold.Some? && pr.bill.Some?
          && checkout !in tab.sessions && o in tab.orders
          && var order, row := tab.orders[o], pr.hold.value.row;
          && order.number == checkout
          && order.customer == pr.bill.value.party
          && order.carrier == row.carrier && order.coupon == row.coupon
          && order.jurisdiction == pr.at.call.country && (order.jurisdiction.Some? <==> row.mode == Pickup)
          && (!pr.at.PlaceArmed? ==> order.status == Draft)
          && (pr.at.PlaceTotalled? ==> order.total == pr.at.amount)
          && (pr.at.PlaceArmed? ==>
                && order.total == pr.at.amount
                && BirthOf(pr.at.call.lane, pr.at.amount, pr.at.birth)
                && order.status == (if pr.at.birth == ConfirmedFree then Confirmed else Draft)
                && (pr.at.birth == PendingPayment <==> pr.at.gateway.Some?)
                && (pr.at.gateway.Some? ==>
                      GatewayAgrees(tab.gateways, pr.at.gateway.value, checkout, pr.at.amount, pr.bill.value.party))))
  }

  predicate AfterStore(at: Point) {
    at.PlaceStored? || at.PlaceMissed? || at.PlaceBilled? || at.PlaceSnapped? || at.PlacePriced?
    || at.PlacePolicied? || at.PlaceGated?
  }

  /** A store country is carried exactly by a pickup cart's place. */
  ghost predicate CountryOk(pr: Proc) {
    AfterStore(pr.at) ==> pr.hold.Some? && (pr.at.call.country.Some? <==> pr.hold.value.row.mode == Pickup)
  }

  ghost predicate Linked(tab: Tables, cart: Id, user: Id) {
    cart in tab.carts && tab.carts[cart].portalUser == Some(user)
  }

  ghost predicate CancelsOwn(tab: Tables, target: Id, order: Id, cart: Id) {
    target in tab.sessions && tab.sessions[target].order == Some(order) && tab.sessions[target].cart == cart
  }

  ghost predicate Bound(tab: Tables, key: Key, party: Id) {
    key in tab.parties && tab.parties[key] == party
  }

  /** The checkout's order bills this party. */
  ghost predicate Billed(tab: Tables, x: Id, party: Id) {
    x in tab.sessions && tab.sessions[x].order.Some? && tab.sessions[x].order.value in tab.orders
    && tab.orders[tab.sessions[x].order.value].customer == party
  }

  /** What a program point says about the tables. */
  ghost predicate PointOk(tab: Tables, at: Point) {
    match at
    case AdoptRead(cart, _, user) => Linked(tab, cart, user)
    case AdoptChecked(cart, _, user) => Linked(tab, cart, user)
    case RecoverRead(cart, _, user) => Linked(tab, cart, user)
    case RecoverChecked(cart, _, user) => Linked(tab, cart, user)
    case SettleRead(event, target, order) => SettlesOwn(tab, event, target, order)
    case SettleConfirmed(event, target, order) => SettlesOwn(tab, event, target, order)
    case PickupRead(target, order) => PicksOwn(tab, target, order)
    case PickupConfirmed(target, order) => PicksOwn(tab, target, order)
    case CancelRead(target, order, cart) => CancelsOwn(tab, target, order, cart)
    case CancelVoided(target, order, cart) => CancelsOwn(tab, target, order, cart)
    case CancelStamped(target, cart) => target in tab.sessions && tab.sessions[target].cart == cart
    case Done(outcome) => OutcomeOk(tab, outcome)
    case _ => true
  }

  /** What a finished verb may still rely on. */
  ghost predicate OutcomeOk(tab: Tables, outcome: Outcome) {
    match outcome
    case BillingCaptured(key, party) => Bound(tab, key, party)
    case CheckedOut(x, lane, key, party) =>
      && x in tab.births && (tab.births[x] == PendingPickup <==> lane == OnSite)
      && Billed(tab, x, party) && (key.Some? ==> Bound(tab, key.value, party))
    case Stamped(x) =>
      x in tab.sessions && tab.sessions[x].state != PendingPayment && tab.sessions[x].state != PendingPickup
    case _ => true
  }

  ghost predicate ProcOk(tab: Tables, pr: Proc) {
    HoldOk(tab, pr) && BillOk(tab, pr) && DrawOk(tab, pr) && CountryOk(pr) && PointOk(tab, pr.at)
  }

  // ── processes against each other ──────────────────────────────────────────

  /** A row lock is held by exactly the process that is inside its critical section. */
  ghost predicate LocksHeld(locks: map<Id, Id>, procs: map<Id, Proc>) {
    && (forall c | c in locks ::
          locks[c] in procs && procs[locks[c]].hold.Some? && procs[locks[c]].hold.value.cart == c)
    && (forall p | p in procs && procs[p].hold.Some? ::
          procs[p].hold.value.cart in locks && locks[procs[p].hold.value.cart] == p)
  }

  /** Two processes never share a drawn checkout or an uncommitted map key. */
  ghost predicate Apart(a: Proc, b: Proc) {
    && (a.draw.Some? && b.draw.Some? ==> a.draw.value.checkout != b.draw.value.checkout)
    && (Uncommitted(a).Some? && Uncommitted(b).Some? ==> Uncommitted(a) != Uncommitted(b))
  }

  ghost predicate AllApart(procs: map<Id, Proc>) {
    forall p, q | p in procs && q in procs && p != q :: Apart(procs[p], procs[q])
  }

  ghost predicate ProcsOk(tab: Tables, procs: map<Id, Proc>) {
    forall p | p in procs :: ProcOk(tab, procs[p])
  }

  ghost predicate Inv(s: State) {
    TablesOk(s.tab) && ProcsOk(s.tab, s.procs) && LocksHeld(s.locks, s.procs) && AllApart(s.procs)
  }
}
