/** The checkout and cart verbs as they run in place on the tables, one connection at a
    time. Each is proved to do exactly what its steps do with nothing in between, and
    to keep the tables in order. */
module CheckoutService {
  import opened StorefrontTypes
  import Pricing
  import opened CheckoutState
  import opened CheckoutSteps
  import opened CheckoutInvariants
  import opened CheckoutAlone
  import opened CheckoutPlaceAlone

  class CheckoutTables {
    var carts: map<Id, Cart>
    var parties: map<Key, Id>
    var orders: map<Id, Order>
    var gateways: map<Id, GatewayRow>
    var sessions: map<Id, Session>
    ghost var births: map<Id, SessionState>
    ghost var confirmations: seq<Confirmation>

    ghost function Tab(): Tables
      reads this
    {
      Tables(carts, parties, orders, gateways, sessions, births, confirmations)
    }

    ghost predicate Valid()
      reads this
    {
      TablesOk(Tab())
    }

    constructor ()
      ensures Valid() && Tab() == Tables(map[], map[], map[], map[], map[], map[], [])
    {
      carts, parties, orders, gateways, sessions := map[], map[], map[], map[], map[];
      births, confirmations := map[], [];
    }

    // ── delivery, pickup, reset, billing ────────────────────────────────────

    method SetDelivery(around: Surroundings, cart: Id, carrier: Id, owned: bool) returns (r: Outcome)
      requires Valid()
      modifies this`carts
      ensures Valid()
      ensures Finish(Tab(), r) == WriteAlone(around, old(Tab()), cart, LockedVerb.SetDelivery(carrier), owned)
    {
      ghost var before := Tab();
      WriteAloneIs(around, before, cart, LockedVerb.SetDelivery(carrier), owned);
      RunAloneKeeps(around, before, WriteSteps(cart, LockedVerb.SetDelivery(carrier), owned));
      if cart !in carts { return Refused(CartNotFound); }
      var row := carts[cart];
      if row.state != Open { return Refused(CartNotOpen(row.state)); }
      if !owned { return Refused(CarrierNotFound); }
      carts := carts[cart := row.(carrier := Some(carrier))];
      r := Changed;
    }

    method SetPickup(around: Surroundings, cart: Id, location: Id) returns (r: Outcome)
      requires Valid()
      modifies this`carts
      ensures Valid()
      ensures Finish(Tab(), r) == WriteAlone(around, old(Tab()), cart, LockedVerb.SetPickup(location), true)
    {
      ghost var before := Tab();
      WriteAloneIs(around, before, cart, LockedVerb.SetPickup(location), true);
      RunAloneKeeps(around, before, WriteSteps(cart, LockedVerb.SetPickup(location), true));
      if cart !in carts { return Refused(CartNotFound); }
      var row := carts[cart];
      if row.state != Open { return Refused(CartNotOpen(row.state)); }
      if location !in around.locations || !around.locations[location].active
         || around.locations[location].website != row.website
      {
        return Refused(PickupLocationNotFound);
      }
      carts := carts[cart := row.(mode := Pickup, pin := Some(location))];
      r := Changed;
    }

    method ResetFulfillment(around: Surroundings, cart: Id) returns (r: Outcome)
      requires Valid()
      modifies this`carts
      ensures Valid()
      ensures Finish(Tab(), r) == WriteAlone(around, old(Tab()), cart, LockedVerb.ResetFulfillment, true)
    {
      ghost var before := Tab();
      WriteAloneIs(around, before, cart, LockedVerb.ResetFulfillment, true);
      RunAloneKeeps(around, before, WriteSteps(cart, LockedVerb.ResetFulfillment, true));
      if cart !in carts { return Refused(CartNotFound); }
      var row := carts[cart];
      if row.state != Open { return Refused(CartNotOpen(row.state)); }
      carts := carts[cart := row.(mode := Delivery, pin := None)];
      r := Changed;
    }

    /** The key's email arrives normalized; `minted` is the party the party port would
        create for a new key. */
    method CaptureBilling(around: Surroundings, cart: Id, key: Key, minted: Id) returns (r: Outcome)
      requires Valid()
      modifies this`carts, this`parties
      ensures Valid()
      ensures Finish(Tab(), r) == CaptureAlone(around, old(Tab()), cart, key, minted)
    {
      ghost var before := Tab();
      CaptureAloneIs(around, before, cart, key, minted);
      RunAloneKeeps(around, before, CaptureSteps(cart, key, minted));
      if cart !in carts { return Refused(CartNotFound); }
      var row := carts[cart];
      if row.state != Open { return Refused(CartNotOpen(row.state)); }
      var party := minted;
      if key in parties { party := parties[key]; } else { parties := parties[key := party]; }
      carts := carts[cart := row.(party := Some(party))];
      assert parties == before.parties[key := party];
      r := BillingCaptured(key, party);
    }

    // ── place ───────────────────────────────────────────────────────────────

    /** The whole critical section: lock, store, billing, lines, prices, stock, mint,
        arm, and the outer commit. The drawn ids and the order's total are selling's
        and the database's answers. */
    method PlaceWithLane(around: Surroundings, a: PlaceArgs) returns (r: Outcome)
      requires Valid() && Undrawn(Tab(), a)
      modifies this
      ensures Valid()
      ensures Finish(Tab(), r) == PlaceAlone(around, old(Tab()), a)
      ensures r.CheckedOut? ==>
        r.checkout == a.checkout && r.lane == a.lane && PlacedRight(around, old(Tab()), Tab(), a, r.customer)
    {
      ghost var before := Tab();
      r := PlaceInLane(around, a);
      if r.CheckedOut? { var party := PlaceAloneRecords(around, before, a); }
    }

    /** The statements of the critical section, in order. */
    method PlaceInLane(around: Surroundings, a: PlaceArgs) returns (r: Outcome)
      requires Valid() && Undrawn(Tab(), a)
      modifies this
      ensures Valid()
      ensures Finish(Tab(), r) == PlaceAlone(around, old(Tab()), a)
    {
      ghost var before := Tab();
      PlaceAloneIs(around, before, a);
      RunAloneKeeps(around, before, PlaceSteps(PlaceActs(a)));
      if a.cart !in carts || carts[a.cart].state != Open { return Refused(CartNotFound); }
      var row := carts[a.cart];
      if a.lane == OnSite && row.mode != Pickup { return Refused(PickupModeRequired); }
      var country: Option<string> := None;
      if row.mode == Pickup {
        if row.pin == None || row.pin.value !in around.locations || !around.locations[row.pin.value].active {
          return Refused(PickupLocationNotFound);
        }
        country := around.locations[row.pin.value].country;
        if country == None { return Refused(PickupCountryMissing); }
      }
      var bill: Billing;
      if a.billing == None {
        if row.party == None { return Refused(BillingRequired); }
        bill := Billing(row.party.value, None, false);
      } else {
        var key := Key(a.company, NormalizeEmail(a.billing.value));
        if !ValidEmail(key.email) { return Refused(InvalidEmail); }
        bill := if key in parties then Billing(parties[key], Some(key), false) else Billing(a.minted, Some(key), true);
      }
      ghost var o := Opening(row, country, bill);
      assert OpenPlace(around, before, a) == Ok(o);
      var lines := LinesOf(around, a.cart);
      var prices := AtWebsite(around.prices, row.website);
      if lines == [] { return Refused(EmptyCart); }
      if !Pricing.AllPriceable(prices, lines) { return Refused(PublishGateRefused); }
      var stock := StockIn(around, ScopeOf(around, row.mode, row.pin));
      var verdict := GateVerdict(stock, AtWebsite(around.policies, row.website), lines);
      if verdict.Err? { return Refused(StockRefused(verdict.error)); }
      var items := Pricing.MintLines(prices, lines);
      assert GateBasket(around, a.cart, row) == Ok(items);
      MintAndArm(a, row, country, bill, items);
      assert Tab() == Armed(before, a, o, items);
      if a.total < 0.0 { return Refused(AmountRefused); }
      CommitPlace(a, row, country, bill);
      r := CheckedOut(a.checkout, a.lane, bill.key, bill.party);
    }

    /** The mint, the free arm's confirm and the gateway row commit on their own. */
    method MintAndArm(a: PlaceArgs, row: Cart, country: Option<string>, bill: Billing, items: seq<OrderLine>)
      modifies this`orders, this`gateways, this`confirmations
      ensures Tab() == Armed(old(Tab()), a, Opening(row, country, bill), items)
    {
      orders := orders[a.order := Order(a.checkout, bill.party, row.carrier, row.coupon, country, items, a.total, Draft)];
      if a.lane == Online {
        if a.total == 0.0 {
          ConfirmSalesOrder(a.order, ByFreePlace(a.checkout));
        } else {
          gateways := gateways[a.gateway := GatewayRow(a.checkout, bill.party, a.total, 0.0, a.total, false)];
        }
      }
    }

    /** The outer transaction's commit: session, billing stamp and placement flip. */
    method CommitPlace(a: PlaceArgs, row: Cart, ghost country: Option<string>, bill: Billing)
      requires a.total >= 0.0
      modifies this`sessions, this`births, this`carts, this`parties
      ensures Tab() == Recorded(old(Tab()), a, Opening(row, country, bill)).tab
    {
      var birth := Birth(a);
      var gateway := if birth == PendingPayment then Some(a.gateway) else None;
      var pin := if row.mode == Pickup then row.pin else None;
      sessions := sessions[a.checkout := Session(a.cart, row.website, Some(a.order), gateway, a.total, birth, pin)];
      births := births[a.checkout := birth];
      if bill.inserts && bill.key.Some? { parties := parties[bill.key.value := bill.party]; }
      carts := carts[a.cart := row.(state := Placed, party := if bill.key.Some? then Some(bill.party) else row.party)];
    }

    // ── settlement, pickup confirm, cancel ──────────────────────────────────

    /** A settled gateway event: not ours, already handled, or confirm then stamp. */
    method ConsumeSettlement(around: Surroundings, event: Id) returns (r: Outcome)
      requires Valid() && event in gateways && gateways[event].settled
      modifies this`orders, this`sessions, this`confirmations
      ensures Valid()
      ensures (forall x | x in old(sessions) :: old(sessions)[x].gateway != Some(event)) ==>
        r == NotOurs && Tab() == old(Tab())
      ensures forall x | x in old(sessions) && old(sessions)[x].gateway == Some(event) ::
        Finish(Tab(), r) == ConsumeAlone(around, old(Tab()), event, x)
    {
      if x :| x in sessions && sessions[x].gateway == Some(event) {
        ghost var before := Tab();
        OneSessionPerGatewayRow(before, event);
        ConsumeAloneIs(around, before, event, x);
        RunAloneKeeps(around, before, ConsumeSteps(event, x));
        if sessions[x].state != PendingPayment { return AlreadyHandled; }
        if sessions[x].order.None? { return Refused(SellingRefused); }
        var order := sessions[x].order.value;
        ConfirmSalesOrder(order, BySettlement(event));
        if sessions[x].state == PendingPayment { sessions := sessions[x := sessions[x].(state := Settled)]; }
        r := Stamped(x);
      } else {
        r := NotOurs;
      }
    }

    /** The officer's confirm of a pay-on-site checkout. */
    method ConfirmPickup(around: Surroundings, x: Id) returns (r: Outcome)
      requires Valid()
      modifies this`orders, this`sessions, this`confirmations
      ensures Valid()
      ensures Finish(Tab(), r) == PickUpAlone(around, old(Tab()), x)
    {
      ghost var before := Tab();
      PickUpAloneIs(around, before, x);
      RunAloneKeeps(around, before, PickUpSteps(x));
      if x !in sessions { return Refused(CheckoutNotFound); }
      if sessions[x].state != PendingPickup { return Refused(CheckoutStateRefused(sessions[x].state)); }
      if sessions[x].order.None? { return Refused(SellingRefused); }
      var order := sessions[x].order.value;
      ConfirmSalesOrder(order, ByPickupOfficer(x));
      if sessions[x].state == PendingPickup { sessions := sessions[x := sessions[x].(state := Settled)]; }
      r := Stamped(x);
    }

    /** Selling's confirm: NotDraft counts as done. */
    method ConfirmSalesOrder(order: Id, ghost who: Confirmer)
      modifies this`orders, this`confirmations
      ensures Tab() == ConfirmOrder(old(Tab()), order, who)
      ensures orders == if order in old(orders) && old(orders)[order].status == Draft
                        then old(orders)[order := old(orders)[order].(status := Confirmed)] else old(orders)
    {
      if order in orders && orders[order].status == Draft {
        orders := orders[order := orders[order].(status := Confirmed)];
        confirmations := confirmations + [Confirmation(order, who)];
      }
    }

    method CancelCheckout(around: Surroundings, x: Id) returns (r: Outcome)
      requires Valid()
      modifies this`orders, this`sessions, this`carts
      ensures Valid()
      ensures Finish(Tab(), r) == CancelAlone(around, old(Tab()), x)
    {
      ghost var before := Tab();
      CancelAloneIs(around, before, x);
      RunAloneKeeps(around, before, CancelSteps(x));
      if x !in sessions { return Refused(CheckoutNotFound); }
      if sessions[x].state == Settled || sessions[x].state == SessionState.Cancelled || sessions[x].state == Failed {
        return Refused(CheckoutStateRefused(sessions[x].state));
      }
      if sessions[x].order.None? { return Refused(SellingRefused); }
      var order, cart := sessions[x].order.value, sessions[x].cart;
      if order !in orders || orders[order].status == Void { return Refused(SellingRefused); }
      orders := orders[order := orders[order].(status := Void)];
      sessions := sessions[x := sessions[x].(state := SessionState.Cancelled)];
      carts := carts[cart := carts[cart].(state := CartState.Cancelled)];
      r := Changed;
    }

    // ── cart verbs ──────────────────────────────────────────────────────────

    /** Insert unless the visitor has an open cart; either way one is open after. */
    method CreateCart(around: Surroundings, newId: Id, website: Id, visitor: Id) returns (r: Outcome)
      requires Valid() && newId !in carts
      modifies this`carts
      ensures Valid() && exists c | c in carts :: carts[c].state == Open && carts[c].visitor == visitor
      ensures Finish(Tab(), r) == CreateAlone(around, old(Tab()), newId, website, visitor)
    {
      ghost var before := Tab();
      CreateAloneIs(around, before, newId, website, visitor);
      RunAloneKeeps(around, before, CreateSteps(newId, website, visitor));
      if !HasOpenCart(carts, visitor) {
        carts := carts[newId := Cart(website, visitor, None, None, Open, None, None, Delivery, None)];
        assert carts[newId].visitor == visitor;
      }
      r := Changed;
    }

    /** Apply a well-formed coupon code, or remove the code. */
    method SetCoupon(around: Surroundings, cart: Id, code: Option<string>) returns (r: Outcome)
      requires Valid()
      modifies this`carts
      ensures Valid()
      ensures Finish(Tab(), r) == CouponAlone(around, old(Tab()), cart, code)
    {
      ghost var before := Tab();
      CouponAloneIs(around, before, cart, code);
      RunAloneKeeps(around, before, CouponSteps(cart, code));
      if cart !in carts { return Refused(CartNotFound); }
      if carts[cart].state != Open { return Refused(CartNotOpen(carts[cart].state)); }
      carts := carts[cart := carts[cart].(coupon := code)];
      r := Changed;
    }

    method AdoptCart(around: Surroundings, cart: Id, visitor: Id, user: Id) returns (r: Outcome)
      requires Valid()
      modifies this`carts
      ensures Valid()
      ensures Finish(Tab(), r) == AdoptAlone(around, old(Tab()), cart, visitor, user)
    {
      ghost var before := Tab();
      AdoptAloneIs(around, before, cart, visitor, user);
      RunAloneKeeps(around, before, AdoptSteps(cart, visitor, user));
      if cart !in carts { return Refused(CartNotFound); }
      var row := carts[cart];
      if row.portalUser != Some(user) || row.state != Open { return Refused(CartNotAdoptable); }
      if OtherOpenCart(carts, visitor, cart) { return Refused(OpenCartExists); }
      carts := carts[cart := row.(visitor := visitor, portalUser := Some(user))];
      r := Changed;
    }

    method RecoverCart(around: Surroundings, cart: Id, visitor: Id, principal: Option<Id>) returns (r: Outcome)
      requires Valid()
      modifies this`carts
      ensures Valid()
      ensures Finish(Tab(), r) == RecoverAlone(around, old(Tab()), cart, visitor, principal)
    {
      ghost var before := Tab();
      RecoverAloneIs(around, before, cart, visitor, principal);
      RunAloneKeeps(around, before, RecoverSteps(cart, visitor, principal));
      if cart !in carts { return Refused(CartNotFound); }
      var row := carts[cart];
      var owned := row.visitor == visitor || (principal.Some? && row.portalUser == principal);
      if !owned { return Refused(CartNotFound); }
      if row.state != Open { return Refused(CartNotOpen(row.state)); }
      if row.visitor == visitor { return Changed; }
      if OtherOpenCart(carts, visitor, cart) { return Refused(OpenCartExists); }
      carts := carts[cart := row.(visitor := visitor)];
      r := Changed;
    }
  }
}
