/** A verb with nothing in between: its steps, taken one after another by one process
    that nobody disturbs. The imperative verbs are proved against this. */
module CheckoutAlone {
  import opened StorefrontTypes
  import opened CheckoutState
  import opened CheckoutSteps
  import opened CheckoutInvariants
  import opened CheckoutFrames
  import opened CheckoutStepProofs
  import opened CheckoutSettlement

  /** The state in which process 0 is the only one, with its record and row lock. */
  function AloneAt(around: Surroundings, e: Effect): State {
    State(around, e.tab, if e.proc.hold.Some? then map[e.proc.hold.value.cart := 0] else map[], map[0 := e.proc])
  }

  predicate Own(step: Step) {
    !step.Surround? && !step.GatewaySettles? && step.p == 0
  }

  /** Take the step if it is enabled; a step that is not is passed over. */
  function Try(around: Surroundings, e: Effect, step: Step): Effect {
    if Own(step) && Enabled(AloneAt(around, e), step) then StepEffect(AloneAt(around, e), step) else e
  }

  function Alone(around: Surroundings, e: Effect, steps: seq<Step>): Effect
    decreases |steps|
  {
    if steps == [] then e else Alone(around, Try(around, e, steps[0]), steps[1..])
  }

  lemma InstallStaysAlone(around: Surroundings, e: Effect, after: Effect)
    requires LocksHeld(Install(AloneAt(around, e), 0, after).locks, Install(AloneAt(around, e), 0, after).procs)
    ensures Install(AloneAt(around, e), 0, after) == AloneAt(around, after)
  {
    assert Install(AloneAt(around, e), 0, after).procs == map[0 := after.proc];
    assert Install(AloneAt(around, e), 0, after).locks == AloneAt(around, after).locks;
  }

  lemma TryIsApply(around: Surroundings, e: Effect, step: Step)
    requires Inv(AloneAt(around, e)) && Own(step) && Enabled(AloneAt(around, e), step)
    ensures Apply(AloneAt(around, e), step) == AloneAt(around, Try(around, e, step))
    ensures Inv(AloneAt(around, Try(around, e, step)))
  {
    StepKeepsInv(AloneAt(around, e), step);
    ApplyIsInstall(AloneAt(around, e), step);
    InstallStaysAlone(around, e, StepEffect(AloneAt(around, e), step));
  }

  /** A verb run alone keeps the tables in order. */
  lemma {:induction false} AloneKeepsInv(around: Surroundings, e: Effect, steps: seq<Step>)
    requires Inv(AloneAt(around, e))
    ensures Inv(AloneAt(around, Alone(around, e, steps)))
    decreases |steps|
  {
    if steps != [] {
      if Own(steps[0]) && Enabled(AloneAt(around, e), steps[0]) { TryIsApply(around, e, steps[0]); }
      AloneKeepsInv(around, Try(around, e, steps[0]), steps[1..]);
    }
  }

  /** A finished verb takes no more steps. */
  lemma {:induction false} FinishedStays(around: Surroundings, e: Effect, steps: seq<Step>)
    requires e.proc.at.Done?
    ensures Alone(around, e, steps) == e
    decreases |steps|
  {
    if steps != [] {
      FinishedIsDisabled(around, e, steps[0]);
      FinishedStays(around, e, steps[1..]);
    }
  }

  lemma FinishedIsDisabled(around: Surroundings, e: Effect, step: Step)
    requires e.proc.at.Done?
    ensures Try(around, e, step) == e
  {}

  /** One step of the list, taken or passed over. */
  lemma Advance(around: Surroundings, e: Effect, steps: seq<Step>, k: nat)
    requires k < |steps|
    ensures Alone(around, e, steps[k..]) == Alone(around, Try(around, e, steps[k]), steps[k + 1..])
  {
    assert steps[k..][0] == steps[k] && steps[k..][1..] == steps[k + 1..];
  }

  lemma FreshStart(around: Surroundings, tab: Tables)
    requires TablesOk(tab)
    ensures Inv(AloneAt(around, Effect(tab, Idle(NotStarted))))
  {}

  // ── place alone ───────────────────────────────────────────────────────────

  /** What a place is called with, and what it will draw if it gets that far. */
  datatype PlaceArgs = PlaceArgs(
    company: Id, cart: Id, lane: Lane, billing: Option<string>, minted: Id,
    checkout: Id, order: Id, total: real, gateway: Id)

  function PlaceActs(a: PlaceArgs): (acts: seq<PlaceAct>)
    ensures |acts| == 12
  {
    [LockCart(a.company, a.cart, a.lane, a.billing), ReadStore, ReadMap, InsertMap(a.minted), ReadLines, Price,
     ReadPolicy, ReadStock, Mint(a.checkout, a.order, a.total), ReadTotal, Arm(a.gateway), Commit]
  }

  function PlaceSteps(acts: seq<PlaceAct>): seq<Step> {
    seq(|acts|, k requires 0 <= k < |acts| => PlaceStep(0, acts[k]))
  }

  /** The drawn ids are new. */
  predicate Undrawn(tab: Tables, a: PlaceArgs) {
    a.order !in tab.orders && a.gateway !in tab.gateways
    && forall o | o in tab.orders :: tab.orders[o].number != a.checkout
  }

  lemma AdvancePlace(around: Surroundings, e: Effect, acts: seq<PlaceAct>, k: nat)
    requires k < |acts| && PlaceReady(e.tab, e.proc, acts[k])
    requires e.proc.hold == None || !acts[k].LockCart?
    requires acts[k].InsertMap? ==> e.proc.bill == None
    ensures Alone(around, e, PlaceSteps(acts)[k..])
            == Alone(around, PlaceEffect(around, e.tab, e.proc, acts[k]), PlaceSteps(acts)[k + 1..])
  {
    var s := AloneAt(around, e);
    assert PlaceSteps(acts)[k] == PlaceStep(0, acts[k]);
    assert ProcOf(s, 0) == e.proc && Enabled(s, PlaceStep(0, acts[k]));
    Advance(around, e, PlaceSteps(acts), k);
  }

  lemma PassPlace(around: Surroundings, e: Effect, acts: seq<PlaceAct>, k: nat)
    requires k < |acts| && !PlaceReady(e.tab, e.proc, acts[k])
    ensures Alone(around, e, PlaceSteps(acts)[k..]) == Alone(around, e, PlaceSteps(acts)[k + 1..])
  {
    var s := AloneAt(around, e);
    assert PlaceSteps(acts)[k] == PlaceStep(0, acts[k]);
    assert ProcOf(s, 0) == e.proc && !Enabled(s, PlaceStep(0, acts[k]));
    Advance(around, e, PlaceSteps(acts), k);
  }

  // ── the other verbs alone ─────────────────────────────────────────────────

  lemma TryVerb(around: Surroundings, e: Effect, act: VerbAct)
    requires e.proc.hold == None || !act.Lock?
    requires act.Insert? ==> e.proc.bill == None
    ensures Try(around, e, VerbStep(0, act))
            == if VerbReady(e.proc, act) then VerbEffect(around, e.tab, e.proc, act) else e
  {
    assert ProcOf(AloneAt(around, e), 0) == e.proc;
  }

  lemma TryCart(around: Surroundings, e: Effect, act: CartAct)
    requires e.proc.hold == None
    ensures Try(around, e, CartStep(0, act))
            == if CartReady(e.tab, e.proc, act) then CartEffect(e.tab, e.proc, act) else e
  {
    assert ProcOf(AloneAt(around, e), 0) == e.proc;
  }

  lemma TryCancel(around: Surroundings, e: Effect, act: CancelAct)
    requires e.proc.hold == None
    ensures Try(around, e, CancelStep(0, act))
            == if CancelReady(e.tab, e.proc, act) then CancelEffect(e.tab, e.proc, act) else e
  {
    assert ProcOf(AloneAt(around, e), 0) == e.proc;
  }

  lemma TrySettle(around: Surroundings, e: Effect, act: SettleAct)
    ensures Try(around, e, SettleStep(0, act))
            == if SettleReady(e.tab, e.proc, act) then SettleEffect(e.tab, e.proc, act) else e
  {
    assert ProcOf(AloneAt(around, e), 0) == e.proc;
  }

  lemma InTwo(around: Surroundings, e: Effect, a: Step, b: Step)
    ensures Alone(around, e, [a, b]) == Try(around, Try(around, e, a), b)
  {
    assert [a, b][1..] == [b] && [b][1..] == [];
    assert Alone(around, Try(around, e, a), [b]) == Alone(around, Try(around, Try(around, e, a), b), []);
  }

  lemma InThree(around: Surroundings, e: Effect, a: Step, b: Step, c: Step)
    ensures Alone(around, e, [a, b, c]) == Try(around, Try(around, Try(around, e, a), b), c)
  {
    assert [a, b, c][1..] == [b, c];
    InTwo(around, Try(around, e, a), b, c);
  }

  lemma InFour(around: Surroundings, e: Effect, a: Step, b: Step, c: Step, d: Step)
    ensures Alone(around, e, [a, b, c, d]) == Try(around, Try(around, Try(around, Try(around, e, a), b), c), d)
  {
    assert [a, b, c, d][1..] == [b, c, d];
    InThree(around, Try(around, e, a), b, c, d);
  }

  /** A delivery, pickup or reset verb. */
  function WriteSteps(cart: Id, verb: LockedVerb, owned: bool): seq<Step> {
    [VerbStep(0, Lock(cart, verb)), VerbStep(0, Write(owned))]
  }

  function WriteAlone(around: Surroundings, tab: Tables, cart: Id, verb: LockedVerb, owned: bool): Effect {
    Alone(around, Effect(tab, Idle(NotStarted)), WriteSteps(cart, verb, owned))
  }

  /** It refuses a closed cart naming its state, then a carrier or store it may not
      use, and else the row it locked carries the carrier asked for, or is pinned for
      pickup at the store asked for, or is back to delivery without a pin; nothing else
      of it changes. */
  lemma WriteAloneIs(around: Surroundings, tab: Tables, cart: Id, verb: LockedVerb, owned: bool)
    requires !verb.CaptureBilling?
    ensures var e := WriteAlone(around, tab, cart, verb, owned);
      if cart !in tab.carts then e == Finish(tab, Refused(CartNotFound))
      else if tab.carts[cart].state != Open then e == Finish(tab, Refused(CartNotOpen(tab.carts[cart].state)))
      else if verb.SetDelivery? && !owned then e == Finish(tab, Refused(CarrierNotFound))
      else if verb.SetPickup? && !(verb.location in around.locations && around.locations[verb.location].active
                                   && around.locations[verb.location].website == tab.carts[cart].website) then
        e == Finish(tab, Refused(PickupLocationNotFound))
      else
        var row := tab.carts[cart];
        && e.proc == Idle(Done(Changed)) && cart in e.tab.carts
        && e.tab == tab.(carts := tab.carts[cart := e.tab.carts[cart]])
        && (verb.SetDelivery? ==> e.tab.carts[cart] == row.(carrier := Some(verb.carrier)))
        && (verb.SetPickup? ==> e.tab.carts[cart] == row.(mode := Pickup, pin := Some(verb.location)))
        && (verb.ResetFulfillment? ==> e.tab.carts[cart] == row.(mode := Delivery, pin := None))
  {
    var start := Effect(tab, Idle(NotStarted));
    InTwo(around, start, VerbStep(0, Lock(cart, verb)), VerbStep(0, Write(owned)));
    TryVerb(around, start, Lock(cart, verb));
    TryVerb(around, Try(around, start, VerbStep(0, Lock(cart, verb))), Write(owned));
  }

  /** A billing capture: lock, look the key up, insert it if it is missing, write. */
  function CaptureSteps(cart: Id, key: Key, minted: Id): seq<Step> {
    [VerbStep(0, Lock(cart, CaptureBilling(key))), VerbStep(0, LookUp),
     VerbStep(0, Insert(minted)), VerbStep(0, WriteBilling)]
  }

  function CaptureAlone(around: Surroundings, tab: Tables, cart: Id, key: Key, minted: Id): Effect {
    Alone(around, Effect(tab, Idle(NotStarted)), CaptureSteps(cart, key, minted))
  }

  /** The lookup leaves the key resolved or missed, under the lock. */
  function LookedUp(tab: Tables, cart: Id, key: Key): Effect {
    if cart !in tab.carts then Finish(tab, Refused(CartNotFound))
    else if tab.carts[cart].state != Open then Finish(tab, Refused(CartNotOpen(tab.carts[cart].state)))
    else if key in tab.parties then
      Effect(tab, Proc(Some(Hold(cart, tab.carts[cart])), Some(Billing(tab.parties[key], Some(key), false)), None,
                       VerbBilled))
    else Effect(tab, Proc(Some(Hold(cart, tab.carts[cart])), None, None, VerbMissed(key)))
  }

  lemma LookedUpIs(around: Surroundings, tab: Tables, cart: Id, key: Key)
    ensures Try(around, Try(around, Effect(tab, Idle(NotStarted)), VerbStep(0, Lock(cart, CaptureBilling(key)))),
                VerbStep(0, LookUp))
            == LookedUp(tab, cart, key)
  {
    var start := Effect(tab, Idle(NotStarted));
    TryVerb(around, start, Lock(cart, CaptureBilling(key)));
    TryVerb(around, Try(around, start, VerbStep(0, Lock(cart, CaptureBilling(key)))), LookUp);
  }

  lemma MissedEnds(around: Surroundings, tab: Tables, cart: Id, row: Cart, key: Key, minted: Id)
    requires key !in tab.parties
    ensures var missed := Effect(tab, Proc(Some(Hold(cart, row)), None, None, VerbMissed(key)));
      Try(around, Try(around, missed, VerbStep(0, Insert(minted))), VerbStep(0, WriteBilling))
      == Finish(PutCart(tab, cart, row.(party := Some(minted))).(parties := tab.parties[key := minted]),
                BillingCaptured(key, minted))
  {
    var missed := Effect(tab, Proc(Some(Hold(cart, row)), None, None, VerbMissed(key)));
    TryVerb(around, missed, Insert(minted));
    TryVerb(around, Try(around, missed, VerbStep(0, Insert(minted))), WriteBilling);
  }

  lemma KnownEnds(around: Surroundings, tab: Tables, cart: Id, row: Cart, key: Key, party: Id, minted: Id)
    ensures var known := Effect(tab, Proc(Some(Hold(cart, row)), Some(Billing(party, Some(key), false)), None, VerbBilled));
      Try(around, Try(around, known, VerbStep(0, Insert(minted))), VerbStep(0, WriteBilling))
      == Finish(PutCart(tab, cart, row.(party := Some(party))), BillingCaptured(key, party))
  {
    var known := Effect(tab, Proc(Some(Hold(cart, row)), Some(Billing(party, Some(key), false)), None, VerbBilled));
    assert !VerbReady(known.proc, Insert(minted)) && Try(around, known, VerbStep(0, Insert(minted))) == known;
    TryVerb(around, known, WriteBilling);
  }

  lemma CaptureAloneIs(around: Surroundings, tab: Tables, cart: Id, key: Key, minted: Id)
    ensures var e := CaptureAlone(around, tab, cart, key, minted);
      if cart !in tab.carts then e == Finish(tab, Refused(CartNotFound))
      else if tab.carts[cart].state != Open then e == Finish(tab, Refused(CartNotOpen(tab.carts[cart].state)))
      else
        var party := if key in tab.parties then tab.parties[key] else minted;
        e == Finish(tab.(carts := tab.carts[cart := tab.carts[cart].(party := Some(party))],
                         parties := tab.parties[key := party]),
                    BillingCaptured(key, party))
  {
    InFour(around, Effect(tab, Idle(NotStarted)), VerbStep(0, Lock(cart, CaptureBilling(key))), VerbStep(0, LookUp),
           VerbStep(0, Insert(minted)), VerbStep(0, WriteBilling));
    LookedUpIs(around, tab, cart, key);
    var looked := LookedUp(tab, cart, key);
    if looked.proc.at.Done? {
      FinishedIsDisabled(around, looked, VerbStep(0, Insert(minted)));
      FinishedIsDisabled(around, looked, VerbStep(0, WriteBilling));
    } else if key in tab.parties {
      KnownEnds(around, tab, cart, tab.carts[cart], key, tab.parties[key], minted);
      assert tab.parties[key := tab.parties[key]] == tab.parties;
    } else {
      MissedEnds(around, tab, cart, tab.carts[cart], key, minted);
    }
  }

  // ── settlement, pickup confirm and cancel alone ───────────────────────────

  /** Find, confirm, stamp. */
  function ConsumeSteps(event: Id, x: Id): seq<Step> {
    [SettleStep(0, DeliverFound(event, x)), SettleStep(0, ConfirmPaid), SettleStep(0, StampPaid)]
  }

  /** The session is settled; its order is confirmed, and the confirmation recorded, if it
      was a draft, and left as it was otherwise; nothing else changes. */
  predicate SettledAndConfirmed(t: Tables, u: Tables, x: Id, o: Id, who: Confirmer) {
    && x in t.sessions
    && var sessions := t.sessions[x := t.sessions[x].(state := Settled)];
    if o in t.orders && t.orders[o].status == Draft then
      u == t.(sessions := sessions, orders := t.orders[o := t.orders[o].(status := Confirmed)],
              confirmations := t.confirmations + [Confirmation(o, who)])
    else u == t.(sessions := sessions)
  }

  function ConsumeAlone(around: Surroundings, tab: Tables, event: Id, x: Id): Effect {
    Alone(around, Effect(tab, Idle(NotStarted)), ConsumeSteps(event, x))
  }

  /** A waiting session's order is confirmed if it is a draft, and the session settles
      either way; any other session is left alone. */
  lemma ConsumeAloneIs(around: Surroundings, tab: Tables, event: Id, x: Id)
    requires event in tab.gateways && tab.gateways[event].settled
    requires x in tab.sessions && tab.sessions[x].gateway == Some(event)
    ensures var e := ConsumeAlone(around, tab, event, x); var z := tab.sessions[x];
      if z.state != PendingPayment then e == Finish(tab, AlreadyHandled)
      else if z.order.None? then e == Finish(tab, Refused(SellingRefused))
      else e.proc == Idle(Done(Stamped(x))) && SettledAndConfirmed(tab, e.tab, x, z.order.value, BySettlement(event))
  {
    var start := Effect(tab, Idle(NotStarted));
    var find, pay := SettleStep(0, DeliverFound(event, x)), SettleStep(0, ConfirmPaid);
    InThree(around, start, find, pay, SettleStep(0, StampPaid));
    TrySettle(around, start, DeliverFound(event, x));
    TrySettle(around, Try(around, start, find), ConfirmPaid);
    TrySettle(around, Try(around, Try(around, start, find), pay), StampPaid);
  }

  function PickUpSteps(x: Id): seq<Step> {
    [SettleStep(0, PickupStart(x)), SettleStep(0, ConfirmPickup), SettleStep(0, StampPickup)]
  }

  function PickUpAlone(around: Surroundings, tab: Tables, x: Id): Effect {
    Alone(around, Effect(tab, Idle(NotStarted)), PickUpSteps(x))
  }

  lemma PickUpEnds(around: Surroundings, tab: Tables, x: Id, order: Id)
    requires x in tab.sessions && tab.sessions[x].state == PendingPickup
    ensures var read := Effect(tab, Idle(PickupRead(x, order)));
      Try(around, Try(around, read, SettleStep(0, ConfirmPickup)), SettleStep(0, StampPickup))
      == Finish(StampSession(ConfirmOrder(tab, order, ByPickupOfficer(x)), x, Settled), Stamped(x))
  {
    var read := Effect(tab, Idle(PickupRead(x, order)));
    TrySettle(around, read, ConfirmPickup);
    TrySettle(around, Try(around, read, SettleStep(0, ConfirmPickup)), StampPickup);
  }

  lemma PickUpAloneIs(around: Surroundings, tab: Tables, x: Id)
    ensures var e := PickUpAlone(around, tab, x);
      if x !in tab.sessions then e == Finish(tab, Refused(CheckoutNotFound))
      else
        var z := tab.sessions[x];
        if z.state != PendingPickup then e == Finish(tab, Refused(CheckoutStateRefused(z.state)))
        else if z.order.None? then e == Finish(tab, Refused(SellingRefused))
        else e.proc == Idle(Done(Stamped(x))) && SettledAndConfirmed(tab, e.tab, x, z.order.value, ByPickupOfficer(x))
  {
    var start := Effect(tab, Idle(NotStarted));
    var read, confirm := SettleStep(0, PickupStart(x)), SettleStep(0, ConfirmPickup);
    InThree(around, start, read, confirm, SettleStep(0, StampPickup));
    TrySettle(around, start, PickupStart(x));
    var begun := Try(around, start, read);
    if begun.proc.at.Done? {
      FinishedIsDisabled(around, begun, confirm);
      FinishedIsDisabled(around, begun, SettleStep(0, StampPickup));
    } else {
      PickUpEnds(around, tab, x, tab.sessions[x].order.value);
    }
  }

  function CancelSteps(x: Id): seq<Step> {
    [CancelStep(0, CancelStart(x)), CancelStep(0, CancelSelling),
     CancelStep(0, StampCancelled), CancelStep(0, CancelCart)]
  }

  function CancelAlone(around: Surroundings, tab: Tables, x: Id): Effect {
    Alone(around, Effect(tab, Idle(NotStarted)), CancelSteps(x))
  }

  /** With nothing in between, cancel's separate commits are the one atomic step. */
  lemma CancelAloneIsAtomic(around: Surroundings, tab: Tables, x: Id)
    requires CancelReady(tab, Idle(NotStarted), CancelAtomic(x))
    ensures CancelAlone(around, tab, x) == CancelWhole(tab, x)
  {
    var start := Effect(tab, Idle(NotStarted));
    var read, void := CancelStep(0, CancelStart(x)), CancelStep(0, CancelSelling);
    InFour(around, start, read, void, CancelStep(0, StampCancelled), CancelStep(0, CancelCart));
    TryCancel(around, start, CancelStart(x));
    var e1 := Try(around, start, read);
    TryCancel(around, e1, CancelSelling);
    var e2 := Try(around, e1, void);
    TryCancel(around, e2, StampCancelled);
    TryCancel(around, Try(around, e2, CancelStep(0, StampCancelled)), CancelCart);
  }

  /** Cancel refuses a checkout that is settled, cancelled or failed, or an order that is
      void already; else a waiting payment, a waiting pickup or a free checkout goes with
      its order and its cart, and nothing else changes. */
  lemma CancelAloneIs(around: Surroundings, tab: Tables, x: Id)
    requires SessionsAgree(tab)
    ensures var e := CancelAlone(around, tab, x);
      if x !in tab.sessions then e == Finish(tab, Refused(CheckoutNotFound))
      else
        var z := tab.sessions[x];
        if z.state == Settled || z.state == SessionState.Cancelled || z.state == Failed then
          e == Finish(tab, Refused(CheckoutStateRefused(z.state)))
        else
          z.order.Some? && z.order.value in tab.orders && z.cart in tab.carts
          && e == if tab.orders[z.order.value].status == Void then Finish(tab, Refused(SellingRefused))
                  else Finish(tab.(orders := tab.orders[z.order.value := tab.orders[z.order.value].(status := Void)],
                                   sessions := tab.sessions[x := z.(state := SessionState.Cancelled)],
                                   carts := tab.carts[z.cart := tab.carts[z.cart].(state := CartState.Cancelled)]),
                              Changed)
  {
    CancelIsReady(tab, x);
    CancelAloneIsAtomic(around, tab, x);
    if x in tab.sessions { assert SessionAgrees(tab, x); }
  }

  /** A session's cart is there for the cancel to close. */
  lemma CancelIsReady(tab: Tables, x: Id)
    requires SessionsAgree(tab)
    ensures CancelReady(tab, Idle(NotStarted), CancelAtomic(x))
  {
    if x in tab.sessions { assert SessionAgrees(tab, x); }
  }

  // ── cart verbs alone ──────────────────────────────────────────────────────

  function CouponSteps(cart: Id, code: Option<string>): seq<Step> {
    [CartStep(0, CouponStart(cart, code)), CartStep(0, CouponWrite)]
  }

  function CouponAlone(around: Surroundings, tab: Tables, cart: Id, code: Option<string>): Effect {
    Alone(around, Effect(tab, Idle(NotStarted)), CouponSteps(cart, code))
  }

  lemma CouponAloneIs(around: Surroundings, tab: Tables, cart: Id, code: Option<string>)
    ensures var e := CouponAlone(around, tab, cart, code);
      if cart !in tab.carts then e == Finish(tab, Refused(CartNotFound))
      else if tab.carts[cart].state != Open then e == Finish(tab, Refused(CartNotOpen(tab.carts[cart].state)))
      else e == Finish(tab.(carts := tab.carts[cart := tab.carts[cart].(coupon := code)]), Changed)
  {
    var start := Effect(tab, Idle(NotStarted));
    InTwo(around, start, CartStep(0, CouponStart(cart, code)), CartStep(0, CouponWrite));
    TryCart(around, start, CouponStart(cart, code));
    TryCart(around, Try(around, start, CartStep(0, CouponStart(cart, code))), CouponWrite);
  }

  function AdoptSteps(cart: Id, visitor: Id, user: Id): seq<Step> {
    [CartStep(0, AdoptStart(cart, visitor, user)), CartStep(0, AdoptCheck), CartStep(0, AdoptWrite)]
  }

  function AdoptAlone(around: Surroundings, tab: Tables, cart: Id, visitor: Id, user: Id): Effect {
    Alone(around, Effect(tab, Idle(NotStarted)), AdoptSteps(cart, visitor, user))
  }

  /** Only the linked principal adopts, only an open cart, and only onto a visitor
      without another open one. */
  lemma AdoptEnds(around: Surroundings, tab: Tables, cart: Id, visitor: Id, user: Id)
    ensures var read := Effect(tab, Idle(AdoptRead(cart, visitor, user)));
      Try(around, Try(around, read, CartStep(0, AdoptCheck)), CartStep(0, AdoptWrite))
      == if OtherOpenCart(tab.carts, visitor, cart) then Finish(tab, Refused(OpenCartExists))
         else Rebind(tab, cart, visitor, Some(user))
  {
    var read := Effect(tab, Idle(AdoptRead(cart, visitor, user)));
    TryCart(around, read, AdoptCheck);
    TryCart(around, Try(around, read, CartStep(0, AdoptCheck)), AdoptWrite);
  }

  lemma AdoptAloneIs(around: Surroundings, tab: Tables, cart: Id, visitor: Id, user: Id)
    ensures var e := AdoptAlone(around, tab, cart, visitor, user);
      if cart !in tab.carts then e == Finish(tab, Refused(CartNotFound))
      else if tab.carts[cart].portalUser != Some(user) || tab.carts[cart].state != Open then
        e == Finish(tab, Refused(CartNotAdoptable))
      else if exists d | d in tab.carts && d != cart :: tab.carts[d].state == Open && tab.carts[d].visitor == visitor then
        e == Finish(tab, Refused(OpenCartExists))
      else e == Finish(tab.(carts := tab.carts[cart := tab.carts[cart].(visitor := visitor)]), Changed)
  {
    var start := Effect(tab, Idle(NotStarted));
    var read, check := CartStep(0, AdoptStart(cart, visitor, user)), CartStep(0, AdoptCheck);
    InThree(around, start, read, check, CartStep(0, AdoptWrite));
    TryCart(around, start, AdoptStart(cart, visitor, user));
    var begun := Try(around, start, read);
    if begun.proc.at.Done? {
      FinishedIsDisabled(around, begun, check);
      FinishedIsDisabled(around, begun, CartStep(0, AdoptWrite));
    } else {
      AdoptEnds(around, tab, cart, visitor, user);
    }
  }

  function RecoverSteps(cart: Id, visitor: Id, principal: Option<Id>): seq<Step> {
    [CartStep(0, RecoverStart(cart, visitor, principal)), CartStep(0, RecoverCheck), CartStep(0, RecoverWrite)]
  }

  function RecoverAlone(around: Surroundings, tab: Tables, cart: Id, visitor: Id, principal: Option<Id>): Effect {
    Alone(around, Effect(tab, Idle(NotStarted)), RecoverSteps(cart, visitor, principal))
  }

  lemma RecoverEnds(around: Surroundings, tab: Tables, cart: Id, visitor: Id, user: Id)
    ensures var read := Effect(tab, Idle(RecoverRead(cart, visitor, user)));
      Try(around, Try(around, read, CartStep(0, RecoverCheck)), CartStep(0, RecoverWrite))
      == if OtherOpenCart(tab.carts, visitor, cart) then Finish(tab, Refused(OpenCartExists))
         else Rebind(tab, cart, visitor, None)
  {
    var read := Effect(tab, Idle(RecoverRead(cart, visitor, user)));
    TryCart(around, read, RecoverCheck);
    TryCart(around, Try(around, read, CartStep(0, RecoverCheck)), RecoverWrite);
  }

  lemma RecoverAloneIs(around: Surroundings, tab: Tables, cart: Id, visitor: Id, principal: Option<Id>)
    ensures var e := RecoverAlone(around, tab, cart, visitor, principal);
      if cart !in tab.carts then e == Finish(tab, Refused(CartNotFound))
      else
        var row := tab.carts[cart];
        if row.visitor != visitor && !(principal.Some? && row.portalUser == principal) then
          e == Finish(tab, Refused(CartNotFound))
        else if row.state != Open then e == Finish(tab, Refused(CartNotOpen(row.state)))
        else if row.visitor == visitor then e == Finish(tab, Changed)
        else if exists d | d in tab.carts && d != cart :: tab.carts[d].state == Open && tab.carts[d].visitor == visitor then
          e == Finish(tab, Refused(OpenCartExists))
        else e == Finish(tab.(carts := tab.carts[cart := row.(visitor := visitor)]), Changed)
  {
    var start := Effect(tab, Idle(NotStarted));
    var read, check := CartStep(0, RecoverStart(cart, visitor, principal)), CartStep(0, RecoverCheck);
    InThree(around, start, read, check, CartStep(0, RecoverWrite));
    TryCart(around, start, RecoverStart(cart, visitor, principal));
    var begun := Try(around, start, read);
    if begun.proc.at.Done? {
      FinishedIsDisabled(around, begun, check);
      FinishedIsDisabled(around, begun, CartStep(0, RecoverWrite));
    } else {
      RecoverEnds(around, tab, cart, visitor, principal.value);
    }
  }

  function CreateSteps(cart: Id, website: Id, visitor: Id): seq<Step> {
    [CartStep(0, Create(cart, website, visitor)), CartStep(0, ReadCreated)]
  }

  function CreateAlone(around: Surroundings, tab: Tables, cart: Id, website: Id, visitor: Id): Effect {
    Alone(around, Effect(tab, Idle(NotStarted)), CreateSteps(cart, website, visitor))
  }

  lemma CreateAloneIs(around: Surroundings, tab: Tables, cart: Id, website: Id, visitor: Id)
    requires cart !in tab.carts
    ensures CreateAlone(around, tab, cart, website, visitor)
            == if exists d | d in tab.carts :: tab.carts[d].state == Open && tab.carts[d].visitor == visitor then
                 Finish(tab, Changed)
               else
                 Finish(tab.(carts := tab.carts[cart := Cart(website, visitor, None, None, Open, None, None, Delivery, None)]),
                        Changed)
  {
    var start := Effect(tab, Idle(NotStarted));
    var insert := CartStep(0, Create(cart, website, visitor));
    InTwo(around, start, insert, CartStep(0, ReadCreated));
    TryCart(around, start, Create(cart, website, visitor));
    TryCart(around, Try(around, start, insert), ReadCreated);
    if !HasOpenCart(tab.carts, visitor) {
      assert Try(around, start, insert).tab.carts[cart].visitor == visitor;
    }
  }

  // ── every verb run alone keeps the tables in order ────────────────────────

  lemma RunAloneKeeps(around: Surroundings, tab: Tables, steps: seq<Step>)
    requires TablesOk(tab)
    ensures TablesOk(Alone(around, Effect(tab, Idle(NotStarted)), steps).tab)
  {
    FreshStart(around, tab);
    AloneKeepsInv(around, Effect(tab, Idle(NotStarted)), steps);
  }

  /** A settled gateway row belongs to at most one session. */
  lemma OneSessionPerGatewayRow(tab: Tables, g: Id)
    requires SessionsAgree(tab)
    ensures forall x, y | x in tab.sessions && y in tab.sessions
                          && tab.sessions[x].gateway == Some(g) && tab.sessions[y].gateway == Some(g) :: x == y
  {
    forall x | x in tab.sessions && tab.sessions[x].gateway == Some(g)
      ensures g in tab.gateways && tab.gateways[g].reference == x
    {
      assert SessionAgrees(tab, x);
    }
  }
}
