/** Runs that exist: one cart placed online and its payment settled; then a cancel that
    crashes after selling and a delivery, or a cancel and a delivery that merely race.
    Both end with a settled session over a void order: the split cancel's failure is
    reachable, and the theorems over runs speak of real runs. */
module CheckoutWitness {
  import opened StorefrontTypes
  import Pricing
  import opened CheckoutState
  import opened CheckoutSteps
  import opened CheckoutInvariants
  import opened CheckoutFrames
  import opened CheckoutStepProofs
  import opened CheckoutRuns
  import opened CheckoutSettlement
  import opened CheckoutDeliveries
  import opened CheckoutCancels
  import opened CheckoutAlone
  import opened CheckoutPlaceAlone
  import opened CheckoutOrigins

  // ── reachability ──────────────────────────────────────────────────────────

  /** Some run ends here; without `crashes`, one in which nothing crashes. */
  ghost predicate Reachable(s: State, crashes: bool) {
    exists states, steps :: EndsHere(states, steps, s, crashes)
  }

  ghost predicate EndsHere(states: seq<State>, steps: seq<Step>, s: State, crashes: bool) {
    IsRun(states, steps) && states[|steps|] == s && (crashes || forall i | 0 <= i < |steps| :: !steps[i].Abort?)
  }

  lemma ReachableIsInv(s: State, crashes: bool)
    requires Reachable(s, crashes)
    ensures Inv(s)
  {
    var states, steps :| EndsHere(states, steps, s, crashes);
    ReachableInv(states, steps, |steps|);
  }

  lemma InitIsReachable(s: State)
    requires Init(s)
    ensures Reachable(s, false)
  {
    assert EndsHere([s], [], s, false);
  }

  lemma CrashesAllowed(s: State)
    requires Reachable(s, false)
    ensures Reachable(s, true)
  {
    var states, steps :| EndsHere(states, steps, s, false);
    assert EndsHere(states, steps, s, true);
  }

  lemma StepReaches(s: State, step: Step, crashes: bool)
    requires Reachable(s, crashes) && Enabled(s, step) && (step.Abort? ==> crashes)
    ensures Reachable(Apply(s, step), crashes)
  {
    var states, steps :| EndsHere(states, steps, s, crashes);
    var more, longer := states + [Apply(s, step)], steps + [step];
    forall i | 0 <= i < |longer| ensures Enabled(more[i], longer[i]) && more[i + 1] == Apply(more[i], longer[i]) {
      if i < |steps| { assert Enabled(states[i], steps[i]); }
    }
    assert more[0] == states[0];
    assert EndsHere(more, longer, Apply(s, step), crashes);
  }

  lemma {:induction false} AloneReaches(around: Surroundings, e: Effect, steps: seq<Step>)
    requires Reachable(AloneAt(around, e), false) && forall k | 0 <= k < |steps| :: !steps[k].Abort?
    ensures Reachable(AloneAt(around, Alone(around, e, steps)), false)
    decreases |steps|
  {
    if steps != [] {
      if Own(steps[0]) && Enabled(AloneAt(around, e), steps[0]) {
        ReachableIsInv(AloneAt(around, e), false);
        TryIsApply(around, e, steps[0]);
        StepReaches(AloneAt(around, e), steps[0], false);
      }
      AloneReaches(around, Try(around, e, steps[0]), steps[1..]);
    }
  }

  // ── the start ─────────────────────────────────────────────────────────────

  /** One website, 7, with item 4 at ten, made to order; cart 1 holds one of it. */
  const SHOP: Surroundings := Surroundings(
    map[1 := [CartLine(5, 4, 1.0)]], map[7 := map[4 := PriceRow(10.0, "IDR")]], map[7 := map[4 := true]],
    map[], map[])

  /** Cart 1 of visitor 3, billing captured as party 9. */
  const START: Tables := Tables(
    map[1 := Cart(7, 3, None, Some(9), Open, None, None, Delivery, None)],
    map[], map[], map[], map[], map[], [])

  const CALL: PlaceArgs := PlaceArgs(100, 1, Online, None, 0, 20, 30, 10.0, 40)

  const BILL := Billing(9, None, false)

  lemma ShopOpens()
    ensures OpenPlace(SHOP, START, CALL) == Ok(Opening(START.carts[1], None, BILL))
  {}

  lemma ShopGates()
    ensures GateBasket(SHOP, 1, START.carts[1]).Ok?
  {
    var lines := LinesOf(SHOP, 1);
    assert lines == [CartLine(5, 4, 1.0)];
    assert AtWebsite(SHOP.prices, 7) == map[4 := PriceRow(10.0, "IDR")];
    assert AtWebsite(SHOP.policies, 7) == map[4 := true];
    GatePassesIff(StockIn(SHOP, None), AtWebsite(SHOP.policies, 7), lines);
  }

  /** What the place leaves, whatever lines it minted. */
  lemma ShopRecords(items: seq<OrderLine>)
    ensures var e := Recorded(Armed(START, CALL, Opening(START.carts[1], None, BILL), items), CALL,
                              Opening(START.carts[1], None, BILL));
      && e.proc == Idle(Done(CheckedOut(20, Online, None, 9))) && WaitsForPayment(e.tab)
  {}

  predicate WaitsForPayment(tab: Tables) {
    && 20 in tab.sessions && tab.sessions[20].state == PendingPayment && tab.sessions[20].gateway == Some(40)
    && tab.sessions[20].order == Some(30) && 40 in tab.gateways
    && 30 in tab.orders && tab.orders[30].status == Draft
  }

  lemma StartPlaces()
    ensures var e := PlaceAlone(SHOP, START, CALL);
      e.proc == Idle(Done(CheckedOut(20, Online, None, 9))) && WaitsForPayment(e.tab)
  {
    PlaceAloneIs(SHOP, START, CALL);
    ShopOpens();
    ShopGates();
    ShopRecords(GateBasket(SHOP, 1, START.carts[1]).value);
  }

  /** From a start with no process, a place's first step is its first step alone. */
  lemma FirstStepAlone(around: Surroundings, tab: Tables, a: PlaceArgs)
    ensures var lock := PlaceStep(0, LockCart(a.company, a.cart, a.lane, a.billing));
      var s0 := State(around, tab, map[], map[]);
      Enabled(s0, lock) && Apply(s0, lock) == AloneAt(around, Try(around, Effect(tab, Idle(NotStarted)), lock))
  {
    var lock := PlaceStep(0, LockCart(a.company, a.cart, a.lane, a.billing));
    var s0, e := State(around, tab, map[], map[]), Try(around, Effect(tab, Idle(NotStarted)), lock);
    assert Apply(s0, lock).procs == map[0 := e.proc];
    assert Apply(s0, lock).locks == AloneAt(around, e).locks;
  }

  lemma PlacedIsReachable(around: Surroundings, tab: Tables, a: PlaceArgs)
    requires Init(State(around, tab, map[], map[]))
    ensures Reachable(AloneAt(around, PlaceAlone(around, tab, a)), false)
  {
    var s0, steps := State(around, tab, map[], map[]), PlaceSteps(PlaceActs(a));
    InitIsReachable(s0);
    FirstStepAlone(around, tab, a);
    StepReaches(s0, steps[0], false);
    AloneReaches(around, Try(around, Effect(tab, Idle(NotStarted)), steps[0]), steps[1..]);
  }

  lemma PaidIsReachable() returns (paid: State)
    ensures Reachable(paid, false) && Deliverable(paid, 2, 40, 20) && 1 !in paid.procs
    ensures WaitsForPayment(paid.tab)
  {
    StartPlaces();
    PlacedIsReachable(SHOP, START, CALL);
    paid := PaymentSettles(AloneAt(SHOP, PlaceAlone(SHOP, START, CALL)));
  }

  lemma PaymentSettles(placed: State) returns (paid: State)
    requires Reachable(placed, false) && WaitsForPayment(placed.tab) && 1 !in placed.procs && 2 !in placed.procs
    ensures Reachable(paid, false) && Deliverable(paid, 2, 40, 20) && 1 !in paid.procs
    ensures WaitsForPayment(paid.tab)
  {
    StepReaches(placed, GatewaySettles(40), false);
    paid := Apply(placed, GatewaySettles(40));
    assert paid.procs == placed.procs && paid.tab.sessions == placed.tab.sessions;
  }

  // ── a crash ───────────────────────────────────────────────────────────────

  lemma CrashedIsReachable(s: State, q: Id, x: Id)
    requires Reachable(s, true) && q !in s.procs && x in s.tab.sessions && Cancellable(s.tab.sessions[x].state)
    requires s.tab.sessions[x].order.Some?
    ensures Reachable(InterruptedCancel(s, q, x), true)
  {
    var read := Apply(s, CancelStep(q, CancelStart(x)));
    StepReaches(s, CancelStep(q, CancelStart(x)), true);
    StepReaches(read, CancelStep(q, CancelSelling), true);
    var voided := Apply(read, CancelStep(q, CancelSelling));
    if !voided.procs[q].at.Done? { StepReaches(voided, Abort(q), true); }
  }

  lemma ConfirmedIsReachable(s: State, p: Id, g: Id, x: Id, crashes: bool)
    requires Reachable(s, crashes) && Deliverable(s, p, g, x) && AwaitsPayment(s.tab, x)
    ensures Reachable(FoundAndConfirmed(s, p, g, x), crashes)
  {
    StepReaches(s, SettleStep(p, DeliverFound(g, x)), crashes);
    StepReaches(Apply(s, SettleStep(p, DeliverFound(g, x))), SettleStep(p, ConfirmPaid), crashes);
  }

  lemma DeliveryIsReachable(s: State, p: Id, g: Id, x: Id)
    requires Reachable(s, true) && Deliverable(s, p, g, x)
    ensures Reachable(Deliver(s, p, g, x), true)
  {
    if AwaitsPayment(s.tab, x) {
      ConfirmedIsReachable(s, p, g, x, true);
      StepReaches(FoundAndConfirmed(s, p, g, x), SettleStep(p, StampPaid), true);
    } else {
      StepReaches(s, SettleStep(p, DeliverFound(g, x)), true);
    }
  }

  lemma InterruptionIsReachable(s: State, p: Id, q: Id, g: Id, x: Id)
    requires Reachable(s, true) && q !in s.procs && x in s.tab.sessions && Cancellable(s.tab.sessions[x].state)
    requires s.tab.sessions[x].order.Some? && Deliverable(InterruptedCancel(s, q, x), p, g, x)
    ensures Reachable(Deliver(InterruptedCancel(s, q, x), p, g, x), true)
  {
    CrashedIsReachable(s, q, x);
    DeliveryIsReachable(InterruptedCancel(s, q, x), p, g, x);
  }

  /** The concrete session is settled and its order void. */
  predicate SettledOverVoid(s: State) {
    20 in s.tab.sessions && s.tab.sessions[20].state == Settled && s.tab.sessions[20].order == Some(30)
    && IsVoid(s.tab, 30)
  }

  lemma VoidIsReachable() returns (end: State)
    ensures Reachable(end, true) && SettledOverVoid(end)
  {
    var paid := PaidIsReachable();
    CrashesAllowed(paid);
    ReachableIsInv(paid, true);
    InterruptedCancelSettlesVoid(paid, 2, 1, 40, 20);
    InterruptionIsReachable(paid, 2, 1, 40, 20);
    end := Deliver(InterruptedCancel(paid, 1, 20), 2, 40, 20);
  }

  /** A run whose cancel crashes after selling ends with a settled session over a void
      order; by the theorem over all runs, a cancel of it did reach selling. */
  lemma SettledVoidIsReachable()
    ensures exists states: seq<State>, steps: seq<Step> ::
      IsRun(states, steps) && SettledOverVoid(states[|steps|]) && SoldOut(states, steps, |steps|, 20)
  {
    var end := VoidIsReachable();
    var states, steps :| EndsHere(states, steps, end, true);
    SettledIsConfirmed(states, steps, |steps|, 20);
  }

  // ── a race ────────────────────────────────────────────────────────────────

  lemma RaceIsReachable(s: State, p: Id, q: Id, g: Id, x: Id)
    requires Reachable(s, false) && Racing(s, p, q, g, x)
    ensures Reachable(RaceVoided(s, p, q, g, x), false)
  {
    var paid := FoundAndConfirmed(s, p, g, x);
    ConfirmedIsReachable(s, p, g, x, false);
    StepReaches(paid, CancelStep(q, CancelStart(x)), false);
    StepReaches(Apply(paid, CancelStep(q, CancelStart(x))), CancelStep(q, CancelSelling), false);
  }

  /** One step later the cancel has taken the settled session to cancelled. */
  ghost predicate CancelledNext(s: State, q: Id) {
    Enabled(s, CancelStep(q, StampCancelled))
    && 20 in Apply(s, CancelStep(q, StampCancelled)).tab.sessions
    && Apply(s, CancelStep(q, StampCancelled)).tab.sessions[20].state == SessionState.Cancelled
  }

  lemma RacedIsReachable() returns (end: State)
    ensures Reachable(end, false) && SettledOverVoid(end) && CancelledNext(end, 1)
  {
    var paid := PaidIsReachable();
    RaceSettlesVoid(paid, 2, 1, 40, 20);
    RaceIsReachable(paid, 2, 1, 40, 20);
    StepReaches(RaceVoided(paid, 2, 1, 40, 20), SettleStep(2, StampPaid), false);
    end := Apply(RaceVoided(paid, 2, 1, 40, 20), SettleStep(2, StampPaid));
  }

  /** A run in which nothing crashes ends the same way, and one more step of its cancel
      takes the settled session to cancelled. */
  lemma RacedVoidIsReachable()
    ensures exists states: seq<State>, steps: seq<Step> ::
      IsRun(states, steps) && (forall i | 0 <= i < |steps| :: !steps[i].Abort?)
      && SettledOverVoid(states[|steps|]) && CancelledNext(states[|steps|], 1)
  {
    var end := RacedIsReachable();
    var states, steps :| EndsHere(states, steps, end, false);
  }
}
