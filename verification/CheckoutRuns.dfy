/** What holds along every run: any number of verbs, interleaved step by step, with
    a crash possible at every point and the surroundings changing at will. */
module CheckoutRuns {
  import opened StorefrontTypes
  import opened CheckoutState
  import opened CheckoutSteps
  import opened CheckoutInvariants
  import opened CheckoutFrames
  import opened CheckoutTableProofs
  import opened CheckoutStepProofs

  lemma InitIsInv(s: State)
    requires Init(s)
    ensures Inv(s)
  {}

  /** The invariant holds in every state of every run. */
  lemma {:induction false} ReachableInv(states: seq<State>, steps: seq<Step>, i: nat)
    requires IsRun(states, steps) && i < |states|
    ensures Inv(states[i])
  {
    if i == 0 {
      InitIsInv(states[0]);
    } else {
      ReachableInv(states, steps, i - 1);
      StepKeepsInv(states[i - 1], steps[i - 1]);
    }
  }

  lemma GrownRefl(t: Tables)
    ensures Grown(t, t)
  {}

  /** Committed rows are never lost or rebound between two states of a run. */
  lemma {:induction false} RunGrows(states: seq<State>, steps: seq<Step>, i: nat, j: nat)
    requires IsRun(states, steps) && i <= j < |states|
    ensures Grown(states[i].tab, states[j].tab)
    decreases j - i
  {
    if i == j {
      GrownRefl(states[i].tab);
    } else {
      RunGrows(states, steps, i, j - 1);
      ReachableInv(states, steps, j - 1);
      StepKeepsInv(states[j - 1], steps[j - 1]);
      GrownTransitive(states[i].tab, states[j - 1].tab, states[j].tab);
    }
  }

  // ── agreement ─────────────────────────────────────────────────────────────

  /** The session's amount is its order's total and its gateway row's gross and net;
      the order carries the cart's current carrier, coupon and customer, and the
      session the cart's current pin. Every checkout has its order. */
  lemma SessionMatchesItsRows(states: seq<State>, steps: seq<Step>, i: nat, x: Id)
    requires IsRun(states, steps) && i < |states| && x in states[i].tab.sessions
    ensures var tab := states[i].tab; var z := tab.sessions[x];
      && z.cart in tab.carts && z.order.Some? && z.order.value in tab.orders
      && var cart, order := tab.carts[z.cart], tab.orders[z.order.value];
      && order.number == x && order.total == z.amount && z.amount >= 0.0
      && order.carrier == cart.carrier && order.coupon == cart.coupon && cart.party == Some(order.customer)
      && z.pin == cart.pin && (cart.mode == Pickup <==> z.pin.Some?)
      && (order.jurisdiction.Some? <==> cart.mode == Pickup)
      && (z.gateway.Some? ==>
            z.gateway.value in tab.gateways
            && var row := tab.gateways[z.gateway.value];
            row.reference == x && row.party == order.customer
            && row.gross == z.amount && row.net == z.amount && row.fee == 0.0)
  {
    ReachableInv(states, steps, i);
    assert SessionAgrees(states[i].tab, x);
  }

  // ── one session per cart ──────────────────────────────────────────────────

  lemma SessionIffClosed(tab: Tables, c: Id)
    requires TablesOk(tab) && c in tab.carts
    ensures tab.carts[c].state != Open <==> HasSession(tab.sessions, c)
  {
    if HasSession(tab.sessions, c) {
      var x :| x in tab.sessions && tab.sessions[x].cart == c;
      assert SessionAgrees(tab, x);
    }
  }

  /** A cart has at most one session, has one exactly when it is not open, and once
      it is not open it is never open again. */
  lemma OneSessionAndNeverReopened(states: seq<State>, steps: seq<Step>, i: nat, j: nat, c: Id)
    requires IsRun(states, steps) && i <= j < |states| && c in states[i].tab.carts
    ensures states[i].tab.carts[c].state != Open <==> HasSession(states[i].tab.sessions, c)
    ensures forall x, y | x in states[i].tab.sessions && y in states[i].tab.sessions
                          && states[i].tab.sessions[x].cart == c && states[i].tab.sessions[y].cart == c :: x == y
    ensures states[i].tab.carts[c].state != Open ==>
              c in states[j].tab.carts && states[j].tab.carts[c].state != Open
  {
    ReachableInv(states, steps, i);
    ReachableInv(states, steps, j);
    RunGrows(states, steps, i, j);
    SessionIffClosed(states[i].tab, c);
    if states[i].tab.carts[c].state != Open {
      assert HasSession(states[i].tab.sessions, c);
      var x :| x in states[i].tab.sessions && states[i].tab.sessions[x].cart == c;
      assert states[j].tab.sessions[x].cart == c;
      SessionIffClosed(states[j].tab, c);
    }
  }

  /** How a locked verb of another kind answers a cart it cannot use. */
  function Closed(tab: Tables, c: Id): Refusal {
    if c in tab.carts then CartNotOpen(tab.carts[c].state) else CartNotFound
  }

  /** Taking the row lock of a cart that has a session answers the same closed door
      in every interleaving and writes nothing: a place cannot tell it from a missing
      cart, its siblings name the state. On an open cart neither answer is given. */
  lemma LateLocksAreRefused(states: seq<State>, steps: seq<Step>, i: nat, p: Id, c: Id,
                            company: Id, lane: Lane, billing: Option<string>, verb: LockedVerb)
    requires IsRun(states, steps) && i < |states| && p !in states[i].procs && c !in states[i].locks
    ensures var s := states[i];
      var place := PlaceStep(p, LockCart(company, c, lane, billing)); var sibling := VerbStep(p, Lock(c, verb));
      && Enabled(s, place) && Enabled(s, sibling)
      && Apply(s, place).tab == s.tab && Apply(s, sibling).tab == s.tab
      && var closed := c !in s.tab.carts || HasSession(s.tab.sessions, c);
      && (Apply(s, place).procs[p].at == Done(Refused(CartNotFound)) <==> closed)
      && (Apply(s, sibling).procs[p].at == Done(Refused(Closed(s.tab, c))) <==> closed)
  {
    ReachableInv(states, steps, i);
    if c in states[i].tab.carts { SessionIffClosed(states[i].tab, c); }
  }

  // ── who confirms ──────────────────────────────────────────────────────────

  /** The only confirmer a session's birth lane allows. */
  function LaneConfirmer(x: Id, birth: SessionState, gateway: Option<Id>): Option<Confirmer> {
    if birth == PendingPickup then Some(ByPickupOfficer(x))
    else if birth == ConfirmedFree then Some(ByFreePlace(x))
    else if gateway.Some? then Some(BySettlement(gateway.value))
    else None
  }

  lemma LaneOfConfirmation(tab: Tables, x: Id, e: Confirmation)
    requires TablesOk(tab) && x in tab.sessions && Some(e.order) == tab.sessions[x].order
    requires ConfirmerAllowed(tab, e)
    ensures Some(e.who) == LaneConfirmer(x, tab.births[x], tab.sessions[x].gateway)
  {
    assert SessionAgrees(tab, x) && BirthAgrees(tab.births[x], tab.sessions[x]);
    match e.who
    case ByFreePlace(_) =>
    case BySettlement(g) =>
      assert SessionAgrees(tab, tab.gateways[g].reference);
      assert BirthAgrees(tab.births[tab.gateways[g].reference], tab.sessions[tab.gateways[g].reference]);
    case ByPickupOfficer(t) =>
      assert SessionAgrees(tab, t);
  }

  /** Every confirmation of a session's order came from the session's own lane: the
      free place itself, the settlement of its own gateway row, or the pickup
      officer; and an order is confirmed at most once. */
  lemma ConfirmedOnceByItsLane(states: seq<State>, steps: seq<Step>, i: nat, x: Id, k: nat)
    requires IsRun(states, steps) && i < |states| && x in states[i].tab.sessions
    requires k < |states[i].tab.confirmations|
    requires Some(states[i].tab.confirmations[k].order) == states[i].tab.sessions[x].order
    ensures x in states[i].tab.births
    ensures Some(states[i].tab.confirmations[k].who)
            == LaneConfirmer(x, states[i].tab.births[x], states[i].tab.sessions[x].gateway)
    ensures forall m | 0 <= m < |states[i].tab.confirmations| && m != k ::
              states[i].tab.confirmations[m].order != states[i].tab.confirmations[k].order
  {
    ReachableInv(states, steps, i);
    assert ConfirmerAllowed(states[i].tab, states[i].tab.confirmations[k]);
    LaneOfConfirmation(states[i].tab, x, states[i].tab.confirmations[k]);
  }

  /** In every later state, the lane and the total of a place that checked out say how
      its session was born and whether a gateway transaction asks for the money: pay on
      site waits for the officer, a free order was confirmed at place, and any other
      online order waits for its own gateway row of the whole amount. */
  lemma BirthFollowsLaneAndTotal(states: seq<State>, steps: seq<Step>, i: nat, j: nat, p: Id)
    requires IsRun(states, steps) && i <= j < |states|
    requires p in states[i].procs && states[i].procs[p].at.Done? && states[i].procs[p].at.outcome.CheckedOut?
    ensures var CheckedOut(x, lane, _, customer) := states[i].procs[p].at.outcome; var tab := states[j].tab;
      && x in tab.births && x in tab.sessions && tab.sessions[x].amount >= 0.0
      && var z := tab.sessions[x];
      && (lane == OnSite ==> tab.births[x] == PendingPickup && z.gateway == None)
      && (lane == Online && z.amount == 0.0 ==> tab.births[x] == ConfirmedFree && z.gateway == None)
      && (lane == Online && z.amount != 0.0 ==>
            && tab.births[x] == PendingPayment && z.gateway.Some? && z.gateway.value in tab.gateways
            && var row := tab.gateways[z.gateway.value];
            row.reference == x && row.party == customer && row.gross == z.amount)
  {
    FinishedIsOk(states, steps, i, j, p);
    ReachableInv(states, steps, j);
    var x := states[i].procs[p].at.outcome.checkout;
    assert SessionAgrees(states[j].tab, x);
    assert BirthAgrees(states[j].tab.births[x], states[j].tab.sessions[x]);
  }

  // ── who settles ───────────────────────────────────────────────────────────

  predicate SettledRow(tab: Tables, g: Id) {
    g in tab.gateways && tab.gateways[g].settled
  }

  lemma PlaceSettlesNothing(around: Surroundings, tab: Tables, pr: Proc, act: PlaceAct, g: Id)
    requires PlaceReady(tab, pr, act) && SettledRow(PlaceEffect(around, tab, pr, act).tab, g)
    ensures SettledRow(tab, g)
  {}

  lemma VerbSettlesNothing(around: Surroundings, tab: Tables, pr: Proc, act: VerbAct)
    requires VerbReady(pr, act)
    ensures VerbEffect(around, tab, pr, act).tab.gateways == tab.gateways
  {}

  lemma CartSettlesNothing(tab: Tables, pr: Proc, act: CartAct)
    requires CartReady(tab, pr, act)
    ensures CartEffect(tab, pr, act).tab.gateways == tab.gateways
  {}

  lemma ConsumerSettlesNothing(tab: Tables, pr: Proc, act: SettleAct)
    requires SettleReady(tab, pr, act)
    ensures SettleEffect(tab, pr, act).tab.gateways == tab.gateways
  {}

  lemma CancelSettlesNothing(tab: Tables, pr: Proc, act: CancelAct)
    requires CancelReady(tab, pr, act)
    ensures CancelEffect(tab, pr, act).tab.gateways == tab.gateways
  {}

  lemma EffectSettlesNothing(s: State, step: Step, g: Id)
    requires Enabled(s, step) && !step.Surround? && !step.GatewaySettles?
    requires SettledRow(StepEffect(s, step).tab, g)
    ensures SettledRow(s.tab, g)
  {
    match step
    case Abort(_) =>
    case PlaceStep(p, act) => PlaceSettlesNothing(s.around, s.tab, ProcOf(s, p), act, g);
    case VerbStep(p, act) => VerbSettlesNothing(s.around, s.tab, ProcOf(s, p), act);
    case CartStep(p, act) => CartSettlesNothing(s.tab, ProcOf(s, p), act);
    case SettleStep(p, act) => ConsumerSettlesNothing(s.tab, ProcOf(s, p), act);
    case CancelStep(p, act) => CancelSettlesNothing(s.tab, ProcOf(s, p), act);
  }

  /** A gateway row becomes settled only when its gateway settles it, never by a verb of
      the storefront, and it stays settled. */
  lemma OnlyItsGatewaySettles(s: State, step: Step, g: Id)
    requires Enabled(s, step) && Inv(s)
    ensures SettledRow(Apply(s, step).tab, g)
            <==> SettledRow(s.tab, g) || (step == GatewaySettles(g) && g in s.tab.gateways)
  {
    StepKeepsInv(s, step);
    if !step.Surround? && !step.GatewaySettles? && SettledRow(Apply(s, step).tab, g) {
      EffectSettlesNothing(s, step, g);
    }
  }

  /** The history records exactly the transitions: a step confirms an order, leaving
      the others' status alone, or it confirms none and the history stays. */
  ghost predicate LogsConfirmation(t: Tables, u: Tables) {
    (u.confirmations == t.confirmations
     && forall o | o in u.orders && u.orders[o].status == Confirmed ::
          o in t.orders && t.orders[o].status == Confirmed)
    || (|u.confirmations| == |t.confirmations| + 1
        && u.confirmations[..|t.confirmations|] == t.confirmations
        && var o := u.confirmations[|t.confirmations|].order;
        o in t.orders && t.orders[o].status == Draft && u.orders == t.orders[o := t.orders[o].(status := Confirmed)])
  }

  lemma PlaceLogs(around: Surroundings, tab: Tables, pr: Proc, act: PlaceAct)
    requires PlaceReady(tab, pr, act)
    ensures LogsConfirmation(tab, PlaceEffect(around, tab, pr, act).tab)
  {}

  lemma SettleLogs(tab: Tables, pr: Proc, act: SettleAct)
    requires SettleReady(tab, pr, act)
    ensures LogsConfirmation(tab, SettleEffect(tab, pr, act).tab)
  {}

  lemma VerbLogs(around: Surroundings, tab: Tables, pr: Proc, act: VerbAct)
    requires VerbReady(pr, act)
    ensures LogsConfirmation(tab, VerbEffect(around, tab, pr, act).tab)
  {}

  lemma CartLogs(tab: Tables, pr: Proc, act: CartAct)
    requires CartReady(tab, pr, act)
    ensures LogsConfirmation(tab, CartEffect(tab, pr, act).tab)
  {}

  lemma CancelLogs(tab: Tables, pr: Proc, act: CancelAct)
    requires CancelReady(tab, pr, act)
    ensures LogsConfirmation(tab, CancelEffect(tab, pr, act).tab)
  {}

  lemma ConfirmationsAreLogged(s: State, step: Step)
    requires Enabled(s, step)
    ensures LogsConfirmation(s.tab, Apply(s, step).tab)
  {
    match step
    case Surround(_) =>
    case GatewaySettles(_) =>
    case Abort(_) =>
    case PlaceStep(p, act) => PlaceLogs(s.around, s.tab, ProcOf(s, p), act);
    case VerbStep(p, act) => VerbLogs(s.around, s.tab, ProcOf(s, p), act);
    case CartStep(p, act) => CartLogs(s.tab, ProcOf(s, p), act);
    case SettleStep(p, act) => SettleLogs(s.tab, ProcOf(s, p), act);
    case CancelStep(p, act) => CancelLogs(s.tab, ProcOf(s, p), act);
  }

  /** A session never returns to a pending state, and its order never to Draft. */
  lemma NeverBack(states: seq<State>, steps: seq<Step>, i: nat, j: nat, x: Id)
    requires IsRun(states, steps) && i <= j < |states| && x in states[i].tab.sessions
    ensures x in states[j].tab.sessions
    ensures states[i].tab.sessions[x].order.Some? && states[j].tab.sessions[x].order == states[i].tab.sessions[x].order
    ensures Pending(states[j].tab.sessions[x].state) ==>
              states[i].tab.sessions[x].state == states[j].tab.sessions[x].state
    ensures var o := states[i].tab.sessions[x].order.value;
      o in states[i].tab.orders && o in states[j].tab.orders
      && StatusMoves(states[i].tab.orders[o].status, states[j].tab.orders[o].status)
      && states[j].tab.orders[o] == states[i].tab.orders[o].(status := states[j].tab.orders[o].status)
  {
    ReachableInv(states, steps, i);
    RunGrows(states, steps, i, j);
    assert SessionAgrees(states[i].tab, x);
  }

  // ── the shopper-party map ─────────────────────────────────────────────────

  /** The key and party a finished verb reported. */
  function Reported(o: Outcome): Option<(Key, Id)> {
    match o
    case BillingCaptured(key, party) => Some((key, party))
    case CheckedOut(_, _, Some(key), party) => Some((key, party))
    case Refused(_) => None
    case Aborted => None
    case CheckedOut(_, _, None, _) => None
    case Changed => None
    case NotOurs => None
    case AlreadyHandled => None
    case Stamped(_) => None
  }

  lemma ReportIsBound(tab: Tables, o: Outcome)
    requires OutcomeOk(tab, o) && Reported(o).Some?
    ensures Bound(tab, Reported(o).value.0, Reported(o).value.1)
    ensures o.CheckedOut? ==> Billed(tab, o.checkout, o.customer)
  {}

  lemma FinishedWasOk(states: seq<State>, steps: seq<Step>, i: nat, p: Id)
    requires IsRun(states, steps) && i < |states|
    requires p in states[i].procs && states[i].procs[p].at.Done?
    ensures OutcomeOk(states[i].tab, states[i].procs[p].at.outcome)
  {
    ReachableInv(states, steps, i);
    assert ProcOk(states[i].tab, states[i].procs[p]);
  }

  lemma FinishedIsOk(states: seq<State>, steps: seq<Step>, i: nat, j: nat, p: Id)
    requires IsRun(states, steps) && i <= j < |states|
    requires p in states[i].procs && states[i].procs[p].at.Done?
    ensures OutcomeOk(states[j].tab, states[i].procs[p].at.outcome)
  {
    RunGrows(states, steps, i, j);
    FinishedWasOk(states, steps, i, p);
    OutcomeSteady(states[i].tab, states[j].tab, states[i].procs[p].at.outcome);
  }

  /** Billing captures and express places that finished, now or earlier, for one
      (company, normalized email) all reported one party, the one the map still
      holds; an express place's order bills it. */
  lemma OnePartyPerKey(states: seq<State>, steps: seq<Step>, i: nat, j: nat, p: Id, q: Id)
    requires IsRun(states, steps) && i <= j < |states|
    requires p in states[i].procs && q in states[j].procs
    requires states[i].procs[p].at.Done? && states[j].procs[q].at.Done?
    requires Reported(states[i].procs[p].at.outcome).Some? && Reported(states[j].procs[q].at.outcome).Some?
    requires Reported(states[i].procs[p].at.outcome).value.0 == Reported(states[j].procs[q].at.outcome).value.0
    ensures Reported(states[i].procs[p].at.outcome) == Reported(states[j].procs[q].at.outcome)
    ensures var (key, party) := Reported(states[i].procs[p].at.outcome).value;
      Bound(states[j].tab, key, party)
    ensures var o := states[i].procs[p].at.outcome; o.CheckedOut? ==> Billed(states[j].tab, o.checkout, o.customer)
  {
    FinishedIsOk(states, steps, i, j, p);
    FinishedIsOk(states, steps, j, j, q);
    ReportIsBound(states[j].tab, states[i].procs[p].at.outcome);
    ReportIsBound(states[j].tab, states[j].procs[q].at.outcome);
  }

  // ── who owns a cart ───────────────────────────────────────────────────────

  /** The step is the guarded write of an adopt or a recover that this principal
      started for this cart and visitor. */
  predicate RebindsFor(s: State, step: Step, c: Id, visitor: Id, user: Id) {
    step.CartStep?
    && ((step.cart == AdoptWrite && ProcOf(s, step.p).at == AdoptChecked(c, visitor, user))
        || (step.cart == RecoverWrite && ProcOf(s, step.p).at == RecoverChecked(c, visitor, user)))
  }

  /** One step on one cart: a cart that is not open keeps everything but its state;
      an open one changes visitor only by its own principal's adopt or recover. */
  ghost predicate CartMoves(s: State, step: Step, c: Id, before: Cart, after: Cart) {
    && after.website == before.website && after.portalUser == before.portalUser
    && (before.state != Open ==> after.state != Open && after == before.(state := after.state))
    && (after.visitor != before.visitor ==>
          before.state == Open && before.portalUser.Some? && after == before.(visitor := after.visitor)
          && RebindsFor(s, step, c, after.visitor, before.portalUser.value)
          && !exists d | d in s.tab.carts && d != c ::
               s.tab.carts[d].state == Open && s.tab.carts[d].visitor == after.visitor)
  }

  lemma PlaceMovesCart(around: Surroundings, tab: Tables, pr: Proc, act: PlaceAct, c: Id)
    requires PlaceReady(tab, pr, act) && HoldOk(tab, pr) && c in tab.carts
    ensures var u := PlaceEffect(around, tab, pr, act).tab;
      c in u.carts
      && (u.carts[c] == tab.carts[c]
          || (tab.carts[c].state == Open && u.carts[c] == tab.carts[c].(state := Placed, party := u.carts[c].party)))
  {}

  lemma VerbMovesCart(around: Surroundings, tab: Tables, pr: Proc, act: VerbAct, c: Id)
    requires VerbReady(pr, act) && HoldOk(tab, pr) && c in tab.carts
    ensures var u := VerbEffect(around, tab, pr, act).tab;
      c in u.carts && u.carts[c].visitor == tab.carts[c].visitor && u.carts[c].website == tab.carts[c].website
      && u.carts[c].portalUser == tab.carts[c].portalUser
      && (u.carts[c] == tab.carts[c] || tab.carts[c].state == Open)
  {}

  lemma SettleKeepsCarts(tab: Tables, pr: Proc, act: SettleAct)
    requires SettleReady(tab, pr, act)
    ensures SettleEffect(tab, pr, act).tab.carts == tab.carts
  {}

  lemma CancelMovesCart(tab: Tables, pr: Proc, act: CancelAct, c: Id)
    requires CancelReady(tab, pr, act) && c in tab.carts
    ensures var u := CancelEffect(tab, pr, act).tab;
      c in u.carts && (u.carts[c] == tab.carts[c] || u.carts[c] == tab.carts[c].(state := CartState.Cancelled))
  {}

  predicate Rebinds(act: CartAct) {
    act.AdoptWrite? || act.RecoverWrite?
  }

  /** The guarded write keeps every cart but the visitor of its own, open one. */
  lemma RebindWrites(tab: Tables, cart: Id, visitor: Id, user: Option<Id>, c: Id)
    requires c in tab.carts && (user.Some? ==> Linked(tab, cart, user.value))
    ensures var u := Rebind(tab, cart, visitor, user).tab;
      c in u.carts
      && (u.carts[c] == tab.carts[c]
          || (c == cart && tab.carts[c].state == Open && !OtherOpenCart(tab.carts, visitor, c)
              && u.carts[c] == tab.carts[c].(visitor := visitor)))
  {}

  lemma RebindMovesCart(s: State, p: Id, act: CartAct, c: Id)
    requires CartReady(s.tab, ProcOf(s, p), act) && PointOk(s.tab, ProcOf(s, p).at) && c in s.tab.carts && Rebinds(act)
    ensures c in CartEffect(s.tab, ProcOf(s, p), act).tab.carts
    ensures CartMoves(s, CartStep(p, act), c, s.tab.carts[c], CartEffect(s.tab, ProcOf(s, p), act).tab.carts[c])
  {
    var at := ProcOf(s, p).at;
    RebindWrites(s.tab, at.cart, at.visitor, if act.AdoptWrite? then Some(at.user) else None, c);
  }

  lemma CartStepKeepsOwner(tab: Tables, pr: Proc, act: CartAct, c: Id)
    requires CartReady(tab, pr, act) && c in tab.carts && !Rebinds(act)
    ensures var u := CartEffect(tab, pr, act).tab;
      c in u.carts && u.carts[c].visitor == tab.carts[c].visitor && u.carts[c].website == tab.carts[c].website
      && u.carts[c].portalUser == tab.carts[c].portalUser
      && (u.carts[c] == tab.carts[c] || tab.carts[c].state == Open)
  {}

  lemma CartStepMovesCart(s: State, p: Id, act: CartAct, c: Id)
    requires CartReady(s.tab, ProcOf(s, p), act) && PointOk(s.tab, ProcOf(s, p).at) && c in s.tab.carts
    ensures c in CartEffect(s.tab, ProcOf(s, p), act).tab.carts
    ensures CartMoves(s, CartStep(p, act), c, s.tab.carts[c], CartEffect(s.tab, ProcOf(s, p), act).tab.carts[c])
  {
    if Rebinds(act) {
      RebindMovesCart(s, p, act, c);
    } else {
      CartStepKeepsOwner(s.tab, ProcOf(s, p), act, c);
      QuietMove(s, CartStep(p, act), c, s.tab.carts[c], CartEffect(s.tab, ProcOf(s, p), act).tab.carts[c]);
    }
  }

  /** A step that keeps the cart, or changes an open one without rebinding it, or only
      moves its state away from Open. */
  lemma QuietMove(s: State, step: Step, c: Id, before: Cart, after: Cart)
    requires after.visitor == before.visitor && after.website == before.website
    requires after.portalUser == before.portalUser
    requires after == before || before.state == Open || after == before.(state := CartState.Cancelled)
    ensures CartMoves(s, step, c, before, after)
  {}

  lemma CartMovesLawfully(s: State, step: Step, c: Id)
    requires ProcsOk(s.tab, s.procs) && Enabled(s, step) && c in s.tab.carts
    ensures c in Apply(s, step).tab.carts && CartMoves(s, step, c, s.tab.carts[c], Apply(s, step).tab.carts[c])
  {
    if step.CartStep? {
      assert ProcOk(s.tab, ProcOf(s, step.p));
      CartStepMovesCart(s, step.p, step.cart, c);
    } else {
      OthersRebindNothing(s, step, c);
      QuietMove(s, step, c, s.tab.carts[c], Apply(s, step).tab.carts[c]);
    }
  }

  lemma OthersRebindNothing(s: State, step: Step, c: Id)
    requires (forall p | p in s.procs :: HoldOk(s.tab, s.procs[p]))
    requires Enabled(s, step) && c in s.tab.carts && !step.CartStep?
    ensures c in Apply(s, step).tab.carts
    ensures var before, after := s.tab.carts[c], Apply(s, step).tab.carts[c];
      && after.visitor == before.visitor && after.website == before.website && after.portalUser == before.portalUser
      && (after == before || before.state == Open || after == before.(state := CartState.Cancelled))
  {
    match step
    case PlaceStep(p, act) =>
      assert HoldOk(s.tab, ProcOf(s, p));
      PlaceMovesCart(s.around, s.tab, ProcOf(s, p), act, c);
    case VerbStep(p, act) =>
      assert HoldOk(s.tab, ProcOf(s, p));
      VerbMovesCart(s.around, s.tab, ProcOf(s, p), act, c);
    case CancelStep(p, act) => CancelMovesCart(s.tab, ProcOf(s, p), act, c);
    case Surround(_) =>
    case GatewaySettles(_) =>
    case Abort(_) =>
    case SettleStep(p, act) => SettleKeepsCarts(s.tab, ProcOf(s, p), act);
  }

  /** Along every run: no visitor has two open carts, and each step moves each cart
      only as its owner may. */
  lemma OwnershipAlongRuns(states: seq<State>, steps: seq<Step>, i: nat, c: Id)
    requires IsRun(states, steps) && i < |steps| && c in states[i].tab.carts
    ensures forall d | d in states[i].tab.carts && states[i].tab.carts[c].state == Open
                       && states[i].tab.carts[d].state == Open
                       && states[i].tab.carts[c].visitor == states[i].tab.carts[d].visitor :: c == d
    ensures c in states[i + 1].tab.carts
            && CartMoves(states[i], steps[i], c, states[i].tab.carts[c], states[i + 1].tab.carts[c])
  {
    ReachableInv(states, steps, i);
    CartMovesLawfully(states[i], steps[i], c);
  }

  /** What place froze stays frozen: between any two later states a cart that is not
      open differs at most in its state. */
  lemma {:induction false} PlacedCartsAreFrozen(states: seq<State>, steps: seq<Step>, i: nat, j: nat, c: Id)
    requires IsRun(states, steps) && i <= j < |states|
    requires c in states[i].tab.carts && states[i].tab.carts[c].state != Open
    ensures c in states[j].tab.carts && states[j].tab.carts[c].state != Open
    ensures states[j].tab.carts[c] == states[i].tab.carts[c].(state := states[j].tab.carts[c].state)
    decreases j - i
  {
    if i < j {
      PlacedCartsAreFrozen(states, steps, i, j - 1, c);
      OwnershipAlongRuns(states, steps, j - 1, c);
    }
  }

  /** Linkage is for ever. */
  lemma LinkageNeverChanges(states: seq<State>, steps: seq<Step>, i: nat, j: nat, c: Id)
    requires IsRun(states, steps) && i <= j < |states| && c in states[i].tab.carts
    ensures c in states[j].tab.carts && states[j].tab.carts[c].portalUser == states[i].tab.carts[c].portalUser
  {
    RunGrows(states, steps, i, j);
  }

  /** The guarded write of an adopt or recover loses to the one-open-cart index
      exactly when another open cart of the visitor got there first and the cart
      itself is still open; the loser answers OpenCartExists and writes nothing. */
  lemma IndexLoserChangesNothing(s: State, p: Id, act: CartAct, c: Id, visitor: Id, user: Id)
    requires Enabled(s, CartStep(p, act)) && (act == AdoptWrite || act == RecoverWrite)
    requires RebindsFor(s, CartStep(p, act), c, visitor, user)
    ensures var t := Apply(s, CartStep(p, act));
      && (t.procs[p].at == Done(Refused(OpenCartExists)) <==>
            c in s.tab.carts && s.tab.carts[c].state == Open
            && exists d | d in s.tab.carts && d != c :: s.tab.carts[d].state == Open && s.tab.carts[d].visitor == visitor)
      && (t.procs[p].at == Done(Refused(OpenCartExists)) ==> t.tab == s.tab)
      && (t.procs[p].at != Done(Refused(OpenCartExists)) && c in s.tab.carts && s.tab.carts[c].state == Open ==>
            t.tab.carts[c].visitor == visitor)
  {}

  /** The step is a guarded write to this cart, for whatever visitor. */
  predicate RebindsSome(s: State, step: Step, c: Id) {
    step.CartStep?
    && ((step.cart == AdoptWrite && ProcOf(s, step.p).at.AdoptChecked? && ProcOf(s, step.p).at.cart == c)
        || (step.cart == RecoverWrite && ProcOf(s, step.p).at.RecoverChecked? && ProcOf(s, step.p).at.cart == c))
  }

  /** Without another guarded write to it, a cart keeps its visitor. */
  lemma {:induction false} VisitorStays(states: seq<State>, steps: seq<Step>, i: nat, j: nat, c: Id)
    requires IsRun(states, steps) && i <= j < |states| && c in states[i].tab.carts
    requires forall k {:trigger RebindsSome(states[k], steps[k], c)} | i <= k < j :: !RebindsSome(states[k], steps[k], c)
    ensures c in states[j].tab.carts && states[j].tab.carts[c].visitor == states[i].tab.carts[c].visitor
    decreases j - i
  {
    if i < j {
      VisitorStays(states, steps, i, j - 1, c);
      OwnershipAlongRuns(states, steps, j - 1, c);
      assert !RebindsSome(states[j - 1], steps[j - 1], c);
    }
  }

  /** In every run: once a guarded write has bound a cart to a visitor, every guarded
      write of another cart to that visitor writes nothing, for as long as the first cart
      is open and not rebound itself; while its own cart is open it answers
      OpenCartExists. */
  lemma OneRacerBinds(states: seq<State>, steps: seq<Step>, i: nat, j: nat, c: Id, d: Id, visitor: Id, user: Id)
    requires IsRun(states, steps) && i <= j < |steps| && c != d
    requires c in states[i].tab.carts && states[i].tab.carts[c].visitor == visitor
    requires forall k {:trigger RebindsSome(states[k], steps[k], c)} | i <= k < j :: !RebindsSome(states[k], steps[k], c)
    requires IsOpen(states[j].tab, c)
    requires RebindsFor(states[j], steps[j], d, visitor, user)
    ensures states[j + 1].tab == states[j].tab
    ensures IsOpen(states[j].tab, d) ==>
      steps[j].p in states[j + 1].procs && states[j + 1].procs[steps[j].p].at == Done(Refused(OpenCartExists))
  {
    VisitorStays(states, steps, i, j, c);
    assert OtherOpenCart(states[j].tab.carts, visitor, d);
    IndexLoserChangesNothing(states[j], steps[j].p, steps[j].cart, d, visitor, user);
  }
}
