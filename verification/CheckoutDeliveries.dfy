/** One complete settlement delivery, one complete pickup confirm, what an interrupted
    cancel can do to them, and why only waiting sessions have draft orders. */
module CheckoutDeliveries {
  import opened StorefrontTypes
  import opened CheckoutState
  import opened CheckoutSteps
  import opened CheckoutInvariants
  import opened CheckoutFrames
  import opened CheckoutStepProofs
  import opened CheckoutRuns
  import opened CheckoutSettlement

  // ── one complete delivery ─────────────────────────────────────────────────

  /** Gateway event `g` names session `x`, and the process is new. */
  predicate Deliverable(s: State, p: Id, g: Id, x: Id) {
    p !in s.procs && g in s.tab.gateways && s.tab.gateways[g].settled
    && x in s.tab.sessions && s.tab.sessions[x].gateway == Some(g)
  }

  /** The session waits for its payment, and has the order to confirm. */
  predicate AwaitsPayment(tab: Tables, x: Id) {
    x in tab.sessions && tab.sessions[x].state == PendingPayment && tab.sessions[x].order.Some?
  }

  /** Find and confirm. */
  function FoundAndConfirmed(s: State, p: Id, g: Id, x: Id): (t: State)
    requires Deliverable(s, p, g, x) && AwaitsPayment(s.tab, x)
    ensures var o := s.tab.sessions[x].order.value;
      t.tab == ConfirmOrder(s.tab, o, BySettlement(g)) && t.procs == s.procs[p := Idle(SettleConfirmed(g, x, o))]
      && t.around == s.around
  {
    var found := Apply(s, SettleStep(p, DeliverFound(g, x)));
    assert found.procs == s.procs[p := Idle(SettleRead(g, x, s.tab.sessions[x].order.value))];
    var paid := Apply(found, SettleStep(p, ConfirmPaid));
    assert paid.procs == s.procs[p := paid.procs[p]];
    paid
  }

  /** Find, confirm, stamp, with nothing in between; a delivery to a session that does
      not wait ends with its find. */
  function Deliver(s: State, p: Id, g: Id, x: Id): State
    requires Deliverable(s, p, g, x)
  {
    if AwaitsPayment(s.tab, x) then Apply(FoundAndConfirmed(s, p, g, x), SettleStep(p, StampPaid))
    else Apply(s, SettleStep(p, DeliverFound(g, x)))
  }

  /** What a delivery leaves: a waiting session settles and its draft is confirmed;
      anything else is left alone. */
  function Delivered(tab: Tables, g: Id, x: Id): Tables
    requires x in tab.sessions
  {
    if tab.sessions[x].state == PendingPayment && tab.sessions[x].order.Some?
    then StampSession(ConfirmOrder(tab, tab.sessions[x].order.value, BySettlement(g)), x, Settled)
    else tab
  }

  lemma StampIs(s: State, p: Id, g: Id, x: Id, o: Id)
    requires p in s.procs && s.procs[p] == Idle(SettleConfirmed(g, x, o))
    ensures var t := Apply(s, SettleStep(p, StampPaid));
      t.tab == StampFrom(s.tab, x, PendingPayment) && t.procs == s.procs[p := Idle(Done(Stamped(x)))]
  {}

  lemma NotFoundIs(s: State, p: Id, g: Id, x: Id)
    requires Deliverable(s, p, g, x) && !AwaitsPayment(s.tab, x)
    ensures var t := Apply(s, SettleStep(p, DeliverFound(g, x)));
      t.tab == s.tab && p in t.procs && t.procs == s.procs[p := t.procs[p]]
  {}

  lemma DeliverIs(s: State, p: Id, g: Id, x: Id)
    requires Deliverable(s, p, g, x)
    ensures var t := Deliver(s, p, g, x);
      t.tab == Delivered(s.tab, g, x) && p in t.procs && t.procs == s.procs[p := t.procs[p]]
  {
    if AwaitsPayment(s.tab, x) {
      StampIs(FoundAndConfirmed(s, p, g, x), p, g, x, s.tab.sessions[x].order.value);
    } else {
      NotFoundIs(s, p, g, x);
    }
  }

  /** One complete delivery to a waiting session leaves it settled, and its order
      confirmed exactly when the order was not void when the delivery confirmed it. */
  lemma DeliverySettles(s: State, p: Id, g: Id, x: Id)
    requires Inv(s) && Deliverable(s, p, g, x) && s.tab.sessions[x].state == PendingPayment
    ensures var t := Deliver(s, p, g, x).tab; var o := s.tab.sessions[x].order;
      && o.Some? && o.value in s.tab.orders && o.value in t.orders && x in t.sessions
      && t.sessions[x] == s.tab.sessions[x].(state := Settled)
      && (t.orders[o.value].status == Confirmed <==> s.tab.orders[o.value].status != Void)
      && (forall y | y in s.tab.sessions && y != x :: y in t.sessions && t.sessions[y] == s.tab.sessions[y])
      && (forall q | q in s.tab.orders && q != o.value :: q in t.orders && t.orders[q] == s.tab.orders[q])
      && t.carts == s.tab.carts && t.gateways == s.tab.gateways && t.parties == s.tab.parties
  {
    assert SessionAgrees(s.tab, x);
    DeliverIs(s, p, g, x);
  }

  /** In every run, a consumer that reported its stamp leaves a session that waits no
      more, then and for ever. */
  lemma StampedMeansOver(states: seq<State>, steps: seq<Step>, i: nat, j: nat, p: Id, x: Id)
    requires IsRun(states, steps) && i <= j < |states|
    requires p in states[i].procs && states[i].procs[p].at == Done(Stamped(x))
    ensures x in states[j].tab.sessions && !Pending(states[j].tab.sessions[x].state)
  {
    FinishedIsOk(states, steps, i, j, p);
  }

  // ── pickup confirm ────────────────────────────────────────────────────────

  /** Read, confirm, stamp by the officer, with nothing in between. */
  function PickUp(s: State, p: Id, x: Id): State
    requires p !in s.procs
  {
    var read := Apply(s, SettleStep(p, PickupStart(x)));
    if read.procs[p].at.Done? then read
    else
      var confirmed := Apply(read, SettleStep(p, ConfirmPickup));
      Apply(confirmed, SettleStep(p, StampPickup))
  }

  /** What a pickup confirm leaves. */
  function PickedUp(tab: Tables, x: Id): Tables {
    if x in tab.sessions && tab.sessions[x].state == PendingPickup && tab.sessions[x].order.Some?
    then StampSession(ConfirmOrder(tab, tab.sessions[x].order.value, ByPickupOfficer(x)), x, Settled)
    else tab
  }

  lemma PickUpIs(s: State, p: Id, x: Id)
    requires p !in s.procs
    ensures var t := PickUp(s, p, x);
      t.tab == PickedUp(s.tab, x) && p in t.procs && t.procs[p].at.Done?
      && (PickedUp(s.tab, x) == s.tab ==> t.procs[p].at.outcome.Refused?)
  {
    var read := Apply(s, SettleStep(p, PickupStart(x)));
    if !read.procs[p].at.Done? {
      var o := s.tab.sessions[x].order.value;
      assert read.procs[p].at == PickupRead(x, o);
      var confirmed := Apply(read, SettleStep(p, ConfirmPickup));
      assert confirmed.procs[p].at == PickupConfirmed(x, o);
      assert PickedUp(s.tab, x).sessions[x].state == Settled;
    }
  }

  /** A waiting pickup settles with its order confirmed exactly when that was not
      void; on any other checkout the confirm refuses and changes no table. */
  lemma PickupSettles(s: State, p: Id, x: Id)
    requires Inv(s) && p !in s.procs
    ensures var t := PickUp(s, p, x);
      if x in s.tab.sessions && s.tab.sessions[x].state == PendingPickup then
        var o := s.tab.sessions[x].order;
        o.Some? && o.value in s.tab.orders
        && x in t.tab.sessions && t.tab.sessions[x] == s.tab.sessions[x].(state := Settled)
        && o.value in t.tab.orders
        && (t.tab.orders[o.value].status == Confirmed <==> s.tab.orders[o.value].status != Void)
      else t.tab == s.tab && p in t.procs && t.procs[p].at.Done? && t.procs[p].at.outcome.Refused?
  {
    PickUpIs(s, p, x);
    if x in s.tab.sessions { assert SessionAgrees(s.tab, x); }
  }

  // ── an interrupted cancel ─────────────────────────────────────────────────

  /** A cancel that crashes after selling has voided the order. */
  function InterruptedCancel(s: State, q: Id, x: Id): State
    requires q !in s.procs && x in s.tab.sessions && Cancellable(s.tab.sessions[x].state)
    requires s.tab.sessions[x].order.Some?
  {
    var read := Apply(s, CancelStep(q, CancelStart(x)));
    var voided := Apply(read, CancelStep(q, CancelSelling));
    if voided.procs[q].at.Done? then voided else Apply(voided, Abort(q))
  }

  lemma InterruptedCancelIs(s: State, q: Id, x: Id)
    requires q !in s.procs && x in s.tab.sessions && Cancellable(s.tab.sessions[x].state)
    requires s.tab.sessions[x].order.Some? && s.tab.sessions[x].order.value in s.tab.orders
    ensures var crashed := InterruptedCancel(s, q, x); var o := s.tab.sessions[x].order.value;
      && crashed.tab == (if s.tab.orders[o].status == Void then s.tab else CancelOrder(s.tab, o))
      && q in crashed.procs && crashed.procs == s.procs[q := crashed.procs[q]]
  {
    var o := s.tab.sessions[x].order.value;
    var read := Apply(s, CancelStep(q, CancelStart(x)));
    assert read.procs[q].at == CancelRead(x, o, s.tab.sessions[x].cart) && read.tab == s.tab;
    var voided := Apply(read, CancelStep(q, CancelSelling));
    assert voided.procs == s.procs[q := voided.procs[q]];
    var crashed := InterruptedCancel(s, q, x);
    assert crashed.procs == s.procs[q := crashed.procs[q]];
  }

  /** After such a crash the session still waits, and the next delivery settles it
      with a void order: selling's refusal to confirm counts as success. */
  lemma InterruptedCancelSettlesVoid(s: State, p: Id, q: Id, g: Id, x: Id)
    requires Inv(s) && p != q && q !in s.procs && Deliverable(s, p, g, x)
    requires s.tab.sessions[x].state == PendingPayment
    ensures s.tab.sessions[x].order.Some?
    ensures var crashed := InterruptedCancel(s, q, x); var o := s.tab.sessions[x].order.value;
      && Deliverable(crashed, p, g, x)
      && var t := Deliver(crashed, p, g, x).tab;
      x in t.sessions && t.sessions[x] == s.tab.sessions[x].(state := Settled)
      && o in t.orders && t.orders[o].status == Void
  {
    assert SessionAgrees(s.tab, x);
    InterruptedCancelIs(s, q, x);
    DeliverIs(InterruptedCancel(s, q, x), p, g, x);
  }

  // ── only waiting sessions have draft orders ───────────────────────────────

  ghost predicate LeftDraft(tab: Tables, o: Option<Id>) {
    o.Some? && o.value in tab.orders && tab.orders[o.value].status != Draft
  }

  /** Confirm or void first, stamp second: a session that no longer waits, and a
      process between its two commits, have an order that is a draft no more. */
  ghost predicate Decided(s: State) {
    && SessionsDecided(s.tab)
    && forall p | p in s.procs :: PointDecided(s.tab, s.procs[p].at)
  }

  ghost predicate SessionsDecided(tab: Tables) {
    forall x | x in tab.sessions && !Pending(tab.sessions[x].state) :: LeftDraft(tab, tab.sessions[x].order)
  }

  ghost predicate PointDecided(tab: Tables, at: Point) {
    && (at.SettleConfirmed? ==> LeftDraft(tab, Some(at.order)))
    && (at.PickupConfirmed? ==> LeftDraft(tab, Some(at.order)))
    && (at.CancelVoided? ==> LeftDraft(tab, Some(at.order)))
  }

  /** An effect decides the sessions it takes out of waiting, and its own next point. */
  ghost predicate Decides(t: Tables, e: Effect) {
    && PointDecided(e.tab, e.proc.at)
    && forall x | x in e.tab.sessions && !Pending(e.tab.sessions[x].state) ::
         LeftDraft(e.tab, e.tab.sessions[x].order) || (x in t.sessions && !Pending(t.sessions[x].state))
  }

  lemma EffectDecides(s: State, step: Step)
    requires SessionsAgree(s.tab) && ProcsOk(s.tab, s.procs) && Decided(s)
    requires Enabled(s, step) && !step.Surround? && !step.GatewaySettles?
    ensures Decides(s.tab, StepEffect(s, step))
  {
    assert ProcOk(s.tab, ProcOf(s, step.p)) && PointDecided(s.tab, ProcOf(s, step.p).at);
    match step
    case PlaceStep(p, act) => PlaceDecides(s.around, s.tab, ProcOf(s, p), act);
    case VerbStep(p, act) => VerbSameRows(s.around, s.tab, ProcOf(s, p), act);
    case CartStep(p, act) => CartSameRows(s.tab, ProcOf(s, p), act);
    case SettleStep(p, act) => SettleDecides(s.tab, ProcOf(s, p), act);
    case CancelStep(p, act) => CancelDecides(s.tab, ProcOf(s, p), act);
    case Abort(_) =>
  }

  lemma PlaceDecides(around: Surroundings, tab: Tables, pr: Proc, act: PlaceAct)
    requires DrawOk(tab, pr) && PlaceReady(tab, pr, act)
    ensures Decides(tab, PlaceEffect(around, tab, pr, act))
  {
    PlaceIsOrdinary(around, tab, pr, act);
  }

  lemma SettleDecides(tab: Tables, pr: Proc, act: SettleAct)
    requires SessionsAgree(tab) && PointOk(tab, pr.at) && PointDecided(tab, pr.at) && SettleReady(tab, pr, act)
    ensures Decides(tab, SettleEffect(tab, pr, act))
  {
    if act.ConfirmPaid? || act.ConfirmPickup? { assert SessionAgrees(tab, pr.at.target); }
  }

  lemma CancelDecides(tab: Tables, pr: Proc, act: CancelAct)
    requires PointOk(tab, pr.at) && PointDecided(tab, pr.at) && CancelReady(tab, pr, act)
    ensures Decides(tab, CancelEffect(tab, pr, act))
  {}

  lemma InstallKeepsDecided(s: State, p: Id, e: Effect)
    requires Decided(s) && Grown(s.tab, e.tab) && Decides(s.tab, e)
    ensures Decided(Install(s, p, e))
  {}

  lemma StepKeepsDecided(s: State, step: Step)
    requires Inv(s) && Decided(s) && Enabled(s, step)
    ensures Decided(Apply(s, step))
  {
    StepKeepsInv(s, step);
    if !step.Surround? && !step.GatewaySettles? {
      EffectDecides(s, step);
      InstallKeepsDecided(s, step.p, StepEffect(s, step));
    }
  }

  /** In every run, however cancels are interrupted, only a waiting session's order can
      be a draft. */
  lemma {:induction false} OnlyWaitingIsDraft(states: seq<State>, steps: seq<Step>, i: nat)
    requires IsRun(states, steps) && i < |states|
    ensures Decided(states[i])
  {
    if i > 0 {
      OnlyWaitingIsDraft(states, steps, i - 1);
      ReachableInv(states, steps, i - 1);
      StepKeepsDecided(states[i - 1], steps[i - 1]);
    }
  }
}
