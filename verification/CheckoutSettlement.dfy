/** Sessions, orders and carts in step: what every run keeps whose cancels each run as
    one step. What happens when cancel's own commits come apart is CheckoutCancels'
    subject. */
module CheckoutSettlement {
  import opened StorefrontTypes
  import opened CheckoutState
  import opened CheckoutSteps
  import opened CheckoutInvariants
  import opened CheckoutFrames
  import opened CheckoutTableProofs
  import opened CheckoutStepProofs
  import opened CheckoutRuns

  // ── runs without an interrupted cancel ────────────────────────────────────

  /** Cancel runs as one step. */
  predicate Whole(step: Step) {
    step.CancelStep? ==> step.cancel.CancelAtomic?
  }

  ghost predicate IsWholeRun(states: seq<State>, steps: seq<Step>) {
    IsRun(states, steps) && forall i | 0 <= i < |steps| :: Whole(steps[i])
  }

  /** The session's state tells its order's status, and its cart's. */
  ghost predicate InStep(tab: Tables, x: Id)
    requires x in tab.sessions
  {
    var z := tab.sessions[x];
    && z.order.Some? && z.order.value in tab.orders && z.cart in tab.carts
    && var status := tab.orders[z.order.value].status;
    && (Pending(z.state) ==> status == Draft || status == Confirmed)
    && (z.state == Settled || z.state == ConfirmedFree ==> status == Confirmed)
    && (z.state == SessionState.Cancelled <==> status == Void)
    && (z.state == SessionState.Cancelled <==> tab.carts[z.cart].state == CartState.Cancelled)
  }

  ghost predicate AllInStep(tab: Tables) {
    forall x {:trigger InStep(tab, x)} | x in tab.sessions :: InStep(tab, x)
  }

  predicate MidCancel(at: Point) {
    at.CancelRead? || at.CancelVoided? || at.CancelStamped?
  }

  /** Past its confirm, a consumer whose session still waits has a confirmed order. */
  ghost predicate ConfirmedFirst(tab: Tables, at: Point) {
    && !MidCancel(at)
    && (at.SettleConfirmed? ==> Waiting(tab, at.target) ==> IsConfirmed(tab, at.order))
    && (at.PickupConfirmed? ==> Waiting(tab, at.target) ==> IsConfirmed(tab, at.order))
  }

  ghost predicate Waiting(tab: Tables, x: Id) {
    x in tab.sessions && Pending(tab.sessions[x].state)
  }

  ghost predicate IsConfirmed(tab: Tables, o: Id) {
    o in tab.orders && tab.orders[o].status == Confirmed
  }

  ghost predicate Clean(s: State) {
    AllInStep(s.tab)
    && forall p {:trigger s.procs[p]} | p in s.procs :: ConfirmedFirst(s.tab, s.procs[p].at)
  }

  /** What a whole step may do to sessions and orders: any confirmed order stays so
      while its session waits, and the sessions stay in step. */
  ghost predicate KeepsStep(t: Tables, e: Effect) {
    && AllInStep(e.tab) && ConfirmedFirst(e.tab, e.proc.at)
    && forall x, o | x in t.sessions && t.sessions[x].order == Some(o) && IsConfirmed(t, o) && Waiting(e.tab, x) ::
         IsConfirmed(e.tab, o)
  }

  /** The session's order and cart read the same. */
  ghost predicate SameRows(t: Tables, u: Tables, x: Id)
    requires x in t.sessions
  {
    var z := t.sessions[x];
    && (z.order.Some? && z.order.value in t.orders ==>
          z.order.value in u.orders && u.orders[z.order.value] == t.orders[z.order.value])
    && (z.cart in t.carts ==> z.cart in u.carts && u.carts[z.cart].state == t.carts[z.cart].state)
  }

  predicate Ordinary(at: Point) {
    !MidCancel(at) && !at.SettleConfirmed? && !at.PickupConfirmed?
  }

  /** Writes that touch no session, no session's order and no session's cart. */
  lemma ElsewhereKeepsStep(t: Tables, e: Effect)
    requires AllInStep(t) && e.tab.sessions == t.sessions && Ordinary(e.proc.at)
    requires forall x | x in t.sessions :: SameRows(t, e.tab, x)
    ensures KeepsStep(t, e)
  {
    forall x | x in e.tab.sessions ensures InStep(e.tab, x) {
      assert InStep(t, x) && SameRows(t, e.tab, x);
    }
    forall x, o | x in t.sessions && t.sessions[x].order == Some(o) && IsConfirmed(t, o) ensures IsConfirmed(e.tab, o) {
      assert SameRows(t, e.tab, x);
    }
  }

  lemma InstallKeepsClean(s: State, p: Id, e: Effect)
    requires ProcsOk(s.tab, s.procs) && Clean(s) && Grown(s.tab, e.tab) && KeepsStep(s.tab, e)
    ensures Clean(Install(s, p, e))
  {
    var t := Install(s, p, e);
    forall q | q in t.procs ensures ConfirmedFirst(t.tab, t.procs[q].at) {
      if q != p {
        assert PointOk(s.tab, s.procs[q].at) by { assert ProcOk(s.tab, s.procs[q]); }
        assert ConfirmedFirst(s.tab, s.procs[q].at);
      }
    }
  }

  // ── place, sibling verbs and cart verbs stay elsewhere ────────────────────

  lemma PlaceSameRows(around: Surroundings, tab: Tables, pr: Proc, act: PlaceAct, x: Id)
    requires PlaceReady(tab, pr, act) && !act.Commit? && HoldOk(tab, pr) && DrawOk(tab, pr)
    requires x in tab.sessions && SessionAgrees(tab, x)
    ensures SameRows(tab, PlaceEffect(around, tab, pr, act).tab, x)
  {
    DraftsAreUnrecorded(tab, pr, x);
  }

  lemma PlaceStaysElsewhere(s: State, p: Id, act: PlaceAct)
    requires SessionsAgree(s.tab) && ProcOk(s.tab, ProcOf(s, p)) && AllInStep(s.tab)
    requires PlaceReady(s.tab, ProcOf(s, p), act) && !act.Commit?
    ensures KeepsStep(s.tab, PlaceEffect(s.around, s.tab, ProcOf(s, p), act))
  {
    var e := PlaceEffect(s.around, s.tab, ProcOf(s, p), act);
    forall x | x in s.tab.sessions ensures SameRows(s.tab, e.tab, x) {
      assert SessionAgrees(s.tab, x);
      PlaceSameRows(s.around, s.tab, ProcOf(s, p), act, x);
    }
    PlaceIsOrdinary(s.around, s.tab, ProcOf(s, p), act);
    ElsewhereKeepsStep(s.tab, e);
  }

  lemma PlaceIsOrdinary(around: Surroundings, tab: Tables, pr: Proc, act: PlaceAct)
    requires PlaceReady(tab, pr, act)
    ensures Ordinary(PlaceEffect(around, tab, pr, act).proc.at)
    ensures !act.Commit? ==> PlaceEffect(around, tab, pr, act).tab.sessions == tab.sessions
  {}

  lemma VerbStaysElsewhere(s: State, p: Id, act: VerbAct)
    requires SessionsAgree(s.tab) && HoldOk(s.tab, ProcOf(s, p)) && AllInStep(s.tab)
    requires VerbReady(ProcOf(s, p), act)
    ensures KeepsStep(s.tab, VerbEffect(s.around, s.tab, ProcOf(s, p), act))
  {
    var e := VerbEffect(s.around, s.tab, ProcOf(s, p), act);
    VerbSameRows(s.around, s.tab, ProcOf(s, p), act);
    ElsewhereKeepsStep(s.tab, e);
  }

  lemma VerbSameRows(around: Surroundings, tab: Tables, pr: Proc, act: VerbAct)
    requires HoldOk(tab, pr) && VerbReady(pr, act)
    ensures var e := VerbEffect(around, tab, pr, act);
      e.tab.sessions == tab.sessions && Ordinary(e.proc.at) && forall x | x in tab.sessions :: SameRows(tab, e.tab, x)
  {}

  lemma CartSameRows(tab: Tables, pr: Proc, act: CartAct)
    requires CartReady(tab, pr, act)
    ensures var e := CartEffect(tab, pr, act);
      e.tab.sessions == tab.sessions && Ordinary(e.proc.at) && forall x | x in tab.sessions :: SameRows(tab, e.tab, x)
  {}

  // ── the place commit ──────────────────────────────────────────────────────

  lemma CommitInStep(tab: Tables, pr: Proc)
    requires HoldOk(tab, pr) && DrawOk(tab, pr) && PlaceReady(tab, pr, Commit) && pr.at.amount >= 0.0
    ensures var x := pr.draw.value.checkout; var u := PlaceCommit(tab, pr).tab;
      x !in tab.sessions && x in u.sessions && InStep(u, x) && u.sessions.Keys == tab.sessions.Keys + {x}
  {}

  lemma CommitKeepsOthersInStep(tab: Tables, pr: Proc, x: Id)
    requires HoldOk(tab, pr) && DrawOk(tab, pr) && PlaceReady(tab, pr, Commit)
    requires x in tab.sessions && SessionAgrees(tab, x) && InStep(tab, x)
    ensures var u := PlaceCommit(tab, pr).tab;
      x in u.sessions && InStep(u, x) && u.sessions[x] == tab.sessions[x] && u.orders == tab.orders
  {}

  lemma CommitKeepsStep(tab: Tables, pr: Proc)
    requires SessionsAgree(tab) && HoldOk(tab, pr) && DrawOk(tab, pr) && AllInStep(tab)
    requires PlaceReady(tab, pr, Commit)
    ensures KeepsStep(tab, PlaceCommit(tab, pr))
  {
    var e := PlaceCommit(tab, pr);
    if pr.at.amount >= 0.0 { CommitInStep(tab, pr); }
    forall x | x in e.tab.sessions ensures InStep(e.tab, x) {
      if x in tab.sessions {
        assert SessionAgrees(tab, x) && InStep(tab, x);
        CommitKeepsOthersInStep(tab, pr, x);
      }
    }
  }

  // ── settlement, pickup confirm, cancel ────────────────────────────────────

  /** A confirm of a recorded session's order, whatever has become of the session. */
  lemma ConfirmKeepsStep(tab: Tables, x: Id, o: Id, who: Confirmer)
    requires SessionsAgree(tab) && AllInStep(tab) && x in tab.sessions && tab.sessions[x].order == Some(o)
    ensures var u := ConfirmOrder(tab, o, who);
      AllInStep(u) && (Waiting(u, x) ==> IsConfirmed(u, o)) && forall q | IsConfirmed(tab, q) :: IsConfirmed(u, q)
  {
    var u := ConfirmOrder(tab, o, who);
    assert InStep(tab, x) && SessionAgrees(tab, x);
    forall y | y in u.sessions ensures InStep(u, y) { assert InStep(tab, y) && SessionAgrees(tab, y); }
  }

  lemma StampKeepsStep(tab: Tables, x: Id, from: SessionState)
    requires AllInStep(tab) && x in tab.sessions && Pending(from)
    requires tab.sessions[x].state == from ==> tab.sessions[x].order.Some? && IsConfirmed(tab, tab.sessions[x].order.value)
    ensures AllInStep(StampFrom(tab, x, from))
  {
    var u := StampFrom(tab, x, from);
    assert InStep(tab, x);
    forall y | y in u.sessions ensures InStep(u, y) { assert InStep(tab, y); }
  }

  lemma SettleKeepsStep(tab: Tables, pr: Proc, act: SettleAct)
    requires SessionsAgree(tab) && AllInStep(tab) && PointOk(tab, pr.at) && ConfirmedFirst(tab, pr.at)
    requires SettleReady(tab, pr, act)
    ensures KeepsStep(tab, SettleEffect(tab, pr, act))
  {
    match act
    case ConfirmPaid => ConfirmKeepsStep(tab, pr.at.target, pr.at.order, BySettlement(pr.at.event));
    case StampPaid => StampKeepsStep(tab, pr.at.target, PendingPayment);
    case ConfirmPickup => ConfirmKeepsStep(tab, pr.at.target, pr.at.order, ByPickupOfficer(pr.at.target));
    case StampPickup => StampKeepsStep(tab, pr.at.target, PendingPickup);
    case DeliverFound(_, _) =>
    case DeliverNone(_) =>
    case PickupStart(_) =>
  }

  lemma CancelledKeepsStep(tab: Tables, x: Id, o: Id, c: Id)
    requires SessionsAgree(tab) && OneSessionPerCart(tab.carts, tab.sessions) && AllInStep(tab)
    requires x in tab.sessions && tab.sessions[x].order == Some(o) && tab.sessions[x].cart == c
    requires o in tab.orders && c in tab.carts
    ensures AllInStep(CancelledTables(tab, x, o, c))
    ensures forall y, q | y in tab.sessions && tab.sessions[y].order == Some(q) && IsConfirmed(tab, q)
              && Waiting(CancelledTables(tab, x, o, c), y) :: IsConfirmed(CancelledTables(tab, x, o, c), q)
  {
    var u := CancelledTables(tab, x, o, c);
    assert SessionAgrees(tab, x);
    forall y | y in tab.sessions && y != x ensures tab.sessions[y].cart != c && tab.sessions[y].order != Some(o) {
      assert SessionAgrees(tab, y);
    }
    forall y | y in u.sessions ensures InStep(u, y) { assert InStep(tab, y); }
  }

  lemma CancelKeepsStep(tab: Tables, x: Id)
    requires SessionsAgree(tab) && OneSessionPerCart(tab.carts, tab.sessions) && AllInStep(tab)
    requires CancelReady(tab, Idle(NotStarted), CancelAtomic(x))
    ensures KeepsStep(tab, CancelWhole(tab, x))
  {
    CancelWholeIs(tab, x);
    if CancelWhole(tab, x).tab != tab || !CancelWhole(tab, x).proc.at.outcome.Refused? {
      CancelledKeepsStep(tab, x, tab.sessions[x].order.value, tab.sessions[x].cart);
    }
  }

  // ── every whole step ──────────────────────────────────────────────────────

  lemma EffectKeepsStep(s: State, step: Step)
    requires TablesOk(s.tab) && ProcsOk(s.tab, s.procs) && Clean(s) && Enabled(s, step) && Whole(step)
    requires !step.Surround? && !step.GatewaySettles?
    ensures KeepsStep(s.tab, StepEffect(s, step))
  {
    assert ProcOk(s.tab, ProcOf(s, step.p)) && ConfirmedFirst(s.tab, ProcOf(s, step.p).at);
    match step
    case Abort(_) => ElsewhereKeepsStep(s.tab, Finish(s.tab, Aborted));
    case PlaceStep(p, act) =>
      if act.Commit? { CommitKeepsStep(s.tab, ProcOf(s, p)); } else { PlaceStaysElsewhere(s, p, act); }
    case VerbStep(p, act) => VerbStaysElsewhere(s, p, act);
    case CartStep(p, act) =>
      CartSameRows(s.tab, ProcOf(s, p), act);
      ElsewhereKeepsStep(s.tab, CartEffect(s.tab, ProcOf(s, p), act));
    case SettleStep(p, act) => SettleKeepsStep(s.tab, ProcOf(s, p), act);
    case CancelStep(p, act) => CancelKeepsStep(s.tab, act.target);
  }

  lemma StepKeepsClean(s: State, step: Step)
    requires Inv(s) && Clean(s) && Enabled(s, step) && Whole(step)
    ensures Clean(Apply(s, step))
  {
    StepKeepsInv(s, step);
    if step.Surround? {
    } else if step.GatewaySettles? {
      var t := Apply(s, step);
      forall x | x in t.tab.sessions ensures InStep(t.tab, x) { assert InStep(s.tab, x); }
    } else {
      EffectKeepsStep(s, step);
      InstallKeepsClean(s, step.p, StepEffect(s, step));
    }
  }

  lemma {:induction false} ReachableClean(states: seq<State>, steps: seq<Step>, i: nat)
    requires IsWholeRun(states, steps) && i < |states|
    ensures Clean(states[i])
  {
    if i > 0 {
      ReachableClean(states, steps, i - 1);
      ReachableInv(states, steps, i - 1);
      assert Whole(steps[i - 1]);
      StepKeepsClean(states[i - 1], steps[i - 1]);
    }
  }

  // ── what whole runs promise ───────────────────────────────────────────────

  /** In every state of a run whose cancels are whole, a settled or confirmed-free
      session's order is confirmed, a waiting one's is a draft or confirmed, and a
      session is cancelled exactly when its order is void and its cart cancelled. */
  lemma WholeRunsStayInStep(states: seq<State>, steps: seq<Step>, i: nat, x: Id)
    requires IsWholeRun(states, steps) && i < |states| && x in states[i].tab.sessions
    ensures var tab := states[i].tab; var z := tab.sessions[x];
      && z.order.Some? && z.order.value in tab.orders && z.cart in tab.carts
      && var status := tab.orders[z.order.value].status;
      && (z.state == Settled || z.state == ConfirmedFree ==> status == Confirmed)
      && (Pending(z.state) ==> status == Draft || status == Confirmed)
      && (z.state == SessionState.Cancelled <==> status == Void)
      && (z.state == SessionState.Cancelled <==> tab.carts[z.cart].state == CartState.Cancelled)
  {
    ReachableClean(states, steps, i);
    assert InStep(states[i].tab, x);
  }

  predicate Over(st: SessionState) {
    st == Settled || st == SessionState.Cancelled
  }

  lemma PlaceKeepsSession(around: Surroundings, tab: Tables, pr: Proc, act: PlaceAct, x: Id)
    requires PlaceReady(tab, pr, act) && DrawOk(tab, pr) && x in tab.sessions
    ensures var u := PlaceEffect(around, tab, pr, act).tab; x in u.sessions && u.sessions[x] == tab.sessions[x]
  {}

  lemma SettleKeepsOver(tab: Tables, pr: Proc, act: SettleAct, x: Id)
    requires SettleReady(tab, pr, act) && x in tab.sessions && Over(tab.sessions[x].state)
    ensures var u := SettleEffect(tab, pr, act).tab; x in u.sessions && u.sessions[x] == tab.sessions[x]
  {}

  lemma CancelKeepsOver(tab: Tables, y: Id, x: Id)
    requires CancelReady(tab, Idle(NotStarted), CancelAtomic(y)) && x in tab.sessions && Over(tab.sessions[x].state)
    ensures var u := CancelWhole(tab, y).tab; x in u.sessions && u.sessions[x] == tab.sessions[x]
  {}

  /** Only a place records a session. */
  lemma OnlyPlacesAddSessions(s: State, step: Step)
    requires Enabled(s, step) && !step.Surround? && !step.GatewaySettles?
    ensures step.PlaceStep? || StepEffect(s, step).tab.sessions.Keys == s.tab.sessions.Keys
  {
    match step
    case PlaceStep(_, _) =>
    case VerbStep(p, act) => VerbAddsNoSession(s.around, s.tab, ProcOf(s, p), act);
    case CartStep(p, act) => CartSameRows(s.tab, ProcOf(s, p), act);
    case SettleStep(p, act) => SettleAddsNoSession(s.tab, ProcOf(s, p), act);
    case CancelStep(p, act) => CancelAddsNoSession(s.tab, ProcOf(s, p), act);
    case Abort(_) =>
  }

  lemma VerbAddsNoSession(around: Surroundings, tab: Tables, pr: Proc, act: VerbAct)
    requires VerbReady(pr, act)
    ensures VerbEffect(around, tab, pr, act).tab.sessions == tab.sessions
  {}

  lemma SettleAddsNoSession(tab: Tables, pr: Proc, act: SettleAct)
    requires SettleReady(tab, pr, act)
    ensures SettleEffect(tab, pr, act).tab.sessions.Keys == tab.sessions.Keys
  {}

  lemma CancelAddsNoSession(tab: Tables, pr: Proc, act: CancelAct)
    requires CancelReady(tab, pr, act)
    ensures CancelEffect(tab, pr, act).tab.sessions.Keys == tab.sessions.Keys
  {}
}
