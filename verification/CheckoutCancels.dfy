/** Cancel is several commits, and a delivery or a pickup confirm may come between
    them. So a session can settle over a void order, and a settled one can still become
    cancelled; this module says, for every run, exactly when. */
module CheckoutCancels {
  import opened StorefrontTypes
  import opened CheckoutState
  import opened CheckoutSteps
  import opened CheckoutInvariants
  import opened CheckoutFrames
  import opened CheckoutStepProofs
  import opened CheckoutRuns
  import opened CheckoutSettlement
  import opened CheckoutDeliveries

  // ── the two steps that matter ─────────────────────────────────────────────

  /** A cancel of x reaches selling. */
  predicate VoidsFor(s: State, step: Step, x: Id) {
    step.CancelStep? && step.cancel.CancelSelling?
    && ProcOf(s, step.p).at.CancelRead? && ProcOf(s, step.p).at.target == x
  }

  /** A cancel of x reaches its session update. */
  predicate StampsFor(s: State, step: Step, x: Id) {
    step.CancelStep? && step.cancel.StampCancelled?
    && ProcOf(s, step.p).at.CancelVoided? && ProcOf(s, step.p).at.target == x
  }

  /** Before state n, some cancel of x reached selling. */
  ghost predicate SoldOut(states: seq<State>, steps: seq<Step>, n: nat, x: Id)
    requires n <= |steps| < |states|
  {
    exists k :: 0 <= k < n && VoidsFor(states[k], steps[k], x)
  }

  // ── one step ──────────────────────────────────────────────────────────────

  predicate IsVoid(tab: Tables, o: Id) {
    o in tab.orders && tab.orders[o].status == Void
  }

  /** Place and the verbs that touch no order void none. */
  lemma PlaceVoidsNone(around: Surroundings, tab: Tables, pr: Proc, act: PlaceAct, o: Id)
    requires PlaceReady(tab, pr, act)
    ensures IsVoid(PlaceEffect(around, tab, pr, act).tab, o) ==> IsVoid(tab, o)
  {}

  lemma VerbVoidsNone(around: Surroundings, tab: Tables, pr: Proc, act: VerbAct)
    requires VerbReady(pr, act)
    ensures VerbEffect(around, tab, pr, act).tab.orders == tab.orders
  {}

  lemma CartVoidsNone(tab: Tables, pr: Proc, act: CartAct)
    requires CartReady(tab, pr, act)
    ensures CartEffect(tab, pr, act).tab.orders == tab.orders
  {}

  lemma SettleVoidsNone(tab: Tables, pr: Proc, act: SettleAct, o: Id)
    requires SettleReady(tab, pr, act)
    ensures IsVoid(SettleEffect(tab, pr, act).tab, o) ==> IsVoid(tab, o)
  {}

  /** A cancel step voids only the order it read, or, run whole, one it cancels the
      session of. */
  lemma CancelVoids(tab: Tables, pr: Proc, act: CancelAct, o: Id)
    requires CancelReady(tab, pr, act)
    ensures var u := CancelEffect(tab, pr, act).tab;
      IsVoid(u, o) && !IsVoid(tab, o) ==>
        (act.CancelSelling? && pr.at.order == o)
        || (act.CancelAtomic? && act.target in tab.sessions && tab.sessions[act.target].order == Some(o)
            && act.target in u.sessions && u.sessions[act.target].state == SessionState.Cancelled)
  {}

  lemma OnlyCancelsVoid(s: State, step: Step, o: Id)
    requires Enabled(s, step) && !step.Surround? && !step.GatewaySettles? && !step.CancelStep?
    ensures IsVoid(StepEffect(s, step).tab, o) ==> IsVoid(s.tab, o)
  {
    match step
    case PlaceStep(p, act) => PlaceVoidsNone(s.around, s.tab, ProcOf(s, p), act, o);
    case VerbStep(p, act) => VerbVoidsNone(s.around, s.tab, ProcOf(s, p), act);
    case CartStep(p, act) => CartVoidsNone(s.tab, ProcOf(s, p), act);
    case SettleStep(p, act) => SettleVoidsNone(s.tab, ProcOf(s, p), act, o);
    case Abort(_) =>
  }

  /** A session that is over stays as it is, but for a cancel's session update. */
  lemma CancelMovesOver(tab: Tables, pr: Proc, act: CancelAct, x: Id)
    requires CancelReady(tab, pr, act) && x in tab.sessions && Over(tab.sessions[x].state)
    ensures var u := CancelEffect(tab, pr, act).tab;
      x in u.sessions
      && u.sessions[x] == if act.StampCancelled? && pr.at.target == x
                          then tab.sessions[x].(state := SessionState.Cancelled) else tab.sessions[x]
  {}

  lemma StepMovesOver(s: State, step: Step, x: Id)
    requires ProcsOk(s.tab, s.procs) && Enabled(s, step) && !step.Surround? && !step.GatewaySettles?
    requires x in s.tab.sessions && Over(s.tab.sessions[x].state)
    ensures var u := StepEffect(s, step).tab;
      x in u.sessions
      && u.sessions[x] == if StampsFor(s, step, x) then s.tab.sessions[x].(state := SessionState.Cancelled)
                          else s.tab.sessions[x]
  {
    assert ProcOk(s.tab, ProcOf(s, step.p));
    match step
    case PlaceStep(p, act) => PlaceKeepsSession(s.around, s.tab, ProcOf(s, p), act, x);
    case VerbStep(p, act) => VerbSameRows(s.around, s.tab, ProcOf(s, p), act);
    case CartStep(p, act) => CartSameRows(s.tab, ProcOf(s, p), act);
    case SettleStep(p, act) => SettleKeepsOver(s.tab, ProcOf(s, p), act, x);
    case CancelStep(p, act) => CancelMovesOver(s.tab, ProcOf(s, p), act, x);
    case Abort(_) =>
  }

  lemma NextMovesOver(s: State, step: Step, x: Id)
    requires Inv(s) && Enabled(s, step) && x in s.tab.sessions && Over(s.tab.sessions[x].state)
    ensures var u := Apply(s, step).tab;
      x in u.sessions
      && u.sessions[x] == if StampsFor(s, step, x) then s.tab.sessions[x].(state := SessionState.Cancelled)
                          else s.tab.sessions[x]
  {
    if !step.Surround? && !step.GatewaySettles? { StepMovesOver(s, step, x); }
  }

  // ── when an order is void ─────────────────────────────────────────────────

  /** Two sessions never share an order. */
  lemma OneSessionPerOrder(tab: Tables, x: Id, y: Id)
    requires SessionsAgree(tab) && x in tab.sessions && y in tab.sessions
    requires tab.sessions[x].order == tab.sessions[y].order
    ensures x == y
  {
    assert SessionAgrees(tab, x) && SessionAgrees(tab, y);
  }

  /** The step at which a cancel of x reaches selling leaves its order void. */
  lemma SellingVoids(s: State, step: Step, x: Id)
    requires SessionsAgree(s.tab) && ProcsOk(s.tab, s.procs) && Enabled(s, step) && VoidsFor(s, step, x)
    ensures x in s.tab.sessions && s.tab.sessions[x].order.Some?
    ensures IsVoid(Apply(s, step).tab, s.tab.sessions[x].order.value)
  {
    var pr := ProcOf(s, step.p);
    assert PointOk(s.tab, pr.at) by { assert ProcOk(s.tab, pr); }
    assert SessionAgrees(s.tab, x);
    SellingVoidsOrder(s.tab, pr);
    ApplyIsInstall(s, step);
  }

  lemma SellingVoidsOrder(tab: Tables, pr: Proc)
    requires pr.at.CancelRead? && pr.at.order in tab.orders
    ensures IsVoid(CancelEffect(tab, pr, CancelSelling).tab, pr.at.order)
  {}

  /** The session's order is void only if the session is cancelled, or a cancel of it
      has reached selling. */
  ghost predicate Explained(states: seq<State>, steps: seq<Step>, n: nat, x: Id)
    requires n <= |steps| < |states| && x in states[n].tab.sessions
  {
    var z := states[n].tab.sessions[x];
    z.order.Some? && IsVoid(states[n].tab, z.order.value) ==>
      z.state == SessionState.Cancelled || SoldOut(states, steps, n, x)
  }

  ghost predicate VoidExplained(states: seq<State>, steps: seq<Step>, n: nat)
    requires n <= |steps| < |states|
  {
    forall x {:trigger Explained(states, steps, n, x)} | x in states[n].tab.sessions :: Explained(states, steps, n, x)
  }

  /** A session recorded by a place has an order that is not void. */
  lemma BornNotVoid(s: State, step: Step, x: Id)
    requires ProcsOk(s.tab, s.procs) && Enabled(s, step) && !step.Surround? && !step.GatewaySettles?
    requires x in StepEffect(s, step).tab.sessions && x !in s.tab.sessions
    requires StepEffect(s, step).tab.sessions[x].order.Some?
    ensures !IsVoid(StepEffect(s, step).tab, StepEffect(s, step).tab.sessions[x].order.value)
  {
    assert DrawOk(s.tab, ProcOf(s, step.p)) by { assert ProcOk(s.tab, ProcOf(s, step.p)); }
    OnlyPlacesAddSessions(s, step);
    PlaceRecords(s.around, s.tab, ProcOf(s, step.p), step.place, x);
  }

  lemma PlaceRecords(around: Surroundings, tab: Tables, pr: Proc, act: PlaceAct, x: Id)
    requires PlaceReady(tab, pr, act) && DrawOk(tab, pr)
    requires x in PlaceEffect(around, tab, pr, act).tab.sessions && x !in tab.sessions
    ensures var u := PlaceEffect(around, tab, pr, act).tab;
      u.orders == tab.orders && pr.draw.Some? && u.sessions[x].order == Some(pr.draw.value.order)
      && !IsVoid(tab, pr.draw.value.order)
  {}

  /** A recorded order that a cancel voids is its own session's. */
  lemma CancelVoidsOwn(tab: Tables, pr: Proc, act: CancelAct, x: Id)
    requires SessionsAgree(tab) && PointOk(tab, pr.at) && CancelReady(tab, pr, act)
    requires x in tab.sessions && tab.sessions[x].order.Some? && !IsVoid(tab, tab.sessions[x].order.value)
    requires IsVoid(CancelEffect(tab, pr, act).tab, tab.sessions[x].order.value)
    ensures (act.CancelSelling? && pr.at.target == x)
            || (x in CancelEffect(tab, pr, act).tab.sessions
                && CancelEffect(tab, pr, act).tab.sessions[x].state == SessionState.Cancelled)
  {
    CancelVoids(tab, pr, act, tab.sessions[x].order.value);
    if act.CancelSelling? {
      OneSessionPerOrder(tab, x, pr.at.target);
    } else {
      OneSessionPerOrder(tab, x, act.target);
    }
  }

  lemma NewlyVoid(s: State, step: Step, x: Id)
    requires SessionsAgree(s.tab) && ProcsOk(s.tab, s.procs)
    requires Enabled(s, step) && !step.Surround? && !step.GatewaySettles?
    requires x in s.tab.sessions && s.tab.sessions[x].order.Some? && !IsVoid(s.tab, s.tab.sessions[x].order.value)
    requires IsVoid(StepEffect(s, step).tab, s.tab.sessions[x].order.value)
    ensures VoidsFor(s, step, x)
            || (x in StepEffect(s, step).tab.sessions
                && StepEffect(s, step).tab.sessions[x].state == SessionState.Cancelled)
  {
    if step.CancelStep? {
      assert PointOk(s.tab, ProcOf(s, step.p).at) by { assert ProcOk(s.tab, ProcOf(s, step.p)); }
      CancelVoidsOwn(s.tab, ProcOf(s, step.p), step.cancel, x);
    } else {
      OnlyCancelsVoid(s, step, s.tab.sessions[x].order.value);
    }
  }

  lemma SoldOutLater(states: seq<State>, steps: seq<Step>, n: nat, x: Id)
    requires n < |steps| < |states|
    ensures SoldOut(states, steps, n + 1, x) <==> SoldOut(states, steps, n, x) || VoidsFor(states[n], steps[n], x)
  {}

  lemma StepExplainsVoid(states: seq<State>, steps: seq<Step>, n: nat, x: Id)
    requires IsRun(states, steps) && n < |steps| && Inv(states[n]) && VoidExplained(states, steps, n)
    requires x in states[n + 1].tab.sessions
    ensures Explained(states, steps, n + 1, x)
  {
    var s, step := states[n], steps[n];
    StepKeepsInv(s, step);
    SoldOutLater(states, steps, n, x);
    if x in s.tab.sessions {
      assert SessionAgrees(s.tab, x) && Explained(states, steps, n, x);
      if IsVoid(s.tab, s.tab.sessions[x].order.value) {
        if Over(s.tab.sessions[x].state) { NextMovesOver(s, step, x); }
      } else if !step.Surround? && !step.GatewaySettles? && IsVoid(states[n + 1].tab, s.tab.sessions[x].order.value) {
        NewlyVoid(s, step, x);
      }
    } else if !step.Surround? && !step.GatewaySettles? && states[n + 1].tab.sessions[x].order.Some? {
      BornNotVoid(s, step, x);
    }
  }

  lemma {:induction false} VoidIsExplained(states: seq<State>, steps: seq<Step>, n: nat)
    requires IsRun(states, steps) && n < |states|
    ensures VoidExplained(states, steps, n)
  {
    if n > 0 {
      VoidIsExplained(states, steps, n - 1);
      NextIsExplained(states, steps, n - 1);
    }
  }

  lemma NextIsExplained(states: seq<State>, steps: seq<Step>, n: nat)
    requires IsRun(states, steps) && n < |steps| && VoidExplained(states, steps, n)
    ensures VoidExplained(states, steps, n + 1)
  {
    ReachableInv(states, steps, n);
    var after, m := states[n + 1], n + 1;
    forall x | x in after.tab.sessions ensures Explained(states, steps, m, x) {
      StepExplainsVoid(states, steps, n, x);
    }
  }

  /** Once a cancel of x has reached selling, the order of x is void for good. */
  lemma SoldOutIsVoid(states: seq<State>, steps: seq<Step>, n: nat, x: Id)
    requires IsRun(states, steps) && n < |states| && SoldOut(states, steps, n, x)
    ensures x in states[n].tab.sessions && states[n].tab.sessions[x].order.Some?
    ensures IsVoid(states[n].tab, states[n].tab.sessions[x].order.value)
  {
    var k :| 0 <= k < n && VoidsFor(states[k], steps[k], x);
    ReachableInv(states, steps, k);
    SellingVoids(states[k], steps[k], x);
    StaysVoid(states, steps, k, n, x);
  }

  lemma StaysVoid(states: seq<State>, steps: seq<Step>, k: nat, n: nat, x: Id)
    requires IsRun(states, steps) && k < n < |states|
    requires x in states[k].tab.sessions && states[k].tab.sessions[x].order.Some?
    requires IsVoid(states[k + 1].tab, states[k].tab.sessions[x].order.value)
    ensures x in states[n].tab.sessions && states[n].tab.sessions[x].order == states[k].tab.sessions[x].order
    ensures IsVoid(states[n].tab, states[k].tab.sessions[x].order.value)
  {
    RunGrows(states, steps, k, n);
    RunGrows(states, steps, k + 1, n);
  }

  /** In every run, the order of a session that is not cancelled is void exactly when
      some cancel of that session has reached selling. */
  lemma VoidIff(states: seq<State>, steps: seq<Step>, n: nat, x: Id)
    requires IsRun(states, steps) && n < |states| && x in states[n].tab.sessions
    requires states[n].tab.sessions[x].state != SessionState.Cancelled
    ensures states[n].tab.sessions[x].order.Some?
    ensures IsVoid(states[n].tab, states[n].tab.sessions[x].order.value) <==> SoldOut(states, steps, n, x)
  {
    ReachableInv(states, steps, n);
    assert SessionAgrees(states[n].tab, x);
    VoidIsExplained(states, steps, n);
    assert Explained(states, steps, n, x);
    if SoldOut(states, steps, n, x) { SoldOutIsVoid(states, steps, n, x); }
  }

  // ── what every run promises ───────────────────────────────────────────────

  /** In every run, a settled or confirmed-free session's order is confirmed exactly
      when no cancel of that session has reached selling. */
  lemma SettledIsConfirmed(states: seq<State>, steps: seq<Step>, n: nat, x: Id)
    requires IsRun(states, steps) && n < |states| && x in states[n].tab.sessions
    requires states[n].tab.sessions[x].state == Settled || states[n].tab.sessions[x].state == ConfirmedFree
    ensures states[n].tab.sessions[x].order.Some?
    ensures IsConfirmed(states[n].tab, states[n].tab.sessions[x].order.value) <==> !SoldOut(states, steps, n, x)
  {
    VoidIff(states, steps, n, x);
    OnlyWaitingIsDraft(states, steps, n);
    assert LeftDraft(states[n].tab, states[n].tab.sessions[x].order);
  }

  /** Wherever a run has got to (consumers crashed between confirm and stamp, cancels
      under way), one complete delivery settles a session still waiting for its
      settled gateway row, with its order confirmed exactly when no cancel of it has
      reached selling. */
  lemma RedeliveryHealsAnyCrash(states: seq<State>, steps: seq<Step>, n: nat, p: Id, g: Id, x: Id)
    requires IsRun(states, steps) && n < |states|
    requires Deliverable(states[n], p, g, x) && states[n].tab.sessions[x].state == PendingPayment
    ensures var t := Deliver(states[n], p, g, x).tab; var o := states[n].tab.sessions[x].order;
      o.Some? && x in t.sessions && t.sessions[x].state == Settled
      && (IsConfirmed(t, o.value) <==> !SoldOut(states, steps, n, x))
  {
    ReachableInv(states, steps, n);
    VoidIff(states, steps, n, x);
    DeliverySettles(states[n], p, g, x);
  }

  /** The same for a pickup and the officer's confirm. */
  lemma OfficerHealsAnyCrash(states: seq<State>, steps: seq<Step>, n: nat, p: Id, x: Id)
    requires IsRun(states, steps) && n < |states| && p !in states[n].procs
    requires x in states[n].tab.sessions && states[n].tab.sessions[x].state == PendingPickup
    ensures var t := PickUp(states[n], p, x).tab; var o := states[n].tab.sessions[x].order;
      o.Some? && x in t.sessions && t.sessions[x].state == Settled
      && (IsConfirmed(t, o.value) <==> !SoldOut(states, steps, n, x))
  {
    ReachableInv(states, steps, n);
    VoidIff(states, steps, n, x);
    PickupSettles(states[n], p, x);
  }

  /** Between two states of a run, some cancel of x reached its session update. */
  ghost predicate Overwritten(states: seq<State>, steps: seq<Step>, i: nat, j: nat, x: Id)
    requires i <= j <= |steps| < |states|
  {
    exists k :: i <= k < j && StampsFor(states[k], steps[k], x)
  }

  /** In every run, a session that has left the state it was born with changes again
      exactly when it had settled and a cancel then reached its session update. */
  lemma {:induction false} LeavesBirthOnce(states: seq<State>, steps: seq<Step>, i: nat, j: nat, x: Id)
    requires IsRun(states, steps) && i <= j < |states| && x in states[i].tab.sessions
    requires x in states[i].tab.births && states[i].tab.sessions[x].state != states[i].tab.births[x]
    ensures x in states[j].tab.sessions && Over(states[i].tab.sessions[x].state)
    ensures states[j].tab.sessions[x] != states[i].tab.sessions[x]
            <==> states[i].tab.sessions[x].state == Settled && Overwritten(states, steps, i, j, x)
    ensures states[j].tab.sessions[x] != states[i].tab.sessions[x] ==>
              states[j].tab.sessions[x] == states[i].tab.sessions[x].(state := SessionState.Cancelled)
    decreases j - i
  {
    ReachableInv(states, steps, i);
    assert BirthAgrees(states[i].tab.births[x], states[i].tab.sessions[x]);
    if i < j {
      LeavesBirthOnce(states, steps, i, j - 1, x);
      ReachableInv(states, steps, j - 1);
      NextMovesOver(states[j - 1], steps[j - 1], x);
      OverwrittenStep(states, steps, i, j, x);
    }
  }

  lemma OverwrittenStep(states: seq<State>, steps: seq<Step>, i: nat, j: nat, x: Id)
    requires i < j <= |steps| < |states|
    ensures Overwritten(states, steps, i, j, x)
            <==> Overwritten(states, steps, i, j - 1, x) || StampsFor(states[j - 1], steps[j - 1], x)
  {}

  // ── a plain race ──────────────────────────────────────────────────────────

  /** The race can start: a delivery of x by p and a cancel of it by q. */
  predicate Racing(s: State, p: Id, q: Id, g: Id, x: Id) {
    Deliverable(s, p, g, x) && q !in s.procs && p != q
    && s.tab.sessions[x].state == PendingPayment && s.tab.sessions[x].order.Some?
    && s.tab.sessions[x].order.value in s.tab.orders
    && s.tab.orders[s.tab.sessions[x].order.value].status != Void
  }

  /** The delivery finds and confirms; then the cancel reads the session and voids the
      order. */
  function RaceVoided(s: State, p: Id, q: Id, g: Id, x: Id): (t: State)
    requires Racing(s, p, q, g, x)
    ensures var o := s.tab.sessions[x].order.value;
      && p in t.procs && t.procs[p] == Idle(SettleConfirmed(g, x, o))
      && q in t.procs && t.procs[q] == Idle(CancelVoided(x, o, s.tab.sessions[x].cart))
      && t.tab.sessions == s.tab.sessions && IsVoid(t.tab, o)
  {
    var read := Apply(FoundAndConfirmed(s, p, g, x), CancelStep(q, CancelStart(x)));
    assert read.tab == FoundAndConfirmed(s, p, g, x).tab;
    Apply(read, CancelStep(q, CancelSelling))
  }

  /** A plain race, in which nobody crashes: the delivery stamps a session whose order
      the cancel has just voided, and the cancel then takes the settled session to
      cancelled. */
  lemma RaceSettlesVoid(s: State, p: Id, q: Id, g: Id, x: Id)
    requires Racing(s, p, q, g, x)
    ensures var o := s.tab.sessions[x].order.value; var raced := RaceVoided(s, p, q, g, x);
      var settled := Apply(raced, SettleStep(p, StampPaid));
      && x in settled.tab.sessions && settled.tab.sessions[x] == s.tab.sessions[x].(state := Settled)
      && IsVoid(settled.tab, o)
      && Enabled(settled, CancelStep(q, StampCancelled))
      && var over := Apply(settled, CancelStep(q, StampCancelled));
      x in over.tab.sessions && over.tab.sessions[x] == s.tab.sessions[x].(state := SessionState.Cancelled)
  {
    var raced := RaceVoided(s, p, q, g, x);
    var settled := Apply(raced, SettleStep(p, StampPaid));
    assert q in settled.procs && settled.procs[q] == raced.procs[q];
  }
}
