/** How a step's table writes leave everybody else alone. `Grown` is what every
    step does to the tables; `Steady` is what it must not do to one bystander. */
module CheckoutFrames {
  import opened StorefrontTypes
  import opened CheckoutState
  import opened CheckoutInvariants

  predicate Pending(st: SessionState) {
    st == PendingPayment || st == PendingPickup
  }

  /** A draft may be confirmed, and anything but a void order may become void. */
  predicate StatusMoves(before: OrderStatus, after: OrderStatus) {
    before == after || after == Void || (before == Draft && after == Confirmed)
  }

  /** No row is lost; linkage, party bindings, births, gateway amounts, all of a
      session but its state and all of an order but its status are fixed; a session
      never becomes pending again, and an order's status only moves forward. */
  ghost predicate Grown(t: Tables, u: Tables) {
    && (forall c | c in t.carts :: c in u.carts && u.carts[c].portalUser == t.carts[c].portalUser)
    && (forall k | k in t.parties :: k in u.parties && u.parties[k] == t.parties[k])
    && (forall g | g in t.gateways :: g in u.gateways
          && u.gateways[g] == t.gateways[g].(settled := u.gateways[g].settled)
          && (t.gateways[g].settled ==> u.gateways[g].settled))
    && (forall x | x in t.sessions :: x in u.sessions
          && u.sessions[x] == t.sessions[x].(state := u.sessions[x].state)
          && (Pending(u.sessions[x].state) ==> u.sessions[x].state == t.sessions[x].state))
    && (forall x | x in t.births :: x in u.births && u.births[x] == t.births[x])
    && (forall o | o in t.orders :: o in u.orders
          && u.orders[o] == t.orders[o].(status := u.orders[o].status)
          && StatusMoves(t.orders[o].status, u.orders[o].status))
  }

  /** The cart it locks, the order it minted, the checkout id it drew and the map
      key it inserted are untouched. */
  ghost predicate Steady(t: Tables, u: Tables, pr: Proc) {
    && (pr.hold.Some? && pr.hold.value.cart in t.carts ==>
          pr.hold.value.cart in u.carts && u.carts[pr.hold.value.cart] == t.carts[pr.hold.value.cart])
    && (pr.draw.Some? ==> pr.draw.value.checkout in u.sessions ==> pr.draw.value.checkout in t.sessions)
    && (pr.draw.Some? && pr.draw.value.order in t.orders ==>
          pr.draw.value.order in u.orders && u.orders[pr.draw.value.order] == t.orders[pr.draw.value.order])
    && (Uncommitted(pr).Some? && Uncommitted(pr).value in u.parties ==> Uncommitted(pr).value in t.parties)
  }

  lemma OutcomeSteady(t: Tables, u: Tables, o: Outcome)
    requires Grown(t, u) && OutcomeOk(t, o)
    ensures OutcomeOk(u, o)
  {}

  lemma PointSteady(t: Tables, u: Tables, at: Point)
    requires Grown(t, u) && PointOk(t, at)
    ensures PointOk(u, at)
  {
    if at.Done? { OutcomeSteady(t, u, at.outcome); }
  }

  lemma DrawSteady(t: Tables, u: Tables, pr: Proc)
    requires Grown(t, u) && Steady(t, u, pr) && DrawOk(t, pr)
    ensures DrawOk(u, pr)
  {}

  /** A bystander's agreement with the tables survives a step that grows the tables
      and leaves what the bystander holds alone. */
  lemma ProcSteady(t: Tables, u: Tables, pr: Proc)
    requires Grown(t, u) && Steady(t, u, pr) && ProcOk(t, pr)
    ensures ProcOk(u, pr)
  {
    DrawSteady(t, u, pr);
    PointSteady(t, u, pr.at);
  }

  /** Every process but p is left alone. */
  ghost predicate LeavesOthers(t: Tables, u: Tables, procs: map<Id, Proc>, p: Id) {
    forall q | q in procs && q != p :: Steady(t, u, procs[q])
  }

  /** Nobody else's lock, draft, checkout id or map key is touched. */
  ghost predicate Undisturbed(t: Tables, procs: map<Id, Proc>, p: Id, e: Effect) {
    forall q | q in procs && q != p ::
      Steady(t, e.tab, procs[q]) && Apart(procs[q], e.proc)
  }

  /** What a process step owes: tables and its own record in order, nobody disturbed,
      and any cart it starts to hold was unlocked. */
  ghost predicate Lawful(s: State, p: Id, e: Effect) {
    && TablesOk(e.tab) && ProcOk(e.tab, e.proc) && Grown(s.tab, e.tab)
    && Undisturbed(s.tab, s.procs, p, e)
    && (e.proc.hold.Some? ==>
          (ProcOf(s, p).hold.Some? && ProcOf(s, p).hold.value.cart == e.proc.hold.value.cart)
          || e.proc.hold.value.cart !in s.locks)
  }

  lemma LawfulIntro(s: State, p: Id, e: Effect)
    requires TablesOk(e.tab) && ProcOk(e.tab, e.proc) && Grown(s.tab, e.tab)
    requires Undisturbed(s.tab, s.procs, p, e)
    requires e.proc.hold.Some? ==> ProcOf(s, p).hold.Some? && ProcOf(s, p).hold.value.cart == e.proc.hold.value.cart
    ensures Lawful(s, p, e)
  {}

  lemma InstallKeepsLocks(s: State, p: Id, e: Effect)
    requires LocksHeld(s.locks, s.procs)
    requires e.proc.hold.Some? ==>
      (ProcOf(s, p).hold.Some? && ProcOf(s, p).hold.value.cart == e.proc.hold.value.cart)
      || e.proc.hold.value.cart !in s.locks
    ensures LocksHeld(Install(s, p, e).locks, Install(s, p, e).procs)
  {}

  lemma InstallKeepsApart(procs: map<Id, Proc>, p: Id, pr: Proc)
    requires AllApart(procs)
    requires forall q | q in procs && q != p :: Apart(procs[q], pr)
    ensures AllApart(procs[p := pr])
  {}

  lemma InstallKeepsProcs(t: Tables, u: Tables, procs: map<Id, Proc>, p: Id, pr: Proc)
    requires ProcsOk(t, procs) && ProcOk(u, pr) && Grown(t, u)
    requires forall q | q in procs && q != p :: Steady(t, u, procs[q])
    ensures ProcsOk(u, procs[p := pr])
  {
    var after := procs[p := pr];
    forall q | q in after ensures ProcOk(u, after[q]) {
      if q != p { ProcSteady(t, u, procs[q]); }
    }
  }

  lemma InstallKeepsInv(s: State, p: Id, e: Effect)
    requires Inv(s) && Lawful(s, p, e)
    ensures Inv(Install(s, p, e))
  {
    InstallKeepsLocks(s, p, e);
    InstallKeepsApart(s.procs, p, e.proc);
    InstallKeepsProcs(s.tab, e.tab, s.procs, p, e.proc);
  }
}
