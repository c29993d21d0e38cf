/** Any number of consumers of one gateway event, interleaved at will and crashing
    anywhere, leave what one undisturbed delivery leaves. */
module CheckoutConsumers {
  import opened StorefrontTypes
  import opened CheckoutState
  import opened CheckoutSteps
  import opened CheckoutInvariants
  import opened CheckoutFrames
  import opened CheckoutRuns
  import opened CheckoutSettlement
  import opened CheckoutDeliveries

  /** The process is between the reads and writes of a delivery of g to x. */
  predicate Consuming(at: Point, g: Id, x: Id) {
    (at.SettleRead? || at.SettleConfirmed?) && at.event == g && at.target == x
  }

  /** A step of a consumer of event g for session x: it starts, goes on, or crashes. */
  predicate Consumes(s: State, step: Step, g: Id, x: Id) {
    (step.SettleStep?
     && (step.settle == DeliverFound(g, x)
         || ((step.settle == ConfirmPaid || step.settle == StampPaid) && Consuming(ProcOf(s, step.p).at, g, x))))
    || (step.Abort? && Consuming(ProcOf(s, step.p).at, g, x))
  }

  /** The step finishes its consumer: stamped, or found already handled. */
  predicate Finishes(t: State, step: Step, x: Id) {
    step.SettleStep? && step.p in t.procs && FinishedAt(t.procs[step.p].at, x)
  }

  /** From state i to state j, only consumers of g for x take steps. */
  ghost predicate OnlyConsumers(states: seq<State>, steps: seq<Step>, i: nat, j: nat, g: Id, x: Id)
    requires i <= j <= |steps| < |states|
  {
    forall k {:trigger Consumes(states[k], steps[k], g, x)} | i <= k < j :: Consumes(states[k], steps[k], g, x)
  }

  ghost predicate SomeFinishes(states: seq<State>, steps: seq<Step>, i: nat, j: nat, x: Id)
    requires i <= j <= |steps| < |states|
  {
    exists k :: i <= k < j && Finishes(states[k + 1], steps[k], x)
  }

  // ── how far the deliveries have got ───────────────────────────────────────

  /** Confirmed, not yet stamped. */
  function HalfDelivered(tab: Tables, g: Id, x: Id): Tables
    requires x in tab.sessions
  {
    if tab.sessions[x].state == PendingPayment && tab.sessions[x].order.Some?
    then ConfirmOrder(tab, tab.sessions[x].order.value, BySettlement(g)) else tab
  }

  /** The three tables a delivery can be at, from t. */
  predicate UnderWay(t: Tables, u: Tables, g: Id, x: Id) {
    x in t.sessions && (u == t || u == HalfDelivered(t, g, x) || u == Delivered(t, g, x))
  }

  /** The session's order where deliveries start: there, and a draft only while the
      session waits for its payment. */
  predicate Startable(t: Tables, x: Id) {
    x in t.sessions && t.sessions[x].order.Some? && t.sessions[x].order.value in t.orders
    && (t.orders[t.sessions[x].order.value].status == Draft ==> t.sessions[x].state == PendingPayment)
  }

  predicate FinishedAt(at: Point, x: Id) {
    at == Done(Stamped(x)) || at == Done(AlreadyHandled)
  }

  /** No way back, and whoever finishes leaves the delivery complete. */
  predicate KeepsWay(t: Tables, u: Tables, e: Effect, g: Id, x: Id) {
    UnderWay(t, e.tab, g, x)
    && (u == Delivered(t, g, x) || FinishedAt(e.proc.at, x) ==> e.tab == Delivered(t, g, x))
  }

  lemma FindKeepsWay(t: Tables, u: Tables, pr: Proc, g: Id, x: Id)
    requires Startable(t, x) && UnderWay(t, u, g, x) && SettleReady(u, pr, DeliverFound(g, x))
    ensures KeepsWay(t, u, SettleEffect(u, pr, DeliverFound(g, x)), g, x)
  {}

  lemma ConfirmKeepsWay(t: Tables, u: Tables, pr: Proc, g: Id, x: Id)
    requires Startable(t, x) && UnderWay(t, u, g, x)
    requires pr.at == SettleRead(g, x, t.sessions[x].order.value)
    ensures KeepsWay(t, u, SettleEffect(u, pr, ConfirmPaid), g, x)
  {}

  lemma StampKeepsWay(t: Tables, u: Tables, pr: Proc, g: Id, x: Id)
    requires Startable(t, x) && UnderWay(t, u, g, x)
    requires pr.at == SettleConfirmed(g, x, t.sessions[x].order.value)
    requires LeftDraft(u, t.sessions[x].order)
    ensures KeepsWay(t, u, SettleEffect(u, pr, StampPaid), g, x)
  {}

  /** A consumer's point names the session's own order. */
  lemma ConsumesOwn(t: Tables, u: Tables, at: Point, g: Id, x: Id)
    requires Startable(t, x) && UnderWay(t, u, g, x) && PointOk(u, at) && Consuming(at, g, x)
    ensures t.sessions[x].order == Some(at.order)
  {}

  lemma ConsumerEffect(t: Tables, u: Tables, pr: Proc, act: SettleAct, g: Id, x: Id)
    requires Startable(t, x) && UnderWay(t, u, g, x)
    requires PointOk(u, pr.at) && PointDecided(u, pr.at) && SettleReady(u, pr, act)
    requires act == DeliverFound(g, x) || ((act == ConfirmPaid || act == StampPaid) && Consuming(pr.at, g, x))
    ensures KeepsWay(t, u, SettleEffect(u, pr, act), g, x)
  {
    if act == DeliverFound(g, x) {
      FindKeepsWay(t, u, pr, g, x);
    } else {
      ConsumesOwn(t, u, pr.at, g, x);
      if act == ConfirmPaid { ConfirmKeepsWay(t, u, pr, g, x); } else { StampKeepsWay(t, u, pr, g, x); }
    }
  }

  /** One step of one consumer: no way back, and whoever finishes leaves the delivery
      complete. */
  lemma ConsumerStep(t: Tables, s: State, step: Step, g: Id, x: Id)
    requires ProcsOk(s.tab, s.procs) && Decided(s) && Enabled(s, step) && Consumes(s, step, g, x)
    requires Startable(t, x) && UnderWay(t, s.tab, g, x)
    ensures UnderWay(t, Apply(s, step).tab, g, x)
    ensures s.tab == Delivered(t, g, x) || Finishes(Apply(s, step), step, x) ==>
              Apply(s, step).tab == Delivered(t, g, x)
  {
    if step.SettleStep? {
      var pr := ProcOf(s, step.p);
      assert PointOk(s.tab, pr.at) && PointDecided(s.tab, pr.at) by { assert ProcOk(s.tab, pr); }
      ConsumerEffect(t, s.tab, pr, step.settle, g, x);
      assert Apply(s, step).procs[step.p] == SettleEffect(s.tab, pr, step.settle).proc;
    }
  }

  lemma StartsHere(states: seq<State>, steps: seq<Step>, i: nat, g: Id, x: Id)
    requires IsRun(states, steps) && i < |states|
    requires x in states[i].tab.sessions && states[i].tab.sessions[x].gateway == Some(g)
    ensures Startable(states[i].tab, x)
  {
    ReachableInv(states, steps, i);
    OnlyWaitingIsDraft(states, steps, i);
    assert SessionAgrees(states[i].tab, x);
    assert BirthAgrees(states[i].tab.births[x], states[i].tab.sessions[x]);
  }

  lemma NextKeepsWay(t: Tables, states: seq<State>, steps: seq<Step>, j: nat, m: nat, g: Id, x: Id)
    requires IsRun(states, steps) && m == j + 1 < |states| && Consumes(states[j], steps[j], g, x)
    requires Startable(t, x) && UnderWay(t, states[j].tab, g, x)
    ensures UnderWay(t, states[m].tab, g, x)
    ensures states[j].tab == Delivered(t, g, x) || Finishes(states[m], steps[j], x) ==>
              states[m].tab == Delivered(t, g, x)
  {
    ReachableInv(states, steps, j);
    OnlyWaitingIsDraft(states, steps, j);
    ConsumerStep(t, states[j], steps[j], g, x);
  }

  lemma ConsumersPrefix(states: seq<State>, steps: seq<Step>, i: nat, j: nat, g: Id, x: Id)
    requires i < j <= |steps| < |states| && OnlyConsumers(states, steps, i, j, g, x)
    ensures OnlyConsumers(states, steps, i, j - 1, g, x) && Consumes(states[j - 1], steps[j - 1], g, x)
  {}

  lemma FinishesStep(states: seq<State>, steps: seq<Step>, i: nat, j: nat, x: Id)
    requires i < j <= |steps| < |states|
    ensures SomeFinishes(states, steps, i, j, x)
            <==> SomeFinishes(states, steps, i, j - 1, x) || Finishes(states[j], steps[j - 1], x)
  {}

  /** By state j the deliveries that started from t are under way, and complete once one
      has finished. */
  ghost predicate WayAt(t: Tables, states: seq<State>, steps: seq<Step>, i: nat, j: nat, g: Id, x: Id)
    requires i <= j <= |steps| < |states|
  {
    UnderWay(t, states[j].tab, g, x)
    && (SomeFinishes(states, steps, i, j, x) ==> states[j].tab == Delivered(t, g, x))
  }

  lemma WayStarts(states: seq<State>, steps: seq<Step>, i: nat, g: Id, x: Id)
    requires i <= |steps| < |states| && x in states[i].tab.sessions
    ensures WayAt(states[i].tab, states, steps, i, i, g, x)
  {}

  lemma WayGoesOn(t: Tables, states: seq<State>, steps: seq<Step>, i: nat, j: nat, m: nat, g: Id, x: Id)
    requires IsRun(states, steps) && i <= j && m == j + 1 < |states| && Consumes(states[j], steps[j], g, x)
    requires Startable(t, x) && WayAt(t, states, steps, i, j, g, x)
    ensures WayAt(t, states, steps, i, m, g, x)
  {
    NextKeepsWay(t, states, steps, j, m, g, x);
    FinishesStep(states, steps, i, m, x);
  }

  lemma {:induction false} ConsumersKeepWay(t: Tables, states: seq<State>, steps: seq<Step>, i: nat, j: nat,
                                            g: Id, x: Id)
    requires IsRun(states, steps) && i <= j < |states| && OnlyConsumers(states, steps, i, j, g, x)
    requires t == states[i].tab && Startable(t, x)
    ensures WayAt(t, states, steps, i, j, g, x)
    decreases j - i
  {
    if i < j {
      ConsumersPrefix(states, steps, i, j, g, x);
      ConsumersKeepWay(t, states, steps, i, j - 1, g, x);
      WayGoesOn(t, states, steps, i, j - 1, j, g, x);
    } else {
      WayStarts(states, steps, i, g, x);
    }
  }

  /** From any state of any run, with consumers of one event possibly under way: if
      from there on only consumers of that event take steps (starting, going on,
      crashing, in any number and order) and at least one of them finishes, the
      tables are exactly those of one undisturbed delivery. */
  lemma ManyDeliveriesAreOne(states: seq<State>, steps: seq<Step>, i: nat, j: nat, p: Id, g: Id, x: Id)
    requires IsRun(states, steps) && i <= j < |states| && Deliverable(states[i], p, g, x)
    requires OnlyConsumers(states, steps, i, j, g, x) && SomeFinishes(states, steps, i, j, x)
    ensures states[j].tab == Deliver(states[i], p, g, x).tab
  {
    StartsHere(states, steps, i, g, x);
    ConsumersKeepWay(states[i].tab, states, steps, i, j, g, x);
    DeliverIs(states[i], p, g, x);
  }
}
