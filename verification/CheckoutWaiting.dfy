/** Who waits for whom. A verb waits only for a cart's row lock or for an uncommitted
    row of the shopper-party map, and no chain of waits closes: there is no deadlock. */
module CheckoutWaiting {
  import opened StorefrontTypes
  import opened CheckoutState
  import opened CheckoutSteps
  import opened CheckoutInvariants
  import opened CheckoutRuns

  /** The process's next insert waits for q's uncommitted row of the same key. */
  predicate AwaitsKey(s: State, p: Id, q: Id) {
    p in s.procs && q in s.procs
    && (s.procs[p].at.PlaceMissed? || s.procs[p].at.VerbMissed?)
    && Uncommitted(s.procs[q]) == Some(s.procs[p].at.key)
  }

  /** The cart whose row lock the process's next statement needs and does not hold. */
  function NeedsLock(at: Point): Option<Id> {
    if at.CouponRead? then Some(at.cart)
    else if at.AdoptChecked? then Some(at.cart)
    else if at.RecoverChecked? then Some(at.cart)
    else if at.CancelStamped? then Some(at.cart)
    else None
  }

  predicate AwaitsLock(s: State, p: Id, q: Id) {
    p in s.procs && NeedsLock(s.procs[p].at).Some?
    && NeedsLock(s.procs[p].at).value in s.locks && s.locks[NeedsLock(s.procs[p].at).value] == q
  }

  predicate Awaits(s: State, p: Id, q: Id) {
    AwaitsKey(s, p, q) || AwaitsLock(s, p, q)
  }

  // ── a process that can go on ──────────────────────────────────────────────

  /** The step is this process's own, and not a crash. */
  predicate Advances(step: Step, p: Id) {
    !step.Surround? && !step.GatewaySettles? && !step.Abort? && step.p == p
  }

  /** Some step of the process, other than a crash, can be taken now. */
  ghost predicate CanStep(s: State, p: Id) {
    exists step :: Advances(step, p) && Enabled(s, step)
  }

  /** Started and not finished. */
  predicate Active(at: Point) {
    !at.NotStarted? && !at.Done?
  }

  lemma {:induction false} NewId(used: set<Id>) returns (n: Id)
    ensures forall x | x in used :: x < n
    decreases |used|
  {
    n := 0;
    if used != {} {
      var x :| x in used;
      var m := NewId(used - {x});
      n := if m > x then m else x + 1;
      forall y | y in used ensures y < n { assert y == x || y in used - {x}; }
    }
  }

  /** A place's next step, the drawn ids being new. */
  lemma NextPlace(tab: Tables, pr: Proc) returns (act: PlaceAct)
    requires HoldOk(tab, pr) && BillOk(tab, pr) && DrawOk(tab, pr)
    requires pr.at.PlaceLocked? || AfterStore(pr.at) || AfterMint(pr.at)
    ensures PlaceReady(tab, pr, act) && !act.LockCart? && (act.InsertMap? <==> pr.at.PlaceMissed?)
  {
    if pr.at.PlaceGated? {
      var numbers := set o | o in tab.orders :: tab.orders[o].number;
      var checkout := NewId(numbers);
      assert forall o | o in tab.orders :: tab.orders[o].number in numbers;
      var order := NewId(tab.orders.Keys);
      act := Mint(checkout, order, 0.0);
    } else if pr.at.PlaceTotalled? {
      var gateway := NewId(tab.gateways.Keys);
      act := Arm(gateway);
    } else {
      act := match pr.at
        case PlaceLocked(_) => ReadStore
        case PlaceStored(_) => ReadMap
        case PlaceMissed(_, _) => InsertMap(0)
        case PlaceBilled(_) => ReadLines
        case PlaceSnapped(_, _) => Price
        case PlacePriced(_, _, _) => ReadPolicy
        case PlacePolicied(_, _, _, _) => ReadStock
        case PlaceMinted(_) => ReadTotal
        case _ => Commit;
    }
  }

  lemma NextVerb(tab: Tables, pr: Proc) returns (act: VerbAct)
    requires HoldOk(tab, pr) && BillOk(tab, pr) && (pr.at.VerbLocked? || pr.at.VerbMissed? || pr.at.VerbBilled?)
    ensures VerbReady(pr, act) && !act.Lock? && (act.Insert? <==> pr.at.VerbMissed?)
  {
    act := if pr.at.VerbLocked? then (if pr.at.verb.CaptureBilling? then LookUp else Write(true))
           else if pr.at.VerbMissed? then Insert(0) else WriteBilling;
  }

  /** Inside a critical section only the insert of a missed key may have to wait. */
  lemma CriticalSteps(s: State, p: Id)
    requires ProcsOk(s.tab, s.procs) && p in s.procs && Critical(s.procs[p].at)
    requires s.procs[p].at.PlaceMissed? || s.procs[p].at.VerbMissed? ==> KeyFree(s, s.procs[p].at.key)
    ensures CanStep(s, p)
  {
    var pr := s.procs[p];
    assert HoldOk(s.tab, pr) && BillOk(s.tab, pr) && DrawOk(s.tab, pr) by { assert ProcOk(s.tab, pr); }
    if pr.at.VerbLocked? || pr.at.VerbMissed? || pr.at.VerbBilled? {
      var act := NextVerb(s.tab, pr);
      assert Enabled(s, VerbStep(p, act)) && Advances(VerbStep(p, act), p);
    } else {
      var act := NextPlace(s.tab, pr);
      assert Enabled(s, PlaceStep(p, act)) && Advances(PlaceStep(p, act), p);
    }
  }

  /** Outside, only a statement that needs an unheld row lock may have to wait. */
  lemma UnlockedSteps(s: State, p: Id)
    requires SessionsAgree(s.tab) && ProcsOk(s.tab, s.procs)
    requires p in s.procs && Active(s.procs[p].at) && !Critical(s.procs[p].at)
    requires NeedsLock(s.procs[p].at).Some? ==> Unlocked(s, NeedsLock(s.procs[p].at).value)
    ensures CanStep(s, p)
  {
    var pr := s.procs[p];
    assert PointOk(s.tab, pr.at) by { assert ProcOk(s.tab, pr); }
    if pr.at.CancelStamped? { assert SessionAgrees(s.tab, pr.at.target); }
    var step := NextOutside(pr.at, p);
    assert Enabled(s, step) && Advances(step, p);
  }

  function NextOutside(at: Point, p: Id): Step
    requires Active(at) && !Critical(at)
  {
    if at.CreateInserted? then CartStep(p, ReadCreated)
    else if at.CouponRead? then CartStep(p, CouponWrite)
    else if at.AdoptRead? then CartStep(p, AdoptCheck)
    else if at.AdoptChecked? then CartStep(p, AdoptWrite)
    else if at.RecoverRead? then CartStep(p, RecoverCheck)
    else if at.RecoverChecked? then CartStep(p, RecoverWrite)
    else if at.SettleRead? then SettleStep(p, ConfirmPaid)
    else if at.SettleConfirmed? then SettleStep(p, StampPaid)
    else if at.PickupRead? then SettleStep(p, ConfirmPickup)
    else if at.PickupConfirmed? then SettleStep(p, StampPickup)
    else if at.CancelRead? then CancelStep(p, CancelSelling)
    else if at.CancelVoided? then CancelStep(p, StampCancelled)
    else CancelStep(p, CancelCart)
  }

  // ── waits ─────────────────────────────────────────────────────────────────

  /** An active process either has a step it can take, or waits for a process by name. */
  lemma StepsOrAwaits(s: State, p: Id) returns (q: Id)
    requires SessionsAgree(s.tab) && ProcsOk(s.tab, s.procs) && p in s.procs && Active(s.procs[p].at)
    ensures CanStep(s, p) || Awaits(s, p, q)
  {
    var at := s.procs[p].at;
    q := p;
    if Critical(at) {
      if (at.PlaceMissed? || at.VerbMissed?) && !KeyFree(s, at.key) {
        q := KeyHolder(s, at.key);
      } else {
        CriticalSteps(s, p);
      }
    } else if NeedsLock(at).Some? && NeedsLock(at).value in s.locks {
      q := s.locks[NeedsLock(at).value];
    } else {
      UnlockedSteps(s, p);
    }
  }

  lemma KeyHolder(s: State, key: Key) returns (q: Id)
    requires !KeyFree(s, key)
    ensures q in s.procs && Uncommitted(s.procs[q]) == Some(key)
  {
    q :| q in s.procs && Uncommitted(s.procs[q]) == Some(key);
  }

  /** A key's holder is past its billing: it waits for nothing. */
  lemma KeyHolderRuns(s: State, p: Id, q: Id)
    requires ProcsOk(s.tab, s.procs) && AwaitsKey(s, p, q)
    ensures q != p && AfterBilling(s.procs[q].at)
    ensures forall r :: !Awaits(s, q, r)
  {
    assert ProcOk(s.tab, s.procs[p]) && BillOk(s.tab, s.procs[p]);
    assert ProcOk(s.tab, s.procs[q]) && BillOk(s.tab, s.procs[q]);
  }

  /** A lock's holder is inside its critical section: it waits at most for a key. */
  lemma LockHolderMayAwaitKey(s: State, p: Id, q: Id)
    requires ProcsOk(s.tab, s.procs) && LocksHeld(s.locks, s.procs) && AwaitsLock(s, p, q)
    ensures q != p && q in s.procs && Critical(s.procs[q].at)
    ensures forall r :: !AwaitsLock(s, q, r)
  {
    assert ProcOk(s.tab, s.procs[p]) && HoldOk(s.tab, s.procs[p]);
    assert ProcOk(s.tab, s.procs[q]) && HoldOk(s.tab, s.procs[q]);
  }

  /** No wait closes a circle: whoever is waited for is another, unfinished process,
      and two waits in a row are a lock's and then a key's, whose holder waits no more. */
  lemma WaitsAreShort(s: State, p: Id, q: Id)
    requires Inv(s) && Awaits(s, p, q)
    ensures q != p && q in s.procs && Critical(s.procs[q].at)
    ensures forall r | Awaits(s, q, r) :: AwaitsLock(s, p, q) && AwaitsKey(s, q, r) && r != p
                                          && forall t :: !Awaits(s, r, t)
  {
    if AwaitsKey(s, p, q) { KeyHolderRuns(s, p, q); } else { LockHolderMayAwaitKey(s, p, q); }
    forall r | Awaits(s, q, r) ensures AwaitsLock(s, p, q) && AwaitsKey(s, q, r) && r != p
                                       && forall t :: !Awaits(s, r, t)
    {
      KeyHolderRuns(s, q, r);
    }
  }

  /** A process inside its critical section that has a step to take. */
  ghost predicate GoesOn(s: State, q: Id) {
    q in s.procs && Critical(s.procs[q].at) && CanStep(s, q)
  }

  /** A process that cannot step waits for one inside its critical section. */
  lemma NextWait(s: State, p: Id) returns (q: Id)
    requires Inv(s) && p in s.procs && Active(s.procs[p].at)
    ensures CanStep(s, p) || (Awaits(s, p, q) && q in s.procs && Critical(s.procs[q].at))
  {
    q := StepsOrAwaits(s, p);
    if Awaits(s, p, q) { WaitsAreShort(s, p, q); }
  }

  /** Two waits in a row end at a process that can step. */
  lemma SecondWaitSteps(s: State, p: Id, q: Id, r: Id)
    requires Inv(s) && Awaits(s, p, q) && Awaits(s, q, r)
    ensures GoesOn(s, r)
  {
    WaitsAreShort(s, p, q);
    WaitsAreShort(s, q, r);
    var t := StepsOrAwaits(s, r);
  }

  /** A process waited for has a step to take, or waits for one that has. */
  lemma AwaitedEnds(s: State, p: Id, q: Id) returns (r: Id)
    requires Inv(s) && Awaits(s, p, q) && q in s.procs && Critical(s.procs[q].at)
    ensures GoesOn(s, q) || (Awaits(s, q, r) && GoesOn(s, r))
  {
    r := NextWait(s, q);
    if !CanStep(s, q) { SecondWaitSteps(s, p, q, r); }
  }

  lemma WaitsEnd(s: State, p: Id) returns (q: Id, r: Id)
    requires Inv(s) && p in s.procs && Active(s.procs[p].at)
    ensures CanStep(s, p) || (Awaits(s, p, q) && (GoesOn(s, q) || (Awaits(s, q, r) && GoesOn(s, r))))
  {
    q := NextWait(s, p);
    r := q;
    if !CanStep(s, p) { r := AwaitedEnds(s, p, q); }
  }

  /** No deadlock: in every reachable state every started, unfinished process has a
      step to take other than a crash, or waits for one inside its critical section
      that has, or for one that waits for such a one. */
  lemma NoDeadlock(states: seq<State>, steps: seq<Step>, i: nat, p: Id) returns (q: Id, r: Id)
    requires IsRun(states, steps) && i < |states|
    requires p in states[i].procs && Active(states[i].procs[p].at)
    ensures var s := states[i];
      CanStep(s, p) || (Awaits(s, p, q) && (GoesOn(s, q) || (Awaits(s, q, r) && GoesOn(s, r))))
  {
    ReachableInv(states, steps, i);
    q, r := WaitsEnd(states[i], p);
  }
}
