/** Every step keeps the invariant: each family shows its effects are lawful. */
module CheckoutStepProofs {
  import opened StorefrontTypes
  import opened CheckoutState
  import opened CheckoutSteps
  import opened CheckoutInvariants
  import opened CheckoutFrames
  import opened CheckoutTableProofs

  // ── steps that write no table ─────────────────────────────────────────────

  /** A step that writes no table owes only its own record: it may keep or drop what
      it holds, take a free key, or take an unlocked cart. */
  lemma QuietIsLawful(s: State, p: Id, pr: Proc)
    requires Inv(s) && ProcOk(s.tab, pr)
    requires pr.draw == None || pr.draw == ProcOf(s, p).draw
    requires Uncommitted(pr) == None || Uncommitted(pr) == Uncommitted(ProcOf(s, p))
             || KeyFree(s, Uncommitted(pr).value)
    requires pr.hold == None || pr.hold == ProcOf(s, p).hold || Unlocked(s, pr.hold.value.cart)
    ensures Lawful(s, p, Effect(s.tab, pr))
  {
    forall q | q in s.procs && q != p ensures Apart(s.procs[q], pr) {
      if p in s.procs { assert Apart(s.procs[q], s.procs[p]); }
    }
  }

  lemma FinishIsLawful(s: State, p: Id, outcome: Outcome)
    requires Inv(s) && OutcomeOk(s.tab, outcome)
    ensures Lawful(s, p, Finish(s.tab, outcome))
  {
    QuietIsLawful(s, p, Idle(Done(outcome)));
  }

  /** A process that holds nothing afterwards owes orderly tables, its own point and
      the bystanders. */
  lemma WritesLawfully(s: State, p: Id, u: Tables, at: Point)
    requires TablesOk(u) && Grown(s.tab, u) && PointOk(u, at) && !Critical(at)
    requires LeavesOthers(s.tab, u, s.procs, p)
    ensures Lawful(s, p, Effect(u, Idle(at)))
  {}

  lemma WrittenLawfully(s: State, p: Id, u: Tables, outcome: Outcome)
    requires TablesOk(u) && Grown(s.tab, u) && OutcomeOk(u, outcome) && LeavesOthers(s.tab, u, s.procs, p)
    ensures Lawful(s, p, Finish(u, outcome))
  {
    WritesLawfully(s, p, u, Done(outcome));
  }

  lemma OwnRecord(s: State, p: Id)
    requires Inv(s)
    ensures ProcOk(s.tab, ProcOf(s, p))
  {}

  // ── place ─────────────────────────────────────────────────────────────────

  predicate WritesNothing(act: PlaceAct) {
    !act.Mint? && !act.Arm? && !act.Commit?
  }

  /** What a reading act may do to its process's record. */
  ghost predicate ReadsOnly(tab: Tables, pr: Proc, act: PlaceAct, e: Effect) {
    && e.tab == tab && ProcOk(tab, e.proc)
    && (e.proc.draw == None || e.proc.draw == pr.draw)
    && (e.proc.hold == None || e.proc.hold == pr.hold || (act.LockCart? && e.proc.hold.value.cart == act.cart))
    && (Uncommitted(e.proc) == None || Uncommitted(e.proc) == Uncommitted(pr)
        || (act.InsertMap? && pr.at.PlaceMissed? && Uncommitted(e.proc) == Some(pr.at.key)))
  }

  lemma PlaceLocks(around: Surroundings, tab: Tables, pr: Proc, act: PlaceAct)
    requires ProcOk(tab, pr) && PlaceReady(tab, pr, act) && act.LockCart?
    ensures ReadsOnly(tab, pr, act, PlaceEffect(around, tab, pr, act))
  {}

  lemma PlaceResolves(around: Surroundings, tab: Tables, pr: Proc, act: PlaceAct)
    requires ProcOk(tab, pr) && PlaceReady(tab, pr, act) && act.ReadMap?
    ensures ReadsOnly(tab, pr, act, PlaceEffect(around, tab, pr, act))
  {}

  lemma PlaceOpens(around: Surroundings, tab: Tables, pr: Proc, act: PlaceAct)
    requires ProcOk(tab, pr) && PlaceReady(tab, pr, act) && act.ReadStore?
    ensures ReadsOnly(tab, pr, act, PlaceEffect(around, tab, pr, act))
  {}

  lemma PlaceBills(around: Surroundings, tab: Tables, pr: Proc, act: PlaceAct)
    requires ProcOk(tab, pr) && PlaceReady(tab, pr, act) && act.InsertMap?
    ensures ReadsOnly(tab, pr, act, PlaceEffect(around, tab, pr, act))
  {}

  lemma PlacePrepares(around: Surroundings, tab: Tables, pr: Proc, act: PlaceAct)
    requires ProcOk(tab, pr) && PlaceReady(tab, pr, act) && (act.ReadLines? || act.Price?)
    ensures ReadsOnly(tab, pr, act, PlaceEffect(around, tab, pr, act))
  {}

  lemma PlaceTotals(around: Surroundings, tab: Tables, pr: Proc, act: PlaceAct)
    requires ProcOk(tab, pr) && PlaceReady(tab, pr, act) && act.ReadTotal?
    ensures ReadsOnly(tab, pr, act, PlaceEffect(around, tab, pr, act))
  {}

  lemma PlaceGates(around: Surroundings, tab: Tables, pr: Proc, act: PlaceAct)
    requires ProcOk(tab, pr) && PlaceReady(tab, pr, act) && (act.ReadPolicy? || act.ReadStock?)
    ensures ReadsOnly(tab, pr, act, PlaceEffect(around, tab, pr, act))
  {}

  lemma PlaceReadIsLawful(s: State, p: Id, act: PlaceAct)
    requires Inv(s) && Enabled(s, PlaceStep(p, act)) && WritesNothing(act)
    ensures Lawful(s, p, PlaceEffect(s.around, s.tab, ProcOf(s, p), act))
  {
    OwnRecord(s, p);
    var pr := ProcOf(s, p);
    if act.LockCart? { PlaceLocks(s.around, s.tab, pr, act); }
    else if act.ReadMap? { PlaceResolves(s.around, s.tab, pr, act); }
    else if act.ReadStore? { PlaceOpens(s.around, s.tab, pr, act); }
    else if act.ReadPolicy? || act.ReadStock? { PlaceGates(s.around, s.tab, pr, act); }
    else if act.InsertMap? { PlaceBills(s.around, s.tab, pr, act); }
    else if act.ReadTotal? { PlaceTotals(s.around, s.tab, pr, act); }
    else { PlacePrepares(s.around, s.tab, pr, act); }
    QuietIsLawful(s, p, PlaceEffect(s.around, s.tab, pr, act).proc);
  }

  lemma MintRecord(tab: Tables, pr: Proc, act: PlaceAct)
    requires TablesOk(tab) && ProcOk(tab, pr) && act.Mint? && PlaceReady(tab, pr, act)
    ensures var e := PlaceMint(tab, pr, act.checkout, act.order, act.total);
      TablesOk(e.tab) && Grown(tab, e.tab) && ProcOk(e.tab, e.proc)
  {
    var e := PlaceMint(tab, pr, act.checkout, act.order, act.total);
    AddOrderKeeps(tab, act.order, e.tab.orders[act.order]);
    forall x | x in tab.sessions ensures x != act.checkout { assert SessionAgrees(tab, x); }
  }

  lemma MintLeavesOthers(s: State, p: Id, act: PlaceAct)
    requires ProcsOk(s.tab, s.procs) && AllApart(s.procs) && act.Mint? && PlaceReady(s.tab, ProcOf(s, p), act)
    ensures Undisturbed(s.tab, s.procs, p, PlaceMint(s.tab, ProcOf(s, p), act.checkout, act.order, act.total))
  {
    var e := PlaceMint(s.tab, ProcOf(s, p), act.checkout, act.order, act.total);
    assert Uncommitted(e.proc) == Uncommitted(s.procs[p]);
    forall q | q in s.procs && q != p ensures Steady(s.tab, e.tab, s.procs[q]) && Apart(s.procs[q], e.proc) {
      assert DrawOk(s.tab, s.procs[q]);
      assert Apart(s.procs[q], s.procs[p]);
    }
  }

  lemma MintIsLawful(s: State, p: Id, act: PlaceAct)
    requires TablesOk(s.tab) && ProcsOk(s.tab, s.procs) && AllApart(s.procs)
    requires act.Mint? && PlaceReady(s.tab, ProcOf(s, p), act)
    ensures Lawful(s, p, PlaceMint(s.tab, ProcOf(s, p), act.checkout, act.order, act.total))
  {
    MintRecord(s.tab, ProcOf(s, p), act);
    MintLeavesOthers(s, p, act);
    LawfulIntro(s, p, PlaceMint(s.tab, ProcOf(s, p), act.checkout, act.order, act.total));
  }

  /** A drafted order is its own place's: no other process drew its number. */
  lemma OthersDrewElsewhere(s: State, p: Id, q: Id)
    requires ProcsOk(s.tab, s.procs) && AllApart(s.procs) && p in s.procs && q in s.procs && p != q
    requires s.procs[p].draw.Some? && s.procs[q].draw.Some?
    ensures s.procs[p].draw.value.order != s.procs[q].draw.value.order
  {
    assert ProcOk(s.tab, s.procs[p]) && ProcOk(s.tab, s.procs[q]);
    assert Apart(s.procs[p], s.procs[q]);
  }

  lemma FreeArmConfirms(s: State, p: Id)
    requires TablesOk(s.tab) && ProcsOk(s.tab, s.procs) && AllApart(s.procs)
    requires p in s.procs && s.procs[p].draw.Some? && s.procs[p].at.PlaceTotalled?
    ensures var d := s.procs[p].draw.value; var t := ConfirmOrder(s.tab, d.order, ByFreePlace(d.checkout));
      TablesOk(t) && Grown(s.tab, t)
      && LeavesOthers(s.tab, t, s.procs, p)
  {
    assert ProcOk(s.tab, s.procs[p]);
    var d := s.procs[p].draw.value;
    var t := ConfirmOrder(s.tab, d.order, ByFreePlace(d.checkout));
    ConfirmKeeps(s.tab, d.order, ByFreePlace(d.checkout));
    forall q | q in s.procs && q != p ensures Steady(s.tab, t, s.procs[q]) {
      if s.procs[q].draw.Some? { OthersDrewElsewhere(s, p, q); }
    }
  }

  lemma ArmIsLawful(s: State, p: Id, gateway: Id)
    requires Inv(s) && PlaceReady(s.tab, ProcOf(s, p), Arm(gateway))
    ensures Lawful(s, p, PlaceArm(s.tab, ProcOf(s, p), gateway))
  {
    OwnRecord(s, p);
    if ProcOf(s, p).at.call.lane == OnSite {
      OnSiteRecord(s.tab, ProcOf(s, p), gateway);
      QuietIsLawful(s, p, PlaceArm(s.tab, ProcOf(s, p), gateway).proc);
    } else if ProcOf(s, p).at.amount == 0.0 {
      FreeArmIsLawful(s, p, gateway);
    } else {
      PaidArmIsLawful(s, p, gateway);
    }
  }

  lemma OnSiteRecord(tab: Tables, pr: Proc, gateway: Id)
    requires ProcOk(tab, pr) && PlaceReady(tab, pr, Arm(gateway)) && pr.at.call.lane == OnSite
    ensures var e := PlaceArm(tab, pr, gateway);
      e.tab == tab && ProcOk(tab, e.proc) && e.proc == pr.(at := e.proc.at)
  {}

  lemma FreeArmIsLawful(s: State, p: Id, gateway: Id)
    requires TablesOk(s.tab) && ProcsOk(s.tab, s.procs) && AllApart(s.procs)
    requires p in s.procs && PlaceReady(s.tab, s.procs[p], Arm(gateway))
    requires s.procs[p].at.call.lane == Online && s.procs[p].at.amount == 0.0
    ensures Lawful(s, p, PlaceArm(s.tab, s.procs[p], gateway))
  {
    assert ProcOk(s.tab, s.procs[p]);
    FreeArmConfirms(s, p);
    FreeArmRecord(s.tab, s.procs[p], gateway);
    BystandersApart(s, p, PlaceArm(s.tab, s.procs[p], gateway).proc);
    LawfulIntro(s, p, PlaceArm(s.tab, s.procs[p], gateway));
  }

  lemma PaidArmTables(tab: Tables, pr: Proc, gateway: Id)
    requires TablesOk(tab) && PlaceReady(tab, pr, Arm(gateway))
    requires pr.at.call.lane == Online && pr.at.amount != 0.0
    ensures var e := PlaceArm(tab, pr, gateway);
      TablesOk(e.tab) && Grown(tab, e.tab) && e.proc == pr.(at := e.proc.at)
      && forall other: Proc :: Steady(tab, e.tab, other)
  {
    AddGatewayKeeps(tab, gateway, PlaceArm(tab, pr, gateway).tab.gateways[gateway]);
  }

  lemma PaidArmIsLawful(s: State, p: Id, gateway: Id)
    requires TablesOk(s.tab) && ProcOk(s.tab, ProcOf(s, p)) && AllApart(s.procs)
    requires PlaceReady(s.tab, ProcOf(s, p), Arm(gateway))
    requires ProcOf(s, p).at.call.lane == Online && ProcOf(s, p).at.amount != 0.0
    ensures Lawful(s, p, PlaceArm(s.tab, ProcOf(s, p), gateway))
  {
    PaidArmTables(s.tab, ProcOf(s, p), gateway);
    PaidArmRecord(s.tab, ProcOf(s, p), gateway);
    BystandersApart(s, p, PlaceArm(s.tab, ProcOf(s, p), gateway).proc);
    LawfulIntro(s, p, PlaceArm(s.tab, ProcOf(s, p), gateway));
  }

  lemma FreeArmRecord(tab: Tables, pr: Proc, gateway: Id)
    requires ProcOk(tab, pr) && PlaceReady(tab, pr, Arm(gateway)) && pr.at.call.lane == Online && pr.at.amount == 0.0
    ensures ProcOk(PlaceArm(tab, pr, gateway).tab, PlaceArm(tab, pr, gateway).proc)
  {}

  lemma PaidArmRecord(tab: Tables, pr: Proc, gateway: Id)
    requires ProcOk(tab, pr) && PlaceReady(tab, pr, Arm(gateway)) && pr.at.call.lane == Online && pr.at.amount != 0.0
    ensures ProcOk(PlaceArm(tab, pr, gateway).tab, PlaceArm(tab, pr, gateway).proc)
  {}

  /** A process that keeps its draw and key stays apart from the others. */
  lemma BystandersApart(s: State, p: Id, pr: Proc)
    requires AllApart(s.procs) && p in s.procs
    requires pr.draw == None || pr.draw == s.procs[p].draw
    requires Uncommitted(pr) == None || Uncommitted(pr) == Uncommitted(s.procs[p])
    ensures forall q | q in s.procs && q != p :: Apart(s.procs[q], pr)
  {
    forall q | q in s.procs && q != p ensures Apart(s.procs[q], pr) {
      assert Apart(s.procs[q], s.procs[p]);
    }
  }

  // ── the place commit ──────────────────────────────────────────────────────

  function CommittedSession(pr: Proc): Session
    requires pr.hold.Some? && pr.bill.Some? && pr.draw.Some? && pr.at.PlaceArmed?
  {
    Session(pr.hold.value.cart, pr.hold.value.row.website, Some(pr.draw.value.order), pr.at.gateway,
            pr.at.amount, pr.at.birth, PickupPin(pr.hold.value.row))
  }

  lemma CommittedSessionAgrees(tab: Tables, pr: Proc)
    requires TablesOk(tab) && ProcOk(tab, pr)
    requires pr.hold.Some? && pr.bill.Some? && pr.draw.Some? && pr.at.PlaceArmed? && pr.at.amount >= 0.0
    ensures var k := pr.draw.value.checkout; var row := PlacedRow(pr.hold.value.row, pr.bill.value);
      SessionAgrees(RecordSession(tab, k, CommittedSession(pr), row), k)
      && BirthAgrees(pr.at.birth, CommittedSession(pr))
      && (row.mode == Pickup <==> row.pin.Some?)
  {}

  lemma CommitKeepsTables(tab: Tables, pr: Proc)
    requires TablesOk(tab) && ProcOk(tab, pr) && PlaceReady(tab, pr, Commit)
    ensures TablesOk(PlaceCommit(tab, pr).tab) && Grown(tab, PlaceCommit(tab, pr).tab)
  {
    if pr.at.amount >= 0.0 {
      var k := pr.draw.value.checkout;
      var row := PlacedRow(pr.hold.value.row, pr.bill.value);
      CommittedSessionAgrees(tab, pr);
      RecordKeeps(tab, k, CommittedSession(pr), row);
      var u := RecordSession(tab, k, CommittedSession(pr), row);
      CommitBillingKeeps(u, pr.bill.value);
      GrownTransitive(tab, u, CommitBilling(u, pr.bill.value));
    }
  }

  lemma CommitOutcome(tab: Tables, pr: Proc)
    requires ProcOk(tab, pr) && PlaceReady(tab, pr, Commit)
    ensures ProcOk(PlaceCommit(tab, pr).tab, PlaceCommit(tab, pr).proc)
  {}

  /** The commit writes one session, one cart and at most one map row: all its own. */
  lemma CommitSteady(tab: Tables, pr: Proc, other: Proc)
    requires PlaceReady(tab, pr, Commit) && Apart(pr, other)
    requires other.hold.Some? ==> other.hold.value.cart != pr.hold.value.cart
    ensures Steady(tab, PlaceCommit(tab, pr).tab, other)
  {}

  lemma CommitLeavesOthers(s: State, p: Id)
    requires LocksHeld(s.locks, s.procs) && AllApart(s.procs)
    requires p in s.procs && PlaceReady(s.tab, s.procs[p], Commit)
    ensures Undisturbed(s.tab, s.procs, p, PlaceCommit(s.tab, s.procs[p]))
  {
    forall q | q in s.procs && q != p ensures Steady(s.tab, PlaceCommit(s.tab, s.procs[p]).tab, s.procs[q]) {
      LocksExclude(s, p, q);
      assert Apart(s.procs[p], s.procs[q]);
      CommitSteady(s.tab, s.procs[p], s.procs[q]);
    }
  }

  lemma CommitIsLawful(s: State, p: Id)
    requires TablesOk(s.tab) && LocksHeld(s.locks, s.procs) && AllApart(s.procs)
    requires ProcOk(s.tab, ProcOf(s, p)) && PlaceReady(s.tab, ProcOf(s, p), Commit)
    ensures Lawful(s, p, PlaceCommit(s.tab, ProcOf(s, p)))
  {
    CommitKeepsTables(s.tab, ProcOf(s, p));
    CommitOutcome(s.tab, ProcOf(s, p));
    CommitLeavesOthers(s, p);
    LawfulIntro(s, p, PlaceCommit(s.tab, ProcOf(s, p)));
  }

  /** Two processes never hold the same cart. */
  lemma LocksExclude(s: State, p: Id, q: Id)
    requires LocksHeld(s.locks, s.procs) && p in s.procs && q in s.procs && p != q
    requires s.procs[p].hold.Some?
    ensures s.procs[q].hold.Some? ==> s.procs[q].hold.value.cart != s.procs[p].hold.value.cart
  {}

  lemma PlaceIsLawful(s: State, p: Id, act: PlaceAct)
    requires Inv(s) && Enabled(s, PlaceStep(p, act))
    ensures Lawful(s, p, PlaceEffect(s.around, s.tab, ProcOf(s, p), act))
  {
    if act.Mint? { MintIsLawful(s, p, act); }
    else if act.Arm? { ArmIsLawful(s, p, act.gateway); }
    else if act.Commit? { CommitIsLawful(s, p); }
    else { PlaceReadIsLawful(s, p, act); }
  }

  // ── the other locked verbs ────────────────────────────────────────────────

  predicate VerbWrites(act: VerbAct) {
    act.Write? || act.WriteBilling?
  }

  lemma VerbReads(around: Surroundings, tab: Tables, pr: Proc, act: VerbAct)
    requires ProcOk(tab, pr) && VerbReady(pr, act) && !VerbWrites(act)
    ensures var e := VerbEffect(around, tab, pr, act);
      && e.tab == tab && ProcOk(tab, e.proc)
      && (e.proc.draw == None || e.proc.draw == pr.draw)
      && (e.proc.hold == None || e.proc.hold == pr.hold || (act.Lock? && e.proc.hold.value.cart == act.cart))
      && (Uncommitted(e.proc) == None || Uncommitted(e.proc) == Uncommitted(pr)
          || (act.Insert? && Uncommitted(e.proc) == Some(pr.at.key)))
  {}

  lemma VerbTables(around: Surroundings, tab: Tables, pr: Proc, owned: bool)
    requires TablesOk(tab) && HoldOk(tab, pr) && VerbReady(pr, Write(owned))
    ensures var e := VerbEffect(around, tab, pr, Write(owned)); TablesOk(e.tab) && Grown(tab, e.tab)
  {
    SameVisitorIsFree(tab.carts, pr.hold.value.cart);
    PutOpenCartKeeps(tab, pr.hold.value.cart, WrittenRow(pr.hold.value.row, pr.at.verb));
  }

  lemma BillingTables(tab: Tables, c: Id, row: Cart, bill: Billing)
    requires TablesOk(tab) && c in tab.carts && tab.carts[c] == row && row.state == Open
    requires bill.inserts && bill.key.Some? ==> bill.key.value !in tab.parties
    ensures var u := CommitBilling(PutCart(tab, c, row.(party := Some(bill.party))), bill);
      TablesOk(u) && Grown(tab, u) && (bill.key.Some? && !bill.inserts ==> u.parties == tab.parties)
  {
    SameVisitorIsFree(tab.carts, c);
    var u := PutCart(tab, c, row.(party := Some(bill.party)));
    PutOpenCartKeeps(tab, c, row.(party := Some(bill.party)));
    CommitBillingKeeps(u, bill);
    GrownTransitive(tab, u, CommitBilling(u, bill));
  }

  lemma BillingOutcome(around: Surroundings, tab: Tables, pr: Proc)
    requires BillOk(tab, pr) && VerbReady(pr, WriteBilling)
    ensures var e := VerbEffect(around, tab, pr, WriteBilling);
      e.proc == Idle(e.proc.at) && PointOk(e.tab, e.proc.at) && !Critical(e.proc.at)
  {}

  lemma WriteSteady(around: Surroundings, tab: Tables, pr: Proc, owned: bool, other: Proc)
    requires VerbReady(pr, Write(owned))
    requires other.hold.Some? ==> other.hold.value.cart != pr.hold.value.cart
    ensures Steady(tab, VerbEffect(around, tab, pr, Write(owned)).tab, other)
  {}

  lemma BillingSteady(around: Surroundings, tab: Tables, pr: Proc, other: Proc)
    requires VerbReady(pr, WriteBilling) && Apart(pr, other)
    requires other.hold.Some? ==> other.hold.value.cart != pr.hold.value.cart
    ensures Steady(tab, VerbEffect(around, tab, pr, WriteBilling).tab, other)
  {}

  lemma VerbSteady(around: Surroundings, tab: Tables, pr: Proc, act: VerbAct, other: Proc)
    requires VerbReady(pr, act) && VerbWrites(act) && Apart(pr, other)
    requires other.hold.Some? ==> other.hold.value.cart != pr.hold.value.cart
    ensures Steady(tab, VerbEffect(around, tab, pr, act).tab, other)
  {
    if act.Write? { WriteSteady(around, tab, pr, act.owned, other); } else { BillingSteady(around, tab, pr, other); }
  }

  lemma VerbLeavesOthers(s: State, p: Id, act: VerbAct)
    requires LocksHeld(s.locks, s.procs) && AllApart(s.procs)
    requires p in s.procs && VerbReady(s.procs[p], act) && VerbWrites(act)
    ensures LeavesOthers(s.tab, VerbEffect(s.around, s.tab, s.procs[p], act).tab, s.procs, p)
  {
    forall q | q in s.procs && q != p
      ensures Steady(s.tab, VerbEffect(s.around, s.tab, s.procs[p], act).tab, s.procs[q])
    {
      LocksExclude(s, p, q);
      assert Apart(s.procs[p], s.procs[q]);
      VerbSteady(s.around, s.tab, s.procs[p], act, s.procs[q]);
    }
  }

  lemma VerbWriteEnds(around: Surroundings, tab: Tables, pr: Proc, owned: bool)
    requires VerbReady(pr, Write(owned))
    ensures var e := VerbEffect(around, tab, pr, Write(owned));
      e.proc == Idle(e.proc.at) && PointOk(e.tab, e.proc.at) && !Critical(e.proc.at)
  {}

  lemma VerbWriteIsLawful(s: State, p: Id, owned: bool)
    requires TablesOk(s.tab) && LocksHeld(s.locks, s.procs) && AllApart(s.procs)
    requires p in s.procs && HoldOk(s.tab, s.procs[p]) && VerbReady(s.procs[p], Write(owned))
    ensures Lawful(s, p, VerbEffect(s.around, s.tab, s.procs[p], Write(owned)))
  {
    VerbLeavesOthers(s, p, Write(owned));
    VerbTables(s.around, s.tab, s.procs[p], owned);
    VerbWriteEnds(s.around, s.tab, s.procs[p], owned);
    var e := VerbEffect(s.around, s.tab, s.procs[p], Write(owned));
    WritesLawfully(s, p, e.tab, e.proc.at);
  }

  lemma BillingWriteIsLawful(s: State, p: Id)
    requires TablesOk(s.tab) && LocksHeld(s.locks, s.procs) && AllApart(s.procs)
    requires p in s.procs && HoldOk(s.tab, s.procs[p]) && BillOk(s.tab, s.procs[p])
    requires VerbReady(s.procs[p], WriteBilling)
    ensures Lawful(s, p, VerbEffect(s.around, s.tab, s.procs[p], WriteBilling))
  {
    var pr := s.procs[p];
    VerbLeavesOthers(s, p, WriteBilling);
    BillingTables(s.tab, pr.hold.value.cart, pr.hold.value.row, pr.bill.value);
    BillingOutcome(s.around, s.tab, pr);
    var e := VerbEffect(s.around, s.tab, pr, WriteBilling);
    WritesLawfully(s, p, e.tab, e.proc.at);
  }

  lemma VerbIsLawful(s: State, p: Id, act: VerbAct)
    requires Inv(s) && Enabled(s, VerbStep(p, act))
    ensures Lawful(s, p, VerbEffect(s.around, s.tab, ProcOf(s, p), act))
  {
    OwnRecord(s, p);
    if act.Write? {
      VerbWriteIsLawful(s, p, act.owned);
    } else if act.WriteBilling? {
      BillingWriteIsLawful(s, p);
    } else {
      VerbReads(s.around, s.tab, ProcOf(s, p), act);
      QuietIsLawful(s, p, VerbEffect(s.around, s.tab, ProcOf(s, p), act).proc);
    }
  }

  // ── unlocked cart verbs ───────────────────────────────────────────────────

  /** An unlocked verb's write to one unlocked open (or new) cart. */
  lemma PutUnlockedIsLawful(s: State, p: Id, c: Id, row: Cart, at: Point)
    requires Inv(s) && Unlocked(s, c) && PointOk(PutCart(s.tab, c, row), at) && !Critical(at)
    requires row.state == Open && (row.mode == Pickup <==> row.pin.Some?)
    requires c in s.tab.carts ==> s.tab.carts[c].state == Open && s.tab.carts[c].portalUser == row.portalUser
    requires !OtherOpenCart(s.tab.carts, row.visitor, c)
    ensures Lawful(s, p, Effect(PutCart(s.tab, c, row), Idle(at)))
  {
    PutOpenCartKeeps(s.tab, c, row);
    LawfulIntro(s, p, Effect(PutCart(s.tab, c, row), Idle(at)));
  }

  lemma RebindIsLawful(s: State, p: Id, cart: Id, visitor: Id, user: Option<Id>)
    requires Inv(s) && Unlocked(s, cart)
    requires user.Some? ==> Linked(s.tab, cart, user.value)
    ensures Lawful(s, p, Rebind(s.tab, cart, visitor, user))
  {
    if cart !in s.tab.carts || s.tab.carts[cart].state != Open {
      FinishIsLawful(s, p, Changed);
    } else if OtherOpenCart(s.tab.carts, visitor, cart) {
      FinishIsLawful(s, p, Refused(OpenCartExists));
    } else {
      var row := s.tab.carts[cart];
      PutUnlockedIsLawful(s, p, cart,
        row.(visitor := visitor, portalUser := if user.Some? then user else row.portalUser), Done(Changed));
    }
  }

  lemma IdleIsLawful(s: State, p: Id, at: Point)
    requires Inv(s) && PointOk(s.tab, at) && !Critical(at)
    ensures Lawful(s, p, Effect(s.tab, Idle(at)))
  {
    QuietIsLawful(s, p, Idle(at));
  }

  predicate CartWrites(act: CartAct) {
    act.Create? || act.CouponWrite? || act.AdoptWrite? || act.RecoverWrite?
  }

  lemma CartReads(tab: Tables, pr: Proc, act: CartAct)
    requires PointOk(tab, pr.at) && CartReady(tab, pr, act) && !CartWrites(act)
    ensures var e := CartEffect(tab, pr, act);
      e.tab == tab && e.proc == Idle(e.proc.at) && PointOk(tab, e.proc.at) && !Critical(e.proc.at)
  {}

  lemma CreateIsLawful(s: State, p: Id, pr: Proc, cart: Id, website: Id, visitor: Id)
    requires Inv(s) && pr.at.NotStarted? && cart !in s.tab.carts && Unlocked(s, cart)
    ensures Lawful(s, p, CartEffect(s.tab, pr, Create(cart, website, visitor)))
  {
    if HasOpenCart(s.tab.carts, visitor) {
      IdleIsLawful(s, p, CreateInserted(visitor));
    } else {
      PutUnlockedIsLawful(s, p, cart, Cart(website, visitor, None, None, Open, None, None, Delivery, None),
                          CreateInserted(visitor));
    }
  }

  lemma CouponIsLawful(s: State, p: Id, pr: Proc)
    requires Inv(s) && pr.at.CouponRead? && Unlocked(s, pr.at.cart)
    ensures Lawful(s, p, CartEffect(s.tab, pr, CouponWrite))
  {
    var cart := pr.at.cart;
    if cart in s.tab.carts && s.tab.carts[cart].state == Open {
      SameVisitorIsFree(s.tab.carts, cart);
      PutUnlockedIsLawful(s, p, cart, s.tab.carts[cart].(coupon := pr.at.code), Done(Changed));
    } else {
      FinishIsLawful(s, p, Changed);
    }
  }

  lemma CartReadIsLawful(s: State, p: Id, pr: Proc, act: CartAct)
    requires Inv(s) && PointOk(s.tab, pr.at) && CartReady(s.tab, pr, act) && !CartWrites(act)
    ensures Lawful(s, p, CartEffect(s.tab, pr, act))
  {
    CartReads(s.tab, pr, act);
    IdleIsLawful(s, p, CartEffect(s.tab, pr, act).proc.at);
  }

  lemma CartWriteIsLawful(s: State, p: Id, pr: Proc, act: CartAct)
    requires Inv(s) && PointOk(s.tab, pr.at) && CartReady(s.tab, pr, act) && CartFree(s, pr, act) && CartWrites(act)
    ensures Lawful(s, p, CartEffect(s.tab, pr, act))
  {
    if act.Create? { CreateIsLawful(s, p, pr, act.cart, act.website, act.visitor); }
    else if act.CouponWrite? { CouponIsLawful(s, p, pr); }
    else if act.AdoptWrite? { RebindIsLawful(s, p, pr.at.cart, pr.at.visitor, Some(pr.at.user)); }
    else { RebindIsLawful(s, p, pr.at.cart, pr.at.visitor, None); }
  }

  lemma CartIsLawful(s: State, p: Id, act: CartAct)
    requires Inv(s) && Enabled(s, CartStep(p, act))
    ensures Lawful(s, p, CartEffect(s.tab, ProcOf(s, p), act))
  {
    OwnRecord(s, p);
    if CartWrites(act) { CartWriteIsLawful(s, p, ProcOf(s, p), act); } else { CartReadIsLawful(s, p, ProcOf(s, p), act); }
  }

  // ── settlement and pickup confirm ─────────────────────────────────────────

  lemma DraftsAreUnrecorded(tab: Tables, pr: Proc, x: Id)
    requires DrawOk(tab, pr) && x in tab.sessions && SessionAgrees(tab, x)
    ensures pr.draw.Some? ==> Some(pr.draw.value.order) != tab.sessions[x].order
  {}

  /** Changing the status of a recorded session's order cannot touch a draft in flight. */
  lemma StatusLeavesOthers(s: State, p: Id, x: Id, u: Tables)
    requires ProcsOk(s.tab, s.procs) && x in s.tab.sessions && SessionAgrees(s.tab, x)
    requires u.carts == s.tab.carts && u.sessions == s.tab.sessions && u.parties == s.tab.parties
    requires forall o | o in s.tab.orders && Some(o) != s.tab.sessions[x].order ::
      o in u.orders && u.orders[o] == s.tab.orders[o]
    ensures LeavesOthers(s.tab, u, s.procs, p)
  {
    forall q | q in s.procs && q != p ensures Steady(s.tab, u, s.procs[q]) {
      assert DrawOk(s.tab, s.procs[q]);
      DraftsAreUnrecorded(s.tab, s.procs[q], x);
    }
  }

  lemma ConfirmRecordedTables(tab: Tables, x: Id, o: Id, who: Confirmer, at: Point)
    requires TablesOk(tab) && x in tab.sessions && tab.sessions[x].order == Some(o)
    requires who.BySettlement? ==>
      SettlesOwn(tab, who.gateway, x, o) && tab.gateways[who.gateway].reference == x
    requires who.ByPickupOfficer? ==> who.target == x && PicksOwn(tab, x, o)
    requires !who.ByFreePlace? && PointOk(tab, at)
    ensures var u := ConfirmOrder(tab, o, who); TablesOk(u) && Grown(tab, u) && PointOk(u, at)
  {
    ConfirmKeeps(tab, o, who);
    PointSteady(tab, ConfirmOrder(tab, o, who), at);
  }

  lemma ConfirmLeavesOthers(s: State, p: Id, x: Id, o: Id, who: Confirmer)
    requires SessionsAgree(s.tab) && ProcsOk(s.tab, s.procs)
    requires x in s.tab.sessions && s.tab.sessions[x].order == Some(o)
    ensures LeavesOthers(s.tab, ConfirmOrder(s.tab, o, who), s.procs, p)
  {
    assert SessionAgrees(s.tab, x);
    StatusLeavesOthers(s, p, x, ConfirmOrder(s.tab, o, who));
  }

  lemma ConfirmRecordedIsLawful(s: State, p: Id, x: Id, o: Id, who: Confirmer, at: Point)
    requires TablesOk(s.tab) && ProcsOk(s.tab, s.procs)
    requires x in s.tab.sessions && s.tab.sessions[x].order == Some(o)
    requires who.BySettlement? ==>
      SettlesOwn(s.tab, who.gateway, x, o) && s.tab.gateways[who.gateway].reference == x
    requires who.ByPickupOfficer? ==> who.target == x && PicksOwn(s.tab, x, o)
    requires !who.ByFreePlace? && PointOk(s.tab, at) && !Critical(at)
    ensures Lawful(s, p, Effect(ConfirmOrder(s.tab, o, who), Idle(at)))
  {
    ConfirmLeavesOthers(s, p, x, o, who);
    ConfirmRecordedTables(s.tab, x, o, who, at);
    WritesLawfully(s, p, ConfirmOrder(s.tab, o, who), at);
  }

  lemma StampTables(tab: Tables, x: Id, from: SessionState)
    requires TablesOk(tab) && x in tab.sessions && from == tab.births[x] && Pending(from)
    ensures TablesOk(StampFrom(tab, x, from)) && Grown(tab, StampFrom(tab, x, from))
    ensures OutcomeOk(StampFrom(tab, x, from), Stamped(x))
  {
    assert BirthAgrees(tab.births[x], tab.sessions[x]);
    if tab.sessions[x].state == from { StampKeeps(tab, x, Settled); }
  }

  lemma StampLeavesOthers(s: State, p: Id, u: Tables)
    requires u == s.tab.(sessions := u.sessions) && u.sessions.Keys == s.tab.sessions.Keys
    ensures LeavesOthers(s.tab, u, s.procs, p)
  {}

  lemma StampIsLawful(s: State, p: Id, x: Id, from: SessionState)
    requires TablesOk(s.tab) && x in s.tab.sessions && from == s.tab.births[x] && Pending(from)
    ensures Lawful(s, p, Finish(StampFrom(s.tab, x, from), Stamped(x)))
  {
    StampTables(s.tab, x, from);
    StampLeavesOthers(s, p, StampFrom(s.tab, x, from));
    WrittenLawfully(s, p, StampFrom(s.tab, x, from), Stamped(x));
  }

  predicate SettleWrites(act: SettleAct) {
    act.ConfirmPaid? || act.StampPaid? || act.ConfirmPickup? || act.StampPickup?
  }

  lemma SettleReads(tab: Tables, pr: Proc, act: SettleAct)
    requires BirthsRecorded(tab.sessions, tab.births)
    requires PointOk(tab, pr.at) && SettleReady(tab, pr, act) && !SettleWrites(act)
    ensures var e := SettleEffect(tab, pr, act);
      e.tab == tab && e.proc == Idle(e.proc.at) && PointOk(tab, e.proc.at) && !Critical(e.proc.at)
  {
    match act
    case DeliverFound(event, target) =>
    case DeliverNone(event) =>
    case PickupStart(target) =>
      if target in tab.sessions { assert BirthAgrees(tab.births[target], tab.sessions[target]); }
    case _ =>
  }

  lemma SettleWriteIsLawful(s: State, p: Id, pr: Proc, act: SettleAct)
    requires TablesOk(s.tab) && ProcsOk(s.tab, s.procs) && PointOk(s.tab, pr.at)
    requires SettleReady(s.tab, pr, act) && SettleWrites(act)
    ensures Lawful(s, p, SettleEffect(s.tab, pr, act))
  {
    match act
    case ConfirmPaid =>
      PaidTargetsOwn(s.tab, pr.at.event, pr.at.target, pr.at.order);
      ConfirmRecordedIsLawful(s, p, pr.at.target, pr.at.order, BySettlement(pr.at.event),
                              SettleConfirmed(pr.at.event, pr.at.target, pr.at.order));
    case StampPaid =>
      assert BirthAgrees(s.tab.births[pr.at.target], s.tab.sessions[pr.at.target]);
      StampIsLawful(s, p, pr.at.target, PendingPayment);
    case ConfirmPickup =>
      ConfirmRecordedIsLawful(s, p, pr.at.target, pr.at.order, ByPickupOfficer(pr.at.target),
                              PickupConfirmed(pr.at.target, pr.at.order));
    case StampPickup => StampIsLawful(s, p, pr.at.target, PendingPickup);
    case _ =>
  }

  lemma SettleIsLawful(s: State, p: Id, act: SettleAct)
    requires Inv(s) && Enabled(s, SettleStep(p, act))
    ensures Lawful(s, p, SettleEffect(s.tab, ProcOf(s, p), act))
  {
    OwnRecord(s, p);
    if SettleWrites(act) {
      SettleWriteIsLawful(s, p, ProcOf(s, p), act);
    } else {
      SettleReads(s.tab, ProcOf(s, p), act);
      IdleIsLawful(s, p, SettleEffect(s.tab, ProcOf(s, p), act).proc.at);
    }
  }

  /** A gateway row's reference is the checkout its session was recorded under. */
  lemma PaidTargetsOwn(tab: Tables, event: Id, target: Id, order: Id)
    requires SessionsAgree(tab) && SettlesOwn(tab, event, target, order)
    ensures tab.gateways[event].reference == target
  {
    assert SessionAgrees(tab, target);
  }

  // ── cancel ────────────────────────────────────────────────────────────────

  lemma CancelOrderIsLawful(s: State, p: Id, x: Id, o: Id, at: Point)
    requires TablesOk(s.tab) && ProcsOk(s.tab, s.procs)
    requires x in s.tab.sessions && s.tab.sessions[x].order == Some(o) && o in s.tab.orders
    requires PointOk(s.tab, at) && !Critical(at)
    ensures Lawful(s, p, Effect(CancelOrder(s.tab, o), Idle(at)))
  {
    assert SessionAgrees(s.tab, x);
    CancelOrderKeeps(s.tab, o);
    StatusLeavesOthers(s, p, x, CancelOrder(s.tab, o));
    PointSteady(s.tab, CancelOrder(s.tab, o), at);
    WritesLawfully(s, p, CancelOrder(s.tab, o), at);
  }

  lemma StampCancelledIsLawful(s: State, p: Id, x: Id, at: Point)
    requires TablesOk(s.tab) && x in s.tab.sessions && PointOk(s.tab, at) && !Critical(at)
    ensures Lawful(s, p, Effect(StampSession(s.tab, x, SessionState.Cancelled), Idle(at)))
  {
    StampKeeps(s.tab, x, SessionState.Cancelled);
    PointSteady(s.tab, StampSession(s.tab, x, SessionState.Cancelled), at);
    StampLeavesOthers(s, p, StampSession(s.tab, x, SessionState.Cancelled));
    WritesLawfully(s, p, StampSession(s.tab, x, SessionState.Cancelled), at);
  }

  lemma UnlockedLeavesOthers(s: State, p: Id, c: Id, u: Tables)
    requires LocksHeld(s.locks, s.procs) && Unlocked(s, c)
    requires u.sessions.Keys == s.tab.sessions.Keys && u.parties == s.tab.parties
    requires forall o | o in s.tab.orders :: o in u.orders && u.orders[o] == s.tab.orders[o]
    requires forall d | d in s.tab.carts && d != c :: d in u.carts && u.carts[d] == s.tab.carts[d]
    ensures LeavesOthers(s.tab, u, s.procs, p)
  {}

  lemma CancelCartLeavesOthers(s: State, p: Id, c: Id)
    requires LocksHeld(s.locks, s.procs) && Unlocked(s, c) && c in s.tab.carts
    ensures LeavesOthers(s.tab, PutCart(s.tab, c, s.tab.carts[c].(state := CartState.Cancelled)), s.procs, p)
  {}

  lemma CancelCartIsLawful(s: State, p: Id, c: Id)
    requires TablesOk(s.tab) && LocksHeld(s.locks, s.procs)
    requires c in s.tab.carts && HasSession(s.tab.sessions, c) && Unlocked(s, c)
    ensures Lawful(s, p, Finish(PutCart(s.tab, c, s.tab.carts[c].(state := CartState.Cancelled)), Changed))
  {
    CancelCartLeavesOthers(s, p, c);
    CancelCartKeeps(s.tab, c);
    WrittenLawfully(s, p, PutCart(s.tab, c, s.tab.carts[c].(state := CartState.Cancelled)), Changed);
  }

  /** The tables after a whole, uninterrupted cancel. */
  function CancelledTables(tab: Tables, x: Id, o: Id, c: Id): Tables
    requires x in tab.sessions && o in tab.orders && c in tab.carts
  {
    PutCart(StampSession(CancelOrder(tab, o), x, SessionState.Cancelled), c,
            tab.carts[c].(state := CartState.Cancelled))
  }

  lemma CancelWholeTables(tab: Tables, x: Id, o: Id, c: Id)
    requires TablesOk(tab) && CancelsOwn(tab, x, o, c) && o in tab.orders && c in tab.carts
    ensures TablesOk(CancelledTables(tab, x, o, c)) && Grown(tab, CancelledTables(tab, x, o, c))
  {
    var t1 := CancelOrder(tab, o);
    CancelOrderKeeps(tab, o);
    CancelStampAndCart(t1, x, c);
    GrownTransitive(tab, t1, CancelledTables(tab, x, o, c));
  }

  lemma CancelStampAndCart(tab: Tables, x: Id, c: Id)
    requires TablesOk(tab) && x in tab.sessions && tab.sessions[x].cart == c && c in tab.carts
    ensures var u := PutCart(StampSession(tab, x, SessionState.Cancelled), c,
                             tab.carts[c].(state := CartState.Cancelled));
      TablesOk(u) && Grown(tab, u)
  {
    var t2 := StampSession(tab, x, SessionState.Cancelled);
    StampKeeps(tab, x, SessionState.Cancelled);
    assert t2.sessions[x].cart == c;
    CancelCartKeeps(t2, c);
    GrownTransitive(tab, t2, PutCart(t2, c, tab.carts[c].(state := CartState.Cancelled)));
  }

  lemma CancelWholeSteady(tab: Tables, x: Id, o: Id, c: Id, other: Proc)
    requires CancelsOwn(tab, x, o, c) && o in tab.orders && c in tab.carts
    requires SessionAgrees(tab, x) && DrawOk(tab, other)
    requires other.hold.Some? ==> other.hold.value.cart != c
    ensures Steady(tab, CancelledTables(tab, x, o, c), other)
  {}

  lemma CancelWholeLeavesOthers(s: State, p: Id, x: Id, o: Id, c: Id)
    requires ProcsOk(s.tab, s.procs) && LocksHeld(s.locks, s.procs) && Unlocked(s, c)
    requires CancelsOwn(s.tab, x, o, c) && SessionAgrees(s.tab, x) && o in s.tab.orders && c in s.tab.carts
    ensures LeavesOthers(s.tab, CancelledTables(s.tab, x, o, c), s.procs, p)
  {
    forall q | q in s.procs && q != p ensures Steady(s.tab, CancelledTables(s.tab, x, o, c), s.procs[q]) {
      assert DrawOk(s.tab, s.procs[q]);
      CancelWholeSteady(s.tab, x, o, c, s.procs[q]);
    }
  }

  lemma CancelWholeFacts(s: State, p: Id, x: Id, o: Id, c: Id)
    requires TablesOk(s.tab) && ProcsOk(s.tab, s.procs) && LocksHeld(s.locks, s.procs) && Unlocked(s, c)
    requires CancelsOwn(s.tab, x, o, c) && o in s.tab.orders && c in s.tab.carts
    ensures var u := CancelledTables(s.tab, x, o, c);
      TablesOk(u) && Grown(s.tab, u) && LeavesOthers(s.tab, u, s.procs, p)
  {
    assert SessionAgrees(s.tab, x);
    CancelWholeLeavesOthers(s, p, x, o, c);
    CancelWholeTables(s.tab, x, o, c);
  }

  lemma CancelWholeIsLawful(s: State, p: Id, x: Id, o: Id, c: Id)
    requires Inv(s) && Unlocked(s, c)
    requires CancelsOwn(s.tab, x, o, c) && o in s.tab.orders && c in s.tab.carts
    ensures Lawful(s, p, Finish(CancelledTables(s.tab, x, o, c), Changed))
  {
    CancelWholeFacts(s, p, x, o, c);
    WrittenLawfully(s, p, CancelledTables(s.tab, x, o, c), Changed);
  }

  /** An atomic cancel either refuses, or leaves exactly the cancelled tables. */
  lemma CancelWholeIs(tab: Tables, x: Id)
    requires CancelReady(tab, Idle(NotStarted), CancelAtomic(x))
    ensures var e := CancelWhole(tab, x);
      (e.tab == tab && e.proc.at.Done? && e.proc == Idle(e.proc.at) && e.proc.at.outcome.Refused?)
      || (x in tab.sessions && tab.sessions[x].order.Some? && tab.sessions[x].order.value in tab.orders
          && e == Finish(CancelledTables(tab, x, tab.sessions[x].order.value, tab.sessions[x].cart), Changed))
  {}

  lemma CancelAtomicIsLawful(s: State, p: Id, x: Id)
    requires Inv(s) && CancelReady(s.tab, Idle(NotStarted), CancelAtomic(x))
    requires x in s.tab.sessions ==> Unlocked(s, s.tab.sessions[x].cart)
    ensures Lawful(s, p, CancelWhole(s.tab, x))
  {
    CancelWholeIs(s.tab, x);
    if CancelWhole(s.tab, x).tab == s.tab && CancelWhole(s.tab, x).proc.at.outcome.Refused? {
      FinishIsLawful(s, p, CancelWhole(s.tab, x).proc.at.outcome);
    } else {
      CancelWholeIsLawful(s, p, x, s.tab.sessions[x].order.value, s.tab.sessions[x].cart);
    }
  }

  lemma CancelStartIsLawful(s: State, p: Id, target: Id)
    requires Inv(s)
    ensures Lawful(s, p, CancelOpen(s.tab, target))
  {
    CancelOpens(s.tab, target);
    IdleIsLawful(s, p, CancelOpen(s.tab, target).proc.at);
  }

  lemma CancelOpens(tab: Tables, target: Id)
    ensures var e := CancelOpen(tab, target);
      e.tab == tab && e.proc == Idle(e.proc.at) && PointOk(tab, e.proc.at) && !Critical(e.proc.at)
  {}

  lemma CancelSellingIsLawful(s: State, p: Id, pr: Proc)
    requires Inv(s) && pr.at.CancelRead? && PointOk(s.tab, pr.at)
    ensures Lawful(s, p, CancelEffect(s.tab, pr, CancelSelling))
  {
    if pr.at.order !in s.tab.orders || s.tab.orders[pr.at.order].status == Void {
      FinishIsLawful(s, p, Refused(SellingRefused));
    } else {
      CancelOrderIsLawful(s, p, pr.at.target, pr.at.order, CancelVoided(pr.at.target, pr.at.order, pr.at.cart));
    }
  }

  lemma CancelCartStepIsLawful(s: State, p: Id, pr: Proc)
    requires TablesOk(s.tab) && LocksHeld(s.locks, s.procs)
    requires CancelReady(s.tab, pr, CancelCart) && PointOk(s.tab, pr.at) && Unlocked(s, pr.at.cart)
    ensures Lawful(s, p, CancelEffect(s.tab, pr, CancelCart))
  {
    CancelCartIsLawful(s, p, pr.at.cart);
  }

  lemma CancelActIsLawful(s: State, p: Id, pr: Proc, act: CancelAct)
    requires Inv(s) && PointOk(s.tab, pr.at) && CancelReady(s.tab, pr, act) && CancelFree(s, pr, act)
    ensures Lawful(s, p, CancelEffect(s.tab, pr, act))
  {
    match act
    case CancelStart(target) => CancelStartIsLawful(s, p, target);
    case CancelSelling => CancelSellingIsLawful(s, p, pr);
    case StampCancelled =>
      StampCancelledIsLawful(s, p, pr.at.target, CancelStamped(pr.at.target, pr.at.cart));
    case CancelCart => CancelCartStepIsLawful(s, p, pr);
    case CancelAtomic(target) => CancelAtomicIsLawful(s, p, target);
  }

  lemma CancelIsLawful(s: State, p: Id, act: CancelAct)
    requires Inv(s) && Enabled(s, CancelStep(p, act))
    ensures Lawful(s, p, CancelEffect(s.tab, ProcOf(s, p), act))
  {
    OwnRecord(s, p);
    CancelActIsLawful(s, p, ProcOf(s, p), act);
  }

  // ── every step ────────────────────────────────────────────────────────────

  lemma GatewaySettlesKeeps(s: State, g: Id)
    requires Inv(s) && g in s.tab.gateways
    ensures Inv(Apply(s, GatewaySettles(g))) && Grown(s.tab, Apply(s, GatewaySettles(g)).tab)
  {
    SettleGatewayKeeps(s.tab, g);
    var t := Apply(s, GatewaySettles(g));
    forall p | p in t.procs ensures ProcOk(t.tab, t.procs[p]) {
      ProcSteady(s.tab, t.tab, s.procs[p]);
    }
  }

  lemma ApplyIsInstall(s: State, step: Step)
    requires Enabled(s, step) && !step.Surround? && !step.GatewaySettles?
    ensures Apply(s, step) == Install(s, step.p, StepEffect(s, step))
  {}

  lemma EffectIsLawful(s: State, step: Step)
    requires Inv(s) && Enabled(s, step) && !step.Surround? && !step.GatewaySettles?
    ensures Lawful(s, step.p, StepEffect(s, step))
  {
    match step
    case Abort(p) => FinishIsLawful(s, p, Aborted);
    case PlaceStep(p, act) => PlaceIsLawful(s, p, act);
    case VerbStep(p, act) => VerbIsLawful(s, p, act);
    case CartStep(p, act) => CartIsLawful(s, p, act);
    case SettleStep(p, act) => SettleIsLawful(s, p, act);
    case CancelStep(p, act) => CancelIsLawful(s, p, act);
  }

  /** Every step of every process, a crash at any point, and any change of the
      surroundings keep the invariant, and committed rows are never lost. */
  lemma StepKeepsInv(s: State, step: Step)
    requires Inv(s) && Enabled(s, step)
    ensures Inv(Apply(s, step)) && Grown(s.tab, Apply(s, step).tab)
  {
    if step.GatewaySettles? {
      GatewaySettlesKeeps(s, step.gateway);
    } else if !step.Surround? {
      EffectIsLawful(s, step);
      ApplyIsInstall(s, step);
      InstallKeepsInv(s, step.p, StepEffect(s, step));
    }
  }
}
