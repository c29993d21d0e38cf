/** What is gated is what is minted: every checkout's order lines are one snapshot
    of its cart's lines, read, priced and passed by the stock gate in that order,
    whatever line edits and price or stock changes ran in between. */
module CheckoutOrigins {
  import opened StorefrontTypes
  import Availability
  import Pricing
  import opened CheckoutState
  import opened CheckoutSteps
  import opened CheckoutInvariants
  import opened CheckoutFrames
  import opened CheckoutStepProofs
  import opened CheckoutRuns
  import opened CheckoutSettlement

  // ── the gate over one stock table ─────────────────────────────────────────

  lemma {:induction false} StockAnswerFor(stock: map<Id, real>, items: seq<Id>, item: Id)
    ensures Availability.AnswerFor(StockAnswers(stock, items), item)
            == if item in items && item in stock then Some(ItemAvailability(item, stock[item])) else None
  {
    if items != [] {
      StockAnswerFor(stock, items[1..], item);
      assert item in items <==> items[0] == item || item in items[1..];
      var head := if items[0] in stock then [ItemAvailability(items[0], stock[items[0]])] else [];
      assert StockAnswers(stock, items) == head + StockAnswers(stock, items[1..]);
      if head == [] {
        assert StockAnswers(stock, items) == StockAnswers(stock, items[1..]);
      } else {
        assert StockAnswers(stock, items)[1..] == StockAnswers(stock, items[1..]);
      }
    }
  }

  /** One line passes: its item may be backordered, or it is carried in stock at no
      less than the line's quantity. */
  predicate Covered(stock: map<Id, real>, policy: map<Id, bool>, line: CartLine) {
    Availability.BackorderAllowed(policy, line.item) || (line.item in stock && line.quantity <= stock[line.item])
  }

  /** The gate passes exactly when every line is covered. */
  lemma GatePassesIff(stock: map<Id, real>, policy: map<Id, bool>, lines: seq<CartLine>)
    ensures GateVerdict(stock, policy, lines).Ok?
      <==> forall k | 0 <= k < |lines| :: Covered(stock, policy, lines[k])
  {
    var pairs := Pairs(lines);
    var gated := Availability.GatedLines(policy, pairs);
    var answers := StockAnswers(stock, Availability.Items(gated));
    Availability.GatedLinesMembers(policy, pairs);
    Availability.ScanAcceptsIff(answers, gated);
    forall l | l in gated ensures
      Availability.LineVerdict(answers, l).Ok? <==> l.0 in stock && l.1 <= stock[l.0]
    {
      Availability.ItemsMembers(gated, l);
      StockAnswerFor(stock, Availability.Items(gated), l.0);
    }
    forall k | 0 <= k < |lines| ensures (lines[k].item, lines[k].quantity) in pairs {
      assert pairs[k] == (lines[k].item, lines[k].quantity);
    }
    if GateVerdict(stock, policy, lines).Ok? {
      forall k | 0 <= k < |lines| ensures Covered(stock, policy, lines[k]) {
        assert (lines[k].item, lines[k].quantity) in pairs;
      }
    } else {
      var l :| l in gated && !Availability.LineVerdict(answers, l).Ok?;
      var k :| 0 <= k < |pairs| && pairs[k] == l;
      assert !Covered(stock, policy, lines[k]);
    }
  }

  /** Why a line that is not covered is refused: short stock is named with both numbers,
      an item the stock table does not carry is never taken for zero. */
  function ShortOf(stock: map<Id, real>, line: (Id, real)): Availability.StockRefusal {
    if line.0 in stock then Availability.Insufficient(line.0, line.1, stock[line.0])
    else Availability.PortRefused("availability_port_incomplete")
  }

  lemma {:induction false} FirstShort(stock: map<Id, real>, policy: map<Id, bool>, lines: seq<(Id, real)>,
                                      answers: seq<ItemAvailability>) returns (k: nat)
    requires forall l | l in Availability.GatedLines(policy, lines) ::
      Availability.AnswerFor(answers, l.0)
      == if l.0 in stock then Some(ItemAvailability(l.0, stock[l.0])) else None
    requires Availability.ScanGated(answers, Availability.GatedLines(policy, lines)).Err?
    ensures k < |lines| && !Availability.BackorderAllowed(policy, lines[k].0)
    ensures Availability.ScanGated(answers, Availability.GatedLines(policy, lines)) == Err(ShortOf(stock, lines[k]))
    ensures lines[k].0 in stock ==> stock[lines[k].0] < lines[k].1
    ensures forall j | 0 <= j < k ::
      Availability.BackorderAllowed(policy, lines[j].0) || (lines[j].0 in stock && lines[j].1 <= stock[lines[j].0])
  {
    var gated := Availability.GatedLines(policy, lines);
    if Availability.BackorderAllowed(policy, lines[0].0) {
      k := FirstShort(stock, policy, lines[1..], answers);
      k := k + 1;
    } else {
      assert gated[0] == lines[0] && gated[1..] == Availability.GatedLines(policy, lines[1..]);
      assert lines[0] in gated;
      if Availability.LineVerdict(answers, lines[0]).Err? {
        k := 0;
      } else {
        forall l | l in gated[1..] ensures l in gated {}
        k := FirstShort(stock, policy, lines[1..], answers);
        k := k + 1;
      }
    }
  }

  /** A refusal of the gate is that of the first line not covered. */
  lemma GateRefusesFirst(stock: map<Id, real>, policy: map<Id, bool>, lines: seq<CartLine>) returns (k: nat)
    requires GateVerdict(stock, policy, lines).Err?
    ensures k < |lines| && !Covered(stock, policy, lines[k])
    ensures forall j | 0 <= j < k :: Covered(stock, policy, lines[j])
    ensures GateVerdict(stock, policy, lines) == Err(ShortOf(stock, (lines[k].item, lines[k].quantity)))
  {
    var pairs := Pairs(lines);
    var gated := Availability.GatedLines(policy, pairs);
    var answers := StockAnswers(stock, Availability.Items(gated));
    forall l | l in gated
      ensures Availability.AnswerFor(answers, l.0)
              == if l.0 in stock then Some(ItemAvailability(l.0, stock[l.0])) else None
    {
      Availability.ItemsMembers(gated, l);
      StockAnswerFor(stock, Availability.Items(gated), l.0);
    }
    k := FirstShort(stock, policy, pairs, answers);
    forall j | 0 <= j < k ensures Covered(stock, policy, lines[j]) { assert pairs[j] == (lines[j].item, lines[j].quantity); }
  }

  /** The item's live listing on the website allows ordering past stock. */
  predicate MayBackorder(policies: map<Id, map<Id, bool>>, website: Id, item: Id) {
    website in policies && item in policies[website] && policies[website][item]
  }

  /** One warehouse's stock, or the company aggregate's, carries the line. */
  predicate CarriedIn(stock: map<Option<Id>, map<Id, real>>, scope: Option<Id>, line: CartLine) {
    scope in stock && line.item in stock[scope] && line.quantity <= stock[scope][line.item]
  }

  predicate Backordered(policy: map<Id, bool>, line: CartLine) {
    line.item in policy && policy[line.item]
  }

  /** The gate step of a pickup cart whose pinned store has a warehouse passes exactly
      when every line not on backorder is carried in that warehouse, whatever the
      company aggregate holds; a delivery cart's, and that of a pickup cart whose store
      is gone or has no warehouse, exactly when the aggregate carries them. */
  lemma GateReadsTheCartsScope(around: Surroundings, tab: Tables, pr: Proc)
    requires PlaceReady(tab, pr, ReadStock)
    ensures var row, lines, policy := pr.hold.value.row, pr.at.lines, pr.at.policy;
      var passes := PlaceEffect(around, tab, pr, ReadStock).proc.at.PlaceGated?;
      && (row.mode == Pickup && row.pin.Some? && row.pin.value in around.locations ==>
            (forall w | around.locations[row.pin.value].warehouse == Some(w) ::
               passes <==> forall k | 0 <= k < |lines| ::
                 Backordered(policy, lines[k]) || CarriedIn(around.stock, Some(w), lines[k]))
            && (around.locations[row.pin.value].warehouse == None ==>
                  (passes <==> forall k | 0 <= k < |lines| ::
                     Backordered(policy, lines[k]) || CarriedIn(around.stock, None, lines[k]))))
      && (row.mode == Delivery || row.pin.None? || row.pin.value !in around.locations ==>
            (passes <==> forall k | 0 <= k < |lines| ::
               Backordered(policy, lines[k]) || CarriedIn(around.stock, None, lines[k])))
  {
    var row := pr.hold.value.row;
    GatePassesIff(StockIn(around, ScopeOf(around, row.mode, row.pin)), pr.at.policy, pr.at.lines);
    var scope := if row.mode == Pickup && row.pin.Some? && row.pin.value in around.locations
                 then around.locations[row.pin.value].warehouse else None;
    CoveredInScope(around, row.mode, row.pin, scope, pr.at.policy, pr.at.lines);
  }

  /** A line is covered where the cart is served from. */
  lemma CoveredInScope(around: Surroundings, mode: Mode, pin: Option<Id>, scope: Option<Id>, policy: map<Id, bool>,
                       lines: seq<CartLine>)
    requires mode == Pickup && pin.Some? && pin.value in around.locations ==>
               scope == around.locations[pin.value].warehouse
    requires mode == Delivery || pin.None? || pin.value !in around.locations ==> scope == None
    ensures forall k | 0 <= k < |lines| ::
      Covered(StockIn(around, ScopeOf(around, mode, pin)), policy, lines[k])
      <==> Backordered(policy, lines[k]) || CarriedIn(around.stock, scope, lines[k])
  {}

  // ── evidence ──────────────────────────────────────────────────────────────

  /** What a place read, and at which state of the run it read each of it. */
  datatype Evidence = Evidence(
    lines: seq<CartLine>, policy: map<Id, bool>, linesAt: nat, pricesAt: nat, policyAt: nat, stockAt: nat)

  ghost predicate SawLines(states: seq<State>, n: nat, v: Evidence, cart: Id) {
    v.linesAt <= n < |states| && v.lines == LinesOf(states[v.linesAt].around, cart) && v.lines != []
  }

  ghost predicate SawPrices(states: seq<State>, n: nat, v: Evidence, website: Id, items: seq<OrderLine>) {
    v.linesAt <= v.pricesAt <= n < |states|
    && var prices := AtWebsite(states[v.pricesAt].around.prices, website);
    Pricing.AllPriceable(prices, v.lines) && items == Pricing.MintLines(prices, v.lines)
  }

  ghost predicate SawPolicy(states: seq<State>, n: nat, v: Evidence, website: Id) {
    v.pricesAt <= v.policyAt <= n < |states| && v.policy == AtWebsite(states[v.policyAt].around.policies, website)
  }

  ghost predicate SawStock(states: seq<State>, n: nat, v: Evidence, mode: Mode, pin: Option<Id>) {
    v.policyAt <= v.stockAt <= n < |states|
    && var around := states[v.stockAt].around;
    GateVerdict(StockIn(around, ScopeOf(around, mode, pin)), v.policy, v.lines).Ok?
  }

  /** Lines, prices, policy and stock were all seen, in this order, by state n. */
  ghost predicate Backs(states: seq<State>, n: nat, v: Evidence, cart: Id, row: Cart, items: seq<OrderLine>) {
    SawLines(states, n, v, cart) && SawPrices(states, n, v, row.website, items)
    && SawPolicy(states, n, v, row.website) && SawStock(states, n, v, row.mode, row.pin)
  }

  /** The evidence a place must have at its program point. */
  ghost predicate PointBacked(states: seq<State>, n: nat, v: Evidence, cart: Id, row: Cart, at: Point) {
    && (at.PlaceSnapped? ==> SawLines(states, n, v, cart) && v.lines == at.lines)
    && (at.PlacePriced? ==>
          SawLines(states, n, v, cart) && v.lines == at.lines && SawPrices(states, n, v, row.website, at.items))
    && (at.PlacePolicied? ==>
          SawLines(states, n, v, cart) && v.lines == at.lines && SawPrices(states, n, v, row.website, at.items)
          && v.policy == at.policy && SawPolicy(states, n, v, row.website))
    && (at.PlaceGated? ==> v.lines == at.lines && Backs(states, n, v, cart, row, at.items))
  }

  predicate Reading(at: Point) {
    at.PlaceSnapped? || at.PlacePriced? || at.PlacePolicied? || at.PlaceGated?
  }

  ghost predicate ProcBacked(states: seq<State>, n: nat, tab: Tables, pr: Proc) {
    && (Reading(pr.at) ==>
          pr.hold.Some? && exists v :: PointBacked(states, n, v, pr.hold.value.cart, pr.hold.value.row, pr.at))
    && (pr.draw.Some? ==>
          pr.hold.Some? && pr.draw.value.order in tab.orders
          && exists v :: Backs(states, n, v, pr.hold.value.cart, pr.hold.value.row, tab.orders[pr.draw.value.order].lines))
  }

  ghost predicate SessionBacked(states: seq<State>, n: nat, tab: Tables, x: Id)
    requires x in tab.sessions
  {
    var z := tab.sessions[x];
    z.cart in tab.carts && z.order.Some? && z.order.value in tab.orders
    && exists v :: Backs(states, n, v, z.cart, tab.carts[z.cart], tab.orders[z.order.value].lines)
  }

  ghost predicate ProcsBacked(states: seq<State>, n: nat, s: State) {
    forall p {:trigger ProcBacked(states, n, s.tab, s.procs[p])} | p in s.procs ::
      ProcBacked(states, n, s.tab, s.procs[p])
  }

  ghost predicate AllBacked(states: seq<State>, n: nat)
    requires n < |states|
  {
    && ProcsBacked(states, n, states[n])
    && forall x {:trigger SessionBacked(states, n, states[n].tab, x)} | x in states[n].tab.sessions ::
         SessionBacked(states, n, states[n].tab, x)
  }

  // ── evidence lasts ────────────────────────────────────────────────────────

  lemma BacksLater(states: seq<State>, n: nat, v: Evidence, cart: Id, row: Cart, after: Cart, items: seq<OrderLine>)
    requires n + 1 < |states| && Backs(states, n, v, cart, row, items)
    requires after.website == row.website && after.mode == row.mode && after.pin == row.pin
    ensures Backs(states, n + 1, v, cart, after, items)
  {}

  lemma ReadingStaysBacked(states: seq<State>, n: nat, t: Tables, pr: Proc) returns (v: Evidence)
    requires n + 1 < |states| && ProcBacked(states, n, t, pr) && Reading(pr.at)
    ensures PointBacked(states, n + 1, v, pr.hold.value.cart, pr.hold.value.row, pr.at)
  {
    v :| PointBacked(states, n, v, pr.hold.value.cart, pr.hold.value.row, pr.at);
  }

  lemma ProcStaysBacked(states: seq<State>, n: nat, t: Tables, u: Tables, pr: Proc)
    requires n + 1 < |states| && ProcBacked(states, n, t, pr) && Grown(t, u)
    ensures ProcBacked(states, n + 1, u, pr)
  {
    if Reading(pr.at) { var v := ReadingStaysBacked(states, n, t, pr); }
    if pr.draw.Some? {
      var v :| Backs(states, n, v, pr.hold.value.cart, pr.hold.value.row, t.orders[pr.draw.value.order].lines);
      BacksLater(states, n, v, pr.hold.value.cart, pr.hold.value.row, pr.hold.value.row,
                 t.orders[pr.draw.value.order].lines);
    }
  }

  lemma SessionStaysBacked(states: seq<State>, n: nat, t: Tables, u: Tables, x: Id)
    requires n + 1 < |states| && x in t.sessions && SessionBacked(states, n, t, x) && Grown(t, u)
    requires t.sessions[x].cart in u.carts
    requires var c := t.sessions[x].cart; u.carts[c] == t.carts[c].(state := u.carts[c].state)
    ensures SessionBacked(states, n + 1, u, x)
  {
    var z := t.sessions[x];
    var v :| Backs(states, n, v, z.cart, t.carts[z.cart], t.orders[z.order.value].lines);
    BacksLater(states, n, v, z.cart, t.carts[z.cart], u.carts[z.cart], t.orders[z.order.value].lines);
  }

  // ── a place's own reads ───────────────────────────────────────────────────

  lemma PlaceReadsBacked(states: seq<State>, n: nat, tab: Tables, pr: Proc, act: PlaceAct)
    requires n + 1 < |states| && PlaceReady(tab, pr, act) && ProcBacked(states, n, tab, pr)
    requires act.ReadLines? || act.Price? || act.ReadPolicy? || act.ReadStock?
    requires pr.draw == None
    ensures var e := PlaceEffect(states[n].around, tab, pr, act); ProcBacked(states, n + 1, e.tab, e.proc)
  {
    var e := PlaceEffect(states[n].around, tab, pr, act);
    if !e.proc.at.Done? {
      var cart, row := pr.hold.value.cart, pr.hold.value.row;
      if act.ReadLines? {
        assert PointBacked(states, n + 1, Evidence(e.proc.at.lines, map[], n, n, n, n), cart, row, e.proc.at);
      } else {
        var v :| PointBacked(states, n, v, cart, row, pr.at);
        var w := if act.Price? then v.(pricesAt := n)
                 else if act.ReadPolicy? then v.(policy := e.proc.at.policy, policyAt := n)
                 else v.(stockAt := n);
        assert PointBacked(states, n + 1, w, cart, row, e.proc.at);
      }
    }
  }

  lemma GatedIsBacked(states: seq<State>, n: nat, tab: Tables, pr: Proc) returns (v: Evidence)
    requires n + 1 < |states| && pr.at.PlaceGated? && ProcBacked(states, n, tab, pr)
    ensures pr.hold.Some? && Backs(states, n + 1, v, pr.hold.value.cart, pr.hold.value.row, pr.at.items)
  {
    v :| PointBacked(states, n, v, pr.hold.value.cart, pr.hold.value.row, pr.at);
  }

  lemma MintWrites(tab: Tables, pr: Proc, act: PlaceAct)
    requires act.Mint? && PlaceReady(tab, pr, act)
    ensures var e := PlaceMint(tab, pr, act.checkout, act.order, act.total);
      act.order in e.tab.orders && e.tab.orders[act.order].lines == pr.at.items
      && e.proc == pr.(draw := Some(Draw(act.checkout, act.order)), at := PlaceMinted(pr.at.call))
  {}

  lemma DrawnIsBacked(states: seq<State>, n: nat, tab: Tables, pr: Proc, v: Evidence)
    requires pr.hold.Some? && pr.draw.Some? && pr.at.PlaceMinted? && pr.draw.value.order in tab.orders
    requires Backs(states, n, v, pr.hold.value.cart, pr.hold.value.row, tab.orders[pr.draw.value.order].lines)
    ensures ProcBacked(states, n, tab, pr)
  {}

  lemma MintBacked(states: seq<State>, n: nat, tab: Tables, pr: Proc, act: PlaceAct)
    requires n + 1 < |states| && act.Mint? && PlaceReady(tab, pr, act) && ProcBacked(states, n, tab, pr)
    ensures var e := PlaceMint(tab, pr, act.checkout, act.order, act.total); ProcBacked(states, n + 1, e.tab, e.proc)
  {
    var v := GatedIsBacked(states, n, tab, pr);
    var e := PlaceMint(tab, pr, act.checkout, act.order, act.total);
    MintWrites(tab, pr, act);
    DrawnIsBacked(states, n + 1, e.tab, e.proc, v);
  }

  predicate Rest(act: PlaceAct) {
    act.LockCart? || act.ReadStore? || act.ReadMap? || act.InsertMap? || act.ReadTotal? || act.Arm? || act.Commit?
  }

  /** What the acts that neither read a backed thing nor mint do to a record. */
  predicate KeepsDraw(pr: Proc, next: Proc) {
    !Reading(next.at) && (next.draw == None || (next.draw == pr.draw && next.hold == pr.hold))
  }

  lemma RestKeepsDraw(around: Surroundings, tab: Tables, pr: Proc, act: PlaceAct)
    requires PlaceReady(tab, pr, act) && Rest(act)
    ensures KeepsDraw(pr, PlaceEffect(around, tab, pr, act).proc)
  {}

  lemma DrawStaysBacked(states: seq<State>, n: nat, t: Tables, u: Tables, pr: Proc, next: Proc)
    requires n + 1 < |states| && ProcBacked(states, n, t, pr) && Grown(t, u) && KeepsDraw(pr, next)
    ensures ProcBacked(states, n + 1, u, next)
  {
    ProcStaysBacked(states, n, t, u, pr);
  }

  // ── every step ────────────────────────────────────────────────────────────

  lemma PlaceBacked(states: seq<State>, n: nat, tab: Tables, pr: Proc, act: PlaceAct)
    requires n + 1 < |states| && PlaceReady(tab, pr, act) && DrawOk(tab, pr) && ProcBacked(states, n, tab, pr)
    requires Grown(tab, PlaceEffect(states[n].around, tab, pr, act).tab)
    ensures var e := PlaceEffect(states[n].around, tab, pr, act); ProcBacked(states, n + 1, e.tab, e.proc)
  {
    if act.Mint? {
      MintBacked(states, n, tab, pr, act);
    } else if Rest(act) {
      var e := PlaceEffect(states[n].around, tab, pr, act);
      RestKeepsDraw(states[n].around, tab, pr, act);
      DrawStaysBacked(states, n, tab, e.tab, pr, e.proc);
    } else {
      PlaceReadsBacked(states, n, tab, pr, act);
    }
  }

  /** The place commit records a checkout whose order its evidence backs. */
  lemma CommitBacked(states: seq<State>, n: nat, tab: Tables, pr: Proc)
    requires n + 1 < |states| && PlaceReady(tab, pr, Commit) && pr.at.amount >= 0.0 && ProcBacked(states, n, tab, pr)
    ensures var u := PlaceCommit(tab, pr).tab; var x := pr.draw.value.checkout;
      x in u.sessions && SessionBacked(states, n + 1, u, x)
  {
    var u := PlaceCommit(tab, pr).tab;
    var cart, row, o := pr.hold.value.cart, pr.hold.value.row, pr.draw.value.order;
    var v :| Backs(states, n, v, cart, row, tab.orders[o].lines);
    BacksLater(states, n, v, cart, row, PlacedRow(row, pr.bill.value), tab.orders[o].lines);
    CommitWrites(tab, pr);
  }

  lemma CommitWrites(tab: Tables, pr: Proc)
    requires PlaceReady(tab, pr, Commit) && pr.at.amount >= 0.0
    ensures var u := PlaceCommit(tab, pr).tab; var x, cart := pr.draw.value.checkout, pr.hold.value.cart;
      && x in u.sessions && u.sessions[x].cart == cart && u.sessions[x].order == Some(pr.draw.value.order)
      && cart in u.carts && u.carts[cart] == PlacedRow(pr.hold.value.row, pr.bill.value) && u.orders == tab.orders
      && u.sessions.Keys == tab.sessions.Keys + {x}
  {}

  /** No other family reads a backed thing or draws an order. */
  lemma OthersDrawNothing(s: State, step: Step)
    requires Enabled(s, step) && (step.VerbStep? || step.CartStep? || step.SettleStep? || step.CancelStep? || step.Abort?)
    requires ProcOf(s, step.p).draw.Some? ==> AfterMint(ProcOf(s, step.p).at)
    ensures step.p in Apply(s, step).procs && KeepsDraw(ProcOf(s, step.p), Apply(s, step).procs[step.p])
  {
    match step
    case VerbStep(p, act) => VerbDrawsNothing(s.around, s.tab, ProcOf(s, p), act);
    case CartStep(p, act) => CartDrawsNothing(s.tab, ProcOf(s, p), act);
    case SettleStep(p, act) =>
    case CancelStep(p, act) =>
    case Abort(p) =>
  }

  lemma VerbDrawsNothing(around: Surroundings, tab: Tables, pr: Proc, act: VerbAct)
    requires VerbReady(pr, act) && (pr.draw.Some? ==> AfterMint(pr.at))
    ensures KeepsDraw(pr, VerbEffect(around, tab, pr, act).proc)
  {}

  lemma CartDrawsNothing(tab: Tables, pr: Proc, act: CartAct)
    requires CartReady(tab, pr, act)
    ensures KeepsDraw(pr, CartEffect(tab, pr, act).proc)
  {}

  lemma StepperBacked(states: seq<State>, n: nat, step: Step)
    requires n + 1 < |states| && Inv(states[n]) && Enabled(states[n], step) && states[n + 1] == Apply(states[n], step)
    requires !step.Surround? && !step.GatewaySettles?
    requires ProcBacked(states, n, states[n].tab, ProcOf(states[n], step.p)) && Grown(states[n].tab, states[n + 1].tab)
    ensures step.p in states[n + 1].procs
    ensures ProcBacked(states, n + 1, states[n + 1].tab, states[n + 1].procs[step.p])
  {
    var s, pr := states[n], ProcOf(states[n], step.p);
    assert DrawOk(s.tab, pr) by { assert ProcOk(s.tab, pr); }
    if step.PlaceStep? {
      PlaceBacked(states, n, s.tab, pr, step.place);
    } else {
      OthersDrawNothing(s, step);
      DrawStaysBacked(states, n, s.tab, states[n + 1].tab, pr, states[n + 1].procs[step.p]);
    }
  }

  /** A session recorded by this step is a place commit's, and backed. */
  lemma NewSessionBacked(states: seq<State>, n: nat, step: Step, x: Id)
    requires n + 1 < |states| && Enabled(states[n], step) && states[n + 1] == Apply(states[n], step)
    requires !step.Surround? && !step.GatewaySettles?
    requires ProcBacked(states, n, states[n].tab, ProcOf(states[n], step.p))
    requires x in states[n + 1].tab.sessions && x !in states[n].tab.sessions
    ensures SessionBacked(states, n + 1, states[n + 1].tab, x)
  {
    ApplyIsInstall(states[n], step);
    OnlyCommitsAddSessions(states[n], step);
    CommitBacked(states, n, states[n].tab, ProcOf(states[n], step.p));
    CommitWrites(states[n].tab, ProcOf(states[n], step.p));
  }

  lemma OnlyCommitsAddSessions(s: State, step: Step)
    requires Enabled(s, step) && !step.Surround? && !step.GatewaySettles?
    ensures (step.PlaceStep? && step.place.Commit?) || StepEffect(s, step).tab.sessions.Keys == s.tab.sessions.Keys
  {
    OnlyPlacesAddSessions(s, step);
    if step.PlaceStep? { PlaceIsOrdinary(s.around, s.tab, ProcOf(s, step.p), step.place); }
  }

  /** The sessions that were there stay backed: their carts are frozen. */
  lemma OldSessionBacked(states: seq<State>, n: nat, step: Step, x: Id)
    requires n + 1 < |states| && SessionsAgree(states[n].tab) && ProcsOk(states[n].tab, states[n].procs)
    requires Enabled(states[n], step) && states[n + 1] == Apply(states[n], step)
    requires Grown(states[n].tab, states[n + 1].tab)
    requires x in states[n].tab.sessions && SessionBacked(states, n, states[n].tab, x)
    ensures x in states[n + 1].tab.sessions && SessionBacked(states, n + 1, states[n + 1].tab, x)
  {
    assert SessionAgrees(states[n].tab, x);
    CartMovesLawfully(states[n], step, states[n].tab.sessions[x].cart);
    SessionStaysBacked(states, n, states[n].tab, states[n + 1].tab, x);
  }

  lemma OneStaysBacked(states: seq<State>, n: nat, step: Step, p: Id)
    requires n + 1 < |states| && Inv(states[n]) && Enabled(states[n], step) && states[n + 1] == Apply(states[n], step)
    requires ProcsBacked(states, n, states[n]) && Grown(states[n].tab, states[n + 1].tab)
    requires p in states[n + 1].procs
    ensures ProcBacked(states, n + 1, states[n + 1].tab, states[n + 1].procs[p])
  {
    if step.Surround? || step.GatewaySettles? || step.p != p {
      assert states[n + 1].procs[p] == states[n].procs[p];
      ProcStaysBacked(states, n, states[n].tab, states[n + 1].tab, states[n].procs[p]);
    } else {
      StepperBacked(states, n, step);
    }
  }

  lemma ProcsStayBacked(states: seq<State>, n: nat, m: nat, step: Step)
    requires m == n + 1 < |states| && Inv(states[n])
    requires Enabled(states[n], step) && states[m] == Apply(states[n], step)
    requires ProcsBacked(states, n, states[n]) && Grown(states[n].tab, states[m].tab)
    ensures ProcsBacked(states, m, states[m])
  {
    var after := states[m];
    forall p | p in after.procs ensures ProcBacked(states, m, after.tab, after.procs[p]) {
      OneStaysBacked(states, n, step, p);
    }
  }

  lemma SessionsStayBacked(states: seq<State>, n: nat, m: nat, step: Step)
    requires m == n + 1 < |states| && Inv(states[n])
    requires Enabled(states[n], step) && states[m] == Apply(states[n], step)
    requires AllBacked(states, n) && Grown(states[n].tab, states[m].tab)
    ensures forall x {:trigger SessionBacked(states, m, states[m].tab, x)} | x in states[m].tab.sessions ::
      SessionBacked(states, m, states[m].tab, x)
  {
    var after := states[m];
    forall x | x in after.tab.sessions ensures SessionBacked(states, m, after.tab, x) {
      if x in states[n].tab.sessions {
        OldSessionBacked(states, n, step, x);
      } else {
        NewSessionBacked(states, n, step, x);
      }
    }
  }

  lemma StepKeepsBacked(states: seq<State>, n: nat, m: nat, step: Step)
    requires m == n + 1 < |states| && Inv(states[n])
    requires Enabled(states[n], step) && states[m] == Apply(states[n], step)
    requires AllBacked(states, n)
    ensures AllBacked(states, m)
  {
    StepKeepsInv(states[n], step);
    ProcsStayBacked(states, n, m, step);
    SessionsStayBacked(states, n, m, step);
  }

  lemma InitBacked(states: seq<State>)
    requires states != [] && Init(states[0])
    ensures AllBacked(states, 0)
  {}

  lemma NextBacked(states: seq<State>, steps: seq<Step>, n: nat, m: nat)
    requires IsRun(states, steps) && m == n + 1 < |states| && AllBacked(states, n)
    ensures AllBacked(states, m)
  {
    ReachableInv(states, steps, n);
    StepKeepsBacked(states, n, m, steps[n]);
  }

  lemma {:induction false} ReachableBacked(states: seq<State>, steps: seq<Step>, n: nat)
    requires IsRun(states, steps) && n < |states|
    ensures AllBacked(states, n)
  {
    if n == 0 {
      InitBacked(states);
    } else {
      ReachableBacked(states, steps, n - 1);
      NextBacked(states, steps, n - 1, n);
    }
  }

  // ── the theorem ───────────────────────────────────────────────────────────

  /** The order has exactly the snapshot's items and quantities, in order, each with
      the website's own list price of the state it was priced in. */
  ghost predicate MintsSnapshot(items: seq<OrderLine>, lines: seq<CartLine>, prices: map<Id, PriceRow>) {
    |items| == |lines|
    && forall k | 0 <= k < |lines| ::
         lines[k].item in prices
         && items[k] == OrderLine(lines[k].item, lines[k].quantity, prices[lines[k].item].listPrice)
  }

  /** The lines that may not be backordered on the website are carried in the scope. */
  ghost predicate AllCarried(around: Surroundings, policies: map<Id, map<Id, bool>>, website: Id, scope: Option<Id>,
                             lines: seq<CartLine>)
  {
    forall k | 0 <= k < |lines| ::
      MayBackorder(policies, website, lines[k].item) || CarriedIn(around.stock, scope, lines[k])
  }

  /** Every checkout of every run was gated as minted: at some earlier state its cart
      held exactly the minted lines, at a later one the website priced them all, and
      at a later one still every line was backorder-allowed or carried: for a pickup
      in its own store's warehouse, for a delivery in the company aggregate. */
  lemma GatedIsMinted(states: seq<State>, steps: seq<Step>, n: nat, x: Id) returns (v: Evidence)
    requires IsRun(states, steps) && n < |states| && x in states[n].tab.sessions
    ensures v.linesAt <= v.pricesAt <= v.policyAt <= v.stockAt <= n
    ensures var z := states[n].tab.sessions[x];
      && z.order.Some? && z.order.value in states[n].tab.orders && z.cart in states[n].tab.carts
      && var cart, order := states[n].tab.carts[z.cart], states[n].tab.orders[z.order.value];
      && v.lines != []
      && z.cart in states[v.linesAt].around.lines && states[v.linesAt].around.lines[z.cart] == v.lines
      && z.website in states[v.pricesAt].around.prices
      && MintsSnapshot(order.lines, v.lines, states[v.pricesAt].around.prices[z.website])
      && var around, policies := states[v.stockAt].around, states[v.policyAt].around.policies;
      && (cart.mode == Pickup && z.pin.Some? && z.pin.value in around.locations ==>
            AllCarried(around, policies, z.website, around.locations[z.pin.value].warehouse, v.lines))
      && (cart.mode == Delivery || z.pin.None? || z.pin.value !in around.locations ==>
            AllCarried(around, policies, z.website, None, v.lines))
  {
    ReachableBacked(states, steps, n);
    ReachableInv(states, steps, n);
    var z := states[n].tab.sessions[x];
    assert SessionAgrees(states[n].tab, x) && SessionBacked(states, n, states[n].tab, x);
    var cart := states[n].tab.carts[z.cart];
    v :| Backs(states, n, v, z.cart, cart, states[n].tab.orders[z.order.value].lines);
    BackedIsCarried(states, n, v, z.cart, cart, states[n].tab.orders[z.order.value].lines);
  }

  /** The evidence, without the model's own lookups. */
  lemma BackedIsCarried(states: seq<State>, n: nat, v: Evidence, c: Id, cart: Cart, items: seq<OrderLine>)
    requires Backs(states, n, v, c, cart, items)
    ensures c in states[v.linesAt].around.lines && states[v.linesAt].around.lines[c] == v.lines
    ensures cart.website in states[v.pricesAt].around.prices
    ensures MintsSnapshot(items, v.lines, states[v.pricesAt].around.prices[cart.website])
    ensures var around, policies := states[v.stockAt].around, states[v.policyAt].around.policies;
      && (cart.mode == Pickup && cart.pin.Some? && cart.pin.value in around.locations ==>
            AllCarried(around, policies, cart.website, around.locations[cart.pin.value].warehouse, v.lines))
      && (cart.mode == Delivery || cart.pin.None? || cart.pin.value !in around.locations ==>
            AllCarried(around, policies, cart.website, None, v.lines))
  {
    var around := states[v.stockAt].around;
    var scope := if cart.mode == Pickup && cart.pin.Some? && cart.pin.value in around.locations
                 then around.locations[cart.pin.value].warehouse else None;
    GatePassesIff(StockIn(around, ScopeOf(around, cart.mode, cart.pin)), v.policy, v.lines);
    CoveredInScope(around, cart.mode, cart.pin, scope, v.policy, v.lines);
    assert Pricing.Priceable(AtWebsite(states[v.pricesAt].around.prices, cart.website), v.lines[0]);
  }
}
