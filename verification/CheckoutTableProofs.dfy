/** Each kind of table write keeps the tables in order. */
module CheckoutTableProofs {
  import opened StorefrontTypes
  import opened CheckoutState
  import opened CheckoutInvariants
  import opened CheckoutFrames

  /** Confirmations only look at orders, gateway rows, sessions and births. */
  lemma SameConfirmers(t: Tables, u: Tables)
    requires ConfirmersAllowed(t) && Grown(t, u) && u.confirmations == t.confirmations
    requires forall k | k in u.births :: k in t.births
    requires forall o | o in t.orders :: o in u.orders && u.orders[o] == t.orders[o]
    ensures ConfirmersAllowed(u)
  {
    forall i | 0 <= i < |u.confirmations| ensures ConfirmerAllowed(u, u.confirmations[i]) {
      assert ConfirmerAllowed(t, t.confirmations[i]);
    }
  }

  lemma CartsDoNotMatter(t: Tables, carts: map<Id, Cart>)
    requires ConfirmersAllowed(t)
    ensures ConfirmersAllowed(t.(carts := carts))
  {
    var u := t.(carts := carts);
    forall i | 0 <= i < |u.confirmations| ensures ConfirmerAllowed(u, u.confirmations[i]) {
      assert ConfirmerAllowed(t, t.confirmations[i]);
    }
  }

  // ── orders ────────────────────────────────────────────────────────────────

  lemma AddOrderKeepsSessions(t: Tables, o: Id, order: Order)
    requires SessionsAgree(t) && o !in t.orders
    ensures SessionsAgree(t.(orders := t.orders[o := order]))
  {
    var u := t.(orders := t.orders[o := order]);
    forall x | x in u.sessions ensures SessionAgrees(u, x) { assert SessionAgrees(t, x); }
  }

  lemma AddOrderKeeps(t: Tables, o: Id, order: Order)
    requires TablesOk(t) && o !in t.orders && order.status == Draft
    requires forall q | q in t.orders :: t.orders[q].number != order.number
    ensures TablesOk(t.(orders := t.orders[o := order]))
    ensures Grown(t, t.(orders := t.orders[o := order]))
  {
    AddOrderKeepsSessions(t, o, order);
    SameConfirmers(t, t.(orders := t.orders[o := order]));
  }

  /** An order changes nothing but its status, away from Draft. */
  lemma StatusKeepsSessions(t: Tables, u: Tables, o: Id)
    requires SessionsAgree(t) && NumbersUnique(t.orders) && o in t.orders
    requires o in u.orders && u.orders == t.orders[o := t.orders[o].(status := u.orders[o].status)]
    requires u.carts == t.carts && u.sessions == t.sessions && u.gateways == t.gateways
    ensures SessionsAgree(u) && NumbersUnique(u.orders)
  {
    forall x | x in u.sessions ensures SessionAgrees(u, x) { assert SessionAgrees(t, x); }
  }

  lemma StatusKeepsConfirmers(t: Tables, u: Tables, o: Id)
    requires ConfirmersAllowed(t) && o in t.orders && o in u.orders
    requires u.orders == t.orders[o := t.orders[o].(status := u.orders[o].status)] && u.orders[o].status != Draft
    requires u.sessions == t.sessions && u.gateways == t.gateways && u.births == t.births
    ensures forall i | 0 <= i < |t.confirmations| :: ConfirmerAllowed(u, t.confirmations[i])
  {
    forall i | 0 <= i < |t.confirmations| ensures ConfirmerAllowed(u, t.confirmations[i]) {
      assert ConfirmerAllowed(t, t.confirmations[i]);
    }
  }

  /** A draft was never confirmed before, so it is confirmed at most once. */
  lemma ConfirmKeeps(t: Tables, o: Id, who: Confirmer)
    requires TablesOk(t)
    requires o in t.orders && t.orders[o].status == Draft ==>
      ConfirmerAllowed(ConfirmOrder(t, o, who), Confirmation(o, who))
    ensures TablesOk(ConfirmOrder(t, o, who))
    ensures Grown(t, ConfirmOrder(t, o, who))
  {
    if o in t.orders && t.orders[o].status == Draft {
      var u := ConfirmOrder(t, o, who);
      StatusKeepsSessions(t, u, o);
      StatusKeepsConfirmers(t, u, o);
      var n := |t.confirmations|;
      assert ConfirmersAllowed(u) by {
        forall i | 0 <= i < |u.confirmations| ensures ConfirmerAllowed(u, u.confirmations[i]) {
          if i < n { assert u.confirmations[i] == t.confirmations[i]; }
        }
      }
      ConfirmOnceMore(t, o, Confirmation(o, who));
    }
  }

  lemma ConfirmOnceMore(t: Tables, o: Id, e: Confirmation)
    requires ConfirmersAllowed(t) && ConfirmedOnce(t.orders, t.confirmations)
    requires o in t.orders && t.orders[o].status == Draft && e.order == o
    ensures ConfirmedOnce(t.orders[o := t.orders[o].(status := Confirmed)], t.confirmations + [e])
  {
    var n := |t.confirmations|;
    var later := t.confirmations + [e];
    forall i | 0 <= i < n ensures t.confirmations[i].order != o {
      assert ConfirmerAllowed(t, t.confirmations[i]);
    }
    forall q | q in t.orders && (t.orders[q].status == Confirmed || q == o) ensures WasConfirmed(later, q) {
      if q == o { assert later[n].order == o; } else {
        assert WasConfirmed(t.confirmations, q);
        var i :| 0 <= i < n && t.confirmations[i].order == q;
        assert later[i].order == q;
      }
    }
  }

  lemma CancelOrderKeeps(t: Tables, o: Id)
    requires TablesOk(t) && o in t.orders
    ensures TablesOk(CancelOrder(t, o))
    ensures Grown(t, CancelOrder(t, o))
  {
    var u := CancelOrder(t, o);
    StatusKeepsSessions(t, u, o);
    StatusKeepsConfirmers(t, u, o);
  }

  // ── gateway rows ──────────────────────────────────────────────────────────

  lemma AddGatewayKeeps(t: Tables, g: Id, row: GatewayRow)
    requires TablesOk(t) && g !in t.gateways
    ensures TablesOk(t.(gateways := t.gateways[g := row]))
    ensures Grown(t, t.(gateways := t.gateways[g := row]))
  {
    GatewaysGrow(t, t.(gateways := t.gateways[g := row]));
  }

  lemma SettleGatewayKeeps(t: Tables, g: Id)
    requires TablesOk(t) && g in t.gateways
    ensures TablesOk(t.(gateways := t.gateways[g := t.gateways[g].(settled := true)]))
    ensures Grown(t, t.(gateways := t.gateways[g := t.gateways[g].(settled := true)]))
  {
    GatewaysGrow(t, t.(gateways := t.gateways[g := t.gateways[g].(settled := true)]));
  }

  lemma GatewaysGrow(t: Tables, u: Tables)
    requires TablesOk(t) && Grown(t, u) && u == t.(gateways := u.gateways)
    ensures TablesOk(u)
  {
    SameConfirmers(t, u);
    forall x | x in u.sessions ensures SessionAgrees(u, x) { assert SessionAgrees(t, x); }
  }

  // ── carts ─────────────────────────────────────────────────────────────────

  /** No session looks at a cart that is not there or still open. */
  lemma PutOpenCartKeepsSessions(t: Tables, c: Id, row: Cart)
    requires SessionsAgree(t) && (c in t.carts ==> t.carts[c].state == Open)
    ensures SessionsAgree(PutCart(t, c, row))
  {
    var u := PutCart(t, c, row);
    forall x | x in u.sessions ensures SessionAgrees(u, x) { assert SessionAgrees(t, x); }
  }

  lemma PutOpenCartKeepsIndexes(carts: map<Id, Cart>, sessions: map<Id, Session>, c: Id, row: Cart)
    requires PinsMatchMode(carts) && OneOpenCartPerVisitor(carts) && OneSessionPerCart(carts, sessions)
    requires row.state == Open && (row.mode == Pickup <==> row.pin.Some?)
    requires !OtherOpenCart(carts, row.visitor, c)
    ensures PinsMatchMode(carts[c := row]) && OneOpenCartPerVisitor(carts[c := row])
    ensures OneSessionPerCart(carts[c := row], sessions)
  {}

  /** Writing an open cart's row: only the pin rule and the one-open-cart index have
      to be checked. */
  lemma PutOpenCartKeeps(t: Tables, c: Id, row: Cart)
    requires TablesOk(t)
    requires row.state == Open && (row.mode == Pickup <==> row.pin.Some?)
    requires c in t.carts ==> t.carts[c].state == Open && t.carts[c].portalUser == row.portalUser
    requires !OtherOpenCart(t.carts, row.visitor, c)
    ensures TablesOk(PutCart(t, c, row))
    ensures Grown(t, PutCart(t, c, row))
  {
    PutOpenCartKeepsSessions(t, c, row);
    PutOpenCartKeepsIndexes(t.carts, t.sessions, c, row);
    CartsDoNotMatter(t, t.carts[c := row]);
  }

  /** A row that keeps its cart's visitor cannot break the index. */
  lemma SameVisitorIsFree(carts: map<Id, Cart>, c: Id)
    requires OneOpenCartPerVisitor(carts) && c in carts && carts[c].state == Open
    ensures !OtherOpenCart(carts, carts[c].visitor, c)
  {}

  lemma CancelCartKeepsSessions(t: Tables, c: Id)
    requires SessionsAgree(t) && c in t.carts
    ensures SessionsAgree(PutCart(t, c, t.carts[c].(state := CartState.Cancelled)))
  {
    var u := PutCart(t, c, t.carts[c].(state := CartState.Cancelled));
    forall x | x in u.sessions ensures SessionAgrees(u, x) { assert SessionAgrees(t, x); }
  }

  lemma CancelCartKeepsIndexes(carts: map<Id, Cart>, sessions: map<Id, Session>, c: Id)
    requires PinsMatchMode(carts) && OneOpenCartPerVisitor(carts) && OneSessionPerCart(carts, sessions)
    requires c in carts && HasSession(sessions, c)
    ensures var after := carts[c := carts[c].(state := CartState.Cancelled)];
      PinsMatchMode(after) && OneOpenCartPerVisitor(after) && OneSessionPerCart(after, sessions)
  {}

  /** Closing a cart that already has a session. */
  lemma CancelCartKeeps(t: Tables, c: Id)
    requires TablesOk(t) && c in t.carts && HasSession(t.sessions, c)
    ensures TablesOk(PutCart(t, c, t.carts[c].(state := CartState.Cancelled)))
    ensures Grown(t, PutCart(t, c, t.carts[c].(state := CartState.Cancelled)))
  {
    CancelCartKeepsSessions(t, c);
    CancelCartKeepsIndexes(t.carts, t.sessions, c);
    CartsDoNotMatter(t, t.carts[c := t.carts[c].(state := CartState.Cancelled)]);
  }

  // ── sessions ──────────────────────────────────────────────────────────────

  lemma StampKeepsSessions(t: Tables, x: Id, st: SessionState)
    requires SessionsAgree(t) && OneSessionPerCart(t.carts, t.sessions) && x in t.sessions
    ensures SessionsAgree(StampSession(t, x, st))
    ensures OneSessionPerCart(t.carts, StampSession(t, x, st).sessions)
  {
    var u := StampSession(t, x, st);
    forall y | y in u.sessions ensures SessionAgrees(u, y) { assert SessionAgrees(t, y); }
    forall c | c in u.carts && u.carts[c].state != Open ensures HasSession(u.sessions, c) {
      assert HasSession(t.sessions, c);
      var y :| y in t.sessions && t.sessions[y].cart == c;
      assert u.sessions[y].cart == c;
    }
  }

  lemma StampKeepsBirths(t: Tables, x: Id, st: SessionState)
    requires BirthsRecorded(t.sessions, t.births) && x in t.sessions
    requires st == SessionState.Cancelled || (st == Settled && t.births[x] != ConfirmedFree)
    ensures BirthsRecorded(StampSession(t, x, st).sessions, t.births)
  {
    forall y | y in t.sessions ensures BirthAgrees(t.births[y], StampSession(t, x, st).sessions[y]) {
      assert BirthAgrees(t.births[y], t.sessions[y]);
    }
  }

  lemma StampGrows(t: Tables, x: Id, st: SessionState)
    requires x in t.sessions && (st == SessionState.Cancelled || st == Settled)
    ensures Grown(t, StampSession(t, x, st))
  {}

  lemma StampKeeps(t: Tables, x: Id, st: SessionState)
    requires TablesOk(t) && x in t.sessions
    requires st == SessionState.Cancelled || (st == Settled && t.births[x] != ConfirmedFree)
    ensures TablesOk(StampSession(t, x, st))
    ensures Grown(t, StampSession(t, x, st))
  {
    StampGrows(t, x, st);
    StampKeepsBirths(t, x, st);
    StampKeepsSessions(t, x, st);
    SameConfirmers(t, StampSession(t, x, st));
  }

  lemma RecordKeepsOneSession(t: Tables, k: Id, z: Session, row: Cart)
    requires OneSessionPerCart(t.carts, t.sessions) && SessionsAgree(t) && k !in t.sessions
    requires z.cart in t.carts && t.carts[z.cart].state == Open
    ensures OneSessionPerCart(RecordSession(t, k, z, row).carts, RecordSession(t, k, z, row).sessions)
  {
    var u := RecordSession(t, k, z, row);
    forall x | x in t.sessions ensures t.sessions[x].cart != z.cart { assert SessionAgrees(t, x); }
    forall c | c in u.carts && u.carts[c].state != Open ensures HasSession(u.sessions, c) {
      if c == z.cart { assert u.sessions[k].cart == c; } else {
        assert HasSession(t.sessions, c);
        var y :| y in t.sessions && t.sessions[y].cart == c;
        assert u.sessions[y].cart == c;
      }
    }
  }

  lemma RecordKeepsSessions(t: Tables, k: Id, z: Session, row: Cart)
    requires SessionsAgree(t) && k !in t.sessions
    requires z.cart in t.carts && t.carts[z.cart].state == Open
    requires SessionAgrees(RecordSession(t, k, z, row), k)
    ensures SessionsAgree(RecordSession(t, k, z, row))
  {
    var u := RecordSession(t, k, z, row);
    forall x | x in u.sessions ensures SessionAgrees(u, x) {
      if x != k { assert SessionAgrees(t, x); }
    }
  }

  lemma RecordKeepsConfirmers(t: Tables, k: Id, z: Session, row: Cart)
    requires ConfirmersAllowed(t) && k !in t.sessions && k !in t.births
    requires NumbersUnique(t.orders) && z.order.Some? && z.order.value in t.orders
    requires t.orders[z.order.value].number == k
    requires z.state != ConfirmedFree ==> t.orders[z.order.value].status == Draft
    ensures ConfirmersAllowed(RecordSession(t, k, z, row))
  {
    var u := RecordSession(t, k, z, row);
    forall i | 0 <= i < |u.confirmations| ensures ConfirmerAllowed(u, u.confirmations[i]) {
      assert ConfirmerAllowed(t, t.confirmations[i]);
    }
  }

  lemma RecordKeepsCarts(t: Tables, k: Id, z: Session, row: Cart)
    requires PinsMatchMode(t.carts) && OneOpenCartPerVisitor(t.carts)
    requires row.state == Placed && (row.mode == Pickup <==> row.pin.Some?)
    ensures PinsMatchMode(RecordSession(t, k, z, row).carts)
    ensures OneOpenCartPerVisitor(RecordSession(t, k, z, row).carts)
  {}

  lemma RecordGrows(t: Tables, k: Id, z: Session, row: Cart)
    requires BirthsRecorded(t.sessions, t.births) && k !in t.sessions
    requires z.cart in t.carts && row.portalUser == t.carts[z.cart].portalUser
    requires BirthAgrees(z.state, z)
    ensures BirthsRecorded(RecordSession(t, k, z, row).sessions, RecordSession(t, k, z, row).births)
    ensures Grown(t, RecordSession(t, k, z, row))
  {}

  /** The place commit: the new session agrees with its draft, gateway row and the
      flipped cart, and its cart had no session before. */
  lemma RecordKeeps(t: Tables, k: Id, z: Session, row: Cart)
    requires TablesOk(t) && k !in t.sessions
    requires z.cart in t.carts && t.carts[z.cart].state == Open && row.state == Placed
    requires row.mode == Pickup <==> row.pin.Some?
    requires row.portalUser == t.carts[z.cart].portalUser
    requires SessionAgrees(RecordSession(t, k, z, row), k) && BirthAgrees(z.state, z)
    requires z.state != ConfirmedFree ==> t.orders[z.order.value].status == Draft
    ensures TablesOk(RecordSession(t, k, z, row))
    ensures Grown(t, RecordSession(t, k, z, row))
  {
    RecordKeepsCarts(t, k, z, row);
    RecordGrows(t, k, z, row);
    assert SessionAgrees(RecordSession(t, k, z, row), k);
    RecordKeepsOneSession(t, k, z, row);
    RecordKeepsSessions(t, k, z, row);
    RecordKeepsConfirmers(t, k, z, row);
  }

  // ── the shopper-party map ─────────────────────────────────────────────────

  lemma PartiesDoNotMatter(t: Tables, parties: map<Key, Id>)
    requires TablesOk(t)
    ensures TablesOk(t.(parties := parties))
  {
    var u := t.(parties := parties);
    forall i | 0 <= i < |u.confirmations| ensures ConfirmerAllowed(u, u.confirmations[i]) {
      assert ConfirmerAllowed(t, t.confirmations[i]);
    }
    forall x | x in u.sessions ensures SessionAgrees(u, x) { assert SessionAgrees(t, x); }
  }

  lemma CommitBillingKeeps(t: Tables, bill: Billing)
    requires TablesOk(t) && (bill.inserts && bill.key.Some? ==> bill.key.value !in t.parties)
    ensures TablesOk(CommitBilling(t, bill))
    ensures Grown(t, CommitBilling(t, bill))
    ensures CommitBilling(t, bill) == t.(parties := CommitBilling(t, bill).parties)
  {
    PartiesDoNotMatter(t, CommitBilling(t, bill).parties);
  }

  lemma GrownTransitive(t: Tables, u: Tables, v: Tables)
    requires Grown(t, u) && Grown(u, v)
    ensures Grown(t, v)
  {}
}
