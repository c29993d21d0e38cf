/** The visitor-backed wishlist: rows never move, the login reconcile stamps them, and
    the officer's stock alerts discharge armed waits one accepted send at a time. */
module Wishlist {
  import opened StorefrontTypes

  datatype Wish = Wish(
    website: Id, visitor: Id, item: Id, portalUser: Option<Id>, notify: bool, contact: Option<string>,
    created: int, deleted: bool)

  type Wishes = map<Id, Wish>

  // ── the verbs as functions of the rows ────────────────────────────────────

  predicate LiveKey(rows: Wishes, id: Id, website: Id, visitor: Id, item: Id) {
    id in rows && !rows[id].deleted
    && rows[id].website == website && rows[id].visitor == visitor && rows[id].item == item
  }

  /** `visitor_id = $3 OR portal_user_id = $4`: no principal matches no stamp. */
  predicate Owns(row: Wish, visitor: Id, principal: Option<Id>) {
    row.visitor == visitor || (principal.Some? && row.portalUser == principal)
  }

  predicate Removes(row: Wish, website: Id, visitor: Id, principal: Option<Id>, item: Id) {
    !row.deleted && row.website == website && row.item == item && Owns(row, visitor, principal)
  }

  function Removed(rows: Wishes, website: Id, visitor: Id, principal: Option<Id>, item: Id): Wishes {
    map id | id in rows ::
      if Removes(rows[id], website, visitor, principal, item) then rows[id].(notify := false, deleted := true)
      else rows[id]
  }

  predicate OnDevice(row: Wish, website: Id, visitor: Id) {
    !row.deleted && row.website == website && row.visitor == visitor
  }

  function DeviceRows(rows: Wishes, website: Id, visitor: Id): set<Id> {
    set id | id in rows && OnDevice(rows[id], website, visitor)
  }

  function Reconciled(rows: Wishes, website: Id, visitor: Id, user: Id, email: string): Wishes {
    map id | id in rows ::
      if OnDevice(rows[id], website, visitor) then rows[id].(portalUser := Some(user), contact := Some(email))
      else rows[id]
  }

  function ArmedRow(row: Wish, principal: Option<(Id, string)>): Wish {
    if principal.Some? then
      row.(notify := true, portalUser := Some(principal.value.0), contact := Some(principal.value.1))
    else row.(notify := true)
  }

  function Armed(rows: Wishes, website: Id, visitor: Id, item: Id, principal: Option<(Id, string)>): Wishes {
    map id | id in rows ::
      if LiveKey(rows, id, website, visitor, item) then ArmedRow(rows[id], principal) else rows[id]
  }

  /** The arms of these rows cleared. */
  function Cleared(rows: Wishes, accepted: set<Id>): Wishes {
    map id | id in rows :: if id in accepted then rows[id].(notify := false) else rows[id]
  }

  // ── the alert's reads ─────────────────────────────────────────────────────

  predicate Waits(rows: Wishes, id: Id, website: Id, item: Id) {
    id in rows && !rows[id].deleted && rows[id].website == website && rows[id].item == item && rows[id].notify
  }

  function Waiting(rows: Wishes, website: Id, item: Id): set<Id> {
    set id | id in rows && Waits(rows, id, website, item)
  }

  predicate Addressable(row: Wish) {
    row.contact.Some? && row.contact.value != ""
  }

  /** The waiting rows no alert can reach. */
  function Unaddressed(rows: Wishes, website: Id, item: Id): set<Id> {
    set id | id in rows && Waits(rows, id, website, item) && !Addressable(rows[id])
  }

  /** The rows the send read fetches: every waiting addressable row once, with its
      address. */
  ghost predicate IsAlertFetch(rows: Wishes, website: Id, item: Id, fetched: seq<(Id, string)>) {
    && (forall i, j | 0 <= i < j < |fetched| :: fetched[i].0 != fetched[j].0)
    && (forall i | 0 <= i < |fetched| ::
          Waits(rows, fetched[i].0, website, item) && rows[fetched[i].0].contact == Some(fetched[i].1)
          && Addressable(rows[fetched[i].0]))
    && forall id | Waits(rows, id, website, item) && Addressable(rows[id]) ::
         exists i :: 0 <= i < |fetched| && fetched[i].0 == id
  }

  datatype Delivery = Sent | Unwired

  datatype DeliveryState = NothingSent | AllSent | AllUnwired | Mixed

  /** The rows whose send the notifier accepted. */
  function Accepted(fetched: seq<(Id, string)>, answers: seq<Result<Delivery, string>>): set<Id>
    requires |fetched| == |answers|
  {
    set i | 0 <= i < |fetched| && answers[i].Ok? :: fetched[i].0
  }

  predicate Observed(answers: seq<Result<Delivery, string>>, d: Delivery) {
    Ok(d) in answers
  }

  /** The summary's state says which of the two deliveries occurred among the answers. */
  predicate Reports(answers: seq<Result<Delivery, string>>, state: DeliveryState) {
    && (state == AllSent || state == Mixed <==> exists i | 0 <= i < |answers| :: answers[i] == Ok(Sent))
    && (state == AllUnwired || state == Mixed <==> exists i | 0 <= i < |answers| :: answers[i] == Ok(Unwired))
  }

  /** A fetched row whose send was accepted no longer waits; no other row changes. */
  ghost predicate Discharged(before: Wishes, after: Wishes, fetched: seq<(Id, string)>,
                             answers: seq<Result<Delivery, string>>)
  {
    && |answers| == |fetched| && after.Keys == before.Keys
    && (forall i | 0 <= i < |fetched| ::
          fetched[i].0 in before
          && after[fetched[i].0] == if answers[i].Ok? then before[fetched[i].0].(notify := false) else before[fetched[i].0])
    && (forall id | id in before && (forall i | 0 <= i < |fetched| :: fetched[i].0 != id) :: after[id] == before[id])
  }

  datatype Summary = Summary(attempted: nat, sent: nat, skipped: nat, failed: nat, state: DeliveryState)

  datatype WishError = GateRefused(code: string) | NotFound | PortRefused(code: string) | NotInStock | NoSnapshot

  // ── the table, updated in place ───────────────────────────────────────────

  class WishTable {
    var rows: Wishes

    ghost predicate Valid()
      reads this
    {
      RowsOk(rows)
    }

    constructor ()
      ensures Valid() && rows == map[]
    {
      rows := map[];
    }

    /** Idempotent: a live wish for the key answers the existing row. */
    method Add(newId: Id, gate: Result<(), string>, website: Id, visitor: Id, item: Id, now: int)
      returns (r: Result<Id, WishError>)
      requires Valid() && newId !in rows
      modifies this
      ensures Valid()
      ensures gate.Err? ==> r == Err(GateRefused(gate.error)) && rows == old(rows)
      ensures gate.Ok? ==>
        r.Ok? && r.value in rows && !rows[r.value].deleted
        && rows[r.value].website == website && rows[r.value].visitor == visitor && rows[r.value].item == item
      ensures gate.Ok? ==>
        rows == if exists id | id in old(rows) ::
                     !old(rows)[id].deleted && old(rows)[id].website == website && old(rows)[id].visitor == visitor
                     && old(rows)[id].item == item then old(rows)
                else old(rows)[newId := Wish(website, visitor, item, None, false, None, now, false)]
    {
      if gate.Err? { return Err(GateRefused(gate.error)); }
      if id :| id in rows && LiveKey(rows, id, website, visitor, item) {
        r := Ok(id);
      } else {
        rows := rows[newId := Wish(website, visitor, item, None, false, None, now, false)];
        r := Ok(newId);
      }
    }

    /** One statement over the table: every live row of the item that is the device's own
        or stamped with the principal is disarmed and deleted; every other, and so every
        stranger's, is untouched. */
    method Remove(website: Id, visitor: Id, principal: Option<Id>, item: Id) returns (ok: bool)
      requires Valid()
      modifies this
      ensures Valid() && rows.Keys == old(rows).Keys
      ensures forall id | id in old(rows) ::
        var row := old(rows)[id];
        var owned := row.visitor == visitor || exists u :: principal == Some(u) && row.portalUser == Some(u);
        rows[id] == if owned && !row.deleted && row.website == website && row.item == item
                    then row.(notify := false, deleted := true) else row
      ensures ok <==> exists id | id in old(rows) :: rows[id].deleted && !old(rows)[id].deleted
    {
      RemovedKeeps(rows, website, visitor, principal, item);
      ok := RemoveRows(website, visitor, principal, item);
    }

    method RemoveRows(website: Id, visitor: Id, principal: Option<Id>, item: Id) returns (ok: bool)
      modifies this
      ensures rows == Removed(old(rows), website, visitor, principal, item)
      ensures ok <==> exists id | id in old(rows) :: Removes(old(rows)[id], website, visitor, principal, item)
    {
      ghost var before, after := rows, Removed(rows, website, visitor, principal, item);
      var todo := rows.Keys;
      ok := false;
      while todo != {}
        invariant Partly(before, rows, todo, after)
        invariant ok ==> exists id | id in before :: Removes(before[id], website, visitor, principal, item)
        invariant !ok ==> forall id | id in before && id !in todo ::
          !Removes(before[id], website, visitor, principal, item)
        decreases |todo|
      {
        var id :| id in todo;
        PartlyStep(before, rows, todo, after, id);
        if Removes(rows[id], website, visitor, principal, item) {
          rows := rows[id := rows[id].(notify := false, deleted := true)];
          ok := true;
        }
        todo := todo - {id};
      }
      PartlyDone(before, rows, after);
    }

    /** One statement over the table: the device's live rows take the principal's stamp
        and verified address, every other is untouched; the count is theirs. */
    method Reconcile(website: Id, visitor: Id, user: Id, email: string) returns (stamped: nat)
      requires Valid()
      modifies this
      ensures Valid() && rows.Keys == old(rows).Keys
      ensures forall id | id in old(rows) ::
        var row := old(rows)[id];
        rows[id] == if !row.deleted && row.website == website && row.visitor == visitor
                    then row.(portalUser := Some(user), contact := Some(email)) else row
      ensures stamped == |set id | id in old(rows) && !old(rows)[id].deleted
                                   && old(rows)[id].website == website && old(rows)[id].visitor == visitor|
    {
      assert DeviceRows(rows, website, visitor)
             == set id | id in rows && !rows[id].deleted && rows[id].website == website && rows[id].visitor == visitor;
      ReconciledKeeps(rows, website, visitor, user, email);
      stamped := StampRows(website, visitor, user, email);
    }

    method StampRows(website: Id, visitor: Id, user: Id, email: string) returns (stamped: nat)
      modifies this
      ensures rows == Reconciled(old(rows), website, visitor, user, email)
      ensures stamped == |DeviceRows(old(rows), website, visitor)|
    {
      ghost var before, after := rows, Reconciled(rows, website, visitor, user, email);
      var todo := rows.Keys;
      stamped := 0;
      while todo != {}
        invariant Partly(before, rows, todo, after)
        invariant stamped == |DeviceRows(before, website, visitor) - todo|
        decreases |todo|
      {
        var id :| id in todo;
        PartlyStep(before, rows, todo, after, id);
        CountStep(DeviceRows(before, website, visitor), todo, id);
        if OnDevice(rows[id], website, visitor) {
          rows := rows[id := rows[id].(portalUser := Some(user), contact := Some(email))];
          stamped := stamped + 1;
        }
        todo := todo - {id};
      }
      assert DeviceRows(before, website, visitor) - {} == DeviceRows(before, website, visitor);
      PartlyDone(before, rows, after);
    }

    /** One statement over the table: the caller's own live row of the item is armed (and
        stamped, for a principal), every other is untouched; arming creates no row. */
    method ArmNotify(website: Id, visitor: Id, item: Id, principal: Option<(Id, string)>) returns (ok: bool)
      requires Valid()
      modifies this
      ensures Valid() && rows.Keys == old(rows).Keys
      ensures forall id | id in old(rows) ::
        var row := old(rows)[id];
        var mine := !row.deleted && row.website == website && row.visitor == visitor && row.item == item;
        && (!mine ==> rows[id] == row)
        && (mine && principal.None? ==> rows[id] == row.(notify := true))
        && (mine && principal.Some? ==>
              rows[id] == row.(notify := true, portalUser := Some(principal.value.0), contact := Some(principal.value.1)))
      ensures ok <==> exists id | id in old(rows) ::
        !old(rows)[id].deleted && old(rows)[id].website == website && old(rows)[id].visitor == visitor
        && old(rows)[id].item == item
    {
      ArmedKeeps(rows, website, visitor, item, principal);
      ok := ArmRows(website, visitor, item, principal);
    }

    method ArmRows(website: Id, visitor: Id, item: Id, principal: Option<(Id, string)>) returns (ok: bool)
      modifies this
      ensures rows == Armed(old(rows), website, visitor, item, principal)
      ensures ok <==> exists id | id in old(rows) :: LiveKey(old(rows), id, website, visitor, item)
    {
      ghost var before, after := rows, Armed(rows, website, visitor, item, principal);
      var todo := rows.Keys;
      ok := false;
      while todo != {}
        invariant Partly(before, rows, todo, after)
        invariant ok ==> exists id | id in before :: LiveKey(before, id, website, visitor, item)
        invariant !ok ==> forall id | id in before && id !in todo :: !LiveKey(before, id, website, visitor, item)
        decreases |todo|
      {
        var id :| id in todo;
        PartlyStep(before, rows, todo, after, id);
        if LiveKey(rows, id, website, visitor, item) {
          rows := rows[id := ArmedRow(rows[id], principal)];
          ok := true;
        }
        todo := todo - {id};
      }
      PartlyDone(before, rows, after);
    }

    /** The officer's explicit send for one item: refused unless stock returned, then
        one message per waiting addressable row; only an accepted one clears its arm. */
    method SendStockAlerts(website: Id, item: Id, free: Result<real, string>, snapshot: Result<bool, string>,
                           fetched: seq<(Id, string)>, answers: seq<Result<Delivery, string>>)
      returns (r: Result<Summary, WishError>)
      requires Valid() && IsAlertFetch(rows, website, item, fetched) && |answers| == |fetched|
      modifies this
      ensures Valid()
      ensures r.Err? ==> rows == old(rows)
      ensures r.Ok? <==> free.Ok? && free.value > 0.0 && snapshot == Ok(true)
      ensures r.Ok? ==>
        && Discharged(old(rows), rows, fetched, answers)
        && r.value.attempted == |Waiting(old(rows), website, item)|
        && r.value.attempted == r.value.sent + r.value.failed + r.value.skipped
        && r.value.sent == |Accepted(fetched, answers)|
        && r.value.sent + r.value.failed == |Waiting(old(rows), website, item) - Unaddressed(old(rows), website, item)|
        && r.value.skipped == |Unaddressed(old(rows), website, item)|
        && Reports(answers, r.value.state)
    {
      if free.Err? { return Err(PortRefused(free.error)); }
      if free.value <= 0.0 { return Err(NotInStock); }
      if snapshot.Err? { return Err(PortRefused(snapshot.error)); }
      if !snapshot.value { return Err(NoSnapshot); }
      ghost var before := rows;
      var attempted := |Waiting(rows, website, item)|;
      FetchedAreWaiting(rows, website, item, fetched);
      ClearedKeeps(before, Accepted(fetched, answers));
      ClearedIsDischarged(before, fetched, answers);
      var sent, failed, state := SendAll(fetched, answers);
      var skipped := if attempted < |fetched| then 0 else attempted - |fetched|;
      r := Ok(Summary(attempted, sent, skipped, failed, state));
    }

    /** The send's loop over the fetched rows. */
    method SendAll(fetched: seq<(Id, string)>, answers: seq<Result<Delivery, string>>)
      returns (sent: nat, failed: nat, state: DeliveryState)
      requires |answers| == |fetched|
      requires forall i | 0 <= i < |fetched| :: fetched[i].0 in rows
      requires forall i, j | 0 <= i < j < |fetched| :: fetched[i].0 != fetched[j].0
      modifies this
      ensures rows == Cleared(old(rows), Accepted(fetched, answers))
      ensures sent == |Accepted(fetched, answers)| && sent + failed == |fetched|
      ensures Reports(answers, state)
    {
      ghost var before := rows;
      sent, failed := 0, 0;
      var sawSent, sawUnwired := false, false;
      assert Cleared(rows, {}) == rows;
      for i := 0 to |fetched|
        invariant rows == Cleared(before, Accepted(fetched[..i], answers[..i]))
        invariant sent + failed == i && sent == |Accepted(fetched[..i], answers[..i])|
        invariant sawSent == Observed(answers[..i], Sent) && sawUnwired == Observed(answers[..i], Unwired)
      {
        AcceptedGrows(fetched, answers, i);
        ObservedGrows(answers, i);
        if answers[i].Ok? {
          ClearOneMore(before, Accepted(fetched[..i], answers[..i]), fetched[i].0);
          if answers[i].value == Sent { sawSent := true; } else { sawUnwired := true; }
          rows := rows[fetched[i].0 := rows[fetched[i].0].(notify := false)];
          sent := sent + 1;
        } else {
          failed := failed + 1;
        }
      }
      assert fetched[..|fetched|] == fetched && answers[..|answers|] == answers;
      state := if sawSent && sawUnwired then Mixed else if sawSent then AllSent
               else if sawUnwired then AllUnwired else NothingSent;
    }
  }

  /** A fetched row is accepted exactly when its own send was, and no other row is. */
  lemma AcceptedIs(fetched: seq<(Id, string)>, answers: seq<Result<Delivery, string>>)
    requires |answers| == |fetched| && forall i, j | 0 <= i < j < |fetched| :: fetched[i].0 != fetched[j].0
    ensures forall i | 0 <= i < |fetched| :: fetched[i].0 in Accepted(fetched, answers) <==> answers[i].Ok?
    ensures forall id | (forall i | 0 <= i < |fetched| :: fetched[i].0 != id) :: id !in Accepted(fetched, answers)
  {
    forall i | 0 <= i < |fetched| ensures fetched[i].0 in Accepted(fetched, answers) <==> answers[i].Ok? {
      if fetched[i].0 in Accepted(fetched, answers) {
        var j :| 0 <= j < |fetched| && answers[j].Ok? && fetched[j].0 == fetched[i].0;
        assert i == j;
      }
    }
  }

  lemma ClearedIsDischarged(rows: Wishes, fetched: seq<(Id, string)>, answers: seq<Result<Delivery, string>>)
    requires |answers| == |fetched| && forall i, j | 0 <= i < j < |fetched| :: fetched[i].0 != fetched[j].0
    requires forall i | 0 <= i < |fetched| :: fetched[i].0 in rows
    ensures Discharged(rows, Cleared(rows, Accepted(fetched, answers)), fetched, answers)
  {
    AcceptedIs(fetched, answers);
  }

  /** The send reaches exactly the live rows of the item on the website that wait for it
      with an address, once each, and leaves out those that wait without one. */
  lemma AlertsReach(rows: Wishes, website: Id, item: Id, fetched: seq<(Id, string)>, id: Id)
    requires IsAlertFetch(rows, website, item, fetched)
    ensures (exists i :: 0 <= i < |fetched| && fetched[i].0 == id)
            <==> id in rows && !rows[id].deleted && rows[id].website == website && rows[id].item == item
                 && rows[id].notify && rows[id].contact.Some? && rows[id].contact.value != ""
    ensures id in Unaddressed(rows, website, item)
            <==> id in rows && !rows[id].deleted && rows[id].website == website && rows[id].item == item
                 && rows[id].notify && (rows[id].contact.None? || rows[id].contact == Some(""))
    ensures id in Waiting(rows, website, item)
            <==> id in Unaddressed(rows, website, item) || exists i :: 0 <= i < |fetched| && fetched[i].0 == id
    ensures forall i | 0 <= i < |fetched| && fetched[i].0 == id :: id in rows && rows[id].contact == Some(fetched[i].1)
  {}

  lemma ClearOneMore(rows: Wishes, accepted: set<Id>, id: Id)
    requires id in rows
    ensures var now := Cleared(rows, accepted);
      Cleared(rows, accepted + {id}) == now[id := now[id].(notify := false)]
  {}

  // ── one statement, row by row ─────────────────────────────────────────────

  /** The rows still to do are as before, the others as after. */
  ghost predicate Partly(before: Wishes, rows: Wishes, todo: set<Id>, after: Wishes) {
    rows.Keys == before.Keys == after.Keys && todo <= before.Keys
    && forall id | id in before :: rows[id] == if id in todo then before[id] else after[id]
  }

  lemma PartlyStep(before: Wishes, rows: Wishes, todo: set<Id>, after: Wishes, id: Id)
    requires Partly(before, rows, todo, after) && id in todo
    ensures rows[id] == before[id]
    ensures Partly(before, rows[id := after[id]], todo - {id}, after)
    ensures after[id] == before[id] ==> Partly(before, rows, todo - {id}, after)
  {}

  lemma PartlyDone(before: Wishes, rows: Wishes, after: Wishes)
    requires Partly(before, rows, {}, after)
    ensures rows == after
  {}

  lemma CountStep(all: set<Id>, todo: set<Id>, id: Id)
    requires id in todo
    ensures |all - (todo - {id})| == |all - todo| + if id in all then 1 else 0
  {
    if id in all {
      assert all - (todo - {id}) == (all - todo) + {id};
    } else {
      assert all - (todo - {id}) == all - todo;
    }
  }

  lemma ObservedGrows(answers: seq<Result<Delivery, string>>, i: nat)
    requires i < |answers|
    ensures forall d :: Observed(answers[..i + 1], d) <==> Observed(answers[..i], d) || answers[i] == Ok(d)
  {
    assert answers[..i + 1] == answers[..i] + [answers[i]];
  }

  lemma AcceptedGrows(fetched: seq<(Id, string)>, answers: seq<Result<Delivery, string>>, i: nat)
    requires i < |fetched| == |answers|
    requires forall j, k | 0 <= j < k < |fetched| :: fetched[j].0 != fetched[k].0
    ensures fetched[i].0 !in Accepted(fetched[..i], answers[..i])
    ensures Accepted(fetched[..i + 1], answers[..i + 1])
            == Accepted(fetched[..i], answers[..i]) + if answers[i].Ok? then {fetched[i].0} else {}
  {}

  lemma {:induction false} DistinctCount(fetched: seq<(Id, string)>)
    requires forall i, j | 0 <= i < j < |fetched| :: fetched[i].0 != fetched[j].0
    ensures |set f | f in fetched :: f.0| == |fetched|
  {
    if fetched != [] {
      var n := |fetched| - 1;
      DistinctCount(fetched[..n]);
      assert fetched == fetched[..n] + [fetched[n]];
      assert (set f | f in fetched :: f.0) == (set f | f in fetched[..n] :: f.0) + {fetched[n].0};
    }
  }

  /** The send fetches the waiting rows but those it cannot address. */
  lemma FetchedAreWaiting(rows: Wishes, website: Id, item: Id, fetched: seq<(Id, string)>)
    requires IsAlertFetch(rows, website, item, fetched)
    ensures var waiting, missed := Waiting(rows, website, item), Unaddressed(rows, website, item);
      |waiting - missed| == |fetched| && |waiting| == |fetched| + |missed|
  {
    var waiting, missed := Waiting(rows, website, item), Unaddressed(rows, website, item);
    DistinctCount(fetched);
    assert (set f | f in fetched :: f.0) == waiting - missed;
    assert waiting == (waiting - missed) + missed;
  }

  // ── what every verb keeps ─────────────────────────────────────────────────

  /** One live row per key, no deleted row armed, and an address only on a row with a
      principal's stamp. */
  ghost predicate RowsOk(rows: Wishes) {
    && (forall a, b | a in rows && b in rows && !rows[a].deleted && !rows[b].deleted
                      && rows[a].website == rows[b].website && rows[a].visitor == rows[b].visitor
                      && rows[a].item == rows[b].item :: a == b)
    && (forall id | id in rows :: rows[id].deleted ==> !rows[id].notify)
    && (forall id | id in rows :: rows[id].contact.Some? ==> rows[id].portalUser.Some?)
  }

  /** No row is lost, none moves to another website, visitor or item, and a deleted
      one stays deleted. */
  ghost predicate Kept(before: Wishes, after: Wishes) {
    forall id | id in before ::
      id in after && after[id].website == before[id].website && after[id].visitor == before[id].visitor
      && after[id].item == before[id].item && after[id].created == before[id].created
      && (before[id].deleted ==> after[id].deleted)
  }

  lemma RemovedKeeps(rows: Wishes, website: Id, visitor: Id, principal: Option<Id>, item: Id)
    requires RowsOk(rows)
    ensures RowsOk(Removed(rows, website, visitor, principal, item))
    ensures Kept(rows, Removed(rows, website, visitor, principal, item))
  {}

  lemma ReconciledKeeps(rows: Wishes, website: Id, visitor: Id, user: Id, email: string)
    requires RowsOk(rows)
    ensures RowsOk(Reconciled(rows, website, visitor, user, email))
    ensures Kept(rows, Reconciled(rows, website, visitor, user, email))
  {}

  lemma ArmedKeeps(rows: Wishes, website: Id, visitor: Id, item: Id, principal: Option<(Id, string)>)
    requires RowsOk(rows)
    ensures RowsOk(Armed(rows, website, visitor, item, principal))
    ensures Kept(rows, Armed(rows, website, visitor, item, principal))
  {}

  lemma ClearedKeeps(rows: Wishes, accepted: set<Id>)
    requires RowsOk(rows)
    ensures RowsOk(Cleared(rows, accepted)) && Kept(rows, Cleared(rows, accepted))
  {}

  /** After a send, the waiting rows of every item are those before less the accepted
      ones: a failed or skipped row keeps its wait, an accepted one is not written
      again until it is armed again. */
  lemma WaitingAfterSend(rows: Wishes, accepted: set<Id>, website: Id, item: Id)
    ensures Waiting(Cleared(rows, accepted), website, item) == Waiting(rows, website, item) - accepted
  {
    var after := Cleared(rows, accepted);
    forall id ensures id in Waiting(after, website, item) <==> id in Waiting(rows, website, item) - accepted {}
  }

  // ── runs ──────────────────────────────────────────────────────────────────

  datatype Verb =
    | AddWish(newId: Id, website: Id, visitor: Id, item: Id, now: int)
    | RemoveWish(website: Id, visitor: Id, principal: Option<Id>, item: Id)
    | ReconcileWishes(website: Id, visitor: Id, user: Id, email: string)
    | ArmWish(website: Id, visitor: Id, item: Id, login: Option<(Id, string)>)
    | ClearArms(accepted: set<Id>)

  /** The rows after one verb. An insert whose id or key is taken adds nothing. */
  function After(rows: Wishes, verb: Verb): Wishes {
    match verb
    case AddWish(newId, website, visitor, item, now) =>
      if newId in rows || exists id | id in rows :: LiveKey(rows, id, website, visitor, item) then rows
      else rows[newId := Wish(website, visitor, item, None, false, None, now, false)]
    case RemoveWish(website, visitor, principal, item) => Removed(rows, website, visitor, principal, item)
    case ReconcileWishes(website, visitor, user, email) => Reconciled(rows, website, visitor, user, email)
    case ArmWish(website, visitor, item, principal) => Armed(rows, website, visitor, item, principal)
    case ClearArms(accepted) => Cleared(rows, accepted)
  }

  function Run(rows: Wishes, verbs: seq<Verb>): Wishes
    decreases |verbs|
  {
    if verbs == [] then rows else Run(After(rows, verbs[0]), verbs[1..])
  }

  lemma AfterKeeps(rows: Wishes, verb: Verb)
    requires RowsOk(rows)
    ensures RowsOk(After(rows, verb)) && Kept(rows, After(rows, verb))
  {
    match verb
    case AddWish(newId, website, visitor, item, now) =>
    case RemoveWish(website, visitor, principal, item) => RemovedKeeps(rows, website, visitor, principal, item);
    case ReconcileWishes(website, visitor, user, email) => ReconciledKeeps(rows, website, visitor, user, email);
    case ArmWish(website, visitor, item, principal) => ArmedKeeps(rows, website, visitor, item, principal);
    case ClearArms(accepted) => ClearedKeeps(rows, accepted);
  }

  lemma KeptTransitive(a: Wishes, b: Wishes, c: Wishes)
    requires Kept(a, b) && Kept(b, c)
    ensures Kept(a, c)
  {}

  /** Over every sequence of wishlist verbs: rows never move and are never lost, a
      deleted row is never armed, an address never stands without a principal's stamp. */
  lemma {:induction false} RunKeeps(rows: Wishes, verbs: seq<Verb>)
    requires RowsOk(rows)
    ensures RowsOk(Run(rows, verbs)) && Kept(rows, Run(rows, verbs))
    decreases |verbs|
  {
    if verbs != [] {
      AfterKeeps(rows, verbs[0]);
      RunKeeps(After(rows, verbs[0]), verbs[1..]);
      KeptTransitive(rows, After(rows, verbs[0]), Run(rows, verbs));
    }
  }

  // ── the union read ────────────────────────────────────────────────────────

  predicate Earlier(rows: Wishes, a: Id, b: Id)
    requires a in rows && b in rows
  {
    rows[a].created < rows[b].created || (rows[a].created == rows[b].created && a < b)
  }

  predicate InUnion(rows: Wishes, id: Id, website: Id, visitor: Id, principal: Option<Id>) {
    id in rows && !rows[id].deleted && rows[id].website == website && Owns(rows[id], visitor, principal)
  }

  /** The read's answer: the device's own and the principal's rows, oldest first. */
  ghost predicate IsUnionRead(rows: Wishes, website: Id, visitor: Id, principal: Option<Id>, out: seq<Id>) {
    && (forall k | 0 <= k < |out| :: InUnion(rows, out[k], website, visitor, principal))
    && (forall id | InUnion(rows, id, website, visitor, principal) :: id in out)
    && forall j, k | 0 <= j < k < |out| :: Earlier(rows, out[j], out[k])
  }

  /** The read has one answer: its order leaves no tie. */
  lemma UnionReadIsUnique(rows: Wishes, website: Id, visitor: Id, principal: Option<Id>,
                                             s: seq<Id>, t: seq<Id>)
    requires IsUnionRead(rows, website, visitor, principal, s) && IsUnionRead(rows, website, visitor, principal, t)
    ensures s == t
  {
    SameSortedMembers(rows, s, t);
  }

  /** What the read shows: every live row of the website that is the visitor's own or
      stamped with the principal, and nobody else's; an older row before a younger one. */
  lemma UnionReadIsOwn(rows: Wishes, website: Id, visitor: Id, principal: Option<Id>, out: seq<Id>)
    requires IsUnionRead(rows, website, visitor, principal, out)
    ensures forall id :: id in out <==>
      id in rows && !rows[id].deleted && rows[id].website == website
      && (rows[id].visitor == visitor || exists u :: principal == Some(u) && rows[id].portalUser == Some(u))
    ensures forall j, k | 0 <= j < k < |out| ::
      out[j] in rows && out[k] in rows && rows[out[j]].created <= rows[out[k]].created
      && (rows[out[j]].created == rows[out[k]].created ==> out[j] < out[k])
  {
    forall id ensures id in out <==> InUnion(rows, id, website, visitor, principal) {}
  }

  ghost predicate InTimeOrder(rows: Wishes, s: seq<Id>) {
    (forall k | 0 <= k < |s| :: s[k] in rows) && forall j, k | 0 <= j < k < |s| :: Earlier(rows, s[j], s[k])
  }

  lemma FirstIsTheSame(rows: Wishes, s: seq<Id>, t: seq<Id>)
    requires InTimeOrder(rows, s) && InTimeOrder(rows, t) && s != []
    requires forall id :: id in s <==> id in t
    ensures t != [] && s[0] == t[0]
  {
    assert s[0] in t;
    assert t[0] in s;
    var j :| 0 <= j < |t| && t[j] == s[0];
    var k :| 0 <= k < |s| && s[k] == t[0];
    if j > 0 && k > 0 { assert false; }
  }

  lemma RestHasTheRest(rows: Wishes, s: seq<Id>, id: Id)
    requires InTimeOrder(rows, s) && s != []
    ensures id in s[1..] <==> id in s && id != s[0]
  {
    assert s == [s[0]] + s[1..];
    if id in s[1..] {
      var i :| 1 <= i < |s| && s[i] == id;
      assert Earlier(rows, s[0], s[i]);
    }
  }

  lemma {:induction false} SameSortedMembers(rows: Wishes, s: seq<Id>, t: seq<Id>)
    requires InTimeOrder(rows, s) && InTimeOrder(rows, t)
    requires forall id :: id in s <==> id in t
    ensures s == t
  {
    if t != [] {
      FirstIsTheSame(rows, t, s);
      forall id ensures id in s[1..] <==> id in t[1..] {
        RestHasTheRest(rows, s, id);
        RestHasTheRest(rows, t, id);
      }
      SameSortedMembers(rows, s[1..], t[1..]);
      assert s == [s[0]] + s[1..] && t == [t[0]] + t[1..];
    } else if s != [] {
      FirstIsTheSame(rows, s, t);
    }
  }

  /** Right after a device's rows are reconciled with a principal, the principal's read
      from any device carries each of them exactly once, with the principal's address,
      and still everything it carried before. */
  lemma ReconcileCarriesTheDevice(rows: Wishes, website: Id, visitor: Id, user: Id, email: string,
                                  device: Id, out: seq<Id>, id: Id)
    requires RowsOk(rows)
    requires IsUnionRead(Reconciled(rows, website, visitor, user, email), website, device, Some(user), out)
    ensures id in rows && OnDevice(rows[id], website, visitor) ==>
      exists k :: 0 <= k < |out| && out[k] == id && forall j | 0 <= j < |out| && j != k :: out[j] != id
    ensures id in rows && OnDevice(rows[id], website, visitor) ==>
      Reconciled(rows, website, visitor, user, email)[id]
      == rows[id].(portalUser := Some(user), contact := Some(email))
    ensures InUnion(rows, id, website, device, Some(user)) ==> id in out
  {
    var after := Reconciled(rows, website, visitor, user, email);
    if id in rows && OnDevice(rows[id], website, visitor) {
      assert InUnion(after, id, website, device, Some(user));
      var k :| 0 <= k < |out| && out[k] == id;
      forall j | 0 <= j < |out| && j != k ensures out[j] != id {
        if j < k { assert Earlier(after, out[j], out[k]); } else { assert Earlier(after, out[k], out[j]); }
      }
    }
    if InUnion(rows, id, website, device, Some(user)) {
      assert InUnion(after, id, website, device, Some(user));
    }
  }
}
