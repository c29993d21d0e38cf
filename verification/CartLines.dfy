/** The line verbs of one cart: a repeat item folds onto its line, removals are
    soft, and quantities are stored at four decimals. */
module CartLines {
  import opened StorefrontTypes
  import Availability

  // ── stored quantities ─────────────────────────────────────────────────────

  /** The quantity column keeps four decimals: a value is rounded to the nearest,
      ties away from zero. All quantities written are non-negative. */
  function Stored(q: real): real {
    (q * 10000.0 + 0.5).Floor as real / 10000.0
  }

  predicate OnGrid(q: real) {
    q == Stored(q)
  }

  /** The column's eighteen digits leave fourteen before the point. */
  predicate Fits(q: real) {
    Stored(q) < 100000000000000.0
  }

  lemma StoredShifts(n: int, q: real)
    ensures Stored(n as real / 10000.0 + q) == n as real / 10000.0 + Stored(q)
  {
    var x := q * 10000.0 + 0.5;
    assert (n as real / 10000.0 + q) * 10000.0 + 0.5 == n as real + x;
    assert (n as real + x).Floor == n + x.Floor;
  }

  /** Rounding the fold's sum is adding the rounded addend. */
  lemma StoredAdds(a: real, q: real)
    requires OnGrid(a)
    ensures Stored(a + q) == a + Stored(q)
  {
    StoredShifts((a * 10000.0 + 0.5).Floor, q);
  }

  lemma StoredIsOnGrid(q: real)
    ensures OnGrid(Stored(q))
  {
    StoredShifts((q * 10000.0 + 0.5).Floor, 0.0);
  }

  /** Half a step is the least quantity that is not stored as zero. */
  lemma StoredPositiveIff(q: real)
    requires q >= 0.0
    ensures Stored(q) >= 0.0
    ensures Stored(q) > 0.0 <==> q >= 0.00005
  {
    var n := (q * 10000.0 + 0.5).Floor;
    assert n >= 0;
    assert n > 0 <==> q * 10000.0 + 0.5 >= 1.0;
  }

  /** The stored value is the one multiple of a ten-thousandth nearest to the quantity,
      the greater of two as near. */
  lemma StoredIsNearest(q: real, n: int)
    ensures Stored(q) == n as real / 10000.0 <==> -0.00005 < n as real / 10000.0 - q <= 0.00005
  {
    var x := q * 10000.0 + 0.5;
    assert Stored(q) == n as real / 10000.0 <==> x.Floor == n;
    assert x.Floor == n <==> n as real <= x < n as real + 1.0;
  }

  // ── lines and their lookups ───────────────────────────────────────────────

  /** A line row; a removed one stays behind, deleted. */
  datatype LineRow = LineRow(id: Id, item: Id, quantity: real, deleted: bool)

  /** The first live row of an item, or the number of rows. */
  function ItemAt(rows: seq<LineRow>, item: Id): (k: nat)
    ensures k <= |rows|
    ensures k < |rows| ==> !rows[k].deleted && rows[k].item == item
    ensures forall j | 0 <= j < k :: rows[j].deleted || rows[j].item != item
  {
    if rows == [] || (!rows[0].deleted && rows[0].item == item) then 0 else ItemAt(rows[1..], item) + 1
  }

  /** The live row with this id, or the number of rows. */
  function LineAt(rows: seq<LineRow>, id: Id): (k: nat)
    ensures k <= |rows|
    ensures k < |rows| ==> !rows[k].deleted && rows[k].id == id
    ensures forall j | 0 <= j < k :: rows[j].deleted || rows[j].id != id
  {
    if rows == [] || (!rows[0].deleted && rows[0].id == id) then 0 else LineAt(rows[1..], id) + 1
  }

  function LiveCount(rows: seq<LineRow>): (n: nat)
    ensures n <= |rows|
  {
    if rows == [] then 0 else (if rows[0].deleted then 0 else 1) + LiveCount(rows[1..])
  }

  // ── the verbs as functions of the rows ────────────────────────────────────

  datatype LineError =
    | InvalidQuantity
    | CartNotOpen
    | GateRefused(code: string)
    | LineLimitExceeded
    | StockRefused(why: Availability.StockRefusal)
    | LineNotFound
    | NumericOverflow

  /** What one call reads besides the lines: the publish gate's answers, the sold-out
      policy and the stock port, and the cart row's state. */
  datatype Doors = Doors(
    open: bool, gate: Id -> Result<Availability.Unit, string>,
    policy: map<Id, bool>, stock: Availability.SinglePort)

  /** Why a quantity is refused for an item, in the order the checks run. */
  function Refusal(doors: Doors, item: Id, quantity: real): Option<LineError> {
    if doors.gate(item).Err? then Some(GateRefused(doors.gate(item).error))
    else
      var clamp := Availability.ClampQuantity(doors.policy, doors.stock, item, quantity);
      if clamp.Err? then Some(StockRefused(clamp.error))
      else if !Fits(quantity) then Some(NumericOverflow)
      else None
  }

  function SetVerdict(rows: seq<LineRow>, doors: Doors, line: Id, quantity: real): Option<LineError> {
    if quantity <= 0.0 then Some(InvalidQuantity)
    else if !doors.open then Some(CartNotOpen)
    else if LineAt(rows, line) == |rows| then Some(LineNotFound)
    else Refusal(doors, rows[LineAt(rows, line)].item, quantity)
  }

  function AddVerdict(rows: seq<LineRow>, bound: nat, doors: Doors, item: Id, quantity: real): Option<LineError> {
    var k := ItemAt(rows, item);
    if quantity <= 0.0 then Some(InvalidQuantity)
    else if !doors.open then Some(CartNotOpen)
    else if doors.gate(item).Err? then Some(GateRefused(doors.gate(item).error))
    else if k < |rows| then SetVerdict(rows, doors, rows[k].id, rows[k].quantity + quantity)
    else if LiveCount(rows) >= bound then Some(LineLimitExceeded)
    else Refusal(doors, item, quantity)
  }

  function RemoveVerdict(rows: seq<LineRow>, doors: Doors, line: Id): Option<LineError> {
    if !doors.open then Some(CartNotOpen)
    else if LineAt(rows, line) == |rows| then Some(LineNotFound)
    else None
  }

  function SetRows(rows: seq<LineRow>, line: Id, quantity: real): seq<LineRow>
    requires LineAt(rows, line) < |rows|
  {
    var k := LineAt(rows, line);
    rows[k := rows[k].(quantity := Stored(quantity))]
  }

  function AddRows(rows: seq<LineRow>, id: Id, item: Id, quantity: real): seq<LineRow> {
    var k := ItemAt(rows, item);
    if k < |rows| && LineAt(rows, rows[k].id) < |rows| then SetRows(rows, rows[k].id, rows[k].quantity + quantity)
    else rows + [LineRow(id, item, Stored(quantity), false)]
  }

  function RemoveRows(rows: seq<LineRow>, line: Id): seq<LineRow>
    requires LineAt(rows, line) < |rows|
  {
    var k := LineAt(rows, line);
    rows[k := rows[k].(deleted := true)]
  }

  // ── the cart, updated in place ────────────────────────────────────────────

  class LineTable {
    var rows: seq<LineRow>
    const bound: nat

    constructor (bound: nat)
      ensures rows == [] && this.bound == bound
    {
      rows := [];
      this.bound := bound;
    }

    method FindItem(item: Id) returns (k: nat)
      ensures k == ItemAt(rows, item)
    {
      k := 0;
      while k < |rows| && (rows[k].deleted || rows[k].item != item)
        invariant 0 <= k <= |rows|
        invariant ItemAt(rows, item) == k + ItemAt(rows[k..], item)
      {
        assert rows[k..][1..] == rows[k + 1..];
        k := k + 1;
      }
    }

    method FindLine(line: Id) returns (k: nat)
      ensures k == LineAt(rows, line)
    {
      k := 0;
      while k < |rows| && (rows[k].deleted || rows[k].id != line)
        invariant 0 <= k <= |rows|
        invariant LineAt(rows, line) == k + LineAt(rows[k..], line)
      {
        assert rows[k..][1..] == rows[k + 1..];
        k := k + 1;
      }
    }

    method CountLive() returns (n: nat)
      ensures n == LiveCount(rows)
    {
      n := 0;
      for k := 0 to |rows|
        invariant n + LiveCount(rows[k..]) == LiveCount(rows)
      {
        assert rows[k..][1..] == rows[k + 1..];
        if !rows[k].deleted { n := n + 1; }
      }
    }

    /** Every row reads as before but the set line's quantity; a refusal writes
        nothing. */
    method SetLineQuantity(doors: Doors, line: Id, quantity: real) returns (r: Option<LineError>)
      modifies this
      ensures r == SetVerdict(old(rows), doors, line, quantity)
      ensures rows == if r.None? then SetRows(old(rows), line, quantity) else old(rows)
    {
      if quantity <= 0.0 { return Some(InvalidQuantity); }
      if !doors.open { return Some(CartNotOpen); }
      var k := FindLine(line);
      if k == |rows| { return Some(LineNotFound); }
      var gate := doors.gate(rows[k].item);
      if gate.Err? { return Some(GateRefused(gate.error)); }
      var clamp := Availability.ClampQuantity(doors.policy, doors.stock, rows[k].item, quantity);
      if clamp.Err? { return Some(StockRefused(clamp.error)); }
      if !Fits(quantity) { return Some(NumericOverflow); }
      rows := rows[k := rows[k].(quantity := Stored(quantity))];
      r := None;
    }

    /** A repeat item grows its line; a new one appends a row under the bound. */
    method AddLine(doors: Doors, id: Id, item: Id, quantity: real) returns (r: Option<LineError>)
      requires forall k | 0 <= k < |rows| :: rows[k].id != id
      modifies this
      ensures r == AddVerdict(old(rows), bound, doors, item, quantity)
      ensures rows == if r.None? then AddRows(old(rows), id, item, quantity) else old(rows)
    {
      if quantity <= 0.0 { return Some(InvalidQuantity); }
      if !doors.open { return Some(CartNotOpen); }
      var gate := doors.gate(item);
      if gate.Err? { return Some(GateRefused(gate.error)); }
      var k := FindItem(item);
      if k < |rows| {
        r := SetLineQuantity(doors, rows[k].id, rows[k].quantity + quantity);
        return;
      }
      var count := CountLive();
      if count >= bound { return Some(LineLimitExceeded); }
      var clamp := Availability.ClampQuantity(doors.policy, doors.stock, item, quantity);
      if clamp.Err? { return Some(StockRefused(clamp.error)); }
      if !Fits(quantity) { return Some(NumericOverflow); }
      rows := rows + [LineRow(id, item, Stored(quantity), false)];
      r := None;
    }

    /** Soft delete: the row stays, no longer live. */
    method RemoveLine(doors: Doors, line: Id) returns (r: Option<LineError>)
      modifies this
      ensures r == RemoveVerdict(old(rows), doors, line)
      ensures rows == if r.None? then RemoveRows(old(rows), line) else old(rows)
    {
      if !doors.open { return Some(CartNotOpen); }
      var k := FindLine(line);
      if k == |rows| { return Some(LineNotFound); }
      rows := rows[k := rows[k].(deleted := true)];
      r := None;
    }
  }

  // ── runs of line verbs ────────────────────────────────────────────────────

  datatype Verb =
    | Add(doors: Doors, id: Id, item: Id, quantity: real)
    | Set(doors: Doors, line: Id, quantity: real)
    | Remove(doors: Doors, line: Id)

  function Verdict(rows: seq<LineRow>, bound: nat, verb: Verb): Option<LineError> {
    match verb
    case Add(doors, _, item, quantity) => AddVerdict(rows, bound, doors, item, quantity)
    case Set(doors, line, quantity) => SetVerdict(rows, doors, line, quantity)
    case Remove(doors, line) => RemoveVerdict(rows, doors, line)
  }

  function After(rows: seq<LineRow>, bound: nat, verb: Verb): seq<LineRow> {
    if Verdict(rows, bound, verb).Some? then rows
    else
      match verb
      case Add(_, id, item, quantity) => AddRows(rows, id, item, quantity)
      case Set(_, line, quantity) => SetRows(rows, line, quantity)
      case Remove(_, line) => RemoveRows(rows, line)
  }

  /** A fresh row id is one no row carries. */
  predicate FreshId(rows: seq<LineRow>, verb: Verb) {
    verb.Add? ==> forall k | 0 <= k < |rows| :: rows[k].id != verb.id
  }

  /** The lines after a whole sequence of verbs, one at a time. */
  function Run(verbs: seq<Verb>, bound: nat): seq<LineRow> {
    if verbs == [] then []
    else After(Run(verbs[..|verbs| - 1], bound), bound, verbs[|verbs| - 1])
  }

  ghost predicate FreshIds(verbs: seq<Verb>, bound: nat) {
    forall i | 0 <= i < |verbs| :: FreshId(Run(verbs[..i], bound), verbs[i])
  }

  ghost predicate UniqueIds(rows: seq<LineRow>) {
    forall i, j | 0 <= i < j < |rows| :: rows[i].id != rows[j].id
  }

  /** Row ids are unique, live items are distinct, quantities are on the column's
      grid and not negative, and no more than the bound are live. */
  ghost predicate LinesOk(rows: seq<LineRow>, bound: nat) {
    && UniqueIds(rows)
    && (forall i, j | 0 <= i < j < |rows| && !rows[i].deleted && !rows[j].deleted :: rows[i].item != rows[j].item)
    && (forall i | 0 <= i < |rows| :: OnGrid(rows[i].quantity) && rows[i].quantity >= 0.0)
    && LiveCount(rows) <= bound
  }

  lemma {:induction false} CountAppend(rows: seq<LineRow>, row: LineRow)
    ensures LiveCount(rows + [row]) == LiveCount(rows) + if row.deleted then 0 else 1
  {
    if rows == [] {
      assert rows + [row] == [row];
    } else {
      assert (rows + [row])[1..] == rows[1..] + [row];
      CountAppend(rows[1..], row);
    }
  }

  lemma {:induction false} CountUpdate(rows: seq<LineRow>, k: nat, row: LineRow)
    requires k < |rows| && !rows[k].deleted
    ensures LiveCount(rows[k := row]) == LiveCount(rows) - if row.deleted then 1 else 0
  {
    if k > 0 {
      assert rows[k := row][1..] == rows[1..][k - 1 := row];
      CountUpdate(rows[1..], k - 1, row);
    } else {
      assert rows[0 := row][1..] == rows[1..];
    }
  }

  /** With unique ids, looking a live row up by its id finds that row. */
  lemma OwnIdFound(rows: seq<LineRow>, k: nat)
    requires k < |rows| && !rows[k].deleted && UniqueIds(rows)
    ensures LineAt(rows, rows[k].id) == k
  {}

  lemma PutQuantityKeeps(rows: seq<LineRow>, bound: nat, k: nat, quantity: real)
    requires LinesOk(rows, bound) && k < |rows| && !rows[k].deleted && quantity >= 0.0
    ensures LinesOk(rows[k := rows[k].(quantity := Stored(quantity))], bound)
  {
    StoredIsOnGrid(quantity);
    StoredPositiveIff(quantity);
    CountUpdate(rows, k, rows[k].(quantity := Stored(quantity)));
  }

  lemma AppendKeeps(rows: seq<LineRow>, bound: nat, id: Id, item: Id, quantity: real)
    requires LinesOk(rows, bound) && quantity >= 0.0 && ItemAt(rows, item) == |rows| && LiveCount(rows) < bound
    requires forall k | 0 <= k < |rows| :: rows[k].id != id
    ensures LinesOk(rows + [LineRow(id, item, Stored(quantity), false)], bound)
  {
    StoredIsOnGrid(quantity);
    StoredPositiveIff(quantity);
    CountAppend(rows, LineRow(id, item, Stored(quantity), false));
  }

  /** An accepted add writes one row: the item's own, or a new one. */
  lemma AddWrites(rows: seq<LineRow>, id: Id, item: Id, quantity: real)
    requires UniqueIds(rows)
    ensures var k := ItemAt(rows, item);
      AddRows(rows, id, item, quantity)
      == if k < |rows| then rows[k := rows[k].(quantity := Stored(rows[k].quantity + quantity))]
         else rows + [LineRow(id, item, Stored(quantity), false)]
  {
    var k := ItemAt(rows, item);
    if k < |rows| { OwnIdFound(rows, k); }
  }

  lemma AddKeepsLines(rows: seq<LineRow>, bound: nat, id: Id, item: Id, quantity: real)
    requires LinesOk(rows, bound) && quantity >= 0.0 && forall k | 0 <= k < |rows| :: rows[k].id != id
    requires ItemAt(rows, item) < |rows| || LiveCount(rows) < bound
    ensures LinesOk(AddRows(rows, id, item, quantity), bound)
  {
    var k := ItemAt(rows, item);
    AddWrites(rows, id, item, quantity);
    if k < |rows| {
      var q := rows[k].quantity + quantity;
      assert AddRows(rows, id, item, quantity) == rows[k := rows[k].(quantity := Stored(q))];
      PutQuantityKeeps(rows, bound, k, q);
    } else {
      assert AddRows(rows, id, item, quantity) == rows + [LineRow(id, item, Stored(quantity), false)];
      AppendKeeps(rows, bound, id, item, quantity);
    }
  }

  lemma RemoveKeepsLines(rows: seq<LineRow>, bound: nat, line: Id)
    requires LinesOk(rows, bound) && LineAt(rows, line) < |rows|
    ensures LinesOk(RemoveRows(rows, line), bound)
  {
    var k := LineAt(rows, line);
    CountUpdate(rows, k, rows[k].(deleted := true));
  }

  lemma AfterKeepsLines(rows: seq<LineRow>, bound: nat, verb: Verb)
    requires LinesOk(rows, bound) && FreshId(rows, verb)
    ensures LinesOk(After(rows, bound, verb), bound)
  {
    if Verdict(rows, bound, verb).None? {
      match verb
      case Add(_, id, item, quantity) => AddKeepsLines(rows, bound, id, item, quantity);
      case Set(_, line, quantity) => PutQuantityKeeps(rows, bound, LineAt(rows, line), quantity);
      case Remove(_, line) => RemoveKeepsLines(rows, bound, line);
    }
  }

  /** Over every sequence of line verbs: distinct live items, at most `bound` of them,
      never a negative quantity. */
  lemma {:induction false} RunKeepsLines(verbs: seq<Verb>, bound: nat)
    requires FreshIds(verbs, bound)
    ensures LinesOk(Run(verbs, bound), bound)
  {
    if verbs != [] {
      var n := |verbs| - 1;
      forall i | 0 <= i < n ensures FreshId(Run(verbs[..n][..i], bound), verbs[..n][i]) {
        assert verbs[..n][..i] == verbs[..i];
        assert FreshId(Run(verbs[..i], bound), verbs[i]);
      }
      RunKeepsLines(verbs[..n], bound);
      assert FreshId(Run(verbs[..n], bound), verbs[n]);
      AfterKeepsLines(Run(verbs[..n], bound), bound, verbs[n]);
    }
  }

  // ── the ledger ────────────────────────────────────────────────────────────

  /** What an accepted verb did, in terms of items. */
  datatype Event = Added(item: Id, quantity: real) | SetTo(item: Id, quantity: real) | Removed(item: Id)

  function EventOf(rows: seq<LineRow>, verb: Verb): Event
    requires verb.Add? || LineAt(rows, verb.line) < |rows|
  {
    match verb
    case Add(_, _, item, quantity) => Added(item, quantity)
    case Set(_, line, quantity) => SetTo(rows[LineAt(rows, line)].item, quantity)
    case Remove(_, line) => Removed(rows[LineAt(rows, line)].item)
  }

  /** The accepted verbs of a sequence, in order. */
  function Accepted(verbs: seq<Verb>, bound: nat): seq<Event> {
    if verbs == [] then []
    else
      var n := |verbs| - 1;
      var rows := Run(verbs[..n], bound);
      Accepted(verbs[..n], bound)
      + (if Verdict(rows, bound, verbs[n]).None? then [EventOf(rows, verbs[n])] else [])
  }

  /** An item's quantity by the record alone: the last set value plus every later
      add, each as the column stores it; none if it was removed since. */
  function Ledger(events: seq<Event>, item: Id): Option<real> {
    if events == [] then None
    else
      var n := |events| - 1;
      Moved(Ledger(events[..n], item), events[n], item)
  }

  function Moved(before: Option<real>, event: Event, item: Id): Option<real> {
    if event.item != item then before
    else
      match event
      case Added(_, q) => Some(Stored(q) + (if before.Some? then before.value else 0.0))
      case SetTo(_, q) => Some(Stored(q))
      case Removed(_) => None
  }

  lemma LedgerStep(events: seq<Event>, event: Event, item: Id)
    ensures Ledger(events + [event], item) == Moved(Ledger(events, item), event, item)
  {
    assert (events + [event])[..|events|] == events;
  }

  /** An item's quantity by the rows. */
  function QuantityOf(rows: seq<LineRow>, item: Id): Option<real> {
    if ItemAt(rows, item) < |rows| then Some(rows[ItemAt(rows, item)].quantity) else None
  }

  /** A row's item looks that row up. */
  lemma OwnItemFound(rows: seq<LineRow>, bound: nat, k: nat)
    requires LinesOk(rows, bound) && k < |rows| && !rows[k].deleted
    ensures ItemAt(rows, rows[k].item) == k
  {}

  lemma PutQuantityReads(rows: seq<LineRow>, bound: nat, k: nat, q: real, item: Id)
    requires LinesOk(rows, bound) && k < |rows| && !rows[k].deleted
    ensures QuantityOf(rows[k := rows[k].(quantity := q)], item)
            == if item == rows[k].item then Some(q) else QuantityOf(rows, item)
  {
    OwnItemFound(rows, bound, k);
    var after := rows[k := rows[k].(quantity := q)];
    assert forall j | 0 <= j < |rows| :: after[j].item == rows[j].item && after[j].deleted == rows[j].deleted;
    assert ItemAt(after, item) == ItemAt(rows, item);
  }

  lemma AppendReads(rows: seq<LineRow>, row: LineRow, item: Id)
    requires !row.deleted && ItemAt(rows, row.item) == |rows|
    ensures QuantityOf(rows + [row], item) == if item == row.item then Some(row.quantity) else QuantityOf(rows, item)
  {
    var after := rows + [row];
    assert forall j | 0 <= j < |rows| :: after[j] == rows[j];
    assert after[|rows|] == row;
  }

  lemma RemoveReads(rows: seq<LineRow>, bound: nat, k: nat, item: Id)
    requires LinesOk(rows, bound) && k < |rows| && !rows[k].deleted
    ensures QuantityOf(rows[k := rows[k].(deleted := true)], item)
            == if item == rows[k].item then None else QuantityOf(rows, item)
  {
    OwnItemFound(rows, bound, k);
    var after := rows[k := rows[k].(deleted := true)];
    assert forall j | 0 <= j < |rows| && j != k :: after[j] == rows[j];
    if item == rows[k].item {
      assert forall j | 0 <= j < |after| :: after[j].deleted || after[j].item != item;
    } else {
      assert ItemAt(after, item) == ItemAt(rows, item);
    }
  }

  /** One accepted verb moves every item's quantity as its event says. */
  lemma AfterReads(rows: seq<LineRow>, bound: nat, verb: Verb, item: Id)
    requires LinesOk(rows, bound) && Verdict(rows, bound, verb).None?
    ensures QuantityOf(After(rows, bound, verb), item) == Moved(QuantityOf(rows, item), EventOf(rows, verb), item)
  {
    match verb
    case Add(_, id, added, q) =>
      var k := ItemAt(rows, added);
      AddWrites(rows, id, added, q);
      if k < |rows| {
        StoredAdds(rows[k].quantity, q);
        PutQuantityReads(rows, bound, k, Stored(rows[k].quantity + q), item);
      } else {
        AppendReads(rows, LineRow(id, added, Stored(q), false), item);
      }
    case Set(_, line, q) => PutQuantityReads(rows, bound, LineAt(rows, line), Stored(q), item);
    case Remove(_, line) => RemoveReads(rows, bound, LineAt(rows, line), item);
  }

  lemma FreshPrefix(verbs: seq<Verb>, bound: nat)
    requires FreshIds(verbs, bound) && verbs != []
    ensures FreshIds(verbs[..|verbs| - 1], bound)
  {
    var n := |verbs| - 1;
    forall i | 0 <= i < n ensures FreshId(Run(verbs[..n][..i], bound), verbs[..n][i]) {
      assert verbs[..n][..i] == verbs[..i];
      assert FreshId(Run(verbs[..i], bound), verbs[i]);
    }
  }

  /** Over every sequence of line verbs, each item's quantity is its last set value
      plus all later adds, as stored. */
  lemma {:induction false} QuantityIsLedger(verbs: seq<Verb>, bound: nat, item: Id)
    requires FreshIds(verbs, bound)
    ensures QuantityOf(Run(verbs, bound), item) == Ledger(Accepted(verbs, bound), item)
  {
    if verbs != [] {
      var n := |verbs| - 1;
      var rows := Run(verbs[..n], bound);
      FreshPrefix(verbs, bound);
      QuantityIsLedger(verbs[..n], bound, item);
      var events := Accepted(verbs[..n], bound);
      if Verdict(rows, bound, verbs[n]).None? {
        RunKeepsLines(verbs[..n], bound);
        AfterReads(rows, bound, verbs[n], item);
        LedgerStep(events, EventOf(rows, verbs[n]), item);
      } else {
        assert Accepted(verbs, bound) == events;
      }
    }
  }

  // ── when a live line's quantity is positive ───────────────────────────────

  ghost predicate AllPositive(rows: seq<LineRow>) {
    forall k | 0 <= k < |rows| && !rows[k].deleted :: rows[k].quantity > 0.0
  }

  /** The quantity a verb asks the column to store, if it writes one. */
  function Asked(rows: seq<LineRow>, verb: Verb): Option<real> {
    match verb
    case Add(_, _, item, q) => Some(q + (if QuantityOf(rows, item).Some? then QuantityOf(rows, item).value else 0.0))
    case Set(_, _, q) => Some(q)
    case Remove(_, _) => None
  }

  /** The verb is refused, removes, or asks for at least half a step. */
  predicate AsksEnough(rows: seq<LineRow>, bound: nat, verb: Verb) {
    Verdict(rows, bound, verb).None? && Asked(rows, verb).Some? ==> Asked(rows, verb).value >= 0.00005
  }

  lemma PutPositiveIff(rows: seq<LineRow>, k: nat, quantity: real)
    requires AllPositive(rows) && k < |rows| && !rows[k].deleted && quantity >= 0.0
    ensures AllPositive(rows[k := rows[k].(quantity := Stored(quantity))]) <==> quantity >= 0.00005
  {
    StoredPositiveIff(quantity);
    var after := rows[k := rows[k].(quantity := Stored(quantity))];
    assert !after[k].deleted;
  }

  lemma AppendPositiveIff(rows: seq<LineRow>, id: Id, item: Id, quantity: real)
    requires AllPositive(rows) && quantity >= 0.0
    ensures AllPositive(rows + [LineRow(id, item, Stored(quantity), false)]) <==> quantity >= 0.00005
  {
    StoredPositiveIff(quantity);
    var after := rows + [LineRow(id, item, Stored(quantity), false)];
    assert !after[|rows|].deleted;
  }

  lemma AddPositiveIff(rows: seq<LineRow>, bound: nat, id: Id, item: Id, q: real)
    requires LinesOk(rows, bound) && AllPositive(rows) && q >= 0.0
    ensures var held := QuantityOf(rows, item);
      AllPositive(AddRows(rows, id, item, q)) <==> q + (if held.Some? then held.value else 0.0) >= 0.00005
  {
    var k := ItemAt(rows, item);
    AddWrites(rows, id, item, q);
    if k < |rows| {
      assert AddRows(rows, id, item, q) == rows[k := rows[k].(quantity := Stored(rows[k].quantity + q))];
      PutPositiveIff(rows, k, rows[k].quantity + q);
    } else {
      assert AddRows(rows, id, item, q) == rows + [LineRow(id, item, Stored(q), false)];
      AppendPositiveIff(rows, id, item, q);
    }
  }

  lemma RemovePositive(rows: seq<LineRow>, line: Id)
    requires AllPositive(rows) && LineAt(rows, line) < |rows|
    ensures AllPositive(RemoveRows(rows, line))
  {}

  lemma PositiveAfterIff(rows: seq<LineRow>, bound: nat, verb: Verb)
    requires LinesOk(rows, bound) && AllPositive(rows)
    ensures AllPositive(After(rows, bound, verb)) <==> AsksEnough(rows, bound, verb)
  {
    if Verdict(rows, bound, verb).None? {
      match verb
      case Add(_, id, item, q) => AddPositiveIff(rows, bound, id, item, q);
      case Set(_, line, q) => PutPositiveIff(rows, LineAt(rows, line), q);
      case Remove(_, line) => RemovePositive(rows, line);
    }
  }

  ghost predicate AlwaysPositive(verbs: seq<Verb>, bound: nat) {
    forall i | 0 <= i <= |verbs| :: AllPositive(Run(verbs[..i], bound))
  }

  ghost predicate AlwaysAsksEnough(verbs: seq<Verb>, bound: nat) {
    forall i | 0 <= i < |verbs| :: AsksEnough(Run(verbs[..i], bound), bound, verbs[i])
  }

  lemma AlwaysPositiveStep(verbs: seq<Verb>, bound: nat)
    requires verbs != []
    ensures var n := |verbs| - 1;
      AlwaysPositive(verbs, bound) <==> AlwaysPositive(verbs[..n], bound) && AllPositive(Run(verbs, bound))
  {
    var n := |verbs| - 1;
    forall i | 0 <= i <= n ensures verbs[..n][..i] == verbs[..i] {}
    assert verbs[..n + 1] == verbs;
    if AlwaysPositive(verbs, bound) {
      forall i | 0 <= i <= n ensures AllPositive(Run(verbs[..n][..i], bound)) {
        assert AllPositive(Run(verbs[..i], bound));
      }
      assert AllPositive(Run(verbs[..n + 1], bound));
    }
    if AlwaysPositive(verbs[..n], bound) && AllPositive(Run(verbs, bound)) {
      forall i | 0 <= i <= n + 1 ensures AllPositive(Run(verbs[..i], bound)) {
        if i <= n { assert AllPositive(Run(verbs[..n][..i], bound)); }
      }
    }
  }

  lemma AlwaysAsksStep(verbs: seq<Verb>, bound: nat)
    requires verbs != []
    ensures var n := |verbs| - 1;
      AlwaysAsksEnough(verbs, bound)
      <==> AlwaysAsksEnough(verbs[..n], bound) && AsksEnough(Run(verbs[..n], bound), bound, verbs[n])
  {
    var n := |verbs| - 1;
    forall i | 0 <= i <= n ensures verbs[..n][..i] == verbs[..i] {}
    if AlwaysAsksEnough(verbs, bound) {
      forall i | 0 <= i < n ensures AsksEnough(Run(verbs[..n][..i], bound), bound, verbs[..n][i]) {
        assert AsksEnough(Run(verbs[..i], bound), bound, verbs[i]);
      }
    }
    if AlwaysAsksEnough(verbs[..n], bound) && AsksEnough(Run(verbs[..n], bound), bound, verbs[n]) {
      forall i | 0 <= i < n + 1 ensures AsksEnough(Run(verbs[..i], bound), bound, verbs[i]) {
        if i < n { assert AsksEnough(Run(verbs[..n][..i], bound), bound, verbs[..n][i]); }
      }
    }
  }

  /** The line verbs refuse quantities that are not positive, yet the live lines stay
      positive after every verb of a sequence exactly when no accepted add or set
      asks for less than half of the column's step. */
  lemma {:induction false} LinesStayPositiveIff(verbs: seq<Verb>, bound: nat)
    requires FreshIds(verbs, bound)
    ensures AlwaysPositive(verbs, bound) <==> AlwaysAsksEnough(verbs, bound)
  {
    if verbs != [] {
      var n := |verbs| - 1;
      FreshPrefix(verbs, bound);
      LinesStayPositiveIff(verbs[..n], bound);
      AlwaysPositiveStep(verbs, bound);
      AlwaysAsksStep(verbs, bound);
      if AlwaysPositive(verbs[..n], bound) {
        assert verbs[..n][..n] == verbs[..n];
        RunKeepsLines(verbs[..n], bound);
        assert AllPositive(Run(verbs[..n], bound));
        PositiveAfterIff(Run(verbs[..n], bound), bound, verbs[n]);
      }
    }
  }

  /** A positive quantity under half a step is accepted and stored as zero. */
  lemma TinyQuantityStoredAsZero(bound: nat, id: Id, item: Id)
    requires bound > 0
    ensures var ok := Ok(Availability.Unit);
      var doors := Doors(true, _ => ok, map[item := true], _ => Err("unused"));
      var verb := Add(doors, id, item, 0.00001);
      Verdict([], bound, verb) == None && After([], bound, verb) == [LineRow(id, item, 0.0, false)]
  {
    StoredPositiveIff(0.00001);
  }

  // ── what an accepted verb was promised ────────────────────────────────────

  /** The publish gate is open for the item, the stock port answered it with at least
      this much free unless its live listing allows backorders, and the column holds it. */
  predicate Lets(doors: Doors, item: Id, quantity: real) {
    && doors.gate(item).Ok?
    && ((item in doors.policy && doors.policy[item])
        || (doors.stock(item).Ok? && doors.stock(item).value.free >= quantity))
    && quantity < 99999999999999.99995
  }

  lemma RefusalIff(doors: Doors, item: Id, quantity: real)
    ensures Refusal(doors, item, quantity).None? <==> Lets(doors, item, quantity)
  {
    var n := (quantity * 10000.0 + 0.5).Floor;
    assert Stored(quantity) == n as real / 10000.0;
    assert n < 1000000000000000000 <==> quantity * 10000.0 + 0.5 < 1000000000000000000.0;
  }

  predicate LiveOf(rows: seq<LineRow>, k: int, item: Id) {
    0 <= k < |rows| && !rows[k].deleted && rows[k].item == item
  }

  predicate LiveLine(rows: seq<LineRow>, k: int, line: Id) {
    0 <= k < |rows| && !rows[k].deleted && rows[k].id == line
  }

  lemma {:induction false} CountIsCount(rows: seq<LineRow>)
    ensures LiveCount(rows) == |set k | 0 <= k < |rows| && !rows[k].deleted|
  {
    if rows != [] {
      CountIsCount(rows[..|rows| - 1]);
      var front, last := rows[..|rows| - 1], rows[|rows| - 1];
      CountAppend(front, last);
      assert rows == front + [last];
      var before := set k | 0 <= k < |front| && !front[k].deleted;
      var all := set k | 0 <= k < |rows| && !rows[k].deleted;
      assert all == before + (if last.deleted then {} else {|front|});
    }
  }

  /** An add is accepted exactly when its quantity is positive, the cart open, and the
      doors let the item through at the quantity it would end at: with its live line's
      own, if it has one, and else alone and under the bound. */
  lemma AddAcceptedIff(rows: seq<LineRow>, bound: nat, doors: Doors, id: Id, item: Id, quantity: real)
    requires LinesOk(rows, bound)
    ensures Verdict(rows, bound, Add(doors, id, item, quantity)).None?
            <==> quantity > 0.0 && doors.open
                 && (forall k | LiveOf(rows, k, item) :: Lets(doors, item, rows[k].quantity + quantity))
                 && ((forall k :: !LiveOf(rows, k, item)) ==>
                       Lets(doors, item, quantity) && |set k | 0 <= k < |rows| && !rows[k].deleted| < bound)
  {
    var k := ItemAt(rows, item);
    CountIsCount(rows);
    RefusalIff(doors, item, quantity);
    if k < |rows| {
      assert LiveOf(rows, k, item);
      assert forall j | LiveOf(rows, j, item) :: j == k;
      OwnIdFound(rows, k);
      RefusalIff(doors, item, rows[k].quantity + quantity);
    }
  }

  /** A set is accepted exactly when its quantity is positive, the cart open, and the
      doors let the line's item through at the quantity set; a removal when the cart is
      open and the line live. */
  lemma SetAcceptedIff(rows: seq<LineRow>, bound: nat, doors: Doors, line: Id, quantity: real)
    requires LinesOk(rows, bound)
    ensures Verdict(rows, bound, Set(doors, line, quantity)).None?
            <==> quantity > 0.0 && doors.open
                 && exists k :: LiveLine(rows, k, line) && Lets(doors, rows[k].item, quantity)
    ensures Verdict(rows, bound, Set(doors, line, quantity)) == Some(LineNotFound)
            <==> quantity > 0.0 && doors.open && forall k :: !LiveLine(rows, k, line)
    ensures Verdict(rows, bound, Remove(doors, line))
            == if !doors.open then Some(CartNotOpen)
               else if exists k :: LiveLine(rows, k, line) then None
               else Some(LineNotFound)
  {
    var k := LineAt(rows, line);
    if k < |rows| {
      assert LiveLine(rows, k, line);
      assert forall j | LiveLine(rows, j, line) :: j == k;
      RefusalIff(doors, rows[k].item, quantity);
    }
  }

  /** Which rows an accepted verb writes: the item's live line grows by the quantity as
      stored or a new row is appended, the set line alone takes the stored quantity, the
      removed line alone is deleted. */
  lemma AcceptedWrites(rows: seq<LineRow>, bound: nat, verb: Verb)
    requires LinesOk(rows, bound) && Verdict(rows, bound, verb).None?
    ensures var after := After(rows, bound, verb);
      && |after| >= |rows|
      && (forall k | 0 <= k < |rows| ::
            after[k] == if verb.Add? && LiveOf(rows, k, verb.item) then
                          rows[k].(quantity := rows[k].quantity + Stored(verb.quantity))
                        else if verb.Set? && LiveLine(rows, k, verb.line) then rows[k].(quantity := Stored(verb.quantity))
                        else if verb.Remove? && LiveLine(rows, k, verb.line) then rows[k].(deleted := true)
                        else rows[k])
      && after[|rows|..] == if verb.Add? && (forall k :: !LiveOf(rows, k, verb.item))
                            then [LineRow(verb.id, verb.item, Stored(verb.quantity), false)] else []
  {
    match verb
    case Add(_, id, item, q) =>
      var k := ItemAt(rows, item);
      AddWrites(rows, id, item, q);
      if k < |rows| {
        assert LiveOf(rows, k, item);
        assert forall j | LiveOf(rows, j, item) :: j == k;
        StoredAdds(rows[k].quantity, q);
      }
    case Set(_, line, q) => assert forall j | LiveLine(rows, j, line) :: j == LineAt(rows, line);
    case Remove(_, line) => assert forall j | LiveLine(rows, j, line) :: j == LineAt(rows, line);
  }

  /** Which refusal, and what it says. The gate's is the gate's own; the stock's names the
      item and the whole quantity the line would have ended at, and quotes the port: its
      own refusal, or a free quantity below that. */
  lemma RefusalsAreTrue(rows: seq<LineRow>, bound: nat, verb: Verb, k: int)
    requires LinesOk(rows, bound) && Verdict(rows, bound, verb).Some?
    requires verb.Set? ==> LiveLine(rows, k, verb.line)
    requires verb.Add? ==> LiveOf(rows, k, verb.item) || (forall j :: !LiveOf(rows, j, verb.item))
    requires !verb.Remove?
    ensures var why := Verdict(rows, bound, verb).value;
      var item := if verb.Set? then rows[k].item else verb.item;
      var ends := verb.quantity + if verb.Add? && LiveOf(rows, k, verb.item) then rows[k].quantity else 0.0;
      && (why == InvalidQuantity <==> verb.quantity <= 0.0)
      && (why == CartNotOpen <==> verb.quantity > 0.0 && !verb.doors.open)
      && (why.GateRefused? <==> verb.quantity > 0.0 && verb.doors.open && verb.doors.gate(item).Err?)
      && (why.GateRefused? ==> verb.doors.gate(item) == Err(why.code))
      && (why.StockRefused? ==>
            && !(item in verb.doors.policy && verb.doors.policy[item])
            && match verb.doors.stock(item)
               case Err(code) => why.why == Availability.PortRefused(code)
               case Ok(answer) => answer.free < ends && why.why == Availability.Insufficient(item, ends, answer.free))
      && (why == LineLimitExceeded <==>
            verb.quantity > 0.0 && verb.doors.open && verb.doors.gate(item).Ok?
            && verb.Add? && !LiveOf(rows, k, verb.item) && |set j | 0 <= j < |rows| && !rows[j].deleted| >= bound)
      && (why == NumericOverflow ==> ends >= 99999999999999.99995)
      && why != LineNotFound
  {
    CountIsCount(rows);
    match verb
    case Add(doors, _, item, q) =>
      RefusalIff(doors, item, q);
      var j := ItemAt(rows, item);
      if j < |rows| {
        assert LiveOf(rows, j, item) && j == k;
        OwnIdFound(rows, j);
        RefusalIff(doors, item, rows[j].quantity + q);
      }
    case Set(doors, line, q) =>
      assert LineAt(rows, line) == k;
      RefusalIff(doors, rows[k].item, q);
  }

  // ── the basket a place gates ──────────────────────────────────────────────

  /** The live rows as the item and quantity pairs the place gate reads. */
  function Basket(rows: seq<LineRow>): seq<(Id, real)> {
    if rows == [] then []
    else (if rows[0].deleted then [] else [(rows[0].item, rows[0].quantity)]) + Basket(rows[1..])
  }

  lemma {:induction false} BasketMembers(rows: seq<LineRow>, item: Id)
    ensures (exists l | l in Basket(rows) :: l.0 == item)
            <==> exists k | 0 <= k < |rows| :: !rows[k].deleted && rows[k].item == item
  {
    if rows != [] {
      BasketMembers(rows[1..], item);
      var head := if rows[0].deleted then [] else [(rows[0].item, rows[0].quantity)];
      assert Basket(rows) == head + Basket(rows[1..]);
      if exists k | 0 <= k < |rows| :: !rows[k].deleted && rows[k].item == item {
        var k :| 0 <= k < |rows| && !rows[k].deleted && rows[k].item == item;
        if k == 0 { assert head[0] in Basket(rows); } else { assert rows[1..][k - 1] == rows[k]; }
      }
      if exists l | l in Basket(rows) :: l.0 == item {
        var l :| l in Basket(rows) && l.0 == item;
        if l in head { assert rows[0].item == item; } else {
          var k :| 0 <= k < |rows[1..]| && !rows[1..][k].deleted && rows[1..][k].item == item;
          assert rows[k + 1] == rows[1..][k];
        }
      }
    }
  }

  lemma {:induction false} BasketIsDistinct(rows: seq<LineRow>)
    requires forall i, j | 0 <= i < j < |rows| && !rows[i].deleted && !rows[j].deleted :: rows[i].item != rows[j].item
    ensures Availability.DistinctItems(Basket(rows))
  {
    if rows != [] {
      var rest := rows[1..];
      forall i, j | 0 <= i < j < |rest| && !rest[i].deleted && !rest[j].deleted ensures rest[i].item != rest[j].item {
        assert rest[i] == rows[i + 1] && rest[j] == rows[j + 1];
      }
      BasketIsDistinct(rest);
      if !rows[0].deleted {
        BasketMembers(rest, rows[0].item);
        forall j | 0 <= j < |Basket(rest)| ensures Basket(rest)[j].0 != rows[0].item {
          assert Basket(rest)[j] in Basket(rest);
        }
        assert Basket(rows) == [(rows[0].item, rows[0].quantity)] + Basket(rest);
      } else {
        assert Basket(rows) == Basket(rest);
      }
    }
  }

  /** Whatever line verbs ran, the per-line stock gate bounds the whole basket: an
      item's total is within the free quantity the port answered for it. */
  lemma GateBoundsWholeBasket(verbs: seq<Verb>, bound: nat, policy: map<Id, bool>, batch: Availability.BatchPort,
                              item: Id)
    requires FreshIds(verbs, bound)
    requires var basket := Basket(Run(verbs, bound));
      Availability.GatePlaceQuantities(policy, batch, basket).Ok? && item in Availability.Items(basket)
    requires !Availability.BackorderAllowed(policy, item)
    ensures var basket := Basket(Run(verbs, bound));
      var gated := Availability.Items(Availability.GatedLines(policy, basket));
      batch(gated).Ok?
      && var answer := Availability.AnswerFor(batch(gated).value, item);
      answer.Some? && Availability.TotalOf(basket, item) <= answer.value.free
  {
    RunKeepsLines(verbs, bound);
    BasketIsDistinct(Run(verbs, bound));
    Availability.GateBoundsBasket(policy, batch, Basket(Run(verbs, bound)), item);
  }
}
