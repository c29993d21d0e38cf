/** The stock gate: the single-line clamp, the place-time batch gate, and why
    the batch gate is the clamp applied to every line. */
module Availability {
  import opened StorefrontTypes

  datatype StockRefusal =
    | PortRefused(code: string)
    | Insufficient(item: Id, requested: real, available: real)

  datatype Unit = Unit

  type SinglePort = Id -> Result<ItemAvailability, string>
  type BatchPort = seq<Id> -> Result<seq<ItemAvailability>, string>

  const PORT_INCOMPLETE := "availability_port_incomplete"

  /** The sold-out policy of an item: the flag of its live listing, if any. */
  predicate BackorderAllowed(policy: map<Id, bool>, item: Id) {
    item in policy && policy[item]
  }

  /** The line-mutation clamp. */
  function ClampQuantity(policy: map<Id, bool>, port: SinglePort, item: Id, requested: real)
    : Result<Unit, StockRefusal>
  {
    if BackorderAllowed(policy, item) then Ok(Unit)
    else match port(item) {
      case Err(code) => Err(PortRefused(code))
      case Ok(answer) =>
        if requested > answer.free then Err(Insufficient(item, requested, answer.free)) else Ok(Unit)
    }
  }

  /** The lines whose item is not backorder-allowed, in order. */
  function GatedLines(policy: map<Id, bool>, lines: seq<(Id, real)>): seq<(Id, real)> {
    if lines == [] then []
    else if BackorderAllowed(policy, lines[0].0) then GatedLines(policy, lines[1..])
    else [lines[0]] + GatedLines(policy, lines[1..])
  }

  function Items(lines: seq<(Id, real)>): seq<Id> {
    seq(|lines|, i requires 0 <= i < |lines| => lines[i].0)
  }

  /** The first answer given for an item. */
  function AnswerFor(answers: seq<ItemAvailability>, item: Id): Option<ItemAvailability> {
    if answers == [] then None
    else if answers[0].item == item then Some(answers[0])
    else AnswerFor(answers[1..], item)
  }

  lemma {:induction false} AnswerIsFirst(answers: seq<ItemAvailability>, item: Id)
    ensures AnswerFor(answers, item).None? <==> forall k | 0 <= k < |answers| :: answers[k].item != item
    ensures forall k | 0 <= k < |answers| && answers[k].item == item && (forall j | 0 <= j < k :: answers[j].item != item) ::
      AnswerFor(answers, item) == Some(answers[k])
  {
    if answers != [] {
      var rest := answers[1..];
      AnswerIsFirst(rest, item);
      assert forall k | 1 <= k < |answers| :: answers[k] == rest[k - 1];
      forall k | 0 <= k < |answers| && answers[k].item == item && (forall j | 0 <= j < k :: answers[j].item != item)
        ensures AnswerFor(answers, item) == Some(answers[k])
      {
        if k > 0 {
          assert rest[k - 1] == answers[k];
          forall j | 0 <= j < k - 1 ensures rest[j].item != item { assert rest[j] == answers[j + 1]; }
        }
      }
    }
  }

  /** The verdict on one gated line, given the port's batch answer. */
  function LineVerdict(answers: seq<ItemAvailability>, line: (Id, real)): Result<Unit, StockRefusal> {
    match AnswerFor(answers, line.0) {
      case None => Err(PortRefused(PORT_INCOMPLETE))
      case Some(answer) =>
        if line.1 > answer.free then Err(Insufficient(line.0, line.1, answer.free)) else Ok(Unit)
    }
  }

  /** The scan over the gated lines: the first refusal wins. */
  function ScanGated(answers: seq<ItemAvailability>, gated: seq<(Id, real)>): Result<Unit, StockRefusal> {
    if gated == [] then Ok(Unit)
    else if LineVerdict(answers, gated[0]).Err? then LineVerdict(answers, gated[0])
    else ScanGated(answers, gated[1..])
  }

  /** The place-time gate over the whole basket. */
  function GatePlaceQuantities(policy: map<Id, bool>, port: BatchPort, lines: seq<(Id, real)>)
    : Result<Unit, StockRefusal>
  {
    var gated := GatedLines(policy, lines);
    if gated == [] then Ok(Unit)
    else match port(Items(gated)) {
      case Err(code) => Err(PortRefused(code))
      case Ok(answers) => ScanGated(answers, gated)
    }
  }

  /** The two port forms read one stock state: either both refuse, or the batch
      answers exactly the items the single read answers, with the same number. */
  ghost predicate PortsAgree(single: SinglePort, batch: BatchPort, items: seq<Id>) {
    match batch(items)
    case Err(_) => forall id | id in items :: single(id).Err?
    case Ok(answers) =>
      forall id | id in items ::
        match single(id)
        case Err(_) => AnswerFor(answers, id) == None
        case Ok(a) => AnswerFor(answers, id).Some? && AnswerFor(answers, id).value.free == a.free
  }

  lemma {:induction false} GatedLinesMembers(policy: map<Id, bool>, lines: seq<(Id, real)>)
    ensures forall l | l in GatedLines(policy, lines) :: l in lines && !BackorderAllowed(policy, l.0)
    ensures forall l | l in lines && !BackorderAllowed(policy, l.0) :: l in GatedLines(policy, lines)
  {
    if lines != [] {
      GatedLinesMembers(policy, lines[1..]);
      assert lines == [lines[0]] + lines[1..];
    }
  }

  /** The scan accepts exactly when every gated line is answered and within it. */
  lemma {:induction false} ScanAcceptsIff(answers: seq<ItemAvailability>, gated: seq<(Id, real)>)
    ensures ScanGated(answers, gated).Ok? <==> forall l | l in gated :: LineVerdict(answers, l).Ok?
    ensures ScanGated(answers, gated).Ok?
            <==> forall l | l in gated :: AnswerFor(answers, l.0).Some? && l.1 <= AnswerFor(answers, l.0).value.free
    ensures ScanGated(answers, gated).Err? ==>
      exists k | 0 <= k < |gated| ::
        ScanGated(answers, gated) == LineVerdict(answers, gated[k])
        && forall j | 0 <= j < k :: LineVerdict(answers, gated[j]).Ok?
  {
    if gated != [] {
      var rest := gated[1..];
      ScanAcceptsIff(answers, rest);
      assert gated == [gated[0]] + rest;
      if LineVerdict(answers, gated[0]).Ok? && ScanGated(answers, rest).Err? {
        var k :| 0 <= k < |rest| && ScanGated(answers, rest) == LineVerdict(answers, rest[k])
          && forall j | 0 <= j < k :: LineVerdict(answers, rest[j]).Ok?;
        assert gated[k + 1] == rest[k];
        forall j | 0 <= j < k + 1 ensures LineVerdict(answers, gated[j]).Ok? {
          if j > 0 { assert gated[j] == rest[j - 1]; }
        }
      }
    }
  }

  lemma ItemsMembers(lines: seq<(Id, real)>, l: (Id, real))
    requires l in lines
    ensures l.0 in Items(lines)
  {
    var k :| 0 <= k < |lines| && lines[k] == l;
    assert Items(lines)[k] == l.0;
  }

  /** Refinement: with the two port forms agreeing on one stock state, the batch
      gate accepts the basket iff the clamp accepts each of its lines. */
  lemma GateRefinesClamp(policy: map<Id, bool>, single: SinglePort, batch: BatchPort, lines: seq<(Id, real)>)
    requires PortsAgree(single, batch, Items(GatedLines(policy, lines)))
    ensures GatePlaceQuantities(policy, batch, lines).Ok?
      <==> forall l | l in lines :: ClampQuantity(policy, single, l.0, l.1).Ok?
  {
    var gated := GatedLines(policy, lines);
    GatedLinesMembers(policy, lines);
    forall l | l in gated ensures l.0 in Items(gated) { ItemsMembers(gated, l); }
    if gated != [] {
      assert gated[0] in lines;
      match batch(Items(gated))
      case Err(_) => assert ClampQuantity(policy, single, gated[0].0, gated[0].1).Err?;
      case Ok(answers) => ScanAcceptsIff(answers, gated);
    }
  }

  /** An out-of-stock refusal of the batch gate is the clamp's own refusal of the
      first line the clamp would refuse. */
  lemma GateRefusalIsFirstClampRefusal(
    policy: map<Id, bool>, single: SinglePort, batch: BatchPort, lines: seq<(Id, real)>)
    returns (k: nat)
    requires PortsAgree(single, batch, Items(GatedLines(policy, lines)))
    requires GatePlaceQuantities(policy, batch, lines).Err?
    requires GatePlaceQuantities(policy, batch, lines).error.Insufficient?
    ensures k < |lines|
    ensures ClampQuantity(policy, single, lines[k].0, lines[k].1) == GatePlaceQuantities(policy, batch, lines)
    ensures forall j | 0 <= j < k :: ClampQuantity(policy, single, lines[j].0, lines[j].1).Ok?
  {
    var gated := GatedLines(policy, lines);
    forall l | l in gated ensures l.0 in Items(gated) { ItemsMembers(gated, l); }
    k := FirstRefused(policy, single, batch(Items(gated)).value, lines, gated);
  }

  lemma {:induction false} FirstRefused(policy: map<Id, bool>, single: SinglePort,
    answers: seq<ItemAvailability>, lines: seq<(Id, real)>, all: seq<(Id, real)>) returns (k: nat)
    requires forall l | l in GatedLines(policy, lines) :: l in all
    requires forall l | l in all ::
      match single(l.0)
      case Err(_) => AnswerFor(answers, l.0) == None
      case Ok(a) => AnswerFor(answers, l.0).Some? && AnswerFor(answers, l.0).value.free == a.free
    requires ScanGated(answers, GatedLines(policy, lines)).Err?
    requires ScanGated(answers, GatedLines(policy, lines)).error.Insufficient?
    ensures k < |lines|
    ensures ClampQuantity(policy, single, lines[k].0, lines[k].1) == ScanGated(answers, GatedLines(policy, lines))
    ensures forall j | 0 <= j < k :: ClampQuantity(policy, single, lines[j].0, lines[j].1).Ok?
  {
    assert lines != [];
    if !BackorderAllowed(policy, lines[0].0) {
      assert GatedLines(policy, lines)[0] == lines[0] && GatedLines(policy, lines)[0] in all;
      assert GatedLines(policy, lines)[1..] == GatedLines(policy, lines[1..]);
    }
    if !BackorderAllowed(policy, lines[0].0) && LineVerdict(answers, lines[0]).Err? {
      k := 0;
    } else {
      forall l | l in GatedLines(policy, lines[1..]) ensures l in GatedLines(policy, lines) {}
      var t := FirstRefused(policy, single, answers, lines[1..], all);
      k := t + 1;
      forall j | 0 <= j < k ensures ClampQuantity(policy, single, lines[j].0, lines[j].1).Ok? {
        if j > 0 { assert lines[j] == lines[1..][j - 1]; }
      }
    }
  }

  /** An adapter that omits a gated item never passes: no implicit zero, no guess. */
  lemma OmittedItemRefuses(policy: map<Id, bool>, batch: BatchPort, lines: seq<(Id, real)>, l: (Id, real))
    requires l in lines && !BackorderAllowed(policy, l.0)
    requires batch(Items(GatedLines(policy, lines))).Ok? ==>
      AnswerFor(batch(Items(GatedLines(policy, lines))).value, l.0) == None
    ensures GatePlaceQuantities(policy, batch, lines).Err?
  {
    var gated := GatedLines(policy, lines);
    GatedLinesMembers(policy, lines);
    match batch(Items(gated))
    case Err(_) =>
    case Ok(answers) => ScanAcceptsIff(answers, gated);
  }

  // ── the basket as a whole ────────────────────────────────────────────────

  /** The basket's total quantity of one item. */
  function TotalOf(lines: seq<(Id, real)>, item: Id): real {
    if lines == [] then 0.0
    else (if lines[0].0 == item then lines[0].1 else 0.0) + TotalOf(lines[1..], item)
  }

  ghost predicate DistinctItems(lines: seq<(Id, real)>) {
    forall i, j | 0 <= i < j < |lines| :: lines[i].0 != lines[j].0
  }

  lemma {:induction false} TotalOfAbsent(lines: seq<(Id, real)>, item: Id)
    requires forall l | l in lines :: l.0 != item
    ensures TotalOf(lines, item) == 0.0
  {
    if lines != [] {
      assert lines[0] in lines;
      forall l | l in lines[1..] ensures l.0 != item { assert l in lines; }
      TotalOfAbsent(lines[1..], item);
    }
  }

  lemma {:induction false} TotalOfDistinct(lines: seq<(Id, real)>, k: nat)
    requires DistinctItems(lines) && k < |lines|
    ensures TotalOf(lines, lines[k].0) == lines[k].1
  {
    var rest := lines[1..];
    if k == 0 {
      forall l | l in rest ensures l.0 != lines[0].0 {
        var j :| 0 <= j < |rest| && rest[j] == l;
        assert lines[j + 1] == l;
      }
      TotalOfAbsent(rest, lines[0].0);
    } else {
      assert rest[k - 1] == lines[k];
      assert DistinctItems(rest) by {
        forall i, j | 0 <= i < j < |rest| ensures rest[i].0 != rest[j].0 {
          assert rest[i] == lines[i + 1] && rest[j] == lines[j + 1];
        }
      }
      TotalOfDistinct(rest, k - 1);
      assert lines[0].0 != lines[k].0;
    }
  }

  /** With one line per item, passing the per-line gate bounds the basket's whole
      quantity of every item that is not backorder-allowed. */
  lemma GateBoundsBasket(policy: map<Id, bool>, batch: BatchPort, lines: seq<(Id, real)>, item: Id)
    requires DistinctItems(lines)
    requires GatePlaceQuantities(policy, batch, lines).Ok?
    requires !BackorderAllowed(policy, item) && item in Items(lines)
    ensures batch(Items(GatedLines(policy, lines))).Ok?
    ensures var answer := AnswerFor(batch(Items(GatedLines(policy, lines))).value, item);
      answer.Some? && TotalOf(lines, item) <= answer.value.free
  {
    var gated := GatedLines(policy, lines);
    GatedLinesMembers(policy, lines);
    var k :| 0 <= k < |lines| && lines[k].0 == item;
    assert lines[k] in gated;
    ScanAcceptsIff(batch(Items(gated)).value, gated);
    assert LineVerdict(batch(Items(gated)).value, lines[k]).Ok?;
    TotalOfDistinct(lines, k);
  }

  /** Why the fold onto one line per item matters: two lines of one item can each
      pass the gate while the basket asks for more than the free quantity. */
  lemma DuplicateItemsEscapeGate()
    ensures exists lines: seq<(Id, real)>, batch: BatchPort ::
      GatePlaceQuantities(map[], batch, lines).Ok? && TotalOf(lines, 7) > 5.0
      && batch(Items(lines)) == Ok([ItemAvailability(7, 5.0)])
  {
    var lines: seq<(Id, real)> := [(7, 3.0), (7, 4.0)];
    var answers := [ItemAvailability(7, 5.0)];
    var batch: BatchPort := (ids: seq<Id>) => Ok(answers);
    GatedLinesMembers(map[], lines);
    assert GatedLines(map[], lines) == lines by {
      assert GatedLines(map[], lines[1..]) == lines[1..];
    }
    ScanAcceptsIff(answers, lines);
    assert TotalOf(lines, 7) == 3.0 + TotalOf(lines[1..], 7);
    assert GatePlaceQuantities(map[], batch, lines).Ok? && TotalOf(lines, 7) > 5.0;
  }
}
