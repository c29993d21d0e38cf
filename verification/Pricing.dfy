/** The single cart-pricing derivation: slot assembly over the priceable lines,
    one call to the pricing port, and the fold-back of its answer. */
module Pricing {
  import opened StorefrontTypes

  datatype Snapshot = Snapshot(item: Id, name: string, group: Option<Id>, brand: Option<Id>)

  datatype PriceLine = PriceLine(item: Id, group: Option<Id>, brand: Option<Id>, listPrice: real, quantity: real)

  datatype PriceRequest = PriceRequest(
    company: Id, customer: Option<Id>, group: Option<Id>, coupon: Option<string>, lines: seq<PriceLine>)

  datatype PricedLine = PricedLine(unit: real, net: real)

  datatype Reward = Reward(item: Id, quantity: real)

  datatype PortAnswer = PortAnswer(lines: seq<PricedLine>, rewards: seq<Reward>)

  type PricingPort = PriceRequest -> Result<PortAnswer, string>
  type CatalogPort = seq<Id> -> Result<seq<Snapshot>, string>
  type SegmentPort = Id -> Result<Option<Id>, string>

  datatype DisplayLine = DisplayLine(
    line: Id, item: Id, name: string, quantity: real, listPrice: real,
    unit: Option<real>, net: Option<real>, unavailable: bool)

  datatype RewardView = RewardView(item: Id, name: string, quantity: real)

  datatype PricedCart = PricedCart(
    lines: seq<DisplayLine>, subtotal: real, currency: string, group: Option<Id>,
    rewards: seq<RewardView>, unavailableCount: nat)

  datatype PricingError =
    | CatalogRefused(code: string)
    | PartyRefused(code: string)
    | PricingRefused(code: string)
    | LineCountMismatch

  const DEFAULT_CURRENCY := "IDR"

  // ── the maps collected from row lists (a later row overwrites) ────────────

  function PriceMap(rows: seq<(Id, PriceRow)>): map<Id, PriceRow> {
    if rows == [] then map[]
    else var n := |rows| - 1; PriceMap(rows[..n])[rows[n].0 := rows[n].1]
  }

  function SnapshotMap(snapshots: seq<Snapshot>): map<Id, Snapshot> {
    if snapshots == [] then map[]
    else var n := |snapshots| - 1; SnapshotMap(snapshots[..n])[snapshots[n].item := snapshots[n]]
  }

  /** A price of the collected map is the last row of its item, and every row's item has
      one. */
  lemma {:induction false} PriceMapIs(rows: seq<(Id, PriceRow)>, item: Id)
    ensures item in PriceMap(rows) <==> exists k :: 0 <= k < |rows| && rows[k].0 == item
    ensures forall k | 0 <= k < |rows| && rows[k].0 == item && (forall j | k < j < |rows| :: rows[j].0 != item) ::
      PriceMap(rows)[item] == rows[k].1
  {
    if rows != [] {
      var n := |rows| - 1;
      PriceMapIs(rows[..n], item);
      forall k | 0 <= k < n ensures rows[..n][k] == rows[k] {}
    }
  }

  lemma {:induction false} SnapshotMapIs(snapshots: seq<Snapshot>, item: Id)
    ensures item in SnapshotMap(snapshots) <==> exists k :: 0 <= k < |snapshots| && snapshots[k].item == item
    ensures forall k | 0 <= k < |snapshots| && snapshots[k].item == item
                       && (forall j | k < j < |snapshots| :: snapshots[j].item != item) ::
      SnapshotMap(snapshots)[item] == snapshots[k]
  {
    if snapshots != [] {
      var n := |snapshots| - 1;
      SnapshotMapIs(snapshots[..n], item);
      forall k | 0 <= k < n ensures snapshots[..n][k] == snapshots[k] {}
    }
  }

  // ── the derivation's vocabulary ───────────────────────────────────────────

  /** A line is priceable when its item has a live price row on the website. */
  predicate Priceable(prices: map<Id, PriceRow>, line: CartLine) {
    line.item in prices
  }

  /** How many of the first n lines are priceable. */
  function Rank(prices: map<Id, PriceRow>, lines: seq<CartLine>, n: nat): (r: nat)
    requires n <= |lines|
    ensures r <= n
  {
    if n == 0 then 0
    else Rank(prices, lines, n - 1) + (if Priceable(prices, lines[n - 1]) then 1 else 0)
  }

  function NameOf(catalog: map<Id, Snapshot>, item: Id): string {
    if item in catalog then catalog[item].name else ""
  }

  function RequestLine(prices: map<Id, PriceRow>, catalog: map<Id, Snapshot>, line: CartLine): PriceLine
    requires Priceable(prices, line)
  {
    PriceLine(
      line.item,
      if line.item in catalog then catalog[line.item].group else None,
      if line.item in catalog then catalog[line.item].brand else None,
      prices[line.item].listPrice,
      line.quantity)
  }

  /** The request lines of the first n cart lines. */
  function RequestLines(prices: map<Id, PriceRow>, catalog: map<Id, Snapshot>, lines: seq<CartLine>, n: nat)
    : (r: seq<PriceLine>)
    requires n <= |lines|
    ensures |r| == Rank(prices, lines, n)
  {
    if n == 0 then []
    else
      RequestLines(prices, catalog, lines, n - 1)
      + (if Priceable(prices, lines[n - 1]) then [RequestLine(prices, catalog, lines[n - 1])] else [])
  }

  /** The first non-empty currency among the first n lines' price rows. */
  function FirstCurrency(prices: map<Id, PriceRow>, lines: seq<CartLine>, n: nat): string
    requires n <= |lines|
  {
    if n == 0 then ""
    else
      var c := FirstCurrency(prices, lines, n - 1);
      if c == "" && Priceable(prices, lines[n - 1]) then prices[lines[n - 1].item].currency else c
  }

  function OrIdr(currency: string): string {
    if currency == "" then DEFAULT_CURRENCY else currency
  }

  /** Line k is the first priceable line whose price names a currency. */
  ghost predicate FirstNamed(prices: map<Id, PriceRow>, lines: seq<CartLine>, k: nat) {
    k < |lines| && lines[k].item in prices && prices[lines[k].item].currency != ""
    && forall j | 0 <= j < k && lines[j].item in prices :: prices[lines[j].item].currency == ""
  }

  /** The first currency a price names, and the rupiah when none does. */
  ghost predicate CurrencyIs(prices: map<Id, PriceRow>, lines: seq<CartLine>, currency: string) {
    && (forall k: nat {:trigger FirstNamed(prices, lines, k)} | FirstNamed(prices, lines, k) ::
          currency == prices[lines[k].item].currency)
    && ((forall k | 0 <= k < |lines| && lines[k].item in prices :: prices[lines[k].item].currency == "") ==>
          currency == "IDR")
  }

  lemma {:induction false} FirstCurrencyIs(prices: map<Id, PriceRow>, lines: seq<CartLine>, n: nat)
    requires n <= |lines|
    ensures forall k: nat {:trigger FirstNamed(prices, lines, k)} | k < n && FirstNamed(prices, lines, k) ::
      FirstCurrency(prices, lines, n) == prices[lines[k].item].currency
    ensures (forall k | 0 <= k < n && lines[k].item in prices :: prices[lines[k].item].currency == "")
            ==> FirstCurrency(prices, lines, n) == ""
  {
    if n > 0 {
      FirstCurrencyIs(prices, lines, n - 1);
      forall k: nat | k < n - 1 && FirstNamed(prices, lines, k)
        ensures FirstCurrency(prices, lines, n - 1) == prices[lines[k].item].currency {}
    }
  }

  lemma CurrencyIsNamed(prices: map<Id, PriceRow>, lines: seq<CartLine>)
    ensures CurrencyIs(prices, lines, OrIdr(FirstCurrency(prices, lines, |lines|)))
  {
    FirstCurrencyIs(prices, lines, |lines|);
  }

  /** The group dimension: the party's own segment, else the website's default. */
  function ResolveGroup(settings: Option<Id>, segments: SegmentPort, party: Option<Id>)
    : Result<Option<Id>, string>
  {
    match party
    case None => Ok(settings)
    case Some(p) =>
      match segments(p)
      case Err(code) => Err(code)
      case Ok(None) => Ok(settings)
      case Ok(segment) => Ok(segment)
  }

  /** Net totals of the first n answered lines. */
  function AnswerTotal(lines: seq<PricedLine>, n: nat): real
    requires n <= |lines|
  {
    if n == 0 then 0.0 else AnswerTotal(lines, n - 1) + lines[n - 1].net
  }

  /** A total is what its parts are worth: one line its own net, two lists the sum of
      theirs. */
  lemma {:induction false} TotalsAdd(a: seq<PricedLine>, b: seq<PricedLine>)
    ensures AnswerTotal(a + b, |a| + |b|) == AnswerTotal(a, |a|) + AnswerTotal(b, |b|)
    ensures |a| == 1 ==> AnswerTotal(a, 1) == a[0].net
  {
    TotalOfPrefix(a, a + b, |a|);
    TotalsAddUpTo(a, b, |b|);
    if |a| == 1 { assert AnswerTotal(a, 1) == AnswerTotal(a, 0) + a[0].net; }
  }

  lemma {:induction false} TotalOfPrefix(a: seq<PricedLine>, c: seq<PricedLine>, n: nat)
    requires n <= |a| <= |c| && forall k | 0 <= k < n :: a[k] == c[k]
    ensures AnswerTotal(a, n) == AnswerTotal(c, n)
  {
    if n > 0 { TotalOfPrefix(a, c, n - 1); }
  }

  lemma {:induction false} TotalsAddUpTo(a: seq<PricedLine>, b: seq<PricedLine>, n: nat)
    requires n <= |b|
    ensures AnswerTotal(a + b, |a| + n) == AnswerTotal(a + b, |a|) + AnswerTotal(b, n)
  {
    if n > 0 { TotalsAddUpTo(a, b, n - 1); }
  }

  /** Net totals shown on the first n display lines (an unavailable line shows none). */
  function DisplayTotal(lines: seq<DisplayLine>, n: nat): real
    requires n <= |lines|
  {
    if n == 0 then 0.0
    else
      DisplayTotal(lines, n - 1) + (match lines[n - 1].net case None => 0.0 case Some(x) => x)
  }

  /** The catalog's name of the item; an item it does not know has none. */
  predicate Names(catalog: map<Id, Snapshot>, item: Id, name: string) {
    (item in catalog ==> name == catalog[item].name) && (item !in catalog ==> name == "")
  }

  /** The display lines mirror the cart lines one for one, in order. */
  ghost predicate Mirrors(prices: map<Id, PriceRow>, catalog: map<Id, Snapshot>,
    lines: seq<CartLine>, display: seq<DisplayLine>)
  {
    |display| <= |lines|
    && forall k | 0 <= k < |display| ::
      && display[k].line == lines[k].id
      && display[k].item == lines[k].item
      && display[k].quantity == lines[k].quantity
      && Names(catalog, lines[k].item, display[k].name)
      && (display[k].unavailable <==> lines[k].item !in prices)
      && display[k].listPrice == (if lines[k].item in prices then prices[lines[k].item].listPrice else 0.0)
  }

  /** After the first t answers have been folded back: the priceable line of rank
      r < t carries answer r, and every other line carries nothing. */
  ghost predicate FoldedBack(prices: map<Id, PriceRow>, lines: seq<CartLine>,
    display: seq<DisplayLine>, answers: seq<PricedLine>, t: nat)
  {
    |display| == |lines| && t <= |answers|
    && forall k | 0 <= k < |lines| ::
      if lines[k].item in prices && Rank(prices, lines, k) < t then
        display[k].unit == Some(answers[Rank(prices, lines, k)].unit)
        && display[k].net == Some(answers[Rank(prices, lines, k)].net)
      else display[k].unit == None && display[k].net == None
  }

  // ── facts about ranks ─────────────────────────────────────────────────────

  lemma {:induction false} RankStep(prices: map<Id, PriceRow>, lines: seq<CartLine>, i: nat, j: nat)
    requires i <= j <= |lines|
    ensures Rank(prices, lines, i) <= Rank(prices, lines, j)
    ensures i < j && Priceable(prices, lines[i]) ==> Rank(prices, lines, i) < Rank(prices, lines, j)
  {
    if i < j {
      RankStep(prices, lines, i, j - 1);
    }
  }

  /** What is asked for one cart line: its own item and quantity, at the website's list
      price, with the group and brand the catalog knows the item by. */
  predicate AsksFor(ask: PriceLine, line: CartLine, prices: map<Id, PriceRow>, catalog: map<Id, Snapshot>) {
    && ask.item == line.item && ask.quantity == line.quantity
    && line.item in prices && ask.listPrice == prices[line.item].listPrice
    && (line.item in catalog ==> ask.group == catalog[line.item].group && ask.brand == catalog[line.item].brand)
    && (line.item !in catalog ==> ask.group == None && ask.brand == None)
  }

  /** Request line r asks for exactly the priceable cart line of rank r. */
  lemma {:induction false} RequestLineOfRank(
    prices: map<Id, PriceRow>, catalog: map<Id, Snapshot>, lines: seq<CartLine>, n: nat, k: nat)
    requires k < n <= |lines| && lines[k].item in prices
    ensures Rank(prices, lines, k) < Rank(prices, lines, n)
    ensures AsksFor(RequestLines(prices, catalog, lines, n)[Rank(prices, lines, k)], lines[k], prices, catalog)
  {
    if k < n - 1 { RequestLineOfRank(prices, catalog, lines, n - 1, k); }
  }

  /** The rank of a line is the number of priceable lines before it. */
  lemma {:induction false} RankCounts(prices: map<Id, PriceRow>, lines: seq<CartLine>, n: nat)
    requires n <= |lines|
    ensures Rank(prices, lines, n) == |set k: nat | k < n && lines[k].item in prices|
  {
    var counted := set k: nat | k < n && lines[k].item in prices;
    if n > 0 {
      RankCounts(prices, lines, n - 1);
      var before := set k: nat | k < n - 1 && lines[k].item in prices;
      if lines[n - 1].item in prices { assert counted == before + {n - 1}; } else { assert counted == before; }
    } else {
      assert counted == {};
    }
  }

  /** No two priceable lines share a rank. */
  lemma RanksDiffer(prices: map<Id, PriceRow>, lines: seq<CartLine>, j: nat, k: nat)
    requires j < |lines| && k < |lines| && j != k
    requires Priceable(prices, lines[j]) && Priceable(prices, lines[k])
    ensures Rank(prices, lines, j) != Rank(prices, lines, k)
  {
    if j < k { RankStep(prices, lines, j, k); } else { RankStep(prices, lines, k, j); }
  }

  /** Every rank is some priceable line's: the numbering has no gaps. */
  lemma {:induction false} LineOfRank(prices: map<Id, PriceRow>, lines: seq<CartLine>, n: nat, r: nat)
    returns (k: nat)
    requires n <= |lines| && r < Rank(prices, lines, n)
    ensures k < n && Priceable(prices, lines[k]) && Rank(prices, lines, k) == r
  {
    if r == Rank(prices, lines, n - 1) { k := n - 1; } else { k := LineOfRank(prices, lines, n - 1, r); }
  }

  /** Conservation: what the display lines show adds up to what the port answered. */
  lemma {:induction false} FoldBackConserves(prices: map<Id, PriceRow>, lines: seq<CartLine>,
    display: seq<DisplayLine>, answers: seq<PricedLine>, n: nat)
    requires FoldedBack(prices, lines, display, answers, |answers|)
    requires n <= |lines| && Rank(prices, lines, |lines|) == |answers|
    ensures Rank(prices, lines, n) <= |answers|
    ensures DisplayTotal(display, n) == AnswerTotal(answers, Rank(prices, lines, n))
  {
    RankStep(prices, lines, n, |lines|);
    if n > 0 {
      FoldBackConserves(prices, lines, display, answers, n - 1);
      if Priceable(prices, lines[n - 1]) {
        RankStep(prices, lines, n - 1, |lines|);
      }
    }
  }

  function MissingItems(catalog: map<Id, Snapshot>, rewards: seq<Reward>): seq<Id> {
    if rewards == [] then []
    else (if rewards[0].item in catalog then [] else [rewards[0].item]) + MissingItems(catalog, rewards[1..])
  }

  /** Exactly the rewarded items the cart's own read did not name are read again. */
  lemma {:induction false} MissingItemsAre(catalog: map<Id, Snapshot>, rewards: seq<Reward>, item: Id)
    ensures item in MissingItems(catalog, rewards)
            <==> item !in catalog && exists i :: 0 <= i < |rewards| && rewards[i].item == item
  {
    if rewards != [] {
      MissingItemsAre(catalog, rewards[1..], item);
      assert rewards == [rewards[0]] + rewards[1..];
    }
  }

  /** The request the derivation sends: one line per priceable cart line. */
  function RequestFor(company: Id, party: Option<Id>, coupon: Option<string>, group: Option<Id>,
    prices: map<Id, PriceRow>, catalog: map<Id, Snapshot>, lines: seq<CartLine>): PriceRequest
  {
    PriceRequest(company, party, group, coupon, RequestLines(prices, catalog, lines, |lines|))
  }

  /** A request for this basket: the cart's own company, party and coupon, the group it is
      priced for, and one line for each priceable cart line, in the cart's order. */
  ghost predicate Asks(req: PriceRequest, company: Id, party: Option<Id>, coupon: Option<string>, group: Option<Id>,
    prices: map<Id, PriceRow>, catalog: map<Id, Snapshot>, lines: seq<CartLine>)
  {
    && req.company == company && req.customer == party && req.coupon == coupon && req.group == group
    && |req.lines| == Rank(prices, lines, |lines|)
    && forall k | 0 <= k < |lines| && lines[k].item in prices ::
      Rank(prices, lines, k) < |req.lines| && AsksFor(req.lines[Rank(prices, lines, k)], lines[k], prices, catalog)
  }

  lemma RequestAsks(company: Id, party: Option<Id>, coupon: Option<string>, group: Option<Id>,
    prices: map<Id, PriceRow>, catalog: map<Id, Snapshot>, lines: seq<CartLine>)
    ensures Asks(RequestFor(company, party, coupon, group, prices, catalog, lines),
                 company, party, coupon, group, prices, catalog, lines)
  {
    forall k | 0 <= k < |lines| && lines[k].item in prices
      ensures Rank(prices, lines, k) < Rank(prices, lines, |lines|)
      ensures AsksFor(RequestLines(prices, catalog, lines, |lines|)[Rank(prices, lines, k)], lines[k], prices, catalog)
    {
      RequestLineOfRank(prices, catalog, lines, |lines|, k);
    }
  }

  /** The fields leave no choice: two requests for one basket are the same request. */
  lemma OneRequestPerBasket(req: PriceRequest, other: PriceRequest, company: Id, party: Option<Id>,
    coupon: Option<string>, group: Option<Id>, prices: map<Id, PriceRow>, catalog: map<Id, Snapshot>, lines: seq<CartLine>)
    requires Asks(req, company, party, coupon, group, prices, catalog, lines)
    requires Asks(other, company, party, coupon, group, prices, catalog, lines)
    ensures req == other
  {
    forall r | 0 <= r < |req.lines| ensures req.lines[r] == other.lines[r] {
      var k := LineOfRank(prices, lines, |lines|, r);
      assert AsksFor(req.lines[r], lines[k], prices, catalog) && AsksFor(other.lines[r], lines[k], prices, catalog);
    }
  }

  function LineItems(lines: seq<CartLine>): seq<Id> {
    seq(|lines|, i requires 0 <= i < |lines| => lines[i].item)
  }

  // ── the derivation ────────────────────────────────────────────────────────

  /** A line's display row before any answer is folded in. */
  function BlankLine(prices: map<Id, PriceRow>, catalog: map<Id, Snapshot>, line: CartLine): DisplayLine {
    if Priceable(prices, line) then
      DisplayLine(line.id, line.item, NameOf(catalog, line.item), line.quantity,
                  prices[line.item].listPrice, None, None, false)
    else
      DisplayLine(line.id, line.item, NameOf(catalog, line.item), line.quantity, 0.0, None, None, true)
  }

  /** Slot assembly: one display line per cart line, one request line per priceable
      line, and for each request line the display slot it came from. */
  method Assemble(prices: map<Id, PriceRow>, catalog: map<Id, Snapshot>, lines: seq<CartLine>)
    returns (display: seq<DisplayLine>, request: seq<PriceLine>, slots: seq<nat>, currency: string, unavailable: nat)
    ensures |display| == |lines|
    ensures forall k | 0 <= k < |lines| :: display[k] == BlankLine(prices, catalog, lines[k])
    ensures request == RequestLines(prices, catalog, lines, |lines|)
    ensures |slots| == Rank(prices, lines, |lines|)
    ensures forall t | 0 <= t < |slots| ::
      slots[t] < |lines| && Priceable(prices, lines[slots[t]]) && Rank(prices, lines, slots[t]) == t
    ensures currency == FirstCurrency(prices, lines, |lines|)
    ensures unavailable == |lines| - Rank(prices, lines, |lines|)
  {
    display, request, slots, currency, unavailable := [], [], [], "", 0;
    for i := 0 to |lines|
      invariant |display| == i
      invariant forall k | 0 <= k < i :: display[k] == BlankLine(prices, catalog, lines[k])
      invariant request == RequestLines(prices, catalog, lines, i)
      invariant |slots| == Rank(prices, lines, i)
      invariant forall t | 0 <= t < |slots| ::
        slots[t] < i && Priceable(prices, lines[slots[t]]) && Rank(prices, lines, slots[t]) == t
      invariant currency == FirstCurrency(prices, lines, i)
      invariant unavailable == i - Rank(prices, lines, i)
    {
      var line := lines[i];
      var name := NameOf(catalog, line.item);
      if !Priceable(prices, line) {
        display := display + [DisplayLine(line.id, line.item, name, line.quantity, 0.0, None, None, true)];
        unavailable := unavailable + 1;
      } else {
        var row := prices[line.item];
        if currency == "" { currency := row.currency; }
        slots := slots + [|display|];
        request := request + [RequestLine(prices, catalog, line)];
        display := display
          + [DisplayLine(line.id, line.item, name, line.quantity, row.listPrice, None, None, false)];
      }
    }
  }

  lemma FoldOne(prices: map<Id, PriceRow>, lines: seq<CartLine>, display: seq<DisplayLine>,
    answers: seq<PricedLine>, t: nat, idx: nat)
    requires FoldedBack(prices, lines, display, answers, t) && t < |answers|
    requires idx < |lines| && Priceable(prices, lines[idx]) && Rank(prices, lines, idx) == t
    ensures FoldedBack(prices, lines,
      display[idx := display[idx].(unit := Some(answers[t].unit), net := Some(answers[t].net))], answers, t + 1)
  {
    forall k | 0 <= k < |lines| && k != idx && Priceable(prices, lines[k])
      ensures Rank(prices, lines, k) != t
    {
      RanksDiffer(prices, lines, k, idx);
    }
  }

  /** The fold-back: answer t is written onto the slot of request line t. */
  method FoldBack(ghost prices: map<Id, PriceRow>, ghost catalog: map<Id, Snapshot>, ghost lines: seq<CartLine>,
    blank: seq<DisplayLine>, slots: seq<nat>, answers: seq<PricedLine>)
    returns (display: seq<DisplayLine>, subtotal: real)
    requires |blank| == |lines| && Mirrors(prices, catalog, lines, blank)
    requires forall k | 0 <= k < |lines| :: blank[k].unit == None && blank[k].net == None
    requires |slots| == |answers| == Rank(prices, lines, |lines|)
    requires forall t | 0 <= t < |slots| ::
      slots[t] < |lines| && Priceable(prices, lines[slots[t]]) && Rank(prices, lines, slots[t]) == t
    ensures |display| == |lines| && Mirrors(prices, catalog, lines, display)
    ensures FoldedBack(prices, lines, display, answers, |answers|)
    ensures subtotal == AnswerTotal(answers, |answers|)
  {
    display, subtotal := blank, 0.0;
    for t := 0 to |slots|
      invariant |display| == |lines| && Mirrors(prices, catalog, lines, display)
      invariant FoldedBack(prices, lines, display, answers, t)
      invariant subtotal == AnswerTotal(answers, t)
    {
      var idx := slots[t];
      FoldOne(prices, lines, display, answers, t, idx);
      display := display[idx := display[idx].(unit := Some(answers[t].unit), net := Some(answers[t].net))];
      subtotal := subtotal + answers[t].net;
    }
  }

  method NameRewards(names: map<Id, Snapshot>, rewards: seq<Reward>) returns (views: seq<RewardView>)
    ensures |views| == |rewards|
    ensures forall i | 0 <= i < |rewards| ::
      views[i] == RewardView(rewards[i].item, NameOf(names, rewards[i].item), rewards[i].quantity)
  {
    views := [];
    for i := 0 to |rewards|
      invariant |views| == i
      invariant forall j | 0 <= j < i ::
        views[j] == RewardView(rewards[j].item, NameOf(names, rewards[j].item), rewards[j].quantity)
    {
      views := views + [RewardView(rewards[i].item, NameOf(names, rewards[i].item), rewards[i].quantity)];
    }
  }

  /** What a priced view promises, given the port's answered lines. */
  ghost predicate PricedFrom(prices: map<Id, PriceRow>, catalog: map<Id, Snapshot>, group: Option<Id>,
    lines: seq<CartLine>, answers: seq<PricedLine>, view: PricedCart)
  {
    // Every line is shown, in order, with its own quantity and list price.
    && |view.lines| == |lines|
    && Mirrors(prices, catalog, lines, view.lines)
    && view.unavailableCount == |lines| - Rank(prices, lines, |lines|)
    && view.group == group
    && CurrencyIs(prices, lines, view.currency)
    // The answers land by rank, and only there; nothing is charged elsewhere.
    && |answers| == Rank(prices, lines, |lines|)
    && FoldedBack(prices, lines, view.lines, answers, |answers|)
    && view.subtotal == DisplayTotal(view.lines, |lines|) == AnswerTotal(answers, |answers|)
  }

  /** The rewards in order, with their own items, quantities and catalog names. */
  ghost predicate Rewarded(names: map<Id, Snapshot>, rewards: seq<Reward>, views: seq<RewardView>) {
    |views| == |rewards|
    && forall i | 0 <= i < |rewards| ::
      views[i].item == rewards[i].item && views[i].quantity == rewards[i].quantity
      && Names(names, rewards[i].item, views[i].name)
  }

  /** What the derivation answers, given what the pricing port answered: an
      unpriceable basket never reaches the port, and a refusal or a wrong number of
      lines is refused. */
  ghost predicate Derived(prices: map<Id, PriceRow>, catalog: map<Id, Snapshot>, group: Option<Id>,
    lines: seq<CartLine>, answer: Result<PortAnswer, string>, names: CatalogPort, r: Result<PricedCart, PricingError>)
  {
    if Rank(prices, lines, |lines|) == 0 then
      r.Ok? && PricedFrom(prices, catalog, group, lines, [], r.value) && r.value.rewards == []
    else if answer.Err? then r == Err(PricingRefused(answer.error))
    else if |answer.value.lines| != Rank(prices, lines, |lines|) then r == Err(LineCountMismatch)
    else Charged(prices, catalog, group, lines, answer.value, names, r)
  }

  /** The port's answer folded in, and the rewards named unless the catalog refuses. */
  ghost predicate Charged(prices: map<Id, PriceRow>, catalog: map<Id, Snapshot>, group: Option<Id>,
    lines: seq<CartLine>, answer: PortAnswer, names: CatalogPort, r: Result<PricedCart, PricingError>)
  {
    var missing := MissingItems(catalog, answer.rewards);
    if missing != [] && names(missing).Err? then r == Err(CatalogRefused(names(missing).error))
    else
      r.Ok? && PricedFrom(prices, catalog, group, lines, answer.lines, r.value)
      && Rewarded(if missing == [] then catalog else catalog + SnapshotMap(names(missing).value),
                  answer.rewards, r.value.rewards)
  }

  /** The ports are asked about the cart's own items, party and basket, and the answer is
      folded back onto the cart's own lines. */
  method PriceCart(
    company: Id, party: Option<Id>, coupon: Option<string>, lines: seq<CartLine>,
    rows: seq<(Id, PriceRow)>, catalogPort: CatalogPort, settingsGroup: Option<Id>,
    segments: SegmentPort, port: PricingPort)
    returns (r: Result<PricedCart, PricingError>)
    ensures catalogPort(LineItems(lines)).Err? ==> r == Err(CatalogRefused(catalogPort(LineItems(lines)).error))
    ensures catalogPort(LineItems(lines)).Ok? && party.Some? && segments(party.value).Err? ==>
      r == Err(PartyRefused(segments(party.value).error))
    ensures catalogPort(LineItems(lines)).Ok? && (party.Some? ==> segments(party.value).Ok?) ==>
      var prices := PriceMap(rows);
      var catalog := SnapshotMap(catalogPort(LineItems(lines)).value);
      var own := if party.Some? then segments(party.value).value else None;
      var group := if own.Some? then own else settingsGroup;
      exists req :: Asks(req, company, party, coupon, group, prices, catalog, lines)
                    && Derived(prices, catalog, group, lines, port(req), catalogPort, r)
  {
    var prices := PriceMap(rows);
    var snapshots := catalogPort(LineItems(lines));
    if snapshots.Err? { return Err(CatalogRefused(snapshots.error)); }
    var catalog := SnapshotMap(snapshots.value);
    var resolved := ResolveGroup(settingsGroup, segments, party);
    if resolved.Err? { return Err(PartyRefused(resolved.error)); }
    RequestAsks(company, party, coupon, resolved.value, prices, catalog, lines);
    r := Derive(company, party, coupon, lines, prices, catalog, resolved.value, catalogPort, port);
  }

  /** The derivation once the rows, the catalog and the group are at hand. */
  method Derive(
    company: Id, party: Option<Id>, coupon: Option<string>, lines: seq<CartLine>,
    prices: map<Id, PriceRow>, catalog: map<Id, Snapshot>, group: Option<Id>, catalogPort: CatalogPort, port: PricingPort)
    returns (r: Result<PricedCart, PricingError>)
    ensures Derived(prices, catalog, group, lines,
                    port(RequestFor(company, party, coupon, group, prices, catalog, lines)), catalogPort, r)
  {
    var blank, request, slots, currency, unavailable := Assemble(prices, catalog, lines);
    if request == [] {
      var view := PricedCart(blank, 0.0, OrIdr(currency), group, [], unavailable);
      BlankIsPriced(prices, catalog, group, lines, view);
      return Ok(view);
    }
    var answer := port(PriceRequest(company, party, group, coupon, request));
    if answer.Err? { return Err(PricingRefused(answer.error)); }
    if |answer.value.lines| != |slots| { return Err(LineCountMismatch); }
    r := Charge(prices, catalog, group, lines, blank, slots, currency, unavailable, answer.value, catalogPort);
  }

  /** Fold the answer back and name the rewards. */
  method Charge(
    ghost prices: map<Id, PriceRow>, catalog: map<Id, Snapshot>, group: Option<Id>, ghost lines: seq<CartLine>,
    blank: seq<DisplayLine>, slots: seq<nat>, currency: string, unavailable: nat,
    answer: PortAnswer, catalogPort: CatalogPort)
    returns (r: Result<PricedCart, PricingError>)
    requires |blank| == |lines| && forall k | 0 <= k < |lines| :: blank[k] == BlankLine(prices, catalog, lines[k])
    requires |slots| == |answer.lines| == Rank(prices, lines, |lines|)
    requires forall t | 0 <= t < |slots| ::
      slots[t] < |lines| && Priceable(prices, lines[slots[t]]) && Rank(prices, lines, slots[t]) == t
    requires currency == FirstCurrency(prices, lines, |lines|) && unavailable == |lines| - Rank(prices, lines, |lines|)
    ensures Charged(prices, catalog, group, lines, answer, catalogPort, r)
  {
    var display, subtotal := ChargeLines(prices, catalog, lines, blank, slots, answer.lines);
    var views := ResolveRewards(catalog, catalogPort, answer.rewards);
    if views.Err? { return Err(views.error); }
    CurrencyIsNamed(prices, lines);
    r := Ok(PricedCart(display, subtotal, OrIdr(currency), group, views.value, unavailable));
  }

  lemma BlankIsPriced(prices: map<Id, PriceRow>, catalog: map<Id, Snapshot>, group: Option<Id>,
    lines: seq<CartLine>, view: PricedCart)
    requires Rank(prices, lines, |lines|) == 0
    requires |view.lines| == |lines| && forall k | 0 <= k < |lines| :: view.lines[k] == BlankLine(prices, catalog, lines[k])
    requires view == PricedCart(view.lines, 0.0, OrIdr(FirstCurrency(prices, lines, |lines|)), group, [], |lines|)
    ensures PricedFrom(prices, catalog, group, lines, [], view)
  {
    NoAnswersNoTotal(view.lines, |lines|);
    CurrencyIsNamed(prices, lines);
    assert AnswerTotal([], 0) == 0.0;
  }

  /** The fold-back, and what it conserves: the subtotal is both what the port charged
      and what the lines show. */
  method ChargeLines(ghost prices: map<Id, PriceRow>, ghost catalog: map<Id, Snapshot>, ghost lines: seq<CartLine>,
    blank: seq<DisplayLine>, slots: seq<nat>, answers: seq<PricedLine>)
    returns (display: seq<DisplayLine>, subtotal: real)
    requires |blank| == |lines| && forall k | 0 <= k < |lines| :: blank[k] == BlankLine(prices, catalog, lines[k])
    requires |slots| == |answers| == Rank(prices, lines, |lines|)
    requires forall t | 0 <= t < |slots| ::
      slots[t] < |lines| && Priceable(prices, lines[slots[t]]) && Rank(prices, lines, slots[t]) == t
    ensures |display| == |lines| && Mirrors(prices, catalog, lines, display)
    ensures FoldedBack(prices, lines, display, answers, |answers|)
    ensures subtotal == DisplayTotal(display, |lines|) == AnswerTotal(answers, |answers|)
  {
    display, subtotal := FoldBack(prices, catalog, lines, blank, slots, answers);
    FoldBackConserves(prices, lines, display, answers, |lines|);
  }

  /** Reward names, with one more catalog read for the items the cart did not name. */
  method ResolveRewards(catalog: map<Id, Snapshot>, catalogPort: CatalogPort, rewards: seq<Reward>)
    returns (r: Result<seq<RewardView>, PricingError>)
    ensures var missing := MissingItems(catalog, rewards);
      if missing != [] && catalogPort(missing).Err? then r == Err(CatalogRefused(catalogPort(missing).error))
      else
        r.Ok? && Rewarded(if missing == [] then catalog else catalog + SnapshotMap(catalogPort(missing).value),
                          rewards, r.value)
  {
    var names := catalog;
    var missing := MissingItems(catalog, rewards);
    if missing != [] {
      var extra := catalogPort(missing);
      if extra.Err? { return Err(CatalogRefused(extra.error)); }
      names := catalog + SnapshotMap(extra.value);
    }
    var views := NameRewards(names, rewards);
    r := Ok(views);
  }

  lemma {:induction false} NoAnswersNoTotal(display: seq<DisplayLine>, n: nat)
    requires n <= |display|
    requires forall k | 0 <= k < n :: display[k].net == None
    ensures DisplayTotal(display, n) == 0.0
  {
    if n > 0 { NoAnswersNoTotal(display, n - 1); }
  }

  // ── what place takes from the derivation ──────────────────────────────────

  /** Place refuses a basket with any unavailable line; this is that test. */
  predicate AllPriceable(prices: map<Id, PriceRow>, lines: seq<CartLine>) {
    forall k | 0 <= k < |lines| :: Priceable(prices, lines[k])
  }

  /** The order lines place sends to the mint: item, quantity and list price of
      every display line. */
  function MintLines(prices: map<Id, PriceRow>, lines: seq<CartLine>): (r: seq<OrderLine>)
    requires AllPriceable(prices, lines)
    ensures |r| == |lines|
    ensures forall k | 0 <= k < |lines| ::
      r[k] == OrderLine(lines[k].item, lines[k].quantity, prices[lines[k].item].listPrice)
  {
    seq(|lines|, k requires 0 <= k < |lines| =>
      OrderLine(lines[k].item, lines[k].quantity, prices[lines[k].item].listPrice))
  }

  /** The place-time test on the view is the test on the price rows, and the view
      of an accepted basket carries exactly the mint lines. */
  lemma {:induction false} UnavailableCountZeroIff(prices: map<Id, PriceRow>, lines: seq<CartLine>, n: nat)
    requires n <= |lines|
    ensures Rank(prices, lines, n) == n <==> forall k | 0 <= k < n :: Priceable(prices, lines[k])
  {
    if n > 0 { UnavailableCountZeroIff(prices, lines, n - 1); }
  }
}
