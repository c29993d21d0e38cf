/** The officer verbs on listings and prices, and the three readers of the publish
    gate: the listing pages, the product detail and the cart's mutation-time gate. */
module Merchandising {
  import opened StorefrontTypes
  import Text
  import Listing

  datatype ListingEntry = ListingEntry(
    website: Id, item: Id, saleOk: bool, published: bool, sequence: int, backorder: bool,
    created: Option<int>, deleted: bool)

  datatype PriceEntry = PriceEntry(website: Id, item: Id, listPrice: real, currency: string, deleted: bool)

  type Listings = map<Id, ListingEntry>
  type Prices = map<Id, PriceEntry>

  predicate LiveListing(listings: Listings, l: Id, website: Id, item: Id) {
    l in listings && !listings[l].deleted && listings[l].website == website && listings[l].item == item
  }

  predicate LivePrice(prices: Prices, p: Id, website: Id, item: Id) {
    p in prices && !prices[p].deleted && prices[p].website == website && prices[p].item == item
  }

  ghost predicate OneLiveListing(listings: Listings) {
    forall a, b | a in listings && b in listings && !listings[a].deleted && !listings[b].deleted
                  && listings[a].website == listings[b].website && listings[a].item == listings[b].item :: a == b
  }

  ghost predicate OneLivePrice(prices: Prices) {
    forall a, b | a in prices && b in prices && !prices[a].deleted && !prices[b].deleted
                  && prices[a].website == prices[b].website && prices[a].item == prices[b].item :: a == b
  }

  // ── officer verbs ─────────────────────────────────────────────────────────

  datatype OfficerError = NotFound | NegativePrice | BadCurrency

  class CatalogTables {
    var listings: Listings
    var prices: Prices

    /** At most one live listing and one live price per website and item. */
    ghost predicate Valid()
      reads this
    {
      OneLiveListing(listings) && OneLivePrice(prices)
    }

    constructor ()
      ensures Valid() && listings == map[] && prices == map[]
    {
      listings := map[];
      prices := map[];
    }

    /** Update the pair's live listing, or insert an unpublished one: this verb never
        writes `published`. */
    method UpsertListing(newId: Id, website: Id, item: Id, saleOk: bool, sequence: int, now: int) returns (id: Id)
      requires Valid() && newId !in listings
      modifies this`listings
      ensures Valid()
      ensures if exists l :: LiveListing(old(listings), l, website, item) then
                LiveListing(old(listings), id, website, item)
                && listings == old(listings)[id := old(listings)[id].(saleOk := saleOk, sequence := sequence)]
              else
                id == newId
                && listings == old(listings)[id := ListingEntry(website, item, saleOk, false, sequence, false,
                                                                Some(now), false)]
    {
      if l :| l in listings && LiveListing(listings, l, website, item) {
        id := l;
        listings := listings[l := listings[l].(saleOk := saleOk, sequence := sequence)];
      } else {
        id := newId;
        listings := listings[newId := ListingEntry(website, item, saleOk, false, sequence, false, Some(now), false)];
      }
    }

    /** Set the sold-out policy of the pair's live listing. */
    method SetListingBackorder(website: Id, item: Id, allowed: bool) returns (r: Result<Id, OfficerError>)
      requires Valid()
      modifies this`listings
      ensures Valid()
      ensures r.Ok? <==> exists l :: LiveListing(old(listings), l, website, item)
      ensures r.Ok? ==> LiveListing(old(listings), r.value, website, item)
                        && listings == old(listings)[r.value := old(listings)[r.value].(backorder := allowed)]
      ensures r.Err? ==> r.error == NotFound && listings == old(listings)
    {
      if l :| l in listings && LiveListing(listings, l, website, item) {
        listings := listings[l := listings[l].(backorder := allowed)];
        r := Ok(l);
      } else {
        r := Err(NotFound);
      }
    }

    /** One of the two writers of `published`: missing and already published rows
        answer alike. */
    method PublishListing(l: Id) returns (ok: bool)
      requires Valid()
      modifies this`listings
      ensures Valid()
      ensures ok <==> l in old(listings) && !old(listings)[l].deleted && !old(listings)[l].published
      ensures listings == if ok then old(listings)[l := old(listings)[l].(published := true)] else old(listings)
    {
      ok := l in listings && !listings[l].deleted && !listings[l].published;
      if ok { listings := listings[l := listings[l].(published := true)]; }
    }

    /** The other writer of `published`. */
    method UnpublishListing(l: Id) returns (ok: bool)
      requires Valid()
      modifies this`listings
      ensures Valid()
      ensures ok <==> l in old(listings) && !old(listings)[l].deleted && old(listings)[l].published
      ensures listings == if ok then old(listings)[l := old(listings)[l].(published := false)] else old(listings)
    {
      ok := l in listings && !listings[l].deleted && listings[l].published;
      if ok { listings := listings[l := listings[l].(published := false)]; }
    }

    /** Update the pair's live price, or insert one. */
    method SetPrice(newId: Id, website: Id, item: Id, listPrice: real, currency: string)
      returns (r: Result<Id, OfficerError>)
      requires Valid() && newId !in prices
      modifies this`prices
      ensures Valid()
      ensures var code := Text.Upper(Text.Trim(currency));
        if listPrice < 0.0 then r == Err(NegativePrice) && prices == old(prices)
        else if |code| != 3 then r == Err(BadCurrency) && prices == old(prices)
        else if exists p :: LivePrice(old(prices), p, website, item) then
          r.Ok? && LivePrice(old(prices), r.value, website, item)
          && prices == old(prices)[r.value := old(prices)[r.value].(listPrice := listPrice, currency := code)]
        else
          r == Ok(newId) && prices == old(prices)[newId := PriceEntry(website, item, listPrice, code, false)]
    {
      var code := Text.Upper(Text.Trim(currency));
      if listPrice < 0.0 { return Err(NegativePrice); }
      if |code| != 3 { return Err(BadCurrency); }
      if p :| p in prices && LivePrice(prices, p, website, item) {
        prices := prices[p := prices[p].(listPrice := listPrice, currency := code)];
        r := Ok(p);
      } else {
        prices := prices[newId := PriceEntry(website, item, listPrice, code, false)];
        r := Ok(newId);
      }
    }
  }

  // ── the gate ──────────────────────────────────────────────────────────────

  /** A listing and a price that together open the gate's SQL arm. */
  predicate Joins(listings: Listings, prices: Prices, l: Id, p: Id, website: Id) {
    l in listings && LiveListing(listings, l, website, listings[l].item)
    && listings[l].saleOk && listings[l].published
    && LivePrice(prices, p, website, listings[l].item)
  }

  function JoinedRow(listings: Listings, prices: Prices, l: Id, p: Id): Listing.GatedRow
    requires l in listings && p in prices
  {
    Listing.GatedRow(l, listings[l].item, listings[l].sequence, prices[p].listPrice, prices[p].currency,
                     listings[l].created)
  }

  /** Every row the gate's SQL arm lets through on one website. */
  function GatedRows(listings: Listings, prices: Prices, website: Id): set<Listing.GatedRow> {
    set l, p | l in listings && p in prices && Joins(listings, prices, l, p, website)
             :: JoinedRow(listings, prices, l, p)
  }

  /** A row of the item passes the SQL arm. */
  ghost predicate Passes(listings: Listings, prices: Prices, website: Id, item: Id) {
    exists l, p :: Joins(listings, prices, l, p, website) && listings[l].item == item
  }

  /** What the database may return for the listing read: distinct gated rows, all of
      them or as many as the bound allows, in any order. */
  ghost predicate IsFetch(rows: seq<Listing.GatedRow>, gated: set<Listing.GatedRow>) {
    && (forall r | r in rows :: r in gated)
    && (forall i, j | 0 <= i < j < |rows| :: rows[i] != rows[j])
    && |rows| == if |gated| <= Listing.MAX_FETCH_ROWS then |gated| else Listing.MAX_FETCH_ROWS
  }

  lemma GatedRowsPass(listings: Listings, prices: Prices, website: Id, item: Id)
    ensures Passes(listings, prices, website, item)
      <==> exists r | r in GatedRows(listings, prices, website) :: r.item == item
  {
    if Passes(listings, prices, website, item) {
      var l, p :| Joins(listings, prices, l, p, website) && listings[l].item == item;
      assert JoinedRow(listings, prices, l, p) in GatedRows(listings, prices, website);
    }
  }

  /** One live listing and price per pair: the join has one row per item. */
  lemma OneGatedRow(listings: Listings, prices: Prices, website: Id, r: Listing.GatedRow, q: Listing.GatedRow)
    requires OneLiveListing(listings) && OneLivePrice(prices)
    requires r in GatedRows(listings, prices, website) && q in GatedRows(listings, prices, website)
    requires r.item == q.item
    ensures r == q
  {}

  /** So the listing read's fetch has one row per item, and its order cannot matter. */
  lemma FetchHasOneRowPerItem(listings: Listings, prices: Prices, website: Id, rows: seq<Listing.GatedRow>)
    requires OneLiveListing(listings) && OneLivePrice(prices) && IsFetch(rows, GatedRows(listings, prices, website))
    ensures Listing.OneRowPerItem(rows)
  {
    forall i, j | 0 <= i < j < |rows| ensures rows[i].item != rows[j].item {
      assert rows[i] in rows && rows[j] in rows;
      if rows[i].item == rows[j].item { OneGatedRow(listings, prices, website, rows[i], rows[j]); }
    }
  }

  // ── a fetch within the bound is everything ────────────────────────────────

  function Members<T>(s: seq<T>): set<T> {
    set x | x in s
  }

  lemma {:induction false} DistinctMembersCount<T>(s: seq<T>)
    requires forall i, j | 0 <= i < j < |s| :: s[i] != s[j]
    ensures |Members(s)| == |s|
  {
    if s != [] {
      var n := |s| - 1;
      DistinctMembersCount(s[..n]);
      assert s[n] !in s[..n];
      assert Members(s) == Members(s[..n]) + {s[n]};
    }
  }

  lemma {:induction false} SubsetOfSameSize<T>(a: set<T>, b: set<T>)
    requires a <= b && |a| == |b|
    ensures a == b
  {
    if b != {} {
      assert |a| > 0;
      var x :| x in a;
      SubsetOfSameSize(a - {x}, b - {x});
    }
  }

  lemma SmallFetchIsEverything(rows: seq<Listing.GatedRow>, gated: set<Listing.GatedRow>)
    requires IsFetch(rows, gated) && |gated| <= Listing.MAX_FETCH_ROWS
    ensures Members(rows) == gated
  {
    DistinctMembersCount(rows);
    SubsetOfSameSize(Members(rows), gated);
  }

  // ── the three readers ─────────────────────────────────────────────────────

  type CatalogSingle = Id -> Result<Option<Listing.Snapshot>, string>

  /** The two port forms answer from one catalog: the batch carries each known item
      once, with the single form's facts. */
  ghost predicate CatalogsAgree(single: CatalogSingle, snapshots: seq<Listing.Snapshot>, item: Id) {
    single(item).Ok?
    && (single(item).value.None? ==> forall k | 0 <= k < |snapshots| :: snapshots[k].item != item)
    && (single(item).value.Some? ==>
          (exists k | 0 <= k < |snapshots| :: snapshots[k].item == item)
          && forall k | 0 <= k < |snapshots| && snapshots[k].item == item :: snapshots[k] == single(item).value.value)
  }

  datatype ReadError = PublishGateRefused | CatalogRefused(code: string)

  /** The catalog arm both single readers end with. */
  function ActiveSnapshot(single: CatalogSingle, item: Id): Result<Listing.Snapshot, ReadError> {
    match single(item)
    case Err(code) => Err(CatalogRefused(code))
    case Ok(None) => Err(PublishGateRefused)
    case Ok(Some(s)) => if s.active then Ok(s) else Err(PublishGateRefused)
  }

  /** The product detail: the item's gated row, if any, named by the catalog. */
  ghost function PublicDetail(listings: Listings, prices: Prices, single: CatalogSingle, website: Id, item: Id)
    : Result<Listing.Row, ReadError>
  {
    if !Passes(listings, prices, website, item) then Err(PublishGateRefused)
    else
      var l, p :| Joins(listings, prices, l, p, website) && listings[l].item == item;
      var s := ActiveSnapshot(single, item);
      if s.Err? then Err(s.error) else Ok(Listing.Row(JoinedRow(listings, prices, l, p), s.value.name))
  }

  /** The cart's mutation-time gate: the same arms, answering the row and the
      snapshot. */
  ghost function GatedListing(listings: Listings, prices: Prices, single: CatalogSingle, website: Id, item: Id)
    : Result<(Listing.GatedRow, Listing.Snapshot), ReadError>
  {
    if !Passes(listings, prices, website, item) then Err(PublishGateRefused)
    else
      var l, p :| Joins(listings, prices, l, p, website) && listings[l].item == item;
      var s := ActiveSnapshot(single, item);
      if s.Err? then Err(s.error) else Ok((JoinedRow(listings, prices, l, p), s.value))
  }

  /** The doors, one by one: a live listing of the pair both for sale and published, a
      live price of the pair, and a catalog that knows the item as active. */
  ghost predicate DoorsOpen(listings: Listings, prices: Prices, single: CatalogSingle, website: Id, item: Id) {
    && (exists l | l in listings :: OnSale(listings[l], website, item))
    && (exists p | p in prices :: Charges(prices[p], website, item))
    && single(item).Ok? && single(item).value.Some? && single(item).value.value.active
  }

  predicate OnSale(e: ListingEntry, website: Id, item: Id) {
    !e.deleted && e.website == website && e.item == item && e.saleOk && e.published
  }

  predicate Charges(e: PriceEntry, website: Id, item: Id) {
    !e.deleted && e.website == website && e.item == item
  }

  lemma PassesIff(listings: Listings, prices: Prices, website: Id, item: Id)
    ensures Passes(listings, prices, website, item)
            <==> (exists l | l in listings :: OnSale(listings[l], website, item))
                 && (exists p | p in prices :: Charges(prices[p], website, item))
  {
    if (exists l | l in listings :: OnSale(listings[l], website, item))
       && (exists p | p in prices :: Charges(prices[p], website, item)) {
      var l :| l in listings && OnSale(listings[l], website, item);
      var p :| p in prices && Charges(prices[p], website, item);
      assert Joins(listings, prices, l, p, website);
    }
  }

  /** The detail and the cart's gate open exactly when every door is; a closed one is
      refused alike whichever it is, but for a catalog that does not answer. */
  lemma DetailReadsIff(listings: Listings, prices: Prices, single: CatalogSingle, website: Id, item: Id)
    ensures PublicDetail(listings, prices, single, website, item).Ok?
            <==> DoorsOpen(listings, prices, single, website, item)
    ensures GatedListing(listings, prices, single, website, item).Ok?
            <==> DoorsOpen(listings, prices, single, website, item)
    ensures PublicDetail(listings, prices, single, website, item).Err? ==>
      PublicDetail(listings, prices, single, website, item)
      == Err(if Passes(listings, prices, website, item) && single(item).Err? then CatalogRefused(single(item).error)
             else PublishGateRefused)
  {
    PassesIff(listings, prices, website, item);
  }

  /** The row shown is the pair's own: the listing's id, sequence and stamp, the price's
      amount and currency, the catalog's name; the cart's gate answers the same row. */
  lemma DetailShowsThePair(listings: Listings, prices: Prices, single: CatalogSingle, website: Id, item: Id, l: Id, p: Id)
    requires OneLiveListing(listings) && OneLivePrice(prices)
    requires l in listings && OnSale(listings[l], website, item) && p in prices && Charges(prices[p], website, item)
    requires PublicDetail(listings, prices, single, website, item).Ok?
    ensures var row := PublicDetail(listings, prices, single, website, item).value;
      && row.gated.listing == l && row.gated.item == item
      && row.gated.sequence == listings[l].sequence && row.gated.created == listings[l].created
      && row.gated.listPrice == prices[p].listPrice && row.gated.currency == prices[p].currency
      && single(item).Ok? && single(item).value.Some? && row.name == single(item).value.value.name
    ensures GatedListing(listings, prices, single, website, item).Ok?
    ensures var (gated, snapshot) := GatedListing(listings, prices, single, website, item).value;
      gated == PublicDetail(listings, prices, single, website, item).value.gated
      && single(item) == Ok(Some(snapshot))
  {}

  /** Every row a fetch can return is such a pair's. */
  lemma GatedRowIff(listings: Listings, prices: Prices, website: Id, r: Listing.GatedRow)
    ensures r in GatedRows(listings, prices, website)
            <==> r.listing in listings && OnSale(listings[r.listing], website, r.item)
                 && listings[r.listing].sequence == r.sequence && listings[r.listing].created == r.created
                 && exists p | p in prices ::
                      Charges(prices[p], website, r.item)
                      && prices[p].listPrice == r.listPrice && prices[p].currency == r.currency
  {
    if r.listing in listings && OnSale(listings[r.listing], website, r.item)
       && listings[r.listing].sequence == r.sequence && listings[r.listing].created == r.created {
      forall p | p in prices && Charges(prices[p], website, r.item)
                 && prices[p].listPrice == r.listPrice && prices[p].currency == r.currency
        ensures r in GatedRows(listings, prices, website)
      {
        assert Joins(listings, prices, r.listing, p, website) && r == JoinedRow(listings, prices, r.listing, p);
      }
    }
  }

  /** Unpublishing the pair's live listing closes every door of the item at once: the
      detail and the cart's gate refuse, and no fetch returns a row of it, so no page of
      any search shows it. */
  lemma UnpublishCloses(listings: Listings, prices: Prices, single: CatalogSingle, website: Id, item: Id, l: Id,
                        rows: seq<Listing.GatedRow>, snapshots: seq<Listing.Snapshot>, q: Option<string>,
                        sort: Listing.SortKind, page: int, size: int)
    requires OneLiveListing(listings) && LiveListing(listings, l, website, item)
    requires IsFetch(rows, GatedRows(listings[l := listings[l].(published := false)], prices, website))
    ensures var after := listings[l := listings[l].(published := false)];
      && PublicDetail(after, prices, single, website, item) == Err(PublishGateRefused)
      && GatedListing(after, prices, single, website, item) == Err(PublishGateRefused)
      && forall r | r in Listing.Page(rows, Listing.ActiveNames(snapshots), q, sort, page, size) :: r.gated.item != item
  {
    var after := listings[l := listings[l].(published := false)];
    PassesIff(after, prices, website, item);
    forall r | r in Listing.Page(rows, Listing.ActiveNames(snapshots), q, sort, page, size)
      ensures r.gated.item != item
    {
      PageRowsAreFetched(rows, snapshots, q, sort, page, size, r);
      GatedRowIff(after, prices, website, r.gated);
    }
  }

  lemma PageRowsAreFetched(rows: seq<Listing.GatedRow>, snapshots: seq<Listing.Snapshot>, q: Option<string>,
                           sort: Listing.SortKind, page: int, size: int, r: Listing.Row)
    requires r in Listing.Page(rows, Listing.ActiveNames(snapshots), q, sort, page, size)
    ensures r.gated in rows
  {
    var names := Listing.ActiveNames(snapshots);
    var matching := Listing.Matching(rows, names, Listing.Needle(q));
    Listing.SortedSorts(sort, matching);
    assert r in Listing.Sorted(sort, matching);
    assert r in multiset(Listing.Sorted(sort, matching));
    Listing.MatchingRows(rows, names, Listing.Needle(q));
  }

  /** Publishing the pair's live listing opens the doors exactly when it is for sale,
      priced and active. */
  lemma PublishOpensIff(listings: Listings, prices: Prices, single: CatalogSingle, website: Id, item: Id, l: Id)
    requires OneLiveListing(listings) && LiveListing(listings, l, website, item)
    ensures PublicDetail(listings[l := listings[l].(published := true)], prices, single, website, item).Ok?
            <==> listings[l].saleOk && (exists p | p in prices :: Charges(prices[p], website, item))
                 && single(item).Ok? && single(item).value.Some? && single(item).value.value.active
  {
    var after := listings[l := listings[l].(published := true)];
    DetailReadsIff(after, prices, single, website, item);
    assert OnSale(after[l], website, item) <==> listings[l].saleOk;
    assert forall k | k in after && OnSale(after[k], website, item) :: k == l;
  }

  /** The unfiltered listing's sorted rows, before the page cut. */
  function Shelf(rows: seq<Listing.GatedRow>, snapshots: seq<Listing.Snapshot>, sort: Listing.SortKind)
    : seq<Listing.Row>
  {
    Listing.Sorted(sort, Listing.Matching(rows, Listing.ActiveNames(snapshots), None))
  }

  /** The item is on some page of the unfiltered listing. */
  ghost predicate OnSomePage(rows: seq<Listing.GatedRow>, snapshots: seq<Listing.Snapshot>,
                             sort: Listing.SortKind, size: int, item: Id)
  {
    exists k, j :: 1 <= k && 0 <= j < |Listing.Cut(Shelf(rows, snapshots, sort), k, size)|
                   && Listing.Cut(Shelf(rows, snapshots, sort), k, size)[j].gated.item == item
  }

  lemma {:induction false} NamesOfCatalog(snapshots: seq<Listing.Snapshot>, s: Listing.Snapshot)
    requires forall k | 0 <= k < |snapshots| && snapshots[k].item == s.item :: snapshots[k] == s
    ensures s.item in Listing.ActiveNames(snapshots)
            <==> s.active && exists k | 0 <= k < |snapshots| :: snapshots[k].item == s.item
    ensures s.item in Listing.ActiveNames(snapshots) ==> Listing.ActiveNames(snapshots)[s.item] == s.name
  {
    if snapshots != [] { NamesOfCatalog(snapshots[..|snapshots| - 1], s); }
  }

  lemma {:induction false} UnknownHasNoName(snapshots: seq<Listing.Snapshot>, item: Id)
    requires forall k | 0 <= k < |snapshots| :: snapshots[k].item != item
    ensures item !in Listing.ActiveNames(snapshots)
  {
    if snapshots != [] { UnknownHasNoName(snapshots[..|snapshots| - 1], item); }
  }

  /** The listing's catalog arm and the single readers' catalog arm agree. */
  lemma NamedIffActive(single: CatalogSingle, snapshots: seq<Listing.Snapshot>, item: Id)
    requires CatalogsAgree(single, snapshots, item)
    requires single(item).value.Some? ==> single(item).value.value.item == item
    ensures item in Listing.ActiveNames(snapshots) <==> ActiveSnapshot(single, item).Ok?
    ensures item in Listing.ActiveNames(snapshots) ==>
      Listing.ActiveNames(snapshots)[item] == ActiveSnapshot(single, item).value.name
  {
    if single(item).value.None? {
      UnknownHasNoName(snapshots, item);
    } else {
      NamesOfCatalog(snapshots, single(item).value.value);
    }
  }

  /** A row is on the sorted shelf exactly when it was fetched and its item is active. */
  lemma ShelfHolds(rows: seq<Listing.GatedRow>, snapshots: seq<Listing.Snapshot>, sort: Listing.SortKind, item: Id)
    ensures (exists r | r in Shelf(rows, snapshots, sort) :: r.gated.item == item)
            <==> item in Listing.ActiveNames(snapshots) && exists g | g in rows :: g.item == item
  {
    var names := Listing.ActiveNames(snapshots);
    var matching := Listing.Matching(rows, names, None);
    Listing.MatchingRows(rows, names, None);
    Listing.SortedSorts(sort, matching);
    assert forall r :: r in Shelf(rows, snapshots, sort) <==> r in multiset(matching);
    if item in names && exists g | g in rows :: g.item == item {
      var g :| g in rows && g.item == item;
      assert Listing.Row(g, names[item]) in matching;
    }
  }

  lemma {:induction false} PagesCover(out: seq<Listing.Row>, size: int, k: nat, r: Listing.Row) returns (i: nat, j: nat)
    requires r in Listing.Pages(out, size, k)
    ensures 1 <= i && j < |Listing.Cut(out, i, size)| && Listing.Cut(out, i, size)[j] == r
  {
    if r in Listing.Cut(out, k, size) {
      i := k;
      j :| 0 <= j < |Listing.Cut(out, k, size)| && Listing.Cut(out, k, size)[j] == r;
    } else {
      i, j := PagesCover(out, size, k - 1, r);
    }
  }

  lemma CutHolds(out: seq<Listing.Row>, k: int, size: int, j: nat)
    requires j < |Listing.Cut(out, k, size)|
    ensures Listing.Cut(out, k, size)[j] in out
  {}

  lemma SliceOfAll<T>(out: seq<T>, n: nat)
    requires |out| <= n
    ensures Listing.Slice(out, 0, n) == out
  {}

  lemma ShelfIsPaged(out: seq<Listing.Row>, size: int, r: Listing.Row) returns (i: nat, j: nat)
    requires |out| <= Listing.MAX_FETCH_ROWS && r in out
    ensures 1 <= i && j < |Listing.Cut(out, i, size)| && Listing.Cut(out, i, size)[j] == r
  {
    OffsetGrows(|out|, size);
    Listing.PagesAreAPrefix(out, size, |out|);
    SliceOfAll(out, Listing.Offset(|out| + 1, size));
    i, j := PagesCover(out, size, |out|, r);
  }

  /** Every row of the shelf is on a page, and every page shows rows of the shelf. */
  lemma PagesShowTheShelf(rows: seq<Listing.GatedRow>, snapshots: seq<Listing.Snapshot>, sort: Listing.SortKind,
                          size: int, item: Id)
    requires |rows| <= Listing.MAX_FETCH_ROWS
    ensures OnSomePage(rows, snapshots, sort, size, item)
            <==> exists r | r in Shelf(rows, snapshots, sort) :: r.gated.item == item
  {
    var out := Shelf(rows, snapshots, sort);
    if exists r | r in out :: r.gated.item == item {
      var r :| r in out && r.gated.item == item;
      Listing.MatchingIsShorter(rows, Listing.ActiveNames(snapshots), None);
      Listing.SortedSorts(sort, Listing.Matching(rows, Listing.ActiveNames(snapshots), None));
      var i, j := ShelfIsPaged(out, size, r);
    }
    if OnSomePage(rows, snapshots, sort, size, item) {
      var k, j :| 1 <= k && 0 <= j < |Listing.Cut(out, k, size)| && Listing.Cut(out, k, size)[j].gated.item == item;
      CutHolds(out, k, size, j);
    }
  }

  lemma ScalesUp(n: nat, m: nat)
    requires 1 <= m <= Listing.MAX_PAGE_SIZE
    ensures n <= n * m <= n * Listing.MAX_PAGE_SIZE
  {
    assert n * m - n == n * (m - 1);
    assert n * Listing.MAX_PAGE_SIZE - n * m == n * (Listing.MAX_PAGE_SIZE - m);
  }

  lemma OffsetGrows(n: nat, size: int)
    requires n <= Listing.MAX_FETCH_ROWS
    ensures n <= Listing.Offset(n + 1, size) < Listing.TWO_64
  {
    ScalesUp(n, Listing.ClampSize(size));
  }

  /** Whatever the database fetched, an item is on some page of the unfiltered
      listing exactly when a row of it was fetched and the detail read succeeds. */
  lemma ListedIffFetched(listings: Listings, prices: Prices, single: CatalogSingle, website: Id, item: Id,
                         rows: seq<Listing.GatedRow>, snapshots: seq<Listing.Snapshot>,
                         sort: Listing.SortKind, size: int)
    requires IsFetch(rows, GatedRows(listings, prices, website))
    requires CatalogsAgree(single, snapshots, item)
    requires single(item).value.Some? ==> single(item).value.value.item == item
    ensures OnSomePage(rows, snapshots, sort, size, item)
            <==> PublicDetail(listings, prices, single, website, item).Ok? && exists g | g in rows :: g.item == item
  {
    NamedIffActive(single, snapshots, item);
    ShelfHolds(rows, snapshots, sort, item);
    PagesShowTheShelf(rows, snapshots, sort, size, item);
    GatedRowsPass(listings, prices, website, item);
  }

  /** Within the fetch bound the three readers agree on every item: it is on some page
      of the unfiltered listing iff its detail reads iff the cart may take it. And
      with one live listing and price per pair, all three show the same row. */
  lemma GateReadersAgree(listings: Listings, prices: Prices, single: CatalogSingle, website: Id, item: Id,
                         rows: seq<Listing.GatedRow>, snapshots: seq<Listing.Snapshot>,
                         sort: Listing.SortKind, size: int)
    requires OneLiveListing(listings) && OneLivePrice(prices)
    requires IsFetch(rows, GatedRows(listings, prices, website))
    requires |GatedRows(listings, prices, website)| <= Listing.MAX_FETCH_ROWS
    requires CatalogsAgree(single, snapshots, item)
    requires single(item).value.Some? ==> single(item).value.value.item == item
    ensures OnSomePage(rows, snapshots, sort, size, item)
            <==> PublicDetail(listings, prices, single, website, item).Ok?
    ensures PublicDetail(listings, prices, single, website, item).Ok?
            <==> GatedListing(listings, prices, single, website, item).Ok?
    ensures PublicDetail(listings, prices, single, website, item).Ok? ==>
      var row := PublicDetail(listings, prices, single, website, item).value;
      row.gated == GatedListing(listings, prices, single, website, item).value.0
      && row in Shelf(rows, snapshots, sort)
  {
    ListedIffFetched(listings, prices, single, website, item, rows, snapshots, sort, size);
    GatedRowsPass(listings, prices, website, item);
    SmallFetchIsEverything(rows, GatedRows(listings, prices, website));
    if Passes(listings, prices, website, item) {
      var g :| g in GatedRows(listings, prices, website) && g.item == item;
      assert g in Members(rows);
    }
    if PublicDetail(listings, prices, single, website, item).Ok? {
      DetailIsOnTheShelf(listings, prices, single, website, item, rows, snapshots, sort);
    }
  }

  lemma DetailIsOnTheShelf(listings: Listings, prices: Prices, single: CatalogSingle, website: Id, item: Id,
                           rows: seq<Listing.GatedRow>, snapshots: seq<Listing.Snapshot>, sort: Listing.SortKind)
    requires OneLiveListing(listings) && OneLivePrice(prices)
    requires Members(rows) == GatedRows(listings, prices, website)
    requires CatalogsAgree(single, snapshots, item)
    requires single(item).value.Some? ==> single(item).value.value.item == item
    requires PublicDetail(listings, prices, single, website, item).Ok?
    ensures GatedListing(listings, prices, single, website, item).Ok?
    ensures var row := PublicDetail(listings, prices, single, website, item).value;
      row.gated == GatedListing(listings, prices, single, website, item).value.0
      && row in Shelf(rows, snapshots, sort)
  {
    var row := PublicDetail(listings, prices, single, website, item).value;
    var names := Listing.ActiveNames(snapshots);
    NamedIffActive(single, snapshots, item);
    Listing.MatchingRows(rows, names, None);
    Listing.SortedSorts(sort, Listing.Matching(rows, names, None));
    var l, p :| Joins(listings, prices, l, p, website) && listings[l].item == item
                && row.gated == JoinedRow(listings, prices, l, p);
    assert row.gated in GatedRows(listings, prices, website);
    assert row.gated in Members(rows);
    assert row in Listing.Matching(rows, names, None);
    assert row in multiset(Shelf(rows, snapshots, sort));
  }

  // ── past the fetch bound ──────────────────────────────────────────────────

  lemma {:induction false} SomeOf<T>(a: set<T>, n: nat) returns (s: seq<T>)
    requires n <= |a|
    ensures |s| == n && (forall x | x in s :: x in a) && forall i, j | 0 <= i < j < |s| :: s[i] != s[j]
  {
    s := [];
    if n > 0 {
      var x :| x in a;
      var rest := SomeOf(a - {x}, n - 1);
      s := [x] + rest;
      forall i, j | 0 <= i < j < |s| ensures s[i] != s[j] { assert s[j] in rest; }
    }
  }

  /** With more gated rows than the bound, any one item may be missing from every page
      although its detail reads: the fetch names no order. */
  lemma PastTheBoundAnItemCanVanish(listings: Listings, prices: Prices, single: CatalogSingle, website: Id, item: Id,
                                    snapshots: seq<Listing.Snapshot>, sort: Listing.SortKind, size: int)
    returns (rows: seq<Listing.GatedRow>)
    requires OneLiveListing(listings) && OneLivePrice(prices)
    requires |GatedRows(listings, prices, website)| > Listing.MAX_FETCH_ROWS
    requires CatalogsAgree(single, snapshots, item)
    requires single(item).value.Some? ==> single(item).value.value.item == item
    requires PublicDetail(listings, prices, single, website, item).Ok?
    ensures IsFetch(rows, GatedRows(listings, prices, website))
    ensures !OnSomePage(rows, snapshots, sort, size, item)
  {
    var gated := GatedRows(listings, prices, website);
    GatedRowsPass(listings, prices, website, item);
    var r :| r in gated && r.item == item;
    rows := SomeOf(gated - {r}, Listing.MAX_FETCH_ROWS);
    forall g | g in rows ensures g.item != item {
      if g.item == item { OneGatedRow(listings, prices, website, g, r); }
    }
    ListedIffFetched(listings, prices, single, website, item, rows, snapshots, sort, size);
  }

  /** For an item whose detail reads: it is on some page whatever the database fetches
      exactly when the website has no more gated rows than the bound. */
  lemma AlwaysListedIffWithinBound(listings: Listings, prices: Prices, single: CatalogSingle, website: Id, item: Id,
                                   snapshots: seq<Listing.Snapshot>, sort: Listing.SortKind, size: int)
    requires OneLiveListing(listings) && OneLivePrice(prices)
    requires CatalogsAgree(single, snapshots, item)
    requires single(item).value.Some? ==> single(item).value.value.item == item
    requires PublicDetail(listings, prices, single, website, item).Ok?
    ensures (forall rows | IsFetch(rows, GatedRows(listings, prices, website)) ::
               OnSomePage(rows, snapshots, sort, size, item))
            <==> |GatedRows(listings, prices, website)| <= 1000
  {
    if |GatedRows(listings, prices, website)| <= Listing.MAX_FETCH_ROWS {
      forall rows | IsFetch(rows, GatedRows(listings, prices, website))
        ensures OnSomePage(rows, snapshots, sort, size, item)
      {
        GateReadersAgree(listings, prices, single, website, item, rows, snapshots, sort, size);
      }
    } else {
      var rows := PastTheBoundAnItemCanVanish(listings, prices, single, website, item, snapshots, sort, size);
    }
  }

  /** And the listing agrees with the single readers on an item, for every fetch,
      exactly when the item is closed or the website is within the bound. */
  lemma ReadersAgreeIff(listings: Listings, prices: Prices, single: CatalogSingle, website: Id, item: Id,
                        snapshots: seq<Listing.Snapshot>, sort: Listing.SortKind, size: int)
    requires OneLiveListing(listings) && OneLivePrice(prices)
    requires CatalogsAgree(single, snapshots, item)
    requires single(item).value.Some? ==> single(item).value.value.item == item
    ensures (forall rows | IsFetch(rows, GatedRows(listings, prices, website)) ::
               OnSomePage(rows, snapshots, sort, size, item)
               <==> PublicDetail(listings, prices, single, website, item).Ok?)
            <==> (!PublicDetail(listings, prices, single, website, item).Ok?
                  || |GatedRows(listings, prices, website)| <= 1000)
  {
    if PublicDetail(listings, prices, single, website, item).Ok? {
      AlwaysListedIffWithinBound(listings, prices, single, website, item, snapshots, sort, size);
    } else {
      forall rows | IsFetch(rows, GatedRows(listings, prices, website))
        ensures !OnSomePage(rows, snapshots, sort, size, item)
      {
        ListedIffFetched(listings, prices, single, website, item, rows, snapshots, sort, size);
      }
    }
  }
}
