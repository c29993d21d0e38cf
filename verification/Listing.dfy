/** The public listing read: the name filter, the five fixed orders, the in-place
    sort and the page cut. */
module Listing {
  import opened StorefrontTypes
  import Text

  const MAX_PAGE_SIZE := 100
  const MAX_FETCH_ROWS := 1000
  const TWO_64 := 0x1_0000_0000_0000_0000

  datatype SortKind = Relevance | Newest | PriceAsc | PriceDesc | NameAsc

  /** One gated row as the database returns it. */
  datatype GatedRow = GatedRow(listing: Id, item: Id, sequence: int, listPrice: real, currency: string,
                               created: Option<int>)

  /** One published listing: a gated row and its item's name. */
  datatype Row = Row(gated: GatedRow, name: string)

  datatype Snapshot = Snapshot(item: Id, active: bool, name: string)

  type CatalogBatch = seq<Id> -> Result<seq<Snapshot>, string>

  // ── the five orders ───────────────────────────────────────────────────────

  /** The stamp a listing without one sorts by: older than every stamp. */
  const OLDEST: int := -0x8000_0000_0000_0000

  function Stamp(r: Row): int {
    if r.gated.created.Some? then r.gated.created.value else OLDEST
  }

  predicate ItemAtMost(a: Row, b: Row) {
    a.gated.item <= b.gated.item
  }

  /** a sorts no later than b. */
  predicate Leq(kind: SortKind, a: Row, b: Row) {
    match kind
    case Relevance =>
      a.gated.sequence < b.gated.sequence || (a.gated.sequence == b.gated.sequence && ItemAtMost(a, b))
    case NameAsc =>
      var la, lb := Text.Lower(a.name), Text.Lower(b.name);
      Text.AtMost(la, lb) && (la == lb ==> ItemAtMost(a, b))
    case PriceAsc =>
      a.gated.listPrice < b.gated.listPrice || (a.gated.listPrice == b.gated.listPrice && ItemAtMost(a, b))
    case PriceDesc =>
      b.gated.listPrice < a.gated.listPrice || (a.gated.listPrice == b.gated.listPrice && ItemAtMost(a, b))
    case Newest =>
      Stamp(b) < Stamp(a) || (Stamp(a) == Stamp(b) && ItemAtMost(b, a))
  }

  /** Each order is total and transitive, and ties only one item with itself. */
  lemma LeqIsTotal(kind: SortKind, a: Row, b: Row)
    ensures Leq(kind, a, b) || Leq(kind, b, a)
    ensures Leq(kind, a, b) && Leq(kind, b, a) ==> a.gated.item == b.gated.item
  {
    Text.AtMostIsTotal(Text.Lower(a.name), Text.Lower(b.name));
    if kind == NameAsc && Leq(kind, a, b) && Leq(kind, b, a) {
      Text.AtMostIsAntisymmetric(Text.Lower(a.name), Text.Lower(b.name));
    }
  }

  lemma LeqIsTransitive(kind: SortKind, a: Row, b: Row, c: Row)
    requires Leq(kind, a, b) && Leq(kind, b, c)
    ensures Leq(kind, a, c)
  {
    if kind == NameAsc {
      var la, lb, lc := Text.Lower(a.name), Text.Lower(b.name), Text.Lower(c.name);
      Text.AtMostIsTransitive(la, lb, lc);
      if la == lc { Text.AtMostIsAntisymmetric(la, lb); }
    }
  }

  /** What each order promises of a row before another: dearer rows later, or earlier;
      newer rows first and, behind every stamp, those without one; lower sequences first;
      folded names in dictionary order. Rows alike in that go by item, the newest order
      from the last item down. */
  ghost predicate Before(kind: SortKind, a: Row, b: Row) {
    var a', b', na, nb := a.gated, b.gated, Text.Lower(a.name), Text.Lower(b.name);
    && (kind == PriceAsc ==> a'.listPrice <= b'.listPrice)
    && (kind == PriceDesc ==> a'.listPrice >= b'.listPrice)
    && (kind == PriceAsc || kind == PriceDesc ==> (a'.listPrice == b'.listPrice ==> a'.item <= b'.item))
    && (kind == Relevance ==> a'.sequence <= b'.sequence && (a'.sequence == b'.sequence ==> a'.item <= b'.item))
    && (kind == NameAsc ==> Text.Precedes(na, nb) && (na == nb ==> a'.item <= b'.item))
    && (kind == Newest ==>
          && (a'.created.Some? && b'.created.Some? ==> a'.created.value >= b'.created.value)
          && (a'.created.None? && b'.created.Some? ==> b'.created.value <= OLDEST)
          && (a'.created == b'.created ==> a'.item >= b'.item))
  }

  lemma LeqIsBefore(kind: SortKind, a: Row, b: Row)
    requires Leq(kind, a, b)
    ensures Before(kind, a, b)
  {
    Text.AtMostIff(Text.Lower(a.name), Text.Lower(b.name));
  }

  // ── the sort ──────────────────────────────────────────────────────────────

  function Insert(kind: SortKind, x: Row, s: seq<Row>): seq<Row> {
    if s == [] || Leq(kind, s[|s| - 1], x) then s + [x]
    else Insert(kind, x, s[..|s| - 1]) + [s[|s| - 1]]
  }

  function Sorted(kind: SortKind, s: seq<Row>): seq<Row> {
    if s == [] then [] else Insert(kind, s[|s| - 1], Sorted(kind, s[..|s| - 1]))
  }

  ghost predicate InOrder(kind: SortKind, s: seq<Row>) {
    forall i, j | 0 <= i < j < |s| :: Leq(kind, s[i], s[j])
  }

  lemma {:induction false} InsertAdds(kind: SortKind, x: Row, s: seq<Row>)
    ensures multiset(Insert(kind, x, s)) == multiset(s) + multiset{x}
    ensures |Insert(kind, x, s)| == |s| + 1
  {
    if s != [] {
      assert s == s[..|s| - 1] + [s[|s| - 1]];
      if !Leq(kind, s[|s| - 1], x) { InsertAdds(kind, x, s[..|s| - 1]); }
    }
  }

  lemma {:induction false} InsertKeepsOrder(kind: SortKind, x: Row, s: seq<Row>)
    requires InOrder(kind, s)
    ensures InOrder(kind, Insert(kind, x, s))
  {
    if s != [] {
      var n := |s| - 1;
      if Leq(kind, s[n], x) {
        forall i | 0 <= i < n ensures Leq(kind, s[i], x) { LeqIsTransitive(kind, s[i], s[n], x); }
      } else {
        InsertKeepsOrder(kind, x, s[..n]);
        LeqIsTotal(kind, s[n], x);
        InsertAdds(kind, x, s[..n]);
        var t := Insert(kind, x, s[..n]);
        forall i | 0 <= i < |t| ensures Leq(kind, t[i], s[n]) {
          assert t[i] in multiset(t);
          if t[i] != x {
            assert t[i] in s[..n];
          }
        }
      }
    }
  }

  /** Sorting permutes the rows into order. */
  lemma {:induction false} SortedSorts(kind: SortKind, s: seq<Row>)
    ensures multiset(Sorted(kind, s)) == multiset(s) && |Sorted(kind, s)| == |s|
    ensures InOrder(kind, Sorted(kind, s))
  {
    if s != [] {
      var n := |s| - 1;
      SortedSorts(kind, s[..n]);
      assert s == s[..n] + [s[n]];
      InsertAdds(kind, s[n], Sorted(kind, s[..n]));
      InsertKeepsOrder(kind, s[n], Sorted(kind, s[..n]));
    }
  }

  ghost predicate DistinctItems(s: seq<Row>) {
    forall i, j | 0 <= i < j < |s| :: s[i].gated.item != s[j].gated.item
  }

  lemma LastIsTheSame(kind: SortKind, s: seq<Row>, t: seq<Row>)
    requires s != [] && |s| == |t| && multiset(s) == multiset(t)
    requires DistinctItems(s) && InOrder(kind, s) && InOrder(kind, t)
    ensures s[|s| - 1] == t[|t| - 1]
  {
    var n := |s| - 1;
    assert s[n] in multiset(t) && t[n] in multiset(s);
    var i :| 0 <= i <= n && s[i] == t[n];
    var j :| 0 <= j <= n && t[j] == s[n];
    LeqIsTotal(kind, s[i], s[n]);
    if i < n && j < n { assert false; }
  }

  lemma DropLast(s: seq<Row>)
    requires s != []
    ensures multiset(s) == multiset(s[..|s| - 1]) + multiset{s[|s| - 1]}
  {
    assert s == s[..|s| - 1] + [s[|s| - 1]];
  }

  lemma FrontsAgree(s: seq<Row>, t: seq<Row>)
    requires s != [] && t != [] && multiset(s) == multiset(t) && s[|s| - 1] == t[|t| - 1]
    ensures multiset(s[..|s| - 1]) == multiset(t[..|t| - 1])
  {
    DropLast(s);
    DropLast(t);
    assert multiset(s[..|s| - 1]) == multiset(s) - multiset{s[|s| - 1]};
    assert multiset(t[..|t| - 1]) == multiset(t) - multiset{t[|t| - 1]};
  }

  /** With one row per item, the rows alone determine the order. */
  lemma {:induction false} OrderIsUnique(kind: SortKind, s: seq<Row>, t: seq<Row>)
    requires multiset(s) == multiset(t) && DistinctItems(s) && InOrder(kind, s) && InOrder(kind, t)
    ensures s == t
  {
    assert |s| == |multiset(s)| == |multiset(t)| == |t|;
    if s != [] {
      var n := |s| - 1;
      LastIsTheSame(kind, s, t);
      FrontsAgree(s, t);
      OrderIsUnique(kind, s[..n], t[..n]);
      assert s == s[..n] + [s[n]] && t == t[..n] + [t[n]];
    }
  }

  /** Move the i-th row left past the rows it precedes. */
  method Sift(kind: SortKind, a: array<Row>, i: nat)
    requires i < a.Length
    modifies a
    ensures a[..i + 1] == Insert(kind, old(a[i]), old(a[..i]))
    ensures forall k | i < k < a.Length :: a[k] == old(a[k])
  {
    var x := a[i];
    var j := SlotFor(kind, a, i);
    ghost var before := a[..i];
    forall k | j < k <= i { a[k] := a[k - 1]; }
    a[j] := x;
    OpenedAt(a[..i + 1], before, x, j);
  }

  /** How far left the i-th row goes. */
  method SlotFor(kind: SortKind, a: array<Row>, i: nat) returns (j: nat)
    requires i < a.Length
    ensures j <= i && Insert(kind, a[i], a[..i]) == a[..j] + [a[i]] + a[j..i]
  {
    ghost var before := a[..i];
    assert before[..i] == before && before[i..] == [];
    j := i;
    while j > 0 && !Leq(kind, a[j - 1], a[i])
      invariant 0 <= j <= i
      invariant Insert(kind, a[i], before) == Insert(kind, a[i], before[..j]) + before[j..]
    {
      InsertPasses(kind, a[i], before, j);
      j := j - 1;
    }
    InsertStops(kind, a[i], before, j);
    assert before[..j] == a[..j] && before[j..] == a[j..i];
  }

  lemma InsertPasses(kind: SortKind, x: Row, before: seq<Row>, j: nat)
    requires 0 < j <= |before| && !Leq(kind, before[j - 1], x)
    ensures Insert(kind, x, before[..j]) + before[j..] == Insert(kind, x, before[..j - 1]) + before[j - 1..]
  {
    assert before[..j][..j - 1] == before[..j - 1];
    assert [before[j - 1]] + before[j..] == before[j - 1..];
  }

  lemma InsertStops(kind: SortKind, x: Row, before: seq<Row>, j: nat)
    requires j <= |before| && (j == 0 || Leq(kind, before[j - 1], x))
    ensures Insert(kind, x, before[..j]) == before[..j] + [x]
  {}

  lemma OpenedAt(w: seq<Row>, before: seq<Row>, x: Row, j: nat)
    requires j <= |before| && |w| == |before| + 1 && w[j] == x
    requires forall k | 0 <= k < j :: w[k] == before[k]
    requires forall k | j < k < |w| :: w[k] == before[k - 1]
    ensures w == before[..j] + [x] + before[j..]
  {}

  lemma SortedStep(kind: SortKind, was: seq<Row>, i: nat)
    requires i < |was|
    ensures Sorted(kind, was[..i + 1]) == Insert(kind, was[i], Sorted(kind, was[..i]))
  {
    assert was[..i + 1][..i] == was[..i];
  }

  /** The sort of a vector in place. */
  method SortInPlace(kind: SortKind, a: array<Row>)
    modifies a
    ensures a[..] == Sorted(kind, old(a[..]))
  {
    ghost var was := a[..];
    for i := 0 to a.Length
      invariant a[..i] == Sorted(kind, was[..i])
      invariant forall k | i <= k < a.Length :: a[k] == was[k]
    {
      SortedStep(kind, was, i);
      Sift(kind, a, i);
    }
    assert was[..a.Length] == was && a[..a.Length] == a[..];
  }

  // ── the read ──────────────────────────────────────────────────────────────

  /** The names of the active items of a batch answer; a later answer for an item
      replaces an earlier one. */
  function ActiveNames(snapshots: seq<Snapshot>): map<Id, string> {
    if snapshots == [] then map[]
    else
      var n := |snapshots| - 1;
      var names := ActiveNames(snapshots[..n]);
      if snapshots[n].active then names[snapshots[n].item := snapshots[n].name] else names
  }

  /** Snapshot k is the last active one of its item. */
  ghost predicate LastActive(snapshots: seq<Snapshot>, k: int, item: Id) {
    0 <= k < |snapshots| && snapshots[k].active && snapshots[k].item == item
    && forall j | k < j < |snapshots| :: !(snapshots[j].active && snapshots[j].item == item)
  }

  lemma {:induction false} ActiveNamesAre(snapshots: seq<Snapshot>, item: Id)
    ensures item in ActiveNames(snapshots) <==> exists k :: LastActive(snapshots, k, item)
    ensures forall k | LastActive(snapshots, k, item) :: ActiveNames(snapshots)[item] == snapshots[k].name
  {
    if snapshots != [] {
      var n := |snapshots| - 1;
      ActiveNamesAre(snapshots[..n], item);
      if snapshots[n].active && snapshots[n].item == item {
        assert LastActive(snapshots, n, item);
      } else {
        assert forall k :: LastActive(snapshots, k, item) <==> LastActive(snapshots[..n], k, item);
      }
    }
  }

  /** An active item whose folded name contains the folded needle. */
  predicate Shown(names: map<Id, string>, needle: Option<string>, r: GatedRow) {
    r.item in names
    && (needle.Some? ==> Text.Contains(Text.Lower(names[r.item]), needle.value))
  }

  function Matching(rows: seq<GatedRow>, names: map<Id, string>, needle: Option<string>): seq<Row> {
    if rows == [] then []
    else
      var n := |rows| - 1;
      Matching(rows[..n], names, needle)
      + (if Shown(names, needle, rows[n]) then [Row(rows[n], names[rows[n].item])] else [])
  }

  function Needle(q: Option<string>): Option<string> {
    if q.Some? then Some(Text.Lower(Text.Trim(q.value))) else None
  }

  function ItemIds(rows: seq<GatedRow>): seq<Id> {
    seq(|rows|, i requires 0 <= i < |rows| => rows[i].item)
  }

  function ClampPage(page: int): nat {
    if page < 1 then 1 else page
  }

  function ClampSize(size: int): nat {
    if size < 1 then 1 else if size > MAX_PAGE_SIZE then MAX_PAGE_SIZE else size
  }

  /** `skip(start).take(size)`. */
  function Slice<T>(out: seq<T>, start: nat, size: nat): seq<T> {
    if start >= |out| then [] else if start + size >= |out| then out[start..] else out[start..start + size]
  }

  /** The rows before a page. */
  function Offset(page: int, size: int): nat {
    (ClampPage(page) - 1) * ClampSize(size)
  }

  /** The start offset is a 64-bit product: a page number near its top wraps. */
  function Cut(out: seq<Row>, page: int, size: int): seq<Row> {
    Slice(out, Offset(page, size) % TWO_64, ClampSize(size))
  }

  /** The whole answer as a function of the fetched rows. */
  function Page(rows: seq<GatedRow>, names: map<Id, string>, q: Option<string>, sort: SortKind,
                page: int, size: int): seq<Row>
  {
    Cut(Sorted(sort, Matching(rows, names, Needle(q))), page, size)
  }

  method CollectNames(snapshots: seq<Snapshot>) returns (names: map<Id, string>)
    ensures names == ActiveNames(snapshots)
  {
    names := map[];
    for i := 0 to |snapshots|
      invariant names == ActiveNames(snapshots[..i])
    {
      assert snapshots[..i + 1][..i] == snapshots[..i];
      if snapshots[i].active { names := names[snapshots[i].item := snapshots[i].name]; }
    }
    assert snapshots[..|snapshots|] == snapshots;
  }

  method FilterRows(rows: seq<GatedRow>, names: map<Id, string>, needle: Option<string>) returns (out: seq<Row>)
    ensures out == Matching(rows, names, needle)
  {
    out := [];
    for i := 0 to |rows|
      invariant out == Matching(rows[..i], names, needle)
    {
      assert rows[..i + 1][..i] == rows[..i];
      if Shown(names, needle, rows[i]) { out := out + [Row(rows[i], names[rows[i].item])]; }
    }
    assert rows[..|rows|] == rows;
  }

  /** A row the search asks for: its item is active under that name, and the folded name
      contains the folded, trimmed search text somewhere. */
  ghost predicate Wanted(snapshots: seq<Snapshot>, q: Option<string>, r: Row) {
    && (exists k :: LastActive(snapshots, k, r.gated.item) && r.name == snapshots[k].name)
    && (q.Some? ==> exists k :: Text.OccursAt(Text.Lower(r.name), Text.Lower(Text.Trim(q.value)), k))
  }

  /** The whole shelf: every fetched row that is wanted, as often as it was fetched, no
      other row, and all in order. */
  ghost predicate IsShelf(rows: seq<GatedRow>, snapshots: seq<Snapshot>, q: Option<string>, sort: SortKind,
                          out: seq<Row>)
  {
    && (forall r: Row :: multiset(out)[r] == if Wanted(snapshots, q, r) then multiset(rows)[r.gated] else 0)
    && (forall i, j | 0 <= i < j < |out| :: Before(sort, out[i], out[j]))
  }

  /** One page of the shelf: pages count from one and hold between 1 and 100 rows. */
  predicate IsPage(out: seq<Row>, page: int, size: int, shown: seq<Row>) {
    var n := if size < 1 then 1 else if size > 100 then 100 else size;
    var start := (if page < 1 then 0 else (page - 1) * n) % 0x1_0000_0000_0000_0000;
    && (start >= |out| ==> shown == [])
    && (start < |out| ==> shown == out[start..(if start + n < |out| then start + n else |out|)])
  }

  lemma ShownIffWanted(snapshots: seq<Snapshot>, q: Option<string>, r: Row)
    ensures Wanted(snapshots, q, r)
            <==> Shown(ActiveNames(snapshots), Needle(q), r.gated) && r.name == ActiveNames(snapshots)[r.gated.item]
  {
    ActiveNamesAre(snapshots, r.gated.item);
    if q.Some? { Text.ContainsIff(Text.Lower(r.name), Text.Lower(Text.Trim(q.value))); }
  }

  lemma SortedIsShelf(rows: seq<GatedRow>, snapshots: seq<Snapshot>, q: Option<string>, sort: SortKind)
    ensures IsShelf(rows, snapshots, q, sort, Sorted(sort, Matching(rows, ActiveNames(snapshots), Needle(q))))
  {
    var names := ActiveNames(snapshots);
    var matching := Matching(rows, names, Needle(q));
    var out := Sorted(sort, matching);
    SortedSorts(sort, matching);
    forall r: Row ensures multiset(out)[r] == if Wanted(snapshots, q, r) then multiset(rows)[r.gated] else 0 {
      ShownIffWanted(snapshots, q, r);
      MatchingCounts(rows, names, Needle(q), r);
    }
    forall i, j | 0 <= i < j < |out| ensures Before(sort, out[i], out[j]) { LeqIsBefore(sort, out[i], out[j]); }
  }

  lemma CutIsPage(out: seq<Row>, page: int, size: int)
    ensures IsPage(out, page, size, Cut(out, page, size))
  {}

  /** The catalog's refusal, or one page of the shelf. */
  method PublicListings(rows: seq<GatedRow>, catalog: CatalogBatch, q: Option<string>, sort: SortKind,
                        page: int, size: int) returns (r: Result<seq<Row>, string>)
    ensures match catalog(ItemIds(rows))
            case Err(code) => r == Err(code)
            case Ok(snapshots) =>
              r == Ok(Page(rows, ActiveNames(snapshots), q, sort, page, size))
              && exists out :: IsShelf(rows, snapshots, q, sort, out) && IsPage(out, page, size, r.value)
  {
    var answer := catalog(ItemIds(rows));
    if answer.Err? { return Err(answer.error); }
    var names := CollectNames(answer.value);
    var matching := FilterRows(rows, names, Needle(q));
    var out := new Row[|matching|](i requires 0 <= i < |matching| => matching[i]);
    assert out[..] == matching;
    SortInPlace(sort, out);
    SortedIsShelf(rows, answer.value, q, sort);
    CutIsPage(out[..], page, size);
    r := Ok(Cut(out[..], page, size));
  }

  // ── order independence ────────────────────────────────────────────────────

  ghost predicate OneRowPerItem(rows: seq<GatedRow>) {
    forall i, j | 0 <= i < j < |rows| :: rows[i].item != rows[j].item
  }

  lemma {:induction false} MatchingRows(rows: seq<GatedRow>, names: map<Id, string>, needle: Option<string>)
    ensures forall r | r in Matching(rows, names, needle) ::
      r.gated in rows && Shown(names, needle, r.gated) && r.name == names[r.gated.item]
    ensures forall g | g in rows && Shown(names, needle, g) :: Row(g, names[g.item]) in Matching(rows, names, needle)
  {
    if rows != [] {
      var n := |rows| - 1;
      MatchingRows(rows[..n], names, needle);
      assert rows == rows[..n] + [rows[n]];
    }
  }

  lemma {:induction false} MatchingIsDistinct(rows: seq<GatedRow>, names: map<Id, string>, needle: Option<string>)
    requires OneRowPerItem(rows)
    ensures DistinctItems(Matching(rows, names, needle))
  {
    if rows != [] {
      var n := |rows| - 1;
      var front := Matching(rows[..n], names, needle);
      MatchingIsDistinct(rows[..n], names, needle);
      MatchingRows(rows[..n], names, needle);
      forall i | 0 <= i < |front| ensures front[i].gated.item != rows[n].item {
        assert front[i] in front;
        var k :| 0 <= k < n && rows[..n][k] == front[i].gated;
        assert rows[k] == front[i].gated;
      }
    }
  }

  /** Rows are filtered one by one: only how often each occurs matters. */
  lemma {:induction false} MatchingCounts(rows: seq<GatedRow>, names: map<Id, string>, needle: Option<string>, r: Row)
    ensures multiset(Matching(rows, names, needle))[r]
            == if Shown(names, needle, r.gated) && r.name == names[r.gated.item] then multiset(rows)[r.gated] else 0
  {
    if rows != [] {
      var n := |rows| - 1;
      MatchingCounts(rows[..n], names, needle, r);
      assert rows == rows[..n] + [rows[n]];
    }
  }

  /** With one row per item, the answer does not depend on the order in which the
      database returned the rows: not for any sort, search or page. */
  lemma ListingIgnoresRowOrder(rows: seq<GatedRow>, other: seq<GatedRow>, names: map<Id, string>,
                               q: Option<string>, sort: SortKind, page: int, size: int)
    requires OneRowPerItem(rows) && multiset(rows) == multiset(other)
    ensures Page(rows, names, q, sort, page, size) == Page(other, names, q, sort, page, size)
  {
    var m1, m2 := Matching(rows, names, Needle(q)), Matching(other, names, Needle(q));
    forall r: Row ensures multiset(m1)[r] == multiset(m2)[r] {
      MatchingCounts(rows, names, Needle(q), r);
      MatchingCounts(other, names, Needle(q), r);
    }
    assert multiset(m1) == multiset(m2);
    MatchingIsDistinct(rows, names, Needle(q));
    SortedSorts(sort, m1);
    SortedSorts(sort, m2);
    DistinctWhenPermuted(m1, Sorted(sort, m1));
    OrderIsUnique(sort, Sorted(sort, m1), Sorted(sort, m2));
  }

  lemma {:induction false} ItemCount(s: seq<Row>, k: nat)
    requires DistinctItems(s) && k < |s|
    ensures multiset(s)[s[k]] == 1
  {
    var n := |s| - 1;
    assert s == s[..n] + [s[n]];
    if k < n {
      ItemCount(s[..n], k);
    } else {
      assert s[n] !in s[..n];
    }
  }

  lemma DistinctWhenPermuted(s: seq<Row>, t: seq<Row>)
    requires DistinctItems(s) && multiset(s) == multiset(t)
    ensures DistinctItems(t)
  {
    forall i, j | 0 <= i < j < |t| ensures t[i].gated.item != t[j].gated.item {
      assert t[i] in multiset(s) && t[j] in multiset(s);
      var a :| 0 <= a < |s| && s[a] == t[i];
      var b :| 0 <= b < |s| && s[b] == t[j];
      if a == b {
        ItemCount(s, a);
        TwiceCounts(t, i, j);
      }
    }
  }

  lemma TwiceCounts(t: seq<Row>, i: nat, j: nat)
    requires i < j < |t| && t[i] == t[j]
    ensures multiset(t)[t[i]] >= 2
  {
    assert t == t[..i] + [t[i]] + t[i + 1..j] + [t[j]] + t[j + 1..];
  }

  // ── pages ─────────────────────────────────────────────────────────────────

  /** Pages 1 to k, one after another. */
  function Pages(out: seq<Row>, size: int, k: nat): seq<Row> {
    if k == 0 then [] else Pages(out, size, k - 1) + Cut(out, k, size)
  }

  lemma OffsetSteps(k: nat, size: int)
    requires k > 0
    ensures Offset(k, size) + ClampSize(size) == Offset(k + 1, size)
  {}

  lemma NoWrap(x: nat)
    requires x < TWO_64
    ensures x % TWO_64 == x
  {}

  lemma SlicesJoin<T>(out: seq<T>, a: nat, n: nat)
    ensures Slice(out, 0, a) + Slice(out, a, n) == Slice(out, 0, a + n)
  {}

  lemma SliceIsEmptyIff<T>(out: seq<T>, start: nat, n: nat)
    requires n > 0
    ensures Slice(out, start, n) == [] <==> start >= |out|
  {}

  /** The first k pages together are the rows before page k + 1. */
  lemma {:induction false} PagesAreAPrefix(out: seq<Row>, size: int, k: nat)
    requires Offset(k + 1, size) < TWO_64
    ensures Pages(out, size, k) == Slice(out, 0, Offset(k + 1, size))
  {
    if k > 0 {
      var before := Offset(k, size);
      OffsetSteps(k, size);
      PagesAreAPrefix(out, size, k - 1);
      NoWrap(before);
      SlicesJoin(out, before, ClampSize(size));
    }
  }

  /** Enough pages, read one after another, are exactly the filtered gated rows,
      sorted: none lost, none repeated. */
  lemma PagesAreEverything(rows: seq<GatedRow>, names: map<Id, string>, q: Option<string>,
                           sort: SortKind, size: int, k: nat)
    requires |rows| <= Offset(k + 1, size) < TWO_64
    ensures var out := Sorted(sort, Matching(rows, names, Needle(q)));
      Pages(out, size, k) == out && InOrder(sort, out) && multiset(out) == multiset(Matching(rows, names, Needle(q)))
  {
    PagesAreAPrefix(Sorted(sort, Matching(rows, names, Needle(q))), size, k);
    SortedSorts(sort, Matching(rows, names, Needle(q)));
    MatchingIsShorter(rows, names, Needle(q));
  }

  lemma {:induction false} MatchingIsShorter(rows: seq<GatedRow>, names: map<Id, string>, needle: Option<string>)
    ensures |Matching(rows, names, needle)| <= |rows|
  {
    if rows != [] { MatchingIsShorter(rows[..|rows| - 1], names, needle); }
  }

  /** A page is its own slice of the sorted rows exactly when its start offset, as
      computed in 64 bits, has not wrapped into them. */
  lemma PageIsItsSliceIff(out: seq<Row>, page: int, size: int)
    requires |out| <= MAX_FETCH_ROWS
    ensures Cut(out, page, size) == Slice(out, Offset(page, size), ClampSize(size))
      <==> Offset(page, size) < TWO_64 || Offset(page, size) % TWO_64 >= |out|
  {
    var start := Offset(page, size);
    if start < TWO_64 {
      NoWrap(start);
    } else {
      SliceIsEmptyIff(out, start, ClampSize(size));
      SliceIsEmptyIff(out, start % TWO_64, ClampSize(size));
    }
  }

  /** A page number far past the end can show the first page again. */
  lemma WrappedPageRepeatsTheFirst(out: seq<Row>)
    ensures Cut(out, 0x4000_0000_0000_0001, 4) == Cut(out, 1, 4)
  {}
}
