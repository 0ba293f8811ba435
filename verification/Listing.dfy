/**
 Listing tickets in pages. A database answers a query with a window of some ordering of the
 selected rows; where the ORDER BY clause leaves ties, every query may break them its own way.
 */
module Listing {
  import opened Domain
  import opened Access

  type Table = map<TicketId, Row>

  /** Newest first; the second form leaves tickets of the same instant in any order. */
  datatype Order = CreatedThenId | CreatedOnly

  /** What a query selects from the table, and how it sorts. */
  datatype Query = Query(table: Table, order: Order, selected: set<TicketId>)

  function CreatedAt(table: Table, t: TicketId): nat {
    if t in table then table[t].createdAt else 0
  }

  predicate Before(q: Query, a: TicketId, b: TicketId) {
    var x, y := CreatedAt(q.table, a), CreatedAt(q.table, b);
    x > y || (x == y && (q.order == CreatedOnly || a >= b))
  }

  /** The query of a caller: customers filter by ownership and sort by creation alone. */
  function ListQuery(caller: Caller, table: Table): Query {
    if caller.Some? && caller.value.role == Customer then
      Query(table, CreatedOnly, set t | t in table && table[t].customer == Some(caller.value.id))
    else
      Query(table, CreatedThenId, table.Keys)
  }

  // ---------- what the database may answer ----------

  ghost predicate Distinct(ids: seq<TicketId>) {
    forall i, j :: 0 <= i < j < |ids| ==> ids[i] != ids[j]
  }

  ghost predicate Sorted(q: Query, ids: seq<TicketId>) {
    forall i, j :: 0 <= i < j < |ids| ==> Before(q, ids[i], ids[j])
  }

  /** Every selected ticket exactly once, in the order of the query. */
  ghost predicate IsListing(q: Query, ids: seq<TicketId>) {
    && Distinct(ids)
    && (forall t :: t in ids <==> t in q.selected)
    && Sorted(q, ids)
  }

  function Window(ids: seq<TicketId>, limit: nat, offset: nat): seq<TicketId> {
    ids[Min(offset, |ids|)..Min(offset + limit, |ids|)]
  }

  /** The offset at which a page starts: the page size, added up once per earlier page. */
  function Start(size: nat, k: nat): nat { if k == 0 then 0 else Start(size, k - 1) + size }

  /** The database may return this page. */
  ghost predicate Answer(q: Query, limit: nat, offset: nat, page: seq<TicketId>) {
    exists ids :: IsListing(q, ids) && page == Window(ids, limit, offset)
  }

  /** Pages of one size from separate queries on a fixed table, until they cover the total. */
  ghost predicate PagesOf(q: Query, size: nat, pages: seq<seq<TicketId>>) {
    && |q.selected| <= Start(size, |pages|)
    && forall k :: 0 <= k < |pages| ==> Answer(q, size, Start(size, k), pages[k])
  }

  function Concat(pages: seq<seq<TicketId>>): seq<TicketId> {
    if pages == [] then [] else Concat(pages[..|pages| - 1]) + pages[|pages| - 1]
  }

  /** However the database breaks ties, the pages put together are a listing. */
  ghost predicate AlwaysTiles(q: Query, size: nat) {
    forall pages :: PagesOf(q, size, pages) ==> IsListing(q, Concat(pages))
  }

  // ---------- ties ----------

  ghost function Ahead(q: Query, t: TicketId): set<TicketId> {
    set u | u in q.selected && !Before(q, t, u)
  }

  ghost function Ties(q: Query, t: TicketId): set<TicketId> {
    set u | u in q.selected && Before(q, t, u) && Before(q, u, t)
  }

  ghost predicate Splits(q: Query, size: nat, t: TicketId, k: nat) {
    |Ahead(q, t)| < Start(size, k) < |Ahead(q, t)| + |Ties(q, t)|
  }

  /** Some page boundary falls inside a group of tickets that the order does not tell apart. */
  ghost predicate BoundaryInsideTies(q: Query, size: nat) {
    exists t, k: nat :: t in q.selected && Splits(q, size, t, k)
  }

  // ---------- listings ----------

  lemma {:induction false} ListingExists(q: Query) returns (ids: seq<TicketId>)
    ensures IsListing(q, ids)
    decreases |q.selected|
  {
    if q.selected == {} {
      ids := [];
    } else {
      var t :| t in q.selected;
      var sorted := ListingExists(q.(selected := q.selected - {t}));
      ids := Insert(q, sorted, t);
    }
  }

  lemma Insert(q: Query, sorted: seq<TicketId>, t: TicketId) returns (ids: seq<TicketId>)
    requires t in q.selected
    requires IsListing(q.(selected := q.selected - {t}), sorted)
    ensures IsListing(q, ids)
  {
    var n := 0;
    while n < |sorted| && Before(q, sorted[n], t)
      invariant n <= |sorted|
      invariant forall i :: 0 <= i < n ==> Before(q, sorted[i], t)
    {
      n := n + 1;
    }
    ids := sorted[..n] + [t] + sorted[n..];
    assert Sorted(q, sorted);
    InsertMembers(sorted, n, t);
    InsertSorted(q, sorted, n, t);
  }

  lemma InsertMembers(sorted: seq<TicketId>, n: nat, t: TicketId)
    requires n <= |sorted| && Distinct(sorted) && t !in sorted
    ensures Distinct(sorted[..n] + [t] + sorted[n..])
    ensures forall u :: u in sorted[..n] + [t] + sorted[n..] <==> u in sorted || u == t
  {
  }

  lemma InsertSorted(q: Query, sorted: seq<TicketId>, n: nat, t: TicketId)
    requires n <= |sorted| && Sorted(q, sorted)
    requires forall i :: 0 <= i < n ==> Before(q, sorted[i], t)
    requires n < |sorted| ==> Before(q, t, sorted[n])
    ensures Sorted(q, sorted[..n] + [t] + sorted[n..])
  {
  }

  ghost function Members(ids: seq<TicketId>): set<TicketId> { set t | t in ids }

  lemma {:induction false} MembersSize(ids: seq<TicketId>)
    requires Distinct(ids)
    ensures |Members(ids)| == |ids|
  {
    if ids == [] {
    } else {
      var n := |ids| - 1;
      MembersSize(ids[..n]);
      assert Members(ids) == Members(ids[..n]) + {ids[n]};
    }
  }

  lemma ListingSize(q: Query, ids: seq<TicketId>)
    requires IsListing(q, ids)
    ensures |ids| == |q.selected|
  {
    MembersSize(ids);
    assert Members(ids) == q.selected;
  }

  lemma {:induction false} SubsetSize(a: set<TicketId>, b: set<TicketId>)
    requires a <= b
    ensures |a| <= |b|
  {
    if a == {} {
    } else {
      var t :| t in a;
      SubsetSize(a - {t}, b - {t});
    }
  }

  /** In any listing a ticket comes after those ahead of it and among those it ties with. */
  lemma PositionBounds(q: Query, ids: seq<TicketId>, i: nat)
    requires IsListing(q, ids) && i < |ids|
    ensures |Ahead(q, ids[i])| <= i < |Ahead(q, ids[i])| + |Ties(q, ids[i])|
  {
    var t := ids[i];
    forall u | u in Ahead(q, t) ensures u in Members(ids[..i]) {
      var j :| 0 <= j < |ids| && ids[j] == u;
      assert ids[..i][j] == u;
    }
    MembersSize(ids[..i]);
    SubsetSize(Ahead(q, t), Members(ids[..i]));
    forall u | u in Members(ids[..i + 1]) ensures u in Ahead(q, t) + Ties(q, t) {
      var j :| 0 <= j < i + 1 && ids[..i + 1][j] == u;
      assert ids[j] == u;
    }
    MembersSize(ids[..i + 1]);
    SubsetSize(Members(ids[..i + 1]), Ahead(q, t) + Ties(q, t));
  }

  /** A ticket strictly before another comes with all its ties ahead of the other. */
  lemma AheadWithTies(q: Query, t: TicketId, u: TicketId)
    requires !Before(q, t, u)
    ensures |Ahead(q, u)| + |Ties(q, u)| <= |Ahead(q, t)|
  {
    assert Ahead(q, u) !! Ties(q, u);
    SubsetSize(Ahead(q, u) + Ties(q, u), Ahead(q, t));
  }

  /** The places of a group of ties are held by its members in every listing. */
  lemma TiesHoldTheirPlaces(q: Query, ids: seq<TicketId>, t: TicketId, i: nat)
    requires IsListing(q, ids) && i < |ids|
    requires |Ahead(q, t)| <= i < |Ahead(q, t)| + |Ties(q, t)|
    ensures Before(q, t, ids[i]) && Before(q, ids[i], t)
  {
    PositionBounds(q, ids, i);
    if !Before(q, t, ids[i]) {
      AheadWithTies(q, t, ids[i]);
    }
    if !Before(q, ids[i], t) {
      AheadWithTies(q, ids[i], t);
    }
  }

  // ---------- pages ----------

  predicate OnPage(size: nat, k: nat, p: nat) { Start(size, k) <= p < Start(size, k + 1) }

  lemma {:induction false} PageAt(size: nat, p: nat) returns (k: nat)
    requires 1 <= size
    ensures OnPage(size, k, p)
  {
    if p < size {
      k := 0;
    } else {
      var before := PageAt(size, p - size);
      k := before + 1;
    }
  }

  lemma {:induction false} PagesAreOrdered(size: nat, k: nat, m: nat)
    requires k < m
    ensures Start(size, k + 1) <= Start(size, m)
  {
    if m == k + 1 {
    } else {
      PagesAreOrdered(size, k, m - 1);
    }
  }

  /** The listing that each page was cut from. */
  ghost predicate CutFrom(q: Query, size: nat, pages: seq<seq<TicketId>>, from: seq<seq<TicketId>>) {
    && |from| == |pages|
    && forall k :: 0 <= k < |pages| ==> IsListing(q, from[k]) && pages[k] == Window(from[k], size, Start(size, k))
  }

  lemma ListingBehind(q: Query, limit: nat, offset: nat, page: seq<TicketId>) returns (ids: seq<TicketId>)
    requires Answer(q, limit, offset, page)
    ensures IsListing(q, ids) && page == Window(ids, limit, offset)
  {
    ids :| IsListing(q, ids) && page == Window(ids, limit, offset);
  }

  lemma Listings(q: Query, size: nat, pages: seq<seq<TicketId>>) returns (from: seq<seq<TicketId>>)
    requires forall k :: 0 <= k < |pages| ==> Answer(q, size, Start(size, k), pages[k])
    ensures CutFrom(q, size, pages, from)
  {
    hide Answer, IsListing, Window, Start;
    from := [];
    for n := 0 to |pages|
      invariant |from| == n
      invariant forall k :: 0 <= k < n ==> IsListing(q, from[k]) && pages[k] == Window(from[k], size, Start(size, k))
    {
      var ids := ListingBehind(q, size, Start(size, n), pages[n]);
      from := from + [ids];
    }
  }

  /** What one more page adds to the pages before it. */
  lemma AddedPage(size: nat, n: nat, front: seq<TicketId>, ids: seq<TicketId>)
    requires |front| == Min(Start(size, n), |ids|)
    ensures var all := front + Window(ids, size, Start(size, n));
            && |all| == Min(Start(size, n + 1), |ids|)
            && forall p :: 0 <= p < |ids| && OnPage(size, n, p) ==> p < |all| && all[p] == ids[p]
  {
  }

  lemma {:induction false} ConcatLength(q: Query, size: nat, pages: seq<seq<TicketId>>, from: seq<seq<TicketId>>)
    requires CutFrom(q, size, pages, from)
    ensures |Concat(pages)| == Min(Start(size, |pages|), |q.selected|)
  {
    if pages == [] {
    } else {
      hide IsListing, Window, Start;
      var n := |pages| - 1;
      ConcatLength(q, size, pages[..n], from[..n]);
      ListingSize(q, from[n]);
      AddedPage(size, n, Concat(pages[..n]), from[n]);
    }
  }

  lemma {:induction false} ConcatPlace(q: Query, size: nat, pages: seq<seq<TicketId>>, from: seq<seq<TicketId>>, k: nat, p: nat)
    requires CutFrom(q, size, pages, from) && k < |pages| && p < |q.selected| && OnPage(size, k, p)
    ensures p < |Concat(pages)| && |from[k]| == |q.selected| && Concat(pages)[p] == from[k][p]
  {
    hide IsListing, Window, OnPage, Start;
    var n := |pages| - 1;
    ListingSize(q, from[n]);
    if k == n {
      ConcatLength(q, size, pages[..n], from[..n]);
      AddedPage(size, n, Concat(pages[..n]), from[n]);
    } else {
      ConcatPlace(q, size, pages[..n], from[..n], k, p);
    }
  }

  /** Each place of the concatenated pages holds what the listing behind its page has there. */
  lemma ConcatAt(q: Query, size: nat, pages: seq<seq<TicketId>>, from: seq<seq<TicketId>>)
    requires CutFrom(q, size, pages, from)
    ensures |Concat(pages)| == Min(Start(size, |pages|), |q.selected|)
    ensures forall k, p :: 0 <= k < |pages| && 0 <= p < |q.selected| && OnPage(size, k, p) ==>
              && p < |Concat(pages)| && |from[k]| == |q.selected|
              && Concat(pages)[p] == from[k][p]
  {
    hide IsListing, Window, OnPage, Start, Concat;
    ConcatLength(q, size, pages, from);
    forall k, p | 0 <= k < |pages| && 0 <= p < |q.selected| && OnPage(size, k, p)
      ensures p < |Concat(pages)| && |from[k]| == |q.selected| && Concat(pages)[p] == from[k][p]
    {
      ConcatPlace(q, size, pages, from, k, p);
    }
  }

  /** With no boundary inside a group of ties, all listings put a ticket on the same page. */
  lemma SamePage(q: Query, size: nat, a: seq<TicketId>, b: seq<TicketId>, i: nat, j: nat, k: nat)
    requires IsListing(q, a) && IsListing(q, b) && !BoundaryInsideTies(q, size)
    requires i < |a| && j < |b| && a[i] == b[j] && OnPage(size, k, i)
    ensures OnPage(size, k, j)
  {
    PositionBounds(q, a, i);
    PositionBounds(q, b, j);
    assert !Splits(q, size, a[i], k) && !Splits(q, size, a[i], k + 1);
  }

  lemma PagesTile(q: Query, size: nat, pages: seq<seq<TicketId>>)
    requires 1 <= size && !BoundaryInsideTies(q, size) && PagesOf(q, size, pages)
    ensures IsListing(q, Concat(pages))
  {
    var from := Listings(q, size, pages);
    ConcatAt(q, size, pages, from);
    forall i, j | 0 <= i < j < |Concat(pages)|
      ensures Concat(pages)[i] != Concat(pages)[j] && Before(q, Concat(pages)[i], Concat(pages)[j])
    {
      PlacesAreOrdered(q, size, pages, from, i, j);
    }
    forall t
      ensures t in Concat(pages) <==> t in q.selected
    {
      if t in Concat(pages) {
        var p: nat :| p < |Concat(pages)| && Concat(pages)[p] == t;
        var k := PageOfPlace(q, size, pages, p);
        assert Concat(pages)[p] == from[k][p];
      }
      if t in q.selected {
        var p := PlaceOf(q, size, pages, from, t);
      }
    }
  }

  lemma PageOfPlace(q: Query, size: nat, pages: seq<seq<TicketId>>, p: nat) returns (k: nat)
    requires 1 <= size && p < |q.selected| <= Start(size, |pages|)
    ensures k < |pages| && OnPage(size, k, p)
  {
    k := PageAt(size, p);
    if |pages| < k {
      PagesAreOrdered(size, |pages|, k);
    }
  }

  lemma PlacesAreOrdered(q: Query, size: nat, pages: seq<seq<TicketId>>, from: seq<seq<TicketId>>, i: nat, j: nat)
    requires 1 <= size && !BoundaryInsideTies(q, size)
    requires |q.selected| <= Start(size, |pages|) && CutFrom(q, size, pages, from)
    requires i < j < |Concat(pages)|
    ensures Concat(pages)[i] != Concat(pages)[j] && Before(q, Concat(pages)[i], Concat(pages)[j])
  {
    ConcatAt(q, size, pages, from);
    var k := PageOfPlace(q, size, pages, i);
    var m := PageOfPlace(q, size, pages, j);
    assert Concat(pages)[i] == from[k][i] && Concat(pages)[j] == from[m][j];
    if k == m {
      assert Sorted(q, from[k]);
    } else {
      LaterPage(q, size, from[k], from[m], i, j, k, m);
    }
  }

  lemma LaterPage(q: Query, size: nat, a: seq<TicketId>, b: seq<TicketId>, i: nat, j: nat, k: nat, m: nat)
    requires IsListing(q, a) && IsListing(q, b) && !BoundaryInsideTies(q, size)
    requires i < j && i < |a| && j < |b| && OnPage(size, k, i) && OnPage(size, m, j) && k != m
    ensures a[i] != b[j] && Before(q, a[i], b[j])
  {
    assert b[j] in b && b[j] in a;
    var x: nat :| x < |a| && a[x] == b[j];
    SamePage(q, size, b, a, j, x, m);
    if m < k {
      PagesAreOrdered(size, m, k);
    }
    PagesAreOrdered(size, k, m);
  }

  lemma PlaceOf(q: Query, size: nat, pages: seq<seq<TicketId>>, from: seq<seq<TicketId>>, t: TicketId)
    returns (p: nat)
    requires 1 <= size && !BoundaryInsideTies(q, size)
    requires |q.selected| <= Start(size, |pages|) && CutFrom(q, size, pages, from)
    requires t in q.selected
    ensures p < |Concat(pages)| && Concat(pages)[p] == t
  {
    ConcatAt(q, size, pages, from);
    var ids := ListingExists(q);
    ListingSize(q, ids);
    var i: nat :| i < |ids| && ids[i] == t;
    var k := PageOfPlace(q, size, pages, i);
    ListingSize(q, from[k]);
    p :| 0 <= p < |from[k]| && from[k][p] == t;
    SamePage(q, size, ids, from[k], i, p, k);
  }

  /** The listing with one pair of neighbours exchanged. */
  function Swapped(ids: seq<TicketId>, i: nat): seq<TicketId>
    requires i + 1 < |ids|
  {
    ids[i := ids[i + 1]][i + 1 := ids[i]]
  }

  /** Exchanging two neighbours that tie leaves a listing a listing. */
  lemma SwapTied(q: Query, ids: seq<TicketId>, i: nat)
    requires IsListing(q, ids) && i + 1 < |ids| && Before(q, ids[i + 1], ids[i])
    ensures IsListing(q, Swapped(ids, i))
  {
    var swapped := Swapped(ids, i);
    assert Before(q, ids[i], ids[i + 1]);
    forall t
      ensures t in swapped <==> t in ids
    {
      if t in ids {
        var j :| 0 <= j < |ids| && ids[j] == t;
        assert swapped[if j == i then i + 1 else if j == i + 1 then i else j] == t;
      }
    }
  }

  lemma {:induction false} StartIsProduct(size: nat, k: nat)
    ensures Start(size, k) == k * size
  {
    if k == 0 {
    } else {
      StartIsProduct(size, k - 1);
      assert k * size == (k - 1) * size + size;
    }
  }

  lemma {:induction false} StartAtLeast(size: nat, k: nat)
    requires 1 <= size
    ensures k <= Start(size, k)
  {
    if k == 0 {
    } else {
      StartAtLeast(size, k - 1);
    }
  }

  lemma GroupsFit(q: Query, t: TicketId)
    ensures |Ahead(q, t)| + |Ties(q, t)| <= |q.selected|
  {
    assert Ahead(q, t) !! Ties(q, t);
    SubsetSize(Ahead(q, t) + Ties(q, t), q.selected);
  }

  lemma BoundaryNeighboursTie(q: Query, ids: seq<TicketId>, t: TicketId, edge: nat)
    requires IsListing(q, ids) && |Ahead(q, t)| < edge < |Ahead(q, t)| + |Ties(q, t)|
    ensures edge < |ids| && Before(q, ids[edge], ids[edge - 1])
  {
    GroupsFit(q, t);
    ListingSize(q, ids);
    TiesHoldTheirPlaces(q, ids, t, edge - 1);
    TiesHoldTheirPlaces(q, ids, t, edge);
  }

  /** The pages that repeat a ticket: one query breaks the tie the other way. */
  lemma PagesRepeat(q: Query, size: nat) returns (pages: seq<seq<TicketId>>)
    requires 1 <= size && BoundaryInsideTies(q, size)
    ensures PagesOf(q, size, pages) && !Distinct(Concat(pages))
  {
    var t, k: nat :| t in q.selected && Splits(q, size, t, k);
    var ids := ListingExists(q);
    BoundaryNeighboursTie(q, ids, t, Start(size, k));
    pages := RepeatingPages(q, size, ids, k);
  }

  /** Any choice of listings is a possible sequence of answers. */
  lemma CutPages(q: Query, size: nat, from: seq<seq<TicketId>>) returns (pages: seq<seq<TicketId>>)
    requires forall k :: 0 <= k < |from| ==> IsListing(q, from[k])
    ensures |pages| == |from| && CutFrom(q, size, pages, from)
    ensures forall k :: 0 <= k < |pages| ==> Answer(q, size, Start(size, k), pages[k])
  {
    hide Answer, IsListing, Window, Start;
    pages := [];
    for n := 0 to |from|
      invariant |pages| == n
      invariant forall k :: 0 <= k < n ==> pages[k] == Window(from[k], size, Start(size, k))
      invariant forall k :: 0 <= k < n ==> Answer(q, size, Start(size, k), pages[k])
    {
      WindowIsAnswer(q, size, Start(size, n), from[n]);
      pages := pages + [Window(from[n], size, Start(size, n))];
    }
  }

  lemma WindowIsAnswer(q: Query, limit: nat, offset: nat, ids: seq<TicketId>)
    requires IsListing(q, ids)
    ensures Answer(q, limit, offset, Window(ids, limit, offset))
  {
  }

  lemma RepeatingPages(q: Query, size: nat, ids: seq<TicketId>, k: nat) returns (pages: seq<seq<TicketId>>)
    requires 1 <= size && IsListing(q, ids) && 1 <= k && 1 <= Start(size, k) < |ids|
    requires Before(q, ids[Start(size, k)], ids[Start(size, k) - 1])
    ensures PagesOf(q, size, pages) && !Distinct(Concat(pages))
  {
    hide IsListing, CutFrom, Concat, Distinct, Start;
    var edge := Start(size, k);
    var swapped := Swapped(ids, edge - 1);
    SwapTied(q, ids, edge - 1);
    ListingSize(q, ids);
    StartAtLeast(size, k);
    StartAtLeast(size, |ids|);
    var from := OneDiffers(q, ids, swapped, k);
    pages := CutPages(q, size, from);
    ConcatRepeats(q, size, pages, from, k);
  }

  lemma OneDiffers(q: Query, ids: seq<TicketId>, swapped: seq<TicketId>, k: nat)
    returns (from: seq<seq<TicketId>>)
    requires IsListing(q, ids) && IsListing(q, swapped) && 1 <= k < |ids|
    ensures |from| == |ids| && from[k - 1] == ids && from[k] == swapped
    ensures forall m :: 0 <= m < |from| ==> IsListing(q, from[m])
  {
    from := seq(|ids|, m => ids)[k := swapped];
  }

  lemma ConcatRepeats(q: Query, size: nat, pages: seq<seq<TicketId>>, from: seq<seq<TicketId>>, k: nat)
    requires 1 <= size && CutFrom(q, size, pages, from) && 1 <= k < |pages|
    requires 1 <= Start(size, k) < |from[k]| && Start(size, k) < |from[k - 1]|
    requires from[k][Start(size, k)] == from[k - 1][Start(size, k) - 1]
    ensures !Distinct(Concat(pages))
  {
    var edge := Start(size, k);
    ListingSize(q, from[k]);
    ConcatAt(q, size, pages, from);
    assert OnPage(size, k - 1, edge - 1) && OnPage(size, k, edge);
    assert Concat(pages)[edge - 1] == from[k - 1][edge - 1];
    assert Concat(pages)[edge] == from[k][edge];
  }

  // ---------- main results ----------

  /**
   Whatever the database does with ties, the pages put together hold every selected ticket exactly
   once and in order, if and only if no page boundary falls inside a group of ties.
   */
  lemma PagesTileIff(q: Query, size: nat)
    requires 1 <= size
    ensures AlwaysTiles(q, size) <==> !BoundaryInsideTies(q, size)
  {
    if BoundaryInsideTies(q, size) {
      var pages := PagesRepeat(q, size);
      assert !IsListing(q, Concat(pages));
    } else {
      forall pages | PagesOf(q, size, pages)
        ensures IsListing(q, Concat(pages))
      {
        PagesTile(q, size, pages);
      }
    }
  }

  /** Sorting by creation and id leaves no ties: unfiltered pages of every size tile the table. */
  lemma UnfilteredPagesTile(caller: Caller, table: Table, size: nat)
    requires 1 <= size && !(caller.Some? && caller.value.role == Customer)
    ensures AlwaysTiles(ListQuery(caller, table), size)
  {
    var q := ListQuery(caller, table);
    WithoutTies(q, size);
  }

  lemma WithoutTies(q: Query, size: nat)
    requires 1 <= size
    requires forall t, u :: t in q.selected && u in q.selected && t != u ==> !Before(q, t, u) || !Before(q, u, t)
    ensures AlwaysTiles(q, size)
  {
    hide AlwaysTiles, Start;
    forall t, k: nat | t in q.selected
      ensures !Splits(q, size, t, k)
    {
      assert Ties(q, t) == {t};
    }
    PagesTileIff(q, size);
  }

  predicate Owns(table: Table, customer: UserId, t: TicketId) {
    t in table && table[t].customer == Some(customer)
  }

  ghost predicate DistinctInstants(table: Table, customer: UserId) {
    forall t, u :: Owns(table, customer, t) && Owns(table, customer, u) && t != u ==>
      table[t].createdAt != table[u].createdAt
  }

  /** A customer's pages of every size tile if and only if no two of the tickets share their instant. */
  lemma CustomerPagesTileIff(user: User, table: Table)
    requires user.role == Customer
    ensures (forall size :: 1 <= size ==> AlwaysTiles(ListQuery(Some(user), table), size))
        <==> DistinctInstants(table, user.id)
  {
    var q := ListQuery(Some(user), table);
    if t, u :| t in q.selected && u in q.selected && t != u && table[t].createdAt == table[u].createdAt {
      SubsetSize({t, u}, Ties(q, t));
      var k := |Ahead(q, t)| + 1;
      StartIsProduct(1, k);
      assert Splits(q, 1, t, k);
      PagesTileIff(q, 1);
      assert !AlwaysTiles(q, 1);
    } else {
      forall size: int | 1 <= size
        ensures AlwaysTiles(q, size)
      {
        WithoutTies(q, size);
      }
    }
  }

  /** Two tickets of one customer and one instant: both pages of size one may show the same ticket. */
  lemma TwoTiedTicketsMayRepeat(user: User, instant: nat)
    requires user.role == Customer
    ensures var row := NewRow("title", "description", instant, Some(user.id));
            var q := ListQuery(Some(user), map[1 := row, 2 := row]);
            && PagesOf(q, 1, [[1], [1]]) && |q.selected| == 2
            && 2 in q.selected && 2 !in Concat([[1], [1]])
  {
    var row := NewRow("title", "description", instant, Some(user.id));
    var q := ListQuery(Some(user), map[1 := row, 2 := row]);
    assert q.selected == {1, 2};
    assert IsListing(q, [1, 2]) && IsListing(q, [2, 1]);
    assert Window([1, 2], 1, 0) == [1] && Window([2, 1], 1, 1) == [1];
    assert Concat([[1], [1]]) == Concat([[1]]) + [1];
  }

  /** Listing selects exactly the tickets that reading one by one would allow. */
  lemma ListedIffReadable(caller: Caller, table: Table)
    ensures forall t :: t in ListQuery(caller, table).selected <==> t in table && MayRead(caller, table[t])
  {
  }

  /** Newest first, and where everybody's tickets are listed, the higher id first among those of one instant. */
  lemma NewestFirst(caller: Caller, table: Table, limit: nat, offset: nat, page: seq<TicketId>, i: nat, j: nat)
    requires Answer(ListQuery(caller, table), limit, offset, page) && i < j < |page|
    ensures page[i] in table && page[j] in table && table[page[j]].createdAt <= table[page[i]].createdAt
    ensures !(caller.Some? && caller.value.role == Customer) && table[page[i]].createdAt == table[page[j]].createdAt ==>
              page[j] < page[i]
  {
    PageShape(ListQuery(caller, table), limit, offset, page);
    assert page[i] in Members(page) && page[j] in Members(page);
    assert Before(ListQuery(caller, table), page[i], page[j]);
  }

  /** A page is a sorted part of the selection, as long as its limit and the total allow. */
  lemma PageShape(q: Query, limit: nat, offset: nat, page: seq<TicketId>)
    requires Answer(q, limit, offset, page)
    ensures Distinct(page) && Sorted(q, page) && Members(page) <= q.selected
    ensures |page| == Min(limit, |q.selected| - Min(offset, |q.selected|))
  {
    var ids :| IsListing(q, ids) && page == Window(ids, limit, offset);
    ListingSize(q, ids);
    WindowShape(q, ids, limit, offset);
    hide Window;
    assert Members(page) <= Members(ids);
  }

  lemma WindowShape(q: Query, ids: seq<TicketId>, limit: nat, offset: nat)
    requires Distinct(ids) && Sorted(q, ids)
    ensures var page := Window(ids, limit, offset);
            && |page| == Min(limit, |ids| - Min(offset, |ids|))
            && Distinct(page) && Sorted(q, page) && forall t :: t in page ==> t in ids
  {
    var page, first := Window(ids, limit, offset), Min(offset, |ids|);
    assert forall i :: 0 <= i < |page| ==> page[i] == ids[first + i];
  }
}
