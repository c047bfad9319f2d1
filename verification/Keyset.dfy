/** Keyset pagination of the case list: three sorts, opaque cursors, walks over changing data. */
module Keyset {
  import opened Prelude

  /** A listed case: its sort columns, and the rest, which pagination never looks at. */
  datatype Row = Row(id: nat, riskScore: int, createdAt: int, oldestAlert: Option<int>, details: string)

  datatype Sort = RiskDescending | CreatedDescending | OldestAlert

  /** A sort value; `Null` is a case without alerts. */
  datatype Value = Number(n: int) | Moment(at: int) | Null

  datatype Position = Position(value: Value, id: nat)

  function ValueOf(sort: Sort, row: Row): Value {
    match sort
    case RiskDescending => Number(row.riskScore)
    case CreatedDescending => Moment(row.createdAt)
    case OldestAlert => match row.oldestAlert case None => Null case Some(t) => Moment(t)
  }

  function PositionOf(sort: Sort, row: Row): Position { Position(ValueOf(sort, row), row.id) }

  /** The integer behind a value that is not null. */
  function Rank(v: Value): int { match v case Number(n) => n case Moment(t) => t case Null => 0 }

  predicate FitsSort(sort: Sort, v: Value) {
    match sort
    case RiskDescending => v.Number?
    case CreatedDescending => v.Moment?
    case OldestAlert => v.Moment? || v.Null?
  }

  /** The ORDER BY of a sort: both descending sorts descend in the id too; nulls come last. */
  predicate Before(sort: Sort, p: Position, q: Position) {
    if sort == OldestAlert then
      if p.value.Null? then q.value.Null? && p.id < q.id
      else q.value.Null? || Rank(p.value) < Rank(q.value) || (Rank(p.value) == Rank(q.value) && p.id < q.id)
    else Rank(p.value) > Rank(q.value) || (Rank(p.value) == Rank(q.value) && p.id > q.id)
  }

  /** The WHERE condition a cursor adds, as the query builder spells it. */
  predicate PassesKeyset(sort: Sort, value: Value, lastId: nat, row: Row) {
    match sort
    case RiskDescending => row.riskScore < Rank(value) || (row.riskScore == Rank(value) && row.id < lastId)
    case CreatedDescending => row.createdAt < Rank(value) || (row.createdAt == Rank(value) && row.id < lastId)
    case OldestAlert =>
      if value.Null? then row.oldestAlert.None? && row.id > lastId
      else if row.oldestAlert.None? then true
      else row.oldestAlert.value > Rank(value) || (row.oldestAlert.value == Rank(value) && row.id > lastId)
  }

  /** The cursor condition selects exactly what the ORDER BY puts after the cursor's row. */
  lemma KeysetMatchesOrder(sort: Sort, last: Position, row: Row)
    requires FitsSort(sort, last.value)
    ensures PassesKeyset(sort, last.value, last.id, row) <==> Before(sort, last, PositionOf(sort, row))
  {
  }

  lemma OrderIsStrict(sort: Sort, p: Position, q: Position, r: Position)
    requires FitsSort(sort, p.value) && FitsSort(sort, q.value) && FitsSort(sort, r.value)
    ensures !Before(sort, p, p)
    ensures Before(sort, p, q) && Before(sort, q, r) ==> Before(sort, p, r)
    ensures p != q && p.id != q.id ==> Before(sort, p, q) || Before(sort, q, p)
  {
  }

  // ---- Cursors -------------------------------------------------------------

  datatype Json = JInt(n: int) | JBool(b: bool) | JString(s: string) | JNull | JOther

  /** A decoded cursor document; either member may be missing. */
  datatype Payload = Payload(v: Option<Json>, id: Option<string>)

  /** Text forms the model leaves abstract: timestamps, ids, and base64 of JSON. */
  datatype Codec = Codec(
    iso: int -> string, parseIso: string -> Option<int>,
    idText: nat -> string, parseId: string -> Option<nat>,
    pack: Payload -> string, unpack: string -> Option<Payload>)

  ghost predicate RoundTrips(codec: Codec) {
    && (forall t :: codec.parseIso(codec.iso(t)) == Some(t))
    && (forall i: nat :: codec.parseId(codec.idText(i)) == Some(i))
    && (forall p :: codec.unpack(codec.pack(p)) == Some(p))
  }

  function JsonOf(codec: Codec, v: Value): Json {
    match v case Number(n) => JInt(n) case Moment(t) => JString(codec.iso(t)) case Null => JNull
  }

  function EncodeCursor(codec: Codec, sort: Sort, row: Row): string {
    codec.pack(Payload(Some(JsonOf(codec, ValueOf(sort, row))), Some(codec.idText(row.id))))
  }

  function DecodeMoment(codec: Codec, s: string): Option<Value> {
    match codec.parseIso(s) case None => None case Some(t) => Some(Moment(t))
  }

  function DecodeValue(codec: Codec, sort: Sort, raw: Json): Option<Value> {
    match sort
    case RiskDescending => if raw.JInt? then Some(Number(raw.n)) else None
    case CreatedDescending => if raw.JString? then DecodeMoment(codec, raw.s) else None
    case OldestAlert =>
      if raw.JNull? then Some(Null) else if raw.JString? then DecodeMoment(codec, raw.s) else None
  }

  /** `None` is the invalid-cursor error, whatever was wrong with the text. */
  function DecodeCursor(codec: Codec, sort: Sort, cursor: string): Option<Position> {
    match codec.unpack(cursor)
    case None => None
    case Some(payload) =>
      if payload.id.None? || payload.v.None? then None else
      var id, value := codec.parseId(payload.id.value), DecodeValue(codec, sort, payload.v.value);
      if id.None? || value.None? then None else Some(Position(value.value, id.value))
  }

  /** A cursor decodes to the position it was made from, under the sort it was made for. */
  lemma CursorRoundTrip(codec: Codec, sort: Sort, row: Row)
    requires RoundTrips(codec)
    ensures DecodeCursor(codec, sort, EncodeCursor(codec, sort, row)) == Some(PositionOf(sort, row))
  {
  }

  /** A cursor kept while the sort control changes is refused, except between the two time sorts. */
  lemma CursorAcrossSorts(codec: Codec, sort: Sort, other: Sort, row: Row)
    requires RoundTrips(codec)
    ensures DecodeCursor(codec, other, EncodeCursor(codec, sort, row)).Some? <==> FitsSort(other, ValueOf(sort, row))
    ensures DecodeCursor(codec, other, EncodeCursor(codec, sort, row)).Some? ==>
      DecodeCursor(codec, other, EncodeCursor(codec, sort, row)) == Some(PositionOf(sort, row))
  {
  }

  // ---- Sorting -------------------------------------------------------------

  /** Ids are the primary key. */
  ghost predicate UniqueIds(rows: set<Row>) {
    forall r, s :: r in rows && s in rows && r.id == s.id ==> r == s
  }

  predicate Precedes(sort: Sort, r: Row, s: Row) { Before(sort, PositionOf(sort, r), PositionOf(sort, s)) }

  lemma {:induction false} HasFirst(sort: Sort, rows: set<Row>) returns (f: Row)
    requires rows != {} && UniqueIds(rows)
    ensures f in rows && forall r :: r in rows && r != f ==> Precedes(sort, f, r)
  {
    f :| f in rows;
    if rows != {f} {
      var first := f;
      var g := HasFirst(sort, rows - {f});
      if Precedes(sort, g, f) { f := g; }
      forall r | r in rows && r != f ensures Precedes(sort, f, r) {
        OrderIsStrict(sort, PositionOf(sort, first), PositionOf(sort, g), PositionOf(sort, r));
        assert r == first || r in rows - {first};
      }
    }
  }

  lemma FirstExists(sort: Sort, rows: set<Row>)
    requires rows != {} && UniqueIds(rows)
    ensures exists f :: f in rows && forall r :: r in rows && r != f ==> Precedes(sort, f, r)
  {
    var f := HasFirst(sort, rows);
  }

  ghost function First(sort: Sort, rows: set<Row>): (f: Row)
    requires rows != {} && UniqueIds(rows)
    ensures f in rows && forall r :: r in rows && r != f ==> Precedes(sort, f, r)
  {
    FirstExists(sort, rows);
    var f :| f in rows && forall r :: r in rows && r != f ==> Precedes(sort, f, r);
    f
  }

  /** The rows in the order of the sort. */
  ghost function Sorted(sort: Sort, rows: set<Row>): (q: seq<Row>)
    requires UniqueIds(rows)
    ensures |q| == |rows| && forall r :: r in q <==> r in rows
    decreases |rows|
  {
    if rows == {} then [] else
    var f := First(sort, rows);
    [f] + Sorted(sort, rows - {f})
  }

  ghost predicate InOrder(sort: Sort, q: seq<Row>) {
    forall i, j :: 0 <= i < j < |q| ==> Precedes(sort, q[i], q[j])
  }

  lemma {:induction false} SortedIsInOrder(sort: Sort, rows: set<Row>)
    requires UniqueIds(rows)
    ensures InOrder(sort, Sorted(sort, rows))
    decreases |rows|
  {
    if rows != {} {
      var f := First(sort, rows);
      SortedIsInOrder(sort, rows - {f});
      var rest := Sorted(sort, rows - {f});
      forall i | 0 <= i < |rest| ensures Precedes(sort, f, rest[i]) { assert rest[i] in rest; }
    }
  }

  // ---- Pages ---------------------------------------------------------------

  const MaxLimit := 200

  function Limit(requested: int): nat {
    if requested < 1 then 1 else if requested > MaxLimit then MaxLimit else requested
  }

  datatype Page = Page(items: seq<Row>, next: Option<string>)

  /** The filtered rows a cursor leaves. */
  function Beyond(sort: Sort, rows: set<Row>, cursor: Option<Position>): set<Row> {
    set r | r in rows && (cursor.Some? ==> PassesKeyset(sort, cursor.value.value, cursor.value.id, r))
  }

  /** One page: fetch one row more than asked for, to know whether a cursor is due. */
  ghost function PageAt(codec: Codec, sort: Sort, rows: set<Row>, limit: nat, cursor: Option<Position>): Page
    requires UniqueIds(rows) && limit >= 1
  {
    var fetched := Sorted(sort, Beyond(sort, rows, cursor));
    if |fetched| > limit then Page(fetched[..limit], Some(EncodeCursor(codec, sort, fetched[limit - 1])))
    else Page(fetched, None)
  }

  /** The list endpoint on the rows its filter selects; `None` is the invalid-cursor error. */
  ghost function Paginate(codec: Codec, sort: Sort, rows: set<Row>, requested: int,
                          cursor: Option<string>): Option<Page>
    requires UniqueIds(rows)
  {
    match cursor
    case None => Some(PageAt(codec, sort, rows, Limit(requested), None))
    case Some(text) =>
      match DecodeCursor(codec, sort, text)
      case None => None
      case Some(p) => Some(PageAt(codec, sort, rows, Limit(requested), Some(p)))
  }

  // ---- Walks ---------------------------------------------------------------

  /** Request `k` is answered by page `k`; only the last page has no cursor. */
  ghost predicate Answers(codec: Codec, sort: Sort, requested: int, rows: set<Row>, pages: seq<Page>, k: nat)
    requires k < |pages| && UniqueIds(rows)
  {
    && Paginate(codec, sort, rows, requested, if k == 0 then None else pages[k - 1].next) == Some(pages[k])
    && (pages[k].next.None? <==> k == |pages| - 1)
  }

  /** A completed walk: page after page by `next`, the filtered rows possibly different at each request. */
  ghost predicate IsWalk(codec: Codec, sort: Sort, requested: int, views: seq<set<Row>>, pages: seq<Page>) {
    && |pages| == |views| && |pages| > 0
    && (forall k :: 0 <= k < |views| ==> UniqueIds(views[k]))
    && (forall k :: 0 <= k < |pages| ==> Answers(codec, sort, requested, views[k], pages, k))
  }

  /** Where page `k` starts: after the last row of the page before it. */
  function StartOf(sort: Sort, pages: seq<Page>, k: nat): Option<Position>
    requires k < |pages|
  {
    if k == 0 || pages[k - 1].items == [] then None
    else Some(PositionOf(sort, pages[k - 1].items[|pages[k - 1].items| - 1]))
  }

  /** A page with a cursor is full, and its cursor is its last row's. */
  lemma PageNext(codec: Codec, sort: Sort, rows: set<Row>, requested: int, cursor: Option<string>, page: Page)
    requires UniqueIds(rows) && Paginate(codec, sort, rows, requested, cursor) == Some(page) && page.next.Some?
    ensures |page.items| == Limit(requested)
    ensures page.next == Some(EncodeCursor(codec, sort, page.items[|page.items| - 1]))
  {
    hide DecodeCursor, EncodeCursor, Sorted;
  }

  /** In a walk every request is answered, from exactly where the previous page stopped. */
  lemma WalkPage(codec: Codec, sort: Sort, requested: int, views: seq<set<Row>>, pages: seq<Page>, k: nat)
    requires RoundTrips(codec) && IsWalk(codec, sort, requested, views, pages) && k < |pages|
    ensures pages[k] == PageAt(codec, sort, views[k], Limit(requested), StartOf(sort, pages, k))
    ensures k > 0 ==> |pages[k - 1].items| == Limit(requested)
    ensures StartOf(sort, pages, k).Some? ==> FitsSort(sort, StartOf(sort, pages, k).value.value)
    ensures pages[k].next.None? <==> k == |pages| - 1
  {
    hide PageAt, DecodeCursor, EncodeCursor, UniqueIds;
    assert Answers(codec, sort, requested, views[k], pages, k);
    if k > 0 {
      var j, before := k - 1, pages[k - 1];
      assert Answers(codec, sort, requested, views[j], pages, j);
      PageNext(codec, sort, views[j], requested, if j == 0 then None else pages[j - 1].next, before);
      CursorRoundTrip(codec, sort, before.items[|before.items| - 1]);
    }
  }

  lemma CursorFits(sort: Sort, row: Row)
    ensures FitsSort(sort, PositionOf(sort, row).value)
  {
  }

  /** What one page shows: the first rows beyond the cursor, in order, and all of them when no cursor follows. */
  lemma PageShows(codec: Codec, sort: Sort, rows: set<Row>, limit: nat, cursor: Option<Position>, r: Row)
    requires UniqueIds(rows) && limit >= 1
    requires r in rows
    requires cursor.Some? ==> FitsSort(sort, cursor.value.value) && Before(sort, cursor.value, PositionOf(sort, r))
    ensures var page := PageAt(codec, sort, rows, limit, cursor);
            r in page.items || (page.next.Some? && |page.items| == limit && Precedes(sort, page.items[limit - 1], r))
  {
    hide Sorted, EncodeCursor, Before, PassesKeyset;
    if cursor.Some? { KeysetMatchesOrder(sort, cursor.value, r); }
    var fetched := Sorted(sort, Beyond(sort, rows, cursor));
    SortedIsInOrder(sort, Beyond(sort, rows, cursor));
    assert r in fetched;
    var i :| 0 <= i < |fetched| && fetched[i] == r;
    if i < limit && |fetched| > limit { assert fetched[..limit][i] == r; }
  }

  /** What a page shows comes from the filtered rows, beyond the cursor, in order. */
  lemma PageIsFrom(codec: Codec, sort: Sort, rows: set<Row>, limit: nat, cursor: Option<Position>)
    requires UniqueIds(rows) && limit >= 1 && (cursor.Some? ==> FitsSort(sort, cursor.value.value))
    ensures var page := PageAt(codec, sort, rows, limit, cursor);
            && InOrder(sort, page.items)
            && forall r :: r in page.items ==>
                 r in rows && (cursor.Some? ==> Before(sort, cursor.value, PositionOf(sort, r)))
  {
    var fetched := Sorted(sort, Beyond(sort, rows, cursor));
    SortedIsInOrder(sort, Beyond(sort, rows, cursor));
    hide Sorted;
    forall r | r in fetched ensures r in rows && (cursor.Some? ==> Before(sort, cursor.value, PositionOf(sort, r))) {
      if cursor.Some? { KeysetMatchesOrder(sort, cursor.value, r); }
    }
  }

  /** The rows of the first `k` pages, in the order shown. */
  function Shown(pages: seq<Page>, k: nat): seq<Row>
    requires k <= |pages|
  {
    if k == 0 then [] else Shown(pages, k - 1) + pages[k - 1].items
  }

  lemma JoinInOrder(sort: Sort, done: seq<Row>, items: seq<Row>)
    requires InOrder(sort, done) && InOrder(sort, items)
    requires done != [] ==> forall r :: r in items ==> Precedes(sort, done[|done| - 1], r)
    ensures InOrder(sort, done + items)
  {
    forall i, j | 0 <= i < |done| && 0 <= j < |items| ensures Precedes(sort, done[i], items[j]) {
      var last := done[|done| - 1];
      assert items[j] in items;
      OrderIsStrict(sort, PositionOf(sort, done[i]), PositionOf(sort, last), PositionOf(sort, items[j]));
    }
    hide Precedes;
  }

  /** Nothing is shown twice or out of order, however the data changes between requests. */
  lemma {:induction false} ShownInOrder(codec: Codec, sort: Sort, requested: int, views: seq<set<Row>>,
                                        pages: seq<Page>, k: nat)
    requires RoundTrips(codec) && IsWalk(codec, sort, requested, views, pages) && k <= |pages|
    ensures InOrder(sort, Shown(pages, k))
    ensures k > 0 && pages[k - 1].items != [] ==>
      Shown(pages, k) != [] && Shown(pages, k)[|Shown(pages, k)| - 1] == pages[k - 1].items[|pages[k - 1].items| - 1]
  {
    hide IsWalk, PageAt, Before;
    if k > 0 {
      ShownInOrder(codec, sort, requested, views, pages, k - 1);
      WalkPage(codec, sort, requested, views, pages, k - 1);
      ViewsAreKeyed(codec, sort, requested, views, pages, k - 1);
      PageIsFrom(codec, sort, views[k - 1], Limit(requested), StartOf(sort, pages, k - 1));
      JoinInOrder(sort, Shown(pages, k - 1), pages[k - 1].items);
    }
  }

  lemma ViewsAreKeyed(codec: Codec, sort: Sort, requested: int, views: seq<set<Row>>, pages: seq<Page>, k: nat)
    requires IsWalk(codec, sort, requested, views, pages) && k < |pages|
    ensures |views| == |pages| && UniqueIds(views[k])
  {
  }

  // ---- Stable rows ---------------------------------------------------------

  ghost predicate HasPosition(sort: Sort, rows: set<Row>, p: Position) {
    exists r :: r in rows && PositionOf(sort, r) == p
  }

  /** The row at `p` keeps its key and its place in the filter at every request. */
  ghost predicate Stable(sort: Sort, views: seq<set<Row>>, p: Position) {
    forall k :: 0 <= k < |views| ==> HasPosition(sort, views[k], p)
  }

  ghost predicate ShownAt(sort: Sort, q: seq<Row>, p: Position) {
    exists i :: 0 <= i < |q| && PositionOf(sort, q[i]) == p
  }

  /** After `k` pages the row at `p` has been shown, or it lies ahead of the next request. */
  ghost predicate Ahead(sort: Sort, pages: seq<Page>, p: Position, k: nat)
    requires k <= |pages|
  {
    || ShownAt(sort, Shown(pages, k), p)
    || k == 0
    || (pages[k - 1].next.Some? && pages[k - 1].items != []
        && Before(sort, PositionOf(sort, pages[k - 1].items[|pages[k - 1].items| - 1]), p))
  }

  lemma ShownStays(sort: Sort, q: seq<Row>, more: seq<Row>, p: Position)
    ensures ShownAt(sort, q, p) ==> ShownAt(sort, q + more, p)
    ensures ShownAt(sort, more, p) ==> ShownAt(sort, q + more, p)
  {
    if ShownAt(sort, q, p) {
      var i :| 0 <= i < |q| && PositionOf(sort, q[i]) == p;
      assert (q + more)[i] == q[i];
    }
    if ShownAt(sort, more, p) {
      var i :| 0 <= i < |more| && PositionOf(sort, more[i]) == p;
      assert (q + more)[|q| + i] == more[i];
    }
  }

  /** Page after page, a stable row has been shown or still lies ahead of the cursor. */
  lemma {:induction false} StableIsAhead(codec: Codec, sort: Sort, requested: int, views: seq<set<Row>>,
                                         pages: seq<Page>, p: Position, k: nat)
    requires RoundTrips(codec) && IsWalk(codec, sort, requested, views, pages) && k <= |pages| && Stable(sort, views, p)
    ensures Ahead(sort, pages, p, k)
  {
    hide IsWalk, PageAt, Before, ShownAt, HasPosition;
    if k > 0 {
      StableIsAhead(codec, sort, requested, views, pages, p, k - 1);
      WalkPage(codec, sort, requested, views, pages, k - 1);
      ViewsAreKeyed(codec, sort, requested, views, pages, k - 1);
      ShownStays(sort, Shown(pages, k - 1), pages[k - 1].items, p);
      if !ShownAt(sort, Shown(pages, k - 1), p) {
        StableOnPage(codec, sort, views[k - 1], Limit(requested), StartOf(sort, pages, k - 1), p);
      }
    }
  }

  lemma StableOnPage(codec: Codec, sort: Sort, rows: set<Row>, limit: nat, cursor: Option<Position>, p: Position)
    requires UniqueIds(rows) && limit >= 1 && HasPosition(sort, rows, p)
    requires cursor.Some? ==> FitsSort(sort, cursor.value.value) && Before(sort, cursor.value, p)
    ensures var page := PageAt(codec, sort, rows, limit, cursor);
            ShownAt(sort, page.items, p) || (page.next.Some? && page.items != []
              && Before(sort, PositionOf(sort, page.items[|page.items| - 1]), p))
  {
    var r :| r in rows && PositionOf(sort, r) == p;
    PageShows(codec, sort, rows, limit, cursor, r);
  }

  /** Every shown row comes from the view of its request. */
  lemma {:induction false} ShownComesFrom(codec: Codec, sort: Sort, requested: int, views: seq<set<Row>>,
                                          pages: seq<Page>, k: nat, r: Row) returns (j: nat)
    requires RoundTrips(codec) && IsWalk(codec, sort, requested, views, pages) && k <= |pages| && r in Shown(pages, k)
    ensures j < |views| && r in views[j]
  {
    hide IsWalk, PageAt, Before, StartOf;
    ViewsAreKeyed(codec, sort, requested, views, pages, k - 1);
    if r in pages[k - 1].items {
      WalkPage(codec, sort, requested, views, pages, k - 1);
      PageIsFrom(codec, sort, views[k - 1], Limit(requested), StartOf(sort, pages, k - 1));
      j := k - 1;
    } else {
      j := ShownComesFrom(codec, sort, requested, views, pages, k - 1, r);
    }
  }

  lemma ShownPosition(codec: Codec, sort: Sort, requested: int, views: seq<set<Row>>, pages: seq<Page>, p: Position,
                      r: Row)
    requires RoundTrips(codec) && IsWalk(codec, sort, requested, views, pages) && Stable(sort, views, p)
    requires r in Shown(pages, |pages|) && r.id == p.id
    ensures PositionOf(sort, r) == p
  {
    var j := ShownComesFrom(codec, sort, requested, views, pages, |pages|, r);
    var s :| s in views[j] && PositionOf(sort, s) == p;
    assert UniqueIds(views[j]);
  }

  /** Whatever is inserted, deleted or re-keyed between the pages of a completed walk, a row whose key and
      filter membership stay fixed is shown exactly once. */
  lemma StableRowShownOnce(codec: Codec, sort: Sort, requested: int, views: seq<set<Row>>, pages: seq<Page>,
                           p: Position)
    returns (i: nat)
    requires RoundTrips(codec) && IsWalk(codec, sort, requested, views, pages) && Stable(sort, views, p)
    ensures i < |Shown(pages, |pages|)| && PositionOf(sort, Shown(pages, |pages|)[i]) == p
    ensures forall j :: 0 <= j < |Shown(pages, |pages|)| && Shown(pages, |pages|)[j].id == p.id ==> j == i
  {
    var q := Shown(pages, |pages|);
    StableIsAhead(codec, sort, requested, views, pages, p, |pages|);
    ShownInOrder(codec, sort, requested, views, pages, |pages|);
    WalkPage(codec, sort, requested, views, pages, |pages| - 1);
    i :| 0 <= i < |q| && PositionOf(sort, q[i]) == p;
    forall j | 0 <= j < |q| && q[j].id == p.id ensures j == i {
      assert q[j] in q;
      ShownPosition(codec, sort, requested, views, pages, p, q[j]);
      OnePlaceEach(sort, q, i, j);
    }
  }

  lemma OnePlaceEach(sort: Sort, q: seq<Row>, i: nat, j: nat)
    requires InOrder(sort, q) && i < |q| && j < |q| && PositionOf(sort, q[i]) == PositionOf(sort, q[j])
    ensures i == j
  {
    OrderIsStrict(sort, PositionOf(sort, q[i]), PositionOf(sort, q[i]), PositionOf(sort, q[i]));
  }

  // ---- Fixed data ----------------------------------------------------------

  /** The head of an ordered list of a set's rows is the set's first row. */
  lemma HeadIsFirst(sort: Sort, rows: set<Row>, q: seq<Row>)
    requires UniqueIds(rows) && InOrder(sort, q) && q != [] && rows != {} && forall r :: r in q <==> r in rows
    ensures q[0] == First(sort, rows)
  {
    var f := First(sort, rows);
    var i :| 0 <= i < |q| && q[i] == f;
    assert q[0] in q;
    OrderIsStrict(sort, PositionOf(sort, f), PositionOf(sort, q[0]), PositionOf(sort, f));
  }

  lemma HeadIsNotInTail(sort: Sort, q: seq<Row>)
    requires InOrder(sort, q) && q != []
    ensures q[0] !in q[1..] && InOrder(sort, q[1..])
  {
    OrderIsStrict(sort, PositionOf(sort, q[0]), PositionOf(sort, q[0]), PositionOf(sort, q[0]));
    hide Before, PositionOf;
    forall j | 1 <= j < |q| ensures q[j] != q[0] { assert Precedes(sort, q[0], q[j]); }
  }

  lemma TailHasOthers(q: seq<Row>, rows: set<Row>)
    requires q != [] && q[0] !in q[1..] && forall r :: r in q <==> r in rows
    ensures forall r :: r in q[1..] <==> r in rows - {q[0]}
  {
    assert q == [q[0]] + q[1..];
  }

  lemma SortedCons(sort: Sort, rows: set<Row>, q: seq<Row>)
    requires UniqueIds(rows) && rows != {} && q != [] && q[0] == First(sort, rows)
    ensures UniqueIds(rows - {q[0]})
    ensures q[1..] == Sorted(sort, rows - {q[0]}) ==> q == Sorted(sort, rows)
  {
    assert q == [q[0]] + q[1..];
  }

  lemma {:induction false} OrderDetermines(sort: Sort, rows: set<Row>, q: seq<Row>)
    requires UniqueIds(rows) && InOrder(sort, q) && forall r :: r in q <==> r in rows
    ensures q == Sorted(sort, rows)
    decreases |q|
  {
    hide *;
    if q == [] {
      assert rows == {};
      assert |Sorted(sort, rows)| == 0;
    } else {
      assert q[0] in q;
      HeadIsFirst(sort, rows, q);
      HeadIsNotInTail(sort, q);
      TailHasOthers(q, rows);
      SortedCons(sort, rows, q);
      OrderDetermines(sort, rows - {q[0]}, q[1..]);
    }
  }

  /** On fixed data the pages of a completed walk are exactly the sorted filtered list, cut in pieces. */
  lemma FixedWalkIsSortedList(codec: Codec, sort: Sort, requested: int, rows: set<Row>, views: seq<set<Row>>,
                              pages: seq<Page>)
    requires RoundTrips(codec) && IsWalk(codec, sort, requested, views, pages) && UniqueIds(rows)
    requires forall k :: 0 <= k < |views| ==> views[k] == rows
    ensures Shown(pages, |pages|) == Sorted(sort, rows)
  {
    var q := Shown(pages, |pages|);
    ShownInOrder(codec, sort, requested, views, pages, |pages|);
    forall r ensures r in q <==> r in rows {
      if r in q { var j := ShownComesFrom(codec, sort, requested, views, pages, |pages|, r); }
      if r in rows {
        var p := PositionOf(sort, r);
        assert forall k :: 0 <= k < |views| ==> HasPosition(sort, views[k], p);
        var i := StableRowShownOnce(codec, sort, requested, views, pages, p);
        assert q[i] in q;
        var j := ShownComesFrom(codec, sort, requested, views, pages, |pages|, q[i]);
      }
    }
    OrderDetermines(sort, rows, q);
  }

  // ---- Walks end -----------------------------------------------------------

  /** On fixed data a page with a cursor leaves strictly fewer rows to fetch. */
  lemma BeyondShrinks(codec: Codec, sort: Sort, rows: set<Row>, limit: nat, start: Option<Position>, last: Row)
    requires UniqueIds(rows) && limit >= 1 && (start.Some? ==> FitsSort(sort, start.value.value))
    requires var page := PageAt(codec, sort, rows, limit, start);
             page.items != [] && last == page.items[|page.items| - 1]
    ensures Beyond(sort, rows, Some(PositionOf(sort, last))) < Beyond(sort, rows, start)
  {
    var page, p := PageAt(codec, sort, rows, limit, start), PositionOf(sort, last);
    PageIsFrom(codec, sort, rows, limit, start);
    assert last in page.items;
    CursorFits(sort, last);
    hide PageAt;
    forall r | r in Beyond(sort, rows, Some(p)) ensures r in Beyond(sort, rows, start) && r != last {
      KeysetMatchesOrder(sort, p, r);
      CursorFits(sort, r);
      if start.Some? {
        KeysetMatchesOrder(sort, start.value, r);
        OrderIsStrict(sort, start.value, p, PositionOf(sort, r));
      }
      OrderIsStrict(sort, p, p, p);
    }
    if start.Some? { KeysetMatchesOrder(sort, start.value, last); }
    assert last in Beyond(sort, rows, start);
  }

  /** Request `k` was answered with a cursor. */
  ghost predicate Continues(codec: Codec, sort: Sort, requested: int, rows: set<Row>, pages: seq<Page>, k: nat)
    requires UniqueIds(rows) && k < |pages|
  {
    pages[k].next.Some?
    && Paginate(codec, sort, rows, requested, if k == 0 then None else pages[k - 1].next) == Some(pages[k])
  }

  /** The next request after `pages` resumes at `start`. */
  ghost predicate Resumes(codec: Codec, sort: Sort, pages: seq<Page>, start: Option<Position>) {
    if pages == [] then start == None
    else
      && pages[|pages| - 1].next.Some? && start.Some? && FitsSort(sort, start.value.value)
      && DecodeCursor(codec, sort, pages[|pages| - 1].next.value) == start
  }

  /** The pages fetched so far, all with a cursor, and where the next request starts. */
  ghost predicate Fetched(codec: Codec, sort: Sort, requested: int, rows: set<Row>, pages: seq<Page>,
                          start: Option<Position>)
    requires UniqueIds(rows)
  {
    && (forall k :: 0 <= k < |pages| ==> Continues(codec, sort, requested, rows, pages, k))
    && Resumes(codec, sort, pages, start)
  }

  /** The request that resumes at `start` is answered by the page there. */
  lemma ResumedPage(codec: Codec, sort: Sort, requested: int, rows: set<Row>, pages: seq<Page>, start: Option<Position>)
    requires UniqueIds(rows) && Resumes(codec, sort, pages, start)
    ensures Paginate(codec, sort, rows, requested, if |pages| == 0 then None else pages[|pages| - 1].next)
      == Some(PageAt(codec, sort, rows, Limit(requested), start))
  {
    hide PageAt, DecodeCursor;
  }

  lemma ContinuesStays(codec: Codec, sort: Sort, requested: int, rows: set<Row>, pages: seq<Page>, page: Page)
    requires UniqueIds(rows) && forall k :: 0 <= k < |pages| ==> Continues(codec, sort, requested, rows, pages, k)
    requires page.next.Some?
    requires Paginate(codec, sort, rows, requested, if |pages| == 0 then None else pages[|pages| - 1].next)
      == Some(page)
    ensures forall k :: 0 <= k < |pages| + 1 ==> Continues(codec, sort, requested, rows, pages + [page], k)
  {
    hide Paginate, UniqueIds;
    forall k | 0 <= k < |pages| + 1 ensures Continues(codec, sort, requested, rows, pages + [page], k) {
      if k < |pages| { assert Continues(codec, sort, requested, rows, pages, k); }
    }
  }

  /** One more request, when it answers with a cursor. */
  lemma FetchMore(codec: Codec, sort: Sort, requested: int, rows: set<Row>, pages: seq<Page>, start: Option<Position>)
    returns (next: Option<Position>)
    requires RoundTrips(codec) && UniqueIds(rows) && Fetched(codec, sort, requested, rows, pages, start)
    requires PageAt(codec, sort, rows, Limit(requested), start).next.Some?
    ensures Fetched(codec, sort, requested, rows, pages + [PageAt(codec, sort, rows, Limit(requested), start)], next)
    ensures Beyond(sort, rows, next) < Beyond(sort, rows, start)
  {
    hide PageAt, DecodeCursor, EncodeCursor, Beyond, Paginate, UniqueIds, Continues, RoundTrips;
    var page, n := PageAt(codec, sort, rows, Limit(requested), start), |pages|;
    ResumedPage(codec, sort, requested, rows, pages, start);
    ContinuesStays(codec, sort, requested, rows, pages, page);
    PageNext(codec, sort, rows, requested, if n == 0 then None else pages[n - 1].next, page);
    var last := page.items[|page.items| - 1];
    CursorRoundTrip(codec, sort, last);
    CursorFits(sort, last);
    BeyondShrinks(codec, sort, rows, Limit(requested), start, last);
    next := Some(PositionOf(sort, last));
  }

  /** Following `next` on fixed data always ends: every sort, limit and data set has a completed walk. */
  lemma WalkEnds(codec: Codec, sort: Sort, requested: int, rows: set<Row>)
    returns (views: seq<set<Row>>, pages: seq<Page>)
    requires RoundTrips(codec) && UniqueIds(rows)
    ensures IsWalk(codec, sort, requested, views, pages) && forall k :: 0 <= k < |views| ==> views[k] == rows
  {
    hide PageAt, Paginate, Beyond, UniqueIds, Continues, RoundTrips, DecodeCursor, IsWalk;
    pages := [];
    var start: Option<Position> := None;
    while PageAt(codec, sort, rows, Limit(requested), start).next.Some?
      invariant Fetched(codec, sort, requested, rows, pages, start)
      decreases Beyond(sort, rows, start)
    {
      var next := FetchMore(codec, sort, requested, rows, pages, start);
      pages, start := pages + [PageAt(codec, sort, rows, Limit(requested), start)], next;
    }
    views, pages := LastFetch(codec, sort, requested, rows, pages, start);
  }

  lemma LastFetch(codec: Codec, sort: Sort, requested: int, rows: set<Row>, before: seq<Page>, start: Option<Position>)
    returns (views: seq<set<Row>>, pages: seq<Page>)
    requires UniqueIds(rows) && Fetched(codec, sort, requested, rows, before, start)
    requires PageAt(codec, sort, rows, Limit(requested), start).next.None?
    ensures IsWalk(codec, sort, requested, views, pages) && forall k :: 0 <= k < |views| ==> views[k] == rows
  {
    hide PageAt, DecodeCursor, Paginate, UniqueIds, Resumes;
    var page, n := PageAt(codec, sort, rows, Limit(requested), start), |before|;
    ResumedPage(codec, sort, requested, rows, before, start);
    pages := before + [page];
    views := seq(|pages|, _ => rows);
    forall k | 0 <= k < |pages| ensures Answers(codec, sort, requested, views[k], pages, k) {
      if k < n { assert Continues(codec, sort, requested, rows, before, k); }
    }
  }

  /** And it ends soon: every page but the last is full. */
  lemma {:induction false} PagesAreFull(codec: Codec, sort: Sort, requested: int, views: seq<set<Row>>,
                                        pages: seq<Page>, k: nat)
    requires RoundTrips(codec) && IsWalk(codec, sort, requested, views, pages) && k < |pages|
    ensures |Shown(pages, k)| == k * Limit(requested)
  {
    hide IsWalk, PageAt, Limit, RoundTrips, StartOf;
    if k > 0 {
      PagesAreFull(codec, sort, requested, views, pages, k - 1);
      WalkPage(codec, sort, requested, views, pages, k);
      assert (k - 1) * Limit(requested) + Limit(requested) == k * Limit(requested);
    }
  }

  // ---- Which order, which page size, which cursors -------------------------

  /** What each sort promises of a row listed before another, in the rows' own columns. */
  predicate ListedBefore(sort: Sort, r: Row, s: Row) {
    match sort
    case RiskDescending => r.riskScore > s.riskScore || (r.riskScore == s.riskScore && r.id > s.id)
    case CreatedDescending => r.createdAt > s.createdAt || (r.createdAt == s.createdAt && r.id > s.id)
    case OldestAlert =>
      if r.oldestAlert.None? then s.oldestAlert.None? && r.id < s.id
      else if s.oldestAlert.None? then true
      else r.oldestAlert.value < s.oldestAlert.value || (r.oldestAlert.value == s.oldestAlert.value && r.id < s.id)
  }

  /** A walk lists greater risk first, or later creation first, or the oldest alert first and missing alerts last; ties
      go by id, descending in the first two sorts and ascending in the third. */
  lemma WalkOrderIs(codec: Codec, sort: Sort, requested: int, views: seq<set<Row>>, pages: seq<Page>, i: nat, j: nat)
    requires RoundTrips(codec) && IsWalk(codec, sort, requested, views, pages)
    requires i < j < |Shown(pages, |pages|)|
    ensures ListedBefore(sort, Shown(pages, |pages|)[i], Shown(pages, |pages|)[j])
  {
    ShownInOrder(codec, sort, requested, views, pages, |pages|);
    hide IsWalk, Shown, RoundTrips;
    assert Precedes(sort, Shown(pages, |pages|)[i], Shown(pages, |pages|)[j]);
  }

  /** A page holds what was asked for, within one and two hundred rows. */
  lemma LimitIs(requested: int)
    ensures 1 <= Limit(requested) <= 200
    ensures 1 <= requested <= 200 ==> Limit(requested) == requested
    ensures requested > 200 ==> Limit(requested) == 200
    ensures requested < 1 ==> Limit(requested) == 1
  {
  }

  /** The cursors a sort accepts: readable, with both members, an id, and a value of the sort's own type. */
  lemma CursorAccepted(codec: Codec, sort: Sort, text: string)
    ensures DecodeCursor(codec, sort, text).Some? <==>
      && codec.unpack(text).Some?
      && var p := codec.unpack(text).value;
         && p.id.Some? && codec.parseId(p.id.value).Some? && p.v.Some?
         && (sort == RiskDescending ==> p.v.value.JInt?)
         && (sort == CreatedDescending ==> p.v.value.JString? && codec.parseIso(p.v.value.s).Some?)
         && (sort == OldestAlert ==>
              p.v.value.JNull? || (p.v.value.JString? && codec.parseIso(p.v.value.s).Some?))
    ensures DecodeCursor(codec, sort, text).Some? ==>
      var p, at := codec.unpack(text).value, DecodeCursor(codec, sort, text).value;
      && Some(at.id) == codec.parseId(p.id.value)
      && (p.v.value.JInt? ==> at.value == Number(p.v.value.n))
      && (p.v.value.JNull? ==> at.value == Null)
      && (p.v.value.JString? ==> at.value == Moment(codec.parseIso(p.v.value.s).value))
  {
  }
}
