/**
 * The `blog` table that both blog back-ends (admin_blog/app.py and
 * admin_blog/index.php) read and write through SQL. The table is a map from id
 * to row; each SQL statement the handlers issue is a method of `Table`, and
 * each query a function of its rows.
 *
 * UPDATE and DELETE report MySQL's affected-row count, which counts rows
 * actually changed, not rows matched (neither driver asks for found rows).
 */
module BlogTable {
  import opened Wrappers
  import opened Text

  /** One row; text columns are NULL-able. `fecha` holds the DATE column's 'YYYY-MM-DD' text. */
  datatype Blog = Blog(titulo: Option<string>, resumen: Option<string>, contenido: Option<string>,
                       categoria: Option<string>, imagen: Option<string>, fecha: Option<string>,
                       esPopular: bool)

  /** A row as a query returns it. */
  datatype Row = Row(id: int, blog: Blog)

  /** The prefix under which stored image paths point into the uploads directory. */
  const UploadsPrefix: string := "/static/uploads/"

  /** Upload file name of a stored image path: every occurrence of the prefix removed. */
  function StoredFileName(path: string): string {
    RemoveAll(path, UploadsPrefix)
  }

  /** A file name without '/' cannot hold the prefix, so prefixing and stripping round-trip. */
  lemma {:induction false} StoredFileNameRoundTrip(name: string)
    requires '/' !in name
    ensures StoredFileName(UploadsPrefix + name) == name
  {
    NoCharNoContains(name, UploadsPrefix, '/');
    RemoveAllAfterPrefix(UploadsPrefix, name);
  }

  /** A text lacking some character of `pat` does not contain `pat`. */
  lemma {:induction false} NoCharNoContains(s: string, pat: string, c: char)
    requires c in pat && c !in s
    ensures !Contains(s, pat)
    decreases |s|
  {
    if |s| > 0 {
      NoCharNoContains(s[1..], pat, c);
    }
  }

  // ---------------------------------------------------------------- popular blogs

  function PopularIds(rows: map<int, Blog>): set<int> {
    set id | id in rows && rows[id].esPopular
  }

  /** SELECT COUNT(*) FROM blog WHERE es_popular = TRUE */
  function PopularCount(rows: map<int, Blog>): nat {
    |PopularIds(rows)|
  }

  /** UPDATE blog SET es_popular = v WHERE id = id: a missing id changes nothing. */
  function WithPopular(rows: map<int, Blog>, id: int, v: bool): (r: map<int, Blog>)
    ensures r.Keys == rows.Keys
    ensures forall k :: k in rows && k != id ==> r[k] == rows[k]
    ensures id in rows ==> r[id] == rows[id].(esPopular := v)
  {
    if id in rows then rows[id := rows[id].(esPopular := v)] else rows
  }

  lemma {:induction false} SubsetCard<T>(a: set<T>, b: set<T>)
    requires a <= b
    ensures |a| <= |b|
    decreases |b|
  {
    if b != {} {
      var x :| x in b;
      SubsetCard(a - {x}, b - {x});
    }
  }

  /**
   * The guard of both toggles keeps the table within three popular blogs: a mark
   * made while fewer than three are popular, or any unmark, leaves at most three.
   */
  lemma {:induction false} PopularBoundKept(rows: map<int, Blog>, id: int, v: bool)
    requires PopularCount(rows) <= 3
    requires v ==> PopularCount(rows) < 3
    ensures PopularCount(WithPopular(rows, id, v)) <= 3
    ensures !v ==> PopularCount(WithPopular(rows, id, v)) <= PopularCount(rows)
  {
    var r := WithPopular(rows, id, v);
    if v {
      assert PopularIds(r) <= PopularIds(rows) + {id};
      SubsetCard(PopularIds(r), PopularIds(rows) + {id});
    } else {
      assert PopularIds(r) <= PopularIds(rows);
      SubsetCard(PopularIds(r), PopularIds(rows));
    }
  }

  // ---------------------------------------------------------------- ORDER BY fecha DESC

  /** Lexicographic order on text, the order of 'YYYY-MM-DD' dates. */
  predicate TextLeq(a: string, b: string)
    decreases |a|
  {
    |a| == 0 || (|b| > 0 && (a[0] < b[0] || (a[0] == b[0] && TextLeq(a[1..], b[1..]))))
  }

  lemma {:induction false} TextLeqTotal(a: string, b: string)
    ensures TextLeq(a, b) || TextLeq(b, a)
    decreases |a|
  {
    if |a| > 0 && |b| > 0 && a[0] == b[0] {
      TextLeqTotal(a[1..], b[1..]);
    }
  }

  lemma {:induction false} TextLeqTrans(a: string, b: string, c: string)
    requires TextLeq(a, b) && TextLeq(b, c)
    ensures TextLeq(a, c)
    decreases |a|
  {
    if |a| > 0 && a[0] == b[0] && b[0] == c[0] {
      TextLeqTrans(a[1..], b[1..], c[1..]);
    }
  }

  /** MySQL's order on a NULL-able DATE: NULL first, then by date. */
  predicate FechaLeq(x: Option<string>, y: Option<string>) {
    match x
    case None => true
    case Some(a) => y.Some? && TextLeq(a, y.value)
  }

  lemma FechaLeqTotal(x: Option<string>, y: Option<string>)
    ensures FechaLeq(x, y) || FechaLeq(y, x)
  {
    if x.Some? && y.Some? { TextLeqTotal(x.value, y.value); }
  }

  lemma FechaLeqTrans(x: Option<string>, y: Option<string>, z: Option<string>)
    requires FechaLeq(x, y) && FechaLeq(y, z)
    ensures FechaLeq(x, z)
  {
    if x.Some? { TextLeqTrans(x.value, y.value, z.value); }
  }

  /** Newest first: no row is followed by a newer one. */
  predicate NewestFirst(s: seq<Row>) {
    forall i, j :: 0 <= i < j < |s| ==> FechaLeq(s[j].blog.fecha, s[i].blog.fecha)
  }

  /** One step of insertion: `r` goes before the first row not newer than it. */
  function InsertNewestFirst(r: Row, s: seq<Row>): (t: seq<Row>)
    ensures multiset(t) == multiset(s) + multiset{r}
  {
    if |s| == 0 then [r]
    else if FechaLeq(s[0].blog.fecha, r.blog.fecha) then [r] + s
    else
      assert s == [s[0]] + s[1..];
      [s[0]] + InsertNewestFirst(r, s[1..])
  }

  lemma {:induction false} InsertKeepsNewestFirst(r: Row, s: seq<Row>)
    requires NewestFirst(s)
    ensures NewestFirst(InsertNewestFirst(r, s))
    decreases |s|
  {
    if |s| == 0 {
    } else if FechaLeq(s[0].blog.fecha, r.blog.fecha) {
      var t := [r] + s;
      forall i, j | 0 <= i < j < |t| ensures FechaLeq(t[j].blog.fecha, t[i].blog.fecha) {
        if i == 0 {
          if j > 1 { FechaLeqTrans(s[j - 1].blog.fecha, s[0].blog.fecha, r.blog.fecha); }
        } else {
          assert t[i] == s[i - 1] && t[j] == s[j - 1];
        }
      }
    } else {
      var rest := InsertNewestFirst(r, s[1..]);
      InsertKeepsNewestFirst(r, s[1..]);
      FechaLeqTotal(s[0].blog.fecha, r.blog.fecha);
      forall j | 0 <= j < |rest| ensures FechaLeq(rest[j].blog.fecha, s[0].blog.fecha) {
        assert rest[j] in multiset(rest);
        if rest[j] != r {
          assert rest[j] in multiset(s[1..]);
          var k :| 0 <= k < |s[1..]| && s[1..][k] == rest[j];
          assert s[k + 1] == rest[j];
        }
      }
      var t := [s[0]] + rest;
      forall i, j | 0 <= i < j < |t| ensures FechaLeq(t[j].blog.fecha, t[i].blog.fecha) {
        assert t[j] == rest[j - 1];
        if i > 0 { assert t[i] == rest[i - 1]; }
      }
    }
  }

  /** The rows as ORDER BY fecha DESC returns them: newest first, the same rows. */
  function SortNewestFirst(s: seq<Row>): (t: seq<Row>)
    ensures multiset(t) == multiset(s)
  {
    if |s| == 0 then []
    else
      assert s == [s[0]] + s[1..];
      InsertNewestFirst(s[0], SortNewestFirst(s[1..]))
  }

  lemma {:induction false} SortIsNewestFirst(s: seq<Row>)
    ensures NewestFirst(SortNewestFirst(s))
    decreases |s|
  {
    if |s| > 0 {
      SortIsNewestFirst(s[1..]);
      InsertKeepsNewestFirst(s[0], SortNewestFirst(s[1..]));
    }
  }

  /** The rows with id below `n`, by ascending id: the table as a sequence. */
  function RowsBelow(rows: map<int, Blog>, n: int): (s: seq<Row>)
    ensures forall i :: 0 <= i < |s| ==> s[i].id in rows && s[i].id < n && rows[s[i].id] == s[i].blog
    ensures forall i, j :: 0 <= i < j < |s| ==> s[i].id < s[j].id
    ensures forall id :: id in rows && 0 <= id < n ==> Row(id, rows[id]) in s
    decreases n
  {
    if n <= 0 then []
    else RowsBelow(rows, n - 1) + (if n - 1 in rows then [Row(n - 1, rows[n - 1])] else [])
  }

  /** LIMIT limit OFFSET offset over a result that is already valid (both non-negative). */
  function Window<T>(s: seq<T>, limit: nat, offset: nat): (w: seq<T>)
    ensures |w| <= limit
    ensures offset <= |s| ==> w == s[offset..if offset + limit <= |s| then offset + limit else |s|]
    ensures offset >= |s| ==> w == []
  {
    if offset >= |s| then []
    else if offset + limit <= |s| then s[offset..offset + limit]
    else s[offset..]
  }

  /** Popular rows, newest first, at most three (SELECT ... WHERE es_popular = TRUE ORDER BY fecha DESC LIMIT 3). */
  function PopularOf(s: seq<Row>): (p: seq<Row>)
    ensures forall r :: r in p ==> r in s && r.blog.esPopular
    ensures forall r :: r in s && r.blog.esPopular ==> r in p
  {
    if |s| == 0 then []
    else (if s[0].blog.esPopular then [s[0]] else []) + PopularOf(s[1..])
  }

  lemma {:induction false} PopularOfKeepsOrder(s: seq<Row>)
    requires NewestFirst(s)
    ensures NewestFirst(PopularOf(s))
    decreases |s|
  {
    if |s| > 0 {
      var t := s[1..];
      assert NewestFirst(t) by {
        forall i, j | 0 <= i < j < |t| ensures FechaLeq(t[j].blog.fecha, t[i].blog.fecha) {
          assert t[i] == s[i + 1] && t[j] == s[j + 1];
        }
      }
      PopularOfKeepsOrder(t);
      var rest := PopularOf(t);
      if s[0].blog.esPopular {
        forall j | 0 <= j < |rest| ensures FechaLeq(rest[j].blog.fecha, s[0].blog.fecha) {
          assert rest[j] in rest;
          var k :| 0 <= k < |t| && t[k] == rest[j];
          assert s[k + 1] == rest[j];
        }
        NewestFirstCons(s[0], rest);
      } else {
        assert PopularOf(s) == rest;
      }
    }
  }

  /** A row no older than every row of a newest-first list can go in front of it. */
  lemma NewestFirstCons(x: Row, rest: seq<Row>)
    requires NewestFirst(rest)
    requires forall j :: 0 <= j < |rest| ==> FechaLeq(rest[j].blog.fecha, x.blog.fecha)
    ensures NewestFirst([x] + rest)
  {
    var s := [x] + rest;
    forall i, j | 0 <= i < j < |s| ensures FechaLeq(s[j].blog.fecha, s[i].blog.fecha) {
      assert s[j] == rest[j - 1];
      if i > 0 { assert s[i] == rest[i - 1]; }
    }
  }

  /** SELECT * FROM blog WHERE es_popular = TRUE ORDER BY fecha DESC LIMIT 3, over the table sorted newest first. */
  function PopularListing(sorted: seq<Row>): (p: seq<Row>)
    ensures |p| <= 3
    ensures forall r :: r in p ==> r in sorted && r.blog.esPopular
    ensures |PopularOf(sorted)| <= 3 ==> forall r :: r in sorted && r.blog.esPopular ==> r in p
  {
    Window(PopularOf(sorted), 3, 0)
  }

  lemma {:induction false} PopularListingNewestFirst(sorted: seq<Row>)
    requires NewestFirst(sorted)
    ensures NewestFirst(PopularListing(sorted))
  {
    PopularOfKeepsOrder(sorted);
  }

  // ---------------------------------------------------------------- page arithmetic

  /** The page count of the Python handler: (total + perPage - 1) // perPage. */
  function PageCount(total: nat, perPage: nat): (n: nat)
    requires perPage > 0
  {
    (total + perPage - 1) / perPage
  }

  /** The page count is the ceiling of total / perPage: the fewest pages that hold every row. */
  lemma {:induction false} PageCountIsCeiling(total: nat, perPage: nat)
    requires perPage > 0
    ensures PageCount(total, perPage) * perPage >= total
    ensures (PageCount(total, perPage) - 1) * perPage < total || total == 0
    ensures total == 0 ==> PageCount(total, perPage) == 0
  {
    var n := PageCount(total, perPage);
    var q, r := (total + perPage - 1) / perPage, (total + perPage - 1) % perPage;
    assert total + perPage - 1 == q * perPage + r && 0 <= r < perPage;
  }

  /** The offset of a page: (page - 1) * perPage. */
  function Offset(page: int, perPage: int): int {
    (page - 1) * perPage
  }

  lemma MulMonotone(a: int, b: int, k: nat)
    requires a <= b
    ensures a * k <= b * k
  {
    assert b * k - a * k == (b - a) * k;
  }

  /** A listing page is non-empty exactly for the pages 1 .. page count. */
  lemma {:induction false} PageNonEmptyIff<T>(s: seq<T>, page: int, perPage: nat)
    requires perPage > 0 && page >= 1
    ensures |Window(s, perPage, Offset(page, perPage) as nat)| > 0 <==> page <= PageCount(|s|, perPage)
  {
    PageCountIsCeiling(|s|, perPage);
    var n := PageCount(|s|, perPage);
    var off := Offset(page, perPage);
    MulMonotone(0, page - 1, perPage);
    if page <= n {
      MulMonotone(page - 1, n - 1, perPage);
      assert off < |s|;
    } else {
      MulMonotone(n, page - 1, perPage);
      assert off >= |s|;
    }
  }

  /** What a handler answers, as the JSON the client receives. */
  datatype Pagination = Pagination(currentPage: int, perPage: int, totalPages: int, totalCount: int)

  datatype Reply =
    | Listed(blogs: seq<Row>, pagination: Option<Pagination>)   // {ok: true, blogs[, pagination]}
    | Done(message: string)                                     // {ok: true, message}
    | Cleaned(deletedCount: nat, orphaned: seq<string>)         // {ok: true, deleted_count, orphaned_files}
    | Failed(status: int, error: string)                        // {ok: false, error}, with the HTTP status
    | DbFailure                                                 // {ok: false, error: <driver message>}
    | Uncaught                                                  // an uncaught error: HTTP 500

  /** The page count covers every row with no more than one partial page, the page holds at most
      perPage rows, and an existing page number is exactly one with rows. */
  predicate SoundPage(reply: Reply, count: nat)
    requires reply.Listed? && reply.pagination.Some?
  {
    var p := reply.pagination.value;
    p.perPage > 0 && p.totalCount == count
    && p.totalPages * p.perPage >= p.totalCount
    && ((p.totalPages - 1) * p.perPage < p.totalCount || p.totalCount == 0)
    && |reply.blogs| <= p.perPage
    && (p.currentPage >= 1 ==> (|reply.blogs| > 0 <==> p.currentPage <= p.totalPages))
  }

  /** The mutable table behind the handlers, with the next AUTO_INCREMENT id. */
  class Table {
    var rows: map<int, Blog>
    var nextId: int

    ghost predicate Valid()
      reads this
    {
      1 <= nextId && forall id :: id in rows ==> 1 <= id < nextId
    }

    constructor ()
      ensures Valid() && rows == map[] && nextId == 1
    {
      rows, nextId := map[], 1;
    }

    /** Every row, by ascending id. */
    function AllRows(): (s: seq<Row>)
      reads this
      requires Valid()
      ensures forall r :: r in s <==> r.id in rows && rows[r.id] == r.blog
    {
      RowsBelow(rows, nextId)
    }

    /** SELECT * FROM blog ORDER BY fecha DESC */
    function NewestFirstRows(): (s: seq<Row>)
      reads this
      requires Valid()
      ensures NewestFirst(s) && multiset(s) == multiset(AllRows())
    {
      SortIsNewestFirst(AllRows());
      SortNewestFirst(AllRows())
    }

    /** INSERT: the row gets the next id. */
    method Insert(b: Blog) returns (id: int)
      requires Valid()
      modifies this
      ensures Valid()
      ensures id == old(nextId) && id !in old(rows)
      ensures rows == old(rows)[id := b] && nextId == old(nextId) + 1
    {
      id := nextId;
      rows := rows[id := b];
      nextId := nextId + 1;
    }

    /** UPDATE ... WHERE id = ?: the row becomes `b`; returns the number of rows changed. */
    method Replace(id: int, b: Blog) returns (changed: nat)
      requires Valid()
      modifies this
      ensures Valid() && nextId == old(nextId)
      ensures rows == (if id in old(rows) then old(rows)[id := b] else old(rows))
      ensures changed == (if id in old(rows) && old(rows)[id] != b then 1 else 0)
    {
      if id in rows {
        changed := if rows[id] != b then 1 else 0;
        rows := rows[id := b];
      } else {
        changed := 0;
      }
    }

    /** DELETE FROM blog WHERE id = ? */
    method Delete(id: int) returns (changed: nat)
      requires Valid()
      modifies this
      ensures Valid() && nextId == old(nextId)
      ensures rows == old(rows) - {id}
      ensures changed == (if id in old(rows) then 1 else 0)
    {
      changed := if id in rows then 1 else 0;
      rows := rows - {id};
    }
  }
}
