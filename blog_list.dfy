/**
 * The public blog listing page (assets/js/blog.js): the cards received from the API,
 * filtered by category and search text, shown six per page under a pagination bar
 * of at most three numbered pages with first/last links, ellipses and prev/next.
 * The DOM is abstracted: the cards are values, the rendered pagination is a
 * sequence of items and the visible cards are a sequence.
 */
module BlogList {
  import opened Wrappers
  import opened Text
  import BlogTable

  const PostsPerPage: nat := 6
  const MaxVisiblePages: int := 3

  /** A blog as the API sends it (only the fields the listing reads). */
  datatype ApiBlog = ApiBlog(categoria: Option<string>, titulo: string, resumen: string)

  /** A rendered card: its data-category attribute and the text of its title and excerpt. */
  datatype Card = Card(category: string, title: string, excerpt: string)

  /** JavaScript truthiness of an optional string: null and "" are false. */
  predicate Truthy(s: Option<string>) { s.Some? && s.value != "" }

  /** createBlogCard: a blog without a category is filed under "General". */
  function CardOf(b: ApiBlog): Card {
    Card(if Truthy(b.categoria) then b.categoria.value else "General", b.titulo, b.resumen)
  }

  function CardsOf(blogs: seq<ApiBlog>): (cs: seq<Card>)
    ensures |cs| == |blogs|
    ensures forall i :: 0 <= i < |blogs| ==> cs[i] == CardOf(blogs[i])
  {
    if |blogs| == 0 then [] else [CardOf(blogs[0])] + CardsOf(blogs[1..])
  }

  // ---------------------------------------------------------------- categories

  /** The truthy categories, in order. */
  function TruthyCategories(blogs: seq<ApiBlog>): (cs: seq<string>)
    ensures forall c :: c in cs <==> exists i :: 0 <= i < |blogs| && Truthy(blogs[i].categoria) && blogs[i].categoria.value == c
    ensures forall c :: c in cs ==> c != ""
  {
    if |blogs| == 0 then []
    else
      var rest := TruthyCategories(blogs[1..]);
      assert forall i :: 1 <= i < |blogs| ==> blogs[i] == blogs[1..][i - 1];
      (if Truthy(blogs[0].categoria) then [blogs[0].categoria.value] else []) + rest
  }

  /** The first index of `x` in `s` (|s| when absent). */
  function IndexOf<T(==)>(s: seq<T>, x: T): (i: nat)
    ensures i <= |s| && (i < |s| <==> x in s)
    ensures i < |s| ==> s[i] == x && x !in s[..i]
  {
    if |s| == 0 then 0 else if s[0] == x then 0 else 1 + IndexOf(s[1..], x)
  }

  lemma {:induction false} IndexOfAppend<T>(s: seq<T>, y: T, x: T)
    requires x in s
    ensures IndexOf(s + [y], x) == IndexOf(s, x)
    decreases |s|
  {
    if s[0] != x {
      assert (s + [y])[1..] == s[1..] + [y];
      IndexOfAppend(s[1..], y, x);
    }
  }

  lemma EveryElementIn<T>(d: seq<T>, p: seq<T>)
    requires forall y :: y in d <==> y in p
    ensures forall k :: 0 <= k < |d| ==> d[k] in p
  {
    forall k | 0 <= k < |d| ensures d[k] in p { assert d[k] in d; }
  }

  /** [...new Set(s)]: the distinct elements in the order of their first occurrence. */
  function Dedupe<T(==)>(s: seq<T>): (r: seq<T>)
    decreases |s|
  {
    if |s| == 0 then []
    else if s[|s| - 1] in s[..|s| - 1] then Dedupe(s[..|s| - 1])
    else Dedupe(s[..|s| - 1]) + [s[|s| - 1]]
  }

  /** A Set keeps each element once, loses none, and lists them by first occurrence. */
  lemma {:induction false} DedupeFacts<T>(s: seq<T>)
    ensures Distinct(Dedupe(s))
    ensures forall x :: x in Dedupe(s) <==> x in s
    ensures forall i, j :: 0 <= i < j < |Dedupe(s)| ==> IndexOf(s, Dedupe(s)[i]) < IndexOf(s, Dedupe(s)[j])
    decreases |s|
  {
    if |s| > 0 {
      var p, x := s[..|s| - 1], s[|s| - 1];
      assert s == p + [x];
      DedupeFacts(p);
      var d := Dedupe(p);
      EveryElementIn(d, p);
      forall y | y in p ensures IndexOf(s, y) == IndexOf(p, y) { IndexOfAppend(p, x, y); }
      if x !in p {
        AppendFresh(d, x);
        assert IndexOf(s, x) == |p| by {
          var i := IndexOf(s, x);
          assert s[|p|] == x;
          assert forall k :: 0 <= k < |p| ==> s[k] == p[k];
          assert forall k :: 0 <= k < i ==> s[..i][k] == s[k];
        }
        forall i, j | 0 <= i < j < |d + [x]| ensures IndexOf(s, (d + [x])[i]) < IndexOf(s, (d + [x])[j]) {
          assert (d + [x])[i] == d[i];
          if j < |d| {
            assert (d + [x])[j] == d[j];
          }
        }
      }
    }
  }

  /** updateFiltersFromData: the category menu entries. */
  function Categories(blogs: seq<ApiBlog>): seq<string> {
    Dedupe(TruthyCategories(blogs))
  }

  predicate HasCategory(b: ApiBlog, c: string) { Truthy(b.categoria) && b.categoria.value == c }

  /** The position of the first post filed under `c` (|blogs| when there is none). */
  function FirstPostWith(blogs: seq<ApiBlog>, c: string): (i: nat)
    ensures i <= |blogs| && (i < |blogs| ==> HasCategory(blogs[i], c))
    ensures forall k :: 0 <= k < i ==> !HasCategory(blogs[k], c)
    decreases |blogs|
  {
    if |blogs| == 0 then 0
    else if HasCategory(blogs[0], c) then 0
    else
      var i := FirstPostWith(blogs[1..], c);
      assert forall k :: 1 <= k < 1 + i ==> blogs[k] == blogs[1..][k - 1];
      1 + i
  }

  /** Categories listed earlier among the truthy ones first appear in earlier posts. */
  lemma {:induction false} TruthyOrder(blogs: seq<ApiBlog>, c: string, d: string)
    requires c in TruthyCategories(blogs) && d in TruthyCategories(blogs)
    requires IndexOf(TruthyCategories(blogs), c) < IndexOf(TruthyCategories(blogs), d)
    ensures FirstPostWith(blogs, c) < FirstPostWith(blogs, d)
    decreases |blogs|
  {
    assert |blogs| > 0;
    var rest := blogs[1..];
    var cs, tail := TruthyCategories(blogs), TruthyCategories(rest);
    if Truthy(blogs[0].categoria) {
      var x := blogs[0].categoria.value;
      assert cs == [x] + tail;
      assert cs[0] == x && cs[1..] == tail;
      if c == x {
        assert FirstPostWith(blogs, c) == 0;
        assert IndexOf(cs, d) > 0;
        assert d != x;
      } else {
        assert IndexOf(cs, c) == 1 + IndexOf(tail, c);
        assert d != x;
        assert IndexOf(cs, d) == 1 + IndexOf(tail, d);
        assert c in tail && d in tail;
        FirstPostStep(blogs, c);
        FirstPostStep(blogs, d);
        TruthyOrder(rest, c, d);
      }
    } else {
      assert cs == tail;
      FirstPostStep(blogs, c);
      FirstPostStep(blogs, d);
      TruthyOrder(rest, c, d);
    }
  }

  lemma FirstPostStep(blogs: seq<ApiBlog>, c: string)
    requires |blogs| > 0 && !HasCategory(blogs[0], c)
    ensures FirstPostWith(blogs, c) == 1 + FirstPostWith(blogs[1..], c)
  {
  }

  /** The menu lists each non-empty category once, every one of them, in the order of the posts that first use them. */
  lemma CategoriesFacts(blogs: seq<ApiBlog>)
    ensures Distinct(Categories(blogs))
    ensures forall c :: c in Categories(blogs) <==> exists i :: 0 <= i < |blogs| && Truthy(blogs[i].categoria) && blogs[i].categoria.value == c
    ensures forall i, j :: 0 <= i < j < |Categories(blogs)| ==>
              FirstPostWith(blogs, Categories(blogs)[i]) < FirstPostWith(blogs, Categories(blogs)[j])
  {
    var cs := TruthyCategories(blogs);
    var d := Categories(blogs);
    DedupeFacts(cs);
    forall i, j | 0 <= i < j < |d| ensures FirstPostWith(blogs, d[i]) < FirstPostWith(blogs, d[j]) {
      assert d[i] in d && d[j] in d;
      TruthyOrder(blogs, d[i], d[j]);
    }
  }

  // ---------------------------------------------------------------- filtering

  /** The filter of applyFilters, for a search term already lower-cased and trimmed. */
  predicate Matches(c: Card, category: string, term: string) {
    (category == "all" || c.category == category)
    && (term == "" || Contains(Lower(c.title), term) || Contains(Lower(c.excerpt), term) || Contains(Lower(c.category), term))
  }

  function FilterCards(cards: seq<Card>, category: string, term: string): (r: seq<Card>)
    ensures forall c :: c in r <==> c in cards && Matches(c, category, term)
    ensures IsSubsequence(r, cards)
    decreases |cards|
  {
    if |cards| == 0 then []
    else
      var rest := FilterCards(cards[1..], category, term);
      assert forall c :: c in cards <==> c == cards[0] || c in cards[1..];
      if Matches(cards[0], category, term) then [cards[0]] + rest
      else
        assert |rest| > 0 ==> rest[0] != cards[0] by { if |rest| > 0 { assert rest[0] in rest; } }
        rest
  }

  /** The search text as applyFilters uses it: lower-cased, then trimmed. */
  function SearchTerm(value: string): string { Trim(Lower(value)) }

  lemma LowerKeepsEnds(b: string)
    requires |b| > 0 && !IsJsSpace(b[0]) && !IsJsSpace(b[|b| - 1])
    ensures SearchTerm(b) == Lower(b)
  {
    var l := Lower(b);
    LowerCharSpace(b[0]);
    LowerCharSpace(b[|b| - 1]);
    assert l[0] == LowerChar(b[0]) && l[|l| - 1] == LowerChar(b[|b| - 1]);
    assert TrimStart(l) == l;
    assert TrimEnd(l) == l;
  }

  /** Typing any piece of a card's title, in any letter case, finds that card under "all". */
  lemma {:induction false} TitlePieceFound(c: Card, a: string, b: string, z: string)
    requires c.title == a + b + z
    requires |b| > 0 && !IsJsSpace(b[0]) && !IsJsSpace(b[|b| - 1])
    ensures Matches(c, "all", SearchTerm(b))
  {
    LowerKeepsEnds(b);
    LowerConcat(a + b, z);
    LowerConcat(a, b);
    ContainsInfix(Lower(a), Lower(b), Lower(z));
  }

  /** With the "all" category and an empty search, every card passes. */
  lemma {:induction false} NoFilterKeepsAll(cards: seq<Card>)
    ensures FilterCards(cards, "all", "") == cards
    decreases |cards|
  {
    if |cards| > 0 { NoFilterKeepsAll(cards[1..]); }
  }

  // ---------------------------------------------------------------- pagination

  function Max(a: int, b: int): int { if a >= b then a else b }
  function Min(a: int, b: int): int { if a <= b then a else b }

  /** Math.ceil(count / postsPerPage). */
  function TotalPages(count: nat): nat { BlogTable.PageCount(count, PostsPerPage) }

  function EndPage(current: int, total: nat): int {
    Min(Max(1, current - 1) + MaxVisiblePages - 1, total)
  }

  /** The first numbered page: one before the current, moved back when the window would be short. */
  function StartPage(current: int, total: nat): int {
    var s := Max(1, current - 1);
    var e := EndPage(current, total);
    if e - s + 1 < MaxVisiblePages then Max(1, e - MaxVisiblePages + 1) else s
  }

  /** The numbered window holds at most three pages of 1 .. total, three when there are that many,
      and the current page when it exists. */
  lemma WindowFacts(current: int, total: nat)
    ensures var s, e := StartPage(current, total), EndPage(current, total);
            1 <= s && e <= total && s <= e + 1 && e - s + 1 <= MaxVisiblePages
            && (total >= MaxVisiblePages ==> e - s + 1 == MaxVisiblePages)
            && (1 <= current <= total ==> s <= current <= e)
  {
  }

  /** One rendered element of the pagination bar. */
  datatype Item = PrevLink | NextLink | PageLink(n: int) | CurrentPage(n: int) | Dots

  function PageItem(i: int, current: int): Item {
    if i == current then CurrentPage(i) else PageLink(i)
  }

  /** The numbered pages lo .. hi, the current one as a marker and the rest as links. */
  function PageItems(lo: int, hi: int, current: int): (r: seq<Item>)
    ensures |r| == Max(0, hi - lo + 1)
    ensures forall k :: 0 <= k < |r| ==> r[k] == PageItem(lo + k, current)
    decreases hi - lo + 1
  {
    if hi < lo then [] else PageItems(lo, hi - 1, current) + [PageItem(hi, current)]
  }

  /** The part of the bar before the numbered window: Prev, then page 1 and dots when skipped. */
  function Head(current: int, s: int): seq<Item> {
    (if current > 1 then [PrevLink] else [])
    + (if s > 1 then [PageLink(1)] + (if s > 2 then [Dots] else []) else [])
  }

  /** The part after it: dots and the last page when skipped, then Next. */
  function Tail(current: int, e: int, total: nat): seq<Item> {
    (if e < total then (if e < total - 1 then [Dots] else []) + [PageLink(total)] else [])
    + (if current < total then [NextLink] else [])
  }

  /** The bar updatePagination renders. */
  function Pagination(current: int, total: nat): seq<Item> {
    var s, e := StartPage(current, total), EndPage(current, total);
    Head(current, s) + PageItems(s, e, current) + Tail(current, e, total)
  }

  /** Prev is shown exactly when there is an earlier page, Next exactly when there is a later one. */
  lemma PrevNextIff(current: int, total: nat)
    ensures PrevLink in Pagination(current, total) <==> current > 1
    ensures NextLink in Pagination(current, total) <==> current < total
  {
    var s, e := StartPage(current, total), EndPage(current, total);
    var pages := PageItems(s, e, current);
    assert PrevLink !in pages && NextLink !in pages;
  }

  /** Every page number in the bar, link or marker, is a page that exists. */
  lemma PagesExist(current: int, total: nat)
    ensures forall it :: it in Pagination(current, total) && (it.PageLink? || it.CurrentPage?) ==> 1 <= it.n <= total
  {
    var s, e := StartPage(current, total), EndPage(current, total);
    WindowFacts(current, total);
    var h, p, t := Head(current, s), PageItems(s, e, current), Tail(current, e, total);
    assert Pagination(current, total) == h + p + t;
    forall it: Item | it in h + p + t && (it.PageLink? || it.CurrentPage?) ensures 1 <= it.n <= total {
      if it in p {
        var k :| 0 <= k < |p| && p[k] == it;
        assert it.n == s + k;
      } else if it in h {
        assert it == PageLink(1);
      } else {
        assert it in t;
      }
    }
  }

  /** The current page is marked exactly when it exists, and nothing else is marked. */
  lemma CurrentMarkedIff(current: int, total: nat, n: int)
    ensures CurrentPage(n) in Pagination(current, total) <==> n == current && 1 <= current <= total
  {
    var s, e := StartPage(current, total), EndPage(current, total);
    WindowFacts(current, total);
    var pages := PageItems(s, e, current);
    if 1 <= current <= total {
      assert pages[current - s] == CurrentPage(current);
    }
  }

  /** The first and the last page can always be reached by a link, unless they are the current page. */
  lemma EndsLinked(current: int, total: nat)
    ensures PageLink(1) in Pagination(current, total) <==> total >= 1 && current != 1
    ensures PageLink(total) in Pagination(current, total) <==> total >= 1 && current != total
  {
    var s, e := StartPage(current, total), EndPage(current, total);
    WindowFacts(current, total);
    var pages := PageItems(s, e, current);
    PagesExist(current, total);
    if total >= 1 && current != 1 && s <= 1 { assert pages[0] == PageLink(1); }
    if total >= 1 && current != total && e == total { assert pages[total - s] == PageLink(total); }
    if current == 1 { assert PageLink(1) !in pages; }
    if current == total { assert PageLink(total) !in pages; }
  }

  /** Ellipses appear exactly when pages are skipped between the first link and the window
      or between the window and the last link. */
  lemma DotsIff(current: int, total: nat)
    ensures Dots in Pagination(current, total)
            <==> StartPage(current, total) > 2 || EndPage(current, total) < total - 1
  {
    var s, e := StartPage(current, total), EndPage(current, total);
    assert Dots !in PageItems(s, e, current);
  }

  // ---------------------------------------------------------------- page slicing

  /** The position a JavaScript slice bound stands for: negative bounds count from the end. */
  function SliceBound(len: nat, i: int): (k: nat)
    ensures k <= len
  {
    if i < 0 then Max(len + i, 0) else Min(i, len)
  }

  /** Array.prototype.slice(start, end). */
  function JsSlice<T>(s: seq<T>, start: int, end: int): (r: seq<T>) {
    var a, b := SliceBound(|s|, start), SliceBound(|s|, end);
    if a < b then s[a..b] else []
  }

  /** showCurrentPage: the cards of the current page. */
  function PageSlice<T>(filtered: seq<T>, current: int): seq<T> {
    JsSlice(filtered, (current - 1) * PostsPerPage, (current - 1) * PostsPerPage + PostsPerPage)
  }

  /** Never more than six cards are shown, and they are consecutive filtered cards. */
  lemma PageSliceFacts<T>(filtered: seq<T>, current: int)
    ensures |PageSlice(filtered, current)| <= PostsPerPage
    ensures forall x :: x in PageSlice(filtered, current) ==> x in filtered
  {
    var st := (current - 1) * PostsPerPage;
    var a, b := SliceBound(|filtered|, st), SliceBound(|filtered|, st + PostsPerPage);
    assert b - a <= PostsPerPage;
  }

  /** For a page that exists the slice is that page's window, non-empty exactly for pages 1 .. TotalPages. */
  lemma {:induction false} PageSliceIsPage<T>(filtered: seq<T>, current: int)
    requires current >= 1
    ensures PageSlice(filtered, current) == BlogTable.Window(filtered, PostsPerPage, BlogTable.Offset(current, PostsPerPage) as nat)
    ensures |PageSlice(filtered, current)| > 0 <==> current <= TotalPages(|filtered|)
  {
    BlogTable.MulMonotone(0, current - 1, PostsPerPage);
    BlogTable.PageNonEmptyIff(filtered, current, PostsPerPage);
  }

  // ---------------------------------------------------------------- click handling

  /** The page after a click on a pagination element (elements that are not links do nothing). */
  function PageAfterClick(current: int, total: nat, target: Item): int {
    match target
    case NextLink => if current < total then current + 1 else current
    case PrevLink => if current > 1 then current - 1 else current
    case PageLink(n) => n
    case _ => current
  }

  /** Clicking anything the bar shows keeps a valid page valid. */
  lemma ClickStaysInRange(current: int, total: nat, target: Item)
    requires 1 <= current <= total
    requires target in Pagination(current, total)
    ensures 1 <= PageAfterClick(current, total, target) <= total
  {
    PagesExist(current, total);
  }

  /** The Prev button, then page 1 and its dots when the window starts later. */
  method RenderHead(current: int, startPage: int) returns (html: seq<Item>)
    ensures html == Head(current, startPage)
  {
    html := [];
    if current > 1 {
      html := html + [PrevLink];
    }
    if startPage > 1 {
      html := html + [PageLink(1)] + (if startPage > 2 then [Dots] else []);
    }
  }

  /** The loop over the visible page numbers. */
  method RenderPages(startPage: int, endPage: int, current: int) returns (html: seq<Item>)
    ensures html == PageItems(startPage, endPage, current)
  {
    html := [];
    var i := startPage;
    while i <= endPage
      invariant i <= Max(startPage, endPage + 1)
      invariant html == PageItems(startPage, i - 1, current)
    {
      html := html + [PageItem(i, current)];
      i := i + 1;
    }
  }

  /** The last page and its dots when the window ends earlier, then the Next button. */
  method RenderTail(current: int, endPage: int, totalPages: nat) returns (html: seq<Item>)
    ensures html == Tail(current, endPage, totalPages)
  {
    html := [];
    if endPage < totalPages {
      html := html + (if endPage < totalPages - 1 then [Dots] else []) + [PageLink(totalPages)];
    }
    if current < totalPages {
      html := html + [NextLink];
    }
  }

  /** The view's closure state and what it has rendered. */
  class BlogView {
    var cards: seq<Card>
    var filtered: seq<Card>
    var currentPage: int
    var category: string
    var searchValue: string
    var pagination: seq<Item>
    var shown: seq<Card>
    var noResults: bool

    /** The rendered bar and cards are those of the current state. */
    ghost predicate Valid()
      reads this
    {
      IsSubsequence(filtered, cards)
      && pagination == Pagination(currentPage, TotalPages(|filtered|))
      && shown == PageSlice(filtered, currentPage)
      && noResults == (|filtered| == 0)
    }

    constructor ()
      ensures Valid()
      ensures cards == [] && filtered == [] && currentPage == 1 && category == "all" && searchValue == ""
    {
      cards, filtered, currentPage, category, searchValue := [], [], 1, "all", "";
      pagination, shown, noResults := Pagination(1, 0), [], true;
    }

    /** updatePagination: only the bar is rebuilt. */
    method UpdatePagination()
      modifies this
      ensures pagination == Pagination(currentPage, TotalPages(|filtered|))
      ensures cards == old(cards) && filtered == old(filtered) && currentPage == old(currentPage)
      ensures category == old(category) && searchValue == old(searchValue)
      ensures shown == old(shown) && noResults == old(noResults)
    {
      var totalPages := TotalPages(|filtered|);
      var startPage := Max(1, currentPage - 1);
      var endPage := Min(startPage + MaxVisiblePages - 1, totalPages);
      if endPage - startPage + 1 < MaxVisiblePages {
        startPage := Max(1, endPage - MaxVisiblePages + 1);
      }
      assert startPage == StartPage(currentPage, totalPages) && endPage == EndPage(currentPage, totalPages);
      var html := RenderHead(currentPage, startPage);
      var pages := RenderPages(startPage, endPage, currentPage);
      var tail := RenderTail(currentPage, endPage, totalPages);
      html := html + pages + tail;
      pagination := html;
    }

    /** showCurrentPage: only the visible cards and the no-results message change. */
    method ShowCurrentPage()
      modifies this
      ensures shown == PageSlice(filtered, currentPage) && noResults == (|filtered| == 0)
      ensures cards == old(cards) && filtered == old(filtered) && currentPage == old(currentPage)
      ensures category == old(category) && searchValue == old(searchValue) && pagination == old(pagination)
    {
      var startIndex := (currentPage - 1) * PostsPerPage;
      var endIndex := startIndex + PostsPerPage;
      shown := JsSlice(filtered, startIndex, endIndex);
      noResults := |filtered| == 0;
    }

    /** renderBlogs: new cards replace the old ones, all of them listed from page 1; an empty
        answer only replaces the grid's text and leaves the cards as they were. */
    method RenderBlogs(blogs: seq<ApiBlog>)
      requires Valid()
      modifies this
      ensures Valid()
      ensures |blogs| == 0 ==> cards == old(cards) && filtered == old(filtered) && currentPage == old(currentPage)
      ensures |blogs| > 0 ==> cards == CardsOf(blogs) && filtered == cards && currentPage == 1
      ensures category == old(category) && searchValue == old(searchValue)
    {
      if |blogs| == 0 {
        return;
      }
      cards := CardsOf(blogs);
      filtered := cards;
      SubsequenceRefl(cards);
      currentPage := 1;
      UpdatePagination();
      ShowCurrentPage();
    }

    /** applyFilters: the cards passing the category and the search text, from page 1. */
    method ApplyFilters()
      requires Valid()
      modifies this
      ensures Valid()
      ensures filtered == FilterCards(cards, category, SearchTerm(searchValue)) && currentPage == 1
      ensures cards == old(cards) && category == old(category) && searchValue == old(searchValue)
    {
      var searchTerm := SearchTerm(searchValue);
      filtered := FilterCards(cards, category, searchTerm);
      currentPage := 1;
      UpdatePagination();
      ShowCurrentPage();
    }

    /** The search box's input event. */
    method Search(value: string)
      requires Valid()
      modifies this
      ensures Valid()
      ensures searchValue == value && filtered == FilterCards(cards, category, SearchTerm(value)) && currentPage == 1
      ensures cards == old(cards) && category == old(category)
    {
      searchValue := value;
      ApplyFilters();
    }

    /** filterByCategory. */
    method FilterByCategory(c: string)
      requires Valid()
      modifies this
      ensures Valid()
      ensures category == c && filtered == FilterCards(cards, c, SearchTerm(searchValue)) && currentPage == 1
      ensures cards == old(cards) && searchValue == old(searchValue)
    {
      category := c;
      ApplyFilters();
    }

    /** clearAllFilters: back to every card. */
    method ClearAllFilters()
      requires Valid()
      modifies this
      ensures Valid()
      ensures category == "all" && searchValue == "" && filtered == cards && currentPage == 1
      ensures cards == old(cards)
    {
      category := "all";
      searchValue := "";
      ApplyFilters();
      assert SearchTerm("") == "";
      NoFilterKeepsAll(cards);
    }

    /** A click on the remove button of an active-filter chip of type `chipType`: a category chip
        resets the category to "all"; every chip then filters again. */
    method RemoveFilterChip(chipType: string)
      requires Valid()
      modifies this
      ensures Valid()
      ensures category == (if chipType == "category" then "all" else old(category))
      ensures filtered == FilterCards(cards, category, SearchTerm(searchValue)) && currentPage == 1
      ensures cards == old(cards) && searchValue == old(searchValue)
      ensures chipType == "category" && searchValue == "" ==> filtered == cards
    {
      if chipType == "category" {
        category := "all";
      }
      ApplyFilters();
      if chipType == "category" && searchValue == "" {
        assert SearchTerm("") == "";
        NoFilterKeepsAll(cards);
      }
    }

    /** The pagination bar's click handler (one registration of it). */
    method Click(target: Item)
      requires Valid()
      modifies this
      ensures Valid()
      ensures currentPage == PageAfterClick(old(currentPage), TotalPages(|filtered|), target)
      ensures cards == old(cards) && filtered == old(filtered)
      ensures category == old(category) && searchValue == old(searchValue)
    {
      match target {
        case NextLink =>
          if currentPage < TotalPages(|filtered|) {
            currentPage := currentPage + 1;
            ShowCurrentPage();
            UpdatePagination();
          }
        case PrevLink =>
          if currentPage > 1 {
            currentPage := currentPage - 1;
            ShowCurrentPage();
            UpdatePagination();
          }
        case PageLink(n) =>
          currentPage := n;
          ShowCurrentPage();
          UpdatePagination();
        case _ =>
      }
    }
  }
}
