/**
 * Searching the lots of the parcel map (assets/js/script-mapa.js): the text search of
 * buscarLotesPorTexto, the area/status filter and sort of filterAndRenderLotes and the
 * lot lookup of verDetalleLote, all over `todosLosLotes` and the current sector.
 */
module ParcelSearch {
  import opened Wrappers
  import opened Text
  import opened ParcelLots

  // ---------------------------------------------------------------- sectors

  /** Stage 1 shows blocks without a '2' in their name, stage 2 only those with one, any other view all. */
  predicate InSector(sector: string, l: Lot) {
    if sector == "etapa-1" then '2' !in l.manzana
    else if sector == "etapa-2" then '2' in l.manzana
    else true
  }

  /** Array.prototype.filter. */
  function Filter(lots: seq<Lot>, keep: Lot -> bool): (r: seq<Lot>)
    ensures forall l :: l in r <==> l in lots && keep(l)
    ensures IsSubsequence(r, lots)
    decreases |lots|
  {
    if |lots| == 0 then []
    else
      var rest := Filter(lots[1..], keep);
      assert forall l :: l in lots <==> l == lots[0] || l in lots[1..];
      if keep(lots[0]) then [lots[0]] + rest
      else
        assert |rest| > 0 ==> rest[0] != lots[0] by { if |rest| > 0 { assert rest[0] in rest; } }
        rest
  }

  // ---------------------------------------------------------------- the query

  /** \blote\b matches at i: the word "lote" with no word character on either side. */
  predicate LoteWordAt(s: string, i: nat) {
    i + 4 <= |s| && s[i..i + 4] == "lote"
    && (i == 0 || !IsWordChar(s[i - 1])) && (i + 4 == |s| || !IsWordChar(s[i + 4]))
  }

  /** replace(/\blote\b/g, ''): every match removed, scanning left to right. */
  function RemoveLoteWord(s: string, i: nat): (r: string)
    requires i <= |s|
    decreases |s| - i
  {
    if i == |s| then []
    else if LoteWordAt(s, i) then RemoveLoteWord(s, i + 4)
    else [s[i]] + RemoveLoteWord(s, i + 1)
  }

  /** The characters [a-z0-9\s-] the query keeps; every other one becomes a space. */
  predicate QueryChar(c: char) { IsLowerLetter(c) || IsDigit(c) || IsJsSpace(c) || c == '-' }

  function Blank(s: string): (r: string)
    ensures |r| == |s| && forall i :: 0 <= i < |s| ==> r[i] == if QueryChar(s[i]) then s[i] else ' '
  {
    if |s| == 0 then [] else [if QueryChar(s[0]) then s[0] else ' '] + Blank(s[1..])
  }

  /** The normalised query q. */
  function Query(texto: string): string {
    Trim(Blank(RemoveLoteWord(Lower(texto), 0)))
  }

  predicate IsSeparator(c: char) { IsJsSpace(c) || c == '-' }

  function SeparatorIndex(s: string): (i: nat)
    ensures i <= |s| && (i < |s| ==> IsSeparator(s[i])) && forall j :: 0 <= j < i ==> !IsSeparator(s[j])
  {
    if |s| == 0 || IsSeparator(s[0]) then 0 else 1 + SeparatorIndex(s[1..])
  }

  /** split(/[\s-]+/).filter(Boolean): the non-empty pieces between separators. */
  function Tokens(s: string): (ts: seq<string>)
    ensures forall t :: t in ts ==> |t| > 0 && forall k :: 0 <= k < |t| ==> !IsSeparator(t[k])
    decreases |s|
  {
    if |s| == 0 then []
    else if IsSeparator(s[0]) then Tokens(s[1..])
    else
      var n := SeparatorIndex(s);
      [s[..n]] + Tokens(s[n..])
  }

  predicate HasLowerLetter(t: string) { exists k :: 0 <= k < |t| && IsLowerLetter(t[k]) }

  function NumberParts(parts: seq<string>): (nums: seq<string>)
    ensures forall n :: n in nums <==> n in parts && |n| > 0 && AllDigits(n)
    decreases |parts|
  {
    if |parts| == 0 then []
    else
      assert forall n :: n in parts <==> n == parts[0] || n in parts[1..];
      (if |parts[0]| > 0 && AllDigits(parts[0]) then [parts[0]] else []) + NumberParts(parts[1..])
  }

  /** parts.find(p => /[a-z]/.test(p)) || '' */
  function BlockPart(parts: seq<string>): (m: string)
    ensures m != "" ==> exists i :: 0 <= i < |parts| && parts[i] == m && HasLowerLetter(m)
                                    && forall j :: 0 <= j < i ==> !HasLowerLetter(parts[j])
    ensures m == "" ==> forall p :: p in parts ==> !HasLowerLetter(p)
    decreases |parts|
  {
    if |parts| == 0 then ""
    else if HasLowerLetter(parts[0]) then
      assert parts[0] != "" by { var k :| 0 <= k < |parts[0]| && IsLowerLetter(parts[0][k]); }
      parts[0]
    else
      assert forall n :: n in parts <==> n == parts[0] || n in parts[1..];
      var m := BlockPart(parts[1..]);
      assert m != "" ==> exists i :: 0 <= i < |parts| && parts[i] == m && HasLowerLetter(m)
                                     && forall j :: 0 <= j < i ==> !HasLowerLetter(parts[j]) by {
        if m != "" {
          var i :| 0 <= i < |parts[1..]| && parts[1..][i] == m && HasLowerLetter(m)
                   && forall j :: 0 <= j < i ==> !HasLowerLetter(parts[1..][j]);
          assert parts[i + 1] == m;
          forall j | 0 <= j < i + 1 ensures !HasLowerLetter(parts[j]) {
            if j > 0 { assert parts[j] == parts[1..][j - 1]; }
          }
        }
      }
      m
  }

  function RemoveSpaces(s: string): (r: string)
    ensures forall c :: c in r ==> !IsJsSpace(c)
  {
    if |s| == 0 then [] else (if IsJsSpace(s[0]) then [] else [s[0]]) + RemoveSpaces(s[1..])
  }

  predicate SomeNumberIn(nums: seq<string>, a: string, b: string) {
    exists num :: num in nums && (Contains(a, num) || Contains(b, num))
  }

  /** The per-lot test of a non-empty search. */
  predicate QueryMatch(q: string, l: Lot) {
    var parts := Tokens(q);
    var nums, manPart := NumberParts(parts), BlockPart(parts);
    var id, m, n := Lower(l.id), Lower(l.manzana), Lower(l.loteNumero);
    if Contains(id, q) then true
    else if manPart != "" && |nums| > 0 then Contains(m, manPart) && SomeNumberIn(nums, n, m)
    else if |nums| > 0 && manPart == "" then SomeNumberIn(nums, n, n)
    else if manPart != "" && |nums| == 0 then Contains(m, manPart)
    else Contains(id, q) || Contains(m, q) || Contains(n, q) || Contains(m + n, RemoveSpaces(q))
  }

  predicate Blankish(texto: string) { texto == "" || Trim(texto) == "" }

  /** buscarLotesPorTexto over todosLosLotes in the given sector. */
  function SearchLots(lots: seq<Lot>, sector: string, texto: string): seq<Lot> {
    if Blankish(texto) then Filter(lots, l => InSector(sector, l))
    else
      var q := Query(texto);
      Filter(lots, l => InSector(sector, l) && QueryMatch(q, l))
  }

  /** A search returns lots of todosLosLotes, in their order, all in the current sector; an empty
      search returns every lot of the sector. */
  lemma SearchFacts(lots: seq<Lot>, sector: string, texto: string)
    ensures IsSubsequence(SearchLots(lots, sector, texto), lots)
    ensures forall l :: l in SearchLots(lots, sector, texto) ==> l in lots && InSector(sector, l)
    ensures Blankish(texto) ==> forall l :: l in lots && InSector(sector, l) ==> l in SearchLots(lots, sector, texto)
  {
  }

  /** A lot whose id contains the normalised query is always found in its sector. */
  lemma IdContainingQueryFound(lots: seq<Lot>, sector: string, texto: string, l: Lot)
    requires l in lots && InSector(sector, l) && Contains(Lower(l.id), Query(texto))
    ensures l in SearchLots(lots, sector, texto)
  {
  }

  /** The removal drops nothing but whole-word matches: a text without one passes unchanged. */
  lemma {:induction false} NoLoteWordUnchanged(s: string, i: nat)
    requires i <= |s|
    requires forall k :: i <= k < |s| ==> !LoteWordAt(s, k)
    ensures RemoveLoteWord(s, i) == s[i..]
    decreases |s| - i
  {
    if i < |s| {
      NoLoteWordUnchanged(s, i + 1);
      assert s[i..] == [s[i]] + s[i + 1..];
    }
  }

  /** "lote" as a whole word is dropped from the query, so "Lote A1" searches as "a1". */
  lemma LoteWordDropped()
    ensures RemoveLoteWord("lote a1", 0) == " a1"
  {
    var s := "lote a1";
    assert s[0..4] == "lote" && !IsWordChar(s[4]);
    assert LoteWordAt(s, 0);
    assert !LoteWordAt(s, 4) && !LoteWordAt(s, 5) && !LoteWordAt(s, 6);
  }

  // ---------------------------------------------------------------- filter and sort

  /** The area and status filter of filterAndRenderLotes (the area range from the two sliders). */
  predicate PassesFilters(l: Lot, areaMin: int, areaMax: int, statusFilter: string) {
    l.id != "" && areaMin <= l.area <= areaMax
    && (statusFilter == "" || Lower(l.estado) == Lower(statusFilter))
  }

  /** The order the sort-by select asks for. */
  datatype SortBy = AreaAsc | AreaDesc | Unsorted

  function SortByOf(value: string): SortBy {
    if value == "area-asc" then AreaAsc else if value == "area-desc" then AreaDesc else Unsorted
  }

  /** a may come before b: its area is not larger (ascending) or not smaller (descending). */
  predicate InOrder(order: SortBy, a: Lot, b: Lot) {
    match order
    case AreaAsc => a.area <= b.area
    case AreaDesc => a.area >= b.area
    case Unsorted => true
  }

  predicate SortedBy(order: SortBy, s: seq<Lot>) {
    forall i, j :: 0 <= i < j < |s| ==> InOrder(order, s[i], s[j])
  }

  /** A later element goes after every element it does not strictly precede, so equal areas keep their order. */
  function InsertSorted(order: SortBy, s: seq<Lot>, x: Lot): (r: seq<Lot>)
    ensures multiset(r) == multiset(s) + multiset{x}
    decreases |s|
  {
    if |s| == 0 then [x]
    else if InOrder(order, s[|s| - 1], x) then s + [x]
    else
      assert s == s[..|s| - 1] + [s[|s| - 1]];
      InsertSorted(order, s[..|s| - 1], x) + [s[|s| - 1]]
  }

  lemma {:induction false} InsertKeepsSorted(order: SortBy, s: seq<Lot>, x: Lot)
    requires SortedBy(order, s)
    ensures SortedBy(order, InsertSorted(order, s, x))
    decreases |s|
  {
    if |s| == 0 {
    } else if InOrder(order, s[|s| - 1], x) {
      forall k | 0 <= k < |s| ensures InOrder(order, s[k], x) {
        if k < |s| - 1 { assert InOrder(order, s[k], s[|s| - 1]); }
      }
      SortedSnoc(order, s, x);
    } else {
      var p, last := s[..|s| - 1], s[|s| - 1];
      assert SortedBy(order, p) by {
        forall i, j | 0 <= i < j < |p| ensures InOrder(order, p[i], p[j]) { assert p[i] == s[i] && p[j] == s[j]; }
      }
      InsertKeepsSorted(order, p, x);
      var r := InsertSorted(order, p, x);
      assert forall m :: 0 <= m < |p| ==> InOrder(order, p[m], last) by {
        forall m | 0 <= m < |p| ensures InOrder(order, p[m], last) { assert p[m] == s[m]; }
      }
      AllPrecede(order, p, x, r, last);
      SortedSnoc(order, r, last);
    }
  }

  /** When every lot of p and x may precede last, so may every lot of a permutation of p and x. */
  lemma AllPrecede(order: SortBy, p: seq<Lot>, x: Lot, r: seq<Lot>, last: Lot)
    requires multiset(r) == multiset(p) + multiset{x}
    requires forall m :: 0 <= m < |p| ==> InOrder(order, p[m], last)
    requires InOrder(order, x, last)
    ensures forall k :: 0 <= k < |r| ==> InOrder(order, r[k], last)
  {
    forall k | 0 <= k < |r| ensures InOrder(order, r[k], last) {
      assert r[k] in multiset(r);
      if r[k] != x {
        assert r[k] in multiset(p);
        var m :| 0 <= m < |p| && p[m] == r[k];
      }
    }
  }

  /** A lot that every element may precede can go at the end. */
  lemma SortedSnoc(order: SortBy, r: seq<Lot>, last: Lot)
    requires SortedBy(order, r)
    requires forall k :: 0 <= k < |r| ==> InOrder(order, r[k], last)
    ensures SortedBy(order, r + [last])
  {
    var t := r + [last];
    forall i, j | 0 <= i < j < |t| ensures InOrder(order, t[i], t[j]) {
      assert t[i] == r[i];
      if j < |r| { assert t[j] == r[j]; }
    }
  }

  /** Array.prototype.sort with the area comparator (a stable sort). */
  function SortLots(order: SortBy, s: seq<Lot>): (r: seq<Lot>)
    ensures multiset(r) == multiset(s)
    decreases |s|
  {
    if order == Unsorted || |s| == 0 then s
    else
      assert s == s[..|s| - 1] + [s[|s| - 1]];
      InsertSorted(order, SortLots(order, s[..|s| - 1]), s[|s| - 1])
  }

  /** The sorted lots are the same lots in the requested order; without an order nothing moves. */
  lemma {:induction false} SortLotsSorted(order: SortBy, s: seq<Lot>)
    ensures SortedBy(order, SortLots(order, s))
    ensures order == Unsorted ==> SortLots(order, s) == s
    decreases |s|
  {
    if order != Unsorted && |s| > 0 {
      SortLotsSorted(order, s[..|s| - 1]);
      InsertKeepsSorted(order, SortLots(order, s[..|s| - 1]), s[|s| - 1]);
    }
  }

  /** The result cards of filterAndRenderLotes, in display order. */
  function ResultLots(lots: seq<Lot>, sector: string, texto: string, areaMin: int, areaMax: int,
                      statusFilter: string, sortBy: string): seq<Lot> {
    var found := SearchLots(lots, sector, texto);
    SortLots(SortByOf(sortBy), Filter(found, l => PassesFilters(l, areaMin, areaMax, statusFilter)))
  }

  /** Every card shown is a lot of the sector that passes the filters, each passing search hit is
      shown, and the cards are in the order asked for. */
  lemma ResultLotsFacts(lots: seq<Lot>, sector: string, texto: string, areaMin: int, areaMax: int,
                        statusFilter: string, sortBy: string)
    ensures var r := ResultLots(lots, sector, texto, areaMin, areaMax, statusFilter, sortBy);
      SortedBy(SortByOf(sortBy), r)
      && (forall l :: l in r <==> l in SearchLots(lots, sector, texto) && PassesFilters(l, areaMin, areaMax, statusFilter))
      && (forall l :: l in r ==> l in lots && InSector(sector, l))
  {
    var found := SearchLots(lots, sector, texto);
    var kept := Filter(found, l => PassesFilters(l, areaMin, areaMax, statusFilter));
    SortLotsSorted(SortByOf(sortBy), kept);
    var r := SortLots(SortByOf(sortBy), kept);
    forall l ensures l in r <==> l in kept {
      assert l in r <==> l in multiset(r);
      assert l in kept <==> l in multiset(kept);
    }
    SearchFacts(lots, sector, texto);
  }

  // ---------------------------------------------------------------- detail lookup

  /** Array.prototype.find: the first passing lot. */
  function Find(lots: seq<Lot>, p: Lot -> bool): (r: Option<Lot>)
    ensures r.Some? <==> exists l :: l in lots && p(l)
    ensures r.Some? ==> exists i :: 0 <= i < |lots| && lots[i] == r.value && p(lots[i])
                                    && forall j :: 0 <= j < i ==> !p(lots[j])
    decreases |lots|
  {
    if |lots| == 0 then None
    else if p(lots[0]) then Some(lots[0])
    else
      assert forall l :: l in lots <==> l == lots[0] || l in lots[1..];
      var r := Find(lots[1..], p);
      assert r.Some? ==> exists i :: 0 <= i < |lots| && lots[i] == r.value && p(lots[i])
                                     && forall j :: 0 <= j < i ==> !p(lots[j]) by {
        if r.Some? {
          var i :| 0 <= i < |lots[1..]| && lots[1..][i] == r.value && p(lots[1..][i])
                   && forall j :: 0 <= j < i ==> !p(lots[1..][j]);
          assert lots[i + 1] == r.value;
          forall j | 0 <= j < i + 1 ensures !p(lots[j]) {
            if j > 0 { assert lots[j] == lots[1..][j - 1]; }
          }
        }
      }
      r
  }

  /** Which block names a lookup accepts: none with a '2', only those with one, or any. */
  datatype Pick = NoTwo | WithTwo | AnyBlock

  /** A lot verDetalleLote may show for `id` under `pick`. */
  predicate Candidate(pick: Pick, id: string, l: Lot) {
    l.id == id && match pick
      case NoTwo => '2' !in l.manzana
      case WithTwo => '2' in l.manzana
      case AnyBlock => true
  }

  /** `l` is the first candidate in `lots`. */
  predicate FirstCandidate(lots: seq<Lot>, pick: Pick, id: string, l: Lot) {
    exists i :: 0 <= i < |lots| && lots[i] == l && Candidate(pick, id, l)
                && forall j :: 0 <= j < i ==> !Candidate(pick, id, lots[j])
  }

  /** The lot verDetalleLote shows for an id in the current sector. */
  function DetailLot(lots: seq<Lot>, sector: string, id: string): Option<Lot> {
    if sector == "etapa-1" then Find(lots, (l: Lot) => Candidate(NoTwo, id, l))
    else if sector == "etapa-2" then Find(lots, (l: Lot) => Candidate(WithTwo, id, l))
    else
      var second := Find(lots, (l: Lot) => Candidate(WithTwo, id, l));
      if second.Some? then second else Find(lots, (l: Lot) => Candidate(AnyBlock, id, l))
  }

  /** The lookup finds a lot with the id in the sector whenever there is one, and it is the first
      such lot; in the full view the first stage-2 lot with that id wins, and only when there is
      none the first lot with the id. */
  lemma DetailLotFacts(lots: seq<Lot>, sector: string, id: string)
    ensures var r := DetailLot(lots, sector, id);
      (r.Some? <==> exists l :: l in lots && l.id == id && InSector(sector, l))
      && (r.Some? ==> r.value in lots && r.value.id == id && InSector(sector, r.value))
      && (sector != "etapa-1" && (exists l :: l in lots && l.id == id && '2' in l.manzana) ==> r.Some? && '2' in r.value.manzana)
    ensures var r := DetailLot(lots, sector, id);
      r.Some? ==>
        if sector == "etapa-1" then FirstCandidate(lots, NoTwo, id, r.value)
        else if sector == "etapa-2" || exists l :: l in lots && Candidate(WithTwo, id, l) then FirstCandidate(lots, WithTwo, id, r.value)
        else FirstCandidate(lots, AnyBlock, id, r.value)
  {
  }
}
