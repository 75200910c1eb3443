/**
 * The interface state of the parcel map (assets/js/script-mapa.js): the throttle that limits
 * the zoom handler, the visibility of the three side panels with the "back" button that
 * returns to the panel the lot details were opened from, and the image bounds of each stage.
 */
module ParcelUi {
  import opened Wrappers
  import opened Text

  // ---------------------------------------------------------------- throttle

  /** The call times fn runs at, when the wrapper's `last` starts at `last` and it is invoked at `times`. */
  function Accepted(last: int, wait: int, times: seq<int>): seq<int>
    decreases |times|
  {
    if |times| == 0 then []
    else if times[0] - last >= wait then [times[0]] + Accepted(times[0], wait, times[1..])
    else Accepted(last, wait, times[1..])
  }

  /** Consecutive runs are at least `wait` apart. */
  predicate Spaced(last: int, wait: int, runs: seq<int>) {
    (|runs| > 0 ==> runs[0] - last >= wait)
    && forall i :: 0 < i < |runs| ==> runs[i] - runs[i - 1] >= wait
  }

  /** fn runs only at invocation times, in order, never twice within `wait`, and an invocation is
      dropped only when it comes less than `wait` after the run before it. */
  lemma {:induction false} AcceptedFacts(last: int, wait: int, times: seq<int>)
    ensures Spaced(last, wait, Accepted(last, wait, times))
    ensures IsSubsequence(Accepted(last, wait, times), times)
    ensures |times| > 0 && times[0] - last < wait ==> Accepted(last, wait, times) == Accepted(last, wait, times[1..])
    decreases |times|
  {
    if |times| > 0 {
      var r := Accepted(last, wait, times);
      if times[0] - last >= wait {
        AcceptedFacts(times[0], wait, times[1..]);
        assert r[1..] == Accepted(times[0], wait, times[1..]);
      } else {
        AcceptedFacts(last, wait, times[1..]);
        var t := Accepted(last, wait, times[1..]);
        assert |t| > 0 ==> t[0] != times[0];
      }
    }
  }

  /** An invocation spaced a full `wait` after every earlier one always runs. */
  lemma SpreadCallsAllRun(wait: int, times: seq<int>)
    requires |times| > 0 ==> times[0] >= wait
    requires forall i :: 0 < i < |times| ==> times[i] - times[i - 1] >= wait
    ensures Accepted(0, wait, times) == times
  {
    SpreadFrom(0, wait, times);
  }

  lemma {:induction false} SpreadFrom(last: int, wait: int, times: seq<int>)
    requires |times| > 0 ==> times[0] - last >= wait
    requires forall i :: 0 < i < |times| ==> times[i] - times[i - 1] >= wait
    ensures Accepted(last, wait, times) == times
    decreases |times|
  {
    if |times| > 0 {
      var rest := times[1..];
      assert forall i :: 0 < i < |rest| ==> rest[i] - rest[i - 1] >= wait by {
        forall i | 0 < i < |rest| ensures rest[i] - rest[i - 1] >= wait {
          assert rest[i] == times[i + 1] && rest[i - 1] == times[i];
        }
      }
      assert |rest| > 0 ==> rest[0] == times[1];
      SpreadFrom(times[0], wait, rest);
    }
  }

  /** The function `throttle(fn, wait)` returns, with its captured `last`. */
  class Throttle {
    var last: int
    const wait: int
    /** The times fn has run at. */
    ghost var runs: seq<int>

    ghost predicate Valid()
      reads this
    {
      Spaced(0, wait, runs) && last == (if |runs| == 0 then 0 else runs[|runs| - 1])
    }

    constructor (wait: int)
      ensures this.wait == wait && last == 0 && runs == []
      ensures Valid()
    {
      this.wait := wait;
      last := 0;
      runs := [];
    }

    /** One invocation at Date.now() == now: fn runs iff now - last >= wait, and only then is `last` moved. */
    method Call(now: int) returns (called: bool)
      requires Valid()
      modifies this
      ensures Valid()
      ensures called <==> now - old(last) >= wait
      ensures last == (if called then now else old(last))
      ensures runs == (if called then old(runs) + [now] else old(runs))
    {
      called := now - last >= wait;
      if called {
        last := now;
        runs := runs + [now];
      }
    }
  }

  // ---------------------------------------------------------------- panels

  /** The panel the lot details were opened from (previousPanel). */
  datatype Previous = NoPanel | FromSearch | FromAreas

  /** The visible panels, the two active toolbar buttons and previousPanel. */
  datatype Panels = Panels(side: bool, search: bool, areas: bool, lotesActive: bool, areasActive: bool, previous: Previous)

  /** hideAllPanels: every panel hidden and both buttons inactive; previousPanel untouched. */
  function HideAll(s: Panels): Panels {
    s.(side := false, search := false, areas := false, lotesActive := false, areasActive := false)
  }

  /** The lots button: the search panel alone, with its button active. */
  function OpenSearch(s: Panels): Panels { HideAll(s).(search := true, lotesActive := true) }

  /** The common-areas button: the areas panel alone, with its button active. */
  function OpenAreas(s: Panels): Panels { HideAll(s).(areas := true, areasActive := true) }

  /** Showing a lot's details: remember the open search or areas panel, then show the details alone. */
  function ShowDetail(s: Panels): Panels {
    var from := if s.search then FromSearch else if s.areas then FromAreas else NoPanel;
    HideAll(s).(side := true, previous := from)
  }

  /** volverAlPanelAnterior: reopen the remembered panel (or close everything) and forget it. */
  function Back(s: Panels): Panels {
    var t := match s.previous
      case FromSearch => OpenSearch(s)
      case FromAreas => OpenAreas(s)
      case NoPanel => HideAll(s);
    t.(previous := NoPanel)
  }

  /** At most one panel is visible and each button is active exactly with its panel. */
  predicate OnePanel(s: Panels) {
    (s.side ==> !s.search && !s.areas) && !(s.search && s.areas)
    && s.lotesActive == s.search && s.areasActive == s.areas
  }

  /** Every handler keeps at most one panel open. */
  lemma HandlersKeepOnePanel(s: Panels)
    ensures OnePanel(HideAll(s)) && OnePanel(OpenSearch(s)) && OnePanel(OpenAreas(s))
    ensures OnePanel(ShowDetail(s)) && OnePanel(Back(s))
  {
  }

  /** Back after opening the details returns to exactly the panels shown before, with nothing remembered. */
  lemma BackUndoesShowDetail(s: Panels)
    requires OnePanel(s) && !s.side
    ensures Back(ShowDetail(s)) == s.(previous := NoPanel)
  {
  }

  /** Opening the details from the details panel itself remembers nothing, so back closes everything. */
  lemma BackFromDetailOverDetail(s: Panels)
    requires OnePanel(s) && s.side
    ensures Back(ShowDetail(s)) == HideAll(s).(previous := NoPanel)
  {
  }

  /** The page's panels and previousPanel as one object. */
  class MapPanels {
    var side: bool
    var search: bool
    var areas: bool
    var lotesActive: bool
    var areasActive: bool
    var previous: Previous

    function State(): Panels
      reads this
    {
      Panels(side, search, areas, lotesActive, areasActive, previous)
    }

    /** The page as loaded: all panels closed, nothing remembered. */
    constructor ()
      ensures State() == Panels(false, false, false, false, false, NoPanel)
      ensures OnePanel(State())
    {
      side, search, areas, lotesActive, areasActive, previous := false, false, false, false, false, NoPanel;
    }

    method HideAllPanels()
      modifies this
      ensures State() == HideAll(old(State()))
    {
      side, search, areas := false, false, false;
      lotesActive, areasActive := false, false;
    }

    method ShowLotDetail()
      modifies this
      ensures State() == ShowDetail(old(State()))
      ensures OnePanel(State())
    {
      if search {
        previous := FromSearch;
      } else if areas {
        previous := FromAreas;
      } else {
        previous := NoPanel;
      }
      HideAllPanels();
      side := true;
    }

    method BackToPrevious()
      modifies this
      ensures State() == Back(old(State()))
      ensures OnePanel(State())
    {
      HideAllPanels();
      if previous == FromSearch {
        search, lotesActive := true, true;
      } else if previous == FromAreas {
        areas, areasActive := true, true;
      }
      previous := NoPanel;
    }
  }

  /** Opening a lot from the search list and pressing back shows the search list again. */
  method SearchDetailBack(p: MapPanels)
    modifies p
    ensures p.State() == Panels(false, true, false, true, false, NoPanel)
  {
    p.HideAllPanels();
    p.search, p.lotesActive := true, true;
    p.ShowLotDetail();
    p.BackToPrevious();
  }

  // ---------------------------------------------------------------- image bounds

  datatype Size = Size(width: int, height: int)

  /** sectorSizes: the pixel size of each stage's plan image. */
  function SectorSize(sector: string): (r: Option<Size>)
    ensures r.Some? <==> sector in {"etapa-1", "etapa-2", "completo"}
  {
    if sector == "etapa-1" then Some(Size(2300, 3898))
    else if sector == "etapa-2" then Some(Size(2000, 5457))
    else if sector == "completo" then Some(Size(3500, 3848))
    else None
  }

  /** A corner pair of the simple coordinate system: (y, x) of the south-west and north-east corners. */
  datatype Bounds = Bounds(south: int, west: int, north: int, east: int)

  /** makeBounds(width, height) = [[0, 0], [height, width]]. */
  function MakeBounds(width: int, height: int): Bounds {
    Bounds(0, 0, height, width)
  }

  predicate InBounds(b: Bounds, y: int, x: int) { b.south <= y <= b.north && b.west <= x <= b.east }

  /** A point lies in a stage's bounds iff it lies on its image: rows up to the height, columns up to the width. */
  lemma BoundsAreImage(width: int, height: int, y: int, x: int)
    ensures InBounds(MakeBounds(width, height), y, x) <==> 0 <= y <= height && 0 <= x <= width
  {
  }
}
