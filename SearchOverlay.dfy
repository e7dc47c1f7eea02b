/** The full-screen search panel (components/SearchOverlay.tsx). It carries
    its own copy of the catalogs and of the matcher, resets its query when it
    opens, moves a cursor with the arrow keys, keeps Tab focus inside the
    panel, and anchors the panel under the button it was opened from. Its
    `isOpen` and `origin` come from the parent, and closing or navigating is
    reported back through `onClose` / `onSelectTab`. */
module SearchOverlay {
  import opened Wrappers
  import opened Search
  import opened JsStrings
  import RecordsData
  import Navbar

  // ------------------------------------------------------------- catalogs

  const OverlayPlayers: seq<Player> := [
    Player("Michael Jordan", "michael-jordan"),
    Player("LeBron James", "lebron-james"),
    Player("Kobe Bryant", "kobe-bryant"),
    Player("Stephen Curry", "stephen-curry")
  ]

  const OverlayPages: seq<Page> := [
    Page("home", "home", []),
    Page("standings", "standings", []),
    Page("schedule", "schedule", []),
    Page("stats", "stats", []),
    Page("legacy", "legacy", []),
    Page("rules", "rules", []),
    Page("more", "more", []),
    Page("hall-of-fame", "hall of fame", ["hof", "legends", "hall"]),
    Page("league-history", "history", ["timeline", "archives", "history"]),
    Page("records", "records", ["history", "stats", "highs", "best"]),
    Page("credits", "credits", ["contributors", "staff", "creators", "team", "devs"])
  ]

  const OverlayCatalog := Catalog(OverlayPages, OverlayPlayers, RecordsData.Sections)

  /** The panel and the navigation bar search the same catalogs with the
      same code, so for every query they offer the same groups. */
  lemma SameResultsAsNavbar(query: string)
    ensures SearchGroups(OverlayCatalog, query) == SearchGroups(Navbar.NavCatalog, query)
    ensures FlatResults(OverlayCatalog, query) == FlatResults(Navbar.NavCatalog, query)
  {
    assert OverlayPages == Navbar.NavPages;
    assert OverlayPlayers == Navbar.NavPlayers;
  }

  // ------------------------------------------------------------- geometry

  /** The button the panel was opened from, in window coordinates; DOM
      coordinates are fractional, so they are reals. */
  datatype Rect = Rect(x: real, y: real, w: real, h: real)

  /** `Centered` is the stylesheet fallback used without an origin. */
  datatype Position = Centered | Anchored(top: real, right: real, width: real)

  const MaxPanelWidth: real := 672.0

  function Min(a: real, b: real): real {
    if a <= b then a else b
  }

  /** `positionStyle`: the panel's right edge lines up with the button's
      right edge, its top with the button's top, and its width is the least
      of 672, the window width less 32 and the room left of the button's
      right edge less 16. The window width is `innerWidth`, a whole number
      of pixels. */
  function PanelPosition(origin: Option<Rect>, windowWidth: int): (p: Position)
    ensures origin.None? <==> p.Centered?
    ensures origin.Some? ==>
      var o := origin.value;
      var ww := windowWidth as real;
      p.top == o.y && p.right == ww - (o.x + o.w)
      && p.width <= MaxPanelWidth && p.width <= ww - 32.0 && p.width <= o.x + o.w - 16.0
      && (p.width == MaxPanelWidth || p.width == ww - 32.0 || p.width == o.x + o.w - 16.0)
  {
    match origin
    case None => Centered
    case Some(o) =>
      var ww := windowWidth as real;
      Anchored(o.y, ww - (o.x + o.w), Min(Min(MaxPanelWidth, ww - 32.0), o.x + o.w - 16.0))
  }

  /** An anchored panel keeps at least 16 pixels clear of the window's left
      edge and ends where the button ends. */
  lemma PanelStaysOnScreen(o: Rect, windowWidth: int)
    ensures var p := PanelPosition(Some(o), windowWidth);
      windowWidth as real - p.right - p.width >= 16.0 && windowWidth as real - p.right == o.x + o.w
  {
  }

  // ------------------------------------------------------------ focus trap

  datatype FocusMove = Untouched | FocusFirst | FocusLast

  /** Tab inside the panel: `count` focusable elements, `active` the index of
      the focused one among them (if any). Tab on the last wraps to the first,
      Shift+Tab on the first wraps to the last; anything else is left to the
      browser. */
  function FocusTrap(count: nat, active: Option<nat>, shift: bool): (m: FocusMove)
    ensures m == FocusFirst <==> count > 0 && !shift && active == Some(count - 1)
    ensures m == FocusLast <==> count > 0 && shift && active == Some(0)
    ensures m == Untouched <==> !(count > 0 && active == Some(if shift then 0 else count - 1))
  {
    if count > 0 then
      if shift then (if active == Some(0) then FocusLast else Untouched)
      else (if active == Some(count - 1) then FocusFirst else Untouched)
    else Untouched
  }

  // ----------------------------------------------------------------- panel

  /** What a key press asks of the parent and of the browser's focus. */
  datatype Outcome = Outcome(selectTab: Option<string>, close: bool, focus: FocusMove)

  const NoOutcome := Outcome(None, false, Untouched)

  class Overlay {
    /** The catalogs searched: `OverlayCatalog`. */
    const catalog: Catalog
    /** Parent-owned props. */
    var isOpen: bool
    var origin: Option<Rect>
    /** Own state cells. */
    var query: string
    var selected: nat
    var windowWidth: int

    function Flat(): seq<ResultItem>
      reads this
    {
      FlatResults(catalog, query)
    }

    /** The cursor points at a result or, with nothing to point at, is 0. */
    predicate Valid()
      reads this
    {
      selected == 0 || selected < |Flat()|
    }

    /** Mounting runs the open effect when the panel starts open; the state
        starts empty either way. */
    constructor (isOpen: bool, origin: Option<Rect>, windowWidth: int)
      ensures catalog == OverlayCatalog
      ensures this.isOpen == isOpen && this.origin == origin && this.windowWidth == windowWidth
      ensures query == "" && selected == 0
      ensures Valid()
    {
      catalog := OverlayCatalog;
      this.isOpen := isOpen;
      this.origin := origin;
      this.windowWidth := windowWidth;
      query := "";
      selected := 0;
    }

    /** The parent changes `isOpen`; the effect on `isOpen` clears the query
        and the cursor each time the panel opens. Closing keeps them. */
    method SetOpen(open: bool)
      requires Valid()
      modifies this`isOpen, this`query, this`selected
      ensures Valid()
      ensures isOpen == open
      ensures open && !old(isOpen) ==> query == "" && selected == 0
      ensures !(open && !old(isOpen)) ==> query == old(query) && selected == old(selected)
    {
      if open && !isOpen {
        query := "";
        selected := 0;
      }
      isOpen := open;
    }

    /** The input's `onChange` (the input exists only while open). */
    method Type(text: string)
      requires Valid() && isOpen
      modifies this`query, this`selected
      ensures Valid()
      ensures query == text && selected == 0
    {
      query := text;
      selected := 0;
    }

    /** Hovering the `i`-th rendered result. */
    method Hover(i: nat)
      requires Valid() && isOpen && i < |Flat()|
      modifies this`selected
      ensures Valid()
      ensures selected == i
    {
      selected := i;
    }

    /** Clicking the `i`-th result: `onSelectTab(tabId)`, then `onClose()`. */
    method Click(i: nat) returns (out: Outcome)
      requires Valid() && isOpen && i < |Flat()|
      ensures out == Outcome(Some(Flat()[i].tabId), true, Untouched)
    {
      out := Outcome(Some(Flat()[i].tabId), true, Untouched);
    }

    /** The resize listener: records the width, and asks to close an open
        panel that is anchored to a button. */
    method Resize(newWidth: int) returns (close: bool)
      requires Valid()
      modifies this`windowWidth
      ensures Valid()
      ensures windowWidth == newWidth
      ensures close <==> isOpen && origin.Some?
    {
      windowWidth := newWidth;
      close := isOpen && origin.Some?;
    }

    /** Where the panel is drawn. */
    function Position(): Position
      reads this
    {
      PanelPosition(origin, windowWidth)
    }

    /** The keydown listener, which is only attached while the panel is
        open. `focusCount` and `active` describe the panel's focusable
        elements and the focused one. */
    method KeyDown(key: string, shift: bool, focusCount: nat, active: Option<nat>) returns (out: Outcome)
      requires Valid()
      modifies this`selected
      ensures Valid()
      ensures !isOpen ==> out == NoOutcome && selected == old(selected)
      ensures isOpen && key == "Escape" ==> out == Outcome(None, true, Untouched) && selected == old(selected)
      ensures isOpen && key == "ArrowDown" && |Flat()| > 0 ==>
        out == NoOutcome && selected == CursorDown(old(selected), |Flat()|)
      ensures isOpen && key == "ArrowUp" && |Flat()| > 0 ==>
        out == NoOutcome && selected == CursorUp(old(selected), |Flat()|)
      ensures isOpen && key == "Enter" && |Flat()| > 0 ==>
        out == Outcome(Some(Flat()[selected].tabId), true, Untouched) && selected == old(selected)
      ensures isOpen && key == "Tab" ==>
        out == Outcome(None, false, FocusTrap(focusCount, active, shift)) && selected == old(selected)
      ensures key !in {"Escape", "Tab"} && (|Flat()| == 0 || key !in {"ArrowDown", "ArrowUp", "Enter"}) ==>
        out == NoOutcome && selected == old(selected)
    {
      out := NoOutcome;
      if !isOpen {
        return;
      }
      if key == "Escape" {
        out := Outcome(None, true, Untouched);
        return;
      }
      var flat := Flat();
      var n := |flat|;
      if n > 0 {
        if key == "ArrowDown" {
          selected := CursorDown(selected, n);
        }
        if key == "ArrowUp" {
          selected := CursorUp(selected, n);
        }
        if key == "Enter" {
          if selected < n {
            out := Outcome(Some(flat[selected].tabId), true, Untouched);
          }
        }
      }
      if key == "Tab" {
        out := Outcome(None, false, FocusTrap(focusCount, active, shift));
      }
    }

    /** What the results area shows. */
    function Display(): (d: Display)
      reads this
      ensures d == Hint <==> IsBlank(query)
      ensures d == NoMatches <==> !IsBlank(query) && |Flat()| == 0
    {
      FlattenEmptyIff(SearchGroups(catalog, query));
      DisplayFor(query, SearchGroups(catalog, query))
    }
  }
}
