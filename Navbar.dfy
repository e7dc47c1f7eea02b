/** The navigation bar (components/Navbar.tsx): its search catalogs, the
    desktop search box with its keyboard cursor, the `/` shortcut, and the
    parent-tab rule that decides which desktop tab is highlighted. */
module Navbar {
  import opened Wrappers
  import opened Search
  import RecordsData

  // ------------------------------------------------------------- catalogs

  /** `PLAYERS` */
  const NavPlayers: seq<Player> := [
    Player("Michael Jordan", "michael-jordan"),
    Player("LeBron James", "lebron-james"),
    Player("Kobe Bryant", "kobe-bryant"),
    Player("Stephen Curry", "stephen-curry")
  ]

  /** `PAGES` */
  const NavPages: seq<Page> := [
    Page("home", "home", []),
    Page("standings", "standings", []),
    Page("schedule", "schedule", []),
    Page("stats", "stats", []),
    Page("legacy", "legacy", []),
    Page("rules", "rules", []),
    Page("more", "more", []),
    Page("hall-of-fame", "hall of fame", ["hof", "legends", "hall"]),
    Page("league-history", "history", ["timeline", "archives", "history"]),
    Page("records", "records", ["history", "stats", "highs", "best"]),
    Page("credits", "credits", ["contributors", "staff", "creators", "team", "devs"])
  ]

  const NavCatalog := Catalog(NavPages, NavPlayers, RecordsData.Sections)

  // ------------------------------------------------------------ parent tab

  /** The desktop tab strip. */
  const DesktopTabs: seq<string> := ["home", "standings", "schedule", "stats", "legacy", "more"]

  /** The tab names `TabID` spells out, plus the `unknown` fallback. */
  const KnownTabs: seq<string> := [
    "home", "standings", "schedule", "stats", "legacy", "rules", "more", "partner-hub",
    "hall-of-fame", "league-history", "credits", "records", "unknown"]

  const ParentMap: map<string, string> := map[
    "partner-hub" := "more",
    "rules" := "more",
    "hall-of-fame" := "legacy",
    "league-history" := "more",
    "records" := "legacy",
    "credits" := "more",
    "unknown" := "more"]

  /** `getParentTab`: sub-pages map to the desktop tab they live under;
      every other tab is its own parent. */
  function ParentTab(tabId: string): (r: string)
    ensures tabId in {"partner-hub", "rules", "league-history", "credits", "unknown"} ==> r == "more"
    ensures tabId in {"hall-of-fame", "records"} ==> r == "legacy"
    ensures tabId !in {"partner-hub", "rules", "league-history", "credits", "unknown", "hall-of-fame", "records"} ==> r == tabId
  {
    if tabId in ParentMap then ParentMap[tabId] else tabId
  }

  /** `isTabActive` */
  predicate IsTabActive(activeTab: string, tabName: string) {
    ParentTab(activeTab) == tabName
  }

  /** On any of the known tabs exactly one desktop tab is highlighted. */
  lemma ExactlyOneDesktopTabActive(activeTab: string)
    requires activeTab in KnownTabs
    ensures exists i :: 0 <= i < |DesktopTabs| && IsTabActive(activeTab, DesktopTabs[i])
    ensures forall i, j :: (0 <= i < |DesktopTabs| && 0 <= j < |DesktopTabs|
      && IsTabActive(activeTab, DesktopTabs[i]) && IsTabActive(activeTab, DesktopTabs[j])) ==> i == j
  {
    var p := ParentTab(activeTab);
    assert p in DesktopTabs;
    var i :| 0 <= i < |DesktopTabs| && DesktopTabs[i] == p;
    assert IsTabActive(activeTab, DesktopTabs[i]);
  }

  // ------------------------------------------------------------- keyboard

  /** The element a key press is aimed at. */
  datatype KeyTarget = KeyTarget(tagName: string, isContentEditable: bool)

  /** A field the user is typing into, where `/` must stay a character. */
  predicate IsTypingTarget(t: KeyTarget) {
    t.isContentEditable || t.tagName == "INPUT" || t.tagName == "TEXTAREA" || t.tagName == "SELECT"
  }

  /** Below this width the search is not offered at all. */
  const MobileWidth := 768

  /** The `/` shortcut opens the search: it is enabled in the settings, the
      search is closed, and the key is not aimed at a text field. */
  predicate SlashOpens(key: string, searchSlashOpens: bool, isOpen: bool, target: KeyTarget) {
    key == "/" && searchSlashOpens && !isOpen && !IsTypingTarget(target)
  }

  /** The search box's state cells. */
  class NavbarSearch {
    /** The catalogs searched: `NavCatalog`. */
    const catalog: Catalog
    var isOpen: bool
    var query: string
    var selected: nat

    /** The flattened results for the current query. */
    function Flat(): seq<ResultItem>
      reads this
    {
      FlatResults(catalog, query)
    }

    /** The cursor points at a result or, with nothing to point at, is 0;
        a closed search holds no query. */
    predicate Valid()
      reads this
    {
      (selected == 0 || selected < |Flat()|)
      && (!isOpen ==> query == "" && selected == 0)
    }

    constructor ()
      ensures catalog == NavCatalog
      ensures !isOpen && query == "" && selected == 0
      ensures Valid()
    {
      catalog := NavCatalog;
      isOpen := false;
      query := "";
      selected := 0;
    }

    /** `openSearch`: refused on a narrow window. */
    method OpenSearch(windowWidth: int)
      requires Valid()
      modifies this`isOpen
      ensures Valid()
      ensures isOpen == (old(isOpen) || windowWidth >= MobileWidth)
    {
      if windowWidth >= MobileWidth {
        isOpen := true;
      }
    }

    /** `closeSearch` */
    method CloseSearch()
      modifies this
      ensures !isOpen && query == "" && selected == 0
      ensures Valid()
    {
      isOpen := false;
      query := "";
      selected := 0;
    }

    /** The input's `onChange`: the new text, with the cursor back on top. */
    method Type(text: string)
      requires Valid() && isOpen
      modifies this`query, this`selected
      ensures Valid()
      ensures query == text && selected == 0
    {
      query := text;
      selected := 0;
    }

    /** Hovering the `i`-th rendered result moves the cursor there. */
    method Hover(i: nat)
      requires Valid() && isOpen && i < |Flat()|
      modifies this`selected
      ensures Valid()
      ensures selected == i
    {
      selected := i;
    }

    /** The resize listener closes an open search on a narrow window. */
    method Resize(windowWidth: int)
      requires Valid()
      modifies this
      ensures Valid()
      ensures if windowWidth < MobileWidth && old(isOpen) then !isOpen && query == "" && selected == 0
              else isOpen == old(isOpen) && query == old(query) && selected == old(selected)
    {
      if windowWidth < MobileWidth && isOpen {
        CloseSearch();
      }
    }

    /** A mouse press outside the search box closes it. */
    method ClickOutside()
      requires Valid()
      modifies this
      ensures Valid()
      ensures !isOpen && query == "" && selected == 0
    {
      if isOpen {
        CloseSearch();
      }
    }

    /** Clicking a result navigates to its target and closes the search. */
    method SelectResult(i: nat) returns (nav: string)
      requires Valid() && isOpen && i < |Flat()|
      modifies this
      ensures nav == old(Flat())[i].tabId
      ensures !isOpen && query == "" && selected == 0
      ensures Valid()
    {
      nav := Flat()[i].tabId;
      CloseSearch();
    }

    /** The keys the open search box reacts to: Escape closes it; with at
        least one result the arrows move the cursor and Enter takes the
        result under the cursor. */
    method SearchKey(key: string) returns (nav: Option<string>)
      requires Valid() && isOpen
      modifies this
      ensures Valid()
      ensures key == "Escape" ==>
        nav.None? && !isOpen && query == "" && selected == 0
      ensures key == "ArrowDown" && |old(Flat())| > 0 ==>
        nav.None? && isOpen && query == old(query) && selected == CursorDown(old(selected), |old(Flat())|)
      ensures key == "ArrowUp" && |old(Flat())| > 0 ==>
        nav.None? && isOpen && query == old(query) && selected == CursorUp(old(selected), |old(Flat())|)
      ensures key == "Enter" && |old(Flat())| > 0 ==>
        nav == Some(old(Flat())[old(selected)].tabId) && !isOpen && query == "" && selected == 0
      ensures key != "Escape" && (|old(Flat())| == 0 || key !in {"ArrowDown", "ArrowUp", "Enter"}) ==>
        nav.None? && isOpen && query == old(query) && selected == old(selected)
    {
      nav := None;
      if key == "Escape" {
        CloseSearch();
        return;
      }
      var flat := Flat();
      var n := |flat|;
      if n > 0 {
        if key == "ArrowDown" {
          selected := CursorDown(selected, n);
        }
        if key == "ArrowUp" {
          selected := CursorUp(selected, n);
        }
        if key == "Enter" {
          if selected < n {
            nav := Some(flat[selected].tabId);
            CloseSearch();
          }
        }
      }
    }

    /** The window's keydown handler; `nav` is the tab handed to
        `onTabChange`, if any. Once the search is open the keys go to
        `SearchKey`. */
    method KeyDown(key: string, target: KeyTarget, searchSlashOpens: bool, windowWidth: int) returns (nav: Option<string>)
      requires Valid()
      modifies this
      ensures Valid()
      ensures windowWidth < MobileWidth ==>
        nav.None? && isOpen == old(isOpen) && query == old(query) && selected == old(selected)
      // the `/` shortcut swallows the key even when it does not open the search
      ensures windowWidth >= MobileWidth && key == "/" && searchSlashOpens && !old(isOpen) ==>
        nav.None? && isOpen == !IsTypingTarget(target) && query == old(query) && selected == old(selected)
      ensures windowWidth >= MobileWidth && !old(isOpen) ==>
        nav.None? && query == old(query) && selected == old(selected)
        && isOpen == SlashOpens(key, searchSlashOpens, old(isOpen), target)
      ensures windowWidth >= MobileWidth && old(isOpen) && key == "Escape" ==>
        nav.None? && !isOpen && query == "" && selected == 0
      ensures windowWidth >= MobileWidth && old(isOpen) && key == "ArrowDown" && |old(Flat())| > 0 ==>
        nav.None? && isOpen && query == old(query) && selected == CursorDown(old(selected), |old(Flat())|)
      ensures windowWidth >= MobileWidth && old(isOpen) && key == "ArrowUp" && |old(Flat())| > 0 ==>
        nav.None? && isOpen && query == old(query) && selected == CursorUp(old(selected), |old(Flat())|)
      ensures windowWidth >= MobileWidth && old(isOpen) && key == "Enter" && |old(Flat())| > 0 ==>
        nav == Some(old(Flat())[old(selected)].tabId) && !isOpen && query == "" && selected == 0
      ensures windowWidth >= MobileWidth && old(isOpen) && key != "Escape" && (|old(Flat())| == 0 || key !in {"ArrowDown", "ArrowUp", "Enter"}) ==>
        nav.None? && isOpen && query == old(query) && selected == old(selected)
    {
      nav := None;
      if windowWidth < MobileWidth {
        return;
      }
      if key == "/" && searchSlashOpens && !isOpen {
        if !IsTypingTarget(target) {
          OpenSearch(windowWidth);
        }
        return;
      }
      if isOpen {
        nav := SearchKey(key);
      }
    }
  }
}
