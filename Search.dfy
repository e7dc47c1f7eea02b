/** The search matcher the navigation bar and the search overlay both carry
    (components/Navbar.tsx and components/SearchOverlay.tsx hold the same
    code over the same catalogs): case-insensitive substring matching over
    pages with keywords, players and record items, grouped in the fixed
    order Pages, Records, Players, with empty groups dropped; the cursor
    arithmetic over the flattened results; and the three display states. */
module Search {
  import opened Wrappers
  import opened JsStrings
  import opened RecordsData

  // ------------------------------------------------------------- catalogs

  /** A page entry; an entry without `keywords` has none. */
  datatype Page = Page(name: string, displayLabel: string, keywords: seq<string>)

  datatype Player = Player(name: string, slug: string)

  datatype Catalog = Catalog(pages: seq<Page>, players: seq<Player>, records: seq<RecordSection>)

  // -------------------------------------------------------------- results

  datatype Kind = PageResult | PlayerResult | RecordResult

  datatype ResultItem = ResultItem(name: string, tabId: string, kind: Kind, id: string, category: string)

  datatype GroupName = Pages | Records | Players

  datatype Group = Group(group: GroupName, items: seq<ResultItem>)

  /** Position of a group in the fixed display order. */
  function Rank(g: GroupName): nat {
    match g
    case Pages => 0
    case Records => 1
    case Players => 2
  }

  // ------------------------------------------------------ filter, then map

  /** `xs.filter(keep).map(f)` */
  function FilterMap<T, U>(xs: seq<T>, keep: T -> bool, f: T -> U): (r: seq<U>)
    ensures |r| <= |xs|
  {
    if |xs| == 0 then [] else (if keep(xs[0]) then [f(xs[0])] else []) + FilterMap(xs[1..], keep, f)
  }

  /** An element is produced exactly when some kept input maps to it. */
  lemma {:induction false} FilterMapMember<T, U>(xs: seq<T>, keep: T -> bool, f: T -> U, y: U)
    ensures y in FilterMap(xs, keep, f) <==> exists i :: 0 <= i < |xs| && keep(xs[i]) && f(xs[i]) == y
  {
    if |xs| > 0 {
      FilterMapMember(xs[1..], keep, f, y);
      if exists i :: 0 <= i < |xs[1..]| && keep(xs[1..][i]) && f(xs[1..][i]) == y {
        var i :| 0 <= i < |xs[1..]| && keep(xs[1..][i]) && f(xs[1..][i]) == y;
        assert xs[i + 1] == xs[1..][i];
      }
      if exists i :: 0 <= i < |xs| && keep(xs[i]) && f(xs[i]) == y {
        var i :| 0 <= i < |xs| && keep(xs[i]) && f(xs[i]) == y;
        if i > 0 {
          assert xs[1..][i - 1] == xs[i];
        }
      }
    }
  }

  /** Filtering keeps the input order: the output for a concatenation is the
      concatenation of the outputs. */
  lemma {:induction false} FilterMapAppend<T, U>(xs: seq<T>, ys: seq<T>, keep: T -> bool, f: T -> U)
    ensures FilterMap(xs + ys, keep, f) == FilterMap(xs, keep, f) + FilterMap(ys, keep, f)
  {
    if |xs| > 0 {
      assert (xs + ys)[1..] == xs[1..] + ys;
      FilterMapAppend(xs[1..], ys, keep, f);
    } else {
      assert xs + ys == ys;
    }
  }

  // ---------------------------------------------------------------- pages

  /** The page's label (`displayLabel`) or one of its keywords contains the lower-cased query. */
  predicate PageMatches(p: Page, q: string) {
    Contains(Lower(p.displayLabel), q) || exists k :: 0 <= k < |p.keywords| && Contains(Lower(p.keywords[k]), q)
  }

  function PageCategory(name: string): (c: string)
    ensures c == "Legacy" <==> name in {"hall-of-fame", "league-history", "records"}
    ensures c == "Team" <==> name == "credits"
    ensures c == "System" <==> name !in {"hall-of-fame", "league-history", "records", "credits"}
  {
    if name == "hall-of-fame" || name == "league-history" || name == "records" then "Legacy"
    else if name == "credits" then "Team"
    else "System"
  }

  function PageItem(p: Page): ResultItem {
    ResultItem(p.displayLabel, p.name, PageResult, "page-" + p.name, PageCategory(p.name))
  }

  function MatchedPages(pages: seq<Page>, q: string): seq<ResultItem> {
    FilterMap(pages, p => PageMatches(p, q), PageItem)
  }

  // -------------------------------------------------------------- players

  predicate PlayerMatches(p: Player, q: string) {
    Contains(Lower(p.name), q)
  }

  function PlayerItem(p: Player): ResultItem {
    ResultItem(p.name, "player-" + p.slug, PlayerResult, "player-" + p.slug, "Legend")
  }

  function MatchedPlayers(players: seq<Player>, q: string): seq<ResultItem> {
    FilterMap(players, p => PlayerMatches(p, q), PlayerItem)
  }

  // -------------------------------------------------------------- records

  predicate RecordMatches(item: RecordItem, q: string) {
    Contains(Lower(item.title), q) || Contains(Lower(item.valueLabel), q)
  }

  function RecordResultItem(item: RecordItem, sectionTitle: string): ResultItem {
    ResultItem(item.title, "records", RecordResult, "record-" + item.id, sectionTitle)
  }

  function MatchedInSection(section: RecordSection, q: string): seq<ResultItem> {
    FilterMap(section.items, item => RecordMatches(item, q), item => RecordResultItem(item, section.title))
  }

  /** `sections.flatMap(...)`: the matching items section by section. */
  function MatchedRecords(sections: seq<RecordSection>, q: string): seq<ResultItem> {
    if |sections| == 0 then [] else MatchedInSection(sections[0], q) + MatchedRecords(sections[1..], q)
  }

  /** A record result is produced exactly for a matching item of some
      section, and carries that section's title as its category. */
  lemma {:induction false} MatchedRecordsMember(sections: seq<RecordSection>, q: string, y: ResultItem)
    ensures y in MatchedRecords(sections, q) <==>
      exists s, j :: 0 <= s < |sections| && 0 <= j < |sections[s].items|
        && RecordMatches(sections[s].items[j], q) && y == RecordResultItem(sections[s].items[j], sections[s].title)
  {
    if |sections| > 0 {
      var head := sections[0];
      MatchedRecordsMember(sections[1..], q, y);
      FilterMapMember(head.items, item => RecordMatches(item, q), item => RecordResultItem(item, head.title), y);
      var rest := sections[1..];
      if exists s, j :: (0 <= s < |rest| && 0 <= j < |rest[s].items|
          && RecordMatches(rest[s].items[j], q) && y == RecordResultItem(rest[s].items[j], rest[s].title)) {
        var s, j :| 0 <= s < |rest| && 0 <= j < |rest[s].items|
          && RecordMatches(rest[s].items[j], q) && y == RecordResultItem(rest[s].items[j], rest[s].title);
        assert sections[s + 1] == rest[s];
      }
      if exists s, j :: (0 <= s < |sections| && 0 <= j < |sections[s].items|
          && RecordMatches(sections[s].items[j], q) && y == RecordResultItem(sections[s].items[j], sections[s].title)) {
        var s, j :| 0 <= s < |sections| && 0 <= j < |sections[s].items|
          && RecordMatches(sections[s].items[j], q) && y == RecordResultItem(sections[s].items[j], sections[s].title);
        if s > 0 {
          assert rest[s - 1] == sections[s];
        }
      }
    }
  }

  /** Record results follow catalog order across sections. */
  lemma {:induction false} MatchedRecordsAppend(xs: seq<RecordSection>, ys: seq<RecordSection>, q: string)
    ensures MatchedRecords(xs + ys, q) == MatchedRecords(xs, q) + MatchedRecords(ys, q)
  {
    if |xs| > 0 {
      assert (xs + ys)[1..] == xs[1..] + ys;
      MatchedRecordsAppend(xs[1..], ys, q);
    } else {
      assert xs + ys == ys;
    }
  }

  // --------------------------------------------------------------- search

  function GroupIf(name: GroupName, items: seq<ResultItem>): seq<Group> {
    if |items| > 0 then [Group(name, items)] else []
  }

  /** The items of the group called `name`, or none when it is absent. */
  function ItemsOf(groups: seq<Group>, name: GroupName): seq<ResultItem> {
    if |groups| == 0 then []
    else if groups[0].group == name then groups[0].items
    else ItemsOf(groups[1..], name)
  }

  /** `results.flatMap(g => g.items)` */
  function Flatten(groups: seq<Group>): seq<ResultItem> {
    if |groups| == 0 then [] else groups[0].items + Flatten(groups[1..])
  }

  /** `searchResults` / `results`: nothing for a blank query; otherwise the
      non-empty groups in the order Pages, Records, Players. Matching uses
      the lower-cased query as typed, surrounding spaces included. */
  function SearchGroups(cat: Catalog, query: string): (r: seq<Group>)
    ensures IsBlank(query) ==> r == []
    ensures forall i :: 0 <= i < |r| ==> |r[i].items| > 0
    ensures forall i, j :: 0 <= i < j < |r| ==> Rank(r[i].group) < Rank(r[j].group)
    ensures !IsBlank(query) ==>
      ItemsOf(r, Pages) == MatchedPages(cat.pages, Lower(query))
      && ItemsOf(r, Records) == MatchedRecords(cat.records, Lower(query))
      && ItemsOf(r, Players) == MatchedPlayers(cat.players, Lower(query))
    ensures Flatten(r) == ItemsOf(r, Pages) + ItemsOf(r, Records) + ItemsOf(r, Players)
  {
    if IsBlank(query) then []
    else
      var q := Lower(query);
      var pages := MatchedPages(cat.pages, q);
      var records := MatchedRecords(cat.records, q);
      var players := MatchedPlayers(cat.players, q);
      var r := GroupIf(Pages, pages) + GroupIf(Records, records) + GroupIf(Players, players);
      GroupsOrdered(pages, records, players);
      r
  }

  lemma GroupsOrdered(pages: seq<ResultItem>, records: seq<ResultItem>, players: seq<ResultItem>)
    ensures var r := GroupIf(Pages, pages) + GroupIf(Records, records) + GroupIf(Players, players);
      ItemsOf(r, Pages) == pages && ItemsOf(r, Records) == records && ItemsOf(r, Players) == players
      && Flatten(r) == pages + records + players
  {
    var r := GroupIf(Pages, pages) + GroupIf(Records, records) + GroupIf(Players, players);
    var tail := GroupIf(Records, records) + GroupIf(Players, players);
    var last := GroupIf(Players, players);
    assert ItemsOf(last, Players) == players;
    assert Flatten(last) == players;
    assert ItemsOf(last, Records) == [] && ItemsOf(last, Pages) == [];
    if |records| > 0 {
      assert tail[1..] == last;
    } else {
      assert tail == last;
    }
    assert Flatten(tail) == records + players;
    assert ItemsOf(tail, Records) == records;
    assert ItemsOf(tail, Players) == players;
    assert ItemsOf(tail, Pages) == [];
    if |pages| > 0 {
      assert r[1..] == tail;
    } else {
      assert r == tail;
    }
  }

  /** Groups that all hold items flatten to nothing only when there are none. */
  lemma FlattenEmptyIff(groups: seq<Group>)
    requires forall i :: 0 <= i < |groups| ==> |groups[i].items| > 0
    ensures Flatten(groups) == [] <==> groups == []
  {
    if groups != [] {
      assert |groups[0].items| > 0;
    }
  }

  /** The flattened results, over which the cursor moves. */
  function FlatResults(cat: Catalog, query: string): seq<ResultItem> {
    Flatten(SearchGroups(cat, query))
  }

  /** A group is shown exactly when it has at least one match. */
  lemma GroupPresentIff(cat: Catalog, query: string, name: GroupName)
    ensures (exists i :: 0 <= i < |SearchGroups(cat, query)| && SearchGroups(cat, query)[i].group == name)
      <==> |ItemsOf(SearchGroups(cat, query), name)| > 0
  {
    var r := SearchGroups(cat, query);
    ItemsOfPresent(r, name);
  }

  lemma {:induction false} ItemsOfPresent(groups: seq<Group>, name: GroupName)
    requires forall i :: 0 <= i < |groups| ==> |groups[i].items| > 0
    ensures (exists i :: 0 <= i < |groups| && groups[i].group == name) <==> |ItemsOf(groups, name)| > 0
  {
    if |groups| > 0 && groups[0].group != name {
      ItemsOfPresent(groups[1..], name);
      if exists i :: 0 <= i < |groups| && groups[i].group == name {
        var i :| 0 <= i < |groups| && groups[i].group == name;
        assert groups[1..][i - 1] == groups[i];
      }
    }
  }

  /** What the search offers, item by item: a non-blank query yields a page
      entry for each page whose label or keyword matches, a record entry for
      each matching record item, and a player entry for each matching
      player, and nothing else. */
  lemma SearchMember(cat: Catalog, query: string, y: ResultItem)
    ensures y in FlatResults(cat, query) <==> (!IsBlank(query) && (
      (exists i :: 0 <= i < |cat.pages| && PageMatches(cat.pages[i], Lower(query)) && PageItem(cat.pages[i]) == y)
      || (exists s, j :: 0 <= s < |cat.records| && 0 <= j < |cat.records[s].items|
           && RecordMatches(cat.records[s].items[j], Lower(query))
           && y == RecordResultItem(cat.records[s].items[j], cat.records[s].title))
      || (exists i :: 0 <= i < |cat.players| && PlayerMatches(cat.players[i], Lower(query)) && PlayerItem(cat.players[i]) == y)))
  {
    var q := Lower(query);
    FilterMapMember(cat.pages, p => PageMatches(p, q), PageItem, y);
    FilterMapMember(cat.players, p => PlayerMatches(p, q), PlayerItem, y);
    MatchedRecordsMember(cat.records, q, y);
  }

  /** Results keep catalog order: extending a catalog appends its new
      matches after the old ones within each group. */
  lemma SearchCatalogOrder(pages: seq<Page>, morePages: seq<Page>, players: seq<Player>, morePlayers: seq<Player>,
                           records: seq<RecordSection>, moreRecords: seq<RecordSection>, query: string)
    requires !IsBlank(query)
    ensures var r := SearchGroups(Catalog(pages + morePages, players + morePlayers, records + moreRecords), query);
      var q := Lower(query);
      ItemsOf(r, Pages) == MatchedPages(pages, q) + MatchedPages(morePages, q)
      && ItemsOf(r, Records) == MatchedRecords(records, q) + MatchedRecords(moreRecords, q)
      && ItemsOf(r, Players) == MatchedPlayers(players, q) + MatchedPlayers(morePlayers, q)
  {
    var q := Lower(query);
    FilterMapAppend(pages, morePages, p => PageMatches(p, q), PageItem);
    FilterMapAppend(players, morePlayers, p => PlayerMatches(p, q), PlayerItem);
    MatchedRecordsAppend(records, moreRecords, q);
  }

  // --------------------------------------------------------------- cursor

  /** ArrowDown: `(i + 1) % n` */
  function CursorDown(i: nat, n: nat): (r: nat)
    requires i < n
    ensures r < n
    ensures r == if i == n - 1 then 0 else i + 1
  {
    (i + 1) % n
  }

  /** ArrowUp: `(i - 1 + n) % n` */
  function CursorUp(i: nat, n: nat): (r: nat)
    requires i < n
    ensures r < n
    ensures r == if i == 0 then n - 1 else i - 1
  {
    (i - 1 + n) % n
  }

  /** The two arrows undo each other. */
  lemma CursorUpDown(i: nat, n: nat)
    requires i < n
    ensures CursorUp(CursorDown(i, n), n) == i
    ensures CursorDown(CursorUp(i, n), n) == i
  {
  }

  // -------------------------------------------------------------- display

  datatype Display = Hint | ResultList | NoMatches

  /** What the results area shows. */
  function DisplayFor(query: string, groups: seq<Group>): (d: Display)
    ensures d == Hint <==> IsBlank(query)
    ensures d == ResultList <==> !IsBlank(query) && |groups| > 0
    ensures d == NoMatches <==> !IsBlank(query) && |groups| == 0
  {
    if IsBlank(query) then Hint else if |groups| > 0 then ResultList else NoMatches
  }

  /** "No matches" is shown exactly when the query is not blank and no page,
      record or player matches it. */
  lemma NoMatchesIff(cat: Catalog, query: string)
    ensures DisplayFor(query, SearchGroups(cat, query)) == NoMatches <==>
      !IsBlank(query) && MatchedPages(cat.pages, Lower(query)) == []
      && MatchedRecords(cat.records, Lower(query)) == [] && MatchedPlayers(cat.players, Lower(query)) == []
  {
    var r := SearchGroups(cat, query);
    if !IsBlank(query) && |r| == 0 {
      assert ItemsOf(r, Pages) == [] && ItemsOf(r, Records) == [] && ItemsOf(r, Players) == [];
    }
    if !IsBlank(query) && |r| > 0 {
      assert |r[0].items| > 0;
      assert |Flatten(r)| > 0;
    }
  }
}
