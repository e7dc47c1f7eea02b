/** The page shell every tab other than home is drawn in
    (components/TabPage.tsx): its own parent-tab table, the back button's
    target and label, the content lookup with its fallback, the menu-card
    click rule, and the choice of the view that fills the page. */
module TabPage {
  import opened Wrappers
  import opened JsStrings
  import opened ContentData
  import opened SettingsContext
  import Navbar

  // ------------------------------------------------------------ parent tab

  const ParentMap: map<string, string> := map[
    "partner-hub" := "more",
    "rules" := "more",
    "credits" := "more",
    "records" := "legacy",
    "hall-of-fame" := "legacy",
    "league-history" := "more"]

  /** This file's `getParentTab`, which has no entry for `unknown`. */
  function ParentTab(tabId: string): (r: string)
    ensures tabId in {"partner-hub", "rules", "credits", "league-history"} ==> r == "more"
    ensures tabId in {"records", "hall-of-fame"} ==> r == "legacy"
    ensures tabId !in {"partner-hub", "rules", "credits", "league-history", "records", "hall-of-fame"} ==> r == tabId
  {
    if tabId in ParentMap then ParentMap[tabId] else tabId
  }

  /** The navigation bar's table and this one disagree on `unknown` only. */
  lemma ParentTablesDifferOnlyOnUnknown(tabId: string)
    ensures ParentTab(tabId) == Navbar.ParentTab(tabId) <==> tabId != "unknown"
  {
  }

  // ------------------------------------------------------------ back button

  const SubPages: seq<string> := ["partner-hub", "rules", "hall-of-fame", "league-history", "credits", "records"]

  const LegacySubPages: seq<string> := ["hall-of-fame", "records"]

  predicate IsSubPage(tabId: string) {
    tabId in SubPages
  }

  /** Where the back button leads: a tab for `onTabChange`, or `onBack`. */
  datatype BackAction = GoToTab(tab: string) | CallOnBack

  /** `handleBackNavigation`; without `onTabChange` every page falls back
      to `onBack`. */
  function BackNavigation(tabId: string, hasOnTabChange: bool): (a: BackAction)
    ensures a == GoToTab("legacy") <==> hasOnTabChange && tabId in {"hall-of-fame", "records"}
    ensures a == GoToTab("more") <==> hasOnTabChange && tabId in {"partner-hub", "rules", "league-history", "credits"}
    ensures a == CallOnBack <==> !hasOnTabChange || !IsSubPage(tabId)
    ensures a.GoToTab? ==> a.tab in {"legacy", "more"}
  {
    if tabId in LegacySubPages && hasOnTabChange then GoToTab("legacy")
    else if IsSubPage(tabId) && hasOnTabChange then GoToTab("more")
    else CallOnBack
  }

  /** The back button's caption. */
  function BackLabel(tabId: string): (s: string)
    ensures s == "legacy" <==> IsSubPage(tabId) && ParentTab(tabId) == "legacy"
    ensures s == "more" <==> IsSubPage(tabId) && ParentTab(tabId) != "legacy"
    ensures s == "home" <==> !IsSubPage(tabId)
  {
    if IsSubPage(tabId) then (if ParentTab(tabId) == "legacy" then "legacy" else "more") else "home"
  }

  /** The caption names where the button goes: the parent tab of a
      sub-page, and home (where the app's `onBack` leads) otherwise. */
  lemma BackLabelNamesTarget(tabId: string)
    ensures BackNavigation(tabId, true) == (if BackLabel(tabId) == "home" then CallOnBack else GoToTab(BackLabel(tabId)))
    ensures IsSubPage(tabId) ==> BackLabel(tabId) == ParentTab(tabId)
  {
  }

  // --------------------------------------------------------------- content

  const FallbackDescription := "Information regarding this section is currently being updated."

  /** `getPageContent`: the tab's entry, or a generated page titled with the
      tab id's first letter upper-cased. */
  function PageContent(tabId: string): (c: TabContent)
    ensures tabId in ContentMap ==> c == ContentMap[tabId]
    ensures tabId !in ContentMap ==>
      c.title == CapitalizeFirst(tabId) && c.description == FallbackDescription && c.items == []
  {
    if tabId in ContentMap then ContentMap[tabId]
    else TabContent(CapitalizeFirst(tabId), FallbackDescription, [])
  }

  // ------------------------------------------------------------ card click

  const SlugMap: map<string, string> := map[
    "rules" := "rules",
    "hall of fame" := "hall-of-fame",
    "history" := "league-history",
    "credits" := "credits",
    "records" := "records"]

  const ValidTabs: seq<string> := [
    "standings", "schedule", "stats", "legacy", "rules", "more", "partner-hub",
    "hall-of-fame", "league-history", "credits", "records"]

  /** The tab a card label names: its slug, or the lower-cased label itself. */
  function LabelTarget(displayLabel: string): (t: string)
    ensures Lower(displayLabel) in SlugMap ==> t == SlugMap[Lower(displayLabel)]
    ensures Lower(displayLabel) !in SlugMap ==> t == Lower(displayLabel)
  {
    var key := Lower(displayLabel);
    if key in SlugMap then SlugMap[key] else key
  }

  /** `handleItemClick`: the tab handed to `onTabChange`, if any. Only a
      target on the whitelist is followed. */
  function ItemClick(displayLabel: string, hasOnTabChange: bool): (r: Option<string>)
    ensures r.Some? <==> hasOnTabChange && LabelTarget(displayLabel) in ValidTabs
    ensures r.Some? ==> r.value == LabelTarget(displayLabel) && r.value in ValidTabs
  {
    var target := LabelTarget(displayLabel);
    if hasOnTabChange && target in ValidTabs then Some(target) else None
  }

  /** The tabs whose pages list menu cards. */
  lemma OnlyMenuTabsHaveCards(tabId: string)
    requires tabId in ContentMap && ContentMap[tabId].items != []
    ensures tabId in {"legacy", "more", "partner-hub"}
  {
  }

  /** What a click on a card does: nothing for a placeholder or on the
      partner hub, otherwise a sub-page of the tab showing it. */
  predicate ClickStaysUnderTab(tabId: string, item: TabItem) {
    var r := ItemClick(item.displayLabel, true);
    (r.None? <==> item.displayLabel == "n/a" || tabId == "partner-hub")
    && (r.Some? ==> IsSubPage(r.value) && ParentTab(r.value) == tabId)
  }

  lemma LegacyCardOutcome(item: TabItem)
    requires item in ContentMap["legacy"].items
    ensures ClickStaysUnderTab("legacy", item)
  {
    assert Lower("Hall of Fame") == "hall of fame";
    assert Lower("Records") == "records";
  }

  lemma MoreCardOutcome(item: TabItem)
    requires item in ContentMap["more"].items
    ensures ClickStaysUnderTab("more", item)
  {
    assert Lower("History") == "history";
    assert Lower("Rules") == "rules";
    assert Lower("Credits") == "credits";
    assert Lower("n/a") == "n/a";
  }

  lemma PartnerCardOutcome(item: TabItem)
    requires item in ContentMap["partner-hub"].items
    ensures ClickStaysUnderTab("partner-hub", item)
  {
    assert Lower("Sponsor Portal") == "sponsor portal";
    assert Lower("Brand Assets") == "brand assets";
  }

  /** Every menu card of the content table either leads to a sub-page of
      the tab showing it, or (the "n/a" placeholders and the partner-hub
      cards) leads nowhere. */
  lemma MenuCardsLeadToSubPages()
    ensures forall tabId, item :: tabId in ContentMap && item in ContentMap[tabId].items ==>
      var r := ItemClick(item.displayLabel, true);
      (r.None? <==> item.displayLabel == "n/a" || tabId == "partner-hub")
      && (r.Some? ==> IsSubPage(r.value) && ParentTab(r.value) == tabId)
  {
    forall tabId, item | tabId in ContentMap && item in ContentMap[tabId].items
      ensures var r := ItemClick(item.displayLabel, true);
        (r.None? <==> item.displayLabel == "n/a" || tabId == "partner-hub")
        && (r.Some? ==> IsSubPage(r.value) && ParentTab(r.value) == tabId)
    {
      OnlyMenuTabsHaveCards(tabId);
      if tabId == "legacy" {
        LegacyCardOutcome(item);
      } else if tabId == "more" {
        MoreCardOutcome(item);
      } else {
        PartnerCardOutcome(item);
      }
    }
  }

  // ------------------------------------------------------------------ view

  /** The component `renderContent` puts under the header; the menu pages
      receive the tab's cards. */
  datatype View =
    | HallOfFameView
    | LegacyView(items: seq<TabItem>)
    | RulesView
    | StandingsView
    | ScheduleView
    | StatsView
    | CreditsView
    | RecordsView
    | HistoryView
    | MoreView(items: seq<TabItem>)
    | MenuGridView(items: seq<TabItem>)

  const DedicatedTabs: set<string> :=
    {"hall-of-fame", "legacy", "rules", "standings", "schedule", "stats", "credits", "records", "league-history", "more"}

  /** `renderContent` */
  function RenderContent(tabId: string): (v: View)
    ensures v.MenuGridView? <==> tabId !in DedicatedTabs
    ensures v.LegacyView? <==> tabId == "legacy"
    ensures v.MoreView? <==> tabId == "more"
    ensures v == HallOfFameView <==> tabId == "hall-of-fame"
    ensures v == RecordsView <==> tabId == "records"
    ensures v == RulesView <==> tabId == "rules"
    ensures v == StandingsView <==> tabId == "standings"
    ensures v == ScheduleView <==> tabId == "schedule"
    ensures v == StatsView <==> tabId == "stats"
    ensures v == CreditsView <==> tabId == "credits"
    ensures v == HistoryView <==> tabId == "league-history"
    ensures v.LegacyView? || v.MoreView? || v.MenuGridView? ==> v.items == PageContent(tabId).items
  {
    var items := PageContent(tabId).items;
    if tabId == "hall-of-fame" then HallOfFameView
    else if tabId == "legacy" then LegacyView(items)
    else if tabId == "rules" then RulesView
    else if tabId == "standings" then StandingsView
    else if tabId == "schedule" then ScheduleView
    else if tabId == "stats" then StatsView
    else if tabId == "credits" then CreditsView
    else if tabId == "records" then RecordsView
    else if tabId == "league-history" then HistoryView
    else if tabId == "more" then MoreView(items)
    else MenuGridView(items)
  }

  // --------------------------------------------------------------- palette

  /** The page asks for the gold palette exactly on the Hall of Fame tab. */
  function PagePalette(s: Settings, tabId: string): (c: ThemeColors)
    ensures c == GetThemeColors(s, tabId == "hall-of-fame")
    ensures !s.rahBizzyTheme ==> (c == GoldPalette <==> tabId == "hall-of-fame")
  {
    GetThemeColors(s, tabId == "hall-of-fame")
  }
}
