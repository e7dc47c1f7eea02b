/** The per-tab page content (data/content.ts): a title, a description and
    the menu cards shown on the menu-style pages. */
module ContentData {

  /** A menu card; `displayLabel` is the card's `label`. */
  datatype TabItem = TabItem(displayLabel: string, category: string)

  datatype TabContent = TabContent(title: string, description: string, items: seq<TabItem>)

  /** `contentMap` */
  const ContentMap: map<string, TabContent> := map[
    "standings" := TabContent("League Standings", "current competitive landscape of the nbll.", []),
    "schedule" := TabContent("league schedule", "collapsable week-by-week matchups.", []),
    "stats" := TabContent("Player Statistics", "In-depth performance metrics and historical data.", []),
    "legacy" := TabContent("The Legacy Vault", "all players' career legacy values & more.", [
      TabItem("Hall of Fame", "Greats"),
      TabItem("Records", "History")]),
    "hall-of-fame" := TabContent("hall of fame", "celebrating the legends who defined the game.", []),
    "league-history" := TabContent("history", "the champions and heroes throughout nbll's history.", []),
    "rules" := TabContent("Rules", "League policies, gameplay settings, and enforcement.", []),
    "more" := TabContent("Discover More", "Explore the peripheral pages of the NBLL.", [
      TabItem("History", "Archives"),
      TabItem("n/a", "N/A"),
      TabItem("n/a", "N/A"),
      TabItem("n/a", "N/A"),
      TabItem("Rules", "Official"),
      TabItem("Credits", "Team")]),
    "partner-hub" := TabContent("Partner Hub", "The official network for NBLL affiliates and strategic partners.", [
      TabItem("Sponsor Portal", "Network"),
      TabItem("Brand Assets", "Media")]),
    "credits" := TabContent("credits", "the team behind the league.", []),
    "records" := TabContent("league records", "tracking the biggest single-game, season, and all-time milestones in nbll history.", [])
  ]
}
