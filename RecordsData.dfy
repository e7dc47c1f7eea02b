/** The record book (data/records.tsx): seven sections of record items. The
    section icons are markup and are not part of this model. */
module RecordsData {
  import opened Wrappers

  datatype RecordItem = RecordItem(
    id: string,
    title: string,
    valueLabel: string,
    value: string,
    holder: string,
    context: Option<string>,
    team: Option<string>)

  datatype RecordSection = RecordSection(id: string, title: string, items: seq<RecordItem>)

  function Item(id: string, title: string, valueLabel: string, value: string, holder: string): RecordItem {
    RecordItem(id, title, valueLabel, value, holder, None, None)
  }

  function ItemWithContext(id: string, title: string, valueLabel: string, value: string, holder: string, context: string): RecordItem {
    RecordItem(id, title, valueLabel, value, holder, Some(context), None)
  }

  const GameSection :=
    RecordSection("game", "Game Records", [
      Item("game-pts", "Most points in a game", "PTS", "163", "Dre"),
      Item("game-ast", "Most assists in a game", "AST", "55", "Chicken"),
      ItemWithContext("game-reb", "Most rebounds in a game", "REB", "11", "Rah", "achieved 2x"),
      ItemWithContext("game-stl", "Most steals in a game", "STL", "15", "Rah", "achieved 2x")])

  const SeasonTotalsSection :=
    RecordSection("season-totals", "Season Records (Totals)", [
      ItemWithContext("season-pts", "Most points in a season", "PTS", "689+", "Soulz", "and counting"),
      Item("season-ast", "Most assists in a season", "AST", "253", "Marsh"),
      Item("season-reb", "Most rebounds in a season", "REB", "40", "Phattie"),
      Item("season-stl", "Most steals in a season", "STL", "74", "Marsh")])

  const SeasonAvgsSection :=
    RecordSection("season-avgs", "Season Records (Averages)", [
      ItemWithContext("avg-ppg", "Highest PPG in a season", "PPG", "86.1+", "Soulz", "and counting"),
      ItemWithContext("avg-apg", "Highest APG in a season", "APG", "28.1+", "Dre", "and counting"),
      ItemWithContext("avg-rpg", "Highest RPG in a season", "RPG", "4.8+", "Rah", "and counting"),
      ItemWithContext("avg-spg", "Highest SPG in a season", "SPG", "6.5+", "Doge", "and counting")])

  const CareerTotalsSection :=
    RecordSection("career-totals", "Career Records (Totals)", [
      ItemWithContext("career-pts", "Most points in career", "PTS", "4,000+", "Soulz", "and counting"),
      ItemWithContext("career-ast", "Most assists in career", "AST", "1,180+", "Ghost", "and counting"),
      ItemWithContext("career-reb", "Most rebounds in career", "REB", "254+", "Ghost", "and counting"),
      Item("career-stl", "Most steals in career", "STL", "365", "Marsh")])

  const CareerAdvSection :=
    RecordSection("career-adv", "Career Records (Advanced)", [
      Item("adv-eff", "Highest career efficiency", "EFF", "381.8", "Ghost"),
      Item("adv-off", "Highest career offensive impact", "O-IMP", "312.2", "Ghost"),
      Item("adv-def", "Highest career defensive impact", "D-IMP", "87.6", "Marsh")])

  const AwardsSection :=
    RecordSection("awards", "Awards / Titles", [
      Item("awd-rings", "Most championship rings", "RINGS", "5x", "Pansho"),
      Item("awd-mvp", "Most MVP awards", "MVP", "N/A", "N/A"),
      Item("awd-fmvp", "Most FMVP awards", "FMVP", "2x", "Pansho & Tend"),
      Item("awd-opoty", "Most OPOTY awards", "OPOTY", "3x", "Pansho"),
      Item("awd-dpoty", "Most DPOTY awards", "DPOTY", "N/A", "N/A")])

  const MiscSection :=
    RecordSection("misc", "Misc", [
      // The stored value is the three characters the file holds (a mis-decoded infinity sign).
      Item("misc-veiny", "Veiniest player award", "VEINS", "\U{00E2}\U{02C6}\U{017E}", "Dre")])

  /** `recordsData` */
  const Sections: seq<RecordSection> := [
    GameSection,
    SeasonTotalsSection,
    SeasonAvgsSection,
    CareerTotalsSection,
    CareerAdvSection,
    AwardsSection,
    MiscSection]
}
