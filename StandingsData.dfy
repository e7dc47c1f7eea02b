/** The team tables (data/standings.ts) the schedule, the standings and the
    settings modal read. */
module StandingsData {
  import opened Wrappers

  /** `teamShortNames`, in the order the object literal lists its keys. */
  const TeamShortNames: seq<(string, string)> := [
    ("Oklahoma City Thunder", "Thunder"),
    ("Los Angeles Lakers", "Lakers"),
    ("Los Angeles Clippers", "Clippers"),
    ("Minnesota Timberwolves", "Timberwolves"),
    ("Denver Nuggets", "Nuggets"),
    ("Dallas Mavericks", "Mavericks"),
    ("Miami Heat", "Heat"),
    ("Chicago Bulls", "Bulls"),
    ("Boston Celtics", "Celtics"),
    ("Milwaukee Bucks", "Bucks"),
    ("Toronto Raptors", "Raptors"),
    ("Orlando Magic", "Magic"),
    ("Memphis Grizzlies", "Grizzlies"),
    ("Atlanta Hawks", "Hawks")
  ]

  /** `Object.keys(teamShortNames)` */
  function TeamNames(): seq<string> {
    seq(|TeamShortNames|, i requires 0 <= i < |TeamShortNames| => TeamShortNames[i].0)
  }

  /** `teamShortNames[team]`, `None` standing for `undefined`. */
  function ShortNameOf(table: seq<(string, string)>, team: string): (r: Option<string>)
    ensures r.None? <==> forall i :: 0 <= i < |table| ==> table[i].0 != team
    ensures r.Some? ==> exists i :: 0 <= i < |table| && table[i] == (team, r.value)
  {
    if |table| == 0 then None
    else if table[0].0 == team then Some(table[0].1)
    else ShortNameOf(table[1..], team)
  }

  datatype Standing = Standing(rank: nat, team: string, w: nat, l: nat, gb: string)

  const WesternStandings: seq<Standing> := [
    Standing(1, "Los Angeles Clippers", 9, 0, "0"),
    Standing(2, "Dallas Mavericks", 7, 2, "2.0"),
    Standing(3, "Denver Nuggets", 5, 4, "4.0"),
    Standing(4, "Los Angeles Lakers", 4, 5, "5.0"),
    Standing(5, "Memphis Grizzlies", 2, 6, "6.5"),
    Standing(6, "Minnesota Timberwolves", 1, 7, "7.5"),
    Standing(7, "Oklahoma City Thunder", 0, 9, "9.0")
  ]

  const EasternStandings: seq<Standing> := [
    Standing(1, "Chicago Bulls", 6, 2, "0"),
    Standing(2, "Milwaukee Bucks", 7, 3, "0"),
    Standing(3, "Toronto Raptors", 6, 3, "0.5"),
    Standing(4, "Orlando Magic", 5, 3, "1.0"),
    Standing(5, "Boston Celtics", 4, 5, "2.5"),
    Standing(6, "Miami Heat", 3, 5, "3.0"),
    Standing(7, "Atlanta Hawks", 2, 7, "4.5")
  ]
}
