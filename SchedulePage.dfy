/** The schedule page (components/SchedulePage.tsx): the list of open weeks
    with its toggle, the favourite-game test, and the way a matchup line is
    split into its two sides, each highlighted and shortened on its own. */
module SchedulePage {
  import opened Wrappers
  import opened JsStrings
  import StandingsData

  // ------------------------------------------------------------ open weeks

  /** The weeks open when the page mounts. */
  const InitialOpenWeeks: seq<int> := [6]

  predicate NoDuplicates(s: seq<int>) {
    forall i, j :: 0 <= i < j < |s| ==> s[i] != s[j]
  }

  /** `prev.filter(w => w !== week)` */
  function Without(s: seq<int>, week: int): (r: seq<int>)
    ensures forall x :: x in r <==> x in s && x != week
    ensures |r| <= |s|
    ensures NoDuplicates(s) ==> NoDuplicates(r)
  {
    if s == [] then []
    else if s[0] == week then Without(s[1..], week)
    else
      var rest := Without(s[1..], week);
      assert NoDuplicates(s) ==> s[0] !in rest by {
        assert NoDuplicates(s) ==> forall k :: 0 <= k < |s[1..]| ==> s[1..][k] != s[0];
      }
      assert forall j :: 0 <= j < |rest| ==> ([s[0]] + rest)[j + 1] == rest[j];
      [s[0]] + rest
  }

  /** The list `toggleWeek` leaves behind: the week removed when it is
      open, appended when it is not. */
  function Toggled(s: seq<int>, week: int): (r: seq<int>)
    ensures week in r <==> week !in s
    ensures forall x :: x != week ==> (x in r <==> x in s)
    ensures NoDuplicates(s) ==> NoDuplicates(r)
  {
    if week in s then Without(s, week) else s + [week]
  }

  /** Toggling the same week twice gives back the same open weeks (the
      list order may differ: a reopened week goes to the end). */
  lemma ToggleTwice(s: seq<int>, week: int)
    ensures forall x :: x in Toggled(Toggled(s, week), week) <==> x in s
  {
  }

  /** The page's `openWeeks` state cell. */
  class Schedule {
    var openWeeks: seq<int>

    predicate Valid()
      reads this
    {
      NoDuplicates(openWeeks)
    }

    constructor ()
      ensures openWeeks == InitialOpenWeeks
      ensures Valid()
    {
      openWeeks := InitialOpenWeeks;
    }

    /** A week's games are drawn exactly while the week is open. */
    predicate IsOpen(week: int)
      reads this
    {
      week in openWeeks
    }

    /** `toggleWeek`: flips this week and no other. */
    method ToggleWeek(week: int)
      requires Valid()
      modifies this
      ensures Valid()
      ensures openWeeks == Toggled(old(openWeeks), week)
      ensures IsOpen(week) <==> !old(IsOpen(week))
      ensures forall x :: x != week ==> (IsOpen(x) <==> old(IsOpen(x)))
    {
      if week in openWeeks {
        openWeeks := Without(openWeeks, week);
      } else {
        openWeeks := openWeeks + [week];
      }
    }
  }

  // -------------------------------------------------------------- matchups

  const Separator := " @ "

  /** `isFavoriteGame`: no favourite highlights nothing; otherwise the
      favourite's name must occur in the matchup line. */
  function IsFavoriteGame(favoriteTeam: string, matchup: string): (r: bool)
    ensures r <==> favoriteTeam != "" && exists j: nat :: OccursAt(matchup, favoriteTeam, j)
  {
    ContainsIff(matchup, favoriteTeam);
    if favoriteTeam == "" then false else Contains(matchup, favoriteTeam)
  }

  /** The two names `matchup.split(' @ ')` destructures; `home` is `None`
      (`undefined`) when the line has no separator. */
  datatype Matchup = Matchup(away: string, home: Option<string>)

  function SplitMatchup(matchup: string): (m: Matchup)
    ensures m.home.None? <==> !Contains(matchup, Separator)
    ensures m.home.None? ==> m.away == matchup
    ensures !Contains(m.away, Separator)
    ensures OccursAt(matchup, m.away, 0)
    ensures m.home.Some? ==>
      !Contains(m.home.value, Separator) && OccursAt(matchup, m.home.value, |m.away| + |Separator|)
    ensures IsFirstPiece(matchup, Separator, m.away)
    ensures m.home.Some? ==>
      |m.away| + |Separator| <= |matchup|
      && IsFirstPiece(matchup[|m.away| + |Separator|..], Separator, m.home.value)
  {
    var (away, home) := SplitTwo(matchup, Separator);
    Matchup(away, home)
  }

  /** Names without an `@` survive being joined into a matchup line and
      split again. */
  lemma SplitMatchupRoundTrip(away: string, home: string)
    requires '@' !in away && '@' !in home
    ensures SplitMatchup(away + Separator + home) == Matchup(away, Some(home))
  {
    NoSeparatorWithoutAt(home);
    SeparatorFirstAfter(away, home);
    SplitTwoOf(away, home, Separator);
  }

  /** Only the first two names of a line with more separators are taken. */
  lemma SplitMatchupTakesFirstTwo(away: string, home: string, more: string)
    requires '@' !in away && '@' !in home
    ensures SplitMatchup(away + Separator + home + Separator + more) == Matchup(away, Some(home))
  {
    var s := away + Separator + home + Separator + more;
    var tail := home + Separator + more;
    assert s == away + Separator + tail;
    SeparatorFirstAfter(away, tail);
    SeparatorFirstAfter(home, more);
    var m := SplitMatchup(s);
    assert m.away == s[..|away|] == away;
    assert s[|away| + |Separator|..] == tail;
    assert m.home.value == tail[..|home|] == home;
  }

  /** In `away + " @ " + rest`, with no `@` in `away`, the separator is
      first found right after `away`. */
  lemma SeparatorFirstAfter(away: string, rest: string)
    requires '@' !in away
    ensures IndexOf(away + Separator + rest, Separator) == Some(|away|)
  {
    var s := away + Separator + rest;
    assert OccursAt(s, Separator, |away|) by {
      assert s[|away|..|away| + 3] == Separator;
    }
    forall j: nat | j < |away| ensures !OccursAt(s, Separator, j) {
      if j + 3 <= |s| {
        if j + 1 < |away| {
          assert s[j + 1] == away[j + 1];
        }
        assert s[j..j + 3][1] != Separator[1];
      }
    }
  }

  /** A name without `@` cannot hold the separator. */
  lemma NoSeparatorWithoutAt(t: string)
    requires '@' !in t
    ensures !Contains(t, Separator)
  {
    forall j: nat ensures !OccursAt(t, Separator, j) {
      if j + 3 <= |t| {
        assert t[j..j + 3][1] == t[j + 1];
      }
    }
  }

  /** A side is drawn in the accent colour when it is the favourite, by
      exact comparison (an absent side never is). */
  predicate SideHighlighted(favoriteTeam: string, side: Option<string>) {
    side == Some(favoriteTeam)
  }

  /** A highlighted side with a favourite set always sits in a highlighted
      game. */
  lemma HighlightedSideInFavoriteGame(favoriteTeam: string, matchup: string)
    requires favoriteTeam != ""
    requires SideHighlighted(favoriteTeam, Some(SplitMatchup(matchup).away))
      || SideHighlighted(favoriteTeam, SplitMatchup(matchup).home)
    ensures IsFavoriteGame(favoriteTeam, matchup)
  {
    var m := SplitMatchup(matchup);
    if m.away == favoriteTeam {
      assert OccursAt(matchup, favoriteTeam, 0);
    } else {
      assert OccursAt(matchup, favoriteTeam, |m.away| + |Separator|);
    }
  }

  /** The mobile label `teamShortNames[side] || side`: the short name when
      the table has a non-empty one, the name itself otherwise. */
  function ShortLabel(side: Option<string>): (r: Option<string>)
    ensures side.None? <==> r.None?
    ensures side.Some? ==>
      match StandingsData.ShortNameOf(StandingsData.TeamShortNames, side.value)
      case Some(short) => r == Some(if short != "" then short else side.value)
      case None => r == side
  {
    match side
    case None => None
    case Some(team) =>
      match StandingsData.ShortNameOf(StandingsData.TeamShortNames, team)
      case Some(short) => if short != "" then Some(short) else side
      case None => side
  }

  /** A team missing from the table is shown under its full name. */
  lemma ShortLabelFallback(team: string)
    requires forall i :: 0 <= i < |StandingsData.TeamShortNames| ==> StandingsData.TeamShortNames[i].0 != team
    ensures ShortLabel(Some(team)) == Some(team)
  {
  }
}
