/** The standings page (components/StandingsPage.tsx): the win-percentage
    text, the favourite and playoff styling of a row with the favourite
    taking precedence, the accent strip, the zero-padded rank and the
    playoff-cutoff divider. */
module StandingsPage {
  import opened Wrappers
  import opened JsStrings
  import opened SettingsContext
  import opened StandingsData

  // ----------------------------------------------------------- win pct

  /** `x.toFixed(3)` for a value whose rounding to thousandths is
      `thousandths / 1000`. */
  function Fixed3(thousandths: nat): string {
    PointJoin(NatToString(thousandths / 1000), PadStart(NatToString(thousandths % 1000), 3, '0'))
  }

  /** A whole part and a fraction around the decimal point. */
  function PointJoin(whole: string, fraction: string): string {
    whole + "." + fraction
  }

  /** `formatWinPct`: a team with no games reads ".000"; otherwise the
      three-decimal text loses a leading "0". `thousandths` is the rounded
      value of `w / (w + l)` that `toFixed(3)` prints. */
  function FormatWinPct(w: nat, l: nat, thousandths: nat): (r: string)
    ensures w + l == 0 ==> r == ".000"
    ensures w + l > 0 && thousandths < 1000 ==>
      |r| == 4 && r[0] == '.' && Numeral(r[1..], thousandths)
    ensures w + l > 0 && thousandths >= 1000 ==> r == Fixed3(thousandths) && r[0] != '0'
  {
    if w + l == 0 then ".000"
    else
      var pct := Fixed3(thousandths);
      FractionDigits(thousandths);
      WholeDigits(thousandths);
      assert thousandths < 1000 ==> pct[1..][1..] == pct[2..];
      if StartsWith(pct, "0") then pct[1..] else pct
  }

  /** Below one the text is "0." and three digits worth the thousandths. */
  lemma FractionDigits(thousandths: nat)
    ensures thousandths < 1000 ==> BelowOneShape(Fixed3(thousandths), thousandths)
  {
    if thousandths < 1000 {
      Fixed3BelowOne(thousandths);
      var digits := PadStart(NatToString(thousandths), 3, '0');
      PaddedFraction(thousandths);
      ZeroPoint(digits);
    }
  }

  /** "0", the decimal point, and three digits worth `n`. */
  predicate BelowOneShape(pct: string, n: nat) {
    |pct| == 5 && StartsWith(pct, "0") && pct[1] == '.' && Numeral(pct[2..], n)
  }

  /** "0." followed by `fraction`, taken apart. */
  lemma ZeroPoint(fraction: string)
    ensures var pct := PointJoin("0", fraction);
      StartsWith(pct, "0") && |pct| == |fraction| + 2 && pct[1] == '.' && pct[2..] == fraction
  {
    var pct := PointJoin("0", fraction);
    assert pct[..1] == "0";
    assert pct[2..] == fraction;
  }

  /** Below one the whole part is "0" and the fraction is the thousandths. */
  lemma Fixed3BelowOne(thousandths: nat)
    requires thousandths < 1000
    ensures Fixed3(thousandths) == PointJoin("0", PadStart(NatToString(thousandths), 3, '0'))
  {
    var q := thousandths / 1000;
    var m := thousandths % 1000;
    assert q == 0 && m == thousandths;
    assert NatToString(q) == "0";
  }

  /** The three fraction digits of `toFixed(3)`, zero-padded. */
  lemma PaddedFraction(m: nat)
    requires m < 1000
    ensures var d := PadStart(NatToString(m), 3, '0');
      |d| == 3 && Numeral(d, m)
  {
    NatToStringLength(m);
    PadZerosValue(NatToString(m), 3);
    NatToStringValue(m);
  }

  /** From one upwards the text starts with a non-zero digit. */
  lemma WholeDigits(thousandths: nat)
    ensures thousandths >= 1000 ==> Fixed3(thousandths)[0] != '0' && !StartsWith(Fixed3(thousandths), "0")
  {
    if thousandths >= 1000 {
      NatToStringFirst(thousandths / 1000);
      var pct := Fixed3(thousandths);
      assert pct[0] == pct[..1][0];
    }
  }

  /** A positive number's text does not start with "0". */
  lemma NatToStringFirst(n: nat)
    requires n >= 1
    ensures NatToString(n)[0] != '0'
  {
  }

  /** A whole record reads "1.000", with nothing stripped. */
  lemma PerfectRecord(w: nat)
    requires w > 0
    ensures FormatWinPct(w, 0, 1000) == "1.000"
  {
    var one := NatToString(1000 / 1000);
    assert one == "1";
    var zero := NatToString(1000 % 1000);
    assert zero == "0";
    assert PadStart("00", 3, '0') == "000";
    assert PadStart(zero, 3, '0') == "000";
    assert Fixed3(1000) == one + "." + "000";
  }

  /** A leading zero does not change a number's value. */
  lemma {:induction false} LeadingZeroValue(s: string)
    requires IsDigits(s)
    ensures IsDigits(['0'] + s) && DecimalValue(['0'] + s) == DecimalValue(s)
    decreases |s|
  {
    if s != [] {
      LeadingZeroValue(s[..|s| - 1]);
      assert (['0'] + s)[..|s|] == ['0'] + s[..|s| - 1];
    }
  }

  /** Padding with zeros does not change a number's value. */
  lemma {:induction false} PadZerosValue(s: string, width: nat)
    requires IsDigits(s)
    ensures IsDigits(PadStart(s, width, '0')) && DecimalValue(PadStart(s, width, '0')) == DecimalValue(s)
    decreases width - |s|
  {
    if |s| < width {
      LeadingZeroValue(s);
      PadZerosValue(['0'] + s, width);
    }
  }

  // ------------------------------------------------------------------ rows

  /** The row background: the favourite's yellow ring, the playoff accent,
      or nothing. */
  datatype Highlight = FavoriteRow | PlayoffRow | PlainRow

  datatype StripColor = BlueStrip | RedStrip

  /** The row is the user's team (the "MY TEAM" badge). */
  predicate IsFavorite(s: Settings, row: Standing) {
    s.favoriteTeam == row.team
  }

  /** `favClass`: the favourite styling wins over the top-4 styling. */
  function RowHighlight(s: Settings, row: Standing): (h: Highlight)
    ensures h == FavoriteRow <==> IsFavorite(s, row)
    ensures h == PlayoffRow <==> !IsFavorite(s, row) && row.rank <= 4
    ensures h == PlainRow <==> !IsFavorite(s, row) && row.rank > 4
  {
    if IsFavorite(s, row) then FavoriteRow
    else if row.rank <= 4 then PlayoffRow
    else PlainRow
  }

  /** `stripStyle`: the inset strip on a top-4 row that is not the
      favourite, blue under the special theme and red otherwise. */
  function Strip(s: Settings, row: Standing): (c: Option<StripColor>)
    ensures c.Some? <==> row.rank <= 4 && !IsFavorite(s, row)
    ensures c == Some(BlueStrip) <==> row.rank <= 4 && !IsFavorite(s, row) && s.rahBizzyTheme
    ensures c == Some(RedStrip) <==> row.rank <= 4 && !IsFavorite(s, row) && !s.rahBizzyTheme
  {
    if row.rank <= 4 && !IsFavorite(s, row) then Some(if s.rahBizzyTheme then BlueStrip else RedStrip)
    else None
  }

  /** The strip (and the extra soft accent background) go exactly with the
      playoff highlight, so a favourite row never carries one. */
  lemma StripFollowsHighlight(s: Settings, row: Standing)
    ensures Strip(s, row).Some? <==> RowHighlight(s, row) == PlayoffRow
    ensures IsFavorite(s, row) ==> Strip(s, row).None? && RowHighlight(s, row) == FavoriteRow
  {
  }

  /** The rank cell: `rank.toString().padStart(2, '0')`. */
  function RankLabel(rank: nat): (r: string)
    ensures Numeral(r, rank)
    ensures rank < 100 ==> |r| == 2
    ensures rank >= 100 ==> r == NatToString(rank)
  {
    PadZerosValue(NatToString(rank), 2);
    NatToStringValue(rank);
    NatToStringLength(rank);
    PadStart(NatToString(rank), 2, '0')
  }

  /** How many digits a number's text has, around 10, 100 and 1000. */
  lemma {:induction false} NatToStringLength(n: nat)
    ensures n >= 10 ==> |NatToString(n)| >= 2
    ensures n >= 100 ==> |NatToString(n)| >= 3
    ensures n < 100 ==> |NatToString(n)| <= 2
    ensures n < 1000 ==> |NatToString(n)| <= 3
  {
    if n >= 10 {
      NatToStringLength(n / 10);
    }
  }

  /** The divider follows the rank-4 row. */
  predicate CutoffAfter(row: Standing) {
    row.rank == 4
  }

  /** In both conference tables the divider sits after the fourth row, and
      the playoff styling (for a settings record with no favourite among
      them) covers exactly the first four rows. */
  lemma CutoffAfterFourthRow(s: Settings)
    requires s.favoriteTeam == ""
    ensures forall i :: 0 <= i < |WesternStandings| ==>
      (CutoffAfter(WesternStandings[i]) <==> i == 3)
      && (RowHighlight(s, WesternStandings[i]) == PlayoffRow <==> i < 4)
    ensures forall i :: 0 <= i < |EasternStandings| ==>
      (CutoffAfter(EasternStandings[i]) <==> i == 3)
      && (RowHighlight(s, EasternStandings[i]) == PlayoffRow <==> i < 4)
  {
    assert forall i :: 0 <= i < |WesternStandings| ==> WesternStandings[i].rank == i + 1;
    assert forall i :: 0 <= i < |EasternStandings| ==> EasternStandings[i].rank == i + 1;
  }
}
