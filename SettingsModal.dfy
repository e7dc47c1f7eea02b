/** The settings drawer (components/SettingsModal.tsx). It keeps no state of
    its own: it lists the teams in sorted order after a "None selected"
    entry, and every control hands exactly one change to the settings store
    (or asks for a reset, or closes the drawer). */
module SettingsModal {
  import opened Wrappers
  import opened SettingsContext
  import StandingsData

  // ----------------------------------------------------------- team list

  /** The order `Array.prototype.sort` puts strings in without a compare
      function: character by character, a prefix first. */
  predicate LexLe(a: string, b: string) {
    if a == [] then true
    else if b == [] then false
    else if a[0] != b[0] then a[0] < b[0]
    else LexLe(a[1..], b[1..])
  }

  /** Any two strings are ordered one way or the other. */
  lemma {:induction false} LexLeTotal(a: string, b: string)
    ensures LexLe(a, b) || LexLe(b, a)
  {
    if a != [] && b != [] && a[0] == b[0] {
      LexLeTotal(a[1..], b[1..]);
    }
  }

  predicate Sorted(s: seq<string>) {
    forall i :: 0 <= i < |s| - 1 ==> LexLe(s[i], s[i + 1])
  }

  /** `x` put in front of the first element it does not exceed. */
  function Insert(x: string, s: seq<string>): (r: seq<string>)
    requires Sorted(s)
    ensures Sorted(r)
    ensures multiset(r) == multiset(s) + multiset{x}
    ensures |r| > 0 && (r[0] == x || (|s| > 0 && r[0] == s[0]))
  {
    if s == [] then [x]
    else if LexLe(x, s[0]) then [x] + s
    else
      LexLeTotal(x, s[0]);
      var rest := Insert(x, s[1..]);
      assert s == [s[0]] + s[1..];
      [s[0]] + rest
  }

  /** `keys.sort()`: the same strings, in order. */
  function Sort(s: seq<string>): (r: seq<string>)
    ensures Sorted(r)
    ensures multiset(r) == multiset(s)
  {
    if s == [] then []
    else
      assert s == [s[0]] + s[1..];
      Insert(s[0], Sort(s[1..]))
  }

  /** The select's options: "" ("None selected"), then the team names of
      `teamShortNames` sorted. */
  function TeamOptions(): (r: seq<string>)
    ensures |r| == |StandingsData.TeamShortNames| + 1
    ensures r[0] == "" && Sorted(r[1..])
    ensures multiset(r[1..]) == multiset(StandingsData.TeamNames())
  {
    var sorted := Sort(StandingsData.TeamNames());
    assert |sorted| == |multiset(sorted)|;
    assert ([""] + sorted)[1..] == sorted;
    [""] + sorted
  }

  /** Every team of the table can be chosen, and nothing else but "". */
  lemma TeamOptionsComplete(team: string)
    ensures team in TeamOptions()[1..] <==> team in StandingsData.TeamNames()
  {
    var r := TeamOptions();
    assert team in r[1..] <==> team in multiset(r[1..]);
  }

  // ---------------------------------------------------------------- drawer

  /** What the open drawer shows: the options and the selected one. */
  datatype Drawer = Drawer(options: seq<string>, selectedTeam: string, fontSize: FontSize)

  /** Closed, the component renders nothing. */
  function Render(isOpen: bool, s: Settings): (d: Option<Drawer>)
    ensures d.None? <==> !isOpen
    ensures d.Some? ==> d.value.options == TeamOptions() && d.value.selectedTeam == s.favoriteTeam
  {
    if !isOpen then None else Some(Drawer(TeamOptions(), s.favoriteTeam, s.fontSize))
  }

  // -------------------------------------------------------------- controls

  datatype Control =
    | FontNormalButton
    | FontLargeButton
    | ReducedMotionSwitch
    | HighContrastSwitch
    | StickyHeaderSwitch
    | TeamSelect(value: string)
    | SlashSwitch
    | SpecialThemeSwitch
    | ResetButton
    | CloseButton
    | Backdrop

  /** What a click hands to the context: one partial update, a reset, or
      the parent's `onClose`. */
  datatype Dispatch = Update(p: PartialSettings) | Reset | Close

  function CountSome<T>(o: Option<T>): nat {
    if o.Some? then 1 else 0
  }

  /** The number of fields a partial update sets. */
  function FieldsSet(p: PartialSettings): nat {
    CountSome(p.rahBizzyTheme) + CountSome(p.reducedMotion) + CountSome(p.highContrast)
    + CountSome(p.fontSize) + CountSome(p.stickyHeader) + CountSome(p.favoriteTeam)
    + CountSome(p.searchSlashOpens)
  }

  /** The handler of each control, given the settings it was drawn with. */
  function Click(s: Settings, c: Control): (d: Dispatch)
    ensures d.Update? ==> FieldsSet(d.p) == 1
    ensures d == Reset <==> c == ResetButton
    ensures d == Close <==> c in {CloseButton, Backdrop}
    ensures c == FontNormalButton ==> d.Update? && Merge(s, d.p) == s.(fontSize := Normal)
    ensures c == FontLargeButton ==> d.Update? && Merge(s, d.p) == s.(fontSize := Large)
    ensures c == ReducedMotionSwitch ==> d.Update? && Merge(s, d.p) == s.(reducedMotion := !s.reducedMotion)
    ensures c == HighContrastSwitch ==> d.Update? && Merge(s, d.p) == s.(highContrast := !s.highContrast)
    ensures c == StickyHeaderSwitch ==> d.Update? && Merge(s, d.p) == s.(stickyHeader := !s.stickyHeader)
    ensures c.TeamSelect? ==> d.Update? && Merge(s, d.p) == s.(favoriteTeam := c.value)
    ensures c == SlashSwitch ==> d.Update? && Merge(s, d.p) == s.(searchSlashOpens := !s.searchSlashOpens)
    ensures c == SpecialThemeSwitch ==> d.Update? && Merge(s, d.p) == s.(rahBizzyTheme := !s.rahBizzyTheme)
    ensures c == FontNormalButton ==> d.Update? && d.p.fontSize == Some(Normal)
    ensures c == FontLargeButton ==> d.Update? && d.p.fontSize == Some(Large)
    ensures c == ReducedMotionSwitch ==> d.Update? && d.p.reducedMotion == Some(!s.reducedMotion)
    ensures c == HighContrastSwitch ==> d.Update? && d.p.highContrast == Some(!s.highContrast)
    ensures c == StickyHeaderSwitch ==> d.Update? && d.p.stickyHeader == Some(!s.stickyHeader)
    ensures c.TeamSelect? ==> d.Update? && d.p.favoriteTeam == Some(c.value)
    ensures c == SlashSwitch ==> d.Update? && d.p.searchSlashOpens == Some(!s.searchSlashOpens)
    ensures c == SpecialThemeSwitch ==> d.Update? && d.p.rahBizzyTheme == Some(!s.rahBizzyTheme)
  {
    match c
    case FontNormalButton => Update(NoChange.(fontSize := Some(Normal)))
    case FontLargeButton => Update(NoChange.(fontSize := Some(Large)))
    case ReducedMotionSwitch => Update(NoChange.(reducedMotion := Some(!s.reducedMotion)))
    case HighContrastSwitch => Update(NoChange.(highContrast := Some(!s.highContrast)))
    case StickyHeaderSwitch => Update(NoChange.(stickyHeader := Some(!s.stickyHeader)))
    case TeamSelect(value) => Update(NoChange.(favoriteTeam := Some(value)))
    case SlashSwitch => Update(NoChange.(searchSlashOpens := Some(!s.searchSlashOpens)))
    case SpecialThemeSwitch => Update(NoChange.(rahBizzyTheme := Some(!s.rahBizzyTheme)))
    case ResetButton => Reset
    case CloseButton => Close
    case Backdrop => Close
  }

  /** A switch clicked twice (redrawn in between) restores the settings. */
  lemma SwitchTwice(s: Settings, c: Control)
    requires c in {ReducedMotionSwitch, HighContrastSwitch, StickyHeaderSwitch, SlashSwitch, SpecialThemeSwitch}
    ensures var once := Merge(s, Click(s, c).p);
      Click(once, c).Update? && Merge(once, Click(once, c).p) == s
  {
  }
}
