/** The Hall of Fame page (components/HallOfFamePage.tsx): each member's
    flip card, with the award chips cut at ten and an overflow badge, the
    stats line broken into value/label cells, the description and image
    fallbacks, and the eligibility list's open/closed toggle. */
module HallOfFamePage {
  import opened Wrappers
  import opened JsStrings

  /** `HOFMember`: every field but the name is optional. */
  datatype Member = Member(
    name: string,
    image: Option<string>,
    awards: Option<seq<string>>,
    stats: Option<string>,
    description: Option<string>)

  // ---------------------------------------------------------------- awards

  const MaxAwardChips := 10

  /** The accolades block: the chips drawn, whether the "No awards listed"
      note replaces them, and the number on the "+N" badge, if any. */
  datatype Awards = Awards(chips: seq<string>, noAwardsNote: bool, overflow: Option<nat>)

  function AwardsView(awards: Option<seq<string>>): (v: Awards)
    ensures v.noAwardsNote <==> awards.None?
    ensures awards.None? ==> v.chips == [] && v.overflow.None?
    ensures awards.Some? ==> |v.chips| <= MaxAwardChips && v.chips <= awards.value
    ensures awards.Some? && |awards.value| <= MaxAwardChips ==> v.chips == awards.value && v.overflow.None?
    ensures v.overflow.Some? <==> awards.Some? && |awards.value| > MaxAwardChips
    ensures v.overflow.Some? ==> |v.chips| == MaxAwardChips && v.overflow.value == |awards.value| - MaxAwardChips
  {
    match awards
    case None => Awards([], true, None)
    case Some(a) =>
      var shown := if |a| <= MaxAwardChips then a else a[..MaxAwardChips];
      Awards(shown, false, if |a| > MaxAwardChips then Some(|a| - MaxAwardChips) else None)
  }

  /** The chips and the badge together account for every award; an empty
      list shows neither chips nor the note. */
  lemma AwardsAccountedFor(awards: seq<string>)
    ensures var v := AwardsView(Some(awards));
      |v.chips| + v.overflow.GetOr(0) == |awards|
    ensures AwardsView(Some([])) == Awards([], false, None)
  {
  }

  // ----------------------------------------------------------------- stats

  const StatSeparator := " \U{2022} "

  /** One stat cell: `const [val, label] = stat.split(' ')`. */
  function StatCell(stat: string): (c: (string, Option<string>))
    ensures c.1.None? <==> !Contains(stat, " ")
    ensures c.1.None? ==> c.0 == stat
    ensures !Contains(c.0, " ") && OccursAt(stat, c.0, 0)
    ensures c.1.Some? ==> !Contains(c.1.value, " ") && OccursAt(stat, c.1.value, |c.0| + 1)
    ensures IsFirstPiece(stat, " ", c.0)
    ensures c.1.Some? ==> |c.0| + 1 <= |stat| && IsFirstPiece(stat[|c.0| + 1..], " ", c.1.value)
  {
    SplitTwo(stat, " ")
  }

  /** A value and a unit without spaces come back out of their cell. */
  lemma StatCellRoundTrip(value: string, unit: string)
    requires ' ' !in value && ' ' !in unit
    ensures StatCell(value + " " + unit) == (value, Some(unit))
  {
    NoSpaceChar(unit);
    SpaceFirstAfter(value, unit);
    SplitTwoOf(value, unit, " ");
  }

  /** A stat with more words keeps only its first two. */
  lemma StatCellTakesFirstTwo(value: string, unit: string, more: string)
    requires ' ' !in value && ' ' !in unit
    ensures StatCell(value + " " + unit + " " + more) == (value, Some(unit))
  {
    var s := value + " " + unit + " " + more;
    var tail := unit + " " + more;
    assert s == value + " " + tail;
    SpaceFirstAfter(value, tail);
    SpaceFirstAfter(unit, more);
    var c := StatCell(s);
    assert c.0 == s[..|value|] == value;
    assert s[|value| + 1..] == tail;
    assert c.1.value == tail[..|unit|] == unit;
  }

  /** In `value + " " + rest`, with no space in `value`, the first space is
      the one right after `value`. */
  lemma SpaceFirstAfter(value: string, rest: string)
    requires ' ' !in value
    ensures IndexOf(value + " " + rest, " ") == Some(|value|)
  {
    var s := value + " " + rest;
    NoSpaceChar(value);
    assert OccursAt(s, " ", |value|) by {
      assert s[|value|..|value| + 1] == " ";
    }
    forall j: nat | j < |value| ensures !OccursAt(s, " ", j) {
      assert s[j..j + 1] == value[j..j + 1];
      assert !OccursAt(value, " ", j);
    }
  }

  /** A string without a space character does not contain " ". */
  lemma NoSpaceChar(t: string)
    requires ' ' !in t
    ensures !Contains(t, " ")
  {
    forall j: nat ensures !OccursAt(t, " ", j) {
      if j + 1 <= |t| {
        assert t[j..j + 1] == [t[j]];
      }
    }
  }

  /** The stats panel: no cells without a stats line, otherwise one cell per
      piece between the bullets. */
  function StatsView(stats: Option<string>): (cells: seq<(string, Option<string>)>)
    ensures stats.None? ==> cells == []
    ensures stats.Some? ==>
      var pieces := Split(stats.value, StatSeparator);
      |cells| == |pieces| && Join(pieces, StatSeparator) == stats.value
      && forall i :: 0 <= i < |cells| ==> cells[i] == StatCell(pieces[i])
  {
    match stats
    case None => []
    case Some(text) =>
      var pieces := Split(text, StatSeparator);
      JoinSplit(text, StatSeparator);
      seq(|pieces|, i requires 0 <= i < |pieces| => StatCell(pieces[i]))
  }

  // ------------------------------------------------------------- fallbacks

  const NoDescription := "Description coming soon."

  /** `member.description || "Description coming soon."` */
  function Description(m: Member): (d: string)
    ensures m.description.Some? && m.description.value != "" ==> d == m.description.value
    ensures m.description.None? || m.description.value == "" ==> d == NoDescription
    ensures d != ""
  {
    if m.description.Some? && m.description.value != "" then m.description.value else NoDescription
  }

  /** The image area: the headshot, or the "Image coming soon" text. */
  datatype Picture = Headshot(src: string) | ComingSoon

  function PictureOf(m: Member): (p: Picture)
    ensures p.ComingSoon? <==> m.image.None? || m.image.value == ""
    ensures p.Headshot? ==> m.image == Some(p.src)
  {
    if m.image.Some? && m.image.value != "" then Headshot(m.image.value) else ComingSoon
  }

  // ----------------------------------------------------------------- toggles

  /** A card's `isFlipped` state cell: a click anywhere on the card turns it. */
  class Card {
    var isFlipped: bool

    constructor ()
      ensures !isFlipped
    {
      isFlipped := false;
    }

    method Click()
      modifies this
      ensures isFlipped == !old(isFlipped)
    {
      isFlipped := !isFlipped;
    }
  }

  /** The eligibility list's `isOpen` state cell, turned by its button. */
  class Eligibility {
    var isOpen: bool

    constructor ()
      ensures !isOpen
    {
      isOpen := false;
    }

    method Click()
      modifies this
      ensures isOpen == !old(isOpen)
    {
      isOpen := !isOpen;
    }
  }

  /** Two clicks on a card show the face it showed before. */
  method ClickTwice(card: Card)
    modifies card
    ensures card.isFlipped == old(card.isFlipped)
  {
    card.Click();
    card.Click();
  }
}
