/** The records page (components/RecordsPage.tsx): the section chips and
    their labels, the one-shot "veins" easter egg behind a single record's
    value, and when a record's context, team and separator dot are drawn. */
module RecordsPage {
  import opened Wrappers
  import opened JsStrings
  import opened RecordsData

  // ----------------------------------------------------------------- chips

  /** The text of a section's chip (the stylesheet upper-cases it): the two
      advanced sections are spelled out, every other section shows its id
      up to the first dash. */
  function ChipLabel(id: string): (r: string)
    ensures id == "career-adv" ==> r == "CAREER+"
    ensures id == "season-avgs" ==> r == "SEASON+"
    ensures id !in {"career-adv", "season-avgs"} ==>
      StartsWith(id, r) && !Contains(r, "-") && (|r| < |id| ==> id[|r|] == '-')
    ensures id !in {"career-adv", "season-avgs"} ==> IsFirstPiece(id, "-", r)
  {
    if id == "career-adv" then "CAREER+"
    else if id == "season-avgs" then "SEASON+"
    else
      var r := FirstPiece(id, "-");
      assert |r| < |id| ==> id[|r|] == id[|r|..|r| + 1][0];
      r
  }

  /** An id without a dash is its own chip label. */
  lemma ChipLabelWithoutDash(id: string)
    requires id !in {"career-adv", "season-avgs"}
    requires forall i :: 0 <= i < |id| ==> id[i] != '-'
    ensures ChipLabel(id) == id
  {
    var r := ChipLabel(id);
    assert id[..|r|] == r;
  }

  /** A string that does not contain "-" has no dash character. */
  lemma NoDashChars(t: string)
    requires !Contains(t, "-")
    ensures forall k :: 0 <= k < |t| ==> t[k] != '-'
  {
    forall k | 0 <= k < |t| ensures t[k] != '-' {
      assert !OccursAt(t, "-", k);
      assert t[k..k + 1] == [t[k]];
    }
  }

  /** An id of the form `prefix-rest` gets the chip label `prefix`. */
  lemma ChipLabelOfDashed(prefix: string, rest: string)
    requires prefix + "-" + rest !in {"career-adv", "season-avgs"}
    requires forall i :: 0 <= i < |prefix| ==> prefix[i] != '-'
    ensures ChipLabel(prefix + "-" + rest) == prefix
  {
    var id := prefix + "-" + rest;
    var r := ChipLabel(id);
    NoDashChars(r);
    assert r == id[..|r|];
    assert id[|prefix|] == '-';
    assert forall i :: 0 <= i < |prefix| ==> id[i] == prefix[i];
    assert |r| == |prefix|;
    assert id[..|prefix|] == prefix;
  }

  const ChipLabels: seq<string> := ["game", "season", "SEASON+", "career", "CAREER+", "awards", "misc"]

  /** The chip of each section of the page, in order. */
  lemma SectionChip(k: nat)
    requires k < |RecordsData.Sections|
    ensures ChipLabel(RecordsData.Sections[k].id) == ChipLabels[k]
  {
    if k == 1 {
      assert "season-totals" == "season" + "-" + "totals";
      ChipLabelOfDashed("season", "totals");
    } else if k == 3 {
      assert "career-totals" == "career" + "-" + "totals";
      ChipLabelOfDashed("career", "totals");
    } else if k == 0 {
      ChipLabelWithoutDash("game");
    } else if k == 5 {
      ChipLabelWithoutDash("awards");
    } else if k == 6 {
      ChipLabelWithoutDash("misc");
    }
  }

  /** Each section gets its own chip: no two chips read the same. */
  lemma SectionChipsDistinct()
    ensures forall i, j :: 0 <= i < j < |RecordsData.Sections| ==>
      ChipLabel(RecordsData.Sections[i].id) != ChipLabel(RecordsData.Sections[j].id)
  {
    forall i, j | 0 <= i < j < |RecordsData.Sections|
      ensures ChipLabel(RecordsData.Sections[i].id) != ChipLabel(RecordsData.Sections[j].id)
    {
      SectionChip(i);
      SectionChip(j);
      assert ChipLabels[i] != ChipLabels[j] by {
        assert ChipLabels[i][0] != ChipLabels[j][0] || |ChipLabels[i]| != |ChipLabels[j]|;
      }
    }
  }

  // ------------------------------------------------------------ easter egg

  /** The one record whose value starts the easter egg. */
  predicate IsVeinyTrigger(record: RecordItem) {
    record.id == "misc-veiny"
  }

  /** The number of trigger records in a list of sections. */
  function TriggerCount(sections: seq<RecordSection>): nat {
    if sections == [] then 0
    else TriggerCountIn(sections[0].items) + TriggerCount(sections[1..])
  }

  function TriggerCountIn(items: seq<RecordItem>): nat {
    if items == [] then 0
    else (if IsVeinyTrigger(items[0]) then 1 else 0) + TriggerCountIn(items[1..])
  }

  /** Exactly one record of the page starts the easter egg. */
  lemma OneTrigger()
    ensures TriggerCount(Sections) == 1
  {
    StatSectionsHoldNone();
    OtherSectionsHoldNone();
    MiscHoldsTheTrigger();
    var s6 := [MiscSection];
    var s5 := [AwardsSection] + s6;
    var s4 := [CareerAdvSection] + s5;
    var s3 := [CareerTotalsSection] + s4;
    var s2 := [SeasonAvgsSection] + s3;
    var s1 := [SeasonTotalsSection] + s2;
    SectionsInOrder();
    TriggerCountCons(MiscSection, []);
    TriggerCountCons(AwardsSection, s6);
    TriggerCountCons(CareerAdvSection, s5);
    TriggerCountCons(CareerTotalsSection, s4);
    TriggerCountCons(SeasonAvgsSection, s3);
    TriggerCountCons(SeasonTotalsSection, s2);
    TriggerCountCons(GameSection, s1);
  }

  lemma SectionsInOrder()
    ensures Sections == [GameSection] + ([SeasonTotalsSection] + ([SeasonAvgsSection] + ([CareerTotalsSection]
      + ([CareerAdvSection] + ([AwardsSection] + [MiscSection])))))
  {
  }

  lemma MiscHoldsTheTrigger()
    ensures TriggerCountIn(MiscSection.items) == 1
  {
  }

  lemma TriggerCountCons(section: RecordSection, rest: seq<RecordSection>)
    ensures TriggerCount([section] + rest) == TriggerCountIn(section.items) + TriggerCount(rest)
  {
    assert ([section] + rest)[1..] == rest;
  }

  lemma StatSectionsHoldNone()
    ensures TriggerCountIn(GameSection.items) == 0
    ensures TriggerCountIn(SeasonTotalsSection.items) == 0
    ensures TriggerCountIn(SeasonAvgsSection.items) == 0
  {
  }

  lemma OtherSectionsHoldNone()
    ensures TriggerCountIn(CareerTotalsSection.items) == 0
    ensures TriggerCountIn(CareerAdvSection.items) == 0
    ensures TriggerCountIn(AwardsSection.items) == 0
  {
  }

  /** The `isEasterEggPlaying` state cell. */
  class EasterEgg {
    var playing: bool

    constructor ()
      ensures !playing
    {
      playing := false;
    }

    /** `handleVeinyClick`: starts the animation unless it is already
        running (the button is disabled meanwhile), so clicking again
        changes nothing. */
    method VeinyClick()
      modifies this
      ensures playing
    {
      if !playing {
        playing := true;
      }
    }

    /** The animation's `onComplete`. */
    method Complete()
      modifies this
      ensures !playing
    {
      playing := false;
    }

    /** The overlay is mounted exactly while the animation plays. */
    predicate OverlayMounted()
      reads this
    {
      playing
    }
  }

  /** Two clicks leave the same state as one, and completion ends it. */
  method ClickClickComplete(egg: EasterEgg)
    modifies egg
    ensures !egg.playing
  {
    egg.VeinyClick();
    ghost var once := egg.playing;
    egg.VeinyClick();
    assert egg.playing == once;
    egg.Complete();
  }

  // --------------------------------------------------------------- context

  /** `x && …` for an optional string: present and not "". */
  predicate Truthy(o: Option<string>) {
    o.Some? && o.value != ""
  }

  /** The phone card shows the context when there is one and it is not the
      em-dash placeholder. */
  function MobileContext(record: RecordItem): (r: Option<string>)
    ensures r.Some? <==> Truthy(record.context) && record.context.value != "\U{2014}"
    ensures r.Some? ==> r == record.context
  {
    if Truthy(record.context) && record.context.value != "\U{2014}" then record.context else None
  }

  /** The desktop card's bottom line. */
  datatype ContextLine = ContextLine(team: Option<string>, dot: bool, context: Option<string>, highlighted: bool)

  function DesktopContext(record: RecordItem): (r: Option<ContextLine>)
    ensures r.Some? <==> Truthy(record.context) || Truthy(record.team)
    ensures r.Some? ==> (r.value.team.Some? <==> Truthy(record.team))
    ensures r.Some? ==> (r.value.context.Some? <==> Truthy(record.context))
    ensures r.Some? ==> (r.value.dot <==> Truthy(record.team) && Truthy(record.context))
    ensures r.Some? ==> (r.value.highlighted <==>
      Truthy(record.context) && (Contains(record.context.value, "counting") || Contains(record.context.value, "2x")))
  {
    if !(Truthy(record.context) || Truthy(record.team)) then None
    else
      var ctx := if Truthy(record.context) then record.context else None;
      Some(ContextLine(
        if Truthy(record.team) then record.team else None,
        Truthy(record.team) && Truthy(record.context),
        ctx,
        ctx.Some? && (Contains(ctx.value, "counting") || Contains(ctx.value, "2x"))))
  }

  /** A dot always sits between a team and a context that are both drawn. */
  lemma DotBetweenTeamAndContext(record: RecordItem)
    requires DesktopContext(record).Some?
    ensures DesktopContext(record).value.dot <==>
      DesktopContext(record).value.team.Some? && DesktopContext(record).value.context.Some?
  {
  }
}
