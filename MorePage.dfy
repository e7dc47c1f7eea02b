/** The "more" menu page (components/MorePage.tsx): its cards, where a card
    labelled "n/a" is an inert placeholder, and the footer line that cycles
    through five messages on each click. */
module MorePage {
  import opened Wrappers
  import opened JsStrings
  import opened ContentData
  import TabPage

  // ----------------------------------------------------------------- cards

  const PlaceholderLabel := "n/a"

  predicate IsPlaceholder(item: TabItem) {
    item.displayLabel == PlaceholderLabel
  }

  /** What a card shows: its category line (only when non-empty), its
      heading in lower case, and its footer. */
  datatype Card = Card(category: Option<string>, heading: string, footer: string, enabled: bool)

  function RenderCard(item: TabItem): (c: Card)
    ensures c.category.Some? <==> item.category != ""
    ensures c.category.Some? ==> c.category.value == item.category
    ensures c.heading == Lower(item.displayLabel) && IsLowerCase(c.heading)
    ensures c.footer == (if IsPlaceholder(item) then "\U{2014}" else "view section")
    ensures c.enabled <==> !IsPlaceholder(item)
  {
    LowerIsLowerCase(item.displayLabel);
    Card(
      if item.category != "" then Some(item.category) else None,
      Lower(item.displayLabel),
      if IsPlaceholder(item) then "\U{2014}" else "view section",
      !IsPlaceholder(item))
  }

  /** A click hands the card's label to `onItemClick`, except on a
      placeholder. */
  function ClickCard(item: TabItem): (r: Option<string>)
    ensures r.None? <==> IsPlaceholder(item)
    ensures r.Some? ==> r.value == item.displayLabel
  {
    if IsPlaceholder(item) then None else Some(item.displayLabel)
  }

  /** On the tab page the label then goes through the slug table; a
      placeholder leads nowhere on either path. */
  function ClickThrough(item: TabItem, hasOnTabChange: bool): (r: Option<string>)
    ensures IsPlaceholder(item) ==> r.None?
    ensures r.Some? ==> r.value in TabPage.ValidTabs
  {
    match ClickCard(item)
    case None => None
    case Some(displayLabel) => TabPage.ItemClick(displayLabel, hasOnTabChange)
  }

  /** On the "more" tab, three cards are placeholders and the other three
      lead to their pages. */
  lemma MoreTabCards()
    ensures var items := ContentMap["more"].items;
      |items| == 6
      && IsPlaceholder(items[1]) && IsPlaceholder(items[2]) && IsPlaceholder(items[3])
      && ClickThrough(items[0], true) == Some("league-history")
      && ClickThrough(items[4], true) == Some("rules")
      && ClickThrough(items[5], true) == Some("credits")
  {
    assert Lower("History") == "history";
    assert Lower("Rules") == "rules";
    assert Lower("Credits") == "credits";
  }

  // ---------------------------------------------------------------- footer

  const Messages: seq<string> := [
    "carefully created by jomz",
    "pansho is the goat",
    "1luv has so much aura",
    "drexel is so tuff and veiny",
    "jeffrey epstein is coming for you"]

  /** The step of the footer button. */
  function NextIndex(i: nat): (r: nat)
    ensures r < |Messages|
    ensures i < |Messages| - 1 ==> r == i + 1
    ensures i == |Messages| - 1 ==> r == 0
  {
    (i + 1) % |Messages|
  }

  /** Five clicks bring the footer back to the message it started on. */
  lemma FiveClicksCycle(i: nat)
    requires i < |Messages|
    ensures NextIndex(NextIndex(NextIndex(NextIndex(NextIndex(i))))) == i
  {
  }

  /** The `easterEggIndex` state cell. */
  class Footer {
    var index: nat

    predicate Valid()
      reads this
    {
      index < |Messages|
    }

    constructor ()
      ensures index == 0 && Valid()
    {
      index := 0;
    }

    /** The message currently shown. */
    function Message(): string
      reads this
      requires Valid()
    {
      Messages[index]
    }

    method Click()
      requires Valid()
      modifies this
      ensures Valid()
      ensures index == NextIndex(old(index))
    {
      index := (index + 1) % |Messages|;
    }
  }
}
