/** The home page (components/LandingPage.tsx): the hero title picked once
    from eight, the mock checkout it opens when it is the "punkmonk" title,
    that checkout's quantity, total and joke, and the number of coins drawn
    under the special theme. */
module LandingPage {
  import opened JsStrings
  import opened SettingsContext

  // ------------------------------------------------------------------ coins

  /** The coins behind the hero, only under the special theme. */
  function CoinCount(s: Settings): (n: nat)
    ensures !s.rahBizzyTheme ==> n == 0
    ensures s.rahBizzyTheme ==> n == (if s.reducedMotion then 3 else 18)
  {
    if !s.rahBizzyTheme then 0 else if s.reducedMotion then 3 else 18
  }

  // ------------------------------------------------------------- hero title

  const HeroTitles: seq<string> := [
    "nah drexel is so strong and veiny rn",
    "pansho is lowkey moving different today",
    "$5 to sleep on call with punkmonk monday - friday",
    "rahbizzy is the greatest jumpstealer of all time",
    "qotd: who has the most aura? answer: blixer",
    "dm cola for sinful freaky pics and vids",
    "i think it's safe to say we all have a crush on coves",
    "why is polar the main character of basketball legends"]

  const TargetTitle := "$5 to sleep on call with punkmonk monday - friday"

  /** Only the third title opens the checkout. */
  lemma OnlyThirdTitleIsTarget(index: nat)
    requires index < |HeroTitles|
    ensures HeroTitles[index] == TargetTitle <==> index == 2
  {
  }

  // --------------------------------------------------------------- checkout

  const UnitPrice := 5

  /** `FakeCheckoutOverlay`'s state cells; each opening mounts a fresh one. */
  class Checkout {
    var qty: nat
    var showJoke: bool

    predicate Valid()
      reads this
    {
      qty >= 1
    }

    constructor ()
      ensures qty == 1 && !showJoke && Valid()
    {
      qty := 1;
      showJoke := false;
    }

    /** The "-" button: never below one. */
    method Decrement()
      requires Valid()
      modifies this`qty
      ensures Valid()
      ensures qty == if old(qty) > 1 then old(qty) - 1 else 1
      ensures old(qty) > 1 ==> DecimalValue(Dollars(Total())) + UnitPrice == DecimalValue(Dollars(old(Total())))
    {
      qty := if qty - 1 > 1 then qty - 1 else 1;
    }

    /** The "+" button. */
    method Increment()
      requires Valid()
      modifies this`qty
      ensures Valid()
      ensures qty == old(qty) + 1
      ensures DecimalValue(Dollars(Total())) == DecimalValue(Dollars(old(Total()))) + UnitPrice
    {
      qty := qty + 1;
    }

    /** Submitting the form (or the pay button) swaps the button for the
        joke; nothing in the overlay takes it back. */
    method Pay()
      modifies this`showJoke
      ensures showJoke
    {
      showJoke := true;
    }

    /** The subtotal, the total and the pay button all show this. */
    function Total(): (t: string)
      reads this
    {
      TotalText(qty)
    }
  }

  /** `(qty * 5).toFixed(2)` for a whole number of dollars. */
  function TotalText(qty: nat): (t: string)
    ensures |t| >= 4 && t[|t| - 3..] == ".00"
    ensures Numeral(t[..|t| - 3], UnitPrice * qty)
  {
    NatToStringValue(UnitPrice * qty);
    var t := NatToString(UnitPrice * qty) + ".00";
    assert t[..|t| - 3] == NatToString(UnitPrice * qty);
    t
  }

  /** The dollar amount a total shows, without its ".00". */
  function Dollars(t: string): string
    requires |t| >= 3
  {
    t[..|t| - 3]
  }

  /** Each "+" adds exactly one unit price to the total shown, and each "-"
      above one takes exactly one away. */
  lemma TotalStepsByUnitPrice(qty: nat)
    ensures Numeral(Dollars(TotalText(qty)), UnitPrice * qty)
    ensures Numeral(Dollars(TotalText(qty + 1)), DecimalValue(Dollars(TotalText(qty))) + UnitPrice)
  {
  }

  // ------------------------------------------------------------------- hero

  /** The hero's `isPunkMonkActive` flag, with the title chosen on mount. */
  class Hero {
    const heroTitle: string
    var active: bool

    /** `index` is the `Math.floor(Math.random() * 8)` of the first render. */
    constructor (index: nat)
      requires index < |HeroTitles|
      ensures heroTitle == HeroTitles[index] && !active
    {
      heroTitle := HeroTitles[index];
      active := false;
    }

    predicate IsTarget()
      reads this
    {
      heroTitle == TargetTitle
    }

    /** A click on the title, which has a handler only on the target. */
    method ClickTitle()
      modifies this`active
      ensures active == (old(active) || IsTarget())
    {
      if IsTarget() {
        active := true;
      }
    }

    /** A key on the focused title: Enter or space open the checkout, again
        only on the target. */
    method TitleKey(key: string)
      modifies this`active
      ensures active == (old(active) || (IsTarget() && key in {"Enter", " "}))
    {
      if IsTarget() && (key == "Enter" || key == " ") {
        active := true;
      }
    }

    /** The window listener, attached only while the checkout is open. */
    method WindowKey(key: string)
      modifies this`active
      ensures active == (old(active) && key != "Escape")
    {
      if active && key == "Escape" {
        active := false;
      }
    }

    /** The checkout's close, cancel and backdrop buttons. */
    method CloseCheckout()
      modifies this`active
      ensures !active
    {
      active := false;
    }
  }

  /** A title other than the target never opens the checkout, whatever is
      clicked or pressed. */
  method NonTargetStaysClosed(hero: Hero, key: string)
    requires !hero.IsTarget() && !hero.active
    modifies hero
    ensures !hero.active
  {
    hero.ClickTitle();
    hero.TitleKey(key);
  }
}
