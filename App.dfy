/** The application shell (App.tsx): the light/dark theme with its stored
    preference, the classes the settings put on the document root, the
    transition class that marks a special-theme change, and the Hall of
    Fame class on the body. */
module App {
  import opened Wrappers
  import opened Browser
  import opened SettingsContext

  datatype Theme = Light | Dark

  function ThemeText(t: Theme): string {
    if t == Dark then "dark" else "light"
  }

  /** The toggle's `prev === 'light' ? 'dark' : 'light'`. */
  function Flip(t: Theme): (r: Theme)
    ensures r != t
  {
    if t == Light then Dark else Light
  }

  /** Toggling twice restores the theme. */
  lemma FlipTwice(t: Theme)
    ensures Flip(Flip(t)) == t
  {
  }

  const ThemeKey := "theme"
  const TransitionClass := "theme-transition"
  const HofClass := "theme-hof"

  /** The root classes the settings effect manages. */
  const SettingsClassNames: set<string> := {"reduced-motion", "high-contrast", "font-large", "rahbizzy-theme"}

  /** The managed classes a settings record switches on. */
  function SettingsClasses(s: Settings): (r: set<string>)
    ensures r <= SettingsClassNames
    ensures "reduced-motion" in r <==> s.reducedMotion
    ensures "high-contrast" in r <==> s.highContrast
    ensures "font-large" in r <==> s.fontSize == Large
    ensures "rahbizzy-theme" in r <==> s.rahBizzyTheme
  {
    (if s.reducedMotion then {"reduced-motion"} else {})
    + (if s.highContrast then {"high-contrast"} else {})
    + (if s.fontSize == Large then {"font-large"} else {})
    + (if s.rahBizzyTheme then {"rahbizzy-theme"} else {})
  }

  /** Two records that switch on the same classes agree on every setting
      the root classes reflect. */
  lemma SettingsClassesFaithful(s: Settings, t: Settings)
    requires SettingsClasses(s) == SettingsClasses(t)
    ensures s.reducedMotion == t.reducedMotion && s.highContrast == t.highContrast
    ensures s.fontSize == t.fontSize && s.rahBizzyTheme == t.rahBizzyTheme
  {
    assert "reduced-motion" in SettingsClasses(s) <==> "reduced-motion" in SettingsClasses(t);
    assert "high-contrast" in SettingsClasses(s) <==> "high-contrast" in SettingsClasses(t);
    assert "font-large" in SettingsClasses(s) <==> "font-large" in SettingsClasses(t);
    assert "rahbizzy-theme" in SettingsClasses(s) <==> "rahbizzy-theme" in SettingsClasses(t);
  }

  /** The document and the shell's state cells. */
  class Document {
    /** `document.documentElement.classList` */
    var rootClasses: set<string>
    /** `document.body.classList` */
    var bodyClasses: set<string>
    var theme: Theme
    /** The `prevRahBizzyTheme` ref. */
    var prevRahBizzy: bool
    const storage: LocalStorage

    /** First render: light theme, and the ref holds the current setting. */
    constructor (storage: LocalStorage, settings: Settings, rootClasses: set<string>, bodyClasses: set<string>)
      ensures this.storage == storage && this.rootClasses == rootClasses && this.bodyClasses == bodyClasses
      ensures theme == Light && prevRahBizzy == settings.rahBizzyTheme
    {
      this.storage := storage;
      this.rootClasses := rootClasses;
      this.bodyClasses := bodyClasses;
      theme := Light;
      prevRahBizzy := settings.rahBizzyTheme;
    }

    /** The mount effect: a stored "dark" selects dark; anything else selects
        light, and "light" is written only when nothing (or "") was stored.
        `ok` is false when that write throws. */
    method InitTheme() returns (ok: bool)
      modifies this`theme, this`rootClasses, storage`items
      ensures var saved := old(storage.GetItem(ThemeKey));
        theme == (if saved == Some("dark") then Dark else Light)
        && rootClasses == (if theme == Dark then old(rootClasses) + {"dark"} else old(rootClasses) - {"dark"})
        && (saved.Some? && saved.value != "" ==> ok && storage.items == old(storage.items))
        && (saved.None? || saved.value == "" ==>
              ok == storage.writable
              && storage.items == (if ok then old(storage.items)[ThemeKey := "light"] else old(storage.items)))
    {
      var saved := storage.GetItem(ThemeKey);
      ok := true;
      if saved == Some("dark") {
        theme := Dark;
        rootClasses := rootClasses + {"dark"};
      } else {
        theme := Light;
        rootClasses := rootClasses - {"dark"};
        if saved.None? || saved.value == "" {
          ok := storage.SetItem(ThemeKey, "light");
        }
      }
    }

    /** The effect on `theme`: store it, then mirror it as the `dark` class.
        The write is not guarded, so when it throws the class is left as it
        was. */
    method SyncTheme() returns (ok: bool)
      modifies this`rootClasses, storage`items
      ensures ok == storage.writable
      ensures ok ==> storage.items == old(storage.items)[ThemeKey := ThemeText(theme)]
      ensures ok ==> rootClasses == (if theme == Dark then old(rootClasses) + {"dark"} else old(rootClasses) - {"dark"})
      ensures !ok ==> storage.items == old(storage.items) && rootClasses == old(rootClasses)
    {
      ok := storage.SetItem(ThemeKey, ThemeText(theme));
      if ok {
        if theme == Dark {
          rootClasses := rootClasses + {"dark"};
        } else {
          rootClasses := rootClasses - {"dark"};
        }
      }
    }

    /** `triggerThemeTransition`: does nothing under reduced motion. */
    method TriggerTransition(reducedMotion: bool)
      modifies this`rootClasses
      ensures rootClasses == if reducedMotion then old(rootClasses) else old(rootClasses) + {TransitionClass}
    {
      if !reducedMotion {
        rootClasses := rootClasses + {TransitionClass};
      }
    }

    /** The 250 ms timer that ends a transition. */
    method EndTransition()
      modifies this`rootClasses
      ensures rootClasses == old(rootClasses) - {TransitionClass}
    {
      rootClasses := rootClasses - {TransitionClass};
    }

    /** The effect on `settings`: each managed class mirrors its setting; a
        change of the special theme since the last run starts a transition
        and is recorded. */
    method ApplySettings(s: Settings)
      modifies this`rootClasses, this`prevRahBizzy
      ensures prevRahBizzy == s.rahBizzyTheme
      ensures var transition := old(prevRahBizzy) != s.rahBizzyTheme && !s.reducedMotion;
        rootClasses == (old(rootClasses) - SettingsClassNames) + SettingsClasses(s)
                       + (if transition then {TransitionClass} else {})
    {
      var root := rootClasses;
      root := if s.reducedMotion then root + {"reduced-motion"} else root - {"reduced-motion"};
      root := if s.highContrast then root + {"high-contrast"} else root - {"high-contrast"};
      root := if s.fontSize == Large then root + {"font-large"} else root - {"font-large"};
      rootClasses := root;
      if prevRahBizzy != s.rahBizzyTheme {
        TriggerTransition(s.reducedMotion);
        prevRahBizzy := s.rahBizzyTheme;
      }
      if s.rahBizzyTheme {
        rootClasses := rootClasses + {"rahbizzy-theme"};
      } else {
        rootClasses := rootClasses - {"rahbizzy-theme"};
      }
    }

    /** The effect on `activeTab`. */
    method ApplyActiveTab(activeTab: string)
      modifies this`bodyClasses
      ensures HofClass in bodyClasses <==> activeTab == "hall-of-fame"
      ensures bodyClasses - {HofClass} == old(bodyClasses) - {HofClass}
    {
      bodyClasses := bodyClasses - {HofClass};
      if activeTab == "hall-of-fame" {
        bodyClasses := bodyClasses + {HofClass};
      }
    }

    /** `toggleTheme`: start a transition, then swap light and dark. */
    method ToggleTheme(reducedMotion: bool)
      modifies this`theme, this`rootClasses
      ensures theme == Flip(old(theme))
      ensures rootClasses == if reducedMotion then old(rootClasses) else old(rootClasses) + {TransitionClass}
    {
      TriggerTransition(reducedMotion);
      theme := Flip(theme);
    }
  }

  /** Re-running the settings effect with the same record starts no second
      transition and leaves the root classes as they were. */
  method ApplySettingsTwice(d: Document, s: Settings)
    modifies d
    ensures d.prevRahBizzy == s.rahBizzyTheme
    ensures var transition := old(d.prevRahBizzy) != s.rahBizzyTheme && !s.reducedMotion;
      d.rootClasses == (old(d.rootClasses) - SettingsClassNames) + SettingsClasses(s)
                       + (if transition then {TransitionClass} else {})
  {
    d.ApplySettings(s);
    ghost var once := d.rootClasses;
    d.ApplySettings(s);
    assert d.rootClasses == once;
  }
}
