# NBLL Hub — a verified model of the site's client-side state

NBLL Hub is the fan site of a Basketball Legends league, written as a single-page
React application. This project models, in Dafny, the logic the site runs in the browser:

- **The settings store** (`SettingsProvider`):
  - the seven user preferences and their defaults;
  - the `{ ...prev, ...patch }` merge;
  - the JSON blob saved under `nbll_settings` in `localStorage`, with hydration and reset;
  - the three accent palettes.
- **The application shell** (`App`):
  - the light/dark theme and its `theme` storage key;
  - the root CSS classes derived from the settings;
  - the 250 ms transition class;
  - the hall-of-fame body class.
- **The two search surfaces** (`Navbar` and `SearchOverlay`):
  - the query matcher, which groups results as Pages, Records and Players;
  - the keyboard cursor and the slash shortcut;
  - the overlay's anchored position and its focus trap.
- **Each page's logic:**
  - the landing hero and its mock checkout;
  - the tab page router;
  - the schedule's expandable weeks and matchup splitting;
  - the standings' win-percentage text and row highlighting;
  - the records chips and easter-egg trigger;
  - the hall-of-fame cards;
  - the "more" page's cards and footer messages;
  - the settings drawer's controls.

State that the source changes in place is modelled by classes:
- the settings store;
- `localStorage`;
- the document's class lists;
- the search boxes, the hero and the checkout;
- the schedule, the easter egg and the cards.

These classes' methods carry `modifies` clauses and state their whole new state. Pure computations are
functions, and their promises are stated as `ensures` clauses and lemmas:
- the merge is the JavaScript object spread;
- the stored blob decodes back to the settings;
- a toggle undone is the identity;
- the cursor wraps;
- exactly one desktop tab is highlighted;
- exactly one record starts the easter egg.

JavaScript's string built-ins are modelled in `JsStrings`: `toLowerCase`, `includes`/`indexOf`,
`split`, `trim`, `String(n)` and `padStart`. `localStorage` is modelled in `Browser`. The site's
data tables are held in `RecordsData`, `StandingsData` and `ContentData`.

Where the written description of the site and the code disagree, the model follows the code:
- `updateSettings` writes to `localStorage` without a guard (`context/SettingsContext.tsx:59`). The write
  runs inside the state updater passed to `setSettings` (`context/SettingsContext.tsx:57-61`). When it
  throws, React rethrows the error while rendering the provider. No error boundary catches it, so the
  whole application unmounts, and the merged settings are never committed. `UpdateSettings` returns
  `Failure` to stand for that crash and leaves the settings and the storage unchanged.

## Model

| member | source | states |
|---|---|---|
| JsStrings.Lower | components/Navbar.tsx:149 | `toLowerCase` maps each character by itself, leaving the length unchanged, and maps an upper-case ASCII letter to its lower-case letter |
| JsStrings.LowerIsLowerCase | components/Navbar.tsx:149 | a lower-cased string holds no upper-case letter |
| JsStrings.LowerIdempotent | components/Navbar.tsx:149 | lower-casing twice is lower-casing once |
| JsStrings.UpperChar | components/TabPage.tsx:68 | `toUpperCase` of one character: a lower-case letter moves to upper case, anything else is kept |
| JsStrings.CapitalizeFirst | components/TabPage.tsx:68 | the fallback page title upper-cases the first character and keeps the rest and the length |
| JsStrings.IndexOf | components/SchedulePage.tsx:23 | `indexOf` returns the first position at which the needle occurs, or nothing when it occurs nowhere |
| JsStrings.ContainsIff | components/SchedulePage.tsx:23 | `includes` holds exactly when the needle occurs at some position |
| JsStrings.JoinSplit | components/HallOfFamePage.tsx:144 | joining the pieces of `split` with the separator gives back the original string |
| JsStrings.SplitPiecesAvoidSep | components/HallOfFamePage.tsx:144 | no piece of `split` contains the separator |
| JsStrings.SecondPieceOccurs | components/SchedulePage.tsx:68 | `split` yields one piece exactly when the separator is absent, and that piece is the whole string; otherwise the second piece starts right after the first separator |
| JsStrings.FirstPiece | components/RecordsPage.tsx:57 | `split(sep)[0]` is the prefix that ends at the first separator, or the whole string when there is none |
| JsStrings.FirstPieceExact | components/RecordsPage.tsx:57 | the first piece of `split` ends exactly at the first occurrence of the separator |
| JsStrings.SecondPieceExact | components/SchedulePage.tsx:68 | the second piece of `split` starts after the first separator and ends at the next one, or at the end of the string |
| JsStrings.SplitTwo | components/SchedulePage.tsx:68 | destructuring the first two pieces of `split`: the first ends at the first separator; the second is present exactly when the separator occurs, starts after it, and ends at the next separator or at the end of the string |
| JsStrings.SplitTwoOf | components/SchedulePage.tsx:68 | splitting `a + sep + b`, where the separator first occurs after `a` and `b` has none, gives back `a` and `b` |
| JsStrings.TrimStartEmpty | components/Navbar.tsx:148 | trimming the start leaves nothing exactly when every character is whitespace, and otherwise leaves a string that starts with a non-space |
| JsStrings.TrimEndEmpty | components/Navbar.tsx:148 | trimming the end leaves nothing exactly when every character is whitespace |
| JsStrings.BlankIff | components/Navbar.tsx:148 | `!query.trim()` holds exactly when the query is all whitespace |
| JsStrings.NatToString | components/StandingsPage.tsx:65 | `String(n)` is a non-empty run of digits with no leading zero, and is one digit exactly when n is below ten |
| JsStrings.NatToStringValue | components/StandingsPage.tsx:65 | the digits of `String(n)` read back as n |
| JsStrings.PadStart | components/StandingsPage.tsx:65 | `padStart` keeps the string as a suffix, fills only the front, and reaches the width unless the string is longer |
| Browser.LocalStorage.constructor | context/SettingsContext.tsx:46 | the store starts with the given items and writability |
| Browser.LocalStorage.GetItem | context/SettingsContext.tsx:46 | `getItem` returns a value exactly when the key is stored, and that value is the stored one |
| Browser.LocalStorage.SetItem | context/SettingsContext.tsx:59 | `setItem` succeeds exactly when storage is writable; on success it stores the value under the key and changes no other key, and on failure it changes nothing |
| Browser.LocalStorage.RemoveItem | context/SettingsContext.tsx:66 | `removeItem` drops that key and keeps the others |
| SettingsContext.AsObject | context/SettingsContext.tsx:4-12 | the settings object has exactly the seven named fields |
| SettingsContext.MergeIsSpread | context/SettingsContext.tsx:58 | merging a partial update is the object spread `{ ...prev, ...patch }`: the fields the patch sets win, and the others keep their old values |
| SettingsContext.OverlayRahBizzyTheme | context/SettingsContext.tsx:58 | spreading a one-field patch replaces just that field (the special theme) |
| SettingsContext.OverlayReducedMotion | context/SettingsContext.tsx:58 | spreading a one-field patch replaces just that field (reduced motion) |
| SettingsContext.OverlayHighContrast | context/SettingsContext.tsx:58 | spreading a one-field patch replaces just that field (high contrast) |
| SettingsContext.OverlayFontSize | context/SettingsContext.tsx:58 | spreading a one-field patch replaces just that field (font size) |
| SettingsContext.OverlayStickyHeader | context/SettingsContext.tsx:58 | spreading a one-field patch replaces just that field (sticky header) |
| SettingsContext.OverlayFavoriteTeam | context/SettingsContext.tsx:58 | spreading a one-field patch replaces just that field (favourite team) |
| SettingsContext.OverlaySearchSlashOpens | context/SettingsContext.tsx:58 | spreading a one-field patch replaces just that field (slash opens search) |
| SettingsContext.MergeNoChange | context/SettingsContext.tsx:58 | an empty patch changes nothing |
| SettingsContext.MergeFull | context/SettingsContext.tsx:49 | a patch that sets every field replaces the record whatever it was, which is what hydration over the defaults relies on |
| SettingsContext.GetThemeColors | context/SettingsContext.tsx:70-102 | the palette is blue exactly under the special theme, gold exactly on the hall of fame without it, and red otherwise |
| SettingsContext.PaletteIgnoresOtherSettings | context/SettingsContext.tsx:70-102 | no setting other than the special theme affects the palette |
| SettingsContext.ParseBoolText | context/SettingsContext.tsx:49 | the decoder reads back the text `JSON.stringify` writes for a boolean |
| SettingsContext.ParseFontText | context/SettingsContext.tsx:49 | the decoder reads back the text written for a font size |
| SettingsContext.HexRoundTrip | context/SettingsContext.tsx:59 | a control character written as `\u00XX` reads back as that character |
| SettingsContext.UnescapeChar | context/SettingsContext.tsx:49 | unescaping the escape of one character yields that character, then continues on the rest |
| SettingsContext.UnescapeEscape | context/SettingsContext.tsx:49 | unescaping an escaped string stops at the closing quote and gives back the string and the rest |
| SettingsContext.ParseQuoted | context/SettingsContext.tsx:49 | the decoder reads back a quoted string literal written by the encoder |
| SettingsContext.BoolFieldText | context/SettingsContext.tsx:49 | one boolean member written as `"key":value` reads back |
| SettingsContext.FontFieldText | context/SettingsContext.tsx:49 | the font-size member reads back |
| SettingsContext.TextFieldText | context/SettingsContext.tsx:49 | the favourite-team member reads back |
| SettingsContext.FlagsText | context/SettingsContext.tsx:49 | the three leading boolean members read back with what follows them |
| SettingsContext.LayoutText | context/SettingsContext.tsx:49 | the font-size and sticky-header members read back |
| SettingsContext.TailText | context/SettingsContext.tsx:49 | the last two members and the closing brace read back |
| SettingsContext.DecodeEncode | context/SettingsContext.tsx:59 | reading back the blob written by `JSON.stringify(updated)` gives the same settings |
| SettingsContext.PersistThenHydrate | context/SettingsContext.tsx:45-62 | a saved blob decodes to the saved settings, and spreading them over the defaults restores them exactly |
| SettingsContext.SettingsStore.constructor | context/SettingsContext.tsx:43 | the provider starts from the defaults over the given storage |
| SettingsContext.SettingsStore.Hydrate | context/SettingsContext.tsx:45-54 | a missing or empty saved value changes nothing; a value that fails to parse is logged and changes nothing; otherwise the settings become the defaults overlaid by what was parsed |
| SettingsContext.SettingsStore.UpdateSettings | context/SettingsContext.tsx:56-62 | succeeds exactly when storage is writable; on success the settings become the merge and the stored blob is their encoding, other keys untouched; on failure nothing changes |
| SettingsContext.SettingsStore.ResetSettings | context/SettingsContext.tsx:64-68 | the settings return to the defaults, the saved blob is removed, other keys are kept, and a reload is requested |
| SettingsContext.ResetTwice | context/SettingsContext.tsx:64-68 | resetting twice leaves the same state as resetting once |
| SettingsContext.UseSettings | context/SettingsContext.tsx:111-117 | the hook succeeds exactly inside a provider and then returns that provider |
| StandingsData.ShortNameOf | components/SchedulePage.tsx:82 | `teamShortNames[team]` is undefined exactly when no entry has that team, and otherwise is that entry's short name |
| App.Flip | App.tsx:110-113 | toggling always changes the theme |
| App.FlipTwice | App.tsx:110-113 | toggling twice gives back the theme |
| App.SettingsClasses | App.tsx:63-100 | each settings class is on exactly when its setting is: `reduced-motion`, `high-contrast`, `font-large` for the large size, `rahbizzy-theme` |
| App.SettingsClassesFaithful | App.tsx:63-100 | the settings classes determine the four settings they reflect |
| App.Document.constructor | App.tsx:17-21 | the shell starts light, with the given class lists, and remembers the initial special-theme flag |
| App.Document.InitTheme | App.tsx:24-36 | the theme is dark exactly when `dark` was saved, and the root `dark` class follows it; when nothing was saved, `light` is written if storage allows it |
| App.Document.SyncTheme | App.tsx:53-60 | a successful write saves the theme and sets the root `dark` class to match; a failed write changes nothing |
| App.Document.TriggerTransition | App.tsx:39-50 | the transition class is added unless motion is reduced |
| App.Document.EndTransition | App.tsx:45-47 | the timer removes the transition class and leaves the others |
| App.Document.ApplySettings | App.tsx:63-100 | the settings classes are replaced by those of the new settings and the others kept; the transition class is added exactly when the special theme changed and motion is not reduced |
| App.Document.ApplyActiveTab | App.tsx:103-108 | the body carries `theme-hof` exactly on the hall of fame, and its other classes are kept |
| App.Document.ToggleTheme | App.tsx:110-113 | the theme flips, and the transition class is added unless motion is reduced |
| App.ApplySettingsTwice | App.tsx:86-90 | applying the same settings again adds no second transition |
| Search.FilterMapMember | components/Navbar.tsx:152-154 | `filter` then `map` yields exactly the images of the kept elements |
| Search.PageCategory | components/Navbar.tsx:159-160 | hall of fame, history and records are "Legacy", credits is "Team", and every other page is "System" |
| Search.MatchedRecordsMember | components/Navbar.tsx:168-177 | a record result appears exactly for a matching item of some section, and carries that section's title |
| Search.SearchGroups | components/Navbar.tsx:147-185 | a blank query gives no groups; otherwise the non-empty groups come in the order Pages, Records, Players, and each holds exactly its matches for the lower-cased query |
| Search.GroupsOrdered | components/Navbar.tsx:179-183 | building the groups keeps each kind of match under its own name, and flattening lists pages, then records, then players |
| Search.FlattenEmptyIff | components/Navbar.tsx:187 | the flat list is empty exactly when there is no group |
| Search.GroupPresentIff | components/Navbar.tsx:179-183 | a group is shown exactly when it has a match |
| Search.SearchMember | components/Navbar.tsx:147-187 | an item is in the flat results exactly when the query is not blank and the item comes from a matching page, record or player |
| Search.SearchCatalogOrder | components/Navbar.tsx:152-177 | more catalog entries add their matches after the existing ones, within each group |
| Search.CursorDown | components/Navbar.tsx:251-254 | the down arrow moves to the next result and wraps from the last to the first |
| Search.CursorUp | components/Navbar.tsx:255-258 | the up arrow moves to the previous result and wraps from the first to the last |
| Search.CursorUpDown | components/Navbar.tsx:251-258 | down then up, or up then down, returns to the same result |
| Search.DisplayFor | components/Navbar.tsx:408-442 | the panel shows the hint exactly for a blank query, the list exactly when there are groups, and "no results" otherwise |
| Search.NoMatchesIff | components/Navbar.tsx:408-442 | "no results" shows exactly when the query is not blank and no page, record or player matches |
| Navbar.ParentTab | components/Navbar.tsx:91-102 | sub-pages map to `more` or `legacy` (`unknown` to `more`), and any other tab is its own parent |
| Navbar.ExactlyOneDesktopTabActive | components/Navbar.tsx:82-89 | on any known tab exactly one of the six desktop tabs is highlighted |
| Navbar.NavbarSearch.constructor | components/Navbar.tsx:147 | the search starts closed with an empty query and the first result selected |
| Navbar.NavbarSearch.OpenSearch | components/Navbar.tsx:194-205 | the search opens unless the window is narrower than 768 pixels |
| Navbar.NavbarSearch.CloseSearch | components/Navbar.tsx:207-211 | closing clears the query and the selection |
| Navbar.NavbarSearch.Type | components/Navbar.tsx:376 | typing replaces the query and selects the first result |
| Navbar.NavbarSearch.Hover | components/Navbar.tsx:423 | hovering selects that result |
| Navbar.NavbarSearch.Resize | components/Navbar.tsx:214-221 | shrinking below 768 pixels closes an open search; otherwise nothing changes |
| Navbar.NavbarSearch.ClickOutside | components/Navbar.tsx:272-279 | a click outside closes the search and clears it |
| Navbar.NavbarSearch.SelectResult | components/Navbar.tsx:189-192 | choosing a result navigates to its tab and closes the search |
| Navbar.NavbarSearch.SearchKey | components/Navbar.tsx:243-263 | Escape closes; with results, the arrows move the wrapping cursor and Enter navigates to the selected result and closes; other keys change nothing |
| Navbar.NavbarSearch.KeyDown | components/Navbar.tsx:226-269 | narrow windows ignore keys; when closed, `/` opens the search exactly when enabled and not typed into a form field, and any other key changes nothing; when open, Escape closes, the arrows move the wrapping cursor, and Enter navigates to the selected result and closes |
| SearchOverlay.SameResultsAsNavbar | components/SearchOverlay.tsx:57-97 | the overlay's catalogs give the same groups and flat list as the navbar's for every query |
| SearchOverlay.PanelPosition | components/SearchOverlay.tsx:194-217 | without an origin the panel is centred; with one, its right edge and top follow the button, and its width is the least of 672, the window less 32 and the room left of the button less 16, for fractional button coordinates and a whole-pixel window width |
| SearchOverlay.PanelStaysOnScreen | components/SearchOverlay.tsx:200-207 | an anchored panel keeps at least 16 pixels to the left of it and its right edge on the button's |
| SearchOverlay.FocusTrap | components/SearchOverlay.tsx:160-185 | Tab on the last focusable wraps to the first, Shift+Tab on the first wraps to the last, and otherwise focus is left alone |
| SearchOverlay.Overlay.constructor | components/SearchOverlay.tsx:39-50 | the overlay starts with the given props, an empty query and the first result selected |
| SearchOverlay.Overlay.SetOpen | components/SearchOverlay.tsx:116-130 | opening clears the query and the selection; any other change of the prop keeps them |
| SearchOverlay.Overlay.Type | components/SearchOverlay.tsx:284 | typing replaces the query and selects the first result |
| SearchOverlay.Overlay.Hover | components/SearchOverlay.tsx:317-320 | hovering selects that result |
| SearchOverlay.Overlay.Click | components/SearchOverlay.tsx:99-102 | clicking a result selects its tab and closes |
| SearchOverlay.Overlay.Resize | components/SearchOverlay.tsx:105-113 | a resize records the width and closes exactly when the overlay is open and anchored |
| SearchOverlay.Overlay.KeyDown | components/SearchOverlay.tsx:133-188 | while open, Escape closes, the arrows move the wrapping cursor, Enter selects the current result and closes, and Tab runs the focus trap; nothing happens while closed |
| SearchOverlay.Overlay.Display | components/SearchOverlay.tsx:292-353 | the hint shows exactly for a blank query and "no results" exactly when a query matches nothing |
| TabPage.ParentTab | components/TabPage.tsx:25-35 | sub-pages map to `more` or `legacy`, and any other tab is its own parent |
| TabPage.ParentTablesDifferOnlyOnUnknown | components/TabPage.tsx:25-35 | the page's parent table agrees with the navbar's on every tab except `unknown` |
| TabPage.BackNavigation | components/TabPage.tsx:54-63 | legacy sub-pages go back to `legacy` and the other sub-pages to `more` when a tab handler is given; anything else calls `onBack` |
| TabPage.BackLabel | components/TabPage.tsx:156 | the back button reads `legacy`, `more` or `home`, by the page's parent |
| TabPage.BackLabelNamesTarget | components/TabPage.tsx:54-63 | the back button's label names where it leads |
| TabPage.PageContent | components/TabPage.tsx:65-71 | a known tab shows its content entry; an unknown one shows its name capitalised, the fallback description and no items |
| TabPage.LabelTarget | components/TabPage.tsx:84 | a card label leads to its slug when one is listed, and otherwise to the lower-cased label |
| TabPage.ItemClick | components/TabPage.tsx:75-89 | a card click navigates exactly when a tab handler is given and the target is a valid tab, and then to that target |
| TabPage.OnlyMenuTabsHaveCards | data/content.ts:29-80 | only the legacy, more and partner-hub entries list menu cards |
| TabPage.LegacyCardOutcome | data/content.ts:33-34 | each legacy card leads to a sub-page under legacy |
| TabPage.MoreCardOutcome | data/content.ts:55-62 | each non-placeholder "more" card leads to a sub-page under more, and the "n/a" cards lead nowhere |
| TabPage.PartnerCardOutcome | data/content.ts:67-69 | the partner-hub cards lead nowhere |
| TabPage.MenuCardsLeadToSubPages | components/TabPage.tsx:75-89 | for every card of every content entry: it leads nowhere exactly when it is an "n/a" placeholder or on the partner hub, and otherwise to a sub-page whose parent is the tab that shows it |
| TabPage.RenderContent | components/TabPage.tsx:92-141 | each of the ten dedicated tabs renders its own view, each view exactly for its tab; legacy, more and every other tab render the content entry's items |
| TabPage.PagePalette | components/TabPage.tsx:47-48 | the page uses the gold palette exactly on the hall of fame, unless the special theme is on |
| SchedulePage.Without | components/SchedulePage.tsx:17 | filtering out a week keeps every other open week and introduces no duplicate |
| SchedulePage.Toggled | components/SchedulePage.tsx:15-19 | toggling a week opens it exactly when it was closed and leaves the other weeks alone |
| SchedulePage.ToggleTwice | components/SchedulePage.tsx:15-19 | toggling a week twice restores the open weeks |
| SchedulePage.Schedule.constructor | components/SchedulePage.tsx:11 | only week 6 starts open |
| SchedulePage.Schedule.ToggleWeek | components/SchedulePage.tsx:15-19 | the clicked week's panel flips and every other week keeps its state |
| SchedulePage.IsFavoriteGame | components/SchedulePage.tsx:21-24 | a game is highlighted exactly when a favourite is set and occurs in the matchup text |
| SchedulePage.SplitMatchup | components/SchedulePage.tsx:68 | the away side is the text before the first " @ "; the home side runs from there to the next " @ " or the end, and is absent when there is no " @ " |
| SchedulePage.SplitMatchupRoundTrip | components/SchedulePage.tsx:68 | a matchup written `away @ home` splits back into its two teams |
| SchedulePage.SplitMatchupTakesFirstTwo | components/SchedulePage.tsx:68 | a line with more than one " @ " yields its first two names, and the rest is dropped |
| SchedulePage.SeparatorFirstAfter | components/SchedulePage.tsx:68 | in a line whose away name has no `@`, the first " @ " is the one right after that name |
| SchedulePage.HighlightedSideInFavoriteGame | components/SchedulePage.tsx:80-87 | a side highlighted as the favourite always sits in a highlighted game |
| SchedulePage.ShortLabel | components/SchedulePage.tsx:82-89 | the phone label is the team's short name when one is listed and not empty, and otherwise the full name |
| SchedulePage.ShortLabelFallback | components/SchedulePage.tsx:82-89 | a team without a short name shows its full name |
| StandingsPage.FormatWinPct | components/StandingsPage.tsx:12-16 | no games reads ".000"; below one the text is a point and the three-digit thousandths; at one or more it keeps its leading digit |
| StandingsPage.PerfectRecord | components/StandingsPage.tsx:12-16 | an unbeaten team reads "1.000" |
| StandingsPage.RowHighlight | components/StandingsPage.tsx:47-53 | the favourite's row gets the favourite styling, the other top-four rows the playoff styling, and the rest none |
| StandingsPage.Strip | components/StandingsPage.tsx:56 | the coloured strip shows exactly on top-four rows that are not the favourite, blue under the special theme and red otherwise |
| StandingsPage.StripFollowsHighlight | components/StandingsPage.tsx:47-56 | the strip shows exactly on rows with the playoff styling |
| StandingsPage.RankLabel | components/StandingsPage.tsx:65 | the rank is written in decimal, padded to two digits |
| StandingsPage.CutoffAfterFourthRow | components/StandingsPage.tsx:78 | in both tables the playoff divider follows the fourth row, and with no favourite the playoff styling covers exactly the first four rows |
| SettingsModal.Sort | components/SettingsModal.tsx:16 | `sort()` yields an ordered permutation of its input |
| SettingsModal.TeamOptions | components/SettingsModal.tsx:122-125 | the team list offers "None selected" first, then every team of the short-name table in order |
| SettingsModal.TeamOptionsComplete | components/SettingsModal.tsx:16 | a team is offered exactly when it is in the short-name table |
| SettingsModal.Render | components/SettingsModal.tsx:14 | the drawer renders exactly when open, offering the team list and showing the current favourite |
| SettingsModal.Click | components/SettingsModal.tsx:21-165 | each control dispatches a one-field update that names its own setting, with the value the control sets or the flip of the drawn value; reset resets; the close button and backdrop close |
| SettingsModal.SwitchTwice | components/SettingsModal.tsx:73-165 | pressing a switch twice restores the settings |
| RecordsPage.ChipLabel | components/RecordsPage.tsx:53-57 | the chip reads "CAREER+" or "SEASON+" for the two advanced sections, and otherwise the section id up to its first dash, or the whole id when it has none |
| RecordsPage.ChipLabelWithoutDash | components/RecordsPage.tsx:57 | an id without a dash is its own chip label |
| RecordsPage.ChipLabelOfDashed | components/RecordsPage.tsx:57 | a dashed id's chip is the part before the first dash |
| RecordsPage.SectionChip | components/RecordsPage.tsx:53-57 | the chips of the seven sections read game, season, SEASON+, career, CAREER+, awards and misc, in order |
| RecordsPage.SectionChipsDistinct | components/RecordsPage.tsx:43-57 | no two sections of the page share a chip label |
| RecordsPage.OneTrigger | components/RecordsPage.tsx:84 | exactly one record on the page starts the easter egg |
| RecordsPage.EasterEgg.constructor | components/RecordsPage.tsx:11 | the easter egg starts off |
| RecordsPage.EasterEgg.VeinyClick | components/RecordsPage.tsx:23-27 | clicking the trigger plays the easter egg |
| RecordsPage.EasterEgg.Complete | components/RecordsPage.tsx:32-38 | the animation's completion stops it |
| RecordsPage.ClickClickComplete | components/RecordsPage.tsx:23-38 | a second click while playing does not outlive the completion |
| RecordsPage.MobileContext | components/RecordsPage.tsx:129 | the phone card shows the context exactly when it is non-empty and not the dash placeholder |
| RecordsPage.DesktopContext | components/RecordsPage.tsx:182-188 | the context line shows when there is a team or a context; the dot sits between them exactly when both show; the context is highlighted exactly when it mentions "counting" or "2x" |
| RecordsPage.DotBetweenTeamAndContext | components/RecordsPage.tsx:185 | the dot shows exactly when both the team and the context are shown |
| HallOfFamePage.AwardsView | components/HallOfFamePage.tsx:129-136 | at most ten award chips, taken from the front; the "+n" badge counts exactly the ones left over; the note shows when awards are missing |
| HallOfFamePage.AwardsAccountedFor | components/HallOfFamePage.tsx:129-136 | shown chips plus the badge's count equal the number of awards |
| HallOfFamePage.StatCell | components/HallOfFamePage.tsx:145 | a stat splits at its first space into the value and the unit; the unit runs to the next space or the end, and is absent when there is no space |
| HallOfFamePage.StatCellRoundTrip | components/HallOfFamePage.tsx:145 | `value unit` splits back into the value and the unit |
| HallOfFamePage.StatCellTakesFirstTwo | components/HallOfFamePage.tsx:145 | a stat with more than two words yields its first two, and the rest is dropped |
| HallOfFamePage.SpaceFirstAfter | components/HallOfFamePage.tsx:145 | in a stat whose value has no space, the first space is the one right after the value |
| HallOfFamePage.StatsView | components/HallOfFamePage.tsx:144-145 | the stats line splits at the bullet separator into cells that together give back the line |
| HallOfFamePage.Description | components/HallOfFamePage.tsx:105 | the card shows the description, or the "coming soon" text when it is missing or empty |
| HallOfFamePage.PictureOf | components/HallOfFamePage.tsx:69-81 | the card shows the image when there is a non-empty one, and the "coming soon" panel otherwise |
| HallOfFamePage.Card.constructor | components/HallOfFamePage.tsx:51 | a card starts face up |
| HallOfFamePage.Card.Click | components/HallOfFamePage.tsx:56 | a click flips the card |
| HallOfFamePage.Eligibility.constructor | components/HallOfFamePage.tsx:6 | the eligibility panel starts closed |
| HallOfFamePage.Eligibility.Click | components/HallOfFamePage.tsx:11 | a click toggles the panel |
| HallOfFamePage.ClickTwice | components/HallOfFamePage.tsx:56 | two clicks leave the card as it was |
| MorePage.RenderCard | components/MorePage.tsx:24-62 | the card shows its category only when there is one, the label in lower case, and a dash footer and disabled state exactly for placeholders |
| MorePage.ClickCard | components/MorePage.tsx:30 | a placeholder card does nothing, and any other card reports its label |
| MorePage.ClickThrough | components/MorePage.tsx:30 | through the tab page, a placeholder leads nowhere and any other card leads only to a valid tab |
| MorePage.MoreTabCards | data/content.ts:52-62 | the "more" tab shows six cards: history, three placeholders, rules and credits |
| MorePage.NextIndex | components/MorePage.tsx:74 | the footer message advances by one and wraps after the fifth |
| MorePage.FiveClicksCycle | components/MorePage.tsx:74 | five clicks bring back the same message |
| MorePage.Footer.constructor | components/MorePage.tsx:14 | the footer starts at the first message |
| MorePage.Footer.Click | components/MorePage.tsx:74 | a click advances to the next message, wrapping |
| LandingPage.CoinCount | components/LandingPage.tsx:22-24 | coins are drawn only under the special theme: 3 with reduced motion, 18 without |
| LandingPage.OnlyThirdTitleIsTarget | components/LandingPage.tsx:11-20 | of the eight hero titles, only the third opens the checkout |
| LandingPage.Checkout.constructor | components/LandingPage.tsx:79-80 | a checkout starts with one item and no joke |
| LandingPage.Checkout.Decrement | components/LandingPage.tsx:152 | "-" lowers the quantity but never below one, and above one takes exactly five dollars off the total |
| LandingPage.Checkout.Increment | components/LandingPage.tsx:154 | "+" raises the quantity by one and the total by exactly five dollars |
| LandingPage.Checkout.Pay | components/LandingPage.tsx:93-96 | paying shows the joke |
| LandingPage.TotalText | components/LandingPage.tsx:90 | the total is five dollars times the quantity, written with two zero decimals |
| LandingPage.TotalStepsByUnitPrice | components/LandingPage.tsx:90 | for every quantity, the dollars shown are five times the quantity, and one more item shows exactly five dollars more |
| LandingPage.Hero.constructor | components/LandingPage.tsx:247-255 | the hero shows the title drawn on mount, with the checkout closed |
| LandingPage.Hero.ClickTitle | components/LandingPage.tsx:307 | a click opens the checkout exactly on the target title |
| LandingPage.Hero.TitleKey | components/LandingPage.tsx:308 | Enter or space on the target title opens the checkout |
| LandingPage.Hero.WindowKey | components/LandingPage.tsx:258-273 | Escape closes an open checkout, and other keys leave it |
| LandingPage.Hero.CloseCheckout | components/LandingPage.tsx:297-301 | the checkout's close, cancel and backdrop buttons close it |
| LandingPage.NonTargetStaysClosed | components/LandingPage.tsx:307-308 | a title other than the target never opens the checkout |

## Left out

- Case mapping covers ASCII letters only; `toLowerCase` and `toUpperCase` on other scripts are not modelled.
- `JSON.parse` is an input to `Hydrate`, given as an optional typed partial record. A stored blob with ill-typed or unknown fields cannot be represented. The decoder proved against the encoder reads the canonical form `JSON.stringify` writes, not arbitrary JSON.
- StandingsPage.FormatWinPct: takes the rounded thousandths of `w / (w + l)` as an argument. The floating-point division and the rounding of `toFixed(3)` are not modelled.
- `Math.random` is not modelled. The hero title index is a constructor argument, and coin and particle geometry is left out.
- Focus, `requestAnimationFrame` and the focusing `setTimeout` calls are left out. The 250 ms transition timer is the separate step `EndTransition`, and scroll locking is not modelled.
- `Array.prototype.sort` compares UTF-16 code units. The model compares Unicode code points, which agree on the team names, all of which are ASCII.
- Inherited object keys (`constructor`, `toString`) looked up in `contentMap`, `slugMap` and `teamShortNames` are not modelled. Lookups see only the listed entries.
- The hall-of-fame roster, schedule data and credits are inputs or left out. The hall-of-fame logic is stated for any member, and the schedule logic for any week and matchup.
- `window.location.reload` is a flag, `reloadRequested`.
- A `localStorage.setItem` that throws is modelled as a failure result that changes nothing (`UpdateSettings`, `InitTheme`, `SyncTheme`). The error React then raises, which unmounts the application because no error boundary exists, is not modelled.
- `console.error` is the `logged` result of `Hydrate`.
- Purely presentational components have no state or logic beyond markup and are not part of this model: rules, credits, history, stats, legacy, menu grid, hall of shame, unknown page, fluid background, route transition, scroll-to-top button, and the easter egg's animation.
- The search overlay is not mounted by `App`. It is modelled as a component with its own props.
- React's rendering, effects ordering and the batching of state updates are not modelled. Each handler is one atomic step on its component's state.
