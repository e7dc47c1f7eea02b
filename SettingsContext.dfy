/** The settings store behind every view (context/SettingsContext.tsx): one
    mutable settings record with fixed defaults, a partial-merge update that
    writes the merged record through to the `nbll_settings` storage slot,
    hydration from that slot, a reset, and the accent palette chosen from
    the special theme and the Hall of Fame flag. */
module SettingsContext {
  import opened Wrappers
  import opened JsStrings
  import opened Browser

  // ------------------------------------------------------------ the record

  datatype FontSize = Normal | Large

  datatype Settings = Settings(
    rahBizzyTheme: bool,
    reducedMotion: bool,
    highContrast: bool,
    fontSize: FontSize,
    stickyHeader: bool,
    favoriteTeam: string,
    searchSlashOpens: bool)

  /** `Partial<Settings>`: each field may be absent. */
  datatype PartialSettings = PartialSettings(
    rahBizzyTheme: Option<bool>,
    reducedMotion: Option<bool>,
    highContrast: Option<bool>,
    fontSize: Option<FontSize>,
    stickyHeader: Option<bool>,
    favoriteTeam: Option<string>,
    searchSlashOpens: Option<bool>)

  /** `defaultSettings` */
  const Defaults := Settings(false, false, false, Normal, true, "", true)

  /** The partial record with no field set. */
  const NoChange := PartialSettings(None, None, None, None, None, None, None)

  /** The partial record that sets every field to the value it has in `s`. */
  function Full(s: Settings): PartialSettings {
    PartialSettings(Some(s.rahBizzyTheme), Some(s.reducedMotion), Some(s.highContrast),
      Some(s.fontSize), Some(s.stickyHeader), Some(s.favoriteTeam), Some(s.searchSlashOpens))
  }

  /** `{ ...prev, ...p }` on the typed record. */
  function Merge(prev: Settings, p: PartialSettings): Settings {
    Settings(
      p.rahBizzyTheme.GetOr(prev.rahBizzyTheme),
      p.reducedMotion.GetOr(prev.reducedMotion),
      p.highContrast.GetOr(prev.highContrast),
      p.fontSize.GetOr(prev.fontSize),
      p.stickyHeader.GetOr(prev.stickyHeader),
      p.favoriteTeam.GetOr(prev.favoriteTeam),
      p.searchSlashOpens.GetOr(prev.searchSlashOpens))
  }

  // ------------------------------------- the record as a JavaScript object

  datatype Value = BoolValue(b: bool) | FontValue(f: FontSize) | TextValue(t: string)

  /** The field names of the record. */
  const FieldNames: set<string> :=
    {"rahBizzyTheme", "reducedMotion", "highContrast", "fontSize", "stickyHeader", "favoriteTeam", "searchSlashOpens"}

  /** The value of the field called `name`. */
  function FieldValue(s: Settings, name: string): Value
    requires name in FieldNames
  {
    if name == "rahBizzyTheme" then BoolValue(s.rahBizzyTheme)
    else if name == "reducedMotion" then BoolValue(s.reducedMotion)
    else if name == "highContrast" then BoolValue(s.highContrast)
    else if name == "fontSize" then FontValue(s.fontSize)
    else if name == "stickyHeader" then BoolValue(s.stickyHeader)
    else if name == "favoriteTeam" then TextValue(s.favoriteTeam)
    else BoolValue(s.searchSlashOpens)
  }

  /** The record as a JavaScript object: field name to value. */
  function AsObject(s: Settings): (o: map<string, Value>)
    ensures o.Keys == FieldNames
  {
    map n | n in FieldNames :: FieldValue(s, n)
  }

  function BoolEntry(name: string, field: Option<bool>): map<string, Value> {
    if field.Some? then map[name := BoolValue(field.value)] else map[]
  }

  function FontEntry(name: string, field: Option<FontSize>): map<string, Value> {
    if field.Some? then map[name := FontValue(field.value)] else map[]
  }

  function TextEntry(name: string, field: Option<string>): map<string, Value> {
    if field.Some? then map[name := TextValue(field.value)] else map[]
  }

  /** The partial record as a JavaScript object: only the fields it sets. */
  function PartialAsObject(p: PartialSettings): map<string, Value> {
    BoolEntry("rahBizzyTheme", p.rahBizzyTheme)
    + BoolEntry("reducedMotion", p.reducedMotion)
    + BoolEntry("highContrast", p.highContrast)
    + FontEntry("fontSize", p.fontSize)
    + BoolEntry("stickyHeader", p.stickyHeader)
    + TextEntry("favoriteTeam", p.favoriteTeam)
    + BoolEntry("searchSlashOpens", p.searchSlashOpens)
  }

  /** Overlaying one entry of a partial record on the object of `x` gives
      the object of `x` with that one field replaced. */
  lemma OverlayRahBizzyTheme(x: Settings, o: Option<bool>)
    ensures AsObject(x) + BoolEntry("rahBizzyTheme", o) == AsObject(x.(rahBizzyTheme := o.GetOr(x.rahBizzyTheme)))
  {
  }

  lemma OverlayReducedMotion(x: Settings, o: Option<bool>)
    ensures AsObject(x) + BoolEntry("reducedMotion", o) == AsObject(x.(reducedMotion := o.GetOr(x.reducedMotion)))
  {
  }

  lemma OverlayHighContrast(x: Settings, o: Option<bool>)
    ensures AsObject(x) + BoolEntry("highContrast", o) == AsObject(x.(highContrast := o.GetOr(x.highContrast)))
  {
  }

  lemma OverlayFontSize(x: Settings, o: Option<FontSize>)
    ensures AsObject(x) + FontEntry("fontSize", o) == AsObject(x.(fontSize := o.GetOr(x.fontSize)))
  {
  }

  lemma OverlayStickyHeader(x: Settings, o: Option<bool>)
    ensures AsObject(x) + BoolEntry("stickyHeader", o) == AsObject(x.(stickyHeader := o.GetOr(x.stickyHeader)))
  {
  }

  lemma OverlayFavoriteTeam(x: Settings, o: Option<string>)
    ensures AsObject(x) + TextEntry("favoriteTeam", o) == AsObject(x.(favoriteTeam := o.GetOr(x.favoriteTeam)))
  {
  }

  lemma OverlaySearchSlashOpens(x: Settings, o: Option<bool>)
    ensures AsObject(x) + BoolEntry("searchSlashOpens", o) == AsObject(x.(searchSlashOpens := o.GetOr(x.searchSlashOpens)))
  {
  }

  lemma UnionAssoc<K, V>(a: map<K, V>, b: map<K, V>, c: map<K, V>)
    ensures a + (b + c) == (a + b) + c
  {
  }

  /** `Merge` is object spread: every field set in `p` takes `p`'s value, and
      every other field keeps the value it had in `prev`. */
  lemma MergeIsSpread(prev: Settings, p: PartialSettings)
    ensures AsObject(Merge(prev, p)) == AsObject(prev) + PartialAsObject(p)
  {
    var a := AsObject(prev);
    var e1 := BoolEntry("rahBizzyTheme", p.rahBizzyTheme);
    var e2 := BoolEntry("reducedMotion", p.reducedMotion);
    var e3 := BoolEntry("highContrast", p.highContrast);
    var e4 := FontEntry("fontSize", p.fontSize);
    var e5 := BoolEntry("stickyHeader", p.stickyHeader);
    var e6 := TextEntry("favoriteTeam", p.favoriteTeam);
    var e7 := BoolEntry("searchSlashOpens", p.searchSlashOpens);
    var p1 := e1;
    var p2 := p1 + e2;
    var p3 := p2 + e3;
    var p4 := p3 + e4;
    var p5 := p4 + e5;
    var p6 := p5 + e6;
    var p7 := p6 + e7;
    assert PartialAsObject(p) == p7;
    UnionAssoc(a, p6, e7);
    UnionAssoc(a, p5, e6);
    UnionAssoc(a, p4, e5);
    UnionAssoc(a, p3, e4);
    UnionAssoc(a, p2, e3);
    UnionAssoc(a, p1, e2);
    var x1 := prev.(rahBizzyTheme := p.rahBizzyTheme.GetOr(prev.rahBizzyTheme));
    OverlayRahBizzyTheme(prev, p.rahBizzyTheme);
    var x2 := x1.(reducedMotion := p.reducedMotion.GetOr(prev.reducedMotion));
    OverlayReducedMotion(x1, p.reducedMotion);
    var x3 := x2.(highContrast := p.highContrast.GetOr(prev.highContrast));
    OverlayHighContrast(x2, p.highContrast);
    var x4 := x3.(fontSize := p.fontSize.GetOr(prev.fontSize));
    OverlayFontSize(x3, p.fontSize);
    var x5 := x4.(stickyHeader := p.stickyHeader.GetOr(prev.stickyHeader));
    OverlayStickyHeader(x4, p.stickyHeader);
    var x6 := x5.(favoriteTeam := p.favoriteTeam.GetOr(prev.favoriteTeam));
    OverlayFavoriteTeam(x5, p.favoriteTeam);
    var x7 := x6.(searchSlashOpens := p.searchSlashOpens.GetOr(prev.searchSlashOpens));
    OverlaySearchSlashOpens(x6, p.searchSlashOpens);
    assert x7 == Merge(prev, p);
  }

  lemma MergeNoChange(s: Settings)
    ensures Merge(s, NoChange) == s
  {
  }

  lemma MergeFull(prev: Settings, s: Settings)
    ensures Merge(prev, Full(s)) == s
  {
  }

  // ------------------------------------------------------- theme palettes

  datatype ThemeColors = ThemeColors(text: string, bg: string, bgSoft: string, border: string, shadow: string, hoverShadow: string)

  const BluePalette := ThemeColors(
    "text-[#3B82F6]", "bg-[#3B82F6]", "bg-[#3B82F6]/5 dark:bg-[#3B82F6]/10", "border-[#3B82F6]/30",
    "shadow-[0_4px_12px_rgba(59,130,246,0.2)]", "hover:shadow-[#3B82F6]/5")

  const GoldPalette := ThemeColors(
    "text-[#D4AF37]", "bg-[#D4AF37]", "bg-[#D4AF37]/10 dark:bg-[#D4AF37]/20", "border-[#D4AF37]/50",
    "shadow-[0_4px_12px_rgba(212,175,55,0.2)]", "hover:shadow-[#D4AF37]/5")

  const RedPalette := ThemeColors(
    "text-[#D60A07]", "bg-[#D60A07]", "bg-[#D60A07]/5 dark:bg-[#D60A07]/10", "border-[#D60A07]/30",
    "shadow-[0_4px_12px_rgba(214,10,7,0.2)]", "hover:shadow-[#D60A07]/5")

  /** `getThemeColors(isHOF)`: the special theme wins over the Hall of Fame
      context, which wins over the default red. Callers that pass nothing
      pass `false`. */
  function GetThemeColors(s: Settings, isHOF: bool): (r: ThemeColors)
    ensures r == BluePalette <==> s.rahBizzyTheme
    ensures r == GoldPalette <==> !s.rahBizzyTheme && isHOF
    ensures r == RedPalette <==> !s.rahBizzyTheme && !isHOF
  {
    if s.rahBizzyTheme then BluePalette
    else if isHOF then GoldPalette
    else RedPalette
  }

  /** No setting other than the special theme affects the palette. */
  lemma PaletteIgnoresOtherSettings(s: Settings, t: Settings, isHOF: bool)
    requires s.rahBizzyTheme == t.rahBizzyTheme
    ensures GetThemeColors(s, isHOF) == GetThemeColors(t, isHOF)
  {
  }

  // ------------------------------------------- the stored blob (JSON text)

  function HexDigitChar(d: nat): (c: char)
    requires d < 16
  {
    if d < 10 then (d + '0' as int) as char else (d - 10 + 'a' as int) as char
  }

  function HexValue(c: char): Option<nat> {
    if '0' <= c <= '9' then Some(c as int - '0' as int)
    else if 'a' <= c <= 'f' then Some(c as int - 'a' as int + 10)
    else if 'A' <= c <= 'F' then Some(c as int - 'A' as int + 10)
    else None
  }

  /** How `JSON.stringify` writes one character inside a string literal. */
  function EscapeChar(c: char): string {
    if c == '"' then "\\\""
    else if c == '\\' then "\\\\"
    else if c == '\U{0008}' then "\\b"
    else if c == '\t' then "\\t"
    else if c == '\n' then "\\n"
    else if c == '\U{000C}' then "\\f"
    else if c == '\r' then "\\r"
    else if (c as int) < 0x20 then "\\u00" + [HexDigitChar(c as int / 16), HexDigitChar(c as int % 16)]
    else [c]
  }

  function Escape(s: string): string {
    if s == [] then [] else EscapeChar(s[0]) + Escape(s[1..])
  }

  /** A JSON string literal for `s`. */
  function Quote(s: string): string {
    "\"" + Escape(s) + "\""
  }

  function BoolText(b: bool): string {
    if b then "true" else "false"
  }

  function FontText(f: FontSize): string {
    if f == Normal then "\"normal\"" else "\"large\""
  }

  const KeyRahBizzy := "{\"rahBizzyTheme\":"
  const KeyReducedMotion := ",\"reducedMotion\":"
  const KeyHighContrast := ",\"highContrast\":"
  const KeyFontSize := ",\"fontSize\":"
  const KeySticky := ",\"stickyHeader\":"
  const KeyFavorite := ",\"favoriteTeam\":"
  const KeySlash := ",\"searchSlashOpens\":"

  /** `JSON.stringify(s)`: the fields in declaration order, no whitespace. */
  function Encode(s: Settings): string {
    KeyRahBizzy + (BoolText(s.rahBizzyTheme) +
    (KeyReducedMotion + (BoolText(s.reducedMotion) +
    (KeyHighContrast + (BoolText(s.highContrast) +
    (KeyFontSize + (FontText(s.fontSize) +
    (KeySticky + (BoolText(s.stickyHeader) +
    (KeyFavorite + (Quote(s.favoriteTeam) +
    (KeySlash + (BoolText(s.searchSlashOpens) + "}")))))))))))))
  }

  function Prepend(c: char, o: Option<(string, string)>): Option<(string, string)> {
    match o
    case None => None
    case Some(p) => Some(([c] + p.0, p.1))
  }

  function ShortEscape(e: char): Option<char> {
    if e == '"' then Some('"')
    else if e == '\\' then Some('\\')
    else if e == '/' then Some('/')
    else if e == 'b' then Some('\U{0008}')
    else if e == 'f' then Some('\U{000C}')
    else if e == 'n' then Some('\n')
    else if e == 'r' then Some('\r')
    else if e == 't' then Some('\t')
    else None
  }

  /** The character named by four hex digits; surrogate halves cannot stand
      alone in a Dafny string and are refused. */
  function HexQuad(h: string): Option<char>
    requires |h| == 4
  {
    var d0 :- HexValue(h[0]);
    var d1 :- HexValue(h[1]);
    var d2 :- HexValue(h[2]);
    var d3 :- HexValue(h[3]);
    var code := ((d0 * 16 + d1) * 16 + d2) * 16 + d3;
    if code < 0xD800 || (0xDFFF < code < 0x11_0000) then Some(code as char) else None
  }

  /** Reads the body of a JSON string literal up to its closing quote:
      the decoded text and what follows the quote. */
  function Unescape(t: string): Option<(string, string)>
    decreases |t|
  {
    if |t| == 0 then None
    else if t[0] == '"' then Some(("", t[1..]))
    else if t[0] == '\\' then
      if |t| < 2 then None
      else if t[1] == 'u' then
        if |t| < 6 then None
        else match HexQuad(t[2..6]) {
          case None => None
          case Some(c) => Prepend(c, Unescape(t[6..]))
        }
      else match ShortEscape(t[1]) {
        case None => None
        case Some(c) => Prepend(c, Unescape(t[2..]))
      }
    else if (t[0] as int) < 0x20 then None
    else Prepend(t[0], Unescape(t[1..]))
  }

  function ExpectText(lit: string, t: string): Option<string> {
    if StartsWith(t, lit) then Some(t[|lit|..]) else None
  }

  function ParseBool(t: string): Option<(bool, string)> {
    if StartsWith(t, "true") then Some((true, t[4..]))
    else if StartsWith(t, "false") then Some((false, t[5..]))
    else None
  }

  function ParseFont(t: string): Option<(FontSize, string)> {
    if StartsWith(t, "\"normal\"") then Some((Normal, t[8..]))
    else if StartsWith(t, "\"large\"") then Some((Large, t[7..]))
    else None
  }

  function ParseString(t: string): Option<(string, string)> {
    if |t| > 0 && t[0] == '"' then Unescape(t[1..]) else None
  }

  /** One `"key":value` member whose value is a boolean. */
  function BoolField(key: string, t: string): Option<(bool, string)> {
    var rest :- ExpectText(key, t);
    ParseBool(rest)
  }

  /** The three leading boolean members, and what follows them. */
  function DecodeFlags(t: string): Option<(bool, bool, bool, string)> {
    var a :- BoolField(KeyRahBizzy, t);
    var b :- BoolField(KeyReducedMotion, a.1);
    var c :- BoolField(KeyHighContrast, b.1);
    Some((a.0, b.0, c.0, c.1))
  }

  /** The font size and sticky-header members, and what follows them. */
  function DecodeLayout(t: string): Option<(FontSize, bool, string)> {
    var t4 :- ExpectText(KeyFontSize, t);
    var f :- ParseFont(t4);
    var d :- BoolField(KeySticky, f.1);
    Some((f.0, d.0, d.1))
  }

  /** The favourite-team and slash members, then the closing brace. */
  function DecodeTail(t: string): Option<(string, bool)> {
    var t6 :- ExpectText(KeyFavorite, t);
    var e :- ParseString(t6);
    var g :- BoolField(KeySlash, e.1);
    if g.1 == "}" then Some((e.0, g.0)) else None
  }

  /** Reads back a blob written by `Encode`. */
  function Decode(t: string): Option<Settings> {
    var flags :- DecodeFlags(t);
    var layout :- DecodeLayout(flags.3);
    var tail :- DecodeTail(layout.2);
    Some(Settings(flags.0, flags.1, flags.2, layout.0, layout.1, tail.0, tail.1))
  }

  lemma ExpectTextPrefix(lit: string, rest: string)
    ensures ExpectText(lit, lit + rest) == Some(rest)
  {
    assert (lit + rest)[..|lit|] == lit;
  }

  lemma ParseBoolText(b: bool, rest: string)
    ensures ParseBool(BoolText(b) + rest) == Some((b, rest))
  {
    var t := BoolText(b) + rest;
    assert t[..|BoolText(b)|] == BoolText(b);
    assert t[|BoolText(b)|..] == rest;
    if !b {
      assert t[0] == 'f';
    }
  }

  lemma ParseFontText(f: FontSize, rest: string)
    ensures ParseFont(FontText(f) + rest) == Some((f, rest))
  {
    var t := FontText(f) + rest;
    assert t[..|FontText(f)|] == FontText(f);
    assert t[|FontText(f)|..] == rest;
    if f == Large {
      assert t[1] == 'l';
    }
  }

  lemma HexRoundTrip(code: nat)
    requires code < 0x20
    ensures HexQuad(['0', '0', HexDigitChar(code / 16), HexDigitChar(code % 16)]) == Some(code as char)
  {
  }

  /** Decoding one escaped character consumes exactly its escape. */
  lemma UnescapeChar(c: char, u: string)
    ensures Unescape(EscapeChar(c) + u) == Prepend(c, Unescape(u))
  {
    var t := EscapeChar(c) + u;
    var n := |EscapeChar(c)|;
    assert t[n..] == u;
    if (c as int) < 0x20 && c != '\U{0008}' && c != '\t' && c != '\n' && c != '\U{000C}' && c != '\r' {
      HexRoundTrip(c as int);
      assert t[2..6] == ['0', '0', HexDigitChar(c as int / 16), HexDigitChar(c as int % 16)];
    }
  }

  /** The body of a string literal written by `Escape` reads back as the
      original text, whatever follows the closing quote. */
  lemma {:induction false} UnescapeEscape(s: string, rest: string)
    ensures Unescape(Escape(s) + "\"" + rest) == Some((s, rest))
    decreases |s|
  {
    if s == [] {
      assert Escape(s) + "\"" + rest == "\"" + rest;
      assert ("\"" + rest)[1..] == rest;
    } else {
      var u := Escape(s[1..]) + "\"" + rest;
      UnescapeEscape(s[1..], rest);
      UnescapeChar(s[0], u);
      assert Escape(s) + "\"" + rest == EscapeChar(s[0]) + u;
      assert [s[0]] + s[1..] == s;
    }
  }

  lemma ParseQuoted(s: string, rest: string)
    ensures ParseString(Quote(s) + rest) == Some((s, rest))
  {
    var t := Quote(s) + rest;
    assert t[1..] == Escape(s) + "\"" + rest;
    UnescapeEscape(s, rest);
  }

  lemma BoolFieldText(key: string, b: bool, rest: string)
    ensures BoolField(key, key + (BoolText(b) + rest)) == Some((b, rest))
  {
    ExpectTextPrefix(key, BoolText(b) + rest);
    ParseBoolText(b, rest);
  }

  lemma FontFieldText(f: FontSize, rest: string)
    ensures ExpectText(KeyFontSize, KeyFontSize + (FontText(f) + rest)) == Some(FontText(f) + rest)
    ensures ParseFont(FontText(f) + rest) == Some((f, rest))
  {
    ExpectTextPrefix(KeyFontSize, FontText(f) + rest);
    ParseFontText(f, rest);
  }

  lemma TextFieldText(s: string, rest: string)
    ensures ExpectText(KeyFavorite, KeyFavorite + (Quote(s) + rest)) == Some(Quote(s) + rest)
    ensures ParseString(Quote(s) + rest) == Some((s, rest))
  {
    ExpectTextPrefix(KeyFavorite, Quote(s) + rest);
    ParseQuoted(s, rest);
  }

  /** The three boolean members written first read back, leaving the rest. */
  lemma FlagsText(s: Settings, r3: string)
    ensures DecodeFlags(KeyRahBizzy + (BoolText(s.rahBizzyTheme) +
      (KeyReducedMotion + (BoolText(s.reducedMotion) +
      (KeyHighContrast + (BoolText(s.highContrast) + r3))))))
      == Some((s.rahBizzyTheme, s.reducedMotion, s.highContrast, r3))
  {
    var r2 := KeyHighContrast + (BoolText(s.highContrast) + r3);
    var r1 := KeyReducedMotion + (BoolText(s.reducedMotion) + r2);
    BoolFieldText(KeyRahBizzy, s.rahBizzyTheme, r1);
    BoolFieldText(KeyReducedMotion, s.reducedMotion, r2);
    BoolFieldText(KeyHighContrast, s.highContrast, r3);
  }

  /** The font size and sticky-header members read back, leaving the rest. */
  lemma LayoutText(s: Settings, r5: string)
    ensures DecodeLayout(KeyFontSize + (FontText(s.fontSize) + (KeySticky + (BoolText(s.stickyHeader) + r5))))
      == Some((s.fontSize, s.stickyHeader, r5))
  {
    var r4 := KeySticky + (BoolText(s.stickyHeader) + r5);
    FontFieldText(s.fontSize, r4);
    BoolFieldText(KeySticky, s.stickyHeader, r5);
  }

  /** The last two members and the closing brace read back. */
  lemma TailText(s: Settings)
    ensures DecodeTail(KeyFavorite + (Quote(s.favoriteTeam) + (KeySlash + (BoolText(s.searchSlashOpens) + "}"))))
      == Some((s.favoriteTeam, s.searchSlashOpens))
  {
    var r6 := KeySlash + (BoolText(s.searchSlashOpens) + "}");
    TextFieldText(s.favoriteTeam, r6);
    BoolFieldText(KeySlash, s.searchSlashOpens, "}");
  }

  /** What `updateSettings` stores reads back as exactly the stored record. */
  lemma DecodeEncode(s: Settings)
    ensures Decode(Encode(s)) == Some(s)
  {
    var r5 := KeyFavorite + (Quote(s.favoriteTeam) + (KeySlash + (BoolText(s.searchSlashOpens) + "}")));
    var r3 := KeyFontSize + (FontText(s.fontSize) + (KeySticky + (BoolText(s.stickyHeader) + r5)));
    FlagsText(s, r3);
    LayoutText(s, r5);
    TailText(s);
  }

  // --------------------------------------------------------------- the store

  const StorageKey := "nbll_settings"

  datatype StorageError = QuotaExceeded

  /** The provider's state: the settings cell and the storage it writes to. */
  class SettingsStore {
    var settings: Settings
    const storage: LocalStorage
    /** Set by a reset: the page asked the browser to reload. */
    var reloadRequested: bool

    /** `useState(defaultSettings)` on mount. */
    constructor (storage: LocalStorage)
      ensures settings == Defaults && this.storage == storage && !reloadRequested
    {
      settings := Defaults;
      this.storage := storage;
      reloadRequested := false;
    }

    /** The mount effect. `parsed` stands for `JSON.parse` of the stored
        text (`None` when it throws); `logged` reports the console error. */
    method Hydrate(parsed: Option<PartialSettings>) returns (logged: bool)
      modifies this`settings
      ensures var saved := storage.GetItem(StorageKey);
        if saved.None? || saved.value == "" then settings == old(settings) && !logged
        else if parsed.None? then settings == old(settings) && logged
        else settings == Merge(Defaults, parsed.value) && !logged
    {
      var saved := storage.GetItem(StorageKey);
      logged := false;
      if saved.Some? && saved.value != "" {
        match parsed
        case None =>
          logged := true;
        case Some(p) =>
          settings := Merge(Defaults, p);
      }
    }

    /** `updateSettings(p)`. The write to storage is not guarded, so when it
        throws the state update is abandoned and the error escapes. */
    method UpdateSettings(p: PartialSettings) returns (r: Result<(), StorageError>)
      modifies this`settings, storage`items
      ensures r.Success? <==> storage.writable
      ensures r.Success? ==> settings == Merge(old(settings), p)
      ensures r.Success? ==> storage.items == old(storage.items)[StorageKey := Encode(settings)]
      ensures r.Failure? ==> settings == old(settings) && storage.items == old(storage.items)
    {
      var updated := Merge(settings, p);
      var ok := storage.SetItem(StorageKey, Encode(updated));
      if ok {
        settings := updated;
        r := Success(());
      } else {
        r := Failure(QuotaExceeded);
      }
    }

    /** `resetSettings()`: defaults, the slot removed, and a reload. */
    method ResetSettings()
      modifies this`settings, this`reloadRequested, storage`items
      ensures settings == Defaults
      ensures storage.items == old(storage.items) - {StorageKey}
      ensures reloadRequested
    {
      settings := Defaults;
      storage.RemoveItem(StorageKey);
      reloadRequested := true;
    }

    /** The palette the context hands out. */
    function ThemeColorsFor(isHOF: bool): ThemeColors
      reads this
    {
      GetThemeColors(settings, isHOF)
    }
  }

  /** A store whose slot holds what an update wrote comes back from a reload
      with the same settings: the stored text decodes to the record, and
      overlaying that record on the defaults gives the record. */
  lemma PersistThenHydrate(s: Settings)
    ensures Decode(Encode(s)) == Some(s)
    ensures Merge(Defaults, Full(s)) == s
  {
    DecodeEncode(s);
  }

  /** Resetting twice leaves the same state as resetting once. */
  method ResetTwice(store: SettingsStore)
    modifies store, store.storage
    ensures store.settings == Defaults && store.reloadRequested
    ensures store.storage.items == old(store.storage.items) - {StorageKey}
  {
    store.ResetSettings();
    ghost var once := store.storage.items;
    store.ResetSettings();
    assert store.storage.items == once;
  }

  /** `useSettings()`: the context value, or the error thrown outside a provider. */
  function UseSettings(provider: Option<SettingsStore>): (r: Result<SettingsStore, string>)
    ensures r.Success? <==> provider.Some?
    ensures r.Success? ==> r.value == provider.value
  {
    match provider
    case Some(store) => Success(store)
    case None => Failure("useSettings must be used within a SettingsProvider")
  }
}
