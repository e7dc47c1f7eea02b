/** The JavaScript string operations the components rely on, over Dafny
    strings: `toLowerCase`/`toUpperCase` (ASCII letters), `includes`/`indexOf`,
    `split` and the matching join, `trim`, `padStart`, and the decimal
    rendering of a non-negative integer. */
module JsStrings {
  import opened Wrappers

  // ---------------------------------------------------------------- case

  predicate IsUpperAscii(c: char) { 'A' <= c <= 'Z' }
  predicate IsLowerAscii(c: char) { 'a' <= c <= 'z' }

  function LowerChar(c: char): (r: char)
    ensures !IsUpperAscii(r)
    ensures IsUpperAscii(c) ==> r as int == c as int + 32
    ensures !IsUpperAscii(c) ==> r == c
  {
    if IsUpperAscii(c) then (c as int + 32) as char else c
  }

  function UpperChar(c: char): (r: char)
    ensures !IsLowerAscii(r)
    ensures IsLowerAscii(c) ==> r as int == c as int - 32
    ensures !IsLowerAscii(c) ==> r == c
  {
    if IsLowerAscii(c) then (c as int - 32) as char else c
  }

  /** `s.toLowerCase()` */
  function Lower(s: string): (r: string)
    ensures |r| == |s|
    ensures forall i :: 0 <= i < |s| ==> r[i] == LowerChar(s[i])
  {
    seq(|s|, i requires 0 <= i < |s| => LowerChar(s[i]))
  }

  predicate IsLowerCase(s: string) {
    forall i :: 0 <= i < |s| ==> !IsUpperAscii(s[i])
  }

  lemma LowerIsLowerCase(s: string)
    ensures IsLowerCase(Lower(s))
  {
  }

  lemma LowerIdempotent(s: string)
    ensures Lower(Lower(s)) == Lower(s)
  {
  }

  /** `s.charAt(0).toUpperCase() + s.slice(1)`; `charAt(0)` of "" is "". */
  function CapitalizeFirst(s: string): (r: string)
    ensures |r| == |s|
    ensures |s| > 0 ==> r[0] == UpperChar(s[0]) && r[1..] == s[1..]
  {
    if s == [] then [] else [UpperChar(s[0])] + s[1..]
  }

  // ---------------------------------------------------------- substrings

  predicate StartsWith(s: string, prefix: string) {
    |prefix| <= |s| && s[..|prefix|] == prefix
  }

  /** `t` occurs in `s` starting at index `j`. */
  predicate OccursAt(s: string, t: string, j: nat) {
    j + |t| <= |s| && s[j..j + |t|] == t
  }

  /** `s.indexOf(t)`, with `None` for -1: the first index at which `t` occurs. */
  function IndexOf(s: string, t: string): (r: Option<nat>)
    ensures r.Some? ==> OccursAt(s, t, r.value)
    ensures r.Some? ==> forall j: nat :: j < r.value ==> !OccursAt(s, t, j)
    ensures r.None? ==> forall j: nat :: !OccursAt(s, t, j)
    decreases |s|
  {
    if StartsWith(s, t) then
      assert s[0..|t|] == s[..|t|];
      Some(0)
    else if |s| == 0 then
      None
    else
      var rest := IndexOf(s[1..], t);
      OccursShift(s, t);
      match rest
      case None => None
      case Some(k) => Some(k + 1)
  }

  lemma OccursShift(s: string, t: string)
    requires |s| > 0
    ensures forall j: nat :: 1 <= j ==> (OccursAt(s, t, j) <==> OccursAt(s[1..], t, j - 1))
    ensures OccursAt(s, t, 0) <==> StartsWith(s, t)
  {
    forall j: nat | 1 <= j ensures OccursAt(s, t, j) <==> OccursAt(s[1..], t, j - 1) {
      if j + |t| <= |s| {
        assert s[1..][j - 1..j - 1 + |t|] == s[j..j + |t|];
      }
    }
    if |t| <= |s| {
      assert s[0..|t|] == s[..|t|];
    }
  }

  /** `s.includes(t)` */
  predicate Contains(s: string, t: string) {
    IndexOf(s, t).Some?
  }

  lemma ContainsIff(s: string, t: string)
    ensures Contains(s, t) <==> exists j: nat :: OccursAt(s, t, j)
  {
  }

  // ---------------------------------------------------------- split/join

  /** `s.split(sep)` for a non-empty separator: the pieces between the
      successive leftmost occurrences of `sep`. */
  function Split(s: string, sep: string): (r: seq<string>)
    requires |sep| > 0
    ensures |r| >= 1
    decreases |s|
  {
    match IndexOf(s, sep)
    case None => [s]
    case Some(i) => [s[..i]] + Split(s[i + |sep|..], sep)
  }

  /** `parts.join(sep)` */
  function Join(parts: seq<string>, sep: string): string {
    if |parts| == 0 then ""
    else if |parts| == 1 then parts[0]
    else parts[0] + sep + Join(parts[1..], sep)
  }

  lemma JoinCons(head: string, rest: seq<string>, sep: string)
    requires |rest| >= 1
    ensures Join([head] + rest, sep) == head + sep + Join(rest, sep)
  {
    assert ([head] + rest)[1..] == rest;
  }

  lemma SliceSplit3(s: string, i: nat, j: nat)
    requires i <= j <= |s|
    ensures s == s[..i] + s[i..j] + s[j..]
  {
  }

  /** Splitting loses nothing: joining the pieces gives back the string. */
  lemma {:induction false} JoinSplit(s: string, sep: string)
    requires |sep| > 0
    ensures Join(Split(s, sep), sep) == s
    decreases |s|
  {
    var found := IndexOf(s, sep);
    if found.Some? {
      var i := found.value;
      var tail := s[i + |sep|..];
      JoinSplit(tail, sep);
      assert Split(s, sep) == [s[..i]] + Split(tail, sep);
      JoinCons(s[..i], Split(tail, sep), sep);
      SliceSplit3(s, i, i + |sep|);
    }
  }

  /** No piece of a split contains the separator. */
  lemma {:induction false} SplitPiecesAvoidSep(s: string, sep: string)
    requires |sep| > 0
    ensures forall k :: 0 <= k < |Split(s, sep)| ==> !Contains(Split(s, sep)[k], sep)
    decreases |s|
  {
    match IndexOf(s, sep)
    case None =>
    case Some(i) =>
      var tail := s[i + |sep|..];
      SplitPiecesAvoidSep(tail, sep);
      var head := s[..i];
      forall j: nat ensures !OccursAt(head, sep, j) {
        if OccursAt(head, sep, j) {
          assert head[j..j + |sep|] == s[j..j + |sep|];
          assert OccursAt(s, sep, j);
        }
      }
      assert Split(s, sep) == [head] + Split(tail, sep);
  }

  /** `r` is the part of `s` before the first occurrence of `sep`, or all of
      `s` when `sep` does not occur. */
  predicate IsFirstPiece(s: string, sep: string, r: string) {
    StartsWith(s, r) && if Contains(s, sep) then IndexOf(s, sep) == Some(|r|) else r == s
  }

  /** The first piece of a split ends at the first separator. */
  lemma FirstPieceExact(s: string, sep: string)
    requires |sep| > 0
    ensures IsFirstPiece(s, sep, Split(s, sep)[0])
  {
    match IndexOf(s, sep)
    case None =>
    case Some(i) =>
      assert Split(s, sep)[0] == s[..i];
  }

  /** `s.split(sep)[0]`: the part of `s` before the first occurrence of `sep`. */
  function FirstPiece(s: string, sep: string): (r: string)
    requires |sep| > 0
    ensures IsFirstPiece(s, sep, r)
    ensures !Contains(r, sep)
    ensures |r| < |s| ==> OccursAt(s, sep, |r|)
  {
    SplitPiecesAvoidSep(s, sep);
    FirstPieceExact(s, sep);
    Split(s, sep)[0]
  }

  /** `const [a, b] = s.split(sep)`: the first piece, and the second one
      when there is one (`undefined` otherwise). */
  function SplitTwo(s: string, sep: string): (r: (string, Option<string>))
    requires |sep| > 0
    ensures r.1.None? <==> !Contains(s, sep)
    ensures r.1.None? ==> r.0 == s
    ensures !Contains(r.0, sep) && OccursAt(s, r.0, 0)
    ensures r.1.Some? ==> !Contains(r.1.value, sep) && OccursAt(s, r.1.value, |r.0| + |sep|)
    ensures IsFirstPiece(s, sep, r.0)
    ensures r.1.Some? ==> |r.0| + |sep| <= |s| && IsFirstPiece(s[|r.0| + |sep|..], sep, r.1.value)
  {
    var pieces := Split(s, sep);
    SplitPiecesAvoidSep(s, sep);
    SecondPieceOccurs(s, sep);
    FirstPieceExact(s, sep);
    SecondPieceExact(s, sep);
    (pieces[0], if |pieces| > 1 then Some(pieces[1]) else None)
  }

  /** The second piece of a split ends at the next separator, or at the end
      of the string. */
  lemma SecondPieceExact(s: string, sep: string)
    requires |sep| > 0
    ensures Contains(s, sep) ==>
              |Split(s, sep)| > 1
              && IndexOf(s, sep).value + |sep| <= |s|
              && IsFirstPiece(s[IndexOf(s, sep).value + |sep|..], sep, Split(s, sep)[1])
  {
    if Contains(s, sep) {
      var i := IndexOf(s, sep).value;
      assert Split(s, sep) == [s[..i]] + Split(s[i + |sep|..], sep);
      FirstPieceExact(s[i + |sep|..], sep);
    }
  }

  /** Where the first two pieces of a split sit in the string. */
  lemma SecondPieceOccurs(s: string, sep: string)
    requires |sep| > 0
    ensures OccursAt(s, Split(s, sep)[0], 0)
    ensures |Split(s, sep)| == 1 <==> !Contains(s, sep)
    ensures |Split(s, sep)| == 1 ==> Split(s, sep)[0] == s
    ensures |Split(s, sep)| > 1 ==> OccursAt(s, Split(s, sep)[1], |Split(s, sep)[0]| + |sep|)
  {
    TailPieceOccurs(s, 0, sep);
    assert s[0..] == s;
    SplitOnePiece(s, sep);
    if Contains(s, sep) {
      SecondPieceAt(s, sep);
    }
  }

  /** A split has a single piece, the whole string, exactly when the
      separator does not occur. */
  lemma SplitOnePiece(s: string, sep: string)
    requires |sep| > 0
    ensures |Split(s, sep)| == 1 <==> !Contains(s, sep)
    ensures |Split(s, sep)| == 1 ==> Split(s, sep)[0] == s
  {
    if Contains(s, sep) {
      var i := IndexOf(s, sep).value;
      assert Split(s, sep) == [s[..i]] + Split(s[i + |sep|..], sep);
    }
  }

  /** The second piece starts right after the first occurrence of the
      separator. */
  lemma SecondPieceAt(s: string, sep: string)
    requires |sep| > 0 && Contains(s, sep)
    ensures |Split(s, sep)| > 1
    ensures OccursAt(s, Split(s, sep)[1], |Split(s, sep)[0]| + |sep|)
  {
    var i := IndexOf(s, sep).value;
    var rest := Split(s[i + |sep|..], sep);
    assert Split(s, sep) == [s[..i]] + rest;
    assert Split(s, sep)[1] == rest[0];
    TailPieceOccurs(s, i + |sep|, sep);
  }

  /** The first piece of the split of a suffix sits where the suffix starts. */
  lemma TailPieceOccurs(s: string, k: nat, sep: string)
    requires |sep| > 0 && k <= |s|
    ensures OccursAt(s, Split(s[k..], sep)[0], k)
  {
    var second := FirstPiece(s[k..], sep);
    assert s[k..][..|second|] == s[k..k + |second|];
  }

  /** Two pieces joined by the separator come apart again, provided the
      separator is first found where they were joined. */
  lemma SplitTwoOf(a: string, b: string, sep: string)
    requires |sep| > 0
    requires IndexOf(a + sep + b, sep) == Some(|a|)
    requires !Contains(b, sep)
    ensures SplitTwo(a + sep + b, sep) == (a, Some(b))
  {
    var s := a + sep + b;
    assert s[..|a|] == a;
    assert s[|a| + |sep|..] == b;
    assert Split(b, sep) == [b];
  }

  // ---------------------------------------------------------------- trim

  /** The code points `String.prototype.trim` removes: ECMAScript WhiteSpace
      (TAB, VT, FF, ZWNBSP and the Zs category) and LineTerminator. */
  predicate IsJsWhitespace(c: char) {
    c == '\t' || c == '\U{000B}' || c == '\U{000C}' || c == ' ' || c == '\U{00A0}' || c == '\U{FEFF}'
    || c == '\n' || c == '\r' || c == '\U{2028}' || c == '\U{2029}'
    || c == '\U{1680}' || ('\U{2000}' <= c <= '\U{200A}') || c == '\U{202F}' || c == '\U{205F}' || c == '\U{3000}'
  }

  predicate AllWhitespace(s: string) {
    forall i :: 0 <= i < |s| ==> IsJsWhitespace(s[i])
  }

  function TrimStart(s: string): string
    decreases |s|
  {
    if |s| > 0 && IsJsWhitespace(s[0]) then TrimStart(s[1..]) else s
  }

  function TrimEnd(s: string): string
    decreases |s|
  {
    if |s| > 0 && IsJsWhitespace(s[|s| - 1]) then TrimEnd(s[..|s| - 1]) else s
  }

  /** `s.trim()` */
  function Trim(s: string): string {
    TrimEnd(TrimStart(s))
  }

  /** `!s.trim()` in the source: the trimmed string is empty. */
  predicate IsBlank(s: string) {
    Trim(s) == ""
  }

  lemma {:induction false} TrimStartEmpty(s: string)
    ensures TrimStart(s) == "" <==> AllWhitespace(s)
    ensures TrimStart(s) != "" ==> !IsJsWhitespace(TrimStart(s)[0])
    decreases |s|
  {
    if |s| > 0 && IsJsWhitespace(s[0]) {
      TrimStartEmpty(s[1..]);
      assert AllWhitespace(s) <==> AllWhitespace(s[1..]) by {
        if AllWhitespace(s[1..]) {
          forall i | 0 <= i < |s| ensures IsJsWhitespace(s[i]) {
            if i > 0 { assert s[i] == s[1..][i - 1]; }
          }
        }
      }
    }
  }

  lemma {:induction false} TrimEndEmpty(s: string)
    ensures TrimEnd(s) == "" <==> AllWhitespace(s)
    decreases |s|
  {
    if |s| > 0 && IsJsWhitespace(s[|s| - 1]) {
      var init := s[..|s| - 1];
      TrimEndEmpty(init);
      assert AllWhitespace(s) <==> AllWhitespace(init) by {
        if AllWhitespace(init) {
          forall i | 0 <= i < |s| ensures IsJsWhitespace(s[i]) {
            if i < |s| - 1 { assert s[i] == init[i]; }
          }
        }
      }
    }
  }

  /** A string is blank exactly when every character is JavaScript whitespace. */
  lemma BlankIff(s: string)
    ensures IsBlank(s) <==> AllWhitespace(s)
  {
    TrimStartEmpty(s);
    var t := TrimStart(s);
    TrimEndEmpty(t);
    if t != "" {
      assert !AllWhitespace(t) by { assert !IsJsWhitespace(t[0]); }
    }
  }

  // --------------------------------------------------------------- numbers

  function DigitChar(d: nat): (c: char)
    requires d < 10
    ensures '0' <= c <= '9'
    ensures c as int - '0' as int == d
  {
    (d + '0' as int) as char
  }

  predicate IsDigits(s: string) {
    forall i :: 0 <= i < |s| ==> '0' <= s[i] <= '9'
  }

  /** `String(n)` for a non-negative integer. */
  function NatToString(n: nat): (r: string)
    ensures |r| >= 1 && IsDigits(r)
    ensures n < 10 <==> |r| == 1
    ensures |r| > 1 ==> r[0] != '0'
    decreases n
  {
    if n < 10 then [DigitChar(n)] else NatToString(n / 10) + [DigitChar(n % 10)]
  }

  /** The value of a string of decimal digits. */
  function DecimalValue(s: string): nat
    requires IsDigits(s)
  {
    if s == [] then 0 else DecimalValue(s[..|s| - 1]) * 10 + (s[|s| - 1] as int - '0' as int)
  }

  /** `s` is a decimal numeral whose value is `n`. */
  predicate Numeral(s: string, n: nat) {
    IsDigits(s) && DecimalValue(s) == n
  }

  /** The decimal rendering reads back as the number it renders. */
  lemma {:induction false} NatToStringValue(n: nat)
    ensures DecimalValue(NatToString(n)) == n
    decreases n
  {
    if n >= 10 {
      NatToStringValue(n / 10);
      var r := NatToString(n);
      assert r[..|r| - 1] == NatToString(n / 10);
    }
  }

  /** `s.padStart(width, [fill])` for a one-character fill string. */
  function PadStart(s: string, width: nat, fill: char): (r: string)
    ensures |r| == if |s| >= width then |s| else width
    ensures r[|r| - |s|..] == s
    ensures forall i :: 0 <= i < |r| - |s| ==> r[i] == fill
    decreases width - |s|
  {
    if |s| >= width then s else PadStart([fill] + s, width, fill)
  }
}
