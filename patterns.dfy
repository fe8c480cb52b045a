/**
 * The regular expressions of the manifest rewriters, as hand-written
 * matchers, and JavaScript's `String.prototype.replace` with a global and a
 * non-global pattern.
 *
 * Each matcher answers one question: does the pattern match at the START of
 * `s`, and how long is that match?  JavaScript's backtracking would try the
 * greedy and lazy choices in order; for these four patterns the first choice
 * that can succeed is always the maximal run (greedy) or the first closing
 * quote (lazy), because the character that must follow a run can never be
 * part of it.  `\s` is ASCII whitespace here and `.` is any character but a
 * line terminator.
 */
module Patterns {

  import opened Wrappers
  import opened Text

  /** `\s`, restricted to ASCII. */
  predicate IsSpace(c: char)
  {
    c == ' ' || c == '\t' || c == '\n' || c == '\r' || c == '\U{0B}' || c == '\U{0C}'
  }

  /** `['\"]` */
  predicate IsQuote(c: char) { c == '\'' || c == '"' }

  /** The characters `.` does not match. */
  predicate IsLineTerminator(c: char)
  {
    c == '\n' || c == '\r' || c == '\U{2028}' || c == '\U{2029}'
  }

  /** The character classes the patterns repeat. */
  datatype CharClass =
    | Digits      // \d
    | Spaces      // \s
    | Unquoted    // what .*? steps over before a quote: no quote, no line terminator

  predicate InClass(c: char, cls: CharClass)
  {
    match cls
    case Digits => IsDigit(c)
    case Spaces => IsSpace(c)
    case Unquoted => !IsQuote(c) && !IsLineTerminator(c)
  }

  /** The end of the longest run of `cls` characters starting at index `i`. */
  function RunEnd(s: string, i: nat, cls: CharClass): (j: nat)
    requires i <= |s|
    ensures i <= j <= |s|
    ensures forall k :: i <= k < j ==> InClass(s[k], cls)
    ensures j < |s| ==> !InClass(s[j], cls)
    decreases |s| - i
  {
    if i < |s| && InClass(s[i], cls) then RunEnd(s, i + 1, cls) else i
  }

  /** A run is determined by its characters: any run that stops where the class stops is the one found. */
  lemma {:induction false} RunEndUnique(s: string, i: nat, j: nat, cls: CharClass)
    requires i <= j <= |s|
    requires forall k :: i <= k < j ==> InClass(s[k], cls)
    requires j < |s| ==> !InClass(s[j], cls)
    ensures RunEnd(s, i, cls) == j
    decreases j - i
  {
    if i < j {
      RunEndUnique(s, i + 1, j, cls);
    }
  }

  /** The literal `lit` occurs in `s` at index `i`. */
  predicate LitAt(s: string, i: nat, lit: string)
  {
    i + |lit| <= |s| && s[i..i + |lit|] == lit
  }

  /** The four patterns; the first two are parameterised by their literal. */
  datatype Pattern =
    | Element(tag: string)    // <tag>\d+</tag>
    | Setting(key: string)    // key\s*=\s*['"]?\d+['"]?
    | RequiresPython          // python_requires\s*=\s*['"]>=\d+\.\d+['"]
    | PoetryPython            // python\s*=\s*['"].*?['"]

  function Open(tag: string): string { "<" + tag + ">" }

  function Close(tag: string): string { "</" + tag + ">" }

  function MatchElement(tag: string, s: string): Option<nat>
  {
    var o := |Open(tag)|;
    if !LitAt(s, 0, Open(tag)) then None
    else
      var e := RunEnd(s, o, Digits);
      if o < e && LitAt(s, e, Close(tag)) then Some(e + |Close(tag)|) else None
  }

  /** The end of `\s*=\s*` after index `i`, if the `=` is there. */
  function AssignEnd(s: string, i: nat): (r: Option<nat>)
    requires i <= |s|
    ensures r.Some? ==> i < r.value <= |s|
  {
    var a := RunEnd(s, i, Spaces);
    if a == |s| || s[a] != '=' then None else Some(RunEnd(s, a + 1, Spaces))
  }

  function MatchSetting(key: string, s: string): Option<nat>
  {
    if !LitAt(s, 0, key) then None
    else match AssignEnd(s, |key|)
      case None => None
      case Some(b) =>
        var c := if b < |s| && IsQuote(s[b]) then b + 1 else b;
        var d := RunEnd(s, c, Digits);
        if d == c then None
        else if d < |s| && IsQuote(s[d]) then Some(d + 1)
        else Some(d)
  }

  const RequiresKey := "python_requires"

  const PoetryKey := "python"

  function MatchRequiresPython(s: string): Option<nat>
  {
    if !LitAt(s, 0, RequiresKey) then None
    else match AssignEnd(s, |RequiresKey|)
      case None => None
      case Some(b) =>
        if b == |s| || !IsQuote(s[b]) || !LitAt(s, b + 1, ">=") then None
        else MatchDotted(s, b + 3)
  }

  /** The end of `\d+\.\d+['"]` starting at index `c`, if it matches there. */
  function MatchDotted(s: string, c: nat): Option<nat>
    requires c <= |s|
  {
    var d := RunEnd(s, c, Digits);
    if d == c || d == |s| || s[d] != '.' then None
    else
      var e := RunEnd(s, d + 1, Digits);
      if e == d + 1 || e == |s| || !IsQuote(s[e]) then None else Some(e + 1)
  }

  function MatchPoetryPython(s: string): Option<nat>
  {
    if !LitAt(s, 0, PoetryKey) then None
    else match AssignEnd(s, |PoetryKey|)
      case None => None
      case Some(b) =>
        if b == |s| || !IsQuote(s[b]) then None
        else
          var e := RunEnd(s, b + 1, Unquoted);
          if e < |s| && IsQuote(s[e]) then Some(e + 1) else None
  }

  /** The length of the match of `p` at the start of `s`, if it matches there. */
  function MatchAt(p: Pattern, s: string): (r: Option<nat>)
    ensures r.Some? ==> 1 <= r.value <= |s|
  {
    match p
    case Element(tag) => MatchElement(tag, s)
    case Setting(key) => if key == [] then None else MatchSetting(key, s)
    case RequiresPython => MatchRequiresPython(s)
    case PoetryPython => MatchPoetryPython(s)
  }

  /** `s` reads as `<tag>`, a non-empty run of digits ending at `e`, and `</tag>`. */
  predicate ElementShape(tag: string, s: string, e: nat)
  {
    && LitAt(s, 0, Open(tag))
    && |Open(tag)| < e <= |s|
    && (forall k :: |Open(tag)| <= k < e ==> IsDigit(s[k]))
    && LitAt(s, e, Close(tag))
  }

  /**
   * The element matcher agrees with the regular expression `<tag>\d+</tag>`:
   * it matches with length `n` exactly when `s` can be read as opening tag,
   * digits, closing tag, of total length `n`.
   */
  lemma ElementMatchIff(tag: string, s: string, n: nat)
    ensures MatchAt(Element(tag), s) == Some(n)
        <==> exists e: nat :: ElementShape(tag, s, e) && n == e + |Close(tag)|
  {
    if exists e: nat :: ElementShape(tag, s, e) && n == e + |Close(tag)| {
      var e: nat :| ElementShape(tag, s, e) && n == e + |Close(tag)|;
      assert s[e] == Close(tag)[0];
      RunEndUnique(s, |Open(tag)|, e, Digits);
    }
    if MatchAt(Element(tag), s) == Some(n) {
      var e := RunEnd(s, |Open(tag)|, Digits);
      assert ElementShape(tag, s, e) && n == e + |Close(tag)|;
    }
  }

  /** `s[i..b]` reads as `\s*=\s*`: spaces up to the `=` at `a`, then spaces up to `b`. */
  predicate AssignShape(s: string, i: nat, a: nat, b: nat)
  {
    && i <= a < b <= |s|
    && (forall k :: i <= k < a ==> IsSpace(s[k]))
    && s[a] == '='
    && (forall k :: a < k < b ==> IsSpace(s[k]))
  }

  lemma AssignFrom(s: string, i: nat, a: nat, b: nat)
    requires AssignShape(s, i, a, b) && (b < |s| ==> !IsSpace(s[b]))
    ensures AssignEnd(s, i) == Some(b)
  {
    RunEndUnique(s, i, a, Spaces);
    RunEndUnique(s, a + 1, b, Spaces);
  }

  lemma AssignParts(s: string, i: nat)
    requires i <= |s| && AssignEnd(s, i).Some?
    ensures var b := AssignEnd(s, i).value;
      AssignShape(s, i, RunEnd(s, i, Spaces), b) && (b < |s| ==> !IsSpace(s[b]))
  {
  }

  /**
   * `AssignEnd` agrees with greedy `\s*=\s*`: it ends at `b` exactly when
   * `s[i..b]` reads as spaces, `=`, spaces, and no space follows.
   */
  lemma AssignEndIff(s: string, i: nat, b: nat)
    requires i <= |s|
    ensures AssignEnd(s, i) == Some(b) <==> (exists a :: AssignShape(s, i, a, b)) && (b < |s| ==> !IsSpace(s[b]))
  {
    if (exists a :: AssignShape(s, i, a, b)) && (b < |s| ==> !IsSpace(s[b])) {
      var a :| AssignShape(s, i, a, b);
      AssignFrom(s, i, a, b);
    }
    if AssignEnd(s, i) == Some(b) {
      AssignParts(s, i);
    }
  }

  /**
   * `s` reads as `key\s*=\s*['"]?\d+['"]?` of length `n`, as the regular
   * expression takes it: the optional quotes are taken when present and the
   * digits run as far as they go.
   */
  predicate SettingShape(key: string, s: string, a: nat, b: nat, d: nat, n: nat)
  {
    var c := if b < |s| && IsQuote(s[b]) then b + 1 else b;
    && LitAt(s, 0, key)
    && AssignShape(s, |key|, a, b)
    && c < d <= |s|
    && (forall k :: c <= k < d ==> IsDigit(s[k]))
    && (d < |s| ==> !IsDigit(s[d]))
    && n == (if d < |s| && IsQuote(s[d]) then d + 1 else d)
  }

  /** The setting matcher agrees with `key\s*=\s*['"]?\d+['"]?`. */
  lemma SettingMatchIff(key: string, s: string, n: nat)
    requires key != []
    ensures MatchAt(Setting(key), s) == Some(n) <==> exists a: nat, b: nat, d: nat :: SettingShape(key, s, a, b, d, n)
  {
    if exists a: nat, b: nat, d: nat :: SettingShape(key, s, a, b, d, n) {
      var a: nat, b: nat, d: nat :| SettingShape(key, s, a, b, d, n);
      SettingFromShape(key, s, a, b, d, n);
    }
    if MatchAt(Setting(key), s) == Some(n) {
      SettingToShape(key, s, n);
    }
  }

  lemma SettingFromShape(key: string, s: string, a: nat, b: nat, d: nat, n: nat)
    requires key != [] && SettingShape(key, s, a, b, d, n)
    ensures MatchAt(Setting(key), s) == Some(n)
  {
    var c := if b < |s| && IsQuote(s[b]) then b + 1 else b;
    assert b < |s| && (IsQuote(s[b]) || IsDigit(s[b]));
    AssignFrom(s, |key|, a, b);
    RunEndUnique(s, c, d, Digits);
  }

  lemma SettingToShape(key: string, s: string, n: nat)
    requires key != [] && MatchAt(Setting(key), s) == Some(n)
    ensures SettingShape(key, s, RunEnd(s, |key|, Spaces), AssignEnd(s, |key|).value,
                         RunEnd(s, SettingDigitsStart(s, AssignEnd(s, |key|).value), Digits), n)
  {
    AssignParts(s, |key|);
  }

  /** Where the digits of a setting start: after the optional opening quote. */
  function SettingDigitsStart(s: string, b: nat): (c: nat)
    requires b <= |s|
    ensures b <= c <= |s|
  {
    if b < |s| && IsQuote(s[b]) then b + 1 else b
  }

  /** `s` reads as `python_requires\s*=\s*['"]>=\d+\.\d+['"]` of length `n`. */
  predicate RequiresPythonShape(s: string, a: nat, b: nat, d: nat, e: nat, n: nat)
  {
    && LitAt(s, 0, RequiresKey)
    && AssignShape(s, |RequiresKey|, a, b)
    && b < |s| && IsQuote(s[b]) && LitAt(s, b + 1, ">=")
    && b + 3 < d < |s| && (forall k :: b + 3 <= k < d ==> IsDigit(s[k])) && s[d] == '.'
    && d + 1 < e < |s| && (forall k :: d + 1 <= k < e ==> IsDigit(s[k])) && IsQuote(s[e])
    && n == e + 1
  }

  /** The `python_requires` matcher agrees with its regular expression. */
  lemma RequiresPythonMatchIff(s: string, n: nat)
    ensures MatchAt(RequiresPython, s) == Some(n)
        <==> exists a: nat, b: nat, d: nat, e: nat :: RequiresPythonShape(s, a, b, d, e, n)
  {
    if exists a: nat, b: nat, d: nat, e: nat :: RequiresPythonShape(s, a, b, d, e, n) {
      var a: nat, b: nat, d: nat, e: nat :| RequiresPythonShape(s, a, b, d, e, n);
      RequiresPythonFromShape(s, a, b, d, e, n);
    }
    if MatchAt(RequiresPython, s) == Some(n) {
      RequiresPythonToShape(s, n);
    }
  }

  lemma RequiresPythonFromShape(s: string, a: nat, b: nat, d: nat, e: nat, n: nat)
    requires RequiresPythonShape(s, a, b, d, e, n)
    ensures MatchAt(RequiresPython, s) == Some(n)
  {
    AssignFrom(s, |RequiresKey|, a, b);
    DottedFrom(s, b + 3, d, e);
  }

  lemma DottedFrom(s: string, c: nat, d: nat, e: nat)
    requires c < d < |s| && (forall k :: c <= k < d ==> IsDigit(s[k])) && s[d] == '.'
    requires d + 1 < e < |s| && (forall k :: d + 1 <= k < e ==> IsDigit(s[k])) && IsQuote(s[e])
    ensures MatchDotted(s, c) == Some(e + 1)
  {
    DigitsFrom(s, c, d);
    DigitsFrom(s, d + 1, e);
  }

  /** A run of digits followed by a non-digit is the run `\d+` takes. */
  lemma DigitsFrom(s: string, i: nat, j: nat)
    requires i <= j < |s| && (forall k :: i <= k < j ==> IsDigit(s[k])) && !IsDigit(s[j])
    ensures RunEnd(s, i, Digits) == j
  {
    RunEndUnique(s, i, j, Digits);
  }

  lemma RequiresPythonToShape(s: string, n: nat)
    requires MatchAt(RequiresPython, s) == Some(n)
    ensures var b := AssignEnd(s, |RequiresKey|).value;
      var d := RunEnd(s, b + 3, Digits);
      RequiresPythonShape(s, RunEnd(s, |RequiresKey|, Spaces), b, d, RunEnd(s, d + 1, Digits), n)
  {
    AssignParts(s, |RequiresKey|);
  }

  /**
   * `s` reads as `python\s*=\s*['"].*?['"]` of length `n`: the lazy `.*?`
   * stops at the first quote after the opening one, and no line terminator
   * comes before it.
   */
  predicate PoetryShape(s: string, a: nat, b: nat, e: nat, n: nat)
  {
    && LitAt(s, 0, PoetryKey)
    && AssignShape(s, |PoetryKey|, a, b)
    && b < e < |s| && IsQuote(s[b]) && IsQuote(s[e])
    && (forall k :: b < k < e ==> !IsQuote(s[k]) && !IsLineTerminator(s[k]))
    && n == e + 1
  }

  /** The Poetry `python` matcher agrees with its lazy regular expression. */
  lemma PoetryMatchIff(s: string, n: nat)
    ensures MatchAt(PoetryPython, s) == Some(n) <==> exists a: nat, b: nat, e: nat :: PoetryShape(s, a, b, e, n)
  {
    if exists a: nat, b: nat, e: nat :: PoetryShape(s, a, b, e, n) {
      var a: nat, b: nat, e: nat :| PoetryShape(s, a, b, e, n);
      PoetryFromShape(s, a, b, e, n);
    }
    if MatchAt(PoetryPython, s) == Some(n) {
      PoetryToShape(s, n);
    }
  }

  lemma PoetryFromShape(s: string, a: nat, b: nat, e: nat, n: nat)
    requires PoetryShape(s, a, b, e, n)
    ensures MatchAt(PoetryPython, s) == Some(n)
  {
    AssignFrom(s, |PoetryKey|, a, b);
    RunEndUnique(s, b + 1, e, Unquoted);
  }

  lemma PoetryToShape(s: string, n: nat)
    requires MatchAt(PoetryPython, s) == Some(n)
    ensures var b := AssignEnd(s, |PoetryKey|).value;
      PoetryShape(s, RunEnd(s, |PoetryKey|, Spaces), b, RunEnd(s, b + 1, Unquoted), n)
  {
    AssignParts(s, |PoetryKey|);
  }

  /** No match of `p` starts before index `i` of `s`. */
  ghost predicate NoMatchBefore(p: Pattern, s: string, i: nat)
  {
    forall j :: 0 <= j < i <= |s| ==> MatchAt(p, s[j..]).None?
  }

  /** The position and length of the leftmost match of `p` in `s`. */
  function Leftmost(p: Pattern, s: string): (r: Option<(nat, nat)>)
    ensures r.None? ==> NoMatchBefore(p, s, |s|)
    ensures r.Some? ==> && r.value.0 < |s|
                        && MatchAt(p, s[r.value.0..]) == Some(r.value.1)
                        && NoMatchBefore(p, s, r.value.0)
    decreases |s|
  {
    if s == [] then None
    else match MatchAt(p, s)
      case Some(n) => Some((0, n))
      case None =>
        var rest := Leftmost(p, s[1..]);
        assert forall j :: 1 <= j <= |s| ==> s[1..][j - 1..] == s[j..];
        match rest
        case None => None
        case Some(m) => Some((m.0 + 1, m.1))
  }

  /** Only one position can be leftmost. */
  lemma LeftmostUnique(p: Pattern, s: string, i: nat)
    requires i < |s| && MatchAt(p, s[i..]).Some? && NoMatchBefore(p, s, i)
    ensures Leftmost(p, s) == Some((i, MatchAt(p, s[i..]).value))
  {
    var r := Leftmost(p, s);
    if r.None? || r.value.0 != i {
      assert false;
    }
  }

  /** `s.replace(/p/g, rep)`: every match, scanning left to right, becomes `rep`. */
  function ReplaceAll(p: Pattern, s: string, rep: string): string
    decreases |s|
  {
    if s == [] then []
    else match MatchAt(p, s)
      case Some(n) => rep + ReplaceAll(p, s[n..], rep)
      case None => [s[0]] + ReplaceAll(p, s[1..], rep)
  }

  /** Where no match starts, the global replace copies the first character. */
  lemma ReplaceAllSkips(p: Pattern, s: string, rep: string)
    requires s != [] && MatchAt(p, s).None?
    ensures ReplaceAll(p, s, rep) == [s[0]] + ReplaceAll(p, s[1..], rep)
  {
  }

  lemma NoMatchBeforeTail(p: Pattern, s: string, i: nat)
    requires 0 < i <= |s| && NoMatchBefore(p, s, i)
    ensures MatchAt(p, s).None? && NoMatchBefore(p, s[1..], i - 1)
  {
    assert s[0..] == s;
    forall j | 0 <= j < i - 1 ensures MatchAt(p, s[1..][j..]).None? {
      assert s[1..][j..] == s[j + 1..];
    }
  }

  /** Text in which no match starts before index `i` is copied through by the global replace. */
  lemma {:induction false} ReplaceAllCopies(p: Pattern, s: string, rep: string, i: nat)
    requires i <= |s| && NoMatchBefore(p, s, i)
    ensures ReplaceAll(p, s, rep) == s[..i] + ReplaceAll(p, s[i..], rep)
    decreases i
  {
    if i > 0 {
      var t := s[1..];
      NoMatchBeforeTail(p, s, i);
      ReplaceAllCopies(p, t, rep, i - 1);
      ReplaceAllSkips(p, s, rep);
      assert t[i - 1..] == s[i..];
      assert s[..i] == [s[0]] + t[..i - 1];
    }
  }

  /** Without a match anywhere, the global replace changes nothing. */
  lemma ReplaceAllNoMatch(p: Pattern, s: string, rep: string)
    requires NoMatchBefore(p, s, |s|)
    ensures ReplaceAll(p, s, rep) == s
  {
    ReplaceAllCopies(p, s, rep, |s|);
    assert s[|s|..] == [];
  }

  /**
   * The global replace as a decomposition of its input: the text before the
   * leftmost match is copied, the match becomes `rep`, and the rest of the
   * text is rewritten the same way.
   */
  lemma ReplaceAllAtLeftmost(p: Pattern, s: string, rep: string, i: nat)
    requires i < |s| && MatchAt(p, s[i..]).Some? && NoMatchBefore(p, s, i)
    ensures ReplaceAll(p, s, rep) == s[..i] + rep + ReplaceAll(p, s[i + MatchAt(p, s[i..]).value..], rep)
  {
    var t := s[i..];
    var n := MatchAt(p, t).value;
    ReplaceAllCopies(p, s, rep, i);
    ReplaceAllReplaces(p, t, rep);
    assert t[n..] == s[i + n..];
    Regroup(s[..i], rep, ReplaceAll(p, s[i + n..], rep));
  }

  /** Where a match starts, the global replace emits `rep` and resumes after the match. */
  lemma ReplaceAllReplaces(p: Pattern, s: string, rep: string)
    requires MatchAt(p, s).Some?
    ensures ReplaceAll(p, s, rep) == rep + ReplaceAll(p, s[MatchAt(p, s).value..], rep)
  {
  }

  lemma Regroup(a: string, b: string, c: string)
    ensures a + (b + c) == a + b + c
  {
  }

  /** `s.replace(/p/, rep)`: only the leftmost match becomes `rep`. */
  function ReplaceFirst(p: Pattern, s: string, rep: string): (r: string)
    ensures NoMatchBefore(p, s, |s|) ==> r == s
    ensures forall i :: 0 <= i < |s| && MatchAt(p, s[i..]).Some? && NoMatchBefore(p, s, i) ==>
      r == s[..i] + rep + s[i + MatchAt(p, s[i..]).value..]
  {
    match Leftmost(p, s)
    case None =>
      LeftmostNone(p, s);
      s
    case Some((i, n)) =>
      LeftmostSome(p, s, i, n);
      s[..i] + rep + s[i + n..]
  }

  lemma LeftmostNone(p: Pattern, s: string)
    requires Leftmost(p, s).None?
    ensures forall i :: 0 <= i < |s| ==> MatchAt(p, s[i..]).None?
  {
  }

  /** Every position that qualifies as leftmost is the one `Leftmost` found. */
  lemma LeftmostSome(p: Pattern, s: string, i: nat, n: nat)
    requires Leftmost(p, s) == Some((i, n))
    ensures i < |s| && MatchAt(p, s[i..]) == Some(n) && !NoMatchBefore(p, s, |s|)
    ensures forall i' :: 0 <= i' < |s| && MatchAt(p, s[i'..]).Some? && NoMatchBefore(p, s, i') ==> i' == i
  {
    forall i' | 0 <= i' < |s| && MatchAt(p, s[i'..]).Some? && NoMatchBefore(p, s, i') ensures i' == i {
      LeftmostUnique(p, s, i');
    }
  }
}
