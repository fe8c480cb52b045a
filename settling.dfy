/**
 * Why rewriting a Java build file twice changes nothing the second time.
 *
 * The Java rewrites replace every match of a pattern by a canonical text
 * that is itself a match.  A text is CLEAN for a pattern when the global
 * replace leaves it unchanged.  The lemmas below show that the output of a
 * replace is clean for its own pattern, and that replacing a second pattern
 * of the same family keeps the text clean for the first.  They rest on five
 * facts about the patterns: every match begins with a fixed head, a match
 * depends only on its own characters and the one after them, no head of the
 * family starts strictly inside a match, two different patterns of the
 * family never match at the same place, and the canonical text is a match.
 */
module Settling {

  import opened Wrappers
  import opened Text
  import opened Patterns

  /** A target version made only of digits, as every Java entry of the upgrade form is. */
  predicate DigitVersion(v: string)
  {
    |v| >= 1 && forall i :: 0 <= i < |v| ==> IsDigit(v[i])
  }

  /** What the Java rewrites put in place of a match. */
  function Canonical(p: Pattern, v: string): string
  {
    match p
    case Element(tag) => Open(tag) + v + Close(tag)
    case Setting(key) => key + " = '" + v + "'"
    case _ => []
  }

  /** The literal every match of `p` begins with. */
  function Head(p: Pattern): string
  {
    match p
    case Element(tag) => Open(tag)
    case Setting(key) => key
    case RequiresPython => "python_requires"
    case PoetryPython => "python"
  }

  predicate IsLetter(c: char) { IsLower(c) || IsUpper(c) }

  /** A tag that cannot be confused with the angle brackets and slash around it. */
  predicate PlainTag(t: string)
  {
    |t| >= 1 && t[0] != '/' && '<' !in t && '>' !in t
  }

  /** A setting name made of at least two letters. */
  predicate PlainKey(k: string)
  {
    |k| >= 2 && forall i :: 0 <= i < |k| ==> IsLetter(k[i])
  }

  /** Wherever `k2`'s first letter occurs inside `k1` after its start, `k2`'s second letter does not follow. */
  predicate KeyInterior(k1: string, k2: string)
    requires |k2| >= 2
  {
    forall j :: 1 <= j < |k1| && k1[j] == k2[0] ==> j + 1 < |k1| && k1[j + 1] != k2[1]
  }

  /** `p` and `q` belong to one family for which the facts above hold. */
  predicate Settles(p: Pattern, q: Pattern)
  {
    || (p.Element? && q.Element? && PlainTag(p.tag) && PlainTag(q.tag))
    || (&& p.Setting? && q.Setting? && PlainKey(p.key) && PlainKey(q.key)
        && KeyInterior(p.key, q.key) && KeyInterior(q.key, p.key)
        && KeyInterior(p.key, p.key) && KeyInterior(q.key, q.key)
        && (p == q || p.key[0] != q.key[0]))
  }

  /** The text is left unchanged by the global replace of `p` with its canonical text. */
  predicate Clean(p: Pattern, v: string, x: string)
  {
    ReplaceAll(p, x, Canonical(p, v)) == x
  }

  lemma LitAtChar(s: string, i: nat, lit: string, k: nat)
    requires LitAt(s, i, lit) && k < |lit|
    ensures s[i + k] == lit[k]
  {
    assert s[i..i + |lit|][k] == s[i + k];
  }

  /** Fact 1: every match begins with the pattern's head, of at least two characters. */
  lemma HeadOf(p: Pattern, x: string)
    requires Settles(p, p) && MatchAt(p, x).Some?
    ensures |Head(p)| >= 2 && LitAt(x, 0, Head(p)) && MatchAt(p, x).value >= 2
    ensures x[0] == Head(p)[0] && x[1] == Head(p)[1]
  {
    LitAtChar(x, 0, Head(p), 0);
    LitAtChar(x, 0, Head(p), 1);
  }

  /** Fact 2, for elements: the match depends only on its own characters. */
  lemma ElementLocal(tag: string, x: string, y: string, m: nat)
    requires MatchAt(Element(tag), x) == Some(m) && m < |x| && m < |y|
    requires forall k :: 0 <= k <= m ==> x[k] == y[k]
    ensures MatchAt(Element(tag), y) == Some(m)
  {
    var o := |Open(tag)|;
    assert y[..o] == x[..o];
    var e := RunEnd(x, o, Digits);
    RunEndUnique(y, o, e, Digits);
    assert y[e..e + |Close(tag)|] == x[e..e + |Close(tag)|];
  }

  lemma AssignLocal(x: string, y: string, i: nat, m: nat)
    requires i <= |x| && AssignEnd(x, i).Some? && AssignEnd(x, i).value <= m < |x| && m < |y|
    requires forall k :: 0 <= k <= m ==> x[k] == y[k]
    ensures i <= |y| && AssignEnd(y, i) == AssignEnd(x, i)
  {
    var a := RunEnd(x, i, Spaces);
    var b := RunEnd(x, a + 1, Spaces);
    RunEndUnique(y, i, a, Spaces);
    RunEndUnique(y, a + 1, b, Spaces);
  }

  /** Fact 2, for settings: the match depends only on its characters and the one after them. */
  lemma SettingLocal(key: string, x: string, y: string, m: nat)
    requires key != [] && MatchAt(Setting(key), x) == Some(m) && m < |x| && m < |y|
    requires forall k :: 0 <= k <= m ==> x[k] == y[k]
    ensures MatchAt(Setting(key), y) == Some(m)
  {
    var b, c, d := SettingParts(key, x);
    assert LitAt(y, 0, key) by {
      assert y[..|key|] == x[..|key|];
    }
    AssignLocal(x, y, |key|, m);
    assert y[b] == x[b];
    RunEndUnique(y, c, d, Digits);
    assert y[d] == x[d];
    SettingFrom(key, y, b, c, d);
  }

  /** The assignment end `b`, digit start `c` and digit end `d` of a setting match. */
  lemma SettingParts(key: string, x: string) returns (b: nat, c: nat, d: nat)
    requires key != [] && MatchAt(Setting(key), x).Some?
    ensures LitAt(x, 0, key) && AssignEnd(x, |key|) == Some(b)
    ensures c == (if b < |x| && IsQuote(x[b]) then b + 1 else b)
    ensures c <= |x| && RunEnd(x, c, Digits) == d && c < d
    ensures MatchAt(Setting(key), x).value == (if d < |x| && IsQuote(x[d]) then d + 1 else d)
  {
    b := AssignEnd(x, |key|).value;
    c := if b < |x| && IsQuote(x[b]) then b + 1 else b;
    d := RunEnd(x, c, Digits);
  }

  /** `MatchSetting` once its assignment end and digit run are known. */
  lemma SettingFrom(key: string, y: string, b: nat, c: nat, d: nat)
    requires LitAt(y, 0, key) && AssignEnd(y, |key|) == Some(b)
    requires c == (if b < |y| && IsQuote(y[b]) then b + 1 else b)
    requires c <= |y| && RunEnd(y, c, Digits) == d && c < d
    ensures MatchSetting(key, y) == (if d < |y| && IsQuote(y[d]) then Some(d + 1) else Some(d))
  {
  }

  lemma Local(p: Pattern, x: string, y: string, m: nat)
    requires Settles(p, p) && MatchAt(p, x) == Some(m) && m < |x| && m < |y|
    requires forall k :: 0 <= k <= m ==> x[k] == y[k]
    ensures MatchAt(p, y) == Some(m)
  {
    if p.Element? { ElementLocal(p.tag, x, y, m); } else { SettingLocal(p.key, x, y, m); }
  }

  /** Fact 3, for elements: inside a match, `<` is followed by `/`, so no opening tag starts there. */
  lemma ElementInterior(t1: string, t2: string, x: string, j: nat)
    requires PlainTag(t1) && PlainTag(t2) && MatchAt(Element(t1), x).Some?
    requires 1 <= j < MatchAt(Element(t1), x).value && x[j] == Open(t2)[0]
    ensures j + 1 < MatchAt(Element(t1), x).value && x[j + 1] != Open(t2)[1]
  {
    var m := MatchAt(Element(t1), x).value;
    var o := |Open(t1)|;
    var e := RunEnd(x, o, Digits);
    forall k | 1 <= k < o ensures x[k] != '<' {
      LitAtChar(x, 0, Open(t1), k);
      if k < o - 1 {
        assert Open(t1)[k] == t1[k - 1];
      }
    }
    forall k | e < k < m ensures x[k] != '<' {
      LitAtChar(x, e, Close(t1), k - e);
      if k - e < |Close(t1)| - 1 && k - e >= 2 {
        assert Close(t1)[k - e] == t1[k - e - 2];
      }
    }
    LitAtChar(x, e, Close(t1), 1);
  }

  /** Every character of a setting match after its key is a space, `=`, a quote or a digit. */
  lemma SettingTail(key: string, x: string, j: nat)
    requires key != [] && MatchAt(Setting(key), x).Some?
    requires |key| <= j < MatchAt(Setting(key), x).value
    ensures IsSpace(x[j]) || x[j] == '=' || IsQuote(x[j]) || IsDigit(x[j])
  {
  }

  /** Fact 3, for settings. */
  lemma SettingInterior(k1: string, k2: string, x: string, j: nat)
    requires PlainKey(k1) && PlainKey(k2) && KeyInterior(k1, k2) && MatchAt(Setting(k1), x).Some?
    requires 1 <= j < MatchAt(Setting(k1), x).value && x[j] == k2[0]
    ensures j + 1 < MatchAt(Setting(k1), x).value && x[j + 1] != k2[1]
  {
    var m := MatchAt(Setting(k1), x).value;
    forall i | |k1| <= i < m ensures !IsLetter(x[i]) {
      SettingTail(k1, x, i);
    }
    assert j < |k1|;
    LitAtChar(x, 0, k1, j);
    if j + 1 < |k1| {
      LitAtChar(x, 0, k1, j + 1);
    }
  }

  lemma Interior(p: Pattern, q: Pattern, x: string, j: nat)
    requires Settles(p, q) && MatchAt(p, x).Some?
    requires 1 <= j < MatchAt(p, x).value && x[j] == Head(q)[0]
    ensures j + 1 < MatchAt(p, x).value && x[j + 1] != Head(q)[1]
  {
    if p.Element? {
      ElementInterior(p.tag, q.tag, x, j);
    } else {
      SettingInterior(p.key, q.key, x, j);
    }
  }

  lemma NotLitAt(s: string, i: nat, lit: string, k: nat)
    requires k < |lit| && (i + k < |s| ==> s[i + k] != lit[k])
    ensures !LitAt(s, i, lit)
  {
    if LitAt(s, i, lit) {
      LitAtChar(s, i, lit, k);
    }
  }

  /** Fact 4: two different patterns of a family never match at the same place. */
  lemma Distinct(p: Pattern, q: Pattern, x: string)
    requires Settles(p, q) && p != q
    ensures !(MatchAt(p, x).Some? && MatchAt(q, x).Some?)
  {
    if MatchAt(p, x).Some? {
      if p.Element? {
        var t1, t2 := p.tag, q.tag;
        if |t1| > |t2| {
          LitAtChar(x, 0, Open(t1), |t2| + 1);
          assert Open(t1)[|t2| + 1] == t1[|t2|];
          NotLitAt(x, 0, Open(t2), |t2| + 1);
        } else if |t1| < |t2| {
          LitAtChar(x, 0, Open(t1), |t1| + 1);
          assert Open(t2)[|t1| + 1] == t2[|t1|];
          NotLitAt(x, 0, Open(t2), |t1| + 1);
        } else {
          var i :| 0 <= i < |t1| && t1[i] != t2[i];
          LitAtChar(x, 0, Open(t1), i + 1);
          NotLitAt(x, 0, Open(t2), i + 1);
        }
      } else {
        LitAtChar(x, 0, p.key, 0);
        NotLitAt(x, 0, q.key, 0);
      }
    }
  }

  /** Fact 5: the canonical text for a digit version is a match of exactly its own length. */
  lemma SelfMatch(p: Pattern, v: string, w: string)
    requires Settles(p, p) && DigitVersion(v)
    ensures MatchAt(p, Canonical(p, v) + w) == Some(|Canonical(p, v)|)
    ensures |Canonical(p, v)| >= 2 && Canonical(p, v)[0] == Head(p)[0] && Canonical(p, v)[1] == Head(p)[1]
  {
    if p.Element? {
      ElementSelfMatch(p.tag, v, w);
    } else {
      SettingSelfMatch(p.key, v, w);
    }
  }

  lemma ElementSelfMatch(tag: string, v: string, w: string)
    requires DigitVersion(v)
    ensures MatchAt(Element(tag), Open(tag) + v + Close(tag) + w) == Some(|Open(tag) + v + Close(tag)|)
  {
    var x := Open(tag) + v + Close(tag) + w;
    var o := |Open(tag)|;
    assert x[..o] == Open(tag);
    assert x[o + |v|] == '<';
    RunEndUnique(x, o, o + |v|, Digits);
    assert x[o + |v|..o + |v| + |Close(tag)|] == Close(tag);
  }

  lemma SettingSelfMatch(key: string, v: string, w: string)
    requires |key| >= 1 && DigitVersion(v)
    ensures MatchAt(Setting(key), key + " = '" + v + "'" + w) == Some(|key| + 5 + |v|)
  {
    var x := key + " = '" + v + "'" + w;
    var k := |key|;
    assert LitAt(x, 0, key) by {
      assert x[..k] == key;
    }
    assert x[k] == ' ' && x[k + 1] == '=' && x[k + 2] == ' ' && x[k + 3] == '\'';
    assert forall j :: k + 4 <= j < k + 4 + |v| ==> x[j] == v[j - k - 4];
    assert x[k + 4 + |v|] == '\'';
    CanonicalSettingMatch(key, x, |v|);
  }

  /** A text laid out as `key = '` digits `'` is a setting match up to its closing quote. */
  lemma CanonicalSettingMatch(key: string, x: string, n: nat)
    requires |key| >= 1 && LitAt(x, 0, key) && n >= 1 && |key| + 4 + n < |x|
    requires x[|key|] == ' ' && x[|key| + 1] == '=' && x[|key| + 2] == ' ' && x[|key| + 3] == '\''
    requires forall j :: |key| + 4 <= j < |key| + 4 + n ==> IsDigit(x[j])
    requires x[|key| + 4 + n] == '\''
    ensures MatchAt(Setting(key), x) == Some(|key| + 5 + n)
  {
    var k := |key|;
    RunEndUnique(x, k, k + 1, Spaces);
    RunEndUnique(x, k + 2, k + 3, Spaces);
    assert AssignEnd(x, k) == Some(k + 3);
    RunEndUnique(x, k + 4, k + 4 + n, Digits);
    SettingFrom(key, x, k + 3, k + 4, k + 4 + n);
  }

  /** No match of `p` starts inside (or at) a match of a different pattern `q` of the family. */
  lemma NoStartInside(p: Pattern, q: Pattern, u: string, n: nat)
    requires Settles(p, q) && p != q && MatchAt(q, u) == Some(n)
    ensures NoMatchBefore(p, u, n)
  {
    forall j | 0 <= j < n ensures MatchAt(p, u[j..]).None? {
      if j == 0 {
        assert u[0..] == u;
        Distinct(p, q, u);
      } else if MatchAt(p, u[j..]).Some? {
        assert Settles(p, p);
        HeadOf(p, u[j..]);
        assert u[j..][1] == u[j + 1];
        Interior(q, p, u, j);
      }
    }
  }

  /** The text after a character, rewritten up to a replacement, agrees with the original up to the replacement's first character. */
  lemma SpliceAgrees(u: string, i: nat, rq: string, rest: string)
    requires |u| >= 1 && i < |u| - 1 && |rq| >= 2 && rq[0] == u[i + 1]
    ensures var y := [u[0]] + u[1..][..i] + rq + rest;
      && |y| > i + 2 && y[i + 1] == rq[0] && y[i + 2] == rq[1]
      && forall k :: 0 <= k <= i + 1 ==> y[k] == u[k]
  {
  }

  /**
   * Replacing `q` behind a character where `p` does not match cannot create
   * a match of `p` at that character.
   */
  lemma {:induction false} Crux(p: Pattern, q: Pattern, v: string, u: string)
    requires Settles(p, q) && DigitVersion(v) && |u| >= 1 && MatchAt(p, u).None?
    ensures MatchAt(p, [u[0]] + ReplaceAll(q, u[1..], Canonical(q, v))).None?
  {
    var w := u[1..];
    var rq := Canonical(q, v);
    var first := Leftmost(q, w);
    if first.None? {
      CruxNone(p, q, u, rq);
    } else {
      CruxAt(p, q, v, u, first.value.0);
    }
  }

  /** The case of `Crux` where `q` has no match in `u[1..]`. */
  lemma CruxNone(p: Pattern, q: Pattern, u: string, rq: string)
    requires |u| >= 1 && MatchAt(p, u).None? && NoMatchBefore(q, u[1..], |u| - 1)
    ensures MatchAt(p, [u[0]] + ReplaceAll(q, u[1..], rq)).None?
  {
    ReplaceAllNoMatch(q, u[1..], rq);
    assert [u[0]] + u[1..] == u;
  }

  /** The case of `Crux` where `q` has its leftmost match at index `i` of `u[1..]`. */
  lemma CruxAt(p: Pattern, q: Pattern, v: string, u: string, i: nat)
    requires Settles(p, q) && DigitVersion(v) && |u| >= 1 && MatchAt(p, u).None?
    requires i < |u| - 1 && MatchAt(q, u[1..][i..]).Some? && NoMatchBefore(q, u[1..], i)
    ensures MatchAt(p, [u[0]] + ReplaceAll(q, u[1..], Canonical(q, v))).None?
  {
    var w := u[1..];
    var rq := Canonical(q, v);
    var rest := ReplaceAll(q, w[i + MatchAt(q, w[i..]).value..], rq);
    ReplaceAllAtLeftmost(q, w, rq, i);
    CruxSplice(p, q, v, u, i, rest);
  }

  /** `CruxAt` once the global replace has been unfolded at the leftmost match. */
  lemma CruxSplice(p: Pattern, q: Pattern, v: string, u: string, i: nat, rest: string)
    requires Settles(p, q) && DigitVersion(v) && |u| >= 1 && MatchAt(p, u).None?
    requires i < |u| - 1 && MatchAt(q, u[1..][i..]).Some?
    ensures MatchAt(p, [u[0]] + (u[1..][..i] + Canonical(q, v) + rest)).None?
  {
    var w := u[1..];
    var rq := Canonical(q, v);
    var y := [u[0]] + w[..i] + rq + rest;
    assert Settles(q, q);
    SelfMatch(q, v, rest);
    HeadOf(q, w[i..]);
    assert w[i..][0] == u[i + 1];
    SpliceAgrees(u, i, rq, rest);
    NoMatchAcross(p, q, y, u, i);
    Regroup(u[0], w[..i], rq, rest);
  }

  lemma Regroup(c: char, a: string, b: string, d: string)
    ensures [c] + a + b + d == [c] + (a + b + d)
  {
  }

  /** `y` agrees with `u` up to index `i + 1`, where a head of `q` begins in `y`: no match of `p` at the start of `y`. */
  lemma NoMatchAcross(p: Pattern, q: Pattern, y: string, u: string, i: nat)
    requires Settles(p, q) && MatchAt(p, u).None? && i + 1 < |u| && i + 2 < |y|
    requires y[i + 1] == Head(q)[0] && y[i + 2] == Head(q)[1]
    requires forall k :: 0 <= k <= i + 1 ==> y[k] == u[k]
    ensures MatchAt(p, y).None?
  {
    assert Settles(p, p);
    if MatchAt(p, y).Some? {
      var m := MatchAt(p, y).value;
      if i + 1 < m {
        Interior(p, q, y, i + 1);
      }
      Local(p, y, u, m);
    }
  }

  /**
   * A global replace of `q` leaves the text clean for `p`: for its own
   * pattern always, and for another pattern of the family if the text was
   * clean for it before.
   */
  lemma {:induction false} CleanAfter(p: Pattern, q: Pattern, v: string, u: string)
    requires Settles(p, q) && DigitVersion(v)
    requires p == q || Clean(p, v, u)
    ensures Clean(p, v, ReplaceAll(q, u, Canonical(q, v)))
    decreases |u|
  {
    var rp, rq := Canonical(p, v), Canonical(q, v);
    assert Settles(p, p) && Settles(q, q);
    if u == [] {
    } else if MatchAt(q, u).Some? {
      var n := MatchAt(q, u).value;
      if p != q {
        NoStartInside(p, q, u, n);
        ReplaceAllCopies(p, u, rp, n);
        assert u == u[..n] + u[n..];
      }
      CleanAfter(p, q, v, u[n..]);
      var z := ReplaceAll(q, u[n..], rq);
      SelfMatch(q, v, z);
      assert (rq + z)[|rq|..] == z;
      if p != q {
        NoStartInside(p, q, rq + z, |rq|);
        ReplaceAllCopies(p, rq + z, rp, |rq|);
        assert (rq + z)[..|rq|] == rq;
      }
    } else if p != q && MatchAt(p, u).Some? {
      var m := MatchAt(p, u).value;
      var tail := ReplaceAll(p, u[m..], rp);
      assert u == rp + tail;
      SelfMatch(p, v, tail);
      assert u[m..] == tail;
      NoStartInside(q, p, u, m);
      ReplaceAllCopies(q, u, rq, m);
      assert u[..m] == rp;
      CleanAfter(p, q, v, u[m..]);
      var z := ReplaceAll(q, u[m..], rq);
      SelfMatch(p, v, z);
      assert (rp + z)[|rp|..] == z;
    } else {
      var t := u[1..];
      if p != q {
        assert ReplaceAll(p, u, rp) == [u[0]] + ReplaceAll(p, t, rp);
        assert u == [u[0]] + t;
      }
      CleanAfter(p, q, v, t);
      var z := ReplaceAll(q, t, rq);
      Crux(p, q, v, u);
      assert ([u[0]] + z)[1..] == z;
    }
  }
}
