/**
 * The handful of Python `str` built-ins the adjudication code relies on:
 * `isspace`, `strip`, `lstrip(chars)`, `split(sep)`, `split()`, `join`,
 * `upper`, `startswith`, `replace(c, '')`, `str(int)` and the `:.2f` / `:.0%`
 * format specifications.
 */
module Strings {

  /** Python's `str.isspace` on one character: the characters `strip()` and `split()` treat as whitespace. */
  predicate IsSpace(c: char)
  {
    ('\t' <= c <= '\r') || ('\U{1C}' <= c <= ' ') || c == '\U{85}' || c == '\U{A0}' || c == '\U{1680}'
    || ('\U{2000}' <= c <= '\U{200A}') || c == '\U{2028}' || c == '\U{2029}' || c == '\U{202F}'
    || c == '\U{205F}' || c == '\U{3000}'
  }

  /** ASCII `isdigit`. */
  predicate IsDigit(c: char)
  {
    '0' <= c <= '9'
  }

  /** A non-empty run of non-whitespace characters: one element of `str.split()`. */
  predicate IsWord(w: string)
  {
    w != [] && forall k :: 0 <= k < |w| ==> !IsSpace(w[k])
  }

  /** `s.lstrip()`: drops the leading whitespace. */
  function TrimLeft(s: string): (r: string)
    ensures |r| <= |s| && r == s[|s| - |r|..]
  {
    if s != [] && IsSpace(s[0]) then TrimLeft(s[1..]) else s
  }

  /** `lstrip()` removes exactly the leading whitespace. */
  lemma {:induction false} TrimLeftSpaces(s: string)
    ensures var r := TrimLeft(s);
      && (r == [] || !IsSpace(r[0]))
      && forall k :: 0 <= k < |s| - |r| ==> IsSpace(s[k])
  {
    if s != [] && IsSpace(s[0]) {
      var r := TrimLeft(s[1..]);
      TrimLeftSpaces(s[1..]);
      assert TrimLeft(s) == r;
      forall k | 0 <= k < |s| - |r|
        ensures IsSpace(s[k])
      {
        if k > 0 {
          assert s[k] == s[1..][k - 1];
        }
      }
    }
  }

  /** `s.rstrip()`: drops the trailing whitespace. */
  function TrimRight(s: string): (r: string)
    ensures |r| <= |s| && r == s[..|r|]
  {
    if s != [] && IsSpace(s[|s| - 1]) then TrimRight(s[..|s| - 1]) else s
  }

  /** `rstrip()` removes exactly the trailing whitespace. */
  lemma {:induction false} TrimRightSpaces(s: string)
    ensures var r := TrimRight(s);
      && (r == [] || !IsSpace(r[|r| - 1]))
      && forall k :: |r| <= k < |s| ==> IsSpace(s[k])
  {
    if s != [] && IsSpace(s[|s| - 1]) {
      var r := TrimRight(s[..|s| - 1]);
      TrimRightSpaces(s[..|s| - 1]);
      assert TrimRight(s) == r;
      forall k | |r| <= k < |s|
        ensures IsSpace(s[k])
      {
        if k < |s| - 1 {
          assert s[k] == s[..|s| - 1][k];
        }
      }
    }
  }

  /** `s.strip()`: no whitespace left at either end, and only whitespace removed. */
  function Strip(s: string): (r: string)
    ensures |r| <= |s|
  {
    TrimRight(TrimLeft(s))
  }

  /** `strip()` leaves no whitespace at either end. */
  lemma StripEnds(s: string)
    ensures Strip(s) == [] || (!IsSpace(Strip(s)[0]) && !IsSpace(Strip(s)[|Strip(s)| - 1]))
  {
    var t := TrimLeft(s);
    var r := TrimRight(t);
    TrimLeftSpaces(s);
    TrimRightSpaces(t);
    assert Strip(s) == r;
    if r != [] {
      assert r[0] == t[0];
    }
  }

  /** `strip()` gives the empty string exactly for all-whitespace text. */
  lemma StripEmpty(s: string)
    ensures (forall k :: 0 <= k < |s| ==> IsSpace(s[k])) <==> Strip(s) == []
  {
    var t := TrimLeft(s);
    var r := TrimRight(t);
    TrimLeftSpaces(s);
    TrimRightSpaces(t);
    assert Strip(s) == r;
    assert t == s[|s| - |t|..];
    if r == [] {
      assert t == [];
    } else if t != [] {
      assert !IsSpace(s[|s| - |t|]);
    }
  }

  /** `s.lstrip(chars)`: drops the leading characters that belong to `chars`. */
  function LStripChars(s: string, chars: set<char>): (r: string)
    ensures |r| <= |s| && r == s[|s| - |r|..]
    ensures r == [] || r[0] !in chars
  {
    if s != [] && s[0] in chars then LStripChars(s[1..], chars) else s
  }

  /** `strip()` only removes characters: one absent from the text is absent from the result. */
  lemma StripKeepsOut(s: string, c: char)
    requires c !in s
    ensures c !in Strip(s)
  {
    var t := TrimLeft(s);
    var r := TrimRight(t);
    assert Strip(s) == r;
    var from := |s| - |t|;
    assert r == s[from..from + |r|] by {
      assert t == s[from..];
      assert r == t[..|r|];
    }
  }

  /** `lstrip(chars)` only removes characters: one absent from the text is absent from the result. */
  lemma LStripCharsKeepsOut(s: string, chars: set<char>, c: char)
    requires c !in s
    ensures c !in LStripChars(s, chars)
  {
    var r := LStripChars(s, chars);
    forall k | 0 <= k < |r|
      ensures r[k] != c
    {
      assert r[k] == s[|s| - |r| + k];
    }
  }

  /** `s.replace(c, '')`: every occurrence of `c` removed, all else kept in order. */
  function Without(s: string, c: char): (r: string)
    ensures |r| <= |s|
  {
    if s == [] then [] else (if s[0] == c then [] else [s[0]]) + Without(s[1..], c)
  }

  /** `replace(c, '')` leaves no `c` behind, and changes nothing when there is none. */
  lemma {:induction false} WithoutRemoves(s: string, c: char)
    ensures c !in Without(s, c)
    ensures c !in s ==> Without(s, c) == s
  {
    if s != [] {
      WithoutRemoves(s[1..], c);
      if c !in s {
        assert c !in s[1..];
      }
    }
  }

  /** `s.upper()` restricted to the ASCII letters. */
  function UpperChar(c: char): (u: char)
    ensures u == ':' <==> c == ':'
  {
    if 'a' <= c <= 'z' then (c as int - 32) as char else c
  }

  function Upper(s: string): (u: string)
    ensures |u| == |s|
  {
    if s == [] then [] else [UpperChar(s[0])] + Upper(s[1..])
  }

  /** Upper-casing works character by character. */
  lemma {:induction false} UpperAt(s: string, k: nat)
    requires k < |s|
    ensures Upper(s)[k] == UpperChar(s[k])
  {
    if k > 0 {
      UpperAt(s[1..], k - 1);
    }
  }

  /** `s.startswith(prefix)`. */
  predicate StartsWith(s: string, prefix: string)
  {
    prefix <= s
  }

  /** `t in s` for strings: `t` occurs somewhere in `s`. */
  predicate Contains(s: string, t: string)
    decreases |s|
  {
    t <= s || (s != [] && Contains(s[1..], t))
  }

  lemma {:induction false} ContainsInside(a: string, t: string, b: string)
    ensures Contains(a + t + b, t)
  {
    if a == [] {
      assert a + t + b == t + b;
      assert t <= t + b;
    } else {
      assert (a + t + b)[1..] == a[1..] + t + b;
      ContainsInside(a[1..], t, b);
    }
  }

  /** `s.split(c, 1)[1]`: the text after the first occurrence of `c`. */
  function AfterFirst(s: string, c: char): (r: string)
    requires c in s
    ensures |r| < |s|
  {
    if s[0] == c then s[1..] else AfterFirst(s[1..], c)
  }

  /** `s` is the text before the first `c`, then `c`, then `AfterFirst(s, c)`. */
  lemma {:induction false} AfterFirstSplits(s: string, c: char)
    requires c in s
    ensures var r := AfterFirst(s, c);
      && r == s[|s| - |r|..] && s[|s| - |r| - 1] == c
      && c !in s[..|s| - |r| - 1]
  {
    if s[0] != c {
      AfterFirstSplits(s[1..], c);
      var r := AfterFirst(s, c);
      assert s[..|s| - |r| - 1] == [s[0]] + s[1..][..|s[1..]| - |r| - 1];
    }
  }

  /** `s.split(sep)` for a one-character separator: never empty, no piece holds `sep`. */
  function Split(s: string, sep: char): (parts: seq<string>)
    ensures |parts| >= 1
    ensures forall i :: 0 <= i < |parts| ==> sep !in parts[i]
  {
    if s == [] then [[]]
    else
      var rest := Split(s[1..], sep);
      if s[0] == sep then [[]] + rest else [[s[0]] + rest[0]] + rest[1..]
  }

  /** `sep.join(parts)`. */
  function Join(parts: seq<string>, sep: string): string
  {
    if |parts| == 0 then []
    else if |parts| == 1 then parts[0]
    else parts[0] + sep + Join(parts[1..], sep)
  }

  /** Splitting on a character and joining back on it gives the original text. */
  lemma {:induction false} JoinSplit(s: string, sep: char)
    ensures Join(Split(s, sep), [sep]) == s
  {
    if s != [] {
      var rest := Split(s[1..], sep);
      JoinSplit(s[1..], sep);
      if s[0] == sep {
        assert Split(s, sep) == [[]] + rest;
        assert ([[]] + rest)[1..] == rest;
      } else {
        var parts := [[s[0]] + rest[0]] + rest[1..];
        assert Split(s, sep) == parts;
        if |rest| > 1 {
          assert parts[1..] == rest[1..];
          assert Join(rest, [sep]) == rest[0] + [sep] + Join(rest[1..], [sep]);
        }
      }
    }
  }

  /** Every part of a join appears in the joined text. */
  lemma {:induction false} JoinContainsPart(parts: seq<string>, sep: string, i: nat)
    requires i < |parts|
    ensures Contains(Join(parts, sep), parts[i])
  {
    if |parts| == 1 {
      ContainsInside([], parts[0], []);
      assert [] + parts[0] + [] == parts[0];
    } else if i == 0 {
      ContainsInside([], parts[0], sep + Join(parts[1..], sep));
      assert [] + parts[0] + (sep + Join(parts[1..], sep)) == Join(parts, sep);
    } else {
      JoinContainsPart(parts[1..], sep, i - 1);
      JoinSuffixContains(parts[0] + sep, Join(parts[1..], sep), parts[i]);
      assert Join(parts, sep) == (parts[0] + sep) + Join(parts[1..], sep);
    }
  }

  lemma {:induction false} JoinSuffixContains(a: string, b: string, t: string)
    requires Contains(b, t)
    ensures Contains(a + b, t)
  {
    if a != [] {
      assert (a + b)[1..] == a[1..] + b;
      JoinSuffixContains(a[1..], b, t);
    } else {
      assert a + b == b;
    }
  }

  /** The leading run of non-whitespace characters. */
  function LeadingWord(s: string): (w: string)
    ensures |w| <= |s|
    ensures s != [] && !IsSpace(s[0]) ==> |w| >= 1
  {
    if s == [] || IsSpace(s[0]) then [] else [s[0]] + LeadingWord(s[1..])
  }

  /** The leading word is a prefix free of whitespace, and whatever follows it starts with whitespace. */
  lemma {:induction false} LeadingWordShape(s: string)
    ensures LeadingWord(s) == s[..|LeadingWord(s)|]
    ensures forall k :: 0 <= k < |LeadingWord(s)| ==> !IsSpace(LeadingWord(s)[k])
    ensures |LeadingWord(s)| < |s| ==> IsSpace(s[|LeadingWord(s)|])
  {
    if s != [] && !IsSpace(s[0]) {
      var w := LeadingWord(s);
      var v := LeadingWord(s[1..]);
      LeadingWordShape(s[1..]);
      assert w == [s[0]] + v;
      forall k | 0 <= k < |w|
        ensures !IsSpace(w[k])
      {
        if k > 0 {
          assert w[k] == v[k - 1];
        }
      }
    }
  }

  /** `s.split()`: the maximal runs of non-whitespace characters, in order. */
  function Words(s: string): seq<string>
    decreases |s|, 1
  {
    if s == [] then [] else WordsOfNonEmpty(s)
  }

  /** `s.split()` for a text with a first character. */
  function WordsOfNonEmpty(s: string): seq<string>
    requires s != []
    decreases |s|, 0
  {
    if IsSpace(s[0]) then Words(s[1..])
    else
      var w := LeadingWord(s);
      [w] + Words(s[|w|..])
  }

  /** Every element of `s.split()` is a word. */
  lemma {:induction false} WordsAreWords(s: string)
    ensures forall i :: 0 <= i < |Words(s)| ==> IsWord(Words(s)[i])
    decreases |s|
  {
    if s != [] {
      if IsSpace(s[0]) {
        WordsAreWords(s[1..]);
        assert Words(s) == Words(s[1..]);
      } else {
        var w := LeadingWord(s);
        var rest := Words(s[|w|..]);
        WordsAreWords(s[|w|..]);
        LeadingWordShape(s);
        assert Words(s) == [w] + rest;
        assert IsWord(w);
        forall i | 0 < i < |Words(s)|
          ensures IsWord(Words(s)[i])
        {
          assert Words(s)[i] == rest[i - 1];
        }
      }
    }
  }

  /** Splitting a space-joined list of words gives back the same words. */
  lemma {:induction false} WordsOfJoin(ws: seq<string>)
    requires forall i :: 0 <= i < |ws| ==> IsWord(ws[i])
    ensures Words(Join(ws, " ")) == ws
  {
    if ws == [] {
      assert Join(ws, " ") == [];
    } else if |ws| == 1 {
      assert Join(ws, " ") == ws[0];
      WordsOfOneWord(ws[0]);
    } else {
      WordsTail(ws);
      WordsOfJoin(ws[1..]);
      WordsOfJoinCons(ws);
    }
  }

  lemma WordsTail(ws: seq<string>)
    requires ws != [] && forall i :: 0 <= i < |ws| ==> IsWord(ws[i])
    ensures forall i :: 0 <= i < |ws[1..]| ==> IsWord(ws[1..][i])
  {
    forall i | 0 <= i < |ws[1..]|
      ensures IsWord(ws[1..][i])
    {
      assert ws[1..][i] == ws[i + 1];
    }
  }

  lemma WordsOfJoinCons(ws: seq<string>)
    requires |ws| > 1 && IsWord(ws[0])
    requires Words(Join(ws[1..], " ")) == ws[1..]
    ensures Words(Join(ws, " ")) == ws
  {
    var tail := ws[1..];
    JoinCons(ws, " ");
    WordsCons(ws[0], Join(tail, " "));
    assert ws == [ws[0]] + tail;
  }

  /** A single word splits into itself. */
  lemma WordsOfOneWord(w: string)
    requires IsWord(w)
    ensures Words(w) == [w]
  {
    WordsOfWord(w, []);
    assert w + [] == w;
  }

  /** A word, a space and more text split into that word and the split of the rest. */
  lemma WordsCons(w: string, rest: string)
    requires IsWord(w)
    ensures Words(w + (" " + rest)) == [w] + Words(rest)
  {
    var t := " " + rest;
    assert t[0] == ' ';
    WordsOfWord(w, t);
    WordsAfterSpace(rest);
    assert Words(t) == Words(rest);
  }

  lemma JoinCons(parts: seq<string>, sep: string)
    requires |parts| > 1
    ensures Join(parts, sep) == parts[0] + (sep + Join(parts[1..], sep))
  {
  }

  /** A leading space does not change the split of a text. */
  lemma WordsAfterSpace(rest: string)
    ensures Words(" " + rest) == Words(rest)
  {
    assert (" " + rest)[1..] == rest;
  }

  /** A word followed by nothing or by whitespace is the first element of the split. */
  lemma WordsOfWord(w: string, tail: string)
    requires IsWord(w)
    requires tail == [] || IsSpace(tail[0])
    ensures Words(w + tail) == [w] + Words(tail)
  {
    var s := w + tail;
    assert s[0] == w[0];
    LeadingWordOf(w, tail);
    assert s[|w|..] == tail;
  }

  lemma {:induction false} LeadingWordOf(w: string, tail: string)
    requires forall k :: 0 <= k < |w| ==> !IsSpace(w[k])
    requires tail == [] || IsSpace(tail[0])
    ensures LeadingWord(w + tail) == w
  {
    if w == [] {
      assert w + tail == tail;
    } else {
      assert (w + tail)[0] == w[0];
      assert (w + tail)[1..] == w[1..] + tail;
      LeadingWordOf(w[1..], tail);
    }
  }

  lemma JoinStartsWithFirst(parts: seq<string>, sep: string)
    requires |parts| > 0
    ensures parts[0] <= Join(parts, sep)
  {
  }

  /** `str(n)` for a natural number. */
  function DigitChar(d: nat): char
    requires d < 10
  {
    (48 + d) as char
  }

  function NatToString(n: nat): (s: string)
    ensures |s| >= 1
  {
    if n < 10 then [DigitChar(n)] else NatToString(n / 10) + [DigitChar(n % 10)]
  }

  /** `str(n)` is made of decimal digits only. */
  lemma {:induction false} NatToStringDigits(n: nat)
    ensures forall k :: 0 <= k < |NatToString(n)| ==> IsDigit(NatToString(n)[k])
  {
    if n >= 10 {
      NatToStringDigits(n / 10);
    }
  }

  /** The number a string denotes when each character is read as a decimal digit: the inverse of `NatToString`. */
  function DigitsValue(s: string): int
  {
    if s == [] then 0
    else DigitsValue(s[..|s| - 1]) * 10 + (s[|s| - 1] as int - '0' as int)
  }

  lemma {:induction false} NatToStringRoundTrip(n: nat)
    ensures DigitsValue(NatToString(n)) == n
  {
    if n >= 10 {
      var s := NatToString(n);
      NatToStringRoundTrip(n / 10);
      assert s[..|s| - 1] == NatToString(n / 10);
    }
  }

  /** Distinct numbers print differently. */
  lemma NatToStringInjective(a: nat, b: nat)
    ensures NatToString(a) == NatToString(b) ==> a == b
  {
    NatToStringRoundTrip(a);
    NatToStringRoundTrip(b);
  }

  function Abs(x: real): (r: real)
    ensures r >= 0.0 && (r == x || r == -x)
  {
    if x < 0.0 then -x else x
  }

  /** Round to the nearest integer, ties to the even one: how Python rounds when formatting. */
  function RoundHalfEven(x: real): (n: int)
    ensures x - 0.5 <= n as real <= x + 0.5
    ensures n as real - x == 0.5 || x - n as real == 0.5 ==> n % 2 == 0
  {
    var f := x.Floor;
    var d := x - f as real;
    if d > 0.5 then f + 1 else if d < 0.5 then f else if f % 2 == 0 then f else f + 1
  }

  /** `f"{x:.2f}"`: sign, integer part, point and two rounded decimals. */
  function FixedTwo(x: real): string
  {
    var q := RoundHalfEven(Abs(x) * 100.0);
    assert q >= 0;
    (if x < 0.0 then "-" else "") + NatToString(q / 100) + "." + [DigitChar((q / 10) % 10), DigitChar(q % 10)]
  }

  /** `f"{x:.0%}"`: the value times one hundred, rounded, followed by a percent sign. */
  function PercentZero(x: real): string
  {
    var q := RoundHalfEven(Abs(x) * 100.0);
    assert q >= 0;
    (if x < 0.0 then "-" else "") + NatToString(q) + "%"
  }
}
