/**
 * The string operations of Python that the lottery code relies on: `str()` of
 * an integer, `int()` of a string, `sep.join(parts)`, `s.split('\n')`,
 * `s.split()` and `s.isdigit()`. Strings are sequences of Unicode code points,
 * so `|s|` is Python's `len(s)`.
 */
module Text {
  import opened Errors

  predicate IsDigit(c: char) { '0' <= c <= '9' }

  predicate AllDigits(s: string) { forall i :: 0 <= i < |s| ==> IsDigit(s[i]) }

  /** Python's `str.isspace()` for one character. */
  predicate IsSpace(c: char)
  {
    || ('\t' <= c <= '\r') || ('\U{1c}' <= c <= '\U{1f}') || c == ' '
    || c == '\U{85}' || c == '\U{a0}' || c == '\U{1680}' || ('\U{2000}' <= c <= '\U{200a}')
    || c == '\U{2028}' || c == '\U{2029}' || c == '\U{202f}' || c == '\U{205f}' || c == '\U{3000}'
  }

  function DigitChar(d: nat): (c: char)
    requires d < 10
    ensures IsDigit(c)
  {
    (48 + d) as char
  }

  function DigitValue(c: char): (d: nat)
    requires IsDigit(c)
    ensures d < 10 && DigitChar(d) == c
  {
    (c as int - 48) as nat
  }

  /** Decimal digits of `n` without leading zeros: `str(n)` for `n >= 0`. */
  function NatToString(n: nat): (s: string)
    ensures |s| >= 1 && AllDigits(s)
    ensures n > 0 ==> s[0] != '0'
  {
    if n < 10 then [DigitChar(n)] else NatToString(n / 10) + [DigitChar(n % 10)]
  }

  /** Python's `str(n)` for an integer. */
  function IntToString(n: int): string
  {
    if n < 0 then "-" + NatToString(-n) else NatToString(n)
  }

  /** `str(n)` is written with digits and a leading minus sign only. */
  lemma IntToStringCharset(n: int)
    ensures forall i :: 0 <= i < |IntToString(n)| ==> IsDigit(IntToString(n)[i]) || IntToString(n)[i] == '-'
  {
    var d := NatToString(if n < 0 then -n else n);
    if n < 0 {
      assert IntToString(n) == "-" + d;
    }
  }

  /** The value of a string of decimal digits, as `int(s)` reads it. */
  function DigitsValue(s: string): nat
    requires AllDigits(s)
  {
    if s == [] then 0 else DigitsValue(s[..|s| - 1]) * 10 + DigitValue(s[|s| - 1])
  }

  lemma {:induction false} DigitsValueOfNatToString(n: nat)
    ensures DigitsValue(NatToString(n)) == n
  {
    if n >= 10 {
      DigitsValueOfNatToString(n / 10);
      var s := NatToString(n);
      assert s[..|s| - 1] == NatToString(n / 10);
    }
  }

  /** `NatToString` is injective: distinct numbers print differently. */
  lemma NatToStringInjective(m: nat, n: nat)
    requires NatToString(m) == NatToString(n)
    ensures m == n
  {
    DigitsValueOfNatToString(m);
    DigitsValueOfNatToString(n);
  }

  /** `sep.join(parts)`. */
  function Join(sep: string, parts: seq<string>): string
  {
    if parts == [] then ""
    else if |parts| == 1 then parts[0]
    else parts[0] + sep + Join(sep, parts[1..])
  }

  lemma {:induction false} JoinAppend(sep: string, a: seq<string>, b: seq<string>)
    requires a != [] && b != []
    ensures Join(sep, a + b) == Join(sep, a) + sep + Join(sep, b)
  {
    if |a| == 1 {
      assert a + b == [a[0]] + b;
    } else {
      assert (a + b)[1..] == a[1..] + b;
      JoinAppend(sep, a[1..], b);
    }
  }

  lemma JoinSnoc(sep: string, a: seq<string>, x: string)
    requires a != []
    ensures Join(sep, a + [x]) == Join(sep, a) + sep + x
  {
    JoinAppend(sep, a, [x]);
  }

  /** `str(n)` of every element, in order. */
  function MapToString(s: seq<int>): (r: seq<string>)
    ensures |r| == |s| && forall i :: 0 <= i < |s| ==> r[i] == IntToString(s[i])
  {
    seq(|s|, i requires 0 <= i < |s| => IntToString(s[i]))
  }

  /** Python's `repr` of a list of integers, e.g. `[1, 2, 3]`. */
  function ListRepr(s: seq<int>): string
  {
    "[" + Join(", ", MapToString(s)) + "]"
  }

  /** `s.split(sep)` for a one-character separator. */
  function SplitOn(s: string, sep: char): (pieces: seq<string>)
    ensures |pieces| >= 1
    ensures forall i :: 0 <= i < |pieces| ==> sep !in pieces[i]
  {
    if s == [] then [""]
    else
      var rest := SplitOn(s[1..], sep);
      if s[0] == sep then [""] + rest else [[s[0]] + rest[0]] + rest[1..]
  }

  /** Splitting and re-joining with the same separator gives the text back. */
  lemma {:induction false} JoinSplitOn(s: string, sep: char)
    ensures Join([sep], SplitOn(s, sep)) == s
  {
    if s != [] {
      var rest := SplitOn(s[1..], sep);
      JoinSplitOn(s[1..], sep);
      if s[0] == sep {
        assert ([""] + rest)[1..] == rest;
      } else if |rest| == 1 {
        assert SplitOn(s, sep) == [[s[0]] + rest[0]];
      } else {
        var ps := SplitOn(s, sep);
        assert ps[1..] == rest[1..];
        assert Join([sep], rest) == rest[0] + [sep] + Join([sep], rest[1..]);
      }
    }
  }

  /** Text without the separator is one piece. */
  lemma {:induction false} SplitOnNoSeparator(s: string, sep: char)
    requires sep !in s
    ensures SplitOn(s, sep) == [s]
  {
    if s != [] {
      SplitOnNoSeparator(s[1..], sep);
      assert s == [s[0]] + s[1..];
    }
  }

  /** A prefix without the separator joins the first piece. */
  lemma {:induction false} SplitOnPrefix(pad: string, s: string, sep: char)
    requires sep !in pad
    ensures SplitOn(pad + s, sep) == [pad + SplitOn(s, sep)[0]] + SplitOn(s, sep)[1..]
  {
    if pad != [] {
      SplitOnPrefix(pad[1..], s, sep);
      var pieces := SplitOn(s, sep);
      var rest := SplitOn(pad[1..] + s, sep);
      assert (pad + s)[1..] == pad[1..] + s;
      assert (pad + s)[0] == pad[0] && pad[0] != sep;
      assert SplitOn(pad + s, sep) == [[pad[0]] + rest[0]] + rest[1..];
      assert rest[0] == pad[1..] + pieces[0] && rest[1..] == pieces[1..];
      assert [pad[0]] + (pad[1..] + pieces[0]) == pad + pieces[0];
    } else {
      var pieces := SplitOn(s, sep);
      assert pieces == [pieces[0]] + pieces[1..];
      assert pad + s == s && pad + pieces[0] == pieces[0];
    }
  }

  /** Text before a separator forms pieces of its own. */
  lemma {:induction false} SplitOnAt(a: string, sep: char, b: string)
    ensures SplitOn(a + [sep] + b, sep) == SplitOn(a, sep) + SplitOn(b, sep)
  {
    if a == [] {
      assert a + [sep] + b == [sep] + b;
      assert ([sep] + b)[1..] == b;
    } else {
      SplitOnAt(a[1..], sep, b);
      var s := a + [sep] + b;
      assert s[0] == a[0] && s[1..] == a[1..] + [sep] + b;
      PiecesAppend(a[0], sep, SplitOn(a[1..], sep), SplitOn(b, sep));
    }
  }

  /** Adding a character in front of pieces followed by more pieces only touches the first ones. */
  lemma PiecesAppend(c: char, sep: char, r: seq<string>, t: seq<string>)
    requires r != []
    ensures (if c == sep then [""] + (r + t) else [[c] + (r + t)[0]] + (r + t)[1..])
      == (if c == sep then [""] + r else [[c] + r[0]] + r[1..]) + t
  {
    if c != sep {
      assert (r + t)[0] == r[0] && (r + t)[1..] == r[1..] + t;
    }
  }

  /** Joining pieces that do not contain the separator and splitting again gives the pieces back. */
  lemma {:induction false} SplitOnJoin(parts: seq<string>, sep: char)
    requires parts != []
    requires forall i :: 0 <= i < |parts| ==> sep !in parts[i]
    ensures SplitOn(Join([sep], parts), sep) == parts
    decreases |parts|
  {
    SplitOnNoSeparator(parts[0], sep);
    if |parts| > 1 {
      var rest := parts[1..];
      assert forall i :: 0 <= i < |rest| ==> sep !in rest[i] by {
        forall i | 0 <= i < |rest| ensures sep !in rest[i] {
          assert rest[i] == parts[i + 1];
        }
      }
      SplitOnJoin(rest, sep);
      assert Join([sep], parts) == parts[0] + [sep] + Join([sep], rest);
      SplitOnAt(parts[0], sep, Join([sep], rest));
      assert parts == [parts[0]] + rest;
    }
  }

  /** Leading whitespace does not change what `int()` reads. */
  lemma ParseIntSkipsSpace(s: string)
    ensures ParseInt(" " + s) == ParseInt(s)
  {
    assert (" " + s)[1..] == s;
  }

  /** The whitespace-separated words of `s` after the partial word `cur`. */
  function WordsFrom(s: string, cur: string): (words: seq<string>)
    requires forall i :: 0 <= i < |cur| ==> !IsSpace(cur[i])
    ensures forall w :: w in words ==> w != [] && forall i :: 0 <= i < |w| ==> !IsSpace(w[i])
    decreases |s|
  {
    if s == [] then (if cur == [] then [] else [cur])
    else if IsSpace(s[0]) then
      (if cur == [] then WordsFrom(s[1..], []) else [cur] + WordsFrom(s[1..], []))
    else WordsFrom(s[1..], cur + [s[0]])
  }

  /** `s.split()` with no argument: maximal runs of non-whitespace. */
  function Words(s: string): seq<string>
  {
    WordsFrom(s, [])
  }

  /** Python's `s.strip()` with no argument. */
  function Strip(s: string): (r: string)
    ensures |r| <= |s|
    ensures r != [] ==> !IsSpace(r[0]) && !IsSpace(r[|r| - 1])
    decreases |s|
  {
    if s == [] then s
    else if IsSpace(s[0]) then Strip(s[1..])
    else if IsSpace(s[|s| - 1]) then Strip(s[..|s| - 1])
    else s
  }

  /** Digits, possibly grouped by single underscores between digits (`1_000`). */
  predicate IsDigitGroups(s: string)
  {
    && s != []
    && IsDigit(s[0]) && IsDigit(s[|s| - 1])
    && (forall i :: 0 <= i < |s| ==> IsDigit(s[i]) || s[i] == '_')
    && (forall i :: 0 < i < |s| && s[i] == '_' ==> s[i - 1] != '_')
  }

  function DropUnderscores(s: string): (r: string)
    requires forall i :: 0 <= i < |s| ==> IsDigit(s[i]) || s[i] == '_'
    ensures AllDigits(r)
    ensures AllDigits(s) ==> r == s
  {
    if s == [] then []
    else if s[0] == '_' then DropUnderscores(s[1..])
    else [s[0]] + DropUnderscores(s[1..])
  }

  /**
   * Python's `int(s)` in base 10 for ASCII text: surrounding whitespace is
   * ignored, one optional sign, then digits in underscore-separated groups.
   * `None` stands for the ValueError it raises otherwise.
   */
  function ParseInt(s: string): Option<int>
  {
    ParseSigned(Strip(s))
  }

  /** `int()` of text without surrounding whitespace: one optional sign, then digit groups. */
  function ParseSigned(t: string): Option<int>
  {
    if t == [] then None
    else
      var body := if t[0] == '-' || t[0] == '+' then t[1..] else t;
      if !IsDigitGroups(body) then None
      else
        var magnitude: int := DigitsValue(DropUnderscores(body));
        Some(if t[0] == '-' then -magnitude else magnitude)
  }

  lemma StripNoSpace(s: string)
    requires s != [] && !IsSpace(s[0]) && !IsSpace(s[|s| - 1])
    ensures Strip(s) == s
  {
  }

  lemma DigitsAreGroups(d: string)
    requires d != [] && AllDigits(d)
    ensures IsDigitGroups(d) && DropUnderscores(d) == d
  {
  }

  /** `int(str(n)) == n` for every integer. */
  lemma ParseIntOfIntToString(n: int)
    ensures ParseInt(IntToString(n)) == Some(n)
  {
    var m: nat := if n < 0 then -n else n;
    DigitsValueOfNatToString(m);
    if n < 0 {
      ParseIntOfNegatedDigits(NatToString(m));
    } else {
      ParseIntOfDigits(NatToString(m));
    }
  }

  /** Plain digits read as their value. */
  lemma ParseIntOfDigits(d: string)
    requires d != [] && AllDigits(d)
    ensures ParseInt(d) == Some(DigitsValue(d))
  {
    DigitsAreGroups(d);
    assert !IsSpace(d[0]) && !IsSpace(d[|d| - 1]);
    StripNoSpace(d);
    assert d[0] != '-' && d[0] != '+';
  }

  /** A minus sign before digits negates their value. */
  lemma ParseIntOfNegatedDigits(d: string)
    requires d != [] && AllDigits(d)
    ensures ParseInt("-" + d) == Some(-(DigitsValue(d) as int))
  {
    NegatedDigitsStripped(d);
    ParseSignedNegated(d);
  }

  lemma ParseSignedNegated(d: string)
    requires d != [] && AllDigits(d)
    ensures ParseSigned("-" + d) == Some(-(DigitsValue(d) as int))
  {
    DigitsAreGroups(d);
  }

  lemma NegatedDigitsStripped(d: string)
    requires d != [] && AllDigits(d)
    ensures Strip("-" + d) == "-" + d
  {
    var s := "-" + d;
    assert s[|s| - 1] == d[|d| - 1];
    StripNoSpace(s);
  }
}
