/** The Python string operations the gateway relies on, over `string`
    (a sequence of code points): lower-casing, stripping, splitting on a
    separator, joining, substring search, decimal printing and parsing,
    and code-point ordering. */
module Text {
  import opened Wrappers

  // ---------------------------------------------------------------------
  // Case mapping

  /** `str.lower()` on one character, for the ASCII letters. */
  function LowerChar(c: char): char {
    if 'A' <= c <= 'Z' then (c as int + 32) as char else c
  }

  function Lower(s: string): (r: string)
    ensures |r| == |s|
    ensures forall i :: 0 <= i < |s| ==> r[i] == LowerChar(s[i])
  {
    seq(|s|, i requires 0 <= i < |s| => LowerChar(s[i]))
  }

  lemma LowerConcat(a: string, b: string)
    ensures Lower(a + b) == Lower(a) + Lower(b)
  {
    assert forall i :: 0 <= i < |a + b| ==> Lower(a + b)[i] == (Lower(a) + Lower(b))[i];
  }

  // ---------------------------------------------------------------------
  // Whitespace and `str.strip()`

  /** The characters for which Python's `str.isspace()` holds. */
  predicate IsSpace(c: char) {
    || c == ' '
    || '\t' <= c <= '\r'
    || '\U{1c}' <= c <= '\U{1f}'
    || c == '\U{85}' || c == '\U{a0}' || c == '\U{1680}'
    || '\U{2000}' <= c <= '\U{200a}'
    || c == '\U{2028}' || c == '\U{2029}' || c == '\U{202f}' || c == '\U{205f}'
    || c == '\U{3000}'
  }

  function TrimStart(s: string): (r: string)
    ensures |r| <= |s| && r == s[|s| - |r|..]
    ensures r == [] || !IsSpace(r[0])
    decreases |s|
  {
    if s != [] && IsSpace(s[0]) then TrimStart(s[1..]) else s
  }

  function TrimEnd(s: string): (r: string)
    ensures |r| <= |s| && r == s[..|r|]
    ensures r == [] || !IsSpace(r[|r| - 1])
    decreases |s|
  {
    if s != [] && IsSpace(s[|s| - 1]) then TrimEnd(s[..|s| - 1]) else s
  }

  /** `str.strip()` with no argument. */
  function Strip(s: string): (r: string)
    ensures r == [] || (!IsSpace(r[0]) && !IsSpace(r[|r| - 1]))
  {
    TrimEnd(TrimStart(s))
  }

  lemma StripKeeps(s: string)
    requires s == [] || (!IsSpace(s[0]) && !IsSpace(s[|s| - 1]))
    ensures Strip(s) == s
  {
  }

  // ---------------------------------------------------------------------
  // `str.split(sep)` with a one-character separator, and `sep.join(xs)`

  function Split(s: string, sep: char): (r: seq<string>)
    ensures |r| >= 1
    ensures forall p :: p in r ==> sep !in p
    decreases |s|
  {
    if s == [] then [""]
    else
      var rest := Split(s[1..], sep);
      if s[0] == sep then [""] + rest
      else [[s[0]] + rest[0]] + rest[1..]
  }

  function Join(xs: seq<string>, sep: string): string
    decreases |xs|
  {
    if xs == [] then ""
    else if |xs| == 1 then xs[0]
    else xs[0] + sep + Join(xs[1..], sep)
  }

  /** Joining the pieces of a split with the separator gives the string back. */
  lemma {:induction false} JoinSplit(s: string, sep: char)
    ensures Join(Split(s, sep), [sep]) == s
    decreases |s|
  {
    if s != [] {
      var rest := Split(s[1..], sep);
      JoinSplit(s[1..], sep);
      if s[0] == sep {
        assert Split(s, sep) == [""] + rest;
        assert ([""] + rest)[1..] == rest;
      } else if |rest| == 1 {
        assert Split(s, sep) == [[s[0]] + rest[0]];
      } else {
        var r := Split(s, sep);
        assert r == [[s[0]] + rest[0]] + rest[1..];
        assert r[1..] == rest[1..];
        assert Join(rest, [sep]) == rest[0] + [sep] + Join(rest[1..], [sep]);
        assert s == [s[0]] + s[1..];
      }
    }
  }

  /** `r` with `p` put in front of its first piece. */
  function Extend(p: string, r: seq<string>): seq<string>
    requires |r| >= 1
  {
    [p + r[0]] + r[1..]
  }

  lemma ExtendTwice(p: string, q: string, r: seq<string>)
    requires |r| >= 1
    ensures Extend(p, Extend(q, r)) == Extend(p + q, r)
  {
    assert Extend(q, r)[0] == q + r[0] && Extend(q, r)[1..] == r[1..];
    assert p + (q + r[0]) == (p + q) + r[0];
  }

  /** A character other than the separator joins the first piece. */
  lemma SplitCons(c: char, s: string, sep: char)
    requires c != sep
    ensures Split([c] + s, sep) == Extend([c], Split(s, sep))
  {
    assert ([c] + s)[0] == c && ([c] + s)[1..] == s;
  }

  /** A separator-free prefix joins the first piece. */
  lemma {:induction false} SplitPrefix(a: string, t: string, sep: char)
    requires sep !in a
    ensures Split(a + t, sep) == Extend(a, Split(t, sep))
    decreases |a|
  {
    var st := Split(t, sep);
    if a != [] {
      calc {
        Split(a + t, sep);
        { assert a + t == [a[0]] + (a[1..] + t); }
        Split([a[0]] + (a[1..] + t), sep);
        { SplitCons(a[0], a[1..] + t, sep); }
        Extend([a[0]], Split(a[1..] + t, sep));
        { SplitPrefix(a[1..], t, sep); }
        Extend([a[0]], Extend(a[1..], st));
        { ExtendTwice([a[0]], a[1..], st); assert [a[0]] + a[1..] == a; }
        Extend(a, st);
      }
    } else {
      assert a + t == t;
      assert st == [st[0]] + st[1..];
      assert a + st[0] == st[0];
    }
  }

  /** Splitting a join of separator-free pieces gives the pieces back. */
  lemma {:induction false} SplitJoin(xs: seq<string>, sep: char)
    requires |xs| >= 1
    requires forall x :: x in xs ==> sep !in x
    ensures Split(Join(xs, [sep]), sep) == xs
    decreases |xs|
  {
    if |xs| == 1 {
      SplitPrefix(xs[0], "", sep);
      assert xs[0] + "" == xs[0];
    } else {
      var j := Join(xs[1..], [sep]);
      SplitJoin(xs[1..], sep);
      assert Join(xs, [sep]) == xs[0] + ([sep] + j);
      SplitPrefix(xs[0], [sep] + j, sep);
      var u := [sep] + j;
      assert u[0] == sep && u[1..] == j;
      assert Split(u, sep) == [""] + Split(j, sep);
      assert Split(u, sep)[0] == "" && Split(u, sep)[1..] == xs[1..];
      assert xs[0] + "" == xs[0];
      assert [xs[0]] + xs[1..] == xs;
    }
  }

  /** The last element of a sequence of strings (`xs[-1]` in Python). */
  function Last(xs: seq<string>): string
    requires |xs| >= 1
  {
    xs[|xs| - 1]
  }

  /** The last piece of a split is the text after the last separator: a
      suffix of the string (`SplitLastSuffix`), the whole string just when
      nothing was split (`SplitLastWhole`), and otherwise preceded by the
      separator (`SplitLastSep`). */
  lemma {:induction false} SplitLastSuffix(s: string, sep: char)
    ensures var l := Last(Split(s, sep)); |l| <= |s| && s[|s| - |l|..] == l
    decreases |s|, 1
  {
    if s != [] {
      SplitLastStep(s, sep);
      SplitLastSuffix(s[1..], sep);
      var l := Last(Split(s[1..], sep));
      if s[0] != sep && |Split(s[1..], sep)| == 1 {
        SplitLastWhole(s[1..], sep);
        assert [s[0]] + s[1..] == s;
      } else {
        SuffixOfTail(s, l);
      }
    }
  }

  /** One step of `Split` on the last piece: it grows by the first character
      when the rest was not split and that character is no separator, and
      is the rest's last piece otherwise. */
  lemma SplitLastStep(s: string, sep: char)
    requires s != []
    ensures var rest := Split(s[1..], sep);
      && (s[0] != sep && |rest| == 1 ==> Last(Split(s, sep)) == [s[0]] + Last(rest) && |Split(s, sep)| == 1)
      && (s[0] == sep || |rest| > 1 ==> Last(Split(s, sep)) == Last(rest) && |Split(s, sep)| > 1)
  {
  }

  lemma SuffixOfTail(s: string, l: string)
    requires s != [] && |l| <= |s| - 1 && s[1..][|s| - 1 - |l|..] == l
    ensures s[|s| - |l|..] == l
  {
    assert s[1..][|s| - 1 - |l|..] == s[|s| - |l|..];
  }

  lemma {:induction false} SplitLastWhole(s: string, sep: char)
    ensures |Split(s, sep)| == 1 <==> Last(Split(s, sep)) == s
    decreases |s|, 0
  {
    if s != [] {
      SplitLastStep(s, sep);
      SplitLastWhole(s[1..], sep);
      SplitLastSuffix(s[1..], sep);
      if s[0] != sep && |Split(s[1..], sep)| == 1 {
        assert [s[0]] + s[1..] == s;
      }
    }
  }

  lemma {:induction false} SplitLastSep(s: string, sep: char)
    requires |Split(s, sep)| > 1
    ensures var l := Last(Split(s, sep)); |l| < |s| && s[|s| - |l| - 1] == sep
    decreases |s|
  {
    SplitLastStep(s, sep);
    SplitLastSuffix(s[1..], sep);
    var l := Last(Split(s[1..], sep));
    if |Split(s[1..], sep)| > 1 {
      SplitLastSep(s[1..], sep);
      assert s[1..][|s[1..]| - |l| - 1] == s[|s| - |l| - 1];
    } else {
      SplitLastWhole(s[1..], sep);
    }
  }

  // ---------------------------------------------------------------------
  // Substring search: Python's `t in s`

  predicate OccursAt(s: string, t: string, i: int) {
    0 <= i <= |s| - |t| && s[i..i + |t|] == t
  }

  predicate Contains(s: string, t: string) {
    exists i :: 0 <= i <= |s| - |t| && OccursAt(s, t, i)
  }

  lemma ContainsInfix(p: string, s: string, q: string, t: string)
    requires Contains(s, t)
    ensures Contains(p + s + q, t)
  {
    var i :| 0 <= i <= |s| - |t| && OccursAt(s, t, i);
    var w := p + s + q;
    assert w[|p| + i..|p| + i + |t|] == s[i..i + |t|];
    assert OccursAt(w, t, |p| + i);
  }

  lemma ContainsNeedlePrefix(s: string, t: string, u: string)
    requires Contains(s, t + u)
    ensures Contains(s, t)
  {
    var i :| 0 <= i <= |s| - |t + u| && OccursAt(s, t + u, i);
    assert s[i..i + |t|] == (t + u)[..|t|] == t;
    assert OccursAt(s, t, i);
  }

  lemma ContainsSelf(s: string)
    ensures Contains(s, s)
  {
    assert OccursAt(s, s, 0);
  }

  /** A substring of one element of `xs` is a substring of their join. */
  lemma {:induction false} JoinContains(xs: seq<string>, sep: string, k: nat, t: string)
    requires k < |xs|
    requires Contains(xs[k], t)
    ensures Contains(Join(xs, sep), t)
    decreases |xs|
  {
    if |xs| == 1 {
      assert Join(xs, sep) == xs[0];
    } else {
      var rest := Join(xs[1..], sep);
      if k == 0 {
        ContainsInfix("", xs[0], sep + rest, t);
        assert "" + xs[0] + (sep + rest) == Join(xs, sep);
      } else {
        assert xs[1..][k - 1] == xs[k];
        JoinContains(xs[1..], sep, k - 1, t);
        ContainsInfix(xs[0] + sep, rest, "", t);
        assert xs[0] + sep + rest + "" == Join(xs, sep);
      }
    }
  }

  function LowerAll(xs: seq<string>): (r: seq<string>)
    ensures |r| == |xs| && forall k :: 0 <= k < |xs| ==> r[k] == Lower(xs[k])
  {
    seq(|xs|, k requires 0 <= k < |xs| => Lower(xs[k]))
  }

  /** Lower-casing a join is joining the lower-cased pieces. */
  lemma {:induction false} LowerJoin(xs: seq<string>, sep: string)
    ensures Lower(Join(xs, sep)) == Join(LowerAll(xs), Lower(sep))
    decreases |xs|
  {
    if |xs| > 1 {
      var rest := Join(xs[1..], sep);
      LowerJoin(xs[1..], sep);
      assert LowerAll(xs)[1..] == LowerAll(xs[1..]);
      LowerConcat(xs[0] + sep, rest);
      LowerConcat(xs[0], sep);
    }
  }

  // ---------------------------------------------------------------------
  // Small rewrites

  /** `str.replace(a, b)` for single characters. */
  function Replace(s: string, a: char, b: char): (r: string)
    ensures |r| == |s|
    ensures forall i :: 0 <= i < |s| && s[i] != a ==> r[i] == s[i]
    ensures a != b ==> a !in r
  {
    seq(|s|, i requires 0 <= i < |s| => if s[i] == a then b else s[i])
  }

  /** `s[:n]` for a non-negative `n`. */
  function Prefix(s: string, n: nat): (r: string)
    ensures r == s[..if n <= |s| then n else |s|]
  {
    if n <= |s| then s[..n] else s
  }

  // ---------------------------------------------------------------------
  // Decimal integers: `str(i)` and `int(s)`

  predicate IsDigit(c: char) {
    '0' <= c <= '9'
  }

  function DigitChar(d: nat): (c: char)
    requires d < 10
    ensures IsDigit(c) && c as int - '0' as int == d
  {
    ('0' as int + d) as char
  }

  function NatToString(n: nat): (r: string)
    ensures |r| >= 1
    ensures forall i :: 0 <= i < |r| ==> IsDigit(r[i])
    decreases n
  {
    if n < 10 then [DigitChar(n)] else NatToString(n / 10) + [DigitChar(n % 10)]
  }

  /** `str(i)` for a Python `int`. */
  function IntToString(i: int): (r: string)
    ensures |r| >= 1
  {
    if i < 0 then "-" + NatToString(-i) else NatToString(i)
  }

  /** `str(i)` is made of digits and a leading minus sign only. */
  lemma IntToStringShape(i: int)
    ensures forall k :: 0 <= k < |IntToString(i)| ==> IsDigit(IntToString(i)[k]) || IntToString(i)[k] == '-'
    ensures IsDigit(IntToString(i)[|IntToString(i)| - 1])
  {
    var s := IntToString(i);
    if i < 0 {
      var d := NatToString(-i);
      assert s == "-" + d;
      assert forall k :: 1 <= k < |s| ==> s[k] == d[k - 1];
    }
  }

  /** Lower-casing leaves a string without ASCII capitals unchanged. */
  lemma LowerKeeps(s: string)
    requires forall k :: 0 <= k < |s| ==> !('A' <= s[k] <= 'Z')
    ensures Lower(s) == s
  {
  }

  /** Digits, with single underscores allowed between two digits: the body
      that `int()` accepts in base 10. */
  predicate DigitRun(s: string) {
    && |s| >= 1 && IsDigit(s[0]) && IsDigit(s[|s| - 1])
    && forall i :: 0 <= i < |s| ==> DigitOrJoiner(s, i)
  }

  /** A digit, or an underscore between digits. */
  predicate DigitOrJoiner(s: string, i: nat)
    requires i < |s|
  {
    IsDigit(s[i]) || (s[i] == '_' && 0 < i < |s| - 1 && IsDigit(s[i + 1]))
  }

  /** The value of the digits of `s`, skipping underscores. */
  function DigitsValue(s: string): nat
    decreases |s|
  {
    if s == [] then 0
    else
      var last := s[|s| - 1];
      var rest := DigitsValue(s[..|s| - 1]);
      if IsDigit(last) then rest * 10 + (last as int - '0' as int) else rest
  }

  /** `int(s)` for a string `s`: `None` where Python raises `ValueError`. */
  function ParseInt(s: string): Option<int> {
    ParseLiteral(Strip(s))
  }

  /** An integer literal with no surrounding white space: an optional sign,
      then digits. */
  function ParseLiteral(t: string): Option<int> {
    if t != [] && (t[0] == '+' || t[0] == '-') then
      var body := t[1..];
      var magnitude: int := DigitsValue(body);
      if DigitRun(body) then Some(if t[0] == '-' then -magnitude else magnitude)
      else None
    else if DigitRun(t) then Some(DigitsValue(t))
    else None
  }

  lemma {:induction false} NatToStringValue(n: nat)
    ensures DigitsValue(NatToString(n)) == n
    decreases n
  {
    var s := NatToString(n);
    if n < 10 {
      assert s[..|s| - 1] == [];
    } else {
      NatToStringValue(n / 10);
      assert s[..|s| - 1] == NatToString(n / 10);
    }
  }

  /** `int(str(i)) == i`. */
  lemma ParseIntToString(i: int)
    ensures ParseInt(IntToString(i)) == Some(i)
  {
    var n: nat := if i < 0 then -i else i;
    NatToStringValue(n);
    DigitsRun(NatToString(n));
    if i < 0 {
      ParseNegative(NatToString(n));
    } else {
      ParseUnsigned(NatToString(n));
    }
  }

  /** A run of plain digits is a well-formed literal with no white space at
      its ends. */
  lemma DigitsRun(digits: string)
    requires forall k :: 0 <= k < |digits| ==> IsDigit(digits[k])
    requires |digits| >= 1
    ensures DigitRun(digits)
    ensures !IsSpace(digits[0]) && !IsSpace(digits[|digits| - 1])
  {
  }

  lemma ParseUnsigned(digits: string)
    requires DigitRun(digits) && !IsSpace(digits[0]) && !IsSpace(digits[|digits| - 1])
    ensures ParseInt(digits) == Some(DigitsValue(digits))
  {
    StripKeeps(digits);
    UnsignedLiteral(digits);
  }

  lemma UnsignedLiteral(digits: string)
    requires DigitRun(digits)
    ensures ParseLiteral(digits) == Some(DigitsValue(digits))
  {
    assert digits[0] != '+' && digits[0] != '-';
  }

  lemma ParseNegative(digits: string)
    requires DigitRun(digits) && !IsSpace(digits[|digits| - 1])
    ensures ParseInt("-" + digits) == Some(-(DigitsValue(digits) as int))
  {
    SignedStrip(digits);
    NegativeLiteral(digits);
  }

  lemma SignedStrip(digits: string)
    requires |digits| >= 1 && !IsSpace(digits[|digits| - 1])
    ensures Strip("-" + digits) == "-" + digits
  {
    var s := "-" + digits;
    assert s[0] == '-' && s[|s| - 1] == digits[|digits| - 1];
    StripKeeps(s);
  }

  lemma NegativeLiteral(digits: string)
    requires DigitRun(digits)
    ensures ParseLiteral("-" + digits) == Some(-(DigitsValue(digits) as int))
  {
    var t := "-" + digits;
    assert t[0] == '-' && t[1..] == digits;
  }

  // ---------------------------------------------------------------------
  // Code-point ordering, as Python compares strings

  predicate Less(a: string, b: string)
    decreases |a|
  {
    if a == [] then b != []
    else if b == [] then false
    else if a[0] != b[0] then a[0] < b[0]
    else Less(a[1..], b[1..])
  }

  predicate StrictlySorted(xs: seq<string>) {
    forall i :: 0 <= i < |xs| - 1 ==> Less(xs[i], xs[i + 1])
  }
}
