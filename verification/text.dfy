/** The Python string operations the handlers rely on: `str.strip`, `str.lower`,
    the `in` substring test, `str.split` on one character, `str.join`, `int(str)` and
    `str(int)`. */
module Text {
  import opened Values

  /** Python's `str.isspace` for one character. */
  predicate IsSpace(c: char) {
    || c == ' '
    || ('\t' <= c <= '\r')
    || ('\U{1C}' <= c <= '\U{1F}')
    || c == '\U{85}' || c == '\U{A0}' || c == '\U{1680}'
    || ('\U{2000}' <= c <= '\U{200A}')
    || c == '\U{2028}' || c == '\U{2029}' || c == '\U{202F}' || c == '\U{205F}' || c == '\U{3000}'
  }

  /** `s.lstrip()`: drops the white space at the front. */
  function LStrip(s: string): string {
    if s != [] && IsSpace(s[0]) then LStrip(s[1..]) else s
  }

  /** `s.rstrip()`: drops the white space at the back. */
  function RStrip(s: string): string {
    if s != [] && IsSpace(s[|s| - 1]) then RStrip(s[..|s| - 1]) else s
  }

  /** `s.strip()`: no white space is left at either end. */
  function Strip(s: string): (r: string)
    ensures |r| <= |s|
    ensures r == [] || (!IsSpace(r[0]) && !IsSpace(r[|r| - 1]))
  {
    LStripIsLongestSuffix(s);
    RStripIsLongestPrefix(LStrip(s));
    RStrip(LStrip(s))
  }

  /** `s.lstrip()` is the longest suffix of `s` that does not start with white space. */
  lemma {:induction false} LStripIsLongestSuffix(s: string)
    ensures var r := LStrip(s);
      && |r| <= |s| && r == s[|s| - |r|..]
      && (r == [] || !IsSpace(r[0]))
      && forall k :: 0 <= k < |s| - |r| ==> IsSpace(s[k])
  {
    if s != [] && IsSpace(s[0]) {
      var t := s[1..];
      LStripIsLongestSuffix(t);
      var r := LStrip(t);
      assert LStrip(s) == r;
      assert t[|t| - |r|..] == s[|s| - |r|..];
      forall k | 0 <= k < |s| - |r|
        ensures IsSpace(s[k])
      {
        if k > 0 {
          assert s[k] == t[k - 1];
        }
      }
    }
  }

  /** `s.rstrip()` is the longest prefix of `s` that does not end with white space. */
  lemma {:induction false} RStripIsLongestPrefix(s: string)
    ensures var r := RStrip(s);
      && |r| <= |s| && r == s[..|r|]
      && (r == [] || !IsSpace(r[|r| - 1]))
      && forall k :: |r| <= k < |s| ==> IsSpace(s[k])
  {
    if s != [] && IsSpace(s[|s| - 1]) {
      RStripIsLongestPrefix(s[..|s| - 1]);
    }
  }

  /** `s.strip()` is a slice of `s`, and everything cut off on either side is white space. */
  lemma StripIsSlice(s: string)
    ensures var r := Strip(s); var a := |s| - |LStrip(s)|;
      && 0 <= a && a + |r| <= |s| && r == s[a..a + |r|]
      && (forall k :: 0 <= k < a ==> IsSpace(s[k]))
      && (forall k :: a + |r| <= k < |s| ==> IsSpace(s[k]))
  {
    var l := LStrip(s);
    LStripIsLongestSuffix(s);
    RStripIsLongestPrefix(l);
    var r := Strip(s);
    var a := |s| - |l|;
    assert r == l[..|r|];
    assert l == s[a..];
    assert r == s[a..a + |r|];
    forall k | a + |r| <= k < |s|
      ensures IsSpace(s[k])
    {
      assert s[k] == l[k - a];
    }
  }

  /** A text that neither starts nor ends with white space is its own strip. */
  lemma StripNoSpace(s: string)
    requires s == [] || (!IsSpace(s[0]) && !IsSpace(s[|s| - 1]))
    ensures Strip(s) == s
  {
  }

  /** `str.lower` for one character: ASCII and the Cyrillic block U+0400..U+042F. */
  function LowerChar(c: char): char {
    if 'A' <= c <= 'Z' then (c as int + 32) as char
    else if '\U{410}' <= c <= '\U{42F}' then (c as int + 32) as char
    else if '\U{400}' <= c <= '\U{40F}' then (c as int + 80) as char
    else c
  }

  /** `s.lower()`: every character lowered, the length kept. */
  function Lower(s: string): (r: string)
    ensures |r| == |s|
    ensures forall i :: 0 <= i < |s| ==> r[i] == LowerChar(s[i])
  {
    if s == [] then [] else [LowerChar(s[0])] + Lower(s[1..])
  }

  predicate StartsWith(s: string, prefix: string) {
    |prefix| <= |s| && s[..|prefix|] == prefix
  }

  /** `sub` occurs in `s` at position `i`. */
  predicate OccursAt(s: string, sub: string, i: int) {
    0 <= i && i + |sub| <= |s| && s[i..i + |sub|] == sub
  }

  /** Python's `sub in s`: `sub` occurs at some position of `s`. */
  function Contains(s: string, sub: string): (r: bool)
    ensures r <==> exists i :: OccursAt(s, sub, i)
    decreases |s|
  {
    if StartsWith(s, sub) then
      assert OccursAt(s, sub, 0);
      true
    else if s == [] then
      assert forall i :: !OccursAt(s, sub, i);
      false
    else
      var rest := Contains(s[1..], sub);
      assert rest ==> exists i :: OccursAt(s, sub, i) by {
        if rest {
          var j :| OccursAt(s[1..], sub, j);
          assert s[j + 1..j + 1 + |sub|] == s[1..][j..j + |sub|];
          assert OccursAt(s, sub, j + 1);
        }
      }
      assert (exists i :: OccursAt(s, sub, i)) ==> rest by {
        if exists i :: OccursAt(s, sub, i) {
          var i :| OccursAt(s, sub, i);
          assert i != 0;
          assert s[1..][i - 1..i - 1 + |sub|] == s[i..i + |sub|];
          assert OccursAt(s[1..], sub, i - 1);
        }
      }
      rest
  }

  /** Number of occurrences of `c` in `s`. */
  function Count(s: string, c: char): nat {
    multiset(s)[c]
  }

  /** The first position of `c` in `s`. */
  function IndexOf(s: string, c: char): (r: nat)
    requires c in s
    ensures r < |s| && s[r] == c && c !in s[..r]
  {
    if s[0] == c then 0 else 1 + IndexOf(s[1..], c)
  }

  predicate EndsWith(s: string, suffix: string) {
    |suffix| <= |s| && s[|s| - |suffix|..] == suffix
  }

  /** `sep.join(parts)`: the text starts with the first piece and ends with the last. */
  function Join(sep: string, parts: seq<string>): (r: string)
    ensures |parts| > 0 ==> StartsWith(r, parts[0]) && EndsWith(r, parts[|parts| - 1])
  {
    if |parts| == 0 then ""
    else if |parts| == 1 then parts[0]
    else
      var rest := Join(sep, parts[1..]);
      assert (parts[0] + sep + rest)[..|parts[0]|] == parts[0];
      assert (parts[0] + sep + rest)[|parts[0] + sep|..] == rest;
      parts[0] + sep + rest
  }

  /** `s.split(sep)` for a one-character separator: at least one piece, and no piece holds
      the separator. */
  function Split(s: string, sep: char): (r: seq<string>)
    ensures |r| > 0
    ensures forall i :: 0 <= i < |r| ==> sep !in r[i]
    decreases |s|
  {
    if sep !in s then [s]
    else
      var i := IndexOf(s, sep);
      [s[..i]] + Split(s[i + 1..], sep)
  }

  /** `s.split(sep)` has one more piece than `s` has separators. */
  lemma {:induction false} SplitLength(s: string, sep: char)
    ensures |Split(s, sep)| == Count(s, sep) + 1
    decreases |s|
  {
    if sep in s {
      var i := IndexOf(s, sep);
      SplitLength(s[i + 1..], sep);
      assert s == s[..i] + [s[i]] + s[i + 1..];
      assert multiset(s) == multiset(s[..i]) + multiset([s[i]]) + multiset(s[i + 1..]);
    }
  }

  /** Joining the pieces with the separator gives `s` back. */
  lemma {:induction false} SplitJoin(s: string, sep: char)
    ensures Join([sep], Split(s, sep)) == s
    decreases |s|
  {
    if sep in s {
      var i := IndexOf(s, sep);
      SplitJoin(s[i + 1..], sep);
      JoinCons([sep], s[..i], Split(s[i + 1..], sep));
      assert s == s[..i] + [sep] + s[i + 1..];
    }
  }

  lemma JoinCons(sep: string, x: string, rest: seq<string>)
    requires |rest| > 0
    ensures Join(sep, [x] + rest) == x + sep + Join(sep, rest)
  {
    assert ([x] + rest)[1..] == rest;
  }

  predicate IsDigit(c: char) {
    '0' <= c <= '9'
  }

  /** Splitting at the first separator. */
  lemma SplitAtFirst(x: string, rest: string, sep: char)
    requires sep !in x
    ensures Split(x + [sep] + rest, sep) == [x] + Split(rest, sep)
  {
    var s := x + [sep] + rest;
    assert s[|x|] == sep;
    var i := IndexOf(s, sep);
    assert i == |x|;
    assert s[..i] == x;
    assert s[i + 1..] == rest;
  }

  /** Joining pieces that hold no separator and splitting again gives the pieces back. */
  lemma {:induction false} SplitOfJoin(parts: seq<string>, sep: char)
    requires |parts| > 0
    requires forall i :: 0 <= i < |parts| ==> sep !in parts[i]
    ensures Split(Join([sep], parts), sep) == parts
    decreases |parts|
  {
    if |parts| == 1 {
      assert Split(parts[0], sep) == [parts[0]];
    } else {
      SplitOfJoin(parts[1..], sep);
      SplitAtFirst(parts[0], Join([sep], parts[1..]), sep);
      assert parts == [parts[0]] + parts[1..];
    }
  }

  /** The digit part that Python's `int(str)` accepts in base 10: ASCII digits, with single
      underscores allowed between two digits. */
  predicate IsDigitString(s: string) {
    && |s| > 0
    && IsDigit(s[0])
    && IsDigit(s[|s| - 1])
    && (forall i :: 0 <= i < |s| ==> IsDigit(s[i]) || s[i] == '_')
    && !Contains(s, "__")
  }

  /** The value of a digit string, underscores skipped. */
  function DigitsValue(s: string): nat
    requires forall i :: 0 <= i < |s| ==> IsDigit(s[i]) || s[i] == '_'
  {
    if s == [] then 0
    else if s[|s| - 1] == '_' then DigitsValue(s[..|s| - 1])
    else
      assert IsDigit(s[|s| - 1]);
      DigitsValue(s[..|s| - 1]) * 10 + (s[|s| - 1] as int - '0' as int)
  }

  /** `int(s)`: surrounding white space is ignored, an optional sign, then digits; `None`
      stands for the ValueError, which every text without a digit raises. */
  function ParseInt(s: string): (r: Option<int>)
    ensures r.Some? ==> exists i :: 0 <= i < |s| && IsDigit(s[i])
  {
    var t := Strip(s);
    StripIsSlice(s);
    var a := |s| - |LStrip(s)|;
    if |t| > 0 && (t[0] == '+' || t[0] == '-') then
      if IsDigitString(t[1..]) then
        assert IsDigit(s[a + 1]) by { assert t[1..][0] == t[1] == s[a + 1]; }
        var v: int := DigitsValue(t[1..]);
        Some(if t[0] == '-' then -v else v)
      else None
    else if IsDigitString(t) then
      assert IsDigit(s[a]) by { assert t[0] == s[a]; }
      Some(DigitsValue(t) as int)
    else None
  }

  /** The part of `float(s)` that `int(...)` keeps, for a text without exponent: digits with
      an optional decimal point (`"12"`, `"12."`, `"12.5"`, `".5"`); the integer part is
      the value. */
  function Mantissa(m: string): (r: Option<nat>)
    ensures r.Some? ==> exists i :: 0 <= i < |m| && IsDigit(m[i])
  {
    if '.' !in m then
      if IsDigitString(m) then Some(DigitsValue(m)) else None
    else
      var i := IndexOf(m, '.');
      var whole, frac := m[..i], m[i + 1..];
      if IsDigitString(whole) && (frac == [] || IsDigitString(frac)) then
        assert m[0] == whole[0];
        Some(DigitsValue(whole))
      else if whole == [] && IsDigitString(frac) then
        assert m[i + 1] == frac[0];
        Some(0)
      else None
  }

  /** `int(float(s))` for a text: surrounding white space and a sign as for `int`, then a
      mantissa; dropping the fraction truncates toward zero. `None` stands for the
      ValueError, which every text without a digit raises. */
  function TruncOfFloatText(s: string): (r: Option<int>)
    ensures r.Some? ==> exists i :: 0 <= i < |s| && IsDigit(s[i])
  {
    var t := Strip(s);
    StripIsSlice(s);
    var a := |s| - |LStrip(s)|;
    var signed := |t| > 0 && (t[0] == '+' || t[0] == '-');
    var body := if signed then t[1..] else t;
    var start := if signed then a + 1 else a;
    assert (exists k :: 0 <= k < |body| && IsDigit(body[k])) ==> exists i :: 0 <= i < |s| && IsDigit(s[i]) by {
      if exists k :: 0 <= k < |body| && IsDigit(body[k]) {
        var k :| 0 <= k < |body| && IsDigit(body[k]);
        assert body[k] == s[start + k];
      }
    }
    match Mantissa(body)
    case None => None
    case Some(v) =>
      var n: int := v;
      Some(if signed && t[0] == '-' then -n else n)
  }

  /** A text `int` accepts gives the same number through `int(float(...))`. */
  lemma TruncOfIntegerText(s: string)
    requires ParseInt(s).Some?
    ensures TruncOfFloatText(s) == ParseInt(s)
  {
    var t := Strip(s);
    var body := if |t| > 0 && (t[0] == '+' || t[0] == '-') then t[1..] else t;
    assert IsDigitString(body);
    assert '.' !in body by {
      forall k | 0 <= k < |body|
        ensures body[k] != '.'
      {
        assert IsDigit(body[k]) || body[k] == '_';
      }
    }
  }

  /** A decimal fraction is cut off: `int(float(str(n) + "." + frac)) == n`, for negative
      `n` too, so the value is truncated toward zero. */
  lemma TruncOfDecimalText(n: int, frac: string)
    requires IsDigitString(frac)
    ensures TruncOfFloatText(IntToDecimal(n) + "." + frac) == Some(n)
  {
    var v: nat := if n < 0 then -n else n;
    var m := NatToDecimal(v) + "." + frac;
    assert Mantissa(m) == Some(v) && !IsSpace(m[|m| - 1]) by {
      PointNumeral(v, frac);
    }
    if n < 0 {
      assert IntToDecimal(n) + "." + frac == "-" + m;
      TruncOfSigned(m);
    } else {
      assert IntToDecimal(n) + "." + frac == m;
      assert IsDigit(m[0]) by { assert m[0] == NatToDecimal(v)[0]; }
      TruncOfUnsigned(m);
    }
  }

  /** `str(v) + "." + frac` is a mantissa whose integer part is `v`. */
  lemma PointNumeral(v: nat, frac: string)
    requires IsDigitString(frac)
    ensures var m := NatToDecimal(v) + "." + frac;
      Mantissa(m) == Some(v) && !IsSpace(m[|m| - 1])
  {
    var d := NatToDecimal(v);
    var m := d + "." + frac;
    DecimalIsDigitString(v);
    DigitsValueOfDecimal(v);
    MantissaOfPoint(d, frac);
    assert m[|m| - 1] == frac[|frac| - 1];
  }

  lemma TruncOfUnsigned(m: string)
    requires |m| > 0 && IsDigit(m[0]) && !IsSpace(m[|m| - 1])
    ensures TruncOfFloatText(m) == match Mantissa(m) case None => None case Some(v) => Some(v as int)
  {
    StripNoSpace(m);
  }

  lemma TruncOfSigned(m: string)
    requires |m| > 0 && !IsSpace(m[|m| - 1])
    ensures TruncOfFloatText("-" + m) == match Mantissa(m) case None => None case Some(v) => Some(-(v as int))
  {
    var s := "-" + m;
    assert s[|s| - 1] == m[|m| - 1];
    StripNoSpace(s);
    assert s[1..] == m;
  }

  lemma MantissaOfPoint(whole: string, frac: string)
    requires IsDigitString(whole) && IsDigitString(frac)
    ensures Mantissa(whole + "." + frac) == Some(DigitsValue(whole))
  {
    var m := whole + "." + frac;
    assert '.' !in whole by {
      forall k | 0 <= k < |whole|
        ensures whole[k] != '.'
      {
        assert IsDigit(whole[k]) || whole[k] == '_';
      }
    }
    assert m[|whole|] == '.';
    var i := IndexOf(m, '.');
    assert m[..i] == whole[..i] || i > |whole|;
    assert i == |whole|;
    assert m[..i] == whole && m[i + 1..] == frac;
  }


  function DigitChar(d: int): char
    requires 0 <= d < 10
  {
    ('0' as int + d) as char
  }

  /** `str(n)` for a natural number. */
  function NatToDecimal(n: nat): (r: string)
    ensures |r| > 0
    ensures forall i :: 0 <= i < |r| ==> IsDigit(r[i])
  {
    if n < 10 then [DigitChar(n)] else NatToDecimal(n / 10) + [DigitChar(n % 10)]
  }

  /** `str(n)` for an integer. */
  function IntToDecimal(n: int): string {
    if n < 0 then "-" + NatToDecimal(-n) else NatToDecimal(n)
  }

  lemma {:induction false} DigitsValueOfDecimal(n: nat)
    ensures DigitsValue(NatToDecimal(n)) == n
  {
    if n >= 10 {
      DigitsValueOfDecimal(n / 10);
      var s := NatToDecimal(n);
      assert s[..|s| - 1] == NatToDecimal(n / 10);
    }
  }

  /** A decimal numeral passes the digit check of `int(str)`. */
  lemma DecimalIsDigitString(n: nat)
    ensures IsDigitString(NatToDecimal(n))
  {
  }

  lemma ParseIntOfNatDecimal(m: nat)
    ensures ParseInt(NatToDecimal(m)) == Some(m)
  {
    var d := NatToDecimal(m);
    DigitsValueOfDecimal(m);
    DecimalIsDigitString(m);
    StripNoSpace(d);
  }

  lemma ParseIntOfNegativeDecimal(m: int)
    requires m > 0
    ensures ParseInt("-" + NatToDecimal(m)) == Some(-m)
  {
    var d := NatToDecimal(m);
    var s := "-" + d;
    DigitsValueOfDecimal(m);
    DecimalIsDigitString(m);
    assert s[1..] == d && s[|s| - 1] == d[|d| - 1];
    StripNoSpace(s);
  }

  /** `int(str(n)) == n`. */
  lemma ParseIntOfDecimal(n: int)
    ensures ParseInt(IntToDecimal(n)) == Some(n)
  {
    if n < 0 {
      assert IntToDecimal(n) == "-" + NatToDecimal(-n);
      ParseIntOfNegativeDecimal(-n);
    } else {
      assert IntToDecimal(n) == NatToDecimal(n);
      ParseIntOfNatDecimal(n);
    }
  }
}
