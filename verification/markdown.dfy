/** `escape_md_v2` of app/handlers/meals.py: a backslash goes in front of every character
    of its pattern. The pattern leaves out `_` and `*`, so those two pass unescaped. */
module Markdown {
  import opened Values
  import opened Text

  /** The seventeen characters of the class `[\\\[\]\(\)~`>#+\-=|{}.!]`. */
  predicate IsSpecial(c: char) {
    || c == '\\' || c == '[' || c == ']' || c == '(' || c == ')' || c == '~' || c == '`'
    || c == '>' || c == '#' || c == '+' || c == '-' || c == '=' || c == '|' || c == '{'
    || c == '}' || c == '.' || c == '!'
  }

  /** `re.sub(pattern, r'\\\1', text)`: the output is longer than the input by exactly the
      number of special characters, one backslash each. */
  function EscapeMdV2(s: string): (r: string)
    ensures |r| == |s| + CountSpecial(s)
  {
    if s == [] then []
    else (if IsSpecial(s[0]) then ['\\', s[0]] else [s[0]]) + EscapeMdV2(s[1..])
  }

  /** Number of characters of `s` that the pattern matches. */
  function CountSpecial(s: string): nat {
    if s == [] then 0 else (if IsSpecial(s[0]) then 1 else 0) + CountSpecial(s[1..])
  }

  /** Drops every backslash that stands in front of a special character. */
  function Unescape(t: string): string {
    if |t| >= 2 && t[0] == '\\' && IsSpecial(t[1]) then [t[1]] + Unescape(t[2..])
    else if t == [] then []
    else [t[0]] + Unescape(t[1..])
  }

  /** Escaping works character by character: it distributes over concatenation. */
  lemma {:induction false} EscapeConcat(a: string, b: string)
    ensures EscapeMdV2(a + b) == EscapeMdV2(a) + EscapeMdV2(b)
  {
    if a == [] {
      assert a + b == b;
    } else {
      assert (a + b)[1..] == a[1..] + b;
      EscapeConcat(a[1..], b);
    }
  }

  /** One character: a backslash in front of it exactly when the pattern matches it. */
  lemma EscapeOneChar(c: char)
    ensures EscapeMdV2([c]) == if IsSpecial(c) then ['\\', c] else [c]
  {
  }

  /** Removing the inserted backslashes gives the input back. */
  lemma {:induction false} UnescapeEscape(s: string)
    ensures Unescape(EscapeMdV2(s)) == s
  {
    if s != [] {
      UnescapeEscape(s[1..]);
      var rest := EscapeMdV2(s[1..]);
      if IsSpecial(s[0]) {
        assert EscapeMdV2(s) == ['\\', s[0]] + rest;
        assert (['\\', s[0]] + rest)[2..] == rest;
      } else {
        assert EscapeMdV2(s) == [s[0]] + rest;
        assert s[0] != '\\';
        assert ([s[0]] + rest)[1..] == rest;
      }
    }
  }

  /** A text comes out unchanged exactly when it holds no special character. */
  lemma {:induction false} EscapeIdentityIffNoSpecial(s: string)
    ensures EscapeMdV2(s) == s <==> CountSpecial(s) == 0
  {
    if CountSpecial(s) == 0 && s != [] {
      EscapeIdentityIffNoSpecial(s[1..]);
    }
  }

  /** `_` and `*` are left as they are, although MarkdownV2 reserves them too. */
  lemma UnderscoreAndStarUnescaped()
    ensures EscapeMdV2("a_b*c") == "a_b*c"
  {
    var s := "a_b*c";
    assert s[0] == 'a' && s[1] == '_' && s[2] == 'b' && s[3] == '*' && s[4] == 'c';
    NoSpecialUnchanged(s);
  }

  /** A dot, as in a decimal number, is escaped. */
  lemma DotEscaped()
    ensures EscapeMdV2("1.5") == "1\\.5"
  {
    assert "1.5" == "1" + "." + "5";
    EscapeConcat("1" + ".", "5");
    EscapeConcat("1", ".");
    EscapeOneChar('1');
    EscapeOneChar('.');
    EscapeOneChar('5');
  }

  /** `escape_md_v2(text)` for a value that is not a string: `str(text)` is escaped. */
  function EscapeValue(v: Field): string {
    EscapeMdV2(match v case Str(s) => s case Int(n) => IntToDecimal(n))
  }

  /** A negative number gets its minus sign escaped and its digits kept. */
  lemma EscapeNegativeNumber(n: int)
    requires n < 0
    ensures EscapeValue(Int(n)) == "\\-" + NatToDecimal(-n)
  {
    var d := NatToDecimal(-n);
    EscapeConcat("-", d);
    assert forall i :: 0 <= i < |d| ==> !IsSpecial(d[i]);
    NoSpecialUnchanged(d);
  }

  lemma {:induction false} NoSpecialUnchanged(s: string)
    requires forall i :: 0 <= i < |s| ==> !IsSpecial(s[i])
    ensures EscapeMdV2(s) == s
  {
    if s != [] {
      NoSpecialUnchanged(s[1..]);
    }
  }
}
