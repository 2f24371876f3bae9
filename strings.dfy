/** String helpers the frame code relies on: Python's `%d` rendering of an
    integer, and the HTML escaping that Django's `escape` performs (ampersand,
    angle brackets and both quote characters become entities). */
module Strings {

  import opened Wrappers

  // ---------------------------------------------------------------------------
  // Decimal rendering, as `"%d" % n` produces it
  // ---------------------------------------------------------------------------

  predicate IsDigit(c: char) {
    '0' <= c <= '9'
  }

  predicate AllDigits(s: string) {
    forall i :: 0 <= i < |s| ==> IsDigit(s[i])
  }

  function DigitChar(d: nat): (c: char)
    requires d < 10
    ensures IsDigit(c)
  {
    (d + '0' as int) as char
  }

  function DigitValue(c: char): (d: nat)
    requires IsDigit(c)
    ensures d < 10
    ensures DigitChar(d) == c
  {
    c as int - '0' as int
  }

  /** The digits of `n`, most significant first, with no leading zero. */
  function NatToDecimal(n: nat): (s: string)
    ensures |s| > 0 && AllDigits(s)
    ensures n > 0 ==> s[0] != '0'
    ensures |s| > 1 ==> s[0] != '0'
    decreases n
  {
    if n < 10 then [DigitChar(n)] else NatToDecimal(n / 10) + [DigitChar(n % 10)]
  }

  /** Reads a string of digits back as a number (the empty string reads as 0). */
  function DecimalToNat(s: string): nat
    requires AllDigits(s)
    decreases |s|
  {
    if |s| == 0 then 0 else DecimalToNat(s[..|s| - 1]) * 10 + DigitValue(s[|s| - 1])
  }

  lemma {:induction false} DecimalRoundTrip(n: nat)
    ensures DecimalToNat(NatToDecimal(n)) == n
    decreases n
  {
    var s := NatToDecimal(n);
    if n >= 10 {
      DecimalRoundTrip(n / 10);
      assert s[..|s| - 1] == NatToDecimal(n / 10);
      assert DigitValue(s[|s| - 1]) == n % 10;
    }
  }

  /** `"%d" % n`: a minus sign before the digits of a negative number. */
  function IntToDecimal(n: int): (s: string)
    ensures |s| > 0 && (s[0] == '-' <==> n < 0)
    ensures n < 0 ==> |s| > 1 && AllDigits(s[1..]) && s[1] != '0'
    ensures n >= 0 ==> AllDigits(s) && (|s| > 1 ==> s[0] != '0')
  {
    if n < 0 then "-" + NatToDecimal(-n) else NatToDecimal(n)
  }

  /** Reads an optional minus sign followed by digits; None otherwise. Non-canonical
      forms such as "007" or "-0" are read too. */
  function DecimalToInt(s: string): (r: Option<int>)
  {
    if |s| > 0 && s[0] == '-' && |s| > 1 && AllDigits(s[1..]) then Some(0 - DecimalToNat(s[1..]) as int)
    else if |s| > 0 && AllDigits(s) then Some(DecimalToNat(s))
    else None
  }

  lemma IntDecimalRoundTrip(n: int)
    ensures DecimalToInt(IntToDecimal(n)) == Some(n)
  {
    var s := IntToDecimal(n);
    if n < 0 {
      assert s[1..] == NatToDecimal(-n);
      DecimalRoundTrip(-n);
    } else {
      DecimalRoundTrip(n);
      assert !IsDigit('-');
      assert s[0] != '-' by { assert IsDigit(s[0]); }
    }
  }

  // ---------------------------------------------------------------------------
  // HTML escaping
  // ---------------------------------------------------------------------------

  /** The entity Django's `escape` writes for one character. */
  function EscapeChar(c: char): (s: string)
  {
    if c == '&' then "&amp;"
    else if c == '<' then "&lt;"
    else if c == '>' then "&gt;"
    else if c == '"' then "&quot;"
    else if c == '\'' then "&#39;"
    else [c]
  }

  /** No character that HTML markup or an attribute value could start or end on. */
  predicate MarkupFree(s: string) {
    forall i :: 0 <= i < |s| ==> s[i] != '<' && s[i] != '>' && s[i] != '"' && s[i] != '\''
  }

  /** Django's `escape`: every character replaced by its entity. */
  function HtmlEscape(s: string): (r: string)
    ensures MarkupFree(r)
    ensures |r| >= |s|
    decreases |s|
  {
    if s == [] then [] else EscapeChar(s[0]) + HtmlEscape(s[1..])
  }

  predicate StartsWith(t: string, prefix: string) {
    |prefix| <= |t| && t[..|prefix|] == prefix
  }

  /** The character the text starts with once an entity at its head is read,
      and how many characters that took. */
  function UnescapeHead(t: string): (r: (char, nat))
    requires t != []
    ensures 1 <= r.1 <= |t|
  {
    if StartsWith(t, "&amp;") then ('&', 5)
    else if StartsWith(t, "&lt;") then ('<', 4)
    else if StartsWith(t, "&gt;") then ('>', 4)
    else if StartsWith(t, "&quot;") then ('"', 6)
    else if StartsWith(t, "&#39;") then ('\'', 5)
    else (t[0], 1)
  }

  /** Turns the five entities HtmlEscape writes back into their characters. */
  function HtmlUnescape(t: string): string
    decreases |t|
  {
    if t == [] then []
    else
      var head := UnescapeHead(t);
      [head.0] + HtmlUnescape(t[head.1..])
  }

  lemma HeadOfEscaped(c: char, rest: string)
    ensures UnescapeHead(EscapeChar(c) + rest) == (c, |EscapeChar(c)|)
  {
    var t := EscapeChar(c) + rest;
    assert StartsWith(t, EscapeChar(c));
    if c !in "&<>\"'" {
      assert t[0] == c;
    } else if c != '&' {
      assert t[1] == EscapeChar(c)[1];
    }
  }

  /** Unescaping one escaped character followed by anything peels exactly that character. */
  lemma UnescapeStep(c: char, rest: string)
    ensures HtmlUnescape(EscapeChar(c) + rest) == [c] + HtmlUnescape(rest)
  {
    HeadOfEscaped(c, rest);
    assert (EscapeChar(c) + rest)[|EscapeChar(c)|..] == rest;
  }

  /** Escaping loses nothing: the original text is recovered from its escaped form. */
  lemma {:induction false} UnescapeEscape(s: string)
    ensures HtmlUnescape(HtmlEscape(s)) == s
    decreases |s|
  {
    if s != [] {
      UnescapeStep(s[0], HtmlEscape(s[1..]));
      UnescapeEscape(s[1..]);
      assert [s[0]] + s[1..] == s;
    }
  }
}
