/**
 * The two pieces of text formatting the SVG writers rely on: Python's
 * str() of an integer, used by every f-string field that holds a
 * coordinate, a size or an id, and html.escape(s, quote=True), used by
 * the command-line copy for the text of every word.
 */
module Markup {

  predicate IsDigit(c: char) {
    '0' <= c <= '9'
  }

  function DigitChar(d: nat): (c: char)
    requires d < 10
    ensures IsDigit(c)
  {
    (('0' as int) + d) as char
  }

  function DigitValue(c: char): nat
    requires IsDigit(c)
  {
    (c as int) - ('0' as int)
  }

  /** Decimal digits of n, most significant first, without leading zeros. */
  function NatToString(n: nat): (s: string)
    ensures s != []
    decreases n
  {
    if n < 10 then [DigitChar(n)] else NatToString(n / 10) + [DigitChar(n % 10)]
  }

  /** str(i): a minus sign before the digits of a negative number. */
  function IntToString(i: int): (s: string)
    ensures s != []
  {
    if i < 0 then "-" + NatToString(-i) else NatToString(i)
  }

  predicate AllDigits(s: string) {
    forall k :: 0 <= k < |s| ==> IsDigit(s[k])
  }

  /** The value of a string of decimal digits. */
  function ParseNat(s: string): nat
    requires AllDigits(s)
  {
    if s == [] then 0 else ParseNat(s[..|s| - 1]) * 10 + DigitValue(s[|s| - 1])
  }

  /** int(s) for what str() of an integer produces. */
  function ParseInt(s: string): int
    requires s != [] ==> (if s[0] == '-' then AllDigits(s[1..]) else AllDigits(s))
  {
    if s != [] && s[0] == '-' then -(ParseNat(s[1..]) as int) else ParseNat(s)
  }

  /** The digits of n are decimal digits, and the first is 0 only for n == 0. */
  lemma {:induction false} NatToStringDigits(n: nat)
    ensures AllDigits(NatToString(n))
    ensures NatToString(n)[0] == '0' <==> n == 0
    decreases n
  {
    if n >= 10 {
      NatToStringDigits(n / 10);
    }
  }

  lemma {:induction false} ParseNatToString(n: nat)
    ensures AllDigits(NatToString(n))
    ensures ParseNat(NatToString(n)) == n
    decreases n
  {
    NatToStringDigits(n);
    if n >= 10 {
      var s := NatToString(n);
      ParseNatToString(n / 10);
      assert s[..|s| - 1] == NatToString(n / 10);
    }
  }

  /** int(str(i)) == i: the decimal form of an integer determines it. */
  lemma IntToStringRoundTrip(i: int)
    ensures var s := IntToString(i);
      (s != [] ==> (if s[0] == '-' then AllDigits(s[1..]) else AllDigits(s)))
      && ParseInt(s) == i
  {
    if i < 0 {
      ParseNatToString(-i);
      assert IntToString(i)[1..] == NatToString(-i);
    } else {
      ParseNatToString(i);
      NatToStringDigits(i);
      assert IsDigit(IntToString(i)[0]);
    }
  }

  /** Different integers print differently. */
  lemma IntToStringInjective(i: int, j: int)
    requires IntToString(i) == IntToString(j)
    ensures i == j
  {
    IntToStringRoundTrip(i);
    IntToStringRoundTrip(j);
  }

  // ---------------------------------------------------------------------
  // html.escape(s, quote=True)

  /** The replacement of one character: & < > " ' become entities. */
  function EscapeChar(c: char): (r: string)
    ensures r != []
  {
    if c == '&' then "&amp;"
    else if c == '<' then "&lt;"
    else if c == '>' then "&gt;"
    else if c == '"' then "&quot;"
    else if c == '\'' then "&#x27;"
    else [c]
  }

  /** html.escape(s, quote=True): every character replaced by EscapeChar. */
  function HtmlEscape(s: string): (r: string)
    ensures |r| >= |s|
  {
    if s == [] then [] else EscapeChar(s[0]) + HtmlEscape(s[1..])
  }

  /** A character that would end an attribute or open a tag. */
  predicate Special(c: char) {
    c == '<' || c == '>' || c == '"' || c == '\''
  }

  predicate StartsWith(s: string, p: string) {
    |p| <= |s| && s[..|p|] == p
  }

  /** The inverse of HtmlEscape: the five entities become characters again. */
  function Unescape(s: string): string
    decreases |s|
  {
    if s == [] then []
    else if StartsWith(s, "&amp;") then "&" + Unescape(s[5..])
    else if StartsWith(s, "&lt;") then "<" + Unescape(s[4..])
    else if StartsWith(s, "&gt;") then ">" + Unescape(s[4..])
    else if StartsWith(s, "&quot;") then "\"" + Unescape(s[6..])
    else if StartsWith(s, "&#x27;") then "'" + Unescape(s[6..])
    else [s[0]] + Unescape(s[1..])
  }

  lemma PrefixOf(p: string, t: string)
    ensures StartsWith(p + t, p) && (p + t)[|p|..] == t
  {
    assert (p + t)[..|p|] == p;
  }

  lemma NotPrefix(s: string, p: string)
    requires s != [] && p != [] && s[0] != p[0]
    ensures !StartsWith(s, p)
  {
    if |p| <= |s| {
      assert s[..|p|][0] != p[0];
    }
  }

  lemma NotPrefixAt(s: string, p: string, k: nat)
    requires k < |s| && k < |p| && s[k] != p[k]
    ensures !StartsWith(s, p)
  {
    if |p| <= |s| {
      assert s[..|p|][k] != p[k];
    }
  }

  /** Unescaping the replacement of c and then t gives c and the unescaping of t. */
  lemma UnescapeChar(c: char, t: string)
    ensures Unescape(EscapeChar(c) + t) == [c] + Unescape(t)
  {
    var e := EscapeChar(c);
    var s := e + t;
    PrefixOf(e, t);
    if c == '&' {
    } else if c == '<' {
      NotPrefixAt(s, "&amp;", 1);
    } else if c == '>' {
      NotPrefixAt(s, "&amp;", 1);
      NotPrefixAt(s, "&lt;", 1);
    } else if c == '"' {
      NotPrefixAt(s, "&amp;", 1);
      NotPrefixAt(s, "&lt;", 1);
      NotPrefixAt(s, "&gt;", 1);
    } else if c == '\'' {
      NotPrefixAt(s, "&amp;", 1);
      NotPrefixAt(s, "&lt;", 1);
      NotPrefixAt(s, "&gt;", 1);
      NotPrefixAt(s, "&quot;", 1);
    } else {
      assert s[0] == c;
      NotPrefix(s, "&");
      NotPrefixAt(s, "&amp;", 0);
      NotPrefixAt(s, "&lt;", 0);
      NotPrefixAt(s, "&gt;", 0);
      NotPrefixAt(s, "&quot;", 0);
      NotPrefixAt(s, "&#x27;", 0);
      assert s[1..] == t;
    }
  }

  /** Escaping loses nothing: unescaping the escaped text gives the text back. */
  lemma {:induction false} UnescapeEscape(s: string)
    ensures Unescape(HtmlEscape(s)) == s
  {
    if s != [] {
      UnescapeEscape(s[1..]);
      UnescapeChar(s[0], HtmlEscape(s[1..]));
      assert [s[0]] + s[1..] == s;
    }
  }

  /** The escaped text can stand inside a quoted attribute or an element: it has no < > " '. */
  lemma {:induction false} EscapeNoSpecial(s: string)
    ensures forall k :: 0 <= k < |HtmlEscape(s)| ==> !Special(HtmlEscape(s)[k])
  {
    if s != [] {
      EscapeNoSpecial(s[1..]);
      var e, r := EscapeChar(s[0]), HtmlEscape(s[1..]);
      assert forall k :: 0 <= k < |e| ==> !Special(e[k]);
      forall k | 0 <= k < |e + r| ensures !Special((e + r)[k]) {
        if k >= |e| {
          assert (e + r)[k] == r[k - |e|];
        }
      }
    }
  }

  /** A text without the five characters is left as it is. */
  lemma {:induction false} EscapePlain(s: string)
    requires forall k :: 0 <= k < |s| ==> !Special(s[k]) && s[k] != '&'
    ensures HtmlEscape(s) == s
  {
    if s != [] {
      EscapePlain(s[1..]);
      assert [s[0]] + s[1..] == s;
    }
  }
}
