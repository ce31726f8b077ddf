/**
 * The JavaScript string built-ins the application relies on, over strings
 * as sequences of Dafny characters (Unicode scalar values, where
 * JavaScript counts UTF-16 code units): `String(n)` for a non-negative
 * integer, `trim`, `toLowerCase` (ASCII letters only), `startsWith` and
 * `includes`.
 */
module JsString {

  predicate IsDigit(c: char) {
    '0' <= c <= '9'
  }

  predicate AllDigits(s: string) {
    forall i :: 0 <= i < |s| ==> IsDigit(s[i])
  }

  function DigitChar(d: nat): (c: char)
    requires d < 10
    ensures IsDigit(c) && c as int - '0' as int == d
  {
    (d + '0' as int) as char
  }

  function Pow10(k: nat): nat {
    if k == 0 then 1 else 10 * Pow10(k - 1)
  }

  /** `String(n)` for a non-negative integer: its decimal form without leading zeros. */
  function DecimalString(n: nat): (s: string)
    ensures |s| >= 1 && AllDigits(s)
    ensures n > 0 ==> s[0] != '0'
    ensures n == 0 ==> s == "0"
  {
    if n < 10 then [DigitChar(n)]
    else DecimalString(n / 10) + [DigitChar(n % 10)]
  }

  /** The number that a string of decimal digits denotes. */
  function DecimalValue(s: string): nat
    requires AllDigits(s)
  {
    if s == [] then 0
    else 10 * DecimalValue(s[..|s| - 1]) + (s[|s| - 1] as int - '0' as int)
  }

  /** Reading back the decimal form of `n` gives `n`. */
  lemma {:induction false} DecimalRoundTrip(n: nat)
    ensures DecimalValue(DecimalString(n)) == n
  {
    var s := DecimalString(n);
    if n >= 10 {
      DecimalRoundTrip(n / 10);
      assert s[..|s| - 1] == DecimalString(n / 10);
    }
  }

  /** A number with `k + 1` digits has a decimal form of length `k + 1`. */
  lemma {:induction false} DecimalStringLength(n: nat, k: nat)
    requires Pow10(k) <= n < Pow10(k + 1)
    ensures |DecimalString(n)| == k + 1
  {
    if k > 0 {
      assert Pow10(k) == 10 * Pow10(k - 1);
      assert Pow10(k + 1) == 10 * Pow10(k);
      DecimalStringLength(n / 10, k - 1);
    }
  }

  /**
   * The characters `trim` removes: ECMAScript WhiteSpace (tab, vertical
   * tab, form feed, space, no-break space, the Unicode space separators and
   * the byte order mark) and LineTerminator.
   */
  predicate IsWhitespace(c: char) {
    c == '\t' || c == '\n' || c == '\U{000B}' || c == '\U{000C}' || c == '\r' || c == ' '
    || c == '\U{00A0}' || c == '\U{1680}' || ('\U{2000}' <= c <= '\U{200A}')
    || c == '\U{2028}' || c == '\U{2029}' || c == '\U{202F}' || c == '\U{205F}'
    || c == '\U{3000}' || c == '\U{FEFF}'
  }

  predicate AllWhitespace(s: string) {
    s == [] || (IsWhitespace(s[0]) && AllWhitespace(s[1..]))
  }

  /** Whitespace appended to an all-whitespace string keeps it so. */
  lemma {:induction false} AllWhitespacePush(s: string, c: char)
    requires AllWhitespace(s) && IsWhitespace(c)
    ensures AllWhitespace(s + [c])
  {
    if s != [] {
      assert (s + [c])[1..] == s[1..] + [c];
      AllWhitespacePush(s[1..], c);
    }
  }

  /** `s` with its leading whitespace removed: a suffix of `s`. */
  function TrimStart(s: string): (r: string)
    ensures |r| <= |s| && r == s[|s| - |r|..]
    ensures r == [] || !IsWhitespace(r[0])
    ensures AllWhitespace(s[..|s| - |r|])
  {
    if s != [] && IsWhitespace(s[0]) then
      var r := TrimStart(s[1..]);
      var k := |s| - |r|;
      assert s[..k][0] == s[0];
      assert s[..k][1..] == s[1..][..k - 1];
      r
    else
      assert s[..0] == [];
      s
  }

  /** `s` with its trailing whitespace removed: a prefix of `s`. */
  function TrimEnd(s: string): (r: string)
    ensures |r| <= |s| && r == s[..|r|]
    ensures r == [] || !IsWhitespace(r[|r| - 1])
    ensures AllWhitespace(s[|r|..])
  {
    if s != [] && IsWhitespace(s[|s| - 1]) then
      var r := TrimEnd(s[..|s| - 1]);
      AllWhitespacePush(s[..|s| - 1][|r|..], s[|s| - 1]);
      assert s[..|s| - 1][|r|..] + [s[|s| - 1]] == s[|r|..];
      r
    else
      assert s[|s|..] == [];
      s
  }

  /** `String.prototype.trim`. */
  function Trim(s: string): (r: string)
    ensures r == [] <==> AllWhitespace(s)
  {
    TrimBlankIff(s);
    TrimEnd(TrimStart(s))
  }

  /** Trimming leaves nothing exactly when every character is whitespace. */
  lemma TrimBlankIff(s: string)
    ensures TrimEnd(TrimStart(s)) == [] <==> AllWhitespace(s)
  {
    var t := TrimStart(s);
    var k := |s| - |t|;
    if t == [] {
      assert s[..k] == s;
    } else {
      TrimEndKeepsHead(t);
      assert s[k] == t[0];
      NotAllWhitespace(s, k);
    }
  }

  /** A string with a non-whitespace character is not all whitespace. */
  lemma {:induction false} NotAllWhitespace(s: string, k: nat)
    requires k < |s| && !IsWhitespace(s[k])
    ensures !AllWhitespace(s)
  {
    if k > 0 {
      assert s[1..][k - 1] == s[k];
      NotAllWhitespace(s[1..], k - 1);
    }
  }

  /** `trimEnd` never removes a non-whitespace first character. */
  lemma {:induction false} TrimEndKeepsHead(t: string)
    requires t != [] && !IsWhitespace(t[0])
    ensures TrimEnd(t) != []
    decreases |t|
  {
    if IsWhitespace(t[|t| - 1]) {
      TrimEndKeepsHead(t[..|t| - 1]);
    }
  }

  /** What `trim` leaves neither starts nor ends with whitespace. */
  lemma TrimEdges(s: string)
    ensures var r := Trim(s); r != [] ==> !IsWhitespace(r[0]) && !IsWhitespace(r[|r| - 1])
  {
    var t := TrimStart(s);
    var r := TrimEnd(t);
    if r != [] {
      assert r[0] == t[0];
    }
  }

  /** ASCII part of `toLowerCase`: 'A'..'Z' become 'a'..'z'. */
  function ToLowerChar(c: char): char {
    if 'A' <= c <= 'Z' then (c as int - 'A' as int + 'a' as int) as char else c
  }

  /** `String.prototype.toLowerCase`, over ASCII letters. */
  function ToLower(s: string): (r: string)
    ensures |r| == |s|
    ensures forall i :: 0 <= i < |s| ==> r[i] == ToLowerChar(s[i])
  {
    seq(|s|, i requires 0 <= i < |s| => ToLowerChar(s[i]))
  }

  /** `String.prototype.startsWith`. */
  predicate StartsWith(s: string, prefix: string) {
    |prefix| <= |s| && s[..|prefix|] == prefix
  }

  /** `String.prototype.includes`, searching from the left. */
  predicate Contains(s: string, part: string)
    decreases |s|
  {
    StartsWith(s, part) || (s != [] && Contains(s[1..], part))
  }

  /** `part` occurs in `s` starting at position `i`. */
  predicate OccursAt(s: string, part: string, i: int) {
    0 <= i && i + |part| <= |s| && s[i..i + |part|] == part
  }

  /** `includes` holds exactly when `part` occurs at some position. */
  lemma {:induction false} ContainsAt(s: string, part: string)
    ensures Contains(s, part) <==> exists i :: OccursAt(s, part, i)
    decreases |s|
  {
    if Contains(s, part) {
      if StartsWith(s, part) {
        assert OccursAt(s, part, 0);
      } else {
        ContainsAt(s[1..], part);
        var i :| OccursAt(s[1..], part, i);
        assert s[1..][i..i + |part|] == s[i + 1..i + 1 + |part|];
        assert OccursAt(s, part, i + 1);
      }
    }
    forall i | OccursAt(s, part, i)
      ensures Contains(s, part)
    {
      OccursContains(s, part, i);
    }
  }

  /** An occurrence at position `i` is found by the left-to-right search. */
  lemma {:induction false} OccursContains(s: string, part: string, i: int)
    requires OccursAt(s, part, i)
    ensures Contains(s, part)
    decreases i
  {
    if i == 0 {
      assert s[..|part|] == s[0..|part|];
    } else {
      assert s[1..][i - 1..i - 1 + |part|] == s[i..i + |part|];
      OccursContains(s[1..], part, i - 1);
    }
  }

  /** Every string includes the empty string. */
  lemma ContainsEmpty(s: string)
    ensures Contains(s, "")
  {
    assert StartsWith(s, "");
  }

  /** A string built as `before + part + after` includes `part`. */
  lemma {:induction false} ContainsInfix(before: string, part: string, after: string)
    ensures Contains(before + part + after, part)
  {
    var s := before + part + after;
    if before == [] {
      assert s[..|part|] == part;
    } else {
      ContainsInfix(before[1..], part, after);
      assert s[1..] == before[1..] + part + after;
    }
  }
}
