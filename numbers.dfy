/**
 * Decimal text for 32-bit integers, as the player uses it for its skip interval:
 * `int.TryParse` with the default `NumberStyles.Integer` (leading and trailing
 * white space, one leading sign, decimal digits, a result that fits in an
 * `Int32`) and `Int32.ToString()`.
 */
module Numbers {
  import opened Wrappers

  const MaxInt32: int := 0x7FFF_FFFF
  const MinInt32: int := -0x8000_0000

  predicate IsDigit(c: char) { '0' <= c <= '9' }

  function DigitValue(c: char): (d: nat)
    requires IsDigit(c)
    ensures d < 10
  {
    c as int - '0' as int
  }

  function DigitChar(d: nat): (c: char)
    requires d < 10
    ensures IsDigit(c) && DigitValue(c) == d
  {
    ('0' as int + d) as char
  }

  predicate AllDigits(s: string) { forall i :: 0 <= i < |s| ==> IsDigit(s[i]) }

  /** The white space `NumberStyles.AllowLeadingWhite` and `AllowTrailingWhite` skip: U+0009 to U+000D and U+0020. */
  predicate IsNumberWhite(c: char) { c == ' ' || '\t' <= c <= '\r' }

  predicate AllWhite(s: string) { forall i :: 0 <= i < |s| ==> IsNumberWhite(s[i]) }

  /** The number a string of decimal digits denotes, most significant digit first. */
  function DigitsValue(s: string): nat
    requires AllDigits(s)
  {
    if s == [] then 0 else DigitsValue(s[..|s| - 1]) * 10 + DigitValue(s[|s| - 1])
  }

  function TrimStart(s: string): (r: string)
    ensures |r| <= |s| && r == s[|s| - |r|..]
    ensures AllWhite(s[..|s| - |r|])
    ensures r == [] || !IsNumberWhite(r[0])
  {
    if s != [] && IsNumberWhite(s[0]) then TrimStart(s[1..]) else s
  }

  function TrimEnd(s: string): (r: string)
    ensures |r| <= |s| && r == s[..|r|]
    ensures AllWhite(s[|r|..])
    ensures r == [] || !IsNumberWhite(r[|r| - 1])
  {
    if s != [] && IsNumberWhite(s[|s| - 1]) then TrimEnd(s[..|s| - 1]) else s
  }

  /** `int.TryParse(s, out n)`: `Some(n)` when it returns true, `None` when it returns false. */
  function TryParseInt32(s: string): (r: Option<int>)
    ensures r.Some? ==> MinInt32 <= r.value <= MaxInt32
  {
    ParseSignedDigits(TrimEnd(TrimStart(s)))
  }

  /** The part of `int.TryParse` after white space is trimmed: an optional sign, then one or more digits. */
  function ParseSignedDigits(t: string): (r: Option<int>)
    ensures r.Some? ==> MinInt32 <= r.value <= MaxInt32
  {
    if t == [] then None
    else
      var body := if t[0] == '-' || t[0] == '+' then t[1..] else t;
      if body == [] || !AllDigits(body) then None
      else
        var magnitude: int := DigitsValue(body);
        var n: int := if t[0] == '-' then -magnitude else magnitude;
        if MinInt32 <= n <= MaxInt32 then Some(n) else None
  }

  /** The decimal digits of a natural number, without leading zeros. */
  function NatToString(n: nat): (s: string)
    ensures s != [] && AllDigits(s)
  {
    if n < 10 then [DigitChar(n)] else NatToString(n / 10) + [DigitChar(n % 10)]
  }

  /** `Int32.ToString()` in a culture whose negative sign is '-'. */
  function Int32ToString(n: int): (s: string)
    requires MinInt32 <= n <= MaxInt32
    ensures s != [] && !IsNumberWhite(s[0]) && !IsNumberWhite(s[|s| - 1])
  {
    if n < 0 then "-" + NatToString(-n) else NatToString(n)
  }

  lemma {:induction false} NatToStringValue(n: nat)
    ensures DigitsValue(NatToString(n)) == n
  {
    var s := NatToString(n);
    if n >= 10 {
      NatToStringValue(n / 10);
      assert s[..|s| - 1] == NatToString(n / 10);
    }
  }

  lemma {:induction false} TrimStartSkipsWhite(w: string, x: string)
    requires AllWhite(w)
    requires x == [] || !IsNumberWhite(x[0])
    ensures TrimStart(w + x) == x
  {
    if w != [] {
      assert (w + x)[1..] == w[1..] + x;
      TrimStartSkipsWhite(w[1..], x);
    } else {
      assert w + x == x;
    }
  }

  lemma {:induction false} TrimEndSkipsWhite(x: string, w: string)
    requires AllWhite(w)
    requires x == [] || !IsNumberWhite(x[|x| - 1])
    ensures TrimEnd(x + w) == x
  {
    if w != [] {
      assert (x + w)[..|x + w| - 1] == x + w[..|w| - 1];
      TrimEndSkipsWhite(x, w[..|w| - 1]);
    } else {
      assert x + w == x;
    }
  }

  /**
   * What `Int32.ToString()` writes, `int.TryParse` reads back, also with white
   * space around it: the skip-interval box round-trips the interval it shows.
   */
  lemma ParseToStringRoundTrip(n: int, before: string, after: string)
    requires MinInt32 <= n <= MaxInt32
    requires AllWhite(before) && AllWhite(after)
    ensures TryParseInt32(before + Int32ToString(n) + after) == Some(n)
  {
    var s := Int32ToString(n);
    TrimStartSkipsWhite(before, s + after);
    assert before + s + after == before + (s + after);
    TrimEndSkipsWhite(s, after);
    assert TrimEnd(TrimStart(before + s + after)) == s;
    SignedDigitsOfToString(n);
  }

  /** The text `Int32.ToString()` writes parses back to the same number. */
  lemma ParseToString(n: int)
    requires MinInt32 <= n <= MaxInt32
    ensures TryParseInt32(Int32ToString(n)) == Some(n)
  {
    ParseToStringRoundTrip(n, "", "");
    assert "" + Int32ToString(n) + "" == Int32ToString(n);
  }

  lemma SignedDigitsOfToString(n: int)
    requires MinInt32 <= n <= MaxInt32
    ensures ParseSignedDigits(Int32ToString(n)) == Some(n)
  {
    var s := Int32ToString(n);
    if n < 0 {
      NatToStringValue(-n);
      assert s[1..] == NatToString(-n);
    } else {
      NatToStringValue(n);
    }
  }

  /** Text without a single decimal digit (the empty box, "abc", "-") never parses. */
  lemma NoDigitsNoNumber(s: string)
    requires forall i :: 0 <= i < |s| ==> !IsDigit(s[i])
    ensures TryParseInt32(s) == None
  {
    var u := TrimStart(s);
    var t := TrimEnd(u);
    if t != [] {
      var k := if t[0] == '-' || t[0] == '+' then 1 else 0;
      if k < |t| {
        assert t[k] == u[k] == s[|s| - |u| + k];
      }
    }
  }
}
