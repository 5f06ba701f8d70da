/** Java `int` text conversion: `Integer.parseInt` (radix 10) and
    `String.valueOf(int)`, over unbounded Dafny integers with the 32-bit
    range written out. */
module Integers {
  import opened Wrappers

  const MinInt32: int := -0x8000_0000
  const MaxInt32: int := 0x7FFF_FFFF

  /** A value of Java's `int`. */
  type Int32 = x: int | MinInt32 <= x <= MaxInt32

  predicate IsDigit(c: char) {
    '0' <= c <= '9'
  }

  function DigitValue(c: char): (d: nat)
    requires IsDigit(c)
    ensures d < 10
  {
    c as int - '0' as int
  }

  function DigitChar(d: nat): (c: char)
    requires d < 10
    ensures IsDigit(c) && DigitValue(c) == d
  {
    ('0' as int + d) as char
  }

  predicate AllDigits(s: string) {
    forall i :: 0 <= i < |s| ==> IsDigit(s[i])
  }

  /** The number a string of decimal digits denotes (leading zeros allowed). */
  function DigitsValue(s: string): nat
    requires AllDigits(s)
    decreases |s|
  {
    if |s| == 0 then 0 else 10 * DigitsValue(s[..|s| - 1]) + DigitValue(s[|s| - 1])
  }

  /** Java's `/` on `int`, which truncates toward zero (Dafny's `/` is
      Euclidean). */
  function TruncDiv(a: int, b: int): (q: int)
    requires b > 0
    ensures a >= 0 ==> q == a / b
    ensures a < 0 ==> q == -((-a) / b)
  {
    if a >= 0 then a / b else -((-a) / b)
  }

  /** `Integer.parseInt(s)` as a definition: an optional `-` or `+`, then at
      least one decimal digit and nothing else, denoting a value in the
      `int` range; anything else is the `NumberFormatException` case. */
  function ParseInt32(s: string): (r: Option<Int32>)
    ensures r.Some? ==> |s| > 0 && (s[0] == '-' || s[0] == '+' || IsDigit(s[0]))
    ensures r.Some? ==> IsDigit(s[|s| - 1])
    ensures r.Some? && s[0] == '-' ==> r.value <= 0
    ensures r.Some? && s[0] != '-' ==> r.value >= 0
  {
    if |s| == 0 then None
    else
      var digits := if s[0] == '-' || s[0] == '+' then s[1..] else s;
      if |digits| == 0 || !AllDigits(digits) then None
      else
        assert digits[|digits| - 1] == s[|s| - 1];
        var v := if s[0] == '-' then -(DigitsValue(digits) as int) else DigitsValue(digits);
        if MinInt32 <= v <= MaxInt32 then Some(v) else None
  }

  /** A leading `+` is accepted (and dropped). */
  lemma ParseIntPlusSign()
    ensures ParseInt32("+42") == Some(42)
  {
    var digits := "+42"[1..];
    assert digits == "42" && digits[..1] == "4";
    assert DigitsValue("4") == 4 by {
      assert "4"[..0] == "";
    }
  }

  /** A digit string is worth at least as much as any of its prefixes. */
  lemma {:induction false} PrefixValueBound(s: string, k: nat)
    requires AllDigits(s) && k <= |s|
    ensures AllDigits(s[..k]) && DigitsValue(s[..k]) <= DigitsValue(s)
    decreases |s| - k
  {
    if k < |s| {
      PrefixValueBound(s[..|s| - 1], k);
      assert s[..|s| - 1][..k] == s[..k];
    } else {
      assert s[..k] == s;
    }
  }

  /** Appending one digit multiplies by ten and adds it. */
  lemma DigitsValueSnoc(s: string, c: char)
    requires AllDigits(s) && IsDigit(c)
    ensures AllDigits(s + [c]) && DigitsValue(s + [c]) == 10 * DigitsValue(s) + DigitValue(c)
  {
    assert (s + [c])[..|s|] == s;
  }

  /** The JDK's `Integer.parseInt` loop: the value is accumulated as a
      negative number against `limit` so that `Integer.MIN_VALUE` is
      reachable, and `multmin` rejects an overflowing multiplication
      before it happens. Every early return is a `NumberFormatException`. */
  method ParseIntJava(s: string) returns (r: Option<Int32>)
    ensures r == ParseInt32(s)
  {
    if |s| == 0 {
      return None;
    }
    var negative := false;
    var limit := -MaxInt32;
    var i := 0;
    var first := s[0];
    if first < '0' {
      if first == '-' {
        negative := true;
        limit := MinInt32;
      } else if first != '+' {
        return None;
      }
      if |s| == 1 {
        return None;
      }
      i := 1;
    }
    var start := i;
    var multmin := TruncDiv(limit, 10);
    var result := 0;
    while i < |s|
      invariant start == (if s[0] == '-' || s[0] == '+' then 1 else 0)
      invariant start < |s|
      invariant negative == (s[0] == '-')
      invariant limit == (if negative then MinInt32 else -MaxInt32)
      invariant start <= i <= |s|
      invariant AllDigits(s[start..i])
      invariant result == -(DigitsValue(s[start..i]) as int)
      invariant limit <= result <= 0
      decreases |s| - i
    {
      var c := s[i];
      if !IsDigit(c) {
        assert !AllDigits(s[start..]) by {
          assert s[start..][i - start] == c;
        }
        return None;
      }
      DigitsValueSnoc(s[start..i], c);
      assert s[start..i + 1] == s[start..i] + [c];
      if result < multmin {
        Overflowed(s, start, i + 1);
        return None;
      }
      var digit := DigitValue(c);
      result := result * 10;
      if result < limit + digit {
        Overflowed(s, start, i + 1);
        return None;
      }
      result := result - digit;
      i := i + 1;
    }
    assert s[start..i] == s[start..];
    r := Some(if negative then result else -result);
  }

  /** Once a digit prefix of the digits exceeds 2147483647 the text cannot
      denote an `int`, unless it is exactly `-2147483648`. */
  lemma Overflowed(s: string, start: nat, j: nat)
    requires start == (if |s| > 0 && (s[0] == '-' || s[0] == '+') then 1 else 0)
    requires start < j <= |s|
    requires AllDigits(s[start..j])
    requires DigitsValue(s[start..j]) > (if s[0] == '-' then -MinInt32 else MaxInt32)
    ensures ParseInt32(s) == None
  {
    var digits := s[start..];
    if AllDigits(digits) {
      PrefixValueBound(digits, j - start);
      assert digits[..j - start] == s[start..j];
    }
  }

  /** `String.valueOf` of a natural number: its decimal digits, no leading
      zero. */
  function NatToString(n: nat): (r: string)
    ensures |r| > 0 && AllDigits(r)
    ensures |r| > 1 ==> r[0] != '0'
  {
    if n < 10 then [DigitChar(n)] else NatToString(n / 10) + [DigitChar(n % 10)]
  }

  /** `String.valueOf(int)`. */
  function IntToString(n: int): (r: string)
    ensures |r| > 0
    ensures r[0] == '-' <==> n < 0
    ensures IsDigit(r[|r| - 1])
  {
    if n < 0 then "-" + NatToString(-n) else NatToString(n)
  }

  lemma {:induction false} NatToStringValue(n: nat)
    ensures DigitsValue(NatToString(n)) == n
  {
    if n >= 10 {
      NatToStringValue(n / 10);
      DigitsValueSnoc(NatToString(n / 10), DigitChar(n % 10));
    }
  }

  /** `Integer.parseInt(String.valueOf(n)) == n` for every `int`. */
  lemma ParseIntToString(n: Int32)
    ensures ParseInt32(IntToString(n)) == Some(n)
  {
    var s := IntToString(n);
    if n < 0 {
      var m: nat := -(n as int);
      var digits := NatToString(m);
      NatToStringValue(m);
      assert s == "-" + digits;
      assert s[1..] == digits;
    } else {
      var digits := NatToString(n);
      NatToStringValue(n);
      assert s == digits;
      assert s[0] != '-' && s[0] != '+';
    }
  }
}
