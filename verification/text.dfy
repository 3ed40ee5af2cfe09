/** Decimal rendering of naturals (how a template literal or `+` renders a
    non-negative integer number below 2^53, which JavaScript prints in plain
    decimal form) and the readers that recover a number from
    a rendered string, from the front or from the back, together with
    literal prefix/suffix stripping. */
module Text {
  import opened Options

  predicate IsDigit(c: char) {
    '0' <= c <= '9'
  }

  predicate AllDigits(s: string) {
    forall i :: 0 <= i < |s| ==> IsDigit(s[i])
  }

  function DigitChar(d: nat): (c: char)
    requires d < 10
    ensures IsDigit(c) && c as int - '0' as int == d
  {
    ('0' as int + d) as char
  }

  function DigitValue(c: char): (d: nat)
    requires IsDigit(c)
    ensures d < 10
  {
    c as int - '0' as int
  }

  /** Shortest decimal rendering: at least one digit, no leading zero. */
  function NatToString(n: nat): (s: string)
    ensures 1 <= |s| && AllDigits(s)
    ensures |s| > 1 ==> s[0] != '0'
    ensures s[0] == '0' ==> n == 0
    decreases n
  {
    if n < 10 then [DigitChar(n)] else NatToString(n / 10) + [DigitChar(n % 10)]
  }

  /** The number a string of digits denotes (most significant digit first). */
  function DigitsValue(s: string): nat
    requires AllDigits(s)
    decreases |s|
  {
    if |s| == 0 then 0 else 10 * DigitsValue(s[..|s| - 1]) + DigitValue(s[|s| - 1])
  }

  lemma {:induction false} DigitsValueOfNatToString(n: nat)
    ensures DigitsValue(NatToString(n)) == n
    decreases n
  {
    if n >= 10 {
      var s := NatToString(n);
      assert s[..|s| - 1] == NatToString(n / 10);
      DigitsValueOfNatToString(n / 10);
    }
  }

  /** Distinct numbers render to distinct strings. */
  lemma NatToStringInjective(a: nat, b: nat)
    ensures NatToString(a) == NatToString(b) ==> a == b
  {
    DigitsValueOfNatToString(a);
    DigitsValueOfNatToString(b);
  }

  /** Length of the longest run of digits at the front of `s`. */
  function DigitRun(s: string): (k: nat)
    ensures k <= |s| && AllDigits(s[..k])
    ensures k < |s| ==> !IsDigit(s[k])
    decreases |s|
  {
    if |s| == 0 || !IsDigit(s[0]) then 0 else 1 + DigitRun(s[1..])
  }

  /** Length of the longest run of digits at the back of `s`. */
  function DigitRunBack(s: string): (k: nat)
    ensures k <= |s| && AllDigits(s[|s| - k..])
    ensures k < |s| ==> !IsDigit(s[|s| - 1 - k])
    decreases |s|
  {
    if |s| == 0 || !IsDigit(s[|s| - 1]) then 0 else 1 + DigitRunBack(s[..|s| - 1])
  }

  /** A numeral as JavaScript prints a non-negative integer: at least one
      digit, and no leading zero unless it is the single digit `0`. */
  predicate IsNumeral(d: string) {
    1 <= |d| && AllDigits(d) && (|d| > 1 ==> d[0] != '0')
  }

  /** A numeral with a nonzero leading digit denotes a positive number. */
  lemma {:induction false} DigitsValuePositive(d: string)
    requires 1 <= |d| && AllDigits(d) && d[0] != '0'
    ensures DigitsValue(d) >= 1
    decreases |d|
  {
    if |d| > 1 {
      DigitsValuePositive(d[..|d| - 1]);
    }
  }

  /** Every numeral is the rendering of the number it denotes, so the
      rendering is the only text a reader accepts for a number. */
  lemma {:induction false} NatToStringOfNumeral(d: string)
    requires IsNumeral(d)
    ensures NatToString(DigitsValue(d)) == d
    decreases |d|
  {
    if |d| > 1 {
      var init := d[..|d| - 1];
      DigitsValuePositive(init);
      NatToStringOfNumeral(init);
      assert d == init + [d[|d| - 1]];
    }
  }

  /** Reads the decimal number at the front of `s`; yields it and what
      follows. A zero-padded numeral such as `020` is refused, since no
      number renders that way. */
  function ReadNat(s: string): (r: Option<(nat, string)>)
    ensures r.None? <==> |s| == 0 || !IsDigit(s[0]) || (s[0] == '0' && 1 < |s| && IsDigit(s[1]))
    ensures r.Some? ==> s == NatToString(r.value.0) + r.value.1
    ensures r.Some? ==> |r.value.1| < |s| && (|r.value.1| == 0 || !IsDigit(r.value.1[0]))
  {
    var k := DigitRun(s);
    if k == 0 || (k > 1 && s[0] == '0') then None
    else
      NatToStringOfNumeral(s[..k]);
      assert s == s[..k] + s[k..];
      Some((DigitsValue(s[..k]), s[k..]))
  }

  /** Reads the decimal number at the back of `s`; yields what precedes it
      and it. As at the front, a zero-padded numeral is refused. */
  function ReadNatBack(s: string): (r: Option<(string, nat)>)
    ensures |s| == 0 || !IsDigit(s[|s| - 1]) ==> r.None?
    ensures r.Some? ==> s == r.value.0 + NatToString(r.value.1)
    ensures r.Some? ==> var pre := r.value.0; |pre| < |s| && (|pre| == 0 || !IsDigit(pre[|pre| - 1]))
  {
    var k := DigitRunBack(s);
    if k == 0 || (k > 1 && s[|s| - k] == '0') then None
    else
      NatToStringOfNumeral(s[|s| - k..]);
      assert s == s[..|s| - k] + s[|s| - k..];
      Some((s[..|s| - k], DigitsValue(s[|s| - k..])))
  }

  lemma {:induction false} DigitRunOfDigits(d: string, rest: string)
    requires AllDigits(d)
    requires |rest| == 0 || !IsDigit(rest[0])
    ensures DigitRun(d + rest) == |d|
    decreases |d|
  {
    if |d| == 0 {
      assert d + rest == rest;
    } else {
      assert (d + rest)[1..] == d[1..] + rest;
      DigitRunOfDigits(d[1..], rest);
    }
  }

  lemma {:induction false} DigitRunBackOfDigits(pre: string, d: string)
    requires AllDigits(d)
    requires |pre| == 0 || !IsDigit(pre[|pre| - 1])
    ensures DigitRunBack(pre + d) == |d|
    decreases |d|
  {
    if |d| == 0 {
      assert pre + d == pre;
    } else {
      assert (pre + d)[..|pre + d| - 1] == pre + d[..|d| - 1];
      DigitRunBackOfDigits(pre, d[..|d| - 1]);
    }
  }

  /** Reading back a rendered number, when a non-digit follows it, recovers
      the number and leaves exactly what followed. */
  lemma ReadNatOfNatToString(n: nat, rest: string)
    requires |rest| == 0 || !IsDigit(rest[0])
    ensures ReadNat(NatToString(n) + rest) == Some((n, rest))
  {
    var d := NatToString(n);
    DigitRunOfDigits(d, rest);
    assert (d + rest)[..|d|] == d;
    assert (d + rest)[|d|..] == rest;
    DigitsValueOfNatToString(n);
  }

  /** Reading a rendered number from the back, when a non-digit precedes it,
      recovers the number and leaves exactly what preceded it. */
  lemma ReadNatBackOfNatToString(pre: string, n: nat)
    requires |pre| == 0 || !IsDigit(pre[|pre| - 1])
    ensures ReadNatBack(pre + NatToString(n)) == Some((pre, n))
  {
    var d := NatToString(n);
    DigitRunBackOfDigits(pre, d);
    assert (pre + d)[..|pre|] == pre;
    assert (pre + d)[|pre|..] == d;
    DigitsValueOfNatToString(n);
  }

  /** The front reader accepts exactly a rendered number followed by text
      that does not start with a digit. */
  lemma ReadNatExactly(s: string, n: nat, rest: string)
    ensures ReadNat(s) == Some((n, rest))
      <==> s == NatToString(n) + rest && (|rest| == 0 || !IsDigit(rest[0]))
  {
    if s == NatToString(n) + rest && (|rest| == 0 || !IsDigit(rest[0])) {
      ReadNatOfNatToString(n, rest);
    }
  }

  /** The back reader accepts exactly text that does not end in a digit,
      followed by a rendered number. */
  lemma ReadNatBackExactly(s: string, pre: string, n: nat)
    ensures ReadNatBack(s) == Some((pre, n))
      <==> s == pre + NatToString(n) && (|pre| == 0 || !IsDigit(pre[|pre| - 1]))
  {
    if s == pre + NatToString(n) && (|pre| == 0 || !IsDigit(pre[|pre| - 1])) {
      ReadNatBackOfNatToString(pre, n);
    }
  }

  /** Removes the literal `p` from the front of `s`. */
  function StripPrefix(s: string, p: string): (r: Option<string>)
    ensures r.Some? <==> p <= s
    ensures r.Some? ==> p + r.value == s
  {
    if p <= s then Some(s[|p|..]) else None
  }

  /** Removes the literal `x` from the back of `s`. */
  function StripSuffix(s: string, x: string): (r: Option<string>)
    ensures r.Some? <==> |x| <= |s| && s[|s| - |x|..] == x
    ensures r.Some? ==> r.value + x == s
  {
    if |x| <= |s| && s[|s| - |x|..] == x then Some(s[..|s| - |x|]) else None
  }

  lemma StripPrefixOfConcat(p: string, rest: string)
    ensures StripPrefix(p + rest, p) == Some(rest)
  {
    assert (p + rest)[|p|..] == rest;
  }

  lemma StripSuffixOfConcat(pre: string, x: string)
    ensures StripSuffix(pre + x, x) == Some(pre)
  {
    assert (pre + x)[|pre|..] == x;
    assert (pre + x)[..|pre|] == pre;
  }

  /** Re-brackets a left-nested concatenation of eight strings to the right. */
  lemma ConcatRebracket(a: string, b: string, c: string, d: string, e: string, f: string, g: string, h: string)
    ensures a + b + c + d + e + f + g + h == a + (b + (c + (d + (e + (f + (g + h))))))
  {
  }

  /** Re-brackets a left-nested concatenation of five strings to the right. */
  lemma ConcatRebracket5(a: string, b: string, c: string, d: string, e: string)
    ensures a + b + c + d + e == a + (b + (c + (d + e)))
  {
  }

  /** Splits the first of seven left-nested concatenated strings off the rest. */
  lemma ConcatDetachHead7(a: string, b: string, c: string, d: string, e: string, f: string, g: string)
    ensures a + b + c + d + e + f + g == a + (b + c + d + e + f + g)
  {
  }
}
