/** The JavaScript string operations the life clock relies on, with their
    clamping rules written out: `repeat`, `padStart`, `padEnd`,
    `substring`, `slice`, `String(n)` and `toUpperCase` on ASCII. */
module JsText {

  datatype Option<+T> = None | Some(value: T)

  /** `c.repeat(n)`. */
  function Repeat(c: char, n: nat): (r: string)
    ensures |r| == n
    ensures forall i :: 0 <= i < n ==> r[i] == c
  {
    seq(n, _ => c)
  }

  /** `s.padStart(n, c)` for a one-character filler. */
  function PadStart(s: string, n: int, c: char): (r: string)
    ensures |r| == if |s| >= n then |s| else n
  {
    if |s| >= n then s else Repeat(c, n - |s|) + s
  }

  /** The filler comes first, then the text itself. */
  lemma PadStartShape(s: string, n: int, c: char)
    ensures var r := PadStart(s, n, c);
      && r[|r| - |s|..] == s
      && forall i :: 0 <= i < |r| - |s| ==> r[i] == c
  {
  }

  /** `s.padEnd(n, c)` for a one-character filler. */
  function PadEnd(s: string, n: int, c: char): (r: string)
    ensures |r| == if |s| >= n then |s| else n
  {
    if |s| >= n then s else s + Repeat(c, n - |s|)
  }

  /** The text comes first, then the filler. */
  lemma PadEndShape(s: string, n: int, c: char)
    ensures var r := PadEnd(s, n, c);
      && r[..|s|] == s
      && forall i :: |s| <= i < |r| ==> r[i] == c
  {
  }

  function Clamp(i: int, lo: int, hi: int): (r: int)
    requires lo <= hi
    ensures lo <= r <= hi
    ensures lo <= i <= hi ==> r == i
  {
    if i < lo then lo else if i > hi then hi else i
  }

  /** `s.substring(a, b)`: both ends clamped to the string, then swapped
      when the first exceeds the second. */
  function Substring(s: string, a: int, b: int): (r: string)
    ensures 0 <= a <= b <= |s| ==> r == s[a..b]
    ensures |r| <= |s|
  {
    var lo := Clamp(a, 0, |s|);
    var hi := Clamp(b, 0, |s|);
    if lo <= hi then s[lo..hi] else s[hi..lo]
  }

  /** `s.substring(a)`. */
  function SubstringFrom(s: string, a: int): (r: string)
    ensures 0 <= a <= |s| ==> r == s[a..]
    ensures a >= |s| ==> r == ""
    ensures a <= 0 ==> r == s
  {
    Substring(s, a, |s|)
  }

  /** `s.slice(1)`. */
  function DropFirst(s: string): (r: string)
    ensures |s| > 0 ==> r == s[1..]
    ensures |s| == 0 ==> r == ""
  {
    if |s| == 0 then "" else s[1..]
  }

  /** `s.slice(0, -1)`. */
  function DropLast(s: string): (r: string)
    ensures |s| > 0 ==> r == s[..|s| - 1]
    ensures |s| == 0 ==> r == ""
  {
    if |s| == 0 then "" else s[..|s| - 1]
  }

  /** `s.slice(0, n)` for n >= 0. */
  function Take(s: string, n: nat): (r: string)
    ensures |r| == if n <= |s| then n else |s|
    ensures r == s[..|r|]
  {
    if n <= |s| then s[..n] else s
  }

  function DigitChar(d: int): (c: char)
    requires 0 <= d < 10
    ensures '0' <= c <= '9'
  {
    ['0', '1', '2', '3', '4', '5', '6', '7', '8', '9'][d]
  }

  predicate IsDigit(c: char) {
    '0' <= c <= '9'
  }

  function DigitValue(c: char): (d: int)
    requires IsDigit(c)
    ensures 0 <= d < 10
  {
    c as int - '0' as int
  }

  /** Decimal text of a natural number, as `String(n)`. */
  function NatToString(n: nat): (r: string)
    ensures 1 <= |r|
    ensures forall i :: 0 <= i < |r| ==> IsDigit(r[i])
    decreases n
  {
    if n < 10 then [DigitChar(n)] else NatToString(n / 10) + [DigitChar(n % 10)]
  }

  /** Decimal text of an integer, as `String(n)`: a minus sign before the
      digits of a negative number. */
  function IntToString(i: int): (r: string)
    ensures 1 <= |r|
    ensures i >= 0 <==> IsDigit(r[0])
    ensures i >= 0 ==> r == NatToString(i)
    ensures i < 0 ==> r[0] == '-' && r[1..] == NatToString(-i)
  {
    if i < 0 then "-" + NatToString(-i) else NatToString(i)
  }

  /** The value of a string of decimal digits (the reading direction of
      NatToString, used to state that formatted numbers read back). */
  function ParseDigits(s: string): (n: nat)
    requires forall i :: 0 <= i < |s| ==> IsDigit(s[i])
    decreases |s|
  {
    if s == [] then 0 else ParseDigits(s[..|s| - 1]) * 10 + DigitValue(s[|s| - 1])
  }

  /** `s` is a string of decimal digits whose value is n. */
  predicate ReadsAs(s: string, n: int) {
    (forall i :: 0 <= i < |s| ==> IsDigit(s[i])) && ParseDigits(s) == n
  }

  lemma DigitRoundTrip(d: int)
    requires 0 <= d < 10
    ensures DigitValue(DigitChar(d)) == d
  {
  }

  /** `String(i)` reads back as i, or after its minus sign as -i. */
  lemma IntToStringReadsBack(i: int)
    ensures var r := IntToString(i);
      && (i >= 0 ==> ReadsAs(r, i))
      && (i < 0 ==> ReadsAs(r[1..], -i))
  {
    NatToStringReadsAs(if i < 0 then -i else i);
  }

  /** `String(n)` of a natural number is all digits reading back as n. */
  lemma NatToStringReadsAs(n: nat)
    ensures ReadsAs(NatToString(n), n)
  {
    NatToStringRoundTrip(n);
  }

  /** Reading back the decimal text of n gives n. */
  lemma {:induction false} NatToStringRoundTrip(n: nat)
    ensures ParseDigits(NatToString(n)) == n
    decreases n
  {
    var s := NatToString(n);
    if n < 10 {
      DigitRoundTrip(n);
      assert s[..0] == [];
    } else {
      NatToStringRoundTrip(n / 10);
      assert s[..|s| - 1] == NatToString(n / 10);
      DigitRoundTrip(n % 10);
    }
  }

  /** Leading zeros do not change the value a digit string reads as. */
  lemma {:induction false} LeadingZerosIgnored(k: nat, s: string)
    requires forall i :: 0 <= i < |s| ==> IsDigit(s[i])
    ensures forall i :: 0 <= i < |Repeat('0', k) + s| ==> IsDigit((Repeat('0', k) + s)[i])
    ensures ParseDigits(Repeat('0', k) + s) == ParseDigits(s)
    decreases k + |s|
  {
    var t := Repeat('0', k) + s;
    assert forall i :: 0 <= i < |t| ==> IsDigit(t[i]) by {
      forall i | 0 <= i < |t| ensures IsDigit(t[i]) {
        if i < k { assert t[i] == '0'; } else { assert t[i] == s[i - k]; }
      }
    }
    if s == [] {
      assert t == Repeat('0', k);
      if k > 0 {
        assert t[..|t| - 1] == Repeat('0', k - 1) + [];
        LeadingZerosIgnored(k - 1, []);
      }
    } else {
      var s' := s[..|s| - 1];
      assert t[..|t| - 1] == Repeat('0', k) + s';
      assert t[|t| - 1] == s[|s| - 1];
      LeadingZerosIgnored(k, s');
    }
  }

  /** A zero-padded natural number reads back as itself. */
  lemma ZeroPadRoundTrip(n: nat, w: int)
    ensures forall i :: 0 <= i < |PadStart(NatToString(n), w, '0')| ==> IsDigit(PadStart(NatToString(n), w, '0')[i])
    ensures ParseDigits(PadStart(NatToString(n), w, '0')) == n
  {
    var s := NatToString(n);
    NatToStringRoundTrip(n);
    if |s| < w {
      var t := Repeat('0', w - |s|) + s;
      assert PadStart(s, w, '0') == t;
      LeadingZerosIgnored(w - |s|, s);
    } else {
      assert PadStart(s, w, '0') == s;
    }
  }

  /** A number below 10^w, zero-padded to w, is w digits reading back as
      the number. */
  lemma ZeroPadField(n: int, w: nat)
    requires 1 <= w && 0 <= n < Pow10(w)
    ensures |PadStart(IntToString(n), w, '0')| == w
    ensures ReadsAs(PadStart(IntToString(n), w, '0'), n)
  {
    assert IntToString(n) == NatToString(n);
    NatToStringLength(n, w);
    ZeroPadRoundTrip(n, w);
  }

  /** Numbers below 10^k have at most k digits. */
  lemma {:induction false} NatToStringLength(n: nat, k: nat)
    requires 1 <= k
    requires n < Pow10(k)
    ensures |NatToString(n)| <= k
    decreases k
  {
    if n >= 10 {
      assert Pow10(1) == 10;
      assert k >= 2;
      assert n / 10 < Pow10(k - 1);
      NatToStringLength(n / 10, k - 1);
    }
  }

  /** Numbers of at least 10^(k-1) have at least k digits. */
  lemma {:induction false} NatToStringLengthAtLeast(n: nat, k: nat)
    requires 1 <= k
    requires Pow10(k - 1) <= n
    ensures |NatToString(n)| >= k
    decreases k
  {
    if k > 1 {
      assert Pow10(k - 1) == 10 * Pow10(k - 2);
      assert n >= 10;
      NatToStringLengthAtLeast(n / 10, k - 1);
    }
  }

  function Pow10(k: nat): (r: nat)
    ensures r >= 1
  {
    if k == 0 then 1 else 10 * Pow10(k - 1)
  }

  /** Exactly k digits for 10^(k-1) <= n < 10^k: the width facts the
      fixed-width layouts rely on. */
  lemma DigitCount(n: nat)
    ensures n < 10 ==> |NatToString(n)| == 1
    ensures 10 <= n < 100 ==> |NatToString(n)| == 2
    ensures 100 <= n < 1000 ==> |NatToString(n)| == 3
    ensures 1000 <= n < 10000 ==> |NatToString(n)| == 4
  {
    if 10 <= n < 100 {
      NatToStringLength(n, 2);
      NatToStringLengthAtLeast(n, 2);
    } else if 100 <= n < 1000 {
      NatToStringLength(n, 3);
      NatToStringLengthAtLeast(n, 3);
    } else if 1000 <= n < 10000 {
      NatToStringLength(n, 4);
      NatToStringLengthAtLeast(n, 4);
    }
  }

  /** `toUpperCase` restricted to ASCII letters. */
  function UpperChar(c: char): (u: char)
    ensures !('a' <= c <= 'z') ==> u == c
    ensures 'a' <= c <= 'z' ==> 'A' <= u <= 'Z' && u as int == c as int - 32
  {
    if 'a' <= c <= 'z' then (c as int - 'a' as int + 'A' as int) as char else c
  }

  function UpperAscii(s: string): (r: string)
    ensures |r| == |s|
    ensures forall i :: 0 <= i < |s| ==> r[i] == UpperChar(s[i])
  {
    seq(|s|, i requires 0 <= i < |s| => UpperChar(s[i]))
  }

  /** The characters `\s` matches in a JavaScript regular expression. */
  predicate IsJsWhitespace(c: char) {
    c == ' ' || c == '\t' || c == '\n' || c == '\r' || c == '\U{000B}' || c == '\U{000C}'
    || c == '\U{00A0}' || c == '\U{1680}' || ('\U{2000}' <= c <= '\U{200A}')
    || c == '\U{2028}' || c == '\U{2029}' || c == '\U{202F}' || c == '\U{205F}'
    || c == '\U{3000}' || c == '\U{FEFF}'
  }
}
