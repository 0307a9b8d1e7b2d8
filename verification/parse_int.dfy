/** JavaScript's `parseInt(s)` with no radix argument, as the gallery uses it
    to turn the last characters of a photo id into an animation phase, and
    the facts about it for ids made by `Date.now().toString()`. */
module ParseInt {
  import opened Types

  /** The white space parseInt skips before a number (its ASCII members:
      tab, line feed, vertical tab, form feed, carriage return, space). */
  predicate IsSpace(c: char)
  {
    c == ' ' || ('\t' <= c <= '\r')
  }

  function TrimStart(s: string): (r: string)
    ensures |r| <= |s| && r == s[|s| - |r|..]
    ensures r == [] || !IsSpace(r[0])
  {
    if s != [] && IsSpace(s[0]) then TrimStart(s[1..]) else s
  }

  /** The value of c as a digit in radix 36 (0-9, then a-z or A-Z); 36 for
      any other character. */
  function DigitValue(c: char): (d: nat)
    ensures d <= 36
    ensures '0' <= c <= '9' ==> d == c as int - '0' as int
  {
    if '0' <= c <= '9' then c as int - '0' as int
    else if 'a' <= c <= 'z' then c as int - 'a' as int + 10
    else if 'A' <= c <= 'Z' then c as int - 'A' as int + 10
    else 36
  }

  predicate IsDigit(c: char, radix: nat)
  {
    DigitValue(c) < radix
  }

  predicate AllDigits(s: string, radix: nat)
  {
    forall k :: 0 <= k < |s| ==> IsDigit(s[k], radix)
  }

  /** The length of the longest prefix of s made of digits. */
  function DigitRun(s: string, radix: nat): (n: nat)
    ensures n <= |s|
    ensures forall k :: 0 <= k < n ==> IsDigit(s[k], radix)
    ensures n < |s| ==> !IsDigit(s[n], radix)
  {
    if s == [] || !IsDigit(s[0], radix) then 0
    else 1 + DigitRun(s[1..], radix)
  }

  /** The number a digit string denotes, most significant digit first. */
  function Value(s: string, radix: nat): nat
  {
    if s == [] then 0
    else Value(s[..|s| - 1], radix) * radix + DigitValue(s[|s| - 1])
  }

  /** parseInt(s): skip white space, read an optional sign, then an
      unsigned number; no digit at all gives NaN, here None. */
  function Parse(s: string): Option<int>
  {
    var t := TrimStart(s);
    if t != [] && t[0] == '-' then
      match Unsigned(t[1..])
      case None => None
      case Some(v) => Some(-(v as int))
    else if t != [] && t[0] == '+' then Unsigned(t[1..])
    else Unsigned(t)
  }

  /** The number after the sign: a "0x" or "0X" prefix switches to radix 16,
      then as many digits as there are are read. */
  function Unsigned(u: string): Option<nat>
  {
    var hex := |u| >= 2 && u[0] == '0' && (u[1] == 'x' || u[1] == 'X');
    var radix := if hex then 16 else 10;
    var w := if hex then u[2..] else u;
    var n := DigitRun(w, radix);
    if n == 0 then None else Some(Value(w[..n], radix))
  }

  /** `s.slice(-4)`: the last four characters, or all of a shorter string. */
  function LastFour(s: string): (r: string)
    ensures |r| == if |s| < 4 then |s| else 4
    ensures r == s[|s| - |r|..]
  {
    if |s| < 4 then s else s[|s| - 4..]
  }

  /** `parseInt(id.slice(-4)) || 0`: NaN, like 0, is falsy and becomes 0. */
  function IdPhase(id: string): int
  {
    match Parse(LastFour(id))
    case None => 0
    case Some(v) => v
  }

  /** b to the power m. */
  function Pow(b: nat, m: nat): (p: nat)
    ensures b >= 1 ==> p >= 1
  {
    if m == 0 then 1 else Pow(b, m - 1) * b
  }

  predicate IsDecimal(s: string)
  {
    forall k :: 0 <= k < |s| ==> '0' <= s[k] <= '9'
  }

  /** In a string of decimal digits the digit run is the whole string. */
  lemma {:induction false} DecimalRun(s: string)
    requires IsDecimal(s)
    ensures DigitRun(s, 10) == |s|
  {
    if s != [] {
      assert IsDigit(s[0], 10);
      DecimalRun(s[1..]);
    }
  }

  /** A non-empty string of decimal digits parses as the number it spells:
      no space, sign or "0x" prefix can be read from it, and every character
      is part of the digit run. */
  lemma ParseDecimal(s: string)
    requires s != [] && IsDecimal(s)
    ensures Parse(s) == Some(Value(s, 10))
  {
    assert !IsSpace(s[0]) && s[0] != '-' && s[0] != '+';
    assert TrimStart(s) == s;
    UnsignedDecimal(s);
  }

  /** Decimal digits read as an unsigned number: no "0x" prefix, and the
      digit run is the whole string. */
  lemma UnsignedDecimal(s: string)
    requires s != [] && IsDecimal(s)
    ensures Unsigned(s) == Some(Value(s, 10))
  {
    assert !(|s| >= 2 && (s[1] == 'x' || s[1] == 'X'));
    DecimalRun(s);
    assert s[..|s|] == s;
  }

  /** The last m decimal digits of n, as a string. */
  function Tail(n: nat, m: nat): string
    requires m <= |NatToString(n)|
  {
    NatToString(n)[|NatToString(n)| - m..]
  }

  /** The value of the last m digits of n's decimal form is n modulo 10^m. */
  lemma {:induction false} SuffixValue(n: nat, m: nat)
    requires m <= |NatToString(n)|
    ensures Value(Tail(n, m), 10) == n % Pow(10, m)
  {
    if m == 0 {
      NoDigits(n);
    } else if n < 10 {
      OneDigit(n, m);
    } else {
      SuffixValue(n / 10, m - 1);
      MoreDigits(n, m);
    }
  }

  lemma NoDigits(n: nat)
    ensures Value(Tail(n, 0), 10) == n % Pow(10, 0)
  {
    assert Tail(n, 0) == [] && Pow(10, 0) == 1;
    ModUnique(n, 1, n, 0);
  }

  lemma OneDigit(n: nat, m: nat)
    requires n < 10 && 1 <= m <= |NatToString(n)|
    ensures Value(Tail(n, m), 10) == n % Pow(10, m)
  {
    var tail := Tail(n, m);
    assert m == 1 && tail == [DigitChar(n)];
    assert tail[..0] == [];
    assert Pow(10, 1) == 10;
    ModOfSmall(n, 10);
  }

  lemma MoreDigits(n: nat, m: nat)
    requires n >= 10 && 1 <= m <= |NatToString(n)|
    requires Value(Tail(n / 10, m - 1), 10) == (n / 10) % Pow(10, m - 1)
    ensures Value(Tail(n, m), 10) == n % Pow(10, m)
  {
    var s, front := NatToString(n), NatToString(n / 10);
    var last := DigitChar(n % 10);
    assert s == front + [last];
    var rest := Tail(n / 10, m - 1);
    assert Tail(n, m) == rest + [last];
    SuffixStep(n, m, Tail(n, m), rest);
  }

  /** Appending n's last digit to the value of (n / 10)'s last m - 1 digits. */
  lemma SuffixStep(n: nat, m: nat, tail: string, rest: string)
    requires m >= 1 && tail == rest + [DigitChar(n % 10)]
    requires Value(rest, 10) == (n / 10) % Pow(10, m - 1)
    ensures Value(tail, 10) == n % Pow(10, m)
  {
    assert tail[..|tail| - 1] == rest;
    assert Value(tail, 10) == Value(rest, 10) * 10 + n % 10;
    ModOfShift(n, Pow(10, m - 1));
  }

  /** Dropping the last decimal digit and putting it back: modulo 10p. */
  lemma ModOfShift(n: nat, p: nat)
    requires p >= 1
    ensures ((n / 10) % p) * 10 + n % 10 == n % (p * 10)
  {
    var q, r := n / 10, n % 10;
    var a, b := q / p, q % p;
    assert n == a * (p * 10) + (b * 10 + r) by {
      assert n == q * 10 + r;
      assert q == a * p + b;
    }
    assert 0 <= b * 10 + r < p * 10;
    ModUnique(n, p * 10, a, b * 10 + r);
  }

  /** Euclidean division has a single quotient and remainder. */
  lemma ModUnique(n: int, d: int, k: int, r: int)
    requires d > 0 && 0 <= r < d && n == k * d + r
    ensures n % d == r
  {
    var k0 := n / d;
    assert (k - k0) * d == n % d - r;
    MultipleInRange(k - k0, d);
  }

  /** The only multiple of d strictly between -d and d is 0. */
  lemma MultipleInRange(x: int, d: int)
    requires d > 0 && -d < x * d < d
    ensures x == 0
  {
  }

  /** n is below 10 to the number of its decimal digits. */
  lemma {:induction false} NatToStringBound(n: nat)
    ensures n < Pow(10, |NatToString(n)|)
  {
    if n >= 10 {
      NatToStringBound(n / 10);
      assert |NatToString(n)| == |NatToString(n / 10)| + 1;
    }
  }

  /** For an id made by `Date.now().toString()`, the phase is the time in
      milliseconds modulo 10000: its last four digits, leading zeros ignored. */
  lemma IdPhaseOfTimestamp(now: nat)
    ensures IdPhase(NatToString(now)) == now % 10000
  {
    TimestampTail(now);
    TailModulus(now);
  }

  /** The last four characters of a timestamp parse as its last digits. */
  lemma TimestampTail(now: nat)
    ensures Parse(LastFour(NatToString(now))) == Some(now % Pow(10, |LastFour(NatToString(now))|))
  {
    var last := LastFour(NatToString(now));
    assert last == Tail(now, |last|);
    SuffixValue(now, |last|);
    ParseDecimal(last);
  }

  /** Taking fewer than four digits only happens when there are no more. */
  lemma TailModulus(now: nat)
    ensures now % Pow(10, |LastFour(NatToString(now))|) == now % 10000
  {
    var s := NatToString(now);
    var m := |LastFour(s)|;
    if |s| < 4 {
      NatToStringBound(now);
      PowMonotone(10, m, 3);
      assert Pow(10, 3) == 1000;
      ModOfSmall(now, Pow(10, m));
      ModOfSmall(now, 10000);
    } else {
      assert Pow(10, 4) == 10000;
    }
  }

  lemma ModOfSmall(n: nat, d: nat)
    requires n < d
    ensures n % d == n
  {
    ModUnique(n, d, 0, n);
  }

  /** A phase is between -999 ("-999") and 9999 ("9999"): four characters
      hold at most four decimal digits, three after a sign, two after "0x". */
  lemma IdPhaseRange(id: string)
    ensures -999 <= IdPhase(id) <= 9999
  {
    ParseBound(LastFour(id));
  }

  /** parseInt of at most four characters lies in [-999, 9999]. */
  lemma ParseBound(s: string)
    requires |s| <= 4
    ensures Parse(s).Some? ==> -999 <= Parse(s).value <= 9999
  {
    var t := TrimStart(s);
    if t != [] && t[0] == '-' {
      BelowPow(t[1..], 3);
    } else if t != [] && t[0] == '+' {
      BelowPow(t[1..], 3);
    } else {
      BelowPow(t, 4);
    }
  }

  /** At most m characters parse, unsigned, to a number below 10^m. */
  lemma BelowPow(u: string, m: nat)
    requires |u| <= m <= 4
    ensures Unsigned(u).Some? ==> Unsigned(u).value < Pow(10, m)
    ensures m == 3 ==> Pow(10, m) == 1000
    ensures m == 4 ==> Pow(10, m) == 10000
  {
    UnsignedBound(u);
    PowMonotone(10, |u|, m);
  }

  /** Up to four characters hold a number below 10^length: decimal digits
      directly, and after "0x" two hex digits at most, below 256. */
  lemma UnsignedBound(u: string)
    requires |u| <= 4
    ensures Unsigned(u).Some? ==> Unsigned(u).value < Pow(10, |u|)
  {
    var hex := |u| >= 2 && u[0] == '0' && (u[1] == 'x' || u[1] == 'X');
    var radix := if hex then 16 else 10;
    var w := if hex then u[2..] else u;
    var n := DigitRun(w, radix);
    if n > 0 {
      RunValueBound(w, radix);
      PowMonotone(radix, n, |w|);
      if hex {
        PowMonotone(16, |w|, 2);
        assert Pow(16, 2) == 256;
        PowMonotone(10, 3, |u|);
        assert Pow(10, 3) == 1000;
      } else {
        assert w == u;
      }
    }
  }

  /** The digit run of w denotes a number below radix^(run length). */
  lemma RunValueBound(w: string, radix: nat)
    ensures Value(w[..DigitRun(w, radix)], radix) < Pow(radix, DigitRun(w, radix))
  {
    var n := DigitRun(w, radix);
    assert AllDigits(w[..n], radix);
    ValueBound(w[..n], radix);
  }

  /** m digits in a radix denote a number below radix^m. */
  lemma {:induction false} ValueBound(s: string, radix: nat)
    requires AllDigits(s, radix)
    ensures Value(s, radix) < Pow(radix, |s|)
  {
    if s != [] {
      var front := s[..|s| - 1];
      var v, d := Value(front, radix), DigitValue(s[|s| - 1]);
      assert AllDigits(front, radix);
      ValueBound(front, radix);
      assert Value(s, radix) == v * radix + d;
      assert Pow(radix, |s|) == Pow(radix, |front|) * radix;
      AppendDigitBound(v, d, radix, Pow(radix, |front|));
    }
  }

  /** Appending a digit below the radix to a number below p gives one below p * radix. */
  lemma AppendDigitBound(v: nat, d: nat, radix: nat, p: nat)
    requires v < p && d < radix
    ensures v * radix + d < p * radix
  {
    MulMonotone(v + 1, p, radix);
    assert (v + 1) * radix == v * radix + radix;
  }

  lemma MulMonotone(a: nat, b: nat, c: nat)
    requires a <= b
    ensures a * c <= b * c
  {
  }

  lemma {:induction false} PowMonotone(b: nat, m: nat, k: nat)
    requires b >= 1 && m <= k
    ensures Pow(b, m) <= Pow(b, k)
  {
    if m < k {
      PowMonotone(b, m, k - 1);
      MulMonotone(1, b, Pow(b, k - 1));
    }
  }
}
