/** Numbers written in hexadecimal, as JavaScript's BigInt and the RPC interface write them. */
module Hex {
  predicate IsHexDigit(c: char) { '0' <= c <= '9' || 'a' <= c <= 'f' || 'A' <= c <= 'F' }

  predicate IsLowerHexDigit(c: char) { '0' <= c <= '9' || 'a' <= c <= 'f' }

  predicate AllHex(s: string) { forall i :: 0 <= i < |s| ==> IsHexDigit(s[i]) }

  predicate AllLowerHex(s: string) { forall i :: 0 <= i < |s| ==> IsLowerHexDigit(s[i]) }

  function DigitValue(c: char): (v: nat)
    requires IsHexDigit(c)
    ensures v < 16
  {
    if '0' <= c <= '9' then c as int - '0' as int
    else if 'a' <= c <= 'f' then c as int - 'a' as int + 10
    else c as int - 'A' as int + 10
  }

  function DigitChar(v: nat): (c: char)
    requires v < 16
    ensures IsLowerHexDigit(c) && DigitValue(c) == v
  {
    if v < 10 then ('0' as int + v) as char else ('a' as int + v - 10) as char
  }

  function LowerDigit(c: char): (l: char)
    requires IsHexDigit(c)
    ensures IsLowerHexDigit(l) && DigitValue(l) == DigitValue(c)
  {
    if 'A' <= c <= 'F' then (c as int - 'A' as int + 'a' as int) as char else c
  }

  function Lower(s: string): (l: string)
    requires AllHex(s)
    ensures |l| == |s| && AllLowerHex(l)
  {
    seq(|s|, i requires 0 <= i < |s| => LowerDigit(s[i]))
  }

  /** The number that a string of digits denotes. */
  function FromHex(s: string): nat
    requires AllHex(s)
  {
    if s == [] then 0 else FromHex(s[..|s| - 1]) * 16 + DigitValue(s[|s| - 1])
  }

  /** `toString(16)`. */
  function ToHex(n: nat): (s: string)
    ensures s != [] && AllLowerHex(s)
  {
    if n < 16 then [DigitChar(n)] else ToHex(n / 16) + [DigitChar(n % 16)]
  }

  /** `padStart(width, '0')`. */
  function PadStart(s: string, width: nat): string {
    if |s| >= width then s else seq(width - |s|, _ => '0') + s
  }

  function Pow16(k: nat): (p: nat)
    ensures p > 0
  {
    if k == 0 then 1 else 16 * Pow16(k - 1)
  }

  /** 2^160 */
  const ADDRESS_SPACE: nat := 0x1_0000_0000_0000_0000_0000_0000_0000_0000_0000_0000

  lemma {:induction false} PowSum(a: nat, b: nat)
    ensures Pow16(a + b) == Pow16(a) * Pow16(b)
    decreases a
  {
    if a == 0 {
    } else {
      PowSum(a - 1, b);
      assert Pow16(a + b) == 16 * Pow16(a - 1 + b);
    }
  }

  lemma {:induction false} PowGrows(a: nat, b: nat)
    requires a <= b
    ensures Pow16(a) <= Pow16(b)
    decreases b - a
  {
    if a == b {
    } else {
      PowGrows(a, b - 1);
    }
  }

  lemma PowOfAddress()
    ensures Pow16(40) == ADDRESS_SPACE
  {
    assert Pow16(2) == 0x100;
    PowSum(2, 2);
    PowSum(4, 4);
    assert Pow16(8) == 0x1_0000_0000;
    PowSum(8, 8);
    PowSum(16, 16);
    PowSum(32, 8);
  }

  lemma {:induction false} FromHexBelow(s: string)
    requires AllHex(s)
    ensures FromHex(s) < Pow16(|s|)
    decreases |s|
  {
    if s == [] {
    } else {
      FromHexBelow(s[..|s| - 1]);
    }
  }

  lemma Shift(x: nat, p: nat, y: nat, d: nat)
    ensures (x * p + y) * 16 + d == x * (16 * p) + (y * 16 + d)
  {
  }

  lemma {:induction false} FromHexAppend(a: string, b: string)
    requires AllHex(a) && AllHex(b)
    ensures AllHex(a + b) && FromHex(a + b) == FromHex(a) * Pow16(|b|) + FromHex(b)
    decreases |b|
  {
    if b == [] {
      assert a + b == a;
    } else {
      var init := b[..|b| - 1];
      assert (a + b)[..|a + b| - 1] == a + init;
      FromHexAppend(a, init);
      assert (a + b)[|a + b| - 1] == b[|b| - 1] && Pow16(|b|) == 16 * Pow16(|init|);
      assert FromHex(a + b) == FromHex(a + init) * 16 + DigitValue(b[|b| - 1]);
      assert FromHex(b) == FromHex(init) * 16 + DigitValue(b[|b| - 1]);
      hide FromHex, Pow16;
      Shift(FromHex(a), Pow16(|init|), FromHex(init), DigitValue(b[|b| - 1]));
    }
  }

  lemma {:induction false} FromHexZeros(k: nat)
    ensures FromHex(seq(k, _ => '0')) == 0
    decreases k
  {
    if k == 0 {
    } else {
      var zeros := seq(k, _ => '0');
      assert zeros[..k - 1] == seq(k - 1, _ => '0');
      FromHexZeros(k - 1);
    }
  }

  lemma {:induction false} FromHexLower(s: string)
    requires AllHex(s)
    ensures FromHex(Lower(s)) == FromHex(s)
    decreases |s|
  {
    if s == [] {
    } else {
      assert Lower(s)[..|s| - 1] == Lower(s[..|s| - 1]);
      FromHexLower(s[..|s| - 1]);
    }
  }

  /** Printing and parsing are inverse. */
  lemma {:induction false} FromHexToHex(n: nat)
    ensures FromHex(ToHex(n)) == n
    decreases n
  {
    if n < 16 {
    } else {
      assert ToHex(n)[..|ToHex(n)| - 1] == ToHex(n / 16);
      FromHexToHex(n / 16);
    }
  }

  lemma {:induction false} ToHexLength(n: nat, k: nat)
    requires k > 0 && n < Pow16(k)
    ensures |ToHex(n)| <= k
    decreases k
  {
    if n < 16 {
    } else {
      assert Pow16(k) == 16 * Pow16(k - 1);
      assert k > 1;
      ToHexLength(n / 16, k - 1);
    }
  }

  lemma PadStartValue(s: string, width: nat)
    requires AllHex(s)
    ensures AllHex(PadStart(s, width)) && FromHex(PadStart(s, width)) == FromHex(s)
    ensures |PadStart(s, width)| == if |s| >= width then |s| else width
  {
    if |s| < width {
      FromHexZeros(width - |s|);
      FromHexAppend(seq(width - |s|, _ => '0'), s);
    }
  }

  /** The last 40 digits denote the number modulo 2^160. */
  lemma LastFortyDigits(s: string)
    requires AllHex(s) && |s| >= 40
    ensures FromHex(s[|s| - 40..]) == FromHex(s) % ADDRESS_SPACE
  {
    hide *;
    var head, tail := s[..|s| - 40], s[|s| - 40..];
    assert s == head + tail;
    AllHexParts(head, tail);
    LowDigits(head, tail);
    PowOfAddress();
  }

  lemma AllHexParts(a: string, b: string)
    requires AllHex(a + b)
    ensures AllHex(a) && AllHex(b)
  {
    assert forall i :: 0 <= i < |a| ==> a[i] == (a + b)[i];
    assert forall i :: 0 <= i < |b| ==> b[i] == (a + b)[|a| + i];
  }

  /** The last digits denote the number modulo a power of 16. */
  lemma LowDigits(head: string, tail: string)
    requires AllHex(head) && AllHex(tail) && AllHex(head + tail)
    ensures FromHex(head + tail) % Pow16(|tail|) == FromHex(tail)
  {
    hide FromHex, Pow16, AllHex;
    FromHexAppend(head, tail);
    FromHexBelow(tail);
    ModOfSum(FromHex(head), Pow16(|tail|), FromHex(tail));
  }

  lemma MulStep(a: int, m: nat)
    ensures (a + 1) * m == a * m + m
  {
  }

  lemma {:induction false} MulGap(b: int, a: int, m: nat)
    requires a > b
    ensures a * m >= b * m + m
    decreases a - b
  {
    MulStep(a - 1, m);
    if a - 1 > b {
      MulGap(b, a - 1, m);
    }
  }

  lemma ModOfSum(a: nat, m: nat, r: nat)
    requires r < m
    ensures (a * m + r) % m == r
  {
    var x := a * m + r;
    var q := x / m;
    assert x == q * m + x % m;
    if q != a {
      MulGap(if q < a then q else a, if q < a then a else q, m);
      assert false;
    }
  }
}
