/** Numerals in a base, and numbers folded from digits. */
module Numerals {

  function Pow(base: nat, exponent: nat): (r: nat)
    ensures base > 0 ==> r > 0
  {
    if exponent == 0 then 1
    else
      var r := base * Pow(base, exponent - 1);
      assert base > 0 ==> r > 0;
      r
  }

  function DigitChar(d: nat): char
    requires d < 16
  {
    if d < 10 then ('0' as int + d) as char else ('a' as int + d - 10) as char
  }

  /** The value of a digit in either case, and 16 for what is no digit. */
  function DigitValue(c: char): (r: nat)
    ensures r <= 16
  {
    if '0' <= c <= '9' then c as int - '0' as int
    else if 'a' <= c <= 'f' then c as int - 'a' as int + 10
    else if 'A' <= c <= 'F' then c as int - 'A' as int + 10
    else 16
  }

  predicate IsNumeral(s: string, base: nat) { forall i | 0 <= i < |s| :: DigitValue(s[i]) < base }

  /** `Number` of a decimal and `parseInt` of a hexadecimal numeral. */
  function Read(s: string, base: nat): nat {
    if s == "" then 0 else Read(s[..|s| - 1], base) * base + DigitValue(s[|s| - 1])
  }

  lemma ReadLast(front: string, c: char, base: nat)
    ensures Read(front + [c], base) == Read(front, base) * base + DigitValue(c)
  {
    assert (front + [c])[..|front|] == front;
  }

  /** The canonical numeral, as `toString(base)` prints it. */
  function Numeral(n: nat, base: nat): (r: string)
    requires 2 <= base <= 16
    ensures r != ""
    decreases n
  {
    (if n < base then "" else Numeral(n / base, base)) + [DigitChar(n % base)]
  }

  lemma NumeralStep(n: nat, base: nat)
    requires 2 <= base <= 16
    ensures var front := if n < base then "" else Numeral(n / base, base);
            Numeral(n, base) == front + [DigitChar(n % base)] && |Numeral(n, base)| == |front| + 1
  {}

  lemma DivMod(n: nat, base: nat)
    requires base > 0
    ensures n == (n / base) * base + n % base
    ensures n < base ==> n / base == 0
  {}

  lemma {:induction false} NumeralReads(n: nat, base: nat)
    requires 2 <= base <= 16
    ensures Read(Numeral(n, base), base) == n
    ensures IsNumeral(Numeral(n, base), base)
    decreases n
  {
    NumeralStep(n, base);
    DivMod(n, base);
    if n >= base {
      Smaller(n, base);
      NumeralReads(n / base, base);
      hide Numeral;
      AddDigit(Numeral(n / base, base), n / base, n % base, base);
    } else {
      hide Numeral;
      AddDigit("", 0, n % base, base);
    }
  }

  lemma Smaller(n: nat, base: nat)
    requires 2 <= base <= n
    ensures n / base < n
  {
    DivMod(n, base);
    MulOrder(n / base, 2, base);
  }

  lemma AddDigit(front: string, high: nat, d: nat, base: nat)
    requires d < base <= 16 && IsNumeral(front, base) && Read(front, base) == high
    ensures Read(front + [DigitChar(d)], base) == high * base + d
    ensures IsNumeral(front + [DigitChar(d)], base)
  {
    ReadLast(front, DigitChar(d), base);
  }

  lemma {:induction false} ReadAppend(a: string, b: string, base: nat)
    ensures Read(a + b, base) == Read(a, base) * Pow(base, |b|) + Read(b, base)
  {
    if b == "" {
      assert a + b == a;
    } else {
      var front, c := b[..|b| - 1], b[|b| - 1];
      assert a + b == (a + front) + [c] && b == front + [c];
      ReadLast(a + front, c, base);
      ReadLast(front, c, base);
      ReadAppend(a, front, base);
      assert Pow(base, |b|) == base * Pow(base, |front|);
      hide *;
      Distribute(Read(a, base), Pow(base, |front|), Read(front, base), base);
    }
  }

  lemma Distribute(x: nat, y: nat, w: nat, z: nat)
    ensures (x * y + w) * z == x * (z * y) + w * z
  {}

  lemma {:induction false} ReadBound(s: string, base: nat)
    requires IsNumeral(s, base)
    ensures Read(s, base) < Pow(base, |s|)
  {
    if s != "" {
      var front := s[..|s| - 1];
      ReadBound(front, base);
      MulGap(Read(front, base), Pow(base, |front|), base);
    }
  }

  lemma MulGap(x: nat, y: nat, z: nat)
    requires x < y
    ensures x * z + z <= z * y
  {
    assert (x + 1) * z <= y * z by { if z > 0 { assert (y - x - 1) * z >= 0; } }
  }

  lemma {:induction false} NumeralLength(n: nat, base: nat, k: nat)
    requires 2 <= base <= 16 && k > 0 && n < Pow(base, k)
    ensures |Numeral(n, base)| <= k
    decreases k
  {
    NumeralStep(n, base);
    if n >= base {
      var p := Pow(base, k - 1);
      assert Pow(base, k) == base * p && (k == 1 ==> p == 1);
      hide *;
      QuotientBound(n, base, p);
      assert k > 1;
      NumeralLength(n / base, base, k - 1);
    }
  }

  lemma QuotientBound(n: nat, base: nat, p: nat)
    requires base > 0 && n < base * p
    ensures n / base < p
  {
    assert base * (n / base) <= n;
    assert base * (n / base) < base * p;
    MulCancel(base, n / base, p);
  }

  lemma MulCancel(z: nat, x: nat, y: nat)
    requires z * x < z * y
    ensures x < y
  {
    if y <= x { MulOrder(z, y, x); assert false; }
  }

  lemma MulOrder(z: nat, x: nat, y: nat)
    requires x <= y
    ensures z * x <= z * y
  {
    assert z * (y - x) >= 0;
  }

  function Zeros(n: nat): (r: string)
    ensures |r| == n && forall i | 0 <= i < n :: r[i] == '0'
  {
    seq(n, i => '0')
  }

  /** `padStart` with zeros. */
  function PadStart(s: string, n: nat): (r: string)
    ensures |r| >= n && |r| >= |s|
  {
    if |s| >= n then s else Zeros(n - |s|) + s
  }

  lemma {:induction false} ReadZeros(n: nat, base: nat)
    ensures Read(Zeros(n), base) == 0
  {
    if n > 0 {
      assert Zeros(n)[..n - 1] == Zeros(n - 1);
      ReadZeros(n - 1, base);
    }
  }

  lemma {:induction false} PaddedReads(s: string, n: nat, base: nat)
    requires IsNumeral(s, base) && base > 0 && |s| <= n
    ensures Read(PadStart(s, n), base) == Read(s, base)
    ensures IsNumeral(PadStart(s, n), base) && |PadStart(s, n)| == n
  {
    ReadZeros(n - |s|, base);
    ReadAppend(Zeros(n - |s|), s, base);
  }

  /** A number below 16 to the 8th, cut into two hexadecimal numerals of four digits. */
  lemma PartsOfNumeral(s: string, k: nat, base: nat)
    requires IsNumeral(s, base) && k <= |s|
    ensures IsNumeral(s[..k], base) && IsNumeral(s[k..], base)
  {
    hide DigitValue;
  }

  lemma HexHalves(n: nat)
    requires n < 0x1_0000_0000
    ensures var hex := PadStart(Numeral(n, 16), 8);
            && |hex| == 8 && IsNumeral(hex[..4], 16) && IsNumeral(hex[4..], 16) && Read(hex[4..], 16) < 65536
            && Read(hex[..4], 16) * 65536 + Read(hex[4..], 16) == n
  {
    Pow16();
    NumeralLength(n, 16, 8);
    NumeralReads(n, 16);
    PaddedReads(Numeral(n, 16), 8, 16);
    var hex := PadStart(Numeral(n, 16), 8);
    PartsOfNumeral(hex, 4, 16);
    ReadAppend(hex[..4], hex[4..], 16);
    ReadBound(hex[4..], 16);
    hide *;
    assert hex == hex[..4] + hex[4..];
  }

  lemma Pow16()
    ensures Pow(16, 4) == 65536 && Pow(16, 8) == 0x1_0000_0000
  {
    assert Pow(16, 1) == 16 && Pow(16, 2) == 256 && Pow(16, 3) == 4096 && Pow(16, 4) == 65536;
    assert Pow(16, 5) == 0x10_0000 && Pow(16, 6) == 0x100_0000 && Pow(16, 7) == 0x1000_0000;
  }

  // ---------------------------------------------------------------- folding digits into a number

  /** `reduce` with a shift: each part is one digit in the given base. */
  function Fold(base: nat, parts: seq<nat>): nat {
    if parts == [] then 0 else Fold(base, parts[..|parts| - 1]) * base + parts[|parts| - 1]
  }

  /** The sum of every part times its power of the base. */
  function Positional(base: nat, parts: seq<nat>): nat {
    if parts == [] then 0 else parts[0] * Pow(base, |parts| - 1) + Positional(base, parts[1..])
  }

  lemma {:induction false} PositionalAppend(base: nat, parts: seq<nat>, last: nat)
    ensures Positional(base, parts + [last]) == Positional(base, parts) * base + last
  {
    if parts == [] {
      assert Positional(base, [last]) == last * Pow(base, 0) + Positional(base, [last][1..]);
      assert parts + [last] == [last] && [last][1..] == [];
    } else {
      var rest := parts[1..];
      assert (parts + [last])[1..] == rest + [last];
      PositionalAppend(base, rest, last);
      assert Pow(base, |parts|) == base * Pow(base, |parts| - 1);
      Distribute(parts[0], Pow(base, |parts| - 1), Positional(base, rest), base);
    }
  }

  lemma {:induction false} FoldIsPositional(base: nat, parts: seq<nat>)
    ensures Fold(base, parts) == Positional(base, parts)
  {
    if parts != [] {
      var front := parts[..|parts| - 1];
      FoldIsPositional(base, front);
      PositionalAppend(base, front, parts[|parts| - 1]);
      assert front + [parts[|parts| - 1]] == parts;
    }
  }

  lemma {:induction false} FoldBound(base: nat, parts: seq<nat>)
    requires forall i | 0 <= i < |parts| :: parts[i] < base
    ensures Fold(base, parts) < Pow(base, |parts|)
  {
    if parts != [] {
      var front := parts[..|parts| - 1];
      FoldBound(base, front);
      MulGap(Fold(base, front), Pow(base, |front|), base);
    }
  }
}
