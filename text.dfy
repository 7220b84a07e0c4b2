/** The JavaScript string primitives the point-of-sale code leans on:
    `Number.prototype.toString` for integers, `padStart`, `padEnd`, and the
    reading of a digit string as a number. */
module Text {

  predicate IsDigit(c: char) {
    '0' <= c <= '9'
  }

  predicate AllDigits(s: string) {
    forall i :: 0 <= i < |s| ==> IsDigit(s[i])
  }

  function DigitChar(d: nat): (c: char)
    requires d < 10
    ensures IsDigit(c) && DigitVal(c) == d
  {
    ('0' as int + d) as char
  }

  function DigitVal(c: char): nat
    requires IsDigit(c)
  {
    c as int - '0' as int
  }

  function Pow10(k: nat): (r: nat)
    ensures r >= 1
  {
    if k == 0 then 1 else 10 * Pow10(k - 1)
  }

  /** `n.toString()` for a non-negative integer: its decimal digits, with no
      leading zero. */
  function NatString(n: nat): (s: string)
    ensures |s| >= 1 && AllDigits(s)
    ensures |s| > 1 ==> s[0] != '0'
  {
    if n < 10 then [DigitChar(n)] else NatString(n / 10) + [DigitChar(n % 10)]
  }

  /** `i.toString()` for any integer. */
  function IntString(i: int): (s: string)
    ensures |s| >= 1
    ensures (s[0] == '-') <==> i < 0
  {
    if i < 0 then "-" + NatString(-i) else NatString(i)
  }

  /** The number a string of decimal digits denotes. */
  function DigitsValue(s: string): nat
    requires AllDigits(s)
  {
    if s == [] then 0 else 10 * DigitsValue(s[..|s| - 1]) + DigitVal(s[|s| - 1])
  }

  /** `n` copies of `c`, i.e. `''.padEnd(n, c)`. */
  function Repeat(c: char, n: nat): (r: string)
    ensures |r| == n
    ensures forall i :: 0 <= i < n ==> r[i] == c
  {
    if n == 0 then [] else Repeat(c, n - 1) + [c]
  }

  /** `s.padStart(n, c)`: fill on the left up to length `n`; a string already
      that long is returned as it is. */
  function PadStart(s: string, n: int, c: char): (r: string)
    ensures |r| == if |s| < n then n else |s|
  {
    if n <= |s| then s else Repeat(c, n - |s|) + s
  }

  /** The first `k` characters of `pad` repeated forever. */
  function Cycle(pad: string, k: nat): (r: string)
    requires pad != []
    ensures |r| == k
    ensures forall i :: 0 <= i < k ==> r[i] == pad[i % |pad|]
  {
    seq(k, i requires 0 <= i < k => pad[i % |pad|])
  }

  /** `s.padEnd(n, pad)`: fill on the right with `pad` repeated and cut to
      length `n`; an empty `pad` or a string already that long leaves `s`. */
  function PadEnd(s: string, n: int, pad: string): (r: string)
    ensures |r| == if pad != [] && |s| < n then n else |s|
    ensures r[..|s|] == s
    ensures forall i :: |s| <= i < |r| ==> r[i] == pad[(i - |s|) % |pad|]
  {
    if pad == [] || n <= |s| then s else s + Cycle(pad, n - |s|)
  }

  /** `n.toString().padStart(2, '0')`. */
  function Pad2(n: nat): string {
    PadStart(NatString(n), 2, '0')
  }

  /** Strict string order `s < t` (character codes, shorter prefix first). */
  predicate LexLess(s: string, t: string) {
    if s == [] then t != []
    else if t == [] then false
    else s[0] < t[0] || (s[0] == t[0] && LexLess(s[1..], t[1..]))
  }

  // ---------------------------------------------------------------------
  // Digits and their values

  lemma {:induction false} NatStringValue(n: nat)
    ensures DigitsValue(NatString(n)) == n
  {
    if n >= 10 {
      var s := NatString(n);
      assert s[..|s| - 1] == NatString(n / 10);
      NatStringValue(n / 10);
    }
  }

  lemma {:induction false} NatStringLength(n: nat, k: nat)
    requires k >= 1
    ensures |NatString(n)| <= k <==> n < Pow10(k)
  {
    if n >= 10 {
      if k == 1 {
        assert |NatString(n)| >= 2 by { assert NatString(n) == NatString(n / 10) + [DigitChar(n % 10)]; }
      } else {
        NatStringLength(n / 10, k - 1);
      }
    }
  }

  lemma {:induction false} AllDigitsConcat(a: string, b: string)
    requires AllDigits(a) && AllDigits(b)
    ensures AllDigits(a + b)
  {
    forall i | 0 <= i < |a + b| ensures IsDigit((a + b)[i]) {
      if i < |a| { assert (a + b)[i] == a[i]; } else { assert (a + b)[i] == b[i - |a|]; }
    }
  }

  lemma {:induction false} DigitsValueConcat(a: string, b: string)
    requires AllDigits(a) && AllDigits(b)
    ensures AllDigits(a + b)
    ensures DigitsValue(a + b) == DigitsValue(a) * Pow10(|b|) + DigitsValue(b)
    decreases |b|
  {
    AllDigitsConcat(a, b);
    if b == [] {
      assert a + b == a;
    } else {
      var b' := b[..|b| - 1];
      var d := DigitVal(b[|b| - 1]);
      assert (a + b)[..|a + b| - 1] == a + b';
      assert DigitsValue(a + b) == 10 * DigitsValue(a + b') + d;
      DigitsValueConcat(a, b');
      ShiftDigit(DigitsValue(a), DigitsValue(b'), Pow10(|b'|), d);
    }
  }

  lemma {:induction false} ShiftDigit(x: nat, y: nat, p: nat, d: nat)
    ensures 10 * (x * p + y) + d == x * (10 * p) + (10 * y + d)
  {
  }

  /** Zeros put in front of a run of digits do not change its value. */
  lemma {:induction false} ZeroPadValue(s: string, n: int)
    requires AllDigits(s)
    ensures AllDigits(PadStart(s, n, '0')) && DigitsValue(PadStart(s, n, '0')) == DigitsValue(s)
  {
    if |s| < n {
      ZerosValue(n - |s|);
      DigitsValueConcat(Repeat('0', n - |s|), s);
    }
  }

  lemma {:induction false} ZerosValue(k: nat)
    ensures AllDigits(Repeat('0', k)) && DigitsValue(Repeat('0', k)) == 0
  {
    if k > 0 {
      assert Repeat('0', k)[..k - 1] == Repeat('0', k - 1);
      ZerosValue(k - 1);
    }
  }

  lemma {:induction false} DigitsValueBound(s: string)
    requires AllDigits(s)
    ensures DigitsValue(s) < Pow10(|s|)
  {
    if s != [] {
      DigitsValueBound(s[..|s| - 1]);
    }
  }

  /** Two digit strings of the same length compare as strings exactly as
      their values compare as numbers. */
  lemma {:induction false} LexLessDigits(s: string, t: string)
    requires AllDigits(s) && AllDigits(t) && |s| == |t|
    ensures LexLess(s, t) <==> DigitsValue(s) < DigitsValue(t)
  {
    if s != [] {
      var k := |s| - 1;
      DigitsValueConcat([s[0]], s[1..]);
      DigitsValueConcat([t[0]], t[1..]);
      assert [s[0]] + s[1..] == s;
      assert [t[0]] + t[1..] == t;
      assert DigitsValue([s[0]]) == DigitVal(s[0]) by { assert [s[0]][..0] == []; }
      assert DigitsValue([t[0]]) == DigitVal(t[0]) by { assert [t[0]][..0] == []; }
      DigitsValueBound(s[1..]);
      DigitsValueBound(t[1..]);
      LexLessDigits(s[1..], t[1..]);
      LeadingDigitDecides(DigitVal(s[0]), DigitVal(t[0]), DigitsValue(s[1..]), DigitsValue(t[1..]), Pow10(k));
    }
  }

  lemma {:induction false} LeadingDigitDecides(ds: nat, dt: nat, vs: nat, vt: nat, p: nat)
    requires vs < p && vt < p
    ensures ds < dt ==> ds * p + vs < dt * p + vt
    ensures ds > dt ==> ds * p + vs > dt * p + vt
  {
    if ds < dt {
      MulMono(ds + 1, dt, p);
    } else if ds > dt {
      MulMono(dt + 1, ds, p);
    }
  }

  lemma {:induction false} MulMono(a: nat, b: nat, p: nat)
    requires a <= b
    ensures a * p <= b * p
  {
  }

  /** Comparing two strings whose first parts have the same length decides on
      the first parts, and only on a tie looks at the rest. */
  lemma {:induction false} LexLessConcat(a: string, b: string, c: string, e: string)
    requires |a| == |c|
    ensures LexLess(a + b, c + e) <==> LexLess(a, c) || (a == c && LexLess(b, e))
  {
    if a != [] {
      assert (a + b)[1..] == a[1..] + b;
      assert (c + e)[1..] == c[1..] + e;
      LexLessConcat(a[1..], b, c[1..], e);
      if a[0] == c[0] && a[1..] == c[1..] {
        assert a == [a[0]] + a[1..] && c == [c[0]] + c[1..];
      }
    } else {
      assert a + b == b && c + e == e;
    }
  }

  lemma {:induction false} LexLessIrreflexive(s: string)
    ensures !LexLess(s, s)
  {
    if s != [] {
      LexLessIrreflexive(s[1..]);
    }
  }

  lemma {:induction false} Pad2Value(n: nat)
    requires n < 100
    ensures |Pad2(n)| == 2 && AllDigits(Pad2(n)) && DigitsValue(Pad2(n)) == n
  {
    NatStringValue(n);
    NatStringLength(n, 2);
    ZeroPadValue(NatString(n), 2);
  }
}
