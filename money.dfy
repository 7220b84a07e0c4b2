/** Money arithmetic over exact rationals: mathjs `round(x, d)` and
    `Number.prototype.toFixed(2)`, both of which round halves away from
    zero when computed exactly. */
module Money {
  import opened Text

  function Scale(d: nat): (p: real)
    ensures p >= 1.0
  {
    Pow10(d) as real
  }

  /** `round(x, d)`: `x` to `d` decimals, halves away from zero. */
  function RoundTo(x: real, d: nat): real {
    if x >= 0.0 then RoundHalfUp(x, d) else -RoundHalfUp(-x, d)
  }

  function RoundHalfUp(m: real, d: nat): real {
    ((m * Scale(d) + 0.5).Floor as real) / Scale(d)
  }

  /** The whole number of cents `toFixed(2)` shows for a non-negative
      amount: the nearest, the larger one on a tie. */
  function Cents(x: real): (c: nat)
    requires x >= 0.0
    ensures c as real - 0.5 <= x * 100.0 < c as real + 0.5
  {
    (x * 100.0 + 0.5).Floor
  }

  /** `c` cents written as `<whole>.<two digits>`. */
  function CentsString(c: nat): string {
    NatString(c / 100) + "." + Pad2(c % 100)
  }

  /** `x.toFixed(2)`: a minus sign for a negative amount (even one that
      rounds to zero), then the rounded magnitude with two decimals. */
  function Fixed2(x: real): string {
    if x < 0.0 then "-" + CentsString(Cents(-x)) else CentsString(Cents(x))
  }

  // ---------------------------------------------------------------------

  /** Rounding moves a value by at most half a unit of the last decimal. */
  lemma {:induction false} RoundError(x: real, d: nat)
    ensures x - 0.5 / Scale(d) <= RoundTo(x, d) <= x + 0.5 / Scale(d)
  {
    if x >= 0.0 {
      HalfUpError(x, d);
    } else {
      HalfUpError(-x, d);
    }
  }

  lemma {:induction false} HalfUpError(m: real, d: nat)
    ensures m - 0.5 / Scale(d) <= RoundHalfUp(m, d) <= m + 0.5 / Scale(d)
  {
    var p := Scale(d);
    var y := m * p + 0.5;
    var f := y.Floor as real;
    assert y - 1.0 < f <= y;
    DivBounds(f, y - 1.0, y, p);
    assert (y - 1.0) / p == m - 0.5 / p && y / p == m + 0.5 / p;
  }

  lemma {:induction false} DivBounds(f: real, lo: real, hi: real, p: real)
    requires p > 0.0 && lo <= f <= hi
    ensures lo / p <= f / p <= hi / p
  {
  }

  /** A two-decimal rounding is at most zero exactly when the value is below
      half a cent. */
  lemma {:induction false} RoundCentsNonPositive(x: real)
    ensures RoundTo(x, 2) <= 0.0 <==> x < 0.005
  {
    assert Scale(2) == 100.0;
    if x >= 0.0 {
      var f := (x * 100.0 + 0.5).Floor;
      assert f as real / 100.0 <= 0.0 <==> f <= 0;
    } else {
      var f := ((-x) * 100.0 + 0.5).Floor;
      assert f >= 0;
    }
  }

  /** The cents `toFixed(2)` shows are the two-decimal rounding, in cents. */
  lemma {:induction false} CentsRound(x: real)
    requires x >= 0.0
    ensures Cents(x) as real / 100.0 == RoundTo(x, 2)
  {
    assert Scale(2) == 100.0;
  }

  /** `toFixed(2)` of a non-negative amount reads back as a run of digits,
      a point, and exactly two digits, whose value is the rounded amount. */
  lemma {:induction false} Fixed2Shape(x: real) returns (w: string, f: string)
    requires x >= 0.0
    ensures Fixed2(x) == w + "." + f && |w| >= 1 && |f| == 2 && AllDigits(w) && AllDigits(f)
    ensures DigitsValue(w) * 100 + DigitsValue(f) == Cents(x)
    ensures Cents(x) as real / 100.0 == RoundTo(x, 2)
  {
    w, f := CentsStringShape(Cents(x));
    CentsRound(x);
  }

  /** A whole number of cents is written as its whole units, a point, and
      the remaining cents in two digits. */
  lemma {:induction false} CentsStringShape(c: nat) returns (w: string, f: string)
    ensures CentsString(c) == w + "." + f && |w| >= 1 && |f| == 2 && AllDigits(w) && AllDigits(f)
    ensures DigitsValue(w) * 100 + DigitsValue(f) == c
  {
    w, f := NatString(c / 100), Pad2(c % 100);
    Pad2Value(c % 100);
    NatStringValue(c / 100);
  }
}
