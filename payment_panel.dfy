/** The payment panel of src/renderer/components/PaymentPanel.tsx: the
    tender is typed on a digit keypad as a run of cents, shown with a
    decimal point two places from the right, and handed to the sale screen
    as a number. */
module PaymentPanel {
  import opened Wrappers
  import opened Text
  import opened Lists
  import opened Money

  /** The digits before the point is put in: shorter input is padded on the
      left with '0' to three characters. */
  function Padded(value: string): string {
    PadStart(value, 3, '0')
  }

  /** What `getDecimal(value)` returns: "0.00" for no input, otherwise the
      padded input with a point before its last two characters. */
  function Decimal(value: string): string {
    if value == "" then "0.00"
    else
      var p := Padded(value);
      p[..|p| - 2] + "." + p[|p| - 2..]
  }

  /** `getDecimal(value)` as written: while the input is shorter than three
      characters, a '0' is put in front, the loop bound being re-read from
      the growing string on every pass. */
  method GetDecimal(value: string) returns (r: string)
    ensures r == Decimal(value)
  {
    if value == "" {
      return "0.00";
    }
    var v := value;
    if |v| < 3 {
      var i := 0;
      while i <= 3 - |v|
        invariant v == Repeat('0', i) + value
        invariant i <= 3 - |value|
        decreases 3 - |v| - i + 1
      {
        v := "0" + v;
        i := i + 1;
      }
      assert i == 3 - |value|;
    }
    var integer := v[..|v| - 2];
    var decimal := v[|v| - 2..];
    r := integer + "." + decimal;
  }

  /** The text before and after the first `c` in `s`, or `None` when `s`
      has no `c`. */
  function SplitAt(s: string, c: char): (r: Option<(string, string)>)
    ensures r.None? <==> c !in s
    ensures r.Some? ==> s == r.value.0 + [c] + r.value.1 && c !in r.value.0
  {
    if s == [] then None
    else if s[0] == c then Some(([], s[1..]))
    else match SplitAt(s[1..], c)
      case None => None
      case Some(p) => Some(([s[0]] + p.0, p.1))
  }

  /** `s.replace(c, "")` for a one-character pattern: the first `c` taken
      out, nothing when there is none. */
  function RemoveFirst(s: string, c: char): (r: string)
    ensures c !in s ==> r == s
    ensures c in s ==> |r| == |s| - 1
    ensures c in s ==> exists k :: 0 <= k < |s| && s[k] == c && c !in s[..k] && r == s[..k] + s[k + 1..]
  {
    match SplitAt(s, c)
    case None => s
    case Some(p) =>
      var k := |p.0|;
      assert s[..k] == p.0 && s[k + 1..] == p.1;
      p.0 + p.1
  }

  /** A number written in decimal: `digits` with the point `decimals`
      places from the right. */
  datatype Numeral = Numeral(digits: nat, decimals: nat)
  {
    /** `digits` divided by ten `decimals` times. */
    function Value(): real
      decreases decimals
    {
      if decimals == 0 then digits as real else Numeral(digits, decimals - 1).Value() / 10.0
    }
  }

  /** `Number.parseFloat(s)` on a plain decimal numeral (digits with at
      most one point and at least one digit), kept as the exact decimal it
      denotes. Any other text is `None` here: the prefix parsing, signs and
      exponents of the real function are not modelled. */
  function ParseFloat(s: string): Option<Numeral> {
    match SplitAt(s, '.')
    case None => if s != "" && AllDigits(s) then Some(Numeral(DigitsValue(s), 0)) else None
    case Some(p) =>
      if AllDigits(p.0 + p.1) && p.0 + p.1 != "" then Some(Numeral(DigitsValue(p.0 + p.1), |p.1|))
      else None
  }

  /** The number the panel submits for a buffer: what the box shows, read
      as a number. */
  function Tender(input: string): Option<real> {
    match ParseFloat(Decimal(input))
    case None => None
    case Some(n) => Some(n.Value())
  }

  /** The keypad buffer when the panel opens: the amount already paid,
      written with two decimals and its point taken out, or nothing when
      there is no amount or it is zero. */
  function InitialInput(initialValue: Option<real>): string {
    if initialValue.None? || initialValue.value == 0.0 then ""
    else RemoveFirst(Fixed2(initialValue.value), '.')
  }

  /** The backspace key: the last character dropped, and a buffer of one
      character or none emptied. */
  function Backspaced(input: string): (r: string)
    ensures |input| > 1 ==> r == input[..|input| - 1]
    ensures |input| <= 1 ==> r == ""
  {
    if |input| > 1 then input[..|input| - 1] else ""
  }

  class PaymentPanel {
    var input: string

    constructor(initialValue: Option<real>)
      ensures input == InitialInput(initialValue)
    {
      input := InitialInput(initialValue);
    }

    /** A keypad button: its text is appended. */
    method KeyPress(key: string)
      modifies this
      ensures input == old(input) + key
    {
      input := input + key;
    }

    method Backspace()
      modifies this
      ensures input == Backspaced(old(input))
    {
      if |input| > 1 {
        input := input[..|input| - 1];
      } else {
        input := "";
      }
    }

    /** Typing into the text box replaces the buffer with the box's text. */
    method Edit(value: string)
      modifies this
      ensures input == value
    {
      input := value;
    }

    /** Either of the Debit and Credit buttons: the tender is the number the
      box shows. Neither button tells the handler which it was. */
    method Submit() returns (tender: Option<real>)
      ensures tender == Tender(input)
    {
      var shown := GetDecimal(input);
      var number := ParseFloat(shown);
      tender := if number.Some? then Some(number.value.Value()) else None;
    }
  }

  // ---------------------------------------------------------------------

  /** The shown text split at its point. */
  lemma {:induction false} DecimalParts(value: string) returns (w: string, f: string)
    requires value != ""
    ensures Decimal(value) == w + "." + f && w + f == Padded(value)
    ensures |f| == 2 && |w| == |Padded(value)| - 2 && |w| >= 1
  {
    var p := Padded(value);
    w, f := p[..|p| - 2], p[|p| - 2..];
    assert w + f == p;
  }

  /** The first `c` is found where it is. */
  lemma {:induction false} SplitAtFirst(w: string, c: char, f: string)
    requires c !in w
    ensures SplitAt(w + [c] + f, c) == Some((w, f))
  {
    if w != [] {
      assert (w + [c] + f)[1..] == w[1..] + [c] + f;
      SplitAtFirst(w[1..], c, f);
      assert [w[0]] + w[1..] == w;
    } else {
      assert (w + [c] + f)[1..] == f;
    }
  }

  lemma {:induction false} DigitsNoPoint(w: string)
    requires AllDigits(w)
    ensures '.' !in w
  {
    forall j | 0 <= j < |w| ensures w[j] != '.' {
      assert IsDigit(w[j]);
    }
  }

  /** Digits, a point and digits read as the numeral of all the digits with
      as many decimals as follow the point. */
  lemma {:induction false} ParseDecimal(w: string, f: string)
    requires AllDigits(w + f) && w + f != ""
    ensures ParseFloat(w + "." + f) == Some(Numeral(DigitsValue(w + f), |f|))
  {
    DigitsSplit(w, f);
    DigitsNoPoint(w);
    SplitAtFirst(w, '.', f);
  }

  /** The shown text is the padded input with one point put in two places
      from the right: one character longer, and taking the point out gives
      the padded input back. */
  lemma {:induction false} DecimalShape(value: string)
    requires value != ""
    ensures var r, p := Decimal(value), Padded(value);
      |r| == |p| + 1 && r[|r| - 3] == '.' &&
      r[..|r| - 3] + r[|r| - 2..] == p &&
      ('.' !in value ==> RemoveFirst(r, '.') == p)
  {
    var w, f := DecimalParts(value);
    PointShape(w, f);
    if '.' !in value {
      PaddedNoPoint(value, |w|);
      assert w == Padded(value)[..|w|];
      SplitAtFirst(w, '.', f);
    }
  }

  /** A point put in before the last two characters is third from the end,
      and the characters around it are those two parts. */
  lemma {:induction false} PointShape(w: string, f: string)
    requires |f| == 2
    ensures var r := w + "." + f;
      |r| == |w + f| + 1 && r[|r| - 3] == '.' && r[..|r| - 3] + r[|r| - 2..] == w + f
  {
    var r := w + "." + f;
    assert r[..|r| - 3] == w && r[|r| - 2..] == f;
  }

  /** Padding with zeros puts no point into a number without one. */
  lemma {:induction false} PaddedNoPoint(value: string, n: nat)
    requires '.' !in value && n <= |Padded(value)|
    ensures '.' !in Padded(value)[..n]
  {
    var p := Padded(value);
    forall j | 0 <= j < n ensures p[j] != '.' {
      if j >= |p| - |value| {
        assert p[j] == p[|p| - |value|..][j - (|p| - |value|)];
      }
    }
  }

  /** No input shows as "0.00", which reads as zero. */
  lemma {:induction false} EmptyShowsZero()
    ensures Decimal("") == "0.00" && ParseFloat(Decimal("")) == Some(Numeral(0, 2))
  {
    ParseDecimal("0", "00");
    assert "0" + "." + "00" == "0.00";
    assert "0" + "00" == Repeat('0', 3);
    ZerosValue(3);
  }

  /** Typed digits are read as cents: the submitted numeral is the digits'
      value with two decimals. */
  lemma {:induction false} TenderIsCents(value: string)
    requires AllDigits(value)
    ensures Tender(value) == Some(DigitsValue(value) as real / 100.0)
  {
    ShownNumeral(value);
    CentsValue(DigitsValue(value));
    TenderOfNumeral(value, Numeral(DigitsValue(value), 2));
  }

  lemma {:induction false} TenderOfNumeral(value: string, n: Numeral)
    requires ParseFloat(Decimal(value)) == Some(n)
    ensures Tender(value) == Some(n.Value())
  {
  }

  lemma {:induction false} CentsValue(n: nat)
    ensures Numeral(n, 2).Value() == n as real / 100.0
  {
    assert Numeral(n, 1).Value() == n as real / 10.0;
  }

  lemma {:induction false} ShownNumeral(value: string)
    requires AllDigits(value)
    ensures ParseFloat(Decimal(value)) == Some(Numeral(DigitsValue(value), 2))
  {
    if value == "" {
      EmptyShowsZero();
    } else {
      TypedTender(value);
    }
  }

  lemma {:induction false} TypedTender(value: string)
    requires AllDigits(value) && value != ""
    ensures ParseFloat(Decimal(value)) == Some(Numeral(DigitsValue(value), 2))
  {
    var w, f := DecimalParts(value);
    ZeroPadValue(value, 3);
    ParseDecimal(w, f);
  }

  /** Opening the panel on a positive paid amount and submitting at once
      tenders that amount rounded to the cent. */
  lemma {:induction false} InitialRoundTrip(v: real)
    requires v > 0.0
    ensures Tender(InitialInput(Some(v))) == Some(RoundTo(v, 2))
  {
    var input := PaidInput(v);
  }

  /** The buffer the panel opens with on a positive paid amount, and its
      tender. */
  lemma {:induction false} PaidInput(v: real) returns (input: string)
    requires v > 0.0
    ensures InitialInput(Some(v)) == input && Tender(input) == Some(RoundTo(v, 2))
  {
    var w, f := FixedParts(v);
    OpeningInput(v);
    CentsRound(v);
    CentsTender(w + f, Cents(v), RoundTo(v, 2));
    input := w + f;
  }

  lemma {:induction false} CentsTender(input: string, c: nat, y: real)
    requires AllDigits(input) && DigitsValue(input) == c && c as real / 100.0 == y
    ensures Tender(input) == Some(y)
  {
    TenderIsCents(input);
  }

  lemma {:induction false} OpeningInput(v: real)
    requires v > 0.0
    ensures InitialInput(Some(v)) == RemoveFirst(Fixed2(v), '.')
  {
  }

  /** `toFixed(2)` of a positive amount with its point taken out. */
  lemma {:induction false} FixedParts(v: real) returns (w: string, f: string)
    requires v > 0.0
    ensures RemoveFirst(Fixed2(v), '.') == w + f
    ensures AllDigits(w + f) && DigitsValue(w + f) == Cents(v)
  {
    w, f := Fixed2Shape(v);
    DigitsNoPoint(w);
    SplitAtFirst(w, '.', f);
    TwoDigitTail(w, f);
  }

  lemma {:induction false} TwoDigitTail(w: string, f: string)
    requires AllDigits(w) && AllDigits(f) && |f| == 2
    ensures AllDigits(w + f) && DigitsValue(w + f) == DigitsValue(w) * 100 + DigitsValue(f)
  {
    DigitsValueConcat(w, f);
    assert Pow10(|f|) == 100;
  }

  lemma {:induction false} DigitsSplit(w: string, f: string)
    requires AllDigits(w + f)
    ensures AllDigits(w) && AllDigits(f)
  {
    assert forall j :: 0 <= j < |w| ==> w[j] == (w + f)[j];
    assert forall j :: 0 <= j < |f| ==> f[j] == (w + f)[|w| + j];
  }

  /** A key typed and then taken back with backspace leaves the buffer as
      it was. */
  lemma {:induction false} BackspaceUndoesKey(input: string, c: char)
    ensures Backspaced(input + [c]) == input
  {
    if input != "" {
      assert (input + [c])[..|input|] == input;
    }
  }

  /** Digit keys keep the buffer a run of digits. */
  lemma {:induction false} KeysKeepDigits(input: string, c: char)
    requires AllDigits(input) && IsDigit(c)
    ensures AllDigits(input + [c]) && AllDigits(Backspaced(input))
  {
  }
}
