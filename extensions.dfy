/** The `Date.prototype` extensions of src/@types/extensions.ts: the
    `yyyy-MM-dd HH:mm:ss` timestamp string the database stores and the
    `yyyy-MM-dd` date string, both built from the UTC fields of a date. */
module Extensions {
  import opened Text

  /** The UTC fields of a JavaScript `Date`: `getUTCFullYear`, the 0-based
      `getUTCMonth`, `getUTCDate`, `getUTCHours`, `getUTCMinutes`,
      `getUTCSeconds`, `getUTCMilliseconds`. */
  datatype DateTime = DateTime(year: int, month: nat, day: nat, hour: nat,
                               minute: nat, second: nat, millisecond: nat)
  {
    /** The ranges a `Date` reports its fields in. */
    predicate Valid() {
      month < 12 && 1 <= day <= 31 && hour < 24 && minute < 60 && second < 60 && millisecond < 1000
    }

    predicate FourDigitYear() {
      1000 <= year <= 9999
    }
  }

  /** Chronological order at the resolution of a second. */
  predicate Before(a: DateTime, b: DateTime) {
    a.year < b.year || (a.year == b.year &&
    (a.month < b.month || (a.month == b.month &&
    (a.day < b.day || (a.day == b.day &&
    (a.hour < b.hour || (a.hour == b.hour &&
    (a.minute < b.minute || (a.minute == b.minute &&
    a.second < b.second)))))))))
  }

  predicate SameSecond(a: DateTime, b: DateTime) {
    a.year == b.year && a.month == b.month && a.day == b.day &&
    a.hour == b.hour && a.minute == b.minute && a.second == b.second
  }

  /** `toDatabaseString`: `yyyy-MM-dd HH:mm:ss` from the UTC fields, the
      month shifted to 1-based, every field but the year padded to two
      digits. The milliseconds are read by the source and then dropped. */
  function DatabaseString(d: DateTime): string {
    Stamp(IntString(d.year), Pad2(d.month + 1), Pad2(d.day), Pad2(d.hour), Pad2(d.minute), Pad2(d.second))
  }

  /** The template `${yyyy}-${MM}-${dd} ${HH}:${mm}:${ss}`. */
  function Stamp(yyyy: string, mo: string, dd: string, hh: string, mi: string, ss: string): string {
    yyyy + "-" + mo + "-" + dd + " " + hh + ":" + mi + ":" + ss
  }

  lemma {:induction false} StampSlices(yyyy: string, mo: string, dd: string, hh: string, mi: string, ss: string)
    requires |yyyy| == 4 && |mo| == 2 && |dd| == 2 && |hh| == 2 && |mi| == 2 && |ss| == 2
    ensures var r := Stamp(yyyy, mo, dd, hh, mi, ss);
      |r| == 19 && r[0..4] == yyyy && r[5..7] == mo && r[8..10] == dd &&
      r[11..13] == hh && r[14..16] == mi && r[17..19] == ss &&
      r[4] == '-' && r[7] == '-' && r[10] == ' ' && r[13] == ':' && r[16] == ':'
  {
  }

  lemma {:induction false} StampNested(yyyy: string, mo: string, dd: string, hh: string, mi: string, ss: string)
    ensures Stamp(yyyy, mo, dd, hh, mi, ss) ==
      yyyy + ("-" + (mo + ("-" + (dd + (" " + (hh + (":" + (mi + (":" + ss)))))))))
  {
  }

  /** `toUTCDate`: `yyyy-MM-dd` from the UTC fields. */
  function UTCDate(d: DateTime): string {
    DateStamp(IntString(d.year), Pad2(d.month + 1), Pad2(d.day))
  }

  /** The template `${yyyy}-${MM}-${dd}`. */
  function DateStamp(yyyy: string, mo: string, dd: string): string {
    yyyy + "-" + mo + "-" + dd
  }

  /** Reads the six fields back out of a 19-character timestamp string. */
  function ParseDatabaseString(s: string): (f: Option6)
  {
    if |s| == 19 && AllDigits(s[0..4]) && AllDigits(s[5..7]) && AllDigits(s[8..10]) &&
       AllDigits(s[11..13]) && AllDigits(s[14..16]) && AllDigits(s[17..19]) &&
       s[4] == '-' && s[7] == '-' && s[10] == ' ' && s[13] == ':' && s[16] == ':'
    then Fields(DigitsValue(s[0..4]), DigitsValue(s[5..7]), DigitsValue(s[8..10]),
                DigitsValue(s[11..13]), DigitsValue(s[14..16]), DigitsValue(s[17..19]))
    else Malformed
  }

  datatype Option6 = Malformed | Fields(year: nat, month: nat, day: nat, hour: nat, minute: nat, second: nat)

  // ---------------------------------------------------------------------

  lemma {:induction false} FourDigits(y: int)
    requires 1000 <= y <= 9999
    ensures IntString(y) == NatString(y) && |NatString(y)| == 4
    ensures DigitsValue(NatString(y)) == y
  {
    NatStringLength(y, 4);
    NatStringLength(y, 3);
    NatStringValue(y);
  }

  /** For a four-digit year the timestamp is 19 characters with its
      separators at fixed places, and each field reads back as the value it
      was built from; the month reads back in 1..12. */
  lemma {:induction false} DatabaseStringShape(d: DateTime)
    requires d.Valid() && d.FourDigitYear()
    ensures ParseDatabaseString(DatabaseString(d)) ==
            Fields(d.year, d.month + 1, d.day, d.hour, d.minute, d.second)
    ensures 1 <= ParseDatabaseString(DatabaseString(d)).month <= 12
  {
    var yyyy, mo, dd, hh, mi, ss := FieldsOf(d);
    StampSlices(yyyy, mo, dd, hh, mi, ss);
  }

  /** `toUTCDate` is always a prefix of `toDatabaseString`; for four-digit
      years of a valid date it is the first 10 characters. */
  lemma {:induction false} UTCDateIsPrefix(d: DateTime)
    ensures DatabaseString(d)[..|UTCDate(d)|] == UTCDate(d)
    ensures d.Valid() && d.FourDigitYear() ==> |UTCDate(d)| == 10
  {
    var yyyy, mo, dd := IntString(d.year), Pad2(d.month + 1), Pad2(d.day);
    DateThenTime(yyyy, mo, dd, Pad2(d.hour), Pad2(d.minute), Pad2(d.second));
    if d.Valid() && d.FourDigitYear() {
      FourDigits(d.year);
      Pad2Value(d.month + 1);
      Pad2Value(d.day);
      DateStampLength(yyyy, mo, dd);
    }
  }

  lemma {:induction false} DateStampLength(yyyy: string, mo: string, dd: string)
    ensures |DateStamp(yyyy, mo, dd)| == |yyyy| + |mo| + |dd| + 2
  {
  }

  lemma {:induction false} DateThenTime(yyyy: string, mo: string, dd: string, hh: string, mi: string, ss: string)
    ensures Stamp(yyyy, mo, dd, hh, mi, ss)[..|DateStamp(yyyy, mo, dd)|] == DateStamp(yyyy, mo, dd)
  {
    var date := DateStamp(yyyy, mo, dd);
    assert Stamp(yyyy, mo, dd, hh, mi, ss) == date + (" " + hh + ":" + mi + ":" + ss);
  }

  /** The milliseconds never reach the string. */
  lemma {:induction false} DatabaseStringIgnoresMilliseconds(d: DateTime, ms: nat)
    ensures DatabaseString(d.(millisecond := ms)) == DatabaseString(d)
  {
  }

  lemma {:induction false} FieldDecides(f1: nat, f2: nat, a1: string, a2: string, r1: string, r2: string)
    requires AllDigits(a1) && AllDigits(a2) && |a1| == |a2|
    requires DigitsValue(a1) == f1 && DigitsValue(a2) == f2
    ensures LexLess(a1 + r1, a2 + r2) <==> f1 < f2 || (f1 == f2 && LexLess(r1, r2))
  {
    LexLessConcat(a1, r1, a2, r2);
    LexLessDigits(a1, a2);
    if f1 == f2 {
      LexLessDigits(a2, a1);
      DigitsEqual(a1, a2);
    }
  }

  lemma {:induction false} DigitsEqual(a: string, b: string)
    requires AllDigits(a) && AllDigits(b) && |a| == |b|
    requires DigitsValue(a) == DigitsValue(b)
    ensures a == b
  {
    if a != [] {
      var a', b' := a[..|a| - 1], b[..|b| - 1];
      DigitsValueBound([a[|a| - 1]]);
      assert DigitsValue(a) == 10 * DigitsValue(a') + DigitVal(a[|a| - 1]);
      assert DigitsValue(b) == 10 * DigitsValue(b') + DigitVal(b[|b| - 1]);
      assert DigitVal(a[|a| - 1]) == DigitVal(b[|b| - 1]) && DigitsValue(a') == DigitsValue(b');
      DigitsEqual(a', b');
      assert a == a' + [a[|a| - 1]] && b == b' + [b[|b| - 1]];
    }
  }

  lemma {:induction false} SeparatorDecides(c: char, r1: string, r2: string)
    ensures LexLess([c] + r1, [c] + r2) <==> LexLess(r1, r2)
  {
    LexLessConcat([c], r1, [c], r2);
    LexLessIrreflexive([c]);
  }

  /** The six field strings `toDatabaseString` joins, with their widths
      and values. */
  lemma {:induction false} FieldsOf(d: DateTime) returns (yyyy: string, mo: string, dd: string, hh: string, mi: string, ss: string)
    requires d.Valid() && d.FourDigitYear()
    ensures DatabaseString(d) == Stamp(yyyy, mo, dd, hh, mi, ss)
    ensures |yyyy| == 4 && |mo| == 2 && |dd| == 2 && |hh| == 2 && |mi| == 2 && |ss| == 2
    ensures AllDigits(yyyy) && AllDigits(mo) && AllDigits(dd) && AllDigits(hh) && AllDigits(mi) && AllDigits(ss)
    ensures DigitsValue(yyyy) == d.year && DigitsValue(mo) == d.month + 1 && DigitsValue(dd) == d.day
    ensures DigitsValue(hh) == d.hour && DigitsValue(mi) == d.minute && DigitsValue(ss) == d.second
  {
    FourDigits(d.year);
    Pad2Value(d.month + 1);
    Pad2Value(d.day);
    Pad2Value(d.hour);
    Pad2Value(d.minute);
    Pad2Value(d.second);
    yyyy, mo, dd, hh, mi, ss := NatString(d.year), Pad2(d.month + 1), Pad2(d.day), Pad2(d.hour), Pad2(d.minute), Pad2(d.second);
  }

  /** Fixed-width digit fields joined by the template compare as strings
      exactly as the tuples of their values compare. */
  lemma {:induction false} StampOrder(y1: string, mo1: string, d1: string, h1: string, mi1: string, s1: string,
                   y2: string, mo2: string, d2: string, h2: string, mi2: string, s2: string)
    requires AllDigits(y1) && AllDigits(mo1) && AllDigits(d1) && AllDigits(h1) && AllDigits(mi1) && AllDigits(s1)
    requires AllDigits(y2) && AllDigits(mo2) && AllDigits(d2) && AllDigits(h2) && AllDigits(mi2) && AllDigits(s2)
    requires |y1| == |y2| && |mo1| == |mo2| && |d1| == |d2| && |h1| == |h2| && |mi1| == |mi2| && |s1| == |s2|
    ensures LexLess(Stamp(y1, mo1, d1, h1, mi1, s1), Stamp(y2, mo2, d2, h2, mi2, s2)) <==>
      Before(DateTime(DigitsValue(y1), DigitsValue(mo1), DigitsValue(d1), DigitsValue(h1), DigitsValue(mi1), DigitsValue(s1), 0),
             DateTime(DigitsValue(y2), DigitsValue(mo2), DigitsValue(d2), DigitsValue(h2), DigitsValue(mi2), DigitsValue(s2), 0))
  {
    var t5a: string, t5b: string := s1, s2;
    var t4a: string := mi1 + (":" + t5a);
    var t4b: string := mi2 + (":" + t5b);
    var t3a: string := h1 + (":" + t4a);
    var t3b: string := h2 + (":" + t4b);
    var t2a: string := d1 + (" " + t3a);
    var t2b: string := d2 + (" " + t3b);
    var t1a: string := mo1 + ("-" + t2a);
    var t1b: string := mo2 + ("-" + t2b);
    StampNested(y1, mo1, d1, h1, mi1, s1);
    StampNested(y2, mo2, d2, h2, mi2, s2);
    FieldDecides(DigitsValue(y1), DigitsValue(y2), y1, y2, "-" + t1a, "-" + t1b);
    SeparatorDecides('-', t1a, t1b);
    FieldDecides(DigitsValue(mo1), DigitsValue(mo2), mo1, mo2, "-" + t2a, "-" + t2b);
    SeparatorDecides('-', t2a, t2b);
    FieldDecides(DigitsValue(d1), DigitsValue(d2), d1, d2, " " + t3a, " " + t3b);
    SeparatorDecides(' ', t3a, t3b);
    FieldDecides(DigitsValue(h1), DigitsValue(h2), h1, h2, ":" + t4a, ":" + t4b);
    SeparatorDecides(':', t4a, t4b);
    FieldDecides(DigitsValue(mi1), DigitsValue(mi2), mi1, mi2, ":" + t5a, ":" + t5b);
    SeparatorDecides(':', t5a, t5b);
    assert s1 + [] == s1 && s2 + [] == s2;
    FieldDecides(DigitsValue(s1), DigitsValue(s2), s1, s2, [], []);
  }

  /** String order on timestamps (the order the database's range queries
      compare in) is chronological order, for valid four-digit-year dates. */
  lemma {:induction false} DatabaseStringOrder(a: DateTime, b: DateTime)
    requires a.Valid() && a.FourDigitYear() && b.Valid() && b.FourDigitYear()
    ensures LexLess(DatabaseString(a), DatabaseString(b)) <==> Before(a, b)
  {
    var y1, mo1, d1, h1, mi1, s1 := FieldsOf(a);
    var y2, mo2, d2, h2, mi2, s2 := FieldsOf(b);
    StampOrder(y1, mo1, d1, h1, mi1, s1, y2, mo2, d2, h2, mi2, s2);
    var a' := DateTime(a.year, a.month + 1, a.day, a.hour, a.minute, a.second, 0);
    var b' := DateTime(b.year, b.month + 1, b.day, b.hour, b.minute, b.second, 0);
    assert Before(a', b') <==> Before(a, b);
  }

  /** Two valid four-digit-year dates give the same timestamp string exactly
      when they agree to the second. */
  lemma {:induction false} DatabaseStringInjective(a: DateTime, b: DateTime)
    requires a.Valid() && a.FourDigitYear() && b.Valid() && b.FourDigitYear()
    ensures DatabaseString(a) == DatabaseString(b) <==> SameSecond(a, b)
  {
    if DatabaseString(a) == DatabaseString(b) {
      DatabaseStringOrder(a, b);
      DatabaseStringOrder(b, a);
      LexLessIrreflexive(DatabaseString(a));
    }
  }
}
