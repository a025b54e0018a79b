/** Which resize arguments grow a disk. */
module Resize {
  import opened Text

  predicate IsUnit(c: char) {
    c == 'K' || c == 'M' || c == 'G' || c == 'T' || c == 'k' || c == 'm' || c == 'g' || c == 't'
  }

  /** The text before the optional unit. */
  function DigitsPart(value: string): string {
    if value != "" && IsUnit(value[|value| - 1]) then value[..|value| - 1] else value
  }

  /** `names_a_positive_amount`. */
  predicate NamesAPositiveAmount(value: string) {
    var digits := DigitsPart(value);
    var parts := SplitOnce(digits, '.');
    var whole := if parts.Some? then parts.value.0 else digits;
    && whole != "" && AllDigits(whole)
    && (parts.Some? ==> parts.value.1 != "" && AllDigits(parts.value.1))
    && exists i :: 0 <= i < |digits| && IsDigit(digits[i]) && digits[i] != '0'
  }

  /** `resize_shrinks`: only an explicit positive delta is a grow. */
  predicate ResizeShrinks(size: string) {
    var trimmed := Trim(size);
    if trimmed == "" || trimmed[0] != '+' then true else !NamesAPositiveAmount(trimmed[1..])
  }

  // ---- What such a text denotes ----------------------------------------------

  const UNITS: string := "KMGTkmgt"

  lemma UnitsMean(c: char)
    ensures IsUnit(c) <==> c in UNITS
  {
    var us := UNITS;
    assert us[0] == 'K' && us[1] == 'M' && us[2] == 'G' && us[3] == 'T';
    assert us[4] == 'k' && us[5] == 'm' && us[6] == 'g' && us[7] == 't';
  }

  /** `<whole>[.<fraction>][unit]`, all digits, nothing empty. */
  datatype Amount = Amount(whole: string, fraction: Option<string>, unit: Option<char>)

  predicate WellFormed(a: Amount) {
    && a.whole != "" && AllDigits(a.whole)
    && (a.fraction.Some? ==> a.fraction.value != "" && AllDigits(a.fraction.value))
    && (a.unit.Some? ==> a.unit.value in UNITS)
  }

  function Digits(a: Amount): string { a.whole + if a.fraction.Some? then ['.'] + a.fraction.value else [] }

  function Spelling(a: Amount): string { Digits(a) + if a.unit.Some? then [a.unit.value] else [] }

  function Pow10(n: nat): (r: real)
    ensures r > 0.0
  {
    if n == 0 then 1.0 else 10.0 * Pow10(n - 1)
  }

  function UnitBytes(unit: Option<char>): real {
    match unit
    case None => 1.0
    case Some(c) =>
      if c == 'K' || c == 'k' then 1024.0
      else if c == 'M' || c == 'm' then 1048576.0
      else if c == 'G' || c == 'g' then 1073741824.0
      else 1099511627776.0
  }

  /** The rational number of bytes an amount denotes. */
  function Bytes(a: Amount): real
    requires WellFormed(a)
  {
    (Decimal(a.whole) as real
     + if a.fraction.Some? then Decimal(a.fraction.value) as real / Pow10(|a.fraction.value|) else 0.0)
    * UnitBytes(a.unit)
  }

  predicate HasNonZero(s: string) { exists i :: 0 <= i < |s| && IsDigit(s[i]) && s[i] != '0' }

  lemma {:induction false} DecimalIsPositive(s: string)
    requires AllDigits(s)
    ensures Decimal(s) > 0 <==> HasNonZero(s)
  {
    if s != "" {
      var init, last := s[..|s| - 1], [s[|s| - 1]];
      DecimalIsPositive(init);
      HasNonZeroOfConcat(init, last);
      assert s == init + last && (last[0] != '0' ==> HasNonZero(last));
    }
  }

  lemma HasNonZeroOfConcat(s: string, t: string)
    ensures HasNonZero(s + t) <==> HasNonZero(s) || HasNonZero(t)
  {
    if HasNonZero(s) {
      var i :| 0 <= i < |s| && IsDigit(s[i]) && s[i] != '0';
      assert (s + t)[i] == s[i];
    }
    if HasNonZero(t) {
      var i :| 0 <= i < |t| && IsDigit(t[i]) && t[i] != '0';
      assert (s + t)[|s| + i] == t[i];
    }
    if HasNonZero(s + t) {
      var i :| 0 <= i < |s + t| && IsDigit((s + t)[i]) && (s + t)[i] != '0';
      if i < |s| { assert s[i] == (s + t)[i]; } else { assert t[i - |s|] == (s + t)[i]; }
    }
  }

  lemma Positive(n: nat, m: nat, p: real, u: real)
    requires p > 0.0 && u > 0.0
    ensures (n as real + m as real / p) * u > 0.0 <==> n > 0 || m > 0
  {
    if m > 0 { assert m as real / p > 0.0; } else { assert m as real / p == 0.0; }
  }

  /** An amount is worth something exactly when some digit of it is not zero. */
  lemma BytesIsPositive(a: Amount)
    requires WellFormed(a)
    ensures Bytes(a) > 0.0 <==> HasNonZero(Digits(a))
  {
    DecimalIsPositive(a.whole);
    var f := a.fraction.GetOr("");
    DecimalIsPositive(f);
    Positive(Decimal(a.whole), Decimal(f), Pow10(|f|), UnitBytes(a.unit));
    if a.fraction.Some? {
      HasNonZeroOfConcat(['.'], f);
      HasNonZeroOfConcat(a.whole, ['.'] + f);
      assert !HasNonZero(['.']);
    } else {
      assert Digits(a) == a.whole;
      assert Decimal("") == 0;
    }
  }

  /** The one way to read a text as an amount. */
  function Reading(value: string): Amount {
    var unit := if value != "" && IsUnit(value[|value| - 1]) then Some(value[|value| - 1]) else None;
    match SplitOnce(DigitsPart(value), '.')
    case Some((whole, fraction)) => Amount(whole, Some(fraction), unit)
    case None => Amount(DigitsPart(value), None, unit)
  }

  lemma ReadingOfSpelling(a: Amount)
    requires WellFormed(a)
    ensures Reading(Spelling(a)) == a
  {
    var value, digits := Spelling(a), Digits(a);
    if a.unit.Some? { UnitsMean(a.unit.value); }
    assert digits != "" && !IsUnit(digits[|digits| - 1]);
    if a.unit.Some? {
      assert value[..|value| - 1] == digits;
    } else {
      assert value == digits;
    }
    if a.fraction.Some? {
      assert digits == a.whole + ['.'] + a.fraction.value;
      SplitOnceFinds(a.whole, '.', a.fraction.value);
    } else {
      assert digits == a.whole;
    }
  }

  lemma DigitsOfReading(value: string)
    ensures Digits(Reading(value)) == DigitsPart(value)
  {
    var parts := SplitOnce(DigitsPart(value), '.');
    if parts.Some? {
      assert DigitsPart(value) == parts.value.0 + (['.'] + parts.value.1);
    }
  }

  lemma SpellingOfReading(value: string)
    ensures Spelling(Reading(value)) == value
  {
    DigitsOfReading(value);
  }

  lemma PositiveMeansWellFormedAndNonZero(value: string)
    ensures NamesAPositiveAmount(value) <==> WellFormed(Reading(value)) && HasNonZero(Digits(Reading(value)))
  {
    DigitsOfReading(value);
    if Reading(value).unit.Some? { UnitsMean(Reading(value).unit.value); }
    assert HasNonZero(DigitsPart(value)) <==> HasNonZero(Digits(Reading(value)));
  }

  /** A resize is let through exactly for `+` and an amount that denotes more than zero bytes. */
  lemma GrowsExactlyForPositiveDeltas(size: string)
    ensures !ResizeShrinks(size)
      <==> exists a: Amount :: WellFormed(a) && Trim(size) == ['+'] + Spelling(a) && Bytes(a) > 0.0
  {
    var trimmed := Trim(size);
    if !ResizeShrinks(size) {
      var a := Reading(trimmed[1..]);
      SpellingOfReading(trimmed[1..]);
      PositiveMeansWellFormedAndNonZero(trimmed[1..]);
      BytesIsPositive(a);
      assert trimmed == ['+'] + Spelling(a);
    }
    forall a: Amount | WellFormed(a) && trimmed == ['+'] + Spelling(a) && Bytes(a) > 0.0
      ensures !ResizeShrinks(size)
    {
      assert trimmed[1..] == Spelling(a);
      ReadingOfSpelling(a);
      PositiveMeansWellFormedAndNonZero(trimmed[1..]);
      BytesIsPositive(a);
    }
  }
}
