/**
 * LuhnValidator.validate: the card-number check. An absent or blank number is
 * rejected first; otherwise the number is trimmed, its separators are removed,
 * what remains must be a non-empty run of decimal digits of any script, and the
 * Luhn mod-10 checksum (ISO/IEC 7812-1, Annex B) decides between valid and failed.
 */
module LuhnValidator {
  import opened Wrappers
  import opened ValidationResults
  import opened JavaText
  import opened UnicodeDigits

  /** The one success result, shared by every valid number. */
  const ValidResult: ValidationResult := ResultFor(Valid)

  /** The permitted separators: space, hyphen, underscore and period. */
  predicate IsSeparator(c: char)
  {
    c == ' ' || c == '-' || c == '_' || c == '.'
  }

  /** Removing every separator, as the regular-expression replacement does. */
  function StripSeparators(s: string): (r: string)
    ensures |r| <= |s|
    ensures forall i :: 0 <= i < |r| ==> !IsSeparator(r[i])
  {
    if s == [] then []
    else (if IsSeparator(s[0]) then [] else [s[0]]) + StripSeparators(s[1..])
  }

  /** Exactly the characters that are not separators survive stripping. */
  lemma {:induction false} StripMembers(s: string)
    ensures forall c :: c in StripSeparators(s) <==> c in s && !IsSeparator(c)
  {
    if s != [] {
      StripMembers(s[1..]);
      assert s == [s[0]] + s[1..];
    }
  }

  /** Stripping works piece by piece, so what survives keeps its relative order. */
  lemma {:induction false} StripConcat(a: string, b: string)
    ensures StripSeparators(a + b) == StripSeparators(a) + StripSeparators(b)
  {
    if a == [] {
      assert a + b == b;
    } else {
      assert (a + b)[0] == a[0];
      assert (a + b)[1..] == a[1..] + b;
      StripConcat(a[1..], b);
    }
  }

  /** A string without separators is left as it is. */
  lemma {:induction false} StripNoSeparators(s: string)
    requires forall i :: 0 <= i < |s| ==> !IsSeparator(s[i])
    ensures StripSeparators(s) == s
  {
    if s != [] {
      StripNoSeparators(s[1..]);
    }
  }

  /** Stripping twice is stripping once. */
  lemma StripIdempotent(s: string)
    ensures StripSeparators(StripSeparators(s)) == StripSeparators(s)
  {
    StripNoSeparators(StripSeparators(s));
  }

  /** The working string: trimmed, then stripped of separators. */
  function Normalize(s: string): string
  {
    StripSeparators(Trim(s))
  }

  /** Every character is a decimal digit of some script. */
  predicate AllDigits(s: string)
  {
    forall i :: 0 <= i < |s| ==> IsDigit(s[i])
  }

  /** StringUtils.isNumeric: non-empty and all digits. */
  predicate IsNumeric(s: string)
  {
    |s| > 0 && AllDigits(s)
  }

  /** A decimal digit value. */
  type Digit = d: nat | d < 10

  /** The numeric values of a string of digits, in the same order. */
  function Values(s: string): (v: seq<Digit>)
    requires AllDigits(s)
    ensures |v| == |s|
    ensures forall i :: 0 <= i < |s| ==> v[i] == DigitValue(s[i])
  {
    if s == [] then [] else [DigitValue(s[0]) as Digit] + Values(s[1..])
  }

  /**
   * What a doubled digit contributes under ISO/IEC 7812-1 Annex B: the product,
   * with 9 subtracted once it exceeds 9 (the sum of its two decimal digits).
   */
  function Doubled(d: Digit): (r: Digit)
  {
    if 2 * d > 9 then 2 * d - 9 else 2 * d
  }

  /** Doubling distinct digits gives distinct contributions. */
  lemma DoubledInjective(a: Digit, b: Digit)
    requires Doubled(a) == Doubled(b)
    ensures a == b
  {
  }

  /**
   * The reference Luhn sum. ds lists the digits from the check digit leftwards:
   * the first of every pair is added as it is, the second is doubled.
   */
  function LuhnSum(ds: seq<Digit>): nat
  {
    if |ds| == 0 then 0
    else if |ds| == 1 then ds[0]
    else ds[0] + Doubled(ds[1]) + LuhnSum(ds[2..])
  }

  /** What the digit at 0-based index i from the right contributes to the Luhn sum. */
  function Weight(i: nat, d: Digit): Digit
  {
    if i % 2 == 0 then d else Doubled(d)
  }

  /** A digit placed further left contributes by the parity of its position. */
  lemma {:induction false} LuhnSumSnoc(ds: seq<Digit>, x: Digit)
    ensures LuhnSum(ds + [x]) == LuhnSum(ds) + Weight(|ds|, x)
    decreases |ds|
  {
    if |ds| >= 2 {
      assert (ds + [x])[2..] == ds[2..] + [x];
      LuhnSumSnoc(ds[2..], x);
    }
  }

  /** Updating past the dropped front is updating what remains. */
  lemma DropUpdate<T>(s: seq<T>, k: nat, i: nat, x: T)
    requires k <= i < |s|
    ensures s[i := x][k..] == s[k..][i - k := x]
  {
  }

  /** Changing one digit changes the Luhn sum by the change in that digit's weight. */
  lemma {:induction false} LuhnSumUpdate(ds: seq<Digit>, i: nat, x: Digit)
    requires i < |ds|
    ensures LuhnSum(ds[i := x]) == LuhnSum(ds) - Weight(i, ds[i]) + Weight(i, x)
    decreases |ds|
  {
    if i >= 2 {
      DropUpdate(ds, 2, i, x);
      LuhnSumUpdate(ds[2..], i - 2, x);
    }
  }

  /** A string of digits passes the Luhn check: its Luhn sum, read from the right, is a multiple of 10. */
  predicate PassesLuhn(digits: string)
    requires AllDigits(digits)
  {
    LuhnSum(Reverse(Values(digits))) % 10 == 0
  }

  /**
   * Digit-summing the decimal text of a doubled digit, as the source does for
   * every doubled digit: 2d for d up to 4, 2d - 9 from 5 on, never above 9.
   */
  lemma DoubledDigitSum(d: Digit)
    ensures DigitCharSum(DecimalString(2 * d)) == (if d <= 4 then 2 * d else 2 * d - 9)
    ensures DigitCharSum(DecimalString(2 * d)) == Doubled(d) <= 9
  {
    var s := DecimalString(2 * d);
    if d >= 5 {
      assert s == DecimalString(1) + [AsciiDigit(2 * d - 10)];
      assert s == ['1', AsciiDigit(2 * d - 10)];
      assert s[1..] == [AsciiDigit(2 * d - 10)];
      assert DigitCharSum(s[1..]) == 2 * d - 10 + DigitCharSum(s[1..][1..]);
    } else {
      assert s == [AsciiDigit(2 * d)];
      assert DigitCharSum(s) == 2 * d + DigitCharSum(s[1..]);
    }
  }

  /**
   * What the stream contributes at index i of the reversed number: the digit's
   * value, digit-summed after doubling when i + 1 is even.
   */
  function Term(i: nat, c: char): (t: int)
    requires IsDigit(c)
    ensures t == Weight(i, DigitValue(c))
  {
    var digit: Digit := DigitValue(c);
    if (i + 1) % 2 == 0 then
      assert i % 2 == 1;
      DoubledDigitSum(digit);
      DigitCharSum(DecimalString(digit * 2))
    else
      assert i % 2 == 0;
      digit
  }

  /** The sum of the stream's terms over the indices 0 .. n-1 of the reversed number. */
  function RangeSum(reversed: string, n: nat): int
    requires n <= |reversed| && AllDigits(reversed)
  {
    if n == 0 then 0 else RangeSum(reversed, n - 1) + Term(n - 1, reversed[n - 1])
  }

  /** A prefix one longer is the shorter prefix followed by one more element. */
  lemma PrefixSnoc<T>(s: seq<T>, n: nat)
    requires 0 < n <= |s|
    ensures s[..n] == s[..n - 1] + [s[n - 1]]
  {
  }

  /** The stream's index-by-index sum over a reversed number is the reference Luhn sum. */
  lemma {:induction false} RangeSumIsLuhnSum(reversed: string, n: nat)
    requires n <= |reversed| && AllDigits(reversed)
    ensures RangeSum(reversed, n) == LuhnSum(Values(reversed)[..n])
  {
    if n > 0 {
      var v := Values(reversed);
      RangeSumIsLuhnSum(reversed, n - 1);
      PrefixSnoc(v, n);
      LuhnSumSnoc(v[..n - 1], v[n - 1]);
    }
  }

  /** Reading the values of the reversed string is reversing the values. */
  lemma ReverseValues(s: string)
    requires AllDigits(s)
    ensures AllDigits(Reverse(s)) && Values(Reverse(s)) == Reverse(Values(s))
  {
    var r := Reverse(s);
    forall i | 0 <= i < |r|
      ensures IsDigit(r[i])
    {
      assert r[i] == s[|s| - 1 - i];
    }
    var v, w := Values(r), Reverse(Values(s));
    forall i | 0 <= i < |r|
      ensures v[i] == w[i]
    {
      assert r[i] == s[|s| - 1 - i];
    }
  }

  /** The validator. None stands for a null reference. */
  function Validate(cardNumber: Option<string>): (r: ValidationResult)
    ensures Consistent(r)
    ensures r.validationSucceeded ==> r == ValidResult
    ensures r.resultCode == NumberEmpty <==> cardNumber.None? || IsBlank(cardNumber.value)
    ensures r.resultCode == InvalidFormat <==>
      cardNumber.Some? && !IsBlank(cardNumber.value) && !IsNumeric(Normalize(cardNumber.value))
    ensures r.resultCode == Valid <==>
      && cardNumber.Some? && !IsBlank(cardNumber.value)
      && IsNumeric(Normalize(cardNumber.value)) && PassesLuhn(Normalize(cardNumber.value))
  {
    if cardNumber.None? || IsBlank(cardNumber.value) then ResultFor(NumberEmpty)
    else
      var number := Normalize(cardNumber.value);
      if !IsNumeric(number) then ResultFor(InvalidFormat)
      else
        var reversed := Reverse(number);
        ReverseValues(number);
        var luhnResult := RangeSum(reversed, |reversed|);
        RangeSumIsLuhnSum(reversed, |reversed|);
        assert Values(reversed)[..|reversed|] == Values(reversed);
        if luhnResult % 10 == 0 then ValidResult else ResultFor(NumberFailedValidation)
  }

  /** No digit of any script is white space, trimmable or a separator. */
  lemma DigitIsSignificant(c: char)
    requires IsDigit(c)
    ensures !IsWhitespace(c) && !IsTrimmable(c) && !IsSeparator(c)
  {
    DigitRange(c);
  }

  /** A non-empty string of digits is not blank, and normalizing leaves it as it is. */
  lemma NumericIsNormal(s: string)
    requires IsNumeric(s)
    ensures !IsBlank(s) && Normalize(s) == s
  {
    DigitIsSignificant(s[0]);
    DigitIsSignificant(s[|s| - 1]);
    TrimUntrimmable(s);
    forall i | 0 <= i < |s|
      ensures !IsSeparator(s[i])
    {
      DigitIsSignificant(s[i]);
    }
    StripNoSeparators(s);
  }

  /** On a non-empty string of digits the outcome is the Luhn check alone. */
  lemma ValidateNumeric(s: string)
    requires IsNumeric(s)
    ensures Validate(Some(s)) == if PassesLuhn(s) then ValidResult else ResultFor(NumberFailedValidation)
  {
    NumericIsNormal(s);
  }

  /**
   * A character that survives trimming and is neither white space, a separator
   * nor a digit makes the number malformed; no checksum is computed.
   */
  lemma NonDigitRejected(s: string, i: nat)
    requires i < |s|
    requires !IsTrimmable(s[i]) && !IsWhitespace(s[i]) && !IsSeparator(s[i]) && !IsDigit(s[i])
    ensures Validate(Some(s)) == ResultFor(InvalidFormat)
  {
    var b := TrimBounds(s);
    assert b.0 <= i < b.1;
    assert Trim(s)[i - b.0] == s[i];
    var n := Normalize(s);
    StripMembers(Trim(s));
    assert s[i] in n;
    var j :| 0 <= j < |n| && n[j] == s[i];
    assert !IsDigit(n[j]);
  }

  /** A string of separators strips to nothing. */
  lemma {:induction false} StripAllSeparators(s: string)
    requires forall i :: 0 <= i < |s| ==> IsSeparator(s[i])
    ensures StripSeparators(s) == []
  {
    if s != [] {
      StripAllSeparators(s[1..]);
    }
  }

  /**
   * A non-blank input made only of separators strips to the empty string,
   * which is not numeric.
   */
  lemma OnlySeparatorsRejected(s: string)
    requires !IsBlank(s)
    requires forall i :: 0 <= i < |s| ==> IsSeparator(s[i])
    ensures Validate(Some(s)) == ResultFor(InvalidFormat)
  {
    var b := TrimBounds(s);
    forall i | 0 <= i < |Trim(s)|
      ensures IsSeparator(Trim(s)[i])
    {
      assert Trim(s)[i] == s[b.0 + i];
    }
    StripAllSeparators(Trim(s));
  }

  /** A sequence is its three slices at lo and hi put back together. */
  lemma SplitThree<T>(s: seq<T>, lo: nat, hi: nat)
    requires lo <= hi <= |s|
    ensures s == s[..lo] + (s[lo..hi] + s[hi..])
  {
  }

  /** What strips to nothing on either side of a slice strips away. */
  lemma StripInner(s: string, lo: nat, hi: nat)
    requires lo <= hi <= |s|
    requires StripSeparators(s[..lo]) == [] && StripSeparators(s[hi..]) == []
    ensures StripSeparators(s[lo..hi]) == StripSeparators(s)
  {
    SplitThree(s, lo, hi);
    StripConcat(s[..lo], s[lo..hi] + s[hi..]);
    StripConcat(s[lo..hi], s[hi..]);
  }

  /** When every trimmable character is a separator, what trimming cuts off the front strips to nothing. */
  lemma TrimmedFrontStrips(s: string)
    requires forall k :: 0 <= k < |s| && IsTrimmable(s[k]) ==> IsSeparator(s[k])
    ensures StripSeparators(s[..TrimBounds(s).0]) == []
  {
    var front := s[..TrimBounds(s).0];
    forall k | 0 <= k < |front|
      ensures IsSeparator(front[k])
    {
      assert front[k] == s[k];
    }
    StripAllSeparators(front);
  }

  /** When every trimmable character is a separator, what trimming cuts off the back strips to nothing. */
  lemma TrimmedBackStrips(s: string)
    requires forall k :: 0 <= k < |s| && IsTrimmable(s[k]) ==> IsSeparator(s[k])
    ensures StripSeparators(s[TrimBounds(s).1..]) == []
  {
    var hi := TrimBounds(s).1;
    var back := s[hi..];
    forall k | 0 <= k < |back|
      ensures IsSeparator(back[k])
    {
      assert back[k] == s[hi + k];
    }
    StripAllSeparators(back);
  }

  /** When every trimmable character is a separator, trimming first makes no difference. */
  lemma TrimBeforeStrip(s: string)
    requires forall k :: 0 <= k < |s| && IsTrimmable(s[k]) ==> IsSeparator(s[k])
    ensures Normalize(s) == StripSeparators(s)
  {
    TrimmedFrontStrips(s);
    TrimmedBackStrips(s);
    StripInner(s, TrimBounds(s).0, TrimBounds(s).1);
  }

  /** What strips down to a string of digits held only digits and separators. */
  lemma StrippedToDigits(s: string, d: string)
    requires IsNumeric(d) && StripSeparators(s) == d
    ensures forall k :: 0 <= k < |s| ==> IsSeparator(s[k]) || IsDigit(s[k])
    ensures !IsBlank(s)
  {
    StripMembers(s);
    forall k | 0 <= k < |s|
      ensures IsSeparator(s[k]) || IsDigit(s[k])
    {
      if !IsSeparator(s[k]) {
        assert s[k] in d;
      }
    }
    assert d[0] in s;
    var j :| 0 <= j < |s| && s[j] == d[0];
    assert !IsWhitespace(s[j]) by {
      DigitIsSignificant(d[0]);
    }
  }

  /**
   * Separators anywhere in a number of digits change nothing: a string that
   * strips down to the digits d validates exactly as d does.
   */
  lemma SeparatorsIgnored(s: string, d: string)
    requires IsNumeric(d) && StripSeparators(s) == d
    ensures Validate(Some(s)) == Validate(Some(d))
  {
    NumericIsNormal(d);
    StrippedToDigits(s, d);
    forall k | 0 <= k < |s| && IsTrimmable(s[k])
      ensures IsSeparator(s[k])
    {
      if IsDigit(s[k]) {
        DigitIsSignificant(s[k]);
      }
    }
    TrimBeforeStrip(s);
  }

  /** Two numbers of digits with the same values, whatever their scripts, validate alike. */
  lemma ValidateDependsOnValues(a: string, b: string)
    requires IsNumeric(a) && IsNumeric(b) && Values(a) == Values(b)
    ensures Validate(Some(a)) == Validate(Some(b))
  {
    ValidateNumeric(a);
    ValidateNumeric(b);
  }

  /** The digits of s written in script k instead. */
  function Transcribe(s: string, k: nat): (r: string)
    requires AllDigits(s) && k < ScriptCount
    ensures |r| == |s| && AllDigits(r) && Values(r) == Values(s)
    ensures forall i :: 0 <= i < |r| ==> ScriptOf(r[i]) == Some(k)
    ensures forall i :: 0 <= i < |r| ==> r[i] as int == ScriptZero(k) + DigitValue(s[i])
  {
    if s == [] then [] else [DigitChar(k, DigitValue(s[0]))] + Transcribe(s[1..], k)
  }

  /** Re-encoding a number of digits in any other script gives the same outcome. */
  lemma ScriptIndependent(s: string, k: nat)
    requires IsNumeric(s) && k < ScriptCount
    ensures Validate(Some(Transcribe(s, k))) == Validate(Some(s))
  {
    ValidateDependsOnValues(Transcribe(s, k), s);
  }

  /** Two digit sequences that differ in one place cannot both have a Luhn sum divisible by 10. */
  lemma LuhnSumSingleChange(ds: seq<Digit>, p: nat, x: Digit)
    requires p < |ds| && x != ds[p]
    ensures LuhnSum(ds) % 10 != 0 || LuhnSum(ds[p := x]) % 10 != 0
  {
    LuhnSumUpdate(ds, p, x);
    var before: int, after: int := Weight(p, ds[p]), Weight(p, x);
    if p % 2 == 1 && before == after {
      DoubledInjective(ds[p], x);
    }
    ShiftBreaksMultiple(LuhnSum(ds), after - before);
  }

  /** Moving a multiple of 10 by a non-zero amount under 10 leaves the multiples of 10. */
  lemma ShiftBreaksMultiple(n: int, e: int)
    requires -10 < e < 10 && e != 0
    ensures n % 10 != 0 || (n + e) % 10 != 0
  {
    if n % 10 == 0 {
      assert n == 10 * (n / 10);
      assert (n + e) % 10 == (10 * (n / 10) + e) % 10;
    }
  }

  /** Reversing commutes with updating one element, at the mirrored index. */
  lemma ReverseUpdate<T>(s: seq<T>, i: nat, x: T)
    requires i < |s|
    ensures Reverse(s[i := x]) == Reverse(s)[|s| - 1 - i := x]
  {
    var l, r := Reverse(s[i := x]), Reverse(s)[|s| - 1 - i := x];
    forall q | 0 <= q < |s|
      ensures l[q] == r[q]
    {
    }
  }

  /** Two numbers that differ only in digit i have values that differ only at i. */
  lemma ValuesDifferAt(a: string, b: string, i: nat)
    requires AllDigits(a) && AllDigits(b) && |a| == |b| && i < |a|
    requires forall j :: 0 <= j < |a| && j != i ==> DigitValue(a[j]) == DigitValue(b[j])
    ensures Values(b) == Values(a)[i := DigitValue(b[i])]
  {
  }

  /**
   * The Luhn check detects every single-digit error: two numbers of digits that
   * differ in the value of exactly one digit cannot both be valid.
   */
  lemma SingleDigitErrorDetected(a: string, b: string, i: nat)
    requires IsNumeric(a) && IsNumeric(b) && |a| == |b| && i < |a|
    requires forall j :: 0 <= j < |a| && j != i ==> DigitValue(a[j]) == DigitValue(b[j])
    requires DigitValue(a[i]) != DigitValue(b[i])
    ensures !(Validate(Some(a)).validationSucceeded && Validate(Some(b)).validationSucceeded)
  {
    ValuesDifferAt(a, b, i);
    ReversedSingleChange(Values(a), i, DigitValue(b[i]));
    ValidateNumeric(a);
    ValidateNumeric(b);
  }

  /** Changing one digit, wherever it sits, breaks a Luhn sum that was a multiple of 10. */
  lemma ReversedSingleChange(ds: seq<Digit>, i: nat, x: Digit)
    requires i < |ds| && x != ds[i]
    ensures LuhnSum(Reverse(ds)) % 10 != 0 || LuhnSum(Reverse(ds[i := x])) % 10 != 0
  {
    ReverseUpdate(ds, i, x);
    LuhnSumSingleChange(Reverse(ds), |ds| - 1 - i, x);
  }
}
