/**
 * The class comment's worked example and the test suite's cases, worked
 * through the model. Each outcome follows from the general lemmas of
 * LuhnValidator: a card number of digits is first shown to be the decimal
 * numeral of its value, one digit at a time, and its Luhn sum is computed
 * on that value two digits at a time, so the solver never evaluates the
 * whole pipeline on a literal.
 */
module LuhnVectors {
  import opened Wrappers
  import opened ValidationResults
  import opened JavaText
  import opened UnicodeDigits
  import opened LuhnValidator

  /**
   * s is the decimal numeral of n: ASCII digits, most significant first, no
   * leading zero. This says the same as s == DecimalString(n), as
   * NumeralIsDecimalString shows; it is written from the last digit so that
   * proofs unfold it one digit at a time, where DecimalString(n) on a large
   * literal n would have to be evaluated whole.
   */
  predicate Numeral(s: string, n: nat)
    decreases |s|
  {
    |s| > 0 && s[|s| - 1] as int == '0' as int + n % 10 &&
    if |s| == 1 then n < 10 else n >= 10 && Numeral(s[..|s| - 1], n / 10)
  }

  /** The numeral of n is what String.valueOf gives for n, and nothing else is. */
  lemma {:induction false} NumeralIsDecimalString(s: string, n: nat)
    ensures Numeral(s, n) <==> s == DecimalString(n)
    decreases |s|
  {
    if |s| > 1 {
      NumeralIsDecimalString(s[..|s| - 1], n / 10);
      assert s == s[..|s| - 1] + [s[|s| - 1]];
    }
    if s == DecimalString(n) && n >= 10 {
      assert s[..|s| - 1] == DecimalString(n / 10);
    }
  }

  /** Every character is one of the ASCII digits 0 to 9. */
  predicate AsciiDigits(s: string)
  {
    forall i :: 0 <= i < |s| ==> '0' <= s[i] <= '9'
  }

  /** The numeral of n is made of ASCII digits. */
  lemma {:induction false} NumeralAscii(s: string, n: nat)
    requires Numeral(s, n)
    ensures AsciiDigits(s)
    decreases |s|
  {
    if |s| > 1 {
      NumeralAscii(s[..|s| - 1], n / 10);
      assert forall i :: 0 <= i < |s| - 1 ==> s[i] == s[..|s| - 1][i];
    }
  }

  /**
   * The Luhn sum of the decimal digits of n, on integers: the units digit
   * as it is, the tens digit doubled, and so on leftwards in pairs.
   */
  function LuhnOfNumber(n: nat): nat
  {
    if n == 0 then 0 else n % 10 + Doubled((n / 10) % 10) + LuhnOfNumber(n / 100)
  }

  /** Division with remainder by 10, from a known quotient and remainder. */
  lemma DivMod10(n: int, q: int, r: int)
    requires n == 10 * q + r && 0 <= r < 10
    ensures n / 10 == q && n % 10 == r
  {
  }

  /** Division with remainder by 100, from a known quotient and remainder. */
  lemma DivMod100(n: int, q: int, r: int)
    requires n == 100 * q + r && 0 <= r < 100
    ensures n / 100 == q && n % 100 == r
  {
  }

  /** Dropping the last decimal digit twice drops the last two. */
  lemma DropTwoDigits(n: nat)
    ensures n / 10 / 10 == n / 100
  {
    var q, r := n / 10, n % 10;
    DivMod10(n, q, r);
    DivMod10(q, q / 10, q % 10);
    DivMod100(n, q / 10, 10 * (q % 10) + r);
  }

  /**
   * Appending two decimal digits b to the number a adds the Luhn contribution
   * of that pair: the units digit as it is, the tens digit doubled.
   */
  lemma Step(a: nat, b: nat)
    requires b < 100
    ensures LuhnOfNumber(100 * a + b) == LuhnOfNumber(a) + b % 10 + Doubled(b / 10)
  {
    var n := 100 * a + b;
    DivMod100(n, a, b);
    DivMod10(b, b / 10, b % 10);
    DivMod10(n, 10 * a + b / 10, b % 10);
    DivMod10(10 * a + b / 10, a, b / 10);
  }

  /** Read backwards, a sequence starts with its last two elements, then the rest read backwards. */
  lemma ReverseLastPair<T>(v: seq<T>)
    requires |v| >= 2
    ensures Reverse(v)[0] == v[|v| - 1] && Reverse(v)[1] == v[|v| - 2]
    ensures Reverse(v)[2..] == Reverse(v[..|v| - 2])
  {
    var m := |v|;
    var w, rest := Reverse(v), Reverse(v[..m - 2]);
    forall i | 0 <= i < |rest|
      ensures w[2..][i] == rest[i]
    {
      assert w[2..][i] == w[i + 2] == v[m - 3 - i];
      assert rest[i] == v[..m - 2][m - 3 - i];
    }
  }

  /** Reading digits from the right starts with the last two, the last one undoubled. */
  lemma LuhnSumLastPair(v: seq<Digit>)
    requires |v| >= 2
    ensures LuhnSum(Reverse(v)) == v[|v| - 1] + Doubled(v[|v| - 2]) + LuhnSum(Reverse(v[..|v| - 2]))
  {
    ReverseLastPair(v);
  }

  /** The numeral of n is numeric, its digits worth what their ASCII codes say. */
  lemma NumeralDigits(s: string, n: nat)
    requires Numeral(s, n)
    ensures IsNumeric(s)
    ensures forall i :: 0 <= i < |s| ==> Values(s)[i] == s[i] as int - '0' as int
  {
    NumeralAscii(s, n);
    forall i | 0 <= i < |s|
      ensures IsDigit(s[i]) && DigitValue(s[i]) == s[i] as int - '0' as int
    {
      AsciiIsDigit(s[i]);
    }
  }

  /**
   * The numeral of n ends in the units digit of n; with at least two digits
   * the tens digit of n comes before it, after the numeral of n / 100 when
   * that is not zero.
   */
  lemma NumeralChars(s: string, n: nat)
    requires Numeral(s, n)
    ensures s[|s| - 1] as int - '0' as int == n % 10
    ensures |s| == 1 ==> n < 10
    ensures |s| >= 2 ==> s[|s| - 2] as int - '0' as int == (n / 10) % 10
    ensures |s| == 2 ==> n / 100 == 0
    ensures |s| > 2 ==> Numeral(s[..|s| - 2], n / 100)
  {
    var m := |s|;
    if m >= 2 {
      var init := s[..m - 1];
      assert init[m - 2] == s[m - 2];
      DropTwoDigits(n);
      if m == 2 {
        DivMod10(n / 10, 0, n / 10);
      } else {
        assert init[..m - 2] == s[..m - 2];
      }
    }
  }

  /** The same, in digit values. */
  lemma NumeralLastPair(s: string, n: nat)
    requires Numeral(s, n)
    ensures IsNumeric(s) && Values(s)[|s| - 1] == n % 10
    ensures |s| == 1 ==> n < 10
    ensures |s| >= 2 ==> Values(s)[|s| - 2] == (n / 10) % 10
    ensures |s| == 2 ==> n / 100 == 0
    ensures |s| > 2 ==> Numeral(s[..|s| - 2], n / 100)
  {
    NumeralDigits(s, n);
    NumeralChars(s, n);
  }

  /** The numeral of n is numeric, and its Luhn sum is the one computed on n. */
  lemma {:induction false} NumeralLuhn(s: string, n: nat)
    requires Numeral(s, n)
    ensures IsNumeric(s) && LuhnSum(Reverse(Values(s))) == LuhnOfNumber(n)
    decreases |s|
  {
    NumeralLastPair(s, n);
    var v, m := Values(s), |s|;
    if m == 1 {
      assert Reverse(v) == [v[0]];
      DivMod10(n, 0, n);
      DivMod100(n, 0, n);
    } else {
      LuhnSumLastPair(v);
      if m > 2 {
        assert Values(s[..m - 2]) == v[..m - 2];
        NumeralLuhn(s[..m - 2], n / 100);
      }
    }
  }

  /** The outcome for the numeral of n follows from the Luhn sum computed on n. */
  lemma NumeralOutcome(s: string, n: nat)
    requires Numeral(s, n)
    ensures LuhnOfNumber(n) % 10 == 0 ==> Validate(Some(s)) == ValidResult
    ensures LuhnOfNumber(n) % 10 != 0 ==> Validate(Some(s)) == ResultFor(NumberFailedValidation)
  {
    NumeralLuhn(s, n);
    ValidateNumeric(s);
  }

  /** A single ASCII digit is the numeral of its value. */
  lemma NumeralDigit(c: char)
    requires '0' <= c <= '9'
    ensures Numeral([c], c as int - '0' as int)
  {
  }

  /** Appending a digit to the numeral of a positive n gives the numeral of 10 n plus that digit. */
  lemma NumeralSnoc(s: string, n: nat, c: char, t: string)
    requires Numeral(s, n) && n > 0 && '0' <= c <= '9' && t == s + [c]
    ensures Numeral(t, 10 * n + (c as int - '0' as int))
  {
    var d := c as int - '0' as int;
    assert t[..|t| - 1] == s;
    assert (10 * n + d) / 10 == n && (10 * n + d) % 10 == d;
  }

  /**
   * The test suite's convertToLocaleDigits: each ASCII digit of number moved
   * to the block of ten code points that starts at localeZero.
   */
  predicate ConvertedToLocale(s: string, number: string, localeZero: int)
  {
    |s| == |number| &&
    forall i :: 0 <= i < |s| ==> s[i] as int == number[i] as int - '0' as int + localeZero
  }

  /** Converting ASCII digits to the block of script k is transcribing them into script k. */
  lemma LocaleIsTranscription(s: string, number: string, k: nat)
    requires AsciiDigits(number)
    requires k < ScriptCount && ConvertedToLocale(s, number, ScriptZero(k))
    ensures AllDigits(number) && s == Transcribe(number, k)
  {
    forall i | 0 <= i < |number|
      ensures IsDigit(number[i]) && DigitValue(number[i]) == number[i] as int - '0' as int
    {
      AsciiIsDigit(number[i]);
    }
    var r := Transcribe(number, k);
    forall i | 0 <= i < |s|
      ensures s[i] == r[i]
    {
      assert r[i] as int == s[i] as int;
    }
  }

  /** A string of ASCII digits holds no separator. */
  lemma AsciiDigitsUnseparated(s: string)
    requires AsciiDigits(s)
    ensures StripSeparators(s) == s
  {
    StripNoSeparators(s);
  }

  /** A separator alone strips to nothing. */
  lemma StripSeparator(c: char)
    requires IsSeparator(c)
    ensures StripSeparators([c]) == []
  {
    assert [c][1..] == [];
  }

  /** Both halves of a string of ASCII digits are strings of ASCII digits. */
  lemma AsciiHalves(a: string, b: string)
    requires AsciiDigits(a + b)
    ensures AsciiDigits(a) && AsciiDigits(b)
  {
    assert forall i :: 0 <= i < |a| ==> a[i] == (a + b)[i];
    assert forall i :: 0 <= i < |b| ==> b[i] == (a + b)[|a| + i];
  }

  // The literal numbers, summed on integers two digits at a time.

  lemma Sum2378()
    ensures LuhnOfNumber(2378) == 20
  {
    Step(0, 23);
    Step(23, 78);
  }

  lemma Sum12378()
    ensures LuhnOfNumber(12378) == 21
  {
    Step(0, 1);
    Step(1, 23);
    Step(123, 78);
  }

  lemma Sum59()
    ensures LuhnOfNumber(59) == 10
  {
    Step(0, 59);
  }

  lemma Sum49927398716()
    ensures LuhnOfNumber(49927398716) == 70
  {
    Step(0, 4);
    Step(4, 99);
    Step(499, 27);
    Step(49927, 39);
    Step(4992739, 87);
    Step(499273987, 16);
  }

  lemma Sum59927398716()
    ensures LuhnOfNumber(59927398716) == 71
  {
    Step(0, 5);
    Step(5, 99);
    Step(599, 27);
    Step(59927, 39);
    Step(5992739, 87);
    Step(599273987, 16);
  }

  lemma Sum2220859221412918()
    ensures LuhnOfNumber(2220859221412918) == 70
  {
    Step(0, 22);
    Step(22, 20);
    Step(2220, 85);
    Step(222085, 92);
    Step(22208592, 21);
    Step(2220859221, 41);
    Step(222085922141, 29);
    Step(22208592214129, 18);
  }

  lemma Sum3220859221412918()
    ensures LuhnOfNumber(3220859221412918) == 72
  {
    Step(0, 32);
    Step(32, 20);
    Step(3220, 85);
    Step(322085, 92);
    Step(32208592, 21);
    Step(3220859221, 41);
    Step(322085922141, 29);
    Step(32208592214129, 18);
  }

  // The numerals of the test suite's numbers, built digit by digit.

  lemma Numeral59()
    ensures Numeral("59", 59)
  {
    NumeralDigit('5');
    NumeralSnoc("5", 5, '9', "59");
  }

  lemma Numeral2378()
    ensures Numeral("2378", 2378)
  {
    NumeralDigit('2');
    NumeralSnoc("2", 2, '3', "23");
    NumeralSnoc("23", 23, '7', "237");
    NumeralSnoc("237", 237, '8', "2378");
  }

  lemma Numeral12378()
    ensures Numeral("12378", 12378)
  {
    NumeralDigit('1');
    NumeralSnoc("1", 1, '2', "12");
    NumeralSnoc("12", 12, '3', "123");
    NumeralSnoc("123", 123, '7', "1237");
    NumeralSnoc("1237", 1237, '8', "12378");
  }

  lemma Numeral49927398716()
    ensures Numeral("49927398716", 49927398716)
  {
    NumeralDigit('4');
    NumeralSnoc("4", 4, '9', "49");
    NumeralSnoc("49", 49, '9', "499");
    NumeralSnoc("499", 499, '2', "4992");
    NumeralSnoc("4992", 4992, '7', "49927");
    NumeralSnoc("49927", 49927, '3', "499273");
    NumeralSnoc("499273", 499273, '9', "4992739");
    NumeralSnoc("4992739", 4992739, '8', "49927398");
    NumeralSnoc("49927398", 49927398, '7', "499273987");
    NumeralSnoc("499273987", 499273987, '1', "4992739871");
    NumeralSnoc("4992739871", 4992739871, '6', "49927398716");
  }

  lemma Numeral59927398716()
    ensures Numeral("59927398716", 59927398716)
  {
    NumeralDigit('5');
    NumeralSnoc("5", 5, '9', "59");
    NumeralSnoc("59", 59, '9', "599");
    NumeralSnoc("599", 599, '2', "5992");
    NumeralSnoc("5992", 5992, '7', "59927");
    NumeralSnoc("59927", 59927, '3', "599273");
    NumeralSnoc("599273", 599273, '9', "5992739");
    NumeralSnoc("5992739", 5992739, '8', "59927398");
    NumeralSnoc("59927398", 59927398, '7', "599273987");
    NumeralSnoc("599273987", 599273987, '1', "5992739871");
    NumeralSnoc("5992739871", 5992739871, '6', "59927398716");
  }

  lemma Numeral2220859221412918()
    ensures Numeral("2220859221412918", 2220859221412918)
  {
    NumeralDigit('2');
    NumeralSnoc("2", 2, '2', "22");
    NumeralSnoc("22", 22, '2', "222");
    NumeralSnoc("222", 222, '0', "2220");
    NumeralSnoc("2220", 2220, '8', "22208");
    NumeralSnoc("22208", 22208, '5', "222085");
    NumeralSnoc("222085", 222085, '9', "2220859");
    NumeralSnoc("2220859", 2220859, '2', "22208592");
    NumeralSnoc("22208592", 22208592, '2', "222085922");
    NumeralSnoc("222085922", 222085922, '1', "2220859221");
    NumeralSnoc("2220859221", 2220859221, '4', "22208592214");
    NumeralSnoc("22208592214", 22208592214, '1', "222085922141");
    NumeralSnoc("222085922141", 222085922141, '2', "2220859221412");
    NumeralSnoc("2220859221412", 2220859221412, '9', "22208592214129");
    NumeralSnoc("22208592214129", 22208592214129, '1', "222085922141291");
    NumeralSnoc("222085922141291", 222085922141291, '8', "2220859221412918");
  }

  lemma Numeral3220859221412918()
    ensures Numeral("3220859221412918", 3220859221412918)
  {
    NumeralDigit('3');
    NumeralSnoc("3", 3, '2', "32");
    NumeralSnoc("32", 32, '2', "322");
    NumeralSnoc("322", 322, '0', "3220");
    NumeralSnoc("3220", 3220, '8', "32208");
    NumeralSnoc("32208", 32208, '5', "322085");
    NumeralSnoc("322085", 322085, '9', "3220859");
    NumeralSnoc("3220859", 3220859, '2', "32208592");
    NumeralSnoc("32208592", 32208592, '2', "322085922");
    NumeralSnoc("322085922", 322085922, '1', "3220859221");
    NumeralSnoc("3220859221", 3220859221, '4', "32208592214");
    NumeralSnoc("32208592214", 32208592214, '1', "322085922141");
    NumeralSnoc("322085922141", 322085922141, '2', "3220859221412");
    NumeralSnoc("3220859221412", 3220859221412, '9', "32208592214129");
    NumeralSnoc("32208592214129", 32208592214129, '1', "322085922141291");
    NumeralSnoc("322085922141291", 322085922141291, '8', "3220859221412918");
  }

  // The outcomes.

  /** The class comment's example: 8 + (1 + 4) + 3 + 4 = 20, a multiple of 10. */
  lemma Example2378()
    ensures Validate(Some("2378")) == ValidResult
  {
    Numeral2378();
    Sum2378();
    NumeralOutcome("2378", 2378);
  }

  /** The class comment's counter-example: a leading 1 makes the sum 21. */
  lemma Example12378()
    ensures Validate(Some("12378")) == ResultFor(NumberFailedValidation)
  {
    Numeral12378();
    Sum12378();
    NumeralOutcome("12378", 12378);
  }

  /**
   * The doubling rule as the class comment words it: only a product over 10
   * has its two digits added, so a doubled 5 stays 10.
   */
  function CommentDoubled(d: Digit): nat
  {
    if 2 * d > 10 then 2 * d - 9 else 2 * d
  }

  /**
   * The comment's rule and the code's agree on every digit but 5. The Luhn
   * sum of 59 is 9 plus its doubled 5: 10 by the code, 19 by the comment.
   */
  lemma CommentRuleDiffersAtFive()
    ensures forall d: Digit :: CommentDoubled(d) == Doubled(d) <==> d != 5
    ensures LuhnOfNumber(59) == 9 + Doubled(5) == 10 && 9 + CommentDoubled(5) == 19
  {
    Sum59();
  }

  /** The code adds 1 + 0 for a doubled 5, so 59 passes; under the comment's rule it would fail. */
  lemma DoubledFive()
    ensures Validate(Some("59")) == ValidResult
  {
    Numeral59();
    Sum59();
    NumeralOutcome("59", 59);
  }

  /** The suite's testValid: 2378, 49927398716 and 2220859221412918 are valid. */
  lemma TestValid()
    ensures Validate(Some("2378")) == ValidResult
    ensures Validate(Some("49927398716")) == ValidResult
    ensures Validate(Some("2220859221412918")) == ValidResult
  {
    Example2378();
    Numeral49927398716();
    Numeral2220859221412918();
    Sum49927398716();
    Sum2220859221412918();
    NumeralOutcome("49927398716", 49927398716);
    NumeralOutcome("2220859221412918", 2220859221412918);
  }

  /** The suite's testInvalid: 59927398716, 12378 and 3220859221412918 fail, with sums 71, 21 and 72. */
  lemma TestInvalid()
    ensures Validate(Some("59927398716")) == ResultFor(NumberFailedValidation)
    ensures Validate(Some("12378")) == ResultFor(NumberFailedValidation)
    ensures Validate(Some("3220859221412918")) == ResultFor(NumberFailedValidation)
  {
    Example12378();
    Numeral59927398716();
    Numeral3220859221412918();
    Sum59927398716();
    Sum3220859221412918();
    NumeralOutcome("59927398716", 59927398716);
    NumeralOutcome("3220859221412918", 3220859221412918);
  }

  /** Groups left alone by stripping, with a separator between each two, strip to the groups joined. */
  lemma ThreeGroupsStrip(a: string, b: string, c: string, x: char, y: char)
    requires StripSeparators(a) == a && StripSeparators(b) == b && StripSeparators(c) == c
    requires IsSeparator(x) && IsSeparator(y)
    ensures StripSeparators(a + [x] + b + [y] + c) == a + b + c
  {
    StripConcat(a + [x] + b + [y], c);
    StripConcat(a + [x] + b, [y]);
    StripConcat(a + [x], b);
    StripConcat(a, [x]);
    StripSeparator(x);
    StripSeparator(y);
  }

  /** The same for four groups. */
  lemma FourGroupsStrip(a: string, b: string, c: string, e: string, x: char, y: char, z: char)
    requires StripSeparators(a) == a && StripSeparators(b) == b
    requires StripSeparators(c) == c && StripSeparators(e) == e
    requires IsSeparator(x) && IsSeparator(y) && IsSeparator(z)
    ensures StripSeparators(a + [x] + b + [y] + c + [z] + e) == a + b + c + e
  {
    ThreeGroupsStrip(a, b, c, x, y);
    StripConcat(a + [x] + b + [y] + c + [z], e);
    StripConcat(a + [x] + b + [y] + c, [z]);
    StripSeparator(z);
  }

  /**
   * A valid number's digits in three groups, with a space, hyphen, point or
   * underscore between them, as in 4992 7398 716 or 4992_7398_716.
   */
  lemma TestValidWithSeparators3(a: string, b: string, c: string, x: char, y: char)
    requires Numeral(a + b + c, 49927398716) && IsSeparator(x) && IsSeparator(y)
    ensures Validate(Some(a + [x] + b + [y] + c)) == ValidResult
  {
    NumeralAscii(a + b + c, 49927398716);
    AsciiHalves(a + b, c);
    AsciiHalves(a, b);
    AsciiDigitsUnseparated(a);
    AsciiDigitsUnseparated(b);
    AsciiDigitsUnseparated(c);
    ThreeGroupsStrip(a, b, c, x, y);
    NumeralLastPair(a + b + c, 49927398716);
    SeparatorsIgnored(a + [x] + b + [y] + c, a + b + c);
    Sum49927398716();
    NumeralOutcome(a + b + c, 49927398716);
  }

  /**
   * A valid number's digits in four groups, with separators between them,
   * alike or mixed, as in 2220 8592 2141 2918 or 2220_8592-2141_2918.
   */
  lemma TestValidWithSeparators4(a: string, b: string, c: string, e: string, x: char, y: char, z: char)
    requires Numeral(a + b + c + e, 2220859221412918)
    requires IsSeparator(x) && IsSeparator(y) && IsSeparator(z)
    ensures Validate(Some(a + [x] + b + [y] + c + [z] + e)) == ValidResult
  {
    NumeralAscii(a + b + c + e, 2220859221412918);
    AsciiHalves(a + b + c, e);
    AsciiHalves(a + b, c);
    AsciiHalves(a, b);
    AsciiDigitsUnseparated(a);
    AsciiDigitsUnseparated(b);
    AsciiDigitsUnseparated(c);
    AsciiDigitsUnseparated(e);
    FourGroupsStrip(a, b, c, e, x, y, z);
    NumeralLastPair(a + b + c + e, 2220859221412918);
    SeparatorsIgnored(a + [x] + b + [y] + c + [z] + e, a + b + c + e);
    Sum2220859221412918();
    NumeralOutcome(a + b + c + e, 2220859221412918);
  }

  /** 4992 7398 716 with any two separators in place of the spaces. */
  lemma Separated49927398716(x: char, y: char, t: string)
    requires IsSeparator(x) && IsSeparator(y) && t == "4992" + [x] + "7398" + [y] + "716"
    ensures Validate(Some(t)) == ValidResult
  {
    Numeral49927398716();
    assert "4992" + "7398" + "716" == "49927398716";
    TestValidWithSeparators3("4992", "7398", "716", x, y);
  }

  /** 2220 8592 2141 2918 with any three separators in place of the spaces. */
  lemma Separated2220859221412918(x: char, y: char, z: char, t: string)
    requires IsSeparator(x) && IsSeparator(y) && IsSeparator(z)
    requires t == "2220" + [x] + "8592" + [y] + "2141" + [z] + "2918"
    ensures Validate(Some(t)) == ValidResult
  {
    Numeral2220859221412918();
    assert "2220" + "8592" + "2141" + "2918" == "2220859221412918";
    TestValidWithSeparators4("2220", "8592", "2141", "2918", x, y, z);
  }

  /** The suite's testValidWithSpaces. */
  lemma TestValidWithSpaces()
    ensures Validate(Some("4992 7398 716")) == ValidResult
    ensures Validate(Some("2220 8592 2141 2918")) == ValidResult
  {
    assert "4992 7398 716" == "4992" + [' '] + "7398" + [' '] + "716";
    assert "2220 8592 2141 2918" == "2220" + [' '] + "8592" + [' '] + "2141" + [' '] + "2918";
    Separated49927398716(' ', ' ', "4992 7398 716");
    Separated2220859221412918(' ', ' ', ' ', "2220 8592 2141 2918");
  }

  /** The suite's testValidWithHyphens. */
  lemma TestValidWithHyphens()
    ensures Validate(Some("4992-7398-716")) == ValidResult
    ensures Validate(Some("2220-8592-2141-2918")) == ValidResult
  {
    assert "4992-7398-716" == "4992" + ['-'] + "7398" + ['-'] + "716";
    assert "2220-8592-2141-2918" == "2220" + ['-'] + "8592" + ['-'] + "2141" + ['-'] + "2918";
    Separated49927398716('-', '-', "4992-7398-716");
    Separated2220859221412918('-', '-', '-', "2220-8592-2141-2918");
  }

  /** The suite's testValidWithPoints. */
  lemma TestValidWithPoints()
    ensures Validate(Some("4992.7398.716")) == ValidResult
  {
    Separated49927398716('.', '.', "4992.7398.716");
  }

  /** The suite's testValidWithUnderscores, the second number with mixed separators. */
  lemma TestValidWithUnderscores()
    ensures Validate(Some("4992_7398_716")) == ValidResult
    ensures Validate(Some("2220_8592-2141_2918")) == ValidResult
  {
    assert "4992_7398_716" == "4992" + ['_'] + "7398" + ['_'] + "716";
    assert "2220_8592-2141_2918" == "2220" + ['_'] + "8592" + ['-'] + "2141" + ['_'] + "2918";
    Separated49927398716('_', '_', "4992_7398_716");
    Separated2220859221412918('_', '-', '_', "2220_8592-2141_2918");
  }

  /** The numeral of n converted to the digits of script k validates as the numeral does. */
  lemma LocaleOutcome(d: string, s: string, n: nat, k: nat)
    requires Numeral(d, n) && k < ScriptCount && ConvertedToLocale(s, d, ScriptZero(k))
    ensures Validate(Some(s)) == Validate(Some(d))
  {
    NumeralAscii(d, n);
    NumeralLastPair(d, n);
    LocaleIsTranscription(s, d, k);
    ScriptIndependent(d, k);
  }

  /** The zeros the test suite converts to: Arabic-Indic and Tibetan. */
  lemma LocaleZeros()
    ensures ScriptZero(ArabicIndic) == 1632 && ScriptZero(Tibetan) == 3872
  {
  }

  /** The Arabic-Indic (zero 1632) and Tibetan (zero 3872) renderings of a valid number. */
  lemma TestValidUnicode(arabic: string, tibetan: string)
    requires ConvertedToLocale(arabic, "49927398716", 1632)
    requires ConvertedToLocale(tibetan, "49927398716", 3872)
    ensures Validate(Some(arabic)) == ValidResult && Validate(Some(tibetan)) == ValidResult
  {
    var d := "49927398716";
    Numeral49927398716();
    Sum49927398716();
    NumeralOutcome(d, 49927398716);
    LocaleZeros();
    LocaleOutcome(d, arabic, 49927398716, ArabicIndic);
    LocaleOutcome(d, tibetan, 49927398716, Tibetan);
  }

  /** The suite's testInvalidASCIICharacter: Latin letters among the digits make the number malformed. */
  lemma TestInvalidAsciiCharacter()
    ensures Validate(Some("A4B992C73D98E716F")) == ResultFor(InvalidFormat)
  {
    NotDigitBetween('A', Ascii);
    NonDigitRejected("A4B992C73D98E716F", 0);
  }

  /** The suite's testInvalidNonASCIIUnicode: accented letters among the digits make the number malformed. */
  lemma TestInvalidNonAsciiUnicode()
    ensures Validate(Some("4\U{E9}a\U{E0}7398716")) == ResultFor(InvalidFormat)
  {
    NotDigitBetween('\U{E9}', Ascii);
    NonDigitRejected("4\U{E9}a\U{E0}7398716", 1);
  }

  /** Separators alone strip to nothing, which is not numeric. */
  lemma OnlyHyphens()
    ensures Validate(Some("--")) == ResultFor(InvalidFormat)
  {
    assert !IsTrimmable("--"[0]);
    OnlySeparatorsRejected("--");
  }

  /** No card number, an empty one and a blank one are all reported as empty. */
  lemma EmptyInputs()
    ensures Validate(None) == ResultFor(NumberEmpty)
    ensures Validate(Some("")) == ResultFor(NumberEmpty)
    ensures Validate(Some("   ")) == ResultFor(NumberEmpty)
  {
  }
}
