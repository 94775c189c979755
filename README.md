# Luhn card-number validation, modelled in Dafny

This project models `LuhnValidator.validate`, a static Java method that checks a
card number with the Luhn mod-10 algorithm (ISO/IEC 7812-1, Annex B). It also
models the immutable `ValidationResult` record that the method returns.

The validator is one pure pipeline with four exits, taken in this order:

1. An absent (`null`) or blank number gives `NUMBER_EMPTY`.
2. Otherwise the number is trimmed, and every space, hyphen, underscore and
   point is removed.
3. If what remains is not a non-empty run of decimal digits, the result is
   `INVALID_FORMAT`. Digits may come from any script.
4. Otherwise the digits are read from the right. Every second one is doubled
   and digit-summed. The result is `VALID` when the total is a multiple of 10,
   and `NUMBER_FAILED_VALIDATION` otherwise.

Modules:

- `Wrappers` holds `Option`. `None` stands for a Java `null`.
- `ValidationResults` holds the record, the four codes, and the message of each code.
- `JavaText` holds the Java and commons-lang3 string operations the validator
  calls: `isBlank`, `trim`, `StringUtils.reverse` and `String.valueOf(int)`. Each is
  stated by its documented result.
- `UnicodeDigits` models `Character.isDigit` and `Character.digit(c, 10)`. It
  covers the 37 decimal-digit scripts of the Basic Multilingual Plane as a table
  of their zero code points.
- `LuhnValidator` holds the validator itself, the reference Luhn sum
  `LuhnSum`, and the lemmas about them.
- `LuhnVectors` works through the worked example in the class comment and the
  cases of the test suite, each on the test's own string. A digit string is
  first shown to be `Numeral(s, n)`, the decimal numeral of the integer `n`,
  one digit at a time. Its Luhn sum is then computed on `n`, two digits at a
  time.

Two points where the sources disagree:

- **The fourth code.** `LuhnValidator.java:47` returns the code
  `NUMBER_EMPTY` with the message constant `INVALID_CARD_NUMBER_EMPTY`. Neither
  is declared in `ValidationResult.java`, whose enum has only three codes. The
  model adds `NumberEmpty`, with the message "Invalid: card number cannot be
  null, empty or blank".
- **The class comment versus the code.** The class comment (line 15) says that
  a doubled digit is digit-summed only when the product is over 10. The code at
  line 68 digit-sums every product, so a doubled 5 (10) contributes 1. The model
  follows the code. `LuhnVectors.DoubledFive` shows the code's behaviour: "59"
  is valid. `LuhnVectors.CommentRuleDiffersAtFive` states the comment's rule
  beside it: the two rules differ only on the digit 5, and under the comment's
  rule the sum of "59" would be 19, so "59" would fail.

## Model

All source paths are under `src/main/java/com/ubs/marketregs/`, except the test
file under `src/test/java/com/ubs/marketregs/`.

| member | source | states |
|---|---|---|
| ValidationResults.MessageFor | src/main/java/com/ubs/marketregs/ValidationResult.java:11-16 | (definition) the message constant of each code: "Valid" for VALID, INVALID_CARD_NUMBER_MUST_BE_NUMERIC for INVALID_FORMAT, INVALID_CARD_NUMBER_FAILED for NUMBER_FAILED_VALIDATION, and "Invalid: card number cannot be null, empty or blank" for the added NUMBER_EMPTY |
| ValidationResults.ResultFor | src/main/java/com/ubs/marketregs/ValidationResult.java:10-16 | the result built for a code carries that code and that code's message; it succeeded exactly when the code is VALID |
| ValidationResults.ConsistentIsDeterminedByCode | src/main/java/com/ubs/marketregs/ValidationResult.java:10 | a result whose flag and message agree with its code is equal, by value, to the one result built for that code |
| ValidationResults.MessagesDistinct | src/main/java/com/ubs/marketregs/ValidationResult.java:11-14 | different codes have different messages |
| ValidationResults.MessageIdentifiesOutcome | src/main/java/com/ubs/marketregs/ValidationResult.java:11-14 | two consistent results with the same message are equal, so the message alone identifies the outcome |
| JavaText.IsWhitespace | src/main/java/com/ubs/marketregs/LuhnValidator.java:45 | (definition) `Character.isWhitespace`: U+0009..U+000D, U+001C..U+0020, U+1680, U+2000..U+2006, U+2008..U+200A, U+2028, U+2029, U+205F and U+3000 |
| JavaText.IsBlank | src/main/java/com/ubs/marketregs/LuhnValidator.java:45 | (definition) `String.isBlank`: every character is white space, so the empty string is blank |
| JavaText.IsTrimmable | src/main/java/com/ubs/marketregs/LuhnValidator.java:51 | (definition) the characters `String.trim` removes: those at or below U+0020 |
| JavaText.LeadingTrimmable | src/main/java/com/ubs/marketregs/LuhnValidator.java:51 | counts the characters at or below U+0020 at the start; the next character, if any, is above U+0020 |
| JavaText.UntrimmedLength | src/main/java/com/ubs/marketregs/LuhnValidator.java:51 | the length left once the characters at or below U+0020 at the end are dropped; the last kept character is above U+0020 |
| JavaText.TrimBounds | src/main/java/com/ubs/marketregs/LuhnValidator.java:51 | `trim` keeps one slice: everything outside it is at or below U+0020, it starts and ends above U+0020, and it is empty only when the whole string is trimmable |
| JavaText.Trim | src/main/java/com/ubs/marketregs/LuhnValidator.java:51 | (definition) `String.trim`: the slice between the bounds `TrimBounds` gives |
| JavaText.TrimUntrimmable | src/main/java/com/ubs/marketregs/LuhnValidator.java:51 | a string that neither starts nor ends with a trimmable character is its own trim |
| JavaText.Reverse | src/main/java/com/ubs/marketregs/LuhnValidator.java:60 | `StringUtils.reverse`: same length, and element i is element n-1-i of the input |
| JavaText.ReverseInvolutive | src/main/java/com/ubs/marketregs/LuhnValidator.java:60 | reversing twice gives back the input |
| JavaText.AsciiDigit | src/main/java/com/ubs/marketregs/LuhnValidator.java:68 | the character of digit d is an ASCII digit whose offset from '0' is d |
| JavaText.DecimalString | src/main/java/com/ubs/marketregs/LuhnValidator.java:68 | `String.valueOf(n)`: non-empty ASCII digits, no leading zero unless n is 0, and reading the digits back gives n |
| JavaText.DigitCharSum | src/main/java/com/ubs/marketregs/LuhnValidator.java:68 | (definition) the stream `chars().boxed().collect(summingInt(c -> c - '0'))`: the sum of each character's offset from '0'; its value on `String.valueOf(2d)` is stated by `LuhnValidator.DoubledDigitSum` |
| UnicodeDigits.ScriptZero | src/main/java/com/ubs/marketregs/LuhnValidator.java:66 | (definition) the zero code point of each of the 37 decimal-digit scripts of the Basic Multilingual Plane, in ascending order; its properties are stated by `ZerosSpaced` and `ZeroInRange` |
| UnicodeDigits.ZerosSpaced | src/main/java/com/ubs/marketregs/LuhnValidator.java:66 | the ten-digit blocks of the scripts do not overlap and lie in ascending order |
| UnicodeDigits.ZeroInRange | src/main/java/com/ubs/marketregs/LuhnValidator.java:66 | every digit block lies wholly outside the surrogate range |
| UnicodeDigits.ScriptUnique | src/main/java/com/ubs/marketregs/LuhnValidator.java:66 | no character is a digit of two scripts |
| UnicodeDigits.ScriptFrom | src/main/java/com/ubs/marketregs/LuhnValidator.java:54 | the script search returns an index from its start index onwards, below the script count |
| UnicodeDigits.ScriptFromSound | src/main/java/com/ubs/marketregs/LuhnValidator.java:54 | the search returns a script whose block holds c, and returns none only when no script from the start on holds c |
| UnicodeDigits.ScriptOf | src/main/java/com/ubs/marketregs/LuhnValidator.java:54 | (definition) the script whose block of ten holds c, found by `ScriptFrom` from the first script on |
| UnicodeDigits.IsDigit | src/main/java/com/ubs/marketregs/LuhnValidator.java:54 | (definition) `Character.isDigit`: c lies in some script's block; stated by `IsDigitInSomeScript` |
| UnicodeDigits.IsDigitInSomeScript | src/main/java/com/ubs/marketregs/LuhnValidator.java:54 | `Character.isDigit`: c is in script k's block exactly when c is a digit and k is its script |
| UnicodeDigits.DigitValue | src/main/java/com/ubs/marketregs/LuhnValidator.java:66 | `Character.digit(c, 10)` of a digit is in 0..9 |
| UnicodeDigits.DigitChar | src/main/java/com/ubs/marketregs/LuhnValidator.java:66 | the digit of value d in script k sits d places after k's zero, is a digit of script k, and has value d |
| UnicodeDigits.DigitCharOfDigit | src/main/java/com/ubs/marketregs/LuhnValidator.java:66 | every digit is the digit of its own value in its own script, so script and value determine the character |
| UnicodeDigits.AsciiIsDigit | src/main/java/com/ubs/marketregs/LuhnValidator.java:66 | '0'..'9' are digits, worth their offset from '0' |
| UnicodeDigits.NotInScriptBetween | src/main/java/com/ubs/marketregs/LuhnValidator.java:54 | a character between two consecutive blocks is in no block |
| UnicodeDigits.NotDigitBetween | src/main/java/com/ubs/marketregs/LuhnValidator.java:54 | a character between two consecutive blocks is not a digit |
| UnicodeDigits.DigitRange | src/main/java/com/ubs/marketregs/LuhnValidator.java:45-54 | no digit lies at or below U+0020, at '_', at U+1680 or in U+2000..U+3000 |
| LuhnValidator.IsSeparator | src/main/java/com/ubs/marketregs/LuhnValidator.java:33 | (definition) the class of `SEPARATORS_REGEX`: space, hyphen, underscore and point |
| LuhnValidator.StripSeparators | src/main/java/com/ubs/marketregs/LuhnValidator.java:51 | removing the separators never lengthens the string and leaves no space, hyphen, underscore or point |
| LuhnValidator.StripMembers | src/main/java/com/ubs/marketregs/LuhnValidator.java:51 | a character survives stripping exactly when it is in the input and is not a separator |
| LuhnValidator.StripConcat | src/main/java/com/ubs/marketregs/LuhnValidator.java:51 | stripping a concatenation is concatenating the stripped parts, so the survivors keep their relative order |
| LuhnValidator.StripNoSeparators | src/main/java/com/ubs/marketregs/LuhnValidator.java:51 | a string without separators is left unchanged |
| LuhnValidator.StripIdempotent | src/main/java/com/ubs/marketregs/LuhnValidator.java:51 | stripping twice is stripping once |
| LuhnValidator.StripAllSeparators | src/main/java/com/ubs/marketregs/LuhnValidator.java:51 | a string of separators strips to the empty string |
| LuhnValidator.Normalize | src/main/java/com/ubs/marketregs/LuhnValidator.java:51 | (definition) trim, then remove the separators; `TrimBeforeStrip` and `SeparatorsIgnored` state what this does to a number |
| LuhnValidator.IsNumeric | src/main/java/com/ubs/marketregs/LuhnValidator.java:54 | (definition) `StringUtils.isNumeric`: non-empty, and every character is a digit of some script |
| LuhnValidator.Values | src/main/java/com/ubs/marketregs/LuhnValidator.java:66 | the digit values of a digit string, one per character and in the same order |
| LuhnValidator.Doubled | src/main/java/com/ubs/marketregs/LuhnValidator.java:67-68 | (reference definition, ISO/IEC 7812-1 Annex B) a doubled digit counts 2d up to 9 and 2d - 9 above; `DoubledDigitSum` proves the code's digit sum agrees |
| LuhnValidator.DoubledInjective | src/main/java/com/ubs/marketregs/LuhnValidator.java:67-68 | different digits make different contributions when doubled |
| LuhnValidator.LuhnSum | src/main/java/com/ubs/marketregs/LuhnValidator.java:64-72 | (reference definition) digits listed from the check digit leftwards: the first of each pair counts as it is, the second doubled; `RangeSumIsLuhnSum` proves the code's stream sum equals it |
| LuhnValidator.Weight | src/main/java/com/ubs/marketregs/LuhnValidator.java:67-68 | (reference definition) the contribution of digit d at 0-based place i from the right: d at even i, doubled at odd i |
| LuhnValidator.PassesLuhn | src/main/java/com/ubs/marketregs/LuhnValidator.java:74 | (reference definition) the Luhn sum of the digit values, read from the right, is a multiple of 10 |
| LuhnValidator.LuhnSumSnoc | src/main/java/com/ubs/marketregs/LuhnValidator.java:64-72 | a digit added further left contributes by the parity of its place: as it is at even 0-based places from the right, doubled at odd ones |
| LuhnValidator.LuhnSumUpdate | src/main/java/com/ubs/marketregs/LuhnValidator.java:64-72 | changing the digit at one place changes the sum by exactly the change in that place's contribution |
| LuhnValidator.DoubledDigitSum | src/main/java/com/ubs/marketregs/LuhnValidator.java:68 | digit-summing the decimal text of 2d gives 2d for d up to 4 and 2d-9 from 5 on, never more than 9 |
| LuhnValidator.Term | src/main/java/com/ubs/marketregs/LuhnValidator.java:65-71 | the stream's value at index i is the digit at even i, and the digit-summed double at odd i |
| LuhnValidator.RangeSum | src/main/java/com/ubs/marketregs/LuhnValidator.java:64-72 | (definition) `IntStream.range(0, n).map(term).sum()`: the terms at indices 0 .. n-1 added up |
| LuhnValidator.RangeSumIsLuhnSum | src/main/java/com/ubs/marketregs/LuhnValidator.java:64-72 | the stream's sum over the first n indices of the reversed number equals the reference Luhn sum of its first n values |
| LuhnValidator.ReverseValues | src/main/java/com/ubs/marketregs/LuhnValidator.java:60-66 | the values of the reversed string are the reversed values |
| LuhnValidator.Validate | src/main/java/com/ubs/marketregs/LuhnValidator.java:41-80 | the result is consistent with its code, and every success equals VALID_RESULT; each code holds exactly under its condition: NUMBER_EMPTY for null or blank input, INVALID_FORMAT when the trimmed and stripped input is not numeric, VALID when it is numeric and its Luhn sum is a multiple of 10 |
| LuhnValidator.DigitIsSignificant | src/main/java/com/ubs/marketregs/LuhnValidator.java:45-51 | no digit is white space, trimmable or a separator |
| LuhnValidator.NumericIsNormal | src/main/java/com/ubs/marketregs/LuhnValidator.java:45-57 | a non-empty digit string is not blank, and trimming and stripping leave it unchanged |
| LuhnValidator.ValidateNumeric | src/main/java/com/ubs/marketregs/LuhnValidator.java:74-79 | on a non-empty digit string the outcome is VALID_RESULT when the Luhn check passes and NUMBER_FAILED_VALIDATION otherwise |
| LuhnValidator.NonDigitRejected | src/main/java/com/ubs/marketregs/LuhnValidator.java:54-57 | one character that is not white space, trimmable, a separator or a digit makes the result INVALID_FORMAT |
| LuhnValidator.OnlySeparatorsRejected | src/main/java/com/ubs/marketregs/LuhnValidator.java:51-57 | a non-blank input made only of separators strips to nothing and gives INVALID_FORMAT |
| LuhnValidator.StripInner | src/main/java/com/ubs/marketregs/LuhnValidator.java:51 | when the parts on either side of a slice strip to nothing, the slice strips as the whole string does |
| LuhnValidator.TrimmedFrontStrips | src/main/java/com/ubs/marketregs/LuhnValidator.java:51 | when every trimmable character is a separator, what trim removes at the front strips to nothing |
| LuhnValidator.TrimmedBackStrips | src/main/java/com/ubs/marketregs/LuhnValidator.java:51 | the same for what trim removes at the back |
| LuhnValidator.TrimBeforeStrip | src/main/java/com/ubs/marketregs/LuhnValidator.java:51 | when every trimmable character is a separator, trimming before stripping makes no difference |
| LuhnValidator.StrippedToDigits | src/main/java/com/ubs/marketregs/LuhnValidator.java:45-51 | a string that strips to a digit string holds only digits and separators and is not blank |
| LuhnValidator.SeparatorsIgnored | src/main/java/com/ubs/marketregs/LuhnValidator.java:51 | separators anywhere in a number change nothing: a string that strips to the digits d validates exactly as d does |
| LuhnValidator.ValidateDependsOnValues | src/main/java/com/ubs/marketregs/LuhnValidator.java:66 | two digit strings with the same values validate alike, whatever their scripts |
| LuhnValidator.Transcribe | src/main/java/com/ubs/marketregs/LuhnValidator.java:66 | rewriting digits in script k keeps the length and every value, and puts each digit in k's block at its value's offset |
| LuhnValidator.ScriptIndependent | src/main/java/com/ubs/marketregs/LuhnValidator.java:66 | a number rewritten in any other script gets the same result |
| LuhnValidator.LuhnSumSingleChange | src/main/java/com/ubs/marketregs/LuhnValidator.java:67-74 | two digit sequences that differ in one place cannot both have a Luhn sum divisible by 10 |
| LuhnValidator.ReversedSingleChange | src/main/java/com/ubs/marketregs/LuhnValidator.java:60-74 | the same when the digits are read from the right |
| LuhnValidator.ReverseUpdate | src/main/java/com/ubs/marketregs/LuhnValidator.java:60 | reversing after an update at i is updating the reversal at the mirrored index |
| LuhnValidator.ValuesDifferAt | src/main/java/com/ubs/marketregs/LuhnValidator.java:66 | two digit strings that agree in value except at i have values that differ only at i |
| LuhnValidator.SingleDigitErrorDetected | src/main/java/com/ubs/marketregs/LuhnValidator.java:41-80 | every single-digit error is caught: two numbers that differ in the value of one digit are never both valid |
| LuhnVectors.Numeral | src/test/java/com/ubs/marketregs/TestLuhnValidator.java:14-39 | (definition) s is the decimal numeral of n, stated from the last digit; it says the same as s == `String.valueOf(n)`, as `NumeralIsDecimalString` proves, and lets proofs unfold a literal one digit at a time |
| LuhnVectors.NumeralIsDecimalString | src/main/java/com/ubs/marketregs/LuhnValidator.java:68 | a string is the numeral of n exactly when it is `String.valueOf(n)` |
| LuhnVectors.NumeralAscii | src/test/java/com/ubs/marketregs/TestLuhnValidator.java:14-39 | the numeral of n is made of ASCII digits |
| LuhnVectors.LuhnOfNumber | src/main/java/com/ubs/marketregs/LuhnValidator.java:64-72 | (reference definition) the Luhn sum computed on the integer n: its units digit, plus its tens digit doubled, plus the Luhn sum of n / 100; `NumeralLuhn` proves it equals the sum over the numeral's digits |
| LuhnVectors.Step | src/main/java/com/ubs/marketregs/LuhnValidator.java:64-72 | appending two decimal digits adds the units digit as it is and the tens digit doubled |
| LuhnVectors.LuhnSumLastPair | src/main/java/com/ubs/marketregs/LuhnValidator.java:60-72 | read from the right, the last digit counts as it is and the one before it doubled, then the rest follows |
| LuhnVectors.NumeralLuhn | src/main/java/com/ubs/marketregs/LuhnValidator.java:54-72 | the numeral of n is numeric, and its Luhn sum equals the Luhn sum computed on the integer n |
| LuhnVectors.NumeralOutcome | src/main/java/com/ubs/marketregs/LuhnValidator.java:74-79 | the numeral of n is VALID_RESULT when the integer Luhn sum of n is a multiple of 10, and NUMBER_FAILED_VALIDATION otherwise |
| LuhnVectors.NumeralDigit | src/test/java/com/ubs/marketregs/TestLuhnValidator.java:14-39 | a single ASCII digit is the numeral of its value |
| LuhnVectors.NumeralSnoc | src/test/java/com/ubs/marketregs/TestLuhnValidator.java:14-39 | appending an ASCII digit c to the numeral of a positive n gives the numeral of 10 n + c |
| LuhnVectors.ConvertedToLocale | src/test/java/com/ubs/marketregs/TestLuhnValidator.java:88-96 | (definition) the result of `convertToLocaleDigits(number, localeZero)`: the same length, each character at its ASCII digit's offset from localeZero |
| LuhnVectors.LocaleIsTranscription | src/test/java/com/ubs/marketregs/TestLuhnValidator.java:88-96 | moving ASCII digits to the block that starts at script k's zero is rewriting them in script k |
| LuhnVectors.ThreeGroupsStrip | src/test/java/com/ubs/marketregs/TestLuhnValidator.java:49-70 | three digit groups joined by separators strip to the groups joined without them |
| LuhnVectors.FourGroupsStrip | src/test/java/com/ubs/marketregs/TestLuhnValidator.java:49-70 | the same for four groups |
| LuhnVectors.Sum2378 | src/main/java/com/ubs/marketregs/LuhnValidator.java:17-21 | the Luhn sum of 2378 is 20 |
| LuhnVectors.Sum12378 | src/main/java/com/ubs/marketregs/LuhnValidator.java:21-23 | the Luhn sum of 12378 is 21 |
| LuhnVectors.Sum59 | src/main/java/com/ubs/marketregs/LuhnValidator.java:68 | the Luhn sum of 59 is 10, because the doubled 5 counts 1 |
| LuhnVectors.Sum49927398716 | src/test/java/com/ubs/marketregs/TestLuhnValidator.java:17 | the Luhn sum of 49927398716 is 70 |
| LuhnVectors.Sum59927398716 | src/test/java/com/ubs/marketregs/TestLuhnValidator.java:23 | the Luhn sum of 59927398716 is 71 |
| LuhnVectors.Sum2220859221412918 | src/test/java/com/ubs/marketregs/TestLuhnValidator.java:18 | the Luhn sum of 2220859221412918 is 70 |
| LuhnVectors.Sum3220859221412918 | src/test/java/com/ubs/marketregs/TestLuhnValidator.java:35 | the Luhn sum of 3220859221412918 is 72 |
| LuhnVectors.Numeral59 | src/main/java/com/ubs/marketregs/LuhnValidator.java:68 | "59" is the numeral of 59 |
| LuhnVectors.Numeral2378 | src/main/java/com/ubs/marketregs/LuhnValidator.java:17-21 | "2378" is the numeral of 2378 |
| LuhnVectors.Numeral12378 | src/main/java/com/ubs/marketregs/LuhnValidator.java:21-23 | "12378" is the numeral of 12378 |
| LuhnVectors.Numeral49927398716 | src/test/java/com/ubs/marketregs/TestLuhnValidator.java:17 | "49927398716" is the numeral of 49927398716 |
| LuhnVectors.Numeral59927398716 | src/test/java/com/ubs/marketregs/TestLuhnValidator.java:23 | "59927398716" is the numeral of 59927398716 |
| LuhnVectors.Numeral2220859221412918 | src/test/java/com/ubs/marketregs/TestLuhnValidator.java:18 | "2220859221412918" is the numeral of 2220859221412918 |
| LuhnVectors.Numeral3220859221412918 | src/test/java/com/ubs/marketregs/TestLuhnValidator.java:35 | "3220859221412918" is the numeral of 3220859221412918 |
| LuhnVectors.Example2378 | src/main/java/com/ubs/marketregs/LuhnValidator.java:17-21 | "2378" is VALID_RESULT |
| LuhnVectors.Example12378 | src/main/java/com/ubs/marketregs/LuhnValidator.java:21-23 | "12378" fails with NUMBER_FAILED_VALIDATION |
| LuhnVectors.CommentDoubled | src/main/java/com/ubs/marketregs/LuhnValidator.java:13-16 | (definition) the doubling rule as the class comment words it: the product's digits are added only when it is over 10, so a doubled 5 stays 10 |
| LuhnVectors.CommentRuleDiffersAtFive | src/main/java/com/ubs/marketregs/LuhnValidator.java:13-16 | the comment's rule and the code's agree on every digit except 5; the Luhn sum of 59 is 10 by the code and would be 19 by the comment |
| LuhnVectors.DoubledFive | src/main/java/com/ubs/marketregs/LuhnValidator.java:68 | "59" is VALID_RESULT, because the code digit-sums the product 10 |
| LuhnVectors.TestValid | src/test/java/com/ubs/marketregs/TestLuhnValidator.java:14-19 | "2378", "49927398716" and "2220859221412918" are VALID_RESULT |
| LuhnVectors.TestInvalid | src/test/java/com/ubs/marketregs/TestLuhnValidator.java:21-39 | "59927398716", "12378" and "3220859221412918" fail with NUMBER_FAILED_VALIDATION and its message |
| LuhnVectors.TestValidWithSeparators3 | src/test/java/com/ubs/marketregs/TestLuhnValidator.java:49-70 | the digits of 49927398716 in three groups, with any separator between them, are VALID_RESULT |
| LuhnVectors.TestValidWithSeparators4 | src/test/java/com/ubs/marketregs/TestLuhnValidator.java:49-70 | the digits of 2220859221412918 in four groups, with any separators, alike or mixed, are VALID_RESULT |
| LuhnVectors.Separated49927398716 | src/test/java/com/ubs/marketregs/TestLuhnValidator.java:49-70 | "4992", "7398" and "716" joined by any two separators are VALID_RESULT |
| LuhnVectors.Separated2220859221412918 | src/test/java/com/ubs/marketregs/TestLuhnValidator.java:49-70 | "2220", "8592", "2141" and "2918" joined by any three separators are VALID_RESULT |
| LuhnVectors.TestValidWithSpaces | src/test/java/com/ubs/marketregs/TestLuhnValidator.java:49-53 | "4992 7398 716" and "2220 8592 2141 2918" are VALID_RESULT |
| LuhnVectors.TestValidWithHyphens | src/test/java/com/ubs/marketregs/TestLuhnValidator.java:55-59 | "4992-7398-716" and "2220-8592-2141-2918" are VALID_RESULT |
| LuhnVectors.TestValidWithPoints | src/test/java/com/ubs/marketregs/TestLuhnValidator.java:61-64 | "4992.7398.716" is VALID_RESULT |
| LuhnVectors.TestValidWithUnderscores | src/test/java/com/ubs/marketregs/TestLuhnValidator.java:66-70 | "4992_7398_716" and "2220_8592-2141_2918" are VALID_RESULT |
| LuhnVectors.LocaleOutcome | src/test/java/com/ubs/marketregs/TestLuhnValidator.java:41-47 | the numeral of n moved to the digits of any script validates as the numeral does |
| LuhnVectors.LocaleZeros | src/test/java/com/ubs/marketregs/TestLuhnValidator.java:10-12 | the Arabic-Indic zero is 1632 and the Tibetan zero is 3872 |
| LuhnVectors.TestValidUnicode | src/test/java/com/ubs/marketregs/TestLuhnValidator.java:41-47 | the results of `convertToLocaleDigits("49927398716", 1632)` and of `convertToLocaleDigits("49927398716", 3872)` are VALID_RESULT |
| LuhnVectors.TestInvalidAsciiCharacter | src/test/java/com/ubs/marketregs/TestLuhnValidator.java:72-78 | "A4B992C73D98E716F" gives INVALID_FORMAT |
| LuhnVectors.TestInvalidNonAsciiUnicode | src/test/java/com/ubs/marketregs/TestLuhnValidator.java:80-86 | "4éaà7398716" gives INVALID_FORMAT |
| LuhnVectors.OnlyHyphens | src/main/java/com/ubs/marketregs/LuhnValidator.java:51-57 | "--" strips to the empty string and gives INVALID_FORMAT |
| LuhnVectors.EmptyInputs | src/main/java/com/ubs/marketregs/LuhnValidator.java:45-48 | null, "" and "   " all give NUMBER_EMPTY |

## Left out

- Logging: the `log.debug` calls (LuhnValidator.java:42,46,55,77) do not affect the result.
- Regular expressions: `replaceAll(SEPARATORS_REGEX, "")` is modelled as a filter over the four separator characters, not through a regex engine.
- UTF-16: a Java string is a sequence of UTF-16 code units, while a Dafny string is a sequence of Unicode scalar values. Surrogate pairs and the digits outside the Basic Multilingual Plane are not modelled.
- Unicode version: the digit table and the white-space table follow Unicode 13, as used by Java 17. Other Java versions may classify a few characters differently.
- Object identity: `VALID_RESULT` is compared by value, as the record's `equals` does. Reference identity is not modelled.
- The test helper `convertToLocaleDigits` (TestLuhnValidator.java:88-96) is not modelled as code. Its result is described by the predicate `LuhnVectors.ConvertedToLocale`.
- LuhnValidator.Validate: the Java `int` sum at LuhnValidator.java:64-72 could overflow only for inputs of more than 238,609,294 digits. The model sums on unbounded integers, so it does not reproduce that wrap-around.
