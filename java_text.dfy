/**
 * The few Java and commons-lang3 string operations the validator relies on,
 * stated by their documented results: Character.isWhitespace, String.isBlank,
 * String.trim, StringUtils.reverse and String.valueOf(int).
 */
module JavaText {

  /**
   * Character.isWhitespace: the Unicode space, line and paragraph separators
   * other than the non-breaking spaces U+00A0, U+2007 and U+202F, plus
   * U+0009..U+000D and U+001C..U+001F.
   */
  predicate IsWhitespace(c: char)
  {
    var n := c as int;
    || 0x09 <= n <= 0x0D
    || 0x1C <= n <= 0x20
    || n == 0x1680
    || 0x2000 <= n <= 0x2006
    || 0x2008 <= n <= 0x200A
    || n == 0x2028 || n == 0x2029
    || n == 0x205F
    || n == 0x3000
  }

  /** String.isBlank: empty, or white space only. */
  predicate IsBlank(s: string)
  {
    forall i :: 0 <= i < |s| ==> IsWhitespace(s[i])
  }

  /** The characters String.trim removes from either end: those at or below U+0020. */
  predicate IsTrimmable(c: char)
  {
    c <= ' '
  }

  /** Number of trimmable characters at the start of s. */
  function LeadingTrimmable(s: string): (n: nat)
    ensures n <= |s|
    ensures forall k :: 0 <= k < n ==> IsTrimmable(s[k])
    ensures n < |s| ==> !IsTrimmable(s[n])
  {
    if |s| > 0 && IsTrimmable(s[0]) then 1 + LeadingTrimmable(s[1..]) else 0
  }

  /** Length of s once the trimmable characters at its end are dropped. */
  function UntrimmedLength(s: string): (n: nat)
    ensures n <= |s|
    ensures forall k :: n <= k < |s| ==> IsTrimmable(s[k])
    ensures n > 0 ==> !IsTrimmable(s[n - 1])
  {
    if |s| > 0 && IsTrimmable(s[|s| - 1]) then UntrimmedLength(s[..|s| - 1]) else |s|
  }

  /**
   * The slice [lo, hi) of s that String.trim keeps: everything outside it is
   * trimmable and, unless it is empty, it starts and ends with a character
   * that is not.
   */
  function TrimBounds(s: string): (b: (nat, nat))
    ensures b.0 <= b.1 <= |s|
    ensures forall k :: 0 <= k < b.0 ==> IsTrimmable(s[k])
    ensures forall k :: b.1 <= k < |s| ==> IsTrimmable(s[k])
    ensures b.0 < b.1 ==> !IsTrimmable(s[b.0]) && !IsTrimmable(s[b.1 - 1])
    ensures b.0 == b.1 ==> forall k :: 0 <= k < |s| ==> IsTrimmable(s[k])
  {
    var lo := LeadingTrimmable(s);
    var n := UntrimmedLength(s[lo..]);
    (lo, lo + n)
  }

  /** String.trim. */
  function Trim(s: string): string
  {
    s[TrimBounds(s).0..TrimBounds(s).1]
  }

  /** A string that neither starts nor ends with a trimmable character is its own trim. */
  lemma TrimUntrimmable(s: string)
    requires |s| > 0 ==> !IsTrimmable(s[0]) && !IsTrimmable(s[|s| - 1])
    ensures Trim(s) == s
  {
    var b := TrimBounds(s);
    if |s| > 0 {
      assert b.0 == 0;
      assert b.1 == |s|;
    }
  }

  /** StringUtils.reverse. */
  function Reverse<T>(s: seq<T>): (r: seq<T>)
    ensures |r| == |s|
    ensures forall i :: 0 <= i < |s| ==> r[i] == s[|s| - 1 - i]
  {
    seq(|s|, i requires 0 <= i < |s| => s[|s| - 1 - i])
  }

  /** Reversing twice gives back the original. */
  lemma ReverseInvolutive<T>(s: seq<T>)
    ensures Reverse(Reverse(s)) == s
  {
  }

  /** The character of a decimal digit value 0..9. */
  function AsciiDigit(d: nat): (c: char)
    requires d < 10
    ensures '0' <= c <= '9' && c as int - '0' as int == d
  {
    ('0' as int + d) as char
  }

  /** The value of a string of ASCII decimal digits, most significant first. */
  function DecimalValue(s: string): nat
    requires forall i :: 0 <= i < |s| ==> '0' <= s[i] <= '9'
  {
    if s == [] then 0 else 10 * DecimalValue(s[..|s| - 1]) + (s[|s| - 1] as int - '0' as int)
  }

  /** String.valueOf for a non-negative int: its decimal digits, without leading zeros. */
  function DecimalString(n: nat): (r: string)
    ensures |r| > 0
    ensures forall i :: 0 <= i < |r| ==> '0' <= r[i] <= '9'
    ensures r[0] == '0' ==> n == 0 && |r| == 1
    ensures DecimalValue(r) == n
  {
    if n < 10 then [AsciiDigit(n)] else DecimalString(n / 10) + [AsciiDigit(n % 10)]
  }

  /** Summing `c - '0'` over the characters of a string of ASCII digits. */
  function DigitCharSum(s: string): nat
    requires forall i :: 0 <= i < |s| ==> '0' <= s[i] <= '9'
  {
    if s == [] then 0 else (s[0] as int - '0' as int) + DigitCharSum(s[1..])
  }
}
