/**
 * Decimal digits of every script, as Character.isDigit and
 * Character.digit(c, 10) classify them within the Basic Multilingual Plane.
 * Each script's digits are ten consecutive code points starting at its zero.
 */
module UnicodeDigits {
  import opened Wrappers

  /** The number of decimal-digit scripts in the Basic Multilingual Plane (Unicode 13). */
  const ScriptCount: nat := 37

  /**
   * The zero of the k-th decimal-digit script of the Basic Multilingual Plane
   * (Unicode general category Nd), in ascending order.
   */
  function ScriptZero(k: nat): int
    requires k < ScriptCount
  {
    match k
    case 0 => 0x0030 // ASCII
    case 1 => 0x0660 // Arabic-Indic
    case 2 => 0x06F0 // Extended Arabic-Indic
    case 3 => 0x07C0 // NKo
    case 4 => 0x0966 // Devanagari
    case 5 => 0x09E6 // Bengali
    case 6 => 0x0A66 // Gurmukhi
    case 7 => 0x0AE6 // Gujarati
    case 8 => 0x0B66 // Oriya
    case 9 => 0x0BE6 // Tamil
    case 10 => 0x0C66 // Telugu
    case 11 => 0x0CE6 // Kannada
    case 12 => 0x0D66 // Malayalam
    case 13 => 0x0DE6 // Sinhala Lith
    case 14 => 0x0E50 // Thai
    case 15 => 0x0ED0 // Lao
    case 16 => 0x0F20 // Tibetan
    case 17 => 0x1040 // Myanmar
    case 18 => 0x1090 // Myanmar Shan
    case 19 => 0x17E0 // Khmer
    case 20 => 0x1810 // Mongolian
    case 21 => 0x1946 // Limbu
    case 22 => 0x19D0 // New Tai Lue
    case 23 => 0x1A80 // Tai Tham Hora
    case 24 => 0x1A90 // Tai Tham Tham
    case 25 => 0x1B50 // Balinese
    case 26 => 0x1BB0 // Sundanese
    case 27 => 0x1C40 // Lepcha
    case 28 => 0x1C50 // Ol Chiki
    case 29 => 0xA620 // Vai
    case 30 => 0xA8D0 // Saurashtra
    case 31 => 0xA900 // Kayah Li
    case 32 => 0xA9D0 // Javanese
    case 33 => 0xA9F0 // Myanmar Tai Laing
    case 34 => 0xAA50 // Cham
    case 35 => 0xABF0 // Meetei Mayek
    case _ => 0xFF10 // Fullwidth
  }

  const Ascii: nat := 0
  const ArabicIndic: nat := 1
  const Tibetan: nat := 16

  /** c is one of the ten digits of script k. */
  predicate InScript(c: char, k: nat)
    requires k < ScriptCount
  {
    ScriptZero(k) <= c as int < ScriptZero(k) + 10
  }

  /** Each script's digits end before the next script's zero. */
  lemma ZerosAdjacent(k: nat)
    requires k + 1 < ScriptCount
    ensures ScriptZero(k) + 10 <= ScriptZero(k + 1)
  {
  }

  /** Each script's digits end before the zero of every later script. */
  lemma {:induction false} ZerosSpaced(j: nat, k: nat)
    requires j < k < ScriptCount
    ensures ScriptZero(j) + 10 <= ScriptZero(k)
    decreases k - j
  {
    ZerosAdjacent(j);
    if j + 1 < k {
      ZerosSpaced(j + 1, k);
    }
  }

  /** Every digit block lies inside the range of char values below the surrogates or above them. */
  lemma ZeroInRange(k: nat)
    requires k < ScriptCount
    ensures 0x30 <= ScriptZero(k) && (ScriptZero(k) + 10 <= 0xD800 || 0xE000 <= ScriptZero(k) <= 0xFF10)
  {
  }

  /** No character belongs to two scripts. */
  lemma ScriptUnique(c: char, j: nat, k: nat)
    requires j < ScriptCount && k < ScriptCount
    requires InScript(c, j) && InScript(c, k)
    ensures j == k
  {
    if j < k {
      ZerosSpaced(j, k);
    } else if k < j {
      ZerosSpaced(k, j);
    }
  }

  /** The first script at index k or later whose digits include c. */
  function ScriptFrom(c: char, k: nat): (r: Option<nat>)
    ensures r.Some? ==> k <= r.value < ScriptCount
    decreases ScriptCount - k
  {
    if k >= ScriptCount then None
    else if InScript(c, k) then Some(k)
    else ScriptFrom(c, k + 1)
  }

  /** The search finds a script holding c, and finds none only when no script from k on holds it. */
  lemma {:induction false} ScriptFromSound(c: char, k: nat)
    ensures ScriptFrom(c, k).Some? ==> InScript(c, ScriptFrom(c, k).value)
    ensures ScriptFrom(c, k).None? ==> forall j :: k <= j < ScriptCount ==> !InScript(c, j)
    decreases ScriptCount - k
  {
    if k < ScriptCount && !InScript(c, k) {
      ScriptFromSound(c, k + 1);
    }
  }

  /** The script c is a digit of, if any. */
  function ScriptOf(c: char): Option<nat>
  {
    ScriptFrom(c, 0)
  }

  /** Character.isDigit. */
  predicate IsDigit(c: char)
  {
    ScriptOf(c).Some?
  }

  /** A character is a digit exactly when some script's block holds it, and that script is the one found. */
  lemma IsDigitInSomeScript(c: char, k: nat)
    requires k < ScriptCount
    ensures InScript(c, k) <==> IsDigit(c) && ScriptOf(c) == Some(k)
    ensures IsDigit(c) ==> InScript(c, ScriptOf(c).value)
  {
    ScriptFromSound(c, 0);
    if InScript(c, k) {
      ScriptUnique(c, ScriptOf(c).value, k);
    }
  }

  /** Character.digit(c, 10) for a digit: its offset from its script's zero. */
  function DigitValue(c: char): (v: nat)
    requires IsDigit(c)
    ensures v < 10
  {
    ScriptFromSound(c, 0);
    c as int - ScriptZero(ScriptOf(c).value)
  }

  /** The digit of value d in script k. */
  function DigitChar(k: nat, d: nat): (c: char)
    requires k < ScriptCount && d < 10
    ensures c as int == ScriptZero(k) + d
    ensures IsDigit(c) && ScriptOf(c) == Some(k) && DigitValue(c) == d
  {
    ZeroInRange(k);
    var c := (ScriptZero(k) + d) as char;
    IsDigitInSomeScript(c, k);
    c
  }

  /** Every digit is the digit of its own value in its own script. */
  lemma DigitCharOfDigit(c: char)
    requires IsDigit(c)
    ensures DigitChar(ScriptOf(c).value, DigitValue(c)) == c
  {
    ScriptFromSound(c, 0);
  }

  /** The ASCII digits are digits of their usual value. */
  lemma AsciiIsDigit(c: char)
    requires '0' <= c <= '9'
    ensures IsDigit(c) && DigitValue(c) == c as int - '0' as int
  {
    IsDigitInSomeScript(c, Ascii);
  }

  /** A character strictly between two consecutive scripts' blocks is in no script's block. */
  lemma NotInScriptBetween(c: char, k: nat, j: nat)
    requires k + 1 < ScriptCount && j < ScriptCount
    requires ScriptZero(k) + 10 <= c as int < ScriptZero(k + 1)
    ensures !InScript(c, j)
  {
    if j < k {
      ZerosSpaced(j, k);
    } else if k + 1 < j {
      ZerosSpaced(k + 1, j);
    }
  }

  /** A character strictly between two consecutive scripts' blocks is no digit. */
  lemma NotDigitBetween(c: char, k: nat)
    requires k + 1 < ScriptCount
    requires ScriptZero(k) + 10 <= c as int < ScriptZero(k + 1)
    ensures !IsDigit(c)
  {
    if IsDigit(c) {
      ScriptFromSound(c, 0);
      NotInScriptBetween(c, k, ScriptOf(c).value);
    }
  }

  /**
   * Where digits are not: below U+0030, at the underscore, at U+1680 and
   * anywhere from U+2000 to U+3000.
   */
  lemma DigitRange(c: char)
    requires IsDigit(c)
    ensures 0x30 <= c as int
    ensures c != '_' && c as int != 0x1680 && !(0x2000 <= c as int <= 0x3000)
  {
    ZeroInRange(ScriptOf(c).value);
    IsDigitInSomeScript(c, ScriptOf(c).value);
    if c == '_' || c as int == 0x1680 || 0x2000 <= c as int <= 0x3000 {
      if c == '_' {
        NotDigitBetween(c, Ascii);
      } else if c as int == 0x1680 {
        NotDigitBetween(c, 18);
      } else {
        NotDigitBetween(c, 28);
      }
      assert false;
    }
  }
}
