/** The shared constants of the password generator (src/utils/constants.js):
    the character sets, the default settings, the strength tables and the
    history cap, together with the character classes the strength scorer
    tests for. */
module Constants {

  /** The three kinds of password the generator knows. */
  datatype PasswordType = Random | Memorable | Pin

  /** The user's generator settings, one field per key of the settings object. */
  datatype Settings = Settings(
    passwordLength: int,
    includeUppercase: bool,
    includeLowercase: bool,
    includeSymbols: bool,
    includeNumbers: bool,
    passwordType: PasswordType)

  const DefaultSettings: Settings :=
    Settings(8, true, true, false, false, Random)

  const Uppercase: string := "ABCDEFGHIJKLMNOPQRSTUVWXYZ"
  const Lowercase: string := "abcdefghijklmnopqrstuvwxyz"
  const Symbols: string := "!@#$%^&*()_+-=[]{}|;:,.<>?"
  const Numbers: string := "0123456789"

  const MaxHistoryItems: nat := 5

  const StrengthLabels: seq<string> := ["Weak", "Medium", "Strong", "Very Strong"]
  const StrengthColors: seq<string> := ["bg-destructive", "bg-chart-4", "bg-green-500", "bg-green-700"]

  // The four character classes of the strength scorer: [a-z], [A-Z], [0-9]
  // and everything else.

  predicate IsLower(c: char) { 'a' <= c <= 'z' }
  predicate IsUpper(c: char) { 'A' <= c <= 'Z' }
  predicate IsDigit(c: char) { '0' <= c <= '9' }
  predicate IsOther(c: char) { !IsLower(c) && !IsUpper(c) && !IsDigit(c) }

  datatype CharClass = LowerClass | UpperClass | DigitClass | OtherClass

  /** The one class a character belongs to. */
  function ClassOf(c: char): (k: CharClass)
    ensures k == LowerClass <==> IsLower(c)
    ensures k == UpperClass <==> IsUpper(c)
    ensures k == DigitClass <==> IsDigit(c)
    ensures k == OtherClass <==> IsOther(c)
  {
    if IsLower(c) then LowerClass
    else if IsUpper(c) then UpperClass
    else if IsDigit(c) then DigitClass
    else OtherClass
  }

  /** The larger of two integers (`Math.max`). */
  function Max(a: int, b: int): (m: int)
    ensures m >= a && m >= b && (m == a || m == b)
  {
    if a < b then b else a
  }

  /** No character occurs twice in `s`. */
  predicate NoDuplicates(s: string) {
    forall i, j :: 0 <= i < j < |s| ==> s[i] != s[j]
  }

  /** The defaults are an 8-character random password of upper- and
      lower-case letters. */
  lemma DefaultSettingsValues()
    ensures DefaultSettings.passwordLength == 8
    ensures DefaultSettings.includeUppercase && DefaultSettings.includeLowercase
    ensures !DefaultSettings.includeSymbols && !DefaultSettings.includeNumbers
    ensures DefaultSettings.passwordType == Random
  {
  }

  /** The uppercase set is exactly the letters A to Z, in order. */
  lemma UppercaseIsClass()
    ensures |Uppercase| == 26
    ensures forall i :: 0 <= i < |Uppercase| ==> Uppercase[i] as int == 'A' as int + i
    ensures forall c :: c in Uppercase <==> IsUpper(c)
  {
    forall c | IsUpper(c) ensures c in Uppercase {
      assert Uppercase[c as int - 'A' as int] == c;
    }
  }

  /** The lowercase set is exactly the letters a to z, in order. */
  lemma LowercaseIsClass()
    ensures |Lowercase| == 26
    ensures forall i :: 0 <= i < |Lowercase| ==> Lowercase[i] as int == 'a' as int + i
    ensures forall c :: c in Lowercase <==> IsLower(c)
  {
    forall c | IsLower(c) ensures c in Lowercase {
      assert Lowercase[c as int - 'a' as int] == c;
    }
  }

  /** The number set is exactly the digits 0 to 9, in order. */
  lemma NumbersIsClass()
    ensures |Numbers| == 10
    ensures forall i :: 0 <= i < |Numbers| ==> Numbers[i] as int == '0' as int + i
    ensures forall c :: c in Numbers <==> IsDigit(c)
  {
    forall c | IsDigit(c) ensures c in Numbers {
      assert Numbers[c as int - '0' as int] == c;
    }
  }

  /** The symbol set has 26 distinct characters, none of them a letter or a
      digit. */
  lemma SymbolsAreOther()
    ensures |Symbols| == 26
    ensures forall c :: c in Symbols ==> IsOther(c)
    ensures NoDuplicates(Symbols)
  {
  }

  /** Each character set has no repeated character. */
  lemma CharSetsHaveNoDuplicates()
    ensures NoDuplicates(Uppercase) && NoDuplicates(Lowercase)
    ensures NoDuplicates(Numbers) && NoDuplicates(Symbols)
  {
    UppercaseIsClass();
    LowercaseIsClass();
    NumbersIsClass();
    SymbolsAreOther();
  }

  /** Every character of a set falls in that set's class only, so the four
      sets are pairwise disjoint and each one lights up exactly one of the
      four classes the strength scorer tests for. */
  lemma CharSetsAreDisjointClasses()
    ensures forall c :: c in Uppercase ==> ClassOf(c) == UpperClass
    ensures forall c :: c in Lowercase ==> ClassOf(c) == LowerClass
    ensures forall c :: c in Numbers ==> ClassOf(c) == DigitClass
    ensures forall c :: c in Symbols ==> ClassOf(c) == OtherClass
    ensures forall c :: c in Uppercase ==> c !in Lowercase && c !in Numbers && c !in Symbols
    ensures forall c :: c in Lowercase ==> c !in Numbers && c !in Symbols
    ensures forall c :: c in Numbers ==> c !in Symbols
  {
    UppercaseIsClass();
    LowercaseIsClass();
    NumbersIsClass();
    SymbolsAreOther();
  }

  /** Both strength tables have one entry per tier 0..3. */
  lemma StrengthTablesCoverTiers()
    ensures |StrengthLabels| == 4 && |StrengthColors| == 4
  {
  }
}
