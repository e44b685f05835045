/** The password generators and the strength scorer
    (src/hooks/usePasswordGenerator.js), lifted out of their React hook.

    `Math.random` is replaced by an oracle: a sequence `draws` of indices,
    consumed in the order the generators call `Math.random`, each index
    already scaled to the pool it is drawn from (the source's
    `Math.floor(Math.random() * n)` is always below `n`). Every generator is
    then a pure function of its options and the oracle. */
module PasswordGenerator {
  import opened Constants
  import opened Optional

  /** The options the generators read: the length and the four class flags. */
  datatype Options = Options(
    length: int,
    includeUppercase: bool,
    includeLowercase: bool,
    includeNumbers: bool,
    includeSymbols: bool)

  /** The padding alphabet of memorable passwords without symbols. */
  const PaddingDigits: string := "123456789"

  /** Number of iterations of a `for (i = 0; i < length; i++)` loop. */
  function Count(length: int): (n: nat)
    ensures length >= 0 ==> n == length
    ensures length < 0 ==> n == 0
  {
    if length < 0 then 0 else length
  }

  /** The first `k` draws exist and each is an index into a pool of size `n`. */
  predicate ValidDraws(draws: seq<nat>, k: nat, n: nat) {
    k <= |draws| && forall i :: 0 <= i < k ==> draws[i] < n
  }

  /** The string built by `k` iterations of `s += pool[draw]`. */
  function Sample(pool: string, draws: seq<nat>, k: nat): (r: string)
    requires ValidDraws(draws, k, |pool|)
    ensures |r| == k
    ensures forall i :: 0 <= i < k ==> r[i] == pool[draws[i]]
  {
    if k == 0 then "" else Sample(pool, draws, k - 1) + [pool[draws[k - 1]]]
  }

  // ---------------------------------------------------------------------
  // Random-charset generator

  /** Whether a character belongs to one of the classes the flags select,
      lowercase standing in when no flag is set. */
  predicate Selected(o: Options, c: char) {
    || (o.includeUppercase && IsUpper(c))
    || (o.includeLowercase && IsLower(c))
    || (o.includeNumbers && IsDigit(c))
    || (o.includeSymbols && c in Symbols)
    || (!o.includeUppercase && !o.includeLowercase && !o.includeNumbers
        && !o.includeSymbols && IsLower(c))
  }

  /** The size of the pool: 26, 26, 10 and 26 per selected set, or 26 for
      the lowercase fallback. */
  function PoolSize(o: Options): (n: nat)
    ensures 10 <= n <= 88
  {
    if !o.includeUppercase && !o.includeLowercase && !o.includeNumbers && !o.includeSymbols then 26
    else (if o.includeUppercase then 26 else 0) + (if o.includeLowercase then 26 else 0)
         + (if o.includeNumbers then 10 else 0) + (if o.includeSymbols then 26 else 0)
  }

  /** The character pool: the selected sets concatenated in the fixed order
      uppercase, lowercase, numbers, symbols; lowercase alone if none is
      selected. */
  function Pool(o: Options): (r: string)
    ensures |r| == PoolSize(o)
    ensures forall c :: c in r <==> Selected(o, c)
  {
    UppercaseIsClass();
    LowercaseIsClass();
    NumbersIsClass();
    SymbolsAreOther();
    var charset := (if o.includeUppercase then Uppercase else "")
                   + (if o.includeLowercase then Lowercase else "")
                   + (if o.includeNumbers then Numbers else "")
                   + (if o.includeSymbols then Symbols else "");
    if charset == "" then Lowercase else charset
  }

  /** generateRandomPassword: `length` characters drawn from the pool. */
  function GenerateRandomPassword(o: Options, draws: seq<nat>): (r: string)
    requires ValidDraws(draws, Count(o.length), PoolSize(o))
    ensures |r| == Count(o.length)
    ensures forall i :: 0 <= i < |r| ==> r[i] == Pool(o)[draws[i]]
    ensures forall i :: 0 <= i < |r| ==> Selected(o, r[i])
  {
    var pool := Pool(o);
    var r := Sample(pool, draws, Count(o.length));
    assert forall i :: 0 <= i < |r| ==> r[i] in pool;
    r
  }

  // ---------------------------------------------------------------------
  // Memorable generator

  function ToUpper(c: char): (u: char)
  {
    if IsLower(c) then (c as int - 32) as char else c
  }

  function ToLower(c: char): (l: char)
  {
    if IsUpper(c) then (c as int + 32) as char else c
  }

  function UpperString(s: string): (r: string)
    ensures |r| == |s|
    ensures forall i :: 0 <= i < |s| ==> r[i] == ToUpper(s[i])
  {
    seq(|s|, i requires 0 <= i < |s| => ToUpper(s[i]))
  }

  function LowerString(s: string): (r: string)
    ensures |r| == |s|
    ensures forall i :: 0 <= i < |s| ==> r[i] == ToLower(s[i])
  {
    seq(|s|, i requires 0 <= i < |s| => ToLower(s[i]))
  }

  /** The casing applied to the chosen word: capitalised when both cases are
      selected, all upper case with uppercase only, all lower case
      otherwise. */
  function ApplyCase(w: string, upper: bool, lower: bool): (r: string)
    ensures |r| == |w|
    ensures upper && lower ==>
      (|w| > 0 ==> r[0] == ToUpper(w[0])) && forall i :: 1 <= i < |w| ==> r[i] == ToLower(w[i])
    ensures upper && !lower ==> forall i :: 0 <= i < |w| ==> r[i] == ToUpper(w[i])
    ensures !upper ==> forall i :: 0 <= i < |w| ==> r[i] == ToLower(w[i])
  {
    if upper && lower then
      (if |w| == 0 then "" else [ToUpper(w[0])] + LowerString(w[1..]))
    else if upper then UpperString(w)
    else LowerString(w)
  }

  /** The dictionary words that leave room for at least two padding
      characters, in dictionary order. */
  function Eligible(dict: seq<string>, length: int): (r: seq<string>)
    ensures forall w :: w in r <==> w in dict && |w| <= length - 2
    ensures forall w :: multiset(r)[w] == if |w| <= length - 2 then multiset(dict)[w] else 0
    ensures |r| <= |dict|
  {
    if |dict| == 0 then []
    else
      assert dict == [dict[0]] + dict[1..];
      (if |dict[0]| <= length - 2 then [dict[0]] else []) + Eligible(dict[1..], length)
  }

  /** The size of the padding alphabet: nine digits, plus 26 symbols. */
  function PaddingSize(includeSymbols: bool): (n: nat)
    ensures n == 9 || n == 35
  {
    if includeSymbols then 9 + 26 else 9
  }

  /** The padding alphabet: the digits 1 to 9, then the symbols if selected. */
  function PaddingChars(includeSymbols: bool): (r: string)
    ensures |r| == PaddingSize(includeSymbols)
    ensures forall c :: c in r <==> ('1' <= c <= '9' || (includeSymbols && c in Symbols))
  {
    SymbolsAreOther();
    assert forall c :: c in PaddingDigits <==> '1' <= c <= '9' by {
      forall c | '1' <= c <= '9' ensures c in PaddingDigits {
        assert PaddingDigits[c as int - '1' as int] == c;
      }
    }
    PaddingDigits + (if includeSymbols then Symbols else "")
  }

  /** The options of the random generator a memorable request falls back
      to: the same options with numbers forced on. */
  function FallbackOptions(o: Options): (f: Options)
    ensures f.includeNumbers
    ensures f.length == o.length && f.includeSymbols == o.includeSymbols
    ensures f.includeUppercase == o.includeUppercase && f.includeLowercase == o.includeLowercase
  {
    o.(includeNumbers := true)
  }

  /** Whether a memorable request falls back to the random generator. */
  predicate FallsBack(o: Options, dict: seq<string>) {
    |dict| == 0 || |Eligible(dict, o.length)| == 0
  }

  /** The word `draws[0]` picks among the eligible ones. */
  function Chosen(o: Options, dict: seq<string>, draws: seq<nat>): (w: string)
    requires !FallsBack(o, dict)
    requires |draws| > 0 && draws[0] < |Eligible(dict, o.length)|
    ensures w in dict && |w| <= o.length - 2
  {
    var eligible := Eligible(dict, o.length);
    assert eligible[draws[0]] in eligible;
    eligible[draws[0]]
  }

  /** The draws a memorable request consumes are valid: the random
      generator's on fallback, otherwise one word pick followed by one draw
      per padding character. */
  predicate MemorableDraws(o: Options, dict: seq<string>, draws: seq<nat>) {
    if FallsBack(o, dict) then
      ValidDraws(draws, Count(o.length), PoolSize(FallbackOptions(o)))
    else
      && |draws| > 0
      && draws[0] < |Eligible(dict, o.length)|
      && ValidDraws(draws[1..], Max(2, o.length - |Chosen(o, dict, draws)|), PaddingSize(o.includeSymbols))
  }

  /** The JavaScript `s.substring(0, n)`: the first `n` characters, with `n`
      clamped to the string. */
  function Prefix(s: string, n: int): (r: string)
    ensures |r| == if n < 0 then 0 else if n > |s| then |s| else n
    ensures r <= s
  {
    if n < 0 then "" else if n > |s| then s else s[..n]
  }

  /** generateMemorablePassword: a cased dictionary word followed by random
      padding, truncated to `length`; the random generator with numbers on
      when no word fits. The `includeNumbers` option is ignored. */
  function GenerateMemorablePassword(o: Options, dict: seq<string>, draws: seq<nat>): (r: string)
    requires MemorableDraws(o, dict, draws)
    ensures FallsBack(o, dict) ==> r == GenerateRandomPassword(FallbackOptions(o), draws)
    ensures !FallsBack(o, dict) ==>
      var w := Chosen(o, dict, draws);
      && w in dict
      && |r| == o.length >= |w| + 2
      && r[..|w|] == ApplyCase(w, o.includeUppercase, o.includeLowercase)
      && (forall i :: |w| <= i < |r| ==>
           r[i] in PaddingChars(o.includeSymbols) && r[i] != '0' && !IsLower(r[i]) && !IsUpper(r[i]))
      && r[|w|..] == Sample(PaddingChars(o.includeSymbols), draws[1..], o.length - |w|)
  {
    if FallsBack(o, dict) then
      GenerateRandomPassword(FallbackOptions(o), draws)
    else
      var chosen := Chosen(o, dict, draws);
      var word := ApplyCase(chosen, o.includeUppercase, o.includeLowercase);
      var paddingLength := Max(2, o.length - |word|);
      assert paddingLength == o.length - |word|;
      var r := WordThenPadding(word, o.length, o.includeSymbols, draws[1..]);
      r
  }

  /** The memorable password once a word fits: the cased word, random
      padding from the padding alphabet, and `substring(0, length)`. */
  function WordThenPadding(word: string, length: int, includeSymbols: bool, draws: seq<nat>): (r: string)
    requires |word| + 2 <= length
    requires ValidDraws(draws, Max(2, length - |word|), PaddingSize(includeSymbols))
    ensures |r| == length
    ensures r[..|word|] == word
    ensures forall i :: |word| <= i < |r| ==>
      r[i] in PaddingChars(includeSymbols) && r[i] != '0' && !IsLower(r[i]) && !IsUpper(r[i])
    ensures r[|word|..] == Sample(PaddingChars(includeSymbols), draws, length - |word|)
  {
    var paddingLength := Max(2, length - |word|);
    var padding := Sample(PaddingChars(includeSymbols), draws, paddingLength);
    PaddingIsNotAlphanumeric(includeSymbols, padding, draws, paddingLength);
    var r := Prefix(word + padding, length);
    assert r == word + padding;
    assert forall i :: |word| <= i < |r| ==> r[i] == padding[i - |word|];
    r
  }

  /** Past the word, character `i` is the padding character at draw
      `i - |word|`: the padding follows the draws one by one. */
  lemma PaddingFollowsDraws(word: string, length: int, includeSymbols: bool, draws: seq<nat>)
    requires |word| + 2 <= length
    requires ValidDraws(draws, Max(2, length - |word|), PaddingSize(includeSymbols))
    ensures forall i :: |word| <= i < length ==>
      WordThenPadding(word, length, includeSymbols, draws)[i] == PaddingChars(includeSymbols)[draws[i - |word|]]
  {
    var r := WordThenPadding(word, length, includeSymbols, draws);
    var padding := Sample(PaddingChars(includeSymbols), draws, length - |word|);
    forall i | |word| <= i < length
      ensures r[i] == PaddingChars(includeSymbols)[draws[i - |word|]]
    {
      assert r[i] == r[|word|..][i - |word|] == padding[i - |word|];
    }
  }

  /** Padding characters are never a letter and never '0'. */
  lemma PaddingIsNotAlphanumeric(includeSymbols: bool, padding: string, draws: seq<nat>, k: nat)
    requires ValidDraws(draws, k, PaddingSize(includeSymbols))
    requires padding == Sample(PaddingChars(includeSymbols), draws, k)
    ensures forall i :: 0 <= i < |padding| ==>
      padding[i] in PaddingChars(includeSymbols) && padding[i] != '0' && !IsLower(padding[i]) && !IsUpper(padding[i])
  {
    SymbolsAreOther();
    var chars := PaddingChars(includeSymbols);
    forall i | 0 <= i < |padding|
      ensures padding[i] in chars && padding[i] != '0' && !IsLower(padding[i]) && !IsUpper(padding[i])
    {
      assert padding[i] == chars[draws[i]];
    }
  }

  // ---------------------------------------------------------------------
  // PIN generator

  /** The decimal digit character of a value below ten. */
  function DigitChar(d: nat): (c: char)
    requires d < 10
    ensures IsDigit(c) && c as int - '0' as int == d
  {
    ('0' as int + d) as char
  }

  /** generatePin: `length` digits, each the decimal form of one draw. */
  function GeneratePin(length: int, draws: seq<nat>): (r: string)
    requires ValidDraws(draws, Count(length), 10)
    ensures |r| == Count(length)
    ensures forall i :: 0 <= i < |r| ==> IsDigit(r[i]) && r[i] as int - '0' as int == draws[i]
  {
    seq(Count(length), i requires 0 <= i < Count(length) => DigitChar(draws[i]))
  }

  // ---------------------------------------------------------------------
  // Strength scorer

  predicate HasLower(p: string) { exists i :: 0 <= i < |p| && IsLower(p[i]) }
  predicate HasUpper(p: string) { exists i :: 0 <= i < |p| && IsUpper(p[i]) }
  predicate HasDigit(p: string) { exists i :: 0 <= i < |p| && IsDigit(p[i]) }
  predicate HasOther(p: string) { exists i :: 0 <= i < |p| && IsOther(p[i]) }

  /** How many of the four classes occur in `p`. */
  function Variety(p: string): (v: nat)
    ensures v <= 4
  {
    (if HasLower(p) then 1 else 0) + (if HasUpper(p) then 1 else 0)
    + (if HasDigit(p) then 1 else 0) + (if HasOther(p) then 1 else 0)
  }

  /** The tier rules, tried in order: weak, very strong, strong, medium. */
  function Tier(length: nat, variety: nat): (t: nat)
    ensures t <= 3
  {
    if length < 8 || variety == 1 then 0
    else if length >= 12 && variety == 4 then 3
    else if length >= 10 && variety >= 3 then 2
    else 1
  }

  /** checkStrength: 0 for the empty string, otherwise the tier of the
      password's length and class variety. */
  function CheckStrength(p: string): (s: nat)
    ensures s <= 3
    ensures |p| == 0 ==> s == 0
    ensures s == 0 <==> |p| < 8 || Variety(p) == 1
    ensures s == 3 <==> |p| >= 12 && Variety(p) == 4
    ensures s == 2 <==> 10 <= |p| && ((|p| < 12 && Variety(p) >= 3) || Variety(p) == 3)
    ensures s == 1 <==> 8 <= |p| && Variety(p) >= 2 && (|p| < 10 || Variety(p) == 2)
  {
    if |p| == 0 then 0 else
    VarietyOfNonEmpty(p);
    Tier(|p|, Variety(p))
  }

  /** getStrengthInfo: the label and colour of a tier; both lookups are
      undefined outside the tables. */
  function StrengthInfo(strength: int): (r: Option<(string, string)>)
    ensures r.Some? <==> 0 <= strength < 4
    ensures r.Some? ==> r.value == (StrengthLabels[strength], StrengthColors[strength])
  {
    if 0 <= strength < |StrengthLabels| && strength < |StrengthColors|
    then Some((StrengthLabels[strength], StrengthColors[strength]))
    else None
  }

  // ---------------------------------------------------------------------
  // Dispatch

  /** The options `generatePassword` hands the generators: the settings with
      `length` set to the parsed password length. */
  function OptionsOf(s: Settings): (o: Options)
    ensures o.length == s.passwordLength
    ensures o.includeUppercase == s.includeUppercase && o.includeLowercase == s.includeLowercase
    ensures o.includeNumbers == s.includeNumbers && o.includeSymbols == s.includeSymbols
  {
    Options(s.passwordLength, s.includeUppercase, s.includeLowercase, s.includeNumbers, s.includeSymbols)
  }

  predicate DispatchDraws(s: Settings, dict: seq<string>, draws: seq<nat>) {
    match s.passwordType
    case Random => ValidDraws(draws, Count(s.passwordLength), PoolSize(OptionsOf(s)))
    case Memorable => MemorableDraws(OptionsOf(s), dict, draws)
    case Pin => ValidDraws(draws, Count(s.passwordLength), 10)
  }

  /** generatePassword: the generator chosen by the password type, and the
      strength of what it produced. */
  function GeneratePassword(s: Settings, dict: seq<string>, draws: seq<nat>): (r: (string, nat))
    requires DispatchDraws(s, dict, draws)
    ensures r.1 == CheckStrength(r.0)
    ensures |r.0| == Count(s.passwordLength)
    ensures s.passwordType == Random ==> r.0 == GenerateRandomPassword(OptionsOf(s), draws)
    ensures s.passwordType == Memorable ==> r.0 == GenerateMemorablePassword(OptionsOf(s), dict, draws)
    ensures s.passwordType == Pin ==> r.0 == GeneratePin(s.passwordLength, draws) && r.1 == 0
  {
    match s.passwordType
    case Random =>
      var password := GenerateRandomPassword(OptionsOf(s), draws);
      (password, CheckStrength(password))
    case Memorable =>
      var password := GenerateMemorablePassword(OptionsOf(s), dict, draws);
      (password, CheckStrength(password))
    case Pin =>
      var password := GeneratePin(s.passwordLength, draws);
      PinIsWeak(s.passwordLength, draws);
      (password, CheckStrength(password))
  }

  // ---------------------------------------------------------------------
  // Lemmas

  /** Every score the scorer produces has a label and a colour. */
  lemma EveryScoreHasInfo(p: string)
    ensures StrengthInfo(CheckStrength(p)).Some?
    ensures StrengthInfo(CheckStrength(p)).value.0 in StrengthLabels
  {
  }

  /** A non-empty password has at least one class. */
  lemma VarietyOfNonEmpty(p: string)
    requires |p| > 0
    ensures Variety(p) >= 1
  {
    var c := p[0];
    if IsLower(c) { assert HasLower(p); }
    else if IsUpper(c) { assert HasUpper(p); }
    else if IsDigit(c) { assert HasDigit(p); }
    else { assert HasOther(p); }
  }

  /** Every PIN scores 0: it has at most one class. */
  lemma PinIsWeak(length: int, draws: seq<nat>)
    requires ValidDraws(draws, Count(length), 10)
    ensures CheckStrength(GeneratePin(length, draws)) == 0
  {
    var p := GeneratePin(length, draws);
    assert !HasLower(p) && !HasUpper(p) && !HasOther(p);
    if |p| > 0 { VarietyOfNonEmpty(p); }
  }

  /** The classes that occur in `p`, as a set. */
  function ClassesIn(p: string): set<CharClass>
  {
    set i | 0 <= i < |p| :: ClassOf(p[i])
  }

  /** `{k}` when `b` holds, otherwise the empty set. */
  function Singleton(b: bool, k: CharClass): (r: set<CharClass>)
    ensures |r| == if b then 1 else 0
    ensures forall x :: x in r <==> b && x == k
  {
    if b then {k} else {}
  }

  /** The classes present in `p`, one flag per class. */
  function PresentClasses(p: string): set<CharClass>
  {
    Singleton(HasLower(p), LowerClass) + Singleton(HasUpper(p), UpperClass)
    + Singleton(HasDigit(p), DigitClass) + Singleton(HasOther(p), OtherClass)
  }

  lemma PresentClassesSize(p: string)
    ensures |PresentClasses(p)| == Variety(p)
  {
    var lo := Singleton(HasLower(p), LowerClass);
    var up := Singleton(HasUpper(p), UpperClass);
    var di := Singleton(HasDigit(p), DigitClass);
    var ot := Singleton(HasOther(p), OtherClass);
    assert lo !! up;
    assert |lo + up| == |lo| + |up|;
    assert (lo + up) !! di;
    assert |lo + up + di| == |lo + up| + |di|;
    assert (lo + up + di) !! ot;
    assert |lo + up + di + ot| == |lo + up + di| + |ot|;
  }

  lemma ClassesInArePresent(p: string)
    ensures ClassesIn(p) == PresentClasses(p)
  {
    forall k | k in ClassesIn(p) ensures k in PresentClasses(p) {
      var i :| 0 <= i < |p| && ClassOf(p[i]) == k;
    }
    forall k | k in PresentClasses(p) ensures k in ClassesIn(p) {
      var i :| 0 <= i < |p| && ClassOf(p[i]) == k;
    }
  }

  /** The scorer's variety count is the number of distinct classes among the
      password's characters. */
  lemma VarietyCountsClasses(p: string)
    ensures Variety(p) == |ClassesIn(p)|
  {
    ClassesInArePresent(p);
    PresentClassesSize(p);
  }

  /** The tier never decreases when the length or the variety grows, as long
      as the variety stays at least one. */
  lemma TierMonotone(l1: nat, v1: nat, l2: nat, v2: nat)
    requires l1 <= l2 && 1 <= v1 <= v2 <= 4
    ensures Tier(l1, v1) <= Tier(l2, v2)
  {
  }

  /** Appending characters never lowers the strength score. */
  lemma {:induction false} StrengthMonotoneUnderAppend(p: string, q: string)
    ensures CheckStrength(p) <= CheckStrength(p + q)
  {
    if |p| > 0 {
      var pq := p + q;
      assert forall i :: 0 <= i < |p| ==> pq[i] == p[i];
      assert HasLower(p) ==> HasLower(pq) by {
        if HasLower(p) { var i :| 0 <= i < |p| && IsLower(p[i]); assert IsLower(pq[i]); }
      }
      assert HasUpper(p) ==> HasUpper(pq) by {
        if HasUpper(p) { var i :| 0 <= i < |p| && IsUpper(p[i]); assert IsUpper(pq[i]); }
      }
      assert HasDigit(p) ==> HasDigit(pq) by {
        if HasDigit(p) { var i :| 0 <= i < |p| && IsDigit(p[i]); assert IsDigit(pq[i]); }
      }
      assert HasOther(p) ==> HasOther(pq) by {
        if HasOther(p) { var i :| 0 <= i < |p| && IsOther(p[i]); assert IsOther(pq[i]); }
      }
      VarietyOfNonEmpty(p);
      TierMonotone(|p|, Variety(p), |pq|, Variety(pq));
    }
  }

  /** The scorer's documented boundary cases. */
  lemma StrengthExamples()
    ensures CheckStrength("aaaaaaa") == 0
    ensures CheckStrength("Aa1!Aa1!") == 1
    ensures CheckStrength("Aa1bbbbbbb") == 2
    ensures CheckStrength("Aa1!Aa1!Aa1!") == 3
  {
    var s1 := "Aa1!Aa1!";
    assert IsUpper(s1[0]) && IsLower(s1[1]) && IsDigit(s1[2]) && IsOther(s1[3]);
    assert Variety(s1) == 4;
    var s2 := "Aa1bbbbbbb";
    assert IsUpper(s2[0]) && IsLower(s2[1]) && IsDigit(s2[2]);
    assert !HasOther(s2);
    var s3 := "Aa1!Aa1!Aa1!";
    assert IsUpper(s3[0]) && IsLower(s3[1]) && IsDigit(s3[2]) && IsOther(s3[3]);
    var s0 := "aaaaaaa";
    assert |s0| == 7;
  }

  /** With no class selected every character is a lowercase letter, so the
      password scores 0. */
  lemma NoFlagsGivesWeakLowercase(o: Options, draws: seq<nat>)
    requires !o.includeUppercase && !o.includeLowercase && !o.includeNumbers && !o.includeSymbols
    requires ValidDraws(draws, Count(o.length), PoolSize(o))
    ensures forall i :: 0 <= i < Count(o.length) ==> IsLower(GenerateRandomPassword(o, draws)[i])
    ensures CheckStrength(GenerateRandomPassword(o, draws)) == 0
  {
    var p := GenerateRandomPassword(o, draws);
    assert forall i :: 0 <= i < |p| ==> IsLower(p[i]);
    assert !HasUpper(p) && !HasDigit(p) && !HasOther(p);
    if |p| > 0 { VarietyOfNonEmpty(p); }
  }

  /** The random generator does not promise one character of every selected
      class: with all classes on, repeated first draws give letters only. */
  lemma NoClassCoverageGuarantee()
    ensures GenerateRandomPassword(Options(8, true, true, true, true), [0, 0, 0, 0, 0, 0, 0, 0]) == "AAAAAAAA"
  {
    var o := Options(8, true, true, true, true);
    assert Pool(o)[0] == 'A';
  }

  /** PINs may start with zero. */
  lemma PinLeadingZero()
    ensures GeneratePin(4, [0, 7, 0, 9]) == "0709"
  {
  }

  predicate AsciiLetters(w: string) {
    forall i :: 0 <= i < |w| ==> IsLower(w[i]) || IsUpper(w[i])
  }

  /** For a word of ASCII letters the casing rule gives: a capital followed by
      lowercase with both cases selected, all capitals with uppercase only,
      all lowercase otherwise; and the word is unchanged apart from case. */
  lemma ApplyCaseOfLetters(w: string, upper: bool, lower: bool)
    requires AsciiLetters(w)
    ensures var r := ApplyCase(w, upper, lower);
      && AsciiLetters(r)
      && LowerString(r) == LowerString(w)
      && (upper && lower && |w| > 0 ==> IsUpper(r[0]) && forall i :: 1 <= i < |r| ==> IsLower(r[i]))
      && (upper && !lower ==> forall i :: 0 <= i < |r| ==> IsUpper(r[i]))
      && (!upper ==> forall i :: 0 <= i < |r| ==> IsLower(r[i]))
  {
    var r := ApplyCase(w, upper, lower);
    forall i | 0 <= i < |w|
      ensures ToLower(r[i]) == ToLower(w[i])
      ensures IsLower(r[i]) || IsUpper(r[i])
    {
    }
  }
}
