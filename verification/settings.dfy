/** The settings normaliser (src/hooks/usePasswordSettings.js), lifted out
    of its React hook: single-field updates with their two guards, the
    password-type state machine, the minimum length, loading stored settings
    over the defaults, and reset. */
module PasswordSettings {
  import opened Constants
  import opened Optional

  /** The four class flags of the settings. */
  datatype Flag = UppercaseFlag | LowercaseFlag | SymbolsFlag | NumbersFlag

  /** The keys of the settings object. */
  datatype Key = LengthKey | FlagKey(flag: Flag) | TypeKey

  /** A single-field update `updateSetting(key, value)`, one constructor per
      kind of key. */
  datatype Update =
    | SetLength(length: int)
    | SetFlag(flag: Flag, on: bool)
    | SetType(kind: PasswordType)

  function KeyOf(u: Update): Key {
    match u
    case SetLength(_) => LengthKey
    case SetFlag(f, _) => FlagKey(f)
    case SetType(_) => TypeKey
  }

  function GetFlag(s: Settings, f: Flag): bool {
    match f
    case UppercaseFlag => s.includeUppercase
    case LowercaseFlag => s.includeLowercase
    case SymbolsFlag => s.includeSymbols
    case NumbersFlag => s.includeNumbers
  }

  /** `a` and `b` hold the same value under key `k`. */
  predicate SameAt(a: Settings, b: Settings, k: Key) {
    match k
    case LengthKey => a.passwordLength == b.passwordLength
    case FlagKey(f) => GetFlag(a, f) == GetFlag(b, f)
    case TypeKey => a.passwordType == b.passwordType
  }

  /** `a` and `b` agree on every key except possibly `k`. */
  ghost predicate SameExcept(a: Settings, b: Settings, k: Key) {
    forall k' :: k' != k ==> SameAt(a, b, k')
  }

  /** `s` holds the value the update writes. */
  predicate Holds(s: Settings, u: Update) {
    match u
    case SetLength(n) => s.passwordLength == n
    case SetFlag(f, b) => GetFlag(s, f) == b
    case SetType(t) => s.passwordType == t
  }

  /** `{ ...prev, [key]: value }`: the update written into the settings. */
  function Assign(s: Settings, u: Update): (r: Settings)
    ensures Holds(r, u)
    ensures SameExcept(s, r, KeyOf(u))
  {
    match u
    case SetLength(n) => s.(passwordLength := n)
    case SetFlag(UppercaseFlag, b) => s.(includeUppercase := b)
    case SetFlag(LowercaseFlag, b) => s.(includeLowercase := b)
    case SetFlag(SymbolsFlag, b) => s.(includeSymbols := b)
    case SetFlag(NumbersFlag, b) => s.(includeNumbers := b)
    case SetType(t) => s.(passwordType := t)
  }

  /** The first guard: switching numbers off while the type is memorable. */
  predicate RefusesUpdate(s: Settings, u: Update) {
    u == SetFlag(NumbersFlag, false) && s.passwordType == Memorable
  }

  /** The second guard: choosing memorable while numbers are off. */
  predicate ForcesNumbers(s: Settings, u: Update) {
    u == SetType(Memorable) && !s.includeNumbers
  }

  /** updateSetting: refuses to switch numbers off for a memorable password,
      switches numbers on when the type is set to memorable, and otherwise
      writes the one field. */
  function UpdateSetting(s: Settings, u: Update): (r: Settings)
    ensures RefusesUpdate(s, u) ==> r == s
    ensures ForcesNumbers(s, u) ==>
      && r.passwordType == Memorable && r.includeNumbers
      && forall k :: k != TypeKey && k != FlagKey(NumbersFlag) ==> SameAt(s, r, k)
    ensures !RefusesUpdate(s, u) && !ForcesNumbers(s, u) ==> Holds(r, u) && SameExcept(s, r, KeyOf(u))
  {
    if RefusesUpdate(s, u) then s
    else if ForcesNumbers(s, u) then s.(passwordType := Memorable, includeNumbers := true)
    else Assign(s, u)
  }

  /** getMinLength: 4 for a PIN, 8 for the other types. */
  function MinLength(t: PasswordType): (n: nat)
    ensures t == Pin <==> n == 4
    ensures t != Pin <==> n == 8
  {
    if t == Pin then 4 else 8
  }

  /** handlePasswordTypeChange: switch to type `t` and coerce the fields that
      type constrains, all in one new settings value. */
  function ChangeType(s: Settings, t: PasswordType): (r: Settings)
    ensures r.passwordType == t
    ensures r.passwordLength >= s.passwordLength
    ensures t != Pin ==> r.includeSymbols == s.includeSymbols
    ensures t == Pin ==>
      && !r.includeUppercase && !r.includeLowercase && !r.includeSymbols && r.includeNumbers
      && r.passwordLength == Max(s.passwordLength, 4)
    ensures t == Memorable ==>
      && r.includeNumbers
      && r.passwordLength == Max(s.passwordLength, 8)
      && (s.passwordType == Pin ==> r.includeUppercase && r.includeLowercase)
      && (s.passwordType != Pin ==>
            r.includeUppercase == s.includeUppercase && r.includeLowercase == s.includeLowercase)
    ensures t == Random && s.passwordType != Pin ==> SameExcept(s, r, TypeKey)
    ensures t == Random && s.passwordType == Pin ==>
      && r.includeUppercase && r.includeLowercase
      && r.includeSymbols == s.includeSymbols && r.includeNumbers == s.includeNumbers
      && r.passwordLength == Max(s.passwordLength, 8)
  {
    var n := s.(passwordType := t);
    match t
    case Pin =>
      n.(includeUppercase := false, includeLowercase := false, includeSymbols := false,
         includeNumbers := true,
         passwordLength := if n.passwordLength < 4 then 4 else n.passwordLength)
    case Memorable =>
      var n1 := n.(includeNumbers := true);
      var n2 := if s.passwordType == Pin then n1.(includeUppercase := true, includeLowercase := true) else n1;
      n2.(passwordLength := if n2.passwordLength < 8 then 8 else n2.passwordLength)
    case Random =>
      if s.passwordType == Pin then
        n.(includeUppercase := true, includeLowercase := true,
           passwordLength := if n.passwordLength < 8 then 8 else n.passwordLength)
      else n
  }

  /** Settings as read back from storage: any field may be missing. */
  datatype StoredSettings = StoredSettings(
    passwordLength: Option<int>,
    includeUppercase: Option<bool>,
    includeLowercase: Option<bool>,
    includeSymbols: Option<bool>,
    includeNumbers: Option<bool>,
    passwordType: Option<PasswordType>)

  /** What is written to storage: every field present. */
  function Store(s: Settings): (r: StoredSettings)
    ensures r.passwordLength == Some(s.passwordLength) && r.passwordType == Some(s.passwordType)
    ensures r.includeUppercase == Some(s.includeUppercase) && r.includeLowercase == Some(s.includeLowercase)
    ensures r.includeSymbols == Some(s.includeSymbols) && r.includeNumbers == Some(s.includeNumbers)
  {
    StoredSettings(Some(s.passwordLength), Some(s.includeUppercase), Some(s.includeLowercase),
                   Some(s.includeSymbols), Some(s.includeNumbers), Some(s.passwordType))
  }

  /** The settings at start-up: `{ ...DEFAULT_SETTINGS, ...parsed }` when
      something was stored and parsed, the defaults otherwise. */
  function Load(saved: Option<StoredSettings>): (r: Settings)
    ensures saved.None? ==> r == DefaultSettings
    ensures saved.Some? ==>
      var p := saved.value;
      && (p.passwordLength.Some? ==> r.passwordLength == p.passwordLength.value)
      && (p.passwordLength.None? ==> r.passwordLength == DefaultSettings.passwordLength)
      && (p.includeUppercase.Some? ==> r.includeUppercase == p.includeUppercase.value)
      && (p.includeUppercase.None? ==> r.includeUppercase == DefaultSettings.includeUppercase)
      && (p.includeLowercase.Some? ==> r.includeLowercase == p.includeLowercase.value)
      && (p.includeLowercase.None? ==> r.includeLowercase == DefaultSettings.includeLowercase)
      && (p.includeSymbols.Some? ==> r.includeSymbols == p.includeSymbols.value)
      && (p.includeSymbols.None? ==> r.includeSymbols == DefaultSettings.includeSymbols)
      && (p.includeNumbers.Some? ==> r.includeNumbers == p.includeNumbers.value)
      && (p.includeNumbers.None? ==> r.includeNumbers == DefaultSettings.includeNumbers)
      && (p.passwordType.Some? ==> r.passwordType == p.passwordType.value)
      && (p.passwordType.None? ==> r.passwordType == DefaultSettings.passwordType)
  {
    match saved
    case None => DefaultSettings
    case Some(p) =>
      var d := DefaultSettings;
      Settings(ValueOr(p.passwordLength, d.passwordLength),
               ValueOr(p.includeUppercase, d.includeUppercase),
               ValueOr(p.includeLowercase, d.includeLowercase),
               ValueOr(p.includeSymbols, d.includeSymbols),
               ValueOr(p.includeNumbers, d.includeNumbers),
               ValueOr(p.passwordType, d.passwordType))
  }

  /** resetSettings: back to the defaults. */
  function Reset(): (r: Settings)
    ensures r.passwordLength == 8 && r.passwordType == Random
    ensures r.includeUppercase && r.includeLowercase && !r.includeSymbols && !r.includeNumbers
  {
    DefaultSettings
  }

  // ---------------------------------------------------------------------
  // Lemmas

  /** Whatever was stored, what is stored back loads unchanged. */
  lemma LoadStoreRoundTrip(s: Settings)
    ensures Load(Some(Store(s))) == s
  {
  }

  /** A stored record with no fields loads as the defaults, as does reset. */
  lemma EmptyStoreLoadsDefaults()
    ensures Load(Some(StoredSettings(None, None, None, None, None, None))) == DefaultSettings
    ensures Load(None) == Reset()
  {
  }

  /** The invariant the normaliser aims at: a PIN uses numbers only, a
      memorable password always has numbers. */
  predicate Consistent(s: Settings) {
    && (s.passwordType == Pin ==>
          !s.includeUppercase && !s.includeLowercase && !s.includeSymbols && s.includeNumbers)
    && (s.passwordType == Memorable ==> s.includeNumbers)
  }

  /** A type change always yields consistent settings, whatever came before. */
  lemma ChangeTypeConsistent(s: Settings, t: PasswordType)
    ensures Consistent(ChangeType(s, t))
  {
  }

  /** Changing to the same type twice is the same as changing once. */
  lemma ChangeTypeIdempotent(s: Settings, t: PasswordType)
    ensures ChangeType(ChangeType(s, t), t) == ChangeType(s, t)
  {
  }

  /** Switching from a PIN to memorable always restores both cases and
      numbers, whatever the flags were. */
  lemma PinToMemorableRestoresFlags(s: Settings)
    requires s.passwordType == Pin
    ensures var r := ChangeType(s, Memorable);
      r.includeUppercase && r.includeLowercase && r.includeNumbers
  {
  }

  /** A type change keeps the length at or above the new type's minimum,
      provided it was at or above the old type's minimum; a change to PIN
      or memorable establishes it outright. */
  lemma ChangeTypeKeepsMinLength(s: Settings, t: PasswordType)
    ensures t != Random ==> ChangeType(s, t).passwordLength >= MinLength(t)
    ensures s.passwordLength >= MinLength(s.passwordType) ==>
      ChangeType(s, t).passwordLength >= MinLength(t)
  {
  }

  /** "A memorable password has numbers" holds of the defaults and survives
      every single-field update and every type change. */
  lemma MemorableNumbersInvariant(s: Settings, u: Update, t: PasswordType)
    ensures Reset().passwordType == Memorable ==> Reset().includeNumbers
    ensures (s.passwordType == Memorable ==> s.includeNumbers) ==>
      var r := UpdateSetting(s, u);
      r.passwordType == Memorable ==> r.includeNumbers
    ensures var r := ChangeType(s, t); r.passwordType == Memorable ==> r.includeNumbers
  {
  }
}
