# passgen-react core, modelled in Dafny

This project models the logic at the centre of a browser password
generator: the three generators (random characters, memorable word plus
padding, numeric PIN), the strength scorer, the settings normaliser that
keeps the configuration consistent across password-type changes, and the
bounded, newest-first password history. All four pieces are pure
functions over immutable values here, taken out of the React hooks that
hold them in the original.

Randomness is an oracle. Each generator takes `draws: seq<nat>`, the
results of its `Math.floor(Math.random() * n)` calls in call order, each
already below the size `n` of the pool it indexes (a memorable password
uses `draws[0]` to pick the word and `draws[1..]` for the padding). The
word dictionary is a parameter `dict: seq<string>`.

Files and modules:

- `option.dfy` (`Optional`): an `Option` type, with `ValueOr`, for absent stored fields and out-of-table lookups.
- `constants.dfy` (`Constants`): the character sets, default settings, strength tables, history cap, the `Settings` record and the four character classes of the scorer.
- `generator.dfy` (`PasswordGenerator`): pool building, the three generators, casing, padding, `CheckStrength`, `StrengthInfo` and the type dispatch.
- `settings.dfy` (`PasswordSettings`): `UpdateSetting`, `ChangeType` (handlePasswordTypeChange), `MinLength`, `Load`/`Store`, `Reset`.
- `history.dfy` (`PasswordHistory`): `SavePassword`, `ClearHistory` and a fold over many saves.

The history entry's `type` key is the field `kind`, because `type` is a Dafny keyword.

## Model

| member | source | states |
|---|---|---|
| `PasswordGenerator.Sample` | src/hooks/usePasswordGenerator.js:45-52 | `k` loop iterations of "append one pool character" give exactly `k` characters, the `i`-th being the pool character at draw `i` |
| `PasswordGenerator.Pool` | src/hooks/usePasswordGenerator.js:29-40 | the pool is never empty; it has 26/26/10/26 characters per selected set (26 when none is selected); a character is in it exactly when it belongs to a selected class, or is lowercase when no class is selected |
| `PasswordGenerator.GenerateRandomPassword` | src/hooks/usePasswordGenerator.js:20-56 | exactly `length` characters (none for a negative length); character `i` is the pool character at draw `i`; every character lies in a selected class |
| `PasswordGenerator.NoFlagsGivesWeakLowercase` | src/hooks/usePasswordGenerator.js:36-40 | with no class selected every character is a lowercase letter, and the password scores 0 |
| `PasswordGenerator.NoClassCoverageGuarantee` | src/hooks/usePasswordGenerator.js:49-52 | sampling does not guarantee one character per selected class: with all four classes on, a password may be all `A` |
| `PasswordGenerator.ApplyCase` | src/hooks/usePasswordGenerator.js:81-89 | casing keeps the word's length; both cases: first character upper-cased, rest lower-cased; uppercase only: all upper-cased; otherwise: all lower-cased |
| `PasswordGenerator.ApplyCaseOfLetters` | src/hooks/usePasswordGenerator.js:81-89 | for an ASCII-letter word the cased word is still letters, equal to the original ignoring case, and capitalised, all upper or all lower by the flags |
| `PasswordGenerator.Eligible` | src/hooks/usePasswordGenerator.js:70-71 | a word is eligible exactly when it is in the dictionary and at most `length - 2` long; each eligible word occurs as often as in the dictionary and every other word not at all, so duplicates weight the pick |
| `PasswordGenerator.Chosen` | src/hooks/usePasswordGenerator.js:79 | the word `draws[0]` picks is a dictionary word of length at most `length - 2` |
| `PasswordGenerator.PaddingChars` | src/hooks/usePasswordGenerator.js:93-97 | the padding alphabet is the digits 1 to 9, plus the 26 symbols when symbols are selected (9 or 35 characters) |
| `PasswordGenerator.PaddingIsNotAlphanumeric` | src/hooks/usePasswordGenerator.js:99-102 | every padding character comes from the padding alphabet, is never `0` and is never a letter |
| `PasswordGenerator.FallbackOptions` | src/hooks/usePasswordGenerator.js:62 | the fallback request keeps length, case and symbol flags and has numbers on |
| `PasswordGenerator.Prefix` | src/hooks/usePasswordGenerator.js:105 | `substring(0, n)` is a prefix of length `n` clamped to `0..|s|` |
| `PasswordGenerator.WordThenPadding` | src/hooks/usePasswordGenerator.js:91-105 | when the word leaves room for two padding characters, the result has exactly `length` characters and begins with the word; the rest is the padding sampled from the padding alphabet by the draws in order, each character from the alphabet, never `0` and never a letter |
| `PasswordGenerator.PaddingFollowsDraws` | src/hooks/usePasswordGenerator.js:99-102 | past the word, character `i` is the padding-alphabet character at draw `i - |word|` |
| `PasswordGenerator.GenerateMemorablePassword` | src/hooks/usePasswordGenerator.js:59-109 | on an empty dictionary or no eligible word the result equals the random generator with numbers on; otherwise the chosen word is from the dictionary, the result has exactly `length >= |word| + 2` characters (the truncation removes nothing), starts with the cased word, and continues with the padding sampled by `draws[1..]` in order (character `|word| + j` is the padding-alphabet character at `draws[1 + j]`), never `0` nor a letter |
| `PasswordGenerator.GeneratePin` | src/hooks/usePasswordGenerator.js:111-121 | exactly `length` characters, each the decimal digit of its draw (so leading zeros occur) |
| `PasswordGenerator.PinLeadingZero` | src/hooks/usePasswordGenerator.js:114-117 | a PIN may start with `0` |
| `PasswordGenerator.PinIsWeak` | src/hooks/usePasswordGenerator.js:114-117 | every PIN scores 0 |
| `PasswordGenerator.Variety` | src/hooks/usePasswordGenerator.js:137-146 | the variety count is at most 4 |
| `PasswordGenerator.VarietyOfNonEmpty` | src/hooks/usePasswordGenerator.js:137-146 | a non-empty string has variety at least 1 |
| `PasswordGenerator.VarietyCountsClasses` | src/hooks/usePasswordGenerator.js:137-146 | the variety count equals the number of distinct classes among the characters |
| `PasswordGenerator.CheckStrength` | src/hooks/usePasswordGenerator.js:134-153 | result in 0..3, 0 for the empty string; each tier is characterised both ways: 0 iff length < 8 or one class; 3 iff length >= 12 and four classes; 2 iff length >= 10 and three classes, or four classes with length 10 or 11; 1 iff length >= 8, at least two classes and not stronger |
| `PasswordGenerator.TierMonotone` | src/hooks/usePasswordGenerator.js:149-152 | the tier rules never lower the tier as length or variety grows |
| `PasswordGenerator.StrengthMonotoneUnderAppend` | src/hooks/usePasswordGenerator.js:134-153 | appending characters to a password never lowers its score |
| `PasswordGenerator.StrengthExamples` | src/hooks/usePasswordGenerator.js:149-152 | `aaaaaaa` scores 0, `Aa1!Aa1!` 1, `Aa1bbbbbbb` 2, `Aa1!Aa1!Aa1!` 3 |
| `PasswordGenerator.StrengthInfo` | src/hooks/usePasswordGenerator.js:155-160 | a label and a colour exist exactly for tiers 0..3, taken from the two tables |
| `PasswordGenerator.EveryScoreHasInfo` | src/hooks/usePasswordGenerator.js:155-160 | every score the scorer returns indexes both strength tables |
| `PasswordGenerator.GeneratePassword` | src/hooks/usePasswordGenerator.js:172-193 | the type picks the generator; the password has exactly the requested length for every type; its strength is the scorer's value, and 0 for every PIN |
| `PasswordSettings.Assign` | src/hooks/usePasswordSettings.js:58 | a plain update writes its value under its key and leaves every other key unchanged |
| `PasswordSettings.UpdateSetting` | src/hooks/usePasswordSettings.js:38-61 | switching numbers off for a memorable password changes nothing; choosing memorable with numbers off sets the type and numbers and nothing else; any other update writes only its key |
| `PasswordSettings.MinLength` | src/hooks/usePasswordSettings.js:74-76 | 4 exactly for a PIN, 8 exactly for the other types |
| `PasswordSettings.ChangeType` | src/hooks/usePasswordSettings.js:79-129 | the type becomes `t` and the length never decreases; to PIN: numbers only, length at least 4; to memorable: numbers on, length at least 8, both cases on when coming from a PIN and unchanged otherwise; to random from a non-PIN type: only the type changes; to random from a PIN: both cases on, length at least 8, numbers and symbols kept; symbols change only on a change to PIN |
| `PasswordSettings.ChangeTypeConsistent` | src/hooks/usePasswordSettings.js:87-111 | after any type change a PIN uses numbers only and a memorable password has numbers |
| `PasswordSettings.ChangeTypeIdempotent` | src/hooks/usePasswordSettings.js:79-129 | changing to the same type twice is the same as changing once |
| `PasswordSettings.PinToMemorableRestoresFlags` | src/hooks/usePasswordSettings.js:99-105 | from a PIN, memorable always has both cases and numbers on |
| `PasswordSettings.ChangeTypeKeepsMinLength` | src/hooks/usePasswordSettings.js:87-123 | a change to PIN or memorable reaches the new minimum length; any change keeps the length at the minimum if it was there before |
| `PasswordSettings.MemorableNumbersInvariant` | src/hooks/usePasswordSettings.js:43-55 | "memorable implies numbers" holds for the defaults and survives every update and type change |
| `PasswordSettings.Store` | src/hooks/usePasswordSettings.js:31 | every field is written |
| `PasswordSettings.Load` | src/hooks/usePasswordSettings.js:10-24 | nothing stored (or unparsable) gives the defaults; otherwise each stored field wins and each missing field takes its default |
| `PasswordSettings.LoadStoreRoundTrip` | src/hooks/usePasswordSettings.js:16 | settings written to storage load back unchanged |
| `PasswordSettings.EmptyStoreLoadsDefaults` | src/hooks/usePasswordSettings.js:16 | a stored record with no fields loads as the defaults, which is also what reset gives |
| `PasswordSettings.Reset` | src/hooks/usePasswordSettings.js:63-71 | reset gives length 8, random type, both cases on, symbols and numbers off |
| `PasswordHistory.Cap` | src/hooks/usePasswordHistory.js:26 | `slice(0, 5)` keeps a prefix of at most five entries |
| `PasswordHistory.SavePassword` | src/hooks/usePasswordHistory.js:21-36 | an empty password leaves the history unchanged; otherwise entry 0 is the new entry with the given arguments, the length is `min(old + 1, 5)` and entry `i + 1` is old entry `i` |
| `PasswordHistory.SaveKeepsCap` | src/hooks/usePasswordHistory.js:26 | a history within the cap stays within it after a save |
| `PasswordHistory.SaveOnlyShifts` | src/hooks/usePasswordHistory.js:26 | a save keeps the old entries unchanged, shifted by one, dropping only the oldest |
| `PasswordHistory.ClearHistory` | src/hooks/usePasswordHistory.js:43-46 | clearing gives the empty history |
| `PasswordHistory.SaveAllKeepsNewest` | src/hooks/usePasswordHistory.js:21-36 | after any run of saves the history is the saved entries newest first, followed by the old history, cut to five; unchanged if nothing was saved |
| `PasswordHistory.ManySavesKeepLastFive` | src/hooks/usePasswordHistory.js:26 | after five or more non-empty saves the history is exactly the last five, newest first |
| `Constants.DefaultSettingsValues` | src/utils/constants.js:2-9 | the default settings: length 8, both cases on, symbols and numbers off, random type |
| `Constants.UppercaseIsClass` | src/utils/constants.js:17 | 26 characters, `A` to `Z` in order; membership is exactly the uppercase class |
| `Constants.LowercaseIsClass` | src/utils/constants.js:18 | 26 characters, `a` to `z` in order; membership is exactly the lowercase class |
| `Constants.NumbersIsClass` | src/utils/constants.js:20 | 10 characters, `0` to `9` in order; membership is exactly the digit class |
| `Constants.SymbolsAreOther` | src/utils/constants.js:19 | 26 distinct characters, none a letter or a digit |
| `Constants.CharSetsHaveNoDuplicates` | src/utils/constants.js:16-21 | no set repeats a character |
| `Constants.CharSetsAreDisjointClasses` | src/utils/constants.js:16-21 | each set lies in exactly one scorer class and the sets are pairwise disjoint |
| `Constants.ClassOf` | src/hooks/usePasswordGenerator.js:137-140 | every character is in exactly one of the four classes the scorer tests |
| `Constants.StrengthTablesCoverTiers` | src/utils/constants.js:12-13 | both strength tables have four entries, one per tier |

## Behaviour worth knowing

- A change to the random type raises the length to 8 only when the previous type was PIN (src/hooks/usePasswordSettings.js:113-123); from memorable or random, only the type changes.
- `updateSetting("passwordType", ...)` is a separate path from the type-change handler: it forces numbers on for memorable but coerces nothing else and does not raise the length (src/hooks/usePasswordSettings.js:49-58).
- The generators draw from `Math.random`; the secure source defined at src/hooks/usePasswordGenerator.js:8-17 is never called. The oracle stands for whichever source supplies the indices.
- The history entry stores the password type under the key `type` (src/hooks/usePasswordHistory.js:26).

## Left out

- React state, effects, `useCallback` wiring and the `loaded` gate: framework plumbing.
- `localStorage` reads and writes, `JSON.parse`/`JSON.stringify` and their `try`/`catch`: storage I/O. `Load(None)` stands for "nothing stored" and "stored text did not parse", both of which leave the defaults. A parsed object with extra keys, `null` fields or ill-typed fields is not modelled: `StoredSettings` has exactly the six keys, each present with the right type or absent.
- Loading the saved history: a stored history is taken as a sequence of entries; its parsing is I/O.
- `getSecureRandom`/`getSecureRandomInt`: never called by the generators; `Math.random` is the index oracle `draws` described above.
- Default parameter values of the generator functions (`length = 8`, ...): the dispatch always passes every field, so they never apply.
- `parseInt` of the slider value: `passwordLength` is an `int`.
- Unknown password types: `passwordType` is a three-value datatype, so the dispatch's implicit empty-password case and `updateSetting("passwordType", <other string>)` cannot arise.
- `UpdateSetting`: only well-typed updates of the six known keys are modelled; a JavaScript call could write any key with any value.
- CheckStrength: lengths are counted in characters, whereas `pwd.length` counts UTF-16 code units, so a string with characters outside the Basic Multilingual Plane can score lower here than in the source; the two agree on the ASCII strings the generators produce.
- `ToUpper`/`ToLower`: ASCII-only case mapping; the word list is taken as ASCII letters, for which it agrees with `toUpperCase`/`toLowerCase`. The word list file itself is not part of this model; it is the parameter `dict`.
- `useFromHistory`, clipboard copy, toasts, `src/utils/logger.js`, `src/utils/formatDate.js` and all components: UI and side effects, including the slider maximum of 24 and the strength bar width.
- The save timestamp `new Date().toISOString()`: an opaque string parameter.
