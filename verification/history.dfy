/** The bounded password history (src/hooks/usePasswordHistory.js), lifted
    out of its React hook: newest entry first, at most `MaxHistoryItems`
    entries. The save time is an opaque string supplied by the caller. */
module PasswordHistory {
  import opened Constants

  /** One saved password; `type` is the password type current when it was
      saved. */
  datatype Entry = Entry(password: string, timestamp: string, kind: PasswordType, strength: int)

  /** `xs.slice(0, MAX_HISTORY_ITEMS)`: the first entries, up to the cap. */
  function Cap(xs: seq<Entry>): (r: seq<Entry>)
    ensures |r| == if |xs| < MaxHistoryItems then |xs| else MaxHistoryItems
    ensures r <= xs
  {
    if |xs| < MaxHistoryItems then xs else xs[..MaxHistoryItems]
  }

  /** savePassword: nothing for an empty password; otherwise the new entry
      in front of the old ones, cut to the cap. */
  function SavePassword(h: seq<Entry>, password: string, strength: int, timestamp: string, kind: PasswordType)
    : (r: seq<Entry>)
    ensures password == "" ==> r == h
    ensures password != "" ==>
      && |r| == (if |h| + 1 < MaxHistoryItems then |h| + 1 else MaxHistoryItems)
      && r[0] == Entry(password, timestamp, kind, strength)
      && forall i :: 0 <= i < |r| - 1 ==> r[i + 1] == h[i]
  {
    if password == "" then h
    else Cap([Entry(password, timestamp, kind, strength)] + h)
  }

  /** clearHistory: the empty list. */
  function ClearHistory(): (r: seq<Entry>)
    ensures |r| == 0
  {
    []
  }

  /** One call of savePassword. */
  datatype Save = Save(password: string, strength: int, timestamp: string, kind: PasswordType)

  /** The history after the saves in `saves`, applied first to last. */
  function SaveAll(h: seq<Entry>, saves: seq<Save>): seq<Entry>
    decreases |saves|
  {
    if |saves| == 0 then h
    else
      var s := saves[|saves| - 1];
      SavePassword(SaveAll(h, saves[..|saves| - 1]), s.password, s.strength, s.timestamp, s.kind)
  }

  /** The entries the non-empty saves create, newest first. */
  function NewestFirst(saves: seq<Save>): seq<Entry>
    decreases |saves|
  {
    if |saves| == 0 then []
    else
      var s := saves[|saves| - 1];
      (if s.password == "" then [] else [Entry(s.password, s.timestamp, s.kind, s.strength)])
      + NewestFirst(saves[..|saves| - 1])
  }

  // ---------------------------------------------------------------------
  // Lemmas

  /** A save never lets the history grow past the cap once it is within it. */
  lemma SaveKeepsCap(h: seq<Entry>, password: string, strength: int, timestamp: string, kind: PasswordType)
    requires |h| <= MaxHistoryItems
    ensures |SavePassword(h, password, strength, timestamp, kind)| <= MaxHistoryItems
  {
  }

  /** Saving never changes an entry it keeps: the result is the old history
      shifted by one, with only the new entry added and the oldest dropped. */
  lemma SaveOnlyShifts(h: seq<Entry>, password: string, strength: int, timestamp: string, kind: PasswordType)
    requires password != ""
    ensures var r := SavePassword(h, password, strength, timestamp, kind);
      r[1..] == h[..|r| - 1]
  {
  }

  /** Capping twice is capping once, after a new first entry. */
  lemma CapCons(e: Entry, xs: seq<Entry>)
    ensures Cap([e] + Cap(xs)) == Cap([e] + xs)
  {
  }

  /** The history that holds the entries `newest` in front of `h`, cut to
      the cap; `h` itself when there are none. */
  function WithNewest(h: seq<Entry>, newest: seq<Entry>): seq<Entry> {
    if |newest| == 0 then h else Cap(newest + h)
  }

  /** One more save puts its entry in front of the newest ones. */
  lemma SaveStep(h: seq<Entry>, newest: seq<Entry>, s: Save)
    ensures var added := if s.password == "" then [] else [Entry(s.password, s.timestamp, s.kind, s.strength)];
      SavePassword(WithNewest(h, newest), s.password, s.strength, s.timestamp, s.kind)
        == WithNewest(h, added + newest)
  {
    if s.password != "" && |newest| != 0 {
      var e := Entry(s.password, s.timestamp, s.kind, s.strength);
      CapCons(e, newest + h);
      assert [e] + (newest + h) == ([e] + newest) + h;
    }
  }

  /** After any run of saves the history holds the newest entries first, the
      saved ones before the old ones, cut to the cap; a run that saved nothing
      leaves it as it was. */
  lemma {:induction false} SaveAllKeepsNewest(h: seq<Entry>, saves: seq<Save>)
    ensures SaveAll(h, saves) == WithNewest(h, NewestFirst(saves))
    decreases |saves|
  {
    if |saves| > 0 {
      var init := saves[..|saves| - 1];
      SaveAllKeepsNewest(h, init);
      SaveStep(h, NewestFirst(init), saves[|saves| - 1]);
    }
  }

  /** With at least `MaxHistoryItems` non-empty saves, the history is exactly
      the last five of them, newest first, whatever it held before. */
  lemma ManySavesKeepLastFive(h: seq<Entry>, saves: seq<Save>)
    requires |NewestFirst(saves)| >= MaxHistoryItems
    ensures SaveAll(h, saves) == NewestFirst(saves)[..MaxHistoryItems]
  {
    SaveAllKeepsNewest(h, saves);
    assert (NewestFirst(saves) + h)[..MaxHistoryItems] == NewestFirst(saves)[..MaxHistoryItems];
  }
}
