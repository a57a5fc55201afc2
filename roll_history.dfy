/**
 * The roll history panel: a newest-first list of at most 50 entries, restored from
 * browser storage on mount, and the relative time label shown beside each entry.
 */
module RollHistory {
  import opened Wrappers
  import Text

  /** The history keeps only this many of the newest entries. */
  const MaxEntries: nat := 50

  datatype RollType = CategoryRoll | GameRoll

  /** An entry; the optional fields are absent when the caller did not pass them. */
  datatype RollEntry = RollEntry(
    id: string,
    timestamp: int,
    rollType: RollType,
    category: Option<string>,
    categoryIcon: Option<string>,
    game: Option<string>)

  /** What the mount-time read of the storage key yields: nothing (or the empty string),
    * text that does not parse, or a parsed list. */
  datatype StoredHistory = Absent | Malformed | Parsed(entries: seq<RollEntry>)

  function Min(a: nat, b: nat): nat
  {
    if a <= b then a else b
  }

  /** The first `n` elements, or all of them when there are fewer. */
  function Take<T>(s: seq<T>, n: nat): (t: seq<T>)
    ensures |t| == Min(|s|, n)
    ensures t == s[..|t|]
  {
    s[..Min(|s|, n)]
  }

  /** The list after adding `entry`: it goes in front and the list is cut to 50. */
  function Prepended(entry: RollEntry, history: seq<RollEntry>): (h: seq<RollEntry>)
    ensures 1 <= |h| <= MaxEntries
    ensures |h| == Min(|history| + 1, MaxEntries)
    ensures h[0] == entry
    ensures h[1..] == history[..|h| - 1]
  {
    Take([entry] + history, MaxEntries)
  }

  /** An entry recording a category roll: no game. */
  function CategoryEntry(category: string, icon: string, id: string, timestamp: int): (e: RollEntry)
    ensures e.rollType == CategoryRoll && e.game == None
    ensures e.category == Some(category) && e.categoryIcon == Some(icon)
    ensures e.id == id && e.timestamp == timestamp
  {
    RollEntry(id, timestamp, CategoryRoll, Some(category), Some(icon), None)
  }

  /** An entry recording a game roll, with the category it was drawn from. */
  function GameEntry(category: string, icon: string, game: string, id: string, timestamp: int): (e: RollEntry)
    ensures e.rollType == GameRoll && e.game == Some(game)
    ensures e.category == Some(category) && e.categoryIcon == Some(icon)
    ensures e.id == id && e.timestamp == timestamp
  {
    RollEntry(id, timestamp, GameRoll, Some(category), Some(icon), Some(game))
  }

  /** Adding shifts every kept entry one place back, in the same order. */
  lemma PrependedKeepsNewest(entry: RollEntry, history: seq<RollEntry>, k: nat)
    requires k < |Prepended(entry, history)| - 1
    ensures Prepended(entry, history)[k + 1] == history[k]
  {
    var h := Prepended(entry, history);
    assert h[1..][k] == history[..|h| - 1][k];
  }

  /** Adding entries one after another (at least one): the newest comes first, then the
    * earlier ones newest-first, then the old list, and nothing beyond the fiftieth survives,
    * even when the restored list was longer. */
  lemma {:induction false} PrependedAll(entries: seq<RollEntry>, history: seq<RollEntry>)
    ensures entries != [] ==> AddAll(entries, history) == Take(Reverse(entries) + history, MaxEntries)
    decreases |entries|
  {
    if entries != [] {
      var last := entries[|entries| - 1];
      var init := entries[..|entries| - 1];
      var whole := Reverse(init) + history;
      assert Reverse(entries) + history == [last] + whole;
      if init != [] {
        PrependedAll(init, history);
        TakeTake([last] + whole, MaxEntries);
      }
    }
  }

  lemma TakeTake(s: seq<RollEntry>, n: nat)
    requires |s| >= 1 && n >= 1
    ensures Take([s[0]] + Take(s[1..], n), n) == Take(s, n)
  {
    assert [s[0]] + s[1..] == s;
  }

  /** `entries` added in order, oldest first. */
  function AddAll(entries: seq<RollEntry>, history: seq<RollEntry>): (h: seq<RollEntry>)
    decreases |entries|
  {
    if entries == [] then history
    else Prepended(entries[|entries| - 1], AddAll(entries[..|entries| - 1], history))
  }

  function Reverse<T>(s: seq<T>): (r: seq<T>)
    ensures |r| == |s|
    ensures forall i :: 0 <= i < |s| ==> r[i] == s[|s| - 1 - i]
  {
    if s == [] then [] else [s[|s| - 1]] + Reverse(s[..|s| - 1])
  }

  /** The label for an entry `diffMs` milliseconds old (the clock may run backwards, so
    * the age can be negative); `localeDate` is the date text the browser would give. */
  function FormatTime(diffMs: int, localeDate: string): (shown: string)
    ensures diffMs < 60000 ==> shown == "Just now"
    ensures 60000 <= diffMs < 3600000 ==>
      1 <= diffMs / 60000 < 60 && shown == Text.NatToString(diffMs / 60000) + "m ago"
    ensures 3600000 <= diffMs < 86400000 ==>
      1 <= diffMs / 3600000 < 24 && shown == Text.NatToString(diffMs / 3600000) + "h ago"
    ensures 86400000 <= diffMs < 604800000 ==>
      1 <= diffMs / 86400000 < 7 && shown == Text.NatToString(diffMs / 86400000) + "d ago"
    ensures 604800000 <= diffMs ==> shown == localeDate
  {
    // Dafny's division rounds down for a positive divisor, as Math.floor does.
    var mins := diffMs / 60000;
    var hours := diffMs / 3600000;
    var days := diffMs / 86400000;
    if mins < 1 then "Just now"
    else if mins < 60 then Text.NatToString(mins) + "m ago"
    else if hours < 24 then Text.NatToString(hours) + "h ago"
    else if days < 7 then Text.NatToString(days) + "d ago"
    else localeDate
  }

  /** The panel's state. */
  class History {
    var entries: seq<RollEntry>

    constructor()
      ensures entries == []
    {
      entries := [];
    }

    /** The mount effect: a parsed list replaces the history; anything else leaves it. */
    method Load(read: StoredHistory)
      modifies this
      ensures read.Parsed? ==> entries == read.entries
      ensures !read.Parsed? ==> entries == old(entries)
    {
      if read.Parsed? {
        entries := read.entries;
      }
    }

    /** `addEntry`: the entry's id and time come from the caller (they are read from the
      * clock and the random source). */
    method AddEntry(rollType: RollType, category: Option<string>, categoryIcon: Option<string>,
                    game: Option<string>, id: string, timestamp: int)
      modifies this
      ensures entries == Prepended(RollEntry(id, timestamp, rollType, category, categoryIcon, game), old(entries))
      ensures |entries| <= MaxEntries
    {
      entries := Prepended(RollEntry(id, timestamp, rollType, category, categoryIcon, game), entries);
    }

    method AddCategoryEntry(category: string, icon: string, id: string, timestamp: int)
      modifies this
      ensures entries == Prepended(CategoryEntry(category, icon, id, timestamp), old(entries))
    {
      AddEntry(CategoryRoll, Some(category), Some(icon), None, id, timestamp);
    }

    method AddGameEntry(category: string, icon: string, game: string, id: string, timestamp: int)
      modifies this
      ensures entries == Prepended(GameEntry(category, icon, game, id, timestamp), old(entries))
    {
      AddEntry(GameRoll, Some(category), Some(icon), Some(game), id, timestamp);
    }

    method ClearHistory()
      modifies this
      ensures entries == []
    {
      entries := [];
    }
  }
}
