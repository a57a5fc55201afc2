/**
 * The spreadsheet-to-JSON converter: every row with a game is cleaned, resolved and grouped
 * into a final category; the games are collected per category in row order, and the output
 * lists the categories in name order with a slug id and an icon. The first row whose
 * category cannot be resolved stops the run with its spreadsheet line.
 */
module CategoryPipeline {
  import opened Wrappers
  import opened CategoryTables
  import Slug

  /** A data row: the game cell and the category cell, `None` for an empty cell. */
  datatype Row = Row(game: Option<string>, category: Option<string>)

  /** The error that stops the run: the spreadsheet line (header is line 1), the game and
    * the cause. */
  datatype RowError = RowError(line: int, game: string, cause: CategoryError)

  datatype OutputEntry = OutputEntry(id: string, name: string, icon: string, games: seq<string>)

  /** What the first loop collects: the games per final category, and the categories in
    * the order they first appeared. */
  datatype Aggregated = Aggregated(processed: map<string, seq<string>>, order: seq<string>)

  /** How rows are classified: a final category or the cause why not. */
  type Classifier = Row -> Result<string, CategoryError>

  /** The final category of a row's category cell. */
  function RowCategory(py: PyText, row: Row): (r: Result<string, CategoryError>)
    ensures r.Success? ==> exists v :: v in ValidCategories && r.value == GetFinalCategory(v)
  {
    var resolved := ResolveCategory(CleanCategory(py, row.category));
    if resolved.Success? then Success(GetFinalCategory(resolved.value)) else Failure(resolved.error)
  }

  /** The converter's classifier. */
  function ClassifierOf(py: PyText): Classifier
  {
    (row: Row) => RowCategory(py, row)
  }

  /** A kept row (it has a game) whose category does not resolve. */
  predicate Bad(cat: Classifier, row: Row)
  {
    row.game.Some? && cat(row).Failure?
  }

  /** The index of the first bad row. */
  function FirstBadRow(cat: Classifier, rows: seq<Row>): (r: Option<nat>)
    ensures r.Some? ==> r.value < |rows| && Bad(cat, rows[r.value])
                        && forall j :: 0 <= j < r.value ==> !Bad(cat, rows[j])
    ensures r.None? ==> forall j :: 0 <= j < |rows| ==> !Bad(cat, rows[j])
  {
    if rows == [] then None
    else
      var first := FirstBadRow(cat, rows[..|rows| - 1]);
      if first.Some? then first
      else if Bad(cat, rows[|rows| - 1]) then Some(|rows| - 1)
      else None
  }

  lemma FirstBadRowSnoc(cat: Classifier, rows: seq<Row>, row: Row)
    ensures FirstBadRow(cat, rows + [row]) ==
      if FirstBadRow(cat, rows).Some? then FirstBadRow(cat, rows)
      else if Bad(cat, row) then Some(|rows|) else None
  {
    assert (rows + [row])[..|rows|] == rows;
  }

  /** A bad row found in a prefix is the first bad row of the whole list. */
  lemma {:induction false} FirstBadRowOfPrefix(cat: Classifier, rows: seq<Row>, n: nat)
    requires n <= |rows| && FirstBadRow(cat, rows[..n]).Some?
    ensures FirstBadRow(cat, rows) == FirstBadRow(cat, rows[..n])
    decreases |rows|
  {
    if n == |rows| {
      assert rows[..n] == rows;
    } else {
      var init := rows[..|rows| - 1];
      assert init[..n] == rows[..n];
      FirstBadRowOfPrefix(cat, init, n);
    }
  }

  /** The games, stripped, of the kept rows whose final category is `name`, in row order. */
  function GamesIn(cat: Classifier, strip: string -> string, rows: seq<Row>, name: string): seq<string>
  {
    if rows == [] then []
    else
      var row := rows[|rows| - 1];
      GamesIn(cat, strip, rows[..|rows| - 1], name)
        + (if row.game.Some? && cat(row) == Success(name) then [strip(row.game.value)] else [])
  }

  /** The final categories of the kept, resolvable rows. */
  function Finals(cat: Classifier, rows: seq<Row>): set<string>
  {
    if rows == [] then {}
    else
      var row := rows[|rows| - 1];
      Finals(cat, rows[..|rows| - 1]) + (if row.game.Some? && cat(row).Success? then {cat(row).value} else {})
  }

  /** A category has games exactly when some kept row lands in it. */
  lemma {:induction false} GamesInNonEmpty(cat: Classifier, strip: string -> string, rows: seq<Row>, name: string)
    ensures GamesIn(cat, strip, rows, name) != [] <==> name in Finals(cat, rows)
    decreases |rows|
  {
    if rows != [] {
      GamesInNonEmpty(cat, strip, rows[..|rows| - 1], name);
    }
  }

  /** One more row adds its game to its own category's list and to no other list. */
  lemma RowAddsToOneCategory(cat: Classifier, strip: string -> string, rows: seq<Row>, row: Row, name: string)
    ensures GamesIn(cat, strip, rows + [row], name) == GamesIn(cat, strip, rows, name)
      + (if row.game.Some? && cat(row) == Success(name) then [strip(row.game.value)] else [])
    ensures Finals(cat, rows + [row]) == Finals(cat, rows)
      + (if row.game.Some? && cat(row).Success? then {cat(row).value} else {})
  {
    assert (rows + [row])[..|rows|] == rows;
  }

  /** Every kept row's game is listed under its own final category. */
  lemma {:induction false} RowGameListed(cat: Classifier, strip: string -> string, rows: seq<Row>, i: int)
    requires 0 <= i < |rows| && rows[i].game.Some? && cat(rows[i]).Success?
    ensures strip(rows[i].game.value) in GamesIn(cat, strip, rows, cat(rows[i]).value)
    decreases |rows|
  {
    if i < |rows| - 1 {
      RowGameListed(cat, strip, rows[..|rows| - 1], i);
    }
  }

  /** Every category of converted data has an icon of its own. */
  lemma {:induction false} FinalsHaveIcons(py: PyText, rows: seq<Row>, name: string)
    requires name in Finals(ClassifierOf(py), rows)
    ensures name in CategoryIcons && IconFor(name) == CategoryIcons[name]
    decreases |rows|
  {
    var init := rows[..|rows| - 1];
    if name in Finals(ClassifierOf(py), init) {
      FinalsHaveIcons(py, init, name);
    } else {
      assert name == RowCategory(py, rows[|rows| - 1]).value;
      var v :| v in ValidCategories && name == GetFinalCategory(v);
      EveryFinalCategoryHasIcon(v);
    }
  }

  /** Python's string order: by code points, a proper prefix first. */
  predicate LexLess(a: string, b: string)
  {
    if a == [] then b != [] else b != [] && (a[0] < b[0] || (a[0] == b[0] && LexLess(a[1..], b[1..])))
  }

  lemma {:induction false} LexIrreflexive(a: string)
    ensures !LexLess(a, a)
    decreases |a|
  {
    if a != [] {
      LexIrreflexive(a[1..]);
    }
  }

  lemma {:induction false} LexTotal(a: string, b: string)
    requires a != b
    ensures LexLess(a, b) || LexLess(b, a)
    decreases |a|
  {
    if a != [] && b != [] && a[0] == b[0] {
      assert a == [a[0]] + a[1..] && b == [b[0]] + b[1..];
      LexTotal(a[1..], b[1..]);
    }
  }

  lemma {:induction false} LexTransitive(a: string, b: string, c: string)
    requires LexLess(a, b) && LexLess(b, c)
    ensures LexLess(a, c)
    decreases |a|
  {
    if a != [] && a[0] == b[0] && b[0] == c[0] {
      LexTransitive(a[1..], b[1..], c[1..]);
    }
  }

  predicate Sorted(s: seq<string>)
  {
    forall i, j :: 0 <= i < j < |s| ==> LexLess(s[i], s[j])
  }

  predicate Distinct(s: seq<string>)
  {
    forall i, j :: 0 <= i < j < |s| ==> s[i] != s[j]
  }

  /** `x` put into its place in a sorted list. */
  function Insert(s: seq<string>, x: string): (r: seq<string>)
    requires Sorted(s) && x !in s
    ensures Sorted(r) && |r| == |s| + 1
    ensures forall y :: y in r <==> y in s || y == x
  {
    if s == [] then [x]
    else if LexLess(x, s[0]) then
      InsertFront(s, x);
      [x] + s
    else
      LexTotal(x, s[0]);
      var rest := Insert(s[1..], x);
      assert forall k :: 0 <= k < |rest| ==> rest[k] in s[1..] || rest[k] == x;
      assert forall k :: 0 <= k < |rest| ==> LexLess(s[0], rest[k]);
      [s[0]] + rest
  }

  lemma InsertFront(s: seq<string>, x: string)
    requires Sorted(s) && s != [] && LexLess(x, s[0])
    ensures Sorted([x] + s)
  {
    forall j | 1 <= j < |s|
      ensures LexLess(x, s[j])
    {
      LexTransitive(x, s[0], s[j]);
    }
  }

  /** `sorted(...)` of distinct names. */
  function SortedNames(s: seq<string>): (r: seq<string>)
    requires Distinct(s)
    ensures Sorted(r) && |r| == |s|
    ensures forall y :: y in r <==> y in s
  {
    if s == [] then []
    else
      var init := s[..|s| - 1];
      assert forall k :: 0 <= k < |init| ==> init[k] == s[k];
      Insert(SortedNames(init), s[|s| - 1])
  }

  /** The aggregation loop has seen `prefix` without error. */
  ghost predicate AggregatedFrom(cat: Classifier, strip: string -> string, prefix: seq<Row>, agg: Aggregated)
  {
    && agg.processed.Keys == Finals(cat, prefix)
    && (forall k :: k in agg.processed ==> agg.processed[k] == GamesIn(cat, strip, prefix, k))
    && Distinct(agg.order)
    && (forall k :: k in agg.order <==> k in agg.processed)
  }

  /** `processed[name].append(game)`, creating the list on the category's first game. */
  function Added(agg: Aggregated, name: string, game: string): Aggregated
  {
    if name in agg.processed then Aggregated(agg.processed[name := agg.processed[name] + [game]], agg.order)
    else Aggregated(agg.processed[name := [game]], agg.order + [name])
  }

  lemma AggregateStep(cat: Classifier, strip: string -> string, prefix: seq<Row>, agg: Aggregated, row: Row)
    requires AggregatedFrom(cat, strip, prefix, agg)
    requires row.game.Some? && cat(row).Success?
    ensures AggregatedFrom(cat, strip, prefix + [row], Added(agg, cat(row).value, strip(row.game.value)))
  {
    var name := cat(row).value;
    forall k
      ensures GamesIn(cat, strip, prefix + [row], k) == GamesIn(cat, strip, prefix, k)
        + (if k == name then [strip(row.game.value)] else [])
    {
      RowAddsToOneCategory(cat, strip, prefix, row, k);
    }
    RowAddsToOneCategory(cat, strip, prefix, row, name);
    if name !in agg.processed {
      GamesInNonEmpty(cat, strip, prefix, name);
    }
  }

  lemma SkippedRowStep(cat: Classifier, strip: string -> string, prefix: seq<Row>, agg: Aggregated, row: Row)
    requires AggregatedFrom(cat, strip, prefix, agg)
    requires row.game.None?
    ensures AggregatedFrom(cat, strip, prefix + [row], agg)
  {
    forall k
      ensures GamesIn(cat, strip, prefix + [row], k) == GamesIn(cat, strip, prefix, k)
    {
      RowAddsToOneCategory(cat, strip, prefix, row, k);
    }
    RowAddsToOneCategory(cat, strip, prefix, row, "");
  }

  /** Steps 1 to 3 of the row loop: clean, resolve, group. */
  method ClassifyRow(py: PyText, row: Row) returns (r: Result<string, CategoryError>)
    ensures r == ClassifierOf(py)(row)
  {
    var cleaned := CleanCategory(py, row.category);
    var resolved := ResolveCategory(cleaned);
    if resolved.Failure? {
      return Failure(resolved.error);
    }
    return Success(GetFinalCategory(resolved.value));
  }

  /** The row loop of `main`: rows without a game are skipped (`dropna`); the first row
    * whose category does not resolve aborts with its line, `index + 2`. */
  method Aggregate(py: PyText, rows: seq<Row>) returns (r: Result<Aggregated, RowError>)
    ensures r.Failure? <==> FirstBadRow(ClassifierOf(py), rows).Some?
    ensures r.Failure? ==> var i := FirstBadRow(ClassifierOf(py), rows).value;
      r.error == RowError(i + 2, py.strip(rows[i].game.value), RowCategory(py, rows[i]).error)
    ensures r.Success? ==> AggregatedFrom(ClassifierOf(py), py.strip, rows, r.value)
  {
    ghost var cat := ClassifierOf(py);
    var agg := Aggregated(map[], []);
    for i := 0 to |rows|
      invariant FirstBadRow(cat, rows[..i]).None?
      invariant AggregatedFrom(cat, py.strip, rows[..i], agg)
    {
      var row := rows[i];
      assert rows[..i + 1] == rows[..i] + [row];
      FirstBadRowSnoc(cat, rows[..i], row);
      if row.game.Some? {
        var gameName := py.strip(row.game.value);
        var finalCat := ClassifyRow(py, row);
        if finalCat.Failure? {
          FirstBadRowOfPrefix(cat, rows, i + 1);
          return Failure(RowError(i + 2, gameName, finalCat.error));
        }
        AggregateStep(cat, py.strip, rows[..i], agg, row);
        agg := Added(agg, finalCat.value, gameName);
      } else {
        SkippedRowStep(cat, py.strip, rows[..i], agg, row);
      }
    }
    assert rows[..|rows|] == rows;
    return Success(agg);
  }

  /** The output entry the converter writes for a category. */
  function EntryFor(py: PyText, rows: seq<Row>, name: string): OutputEntry
  {
    OutputEntry(Slug.SlugOf(py, name), name, IconFor(name), GamesIn(ClassifierOf(py), py.strip, rows, name))
  }

  /** The output loop: categories in sorted order, each with its slug and icon. */
  method BuildOutput(py: PyText, rows: seq<Row>, agg: Aggregated) returns (entries: seq<OutputEntry>)
    requires AggregatedFrom(ClassifierOf(py), py.strip, rows, agg)
    ensures |entries| == |agg.order|
    ensures forall j :: 0 <= j < |entries| ==> entries[j] == EntryFor(py, rows, entries[j].name)
    ensures forall i, j :: 0 <= i < j < |entries| ==> LexLess(entries[i].name, entries[j].name)
    ensures forall k :: k in Finals(ClassifierOf(py), rows) <==> exists j :: 0 <= j < |entries| && entries[j].name == k
  {
    var names := SortedNames(agg.order);
    entries := [];
    for j := 0 to |names|
      invariant |entries| == j
      invariant forall t :: 0 <= t < j ==> entries[t] == EntryFor(py, rows, names[t])
    {
      var entry := MakeEntry(py, rows, agg, names[j]);
      EntriesSnoc(py, rows, names, entries, entry);
      entries := entries + [entry];
    }
    OutputFollowsNames(py, rows, names, entries);
  }

  lemma EntriesSnoc(py: PyText, rows: seq<Row>, names: seq<string>, entries: seq<OutputEntry>, entry: OutputEntry)
    requires |entries| < |names|
    requires forall t :: 0 <= t < |entries| ==> entries[t] == EntryFor(py, rows, names[t])
    requires entry == EntryFor(py, rows, names[|entries|])
    ensures forall t :: 0 <= t <= |entries| ==> (entries + [entry])[t] == EntryFor(py, rows, names[t])
  {
  }

  /** One output entry: `{"id": slugify(cat), "name": cat, "icon": ..., "games": ...}`. */
  method MakeEntry(py: PyText, rows: seq<Row>, agg: Aggregated, catName: string) returns (entry: OutputEntry)
    requires AggregatedFrom(ClassifierOf(py), py.strip, rows, agg)
    requires catName in agg.order
    ensures entry == EntryFor(py, rows, catName)
  {
    var games := agg.processed[catName];
    var icon := IconFor(catName);
    var id := Slug.Slugify(py, catName);
    entry := OutputEntry(id, catName, icon, games);
  }

  lemma OutputFollowsNames(py: PyText, rows: seq<Row>, names: seq<string>, entries: seq<OutputEntry>)
    requires |entries| == |names|
    requires forall t :: 0 <= t < |names| ==> entries[t] == EntryFor(py, rows, names[t])
    ensures forall j :: 0 <= j < |entries| ==> entries[j] == EntryFor(py, rows, entries[j].name)
    ensures forall k :: k in names <==> exists j :: 0 <= j < |entries| && entries[j].name == k
    ensures Sorted(names) ==> forall i, j :: 0 <= i < j < |entries| ==> LexLess(entries[i].name, entries[j].name)
  {
    assert forall t :: 0 <= t < |names| ==> entries[t].name == names[t];
  }

  /** `main` without the file reading and writing: either the first bad row's error, and
    * then no output, or the complete output. */
  method Convert(py: PyText, rows: seq<Row>) returns (r: Result<seq<OutputEntry>, RowError>)
    ensures r.Failure? <==> FirstBadRow(ClassifierOf(py), rows).Some?
    ensures r.Failure? ==> var i := FirstBadRow(ClassifierOf(py), rows).value;
      r.error == RowError(i + 2, py.strip(rows[i].game.value), RowCategory(py, rows[i]).error)
    ensures r.Success? ==> forall j :: 0 <= j < |r.value| ==>
      r.value[j] == EntryFor(py, rows, r.value[j].name) && r.value[j].games != []
    ensures r.Success? ==> forall i, j :: 0 <= i < j < |r.value| ==> LexLess(r.value[i].name, r.value[j].name)
    ensures r.Success? ==> forall k :: k in Finals(ClassifierOf(py), rows) <==>
      exists j :: 0 <= j < |r.value| && r.value[j].name == k
  {
    var agg := Aggregate(py, rows);
    if agg.Failure? {
      return Failure(agg.error);
    }
    var entries := BuildOutput(py, rows, agg.value);
    forall j | 0 <= j < |entries|
      ensures entries[j].games != []
    {
      GamesInNonEmpty(ClassifierOf(py), py.strip, rows, entries[j].name);
    }
    return Success(entries);
  }
}
