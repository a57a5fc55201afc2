/**
 * The category tables of the spreadsheet converter and the lookups over them: cleaning a
 * raw cell, resolving it to a valid category through the alias table, grouping it into a
 * final category, and the final category's icon.
 */
module CategoryTables {
  import opened Wrappers

  /** Python's string operations, left uninterpreted: `lower`, `strip` (whitespace) and
    * `isalnum`. */
  datatype PyText = PyText(lower: string -> string, strip: string -> string, isAlnum: char -> bool)

  const ValidCategories: seq<string> := [
    "Стрелялка", "RPG", "Cozy", "Головоломки", "Аниме", "Хоррор",
    "Адвенчура", "Кино", "Рогалик", "Стратежка", "Старьё",
    "Говно мамонта", "Платформер", "Джокерге", "Читать", "Драммер",
    "Симулятор", "Поинт энд клик", "Настолка", "Кооп", "Экшн", "Гоночки"]

  const CategoryAliases: map<string, string> := map[
    "Экшн-шутер" := "Экшн",
    "Adventure" := "Адвенчура",
    "cozy" := "Cozy",
    "Стрелялки" := "Стрелялка",
    "Roguelike" := "Рогалик",
    "джакерке" := "Джокерге",
    "Поинд энд Клик" := "Поинт энд клик",
    "PnC" := "Поинт энд клик",
    "Паззл" := "Головоломки",
    "Стратегия" := "Стратежка",
    "Симуляторы" := "Симулятор",
    "Головоломка" := "Головоломки",
    "головоломка" := "Головоломки",
    "стрелялка" := "Стрелялка",
    "Экшен" := "Экшн",
    "джокерге" := "Джокерге",
    "Action" := "Экшн",
    "Экшоооон" := "Экшн",
    "Читать(поинт эн клик)" := "Поинт энд клик"]

  const CategoryGroups: map<string, string> := map[
    "Читать" := "Духота",
    "Аниме" := "Духота",
    "Кино" := "Духота",
    "Поинт энд клик" := "Духота",
    "Головоломки" := "Думать",
    "Стратежка" := "Думать",
    "Симулятор" := "Думать",
    "Гоночки" := "Думать",
    "Адвенчура" := "Экшн",
    "Экшн" := "Экшн",
    "Старьё" := "Джокерге",
    "Джокерге" := "Джокерге",
    "Говно мамонта" := "Джокерге",
    "Стрелялка" := "Стрелялка",
    "RPG" := "RPG",
    "Cozy" := "Cozy",
    "Рогалик" := "Инди",
    "Платформер" := "Инди",
    "Драммер" := "Драммер",
    "Настолка" := "Настолка",
    "Кооп" := "Кооп"]

  const CategoryIcons: map<string, string> := map[
    "Стрелялка" := "🔫",
    "RPG" := "⚔️",
    "Cozy" := "🍵",
    "Хоррор" := "👻",
    "Рогалик" := "🎲",
    "Платформер" := "👟",
    "Драммер" := "🥁",
    "Настолка" := "♟️",
    "Кооп" := "🤝",
    "Инди" := "🎲",
    "Духота" := "🎭",
    "Думать" := "🧠",
    "Экшн" := "💥",
    "Джокерге" := "🃏"]

  const DefaultIcon: string := "🎮"

  /** The text before the first comma (`split(',')[0]`). */
  function BeforeComma(s: string): (r: string)
    ensures |r| <= |s| && r == s[..|r|]
    ensures ',' !in r
    ensures |r| < |s| ==> s[|r|] == ','
  {
    if s == [] || s[0] == ',' then [] else [s[0]] + BeforeComma(s[1..])
  }

  /** `clean_category`: a missing cell gives the empty text; otherwise the first
    * comma-separated part, stripped. */
  function CleanCategory(py: PyText, raw: Option<string>): (r: string)
    ensures raw.None? ==> r == ""
    ensures raw.Some? ==> exists k :: 0 <= k <= |raw.value| && ',' !in raw.value[..k]
                                      && (k < |raw.value| ==> raw.value[k] == ',')
                                      && r == py.strip(raw.value[..k])
  {
    match raw
    case None => ""
    case Some(s) => var head := BeforeComma(s); assert s[..|head|] == head; py.strip(head)
  }

  datatype CategoryError =
    | EmptyCategory
    | AliasNotValid(raw: string, mapped: string)
    | UnknownCategory(raw: string)

  /** `resolve_category`: a valid name as it is, an alias as its target, anything else an
    * error. */
  function ResolveCategory(raw: string): (r: Result<string, CategoryError>)
    ensures r.Success? ==> r.value in ValidCategories
    ensures r.Success? ==> r.value == raw || (raw in CategoryAliases && CategoryAliases[raw] == r.value)
  {
    if raw == "" then Failure(EmptyCategory)
    else if raw in ValidCategories then Success(raw)
    else if raw in CategoryAliases then
      var mapped := CategoryAliases[raw];
      if mapped in ValidCategories then Success(mapped) else Failure(AliasNotValid(raw, mapped))
    else Failure(UnknownCategory(raw))
  }

  /** The errors: empty text, and text that is neither valid nor an alias. */
  lemma ResolveErrors(raw: string)
    ensures ResolveCategory(raw) == Failure(EmptyCategory) <==> raw == ""
    ensures ResolveCategory(raw) == Failure(UnknownCategory(raw)) <==>
      raw != "" && raw !in ValidCategories && raw !in CategoryAliases
    ensures raw in ValidCategories ==> ResolveCategory(raw) == Success(raw)
  {
  }

  /** Every alias names a valid category. */
  lemma AliasTargetsValid()
    ensures forall a :: a in CategoryAliases ==> CategoryAliases[a] in ValidCategories
  {
    var v := ValidCategories;
    assert "Экшн" == v[20] && "Адвенчура" == v[6] && "Cozy" == v[2] && "Стрелялка" == v[0];
    assert "Рогалик" == v[8] && "Джокерге" == v[13] && "Поинт энд клик" == v[17];
    assert "Головоломки" == v[3] && "Стратежка" == v[9] && "Симулятор" == v[16];
  }

  /** So the alias error cannot happen with these tables. */
  lemma AliasErrorUnreachable(raw: string)
    ensures !ResolveCategory(raw).Failure? || !ResolveCategory(raw).error.AliasNotValid?
  {
    AliasTargetsValid();
  }

  /** Resolving a resolved name gives it back. */
  lemma ResolveIdempotent(raw: string)
    requires ResolveCategory(raw).Success?
    ensures ResolveCategory(ResolveCategory(raw).value) == ResolveCategory(raw)
  {
    ResolveErrors(ResolveCategory(raw).value);
  }

  /** `get_final_category`: through the group table, or unchanged. */
  function GetFinalCategory(resolved: string): (final: string)
    ensures resolved in CategoryGroups ==> final == CategoryGroups[resolved]
    ensures resolved !in CategoryGroups ==> final == resolved
  {
    if resolved in CategoryGroups then CategoryGroups[resolved] else resolved
  }

  /** A group is final: grouping a grouped name changes nothing, since every group name
    * is either no key of the table or mapped to itself. */
  lemma FinalCategoryIsFinal(name: string)
    ensures GetFinalCategory(GetFinalCategory(name)) == GetFinalCategory(name)
  {
    if name in CategoryGroups {
      var g := CategoryGroups[name];
      assert g !in CategoryGroups || CategoryGroups[g] == g;
    }
  }

  /** `CATEGORY_ICONS.get(name, '🎮')`. */
  function IconFor(name: string): (icon: string)
    ensures name in CategoryIcons ==> icon == CategoryIcons[name]
    ensures name !in CategoryIcons ==> icon == DefaultIcon
  {
    if name in CategoryIcons then CategoryIcons[name] else DefaultIcon
  }

  /** Every valid category groups into a final category that has an icon of its own, so
    * the default icon is never used for converted data. */
  lemma EveryFinalCategoryHasIcon(v: string)
    requires v in ValidCategories
    ensures GetFinalCategory(v) in CategoryIcons
  {
    var i :| 0 <= i < |ValidCategories| && ValidCategories[i] == v;
    assert i in {0, 1, 2, 3, 4, 5, 6, 7, 8, 9, 10, 11, 12, 13, 14, 15, 16, 17, 18, 19, 20, 21};
  }
}
