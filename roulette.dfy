/**
 * The roulette page: a category wheel over the enabled game lists, a game wheel over the
 * selected list's games, and a custom-wheel mode, driven by guarded click handlers.
 */
module Roulette {
  import opened Wrappers
  import RollButtons
  import RollHistory
  import CustomWheels
  import SpinEngine

  datatype GameList = GameList(id: string, name: string, icon: string, games: seq<string>)

  datatype Mode = GamesMode | CustomMode

  /** The page's state fields. */
  datatype Page = Page(
    mode: Mode,
    selectedCategory: Option<GameList>,
    isCategorySpinning: bool,
    disabledCategories: seq<string>,
    isGameSpinning: bool,
    result: Option<string>,
    selectedCustomWheel: Option<string>,
    isCustomSpinning: bool,
    customResult: Option<CustomWheels.WheelOption>)

  const InitialPage: Page := Page(GamesMode, None, false, [], false, None, None, false, None)

  /** `lists.every(list => disabled.includes(list.id))`, and at least one list. */
  predicate AllCategoriesDisabled(lists: seq<GameList>, disabled: seq<string>)
  {
    |lists| > 0 && forall i :: 0 <= i < |lists| ==> lists[i].id in disabled
  }

  /** `lists.filter(list => !disabled.includes(list.id))`: what the category wheel shows. */
  function EnabledLists(lists: seq<GameList>, disabled: seq<string>): (r: seq<GameList>)
    ensures |r| <= |lists|
    ensures forall l :: l in r ==> l in lists && l.id !in disabled
  {
    if lists == [] then []
    else
      var l := lists[|lists| - 1];
      EnabledLists(lists[..|lists| - 1], disabled) + (if l.id in disabled then [] else [l])
  }

  /** Every enabled list reaches the wheel. */
  lemma {:induction false} EnabledListsKeepsEnabled(lists: seq<GameList>, disabled: seq<string>, i: int)
    requires 0 <= i < |lists| && lists[i].id !in disabled
    ensures lists[i] in EnabledLists(lists, disabled)
    decreases |lists|
  {
    if i < |lists| - 1 {
      EnabledListsKeepsEnabled(lists[..|lists| - 1], disabled, i);
    }
  }

  /** The filter keeps list order: it distributes over concatenation. */
  lemma {:induction false} EnabledListsOfConcat(a: seq<GameList>, b: seq<GameList>, disabled: seq<string>)
    ensures EnabledLists(a + b, disabled) == EnabledLists(a, disabled) + EnabledLists(b, disabled)
    decreases |b|
  {
    if b == [] {
      assert a + b == a;
    } else {
      assert (a + b)[..|a + b| - 1] == a + b[..|b| - 1];
      EnabledListsOfConcat(a, b[..|b| - 1], disabled);
    }
  }

  /** The wheel gets no list exactly when every list is disabled or there is none. */
  lemma EnabledListsEmpty(lists: seq<GameList>, disabled: seq<string>)
    ensures EnabledLists(lists, disabled) == [] <==> (forall i :: 0 <= i < |lists| ==> lists[i].id in disabled)
    ensures AllCategoriesDisabled(lists, disabled) <==> |lists| > 0 && EnabledLists(lists, disabled) == []
  {
    if exists i :: 0 <= i < |lists| && lists[i].id !in disabled {
      var i :| 0 <= i < |lists| && lists[i].id !in disabled;
      EnabledListsKeepsEnabled(lists, disabled, i);
    }
  }

  /** `ids.filter(x => x !== id)`. */
  function Removed(ids: seq<string>, id: string): (r: seq<string>)
    ensures forall x :: x in r <==> x in ids && x != id
  {
    if ids == [] then []
    else Removed(ids[..|ids| - 1], id) + (if ids[|ids| - 1] == id then [] else [ids[|ids| - 1]])
  }

  /** The disable toggle: an absent id is appended, a present one is removed everywhere. */
  function Toggled(ids: seq<string>, id: string): seq<string>
  {
    if id in ids then Removed(ids, id) else ids + [id]
  }

  lemma {:induction false} RemovedAbsent(ids: seq<string>, id: string)
    requires id !in ids
    ensures Removed(ids, id) == ids
    decreases |ids|
  {
    if ids != [] {
      RemovedAbsent(ids[..|ids| - 1], id);
      assert ids[..|ids| - 1] + [ids[|ids| - 1]] == ids;
    }
  }

  /** Toggling flips the id's membership and no other; toggling an absent id twice gives
    * back the list. */
  lemma ToggleLaws(ids: seq<string>, id: string)
    ensures id in Toggled(ids, id) <==> id !in ids
    ensures forall x :: x != id ==> (x in Toggled(ids, id) <==> x in ids)
    ensures id !in ids ==> Toggled(Toggled(ids, id), id) == ids
  {
    if id !in ids {
      var once := ids + [id];
      assert once[..|once| - 1] == ids;
      RemovedAbsent(ids, id);
    }
  }

  /** `wheels.find(w => w.id === id)`: the first wheel with that id. */
  function FindWheel(wheels: seq<CustomWheels.CustomWheel>, id: Option<string>): (r: Option<CustomWheels.CustomWheel>)
    ensures r.Some? <==> id.Some? && exists i :: 0 <= i < |wheels| && wheels[i].id == id.value
    ensures r.Some? ==> r.value in wheels && r.value.id == id.value
    ensures r.Some? ==> exists i :: 0 <= i < |wheels| && wheels[i] == r.value
                                    && forall j :: 0 <= j < i ==> wheels[j].id != id.value
  {
    if id.None? || wheels == [] then None
    else if wheels[0].id == id.value then Some(wheels[0])
    else FindWheel(wheels[1..], id)
  }

  /** A string is truthy unless it is missing or empty. */
  predicate Truthy(s: Option<string>)
  {
    s.Some? && s.value != ""
  }

  /** `handleRollCategory`. */
  function RollCategory(p: Page, lists: seq<GameList>): Page
  {
    if |lists| == 0 || p.isCategorySpinning || p.isGameSpinning then p
    else p.(isCategorySpinning := true, selectedCategory := None, result := None)
  }

  /** `handleCategorySpinComplete`. */
  function CategorySpinComplete(p: Page, category: GameList): Page
  {
    p.(isCategorySpinning := false, selectedCategory := Some(category))
  }

  /** `handleCategoryClick`. */
  function CategoryClick(p: Page, category: GameList): Page
  {
    p.(selectedCategory := Some(category))
  }

  /** `handleCategoryDisable`, as written: it toggles even while the category wheel spins. */
  function CategoryDisable(p: Page, id: string): Page
  {
    p.(disabledCategories := Toggled(p.disabledCategories, id))
  }

  /** `handleRollGame`. */
  function RollGame(p: Page): Page
  {
    if p.selectedCategory.None? || p.isGameSpinning || p.isCategorySpinning then p
    else p.(isGameSpinning := true, result := None)
  }

  /** `handleGameSpinComplete`. */
  function GameSpinComplete(p: Page, game: string): Page
  {
    p.(isGameSpinning := false, result := Some(game))
  }

  /** `handleRollCustom`. */
  function RollCustom(p: Page): Page
  {
    if !Truthy(p.selectedCustomWheel) || p.isCustomSpinning then p
    else p.(isCustomSpinning := true, customResult := None)
  }

  /** `handleCustomSpinComplete`. */
  function CustomSpinComplete(p: Page, option: CustomWheels.WheelOption): Page
  {
    p.(isCustomSpinning := false, customResult := Some(option))
  }

  /** A click on a custom wheel's button. */
  function SelectCustomWheel(p: Page, id: string): Page
  {
    p.(selectedCustomWheel := Some(id))
  }

  /** The mode toggle in the header. */
  function ToggleMode(p: Page): Page
  {
    p.(mode := if p.mode == GamesMode then CustomMode else GamesMode)
  }

  /** Each roll handler changes the page exactly when its guard lets it through, and then
    * raises its own flag and clears the outcome it will replace. */
  lemma RollGuards(p: Page, lists: seq<GameList>)
    ensures RollCategory(p, lists) != p <==> |lists| > 0 && !p.isCategorySpinning && !p.isGameSpinning
    ensures RollCategory(p, lists) != p ==> var q := RollCategory(p, lists);
      q.isCategorySpinning && q.selectedCategory.None? && q.result.None?
      && q.disabledCategories == p.disabledCategories && !q.isGameSpinning
    ensures RollGame(p) != p <==> p.selectedCategory.Some? && !p.isGameSpinning && !p.isCategorySpinning
    ensures RollGame(p) != p ==> var q := RollGame(p);
      q.isGameSpinning && q.result.None? && q.selectedCategory == p.selectedCategory && !q.isCategorySpinning
    ensures RollCustom(p) != p <==> Truthy(p.selectedCustomWheel) && !p.isCustomSpinning
    ensures RollCustom(p) != p ==> var q := RollCustom(p);
      q.isCustomSpinning && q.customResult.None? && q.selectedCustomWheel == p.selectedCustomWheel
  {
  }

  /** The category button as the page wires it (`disabled` is "no lists"). */
  predicate CategoryButtonDisabled(p: Page, lists: seq<GameList>)
  {
    RollButtons.CategoryButtonDisabled(|lists| == 0, p.isCategorySpinning, p.isGameSpinning,
                                       AllCategoriesDisabled(lists, p.disabledCategories))
  }

  predicate GameButtonDisabled(p: Page, lists: seq<GameList>)
  {
    RollButtons.GameButtonDisabled(|lists| == 0, p.selectedCategory.Some?, p.isGameSpinning, p.isCategorySpinning)
  }

  /** Index.tsx's own custom roll button. */
  predicate CustomButtonDisabled(p: Page)
  {
    !Truthy(p.selectedCustomWheel) || p.isCustomSpinning
  }

  predicate CustomButtonGlows(p: Page)
  {
    !p.isCustomSpinning && Truthy(p.selectedCustomWheel)
  }

  /** The custom roll button glows exactly when it can be pressed, and then the handler
    * starts a custom spin; while it is disabled the handler would do nothing either. */
  lemma CustomButtonAgrees(p: Page)
    ensures CustomButtonGlows(p) <==> !CustomButtonDisabled(p)
    ensures !CustomButtonDisabled(p) <==> RollCustom(p) != p
  {
  }

  /** A click on a button does nothing while the button is disabled. */
  function ClickRollCategory(p: Page, lists: seq<GameList>): Page
  {
    if CategoryButtonDisabled(p, lists) then p else RollCategory(p, lists)
  }

  function ClickRollGame(p: Page, lists: seq<GameList>): Page
  {
    if GameButtonDisabled(p, lists) then p else RollGame(p)
  }

  function ClickRollCustom(p: Page): Page
  {
    if CustomButtonDisabled(p) then p else RollCustom(p)
  }

  /** The two games-mode spin flags are never both set. */
  predicate SpinsExclusive(p: Page)
  {
    !(p.isCategorySpinning && p.isGameSpinning)
  }

  /** A running category spin has a list to land on, so its wheel runs a session. */
  predicate CategorySpinCanSettle(p: Page, lists: seq<GameList>)
  {
    p.isCategorySpinning ==> EnabledLists(lists, p.disabledCategories) != []
  }

  /** Every handler keeps the spin flags exclusive: each roll refuses while either is set,
    * and every other handler only clears flags. */
  lemma SpinsStayExclusive(p: Page, lists: seq<GameList>, category: GameList, id: string, game: string,
                           option: CustomWheels.WheelOption)
    requires SpinsExclusive(p)
    ensures SpinsExclusive(RollCategory(p, lists)) && SpinsExclusive(RollGame(p))
    ensures SpinsExclusive(CategorySpinComplete(p, category)) && SpinsExclusive(GameSpinComplete(p, game))
    ensures SpinsExclusive(CategoryClick(p, category)) && SpinsExclusive(CategoryDisable(p, id))
    ensures SpinsExclusive(RollCustom(p)) && SpinsExclusive(CustomSpinComplete(p, option))
    ensures SpinsExclusive(SelectCustomWheel(p, id)) && SpinsExclusive(ToggleMode(p))
  {
  }

  /** An enabled category button means the handler's guard passes and the wheel gets a
    * non-empty list; the roll it starts can therefore settle. */
  lemma EnabledCategoryButtonSettles(p: Page, lists: seq<GameList>)
    requires !CategoryButtonDisabled(p, lists)
    ensures RollCategory(p, lists).isCategorySpinning && !p.isCategorySpinning
    ensures EnabledLists(lists, p.disabledCategories) != []
    ensures CategorySpinCanSettle(ClickRollCategory(p, lists), lists)
  {
    EnabledListsEmpty(lists, p.disabledCategories);
  }

  /** The handler alone does not check that some category is enabled: with every list
    * disabled it still starts a spin whose wheel has nothing to show. */
  lemma HandlerAloneStartsEmptySpin()
    ensures var lists := [GameList("a", "A", "?", ["g"])];
      var p := InitialPage.(disabledCategories := ["a"]);
      RollCategory(p, lists).isCategorySpinning && EnabledLists(lists, p.disabledCategories) == []
      && CategoryButtonDisabled(p, lists)
  {
    var lists := [GameList("a", "A", "?", ["g"])];
    assert lists[..0] == [];
  }

  /** Disabling the last enabled category while the category wheel spins leaves the spin
    * running on an empty wheel, which never settles. */
  lemma DisableDuringSpinStrandsIt()
    ensures var lists := [GameList("a", "A", "?", ["g"])];
      var p := InitialPage.(isCategorySpinning := true);
      CategorySpinCanSettle(p, lists) && !CategorySpinCanSettle(CategoryDisable(p, "a"), lists)
  {
    var lists := [GameList("a", "A", "?", ["g"])];
    assert lists[..0] == [];
    assert Toggled([], "a") == ["a"];
  }

  /** The toggle with the missing guard: one that would leave a running category spin
    * with no list is refused. */
  function CategoryDisableSafely(p: Page, lists: seq<GameList>, id: string): Page
  {
    var q := CategoryDisable(p, id);
    if p.isCategorySpinning && EnabledLists(lists, q.disabledCategories) == [] then p else q
  }

  /** With the guarded toggle, a running category spin always has a list to land on,
    * whatever the user clicks. */
  lemma CategorySpinAlwaysSettles(p: Page, lists: seq<GameList>, category: GameList, id: string, game: string,
                                  option: CustomWheels.WheelOption)
    requires CategorySpinCanSettle(p, lists)
    ensures CategorySpinCanSettle(ClickRollCategory(p, lists), lists)
    ensures CategorySpinCanSettle(CategoryDisableSafely(p, lists, id), lists)
    ensures CategorySpinCanSettle(CategorySpinComplete(p, category), lists)
    ensures CategorySpinCanSettle(CategoryClick(p, category), lists)
    ensures CategorySpinCanSettle(ClickRollGame(p, lists), lists)
    ensures CategorySpinCanSettle(GameSpinComplete(p, game), lists)
    ensures CategorySpinCanSettle(ClickRollCustom(p), lists)
    ensures CategorySpinCanSettle(CustomSpinComplete(p, option), lists)
    ensures CategorySpinCanSettle(SelectCustomWheel(p, id), lists)
    ensures CategorySpinCanSettle(ToggleMode(p), lists)
  {
    if !CategoryButtonDisabled(p, lists) {
      EnabledCategoryButtonSettles(p, lists);
    }
  }

  /** The history entry a game completion records: only with a selected category. */
  function GameCompletionEntry(p: Page, game: string, id: string, timestamp: int): (e: Option<RollHistory.RollEntry>)
    ensures e.Some? <==> p.selectedCategory.Some?
    ensures e.Some? ==> e.value == RollHistory.GameEntry(p.selectedCategory.value.name,
                                                         p.selectedCategory.value.icon, game, id, timestamp)
  {
    match p.selectedCategory
    case None => None
    case Some(c) => Some(RollHistory.GameEntry(c.name, c.icon, game, id, timestamp))
  }

  /** The history entry a custom completion records: only when the selected wheel exists. */
  function CustomCompletionEntry(p: Page, wheels: seq<CustomWheels.CustomWheel>, option: CustomWheels.WheelOption,
                                 id: string, timestamp: int): (e: Option<RollHistory.RollEntry>)
    ensures e.Some? <==> p.selectedCustomWheel.Some?
                         && exists i :: 0 <= i < |wheels| && wheels[i].id == p.selectedCustomWheel.value
    ensures e.Some? ==> e.value.rollType == RollHistory.GameRoll && e.value.game == Some(option.name)
    ensures e.Some? ==> var w := FindWheel(wheels, p.selectedCustomWheel).value;
                        e.value == RollHistory.GameEntry(w.name, w.icon, option.name, id, timestamp)
  {
    match FindWheel(wheels, p.selectedCustomWheel)
    case None => None
    case Some(w) => Some(RollHistory.GameEntry(w.name, w.icon, option.name, id, timestamp))
  }

  /** The history after recording an optional entry. */
  function Recorded(history: seq<RollHistory.RollEntry>, e: Option<RollHistory.RollEntry>): seq<RollHistory.RollEntry>
  {
    if e.Some? then RollHistory.Prepended(e.value, history) else history
  }

  /** The page component: its state fields, the game lists it was given, and the wheel
    * store and history panel it talks to. */
  class Index {
    const lists: seq<GameList>
    const store: CustomWheels.WheelStore
    const log: RollHistory.History
    var mode: Mode
    var selectedCategory: Option<GameList>
    var isCategorySpinning: bool
    var disabledCategories: seq<string>
    var isGameSpinning: bool
    var result: Option<string>
    var selectedCustomWheel: Option<string>
    var isCustomSpinning: bool
    var customResult: Option<CustomWheels.WheelOption>

    function View(): Page
      reads this
    {
      Page(mode, selectedCategory, isCategorySpinning, disabledCategories, isGameSpinning, result,
           selectedCustomWheel, isCustomSpinning, customResult)
    }

    /** What the category wheel receives. */
    function CategoryWheelItems(): seq<GameList>
      reads this
    {
      EnabledLists(lists, disabledCategories)
    }

    /** What the game wheel receives: the selected list's games, or none. */
    function GameWheelItems(): seq<string>
      reads this
    {
      if selectedCategory.Some? then selectedCategory.value.games else []
    }

    constructor(lists: seq<GameList>, store: CustomWheels.WheelStore, log: RollHistory.History)
      ensures this.lists == lists && this.store == store && this.log == log
      ensures View() == InitialPage
    {
      this.lists, this.store, this.log := lists, store, log;
      mode, selectedCategory, isCategorySpinning, disabledCategories := GamesMode, None, false, [];
      isGameSpinning, result := false, None;
      selectedCustomWheel, isCustomSpinning, customResult := None, false, None;
    }

    method HandleRollCategory()
      modifies this
      ensures View() == RollCategory(old(View()), lists)
    {
      if |lists| == 0 || isCategorySpinning || isGameSpinning {
        return;
      }
      isCategorySpinning := true;
      selectedCategory := None;
      result := None;
    }

    /** The entry's id and time come from the caller. */
    method HandleCategorySpinComplete(category: GameList, entryId: string, timestamp: int)
      modifies this, log
      ensures View() == CategorySpinComplete(old(View()), category)
      ensures log.entries == RollHistory.Prepended(
                RollHistory.CategoryEntry(category.name, category.icon, entryId, timestamp), old(log.entries))
    {
      isCategorySpinning := false;
      selectedCategory := Some(category);
      log.AddCategoryEntry(category.name, category.icon, entryId, timestamp);
    }

    method HandleCategoryClick(category: GameList)
      modifies this
      ensures View() == CategoryClick(old(View()), category)
    {
      selectedCategory := Some(category);
    }

    /**
     * A click on a category card while the category wheel spins. The click re-renders
     * the page, which hands the wheel a newly filtered array, so the wheel's spin effect
     * runs its cleanup and then starts over: the running session is dropped, and a fresh
     * one begins from a new random start with a new 10 s budget and nothing settled.
     */
    method ClickDuringCategorySpin(wheel: SpinEngine.SpinWheel<GameList>, category: GameList,
                                   random: real, elapsed0: int)
      requires wheel.Valid() && !wheel.windowed
      requires isCategorySpinning && wheel.items == CategoryWheelItems() && |wheel.items| > 0
      requires 0.0 <= random < 1.0 && 0 <= elapsed0 < SpinEngine.SpinDuration
      modifies this, wheel
      ensures View() == CategoryClick(old(View()), category)
      ensures wheel.Valid() && wheel.items == CategoryWheelItems()
      ensures wheel.start == SpinEngine.RandomIndex(random, |wheel.items|) && wheel.ticks == 1
      ensures wheel.lastElapsed == elapsed0 && wheel.timerArmed && !wheel.done
      ensures wheel.completions == old(wheel.completions)
    {
      HandleCategoryClick(category);
      wheel.DependenciesChanged(CategoryWheelItems(), true, isCategorySpinning, _ => false, random, elapsed0);
    }

    method HandleCategoryDisable(id: string)
      modifies this
      ensures View() == CategoryDisable(old(View()), id)
    {
      if id in disabledCategories {
        disabledCategories := Removed(disabledCategories, id);
      } else {
        disabledCategories := disabledCategories + [id];
      }
    }

    method HandleRollGame()
      modifies this
      ensures View() == RollGame(old(View()))
    {
      if selectedCategory.None? || isGameSpinning || isCategorySpinning {
        return;
      }
      isGameSpinning := true;
      result := None;
    }

    method HandleGameSpinComplete(game: string, entryId: string, timestamp: int)
      modifies this, log
      ensures View() == GameSpinComplete(old(View()), game)
      ensures log.entries == Recorded(old(log.entries), GameCompletionEntry(old(View()), game, entryId, timestamp))
    {
      isGameSpinning := false;
      result := Some(game);
      if selectedCategory.Some? {
        log.AddGameEntry(selectedCategory.value.name, selectedCategory.value.icon, game, entryId, timestamp);
      }
    }

    method HandleRollCustom()
      modifies this
      ensures View() == RollCustom(old(View()))
    {
      if !Truthy(selectedCustomWheel) || isCustomSpinning {
        return;
      }
      isCustomSpinning := true;
      customResult := None;
    }

    method HandleCustomSpinComplete(option: CustomWheels.WheelOption, entryId: string, timestamp: int)
      modifies this, log
      ensures View() == CustomSpinComplete(old(View()), option)
      ensures log.entries == Recorded(old(log.entries),
                CustomCompletionEntry(old(View()), store.wheels, option, entryId, timestamp))
    {
      isCustomSpinning := false;
      customResult := Some(option);
      var wheel := FindWheel(store.wheels, selectedCustomWheel);
      if wheel.Some? {
        log.AddGameEntry(wheel.value.name, wheel.value.icon, option.name, entryId, timestamp);
      }
    }

    method HandleSelectCustomWheel(id: string)
      modifies this
      ensures View() == SelectCustomWheel(old(View()), id)
    {
      selectedCustomWheel := Some(id);
    }

    method HandleToggleMode()
      modifies this
      ensures View() == ToggleMode(old(View()))
    {
      mode := if mode == GamesMode then CustomMode else GamesMode;
    }
  }
}
