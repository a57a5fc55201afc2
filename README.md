# Roulette game picker: a verified model

The repository is a small web app for streamers called “Pluhi roulette”. It has four parts:

- a **category wheel** that lights up one card of a grid of game lists until it settles;
- a **game wheel** that spins through the games of the chosen list in a 5-entry window;
- a **custom wheel** mode with user-editable option wheels kept in browser storage;
- a **roll history** with relative timestamps.

It also has a **player board**, where scores map onto a snake-shaped grid of tiles 1..100 plus a zero tile and a row of minus tiles. A Python **converter** (`main.py`) turns a categorised spreadsheet into the JSON of game lists.

This project models that logic in Dafny and proves what the code promises.

| module (file) | models |
|---|---|
| `SpinEngine` (spin_engine.dfy) | the spin effect shared by `CategoryWheel.tsx`, `GameWheel.tsx` and `CustomWheel.tsx` (class `SpinWheel<T>`) |
| `Roulette` (roulette.dfy) | the page `Index.tsx` (class `Index` and its handlers as pure state transitions) |
| `RollButtons` (roll_buttons.dfy) | the disabled and glow predicates of `RollButtons.tsx` |
| `RollHistory` (roll_history.dfy) | `RollHistory.tsx`: the capped history (class `History`) and `formatTime` |
| `CustomWheels` (custom_wheels.dfy) | `useCustomWheels.ts`: the built-in wheels, the list edits and the store (class `WheelStore`) |
| `TileConfig` (tile_config.dfy) | `tileConfig.ts`: tile classes and configurations |
| `PlayerMap` (player_map.dfy) | `PlayerMap.tsx`: `getCellPosition`, the grid and minus-row loops, the score buckets |
| `CategoryTables` (category_tables.dfy) | the tables and `clean_category`, `resolve_category`, `get_final_category` of `main.py` |
| `Slug` (slug.dfy) | `slugify` of `main.py` |
| `CategoryPipeline` (category_pipeline.dfy) | the row loop and the output loop of `main` in `main.py` |
| `Wrappers`, `Text`, `Numeric` | `Option`/`Result`, decimal rendering of numbers, JavaScript's `%` and modular lemmas |

## How the source was modelled

Each wheel & its spin:
- The spin closure's locals (`speed`, `currentIndex`, `actualFinalIndex`) are fields of `SpinWheel`, together with the component state the closure writes.
- `Date.now() - start` is the `elapsed` argument of `Tick`. `Tick` requires that a timeout never fires before its delay, which gives a termination measure.
- `Math.random()` is a real argument in [0, 1).
- `speed` is an exact `real`.
- The slow-down threshold is 3000 ms, as the code's constant says. The comment beside it says 2 seconds.

The page handlers:
- They are methods of `Index` that `ensures View() == F(old(View()))`.
- `F` is a pure function of the page state. The lemmas are stated about those functions.

Storage:
- Storage reads are a three-way value: absent, malformed or parsed.
- Storage writes are a success flag.

The Python converter:
- Python's `lower`, `strip` and `isalnum` are uninterpreted functions (`PyText`).
- The row-loop properties are proved once for any classifier of rows, the `Classifier` type in `CategoryPipeline`. `ClassifierOf` instantiates that classifier with the real tables.

The minus row spans −40..−1, as `MINUS_TILES_START` says. The unused `MINUS_CELLS = 20` and the “−20 to −1” legend and comment in `PlayerMap.tsx` disagree with the code, and the model follows the code.

## Model

| member | source | states |
|---|---|---|
| SpinEngine.NextSpeed | src/components/CategoryWheel.tsx:58-68 | the delay is unchanged up to elapsed 3000; it never decreases and stays ≤ 800. Up to 7000 it grows by at least 15 and after that by at least 30, unless it is capped at 800 |
| SpinEngine.NextSpeedBounds | src/components/CategoryWheel.tsx:33-40 | from a speed in [40, 800] the next speed stays in [speed, 800] |
| SpinEngine.RandomIndex | src/components/CategoryWheel.tsx:36 | `Math.floor(Math.random() * n)` is an index in [0, n) |
| SpinEngine.AdvanceIsMod | src/components/CategoryWheel.tsx:38-55 | k steps of `(i + 1) % n` from a start in range land on (start + k) mod n |
| SpinEngine.Window | src/components/GameWheel.tsx:44-50 | the published window has 5 entries and its centre is `items[i]`; every index it uses is in range |
| SpinEngine.WindowIndexInRange | src/components/CustomWheel.tsx:58-64 | each of the five index expressions, with JavaScript's `%`, is in [0, n) and equals the circular neighbour (i + j − 2) mod n |
| SpinEngine.WindowIsCircular | src/components/GameWheel.tsx:44-50 | entry j of the window is `items[(i + j − 2) mod n]` |
| SpinEngine.InitialWindow | src/components/GameWheel.tsx:15-25 | the list-change window has 5 entries, centred on `items[0]` |
| SpinEngine.InitialWindowIsWindowAtZero | src/components/CustomWheel.tsx:29-40 | when no entry is falsy, the list-change window equals the window at index 0 for every length, including 1 and 2 |
| SpinEngine.SpinWheel.constructor | src/components/CategoryWheel.tsx:25-28 | mount state: no session, no timer, nothing reported |
| SpinEngine.SpinWheel.ResetDisplay | src/components/GameWheel.tsx:15-26 | a non-empty list resets the window to the initial window and the index state to 0; an empty list leaves both |
| SpinEngine.SpinWheel.DependenciesChanged | src/components/CategoryWheel.tsx:30-88 | cleanup cancels the pending timeout. With the spinning flag set and a non-empty list, a fresh session runs its first tick from a new random start. Otherwise, for example with an empty list, no session and no timer exist and nothing is reported |
| SpinEngine.SpinWheel.StartSession | src/components/CategoryWheel.tsx:31-80 | a new session starts at `RandomIndex(random, n)` with speed 40 and runs the first tick at once |
| SpinEngine.SpinWheel.Tick | src/components/CategoryWheel.tsx:48-78 | a tick publishes the index it reaches (and its window), steps by one mod n and updates the speed monotonically within 800. It re-arms iff elapsed < 10000, and otherwise reports `items[actualFinalIndex]` (the index this tick highlighted) exactly once |
| SpinEngine.SpinWheel.Spin | src/components/GameWheel.tsx:39-81 | the same as `Tick`, for the first call too; afterwards the session invariant holds (index = start + ticks steps, window = window at the settled index) |
| SpinEngine.SpinWheel.Highlight | src/components/GameWheel.tsx:43-53 | the index state and the window show the current index, which is remembered as `actualFinalIndex`; the index then steps by one mod n |
| SpinEngine.SpinWheel.SlowDownAndReschedule | src/components/CustomWheel.tsx:68-95 | the speed follows `NextSpeed`; the timer is re-armed iff elapsed < 10000, else the session settles and reports once |
| SpinEngine.Simulate | src/components/CategoryWheel.tsx:30-88 | for any schedule of timer latenesses, a whole session always stops, after 1 to 251 ticks, and settles on `items[(start + ticks − 1) mod n]`; a one-item list always yields `items[0]` |
| Roulette.EnabledLists | src/pages/Index.tsx:169 | the wheel receives only lists from `lists` whose id is not disabled |
| Roulette.EnabledListsKeepsEnabled | src/pages/Index.tsx:169 | every list that is not disabled reaches the wheel |
| Roulette.EnabledListsOfConcat | src/pages/Index.tsx:169 | the filter distributes over concatenation, so the original order is kept |
| Roulette.EnabledListsEmpty | src/pages/Index.tsx:72 | `allCategoriesDisabled` holds iff there is a list and the wheel would receive none |
| Roulette.Removed | src/pages/Index.tsx:65 | membership after the filter: everything except the id |
| Roulette.Toggled | src/pages/Index.tsx:63-69 | the disable toggle: an id not yet disabled is appended, a disabled one is removed everywhere; `ToggleLaws` states its effect |
| Roulette.AllCategoriesDisabled | src/pages/Index.tsx:72 | there is at least one list and every list's id is among the disabled ids |
| Roulette.Truthy | src/pages/Index.tsx:91 | a selected wheel id counts only when present and non-empty, as JavaScript truthiness reads a string |
| Roulette.RemovedAbsent | src/pages/Index.tsx:65 | filtering out an absent id leaves the list unchanged |
| Roulette.ToggleLaws | src/pages/Index.tsx:61-70 | the toggle flips the id's membership and no other id's; toggling an absent id twice restores the list |
| Roulette.RollCategory | src/pages/Index.tsx:42-47 | no change with no lists or while either games-mode wheel spins; otherwise the category flag is set and the selection and the result are cleared |
| Roulette.CategorySpinComplete | src/pages/Index.tsx:49-54 | the category flag is cleared and the landed list becomes the selection |
| Roulette.CategoryClick | src/pages/Index.tsx:56-59 | the clicked list becomes the selection, and nothing else changes |
| Roulette.CategoryDisable | src/pages/Index.tsx:61-70 | the disabled ids become `Toggled` of the list's id, with no check of a running spin |
| Roulette.RollGame | src/pages/Index.tsx:74-78 | no change without a selection or while either wheel spins; otherwise the game flag is set and the result cleared |
| Roulette.GameSpinComplete | src/pages/Index.tsx:80-82 | the game flag is cleared and the landed game becomes the result |
| Roulette.RollCustom | src/pages/Index.tsx:90-94 | no change without a truthy wheel id or while the custom wheel spins; otherwise the custom flag is set and the custom result cleared |
| Roulette.CustomSpinComplete | src/pages/Index.tsx:96-98 | the custom flag is cleared and the landed option becomes the custom result |
| Roulette.SelectCustomWheel | src/pages/Index.tsx:227 | the clicked wheel's id becomes the selected wheel id |
| Roulette.ToggleMode | src/pages/Index.tsx:129 | games mode and custom mode swap |
| Roulette.CategoryButtonDisabled | src/pages/Index.tsx:193-201 | the category button as the page wires it: `disabled` is "no lists" and `allCategoriesDisabled` comes from the page |
| Roulette.GameButtonDisabled | src/pages/Index.tsx:193-201 | the game button as the page wires it: `disabled` is "no lists" and `categorySelected` is "a list is selected" |
| Roulette.CustomButtonDisabled | src/pages/Index.tsx:264 | the custom roll button is disabled without a truthy wheel id or while the custom wheel spins |
| Roulette.CustomButtonGlows | src/pages/Index.tsx:272 | the custom roll button glows when the custom wheel is idle and a truthy wheel id is selected |
| Roulette.CustomButtonAgrees | src/pages/Index.tsx:262-272 | the custom button glows iff it is enabled, and it is enabled iff `handleRollCustom` would start a spin |
| Roulette.ClickRollCategory | src/components/RollButtons.tsx:26-28 | a click reaches `handleRollCategory` only while the category button is enabled |
| Roulette.ClickRollGame | src/components/RollButtons.tsx:46-48 | a click reaches `handleRollGame` only while the game button is enabled |
| Roulette.ClickRollCustom | src/pages/Index.tsx:262-264 | a click reaches `handleRollCustom` only while the custom button is enabled |
| Roulette.RollGuards | src/pages/Index.tsx:42-47 | each roll handler changes the page iff its guard passes; it then raises its flag and clears the result it replaces (also lines 74-78 and 90-94) |
| Roulette.SpinsStayExclusive | src/pages/Index.tsx:43-44 | every handler keeps category-spinning and game-spinning from being set together (also line 75) |
| Roulette.EnabledCategoryButtonSettles | src/components/RollButtons.tsx:28 | an enabled category button means the handler's guard passes and the wheel gets a non-empty list |
| Roulette.HandlerAloneStartsEmptySpin | src/pages/Index.tsx:43 | the handler itself does not check `allCategoriesDisabled`: with every list disabled it starts a spin on an empty wheel (only the button prevents this) |
| Roulette.DisableDuringSpinStrandsIt | src/pages/Index.tsx:61-70 | as written, disabling the last enabled category during a category spin leaves the spin running with nothing to land on |
| Roulette.CategorySpinAlwaysSettles | src/pages/Index.tsx:42-104 | with the guarded toggle, a running category spin has a list to land on after every click and completion |
| Roulette.FindWheel | src/pages/Index.tsx:100 | `find` yields a wheel iff one has the id; it is the first wheel in the list with that id |
| Roulette.GameCompletionEntry | src/pages/Index.tsx:85-87 | game completion records an entry iff a category is selected, with that category's name and icon |
| Roulette.CustomCompletionEntry | src/pages/Index.tsx:100-103 | custom completion records an entry iff the selected wheel id is found; the entry is a game roll carrying the found wheel's name and icon, the landed option's name, the id and the timestamp |
| Roulette.Index.constructor | src/pages/Index.tsx:30-40 | the initial page state |
| Roulette.Index.HandleRollCategory | src/pages/Index.tsx:42-47 | the new page is `RollCategory` of the old one |
| Roulette.Index.HandleCategorySpinComplete | src/pages/Index.tsx:49-54 | clears the flag and selects the category; the history gains one category entry in front |
| Roulette.Index.HandleCategoryClick | src/pages/Index.tsx:56-59 | selects the clicked category |
| Roulette.Index.ClickDuringCategorySpin | src/pages/Index.tsx:56-59 | a click on a card during a category spin selects the card, and the re-render restarts the wheel (src/components/CategoryWheel.tsx:30-88): a fresh session from a new random start, one tick in, the timer armed again, and nothing settled |
| Roulette.Index.HandleCategoryDisable | src/pages/Index.tsx:61-70 | the disabled ids become the toggle of the id |
| Roulette.Index.HandleRollGame | src/pages/Index.tsx:74-78 | the new page is `RollGame` of the old one |
| Roulette.Index.HandleGameSpinComplete | src/pages/Index.tsx:80-88 | clears the flag, sets the result, and records a game entry only with a selected category |
| Roulette.Index.HandleRollCustom | src/pages/Index.tsx:90-94 | the new page is `RollCustom` of the old one |
| Roulette.Index.HandleCustomSpinComplete | src/pages/Index.tsx:96-104 | clears the flag, sets the custom result, and records an entry only if the wheel is found |
| Roulette.Index.HandleSelectCustomWheel | src/pages/Index.tsx:227 | selects the clicked wheel's id |
| Roulette.Index.HandleToggleMode | src/pages/Index.tsx:129 | switches between games mode and custom mode |
| RollButtons.CategoryButtonDisabled | src/components/RollButtons.tsx:28 | disabled when the page says so, while either wheel spins, or when every category is disabled |
| RollButtons.CategoryButtonGlows | src/components/RollButtons.tsx:35 | glows when none of the disabling conditions holds |
| RollButtons.GameButtonDisabled | src/components/RollButtons.tsx:48 | disabled when the page says so, without a selected category, or while either wheel spins |
| RollButtons.GameButtonGlows | src/components/RollButtons.tsx:55 | glows when a category is selected and nothing disables or spins |
| RollButtons.ButtonsAgree | src/components/RollButtons.tsx:28-55 | each button glows iff it is enabled, and while either wheel spins both buttons are disabled |
| RollHistory.Prepended | src/components/RollHistory.tsx:56 | the new entry comes first, followed by the old entries in order; the length is min(old + 1, 50) and never exceeds 50 |
| RollHistory.PrependedKeepsNewest | src/components/RollHistory.tsx:56 | every kept entry moves back exactly one place |
| RollHistory.PrependedAll | src/components/RollHistory.tsx:47-57 | adding several entries is the newest-first list of them, then the old history, truncated to 50, even when the loaded history was longer |
| RollHistory.CategoryEntry | src/components/RollHistory.tsx:177-182 | a category entry has type category, the name and icon, and no game |
| RollHistory.GameEntry | src/components/RollHistory.tsx:48-55 | a game entry has type game and carries category, icon and game |
| RollHistory.FormatTime | src/components/RollHistory.tsx:63-76 | under a minute, including negative ages, “Just now”; then “Nm ago” with 1 ≤ N < 60, “Nh ago” with 1 ≤ N < 24 and “Nd ago” with 1 ≤ N < 7, in that order; the date text otherwise |
| RollHistory.History.constructor | src/components/RollHistory.tsx:23 | the history starts empty |
| RollHistory.History.Load | src/components/RollHistory.tsx:25-36 | a parsed stored list replaces the history; a missing or malformed one leaves it |
| RollHistory.History.AddEntry | src/components/RollHistory.tsx:47-57 | the history becomes `Prepended` of the new entry, at most 50 long |
| RollHistory.History.AddCategoryEntry | src/components/RollHistory.tsx:175-182 | adds the category entry in front |
| RollHistory.History.AddGameEntry | src/components/RollHistory.tsx:175-186 | adds the game entry in front |
| RollHistory.History.ClearHistory | src/components/RollHistory.tsx:59-61 | the history becomes empty |
| Text.NatToStringRoundTrip | src/components/RollHistory.tsx:72-74 | the decimal text of a count reads back as the count |
| CustomWheels.Merge | src/hooks/useCustomWheels.ts:88 | the spread `{...w, ...updates}`: each field present in the patch replaces the wheel's field, and each absent field keeps it |
| CustomWheels.MergeLaws | src/hooks/useCustomWheels.ts:88 | the spread merge with an empty patch is the identity, merging twice is merging once, and without an id field the id is kept |
| CustomWheels.Updated | src/hooks/useCustomWheels.ts:86-91 | same length and order; each wheel with the id takes every field of the patch (the id too), and others are untouched |
| CustomWheels.UpdateMissing | src/hooks/useCustomWheels.ts:86-91 | updating an id no wheel has changes nothing |
| CustomWheels.Deleted | src/hooks/useCustomWheels.ts:93-96 | the wheels kept are exactly those without the id |
| CustomWheels.DeletedOfConcat | src/hooks/useCustomWheels.ts:94 | the filter works wheel by wheel, so the kept wheels stay in order |
| CustomWheels.DeletedShrinks | src/hooks/useCustomWheels.ts:93-96 | deleting leaves the list alone iff no wheel has that id, and otherwise shortens it |
| CustomWheels.DeleteUndoesAdd | src/hooks/useCustomWheels.ts:81-96 | deleting a just-added wheel with a fresh id restores the list |
| CustomWheels.DeleteAfterUpdate | src/hooks/useCustomWheels.ts:86-96 | an update that keeps the id is invisible to a later delete of it |
| CustomWheels.DefaultWheels | src/hooks/useCustomWheels.ts:7-45 | there are three built-in wheels: challenges, modifiers and rewards |
| CustomWheels.DefaultWheelsWellFormed | src/hooks/useCustomWheels.ts:7-45 | the built-in wheels have distinct ids, non-empty options and distinct option ids |
| CustomWheels.WheelStore.constructor | src/hooks/useCustomWheels.ts:48-49 | no wheels, loading |
| CustomWheels.WheelStore.Load | src/hooks/useCustomWheels.ts:51-67 | a stored list is used; a missing or malformed one gives the defaults; loading ends on every path |
| CustomWheels.WheelStore.Save | src/hooks/useCustomWheels.ts:72-79 | the list changes to the new one iff the storage write succeeded |
| CustomWheels.WheelStore.AddWheel | src/hooks/useCustomWheels.ts:81-84 | on success the wheel is appended at the end |
| CustomWheels.WheelStore.UpdateWheel | src/hooks/useCustomWheels.ts:86-91 | on success the list becomes `Updated` |
| CustomWheels.WheelStore.DeleteWheel | src/hooks/useCustomWheels.ts:93-96 | on success the list becomes `Deleted` |
| CustomWheels.WheelStore.ResetToDefaults | src/hooks/useCustomWheels.ts:98-100 | on success the list becomes the three built-in wheels |
| TileConfig.IsShinyTile | src/lib/tileConfig.ts:31-33 | a tile is shiny iff it is in the shiny list |
| TileConfig.IsRedTile | src/lib/tileConfig.ts:35-37 | a tile is red iff it lies in 81..100 |
| TileConfig.IsMinusTile | src/lib/tileConfig.ts:39-41 | a tile is a minus tile iff it lies in −40..−1 |
| TileConfig.BaseConfig | src/lib/tileConfig.ts:24-29 | the label and description of each tile type, and none for a normal tile |
| TileConfig.ShinyTilesAreMultiplesOfFive | src/lib/tileConfig.ts:11 | the shiny list holds exactly the multiples of 5 in [5, 80] |
| TileConfig.GetTileType | src/lib/tileConfig.ts:43-48 | minus iff −40 ≤ n ≤ −1, red iff 81 ≤ n ≤ 100, shiny iff a multiple of 5 in [5, 80], normal otherwise |
| TileConfig.GetTileConfig | src/lib/tileConfig.ts:50-56 | the configuration's type is the tile type. A minus tile carries its value and names \|n\| in its description; others get their class's fixed configuration. Only normal tiles have no label |
| TileConfig.MinusDescriptionsDistinct | src/lib/tileConfig.ts:53 | distinct minus tiles get distinct descriptions |
| PlayerMap.GetCellPosition | src/components/PlayerMap.tsx:12-18 | a tile of 1..100 is placed inside the 10 by 10 grid, at the row and column the inverse lemmas pin down |
| PlayerMap.SnakeCell | src/components/PlayerMap.tsx:170-176 | the tile in display row `row`, column `col` of the snake, as the row loop computes it |
| PlayerMap.SnakeRow | src/components/PlayerMap.tsx:168-180 | row r holds 91 − 10r .. 100 − 10r, descending on even rows and ascending on odd rows |
| PlayerMap.SnakeDirection | src/components/PlayerMap.tsx:174-176 | one column to the right is one tile down on even rows and one tile up on odd rows |
| PlayerMap.GetCellPositionInvertsGrid | src/components/PlayerMap.tsx:12-18 | for a tile in 1..100, row and column are in [0, 9] and the grid draws that tile there |
| PlayerMap.GridInvertsGetCellPosition | src/components/PlayerMap.tsx:168-180 | each position of the grid holds a tile in 1..100 whose position is that position |
| PlayerMap.GridIsInjective | src/components/PlayerMap.tsx:168-180 | no tile is drawn twice |
| PlayerMap.BuildRows | src/components/PlayerMap.tsx:168-180 | ten rows of ten, each cell the snake tile of its position |
| PlayerMap.BuildMinusRow | src/components/PlayerMap.tsx:183-186 | exactly −1, −2, …, −40, each classified as minus |
| PlayerMap.Position | src/components/PlayerMap.tsx:150-161 | negatives are clamped at −40, zero stays 0, positives are clamped at 100, and the result always lies in [−40, 100] and equals the score when the score is in range |
| PlayerMap.EveryPositionRendered | src/components/PlayerMap.tsx:192-222 | every position is a drawn tile: grid, zero or minus row |
| PlayerMap.BucketMembers | src/components/PlayerMap.tsx:162-163 | a bucket holds only players from the input whose tile is that bucket's |
| PlayerMap.PlayerInOwnBucket | src/components/PlayerMap.tsx:150-165 | every player is in their own tile's bucket |
| PlayerMap.BucketOfConcat | src/components/PlayerMap.tsx:150-165 | grouping distributes over concatenation, so each bucket keeps input order |
| PlayerMap.PlayersByPosition | src/components/PlayerMap.tsx:150-165 | the reduce's table equals `Bucket` at every tile, and every key it creates has a player |
| CategoryTables.BeforeComma | main.py:135 | the text before the first comma: a prefix with no comma, followed by a comma if shorter |
| CategoryTables.CleanCategory | main.py:125-136 | a missing cell gives ""; otherwise the stripped prefix that ends at the first comma, or at the end when there is none |
| CategoryTables.ResolveCategory | main.py:138-159 | a success is in the valid list and is the input itself or its alias target |
| CategoryTables.ResolveErrors | main.py:143-159 | the empty error iff the input is empty; the unknown error iff it is non-empty, not valid and not an alias; a valid input is returned as is |
| CategoryTables.AliasTargetsValid | main.py:21-42 | every alias target is a valid category |
| CategoryTables.AliasErrorUnreachable | main.py:152-156 | so the alias error never occurs with these tables |
| CategoryTables.ResolveIdempotent | main.py:138-159 | resolving a resolved name gives it back |
| CategoryTables.GetFinalCategory | main.py:161-169 | a grouped category becomes its CATEGORY_GROUPS entry, and any other category is unchanged |
| CategoryTables.FinalCategoryIsFinal | main.py:47-69 | grouping twice is grouping once: every group name is either no key of CATEGORY_GROUPS or mapped to itself |
| CategoryTables.IconFor | main.py:225 | the table icon, or 🎮 when there is none |
| CategoryTables.EveryFinalCategoryHasIcon | main.py:47-101 | every valid category's final group has an icon entry of its own |
| Slug.CharSlug | main.py:117-122 | a table letter gives its table text, another alphanumeric character itself, and anything else one dash |
| Slug.Transliterated | main.py:114-122 | the concatenation of `CharSlug` over the text, in order; `TransliteratedConcat` states it distributes over concatenation |
| Slug.SlugOf | main.py:105-123 | the lowered and stripped text, transliterated, with dash runs collapsed and the ends trimmed; `SlugShape` and `SlugKeepsText` state what it yields |
| Slug.StripDashes | main.py:123 | `.strip('-')`: the leading dashes, then the trailing ones, go |
| Slug.CollapseDashes | main.py:123 | no two dashes in a row remain; the first and last character are kept; text without dashes is unchanged |
| Slug.CollapseFixes | main.py:123 | a text with no two dashes in a row is left as it is |
| Slug.CollapseDoubleDash | main.py:123 | two dashes in a row collapse exactly like one, wherever they stand, so every run of dashes becomes one dash |
| Slug.CollapseKeepsText | main.py:123 | with the dashes removed, the collapsed text is the same as the original |
| Slug.CollapseKeepsDash | main.py:123 | the collapsed text holds a dash iff the original does |
| Slug.StripLeading | main.py:123 | a suffix of the text with no leading dash, and everything removed was a dash; unchanged when there was none |
| Slug.StripTrailing | main.py:123 | a prefix of the text with no trailing dash, and everything removed was a dash; unchanged when there was none |
| Slug.UndashedConcat | main.py:123 | removing dashes from a concatenation removes them from each part |
| Slug.UndashedOfDashes | main.py:123 | a run of dashes leaves nothing once dashes are removed |
| Slug.StripLeadingKeepsText | main.py:123 | trimming leading dashes keeps every other character in order |
| Slug.StripTrailingKeepsText | main.py:123 | trimming trailing dashes keeps every other character in order |
| Slug.StripDashesKeepsText | main.py:123 | trimming dashes at both ends keeps every other character in order |
| Slug.SlugShape | main.py:105-123 | a slug has no leading or trailing dash and never contains "--" |
| Slug.SlugKeepsText | main.py:105-123 | the slug holds every non-dash character of the transliterated, lowered and stripped name, in order |
| Slug.TransliteratedConcat | main.py:116-122 | the loop's output for a concatenation is the concatenation of the outputs, so each character contributes on its own |
| Slug.DroppedChar | main.py:116-122 | a character that contributes nothing can be left out of the text without changing the loop's output |
| Slug.TableTextHasNoDash | main.py:107-118 | a text of table letters only yields no dash, since no table entry holds one |
| Slug.SignsDropped | main.py:107-112 | the soft and hard signs contribute nothing |
| Slug.TableTextSlug | main.py:107-123 | a text of table letters only slugs to its letter-by-letter transliteration |
| Slug.Slugify | main.py:114-123 | the loop's slug is `SlugOf` of the text |
| CategoryPipeline.RowCategory | main.py:198-209 | a row's final category, when it resolves, is the group of a valid category |
| CategoryPipeline.FirstBadRow | main.py:203-206 | the first kept row whose category does not resolve; no earlier kept row fails |
| CategoryPipeline.RowAddsToOneCategory | main.py:211-215 | one more row appends its game to its own category's list only |
| CategoryPipeline.RowGameListed | main.py:195-215 | every kept row's stripped game is listed under its final category |
| CategoryPipeline.GamesInNonEmpty | main.py:212-215 | a category has games iff some kept row lands in it |
| CategoryPipeline.FinalsHaveIcons | main.py:225 | every category of converted data has a table icon |
| CategoryPipeline.SortedNames | main.py:221 | the category names in sorted order, same set |
| CategoryPipeline.ClassifyRow | main.py:198-209 | one row's category step: clean, resolve, then group; the result is the row's `RowCategory`, so a failure carries the resolver's error |
| CategoryPipeline.Aggregate | main.py:191-215 | fails iff some kept row is bad, with the first such row's number (index + 2), game and cause; otherwise each category's list holds its kept rows' games in row order |
| CategoryPipeline.MakeEntry | main.py:222-232 | an entry is the slug of the name, the name, the icon and the category's games |
| CategoryPipeline.BuildOutput | main.py:218-233 | one entry per category, sorted by name, each entry as `EntryFor` |
| CategoryPipeline.Convert | main.py:191-238 | an unresolvable row aborts before any output; otherwise exactly the final categories, each non-empty and in name order, with slug ids and icons |

## Left out

- Network and data loading are not part of this model: `useGameLists.ts`, `usePlayers.ts`, `supabase.ts`, `RulesModal.tsx` and the migration script. The game lists are a constant of `Index`.
- `localStorage` and JSON are not modelled byte by byte. A read is absent, malformed or parsed; a write is a success flag. Empty stored text counts as absent.
- The history's save effect (src/components/RollHistory.tsx:38-45) only writes storage. Nothing reads it back within a session, so it is left out.
- The global `rollHistoryAPI` registry is replaced by direct calls from `Index` to its `History`. So the case where the history panel is not mounted, and the optional call does nothing, is not modelled.
- `Date.now()`, `Math.random()` and timer scheduling are parameters: entry ids and timestamps, the random start, and the elapsed time of each tick. React re-rendering is reduced to `DependenciesChanged` (cleanup, then the effects again).
- Roulette.Index.HandleCategoryClick, Roulette.Index.HandleCategoryDisable, Roulette.Index.HandleSelectCustomWheel and the other handlers state only how the page changes. In the source every page render hands the wheels a new filtered array (src/pages/Index.tsx:169) and new completion callbacks, so each page state change during a spin restarts the running wheel's session with a new random start and a new 10 s budget, and repeated changes postpone settling. `Index` and `SpinWheel` are composed only in `Roulette.Index.ClickDuringCategorySpin`, for one click on the category wheel. The same restart of the game and custom wheels, and a sequence of such renders, is not modelled.
- SpinEngine.NextSpeed uses exact real arithmetic for JavaScript's double-precision speed formula; rounding is not modelled.
- SpinEngine.SpinWheel.Tick: `setTimeout` is assumed to fire no earlier than the truncated delay. Browser clamping and drift are not modelled.
- Rendering (JSX, CSS class helpers, the “No categories available”/“No options available” placeholders, `ResultDisplay.tsx`, `TabNavigation.tsx`, `GameList.tsx`, `GameListSelector.tsx`, `PlayerMapModal.tsx`, `RollButton.tsx`) is not modelled. The empty-list case is modelled as “no session starts”.
- RollHistory.FormatTime takes the `toLocaleDateString` text as a parameter.
- Python's Unicode `lower`, `strip` and `isalnum` are uninterpreted functions. `str()` of non-text cells is not modelled: game and category cells are text or missing.
- pandas CSV reading, `json.dump`, the file output and the console messages of `main.py` are not modelled. `Convert` returns the entries or the error that would abort the run. Its input is the rows of the two named columns, so the abort at main.py:185-186 when either column is missing from the sheet, which happens before any row is read, is not modelled.
- CustomWheels.Merge: a patch field is either absent or a value. A partial object that holds a key set to `undefined`, which the spread at src/hooks/useCustomWheels.ts:88 would copy over the wheel's field, cannot be expressed.
- PlayerMap.Position and the buckets use integer scores; fractional scores are not modelled.
- Roulette.Index.HandleCategoryDisable models the toggle as written. The guarded version is `Roulette.CategoryDisableSafely`, a pure function used by `CategorySpinAlwaysSettles`.

## Findings

| source | as written | input that shows it | evidently intended | confidence | as-written member | corrected member |
|---|---|---|---|---|---|---|
| src/pages/Index.tsx:61-70 | the disable toggle works while the category wheel spins (the wheel's disable button stays clickable, src/components/CategoryWheel.tsx:150-152) | one list `a`, category spin running, the user disables `a`: the wheel gets an empty list, its cleanup cancels the timer, no session starts, and `isCategorySpinning` stays true, so both roll buttons stay disabled | a running category spin always has at least one list to land on | not executed | Roulette.DisableDuringSpinStrandsIt | Roulette.CategorySpinAlwaysSettles |
