# Notebook page flipping, the "Scene: Check" action and Adventure Creator's editor preferences

A Dafny model of three pieces of a Unity point-and-click adventure game built on
the Adventure Creator (AC) plugin. Each piece is small, but its logic can be
stated without the engine:

- `PageFlip` (`page_flip.dfy`) models the notebook's `PageController`. It holds a
  current page index that the arrow keys move right and left. After every swipe it
  switches on the hotspots of the current page and the page before it. Before
  moving, it re-ranks the canvases around the page being flipped. The pages are two
  arrays: each hotspot's active flag and each canvas's sorting order. A fixed
  sequence says which pages have a hotspot. The class's methods are proved against
  value-level transitions, `SwipeNext` and `SwipePrevious`, and the properties are
  lemmas about those transitions.
- `SceneCheck` (`scene_check.dfy`) models AC's `ActionSceneCheck`. `CheckCondition`
  decides whether the current or previous scene, either the global one or a
  player's saved one, is the configured scene. The scene is chosen by build index
  or by name, under "equal to" or "not equal to". Engine lookups are inputs
  gathered in `Engine`: the settings manager, the scene changer's indices, the save
  system's player records, `IndexToName` and `ConvertTokens`. The method is proved
  equal to the function `Evaluate`, including the two fields it overwrites.
  Lemmas about `Evaluate` state what the check answers.
- `EditorPrefs` (`editor_prefs.dfy`) models AC's `ACEditorPrefs`. Each getter is a
  function of what `GetOrCreateSettings` returned, or of the build having no
  editor preferences at all. `GetOrCreateSettings` is a method on a small model of
  the asset database: one asset slot and a flag saying whether the Editor folder
  is valid.
- `Wrappers` (`wrappers.dfy`) holds `Option`, which stands for a reference that may
  be null.

AC's `ChooseSceneBy` enum is declared outside the modelled files. The model takes
Number = 0 and Name = 1. This matches `ChooseSceneByPlayerSwitching`, which the
action's editor code casts to and from it. A cast of any other integer is kept as
`SceneChoice.Undefined(code)`, as a C# enum variable keeps it. The subset type `ChooseSceneBy` excludes `Undefined(0)` and `Undefined(1)`, which C# cannot hold.

## Model

| member | source | states |
|---|---|---|
| `PageFlip.PageController.constructor` | Assets/PageController.cs:21-32 | starts on page 0 with the page count equal to the number of pages, keeping the given hotspot flags and sorting orders |
| `PageFlip.PageController.SwipeToNextPage` | Assets/PageController.cs:52-69 | the index goes up by exactly one below the last page and stays put at it; the whole new state is `SwipeNext` of the old one; the class invariant is kept |
| `PageFlip.PageController.SwipeToPreviousPage` | Assets/PageController.cs:72-87 | the index goes down by exactly one above page 0 and stays put at it; the whole new state is `SwipePrevious` of the old one; the class invariant is kept |
| `PageFlip.PageController.SetPagesHotspot` | Assets/PageController.cs:89-104 | after resetting every hotspot and enabling the current and previous page's, the flags are `HotspotsAfter` of the old flags (pages without a hotspot untouched) |
| `PageFlip.PageController.SetHotspotIfNotAbsent` | Assets/PageController.cs:111-130 | sets exactly that page's flag when the page has a hotspot, and changes nothing otherwise |
| `PageFlip.PageController.FocusOnPage` | Assets/PageController.cs:132-153 | the sorting orders become `FocusedOrder` of the old ones around the current page |
| `PageFlip.PageController.SwipePageAnimation` | Assets/PageController.cs:155-163 | records one flip of the given page towards the given x position and nothing else |
| `PageFlip.HotspotsAfter` | Assets/PageController.cs:89-104 | the reference definition of the hotspot rule: one flag per page; a page with a hotspot is on exactly when it is `current` or `current - 1`, one without keeps its flag (pointwise facts in `SwipeHotspots`, count in `ActiveHotspotCount`) |
| `PageFlip.FocusedOrder` | Assets/PageController.cs:132-153 | the reference definition of focusing: one order per page, 2 minus the distance for pages within two of the focus, the old order elsewhere (pointwise facts in `FocusedOrderAt`) |
| `PageFlip.SwipeNext` | Assets/PageController.cs:52-69 | a right swipe keeps the current index inside the pages and the page arrays at their length |
| `PageFlip.SwipePrevious` | Assets/PageController.cs:72-87 | a left swipe keeps the current index inside the pages and the page arrays at their length |
| `PageFlip.SwipeNextIndex` | Assets/PageController.cs:57-63 | a right swipe increments the index by exactly 1 when it is below the last page and leaves it unchanged otherwise |
| `PageFlip.SwipePreviousIndex` | Assets/PageController.cs:76-78 | a left swipe decrements the index by exactly 1 when it is above 0 and leaves it unchanged otherwise |
| `PageFlip.SwipeHotspots` | Assets/PageController.cs:89-104 | after either swipe, also at a boundary, a page with a hotspot is active iff it is the current page or the one before it; pages without one keep their flag |
| `PageFlip.FocusedOrderAt` | Assets/PageController.cs:132-153 | focusing gives the focused page 2, pages one away 1, pages two away 0, and leaves every other page's order |
| `PageFlip.AnimatedPageIsFocused` | Assets/PageController.cs:57-80 | a moving right swipe animates and focuses the page before the increment, a moving left swipe the page after the decrement; a swipe at a boundary changes neither orders nor animations |
| `PageFlip.HotspotsAfterOverrides` | Assets/PageController.cs:89-104 | the hotspot rule overwrites every hotspot page, so applying it twice equals applying the second one alone |
| `PageFlip.FocusedOrderIdempotent` | Assets/PageController.cs:132-153 | focusing the same page twice gives the same orders as once |
| `PageFlip.NextThenPrevious` | Assets/PageController.cs:52-87 | from any page but the last, a right swipe then a left swipe returns to the same page, with that page's hotspots and focus applied and both flips recorded |
| `PageFlip.ActiveHotspotCount` | Assets/PageController.cs:89-104 | after the hotspot rule the number of active hotspots is exactly the number of hotspots on the current page and the page before it |
| `PageFlip.AtMostTwoActiveHotspots` | Assets/PageController.cs:89-104 | after any swipe at most two hotspots are active |
| `SceneCheck.ChooseSceneByFromCode` | Assets/AdventureCreator/Scripts/Actions/ActionSceneCheck.cs:88 | the integer cast gives Number exactly for 0, Name exactly for 1, and an undefined value carrying the code otherwise |
| `SceneCheck.Evaluate` | Assets/AdventureCreator/Scripts/Actions/ActionSceneCheck.cs:60-141 | the runtime player becomes -1 unless a settings manager allows switching; chooseSceneBy is overwritten by the cast of the stored choice only when a player's record is read outside CurrentMain; a true answer outside CurrentMain needs a scene chosen by number or name and no missing previous scene |
| `SceneCheck.NoSwitchingUsesGlobalScene` | Assets/AdventureCreator/Scripts/Actions/ActionSceneCheck.cs:64-105 | with no settings manager or player switching not allowed, the runtime player becomes -1, the global current/previous index is compared and chooseSceneBy is kept |
| `SceneCheck.PreviousSceneMissingIsFalse` | Assets/AdventureCreator/Scripts/Actions/ActionSceneCheck.cs:107-111 | checking the previous scene when its index is -1 answers false whatever the condition and target (outside the CurrentMain shortcut) |
| `SceneCheck.ByNumberConditions` | Assets/AdventureCreator/Scripts/Actions/ActionSceneCheck.cs:115-138 | by number, EqualTo answers `actual == sceneNumber` and NotEqualTo `actual != sceneNumber` |
| `SceneCheck.ByNameConditions` | Assets/AdventureCreator/Scripts/Actions/ActionSceneCheck.cs:113-138 | by name, EqualTo answers `IndexToName(actual) == ConvertTokens(sceneName)` and NotEqualTo the negation |
| `SceneCheck.CurrentMainComparesWithCurrentScene` | Assets/AdventureCreator/Scripts/Actions/ActionSceneCheck.cs:83-87 | with a player record and CurrentMain, the answer is whether the player's saved scene is the current scene, independent of the condition and of the -1 guard, and chooseSceneBy is kept |
| `SceneCheck.PlayerChoiceOverwritesChooseSceneBy` | Assets/AdventureCreator/Scripts/Actions/ActionSceneCheck.cs:83-140 | with a player record and another choice, chooseSceneBy is overwritten by the cast of the stored integer, and a code other than 0 or 1 (such as -1) answers false |
| `SceneCheck.MissingPlayerDataUsesSceneZero` | Assets/AdventureCreator/Scripts/Actions/ActionSceneCheck.cs:62-93 | a player in effect without a saved record makes the check compare scene index 0 and go on as usual |
| `SceneCheck.ConditionsAreExclusive` | Assets/AdventureCreator/Scripts/Actions/ActionSceneCheck.cs:115-138 | EqualTo and NotEqualTo never both answer true, except under CurrentMain where the condition is ignored |
| `SceneCheck.ActionSceneCheck.constructor` | Assets/AdventureCreator/Scripts/Actions/ActionSceneCheck.cs:29-44 | a new action holds the fields' declared initial values |
| `SceneCheck.ActionSceneCheck.CreateNewByName` | Assets/AdventureCreator/Scripts/Actions/ActionSceneCheck.cs:252-259 | a fresh action choosing by name, with the given name and scene to check; every other field holds its declared initial value (parameter IDs -1, player ID -1, runtime player 0, scene number 0, EqualTo, player-switching choice -1) |
| `SceneCheck.ActionSceneCheck.CreateNewByNumber` | Assets/AdventureCreator/Scripts/Actions/ActionSceneCheck.cs:268-275 | a fresh action choosing by number, with the given build index and scene to check; every other field holds its declared initial value (parameter IDs -1, player ID -1, runtime player 0, empty name, EqualTo, player-switching choice -1) |
| `SceneCheck.ActionSceneCheck.AssignValues` | Assets/AdventureCreator/Scripts/Actions/ActionSceneCheck.cs:52-57 | scene number, scene name and runtime player are read from their parameters with the stored values (the player ID for the runtime player) as fallbacks; nothing else changes |
| `SceneCheck.ActionSceneCheck.CheckCondition` | Assets/AdventureCreator/Scripts/Actions/ActionSceneCheck.cs:60-141 | answers `Evaluate` of the old fields, writes only runtimePlayerID and chooseSceneBy as `Evaluate` says, and leaves every other field |
| `EditorPrefs.Clamp` | Assets/AdventureCreator/Scripts/Managers/ACEditorPrefs.cs:159 | the result lies in [min, max], equals the value inside it and the nearer bound outside it |
| `EditorPrefs.HierarchyIconOffset` | Assets/AdventureCreator/Scripts/Managers/ACEditorPrefs.cs:100-120 | the stored offset when a settings object exists, otherwise the default 0 |
| `EditorPrefs.EditorLabelWidth` | Assets/AdventureCreator/Scripts/Managers/ACEditorPrefs.cs:124-144 | the stored label width when a settings object exists, the default 0 without one, and the hierarchy-offset default (also 0) in a build without editor preferences |
| `EditorPrefs.StoredActionNodeWidth` | Assets/AdventureCreator/Scripts/Managers/ACEditorPrefs.cs:152-155 | the width ActionNodeWidth starts from: the stored width when a settings object exists, otherwise 300 |
| `EditorPrefs.ShowHierarchyIcons` | Assets/AdventureCreator/Scripts/Managers/ACEditorPrefs.cs:174-194 | the stored flag when a settings object exists, otherwise true |
| `EditorPrefs.CSVFormatSetting` | Assets/AdventureCreator/Scripts/Managers/ACEditorPrefs.cs:294-314 | the stored format when a settings object exists, Standard without one, Legacy in a build without editor preferences |
| `EditorPrefs.MenuItemsBeforeScroll` | Assets/AdventureCreator/Scripts/Managers/ACEditorPrefs.cs:318-338 | the stored count when a settings object exists, otherwise 15 |
| `EditorPrefs.DisableInstaller` | Assets/AdventureCreator/Scripts/Managers/ACEditorPrefs.cs:342-362 | the stored flag when a settings object exists, otherwise false |
| `EditorPrefs.ActionNodeWidth` | Assets/AdventureCreator/Scripts/Managers/ACEditorPrefs.cs:148-161 | always within [200, 800]; 300 when the stored (or default) width is <= 0; otherwise that width clamped into [200, 800] |
| `EditorPrefs.ActionNodeWidthIsStable` | Assets/AdventureCreator/Scripts/Managers/ACEditorPrefs.cs:152-159 | storing the width that is shown leaves the shown width unchanged |
| `EditorPrefs.GettersReadStoredSettings` | Assets/AdventureCreator/Scripts/Managers/ACEditorPrefs.cs:100-353 | with a settings object the six int, bool and enum getters return their stored field; ActionNodeWidth does so for a stored width in [200, 800] |
| `EditorPrefs.GettersFallBackToDefaults` | Assets/AdventureCreator/Scripts/Managers/ACEditorPrefs.cs:114-362 | with no settings object the getters return 0, 0, true, 15, false, Standard and 300 |
| `EditorPrefs.GettersWithoutEditorPrefs` | Assets/AdventureCreator/Scripts/Managers/ACEditorPrefs.cs:104-351 | in a build without editor preferences the getters return their defaults, except the CSV format, which is Legacy instead of Standard |
| `EditorPrefs.FreshSettingsChangeNoGetter` | Assets/AdventureCreator/Scripts/Managers/ACEditorPrefs.cs:61-72 | a freshly created settings object makes every getter answer what it answers with none |
| `EditorPrefs.EditorAssets.GetOrCreateSettings` | Assets/AdventureCreator/Scripts/Managers/ACEditorPrefs.cs:45-83 | an existing asset is returned and kept unchanged; otherwise the folder is created if needed and a new all-default asset is stored and returned; None exactly when there was no asset and the Editor folder is still invalid |

## Left out

- The DOTween flip animation (positions, durations, completion callbacks) is not modelled. `SwipePageAnimation` only records which page was flipped and the x position it slides to.
- Keyboard polling in `PageController.Update` and all `Debug` logging are not modelled, in any of the three files. The same holds for the warnings `CheckCondition` logs.
- The per-page component lookups become arrays. `GetComponentInChildren<Hotspot>(true)` becomes the fixed `hasHotspot` sequence. `GetComponentInChildren<Canvas>()` is taken to find a canvas on every page; a page without one makes the source throw, and that is not modelled.
- `PageFlip.PageController.SwipeToNextPage`, `SwipeToPreviousPage`: both require at least one page. With no pages the source's `SetHotspotIfNotAbsent(0, true)` indexes past the end of the page array.
- The unused `mDisplayedPages` field and the `TAG` and tween constants are not modelled.
- `CreateNew<ActionSceneCheck>()`, `AssignInteger`, `AssignString`, `KickStarter`, `SaveSystem.GetPlayerData`, `SceneChanger`, `IndexToName` and `AdvGame.ConvertTokens` are not part of this model. The action's constructor stands for the generic creation. The rest are inputs.
- `SceneCheck.ActionSceneCheck.CreateNewByName`, `CreateNewByNumber`: the source's default argument `sceneToCheck = SceneToCheck.Current` is not modelled; callers always pass the scene to check.
- `IntCondition` and `SceneToCheck` hold only their declared values here. In C# an out-of-range `intCondition` makes `CheckCondition` answer false outside the CurrentMain shortcut, which answers before the condition is read, and an out-of-range `sceneToCheck` is treated as Current; neither case is modelled.
- The model starts `sceneName` as the empty string; a newly created C# instance holds null there.
- `ShowGUI` and the `ACEditorPrefsIMGUIRegister` settings page are editor UI and are not modelled. `GetSerializedSettings` only wraps `GetOrCreateSettings` for that UI.
- The four gizmo colour preferences and their defaults are opaque RGBA values and are left out of `Prefs`.
- Asset-database I/O is reduced to one asset slot and an "Editor folder is valid" flag. Whether creating the folder works is a parameter. The asset path and the asset saving are not modelled.
- The getters are functions of what `GetOrCreateSettings` returned. Each source getter calls it, with its side effects; those effects are stated once, on the method.
