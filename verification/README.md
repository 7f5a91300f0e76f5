# FluxOS interaction model

FluxOS is a simulated phone home screen drawn by one React component,
`FluxOS` in `src/pages/Index.tsx`. Apart from its markup, the component is a
small single-threaded state machine:

- a swipe interpreter opens and closes the notification shade;
- a task list lets each task's completion be toggled;
- Flux Hub filters the app catalogue by a search query;
- taps on app icons, close buttons and the dynamic island move between screens and flip the island.

This project models that state machine in Dafny as immutable datatypes and pure
transition functions, and proves its properties.

Modules:

- `Optional`: the optional `screen` field of an app icon.
- `Text`: ASCII lower-casing and substring search, standing in for
  `toLowerCase` and `includes`. `Includes` is a scanning implementation
  proved equal to the `Contains` predicate.
- `Catalogue`: the `Screen` union, the eight-app catalogue, the dock
  (`apps.slice(0, 4)`), and the view `renderScreen` draws for each screen.
  It also records which views have a button back home.
- `Tasks`: the `Task` record, the initial list and `toggleTask`.
- `Search`: `filteredApps`.
- `FluxOS`: the component state, one function per handler, and the
  `Event`/`Step`/`Run` layer. That layer applies user events in dispatch
  order. An event whose control is not on screen leaves the state alone.
  For example, Flux Hub draws no close button, and checkboxes exist only in
  TaskFlow.

The component's state holds the current screen, whether the shade is open,
whether the island is expanded, the tasks, the search query and the
recorded touch-start Y.

The model follows the code as written. Some features one might expect of
such a shell do not exist in `src/pages/Index.tsx`, so none of them is
modelled: a long-press customize mode, device connect/disconnect, adding
tasks, an open-apps list, widgets and confirmation toasts.

## Model

| member | source | states |
|---|---|---|
| Text.LowerChar | src/pages/Index.tsx:75 | the lower-cased character is never an ASCII capital; capitals move to their lower-case partner (32 code points up) and every other character is kept |
| Text.Lower | src/pages/Index.tsx:75 | lower-casing keeps the length and lower-cases every character in place: each ASCII capital becomes its lower-case partner, every other character is kept, and no ASCII capital remains |
| Text.LowerIdempotent | src/pages/Index.tsx:75 | lower-casing an already lower-cased string changes nothing |
| Text.EmptyContained | src/pages/Index.tsx:75 | every string includes the empty string |
| Text.ContainsLength | src/pages/Index.tsx:75 | a string includes itself and includes nothing longer than itself |
| Text.Includes | src/pages/Index.tsx:75 | trying every start position answers true exactly when the needle occurs somewhere in the haystack |
| Catalogue.ScreenNameInjective | src/pages/Index.tsx:10 | the nine screen literals are pairwise distinct, so two screens are equal exactly when their names are |
| Catalogue.CatalogueWellFormed | src/pages/Index.tsx:27-36 | the catalogue has eight apps; each has a screen other than home whose literal equals the app's id; ids are pairwise distinct |
| Catalogue.EveryAppScreenInCatalogue | src/pages/Index.tsx:27-36 | every screen except home belongs to some catalogue app |
| Catalogue.SliceFront | src/pages/Index.tsx:38 | `slice(0, n)` yields the first min(n, length) elements, each equal to the input at the same position |
| Catalogue.DockIsCatalogueHead | src/pages/Index.tsx:38 | the dock has exactly four apps, the first four of the catalogue, and its fourth app opens Settings |
| Catalogue.ViewOf | src/pages/Index.tsx:84-326 | the "coming soon" default is drawn exactly for camera, gallery and phone, titled with that screen; the home grid is drawn exactly for home |
| Catalogue.ViewOfInjective | src/pages/Index.tsx:84-326 | no two screens draw the same view |
| Catalogue.HomeButtonScreens | src/pages/Index.tsx:149-325 | a view has no close or "Back to Home" button exactly when the screen is home or Flux Hub |
| Tasks.ToggleTask | src/pages/Index.tsx:70-72 | toggling keeps the length and every task's id, text and priority in place, and flips `completed` exactly for tasks whose id matches |
| Tasks.ToggleFrame | src/pages/Index.tsx:71 | a task with another id is returned unchanged; a matching task differs only in its negated `completed` |
| Tasks.ToggleAbsentIsNoOp | src/pages/Index.tsx:71 | toggling an id no task carries returns the list unchanged |
| Tasks.ToggleTwice | src/pages/Index.tsx:71 | toggling the same id twice returns the original list |
| Tasks.ToggleCommutes | src/pages/Index.tsx:71 | toggles of two ids may be applied in either order |
| Tasks.ToggleKeepsIds | src/pages/Index.tsx:71 | the id sequence is the same after a toggle |
| Search.FilteredApps | src/pages/Index.tsx:74-76 | the result is no longer than the catalogue, and an app is in it exactly when it is in the catalogue and its lower-cased name contains the lower-cased query |
| Search.FilteredCounts | src/pages/Index.tsx:74-76 | a matching app occurs in the result exactly as often as in the input, and a non-matching one never |
| Search.FilteredIsSubsequence | src/pages/Index.tsx:74-76 | the kept apps appear in catalogue order (the result is a subsequence of the input) |
| Search.DroppedIffNoMatch | src/pages/Index.tsx:74-76 | an app is dropped exactly when its lower-cased name does not contain the lower-cased query |
| Search.KeptNameNotShorter | src/pages/Index.tsx:74-76 | an app whose name is shorter than the query is never kept |
| Search.EmptyQueryKeepsAll | src/pages/Index.tsx:74-76 | the empty query keeps the whole catalogue, in order |
| Search.QueryCaseInsensitive | src/pages/Index.tsx:74-76 | lower-casing the query before filtering gives the same result |
| Search.NarrowingQuery | src/pages/Index.tsx:74-76 | extending the query can only drop apps: the result for the longer query is a subsequence of the result for the shorter one |
| FluxOS.Init | src/pages/Index.tsx:41-53 | the component starts on home with the shade closed, the island collapsed, touch-start 0, an empty query, and three tasks (ids 1, 2, 3) of which only the first is completed |
| FluxOS.HandleTouchStart | src/pages/Index.tsx:55-57 | touch start records the Y coordinate and changes nothing else |
| FluxOS.HandleTouchEnd | src/pages/Index.tsx:59-68 | the shade is open afterwards exactly when the drag went more than 100 px down from a start at Y < 100 (within 100 px of the top), or the shade was open and the drag did not go more than 100 up; nothing else changes |
| FluxOS.SwipeDownFromTopOpens | src/pages/Index.tsx:63-64 | a drag of more than 100 px down that starts at Y < 100 (within 100 px of the top) opens the shade, whatever its prior state |
| FluxOS.SwipeDownBelowTopIgnored | src/pages/Index.tsx:63-67 | a downward swipe starting at Y >= 100 never changes the state |
| FluxOS.SwipeUpCloses | src/pages/Index.tsx:65-66 | a drag of more than 100 up leaves the shade closed: an open shade closes and a closed one never opens |
| FluxOS.ShortDragIgnored | src/pages/Index.tsx:63-67 | a drag of at most 100 either way changes nothing, and the open and close guards never both hold |
| FluxOS.TapApp | src/pages/Index.tsx:93 | tapping an app with a screen switches to that screen and changes nothing else; an app without one is ignored |
| FluxOS.GoHome | src/pages/Index.tsx:154 | a close button sets the screen to home and changes nothing else |
| FluxOS.TapIsland | src/pages/Index.tsx:343 | a tap on the island negates `dynamicIslandExpanded` and changes nothing else |
| FluxOS.IslandTwice | src/pages/Index.tsx:343 | two taps on the island restore the state |
| FluxOS.ToggleTaskIn | src/pages/Index.tsx:174 | a checkbox tap keeps the task count and every task's id, text and priority in place, flips completion exactly for the tasks with that id, and leaves all other state alone |
| FluxOS.SetSearchQuery | src/pages/Index.tsx:112-114 | typing in the search box replaces the query and changes nothing else |
| FluxOS.ClearedSearchShowsAll | src/pages/Index.tsx:112-114 | after the query is set, Flux Hub shows exactly the catalogue apps matching it; an empty query shows the whole catalogue in order |
| FluxOS.Step | src/pages/Index.tsx:329-431 | an event from a control not on screen changes nothing; only touch end moves the shade, only a checkbox changes tasks, only the island toggles the island, only the search box changes the query, only touch start moves the recorded Y, only icon taps and home buttons change the screen; each available event does what its handler does: a home button leads home, an island tap flips the island, a checkbox tap toggles that task, a search edit sets the query, touch start records its Y and touch end applies the swipe rule |
| FluxOS.SwipeGesture | src/pages/Index.tsx:335-336 | after a touch start at one Y and a touch end at another, the shade is open exactly when the swipe opened it, or it was open and the swipe did not close it |
| FluxOS.TapIconOpensApp | src/pages/Index.tsx:133-136 | tapping an icon on the home grid, in Flux Hub's filtered list or in the dock always leaves home, for that icon's own screen |
| FluxOS.PathHome | src/pages/Index.tsx:419-431 | from every state, home is at most two events away (from Flux Hub: the dock's Settings icon, then its close button) |
| FluxOS.TaskTapTwice | src/pages/Index.tsx:173-174 | tapping the same task's checkbox twice restores the whole state, in every state (where no such checkbox is drawn, neither tap does anything) |
| FluxOS.RunKeepsTaskShape | src/pages/Index.tsx:70-72 | no series of events adds, removes, reorders or edits tasks: the count, the ids in order, and each text and priority are kept |
| FluxOS.ShadeOpensOnlyBySwipe | src/pages/Index.tsx:59-68 | if a run of events takes the shade from closed to open, one of the events is a touch end that completes a swipe of more than 100 px down from a start at Y < 100 (within 100 px of the top) |
| FluxOS.ShadeClosesOnlyBySwipe | src/pages/Index.tsx:59-68 | if a run of events takes the shade from open to closed, one of the events is a touch end that completes a swipe of more than 100 up |

## Left out

- Rendering is not modelled: the JSX, the CSS class choices (`cn`, `priorityColors`) and the UI library components are presentation.
- Wi-Fi and Bluetooth switches are not modelled. They are plain boolean assignments with no logic.
- Drag state (`draggedTask`) is not modelled. It only changes opacity and never reorders tasks.
- The FluxConnect device list and the Multitask card list are not modelled. They are constant arrays with no state, and their Mirror, Transfer and close buttons have no handlers.
- Long-press customize mode, device connect/disconnect, adding tasks, an open-apps list, widgets and toasts are not modelled because `Index.tsx` does not have them.
- Text.LowerChar: lower-cases ASCII letters only, whereas `toLowerCase` applies full Unicode case mapping. The catalogue names are ASCII, but the query is user text: a query holding a non-ASCII character whose lower case is ASCII (the Kelvin sign U+212A lower-cases to "k") filters differently in the model than in the component.
- FluxOS.HandleTouchEnd: coordinates are integers, whereas `clientY` is a floating-point number of pixels; the comparisons are the same.
- Multi-touch is not modelled. The handlers read only the first touch (`touches[0]`, `changedTouches[0]`), and an event is one Y value.
- React's render cycle is not modelled. Each handler here sees the state left by the previous event; stale closures and batching are out of scope.
- Hit-testing and overlap are not modelled. The open shade and the dock overlay the screen content; `Available` tracks only which controls are drawn, not which are covered.
