/**
 * The `FluxOS` component as a state machine. Each event handler is a pure
 * function from the current state (and the event's data) to the next
 * state; `Step` dispatches one user event, and `Run` applies a series of
 * events in the order they were dispatched.
 */
module FluxOS {
  import opened Optional
  import opened Catalogue
  import opened Tasks
  import opened Search

  /** The component's state: its `useState` cells and the `touchStartY` ref. */
  datatype State = State(
    screen: Screen,
    notificationOpen: bool,
    islandExpanded: bool,
    tasks: seq<Task>,
    searchQuery: string,
    touchStartY: int)

  /** A drag must travel more than this many pixels to count as a swipe. */
  const SwipeDistance: int := 100
  /** A downward swipe opens the shade only if it starts above this many pixels from the top. */
  const TopEdge: int := 100

  /** The state when the component is first mounted. */
  function Init(): (s: State)
    ensures s.screen == Home
    ensures !s.notificationOpen && !s.islandExpanded
    ensures s.touchStartY == 0
    ensures s.searchQuery == ""
    ensures |s.tasks| == 3 && Ids(s.tasks) == ["1", "2", "3"]
    ensures s.tasks[0].completed && !s.tasks[1].completed && !s.tasks[2].completed
  {
    State(Home, false, false, InitialTasks(), "", 0)
  }

  /** A drag from `start` to `end` that opens the shade. */
  predicate OpensShade(start: int, end: int) {
    end - start > SwipeDistance && start < TopEdge
  }

  /** A drag from `start` to `end` that moves upwards far enough to close the shade. */
  predicate IsUpSwipe(start: int, end: int) {
    end - start < -SwipeDistance
  }

  /** `handleTouchStart`: remembers where the touch began and changes nothing else. */
  function HandleTouchStart(s: State, y: int): (r: State)
    ensures r.touchStartY == y
    ensures r.(touchStartY := s.touchStartY) == s
  {
    s.(touchStartY := y)
  }

  /**
   * `handleTouchEnd`: one threshold decision. The shade is open afterwards
   * exactly when the drag opened it, or it was open and the drag was not a
   * long enough upward swipe. Nothing else changes.
   */
  function HandleTouchEnd(s: State, endY: int): (r: State)
    ensures r.notificationOpen <==>
      OpensShade(s.touchStartY, endY) || (s.notificationOpen && !IsUpSwipe(s.touchStartY, endY))
    ensures r.(notificationOpen := s.notificationOpen) == s
  {
    var diff := endY - s.touchStartY;
    if diff > SwipeDistance && s.touchStartY < TopEdge then s.(notificationOpen := true)
    else if diff < -SwipeDistance && s.notificationOpen then s.(notificationOpen := false)
    else s
  }

  /** A swipe from the top edge opens the shade whatever its prior state. */
  lemma SwipeDownFromTopOpens(s: State, endY: int)
    requires endY - s.touchStartY > 100 && s.touchStartY < 100
    ensures HandleTouchEnd(s, endY).notificationOpen
  {
  }

  /** A downward swipe that starts 100 pixels or more below the top never changes the shade. */
  lemma SwipeDownBelowTopIgnored(s: State, endY: int)
    requires endY - s.touchStartY > 100 && s.touchStartY >= 100
    ensures HandleTouchEnd(s, endY) == s
  {
  }

  /** An upward swipe leaves the shade closed: it closes an open shade and never opens a closed one. */
  lemma SwipeUpCloses(s: State, endY: int)
    requires endY - s.touchStartY < -100
    ensures !HandleTouchEnd(s, endY).notificationOpen
  {
  }

  /** A drag of at most 100 pixels either way changes nothing; the two branches never both apply. */
  lemma ShortDragIgnored(s: State, endY: int)
    ensures -100 <= endY - s.touchStartY <= 100 ==> HandleTouchEnd(s, endY) == s
    ensures !(OpensShade(s.touchStartY, endY) && IsUpSwipe(s.touchStartY, endY))
  {
  }

  /** `app.screen && setCurrentScreen(app.screen)`: open the app's screen if it has one. */
  function TapApp(s: State, app: AppIcon): (r: State)
    ensures app.screen.Some? ==> r == s.(screen := app.screen.value)
    ensures app.screen.None? ==> r == s
  {
    match app.screen
    case Some(target) => s.(screen := target)
    case None => s
  }

  /** The "X" and "Back to Home" buttons: `setCurrentScreen('home')`. */
  function GoHome(s: State): (r: State)
    ensures r.screen == Home
    ensures r.(screen := s.screen) == s
  {
    s.(screen := Home)
  }

  /** The dynamic island: `setDynamicIslandExpanded(!dynamicIslandExpanded)`. */
  function TapIsland(s: State): (r: State)
    ensures r.islandExpanded != s.islandExpanded
    ensures r.(islandExpanded := s.islandExpanded) == s
  {
    s.(islandExpanded := !s.islandExpanded)
  }

  /** Two taps on the island restore it. */
  lemma IslandTwice(s: State)
    ensures TapIsland(TapIsland(s)) == s
  {
  }

  /** A tap on a task's checkbox. */
  function ToggleTaskIn(s: State, id: string): (r: State)
    ensures |r.tasks| == |s.tasks|
    ensures forall i :: 0 <= i < |s.tasks| ==>
      && r.tasks[i].id == s.tasks[i].id
      && r.tasks[i].text == s.tasks[i].text
      && r.tasks[i].priority == s.tasks[i].priority
    ensures forall i :: 0 <= i < |s.tasks| ==>
      (r.tasks[i].completed != s.tasks[i].completed <==> s.tasks[i].id == id)
    ensures r.(tasks := s.tasks) == s
  {
    s.(tasks := ToggleTask(s.tasks, id))
  }

  /** The search box's `onChange`. */
  function SetSearchQuery(s: State, q: string): (r: State)
    ensures r.searchQuery == q
    ensures r.(searchQuery := s.searchQuery) == s
  {
    s.(searchQuery := q)
  }

  /** The icons Flux Hub shows for the current query. */
  function HubApps(s: State): seq<AppIcon> {
    FilteredApps(Apps(), s.searchQuery)
  }

  /** Clearing the search box brings back the whole catalogue; any query shows only matching apps. */
  lemma ClearedSearchShowsAll(s: State, q: string)
    ensures HubApps(SetSearchQuery(s, "")) == Apps()
    ensures forall a :: a in HubApps(SetSearchQuery(s, q)) <==> a in Apps() && Matches(a, q)
  {
    EmptyQueryKeepsAll(Apps());
  }

  /** A user event, identified by the control it comes from. */
  datatype Event =
    | StartTouch(startY: int)
    | EndTouch(endY: int)
    | TapHomeIcon(homeIndex: int)
    | TapHubIcon(hubIndex: int)
    | TapDockIcon(dockIndex: int)
    | PressHome
    | PressIsland
    | PressTask(taskId: string)
    | EditSearch(query: string)

  /**
   * Whether the control an event comes from is on screen: the home grid
   * only on the home screen, Flux Hub's icons and search box only there,
   * task checkboxes only in TaskFlow and only for listed tasks, and the
   * close or back button only in views that draw one. The phone frame,
   * the island and the dock are always shown.
   */
  predicate Available(s: State, e: Event) {
    match e
    case StartTouch(_) => true
    case EndTouch(_) => true
    case TapHomeIcon(i) => s.screen == Home && 0 <= i < |Apps()|
    case TapHubIcon(i) => s.screen == FluxHub && 0 <= i < |HubApps(s)|
    case TapDockIcon(i) => 0 <= i < |DockApps()|
    case PressHome => HasHomeButton(ViewOf(s.screen))
    case PressIsland => true
    case PressTask(id) => s.screen == TaskFlow && id in Ids(s.tasks)
    case EditSearch(_) => s.screen == FluxHub
  }

  /**
   * Dispatches one event; an event from a control that is not on screen
   * cannot happen and leaves the state alone. Only touch end moves the
   * shade, only a task checkbox changes tasks, only the island toggles the
   * island, and only the search box changes the query.
   */
  function Step(s: State, e: Event): (r: State)
    ensures !Available(s, e) ==> r == s
    ensures !e.EndTouch? ==> r.notificationOpen == s.notificationOpen
    ensures !e.PressTask? ==> r.tasks == s.tasks
    ensures !e.PressIsland? ==> r.islandExpanded == s.islandExpanded
    ensures !e.EditSearch? ==> r.searchQuery == s.searchQuery
    ensures !e.StartTouch? ==> r.touchStartY == s.touchStartY
    ensures !(e.TapHomeIcon? || e.TapHubIcon? || e.TapDockIcon? || e.PressHome?) ==> r.screen == s.screen
    ensures Available(s, e) && e.PressHome? ==> r.screen == Home
    ensures Available(s, e) && e.PressIsland? ==> r.islandExpanded != s.islandExpanded
    ensures Available(s, e) && e.PressTask? ==> r.tasks == ToggleTask(s.tasks, e.taskId)
    ensures Available(s, e) && e.EditSearch? ==> r.searchQuery == e.query
    ensures e.StartTouch? ==> r.touchStartY == e.startY
    ensures e.EndTouch? ==> (r.notificationOpen <==>
      OpensShade(s.touchStartY, e.endY) || (s.notificationOpen && !IsUpSwipe(s.touchStartY, e.endY)))
  {
    if !Available(s, e) then s
    else
      match e
      case StartTouch(y) => HandleTouchStart(s, y)
      case EndTouch(y) => HandleTouchEnd(s, y)
      case TapHomeIcon(i) => TapApp(s, Apps()[i])
      case TapHubIcon(i) => TapApp(s, HubApps(s)[i])
      case TapDockIcon(i) => TapApp(s, DockApps()[i])
      case PressHome => GoHome(s)
      case PressIsland => TapIsland(s)
      case PressTask(id) => ToggleTaskIn(s, id)
      case EditSearch(q) => SetSearchQuery(s, q)
  }

  /** The state after a series of events, applied in dispatch order. */
  function Run(s: State, evs: seq<Event>): State
    decreases |evs|
  {
    if evs == [] then s else Step(Run(s, evs[..|evs| - 1]), evs[|evs| - 1])
  }

  /** A swipe is a touch start followed by a touch end. */
  lemma SwipeGesture(s: State, startY: int, endY: int)
    ensures Run(s, [StartTouch(startY), EndTouch(endY)]).notificationOpen <==>
      OpensShade(startY, endY) || (s.notificationOpen && !IsUpSwipe(startY, endY))
  {
    var evs := [StartTouch(startY), EndTouch(endY)];
    assert evs[..1][..0] == [];
    assert Run(s, evs[..1]) == HandleTouchStart(s, startY);
    assert Run(s, evs) == HandleTouchEnd(HandleTouchStart(s, startY), endY);
  }

  /** Every app icon, wherever it is tapped, leads away from home to the app's own screen. */
  lemma TapIconOpensApp(s: State, e: Event)
    requires e.TapHomeIcon? || e.TapHubIcon? || e.TapDockIcon?
    requires Available(s, e)
    ensures Step(s, e).screen != Home
    ensures e.TapHubIcon? ==> Some(Step(s, e).screen) == HubApps(s)[e.hubIndex].screen
    ensures e.TapDockIcon? ==> Some(Step(s, e).screen) == Apps()[e.dockIndex].screen
    ensures e.TapHomeIcon? ==> Some(Step(s, e).screen) == Apps()[e.homeIndex].screen
  {
    CatalogueWellFormed();
    DockIsCatalogueHead();
    if e.TapHubIcon? {
      var app := HubApps(s)[e.hubIndex];
      assert app in Apps();
    }
  }

  /**
   * Home is never more than two events away: one close button from every
   * screen that has one, and from Flux Hub the Settings icon of the dock
   * followed by its close button.
   */
  function PathHome(s: State): (evs: seq<Event>)
    ensures |evs| <= 2
    ensures Run(s, evs).screen == Home
  {
    if s.screen == Home then []
    else if s.screen == FluxHub then [TapDockIcon(3), PressHome]
    else [PressHome]
  }

  /**
   * Two taps on the same task's checkbox restore the whole state (off the
   * TaskFlow screen, or for an unlisted id, neither tap reaches a checkbox).
   */
  lemma TaskTapTwice(s: State, id: string)
    ensures Run(s, [PressTask(id), PressTask(id)]) == s
  {
    var evs := [PressTask(id), PressTask(id)];
    assert evs[..1][..0] == [] && evs[..1][0] == PressTask(id);
    assert Run(s, evs[..1][..0]) == s;
    var s1 := Run(s, evs[..1]);
    assert s1 == Step(s, PressTask(id));
    assert Run(s, evs) == Step(s1, PressTask(id));
    if Available(s, PressTask(id)) {
      assert s1 == ToggleTaskIn(s, id);
      ToggleKeepsIds(s.tasks, id);
      ToggleTwice(s.tasks, id);
    }
  }

  /** A run of events never adds, removes, reorders or edits tasks; only completion flags move. */
  lemma {:induction false} RunKeepsTaskShape(s: State, evs: seq<Event>)
    ensures |Run(s, evs).tasks| == |s.tasks|
    ensures Ids(Run(s, evs).tasks) == Ids(s.tasks)
    ensures forall i :: 0 <= i < |s.tasks| ==>
      Run(s, evs).tasks[i].text == s.tasks[i].text && Run(s, evs).tasks[i].priority == s.tasks[i].priority
    decreases |evs|
  {
    if evs != [] {
      var p := Run(s, evs[..|evs| - 1]);
      RunKeepsTaskShape(s, evs[..|evs| - 1]);
      ToggleKeepsIds(p.tasks, if evs[|evs| - 1].PressTask? then evs[|evs| - 1].taskId else "");
    }
  }

  /**
   * The shade can only go from closed to open through a touch end that
   * completes a downward swipe from the top edge.
   */
  lemma {:induction false} ShadeOpensOnlyBySwipe(s: State, evs: seq<Event>)
    requires !s.notificationOpen && Run(s, evs).notificationOpen
    ensures exists k :: (0 <= k < |evs| && evs[k].EndTouch? &&
                         OpensShade(Run(s, evs[..k]).touchStartY, evs[k].endY))
    decreases |evs|
  {
    var n := |evs| - 1;
    var pre := evs[..n];
    var p := Run(s, pre);
    if p.notificationOpen {
      ShadeOpensOnlyBySwipe(s, pre);
      var k :| 0 <= k < |pre| && pre[k].EndTouch? && OpensShade(Run(s, pre[..k]).touchStartY, pre[k].endY);
      assert pre[..k] == evs[..k];
    } else {
      assert evs[n].EndTouch? && OpensShade(p.touchStartY, evs[n].endY);
    }
  }

  /** Symmetrically, the shade can only close through a touch end that completes an upward swipe. */
  lemma {:induction false} ShadeClosesOnlyBySwipe(s: State, evs: seq<Event>)
    requires s.notificationOpen && !Run(s, evs).notificationOpen
    ensures exists k :: (0 <= k < |evs| && evs[k].EndTouch? &&
                         IsUpSwipe(Run(s, evs[..k]).touchStartY, evs[k].endY))
    decreases |evs|
  {
    var n := |evs| - 1;
    var pre := evs[..n];
    var p := Run(s, pre);
    if !p.notificationOpen {
      ShadeClosesOnlyBySwipe(s, pre);
      var k :| 0 <= k < |pre| && pre[k].EndTouch? && IsUpSwipe(Run(s, pre[..k]).touchStartY, pre[k].endY);
      assert pre[..k] == evs[..k];
    } else {
      assert evs[n].EndTouch? && IsUpSwipe(p.touchStartY, evs[n].endY);
    }
  }
}
