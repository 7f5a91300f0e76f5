/**
 * The static part of FluxOS: the screens the router knows, the app
 * catalogue shown on the home grid and in Flux Hub, the dock, and the
 * view each screen renders.
 */
module Catalogue {
  import opened Optional

  /** The `Screen` union of string literals. */
  datatype Screen =
    | Home | FluxHub | TaskFlow | FluxConnect | Multitask
    | Settings | Camera | Gallery | Phone

  /** The string literal that names each screen in the `Screen` union. */
  function ScreenName(s: Screen): string {
    match s
    case Home => "home"
    case FluxHub => "fluxhub"
    case TaskFlow => "taskflow"
    case FluxConnect => "fluxconnect"
    case Multitask => "multitask"
    case Settings => "settings"
    case Camera => "camera"
    case Gallery => "gallery"
    case Phone => "phone"
  }

  /** Distinct screens have distinct names, so the literal union and the datatype agree. */
  lemma ScreenNameInjective(a: Screen, b: Screen)
    ensures ScreenName(a) == ScreenName(b) <==> a == b
  {
  }

  /** One icon of the catalogue; `icon` and `color` are presentation tags. */
  datatype AppIcon = AppIcon(id: string, name: string, icon: string, color: string, screen: Option<Screen>)

  /** The catalogue, in display order. */
  function Apps(): seq<AppIcon> {
    [ AppIcon("phone", "Phone", "Phone", "bg-green-500", Some(Phone)),
      AppIcon("camera", "Camera", "Camera", "bg-gray-700", Some(Camera)),
      AppIcon("gallery", "Gallery", "Image", "bg-purple-500", Some(Gallery)),
      AppIcon("settings", "Settings", "Settings", "bg-gray-600", Some(Settings)),
      AppIcon("fluxhub", "Flux Hub", "Grid3x3", "bg-indigo-500", Some(FluxHub)),
      AppIcon("taskflow", "TaskFlow", "CheckSquare", "bg-blue-500", Some(TaskFlow)),
      AppIcon("fluxconnect", "FluxConnect", "Laptop", "bg-cyan-500", Some(FluxConnect)),
      AppIcon("multitask", "Multitask", "Square", "bg-orange-500", Some(Multitask)) ]
  }

  /**
   * `Array.prototype.slice(0, n)` for n >= 0: the first `n` elements, or
   * the whole array when it is shorter than `n`.
   */
  function SliceFront<T>(s: seq<T>, n: nat): (r: seq<T>)
    ensures |r| == if n <= |s| then n else |s|
    ensures forall i :: 0 <= i < |r| ==> r[i] == s[i]
  {
    if n <= |s| then s[..n] else s
  }

  /** The dock: `apps.slice(0, 4)`. */
  function DockApps(): seq<AppIcon> {
    SliceFront(Apps(), 4)
  }

  /** The dock is exactly the first four catalogue entries: Phone, Camera, Gallery and Settings. */
  lemma DockIsCatalogueHead()
    ensures |DockApps()| == 4
    ensures DockApps() == Apps()[..4]
    ensures forall i :: 0 <= i < 4 ==> DockApps()[i] == Apps()[i]
    ensures DockApps()[3].screen == Some(Settings)
  {
  }

  /**
   * Every catalogue entry has a screen, that screen is never `Home`, and
   * its id is the literal name of that screen. Ids are pairwise distinct.
   */
  lemma CatalogueWellFormed()
    ensures |Apps()| == 8
    ensures forall i :: 0 <= i < |Apps()| ==> Apps()[i].screen.Some?
    ensures forall i :: 0 <= i < |Apps()| ==> Apps()[i].screen != Some(Home)
    ensures forall i :: 0 <= i < |Apps()| ==> ScreenName(Apps()[i].screen.value) == Apps()[i].id
    ensures forall i, j :: 0 <= i < j < |Apps()| ==> Apps()[i].id != Apps()[j].id
  {
  }

  /** Every screen other than `Home` is the screen of some catalogue entry. */
  lemma EveryAppScreenInCatalogue(s: Screen)
    requires s != Home
    ensures exists i :: 0 <= i < |Apps()| && Apps()[i].screen == Some(s)
  {
    var a := Apps();
    match s
    case FluxHub => assert a[4].screen == Some(s);
    case TaskFlow => assert a[5].screen == Some(s);
    case FluxConnect => assert a[6].screen == Some(s);
    case Multitask => assert a[7].screen == Some(s);
    case Settings => assert a[3].screen == Some(s);
    case Camera => assert a[1].screen == Some(s);
    case Gallery => assert a[2].screen == Some(s);
    case Phone => assert a[0].screen == Some(s);
  }

  /** What `renderScreen` draws for the current screen. */
  datatype View =
    | HomeGrid
    | AppCatalogue
    | TaskList
    | DeviceList
    | MultitaskList
    | SettingsPanel
    | ComingSoon(title: Screen)

  /** The `switch (currentScreen)` of the router; unknown screens fall to the "coming soon" default. */
  function ViewOf(s: Screen): (v: View)
    ensures v.ComingSoon? <==> s in {Camera, Gallery, Phone}
    ensures v.ComingSoon? ==> v.title == s
    ensures v == HomeGrid <==> s == Home
  {
    match s
    case Home => HomeGrid
    case FluxHub => AppCatalogue
    case TaskFlow => TaskList
    case FluxConnect => DeviceList
    case Multitask => MultitaskList
    case Settings => SettingsPanel
    case _ => ComingSoon(s)
  }

  /** Distinct screens draw distinct views. */
  lemma ViewOfInjective(a: Screen, b: Screen)
    ensures ViewOf(a) == ViewOf(b) ==> a == b
  {
  }

  /**
   * Whether the view shows a button that returns home: the "X" of the
   * task, device, multitask and settings views and the "Back to Home" of
   * the default view. The home grid and Flux Hub have none.
   */
  predicate HasHomeButton(v: View) {
    match v
    case HomeGrid => false
    case AppCatalogue => false
    case _ => true
  }

  /** Exactly Home and Flux Hub lack a way home from the screen itself. */
  lemma HomeButtonScreens(s: Screen)
    ensures !HasHomeButton(ViewOf(s)) <==> s == Home || s == FluxHub
  {
  }
}
