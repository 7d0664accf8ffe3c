/** The page-level navigation of src/pages/Index.tsx: six state fields, the
    handlers that update them, and the choice of screen, header and modal. */
module IndexPage {
  import opened Common

  datatype AuthType = Login | Signup

  datatype AppView = Landing | Dashboard | RouteSelection | BusOptions | BusMap

  datatype RouteData = RouteData(from: string, to: string)

  /** The six state fields of the page, taken together. */
  datatype AppState = AppState(
    currentView: AppView,
    showAuthModal: Option<AuthType>,
    isAuthenticated: bool,
    selectedBusType: BusType,
    routeData: RouteData,
    selectedBusId: string)

  /** The state of a freshly mounted page. */
  const Initial: AppState := AppState(Landing, None, false, Local, RouteData("", ""), "")

  /** One call of a handler; CloseAuthModal is the modal's inline onClose. */
  datatype Event =
    | AuthClick(authType: AuthType)
    | CloseAuthModal
    | AuthSuccess
    | Logout
    | LogoClick
    | BusTypeSelect(busType: BusType)
    | RouteNext(from: string, to: string)
    | BusSelect(busId: string)
    | BackToDashboard
    | BackToRouteSelection
    | BackToBusOptions

  /** What each handler does to the state. */
  function Step(s: AppState, e: Event): AppState {
    match e
    case AuthClick(t) => s.(showAuthModal := Some(t))
    case CloseAuthModal => s.(showAuthModal := None)
    case AuthSuccess => s.(isAuthenticated := true, showAuthModal := None, currentView := Dashboard)
    case Logout => s.(isAuthenticated := false, currentView := Landing)
    case LogoClick => if s.isAuthenticated then s.(currentView := Dashboard) else s
    case BusTypeSelect(t) => s.(selectedBusType := t, currentView := RouteSelection)
    case RouteNext(from, to) => s.(routeData := RouteData(from, to), currentView := BusOptions)
    case BusSelect(id) => s.(selectedBusId := id, currentView := BusMap)
    case BackToDashboard => s.(currentView := Dashboard)
    case BackToRouteSelection => s.(currentView := RouteSelection)
    case BackToBusOptions => s.(currentView := BusOptions)
  }

  /** The screen renderCurrentView shows, with the props it hands over. */
  datatype Screen =
    | LandingScreen
    | DashboardScreen
    | RouteSelectionScreen(busType: BusType)
    | BusOptionsScreen(from: string, to: string)
    | BusMapScreen(busId: string, from: string, to: string)

  function CurrentScreen(s: AppState): Screen {
    match s.currentView
    case Landing => LandingScreen
    case Dashboard => DashboardScreen
    case RouteSelection => RouteSelectionScreen(s.selectedBusType)
    case BusOptions => BusOptionsScreen(s.routeData.from, s.routeData.to)
    case BusMap => BusMapScreen(s.selectedBusId, s.routeData.from, s.routeData.to)
  }

  /** The header is rendered on every view except the live map. */
  predicate ShowsHeader(s: AppState) {
    s.currentView != BusMap
  }

  /** The authentication modal is rendered whenever a modal type is set:
      `showAuthModal && <AuthModal …/>`, with `null` as the unset type. */
  predicate ShowsModal(s: AppState) {
    s.showAuthModal.Some?
  }

  /** The header disappears exactly on the live-map screen; the modal is
      rendered exactly when a modal type is set. */
  lemma HeaderAndModalVisibility(s: AppState)
    ensures ShowsHeader(s) <==> !CurrentScreen(s).BusMapScreen?
    ensures ShowsModal(s) <==> s.showAuthModal != None
  {
  }

  /** Whether the rendered page offers a way to call the handler: the header
      offers Login/Sign Up when signed out and Logout when signed in; each
      screen offers the callbacks renderCurrentView passes it; the modal offers
      close and success; the route form submits only two non-empty names.
      The header never receives the logo handler. */
  predicate Enabled(s: AppState, e: Event) {
    match e
    case AuthClick(_) => (ShowsHeader(s) && !s.isAuthenticated) || s.currentView == Landing
    case CloseAuthModal => ShowsModal(s)
    case AuthSuccess => ShowsModal(s)
    case Logout => ShowsHeader(s) && s.isAuthenticated
    case LogoClick => false
    case BusTypeSelect(_) => s.currentView == Dashboard
    case RouteNext(from, to) => s.currentView == RouteSelection && from != "" && to != ""
    case BusSelect(_) => s.currentView == BusOptions
    case BackToDashboard => s.currentView == RouteSelection
    case BackToRouteSelection => s.currentView == BusOptions
    case BackToBusOptions => s.currentView == BusMap
  }

  /** The state after a sequence of handler calls. */
  function Run(s: AppState, events: seq<Event>): AppState
    decreases |events|
  {
    if events == [] then s else Run(Step(s, events[0]), events[1..])
  }

  /** Every call in the sequence is offered by the page at the time it is made. */
  predicate EnabledRun(s: AppState, events: seq<Event>)
    decreases |events|
  {
    events == [] || (Enabled(s, events[0]) && EnabledRun(Step(s, events[0]), events[1..]))
  }

  /** The page is signed in exactly when it is off the landing view, and the
      bus list and the map always have a non-empty origin and destination. */
  ghost predicate Consistent(s: AppState) {
    && (s.isAuthenticated <==> s.currentView != Landing)
    && (s.currentView in {BusOptions, BusMap} ==> s.routeData.from != "" && s.routeData.to != "")
  }

  lemma InitialConsistent()
    ensures Consistent(Initial)
  {
  }

  /** Every handler the page offers keeps the state consistent. */
  lemma StepPreservesConsistent(s: AppState, e: Event)
    requires Consistent(s) && Enabled(s, e)
    ensures Consistent(Step(s, e))
  {
  }

  /** Whatever the user does through the page, the state stays consistent. */
  lemma {:induction false} RunPreservesConsistent(s: AppState, events: seq<Event>)
    requires Consistent(s) && EnabledRun(s, events)
    ensures Consistent(Run(s, events))
    decreases |events|
  {
    if events != [] {
      StepPreservesConsistent(s, events[0]);
      RunPreservesConsistent(Step(s, events[0]), events[1..]);
    }
  }

  /** From a fresh page, every reachable state is consistent: in particular the
      landing view is shown exactly when the user is signed out. */
  lemma ReachableStatesConsistent(events: seq<Event>)
    requires EnabledRun(Initial, events)
    ensures Run(Initial, events).isAuthenticated <==> Run(Initial, events).currentView != Landing
    ensures CurrentScreen(Run(Initial, events)).BusOptionsScreen? ==>
              CurrentScreen(Run(Initial, events)).from != "" && CurrentScreen(Run(Initial, events)).to != ""
  {
    InitialConsistent();
    RunPreservesConsistent(Initial, events);
  }

  /** Auth success from any state: signed in, modal closed, on the dashboard. */
  lemma AuthSuccessFromAnywhere(s: AppState)
    ensures Step(s, AuthSuccess).isAuthenticated
    ensures Step(s, AuthSuccess).showAuthModal == None && !ShowsModal(Step(s, AuthSuccess))
    ensures CurrentScreen(Step(s, AuthSuccess)) == DashboardScreen
  {
  }

  /** Logout signs out and returns to landing, keeping the selections and the modal field. */
  lemma LogoutKeepsSelections(s: AppState)
    ensures !Step(s, Logout).isAuthenticated && Step(s, Logout).currentView == Landing
    ensures Step(s, Logout).selectedBusType == s.selectedBusType
    ensures Step(s, Logout).routeData == s.routeData
    ensures Step(s, Logout).selectedBusId == s.selectedBusId
    ensures Step(s, Logout).showAuthModal == s.showAuthModal
  {
  }

  /** The logo does nothing when signed out and leads to the dashboard when signed in. */
  lemma LogoClickGuard(s: AppState)
    ensures !s.isAuthenticated ==> Step(s, LogoClick) == s
    ensures s.isAuthenticated ==> Step(s, LogoClick) == s.(currentView := Dashboard)
  {
  }

  /** Each selection records exactly the given value and moves one screen on. */
  lemma SelectionsRecorded(s: AppState, t: BusType, from: string, to: string, busId: string)
    ensures CurrentScreen(Step(s, BusTypeSelect(t))) == RouteSelectionScreen(t)
    ensures CurrentScreen(Step(s, RouteNext(from, to))) == BusOptionsScreen(from, to)
    ensures CurrentScreen(Step(s, BusSelect(busId))) == BusMapScreen(busId, s.routeData.from, s.routeData.to)
  {
  }

  /** The back handlers change the view and nothing else. */
  lemma BackHandlersOnlyMoveView(s: AppState)
    ensures Step(s, BackToDashboard) == s.(currentView := Dashboard)
    ensures Step(s, BackToRouteSelection) == s.(currentView := RouteSelection)
    ensures Step(s, BackToBusOptions) == s.(currentView := BusOptions)
  {
  }

  /** Opening the modal only sets its type; closing only clears it. */
  lemma ModalHandlers(s: AppState, t: AuthType)
    ensures Step(s, AuthClick(t)) == s.(showAuthModal := Some(t)) && ShowsModal(Step(s, AuthClick(t)))
    ensures Step(s, CloseAuthModal) == s.(showAuthModal := None) && !ShowsModal(Step(s, CloseAuthModal))
  {
  }

  /** The Index component: its useState fields and handlers. */
  class Index {
    var currentView: AppView
    var showAuthModal: Option<AuthType>
    var isAuthenticated: bool
    var selectedBusType: BusType
    var routeData: RouteData
    var selectedBusId: string

    function State(): AppState
      reads this
    {
      AppState(currentView, showAuthModal, isAuthenticated, selectedBusType, routeData, selectedBusId)
    }

    constructor ()
      ensures State() == Initial
    {
      currentView := Landing;
      showAuthModal := None;
      isAuthenticated := false;
      selectedBusType := Local;
      routeData := RouteData("", "");
      selectedBusId := "";
    }

    method HandleAuthClick(t: AuthType)
      modifies this
      ensures State() == Step(old(State()), AuthClick(t))
    {
      showAuthModal := Some(t);
    }

    method CloseAuthModal()
      modifies this
      ensures State() == Step(old(State()), Event.CloseAuthModal)
    {
      showAuthModal := None;
    }

    method HandleAuthSuccess()
      modifies this
      ensures State() == Step(old(State()), AuthSuccess)
    {
      isAuthenticated := true;
      showAuthModal := None;
      currentView := Dashboard;
    }

    method HandleLogout()
      modifies this
      ensures State() == Step(old(State()), Logout)
    {
      isAuthenticated := false;
      currentView := Landing;
    }

    method HandleLogoClick()
      modifies this
      ensures State() == Step(old(State()), LogoClick)
    {
      if isAuthenticated {
        currentView := Dashboard;
      }
    }

    method HandleBusTypeSelect(t: BusType)
      modifies this
      ensures State() == Step(old(State()), BusTypeSelect(t))
    {
      selectedBusType := t;
      currentView := RouteSelection;
    }

    method HandleRouteNext(from: string, to: string)
      modifies this
      ensures State() == Step(old(State()), RouteNext(from, to))
    {
      routeData := RouteData(from, to);
      currentView := BusOptions;
    }

    method HandleBusSelect(busId: string)
      modifies this
      ensures State() == Step(old(State()), BusSelect(busId))
    {
      selectedBusId := busId;
      currentView := BusMap;
    }

    method HandleBackToDashboard()
      modifies this
      ensures State() == Step(old(State()), BackToDashboard)
    {
      currentView := Dashboard;
    }

    method HandleBackToRouteSelection()
      modifies this
      ensures State() == Step(old(State()), BackToRouteSelection)
    {
      currentView := RouteSelection;
    }

    method HandleBackToBusOptions()
      modifies this
      ensures State() == Step(old(State()), BackToBusOptions)
    {
      currentView := BusOptions;
    }
  }
}
