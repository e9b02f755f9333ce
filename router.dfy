/**
 * The top-level view router of the application (src/App.jsx) as values: the
 * router state, its four transition handlers and the render decision.
 * Module App holds the object whose methods are proved against these.
 */
module Router {
  import opened Types

  /** The three view names the handlers assign to `currentView`. */
  const DashboardView: string := "dashboard"
  const RepertorioView: string := "repertorio"
  const LiveView: string := "live"

  /**
   * `currentView` is kept as a string, as in the source, so that the render
   * decision's `default` branch covers any other value.
   */
  datatype AppState = AppState(
    currentView: string,
    selectedRepertorio: Option<Repertoire>,
    liveMusicas: seq<Musica>)

  const Initial: AppState := AppState(DashboardView, None, [])

  /** `handleSelectRepertorio`: open the manager of `r`; the live list is kept. */
  function SelectRepertorio(s: AppState, r: Repertoire): (t: AppState)
    ensures t.selectedRepertorio == Some(r) && t.currentView == RepertorioView
    ensures t.liveMusicas == s.liveMusicas
  {
    s.(selectedRepertorio := Some(r), currentView := RepertorioView)
  }

  /** `handleBackToDashboard`: forget the selection; the live list is kept. */
  function BackToDashboard(s: AppState): (t: AppState)
    ensures t.selectedRepertorio == None && t.currentView == DashboardView
    ensures t.liveMusicas == s.liveMusicas
  {
    s.(selectedRepertorio := None, currentView := DashboardView)
  }

  /** `handleStartLiveMode`: enter the live view over `ms`. */
  function StartLiveMode(s: AppState, r: Repertoire, ms: seq<Musica>): (t: AppState)
    ensures t == AppState(LiveView, Some(r), ms)
  {
    s.(selectedRepertorio := Some(r), liveMusicas := ms, currentView := LiveView)
  }

  /** `handleBackFromLive`: back to the manager, dropping the live list; the selection is kept. */
  function BackFromLive(s: AppState): (t: AppState)
    ensures t.currentView == RepertorioView && t.liveMusicas == []
    ensures t.selectedRepertorio == s.selectedRepertorio
  {
    s.(currentView := RepertorioView, liveMusicas := [])
  }

  /** What the application renders. */
  datatype Screen =
    | Spinner
    | Login
    | Manager(repertorio: Option<Repertoire>)
    | Live(repertorio: Option<Repertoire>, musicas: seq<Musica>)
    | DashboardScreen

  /** The `switch (currentView)` for a signed-in user (App.jsx:51-72). */
  function ViewScreen(s: AppState): (screen: Screen)
    ensures screen.Manager? <==> s.currentView == RepertorioView
    ensures screen.Live? <==> s.currentView == LiveView
    ensures screen.DashboardScreen? <==> s.currentView != RepertorioView && s.currentView != LiveView
    ensures screen.Manager? ==> screen.repertorio == s.selectedRepertorio
    ensures screen.Live? ==> screen.repertorio == s.selectedRepertorio && screen.musicas == s.liveMusicas
  {
    match s.currentView
    case "repertorio" => Manager(s.selectedRepertorio)
    case "live" => Live(s.selectedRepertorio, s.liveMusicas)
    case _ => DashboardScreen
  }

  /**
   * The render decision: the spinner while authentication is loading, whatever
   * the user and view; then the login screen when nobody is signed in, whatever
   * the view; then the view's own screen.
   */
  function Render(loading: bool, user: Option<User>, s: AppState): (screen: Screen)
    ensures loading ==> screen == Spinner
    ensures !loading && user.None? ==> screen == Login
    ensures !loading && user.Some? ==> screen == ViewScreen(s) && screen != Spinner && screen != Login
  {
    if loading then Spinner
    else if user.None? then Login
    else ViewScreen(s)
  }

  /** A call of one of the four handlers. */
  datatype Intent =
    | ChooseRepertorio(r: Repertoire)
    | LeaveManager
    | EnterLive(r: Repertoire, ms: seq<Musica>)
    | LeaveLive

  function Step(s: AppState, e: Intent): AppState {
    match e
    case ChooseRepertorio(r) => SelectRepertorio(s, r)
    case LeaveManager => BackToDashboard(s)
    case EnterLive(r, ms) => StartLiveMode(s, r, ms)
    case LeaveLive => BackFromLive(s)
  }

  /**
   * Which handler a rendered screen hands out: the dashboard passes
   * `handleSelectRepertorio`; the manager passes `handleBackToDashboard` and
   * `handleStartLiveMode`, whose button it shows only for a non-empty song list
   * and calls with its own repertoire (RepertorioManager.jsx:136-141); the live
   * view passes `handleBackFromLive`.
   */
  predicate Offers(screen: Screen, e: Intent) {
    match e
    case ChooseRepertorio(_) => screen.DashboardScreen?
    case LeaveManager => screen.Manager?
    case EnterLive(r, ms) => screen.Manager? && screen.repertorio == Some(r) && |ms| > 0
    case LeaveLive => screen.Live?
  }

  /** Every intent of `es` is offered by the screen rendered just before it. */
  predicate Enabled(s: AppState, es: seq<Intent>)
    decreases |es|
  {
    es == [] || (Offers(ViewScreen(s), es[0]) && Enabled(Step(s, es[0]), es[1..]))
  }

  function Run(s: AppState, es: seq<Intent>): AppState
    decreases |es|
  {
    if es == [] then s else Run(Step(s, es[0]), es[1..])
  }

  /**
   * The router invariant: the view is one of the three names; away from the
   * dashboard a repertoire is selected; the live list is non-empty exactly in
   * the live view.
   */
  predicate Valid(s: AppState) {
    && s.currentView in {DashboardView, RepertorioView, LiveView}
    && (s.currentView != DashboardView ==> s.selectedRepertorio.Some?)
    && (s.currentView == LiveView <==> |s.liveMusicas| > 0)
  }

  lemma InitialValid()
    ensures Valid(Initial)
    ensures Initial.currentView == DashboardView && Initial.selectedRepertorio == None
    ensures Initial.liveMusicas == []
  {
  }

  /** Each handler, called from the screen that offers it, keeps the invariant. */
  lemma StepPreservesValid(s: AppState, e: Intent)
    requires Valid(s) && Offers(ViewScreen(s), e)
    ensures Valid(Step(s, e))
  {
  }

  lemma {:induction false} RunPreservesValid(s: AppState, es: seq<Intent>)
    requires Valid(s) && Enabled(s, es)
    ensures Valid(Run(s, es))
    decreases |es|
  {
    if es != [] {
      StepPreservesValid(s, es[0]);
      RunPreservesValid(Step(s, es[0]), es[1..]);
    }
  }

  /**
   * Whatever handlers the user triggers from the initial state, the live view
   * is only ever rendered for a selected repertoire and a non-empty song list,
   * so the live view's own empty-list screen is unreachable through the router.
   */
  lemma {:induction false} LiveViewHasSongs(es: seq<Intent>, user: User)
    requires Enabled(Initial, es)
    ensures var screen := Render(false, Some(user), Run(Initial, es));
      screen.Live? ==> screen.repertorio.Some? && |screen.musicas| > 0
  {
    RunPreservesValid(Initial, es);
  }

  /** Leaving the live view returns to the manager it was entered from, with the live list dropped. */
  lemma LiveRoundTrip(s: AppState, r: Repertoire, ms: seq<Musica>)
    requires s.currentView == RepertorioView && s.selectedRepertorio == Some(r) && s.liveMusicas == []
    ensures BackFromLive(StartLiveMode(s, r, ms)) == s
  {
  }
}
