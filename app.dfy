/** The App component: the screen state machine. Its five pieces of state are
    fields of `class App`; every event handler is a method. The pure layer
    (AppView, Event, Apply, Run) is the specification those methods meet and
    the vocabulary of the lemmas about sequences of events. Asynchronous
    handlers are split at their await so that interleavings can be stated. */
module AppController {
  import opened Wrappers
  import opened Types
  import opened GeminiService
  import LoginForm

  /** The banner text set when generation fails, whatever the failure. */
  const GenerationFailedMessage := "Oops! Something went wrong with the AI analysis."

  // ---------------------------------------------------------------------------
  // The specification: views, events, transitions
  // ---------------------------------------------------------------------------

  /** A snapshot of the App component's state. `plan` holds whatever the
      adapter returned last, `Falsy` standing for the initial `null`. */
  datatype AppView = AppView(
    state: AppState,
    user: Option<User>,
    plan: PlanValue,
    error: Option<string>,
    initializing: bool)

  /** The state before any event: the initial useState values. */
  const Initial := AppView(LANDING, None, Falsy, None, true)

  /** Everything that changes the App's state, in the order it happens. */
  datatype Event =
    | SessionLoaded(session: Option<Session>)    // the startup getSession() resolves
    | AuthChanged(session: Option<Session>)      // an onAuthStateChange notification
    | LoggedOut                                  // handleLogout, after signOut() resolves
    | GetStarted                                 // Landing's onStart
    | GenerateStarted(url: string)               // handleGenerate up to its await
    | GenerateFinished(outcome: Result<PlanValue, GenerationError>)  // handleGenerate after it
    | NewBoard                                   // PlanResult's onReset

  /** `session?.user ?? null` */
  function UserOf(session: Option<Session>): (user: Option<User>)
  {
    match session
    case None => None
    case Some(s) => s.user
  }

  /** The effect of one event on the App's state. Only the startup lookup ends
      initialization; only a successful generation changes the plan; only
      session reports and logout change the user; only generation changes the
      error. */
  function Apply(v: AppView, e: Event): (next: AppView)
    ensures next.initializing == (v.initializing && !e.SessionLoaded?)
    ensures next.plan != v.plan ==> e.GenerateFinished? && e.outcome.Success?
    ensures next.user != v.user ==> e.SessionLoaded? || e.AuthChanged? || e.LoggedOut?
    ensures next.error != v.error ==> e.GenerateStarted? || e.GenerateFinished?
  {
    match e
    case SessionLoaded(session) =>
      v.(user := UserOf(session),
         state := if UserOf(session).Some? then DASHBOARD else v.state,
         initializing := false)
    case AuthChanged(session) =>
      v.(user := UserOf(session), state := if UserOf(session).Some? then DASHBOARD else LANDING)
    case LoggedOut => v.(user := None, state := LANDING)
    case GetStarted => v.(state := LOGIN)
    case GenerateStarted(_) => v.(state := PROCESSING, error := None)
    case GenerateFinished(outcome) =>
      if outcome.Success? then v.(plan := outcome.value, state := RESULT)
      else v.(error := Some(GenerationFailedMessage), state := DASHBOARD)
    case NewBoard => v.(state := DASHBOARD)
  }

  /** The state after a sequence of events, applied first to last. */
  function Run(v: AppView, events: seq<Event>): (last: AppView)
    decreases |events|
  {
    if events == [] then v else Apply(Run(v, events[..|events| - 1]), events[|events| - 1])
  }

  /** Two events in a row. */
  lemma RunTwo(v: AppView, first: Event, second: Event)
    ensures Run(v, [first, second]) == Apply(Apply(v, first), second)
  {
    var events, one := [first, second], [first];
    assert one[..0] == [];
    assert Run(v, one) == Apply(v, first);
    assert events[..1] == one;
  }

  // ---------------------------------------------------------------------------
  // What is rendered, and which handlers the rendering offers
  // ---------------------------------------------------------------------------

  /** The content rendered below the header. */
  datatype Screen =
    | Spinner                                // while initializing, instead of everything
    | LandingScreen
    | LoginScreen
    | DashboardScreen(banner: Option<string>)
    | ProcessingScreen
    | ResultScreen(plan: ActionPlan)
    | IncompleteResultScreen                 // PlanResult handed a value lacking fields
    | Blank                                  // RESULT with a falsy plan renders nothing

  /** renderContent, preceded by the initializing check. The error banner is
      shown only for a non-empty message; RESULT renders PlanResult only for a
      truthy plan. */
  function Render(v: AppView): (screen: Screen)
    ensures screen == Spinner <==> v.initializing
    ensures screen == Blank <==> !v.initializing && v.state == RESULT && v.plan.Falsy?
    ensures screen.ResultScreen? ==> v.plan == Complete(screen.plan)
    ensures screen.DashboardScreen? ==>
      screen.banner == if v.error.Some? && v.error.value != "" then v.error else None
  {
    if v.initializing then Spinner
    else match v.state
      case LANDING => LandingScreen
      case LOGIN => LoginScreen
      case DASHBOARD =>
        DashboardScreen(if v.error.Some? && v.error.value != "" then v.error else None)
      case PROCESSING => ProcessingScreen
      case RESULT =>
        match v.plan
        case Falsy => Blank
        case Complete(plan) => ResultScreen(plan)
        case Incomplete => IncompleteResultScreen
  }

  /** Whether an event can happen now. A user event needs the rendered screen
      to offer its handler: "get started" on the landing page, generation on
      the dashboard with a non-empty URL (the button is disabled otherwise),
      "new board" on a rendered plan, logout in the header when there is a
      user; none while initializing. Collaborator events can arrive at any
      time. */
  function Enabled(v: AppView, e: Event): (enabled: bool)
    ensures e.GetStarted? ==> (enabled <==> !v.initializing && v.state == LANDING)
    ensures e.GenerateStarted? ==> (enabled <==> !v.initializing && v.state == DASHBOARD && e.url != "")
    ensures e.NewBoard? ==> (enabled <==> !v.initializing && v.state == RESULT && v.plan.Complete?)
    ensures e.LoggedOut? ==> (enabled <==> !v.initializing && v.user.Some?)
    ensures e.SessionLoaded? || e.AuthChanged? || e.GenerateFinished? ==> enabled
  {
    match e
    case GetStarted => Render(v) == LandingScreen
    case GenerateStarted(url) => Render(v).DashboardScreen? && url != ""
    case NewBoard => Render(v).ResultScreen?
    case LoggedOut => !v.initializing && v.user.Some?
    case _ => true
  }

  /** Right after a generation starts, the processing screen is shown and it
      offers no second generation. This is the only guard: see
      SecondGenerationAfterAuthNotification. */
  lemma NoSecondGenerationWhileProcessing(v: AppView, url: string, again: string)
    ensures Render(Apply(v, GenerateStarted(url))) in {Spinner, ProcessingScreen}
    ensures !Enabled(Apply(v, GenerateStarted(url)), GenerateStarted(again))
  {
  }

  // ---------------------------------------------------------------------------
  // Invariants over every sequence of events
  // ---------------------------------------------------------------------------

  /** The only error the App ever holds is the generic generation message. */
  predicate OnlyGenericError(v: AppView)
  {
    v.error.Some? ==> v.error.value == GenerationFailedMessage
  }

  lemma {:induction false} RunKeepsOnlyGenericError(v: AppView, events: seq<Event>)
    requires OnlyGenericError(v)
    ensures OnlyGenericError(Run(v, events))
    decreases |events|
  {
    if events != [] {
      RunKeepsOnlyGenericError(v, events[..|events| - 1]);
    }
  }

  /** From the initial state, whatever happens, the dashboard banner is absent
      or the generic message, and it is shown exactly when an error is held. */
  lemma BannerIsGenericOrAbsent(events: seq<Event>)
    ensures Render(Run(Initial, events)).DashboardScreen? ==>
      Render(Run(Initial, events)).banner in {None, Some(GenerationFailedMessage)} &&
      Render(Run(Initial, events)).banner == Run(Initial, events).error
  {
    RunKeepsOnlyGenericError(Initial, events);
  }

  /** The plan value of the last successful generation among `events`, or
      `plan0` if none succeeded. */
  function LatestPlan(events: seq<Event>, plan0: PlanValue): (plan: PlanValue)
    decreases |events|
  {
    if events == [] then plan0
    else
      var e := events[|events| - 1];
      if e.GenerateFinished? && e.outcome.Success? then e.outcome.value
      else LatestPlan(events[..|events| - 1], plan0)
  }

  /** Only a successful generation changes the plan: nothing clears it, not
      logout, not a new board, not a failed generation. */
  lemma {:induction false} PlanIsLatestSuccess(v: AppView, events: seq<Event>)
    ensures Run(v, events).plan == LatestPlan(events, v.plan)
    decreases |events|
  {
    if events != [] {
      PlanIsLatestSuccess(v, events[..|events| - 1]);
    }
  }

  /** The user reported by the last session or logout event among `events`, or
      `user0` if there is none. */
  function LatestUser(events: seq<Event>, user0: Option<User>): (user: Option<User>)
    decreases |events|
  {
    if events == [] then user0
    else
      match events[|events| - 1]
      case SessionLoaded(session) => UserOf(session)
      case AuthChanged(session) => UserOf(session)
      case LoggedOut => None
      case _ => LatestUser(events[..|events| - 1], user0)
  }

  /** The cached user is always the one the most recent session report gave
      (or none after a logout); screens and generation never touch it. */
  lemma {:induction false} UserIsLatestReport(v: AppView, events: seq<Event>)
    ensures Run(v, events).user == LatestUser(events, v.user)
    decreases |events|
  {
    if events != [] {
      UserIsLatestReport(v, events[..|events| - 1]);
    }
  }

  /** The App stays on its spinner exactly until the startup session lookup
      has answered; no other event ends initialization. */
  lemma {:induction false} InitializingUntilSessionLoaded(v: AppView, events: seq<Event>)
    ensures Run(v, events).initializing <==>
      v.initializing && forall i :: 0 <= i < |events| ==> !events[i].SessionLoaded?
    decreases |events|
  {
    if events != [] {
      var front := events[..|events| - 1];
      InitializingUntilSessionLoaded(v, front);
      assert forall i :: 0 <= i < |front| ==> front[i] == events[i];
    }
  }

  // ---------------------------------------------------------------------------
  // Generation end to end: the adapter composed with the App
  // ---------------------------------------------------------------------------

  /** A generation that fails, for any of the three reasons, takes the App back
      to the dashboard with the generic banner and leaves plan and user alone:
      the App cannot tell the failures apart. Once initialization is over, the
      dashboard shows the generic banner. */
  lemma FailuresLookAlike(
    v: AppView, url: string,
    generateContent: GenerateRequest -> Reply, parse: string -> Option<PlanValue>)
    requires GeneratePlanFromBoard(url, generateContent, parse).result.Failure?
    ensures Run(v, [GenerateStarted(url), GenerateFinished(GeneratePlanFromBoard(url, generateContent, parse).result)])
         == v.(state := DASHBOARD, error := Some(GenerationFailedMessage))
    ensures !v.initializing ==>
      Render(Run(v, [GenerateStarted(url), GenerateFinished(GeneratePlanFromBoard(url, generateContent, parse).result)]))
        == DashboardScreen(Some(GenerationFailedMessage))
  {
    RunTwo(v, GenerateStarted(url), GenerateFinished(GeneratePlanFromBoard(url, generateContent, parse).result));
  }

  /** A rejected call, an absent reply and a reply of "not valid json" that the
      parser rejects fail for three different reasons but leave the App in the
      same state. */
  lemma EveryFailureKindLooksAlike(
    v: AppView, url: string, parse: string -> Option<PlanValue>)
    requires parse("not valid json") == None
    ensures var rejected := GeneratePlanFromBoard(url, _ => Rejected("fetch failed"), parse);
      var absent := GeneratePlanFromBoard(url, _ => Replied(None), parse);
      var malformed := GeneratePlanFromBoard(url, _ => Replied(Some("not valid json")), parse);
      rejected.result == Failure(CallFailed("fetch failed")) &&
      absent.result == Failure(NoResponse) && malformed.result == Failure(InvalidFormat) &&
      Run(v, [GenerateStarted(url), GenerateFinished(rejected.result)])
        == Run(v, [GenerateStarted(url), GenerateFinished(absent.result)])
        == Run(v, [GenerateStarted(url), GenerateFinished(malformed.result)])
  {
    FailuresLookAlike(v, url, _ => Rejected("fetch failed"), parse);
    FailuresLookAlike(v, url, _ => Replied(None), parse);
    FailuresLookAlike(v, url, _ => Replied(Some("not valid json")), parse);
  }

  /** A generation that succeeds stores exactly the parsed value and moves to
      RESULT; a complete plan is then shown with "new board" offered, while a
      falsy value shows nothing and offers nothing. */
  lemma SuccessShowsParsedValue(
    v: AppView, url: string,
    generateContent: GenerateRequest -> Reply, parse: string -> Option<PlanValue>)
    requires !v.initializing
    requires GeneratePlanFromBoard(url, generateContent, parse).result.Success?
    ensures var reply := ServiceReply(url, generateContent);
      var after := Run(v, [GenerateStarted(url), GenerateFinished(GeneratePlanFromBoard(url, generateContent, parse).result)]);
      reply.Replied? && reply.text.Some? && parse(reply.text.value).Some? &&
      after == v.(state := RESULT, plan := parse(reply.text.value).value, error := None) &&
      (parse(reply.text.value).value.Complete? ==>
        Render(after) == ResultScreen(parse(reply.text.value).value.plan) && Enabled(after, NewBoard)) &&
      (parse(reply.text.value).value.Falsy? ==> Render(after) == Blank && !Enabled(after, NewBoard))
  {
    RunTwo(v, GenerateStarted(url), GenerateFinished(GeneratePlanFromBoard(url, generateContent, parse).result));
  }

  /** As written, a reply whose text is "null" passes the empty-text check,
      parses to a falsy value, and is stored as the plan: the result screen
      renders nothing, and the only ways off it are logout or an auth
      notification. */
  lemma FalsyReplyLeavesBlankResult(
    v: AppView, url: string, parse: string -> Option<PlanValue>)
    requires !v.initializing
    requires parse("null") == Some(Falsy)
    ensures var g := GeneratePlanFromBoard(url, _ => Replied(Some("null")), parse);
      var after := Run(v, [GenerateStarted(url), GenerateFinished(g.result)]);
      g.result == Success(Falsy) &&
      after.state == RESULT && Render(after) == Blank &&
      !Enabled(after, NewBoard) && !Enabled(after, GetStarted) && !Enabled(after, GenerateStarted(url))
  {
    RunTwo(v, GenerateStarted(url), GenerateFinished(GeneratePlanFromBoard(url, _ => Replied(Some("null")), parse).result));
  }

  /** Every completion among `events` carries a validated outcome, as the
      checked adapter GeneratePlanValidated guarantees. */
  predicate ValidatedRun(events: seq<Event>)
  {
    forall i :: 0 <= i < |events| && events[i].GenerateFinished? ==> ValidatedOutcome(events[i].outcome)
  }

  /** The result state holds a complete plan. */
  predicate ResultHasPlan(v: AppView)
  {
    v.state == RESULT ==> v.plan.Complete?
  }

  lemma {:induction false} ValidatedRunKeepsResultHasPlan(v: AppView, events: seq<Event>)
    requires ResultHasPlan(v) && ValidatedRun(events)
    ensures ResultHasPlan(Run(v, events))
    decreases |events|
  {
    if events != [] {
      var front := events[..|events| - 1];
      assert forall i :: 0 <= i < |front| ==> front[i] == events[i];
      ValidatedRunKeepsResultHasPlan(v, front);
    }
  }

  /** With the checked adapter, from the initial state the result screen always
      shows a complete plan: it never renders nothing and always offers "new
      board". */
  lemma NeverBlankWithValidatedGeneration(events: seq<Event>)
    requires ValidatedRun(events)
    ensures var last := Run(Initial, events);
      Render(last) != Blank && Render(last) != IncompleteResultScreen &&
      (!last.initializing && last.state == RESULT ==> Enabled(last, NewBoard))
  {
    ValidatedRunKeepsResultHasPlan(Initial, events);
  }

  /** Nothing ties a completion to the session that started it: a user who
      logs out while a plan is being generated is still shown the plan, on the
      result screen, with no user. */
  lemma CompletionAfterLogoutStillShowsPlan(u: User, url: string, p: ActionPlan)
    requires url != ""
    ensures var events := [SessionLoaded(Some(Session(Some(u)))), GenerateStarted(url), LoggedOut, GenerateFinished(Success(Complete(p)))];
      Enabled(Run(Initial, events[..1]), GenerateStarted(url)) &&
      Enabled(Run(Initial, events[..2]), LoggedOut) &&
      Run(Initial, events).state == RESULT && Run(Initial, events).user == None &&
      Render(Run(Initial, events)) == ResultScreen(p)
  {
    var events := [SessionLoaded(Some(Session(Some(u)))), GenerateStarted(url), LoggedOut, GenerateFinished(Success(Complete(p)))];
    assert events[..3][..2] == events[..2];
    assert events[..2][..1] == events[..1];
    assert events[..1][..0] == [];
  }

  /** The processing screen is the only guard against a second generation: an
      auth notification with a session during the first generation moves the
      App to the dashboard, which offers generation again while the first call
      is still awaited. */
  lemma SecondGenerationAfterAuthNotification(u: User, url: string, again: string)
    requires url != "" && again != ""
    ensures var events := [SessionLoaded(Some(Session(Some(u)))), GenerateStarted(url), AuthChanged(Some(Session(Some(u))))];
      Enabled(Run(Initial, events[..1]), GenerateStarted(url)) &&
      Run(Initial, events[..2]).state == PROCESSING &&
      Run(Initial, events).state == DASHBOARD &&
      Enabled(Run(Initial, events), GenerateStarted(again))
  {
    var events := [SessionLoaded(Some(Session(Some(u)))), GenerateStarted(url), AuthChanged(Some(Session(Some(u))))];
    assert events[..2][..1] == events[..1];
    assert events[..1][..0] == [];
  }

  // ---------------------------------------------------------------------------
  // The App component
  // ---------------------------------------------------------------------------

  class App {
    var state: AppState
    var user: Option<User>
    var plan: PlanValue
    var error: Option<string>
    var initializing: bool

    function View(): (v: AppView)
      reads this
    {
      AppView(state, user, plan, error, initializing)
    }

    /** The initial useState values. */
    constructor ()
      ensures View() == Initial
      ensures state == LANDING && user == None && plan == Falsy && error == None && initializing
    {
      state, user, plan, error, initializing := LANDING, None, Falsy, None, true;
    }

    /** The startup getSession() callback: cache the session's user, go to the
        dashboard only if there is one, and end initialization either way. */
    method OnSessionLoaded(session: Option<Session>)
      modifies this
      ensures View() == Apply(old(View()), SessionLoaded(session))
      ensures user == UserOf(session) && !initializing
      ensures state == if user.Some? then DASHBOARD else old(state)
      ensures plan == old(plan) && error == old(error)
    {
      user := UserOf(session);
      if user.Some? {
        state := DASHBOARD;
      }
      initializing := false;
    }

    /** The onAuthStateChange callback: overwrite the user from any state, then
        go to the dashboard with a user or to the landing page without. */
    method OnAuthStateChange(session: Option<Session>)
      modifies this
      ensures View() == Apply(old(View()), AuthChanged(session))
      ensures user == UserOf(session)
      ensures state == if user.Some? then DASHBOARD else LANDING
      ensures plan == old(plan) && error == old(error) && initializing == old(initializing)
    {
      user := UserOf(session);
      if user.Some? {
        state := DASHBOARD;
      } else {
        state := LANDING;
      }
    }

    /** handleLogout once signOut() has resolved. */
    method HandleLogout()
      modifies this
      ensures View() == Apply(old(View()), LoggedOut)
      ensures user == None && state == LANDING
      ensures plan == old(plan) && error == old(error) && initializing == old(initializing)
    {
      user := None;
      state := LANDING;
    }

    /** Landing's onStart. */
    method GetStarted()
      modifies this
      ensures View() == Apply(old(View()), Event.GetStarted)
      ensures state == LOGIN
      ensures user == old(user) && plan == old(plan) && error == old(error) && initializing == old(initializing)
    {
      state := LOGIN;
    }

    /** PlanResult's onReset: back to the dashboard, keeping the plan. */
    method NewBoard()
      modifies this
      ensures View() == Apply(old(View()), Event.NewBoard)
      ensures state == DASHBOARD
      ensures user == old(user) && plan == old(plan) && error == old(error) && initializing == old(initializing)
    {
      state := DASHBOARD;
    }

    /** handleGenerate up to its await. */
    method StartGenerate(url: string)
      modifies this
      ensures View() == Apply(old(View()), GenerateStarted(url))
      ensures state == PROCESSING && error == None
      ensures user == old(user) && plan == old(plan) && initializing == old(initializing)
    {
      state := PROCESSING;
      error := None;
    }

    /** handleGenerate after its await. Neither the current state nor the user
        is consulted: the outcome is applied whatever happened meanwhile, and a
        success stores the parsed value as it is. */
    method FinishGenerate(outcome: Result<PlanValue, GenerationError>)
      modifies this
      ensures View() == Apply(old(View()), GenerateFinished(outcome))
      ensures outcome.Success? ==> plan == outcome.value && state == RESULT && error == old(error)
      ensures outcome.Failure? ==>
        plan == old(plan) && state == DASHBOARD && error == Some(GenerationFailedMessage)
      ensures user == old(user) && initializing == old(initializing)
    {
      if outcome.Success? {
        plan := outcome.value;
        state := RESULT;
      } else {
        error := Some(GenerationFailedMessage);
        state := DASHBOARD;
      }
    }

    /** The whole of handleGenerate when nothing else happens during the await:
        one call to the adapter, then its outcome. */
    method HandleGenerate(
      url: string,
      generateContent: GenerateRequest -> Reply,
      parse: string -> Option<PlanValue>)
      modifies this
      ensures var g := GeneratePlanFromBoard(url, generateContent, parse);
        View() == Run(old(View()), [GenerateStarted(url), GenerateFinished(g.result)]) &&
        (state == RESULT <==> g.result.Success?) &&
        (g.result.Success? ==> plan == g.result.value && error == None) &&
        (g.result.Failure? ==> state == DASHBOARD && error == Some(GenerationFailedMessage) && plan == old(plan))
      ensures user == old(user) && initializing == old(initializing)
    {
      ghost var before := View();
      StartGenerate(url);
      var g := GeneratePlanFromBoard(url, generateContent, parse);
      FinishGenerate(g.result);
      RunTwo(before, GenerateStarted(url), GenerateFinished(g.result));
    }

    /** Submitting the login form only changes the form: the App's screen moves
        later, if at all, through an auth-state notification. */
    method SubmitLogin(form: LoginForm.Login, reply: LoginForm.AuthReply) returns (call: LoginForm.AuthCall)
      modifies form
      ensures View() == old(View())
      ensures !form.loading
    {
      call := form.HandleAuth(reply);
    }
  }
}
