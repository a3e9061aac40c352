/**
 * The main window of the WPF launcher and of its portable build
 * (`MainWindow`): the same launch sequence as the MAUI page — startup
 * registration, PostgreSQL, the JMC FIXED service, then the Commerce_Client
 * — shown as a status text and four status blocks, each with a tri-state
 * style, and a Retry button. The two builds differ only in how a style is
 * applied (brushes in the WPF build, named resources in the portable one).
 * The collaborators' answers during a run are given as values or exceptions.
 */
module DesktopMainWindow {
  import opened Wrappers
  import opened Text
  import opened LaunchSequence
  import DSM = DesktopServiceManager

  /** The look `UpdateStatusBlock` gives a block; `Unstyled` is whatever the layout set first. */
  datatype Style = Unstyled | InProgress | Success | Error

  /** A status text block: its text and its style. */
  datatype Block = Block(text: string, style: Style)

  /** The window's observable state. */
  datatype Window = Window(
    statusText: string,
    postgres: Block,
    fixedService: Block,
    commerceClient: Block,
    startup: Block,
    retryEnabled: bool,
    minimized: bool,
    showInTaskbar: bool)

  /** What the collaborators answer during one run, and whether the window is visible after the pause. */
  datatype Collaborators = Collaborators(
    isSetToStartup: Reply<bool>,
    addToStartup: Reply<bool>,
    isSetAfterAdd: Reply<bool>,
    checkPostgres: Reply<DSM.ServiceStatus>,
    startPostgres: Reply<bool>,
    checkFixed: Reply<DSM.ServiceStatus>,
    startFixed: Reply<bool>,
    launchClient: Reply<bool>,
    isVisible: bool)

  /** What a step leaves behind: the window, the calls it made, and the exception it raised, if any. */
  datatype Step = Step(window: Window, calls: seq<Request>, failure: Option<string>)

  // ---------------------------------------------------------------------
  // Status blocks
  // ---------------------------------------------------------------------

  /** The style `UpdateStatusBlock` picks for a `bool?` outcome: success, error, or in progress. */
  function StyleFor(success: Option<bool>): (style: Style)
    ensures style != Unstyled
  {
    match success
    case Some(true) => Success
    case Some(false) => Error
    case None => InProgress
  }

  /** The outcome a style shows; the inverse of `StyleFor`. */
  function Outcome(style: Style): Option<bool>
    requires style != Unstyled
  {
    match style
    case Success => Some(true)
    case Error => Some(false)
    case InProgress => None
  }

  /** Each of the three outcomes has its own style, and the style gives the outcome back. */
  lemma StyleShowsOutcome(success: Option<bool>)
    ensures Outcome(StyleFor(success)) == success
    ensures StyleFor(success) == Success <==> success == Some(true)
    ensures StyleFor(success) == Error <==> success == Some(false)
    ensures StyleFor(success) == InProgress <==> success == None
  {
  }

  /** `UpdateStatusBlock`: the text, and the style for the outcome. */
  function Update(text: string, success: Option<bool>): (b: Block)
    ensures b.text == text && b.style != Unstyled && Outcome(b.style) == success
  {
    StyleShowsOutcome(success);
    Block(text, StyleFor(success))
  }

  /** A step leaves the Retry button and the window's placement as they were. */
  predicate Unmoved(w: Window, v: Window) {
    v.retryEnabled == w.retryEnabled && v.minimized == w.minimized && v.showInTaskbar == w.showInTaskbar
  }

  function ServiceBlock(w: Window, service: Service): Block {
    match service
    case Postgres => w.postgres
    case Fixed => w.fixedService
  }

  function WithServiceBlock(w: Window, service: Service, b: Block): (v: Window)
    ensures ServiceBlock(v, service) == b
    ensures v.statusText == w.statusText && v.commerceClient == w.commerceClient && v.startup == w.startup
    ensures Unmoved(w, v)
  {
    match service
    case Postgres => w.(postgres := b)
    case Fixed => w.(fixedService := b)
  }

  /** The reason shown when a start fails: the probe's error message unless null or empty, else "Failed to start". */
  function FailureReason(status: DSM.ServiceStatus): string {
    if status.errorMessage.None? || IsEmpty(status.errorMessage.value) then DefaultReason
    else status.errorMessage.value
  }

  /** The service is running when its step ends: it already ran, or it started. */
  predicate ServiceUp(check: Reply<DSM.ServiceStatus>, start: Reply<bool>) {
    check.Returns? && (check.value.isRunning || start == Returns(true))
  }

  // ---------------------------------------------------------------------
  // The steps, as functions of the window and the collaborators' answers
  // ---------------------------------------------------------------------

  function StartupError(m: string): Block {
    Update(StartupLabel + "Error - " + m, Some(false))
  }

  /** `CheckAndConfigureStartup`: never raises; an exception only shows on the registration block. */
  function StartupStep(w: Window, env: Collaborators): (r: Step)
    ensures r.failure.None? && |r.calls| > 0 && r.calls[0] == IsSetToStartup
    ensures Unmoved(w, r.window)
    ensures forall q :: q in r.calls ==> q == IsSetToStartup || q == AddToStartup
  {
    var w := w.(statusText := ConfiguringMessage);
    match env.isSetToStartup
    case Throws(m) => Step(w.(startup := StartupError(m)), [IsSetToStartup], None)
    case Returns(true) =>
      Step(w.(startup := Update(StartupLabel + "Already configured", Some(true))), [IsSetToStartup], None)
    case Returns(false) =>
      var t := Register(w, env);
      Step(t.window, [IsSetToStartup] + t.calls, None)
  }

  /** The registration step once the query said no: add the entry, then ask again. */
  function Register(w: Window, env: Collaborators): (r: Step)
    ensures r.failure.None? && Unmoved(w, r.window)
    ensures r.calls == if env.addToStartup.Throws? then [AddToStartup] else [AddToStartup, IsSetToStartup]
  {
    match env.addToStartup
    case Throws(m) => Step(w.(startup := StartupError(m)), [AddToStartup], None)
    case Returns(_) =>
      var calls := [AddToStartup, IsSetToStartup];
      match env.isSetAfterAdd
      case Throws(m) => Step(w.(startup := StartupError(m)), calls, None)
      case Returns(success) =>
        var text := if success then StartupLabel + "Successfully configured" else StartupLabel + "Failed to configure";
        Step(w.(startup := Update(text, Some(success))), calls, None)
  }

  /** `CheckAndStartPostgreSQL` / `CheckAndStartFixedService`. */
  function ServiceStep(w: Window, service: Service, check: Reply<DSM.ServiceStatus>, start: Reply<bool>): (r: Step)
    ensures |r.calls| > 0 && r.calls[0] == CheckService(service)
    ensures Unmoved(w, r.window)
    ensures forall q :: q in r.calls ==> q == CheckService(service) || q == StartService(service)
  {
    var w1 := WithServiceBlock(w.(statusText := CheckingMessage(service)), service,
                               Update(Label(service) + "Checking status...", None));
    match check
    case Throws(m) => Step(w1, [CheckService(service)], Some(m))
    case Returns(status) =>
      var t := AfterProbe(w1, service, status, start);
      Step(t.window, [CheckService(service)] + t.calls, t.failure)
  }

  /** The rest of a service step once the probe has answered: done if running, otherwise a start. */
  function AfterProbe(w: Window, service: Service, status: DSM.ServiceStatus, start: Reply<bool>): (r: Step)
    ensures Unmoved(w, r.window)
    ensures r.calls == if status.isRunning then [] else [StartService(service)]
  {
    if status.isRunning then
      Step(WithServiceBlock(w, service, Update(Label(service) + "Running", Some(true))), [], None)
    else
      var w2 := WithServiceBlock(w, service, Update(Label(service) + "Starting...", None))
                  .(statusText := StartingMessage(service));
      match start
      case Throws(m) => Step(w2, [StartService(service)], Some(m))
      case Returns(true) =>
        Step(WithServiceBlock(w2, service, Update(Label(service) + "Successfully started", Some(true))),
             [StartService(service)], None)
      case Returns(false) =>
        var reason := FailureReason(status);
        Step(WithServiceBlock(w2, service, Update(Label(service) + reason, Some(false))), [StartService(service)],
             Some(FailurePrefix(service) + reason))
  }

  /** `LaunchCommerceClient`. */
  function LaunchStep(w: Window, env: Collaborators): (r: Step)
    ensures r.calls == [LaunchClient]
    ensures Unmoved(w, r.window)
  {
    var w1 := w.(statusText := LaunchingMessage,
                 commerceClient := Update(ClientLabel + "Launching...", None));
    match env.launchClient
    case Throws(m) => Step(w1, [LaunchClient], Some(m))
    case Returns(true) =>
      Step(w1.(commerceClient := Update(ClientLabel + "Successfully launched", Some(true))), [LaunchClient], None)
    case Returns(false) =>
      Step(w1.(commerceClient := Update(ClientLabel + "Failed to launch - check configuration", Some(false))),
           [LaunchClient], Some(LaunchRefusedMessage))
  }

  /** The end of the `try` block: the completion message, Retry enabled, the pause, then minimising a visible window. */
  function CompletionStep(w: Window, env: Collaborators): (r: Step)
    ensures r.calls == [Delay(5000)] && r.failure.None?
  {
    var done := w.(statusText := CompletedMessage, retryEnabled := true);
    var shown := if env.isVisible then done.(minimized := true, showInTaskbar := false) else done;
    Step(shown, [Delay(5000)], None)
  }

  /** The two assignments that open the sequence. */
  function Begin(w: Window): Window {
    w.(statusText := SequenceStartMessage, retryEnabled := false)
  }

  /** The run up to the end of the PostgreSQL step. */
  function ThroughPostgres(w: Window, env: Collaborators): (r: Step)
    ensures r.failure.None? <==> ServiceUp(env.checkPostgres, env.startPostgres)
  {
    var s1 := StartupStep(Begin(w), env);
    var s2 := ServiceStep(s1.window, Postgres, env.checkPostgres, env.startPostgres);
    Step(s2.window, s1.calls + s2.calls, s2.failure)
  }

  /** The run up to the end of the JMC FIXED step, which is skipped after a failure. */
  function ThroughFixed(w: Window, env: Collaborators): Step {
    var s := ThroughPostgres(w, env);
    if s.failure.Some? then s else
    var t := ServiceStep(s.window, Fixed, env.checkFixed, env.startFixed);
    Step(t.window, s.calls + t.calls, t.failure)
  }

  /** The run up to the end of the client launch, which is skipped after a failure. */
  function ThroughLaunch(w: Window, env: Collaborators): Step {
    var s := ThroughFixed(w, env);
    if s.failure.Some? then s else
    var t := LaunchStep(s.window, env);
    Step(t.window, s.calls + t.calls, t.failure)
  }

  /** The whole `try` block, which stops at the first exception. */
  function ThroughCompletion(w: Window, env: Collaborators): Step {
    var s := ThroughLaunch(w, env);
    if s.failure.Some? then s else
    var t := CompletionStep(s.window, env);
    Step(t.window, s.calls + t.calls, t.failure)
  }

  /** The `catch` of the sequence: the failure message, and Retry enabled. */
  function Finish(s: Step): Step {
    if s.failure.Some? then
      Step(s.window.(statusText := FailedPrefix + s.failure.value, retryEnabled := true), s.calls, s.failure)
    else s
  }

  /** `StartLaunchSequence`: the steps in order, stopping at the first exception. */
  function Sequence(w: Window, env: Collaborators): Step {
    Finish(ThroughCompletion(w, env))
  }

  // ---------------------------------------------------------------------
  // What a run promises
  // ---------------------------------------------------------------------

  /** Once a stage raises, the later stages change nothing; otherwise each only appends calls. */
  lemma StagesExtend(w: Window, env: Collaborators)
    ensures ThroughPostgres(w, env).failure.Some? ==> ThroughCompletion(w, env) == ThroughPostgres(w, env)
    ensures ThroughFixed(w, env).failure.Some? ==> ThroughCompletion(w, env) == ThroughFixed(w, env)
    ensures ThroughLaunch(w, env).failure.Some? ==> ThroughCompletion(w, env) == ThroughLaunch(w, env)
    ensures ThroughPostgres(w, env).calls <= ThroughFixed(w, env).calls <= ThroughLaunch(w, env).calls
    ensures ThroughLaunch(w, env).calls <= ThroughCompletion(w, env).calls
  {
  }

  /** The first three steps make only preparation calls and succeed exactly when both services come up. */
  lemma {:induction false} ServicesStage(w: Window, env: Collaborators)
    ensures forall q :: q in ThroughPostgres(w, env).calls ==> Preparation(q) && q != CheckService(Fixed)
    ensures forall q :: q in ThroughFixed(w, env).calls ==> Preparation(q)
    ensures ThroughFixed(w, env).failure.None? <==>
      ServiceUp(env.checkPostgres, env.startPostgres) && ServiceUp(env.checkFixed, env.startFixed)
  {
    var s1 := StartupStep(Begin(w), env);
    var s2 := ServiceStep(s1.window, Postgres, env.checkPostgres, env.startPostgres);
    assert ThroughPostgres(w, env).calls == s1.calls + s2.calls;
    var s := ThroughPostgres(w, env);
    if s.failure.None? {
      var t := ServiceStep(s.window, Fixed, env.checkFixed, env.startFixed);
      assert ThroughFixed(w, env).calls == s.calls + t.calls;
      assert t.failure.None? <==> ServiceUp(env.checkFixed, env.startFixed);
    }
  }

  /**
   * The steps run in order and each one runs only when every step before it
   * succeeded; every run, a retry included, begins with the registration query.
   */
  lemma {:induction false} StepsRunInOrder(w: Window, env: Collaborators)
    ensures var r := Sequence(w, env);
      && |r.calls| > 0 && r.calls[0] == IsSetToStartup
      && CheckService(Postgres) in r.calls
      && (CheckService(Fixed) in r.calls <==> ServiceUp(env.checkPostgres, env.startPostgres))
      && (LaunchClient in r.calls <==>
            ServiceUp(env.checkPostgres, env.startPostgres) && ServiceUp(env.checkFixed, env.startFixed))
  {
    StagesExtend(w, env);
    ServicesStage(w, env);
    var s1 := StartupStep(Begin(w), env);
    var s2 := ServiceStep(s1.window, Postgres, env.checkPostgres, env.startPostgres);
    assert ThroughPostgres(w, env).calls == s1.calls + s2.calls;
    assert CheckService(Postgres) in ThroughPostgres(w, env).calls;
    var s := ThroughPostgres(w, env);
    if s.failure.None? {
      var t := ServiceStep(s.window, Fixed, env.checkFixed, env.startFixed);
      assert ThroughFixed(w, env).calls == s.calls + t.calls;
      assert CheckService(Fixed) in ThroughFixed(w, env).calls;
    }
    var f := ThroughFixed(w, env);
    if f.failure.None? {
      assert ThroughLaunch(w, env).calls == f.calls + [LaunchClient];
    }
  }

  /** A run fails exactly when a service does not come up or the launch does not succeed. */
  lemma {:induction false} FailsIffAStepFails(w: Window, env: Collaborators)
    ensures Sequence(w, env).failure.None? <==>
      && ServiceUp(env.checkPostgres, env.startPostgres) && ServiceUp(env.checkFixed, env.startFixed)
      && env.launchClient == Returns(true)
  {
    StagesExtend(w, env);
    ServicesStage(w, env);
  }

  /**
   * Retry is disabled while the steps run and enabled when the run ends,
   * whichever way it ends; the status text is the completion message
   * exactly when nothing raised, and otherwise carries the exception's message.
   */
  lemma {:induction false} RunEndsWithRetry(w: Window, env: Collaborators)
    ensures !ThroughLaunch(w, env).window.retryEnabled
    ensures var r := Sequence(w, env);
      && r.window.retryEnabled
      && (r.failure.Some? ==> r.window.statusText == FailedPrefix + r.failure.value)
      && (r.failure.None? ==> r.window.statusText == CompletedMessage)
  {
    StagesExtend(w, env);
    var s1 := StartupStep(Begin(w), env);
    assert !s1.window.retryEnabled;
    var s2 := ServiceStep(s1.window, Postgres, env.checkPostgres, env.startPostgres);
    assert !ThroughPostgres(w, env).window.retryEnabled;
    var s := ThroughPostgres(w, env);
    if s.failure.None? {
      var t := ServiceStep(s.window, Fixed, env.checkFixed, env.startFixed);
      assert !t.window.retryEnabled;
    }
    assert !ThroughFixed(w, env).window.retryEnabled;
  }

  /** The status text ends as the completion message exactly when the run raised nothing. */
  lemma {:induction false} CompletionIffSuccess(w: Window, env: Collaborators)
    ensures var r := Sequence(w, env);
      r.window.statusText == CompletedMessage <==> r.failure.None?
  {
    RunEndsWithRetry(w, env);
    var r := Sequence(w, env);
    if r.failure.Some? {
      FailureIsNotCompletion(r.failure.value);
    }
  }

  /** The pause happens only on the success path, and the window is minimised only after it and only when visible. */
  lemma {:induction false} MinimizeOnlyAfterSuccess(w: Window, env: Collaborators)
    ensures var r := Sequence(w, env);
      && (Delay(5000) in r.calls <==> r.failure.None?)
      && (r.failure.None? && env.isVisible ==> r.window.minimized && !r.window.showInTaskbar)
      && (r.failure.Some? || !env.isVisible ==>
            r.window.minimized == w.minimized && r.window.showInTaskbar == w.showInTaskbar)
  {
    StagesExtend(w, env);
    ServicesStage(w, env);
    var f := ThroughFixed(w, env);
    if f.failure.None? {
      assert ThroughLaunch(w, env).calls == f.calls + [LaunchClient];
    }
    assert Delay(5000) !in ThroughLaunch(w, env).calls;
    var s1 := StartupStep(Begin(w), env);
    var s2 := ServiceStep(s1.window, Postgres, env.checkPostgres, env.startPostgres);
    assert ThroughPostgres(w, env).window.minimized == w.minimized;
    assert ThroughPostgres(w, env).window.showInTaskbar == w.showInTaskbar;
    var s := ThroughPostgres(w, env);
    if s.failure.None? {
      var t := ServiceStep(s.window, Fixed, env.checkFixed, env.startFixed);
      assert t.window.minimized == w.minimized && t.window.showInTaskbar == w.showInTaskbar;
    }
  }

  /**
   * Registration: an existing entry is reported without adding one;
   * otherwise the entry is added and the outcome is the re-query's answer;
   * an exception shows as an error and does not stop the run.
   */
  lemma RegistrationOutcome(w: Window, env: Collaborators)
    ensures var r := StartupStep(w, env);
      && r.failure.None?
      && (env.isSetToStartup == Returns(true) ==> r.calls == [IsSetToStartup] && r.window.startup.style == Success)
      && (env.isSetToStartup == Returns(false) ==> AddToStartup in r.calls)
      && (env.isSetToStartup == Returns(false) && env.addToStartup.Returns? && env.isSetAfterAdd.Returns? ==>
            r.calls == [IsSetToStartup, AddToStartup, IsSetToStartup]
            && Outcome(r.window.startup.style) == Some(env.isSetAfterAdd.value))
      && (env.isSetToStartup.Throws? ==> r.window.startup.style == Error)
      && (env.isSetToStartup == Returns(false) && (env.addToStartup.Throws? || env.isSetAfterAdd.Throws?) ==>
            r.window.startup.style == Error)
  {
  }

  /** A service that is already running is not started. */
  lemma RunningServiceNotStarted(w: Window, service: Service, check: Reply<DSM.ServiceStatus>, start: Reply<bool>)
    requires check.Returns? && check.value.isRunning
    ensures var r := ServiceStep(w, service, check, start);
      && r.calls == [CheckService(service)] && r.failure.None?
      && ServiceBlock(r.window, service) == Block(Label(service) + "Running", Success)
  {
  }

  /** A failed start: the reason on the service's block with the error style, and in the exception. */
  lemma FailedStart(w: Window, service: Service, check: Reply<DSM.ServiceStatus>, start: Reply<bool>)
    requires check.Returns? && !check.value.isRunning && start == Returns(false)
    ensures var r := ServiceStep(w, service, check, start);
      var reason := FailureReason(check.value);
      && r.failure == Some(FailurePrefix(service) + reason)
      && ServiceBlock(r.window, service) == Block(Label(service) + reason, Error)
      && (check.value.errorMessage.None? ==> reason == DefaultReason)
      && r.window.commerceClient == w.commerceClient && r.window.startup == w.startup
  {
  }

  /** A refused launch raises the fixed message and shows the error style. */
  lemma RefusedLaunch(w: Window, env: Collaborators)
    requires env.launchClient == Returns(false)
    ensures var r := LaunchStep(w, env);
      && r.failure == Some(LaunchRefusedMessage)
      && r.window.commerceClient.style == Error
  {
  }

  // ---------------------------------------------------------------------
  // The window
  // ---------------------------------------------------------------------

  class MainWindow {
    var statusText: string
    var postgres: Block
    var fixedService: Block
    var commerceClient: Block
    var startup: Block
    var retryEnabled: bool
    var minimized: bool
    var showInTaskbar: bool
    /** The collaborator calls made so far, in order. */
    ghost var calls: seq<Request>

    /** The constructor; the initial texts and flags come from the window's layout. */
    constructor (layout: Window)
      ensures Snapshot() == layout && calls == []
    {
      statusText := layout.statusText;
      postgres := layout.postgres;
      fixedService := layout.fixedService;
      commerceClient := layout.commerceClient;
      startup := layout.startup;
      retryEnabled := layout.retryEnabled;
      minimized := layout.minimized;
      showInTaskbar := layout.showInTaskbar;
      calls := [];
    }

    function Snapshot(): Window
      reads this
    {
      Window(statusText, postgres, fixedService, commerceClient, startup, retryEnabled, minimized, showInTaskbar)
    }

    /** `MainWindow_Loaded`: runs the sequence once. */
    method Loaded(env: Collaborators)
      modifies this
      ensures Snapshot() == Sequence(old(Snapshot()), env).window
      ensures calls == old(calls) + Sequence(old(Snapshot()), env).calls
      ensures retryEnabled
    {
      StartLaunchSequence(env);
    }

    /** `RetryButton_Click`: a disabled button raises no click; an enabled one re-runs the whole sequence. */
    method RetryClick(env: Collaborators)
      modifies this
      ensures old(retryEnabled) ==> Snapshot() == Sequence(old(Snapshot()), env).window
      ensures old(retryEnabled) ==> calls == old(calls) + Sequence(old(Snapshot()), env).calls
      ensures !old(retryEnabled) ==> Snapshot() == old(Snapshot()) && calls == old(calls)
    {
      if retryEnabled {
        StartLaunchSequence(env);
      }
    }

    /** `StartLaunchSequence`. */
    method StartLaunchSequence(env: Collaborators)
      modifies this
      ensures Snapshot() == Sequence(old(Snapshot()), env).window
      ensures calls == old(calls) + Sequence(old(Snapshot()), env).calls
      ensures retryEnabled
    {
      ghost var before := Snapshot();
      statusText := SequenceStartMessage;
      retryEnabled := false;
      var failure := RunSteps(before, env);
      if failure.Some? {
        statusText := FailedPrefix + failure.value;
        retryEnabled := true;
      }
      RunEndsWithRetry(before, env);
    }

    /** The `try` block of `StartLaunchSequence`: the four steps, stopping at the first exception. */
    method RunSteps(ghost before: Window, env: Collaborators) returns (failure: Option<string>)
      requires Snapshot() == Begin(before)
      modifies this
      ensures Snapshot() == ThroughCompletion(before, env).window
      ensures calls == old(calls) + ThroughCompletion(before, env).calls
      ensures failure == ThroughCompletion(before, env).failure
    {
      failure := RunServiceSteps(before, env);
      ghost var stage := ThroughFixed(before, env);
      ghost var calls0 := old(calls);
      if failure.None? {
        ghost var t := LaunchStep(stage.window, env);
        failure := LaunchCommerceClient(env);
        Associates(calls0, stage.calls, t.calls);
      }
      stage := ThroughLaunch(before, env);
      assert Snapshot() == stage.window && calls == calls0 + stage.calls && failure == stage.failure;
      if failure.None? {
        ghost var t := CompletionStep(stage.window, env);
        Complete(env);
        Associates(calls0, stage.calls, t.calls);
      }
    }

    /** The first three steps: registration, then PostgreSQL, then JMC FIXED unless PostgreSQL raised. */
    method RunServiceSteps(ghost before: Window, env: Collaborators) returns (failure: Option<string>)
      requires Snapshot() == Begin(before)
      modifies this
      ensures Snapshot() == ThroughFixed(before, env).window
      ensures calls == old(calls) + ThroughFixed(before, env).calls
      ensures failure == ThroughFixed(before, env).failure
    {
      ghost var calls0 := calls;
      ghost var s1 := StartupStep(Begin(before), env);
      CheckAndConfigureStartup(env);
      ghost var s2 := ServiceStep(s1.window, Postgres, env.checkPostgres, env.startPostgres);
      failure := CheckAndStartService(Postgres, env.checkPostgres, env.startPostgres);
      Associates(calls0, s1.calls, s2.calls);
      ghost var stage := ThroughPostgres(before, env);
      assert Snapshot() == stage.window && calls == calls0 + stage.calls && failure == stage.failure;
      if failure.None? {
        ghost var t := ServiceStep(stage.window, Fixed, env.checkFixed, env.startFixed);
        failure := CheckAndStartService(Fixed, env.checkFixed, env.startFixed);
        Associates(calls0, stage.calls, t.calls);
      }
    }

    /** The end of the `try` block: the completion message, Retry enabled, the pause, then minimising. */
    method Complete(env: Collaborators)
      modifies this
      ensures Snapshot() == CompletionStep(old(Snapshot()), env).window
      ensures calls == old(calls) + CompletionStep(old(Snapshot()), env).calls
    {
      statusText := CompletedMessage;
      retryEnabled := true;
      calls := calls + [Delay(5000)];
      if env.isVisible {
        minimized := true;
        showInTaskbar := false;
      }
    }

    /** `CheckAndConfigureStartup`. */
    method CheckAndConfigureStartup(env: Collaborators)
      modifies this
      ensures Snapshot() == StartupStep(old(Snapshot()), env).window
      ensures calls == old(calls) + StartupStep(old(Snapshot()), env).calls
    {
      statusText := ConfiguringMessage;
      calls := calls + [IsSetToStartup];
      match env.isSetToStartup
      case Throws(m) =>
        UpdateStartup(StartupLabel + "Error - " + m, Some(false));
      case Returns(isRegistered) =>
        if isRegistered {
          UpdateStartup(StartupLabel + "Already configured", Some(true));
        } else {
          ghost var queried := Snapshot();
          AddAndRequery(env);
          Associates(old(calls), [IsSetToStartup], Register(queried, env).calls);
        }
    }

    /** The `else` branch of `CheckAndConfigureStartup`: `AddToStartup`, then the re-query. */
    method AddAndRequery(env: Collaborators)
      modifies this
      ensures Snapshot() == Register(old(Snapshot()), env).window
      ensures calls == old(calls) + Register(old(Snapshot()), env).calls
    {
      calls := calls + [AddToStartup];
      match env.addToStartup
      case Throws(m) =>
        UpdateStartup(StartupLabel + "Error - " + m, Some(false));
      case Returns(_) =>
        calls := calls + [IsSetToStartup];
        match env.isSetAfterAdd
        case Throws(m) =>
          UpdateStartup(StartupLabel + "Error - " + m, Some(false));
        case Returns(success) =>
          UpdateStartup(if success then StartupLabel + "Successfully configured"
                        else StartupLabel + "Failed to configure", Some(success));
    }

    /** `UpdateStatusBlock` on the registration block. */
    method UpdateStartup(message: string, success: Option<bool>)
      modifies this
      ensures Snapshot() == old(Snapshot()).(startup := Update(message, success)) && calls == old(calls)
    {
      startup := Block(message, StyleFor(success));
    }

    /** `UpdateStatusBlock` on a service's block. */
    method UpdateServiceBlock(service: Service, message: string, success: Option<bool>)
      modifies this
      ensures Snapshot() == WithServiceBlock(old(Snapshot()), service, Update(message, success))
      ensures calls == old(calls)
    {
      match service
      case Postgres => postgres := Block(message, StyleFor(success));
      case Fixed => fixedService := Block(message, StyleFor(success));
    }

    /**
     * `CheckAndStartPostgreSQL` and `CheckAndStartFixedService`; the
     * exception either one raises is returned as `failure`.
     */
    method CheckAndStartService(service: Service, check: Reply<DSM.ServiceStatus>, start: Reply<bool>)
      returns (failure: Option<string>)
      modifies this
      ensures Snapshot() == ServiceStep(old(Snapshot()), service, check, start).window
      ensures calls == old(calls) + ServiceStep(old(Snapshot()), service, check, start).calls
      ensures failure == ServiceStep(old(Snapshot()), service, check, start).failure
    {
      statusText := CheckingMessage(service);
      UpdateServiceBlock(service, Label(service) + "Checking status...", None);
      calls := calls + [CheckService(service)];
      match check
      case Throws(m) =>
        return Some(m);
      case Returns(status) =>
        ghost var probed := Snapshot();
        failure := StartIfStopped(service, status, start);
        Associates(old(calls), [CheckService(service)], AfterProbe(probed, service, status, start).calls);
    }

    /** The part of a service step after the probe: the running case, or the start and its outcome. */
    method StartIfStopped(service: Service, status: DSM.ServiceStatus, start: Reply<bool>)
      returns (failure: Option<string>)
      modifies this
      ensures Snapshot() == AfterProbe(old(Snapshot()), service, status, start).window
      ensures calls == old(calls) + AfterProbe(old(Snapshot()), service, status, start).calls
      ensures failure == AfterProbe(old(Snapshot()), service, status, start).failure
    {
      if status.isRunning {
        UpdateServiceBlock(service, Label(service) + "Running", Some(true));
        return None;
      }
      UpdateServiceBlock(service, Label(service) + "Starting...", None);
      statusText := StartingMessage(service);
      calls := calls + [StartService(service)];
      match start
      case Throws(m) =>
        return Some(m);
      case Returns(started) =>
        if started {
          UpdateServiceBlock(service, Label(service) + "Successfully started", Some(true));
          return None;
        }
        var errorMsg := if status.errorMessage.None? || IsEmpty(status.errorMessage.value) then DefaultReason
                        else status.errorMessage.value;
        UpdateServiceBlock(service, Label(service) + errorMsg, Some(false));
        return Some(FailurePrefix(service) + errorMsg);
    }

    /** `LaunchCommerceClient`; a refused launch is returned as `failure`. */
    method LaunchCommerceClient(env: Collaborators) returns (failure: Option<string>)
      modifies this
      ensures Snapshot() == LaunchStep(old(Snapshot()), env).window
      ensures calls == old(calls) + LaunchStep(old(Snapshot()), env).calls
      ensures failure == LaunchStep(old(Snapshot()), env).failure
    {
      statusText := LaunchingMessage;
      commerceClient := Block(ClientLabel + "Launching...", StyleFor(None));
      calls := calls + [LaunchClient];
      match env.launchClient
      case Throws(m) =>
        return Some(m);
      case Returns(launched) =>
        if launched {
          commerceClient := Block(ClientLabel + "Successfully launched", StyleFor(Some(true)));
          return None;
        }
        commerceClient := Block(ClientLabel + "Failed to launch - check configuration", StyleFor(Some(false)));
        return Some(LaunchRefusedMessage);
    }
  }
}
