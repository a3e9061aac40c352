/**
 * The MAUI main page's view model (`MainPageViewModel`): the launch
 * sequence — startup registration, PostgreSQL, the JMC FIXED service, then
 * the Commerce_Client — reported through five status lines and two flags.
 * The collaborators are reached through interfaces; each run is given
 * their answers (a value, or an exception with its message).
 */
module MainPageViewModel {
  import opened Wrappers
  import opened Text
  import opened ServiceContract
  import opened StatusToColorConverter
  import opened LaunchSequence

  /** What the collaborators answer during one run of the sequence. */
  datatype Collaborators = Collaborators(
    isSetToStartup: Reply<bool>,
    addToStartup: Reply<bool>,
    isSetAfterAdd: Reply<bool>,
    checkPostgres: Reply<ServiceStatus>,
    startPostgres: Reply<bool>,
    checkFixed: Reply<ServiceStatus>,
    startFixed: Reply<bool>,
    launchClient: Reply<bool>,
    minimizeOnComplete: Reply<bool>)

  /** The bound properties of the view model. */
  datatype Panel = Panel(
    statusMessage: string,
    postgresStatus: string,
    fixedServiceStatus: string,
    commerceClientStatus: string,
    startupStatus: string,
    isRetryEnabled: bool,
    isLaunching: bool)

  /** The field initializers. */
  const Initial := Panel(
    "Initializing...",
    "PostgreSQL Database: Checking...",
    "JMC FIXED Service: Checking...",
    "Commerce_Client: Waiting for services...",
    "Startup Registration: Checking...",
    false, false)

  /** What a step leaves behind: the panel, the calls it made, and the exception it raised, if any. */
  datatype Step = Step(panel: Panel, calls: seq<Request>, failure: Option<string>)

  // ---------------------------------------------------------------------
  // The two service lines
  // ---------------------------------------------------------------------

  function Line(p: Panel, service: Service): string {
    match service
    case Postgres => p.postgresStatus
    case Fixed => p.fixedServiceStatus
  }

  function WithLine(p: Panel, service: Service, line: string): (q: Panel)
    ensures Line(q, service) == line
  {
    match service
    case Postgres => p.(postgresStatus := line)
    case Fixed => p.(fixedServiceStatus := line)
  }

  /** Two panels agree on `IsLaunching` and `IsRetryEnabled`. */
  predicate FlagsKept(p: Panel, q: Panel) {
    q.isLaunching == p.isLaunching && q.isRetryEnabled == p.isRetryEnabled
  }

  /** The reason shown when a start fails: the probe's error message, or "Failed to start". */
  function FailureReason(status: ServiceStatus): string {
    if IsEmpty(status.errorMessage) then DefaultReason else status.errorMessage
  }

  // ---------------------------------------------------------------------
  // The steps, as functions of the panel and the collaborators' answers
  // ---------------------------------------------------------------------

  function StartupError(m: string): string {
    StartupLabel + "Error - " + m + " ✗"
  }

  /** `CheckAndConfigureStartupAsync`: never raises; a failure only shows on the line. */
  function StartupStep(p: Panel, env: Collaborators): (r: Step)
    ensures r.failure.None? && |r.calls| > 0 && r.calls[0] == IsSetToStartup
    ensures forall q :: q in r.calls ==> q == IsSetToStartup || q == AddToStartup
    ensures FlagsKept(p, r.panel)
  {
    var p := p.(statusMessage := ConfiguringMessage);
    match env.isSetToStartup
    case Throws(m) => Step(p.(startupStatus := StartupError(m)), [IsSetToStartup], None)
    case Returns(true) => Step(p.(startupStatus := StartupLabel + "Already configured ✓"), [IsSetToStartup], None)
    case Returns(false) =>
      var t := Register(p, env);
      Step(t.panel, [IsSetToStartup] + t.calls, None)
  }

  /** The registration of an application that is not yet registered: the add, then the re-query. */
  function Register(p: Panel, env: Collaborators): (r: Step)
    ensures r.failure.None? && r.panel == p.(startupStatus := r.panel.startupStatus)
    ensures r.calls == if env.addToStartup.Throws? then [AddToStartup] else [AddToStartup, IsSetToStartup]
    ensures FlagsKept(p, r.panel)
  {
    match env.addToStartup
    case Throws(m) => Step(p.(startupStatus := StartupError(m)), [AddToStartup], None)
    case Returns(_) =>
      var calls := [AddToStartup, IsSetToStartup];
      match env.isSetAfterAdd
      case Throws(m) => Step(p.(startupStatus := StartupError(m)), calls, None)
      case Returns(true) => Step(p.(startupStatus := StartupLabel + "Successfully configured ✓"), calls, None)
      case Returns(false) => Step(p.(startupStatus := StartupLabel + "Failed to configure ✗"), calls, None)
  }

  /** `CheckAndStartPostgreSQLAsync` / `CheckAndStartFixedServiceAsync`. */
  function ServiceStep(p: Panel, service: Service, check: Reply<ServiceStatus>, start: Reply<bool>): (r: Step)
    ensures |r.calls| > 0 && r.calls[0] == CheckService(service)
    ensures forall q :: q in r.calls ==> q == CheckService(service) || q == StartService(service)
    ensures FlagsKept(p, r.panel)
  {
    var p1 := WithLine(p.(statusMessage := CheckingMessage(service)), service, Label(service) + "Checking status...");
    match check
    case Throws(m) => Step(p1, [CheckService(service)], Some(m))
    case Returns(status) =>
      var t := AfterProbe(p1, service, status, start);
      Step(t.panel, [CheckService(service)] + t.calls, t.failure)
  }

  /** The rest of a service step once the probe has answered: done if running, otherwise a start. */
  function AfterProbe(p: Panel, service: Service, status: ServiceStatus, start: Reply<bool>): (r: Step)
    ensures r.calls == if status.isRunning then [] else [StartService(service)]
    ensures FlagsKept(p, r.panel)
  {
    if status.isRunning then Step(WithLine(p, service, Label(service) + "Running ✓"), [], None)
    else
      var p2 := WithLine(p, service, Label(service) + "Starting...").(statusMessage := StartingMessage(service));
      match start
      case Throws(m) => Step(p2, [StartService(service)], Some(m))
      case Returns(true) => Step(WithLine(p2, service, Label(service) + "Successfully started ✓"), [StartService(service)], None)
      case Returns(false) =>
        var reason := FailureReason(status);
        Step(WithLine(p2, service, Label(service) + reason + " ✗"), [StartService(service)],
             Some(FailurePrefix(service) + reason))
  }

  /** The service is running when the step ends: it already ran, or it started. */
  predicate ServiceUp(check: Reply<ServiceStatus>, start: Reply<bool>) {
    check.Returns? && (check.value.isRunning || start == Returns(true))
  }

  /** `LaunchCommerceClientAsync`. */
  function LaunchStep(p: Panel, env: Collaborators): (r: Step)
    ensures r.calls == [LaunchClient]
    ensures FlagsKept(p, r.panel)
  {
    var p1 := p.(statusMessage := LaunchingMessage,
                 commerceClientStatus := ClientLabel + "Launching...");
    match env.launchClient
    case Throws(m) => Step(p1, [LaunchClient], Some(m))
    case Returns(true) => Step(p1.(commerceClientStatus := ClientLabel + "Successfully launched ✓"), [LaunchClient], None)
    case Returns(false) =>
      Step(p1.(commerceClientStatus := ClientLabel + "Failed to launch - check configuration ✗"), [LaunchClient],
           Some(LaunchRefusedMessage))
  }

  /** The three assignments that open the sequence. */
  function Begin(p: Panel): Panel {
    p.(statusMessage := SequenceStartMessage, isRetryEnabled := false, isLaunching := true)
  }

  /** The run up to the end of the PostgreSQL step. */
  function ThroughPostgres(p: Panel, env: Collaborators): (r: Step)
    ensures r.failure.None? <==> ServiceUp(env.checkPostgres, env.startPostgres)
  {
    var s1 := StartupStep(Begin(p), env);
    var s2 := ServiceStep(s1.panel, Postgres, env.checkPostgres, env.startPostgres);
    Step(s2.panel, s1.calls + s2.calls, s2.failure)
  }

  /** The run up to the end of the JMC FIXED step, which is skipped after a failure. */
  function ThroughFixed(p: Panel, env: Collaborators): Step {
    var s := ThroughPostgres(p, env);
    if s.failure.Some? then s else
    var t := ServiceStep(s.panel, Fixed, env.checkFixed, env.startFixed);
    Step(t.panel, s.calls + t.calls, t.failure)
  }

  /** The run up to the end of the client launch, which is skipped after a failure. */
  function ThroughLaunch(p: Panel, env: Collaborators): Step {
    var s := ThroughFixed(p, env);
    if s.failure.Some? then s else
    var t := LaunchStep(s.panel, env);
    Step(t.panel, s.calls + t.calls, t.failure)
  }

  /** The end of the `try` block: the completion message, the configuration read, the pause. */
  function CompletionStep(p: Panel, env: Collaborators): (r: Step)
    ensures |r.calls| > 0 && r.calls[0] == GetConfiguration
  {
    var done := p.(statusMessage := CompletedMessage, isRetryEnabled := true);
    match env.minimizeOnComplete
    case Throws(m) => Step(done, [GetConfiguration], Some(m))
    case Returns(minimize) => Step(done, [GetConfiguration] + (if minimize then [Delay(5000)] else []), None)
  }

  /** The whole `try` block, which stops at the first exception. */
  function ThroughCompletion(p: Panel, env: Collaborators): Step {
    var s := ThroughLaunch(p, env);
    if s.failure.Some? then s else
    var t := CompletionStep(s.panel, env);
    Step(t.panel, s.calls + t.calls, t.failure)
  }

  /** The `catch` and `finally` of the sequence. */
  function Finish(s: Step): Step {
    var q := if s.failure.Some? then s.panel.(statusMessage := FailedPrefix + s.failure.value, isRetryEnabled := true)
             else s.panel;
    Step(q.(isLaunching := false), s.calls, s.failure)
  }

  /** `StartLaunchSequenceAsync`: the steps in order, stopping at the first exception. */
  function Sequence(p: Panel, env: Collaborators): Step {
    Finish(ThroughCompletion(p, env))
  }

  // ---------------------------------------------------------------------
  // What a run promises
  // ---------------------------------------------------------------------

  /** However a run ends, it ends idle with Retry enabled. */
  lemma RunEndsIdle(p: Panel, env: Collaborators)
    ensures !Sequence(p, env).panel.isLaunching && Sequence(p, env).panel.isRetryEnabled
  {
  }

  /**
   * While the steps run, `IsLaunching` stays true and Retry stays disabled.
   * The completion tail enables Retry while `IsLaunching` is still true, so
   * Retry can be pressed during the pause before the run has ended.
   */
  lemma FlagsDuringRun(p: Panel, env: Collaborators)
    ensures ThroughPostgres(p, env).panel.isLaunching && !ThroughPostgres(p, env).panel.isRetryEnabled
    ensures ThroughFixed(p, env).panel.isLaunching && !ThroughFixed(p, env).panel.isRetryEnabled
    ensures ThroughLaunch(p, env).panel.isLaunching && !ThroughLaunch(p, env).panel.isRetryEnabled
    ensures ThroughCompletion(p, env).panel.isLaunching
    ensures ThroughLaunch(p, env).failure.None? ==> ThroughCompletion(p, env).panel.isRetryEnabled
  {
  }

  /** Once a stage raises, the later stages change nothing; otherwise each only appends calls. */
  lemma StagesExtend(p: Panel, env: Collaborators)
    ensures ThroughPostgres(p, env).failure.Some? ==> ThroughCompletion(p, env) == ThroughPostgres(p, env)
    ensures ThroughFixed(p, env).failure.Some? ==> ThroughCompletion(p, env) == ThroughFixed(p, env)
    ensures ThroughLaunch(p, env).failure.Some? ==> ThroughCompletion(p, env) == ThroughLaunch(p, env)
    ensures ThroughPostgres(p, env).calls <= ThroughFixed(p, env).calls <= ThroughLaunch(p, env).calls
    ensures ThroughLaunch(p, env).calls <= ThroughCompletion(p, env).calls
  {
  }

  /** The first three steps make only preparation calls and succeed exactly when both services come up. */
  lemma {:induction false} ServicesStage(p: Panel, env: Collaborators)
    ensures forall q :: q in ThroughPostgres(p, env).calls ==> Preparation(q) && q != CheckService(Fixed)
    ensures forall q :: q in ThroughFixed(p, env).calls ==> Preparation(q)
    ensures ThroughFixed(p, env).failure.None? <==>
      ServiceUp(env.checkPostgres, env.startPostgres) && ServiceUp(env.checkFixed, env.startFixed)
  {
    var s1 := StartupStep(Begin(p), env);
    var s2 := ServiceStep(s1.panel, Postgres, env.checkPostgres, env.startPostgres);
    assert ThroughPostgres(p, env).calls == s1.calls + s2.calls;
    var s := ThroughPostgres(p, env);
    if s.failure.None? {
      var t := ServiceStep(s.panel, Fixed, env.checkFixed, env.startFixed);
      assert ThroughFixed(p, env).calls == s.calls + t.calls;
      assert t.failure.None? <==> ServiceUp(env.checkFixed, env.startFixed);
    }
  }

  /** The JMC FIXED probe is made exactly when PostgreSQL is up. */
  lemma {:induction false} FixedOnlyAfterPostgres(p: Panel, env: Collaborators)
    ensures CheckService(Fixed) in Sequence(p, env).calls <==> ServiceUp(env.checkPostgres, env.startPostgres)
  {
    StagesExtend(p, env);
    ServicesStage(p, env);
    var s := ThroughPostgres(p, env);
    if s.failure.None? {
      var t := ServiceStep(s.panel, Fixed, env.checkFixed, env.startFixed);
      assert ThroughFixed(p, env).calls == s.calls + t.calls;
      assert CheckService(Fixed) in ThroughFixed(p, env).calls;
    }
  }

  /** The client is launched exactly when both services are up. */
  lemma {:induction false} ClientOnlyAfterServices(p: Panel, env: Collaborators)
    ensures LaunchClient in Sequence(p, env).calls <==>
      ServiceUp(env.checkPostgres, env.startPostgres) && ServiceUp(env.checkFixed, env.startFixed)
  {
    StagesExtend(p, env);
    ServicesStage(p, env);
    var s := ThroughFixed(p, env);
    if s.failure.None? {
      assert ThroughLaunch(p, env).calls == s.calls + [LaunchClient];
    }
  }

  /**
   * The steps run in order and each one runs only when every step before it
   * succeeded: the JMC FIXED check only after PostgreSQL is up, the client
   * only after both services are up; and every run, a retry included,
   * begins with the startup-registration query.
   */
  lemma StepsRunInOrder(p: Panel, env: Collaborators)
    ensures var r := Sequence(p, env);
      && r.calls[0] == IsSetToStartup
      && CheckService(Postgres) in r.calls
      && (CheckService(Fixed) in r.calls <==> ServiceUp(env.checkPostgres, env.startPostgres))
      && (LaunchClient in r.calls <==>
            ServiceUp(env.checkPostgres, env.startPostgres) && ServiceUp(env.checkFixed, env.startFixed))
  {
    FixedOnlyAfterPostgres(p, env);
    ClientOnlyAfterServices(p, env);
  }

  /** A run raises exactly when one of its steps, or the configuration read, does. */
  lemma {:induction false} FailsIffAStepFails(p: Panel, env: Collaborators)
    ensures Sequence(p, env).failure.None? <==>
      && ServiceUp(env.checkPostgres, env.startPostgres) && ServiceUp(env.checkFixed, env.startFixed)
      && env.launchClient == Returns(true) && env.minimizeOnComplete.Returns?
  {
    StagesExtend(p, env);
    ServicesStage(p, env);
  }

  /**
   * The status message ends as the completion text exactly when the run
   * raised nothing, and otherwise as the failure text carrying the
   * exception's message.
   */
  lemma {:induction false} FinalMessage(p: Panel, env: Collaborators)
    ensures var r := Sequence(p, env);
      && (r.failure.Some? ==> r.panel.statusMessage == FailedPrefix + r.failure.value)
      && (r.panel.statusMessage == CompletedMessage <==> r.failure.None?)
  {
    FailureMessageCarriesReason(p, env);
    var r := Sequence(p, env);
    if r.failure.Some? {
      FailureIsNotCompletion(r.failure.value);
    } else {
      CompletionMessage(p, env);
    }
  }

  lemma FailureMessageCarriesReason(p: Panel, env: Collaborators)
    ensures var r := Sequence(p, env);
      r.failure.Some? ==> r.panel.statusMessage == FailedPrefix + r.failure.value
  {
  }

  lemma CompletionMessage(p: Panel, env: Collaborators)
    ensures var r := Sequence(p, env);
      r.failure.None? ==> r.panel.statusMessage == CompletedMessage
  {
  }

  /**
   * Registration never stops the run. An existing entry is reported
   * without adding one. Otherwise the entry is added, and the line follows
   * the re-query's answer.
   */
  lemma RegistrationOutcome(p: Panel, env: Collaborators)
    ensures var r := StartupStep(p, env);
      && r.failure.None?
      && (env.isSetToStartup == Returns(true) ==>
            r.calls == [IsSetToStartup] && r.panel.startupStatus == StartupLabel + "Already configured ✓")
      && (env.isSetToStartup == Returns(false) ==> AddToStartup in r.calls)
      && (env.isSetToStartup == Returns(false) && env.addToStartup.Returns? && env.isSetAfterAdd.Returns? ==>
            && r.calls == [IsSetToStartup, AddToStartup, IsSetToStartup]
            && r.panel.startupStatus == if env.isSetAfterAdd.value then StartupLabel + "Successfully configured ✓"
                                        else StartupLabel + "Failed to configure ✗")
      && (StartupThrown(env).Some? ==> r.panel.startupStatus == StartupError(StartupThrown(env).value))
  {
  }

  /** A service that is already running is not started, and its line says so. */
  lemma RunningServiceNotStarted(p: Panel, service: Service, check: Reply<ServiceStatus>, start: Reply<bool>)
    requires check.Returns? && check.value.isRunning
    ensures var r := ServiceStep(p, service, check, start);
      && r.calls == [CheckService(service)] && r.failure.None?
      && Line(r.panel, service) == Label(service) + "Running ✓"
  {
  }

  /** A failed start: the reason on the service's line and in the exception; the other lines untouched. */
  lemma FailedStart(p: Panel, service: Service, check: Reply<ServiceStatus>, start: Reply<bool>)
    requires check.Returns? && !check.value.isRunning && start == Returns(false)
    ensures var r := ServiceStep(p, service, check, start);
      && r.failure == Some(FailurePrefix(service) + FailureReason(check.value))
      && Line(r.panel, service) == Label(service) + FailureReason(check.value) + " ✗"
      && r.panel.commerceClientStatus == p.commerceClientStatus
      && (service == Postgres ==> r.panel.fixedServiceStatus == p.fixedServiceStatus)
  {
  }

  /**
   * A PostgreSQL service that is not running and does not start stops the
   * run with the probe's error (or "Failed to start") on its line and in
   * the status message; the two later lines keep whatever they showed
   * before the run — on a retry, the previous run's results.
   */
  lemma {:induction false} PostgresFailureStopsRun(p: Panel, env: Collaborators)
    requires env.checkPostgres.Returns? && !env.checkPostgres.value.isRunning
    requires env.startPostgres == Returns(false)
    ensures var r := Sequence(p, env);
      var reason := FailureReason(env.checkPostgres.value);
      && r.failure == Some(FailurePrefix(Postgres) + reason)
      && r.panel.statusMessage == FailedPrefix + (FailurePrefix(Postgres) + reason)
      && r.panel.postgresStatus == Label(Postgres) + reason + " ✗"
      && r.panel.fixedServiceStatus == p.fixedServiceStatus
      && r.panel.commerceClientStatus == p.commerceClientStatus
  {
    StagesExtend(p, env);
    var s1 := StartupStep(Begin(p), env);
    FailedStart(s1.panel, Postgres, env.checkPostgres, env.startPostgres);
  }

  /** The five-second pause happens only after a successful run with MinimizeOnComplete set. */
  lemma {:induction false} PauseOnlyAfterSuccess(p: Panel, env: Collaborators)
    ensures var r := Sequence(p, env);
      Delay(5000) in r.calls <==> r.failure.None? && env.minimizeOnComplete == Returns(true)
  {
    StagesExtend(p, env);
    ServicesStage(p, env);
    var s := ThroughFixed(p, env);
    if s.failure.None? {
      assert ThroughLaunch(p, env).calls == s.calls + [LaunchClient];
    }
    assert Delay(5000) !in ThroughLaunch(p, env).calls;
  }

  // ---------------------------------------------------------------------
  // How the lines are coloured
  // ---------------------------------------------------------------------

  lemma LabelsUnmarked(service: Service)
    ensures |Label(service)| > 0 && Label(service)[|Label(service)| - 1] == ' '
    ensures !HasSuccessMarker(Label(service)) && !HasFailureMarker(Label(service)) && !HasProgressMarker(Label(service))
  {
    match service
    case Postgres => PostgresLabelUnmarked();
    case Fixed => FixedLabelUnmarked();
  }

  lemma PostgresLabelUnmarked()
    ensures var s := "PostgreSQL Database: ";
      !HasSuccessMarker(s) && !HasFailureMarker(s) && !HasProgressMarker(s)
  {
    assert Avoids("PostgreSQL Database: ", {'✓', '✗', 'u', 'i', 'E'});
    Unmarked("PostgreSQL Database: ", {'✓', '✗', 'u', 'i', 'E'});
  }

  lemma FixedLabelUnmarked()
    ensures var s := "JMC FIXED Service: ";
      !HasSuccessMarker(s) && !HasFailureMarker(s) && !HasProgressMarker(s)
  {
    assert Avoids("JMC FIXED Service: ", {'✓', '✗', 'u', 'a', 'o', 'h'});
    Unmarked("JMC FIXED Service: ", {'✓', '✗', 'u', 'a', 'o', 'h'});
  }

  lemma CheckingIsOrange()
    ensures Convert(StringValue("Checking status...")) == Orange
  {
    assert OccursAt("Checking status...", "Checking", 0);
    assert Avoids("Checking status...", {'✓', '✗', 'S', 'R', 'F', 'E'});
    NoSuccessMarker("Checking status...", {'✓', '✗', 'S', 'R', 'F', 'E'});
    NoFailureMarker("Checking status...", {'✓', '✗', 'S', 'R', 'F', 'E'});
  }

  lemma StartingIsOrange()
    ensures Convert(StringValue("Starting...")) == Orange
  {
    assert OccursAt("Starting...", "Starting", 0);
    assert Avoids("Starting...", {'✓', '✗', 'u', 'F', 'E'});
    NoSuccessMarker("Starting...", {'✓', '✗', 'u', 'F', 'E'});
    NoFailureMarker("Starting...", {'✓', '✗', 'u', 'F', 'E'});
  }

  /**
   * A service line ends green when the service is up, orange when the
   * probe or the start raised (it still says "Checking" or "Starting"),
   * and after a failed start red — unless the reason itself carries a
   * success marker, which the converter lets win.
   */
  lemma ServiceLineColor(p: Panel, service: Service, check: Reply<ServiceStatus>, start: Reply<bool>)
    ensures var r := ServiceStep(p, service, check, start);
      Convert(StringValue(Line(r.panel, service))) ==
        if ServiceUp(check, start) then Green
        else if check.Throws? || start.Throws? then Orange
        else if HasSuccessMarker(FailureReason(check.value)) then Green
        else Red
  {
    var r := ServiceStep(p, service, check, start);
    LabelsUnmarked(service);
    var tag := Label(service);
    if ServiceUp(check, start) {
      Ticked(Line(r.panel, service));
    } else if check.Throws? {
      PrefixedColor(tag, "Checking status...");
      CheckingIsOrange();
    } else if start.Throws? {
      PrefixedColor(tag, "Starting...");
      StartingIsOrange();
    } else {
      FailureLineColor(tag, FailureReason(check.value));
    }
  }

  /** The message of the exception the startup step swallowed, if any. */
  function StartupThrown(env: Collaborators): Option<string> {
    match env.isSetToStartup
    case Throws(m) => Some(m)
    case Returns(true) => None
    case Returns(false) =>
      match env.addToStartup
      case Throws(m) => Some(m)
      case Returns(_) => if env.isSetAfterAdd.Throws? then Some(env.isSetAfterAdd.message) else None
  }

  /** The registration was found, or was added and then found. */
  predicate StartupRegistered(env: Collaborators) {
    || env.isSetToStartup == Returns(true)
    || (env.isSetToStartup == Returns(false) && env.addToStartup.Returns? && env.isSetAfterAdd == Returns(true))
  }

  lemma StartupLabelUnmarked()
    ensures |StartupLabel| > 0 && StartupLabel[|StartupLabel| - 1] == ' '
    ensures !HasSuccessMarker(StartupLabel)
  {
    assert Avoids(StartupLabel, {'✓', 'y'}) && NoPair(StartupLabel, 'R', 'u');
    NoSuccessMarker(StartupLabel, {'✓', 'y'});
  }

  lemma StartupLabelsUnmarked()
    ensures !HasSuccessMarker(StartupLabel + "Error - ")
    ensures !HasSuccessMarker(StartupLabel + "Failed to configure ✗")
  {
    StartupLabelUnmarked();
    assert Avoids("Error - ", {'✓', 'u'});
    NoSuccessMarker("Error - ", {'✓', 'u'});
    NoSuccessAfterSpace(StartupLabel, "Error - ");
    assert Avoids("Failed to configure ✗", {'✓', 'S', 'R'});
    NoSuccessMarker("Failed to configure ✗", {'✓', 'S', 'R'});
    NoSuccessAfterSpace(StartupLabel, "Failed to configure ✗");
  }

  /**
   * The startup line is green when the registration is in place and red
   * when it is not; after an exception it is red unless the exception's
   * message carries a success marker.
   */
  lemma StartupLineColor(p: Panel, env: Collaborators)
    ensures Convert(StringValue(StartupStep(p, env).panel.startupStatus)) ==
      if StartupThrown(env).Some? then (if HasSuccessMarker(StartupThrown(env).value) then Green else Red)
      else if StartupRegistered(env) then Green
      else Red
  {
    var line := StartupStep(p, env).panel.startupStatus;
    StartupLabelsUnmarked();
    if StartupThrown(env).Some? {
      FailureLineColor(StartupLabel + "Error - ", StartupThrown(env).value);
    } else if StartupRegistered(env) {
      Ticked(line);
    } else {
      Crossed(line);
    }
  }

  lemma ClientLabelUnmarked()
    ensures var s := ClientLabel;
      !HasSuccessMarker(s) && !HasFailureMarker(s) && !HasProgressMarker(s)
  {
    assert Avoids(ClientLabel, {'✓', '✗', 'u', 'F', 'E', 'S', 'h'});
    Unmarked(ClientLabel, {'✓', '✗', 'u', 'F', 'E', 'S', 'h'});
  }

  lemma LaunchingUnmarked()
    ensures var s := "Launching...";
      !HasSuccessMarker(s) && !HasFailureMarker(s) && !HasProgressMarker(s)
  {
    assert Avoids("Launching...", {'✓', '✗', 'S', 'R', 'F', 'E', 'C'});
    Unmarked("Launching...", {'✓', '✗', 'S', 'R', 'F', 'E', 'C'});
  }

  lemma LaunchingIsGray()
    ensures Convert(StringValue(ClientLabel + "Launching...")) == Gray
  {
    ClientLabelUnmarked();
    LaunchingUnmarked();
    PrefixedColor(ClientLabel, "Launching...");
  }

  lemma RefusedLaunchUnticked()
    ensures !HasSuccessMarker(ClientLabel + "Failed to launch - check configuration ✗")
  {
    ClientLabelUnmarked();
    assert Avoids("Failed to launch - check configuration ✗", {'✓', 'S', 'R'});
    NoSuccessMarker("Failed to launch - check configuration ✗", {'✓', 'S', 'R'});
    NoSuccessAfterSpace(ClientLabel, "Failed to launch - check configuration ✗");
  }

  /**
   * The client line is green after a launch and red after a refused one;
   * an exception from the launcher leaves it at "Launching...", which
   * carries no marker at all and shows gray.
   */
  lemma ClientLineColor(p: Panel, env: Collaborators)
    ensures Convert(StringValue(LaunchStep(p, env).panel.commerceClientStatus)) ==
      match env.launchClient
      case Returns(true) => Green
      case Returns(false) => Red
      case Throws(_) => Gray
  {
    var line := LaunchStep(p, env).panel.commerceClientStatus;
    match env.launchClient
    case Returns(true) => Ticked(line);
    case Returns(false) =>
      RefusedLaunchUnticked();
      Crossed(line);
    case Throws(_) => LaunchingIsGray();
  }

  // ---------------------------------------------------------------------
  // The view model itself
  // ---------------------------------------------------------------------

  class MainPageViewModel {
    var statusMessage: string
    var postgresStatus: string
    var fixedServiceStatus: string
    var commerceClientStatus: string
    var startupStatus: string
    var isRetryEnabled: bool
    var isLaunching: bool
    /** The collaborator calls made so far, in order. */
    ghost var calls: seq<Request>

    constructor ()
      ensures Snapshot() == Initial && calls == []
    {
      statusMessage := "Initializing...";
      postgresStatus := "PostgreSQL Database: Checking...";
      fixedServiceStatus := "JMC FIXED Service: Checking...";
      commerceClientStatus := "Commerce_Client: Waiting for services...";
      startupStatus := "Startup Registration: Checking...";
      isRetryEnabled := false;
      isLaunching := false;
      calls := [];
    }

    function Snapshot(): Panel
      reads this
    {
      Panel(statusMessage, postgresStatus, fixedServiceStatus, commerceClientStatus, startupStatus,
            isRetryEnabled, isLaunching)
    }

    /** `RetryCommand`'s can-execute test. */
    predicate CanRetry()
      reads this
    {
      isRetryEnabled
    }

    /** `InitializeAsync`: runs the sequence once. */
    method Initialize(env: Collaborators)
      modifies this
      ensures Snapshot() == Sequence(old(Snapshot()), env).panel
      ensures calls == old(calls) + Sequence(old(Snapshot()), env).calls
      ensures CanRetry() && !isLaunching
    {
      StartLaunchSequence(env);
    }

    /** `RetryCommand`: runs the sequence again when Retry is enabled. */
    method Retry(env: Collaborators)
      modifies this
      ensures old(CanRetry()) ==> Snapshot() == Sequence(old(Snapshot()), env).panel
      ensures old(CanRetry()) ==> calls == old(calls) + Sequence(old(Snapshot()), env).calls
      ensures !old(CanRetry()) ==> Snapshot() == old(Snapshot()) && calls == old(calls)
    {
      if isRetryEnabled {
        StartLaunchSequence(env);
      }
    }

    /** `StartLaunchSequenceAsync`. */
    method StartLaunchSequence(env: Collaborators)
      modifies this
      ensures Snapshot() == Sequence(old(Snapshot()), env).panel
      ensures calls == old(calls) + Sequence(old(Snapshot()), env).calls
      ensures CanRetry() && !isLaunching
    {
      ghost var before := Snapshot();
      statusMessage := SequenceStartMessage;
      isRetryEnabled := false;
      isLaunching := true;
      var failure := RunSteps(before, env);
      if failure.Some? {
        statusMessage := FailedPrefix + failure.value;
        isRetryEnabled := true;
      }
      isLaunching := false;
      RunEndsIdle(before, env);
    }

    /** The `try` block of `StartLaunchSequenceAsync`: the steps, stopping at the first exception. */
    method RunSteps(ghost before: Panel, env: Collaborators) returns (failure: Option<string>)
      requires Snapshot() == Begin(before)
      modifies this
      ensures Snapshot() == ThroughCompletion(before, env).panel
      ensures calls == old(calls) + ThroughCompletion(before, env).calls
      ensures failure == ThroughCompletion(before, env).failure
    {
      failure := RunServiceSteps(before, env);
      ghost var stage := ThroughFixed(before, env);
      ghost var calls0 := old(calls);
      if failure.None? {
        ghost var t := LaunchStep(stage.panel, env);
        failure := LaunchCommerceClient(env);
        Associates(calls0, stage.calls, t.calls);
      }
      stage := ThroughLaunch(before, env);
      assert Snapshot() == stage.panel && calls == calls0 + stage.calls && failure == stage.failure;
      if failure.None? {
        ghost var t := CompletionStep(stage.panel, env);
        failure := Complete(env);
        Associates(calls0, stage.calls, t.calls);
      }
    }

    /** The first three steps: registration, then PostgreSQL, then JMC FIXED unless PostgreSQL raised. */
    method RunServiceSteps(ghost before: Panel, env: Collaborators) returns (failure: Option<string>)
      requires Snapshot() == Begin(before)
      modifies this
      ensures Snapshot() == ThroughFixed(before, env).panel
      ensures calls == old(calls) + ThroughFixed(before, env).calls
      ensures failure == ThroughFixed(before, env).failure
    {
      ghost var calls0 := calls;
      ghost var s1 := StartupStep(Begin(before), env);
      CheckAndConfigureStartup(env);
      ghost var s2 := ServiceStep(s1.panel, Postgres, env.checkPostgres, env.startPostgres);
      failure := CheckAndStartService(Postgres, env.checkPostgres, env.startPostgres);
      Associates(calls0, s1.calls, s2.calls);
      ghost var stage := ThroughPostgres(before, env);
      assert Snapshot() == stage.panel && calls == calls0 + stage.calls && failure == stage.failure;
      if failure.None? {
        ghost var t := ServiceStep(stage.panel, Fixed, env.checkFixed, env.startFixed);
        failure := CheckAndStartService(Fixed, env.checkFixed, env.startFixed);
        Associates(calls0, stage.calls, t.calls);
      }
    }

    /**
     * The end of the `try` block: the completion message, then the
     * configuration read, whose exception is returned as `failure`, then
     * the pause before minimising.
     */
    method Complete(env: Collaborators) returns (failure: Option<string>)
      modifies this
      ensures Snapshot() == CompletionStep(old(Snapshot()), env).panel
      ensures calls == old(calls) + CompletionStep(old(Snapshot()), env).calls
      ensures failure == CompletionStep(old(Snapshot()), env).failure
    {
      statusMessage := CompletedMessage;
      isRetryEnabled := true;
      calls := calls + [GetConfiguration];
      match env.minimizeOnComplete
      case Returns(minimize) =>
        if minimize {
          calls := calls + [Delay(5000)];
        }
        return None;
      case Throws(m) =>
        return Some(m);
    }

    /** `CheckAndConfigureStartupAsync`. */
    method CheckAndConfigureStartup(env: Collaborators)
      modifies this
      ensures Snapshot() == StartupStep(old(Snapshot()), env).panel
      ensures calls == old(calls) + StartupStep(old(Snapshot()), env).calls
    {
      statusMessage := ConfiguringMessage;
      calls := calls + [IsSetToStartup];
      match env.isSetToStartup
      case Throws(m) =>
        startupStatus := StartupError(m);
      case Returns(isRegistered) =>
        if isRegistered {
          startupStatus := StartupLabel + "Already configured ✓";
        } else {
          ghost var queried := Snapshot();
          AddAndRequery(env);
          Associates(old(calls), [IsSetToStartup], Register(queried, env).calls);
        }
    }

    /** The `else` branch of `CheckAndConfigureStartupAsync`: `AddToStartupAsync`, then the re-query. */
    method AddAndRequery(env: Collaborators)
      modifies this
      ensures Snapshot() == Register(old(Snapshot()), env).panel
      ensures calls == old(calls) + Register(old(Snapshot()), env).calls
    {
      calls := calls + [AddToStartup];
      match env.addToStartup
      case Throws(m) =>
        startupStatus := StartupError(m);
      case Returns(_) =>
        calls := calls + [IsSetToStartup];
        match env.isSetAfterAdd
        case Throws(m) =>
          startupStatus := StartupError(m);
        case Returns(success) =>
          startupStatus := if success then StartupLabel + "Successfully configured ✓"
                           else StartupLabel + "Failed to configure ✗";
    }

    method SetLine(service: Service, line: string)
      modifies this
      ensures Snapshot() == WithLine(old(Snapshot()), service, line) && calls == old(calls)
    {
      match service
      case Postgres => postgresStatus := line;
      case Fixed => fixedServiceStatus := line;
    }

    /**
     * `CheckAndStartPostgreSQLAsync` and `CheckAndStartFixedServiceAsync`;
     * the exception either one raises is returned as `failure`.
     */
    method CheckAndStartService(service: Service, check: Reply<ServiceStatus>, start: Reply<bool>)
      returns (failure: Option<string>)
      modifies this
      ensures Snapshot() == ServiceStep(old(Snapshot()), service, check, start).panel
      ensures calls == old(calls) + ServiceStep(old(Snapshot()), service, check, start).calls
      ensures failure == ServiceStep(old(Snapshot()), service, check, start).failure
    {
      statusMessage := CheckingMessage(service);
      SetLine(service, Label(service) + "Checking status...");
      calls := calls + [CheckService(service)];
      match check
      case Throws(m) =>
        return Some(m);
      case Returns(status) =>
        ghost var probed := Snapshot();
        failure := StartIfStopped(service, status, start);
        Associates(old(calls), [CheckService(service)], AfterProbe(probed, service, status, start).calls);
    }

    /** The part of a service step after the probe: the running case, or the start and its outcome. */
    method StartIfStopped(service: Service, status: ServiceStatus, start: Reply<bool>)
      returns (failure: Option<string>)
      modifies this
      ensures Snapshot() == AfterProbe(old(Snapshot()), service, status, start).panel
      ensures calls == old(calls) + AfterProbe(old(Snapshot()), service, status, start).calls
      ensures failure == AfterProbe(old(Snapshot()), service, status, start).failure
    {
      if status.isRunning {
        SetLine(service, Label(service) + "Running ✓");
        return None;
      }
      SetLine(service, Label(service) + "Starting...");
      statusMessage := StartingMessage(service);
      calls := calls + [StartService(service)];
      match start
      case Throws(m) =>
        return Some(m);
      case Returns(started) =>
        if started {
          SetLine(service, Label(service) + "Successfully started ✓");
          return None;
        }
        var errorMsg := if IsEmpty(status.errorMessage) then DefaultReason else status.errorMessage;
        SetLine(service, Label(service) + errorMsg + " ✗");
        return Some(FailurePrefix(service) + errorMsg);
    }

    /** `LaunchCommerceClientAsync`; a refused launch is returned as `failure`. */
    method LaunchCommerceClient(env: Collaborators) returns (failure: Option<string>)
      modifies this
      ensures Snapshot() == LaunchStep(old(Snapshot()), env).panel
      ensures calls == old(calls) + LaunchStep(old(Snapshot()), env).calls
      ensures failure == LaunchStep(old(Snapshot()), env).failure
    {
      statusMessage := LaunchingMessage;
      commerceClientStatus := ClientLabel + "Launching...";
      calls := calls + [LaunchClient];
      match env.launchClient
      case Throws(m) =>
        return Some(m);
      case Returns(launched) =>
        if launched {
          commerceClientStatus := ClientLabel + "Successfully launched ✓";
          return None;
        }
        commerceClientStatus := ClientLabel + "Failed to launch - check configuration ✗";
        return Some(LaunchRefusedMessage);
    }
  }
}
