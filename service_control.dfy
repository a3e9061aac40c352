/**
 * The Windows service control manager as the launcher sees it through
 * `System.ServiceProcess.ServiceController`: a table of installed services
 * and their states, plus how each service reacts when asked to start. The
 * start routine below is the one both service adapters (the MAUI
 * `WindowsServiceManager` and the desktop `ServiceManager`) share verbatim.
 */
module ServiceControl {

  /** `ServiceControllerStatus`, the state the controller reports. */
  datatype ControllerStatus =
    | Stopped | StartPending | StopPending | Running | ContinuePending | PausePending | Paused

  /** What happens when a stopped service is told to `Start()` and waited on for 30 seconds. */
  datatype StartEffect =
    | ReachesRunning  // the service reports Running before the wait ends
    | StillPending    // the wait times out with the service still StartPending
    | Refused         // `Start()` itself throws (disabled service, access denied, ...)

  /** The state a stopped service is left in by `Start()` followed by the wait. */
  function StatusAfterStart(effect: StartEffect): ControllerStatus {
    match effect
    case ReachesRunning => Running
    case StillPending => StartPending
    case Refused => Stopped
  }

  /**
   * The machine's services. A name absent from `services` cannot be opened:
   * reading its status throws, with the message `openError(name)`.
   */
  class ServiceHost {
    var services: map<string, ControllerStatus>
    const openError: string -> string
    const onStart: string -> StartEffect

    constructor (services: map<string, ControllerStatus>, openError: string -> string, onStart: string -> StartEffect)
      ensures this.services == services && this.openError == openError && this.onStart == onStart
    {
      this.services := services;
      this.openError := openError;
      this.onStart := onStart;
    }
  }

  /** `StartService(name)` answers true: the service is Running, or Stopped and comes up within the wait. */
  predicate StartSucceeds(services: map<string, ControllerStatus>, onStart: string -> StartEffect, name: string) {
    name in services &&
    (services[name] == Running || (services[name] == Stopped && onStart(name) == ReachesRunning))
  }

  /** The service table after `StartService(name)`: only a stopped service is told to start. */
  function AfterStart(services: map<string, ControllerStatus>, onStart: string -> StartEffect, name: string):
    map<string, ControllerStatus>
  {
    if name in services && services[name] == Stopped then services[name := StatusAfterStart(onStart(name))]
    else services
  }

  /**
   * `StartServiceAsync` / `StartService`: Running answers true without
   * starting; Stopped is started, waited on, and answers whether it is now
   * Running; any other state answers false; every exception answers false.
   */
  method StartService(host: ServiceHost, name: string) returns (started: bool)
    modifies host
    ensures started == StartSucceeds(old(host.services), host.onStart, name)
    ensures host.services == AfterStart(old(host.services), host.onStart, name)
    ensures started <==> name in host.services && host.services[name] == Running
  {
    if name !in host.services {
      // Refresh() throws: the exception is caught and reported as false
      return false;
    }
    var status := host.services[name];
    if status == Running {
      return true;
    }
    if status == Stopped {
      match host.onStart(name)
      case Refused =>
        // Start() throws
        return false;
      case StillPending =>
        // WaitForStatus times out and throws
        host.services := host.services[name := StartPending];
        return false;
      case ReachesRunning =>
        host.services := host.services[name := Running];
        return host.services[name] == Running;
    }
    return false;
  }

  /** A name list without repetitions. */
  predicate Distinct(names: seq<string>) {
    forall i, j :: 0 <= i < j < |names| ==> names[i] != names[j]
  }

  /** `StartService` tried on each of `names` in turn. */
  function AttemptAll(services: map<string, ControllerStatus>, onStart: string -> StartEffect, names: seq<string>):
    map<string, ControllerStatus>
    decreases |names|
  {
    if names == [] then services
    else AfterStart(AttemptAll(services, onStart, names[..|names| - 1]), onStart, names[|names| - 1])
  }

  /** Starting some services leaves every other service as it was. */
  lemma {:induction false} AttemptAllFrame(
    services: map<string, ControllerStatus>, onStart: string -> StartEffect, names: seq<string>, other: string)
    requires other !in names
    ensures other in AttemptAll(services, onStart, names) <==> other in services
    ensures other in services ==> AttemptAll(services, onStart, names)[other] == services[other]
    decreases |names|
  {
    if names != [] {
      AttemptAllFrame(services, onStart, names[..|names| - 1], other);
    }
  }

  /** The position of the first of `names` whose start succeeds on `services`, or `|names|`. */
  function FirstStartable(services: map<string, ControllerStatus>, onStart: string -> StartEffect, names: seq<string>):
    (k: nat)
    ensures k <= |names|
    ensures forall j :: 0 <= j < k ==> !StartSucceeds(services, onStart, names[j])
    ensures k < |names| ==> StartSucceeds(services, onStart, names[k])
    decreases |names|
  {
    if names == [] then 0
    else if StartSucceeds(services, onStart, names[0]) then 0
    else 1 + FirstStartable(services, onStart, names[1..])
  }
}
