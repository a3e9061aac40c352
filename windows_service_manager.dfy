/**
 * The MAUI Windows service adapter (`WindowsServiceManager`): probes report
 * failures as `Error` with the exception text, the PostgreSQL helpers try
 * five service names in order, the FIXED helpers use the name "fixed".
 */
module WindowsServiceManager {
  import SC = ServiceControl
  import opened ServiceContract

  const PostgresNames: seq<string> :=
    ["postgresql-x64-16", "postgresql-x64-15", "postgresql-x64-14", "postgresql", "PostgreSQL"]
  const PostgresDisplayName := "PostgreSQL Database Server"
  const FixedName := "fixed"
  const FixedDisplayName := "JMC FIXED"

  /** The record synthesised when no PostgreSQL candidate answers. */
  const PostgresNotFound :=
    ServiceStatus("PostgreSQL", PostgresDisplayName, Error, false, "PostgreSQL service not found")

  /** `ConvertServiceControllerStatus`: total, four states named, everything else Unknown, never Error. */
  function ConvertServiceControllerStatus(status: SC.ControllerStatus): (s: ServiceState)
    ensures s != Error
    ensures s == Running <==> status == SC.Running
    ensures s == Stopped <==> status == SC.Stopped
    ensures s == Starting <==> status == SC.StartPending
    ensures s == Stopping <==> status == SC.StopPending
    ensures s == Unknown <==> status in {SC.ContinuePending, SC.PausePending, SC.Paused}
  {
    match status
    case Stopped => Stopped
    case Running => Running
    case StartPending => Starting
    case StopPending => Stopping
    case _ => Unknown
  }

  /**
   * `CheckServiceStatusAsync`: never throws; running iff the controller
   * reports Running; a name that cannot be opened gives `Error`, not running,
   * and the exception text.
   */
  function CheckServiceStatus(services: map<string, SC.ControllerStatus>, openError: string -> string, name: string):
    (s: ServiceStatus)
    ensures s.name == name && s.displayName == ""
    ensures s.isRunning <==> name in services && services[name] == SC.Running
    ensures s.isRunning <==> s.status == Running
    ensures name in services ==> Answered(s) && s.status != Error
    ensures name !in services ==> s.status == Error && s.errorMessage == openError(name)
  {
    if name in services then
      ServiceStatus(name, "", ConvertServiceControllerStatus(services[name]), services[name] == SC.Running, "")
    else
      ServiceStatus(name, "", Error, false, openError(name))
  }

  /** The position of the first of `names` whose probe answers without an error, or `|names|`. */
  function FirstAnswering(services: map<string, SC.ControllerStatus>, openError: string -> string, names: seq<string>):
    (k: nat)
    ensures k <= |names|
    ensures forall j :: 0 <= j < k ==> !Answered(CheckServiceStatus(services, openError, names[j]))
    ensures k < |names| ==> Answered(CheckServiceStatus(services, openError, names[k]))
    decreases |names|
  {
    if names == [] then 0
    else if Answered(CheckServiceStatus(services, openError, names[0])) then 0
    else 1 + FirstAnswering(services, openError, names[1..])
  }

  /** What `CheckPostgreSQLServiceAsync` reports on a given service table. */
  function PostgresProbe(services: map<string, SC.ControllerStatus>, openError: string -> string): ServiceStatus {
    var k := FirstAnswering(services, openError, PostgresNames);
    if k < |PostgresNames| then CheckServiceStatus(services, openError, PostgresNames[k]).(displayName := PostgresDisplayName)
    else PostgresNotFound
  }

  /**
   * `CheckPostgreSQLServiceAsync`: the first candidate, in list order, whose
   * probe has an empty error message, relabelled "PostgreSQL Database
   * Server"; the not-found record when none answers.
   */
  method CheckPostgreSQLService(host: SC.ServiceHost) returns (status: ServiceStatus)
    ensures status == PostgresProbe(host.services, host.openError)
    ensures status.displayName == PostgresDisplayName
    ensures status.isRunning ==> exists n :: n in PostgresNames && n in host.services && host.services[n] == SC.Running
  {
    var i := 0;
    while i < |PostgresNames|
      invariant 0 <= i <= |PostgresNames|
      invariant forall j :: 0 <= j < i ==> !Answered(CheckServiceStatus(host.services, host.openError, PostgresNames[j]))
    {
      var candidate := CheckServiceStatus(host.services, host.openError, PostgresNames[i]);
      if Answered(candidate) {
        return candidate.(displayName := PostgresDisplayName);
      }
      i := i + 1;
    }
    return PostgresNotFound;
  }

  /**
   * `StartPostgreSQLServiceAsync`: `StartService` on each candidate in turn,
   * stopping at the first that succeeds; false only when all five fail.
   */
  method StartPostgreSQLService(host: SC.ServiceHost) returns (started: bool)
    modifies host
    ensures var k := SC.FirstStartable(old(host.services), host.onStart, PostgresNames);
      && started == (k < |PostgresNames|)
      && host.services == SC.AttemptAll(old(host.services), host.onStart, PostgresNames[..if started then k + 1 else |PostgresNames|])
  {
    PostgresNamesDistinct();
    started := StartFirstOf(host, PostgresNames);
  }

  /** Tries `names` in order and stops at the first that starts. */
  method StartFirstOf(host: SC.ServiceHost, names: seq<string>) returns (started: bool)
    requires SC.Distinct(names)
    modifies host
    ensures var k := SC.FirstStartable(old(host.services), host.onStart, names);
      && started == (k < |names|)
      && host.services == SC.AttemptAll(old(host.services), host.onStart, names[..if started then k + 1 else |names|])
  {
    var i := 0;
    while i < |names|
      invariant 0 <= i <= |names|
      invariant forall j :: 0 <= j < i ==> !SC.StartSucceeds(old(host.services), host.onStart, names[j])
      invariant host.services == SC.AttemptAll(old(host.services), host.onStart, names[..i])
    {
      var name := names[i];
      assert name !in names[..i];
      SC.AttemptAllFrame(old(host.services), host.onStart, names[..i], name);
      var ok := SC.StartService(host, name);
      assert names[..i + 1][..i] == names[..i];
      if ok {
        return true;
      }
      i := i + 1;
    }
    assert names[..i] == names;
    return false;
  }

  /**
   * The PostgreSQL probe comes back without an error exactly when some
   * candidate is installed, or fails with an empty exception text (which the
   * emptiness test cannot tell from success).
   */
  lemma PostgresProbeAnswers(services: map<string, SC.ControllerStatus>, openError: string -> string)
    ensures Answered(PostgresProbe(services, openError)) <==>
      exists n :: n in PostgresNames && (n in services || openError(n) == "")
  {
    var k := FirstAnswering(services, openError, PostgresNames);
    if k < |PostgresNames| {
      assert PostgresNames[k] in PostgresNames;
    } else {
      forall n | n in PostgresNames ensures n !in services && openError(n) != "" {
        var j :| 0 <= j < |PostgresNames| && PostgresNames[j] == n;
        assert !Answered(CheckServiceStatus(services, openError, PostgresNames[j]));
      }
    }
  }

  /** The candidate service names are pairwise different. */
  lemma PostgresNamesDistinct()
    ensures SC.Distinct(PostgresNames)
  {
  }

  /** `CheckFixedServiceAsync`: the probe of "fixed", relabelled "JMC FIXED". */
  function CheckFixedService(services: map<string, SC.ControllerStatus>, openError: string -> string): (s: ServiceStatus)
    ensures s.name == FixedName && s.displayName == FixedDisplayName
    ensures s.isRunning <==> FixedName in services && services[FixedName] == SC.Running
  {
    CheckServiceStatus(services, openError, FixedName).(displayName := FixedDisplayName)
  }

  /** `StartFixedServiceAsync`: `StartService("fixed")`. */
  method StartFixedService(host: SC.ServiceHost) returns (started: bool)
    modifies host
    ensures started == SC.StartSucceeds(old(host.services), host.onStart, FixedName)
    ensures host.services == SC.AfterStart(old(host.services), host.onStart, FixedName)
  {
    started := SC.StartService(host, FixedName);
  }
}
