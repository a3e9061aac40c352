/**
 * The desktop service adapter (`ServiceManager` of the WPF launcher; the
 * portable build carries the same class). Its `ServiceStatus` keeps the raw
 * controller status and a nullable error message; a probe that fails is
 * reported as Stopped (not as an error state).
 */
module DesktopServiceManager {
  import SC = ServiceControl
  import opened Wrappers

  const PostgresNames: seq<string> :=
    ["postgresql-x64-16", "postgresql-x64-15", "postgresql-x64-14", "postgresql", "PostgreSQL"]
  const PostgresDisplayName := "PostgreSQL Database Server"
  const FixedName := "fixed"
  const FixedDisplayName := "JMC FIXED"

  /** `ServiceStatus` of the desktop build; `None` stands for a null string. */
  datatype ServiceStatus = ServiceStatus(
    name: string,
    displayName: Option<string>,
    status: SC.ControllerStatus,
    isRunning: bool,
    errorMessage: Option<string>)

  const PostgresNotFound :=
    ServiceStatus("PostgreSQL", Some(PostgresDisplayName), SC.Stopped, false, Some("PostgreSQL service not found"))

  /**
   * `CheckServiceStatus`: never throws; a successful probe leaves the error
   * message null and is running iff the controller reports Running; a name
   * that cannot be opened gives Stopped, not running, and the exception text.
   */
  function CheckServiceStatus(services: map<string, SC.ControllerStatus>, openError: string -> string, name: string):
    (s: ServiceStatus)
    ensures s.name == name && s.displayName == None
    ensures s.isRunning <==> name in services && services[name] == SC.Running
    ensures s.isRunning <==> s.status == SC.Running
    ensures s.errorMessage == None <==> name in services
    ensures name !in services ==> s.status == SC.Stopped && s.errorMessage == Some(openError(name))
  {
    if name in services then
      ServiceStatus(name, None, services[name], services[name] == SC.Running, None)
    else
      ServiceStatus(name, None, SC.Stopped, false, Some(openError(name)))
  }

  /** The position of the first installed name among `names`, or `|names|`. */
  function FirstInstalled(services: map<string, SC.ControllerStatus>, names: seq<string>): (k: nat)
    ensures k <= |names|
    ensures forall j :: 0 <= j < k ==> names[j] !in services
    ensures k < |names| ==> names[k] in services
    decreases |names|
  {
    if names == [] then 0
    else if names[0] in services then 0
    else 1 + FirstInstalled(services, names[1..])
  }

  /** What `CheckPostgreSQLService` reports on a given service table. */
  function PostgresProbe(services: map<string, SC.ControllerStatus>, openError: string -> string): ServiceStatus {
    var k := FirstInstalled(services, PostgresNames);
    if k < |PostgresNames| then CheckServiceStatus(services, openError, PostgresNames[k]).(displayName := Some(PostgresDisplayName))
    else PostgresNotFound
  }

  /**
   * `CheckPostgreSQLService`: the first candidate whose probe has a null
   * error message, relabelled; otherwise the synthesised not-found record
   * (Stopped, not running).
   */
  method CheckPostgreSQLService(host: SC.ServiceHost) returns (status: ServiceStatus)
    ensures status == PostgresProbe(host.services, host.openError)
    ensures status.displayName == Some(PostgresDisplayName)
    ensures status.errorMessage == None <==> exists n :: n in PostgresNames && n in host.services
  {
    var i := 0;
    while i < |PostgresNames|
      invariant 0 <= i <= |PostgresNames|
      invariant forall j :: 0 <= j < i ==> PostgresNames[j] !in host.services
    {
      var candidate := CheckServiceStatus(host.services, host.openError, PostgresNames[i]);
      if candidate.errorMessage == None {
        return candidate.(displayName := Some(PostgresDisplayName));
      }
      i := i + 1;
    }
    return PostgresNotFound;
  }

  /**
   * `StartPostgreSQLService`: each candidate is opened and refreshed (a
   * failure skips to the next name) and then started; the first success
   * ends the scan; false only when all five fail.
   */
  method StartPostgreSQLService(host: SC.ServiceHost) returns (started: bool)
    modifies host
    ensures var k := SC.FirstStartable(old(host.services), host.onStart, PostgresNames);
      && started == (k < |PostgresNames|)
      && host.services == SC.AttemptAll(old(host.services), host.onStart, PostgresNames[..if started then k + 1 else |PostgresNames|])
  {
    PostgresNamesDistinct();
    started := StartFirstOf(host, PostgresNames);
  }

  /** Tries `names` in order and stops at the first that starts. */
  method StartFirstOf(host: SC.ServiceHost, names: seq<string>) returns (started: bool)
    requires SC.Distinct(names)
    modifies host
    ensures var k := SC.FirstStartable(old(host.services), host.onStart, names);
      && started == (k < |names|)
      && host.services == SC.AttemptAll(old(host.services), host.onStart, names[..if started then k + 1 else |names|])
  {
    var i := 0;
    while i < |names|
      invariant 0 <= i <= |names|
      invariant forall j :: 0 <= j < i ==> !SC.StartSucceeds(old(host.services), host.onStart, names[j])
      invariant host.services == SC.AttemptAll(old(host.services), host.onStart, names[..i])
    {
      var name := names[i];
      assert name !in names[..i];
      SC.AttemptAllFrame(old(host.services), host.onStart, names[..i], name);
      assert names[..i + 1][..i] == names[..i];
      if name !in host.services {
        // opening the controller throws: move on to the next name
        i := i + 1;
        continue;
      }
      var ok := SC.StartService(host, name);
      if ok {
        return true;
      }
      i := i + 1;
    }
    assert names[..i] == names;
    return false;
  }

  /** The candidate service names are pairwise different. */
  lemma PostgresNamesDistinct()
    ensures SC.Distinct(PostgresNames)
  {
  }

  /** `CheckFixedService`: the probe of "fixed", relabelled "JMC FIXED". */
  function CheckFixedService(services: map<string, SC.ControllerStatus>, openError: string -> string): (s: ServiceStatus)
    ensures s.name == FixedName && s.displayName == Some(FixedDisplayName)
    ensures s.isRunning <==> FixedName in services && services[FixedName] == SC.Running
  {
    CheckServiceStatus(services, openError, FixedName).(displayName := Some(FixedDisplayName))
  }

  /** `StartFixedService`: `StartService("fixed")`. */
  method StartFixedService(host: SC.ServiceHost) returns (started: bool)
    modifies host
    ensures started == SC.StartSucceeds(old(host.services), host.onStart, FixedName)
    ensures host.services == SC.AfterStart(old(host.services), host.onStart, FixedName)
  {
    started := SC.StartService(host, FixedName);
  }
}
