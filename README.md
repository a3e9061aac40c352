# POSLauncher, modelled in Dafny

POSLauncher is a Windows point-of-sale launcher. At start-up it works through four steps:

1. It makes sure it is registered to run at boot (the `Run` key under `HKEY_LOCAL_MACHINE`).
2. It makes sure the PostgreSQL service is running.
3. It makes sure the JMC FIXED service (service name `fixed`) is running.
4. It launches the Commerce_Client application.

Each step shows a status line, and a Retry action runs the whole sequence again. The client path comes from a JSON
configuration file. When that path is empty or missing, the launcher looks for a desktop shortcut and writes what it
finds back to the configuration. The repository has three front ends: a .NET MAUI app (a view model), a WPF window,
and a portable WPF build. Each has its own copies of the adapters.

This project models the launch sequence and the adapters it drives:

- the service probe and start rules, and the ordered search over PostgreSQL service names;
- the client launcher and its shortcut discovery;
- the two configuration stores;
- the two startup registrars;
- the MAUI status-to-colour classifier.

The model treats what the operating system does as input:

- the service table is a map from service name to controller state, with an oracle for how a start attempt ends;
- the file system is a set of existing paths;
- the registry `Run` key is a map, which may be missing or unreadable, or refuse writes;
- process start and the COM shortcut reader are functions.

The three orchestrators are classes whose methods update their fields step by step. Each method is proved equal to a
step function over a value snapshot of the fields. The properties of a run are proved as lemmas about those functions.

The modules are:

- `Wrappers`: `Option`, and `Reply`, which is a value or an exception with its message.
- `Text`: substring search and `string.Replace`.
- `Paths`: `Path.Combine` and the first existing file in a list.
- `StatusToColorConverter`: the colour classifier.
- `ServiceControl`: the service table and the start routine both adapters share.
- `ServiceContract`: the MAUI `ServiceStatus` and `ServiceState`.
- `WindowsServiceManager`: the MAUI service adapter.
- `DesktopServiceManager`: the desktop service adapter. The WPF and portable builds carry the same class.
- `Registry`, `DesktopStartupManager` and `WindowsStartupManager`: the `Run` key and the two registrars.
- `ConfigurationJson`, `DesktopConfiguration` and `MauiConfiguration`: the JSON binding and the two configuration stores.
- `ClientDiscovery`: shortcut discovery and process start, shared by the launchers.
- `DesktopClientLauncher`, `PortableClientLauncher` and `MauiApplicationLauncher`: the three client launchers.
- `LaunchSequence`: the vocabulary the three orchestrators share.
- `MainPageViewModel`: the MAUI orchestrator.
- `DesktopMainWindow`: the WPF and portable main windows.

## Model

| member | source | states |
|---|---|---|
| StatusToColorConverter.Convert | POSLauncher.Maui/Converters/StatusToColorConverter.cs:7-26 | Green iff the value is a string with "✓", "Successfully" or "Running". Red iff it has none of those but has "✗", "Failed" or "Error". Orange iff it has none of the six but has "Starting" or "Checking". Gray for every other string and for a non-string; exactly one colour always. |
| StatusToColorConverter.Ticked | POSLauncher.Maui/Converters/StatusToColorConverter.cs:11-14 | Any string containing "✓" is green, whatever failure words it also holds, because the success test comes first. |
| StatusToColorConverter.Crossed | POSLauncher.Maui/Converters/StatusToColorConverter.cs:15-18 | A string with "✗" and no success marker is red. |
| StatusToColorConverter.FailureLineColor | POSLauncher.Maui/Converters/StatusToColorConverter.cs:11-18 | A failure line `label + reason + " ✗"` is red unless the reason itself carries a success marker, in which case it is green. |
| WindowsServiceManager.ConvertServiceControllerStatus | POSLauncher.Maui/Platforms/Windows/WindowsServiceManager.cs:119-129 | Running, Stopped, StartPending and StopPending map one-to-one to Running, Stopped, Starting and Stopping; each mapping holds both ways. The three paused states map to Unknown, and Error is never produced. |
| WindowsServiceManager.CheckServiceStatus | POSLauncher.Maui/Platforms/Windows/WindowsServiceManager.cs:8-33 | Never fails. IsRunning holds iff the service exists and reports Running, which is also iff the converted state is Running. A service that can be opened answers with an empty error and a non-Error state. One that cannot gives Error with the exception's text. |
| ServiceControl.StartService | POSLauncher/Services/ServiceManager.cs:37-63 | Answers true iff the service exists and is Running, or is Stopped and reaches Running within the wait. Only a stopped service is started. The answer is true iff the service is Running afterwards. A missing service answers false and changes nothing. |
| WindowsServiceManager.FirstAnswering | POSLauncher.Maui/Platforms/Windows/WindowsServiceManager.cs:65-76 | The index of the first candidate name whose probe answers with an empty error; every earlier name failed to answer. |
| WindowsServiceManager.CheckPostgreSQLService | POSLauncher.Maui/Platforms/Windows/WindowsServiceManager.cs:63-85 | The loop returns the probe of the first answering candidate, in list order, with DisplayName "PostgreSQL Database Server". Otherwise it returns the "PostgreSQL service not found" record. A running result means some candidate is installed and Running. |
| WindowsServiceManager.PostgresProbeAnswers | POSLauncher.Maui/Platforms/Windows/WindowsServiceManager.cs:77-84 | The PostgreSQL probe answers without error iff one of the five candidate names is installed or fails to open with an empty exception text, which the source's null-or-empty test cannot tell from success. |
| WindowsServiceManager.StartPostgreSQLService | POSLauncher.Maui/Platforms/Windows/WindowsServiceManager.cs:87-105 | True iff some candidate starts. Candidates are tried in order and none after the first that starts. The service table is what starting exactly those candidates leaves. |
| WindowsServiceManager.CheckFixedService | POSLauncher.Maui/Platforms/Windows/WindowsServiceManager.cs:107-112 | Probes exactly "fixed", names it "JMC FIXED", and is running iff "fixed" is installed and Running. |
| WindowsServiceManager.StartFixedService | POSLauncher.Maui/Platforms/Windows/WindowsServiceManager.cs:114-117 | The shared start rule applied to "fixed" alone. |
| DesktopServiceManager.CheckServiceStatus | POSLauncher/Services/ServiceManager.cs:10-35 | Never fails. An openable service leaves ErrorMessage null and is running iff Running. One that cannot be opened is reported Stopped (not an error state), not running, with the exception's message. |
| DesktopServiceManager.FirstInstalled | POSLauncher.Portable/Services/ServiceManager.cs:67-77 | The index of the first candidate whose probe leaves ErrorMessage null; no earlier candidate is installed. |
| DesktopServiceManager.CheckPostgreSQLService | POSLauncher/Services/ServiceManager.cs:65-87 | The loop returns the first installed candidate's probe with DisplayName set, else the Stopped "PostgreSQL service not found" record. ErrorMessage is null iff some candidate is installed. |
| DesktopServiceManager.StartPostgreSQLService | POSLauncher.Portable/Services/ServiceManager.cs:89-111 | True at the first candidate that starts, with no later candidate touched. False only after all five fail; a candidate that cannot be opened is skipped. |
| DesktopServiceManager.CheckFixedService | POSLauncher.Portable/Services/ServiceManager.cs:113-118 | Probes exactly "fixed" with DisplayName "JMC FIXED"; running iff "fixed" is installed and Running. |
| DesktopServiceManager.StartFixedService | POSLauncher/Services/ServiceManager.cs:120-123 | The shared start rule applied to "fixed" alone. |
| Registry.EnsureIdempotent | POSLauncher/Services/StartupManager.cs:64-70 | Ensuring registration twice changes nothing more than ensuring it once. An existing entry is left as it is. A writable, readable, present key ends up registered. |
| DesktopStartupManager.Quoted | POSLauncher/Services/StartupManager.cs:36 | The stored value is the path between two double quotes. |
| DesktopStartupManager.StartupManager.RegistrationValue | POSLauncher/Services/StartupManager.cs:32-36 | The quoted `BaseDirectory/POSLauncher.exe`, ending in `POSLauncher.exe"`. |
| DesktopStartupManager.StartupManager.IsSetToStartup | POSLauncher/Services/StartupManager.cs:13-26 | True iff the key is readable, present and holds a "POSLauncher" value; any failure answers false. |
| DesktopStartupManager.StartupManager.AddToStartup | POSLauncher/Services/StartupManager.cs:28-45 | Writes the registration value under "POSLauncher" and answers true. It answers true also when the key is missing and nothing is written. A refused write answers false. |
| DesktopStartupManager.StartupManager.RemoveFromStartup | POSLauncher/Services/StartupManager.cs:47-62 | Deletes the entry, tolerating its absence, and answers true; afterwards no entry is present. A refused write answers false and changes nothing. |
| DesktopStartupManager.StartupManager.EnsureStartupRegistration | POSLauncher/Services/StartupManager.cs:64-70 | Adds the entry only when it is not already set. |
| WindowsStartupManager.ExecutablePath | POSLauncher.Maui/Platforms/Windows/WindowsStartupManager.cs:31-35 | A path ending in ".dll" has every ".dll" replaced by ".exe" and then ends in ".exe". Any other path is unchanged. The length never changes. |
| WindowsStartupManager.DllBecomesExe | POSLauncher.Maui/Platforms/Windows/WindowsStartupManager.cs:32-34 | Replacing every ".dll" in a string that ends in ".dll" gives a string that ends in ".exe". |
| WindowsStartupManager.StartupManager.RegistrationValue | POSLauncher.Maui/Platforms/Windows/WindowsStartupManager.cs:31-39 | The quoted executable path: two characters longer than the assembly location, ending in `.exe"` when the assembly is a ".dll". |
| WindowsStartupManager.StartupManager.IsSetToStartup | POSLauncher.Maui/Platforms/Windows/WindowsStartupManager.cs:12-25 | True iff a "POSLauncher" value is present under a readable Run key; failures answer false. |
| WindowsStartupManager.StartupManager.AddToStartup | POSLauncher.Maui/Platforms/Windows/WindowsStartupManager.cs:27-48 | Stores the quoted, rewritten path and answers true, even with the key missing; a refused write answers false. |
| WindowsStartupManager.StartupManager.RemoveFromStartup | POSLauncher.Maui/Platforms/Windows/WindowsStartupManager.cs:50-65 | Deletes the entry, tolerating its absence, and answers true; a refused write answers false. |
| WindowsStartupManager.StartupManager.EnsureStartupRegistration | POSLauncher.Maui/Platforms/Windows/WindowsStartupManager.cs:67-73 | Calls add only when not registered. |
| Paths.Combine | POSLauncher/Services/ConfigurationManager.cs:15-17 | The combined path starts with the directory and ends with the name, with at most one separator added. |
| Paths.FirstExisting | POSLauncher/Services/CommerceClientLauncher.cs:125-137 | The index of the first existing path; no earlier path exists. |
| DesktopConfiguration.Serialize | POSLauncher/Services/ConfigurationManager.cs:72-78 | The written object has exactly one member per property of `Configuration`. |
| DesktopConfiguration.RoundTrip | POSLauncher/Services/ConfigurationManager.cs:55-63 | What a save writes, a later load reads back unchanged. |
| DesktopConfiguration.EmptyObjectIsDefaults | POSLauncher/Services/ConfigurationManager.cs:74-77 | An object without members loads as the defaults: empty path and arguments, AutoStartOnBoot true, timeout 30. |
| DesktopConfiguration.UnknownMemberIgnored | POSLauncher/Services/ConfigurationManager.cs:41 | A member that names no property does not change what loads. |
| DesktopConfiguration.Loaded | POSLauncher/Services/ConfigurationManager.cs:34-53 | The file's settings when it exists, is readable and parses. The defaults when it is missing, unreadable, `null`, or malformed. |
| DesktopConfiguration.Configuration.constructor | POSLauncher/Services/ConfigurationManager.cs:72-78 | A new `Configuration` holds the defaults. |
| DesktopConfiguration.ConfigurationManager.constructor | POSLauncher/Services/ConfigurationManager.cs:12-20 | The path is `<common app data>/POSLauncher/config.json`. A fresh configuration is always present, holding the loaded settings. A missing file is written with the defaults. |
| DesktopConfiguration.ConfigurationManager.GetConfiguration | POSLauncher/Services/ConfigurationManager.cs:22-25 | Returns the cached object itself, not a copy. |
| DesktopConfiguration.ConfigurationManager.UpdateCommerceClientSettings | POSLauncher/Services/ConfigurationManager.cs:27-32 | Only path and arguments change; the result is saved, and a later load reads it back. A failed save keeps the in-memory update. |
| DesktopConfiguration.ConfigurationManager.LoadConfiguration | POSLauncher/Services/ConfigurationManager.cs:34-53 | Replaces the cache with a fresh object holding `Loaded(file)`. It writes the defaults only when the file is missing. |
| DesktopConfiguration.ConfigurationManager.SaveConfiguration | POSLauncher/Services/ConfigurationManager.cs:55-69 | The file becomes the serialized configuration when writable and is untouched otherwise; failures are swallowed. |
| MauiConfiguration.Serialize | POSLauncher.Maui/Services/IConfigurationService.cs:10-17 | The written object has exactly one member per property of the six-property record. |
| MauiConfiguration.RoundTrip | POSLauncher.Maui/Services/ConfigurationService.cs:55-59 | What a save writes, a later load reads back unchanged. |
| MauiConfiguration.OlderFileKeepsNewFlagsOn | POSLauncher.Maui/Services/IConfigurationService.cs:16-17 | A file without MinimizeOnComplete and ShowStatusUpdates loads with both on. |
| MauiConfiguration.UnknownMemberIgnored | POSLauncher.Maui/Services/ConfigurationService.cs:26 | A member that names no property does not change what loads. |
| MauiConfiguration.Loaded | POSLauncher.Maui/Services/ConfigurationService.cs:21-37 | The file's settings when it exists, is readable and parses; the defaults otherwise. |
| MauiConfiguration.Configuration.constructor | POSLauncher.Maui/Services/IConfigurationService.cs:10-17 | A new record holds the defaults: empty path and arguments, AutoStartOnBoot true, timeout 30, both flags on. |
| MauiConfiguration.ConfigurationService.constructor | POSLauncher.Maui/Services/ConfigurationService.cs:10-14 | The path is `<app data>/config.json`, and nothing is loaded yet. |
| MauiConfiguration.ConfigurationService.GetConfiguration | POSLauncher.Maui/Services/ConfigurationService.cs:16-40 | Once cached, returns the same object without touching the file. The first call caches a fresh object holding `Loaded(file)`, and saves the defaults when the file is missing. |
| MauiConfiguration.ConfigurationService.UpdateCommerceClientSettings | POSLauncher.Maui/Services/ConfigurationService.cs:42-48 | Only path and arguments of the cached record change (loading it first if needed); then it is saved, and a later load reads it back. |
| MauiConfiguration.ConfigurationService.SaveConfiguration | POSLauncher.Maui/Services/ConfigurationService.cs:50-65 | The cache becomes the argument before the write, so a failed write still changes what Get returns. |
| ClientDiscovery.StartFor | POSLauncher/Services/CommerceClientLauncher.cs:36-43 | The process is started on the configured path and arguments, without the shell. |
| ClientDiscovery.FirstParsed | POSLauncher/Services/CommerceClientLauncher.cs:76-92 | The index of the first shortcut that exists and parses; every earlier one is missing or unparseable. |
| ClientDiscovery.Discover | POSLauncher/Services/CommerceClientLauncher.cs:76-98 | Discovery finds something iff some listed shortcut exists and parses. |
| ClientDiscovery.DiscoverIgnoringShortcut | POSLauncher/Services/CommerceClientLauncher.cs:107-149 | With a parser that ignores its argument, discovery finds that parser's answer as soon as any shortcut exists. |
| ClientDiscovery.NeverParsingFindsNothing | POSLauncher.Portable/Services/CommerceClientLauncher.cs:68-78 | A parser that always answers null makes discovery find nothing. |
| DesktopClientLauncher.ShortcutPaths | POSLauncher/Services/CommerceClientLauncher.cs:66-74 | Six candidates, the common desktop before the user desktop, for the three shortcut names in order. |
| DesktopClientLauncher.InstalledClient | POSLauncher/Services/CommerceClientLauncher.cs:116-141 | Some iff one of the five install paths exists. The answer is then an existing install path with empty arguments. |
| DesktopClientLauncher.DiscoveryFindsInstalledClient | POSLauncher/Services/CommerceClientLauncher.cs:55-105 | Discovery yields the installed client as soon as any candidate shortcut exists, and nothing otherwise. |
| DesktopClientLauncher.CommerceClientLauncher.constructor | POSLauncher/Services/CommerceClientLauncher.cs:14-17 | Keeps the configuration manager it is given. |
| DesktopClientLauncher.CommerceClientLauncher.ParseShortcut | POSLauncher/Services/CommerceClientLauncher.cs:107-149 | Ignores the shortcut and answers the first existing install path, or null. |
| DesktopClientLauncher.CommerceClientLauncher.TryFindCommerceClientFromDesktop | POSLauncher/Services/CommerceClientLauncher.cs:55-105 | The first existing shortcut that parses sets path and arguments through the update, and scanning stops. Otherwise the configuration and file are unchanged. |
| DesktopClientLauncher.CommerceClientLauncher.LaunchCommerceClient | POSLauncher/Services/CommerceClientLauncher.cs:19-53 | Discovery runs only when the path is empty or missing. A path still empty or missing gives false and starts nothing. Otherwise exactly one start is requested, and success is process-created-and-not-exited. The file changes only when discovery found a client and the store is writable, and then holds the saved settings. |
| PortableClientLauncher.ShortcutPaths | POSLauncher.Portable/Services/CommerceClientLauncher.cs:60-66 | Four candidates, common desktop before user desktop. |
| PortableClientLauncher.CommerceClientLauncher.ParseShortcut | POSLauncher.Portable/Services/CommerceClientLauncher.cs:87-100 | Always answers null. |
| PortableClientLauncher.CommerceClientLauncher.TryFindCommerceClientFromDesktop | POSLauncher.Portable/Services/CommerceClientLauncher.cs:53-85 | Never changes the configuration or the file. |
| PortableClientLauncher.CommerceClientLauncher.LaunchCommerceClient | POSLauncher.Portable/Services/CommerceClientLauncher.cs:17-51 | Succeeds only if the configured path already exists, then starts it without the shell; the configuration is never changed. |
| MauiApplicationLauncher.ParseLink | POSLauncher.Maui/Platforms/Windows/WindowsApplicationLauncher.cs:88-117 | A shortcut read yields a result iff COM returned a link. A null target or null arguments become "", and a COM failure yields null. |
| MauiApplicationLauncher.ShortcutPaths | POSLauncher.Maui/Platforms/Windows/WindowsApplicationLauncher.cs:59-65 | Four candidates, common desktop before user desktop. |
| MauiApplicationLauncher.NullTargetStopsSearch | POSLauncher.Maui/Platforms/Windows/WindowsApplicationLauncher.cs:67-79 | A first candidate whose link has a null target still ends the search, with an empty target path. |
| MauiApplicationLauncher.WindowsApplicationLauncher.constructor | POSLauncher.Maui/Platforms/Windows/WindowsApplicationLauncher.cs:11-14 | Keeps the configuration service it is given. |
| MauiApplicationLauncher.WindowsApplicationLauncher.FindCommerceClientFromDesktop | POSLauncher.Maui/Platforms/Windows/WindowsApplicationLauncher.cs:52-86 | True iff some existing shortcut parsed. Its target and arguments are then written to the configuration and the search stops. Otherwise the cache and file are unchanged. |
| MauiApplicationLauncher.WindowsApplicationLauncher.LaunchCommerceClient | POSLauncher.Maui/Platforms/Windows/WindowsApplicationLauncher.cs:16-50 | Discovery only when the path is empty or missing. False with no start when it still is. Otherwise one start, and success is process-created-and-not-exited. The settings are cached afterwards. The file holds the saved settings when discovery found a client and the store is writable; otherwise it is as the first load leaves it, with the defaults written when it was missing. |
| MainPageViewModel.StartupStep | POSLauncher.Maui/ViewModels/MainPageViewModel.cs:127-151 | The registration step never raises, always queries first, and calls only the two registrar operations. |
| MainPageViewModel.Register | POSLauncher.Maui/ViewModels/MainPageViewModel.cs:138-145 | Registering an unregistered application never raises and changes only the registration line. The re-query is made exactly when the add returned. |
| MainPageViewModel.RegistrationOutcome | POSLauncher.Maui/ViewModels/MainPageViewModel.cs:131-150 | Already registered: "Already configured ✓" with no add. Otherwise add, then the line follows the re-query. An exception becomes an "Error - … ✗" line and does not stop the run. |
| MainPageViewModel.ServiceStep | POSLauncher.Maui/ViewModels/MainPageViewModel.cs:153-183 | A service step probes first and calls only that service's probe and start. |
| MainPageViewModel.RunningServiceNotStarted | POSLauncher.Maui/ViewModels/MainPageViewModel.cs:158-164 | A running service is not started, and its line reads "… Running ✓". |
| MainPageViewModel.FailedStart | POSLauncher.Maui/ViewModels/MainPageViewModel.cs:177-181 | A failed start puts the probe's error, or "Failed to start" when it is empty, on the line after a ✗. It raises "Failed to start PostgreSQL: " (or the FIXED text) plus that reason. The other lines are untouched. |
| MainPageViewModel.LaunchStep | POSLauncher.Maui/ViewModels/MainPageViewModel.cs:217-233 | The launch step makes exactly one launch call. |
| MainPageViewModel.CompletionStep | POSLauncher.Maui/ViewModels/MainPageViewModel.cs:105-114 | The success tail reads the configuration first. |
| MainPageViewModel.ThroughPostgres | POSLauncher.Maui/ViewModels/MainPageViewModel.cs:100-101 | Registration plus the PostgreSQL step succeed iff PostgreSQL is up. |
| MainPageViewModel.StagesExtend | POSLauncher.Maui/ViewModels/MainPageViewModel.cs:98-115 | Once a step raises, no later step runs or changes anything; otherwise each step only appends calls. |
| MainPageViewModel.ServicesStage | POSLauncher.Maui/ViewModels/MainPageViewModel.cs:100-102 | The first three steps make only registration and service calls and succeed iff both services come up. |
| MainPageViewModel.FixedOnlyAfterPostgres | POSLauncher.Maui/ViewModels/MainPageViewModel.cs:101-102 | The JMC FIXED probe is made iff PostgreSQL came up. |
| MainPageViewModel.ClientOnlyAfterServices | POSLauncher.Maui/ViewModels/MainPageViewModel.cs:100-103 | The client is launched iff both services came up. |
| MainPageViewModel.StepsRunInOrder | POSLauncher.Maui/ViewModels/MainPageViewModel.cs:98-103 | Every run starts with the registration query and always probes PostgreSQL. FIXED runs iff PostgreSQL is up, and the client iff both are. |
| MainPageViewModel.FailsIffAStepFails | POSLauncher.Maui/ViewModels/MainPageViewModel.cs:98-120 | A run raises iff a service stays down, the launch does not succeed, or the configuration read raises. |
| MainPageViewModel.FlagsDuringRun | POSLauncher.Maui/ViewModels/MainPageViewModel.cs:94-106 | IsLaunching stays true and Retry stays disabled through the launch step. The completion tail enables Retry while IsLaunching is still true. |
| MainPageViewModel.RunEndsIdle | POSLauncher.Maui/ViewModels/MainPageViewModel.cs:116-124 | Every run ends with IsLaunching false and IsRetryEnabled true. |
| MainPageViewModel.FinalMessage | POSLauncher.Maui/ViewModels/MainPageViewModel.cs:105-119 | The status ends as "Launch sequence completed successfully!" iff nothing raised. Otherwise it is "Launch sequence failed: " plus the exception's message. |
| MainPageViewModel.FailureMessageCarriesReason | POSLauncher.Maui/ViewModels/MainPageViewModel.cs:116-119 | A failed run's status carries the exception's message after the failure prefix. |
| MainPageViewModel.CompletionMessage | POSLauncher.Maui/ViewModels/MainPageViewModel.cs:105 | A run that raised nothing ends on the completion message. |
| MainPageViewModel.PostgresFailureStopsRun | POSLauncher.Maui/ViewModels/MainPageViewModel.cs:169-181 | PostgreSQL down and not starting: the run fails with "Launch sequence failed: Failed to start PostgreSQL: " plus the reason. The PostgreSQL line shows the reason. The FIXED and client lines keep what they showed before. |
| MainPageViewModel.PauseOnlyAfterSuccess | POSLauncher.Maui/ViewModels/MainPageViewModel.cs:108-114 | The 5-second pause happens iff the run succeeded with MinimizeOnComplete on. |
| MainPageViewModel.CheckingIsOrange | POSLauncher.Maui/Converters/StatusToColorConverter.cs:19-22 | "Checking status..." shows orange. |
| MainPageViewModel.StartingIsOrange | POSLauncher.Maui/Converters/StatusToColorConverter.cs:19-22 | "Starting..." shows orange. |
| MainPageViewModel.ServiceLineColor | POSLauncher.Maui/Converters/StatusToColorConverter.cs:11-22 | After a service step, the line is green when the service is up. It is orange when the probe or the start raised. After a failed start it is red, unless the reason carries a success marker. |
| MainPageViewModel.StartupLineColor | POSLauncher.Maui/Converters/StatusToColorConverter.cs:11-18 | The registration line is green when registration is in place and red when not. After an exception it is red unless the message carries a success marker. |
| MainPageViewModel.LaunchingIsGray | POSLauncher.Maui/Converters/StatusToColorConverter.cs:19-25 | "Commerce_Client: Launching..." matches no marker and shows gray. |
| MainPageViewModel.ClientLineColor | POSLauncher.Maui/Converters/StatusToColorConverter.cs:11-25 | The client line is green after a launch and red after a refused one. It stays gray when the launcher raised. |
| MainPageViewModel.MainPageViewModel.constructor | POSLauncher.Maui/ViewModels/MainPageViewModel.cs:13-19 | The field initializers. |
| MainPageViewModel.MainPageViewModel.Initialize | POSLauncher.Maui/ViewModels/MainPageViewModel.cs:87-90 | Runs the sequence once; afterwards Retry is enabled and nothing is launching. |
| MainPageViewModel.MainPageViewModel.Retry | POSLauncher.Maui/ViewModels/MainPageViewModel.cs:32 | Runs the whole sequence from the registration step iff Retry is enabled, and otherwise changes nothing. |
| MainPageViewModel.MainPageViewModel.StartLaunchSequence | POSLauncher.Maui/ViewModels/MainPageViewModel.cs:92-125 | The fields end as the sequence's final panel, and the calls made are the sequence's calls. Retry ends enabled and IsLaunching false. |
| MainPageViewModel.MainPageViewModel.Complete | POSLauncher.Maui/ViewModels/MainPageViewModel.cs:105-114 | The success tail updates the fields as its step function says and returns the configuration read's exception. |
| MainPageViewModel.MainPageViewModel.CheckAndConfigureStartup | POSLauncher.Maui/ViewModels/MainPageViewModel.cs:127-151 | The fields and calls end as the registration step says. |
| MainPageViewModel.MainPageViewModel.CheckAndStartService | POSLauncher.Maui/ViewModels/MainPageViewModel.cs:153-183 | The fields, calls and raised exception are those of the service step. |
| MainPageViewModel.MainPageViewModel.LaunchCommerceClient | POSLauncher.Maui/ViewModels/MainPageViewModel.cs:217-233 | The fields, calls and raised exception are those of the launch step. |
| DesktopMainWindow.StyleFor | POSLauncher.Portable/MainWindow.xaml.cs:184-193 | A style update always gives one of the three styles: success, error, or in progress. |
| DesktopMainWindow.StyleShowsOutcome | POSLauncher/MainWindow.xaml.cs:215-235 | true gives the success style, false the error style, and no value the in-progress style; each holds both ways, and the style gives the outcome back. |
| DesktopMainWindow.Update | POSLauncher.Portable/MainWindow.xaml.cs:178-195 | A block update sets the text and a style from which the outcome can be read back. |
| DesktopMainWindow.StartupStep | POSLauncher/MainWindow.xaml.cs:92-117 | The registration step never raises, queries first, calls only the two registrar operations, and leaves Retry and the window placement alone. |
| DesktopMainWindow.Register | POSLauncher/MainWindow.xaml.cs:103-109 | Registering an unregistered application never raises and leaves Retry and the window placement alone. The re-query is made exactly when the add returned. |
| DesktopMainWindow.RegistrationOutcome | POSLauncher/MainWindow.xaml.cs:98-115 | Already registered: success style and no add. Otherwise add, and the style follows the re-query. An exception gives the error style and does not stop the run. |
| DesktopMainWindow.ServiceStep | POSLauncher/MainWindow.xaml.cs:119-149 | A service step probes first, calls only that service's probe and start, and leaves Retry and the placement alone. |
| DesktopMainWindow.AfterProbe | POSLauncher.Portable/MainWindow.xaml.cs:95-117 | After the probe, a running service needs no call, and a stopped one exactly one start. |
| DesktopMainWindow.RunningServiceNotStarted | POSLauncher/MainWindow.xaml.cs:126-130 | A running service is not started; its block reads "… Running" in the success style. |
| DesktopMainWindow.FailedStart | POSLauncher.Portable/MainWindow.xaml.cs:142-149 | A failed start shows the probe's error, or "Failed to start" when it is null or empty, in the error style, and raises the prefixed reason. The client and registration blocks are untouched. |
| DesktopMainWindow.LaunchStep | POSLauncher/MainWindow.xaml.cs:183-199 | One launch call; Retry and placement untouched. |
| DesktopMainWindow.RefusedLaunch | POSLauncher/MainWindow.xaml.cs:190-198 | A refused launch raises "Failed to launch Commerce_Client application" and shows the error style. |
| DesktopMainWindow.CompletionStep | POSLauncher/MainWindow.xaml.cs:75-83 | The success tail pauses once and never raises. |
| DesktopMainWindow.ThroughPostgres | POSLauncher/MainWindow.xaml.cs:70-71 | Registration plus the PostgreSQL step succeed iff PostgreSQL is up. |
| DesktopMainWindow.StagesExtend | POSLauncher.Portable/MainWindow.xaml.cs:38-59 | Once a step raises, no later step runs or changes anything; otherwise each only appends calls. |
| DesktopMainWindow.ServicesStage | POSLauncher.Portable/MainWindow.xaml.cs:40-42 | The first three steps make only registration and service calls and succeed iff both services come up. |
| DesktopMainWindow.StepsRunInOrder | POSLauncher/MainWindow.xaml.cs:70-73 | Every run starts with the registration query and probes PostgreSQL. FIXED runs iff PostgreSQL is up, and the client iff both are. |
| DesktopMainWindow.FailsIffAStepFails | POSLauncher.Portable/MainWindow.xaml.cs:40-59 | A run fails iff a service stays down or the launch does not succeed. |
| DesktopMainWindow.RunEndsWithRetry | POSLauncher/MainWindow.xaml.cs:65-89 | Retry stays disabled until the steps end and is enabled at the end of every run. A failed run's status carries the exception's message, and a successful one reads the completion message. |
| DesktopMainWindow.CompletionIffSuccess | POSLauncher.Portable/MainWindow.xaml.cs:45-58 | The status ends as the completion message iff the run succeeded. |
| DesktopMainWindow.MinimizeOnlyAfterSuccess | POSLauncher/MainWindow.xaml.cs:78-83 | The pause happens iff the run succeeded. The window is minimised and leaves the taskbar only after success and only when visible; otherwise its placement is unchanged. |
| DesktopMainWindow.MainWindow.constructor | POSLauncher/MainWindow.xaml.cs:16-47 | The window starts from its layout with no calls made. |
| DesktopMainWindow.MainWindow.Loaded | POSLauncher/MainWindow.xaml.cs:49-61 | Loading runs the sequence once and leaves Retry enabled. |
| DesktopMainWindow.MainWindow.RetryClick | POSLauncher/MainWindow.xaml.cs:239-242 | An enabled Retry re-runs the whole sequence from registration; a disabled button raises no click. |
| DesktopMainWindow.MainWindow.StartLaunchSequence | POSLauncher/MainWindow.xaml.cs:63-90 | The window ends as the sequence's final window, the calls are the sequence's calls, and Retry ends enabled. |
| DesktopMainWindow.MainWindow.Complete | POSLauncher/MainWindow.xaml.cs:75-83 | The success tail updates the window as its step function says. |
| DesktopMainWindow.MainWindow.CheckAndConfigureStartup | POSLauncher.Portable/MainWindow.xaml.cs:62-86 | The window and calls end as the registration step says. |
| DesktopMainWindow.MainWindow.UpdateStartup | POSLauncher.Portable/MainWindow.xaml.cs:178-195 | `UpdateStatusBlock` on the registration block changes that block alone. |
| DesktopMainWindow.MainWindow.UpdateServiceBlock | POSLauncher/MainWindow.xaml.cs:209-237 | `UpdateStatusBlock` on a service block changes that block alone. |
| DesktopMainWindow.MainWindow.CheckAndStartService | POSLauncher/MainWindow.xaml.cs:151-181 | The window, calls and raised exception are those of the service step. |
| DesktopMainWindow.MainWindow.StartIfStopped | POSLauncher.Portable/MainWindow.xaml.cs:127-149 | The part after the probe leaves the window, calls and exception as its step function says. |
| DesktopMainWindow.MainWindow.LaunchCommerceClient | POSLauncher.Portable/MainWindow.xaml.cs:152-168 | The window, calls and raised exception are those of the launch step. |

## Left out

- The Python image scripts, the configuration pages and windows, the platform stubs for Android, iOS and Mac, and the dependency-injection set-up are not part of this model.
- `IStartupManager` is a bare interface. It is covered by the two registrar implementations.
- Windows service names are case-insensitive. The service table is keyed by the exact string.
- Timing is left out: the 30-second start wait is an outcome (`StartEffect`), and the 5-second pause is a `Delay` call in the call log.
- The orchestrators' collaborators are oracles. Each run is given their answers as values or exceptions (`Reply`). The desktop managers as modelled never raise, so the window's `Throws` cases describe only its own handling.
- A run is a single uninterrupted step. The UI lets Retry run again during the 5-second pause, because Retry is already enabled while `IsLaunching` is still true (`MainPageViewModel.FlagsDuringRun` states this). Interleaved runs are not modelled.
- `MainPageViewModel.CompletionStep`: the source waits five seconds and then does nothing; minimisation is left to a platform the code does not implement. The model records only the pause.
- `Dispatcher.Invoke`, the brush colours and the named XAML styles are left out. Only the tri-state outcome of a status block is kept.
- The window's initial texts come from the XAML layout, which is not part of this model. The constructor takes them as a parameter.
- `MainWindow_Loaded` catches exceptions from the sequence. The sequence itself catches everything, so that handler never runs and is not modelled. The constructor's failure dialog is left out too.
- `Directory.CreateDirectory` is left out: the configuration folder is assumed to exist, and unwritable storage is the `writable` flag.
- All console and debug logging is left out.
- Between the `File.Exists` check and `Process.Start` the file system does not change. A process that exits before `HasExited` is read is one `SpawnOutcome` (`Spawned(exitedAtCheck)`), not a race.
- `EndsWith(".dll")` is culture-sensitive in .NET. The model compares characters exactly.
- `ConfigurationJson.StringMember`: a JSON `null` for a string property throws in the model, where the serializer would set the property to null. The text format of the file (indentation, escapes, numbers written as text) is abstracted to a member map.
- The portable build's `ConfigurationManager` is not among its files. Its launcher is modelled against the WPF `ConfigurationManager`.
- COM shortcut reading (`WScript.Shell`) is a function from path to outcome: a link with optional target and arguments, no shortcut, or a COM failure.
