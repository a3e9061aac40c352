/**
 * The desktop `CommerceClientLauncher`: launches the configured
 * Commerce_Client, first searching six desktop shortcuts when the
 * configured path is empty or missing. Its shortcut "parser" ignores the
 * shortcut it is handed and looks for the client in five fixed install
 * locations instead.
 */
module DesktopClientLauncher {
  import opened Wrappers
  import opened Paths
  import opened Text
  import opened ClientDiscovery
  import DesktopConfiguration
  import ConfigurationJson

  /** The fixed install locations, in the order they are tried. */
  const InstallPaths: seq<string> := [
    @"C:\Program Files\Commerce\Commerce-Client.exe",
    @"C:\Program Files (x86)\Commerce\Commerce-Client.exe",
    @"C:\Commerce\Commerce-Client.exe",
    @"C:\Program Files\Commerce-Client\Commerce-Client.exe",
    @"C:\Program Files (x86)\Commerce-Client\Commerce-Client.exe"]

  /** The six shortcut locations, alternating the common and the user desktop. */
  function ShortcutPaths(commonDesktop: string, userDesktop: string): (paths: seq<string>)
    ensures |paths| == 6
  {
    [Combine(commonDesktop, "Commerce-Client.lnk"), Combine(userDesktop, "Commerce-Client.lnk"),
     Combine(commonDesktop, "Commerce_Client.lnk"), Combine(userDesktop, "Commerce_Client.lnk"),
     Combine(commonDesktop, "Commerce Client.lnk"), Combine(userDesktop, "Commerce Client.lnk")]
  }

  /** What parsing any shortcut answers: the first installed client, with no arguments. */
  function InstalledClient(files: FileSet): (r: Option<Shortcut>)
    ensures r.Some? <==> exists j :: 0 <= j < |InstallPaths| && InstallPaths[j] in files
    ensures r.Some? ==> r.value.targetPath in files && r.value.targetPath in InstallPaths && r.value.arguments == ""
  {
    var k := FirstExisting(InstallPaths, files);
    if k < |InstallPaths| then Some(Shortcut(InstallPaths[k], "")) else None
  }

  function Parser(files: FileSet): string -> Option<Shortcut> {
    _ => InstalledClient(files)
  }

  /** The configured settings after a search that found `found`. */
  function Adopt(s: DesktopConfiguration.Settings, found: Option<Shortcut>): DesktopConfiguration.Settings {
    if found.Some? then s.(commerceClientPath := found.value.targetPath, commerceClientArguments := found.value.arguments)
    else s
  }

  /**
   * The desktop search finds a client exactly when some shortcut exists and
   * the client is installed, and then it is an installed one, whichever
   * shortcut was seen.
   */
  lemma DiscoveryFindsInstalledClient(commonDesktop: string, userDesktop: string, files: FileSet)
    ensures Discover(ShortcutPaths(commonDesktop, userDesktop), files, Parser(files)) ==
      if exists j :: 0 <= j < 6 && ShortcutPaths(commonDesktop, userDesktop)[j] in files
      then InstalledClient(files) else None
  {
    DiscoverIgnoringShortcut(ShortcutPaths(commonDesktop, userDesktop), files, InstalledClient(files));
    assert Parser(files) == (_ => InstalledClient(files));
  }

  class CommerceClientLauncher {
    const configManager: DesktopConfiguration.ConfigurationManager
    /** The files that exist (shortcuts, install locations, the configured client). */
    const files: FileSet
    /** `Environment.SpecialFolder.CommonDesktopDirectory` and `.Desktop`. */
    const commonDesktop: string
    const userDesktop: string
    /** What `Process.Start` does with a request. */
    const spawn: StartInfo -> SpawnOutcome
    /** Every request handed to `Process.Start`, in order. */
    var startRequests: seq<StartInfo>

    constructor (configManager: DesktopConfiguration.ConfigurationManager, files: FileSet,
                 commonDesktop: string, userDesktop: string, spawn: StartInfo -> SpawnOutcome)
      ensures this.configManager == configManager && this.files == files
      ensures this.commonDesktop == commonDesktop && this.userDesktop == userDesktop && this.spawn == spawn
      ensures startRequests == []
    {
      this.configManager := configManager;
      this.files := files;
      this.commonDesktop := commonDesktop;
      this.userDesktop := userDesktop;
      this.spawn := spawn;
      startRequests := [];
    }

    /** `ParseShortcut`: the first install location that exists, whatever the shortcut. */
    method ParseShortcut(shortcutPath: string) returns (info: Option<Shortcut>)
      ensures info == InstalledClient(files)
    {
      var i := 0;
      while i < |InstallPaths|
        invariant 0 <= i <= |InstallPaths|
        invariant forall j :: 0 <= j < i ==> InstallPaths[j] !in files
      {
        if InstallPaths[i] in files {
          return Some(Shortcut(InstallPaths[i], ""));
        }
        i := i + 1;
      }
      return None;
    }

    /**
     * `TryFindCommerceClientFromDesktop`: the first shortcut that exists and
     * parses has its target and arguments stored (and saved); otherwise
     * nothing changes.
     */
    method TryFindCommerceClientFromDesktop()
      modifies configManager.configuration, configManager`file
      ensures configManager.configuration.Snapshot() ==
        Adopt(old(configManager.configuration.Snapshot()), Discover(ShortcutPaths(commonDesktop, userDesktop), files, Parser(files)))
      ensures configManager.file ==
        if Discover(ShortcutPaths(commonDesktop, userDesktop), files, Parser(files)).Some? && configManager.writable
        then ConfigurationJson.Stored(DesktopConfiguration.Serialize(configManager.configuration.Snapshot()))
        else old(configManager.file)
    {
      var shortcuts := ShortcutPaths(commonDesktop, userDesktop);
      var i := 0;
      while i < |shortcuts|
        invariant 0 <= i <= |shortcuts|
        invariant forall j :: 0 <= j < i ==> !(shortcuts[j] in files && Parser(files)(shortcuts[j]).Some?)
        invariant configManager.configuration.Snapshot() == old(configManager.configuration.Snapshot())
        invariant configManager.file == old(configManager.file)
      {
        if shortcuts[i] in files {
          var info := ParseShortcut(shortcuts[i]);
          if info.Some? {
            assert FirstParsed(shortcuts, files, Parser(files)) == i;
            configManager.UpdateCommerceClientSettings(info.value.targetPath, info.value.arguments);
            return;
          }
        }
        i := i + 1;
      }
    }

    /**
     * `LaunchCommerceClient`: searches the desktop when the configured
     * path is unusable, gives up when it still is, and otherwise starts the
     * configured client with its arguments; true only for a process that is
     * still running when asked.
     */
    method LaunchCommerceClient() returns (launched: bool)
      modifies configManager.configuration, configManager`file, this`startRequests
      ensures var before := old(configManager.configuration.Snapshot());
        configManager.configuration.Snapshot() ==
          if Unresolved(before.commerceClientPath, files)
          then Adopt(before, Discover(ShortcutPaths(commonDesktop, userDesktop), files, Parser(files)))
          else before
      ensures configManager.file ==
        if Unresolved(old(configManager.configuration.Snapshot()).commerceClientPath, files)
           && Discover(ShortcutPaths(commonDesktop, userDesktop), files, Parser(files)).Some? && configManager.writable
        then ConfigurationJson.Stored(DesktopConfiguration.Serialize(configManager.configuration.Snapshot()))
        else old(configManager.file)
      ensures var s := configManager.configuration.Snapshot();
        Unresolved(s.commerceClientPath, files) ==> !launched && startRequests == old(startRequests)
      ensures var s := configManager.configuration.Snapshot();
        !Unresolved(s.commerceClientPath, files) ==>
          && startRequests == old(startRequests) + [StartFor(s.commerceClientPath, s.commerceClientArguments)]
          && launched == Launched(spawn(StartFor(s.commerceClientPath, s.commerceClientArguments)))
      ensures launched ==> |startRequests| > 0 && startRequests[|startRequests| - 1].fileName in files
    {
      var config := configManager.GetConfiguration();
      if IsEmpty(config.commerceClientPath) || config.commerceClientPath !in files {
        TryFindCommerceClientFromDesktop();
        config := configManager.GetConfiguration();
      }
      if IsEmpty(config.commerceClientPath) || config.commerceClientPath !in files {
        return false;
      }
      var startInfo := StartFor(config.commerceClientPath, config.commerceClientArguments);
      startRequests := startRequests + [startInfo];
      var outcome := spawn(startInfo);
      launched := outcome.Spawned? && !outcome.exitedAtCheck;
    }
  }
}
