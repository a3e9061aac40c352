/**
 * The portable build's `CommerceClientLauncher`: the desktop launcher's
 * flow over four shortcut locations, with shortcut parsing switched off,
 * so the search can never repair an unusable configured path.
 */
module PortableClientLauncher {
  import opened Wrappers
  import opened Paths
  import opened Text
  import opened ClientDiscovery
  import DesktopConfiguration

  /** The four shortcut locations, alternating the common and the user desktop. */
  function ShortcutPaths(commonDesktop: string, userDesktop: string): (paths: seq<string>)
    ensures |paths| == 4
  {
    [Combine(commonDesktop, "Commerce_Client.lnk"), Combine(userDesktop, "Commerce_Client.lnk"),
     Combine(commonDesktop, "Commerce Client.lnk"), Combine(userDesktop, "Commerce Client.lnk")]
  }

  class CommerceClientLauncher {
    const configManager: DesktopConfiguration.ConfigurationManager
    const files: FileSet
    const commonDesktop: string
    const userDesktop: string
    const spawn: StartInfo -> SpawnOutcome
    var startRequests: seq<StartInfo>

    constructor (configManager: DesktopConfiguration.ConfigurationManager, files: FileSet,
                 commonDesktop: string, userDesktop: string, spawn: StartInfo -> SpawnOutcome)
      ensures this.configManager == configManager && this.files == files
      ensures this.commonDesktop == commonDesktop && this.userDesktop == userDesktop && this.spawn == spawn
      ensures startRequests == []
    {
      this.configManager := configManager;
      this.files := files;
      this.commonDesktop := commonDesktop;
      this.userDesktop := userDesktop;
      this.spawn := spawn;
      startRequests := [];
    }

    /** `ParseShortcut`: disabled in this build; never yields a shortcut. */
    method ParseShortcut(shortcutPath: string) returns (info: Option<Shortcut>)
      ensures info.None?
    {
      return None;
    }

    /**
     * `TryFindCommerceClientFromDesktop`: visits the shortcuts that exist,
     * none of which parses, so the store of a parsed shortcut is never
     * reached and the configuration is left as it was.
     */
    method TryFindCommerceClientFromDesktop()
      modifies configManager.configuration, configManager`file
      ensures Discover(ShortcutPaths(commonDesktop, userDesktop), files, _ => None) == None
      ensures configManager.configuration.Snapshot() == old(configManager.configuration.Snapshot())
      ensures configManager.file == old(configManager.file)
    {
      NeverParsingFindsNothing(ShortcutPaths(commonDesktop, userDesktop), files);
      var shortcuts := ShortcutPaths(commonDesktop, userDesktop);
      var i := 0;
      while i < |shortcuts|
        invariant 0 <= i <= |shortcuts|
        invariant configManager.configuration.Snapshot() == old(configManager.configuration.Snapshot())
        invariant configManager.file == old(configManager.file)
      {
        if shortcuts[i] in files {
          var info := ParseShortcut(shortcuts[i]);
          // ParseShortcut always answers None, so nothing is ever stored
          assert info.None?;
        }
        i := i + 1;
      }
    }

    /**
     * `LaunchCommerceClient`: with the search unable to help, the client is
     * started exactly when the configured path names an existing file.
     */
    method LaunchCommerceClient() returns (launched: bool)
      modifies configManager.configuration, configManager`file, this`startRequests
      ensures configManager.configuration.Snapshot() == old(configManager.configuration.Snapshot())
      ensures configManager.file == old(configManager.file)
      ensures var s := configManager.configuration.Snapshot();
        Unresolved(s.commerceClientPath, files) ==> !launched && startRequests == old(startRequests)
      ensures var s := configManager.configuration.Snapshot();
        !Unresolved(s.commerceClientPath, files) ==>
          && startRequests == old(startRequests) + [StartFor(s.commerceClientPath, s.commerceClientArguments)]
          && launched == Launched(spawn(StartFor(s.commerceClientPath, s.commerceClientArguments)))
    {
      var config := configManager.GetConfiguration();
      if IsEmpty(config.commerceClientPath) || config.commerceClientPath !in files {
        TryFindCommerceClientFromDesktop();
        config := configManager.GetConfiguration();
      }
      if IsEmpty(config.commerceClientPath) || config.commerceClientPath !in files {
        return false;
      }
      var startInfo := StartFor(config.commerceClientPath, config.commerceClientArguments);
      startRequests := startRequests + [startInfo];
      var outcome := spawn(startInfo);
      launched := outcome.Spawned? && !outcome.exitedAtCheck;
    }
  }
}
