/**
 * The MAUI launcher on Windows (`WindowsApplicationLauncher`): the same
 * launch flow over four shortcut locations, reading each shortcut through
 * the `WScript.Shell` COM object.
 */
module MauiApplicationLauncher {
  import opened Wrappers
  import opened Paths
  import opened Text
  import opened ClientDiscovery
  import MauiConfiguration
  import ConfigurationJson

  /**
   * What the `WScript.Shell` COM object makes of a shortcut path: an
   * exception, no shortcut object, or one whose `TargetPath` and
   * `Arguments` may each be null.
   */
  datatype ComShortcut = ComFails | NoShortcut | Link(targetPath: Option<string>, arguments: Option<string>)

  /** `ParseShortcutAsync`: any shortcut object parses, a null part reading as empty. */
  function ParseLink(link: ComShortcut): (r: Option<Shortcut>)
    ensures r.Some? <==> link.Link?
    ensures r.Some? ==> r.value.targetPath == (if link.targetPath.Some? then link.targetPath.value else "")
    ensures r.Some? ==> r.value.arguments == (if link.arguments.Some? then link.arguments.value else "")
  {
    match link
    case Link(target, arguments) => Some(Shortcut(target.GetOr(""), arguments.GetOr("")))
    case _ => None
  }

  function Parser(shell: string -> ComShortcut): string -> Option<Shortcut> {
    p => ParseLink(shell(p))
  }

  /** The four shortcut locations, alternating the common and the user desktop. */
  function ShortcutPaths(commonDesktop: string, userDesktop: string): (paths: seq<string>)
    ensures |paths| == 4
  {
    [Combine(commonDesktop, "Commerce_Client.lnk"), Combine(userDesktop, "Commerce_Client.lnk"),
     Combine(commonDesktop, "Commerce Client.lnk"), Combine(userDesktop, "Commerce Client.lnk")]
  }

  function Adopt(s: MauiConfiguration.Settings, found: Option<Shortcut>): MauiConfiguration.Settings {
    if found.Some? then s.(commerceClientPath := found.value.targetPath, commerceClientArguments := found.value.arguments)
    else s
  }

  /**
   * A shortcut whose target is null is still adopted, and leaves an empty
   * client path behind: the search settles on it and never looks further.
   */
  lemma NullTargetStopsSearch(commonDesktop: string, userDesktop: string, files: FileSet,
                              shell: string -> ComShortcut, s: MauiConfiguration.Settings)
    requires Combine(commonDesktop, "Commerce_Client.lnk") in files
    requires shell(Combine(commonDesktop, "Commerce_Client.lnk")) == Link(None, None)
    ensures var found := Discover(ShortcutPaths(commonDesktop, userDesktop), files, Parser(shell));
      found == Some(Shortcut("", "")) && Unresolved(Adopt(s, found).commerceClientPath, files)
  {
    var paths := ShortcutPaths(commonDesktop, userDesktop);
    assert paths[0] in files && Parser(shell)(paths[0]).Some?;
    assert FirstParsed(paths, files, Parser(shell)) == 0;
  }

  class WindowsApplicationLauncher {
    const configService: MauiConfiguration.ConfigurationService
    const files: FileSet
    const commonDesktop: string
    const userDesktop: string
    /** The `WScript.Shell` COM object. */
    const shell: string -> ComShortcut
    const spawn: StartInfo -> SpawnOutcome
    var startRequests: seq<StartInfo>

    constructor (configService: MauiConfiguration.ConfigurationService, files: FileSet, commonDesktop: string,
                 userDesktop: string, shell: string -> ComShortcut, spawn: StartInfo -> SpawnOutcome)
      ensures this.configService == configService && this.files == files
      ensures this.commonDesktop == commonDesktop && this.userDesktop == userDesktop
      ensures this.shell == shell && this.spawn == spawn && startRequests == []
    {
      this.configService := configService;
      this.files := files;
      this.commonDesktop := commonDesktop;
      this.userDesktop := userDesktop;
      this.shell := shell;
      this.spawn := spawn;
      startRequests := [];
    }

    /**
     * `FindCommerceClientFromDesktopAsync`: true when a shortcut that exists
     * parsed and its target and arguments were stored; false, with nothing
     * changed, when none did.
     */
    method FindCommerceClientFromDesktop() returns (found: bool)
      modifies configService, configService.cache
      ensures var d := Discover(ShortcutPaths(commonDesktop, userDesktop), files, Parser(shell));
        found == d.Some? && configService.Current() == Adopt(old(configService.Current()), d)
      ensures !found ==> configService.cache == old(configService.cache) && configService.file == old(configService.file)
      ensures found && configService.writable ==>
        configService.file == ConfigurationJson.Stored(MauiConfiguration.Serialize(configService.Current()))
      ensures !configService.writable ==> configService.file == old(configService.file)
    {
      var shortcuts := ShortcutPaths(commonDesktop, userDesktop);
      ghost var parse := Parser(shell);
      ghost var before := configService.Current();
      var i := 0;
      while i < |shortcuts|
        invariant 0 <= i <= |shortcuts|
        invariant forall j :: 0 <= j < i ==> !(shortcuts[j] in files && parse(shortcuts[j]).Some?)
        invariant configService.cache == old(configService.cache) && configService.file == old(configService.file)
        invariant configService.Current() == before
      {
        if shortcuts[i] in files {
          var info := ParseLink(shell(shortcuts[i]));
          if info.Some? {
            assert parse(shortcuts[i]) == info;
            assert FirstParsed(shortcuts, files, parse) == i;
            configService.UpdateCommerceClientSettings(info.value.targetPath, info.value.arguments);
            return true;
          }
        }
        i := i + 1;
      }
      return false;
    }

    /** The settings after the fallback search `LaunchCommerceClientAsync` runs for an unusable path. */
    ghost function Resolved(before: MauiConfiguration.Settings): MauiConfiguration.Settings
      reads this
    {
      if Unresolved(before.commerceClientPath, files)
      then Adopt(before, Discover(ShortcutPaths(commonDesktop, userDesktop), files, Parser(shell)))
      else before
    }

    /** The file once `GetConfigurationAsync` has run: a missing file is written with the defaults on the first request. */
    ghost function LoadedFile(): ConfigurationJson.ConfigFile
      reads configService
    {
      if configService.cache == null && configService.file.Absent? && configService.writable
      then ConfigurationJson.Stored(MauiConfiguration.Serialize(MauiConfiguration.Defaults))
      else configService.file
    }

    /** The file after `LaunchCommerceClientAsync`'s lookup: the discovered client saved, or the file as the first request leaves it. */
    ghost function ResolvedFile(before: MauiConfiguration.Settings, loaded: ConfigurationJson.ConfigFile, now: MauiConfiguration.Settings):
      ConfigurationJson.ConfigFile
      reads this, configService
    {
      if Unresolved(before.commerceClientPath, files)
         && Discover(ShortcutPaths(commonDesktop, userDesktop), files, Parser(shell)).Some? && configService.writable
      then ConfigurationJson.Stored(MauiConfiguration.Serialize(now))
      else loaded
    }

    /**
     * The first half of `LaunchCommerceClientAsync`: fetch the settings,
     * search the desktop when the path is unusable, and fetch them again.
     */
    method ResolveClient() returns (path: string, arguments: string)
      modifies configService, configService.cache
      ensures configService.Current() == Resolved(old(configService.Current()))
      ensures configService.cache != null
      ensures configService.file == ResolvedFile(old(configService.Current()), old(LoadedFile()), configService.Current())
      ensures path == configService.Current().commerceClientPath
      ensures arguments == configService.Current().commerceClientArguments
    {
      var config := configService.GetConfiguration();
      if IsEmpty(config.commerceClientPath) || config.commerceClientPath !in files {
        var _ := FindCommerceClientFromDesktop();
        config := configService.GetConfiguration();
      }
      path, arguments := config.commerceClientPath, config.commerceClientArguments;
    }

    /**
     * `LaunchCommerceClientAsync`: searches the desktop when the configured
     * path is unusable, gives up when it still is, and otherwise starts the
     * configured client; true only for a process still running when asked.
     */
    method LaunchCommerceClient() returns (launched: bool)
      modifies configService, configService.cache, this`startRequests
      ensures var before := old(configService.Current());
        configService.Current() ==
          if Unresolved(before.commerceClientPath, files)
          then Adopt(before, Discover(ShortcutPaths(commonDesktop, userDesktop), files, Parser(shell)))
          else before
      ensures configService.cache != null
      ensures configService.file ==
        if Unresolved(old(configService.Current()).commerceClientPath, files)
           && Discover(ShortcutPaths(commonDesktop, userDesktop), files, Parser(shell)).Some? && configService.writable
        then ConfigurationJson.Stored(MauiConfiguration.Serialize(configService.Current()))
        else old(LoadedFile())
      ensures var s := configService.Current();
        Unresolved(s.commerceClientPath, files) ==> !launched && startRequests == old(startRequests)
      ensures var s := configService.Current();
        !Unresolved(s.commerceClientPath, files) ==>
          && startRequests == old(startRequests) + [StartFor(s.commerceClientPath, s.commerceClientArguments)]
          && launched == Launched(spawn(StartFor(s.commerceClientPath, s.commerceClientArguments)))
    {
      var path, arguments := ResolveClient();
      if IsEmpty(path) || path !in files {
        return false;
      }
      var startInfo := StartFor(path, arguments);
      startRequests := startRequests + [startInfo];
      var outcome := spawn(startInfo);
      launched := outcome.Spawned? && !outcome.exitedAtCheck;
    }
  }
}
