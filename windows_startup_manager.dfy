/**
 * The MAUI startup registrar on Windows (`WindowsStartupManager`): the
 * same "POSLauncher" value under the machine's Run key, holding the quoted
 * location of the executing assembly with ".dll" rewritten to ".exe".
 */
module WindowsStartupManager {
  import opened Registry
  import opened Text
  import DesktopStartupManager

  const ApplicationName := DesktopStartupManager.ApplicationName

  /**
   * The executable behind an assembly location: a location ending in
   * ".dll" has every ".dll" in it replaced by ".exe".
   */
  function ExecutablePath(assemblyLocation: string): (p: string)
    ensures |p| == |assemblyLocation|
    ensures EndsWith(assemblyLocation, ".dll") ==> EndsWith(p, ".exe")
    ensures !EndsWith(assemblyLocation, ".dll") ==> p == assemblyLocation
  {
    if EndsWith(assemblyLocation, ".dll") then
      ReplaceAllLength(assemblyLocation, ".dll", ".exe");
      DllBecomesExe(assemblyLocation);
      ReplaceAll(assemblyLocation, ".dll", ".exe")
    else assemblyLocation
  }

  /**
   * A trailing ".dll" is always one of the occurrences replaced: ".dll" has
   * no proper prefix that is also a suffix, so no earlier replaced
   * occurrence can overlap it.
   */
  lemma {:induction false} DllBecomesExe(s: string)
    requires EndsWith(s, ".dll")
    ensures EndsWith(ReplaceAll(s, ".dll", ".exe"), ".exe")
    decreases |s|
  {
    var n := |s|;
    assert s[n - 4] == '.' by { assert s[n - 4..][0] == '.'; }
    if n > 4 {
      if s[..4] == ".dll" {
        assert s[1] != '.' && s[2] != '.' && s[3] != '.' by { assert s[..4][1..] == "dll"; }
        var t := s[4..];
        assert t[|t| - 4..] == s[n - 4..];
        DllBecomesExe(t);
      } else {
        var t := s[1..];
        assert t[|t| - 4..] == s[n - 4..];
        DllBecomesExe(t);
      }
    }
  }

  class StartupManager {
    const registry: LocalMachine
    /** `Assembly.GetExecutingAssembly().Location` */
    const assemblyLocation: string

    constructor (registry: LocalMachine, assemblyLocation: string)
      ensures this.registry == registry && this.assemblyLocation == assemblyLocation
    {
      this.registry := registry;
      this.assemblyLocation := assemblyLocation;
    }

    /** The data written under "POSLauncher". */
    function RegistrationValue(): (v: string)
      ensures EndsWith(assemblyLocation, ".dll") ==> EndsWith(v, ".exe\"")
      ensures |v| == |assemblyLocation| + 2
    {
      var q := DesktopStartupManager.Quoted(ExecutablePath(assemblyLocation));
      assert EndsWith(assemblyLocation, ".dll") ==> q[|q| - 5..|q| - 1] == ExecutablePath(assemblyLocation)[|assemblyLocation| - 4..];
      q
    }

    /** `IsSetToStartupAsync`: the value exists under an existing key; any exception answers false. */
    method IsSetToStartup() returns (registered: bool)
      ensures registered <==> !registry.readDenied && registry.runKey.Present? && ApplicationName in registry.runKey.values
    {
      if registry.readDenied {
        return false;
      }
      return HasValue(registry.runKey, ApplicationName);
    }

    /**
     * `AddToStartupAsync`: writes the quoted executable path; answers true
     * even when the key is missing; false only when the key cannot be
     * opened for writing.
     */
    method AddToStartup() returns (ok: bool)
      modifies registry
      ensures ok == !registry.writeDenied
      ensures registry.runKey == Register(old(registry.runKey), registry.writeDenied, ApplicationName, RegistrationValue())
      ensures ok && old(registry.runKey).Present? ==> registry.runKey.values[ApplicationName] == RegistrationValue()
      ensures old(registry.runKey).Missing? ==> registry.runKey.Missing?
    {
      var executablePath := assemblyLocation;
      if EndsWith(executablePath, ".dll") {
        executablePath := ReplaceAll(executablePath, ".dll", ".exe");
      }
      if registry.writeDenied {
        return false;
      }
      registry.runKey := SetValue(registry.runKey, ApplicationName, "\"" + executablePath + "\"");
      return true;
    }

    /** `RemoveFromStartupAsync`: deletes the value, tolerating its absence. */
    method RemoveFromStartup() returns (ok: bool)
      modifies registry
      ensures ok == !registry.writeDenied
      ensures registry.runKey == if ok then DeleteValue(old(registry.runKey), ApplicationName) else old(registry.runKey)
      ensures ok ==> !HasValue(registry.runKey, ApplicationName)
    {
      if registry.writeDenied {
        return false;
      }
      registry.runKey := DeleteValue(registry.runKey, ApplicationName);
      return true;
    }

    /** `EnsureStartupRegistrationAsync`: adds only when not already registered. */
    method EnsureStartupRegistration()
      modifies registry
      ensures registry.runKey ==
        Ensure(old(registry.runKey), registry.readDenied, registry.writeDenied, ApplicationName, RegistrationValue())
    {
      var registered := IsSetToStartup();
      if !registered {
        var _ := AddToStartup();
      }
    }
  }
}
