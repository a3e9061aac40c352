/**
 * The desktop startup registrar (`StartupManager`): a value named
 * "POSLauncher" under the machine's Run key holding the quoted path of
 * `POSLauncher.exe` in the application's base directory.
 */
module DesktopStartupManager {
  import opened Registry
  import Paths
  import opened Text

  const ApplicationName := "POSLauncher"
  const ExecutableName := "POSLauncher.exe"

  /** `$"\"{path}\""`. */
  function Quoted(path: string): (q: string)
    ensures |q| == |path| + 2 && q[0] == '"' && q[|q| - 1] == '"' && q[1..|q| - 1] == path
  {
    "\"" + path + "\""
  }

  class StartupManager {
    const registry: LocalMachine
    /** `AppContext.BaseDirectory` */
    const baseDirectory: string

    constructor (registry: LocalMachine, baseDirectory: string)
      ensures this.registry == registry && this.baseDirectory == baseDirectory
    {
      this.registry := registry;
      this.baseDirectory := baseDirectory;
    }

    /** The data written under "POSLauncher". */
    function RegistrationValue(): (v: string)
      ensures |baseDirectory| > 0 ==> EndsWith(v, ExecutableName + "\"")
    {
      var q := Quoted(Paths.Combine(baseDirectory, ExecutableName));
      assert |baseDirectory| > 0 ==> q[|q| - 1 - |ExecutableName|..|q| - 1] == ExecutableName;
      q
    }

    /** `IsSetToStartup`: the value exists under an existing key; any exception answers false. */
    method IsSetToStartup() returns (registered: bool)
      ensures registered <==> !registry.readDenied && registry.runKey.Present? && ApplicationName in registry.runKey.values
    {
      if registry.readDenied {
        return false;
      }
      return HasValue(registry.runKey, ApplicationName);
    }

    /**
     * `AddToStartup`: writes the quoted executable path; answers true even
     * when the key is missing and nothing was written; false only when the
     * key cannot be opened for writing.
     */
    method AddToStartup() returns (ok: bool)
      modifies registry
      ensures ok == !registry.writeDenied
      ensures registry.runKey == Register(old(registry.runKey), registry.writeDenied, ApplicationName, RegistrationValue())
      ensures ok && old(registry.runKey).Present? ==> registry.runKey.values[ApplicationName] == RegistrationValue()
      ensures old(registry.runKey).Missing? ==> registry.runKey.Missing?
    {
      if registry.writeDenied {
        return false;
      }
      registry.runKey := SetValue(registry.runKey, ApplicationName, RegistrationValue());
      return true;
    }

    /** `RemoveFromStartup`: deletes the value, tolerating its absence; false only when the key cannot be opened. */
    method RemoveFromStartup() returns (ok: bool)
      modifies registry
      ensures ok == !registry.writeDenied
      ensures registry.runKey == if ok then DeleteValue(old(registry.runKey), ApplicationName) else old(registry.runKey)
      ensures ok ==> !HasValue(registry.runKey, ApplicationName)
    {
      if registry.writeDenied {
        return false;
      }
      registry.runKey := DeleteValue(registry.runKey, ApplicationName);
      return true;
    }

    /** `EnsureStartupRegistration`: adds only when not already registered. */
    method EnsureStartupRegistration()
      modifies registry
      ensures registry.runKey ==
        Ensure(old(registry.runKey), registry.readDenied, registry.writeDenied, ApplicationName, RegistrationValue())
    {
      var registered := IsSetToStartup();
      if !registered {
        var _ := AddToStartup();
      }
    }
  }
}
