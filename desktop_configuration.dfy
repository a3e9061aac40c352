/**
 * The desktop configuration store (`ConfigurationManager`): the settings
 * live in one mutable `Configuration` object, loaded once from
 * `config.json` under the common application-data folder and written back
 * whole after every change.
 */
module DesktopConfiguration {
  import opened ConfigurationJson
  import Paths
  import opened Text

  /** The four persisted properties of `Configuration`, as a value. */
  datatype Settings = Settings(
    commerceClientPath: string,
    commerceClientArguments: string,
    autoStartOnBoot: bool,
    serviceStartTimeoutSeconds: Int32)

  /** The property initializers of `Configuration`. */
  const Defaults := Settings("", "", true, 30)

  const PropertyNames: set<string> :=
    {"CommerceClientPath", "CommerceClientArguments", "AutoStartOnBoot", "ServiceStartTimeoutSeconds"}

  /** `JsonSerializer.Serialize(configuration)`: one member per property, under its own name. */
  function Serialize(s: Settings): (j: Json)
    ensures j.Object? && j.members.Keys == PropertyNames
  {
    Object(map[
      "CommerceClientPath" := JString(s.commerceClientPath),
      "CommerceClientArguments" := JString(s.commerceClientArguments),
      "AutoStartOnBoot" := JBool(s.autoStartOnBoot),
      "ServiceStartTimeoutSeconds" := JNumber(s.serviceStartTimeoutSeconds)])
  }

  /** `JsonSerializer.Deserialize<Configuration>(json)`. */
  function Deserialize(j: Json): Deserialized<Settings> {
    match j
    case Malformed => Threw
    case NotAnObject => Threw
    case NullLiteral => Null
    case Object(m) =>
      var path := StringMember(m, "CommerceClientPath", Defaults.commerceClientPath);
      var arguments := StringMember(m, "CommerceClientArguments", Defaults.commerceClientArguments);
      var autoStart := BoolMember(m, "AutoStartOnBoot", Defaults.autoStartOnBoot);
      var timeout := Int32Member(m, "ServiceStartTimeoutSeconds", Defaults.serviceStartTimeoutSeconds);
      if path.Some? && arguments.Some? && autoStart.Some? && timeout.Some? then
        Parsed(Settings(path.value, arguments.value, autoStart.value, timeout.value))
      else Threw
  }

  /** Whatever was saved is what a later load reads back. */
  lemma RoundTrip(s: Settings)
    ensures Deserialize(Serialize(s)) == Parsed(s)
  {
  }

  /** An object lacking members leaves those properties at their initializers. */
  lemma EmptyObjectIsDefaults()
    ensures Deserialize(Object(map[])) == Parsed(Defaults)
  {
  }

  /** Members that name no property do not change the outcome. */
  lemma UnknownMemberIgnored(m: map<string, JsonValue>, name: string, v: JsonValue)
    requires name !in PropertyNames
    ensures Deserialize(Object(m[name := v])) == Deserialize(Object(m))
  {
    var m' := m[name := v];
    assert forall p | p in PropertyNames :: (p in m' <==> p in m) && (p in m ==> m'[p] == m[p]);
  }

  /**
   * What `LoadConfiguration` leaves in `_configuration`: the file's
   * settings when it exists, reads and parses; the initializers otherwise
   * (a missing file, an unreadable one, `null`, or an exception).
   */
  function Loaded(file: ConfigFile, readable: bool): (s: Settings)
    ensures file.Absent? || !readable ==> s == Defaults
    ensures file.Stored? && readable && Deserialize(file.json).Parsed? ==> s == Deserialize(file.json).value
    ensures file.Stored? && !Deserialize(file.json).Parsed? ==> s == Defaults
  {
    match file
    case Absent => Defaults
    case Stored(json) =>
      if !readable then Defaults
      else match Deserialize(json)
        case Parsed(s) => s
        case _ => Defaults
  }

  /** The mutable `Configuration` object the rest of the application shares. */
  class Configuration {
    var commerceClientPath: string
    var commerceClientArguments: string
    var autoStartOnBoot: bool
    var serviceStartTimeoutSeconds: Int32

    constructor ()
      ensures Snapshot() == Defaults
    {
      commerceClientPath := "";
      commerceClientArguments := "";
      autoStartOnBoot := true;
      serviceStartTimeoutSeconds := 30;
    }

    constructor FromSettings(s: Settings)
      ensures Snapshot() == s
    {
      commerceClientPath := s.commerceClientPath;
      commerceClientArguments := s.commerceClientArguments;
      autoStartOnBoot := s.autoStartOnBoot;
      serviceStartTimeoutSeconds := s.serviceStartTimeoutSeconds;
    }

    function Snapshot(): Settings
      reads this
    {
      Settings(commerceClientPath, commerceClientArguments, autoStartOnBoot, serviceStartTimeoutSeconds)
    }
  }

  class ConfigurationManager {
    /** `<CommonApplicationData>\POSLauncher\config.json` */
    const configPath: string
    var configuration: Configuration
    /** The file at `configPath`. */
    var file: ConfigFile
    /** Whether `File.ReadAllText` / `File.WriteAllText` on `configPath` succeed. */
    const readable: bool
    const writable: bool

    /** The constructor: computes the path, then `LoadConfiguration`. */
    constructor (appDataPath: string, file: ConfigFile, readable: bool, writable: bool)
      ensures configPath == Paths.Combine(Paths.Combine(appDataPath, "POSLauncher"), "config.json")
      ensures |appDataPath| > 0 ==> EndsWith(configPath, "config.json")
      ensures this.readable == readable && this.writable == writable
      ensures fresh(configuration) && configuration.Snapshot() == Loaded(file, readable)
      ensures this.file == if file.Absent? && writable then Stored(Serialize(Defaults)) else file
    {
      var folder := Paths.Combine(appDataPath, "POSLauncher");
      assert |appDataPath| > 0 ==> |folder| > 0 by {
        assert !Paths.IsRooted("POSLauncher");
      }
      configPath := Paths.Combine(folder, "config.json");
      this.readable := readable;
      this.writable := writable;
      this.file := file;
      configuration := new Configuration();
      new;
      LoadConfiguration();
    }

    /** `GetConfiguration`: the shared object itself, never a copy. */
    method GetConfiguration() returns (c: Configuration)
      ensures c == configuration
    {
      return configuration;
    }

    /** `UpdateCommerceClientSettings`: sets both client properties, then saves. */
    method UpdateCommerceClientSettings(path: string, arguments: string)
      modifies configuration, this`file
      ensures configuration.Snapshot() ==
        old(configuration.Snapshot()).(commerceClientPath := path, commerceClientArguments := arguments)
      ensures file == if writable then Stored(Serialize(configuration.Snapshot())) else old(file)
      ensures writable && readable ==> Loaded(file, readable) == configuration.Snapshot()
    {
      configuration.commerceClientPath := path;
      configuration.commerceClientArguments := arguments;
      SaveConfiguration();
      RoundTrip(configuration.Snapshot());
    }

    /** `LoadConfiguration`. */
    method LoadConfiguration()
      modifies this`configuration, this`file
      ensures fresh(configuration) && configuration.Snapshot() == Loaded(old(file), readable)
      ensures file == if old(file).Absent? && writable then Stored(Serialize(Defaults)) else old(file)
    {
      if file.Absent? {
        configuration := new Configuration();
        SaveConfiguration();
      } else if readable && Deserialize(file.json).Parsed? {
        configuration := new Configuration.FromSettings(Deserialize(file.json).value);
      } else {
        configuration := new Configuration();
      }
    }

    /** `SaveConfiguration`: a failed write is swallowed. */
    method SaveConfiguration()
      modifies this`file
      ensures file == if writable then Stored(Serialize(configuration.Snapshot())) else old(file)
    {
      if writable {
        file := Stored(Serialize(configuration.Snapshot()));
      }
    }
  }
}
