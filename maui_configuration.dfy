/**
 * The MAUI configuration store (`IConfigurationService` and its
 * implementation `ConfigurationService`): `config.json` in the app-data
 * directory, read lazily on first request and cached; saving replaces the
 * cached object by the one saved, even when the write then fails.
 */
module MauiConfiguration {
  import opened ConfigurationJson
  import Paths
  import opened Text

  /** The six persisted properties of the MAUI `Configuration`, as a value. */
  datatype Settings = Settings(
    commerceClientPath: string,
    commerceClientArguments: string,
    autoStartOnBoot: bool,
    serviceStartTimeoutSeconds: Int32,
    minimizeOnComplete: bool,
    showStatusUpdates: bool)

  /** The property initializers. */
  const Defaults := Settings("", "", true, 30, true, true)

  const PropertyNames: set<string> := {
    "CommerceClientPath", "CommerceClientArguments", "AutoStartOnBoot",
    "ServiceStartTimeoutSeconds", "MinimizeOnComplete", "ShowStatusUpdates"}

  function Serialize(s: Settings): (j: Json)
    ensures j.Object? && j.members.Keys == PropertyNames
  {
    Object(map[
      "CommerceClientPath" := JString(s.commerceClientPath),
      "CommerceClientArguments" := JString(s.commerceClientArguments),
      "AutoStartOnBoot" := JBool(s.autoStartOnBoot),
      "ServiceStartTimeoutSeconds" := JNumber(s.serviceStartTimeoutSeconds),
      "MinimizeOnComplete" := JBool(s.minimizeOnComplete),
      "ShowStatusUpdates" := JBool(s.showStatusUpdates)])
  }

  function Deserialize(j: Json): Deserialized<Settings> {
    match j
    case Malformed => Threw
    case NotAnObject => Threw
    case NullLiteral => Null
    case Object(m) =>
      var path := StringMember(m, "CommerceClientPath", Defaults.commerceClientPath);
      var arguments := StringMember(m, "CommerceClientArguments", Defaults.commerceClientArguments);
      var autoStart := BoolMember(m, "AutoStartOnBoot", Defaults.autoStartOnBoot);
      var timeout := Int32Member(m, "ServiceStartTimeoutSeconds", Defaults.serviceStartTimeoutSeconds);
      var minimize := BoolMember(m, "MinimizeOnComplete", Defaults.minimizeOnComplete);
      var showStatus := BoolMember(m, "ShowStatusUpdates", Defaults.showStatusUpdates);
      if path.Some? && arguments.Some? && autoStart.Some? && timeout.Some? && minimize.Some? && showStatus.Some? then
        Parsed(Settings(path.value, arguments.value, autoStart.value, timeout.value, minimize.value, showStatus.value))
      else Threw
  }

  lemma RoundTrip(s: Settings)
    ensures Deserialize(Serialize(s)) == Parsed(s)
  {
  }

  /**
   * A file written by the desktop store (no MinimizeOnComplete or
   * ShowStatusUpdates member) reads back with both flags at true.
   */
  lemma OlderFileKeepsNewFlagsOn(m: map<string, JsonValue>)
    requires "MinimizeOnComplete" !in m && "ShowStatusUpdates" !in m
    requires Deserialize(Object(m)).Parsed?
    ensures Deserialize(Object(m)).value.minimizeOnComplete && Deserialize(Object(m)).value.showStatusUpdates
  {
  }

  lemma UnknownMemberIgnored(m: map<string, JsonValue>, name: string, v: JsonValue)
    requires name !in PropertyNames
    ensures Deserialize(Object(m[name := v])) == Deserialize(Object(m))
  {
    var m' := m[name := v];
    assert forall p | p in PropertyNames :: (p in m' <==> p in m) && (p in m ==> m'[p] == m[p]);
  }

  /** What the first `GetConfigurationAsync` caches: as the desktop store loads. */
  function Loaded(file: ConfigFile, readable: bool): (s: Settings)
    ensures file.Absent? || !readable ==> s == Defaults
    ensures file.Stored? && readable && Deserialize(file.json).Parsed? ==> s == Deserialize(file.json).value
    ensures file.Stored? && !Deserialize(file.json).Parsed? ==> s == Defaults
  {
    match file
    case Absent => Defaults
    case Stored(json) =>
      if !readable then Defaults
      else match Deserialize(json)
        case Parsed(s) => s
        case _ => Defaults
  }

  class Configuration {
    var commerceClientPath: string
    var commerceClientArguments: string
    var autoStartOnBoot: bool
    var serviceStartTimeoutSeconds: Int32
    var minimizeOnComplete: bool
    var showStatusUpdates: bool

    constructor ()
      ensures Snapshot() == Defaults
    {
      commerceClientPath := "";
      commerceClientArguments := "";
      autoStartOnBoot := true;
      serviceStartTimeoutSeconds := 30;
      minimizeOnComplete := true;
      showStatusUpdates := true;
    }

    constructor FromSettings(s: Settings)
      ensures Snapshot() == s
    {
      commerceClientPath := s.commerceClientPath;
      commerceClientArguments := s.commerceClientArguments;
      autoStartOnBoot := s.autoStartOnBoot;
      serviceStartTimeoutSeconds := s.serviceStartTimeoutSeconds;
      minimizeOnComplete := s.minimizeOnComplete;
      showStatusUpdates := s.showStatusUpdates;
    }

    function Snapshot(): Settings
      reads this
    {
      Settings(commerceClientPath, commerceClientArguments, autoStartOnBoot,
        serviceStartTimeoutSeconds, minimizeOnComplete, showStatusUpdates)
    }
  }

  class ConfigurationService {
    /** `<AppDataDirectory>\config.json` */
    const configPath: string
    /** `_configuration`: null until the first request. */
    var cache: Configuration?
    var file: ConfigFile
    const readable: bool
    const writable: bool

    constructor (appDataPath: string, file: ConfigFile, readable: bool, writable: bool)
      ensures configPath == Paths.Combine(appDataPath, "config.json")
      ensures |appDataPath| > 0 ==> EndsWith(configPath, "config.json")
      ensures cache == null && this.file == file
      ensures this.readable == readable && this.writable == writable
    {
      configPath := Paths.Combine(appDataPath, "config.json");
      cache := null;
      this.file := file;
      this.readable := readable;
      this.writable := writable;
    }

    /** The settings `GetConfigurationAsync` would hand out now. */
    function Current(): Settings
      reads this, cache
    {
      if cache != null then cache.Snapshot() else Loaded(file, readable)
    }

    /**
     * `GetConfigurationAsync`: the cached object when there is one;
     * otherwise a fresh object loaded from the file (a missing file is
     * created with the defaults), which is cached.
     */
    method GetConfiguration() returns (c: Configuration)
      modifies this`cache, this`file
      ensures cache == c && c.Snapshot() == old(Current())
      ensures old(cache) != null ==> c == old(cache) && file == old(file)
      ensures old(cache) == null ==> fresh(c) && c.Snapshot() == Loaded(old(file), readable)
      ensures old(cache) == null ==>
        file == if old(file).Absent? && writable then Stored(Serialize(Defaults)) else old(file)
    {
      if cache != null {
        return cache;
      }
      if file.Absent? {
        c := new Configuration();
        cache := c;
        SaveConfiguration(c);
      } else if readable && Deserialize(file.json).Parsed? {
        c := new Configuration.FromSettings(Deserialize(file.json).value);
        cache := c;
      } else {
        c := new Configuration();
        cache := c;
      }
    }

    /** `UpdateCommerceClientSettingsAsync`: fetch, set both client properties, save. */
    method UpdateCommerceClientSettings(path: string, arguments: string)
      modifies this`cache, this`file, cache
      ensures cache != null
      ensures Current() == old(Current()).(commerceClientPath := path, commerceClientArguments := arguments)
      ensures old(cache) != null ==> cache == old(cache)
      ensures old(cache) != null ==> cache.Snapshot() == old(cache.Snapshot()).(commerceClientPath := path, commerceClientArguments := arguments)
      ensures old(cache) == null ==> fresh(cache)
      ensures old(cache) == null ==> cache.Snapshot() == Loaded(old(file), readable).(commerceClientPath := path, commerceClientArguments := arguments)
      ensures writable ==> file == Stored(Serialize(cache.Snapshot()))
      ensures !writable ==> file == old(file)
      ensures writable && readable ==> Loaded(file, readable) == cache.Snapshot()
    {
      var config := GetConfiguration();
      config.commerceClientPath := path;
      config.commerceClientArguments := arguments;
      SaveConfiguration(config);
      RoundTrip(config.Snapshot());
    }

    /**
     * `SaveConfigurationAsync`: the given object becomes the cached one
     * (later changes to it are what later requests see), then it is written;
     * a failed write is swallowed.
     */
    method SaveConfiguration(configuration: Configuration)
      modifies this`cache, this`file
      ensures cache == configuration
      ensures file == if writable then Stored(Serialize(configuration.Snapshot())) else old(file)
    {
      cache := configuration;
      if writable {
        file := Stored(Serialize(configuration.Snapshot()));
      }
    }
  }
}
