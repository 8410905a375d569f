/** The infrastructure `ConfigurationLoader`: resolves the environment name,
    finds appsettings.json next to the binaries or at the project root,
    layers it with the optional per-environment overlay and the process
    environment variables, and forces the bound settings' environment name
    to the resolved one. The loader's static `_settings` and `_logger`
    fields become the fields of one `InfraConfigurationLoader` object.

    The process environment is a map of variables and the file system a set
    of existing paths; what the configuration binder produces from the
    layered sources is a parameter (`bound`). */
module InfraConfig {
  import opened Common
  import opened Text
  import opened World
  import opened Settings

  const SettingsFile: string := "appsettings.json"

  /** `GetEnvironment`: ASPNETCORE_ENVIRONMENT, else TEST_ENVIRONMENT, else
      "Development"; a variable set to the empty string counts as set. */
  function ResolveEnvironment(variables: map<string, string>): (env: string)
    ensures "ASPNETCORE_ENVIRONMENT" in variables ==> env == variables["ASPNETCORE_ENVIRONMENT"]
    ensures ("ASPNETCORE_ENVIRONMENT" !in variables && "TEST_ENVIRONMENT" in variables) ==>
              env == variables["TEST_ENVIRONMENT"]
    ensures ("ASPNETCORE_ENVIRONMENT" !in variables && "TEST_ENVIRONMENT" !in variables) ==>
              env == "Development"
  {
    match Variable(variables, "ASPNETCORE_ENVIRONMENT")
    case Some(v) => v
    case None =>
      match Variable(variables, "TEST_ENVIRONMENT")
      case Some(v) => v
      case None => "Development"
  }

  /** The two places appsettings.json is looked for, in order. */
  function ConfigPaths(baseDirectory: string, projectRoot: string): seq<string>
  {
    [Combine(baseDirectory, SettingsFile), Combine(projectRoot, SettingsFile)]
  }

  /** `FirstOrDefault(File.Exists)`: the first candidate that exists. */
  function FirstExisting(candidates: seq<string>, files: set<string>): (r: Option<nat>)
    ensures r.Some? ==> r.value < |candidates| && candidates[r.value] in files
    ensures r.Some? ==> forall j :: 0 <= j < r.value ==> candidates[j] !in files
    ensures r.None? ==> forall j :: 0 <= j < |candidates| ==> candidates[j] !in files
  {
    if candidates == [] then None
    else if candidates[0] in files then Some(0)
    else match FirstExisting(candidates[1..], files)
      case None => None
      case Some(k) => Some(k + 1)
  }

  const MissingSettingsFault: Exception :=
    Exception(FileNotFound, "Could not find appsettings.json in any of the expected locations.", "")

  /** The configuration file `LoadSettings` uses, or its error. */
  function ChooseConfigPath(baseDirectory: string, projectRoot: string, files: set<string>): Result<string>
  {
    var candidates := ConfigPaths(baseDirectory, projectRoot);
    match FirstExisting(candidates, files)
    case None => Err(MissingSettingsFault)
    case Some(k) => Ok(candidates[k])
  }

  /** The sources layered for a chosen file, in override order. */
  function Sources(configPath: string, environment: string): seq<ConfigSource>
  {
    [JsonFile(configPath, false), JsonFile(Combine(DirectoryName(configPath), OverlayFile(environment)), true),
     EnvironmentVariables]
  }

  /** What `LoadSettings` returns: the bound settings with the environment
      name replaced. */
  function Named(bound: TestSettings, environment: string): (s: TestSettings)
    ensures s.environment.name == environment
    ensures s.environment.baseUrl == bound.environment.baseUrl
    ensures s.environment.apiBaseUrl == bound.environment.apiBaseUrl
    ensures s.browser == bound.browser && s.timeouts == bound.timeouts && s.trace == bound.trace
  {
    bound.(environment := bound.environment.(name := environment))
  }

  /** The lines `LoadSettings` logs when a logger is set. */
  function LoadLines(environment: string, configPath: Result<string>): seq<Effect>
  {
    [Logged(Information, "Using environment: " + environment)]
    + (if configPath.Ok? then [Logged(Information, "Using configuration file: " + configPath.value)] else [])
  }

  /** The outcome of one `LoadSettings` call. */
  function LoadOutcome(variables: map<string, string>, baseDirectory: string, projectRoot: string,
                       files: set<string>, bound: TestSettings): Result<TestSettings>
  {
    match ChooseConfigPath(baseDirectory, projectRoot, files)
    case Err(e) => Err(e)
    case Ok(_) => Ok(Named(bound, ResolveEnvironment(variables)))
  }

  /** C#'s `bool.ToString()`. */
  function BoolName(b: bool): string
  {
    if b then "True" else "False"
  }

  /** The lines `LogConfigurationInfo` writes. */
  function ConfigurationLines(s: TestSettings): seq<Effect>
  {
    [Logged(Information, "Configuration loaded successfully:"),
     Logged(Information, "Environment: " + s.environment.name),
     Logged(Information, "Base URL: " + s.environment.baseUrl),
     Logged(Information, "Browser: " + s.browser.browserType + " (Headless: " + BoolName(s.browser.headless) + ")"),
     Logged(Information, "Trace Enabled: " + BoolName(s.trace.enabled) + " (Mode: " + ModeName(s.trace.mode) + ")")]
  }

  class InfraConfigurationLoader {
    const world: World
    /** `_settings`. */
    var settings: Option<TestSettings>
    /** Whether `_logger` is set. */
    var hasLogger: bool

    constructor(world: World)
      ensures this.world == world && settings.None? && !hasLogger
    {
      this.world := world;
      settings := None;
      hasLogger := false;
    }

    /** `LoadSettings`; logs only when a logger has been given. */
    method LoadSettings(variables: map<string, string>, baseDirectory: string, projectRoot: string,
                        files: set<string>, bound: TestSettings)
      returns (r: Result<TestSettings>)
      modifies world
      ensures r == LoadOutcome(variables, baseDirectory, projectRoot, files, bound)
      ensures world.log == old(world.log)
                + (if hasLogger then LoadLines(ResolveEnvironment(variables), ChooseConfigPath(baseDirectory, projectRoot, files)) else [])
    {
      var environment := ResolveEnvironment(variables);
      if hasLogger {
        world.log := world.log + [Logged(Information, "Using environment: " + environment)];
      }
      var configPath := ChooseConfigPath(baseDirectory, projectRoot, files);
      if configPath.Err? {
        return Err(configPath.error);
      }
      if hasLogger {
        world.log := world.log + [Logged(Information, "Using configuration file: " + configPath.value)];
      }
      r := Ok(Named(bound, environment));
    }

    /** The `Settings` getter: loads on first use and caches a success; a
        failed load leaves nothing cached. */
    method GetSettings(variables: map<string, string>, baseDirectory: string, projectRoot: string,
                       files: set<string>, bound: TestSettings)
      returns (r: Result<TestSettings>)
      modifies this`settings, world
      ensures old(settings).Some? ==> r == Ok(old(settings).value) && settings == old(settings)
                                      && world.log == old(world.log)
      ensures old(settings).None? ==>
                r == LoadOutcome(variables, baseDirectory, projectRoot, files, bound)
                && settings == (if r.Ok? then Some(r.value) else None)
                && world.log == old(world.log)
                     + (if hasLogger then LoadLines(ResolveEnvironment(variables), ChooseConfigPath(baseDirectory, projectRoot, files)) else [])
    {
      if settings.Some? {
        return Ok(settings.value);
      }
      r := LoadSettings(variables, baseDirectory, projectRoot, files, bound);
      if r.Ok? {
        settings := Some(r.value);
      }
    }

    /** `Initialize`: sets the logger, always reloads (replacing any cached
        settings) and logs the loaded configuration. When the load throws,
        the logger stays set and the cache keeps its old value. */
    method Initialize(variables: map<string, string>, baseDirectory: string, projectRoot: string,
                      files: set<string>, bound: TestSettings)
      returns (r: Result<TestSettings>)
      modifies this`settings, this`hasLogger, world
      ensures hasLogger
      ensures r == LoadOutcome(variables, baseDirectory, projectRoot, files, bound)
      ensures settings == (if r.Ok? then Some(r.value) else old(settings))
      ensures world.log == old(world.log)
                + LoadLines(ResolveEnvironment(variables), ChooseConfigPath(baseDirectory, projectRoot, files))
                + (if r.Ok? then ConfigurationLines(r.value) else [])
    {
      hasLogger := true;
      r := LoadSettings(variables, baseDirectory, projectRoot, files, bound);
      if r.Err? {
        return;
      }
      settings := Some(r.value);
      world.log := world.log + ConfigurationLines(r.value);
    }
  }

  lemma SettingsFileHasNoSlash()
    ensures '/' !in SettingsFile
  {
    forall i | 0 <= i < |SettingsFile|
      ensures SettingsFile[i] != '/'
    {
    }
  }

  /** The file next to the binaries wins; the one at the project root is
      used only when that one is missing; with neither, the load fails with
      the "Could not find" error. */
  lemma ConfigFileFallback(baseDirectory: string, projectRoot: string, files: set<string>)
    ensures Combine(baseDirectory, SettingsFile) in files ==>
              ChooseConfigPath(baseDirectory, projectRoot, files) == Ok(Combine(baseDirectory, SettingsFile))
    ensures (Combine(baseDirectory, SettingsFile) !in files && Combine(projectRoot, SettingsFile) in files) ==>
              ChooseConfigPath(baseDirectory, projectRoot, files) == Ok(Combine(projectRoot, SettingsFile))
    ensures (Combine(baseDirectory, SettingsFile) !in files && Combine(projectRoot, SettingsFile) !in files) ==>
              ChooseConfigPath(baseDirectory, projectRoot, files) == Err(MissingSettingsFault)
  {
    var candidates := ConfigPaths(baseDirectory, projectRoot);
    if candidates[0] !in files {
      assert candidates[1..] == [candidates[1]];
      assert candidates[1..][1..] == [];
    }
  }

  /** A loaded configuration's file is always appsettings.json, and the
      overlay is the environment's file beside it. */
  lemma LoadedFileIsSettingsFile(baseDirectory: string, projectRoot: string, files: set<string>, environment: string)
    requires ChooseConfigPath(baseDirectory, projectRoot, files).Ok?
    ensures var p := ChooseConfigPath(baseDirectory, projectRoot, files).value;
            p in files && FileName(p) == SettingsFile
            && Sources(p, environment)[1] == JsonFile(Combine(DirectoryName(p), "appsettings." + environment + ".json"), true)
  {
    SettingsFileHasNoSlash();
    FileNameOfCombine(baseDirectory, SettingsFile);
    FileNameOfCombine(projectRoot, SettingsFile);
    ConfigFileFallback(baseDirectory, projectRoot, files);
  }

  /** Whatever the files say, a successful load carries the resolved
      environment name, and every other value is the binder's. */
  lemma LoadedNameIsResolved(variables: map<string, string>, baseDirectory: string, projectRoot: string,
                             files: set<string>, bound: TestSettings)
    ensures var r := LoadOutcome(variables, baseDirectory, projectRoot, files, bound);
            r.Ok? <==> (Combine(baseDirectory, SettingsFile) in files || Combine(projectRoot, SettingsFile) in files)
    ensures var r := LoadOutcome(variables, baseDirectory, projectRoot, files, bound);
            r.Ok? ==> r.value.environment.name == ResolveEnvironment(variables)
                      && r.value.(environment := bound.environment) == bound
  {
    ConfigFileFallback(baseDirectory, projectRoot, files);
  }
}
