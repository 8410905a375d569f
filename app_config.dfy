/** The application-level `ConfigurationLoader`: layers the required
    appsettings.json of the current directory, the optional
    per-environment overlay and the process environment variables, binds
    them, and caches the result in its static `_settings` field, modelled
    as the field of one `AppConfigurationLoader` object. Unlike the
    infrastructure loader it consults only ASPNETCORE_ENVIRONMENT, does not
    look for the file elsewhere, logs nothing and keeps whatever environment
    name the files bind. */
module AppConfig {
  import opened Common
  import opened Text
  import opened Settings
  import InfraConfig

  const SettingsFile: string := "appsettings.json"

  /** `GetEnvironment`: ASPNETCORE_ENVIRONMENT, else "Development". */
  function ResolveEnvironment(variables: map<string, string>): (env: string)
    ensures "ASPNETCORE_ENVIRONMENT" in variables ==> env == variables["ASPNETCORE_ENVIRONMENT"]
    ensures "ASPNETCORE_ENVIRONMENT" !in variables ==> env == "Development"
  {
    match Variable(variables, "ASPNETCORE_ENVIRONMENT")
    case Some(v) => v
    case None => "Development"
  }

  /** The sources `LoadSettings` layers, in override order, both files
      resolved against the current directory. */
  function Sources(currentDirectory: string, variables: map<string, string>): seq<ConfigSource>
  {
    [JsonFile(Combine(currentDirectory, SettingsFile), false),
     JsonFile(Combine(currentDirectory, OverlayFile(ResolveEnvironment(variables))), true),
     EnvironmentVariables]
  }

  /** The error the configuration builder raises for a missing required
      file. */
  function MissingFileFault(path: string): Exception
  {
    Exception(FileNotFound, "The configuration file '" + SettingsFile + "' was not found and is not optional. The expected physical path was '" + path + "'.", "")
  }

  /** One `LoadSettings` call: the bound settings, unchanged, when the base
      file exists in `currentDirectory`. */
  function LoadOutcome(currentDirectory: string, files: set<string>, bound: TestSettings): (r: Result<TestSettings>)
    ensures r.Ok? <==> Combine(currentDirectory, SettingsFile) in files
    ensures r.Ok? ==> r.value == bound
    ensures r.Err? ==> r.error.kind == FileNotFound
  {
    var path := Combine(currentDirectory, SettingsFile);
    if path in files then Ok(bound) else Err(MissingFileFault(path))
  }

  class AppConfigurationLoader {
    /** `_settings`. */
    var settings: Option<TestSettings>

    constructor()
      ensures settings.None?
    {
      settings := None;
    }

    /** The `Settings` getter: loads on first use and caches a success. */
    method GetSettings(currentDirectory: string, files: set<string>, bound: TestSettings)
      returns (r: Result<TestSettings>)
      modifies this
      ensures old(settings).Some? ==> r == Ok(old(settings).value) && settings == old(settings)
      ensures old(settings).None? ==>
                r == LoadOutcome(currentDirectory, files, bound)
                && settings == (if r.Ok? then Some(r.value) else None)
    {
      if settings.Some? {
        return Ok(settings.value);
      }
      r := LoadOutcome(currentDirectory, files, bound);
      if r.Ok? {
        settings := Some(r.value);
      }
    }
  }

  /** The base file comes first and is required, the overlay named after
      the environment second and optional, and the environment variables
      override both. */
  lemma SourceOrder(currentDirectory: string, variables: map<string, string>)
    ensures var s := Sources(currentDirectory, variables);
            |s| == 3 && s[0] == JsonFile(Combine(currentDirectory, "appsettings.json"), false)
            && s[1].JsonFile? && s[1].optional
            && s[1].path == Combine(currentDirectory, "appsettings." + ResolveEnvironment(variables) + ".json")
            && s[2] == EnvironmentVariables
  {
  }

  /** TEST_ENVIRONMENT is never consulted. */
  lemma TestEnvironmentIgnored(variables: map<string, string>, value: string)
    ensures ResolveEnvironment(variables["TEST_ENVIRONMENT" := value]) == ResolveEnvironment(variables)
    ensures ResolveEnvironment(variables - {"TEST_ENVIRONMENT"}) == ResolveEnvironment(variables)
  {
    var with := variables["TEST_ENVIRONMENT" := value];
    var without := variables - {"TEST_ENVIRONMENT"};
    assert "ASPNETCORE_ENVIRONMENT" != "TEST_ENVIRONMENT";
    assert ("ASPNETCORE_ENVIRONMENT" in with) == ("ASPNETCORE_ENVIRONMENT" in variables);
    assert ("ASPNETCORE_ENVIRONMENT" in without) == ("ASPNETCORE_ENVIRONMENT" in variables);
  }

  /** The two loaders pick different environments exactly when
      ASPNETCORE_ENVIRONMENT is unset and TEST_ENVIRONMENT names something
      other than "Development". */
  lemma LoadersDisagreeOnlyOnTestEnvironment(variables: map<string, string>)
    ensures ResolveEnvironment(variables) != InfraConfig.ResolveEnvironment(variables)
            <==> ("ASPNETCORE_ENVIRONMENT" !in variables && "TEST_ENVIRONMENT" in variables
                  && variables["TEST_ENVIRONMENT"] != "Development")
  {
  }
}
