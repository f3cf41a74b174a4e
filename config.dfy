/** `shared/config.ts`: environment lookups with defaults and the banner
    that every demo prints. `process.env` is a parameter: a map from the
    names that are set to their values. Loading `.env` files is file I/O and
    stays outside the model. */
module Config {
  import opened Wrappers
  import Text

  type Env = map<string, string>

  /** JavaScript truthiness of `process.env[name]`: set and non-empty. */
  predicate IsSet(env: Env, name: string) {
    name in env && env[name] != ""
  }

  /** `requireEnv(name)`. */
  function RequireEnv(env: Env, name: string): (r: Result<string>)
    ensures r.Ok? <==> IsSet(env, name)
    ensures r.Ok? ==> r.value == env[name]
    ensures r.Err? ==> r.error == "Missing required environment variable: " + name
  {
    if IsSet(env, name) then Ok(env[name])
    else Err("Missing required environment variable: " + name)
  }

  /** `getEnv(name, defaultValue)`: never fails. */
  function GetEnv(env: Env, name: string, defaultValue: string): (r: string)
    ensures IsSet(env, name) ==> r == env[name]
    ensures !IsSet(env, name) ==> r == defaultValue
    ensures r == "" ==> defaultValue == ""
  {
    if IsSet(env, name) then env[name] else defaultValue
  }

  /** `getEnv(name)` with the default parameter left out. */
  function GetEnvOrEmpty(env: Env, name: string): (r: string)
    ensures r == "" <==> !IsSet(env, name)
  {
    GetEnv(env, name, "")
  }

  /** Whenever `requireEnv` succeeds it agrees with `getEnv`, whatever the
      default. */
  lemma RequireAgreesWithGet(env: Env, name: string, defaultValue: string)
    ensures RequireEnv(env, name).Ok? ==> RequireEnv(env, name).value == GetEnv(env, name, defaultValue)
    ensures RequireEnv(env, name).Err? ==> GetEnv(env, name, defaultValue) == defaultValue
  {
  }

  /** `azure.resourceGroup`. */
  function ResourceGroup(env: Env): (r: string)
    ensures !IsSet(env, "AZURE_RESOURCE_GROUP") ==> r == "rg-azure-js-services"
    ensures IsSet(env, "AZURE_RESOURCE_GROUP") ==> r == env["AZURE_RESOURCE_GROUP"]
  {
    GetEnv(env, "AZURE_RESOURCE_GROUP", "rg-azure-js-services")
  }

  /** `azure.location`. */
  function Location(env: Env): (r: string)
    ensures !IsSet(env, "AZURE_LOCATION") ==> r == "eastus"
    ensures IsSet(env, "AZURE_LOCATION") ==> r == env["AZURE_LOCATION"]
  {
    GetEnv(env, "AZURE_LOCATION", "eastus")
  }

  const BannerWidth: nat := 50

  /** The three `console.log` calls of `logSection(title)`, in order. */
  function LogSection(title: string): (lines: seq<string>)
    ensures |lines| == 3 && lines[1] == title
    ensures lines[0] == "\n" + lines[2]
    ensures |lines[2]| == BannerWidth && forall i | 0 <= i < |lines[2]| :: lines[2][i] == '='
  {
    var rule := Text.Repeat('=', BannerWidth);
    ["\n" + rule, title, rule]
  }
}
