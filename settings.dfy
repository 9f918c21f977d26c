/** The configuration document and the credential lookups of the core
    (src/config/settings.py). Reading the YAML files and the `.env` file is
    not modelled: the parsed configuration and the process environment are
    values handed in by the caller. */
module Settings {
  import opened Wrappers

  /** One entry of `llm_providers`. `enabled` and `api_version` may be
      missing from the document; the other keys are read unconditionally. */
  datatype ProviderConfig = ProviderConfig(
    enabled: Option<bool>,
    apiKeyEnv: string,
    models: seq<string>,
    defaultModel: string,
    temperature: real,
    apiVersion: Option<string>)

  predicate DistinctNames(ps: seq<(string, ProviderConfig)>) {
    forall i, j :: 0 <= i < j < |ps| ==> ps[i].0 != ps[j].0
  }

  /** `llm_providers` is a YAML mapping: its keys are distinct and keep the
      document's order. */
  type ProviderTable = ps: seq<(string, ProviderConfig)> | DistinctNames(ps) witness []

  datatype ScrapingConfig = ScrapingConfig(userAgent: string, timeout: int, maxContentSize: int, maxTextChars: int)

  datatype Config = Config(llmProviders: ProviderTable, scraping: ScrapingConfig)

  /** The process environment (`os.environ`). */
  type Environment = map<string, string>

  const AzureEndpointVariable := "AZURE_OPENAI_ENDPOINT"

  /** `os.getenv(name)`. */
  function GetEnv(env: Environment, name: string): Option<string> {
    if name in env then Some(env[name]) else None
  }

  /** Python truthiness of an optional string. */
  predicate Truthy(v: Option<string>) {
    v.Some? && v.value != ""
  }

  /** The position of `name` among the configured providers, or -1. */
  function IndexOf(ps: ProviderTable, name: string): (i: int)
    ensures -1 <= i < |ps|
    ensures i == -1 <==> forall j :: 0 <= j < |ps| ==> ps[j].0 != name
    ensures 0 <= i ==> ps[i].0 == name
    decreases |ps|
  {
    if ps == [] then -1
    else if ps[|ps| - 1].0 == name then |ps| - 1
    else IndexOf(ps[..|ps| - 1], name)
  }

  /** `config["llm_providers"][name]`, None where Python raises KeyError. */
  function Lookup(ps: ProviderTable, name: string): Option<ProviderConfig> {
    var i := IndexOf(ps, name);
    if i == -1 then None else Some(ps[i].1)
  }

  /** `get_api_key(name)`: the environment variable the provider's entry
      names; a provider missing from the configuration raises KeyError,
      here Failure carrying the missing key. */
  function GetApiKey(cfg: Config, env: Environment, name: string): Result<Option<string>, string> {
    match Lookup(cfg.llmProviders, name)
    case None => Failure(name)
    case Some(pc) => Success(GetEnv(env, pc.apiKeyEnv))
  }

  /** `get_azure_endpoint()`. */
  function GetAzureEndpoint(env: Environment): Option<string> {
    GetEnv(env, AzureEndpointVariable)
  }
}
