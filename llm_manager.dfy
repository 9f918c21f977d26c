/** The provider registry and model handles (src/core/llm_manager.py):
    which configured providers are usable, how a chat model is created for
    one of them, and the windowed conversation kept for follow-up questions. */
module LlmManager {
  import opened Wrappers
  import opened Settings
  import opened Chat

  const OpenAiName := "openai"
  const AzureOpenAiName := "azure_openai"
  const AnthropicName := "anthropic"
  const GoogleName := "google"

  // ---------------------------------------------------------------------
  // get_available_providers
  // ---------------------------------------------------------------------

  /** The fields an available provider's entry copies from its configuration. */
  datatype ProviderEntry = ProviderEntry(models: seq<string>, defaultModel: string, temperature: real)

  /** The `available` dict, in insertion order. */
  type Registry = seq<(string, ProviderEntry)>

  function EntryOf(pc: ProviderConfig): ProviderEntry {
    ProviderEntry(pc.models, pc.defaultModel, pc.temperature)
  }

  /** Whether one configured provider makes it into the registry: it is
      enabled, its key is set and non-empty, and for azure_openai the
      endpoint is set and non-empty too. */
  predicate Included(env: Environment, name: string, pc: ProviderConfig) {
    && pc.enabled == Some(true)
    && Truthy(GetEnv(env, pc.apiKeyEnv))
    && (name == AzureOpenAiName ==> Truthy(GetAzureEndpoint(env)))
  }

  /** The registry built from the configured providers `ps`, in their order. */
  function Available(ps: seq<(string, ProviderConfig)>, env: Environment): Registry
    decreases |ps|
  {
    if ps == [] then []
    else
      var (name, pc) := ps[|ps| - 1];
      Available(ps[..|ps| - 1], env) + (if Included(env, name, pc) then [(name, EntryOf(pc))] else [])
  }

  /** The names of a registry, in order. */
  function Names(r: Registry): (names: seq<string>)
    ensures |names| == |r|
    ensures forall i :: 0 <= i < |r| ==> names[i] == r[i].0
  {
    seq(|r|, i requires 0 <= i < |r| => r[i].0)
  }

  /** `get_available_providers(config)`: the loop over the configured
      providers, adding each included one. */
  method GetAvailableProviders(cfg: Config, env: Environment) returns (available: Registry)
    ensures available == Available(cfg.llmProviders, env)
  {
    var ps := cfg.llmProviders;
    available := [];
    var i := 0;
    while i < |ps|
      invariant 0 <= i <= |ps|
      invariant available == Available(ps[..i], env)
    {
      var (name, pc) := ps[i];
      assert ps[..i + 1][..i] == ps[..i];
      if pc.enabled == Some(true) {
        var apiKey := GetApiKey(cfg, env, name);
        assert Lookup(ps, name) == Some(pc) by {
          IndexOfUnique(ps, i);
        }
        if name == AzureOpenAiName {
          var endpoint := GetAzureEndpoint(env);
          if Truthy(apiKey.value) && Truthy(endpoint) {
            available := available + [(name, EntryOf(pc))];
          }
        } else if Truthy(apiKey.value) {
          available := available + [(name, EntryOf(pc))];
        }
      }
      i := i + 1;
    }
    assert ps[..|ps|] == ps;
  }

  /** In a table with distinct names, a name's position is the one it holds. */
  lemma IndexOfUnique(ps: ProviderTable, k: nat)
    requires k < |ps|
    ensures IndexOf(ps, ps[k].0) == k
  {
  }

  /** Each entry of `r` is an included provider of `ps`, copied verbatim. */
  predicate EntriesFromConfig(ps: ProviderTable, env: Environment, r: Registry) {
    forall i :: 0 <= i < |r| ==>
      var k := IndexOf(ps, r[i].0);
      0 <= k && Included(env, ps[k].0, ps[k].1) && r[i].1 == EntryOf(ps[k].1)
  }

  /** The entries of `r` keep the order of the configuration `ps`. */
  predicate InConfigOrder(ps: ProviderTable, r: Registry) {
    forall i, j :: 0 <= i < j < |r| ==> IndexOf(ps, r[i].0) < IndexOf(ps, r[j].0)
  }

  /** Every registry entry is an included provider of the configuration,
      copied verbatim, and the entries keep the configuration's order. */
  lemma {:induction false} AvailableInConfigOrder(ps: ProviderTable, env: Environment)
    ensures EntriesFromConfig(ps, env, Available(ps, env))
    ensures InConfigOrder(ps, Available(ps, env))
    decreases |ps|
  {
    if ps != [] {
      var init := ps[..|ps| - 1];
      AvailableInConfigOrder(init, env);
      var r0 := Available(init, env);
      var r := Available(ps, env);
      var last := |ps| - 1;
      IndexOfUnique(ps, last);
      forall i | 0 <= i < |r0|
        ensures IndexOf(ps, r[i].0) == IndexOf(init, r0[i].0) < last
        ensures var k := IndexOf(ps, r[i].0);
                0 <= k && Included(env, ps[k].0, ps[k].1) && r[i].1 == EntryOf(ps[k].1)
      {
        var k0 := IndexOf(init, r0[i].0);
        assert 0 <= k0 && Included(env, init[k0].0, init[k0].1) && r0[i].1 == EntryOf(init[k0].1);
        assert r[i] == r0[i];
        assert ps[k0] == init[k0];
        IndexOfUnique(ps, k0);
      }
    }
  }

  /** A configured provider is in the registry exactly when it is included:
      enabled, with a non-empty key, and for azure_openai a non-empty
      endpoint. */
  lemma {:induction false} AvailableIff(ps: ProviderTable, env: Environment, k: nat)
    requires k < |ps|
    ensures ps[k].0 in Names(Available(ps, env)) <==> Included(env, ps[k].0, ps[k].1)
    decreases |ps|
  {
    var r := Available(ps, env);
    var init := ps[..|ps| - 1];
    var r0 := Available(init, env);
    if k < |ps| - 1 {
      AvailableIff(init, env, k);
      if ps[k].0 in Names(r0) {
        var i :| 0 <= i < |r0| && Names(r0)[i] == ps[k].0;
        assert Names(r)[i] == ps[k].0;
      }
      if ps[k].0 in Names(r) {
        var i :| 0 <= i < |r| && Names(r)[i] == ps[k].0;
        assert i < |r0| by {
          assert ps[|ps| - 1].0 != ps[k].0;
        }
        assert Names(r0)[i] == ps[k].0;
      }
    } else {
      AvailableInConfigOrder(init, env);
      forall i | 0 <= i < |r0| ensures Names(r0)[i] != ps[k].0 {
        var j := IndexOf(init, r0[i].0);
        assert r0[i].0 == ps[j].0;
      }
      if Included(env, ps[k].0, ps[k].1) {
        assert Names(r)[|r| - 1] == ps[k].0;
      } else {
        assert r == r0;
      }
    }
  }

  /** The registry's names are distinct, as a dict's keys are. */
  lemma AvailableDistinct(ps: ProviderTable, env: Environment)
    ensures var r := Available(ps, env); forall i, j :: 0 <= i < j < |r| ==> r[i].0 != r[j].0
  {
    AvailableInConfigOrder(ps, env);
  }

  /** A provider whose `enabled` is missing or false is never available. */
  lemma DisabledNeverAvailable(ps: ProviderTable, env: Environment, k: nat)
    requires k < |ps| && ps[k].1.enabled != Some(true)
    ensures ps[k].0 !in Names(Available(ps, env))
  {
    AvailableIff(ps, env, k);
  }

  /** Availability is monotone in credentials: setting one key variable to a
      non-empty value never removes a provider, and changes nothing for the
      providers that read another variable. */
  lemma AvailableMonotone(ps: ProviderTable, env: Environment, variable: string, key: string)
    requires key != "" && variable != AzureEndpointVariable
    ensures var before, after := Available(ps, env), Available(ps, env[variable := key]);
            && (forall k :: 0 <= k < |ps| && ps[k].0 in Names(before) ==> ps[k].0 in Names(after))
            && (forall k :: 0 <= k < |ps| && ps[k].1.apiKeyEnv != variable ==>
                  (ps[k].0 in Names(before) <==> ps[k].0 in Names(after)))
  {
    var env' := env[variable := key];
    forall k | 0 <= k < |ps|
      ensures ps[k].0 in Names(Available(ps, env)) ==> ps[k].0 in Names(Available(ps, env'))
      ensures ps[k].1.apiKeyEnv != variable ==>
                (ps[k].0 in Names(Available(ps, env)) <==> ps[k].0 in Names(Available(ps, env')))
    {
      AvailableIff(ps, env, k);
      AvailableIff(ps, env', k);
    }
  }

  // ---------------------------------------------------------------------
  // create_llm
  // ---------------------------------------------------------------------

  const DefaultAzureApiVersion := "2024-02-15-preview"

  /** The chat model `create_llm` constructs, one constructor per provider. */
  datatype LlmHandle =
    | OpenAiChat(model: string, temperature: real, apiKey: string)
    | AzureChat(deployment: string, endpoint: Option<string>, apiKey: string, apiVersion: string, temperature: real)
    | AnthropicChat(model: string, temperature: real, apiKey: string)
    | GoogleChat(model: string, temperature: real, apiKey: string)

  /** The three ways `create_llm` fails: the KeyError of a provider missing
      from the configuration, and its two ValueErrors. */
  datatype LlmError =
    | ProviderNotConfigured(name: string)
    | ApiKeyNotFound(name: string)
    | UnsupportedProvider(name: string)

  /** `create_llm(provider_name, model_name, config)`. */
  function CreateLlm(cfg: Config, env: Environment, name: string, model: string): Result<LlmHandle, LlmError> {
    match Lookup(cfg.llmProviders, name)
    case None => Failure(ProviderNotConfigured(name))
    case Some(pc) =>
      var apiKey := GetEnv(env, pc.apiKeyEnv);
      if !Truthy(apiKey) then Failure(ApiKeyNotFound(name))
      else if name == OpenAiName then Success(OpenAiChat(model, pc.temperature, apiKey.value))
      else if name == AzureOpenAiName then
        var version := if pc.apiVersion.Some? then pc.apiVersion.value else DefaultAzureApiVersion;
        Success(AzureChat(model, GetAzureEndpoint(env), apiKey.value, version, pc.temperature))
      else if name == AnthropicName then Success(AnthropicChat(model, pc.temperature, apiKey.value))
      else if name == GoogleName then Success(GoogleChat(model, pc.temperature, apiKey.value))
      else Failure(UnsupportedProvider(name))
  }

  predicate IsKnownProvider(name: string) {
    name == OpenAiName || name == AzureOpenAiName || name == AnthropicName || name == GoogleName
  }

  /** Which model each provider name gets: the handle's provider matches the
      name, and carries the requested model, the configured temperature and
      the key; an Azure handle also carries the environment's endpoint. */
  predicate HandleFor(h: LlmHandle, name: string, model: string, pc: ProviderConfig, key: string, env: Environment) {
    match h
    case OpenAiChat(m, t, k) => name == OpenAiName && m == model && t == pc.temperature && k == key
    case AzureChat(m, e, k, v, t) =>
      && name == AzureOpenAiName && m == model && t == pc.temperature && k == key
      && e == GetAzureEndpoint(env)
      && v == (if pc.apiVersion.Some? then pc.apiVersion.value else DefaultAzureApiVersion)
    case AnthropicChat(m, t, k) => name == AnthropicName && m == model && t == pc.temperature && k == key
    case GoogleChat(m, t, k) => name == GoogleName && m == model && t == pc.temperature && k == key
  }

  /** The error order of create_llm: an unconfigured name fails with
      KeyError, then a missing or empty key fails before any dispatch,
      then only the four known names produce a model. */
  lemma CreateLlmOutcomes(cfg: Config, env: Environment, name: string, model: string)
    ensures var r := CreateLlm(cfg, env, name, model);
            match Lookup(cfg.llmProviders, name)
            case None => r == Failure(ProviderNotConfigured(name))
            case Some(pc) =>
              if !Truthy(GetEnv(env, pc.apiKeyEnv)) then r == Failure(ApiKeyNotFound(name))
              else if !IsKnownProvider(name) then r == Failure(UnsupportedProvider(name))
              else r.Success? && HandleFor(r.value, name, model, pc, GetEnv(env, pc.apiKeyEnv).value, env)
  {
  }

  /** Every available provider with one of the four known names yields a
      model, whichever model name is asked for. */
  lemma AvailableCreates(ps: ProviderTable, cfg: Config, env: Environment, k: nat, model: string)
    requires cfg.llmProviders == ps && k < |ps|
    requires ps[k].0 in Names(Available(ps, env)) && IsKnownProvider(ps[k].0)
    ensures CreateLlm(cfg, env, ps[k].0, model).Success?
  {
    AvailableIff(ps, env, k);
    IndexOfUnique(ps, k);
  }

  // ---------------------------------------------------------------------
  // Conversation memory
  // ---------------------------------------------------------------------

  /** One question and the model's answer, as the memory stores them. */
  datatype Exchange = Exchange(input: string, output: string)

  /** A chat model asked a question with the recent exchanges in view. */
  type Converse = (LlmHandle, seq<Exchange>, string) -> Reply

  /** What a window of k exchanges shows of the history: the last k, or
      nothing at all when k is 0. */
  function Window(history: seq<Exchange>, k: nat): (w: seq<Exchange>)
    ensures |w| == if |history| < k then |history| else k
    ensures w == history[|history| - |w|..]
  {
    if |history| <= k then history else history[|history| - k..]
  }

  /** Adding an exchange slides the window: the new exchange enters at the
      end and, once the window is full, the oldest leaves. */
  lemma WindowSlides(history: seq<Exchange>, k: nat, e: Exchange)
    requires k > 0
    ensures var w := Window(history, k);
            Window(history + [e], k) == (if |w| == k then w[1..] else w) + [e]
  {
    var h := history + [e];
    var w := Window(history, k);
    var w' := Window(h, k);
    assert w'[|w'| - 1] == e;
    assert w'[..|w'| - 1] == (if |w| == k then w[1..] else w);
  }

  /** Only the last k exchanges are ever seen: older ones make no difference. */
  lemma WindowForgets(older: seq<Exchange>, recent: seq<Exchange>, k: nat)
    requires k <= |recent|
    ensures Window(older + recent, k) == Window(recent, k)
  {
    var h := older + recent;
    assert h[|h| - k..] == recent[|recent| - k..];
  }

  /** `ConversationChain(llm=llm, memory=ConversationBufferWindowMemory(k))`. */
  class ConversationChain {
    const llm: LlmHandle
    const k: nat
    var history: seq<Exchange>

    constructor (llm: LlmHandle, k: nat)
      ensures this.llm == llm && this.k == k && history == []
    {
      this.llm := llm;
      this.k := k;
      history := [];
    }

    /** `predict(input=...)`: the model answers with the window of the
        history in view; the exchange is remembered only when it answers. */
    method Predict(input: string, converse: Converse) returns (r: Result<string, string>)
      modifies this
      ensures match converse(llm, Window(old(history), k), input)
              case Replied(answer) => r == Success(answer) && history == old(history) + [Exchange(input, answer)]
              case Raised(e) => r == Failure(e) && history == old(history)
    {
      match converse(llm, Window(history, k), input)
      case Replied(answer) =>
        history := history + [Exchange(input, answer)];
        r := Success(answer);
      case Raised(e) =>
        r := Failure(e);
    }
  }

  /** The memory window when the caller gives none. */
  const DefaultMemoryWindow: nat := 3

  /** `create_conversation_chain(provider_name, model_name, config, memory_window=3)`. */
  method CreateConversationChain(cfg: Config, env: Environment, name: string, model: string,
                                 memoryWindow: nat := DefaultMemoryWindow)
    returns (r: Result<ConversationChain, LlmError>)
    ensures CreateLlm(cfg, env, name, model).Failure? ==> r == Failure(CreateLlm(cfg, env, name, model).error)
    ensures CreateLlm(cfg, env, name, model).Success? ==>
              && r.Success? && fresh(r.value)
              && r.value.llm == CreateLlm(cfg, env, name, model).value
              && r.value.k == memoryWindow && r.value.history == []
  {
    match CreateLlm(cfg, env, name, model)
    case Failure(e) =>
      r := Failure(e);
    case Success(llm) =>
      var chain := new ConversationChain(llm, memoryWindow);
      r := Success(chain);
  }

  const SeedPrefix := "I summarized the webpage at "
  const SeedMiddle := ". Here's the summary: "

  /** The turn `add_summary_to_memory` feeds the conversation. */
  function SeedTurn(url: string, summary: string): string {
    SeedPrefix + url + SeedMiddle + summary
  }

  /** The seed turn can be read back: it names the url and ends with the
      whole summary. */
  lemma SeedTurnParts(url: string, summary: string)
    ensures var s := SeedTurn(url, summary);
            && s[..|SeedPrefix|] == SeedPrefix
            && s[|SeedPrefix|..|SeedPrefix| + |url|] == url
            && s[|SeedPrefix| + |url|..|SeedPrefix| + |url| + |SeedMiddle|] == SeedMiddle
            && s[|SeedPrefix| + |url| + |SeedMiddle|..] == summary
  {
  }

  /** The seed exchange stays in view while fewer than k questions follow
      it, and is forgotten once k have. */
  lemma SeedInWindow(seed: Exchange, later: seq<Exchange>, k: nat)
    ensures |later| < k ==> Window([seed] + later, k) == [seed] + later
    ensures |later| >= k ==> Window([seed] + later, k) == Window(later, k)
  {
    if |later| >= k {
      WindowForgets([seed], later, k);
    }
  }

  /** `add_summary_to_memory(conversation_chain, summary, url)`: one
      prediction on the seed turn; a model exception propagates (Failure). */
  method AddSummaryToMemory(chain: ConversationChain, summary: string, url: string, converse: Converse)
    returns (r: Result<string, string>)
    modifies chain
    ensures match converse(chain.llm, Window(old(chain.history), chain.k), SeedTurn(url, summary))
            case Replied(answer) =>
              r == Success(answer) && chain.history == old(chain.history) + [Exchange(SeedTurn(url, summary), answer)]
            case Raised(e) => r == Failure(e) && chain.history == old(chain.history)
  {
    r := chain.Predict(SeedTurn(url, summary), converse);
  }
}
