/** The HTTP endpoints (src/api/server.py): the provider listing, the
    summarize flow that opens a conversation session, and the two endpoints
    that ask follow-up questions in a session. Loading the configuration,
    the uuid generator, the network and the models are parameters. */
module Server {
  import opened Wrappers
  import opened PyStr
  import Json
  import Models
  import opened Settings
  import opened Chat
  import WebScraper
  import TextProcessor
  import opened LlmManager

  /** What an endpoint answers: its response model, or an HTTP error. An
      exception the endpoint does not catch becomes a 500 with FastAPI's
      generic detail. */
  datatype Outcome<+T> = Ok(value: T) | HttpError(status: int, detail: string)

  const InternalServerError := "Internal Server Error"

  /** Everything outside the server the endpoints talk to. */
  datatype Services = Services(
    web: WebScraper.Web,
    decoders: TextProcessor.Decoders,
    invoke: LlmHandle -> Invoke,
    converse: Converse,
    systemPrompt: string,
    formatInstructions: string)

  // ---------------------------------------------------------------------
  // The key check at the top of /summarize
  // ---------------------------------------------------------------------

  const PlaceholderPrefix := "your_"
  const PlaceholderKey := "your_api_key_here"
  const PlaceholderEndpoint := "your_azure_endpoint_here"
  const MinKeyLength := 10

  /** A key that is set, longer than 10 characters and not a placeholder. */
  predicate KeyLooksReal(key: Option<string>) {
    && Truthy(key)
    && !StartsWith(key.value, PlaceholderPrefix)
    && key.value != PlaceholderKey
    && |key.value| > MinKeyLength
  }

  /** An endpoint that is set and not a placeholder. */
  predicate EndpointLooksReal(endpoint: Option<string>) {
    Truthy(endpoint) && !StartsWith(endpoint.value, PlaceholderPrefix) && endpoint.value != PlaceholderEndpoint
  }

  /** The literal placeholders already start with "your_", so a key looks
      real exactly when it is set, does not start with "your_" and is longer
      than 10 characters, and an endpoint when it is set and does not start
      with "your_". */
  lemma PlaceholderClausesSubsumed(key: Option<string>, endpoint: Option<string>)
    ensures KeyLooksReal(key) <==>
              Truthy(key) && !StartsWith(key.value, PlaceholderPrefix) && |key.value| > MinKeyLength
    ensures EndpointLooksReal(endpoint) <==>
              Truthy(endpoint) && !StartsWith(endpoint.value, PlaceholderPrefix)
  {
    assert PlaceholderKey[..|PlaceholderPrefix|] == PlaceholderPrefix;
    assert PlaceholderEndpoint[..|PlaceholderPrefix|] == PlaceholderPrefix;
  }

  /** The providers the check walks through, in order. */
  const CheckedProviders := [OpenAiName, AzureOpenAiName, AnthropicName, GoogleName]

  /** Whether the check keeps a provider whose key is `key`. */
  predicate LooksConfigured(env: Environment, name: string, key: Option<string>) {
    if name == AzureOpenAiName then KeyLooksReal(key) && EndpointLooksReal(GetAzureEndpoint(env))
    else KeyLooksReal(key)
  }

  /** Whether the check keeps the configured provider `name`. */
  predicate ValidKey(cfg: Config, env: Environment, name: string) {
    match GetApiKey(cfg, env, name)
    case Success(key) => LooksConfigured(env, name, key)
    case Failure(_) => false
  }

  /** The `valid_keys` list the check builds over `names`; a name missing
      from the configuration raises KeyError (Failure with that name). */
  function ValidKeysOf(cfg: Config, env: Environment, names: seq<string>): Result<seq<string>, string>
    decreases |names|
  {
    if names == [] then Success([])
    else
      match ValidKeysOf(cfg, env, names[..|names| - 1])
      case Failure(n) => Failure(n)
      case Success(valid) =>
        var name := names[|names| - 1];
        match GetApiKey(cfg, env, name)
        case Failure(n) => Failure(n)
        case Success(key) => Success(valid + if LooksConfigured(env, name, key) then [name] else [])
  }

  /** Once the check has failed on a prefix, it fails with the same name. */
  lemma {:induction false} ValidKeysFailureSticks(cfg: Config, env: Environment, names: seq<string>, i: nat)
    requires i <= |names| && ValidKeysOf(cfg, env, names[..i]).Failure?
    ensures ValidKeysOf(cfg, env, names) == ValidKeysOf(cfg, env, names[..i])
    decreases |names| - i
  {
    if i < |names| {
      var init := names[..|names| - 1];
      assert init[..i] == names[..i];
      ValidKeysFailureSticks(cfg, env, init, i);
    } else {
      assert names[..i] == names;
    }
  }

  /** The check fails exactly when one of the names is not configured, and
      then it names an unconfigured one; otherwise it keeps exactly the
      names whose key (and endpoint) look real. */
  lemma {:induction false} ValidKeysOutcome(cfg: Config, env: Environment, names: seq<string>)
    ensures var r := ValidKeysOf(cfg, env, names);
            && (r.Failure? <==> exists i :: 0 <= i < |names| && Lookup(cfg.llmProviders, names[i]).None?)
            && (r.Failure? ==> r.error in names && Lookup(cfg.llmProviders, r.error).None?)
            && (r.Success? ==> forall n :: n in r.value <==> n in names && ValidKey(cfg, env, n))
    decreases |names|
  {
    if names != [] {
      var init := names[..|names| - 1];
      var last := names[|names| - 1];
      ValidKeysOutcome(cfg, env, init);
      assert names == init + [last];
      if ValidKeysOf(cfg, env, init).Failure? {
        var i :| 0 <= i < |init| && Lookup(cfg.llmProviders, init[i]).None?;
        assert names[i] == init[i];
      } else if Lookup(cfg.llmProviders, last).None? {
        assert names[|names| - 1] == last;
      } else {
        forall i | 0 <= i < |names| ensures Lookup(cfg.llmProviders, names[i]).Some? {
          if i < |init| {
            assert names[i] == init[i];
          }
        }
      }
    }
  }

  /** The check of `summarize_page`: the loop over the four providers. */
  method ValidKeys(cfg: Config, env: Environment) returns (r: Result<seq<string>, string>)
    ensures r == ValidKeysOf(cfg, env, CheckedProviders)
  {
    var names := CheckedProviders;
    var valid := [];
    var i := 0;
    while i < |names|
      invariant 0 <= i <= |names|
      invariant ValidKeysOf(cfg, env, names[..i]) == Success(valid)
    {
      var name := names[i];
      assert names[..i + 1][..i] == names[..i];
      var key := GetApiKey(cfg, env, name);
      if key.Failure? {
        ValidKeysFailureSticks(cfg, env, names, i + 1);
        return Failure(key.error);
      }
      var before := valid;
      if name == AzureOpenAiName {
        var endpoint := GetAzureEndpoint(env);
        if KeyLooksReal(key.value) && EndpointLooksReal(endpoint) {
          valid := valid + [name];
        }
      } else if KeyLooksReal(key.value) {
        valid := valid + [name];
      }
      assert valid == before + if LooksConfigured(env, name, key.value) then [name] else [];
      assert ValidKeysOf(cfg, env, names[..i + 1]) == Success(valid);
      i := i + 1;
    }
    assert names[..|names|] == names;
    r := Success(valid);
  }

  /** The check's result is never used to choose a provider: an enabled
      provider whose key is the placeholder "your_api_key_here" is still
      available, while the check rejects it. */
  lemma PlaceholderKeyStillAvailable(ps: ProviderTable, env: Environment, k: nat)
    requires k < |ps| && ps[k].0 != AzureOpenAiName && ps[k].1.enabled == Some(true)
    requires GetEnv(env, ps[k].1.apiKeyEnv) == Some(PlaceholderKey)
    ensures ps[k].0 in Names(Available(ps, env))
    ensures !LooksConfigured(env, ps[k].0, GetEnv(env, ps[k].1.apiKeyEnv))
  {
    AvailableIff(ps, env, k);
    assert PlaceholderKey[..|PlaceholderPrefix|] == PlaceholderPrefix;
  }

  // ---------------------------------------------------------------------
  // Provider and model selection
  // ---------------------------------------------------------------------

  /** `available_providers[name]`, None where the name is absent. */
  function RegistryLookup(r: Registry, name: string): (e: Option<ProviderEntry>)
    ensures e.Some? ==> (name, e.value) in r
    ensures e.None? ==> forall i :: 0 <= i < |r| ==> r[i].0 != name
  {
    if r == [] then None
    else if r[0].0 == name then Some(r[0].1)
    else RegistryLookup(r[1..], name)
  }

  /** The provider and model /summarize uses: the requested provider when it
      is available, with the requested model when that provider offers it
      and its default model otherwise; else the first available provider
      with its default model. None is the IndexError of an empty registry. */
  function SelectProvider(r: Registry, provider: Option<string>, model: Option<string>): Option<(string, string)> {
    if Truthy(provider) && RegistryLookup(r, provider.value).Some? then
      var e := RegistryLookup(r, provider.value).value;
      Some((provider.value, if Truthy(model) && model.value in e.models then model.value else e.defaultModel))
    else if r == [] then None
    else Some((r[0].0, r[0].1.defaultModel))
  }

  /** Selection fails only on an empty registry; otherwise it picks a
      registered provider and one of that provider's offered models or its
      default model, honouring an available requested provider and an
      offered requested model. */
  lemma SelectProviderSpec(r: Registry, provider: Option<string>, model: Option<string>)
    ensures SelectProvider(r, provider, model).None? <==> r == []
    ensures match SelectProvider(r, provider, model)
            case None => true
            case Some((name, m)) =>
              exists e :: (name, e) in r && (m in e.models || m == e.defaultModel)
    ensures Truthy(provider) && provider.value in Names(r) ==>
              SelectProvider(r, provider, model).Some? && SelectProvider(r, provider, model).value.0 == provider.value
    ensures !(Truthy(provider) && provider.value in Names(r)) && r != [] ==>
              SelectProvider(r, provider, model) == Some((r[0].0, r[0].1.defaultModel))
  {
    if Truthy(provider) && RegistryLookup(r, provider.value).Some? {
      var e := RegistryLookup(r, provider.value).value;
      var i :| 0 <= i < |r| && r[i] == (provider.value, e);
      assert Names(r)[i] == provider.value;
    } else if r != [] {
      assert r[0] in r;
    }
    if Truthy(provider) && provider.value in Names(r) {
      var i :| 0 <= i < |r| && Names(r)[i] == provider.value;
    }
  }

  /** With distinct names, an available requested provider is used with the
      requested model exactly when a model is given and the provider offers
      it; a missing or empty model, or one not offered, gets the provider's
      default model. */
  lemma RequestedModelHonoured(r: Registry, provider: string, model: Option<string>, k: nat)
    requires forall i, j :: 0 <= i < j < |r| ==> r[i].0 != r[j].0
    requires k < |r| && r[k].0 == provider && provider != ""
    ensures SelectProvider(r, Some(provider), model) ==
              Some((provider, if Truthy(model) && model.value in r[k].1.models then model.value else r[k].1.defaultModel))
  {
    var e := RegistryLookup(r, provider).value;
    var i :| 0 <= i < |r| && r[i] == (provider, e);
    assert i == k;
  }

  // ---------------------------------------------------------------------
  // /providers
  // ---------------------------------------------------------------------

  function InfoOf(e: ProviderEntry): Models.ProviderInfo {
    Models.ProviderInfo(e.models, e.defaultModel)
  }

  /** `resp` lists the registry `r` in order, each entry with its models and
      default model, and counts it. */
  predicate IsListingOf(resp: Models.ProvidersResponse, r: Registry) {
    && |resp.availableProviders| == |r|
    && resp.totalProviders == |r|
    && forall i :: 0 <= i < |r| ==> resp.availableProviders[i] == (r[i].0, InfoOf(r[i].1))
  }

  /** `get_providers()`. */
  method GetProviders(cfg: Config, env: Environment) returns (resp: Models.ProvidersResponse)
    ensures IsListingOf(resp, Available(cfg.llmProviders, env))
  {
    var available := GetAvailableProviders(cfg, env);
    var info: seq<(string, Models.ProviderInfo)> := [];
    for i := 0 to |available|
      invariant |info| == i
      invariant forall j :: 0 <= j < i ==> info[j] == (available[j].0, InfoOf(available[j].1))
    {
      info := info + [(available[i].0, InfoOf(available[i].1))];
    }
    resp := Models.ProvidersResponse(info, |info|);
  }

  /** A configured provider is listed exactly when it is available, and is
      listed with its configured models and default model. */
  lemma ListedIffIncluded(cfg: Config, env: Environment, resp: Models.ProvidersResponse, k: nat)
    requires IsListingOf(resp, Available(cfg.llmProviders, env))
    requires k < |cfg.llmProviders|
    ensures var ps := cfg.llmProviders;
            (exists i :: 0 <= i < |resp.availableProviders| && resp.availableProviders[i].0 == ps[k].0)
            <==> Included(env, ps[k].0, ps[k].1)
    ensures var ps := cfg.llmProviders;
            forall i :: 0 <= i < |resp.availableProviders| && resp.availableProviders[i].0 == ps[k].0 ==>
              resp.availableProviders[i].1 == Models.ProviderInfo(ps[k].1.models, ps[k].1.defaultModel)
  {
    var ps := cfg.llmProviders;
    var r := Available(ps, env);
    AvailableIff(ps, env, k);
    AvailableInConfigOrder(ps, env);
    IndexOfUnique(ps, k);
    if ps[k].0 in Names(r) {
      var i :| 0 <= i < |r| && Names(r)[i] == ps[k].0;
      assert resp.availableProviders[i].0 == ps[k].0;
    }
    forall i | 0 <= i < |resp.availableProviders| && resp.availableProviders[i].0 == ps[k].0
      ensures ps[k].0 in Names(r)
    {
      assert Names(r)[i] == ps[k].0;
    }
  }

  // ---------------------------------------------------------------------
  // /summarize
  // ---------------------------------------------------------------------

  /** What /summarize has once the summary is accepted. */
  datatype Prepared = Prepared(provider: string, model: string, llm: LlmHandle, url: string,
                               summary: string, topic: Json.Value)

  const ErrorPrefix := "Error"

  /** `summarize_page` up to the accepted summary, as a value: the key
      check, the provider choice, the URL check (400), the fetch (422), the
      model, and the summary, refused when it is not a string or starts
      with "Error". */
  function PrepareSummary(cfg: Config, env: Environment, svc: Services, req: Models.SummarizeRequest): Outcome<Prepared> {
    if ValidKeysOf(cfg, env, CheckedProviders).Failure? then HttpError(500, InternalServerError)
    else
      match SelectProvider(Available(cfg.llmProviders, env), req.provider, req.model)
      case None => HttpError(500, InternalServerError)
      case Some((name, model)) =>
        match WebScraper.ValidateUrl(req.url)
        case Failure(_) => HttpError(500, InternalServerError)
        case Success((isValid, message)) =>
          if !isValid then HttpError(400, message)
          else
            match WebScraper.FetchAndClean(req.url, cfg.scraping, svc.web)
            case Failure(error) => HttpError(422, error)
            case Success(content) =>
              match CreateLlm(cfg, env, name, model)
              case Failure(_) => HttpError(500, InternalServerError)
              case Success(llm) =>
                var (summary, topic) := TextProcessor.SummarizeContent(
                  svc.invoke(llm), svc.decoders, svc.systemPrompt, svc.formatInstructions, content);
                if !summary.String? then HttpError(500, InternalServerError)
                else if StartsWith(summary.s, ErrorPrefix) then HttpError(500, summary.s)
                else Ok(Prepared(name, model, llm, req.url, summary.s, topic))
  }

  /** Every refusal of /summarize is a 400, a 422 or a 500. */
  lemma PrepareStatuses(cfg: Config, env: Environment, svc: Services, req: Models.SummarizeRequest)
    ensures var o := PrepareSummary(cfg, env, svc, req);
            o.HttpError? ==> o.status == 400 || o.status == 422 || o.status == 500
    ensures var o := PrepareSummary(cfg, env, svc, req);
            o.HttpError? && o.status == 400 ==> o.detail == WebScraper.InvalidUrlMessage
  {
  }

  /** A configuration missing one of the four providers fails every
      request with a 500, whatever the URL and the provider asked for. */
  lemma MissingProviderFailsEverything(cfg: Config, env: Environment, svc: Services, req: Models.SummarizeRequest, i: nat)
    requires i < |CheckedProviders| && Lookup(cfg.llmProviders, CheckedProviders[i]).None?
    ensures PrepareSummary(cfg, env, svc, req) == HttpError(500, InternalServerError)
  {
    ValidKeysOutcome(cfg, env, CheckedProviders);
  }

  /** Past the key check, with nothing available, every request fails with
      a 500, before the URL is looked at. */
  lemma NoProviderFailsEverything(cfg: Config, env: Environment, svc: Services, req: Models.SummarizeRequest)
    requires Available(cfg.llmProviders, env) == []
    ensures PrepareSummary(cfg, env, svc, req) == HttpError(500, InternalServerError)
  {
    SelectProviderSpec(Available(cfg.llmProviders, env), req.provider, req.model);
  }

  /** Past the key check and with a provider available, a URL without a
      scheme or a host is refused with 400 before anything is fetched. */
  lemma InvalidUrlRefusedBeforeFetch(cfg: Config, env: Environment, svc: Services, req: Models.SummarizeRequest)
    requires ValidKeysOf(cfg, env, CheckedProviders).Success? && Available(cfg.llmProviders, env) != []
    requires WebScraper.UrlParse(req.url).Success?
    requires WebScraper.UrlParse(req.url).value.scheme == "" || WebScraper.UrlParse(req.url).value.netloc == ""
    ensures PrepareSummary(cfg, env, svc, req) == HttpError(400, WebScraper.InvalidUrlMessage)
  {
    SelectProviderSpec(Available(cfg.llmProviders, env), req.provider, req.model);
  }

  /** Past the URL check, a fetch or cleaning failure is returned as a 422
      with the scraper's message, and no model is created. */
  lemma FetchFailureIs422(cfg: Config, env: Environment, svc: Services, req: Models.SummarizeRequest)
    requires ValidKeysOf(cfg, env, CheckedProviders).Success? && Available(cfg.llmProviders, env) != []
    requires WebScraper.ValidateUrl(req.url) == Success((true, WebScraper.ValidUrlMessage))
    requires WebScraper.FetchAndClean(req.url, cfg.scraping, svc.web).Failure?
    ensures PrepareSummary(cfg, env, svc, req) ==
              HttpError(422, WebScraper.FetchAndClean(req.url, cfg.scraping, svc.web).error)
  {
    SelectProviderSpec(Available(cfg.llmProviders, env), req.provider, req.model);
  }

  /** The default summary is the page text itself, so when the model call
      raises on a page whose text starts with "Error", the request fails with
      500 and the page text as detail. */
  lemma ErrorLeadingPageFailsWhenModelRaises(cfg: Config, env: Environment, svc: Services,
                                             req: Models.SummarizeRequest, name: string, model: string,
                                             content: string)
    requires ValidKeysOf(cfg, env, CheckedProviders).Success?
    requires SelectProvider(Available(cfg.llmProviders, env), req.provider, req.model) == Some((name, model))
    requires WebScraper.ValidateUrl(req.url) == Success((true, WebScraper.ValidUrlMessage))
    requires WebScraper.FetchAndClean(req.url, cfg.scraping, svc.web) == Success(content)
    requires CreateLlm(cfg, env, name, model).Success?
    requires svc.invoke(CreateLlm(cfg, env, name, model).value)(
               TextProcessor.SummaryMessages(svc.systemPrompt, svc.formatInstructions, content)).Raised?
    requires StartsWith(content, ErrorPrefix)
    ensures PrepareSummary(cfg, env, svc, req) == HttpError(500, content)
  {
  }

  /** An accepted summary comes from an available provider, with an offered
      or default model and the model handle create_llm builds for them, for a
      URL with a scheme and a host whose page was fetched and cleaned; the
      summary is a string that does not start with "Error". */
  lemma PreparedSummaryShape(cfg: Config, env: Environment, svc: Services, req: Models.SummarizeRequest)
    requires PrepareSummary(cfg, env, svc, req).Ok?
    ensures var p := PrepareSummary(cfg, env, svc, req).value;
            var r := Available(cfg.llmProviders, env);
            && (exists e :: (p.provider, e) in r && (p.model in e.models || p.model == e.defaultModel))
            && CreateLlm(cfg, env, p.provider, p.model) == Success(p.llm)
            && p.url == req.url
            && WebScraper.UrlParse(req.url).Success?
            && WebScraper.UrlParse(req.url).value.scheme != ""
            && WebScraper.UrlParse(req.url).value.netloc != ""
            && WebScraper.FetchAndClean(req.url, cfg.scraping, svc.web).Success?
            && !StartsWith(p.summary, ErrorPrefix)
  {
    SelectProviderSpec(Available(cfg.llmProviders, env), req.provider, req.model);
  }

  /** The steps of `summarize_page` before the session is opened. */
  method Prepare(cfg: Config, env: Environment, svc: Services, req: Models.SummarizeRequest)
    returns (o: Outcome<Prepared>)
    ensures o == PrepareSummary(cfg, env, svc, req)
  {
    var keys := ValidKeys(cfg, env);
    if keys.Failure? {
      return HttpError(500, InternalServerError);
    }
    var available := GetAvailableProviders(cfg, env);
    var selected := SelectProvider(available, req.provider, req.model);
    if selected.None? {
      return HttpError(500, InternalServerError);
    }
    var (name, model) := selected.value;
    var url := req.url;
    var validation := WebScraper.ValidateUrl(url);
    if validation.Failure? {
      return HttpError(500, InternalServerError);
    }
    var (isValid, message) := validation.value;
    if !isValid {
      return HttpError(400, message);
    }
    var fetched := WebScraper.FetchAndCleanContent(url, cfg.scraping, svc.web);
    if fetched.Failure? {
      return HttpError(422, fetched.error);
    }
    var llm := CreateLlm(cfg, env, name, model);
    if llm.Failure? {
      return HttpError(500, InternalServerError);
    }
    var (summary, topic) := TextProcessor.SummarizeContent(
      svc.invoke(llm.value), svc.decoders, svc.systemPrompt, svc.formatInstructions, fetched.value);
    if !summary.String? {
      return HttpError(500, InternalServerError);
    }
    if StartsWith(summary.s, ErrorPrefix) {
      return HttpError(500, summary.s);
    }
    o := Ok(Prepared(name, model, llm.value, url, summary.s, topic));
  }

  // ---------------------------------------------------------------------
  // Sessions
  // ---------------------------------------------------------------------

  /** One entry of `conversation_sessions`. */
  datatype Session = Session(chain: ConversationChain, summary: string, topic: Json.Value, url: string)

  const ChatSessionNotFound := "Chat session not found. Please summarize a webpage first."
  const ConversationSessionNotFound := "Conversation session not found"
  const ChatErrorPrefix := "Error processing chat: "

  /** The server's `conversation_sessions` dict. */
  class SessionStore {
    var sessions: map<string, Session>

    /** Every session has a conversation of its own. */
    predicate Valid()
      reads this
    {
      forall a, b :: a in sessions && b in sessions && a != b ==> sessions[a].chain != sessions[b].chain
    }

    constructor ()
      ensures Valid() && sessions == map[]
    {
      sessions := map[];
    }

    /** `summarize_page(request)`, with `freshId` the uuid it draws. A
        session is stored only once the seed turn is remembered; a topic that
        is not a string then fails the response, but the session stays. */
    method SummarizePage(cfg: Config, env: Environment, svc: Services, req: Models.SummarizeRequest, freshId: string)
      returns (r: Outcome<Models.SummarizeResponse>)
      requires Valid() && freshId !in sessions
      modifies this
      ensures Valid()
      ensures forall id :: id in old(sessions) ==> id in sessions && sessions[id] == old(sessions)[id]
      ensures forall id :: id in old(sessions) ==> sessions[id].chain.history == old(sessions[id].chain.history)
      ensures match PrepareSummary(cfg, env, svc, req)
              case HttpError(status, detail) => r == HttpError(status, detail) && sessions == old(sessions)
              case Ok(p) =>
                match svc.converse(p.llm, [], SeedTurn(p.url, p.summary))
                case Raised(_) => r == HttpError(500, InternalServerError) && sessions == old(sessions)
                case Replied(answer) =>
                  && sessions.Keys == old(sessions).Keys + {freshId}
                  && fresh(sessions[freshId].chain)
                  && sessions[freshId].chain.llm == p.llm
                  && sessions[freshId].chain.k == DefaultMemoryWindow
                  && sessions[freshId].chain.history == [Exchange(SeedTurn(p.url, p.summary), answer)]
                  && sessions[freshId].summary == p.summary
                  && sessions[freshId].topic == p.topic
                  && sessions[freshId].url == p.url
                  && r == if p.topic.String? then Ok(Models.SummarizeResponse(p.summary, p.topic.s, Some(freshId)))
                          else HttpError(500, InternalServerError)
    {
      var prepared := Prepare(cfg, env, svc, req);
      if prepared.HttpError? {
        return HttpError(prepared.status, prepared.detail);
      }
      var p := prepared.value;
      var created := CreateConversationChain(cfg, env, p.provider, p.model);
      var chain := created.value;
      var seeded := AddSummaryToMemory(chain, p.summary, p.url, svc.converse);
      if seeded.Failure? {
        return HttpError(500, InternalServerError);
      }
      sessions := sessions[freshId := Session(chain, p.summary, p.topic, p.url)];
      if p.topic.String? {
        r := Ok(Models.SummarizeResponse(p.summary, p.topic.s, Some(freshId)));
      } else {
        r := HttpError(500, InternalServerError);
      }
    }
    /** `chat_with_summary(request)`: the session's conversation answers;
        a model exception becomes a 500 naming it, and then nothing is
        remembered. No other session's conversation changes. */
    method ChatWithSummary(req: Models.ChatRequest, converse: Converse) returns (r: Outcome<Models.ChatResponse>)
      requires Valid()
      modifies if req.sessionId in sessions then {sessions[req.sessionId].chain} else {}
      ensures Valid() && sessions == old(sessions)
      ensures forall id :: id in sessions && id != req.sessionId ==>
                sessions[id].chain.history == old(sessions[id].chain.history)
      ensures req.sessionId !in sessions ==> r == HttpError(404, ChatSessionNotFound)
      ensures req.sessionId in sessions ==>
                var c := sessions[req.sessionId].chain;
                match converse(c.llm, Window(old(c.history), c.k), req.question)
                case Replied(answer) =>
                  r == Ok(Models.ChatResponse(answer, req.sessionId))
                  && c.history == old(c.history) + [Exchange(req.question, answer)]
                case Raised(e) => r == HttpError(500, ChatErrorPrefix + e) && c.history == old(c.history)
    {
      if req.sessionId !in sessions {
        return HttpError(404, ChatSessionNotFound);
      }
      var chain := sessions[req.sessionId].chain;
      var answer := chain.Predict(req.question, converse);
      match answer {
        case Success(a) => r := Ok(Models.ChatResponse(a, req.sessionId));
        case Failure(e) => r := HttpError(500, ChatErrorPrefix + e);
      }
    }

    /** `ask_question(request)`: as /chat, with its own 404 message and an
        uncaught model exception. */
    method AskQuestion(req: Models.ConversationRequest, converse: Converse)
      returns (r: Outcome<Models.ConversationResponse>)
      requires Valid()
      modifies if req.sessionId in sessions then {sessions[req.sessionId].chain} else {}
      ensures Valid() && sessions == old(sessions)
      ensures forall id :: id in sessions && id != req.sessionId ==>
                sessions[id].chain.history == old(sessions[id].chain.history)
      ensures req.sessionId !in sessions ==> r == HttpError(404, ConversationSessionNotFound)
      ensures req.sessionId in sessions ==>
                var c := sessions[req.sessionId].chain;
                match converse(c.llm, Window(old(c.history), c.k), req.question)
                case Replied(answer) =>
                  r == Ok(Models.ConversationResponse(answer, req.sessionId))
                  && c.history == old(c.history) + [Exchange(req.question, answer)]
                case Raised(_) => r == HttpError(500, InternalServerError) && c.history == old(c.history)
    {
      if req.sessionId !in sessions {
        return HttpError(404, ConversationSessionNotFound);
      }
      var chain := sessions[req.sessionId].chain;
      var answer := chain.Predict(req.question, converse);
      match answer {
        case Success(a) => r := Ok(Models.ConversationResponse(a, req.sessionId));
        case Failure(_) => r := HttpError(500, InternalServerError);
      }
    }
  }
}
