/** The request, response and schema records of the summarizer API
    (models.py), and how a decoded JSON body is validated into them. */
module Models {
  import opened Wrappers
  import Json

  datatype SummarizeRequest = SummarizeRequest(url: string, provider: Option<string>, model: Option<string>)

  /** The schema the model is asked to fill in. */
  datatype StructuredSummary = StructuredSummary(topic: string, summary: string)

  datatype SummarizeResponse = SummarizeResponse(summary: string, mainTopic: string, sessionId: Option<string>)

  datatype ChatRequest = ChatRequest(sessionId: string, question: string)

  datatype ChatResponse = ChatResponse(answer: string, sessionId: string)

  datatype ConversationRequest = ConversationRequest(question: string, sessionId: string)

  datatype ConversationResponse = ConversationResponse(answer: string, sessionId: string)

  datatype ProviderInfo = ProviderInfo(models: seq<string>, defaultModel: string)

  /** `available_providers` keeps the registry's order, as a Python dict does. */
  datatype ProvidersResponse = ProvidersResponse(availableProviders: seq<(string, ProviderInfo)>, totalProviders: int)

  const TopicMinLength: nat := 3
  const TopicMaxLength: nat := 50
  const SummaryMinLength: nat := 300

  /** The field constraints of StructuredSummary: a topic of 3 to 50
      characters and a summary of at least 300. */
  predicate ValidStructuredSummary(s: StructuredSummary) {
    TopicMinLength <= |s.topic| <= TopicMaxLength && SummaryMinLength <= |s.summary|
  }

  type Body = map<string, Json.Value>

  /** A required `str` field: it must be present and be a string. */
  function RequiredString(body: Body, key: string): Option<string> {
    if key in body && body[key].String? then Some(body[key].s) else None
  }

  /** An `Optional[str] = None` field: absent or null reads as None, a string
      as itself; any other value fails validation (the outer None). */
  function OptionalString(body: Body, key: string): Option<Option<string>> {
    if key !in body || body[key].Null? then Some(None)
    else if body[key].String? then Some(Some(body[key].s))
    else None
  }

  /** Validation of a decoded value against StructuredSummary: what it
      accepts satisfies the length constraints and carries the decoded
      strings unchanged. */
  function ValidateStructuredSummary(v: Json.Value): (r: Option<StructuredSummary>)
    ensures r.Some? ==> ValidStructuredSummary(r.value)
    ensures r.Some? ==> v.Object? && "topic" in v.fields && "summary" in v.fields
                        && v.fields["topic"] == Json.String(r.value.topic)
                        && v.fields["summary"] == Json.String(r.value.summary)
  {
    if !v.Object? then None
    else
      match (RequiredString(v.fields, "topic"), RequiredString(v.fields, "summary"))
      case (Some(t), Some(s)) =>
        var candidate := StructuredSummary(t, s);
        if ValidStructuredSummary(candidate) then Some(candidate) else None
      case _ => None
  }

  function EncodeStructuredSummary(s: StructuredSummary): Json.Value {
    Json.Object(map["topic" := Json.String(s.topic), "summary" := Json.String(s.summary)])
  }

  /** A summary round-trips through JSON exactly when it meets the
      constraints; otherwise validation rejects it. */
  lemma StructuredSummaryRoundTrip(s: StructuredSummary)
    ensures ValidStructuredSummary(s) ==> ValidateStructuredSummary(EncodeStructuredSummary(s)) == Some(s)
    ensures !ValidStructuredSummary(s) ==> ValidateStructuredSummary(EncodeStructuredSummary(s)) == None
  {
  }

  /** Validation of a /summarize body: `url` is required, `provider` and
      `model` are optional and default to None. */
  function DecodeSummarizeRequest(body: Body): (r: Option<SummarizeRequest>)
    ensures "url" !in body ==> r.None?
    ensures r.Some? ==> body["url"] == Json.String(r.value.url)
    ensures r.Some? && "provider" !in body ==> r.value.provider == None
    ensures r.Some? && "model" !in body ==> r.value.model == None
  {
    match (RequiredString(body, "url"), OptionalString(body, "provider"), OptionalString(body, "model"))
    case (Some(u), Some(p), Some(m)) => Some(SummarizeRequest(u, p, m))
    case _ => None
  }

  function EncodeSummarizeRequest(req: SummarizeRequest): Body {
    var b := map["url" := Json.String(req.url)];
    var b := if req.provider.Some? then b["provider" := Json.String(req.provider.value)] else b;
    if req.model.Some? then b["model" := Json.String(req.model.value)] else b
  }

  lemma SummarizeRequestRoundTrip(req: SummarizeRequest)
    ensures DecodeSummarizeRequest(EncodeSummarizeRequest(req)) == Some(req)
  {
  }

  /** Validation of a /chat body: both `session_id` and `question` are required. */
  function DecodeChatRequest(body: Body): (r: Option<ChatRequest>)
    ensures "session_id" !in body || "question" !in body ==> r.None?
    ensures r.Some? ==> body["session_id"] == Json.String(r.value.sessionId)
                        && body["question"] == Json.String(r.value.question)
  {
    match (RequiredString(body, "session_id"), RequiredString(body, "question"))
    case (Some(id), Some(q)) => Some(ChatRequest(id, q))
    case _ => None
  }

  function EncodeChatRequest(req: ChatRequest): Body {
    map["session_id" := Json.String(req.sessionId), "question" := Json.String(req.question)]
  }

  lemma ChatRequestRoundTrip(req: ChatRequest)
    ensures DecodeChatRequest(EncodeChatRequest(req)) == Some(req)
  {
  }

  /** Validation of a /conversation body: both `question` and `session_id` are required. */
  function DecodeConversationRequest(body: Body): (r: Option<ConversationRequest>)
    ensures "session_id" !in body || "question" !in body ==> r.None?
    ensures r.Some? ==> body["session_id"] == Json.String(r.value.sessionId)
                        && body["question"] == Json.String(r.value.question)
  {
    match (RequiredString(body, "question"), RequiredString(body, "session_id"))
    case (Some(q), Some(id)) => Some(ConversationRequest(q, id))
    case _ => None
  }

  function EncodeConversationRequest(req: ConversationRequest): Body {
    map["question" := Json.String(req.question), "session_id" := Json.String(req.sessionId)]
  }

  lemma ConversationRequestRoundTrip(req: ConversationRequest)
    ensures DecodeConversationRequest(EncodeConversationRequest(req)) == Some(req)
  {
  }

  /** Reading a /summarize response: `session_id` is optional and defaults to None. */
  function DecodeSummarizeResponse(body: Body): (r: Option<SummarizeResponse>)
    ensures "summary" !in body || "main_topic" !in body ==> r.None?
    ensures r.Some? && "session_id" !in body ==> r.value.sessionId == None
    ensures r.Some? ==> body["summary"] == Json.String(r.value.summary)
                        && body["main_topic"] == Json.String(r.value.mainTopic)
  {
    match (RequiredString(body, "summary"), RequiredString(body, "main_topic"), OptionalString(body, "session_id"))
    case (Some(s), Some(t), Some(id)) => Some(SummarizeResponse(s, t, id))
    case _ => None
  }

  /** The response as FastAPI serialises it: a missing session id is null. */
  function EncodeSummarizeResponse(resp: SummarizeResponse): Body {
    map["summary" := Json.String(resp.summary),
        "main_topic" := Json.String(resp.mainTopic),
        "session_id" := if resp.sessionId.Some? then Json.String(resp.sessionId.value) else Json.Null]
  }

  lemma SummarizeResponseRoundTrip(resp: SummarizeResponse)
    ensures DecodeSummarizeResponse(EncodeSummarizeResponse(resp)) == Some(resp)
  {
  }
}
