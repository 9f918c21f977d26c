/** Summarization (src/core/text_processor.py): one model call asked for a
    StructuredSummary, read first by the structured-output parser, then by a
    hand-written JSON extraction, and finally given up on in favour of the
    content itself under the topic "Content Analysis". */
module TextProcessor {
  import opened Wrappers
  import opened PyStr
  import Json
  import Models
  import opened Chat

  /** The two decoders the code hands the reply to: LangChain's
      PydanticOutputParser (its JSON-extraction step) and `json.loads`.
      Both are outside the model; None stands for the exception they raise. */
  datatype Decoders = Decoders(
    structured: string -> Option<Json.Value>,
    loads: string -> Option<Json.Value>)

  const DefaultTopic := "Content Analysis"
  const JsonFence := "```json"
  const Fence := "```"
  const ContentLabel := "Content: "

  /** The two messages sent to the model: the configured system prompt
      followed by the parser's format instructions, and the content. */
  function SummaryMessages(systemPrompt: string, formatInstructions: string, content: string): seq<Message> {
    [System(systemPrompt + "\n\n" + formatInstructions), Human(ContentLabel + content)]
  }

  /** The content reaches the model whole, after its label, and the system
      message is the configured prompt, a blank line, and the parser's
      format instructions. */
  lemma SummaryMessagesCarryContent(systemPrompt: string, formatInstructions: string, content: string)
    ensures var ms := SummaryMessages(systemPrompt, formatInstructions, content);
            && |ms| == 2 && ms[0].System? && ms[1].Human?
            && StartsWith(ms[0].content, systemPrompt)
            && ms[0].content[|systemPrompt|..] == "\n\n" + formatInstructions
            && StartsWith(ms[1].content, ContentLabel)
            && ms[1].content[|ContentLabel|..] == content
  {
    var ms := SummaryMessages(systemPrompt, formatInstructions, content);
    assert ms[0].content[..|systemPrompt|] == systemPrompt;
    assert ms[1].content[..|ContentLabel|] == ContentLabel;
  }

  /** `parser.parse(text)`: decoding, then validation against StructuredSummary. */
  function StructuredParse(decode: string -> Option<Json.Value>, text: string): (r: Option<Models.StructuredSummary>)
    ensures r.Some? ==> decode(text).Some? && Models.ValidStructuredSummary(r.value)
  {
    match decode(text)
    case None => None
    case Some(v) => Models.ValidateStructuredSummary(v)
  }

  /** The text the hand-written fallback hands to `json.loads`: the body of
      a ```json block; else the span from the first '{' to the last '}';
      else the whole reply, stripped. */
  function FallbackCandidate(text: string): string {
    if Contains(text, JsonFence) then
      SplitFirst(text, JsonFence);
      Strip(Split(Split(text, JsonFence)[1], Fence)[0])
    else if Contains(text, "{") && Contains(text, "}") then
      PySlice(text, Find(text, "{"), RFind(text, "}") + 1)
    else Strip(text)
  }

  /** With a single ```json block, the candidate is what follows its opening
      fence up to the next ``` (or to the end), stripped. */
  lemma {:induction false} FenceCandidate(text: string)
    requires Contains(text, JsonFence)
    ensures var after := text[Find(text, JsonFence) + |JsonFence|..];
            !Contains(after, JsonFence) ==>
              FallbackCandidate(text) == Strip(if Contains(after, Fence) then after[..Find(after, Fence)] else after)
  {
    SplitFirst(text, JsonFence);
    var after := text[Find(text, JsonFence) + |JsonFence|..];
    if !Contains(after, JsonFence) {
      SplitFirst(after, JsonFence);
      assert Split(text, JsonFence)[1] == after;
      SplitFirst(after, Fence);
    }
  }

  /** Without a ```json block but with both braces, the candidate is the
      span from the first '{' through the last '}', and it is a
      brace-delimited text whenever the first '{' precedes the last '}'. */
  lemma {:induction false} BraceCandidate(text: string)
    requires !Contains(text, JsonFence) && Contains(text, "{") && Contains(text, "}")
    ensures var open, close := Find(text, "{"), RFind(text, "}");
            && 0 <= open && 0 <= close
            && (open < close ==> FallbackCandidate(text) == text[open..close + 1]
                                 && FallbackCandidate(text)[0] == '{'
                                 && FallbackCandidate(text)[close - open] == '}')
            && (close < open ==> FallbackCandidate(text) == "")
  {
    var open, close := Find(text, "{"), RFind(text, "}");
    var i := Find(text, "}");
    assert OccursAt(text, "}", i);
    assert OccursAt(text, "{", open);
    assert text[open..open + 1][0] == text[open];
    assert 0 <= close;
    assert OccursAt(text, "}", close);
    assert text[close..close + 1][0] == text[close];
  }

  /** With neither a ```json block nor both braces, the candidate is the
      stripped reply. */
  lemma WholeCandidate(text: string)
    requires !Contains(text, JsonFence) && !(Contains(text, "{") && Contains(text, "}"))
    ensures FallbackCandidate(text) == Strip(text)
  {
  }

  /** The hand-written fallback: decode the candidate; it must be a JSON
      object whose "summary" and "topic" (missing ones read as "") are both
      truthy. Any other outcome is an exception, here None. */
  function ManualParse(loads: string -> Option<Json.Value>, text: string): Option<(Json.Value, Json.Value)> {
    match loads(FallbackCandidate(text))
    case Some(Object(fields)) =>
      var summary := Json.Get(fields, "summary", Json.String(""));
      var topic := Json.Get(fields, "topic", Json.String(""));
      if Json.Truthy(summary) && Json.Truthy(topic) then Some((summary, topic)) else None
    case _ => None
  }

  /** The fallback succeeds exactly when the candidate decodes to an object
      holding a truthy "summary" and a truthy "topic", and then returns
      those two values unchanged, whatever their JSON type. */
  lemma ManualParseIff(loads: string -> Option<Json.Value>, text: string)
    ensures var v := loads(FallbackCandidate(text));
            ManualParse(loads, text).Some? <==>
              (&& v.Some? && v.value.Object?
               && "summary" in v.value.fields && Json.Truthy(v.value.fields["summary"])
               && "topic" in v.value.fields && Json.Truthy(v.value.fields["topic"]))
    ensures ManualParse(loads, text).Some? ==>
              var fields := loads(FallbackCandidate(text)).value.fields;
              ManualParse(loads, text).value == (fields["summary"], fields["topic"])
  {
  }

  /** The default answer: the content itself, under "Content Analysis". */
  function Default(content: string): (Json.Value, Json.Value) {
    (Json.String(content), Json.String(DefaultTopic))
  }

  /** How `summarize_content` reads the model's reply. A raised exception
      leaves the reply text unbound, so the fallback fails too and the
      default is returned. */
  function ReadReply(reply: Reply, decoders: Decoders, content: string): (r: (Json.Value, Json.Value))
    ensures reply.Raised? ==> r == Default(content)
  {
    match reply
    case Raised(_) => Default(content)
    case Replied(text) =>
      match StructuredParse(decoders.structured, text)
      case Some(s) => (Json.String(s.summary), Json.String(s.topic))
      case None =>
        match ManualParse(decoders.loads, text)
        case Some(pair) => pair
        case None => Default(content)
  }

  /** `summarize_content(content, llm)`: returns (summary, topic). */
  function SummarizeContent(llm: Invoke, decoders: Decoders, systemPrompt: string, formatInstructions: string, content: string): (Json.Value, Json.Value) {
    ReadReply(llm(SummaryMessages(systemPrompt, formatInstructions, content)), decoders, content)
  }

  /** When the structured parser accepts the reply, its validated fields are
      returned: a summary of at least 300 characters and a topic of 3 to 50. */
  lemma StructuredWins(reply: Reply, decoders: Decoders, content: string)
    requires reply.Replied? && StructuredParse(decoders.structured, reply.text).Some?
    ensures var r := ReadReply(reply, decoders, content);
            && r.0.String? && r.1.String?
            && |r.0.s| >= Models.SummaryMinLength
            && Models.TopicMinLength <= |r.1.s| <= Models.TopicMaxLength
  {
  }

  /** Every answer comes from exactly one of the three paths, in order: the
      structured parser, the hand-written fallback, or the default. */
  lemma {:induction false} ThreeOutcomes(reply: Reply, decoders: Decoders, content: string)
    ensures var r := ReadReply(reply, decoders, content);
            match reply
            case Raised(_) => r == Default(content)
            case Replied(text) =>
              match StructuredParse(decoders.structured, text)
              case Some(s) => r == (Json.String(s.summary), Json.String(s.topic))
              case None =>
                || (ManualParse(decoders.loads, text).Some? && r == ManualParse(decoders.loads, text).value
                    && Json.Truthy(r.0) && Json.Truthy(r.1))
                || (ManualParse(decoders.loads, text).None? && r == Default(content))
  {
    if reply.Replied? && StructuredParse(decoders.structured, reply.text).None? {
      ManualParseIff(decoders.loads, reply.text);
    }
  }

  /** A summary that is not the content itself is never empty: both the
      validated and the hand-parsed summaries are truthy. */
  lemma {:induction false} SummaryNonEmptyUnlessDefault(reply: Reply, decoders: Decoders, content: string)
    ensures var r := ReadReply(reply, decoders, content);
            r == Default(content) || (Json.Truthy(r.0) && Json.Truthy(r.1))
  {
    ThreeOutcomes(reply, decoders, content);
  }
}
