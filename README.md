# Webpage summarizer: a Dafny model of its core

The system is a small web service that summarizes web pages with a language
model and then answers follow-up questions about them. This project models
its own logic and proves properties of that model. The logic modelled is:

- **URL check and content cleaning** (`src/core/web_scraper.py`):
  - `validate_url` over a model of `urlparse`;
  - main-region selection over a document tree;
  - removal of non-content subtrees, done in place;
  - line collapsing, truncation and the readability check;
  - the fetch step's timeout clamp and body cap.
- **Summary parsing** (`src/core/text_processor.py`): the tolerant chain of parsers.
  1. the structured parser;
  2. the body of a ```` ```json ```` block;
  3. the span between braces;
  4. the stripped reply;
  5. the fixed default `(content, "Content Analysis")`.
- **Provider registry** (`src/core/llm_manager.py`):
  - which configured providers are available;
  - how `create_llm` fails or dispatches;
  - the windowed conversation memory and the seed turn that opens it.
- **HTTP endpoints** (`src/api/server.py`):
  - the placeholder-key check;
  - provider and model selection;
  - the order of the 400/422/500 outcomes of `/summarize`;
  - the session map behind `/chat` and `/conversation`;
  - the `/providers` listing.
- **Request and response records** (`models.py`), with the length rules of `StructuredSummary`.

Files (one module each):

| file | module | contents |
|---|---|---|
| `wrappers.dfy` | `Wrappers` | `Option` and `Result` |
| `pystr.dfy` | `PyStr` | the Python `str` operations the code relies on: `strip`, `find`, `rfind`, `split`, `join`, `startswith`, slices |
| `json.dfy` | `Json` | decoded JSON values and Python truthiness |
| `models.dfy` | `Models` | the records of `models.py`, with validation and encode/decode round trips |
| `settings.dfy` | `Settings` | the parsed configuration and the environment lookups `get_api_key` and `get_azure_endpoint` |
| `chat.dfy` | `Chat` | chat messages and a model reply (an answer or a raised error) |
| `web_scraper.dfy` | `WebScraper` | the scraper |
| `text_processor.dfy` | `TextProcessor` | the summary parser |
| `llm_manager.dfy` | `LlmManager` | the provider registry and the conversation chain |
| `server.dfy` | `Server` | the endpoints and the session store |

How the model is built:

- **Documents.** An HTML document is a flat preorder sequence of nodes. `ends[i]` bounds the subtree of node `i`, so that subtree is the index range `[i, ends[i])`.
- **Selectors** are the four forms the code uses: tag, `[attr="v"]`, `.class` and `#id`.
- **Cleaning** is the class `WebScraper.Soup`, whose `live` flags `decompose()` clears in place.
- **External services** are function-valued parameters. These are the network, the HTML parsers, the JSON decoders, the chat models and the uuid generator. None of them is modelled further.
- **Errors.** Every exception the code raises or catches is a `Result`/`Option` failure, or an HTTP error outcome.

## Model

| member | source | states |
|---|---|---|
| WebScraper.ValidateUrl | src/core/web_scraper.py:7-11 | succeeds exactly when urlparse does not raise; returns True exactly when both the parsed scheme and netloc are non-empty; the message is "URL format is valid" or "Please enter a valid URL with http:// or https://" accordingly |
| WebScraper.SchemeAndHostAccepted | src/core/web_scraper.py:7-11 | every `scheme://host/path` is accepted when the scheme starts with a letter and the host is non-empty with no delimiter or bracket |
| WebScraper.NoSchemeRejected | src/core/web_scraper.py:7-11 | a URL with no ':' (and no bracket) is refused with the invalid-URL message |
| WebScraper.RemoveUnsafe | src/core/web_scraper.py:8 | urlparse's cleaning keeps exactly the input's characters other than tab, CR and LF, and leaves a string without them unchanged |
| WebScraper.RemoveUnsafeAppend | src/core/web_scraper.py:8 | the cleaning works character by character: cleaning a concatenation cleans each part and keeps them in order |
| WebScraper.NetlocEnd | src/core/web_scraper.py:8 | the netloc runs to the first '/', '?' or '#' after "//", or to the end |
| WebScraper.FirstMatchFrom | src/core/web_scraper.py:21 | `select_one` finds the first node in document order matching the selector, and None only when no node matches |
| WebScraper.FirstMatchingSelector | src/core/web_scraper.py:20-23 | the selector loop stops at the first selector with a match; every earlier selector matches nothing |
| WebScraper.SelectorPriority | src/core/web_scraper.py:14-23 | the region chosen is the match of the earliest of the nine selectors that matches; later ones are not consulted |
| WebScraper.ContainersFrom | src/core/web_scraper.py:25 | `find_all` lists exactly the div/section/article elements, in document order |
| WebScraper.FirstMax | src/core/web_scraper.py:27 | `max` with a key picks a greatest key, the first one on ties |
| WebScraper.JoinedPiecesLength | src/core/web_scraper.py:27-28 | the stripped-text length used as key is the length of the concatenated stripped text pieces |
| WebScraper.LargestIsFirstMaximum | src/core/web_scraper.py:25-27 | `max` keyed by `len(x.get_text(strip=True))`: the largest container's stripped text is at least as long as every container's, and strictly longer than every earlier one's |
| WebScraper.LargestBlockFallback | src/core/web_scraper.py:25-31 | with no selector match: the largest container when some container has more than 200 characters of stripped text; otherwise body, else the document |
| WebScraper.BodyOrDocument | src/core/web_scraper.py:31 | the last fallback is an element: the first body, or the document root |
| WebScraper.ExtractMainContent | src/core/web_scraper.py:13-31 | the chosen region is always an element of the document |
| WebScraper.RemovedBeforeStep | src/core/web_scraper.py:34-35 | a node is removed once the loop has passed node j exactly when it was removed before, or node j is a non-content descendant of the region and its subtree holds the node |
| WebScraper.Soup.constructor | src/core/web_scraper.py:67-70 | a freshly parsed document has every node in place |
| WebScraper.Soup.Decompose | src/core/web_scraper.py:35 | `decompose()` kills exactly the subtree of the tag and nothing else |
| WebScraper.Soup.FastCleanText | src/core/web_scraper.py:33-40 | after cleaning, exactly the non-content descendants' subtrees are gone; the text is the collapse of the remaining stripped text pieces joined by spaces |
| WebScraper.PieceSource | src/core/web_scraper.py:37 | every piece of `get_text(strip=True)` is the stripped text of a live text node in range |
| WebScraper.CleanedTextSources | src/core/web_scraper.py:34-37 | every piece of the cleaned text comes from a text node inside the region that lies under no script/style/nav/header/footer/aside/form/button descendant |
| WebScraper.NonBlankLines | src/core/web_scraper.py:39 | the kept lines are non-empty and stripped, and contain no newline when the input lines contain none |
| WebScraper.SplitSingleLine | src/core/web_scraper.py:39 | a text with no newline splits into itself |
| WebScraper.SplitPiecesHaveNoNewline | src/core/web_scraper.py:39 | no line produced by `split('\n')` holds a newline |
| WebScraper.JoinTrimmed | src/core/web_scraper.py:40 | joining non-empty stripped lines with spaces gives a stripped text without newline, non-empty when there was a line |
| WebScraper.Collapse | src/core/web_scraper.py:39-40 | the collapsed text has no newline and no leading or trailing whitespace |
| WebScraper.CollapseIdempotent | src/core/web_scraper.py:39-40 | collapsing twice changes nothing |
| WebScraper.TruncateShape | src/core/web_scraper.py:75-77 | a text within the budget is unchanged; a longer one becomes its first max_chars characters plus "...", max_chars + 3 in all |
| WebScraper.CheckReadable | src/core/web_scraper.py:79-85 | rejected with "No readable content found on the page" exactly when the stripped text has fewer than 50 characters; otherwise the text itself is returned |
| WebScraper.SmallBudgetRejectsEverything | src/core/web_scraper.py:75-80 | a budget under 47 characters rejects every page |
| WebScraper.EffectiveTimeout | src/core/web_scraper.py:54 | the timeout is min(configured, 10) |
| WebScraper.ParserInput | src/core/web_scraper.py:64-65 | the parser sees a prefix of the body of at most max_content_size bytes |
| WebScraper.FetchBounds | src/core/web_scraper.py:54-65 | the request's timeout is at most 10 and at most max_content_size bytes reach the parser |
| WebScraper.TruncateAndCheck | src/core/web_scraper.py:75-85 | an accepted collapsed text keeps at least 50 characters once stripped, has no newline, and has at most max_chars + 3 characters |
| WebScraper.FetchAndCleanResult | src/core/web_scraper.py:42-92 | a success is readable, single-line and within max_chars + 3; a failure is the timeout message, the no-content message, or a message starting with "Failed to fetch page: " or "Error processing page: " |
| WebScraper.CleanDocument | src/core/web_scraper.py:72-85 | choosing the region, cleaning it in place, truncating and checking give the readable text or "No readable content found on the page", as `CheckReadable` of the truncated cleaned text |
| WebScraper.FetchAndCleanContent | src/core/web_scraper.py:42-92 | the step-by-step fetch, parse, select, clean in place, truncate and check computes `FetchAndClean` |
| TextProcessor.SummaryMessagesCarryContent | src/core/text_processor.py:12-18 | two messages: a system message that is the configured prompt, then "\n\n", then the parser's format instructions; then "Content: " followed by the whole content |
| TextProcessor.StructuredParse | src/core/text_processor.py:33 | a structured result exists only when the reply decodes and the decoded value is a valid StructuredSummary |
| TextProcessor.StructuredWins | src/core/text_processor.py:33-36 | a structured result is returned as is: a summary of at least 300 characters and a topic of 3 to 50 |
| TextProcessor.FenceCandidate | src/core/text_processor.py:42-43 | with a ```json block, the candidate is the text after the first ```json up to the next ``` (or the end), stripped |
| TextProcessor.BraceCandidate | src/core/text_processor.py:44-47 | without a ```json block but with both braces, the candidate runs from the first '{' through the last '}', starts with '{' and ends with '}'; it is empty when the last '}' precedes the first '{' |
| TextProcessor.WholeCandidate | src/core/text_processor.py:48-49 | otherwise the candidate is the stripped reply |
| TextProcessor.ManualParseIff | src/core/text_processor.py:51-59 | the fallback succeeds exactly when the candidate decodes to an object with a truthy "summary" and a truthy "topic", and returns exactly those two values |
| TextProcessor.ReadReply | src/core/text_processor.py:20-63 | a model call that raises yields the default (content, "Content Analysis") |
| TextProcessor.ThreeOutcomes | src/core/text_processor.py:20-63 | the answer is the structured result when there is one, else the fallback's pair when it succeeds, else the default built from the input content; nothing is raised |
| TextProcessor.SummaryNonEmptyUnlessDefault | src/core/text_processor.py:51-63 | any answer other than the default has a truthy summary and a truthy topic |
| LlmManager.GetAvailableProviders | src/core/llm_manager.py:8-33 | the loop builds the order-preserving filter `Available` of the configured providers |
| LlmManager.AvailableInConfigOrder | src/core/llm_manager.py:8-31 | every entry is a configured provider that is included, copied verbatim (models, default_model, temperature), and entries keep configuration order |
| LlmManager.AvailableIff | src/core/llm_manager.py:12-31 | a configured provider is available exactly when it is enabled, its key is non-empty and, for azure_openai, the endpoint is non-empty |
| LlmManager.AvailableDistinct | src/core/llm_manager.py:8-33 | the registry names are distinct |
| LlmManager.DisabledNeverAvailable | src/core/llm_manager.py:12-13 | a provider with `enabled` missing or false is never available |
| LlmManager.AvailableMonotone | src/core/llm_manager.py:15-31 | setting a key variable to a non-empty value never removes a provider and changes nothing for providers reading other variables |
| LlmManager.CreateLlmOutcomes | src/core/llm_manager.py:35-62 | KeyError for an unconfigured name; then "API key not found" for a missing or empty key, before dispatch; then one model per known name, with the requested model, configured temperature, the key, and for Azure the endpoint and api_version defaulting to "2024-02-15-preview"; otherwise "Unsupported provider" |
| LlmManager.AvailableCreates | src/core/llm_manager.py:35-62 | an available provider with a known name always yields a model |
| LlmManager.Window | src/core/llm_manager.py:66 | the memory shows the last k exchanges (all of them when fewer) |
| LlmManager.WindowSlides | src/core/llm_manager.py:66 | a new exchange enters the window at the end and, when the window is full, the oldest leaves |
| LlmManager.WindowForgets | src/core/llm_manager.py:66 | exchanges older than the last k make no difference |
| LlmManager.ConversationChain.constructor | src/core/llm_manager.py:64-69 | a chain starts with the given model, window and an empty memory |
| LlmManager.ConversationChain.Predict | src/core/llm_manager.py:68 | the model answers with the window in view; the exchange is stored only when it answers |
| LlmManager.CreateConversationChain | src/core/llm_manager.py:64-69 | fails exactly as create_llm does; otherwise a fresh chain over that model with window 3 by default and empty memory |
| LlmManager.SeedTurnParts | src/core/llm_manager.py:72 | the seed reads "I summarized the webpage at ", the url, ". Here's the summary: ", then the whole summary |
| LlmManager.SeedInWindow | src/core/llm_manager.py:64-73 | the seed stays in view until k questions follow it, and then is forgotten |
| LlmManager.AddSummaryToMemory | src/core/llm_manager.py:71-73 | one prediction on the seed turn; it is remembered when the model answers, and a model exception propagates |
| Server.PlaceholderClausesSubsumed | src/api/server.py:71-74 | a key passes exactly when set, not starting with "your_" and longer than 10; an endpoint exactly when set and not starting with "your_" |
| Server.ValidKeysOutcome | src/api/server.py:66-75 | the key check raises exactly when one of the four names is not configured; otherwise it keeps exactly the names whose key (and Azure endpoint) pass |
| Server.ValidKeysFailureSticks | src/api/server.py:67-68 | once a name raises, the loop ends with that error |
| Server.ValidKeys | src/api/server.py:66-75 | the loop computes `ValidKeysOf` over openai, azure_openai, anthropic, google |
| Server.PlaceholderKeyStillAvailable | src/api/server.py:66-78 | the key check does not feed availability: an enabled provider whose key is "your_api_key_here" is available yet fails the check |
| Server.RegistryLookup | src/api/server.py:83-85 | registry lookup finds an entry of that name, or reports that none has it |
| Server.SelectProviderSpec | src/api/server.py:83-93 | selection fails (IndexError) exactly on an empty registry; it picks the requested provider when available, else the first with its default model; the model is always one the provider offers or its default |
| Server.RequestedModelHonoured | src/api/server.py:83-89 | for an available requested provider, the requested model is used exactly when it is given, non-empty and in that provider's models; a model that is None, "" or not offered gets the provider's default_model |
| Server.GetProviders | src/api/server.py:44-59 | the listing has the registry's entries in order, each with only models and default_model, and total_providers equal to their number |
| Server.ListedIffIncluded | src/api/server.py:44-59 | a configured provider is listed exactly when it is available, with its configured models and default model |
| Server.PrepareStatuses | src/api/server.py:95-109 | /summarize refuses only with 400, 422 or 500; a 400 carries the invalid-URL message |
| Server.MissingProviderFailsEverything | src/api/server.py:66-68 | a configuration missing one of the four providers makes every /summarize a 500 |
| Server.NoProviderFailsEverything | src/api/server.py:90-92 | with no available provider, every /summarize is a 500, before the URL is checked |
| Server.InvalidUrlRefusedBeforeFetch | src/api/server.py:97-99 | after selection, a URL without scheme or host is a 400 whatever the page and the model |
| Server.FetchFailureIs422 | src/api/server.py:101-103 | after the URL check, a fetch or cleaning failure is a 422 with the scraper's message |
| Server.ErrorLeadingPageFailsWhenModelRaises | src/api/server.py:105-109 | when the model raises on a page whose text starts with "Error", the default summary makes the request a 500 with the page text as detail |
| Server.PreparedSummaryShape | src/api/server.py:78-109 | an accepted summary comes from an available provider with an offered or default model and the model create_llm builds, for a URL with scheme and host that was fetched; it does not start with "Error" |
| Server.Prepare | src/api/server.py:63-109 | the steps before the session is opened compute `PrepareSummary` |
| Server.SessionStore.constructor | src/api/server.py:30 | the session map starts empty |
| Server.SessionStore.SummarizePage | src/api/server.py:61-126 | every refusal leaves the map unchanged; a failing seed turn stores nothing; otherwise exactly one new session under the fresh id, with its own fresh chain remembering the seed, and that summary, topic and url; no other session or conversation changes |
| Server.SessionStore.ChatWithSummary | src/api/server.py:128-140 | 404 "Chat session not found. Please summarize a webpage first." for an unknown id; otherwise the session's chain answers and the response echoes the id; a model exception is a 500 "Error processing chat: ..." and is not remembered; the map and other conversations are unchanged |
| Server.SessionStore.AskQuestion | src/api/server.py:142-151 | as /chat, with 404 "Conversation session not found" and an uncaught model exception (500) |
| Models.ValidateStructuredSummary | models.py:14-24 | a validated summary has a topic of 3 to 50 characters and a summary of at least 300, read from the object's string fields |
| Models.StructuredSummaryRoundTrip | models.py:14-24 | encoding then validating gives the record back exactly when it meets the length rules |
| Models.DecodeSummarizeRequest | models.py:8-12 | `url` is required; `provider` and `model` default to None |
| Models.SummarizeRequestRoundTrip | models.py:8-12 | decoding an encoded request gives it back |
| Models.DecodeChatRequest | models.py:32-35 | `session_id` and `question` are both required |
| Models.ChatRequestRoundTrip | models.py:32-35 | decoding an encoded chat request gives it back |
| Models.DecodeConversationRequest | models.py:42-45 | `session_id` and `question` are both required |
| Models.ConversationRequestRoundTrip | models.py:42-45 | decoding an encoded conversation request gives it back |
| Models.DecodeSummarizeResponse | models.py:26-30 | `summary` and `main_topic` are required; `session_id` defaults to None |
| Models.SummarizeResponseRoundTrip | models.py:26-30 | decoding an encoded response gives it back |
| Settings.IndexOf | src/config/settings.py:17 | a provider's position in the configuration, -1 exactly when it is absent |
| PyStr.StripBounds | src/core/web_scraper.py:39 | `strip()` returns a slice of the input, with only whitespace outside it |
| PyStr.StripIsTrimmed | src/core/web_scraper.py:39 | a stripped string has no whitespace at either end |
| PyStr.StripKeepsContent | src/core/web_scraper.py:79 | stripping adds no character and keeps every non-whitespace one |
| PyStr.FindFrom | src/core/text_processor.py:45 | `find` returns the first occurrence, or -1 when there is none |
| PyStr.RFind | src/core/text_processor.py:46 | `rfind` returns the last occurrence, or -1 when there is none |
| PyStr.Split | src/core/web_scraper.py:39 | `split(sep)` yields at least one piece, joining the pieces with sep restores the string, and no piece contains sep |
| PyStr.SplitFirst | src/core/text_processor.py:43 | the first piece ends at the first occurrence and the rest is the split of what follows |
| PyStr.PyPrefix | src/core/web_scraper.py:65 | `s[:n]` is a prefix of s, of length min(n, len(s)) for n >= 0 |
| PyStr.PySlice | src/core/text_processor.py:47 | `s[a:b]` is the slice when a < b, and empty when b <= a |

## Where the code and its documented intent differ

The model follows the code in each of these cases:

- The key check at the top of `/summarize` rejects placeholder keys such as "your_api_key_here", but its result `valid_keys` is never read. Availability only asks for a non-empty key, so a placeholder key still makes its provider available (`Server.PlaceholderKeyStillAvailable`).
- The truncated text can be `max_text_chars + 3` characters long, because "..." is appended after the cut. It is not kept within the budget (`WebScraper.TruncateShape`).
- The 500 check `summary.startswith("Error")` never sees an error message from the summarizer. The summarizer's default answer is the page text itself. So when the model fails, a page whose text starts with "Error" becomes a 500 that carries that text (`Server.ErrorLeadingPageFailsWhenModelRaises`).
- If a topic that is not a string comes back from the JSON fallback, `/summarize` still stores the session before the response fails (`Server.SessionStore.SummarizePage`).

## Left out

- Network I/O (`requests`), HTML parsing (lxml, html.parser) and BeautifulSoup's CSS engine are not modelled. Fetching and parsing are function parameters. Selectors are limited to the four forms the code uses.
- The text of the model's reply is treated as a string. A structured `content` list is not modelled.
- The structured output parser, `json.loads` and the chat models are function parameters. So are the prompt file and the format instructions.
- Reading `conf/config.yaml`, `prompts/prompts.yaml` and `.env` is not modelled. The configuration and the environment are values that stay the same for a whole request, although the code re-reads the file on every lookup.
- Pydantic's `HttpUrl` validation and normalisation of `SummarizeRequest.url` are not modelled. The handler receives the URL string as given.
- urlparse:
  - the NFKC check on the netloc and the scheme-specific rules are left out;
  - the bracket rule raises only for an unbalanced '[' or ']' in the netloc;
  - any other exception from `urlparse` is left out.
- A request whose timeout `requests` refuses, and any exception other than a timeout or a request error, are one outcome of the fetch parameter (`Crashed`). Its message is the exception text.
- The `/` and `/health` endpoints return constants and are not modelled.
- `uvicorn` start-up, the Streamlit client, timing and `print` logging are not modelled.
- Concurrent requests on the session map are not modelled. Each endpoint call is one atomic step.
- `ConversationBufferWindowMemory` formatting is not modelled. The window is counted in exchanges, and the prompt the chain sends is left to the `Converse` parameter.
- Temperatures are real numbers, not floats.
- Decoded JSON numbers are finite reals. The NaN, Infinity and -Infinity that `json.loads` accepts, all truthy in Python, are not modelled.
- The scraping timeout is a whole number of seconds. A fractional timeout in the configuration, such as 2.5, is not modelled.
- TextProcessor.FenceCandidate: stated only when the text after the first ```json holds no second ```json. There, overlapping backticks (as in "`````json") make the code's double split differ from a plain "up to the next ```" reading.
- WebScraper.AsciiLower: states only that lowering keeps the length. The scheme's case does not affect whether it is empty, which is all validate_url asks.
