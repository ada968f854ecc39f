# Azure AI Foundry knowledge-base chat bot, modelled in Dafny

This project models the request pipeline of the `AzureAIFoundryBot` class in
`app.py`, a Flask back end. The bot answers a chat message in five steps:

1. It asks an Azure Cognitive Search index for the documents closest to the query.
2. It composes a system prompt: fixed instructions followed by a context block
   that lists those documents as numbered articles.
3. It assembles the message list for the completion service. The list holds the
   system prompt, the last ten entries of the conversation history and the new
   query. It is built in one of two forms, one for the Azure AI Inference client
   and one for the Azure OpenAI client.
4. It calls the completion service. An error that mentions `401`/`Unauthorized`
   or `403` is re-raised under a fixed message.
5. It returns a result record. Every failure is folded into that record.

At start-up the bot reads its configuration and normalises the endpoints. The
chat endpoint gets `https://` and loses its trailing slashes. The Azure OpenAI
client gets `ai.azure.com` rewritten to `openai.azure.com`. The search endpoint
only gets the scheme.

Modules, in dependency order:

- `Wrappers`: `Option` and `Result`. Python's `None` and raised exceptions are
  modelled with these.
- `Text`: the Python string operations the bot uses, on `seq<char>`:
  - `startswith`, `in`, `rstrip` of one character, `replace`;
  - decimal formatting of the article number.
- `Endpoints`: endpoint normalisation.
- `UpstreamErrors`: classification of a failed completion call.
- `KnowledgeSearch`: the knowledge-base document and the mapping of search hits to documents.
- `ContextComposer`: the context block and the system prompt. It has a
  specification function and the accumulating loop of the source.
- `MessageAssembly`: the history window and the two message-list variants. It has
  specification functions and the appending loop of the source.
- `ResponseShaping`: the result record.
- `FoundryBot`: the `AzureAIFoundryBot` class, which ties everything together:
  - its constructor normalises the fields in place;
  - its methods search and answer;
  - `CreateBot` models the start-up failures.

The two SDK calls are parameters of the methods:

- `search(query, top)` yields search hits or a failure. A failure covers an
  exception raised by the call or while iterating its results.
- `complete(deployment, messages)` yields the reply text or the text of the
  exception raised.

Three other inputs are also parameters:

- which client library is installed (`usingInference`);
- whether the search library is installed (`searchAvailable`);
- whether the chat client and the search client can be constructed.

A history entry is a pair of optional strings. So a JSON object without `role`
or `content` produces the `KeyError` text the source then reports: `'role'` or
`'content'`.

Normalisation is idempotent whenever the normalised endpoint still starts with
`https://`. The lone exception is an endpoint made only of the scheme and slashes:
`https://` normalises to `https:`, and that normalises to `https://https:`.
`Endpoints.BareSchemeNotStable` states this. It is modelled as written.

## Model

| member | source | states |
|---|---|---|
| Endpoints.WithHttps | app.py:57-58 | the result starts with `https://`; an input that already does is returned unchanged; otherwise the result is `https://` followed by the input |
| Text.TrimTrailing | app.py:61 | `rstrip('/')`: the result is a prefix of the input, does not end with `/`, and every removed character is `/` |
| Endpoints.NormalizeEndpoint | app.py:57-61 | the chat endpoint: `https://` prefixed unless already present, then every trailing `/` removed |
| Endpoints.NormalizedEndpointShape | app.py:57-61 | a normalised chat endpoint starts with `https:` and never ends with `/`; an input already starting with `https://` only loses its trailing slashes |
| Endpoints.NormalizeIdempotent | app.py:57-61 | normalising a normalised endpoint that starts with `https://` changes nothing |
| Endpoints.BareSchemeNotStable | app.py:57-61 | `https://` normalises to `https:`, which normalises to `https://https:` |
| Endpoints.OpenAIEndpoint | app.py:81-85 | the endpoint unchanged when it names `openai.azure.com`, otherwise with every `ai.azure.com` replaced by `openai.azure.com` |
| Endpoints.OpenAIEndpointUnchanged | app.py:81-85 | the OpenAI endpoint equals its input when the input names `openai.azure.com` or does not name `ai.azure.com` |
| Endpoints.OpenAIEndpointNamesOpenAI | app.py:81-85 | the OpenAI endpoint names `openai.azure.com` exactly when its input names `ai.azure.com` |
| Endpoints.OpenAIEndpointRewritesFirst | app.py:81-85 | for an endpoint without `openai.azure.com`, the first `ai.azure.com` becomes `openai.azure.com` in place and the rest of the endpoint is rewritten the same way |
| Text.ReplaceAll | app.py:85 | `str.replace`: scanning left to right, each occurrence of the pattern is replaced and the scan resumes after it; other characters are copied |
| Text.ReplaceFirst | app.py:85 | `replace` rewrites the first occurrence in place, keeps the text before it, and continues on the text after it |
| Text.ReplaceAbsent | app.py:85 | `replace` of a pattern that does not occur returns the string unchanged |
| Text.ReplacePresent | app.py:85 | `replace` of a pattern that occurs leaves the replacement in the result |
| Endpoints.SearchEndpoint | app.py:101-102 | the search endpoint starts with `https://`; it equals its input exactly when the input already starts with `https://`, and otherwise it is `https://` followed by the input |
| KnowledgeSearch.FieldOr | app.py:133-136 | `result.get(key, "")`: the hit's field when present, else `""` |
| KnowledgeSearch.ToDocument | app.py:132-138 | a document from one hit: its title, content, category and URL fields or `""`, and its score or `0` |
| KnowledgeSearch.SearchDocuments | app.py:119-145 | no documents without a search client or after a failed call; otherwise one document per hit, built from that hit, in order |
| KnowledgeSearch.MapResults | app.py:130-138 | the loop builds one document per hit: each text field comes from the hit or is `""`, and the score is the hit's or `0` |
| FoundryBot.AzureAIFoundryBot.SearchKnowledgeBase | app.py:117-145 | the method yields exactly the documents of the specification: `[]` without a client or on failure, else one per result |
| Text.NatToString | app.py:160 | the article number is printed as one or more decimal digits with no leading zero |
| Text.DecimalRoundTrip | app.py:160 | the printed article number reads back as the number |
| ContextComposer.Truncate | app.py:161 | `content[:500]`: the first min(n, 500) characters of the content |
| ContextComposer.TitleLine | app.py:160 | `Article <n>: <title>` and a newline |
| ContextComposer.ContentLine | app.py:161 | `Content: `, the first 500 characters of the content, `...` always, and a newline |
| ContextComposer.ReferenceLine | app.py:162-163 | `Reference: <url>` and a newline for a non-empty URL, else nothing |
| ContextComposer.ArticleText | app.py:160-164 | the title, content and reference lines of one article, then an empty line |
| ContextComposer.SystemPrompt | app.py:167-172 | the fixed instructions followed by the context block |
| ContextComposer.ContextBlock | app.py:156-158 | the context block is empty exactly when there are no documents; otherwise it starts with the header `Based on the following knowledge base articles:` and a blank line |
| ContextComposer.ContextBlockArticle | app.py:159-164 | document i appears as article i+1: the block is the header, the articles before it, its text, then the articles after it |
| ContextComposer.ArticleTextLines | app.py:160-163 | an article's text holds its title line and its content line, and its reference line when the URL is non-empty |
| ContextComposer.SystemPromptContainsArticle | app.py:167-172 | the system prompt contains the full text of every article |
| ContextComposer.SystemPromptMentionsDocument | app.py:159-164 | for document i the prompt contains `Article i+1: <title>` + newline and `Content: <content[:500]>...` + newline; for a non-empty URL it also contains `Reference: <url>` + newline |
| ContextComposer.ReturnsScenario | app.py:159-160 | a single document titled `Returns` yields a prompt containing `Article 1: Returns` |
| ContextComposer.BuildContext | app.py:156-164 | the accumulating loop produces exactly the specified context block |
| MessageAssembly.Window | app.py:180 | `history[-10:]`: the last min(10, n) entries, in their original order |
| MessageAssembly.HistoryWindow | app.py:179-180 | a missing history contributes no entries; a given one contributes its window |
| MessageAssembly.Turn | app.py:181-184 | what one entry contributes, or the `KeyError` text for a missing `role` or `content`; the OpenAI form copies the entry, the inference form keeps `user`, renders `assistant` as `Previous response: <content>` and drops other roles without reading the content |
| MessageAssembly.Collect | app.py:215-219 | the messages of the first n entries in order, or the error of the first entry that raises |
| MessageAssembly.Messages | app.py:211-222 | the whole request: the system message, the converted window, then the user query, or the first `KeyError` |
| MessageAssembly.WindowOfLongSuffix | app.py:215 | when the latest entries alone fill the window, earlier entries do not change it |
| MessageAssembly.OlderEntriesIgnored | app.py:215 | entries older than the latest ten never affect the request, even ones that would raise |
| MessageAssembly.CollectSucceeds | app.py:180-184 | converting the window succeeds exactly when no entry raises a `KeyError` |
| MessageAssembly.CollectFails | app.py:215-219 | a failed conversion carries the `KeyError` of the first entry that raises, and every such first error is the result |
| MessageAssembly.OpenAICopiesEntries | app.py:215-219 | the OpenAI variant emits one message per entry, with the entry's role and content unchanged |
| MessageAssembly.InferenceMapsKept | app.py:180-184 | the inference variant emits one message per `user` or `assistant` entry, in order: a user message with the same content, or a system message `Previous response: <content>` |
| MessageAssembly.Kept | app.py:180-184 | the user and assistant entries of a window are no more than the window |
| MessageAssembly.VariantsAgreeOnUserEntries | app.py:180-182 | on a history of user entries only, both variants send the same messages |
| MessageAssembly.OpenAIRequest | app.py:211-222 | the OpenAI request succeeds exactly when every windowed entry has a role and a content; it has min(10, n) + 2 messages: the system prompt, each entry copied, then the query |
| MessageAssembly.InferenceRequest | app.py:176-187 | a successful inference request is the system prompt, the rendered user and assistant entries in order, then the query (at most min(10, n) + 2 messages) |
| MessageAssembly.AssembleMessages | app.py:176-187 | the appending loop produces exactly the specified request or its first `KeyError`; a request starts with the system message and ends with the user query |
| UpstreamErrors.Classify | app.py:202-207 | errors naming `401` or `Unauthorized` are authentication failures, even when they also name `403`; otherwise errors naming `403` are permission failures; any other error passes through unchanged |
| UpstreamErrors.NeutralText | app.py:237-242 | an error text containing neither `4` nor `U` passes through unchanged |
| UpstreamErrors.AuthenticationMessageIsFinal | app.py:202-203 | the authentication message itself would pass through unchanged |
| UpstreamErrors.ForbiddenMessageIsFinal | app.py:204-205 | the permission message itself would pass through unchanged |
| UpstreamErrors.ClassifyIdempotent | app.py:237-242 | classifying an already classified error text changes nothing |
| FoundryBot.CompletionResult | app.py:190-207 | a completed call gives its text; a failed call gives the classified error text |
| ResponseShaping.ShapeResult | app.py:245-258 | `success` holds exactly for a reply; a reply keeps the documents and has no error; a failure has no sources, its text as `error`, and the apology followed by that text as `response` |
| FoundryBot.AzureAIFoundryBot.GenerateResponse | app.py:147-258 | `success` holds exactly when the request could be built and the completion service answered; a reply carries the answer and the search documents; a failure has no sources, and its error is the `KeyError` text or the classified service error |
| FoundryBot.AzureAIFoundryBot.constructor | app.py:41-115 | every field read from the environment with its default (`gpt-4`, `knowledge-base`); the endpoint normalised; the OpenAI client endpoint derived from it; the search endpoint prefixed only when search is configured; search enabled only when configured and its client builds |
| FoundryBot.CreateBot | app.py:52-95 | a missing or empty endpoint or key fails with the configuration error; a chat client that cannot be created fails with its own error; otherwise a fresh, valid bot whose fields are exactly those the constructor sets: key, deployment and index with their defaults, normalised chat endpoint, OpenAI client endpoint, search key and endpoint, and search flag |

## Left out

- Flask routes, JSON parsing, HTTP status codes and CORS (app.py:272 onwards). These are framework plumbing.
- Environment loading, logging and the start-up banner. These are I/O. The environment is passed in as a value.
- The Azure SDK clients are not modelled. The search call and the completion call become function parameters.
- Whether the client constructors raise becomes an input: a flag or an error text.
- The import probing for the client libraries (app.py:12-31). It becomes two boolean parameters.
- `temperature`, `max_tokens` and the API version sent to the services. These are constants the model has no use for.
- `@search.score` is a float in the source. The model treats it as an integer it never reasons about.
- The `time.time()` timestamps of the routes. They are nondeterministic.
- The surrounding whitespace of the system-prompt template (app.py:167-172). The instructions are one constant prefix followed by the context block.
- The module-level singleton `bot` and `initialization_error` (app.py:261-270). They are process state. `CreateBot` gives the same outcomes as values.
- JSON `null` field values in search hits are not modelled: a `None` title prints as `None` and a `None` content raises on slicing. Hit fields are strings or absent.
- History entries that are not objects, and histories that are not lists, are not modelled. They raise `TypeError` in the source.
- History entries whose `role` or `content` is JSON `null` or not a string are not modelled: a role and a content are strings or absent. In the source, a `null` role is dropped by the inference form but copied as `None` by the OpenAI form, and a `null` assistant content becomes `Previous response: None`.
- A completion reply whose content is `None` is not modelled. The reply text is always a string.
- The search call receives `top_k`, but the source never checks how many hits come back. The model does not bound the number of documents by `top_k` either: that bound is the search service's promise, not the bot's.
- `FoundryBot.AzureAIFoundryBot.constructor`: Python raises the configuration error from inside `__init__`. The constructor instead requires a set, non-empty endpoint and key, and `CreateBot` models the raising path as a `Failure`.
