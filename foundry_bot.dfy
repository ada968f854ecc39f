/**
 * The bot itself (app.py:40-258): its configuration, normalised once at start,
 * the search adapter and the request pipeline. The two SDK calls are parameters:
 * `search(query, top)` is what the search service yields and
 * `complete(deployment, messages)` what the completion service answers.
 */
module FoundryBot {
  import opened Wrappers
  import opened Text
  import opened Endpoints
  import opened UpstreamErrors
  import opened KnowledgeSearch
  import opened ContextComposer
  import opened MessageAssembly
  import opened ResponseShaping

  /** The environment variables the bot reads; `None` when a variable is unset. */
  datatype Environment = Environment(
    endpoint: Option<string>,
    apiKey: Option<string>,
    deploymentName: Option<string>,
    searchEndpoint: Option<string>,
    searchKey: Option<string>,
    searchIndex: Option<string>)

  /** What the completion service answers: the reply's text or the text of the exception it raised. */
  datatype CompletionOutcome = Completed(text: string) | CompletionFailed(error: string)

  const MissingConfigurationMessage: string :=
    "AZURE_AI_FOUNDRY_ENDPOINT and AZURE_AI_FOUNDRY_API_KEY are required"
  const DefaultDeployment: string := "gpt-4"
  const DefaultSearchIndex: string := "knowledge-base"

  /** Python truthiness of an optional string: set and non-empty. */
  predicate Truthy(v: Option<string>) {
    v.Some? && v.value != ""
  }

  /** Whether the search client is set up: the library is present and both search variables are set. */
  predicate SearchConfigured(env: Environment, searchAvailable: bool) {
    searchAvailable && Truthy(env.searchEndpoint) && Truthy(env.searchKey)
  }

  /** The result of a completion call, its failure re-raised under its classified text. */
  function CompletionResult(outcome: CompletionOutcome): (r: Result<string, string>)
    ensures outcome.Completed? ==> r == Success(outcome.text)
    ensures outcome.CompletionFailed? ==> r == Failure(Classify(outcome.error).Message())
  {
    match outcome
    case Completed(text) => Success(text)
    case CompletionFailed(err) => Failure(ClassifiedMessage(err))
  }

  class AzureAIFoundryBot {
    var endpoint: string
    var apiKey: string
    var deploymentName: string
    var searchEndpoint: Option<string>
    var searchKey: Option<string>
    var searchIndex: string
    /** Which client the process uses: Azure AI Inference (true) or Azure OpenAI (false). */
    var usingInference: bool
    /** The endpoint the chat client was created with. */
    var chatClientEndpoint: string
    /** Whether a search client exists. */
    var searchEnabled: bool

    /**
     * A summary of what start-up establishes about the endpoints. No later
     * operation changes the configuration or depends on it for its proof.
     */
    ghost predicate Valid()
      reads this
    {
      StartsWith(endpoint, "https:") && !EndsWith(endpoint, '/') &&
      (searchEnabled ==> searchEndpoint.Some? && StartsWith(searchEndpoint.value, HttpsScheme))
    }

    /**
     * Reads the configuration and normalises the endpoints step by step. The
     * check for a missing endpoint or key, which raises, is made by CreateBot.
     */
    constructor (env: Environment, usingInference: bool, searchAvailable: bool, searchClientBuilds: bool)
      requires Truthy(env.endpoint) && Truthy(env.apiKey)
      ensures Valid()
      ensures endpoint == NormalizeEndpoint(env.endpoint.value)
      ensures apiKey == env.apiKey.value
      ensures chatClientEndpoint == if usingInference then endpoint else OpenAIEndpoint(endpoint)
      ensures deploymentName == env.deploymentName.GetOr(DefaultDeployment)
      ensures searchIndex == env.searchIndex.GetOr(DefaultSearchIndex)
      ensures searchKey == env.searchKey
      ensures this.usingInference == usingInference
      ensures searchEndpoint ==
        if SearchConfigured(env, searchAvailable) then Some(SearchEndpoint(env.searchEndpoint.value))
        else env.searchEndpoint
      ensures searchEnabled == (SearchConfigured(env, searchAvailable) && searchClientBuilds)
    {
      endpoint := env.endpoint.value;
      apiKey := env.apiKey.value;
      deploymentName := env.deploymentName.GetOr(DefaultDeployment);
      searchEndpoint := env.searchEndpoint;
      searchKey := env.searchKey;
      searchIndex := env.searchIndex.GetOr(DefaultSearchIndex);
      this.usingInference := usingInference;
      chatClientEndpoint := "";
      searchEnabled := false;
      new;
      if !StartsWith(endpoint, HttpsScheme) {
        endpoint := HttpsScheme + endpoint;
      }
      assert endpoint == WithHttps(env.endpoint.value);
      endpoint := TrimTrailing(endpoint, '/');
      assert endpoint == NormalizeEndpoint(env.endpoint.value);
      NormalizedEndpointShape(env.endpoint.value);
      chatClientEndpoint := if usingInference then endpoint else OpenAIEndpoint(endpoint);
      if searchAvailable && Truthy(searchEndpoint) && Truthy(searchKey) {
        if !StartsWith(searchEndpoint.value, HttpsScheme) {
          searchEndpoint := Some(HttpsScheme + searchEndpoint.value);
        }
        assert searchEndpoint == Some(SearchEndpoint(env.searchEndpoint.value));
        searchEnabled := searchClientBuilds;
      } else {
        searchEnabled := false;
      }
    }

    /** The documents the adapter yields for `query`. */
    function Documents(query: string, topK: nat, search: (string, nat) -> SearchOutcome): seq<KnowledgeDocument>
      reads this
    {
      SearchDocuments(searchEnabled, search(query, topK))
    }

    /** The message list sent for a chat request, or the `KeyError` raised while building it. */
    function Request(userQuery: string, history: Option<seq<ChatEntry>>, search: (string, nat) -> SearchOutcome)
      : Result<seq<Message>, string>
      reads this
    {
      Messages(usingInference, SystemPrompt(ContextBlock(Documents(userQuery, DefaultTopK, search))), history, userQuery)
    }

    /** `search_knowledge_base`: no documents without a client or after a failed call, else one per result. */
    method SearchKnowledgeBase(query: string, topK: nat, search: (string, nat) -> SearchOutcome)
      returns (documents: seq<KnowledgeDocument>)
      ensures documents == Documents(query, topK, search)
      ensures !searchEnabled || search(query, topK).SearchFailed? ==> documents == []
      ensures searchEnabled && search(query, topK).SearchSucceeded? ==>
        |documents| == |search(query, topK).hits|
    {
      if !searchEnabled {
        return [];
      }
      var outcome := search(query, topK);
      match outcome
      case SearchFailed(_) =>
        documents := [];
      case SearchSucceeded(hits) =>
        documents := MapResults(hits);
    }

    /**
     * `generate_response`: search, compose the prompt, assemble the messages and
     * call the completion service; every failure becomes a failed result.
     */
    method GenerateResponse(
      userQuery: string,
      history: Option<seq<ChatEntry>>,
      search: (string, nat) -> SearchOutcome,
      complete: (string, seq<Message>) -> CompletionOutcome)
      returns (result: ChatResult)
      ensures var request := Request(userQuery, history, search);
        result.success <==> request.Success? && complete(deploymentName, request.value).Completed?
      ensures var request := Request(userQuery, history, search);
        result.success ==>
          result.response == complete(deploymentName, request.value).text &&
          result.sources == Documents(userQuery, DefaultTopK, search) &&
          result.error == None
      ensures !result.success ==>
        result.sources == [] && result.error.Some? && result.response == ApologyPrefix + result.error.value
      ensures var request := Request(userQuery, history, search);
        request.Failure? ==> result.error == Some(request.error)
      ensures var request := Request(userQuery, history, search);
        request.Success? && complete(deploymentName, request.value).CompletionFailed? ==>
          result.error == Some(ClassifiedMessage(complete(deploymentName, request.value).error))
    {
      var kbDocuments := SearchKnowledgeBase(userQuery, DefaultTopK, search);
      var context := BuildContext(kbDocuments);
      var systemPrompt := SystemPrompt(context);
      var messages := AssembleMessages(usingInference, systemPrompt, history, userQuery);
      if messages.Failure? {
        return ShapeResult(Failure(messages.error), kbDocuments);
      }
      var reply := complete(deploymentName, messages.value);
      result := ShapeResult(CompletionResult(reply), kbDocuments);
    }
  }

  /**
   * Start-up: a missing or empty endpoint or key raises the configuration error,
   * and a chat client that cannot be created raises its own error; otherwise the
   * bot is built.
   */
  method CreateBot(
    env: Environment,
    usingInference: bool,
    searchAvailable: bool,
    chatClientError: Option<string>,
    searchClientBuilds: bool)
    returns (r: Result<AzureAIFoundryBot, string>)
    ensures !(Truthy(env.endpoint) && Truthy(env.apiKey)) ==> r == Failure(MissingConfigurationMessage)
    ensures Truthy(env.endpoint) && Truthy(env.apiKey) && chatClientError.Some? ==>
      r == Failure(chatClientError.value)
    ensures Truthy(env.endpoint) && Truthy(env.apiKey) && chatClientError.None? ==>
      r.Success? && fresh(r.value) && r.value.Valid() &&
      r.value.endpoint == NormalizeEndpoint(env.endpoint.value) &&
      r.value.apiKey == env.apiKey.value &&
      r.value.chatClientEndpoint ==
        (if usingInference then r.value.endpoint else OpenAIEndpoint(r.value.endpoint)) &&
      r.value.deploymentName == env.deploymentName.GetOr(DefaultDeployment) &&
      r.value.searchIndex == env.searchIndex.GetOr(DefaultSearchIndex) &&
      r.value.searchKey == env.searchKey &&
      r.value.usingInference == usingInference &&
      r.value.searchEndpoint ==
        (if SearchConfigured(env, searchAvailable) then Some(SearchEndpoint(env.searchEndpoint.value))
         else env.searchEndpoint) &&
      r.value.searchEnabled == (SearchConfigured(env, searchAvailable) && searchClientBuilds)
  {
    if !Truthy(env.endpoint) || !Truthy(env.apiKey) {
      return Failure(MissingConfigurationMessage);
    }
    if chatClientError.Some? {
      return Failure(chatClientError.value);
    }
    var bot := new AzureAIFoundryBot(env, usingInference, searchAvailable, searchClientBuilds);
    r := Success(bot);
  }
}
