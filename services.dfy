/** query_optimizer/services.py: `QueryOptimizerAI`, which checks the
    provider configuration, builds the optimisation prompt for a record,
    sends it through the provider's client and parses the reply. The
    provider SDKs and `json.loads` are not part of this model: the transport
    and the decoder are parameters. */
module Services {
  import opened Wrappers
  import opened Text
  import opened Settings
  import opened Models

  // ---------------------------------------------------------------------
  // Configuration and clients
  // ---------------------------------------------------------------------

  datatype Provider = Mistral | OpenAI | Anthropic

  /** The client each provider gets, with the API key it is built with. */
  datatype Client =
    | MistralClient(apiKey: Value)
    | OpenAIClient(apiKey: Value)
    | AnthropicClient(apiKey: Value)

  /** The `ValueError`s construction raises. */
  datatype ServiceError =
    | ConfigNotSet
    | InvalidProvider(message: string)
    | ModelNotSet
    | ApiKeyNotSet
    | ClientInitFailed

  /** A constructed `QueryOptimizerAI`. */
  datatype QueryOptimizerAI = QueryOptimizerAI(provider: Provider, model: Value, apiKey: Value, client: Client)

  /** `provider in ['mistral', 'openai', 'anthropic']`, and which one. */
  function ProviderOf(v: Value): (p: Option<Provider>)
    ensures p == Some(Mistral) <==> v == Str("mistral")
    ensures p == Some(OpenAI) <==> v == Str("openai")
    ensures p == Some(Anthropic) <==> v == Str("anthropic")
  {
    if v == Str("mistral") then Some(Mistral)
    else if v == Str("openai") then Some(OpenAI)
    else if v == Str("anthropic") then Some(Anthropic)
    else None
  }

  const SupportedProviders := "mistral, openai, and anthropic"

  /** The message of the invalid-provider error as written: it is not an
      f-string, so the placeholder stays in the text. */
  function InvalidProviderMessageAsWritten(provider: Value): (message: string)
    ensures message == "Invalid provider: {self.provider} we only support " + SupportedProviders
  {
    "Invalid provider: {self.provider} we only support " + SupportedProviders
  }

  /** The message as evidently intended, naming the configured provider
      (rendered as a string by `render`). */
  function InvalidProviderMessage(provider: Value, render: Value -> string): (message: string)
    ensures OccursAt(message, render(provider), |"Invalid provider: "|)
  {
    var shown := render(provider);
    var message := "Invalid provider: " + shown + " we only support " + SupportedProviders;
    assert message[|"Invalid provider: "|..|"Invalid provider: "| + |shown|] == shown;
    message
  }

  /** Where the corrected message shows the provider, the message as
      written shows the placeholder. */
  lemma InvalidProviderMessageShowsPlaceholder(provider: Value, render: Value -> string)
    requires render(provider) == "cohere"
    ensures InvalidProviderMessageAsWritten(provider)[18..24] == "{self."
    ensures InvalidProviderMessage(provider, render)[18..24] == "cohere"
  {
    var head := "Invalid provider: ";
    var placeholder := "{self.";
    var tail := "provider} we only support " + SupportedProviders;
    assert InvalidProviderMessageAsWritten(provider) == head + placeholder + tail;
    OccursBetween(head, placeholder, tail);
  }

  /** `_check_config`: the provider, then the model, then the API key. */
  function CheckConfig(provider: Value, model: Value, apiKey: Value): (r: Option<ServiceError>)
    ensures r.None? <==> ProviderOf(provider).Some? && Truthy(model) && Truthy(apiKey)
    ensures r.Some? && r.value.InvalidProvider? <==> ProviderOf(provider).None?
    ensures ProviderOf(provider).None? ==> r == Some(InvalidProvider(InvalidProviderMessageAsWritten(provider)))
    ensures r == Some(ModelNotSet) <==> ProviderOf(provider).Some? && !Truthy(model)
    ensures r == Some(ApiKeyNotSet) <==> ProviderOf(provider).Some? && Truthy(model) && !Truthy(apiKey)
  {
    if ProviderOf(provider).None? then Some(InvalidProvider(InvalidProviderMessageAsWritten(provider)))
    else if !Truthy(model) then Some(ModelNotSet)
    else if !Truthy(apiKey) then Some(ApiKeyNotSet)
    else None
  }

  /** `_setup_client`: None when no provider name matches. */
  function SetupClient(provider: Value, apiKey: Value): (client: Option<Client>)
    ensures client.Some? <==> ProviderOf(provider).Some?
    ensures provider == Str("mistral") ==> client == Some(MistralClient(apiKey))
    ensures provider == Str("openai") ==> client == Some(OpenAIClient(apiKey))
    ensures provider == Str("anthropic") ==> client == Some(AnthropicClient(apiKey))
  {
    if provider == Str("mistral") then Some(MistralClient(apiKey))
    else if provider == Str("openai") then Some(OpenAIClient(apiKey))
    else if provider == Str("anthropic") then Some(AnthropicClient(apiKey))
    else None
  }

  /** `QueryOptimizerAI.__init__` */
  function Init(config: Option<Config>): (r: Result<QueryOptimizerAI, ServiceError>)
    ensures (config.None? || config.value == map[]) <==> r == Failure(ConfigNotSet)
    ensures r.Success? <==>
      && config.Some? && config.value != map[]
      && CheckConfig(Get(config.value, "provider", Null), Get(config.value, "model", Null),
                     Get(config.value, "api_key", Null)).None?
    ensures r.Failure? && r.error != ConfigNotSet ==>
      Some(r.error) == CheckConfig(Get(config.value, "provider", Null), Get(config.value, "model", Null),
                                   Get(config.value, "api_key", Null))
    ensures r.Success? ==>
      && ProviderOf(Get(config.value, "provider", Null)) == Some(r.value.provider)
      && r.value.model == Get(config.value, "model", Null)
      && r.value.apiKey == Get(config.value, "api_key", Null)
      && Some(r.value.client) == SetupClient(Get(config.value, "provider", Null), r.value.apiKey)
  {
    if config.None? || config.value == map[] then Failure(ConfigNotSet)
    else
      var c := config.value;
      var provider := Get(c, "provider", Null);
      var model := Get(c, "model", Null);
      var apiKey := Get(c, "api_key", Null);
      match CheckConfig(provider, model, apiKey)
      case Some(e) => Failure(e)
      case None =>
        match SetupClient(provider, apiKey)
        case None => Failure(ClientInitFailed)
        case Some(client) => Success(QueryOptimizerAI(ProviderOf(provider).value, model, apiKey, client))
  }

  /** The final check of `_setup_client` never fires: a configuration that
      passes `_check_config` always gets a client. */
  lemma ClientInitNeverFails(config: Option<Config>)
    ensures Init(config) != Failure(ClientInitFailed)
  {
  }

  /** There is no default provider: a configuration without one is refused. */
  lemma NoDefaultProvider(config: Config)
    requires config != map[] && "provider" !in config
    ensures Init(Some(config)).Failure? && Init(Some(config)).error.InvalidProvider?
  {
  }

  // ---------------------------------------------------------------------
  // The prompt
  // ---------------------------------------------------------------------

  const Indent := "        "

  function Line(text: string): string {
    Indent + text + "\n"
  }

  /** How much of the end of the stack trace the prompt carries. */
  const ContextLength := 500

  /** `stack_trace[-500:] if stack_trace else 'No context'` */
  function ContextOf(stack: string): (context: string)
    ensures stack == "" ==> context == "No context"
    ensures stack != "" ==>
      |context| == (if |stack| < ContextLength then |stack| else ContextLength)
      && context == stack[|stack| - |context|..]
  {
    if stack == "" then "No context"
    else if |stack| <= ContextLength then stack
    else stack[|stack| - ContextLength..]
  }

  const PromptHead := "\n" + Line("Analyze this SQL query for potential optimizations:") + Line("") + Indent + "Query: "

  const PromptInstructions :=
    Line("") + Line("Please provide:")
    + Line("1. A detailed analysis of the query performance issues")
    + Line("2. Specific optimization suggestions")
    + Line("3. Rewritten optimized query if applicable")
    + Line("4. Index suggestions if applicable")
    + Line("5. Any Django ORM improvements if the query comes from Django")
    + Line("")
    + Line("Format your response as JSON with these keys:")

  /** The keys the reply is asked to have, in the order the prompt lists them. */
  const ResponseKeys: seq<string> :=
    ["analysis", "optimization_suggestions", "optimized_query", "index_suggestions", "django_orm_improvements"]

  const KeyNotes: seq<string> := ["", "", " (if applicable)", "", " (if applicable)"]

  /** One `- key` line per key, with its note. */
  function KeyLines(keys: seq<string>, notes: seq<string>): (lines: seq<string>)
    requires |keys| == |notes|
    ensures |lines| == |keys|
  {
    seq(|keys|, i requires 0 <= i < |keys| => Line("- " + keys[i] + notes[i]))
  }

  /** The pieces of the prompt in order: the template's text with the query,
      the duration and the context filled in. */
  function PromptParts(query: string, duration: string, context: string): seq<string> {
    [PromptHead, query, "\n" + Indent, "Execution Time: " + duration + " seconds",
     "\n" + Indent, "Context: " + context, "\n" + PromptInstructions]
    + KeyLines(ResponseKeys, KeyNotes) + [Indent]
  }

  /** `_build_optimization_prompt`. `repr` is Python's `str` of a float. */
  function BuildPrompt(record: RecordData, repr: real -> string): string {
    Concat(PromptParts(record.query, repr(record.duration), ContextOf(record.stackTrace)))
  }

  /** The prompt carries the query, its duration and the context. */
  lemma PromptCarriesRecord(record: RecordData, repr: real -> string)
    ensures Contains(BuildPrompt(record, repr), record.query)
    ensures Contains(BuildPrompt(record, repr), "Execution Time: " + repr(record.duration) + " seconds")
    ensures Contains(BuildPrompt(record, repr), "Context: " + ContextOf(record.stackTrace))
  {
    var parts := PromptParts(record.query, repr(record.duration), ContextOf(record.stackTrace));
    assert BuildPrompt(record, repr) == Concat(parts);
    PartInConcat(parts, 1);
    PartInConcat(parts, 3);
    PartInConcat(parts, 5);
  }

  /** The prompt names every key the parser's fallback fills in. */
  lemma PromptAsksForResponseKeys(record: RecordData, repr: real -> string, i: nat)
    requires i < |ResponseKeys|
    ensures Contains(BuildPrompt(record, repr), ResponseKeys[i])
  {
    var parts := PromptParts(record.query, repr(record.duration), ContextOf(record.stackTrace));
    var key := ResponseKeys[i];
    var line := KeyLines(ResponseKeys, KeyNotes)[i];
    assert parts[7 + i] == line;
    assert line == (Indent + "- ") + key + (KeyNotes[i] + "\n");
    OccursBetween(Indent + "- ", key, KeyNotes[i] + "\n");
    ContainsIff(line, key);
    PartContained(parts, 7 + i, key);
  }

  // ---------------------------------------------------------------------
  // Sending the prompt
  // ---------------------------------------------------------------------

  const MistralBaseUrl := "https://api.mistral.ai/v1/"
  const AnthropicMaxTokens := 2000

  datatype Message = Message(role: string, content: string)

  /** The request a client sends: a chat completion (the OpenAI SDK, pointed
      at Mistral's endpoint for Mistral) or an Anthropic message. */
  datatype ProviderCall =
    | ChatCompletion(baseUrl: Option<string>, apiKey: Value, model: Value, messages: seq<Message>)
    | AnthropicMessage(apiKey: Value, model: Value, maxTokens: nat, messages: seq<Message>)

  /** `client.analyze_query(prompt, model)`: what is sent. */
  function CallOf(client: Client, prompt: string, model: Value): (call: ProviderCall)
    ensures call.messages == [Message("user", prompt)] && call.model == model && call.apiKey == client.apiKey
    ensures client.MistralClient? ==> call.ChatCompletion? && call.baseUrl == Some(MistralBaseUrl)
    ensures client.OpenAIClient? ==> call.ChatCompletion? && call.baseUrl.None?
    ensures client.AnthropicClient? ==> call.AnthropicMessage? && call.maxTokens == AnthropicMaxTokens
  {
    var messages := [Message("user", prompt)];
    match client
    case MistralClient(key) => ChatCompletion(Some(MistralBaseUrl), key, model, messages)
    case OpenAIClient(key) => ChatCompletion(None, key, model, messages)
    case AnthropicClient(key) => AnthropicMessage(key, model, AnthropicMaxTokens, messages)
  }

  /** What a provider answers: the text of the first choice or content
      block, no text (a `None` content), or an exception. */
  datatype Reply = Text(content: string) | NoContent | Failed(error: string)

  /** A value `json.loads` returns: an object, its values shown as strings,
      or another JSON value (array, string, number, boolean or null), of
      which only Python's truth value matters to the callers. */
  datatype Json = Object(fields: map<string, string>) | Other(truthy: bool)

  /** Python's truth value of a decoded value: an object is true when it
      has a key. */
  predicate JsonTruthy(j: Json) {
    match j
    case Object(fields) => fields != map[]
    case Other(truthy) => truthy
  }

  // ---------------------------------------------------------------------
  // Parsing the reply
  // ---------------------------------------------------------------------

  const JsonFence := "```json"
  const Fence := "```"

  /** The fence handling of `_parse_ai_response`. */
  function Extract(text: string): string {
    if Contains(text, JsonFence) then
      var parts := Split(text, JsonFence);
      Split(parts[1], Fence)[0]
    else if Contains(text, Fence) then
      var parts := Split(text, Fence);
      Split(parts[1], Fence)[0]
    else text
  }

  /** The fallback result: the (unstripped) text as the analysis. */
  function Fallback(analysis: string): (r: map<string, string>)
    ensures r.Keys == set k | k in ResponseKeys
    ensures r["analysis"] == analysis
    ensures forall k :: k in r && k != "analysis" ==> r[k] == ""
  {
    map["analysis" := analysis, "optimization_suggestions" := "", "optimized_query" := "",
        "index_suggestions" := "", "django_orm_improvements" := ""]
  }

  /** `_parse_ai_response`. `decode` is `json.loads`; None is a
      `JSONDecodeError`. Whatever JSON value decodes is returned as it is. */
  function ParseAiResponse(text: string, decode: string -> Option<Json>): (r: Json)
    ensures decode(Strip(Extract(text))).Some? ==> r == decode(Strip(Extract(text))).value
    ensures decode(Strip(Extract(text))).None? ==> r == Object(Fallback(Extract(text))) && JsonTruthy(r)
  {
    var extracted := Extract(text);
    match decode(Strip(extracted))
    case Some(value) => value
    case None => Object(Fallback(extracted))
  }

  /** `analyze_query`: None when the client raises or returns no text. */
  function AnalyzeQuery(ai: QueryOptimizerAI, record: QueryRecord, repr: real -> string,
                        transport: ProviderCall -> Reply,
                        decode: string -> Option<Json>): (r: Option<Json>)
    ensures var reply := transport(CallOf(ai.client, BuildPrompt(record.data, repr), ai.model));
      && (r.Some? <==> reply.Text?)
      && (reply.Text? ==> r.value == ParseAiResponse(reply.content, decode))
  {
    var prompt := BuildPrompt(record.data, repr);
    match transport(CallOf(ai.client, prompt, ai.model))
    case Text(content) => Some(ParseAiResponse(content, decode))
    case NoContent => None
    case Failed(_) => None
  }

  // ---------------------------------------------------------------------
  // Properties of the fence handling
  // ---------------------------------------------------------------------

  /** A backtick followed by the json fence: the one arrangement in which the
      `split` chain does not stop at the next fence. */
  const TickJsonFence := "`" + JsonFence

  /** A fence that straddles the start of a json fence makes a backtick
      run into that json fence. */
  lemma StraddleIsTickJsonFence(rest: string, f: int, m: int)
    requires OccursAt(rest, Fence, f) && OccursAt(rest, JsonFence, m) && f < m < f + |Fence|
    ensures OccursAt(rest, TickJsonFence, m - 1)
  {
    OccursAtChars(rest, Fence, f);
    assert rest[m - 1] == Fence[m - 1 - f];
    assert rest[m - 1..m + 7] == [rest[m - 1]] + rest[m..m + 7];
  }

  lemma NoStraddle(rest: string)
    requires !Contains(rest, TickJsonFence)
    ensures forall f, m :: OccursAt(rest, Fence, f) && OccursAt(rest, JsonFence, m) ==> !(f < m < f + |Fence|)
  {
    forall f, m | OccursAt(rest, Fence, f) && OccursAt(rest, JsonFence, m) ensures !(f < m < f + |Fence|) {
      if f < m < f + |Fence| {
        StraddleIsTickJsonFence(rest, f, m);
        ContainsIff(rest, TickJsonFence);
        assert false;
      }
    }
  }

  /** With a json fence in the reply, the text parsed is what follows the
      first json fence, cut at the next json fence and then at the next
      fence. */
  lemma ExtractJsonBlock(text: string)
    requires Contains(text, JsonFence)
    ensures var rest := text[FindFirst(text, JsonFence).value + |JsonFence|..];
      Extract(text) == BeforeFirst(BeforeFirst(rest, JsonFence), Fence)
  {
    SplitSecond(text, JsonFence);
  }

  /** With a json fence in the reply, the text parsed is what follows the
      FIRST json fence (plain fences before it do not matter), up to the next
      fence or the end -- unless that next fence is a backtick run leading
      into another json fence. */
  lemma ExtractAfterJsonFence(text: string)
    requires Contains(text, JsonFence)
    ensures var rest := text[FindFirst(text, JsonFence).value + |JsonFence|..];
      !Contains(rest, TickJsonFence) ==> Extract(text) == BeforeFirst(rest, Fence)
  {
    var rest := text[FindFirst(text, JsonFence).value + |JsonFence|..];
    ExtractJsonBlock(text);
    if !Contains(rest, TickJsonFence) {
      NoStraddle(rest);
      assert JsonFence[..|Fence|] == Fence;
      BeforeFirstNested(rest, JsonFence, Fence);
    }
  }

  /** The straddling case, as written: after the json fence the reply holds
      "x````json"; the text parsed is "x`", not "x". */
  lemma ExtractStraddleAsWritten()
    ensures Extract("```json" + "x````json") == "x`"
  {
    var rest := "x````json";
    var text := JsonFence + rest;
    assert OccursAt(text, JsonFence, 0);
    assert FindFirst(text, JsonFence) == Some(0);
    ExtractJsonBlock(text);
    assert text[|JsonFence|..] == rest;
    assert BeforeFirst(rest, JsonFence) == "x`" by {
      assert OccursAt(rest, JsonFence, 2);
      assert rest[0] != JsonFence[0];
      assert rest[1..8][3] != JsonFence[3];
      assert FindFirst(rest, JsonFence) == Some(2);
    }
    assert BeforeFirst("x`", Fence) == "x`";
  }

  /** Without a json fence but with a plain one, the text parsed is what lies
      between the first fence and the next one, or the end. */
  lemma ExtractAfterFence(text: string)
    requires !Contains(text, JsonFence) && Contains(text, Fence)
    ensures Extract(text) == BeforeFirst(text[FindFirst(text, Fence).value + |Fence|..], Fence)
  {
    SplitSecond(text, Fence);
  }

  /** A reply without fences is parsed as it is. */
  lemma ExtractWithoutFence(text: string)
    requires !Contains(text, Fence)
    ensures Extract(text) == text
  {
    if Contains(text, JsonFence) {
      var k := FindFirst(text, JsonFence).value;
      OccursOfPrefix(text, JsonFence, Fence, k);
      ContainsIff(text, Fence);
      assert false;
    }
  }

  predicate NoTick(s: string) {
    forall i :: 0 <= i < |s| ==> s[i] != '`'
  }

  /** The fence is first found where it occurs when no backtick comes before. */
  lemma FirstFenceAt(s: string, k: nat)
    requires OccursAt(s, Fence, k)
    requires forall j :: 0 <= j < k ==> s[j] != '`'
    ensures FindFirst(s, Fence) == Some(k)
  {
    var r := FindFirst(s, Fence).value;
    OccursAtChars(s, Fence, r);
    assert s[r] == Fence[0] == '`';
  }

  /** A fence after text without backticks is the first fence, and what
      follows it is the rest. */
  lemma FenceAfterPlain(pre: string, rest: string)
    requires NoTick(pre)
    ensures FindFirst(pre + Fence + rest, Fence) == Some(|pre|)
    ensures (pre + Fence + rest)[|pre| + |Fence|..] == rest
  {
    var s := pre + Fence + rest;
    assert s[|pre|..|pre| + |Fence|] == Fence;
    assert forall j :: 0 <= j < |pre| ==> s[j] == pre[j];
    FirstFenceAt(s, |pre|);
  }

  /** A plain fenced block after text without backticks is parsed as its
      body, when the reply holds no json fence. */
  lemma ExtractPlainBlock(pre: string, body: string, post: string)
    requires NoTick(pre) && NoTick(body)
    requires !Contains(pre + Fence + body + Fence + post, JsonFence)
    ensures Extract(pre + Fence + body + Fence + post) == body
  {
    var rest := body + Fence + post;
    var text := pre + Fence + rest;
    assert text == pre + Fence + body + Fence + post;
    FenceAfterPlain(pre, rest);
    ExtractAfterFence(text);
    FenceAfterPlain(body, post);
  }

  /** A reply whose fenced block decodes is the decoded object; one whose
      block does not decode falls back to the block's interior, unstripped,
      as the analysis, with the other four keys empty. So a block labelled
      with another language, such as "```data", keeps its label. */
  lemma ParseFencedReply(pre: string, body: string, post: string, decode: string -> Option<Json>)
    requires NoTick(pre) && NoTick(body)
    requires !Contains(pre + Fence + body + Fence + post, JsonFence)
    ensures decode(Strip(body)).Some? ==>
      ParseAiResponse(pre + Fence + body + Fence + post, decode) == decode(Strip(body)).value
    ensures decode(Strip(body)).None? ==>
      ParseAiResponse(pre + Fence + body + Fence + post, decode) == Object(Fallback(body))
  {
    ExtractPlainBlock(pre, body, post);
  }
}
