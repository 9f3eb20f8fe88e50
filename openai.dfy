/** The language-model client: assembling the chat request (system prompt,
    prior turns, the sanitized user message, and the tools when there are
    any), mapping failures to fixed messages, and the shorter Telegram
    variant with its history window and reply truncation.  The chat
    completion endpoint is the parameter `client`. */
module OpenAI {
  import opened Common
  import Validator

  const Model: string := "gpt-3.5-turbo"
  const MaxTokens: int := 1000
  const Temperature: real := 0.7
  /** The Telegram request's token cap and history window. */
  const TelegramMaxTokens: int := 500
  const TelegramHistoryWindow: int := 6
  /** Telegram replies longer than this are cut to `TelegramKeep` characters
      followed by "...". */
  const TelegramMaxLength: int := 4000
  const TelegramKeep: int := 3900

  const KeyRequired: string := "OpenAI API key is required"
  const InvalidKey: string := "Invalid OpenAI API key"
  const RateLimited: string := "OpenAI API rate limit exceeded. Please try again later."
  const Unavailable: string := "OpenAI service temporarily unavailable"
  const GenerationFailed: string := "Failed to generate AI response"

  const TelegramSystemPrompt: string :=
    "You are an expert AI Travel Agent. Provide helpful, concise travel advice and recommendations. Use available tools for current information. Keep responses under 500 words for messaging apps."

  const SystemPrompt: string :=
    "You are an expert AI Travel Agent with deep knowledge of global travel, hospitality, and tourism. You're equipped with real-time tools and comprehensive travel expertise.\n" +
    "\n" +
    "## Your Expertise Areas:\n" +
    "\U{1F30D} **Destination Planning**: Comprehensive knowledge of destinations worldwide, including hidden gems, seasonal considerations, cultural insights, and local customs\n" +
    "\U{2708}\U{FE0F} **Transportation**: Flights, trains, buses, car rentals, and local transportation options with practical routing advice\n" +
    "\U{1F3E8} **Accommodations**: Hotels, hostels, Airbnb, resorts with budget-conscious recommendations across all price ranges\n" +
    "\U{1F37D}\U{FE0F} **Dining & Entertainment**: Local cuisine, restaurants, nightlife, cultural events, and authentic experiences\n" +
    "\U{1F4B0} **Budget Management**: Cost-effective planning, currency considerations, and money-saving tips\n" +
    "\U{1F4CB} **Travel Logistics**: Visas, documentation, packing lists, travel insurance, and health requirements\n" +
    "\U{1F6A8} **Safety & Practical Advice**: Current travel advisories, local customs, emergency procedures\n" +
    "\n" +
    "## Available Tools:\n" +
    "- \U{1F310} **Web Search**: Real-time information about destinations, events, transportation\n" +
    "- \U{1F324}\U{FE0F} **Weather Data**: Current and forecast weather for any location\n" +
    "- \U{1F4B1} **Currency Conversion**: Real-time exchange rates for budget planning\n" +
    "- \U{1F550} **Timezone Information**: Local times and timezone differences\n" +
    "\n" +
    "## Communication Style:\n" +
    "- **Comprehensive yet Concise**: Provide detailed, actionable advice without overwhelming\n" +
    "- **Personalized Recommendations**: Ask clarifying questions to tailor suggestions\n" +
    "- **Practical Focus**: Include specific details like costs, booking links, timing\n" +
    "- **Cultural Sensitivity**: Respect local customs and provide cultural context\n" +
    "- **Safety First**: Always prioritize traveler safety and current conditions\n" +
    "\n" +
    "## Planning Approach:\n" +
    "1. **Understand Needs**: Travel dates, budget, interests, group size, accessibility needs\n" +
    "2. **Research Current Conditions**: Use tools to get up-to-date information\n" +
    "3. **Provide Options**: Offer multiple alternatives with pros/cons\n" +
    "4. **Practical Details**: Include booking information, timing, and logistics\n" +
    "5. **Follow-up**: Ask if they need additional information or adjustments\n" +
    "\n" +
    "Always use available tools to provide current, accurate information. Be proactive in suggesting practical travel solutions and alternatives."

  /** The constructed service; construction fails without a key. */
  datatype OpenAIService = OpenAIService(apiKey: string, systemPrompt: string)

  function NewOpenAIService(apiKey: Option<string>): (r: Result<OpenAIService>)
    ensures r.Err? <==> !Truthy(apiKey)
    ensures r.Err? ==> r.error == KeyRequired
    ensures r.Ok? ==> r.value.apiKey == apiKey.value && r.value.systemPrompt == SystemPrompt
  {
    if !Truthy(apiKey) then Err(KeyRequired) else Ok(OpenAIService(apiKey.value, SystemPrompt))
  }

  /** The chat completion request. */
  datatype RequestConfig = RequestConfig(model: string, messages: seq<Turn>, maxTokens: int, temperature: real,
                                         tools: Option<seq<ToolDefinition>>, toolChoice: Option<string>)

  /** The message the model answers with: text, tool calls, or both. */
  datatype AssistantMessage = AssistantMessage(content: Option<string>, toolCalls: Option<seq<FunctionCall>>)

  datatype Choice = Choice(message: AssistantMessage, finishReason: string)

  datatype Completion = Completion(choices: seq<Choice>, usage: map<string, int>)

  /** What `generateResponse` resolves to. */
  datatype Generated = Generated(message: AssistantMessage, usage: map<string, int>, finishReason: string)

  /** `[{system}, ...history, {user}]`. */
  function Conversation(system: string, history: seq<Turn>, user: string): (m: seq<Turn>)
    ensures |m| == |history| + 2
    ensures m[0] == Turn("system", system)
    ensures m[1..|m| - 1] == history
    ensures m[|m| - 1] == Turn("user", user)
  {
    [Turn("system", system)] + history + [Turn("user", user)]
  }

  /** The request `generateResponse` sends: tools and `tool_choice: 'auto'`
      are attached exactly when the tool list is not empty. */
  function BuildRequest(message: string, history: seq<Turn>, tools: seq<ToolDefinition>): (r: RequestConfig)
    ensures r.messages == Conversation(SystemPrompt, history, Validator.SanitizeText(JsString(message)))
    ensures r.model == Model && r.maxTokens == MaxTokens && r.temperature == Temperature
    ensures r.tools.Some? <==> |tools| > 0
    ensures r.tools.Some? ==> r.tools.value == tools
    ensures r.toolChoice.Some? <==> |tools| > 0
    ensures r.toolChoice.Some? ==> r.toolChoice.value == "auto"
  {
    var base := RequestConfig(Model, Conversation(SystemPrompt, history, Validator.SanitizeText(JsString(message))),
                              MaxTokens, Temperature, None, None);
    if |tools| > 0 then base.(tools := Some(tools), toolChoice := Some("auto")) else base
  }

  /** The message `generateResponse` throws for an error with this status. */
  function ErrorMessage(status: Option<int>): (m: string)
    ensures status == Some(401) ==> m == InvalidKey
    ensures status == Some(429) ==> m == RateLimited
    ensures status == Some(500) ==> m == Unavailable
    ensures status !in {Some(401), Some(429), Some(500)} ==> m == GenerationFailed
  {
    if status == Some(401) then InvalidKey
    else if status == Some(429) then RateLimited
    else if status == Some(500) then Unavailable
    else GenerationFailed
  }

  /** `generateResponse(message, conversationHistory, availableTools)`.  A
      completion without choices fails like any other error without a
      status. */
  function GenerateResponse(message: string, history: seq<Turn>, tools: seq<ToolDefinition>,
                            client: RequestConfig -> HttpResult<Completion>): (r: Result<Generated>)
    ensures client(BuildRequest(message, history, tools)).HttpError? ==>
              r == Err(ErrorMessage(client(BuildRequest(message, history, tools)).status))
    ensures client(BuildRequest(message, history, tools)).Response? ==>
              var completion := client(BuildRequest(message, history, tools)).data;
              && (completion.choices == [] ==> r == Err(GenerationFailed))
              && (completion.choices != [] ==>
                    r == Ok(Generated(completion.choices[0].message, completion.usage, completion.choices[0].finishReason)))
  {
    var sent := client(BuildRequest(message, history, tools));
    if sent.HttpError? then Err(ErrorMessage(sent.status))
    else if sent.data.choices == [] then Err(ErrorMessage(None))
    else Ok(Generated(sent.data.choices[0].message, sent.data.usage, sent.data.choices[0].finishReason))
  }

  /** The request `generateTelegramResponse` sends: the short prompt, the
      last six turns, no tools and at most 500 tokens. */
  function BuildTelegramRequest(message: string, history: seq<Turn>): (r: RequestConfig)
    ensures r.messages == Conversation(TelegramSystemPrompt, SliceFrom(history, -TelegramHistoryWindow),
                                       Validator.SanitizeText(JsString(message)))
    ensures r.model == Model && r.maxTokens == Min(MaxTokens, TelegramMaxTokens) && r.temperature == Temperature
    ensures r.tools.None? && r.toolChoice.None?
  {
    RequestConfig(Model, Conversation(TelegramSystemPrompt, SliceFrom(history, -TelegramHistoryWindow),
                                      Validator.SanitizeText(JsString(message))),
                  Min(MaxTokens, TelegramMaxTokens), Temperature, None, None)
  }

  /** The Telegram window: the last six turns, in order, so at most eight
      messages are sent. */
  lemma TelegramWindow(message: string, history: seq<Turn>)
    ensures var m := BuildTelegramRequest(message, history).messages;
            |m| == Min(|history|, TelegramHistoryWindow) + 2 && |m| <= 8 &&
            m[1..|m| - 1] == history[|history| - Min(|history|, TelegramHistoryWindow)..]
  {
    WindowOfSix(TelegramSystemPrompt, history, Validator.SanitizeText(JsString(message)));
  }

  /** The conversation around the last six turns of a history. */
  lemma WindowOfSix(system: string, history: seq<Turn>, user: string)
    ensures var m := Conversation(system, SliceFrom(history, -TelegramHistoryWindow), user);
            |m| == Min(|history|, TelegramHistoryWindow) + 2 && |m| <= 8 &&
            m[1..|m| - 1] == history[|history| - Min(|history|, TelegramHistoryWindow)..]
  {
    SliceLast(history, TelegramHistoryWindow);
  }

  /** `response.length > 4000 ? response.substring(0, 3900) + '...' : response`. */
  function TruncateForTelegram(response: string): (r: string)
    ensures |r| <= TelegramMaxLength
    ensures |response| <= TelegramMaxLength ==> r == response
    ensures |response| > TelegramMaxLength ==> r == response[..TelegramKeep] + "..." && |r| < |response|
  {
    if |response| > TelegramMaxLength then response[..TelegramKeep] + "..." else response
  }

  /** Reading `length` of a reply whose content is null. */
  const NullContentError: string := "Cannot read properties of null (reading 'length')"
  /** Reading `message` of the missing first choice. */
  const NoChoiceError: string := "Cannot read properties of undefined (reading 'message')"

  /** `generateTelegramResponse(message, conversationHistory)`: errors are
      passed on with their own message. */
  function GenerateTelegramResponse(message: string, history: seq<Turn>,
                                    client: RequestConfig -> HttpResult<Completion>): (r: Result<string>)
    ensures var sent := client(BuildTelegramRequest(message, history));
            && (sent.HttpError? ==> r == Err(sent.message))
            && (sent.Response? && sent.data.choices == [] ==> r == Err(NoChoiceError))
            && (sent.Response? && sent.data.choices != [] ==>
                  var content := sent.data.choices[0].message.content;
                  (content.None? ==> r == Err(NullContentError)) &&
                  (content.Some? ==> r == Ok(TruncateForTelegram(content.value))))
    ensures r.Ok? ==> |r.value| <= TelegramMaxLength
  {
    var sent := client(BuildTelegramRequest(message, history));
    if sent.HttpError? then Err(sent.message)
    else if sent.data.choices == [] then Err(NoChoiceError)
    else if sent.data.choices[0].message.content.None? then Err(NullContentError)
    else Ok(TruncateForTelegram(sent.data.choices[0].message.content.value))
  }

  /** A failed request always throws, and the status of the failure alone
      decides the message: the SDK's own message never reaches the caller. */
  lemma ErrorsDependOnlyOnStatus(message: string, history: seq<Turn>, tools: seq<ToolDefinition>,
                                 c1: RequestConfig -> HttpResult<Completion>, c2: RequestConfig -> HttpResult<Completion>)
    requires c1(BuildRequest(message, history, tools)).HttpError? && c2(BuildRequest(message, history, tools)).HttpError?
    requires c1(BuildRequest(message, history, tools)).status == c2(BuildRequest(message, history, tools)).status
    ensures GenerateResponse(message, history, tools, c1) == GenerateResponse(message, history, tools, c2)
    ensures GenerateResponse(message, history, tools, c1).Err?
  {
  }
}
