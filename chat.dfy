/** The chat controller: the web chat endpoint, the Telegram message
    handler, the tool list offered to the language model and the dispatch of
    the tool calls it answers with.  The conversation service the
    controller shares is passed in as the `ConversationService` object; the
    language model, the search and weather back ends and the clock are
    parameters. */
module Chat {
  import opened Common
  import Conversation
  import Validator
  import OpenAI
  import SerpApi
  import Weather

  const WebPlatform: string := "web"
  const TelegramPlatform: string := "telegram"
  /** Turns of history sent with a web message and with a Telegram message. */
  const WebHistoryLimit: int := 8
  const TelegramHistoryLimit: int := 4

  const SearchTool: string := "search_web"
  const WeatherTool: string := "get_current_weather"
  const UnknownFunction: string := "Unknown function"
  const ErrorPrefix: string := "Error: "
  const Fallback: string := "Failed to process your request"
  const Cleared: string := "Conversation cleared"

  /** What the controller reaches beyond the conversation store: the API
      keys of the tool services, their HTTP back ends and the locale
      formatting the weather text uses. */
  datatype Services = Services(serpKey: Option<string>,
                               search: SerpApi.SearchParams -> HttpResult<SerpApi.SearchData>,
                               weatherKey: Option<string>,
                               weather: Weather.WeatherParams -> HttpResult<Weather.Body>,
                               localeTime: int -> string,
                               showNumber: real -> string)

  /** `openaiService.generateResponse(message, history, tools)` as the web
      endpoint calls it; the service of the application is
      `OpenAI.GenerateResponse` with its HTTP client, and
      `WebRequestRepeatsMessage` states what that one sends. */
  type Generator = (string, seq<Turn>, seq<ToolDefinition>) -> Result<OpenAI.Generated>

  /** `openaiService.generateTelegramResponse(message, history)`; the
      application's is `OpenAI.GenerateTelegramResponse` with its HTTP
      client, whose replies never exceed Telegram's 4000 characters. */
  type Responder = (string, seq<Turn>) -> Result<string>

  // ---------------------------------------------------------------------
  // Tools

  /** The tools `getAvailableTools` offers: web search when its key is set,
      then the weather tool when its key is set. */
  function AvailableTools(serpKey: Option<string>, weatherKey: Option<string>): (tools: seq<ToolDefinition>)
    ensures SerpApi.ToolDef in tools <==> SerpApi.IsAvailable(serpKey)
    ensures Weather.ToolDef in tools <==> Weather.IsAvailable(weatherKey)
    ensures forall t :: t in tools ==> t == SerpApi.ToolDef || t == Weather.ToolDef
    ensures |tools| == (if SerpApi.IsAvailable(serpKey) then 1 else 0) + (if Weather.IsAvailable(weatherKey) then 1 else 0)
    ensures |tools| == 2 ==> tools[0] == SerpApi.ToolDef && tools[1] == Weather.ToolDef
  {
    assert SerpApi.ToolDef.name[0] != Weather.ToolDef.name[0];
    (if SerpApi.IsAvailable(serpKey) then [SerpApi.ToolDef] else [])
    + (if Weather.IsAvailable(weatherKey) then [Weather.ToolDef] else [])
  }

  /** `getAvailableTools()`, pushing onto an empty list. */
  method GetAvailableTools(serpKey: Option<string>, weatherKey: Option<string>) returns (tools: seq<ToolDefinition>)
    ensures tools == AvailableTools(serpKey, weatherKey)
  {
    tools := [];
    if SerpApi.IsAvailable(serpKey) {
      tools := tools + [SerpApi.ToolDef];
    }
    if Weather.IsAvailable(weatherKey) {
      tools := tools + [Weather.ToolDef];
    }
  }

  /** The text a tool call contributes: its result, or "Error: " and the
      message of what it threw. */
  function Caught(r: Result<string>): (text: string)
    ensures r.Ok? ==> text == r.value
    ensures r.Err? ==> text == ErrorPrefix + r.error && text[..|ErrorPrefix|] == ErrorPrefix
  {
    match r
    case Ok(s) => s
    case Err(e) => ErrorPrefix + e
  }

  /** One iteration of `handleToolCalls`: the call is dispatched on its
      function name; a name neither service answers to gives "Unknown
      function", and a failure of the service is caught. */
  function ToolResult(call: FunctionCall, services: Services): (text: string)
    ensures call.name == SearchTool ==>
              text == Caught(SerpApi.ExecuteFunction(services.serpKey, call, services.search))
    ensures call.name == WeatherTool ==>
              text == Caught(Weather.ExecuteFunction(services.weatherKey, call, services.weather,
                                                     services.localeTime, services.showNumber))
    ensures call.name != SearchTool && call.name != WeatherTool ==> text == UnknownFunction
  {
    if call.name == SearchTool then
      Caught(SerpApi.ExecuteFunction(services.serpKey, call, services.search))
    else if call.name == WeatherTool then
      Caught(Weather.ExecuteFunction(services.weatherKey, call, services.weather, services.localeTime, services.showNumber))
    else UnknownFunction
  }

  /** The results of the calls, one per call and in the calls' order. */
  function ToolResults(calls: seq<FunctionCall>, services: Services): (results: seq<string>)
    ensures |results| == |calls|
    ensures forall i :: 0 <= i < |calls| ==> results[i] == ToolResult(calls[i], services)
  {
    seq(|calls|, i requires 0 <= i < |calls| => ToolResult(calls[i], services))
  }

  /** `handleToolCalls(toolCalls)`: every call runs, one after another, even
      after an earlier one failed; the results are joined by blank lines. */
  method HandleToolCalls(calls: seq<FunctionCall>, services: Services) returns (text: string)
    ensures text == Join(ToolResults(calls, services), "\n\n")
  {
    var results: seq<string> := [];
    var i := 0;
    while i < |calls|
      invariant 0 <= i <= |calls|
      invariant results == ToolResults(calls[..i], services)
    {
      var result := ToolResult(calls[i], services);
      results := results + [result];
      i := i + 1;
    }
    assert calls[..|calls|] == calls;
    text := Join(results, "\n\n");
  }

  /** Every tool offered is one the dispatch answers to: the model is never
      offered a tool whose call would come back "Unknown function". */
  lemma OfferedToolsAreDispatched(serpKey: Option<string>, weatherKey: Option<string>, call: FunctionCall)
    requires exists t :: t in AvailableTools(serpKey, weatherKey) && t.name == call.name
    ensures call.name == SearchTool || call.name == WeatherTool
  {
  }

  /** A search call made while the search service has no key reports the
      service's error instead of failing the chat. */
  lemma UnconfiguredSearchReportsError(call: FunctionCall, services: Services)
    requires call.name == SearchTool && call.arguments.Ok?
    requires !SerpApi.IsAvailable(services.serpKey)
    ensures ToolResult(call, services) == ErrorPrefix + SerpApi.NotAvailable
  {
  }

  /** One more call appends a blank line and that call's result to the text
      of the earlier ones. */
  lemma {:induction false} ToolResultsSnoc(calls: seq<FunctionCall>, call: FunctionCall, services: Services)
    ensures Join(ToolResults(calls + [call], services), "\n\n") ==
            if calls == [] then ToolResult(call, services)
            else Join(ToolResults(calls, services), "\n\n") + "\n\n" + ToolResult(call, services)
  {
    assert ToolResults(calls + [call], services) == ToolResults(calls, services) + [ToolResult(call, services)];
    JoinSnoc(ToolResults(calls, services), ToolResult(call, services), "\n\n");
  }

  // ---------------------------------------------------------------------
  // The web chat endpoint

  /** The JSON the web endpoint answers with: the reply text (null when the
      model answered with neither text nor tool calls) and the token usage,
      or status 500 and an error message. */
  datatype WebReply = Success(response: Option<string>, usage: map<string, int>)
                    | Failure(status: int, error: string)

  /** The store after a request and what was answered. */
  datatype WebOutcome = WebOutcome(store: Conversation.Store, reply: WebReply)

  /** The text of the model's answer: the joined tool results when it made
      tool calls, else its content. */
  function ResponseText(message: OpenAI.AssistantMessage, services: Services): (text: Option<string>)
    ensures message.toolCalls.Some? ==> text == Some(Join(ToolResults(message.toolCalls.value, services), "\n\n"))
    ensures message.toolCalls.None? ==> text == message.content
  {
    if message.toolCalls.Some? then Some(Join(ToolResults(message.toolCalls.value, services), "\n\n"))
    else message.content
  }

  /** The message of a caught error, or the fallback when it is empty. */
  function ErrorText(e: string): (text: string)
    ensures e != "" ==> text == e
    ensures e == "" ==> text == Fallback
  {
    if e == "" then Fallback else e
  }

  /** The history a web request sends: the user's last eight turns, read
      after the new message was stored. */
  function WebHistory(store: Conversation.Store, ip: string, message: string, sentAt: int): (h: seq<Turn>)
  {
    Conversation.History(Conversation.Added(store, WebPlatform, ip, "user", message, sentAt), WebPlatform, ip, WebHistoryLimit)
  }

  /** `handleWebChat` on the store as a value, given the validator's verdict
      on the request body (`Validator.ValidateChatMessage`).  `sentAt` and
      `repliedAt` are the clock readings of the two `addMessage` calls. */
  function WebChat(store: Conversation.Store, validated: Result<string>, ip: string, sentAt: int, repliedAt: int,
                   services: Services, generate: Generator): WebOutcome
  {
    if validated.Err? then WebOutcome(store, Failure(500, validated.error))
    else
      var message := validated.value;
      var withUser := Conversation.Added(store, WebPlatform, ip, "user", message, sentAt);
      var history := Conversation.History(withUser, WebPlatform, ip, WebHistoryLimit);
      WebAnswered(withUser, ip, generate(message, history, AvailableTools(services.serpKey, services.weatherKey)),
                  repliedAt, services)
  }

  /** The end of `handleWebChat`, once the user's message is stored: the
      reply is stored and sent, or the model's error is answered with 500. */
  function WebAnswered(withUser: Conversation.Store, ip: string, generated: Result<OpenAI.Generated>, repliedAt: int,
                       services: Services): (o: WebOutcome)
    ensures o.reply.Success? <==> generated.Ok?
    ensures generated.Err? ==> o.store == withUser && o.reply.Failure? && o.reply.status == 500 && o.reply.error != ""
    ensures generated.Ok? ==>
              o.store == Conversation.Added(withUser, WebPlatform, ip, "assistant", Show(o.reply.response), repliedAt)
  {
    if generated.Err? then WebOutcome(withUser, Failure(500, ErrorText(generated.error)))
    else
      var text := ResponseText(generated.value.message, services);
      WebOutcome(Conversation.Added(withUser, WebPlatform, ip, "assistant", Show(text), repliedAt),
                 Success(text, generated.value.usage))
  }

  /** `handleWebChat(req, res)` against the shared conversation service. */
  method HandleWebChat(conversations: Conversation.ConversationService, body: Validator.ChatBody, ip: string,
                       sentAt: int, repliedAt: int, services: Services, generate: Generator) returns (reply: WebReply)
    requires conversations.maxHistoryLength == Conversation.MaxHistoryLength
    modifies conversations
    ensures WebOutcome(conversations.conversations, reply) ==
            WebChat(old(conversations.conversations), Validator.ValidateChatMessage(body), ip, sentAt, repliedAt,
                    services, generate)
  {
    var validated := Validator.ValidateChatMessage(body);
    if validated.Err? {
      reply := Failure(500, validated.error);
      return;
    }
    var message := validated.value;
    var _ := conversations.AddMessage(WebPlatform, ip, "user", message, sentAt);
    var history := conversations.GetHistory(WebPlatform, ip, WebHistoryLimit);
    var tools := GetAvailableTools(services.serpKey, services.weatherKey);
    var generated := generate(message, history, tools);
    if generated.Err? {
      reply := Failure(500, ErrorText(generated.error));
      return;
    }
    var text := generated.value.message.content;
    if generated.value.message.toolCalls.Some? {
      var joined := HandleToolCalls(generated.value.message.toolCalls.value, services);
      text := Some(joined);
    }
    var _ := conversations.AddMessage(WebPlatform, ip, "assistant", Show(text), repliedAt);
    reply := Success(text, generated.value.usage);
  }

  /** A message the validator refuses is answered with status 500 and the
      validator's message, and nothing is stored. */
  lemma RejectedMessageStoresNothing(store: Conversation.Store, body: Validator.ChatBody, ip: string, sentAt: int,
                                     repliedAt: int, services: Services, generate: Generator)
    requires Validator.ValidateChatMessage(body).Err?
    ensures var o := WebChat(store, Validator.ValidateChatMessage(body), ip, sentAt, repliedAt, services, generate);
            && o.store == store
            && o.reply.Failure? && o.reply.status == 500
            && o.reply.error[..|"Invalid message: "|] == "Invalid message: "
  {
  }

  /** The history sent with a web message holds at most eight turns and
      already ends with that message. */
  lemma WebHistoryEndsWithMessage(store: Conversation.Store, ip: string, message: string, sentAt: int)
    ensures var h := WebHistory(store, ip, message, sentAt);
            1 <= |h| <= WebHistoryLimit && h[|h| - 1] == Turn("user", message)
  {
    var withUser := Conversation.Added(store, WebPlatform, ip, "user", message, sentAt);
    var h := Conversation.History(withUser, WebPlatform, ip, WebHistoryLimit);
    Conversation.HistoryEndsWithAdded(store, WebPlatform, ip, "user", message, sentAt, WebHistoryLimit);
    assert 1 <= |h| && h[|h| - 1] == Turn("user", message);
    Conversation.HistoryLength(withUser, WebPlatform, ip, WebHistoryLimit);
    assert |h| <= WebHistoryLimit;
  }

  /** The messages `OpenAI.GenerateResponse` sends with that history (the
      system prompt, the history, then the message sanitized) carry the
      message once more: the model sees the user's message twice, as the
      history's last entry and as the final turn. */
  lemma WebRequestRepeatsMessage(store: Conversation.Store, ip: string, message: string, sentAt: int, system: string)
    ensures var sent := OpenAI.Conversation(system, WebHistory(store, ip, message, sentAt),
                                            Validator.SanitizeText(JsString(message)));
            && sent[|sent| - 2] == Turn("user", message)
            && sent[|sent| - 1] == Turn("user", Validator.SanitizeText(JsString(message)))
  {
    var h := WebHistory(store, ip, message, sentAt);
    WebHistoryEndsWithMessage(store, ip, message, sentAt);
    var sent := OpenAI.Conversation(system, h, Validator.SanitizeText(JsString(message)));
    assert sent[|sent| - 2] == sent[1..|sent| - 1][|h| - 1];
  }

  /** Once the user's message is stored, a model answer leaves that message
      and then the reply as the last two messages of the conversation. */
  lemma AnsweredWebChatStoresBoth(store: Conversation.Store, ip: string, message: string, sentAt: int,
                           generated: Result<OpenAI.Generated>, repliedAt: int, services: Services)
    requires generated.Ok?
    ensures var withUser := Conversation.Added(store, WebPlatform, ip, "user", message, sentAt);
            var o := WebAnswered(withUser, ip, generated, repliedAt, services);
            var m := Conversation.StoredMessages(o.store, Conversation.ConversationKey(WebPlatform, ip));
            && |m| >= 2
            && m[|m| - 2] == Conversation.Message("user", message, sentAt)
            && m[|m| - 1] == Conversation.Message("assistant", Show(o.reply.response), repliedAt)
  {
    var withUser := Conversation.Added(store, WebPlatform, ip, "user", message, sentAt);
    var o := WebAnswered(withUser, ip, generated, repliedAt, services);
    var first := Conversation.Message("user", message, sentAt);
    var second := Conversation.Message("assistant", Show(o.reply.response), repliedAt);
    assert withUser == Conversation.Added(store, WebPlatform, ip, first.role, first.content, first.timestamp);
    assert o.store == Conversation.Added(withUser, WebPlatform, ip, second.role, second.content, second.timestamp);
    Conversation.LastTwoAdded(store, WebPlatform, ip, first, second);
  }

  /** When the model fails on a valid message, the user's message stays
      stored and no reply is stored; the error is answered with status 500. */
  lemma FailedGenerationKeepsUserMessage(store: Conversation.Store, validated: Result<string>, ip: string, sentAt: int,
                                         repliedAt: int, services: Services, generate: Generator)
    requires validated.Ok?
    requires WebChat(store, validated, ip, sentAt, repliedAt, services, generate).reply.Failure?
    ensures var o := WebChat(store, validated, ip, sentAt, repliedAt, services, generate);
            var m := Conversation.StoredMessages(o.store, Conversation.ConversationKey(WebPlatform, ip));
            && o.store == Conversation.Added(store, WebPlatform, ip, "user", validated.value, sentAt)
            && |m| >= 1 && m[|m| - 1] == Conversation.Message("user", validated.value, sentAt)
            && o.reply.status == 500 && o.reply.error != ""
  {
    var withUser := Conversation.Added(store, WebPlatform, ip, "user", validated.value, sentAt);
    var history := Conversation.History(withUser, WebPlatform, ip, WebHistoryLimit);
    var generated := generate(validated.value, history, AvailableTools(services.serpKey, services.weatherKey));
    assert WebChat(store, validated, ip, sentAt, repliedAt, services, generate)
        == WebAnswered(withUser, ip, generated, repliedAt, services);
    Conversation.AddedIsLast(store, WebPlatform, ip, "user", validated.value, sentAt);
  }

  // ---------------------------------------------------------------------
  // Telegram

  /** The store after a Telegram message and the reply, or the error that
      is thrown on. */
  datatype TelegramOutcome = TelegramOutcome(store: Conversation.Store, reply: Result<string>)

  /** `handleTelegramMessage(message, chatId)` on the store as a value. */
  function TelegramChat(store: Conversation.Store, message: JsValue, chatId: int, sentAt: int, repliedAt: int,
                        respond: Responder): TelegramOutcome
  {
    var userMessage := Validator.SanitizeText(message);
    var userId := IntToString(chatId);
    var withUser := Conversation.Added(store, TelegramPlatform, userId, "user", userMessage, sentAt);
    var history := Conversation.History(withUser, TelegramPlatform, userId, TelegramHistoryLimit);
    TelegramAnswered(withUser, userId, respond(userMessage, history), repliedAt)
  }

  /** The store once the model answered the stored message: a reply is
      stored too, an error is passed on. */
  function TelegramAnswered(withUser: Conversation.Store, userId: string, response: Result<string>, repliedAt: int): TelegramOutcome
  {
    if response.Err? then TelegramOutcome(withUser, response)
    else TelegramOutcome(Conversation.Added(withUser, TelegramPlatform, userId, "assistant", response.value, repliedAt), response)
  }

  /** `handleTelegramMessage(message, chatId)` against the shared
      conversation service; an error is thrown on after the user's message
      was stored. */
  method HandleTelegramMessage(conversations: Conversation.ConversationService, message: JsValue, chatId: int,
                               sentAt: int, repliedAt: int, respond: Responder)
    returns (reply: Result<string>)
    requires conversations.maxHistoryLength == Conversation.MaxHistoryLength
    modifies conversations
    ensures TelegramOutcome(conversations.conversations, reply) ==
            TelegramChat(old(conversations.conversations), message, chatId, sentAt, repliedAt, respond)
  {
    var userMessage := Validator.SanitizeText(message);
    var userId := IntToString(chatId);
    var _ := conversations.AddMessage(TelegramPlatform, userId, "user", userMessage, sentAt);
    var history := conversations.GetHistory(TelegramPlatform, userId, TelegramHistoryLimit);
    reply := respond(userMessage, history);
    if reply.Ok? {
      var _ := conversations.AddMessage(TelegramPlatform, userId, "assistant", reply.value, repliedAt);
    }
  }

  /** A Telegram reply is stored as the conversation's last message, right
      after the user's. */
  lemma TelegramReplyStored(store: Conversation.Store, message: JsValue, chatId: int, sentAt: int, repliedAt: int,
                            respond: Responder)
    requires TelegramChat(store, message, chatId, sentAt, repliedAt, respond).reply.Ok?
    ensures var o := TelegramChat(store, message, chatId, sentAt, repliedAt, respond);
            var m := Conversation.StoredMessages(o.store, Conversation.ConversationKey(TelegramPlatform, IntToString(chatId)));
            && |m| >= 2
            && m[|m| - 2] == Conversation.Message("user", Validator.SanitizeText(message), sentAt)
            && m[|m| - 1] == Conversation.Message("assistant", o.reply.value, repliedAt)
  {
    var o := TelegramChat(store, message, chatId, sentAt, repliedAt, respond);
    Conversation.LastTwoAdded(store, TelegramPlatform, IntToString(chatId),
                 Conversation.Message("user", Validator.SanitizeText(message), sentAt),
                 Conversation.Message("assistant", o.reply.value, repliedAt));
  }

  /** The Telegram history holds at most four turns and ends with the
      user's message. */
  lemma TelegramHistoryEndsWithMessage(store: Conversation.Store, message: JsValue, chatId: int, sentAt: int)
    ensures var userMessage := Validator.SanitizeText(message);
            var userId := IntToString(chatId);
            var h := Conversation.History(Conversation.Added(store, TelegramPlatform, userId, "user", userMessage, sentAt),
                                          TelegramPlatform, userId, TelegramHistoryLimit);
            1 <= |h| <= TelegramHistoryLimit && h[|h| - 1] == Turn("user", userMessage)
  {
    var userMessage := Validator.SanitizeText(message);
    var userId := IntToString(chatId);
    Conversation.HistoryEndsWithAdded(store, TelegramPlatform, userId, "user", userMessage, sentAt, TelegramHistoryLimit);
    Conversation.HistoryLength(Conversation.Added(store, TelegramPlatform, userId, "user", userMessage, sentAt),
                               TelegramPlatform, userId, TelegramHistoryLimit);
  }

  /** A Telegram chat never touches a web user's conversation, whatever the
      chat id and the IP address look like. */
  lemma PlatformsAreSeparate(store: Conversation.Store, message: JsValue, chatId: int, sentAt: int, repliedAt: int,
                             respond: Responder, ip: string, limit: int)
    ensures Conversation.History(TelegramChat(store, message, chatId, sentAt, repliedAt, respond).store, WebPlatform, ip, limit)
            == Conversation.History(store, WebPlatform, ip, limit)
  {
    var userId := IntToString(chatId);
    var userMessage := Validator.SanitizeText(message);
    var withUser := Conversation.Added(store, TelegramPlatform, userId, "user", userMessage, sentAt);
    var history := Conversation.History(withUser, TelegramPlatform, userId, TelegramHistoryLimit);
    var response := respond(userMessage, history);
    assert Conversation.ConversationKey(WebPlatform, ip) != Conversation.ConversationKey(TelegramPlatform, userId) by {
      assert Conversation.ConversationKey(WebPlatform, ip)[0] != Conversation.ConversationKey(TelegramPlatform, userId)[0];
    }
    assert Conversation.History(withUser, WebPlatform, ip, limit) == Conversation.History(store, WebPlatform, ip, limit) by {
      Conversation.AddedIsolated(store, TelegramPlatform, userId, "user", userMessage, sentAt, WebPlatform, ip, limit);
    }
    AnsweredKeepsWeb(withUser, userId, response, repliedAt, ip, limit);
  }

  /** Storing a Telegram reply leaves web conversations alone. */
  lemma AnsweredKeepsWeb(withUser: Conversation.Store, userId: string, response: Result<string>, repliedAt: int,
                         ip: string, limit: int)
    requires Conversation.ConversationKey(WebPlatform, ip) != Conversation.ConversationKey(TelegramPlatform, userId)
    ensures Conversation.History(TelegramAnswered(withUser, userId, response, repliedAt).store, WebPlatform, ip, limit)
            == Conversation.History(withUser, WebPlatform, ip, limit)
  {
    if response.Ok? {
      Conversation.AddedIsolated(withUser, TelegramPlatform, userId, "assistant", response.value, repliedAt, WebPlatform, ip, limit);
    }
  }

  // ---------------------------------------------------------------------
  // Clearing and statistics

  /** The JSON `clearConversation` answers with. */
  datatype ClearReply = ClearReply(success: bool, message: string)

  /** `clearConversation(req, res)`: the web user's conversation is dropped
      and nothing else changes. */
  method ClearConversation(conversations: Conversation.ConversationService, ip: string) returns (reply: ClearReply)
    modifies conversations
    ensures conversations.conversations == old(conversations.conversations) - {Conversation.ConversationKey(WebPlatform, ip)}
    ensures reply == ClearReply(true, Cleared)
  {
    conversations.ClearConversation(WebPlatform, ip);
    reply := ClearReply(true, Cleared);
  }

  /** The JSON `getStats` answers with, without the process's memory usage
      and uptime. */
  datatype Stats = Stats(totalConversations: nat, webSearch: bool, weather: bool)

  /** `getStats(req, res)`. */
  function GetStats(conversations: Conversation.ConversationService, serpKey: Option<string>, weatherKey: Option<string>): (s: Stats)
    reads conversations
    ensures s.totalConversations == |conversations.conversations.Keys|
    ensures s.webSearch <==> SerpApi.ToolDef in AvailableTools(serpKey, weatherKey)
    ensures s.weather <==> Weather.ToolDef in AvailableTools(serpKey, weatherKey)
  {
    Stats(conversations.TotalConversations(), SerpApi.IsAvailable(serpKey), Weather.IsAvailable(weatherKey))
  }
}
