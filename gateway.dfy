/**
 * `chat_endpoint`: validate the conversation, force a `get_knowledge` tool call,
 * run the lookup against the user's log, record it, and ask for the final answer.
 * The two model replies are inputs; the method reports every model call it makes.
 */
module Gateway {
  import opened Wrappers
  import opened RedisList
  import opened Lookups
  import opened KnowledgeStore

  datatype ChatMessage = ChatMessage(role: string, content: string)

  datatype ChatRequest = ChatRequest(userId: string, messages: seq<ChatMessage>, sessionId: Option<string>)

  /** Decoded tool arguments; each key may be absent. */
  datatype ToolArgs = ToolArgs(query: Option<string>, limit: Option<int>)

  /** One entry of `tool_calls`; `arguments` is None when its JSON text does not decode to an object. */
  datatype ToolCall = ToolCall(name: string, arguments: Option<ToolArgs>)

  /** The "content" key of a model message: absent, JSON null, or a string. */
  datatype Content = Absent | Null | Str(text: string)

  /** The message of the first completion; an absent or null `tool_calls` is the empty list. */
  datatype FirstReply = FirstReply(content: Content, toolCalls: seq<ToolCall>)

  /** The message content and the `usage` block of the second completion. */
  datatype FinalReply = FinalReply(content: Content, usage: Option<map<string, int>>)

  /** The function tool offered to the model. */
  datatype ToolSchema = ToolSchema(
    name: string, description: string, queryDescription: string,
    limitDefault: int, limitMinimum: int, limitMaximum: int, required: seq<string>)

  /** A message sent to the model. */
  datatype WireMessage =
    | Plain(role: string, content: string)
    | ToolRequest(reply: FirstReply)
    | ToolResult(name: string, items: seq<Record>)

  /** One completion request: messages, offered tools and the tool it is forced to call. */
  datatype ModelCall = ModelCall(messages: seq<WireMessage>, tools: seq<ToolSchema>, forcedTool: Option<string>)

  datatype LookupMeta = LookupMeta(query: string, limit: int, returnedItems: int)

  /** Why a request ended in an exception rather than a response body. */
  datatype Fault =
    | EmptyConversation      // `req.messages[-1]` on an empty list
    | ModelUnavailable       // a completion call failed
    | MalformedToolArguments // the tool arguments are not a JSON object
    | MissingAnswerContent   // `final_msg["content"]` on a message without that key

  datatype Outcome =
    | BadRequest(status: int, detail: string)
    | Failed(fault: Fault)
    | NoLookup(error: string, modelOutput: Option<string>)
    | Answered(assistant: Option<string>, usage: map<string, int>, lookupMeta: LookupMeta)

  const SystemDirective: string :=
    "You are an AI assistant that never answers directly. "
    + "Before you can respond, you **must** call the tool `get_knowledge` to retrieve everything you have ever learned for this user. "
    + "If you think no external data is needed, still call the tool with an empty query – it will return all prior lookups."

  const GetKnowledge: ToolSchema := ToolSchema(
    "get_knowledge",
    "Retrieve all knowledge the model has accessed for this user.",
    "Search term (optional). Empty string returns everything.",
    20, 1, 100, [])

  const LastNotUser := "Last message must be a user message"

  const NoLookupError := "Model did not request a knowledge lookup"

  const DefaultLimit := 20

  /** The request passes validation: its last message comes from the user. */
  predicate EndsWithUser(messages: seq<ChatMessage>)
  {
    |messages| > 0 && messages[|messages| - 1].role == "user"
  }

  /** The first model call's messages: the system directive, then the conversation as given. */
  function Prompt(messages: seq<ChatMessage>): (r: seq<WireMessage>)
    ensures |r| == |messages| + 1 && r[0] == Plain("system", SystemDirective)
    ensures forall i :: 0 <= i < |messages| ==> r[i + 1] == Plain(messages[i].role, messages[i].content)
  {
    if messages == [] then [Plain("system", SystemDirective)]
    else Prompt(messages[..|messages| - 1]) + [Plain(messages[|messages| - 1].role, messages[|messages| - 1].content)]
  }

  /** `first_msg.get("content", "")`: an absent key gives "", a JSON null stays null. */
  function ModelOutput(c: Content): (r: Option<string>)
    ensures r.None? <==> c.Null?
    ensures c.Absent? ==> r == Some("")
    ensures c.Str? ==> r == Some(c.text)
  {
    match c
    case Absent => Some("")
    case Null => None
    case Str(s) => Some(s)
  }

  /** `final_msg["content"]` once the key is known to be there: a JSON null stays null. */
  function AnswerText(c: Content): (r: Option<string>)
    requires !c.Absent?
    ensures r.None? <==> c.Null?
    ensures c.Str? ==> r == Some(c.text)
  {
    if c.Str? then Some(c.text) else None
  }

  /** The arguments of the first tool call, when there is one and they decode. */
  function RequestedArgs(reply: FirstReply): Option<ToolArgs>
  {
    if reply.toolCalls == [] then None else reply.toolCalls[0].arguments
  }

  /** The lookup the arguments ask for: missing keys default to "" and 20; nothing is clamped. */
  function LookupQuery(args: ToolArgs): (q: string)
    ensures args.query.None? ==> q == ""
    ensures args.query.Some? ==> q == args.query.value
  {
    args.query.GetOr("")
  }

  function LookupLimit(args: ToolArgs): (n: int)
    ensures args.limit.None? ==> n == DefaultLimit
    ensures args.limit.Some? ==> n == args.limit.value
  {
    args.limit.GetOr(DefaultLimit)
  }

  /** `chat_endpoint`. `first` and `second` are the model's replies (None: the call failed). */
  method Chat(store: Store, req: ChatRequest, first: Option<FirstReply>, second: Option<FinalReply>, now: int)
    returns (out: Outcome, calls: seq<ModelCall>)
    modifies store
    // Validation happens before any model call and any store access.
    ensures |req.messages| == 0 ==>
      out == Failed(EmptyConversation) && calls == [] && store.lists == old(store.lists)
    ensures |req.messages| > 0 && !EndsWithUser(req.messages) ==>
      out == BadRequest(400, LastNotUser) && calls == [] && store.lists == old(store.lists)
    // A valid request always makes the forced tool call first.
    ensures EndsWithUser(req.messages) ==>
      1 <= |calls| <= 2 && calls[0] == ModelCall(Prompt(req.messages), [GetKnowledge], Some("get_knowledge"))
    // No usable tool call: exactly one model call and the store is untouched.
    ensures EndsWithUser(req.messages) && first.None? ==>
      out == Failed(ModelUnavailable) && |calls| == 1 && store.lists == old(store.lists)
    ensures EndsWithUser(req.messages) && first.Some? && first.value.toolCalls == [] ==>
      out == NoLookup(NoLookupError, ModelOutput(first.value.content))
      && |calls| == 1 && store.lists == old(store.lists)
    ensures (EndsWithUser(req.messages) && first.Some? && first.value.toolCalls != []
             && first.value.toolCalls[0].arguments.None?) ==>
      out == Failed(MalformedToolArguments) && |calls| == 1 && store.lists == old(store.lists)
    // A lookup: fetch from the log as it was, then log exactly one record, then the second call.
    ensures EndsWithUser(req.messages) && first.Some? && RequestedArgs(first.value).Some? ==>
      var args := RequestedArgs(first.value).value;
      var query, limit := LookupQuery(args), LookupLimit(args);
      var items := FetchKnowledge(old(store.Log(req.userId)), query, limit);
      var rec := Record(now, Some(query), limit, |items|);
      && store.Log(req.userId) == ([rec] + old(store.Log(req.userId)))[..Min(store.maxHistory, |old(store.Log(req.userId))| + 1)]
      && (forall u :: u != req.userId ==> store.Log(u) == old(store.Log(u)))
      && (forall k :: k != Key(req.userId) ==> ListAt(store.lists, k) == ListAt(old(store.lists), k))
      && |calls| == 2
      && calls[1] == ModelCall(
           calls[0].messages + [ToolRequest(first.value), ToolResult(first.value.toolCalls[0].name, items)], [], None)
      && out == (if second.None? then Failed(ModelUnavailable)
                 else if second.value.content.Absent? then Failed(MissingAnswerContent)
                 else Answered(AnswerText(second.value.content), second.value.usage.GetOr(map[]),
                               LookupMeta(query, limit, |items|)))
  {
    calls := [];
    if |req.messages| == 0 {
      out := Failed(EmptyConversation);
      return;
    }
    if req.messages[|req.messages| - 1].role != "user" {
      out := BadRequest(400, LastNotUser);
      return;
    }
    var prompt := Prompt(req.messages);
    calls := [ModelCall(prompt, [GetKnowledge], Some("get_knowledge"))];
    if first.None? {
      out := Failed(ModelUnavailable);
      return;
    }
    var msg := first.value;
    if msg.toolCalls == [] {
      out := NoLookup(NoLookupError, ModelOutput(msg.content));
      return;
    }
    var call := msg.toolCalls[0];
    if call.arguments.None? {
      out := Failed(MalformedToolArguments);
      return;
    }
    var query := LookupQuery(call.arguments.value);
    var limit := LookupLimit(call.arguments.value);
    var items := store.Fetch(req.userId, query, limit);
    store.Append(req.userId, Record(now, Some(query), limit, |items|));
    calls := calls + [ModelCall(prompt + [ToolRequest(msg), ToolResult(call.name, items)], [], None)];
    if second.None? {
      out := Failed(ModelUnavailable);
      return;
    }
    if second.value.content.Absent? {
      out := Failed(MissingAnswerContent);
      return;
    }
    out := Answered(AnswerText(second.value.content), second.value.usage.GetOr(map[]), LookupMeta(query, limit, |items|));
  }

  /**
   * A fresh user says "hi"; the model asks for get_knowledge(query="", limit=20) and then
   * answers "Hello!". The answer reports no items and the log holds the one new record.
   */
  method FreshUserLookup(now: int) returns (out: Outcome, log: seq<Record>)
    ensures out == Answered(Some("Hello!"), map[], LookupMeta("", 20, 0))
    ensures log == [Record(now, Some(""), 20, 0)]
  {
    var store := new Store(500, map[]);
    var req := ChatRequest("alice", [ChatMessage("user", "hi")], None);
    var call := ToolCall("get_knowledge", Some(ToolArgs(Some(""), Some(20))));
    var calls;
    out, calls := Chat(store, req, Some(FirstReply(Null, [call])), Some(FinalReply(Str("Hello!"), None)), now);
    log := store.Log("alice");
  }

  /** A conversation ending with an assistant turn is refused, with no model call and no write. */
  method AssistantLastRejected(initial: Db<Record>, userId: string)
    returns (out: Outcome, calls: seq<ModelCall>, after: Db<Record>)
    ensures out == BadRequest(400, LastNotUser) && calls == []
    ensures after == initial
  {
    var store := new Store(500, initial);
    var req := ChatRequest(userId, [ChatMessage("user", "hi"), ChatMessage("assistant", "hello")], None);
    out, calls := Chat(store, req, None, None, 0);
    after := store.lists;
  }

  /** A first reply without a tool call ends the request with the model's text and no write. */
  method NoToolCallReported(initial: Db<Record>, userId: string, text: string)
    returns (out: Outcome, calls: seq<ModelCall>, after: Db<Record>)
    ensures out == NoLookup("Model did not request a knowledge lookup", Some(text))
    ensures |calls| == 1 && after == initial
  {
    var store := new Store(500, initial);
    var req := ChatRequest(userId, [ChatMessage("user", "hi")], None);
    out, calls := Chat(store, req, Some(FirstReply(Str(text), [])), None, 0);
    after := store.lists;
  }
}
