/** The chat routes of backend/routes/chat.py: resolving the caller's
    conversation, the history window handed to the agent, the log of tool
    calls built from the agent run, the chat turn itself and the history
    endpoint. The agent run is the parameter `run` (from its input messages to
    its final text and items, or the text of the exception it raised); JSON
    text is read by `parse` (None where `json.loads` raises) and written by
    `dumps`. */
module Chat {
  import opened Wrappers
  import opened Models
  import opened Exceptions
  import opened ChatTables
  import Json
  import Seqs

  /** `_check_user_authorization`: 403 exactly when the caller is not the path user. */
  function CheckUserAuthorization(pathUserId: string, currentUser: string): (r: Option<HttpException>)
    ensures r.Some? <==> currentUser != pathUserId
    ensures r.Some? ==> r.value == UnauthorizedResource
  {
    if currentUser != pathUserId then Some(UnauthorizedResource) else None
  }

  const UnauthorizedResource := Raise(403, "Not authorized to access this resource")

  /** How a chat request fails: an HTTP error, or the `MultipleResultsFound`
      that `scalar_one_or_none()` raises when a user owns several conversations. */
  datatype ChatError = Raised(e: HttpException) | MultipleResultsFound

  /** How `_get_or_create_conversation` resolves the conversation of
      `userId` against the table `convs` whose next id is `hi`: a requested
      id (Python-true, so not 0) the user owns names its conversation;
      otherwise the user's only conversation; several are an error; with none
      a new one gets the next id. */
  ghost predicate Resolves(convs: map<int, Conversation>, hi: int, userId: string, conversationId: Option<int>,
                           now: int, r: Result<Conversation, ChatError>)
    requires forall k :: k in convs ==> convs[k].id == k
  {
    var requested := conversationId.Some? && conversationId.value != 0
                     && conversationId.value in convs && convs[conversationId.value].userId == userId;
    var owned := UserConversations(convs, hi, userId);
    && (requested ==> r == Success(convs[conversationId.value]))
    && (!requested && |owned| == 1 ==> r == Success(owned[0]))
    && (!requested && |owned| > 1 ==> r == Failure(MultipleResultsFound))
    && (!requested && |owned| == 0 ==> r == Success(Conversation(hi, userId, now)))
  }

  /** `_get_or_create_conversation`: resolves the conversation as `Resolves`
      says; the conversation it answers is owned by the user and stored, and
      is new only when the user had none. No message changes. */
  method GetOrCreateConversation(tables: Tables, userId: string, conversationId: Option<int>, now: int)
    returns (r: Result<Conversation, ChatError>)
    requires tables.Valid()
    modifies tables
    ensures tables.Valid()
    ensures tables.messages == old(tables.messages) && tables.nextMessageId == old(tables.nextMessageId)
    ensures Resolves(old(tables.conversations), old(tables.nextConversationId), userId, conversationId, now, r)
    ensures r.Success? ==>
      && r.value.userId == userId
      && tables.conversations == old(tables.conversations)[r.value.id := r.value]
      && (r.value.id !in old(tables.conversations) ==>
            |UserConversations(old(tables.conversations), old(tables.nextConversationId), userId)| == 0)
    ensures r.Failure? ==> tables.conversations == old(tables.conversations)
    ensures old(OnePerUser(tables.conversations)) ==> r.Success? && OnePerUser(tables.conversations)
  {
    if conversationId.Some? && conversationId.value != 0 {
      var found := tables.FindConversation(conversationId.value, userId);
      if found.Some? {
        return Success(found.value);
      }
    }
    var owned := UserConversations(tables.conversations, tables.nextConversationId, userId);
    if |owned| > 1 {
      assert owned[0].id != owned[1].id;
      return Failure(MultipleResultsFound);
    }
    if |owned| == 1 {
      return Success(owned[0]);
    }
    var c := tables.AddConversation(userId, now);
    r := Success(c);
  }

  /** One entry of the agent's input: `{"role": ..., "content": ...}`. */
  datatype Turn = Turn(role: string, content: string)

  function TurnOf(m: Message): Turn {
    Turn(m.role, m.content)
  }

  /** The loop of `_get_history_messages`: one role/content entry per message, in order. */
  method TurnsOf(messages: seq<Message>) returns (history: seq<Turn>)
    ensures history == Seqs.Map(messages, TurnOf)
  {
    history := [];
    for i := 0 to |messages|
      invariant history == Seqs.Map(messages[..i], TurnOf)
    {
      assert messages[..i + 1][..i] == messages[..i];
      history := history + [TurnOf(messages[i])];
    }
    assert messages[..|messages|] == messages;
  }

  /** `_get_history_messages`: the newest `limit` messages of the conversation
      written by the user (the query sorts newest first and takes `limit`; the
      list is then reversed), oldest first, each reduced to role and content. */
  method HistoryMessages(tables: Tables, conversationId: int, userId: string, limit: nat := 10)
    returns (history: seq<Turn>)
    requires tables.Valid()
    ensures history == Seqs.Map(LatestMessages(tables.messages, tables.nextMessageId, conversationId, userId, limit), TurnOf)
  {
    var messages := LatestMessages(tables.messages, tables.nextMessageId, conversationId, userId, limit);
    history := TurnsOf(messages);
  }

  /** The input the agent gets: the history read before the new message was
      stored, then that message. */
  function AgentInput(history: seq<Turn>, message: string): (r: seq<Turn>)
    ensures |r| == |history| + 1 && r[..|history|] == history && r[|history|] == Turn("user", message)
  {
    history + [Turn("user", message)]
  }

  /** An item of the agent run's `new_items`: a tool call (its name, if any,
      and its JSON argument text), a tool's output, or anything else. */
  datatype RunItem = ToolCallItem(name: Option<string>, arguments: string) | ToolOutputItem(output: string) | OtherItem

  predicate IsCall(item: RunItem) {
    item.ToolCallItem?
  }

  /** One record of the tool-call log. */
  datatype ToolCallInfo = ToolCallInfo(toolName: string, arguments: Json.Value, result: string)

  /** The record a tool call starts: a missing or empty name becomes "unknown",
      argument text that is not valid JSON becomes `{}`, and the result is empty. */
  function StartedCall(item: RunItem, parse: string -> Option<Json.Value>): (r: ToolCallInfo)
    requires item.ToolCallItem?
    ensures r.result == ""
    ensures r.toolName == (if item.name.None? || item.name.value == "" then "unknown" else item.name.value)
    ensures r.arguments == (if parse(item.arguments).Some? then parse(item.arguments).value else Json.EmptyObject)
  {
    var name := if item.name.None? || item.name.value == "" then "unknown" else item.name.value;
    var arguments := match parse(item.arguments) case None => Json.EmptyObject case Some(v) => v;
    ToolCallInfo(name, arguments, "")
  }

  /** One turn of the extraction loop: a call appends its record; an output
      fills the last record's result, only if there is a record and its result
      is still empty, and is dropped otherwise; any other item changes nothing. */
  function Step(infos: seq<ToolCallInfo>, item: RunItem, parse: string -> Option<Json.Value>): (r: seq<ToolCallInfo>)
    ensures item.ToolCallItem? ==> r == infos + [StartedCall(item, parse)]
    ensures !item.ToolCallItem? ==> |r| == |infos|
    ensures !item.ToolCallItem? ==> forall k :: 0 <= k < |infos| ==> r[k].(result := infos[k].result) == infos[k]
    ensures forall k :: 0 <= k < |infos| && (k < |infos| - 1 || infos[k].result != "") ==> r[k] == infos[k]
    ensures item.ToolOutputItem? && infos != [] && infos[|infos| - 1].result == "" ==>
      r[|infos| - 1].result == item.output
    ensures item.ToolOutputItem? && (infos == [] || infos[|infos| - 1].result != "") ==> r == infos
    ensures item.OtherItem? ==> r == infos
  {
    match item
    case ToolCallItem(_, _) => infos + [StartedCall(item, parse)]
    case ToolOutputItem(output) =>
      if infos != [] && infos[|infos| - 1].result == "" then infos[..|infos| - 1] + [infos[|infos| - 1].(result := output)]
      else infos
    case OtherItem => infos
  }

  /** The log the extraction loop builds from the items, in order. */
  function Paired(items: seq<RunItem>, parse: string -> Option<Json.Value>): seq<ToolCallInfo> {
    if items == [] then [] else Step(Paired(items[..|items| - 1], parse), items[|items| - 1], parse)
  }

  /** The extraction loop of `chat` over the run's items. */
  method ExtractToolCalls(items: seq<RunItem>, parse: string -> Option<Json.Value>) returns (infos: seq<ToolCallInfo>)
    ensures infos == Paired(items, parse)
  {
    infos := [];
    for i := 0 to |items|
      invariant infos == Paired(items[..i], parse)
    {
      assert items[..i + 1][..i] == items[..i];
      infos := Step(infos, items[i], parse);
    }
    assert items[..|items|] == items;
  }

  /** The log has one record per call item, in order, each with that call's
      name and arguments: outputs never add or remove a record. */
  lemma {:induction false} PairedMatchesCalls(items: seq<RunItem>, parse: string -> Option<Json.Value>)
    ensures var infos, calls := Paired(items, parse), Seqs.Filter(items, IsCall);
      && |infos| == |calls|
      && forall k :: 0 <= k < |infos| ==> infos[k].(result := "") == StartedCall(calls[k], parse)
  {
    if items != [] {
      var init, last := items[..|items| - 1], items[|items| - 1];
      assert items == init + [last];
      Seqs.FilterAppend(init, [last], IsCall);
      assert Seqs.Filter([last], IsCall) == if IsCall(last) then [last] else [] by {
        assert [last][1..] == [];
      }
      PairedMatchesCalls(init, parse);
    }
  }

  /** A record whose result is filled is never changed by later items. */
  lemma {:induction false} FilledResultStays(items: seq<RunItem>, parse: string -> Option<Json.Value>, n: nat, k: nat)
    requires n <= |items| && k < |Paired(items[..n], parse)| && Paired(items[..n], parse)[k].result != ""
    ensures k < |Paired(items, parse)| && Paired(items, parse)[k] == Paired(items[..n], parse)[k]
    decreases |items| - n
  {
    if n < |items| {
      var prefix, before := items[..n + 1], Paired(items[..n], parse);
      assert prefix[..n] == items[..n] && prefix[n] == items[n];
      assert Paired(prefix, parse) == Step(before, items[n], parse);
      assert Paired(prefix, parse)[k] == before[k];
      FilledResultStays(items, parse, n + 1, k);
    } else {
      assert items[..n] == items;
    }
  }

  /** A record as `tc.model_dump()` writes it. */
  function InfoJson(info: ToolCallInfo): Json.Value {
    Json.Obj(map["tool_name" := Json.Str(info.toolName), "arguments" := info.arguments, "result" := Json.Str(info.result)])
  }

  /** The stored tool-call log: None when there were no calls. */
  function ToolCallsLog(infos: seq<ToolCallInfo>, dumps: Json.Value -> string): (r: Option<string>)
    ensures r.None? <==> infos == []
  {
    if infos == [] then None else Some(dumps(Json.Arr(Seqs.Map(infos, InfoJson))))
  }

  /** The text the agent answered, or the apology when it gave none (or an empty one). */
  const Apology := "I'm sorry, I couldn't process that request."

  function ResponseText(finalOutput: Option<string>): (r: string)
    ensures r != ""
    ensures finalOutput.Some? && finalOutput.value != "" ==> r == finalOutput.value
  {
    if finalOutput.Some? && finalOutput.value != "" then finalOutput.value else Apology
  }

  /** What a finished agent run hands back. */
  datatype AgentResult = AgentResult(finalOutput: Option<string>, items: seq<RunItem>)

  datatype ChatResponse = ChatResponse(response: string, conversationId: int, toolCalls: seq<ToolCallInfo>, createdAt: int)

  /** The agent input of a chat turn on conversation `cid` of `userId`, given
      the message table before the turn. */
  function TurnInput(messages: map<int, Message>, hi: int, cid: int, userId: string, message: string): seq<Turn> {
    AgentInput(Seqs.Map(LatestMessages(messages, hi, cid, userId, 10), TurnOf), message)
  }

  /** Reads the conversation's history, then stores the user's message;
      returns what the agent is given. */
  method Ask(tables: Tables, conversationId: int, userId: string, message: string, now: int)
    returns (input: seq<Turn>)
    requires tables.Valid()
    modifies tables
    ensures tables.Valid()
    ensures input == TurnInput(old(tables.messages), old(tables.nextMessageId), conversationId, userId, message)
    ensures tables.messages == old(tables.messages)[old(tables.nextMessageId) :=
              Message(old(tables.nextMessageId), conversationId, userId, "user", message, None, now)]
    ensures tables.nextMessageId == old(tables.nextMessageId) + 1
    ensures tables.conversations == old(tables.conversations) && tables.nextConversationId == old(tables.nextConversationId)
  {
    var history := HistoryMessages(tables, conversationId, userId);
    input := AgentInput(history, message);
    var _ := tables.AddMessage(conversationId, userId, "user", message, None, now);
  }

  /** Stores the agent's answer with its tool-call log and touches the
      conversation; returns the reply. */
  method Answer(tables: Tables, cid: int, userId: string, result: AgentResult, now: int,
                parse: string -> Option<Json.Value>, dumps: Json.Value -> string)
    returns (reply: ChatResponse)
    requires tables.Valid() && cid in tables.conversations
    modifies tables
    ensures tables.Valid()
    ensures var response, infos := ResponseText(result.finalOutput), Paired(result.items, parse);
      && reply == ChatResponse(response, cid, infos, now)
      && tables.messages == old(tables.messages)[old(tables.nextMessageId) :=
           Message(old(tables.nextMessageId), cid, userId, "assistant", response, ToolCallsLog(infos, dumps), now)]
    ensures tables.nextMessageId == old(tables.nextMessageId) + 1
    ensures tables.conversations == old(tables.conversations)[cid := old(tables.conversations[cid]).(updatedAt := now)]
    ensures OnePerUser(old(tables.conversations)) ==> OnePerUser(tables.conversations)
  {
    var responseText := ResponseText(result.finalOutput);
    var infos := ExtractToolCalls(result.items, parse);
    var assistant := tables.AddMessage(cid, userId, "assistant", responseText, ToolCallsLog(infos, dumps), now);
    tables.Touch(cid, now);
    reply := ChatResponse(responseText, cid, infos, assistant.createdAt);
  }

  /** The effect of the exchange on conversation `c` of `userId`, from the
      tables `messages` (next id `u`) and `convs` to `messagesAfter` and
      `convsAfter`: the user's message is stored and the agent runs on the
      history followed by it; a failed run is a 500 "AI agent error: ..."
      that changes nothing more; a finished run stores the answer with its
      tool-call log and touches the conversation. */
  ghost predicate Exchanged(messages: map<int, Message>, u: int, convs: map<int, Conversation>, c: Conversation,
                            userId: string, message: string, now: int,
                            run: seq<Turn> -> Result<AgentResult, string>,
                            parse: string -> Option<Json.Value>, dumps: Json.Value -> string,
                            r: Result<ChatResponse, ChatError>,
                            messagesAfter: map<int, Message>, convsAfter: map<int, Conversation>)
  {
    var outcome := run(TurnInput(messages, u, c.id, userId, message));
    var asked := Message(u, c.id, userId, "user", message, None, now);
    && c.id in convs
    && (outcome.Failure? ==>
          && r == Failure(Raised(Raise(500, "AI agent error: " + outcome.error)))
          && messagesAfter == messages[u := asked]
          && convsAfter == convs)
    && (outcome.Success? ==>
          var response := ResponseText(outcome.value.finalOutput);
          var infos := Paired(outcome.value.items, parse);
          && r == Success(ChatResponse(response, c.id, infos, now))
          && messagesAfter == messages[u := asked]
               [u + 1 := Message(u + 1, c.id, userId, "assistant", response, ToolCallsLog(infos, dumps), now)]
          && convsAfter == convs[c.id := convs[c.id].(updatedAt := now)])
  }

  /** The part of a chat turn after the conversation is resolved, as
      `Exchanged` says. */
  method Exchange(tables: Tables, conversation: Conversation, userId: string, message: string, now: int,
                  run: seq<Turn> -> Result<AgentResult, string>,
                  parse: string -> Option<Json.Value>, dumps: Json.Value -> string)
    returns (r: Result<ChatResponse, ChatError>)
    requires tables.Valid() && conversation.id in tables.conversations
    modifies tables
    ensures tables.Valid()
    ensures old(OnePerUser(tables.conversations)) ==> OnePerUser(tables.conversations)
    ensures r.Failure? ==> r.error.Raised? && r.error.e.status == 500
    ensures r.Success? ==> r.value.conversationId == conversation.id
    ensures Exchanged(old(tables.messages), old(tables.nextMessageId), old(tables.conversations), conversation,
                      userId, message, now, run, parse, dumps, r, tables.messages, tables.conversations)
  {
    var input := Ask(tables, conversation.id, userId, message, now);
    var outcome := run(input);
    if outcome.Failure? {
      return Failure(Raised(Raise(500, "AI agent error: " + outcome.error)));
    }
    var reply := Answer(tables, conversation.id, userId, outcome.value, now, parse, dumps);
    r := Success(reply);
  }

  /** POST `/chat`: after the authorization check, resolves the conversation
      as `Resolves` says (the choice is returned as `resolved`); a failed
      resolution changes nothing, and otherwise the exchange is made on the
      resolved conversation as `Exchanged` says. The answer names a
      conversation the caller owns. */
  method ChatTurn(tables: Tables, pathUserId: string, currentUser: string, conversationId: Option<int>,
                  message: string, now: int, run: seq<Turn> -> Result<AgentResult, string>,
                  parse: string -> Option<Json.Value>, dumps: Json.Value -> string)
    returns (r: Result<ChatResponse, ChatError>, ghost resolved: Result<Conversation, ChatError>)
    requires tables.Valid()
    modifies tables
    ensures tables.Valid()
    ensures currentUser != pathUserId ==>
      && r == Failure(Raised(UnauthorizedResource))
      && tables.messages == old(tables.messages) && tables.conversations == old(tables.conversations)
    ensures currentUser == pathUserId ==>
      && Resolves(old(tables.conversations), old(tables.nextConversationId), pathUserId, conversationId, now, resolved)
      && (resolved.Failure? ==>
            && r == Failure(resolved.error)
            && tables.messages == old(tables.messages) && tables.conversations == old(tables.conversations))
      && (resolved.Success? ==>
            Exchanged(old(tables.messages), old(tables.nextMessageId),
                      old(tables.conversations)[resolved.value.id := resolved.value], resolved.value,
                      pathUserId, message, now, run, parse, dumps, r, tables.messages, tables.conversations))
    ensures old(OnePerUser(tables.conversations)) ==> OnePerUser(tables.conversations) && r != Failure(MultipleResultsFound)
    ensures r.Success? ==>
      && currentUser == pathUserId
      && r.value.conversationId in tables.conversations
      && tables.conversations[r.value.conversationId].userId == pathUserId
      && tables.conversations[r.value.conversationId].updatedAt == now
  {
    var denied := CheckUserAuthorization(pathUserId, currentUser);
    if denied.Some? {
      return Failure(Raised(denied.value)), Failure(Raised(denied.value));
    }
    var conversation := GetOrCreateConversation(tables, pathUserId, conversationId, now);
    resolved := conversation;
    if conversation.Failure? {
      return Failure(conversation.error), resolved;
    }
    r := Exchange(tables, conversation.value, pathUserId, message, now, run, parse, dumps);
  }

  /** A message as the history endpoint returns it, its tool-call log decoded. */
  datatype MessageView = MessageView(id: int, role: string, content: string, toolCalls: Option<Json.Value>, createdAt: int)

  /** A stored log that is missing, empty or not valid JSON is returned as None. */
  function ViewOf(m: Message, parse: string -> Option<Json.Value>): (r: MessageView)
    ensures r.id == m.id && r.role == m.role && r.content == m.content && r.createdAt == m.createdAt
    ensures m.toolCalls.None? || m.toolCalls.value == "" ==> r.toolCalls.None?
    ensures m.toolCalls.Some? && m.toolCalls.value != "" ==> r.toolCalls == parse(m.toolCalls.value)
  {
    var toolCalls := if m.toolCalls.Some? && m.toolCalls.value != "" then parse(m.toolCalls.value) else None;
    MessageView(m.id, m.role, m.content, toolCalls, m.createdAt)
  }

  datatype HistoryResponse = HistoryResponse(conversationId: Option<int>, messages: seq<MessageView>)

  /** GET `/chat/history`: after the authorization check, no id and no messages
      when the user has no conversation; otherwise every message of the user's
      conversation written by the user, oldest first. Nothing changes. */
  method GetChatHistory(tables: Tables, pathUserId: string, currentUser: string, parse: string -> Option<Json.Value>)
    returns (r: Result<HistoryResponse, ChatError>)
    requires tables.Valid()
    ensures currentUser != pathUserId ==> r == Failure(Raised(UnauthorizedResource))
    ensures currentUser == pathUserId ==>
      var owned := UserConversations(tables.conversations, tables.nextConversationId, pathUserId);
      && (|owned| == 0 ==> r == Success(HistoryResponse(None, [])))
      && (|owned| > 1 ==> r == Failure(MultipleResultsFound))
      && (|owned| == 1 ==>
            var all := ConversationMessages(tables.messages, tables.nextMessageId, owned[0].id, pathUserId);
            && r.Success? && r.value.conversationId == Some(owned[0].id)
            && |r.value.messages| == |all|
            && forall i :: 0 <= i < |all| ==> r.value.messages[i] == ViewOf(all[i], parse))
  {
    var denied := CheckUserAuthorization(pathUserId, currentUser);
    if denied.Some? {
      return Failure(Raised(denied.value));
    }
    var owned := UserConversations(tables.conversations, tables.nextConversationId, pathUserId);
    if |owned| > 1 {
      return Failure(MultipleResultsFound);
    }
    if |owned| == 0 {
      return Success(HistoryResponse(None, []));
    }
    var messages := ConversationMessages(tables.messages, tables.nextMessageId, owned[0].id, pathUserId);
    var views: seq<MessageView> := [];
    for i := 0 to |messages|
      invariant |views| == i
      invariant forall j :: 0 <= j < i ==> views[j] == ViewOf(messages[j], parse)
    {
      views := views + [ViewOf(messages[i], parse)];
    }
    r := Success(HistoryResponse(Some(owned[0].id), views));
  }
}
