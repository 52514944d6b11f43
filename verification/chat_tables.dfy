/** The conversation and message tables the chat routes use, as one object
    whose fields the routes update in place. Both tables have auto-increment
    integer keys; messages are created in key order, so ascending key order is
    ascending `created_at` order. */
module ChatTables {
  import opened Wrappers
  import opened Models
  import Storage

  /** The messages of one conversation written by one user, oldest first:
      those among the keys below `hi`, by ascending key. */
  function ConversationMessages(messages: map<int, Message>, hi: int, conversationId: int, userId: string)
    : (r: seq<Message>)
    requires forall k :: k in messages ==> messages[k].id == k
    ensures forall i :: 0 <= i < |r| ==>
      && 1 <= r[i].id < hi && r[i].id in messages && messages[r[i].id] == r[i]
      && r[i].conversationId == conversationId && r[i].userId == userId
    ensures forall k :: (1 <= k < hi && k in messages && messages[k].conversationId == conversationId
      && messages[k].userId == userId) ==> messages[k] in r
    ensures forall i, j :: 0 <= i < j < |r| ==> r[i].id < r[j].id
    decreases hi
  {
    if hi <= 1 then []
    else
      var older := ConversationMessages(messages, hi - 1, conversationId, userId);
      if Written(messages, hi - 1, conversationId, userId) then older + [messages[hi - 1]] else older
  }

  /** Key `k` holds a message of conversation `conversationId` written by `userId`. */
  predicate Written(messages: map<int, Message>, k: int, conversationId: int, userId: string) {
    k in messages && messages[k].conversationId == conversationId && messages[k].userId == userId
  }

  /** `select(Message).where(...).order_by(Message.created_at.desc()).limit(limit)`,
      then reversed: walking down from the newest key, the first `limit`
      messages of the conversation written by the user, oldest first. */
  function LatestMessages(messages: map<int, Message>, hi: int, conversationId: int, userId: string, limit: nat)
    : seq<Message>
    decreases hi
  {
    if hi <= 1 || limit == 0 then []
    else if Written(messages, hi - 1, conversationId, userId) then
      LatestMessages(messages, hi - 1, conversationId, userId, limit - 1) + [messages[hi - 1]]
    else LatestMessages(messages, hi - 1, conversationId, userId, limit)
  }

  /** The last `limit` elements of `s` (all of them when there are fewer), in order. */
  function Newest<T>(s: seq<T>, limit: nat): (r: seq<T>)
    ensures |r| == if |s| < limit then |s| else limit
    ensures forall i :: 0 <= i < |r| ==> r[i] == s[|s| - |r| + i]
  {
    if |s| <= limit then s else s[|s| - limit..]
  }

  lemma NewestAppend<T>(s: seq<T>, x: T, limit: nat)
    requires limit >= 1
    ensures Newest(s + [x], limit) == Newest(s, limit - 1) + [x]
  {
  }

  /** The query's window is the newest `limit` of the conversation's messages
      by the user: ordering by `created_at` descending, taking `limit` and
      reversing keeps the last `limit` messages, oldest first. */
  lemma {:induction false} LatestIsNewestWindow(messages: map<int, Message>, hi: int, conversationId: int,
                                               userId: string, limit: nat)
    requires forall k :: k in messages ==> messages[k].id == k
    ensures LatestMessages(messages, hi, conversationId, userId, limit)
              == Newest(ConversationMessages(messages, hi, conversationId, userId), limit)
    decreases hi
  {
    if hi > 1 && limit > 0 {
      if Written(messages, hi - 1, conversationId, userId) {
        LatestIsNewestWindow(messages, hi - 1, conversationId, userId, limit - 1);
        NewestAppend(ConversationMessages(messages, hi - 1, conversationId, userId), messages[hi - 1], limit);
      } else {
        LatestIsNewestWindow(messages, hi - 1, conversationId, userId, limit);
      }
    }
  }

  /** The conversations a user owns, by ascending id. */
  function UserConversations(conversations: map<int, Conversation>, hi: int, userId: string)
    : (r: seq<Conversation>)
    requires forall k :: k in conversations ==> conversations[k].id == k
    ensures forall i :: 0 <= i < |r| ==>
      r[i].id in conversations && conversations[r[i].id] == r[i] && r[i].userId == userId
    ensures forall k :: 1 <= k < hi && k in conversations && conversations[k].userId == userId ==> conversations[k] in r
    ensures forall i, j :: 0 <= i < j < |r| ==> r[i].id < r[j].id
  {
    var ks := Storage.KeysWhere(conversations, hi, (c: Conversation) => c.userId == userId);
    Storage.RowsAt(conversations, ks)
  }

  /** No user owns two conversations. */
  predicate OnePerUser(conversations: map<int, Conversation>) {
    forall a, b :: a in conversations && b in conversations && conversations[a].userId == conversations[b].userId ==> a == b
  }

  class Tables {
    var conversations: map<int, Conversation>
    var nextConversationId: int
    var messages: map<int, Message>
    var nextMessageId: int

    ghost predicate Valid()
      reads this
    {
      && 1 <= nextConversationId && 1 <= nextMessageId
      && (forall k :: k in conversations ==> 1 <= k < nextConversationId && conversations[k].id == k)
      && (forall k :: k in messages ==> 1 <= k < nextMessageId && messages[k].id == k)
    }

    constructor ()
      ensures Valid() && conversations == map[] && messages == map[]
    {
      conversations := map[];
      nextConversationId := 1;
      messages := map[];
      nextMessageId := 1;
    }

    /** `select(Conversation).where(id == id, user_id == userId)` then
        `scalar_one_or_none()`: the conversation, only if the user owns it. */
    function FindConversation(id: int, userId: string): (r: Option<Conversation>)
      reads this
      ensures r.Some? <==> id in conversations && conversations[id].userId == userId
      ensures r.Some? ==> r.value == conversations[id]
    {
      if id in conversations && conversations[id].userId == userId then Some(conversations[id]) else None
    }

    /** `session.add(Conversation(user_id=userId))` and commit. */
    method AddConversation(userId: string, now: int) returns (c: Conversation)
      requires Valid()
      modifies this
      ensures Valid()
      ensures c == Conversation(old(nextConversationId), userId, now) && c.id !in old(conversations)
      ensures conversations == old(conversations)[c.id := c]
      ensures nextConversationId == old(nextConversationId) + 1
      ensures messages == old(messages) && nextMessageId == old(nextMessageId)
    {
      c := Conversation(nextConversationId, userId, now);
      conversations := conversations[c.id := c];
      nextConversationId := nextConversationId + 1;
    }

    /** `conversation.updated_at = now` and commit. */
    method Touch(id: int, now: int)
      requires Valid() && id in conversations
      modifies this
      ensures Valid()
      ensures conversations == old(conversations)[id := old(conversations[id]).(updatedAt := now)]
      ensures OnePerUser(old(conversations)) ==> OnePerUser(conversations)
      ensures nextConversationId == old(nextConversationId)
      ensures messages == old(messages) && nextMessageId == old(nextMessageId)
    {
      conversations := conversations[id := conversations[id].(updatedAt := now)];
    }

    /** `session.add(Message(...))` and commit: the message gets the next id. */
    method AddMessage(conversationId: int, userId: string, role: string, content: string,
                      toolCalls: Option<string>, now: int)
      returns (m: Message)
      requires Valid()
      modifies this
      ensures Valid()
      ensures m == Message(old(nextMessageId), conversationId, userId, role, content, toolCalls, now)
      ensures m.id !in old(messages) && messages == old(messages)[m.id := m]
      ensures nextMessageId == old(nextMessageId) + 1
      ensures conversations == old(conversations) && nextConversationId == old(nextConversationId)
    {
      m := Message(nextMessageId, conversationId, userId, role, content, toolCalls, now);
      messages := messages[m.id := m];
      nextMessageId := nextMessageId + 1;
    }
  }
}
