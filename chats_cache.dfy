/**
  The query-cache side of the chat hooks (frontend/src/hooks/useChats.js): the updater
  that drops a deleted chat from the cached list, and the keys each mutation outcome
  invalidates. The cache is modelled as the cached chat list (absent until fetched) and
  the log of invalidated keys, in order; refetching and staleness are not modelled.
*/
module ChatsCache {
  import opened ChatTypes

  /** The query keys the hooks use. */
  datatype QueryKey =
    | ChatsKey                           // ["chats"]
    | MessagesKey(sessionId: Option<string>)  // ["chat", sessionId, "messages"]

  /** The options of the messages query: its key and whether it runs. */
  datatype QueryOptions = QueryOptions(key: QueryKey, enabled: bool)

  /** `useChatMessages`: keyed by the session and enabled only for a truthy session id. */
  function MessagesQuery(sessionId: Option<string>): (q: QueryOptions)
    ensures q.key == MessagesKey(sessionId)
    ensures q.enabled <==> sessionId.Some? && sessionId.value != ""
  {
    QueryOptions(MessagesKey(sessionId), Truthy(sessionId))
  }

  /** The delete updater `oldChats.filter(chat => chat._id !== sessionId)`. */
  function RemoveChat(chats: seq<ChatSummary>, id: string): (r: seq<ChatSummary>)
    ensures forall c :: c in r ==> c.id != id
    ensures forall c :: c in r <==> c in chats && c.id != id
    ensures |r| <= |chats|
  {
    if |chats| == 0 then []
    else if chats[0].id != id then [chats[0]] + RemoveChat(chats[1..], id)
    else RemoveChat(chats[1..], id)
  }

  /** The filter works piecewise, so the chats it keeps stay in their relative order. */
  lemma {:induction false} RemoveChatConcat(a: seq<ChatSummary>, b: seq<ChatSummary>, id: string)
    ensures RemoveChat(a + b, id) == RemoveChat(a, id) + RemoveChat(b, id)
    decreases |a|
  {
    if |a| == 0 {
      assert a + b == b;
    } else {
      assert (a + b)[0] == a[0];
      assert (a + b)[1..] == a[1..] + b;
      RemoveChatConcat(a[1..], b, id);
    }
  }

  /** Removing twice is removing once. */
  lemma {:induction false} RemoveChatIdempotent(chats: seq<ChatSummary>, id: string)
    ensures RemoveChat(RemoveChat(chats, id), id) == RemoveChat(chats, id)
    decreases |chats|
  {
    if |chats| != 0 {
      RemoveChatIdempotent(chats[1..], id);
      if chats[0].id != id {
        var rest := RemoveChat(chats[1..], id);
        assert ([chats[0]] + rest)[0] == chats[0];
        assert ([chats[0]] + rest)[1..] == rest;
      }
    }
  }

  /** A list without the id is returned as it is. */
  lemma {:induction false} RemoveAbsentChat(chats: seq<ChatSummary>, id: string)
    requires forall i :: 0 <= i < |chats| ==> chats[i].id != id
    ensures RemoveChat(chats, id) == chats
    decreases |chats|
  {
    if |chats| != 0 {
      RemoveAbsentChat(chats[1..], id);
      assert [chats[0]] + chats[1..] == chats;
    }
  }

  /** How many chats in the list carry the id. */
  function Occurrences(chats: seq<ChatSummary>, id: string): nat
  {
    if |chats| == 0 then 0
    else (if chats[0].id == id then 1 else 0) + Occurrences(chats[1..], id)
  }

  /** Exactly the chats with the id go: the kept ones number `|chats|` less the removed. */
  lemma {:induction false} RemoveChatCount(chats: seq<ChatSummary>, id: string)
    ensures |RemoveChat(chats, id)| == |chats| - Occurrences(chats, id)
    decreases |chats|
  {
    if |chats| != 0 {
      RemoveChatCount(chats[1..], id);
    }
  }

  class QueryCache {
    /** The data cached under `["chats"]`, absent until the list has been fetched. */
    var chatsData: Option<seq<ChatSummary>>
    /** Every key invalidated so far, in order. */
    var invalidated: seq<QueryKey>

    constructor (data: Option<seq<ChatSummary>>)
      ensures chatsData == data && invalidated == []
    {
      chatsData, invalidated := data, [];
    }

    /** `useDeleteChat` `onSuccess`: the cached list loses the deleted chat. With nothing
        cached the updater calls `filter` on `undefined` and throws (`threw`), and the
        cache is not changed. Nothing is invalidated either way. */
    method DeleteSucceeded(sessionId: string) returns (threw: bool)
      modifies this
      ensures threw <==> old(chatsData).None?
      ensures old(chatsData).Some? ==> chatsData == Some(RemoveChat(old(chatsData).value, sessionId))
      ensures old(chatsData).None? ==> chatsData == old(chatsData)
      ensures invalidated == old(invalidated)
    {
      if chatsData.None? {
        return true;
      }
      chatsData := Some(RemoveChat(chatsData.value, sessionId));
      threw := false;
    }

    /** `useDeleteChat` `onError`: the list is left alone and `["chats"]` is invalidated. */
    method DeleteFailed()
      modifies this
      ensures chatsData == old(chatsData)
      ensures invalidated == old(invalidated) + [ChatsKey]
    {
      invalidated := invalidated + [ChatsKey];
    }

    /** `useSendMessage` `onSuccess`: the session's messages, then the chat list. */
    method SendSucceeded(sessionId: Option<string>)
      modifies this
      ensures chatsData == old(chatsData)
      ensures invalidated == old(invalidated) + [MessagesKey(sessionId), ChatsKey]
    {
      invalidated := invalidated + [MessagesKey(sessionId), ChatsKey];
    }
  }
}
