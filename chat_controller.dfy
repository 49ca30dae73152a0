/**
  The backend controller (backend/src/controllers/chatController.js): the send operation
  appends the User turn to the stored log, maps the log to the provider's two-role
  history, takes the cached provider handle for the session or creates one seeded with
  that history, and appends the AI reply; creating a chat inserts an empty handle.

  The chat collection is a map from id to document, and the process-wide `activeChats`
  dictionary a map from id to handle; both are fields of one controller object. The
  provider's reply is an input (`None` when the provider call fails). The model follows
  the sequential logic the code spells out; as written the code does not reach it:
  - `Chat.findById({sessionId})` (line 49) is neither awaited nor given the id itself, so
    `chat` is a pending query, never null, and `chat.messages.push` throws;
  - `createNewChat` reads `sessionId` (line 22) before its `const` declaration (line 29),
    which throws before anything is saved;
  - the `catch` of the send logs `err` (line 79), which is not defined, so the 500
    response is never sent;
  - `ai` is imported as a default export (line 11), which the service module does not
    have, so `ai.chats.create` throws;
  - the chat schema requires a numeric `sessionId`, which `createNewChat` never
    supplies, so its `save()` fails validation.
  The model returns what each branch evidently means to return instead.
*/
module ChatController {
  import opened ChatTypes

  /** One text part of a provider message. */
  datatype Part = Part(text: string)

  /** One entry of the provider's history: role "user" or "model", and its parts. */
  datatype Content = Content(role: string, parts: seq<Part>)

  /** A provider conversation handle, as created: its model name and seed history. */
  datatype GeminiChat = GeminiChat(model: string, history: seq<Content>)

  /** A stored chat document: its ordered message log. */
  datatype ChatDoc = ChatDoc(messages: seq<Message>)

  /** The JSON bodies the controller sends. */
  datatype Body =
    | Created(sessionId: string)
    | Replied(response: string, messages: seq<Message>)
    | Failed(error: string)

  datatype HttpReply = HttpReply(status: int, body: Body)

  /** The model named when a chat is created (spelled with a dot, as in the source). */
  const CreateModel: string := "gemini-2.5.flash"
  /** The model named when a handle is rebuilt on a cache miss. */
  const SendModel: string := "gemini-2.5-flash"
  const NotFoundError: string := "Chat session not found in database"
  const SendFailedError: string := "Failed to send message"

  /** The provider role of a stored role. */
  function GeminiRole(r: Role): (g: string)
    ensures g == "user" <==> r == User
    ensures g == "user" || g == "model"
  {
    if r == User then "user" else "model"
  }

  /** The history sent to the provider: one entry per stored message, in order, each with
      the provider role and the content as its single text part. */
  function ToGeminiHistory(ms: seq<Message>): (h: seq<Content>)
    ensures |h| == |ms|
    ensures forall i :: 0 <= i < |ms| ==>
      && (h[i].role == "user" <==> ms[i].role == User)
      && (h[i].role != "user" ==> h[i].role == "model")
      && h[i].parts == [Part(ms[i].content)]
  {
    seq(|ms|, i requires 0 <= i < |ms| => Content(GeminiRole(ms[i].role), [Part(ms[i].content)]))
  }

  /** Reading a provider history back as stored messages. */
  function FromGeminiHistory(h: seq<Content>): seq<Message>
  {
    seq(|h|, i requires 0 <= i < |h| =>
      Message(if h[i].role == "user" then User else AI,
              if |h[i].parts| == 1 then h[i].parts[0].text else ""))
  }

  /** The mapping loses nothing: the stored log can be read back from the seed history,
      so a handle can always be rebuilt from the durable log. */
  lemma HistoryRoundTrip(ms: seq<Message>)
    ensures FromGeminiHistory(ToGeminiHistory(ms)) == ms
  {
  }

  /** The mapping is injective: distinct logs give distinct histories. */
  lemma HistoryInjective(a: seq<Message>, b: seq<Message>)
    requires ToGeminiHistory(a) == ToGeminiHistory(b)
    ensures a == b
  {
  }

  /** Mapping an extended log extends the mapped history: the seed built after the
      append keeps the earlier entries and ends with the new User turn. */
  lemma SeedEndsWithUserTurn(ms: seq<Message>, text: string)
    ensures var h := ToGeminiHistory(ms + [Message(User, text)]);
      && h[..|ms|] == ToGeminiHistory(ms)
      && h[|ms|] == Content("user", [Part(text)])
  {
  }

  class Controller {
    /** The chat collection of the store, by id. */
    var chats: map<string, ChatDoc>
    /** `activeChats`: the provider handles, by session id. */
    var activeChats: map<string, GeminiChat>

    /** Every cached handle belongs to a stored chat. */
    ghost predicate Valid()
      reads this
    {
      activeChats.Keys <= chats.Keys
    }

    /** A fresh process: the store as it is, and `const activeChats = {}`. */
    constructor (stored: map<string, ChatDoc>)
      ensures Valid() && chats == stored && activeChats == map[]
    {
      chats, activeChats := stored, map[];
    }

    /** `createNewChat`: saves an empty chat under the id the store assigns (`newId`),
        caches an empty handle under that id, and answers 201 with the id. */
    method CreateNewChat(newId: string) returns (reply: HttpReply)
      requires Valid()
      requires newId !in chats
      modifies this
      ensures Valid()
      ensures chats == old(chats)[newId := ChatDoc([])]
      ensures activeChats == old(activeChats)[newId := GeminiChat(CreateModel, [])]
      ensures reply == HttpReply(201, Created(newId))
    {
      chats := chats[newId := ChatDoc([])];
      activeChats := activeChats[newId := GeminiChat(CreateModel, [])];
      reply := HttpReply(201, Created(newId));
    }

    /** `sendMessageToChat`: an unknown session answers 404 and changes nothing.
        Otherwise the User turn is appended, the handle is taken from the cache or, on a
        miss, created from the mapped log (which already ends with the new turn) and
        cached; then the provider's reply is appended as an AI turn, the chat is saved and
        200 carries the reply and the log. When the provider fails the cache insert has
        already happened but nothing is saved, and the answer is 500. */
    method SendMessageToChat(sessionId: string, userMessage: string, geminiReply: Option<string>)
      returns (reply: HttpReply)
      requires Valid()
      modifies this
      ensures Valid()
      ensures sessionId !in old(chats) ==>
        && reply == HttpReply(404, Failed(NotFoundError))
        && chats == old(chats) && activeChats == old(activeChats)
      ensures sessionId in old(chats) ==>
        var log := old(chats)[sessionId].messages + [Message(User, userMessage)];
        && (sessionId in old(activeChats) ==> activeChats == old(activeChats))
        && (sessionId !in old(activeChats) ==>
              activeChats == old(activeChats)[sessionId := GeminiChat(SendModel, ToGeminiHistory(log))])
        && (geminiReply.Some? ==>
              var saved := log + [Message(AI, geminiReply.value)];
              && chats == old(chats)[sessionId := ChatDoc(saved)]
              && reply == HttpReply(200, Replied(geminiReply.value, saved)))
        && (geminiReply.None? ==>
              chats == old(chats) && reply == HttpReply(500, Failed(SendFailedError)))
    {
      if sessionId !in chats {
        return HttpReply(404, Failed(NotFoundError));
      }
      var chat := chats[sessionId];
      var messages := chat.messages + [Message(User, userMessage)];
      var geminiHistory := ToGeminiHistory(messages);
      if sessionId !in activeChats {
        activeChats := activeChats[sessionId := GeminiChat(SendModel, geminiHistory)];
      }
      if geminiReply.None? {
        return HttpReply(500, Failed(SendFailedError));
      }
      messages := messages + [Message(AI, geminiReply.value)];
      chats := chats[sessionId := ChatDoc(messages)];
      reply := HttpReply(200, Replied(geminiReply.value, messages));
    }
  }
}
