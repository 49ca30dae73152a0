/**
  The message pane (frontend/src/components/ChatWindow.jsx): an optimistic send over the
  state cells `localMessages`, `isSending`, `error` and `showModal`, and the effect that
  copies the `messages` prop into `localMessages` whenever it or `sessionId` changes.

  One `handleSendMessage` call is split at its `await`: `BeginSend` is everything before
  it, `FinishSend` everything after it, given the outcome of `onSend`. The ids built from
  `Date.now()` are parameters. The `catch` resets to the `messages` prop of the render the
  handler was created in, which `FinishSend` receives as `captured`.
*/
module ChatWindow {
  import opened ChatTypes

  /** A message as the pane holds it: optimistic messages carry a local id. */
  datatype UiMessage = UiMessage(role: Role, content: string, id: Option<string>)

  /** The shapes `onSend` can resolve to, as the handler tells them apart. */
  datatype JsValue =
    | Array(items: seq<UiMessage>)
    | Object(messages: Option<seq<UiMessage>>)  // `None` when `messages` is not an array
    | Str(text: string)
    | Other                                     // null, undefined, a number, ...

  /** How the awaited `onSend` call ended. */
  datatype SendOutcome = Resolved(value: JsValue) | Rejected(errorMessage: string)

  const NoSessionError: string := "Please select or create a chat session to start messaging"
  const SendFailedError: string := "Failed to send message"

  /** The list right after the optimistic update: the User message appended. */
  function Optimistic(local: seq<UiMessage>, message: string, localId: string): (r: seq<UiMessage>)
    ensures |r| == |local| + 1 && r[..|local|] == local
    ensures r[|local|] == UiMessage(User, message, Some(localId))
  {
    local + [UiMessage(User, message, Some(localId))]
  }

  /** The list after the outcome is handled, from the list before it. */
  function Reconcile(local: seq<UiMessage>, outcome: SendOutcome, aiId: string,
                     captured: seq<UiMessage>): seq<UiMessage>
  {
    match outcome
    case Rejected(_) => captured
    case Resolved(Array(items)) => items
    case Resolved(Object(Some(ms))) => ms
    case Resolved(Str(text)) => local + [UiMessage(AI, text, Some(aiId))]
    case Resolved(_) => local
  }

  /** The error text a rejection shows: its message, or the fallback when that is empty. */
  function RejectionText(errorMessage: string): (t: string)
    ensures t != ""
    ensures errorMessage != "" ==> t == errorMessage
  {
    if errorMessage != "" then errorMessage else SendFailedError
  }

  /** A whole send, from the list before it: a server list replaces everything; a string
      reply leaves the optimistic User turn in place with one AI turn after it; any other
      shape keeps the optimistic turn alone; a rejection drops it, back to the prop. */
  lemma SendEffect(local: seq<UiMessage>, message: string, localId: string,
                   outcome: SendOutcome, aiId: string, captured: seq<UiMessage>)
    ensures var r := Reconcile(Optimistic(local, message, localId), outcome, aiId, captured);
      && (outcome.Rejected? ==> r == captured)
      && (outcome.Resolved? && outcome.value.Array? ==> r == outcome.value.items)
      && (outcome.Resolved? && outcome.value.Object? && outcome.value.messages.Some? ==>
            r == outcome.value.messages.value)
      && (outcome.Resolved? && outcome.value.Str? ==>
            && |r| == |local| + 2 && r[..|local|] == local
            && r[|local|] == UiMessage(User, message, Some(localId))
            && r[|local| + 1] == UiMessage(AI, outcome.value.text, Some(aiId)))
      && (outcome.Resolved? && (outcome.value.Other? || outcome.value == Object(None)) ==>
            r == Optimistic(local, message, localId))
  {
  }

  /** A rejection leaves no message with the optimistic id behind unless the prop had one. */
  lemma RejectionDropsOptimistic(local: seq<UiMessage>, message: string, localId: string,
                                 errorMessage: string, aiId: string, captured: seq<UiMessage>)
    requires forall m :: m in captured ==> m.id != Some(localId)
    ensures forall m :: m in Reconcile(Optimistic(local, message, localId), Rejected(errorMessage), aiId, captured)
              ==> m.id != Some(localId)
  {
  }

  class ChatWindowState {
    /** The props. */
    var sessionId: Option<string>
    var messages: seq<UiMessage>
    /** The state cells. */
    var localMessages: seq<UiMessage>
    var isSending: bool
    var error: Option<string>
    var showModal: bool

    /** First render: `useState(messages || [])`, not sending, no error, modal closed. */
    constructor (sessionId0: Option<string>, messages0: seq<UiMessage>)
      ensures sessionId == sessionId0 && messages == messages0
      ensures localMessages == messages0
      ensures !isSending && error == None && !showModal
    {
      sessionId, messages := sessionId0, messages0;
      localMessages := messages0;
      isSending, error, showModal := false, None, false;
    }

    /** New props, and the sync effect that follows: `localMessages` becomes the prop.
        The effect also runs when only `sessionId` changes. */
    method SyncProps(newSessionId: Option<string>, newMessages: seq<UiMessage>)
      modifies this
      ensures sessionId == newSessionId && messages == newMessages
      ensures localMessages == newMessages
      ensures isSending == old(isSending) && error == old(error) && showModal == old(showModal)
    {
      sessionId, messages := newSessionId, newMessages;
      localMessages := newMessages;
    }

    /** `handleSendMessage` up to its `await`. Without a session: the error and the modal
        are set and nothing else changes, and `onSend` is not called (`proceed` is false).
        Otherwise `isSending` is set, the error cleared and the User message appended. */
    method BeginSend(message: string, localId: string) returns (proceed: bool)
      modifies this
      ensures proceed <==> Truthy(old(sessionId))
      ensures sessionId == old(sessionId) && messages == old(messages)
      ensures !proceed ==>
        && error == Some(NoSessionError) && showModal
        && localMessages == old(localMessages) && isSending == old(isSending)
      ensures proceed ==>
        && isSending && error == None && showModal == old(showModal)
        && localMessages == Optimistic(old(localMessages), message, localId)
    {
      if !Truthy(sessionId) {
        error := Some(NoSessionError);
        showModal := true;
        return false;
      }
      isSending := true;
      error := None;
      localMessages := localMessages + [UiMessage(User, message, Some(localId))];
      proceed := true;
    }

    /** `handleSendMessage` after its `await`: the outcome is reconciled into the list, a
        rejection sets its error text, and `isSending` is cleared on every path. */
    method FinishSend(outcome: SendOutcome, aiId: string, captured: seq<UiMessage>)
      modifies this
      ensures localMessages == Reconcile(old(localMessages), outcome, aiId, captured)
      ensures !isSending
      ensures error == (if outcome.Rejected? then Some(RejectionText(outcome.errorMessage)) else old(error))
      ensures sessionId == old(sessionId) && messages == old(messages) && showModal == old(showModal)
    {
      match outcome {
        case Rejected(errorMessage) =>
          error := Some(RejectionText(errorMessage));
          localMessages := captured;
        case Resolved(value) =>
          match value {
            case Array(items) => localMessages := items;
            case Object(ms) =>
              if ms.Some? {
                localMessages := ms.value;
              }
            case Str(text) =>
              localMessages := localMessages + [UiMessage(AI, text, Some(aiId))];
            case Other =>
          }
      }
      isSending := false;
    }

    /** The modal's `onClose`. */
    method CloseModal()
      modifies this
      ensures !showModal
      ensures sessionId == old(sessionId) && messages == old(messages)
      ensures localMessages == old(localMessages) && isSending == old(isSending) && error == old(error)
    {
      showModal := false;
    }
  }
}
