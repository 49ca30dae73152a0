/**
  The chat list (frontend/src/components/ChatList.jsx): the preview text of a chat, and
  the hover and delete-confirmation state of the list.
*/
module ChatList {
  import opened ChatTypes

  const NewChatText: string := "New chat"
  const ChatConversationText: string := "Chat conversation"
  const Ellipsis: string := "..."
  const PreviewLength: nat := 50

  /** The index of the first User message, as `find(m => m.role === 'User')` finds it. */
  function FirstUser(ms: seq<Message>): (r: Option<nat>)
    ensures r.Some? ==> r.value < |ms| && ms[r.value].role == User
    ensures r.Some? ==> forall j :: 0 <= j < r.value ==> ms[j].role != User
    ensures r.None? ==> forall j :: 0 <= j < |ms| ==> ms[j].role != User
    decreases |ms|
  {
    if |ms| == 0 then None
    else if ms[0].role == User then Some(0)
    else match FirstUser(ms[1..])
      case None => None
      case Some(i) => Some(i + 1)
  }

  /** The preview of a message's content: its first 50 characters, and "..." when cut. */
  function ContentPreview(content: string): string
  {
    Prefix(content, PreviewLength) + (if |content| > PreviewLength then Ellipsis else "")
  }

  /** `getChatPreview`: a truthy title; "New chat" for a missing or empty list; the
      preview of the first User message when its content is non-empty; and otherwise
      "Chat conversation". */
  function GetChatPreview(chat: ChatSummary): (r: string)
    ensures Truthy(chat.title) ==> r == chat.title.value
  {
    if Truthy(chat.title) then chat.title.value
    else if chat.messages.None? || |chat.messages.value| == 0 then NewChatText
    else match FirstUser(chat.messages.value)
      case Some(i) =>
        if chat.messages.value[i].content != "" then ContentPreview(chat.messages.value[i].content)
        else ChatConversationText
      case None => ChatConversationText
  }

  /** A content preview is at most 53 characters, is the content itself when that has at
      most 50, and otherwise its first 50 characters followed by "...". */
  lemma ContentPreviewShape(content: string)
    ensures |ContentPreview(content)| <= PreviewLength + |Ellipsis|
    ensures |content| <= PreviewLength ==> ContentPreview(content) == content
    ensures |content| > PreviewLength ==>
      ContentPreview(content) == content[..PreviewLength] + Ellipsis
  {
  }

  /** The first User message decides: the preview is that message's content preview,
      or "Chat conversation" when its content is empty. */
  lemma PreviewOfFirstUserMessage(chat: ChatSummary, i: nat)
    requires !Truthy(chat.title) && chat.messages.Some?
    requires i < |chat.messages.value| && chat.messages.value[i].role == User
    requires forall j :: 0 <= j < i ==> chat.messages.value[j].role != User
    ensures chat.messages.value[i].content != "" ==>
      GetChatPreview(chat) == ContentPreview(chat.messages.value[i].content)
    ensures chat.messages.value[i].content == "" ==>
      GetChatPreview(chat) == ChatConversationText
  {
  }

  /** With no title and a missing or empty list, the preview is "New chat". */
  lemma PreviewOfEmptyChat(chat: ChatSummary)
    requires !Truthy(chat.title)
    requires chat.messages.None? || chat.messages.value == []
    ensures GetChatPreview(chat) == NewChatText
  {
  }

  /** With no title and no User message in a non-empty list, the preview is
      "Chat conversation". */
  lemma PreviewWithoutUserMessage(chat: ChatSummary)
    requires !Truthy(chat.title) && chat.messages.Some? && chat.messages.value != []
    requires forall j :: 0 <= j < |chat.messages.value| ==> chat.messages.value[j].role != User
    ensures GetChatPreview(chat) == ChatConversationText
  {
  }

  /** An empty first User message hides later ones: the preview does not look further. */
  lemma LaterUserMessageIsNotConsulted()
    ensures GetChatPreview(ChatSummary("c", None, Some([Message(User, ""), Message(User, "hi")])))
            == ChatConversationText
  {
  }

  /** A preview drawn from a message never exceeds 53 characters. */
  lemma MessagePreviewBound(chat: ChatSummary)
    requires !Truthy(chat.title)
    ensures |GetChatPreview(chat)| <= PreviewLength + |Ellipsis|
  {
  }

  /** The delete confirmation: open or not, the chat it is for and that chat's preview. */
  datatype DeleteConfirm = DeleteConfirm(isOpen: bool, chatId: Option<string>, chatPreview: Option<string>)

  const ClosedConfirm := DeleteConfirm(false, None, None)

  class ChatListState {
    var hoveredChatId: Option<string>
    var deleteConfirm: DeleteConfirm

    /** Nothing hovered; the confirmation `{isOpen: false, chatId: null, chatPreview: null}`. */
    constructor ()
      ensures hoveredChatId == None && deleteConfirm == ClosedConfirm
    {
      hoveredChatId, deleteConfirm := None, ClosedConfirm;
    }

    /** `onMouseEnter` of a row. */
    method MouseEnter(chatId: string)
      modifies this
      ensures hoveredChatId == Some(chatId) && deleteConfirm == old(deleteConfirm)
    {
      hoveredChatId := Some(chatId);
    }

    /** `onMouseLeave` of a row. */
    method MouseLeave()
      modifies this
      ensures hoveredChatId == None && deleteConfirm == old(deleteConfirm)
    {
      hoveredChatId := None;
    }

    /** The delete button, shown only on the hovered row: opens the confirmation for that
        chat with its preview. */
    method OpenDeleteConfirm(chat: ChatSummary)
      requires hoveredChatId == Some(chat.id)
      modifies this
      ensures deleteConfirm == DeleteConfirm(true, Some(chat.id), Some(GetChatPreview(chat)))
      ensures hoveredChatId == old(hoveredChatId)
    {
      deleteConfirm := DeleteConfirm(true, Some(chat.id), Some(GetChatPreview(chat)));
    }

    /** The modal's `onClose`, which is also all that Cancel does. */
    method CloseDeleteConfirm()
      modifies this
      ensures deleteConfirm == ClosedConfirm && hoveredChatId == old(hoveredChatId)
    {
      deleteConfirm := ClosedConfirm;
    }

    /** The Delete action: `onDeleteChat` is called with the recorded id only when there is
        a handler and a truthy id (`deleted`), then the modal's `onClose` resets the state. */
    method ConfirmDelete(hasOnDeleteChat: bool) returns (deleted: Option<string>)
      modifies this
      ensures deleted == if hasOnDeleteChat && Truthy(old(deleteConfirm).chatId)
                         then old(deleteConfirm).chatId else None
      ensures deleteConfirm == ClosedConfirm && hoveredChatId == old(hoveredChatId)
    {
      deleted := None;
      if hasOnDeleteChat && Truthy(deleteConfirm.chatId) {
        deleted := deleteConfirm.chatId;
      }
      deleteConfirm := ClosedConfirm;
    }
  }
}
