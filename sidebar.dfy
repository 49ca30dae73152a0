/**
  The sidebar's chat labels (frontend/src/components/Sidebar.jsx): "No chats yet" for an
  empty list, otherwise one label per chat, drawn from the chat's first message whatever
  its role. The sidebar reads `chat.messages.length` without a guard, so every chat it
  shows must carry a message list.
*/
module Sidebar {
  import opened ChatTypes

  const NoChatsText: string := "No chats yet"
  const NewChatLabel: string := "New Chat"
  const Ellipsis: string := "..."
  const LabelLength: nat := 30

  /** What the chat list area shows. */
  datatype SidebarView = NoChats | Labels(labels: seq<string>)

  /** Every chat in the list carries its message list. */
  predicate HasMessageLists(chats: seq<ChatSummary>)
  {
    forall i :: 0 <= i < |chats| ==> chats[i].messages.Some?
  }

  /** The smaller of two integers. */
  function Min(a: int, b: int): int
  {
    if a < b then a else b
  }

  /** The label of one chat: "New Chat" with no messages, otherwise the first 30
      characters of the first message followed by "..." in every case. */
  function SidebarLabel(chat: ChatSummary): (r: string)
    requires chat.messages.Some?
    ensures |r| <= LabelLength + |Ellipsis|
    ensures chat.messages.value == [] ==> r == NewChatLabel
    ensures chat.messages.value != [] ==>
      && |r| >= |Ellipsis| && r[|r| - |Ellipsis|..] == Ellipsis
      && r[..|r| - |Ellipsis|] <= chat.messages.value[0].content
      && |r| - |Ellipsis| == Min(|chat.messages.value[0].content|, LabelLength)
  {
    if |chat.messages.value| > 0 then Prefix(chat.messages.value[0].content, LabelLength) + Ellipsis
    else NewChatLabel
  }

  /** The list area: the placeholder for no chats, else the labels in list order. */
  function SidebarContent(chats: seq<ChatSummary>): (v: SidebarView)
    requires HasMessageLists(chats)
    ensures chats == [] <==> v == NoChats
    ensures v.Labels? ==> |v.labels| == |chats|
    ensures v.Labels? ==> forall i :: 0 <= i < |chats| ==> v.labels[i] == SidebarLabel(chats[i])
  {
    if |chats| == 0 then NoChats
    else Labels(seq(|chats|, i requires 0 <= i < |chats| => SidebarLabel(chats[i])))
  }

  /** A label depends on the first message's content only: not on its role, nor on any
      later message, the title or the id. */
  lemma LabelDependsOnFirstContentOnly(a: ChatSummary, b: ChatSummary)
    requires a.messages.Some? && b.messages.Some?
    requires a.messages.value != [] && b.messages.value != []
    requires a.messages.value[0].content == b.messages.value[0].content
    ensures SidebarLabel(a) == SidebarLabel(b)
  {
  }

  /** Long content is cut: the label is its first 30 characters followed by "...". */
  lemma LongContentIsCut(chat: ChatSummary)
    requires chat.messages.Some? && chat.messages.value != []
    requires |chat.messages.value[0].content| > LabelLength
    ensures SidebarLabel(chat) == chat.messages.value[0].content[..LabelLength] + Ellipsis
  {
  }

  /** Short content is not cut, yet still gets "...": the label is the content plus "...". */
  lemma ShortContentStillGetsEllipsis(chat: ChatSummary)
    requires chat.messages.Some? && chat.messages.value != []
    requires |chat.messages.value[0].content| <= LabelLength
    ensures SidebarLabel(chat) == chat.messages.value[0].content + Ellipsis
  {
  }

  /** A chat whose first message is the AI's is labelled by the AI's text. */
  lemma FirstMessageRoleIgnored()
    ensures SidebarLabel(ChatSummary("c", None, Some([Message(AI, "Hello"), Message(User, "hi")])))
            == "Hello..."
  {
  }
}
