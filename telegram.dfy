/**
 * The parts of an aiogram `Message` the moderation handlers read. An attribute
 * the handlers test for truthiness is an `Option`; a chat's `type` string is a
 * `ChatType`.
 */
module Telegram {
  import opened Text

  datatype ChatType = PrivateChat | GroupChat | SupergroupChat | ChannelChat

  /** `linkedChatId` is the `linked_chat_id` attribute, when the update carries one. */
  datatype Chat = Chat(id: int, chatType: ChatType, title: Option<string>, username: Option<string>,
                       linkedChatId: Option<int>)

  datatype User = User(id: int, fullName: string, username: Option<string>, isBot: bool)

  /** The chat a forwarded story was posted in, when the update names it. */
  datatype StoryChat = StoryChat(title: Option<string>, username: Option<string>)

  datatype Story = Story(chat: Option<StoryChat>)

  /** The message replied to: only its text and caption are read. */
  datatype Reply = Reply(text: Option<string>, caption: Option<string>)

  datatype Message = Message(
    messageId: int, chat: Chat, fromUser: Option<User>, senderChat: Option<Chat>,
    text: Option<string>, caption: Option<string>, replyTo: Option<Reply>,
    forwardFrom: Option<User>, forwardFromChat: Option<Chat>, story: Option<Story>)

  /** ` (@name)` for a truthy username, nothing otherwise. */
  function AtSuffix(username: Option<string>): string {
    if Truthy(username) then " (@" + username.value + ")" else ""
  }

  const MEDIA_PLACEHOLDER := "[MEDIA_MESSAGE]"

  /** `text or caption or "[MEDIA_MESSAGE]"` */
  function ContentText(text: Option<string>, caption: Option<string>): (r: string)
    ensures Truthy(text) ==> r == text.value
    ensures !Truthy(text) && Truthy(caption) ==> r == caption.value
    ensures !Truthy(text) && !Truthy(caption) ==> r == MEDIA_PLACEHOLDER
  {
    var o := Or(text, caption);
    if Truthy(o) then o.value else MEDIA_PLACEHOLDER
  }
}
