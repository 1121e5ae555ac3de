/**
 * Who a group message is attributed to, and the checks that end its processing
 * early (src/app/handlers/message/validation.py). The group row comes from the
 * `groups` map of the database; the Bot API's `linked_chat_id` answer is a
 * parameter, with a failed call reading as None as in fetch_linked_chat_id.
 */
module Validation {
  import opened Text
  import opened Database
  import opened Telegram

  /**
   * determine_effective_user_id: a channel or other chat posting in the group is
   * moderated under its own id; an admin posting as the group itself, and any
   * ordinary message, under the sending user's id.
   */
  function DetermineEffectiveUserId(m: Message): Option<int> {
    if m.senderChat.Some? && m.senderChat.value.id != m.chat.id then Some(m.senderChat.value.id)
    else if m.fromUser.Some? then Some(m.fromUser.value.id)
    else None
  }

  predicate IsAdminPostingAsGroup(m: Message) {
    m.senderChat.Some? && m.senderChat.value.id == m.chat.id
  }

  predicate IsChannelBotInDiscussion(m: Message, linkedChatId: Option<int>) {
    linkedChatId.Some? && m.senderChat.Some? && m.senderChat.value.id == linkedChatId.value
  }

  predicate ShouldAttemptApiFetch(m: Message, linkedChatId: Option<int>) {
    && linkedChatId.None?
    && m.chat.chatType == SupergroupChat
    && m.senderChat.Some? && m.senderChat.value.chatType == ChannelChat
  }

  /** The three ways the effective user is found, and when there is none. */
  lemma EffectiveUserCases(m: Message)
    ensures m.senderChat.Some? && !IsAdminPostingAsGroup(m) ==> DetermineEffectiveUserId(m) == Some(m.senderChat.value.id)
    ensures (m.senderChat.None? || IsAdminPostingAsGroup(m)) && m.fromUser.Some? ==>
      DetermineEffectiveUserId(m) == Some(m.fromUser.value.id)
    ensures DetermineEffectiveUserId(m).None? <==> (m.senderChat.None? || IsAdminPostingAsGroup(m)) && m.fromUser.None?
  {
  }

  /** check_skip_channel_bot_message's answer, and whether it asked the Bot API for the linked chat. */
  datatype SkipCheck = SkipCheck(skip: bool, reason: string, apiFetched: bool)

  const GROUP_ADMIN_SKIPPED := "message_from_group_admin_skipped"
  const CHANNEL_BOT_SKIPPED := "message_from_channel_bot_skipped"

  /** check_skip_channel_bot_message; `fetched` is what fetch_linked_chat_id would return for the chat. */
  function CheckSkipChannelBotMessage(m: Message, fetched: Option<int>): SkipCheck {
    if m.senderChat.None? then SkipCheck(false, "", false)
    else if IsAdminPostingAsGroup(m) then SkipCheck(true, GROUP_ADMIN_SKIPPED, false)
    else if IsChannelBotInDiscussion(m, m.chat.linkedChatId) then SkipCheck(true, CHANNEL_BOT_SKIPPED, false)
    else if ShouldAttemptApiFetch(m, m.chat.linkedChatId) then
      if IsChannelBotInDiscussion(m, fetched) then SkipCheck(true, CHANNEL_BOT_SKIPPED, true)
      else SkipCheck(false, "", true)
    else SkipCheck(false, "", false)
  }

  /**
   * A message without a sender chat is never skipped; an anonymous admin is
   * recognised before any channel check; the Bot API is asked only for a
   * channel posting in a supergroup whose linked chat is not known; and a
   * message is skipped exactly when it carries a reason.
   */
  lemma SkipRules(m: Message, fetched: Option<int>)
    ensures m.senderChat.None? ==> CheckSkipChannelBotMessage(m, fetched) == SkipCheck(false, "", false)
    ensures IsAdminPostingAsGroup(m) ==> CheckSkipChannelBotMessage(m, fetched) == SkipCheck(true, GROUP_ADMIN_SKIPPED, false)
    ensures CheckSkipChannelBotMessage(m, fetched).apiFetched ==>
      ShouldAttemptApiFetch(m, m.chat.linkedChatId) && !IsAdminPostingAsGroup(m)
    ensures CheckSkipChannelBotMessage(m, fetched).skip <==> CheckSkipChannelBotMessage(m, fetched).reason != ""
    ensures CheckSkipChannelBotMessage(m, fetched).skip <==>
      || IsAdminPostingAsGroup(m)
      || IsChannelBotInDiscussion(m, m.chat.linkedChatId)
      || (ShouldAttemptApiFetch(m, m.chat.linkedChatId) && IsChannelBotInDiscussion(m, fetched))
  {
  }

  /** A group row (or none) and the reason processing stops, "" when it goes on. */
  datatype GroupCheck = GroupCheck(group: Option<Group>, reason: string)

  const GROUP_NOT_FOUND := "error_message_group_not_found"
  const MODERATION_DISABLED := "message_moderation_disabled"
  const ADMIN_SKIPPED := "message_from_admin_skipped"
  const KNOWN_MEMBER_SKIPPED := "message_known_member_skipped"

  /** get_and_check_group */
  function GetAndCheckGroup(groups: map<int, Group>, chatId: int): GroupCheck {
    if chatId !in groups then GroupCheck(None, GROUP_NOT_FOUND)
    else if !groups[chatId].moderationEnabled then GroupCheck(None, MODERATION_DISABLED)
    else GroupCheck(Some(groups[chatId]), "")
  }

  /** validate_group_and_check_early_exits; approved members are the group's `members`. */
  function ValidateGroupAndCheckEarlyExits(groups: map<int, Group>, chatId: int, userId: int): GroupCheck {
    var checked := GetAndCheckGroup(groups, chatId);
    if checked.reason != "" then checked
    else if userId in checked.group.value.admins then GroupCheck(checked.group, ADMIN_SKIPPED)
    else if userId in checked.group.value.members then GroupCheck(checked.group, KNOWN_MEMBER_SKIPPED)
    else checked
  }

  /**
   * The early exits in order: unknown group, moderation off, sender is an admin
   * (even when also an approved member), sender is an approved member. Processing
   * goes on exactly when none applies, with the group's row.
   */
  lemma EarlyExitRules(groups: map<int, Group>, chatId: int, userId: int)
    ensures chatId !in groups ==> ValidateGroupAndCheckEarlyExits(groups, chatId, userId) == GroupCheck(None, GROUP_NOT_FOUND)
    ensures chatId in groups && !groups[chatId].moderationEnabled ==>
      ValidateGroupAndCheckEarlyExits(groups, chatId, userId) == GroupCheck(None, MODERATION_DISABLED)
    ensures chatId in groups && groups[chatId].moderationEnabled && userId in groups[chatId].admins ==>
      ValidateGroupAndCheckEarlyExits(groups, chatId, userId).reason == ADMIN_SKIPPED
    ensures (chatId in groups && groups[chatId].moderationEnabled && userId !in groups[chatId].admins
             && userId in groups[chatId].members) ==>
      ValidateGroupAndCheckEarlyExits(groups, chatId, userId).reason == KNOWN_MEMBER_SKIPPED
    ensures ValidateGroupAndCheckEarlyExits(groups, chatId, userId).reason == "" <==>
      chatId in groups && groups[chatId].moderationEnabled
      && userId !in groups[chatId].admins && userId !in groups[chatId].members
    ensures ValidateGroupAndCheckEarlyExits(groups, chatId, userId).reason == "" ==>
      ValidateGroupAndCheckEarlyExits(groups, chatId, userId).group == Some(groups[chatId])
  {
  }
}
