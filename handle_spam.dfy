/**
 * What happens to a message judged to be spam (src/app/handlers/handle_spam.py):
 * the group's admins are told, and when every one of them has asked for
 * automatic deletion the message is deleted and its sender banned. The Bot API's
 * answers (private deliveries, the group fallback message, the cleanup, the
 * delete and the ban) are parameters.
 */
module HandleSpam {
  import opened Text
  import opened Database
  import opened Telegram
  import GroupOperations
  import Notifications

  /** The delete preference of a group: it exists and each of its admins has a row with `delete_spam` on. */
  ghost predicate AllAdminsDelete(admins: map<int, Admin>, groups: map<int, Group>, chatId: int) {
    chatId in groups && forall a :: a in groups[chatId].admins ==> a in admins && admins[a].deleteSpam
  }

  /** check_admin_delete_preferences: stops at the first admin without a row or with deletion off. */
  method CheckAdminDeletePreferences(db: Db, chatId: int) returns (r: bool)
    ensures r <==> AllAdminsDelete(db.admins, db.groups, chatId)
  {
    if chatId !in db.groups {
      return false;
    }
    var rest := db.groups[chatId].admins;
    while rest != {}
      invariant rest <= db.groups[chatId].admins
      invariant forall a :: a in db.groups[chatId].admins - rest ==> a in db.admins && db.admins[a].deleteSpam
      decreases |rest|
    {
      NonEmptyHasElement(rest);
      var a :| a in rest;
      if a !in db.admins || !db.admins[a].deleteSpam {
        return false;
      }
      rest := rest - {a};
    }
    return true;
  }

  /** An inline keyboard button. */
  datatype Button = Button(text: string, callbackData: string)

  const DELETE_ACTION := "delete_spam_message"
  const NOT_SPAM_ACTION := "mark_as_not_spam"

  /** `f"delete_spam_message:{user_id}:{chat_id}:{message_id}"` */
  function DeleteCallback(userId: int, chatId: int, messageId: int): string {
    Join(":", [DELETE_ACTION, IntToString(userId), IntToString(chatId), IntToString(messageId)])
  }

  /** `f"mark_as_not_spam:{user_id}:{chat_id}"` */
  function NotSpamCallback(userId: int, chatId: int): string {
    Join(":", [NOT_SPAM_ACTION, IntToString(userId), IntToString(chatId)])
  }

  /** create_admin_notification_keyboard: the rows of the inline keyboard. */
  function CreateAdminNotificationKeyboard(m: Message, allAdminsDelete: bool): seq<seq<Button>> {
    if m.fromUser.None? then [[]]
    else if !allAdminsDelete then
      [[Button("🗑️ Удалить", DeleteCallback(m.fromUser.value.id, m.chat.id, m.messageId)),
        Button("✅ Не спам", NotSpamCallback(m.fromUser.value.id, m.chat.id))]]
    else
      [[Button("✅ Это не спам", NotSpamCallback(m.fromUser.value.id, m.chat.id))]]
  }

  /**
   * One row of buttons (empty without a sender); with admins who review spam it
   * offers deletion and "not spam", with automatic deletion only "not spam", and
   * every "not spam" button names the sender and the chat.
   */
  lemma KeyboardShape(m: Message, allAdminsDelete: bool)
    ensures |CreateAdminNotificationKeyboard(m, allAdminsDelete)| == 1
    ensures m.fromUser.None? ==> CreateAdminNotificationKeyboard(m, allAdminsDelete)[0] == []
    ensures m.fromUser.Some? && !allAdminsDelete ==> |CreateAdminNotificationKeyboard(m, allAdminsDelete)[0]| == 2
    ensures m.fromUser.Some? && allAdminsDelete ==> |CreateAdminNotificationKeyboard(m, allAdminsDelete)[0]| == 1
    ensures m.fromUser.Some? ==>
      var row := CreateAdminNotificationKeyboard(m, allAdminsDelete)[0];
      row[|row| - 1].callbackData == NotSpamCallback(m.fromUser.value.id, m.chat.id)
    ensures m.fromUser.Some? && !allAdminsDelete ==>
      CreateAdminNotificationKeyboard(m, allAdminsDelete)[0][0].callbackData
        == DeleteCallback(m.fromUser.value.id, m.chat.id, m.messageId)
  {
  }

  /** Splitting a delete callback on ':' gives back the action and the three ids. */
  lemma DeleteCallbackFields(userId: int, chatId: int, messageId: int)
    ensures var f := SplitOn(DeleteCallback(userId, chatId, messageId), ':');
      && f == [DELETE_ACTION, IntToString(userId), IntToString(chatId), IntToString(messageId)]
      && ParseInt(f[1]) == Some(userId) && ParseInt(f[2]) == Some(chatId) && ParseInt(f[3]) == Some(messageId)
  {
    var fields := [DELETE_ACTION, IntToString(userId), IntToString(chatId), IntToString(messageId)];
    IntToStringChars(userId, ':');
    IntToStringChars(chatId, ':');
    IntToStringChars(messageId, ':');
    SplitOnJoin(fields, ':');
    ParseIntToString(userId);
    ParseIntToString(chatId);
    ParseIntToString(messageId);
  }

  /** Splitting a "not spam" callback on ':' gives back the action and the two ids. */
  lemma NotSpamCallbackFields(userId: int, chatId: int)
    ensures var f := SplitOn(NotSpamCallback(userId, chatId), ':');
      && f == [NOT_SPAM_ACTION, IntToString(userId), IntToString(chatId)]
      && ParseInt(f[1]) == Some(userId) && ParseInt(f[2]) == Some(chatId)
  {
    var fields := [NOT_SPAM_ACTION, IntToString(userId), IntToString(chatId)];
    IntToStringChars(userId, ':');
    IntToStringChars(chatId, ':');
    SplitOnJoin(fields, ':');
    ParseIntToString(userId);
    ParseIntToString(chatId);
  }

  const NO_USER_ERROR := "Ошибка: сообщение без информации о пользователе"
  const ALERT_HEADER := "⚠️ <b>ВТОРЖЕНИЕ!</b>\n\n"
  const DELETED_NOTE := "<b>Вредоносное сообщение уничтожено, пользователь заблокирован.</b>"
  const FOOTER := "\n\n<a href=\"https://t.me/ai_antispam/7\">ℹ️ Подробнее о том, как работает определение спама</a>"

  /** The link to the message, built from the chat's username as printed (so "None" for a chat without one). */
  function MessageLink(m: Message): string {
    "<a href=\"https://t.me/" + PyStr(m.chat.username) + "/" + IntToString(m.messageId) + "\">Ссылка на сообщение</a>"
  }

  /** The alert, the group and the sender, up to the quoted message. */
  function NoticeHeading(m: Message): string
    requires m.fromUser.Some?
  {
    ALERT_HEADER
    + ("<b>Группа:</b> " + PyStr(m.chat.title) + AtSuffix(m.chat.username) + "\n\n"
       + "<b>Нарушитель:</b> " + m.fromUser.value.fullName + AtSuffix(m.fromUser.value.username) + "\n\n"
       + "<b>Содержание угрозы:</b>\n")
  }

  /** The message's text (or caption, or the media placeholder) in <pre> tags. */
  function Quote(m: Message): string {
    "<pre>" + ContentText(m.text, m.caption) + "</pre>\n\n"
  }

  /** What became of the message: deleted with its sender banned, or a link to it. */
  function Outcome(m: Message, allAdminsDelete: bool): string {
    if allAdminsDelete then DELETED_NOTE else MessageLink(m)
  }

  /** format_admin_notification_message */
  function FormatAdminNotificationMessage(m: Message, allAdminsDelete: bool): string {
    if m.fromUser.None? then NO_USER_ERROR
    else NoticeHeading(m) + Quote(m) + Outcome(m, allAdminsDelete) + FOOTER
  }

  /**
   * A notice opens with the alert, quotes the message, and ends with what became
   * of the message followed by the help link; without a sender it is the error text.
   */
  lemma NoticeShape(m: Message, allAdminsDelete: bool)
    ensures m.fromUser.None? ==> FormatAdminNotificationMessage(m, allAdminsDelete) == NO_USER_ERROR
    ensures m.fromUser.Some? ==>
      var r := FormatAdminNotificationMessage(m, allAdminsDelete);
      var tail := Outcome(m, allAdminsDelete) + FOOTER;
      && StartsWith(r, ALERT_HEADER)
      && |tail| <= |r| && r[|r| - |tail|..] == tail
      && exists head :: r == head + Quote(m) + tail
  {
    if m.fromUser.Some? {
      var heading := NoticeHeading(m);
      var rest := heading[|ALERT_HEADER|..];
      assert heading == ALERT_HEADER + rest;
      Framed(ALERT_HEADER, rest, Quote(m), Outcome(m, allAdminsDelete) + FOOTER);
      AppendAssoc(heading + Quote(m), Outcome(m, allAdminsDelete), FOOTER);
    }
  }

  /** The admin ids of `group.admin_ids`, in the order the query returns them (any order). */
  method AdminIdList(ids: set<int>) returns (r: seq<int>)
    ensures forall a :: a in r <==> a in ids
    ensures |r| == |ids|
  {
    r := [];
    var rest := ids;
    while rest != {}
      invariant rest <= ids
      invariant forall a :: a in r <==> a in ids - rest
      invariant |r| + |rest| == |ids|
      decreases |rest|
    {
      NonEmptyHasElement(rest);
      var a :| a in rest;
      r := r + [a];
      rest := rest - {a};
    }
  }

  /**
   * notify_admins: nothing is sent for a message without a sender or an unknown
   * group; otherwise the fallback chain runs over the group's admins, and the
   * notice counts as sent when an admin got it in private or the group did.
   */
  method NotifyAdmins(db: Db, m: Message, allAdminsDelete: bool,
                      attempt: int -> Notifications.PrivateAttempt, groupSendOk: bool, cleanupOk: bool)
    returns (sent: bool, result: Option<Notifications.NotifyResult>)
    ensures m.fromUser.None? || m.chat.id !in db.groups ==> !sent && result.None?
    ensures result.Some? ==> m.fromUser.Some? && m.chat.id in db.groups
    ensures m.fromUser.Some? && m.chat.id in db.groups ==> result.Some?
    ensures sent <==> (m.fromUser.Some? && m.chat.id in db.groups
      && ((exists a :: a in db.groups[m.chat.id].admins && attempt(a).Delivered?) || groupSendOk))
    ensures result.Some? ==> (forall a :: a in result.value.notifiedPrivate <==>
      a in db.groups[m.chat.id].admins && attempt(a).Delivered?)
    ensures result.Some? ==> (forall a :: a in result.value.unreachable <==>
      a in db.groups[m.chat.id].admins && !attempt(a).Delivered?)
    ensures result.Some? ==> (forall s :: s in result.value.privateSends ==>
      s.1 == FormatAdminNotificationMessage(m, allAdminsDelete))
    ensures result.Some? ==> (forall a :: a in db.groups[m.chat.id].admins && attempt(a).Delivered? ==>
      (a, FormatAdminNotificationMessage(m, allAdminsDelete)) in result.value.privateSends)
  {
    if m.fromUser.None? || m.chat.id !in db.groups {
      return false, None;
    }
    var adminIds := AdminIdList(db.groups[m.chat.id].admins);
    var privateMessage := FormatAdminNotificationMessage(m, allAdminsDelete);
    var r := Notifications.NotifyAdminsWithFallbackAndCleanup(
      adminIds, privateMessage, Notifications.DEFAULT_GROUP_TEMPLATE, true, attempt, groupSendOk, cleanupOk);
    Notifications.SplitByDelivery(adminIds, attempt);
    forall a | a in db.groups[m.chat.id].admins && attempt(a).Delivered?
      ensures (a, privateMessage) in r.privateSends
    {
      var k :| 0 <= k < |r.notifiedPrivate| && r.notifiedPrivate[k] == a;
      assert r.privateSends[k] == (a, privateMessage);
    }
    sent := r.notifiedPrivate != [] || r.groupNotified;
    result := Some(r);
    if r.notifiedPrivate != [] {
      var a := r.notifiedPrivate[0];
      assert a in r.notifiedPrivate;
    }
  }

  /**
   * ban_user_for_spam: the ban may fail; the sender leaves the group's approved
   * members either way.
   */
  method BanUserForSpam(db: Db, chatId: int, userId: int, banOk: bool) returns (banned: bool)
    requires db.Valid()
    modifies db
    ensures db.Valid()
    ensures banned == banOk
    ensures db.groups == GroupOperations.WithoutMember(old(db.groups), userId, Some(chatId))
    ensures db.admins == old(db.admins) && db.transactions == old(db.transactions)
    ensures db.referrals == old(db.referrals) && db.spamExamples == old(db.spamExamples)
    ensures db.history == old(db.history)
  {
    banned := banOk;
    GroupOperations.RemoveMemberFromGroup(db, userId, Some(chatId));
  }

  const SPAM_NO_USER_INFO := "spam_no_user_info"
  const SPAM_AUTO_DELETED := "spam_auto_deleted"
  const SPAM_ADMINS_NOTIFIED := "spam_admins_notified"
  const SPAM_NOTIFICATION_FAILED := "spam_notification_failed"

  /**
   * How handle_spam_message_deletion ends: the message is deleted, the Bot API
   * refuses with a TelegramBadRequest (logged and swallowed), or any other
   * exception escapes it and, through handle_spam's re-raise, its callers.
   */
  datatype DeleteAnswer = Deleted | DeleteRefused | DeleteRaised

  /** The Bot API's answers during handle_spam. */
  datatype SpamOracles = SpamOracles(
    attempt: int -> Notifications.PrivateAttempt, groupSendOk: bool, cleanupOk: bool, delete: DeleteAnswer, banOk: bool)

  /** What handle_spam did: whether the notice went out, and whether the message was deleted and the sender banned. */
  datatype SpamActions = SpamActions(notified: bool, deleted: bool, banned: bool)

  /**
   * handle_spam: a message without a sender is left alone; otherwise the admins
   * are notified, and when every admin has auto-deletion on the message is
   * deleted, the sender banned and removed from the approved members. Otherwise
   * the tag says whether the notice reached anybody. `raised` is an exception
   * from the deletion step escaping: no tag, no ban and no removal follow it.
   */
  method HandleSpam(db: Db, m: Message, o: SpamOracles) returns (tag: string, actions: SpamActions, raised: bool)
    requires db.Valid()
    modifies db
    ensures db.Valid()
    ensures m.fromUser.None? ==> tag == SPAM_NO_USER_INFO && unchanged(db) && actions == SpamActions(false, false, false)
    ensures raised <==> m.fromUser.Some? && AllAdminsDelete(old(db.admins), old(db.groups), m.chat.id) && o.delete.DeleteRaised?
    ensures raised ==> tag == "" && !actions.deleted && !actions.banned && unchanged(db)
    ensures m.fromUser.Some? && AllAdminsDelete(old(db.admins), old(db.groups), m.chat.id) && !o.delete.DeleteRaised? ==>
      && tag == SPAM_AUTO_DELETED
      && actions.deleted == o.delete.Deleted? && actions.banned == o.banOk
      && db.groups == GroupOperations.WithoutMember(old(db.groups), m.fromUser.value.id, Some(m.chat.id))
    ensures m.fromUser.Some? && !AllAdminsDelete(old(db.admins), old(db.groups), m.chat.id) ==>
      && tag == (if actions.notified then SPAM_ADMINS_NOTIFIED else SPAM_NOTIFICATION_FAILED)
      && !actions.deleted && !actions.banned
      && unchanged(db)
    ensures m.fromUser.Some? ==> (actions.notified <==> (m.chat.id in old(db.groups)
      && ((exists a :: a in old(db.groups)[m.chat.id].admins && o.attempt(a).Delivered?) || o.groupSendOk)))
    ensures db.admins == old(db.admins) && db.transactions == old(db.transactions)
    ensures db.referrals == old(db.referrals) && db.spamExamples == old(db.spamExamples)
    ensures db.history == old(db.history)
  {
    if m.fromUser.None? {
      return SPAM_NO_USER_INFO, SpamActions(false, false, false), false;
    }
    var allAdminsDelete := CheckAdminDeletePreferences(db, m.chat.id);
    var sent, _ := NotifyAdmins(db, m, allAdminsDelete, o.attempt, o.groupSendOk, o.cleanupOk);
    if allAdminsDelete {
      if o.delete.DeleteRaised? {
        return "", SpamActions(sent, false, false), true;
      }
      var banned := BanUserForSpam(db, m.chat.id, m.fromUser.value.id, o.banOk);
      return SPAM_AUTO_DELETED, SpamActions(sent, o.delete.Deleted?, banned), false;
    }
    tag := if sent then SPAM_ADMINS_NOTIFIED else SPAM_NOTIFICATION_FAILED;
    actions := SpamActions(sent, false, false);
    raised := false;
  }
}
