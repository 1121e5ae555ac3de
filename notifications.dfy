/**
 * notify_admins_with_fallback_and_cleanup (src/app/common/notifications.py):
 * every admin is written to in private; only when nobody could be reached is one
 * message posted in the group, and only when that fails too is the group
 * cleaned up. The Bot API's answers are parameters: `attempt(id)` is what the
 * private attempt for admin `id` came to, `groupSendOk` whether the group
 * message went out, `cleanupOk` whether cleanup_inaccessible_group finished.
 */
module Notifications {
  import opened Text

  /** The `get_chat` answer for an admin: its id and username. */
  datatype AdminChat = AdminChat(id: int, username: Option<string>)

  /**
   * One admin's private attempt. Delivery needs `get_chat` to answer first; an
   * undelivered attempt may still have learnt the admin's chat from a second
   * `get_chat`.
   */
  datatype PrivateAttempt = Delivered(info: AdminChat) | NotDelivered(chatAfterFailure: Option<AdminChat>)

  /** A message template with one `{mention}` placeholder. */
  datatype Template = Template(before: string, after: string)

  const DEFAULT_GROUP_TEMPLATE := Template("",
    ", я не могу отправить ни одному администратору личное сообщение. Пожалуйста, напишите мне в личку, чтобы получать важные уведомления о группе!")

  /** `template.format(mention=mention)` */
  function Format(t: Template, mention: string): string {
    t.before + mention + t.after
  }

  const ADMIN_WORD := "админ"

  /** The mention of the last admin whose chat is known: @username, a tg:// link, or the plain word. */
  function Mention(last: Option<AdminChat>): string {
    match last
    case None => ADMIN_WORD
    case Some(info) =>
      if Truthy(info.username) then "@" + info.username.value
      else "<a href=\"tg://user?id=" + IntToString(info.id) + "\">" + ADMIN_WORD + "</a>"
  }

  /** The three forms of the mention. */
  lemma MentionForms(last: Option<AdminChat>)
    ensures last.None? ==> Mention(last) == ADMIN_WORD
    ensures last.Some? && Truthy(last.value.username) ==> Mention(last) == "@" + last.value.username.value
    ensures last.Some? && !Truthy(last.value.username) ==>
      StartsWith(Mention(last), "<a href=\"tg://user?id=") && Mention(last)[|Mention(last)| - 4..] == "</a>"
  {
  }

  /** The ids written to in private, in order. */
  function DeliveredIds(ids: seq<int>, attempt: int -> PrivateAttempt): seq<int> {
    if ids == [] then []
    else
      var last := ids[|ids| - 1];
      DeliveredIds(ids[..|ids| - 1], attempt) + (if attempt(last).Delivered? then [last] else [])
  }

  /** The ids that could not be written to, in order. */
  function UnreachableIds(ids: seq<int>, attempt: int -> PrivateAttempt): seq<int> {
    if ids == [] then []
    else
      var last := ids[|ids| - 1];
      UnreachableIds(ids[..|ids| - 1], attempt) + (if attempt(last).Delivered? then [] else [last])
  }

  /** The chat info left in `last_admin_info` after the loop: that of the last admin whose chat answered. */
  function LastKnown(ids: seq<int>, attempt: int -> PrivateAttempt): Option<AdminChat> {
    if ids == [] then None
    else
      match attempt(ids[|ids| - 1])
      case Delivered(info) => Some(info)
      case NotDelivered(info) => if info.Some? then info else LastKnown(ids[..|ids| - 1], attempt)
  }

  /** Appending an admin puts it at the end of the list its attempt belongs to. */
  lemma DeliverySnoc(init: seq<int>, last: int, attempt: int -> PrivateAttempt)
    ensures attempt(last).Delivered? ==>
      && DeliveredIds(init + [last], attempt) == DeliveredIds(init, attempt) + [last]
      && UnreachableIds(init + [last], attempt) == UnreachableIds(init, attempt)
    ensures !attempt(last).Delivered? ==>
      && DeliveredIds(init + [last], attempt) == DeliveredIds(init, attempt)
      && UnreachableIds(init + [last], attempt) == UnreachableIds(init, attempt) + [last]
  {
    assert (init + [last])[..|init|] == init;
  }

  /** Each admin lands in exactly one of the two lists, as often as it is listed. */
  lemma {:induction false} EachAdminOnce(ids: seq<int>, attempt: int -> PrivateAttempt)
    ensures multiset(DeliveredIds(ids, attempt)) + multiset(UnreachableIds(ids, attempt)) == multiset(ids)
  {
    if ids != [] {
      var init, last := ids[..|ids| - 1], ids[|ids| - 1];
      assert ids == init + [last];
      EachAdminOnce(init, attempt);
      DeliverySnoc(init, last, attempt);
      assert multiset(ids) == multiset(init) + multiset{last};
    }
  }

  /** The admins written to are exactly the listed ones whose attempt was delivered; the rest are unreachable. */
  lemma {:induction false} SplitByDelivery(ids: seq<int>, attempt: int -> PrivateAttempt)
    ensures forall a :: a in DeliveredIds(ids, attempt) <==> a in ids && attempt(a).Delivered?
    ensures forall a :: a in UnreachableIds(ids, attempt) <==> a in ids && !attempt(a).Delivered?
  {
    if ids != [] {
      var init := ids[..|ids| - 1];
      SplitByDelivery(init, attempt);
      assert ids == init + [ids[|ids| - 1]];
    }
  }

  /**
   * What the call reports, plus the messages it sent: the private ones as
   * (admin id, text) pairs in order, and the group message it tried to post, if any.
   */
  datatype NotifyResult = NotifyResult(
    notifiedPrivate: seq<int>, unreachable: seq<int>, groupNotified: bool, groupCleanedUp: bool,
    privateSends: seq<(int, string)>, groupMessage: Option<string>)

  method NotifyAdminsWithFallbackAndCleanup(adminIds: seq<int>, privateMessage: string, groupTemplate: Template,
                                            cleanupIfGroupFails: bool, attempt: int -> PrivateAttempt,
                                            groupSendOk: bool, cleanupOk: bool)
    returns (r: NotifyResult)
    ensures r.notifiedPrivate == DeliveredIds(adminIds, attempt)
    ensures |r.privateSends| == |r.notifiedPrivate|
    ensures forall k :: 0 <= k < |r.privateSends| ==> r.privateSends[k] == (r.notifiedPrivate[k], privateMessage)
    ensures r.unreachable == UnreachableIds(adminIds, attempt)
    ensures r.notifiedPrivate != [] ==> r.groupMessage.None? && !r.groupNotified && !r.groupCleanedUp
    ensures r.notifiedPrivate == [] ==> r.groupMessage == Some(Format(groupTemplate, Mention(LastKnown(adminIds, attempt))))
    ensures r.groupNotified <==> r.notifiedPrivate == [] && groupSendOk
    ensures r.groupCleanedUp <==> r.notifiedPrivate == [] && !groupSendOk && cleanupIfGroupFails && cleanupOk
  {
    var notified: seq<int> := [];
    var unreachable: seq<int> := [];
    var sends: seq<(int, string)> := [];
    var lastAdminInfo: Option<AdminChat> := None;
    var i := 0;
    while i < |adminIds|
      invariant 0 <= i <= |adminIds|
      invariant notified == DeliveredIds(adminIds[..i], attempt)
      invariant |sends| == |notified|
      invariant forall k :: 0 <= k < |sends| ==> sends[k] == (notified[k], privateMessage)
      invariant unreachable == UnreachableIds(adminIds[..i], attempt)
      invariant lastAdminInfo == LastKnown(adminIds[..i], attempt)
    {
      var id := adminIds[i];
      assert adminIds[..i + 1][..i] == adminIds[..i];
      match attempt(id) {
        case Delivered(info) =>
          notified := notified + [id];
          sends := sends + [(id, privateMessage)];
          lastAdminInfo := Some(info);
        case NotDelivered(info) =>
          unreachable := unreachable + [id];
          if info.Some? {
            lastAdminInfo := info;
          }
      }
      i := i + 1;
    }
    assert adminIds[..i] == adminIds;
    r := NotifyResult(notified, unreachable, false, false, sends, None);
    if notified != [] {
      return;
    }
    var groupMessage := Format(groupTemplate, Mention(lastAdminInfo));
    r := r.(groupMessage := Some(groupMessage));
    if groupSendOk {
      r := r.(groupNotified := true);
      return;
    }
    if cleanupIfGroupFails && cleanupOk {
      r := r.(groupCleanedUp := true);
    }
  }
}
