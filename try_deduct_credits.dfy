/**
 * Charging a group for a moderation action, and switching moderation off when no
 * admin can pay (src/app/handlers/try_deduct_credits.py). The Bot API answers
 * handle_deactivation needs (the chat's title and its administrator list) are
 * parameters; the messages it sends are returned as who they go to.
 */
module TryDeductCredits {
  import opened Text
  import opened Database
  import GroupOperations

  /** The aiogram ChatMember variants. */
  datatype MemberStatus = Owner | Administrator | Member | Restricted | Left | Banned

  datatype ChatMember = ChatMember(status: MemberStatus, userId: int, isBot: bool)

  /** A human owner or administrator of the chat. */
  predicate IsHumanAdmin(m: ChatMember) {
    (m.status == Owner || m.status == Administrator) && !m.isBot
  }

  /** A human admin with a row in `administrators`: one find_min_credits_admin weighs. */
  predicate Weighed(m: ChatMember, stored: map<int, Admin>) {
    IsHumanAdmin(m) && m.userId in stored
  }

  function CreditsOf(m: ChatMember, stored: map<int, Admin>): nat
    requires m.userId in stored
  {
    stored[m.userId].credits
  }

  /**
   * find_min_credits_admin: the first weighed member with the strictly smallest
   * balance, and that balance; None for both when no member is weighed (the
   * balance then stays infinite).
   */
  method FindMinCreditsAdmin(admins: seq<ChatMember>, stored: map<int, Admin>)
    returns (best: Option<ChatMember>, minCredits: Option<nat>)
    ensures best.None? <==> forall i :: 0 <= i < |admins| ==> !Weighed(admins[i], stored)
    ensures best.None? <==> minCredits.None?
    ensures best.Some? ==> exists k :: (
      && 0 <= k < |admins| && admins[k] == best.value && Weighed(admins[k], stored)
      && minCredits == Some(CreditsOf(admins[k], stored))
      && (forall j :: 0 <= j < |admins| && Weighed(admins[j], stored) ==> minCredits.value <= CreditsOf(admins[j], stored))
      && (forall j :: 0 <= j < k && Weighed(admins[j], stored) ==> minCredits.value < CreditsOf(admins[j], stored)))
  {
    best, minCredits := None, None;
    ghost var k := 0;
    var i := 0;
    while i < |admins|
      invariant 0 <= i <= |admins|
      invariant best.None? <==> forall j :: 0 <= j < i ==> !Weighed(admins[j], stored)
      invariant best.None? <==> minCredits.None?
      invariant best.Some? ==> 0 <= k < i && admins[k] == best.value && Weighed(admins[k], stored)
      invariant best.Some? ==> minCredits == Some(CreditsOf(admins[k], stored))
      invariant best.Some? ==> forall j :: 0 <= j < i && Weighed(admins[j], stored) ==> minCredits.value <= CreditsOf(admins[j], stored)
      invariant best.Some? ==> forall j :: 0 <= j < k && Weighed(admins[j], stored) ==> minCredits.value < CreditsOf(admins[j], stored)
    {
      var m := admins[i];
      if IsHumanAdmin(m) && m.userId in stored {
        var credits := stored[m.userId].credits;
        if minCredits.None? || credits < minCredits.value {
          best, minCredits := Some(m), Some(credits);
          k := i;
        }
      }
      i := i + 1;
    }
  }

  /** The user ids notify_admins_about_deactivation writes to: every human admin, in order. */
  function DeactivationRecipients(admins: seq<ChatMember>): seq<int> {
    if admins == [] then []
    else
      var last := admins[|admins| - 1];
      DeactivationRecipients(admins[..|admins| - 1]) + (if IsHumanAdmin(last) then [last.userId] else [])
  }

  /** Every human admin is written to, and nobody else. */
  lemma {:induction false} RecipientsAreHumanAdmins(admins: seq<ChatMember>)
    ensures forall u :: u in DeactivationRecipients(admins) <==>
      exists i :: 0 <= i < |admins| && IsHumanAdmin(admins[i]) && admins[i].userId == u
  {
    if admins != [] {
      var init := admins[..|admins| - 1];
      RecipientsAreHumanAdmins(init);
      assert forall i :: 0 <= i < |init| ==> init[i] == admins[i];
    }
  }

  /** notify_admins_about_deactivation: one message per human admin; a failed send does not stop the loop. */
  method NotifyAdminsAboutDeactivation(admins: seq<ChatMember>) returns (recipients: seq<int>)
    ensures recipients == DeactivationRecipients(admins)
  {
    recipients := [];
    var i := 0;
    while i < |admins|
      invariant 0 <= i <= |admins|
      invariant recipients == DeactivationRecipients(admins[..i])
    {
      assert admins[..i + 1][..i] == admins[..i];
      if IsHumanAdmin(admins[i]) {
        recipients := recipients + [admins[i].userId];
      }
      i := i + 1;
    }
    assert admins[..i] == admins;
  }

  /** What handle_deactivation did besides switching moderation off. */
  datatype Deactivation = Deactivation(
    /** The admin named in the group message; None when no group message was sent. */
    promoted: Option<ChatMember>,
    /** The private notices sent. */
    recipients: seq<int>)

  /**
   * handle_deactivation: moderation off; then, for a chat with a title, a group
   * message naming the poorest admin and a notice to every human admin, both
   * only when such an admin is found.
   */
  method HandleDeactivation(db: Db, chatId: int, title: Option<string>, chatAdmins: seq<ChatMember>)
    returns (d: Deactivation)
    requires db.Valid()
    modifies db
    ensures db.Valid()
    ensures db.groups == GroupOperations.WithModeration(old(db.groups), chatId, false)
    ensures title.None? || title.value == "" ==> d == Deactivation(None, [])
    ensures d.promoted.None? ==> d.recipients == []
    ensures d.promoted.Some? ==> d.recipients == DeactivationRecipients(chatAdmins)
    ensures d.promoted.Some? ==> exists k :: (
      && 0 <= k < |chatAdmins| && chatAdmins[k] == d.promoted.value && Weighed(chatAdmins[k], db.admins)
      && forall j :: 0 <= j < |chatAdmins| && Weighed(chatAdmins[j], db.admins) ==>
        CreditsOf(chatAdmins[k], db.admins) <= CreditsOf(chatAdmins[j], db.admins))
    ensures title.Some? && title.value != "" ==>
      (d.promoted.None? <==> forall i :: 0 <= i < |chatAdmins| ==> !Weighed(chatAdmins[i], db.admins))
    ensures db.admins == old(db.admins) && db.transactions == old(db.transactions)
    ensures db.referrals == old(db.referrals) && db.spamExamples == old(db.spamExamples)
    ensures db.history == old(db.history)
  {
    GroupOperations.SetGroupModeration(db, chatId, false);
    if title.None? || title.value == "" {
      return Deactivation(None, []);
    }
    var promoted, minCredits := FindMinCreditsAdmin(chatAdmins, db.admins);
    if promoted.None? {
      return Deactivation(None, []);
    }
    var recipients := NotifyAdminsAboutDeactivation(chatAdmins);
    d := Deactivation(promoted, recipients);
  }

  /** Some admin of the group holds at least `amount` credits. */
  ghost predicate CanPay(admins: map<int, Admin>, groups: map<int, Group>, chatId: int, amount: nat) {
    exists a :: a in GroupOperations.GroupAdminIds(admins, groups, chatId) && admins[a].credits >= amount
  }

  /**
   * try_deduct_credits: a zero amount succeeds without touching anything;
   * otherwise the richest admin of the group pays, and when nobody can the group
   * is deactivated and the result is false.
   */
  method TryDeductCredits(db: Db, chatId: int, amount: nat, now: int, title: Option<string>,
                          chatAdmins: seq<ChatMember>) returns (ok: bool, d: Deactivation)
    requires db.Valid()
    modifies db
    ensures db.Valid()
    ensures amount == 0 ==> ok && unchanged(db) && d == Deactivation(None, [])
    ensures var ids := GroupOperations.GroupAdminIds(old(db.admins), old(db.groups), chatId);
      amount > 0 && (forall a :: a in ids ==> old(db.admins)[a].credits < amount) ==>
        && !ok
        && db.groups == GroupOperations.WithModeration(old(db.groups), chatId, false)
        && db.admins == old(db.admins) && db.transactions == old(db.transactions)
    ensures ok && amount > 0 ==> exists a :: (
      && a in GroupOperations.GroupAdminIds(old(db.admins), old(db.groups), chatId)
      && old(db.admins)[a].credits >= amount
      && db.admins == old(db.admins)[a := old(db.admins)[a].(credits := old(db.admins)[a].credits - amount)]
      && db.transactions == old(db.transactions) + [Transaction(a, -(amount as int), DeductTx, now)])
    ensures (amount > 0 && CanPay(old(db.admins), old(db.groups), chatId, amount)
             && 0 !in GroupOperations.GroupAdminIds(old(db.admins), old(db.groups), chatId)) ==> ok
    ensures ok ==> d == Deactivation(None, []) && db.groups == old(db.groups)
    ensures !ok ==> !GroupOperations.IsModerationEnabled(db.groups, chatId)
    ensures db.referrals == old(db.referrals) && db.spamExamples == old(db.spamExamples)
    ensures db.history == old(db.history)
  {
    d := Deactivation(None, []);
    if amount == 0 {
      return true, d;
    }
    var adminId := GroupOperations.DeductCreditsFromAdmins(db, chatId, amount, now);
    if adminId == 0 {
      d := HandleDeactivation(db, chatId, title, chatAdmins);
      GroupOperations.ModerationReadBack(old(db.groups), chatId, false);
      return false, d;
    }
    ok := true;
  }
}
