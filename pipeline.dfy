/**
 * The moderation of one group message (src/app/handlers/message/pipeline.py):
 * attribute it, run the early exits, score it, then either charge for deleting
 * spam and handle it, or charge for approving the sender and remember them.
 * Everything outside the bot's own logic is a parameter: the collected message
 * context, the classifier's answer, the linked chat the Bot API reports, and the
 * answers handle_deactivation and handle_spam get.
 */
module Pipeline {
  import opened Text
  import opened Database
  import opened Telegram
  import opened Types
  import GroupOperations
  import TryDeductCredits
  import Validation
  import HandleSpam

  const NO_USER_INFO := "message_no_user_info"
  const USER_APPROVED := "message_user_approved"
  const INSUFFICIENT_CREDITS := "message_insufficient_credits"
  const SPAM_CHECK_FAILED := "message_spam_check_failed"

  /** Scores above this are spam; a score equal to it is not. */
  const SPAM_THRESHOLD := 50

  predicate IsSpamScore(score: int) {
    score > SPAM_THRESHOLD
  }

  /** The answers try_deduct_credits' deactivation path gets: the clock, the chat's title and administrators. */
  datatype DeductionOracles = DeductionOracles(now: int, title: Option<string>, chatAdmins: seq<TryDeductCredits.ChatMember>)

  /** The tags handle_spam returns. */
  predicate IsSpamTag(tag: string) {
    || tag == HandleSpam.SPAM_NO_USER_INFO
    || tag == HandleSpam.SPAM_AUTO_DELETED
    || tag == HandleSpam.SPAM_ADMINS_NOTIFIED
    || tag == HandleSpam.SPAM_NOTIFICATION_FAILED
  }

  /** The price of the action a score leads to. */
  function PriceFor(score: int): nat {
    if IsSpamScore(score) then DELETE_PRICE else APPROVE_PRICE
  }

  /** The group can pay `amount`, and no admin of it has the id 0 that deduct_credits_from_admins uses for failure. */
  ghost predicate Affordable(admins: map<int, Admin>, groups: map<int, Group>, chatId: int, amount: nat) {
    && TryDeductCredits.CanPay(admins, groups, chatId, amount)
    && 0 !in GroupOperations.GroupAdminIds(admins, groups, chatId)
  }

  /** Nobody of the group holds `amount` credits. */
  ghost predicate Unaffordable(admins: map<int, Admin>, groups: map<int, Group>, chatId: int, amount: nat) {
    forall a :: a in GroupOperations.GroupAdminIds(admins, groups, chatId) ==> admins[a].credits < amount
  }

  /**
   * process_spam_or_approve. Spam (a score above 50) costs DELETE_PRICE and is
   * handed to handle_spam; anything else costs APPROVE_PRICE and makes the sender
   * an approved member. Failing to pay ends in "message_insufficient_credits".
   * `raised` is handle_spam's exception passing through.
   */
  method ProcessSpamOrApprove(db: Db, m: Message, score: int, d: DeductionOracles, s: HandleSpam.SpamOracles)
    returns (tag: string, raised: bool)
    requires db.Valid()
    modifies db
    ensures db.Valid()
    ensures Validation.DetermineEffectiveUserId(m).None? ==> tag == NO_USER_INFO && !raised && unchanged(db)
    ensures raised ==> IsSpamScore(score) && s.delete.DeleteRaised? && tag == ""
    ensures Validation.DetermineEffectiveUserId(m).Some? && !raised ==>
      (IsSpamScore(score) ==> tag == INSUFFICIENT_CREDITS || IsSpamTag(tag))
    ensures Validation.DetermineEffectiveUserId(m).Some? && !IsSpamScore(score) ==>
      tag == USER_APPROVED || tag == INSUFFICIENT_CREDITS
    ensures tag == USER_APPROVED ==>
      && !IsSpamScore(score)
      && m.chat.id in old(db.groups)
      && db.groups == GroupOperations.WithMember(old(db.groups), m.chat.id, Validation.DetermineEffectiveUserId(m).value)
    ensures (Validation.DetermineEffectiveUserId(m).Some?
             && Unaffordable(old(db.admins), old(db.groups), m.chat.id, PriceFor(score))) ==>
      tag == INSUFFICIENT_CREDITS
    ensures (Validation.DetermineEffectiveUserId(m).Some?
             && Affordable(old(db.admins), old(db.groups), m.chat.id, PriceFor(score))) ==>
      tag != INSUFFICIENT_CREDITS
    ensures (Validation.DetermineEffectiveUserId(m).Some? && IsSpamScore(score)
             && Affordable(old(db.admins), old(db.groups), m.chat.id, DELETE_PRICE)) ==> IsSpamTag(tag) || raised
    ensures IsSpamTag(tag) ==> IsSpamScore(score)
    ensures tag == INSUFFICIENT_CREDITS ==> !GroupOperations.IsModerationEnabled(db.groups, m.chat.id)
    ensures db.referrals == old(db.referrals) && db.spamExamples == old(db.spamExamples)
    ensures db.history == old(db.history)
  {
    var chatId := m.chat.id;
    var userId := Validation.DetermineEffectiveUserId(m);
    raised := false;
    if userId.None? {
      return NO_USER_INFO, false;
    }
    if score > SPAM_THRESHOLD {
      var ok, _ := TryDeductCredits.TryDeductCredits(db, chatId, DELETE_PRICE, d.now, d.title, d.chatAdmins);
      if ok {
        var actions;
        tag, actions, raised := HandleSpam.HandleSpam(db, m, s);
        return;
      }
    } else {
      var ok, _ := TryDeductCredits.TryDeductCredits(db, chatId, APPROVE_PRICE, d.now, d.title, d.chatAdmins);
      if ok {
        assert chatId in old(db.groups);
        var added := GroupOperations.AddMember(db, chatId, userId.value);
        return USER_APPROVED, false;
      }
    }
    return INSUFFICIENT_CREDITS, false;
  }

  /** A score of exactly 50 is never spam: with a paying group the sender is approved. */
  lemma FiftyIsApproved()
    ensures !IsSpamScore(50) && IsSpamScore(51) && PriceFor(50) == APPROVE_PRICE
  {
  }

  /** What collect_message_context hands the pipeline. */
  datatype MessageContextResult = MessageContextResult(messageText: string, isStory: bool, context: SpamClassificationContext)

  /** is_spam's outcome: a score with its confidence and reason, no score, or an exception. */
  datatype ClassifierAnswer = Scored(score: int, confidence: int, reason: string) | NoScore | ClassifierRaised

  /** The score the pipeline goes on with: 100 for a story, the classifier's otherwise; None ends the run. */
  function ScoreOf(ctx: MessageContextResult, answer: ClassifierAnswer): (r: Option<int>)
    ensures ctx.isStory ==> r == Some(100)
    ensures !ctx.isStory ==> (r.Some? <==> answer.Scored?)
  {
    if ctx.isStory then Some(100)
    else if answer.Scored? then Some(answer.score)
    else None
  }

  /** The message gets past attribution, the group checks and the channel-bot check. */
  ghost predicate Admitted(groups: map<int, Group>, m: Message, fetched: Option<int>) {
    && Validation.DetermineEffectiveUserId(m).Some?
    && Validation.ValidateGroupAndCheckEarlyExits(groups, m.chat.id, Validation.DetermineEffectiveUserId(m).value).reason == ""
    && !Validation.CheckSkipChannelBotMessage(m, fetched).skip
  }

  /**
   * handle_moderated_message: the exits in order (no sender, the group checks,
   * the channel-bot check, no score) change nothing and return their tag; a
   * scored message goes to process_spam_or_approve, whose exception (`raised`)
   * the pipeline re-raises.
   */
  method HandleModeratedMessage(db: Db, m: Message, fetched: Option<int>, ctx: MessageContextResult,
                                answer: ClassifierAnswer, d: DeductionOracles, s: HandleSpam.SpamOracles)
    returns (tag: string, raised: bool)
    requires db.Valid()
    modifies db
    ensures db.Valid()
    ensures Validation.DetermineEffectiveUserId(m).None? ==> tag == NO_USER_INFO && unchanged(db)
    ensures raised ==>
      && Admitted(old(db.groups), m, fetched) && ScoreOf(ctx, answer).Some?
      && IsSpamScore(ScoreOf(ctx, answer).value) && s.delete.DeleteRaised?
    ensures Validation.DetermineEffectiveUserId(m).Some? ==>
      var early := Validation.ValidateGroupAndCheckEarlyExits(old(db.groups), m.chat.id, Validation.DetermineEffectiveUserId(m).value);
      early.reason != "" ==> tag == early.reason && unchanged(db)
    ensures (Validation.DetermineEffectiveUserId(m).Some?
             && Validation.ValidateGroupAndCheckEarlyExits(old(db.groups), m.chat.id, Validation.DetermineEffectiveUserId(m).value).reason == ""
             && Validation.CheckSkipChannelBotMessage(m, fetched).skip) ==>
      tag == Validation.CheckSkipChannelBotMessage(m, fetched).reason && unchanged(db)
    ensures Admitted(old(db.groups), m, fetched) && ScoreOf(ctx, answer).None? ==> tag == SPAM_CHECK_FAILED && unchanged(db)
    ensures tag == USER_APPROVED ==>
      && Admitted(old(db.groups), m, fetched)
      && !ctx.isStory && answer.Scored? && !IsSpamScore(answer.score)
      && db.groups == GroupOperations.WithMember(old(db.groups), m.chat.id, Validation.DetermineEffectiveUserId(m).value)
    ensures IsSpamTag(tag) ==> Admitted(old(db.groups), m, fetched) && IsSpamScore(ScoreOf(ctx, answer).value)
    ensures (Admitted(old(db.groups), m, fetched) && ScoreOf(ctx, answer).Some?
             && Affordable(old(db.admins), old(db.groups), m.chat.id, PriceFor(ScoreOf(ctx, answer).value))) ==>
      (if IsSpamScore(ScoreOf(ctx, answer).value) then IsSpamTag(tag) || raised else tag == USER_APPROVED)
    ensures db.referrals == old(db.referrals) && db.spamExamples == old(db.spamExamples)
    ensures db.history == old(db.history)
  {
    raised := false;
    var userId := Validation.DetermineEffectiveUserId(m);
    if userId.None? {
      return NO_USER_INFO, false;
    }
    var chatId := m.chat.id;
    var early := Validation.ValidateGroupAndCheckEarlyExits(db.groups, chatId, userId.value);
    if early.reason != "" || early.group.None? {
      return early.reason, false;
    }
    var skip := Validation.CheckSkipChannelBotMessage(m, fetched);
    if skip.skip {
      return skip.reason, false;
    }
    var score: int;
    if ctx.isStory {
      score := 100;
    } else {
      match answer {
        case Scored(sc, _, _) => score := sc;
        case NoScore => return SPAM_CHECK_FAILED, false;
        case ClassifierRaised => return SPAM_CHECK_FAILED, false;
      }
    }
    Validation.EarlyExitRules(db.groups, chatId, userId.value);
    tag, raised := ProcessSpamOrApprove(db, m, score, d, s);
  }
}
