/**
 * What is gathered about a group message before it is classified
 * (src/app/spam/message_context.py): the text of the message replied to, the
 * forward, story and channel origin appended to the message text, and the
 * classification context built from what the lookups found about the sender.
 * The lookups themselves (route_sender_context_collection, the `get_chat` bio
 * request, the classifier) are parameters.
 */
module MessageContext {
  import opened Text
  import opened Telegram
  import opened Types

  /** extract_reply_context: the replied-to message's text, caption or media placeholder. */
  function ExtractReplyContext(m: Message): Option<string> {
    if m.replyTo.None? then None
    else Some(ContentText(m.replyTo.value.text, m.replyTo.value.caption))
  }

  /** A message that is not a reply has no reply context; a reply falls back from text to caption to the placeholder. */
  lemma ReplyContextCases(m: Message)
    ensures m.replyTo.None? <==> ExtractReplyContext(m).None?
    ensures m.replyTo.Some? && Truthy(m.replyTo.value.text) ==> ExtractReplyContext(m) == m.replyTo.value.text
    ensures m.replyTo.Some? && !Truthy(m.replyTo.value.text) && Truthy(m.replyTo.value.caption) ==>
      ExtractReplyContext(m) == m.replyTo.value.caption
    ensures m.replyTo.Some? && !Truthy(m.replyTo.value.text) && !Truthy(m.replyTo.value.caption) ==>
      ExtractReplyContext(m) == Some(MEDIA_PLACEHOLDER)
  {
  }

  // ---------------------------------------------------------------------------
  // build_forward_info

  /** A post of a channel (as opposed to a user, a group or an anonymous admin). */
  predicate PostedByChannel(m: Message) {
    m.senderChat.Some? && m.senderChat.value.chatType == ChannelChat
  }

  /** The origin line of a forwarded story; a story without a chat reads "Unknown (@)". */
  function StoryOrigin(s: Story): string {
    var title := if s.chat.None? then "Unknown" else PyStr(s.chat.value.title);
    var username := if s.chat.None? then "" else PyStr(s.chat.value.username);
    "Forwarded story from: " + title + " (@" + username + ")"
  }

  function UserItem(m: Message): seq<string> {
    if m.forwardFrom.Some? then ["Forwarded from user: " + m.forwardFrom.value.fullName] else []
  }

  function ChatItem(m: Message): seq<string> {
    if m.forwardFromChat.Some? then ["Forwarded from chat: " + PyStr(m.forwardFromChat.value.title)] else []
  }

  function StoryItem(m: Message): seq<string> {
    if m.story.Some? then [StoryOrigin(m.story.value)] else []
  }

  function ChannelItem(m: Message): seq<string> {
    if PostedByChannel(m) then
      ["Posted by channel: " + PyStr(m.senderChat.value.title) + AtSuffix(m.senderChat.value.username)]
    else []
  }

  /** The forward information of a message: user, chat, story and channel origin, each when present, in that order. */
  function ForwardItems(m: Message): seq<string> {
    UserItem(m) + ChatItem(m) + StoryItem(m) + ChannelItem(m)
  }

  const FORWARD_MARKER := "\n[FORWARD_INFO]: "

  /** The message text with the forward information appended, when there is any. */
  function WithForwardInfo(text: string, info: seq<string>): string {
    if info == [] then text else text + FORWARD_MARKER + Join(" | ", info)
  }

  datatype ForwardInfo = ForwardInfo(text: string, info: seq<string>, isStory: bool)

  /** build_forward_info */
  method BuildForwardInfo(m: Message) returns (r: ForwardInfo)
    ensures r.info == ForwardItems(m)
    ensures r.text == WithForwardInfo(ContentText(m.text, m.caption), r.info)
    ensures r.isStory <==> m.story.Some?
  {
    var text := ContentText(m.text, m.caption);
    var info: seq<string> := [];
    var isStory := false;
    if m.forwardFrom.Some? {
      info := info + ["Forwarded from user: " + m.forwardFrom.value.fullName];
    }
    assert info == UserItem(m);
    if m.forwardFromChat.Some? {
      info := info + ["Forwarded from chat: " + PyStr(m.forwardFromChat.value.title)];
    }
    assert info == UserItem(m) + ChatItem(m);
    if m.story.Some? {
      info := info + [StoryOrigin(m.story.value)];
      isStory := true;
    }
    assert info == UserItem(m) + ChatItem(m) + StoryItem(m);
    if m.senderChat.Some? && m.senderChat.value.chatType == ChannelChat {
      var channelUsername := if Truthy(m.senderChat.value.username) then " (@" + m.senderChat.value.username.value + ")" else "";
      assert channelUsername == AtSuffix(m.senderChat.value.username);
      info := info + ["Posted by channel: " + PyStr(m.senderChat.value.title) + channelUsername];
    }
    assert info == ForwardItems(m);
    if info != [] {
      text := text + FORWARD_MARKER + Join(" | ", info);
    }
    r := ForwardInfo(text, info, isStory);
  }

  /**
   * There is forward information exactly when the message was forwarded from a
   * user or a chat, carries a story, or was posted by a channel; a forwarded
   * user comes first, and a story is always named.
   */
  lemma ForwardItemsCases(m: Message)
    ensures ForwardItems(m) == [] <==>
      m.forwardFrom.None? && m.forwardFromChat.None? && m.story.None? && !PostedByChannel(m)
    ensures |ForwardItems(m)| <= 4
    ensures m.forwardFrom.Some? ==> ForwardItems(m)[0] == "Forwarded from user: " + m.forwardFrom.value.fullName
    ensures m.story.Some? ==> StoryOrigin(m.story.value) in ForwardItems(m)
  {
    if m.story.Some? {
      assert ForwardItems(m) == (UserItem(m) + ChatItem(m)) + [StoryOrigin(m.story.value)] + ChannelItem(m);
    }
  }

  /**
   * The message text is kept as it is when there is no forward information, and
   * otherwise is followed by the marker and the items joined by " | ".
   */
  lemma ForwardTextKeepsMessage(text: string, info: seq<string>)
    ensures info == [] ==> WithForwardInfo(text, info) == text
    ensures StartsWith(WithForwardInfo(text, info), text)
    ensures info != [] ==> StartsWith(WithForwardInfo(text, info), text + FORWARD_MARKER + info[0])
  {
    if info != [] {
      var joined := Join(" | ", info);
      JoinStartsWithFirst(" | ", info);
      var r := WithForwardInfo(text, info);
      assert joined == info[0] + joined[|info[0]|..];
      assert r == text + FORWARD_MARKER + info[0] + joined[|info[0]|..];
      assert r[..|text + FORWARD_MARKER + info[0]|] == text + FORWARD_MARKER + info[0];
      assert r[..|text|] == text;
    }
  }

  // ---------------------------------------------------------------------------
  // Sender information and the classification context

  /** What route_sender_context_collection returned: a user's lookups, or a channel's finished context. */
  datatype SenderContext = UserSender(user: UserContext) | ChannelSender(channel: SpamClassificationContext)

  datatype SenderInfo = SenderInfo(name: string, bio: Option<string>)

  /**
   * get_sender_info. `bioOf(id)` is get_user_bio: the `bio` of `get_chat(id)`,
   * None when the call fails.
   */
  function GetSenderInfo(m: Message, sc: SenderContext, bioOf: int -> Option<string>): (r: SenderInfo)
    ensures sc.UserSender? && m.fromUser.None? ==> r == SenderInfo("Unknown", None)
    ensures sc.UserSender? && m.fromUser.Some? ==>
      r == SenderInfo(m.fromUser.value.fullName, bioOf(m.fromUser.value.id))
    ensures sc.ChannelSender? ==> r.bio == sc.channel.bio && r.name != ""
    ensures sc.ChannelSender? ==> r.name == (if Truthy(sc.channel.name) then sc.channel.name.value else "Channel")
  {
    match sc
    case UserSender(_) =>
      if m.fromUser.Some? then SenderInfo(m.fromUser.value.fullName, bioOf(m.fromUser.value.id))
      else SenderInfo("Unknown", None)
    case ChannelSender(c) =>
      SenderInfo(if Truthy(c.name) then c.name.value else "Channel", c.bio)
  }

  /**
   * create_classification_context: a user's lookups become the context's
   * sections; a channel's context is kept and only its reply is set.
   */
  function CreateClassificationContext(sc: SenderContext, name: string, bio: Option<string>,
                                       replyContext: Option<string>): SpamClassificationContext {
    match sc
    case UserSender(u) =>
      SpamClassificationContext(Some(name), bio, Some(u.linkedChannel), Some(u.stories), replyContext, Some(u.accountInfo))
    case ChannelSender(c) => c.(reply := replyContext)
  }

  /**
   * A user sender's context carries the name, the bio and the three lookups
   * as they came back, so that its guidance follows their statuses; a channel's
   * context changes only in its reply. Either way reply guidance is given
   * exactly for a reply.
   */
  lemma ClassificationContextFromSender(sc: SenderContext, name: string, bio: Option<string>, replyContext: Option<string>)
    ensures var c := CreateClassificationContext(sc, name, bio, replyContext);
      && c.reply == replyContext
      && (IncludeReplyGuidance(c) <==> replyContext.Some?)
    ensures sc.UserSender? ==>
      var c := CreateClassificationContext(sc, name, bio, replyContext);
      && c.name == Some(name) && c.bio == bio
      && c.linkedChannel == Some(sc.user.linkedChannel) && c.stories == Some(sc.user.stories)
      && c.accountAge == Some(sc.user.accountInfo)
      && (IncludeStoriesGuidance(c) <==> sc.user.stories.status in {Found, Empty})
      && (IncludeLinkedChannelGuidance(c) <==> sc.user.linkedChannel.status in {Found, Empty})
      && (IncludeAccountAgeGuidance(c) <==> sc.user.accountInfo.status in {Found, Empty})
    ensures sc.ChannelSender? ==>
      var c := CreateClassificationContext(sc, name, bio, replyContext);
      && c.name == sc.channel.name && c.bio == sc.channel.bio
      && c.linkedChannel == sc.channel.linkedChannel && c.stories == sc.channel.stories
      && c.accountAge == sc.channel.accountAge
  {
  }

  // ---------------------------------------------------------------------------
  // get_spam_score_and_bio and analyze_message_content

  /** The classifier's answer: a score (None when it could not tell) and its reason. */
  datatype Classification = Classification(score: Option<int>, reason: string)

  datatype ScoreAndBio = ScoreAndBio(score: Option<int>, bio: Option<string>, reason: string)

  const STORY_SCORE := 100
  const STORY_REASON := "Story forward"

  /**
   * get_spam_score_and_bio: a story forward scores 100 without asking anybody;
   * otherwise the sender's name, bio and context go to the classifier with the
   * message text. `classify(text, context)` is is_spam's answer.
   */
  function GetSpamScoreAndBio(m: Message, messageText: string, isStory: bool, sc: SenderContext,
                              bioOf: int -> Option<string>,
                              classify: (string, SpamClassificationContext) -> Classification): (r: ScoreAndBio)
    ensures isStory ==> r == ScoreAndBio(Some(STORY_SCORE), None, STORY_REASON)
    ensures !isStory ==> r.bio == GetSenderInfo(m, sc, bioOf).bio
    ensures !isStory ==>
      var sender := GetSenderInfo(m, sc, bioOf);
      var answer := classify(messageText, CreateClassificationContext(sc, sender.name, sender.bio, ExtractReplyContext(m)));
      r.score == answer.score && r.reason == answer.reason
  {
    if isStory then ScoreAndBio(Some(STORY_SCORE), None, STORY_REASON)
    else
      var reply := ExtractReplyContext(m);
      var sender := GetSenderInfo(m, sc, bioOf);
      var context := CreateClassificationContext(sc, sender.name, sender.bio, reply);
      var answer := classify(messageText, context);
      ScoreAndBio(answer.score, sender.bio, answer.reason)
  }

  /** What analyze_message_content returns. */
  datatype Analysis = Analysis(score: Option<int>, bio: Option<string>, reason: string, isStory: bool, text: string)

  /** analyze_message_content: the forward information first, then the score of the extended text. */
  method AnalyzeMessageContent(m: Message, sc: SenderContext, bioOf: int -> Option<string>,
                               classify: (string, SpamClassificationContext) -> Classification)
    returns (a: Analysis)
    ensures a.isStory <==> m.story.Some?
    ensures a.text == WithForwardInfo(ContentText(m.text, m.caption), ForwardItems(m))
    ensures m.story.Some? ==> a.score == Some(STORY_SCORE) && a.bio.None? && a.reason == STORY_REASON
    ensures m.story.None? ==>
      var context := CreateClassificationContext(sc, GetSenderInfo(m, sc, bioOf).name, GetSenderInfo(m, sc, bioOf).bio,
                                                 ExtractReplyContext(m));
      && a.score == classify(a.text, context).score
      && a.reason == classify(a.text, context).reason
      && a.bio == GetSenderInfo(m, sc, bioOf).bio
  {
    var fwd := BuildForwardInfo(m);
    var s := GetSpamScoreAndBio(m, fwd.text, fwd.isStory, sc, bioOf, classify);
    a := Analysis(s.score, s.bio, s.reason, fwd.isStory, fwd.text);
  }
}
