# tg_ai_blocker moderation core in Dafny

This project models the moderation core of the tg_ai_blocker Telegram anti-spam bot. The bot watches messages in the groups it moderates and works out who sent each one. It skips group admins, known members and the group's own channel. It then asks a language model how likely the message is to be spam. A score above 50 is treated as spam, and the bot charges the group's admins one credit to delete it. Any other score costs one credit and makes the sender an approved member. When nobody in the group can pay, moderation is switched off and the admins are told.

The model follows the Python package layout, one Dafny module per source file:

- **Value types and prompt text.** `Types`, `PromptBuilder`, `Stories`, `MessageContext`, `ChannelMention`, `Utils` and `MtprotoUtils`. These are pure functions, plus the `SpamPromptBuilder` class that appends prompt parts.
- **Classifier answers.** `AnswerTags`, `CommonSpamClassifier` and `LlmClient`. These hold the parsers of the model's answer and the two retry loops. Each loop is a method proved against a function that replays the calls one by one.
- **Moderation decisions.** `Validation`, `Pipeline`, `HandleSpam`, `TryDeductCredits` and `Notifications`.
- **The PostgreSQL tables.** They are the fields of one `Database.Db` object. Each SQL transaction or stored procedure is a method on it: `AdminOperations`, `GroupOperations`, `DatabaseSchema`, `SpamExamples` and `MessageOperations`. Every method keeps the schema's foreign keys (`Db.Valid`) and states which tables it leaves alone.
- **The Telegram log handler.** `LogHandler.TelegramLogHandler` is a class whose state is described by the `Snapshot` value and the `Enqueued` / `EventLoopSet` functions.

Everything the bot asks of the outside world is a parameter of the operation that asks. That covers the Bot API and MTProto answers, the language model's replies, `json.loads`, the clock and `NOW()`. Message text is `seq<char>`, and time stamps are whole seconds.

## Model

| member | source | states |
|---|---|---|
| AnswerTags.FirstGt | src/app/common/spam_classifier.py:196 | the index found holds a '>' at or after the start position, where a tag name `[^>]+` ends |
| AnswerTags.FirstGtIsFirst | src/app/common/spam_classifier.py:196 | no '>' lies between the start and the index found; when none is found there is no '>' after the start at all |
| AnswerTags.FirstGtIs | src/app/common/spam_classifier.py:196 | a '>' with no '>' before it (from the start) is exactly the one found |
| AnswerTags.TagEnd | src/app/common/spam_classifier.py:196 | a tag `<[^>]+>` found at a position opens with '<', has a name of at least one character and ends at a '>' |
| AnswerTags.TagStartsAt | src/app/common/spam_classifier.py:196 | a '<' followed by a character other than '>' and, later, a '>' opens a tag |
| AnswerTags.NoTagWithoutLt | src/app/common/spam_classifier.py:196 | no tag opens at a position that does not hold '<' |
| AnswerTags.TagAtStart | src/app/common/spam_classifier.py:196 | a response opening with `<t>` has its first tag at 0, closing right after `t` |
| AnswerTags.FirstTag | src/app/common/spam_classifier.py:196 | the position found opens a tag and lies at or after the start |
| AnswerTags.FirstTagIsFirst | src/app/common/spam_classifier.py:196 | the lazy `(.*?)` stops at the nearest tag: no tag opens before the one found, and when none is found no tag opens after the start |
| AnswerTags.FirstTagIs | src/app/common/spam_classifier.py:196 | a tag with no '<' before it (from the start) is exactly the one found |
| AnswerTags.LastTag | src/app/common/spam_classifier.py:201 | the position found opens a tag before the bound |
| AnswerTags.LastTagIsLast | src/app/common/spam_classifier.py:201 | the greedy `^(.*)` runs to the last tag: no tag opens after the one found; none found means no tag at all |
| AnswerTags.LastTagIs | src/app/common/spam_classifier.py:201 | a tag with no tag after it below the bound is exactly the one found |
| AnswerTags.SearchPairFinds | src/app/common/spam_classifier.py:196-197 | the paired-tag search succeeds if and only if some position opens a tag that another tag follows |
| AnswerTags.NoTagMeansWholeResponse | src/app/common/spam_classifier.py:196-202 | a response without '<' yields the whole response, stripped |
| AnswerTags.TaggedAnswer | src/app/common/spam_classifier.py:196-198 | `<t1>body<t2>` with a tag-free body yields the body, stripped |
| AnswerTags.ClosingTagOnlyAnswer | src/app/common/spam_classifier.py:199-202 | `body<t2>` (only a closing tag) yields the body before it, stripped |
| CommonSpamClassifier.ScoreOfWords | src/app/common/spam_classifier.py:203-211 | extraction fails exactly when there are fewer than two words or the first is neither "да" nor "нет"; a verdict with a parseable confidence always gives a score, which "да" keeps and "нет" negates, and int() raises ValueError exactly when the confidence cannot be parsed |
| CommonSpamClassifier.ExtractSpamScore | src/app/common/spam_classifier.py:190-211 | ExtractionFailedError is raised exactly when the extracted answer does not open with a verdict word and a second word |
| CommonSpamClassifier.VerdictLineWords | src/app/common/spam_classifier.py:203 | the answer line "да N%" / "нет N%" lower-cases and splits into the verdict and "N%", whose confidence is N |
| CommonSpamClassifier.VerdictLineLower | src/app/common/spam_classifier.py:203 | lower-casing leaves an answer line unchanged |
| CommonSpamClassifier.PercentWord | src/app/common/spam_classifier.py:206 | "N%" is a single non-empty word |
| CommonSpamClassifier.PercentConfidence | src/app/common/spam_classifier.py:206 | `int("N%".replace("%", "").strip())` is N for every natural N |
| CommonSpamClassifier.VerdictScore | src/app/common/spam_classifier.py:204-208 | the words of an answer line score +N for "да" and -N for "нет" |
| CommonSpamClassifier.AnswerLineScore | src/app/common/spam_classifier.py:190-208 | any response whose extracted answer is an answer line scores that line's signed confidence |
| CommonSpamClassifier.LineBounded | src/app/common/spam_classifier.py:198 | an answer line is non-empty, has no surrounding whitespace and holds no '<' |
| CommonSpamClassifier.NoLtInPadded | src/app/common/spam_classifier.py:196 | padding an answer line with tag-free text keeps it tag-free |
| CommonSpamClassifier.PlainAnswerScore | src/app/common/spam_classifier.py:199-208 | an untagged answer line with whitespace around it scores its signed confidence |
| CommonSpamClassifier.TaggedAnswerScore | src/app/common/spam_classifier.py:196-208 | an answer line between any two tags, with whitespace around it, scores its signed confidence |
| CommonSpamClassifier.ClosingTagAnswerScore | src/app/common/spam_classifier.py:199-208 | an answer line followed only by a closing tag scores its signed confidence |
| CommonSpamClassifier.ExampleLines | src/app/common/spam_classifier.py:111 | the answer lines of the prompt's format for sample confidences |
| CommonSpamClassifier.PlainExample | src/app/common/spam_classifier.py:190-208 | "да 100%" scores 100 |
| CommonSpamClassifier.TaggedSpamExample | src/app/common/spam_classifier.py:190-208 | "<abc> да 77% <xyz>" scores 77 |
| CommonSpamClassifier.TaggedHamExample | src/app/common/spam_classifier.py:190-208 | "<ответ> нет 0% <end>" scores 0 |
| CommonSpamClassifier.ClosingTagExample | src/app/common/spam_classifier.py:190-208 | "нет 12% <abc>" scores -12 |
| CommonSpamClassifier.EmptyExample | src/app/common/spam_classifier.py:203-211 | an empty response raises ExtractionFailedError |
| CommonSpamClassifier.EmptyTagsExample | src/app/common/spam_classifier.py:196-211 | an empty answer between two tags raises ExtractionFailedError |
| CommonSpamClassifier.NameTag | src/app/common/spam_classifier.py:180-181 | the name tag is present exactly when the name is non-empty |
| CommonSpamClassifier.BioTag | src/app/common/spam_classifier.py:183-184 | the bio tag is present exactly when the bio is non-empty |
| CommonSpamClassifier.FormatSpamRequestShape | src/app/common/spam_classifier.py:159-187 | a request opens with the message-text section, ends with `</запрос>`, carries the name right after the text when there is one, and is just the text section when neither name nor bio is given |
| CommonSpamClassifier.FormatSpamRequest | src/app/common/spam_classifier.py:159-187 | the request opens with the message-text section, puts the name and then the bio after it when present, and closes with `</запрос>` (proved in CommonSpamClassifier.FormatSpamRequestShape) |
| CommonSpamClassifier.FourPartShape | src/app/common/spam_classifier.py:173-186 | the request's four parts keep their places: head first, name tag after it, closing tag last |
| CommonSpamClassifier.ExampleAnswer | src/app/common/spam_classifier.py:140 | an example's answer says "да" exactly for a positive score |
| CommonSpamClassifier.ExampleAnswerRoundTrip | src/app/common/spam_classifier.py:137-142 | the tagged answer the prompt shows for an example parses back to the example's own score |
| CommonSpamClassifier.ExampleBlocksSnoc | src/app/common/spam_classifier.py:132-142 | appending an example appends exactly its block |
| CommonSpamClassifier.GetSystemPrompt | src/app/common/spam_classifier.py:104-143 | the prompt is the fixed instructions followed by one block per example, in order |
| CommonSpamClassifier.GetMessages | src/app/common/spam_classifier.py:146-156 | two messages: the system prompt unchanged, then a user message holding the formatted request between a newline and "\n<ответ>\n" (the request's layout is CommonSpamClassifier.FormatSpamRequestShape) |
| CommonSpamClassifier.StepOf | src/app/common/spam_classifier.py:50-86 | one call stops the loop exactly when it yields a parsed score; a generic error adds one failure and records itself; rate limits and unsupported locations change nothing |
| CommonSpamClassifier.IsSpam | src/app/common/spam_classifier.py:21-101 | the loop's result is the call-by-call specification over the model's outcomes |
| CommonSpamClassifier.ClassifiedIsFirstParse | src/app/common/spam_classifier.py:47-57 | a classified result is the score of the first call whose answer parses, reached with fewer than MAX_RETRIES generic failures before it |
| CommonSpamClassifier.FirstParseIsClassified | src/app/common/spam_classifier.py:47-86 | conversely, the first answer that parses, reached with fewer than MAX_RETRIES generic failures, is the result with its score; rate-limit and location errors before it do not count |
| CommonSpamClassifier.GenericFailuresGiveUp | src/app/common/spam_classifier.py:47-86 | MAX_RETRIES generic failures (call errors and answers that do not parse) before any parsing answer end the loop with a failure |
| CommonSpamClassifier.FirstParseAtStep | src/app/common/spam_classifier.py:82-84 | a call before the first parse keeps that parse first, with its generic failure counted |
| CommonSpamClassifier.StopIsFirstParse | src/app/common/spam_classifier.py:51-57 | a call whose answer parses returns its score at once |
| CommonSpamClassifier.FailedOnlyAfterGenericErrors | src/app/common/spam_classifier.py:84-101 | the classifier gives up only after MAX_RETRIES generic errors, and then it holds the last one |
| CommonSpamClassifier.TransientOutcomeIgnored | src/app/common/spam_classifier.py:59-82 | a rate-limit or location error in front of the calls does not change the result |
| CommonSpamClassifier.Shifted | src/app/common/spam_classifier.py:47-86 | the loop's result depends only on the outcomes still to come |
| CommonSpamClassifier.ThreeFailuresGiveUp | src/app/common/spam_classifier.py:84-101 | three failing calls in a row end in failure with the third error |
| LlmClient.Get | src/app/spam/llm_client.py:224-226 | `data.get(key, default)`: the stored value when the key is present, the default otherwise |
| LlmClient.ParseJson | src/app/spam/llm_client.py:209-231 | no result unless the decoded value is a JSON object; the score is the confidence, negated unless `is_spam` is truthy; missing fields default to false, 0 and "No reason provided" |
| LlmClient.ParseLegacy | src/app/spam/llm_client.py:234-272 | accepts exactly the answers the older classifier scores, with the same score; "да" gives +confidence and "нет" -confidence with the matching reason (proved in LlmClient.LegacyAgreesWithOlderParser, LlmClient.LegacySpamWord, LlmClient.LegacyHamWord, LlmClient.LegacyRejects) |
| LlmClient.ParseClassificationResponse | src/app/spam/llm_client.py:275-302 | JSON first, the legacy format second, ExtractionFailedError exactly when both fail (proved in LlmClient.JsonFirstThenLegacy, LlmClient.NoVerdictUnparsable) |
| LlmClient.JsonFirstThenLegacy | src/app/spam/llm_client.py:275-302 | JSON is tried first, the legacy text second; parsing fails exactly when both fail, with the response in the message |
| LlmClient.JsonSchemaRoundTrip | src/app/spam/llm_client.py:209-231 | an object with the schema's three fields reads back as its own verdict, confidence and reason |
| LlmClient.JsonDefaults | src/app/spam/llm_client.py:224-229 | an empty object reads as a non-spam verdict with confidence 0 and the default reason |
| LlmClient.LegacyAgreesWithOlderParser | src/app/spam/llm_client.py:234-272 | the legacy parser accepts exactly the responses the older classifier scores, with the same score, and the score is plus or minus the confidence |
| LlmClient.LegacyAgreesOnWords | src/app/spam/llm_client.py:253-272 | on the answer's words, the legacy verdict and the older classifier's score agree |
| LlmClient.LegacySpamWord | src/app/spam/llm_client.py:263-266 | "да" with confidence c gives score c, confidence c and the spam reason |
| LlmClient.LegacyHamWord | src/app/spam/llm_client.py:267-270 | "нет" with confidence c gives score -c, confidence c and the non-spam reason |
| LlmClient.LegacyRejects | src/app/spam/llm_client.py:253-272 | the legacy parser gives up exactly when there are fewer than two words, the confidence does not parse, or the verdict word is unknown |
| LlmClient.NoVerdictUnparsable | src/app/spam/llm_client.py:290-302 | a response that is not JSON and carries no verdict raises ExtractionFailedError |
| LlmClient.FailureMessage | src/app/spam/llm_client.py:175-177 | the ClassificationError message always opens with "Classification failed after 3 attempts" and is exactly that when no generic error was recorded |
| LlmClient.AttemptOf | src/app/spam/llm_client.py:131-159 | one attempt returns exactly when the response parses; rate limits and unsupported locations keep the last error; any other error, parse failures included, becomes the last error |
| LlmClient.CallLlmWithSpamClassification | src/app/spam/llm_client.py:109-179 | the loop's result is the attempt-by-attempt specification run with the real parser |
| LlmClient.FirstParsedAttemptWins | src/app/spam/llm_client.py:129-142 | a classification comes back exactly when one of the attempts parses, and it is the first such attempt's |
| LlmClient.AtMostMaxRetries | src/app/spam/llm_client.py:129 | outcomes past attempt MAX_RETRIES have no influence: the model is called at most three times |
| LlmClient.OnlyTransientErrorsLeaveNoError | src/app/spam/llm_client.py:144-177 | when every attempt hits a rate limit or an unsupported location, the error message names no last error |
| LlmClient.NeverLosesError | src/app/spam/llm_client.py:153-177 | once a generic error is recorded, the failure message always carries one |
| Notifications.MentionForms | src/app/common/notifications.py:55-62 | the group mention is "@username" when the last known admin has a username, a `tg://user?id=` link when it has none, and the plain word "админ" when no admin chat is known |
| Notifications.Mention | src/app/common/notifications.py:55-62 | "@username", a `tg://user?id=` link, or "админ", by what is known of the last admin (proved in Notifications.MentionForms) |
| Notifications.DeliverySnoc | src/app/common/notifications.py:29-37 | one more admin is appended to the notified list when its private message went out, and to the unreachable list otherwise, leaving the other list as it was |
| Notifications.EachAdminOnce | src/app/common/notifications.py:29-42 | every listed admin ends up in exactly one of the notified and unreachable lists, as often as it is listed |
| Notifications.SplitByDelivery | src/app/common/notifications.py:29-42 | the notified admins are exactly the listed ones whose private message went out; the unreachable ones are exactly the rest |
| Notifications.NotifyAdminsWithFallbackAndCleanup | src/app/common/notifications.py:11-89 | the lists are the delivered and undelivered admins in order, and each delivered admin is sent the given private message, once and in that order; the group is written to only when nobody was reached, mentioning the last admin whose chat answered; the group counts as notified exactly when that message went out, and as cleaned up exactly when it failed, cleanup was asked for and cleanup succeeded |
| MtprotoUtils.BotApiChatIdToMtprotoAsWritten | src/app/common/mtproto_utils.py:14-50 | non-negative ids are unchanged; a negative id loses its "-100" prefix when its digits start with "100", and its sign otherwise |
| MtprotoUtils.BotApiChatIdToMtproto | src/app/common/mtproto_utils.py:14-50 | non-negative ids are unchanged and every negative id becomes a positive MTProto id |
| MtprotoUtils.ConversionRecoversPeerId | src/app/common/mtproto_utils.py:18-23 | the conversion returns the MTProto id of every user, basic group and channel the Bot API can name |
| MtprotoUtils.ChannelExample | src/app/common/mtproto_utils.py:38-40 | -1001234567890 converts to the channel id 1234567890 |
| MtprotoUtils.AsWrittenMisreadsBasicGroup | src/app/common/mtproto_utils.py:38-43 | the basic group 1001234, written -1001234 by the Bot API, is read as 1234 by the prefix rule and as 1001234 by the numeric rule |
| MtprotoUtils.AsWrittenFailsOnGroup100 | src/app/common/mtproto_utils.py:38-40 | the basic group 100, written -100, makes the prefix rule call `int("")`, which raises; the numeric rule returns 100 |
| MtprotoUtils.GetMtprotoChatIdentifier | src/app/common/mtproto_utils.py:53-68 | a non-empty username is preferred; otherwise the converted chat id is used |
| MtprotoUtils.GetMtprotoChatIdentifierAsWritten | src/app/common/mtproto_utils.py:53-68 | get_mtproto_chat_identifier over the string rule as written: a truthy username wins; otherwise the id the string rule gives, or the ValueError it raises |
| MtprotoUtils.IdentifierAsWrittenMisreadsBasicGroup | src/app/common/mtproto_utils.py:38-43 | without a username the basic group -1001234 is looked up as 1234 as written, and as 1001234 by the model |
| Utils.Truncate | src/app/common/utils.py:40-41 | a text within the limit is unchanged; a longer one (limit at least 3) keeps its first limit-3 characters, ends in "..." and has exactly the limit's length |
| Utils.GapStep | src/app/common/utils.py:35-38 | dropping the middle line widens the elided block by one line on the side the parity of the line count gives, and the text built from the lines equals the original lines with that block replaced by "..." |
| Utils.RemoveLinesToFitLen | src/app/common/utils.py:22-43 | a text of at most limit-4 characters is returned unchanged, and one of at most two lines is only cut to the limit; otherwise a contiguous block of inner lines (never the first or the last) is replaced by one "..." line, widened until the text fits or only two lines remain, and the result is cut to the limit; for a limit of at least 3 the result never exceeds it |
| Types.MapContent | src/app/types.py:18-22 | rendering a lookup result's content keeps its status and error, and keeps the content present exactly when it was |
| Types.CountText | src/app/types.py:42-43 | a count reads "unknown" exactly when it is missing |
| Types.StripAll | src/app/types.py:53-55 | every recent post is stripped, none dropped |
| Types.StripAllAt | src/app/types.py:54-55 | the stripped post at each position is that post stripped |
| Types.Snippets | src/app/types.py:52-55 | no more snippets than posts |
| Types.SnippetsSound | src/app/types.py:52-55 | every snippet is a non-blank post numbered by its 1-based position, in increasing order |
| Types.SnippetsComplete | src/app/types.py:52-55 | every non-blank post is among the snippets |
| Types.RenderSnippets | src/app/types.py:55 | one `post_N: text` line per snippet |
| Types.FirstPosts | src/app/types.py:53 | `[:3]`: a prefix of the posts of length at most three, exactly three when there are that many |
| Types.LinkedCounts | src/app/types.py:41-45 | subscribers and total posts read "unknown" exactly when missing, a known count as its digits |
| Types.LinkedAgeDelta | src/app/types.py:36-39 | the age delta reads "unknown" exactly when missing or negative, otherwise as months with "mo" |
| Types.LinkedFragmentShape | src/app/types.py:35-61 | the fragment opens with the subscriber count and has the three fixed parts plus at most the channel source and the recent posts |
| Types.LinkedFragment | src/app/types.py:35-61 | subscribers, posts and age delta with "unknown" for what is missing, then the optional source and recent posts (proved in Types.LinkedCounts, Types.LinkedAgeDelta, Types.LinkedFragmentShape) |
| Types.RecentPostsSound | src/app/types.py:50-59 | the rendered posts are non-blank ones among the first three, stripped, with their 1-based positions in increasing order |
| Types.RecentPostsComplete | src/app/types.py:50-59 | every non-blank post among the first three is rendered |
| Types.PhotoAgeMonths | src/app/types.py:69-80 | no age without a photo date; otherwise the whole calendar months from the photo's month to the current one |
| Types.AccountFragmentCases | src/app/types.py:82-95 | no photo reads "photo_age=unknown"; a photo dated in or after the current month reads "photo_age=0mo"; a photo never reads "unknown" |
| Types.AccountFragment | src/app/types.py:82-95 | the photo age in months, "unknown" exactly without a photo (proved in Types.AccountFragmentCases) |
| Types.GuidanceFlags | src/app/types.py:162-199 | each guidance flag holds exactly when its lookup is present with status found or empty; AI-detection guidance follows a reply, stories or linked channel; an empty context asks for none |
| Types.IncludeLinkedChannelGuidance | src/app/types.py:162-168 | the linked-channel lookup is present with status FOUND or EMPTY (Types.GuidanceFlags) |
| Types.IncludeStoriesGuidance | src/app/types.py:170-176 | the stories lookup is present with status FOUND or EMPTY (Types.GuidanceFlags) |
| Types.IncludeReplyGuidance | src/app/types.py:178-181 | a reply context is present (Types.GuidanceFlags) |
| Types.IncludeAccountAgeGuidance | src/app/types.py:183-189 | the account-age lookup is present with status FOUND or EMPTY (Types.GuidanceFlags) |
| Types.IncludeAiDetectionGuidance | src/app/types.py:191-199 | any of reply, stories or linked-channel guidance; none for an empty context (Types.GuidanceFlags) |
| Types.EntityLinks | src/app/types.py:238-245 | at most one link per entity |
| Types.AreaLinks | src/app/types.py:271-275 | no area links exactly when no area is a URL area with a non-empty url |
| Types.MediaStoryIffNothingToSay | src/app/types.py:234-280 | a story reads "Media story" exactly when it has no caption and no entity, media or area link |
| Types.MediaLinksShown | src/app/types.py:211-232 | media that the link check flags always shows its links in the summary |
| Types.MediaHasLinks | src/app/types.py:211-232 | some area is a URL area, or the media is a web page with a url; a story with such media never reads "Media story" (Types.MediaLinksShown) |
| Types.StoryToString | src/app/types.py:234-280 | caption, entity links, media and area links, or "Media story" exactly when there is nothing to say (proved in Types.MediaStoryIffNothingToSay, Types.EntityLinks, Types.AreaLinks) |
| Telegram.ContentText | src/app/handlers/handle_spam.py:150 | `text or caption or "[MEDIA_MESSAGE]"`: the first non-empty of text and caption, else the placeholder |
| PromptBuilder.RenderParts | src/app/spam/prompt_builder.py:260-262 | one rendered text per prompt part |
| PromptBuilder.SectionShape | src/app/spam/prompt_builder.py:307-349 | a section is written exactly when its lookup is present and not SKIPPED; a written section opens with its name and a newline and ends with a blank line; a FAILED one reads "verification failed: " and the error |
| PromptBuilder.EmptyPhraseFallback | src/app/spam/prompt_builder.py:328-336 | an EMPTY section of any other name reads "no data available" |
| PromptBuilder.FormatContextSection | src/app/spam/prompt_builder.py:307-349 | written exactly when the lookup is present and not SKIPPED, with the name as its first line and a blank line at the end; a FAILED lookup shows its error (proved in PromptBuilder.SectionShape, PromptBuilder.EmptyPhraseFallback) |
| PromptBuilder.AssembleLayout | src/app/spam/prompt_builder.py:370-406 | the request parts are: header, message block, blank; name and blank when there is a name; bio and blank when there is a bio; the three context sections; and the reply section exactly when a reply is present |
| PromptBuilder.RequestOpensWithMessage | src/app/spam/prompt_builder.py:366-374 | every request, with or without context, opens with the header and the message between its BEGIN and END markers |
| PromptBuilder.RequestLayout | src/app/spam/prompt_builder.py:352-408 | the request built from a context places the name, bio, linked-channel, stories, account-age and reply sections at their positions |
| PromptBuilder.FormatSpamRequest | src/app/spam/prompt_builder.py:352-408 | the header and message block first, then the context sections in their order, the reply section only when a reply is present (proved in PromptBuilder.RequestOpensWithMessage, PromptBuilder.AssembleLayout, PromptBuilder.RequestLayout, PromptBuilder.ReplyRendering) |
| PromptBuilder.ReplyRendering | src/app/spam/prompt_builder.py:395-406 | the reply "[EMPTY]" reads "[checked, none found]", and any other reply does not |
| PromptBuilder.ExampleParts | src/app/spam/prompt_builder.py:206-258 | a failed example load adds nothing; otherwise one part per example |
| PromptBuilder.ExamplesOf | src/app/spam/prompt_builder.py:213-254 | one part per example |
| PromptBuilder.ExamplesOfAt | src/app/spam/prompt_builder.py:213-254 | each example part says spam exactly for a positive score, carries the absolute score as its confidence, and holds the request formatted with the example's own context |
| PromptBuilder.SpamPromptBuilder.constructor | src/app/spam/prompt_builder.py:32-33 | a new builder holds no parts |
| PromptBuilder.SpamPromptBuilder.AddGuidance | src/app/spam/prompt_builder.py:35-204 | each guidance method appends exactly its own block |
| PromptBuilder.SpamPromptBuilder.AddSpamExamples | src/app/spam/prompt_builder.py:206-258 | the example parts are appended after the existing ones, in the order the examples come |
| PromptBuilder.SpamPromptBuilder.Build | src/app/spam/prompt_builder.py:260-262 | the parts collected so far, rendered one text each and joined by newlines (PromptBuilder.RenderParts; the layout of the whole prompt in PromptBuilder.SystemPromptFrame) |
| PromptBuilder.BuildSystemPrompt | src/app/spam/prompt_builder.py:265-304 | the prompt is the guidance blocks the context asks for, then the examples, joined by newlines; a missing context acts as an empty one |
| PromptBuilder.SystemPromptFrame | src/app/spam/prompt_builder.py:276-303 | the prompt opens with the base instructions and the user-info guidance, closes its guidance with the response format, and continues with the examples only |
| PromptBuilder.OpensWithBaseGrows | src/app/spam/prompt_builder.py:284-298 | adding an optional block keeps the two opening blocks and grows the list by one exactly when the flag is set |
| PromptBuilder.BlocksFrame | src/app/spam/prompt_builder.py:276-300 | the guidance has the three fixed blocks plus one per set flag, two for AI detection |
| PromptBuilder.BlocksHold | src/app/spam/prompt_builder.py:287-298 | each optional block is present exactly when its flag is set; AI detection brings both the AI-content and the knowledge-sharing blocks |
| PromptBuilder.SystemPromptGuidance | src/app/spam/prompt_builder.py:284-298 | each optional block is in the system prompt exactly when the context's matching guidance flag holds |
| Stories.Summaries | src/app/spam/stories.py:71-90 | at most one summary per story |
| Stories.SummariesEmpty | src/app/spam/stories.py:72-92 | no summaries exactly when every story is deleted or has neither caption nor entities |
| Stories.SummaryIncluded | src/app/spam/stories.py:84-90 | every live story with a caption or entities contributes its summary |
| Stories.SkippedStories | src/app/spam/stories.py:73-82 | a deleted or textless story adds nothing |
| Stories.CollectUserStories | src/app/spam/stories.py:37-109 | a failed fetch is FAILED with the error text; no summarisable story is EMPTY; otherwise FOUND with the summaries joined by newlines |
| Stories.FoundIffSomeStoryHasText | src/app/spam/stories.py:68-95 | the result is FOUND exactly when some live story has a caption or entities |
| ChannelMention.RunLen | src/app/spam/linked_channel_mention.py:11-15 | the run measured from a position is the longest stretch of the pattern's username characters there: ASCII for `@`, case-folded for t.me |
| ChannelMention.RunLenExact | src/app/spam/linked_channel_mention.py:11-15 | a stretch of the pattern's username characters ended by another character (or the end) is exactly the run measured |
| ChannelMention.MatchAt | src/app/spam/linked_channel_mention.py:12-15 | the `@` pattern captures an ASCII username of 5 to 32 characters; the case-insensitive t.me patterns capture 5 to 32 characters of `[a-zA-Z0-9_]` as re.IGNORECASE widens it, which adds İ, ı, ſ and the Kelvin sign |
| ChannelMention.SearchPos | src/app/spam/linked_channel_mention.py:77-82 | the position found lies at or after the start, and the pattern matches there |
| ChannelMention.Search | src/app/spam/linked_channel_mention.py:77-82 | a regex search yields only what its pattern captures: a username for `@`, a case-folded username for t.me |
| ChannelMention.SearchLeftmost | src/app/spam/linked_channel_mention.py:77-82 | the search finds the leftmost match: none lies before it, and any match bounds the position found |
| ChannelMention.MatchBoundsSearch | src/app/spam/linked_channel_mention.py:77-82 | a match at some position makes the search stop there or before |
| ChannelMention.PySlice | src/app/spam/linked_channel_mention.py:48 | a slice is never longer than the text |
| ChannelMention.LStripAt | src/app/spam/linked_channel_mention.py:48 | `lstrip("@")` drops the leading '@' characters and nothing else |
| ChannelMention.CheckMention | src/app/spam/linked_channel_mention.py:48-50 | a mention is accepted only when the whole slice is a username |
| ChannelMention.EntityMention | src/app/spam/linked_channel_mention.py:41-74 | only a mention or text_link entity yields; a mention yields an ASCII username, a text_link a case-folded one from its t.me URL |
| ChannelMention.FromEntities | src/app/spam/linked_channel_mention.py:40-74 | the entities yield the username of the first entity that yields one, and none when no entity yields one |
| ChannelMention.ExtractFirstChannelMention | src/app/spam/linked_channel_mention.py:18-83 | the result is always 5 to 32 username characters (the t.me fallback may include İ, ı, ſ or the Kelvin sign), and an empty text yields none |
| ChannelMention.PreferenceOrder | src/app/spam/linked_channel_mention.py:39-83 | entities win; failing them an @mention in the text; failing that a t.me link |
| ChannelMention.FirstMentionWins | src/app/spam/linked_channel_mention.py:77-79 | of "@first @second_channel" the first mention is returned |
| ChannelMention.ShortMentionIgnored | src/app/spam/linked_channel_mention.py:12 | "@ab" is too short to be a username and yields none |
| ChannelMention.MentionEntityYields | src/app/spam/linked_channel_mention.py:43-50 | a mention entity that covers "@" and a username yields that username |
| ChannelMention.EntityUserIsUsername | src/app/spam/linked_channel_mention.py:11 | "entityuser" matches the username pattern |
| ChannelMention.EntityMentionExample | src/app/spam/linked_channel_mention.py:40-50 | "Hello @entityuser world" with a mention entity at offset 6 yields "entityuser" |
| ChannelMention.FoldedTmeMention | src/app/spam/linked_channel_mention.py:13-15 | "t.me/ſpamchannel" yields "ſpamchannel", which is not an ASCII username: the long s matches `[a-z]` under re.IGNORECASE |
| ChannelMention.NoAtNoMention | src/app/spam/linked_channel_mention.py:77-79 | a text without '@' has no `@username` match |
| Database.Db.constructor | src/app/database/database_schema.py:41-127 | a fresh database has empty tables and satisfies the schema's foreign keys |
| AdminOperations.AbsentAdminReadsAsNew | src/app/database/admin_operations.py:62-73 | an unknown admin reads INITIAL_CREDITS credits and spam deletion on, exactly what a new row holds |
| AdminOperations.GetAdminCredits | src/app/database/admin_operations.py:63-73 | the stored balance, INITIAL_CREDITS for an unknown admin (AdminOperations.AbsentAdminReadsAsNew) |
| AdminOperations.GetSpamDeletionState | src/app/database/admin_operations.py:152-164 | the stored flag, true for an unknown admin (AdminOperations.AbsentAdminReadsAsNew) |
| AdminOperations.InitializeNewAdmin | src/app/database/admin_operations.py:76-114 | an existing admin changes nothing and gives false; a new one gets INITIAL_CREDITS, deletion on and one 'initial' transaction of that amount, and nothing else changes |
| AdminOperations.Toggled | src/app/database/admin_operations.py:135-146 | only the one admin's flag flips; every other row and the key set stay as they were |
| AdminOperations.ToggleTwiceRestores | src/app/database/admin_operations.py:117-148 | toggling twice restores the table |
| AdminOperations.ToggleSpamDeletion | src/app/database/admin_operations.py:117-148 | an unknown admin gives None and changes nothing; otherwise the flag flips, the new state is returned, and no other table changes |
| AdminOperations.SpentAppend | src/app/database/admin_operations.py:172-179 | spending over a log is the sum of spending over its parts |
| AdminOperations.NoDebitsNoSpending | src/app/database/admin_operations.py:174-177 | an admin without negative transactions has spent nothing |
| AdminOperations.SpentAfterDeduction | src/app/database/admin_operations.py:167-182 | a fresh debit of `amount` raises that admin's weekly spending by exactly `amount` and leaves every other admin's unchanged |
| AdminOperations.GetSpentCreditsLastWeek | src/app/database/admin_operations.py:168-182 | the sum of the admin's debits of the last seven days, 0 without any (proved in AdminOperations.NoDebitsNoSpending, AdminOperations.SpentAppend, AdminOperations.SpentAfterDeduction) |
| GroupOperations.WithModeration | src/app/database/group_operations.py:58-71 | the upsert adds the group when missing and leaves every other group as it was |
| GroupOperations.ModerationReadBack | src/app/database/group_operations.py:58-84 | after setting the flag, is_moderation_enabled reads it back, and an existing group keeps its admins and members |
| GroupOperations.IsModerationEnabled | src/app/database/group_operations.py:74-84 | the stored flag, false for an unknown group; it reads back what set_group_moderation wrote (GroupOperations.ModerationReadBack) |
| GroupOperations.SetGroupModeration | src/app/database/group_operations.py:58-71 | only the groups table changes, by the upsert of the flag |
| GroupOperations.HighestBalance | src/app/database/group_operations.py:113-124 | `ORDER BY credits DESC LIMIT 1`: no row exactly for a group without admins, otherwise an admin of the group holding the most credits |
| GroupOperations.DeductCreditsFromAdmins | src/app/database/group_operations.py:103-148 | when no admin of the group holds `amount`, 0 and nothing changes; otherwise the richest admin loses exactly `amount`, a matching debit is logged, and no other row changes |
| GroupOperations.WithMember | src/app/database/group_operations.py:205-217 | the member is approved in that group and every other group is unchanged |
| GroupOperations.AddMemberIdempotent | src/app/database/group_operations.py:205-217 | approving a member twice is the same as approving it once |
| GroupOperations.AddMember | src/app/database/group_operations.py:205-217 | for a known group the member is approved there; an unknown group changes nothing (the foreign key refuses the row) |
| GroupOperations.WithoutMember | src/app/database/group_operations.py:220-270 | no group is added or dropped |
| GroupOperations.RemovalScope | src/app/database/group_operations.py:227-261 | with a group id only that group loses the member; without one every group does; admins, flags and other members are untouched |
| GroupOperations.RemoveMemberFromGroup | src/app/database/group_operations.py:220-270 | only the approved members change, as the removal scope says |
| GroupOperations.InitializedStep | src/app/database/group_operations.py:316-318 | one more initialize_new_admin call keeps every earlier admin row and adds an initial row and transaction only for an unknown id |
| GroupOperations.InitializeAdmins | src/app/database/group_operations.py:314-318 | every id ends up with an admin row; existing rows are kept; each new row is the initial one, and each logged transaction is an initial credit of a new admin |
| GroupOperations.UpdateGroupAdmins | src/app/database/group_operations.py:273-335 | the group exists afterwards (created with moderation on when missing) and its admin set is exactly the given ids; its members and flag and all other groups are kept; unknown admins are initialised |
| DatabaseSchema.SaveReferralProcedure | src/app/database/database_schema.py:293-343 | a link is inserted exactly when the referral is not the referrer, has no referrer yet, and the referrer chain walked for at most 10 steps does not reach it; otherwise nothing changes |
| DatabaseSchema.WalkAvoidsNewLink | src/app/database/database_schema.py:322-335 | a walk that did not reach the referral still does not once the new link from the referral is added |
| DatabaseSchema.AcceptedLinkClosesNoShortCycle | src/app/database/database_schema.py:322-341 | after an accepted link, the referrer chain from the new referrer does not lead back to the referral within 10 steps |
| DatabaseSchema.CyclicReferralRejected | src/app/database/database_schema.py:322-335 | with 111 referring 222 and 222 referring 333, linking 333 as the referrer of 111 is refused |
| DatabaseSchema.WithZeroRow | src/app/database/referral_operations.py:16-24 | the insert adds a missing admin and keeps every existing row |
| DatabaseSchema.SaveReferral | src/app/database/referral_operations.py:9-38 | both users get an admin row if missing; the result and the link are the procedure's |
| DatabaseSchema.CommissionBounds | src/app/database/database_schema.py:268-269 | the commission, floored, never exceeds the payment for a rate up to 100%, and 10% of 1000 is 100 |
| DatabaseSchema.Credited | src/app/database/database_schema.py:236-240 | the upsert adds the amount to the admin's balance (from 0 for a new admin) and touches no other row |
| DatabaseSchema.ModerationOnFor | src/app/database/database_schema.py:255-261 | moderation is switched on in exactly the groups the payer administers; nothing else in the groups changes |
| DatabaseSchema.ProcessSuccessfulPayment | src/app/database/database_schema.py:224-290 | the payer is credited and a payment transaction logged; the payer's groups are moderated; a referred payer also credits its referrer with the floored commission and logs it |
| DatabaseSchema.WithUnknownAdmins | src/app/database/database_schema.py:187-196 | missing admins are added with username 'unknown' and the initial credits; existing rows are kept |
| DatabaseSchema.UpdateGroupAdminsProcedure | src/app/database/database_schema.py:179-221 | a repeated id makes the call fail and change nothing; otherwise unknown admins are created, the group is created with moderation on when missing, and its admin set becomes exactly the ids |
| SpamExamples.WithKeySnoc | src/app/database/spam_examples.py:64-73 | the examples of a key in a log grown by one are those before plus the new one when its key matches |
| SpamExamples.WithoutKeyMembers | src/app/database/spam_examples.py:64-73 | the DELETE keeps exactly the examples whose (text, name, admin) key differs |
| SpamExamples.WithKeyOfWithoutKey | src/app/database/spam_examples.py:64-73 | after the DELETE no example of the deleted key is left, and every other key keeps its examples |
| SpamExamples.AddedByKey | src/app/database/spam_examples.py:63-86 | after an add, the new example is the only one of its key, and other keys are untouched |
| SpamExamples.AddKeepsKeysUnique | src/app/database/spam_examples.py:63-86 | adding keeps at most one example per key |
| SpamExamples.ReAddReplaces | src/app/database/spam_examples.py:63-86 | adding twice with the same key leaves only the second example |
| SpamExamples.WithoutKeyChronological | src/app/database/spam_examples.py:64-73 | deleting keeps the examples in creation order |
| SpamExamples.AddKeepsChronological | src/app/database/spam_examples.py:76-86 | adding an example stamped no earlier than the rest keeps creation order |
| SpamExamples.ExampleAdminsKnown | src/app/database/database_schema.py:91-93 | every personal example belongs to a known admin |
| SpamExamples.AddSpamExample | src/app/database/spam_examples.py:49-90 | an unknown admin makes the insert fail: false and nothing changes; otherwise the cleaned example replaces any of its key, and only the examples table changes |
| SpamExamples.NewestFirstMembers | src/app/database/spam_examples.py:16-36 | the rows read are exactly the common examples plus, when admin ids are given, those admins' examples |
| SpamExamples.NewestFirstOrdered | src/app/database/spam_examples.py:23-34 | the rows come newest first |
| SpamExamples.CommonOnlyWithoutAdmins | src/app/database/spam_examples.py:27-36 | without admin ids only common examples are read |
| SpamExamples.AddedComesFirst | src/app/database/spam_examples.py:10-86 | a freshly added visible example is read first, followed by the rest without its key |
| SpamExamples.Rows | src/app/database/spam_examples.py:38-46 | one row of text, name, bio and score per example |
| SpamExamples.GetSpamExamples | src/app/database/spam_examples.py:10-46 | the rows are the visible examples, newest first |
| SpamExamples.ReAddedExampleReadsBack | src/app/database/spam_examples.py:49-86 | an example added twice reads back once, with the second score |
| SpamExamples.WithoutCommonTextMembers | src/app/database/spam_examples.py:98-104 | the DELETE keeps exactly the examples that are personal or have another text |
| SpamExamples.WithoutCommonTextKeepsAll | src/app/database/spam_examples.py:98-104 | when no common example has the text, nothing is deleted |
| SpamExamples.WithoutCommonTextShrinks | src/app/database/spam_examples.py:98-105 | deleting never grows the table, and shrinks it when some common example has the text |
| SpamExamples.WithoutCommonTextCount | src/app/database/spam_examples.py:98-105 | the table keeps its size exactly when no common example has the text, and then it is unchanged |
| SpamExamples.RemoveSpamExample | src/app/database/spam_examples.py:93-108 | the result is true exactly when some common example had the text; those are deleted and nothing else changes |
| MessageOperations.Trimmed | src/app/database/message_operations.py:39-53 | at most MESSAGE_HISTORY_SIZE (30) entries are kept |
| MessageOperations.Unexpired | src/app/database/message_operations.py:55-64 | expiry never adds entries |
| MessageOperations.TrimKeepsNewest | src/app/database/message_operations.py:39-53 | the trim keeps min(30, size) entries and drops only the oldest ones |
| MessageOperations.UnexpiredMembers | src/app/database/message_operations.py:55-64 | exactly the entries created at or after the cutoff survive |
| MessageOperations.UnexpiredChronological | src/app/database/message_operations.py:55-64 | expiry keeps creation order |
| MessageOperations.UnexpiredSnoc | src/app/database/message_operations.py:55-64 | an entry created after the cutoff survives at the end |
| MessageOperations.TrimmedSnoc | src/app/database/message_operations.py:19-53 | after inserting and trimming, the new entry is last, and every entry kept was there before or is the new one |
| MessageOperations.TrimmedChronological | src/app/database/message_operations.py:39-53 | trimming keeps creation order |
| MessageOperations.SavedShape | src/app/database/message_operations.py:14-64 | after saving, at most 30 entries remain, all younger than 24 hours, the new one last, and no other entry is new |
| MessageOperations.SavedChronological | src/app/database/message_operations.py:14-64 | saving a message no older than the history keeps creation order |
| MessageOperations.SaveMessage | src/app/database/message_operations.py:14-64 | an unknown admin makes the insert fail and nothing changes; otherwise only that admin's history becomes the saved one; other admins' histories and other tables are untouched |
| MessageOperations.GetMessageHistory | src/app/database/message_operations.py:67-81 | one role and content pair per stored entry |
| MessageOperations.SaveThenGet | src/app/database/message_operations.py:14-81 | right after saving, the history ends with the saved role and content |
| MessageOperations.ClearMessageHistory | src/app/database/message_operations.py:84-93 | the admin's history reads empty afterwards and nothing else changes |
| TryDeductCredits.FindMinCreditsAdmin | src/app/handlers/try_deduct_credits.py:76-102 | nothing is found exactly when no human owner or administrator has a stored row; otherwise the result is the first such member with the strictly smallest balance, and its balance |
| TryDeductCredits.RecipientsAreHumanAdmins | src/app/handlers/try_deduct_credits.py:150-165 | the deactivation notices go exactly to the human owners and administrators |
| TryDeductCredits.NotifyAdminsAboutDeactivation | src/app/handlers/try_deduct_credits.py:150-178 | the loop messages every human owner and administrator, in list order |
| TryDeductCredits.HandleDeactivation | src/app/handlers/try_deduct_credits.py:50-73 | moderation is switched off first; without a title nothing is sent; otherwise admins are notified exactly when some human admin has a stored row, and the promoted one has the smallest balance; no other table changes |
| TryDeductCredits.TryDeductCredits | src/app/handlers/try_deduct_credits.py:24-47 | a zero amount succeeds and changes nothing; when no admin of the group can pay, it fails and switches moderation off; success means one admin of the group who could pay was charged, with a matching deduction transaction; a group that can pay, with no admin id 0, succeeds |
| LogHandler.Escape | src/app/common/telegram_logging_handler.py:114 | escaping never shortens a text |
| LogHandler.EscapeHasNoTags | src/app/common/telegram_logging_handler.py:114-124 | escaped text holds no raw angle brackets, so a record cannot inject markup |
| LogHandler.Clip | src/app/common/telegram_logging_handler.py:115-128 | a text that fits is kept; a longer one becomes its first n-1 characters plus an ellipsis, exactly n long |
| LogHandler.Body | src/app/common/telegram_logging_handler.py:113-116 | the body never exceeds MAX_MESSAGE_BODY (3600), and an escaped record that fits is kept whole |
| LogHandler.RenderMessage | src/app/common/telegram_logging_handler.py:112-129 | a rendered message never exceeds MAX_TELEGRAM_LENGTH (4096) |
| LogHandler.RenderedShape | src/app/common/telegram_logging_handler.py:112-129 | with a short header, the message opens with the bold escaped level name and ends with the closing pre tag |
| LogHandler.AppendBounded | src/app/common/telegram_logging_handler.py:40-41 | a bounded deque never exceeds its maxlen, appends when there is room, and always ends with the new item |
| LogHandler.Evict | src/app/common/telegram_logging_handler.py:159-165 | eviction drops only from the oldest end, and the oldest timestamp kept is inside the window |
| LogHandler.EvictSorted | src/app/common/telegram_logging_handler.py:159-165 | on ordered timestamps, exactly those inside the window are kept |
| LogHandler.Enqueued | src/app/common/telegram_logging_handler.py:78-95 | enqueuing keeps the deque bounds and never registers a loop |
| LogHandler.Flushed | src/app/common/telegram_logging_handler.py:57-58 | replaying a list keeps the deque bounds |
| LogHandler.EnqueueSends | src/app/common/telegram_logging_handler.py:78-95 | without a loop the text is only buffered; with one, it is sent exactly when it is no duplicate and the throttle admits it, and at most that one text is sent |
| LogHandler.DuplicateDropped | src/app/common/telegram_logging_handler.py:171-176 | the same text sent again inside the dedupe window changes nothing |
| LogHandler.FlushedSends | src/app/common/telegram_logging_handler.py:57-58 | replaying with a loop buffers nothing and only appends to what was sent, at most one send per text |
| LogHandler.EventLoopEmptiesBuffer | src/app/common/telegram_logging_handler.py:47-58 | after set_event_loop the buffer is empty and at most the buffered texts were sent, after the earlier ones |
| LogHandler.TelegramLogHandler.constructor | src/app/common/telegram_logging_handler.py:26-45 | a new handler has no loop, nothing buffered or sent, and the given settings |
| LogHandler.TelegramLogHandler.ShouldDedupe | src/app/common/telegram_logging_handler.py:171-176 | true exactly for the same non-empty text as the last send inside the dedupe window |
| LogHandler.TelegramLogHandler.AllowThroughput | src/app/common/telegram_logging_handler.py:159-169 | only stale timestamps are evicted, and a send is admitted exactly when the evicted deque has room or maxlen is 0 |
| LogHandler.TelegramLogHandler.Enqueue | src/app/common/telegram_logging_handler.py:78-110 | the new state is the enqueue specification, whose send rules EnqueueSends states |
| LogHandler.TelegramLogHandler.Emit | src/app/common/telegram_logging_handler.py:60-76 | records from the handler's own module change nothing; others are enqueued |
| LogHandler.TelegramLogHandler.SetEventLoop | src/app/common/telegram_logging_handler.py:47-58 | the new state is the replay specification, whose rules EventLoopEmptiesBuffer states |
| LogHandler.RepeatedErrorDeliveredOnce | src/app/common/telegram_logging_handler.py:86-95 | with default windows, a text logged twice within 15 seconds is sent once |
| LogHandler.FlushedOne | src/app/common/telegram_logging_handler.py:57-58 | replaying one text is enqueuing it |
| LogHandler.FreshSent | src/app/common/telegram_logging_handler.py:86-95 | a non-duplicate text with room in the throttle is sent and becomes the last text |
| LogHandler.TwoBufferedReplayed | src/app/common/telegram_logging_handler.py:47-58 | two distinct buffered texts are sent in order once the loop is set |
| LogHandler.BufferedUntilLoop | src/app/common/telegram_logging_handler.py:47-76 | records logged before the loop exists are not sent, then are sent in order once it is set |
| Validation.EffectiveUserCases | src/app/handlers/message/validation.py:20-37 | a sender chat other than the group itself is the effective user; otherwise the sender user is; there is none exactly when neither applies |
| Validation.DetermineEffectiveUserId | src/app/handlers/message/validation.py:20-37 | the sender chat when it is not the group itself, else the sending user, else none (proved in Validation.EffectiveUserCases) |
| Validation.IsAdminPostingAsGroup | src/app/handlers/message/validation.py:130-140 | the sender chat is the group itself; such a message is always skipped (Validation.SkipRules) |
| Validation.IsChannelBotInDiscussion | src/app/handlers/message/validation.py:161-178 | the sender chat is the known linked chat; such a message is skipped (Validation.SkipRules) |
| Validation.ShouldAttemptApiFetch | src/app/handlers/message/validation.py:181-198 | the linked chat is unknown, the group is a supergroup and the sender chat a channel; the Bot API is asked only then (Validation.SkipRules) |
| Validation.SkipRules | src/app/handlers/message/validation.py:77-198 | a message without a sender chat is never skipped; an admin posting as the group is; otherwise it is skipped exactly when the sender chat is the linked channel, either as reported or as fetched when the fetch rule applies; a skip always carries a reason |
| Validation.CheckSkipChannelBotMessage | src/app/handlers/message/validation.py:77-127 | never a skip without a sender chat; the anonymous admin first; otherwise a skip exactly for the linked channel, as reported or as fetched; a skip always has a reason (proved in Validation.SkipRules) |
| Validation.EarlyExitRules | src/app/handlers/message/validation.py:40-74 | an unknown group, disabled moderation, an admin sender and a known member each stop with their own reason, in that order; processing goes on exactly when none applies, with the stored group |
| Validation.GetAndCheckGroup | src/app/handlers/message/validation.py:201-221 | an unknown group and a group with moderation off stop with their reasons and no row; any other group goes on with its row (proved through Validation.EarlyExitRules) |
| Validation.ValidateGroupAndCheckEarlyExits | src/app/handlers/message/validation.py:40-74 | the four early exits in order, and going on exactly when none applies (proved in Validation.EarlyExitRules) |
| HandleSpam.CheckAdminDeletePreferences | src/app/handlers/handle_spam.py:74-94 | true exactly when the group is known and every admin of it is stored with auto-delete on |
| HandleSpam.KeyboardShape | src/app/handlers/handle_spam.py:97-131 | one row: empty without a sender; delete and not-spam buttons without auto-delete; only not-spam with it; the callbacks name the sender, chat and message |
| HandleSpam.CreateAdminNotificationKeyboard | src/app/handlers/handle_spam.py:97-131 | one row of buttons, empty without a sender; delete and not-spam without auto-delete, only not-spam with it (proved in HandleSpam.KeyboardShape and the two callback lemmas) |
| HandleSpam.DeleteCallbackFields | src/app/handlers/handle_spam.py:117 | the delete callback splits on ':' into its action and three ids, which parse back to the ids |
| HandleSpam.NotSpamCallbackFields | src/app/handlers/handle_spam.py:121-128 | the not-spam callback splits on ':' into its action and two ids, which parse back to the ids |
| HandleSpam.NoticeShape | src/app/handlers/handle_spam.py:134-177 | without a sender the notice is the error text; otherwise it opens with the alert header, quotes the message text, and ends with the outcome line and the footer link |
| HandleSpam.FormatAdminNotificationMessage | src/app/handlers/handle_spam.py:134-177 | the error text without a sender; otherwise the alert header, the quoted content and the outcome line with the footer link (proved in HandleSpam.NoticeShape) |
| HandleSpam.AdminIdList | src/app/handlers/handle_spam.py:199 | the admin id list holds each admin of the group exactly once |
| HandleSpam.NotifyAdmins | src/app/handlers/handle_spam.py:180-209 | nothing is attempted without a sender or for an unknown group; otherwise the notice counts as sent exactly when some admin got it in private or the group message went out; the private and unreachable sets split the admins by delivery, and every admin reached in private receives format_admin_notification_message for the message and the auto-delete flag, and nothing else |
| HandleSpam.BanUserForSpam | src/app/handlers/handle_spam.py:253-272 | the sender leaves the approved members of that group whether or not the ban succeeds; nothing else changes |
| HandleSpam.HandleSpam | src/app/handlers/handle_spam.py:32-71 | no sender gives spam_no_user_info and no change; with auto-delete everywhere the deletion runs and, unless it raised, the sender is banned and removed from approved members and the tag is spam_auto_deleted; an exception other than TelegramBadRequest from the deletion step escapes with no ban, no removal and no tag; otherwise no table the model holds changes (the group cleanup is not modelled) and the tag says whether admins were notified |
| Pipeline.ProcessSpamOrApprove | src/app/handlers/message/pipeline.py:116-146 | scores above 50 pay DELETE_PRICE and go to handle_spam, whose exception passes through; others pay APPROVE_PRICE and approve the sender; a group that cannot pay gets message_insufficient_credits with moderation off, and one that can never does |
| Pipeline.FiftyIsApproved | src/app/handlers/message/pipeline.py:139 | a score of exactly 50 is not spam and costs the approve price; 51 is spam |
| Pipeline.ScoreOf | src/app/handlers/message/pipeline.py:75-93 | a story scores 100; otherwise there is a score exactly when the classifier returned one |
| Pipeline.HandleModeratedMessage | src/app/handlers/message/pipeline.py:29-113 | each early exit (no sender, group checks, channel-bot skip, no score) returns its tag and changes nothing; approval means the message was admitted with a score of at most 50 and the sender became a member; a spam tag means a score above 50; a group that can pay gets the action its score calls for |
| MessageContext.ReplyContextCases | src/app/spam/message_context.py:75-92 | a message that is not a reply has no reply context; a reply gives its text, else its caption, else the media placeholder |
| MessageContext.ExtractReplyContext | src/app/spam/message_context.py:75-92 | none for a message that is not a reply; else the replied text, its caption, or the media placeholder (proved in MessageContext.ReplyContextCases) |
| MessageContext.BuildForwardInfo | src/app/spam/message_context.py:205-248 | the forward items are those the origin rules give, the text is the content text followed by them, and it is a story exactly when the message carries one |
| MessageContext.ForwardItemsCases | src/app/spam/message_context.py:218-243 | there are no items exactly without a forward, story or posting channel; at most four; a user forward comes first; a story always shows its origin |
| MessageContext.ForwardTextKeepsMessage | src/app/spam/message_context.py:245-246 | the message text is kept as the prefix, unchanged when there is nothing to add, and followed by the forward marker and the first item otherwise |
| MessageContext.GetSenderInfo | src/app/spam/message_context.py:95-118 | a user sender gives its full name and the bio get_user_bio returns for its id; a user context without a sender is named Unknown with no bio; a channel context keeps its bio and is named by its name when that is truthy, else "Channel" |
| MessageContext.ClassificationContextFromSender | src/app/spam/message_context.py:138-168 | the context carries the reply context, and the reply guidance shows exactly when there is one; a user context takes the name, bio and the user's lookups, each guidance showing exactly when its lookup found or ruled something out; a channel context keeps its own fields |
| MessageContext.CreateClassificationContext | src/app/spam/message_context.py:138-168 | the reply context is carried, and each guidance flag follows its lookup (proved in MessageContext.ClassificationContextFromSender) |
| MessageContext.GetSpamScoreAndBio | src/app/spam/message_context.py:43-72 | a story scores 100 with no bio and the story reason; otherwise the bio is the sender's, and the score and reason are the classifier's answer on the text and the context built from the sender and the reply |
| MessageContext.AnalyzeMessageContent | src/app/spam/message_context.py:23-40 | the text carries the forward info; a story scores 100 without a bio; any other message gets the classifier's score and reason on the text and the context built from its sender and reply, and the sender's bio |

## Left out

- Sending, deleting, banning and every other Bot API or MTProto call is not performed. Each call's answer is a parameter, and the model states what follows from each answer.
- Logging, Mixpanel tracking, tracing spans (`get_root_span`, `track_*`) and the analytics of `track_spam_check_result` have no effect on the outcome and are not modelled.
- Threading locks, `asyncio` scheduling and the send-failure callbacks of the log handler are not modelled. A scheduled send is an entry in `outbox`, and the monotonic clock is one integer reading per call.
- `config.yaml` is not part of this model. The constants take the fallbacks of src/app/database/constants.py: 100 initial credits, and prices of 0, 1 and 1.
- The referral commission rate is an integer percentage, not a float. Python floats in JSON answers and in `spam_score: float` are integers here.
- `json.loads` is not modelled. The decoded value, or None when decoding fails, is passed next to the raw text.
- The rate-limit sleep of the older classifier's retry loop is not modelled. That loop can run forever while the model keeps answering with rate-limit or location errors. CommonSpamClassifier.IsSpam therefore stops with an undecided result once the given sequence of call outcomes runs out.
- Only the heading of each guidance block is modelled; the prose under the headings is not part of this model.
- `str.lower` lower-cases ASCII and basic Cyrillic letters only. Case-insensitive regex matching is written out per pattern: `t.me` in either case, and the username class with the four non-ASCII letters Python's case folding adds. Whitespace, for `strip`, `split` and `\s`, is the set `str.isspace` accepts. `int()` accepts only an optional sign and ASCII digits, so it rejects underscores, non-ASCII digits and surrounding whitespace.
- `clean_alert_text`, which spam_examples.py imports, is not part of this model. It is a function parameter `clean` of SpamExamples.AddSpamExample.
- SpamExamples.RemoveSpamExample matches the text as given, while add_spam_example stores the cleaned text. As in the bot, removing an example whose text cleaning changes deletes nothing.
- The ordering results assume rows are stored in non-decreasing `created_at` order. That is what one clock gives. SQL's order among rows with equal `created_at` is left unspecified by the bot; the model uses insertion order.
- MessageOperations.SaveMessage: for an admin without an `administrators` row, the bot's insert raises a foreign-key error that is not caught. The model reports this as `false` with nothing changed, which is what the rolled-back transaction leaves.
- save_admin, get_admin, get_group, get_paying_admins, get_admin_groups and is_member_in_group are plain row reads and upserts. They are read from the `Db` fields and not modelled as operations of their own.
- The Mixpanel profile updates of update_group_admins are not modelled.
- The iteration order of Python sets and of the `group_administrators` query is not fixed. HandleSpam.AdminIdList and the notification loop are proved for any order.
- pipeline.py imports `determine_effective_user_id` from common/utils.py, which does not define it. The model uses the one in handlers/message/validation.py.
- pipeline.py imports `collect_message_context` from spam/message_context.py, which does not define it. Its result (`MessageContextResult`) is a parameter of Pipeline.HandleModeratedMessage.
- pipeline.py unpacks three values from `is_spam`, whose signature returns two. The classifier's answer is a parameter with a score, a confidence and a reason.
- CommonSpamClassifier.IsSpam: spam_classifier.py calls `get_openrouter_response(messages, temperature=0.0)`, but llms.py defines it with `messages` only. As written, every call raises TypeError, which the generic handler counts, so is_spam always ends in failure after MAX_RETRIES attempts. The model takes the call outcomes as a parameter and also covers answers the call would give if it accepted the keyword; CommonSpamClassifier.ThreeFailuresGiveUp is the as-written case.
- pipeline.py calls `handle_spam` with four arguments, but `handle_spam` takes only the message. The model calls it on the message alone.
- Pipeline.ProcessSpamOrApprove: deduct_credits_from_admins reports failure as admin id 0, so a successful charge of an admin whose id is 0 would read as failure. The guarantee that a group able to pay is charged therefore assumes no admin of it has id 0.
- For a chat without a username, the message link in the spam notice prints "None", as the bot's f-string does.
- `create_classification_context` assigns the reply context into the channel sender's context object. The model returns the updated value instead.
- The deletion in handle_spam_message_deletion and the cleanup in cleanup_inaccessible_group are answers passed in (`delete`, `cleanupOk`). Only their results are modelled. The deletion answer tells a deleted message, a TelegramBadRequest, which is swallowed, and any other exception, which escapes handle_spam.
- cleanup_inaccessible_group is imported by notifications.py and handle_spam.py from group_operations.py, which does not define it, so what it would delete is unknown. Its effect on the database is not modelled: HandleSpam.HandleSpam and Notifications.NotifyAdminsWithFallbackAndCleanup leave the group and its admins in place when cleanup is reported as done.
- src/app/spam/spam_classifier.py passes `include_*` arguments that build_system_prompt does not accept. That call site is not modelled; PromptBuilder.BuildSystemPrompt takes the context its own signature names.
- Three tests assert behaviour the code does not have, and the model follows the code: a `skip_auto_delete` pipeline path, a permission notification in the spam handler, and a `delete_spam` default of False.
- LlmClient.ParseJson: with a truthy `is_spam`, the bot returns a non-numeric confidence (a string, null, a list or an object) unchanged as the score. Scores here are integers, so the model gives None for it and the response falls to the legacy parser. With a falsy `is_spam`, negating such a confidence raises TypeError, which is caught, and the bot returns None as the model does.
- GroupOperations.AddMember: for an unknown group the bot's insert raises a foreign-key error that add_member does not catch. The model reports `false` with nothing changed, which is what the rolled-back insert leaves.
- MtprotoUtils.GetMtprotoChatIdentifier: it uses the corrected id conversion, as does the rest of the model. The identifier the bot computes is MtprotoUtils.GetMtprotoChatIdentifierAsWritten.
- Text that is not a string cannot reach ChannelMention.ExtractFirstChannelMention in the typed model; only the empty text is handled.

## Findings

| source | as written | input that shows it | evidently intended | confidence | as-written member | corrected member |
|---|---|---|---|---|---|---|
| src/app/common/mtproto_utils.py:38-43 | a negative id whose decimal form starts with "-100" is read as a channel, and the prefix is cut off | -1001234, the basic group 1001234, becomes 1234; -100, the basic group 100, makes `int("")` raise ValueError | ids below -1000000000000 are channels (subtract the offset); other negative ids are basic groups (drop the sign) | not executed | MtprotoUtils.BotApiChatIdToMtprotoAsWritten | MtprotoUtils.BotApiChatIdToMtproto |
