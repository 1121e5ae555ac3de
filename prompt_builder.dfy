/**
 * The classification prompt (src/app/spam/prompt_builder.py): the system prompt a
 * SpamPromptBuilder assembles from guidance blocks and database examples, and the
 * request text that carries the message and its context sections.
 */
module PromptBuilder {
  import opened Text
  import opened Types
  import Database

  /** The fixed prose blocks of the system prompt, one per builder method. */
  datatype Guidance =
    | BaseInstructions | UserInfoGuidance | LinkedChannelGuidance | StoriesGuidance
    | AccountAgeGuidance | ReplyContextGuidance | AiGeneratedContentGuidance
    | KnowledgeSharingGuidance | ResponseFormat

  /** One entry of `prompt_parts`: a guidance block, or one worked example. */
  datatype PromptPart =
    | Block(kind: Guidance)
    | ExamplePart(request: string, isSpam: bool, confidence: nat)

  /** The heading of each block; the prose under the headings is not part of this model. */
  function GuidanceText(g: Guidance): string {
    match g
    case BaseInstructions => "You are a spam message classifier for Telegram groups."
    case UserInfoGuidance => "\n## USER INFORMATION ANALYSIS"
    case LinkedChannelGuidance => "\n## LINKED CHANNEL ANALYSIS"
    case StoriesGuidance => "\n## USER STORIES ANALYSIS"
    case AccountAgeGuidance => "\n## ACCOUNT AGE ANALYSIS"
    case ReplyContextGuidance => "\n## DISCUSSION CONTEXT ANALYSIS"
    case AiGeneratedContentGuidance => "\n## AI-GENERATED CONTENT & EMOJI DETECTION"
    case KnowledgeSharingGuidance => "\n## KNOWLEDGE SHARING & BAIT DETECTION"
    case ResponseFormat => "\n## RESPONSE FORMAT\n\n## SPAM CLASSIFICATION EXAMPLES"
  }

  /** An example: its request followed by the JSON answer the model should give. */
  function RenderPart(p: PromptPart): string {
    match p
    case Block(g) => GuidanceText(g)
    case ExamplePart(request, isSpam, confidence) =>
      "\n" + request + "\n<ответ>\n{\n    \"is_spam\": " + (if isSpam then "true" else "false")
      + ",\n    \"confidence\": " + NatToString(confidence) + "\n}\n</ответ>"
  }

  function RenderParts(ps: seq<PromptPart>): (r: seq<string>)
    ensures |r| == |ps|
  {
    if ps == [] then [] else [RenderPart(ps[0])] + RenderParts(ps[1..])
  }

  /** SpamPromptBuilder.build: the parts joined by newlines. */
  function BuildText(ps: seq<PromptPart>): string {
    Join("\n", RenderParts(ps))
  }

  // ---------------------------------------------------------------------------
  // Context sections and the request

  /** The phrase an EMPTY section shows, by section name. */
  function EmptyPhrase(sectionName: string): string {
    if sectionName == "LINKED CHANNEL INFO" then "no channel linked"
    else if sectionName == "USER STORIES CONTENT" then "no stories posted"
    else if sectionName == "ACCOUNT AGE INFO" then "no photo on the account"
    else "no data available"
  }

  const FAILED_PREFIX := "verification failed: "

  /** What a written section says under its name, by status. */
  function SectionBody(sectionName: string, r: ContextResult<string>): string {
    match r.status
    case Empty => EmptyPhrase(sectionName)
    case Failed => FAILED_PREFIX + PyStr(r.error)
    case _ => if Truthy(r.content) then r.content.value else ""
  }

  /** _format_context_section, on a result whose content is already rendered to text. */
  function FormatContextSection(sectionName: string, r: Option<ContextResult<string>>): string {
    if r.None? || r.value.status == Skipped then ""
    else sectionName + ":\n" + SectionBody(sectionName, r.value) + "\n\n"
  }

  /**
   * A section is written exactly when its lookup ran and was not SKIPPED; a written
   * section opens with its name and ends with a blank line; a FAILED one names the error.
   */
  lemma SectionShape(sectionName: string, r: Option<ContextResult<string>>)
    ensures FormatContextSection(sectionName, r) == "" <==> r.None? || r.value.status == Skipped
    ensures FormatContextSection(sectionName, r) != "" ==>
      var s := FormatContextSection(sectionName, r);
      StartsWith(s, sectionName + ":\n") && |s| >= 2 && s[|s| - 2..] == "\n\n"
    ensures r.Some? && r.value.status == Failed ==>
      FormatContextSection(sectionName, r) == sectionName + ":\n" + FAILED_PREFIX + PyStr(r.value.error) + "\n\n"
  {
    if r.Some? && r.value.status != Skipped {
      var head, body := sectionName + ":\n", SectionBody(sectionName, r.value);
      AppendAssoc(head, body, "\n\n");
      Bracketed(head, body, "\n\n");
      if r.value.status == Failed {
        AppendAssoc(head, FAILED_PREFIX, PyStr(r.value.error));
      }
    }
  }

  /** An EMPTY section of an unknown name falls back to "no data available". */
  lemma EmptyPhraseFallback(sectionName: string)
    requires sectionName !in {"LINKED CHANNEL INFO", "USER STORIES CONTENT", "ACCOUNT AGE INFO"}
    ensures FormatContextSection(sectionName, Some(ContextResult(Empty, None, None)))
      == sectionName + ":\n" + "no data available" + "\n\n"
  {
  }

  /** The linked-channel section: its summary rendered as a prompt fragment. */
  function LinkedSection(c: SpamClassificationContext): string {
    FormatContextSection("LINKED CHANNEL INFO",
      if c.linkedChannel.Some? then Some(MapContent(c.linkedChannel.value, LinkedFragment)) else None)
  }

  function StoriesSection(c: SpamClassificationContext): string {
    FormatContextSection("USER STORIES CONTENT", c.stories)
  }

  /** The account-age section; the photo age is computed against `now`. */
  function AccountAgeSection(c: SpamClassificationContext, now: YearMonth): string {
    FormatContextSection("ACCOUNT AGE INFO",
      if c.accountAge.Some? then Some(MapContent(c.accountAge.value, (i: UserAccountInfo) => AccountFragment(i, now)))
      else None)
  }

  const MESSAGE_HEADER := "MESSAGE TO CLASSIFY (Analyze this content):"
  const EMPTY_REPLY := "[EMPTY]"
  const EMPTY_REPLY_SECTION := "REPLY CONTEXT (Original post being replied to):\n[checked, none found]\n\n"

  /** The fenced message block. */
  function MessageBlock(text: string): string {
    ">>> BEGIN MESSAGE\n" + text + "\n<<< END MESSAGE"
  }

  const REPLY_HEADER := "REPLY CONTEXT (The post the user is replying to - DO NOT CLASSIFY THIS):\n>>> BEGIN CONTEXT\n"

  function ReplySection(reply: string): string {
    if reply == EMPTY_REPLY then EMPTY_REPLY_SECTION else REPLY_HEADER + reply + "\n<<< END CONTEXT\n\n"
  }

  /** The entries of `request_parts`, from the already rendered pieces. */
  function Assemble(message: string, name: Option<string>, bio: Option<string>,
                    linked: string, stories: string, age: string, reply: Option<string>): seq<string>
  {
    [MESSAGE_HEADER, message, ""]
    + (if Truthy(name) then ["USER NAME:\n" + name.value, ""] else [])
    + (if Truthy(bio) then ["USER BIO:\n" + bio.value, ""] else [])
    + [linked, stories, age]
    + (if reply.Some? then [ReplySection(reply.value)] else [])
  }

  /** The entries of `request_parts` in format_spam_request. */
  function RequestParts(text: string, c: SpamClassificationContext, now: YearMonth): seq<string> {
    Assemble(MessageBlock(text), c.name, c.bio, LinkedSection(c), StoriesSection(c), AccountAgeSection(c, now), c.reply)
  }

  /** Where each piece lands in the assembled entries. */
  lemma AssembleLayout(message: string, name: Option<string>, bio: Option<string>,
                       linked: string, stories: string, age: string, reply: Option<string>)
    ensures var p := Assemble(message, name, bio, linked, stories, age, reply);
      var k := 3 + (if Truthy(name) then 2 else 0) + (if Truthy(bio) then 2 else 0);
      && |p| == k + 3 + (if reply.Some? then 1 else 0)
      && p[0] == MESSAGE_HEADER && p[1] == message && p[2] == ""
      && (Truthy(name) ==> p[3] == "USER NAME:\n" + name.value && p[4] == "")
      && (Truthy(bio) ==> p[k - 2] == "USER BIO:\n" + bio.value && p[k - 1] == "")
      && p[k] == linked && p[k + 1] == stories && p[k + 2] == age
      && (reply.Some? ==> p[k + 3] == ReplySection(reply.value))
  {
  }

  /** format_spam_request; a missing context is the empty one. */
  function FormatSpamRequest(text: string, context: Option<SpamClassificationContext>, now: YearMonth): string {
    Join("\n", RequestParts(text, if context.Some? then context.value else EmptyContext, now))
  }

  /** The request always opens with the header and the fenced message. */
  lemma RequestOpensWithMessage(text: string, context: Option<SpamClassificationContext>, now: YearMonth)
    ensures StartsWith(FormatSpamRequest(text, context, now), MESSAGE_HEADER + "\n" + MessageBlock(text) + "\n")
  {
    var c := if context.Some? then context.value else EmptyContext;
    var p := RequestParts(text, c, now);
    var rest := Join("\n", p[2..]);
    assert Join("\n", p) == p[0] + "\n" + (p[1] + "\n" + rest) by {
      assert Join("\n", p[1..]) == p[1] + "\n" + Join("\n", p[1..][1..]);
      assert p[1..][1..] == p[2..];
    }
    var pre := MESSAGE_HEADER + "\n" + MessageBlock(text) + "\n";
    assert p[0] + "\n" + (p[1] + "\n" + rest) == pre + rest;
    assert (pre + rest)[..|pre|] == pre;
  }

  /**
   * The layout of the request: name and bio (each followed by a blank entry)
   * only when truthy, then the linked-channel, stories and account-age sections
   * in that order, then the reply section when a reply is known.
   */
  lemma RequestLayout(text: string, c: SpamClassificationContext, now: YearMonth)
    ensures var p := RequestParts(text, c, now);
      var k := 3 + (if Truthy(c.name) then 2 else 0) + (if Truthy(c.bio) then 2 else 0);
      && |p| == k + 3 + (if c.reply.Some? then 1 else 0)
      && (Truthy(c.name) ==> p[3] == "USER NAME:\n" + c.name.value)
      && (Truthy(c.bio) ==> p[k - 2] == "USER BIO:\n" + c.bio.value)
      && p[k] == LinkedSection(c) && p[k + 1] == StoriesSection(c) && p[k + 2] == AccountAgeSection(c, now)
      && (c.reply.Some? ==> p[k + 3] == ReplySection(c.reply.value))
  {
    AssembleLayout(MessageBlock(text), c.name, c.bio, LinkedSection(c), StoriesSection(c), AccountAgeSection(c, now), c.reply);
  }

  /** A reply of "[EMPTY]" reads "[checked, none found]"; any other reply is fenced. */
  lemma ReplyRendering(reply: string)
    ensures reply == EMPTY_REPLY ==> ReplySection(reply) == EMPTY_REPLY_SECTION
    ensures reply != EMPTY_REPLY ==> ReplySection(reply) != EMPTY_REPLY_SECTION
  {
    if reply != EMPTY_REPLY {
      var s := ReplySection(reply);
      assert |s| > |EMPTY_REPLY_SECTION|;
    }
  }

  // ---------------------------------------------------------------------------
  // Examples and the system prompt

  /** The classification context an example row carries: its name and bio only. */
  function ExampleContext(row: Database.ExampleRow): SpamClassificationContext {
    SpamClassificationContext(row.name, row.bio, None, None, None, None)
  }

  function Abs(n: int): nat {
    if n < 0 then -n else n
  }

  /** The prompt entry add_spam_examples writes for one example row. */
  function ExampleOf(row: Database.ExampleRow, now: YearMonth): PromptPart {
    ExamplePart(FormatSpamRequest(row.text, Some(ExampleContext(row)), now), row.score > 0, Abs(row.score))
  }

  /** The entries for a list of example rows; a failed load (None) adds none. */
  function ExampleParts(rows: Option<seq<Database.ExampleRow>>, now: YearMonth): (r: seq<PromptPart>)
    ensures rows.None? ==> r == []
    ensures rows.Some? ==> |r| == |rows.value|
  {
    if rows.None? then [] else ExamplesOf(rows.value, now)
  }

  function ExamplesOf(rows: seq<Database.ExampleRow>, now: YearMonth): (r: seq<PromptPart>)
    ensures |r| == |rows|
  {
    if rows == [] then [] else ExamplesOf(rows[..|rows| - 1], now) + [ExampleOf(rows[|rows| - 1], now)]
  }

  /** Example `i` is marked spam iff its score is positive and carries the score's magnitude. */
  lemma {:induction false} ExamplesOfAt(rows: seq<Database.ExampleRow>, now: YearMonth, i: nat)
    requires i < |rows|
    ensures ExamplesOf(rows, now)[i].ExamplePart?
    ensures ExamplesOf(rows, now)[i].isSpam <==> rows[i].score > 0
    ensures ExamplesOf(rows, now)[i].confidence as int == if rows[i].score < 0 then -rows[i].score else rows[i].score
    ensures ExamplesOf(rows, now)[i].request == FormatSpamRequest(rows[i].text, Some(ExampleContext(rows[i])), now)
  {
    if i < |rows| - 1 {
      ExamplesOfAt(rows[..|rows| - 1], now, i);
      assert rows[..|rows| - 1][i] == rows[i];
    }
  }

  /** The builder of the system prompt. */
  class SpamPromptBuilder {
    var promptParts: seq<PromptPart>

    constructor()
      ensures promptParts == []
    {
      promptParts := [];
    }

    /** build_base_instructions and the add_*_guidance / add_response_format methods. */
    method AddGuidance(g: Guidance)
      modifies this
      ensures promptParts == old(promptParts) + [Block(g)]
    {
      promptParts := promptParts + [Block(g)];
    }

    /** add_spam_examples: one entry per row, in the order the rows come; a failed load adds nothing. */
    method AddSpamExamples(rows: Option<seq<Database.ExampleRow>>, now: YearMonth)
      modifies this
      ensures promptParts == old(promptParts) + ExampleParts(rows, now)
    {
      if rows.None? {
        return;
      }
      var examples := rows.value;
      for i := 0 to |examples|
        invariant promptParts == old(promptParts) + ExamplesOf(examples[..i], now)
      {
        promptParts := promptParts + [ExampleOf(examples[i], now)];
        assert examples[..i + 1][..i] == examples[..i];
      }
      assert examples[..|examples|] == examples;
    }

    function Build(): string
      reads this
    {
      BuildText(promptParts)
    }
  }

  function Opt(flag: bool, g: Guidance): seq<PromptPart> {
    if flag then [Block(g)] else []
  }

  /** The guidance blocks for the five flags, in the order build_system_prompt adds them. */
  function Blocks(linked: bool, stories: bool, age: bool, reply: bool, ai: bool): seq<PromptPart> {
    [Block(BaseInstructions), Block(UserInfoGuidance)]
    + Opt(linked, LinkedChannelGuidance) + Opt(stories, StoriesGuidance) + Opt(age, AccountAgeGuidance)
    + Opt(reply, ReplyContextGuidance) + Opt(ai, AiGeneratedContentGuidance) + Opt(ai, KnowledgeSharingGuidance)
    + [Block(ResponseFormat)]
  }

  function GuidanceBlocks(c: SpamClassificationContext): seq<PromptPart> {
    Blocks(IncludeLinkedChannelGuidance(c), IncludeStoriesGuidance(c), IncludeAccountAgeGuidance(c),
           IncludeReplyGuidance(c), IncludeAiDetectionGuidance(c))
  }

  /** The entries build_system_prompt writes, in order. */
  function SystemPromptParts(c: SpamClassificationContext, rows: Option<seq<Database.ExampleRow>>, now: YearMonth): seq<PromptPart> {
    GuidanceBlocks(c) + ExampleParts(rows, now)
  }

  /**
   * build_system_prompt. The examples get_spam_examples returns for the admins are
   * the parameter `rows`; None stands for a failed load, which the bot logs and skips.
   */
  method BuildSystemPrompt(context: Option<SpamClassificationContext>, rows: Option<seq<Database.ExampleRow>>, now: YearMonth)
    returns (prompt: string)
    ensures prompt == BuildText(SystemPromptParts(if context.Some? then context.value else EmptyContext, rows, now))
  {
    var builder := new SpamPromptBuilder();
    builder.AddGuidance(BaseInstructions);
    builder.AddGuidance(UserInfoGuidance);
    var c := if context.Some? then context.value else EmptyContext;
    var linked, stories, age, reply, ai :=
      IncludeLinkedChannelGuidance(c), IncludeStoriesGuidance(c), IncludeAccountAgeGuidance(c),
      IncludeReplyGuidance(c), IncludeAiDetectionGuidance(c);
    ghost var expected := [Block(BaseInstructions), Block(UserInfoGuidance)];
    if linked {
      builder.AddGuidance(LinkedChannelGuidance);
    }
    expected := expected + Opt(linked, LinkedChannelGuidance);
    assert builder.promptParts == expected;
    if stories {
      builder.AddGuidance(StoriesGuidance);
    }
    expected := expected + Opt(stories, StoriesGuidance);
    assert builder.promptParts == expected;
    if age {
      builder.AddGuidance(AccountAgeGuidance);
    }
    expected := expected + Opt(age, AccountAgeGuidance);
    assert builder.promptParts == expected;
    if reply {
      builder.AddGuidance(ReplyContextGuidance);
    }
    expected := expected + Opt(reply, ReplyContextGuidance);
    assert builder.promptParts == expected;
    if ai {
      builder.AddGuidance(AiGeneratedContentGuidance);
      builder.AddGuidance(KnowledgeSharingGuidance);
    }
    expected := expected + Opt(ai, AiGeneratedContentGuidance) + Opt(ai, KnowledgeSharingGuidance);
    assert builder.promptParts == expected;
    builder.AddGuidance(ResponseFormat);
    assert builder.promptParts == Blocks(linked, stories, age, reply, ai);
    builder.AddSpamExamples(rows, now);
    prompt := builder.Build();
  }

  /** The number of guidance blocks before the examples. */
  function BlockCount(c: SpamClassificationContext): nat {
    3 + (if IncludeLinkedChannelGuidance(c) then 1 else 0) + (if IncludeStoriesGuidance(c) then 1 else 0)
    + (if IncludeAccountAgeGuidance(c) then 1 else 0) + (if IncludeReplyGuidance(c) then 1 else 0)
    + (if IncludeAiDetectionGuidance(c) then 2 else 0)
  }

  /**
   * The base instructions and the user-info guidance open every system prompt,
   * the response format closes the guidance, and the examples follow it, one per
   * row, each marked spam iff its score is positive with confidence `|score|`.
   */
  lemma SystemPromptFrame(c: SpamClassificationContext, rows: Option<seq<Database.ExampleRow>>, now: YearMonth)
    ensures var p := SystemPromptParts(c, rows, now);
      && |p| == BlockCount(c) + (if rows.Some? then |rows.value| else 0)
      && p[0] == Block(BaseInstructions) && p[1] == Block(UserInfoGuidance)
      && p[BlockCount(c) - 1] == Block(ResponseFormat)
      && p[BlockCount(c)..] == ExampleParts(rows, now)
    ensures forall i :: 0 <= i < BlockCount(c) ==> SystemPromptParts(c, rows, now)[i].Block?
  {
    var b := GuidanceBlocks(c);
    BlocksFrame(IncludeLinkedChannelGuidance(c), IncludeStoriesGuidance(c), IncludeAccountAgeGuidance(c),
                IncludeReplyGuidance(c), IncludeAiDetectionGuidance(c));
    var p := SystemPromptParts(c, rows, now);
    assert p[..|b|] == b && p[|b|..] == ExampleParts(rows, now);
  }

  /** Blocks only, opening with the base instructions and the user-info guidance. */
  ghost predicate OpensWithBase(p: seq<PromptPart>) {
    && |p| >= 2 && p[0] == Block(BaseInstructions) && p[1] == Block(UserInfoGuidance)
    && forall i :: 0 <= i < |p| ==> p[i].Block?
  }

  lemma OpensWithBaseGrows(p: seq<PromptPart>, flag: bool, g: Guidance)
    requires OpensWithBase(p)
    ensures OpensWithBase(p + Opt(flag, g)) && |p + Opt(flag, g)| == |p| + (if flag then 1 else 0)
  {
  }

  /** The guidance blocks open with the base instructions and the user-info guidance and close with the response format. */
  lemma BlocksFrame(linked: bool, stories: bool, age: bool, reply: bool, ai: bool)
    ensures var b := Blocks(linked, stories, age, reply, ai);
      && |b| == 3 + (if linked then 1 else 0) + (if stories then 1 else 0) + (if age then 1 else 0)
                  + (if reply then 1 else 0) + (if ai then 2 else 0)
      && b[0] == Block(BaseInstructions) && b[1] == Block(UserInfoGuidance) && b[|b| - 1] == Block(ResponseFormat)
      && forall i :: 0 <= i < |b| ==> b[i].Block?
  {
    var p0 := [Block(BaseInstructions), Block(UserInfoGuidance)];
    var p1 := p0 + Opt(linked, LinkedChannelGuidance);
    var p2 := p1 + Opt(stories, StoriesGuidance);
    var p3 := p2 + Opt(age, AccountAgeGuidance);
    var p4 := p3 + Opt(reply, ReplyContextGuidance);
    var p5 := p4 + Opt(ai, AiGeneratedContentGuidance);
    var p6 := p5 + Opt(ai, KnowledgeSharingGuidance);
    OpensWithBaseGrows(p0, linked, LinkedChannelGuidance);
    OpensWithBaseGrows(p1, stories, StoriesGuidance);
    OpensWithBaseGrows(p2, age, AccountAgeGuidance);
    OpensWithBaseGrows(p3, reply, ReplyContextGuidance);
    OpensWithBaseGrows(p4, ai, AiGeneratedContentGuidance);
    OpensWithBaseGrows(p5, ai, KnowledgeSharingGuidance);
    assert Blocks(linked, stories, age, reply, ai) == p6 + [Block(ResponseFormat)];
  }

  /** Each optional block is among the guidance blocks exactly when its flag is set. */
  lemma BlocksHold(linked: bool, stories: bool, age: bool, reply: bool, ai: bool)
    ensures Block(LinkedChannelGuidance) in Blocks(linked, stories, age, reply, ai) <==> linked
    ensures Block(StoriesGuidance) in Blocks(linked, stories, age, reply, ai) <==> stories
    ensures Block(AccountAgeGuidance) in Blocks(linked, stories, age, reply, ai) <==> age
    ensures Block(ReplyContextGuidance) in Blocks(linked, stories, age, reply, ai) <==> reply
    ensures Block(AiGeneratedContentGuidance) in Blocks(linked, stories, age, reply, ai) <==> ai
    ensures Block(KnowledgeSharingGuidance) in Blocks(linked, stories, age, reply, ai) <==> ai
  {
  }

  /** Each optional block is present exactly when its guidance flag is set. */
  lemma SystemPromptGuidance(c: SpamClassificationContext, rows: Option<seq<Database.ExampleRow>>, now: YearMonth)
    ensures Block(LinkedChannelGuidance) in SystemPromptParts(c, rows, now) <==> IncludeLinkedChannelGuidance(c)
    ensures Block(StoriesGuidance) in SystemPromptParts(c, rows, now) <==> IncludeStoriesGuidance(c)
    ensures Block(AccountAgeGuidance) in SystemPromptParts(c, rows, now) <==> IncludeAccountAgeGuidance(c)
    ensures Block(ReplyContextGuidance) in SystemPromptParts(c, rows, now) <==> IncludeReplyGuidance(c)
    ensures Block(AiGeneratedContentGuidance) in SystemPromptParts(c, rows, now) <==> IncludeAiDetectionGuidance(c)
    ensures Block(KnowledgeSharingGuidance) in SystemPromptParts(c, rows, now) <==> IncludeAiDetectionGuidance(c)
  {
    var e := ExampleParts(rows, now);
    BlocksHold(IncludeLinkedChannelGuidance(c), IncludeStoriesGuidance(c), IncludeAccountAgeGuidance(c),
               IncludeReplyGuidance(c), IncludeAiDetectionGuidance(c));
    assert forall i :: 0 <= i < |e| ==> e[i].ExamplePart? by {
      if rows.Some? {
        forall i | 0 <= i < |e| ensures e[i].ExamplePart? {
          ExamplesOfAt(rows.value, now, i);
        }
      }
    }
  }
}
