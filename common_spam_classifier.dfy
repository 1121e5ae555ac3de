/**
 * The older plain-text classifier (src/app/common/spam_classifier.py): a prompt of
 * tagged few-shot examples, a request in tags, an answer "да N%" / "нет N%", and a
 * retry loop around the model call. The model call is an oracle: the loop consumes
 * a sequence of call outcomes.
 */
module CommonSpamClassifier {
  import opened Text
  import opened AnswerTags
  import Database

  const MAX_RETRIES: nat := 3

  /** What extract_spam_score produces: a score, or the exception it raises. */
  datatype ScoreResult = Score(value: int) | ExtractionFailed | ValueError

  /** A verdict word the parser recognises. */
  predicate IsVerdict(w: string) {
    w == "да" || w == "нет"
  }

  /** The score carried by the words of an answer. */
  function ScoreOfWords(parts: seq<string>): (r: ScoreResult)
    ensures r.ExtractionFailed? <==> !(|parts| >= 2 && IsVerdict(parts[0]))
    ensures r.Score? ==> ConfidenceValue(parts[1]).Some?
    ensures |parts| >= 2 && IsVerdict(parts[0]) && ConfidenceValue(parts[1]).Some? ==> r.Score?
    ensures r.ValueError? <==> |parts| >= 2 && IsVerdict(parts[0]) && ConfidenceValue(parts[1]).None?
    ensures r.Score? && parts[0] == "да" ==> r.value == ConfidenceValue(parts[1]).value
    ensures r.Score? && parts[0] == "нет" ==> r.value == -ConfidenceValue(parts[1]).value
  {
    if |parts| >= 2 && IsVerdict(parts[0]) then
      match ConfidenceValue(parts[1])
      case None => ValueError
      case Some(n) => Score(if parts[0] == "да" then n else -n)
    else ExtractionFailed
  }

  /** extract_spam_score: the answer's verdict and confidence, "нет" negating it. */
  function ExtractSpamScore(response: string): (r: ScoreResult)
    ensures r.ExtractionFailed? <==>
      !(|AnswerWords(response)| >= 2 && IsVerdict(AnswerWords(response)[0]))
  {
    ScoreOfWords(AnswerWords(response))
  }

  // ---------------------------------------------------------------------------
  // The answers the prompt asks for parse back to their score.

  /** The answer line "да N%" / "нет N%". */
  function VerdictLine(spam: bool, n: nat): string {
    (if spam then "да" else "нет") + " " + NatToString(n) + "%"
  }

  /** The score an answer line stands for: its confidence, negated for "нет". */
  function Signed(spam: bool, n: nat): int {
    if spam then n else -(n as int)
  }

  lemma VerdictLineWords(spam: bool, n: nat)
    ensures Words(Lower(VerdictLine(spam, n))) == [if spam then "да" else "нет", NatToString(n) + "%"]
    ensures ConfidenceValue(NatToString(n) + "%") == Some(n)
  {
    var v := if spam then "да" else "нет";
    var d := NatToString(n);
    VerdictLineLower(spam, n);
    PercentWord(n);
    assert VerdictLine(spam, n) == v + " " + (d + "%");
    WordsOfTwo(v, d + "%");
    PercentConfidence(n);
  }

  lemma VerdictLineLower(spam: bool, n: nat)
    ensures Lower(VerdictLine(spam, n)) == VerdictLine(spam, n)
  {
    var v := if spam then "да" else "нет";
    var d := NatToString(n);
    var line := VerdictLine(spam, n);
    assert line == v + " " + d + "%";
    forall i | 0 <= i < |line| ensures LowerChar(line[i]) == line[i] {
      if i < |v| {
        assert line[i] == v[i];
      } else if i == |v| {
        assert line[i] == ' ';
      } else if i < |v| + 1 + |d| {
        assert line[i] == d[i - |v| - 1];
        assert IsDigit(d[i - |v| - 1]);
      } else {
        assert line[i] == '%';
      }
    }
    LowerFixed(line);
  }

  lemma PercentWord(n: nat)
    ensures NoSpace(NatToString(n) + "%") && NatToString(n) + "%" != []
  {
    var d := NatToString(n);
    forall i | 0 <= i < |d + "%"| ensures !IsSpace((d + "%")[i]) {
      if i < |d| {
        assert (d + "%")[i] == d[i];
        assert IsDigit(d[i]);
      }
    }
  }

  lemma PercentConfidence(n: nat)
    ensures ConfidenceValue(NatToString(n) + "%") == Some(n)
  {
    var d := NatToString(n);
    IntToStringChars(n, '%');
    RemoveCharAppend(d, "%", '%');
    assert RemoveChar("%", '%') == [];
    assert RemoveChar(d + "%", '%') == d;
    DigitsStripped(d);
    NatToStringValue(n);
  }

  /** Whatever surrounds it, an answer that extracts to "да N%" / "нет N%" scores N / -N. */
  lemma AnswerLineScore(response: string, spam: bool, n: nat)
    requires ExtractAnswer(response) == VerdictLine(spam, n)
    ensures ExtractSpamScore(response) == Score(Signed(spam, n))
  {
    var v := if spam then "да" else "нет";
    var c := NatToString(n) + "%";
    VerdictLineWords(spam, n);
    assert AnswerWords(response) == Words(Lower(VerdictLine(spam, n)));
    assert AnswerWords(response) == [v, c];
    VerdictScore(spam, n);
  }

  lemma VerdictScore(spam: bool, n: nat)
    ensures ScoreOfWords([if spam then "да" else "нет", NatToString(n) + "%"]) == Score(Signed(spam, n))
  {
    PercentConfidence(n);
  }

  lemma LineBounded(spam: bool, n: nat)
    ensures VerdictLine(spam, n) != []
    ensures !IsSpace(VerdictLine(spam, n)[0])
    ensures !IsSpace(VerdictLine(spam, n)[|VerdictLine(spam, n)| - 1])
    ensures '<' !in VerdictLine(spam, n)
  {
    var d := NatToString(n);
    var line := VerdictLine(spam, n);
    var v := if spam then "да" else "нет";
    assert line == v + " " + d + "%";
    forall i | 0 <= i < |line| ensures line[i] != '<' {
      if i < |v| { assert line[i] == v[i]; }
      else if i == |v| { assert line[i] == ' '; }
      else if i < |v| + 1 + |d| { assert line[i] == d[i - |v| - 1]; assert IsDigit(d[i - |v| - 1]); }
      else { assert line[i] == '%'; }
    }
  }

  /** Padding with whitespace other than '<' around the answer line. */
  predicate Pad(w: string) {
    AllSpace(w) && '<' !in w
  }

  lemma NoLtInPadded(pad1: string, line: string, pad2: string)
    requires '<' !in pad1 && '<' !in line && '<' !in pad2
    ensures '<' !in pad1 + line + pad2
  {
    var s := pad1 + line + pad2;
    forall i | 0 <= i < |s| ensures s[i] != '<' {
      if i < |pad1| { assert s[i] == pad1[i]; }
      else if i < |pad1| + |line| { assert s[i] == line[i - |pad1|]; }
      else { assert s[i] == pad2[i - |pad1| - |line|]; }
    }
  }

  /** "да N%" gives N and "нет N%" gives -N, with surrounding whitespace stripped. */
  lemma PlainAnswerScore(spam: bool, n: nat, pad1: string, pad2: string)
    requires Pad(pad1) && Pad(pad2)
    ensures ExtractSpamScore(pad1 + VerdictLine(spam, n) + pad2) == Score(Signed(spam, n))
  {
    var line := VerdictLine(spam, n);
    var s := pad1 + line + pad2;
    LineBounded(spam, n);
    NoLtInPadded(pad1, line, pad2);
    NoTagMeansWholeResponse(s);
    StripPadded(pad1, line, pad2);
    AnswerLineScore(s, spam, n);
  }

  /** The same answer between an opening and a closing tag. */
  lemma TaggedAnswerScore(t1: string, spam: bool, n: nat, t2: string, pad1: string, pad2: string)
    requires TagName(t1) && TagName(t2) && Pad(pad1) && Pad(pad2)
    ensures ExtractSpamScore("<" + t1 + ">" + pad1 + VerdictLine(spam, n) + pad2 + "<" + t2 + ">")
      == Score(Signed(spam, n))
  {
    var line := VerdictLine(spam, n);
    var body := pad1 + line + pad2;
    LineBounded(spam, n);
    NoLtInPadded(pad1, line, pad2);
    var s := "<" + t1 + ">" + pad1 + line + pad2 + "<" + t2 + ">";
    assert s == "<" + t1 + ">" + body + "<" + t2 + ">";
    TaggedAnswer(t1, body, t2);
    StripPadded(pad1, line, pad2);
    AnswerLineScore(s, spam, n);
  }

  /** The same answer followed by a closing tag only. */
  lemma ClosingTagAnswerScore(spam: bool, n: nat, pad2: string, t2: string)
    requires TagName(t2) && Pad(pad2)
    ensures ExtractSpamScore(VerdictLine(spam, n) + pad2 + "<" + t2 + ">") == Score(Signed(spam, n))
  {
    var line := VerdictLine(spam, n);
    LineBounded(spam, n);
    NoLtInPadded([], line, pad2);
    assert [] + line + pad2 == line + pad2;
    var s := line + pad2 + "<" + t2 + ">";
    assert s == (line + pad2) + "<" + t2 + ">";
    ClosingTagOnlyAnswer(line + pad2, t2);
    StripPadded([], line, pad2);
    AnswerLineScore(s, spam, n);
  }

  // Responses from the parser's test table, checked against the general lemmas above.
  // Each response is a parameter fixed by the precondition, so that the verifier
  // reasons with the general lemmas instead of evaluating the parser on a literal.

  lemma ExampleLines()
    ensures VerdictLine(true, 100) == "да 100%"
    ensures VerdictLine(true, 77) == "да 77%"
    ensures VerdictLine(false, 0) == "нет 0%"
    ensures VerdictLine(false, 12) == "нет 12%"
  {
  }

  lemma PlainExample(response: string)
    requires response == "да 100%"
    ensures ExtractSpamScore(response) == Score(100)
  {
    ExampleLines();
    var s2 := [] + VerdictLine(true, 100) + [];
    assert s2 == response;
    assert ExtractSpamScore(s2) == Score(100) by {
      PlainAnswerScore(true, 100, [], []);
    }
  }

  lemma TaggedSpamExample(response: string)
    requires response == "<abc> да 77% <xyz>"
    ensures ExtractSpamScore(response) == Score(77)
  {
    ExampleLines();
    var s2 := "<" + "abc" + ">" + " " + VerdictLine(true, 77) + " " + "<" + "xyz" + ">";
    assert s2 == response;
    assert ExtractSpamScore(s2) == Score(77) by {
      TaggedAnswerScore("abc", true, 77, "xyz", " ", " ");
    }
  }

  lemma TaggedHamExample(response: string)
    requires response == "<ответ> нет 0% <end>"
    ensures ExtractSpamScore(response) == Score(0)
  {
    ExampleLines();
    var s2 := "<" + "ответ" + ">" + " " + VerdictLine(false, 0) + " " + "<" + "end" + ">";
    assert s2 == response;
    assert ExtractSpamScore(s2) == Score(0) by {
      TaggedAnswerScore("ответ", false, 0, "end", " ", " ");
    }
  }

  lemma ClosingTagExample(response: string)
    requires response == "нет 12% <abc>"
    ensures ExtractSpamScore(response) == Score(-12)
  {
    ExampleLines();
    var s2 := VerdictLine(false, 12) + " " + "<" + "abc" + ">";
    assert s2 == response;
    assert ExtractSpamScore(s2) == Score(-12) by {
      ClosingTagAnswerScore(false, 12, " ", "abc");
    }
  }

  lemma EmptyExample(response: string)
    requires response == ""
    ensures ExtractSpamScore(response) == ExtractionFailed
  {
    NoTagMeansWholeResponse(response);
  }

  lemma EmptyTagsExample(response: string)
    requires response == "<abc> <xyz>"
    ensures ExtractSpamScore(response) == ExtractionFailed
  {
    var s2 := "<" + "abc" + ">" + " " + "<" + "xyz" + ">";
    assert s2 == response;
    assert ExtractAnswer(s2) == "" by {
      TaggedAnswer("abc", " ", "xyz");
      assert Strip(" ") == "";
    }
  }

  // ---------------------------------------------------------------------------
  // Request and prompt formatting.

  /** The fixed opening of a request, holding the message text. */
  function RequestHead(text: string): string {
    "\n<запрос>\n<текст сообщения>\n" + text + "\n</текст сообщения>\n"
  }

  const REQUEST_END: string := "</запрос>"

  /** format_spam_request: name and bio tags are added only when they are non-empty. */
  function FormatSpamRequest(text: string, name: Option<string>, bio: Option<string>): string {
    RequestHead(text) + NameTag(name) + BioTag(bio) + REQUEST_END
  }

  /** The name tag, present when the name is non-empty. */
  function NameTag(name: Option<string>): (r: string)
    ensures r != [] <==> Truthy(name)
  {
    if Truthy(name) then "<имя>" + name.value + "</имя>\n" else ""
  }

  /** The bio tag, present when the bio is non-empty. */
  function BioTag(bio: Option<string>): (r: string)
    ensures r != [] <==> Truthy(bio)
  {
    if Truthy(bio) then "<биография>" + bio.value + "</биография>\n" else ""
  }

  /**
   * The request always opens with the message text and closes the request tag; the
   * name comes right after the text when present, and a request with neither name
   * nor bio is exactly the text section.
   */
  lemma FormatSpamRequestShape(text: string, name: Option<string>, bio: Option<string>)
    ensures var r := FormatSpamRequest(text, name, bio);
      && StartsWith(r, RequestHead(text))
      && |r| >= |REQUEST_END| && r[|r| - |REQUEST_END|..] == REQUEST_END
      && ((!Truthy(name) && !Truthy(bio)) <==> r == RequestHead(text) + REQUEST_END)
      && (Truthy(name) ==> StartsWith(r, RequestHead(text) + NameTag(name)))
  {
    FourPartShape(RequestHead(text), NameTag(name), BioTag(bio), REQUEST_END);
  }

  /** `head + tag1 + tag2 + tail` opens with `head` and `head + tag1`, closes with `tail`, and is `head + tail` iff both tags are empty. */
  lemma FourPartShape(head: string, tag1: string, tag2: string, tail: string)
    ensures var r := head + tag1 + tag2 + tail;
      && StartsWith(r, head) && StartsWith(r, head + tag1)
      && |r| >= |tail| && r[|r| - |tail|..] == tail
      && (tag1 == [] && tag2 == [] <==> r == head + tail)
  {
    var r := head + tag1 + tag2 + tail;
    assert r[..|head|] == head;
    assert r[..|head + tag1|] == head + tag1;
    assert r[|r| - |tail|..] == tail;
    if tag1 == [] && tag2 == [] {
      assert r == head + tail;
    }
  }

  /** The example answer line: "да" exactly for a positive score, then abs(score) and "%". */
  function ExampleAnswer(score: int): (a: string)
    ensures StartsWith(a, "да ") <==> score > 0
  {
    var n: nat := if score < 0 then -score else score;
    var a := VerdictLine(score > 0, n);
    assert score > 0 ==> a[..3] == "да ";
    assert score <= 0 ==> a[1] == 'е';
    a
  }

  /** The answer the prompt shows for an example parses back to the example's own score. */
  lemma ExampleAnswerRoundTrip(score: int)
    ensures ExtractSpamScore("<ответ>\n" + ExampleAnswer(score) + "\n</ответ>") == Score(score)
  {
    var n: nat := if score < 0 then -score else score;
    var a := ExampleAnswer(score);
    assert a == VerdictLine(score > 0, n);
    var s1 := "<ответ>\n" + a + "\n</ответ>";
    var s2 := "<" + "ответ" + ">" + "\n" + a + "\n" + "<" + "/ответ" + ">";
    assert s1 == s2 by {
      assert "<ответ>\n" == "<" + "ответ" + ">" + "\n";
      assert "\n</ответ>" == "\n" + "<" + "/ответ" + ">";
    }
    assert ExtractSpamScore(s2) == Score(Signed(score > 0, n)) by {
      TaggedAnswerScore("ответ", score > 0, n, "/ответ", "\n", "\n");
    }
    assert Signed(score > 0, n) == score;
  }

  const BASE_PROMPT: string :=
    "Ты - классификатор спама. Пользователь подает тебе сообщения с текстом, именем и биографией (опционально),\n"
    + "а ты должен определить, спам это или нет, и дать оценку своей уверенности в процентах.\n\n"
    + "ФОРМАТ:\n<начало ответа>\nда ХХХ%\n<конец ответа>\n\nИЛИ\n\n<начало ответа>\nнет ХХХ%\n<конец ответа>\n\n"
    + "где ХХХ% - уровень твоей уверенности от 0 до 100.\n\nБольше ничего к ответу не добавляй.\n\nПРИМЕРЫ:\n\n"

  /** One example as the prompt shows it: the request, then the tagged answer. */
  function ExampleBlock(e: Database.ExampleRow): string {
    "\n" + FormatSpamRequest(e.text, e.name, e.bio) + "\n<ответ>\n" + ExampleAnswer(e.score) + "\n</ответ>\n"
  }

  function ExampleBlocks(examples: seq<Database.ExampleRow>): string {
    if examples == [] then "" else ExampleBlocks(examples[..|examples| - 1]) + ExampleBlock(examples[|examples| - 1])
  }

  lemma ExampleBlocksSnoc(examples: seq<Database.ExampleRow>, i: nat)
    requires i < |examples|
    ensures ExampleBlocks(examples[..i + 1]) == ExampleBlocks(examples[..i]) + ExampleBlock(examples[i])
  {
    assert examples[..i + 1][..i] == examples[..i];
  }

  /** get_system_prompt: the base prompt followed by one block per example, in the given order. */
  method GetSystemPrompt(examples: seq<Database.ExampleRow>) returns (prompt: string)
    ensures prompt == BASE_PROMPT + ExampleBlocks(examples)
    ensures StartsWith(prompt, BASE_PROMPT)
  {
    prompt := BASE_PROMPT;
    for i := 0 to |examples|
      invariant prompt == BASE_PROMPT + ExampleBlocks(examples[..i])
    {
      ExampleBlocksSnoc(examples, i);
      AppendAssoc(BASE_PROMPT, ExampleBlocks(examples[..i]), ExampleBlock(examples[i]));
      prompt := prompt + ExampleBlock(examples[i]);
    }
    assert examples[..|examples|] == examples;
    assert prompt[..|BASE_PROMPT|] == BASE_PROMPT;
  }

  datatype ChatMessage = ChatMessage(role: string, content: string)

  /** get_messages: the system prompt, then the user's request left open for the answer. */
  function GetMessages(comment: string, name: Option<string>, bio: Option<string>, prompt: string): (ms: seq<ChatMessage>)
    ensures |ms| == 2 && ms[0] == ChatMessage("system", prompt) && ms[1].role == "user"
    ensures ms[1].content == "\n" + FormatSpamRequest(comment, name, bio) + "\n<ответ>\n"
  {
    [ChatMessage("system", prompt),
     ChatMessage("user", "\n" + FormatSpamRequest(comment, name, bio) + "\n<ответ>\n")]
  }

  // ---------------------------------------------------------------------------
  // The retry loop of is_spam.

  /** One call to the model: an answer, or one of the errors the loop distinguishes. */
  datatype RouterOutcome = Answer(text: string) | RateLimited | LocationUnsupported | Failure(error: string)

  /** The exception recorded as last_error. */
  datatype ClassifierError =
    | UnparsedAnswer(response: string)   // ExtractionFailedError from extract_spam_score
    | BadConfidence(response: string)    // ValueError from int()
    | CallError(message: string)

  /**
   * Classified: the first parsed score. Failed: MAX_RETRIES generic errors, the last
   * one kept. Undecided: the outcomes ran out first (the bot would keep calling).
   */
  datatype IsSpamResult = Classified(score: int) | Failed(lastError: Option<ClassifierError>) | Undecided

  /** Whether an outcome counts toward the failure limit. */
  predicate IsGenericFailure(o: RouterOutcome) {
    o.Failure? || (o.Answer? && !ExtractSpamScore(o.text).Score?)
  }

  /** What one call does to the loop: stop with a result, or go on with new counters. */
  datatype Step = Stop(result: IsSpamResult) | Next(unknown: nat, last: Option<ClassifierError>)

  function StepOf(o: RouterOutcome, unknown: nat, last: Option<ClassifierError>): (st: Step)
    ensures st.Next? && IsGenericFailure(o) ==> st.unknown == unknown + 1 && st.last.Some?
    ensures st.Next? && !IsGenericFailure(o) ==> st.unknown == unknown && st.last == last
    ensures st.Stop? <==> o.Answer? && ExtractSpamScore(o.text).Score?
  {
    match o
    case Answer(t) =>
      (match ExtractSpamScore(t)
       case Score(v) => Stop(Classified(v))
       case ExtractionFailed => Next(unknown + 1, Some(UnparsedAnswer(t)))
       case ValueError => Next(unknown + 1, Some(BadConfidence(t))))
    case RateLimited => Next(unknown, last)
    case LocationUnsupported => Next(unknown, last)
    case Failure(e) => Next(unknown + 1, Some(CallError(e)))
  }

  /** The loop from call `i` on, with `unknown` failures so far. */
  function IsSpamFrom(outcomes: seq<RouterOutcome>, i: nat, unknown: nat, last: Option<ClassifierError>): IsSpamResult
    requires i <= |outcomes|
    decreases |outcomes| - i
  {
    if unknown >= MAX_RETRIES then Failed(last)
    else if i == |outcomes| then Undecided
    else match StepOf(outcomes[i], unknown, last)
      case Stop(r) => r
      case Next(u, l) => IsSpamFrom(outcomes, i + 1, u, l)
  }

  /** is_spam: calls the model until a score parses or MAX_RETRIES generic errors occurred. */
  method IsSpam(outcomes: seq<RouterOutcome>) returns (r: IsSpamResult)
    ensures r == IsSpamFrom(outcomes, 0, 0, None)
  {
    var attempt := 0;
    var unknownErrors := 0;
    var lastError: Option<ClassifierError> := None;
    while unknownErrors < MAX_RETRIES
      invariant attempt <= |outcomes|
      invariant IsSpamFrom(outcomes, attempt, unknownErrors, lastError) == IsSpamFrom(outcomes, 0, 0, None)
      decreases |outcomes| - attempt
    {
      if attempt == |outcomes| {
        return Undecided;
      }
      var outcome := outcomes[attempt];
      attempt := attempt + 1;
      match outcome {
        case Answer(t) =>
          var score := ExtractSpamScore(t);
          match score {
            case Score(v) => return Classified(v);
            case ExtractionFailed =>
              lastError := Some(UnparsedAnswer(t));
              unknownErrors := unknownErrors + 1;
            case ValueError =>
              lastError := Some(BadConfidence(t));
              unknownErrors := unknownErrors + 1;
          }
        case RateLimited =>
        case LocationUnsupported =>
        case Failure(e) =>
          lastError := Some(CallError(e));
          unknownErrors := unknownErrors + 1;
      }
    }
    return Failed(lastError);
  }

  /** The number of outcomes in `outcomes` that count toward the limit. */
  function GenericFailures(outcomes: seq<RouterOutcome>): nat {
    if outcomes == [] then 0
    else (if IsGenericFailure(outcomes[0]) then 1 else 0) + GenericFailures(outcomes[1..])
  }

  /**
   * Only generic errors count: the loop gives up only after MAX_RETRIES of them, and
   * when it gives up it holds the last error.
   */
  lemma {:induction false} FailedOnlyAfterGenericErrors(outcomes: seq<RouterOutcome>, i: nat, unknown: nat, last: Option<ClassifierError>)
    requires i <= |outcomes| && unknown <= MAX_RETRIES
    requires unknown > 0 ==> last.Some?
    ensures IsSpamFrom(outcomes, i, unknown, last).Failed? ==>
      unknown + GenericFailures(outcomes[i..]) >= MAX_RETRIES
      && IsSpamFrom(outcomes, i, unknown, last).lastError.Some?
    decreases |outcomes| - i
  {
    if unknown < MAX_RETRIES && i < |outcomes| {
      assert outcomes[i..][1..] == outcomes[i + 1..];
      match StepOf(outcomes[i], unknown, last)
      case Stop(r) =>
      case Next(u, l) => FailedOnlyAfterGenericErrors(outcomes, i + 1, u, l);
    }
  }

  /** The outcome parses to a score: the loop stops with it. */
  predicate ParsesScore(o: RouterOutcome) {
    o.Answer? && ExtractSpamScore(o.text).Score?
  }

  /** Counting the generic failures of a slice one outcome at a time. */
  lemma GenericFailuresStep(outcomes: seq<RouterOutcome>, i: nat, k: nat)
    requires i < k <= |outcomes|
    ensures GenericFailures(outcomes[i..k]) == (if IsGenericFailure(outcomes[i]) then 1 else 0) + GenericFailures(outcomes[i + 1..k])
  {
    assert outcomes[i..k][0] == outcomes[i];
    assert outcomes[i..k][1..] == outcomes[i + 1..k];
  }

  /**
   * Call `k` is the first from `i` on whose answer parses, and fewer than
   * MAX_RETRIES generic failures come before it.
   */
  ghost predicate FirstParseAt(outcomes: seq<RouterOutcome>, i: nat, k: nat, unknown: nat) {
    && i <= k < |outcomes| && ParsesScore(outcomes[k])
    && (forall j :: i <= j < k ==> !ParsesScore(outcomes[j]))
    && unknown + GenericFailures(outcomes[i..k]) < MAX_RETRIES
  }

  /** A call that does not parse in front of a first parse keeps it first, counting its failure. */
  lemma FirstParseAtStep(outcomes: seq<RouterOutcome>, i: nat, k: nat, unknown: nat, u: nat, l: Option<ClassifierError>, last: Option<ClassifierError>)
    requires i < |outcomes| && StepOf(outcomes[i], unknown, last) == Next(u, l)
    requires FirstParseAt(outcomes, i + 1, k, u)
    ensures FirstParseAt(outcomes, i, k, unknown)
  {
    GenericFailuresStep(outcomes, i, k);
  }

  /** A call that parses is the first parse from itself on, and its score is the result. */
  lemma StopIsFirstParse(outcomes: seq<RouterOutcome>, i: nat, unknown: nat, last: Option<ClassifierError>)
    requires unknown < MAX_RETRIES && i < |outcomes| && StepOf(outcomes[i], unknown, last).Stop?
    ensures FirstParseAt(outcomes, i, i, unknown)
    ensures IsSpamFrom(outcomes, i, unknown, last) == Classified(ExtractSpamScore(outcomes[i].text).value)
  {
    assert outcomes[i..i] == [];
  }

  /** A Classified result is the score of the first answer that parses, reached in time. */
  lemma {:induction false} ClassifiedIsFirstParse(outcomes: seq<RouterOutcome>, i: nat, unknown: nat, last: Option<ClassifierError>)
    requires i <= |outcomes|
    ensures IsSpamFrom(outcomes, i, unknown, last).Classified? ==>
      (exists k: nat :: FirstParseAt(outcomes, i, k, unknown)
        && IsSpamFrom(outcomes, i, unknown, last).score == ExtractSpamScore(outcomes[k].text).value)
    decreases |outcomes| - i
  {
    if unknown < MAX_RETRIES && i < |outcomes| {
      match StepOf(outcomes[i], unknown, last)
      case Stop(r) =>
        StopIsFirstParse(outcomes, i, unknown, last);
      case Next(u, l) =>
        var rest := IsSpamFrom(outcomes, i + 1, u, l);
        assert IsSpamFrom(outcomes, i, unknown, last) == rest;
        ClassifiedIsFirstParse(outcomes, i + 1, u, l);
        if rest.Classified? {
          var k: nat :| FirstParseAt(outcomes, i + 1, k, u) && rest.score == ExtractSpamScore(outcomes[k].text).value;
          FirstParseAtStep(outcomes, i, k, unknown, u, l, last);
        }
    }
  }

  /** Conversely, the first parsing answer, reached with fewer than MAX_RETRIES generic failures, is the result. */
  lemma {:induction false} FirstParseIsClassified(outcomes: seq<RouterOutcome>, i: nat, k: nat, unknown: nat, last: Option<ClassifierError>)
    requires i <= k < |outcomes| && ParsesScore(outcomes[k])
    requires forall j :: i <= j < k ==> !ParsesScore(outcomes[j])
    requires unknown + GenericFailures(outcomes[i..k]) < MAX_RETRIES
    ensures IsSpamFrom(outcomes, i, unknown, last) == Classified(ExtractSpamScore(outcomes[k].text).value)
    decreases k - i
  {
    if i < k {
      GenericFailuresStep(outcomes, i, k);
      match StepOf(outcomes[i], unknown, last)
      case Next(u, l) => FirstParseIsClassified(outcomes, i + 1, k, u, l);
    } else {
      assert outcomes[i..k] == [];
    }
  }

  /** MAX_RETRIES generic failures before any parsing answer make the loop give up. */
  lemma {:induction false} GenericFailuresGiveUp(outcomes: seq<RouterOutcome>, i: nat, k: nat, unknown: nat, last: Option<ClassifierError>)
    requires i <= k <= |outcomes|
    requires forall j :: i <= j < k ==> !ParsesScore(outcomes[j])
    requires unknown + GenericFailures(outcomes[i..k]) >= MAX_RETRIES
    ensures IsSpamFrom(outcomes, i, unknown, last).Failed?
    decreases k - i
  {
    if unknown < MAX_RETRIES && i < k {
      GenericFailuresStep(outcomes, i, k);
      match StepOf(outcomes[i], unknown, last)
      case Next(u, l) => GenericFailuresGiveUp(outcomes, i + 1, k, u, l);
    }
  }

  /** A rate-limit or location error in front of the calls changes nothing about the result. */
  lemma TransientOutcomeIgnored(o: RouterOutcome, outcomes: seq<RouterOutcome>)
    requires o.RateLimited? || o.LocationUnsupported?
    ensures IsSpamFrom([o] + outcomes, 0, 0, None) == IsSpamFrom(outcomes, 0, 0, None)
  {
    Shifted(o, outcomes, 0, 0, None);
  }

  lemma {:induction false} Shifted(o: RouterOutcome, outcomes: seq<RouterOutcome>, i: nat, unknown: nat, last: Option<ClassifierError>)
    requires i <= |outcomes|
    ensures IsSpamFrom([o] + outcomes, i + 1, unknown, last) == IsSpamFrom(outcomes, i, unknown, last)
    decreases |outcomes| - i
  {
    var longer := [o] + outcomes;
    if unknown < MAX_RETRIES && i < |outcomes| {
      assert longer[i + 1] == outcomes[i];
      match StepOf(outcomes[i], unknown, last)
      case Stop(r) =>
      case Next(u, l) => Shifted(o, outcomes, i + 1, u, l);
    }
  }

  /** Three failed calls in a row end the loop with the third error. */
  lemma ThreeFailuresGiveUp(e1: string, e2: string, e3: string, rest: seq<RouterOutcome>)
    ensures IsSpamFrom([Failure(e1), Failure(e2), Failure(e3)] + rest, 0, 0, None) == Failed(Some(CallError(e3)))
  {
    var os := [Failure(e1), Failure(e2), Failure(e3)] + rest;
    assert os[0] == Failure(e1) && os[1] == Failure(e2) && os[2] == Failure(e3);
    assert IsSpamFrom(os, 3, 3, Some(CallError(e3))) == Failed(Some(CallError(e3)));
    assert IsSpamFrom(os, 2, 2, Some(CallError(e2))) == IsSpamFrom(os, 3, 3, Some(CallError(e3)));
    assert IsSpamFrom(os, 1, 1, Some(CallError(e1))) == IsSpamFrom(os, 2, 2, Some(CallError(e2)));
  }
}
