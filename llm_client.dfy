/**
 * The newer classifier client (src/app/spam/llm_client.py): a response is read as
 * JSON first and as the legacy "да N%" / "нет N%" answer second, and the model is
 * called at most MAX_RETRIES times.
 *
 * `json.loads` is not modelled: the decoded value (or None for a decoding error) is
 * a parameter next to the raw text. The model call is an oracle from the attempt
 * number to its outcome.
 */
module LlmClient {
  import opened Text
  import opened AnswerTags
  import CommonSpamClassifier

  const MAX_RETRIES: nat := 3

  /** A decoded JSON value (floating-point numbers are not modelled). */
  datatype Json =
    | JNull
    | JBool(b: bool)
    | JInt(i: int)
    | JStr(s: string)
    | JArray(items: seq<Json>)
    | JObject(fields: map<string, Json>)

  /** Python truthiness of a decoded value. */
  predicate JsonTruthy(j: Json) {
    match j
    case JNull => false
    case JBool(b) => b
    case JInt(i) => i != 0
    case JStr(s) => s != []
    case JArray(items) => items != []
    case JObject(fields) => fields != map[]
  }

  /** `data.get(key, default)` */
  function Get(fields: map<string, Json>, key: string, default: Json): (v: Json)
    ensures key in fields ==> v == fields[key]
    ensures key !in fields ==> v == default
  {
    if key in fields then fields[key] else default
  }

  /** The number a confidence value stands for when it is negated: ints and bools only. */
  function Numeric(j: Json): Option<int> {
    match j
    case JInt(i) => Some(i)
    case JBool(b) => Some(if b then 1 else 0)
    case _ => None
  }

  /**
   * The reason of a classification: the JSON value under "reason" as the model sent
   * it, or the sentence the legacy parser writes for its verdict (see ReasonText).
   */
  datatype Reason = JsonReason(value: Json) | VerdictReason(spam: bool, confidence: int)

  /** The (score, confidence, reason) triple every parser returns. */
  datatype Classification = Classification(score: int, confidence: int, reason: Reason)

  /**
   * _parse_json_response: a dict gives confidence (default 0) signed by is_spam
   * (default False) and reason (default "No reason provided"); a decoding error or a
   * non-dict gives None. Scores here are integers, so a confidence that is not a
   * number or a bool gives None as well (see README, "Left out").
   */
  function ParseJson(decoded: Option<Json>): (r: Option<Classification>)
    ensures (decoded.None? || !decoded.value.JObject?) ==> r.None?
    ensures r.Some? ==> r.value.score == (if JsonTruthy(Get(decoded.value.fields, "is_spam", JBool(false)))
                                          then r.value.confidence else -r.value.confidence)
    ensures r.Some? ==> r.value.reason == JsonReason(Get(decoded.value.fields, "reason", JStr("No reason provided")))
    ensures r.Some? ==> Some(r.value.confidence) == Numeric(Get(decoded.value.fields, "confidence", JInt(0)))
    ensures decoded.Some? && decoded.value.JObject? && Numeric(Get(decoded.value.fields, "confidence", JInt(0))).Some?
            ==> r.Some?
  {
    match decoded
    case None => None
    case Some(data) =>
      if !data.JObject? then None
      else
        var isSpam := Get(data.fields, "is_spam", JBool(false));
        var confidence := Get(data.fields, "confidence", JInt(0));
        var reason := Get(data.fields, "reason", JStr("No reason provided"));
        match Numeric(confidence)
        case None => None
        case Some(c) => Some(Classification(if JsonTruthy(isSpam) then c else -c, c, JsonReason(reason)))
  }

  /** The text of a legacy verdict's reason, as the legacy parser formats it. */
  function LegacyReason(spam: bool, confidence: int): string {
    if spam then "Классифицировано как спам с уверенностью " + IntToString(confidence) + "%"
    else "Классифицировано как не спам с уверенностью " + IntToString(confidence) + "%"
  }

  /**
   * _parse_legacy_response: the same answer extraction as the older classifier; the
   * confidence is parsed before the verdict word is looked at.
   */
  function ParseLegacy(response: string): Option<Classification> {
    LegacyOfWords(AnswerWords(response))
  }

  /** The legacy verdict carried by the lower-cased words of the answer. */
  function LegacyOfWords(parts: seq<string>): Option<Classification> {
    if |parts| >= 2 then
      match ConfidenceValue(parts[1])
      case None => None
      case Some(c) =>
        if parts[0] == "да" then Some(Classification(c, c, VerdictReason(true, c)))
        else if parts[0] == "нет" then Some(Classification(-c, c, VerdictReason(false, c)))
        else None
    else None
  }

  /** parse_classification_response: a classification, or ExtractionFailedError with its message. */
  datatype ParseResult = Parsed(c: Classification) | Unparsable(message: string)

  function ParseClassificationResponse(response: string, decoded: Option<Json>): ParseResult {
    match ParseJson(decoded)
    case Some(c) => Parsed(c)
    case None =>
      match ParseLegacy(response)
      case Some(c) => Parsed(c)
      case None => Unparsable("Failed to parse classification response in any supported format: " + response)
  }

  /**
   * JSON is tried first and the legacy format second; when neither parses the
   * error message carries the response.
   */
  lemma JsonFirstThenLegacy(response: string, decoded: Option<Json>)
    ensures var r := ParseClassificationResponse(response, decoded);
      && (ParseJson(decoded).Some? ==> r == Parsed(ParseJson(decoded).value))
      && (ParseJson(decoded).None? && ParseLegacy(response).Some? ==> r == Parsed(ParseLegacy(response).value))
      && (r.Unparsable? <==> ParseJson(decoded).None? && ParseLegacy(response).None?)
      && (r.Unparsable? ==>
            r.message == "Failed to parse classification response in any supported format: " + response)
  {
  }

  // ---------------------------------------------------------------------------
  // Properties of the parsers.

  /** A JSON answer of the requested schema parses back to its own fields. */
  lemma JsonSchemaRoundTrip(isSpam: bool, confidence: int, reason: string)
    ensures ParseJson(Some(JObject(map["is_spam" := JBool(isSpam), "confidence" := JInt(confidence),
                                       "reason" := JStr(reason)])))
      == Some(Classification(if isSpam then confidence else -confidence, confidence, JsonReason(JStr(reason))))
  {
    var m := map["is_spam" := JBool(isSpam), "confidence" := JInt(confidence), "reason" := JStr(reason)];
    assert Get(m, "is_spam", JBool(false)) == JBool(isSpam);
    assert Get(m, "confidence", JInt(0)) == JInt(confidence);
    assert Get(m, "reason", JStr("No reason provided")) == JStr(reason);
  }

  /** An empty object takes every default: not spam, confidence 0. */
  lemma JsonDefaults()
    ensures ParseJson(Some(JObject(map[]))) == Some(Classification(0, 0, JsonReason(JStr("No reason provided"))))
  {
    var m: map<string, Json> := map[];
    assert Get(m, "is_spam", JBool(false)) == JBool(false);
    assert Get(m, "confidence", JInt(0)) == JInt(0);
  }

  /**
   * The legacy parser accepts exactly the answers the older classifier scores, and
   * gives them the same score; the confidence is the score's magnitude.
   */
  lemma LegacyAgreesWithOlderParser(response: string)
    ensures ParseLegacy(response).Some? <==> CommonSpamClassifier.ExtractSpamScore(response).Score?
    ensures ParseLegacy(response).Some? ==>
      ParseLegacy(response).value.score == CommonSpamClassifier.ExtractSpamScore(response).value
    ensures ParseLegacy(response).Some? ==>
      var c := ParseLegacy(response).value;
      c.score == c.confidence || c.score == -c.confidence
  {
    LegacyAgreesOnWords(AnswerWords(response));
  }

  lemma LegacyAgreesOnWords(parts: seq<string>)
    ensures LegacyOfWords(parts).Some? <==> CommonSpamClassifier.ScoreOfWords(parts).Score?
    ensures LegacyOfWords(parts).Some? ==>
      LegacyOfWords(parts).value.score == CommonSpamClassifier.ScoreOfWords(parts).value
    ensures LegacyOfWords(parts).Some? ==>
      var c := LegacyOfWords(parts).value;
      c.score == c.confidence || c.score == -c.confidence
  {
    assert "нет"[0] != "да"[0];
  }

  /** "да N": the score is +N and the confidence N. */
  lemma LegacySpamWord(w: string, c: int)
    requires ConfidenceValue(w) == Some(c)
    ensures LegacyOfWords(["да", w]) == Some(Classification(c, c, VerdictReason(true, c)))
  {
    var parts := ["да", w];
    assert parts[1] == w;
  }

  /** "нет N": the score is -N and the confidence N. */
  lemma LegacyHamWord(w: string, c: int)
    requires ConfidenceValue(w) == Some(c)
    ensures LegacyOfWords(["нет", w]) == Some(Classification(-c, c, VerdictReason(false, c)))
  {
    var parts := ["нет", w];
    assert parts[1] == w;
    assert parts[0][0] != "да"[0];
  }
  /** Anything but two or more words led by "да" or "нет" and an integer is rejected. */
  lemma LegacyRejects(parts: seq<string>)
    ensures LegacyOfWords(parts).None? <==>
      |parts| < 2 || ConfidenceValue(parts[1]).None? || !CommonSpamClassifier.IsVerdict(parts[0])
  {
  }






  /** A response that is not JSON and has no verdict raises ExtractionFailedError. */
  lemma NoVerdictUnparsable(response: string)
    requires !(|AnswerWords(response)| >= 2 && CommonSpamClassifier.IsVerdict(AnswerWords(response)[0]))
    ensures ParseClassificationResponse(response, None).Unparsable?
  {
  }

  // ---------------------------------------------------------------------------
  // The retry loop of call_llm_with_spam_classification.

  /** One call: the raw response with what json.loads made of it, or an exception. */
  datatype LlmOutcome =
    | Response(text: string, decoded: Option<Json>)
    | RateLimitExceeded
    | LocationNotSupported
    | Error(typeName: string, message: string)

  /** The exception kept as last_error: its class name and message. */
  datatype LastError = LastError(typeName: string, message: string)

  /** The result: the classification with the attempt that produced it, or ClassificationError. */
  datatype CallResult = Classified(c: Classification, attempt: nat) | ClassificationFailed(message: string)

  /** The ClassificationError message, with the last generic error when there was one. */
  function FailureMessage(last: Option<LastError>): (m: string)
    ensures StartsWith(m, "Classification failed after 3 attempts")
    ensures last.None? <==> m == "Classification failed after 3 attempts"
  {
    var head := "Classification failed after 3 attempts";
    var m := match last
      case None => head
      case Some(e) => head + ": " + e.typeName + ": " + e.message;
    assert m[..|head|] == head;
    m
  }

  /**
   * A parser of one response (text and decoded JSON). The loop is stated for any
   * parser and run with ParseClassificationResponse, so that what it does with the
   * attempts is proved apart from what the parser does with the text.
   */
  type Parser = (string, Option<Json>) -> ParseResult

  /** What one attempt does: return a classification, or go on with the new last error. */
  datatype Attempt = Done(c: Classification) | Retry(last: Option<LastError>)

  function AttemptOf(o: LlmOutcome, parse: Parser, last: Option<LastError>): (a: Attempt)
    ensures (o.RateLimitExceeded? || o.LocationNotSupported?) ==> a == Retry(last)
    ensures o.Error? ==> a == Retry(Some(LastError(o.typeName, o.message)))
    ensures o.Response? && parse(o.text, o.decoded).Unparsable? ==>
      a == Retry(Some(LastError("ExtractionFailedError", parse(o.text, o.decoded).message)))
    ensures a.Done? <==> o.Response? && parse(o.text, o.decoded).Parsed?
    ensures a.Done? ==> a.c == parse(o.text, o.decoded).c
  {
    match o
    case Response(t, d) =>
      (match parse(t, d)
       case Parsed(c) => Done(c)
       case Unparsable(m) => Retry(Some(LastError("ExtractionFailedError", m))))
    case RateLimitExceeded => Retry(last)
    case LocationNotSupported => Retry(last)
    case Error(n, m) => Retry(Some(LastError(n, m)))
  }

  /** The loop from `attempt` on. */
  function CallFrom(llm: nat -> LlmOutcome, parse: Parser, attempt: nat, last: Option<LastError>): CallResult
    decreases MAX_RETRIES + 1 - attempt
  {
    if attempt > MAX_RETRIES then ClassificationFailed(FailureMessage(last))
    else match AttemptOf(llm(attempt), parse, last)
      case Done(c) => Classified(c, attempt)
      case Retry(l) => CallFrom(llm, parse, attempt + 1, l)
  }

  /**
   * call_llm_with_spam_classification: attempts 1 to MAX_RETRIES, the first parse
   * wins; the body of the `try` block is AttemptOf.
   */
  method CallLlmWithSpamClassification(llm: nat -> LlmOutcome) returns (r: CallResult)
    ensures r == CallFrom(llm, ParseClassificationResponse, 1, None)
  {
    var lastError: Option<LastError> := None;
    for attempt := 1 to MAX_RETRIES + 1
      invariant CallFrom(llm, ParseClassificationResponse, attempt, lastError)
        == CallFrom(llm, ParseClassificationResponse, 1, None)
    {
      var outcome := AttemptOf(llm(attempt), ParseClassificationResponse, lastError);
      match outcome {
        case Done(c) => return Classified(c, attempt);
        case Retry(l) => lastError := l;
      }
    }
    return ClassificationFailed(FailureMessage(lastError));
  }

  /** Whether the outcome of an attempt parses. */
  predicate Parses(o: LlmOutcome, parse: Parser) {
    o.Response? && parse(o.text, o.decoded).Parsed?
  }

  /**
   * The result is a classification exactly when one of the attempts up to
   * MAX_RETRIES parses, and then it is the first such attempt's classification.
   */
  lemma {:induction false} FirstParsedAttemptWins(llm: nat -> LlmOutcome, parse: Parser, attempt: nat, last: Option<LastError>)
    requires 1 <= attempt
    ensures CallFrom(llm, parse, attempt, last).Classified? <==>
      exists k :: attempt <= k <= MAX_RETRIES && Parses(llm(k), parse)
    ensures CallFrom(llm, parse, attempt, last).Classified? ==>
      var k := CallFrom(llm, parse, attempt, last).attempt;
      && attempt <= k <= MAX_RETRIES && Parses(llm(k), parse)
      && CallFrom(llm, parse, attempt, last).c == parse(llm(k).text, llm(k).decoded).c
      && (forall j :: attempt <= j < k ==> !Parses(llm(j), parse))
    decreases MAX_RETRIES + 1 - attempt
  {
    if attempt <= MAX_RETRIES {
      match AttemptOf(llm(attempt), parse, last)
      case Done(c) =>
      case Retry(l) =>
        FirstParsedAttemptWins(llm, parse, attempt + 1, l);
        if CallFrom(llm, parse, attempt, last).Classified? {
          var k := CallFrom(llm, parse, attempt, last).attempt;
          assert forall j :: attempt + 1 <= j < k ==> !Parses(llm(j), parse);
        }
    }
  }

  /** No call is made past attempt MAX_RETRIES: outcomes after it never matter. */
  lemma {:induction false} AtMostMaxRetries(llm1: nat -> LlmOutcome, llm2: nat -> LlmOutcome, parse: Parser,
                                            attempt: nat, last: Option<LastError>)
    requires forall k :: 1 <= k <= MAX_RETRIES ==> llm1(k) == llm2(k)
    requires 1 <= attempt
    ensures CallFrom(llm1, parse, attempt, last) == CallFrom(llm2, parse, attempt, last)
    decreases MAX_RETRIES + 1 - attempt
  {
    if attempt <= MAX_RETRIES {
      assert llm1(attempt) == llm2(attempt);
      match AttemptOf(llm1(attempt), parse, last)
      case Done(c) =>
      case Retry(l) => AtMostMaxRetries(llm1, llm2, parse, attempt + 1, l);
    }
  }

  /**
   * When every attempt hits a rate-limit or location error the failure message
   * names no error; once a generic error (or an unparsable response) has occurred,
   * a failure message always names one.
   */
  lemma {:induction false} OnlyTransientErrorsLeaveNoError(llm: nat -> LlmOutcome, parse: Parser, attempt: nat)
    requires 1 <= attempt
    requires forall k :: attempt <= k <= MAX_RETRIES ==> llm(k).RateLimitExceeded? || llm(k).LocationNotSupported?
    ensures CallFrom(llm, parse, attempt, None) == ClassificationFailed("Classification failed after 3 attempts")
    decreases MAX_RETRIES + 1 - attempt
  {
    if attempt <= MAX_RETRIES {
      OnlyTransientErrorsLeaveNoError(llm, parse, attempt + 1);
    }
  }

  /** Once a generic error has been recorded, a failure message names an error. */
  lemma {:induction false} NeverLosesError(llm: nat -> LlmOutcome, parse: Parser, attempt: nat, last: Option<LastError>)
    requires last.Some?
    ensures CallFrom(llm, parse, attempt, last) != ClassificationFailed("Classification failed after 3 attempts")
    decreases MAX_RETRIES + 1 - attempt
  {
    if attempt <= MAX_RETRIES {
      match AttemptOf(llm(attempt), parse, last)
      case Done(c) =>
      case Retry(l) => NeverLosesError(llm, parse, attempt + 1, l);
    }
  }
}
