/**
 * Extraction of the classifier's legacy plain-text answer ("да 85%" / "нет 10%"),
 * shared by the older classifier (src/app/common/spam_classifier.py) and the
 * legacy fallback of the newer client (src/app/spam/llm_client.py). Both use the
 * same two regular expressions:
 *
 *   r"<[^>]+>(.*?)<[^>]+>"  (DOTALL)  -- the text between the first pair of tags
 *   r"^(.*)<[^>]+>"         (DOTALL)  -- the text before the last tag
 *
 * and fall back to the whole response. The functions below spell out what a
 * leftmost regex search with these patterns finds.
 */
module AnswerTags {
  import opened Text

  /** Index of the first '>' at or after `from`. */
  function FirstGt(s: string, from: nat): (r: Option<nat>)
    requires from <= |s|
    ensures r.Some? ==> from <= r.value < |s| && s[r.value] == '>'
    decreases |s| - from
  {
    if from == |s| then None
    else if s[from] == '>' then Some(from)
    else FirstGt(s, from + 1)
  }

  /**
   * Where the tag `<[^>]+>` that starts at `i` ends (the index of its '>'), if a tag
   * starts there: a '<', at least one character other than '>', then the first '>'.
   */
  function TagEnd(s: string, i: nat): (r: Option<nat>)
    requires i <= |s|
    ensures r.Some? ==> i + 1 < r.value < |s| && s[i] == '<' && s[r.value] == '>'
  {
    if i < |s| && s[i] == '<' then
      match FirstGt(s, i + 1)
      case Some(j) => if j > i + 1 then Some(j) else None
      case None => None
    else None
  }

  /** The leftmost index at or after `from` where a tag starts (what a lazy `.*?` stops at). */
  function FirstTag(s: string, from: nat): (r: Option<nat>)
    requires from <= |s|
    ensures r.Some? ==> from <= r.value < |s| && TagEnd(s, r.value).Some?
    decreases |s| - from
  {
    if from == |s| then None
    else if TagEnd(s, from).Some? then Some(from)
    else FirstTag(s, from + 1)
  }

  /** The rightmost index below `upto` where a tag starts (what a greedy `.*` stops at). */
  function LastTag(s: string, upto: nat): (r: Option<nat>)
    requires upto <= |s|
    ensures r.Some? ==> r.value < upto && TagEnd(s, r.value).Some?
  {
    if upto == 0 then None
    else if TagEnd(s, upto - 1).Some? then Some(upto - 1)
    else LastTag(s, upto - 1)
  }

  /** True when a tag starts at `i` and another one starts somewhere after it. */
  predicate PairAt(s: string, i: nat)
    requires i <= |s|
  {
    TagEnd(s, i).Some? && FirstTag(s, TagEnd(s, i).value + 1).Some?
  }

  /**
   * `re.search(r"<[^>]+>(.*?)<[^>]+>", s, re.DOTALL)` from position `from`:
   * the leftmost opening tag that is followed by another tag, and group 1 is the
   * text up to the nearest following tag.
   */
  function SearchPair(s: string, from: nat): Option<string>
    requires from <= |s|
    decreases |s| - from
  {
    if from == |s| then None
    else if PairAt(s, from) then
      var j := TagEnd(s, from).value;
      Some(s[j + 1..FirstTag(s, j + 1).value])
    else SearchPair(s, from + 1)
  }

  /** The search succeeds exactly when some position from `from` on opens a pair of tags. */
  lemma {:induction false} SearchPairFinds(s: string, from: nat)
    requires from <= |s|
    ensures SearchPair(s, from).Some? <==> exists i :: from <= i <= |s| && PairAt(s, i)
    decreases |s| - from
  {
    if from == |s| {
      assert !PairAt(s, from);
    } else if !PairAt(s, from) {
      SearchPairFinds(s, from + 1);
      if SearchPair(s, from).None? {
        forall i | from <= i <= |s| ensures !PairAt(s, i) {
          if i > from {
            assert !(from + 1 <= i <= |s| && PairAt(s, i));
          }
        }
      }
    }
  }

  /**
   * The answer text: between the first pair of tags; else everything before the
   * last tag (a response with only a closing tag); else the whole response;
   * stripped of surrounding whitespace in every case.
   */
  function ExtractAnswer(response: string): string
  {
    match SearchPair(response, 0)
    case Some(inner) => Strip(inner)
    case None =>
      match LastTag(response, |response|)
      case Some(k) => Strip(response[..k])
      case None => Strip(response)
  }

  /** `answer.lower().split()` */
  function AnswerWords(response: string): seq<string>
  {
    Words(Lower(ExtractAnswer(response)))
  }

  /** `int(token.replace("%", "").strip())`, None standing for ValueError. */
  function ConfidenceValue(token: string): Option<int>
  {
    ParseInt(Strip(RemoveChar(token, '%')))
  }

  // ---------------------------------------------------------------------------
  // What the extraction finds on the shapes of answers the prompts ask for.

  /** With no '<' at all there is no tag, so the whole response (stripped) is the answer. */
  lemma {:induction false} NoTagMeansWholeResponse(s: string)
    requires '<' !in s
    ensures ExtractAnswer(s) == Strip(s)
  {
    forall k | 0 <= k <= |s| ensures TagEnd(s, k).None? {
    }
    forall i | 0 <= i <= |s| ensures !PairAt(s, i) {
    }
    SearchPairFinds(s, 0);
    assert LastTag(s, |s|).None?;
  }

  /** A tag name: non-empty and free of '>' and '<'. */
  predicate TagName(t: string) {
    t != [] && '>' !in t && '<' !in t
  }

  lemma TagAtStart(s: string, t: string)
    requires TagName(t)
    requires StartsWith(s, "<" + t + ">")
    ensures TagEnd(s, 0) == Some(|t| + 1)
  {
    var tag := "<" + t + ">";
    assert s[..|tag|] == tag;
    assert s[|t| + 1] == '>';
    assert forall k :: 1 <= k < |t| + 1 ==> s[k] == t[k - 1];
    assert FirstGt(s, 1) == Some(|t| + 1) by {
      FirstGtIs(s, 1, |t| + 1);
    }
  }

  lemma {:induction false} FirstGtIs(s: string, from: nat, j: nat)
    requires from <= j < |s| && s[j] == '>'
    requires forall k :: from <= k < j ==> s[k] != '>'
    ensures FirstGt(s, from) == Some(j)
    decreases j - from
  {
    if from < j {
      FirstGtIs(s, from + 1, j);
    }
  }

  /** No tag starts at an index that does not hold '<'. */
  lemma NoTagWithoutLt(s: string, k: nat)
    requires k <= |s| && (k == |s| || s[k] != '<')
    ensures TagEnd(s, k).None?
  {
  }

  lemma {:induction false} FirstTagIs(s: string, from: nat, k: nat)
    requires from <= k < |s| && TagEnd(s, k).Some?
    requires forall m :: from <= m < k ==> s[m] != '<'
    ensures FirstTag(s, from) == Some(k)
    decreases k - from
  {
    if from < k {
      NoTagWithoutLt(s, from);
      FirstTagIs(s, from + 1, k);
    }
  }

  /**
   * A response of the requested shape `<open> body <close>` whose body holds no '<'
   * yields exactly the stripped body.
   */
  lemma TaggedAnswer(t1: string, body: string, t2: string)
    requires TagName(t1) && TagName(t2) && '<' !in body
    ensures ExtractAnswer("<" + t1 + ">" + body + "<" + t2 + ">") == Strip(body)
  {
    var s := "<" + t1 + ">" + body + "<" + t2 + ">";
    var j := |t1| + 1;
    var k := |t1| + 2 + |body|;
    TagAtStart(s, t1);
    assert s[k..] == "<" + t2 + ">";
    TagAtStart(s[k..], t2);
    assert TagEnd(s, k).Some? by {
      assert s[k] == '<' && s[k + 1] == t2[0] && s[|s| - 1] == '>';
      TagStartsAt(s, k, |s| - 1);
    }
    assert forall m :: j + 1 <= m < k ==> s[m] == body[m - j - 1];
    FirstTagIs(s, j + 1, k);
    assert PairAt(s, 0);
    assert s[j + 1..k] == body;
  }

  /**
   * A response with only a closing tag, `body <close>`, with no '<' in the body,
   * yields the stripped body.
   */
  lemma ClosingTagOnlyAnswer(body: string, t2: string)
    requires TagName(t2) && '<' !in body
    ensures ExtractAnswer(body + "<" + t2 + ">") == Strip(body)
  {
    var s := body + "<" + t2 + ">";
    var k := |body|;
    assert s[k..] == "<" + t2 + ">";
    assert TagEnd(s, k).Some? by {
      assert s[k] == '<' && s[k + 1] == t2[0] && s[|s| - 1] == '>';
      TagStartsAt(s, k, |s| - 1);
    }
    forall m | 0 <= m <= |s| && m != k ensures TagEnd(s, m).None? {
      if m < k {
        assert s[m] == body[m];
      } else if m < |s| {
        assert s[m] != '<' by {
          if m < |s| - 1 { assert s[m] == t2[m - k - 1]; }
        }
      }
    }
    forall i | 0 <= i <= |s| ensures !PairAt(s, i) {
      if i == k {
        assert forall m :: k + 1 <= m < |s| - 1 ==> s[m] == t2[m - k - 1];
        FirstGtIs(s, k + 1, |s| - 1);
        assert TagEnd(s, k).value == |s| - 1;
      }
    }
    SearchPairFinds(s, 0);
    assert LastTag(s, |s|) == Some(k) by {
      assert forall m :: k < m < |s| ==> TagEnd(s, m).None?;
      LastTagIs(s, |s|, k);
    }
    assert s[..k] == body;
  }

  lemma {:induction false} LastTagIs(s: string, upto: nat, k: nat)
    requires k < upto <= |s| && TagEnd(s, k).Some?
    requires forall m :: k < m < upto ==> TagEnd(s, m).None?
    ensures LastTag(s, upto) == Some(k)
    decreases upto - k
  {
    if upto - 1 != k {
      LastTagIs(s, upto - 1, k);
    }
  }

  /** The first '>' found is the first one: none lies between `from` and it. */
  lemma {:induction false} FirstGtIsFirst(s: string, from: nat)
    requires from <= |s|
    ensures FirstGt(s, from).Some? ==> forall i :: from <= i < FirstGt(s, from).value ==> s[i] != '>'
    ensures FirstGt(s, from).None? ==> forall i :: from <= i < |s| ==> s[i] != '>'
    decreases |s| - from
  {
    if from < |s| && s[from] != '>' {
      FirstGtIsFirst(s, from + 1);
    }
  }

  /** A tag starts wherever a '<' is followed by a character other than '>' and, later, by a '>'. */
  lemma TagStartsAt(s: string, i: nat, j: nat)
    requires i + 1 < j < |s| && s[i] == '<' && s[i + 1] != '>' && s[j] == '>'
    ensures TagEnd(s, i).Some?
  {
    FirstGtIsFirst(s, i + 1);
  }

  /** The tag found by the lazy search is the leftmost one. */
  lemma {:induction false} FirstTagIsFirst(s: string, from: nat)
    requires from <= |s|
    ensures FirstTag(s, from).Some? ==> forall k :: from <= k < FirstTag(s, from).value ==> TagEnd(s, k).None?
    ensures FirstTag(s, from).None? ==> forall k :: from <= k <= |s| ==> TagEnd(s, k).None?
    decreases |s| - from
  {
    if from < |s| && TagEnd(s, from).None? {
      FirstTagIsFirst(s, from + 1);
    }
  }

  /** The tag found by the greedy search is the rightmost one. */
  lemma {:induction false} LastTagIsLast(s: string, upto: nat)
    requires upto <= |s|
    ensures LastTag(s, upto).Some? ==> forall k :: LastTag(s, upto).value < k < upto ==> TagEnd(s, k).None?
    ensures LastTag(s, upto).None? ==> forall k :: 0 <= k < upto ==> TagEnd(s, k).None?
  {
    if upto > 0 && TagEnd(s, upto - 1).None? {
      LastTagIsLast(s, upto - 1);
    }
  }
}
