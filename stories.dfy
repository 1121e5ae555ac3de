/**
 * Collecting a user's pinned stories into a context result
 * (src/app/spam/stories.py). The MTProto call `stories.getPeerStories` is a
 * parameter: either the story items it returned or the error it raised.
 */
module Stories {
  import opened Text
  import opened Types

  /** One story item of the response: its `_` type, id, date, caption and entities. */
  datatype StoryItem = StoryItem(kind: Option<string>, id: int, date: int, caption: Option<string>, entities: Option<seq<Entity>>)

  /** What the MTProto call produced. */
  datatype StoriesFetch = Fetched(items: seq<StoryItem>) | FetchError(message: string)

  predicate Deleted(s: StoryItem) {
    s.kind == Some("storyItemDeleted")
  }

  /** A story worth summarising: not deleted, and with a caption or some entities. */
  predicate HasText(s: StoryItem) {
    !Deleted(s) && (Truthy(s.caption) || (s.entities.Some? && s.entities.value != []))
  }

  /** The StorySummary of stories.py: a summary with no media. */
  function Summary(s: StoryItem): string {
    StoryToString(StorySummary(s.id, s.date, s.caption, s.entities, None, None))
  }

  /** The summaries of the stories worth summarising, in order. */
  function Summaries(items: seq<StoryItem>): (r: seq<string>)
    ensures |r| <= |items|
  {
    if items == [] then []
    else Summaries(items[..|items| - 1]) + (if HasText(items[|items| - 1]) then [Summary(items[|items| - 1])] else [])
  }

  /** The summaries are empty exactly when no story is worth summarising. */
  lemma {:induction false} SummariesEmpty(items: seq<StoryItem>)
    ensures Summaries(items) == [] <==> forall i :: 0 <= i < |items| ==> !HasText(items[i])
  {
    if items != [] {
      var init := items[..|items| - 1];
      SummariesEmpty(init);
      assert forall i :: 0 <= i < |init| ==> init[i] == items[i];
    }
  }

  /** Every story worth summarising contributes its summary. */
  lemma {:induction false} SummaryIncluded(items: seq<StoryItem>, k: nat)
    requires k < |items| && HasText(items[k])
    ensures Summary(items[k]) in Summaries(items)
  {
    var init := items[..|items| - 1];
    if k < |items| - 1 {
      SummaryIncluded(init, k);
      assert init[k] == items[k];
    }
  }

  /** Deleted stories and stories without text contribute nothing. */
  lemma {:induction false} SkippedStories(items: seq<StoryItem>, s: StoryItem)
    requires !HasText(s)
    ensures Summaries(items + [s]) == Summaries(items)
  {
    assert (items + [s])[..|items|] == items;
  }

  /** collect_user_stories. */
  method CollectUserStories(fetch: StoriesFetch) returns (r: ContextResult<string>)
    ensures fetch.FetchError? ==> r == ContextResult(Failed, None, Some(fetch.message))
    ensures fetch.Fetched? && Summaries(fetch.items) == [] ==> r == ContextResult(Empty, None, None)
    ensures fetch.Fetched? && Summaries(fetch.items) != [] ==>
      r == ContextResult(Found, Some(Join("\n", Summaries(fetch.items))), None)
  {
    if fetch.FetchError? {
      return ContextResult(Failed, None, Some(fetch.message));
    }
    var items := fetch.items;
    if items == [] {
      return ContextResult(Empty, None, None);
    }
    var summaries: seq<string> := [];
    for i := 0 to |items|
      invariant summaries == Summaries(items[..i])
    {
      var story := items[i];
      assert items[..i + 1][..i] == items[..i];
      if Deleted(story) {
        continue;
      }
      if !Truthy(story.caption) && !(story.entities.Some? && story.entities.value != []) {
        continue;
      }
      summaries := summaries + [Summary(story)];
    }
    assert items[..|items|] == items;
    if summaries == [] {
      return ContextResult(Empty, None, None);
    }
    return ContextResult(Found, Some(Join("\n", summaries)), None);
  }

  /** The status is FOUND exactly when some story is neither deleted nor without text. */
  lemma FoundIffSomeStoryHasText(items: seq<StoryItem>)
    ensures Summaries(items) != [] <==> exists i :: 0 <= i < |items| && HasText(items[i])
  {
    SummariesEmpty(items);
  }
}
