/**
 * The value types of the classification context (src/app/types.py): the
 * four-state result of a context lookup, the linked-channel and account summaries
 * with their prompt fragments, the guidance flags of a classification context,
 * and the one-line summary of a story.
 */
module Types {
  import opened Text

  /** The outcome of one context lookup. */
  datatype ContextStatus = Found | Empty | Failed | Skipped

  datatype ContextResult<T> = ContextResult(status: ContextStatus, content: Option<T>, error: Option<string>)

  /** A result that says something about the user: the lookup ran and found data or found none. */
  predicate Informative<T>(r: Option<ContextResult<T>>) {
    r.Some? && (r.value.status == Found || r.value.status == Empty)
  }

  /** The result with its content rendered to text by `render`. */
  function MapContent<T>(r: ContextResult<T>, render: T -> string): (m: ContextResult<string>)
    ensures m.status == r.status && m.error == r.error
    ensures m.content.Some? <==> r.content.Some?
  {
    ContextResult(r.status, if r.content.Some? then Some(render(r.content.value)) else None, r.error)
  }

  /** An optional count rendered as its digits, or "unknown". */
  function CountText(o: Option<int>): (r: string)
    ensures o.None? <==> r == "unknown"
  {
    if o.Some? then
      var t := IntToString(o.value);
      assert t[0] != 'u';
      t
    else "unknown"
  }

  // ---------------------------------------------------------------------------
  // LinkedChannelSummary

  /** The summary of a linked channel; `users` and `channel_id` are never rendered and are left out. */
  datatype LinkedChannelSummary = LinkedChannelSummary(
    subscribers: Option<int>, totalPosts: Option<int>, postAgeDelta: Option<int>,
    recentPosts: Option<seq<string>>, channelSource: Option<string>)

  /** The age field: "unknown" for a missing or negative delta, else the months with "mo". */
  function AgeDeltaText(d: Option<int>): string {
    if d.None? || d.value < 0 then "unknown" else IntToString(d.value) + "mo"
  }

  /** A recent post kept for the prompt: its 1-based position and its stripped text. */
  datatype Snippet = Snippet(number: nat, content: string)

  /** How many recent posts the fragment looks at. */
  const MAX_POSTS: nat := 3

  /** Each post with surrounding whitespace removed. */
  function StripAll(posts: seq<string>): (r: seq<string>)
    ensures |r| == |posts|
  {
    if posts == [] then [] else [Strip(posts[0])] + StripAll(posts[1..])
  }

  lemma {:induction false} StripAllAt(posts: seq<string>, k: nat)
    requires k < |posts|
    ensures StripAll(posts)[k] == Strip(posts[k])
  {
    assert StripAll(posts) == [Strip(posts[0])] + StripAll(posts[1..]);
    if k > 0 {
      StripAllAt(posts[1..], k - 1);
    }
  }

  /** The non-empty texts among `stripped[i..]`, numbered by position. */
  function Snippets(stripped: seq<string>, i: nat): (r: seq<Snippet>)
    requires i <= |stripped|
    ensures |r| <= |stripped| - i
    decreases |stripped| - i
  {
    if i == |stripped| then []
    else if stripped[i] != "" then [Snippet(i + 1, stripped[i])] + Snippets(stripped, i + 1)
    else Snippets(stripped, i + 1)
  }

  /** Every snippet is a non-empty text of the list, in the order of the list. */
  lemma {:induction false} SnippetsSound(stripped: seq<string>, i: nat)
    requires i <= |stripped|
    ensures forall j :: 0 <= j < |Snippets(stripped, i)| ==>
      i < Snippets(stripped, i)[j].number <= |stripped|
      && Snippets(stripped, i)[j].content == stripped[Snippets(stripped, i)[j].number - 1] != ""
    ensures forall j :: 0 <= j < |Snippets(stripped, i)| - 1 ==>
      Snippets(stripped, i)[j].number < Snippets(stripped, i)[j + 1].number
    decreases |stripped| - i
  {
    if i < |stripped| {
      SnippetsSound(stripped, i + 1);
      var rest := Snippets(stripped, i + 1);
      var r := Snippets(stripped, i);
      if stripped[i] != "" {
        assert r == [Snippet(i + 1, stripped[i])] + rest;
        forall j | 1 <= j < |r|
          ensures r[j] == rest[j - 1] && i + 1 < r[j].number
        {
          assert 0 <= j - 1 < |rest|;
          assert i + 1 < rest[j - 1].number;
        }
      } else {
        assert r == rest;
      }
    }
  }

  /** Every non-empty text from position `i` on is among the snippets. */
  lemma {:induction false} SnippetsComplete(stripped: seq<string>, i: nat, k: nat)
    requires i <= k < |stripped| && stripped[k] != ""
    ensures exists j :: 0 <= j < |Snippets(stripped, i)| && Snippets(stripped, i)[j].number == k + 1
    decreases |stripped| - i
  {
    var r := Snippets(stripped, i);
    if k == i {
      assert r[0].number == k + 1;
    } else {
      SnippetsComplete(stripped, i + 1, k);
      var rest := Snippets(stripped, i + 1);
      var j :| 0 <= j < |rest| && rest[j].number == k + 1;
      if stripped[i] != "" {
        assert r == [Snippet(i + 1, stripped[i])] + rest;
        assert r[j + 1] == rest[j];
      } else {
        assert r == rest;
      }
    }
  }

  function RenderSnippets(s: seq<Snippet>): (r: seq<string>)
    ensures |r| == |s|
  {
    if s == [] then []
    else ["post_" + NatToString(s[0].number) + ": " + s[0].content] + RenderSnippets(s[1..])
  }

  /** The first `MAX_POSTS` posts of the list (a slice that tolerates shorter lists). */
  function FirstPosts(posts: seq<string>): (r: seq<string>)
    ensures |r| <= MAX_POSTS && |r| <= |posts| && r == posts[..|r|]
    ensures |posts| >= MAX_POSTS ==> |r| == MAX_POSTS
  {
    if |posts| <= MAX_POSTS then posts else posts[..MAX_POSTS]
  }

  /** The `recent_posts=[...]` part, present only when some of the first posts is not blank. */
  function RecentPostsPart(posts: Option<seq<string>>): Option<string> {
    if posts.None? || posts.value == [] then None
    else
      var snippets := PostSnippets(posts.value);
      if snippets == [] then None
      else Some("recent_posts=[\n" + Join("\n\n", RenderSnippets(snippets)) + "\n]")
  }

  /** The three fields LinkedChannelSummary.to_prompt_fragment always renders. */
  function HeadParts(s: LinkedChannelSummary): seq<string> {
    ["subscribers=" + CountText(s.subscribers),
     "total_posts=" + CountText(s.totalPosts),
     "age_delta=" + AgeDeltaText(s.postAgeDelta)]
  }

  /** The optional fields: the channel source when set, then the recent posts. */
  function TailParts(s: LinkedChannelSummary): seq<string> {
    (if Truthy(s.channelSource) then ["channel_source=" + s.channelSource.value] else [])
    + (var p := RecentPostsPart(s.recentPosts); if p.Some? then [p.value] else [])
  }

  /** The `; `-separated parts of LinkedChannelSummary.to_prompt_fragment. */
  function LinkedParts(s: LinkedChannelSummary): seq<string> {
    HeadParts(s) + TailParts(s)
  }

  function LinkedFragment(s: LinkedChannelSummary): string {
    Join("; ", LinkedParts(s))
  }

  /** Two texts behind the same label are equal exactly when the texts are. */
  lemma LabelCancels(prefix: string, a: string, b: string)
    ensures prefix + a == prefix + b <==> a == b
  {
    if prefix + a == prefix + b {
      assert a == (prefix + a)[|prefix|..] && b == (prefix + b)[|prefix|..];
    }
  }

  /** A missing count reads "unknown"; a known one reads as its digits. */
  lemma LinkedCounts(s: LinkedChannelSummary)
    ensures |LinkedParts(s)| >= 3
    ensures LinkedParts(s)[0] == "subscribers=unknown" <==> s.subscribers.None?
    ensures LinkedParts(s)[1] == "total_posts=unknown" <==> s.totalPosts.None?
    ensures s.subscribers.Some? ==> LinkedParts(s)[0] == "subscribers=" + IntToString(s.subscribers.value)
  {
    var h := HeadParts(s);
    assert LinkedParts(s) == h + TailParts(s);
    assert LinkedParts(s)[0] == h[0] && LinkedParts(s)[1] == h[1];
    LabelCancels("subscribers=", CountText(s.subscribers), "unknown");
    LabelCancels("total_posts=", CountText(s.totalPosts), "unknown");
    assert "subscribers=unknown" == "subscribers=" + "unknown";
    assert "total_posts=unknown" == "total_posts=" + "unknown";
  }

  /** A missing or negative age delta reads "unknown"; any other reads as its months with "mo". */
  lemma LinkedAgeDelta(s: LinkedChannelSummary)
    ensures LinkedParts(s)[2] == "age_delta=unknown" <==> (s.postAgeDelta.None? || s.postAgeDelta.value < 0)
    ensures s.postAgeDelta.Some? && s.postAgeDelta.value >= 0 ==>
      LinkedParts(s)[2] == "age_delta=" + NatToString(s.postAgeDelta.value) + "mo"
  {
    var h := HeadParts(s);
    assert LinkedParts(s)[2] == h[2];
    if s.postAgeDelta.Some? && s.postAgeDelta.value >= 0 {
      var d := "age_delta=" + (IntToString(s.postAgeDelta.value) + "mo");
      assert d[|d| - 1] == 'o';
      assert "age_delta=unknown"[16] == 'n';
      assert h[2] == d;
    }
  }

  /** The fragment always opens with the subscriber count; the optional parts follow the fixed three. */
  lemma LinkedFragmentShape(s: LinkedChannelSummary)
    ensures StartsWith(LinkedFragment(s), HeadParts(s)[0])
    ensures 3 <= |LinkedParts(s)| <= 5
    ensures |LinkedParts(s)| >= 4 ==> Truthy(s.channelSource) || s.recentPosts.Some?
  {
    JoinStartsWithFirst("; ", LinkedParts(s));
  }

  /** The snippets the fragment renders for a list of recent posts. */
  function PostSnippets(posts: seq<string>): seq<Snippet> {
    Snippets(StripAll(FirstPosts(posts)), 0)
  }

  /**
   * At most the first three posts are rendered, each stripped and never blank,
   * in their order.
   */
  lemma RecentPostsSound(posts: seq<string>)
    ensures |PostSnippets(posts)| <= MAX_POSTS
    ensures forall j :: 0 <= j < |PostSnippets(posts)| ==>
      1 <= PostSnippets(posts)[j].number <= MAX_POSTS && PostSnippets(posts)[j].number <= |posts|
      && PostSnippets(posts)[j].content == Strip(posts[PostSnippets(posts)[j].number - 1])
      && PostSnippets(posts)[j].content != ""
    ensures forall j :: 0 <= j < |PostSnippets(posts)| - 1 ==>
      PostSnippets(posts)[j].number < PostSnippets(posts)[j + 1].number
  {
    var f := FirstPosts(posts);
    var st := StripAll(f);
    var r := PostSnippets(posts);
    assert r == Snippets(st, 0);
    SnippetsSound(st, 0);
    forall j | 0 <= j < |r|
      ensures 1 <= r[j].number <= |f| && r[j].content == Strip(posts[r[j].number - 1])
    {
      var n := r[j].number;
      StripAllAt(f, n - 1);
      assert f[n - 1] == posts[n - 1];
    }
  }

  /** Every non-blank post among the first three is rendered. */
  lemma RecentPostsComplete(posts: seq<string>, k: nat)
    requires k < |posts| && k < MAX_POSTS && Strip(posts[k]) != ""
    ensures exists j :: 0 <= j < |PostSnippets(posts)| && PostSnippets(posts)[j].number == k + 1
  {
    var f := FirstPosts(posts);
    var st := StripAll(f);
    assert k < |f| && f[k] == posts[k];
    StripAllAt(f, k);
    assert st[k] != "";
    SnippetsComplete(st, 0, k);
    var r := Snippets(st, 0);
    var j :| 0 <= j < |r| && r[j].number == k + 1;
    assert PostSnippets(posts) == r;
  }

  // ---------------------------------------------------------------------------
  // UserAccountInfo

  /** A calendar month; the clock reading `datetime.now()` is a parameter of the fragment. */
  datatype YearMonth = YearMonth(year: int, month: int)

  datatype UserAccountInfo = UserAccountInfo(userId: int, photoDate: Option<YearMonth>)

  /** photo_age_months: whole calendar months from the profile photo to `now`. */
  function PhotoAgeMonths(info: UserAccountInfo, now: YearMonth): (r: Option<int>)
    ensures r.None? <==> info.photoDate.None?
    ensures r.Some? ==> r.value == (now.year * 12 + now.month) - (info.photoDate.value.year * 12 + info.photoDate.value.month)
  {
    if info.photoDate.None? then None
    else Some((now.year - info.photoDate.value.year) * 12 + now.month - info.photoDate.value.month)
  }

  /** UserAccountInfo.to_prompt_fragment. */
  function AccountFragment(info: UserAccountInfo, now: YearMonth): string {
    var age := PhotoAgeMonths(info, now);
    if age.Some? then "photo_age=" + NatToString(if age.value < 0 then 0 else age.value) + "mo"
    else "photo_age=unknown"
  }

  /** A photo dated after `now` reads as zero months old; no photo reads "unknown". */
  lemma AccountFragmentCases(info: UserAccountInfo, now: YearMonth)
    ensures info.photoDate.None? ==> AccountFragment(info, now) == "photo_age=unknown"
    ensures info.photoDate.Some? && now.year * 12 + now.month <= info.photoDate.value.year * 12 + info.photoDate.value.month
      ==> AccountFragment(info, now) == "photo_age=0mo"
    ensures info.photoDate.Some? ==> AccountFragment(info, now) != "photo_age=unknown"
  {
    if info.photoDate.Some? {
      var f := AccountFragment(info, now);
      assert f[|f| - 1] == 'o';
    }
  }

  // ---------------------------------------------------------------------------
  // SpamClassificationContext

  datatype SpamClassificationContext = SpamClassificationContext(
    name: Option<string>, bio: Option<string>,
    linkedChannel: Option<ContextResult<LinkedChannelSummary>>,
    stories: Option<ContextResult<string>>,
    reply: Option<string>,
    accountAge: Option<ContextResult<UserAccountInfo>>)

  /** What the lookups found about a user sender, before it becomes a classification context. */
  datatype UserContext = UserContext(
    stories: ContextResult<string>,
    linkedChannel: ContextResult<LinkedChannelSummary>,
    accountInfo: ContextResult<UserAccountInfo>)

  /** The context of a request without any enrichment. */
  const EmptyContext := SpamClassificationContext(None, None, None, None, None, None)

  predicate IncludeLinkedChannelGuidance(c: SpamClassificationContext) {
    Informative(c.linkedChannel)
  }

  predicate IncludeStoriesGuidance(c: SpamClassificationContext) {
    Informative(c.stories)
  }

  predicate IncludeReplyGuidance(c: SpamClassificationContext) {
    c.reply.Some?
  }

  predicate IncludeAccountAgeGuidance(c: SpamClassificationContext) {
    Informative(c.accountAge)
  }

  predicate IncludeAiDetectionGuidance(c: SpamClassificationContext) {
    IncludeReplyGuidance(c) || IncludeStoriesGuidance(c) || IncludeLinkedChannelGuidance(c)
  }

  /**
   * Guidance for a context section is included exactly when its lookup ran and
   * did not fail: a missing, FAILED or SKIPPED result never adds guidance.
   */
  lemma GuidanceFlags(c: SpamClassificationContext)
    ensures IncludeLinkedChannelGuidance(c) <==>
      c.linkedChannel.Some? && c.linkedChannel.value.status !in {Failed, Skipped}
    ensures IncludeStoriesGuidance(c) <==> c.stories.Some? && c.stories.value.status !in {Failed, Skipped}
    ensures IncludeAccountAgeGuidance(c) <==> c.accountAge.Some? && c.accountAge.value.status !in {Failed, Skipped}
    ensures IncludeAiDetectionGuidance(c) <==>
      c.reply.Some? || IncludeStoriesGuidance(c) || IncludeLinkedChannelGuidance(c)
    ensures !IncludeAiDetectionGuidance(EmptyContext) && !IncludeAccountAgeGuidance(EmptyContext)
  {
  }

  // ---------------------------------------------------------------------------
  // StorySummary

  /** A message entity of a story: its `_` type and its `url`. */
  datatype Entity = Entity(kind: Option<string>, url: Option<string>)

  /** A clickable area on a story's media. */
  datatype MediaArea = MediaArea(kind: Option<string>, url: Option<string>)

  /** A story's media: its `_` type, `webpage.url` and `media_areas`. */
  datatype Media = Media(kind: Option<string>, webpageUrl: Option<string>, mediaAreas: seq<MediaArea>)

  datatype StorySummary = StorySummary(
    id: int, date: int, caption: Option<string>, entities: Option<seq<Entity>>,
    media: Option<Media>, mediaAreas: Option<seq<MediaArea>>)

  predicate IsUrlArea(a: MediaArea) {
    a.kind == Some("MediaAreaUrl") && Truthy(a.url)
  }

  /** "Link: <url>" for every text-URL entity (a missing url prints as "None"). */
  function EntityLinks(es: seq<Entity>): (r: seq<string>)
    ensures |r| <= |es|
  {
    if es == [] then []
    else
      var head := if es[0].kind == Some("messageEntityTextUrl") then ["Link: " + PyStr(es[0].url)] else [];
      head + EntityLinks(es[1..])
  }

  /** "Link: <url>" for every URL area with a non-empty url. */
  function AreaLinks(areas: seq<MediaArea>): (r: seq<string>)
    ensures r == [] <==> forall i :: 0 <= i < |areas| ==> !IsUrlArea(areas[i])
  {
    if areas == [] then []
    else
      var head := if IsUrlArea(areas[0]) then ["Link: " + areas[0].url.value] else [];
      head + AreaLinks(areas[1..])
  }

  /** The links of a story's media: a web page's url, or a document's URL areas. */
  function MediaLinks(m: Media): seq<string> {
    if m.kind == Some("messageMediaWebPage") then
      (if Truthy(m.webpageUrl) then ["Link: " + m.webpageUrl.value] else [])
    else if m.kind == Some("messageMediaDocument") then AreaLinks(m.mediaAreas)
    else []
  }

  /** A "Links: a, b" part, present when there is at least one link. */
  function LinksPart(links: seq<string>): seq<string> {
    if links == [] then [] else ["Links: " + Join(", ", links)]
  }

  function StoryEntityLinks(s: StorySummary): seq<string> {
    if s.entities.Some? then EntityLinks(s.entities.value) else []
  }

  function StoryMediaLinks(s: StorySummary): seq<string> {
    if s.media.Some? then MediaLinks(s.media.value) else []
  }

  function StoryAreaLinks(s: StorySummary): seq<string> {
    if s.mediaAreas.Some? then AreaLinks(s.mediaAreas.value) else []
  }

  function StoryParts(s: StorySummary): seq<string> {
    (if Truthy(s.caption) then ["Caption: " + s.caption.value] else [])
    + LinksPart(StoryEntityLinks(s)) + LinksPart(StoryMediaLinks(s)) + LinksPart(StoryAreaLinks(s))
  }

  /** StorySummary.to_string. */
  function StoryToString(s: StorySummary): string {
    var parts := StoryParts(s);
    if parts == [] then "Media story" else Join(" | ", parts)
  }

  /** StorySummary._media_has_links_static. */
  predicate MediaHasLinks(media: Option<Media>, areas: Option<seq<MediaArea>>) {
    (areas.Some? && exists i :: 0 <= i < |areas.value| && IsUrlArea(areas.value[i]))
    || (media.Some? && media.value.kind == Some("messageMediaWebPage") && Truthy(media.value.webpageUrl))
  }

  /** A story reads "Media story" exactly when it has no caption and no link of any kind. */
  lemma MediaStoryIffNothingToSay(s: StorySummary)
    ensures StoryToString(s) == "Media story" <==>
      !Truthy(s.caption) && StoryEntityLinks(s) == [] && StoryMediaLinks(s) == [] && StoryAreaLinks(s) == []
  {
    var parts := StoryParts(s);
    if parts != [] {
      JoinStartsWithFirst(" | ", parts);
      assert parts[0][0] == 'C' || parts[0][0] == 'L';
      assert StoryToString(s)[0] != 'M';
    }
  }

  /** Media that _media_has_links_static flags always shows up as links in the summary. */
  lemma MediaLinksShown(s: StorySummary)
    requires MediaHasLinks(s.media, s.mediaAreas)
    ensures StoryToString(s) != "Media story"
  {
    MediaStoryIffNothingToSay(s);
  }
}
