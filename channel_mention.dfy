/**
 * Finding the first channel username mentioned in a bio or message
 * (src/app/spam/linked_channel_mention.py). Message entities are tried first; then
 * the text is searched for `@username`, then for `t.me/username`. The three
 * regular expressions are written out as leftmost-match searches.
 */
module ChannelMention {
  import opened Text

  /** `[a-zA-Z0-9_]` */
  predicate UsernameChar(c: char) {
    ('a' <= c <= 'z') || ('A' <= c <= 'Z') || ('0' <= c <= '9') || c == '_'
  }

  /**
   * `[a-zA-Z0-9_]` under `re.IGNORECASE`: Python's case folding also lets the
   * letter classes match U+0130 (İ), U+0131 (ı), U+017F (ſ) and U+212A (Kelvin sign).
   */
  predicate FoldedUsernameChar(c: char) {
    UsernameChar(c) || c == '\U{130}' || c == '\U{131}' || c == '\U{17F}' || c == '\U{212A}'
  }

  const MIN_USERNAME: nat := 5
  const MAX_USERNAME: nat := 32

  /** `USERNAME_PATTERN.fullmatch`: 5 to 32 username characters. */
  predicate IsUsername(s: string) {
    MIN_USERNAME <= |s| <= MAX_USERNAME && forall i :: 0 <= i < |s| ==> UsernameChar(s[i])
  }

  /** 5 to 32 characters of the case-insensitive class: what the t.me patterns capture. */
  predicate IsFoldedUsername(s: string) {
    MIN_USERNAME <= |s| <= MAX_USERNAME && forall i :: 0 <= i < |s| ==> FoldedUsernameChar(s[i])
  }

  /** The three patterns of the module. */
  datatype Pattern =
    | MentionPattern   // @([a-zA-Z0-9_]{5,32})
    | TmeTextPattern   // t\.me/([a-zA-Z0-9_]{5,32})(?:\s|$|/|\)), case-insensitive
    | TmeLinkPattern   // t\.me/([a-zA-Z0-9_]{5,32})(?:/|$|\?), case-insensitive

  /** The username class of a pattern: ASCII for the mention, case-folded for the t.me patterns. */
  predicate InClass(c: char, p: Pattern) {
    if p == MentionPattern then UsernameChar(c) else FoldedUsernameChar(c)
  }

  /** The capture of a pattern: a username for the mention, a case-folded one for the t.me patterns. */
  predicate Captures(s: string, p: Pattern) {
    if p == MentionPattern then IsUsername(s) else IsFoldedUsername(s)
  }

  /** The length of the run of the pattern's username characters starting at `i`. */
  function RunLen(s: string, i: nat, p: Pattern): (n: nat)
    requires i <= |s|
    ensures i + n <= |s|
    ensures forall k :: i <= k < i + n ==> InClass(s[k], p)
    ensures i + n < |s| ==> !InClass(s[i + n], p)
    decreases |s| - i
  {
    if i == |s| || !InClass(s[i], p) then 0 else 1 + RunLen(s, i + 1, p)
  }

  /** A run of exactly `n` class characters, ended by the text's end or another character, has length `n`. */
  lemma {:induction false} RunLenExact(s: string, i: nat, n: nat, p: Pattern)
    requires i + n <= |s|
    requires forall k :: i <= k < i + n ==> InClass(s[k], p)
    requires i + n < |s| ==> !InClass(s[i + n], p)
    ensures RunLen(s, i, p) == n
    decreases n
  {
    if n > 0 {
      RunLenExact(s, i + 1, n - 1, p);
    }
  }

  /** "t.me/" at position `i`, letters in either case. */
  predicate TmeAt(s: string, i: nat) {
    i + 5 <= |s| && LowerChar(s[i]) == 't' && s[i + 1] == '.' && LowerChar(s[i + 2]) == 'm'
    && LowerChar(s[i + 3]) == 'e' && s[i + 4] == '/'
  }

  /** What may follow the username in each t.me pattern (`$` also matches before a final newline). */
  predicate FollowOk(s: string, j: nat, p: Pattern)
    requires j <= |s|
  {
    if j == |s| then true
    else if p == TmeTextPattern then IsSpace(s[j]) || s[j] == '/' || s[j] == ')'
    else (j == |s| - 1 && s[j] == '\n') || s[j] == '/' || s[j] == '?'
  }

  /**
   * The group a pattern captures when its match starts at `i`. The mention's
   * greedy `{5,32}` takes at most 32 characters of the run; the t.me patterns need
   * the whole run, of 5 to 32 characters, and an allowed character after it.
   */
  function MatchAt(s: string, i: nat, p: Pattern): (r: Option<string>)
    requires i <= |s|
    ensures r.Some? ==> Captures(r.value, p)
  {
    if p == MentionPattern then
      if i < |s| && s[i] == '@' && RunLen(s, i + 1, p) >= MIN_USERNAME then
        var n := if RunLen(s, i + 1, p) <= MAX_USERNAME then RunLen(s, i + 1, p) else MAX_USERNAME;
        Some(s[i + 1..i + 1 + n])
      else None
    else if TmeAt(s, i) then
      var n := RunLen(s, i + 5, p);
      if MIN_USERNAME <= n <= MAX_USERNAME && FollowOk(s, i + 5 + n, p) then Some(s[i + 5..i + 5 + n])
      else None
    else None
  }

  /** `pattern.search(s[i:])`: the position of the leftmost match at or after `i`. */
  function SearchPos(s: string, i: nat, p: Pattern): (r: Option<nat>)
    requires i <= |s|
    ensures r.Some? ==> i <= r.value < |s| && MatchAt(s, r.value, p).Some?
    decreases |s| - i
  {
    if i == |s| then None
    else if MatchAt(s, i, p).Some? then Some(i)
    else SearchPos(s, i + 1, p)
  }

  /** The group of the leftmost match. */
  function Search(s: string, p: Pattern): (r: Option<string>)
    ensures r.Some? ==> Captures(r.value, p)
  {
    var pos := SearchPos(s, 0, p);
    if pos.Some? then MatchAt(s, pos.value, p) else None
  }

  /** The search finds the leftmost match: none before it, and one whenever any exists. */
  lemma SearchLeftmost(s: string, i: nat, p: Pattern, q: nat)
    requires i <= q < |s|
    ensures SearchPos(s, i, p).Some? && q < SearchPos(s, i, p).value ==> MatchAt(s, q, p).None?
    ensures MatchAt(s, q, p).Some? ==> SearchPos(s, i, p).Some? && SearchPos(s, i, p).value <= q
  {
    if MatchAt(s, q, p).Some? {
      MatchBoundsSearch(s, i, p, q);
    }
  }

  /** A match at `q` makes the search stop at `q` or before. */
  lemma {:induction false} MatchBoundsSearch(s: string, i: nat, p: Pattern, q: nat)
    requires i <= q < |s| && MatchAt(s, q, p).Some?
    ensures SearchPos(s, i, p).Some? && SearchPos(s, i, p).value <= q
    decreases q - i
  {
    if i < q && MatchAt(s, i, p).None? {
      MatchBoundsSearch(s, i + 1, p, q);
    }
  }

  /** A message entity, as a dict or as an aiogram object. */
  datatype MentionEntity =
    /** A dict; a missing `offset` or `length` key reads 0, a key holding None is None. */
    | DictEntity(kind: Option<string>, offset: Option<int>, length: Option<int>, url: Option<string>)
    /** An object; a missing or None attribute is None. */
    | ObjectEntity(kind: Option<string>, offset: Option<int>, length: Option<int>, url: Option<string>)

  /** `text[a:b]` with Python's slice rules: negative bounds count from the end, all clamped. */
  function PySlice(s: string, a: int, b: int): (r: string)
    ensures |r| <= |s|
  {
    var lo := if a < 0 then (if |s| + a < 0 then 0 else |s| + a) else (if a > |s| then |s| else a);
    var hi := if b < 0 then (if |s| + b < 0 then 0 else |s| + b) else (if b > |s| then |s| else b);
    if lo >= hi then [] else s[lo..hi]
  }

  /** `s.lstrip("@")` */
  function LStripAt(s: string): (r: string)
    ensures |r| <= |s| && r == s[|s| - |r|..]
    ensures r != [] ==> r[0] != '@'
  {
    if s != [] && s[0] == '@' then LStripAt(s[1..]) else s
  }

  /** The username of a mention slice, if it is a valid username once its '@'s are stripped. */
  function CheckMention(slice: string): (r: Option<string>)
    ensures r.Some? ==> IsUsername(r.value)
  {
    var u := LStripAt(slice);
    if IsUsername(u) then Some(u) else None
  }

  /** What one entity yields: a mention's text, or the username of a text link's t.me URL. */
  function EntityMention(text: string, e: MentionEntity): (r: Option<string>)
    ensures r.Some? ==> IsFoldedUsername(r.value)
    ensures r.Some? && e.kind == Some("mention") ==> IsUsername(r.value)
    ensures r.Some? ==> e.kind == Some("mention") || e.kind == Some("text_link")
  {
    if e.kind == Some("mention") then
      if e.DictEntity? then
        if e.offset.Some? && e.length.Some? && e.length.value != 0 then
          CheckMention(PySlice(text, e.offset.value, e.offset.value + e.length.value))
        else None
      else
        var offset := if e.offset.Some? then e.offset.value else 0;
        var length := if e.length.Some? then e.length.value else 0;
        if length != 0 then CheckMention(PySlice(text, offset, offset + length)) else None
    else if e.kind == Some("text_link") then
      Search(if Truthy(e.url) then e.url.value else "", TmeLinkPattern)
    else None
  }

  /** The first entity that yields a username. */
  function FromEntities(text: string, es: seq<MentionEntity>): (r: Option<string>)
    ensures r.Some? ==> IsFoldedUsername(r.value)
    ensures r.Some? ==>
      exists i :: 0 <= i < |es| && EntityMention(text, es[i]) == r
        && forall j :: 0 <= j < i ==> EntityMention(text, es[j]).None?
    ensures r.None? ==> forall i :: 0 <= i < |es| ==> EntityMention(text, es[i]).None?
  {
    if es == [] then None
    else if EntityMention(text, es[0]).Some? then EntityMention(text, es[0])
    else
      var rest := FromEntities(text, es[1..]);
      assert forall i :: 1 <= i < |es| ==> es[i] == es[1..][i - 1];
      rest
  }

  /** extract_first_channel_mention. */
  function ExtractFirstChannelMention(text: string, entities: Option<seq<MentionEntity>>): (r: Option<string>)
    ensures r.Some? ==> IsFoldedUsername(r.value)
    ensures text == "" ==> r.None?
  {
    if text == "" then None
    else
      var fromEntities := if entities.Some? && entities.value != [] then FromEntities(text, entities.value) else None;
      if fromEntities.Some? then fromEntities
      else if Search(text, MentionPattern).Some? then Search(text, MentionPattern)
      else Search(text, TmeTextPattern)
  }

  /**
   * The order of preference: an entity's username wins; without one, the first
   * `@username` in the text; without that, the first `t.me/username`.
   */
  lemma PreferenceOrder(text: string, entities: Option<seq<MentionEntity>>)
    requires text != ""
    ensures entities.Some? && FromEntities(text, entities.value).Some? ==>
      ExtractFirstChannelMention(text, entities) == FromEntities(text, entities.value)
    ensures (entities.None? || FromEntities(text, entities.value).None?) ==>
      ExtractFirstChannelMention(text, entities) ==
        (if Search(text, MentionPattern).Some? then Search(text, MentionPattern) else Search(text, TmeTextPattern))
  {
  }

  /** `@first @second_channel`: the first mention wins. */
  lemma FirstMentionWins(text: string)
    requires text == "@first @second_channel"
    ensures ExtractFirstChannelMention(text, None) == Some("first")
  {
    assert text[1..6] == "first" && text[6] == ' ';
    RunLenExact(text, 1, 5, MentionPattern);
    assert MatchAt(text, 0, MentionPattern) == Some("first");
    assert SearchPos(text, 0, MentionPattern) == Some(0);
  }

  /** `@ab`: a mention under five characters is ignored. */
  lemma ShortMentionIgnored(text: string)
    requires text == "@ab"
    ensures ExtractFirstChannelMention(text, None) == None
  {
    assert RunLen(text, 1, MentionPattern) == 2;
    assert MatchAt(text, 0, MentionPattern) == None;
    assert SearchPos(text, 0, MentionPattern) == None;
    assert SearchPos(text, 0, TmeTextPattern) == None;
  }

  /** A mention entity covering exactly `@` and a valid username yields that username. */
  lemma MentionEntityYields(text: string, e: MentionEntity, u: string)
    requires e.DictEntity? && e.kind == Some("mention") && e.offset.Some? && e.length == Some(|u| + 1)
    requires 0 <= e.offset.value && e.offset.value + |u| + 1 <= |text|
    requires text[e.offset.value..e.offset.value + |u| + 1] == "@" + u
    requires IsUsername(u)
    ensures EntityMention(text, e) == Some(u)
  {
    var off := e.offset.value;
    var slice := PySlice(text, off, off + |u| + 1);
    assert slice == text[off..off + |u| + 1];
    assert UsernameChar(u[0]);
    assert LStripAt(u) == u;
    assert slice[0] == '@' && slice[1..] == u;
    assert CheckMention(slice) == Some(u);
  }

  lemma EntityUserIsUsername()
    ensures IsUsername("entityuser")
  {
    var u := "entityuser";
    forall i | 0 <= i < |u|
      ensures UsernameChar(u[i])
    {
      assert 'a' <= u[i] <= 'z';
    }
  }

  /** A mention entity at offset 6 of length 11 in "Hello @entityuser world". */
  lemma EntityMentionExample(text: string, e: MentionEntity)
    requires text == "Hello @entityuser world"
    requires e == DictEntity(Some("mention"), Some(6), Some(11), None)
    ensures ExtractFirstChannelMention(text, Some([e])) == Some("entityuser")
  {
    var u := "entityuser";
    assert text[6..17] == "@" + u;
    EntityUserIsUsername();
    MentionEntityYields(text, e, u);
    assert FromEntities(text, [e]) == Some(u);
  }

  /** Under `re.IGNORECASE` the long s matches `[a-z]`: "t.me/ſpamchannel" yields "ſpamchannel". */
  lemma FoldedTmeMention(text: string)
    requires text == "t.me/\U{17F}pamchannel"
    ensures ExtractFirstChannelMention(text, None) == Some("\U{17F}pamchannel")
    ensures !IsUsername("\U{17F}pamchannel")
  {
    var u := "\U{17F}pamchannel";
    assert text[5..] == u;
    forall k | 5 <= k < |text|
      ensures InClass(text[k], TmeTextPattern)
    {
      assert text[k] == u[k - 5];
    }
    RunLenExact(text, 5, 11, TmeTextPattern);
    assert text[0] == 't' && text[1] == '.' && text[2] == 'm' && text[3] == 'e' && text[4] == '/';
    assert TmeAt(text, 0);
    assert |text| == 16 && text[5..16] == u;
    assert FollowOk(text, 16, TmeTextPattern);
    assert MatchAt(text, 0, TmeTextPattern) == Some(u);
    assert SearchPos(text, 0, TmeTextPattern) == Some(0);
    assert Search(text, MentionPattern) == None by {
      forall k | 0 <= k <= |text|
        ensures SearchPos(text, k, MentionPattern) == None
      {
        NoAtNoMention(text, k);
      }
    }
    assert !UsernameChar(u[0]);
  }

  /** Without an '@' from `i` on, the mention pattern finds nothing. */
  lemma {:induction false} NoAtNoMention(s: string, i: nat)
    requires i <= |s|
    requires forall k :: 0 <= k < |s| ==> s[k] != '@'
    ensures SearchPos(s, i, MentionPattern) == None
    decreases |s| - i
  {
    if i < |s| {
      NoAtNoMention(s, i + 1);
    }
  }
}
