/**
 * The per-admin conversation history of the private chat
 * (src/app/database/message_operations.py). `Db.history` maps an admin to its
 * `message_history` rows in insertion order; `now` is the one clock reading of
 * a call, used both for the row's `created_at` and for the expiry cut-off.
 */
module MessageOperations {
  import opened Text
  import opened Database

  const MESSAGE_HISTORY_SIZE: nat := 30
  /** 24 hours, in seconds. */
  const MESSAGE_TTL: nat := 60 * 60 * 24

  /** An admin's rows; an admin without rows has an empty history. */
  function HistoryOf(history: map<int, seq<HistoryEntry>>, adminId: int): seq<HistoryEntry> {
    if adminId in history then history[adminId] else []
  }

  /** The rows left once the oldest ones beyond MESSAGE_HISTORY_SIZE are deleted. */
  function Trimmed(h: seq<HistoryEntry>): (r: seq<HistoryEntry>)
    ensures |r| <= MESSAGE_HISTORY_SIZE
  {
    if |h| > MESSAGE_HISTORY_SIZE then h[|h| - MESSAGE_HISTORY_SIZE..] else h
  }

  /** The rows not older than `cutoff`, in order. */
  function Unexpired(h: seq<HistoryEntry>, cutoff: int): (r: seq<HistoryEntry>)
    ensures |r| <= |h|
  {
    if h == [] then []
    else Unexpired(h[..|h| - 1], cutoff) + (if h[|h| - 1].createdAt < cutoff then [] else [h[|h| - 1]])
  }

  /** An admin's history after save_message stored `entry` at time `now`. */
  function Saved(h: seq<HistoryEntry>, entry: HistoryEntry, now: int): seq<HistoryEntry> {
    Unexpired(Trimmed(h + [entry]), now - MESSAGE_TTL)
  }

  ghost predicate Chronological(h: seq<HistoryEntry>) {
    forall i, j :: 0 <= i < j < |h| ==> h[i].createdAt <= h[j].createdAt
  }

  /** The trim deletes the oldest rows: what is kept is the newest MESSAGE_HISTORY_SIZE rows, a suffix. */
  lemma TrimKeepsNewest(h: seq<HistoryEntry>)
    ensures |Trimmed(h)| == if |h| > MESSAGE_HISTORY_SIZE then MESSAGE_HISTORY_SIZE else |h|
    ensures h == h[..|h| - |Trimmed(h)|] + Trimmed(h)
  {
    assert h == h[..|h| - |Trimmed(h)|] + h[|h| - |Trimmed(h)|..];
  }

  lemma {:induction false} UnexpiredMembers(h: seq<HistoryEntry>, cutoff: int)
    ensures forall x :: x in Unexpired(h, cutoff) <==> x in h && x.createdAt >= cutoff
  {
    if h != [] {
      var init := h[..|h| - 1];
      UnexpiredMembers(init, cutoff);
      assert h == init + [h[|h| - 1]];
    }
  }

  lemma {:induction false} UnexpiredChronological(h: seq<HistoryEntry>, cutoff: int)
    requires Chronological(h)
    ensures Chronological(Unexpired(h, cutoff))
  {
    if h != [] {
      var init := h[..|h| - 1];
      UnexpiredChronological(init, cutoff);
      UnexpiredMembers(init, cutoff);
      var kept := Unexpired(init, cutoff);
      forall i | 0 <= i < |kept|
        ensures kept[i].createdAt <= h[|h| - 1].createdAt
      {
        assert kept[i] in init;
      }
    }
  }

  /** A row not older than the cut-off survives the expiry, after the earlier survivors. */
  lemma UnexpiredSnoc(h: seq<HistoryEntry>, e: HistoryEntry, cutoff: int)
    requires e.createdAt >= cutoff
    ensures Unexpired(h + [e], cutoff) == Unexpired(h, cutoff) + [e]
  {
    assert (h + [e])[..|h + [e]| - 1] == h;
  }

  /** The row just inserted is never trimmed: it stays last, after older rows. */
  lemma TrimmedSnoc(h: seq<HistoryEntry>, e: HistoryEntry)
    ensures Trimmed(h + [e]) != []
    ensures Trimmed(h + [e]) == Trimmed(h + [e])[..|Trimmed(h + [e])| - 1] + [e]
    ensures forall x :: x in Trimmed(h + [e]) ==> x in h || x == e
  {
    var s := h + [e];
    var t := Trimmed(s);
    var k := if |s| > MESSAGE_HISTORY_SIZE then |s| - MESSAGE_HISTORY_SIZE else 0;
    assert t == s[k..];
    assert t == h[k..] + [e];
    forall x | x in t
      ensures x in h || x == e
    {
      if x != e {
        assert x in h[k..];
      }
    }
  }

  lemma TrimmedChronological(s: seq<HistoryEntry>)
    requires Chronological(s)
    ensures Chronological(Trimmed(s))
  {
    if |s| > MESSAGE_HISTORY_SIZE {
      var k := |s| - MESSAGE_HISTORY_SIZE;
      var t := s[k..];
      forall i, j | 0 <= i < j < |t|
        ensures t[i].createdAt <= t[j].createdAt
      {
        assert t[i] == s[k + i] && t[j] == s[k + j];
      }
    }
  }

  /**
   * After a save at most MESSAGE_HISTORY_SIZE rows remain, none older than the
   * TTL, every one of them already stored or the new one, and the new one last.
   */
  lemma SavedShape(h: seq<HistoryEntry>, role: string, content: string, now: int)
    ensures |Saved(h, HistoryEntry(role, content, now), now)| <= MESSAGE_HISTORY_SIZE
    ensures Saved(h, HistoryEntry(role, content, now), now) != []
    ensures Saved(h, HistoryEntry(role, content, now), now)[|Saved(h, HistoryEntry(role, content, now), now)| - 1]
      == HistoryEntry(role, content, now)
    ensures forall x :: x in Saved(h, HistoryEntry(role, content, now), now) ==> x.createdAt >= now - MESSAGE_TTL
    ensures forall x :: x in Saved(h, HistoryEntry(role, content, now), now) ==> x in h || x == HistoryEntry(role, content, now)
  {
    var entry := HistoryEntry(role, content, now);
    var t := Trimmed(h + [entry]);
    TrimmedSnoc(h, entry);
    UnexpiredSnoc(t[..|t| - 1], entry, now - MESSAGE_TTL);
    UnexpiredMembers(t, now - MESSAGE_TTL);
  }

  /** Saving a message stamped no earlier than the stored ones keeps the history chronological. */
  lemma SavedChronological(h: seq<HistoryEntry>, entry: HistoryEntry, now: int)
    requires Chronological(h)
    requires forall i :: 0 <= i < |h| ==> h[i].createdAt <= entry.createdAt
    ensures Chronological(Saved(h, entry, now))
  {
    var s := h + [entry];
    assert Chronological(s);
    TrimmedChronological(s);
    UnexpiredChronological(Trimmed(s), now - MESSAGE_TTL);
  }

  /** save_message. An admin id that is not a row of `administrators` makes the insert raise, and nothing changes. */
  method SaveMessage(db: Db, adminId: int, role: string, content: string, now: int) returns (ok: bool)
    requires db.Valid()
    modifies db
    ensures db.Valid()
    ensures ok <==> adminId in old(db.admins)
    ensures !ok ==> unchanged(db)
    ensures ok ==> db.history == old(db.history)[adminId := Saved(HistoryOf(old(db.history), adminId), HistoryEntry(role, content, now), now)]
    ensures forall a :: a != adminId ==> HistoryOf(db.history, a) == HistoryOf(old(db.history), a)
    ensures db.admins == old(db.admins) && db.groups == old(db.groups)
    ensures db.transactions == old(db.transactions) && db.referrals == old(db.referrals)
    ensures db.spamExamples == old(db.spamExamples)
  {
    if adminId !in db.admins {
      return false;
    }
    var h := HistoryOf(db.history, adminId) + [HistoryEntry(role, content, now)];
    var count := |h|;
    if count > MESSAGE_HISTORY_SIZE {
      h := h[count - MESSAGE_HISTORY_SIZE..];
    }
    h := Unexpired(h, now - MESSAGE_TTL);
    db.history := db.history[adminId := h];
    ok := true;
  }

  /** A `{"role": …, "content": …}` item of get_message_history. */
  datatype ChatMessage = ChatMessage(role: string, content: string)

  /** get_message_history: the admin's rows as role and content, oldest first. */
  function GetMessageHistory(db: Db, adminId: int): (r: seq<ChatMessage>)
    reads db
    ensures |r| == |HistoryOf(db.history, adminId)|
  {
    var h := HistoryOf(db.history, adminId);
    seq(|h|, i requires 0 <= i < |h| => ChatMessage(h[i].role, h[i].content))
  }

  /** What was just saved is the last message the history returns. */
  lemma SaveThenGet(db: Db, adminId: int, before: seq<HistoryEntry>, role: string, content: string, now: int)
    requires adminId in db.history
    requires db.history[adminId] == Saved(before, HistoryEntry(role, content, now), now)
    ensures GetMessageHistory(db, adminId) != []
    ensures GetMessageHistory(db, adminId)[|GetMessageHistory(db, adminId)| - 1] == ChatMessage(role, content)
  {
    SavedShape(before, role, content, now);
  }

  /** clear_message_history: the admin's history is empty, every other one untouched. */
  method ClearMessageHistory(db: Db, adminId: int)
    requires db.Valid()
    modifies db
    ensures db.Valid()
    ensures GetMessageHistory(db, adminId) == []
    ensures forall a :: a != adminId ==> HistoryOf(db.history, a) == HistoryOf(old(db.history), a)
    ensures db.admins == old(db.admins) && db.groups == old(db.groups)
    ensures db.transactions == old(db.transactions) && db.referrals == old(db.referrals)
    ensures db.spamExamples == old(db.spamExamples)
  {
    db.history := db.history - {adminId};
  }
}
