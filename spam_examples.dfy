/**
 * The `spam_examples` table (src/app/database/spam_examples.py): the few-shot
 * examples the classifier prompt is built from. The table is `Db.spamExamples`,
 * in insertion order; an example with no admin is a common one. `clean` stands
 * for clean_alert_text, which is not part of this model.
 */
module SpamExamples {
  import opened Text
  import opened Database

  /** What add_spam_example treats as the same example: text, name and admin, NULL equal to NULL. */
  datatype ExampleKey = ExampleKey(text: string, name: Option<string>, adminId: Option<int>)

  function KeyOf(e: SpamExample): ExampleKey {
    ExampleKey(e.text, e.name, e.adminId)
  }

  /** The examples of `es` without key `k`, in order (the DELETE of add_spam_example). */
  function WithoutKey(es: seq<SpamExample>, k: ExampleKey): seq<SpamExample> {
    if es == [] then []
    else WithoutKey(es[..|es| - 1], k) + (if KeyOf(es[|es| - 1]) == k then [] else [es[|es| - 1]])
  }

  /** The examples of `es` with key `k`, in order. */
  function WithKey(es: seq<SpamExample>, k: ExampleKey): seq<SpamExample> {
    if es == [] then []
    else WithKey(es[..|es| - 1], k) + (if KeyOf(es[|es| - 1]) == k then [es[|es| - 1]] else [])
  }

  /** The table after add_spam_example stored `e`: its key's old rows deleted, `e` inserted last. */
  function Added(es: seq<SpamExample>, e: SpamExample): seq<SpamExample> {
    WithoutKey(es, KeyOf(e)) + [e]
  }

  /** At most one example per key. */
  ghost predicate KeysUnique(es: seq<SpamExample>) {
    forall k :: |WithKey(es, k)| <= 1
  }

  /** The rows are in insertion order of `created_at`. */
  ghost predicate Chronological(es: seq<SpamExample>) {
    forall i, j :: 0 <= i < j < |es| ==> es[i].createdAt <= es[j].createdAt
  }

  lemma WithKeySnoc(es: seq<SpamExample>, x: SpamExample, k: ExampleKey)
    ensures WithKey(es + [x], k) == WithKey(es, k) + (if KeyOf(x) == k then [x] else [])
  {
    assert (es + [x])[..|es + [x]| - 1] == es;
  }

  lemma {:induction false} WithoutKeyMembers(es: seq<SpamExample>, k: ExampleKey)
    ensures forall x :: x in WithoutKey(es, k) <==> x in es && KeyOf(x) != k
  {
    if es != [] {
      var init := es[..|es| - 1];
      WithoutKeyMembers(init, k);
      assert es == init + [es[|es| - 1]];
    }
  }

  lemma {:induction false} WithKeyOfWithoutKey(es: seq<SpamExample>, k: ExampleKey, k2: ExampleKey)
    ensures WithKey(WithoutKey(es, k), k2) == if k == k2 then [] else WithKey(es, k2)
  {
    if es != [] {
      var init := es[..|es| - 1];
      var x := es[|es| - 1];
      WithKeyOfWithoutKey(init, k, k2);
      if KeyOf(x) == k {
        assert WithoutKey(es, k) == WithoutKey(init, k);
      } else {
        WithKeySnoc(WithoutKey(init, k), x, k2);
      }
    }
  }

  /** After storing `e`, its key holds exactly `e`; every other key holds what it held. */
  lemma AddedByKey(es: seq<SpamExample>, e: SpamExample, k: ExampleKey)
    ensures WithKey(Added(es, e), k) == if k == KeyOf(e) then [e] else WithKey(es, k)
  {
    WithKeySnoc(WithoutKey(es, KeyOf(e)), e, k);
    WithKeyOfWithoutKey(es, KeyOf(e), k);
  }

  /** Adding keeps at most one example per key. */
  lemma AddKeepsKeysUnique(es: seq<SpamExample>, e: SpamExample)
    requires KeysUnique(es)
    ensures KeysUnique(Added(es, e))
  {
    forall k
      ensures |WithKey(Added(es, e), k)| <= 1
    {
      AddedByKey(es, e, k);
    }
  }

  /** Adding the same key twice keeps only the second example, with its score. */
  lemma ReAddReplaces(es: seq<SpamExample>, first: SpamExample, second: SpamExample)
    requires KeyOf(first) == KeyOf(second)
    ensures WithKey(Added(Added(es, first), second), KeyOf(second)) == [second]
  {
    AddedByKey(Added(es, first), second, KeyOf(second));
  }

  lemma {:induction false} WithoutKeyChronological(es: seq<SpamExample>, k: ExampleKey)
    requires Chronological(es)
    ensures Chronological(WithoutKey(es, k))
  {
    if es != [] {
      var init := es[..|es| - 1];
      var x := es[|es| - 1];
      WithoutKeyChronological(init, k);
      WithoutKeyMembers(init, k);
      var kept := WithoutKey(init, k);
      forall i | 0 <= i < |kept|
        ensures kept[i].createdAt <= x.createdAt
      {
        assert kept[i] in init;
      }
    }
  }

  /** An example stamped no earlier than every stored one keeps the table chronological. */
  lemma AddKeepsChronological(es: seq<SpamExample>, e: SpamExample)
    requires Chronological(es)
    requires forall i :: 0 <= i < |es| ==> es[i].createdAt <= e.createdAt
    ensures Chronological(Added(es, e))
  {
    WithoutKeyChronological(es, KeyOf(e));
    WithoutKeyMembers(es, KeyOf(e));
    var kept := WithoutKey(es, KeyOf(e));
    forall i | 0 <= i < |kept|
      ensures kept[i].createdAt <= e.createdAt
    {
      assert kept[i] in es;
    }
  }

  /** The foreign key of `spam_examples.admin_id`, stated over the rows rather than their positions. */
  lemma ExampleAdminsKnown(db: Db)
    requires db.Valid()
    ensures forall x :: x in db.spamExamples && x.adminId.Some? ==> x.adminId.value in db.admins
  {
    forall x | x in db.spamExamples && x.adminId.Some?
      ensures x.adminId.value in db.admins
    {
      var i :| 0 <= i < |db.spamExamples| && db.spamExamples[i] == x;
    }
  }

  /**
   * add_spam_example. The text stored is `clean(text)`. An admin id that is not
   * a row of `administrators` makes the insert fail: the transaction is rolled
   * back and the result is false.
   */
  method AddSpamExample(db: Db, clean: string -> string, text: string, score: int,
                        name: Option<string>, bio: Option<string>, adminId: Option<int>, now: int)
    returns (ok: bool)
    requires db.Valid()
    modifies db
    ensures db.Valid()
    ensures ok <==> adminId.None? || adminId.value in old(db.admins)
    ensures !ok ==> unchanged(db)
    ensures ok ==> db.spamExamples == Added(old(db.spamExamples), SpamExample(clean(text), name, bio, score, adminId, now))
    ensures db.admins == old(db.admins) && db.groups == old(db.groups)
    ensures db.transactions == old(db.transactions) && db.referrals == old(db.referrals)
    ensures db.history == old(db.history)
  {
    if adminId.Some? && adminId.value !in db.admins {
      return false;
    }
    var e := SpamExample(clean(text), name, bio, score, adminId, now);
    WithoutKeyMembers(db.spamExamples, KeyOf(e));
    ExampleAdminsKnown(db);
    db.spamExamples := Added(db.spamExamples, e);
    ok := true;
  }

  /** The examples get_spam_examples returns for `adminIds`: common ones, and those of the listed admins. */
  predicate Visible(e: SpamExample, adminIds: seq<int>) {
    e.adminId.None? || (adminIds != [] && e.adminId.value in adminIds)
  }

  /** The visible examples, newest (last inserted) first. */
  function NewestFirst(es: seq<SpamExample>, adminIds: seq<int>): seq<SpamExample> {
    if es == [] then []
    else (if Visible(es[|es| - 1], adminIds) then [es[|es| - 1]] else []) + NewestFirst(es[..|es| - 1], adminIds)
  }

  lemma {:induction false} NewestFirstMembers(es: seq<SpamExample>, adminIds: seq<int>)
    ensures forall x :: x in NewestFirst(es, adminIds) <==> x in es && Visible(x, adminIds)
  {
    if es != [] {
      var init := es[..|es| - 1];
      NewestFirstMembers(init, adminIds);
      assert es == init + [es[|es| - 1]];
    }
  }

  /** On a chronological table the result is ordered by `created_at`, newest first. */
  lemma {:induction false} NewestFirstOrdered(es: seq<SpamExample>, adminIds: seq<int>)
    requires Chronological(es)
    ensures forall i, j :: 0 <= i < j < |NewestFirst(es, adminIds)| ==>
      NewestFirst(es, adminIds)[i].createdAt >= NewestFirst(es, adminIds)[j].createdAt
  {
    if es != [] {
      var init := es[..|es| - 1];
      var x := es[|es| - 1];
      NewestFirstOrdered(init, adminIds);
      NewestFirstMembers(init, adminIds);
      var older := NewestFirst(init, adminIds);
      forall j | 0 <= j < |older|
        ensures older[j].createdAt <= x.createdAt
      {
        assert older[j] in init;
      }
    }
  }

  /** Without admin ids only common examples come back. */
  lemma CommonOnlyWithoutAdmins(es: seq<SpamExample>)
    ensures forall x :: x in NewestFirst(es, []) ==> x.adminId.None?
  {
    NewestFirstMembers(es, []);
  }

  /** A stored example visible to the caller is the first one returned. */
  lemma AddedComesFirst(es: seq<SpamExample>, e: SpamExample, adminIds: seq<int>)
    requires Visible(e, adminIds)
    ensures NewestFirst(Added(es, e), adminIds) == [e] + NewestFirst(WithoutKey(es, KeyOf(e)), adminIds)
  {
    var added := Added(es, e);
    assert added[..|added| - 1] == WithoutKey(es, KeyOf(e));
  }

  function RowOf(e: SpamExample): ExampleRow {
    ExampleRow(e.text, e.name, e.bio, e.score)
  }

  /** The text, name, bio and score columns of each row. */
  function Rows(es: seq<SpamExample>): (r: seq<ExampleRow>)
    ensures |r| == |es|
  {
    seq(|es|, i requires 0 <= i < |es| => RowOf(es[i]))
  }

  /** get_spam_examples: one pass over the table, each visible row placed before the older ones. */
  method GetSpamExamples(db: Db, adminIds: seq<int>) returns (rows: seq<ExampleRow>)
    ensures rows == Rows(NewestFirst(db.spamExamples, adminIds))
  {
    var es := db.spamExamples;
    rows := [];
    var i := 0;
    while i < |es|
      invariant 0 <= i <= |es|
      invariant rows == Rows(NewestFirst(es[..i], adminIds))
    {
      var e := es[i];
      assert es[..i + 1][..i] == es[..i];
      if Visible(e, adminIds) {
        rows := [RowOf(e)] + rows;
      }
      i := i + 1;
    }
    assert es[..i] == es;
  }

  /** Two adds of the same common example leave one row, with the second score. */
  lemma ReAddedExampleReadsBack(clean: string -> string, text: string, name: Option<string>,
                                bio: Option<string>, score1: int, score2: int, t1: int, t2: int)
    ensures var first := SpamExample(clean(text), name, bio, score1, None, t1);
      var second := SpamExample(clean(text), name, bio, score2, None, t2);
      Rows(NewestFirst(Added(Added([], first), second), [])) == [ExampleRow(clean(text), name, bio, score2)]
  {
    var first := SpamExample(clean(text), name, bio, score1, None, t1);
    var second := SpamExample(clean(text), name, bio, score2, None, t2);
    assert Added([], first) == [first];
    assert [first][..0] == [];
    assert Added([first], second) == [second];
    assert [second][..0] == [];
  }

  /** The DELETE of remove_spam_example: common examples with exactly this text. */
  predicate RemovedBy(e: SpamExample, text: string) {
    e.text == text && e.adminId.None?
  }

  function WithoutCommonText(es: seq<SpamExample>, text: string): seq<SpamExample> {
    if es == [] then []
    else WithoutCommonText(es[..|es| - 1], text) + (if RemovedBy(es[|es| - 1], text) then [] else [es[|es| - 1]])
  }

  lemma {:induction false} WithoutCommonTextMembers(es: seq<SpamExample>, text: string)
    ensures forall x :: x in WithoutCommonText(es, text) <==> x in es && !RemovedBy(x, text)
  {
    if es != [] {
      var init := es[..|es| - 1];
      WithoutCommonTextMembers(init, text);
      assert es == init + [es[|es| - 1]];
    }
  }

  /** With no matching row the table is unchanged. */
  lemma {:induction false} WithoutCommonTextKeepsAll(es: seq<SpamExample>, text: string)
    requires forall i :: 0 <= i < |es| ==> !RemovedBy(es[i], text)
    ensures WithoutCommonText(es, text) == es
  {
    if es != [] {
      var init := es[..|es| - 1];
      WithoutCommonTextKeepsAll(init, text);
      assert es == init + [es[|es| - 1]];
    }
  }

  /** The table never grows, and a matching row makes it shrink. */
  lemma {:induction false} WithoutCommonTextShrinks(es: seq<SpamExample>, text: string)
    ensures |WithoutCommonText(es, text)| <= |es|
    ensures (exists i :: 0 <= i < |es| && RemovedBy(es[i], text)) ==> |WithoutCommonText(es, text)| < |es|
  {
    if es != [] {
      var init, last := es[..|es| - 1], es[|es| - 1];
      WithoutCommonTextShrinks(init, text);
      if !RemovedBy(last, text) && exists i :: 0 <= i < |es| && RemovedBy(es[i], text) {
        var i :| 0 <= i < |es| && RemovedBy(es[i], text);
        assert init[i] == es[i];
      }
    }
  }

  /** The row count drops iff some row matched; otherwise the table is unchanged. */
  lemma WithoutCommonTextCount(es: seq<SpamExample>, text: string)
    ensures |WithoutCommonText(es, text)| <= |es|
    ensures |WithoutCommonText(es, text)| == |es| ==> WithoutCommonText(es, text) == es
    ensures |WithoutCommonText(es, text)| == |es| <==> forall i :: 0 <= i < |es| ==> !RemovedBy(es[i], text)
  {
    WithoutCommonTextShrinks(es, text);
    if forall i :: 0 <= i < |es| ==> !RemovedBy(es[i], text) {
      WithoutCommonTextKeepsAll(es, text);
    }
  }

  /**
   * remove_spam_example: deletes the common examples with this exact text (the
   * text is not cleaned) and reports whether any row went.
   */
  method RemoveSpamExample(db: Db, text: string) returns (deleted: bool)
    requires db.Valid()
    modifies db
    ensures db.Valid()
    ensures deleted <==> exists i :: 0 <= i < |old(db.spamExamples)| && RemovedBy(old(db.spamExamples)[i], text)
    ensures db.spamExamples == WithoutCommonText(old(db.spamExamples), text)
    ensures !deleted ==> db.spamExamples == old(db.spamExamples)
    ensures db.admins == old(db.admins) && db.groups == old(db.groups)
    ensures db.transactions == old(db.transactions) && db.referrals == old(db.referrals)
    ensures db.history == old(db.history)
  {
    var kept := WithoutCommonText(db.spamExamples, text);
    WithoutCommonTextMembers(db.spamExamples, text);
    WithoutCommonTextCount(db.spamExamples, text);
    ExampleAdminsKnown(db);
    deleted := |kept| != |db.spamExamples|;
    db.spamExamples := kept;
  }
}
