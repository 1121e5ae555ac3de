/**
 * Reads and writes of `administrators` rows (src/app/database/admin_operations.py).
 * Each SQL transaction is one method on the `Db` object; `now` is the value of
 * `NOW()` for the statements that stamp a row.
 */
module AdminOperations {
  import opened Text
  import opened Database

  /** `INTERVAL '7 days'`, in seconds. */
  const WEEK: nat := 7 * 24 * 60 * 60

  /** The row initialize_new_admin inserts. */
  function NewAdminRow(): Admin {
    Admin(None, INITIAL_CREDITS, true)
  }

  /** get_admin_credits: the stored balance, or INITIAL_CREDITS for an unknown admin. */
  function GetAdminCredits(db: Db, adminId: int): nat
    reads db
  {
    if adminId in db.admins then db.admins[adminId].credits else INITIAL_CREDITS
  }

  /** get_spam_deletion_state: the stored flag, or true for an unknown admin. */
  predicate GetSpamDeletionState(db: Db, adminId: int)
    reads db
  {
    adminId !in db.admins || db.admins[adminId].deleteSpam
  }

  /** An unknown admin reads exactly like the row initialize_new_admin would create. */
  lemma AbsentAdminReadsAsNew(db: Db, adminId: int)
    requires adminId !in db.admins
    ensures GetAdminCredits(db, adminId) == NewAdminRow().credits
    ensures GetSpamDeletionState(db, adminId) == NewAdminRow().deleteSpam
  {
  }

  /** initialize_new_admin: a new admin gets the initial credits, spam deletion on, and an 'initial' transaction. */
  method InitializeNewAdmin(db: Db, adminId: int, now: int) returns (created: bool)
    requires db.Valid()
    modifies db
    ensures db.Valid()
    ensures created <==> adminId !in old(db.admins)
    ensures !created ==> unchanged(db)
    ensures created ==> db.admins == old(db.admins)[adminId := NewAdminRow()]
    ensures created ==> db.transactions == old(db.transactions) + [Transaction(adminId, INITIAL_CREDITS, InitialTx, now)]
    ensures db.groups == old(db.groups) && db.referrals == old(db.referrals)
    ensures db.spamExamples == old(db.spamExamples) && db.history == old(db.history)
  {
    if adminId in db.admins {
      return false;
    }
    db.admins := db.admins[adminId := NewAdminRow()];
    db.transactions := db.transactions + [Transaction(adminId, INITIAL_CREDITS, InitialTx, now)];
    created := true;
  }

  /** The administrators table with one admin's spam-deletion flag flipped. */
  function Toggled(admins: map<int, Admin>, adminId: int): (r: map<int, Admin>)
    requires adminId in admins
    ensures r.Keys == admins.Keys
    ensures r[adminId].deleteSpam == !admins[adminId].deleteSpam
    ensures forall a :: a in admins && a != adminId ==> r[a] == admins[a]
  {
    admins[adminId := admins[adminId].(deleteSpam := !admins[adminId].deleteSpam)]
  }

  /** Toggling twice restores the table. */
  lemma ToggleTwiceRestores(admins: map<int, Admin>, adminId: int)
    requires adminId in admins
    ensures Toggled(Toggled(admins, adminId), adminId) == admins
  {
    var twice := Toggled(Toggled(admins, adminId), adminId);
    assert twice[adminId] == admins[adminId];
    assert forall a :: a in twice <==> a in admins;
    assert forall a :: a in twice ==> twice[a] == admins[a];
  }

  /** toggle_spam_deletion: None for an unknown admin; otherwise the flipped flag, stored. */
  method ToggleSpamDeletion(db: Db, adminId: int) returns (r: Option<bool>)
    requires db.Valid()
    modifies db
    ensures db.Valid()
    ensures r.None? <==> adminId !in old(db.admins)
    ensures r.None? ==> unchanged(db)
    ensures r.Some? ==> r.value == !old(db.admins)[adminId].deleteSpam
    ensures r.Some? ==> db.admins == Toggled(old(db.admins), adminId)
    ensures db.groups == old(db.groups) && db.transactions == old(db.transactions)
    ensures db.referrals == old(db.referrals) && db.spamExamples == old(db.spamExamples)
    ensures db.history == old(db.history)
  {
    if adminId !in db.admins {
      return None;
    }
    var newState := !db.admins[adminId].deleteSpam;
    db.admins := Toggled(db.admins, adminId);
    r := Some(newState);
  }

  /** What one transaction adds to an admin's spending since `since`: the size of a debit. */
  function SpentBy(t: Transaction, adminId: int, since: int): nat {
    if t.adminId == adminId && t.amount < 0 && t.createdAt >= since then -t.amount else 0
  }

  /** `SUM(ABS(amount))` over the admin's negative transactions created at or after `since`, 0 when none. */
  function Spent(txs: seq<Transaction>, adminId: int, since: int): nat {
    if txs == [] then 0
    else Spent(txs[..|txs| - 1], adminId, since) + SpentBy(txs[|txs| - 1], adminId, since)
  }

  /** get_spent_credits_last_week. */
  function GetSpentCreditsLastWeek(db: Db, adminId: int, now: int): nat
    reads db
  {
    Spent(db.transactions, adminId, now - WEEK)
  }

  /** Spending is additive over the transaction log. */
  lemma {:induction false} SpentAppend(a: seq<Transaction>, b: seq<Transaction>, adminId: int, since: int)
    ensures Spent(a + b, adminId, since) == Spent(a, adminId, since) + Spent(b, adminId, since)
    decreases |b|
  {
    if b == [] {
      assert a + b == a;
    } else {
      assert (a + b)[..|a + b| - 1] == a + b[..|b| - 1];
      SpentAppend(a, b[..|b| - 1], adminId, since);
    }
  }

  /** Only debits count: a log without negative amounts for the admin spends nothing. */
  lemma {:induction false} NoDebitsNoSpending(txs: seq<Transaction>, adminId: int, since: int)
    requires forall i :: 0 <= i < |txs| && txs[i].adminId == adminId ==> txs[i].amount >= 0
    ensures Spent(txs, adminId, since) == 0
  {
    if txs != [] {
      NoDebitsNoSpending(txs[..|txs| - 1], adminId, since);
    }
  }

  /** A deduction logged now adds its amount to this week's spending of that admin, and nothing to others'. */
  lemma SpentAfterDeduction(txs: seq<Transaction>, adminId: int, other: int, amount: nat, now: int)
    requires amount > 0 && other != adminId
    ensures Spent(txs + [Transaction(adminId, -(amount as int), DeductTx, now)], adminId, now - WEEK)
      == Spent(txs, adminId, now - WEEK) + amount
    ensures Spent(txs + [Transaction(adminId, -(amount as int), DeductTx, now)], other, now - WEEK)
      == Spent(txs, other, now - WEEK)
  {
    var t := [Transaction(adminId, -(amount as int), DeductTx, now)];
    SpentAppend(txs, t, adminId, now - WEEK);
    SpentAppend(txs, t, other, now - WEEK);
    assert t[..0] == [];
  }
}
