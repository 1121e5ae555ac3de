/**
 * The bot's PostgreSQL tables (src/app/database/database_schema.py:41-127) as the
 * fields of one object. Rows keyed by a primary key are maps; the join tables
 * `group_administrators` and `approved_members` are sets inside the group row; the
 * tables with a serial id (`transactions`, `spam_examples`, `message_history`) are
 * sequences in insertion order. Time stamps are seconds; `NOW()` is a parameter of
 * each operation that writes one.
 */
module Database {
  import opened Text

  /** src/app/database/constants.py: the fallback prices (config.yaml is not part of this model). */
  const INITIAL_CREDITS: nat := 100
  const SKIP_PRICE: nat := 0
  const APPROVE_PRICE: nat := 1
  const DELETE_PRICE: nat := 1

  /** A row of `administrators`; `credits` has `CHECK (credits >= 0)`, hence `nat`. */
  datatype Admin = Admin(username: Option<string>, credits: nat, deleteSpam: bool)

  /** A row of `groups`, with its `group_administrators` and `approved_members` rows. */
  datatype Group = Group(moderationEnabled: bool, admins: set<int>, members: set<int>)

  /** The `type` column of `transactions`. */
  datatype TxKind = InitialTx | DeductTx | PaymentTx | ReferralCommissionTx

  datatype Transaction = Transaction(adminId: int, amount: int, kind: TxKind, createdAt: int)

  /** A row of `spam_examples`; `adminId == None` marks a common example. */
  datatype SpamExample = SpamExample(
    text: string, name: Option<string>, bio: Option<string>, score: int,
    adminId: Option<int>, createdAt: int)

  /** The columns get_spam_examples reads back: text, name, bio and score. */
  datatype ExampleRow = ExampleRow(text: string, name: Option<string>, bio: Option<string>, score: int)

  /** A row of `message_history`. */
  datatype HistoryEntry = HistoryEntry(role: string, content: string, createdAt: int)

  /** A non-empty set has an element (what lets a loop pick the next row of a set). */
  lemma NonEmptyHasElement(s: set<int>)
    requires s != {}
    ensures exists x :: x in s
  {
    if forall x :: x !in s {
      assert false;
    }
  }

  class Db {
    var admins: map<int, Admin>
    var groups: map<int, Group>
    var transactions: seq<Transaction>
    /** `referral_links`, keyed by `referral_id` (save_referral keeps it unique). */
    var referrals: map<int, int>
    var spamExamples: seq<SpamExample>
    var history: map<int, seq<HistoryEntry>>

    /** The foreign keys of the schema. */
    ghost predicate Valid()
      reads this
    {
      && (forall g :: g in groups ==> groups[g].admins <= admins.Keys)
      && (forall r :: r in referrals ==> r in admins && referrals[r] in admins)
      && (forall i :: 0 <= i < |transactions| ==> transactions[i].adminId in admins)
      && (forall i :: 0 <= i < |spamExamples| && spamExamples[i].adminId.Some? ==>
            spamExamples[i].adminId.value in admins)
      && history.Keys <= admins.Keys
    }

    /** An empty database. */
    constructor()
      ensures Valid()
      ensures admins == map[] && groups == map[] && transactions == []
      ensures referrals == map[] && spamExamples == [] && history == map[]
    {
      admins := map[];
      groups := map[];
      transactions := [];
      referrals := map[];
      spamExamples := [];
      history := map[];
    }
  }
}
