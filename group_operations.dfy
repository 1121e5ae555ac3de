/**
 * Group rows, their administrators and approved members
 * (src/app/database/group_operations.py). The `groups`, `group_administrators`
 * and `approved_members` tables are the `groups` map of `Db`; each SQL
 * transaction is one method.
 */
module GroupOperations {
  import opened Text
  import opened Database
  import AdminOperations

  /** The group's flag after the upsert of set_group_moderation; a new group has no admins or members. */
  function WithModeration(groups: map<int, Group>, groupId: int, enabled: bool): (r: map<int, Group>)
    ensures r.Keys == groups.Keys + {groupId}
    ensures forall g :: g in groups && g != groupId ==> r[g] == groups[g]
  {
    if groupId in groups then groups[groupId := groups[groupId].(moderationEnabled := enabled)]
    else groups[groupId := Group(enabled, {}, {})]
  }

  /** is_moderation_enabled: false for an unknown group. */
  predicate IsModerationEnabled(groups: map<int, Group>, groupId: int) {
    groupId in groups && groups[groupId].moderationEnabled
  }

  /** Reading the flag back gives what was set; the group's admins and members are kept. */
  lemma ModerationReadBack(groups: map<int, Group>, groupId: int, enabled: bool)
    ensures IsModerationEnabled(WithModeration(groups, groupId, enabled), groupId) == enabled
    ensures groupId in groups ==>
      WithModeration(groups, groupId, enabled)[groupId].admins == groups[groupId].admins
      && WithModeration(groups, groupId, enabled)[groupId].members == groups[groupId].members
  {
  }

  /** set_group_moderation. */
  method SetGroupModeration(db: Db, groupId: int, enabled: bool)
    requires db.Valid()
    modifies db
    ensures db.Valid()
    ensures db.groups == WithModeration(old(db.groups), groupId, enabled)
    ensures db.admins == old(db.admins) && db.transactions == old(db.transactions)
    ensures db.referrals == old(db.referrals) && db.spamExamples == old(db.spamExamples)
    ensures db.history == old(db.history)
  {
    db.groups := WithModeration(db.groups, groupId, enabled);
  }

  /** The rows of the join of `administrators` and `group_administrators` for a group. */
  function GroupAdminIds(admins: map<int, Admin>, groups: map<int, Group>, groupId: int): set<int> {
    if groupId in groups then groups[groupId].admins * admins.Keys else {}
  }

  /** The admin of `ids` with the highest balance, None when `ids` is empty; ties are left open. */
  method HighestBalance(admins: map<int, Admin>, ids: set<int>) returns (best: Option<int>)
    requires ids <= admins.Keys
    ensures best.None? <==> ids == {}
    ensures best.Some? ==> best.value in ids
    ensures best.Some? ==> forall a :: a in ids ==> admins[a].credits <= admins[best.value].credits
  {
    var rest := ids;
    best := None;
    while rest != {}
      invariant rest <= ids
      invariant best.None? ==> rest == ids
      invariant best.Some? ==> best.value in ids
      invariant best.Some? ==> forall a :: a in ids && a !in rest ==> admins[a].credits <= admins[best.value].credits
      decreases |rest|
    {
      NonEmptyHasElement(rest);
      var x :| x in rest;
      if best.None? || admins[x].credits > admins[best.value].credits {
        best := Some(x);
      }
      rest := rest - {x};
    }
  }

  /**
   * deduct_credits_from_admins: takes `amount` from the group's admin with the
   * highest balance and returns that admin's id; returns 0 and changes nothing when
   * the group has no admin or the highest balance is below `amount`. Among admins
   * with equal highest balances the choice is left open, as `ORDER BY ... LIMIT 1` does.
   */
  method DeductCreditsFromAdmins(db: Db, groupId: int, amount: int, now: int) returns (adminId: int)
    requires db.Valid()
    modifies db
    ensures db.Valid()
    ensures var ids := GroupAdminIds(old(db.admins), old(db.groups), groupId);
      (forall a :: a in ids ==> old(db.admins)[a].credits < amount) ==> adminId == 0 && unchanged(db)
    ensures var ids := GroupAdminIds(old(db.admins), old(db.groups), groupId);
      (exists a :: a in ids && old(db.admins)[a].credits >= amount) ==>
        && adminId in ids
        && (forall a :: a in ids ==> old(db.admins)[a].credits <= old(db.admins)[adminId].credits)
        && db.admins == old(db.admins)[adminId := old(db.admins)[adminId].(credits := old(db.admins)[adminId].credits - amount)]
        && db.transactions == old(db.transactions) + [Transaction(adminId, -amount, DeductTx, now)]
    ensures db.groups == old(db.groups) && db.referrals == old(db.referrals)
    ensures db.spamExamples == old(db.spamExamples) && db.history == old(db.history)
  {
    var ids := GroupAdminIds(db.admins, db.groups, groupId);
    var best := HighestBalance(db.admins, ids);
    if best.None? || db.admins[best.value].credits < amount {
      return 0;
    }
    adminId := best.value;
    var row := db.admins[adminId];
    db.admins := db.admins[adminId := row.(credits := row.credits - amount)];
    db.transactions := db.transactions + [Transaction(adminId, -amount, DeductTx, now)];
  }

  /** The groups after `INSERT INTO approved_members ... ON CONFLICT DO NOTHING`. */
  function WithMember(groups: map<int, Group>, groupId: int, memberId: int): (r: map<int, Group>)
    requires groupId in groups
    ensures r.Keys == groups.Keys && memberId in r[groupId].members
    ensures forall g :: g in groups && g != groupId ==> r[g] == groups[g]
  {
    groups[groupId := groups[groupId].(members := groups[groupId].members + {memberId})]
  }

  /** Adding a member twice is adding it once. */
  lemma AddMemberIdempotent(groups: map<int, Group>, groupId: int, memberId: int)
    requires groupId in groups
    ensures WithMember(WithMember(groups, groupId, memberId), groupId, memberId) == WithMember(groups, groupId, memberId)
  {
    var once := WithMember(groups, groupId, memberId);
    assert once[groupId].members + {memberId} == once[groupId].members;
  }

  /**
   * add_member. The foreign key to `groups` makes the insert fail for an unknown
   * group; that failure is `ok == false` with nothing changed.
   */
  method AddMember(db: Db, groupId: int, memberId: int) returns (ok: bool)
    requires db.Valid()
    modifies db
    ensures db.Valid()
    ensures ok <==> groupId in old(db.groups)
    ensures ok ==> db.groups == WithMember(old(db.groups), groupId, memberId)
    ensures !ok ==> db.groups == old(db.groups)
    ensures db.admins == old(db.admins) && db.transactions == old(db.transactions)
    ensures db.referrals == old(db.referrals) && db.spamExamples == old(db.spamExamples)
    ensures db.history == old(db.history)
  {
    if groupId !in db.groups {
      return false;
    }
    db.groups := WithMember(db.groups, groupId, memberId);
    ok := true;
  }

  /** The groups after remove_member_from_group: from the given group, or from every group. */
  function WithoutMember(groups: map<int, Group>, memberId: int, groupId: Option<int>): (r: map<int, Group>)
    ensures r.Keys == groups.Keys
  {
    if groupId.Some? then
      if groupId.value in groups then
        groups[groupId.value := groups[groupId.value].(members := groups[groupId.value].members - {memberId})]
      else groups
    else
      map g | g in groups :: groups[g].(members := groups[g].members - {memberId})
  }

  /**
   * With a group id only that group loses the member; without one the member
   * leaves every group. No other member and no admin set is touched.
   */
  lemma RemovalScope(groups: map<int, Group>, memberId: int, groupId: Option<int>)
    ensures var r := WithoutMember(groups, memberId, groupId);
      forall g :: g in groups ==>
        && r[g].admins == groups[g].admins
        && r[g].moderationEnabled == groups[g].moderationEnabled
        && r[g].members - {memberId} == groups[g].members - {memberId}
        && (memberId in r[g].members <==> memberId in groups[g].members && groupId.Some? && groupId.value != g)
  {
  }

  /** remove_member_from_group. */
  method RemoveMemberFromGroup(db: Db, memberId: int, groupId: Option<int>)
    requires db.Valid()
    modifies db
    ensures db.Valid()
    ensures db.groups == WithoutMember(old(db.groups), memberId, groupId)
    ensures db.admins == old(db.admins) && db.transactions == old(db.transactions)
    ensures db.referrals == old(db.referrals) && db.spamExamples == old(db.spamExamples)
    ensures db.history == old(db.history)
  {
    db.groups := WithoutMember(db.groups, memberId, groupId);
  }

  /** `after` is `before` plus a fresh initial row for each id of `ids` it did not hold. */
  ghost predicate AdminsAdded(before: map<int, Admin>, after: map<int, Admin>, ids: set<int>) {
    && after.Keys == before.Keys + ids
    && (forall a :: a in before ==> after[a] == before[a])
    && (forall a :: a in after && a !in before ==> after[a] == AdminOperations.NewAdminRow())
  }

  /** Entries appended to the transaction log from `from` on are initial credits of admins in `ids` that were new. */
  ghost predicate InitialCreditsFor(txs: seq<Transaction>, from: nat, ids: set<int>, known: map<int, Admin>) {
    from <= |txs| &&
    forall i :: from <= i < |txs| ==>
      txs[i].kind == InitialTx && txs[i].amount == INITIAL_CREDITS && txs[i].adminId in ids && txs[i].adminId !in known
  }

  /** Initialisation of the ids in `done` has turned (admins0, txs0) into (admins, txs). */
  ghost predicate Initialized(admins0: map<int, Admin>, txs0: seq<Transaction>, admins: map<int, Admin>,
                              txs: seq<Transaction>, done: set<int>) {
    && AdminsAdded(admins0, admins, done)
    && txs0 <= txs
    && InitialCreditsFor(txs, |txs0|, done, admins0)
  }

  /** One more initialize_new_admin call keeps Initialized, with its id added to `done`. */
  lemma InitializedStep(admins0: map<int, Admin>, txs0: seq<Transaction>, admins1: map<int, Admin>,
                        txs1: seq<Transaction>, admins2: map<int, Admin>, txs2: seq<Transaction>,
                        done: set<int>, a: int, now: int)
    requires Initialized(admins0, txs0, admins1, txs1, done)
    requires || (a in admins1 && admins2 == admins1 && txs2 == txs1)
             || (a !in admins1 && admins2 == admins1[a := AdminOperations.NewAdminRow()]
                 && txs2 == txs1 + [Transaction(a, INITIAL_CREDITS, InitialTx, now)])
    ensures Initialized(admins0, txs0, admins2, txs2, done + {a})
  {
    assert a !in admins1 ==> a !in admins0;
  }

  /** initialize_new_admin for each id of `ids`, in an unspecified order. */
  method InitializeAdmins(db: Db, ids: set<int>, now: int)
    requires db.Valid()
    modifies db
    ensures db.Valid()
    ensures AdminsAdded(old(db.admins), db.admins, ids)
    ensures old(db.transactions) <= db.transactions
    ensures InitialCreditsFor(db.transactions, |old(db.transactions)|, ids, old(db.admins))
    ensures db.groups == old(db.groups) && db.referrals == old(db.referrals)
    ensures db.spamExamples == old(db.spamExamples) && db.history == old(db.history)
  {
    ghost var admins0, txs0 := db.admins, db.transactions;
    var rest := ids;
    ghost var done: set<int> := {};
    while rest != {}
      invariant done + rest == ids
      invariant db.Valid()
      invariant Initialized(admins0, txs0, db.admins, db.transactions, done)
      invariant db.groups == old(db.groups) && db.referrals == old(db.referrals)
      invariant db.spamExamples == old(db.spamExamples) && db.history == old(db.history)
      decreases |rest|
    {
      NonEmptyHasElement(rest);
      var a :| a in rest;
      ghost var admins1, txs1 := db.admins, db.transactions;
      var _ := AdminOperations.InitializeNewAdmin(db, a, now);
      InitializedStep(admins0, txs0, admins1, txs1, db.admins, db.transactions, done, a, now);
      rest := rest - {a};
      done := done + {a};
    }
  }

  /**
   * update_group_admins: the group is created (moderation on) if missing, the
   * admins not in `adminIds` are unlinked, and the new ones are initialised when
   * unknown and linked. Afterwards the group's admin set is exactly `adminIds`.
   */
  method UpdateGroupAdmins(db: Db, groupId: int, adminIds: seq<int>, now: int)
    requires db.Valid()
    modifies db
    ensures db.Valid()
    ensures groupId in db.groups && db.groups[groupId].admins == set a | a in adminIds
    ensures groupId in old(db.groups) ==>
      db.groups[groupId] == old(db.groups)[groupId].(admins := set a | a in adminIds)
    ensures groupId !in old(db.groups) ==> db.groups[groupId] == Group(true, set a | a in adminIds, {})
    ensures forall g :: g in old(db.groups) && g != groupId ==> g in db.groups && db.groups[g] == old(db.groups)[g]
    ensures db.groups.Keys == old(db.groups).Keys + {groupId}
    ensures AdminsAdded(old(db.admins), db.admins, set a | a in adminIds)
    ensures old(db.transactions) <= db.transactions
    ensures InitialCreditsFor(db.transactions, |old(db.transactions)|, set a | a in adminIds, old(db.admins))
    ensures db.referrals == old(db.referrals) && db.spamExamples == old(db.spamExamples)
    ensures db.history == old(db.history)
  {
    var ids := set a | a in adminIds;
    if groupId !in db.groups {
      db.groups := db.groups[groupId := Group(true, {}, {})];
    }
    var current := db.groups[groupId].admins;
    var added := ids - current;
    InitializeAdmins(db, added, now);
    assert current <= old(db.admins).Keys;
    db.groups := db.groups[groupId := db.groups[groupId].(admins := ids)];
  }
}
