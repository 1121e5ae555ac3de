/**
 * The stored procedures of the schema (src/app/database/database_schema.py:172-345):
 * save_referral with its bounded walk up the referrer chain,
 * process_successful_payment with the referral commission, and
 * update_group_admins; plus the Python wrapper of save_referral
 * (src/app/database/referral_operations.py). A procedure that raises leaves the
 * database unchanged, as its transaction is rolled back.
 */
module DatabaseSchema {
  import opened Text
  import opened Database

  /** `v_max_depth` of save_referral. */
  const MAX_REFERRAL_DEPTH: nat := 10

  /** Walking referrer links from `cur`, visiting at most `steps` ids, meets `target`. */
  predicate ReachesWithin(links: map<int, int>, cur: int, target: int, steps: nat)
    decreases steps
  {
    steps > 0 && (cur == target || (cur in links && ReachesWithin(links, links[cur], target, steps - 1)))
  }

  /** The three refusals of save_referral: self-referral, an existing referrer, a cycle within the depth bound. */
  predicate ReferralAccepted(links: map<int, int>, referral: int, referrer: int) {
    referral != referrer && referral !in links && !ReachesWithin(links, referrer, referral, MAX_REFERRAL_DEPTH)
  }

  /** The save_referral procedure. Both ids are rows of `administrators` (the foreign keys). */
  method SaveReferralProcedure(db: Db, referral: int, referrer: int) returns (success: bool)
    requires db.Valid() && referral in db.admins && referrer in db.admins
    modifies db
    ensures db.Valid()
    ensures success == ReferralAccepted(old(db.referrals), referral, referrer)
    ensures success ==> db.referrals == old(db.referrals)[referral := referrer]
    ensures !success ==> db.referrals == old(db.referrals)
    ensures db.admins == old(db.admins) && db.groups == old(db.groups)
    ensures db.transactions == old(db.transactions) && db.spamExamples == old(db.spamExamples)
    ensures db.history == old(db.history)
  {
    if referral == referrer {
      return false;
    }
    if referral in db.referrals {
      return false;
    }
    var current: Option<int> := Some(referrer);
    var depth: nat := 0;
    while depth < MAX_REFERRAL_DEPTH && current.Some?
      invariant depth <= MAX_REFERRAL_DEPTH
      invariant ReachesWithin(db.referrals, referrer, referral, MAX_REFERRAL_DEPTH)
        == (current.Some? && ReachesWithin(db.referrals, current.value, referral, MAX_REFERRAL_DEPTH - depth))
      decreases MAX_REFERRAL_DEPTH - depth
    {
      if current.value == referral {
        return false;
      }
      current := if current.value in db.referrals then Some(db.referrals[current.value]) else None;
      depth := depth + 1;
    }
    db.referrals := db.referrals[referral := referrer];
    success := true;
  }

  /** A link from `referral` does not change walks that never meet `referral`. */
  lemma {:induction false} WalkAvoidsNewLink(links: map<int, int>, referral: int, referrer: int, cur: int, steps: nat)
    requires !ReachesWithin(links, cur, referral, steps)
    ensures !ReachesWithin(links[referral := referrer], cur, referral, steps)
    decreases steps
  {
    if steps > 0 && cur in links {
      WalkAvoidsNewLink(links, referral, referrer, links[cur], steps - 1);
    }
  }

  /**
   * An accepted link closes no cycle of at most MAX_REFERRAL_DEPTH + 1 links:
   * walking up from the new referrer does not come back to the referral.
   */
  lemma AcceptedLinkClosesNoShortCycle(links: map<int, int>, referral: int, referrer: int)
    requires ReferralAccepted(links, referral, referrer)
    ensures !ReachesWithin(links[referral := referrer], referrer, referral, MAX_REFERRAL_DEPTH)
  {
    WalkAvoidsNewLink(links, referral, referrer, referrer, MAX_REFERRAL_DEPTH);
  }

  /** With the chain 111 <- 222 <- 333 in place, 333 cannot become the referrer of 111. */
  lemma CyclicReferralRejected(links0: map<int, int>)
    requires links0 == map[]
    ensures ReferralAccepted(links0, 222, 111)
    ensures ReferralAccepted(links0[222 := 111], 333, 222)
    ensures !ReferralAccepted(links0[222 := 111][333 := 222], 111, 333)
  {
    var links1 := links0[222 := 111];
    var links2 := links1[333 := 222];
    assert !ReachesWithin(links1, 111, 333, MAX_REFERRAL_DEPTH - 1);
    assert !ReachesWithin(links1, 222, 333, MAX_REFERRAL_DEPTH);
    assert ReachesWithin(links2, 111, 111, MAX_REFERRAL_DEPTH - 2);
    assert ReachesWithin(links2, 222, 111, MAX_REFERRAL_DEPTH - 1);
  }

  /** The row `INSERT INTO administrators (admin_id, credits) VALUES (id, 0) ON CONFLICT DO NOTHING` leaves. */
  function WithZeroRow(admins: map<int, Admin>, adminId: int): (r: map<int, Admin>)
    ensures r.Keys == admins.Keys + {adminId}
    ensures forall a :: a in admins ==> r[a] == admins[a]
  {
    if adminId in admins then admins else admins[adminId := Admin(None, 0, true)]
  }

  /** save_referral (Python): creates missing rows for both users with no credits, then calls the procedure. */
  method SaveReferral(db: Db, userId: int, referrerId: int) returns (ok: bool)
    requires db.Valid()
    modifies db
    ensures db.Valid()
    ensures db.admins == WithZeroRow(WithZeroRow(old(db.admins), userId), referrerId)
    ensures ok == ReferralAccepted(old(db.referrals), userId, referrerId)
    ensures ok ==> db.referrals == old(db.referrals)[userId := referrerId]
    ensures !ok ==> db.referrals == old(db.referrals)
    ensures db.groups == old(db.groups) && db.transactions == old(db.transactions)
    ensures db.spamExamples == old(db.spamExamples) && db.history == old(db.history)
  {
    db.admins := WithZeroRow(WithZeroRow(db.admins, userId), referrerId);
    ok := SaveReferralProcedure(db, userId, referrerId);
  }

  /** `FLOOR(p_stars_amount * p_referral_commission_rate)` for a rate of `percent` / 100. */
  function Commission(amount: nat, percent: nat): nat {
    amount * percent / 100
  }

  /** The commission never exceeds the payment for a rate up to 100%, and 10% of 1000 is 100. */
  lemma CommissionBounds(amount: nat, percent: nat)
    requires percent <= 100
    ensures Commission(amount, percent) <= amount
    ensures Commission(1000, 10) == 100
  {
    assert amount * percent <= amount * 100;
  }

  /** The admins after the payer's upsert: a new payer starts with the paid amount. */
  function Credited(admins: map<int, Admin>, adminId: int, amount: nat): (r: map<int, Admin>)
    ensures r.Keys == admins.Keys + {adminId}
    ensures r[adminId].credits == (if adminId in admins then admins[adminId].credits else 0) + amount
    ensures forall a :: a in admins && a != adminId ==> r[a] == admins[a]
  {
    if adminId in admins then admins[adminId := admins[adminId].(credits := admins[adminId].credits + amount)]
    else admins[adminId := Admin(None, amount, true)]
  }

  /** Moderation switched on in every group the admin administers, the other groups untouched. */
  function ModerationOnFor(groups: map<int, Group>, adminId: int): (r: map<int, Group>)
    ensures r.Keys == groups.Keys
    ensures forall g :: g in groups ==> r[g].admins == groups[g].admins && r[g].members == groups[g].members
    ensures forall g :: g in groups ==> r[g].moderationEnabled == (groups[g].moderationEnabled || adminId in groups[g].admins)
  {
    map g | g in groups :: if adminId in groups[g].admins then groups[g].(moderationEnabled := true) else groups[g]
  }

  /**
   * process_successful_payment: credits the payer, logs the payment, enables the
   * payer's groups and, when the payer was referred, credits the referrer the
   * commission and logs it.
   */
  method ProcessSuccessfulPayment(db: Db, adminId: int, starsAmount: nat, commissionPercent: nat, now: int)
    requires db.Valid()
    modifies db
    ensures db.Valid()
    ensures db.groups == ModerationOnFor(old(db.groups), adminId)
    ensures adminId !in old(db.referrals) ==>
      db.admins == Credited(old(db.admins), adminId, starsAmount)
      && db.transactions == old(db.transactions) + [Transaction(adminId, starsAmount, PaymentTx, now)]
    ensures adminId in old(db.referrals) ==>
      var referrer := old(db.referrals)[adminId];
      var paid := Credited(old(db.admins), adminId, starsAmount);
      var c := Commission(starsAmount, commissionPercent);
      && db.admins == paid[referrer := paid[referrer].(credits := paid[referrer].credits + c)]
      && db.transactions == old(db.transactions)
        + [Transaction(adminId, starsAmount, PaymentTx, now), Transaction(referrer, c, ReferralCommissionTx, now)]
    ensures db.referrals == old(db.referrals) && db.spamExamples == old(db.spamExamples)
    ensures db.history == old(db.history)
  {
    db.admins := Credited(db.admins, adminId, starsAmount);
    db.transactions := db.transactions + [Transaction(adminId, starsAmount, PaymentTx, now)];
    db.groups := ModerationOnFor(db.groups, adminId);
    assert db.Valid();
    if adminId in db.referrals {
      var referrer := db.referrals[adminId];
      var c := Commission(starsAmount, commissionPercent);
      db.admins := db.admins[referrer := db.admins[referrer].(credits := db.admins[referrer].credits + c)];
      db.transactions := db.transactions + [Transaction(referrer, c, ReferralCommissionTx, now)];
      assert db.Valid();
    }
  }

  predicate Distinct(ids: seq<int>) {
    forall i, j :: 0 <= i < j < |ids| ==> ids[i] != ids[j]
  }

  /** The admins after the procedure's first insert: missing ones get username 'unknown' and the initial credits. */
  function WithUnknownAdmins(admins: map<int, Admin>, ids: seq<int>, initialCredits: nat): (r: map<int, Admin>)
    ensures r.Keys == admins.Keys + set a | a in ids
    ensures forall a :: a in admins ==> r[a] == admins[a]
    ensures forall a :: a in r && a !in admins ==> r[a] == Admin(Some("unknown"), initialCredits, true)
  {
    admins + map a | a in ids && a !in admins :: Admin(Some("unknown"), initialCredits, true)
  }

  /**
   * The update_group_admins procedure. A repeated id violates the primary key of
   * `group_administrators`, so the call fails and nothing changes.
   */
  method UpdateGroupAdminsProcedure(db: Db, groupId: int, adminIds: seq<int>, initialCredits: nat) returns (ok: bool)
    requires db.Valid()
    modifies db
    ensures db.Valid()
    ensures ok <==> Distinct(adminIds)
    ensures !ok ==> unchanged(db)
    ensures ok ==> db.admins == WithUnknownAdmins(old(db.admins), adminIds, initialCredits)
    ensures ok ==> groupId in db.groups && db.groups[groupId].admins == set a | a in adminIds
    ensures ok ==> db.groups == old(db.groups)[groupId :=
      if groupId in old(db.groups) then old(db.groups)[groupId].(admins := set a | a in adminIds)
      else Group(true, set a | a in adminIds, {})]
    ensures db.transactions == old(db.transactions) && db.referrals == old(db.referrals)
    ensures db.spamExamples == old(db.spamExamples) && db.history == old(db.history)
  {
    if !Distinct(adminIds) {
      return false;
    }
    db.admins := WithUnknownAdmins(db.admins, adminIds, initialCredits);
    var ids := set a | a in adminIds;
    var group := if groupId in db.groups then db.groups[groupId].(admins := ids) else Group(true, ids, {});
    db.groups := db.groups[groupId := group];
    ok := true;
  }
}
