/**
 * The relational store behind the handlers: the six tables of the model
 * files, each with its id sequence. Every write keeps the primary keys
 * ascending and the unique constraints of the model files; a write that
 * would break a unique constraint is refused and changes nothing.
 */
module Database {
  import opened Wrappers
  import opened Tables
  import opened TenantModel
  import opened UserModel
  import opened ReferralModel
  import opened EstimateModel
  import opened RewardSettingModel
  import opened TenantHostModel

  class Store {
    var tenants: seq<Row<Tenant>>
    var users: seq<Row<User>>
    var referrals: seq<Row<Referral>>
    var estimates: seq<Row<Estimate>>
    var rewards: seq<Row<RewardSetting>>
    var hosts: seq<Row<TenantHost>>
    var nextTenantId: int
    var nextUserId: int
    var nextReferralId: int
    var nextEstimateId: int
    var nextRewardId: int

    ghost predicate Valid()
      reads this
    {
      && WellKeyed(tenants, nextTenantId) && SlugAndUrlUnique(tenants)
      && WellKeyed(users, nextUserId) && EmailUniqueWithinTenant(users)
      && WellKeyed(referrals, nextReferralId) && CodeUniqueWithinTenant(referrals)
      && WellKeyed(estimates, nextEstimateId)
      && WellKeyed(rewards, nextRewardId) && NameUnique(rewards)
      && Ascending(hosts) && HostUnique(hosts)
    }

    /** An empty database whose sequences start at 1, with a fixed host table. */
    constructor (hostRows: seq<Row<TenantHost>>)
      requires Ascending(hostRows) && HostUnique(hostRows)
      ensures Valid()
      ensures tenants == [] && users == [] && referrals == [] && estimates == [] && rewards == []
      ensures hosts == hostRows
      ensures nextTenantId == 1 && nextUserId == 1 && nextReferralId == 1 && nextEstimateId == 1 && nextRewardId == 1
    {
      tenants, users, referrals, estimates, rewards := [], [], [], [], [];
      hosts := hostRows;
      nextTenantId, nextUserId, nextReferralId, nextEstimateId, nextRewardId := 1, 1, 1, 1, 1;
    }

    /** INSERT INTO Tenants; refused when the slug or the client URL is taken. */
    method InsertTenant(t: Tenant) returns (r: Result<int, DbError>)
      requires Valid()
      modifies this`tenants, this`nextTenantId
      ensures Valid()
      ensures r.Ok? <==> !SlugTaken(old(tenants), t.slug) && !ClientUrlTaken(old(tenants), t.clientUrl)
      ensures r.Ok? ==> r.value == old(nextTenantId) && tenants == old(tenants) + [Row(r.value, t)]
                        && nextTenantId == old(nextTenantId) + 1
      ensures r.Err? ==> tenants == old(tenants) && nextTenantId == old(nextTenantId)
    {
      if SlugTaken(tenants, t.slug) || ClientUrlTaken(tenants, t.clientUrl) {
        return Err(UniqueViolation("Tenants"));
      }
      var row := Row(nextTenantId, t);
      forall x | x in tenants ensures x.id < row.id && x.val.slug != t.slug && x.val.clientUrl != t.clientUrl {
        var i :| 0 <= i < |tenants| && tenants[i] == x;
      }
      tenants := tenants + [row];
      nextTenantId := nextTenantId + 1;
      r := Ok(row.id);
    }

    /** INSERT INTO Users; refused when (email, tenantId) is taken. */
    method InsertUser(u: User) returns (r: Result<int, DbError>)
      requires Valid()
      modifies this`users, this`nextUserId
      ensures Valid()
      ensures r.Ok? <==> !EmailTaken(old(users), u.email, u.tenantId)
      ensures r.Ok? ==> r.value == old(nextUserId) && users == old(users) + [Row(r.value, u)]
                        && nextUserId == old(nextUserId) + 1
      ensures r.Err? ==> users == old(users) && nextUserId == old(nextUserId)
    {
      if EmailTaken(users, u.email, u.tenantId) {
        return Err(UniqueViolation("user_email_tenant"));
      }
      var row := Row(nextUserId, u);
      forall x | x in users ensures x.id < row.id && !(x.val.email == u.email && x.val.tenantId == u.tenantId) {
        var i :| 0 <= i < |users| && users[i] == x;
      }
      users := users + [row];
      nextUserId := nextUserId + 1;
      r := Ok(row.id);
    }

    /** INSERT INTO Referrals; refused when (code, tenantId) is taken. */
    method InsertReferral(v: Referral) returns (r: Result<int, DbError>)
      requires Valid()
      modifies this`referrals, this`nextReferralId
      ensures Valid()
      ensures r.Ok? <==> !CodeTaken(old(referrals), v.code, v.tenantId)
      ensures r.Ok? ==> r.value == old(nextReferralId) && referrals == old(referrals) + [Row(r.value, v)]
                        && nextReferralId == old(nextReferralId) + 1
      ensures r.Err? ==> referrals == old(referrals) && nextReferralId == old(nextReferralId)
    {
      if CodeTaken(referrals, v.code, v.tenantId) {
        return Err(UniqueViolation("referral_code_tenant"));
      }
      var row := Row(nextReferralId, v);
      forall x | x in referrals ensures x.id < row.id && !(x.val.code == v.code && x.val.tenantId == v.tenantId) {
        var i :| 0 <= i < |referrals| && referrals[i] == x;
      }
      referrals := referrals + [row];
      nextReferralId := nextReferralId + 1;
      r := Ok(row.id);
    }

    /** INSERT INTO Estimates; no unique constraint applies. */
    method InsertEstimate(v: Estimate) returns (id: int)
      requires Valid()
      modifies this`estimates, this`nextEstimateId
      ensures Valid()
      ensures id == old(nextEstimateId) && estimates == old(estimates) + [Row(id, v)]
      ensures nextEstimateId == old(nextEstimateId) + 1
    {
      id := nextEstimateId;
      estimates := estimates + [Row(id, v)];
      nextEstimateId := nextEstimateId + 1;
    }

    /** INSERT INTO RewardSettings; refused when the name is taken. */
    method InsertReward(v: RewardSetting) returns (r: Result<int, DbError>)
      requires Valid()
      modifies this`rewards, this`nextRewardId
      ensures Valid()
      ensures r.Ok? <==> !NameTaken(old(rewards), v.name)
      ensures r.Ok? ==> r.value == old(nextRewardId) && rewards == old(rewards) + [Row(r.value, v)]
                        && nextRewardId == old(nextRewardId) + 1
      ensures r.Err? ==> rewards == old(rewards) && nextRewardId == old(nextRewardId)
    {
      if NameTaken(rewards, v.name) {
        return Err(UniqueViolation("RewardSettings_name_key"));
      }
      var row := Row(nextRewardId, v);
      forall x | x in rewards ensures x.id < row.id && x.val.name != v.name {
        var i :| 0 <= i < |rewards| && rewards[i] == x;
      }
      rewards := rewards + [row];
      nextRewardId := nextRewardId + 1;
      r := Ok(row.id);
    }

    /**
     * ROLLBACK of a transaction that appended to Tenants: the table returns
     * to its first `n` rows; the id sequence is not rewound.
     */
    method RollbackTenants(n: nat)
      requires Valid() && n <= |tenants|
      modifies this`tenants
      ensures Valid()
      ensures tenants == old(tenants[..n])
    {
      ghost var before := tenants;
      tenants := tenants[..n];
      forall x | x in tenants ensures x in before {
        var k :| 0 <= k < |tenants| && tenants[k] == x;
        assert before[k] == x;
      }
    }

    /** UPDATE Tenants SET name, logoUrl, estimateFieldConfig for the row at position `i`. */
    method SaveTenant(i: nat, name: string, logoUrl: Option<string>, config: Option<JsValues.Value>)
      requires Valid() && i < |tenants|
      modifies this`tenants
      ensures Valid()
      ensures tenants == old(tenants[i := Row(tenants[i].id,
                 tenants[i].val.(name := name, logoUrl := logoUrl, estimateFieldConfig := config))])
    {
      var row := Row(tenants[i].id, tenants[i].val.(name := name, logoUrl := logoUrl, estimateFieldConfig := config));
      ghost var before := tenants;
      tenants := tenants[i := row];
      forall x | x in tenants ensures x == row || x in before {
        var k :| 0 <= k < |tenants| && tenants[k] == x;
      }
    }

    /** UPDATE Referrals SET status for the row at position `i`. */
    method SaveReferralStatus(i: nat, s: Status)
      requires Valid() && i < |referrals|
      modifies this`referrals
      ensures Valid()
      ensures referrals == old(referrals[i := Row(referrals[i].id, referrals[i].val.(status := s))])
    {
      var row := Row(referrals[i].id, referrals[i].val.(status := s));
      ghost var before := referrals;
      referrals := referrals[i := row];
      forall x | x in referrals ensures x == row || x in before {
        var k :| 0 <= k < |referrals| && referrals[k] == x;
      }
    }

    /** UPDATE RewardSettings SET active for the row at position `i`. */
    method SaveRewardActive(i: nat, active: bool)
      requires Valid() && i < |rewards|
      modifies this`rewards
      ensures Valid()
      ensures rewards == old(rewards[i := Row(rewards[i].id, rewards[i].val.(active := active))])
    {
      var row := Row(rewards[i].id, rewards[i].val.(active := active));
      ghost var before := rewards;
      rewards := rewards[i := row];
      forall x | x in rewards ensures x == row || x in before {
        var k :| 0 <= k < |rewards| && rewards[k] == x;
      }
    }

    /** DELETE FROM Users WHERE id. */
    method DeleteUser(id: int)
      requires Valid()
      modifies this`users
      ensures Valid()
      ensures users == DeleteId(old(users), id)
    {
      DeleteIdWellKeyed(users, id, nextUserId);
      users := DeleteId(users, id);
    }

    /** DELETE FROM RewardSettings WHERE id. */
    method DeleteReward(id: int)
      requires Valid()
      modifies this`rewards
      ensures Valid()
      ensures rewards == DeleteId(old(rewards), id)
    {
      DeleteIdWellKeyed(rewards, id, nextRewardId);
      rewards := DeleteId(rewards, id);
    }
  }
}
