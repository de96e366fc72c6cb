/**
 * Reward administration (server/controllers/rewardController.js): list the
 * active rewards, create a reward, delete one and flip its `active` flag.
 */
module RewardController {
  import opened Wrappers
  import opened JsStrings
  import opened Tables
  import opened Http
  import opened RewardSettingModel
  import opened Database

  /** `getActiveRewards`: exactly the rewards whose `active` is true, in key order. */
  function GetActiveRewards(rewards: seq<Row<RewardSetting>>): (r: seq<Row<RewardSetting>>)
    ensures forall x :: x in r <==> x in rewards && x.val.active
    ensures Ascending(rewards) ==> Ascending(r)
  {
    Where(rewards, (v: RewardSetting) => v.active)
  }

  /**
   * `createReward`: a missing or empty name gives 400; otherwise the reward
   * is stored active under that name, and a name already taken in any tenant
   * is refused by the unique index (500).
   */
  method CreateReward(db: Store, name: Option<string>) returns (resp: Response<Row<RewardSetting>>)
    requires db.Valid()
    modifies db`rewards, db`nextRewardId
    ensures db.Valid()
    ensures !Filled(name) ==> resp == Refuse(400, "Reward name is required")
    ensures Filled(name) && NameTaken(old(db.rewards), name.value) ==> resp == Refuse(500, "Server error")
    ensures !resp.Reply? ==> db.rewards == old(db.rewards)
    ensures resp.Reply? <==> Filled(name) && !NameTaken(old(db.rewards), name.value)
    ensures resp.Reply? ==>
      && resp.status == 201 && resp.body.val == RewardSetting(name.value, true)
      && db.rewards == old(db.rewards) + [resp.body]
  {
    if !Filled(name) {
      return Refuse(400, "Reward name is required");
    }
    var reward := BuildRewardSetting(RewardSettingDraft(name, None));
    var id := db.InsertReward(reward.value);
    if id.Err? {
      return Refuse(500, "Server error");
    }
    return Reply(201, Row(id.value, reward.value));
  }

  /** `deleteReward`: reports success whether or not a reward had that key. */
  method DeleteReward(db: Store, id: int) returns (resp: Response<string>)
    requires db.Valid()
    modifies db`rewards
    ensures db.Valid()
    ensures resp == Reply(200, "Reward deleted")
    ensures db.rewards == DeleteId(old(db.rewards), id)
  {
    db.DeleteReward(id);
    return Reply(200, "Reward deleted");
  }

  /** `reward.active = !reward.active`. */
  function Toggled(r: RewardSetting): (t: RewardSetting)
    ensures t.name == r.name && t.active == !r.active
  {
    r.(active := !r.active)
  }

  /** `toggleReward`: 404 for an unknown key; otherwise only that reward's `active` flips. */
  method ToggleReward(db: Store, id: int) returns (resp: Response<Row<RewardSetting>>)
    requires db.Valid()
    modifies db`rewards
    ensures db.Valid()
    ensures IndexOfId(old(db.rewards), id).None? ==> resp == Refuse(404, "Reward not found") && db.rewards == old(db.rewards)
    ensures IndexOfId(old(db.rewards), id).Some? ==>
      && var i := IndexOfId(old(db.rewards), id).value;
      && resp == Reply(200, Row(id, Toggled(old(db.rewards[i].val))))
      && db.rewards == old(db.rewards)[i := resp.body]
  {
    var found := IndexOfId(db.rewards, id);
    if found.None? {
      return Refuse(404, "Reward not found");
    }
    var i := found.value;
    db.SaveRewardActive(i, !db.rewards[i].val.active);
    return Reply(200, db.rewards[i]);
  }

  /** Toggling the same reward twice gives back the table it started from. */
  method ToggleTwice(db: Store, id: int) returns (first: Response<Row<RewardSetting>>, second: Response<Row<RewardSetting>>)
    requires db.Valid()
    modifies db`rewards
    ensures db.Valid()
    ensures db.rewards == old(db.rewards)
    ensures first.Reply? <==> second.Reply?
  {
    first := ToggleReward(db, id);
    ghost var mid := db.rewards;
    if first.Reply? {
      var i := IndexOfId(old(db.rewards), id).value;
      assert mid[i].id == id;
      IndexOfIdUnique(mid, id, i);
    }
    second := ToggleReward(db, id);
  }
}
