/**
 * The RewardSetting table: the rewards a client may pick when generating a
 * referral. The name is unique across the whole table and `active` defaults
 * to true.
 */
module RewardSettingModel {
  import opened Wrappers
  import opened Tables

  datatype RewardSetting = RewardSetting(name: string, active: bool)

  datatype RewardSettingDraft = RewardSettingDraft(name: Option<string>, active: Option<bool>)

  /** `name` is NOT NULL; `active` defaults to true. */
  function BuildRewardSetting(d: RewardSettingDraft): (r: Result<RewardSetting, DbError>)
    ensures r.Ok? <==> d.name.Some?
    ensures r.Ok? ==> Some(r.value.name) == d.name
    ensures r.Ok? ==> (r.value.active <==> d.active != Some(false))
  {
    if d.name.None? then Err(NotNullViolation("name"))
    else Ok(RewardSetting(d.name.value, d.active.GetOr(true)))
  }

  /** The unique constraint on `name`, with no tenant qualification. */
  ghost predicate NameUnique(t: seq<Row<RewardSetting>>) {
    forall x, y :: x in t && y in t && x.id != y.id ==> x.val.name != y.val.name
  }

  function NameTaken(t: seq<Row<RewardSetting>>, name: string): (b: bool)
    ensures b <==> exists i :: 0 <= i < |t| && t[i].val.name == name
  {
    FindFirst(t, (x: RewardSetting) => x.name == name).Some?
  }
}
