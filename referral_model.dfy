/**
 * The Referral table: a referral code a client hands to a prospect, with the
 * reward the client chose and a status drawn from a fixed enumeration.
 */
module ReferralModel {
  import opened Wrappers
  import opened Tables

  datatype Status = Open | Wait | Closed | Expired | Used

  function StatusName(s: Status): string {
    match s
    case Open => "Open"
    case Wait => "Wait"
    case Closed => "Closed"
    case Expired => "Expired"
    case Used => "Used"
  }

  /** The ENUM column accepts exactly the five names, spelled as declared. */
  function ParseStatus(name: string): (r: Option<Status>)
    ensures r.Some? ==> StatusName(r.value) == name
    ensures r.None? ==> forall s :: StatusName(s) != name
  {
    if name == "Open" then Some(Open)
    else if name == "Wait" then Some(Wait)
    else if name == "Closed" then Some(Closed)
    else if name == "Expired" then Some(Expired)
    else if name == "Used" then Some(Used)
    else None
  }

  lemma StatusNameRoundTrip(s: Status)
    ensures ParseStatus(StatusName(s)) == Some(s)
  {
  }

  datatype Referral = Referral(
    tenantId: int,
    userId: int,
    code: string,
    prospectEmail: Option<string>,
    prospectName: Option<string>,
    selectedReward: string,
    status: Status)

  /** The attribute values handed to `Referral.create`; an attribute left unset is `None`. */
  datatype ReferralDraft = ReferralDraft(
    tenantId: Option<int>,
    userId: Option<int>,
    code: Option<string>,
    prospectEmail: Option<string>,
    prospectName: Option<string>,
    selectedReward: Option<string>,
    status: Option<Status>)

  /**
   * What the ORM stores for a draft: `tenantId`, `userId`, `code` and
   * `selectedReward` are NOT NULL, a present `prospectEmail` must pass the
   * email validator, and `status` defaults to Open.
   */
  function BuildReferral(d: ReferralDraft, isEmail: string -> bool): (r: Result<Referral, DbError>)
    ensures r.Ok? <==> d.tenantId.Some? && d.userId.Some? && d.code.Some? && d.selectedReward.Some?
                       && (d.prospectEmail.Some? ==> isEmail(d.prospectEmail.value))
    ensures r.Ok? ==> r.value.status == (if d.status.Some? then d.status.value else Open)
    ensures r.Ok? ==> r.value.prospectEmail == d.prospectEmail && r.value.prospectName == d.prospectName
    ensures r.Ok? ==> Some(r.value.tenantId) == d.tenantId && Some(r.value.userId) == d.userId
                      && Some(r.value.code) == d.code && Some(r.value.selectedReward) == d.selectedReward
  {
    if d.tenantId.None? then Err(NotNullViolation("tenantId"))
    else if d.userId.None? then Err(NotNullViolation("userId"))
    else if d.code.None? then Err(NotNullViolation("code"))
    else if d.selectedReward.None? then Err(NotNullViolation("selectedReward"))
    else if d.prospectEmail.Some? && !isEmail(d.prospectEmail.value) then Err(ValidationError("prospectEmail"))
    else Ok(Referral(d.tenantId.value, d.userId.value, d.code.value, d.prospectEmail,
                     d.prospectName, d.selectedReward.value, d.status.GetOr(Open)))
  }

  /** The unique index `referral_code_tenant` on (code, tenantId). */
  ghost predicate CodeUniqueWithinTenant(t: seq<Row<Referral>>) {
    forall x, y :: x in t && y in t && x.id != y.id ==>
      !(x.val.code == y.val.code && x.val.tenantId == y.val.tenantId)
  }

  /** Whether inserting `code` for `tenantId` would violate the unique index. */
  function CodeTaken(t: seq<Row<Referral>>, code: string, tenantId: int): (b: bool)
    ensures b <==> exists i :: 0 <= i < |t| && t[i].val.code == code && t[i].val.tenantId == tenantId
  {
    FindFirst(t, (r: Referral) => r.code == code && r.tenantId == tenantId).Some?
  }

  /** `Referral.findOne({ where: { code } })`: the lowest-id referral with that code, in any tenant. */
  function FindByCode(t: seq<Row<Referral>>, code: string): (r: Option<nat>)
    ensures r.None? <==> forall i :: 0 <= i < |t| ==> t[i].val.code != code
    ensures r.Some? ==> r.value < |t| && t[r.value].val.code == code
                        && forall j :: 0 <= j < r.value ==> t[j].val.code != code
  {
    FindFirst(t, (x: Referral) => x.code == code)
  }
}
