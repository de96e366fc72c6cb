/**
 * Estimate submission (server/controllers/estimateController.js): a
 * prospect files an estimate request against an Open referral. The
 * referral itself is left as it is, and nothing stops a second submission.
 */
module EstimateController {
  import opened Wrappers
  import opened Tables
  import opened Http
  import opened ReferralModel
  import opened EstimateModel
  import opened Database

  datatype EstimateRequest = EstimateRequest(
    referralCode: Option<string>,
    name: Option<string>,
    email: Option<string>,
    phone: Option<string>,
    address: Option<string>,
    city: Option<string>,
    description: Option<string>)

  /** The attributes handed to `Estimate.create` for the referral with key `referralId`. */
  function EstimateData(req: EstimateRequest, referralId: int): (d: EstimateDraft)
    ensures d.referralId == Some(referralId) && d.status == Some("Pending")
    ensures d.name == req.name && d.email == req.email && d.phone == req.phone && d.address == req.address
    ensures d.city == req.city && d.description == req.description
  {
    EstimateDraft(Some(referralId), req.name, req.email, req.phone, req.address, req.city, req.description, Some("Pending"))
  }

  /** The referral the request's code names and that may still receive estimates. */
  predicate Accepts(referrals: seq<Row<Referral>>, code: string) {
    FindByCode(referrals, code).Some? && referrals[FindByCode(referrals, code).value].val.status == Open
  }

  /**
   * `createEstimate`: a missing code makes the query throw (500); an unknown
   * code gives 404 and a referral that is not Open gives 400; otherwise the
   * estimate is stored with the referral's key and status "Pending". The
   * referral table is never touched.
   */
  method CreateEstimate(db: Store, req: EstimateRequest, isEmail: string -> bool) returns (resp: Response<Row<Estimate>>)
    requires db.Valid()
    modifies db`estimates, db`nextEstimateId
    ensures db.Valid()
    ensures db.referrals == old(db.referrals)
    ensures req.referralCode.None? ==> resp == Refuse(500, "Server error")
    ensures req.referralCode.Some? && FindByCode(db.referrals, req.referralCode.value).None? ==>
              resp == Refuse(404, "Invalid referral code")
    ensures req.referralCode.Some? && FindByCode(db.referrals, req.referralCode.value).Some? && !Accepts(db.referrals, req.referralCode.value) ==>
              resp == Refuse(400, "Referral is no longer active")
    ensures !resp.Reply? ==> db.estimates == old(db.estimates)
    ensures resp.Reply? <==>
      && req.referralCode.Some? && Accepts(db.referrals, req.referralCode.value)
      && BuildEstimate(EstimateData(req, db.referrals[FindByCode(db.referrals, req.referralCode.value).value].id), isEmail).Ok?
    ensures resp.Reply? ==>
      && var referral := db.referrals[FindByCode(db.referrals, req.referralCode.value).value];
      && resp.status == 201 && db.estimates == old(db.estimates) + [resp.body]
      && resp.body.id == old(db.nextEstimateId) && db.nextEstimateId == old(db.nextEstimateId) + 1
      && resp.body.val.referralId == referral.id && resp.body.val.status == "Pending"
      && Some(resp.body.val.name) == req.name && Some(resp.body.val.email) == req.email
      && Some(resp.body.val.phone) == req.phone && Some(resp.body.val.address) == req.address
      && resp.body.val.city == req.city && resp.body.val.description == req.description
  {
    if req.referralCode.None? {
      return Refuse(500, "Server error");
    }
    var found := FindByCode(db.referrals, req.referralCode.value);
    if found.None? {
      return Refuse(404, "Invalid referral code");
    }
    var referral := db.referrals[found.value];
    if referral.val.status != Open {
      return Refuse(400, "Referral is no longer active");
    }
    var estimate := BuildEstimate(EstimateData(req, referral.id), isEmail);
    if estimate.Err? {
      return Refuse(500, "Server error");
    }
    var id := db.InsertEstimate(estimate.value);
    return Reply(201, Row(id, estimate.value));
  }

  /**
   * There is no existing-estimate check: submitting the same request twice
   * against an Open referral stores two estimates for it.
   */
  method SubmitTwice(db: Store, req: EstimateRequest, isEmail: string -> bool)
    returns (first: Response<Row<Estimate>>, second: Response<Row<Estimate>>)
    requires db.Valid()
    requires req.referralCode.Some? && Accepts(db.referrals, req.referralCode.value)
    requires BuildEstimate(EstimateData(req, db.referrals[FindByCode(db.referrals, req.referralCode.value).value].id), isEmail).Ok?
    modifies db`estimates, db`nextEstimateId
    ensures first.Reply? && second.Reply?
    ensures first.body.val.referralId == second.body.val.referralId && first.body.id != second.body.id
    ensures db.estimates == old(db.estimates) + [first.body, second.body]
  {
    first := CreateEstimate(db, req, isEmail);
    ghost var afterFirst := db.estimates;
    second := CreateEstimate(db, req, isEmail);
    assert afterFirst == old(db.estimates) + [first.body];
  }
}
