/**
 * The Estimate table: a prospect's request for an estimate, filed against a
 * referral. Nothing makes `referralId` unique, so one referral may carry many.
 */
module EstimateModel {
  import opened Wrappers
  import opened Tables

  datatype Estimate = Estimate(
    referralId: int,
    name: string,
    email: string,
    phone: string,
    address: string,
    city: Option<string>,
    description: Option<string>,
    status: string)

  /** The attribute values handed to `Estimate.create`; an attribute left unset is `None`. */
  datatype EstimateDraft = EstimateDraft(
    referralId: Option<int>,
    name: Option<string>,
    email: Option<string>,
    phone: Option<string>,
    address: Option<string>,
    city: Option<string>,
    description: Option<string>,
    status: Option<string>)

  const DefaultStatus := "Pending"

  /**
   * What the ORM stores for a draft: `referralId`, `name`, `email`, `phone`
   * and `address` are NOT NULL, the email must pass the email validator,
   * `city` and `description` may be null and `status` is a free string
   * defaulting to "Pending".
   */
  function BuildEstimate(d: EstimateDraft, isEmail: string -> bool): (r: Result<Estimate, DbError>)
    ensures r.Ok? <==> d.referralId.Some? && d.name.Some? && d.email.Some? && isEmail(d.email.value)
                       && d.phone.Some? && d.address.Some?
    ensures r.Ok? ==> r.value.status == (if d.status.Some? then d.status.value else DefaultStatus)
    ensures r.Ok? ==> r.value.city == d.city && r.value.description == d.description
    ensures r.Ok? ==> Some(r.value.referralId) == d.referralId && Some(r.value.name) == d.name
                      && Some(r.value.email) == d.email && Some(r.value.phone) == d.phone
                      && Some(r.value.address) == d.address
  {
    if d.referralId.None? then Err(NotNullViolation("referralId"))
    else if d.name.None? then Err(NotNullViolation("name"))
    else if d.email.None? then Err(NotNullViolation("email"))
    else if !isEmail(d.email.value) then Err(ValidationError("email"))
    else if d.phone.None? then Err(NotNullViolation("phone"))
    else if d.address.None? then Err(NotNullViolation("address"))
    else Ok(Estimate(d.referralId.value, d.name.value, d.email.value, d.phone.value, d.address.value,
                     d.city, d.description, d.status.GetOr(DefaultStatus)))
  }
}
