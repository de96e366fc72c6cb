/**
 * The tenant sign-up wizard of the React client
 * (client/src/pages/TenantOnboarding.jsx). It shares the e-mail pattern,
 * the step-1 checks and the missing-field message with the Next.js wizard,
 * but has no password confirmation: four required fields and four step-2
 * checks. The page's state is the fields of `ClientWizard`.
 */
module ClientOnboarding {
  import opened Wrappers
  import opened JsStrings
  import opened OnboardingPage

  /** The fields `getMissingRequired` checks, in its order. */
  const ClientRequiredFields: seq<FormField> := [CompanyName, CompanyEmail, AdminEmail, AdminPassword]

  /** `getMissingRequired`: the four required fields that are blank after trimming, in the fixed order. */
  function ClientMissingRequired(company: CompanyForm, admin: AdminForm): (missing: seq<FormField>)
    ensures InFieldOrder(missing)
    ensures forall f :: f in missing <==> f != AdminPasswordConfirm && IsBlank(FieldValue(company, admin, f))
  {
    assert forall f: FormField :: f != AdminPasswordConfirm ==> f in ClientRequiredFields by {
      forall f: FormField | f != AdminPasswordConfirm ensures f in ClientRequiredFields {
        assert ClientRequiredFields[FieldRank(f)] == f;
      }
    }
    AmongInOrder(ClientRequiredFields, BlankFields(company, admin));
    Among(ClientRequiredFields, BlankFields(company, admin))
  }

  /** The client's list is the Next.js list without the confirmation field. */
  lemma ClientMissingDropsConfirmation(company: CompanyForm, admin: AdminForm)
    ensures forall f :: f in ClientMissingRequired(company, admin) <==> f in MissingRequired(company, admin) && f != AdminPasswordConfirm
  {
  }

  /**
   * `validateStep2`: e-mail presence and shape, then password presence and
   * length, first failure reported.
   */
  function ClientStep2Error(admin: AdminForm): (err: Option<string>)
    ensures IsBlank(admin.email) ==> err == Some("adminEmail is required")
    ensures !IsBlank(admin.email) && !IsValidEmail(admin.email) ==> err == Some("adminEmail is invalid")
    ensures IsValidEmail(admin.email) && IsBlank(admin.password) ==> err == Some("adminPassword is required")
    ensures IsValidEmail(admin.email) && !IsBlank(admin.password) && |admin.password| < 6 ==>
              err == Some("adminPassword must be at least 6 characters")
    ensures err.None? <==> IsValidEmail(admin.email) && !IsBlank(admin.password) && |admin.password| >= 6
  {
    if IsBlank(admin.email) then
      BlankIsNotEmail(admin.email);
      Some("adminEmail is required")
    else if !IsValidEmail(admin.email) then Some("adminEmail is invalid")
    else if IsBlank(admin.password) then Some("adminPassword is required")
    else if |admin.password| < 6 then Some("adminPassword must be at least 6 characters")
    else None
  }

  /** The client is the laxer page: what the Next.js step 2 accepts, the client accepts too, with the same message otherwise. */
  lemma ClientStep2Laxer(admin: AdminForm)
    ensures Step2Error(admin).None? ==> ClientStep2Error(admin).None?
    ensures ClientStep2Error(admin).Some? ==> Step2Error(admin) == ClientStep2Error(admin)
  {
  }

  /** The confirm body; unlike the Next.js page the client also sends the SendGrid sender. */
  datatype ClientConfirmBody = ClientConfirmBody(body: ConfirmBody, sendgridFromEmail: string)

  class ClientWizard {
    var step: int
    var error: string
    var preview: Option<Preview>

    predicate Valid()
      reads this
    {
      1 <= step <= StepCount
    }

    constructor()
      ensures Valid() && step == 1 && error == "" && preview.None?
    {
      step, error, preview := 1, "", None;
    }

    /** `nextStep`: one step on, never past the last. */
    method NextStep()
      requires Valid()
      modifies this`step
      ensures Valid()
      ensures step == if old(step) < StepCount then old(step) + 1 else StepCount
    {
      step := if step + 1 < StepCount then step + 1 else StepCount;
    }

    /** `prevStep`: one step back, never before the first. */
    method PrevStep()
      requires Valid()
      modifies this`step
      ensures Valid()
      ensures step == if old(step) > 1 then old(step) - 1 else 1
    {
      step := if step - 1 > 1 then step - 1 else 1;
    }

    /**
     * `handleStep1Next`: the preview request (with the untrimmed company
     * name) is made only when step 1 validates; otherwise the first problem
     * is the error.
     */
    method HandleStep1Next(company: CompanyForm) returns (companyName: Option<string>)
      modifies this`error
      ensures companyName.Some? <==> Step1Error(company).None?
      ensures companyName.Some? ==> companyName.value == company.name && error == ""
      ensures companyName.None? ==> error == Step1Error(company).value
    {
      var err := Step1Error(company);
      if err.Some? {
        error := err.value;
        return None;
      }
      error := "";
      return Some(company.name);
    }

    /** A preview response is kept and the wizard moves on. */
    method PreviewReceived(p: Preview)
      requires Valid()
      modifies this`preview, this`step
      ensures Valid() && preview == Some(p)
      ensures step == if old(step) < StepCount then old(step) + 1 else StepCount
    {
      preview := Some(p);
      NextStep();
    }

    /** `handleStep2Next`: to step 3 only when step 2 validates. */
    method HandleStep2Next(admin: AdminForm)
      requires Valid()
      modifies this`error, this`step
      ensures Valid()
      ensures ClientStep2Error(admin).None? ==> step == 3 && error == ""
      ensures ClientStep2Error(admin).Some? ==> step == old(step) && error == ClientStep2Error(admin).value
    {
      var err := ClientStep2Error(admin);
      if err.Some? {
        error := err.value;
        return;
      }
      error := "";
      step := 3;
    }

    /** The step-3 "Next" button: to step 4 only when nothing required is missing. */
    method Step3Next(company: CompanyForm, admin: AdminForm)
      requires Valid()
      modifies this`error, this`step
      ensures Valid()
      ensures ClientMissingRequired(company, admin) == [] ==> step == 4 && error == ""
      ensures ClientMissingRequired(company, admin) != [] ==>
                step == old(step) && error == MissingMessage(ClientMissingRequired(company, admin))
    {
      var missing := ClientMissingRequired(company, admin);
      if missing != [] {
        error := MissingMessage(missing);
        return;
      }
      error := "";
      step := 4;
    }

    /**
     * `handleConfirm`: missing fields, then a missing preview, stop with an
     * error before any request; otherwise the confirm body is sent.
     */
    method HandleConfirm(company: CompanyForm, admin: AdminForm, sendgridFromEmail: string)
      returns (body: Option<ClientConfirmBody>)
      modifies this`error
      ensures ClientMissingRequired(company, admin) != [] ==>
                body.None? && error == MissingMessage(ClientMissingRequired(company, admin))
      ensures ClientMissingRequired(company, admin) == [] && preview.None? ==>
                body.None? && error == "Please complete preview first."
      ensures body.Some? <==> ClientMissingRequired(company, admin) == [] && preview.Some?
      ensures body.Some? ==>
        && error == ""
        && body.value.body.trimmedName == Trim(company.name) && body.value.body.tenantSlug == preview.value.slug
        && body.value.body.adminEmail == admin.email && body.value.body.adminPassword == admin.password
        && body.value.sendgridFromEmail == sendgridFromEmail
    {
      var missing := ClientMissingRequired(company, admin);
      if missing != [] {
        error := MissingMessage(missing);
        return None;
      }
      if preview.None? {
        error := "Please complete preview first.";
        return None;
      }
      error := "";
      var sent := ConfirmBody(Trim(company.name), company.phone, company.email, company.address, company.city,
                              company.state, company.zip, company.country, admin.email, admin.password,
                              preview.value.slug);
      return Some(ClientConfirmBody(sent, sendgridFromEmail));
    }
  }
}
