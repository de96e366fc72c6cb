/**
 * The tenant sign-up wizard of the Next.js front end
 * (next-app/app/tenant/onboarding/page.tsx): four steps, field validators
 * that report the first problem, and the guards in front of the preview and
 * confirm requests. The page's `step`, `error` and `preview` state are the
 * fields of `Wizard`; requests are returned, not sent.
 */
module OnboardingPage {
  import opened Wrappers
  import opened JsStrings

  // ------------------------------------------------------------- e-mail

  /**
   * One match of `/\S+@\S+\.\S+/` with its `@` at `at` and its `.` at `dot`:
   * a non-space before the `@`, a run of non-spaces up to the `.`, and a
   * non-space after it.
   */
  predicate EmailMatchAt(s: string, at: int, dot: int)
    requires 1 <= at && at + 1 < dot && dot + 1 < |s|
  {
    && s[at] == '@' && s[dot] == '.'
    && !IsWhitespace(s[at - 1])
    && (forall k :: at < k < dot ==> !IsWhitespace(s[k]))
    && !IsWhitespace(s[dot + 1])
  }

  /** `isValidEmail`: the pattern matches somewhere in the string. */
  predicate IsValidEmail(s: string) {
    exists at, dot :: 1 <= at && at + 1 < dot && dot + 1 < |s| && EmailMatchAt(s, at, dot)
  }

  /** An address of the ordinary shape is accepted. */
  lemma SampleEmailValid()
    ensures IsValidEmail("ann@shop.io")
  {
    assert EmailMatchAt("ann@shop.io", 3, 8);
  }

  /** Without an `@` there is no match. */
  lemma NoAtNoEmail(s: string)
    requires '@' !in s
    ensures !IsValidEmail(s)
  {
  }

  /** A blank value never passes the shape check, so "is required" is always reported first. */
  lemma BlankIsNotEmail(s: string)
    requires IsBlank(s)
    ensures !IsValidEmail(s)
  {
  }

  // ------------------------------------------------------------- fields

  datatype CompanyForm = CompanyForm(
    name: string, phone: string, email: string, address: string, city: string, state: string, zip: string, country: string)

  datatype AdminForm = AdminForm(email: string, password: string, confirmPassword: string)

  /** The required fields, in the order the missing list names them. */
  datatype FormField = CompanyName | CompanyEmail | AdminEmail | AdminPassword | AdminPasswordConfirm

  function FieldName(f: FormField): string {
    match f
    case CompanyName => "companyName"
    case CompanyEmail => "companyEmail"
    case AdminEmail => "adminEmail"
    case AdminPassword => "adminPassword"
    case AdminPasswordConfirm => "adminPasswordConfirm"
  }

  function FieldRank(f: FormField): nat {
    match f
    case CompanyName => 0
    case CompanyEmail => 1
    case AdminEmail => 2
    case AdminPassword => 3
    case AdminPasswordConfirm => 4
  }

  /** Fields listed in the fixed order, each at most once. */
  predicate InFieldOrder(fields: seq<FormField>) {
    forall i, j :: 0 <= i < j < |fields| ==> FieldRank(fields[i]) < FieldRank(fields[j])
  }

  /** The text of each required field. */
  function FieldValue(company: CompanyForm, admin: AdminForm, f: FormField): string {
    match f
    case CompanyName => company.name
    case CompanyEmail => company.email
    case AdminEmail => admin.email
    case AdminPassword => admin.password
    case AdminPasswordConfirm => admin.confirmPassword
  }

  /** The fields the push sequence checks, in its order. */
  const RequiredFields: seq<FormField> := [CompanyName, CompanyEmail, AdminEmail, AdminPassword, AdminPasswordConfirm]

  /** The required fields whose value is blank. */
  function BlankFields(company: CompanyForm, admin: AdminForm): (blank: set<FormField>)
    ensures forall f :: f in blank <==> IsBlank(FieldValue(company, admin, f))
  {
    (if IsBlank(company.name) then {CompanyName} else {})
    + (if IsBlank(company.email) then {CompanyEmail} else {})
    + (if IsBlank(admin.email) then {AdminEmail} else {})
    + (if IsBlank(admin.password) then {AdminPassword} else {})
    + (if IsBlank(admin.confirmPassword) then {AdminPasswordConfirm} else {})
  }

  /**
   * The `missing.push` sequence over `fields`: those in `blank`, in the
   * order of `fields`.
   */
  function Among(fields: seq<FormField>, blank: set<FormField>): (missing: seq<FormField>)
    ensures forall f :: f in missing <==> f in fields && f in blank
  {
    if fields == [] then []
    else
      var rest := Among(fields[1..], blank);
      assert forall f :: f in fields[1..] ==> f in fields;
      if fields[0] in blank then [fields[0]] + rest else rest
  }

  /** Picking out the blank fields keeps the order of the list. */
  lemma {:induction false} AmongInOrder(fields: seq<FormField>, blank: set<FormField>)
    requires InFieldOrder(fields)
    ensures InFieldOrder(Among(fields, blank))
    decreases |fields|
  {
    if fields != [] {
      var rest := Among(fields[1..], blank);
      assert InFieldOrder(fields[1..]);
      AmongInOrder(fields[1..], blank);
      forall i | 0 <= i < |rest| ensures FieldRank(fields[0]) < FieldRank(rest[i]) {
        assert rest[i] in fields[1..];
        var j :| 0 <= j < |fields[1..]| && fields[1..][j] == rest[i];
        assert fields[j + 1] == rest[i];
      }
    }
  }

  lemma EveryFieldChecked()
    ensures forall f: FormField :: f in RequiredFields
  {
    forall f: FormField ensures f in RequiredFields {
      assert RequiredFields[FieldRank(f)] == f;
    }
  }

  /** `missingRequired`: the required fields that are blank after trimming, in the fixed order. */
  function MissingRequired(company: CompanyForm, admin: AdminForm): (missing: seq<FormField>)
    ensures InFieldOrder(missing)
    ensures forall f :: f in missing <==> IsBlank(FieldValue(company, admin, f))
    ensures missing != [] ==> IsBlank(FieldValue(company, admin, missing[0]))
  {
    EveryFieldChecked();
    AmongInOrder(RequiredFields, BlankFields(company, admin));
    var missing := Among(RequiredFields, BlankFields(company, admin));
    assert missing != [] ==> missing[0] in missing;
    missing
  }

  function Names(fields: seq<FormField>): (names: seq<string>)
    ensures |names| == |fields| && forall i :: 0 <= i < |fields| ==> names[i] == FieldName(fields[i])
  {
    seq(|fields|, i requires 0 <= i < |fields| => FieldName(fields[i]))
  }

  lemma OccursShift(pre: string, s: string, t: string, j: int)
    requires OccursAt(s, t, j)
    ensures OccursAt(pre + s, t, |pre| + j)
  {
    assert (pre + s)[|pre| + j..|pre| + j + |t|] == s[j..j + |t|];
  }

  /** `parts.join(sep)`: every part appears in the result, the first one at its start. */
  function JoinWith(parts: seq<string>, sep: string): (r: string)
    ensures |parts| >= 1 ==> StartsWith(r, parts[0])
    ensures forall i :: 0 <= i < |parts| ==> Includes(r, parts[i])
  {
    if parts == [] then ""
    else if |parts| == 1 then
      assert OccursAt(parts[0], parts[0], 0);
      parts[0]
    else
      var rest := JoinWith(parts[1..], sep);
      var r := parts[0] + sep + rest;
      assert r[..|parts[0]|] == parts[0];
      assert OccursAt(r, parts[0], 0);
      forall i | 1 <= i < |parts| ensures Includes(r, parts[i]) {
        assert parts[i] == parts[1..][i - 1];
        var j :| 0 <= j <= |rest| - |parts[i]| && OccursAt(rest, parts[i], j);
        OccursShift(parts[0] + sep, rest, parts[i], j);
      }
      r
  }

  /** Joining one part gives that part back; joining none gives "". */
  lemma JoinWithShort(parts: seq<string>, sep: string)
    requires |parts| <= 1
    ensures JoinWith(parts, sep) == if parts == [] then "" else parts[0]
  {
  }

  /** Appending a part appends the separator and that part: `join` puts `sep` exactly between neighbours. */
  lemma {:induction false} JoinWithSnoc(parts: seq<string>, p: string, sep: string)
    requires parts != []
    ensures JoinWith(parts + [p], sep) == JoinWith(parts, sep) + sep + p
    decreases |parts|
  {
    var all := parts + [p];
    assert all[0] == parts[0] && all[1..] == parts[1..] + [p];
    if |parts| == 1 {
      assert all[1..] == [p];
    } else {
      JoinWithSnoc(parts[1..], p, sep);
      calc {
        JoinWith(all, sep);
        parts[0] + sep + JoinWith(parts[1..] + [p], sep);
        parts[0] + sep + (JoinWith(parts[1..], sep) + sep + p);
        parts[0] + sep + JoinWith(parts[1..], sep) + sep + p;
        JoinWith(parts, sep) + sep + p;
      }
    }
  }

  lemma IncludesExtended(s: string, t: string, suffix: string)
    requires Includes(s, t)
    ensures Includes(s + suffix, t)
  {
    var j :| 0 <= j <= |s| - |t| && OccursAt(s, t, j);
    assert (s + suffix)[j..j + |t|] == s[j..j + |t|];
    assert OccursAt(s + suffix, t, j);
  }

  /**
   * The message for a non-empty missing list: the names joined by ", ",
   * then "is required" for one name and "are required" for several.
   */
  function MissingMessage(missing: seq<FormField>): (msg: string)
    requires missing != []
    ensures forall i :: 0 <= i < |missing| ==> Includes(msg, FieldName(missing[i]))
    ensures |missing| == 1 ==> msg == FieldName(missing[0]) + " is required"
  {
    var names := Names(missing);
    var joined := JoinWith(names, ", ");
    var msg := joined + (if |missing| == 1 then " is required" else " are required");
    forall i | 0 <= i < |missing| ensures Includes(msg, FieldName(missing[i])) {
      assert names[i] == FieldName(missing[i]);
      IncludesExtended(joined, names[i], if |missing| == 1 then " is required" else " are required");
    }
    msg
  }

  // ---------------------------------------------------------- validators

  /** `validateStep1`: the first of name presence, e-mail presence and e-mail shape that fails. */
  function Step1Error(company: CompanyForm): (err: Option<string>)
    ensures IsBlank(company.name) ==> err == Some("companyName is required")
    ensures !IsBlank(company.name) && IsBlank(company.email) ==> err == Some("companyEmail is required")
    ensures !IsBlank(company.name) && !IsBlank(company.email) && !IsValidEmail(company.email) ==>
              err == Some("companyEmail is invalid")
    ensures err.None? <==> !IsBlank(company.name) && IsValidEmail(company.email)
  {
    if IsBlank(company.name) then Some("companyName is required")
    else if IsBlank(company.email) then
      BlankIsNotEmail(company.email);
      Some("companyEmail is required")
    else if !IsValidEmail(company.email) then Some("companyEmail is invalid")
    else None
  }

  /**
   * `validateStep2`: e-mail presence and shape, password presence and
   * length, confirmation presence and equality, first failure reported.
   */
  function Step2Error(admin: AdminForm): (err: Option<string>)
    ensures IsBlank(admin.email) ==> err == Some("adminEmail is required")
    ensures !IsBlank(admin.email) && !IsValidEmail(admin.email) ==> err == Some("adminEmail is invalid")
    ensures IsValidEmail(admin.email) && IsBlank(admin.password) ==> err == Some("adminPassword is required")
    ensures IsValidEmail(admin.email) && !IsBlank(admin.password) && |admin.password| < 6 ==>
              err == Some("adminPassword must be at least 6 characters")
    ensures IsValidEmail(admin.email) && !IsBlank(admin.password) && |admin.password| >= 6 && IsBlank(admin.confirmPassword) ==>
              err == Some("adminPasswordConfirm is required")
    ensures (IsValidEmail(admin.email) && !IsBlank(admin.password) && |admin.password| >= 6 && !IsBlank(admin.confirmPassword)
             && admin.password != admin.confirmPassword) ==> err == Some("adminPassword and confirmation must match")
    ensures err.None? <==>
      IsValidEmail(admin.email) && !IsBlank(admin.password) && |admin.password| >= 6 && admin.password == admin.confirmPassword
  {
    if IsBlank(admin.email) then
      BlankIsNotEmail(admin.email);
      Some("adminEmail is required")
    else if !IsValidEmail(admin.email) then Some("adminEmail is invalid")
    else if IsBlank(admin.password) then Some("adminPassword is required")
    else if |admin.password| < 6 then Some("adminPassword must be at least 6 characters")
    else if IsBlank(admin.confirmPassword) then Some("adminPasswordConfirm is required")
    else if admin.password != admin.confirmPassword then Some("adminPassword and confirmation must match")
    else None
  }

  /** Forms that pass both step validators leave nothing in the missing list. */
  lemma ValidatedFormsComplete(company: CompanyForm, admin: AdminForm)
    requires Step1Error(company).None? && Step2Error(admin).None?
    ensures MissingRequired(company, admin) == []
  {
    forall f ensures !IsBlank(FieldValue(company, admin, f)) {
      match f
      case CompanyName =>
      case CompanyEmail =>
      case AdminEmail =>
      case AdminPassword =>
      case AdminPasswordConfirm =>
    }
  }

  // -------------------------------------------------------------- wizard

  datatype Preview = Preview(slug: string, clientUrl: string)

  /** The body of the confirm request. */
  datatype ConfirmBody = ConfirmBody(
    trimmedName: string, phone: string, email: string, address: string, city: string, state: string, zip: string,
    country: string, adminEmail: string, adminPassword: string, tenantSlug: string)

  const StepCount := 4

  class Wizard {
    var step: int
    var error: string
    var preview: Option<Preview>

    predicate Valid()
      reads this
    {
      1 <= step <= StepCount
    }

    constructor()
      ensures Valid() && step == 1 && error == "" && preview.None?
    {
      step, error, preview := 1, "", None;
    }

    /** `nextStep`: one step on, never past the last. */
    method NextStep()
      requires Valid()
      modifies this`step
      ensures Valid()
      ensures step == if old(step) < StepCount then old(step) + 1 else StepCount
    {
      step := if step + 1 < StepCount then step + 1 else StepCount;
    }

    /** `prevStep`: one step back, never before the first. */
    method PrevStep()
      requires Valid()
      modifies this`step
      ensures Valid()
      ensures step == if old(step) > 1 then old(step) - 1 else 1
    {
      step := if step - 1 > 1 then step - 1 else 1;
    }

    /** `validateStep1`, recording the first problem in `error`. */
    method ValidateStep1(company: CompanyForm) returns (ok: bool)
      modifies this`error
      ensures ok <==> Step1Error(company).None?
      ensures !ok ==> error == Step1Error(company).value
      ensures ok ==> error == old(error)
    {
      var err := Step1Error(company);
      if err.Some? {
        error := err.value;
        return false;
      }
      return true;
    }

    /** `validateStep2`, recording the first problem in `error`. */
    method ValidateStep2(admin: AdminForm) returns (ok: bool)
      modifies this`error
      ensures ok <==> Step2Error(admin).None?
      ensures !ok ==> error == Step2Error(admin).value
      ensures ok ==> error == old(error)
    {
      var err := Step2Error(admin);
      if err.Some? {
        error := err.value;
        return false;
      }
      return true;
    }

    /** `ensureReadyForConfirm`: a non-empty missing list becomes the error. */
    method EnsureReadyForConfirm(company: CompanyForm, admin: AdminForm) returns (ok: bool)
      modifies this`error
      ensures ok <==> MissingRequired(company, admin) == []
      ensures !ok ==> error == MissingMessage(MissingRequired(company, admin))
      ensures ok ==> error == old(error)
    {
      var missing := MissingRequired(company, admin);
      if missing != [] {
        error := MissingMessage(missing);
        return false;
      }
      return true;
    }

    /** `handlePreview`: the trimmed company name is sent only when step 1 validates. */
    method HandlePreview(company: CompanyForm) returns (companyName: Option<string>)
      modifies this`error
      ensures companyName.Some? <==> Step1Error(company).None?
      ensures companyName.Some? ==> companyName.value == Trim(company.name) && error == ""
      ensures companyName.None? ==> error == Step1Error(company).value
    {
      var ok := ValidateStep1(company);
      if !ok {
        return None;
      }
      error := "";
      return Some(Trim(company.name));
    }

    /** A preview response is kept and the wizard moves on. */
    method PreviewReceived(p: Preview)
      requires Valid()
      modifies this`preview, this`step
      ensures Valid() && preview == Some(p)
      ensures step == if old(step) < StepCount then old(step) + 1 else StepCount
    {
      preview := Some(p);
      NextStep();
    }

    /** The step-2 "Next" button: to step 3 only when step 2 validates. */
    method Step2Next(admin: AdminForm)
      requires Valid()
      modifies this`error, this`step
      ensures Valid()
      ensures Step2Error(admin).None? ==> step == 3 && error == ""
      ensures Step2Error(admin).Some? ==> step == old(step) && error == Step2Error(admin).value
    {
      var ok := ValidateStep2(admin);
      if !ok {
        return;
      }
      error := "";
      step := 3;
    }

    /** The step-3 "Next" button: to step 4 only when nothing required is missing. */
    method Step3Next(company: CompanyForm, admin: AdminForm)
      requires Valid()
      modifies this`error, this`step
      ensures Valid()
      ensures MissingRequired(company, admin) == [] ==> step == 4 && error == ""
      ensures MissingRequired(company, admin) != [] ==>
                step == old(step) && error == MissingMessage(MissingRequired(company, admin))
    {
      var ok := EnsureReadyForConfirm(company, admin);
      if !ok {
        return;
      }
      error := "";
      step := 4;
    }

    /**
     * `handleConfirm`: missing fields, then a missing preview, stop with an
     * error before any request; otherwise the confirm body is sent with the
     * trimmed name and the previewed slug.
     */
    method HandleConfirm(company: CompanyForm, admin: AdminForm) returns (body: Option<ConfirmBody>)
      modifies this`error
      ensures MissingRequired(company, admin) != [] ==>
                body.None? && error == MissingMessage(MissingRequired(company, admin))
      ensures MissingRequired(company, admin) == [] && preview.None? ==>
                body.None? && error == "Please complete preview first."
      ensures body.Some? <==> MissingRequired(company, admin) == [] && preview.Some?
      ensures body.Some? ==>
        && error == ""
        && body.value.trimmedName == Trim(company.name) && body.value.tenantSlug == preview.value.slug
        && body.value.adminEmail == admin.email && body.value.adminPassword == admin.password
        && body.value.email == company.email
    {
      var ready := EnsureReadyForConfirm(company, admin);
      if !ready {
        return None;
      }
      if preview.None? {
        error := "Please complete preview first.";
        return None;
      }
      error := "";
      return Some(ConfirmBody(Trim(company.name), company.phone, company.email, company.address, company.city,
                              company.state, company.zip, company.country, admin.email, admin.password,
                              preview.value.slug));
    }
  }
}
