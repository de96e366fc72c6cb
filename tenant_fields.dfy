/**
 * The hard-coded estimate-form field lists (server/config/tenantFields.js):
 * a default list and per-tenant overrides keyed by tenant slug.
 */
module TenantFields {
  import opened Wrappers
  import opened JsValues
  import TenantController

  /** One form field; `options` is present for select fields only. */
  datatype FieldDef = FieldDef(id: string, title: string, kind: string, required: bool, options: Option<seq<string>>)

  const PreferredDate := FieldDef("preferredDate", "Preferred Date", "date", false, None)
  const Pets := FieldDef("pets", "Do you have pets?", "select", false, Some(["No", "Dog", "Cat", "Other"]))
  const HomeSize := FieldDef("homeSize", "Home Size (sq ft)", "number", false, None)
  const ServiceType := FieldDef("serviceType", "Service Type", "select", true, Some(["One-time", "Recurring", "Move-out"]))
  const Notes := FieldDef("notes", "Additional Notes", "textarea", false, None)

  const DefaultFields: seq<FieldDef> := [PreferredDate, Pets, HomeSize, ServiceType, Notes]

  /** The one override: the default list without the home-size and service-type questions. */
  const PetHospitalFields: seq<FieldDef> := [PreferredDate, Pets, Notes]

  /** `tenantFieldConfig`: the lists keyed by slug, `default` among them. */
  const TenantFieldConfig: map<string, seq<FieldDef>> :=
    map["default" := DefaultFields, "pet-hospital-newport-9225" := PetHospitalFields]

  /**
   * `getFieldsForTenant`: the default list for a missing or empty slug,
   * otherwise the slug's own list, falling back to the default list.
   */
  function GetFieldsForTenant(slug: Option<string>): (fields: seq<FieldDef>)
    ensures slug.None? || slug.value == [] ==> fields == DefaultFields
    ensures slug.Some? && slug.value in TenantFieldConfig ==> fields == TenantFieldConfig[slug.value]
    ensures slug.Some? && slug.value !in TenantFieldConfig ==> fields == DefaultFields
    ensures fields == DefaultFields || fields == PetHospitalFields
  {
    if slug.None? || slug.value == [] then DefaultFields
    else if slug.value in TenantFieldConfig then TenantFieldConfig[slug.value]
    else DefaultFields
  }

  /** Field ids are unique within a list: they key the estimate's `customFields`. */
  predicate IdsDistinct(fields: seq<FieldDef>) {
    forall i, j :: 0 <= i < j < |fields| ==> fields[i].id != fields[j].id
  }

  /** Every select field offers at least one option; no other field carries options. */
  predicate OptionsWellPlaced(fields: seq<FieldDef>) {
    forall i :: 0 <= i < |fields| ==>
      (fields[i].kind == "select" <==> fields[i].options.Some?) && (fields[i].options.Some? ==> fields[i].options.value != [])
  }

  /** Whatever slug is asked for, the list has distinct ids and well-placed options. */
  lemma FieldListsWellFormed(slug: Option<string>)
    ensures IdsDistinct(GetFieldsForTenant(slug))
    ensures OptionsWellPlaced(GetFieldsForTenant(slug))
  {
    assert |PreferredDate.id| == 13 && |Pets.id| == 4 && |HomeSize.id| == 8 && |ServiceType.id| == 11 && |Notes.id| == 5;
  }

  /** The service type is the only required question, and only the default list asks it. */
  lemma OnlyServiceTypeRequired(slug: Option<string>)
    ensures forall f :: f in GetFieldsForTenant(slug) && f.required ==> f == ServiceType
    ensures ServiceType in GetFieldsForTenant(slug) <==> GetFieldsForTenant(slug) == DefaultFields
  {
    assert ServiceType !in PetHospitalFields by {
      assert |ServiceType.id| == 11 && |PreferredDate.id| == 13 && |Pets.id| == 4 && |Notes.id| == 5;
    }
  }

  /** The field as the JSON object a tenant's `estimateFieldConfig` holds. */
  function AsValue(f: FieldDef): (v: Value)
    ensures v.Obj? && "id" in v.props && "label" in v.props && "type" in v.props
    ensures v.props["id"] == Str(f.id) && v.props["label"] == Str(f.title) && v.props["type"] == Str(f.kind)
    ensures f.options.Some? ==> "options" in v.props && v.props["options"].Arr? && |v.props["options"].items| == |f.options.value|
  {
    var base := map["id" := Str(f.id), "label" := Str(f.title), "type" := Str(f.kind), "required" := Bool(f.required)];
    match f.options
    case None => Obj(base)
    case Some(opts) => Obj(base["options" := Arr(seq(|opts|, i requires 0 <= i < |opts| => Str(opts[i])))])
  }

  /**
   * The built-in lists would pass the checks `updateFieldConfig` applies to
   * a tenant's own list, field by field.
   */
  lemma BuiltInListsPassFieldChecks(slug: Option<string>)
    ensures forall f :: f in GetFieldsForTenant(slug) ==> TenantController.CheckField(AsValue(f)) == TenantController.FieldOk
  {
    forall f | f in GetFieldsForTenant(slug)
      ensures TenantController.CheckField(AsValue(f)) == TenantController.FieldOk
    {
      FieldListsWellFormed(slug);
      var v := AsValue(f);
      assert f.id != [] && f.title != [] && f.kind != [];
    }
  }
}
