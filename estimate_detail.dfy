/**
 * How the estimate page shows an estimate's custom answers
 * (client/src/pages/EstimateDetail.jsx, `renderCustomFields`): one row per
 * configured field, or, without a configuration, the raw answers.
 */
module EstimateDetail {
  import opened Wrappers
  import opened JsValues
  import opened TenantFields

  /** What one row shows on its right-hand side. */
  datatype Cell =
    | Dash                          // "-"
    | Text(s: string)               // a string shown as it is
    | Stringified(v: Value)         // `${v}` of a number, boolean, array or object; the text is not modelled

  datatype Row = Row(title: string, cell: Cell)

  datatype Rendering =
    | NoCustomFields                // "No custom fields"
    | JsonDump(answers: map<string, Value>)   // `JSON.stringify(customFields, null, 2)`; the text is not modelled
    | Rows(rows: seq<Row>)

  /** The displayed value shows a dash exactly when it is undefined, null or the empty string. */
  predicate Empty(v: Value) {
    v.Undefined? || v.Null? || v == Str([])
  }

  /** The cell for one field: "Yes"/"No" for a checkbox, otherwise the value or a dash. */
  function CellFor(field: FieldDef, answers: map<string, Value>): (c: Cell)
    ensures var v := if field.id in answers then answers[field.id] else Undefined;
      && (field.kind == "checkbox" ==> c == Text(if Truthy(v) then "Yes" else "No"))
      && (field.kind != "checkbox" ==> (c == Dash <==> Empty(v)))
      && (field.kind != "checkbox" && v.Str? && v.s != [] ==> c == Text(v.s))
  {
    var v := if field.id in answers then answers[field.id] else Undefined;
    if field.kind == "checkbox" then Text(if Truthy(v) then "Yes" else "No")
    else if Empty(v) then Dash
    else if v.Str? then Text(v.s)
    else Stringified(v)
  }

  /**
   * `renderCustomFields`: absent answers and an absent configuration read
   * as `{}` and `[]`.
   */
  function RenderCustomFields(customFields: Option<map<string, Value>>, fieldConfig: Option<seq<FieldDef>>): (r: Rendering)
    ensures var answers := if customFields.Some? then customFields.value else map[];
            var config := if fieldConfig.Some? then fieldConfig.value else [];
      && (config == [] ==> (r == NoCustomFields <==> answers == map[]))
      && (config == [] && answers != map[] ==> r == JsonDump(answers))
      && (config != [] ==>
            && r.Rows? && |r.rows| == |config|
            && forall i :: 0 <= i < |config| ==> r.rows[i] == Row(config[i].title, CellFor(config[i], answers)))
  {
    var answers := if customFields.Some? then customFields.value else map[];
    var config := if fieldConfig.Some? then fieldConfig.value else [];
    if |config| == 0 then
      if |answers.Keys| == 0 then
        assert answers == map[];
        NoCustomFields
      else JsonDump(answers)
    else Rows(seq(|config|, i requires 0 <= i < |config| => Row(config[i].title, CellFor(config[i], answers))))
  }

  /** A checkbox row always shows an answer: never a dash. */
  lemma CheckboxNeverDash(field: FieldDef, answers: map<string, Value>)
    requires field.kind == "checkbox"
    ensures CellFor(field, answers) == Text("Yes") || CellFor(field, answers) == Text("No")
  {
  }

  /**
   * With a configuration, answers to fields that are not configured are
   * never shown: adding or changing them leaves the rows as they were.
   */
  lemma UnconfiguredAnswersHidden(answers: map<string, Value>, key: string, v: Value, config: seq<FieldDef>)
    requires config != []
    requires forall f :: f in config ==> f.id != key
    ensures RenderCustomFields(Some(answers[key := v]), Some(config)) == RenderCustomFields(Some(answers), Some(config))
  {
    var before := RenderCustomFields(Some(answers), Some(config));
    var after := RenderCustomFields(Some(answers[key := v]), Some(config));
    forall i | 0 <= i < |config| ensures after.rows[i] == before.rows[i] {
      assert config[i] in config;
    }
  }

  /** No built-in field is a checkbox, so a built-in field left unanswered shows a dash. */
  lemma UnansweredBuiltInFieldDashed(field: FieldDef, answers: map<string, Value>)
    requires field in DefaultFields || field in PetHospitalFields
    requires field.id !in answers
    ensures CellFor(field, answers) == Dash
  {
  }
}
