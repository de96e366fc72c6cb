/**
 * The geography lookups (server/controllers/metaController.js) over the
 * bundled `geo.json`, whose contents are a parameter here.
 */
module Meta {
  import opened Wrappers
  import opened JsValues
  import opened JsStrings
  import opened Http

  /** The parts of `geo.json` the endpoints read; either may be missing. */
  datatype Geo = Geo(countries: Option<seq<Value>>, states: Option<map<string, seq<Value>>>)

  /** `listCountries`: the country list, or an empty list when the file has none. */
  function ListCountries(geo: Geo): (r: Response<seq<Value>>)
    ensures r.Reply? && r.status == 200
    ensures geo.countries.Some? ==> r.body == geo.countries.value
    ensures geo.countries.None? ==> r.body == []
  {
    Reply(200, if geo.countries.Some? then geo.countries.value else [])
  }

  /**
   * `listStates`: 400 without a country code; otherwise the states listed
   * under the upper-cased code, or an empty list.
   */
  function ListStates(geo: Geo, countryCode: Option<string>): (r: Response<seq<Value>>)
    ensures !Filled(countryCode) <==> r == Refuse(400, "countryCode is required")
    ensures Filled(countryCode) ==> r.Reply? && r.status == 200
    ensures Filled(countryCode) && geo.states.Some? && Upper(countryCode.value) in geo.states.value ==>
              r.body == geo.states.value[Upper(countryCode.value)]
    ensures Filled(countryCode) && (geo.states.None? || Upper(countryCode.value) !in geo.states.value) ==> r.body == []
  {
    if !Filled(countryCode) then Refuse(400, "countryCode is required")
    else
      var key := Upper(countryCode.value);
      Reply(200, if geo.states.Some? && key in geo.states.value then geo.states.value[key] else [])
  }

  /** The code's letter case does not matter: `us`, `Us` and `US` give the same list. */
  lemma StatesIgnoreCase(geo: Geo, code: string)
    ensures ListStates(geo, Some(Lower(code))) == ListStates(geo, Some(code))
  {
    UpperOfLower(code);
  }
}
