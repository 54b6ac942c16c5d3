/**
 The client form: its starting values built from an optional existing client,
 its validation schema (name, tax identifier and the five address fields, all
 required; street number and postal code must also cast to numbers), the
 create/update label and the submission gate.
 */
module ClientForm {
  import opened Fields
  import opened FormSchema

  /** The values the form holds. */
  datatype ClientValues = ClientValues(name: string, cif: string, address: Address)

  /** An existing client (`initialData`), whose fields may be absent; `{}` has every field absent. */
  datatype ClientData = ClientData(name: Option<string>, cif: Option<string>, address: Option<AddressData>)

  const NoClient := ClientData(None, None, None)

  const NameRequired := "Client name is required"
  const CifRequired := "CIF is required"
  const StreetRequired := "Street is required"
  const NumberRequired := "Number is required"
  const PostalRequired := "Postal code is required"
  const CityRequired := "City is required"
  const ProvinceRequired := "Province is required"

  /** The validation schema, in the order it is declared. */
  const Rules: seq<Rule> := [
    Rule("name", Text, NameRequired),
    Rule("cif", Text, CifRequired),
    Rule("address.street", Text, StreetRequired),
    Rule("address.number", Number, NumberRequired),
    Rule("address.postal", Number, PostalRequired),
    Rule("address.city", Text, CityRequired),
    Rule("address.province", Text, ProvinceRequired)
  ]

  /** The values as the schema reads them, one entry per field path. */
  function Flatten(v: ClientValues): map<string, string> {
    map[
      "name" := v.name,
      "cif" := v.cif,
      "address.street" := v.address.street,
      "address.number" := v.address.number,
      "address.postal" := v.address.postal,
      "address.city" := v.address.city,
      "address.province" := v.address.province
    ]
  }

  /** The error map Formik computes from the schema. */
  function Errors(lib: Library, v: ClientValues): map<string, string> {
    Validate(lib, Rules, Flatten(v))
  }

  /** `initialValues`: each field of the existing client when truthy, '' otherwise. */
  function InitialValues(d: ClientData): (v: ClientValues)
    ensures v.name == "" <==> !Truthy(d.name)
    ensures v.name != "" ==> d.name == Some(v.name)
    ensures v.cif == "" <==> !Truthy(d.cif)
    ensures v.cif != "" ==> d.cif == Some(v.cif)
    ensures d.address.None? ==> v.address == Address("", "", "", "", "")
    ensures d.address.Some? ==> v.address == AddressValues(d.address)
  {
    ClientValues(OrEmpty(d.name), OrEmpty(d.cif), AddressValues(d.address))
  }

  /** The heading and the submit button both read this label. */
  function Label(d: ClientData): (s: string)
    ensures s == "Update Client" || s == "Create Client"
    ensures s == "Update Client" <==> Truthy(d.name)
  {
    if Truthy(d.name) then "Update Client" else "Create Client"
  }

  /** Values the user can submit: every required field filled, number fields numeric. */
  predicate Accepted(lib: Library, v: ClientValues) {
    && v.name != ""
    && v.cif != ""
    && v.address.street != ""
    && v.address.number != "" && lib.isNumber(v.address.number)
    && v.address.postal != "" && lib.isNumber(v.address.postal)
    && v.address.city != ""
    && v.address.province != ""
  }

  /** The record `onSubmit` receives, when Formik lets the submission through. */
  function Submit(lib: Library, v: ClientValues): (forwarded: Option<ClientValues>)
    ensures forwarded.Some? <==> Accepted(lib, v)
    ensures forwarded.Some? ==> forwarded.value == v
  {
    NoErrors(lib, v);
    if Errors(lib, v) == map[] then Some(v) else None
  }

  lemma RulesDistinct()
    ensures DistinctPaths(Rules)
  {
  }

  /** The five text fields: each error is there exactly when the field is '', with the field's fixed message. */
  lemma TextFieldsRequired(lib: Library, v: ClientValues)
    ensures var e := Errors(lib, v);
      && ("name" in e <==> v.name == "") && ("name" in e ==> e["name"] == NameRequired)
      && ("cif" in e <==> v.cif == "") && ("cif" in e ==> e["cif"] == CifRequired)
      && ("address.street" in e <==> v.address.street == "")
      && ("address.street" in e ==> e["address.street"] == StreetRequired)
      && ("address.city" in e <==> v.address.city == "")
      && ("address.city" in e ==> e["address.city"] == CityRequired)
      && ("address.province" in e <==> v.address.province == "")
      && ("address.province" in e ==> e["address.province"] == ProvinceRequired)
  {
    RulesDistinct();
    RuleReported(lib, Rules, Flatten(v), 0);
    RuleReported(lib, Rules, Flatten(v), 1);
    RuleReported(lib, Rules, Flatten(v), 2);
    RuleReported(lib, Rules, Flatten(v), 5);
    RuleReported(lib, Rules, Flatten(v), 6);
  }

  /**
   The street number and the postal code: '' reports the field's fixed
   message; any other text is reported, with the library's cast message,
   exactly when it does not cast to a number.
   */
  lemma NumberFieldsRequired(lib: Library, v: ClientValues)
    ensures var e := Errors(lib, v);
      && (v.address.number == "" ==> "address.number" in e && e["address.number"] == NumberRequired)
      && (v.address.number != "" ==>
            ("address.number" in e <==> !lib.isNumber(v.address.number))
            && ("address.number" in e ==> e["address.number"] == lib.numberTypeError("address.number", v.address.number)))
      && (v.address.postal == "" ==> "address.postal" in e && e["address.postal"] == PostalRequired)
      && (v.address.postal != "" ==>
            ("address.postal" in e <==> !lib.isNumber(v.address.postal))
            && ("address.postal" in e ==> e["address.postal"] == lib.numberTypeError("address.postal", v.address.postal)))
  {
    RulesDistinct();
    RuleReported(lib, Rules, Flatten(v), 3);
    RuleReported(lib, Rules, Flatten(v), 4);
  }

  /** The schema reports nothing but the seven field paths. */
  lemma ErrorKeys(lib: Library, v: ClientValues)
    ensures Errors(lib, v).Keys <= {"name", "cif", "address.street", "address.number", "address.postal", "address.city", "address.province"}
  {
  }

  /** The error map is empty exactly when the values are accepted. */
  lemma NoErrors(lib: Library, v: ClientValues)
    ensures Errors(lib, v) == map[] <==> Accepted(lib, v)
  {
    NoErrorsIff(lib, Rules, Flatten(v));
    TextFieldsRequired(lib, v);
    NumberFieldsRequired(lib, v);
  }

  /** A truthy field of the existing client is the starting value of that field; any other field starts as ''. */
  lemma InitialKeepsPresentFields(d: ClientData)
    ensures Truthy(d.name) ==> InitialValues(d).name == d.name.value
    ensures !Truthy(d.name) ==> InitialValues(d).name == ""
    ensures Truthy(d.cif) ==> InitialValues(d).cif == d.cif.value
    ensures !Truthy(d.cif) ==> InitialValues(d).cif == ""
    ensures d.address.None? ==> InitialValues(d).address == Address("", "", "", "", "")
    ensures d.address.Some? ==> InitialValues(d).address == AddressValues(d.address)
  {
  }

  /** The record a saved client comes back as. */
  function Record(v: ClientValues): ClientData {
    ClientData(Some(v.name), Some(v.cif), Some(AddressRecord(v.address)))
  }

  /** Editing a saved client starts from exactly the values that were saved. */
  lemma InitialRoundTrip(v: ClientValues)
    ensures InitialValues(Record(v)) == v
  {
    AddressRoundTrip(v.address);
  }

  /** A form started from `{}` never validates: every required field is reported. */
  lemma EmptyStartReported(lib: Library)
    ensures Errors(lib, InitialValues(NoClient)) == map[
      "name" := NameRequired,
      "cif" := CifRequired,
      "address.street" := StreetRequired,
      "address.number" := NumberRequired,
      "address.postal" := PostalRequired,
      "address.city" := CityRequired,
      "address.province" := ProvinceRequired]
    ensures Submit(lib, InitialValues(NoClient)).None?
  {
    TextFieldsRequired(lib, InitialValues(NoClient));
    NumberFieldsRequired(lib, InitialValues(NoClient));
    ErrorKeys(lib, InitialValues(NoClient));
  }

  /** The form is in update mode exactly when it starts with a non-empty name. */
  lemma LabelFollowsInitialName(d: ClientData)
    ensures Label(d) == "Update Client" <==> InitialValues(d).name != ""
  {
  }
}
