/**
 The project form: its starting values built from an optional existing
 project, its validation schema (all ten fields required, the e-mail field
 also tested by the library's e-mail check), the edit/create heading and the
 submission gate. Loading the list of clients for the client selector is
 not part of this model.
 */
module ProjectForm {
  import opened Fields
  import opened FormSchema

  /** The values the form holds. */
  datatype ProjectValues = ProjectValues(
    name: string,
    projectCode: string,
    email: string,
    address: Address,
    code: string,
    clientId: string)

  /** An existing project (`initialData`), whose fields may be absent; `{}` has every field absent. */
  datatype ProjectData = ProjectData(
    name: Option<string>,
    projectCode: Option<string>,
    email: Option<string>,
    address: Option<AddressData>,
    code: Option<string>,
    clientId: Option<string>)

  const NoProject := ProjectData(None, None, None, None, None, None)

  const NameRequired := "Project name is required"
  const ProjectCodeRequired := "Project code is required"
  const EmailInvalid := "Invalid email address"
  const EmailRequired := "Email is required"
  const StreetRequired := "Street is required"
  const NumberRequired := "Number is required"
  const PostalRequired := "Postal code is required"
  const CityRequired := "City is required"
  const ProvinceRequired := "Province is required"
  const CodeRequired := "Internal code is required"
  const ClientRequired := "Client is required"

  /** The validation schema, in the order it is declared. */
  const Rules: seq<Rule> := [
    Rule("name", Text, NameRequired),
    Rule("projectCode", Text, ProjectCodeRequired),
    Rule("email", Email(EmailInvalid), EmailRequired),
    Rule("address.street", Text, StreetRequired),
    Rule("address.number", Text, NumberRequired),
    Rule("address.postal", Text, PostalRequired),
    Rule("address.city", Text, CityRequired),
    Rule("address.province", Text, ProvinceRequired),
    Rule("code", Text, CodeRequired),
    Rule("clientId", Text, ClientRequired)
  ]

  /** The values as the schema reads them, one entry per field path. */
  function Flatten(v: ProjectValues): map<string, string> {
    map[
      "name" := v.name,
      "projectCode" := v.projectCode,
      "email" := v.email,
      "address.street" := v.address.street,
      "address.number" := v.address.number,
      "address.postal" := v.address.postal,
      "address.city" := v.address.city,
      "address.province" := v.address.province,
      "code" := v.code,
      "clientId" := v.clientId
    ]
  }

  /** The error map Formik computes from the schema. */
  function Errors(lib: Library, v: ProjectValues): map<string, string> {
    Validate(lib, Rules, Flatten(v))
  }

  /** `initialValues`: each field of the existing project when truthy, '' otherwise. */
  function InitialValues(d: ProjectData): (v: ProjectValues)
    ensures v.name == "" <==> !Truthy(d.name)
    ensures v.name != "" ==> d.name == Some(v.name)
    ensures v.projectCode == "" <==> !Truthy(d.projectCode)
    ensures v.projectCode != "" ==> d.projectCode == Some(v.projectCode)
    ensures v.email == "" <==> !Truthy(d.email)
    ensures v.email != "" ==> d.email == Some(v.email)
    ensures v.code == "" <==> !Truthy(d.code)
    ensures v.code != "" ==> d.code == Some(v.code)
    ensures v.clientId == "" <==> !Truthy(d.clientId)
    ensures v.clientId != "" ==> d.clientId == Some(v.clientId)
    ensures d.address.None? ==> v.address == Address("", "", "", "", "")
    ensures d.address.Some? ==> v.address == AddressValues(d.address)
  {
    ProjectValues(
      OrEmpty(d.name), OrEmpty(d.projectCode), OrEmpty(d.email),
      AddressValues(d.address),
      OrEmpty(d.code), OrEmpty(d.clientId))
  }

  /** The heading of the form. */
  function Heading(d: ProjectData): (s: string)
    ensures s == "Edit Project" || s == "Create Project"
    ensures s == "Edit Project" <==> Truthy(d.name)
  {
    if Truthy(d.name) then "Edit Project" else "Create Project"
  }

  /** Values the user can submit: every field filled and the e-mail address well formed. */
  predicate Accepted(lib: Library, v: ProjectValues) {
    && v.name != ""
    && v.projectCode != ""
    && v.email != "" && lib.isEmail(v.email)
    && v.address.street != ""
    && v.address.number != ""
    && v.address.postal != ""
    && v.address.city != ""
    && v.address.province != ""
    && v.code != ""
    && v.clientId != ""
  }

  /** The record `onSubmit` receives, when Formik lets the submission through. */
  function Submit(lib: Library, v: ProjectValues): (forwarded: Option<ProjectValues>)
    ensures forwarded.Some? <==> Accepted(lib, v)
    ensures forwarded.Some? ==> forwarded.value == v
  {
    NoErrors(lib, v);
    if Errors(lib, v) == map[] then Some(v) else None
  }

  lemma RulesDistinct()
    ensures DistinctPaths(Rules)
  {
  }

  /** The project's own fields: each error is there exactly when the field is '', with the field's fixed message. */
  lemma ProjectFieldsRequired(lib: Library, v: ProjectValues)
    ensures var e := Errors(lib, v);
      && ("name" in e <==> v.name == "") && ("name" in e ==> e["name"] == NameRequired)
      && ("projectCode" in e <==> v.projectCode == "") && ("projectCode" in e ==> e["projectCode"] == ProjectCodeRequired)
      && ("code" in e <==> v.code == "") && ("code" in e ==> e["code"] == CodeRequired)
      && ("clientId" in e <==> v.clientId == "") && ("clientId" in e ==> e["clientId"] == ClientRequired)
  {
    RulesDistinct();
    RuleReported(lib, Rules, Flatten(v), 0);
    RuleReported(lib, Rules, Flatten(v), 1);
    RuleReported(lib, Rules, Flatten(v), 8);
    RuleReported(lib, Rules, Flatten(v), 9);
  }

  /** The five address fields: each error is there exactly when the field is '', with the field's fixed message. */
  lemma AddressFieldsRequired(lib: Library, v: ProjectValues)
    ensures var e := Errors(lib, v);
      && ("address.street" in e <==> v.address.street == "")
      && ("address.street" in e ==> e["address.street"] == StreetRequired)
      && ("address.number" in e <==> v.address.number == "")
      && ("address.number" in e ==> e["address.number"] == NumberRequired)
      && ("address.postal" in e <==> v.address.postal == "")
      && ("address.postal" in e ==> e["address.postal"] == PostalRequired)
      && ("address.city" in e <==> v.address.city == "")
      && ("address.city" in e ==> e["address.city"] == CityRequired)
      && ("address.province" in e <==> v.address.province == "")
      && ("address.province" in e ==> e["address.province"] == ProvinceRequired)
  {
    RulesDistinct();
    RuleReported(lib, Rules, Flatten(v), 3);
    RuleReported(lib, Rules, Flatten(v), 4);
    RuleReported(lib, Rules, Flatten(v), 5);
    RuleReported(lib, Rules, Flatten(v), 6);
    RuleReported(lib, Rules, Flatten(v), 7);
  }

  /** An empty e-mail is reported as missing; a non-empty one is reported as invalid exactly when the library's test rejects it. */
  lemma EmailField(lib: Library, v: ProjectValues)
    ensures var e := Errors(lib, v);
      && (v.email == "" ==> "email" in e && e["email"] == EmailRequired)
      && (v.email != "" ==> ("email" in e <==> !lib.isEmail(v.email)))
      && (v.email != "" && "email" in e ==> e["email"] == EmailInvalid)
  {
    RulesDistinct();
    RuleReported(lib, Rules, Flatten(v), 2);
  }

  /** The schema reports nothing but the ten field paths. */
  lemma ErrorKeys(lib: Library, v: ProjectValues)
    ensures Errors(lib, v).Keys <= {
      "name", "projectCode", "email", "address.street", "address.number", "address.postal",
      "address.city", "address.province", "code", "clientId"}
  {
  }

  /** The error map is empty exactly when the values are accepted. */
  lemma NoErrors(lib: Library, v: ProjectValues)
    ensures Errors(lib, v) == map[] <==> Accepted(lib, v)
  {
    NoErrorsIff(lib, Rules, Flatten(v));
    ProjectFieldsRequired(lib, v);
    AddressFieldsRequired(lib, v);
    EmailField(lib, v);
  }

  /** A truthy field of the existing project is the starting value of that field; any other field starts as ''. */
  lemma InitialKeepsPresentFields(d: ProjectData)
    ensures InitialValues(d).name == (if Truthy(d.name) then d.name.value else "")
    ensures InitialValues(d).projectCode == (if Truthy(d.projectCode) then d.projectCode.value else "")
    ensures InitialValues(d).email == (if Truthy(d.email) then d.email.value else "")
    ensures InitialValues(d).code == (if Truthy(d.code) then d.code.value else "")
    ensures InitialValues(d).clientId == (if Truthy(d.clientId) then d.clientId.value else "")
    ensures d.address.None? ==> InitialValues(d).address == Address("", "", "", "", "")
    ensures d.address.Some? ==> var a := d.address.value; var r := InitialValues(d).address;
      && r.street == (if Truthy(a.street) then a.street.value else "")
      && r.number == (if Truthy(a.number) then a.number.value else "")
      && r.postal == (if Truthy(a.postal) then a.postal.value else "")
      && r.city == (if Truthy(a.city) then a.city.value else "")
      && r.province == (if Truthy(a.province) then a.province.value else "")
  {
  }

  /** The record a saved project comes back as. */
  function Record(v: ProjectValues): ProjectData {
    ProjectData(Some(v.name), Some(v.projectCode), Some(v.email), Some(AddressRecord(v.address)), Some(v.code), Some(v.clientId))
  }

  /** Editing a saved project starts from exactly the values that were saved. */
  lemma InitialRoundTrip(v: ProjectValues)
    ensures InitialValues(Record(v)) == v
  {
    AddressRoundTrip(v.address);
  }

  /** Without a client in the existing project the form starts with no client and reports it until one is chosen. */
  lemma NoClientReported(lib: Library, d: ProjectData)
    requires !Truthy(d.clientId)
    ensures InitialValues(d).clientId == ""
    ensures var e := Errors(lib, InitialValues(d)); "clientId" in e && e["clientId"] == ClientRequired
    ensures Submit(lib, InitialValues(d)).None?
  {
    ProjectFieldsRequired(lib, InitialValues(d));
  }

  /** A form started from `{}` never validates: every field is reported as missing. */
  lemma EmptyStartReported(lib: Library)
    ensures Errors(lib, InitialValues(NoProject)) == map[
      "name" := NameRequired,
      "projectCode" := ProjectCodeRequired,
      "email" := EmailRequired,
      "address.street" := StreetRequired,
      "address.number" := NumberRequired,
      "address.postal" := PostalRequired,
      "address.city" := CityRequired,
      "address.province" := ProvinceRequired,
      "code" := CodeRequired,
      "clientId" := ClientRequired]
  {
    var v := InitialValues(NoProject);
    ProjectFieldsRequired(lib, v);
    AddressFieldsRequired(lib, v);
    EmailField(lib, v);
    ErrorKeys(lib, v);
  }

  /** The form is in edit mode exactly when it starts with a non-empty name. */
  lemma HeadingFollowsInitialName(d: ProjectData)
    ensures Heading(d) == "Edit Project" <==> InitialValues(d).name != ""
  {
  }
}
