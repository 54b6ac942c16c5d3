/**
 The delivery-note form: its starting values (with the client id falling
 back to the first offered client), its hand-written validation, which
 requires either a material type or a positive number of hours depending on
 the format, and the submission gate.
 */
module DeliveryNoteForm {
  import opened Fields

  /** The values the form holds; `hours` is None while the number input is empty. */
  datatype NoteValues = NoteValues(
    clientId: string,
    projectId: string,
    format: string,
    material: string,
    hours: Option<int>,
    description: string,
    workdate: string)

  /** An existing delivery note (`initialData`), whose fields may be absent; `{}` has every field absent. */
  datatype NoteData = NoteData(
    clientId: Option<string>,
    format: Option<string>,
    material: Option<string>,
    hours: Option<int>,
    description: Option<string>,
    workdate: Option<string>)

  /** An entry of the `clients` list the form offers; '' stands for a client without an id. */
  datatype ClientOption = ClientOption(id: string)

  const NoNote := NoteData(None, None, None, None, None, None)

  const ClientRequired := "Client is required"
  const FormatRequired := "Format is required"
  const MaterialRequired := "Material type is required"
  const HoursRequired := "Valid hours worked is required"
  const DescriptionRequired := "Description is required"
  const WorkdateRequired := "Work date is required"

  /** The keys the validation can report. */
  const Keys: set<string> := {"clientId", "format", "material", "hours", "description", "workdate"}

  /** `values.hours` is truthy and positive. */
  predicate HoursValid(hours: Option<int>) {
    hours.Some? && hours.value > 0
  }

  /** Whether the check for key `k` rejects the values. */
  predicate Fails(v: NoteValues, k: string) {
    if k == "clientId" then v.clientId == ""
    else if k == "format" then v.format == ""
    else if k == "material" then v.format == "material" && v.material == ""
    else if k == "hours" then v.format == "hours" && !HoursValid(v.hours)
    else if k == "description" then v.description == ""
    else if k == "workdate" then v.workdate == ""
    else false
  }

  /** The fixed message of key `k`. */
  function Message(k: string): string {
    if k == "clientId" then ClientRequired
    else if k == "format" then FormatRequired
    else if k == "material" then MaterialRequired
    else if k == "hours" then HoursRequired
    else if k == "description" then DescriptionRequired
    else WorkdateRequired
  }

  /** The error map: each failing check under its key, with its message. */
  function Errors(v: NoteValues): (errors: map<string, string>)
    ensures errors.Keys <= Keys
    ensures "projectId" !in errors
    ensures !("material" in errors && "hours" in errors)
    ensures v.format != "" ==> "format" !in errors
  {
    map k | k in Keys && Fails(v, k) :: Message(k)
  }

  /** Values that pass every check. */
  predicate Acceptable(v: NoteValues) {
    && v.clientId != ""
    && v.format != ""
    && (v.format == "material" ==> v.material != "")
    && (v.format == "hours" ==> HoursValid(v.hours))
    && v.description != ""
    && v.workdate != ""
  }

  /** The part of the error map that concerns the keys in `ks`. */
  ghost function ErrorsOn(v: NoteValues, ks: set<string>): map<string, string> {
    map k | k in ks && Fails(v, k) :: Message(k)
  }

  /** Checking one more key extends the partial error map by that key's entry, if it fails. */
  lemma ErrorsOnStep(v: NoteValues, ks: set<string>, k: string, errors: map<string, string>)
    requires errors == ErrorsOn(v, ks) && k !in ks
    ensures ErrorsOn(v, ks + {k}) == if Fails(v, k) then errors[k := Message(k)] else errors
  {
  }

  /** `validate`: starts from an empty error map and adds one entry per failing check, in order. */
  method Validate(v: NoteValues) returns (errors: map<string, string>)
    ensures errors == Errors(v)
  {
    errors := map[];
    ghost var done: set<string> := {};
    assert errors == ErrorsOn(v, done);
    ErrorsOnStep(v, done, "clientId", errors);
    if v.clientId == "" {
      errors := errors["clientId" := ClientRequired];
    }
    done := done + {"clientId"};
    ErrorsOnStep(v, done, "format", errors);
    if v.format == "" {
      errors := errors["format" := FormatRequired];
    }
    done := done + {"format"};
    ErrorsOnStep(v, done, "material", errors);
    if v.format == "material" && v.material == "" {
      errors := errors["material" := MaterialRequired];
    }
    done := done + {"material"};
    ErrorsOnStep(v, done, "hours", errors);
    if v.format == "hours" && (v.hours.None? || v.hours.value == 0 || v.hours.value <= 0) {
      errors := errors["hours" := HoursRequired];
    }
    done := done + {"hours"};
    ErrorsOnStep(v, done, "description", errors);
    if v.description == "" {
      errors := errors["description" := DescriptionRequired];
    }
    done := done + {"description"};
    ErrorsOnStep(v, done, "workdate", errors);
    if v.workdate == "" {
      errors := errors["workdate" := WorkdateRequired];
    }
    done := done + {"workdate"};
    assert done == Keys;
  }

  /**
   What Formik does on submit with the `validate` above: compute the error
   map, and hand the values to `onSubmit` only when the map is empty.
   */
  method Submit(v: NoteValues) returns (errors: map<string, string>, forwarded: Option<NoteValues>)
    ensures errors == Errors(v)
    ensures forwarded == if Acceptable(v) then Some(v) else None
  {
    errors := Validate(v);
    NoErrorsIff(v);
    if errors == map[] {
      forwarded := Some(v);
    } else {
      forwarded := None;
    }
  }

  /** `initialValues`, from the existing note, the offered clients and the `projectId` prop. */
  function InitialValues(d: NoteData, clients: seq<ClientOption>, projectId: Option<string>): (v: NoteValues)
    ensures Truthy(d.clientId) ==> v.clientId == d.clientId.value
    ensures !Truthy(d.clientId) ==> v.clientId == (if clients == [] then "" else clients[0].id)
    ensures v.projectId == (if Truthy(projectId) then projectId.value else "")
    ensures v.format == (if Truthy(d.format) then d.format.value else "material")
    ensures v.format != ""
    ensures v.material == (if Truthy(d.material) then d.material.value else "")
    ensures v.hours == (if d.hours == None || d.hours == Some(0) then None else d.hours)
    ensures v.description == (if Truthy(d.description) then d.description.value else "")
    ensures v.workdate == (if Truthy(d.workdate) then d.workdate.value else "")
  {
    NoteValues(
      if Truthy(d.clientId) then d.clientId.value else if |clients| > 0 then clients[0].id else "",
      OrEmpty(projectId),
      if Truthy(d.format) then d.format.value else "material",
      OrEmpty(d.material),
      if d.hours.Some? && d.hours.value != 0 then d.hours else None,
      OrEmpty(d.description),
      OrEmpty(d.workdate))
  }

  /** A missing client id is reported with its message; a present one is not reported. */
  lemma ClientIdRule(v: NoteValues)
    ensures "clientId" in Errors(v) <==> v.clientId == ""
    ensures "clientId" in Errors(v) ==> Errors(v)["clientId"] == ClientRequired
  {
    assert "clientId" in Keys;
  }

  /** With the material format, only the material check applies. */
  lemma MaterialFormat(v: NoteValues)
    requires v.format == "material"
    ensures "material" in Errors(v) <==> v.material == ""
    ensures "material" in Errors(v) ==> Errors(v)["material"] == MaterialRequired
    ensures "hours" !in Errors(v) && "format" !in Errors(v)
  {
    assert "material" in Keys;
  }

  /** With the hours format, only the hours check applies: hours must be present and positive. */
  lemma HoursFormat(v: NoteValues)
    requires v.format == "hours"
    ensures "hours" in Errors(v) <==> !(v.hours.Some? && v.hours.value > 0)
    ensures "hours" in Errors(v) ==> Errors(v)["hours"] == HoursRequired
    ensures "material" !in Errors(v) && "format" !in Errors(v)
  {
    assert "hours" in Keys;
  }

  /** An empty format is reported, and then neither the material nor the hours check applies. */
  lemma EmptyFormat(v: NoteValues)
    requires v.format == ""
    ensures "format" in Errors(v) && Errors(v)["format"] == FormatRequired
    ensures "material" !in Errors(v) && "hours" !in Errors(v)
  {
    assert "format" in Keys;
  }

  /** Any other format passes the format check and switches off both conditional checks. */
  lemma OtherFormat(v: NoteValues)
    requires v.format !in {"", "material", "hours"}
    ensures "format" !in Errors(v) && "material" !in Errors(v) && "hours" !in Errors(v)
  {
  }

  /** The material and hours errors never appear together. */
  lemma ConditionalErrorsExclusive(v: NoteValues)
    ensures !("material" in Errors(v) && "hours" in Errors(v))
  {
  }

  /** Description and work date are checked whatever the format. */
  lemma UnconditionalRules(v: NoteValues)
    ensures "description" in Errors(v) <==> v.description == ""
    ensures "description" in Errors(v) ==> Errors(v)["description"] == DescriptionRequired
    ensures "workdate" in Errors(v) <==> v.workdate == ""
    ensures "workdate" in Errors(v) ==> Errors(v)["workdate"] == WorkdateRequired
  {
    assert "description" in Keys && "workdate" in Keys;
  }

  /** Only the six checked fields are reported; in particular the project id never is. */
  lemma ErrorKeys(v: NoteValues)
    ensures Errors(v).Keys <= Keys
    ensures "projectId" !in Errors(v)
  {
  }

  /** The error map is empty exactly when every check passes. */
  lemma NoErrorsIff(v: NoteValues)
    ensures Errors(v) == map[] <==> Acceptable(v)
  {
    if Errors(v) == map[] {
      assert "clientId" !in Errors(v) && "format" !in Errors(v) && "material" !in Errors(v);
      assert "hours" !in Errors(v) && "description" !in Errors(v) && "workdate" !in Errors(v);
      assert {"clientId", "format", "material", "hours", "description", "workdate"} == Keys;
    } else {
      var k :| k in Errors(v);
    }
  }

  /**
   The client id comes from the existing note when truthy, else from the
   first offered client, else it is ''; the project id is the prop or ''.
   */
  lemma InitialIds(d: NoteData, clients: seq<ClientOption>, projectId: Option<string>)
    ensures var iv := InitialValues(d, clients, projectId);
      && (Truthy(d.clientId) ==> iv.clientId == d.clientId.value)
      && (!Truthy(d.clientId) && clients != [] ==> iv.clientId == clients[0].id)
      && (!Truthy(d.clientId) && clients == [] ==> iv.clientId == "")
      && (Truthy(projectId) ==> iv.projectId == projectId.value)
      && (!Truthy(projectId) ==> iv.projectId == "")
  {
  }

  /**
   The format defaults to material, so a freshly started form never reports
   a missing format; hours of 0 or absent start as an empty input.
   */
  lemma InitialFormatAndHours(d: NoteData, clients: seq<ClientOption>, projectId: Option<string>)
    ensures var iv := InitialValues(d, clients, projectId);
      && iv.format == (if Truthy(d.format) then d.format.value else "material")
      && iv.format != ""
      && "format" !in Errors(iv)
      && (d.hours.None? || d.hours == Some(0) ==> iv.hours.None?)
      && (d.hours.Some? && d.hours.value != 0 ==> iv.hours == d.hours)
  {
  }

  /** The record a saved delivery note comes back as. */
  function Record(v: NoteValues): NoteData {
    NoteData(Some(v.clientId), Some(v.format), Some(v.material), v.hours, Some(v.description), Some(v.workdate))
  }

  /**
   Editing a saved note (with no clients offered and the same project id)
   starts from the saved values, as long as it had a format and its hours
   were not 0: those two are the fields the defaulting replaces.
   */
  lemma InitialRoundTrip(v: NoteValues)
    requires v.format != "" && v.hours != Some(0)
    ensures InitialValues(Record(v), [], Some(v.projectId)) == v
  {
  }

  /** A form started from `{}` with no clients offered is blocked on the client and the two text fields. */
  lemma EmptyStartReported()
    ensures Errors(InitialValues(NoNote, [], None)) == map[
      "clientId" := ClientRequired,
      "material" := MaterialRequired,
      "description" := DescriptionRequired,
      "workdate" := WorkdateRequired]
  {
    var v := InitialValues(NoNote, [], None);
    assert "clientId" in Keys && "material" in Keys && "description" in Keys && "workdate" in Keys;
    assert Errors(v).Keys == {"clientId", "material", "description", "workdate"};
  }
}
