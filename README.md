# Entity forms of the bildy administrative front end

This project models the entity-form layer of a browser front end for a
business-records service. The layer is three forms: client, project and
delivery note. For each form the model covers:

- how it builds its starting values from an optional existing record;
- which values it accepts and which error messages it reports otherwise;
- which label it shows in create and edit mode;
- when it hands the captured values to the page's `onSubmit` callback.

Modules:

- `Fields` (`fields.dfy`): optional record fields, JavaScript's `x || ''`
  defaulting, and the nested postal address that the client and project forms share.
- `FormSchema` (`form_schema.dfy`): the declarative schemas of the client and
  project forms. A schema is an ordered list of field rules, run the way
  Formik runs a Yup object schema. An empty string counts as missing. Every
  rule is run. The first message reported for a field path wins. The
  library's e-mail test, its number cast and the message of a failed cast are
  left abstract as fields of `Library`.
- `ClientForm` (`client_form.dfy`), `ProjectForm` (`project_form.dfy`): the
  two schemas as rule lists, the starting values, the mode label and the
  submission gate.
- `DeliveryNoteForm` (`delivery_note_form.dfy`): the hand-written validator.
  It is an imperative method that starts from an empty error map and adds one
  entry per failing check. It is proved equal to a declarative error map
  `Errors`. The module also holds the starting values, with the client-id
  fallback chain, and the submission gate.

Error maps are `map<string, string>` keyed by the dotted field paths the forms
use (`"address.street"`). Formik nests those errors as objects. The model
flattens them.

The delivery-notes list page (src/pages/delivery-notes/index.js:69-85) shows
notes with the fields `{id, projectId, description, quantity}`. The form
modelled here captures `{clientId, projectId, format, material, hours,
description, workdate}`, and the model follows the form.

## Model

| member | source | states |
|---|---|---|
| `Fields.OrEmpty` | src/components/ClientForm.js:20-21 | defaulting to '' gives '' exactly when the field is absent or empty, and otherwise the field itself |
| `Fields.AddressValues` | src/components/ClientForm.js:22-28 | a missing address gives five empty fields; otherwise each address field is defaulted on its own |
| `Fields.AddressRoundTrip` | src/components/ProjectForm.js:41-47 | defaulting a saved address gives back exactly the saved address |
| `Fields.AddressKeepsPresentFields` | src/components/ProjectForm.js:41-47 | every non-empty address field of the record is its starting value |
| `FormSchema.Check` | src/components/ClientForm.js:7-14 | a missing field reports its required message; a text field reports nothing otherwise; a number field reports the cast error exactly when the cast fails; an e-mail field reports its invalid message exactly when the e-mail test fails |
| `FormSchema.Validate` | src/components/ClientForm.js:6-16 | only paths named by some rule are reported |
| `FormSchema.FailureReported` | src/components/ProjectForm.js:23-36 | every failing rule has its path in the error map |
| `FormSchema.ReportedIsFirstFailure` | src/components/ProjectForm.js:23-36 | every reported path carries the message of the first failing rule for that path |
| `FormSchema.RuleReported` | src/components/ClientForm.js:6-16 | when no two rules share a path, a path is reported exactly when its rule fails, with that rule's message |
| `FormSchema.NoErrorsIff` | src/components/ClientForm.js:6-16 | the error map is empty exactly when every rule passes |
| `ClientForm.InitialValues` | src/components/ClientForm.js:19-29 | a starting field is '' exactly when the record's field is absent or empty, and otherwise it is the record's field; the same holds for each field of a present address, and a missing address gives five empty fields |
| `ClientForm.TextFieldsRequired` | src/components/ClientForm.js:7-14 | name, CIF, street, city and province: each is reported exactly when empty, with its fixed message (e.g. 'Client name is required') |
| `ClientForm.NumberFieldsRequired` | src/components/ClientForm.js:11-12 | an empty street number or postal code gives its required message; a non-empty one is reported exactly when it is not a number, with the library's cast message for that path and that text |
| `ClientForm.ErrorKeys` | src/components/ClientForm.js:6-16 | only the seven field paths can be reported |
| `ClientForm.NoErrors` | src/components/ClientForm.js:6-16 | no errors exactly when all seven fields are filled and the two number fields cast |
| `ClientForm.Submit` | src/components/ClientForm.js:35-38 | `onSubmit` is reached exactly when the values are accepted, and receives them unchanged |
| `ClientForm.Label` | src/components/ClientForm.js:43 | the label is 'Update Client' exactly when the existing name is truthy, and 'Create Client' otherwise |
| `ClientForm.LabelFollowsInitialName` | src/components/ClientForm.js:148 | update mode exactly when the form starts with a non-empty name |
| `ClientForm.InitialKeepsPresentFields` | src/components/ClientForm.js:19-29 | each starting field is the record's field when truthy and '' otherwise; a missing address gives five empty fields |
| `ClientForm.InitialRoundTrip` | src/components/ClientForm.js:19-29 | editing a saved client starts from exactly the saved values |
| `ClientForm.EmptyStartReported` | src/components/ClientForm.js:6-29 | a form started from `{}` reports all seven required messages, so it cannot be submitted |
| `ProjectForm.InitialValues` | src/components/ProjectForm.js:38-51 | each starting field, including code, client id and each field of a present address, is '' exactly when the record's field is absent or empty, and otherwise it is the record's field |
| `ProjectForm.ProjectFieldsRequired` | src/components/ProjectForm.js:24-35 | name, project code, internal code and client: each is reported exactly when empty, with its fixed message |
| `ProjectForm.AddressFieldsRequired` | src/components/ProjectForm.js:27-33 | each of the five address fields is reported exactly when empty, with its fixed message |
| `ProjectForm.EmailField` | src/components/ProjectForm.js:26 | an empty e-mail gives 'Email is required'; a non-empty one gives 'Invalid email address' exactly when the e-mail test rejects it |
| `ProjectForm.ErrorKeys` | src/components/ProjectForm.js:23-36 | only the ten field paths can be reported |
| `ProjectForm.NoErrors` | src/components/ProjectForm.js:23-36 | no errors exactly when all ten fields are filled and the e-mail passes the e-mail test |
| `ProjectForm.Submit` | src/components/ProjectForm.js:57-60 | `onSubmit` is reached exactly when the values are accepted, and receives them unchanged |
| `ProjectForm.Heading` | src/components/ProjectForm.js:65 | the heading is 'Edit Project' exactly when the existing name is truthy, and 'Create Project' otherwise |
| `ProjectForm.HeadingFollowsInitialName` | src/components/ProjectForm.js:65 | edit mode exactly when the form starts with a non-empty name |
| `ProjectForm.InitialKeepsPresentFields` | src/components/ProjectForm.js:38-51 | each starting field, including code, client id and the five address fields, is the record's field when truthy and '' otherwise |
| `ProjectForm.InitialRoundTrip` | src/components/ProjectForm.js:38-51 | editing a saved project starts from exactly the saved values |
| `ProjectForm.NoClientReported` | src/components/ProjectForm.js:50 | without a client id in the record, the form starts with '' and reports 'Client is required', so it cannot be submitted |
| `ProjectForm.EmptyStartReported` | src/components/ProjectForm.js:23-51 | a form started from `{}` reports all ten required messages |
| `DeliveryNoteForm.Errors` | src/components/DeliveryNoteForm.js:18-41 | the declarative error map: only the six checked keys, never the project id, never both a material and an hours error, and no format error once a format is set |
| `DeliveryNoteForm.InitialValues` | src/components/DeliveryNoteForm.js:7-15 | client id from the record when truthy, else the first offered client's, else ''; project id is the prop when truthy, else ''; format is the record's when truthy, else 'material', so never ''; hours are the record's unless absent or 0, which start empty; material, description and work date are the record's when truthy, else '' |
| `DeliveryNoteForm.Validate` | src/components/DeliveryNoteForm.js:18-41 | the map built by the sequence of checks equals the declarative error map `Errors` |
| `DeliveryNoteForm.Submit` | src/components/DeliveryNoteForm.js:44-50 | values are forwarded, unchanged, exactly when every check passes |
| `DeliveryNoteForm.ClientIdRule` | src/components/DeliveryNoteForm.js:21-23 | 'Client is required' is reported exactly when the client id is empty |
| `DeliveryNoteForm.MaterialFormat` | src/components/DeliveryNoteForm.js:27-29 | with format 'material', an empty material is reported exactly, and there is no hours or format error |
| `DeliveryNoteForm.HoursFormat` | src/components/DeliveryNoteForm.js:30-32 | with format 'hours', hours are reported exactly when absent or not positive, and there is no material or format error |
| `DeliveryNoteForm.EmptyFormat` | src/components/DeliveryNoteForm.js:24-32 | an empty format gives 'Format is required' and neither a material nor an hours error |
| `DeliveryNoteForm.OtherFormat` | src/components/DeliveryNoteForm.js:24-32 | any other non-empty format gives no format, material or hours error |
| `DeliveryNoteForm.ConditionalErrorsExclusive` | src/components/DeliveryNoteForm.js:27-32 | material and hours errors never appear together |
| `DeliveryNoteForm.UnconditionalRules` | src/components/DeliveryNoteForm.js:33-38 | description and work date are each reported exactly when empty, with their own messages, whatever the format |
| `DeliveryNoteForm.ErrorKeys` | src/components/DeliveryNoteForm.js:18-41 | only the six checked keys are reported; the project id never is |
| `DeliveryNoteForm.NoErrorsIff` | src/components/DeliveryNoteForm.js:18-41 | the error map is empty exactly when every check passes |
| `DeliveryNoteForm.InitialIds` | src/components/DeliveryNoteForm.js:8-9 | client id: the record's when truthy, else the first offered client's, else ''; project id: the prop or '' |
| `DeliveryNoteForm.InitialFormatAndHours` | src/components/DeliveryNoteForm.js:10-12 | the format defaults to 'material', so a fresh form never reports a missing format; hours of 0 or absent start empty |
| `DeliveryNoteForm.InitialRoundTrip` | src/components/DeliveryNoteForm.js:7-15 | editing a saved note with a format and non-zero hours starts from exactly the saved values |
| `DeliveryNoteForm.EmptyStartReported` | src/components/DeliveryNoteForm.js:7-38 | a form started from `{}` with no clients reports exactly the client, material, description and work-date messages |

## Left out

- HTTP access (`src/services/api.js`), the authentication gate (`src/services/withAuth.js`), the pages and the onboarding screens: network I/O, browser storage and navigation.
- Loading the client list inside the project form (`useEffect` with an API call): I/O. The list only fills the client selector, which is not modelled.
- Rendering and styling, including showing only the material or only the hours input according to the format. Only the validation rule that this display mirrors is modelled.
- Formik's touched/blur bookkeeping and `isSubmitting`/`setSubmitting`: library scheduling state that has no bearing on which values are accepted.
- Yup's e-mail pattern, its number cast and the text of its cast error: kept abstract as `Library.isEmail`, `Library.isNumber` and `Library.numberTypeError`. The cast message is a function of the field path and the text that failed to cast.
- `ClientForm.Submit`, `ClientForm.NumberFieldsRequired`: the street number and the postal code are kept as the text Formik holds. Their inputs are number inputs, and Formik stores what is typed there as `parseFloat` of the text, or '' when that is not a number. That conversion is not modelled. So the model forwards the text (a typed postal code "08001" stays "08001", where the form would forward 8001). It also lets typed text reach the cast error, which in the form only text from an existing record can.
- Re-rendering with a changed `initialData` or `clients` prop: Formik reads the starting values once, when the form mounts. The label and heading are recomputed from the live `initialData` on every render, so on the clients page the heading can read 'Update Client' while the values are still those of `{}`. `ClientForm.LabelFollowsInitialName`, `ProjectForm.HeadingFollowsInitialName` and `DeliveryNoteForm.InitialIds` hold only for a form whose props have not changed since it mounted, and so does the first-offered-client fallback.
- Fractional hours: `hours` is an optional integer, so only integer hours are modelled.
- Values of other JavaScript types in an existing record are not modelled. Every record field is text or absent, and `hours` is an integer or absent. So a numeric street number of 0, which is falsy in JavaScript, is not modelled.
- `FormSchema.Validate`: its own contract only bounds the reported paths. The full characterisation is in `FailureReported` and `ReportedIsFirstFailure`.
