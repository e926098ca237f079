# Registrar empresa — a Dafny model of the registration and emission wizards

This project models the form logic of a small web front end for university
internships ("Sistema de Prácticas Profesionales"). It has two wizards.

- **Company registration** (`app/page.tsx`) has three steps.
  1. The CUIT step (`components/ingresar-cuit.tsx`) formats the CUIT live
     as it is typed. On submit it checks that the text, once hyphens and
     white space are removed, is exactly eleven ASCII digits. It refuses
     the already-registered sentinel `11111111111`. Otherwise it forwards
     the stripped digits.
  2. The company-details step (`components/datos-adicionales.tsx`) holds
     four fields. It filters the postal code to at most four digits as it
     is typed. On submit it runs an ordered validator and, on success,
     builds the `DatosEmpresa` record.
  3. The success screen (`components/empresa-registrada.tsx`) shows the
     CUIT again as `NN-NNNNNNNN-N`.
- **Contract emission** has three steps; the third, the result screen,
  is not modelled (see "Left out").
  1. The project lookup (`components/ingresar-proyecto.tsx`) accepts one or
     more digits. It is mocked: the numbers `999`, `555`, `777` and `444`
     fail with their own error codes, and every other number finds a fixed
     project with three confirmed students.
  2. The confirmation step (`components/confirmar-emision.tsx`) numbers one
     contract per confirmed student: `CONT-{project}-{nnn}`.

The model is split into these modules:

- `Text` (text.dfy): the JavaScript string operations the components use.
  - `\d` is the ASCII digits.
  - `\s` and `trim` use the ECMAScript white-space and line-terminator set.
  - `replace(/…/g, "")` becomes a filter.
  - `slice` clamps its bounds.
- `Cuit` (cuit.dfy), `Datos` (datos.dfy), `Registrada` (registrada.dfy),
  `Proyecto` (proyecto.dfy) and `Emision` (emision.dfy): one module per
  component.
- `Registro` (registro.dfy): the registration page.

Components that keep state in `useState` become classes. Their fields are
that state, and their event handlers are methods with `modifies this`. A
handler's callback prop to the parent (`onCuitValidado`,
`onEmpresaRegistrada`, `onProyectoValidado`) becomes an `Option`
out-parameter: `Some(x)` means the callback was called with `x`. The page's
`RegistroWizard` owns the state of the step it shows (`entry` for the
CUIT step, `form` for the details step), calls the step methods and feeds
those out-parameters to its own handlers. Since React discards a step's
state when the page leaves it, every transition into a step mounts a new,
empty step object. Pure helpers (`formatCuit`, `validarCuit`,
`validarDatos`, the mocked lookup, the contract numbering) become functions
and lemmas.

When the details step's validation fails, its four fields are kept: the
handler only sets the message (`components/datos-adicionales.tsx:62-66`).
A blank CUIT likewise leaves the field as it is
(`components/ingresar-cuit.tsx:40-43`); only the invalid and
already-registered cases clear it.

## Model

| member | source | states |
|---|---|---|
| Text.Slice | components/empresa-registrada.tsx:17 | JavaScript's `slice` with its bounds clamped to the string: both bounds are capped at the string's length, the result is empty when they cross and otherwise as long as the gap between them, and its i-th character is the input's character at start + i |
| Cuit.ValidarCuit | components/ingresar-cuit.tsx:31-35 | A CUIT that validates holds exactly eleven digits; the full characterisation is `Cuit.ValidarCuitIff` |
| Cuit.ChangedText | components/ingresar-cuit.tsx:104-111 | Text that is digits once its hyphens are removed is stored exactly as `Cuit.FormatCuit` groups it (its first eleven digits, shaped as `Cuit.FormatCuitShape` states); any other text is stored as typed |
| Cuit.FormatCuit | components/ingresar-cuit.tsx:84-99 | Removing the inserted hyphens from the formatted text gives the input's first eleven digits, in order; every non-digit is dropped |
| Cuit.FormatCuitShape | components/ingresar-cuit.tsx:89-98 | With k = min(11, digits typed): the output has k chars for k ≤ 2, k+1 for 3..10 and 13 for 11; hyphens sit exactly at index 2 (k ≥ 3) and index 11 (k = 11); every other char is a digit |
| Cuit.FormatCuitIdempotent | components/ingresar-cuit.tsx:84-99 | Formatting already formatted text changes nothing |
| Cuit.CuitEntry.HandleCuitChange | components/ingresar-cuit.tsx:101-112 | When the typed text is only digits and hyphens, the field becomes its formatted form; otherwise it is stored as typed; the error is untouched |
| Cuit.ChangedTextIdempotent | components/ingresar-cuit.tsx:101-112 | Feeding the field's own text back through the change handler leaves it unchanged |
| Cuit.ValidarCuitIff | components/ingresar-cuit.tsx:31-35 | `validarCuit` holds exactly when every char is a digit, hyphen or white space and there are exactly eleven digits |
| Cuit.BlankNeverValid | components/ingresar-cuit.tsx:31-46 | Blank text strips to the empty string and never validates, so the blank check only decides whether the field is cleared |
| Cuit.Decide | components/ingresar-cuit.tsx:40-66 | A forwarded CUIT is always eleven digits and never the registered sentinel |
| Cuit.DecideForwardsIff | components/ingresar-cuit.tsx:40-66 | Forwarded iff valid and not the sentinel, and then with the stripped digits; already-registered iff the stripped text is the sentinel; invalid iff non-blank and not valid |
| Cuit.ErrorMessage | components/ingresar-cuit.tsx:67-76 | The registered-company message is shown iff the code is `EMPRESA_EXISTENTE`; any other code gives the unexpected-error message |
| Cuit.CuitEntry.constructor | components/ingresar-cuit.tsx:17-19 | The field and the error start empty |
| Cuit.CuitEntry.HandleSubmit | components/ingresar-cuit.tsx:37-82 | Blank: invalid-data message, field kept, nothing forwarded. Invalid: same message, field cleared. Sentinel: registered message, field cleared. Otherwise: error cleared, field kept, `onCuitValidado` gets the stripped digits |
| Cuit.ElevenDigitsForwarded | components/ingresar-cuit.tsx:59-66 | Any eleven-digit string other than the sentinel is forwarded unchanged |
| Cuit.DecideFormatted | components/ingresar-cuit.tsx:40-98 | Submitting the live formatter's output: no digits is blank, 1–10 digits is invalid, and 11 or more digits forward the first eleven unless they are the sentinel |
| Datos.Update | components/datos-adicionales.tsx:30-35 | The named field takes the new value and the other three keep theirs |
| Datos.DatosForm.constructor | components/datos-adicionales.tsx:21-28 | All four fields and the error start empty |
| Datos.DatosForm.HandleInputChange | components/datos-adicionales.tsx:30-35 | The form state becomes the update of exactly the named field; the error is untouched |
| Datos.PostalFilter | components/datos-adicionales.tsx:153 | The stored postal code is only digits, min(4, digits typed) of them, and is a prefix of the typed digits |
| Datos.DatosForm.HandlePostalChange | components/datos-adicionales.tsx:152-155 | Only the postal code changes, and it becomes the filtered typed text |
| Datos.PostalFilterIdempotent | components/datos-adicionales.tsx:153 | Filtering an already filtered postal code changes nothing |
| Datos.PostalFilterPassesIff | components/datos-adicionales.tsx:153 | A filtered postal code passes the four-digit format check iff at least four digits were typed |
| Datos.Check.Message | components/datos-adicionales.tsx:37-57 | Every check's message is non-empty, so it is truthy for the caller |
| Datos.ValidarDatos | components/datos-adicionales.tsx:37-57 | No message iff no check fails; otherwise the message belongs to a failing check and every earlier check passes |
| Datos.ValidarDatosAcceptsIff | components/datos-adicionales.tsx:37-57 | Accepted iff name and address are not blank, the postal code is four digits and the phone, without hyphens and white space, has 8 to 15 digits |
| Datos.Merge | components/datos-adicionales.tsx:75-78 | The registered record carries the validated CUIT and the four fields as typed |
| Datos.DatosForm.HandleSubmit | components/datos-adicionales.tsx:59-86 | Fields never change. Failed validation shows the single inconsistent-data message and registers nothing; success clears the error and hands `{cuitEmpresa, ...formData}` to the page |
| Datos.FormatCuit | components/datos-adicionales.tsx:88-90 | The header's CUIT is always two characters longer than the prop |
| Registrada.FormatCuit | components/empresa-registrada.tsx:16-18 | Only inserts two hyphens, at positions min(2, n) and min(10, n) + 1: deleting those two positions gives back the input exactly, for every string |
| Registrada.DisplayRoundTrip | components/empresa-registrada.tsx:16-18 | A hyphen-free CUIT is recovered exactly from its display form |
| Registrada.ElevenDigitLayout | components/empresa-registrada.tsx:16-18 | An eleven-digit CUIT displays as 2 digits, hyphen, 8 digits, hyphen, 1 digit |
| Registrada.AgreesWithDetailsHeader | components/empresa-registrada.tsx:16-18 | The success screen and the details header format every string alike |
| Registrada.AgreesWithEntryFormatter | components/empresa-registrada.tsx:16-18 | On eleven digits the display formatter and the entry step's live formatter agree |
| Registrada.TypedCuitShownBack | components/empresa-registrada.tsx:57 | Digits and hyphens with at least eleven digits (first eleven not the sentinel), typed into the field, are displayed as the live formatter's output; submitting forwards the first eleven digits, and the success screen shows them exactly as the entry field displayed them |
| Registrada.WorkedExample | components/empresa-registrada.tsx:57 | "20-12345678-9" is kept as typed, forwarded as "20123456789" and shown back as "20-12345678-9" |
| Registro.RegistroWizard.constructor | app/page.tsx:17-19 | The page starts at the CUIT step with no CUIT, no company and a newly mounted, empty CUIT step |
| Registro.RegistroWizard.HandleCuitValidado | app/page.tsx:21-24 | Stores the CUIT and moves to the details step, which is mounted afresh with four empty fields; the company is untouched |
| Registro.RegistroWizard.HandleEmpresaRegistrada | app/page.tsx:26-29 | From any step, stores the company and moves to the success step; the CUIT is untouched |
| Registro.RegistroWizard.HandleNuevoRegistro | app/page.tsx:31-35 | Returns to exactly the initial state, with a newly mounted, empty CUIT step |
| Registro.RegistroWizard.Volver | app/page.tsx:48 | Back from details to the CUIT step, which is mounted afresh with an empty field and no message; the stored CUIT, the company and the page invariant are kept |
| Registro.RegistroWizard.SubmitCuit | app/page.tsx:42 | The page moves to details exactly when the CUIT step forwards a CUIT, and then holds that CUIT and a newly mounted, empty details step; the entry step's message and field end up as in `Cuit.CuitEntry.HandleSubmit`, case by case; the invariant (success iff a company is stored, an eleven-digit CUIT from details on, the company carries that CUIT) is kept |
| Registro.RegistroWizard.SubmitDatos | app/page.tsx:44-49 | The page reaches success exactly when validation passes, storing the record built from the validated CUIT and the form; the form's fields are unchanged and its message is the inconsistent-data one exactly when validation fails; the invariant is kept |
| Registro.RegistrationScenario | app/page.tsx:42-53 | A whole registration of "20-12345678-9" with valid details reaches success and displays "20-12345678-9" |
| Proyecto.Lookup | components/ingresar-proyecto.tsx:52-93 | Fails iff the number is one of 999, 555, 777, 444 by exact comparison; otherwise finds a project with that number and three confirmed students |
| Proyecto.Template | components/ingresar-proyecto.tsx:64-91 | The found project carries the number looked up and three confirmed applications with distinct application numbers |
| Proyecto.SubmitError | components/ingresar-proyecto.tsx:35-112 | No message is left exactly when the input is a digit string that is not a sentinel |
| Proyecto.SubmitFound | components/ingresar-proyecto.tsx:35-93 | A project is handed on exactly when the input is a digit string that is not a sentinel, and it is the template carrying that number |
| Proyecto.ErrorMessage | components/ingresar-proyecto.tsx:94-112 | Every message is non-empty; the generic unexpected-error message is shown iff the code is none of the four known codes |
| Proyecto.ProyectoForm.constructor | components/ingresar-proyecto.tsx:18-20 | The field and the error start empty |
| Proyecto.ProyectoForm.HandleChange | components/ingresar-proyecto.tsx:139 | The field stores the text as typed; the error is untouched |
| Proyecto.ProyectoForm.HandleSubmit | components/ingresar-proyecto.tsx:32-116 | The field is never cleared; the message and the project handed to `onProyectoValidado` are those of the blank check, digit check, lookup and code mapping in that order |
| Proyecto.ProyectoForm.Limpiar | components/ingresar-proyecto.tsx:165-168 | Clears both the field and the message |
| Proyecto.InvalidInputRejected | components/ingresar-proyecto.tsx:35-43 | Blank input, or input with any non-digit, gets the invalid-data message and finds nothing |
| Proyecto.BlankIsNotProjectNumber | components/ingresar-proyecto.tsx:35-43 | Blank text never passes the digit check, so the blank check is subsumed by it |
| Proyecto.SentinelMessagesDistinct | components/ingresar-proyecto.tsx:53-109 | Each sentinel finds nothing and shows its own message, distinct from the other sentinels', from the validation message and from the unexpected-error message |
| Proyecto.CodeMessagesDistinct | components/ingresar-proyecto.tsx:94-110 | The four known codes map to four distinct non-empty messages, none of them the generic ones |
| Proyecto.OtherNumbersFound | components/ingresar-proyecto.tsx:63-93 | Every other digit string finds the template project carrying that number, with applications POST-001, POST-002, POST-003 in order |
| Proyecto.LeadingZeroIsNotSentinel | components/ingresar-proyecto.tsx:53-60 | "0999" is not a sentinel and finds the template project |
| Emision.DecimalString | components/confirmar-emision.tsx:32 | `String(n)` is non-empty, all digits and has no leading zero unless n is 0 |
| Emision.DecimalRoundTrip | components/confirmar-emision.tsx:32 | Reading back `String(n)` as a decimal gives n |
| Emision.SequenceNumber | components/confirmar-emision.tsx:32 | `String(n).padStart(3, "0")` is all digits, at least three long, and ends with `String(n)` |
| Emision.ContractId | components/confirmar-emision.tsx:32 | An id is `CONT-{project}-` followed by the sequence number, so at least three characters after the prefix |
| Emision.PadStart | components/confirmar-emision.tsx:32 | `padStart` never truncates, keeps the string as a suffix and adds only fill characters in front |
| Emision.SequenceNumberDecodes | components/confirmar-emision.tsx:32 | The padded sequence number is all digits, at least three long, ends with `String(n)` and reads back as n |
| Emision.ContractIdInjective | components/confirmar-emision.tsx:32 | Two ids of one project are equal only for equal sequence numbers |
| Emision.ContractIds | components/confirmar-emision.tsx:31-33 | One id per confirmed student |
| Emision.ContractIdsInOrder | components/confirmar-emision.tsx:31-33 | The i-th id is `CONT-{project}-` followed by digits that read back as i + 1 |
| Emision.ContractIdsDistinct | components/confirmar-emision.tsx:31-33 | The ids are pairwise distinct |
| Emision.ContractIdsIgnoreStudents | components/confirmar-emision.tsx:31-33 | The ids depend only on the project number and the number of students |
| Emision.TemplateIds | components/confirmar-emision.tsx:31-33 | The template project always gets the ids for sequence numbers 1, 2 and 3 |
| Emision.WorkedExample | components/confirmar-emision.tsx:32 | Project "12345" gets CONT-12345-001 to CONT-12345-003; a thousandth student would get CONT-12345-1000, unpadded |
| Emision.EmissionScenario | components/confirmar-emision.tsx:31-35 | Looking up "12345" and emitting gives exactly CONT-12345-001, -002 and -003 |

## Left out

- Simulated latency (`setTimeout` before each lookup or registration) is left out: every handler is modelled as completing at once.
- The `loading` flags and the disabled state they give the buttons are left out, because they only matter while that latency runs.
- The effects that hide an error message after a few seconds are left out: they depend on time.
- Rendering (JSX, icons, cards, the `Label` helpers) is left out.
- The inputs' `maxLength` attributes are left out: they are a browser constraint, so the model's handlers accept text of any length.
- `components/resultado-emision.tsx`, the emission wizard's result screen reached through `onContratosEmitidos`, is not part of this model.
- A registration that completes after the details step's header Volver button was pressed (that button, `components/datos-adicionales.tsx:97`, is not disabled while loading) cannot happen without latency, so `Registro.RegistroWizard.SubmitDatos` starts from the details step. `Registro.RegistroWizard.HandleEmpresaRegistrada` itself accepts the call from any step, as the page's handler does.
- The parent that holds the contract wizard (the state behind `onProyectoValidado`, `onContratosEmitidos` and `onVolver`) is not part of this model. The project step and the contract numbering are modelled on their own.
- The `catch` paths that only a throwing parent callback could reach are left out: callbacks are modelled as out-parameters, which cannot throw. These are the unexpected-error branch of the CUIT step, "Error al registrar la empresa" in the details step, the "Error inesperado" branch the project step reaches when `onProyectoValidado` throws, and the `console.error` branch of the emission step. `Cuit.ErrorMessage` still models the CUIT step's full mapping.
- `handleInputChange` takes a free-form key in the source. The model allows only the four field names the inputs pass.
- Strings are sequences of Unicode scalar values. Lone UTF-16 surrogates, and JavaScript's UTF-16 indexing of `slice` and `length`, are not modelled.
- The CUIT check digit (modulo 11) is not modelled: the source checks only the digit count.
- Cuit.Decide: its contract states only that a forwarded CUIT is eleven digits and not the sentinel. The full case analysis is in `Cuit.DecideForwardsIff`.
- Datos.FormatCuit: its contract gives only the length. Its agreement with the success screen's formatter is in `Registrada.AgreesWithDetailsHeader`.
