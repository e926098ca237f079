/** The company details step (components/datos-adicionales.tsx): four form
    fields, the ordered validator, the postal-code input filter, and the
    record handed to the page on success. The record's type is the one
    app/page.tsx declares. */
module Datos {
  import opened Text
  import opened Wrappers

  /** `DatosEmpresa` (app/page.tsx): the validated CUIT and the four fields. */
  datatype DatosEmpresa = DatosEmpresa(
    cuitEmpresa: string,
    nombreEmpresa: string,
    direccionEmpresa: string,
    codigoPostalEmpresa: string,
    nroTelefonoEmpresa: string)

  /** The `formData` state of the form. */
  datatype FormData = FormData(
    nombreEmpresa: string,
    direccionEmpresa: string,
    codigoPostalEmpresa: string,
    nroTelefonoEmpresa: string)

  /** The field names the inputs pass to `handleInputChange`. */
  datatype Field = NombreEmpresa | DireccionEmpresa | CodigoPostalEmpresa | NroTelefonoEmpresa

  const EmptyForm: FormData := FormData("", "", "", "")

  /** The one message `handleSubmit` shows for any validation failure. */
  const InconsistentMessage: string := "Datos ingresados inconsistentes. Intente nuevamente"

  function Get(f: FormData, field: Field): string {
    match field
    case NombreEmpresa => f.nombreEmpresa
    case DireccionEmpresa => f.direccionEmpresa
    case CodigoPostalEmpresa => f.codigoPostalEmpresa
    case NroTelefonoEmpresa => f.nroTelefonoEmpresa
  }

  /** `{...prev, [field]: value}`: the named field takes the new value and
      the other three keep theirs. */
  function Update(f: FormData, field: Field, value: string): (r: FormData)
    ensures Get(r, field) == value
    ensures forall other :: other != field ==> Get(r, other) == Get(f, other)
  {
    match field
    case NombreEmpresa => f.(nombreEmpresa := value)
    case DireccionEmpresa => f.(direccionEmpresa := value)
    case CodigoPostalEmpresa => f.(codigoPostalEmpresa := value)
    case NroTelefonoEmpresa => f.(nroTelefonoEmpresa := value)
  }

  /** `{cuitEmpresa, ...formData}` */
  function Merge(cuitEmpresa: string, f: FormData): (d: DatosEmpresa)
    ensures d.cuitEmpresa == cuitEmpresa
    ensures d.nombreEmpresa == Get(f, NombreEmpresa) && d.direccionEmpresa == Get(f, DireccionEmpresa)
    ensures d.codigoPostalEmpresa == Get(f, CodigoPostalEmpresa) && d.nroTelefonoEmpresa == Get(f, NroTelefonoEmpresa)
  {
    DatosEmpresa(cuitEmpresa, f.nombreEmpresa, f.direccionEmpresa, f.codigoPostalEmpresa, f.nroTelefonoEmpresa)
  }

  /** The postal-code input's filter: `value.replace(/\D/g, "").slice(0, 4)`.
      Its output is digits only, at most four of them, and the first digits
      of the input in order. */
  function PostalFilter(value: string): (r: string)
    ensures AllDigits(r)
    ensures |r| == Min(4, |Digits(value)|)
    ensures r == Digits(value)[..|r|]
  {
    Slice(Digits(value), 0, 4)
  }

  /** `/^\d{4}$/` */
  predicate IsPostalCode(s: string) {
    |s| == 4 && AllDigits(s)
  }

  /** `/^\d{8,15}$/` applied after `replace(/[-\s]/g, "")` */
  predicate IsPhoneNumber(s: string) {
    var d := RemoveSeparators(s);
    8 <= |d| <= 15 && AllDigits(d)
  }

  /** The checks of `validarDatos`, in the order they run. */
  datatype Check =
    | NombreObligatorio
    | DireccionObligatoria
    | CodigoPostalObligatorio
    | CodigoPostalFormato
    | TelefonoObligatorio
    | TelefonoFormato
  {
    function Rank(): nat {
      match this
      case NombreObligatorio => 0
      case DireccionObligatoria => 1
      case CodigoPostalObligatorio => 2
      case CodigoPostalFormato => 3
      case TelefonoObligatorio => 4
      case TelefonoFormato => 5
    }

    /** The message `validarDatos` returns for this check. */
    function Message(): (m: string)
      ensures m != ""
    {
      match this
      case NombreObligatorio => "El nombre de la empresa es obligatorio"
      case DireccionObligatoria => "La dirección es obligatoria"
      case CodigoPostalObligatorio => "El código postal es obligatorio"
      case CodigoPostalFormato => "El código postal debe tener 4 dígitos"
      case TelefonoObligatorio => "El número de teléfono es obligatorio"
      case TelefonoFormato => "El teléfono debe tener entre 8 y 15 dígitos"
    }
  }

  /** Whether one check, taken on its own, rejects the form. */
  predicate Fails(f: FormData, c: Check) {
    match c
    case NombreObligatorio => IsBlank(f.nombreEmpresa)
    case DireccionObligatoria => IsBlank(f.direccionEmpresa)
    case CodigoPostalObligatorio => IsBlank(f.codigoPostalEmpresa)
    case CodigoPostalFormato => !IsPostalCode(f.codigoPostalEmpresa)
    case TelefonoObligatorio => IsBlank(f.nroTelefonoEmpresa)
    case TelefonoFormato => !IsPhoneNumber(f.nroTelefonoEmpresa)
  }

  /** `validarDatos`: `None` stands for `null`, `Some(c)` for the message of
      check `c`. The result is the first check, in order, that fails. */
  function ValidarDatos(f: FormData): (r: Option<Check>)
    ensures r.None? ==> forall c :: !Fails(f, c)
    ensures r.Some? ==> Fails(f, r.value) && forall c: Check :: c.Rank() < r.value.Rank() ==> !Fails(f, c)
  {
    if IsBlank(f.nombreEmpresa) then Some(NombreObligatorio)
    else if IsBlank(f.direccionEmpresa) then Some(DireccionObligatoria)
    else if IsBlank(f.codigoPostalEmpresa) then Some(CodigoPostalObligatorio)
    else if !IsPostalCode(f.codigoPostalEmpresa) then Some(CodigoPostalFormato)
    else if IsBlank(f.nroTelefonoEmpresa) then Some(TelefonoObligatorio)
    else if !IsPhoneNumber(f.nroTelefonoEmpresa) then Some(TelefonoFormato)
    else None
  }

  /** `formatCuit` of the step's header: `s[0,2) + "-" + s[2,10) + "-" + s[10,)`
      with clamped slicing, so always two characters longer. */
  function FormatCuit(cuit: string): (r: string)
    ensures |r| == |cuit| + 2
  {
    Slice(cuit, 0, 2) + "-" + Slice(cuit, 2, 10) + "-" + SliceFrom(cuit, 10)
  }

  /** The state of the details form. */
  class DatosForm {
    var formData: FormData
    var error: string

    constructor ()
      ensures formData == EmptyForm && error == ""
    {
      formData := EmptyForm;
      error := "";
    }

    /** `handleInputChange`: replaces exactly the named field. */
    method HandleInputChange(field: Field, value: string)
      modifies this
      ensures formData == Update(old(formData), field, value)
      ensures Get(formData, field) == value
      ensures forall other :: other != field ==> Get(formData, other) == Get(old(formData), other)
      ensures error == old(error)
    {
      formData := Update(formData, field, value);
    }

    /** The postal-code input's change event: the typed text is filtered
        before it is stored. */
    method HandlePostalChange(value: string)
      modifies this
      ensures formData == old(formData).(codigoPostalEmpresa := PostalFilter(value))
      ensures error == old(error)
    {
      var filtered := PostalFilter(value);
      HandleInputChange(CodigoPostalEmpresa, filtered);
    }

    /** `handleSubmit`, with the registration taken as instantaneous.
        `cuitEmpresa` is the component's prop; `registered` is the argument
        passed to `onEmpresaRegistrada`, if it is called. The fields are
        never changed. */
    method HandleSubmit(cuitEmpresa: string) returns (registered: Option<DatosEmpresa>)
      modifies this
      ensures formData == old(formData)
      ensures ValidarDatos(old(formData)).Some? ==> error == InconsistentMessage && registered == None
      ensures ValidarDatos(old(formData)).None? ==> error == "" && registered == Some(Merge(cuitEmpresa, old(formData)))
    {
      var validationError := ValidarDatos(formData);
      if validationError.Some? {
        error := InconsistentMessage;
        return None;
      }
      error := "";
      var empresaCompleta := DatosEmpresa(cuitEmpresa, formData.nombreEmpresa, formData.direccionEmpresa,
                                          formData.codigoPostalEmpresa, formData.nroTelefonoEmpresa);
      registered := Some(empresaCompleta);
    }
  }

  // ---------------------------------------------------------------------
  // Lemmas

  /** `validarDatos` accepts exactly the forms with a non-blank name and
      address, a four-digit postal code and an 8-to-15-digit phone number:
      the emptiness checks only choose which message is returned. */
  lemma ValidarDatosAcceptsIff(f: FormData)
    ensures ValidarDatos(f).None? <==>
      && !IsBlank(f.nombreEmpresa)
      && !IsBlank(f.direccionEmpresa)
      && IsPostalCode(f.codigoPostalEmpresa)
      && IsPhoneNumber(f.nroTelefonoEmpresa)
  {
    if IsPostalCode(f.codigoPostalEmpresa) {
      AllDigitsNotBlank(f.codigoPostalEmpresa);
    }
    if IsBlank(f.nroTelefonoEmpresa) {
      BlankStripsToEmpty(f.nroTelefonoEmpresa);
    }
  }

  /** Filtering an already filtered postal code changes nothing. */
  lemma PostalFilterIdempotent(value: string)
    ensures PostalFilter(PostalFilter(value)) == PostalFilter(value)
  {
    var r := PostalFilter(value);
    FilterKeepsAll(r, IsDigit);
  }

  /** After any sequence of postal-code change events the stored postal code
      is at most four digits; whether it passes the format check depends only
      on whether four digits were typed. */
  lemma PostalFilterPassesIff(value: string)
    ensures IsPostalCode(PostalFilter(value)) <==> |Digits(value)| >= 4
  {
  }
}
