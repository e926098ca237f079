/** The project lookup step (components/ingresar-proyecto.tsx): input
    validation, the mocked lookup keyed on sentinel numbers, the error-code
    to message mapping, and the fixed project template. */
module Proyecto {
  import opened Text
  import opened Wrappers

  /** One confirmed student application. */
  datatype Estudiante = Estudiante(
    numeroPostulacion: string,
    nombreCompleto: string,
    dni: string,
    correoInstitucional: string,
    carrera: string)

  /** `ProyectoData`, shaped after the literal the mocked lookup builds. */
  datatype ProyectoData = ProyectoData(
    numeroProyecto: string,
    nombreProyecto: string,
    empresa: string,
    estudiantesConfirmados: seq<Estudiante>)

  const InvalidMessage: string := "Los datos ingresados no son válidos. Intenta nuevamente."
  const UnexpectedMessage: string := "Error inesperado. Intente nuevamente."

  // The error codes the mocked lookup throws
  const NotFoundCode: string := "PROYECTO_NO_ENCONTRADO"
  const WrongStateCode: string := "ESTADO_INCORRECTO"
  const NotFinalCode: string := "PROCESO_NO_DEFINITIVO"
  const UnconfirmedCode: string := "SIN_POSTULACIONES_CONFIRMADAS"

  /** `/^\d+$/`: one or more ASCII digits. */
  predicate IsProjectNumber(s: string) {
    |s| > 0 && AllDigits(s)
  }

  /** The project every non-sentinel number finds: it carries that number
      and three confirmed applications with distinct application numbers. */
  function Template(numeroProyecto: string): (p: ProyectoData)
    ensures p.numeroProyecto == numeroProyecto
    ensures |p.estudiantesConfirmados| == 3
    ensures forall i, j :: 0 <= i < j < 3 ==>
      p.estudiantesConfirmados[i].numeroPostulacion != p.estudiantesConfirmados[j].numeroPostulacion
  {
    ProyectoData(numeroProyecto, "Sistema de Gestión Empresarial", "TechCorp S.A.", [
      Estudiante("POST-001", "Ana García Rodríguez", "12345678",
                 "ana.garcia@universidad.edu", "Ingeniería en Sistemas"),
      Estudiante("POST-002", "Carlos López Martínez", "87654321",
                 "carlos.lopez@universidad.edu", "Ingeniería Industrial"),
      Estudiante("POST-003", "María Fernández Silva", "11223344",
                 "maria.fernandez@universidad.edu", "Ingeniería en Sistemas")
    ])
  }

  /** The mocked lookup: four numbers, compared as exact strings, throw their
      own error code; every other number finds the template project. */
  function Lookup(numeroProyecto: string): (r: Result<ProyectoData, string>)
    ensures r.Ok? <==> numeroProyecto !in {"999", "555", "777", "444"}
    ensures r.Ok? ==> r.value.numeroProyecto == numeroProyecto && |r.value.estudiantesConfirmados| == 3
  {
    if numeroProyecto == "999" then Err(NotFoundCode)
    else if numeroProyecto == "555" then Err(WrongStateCode)
    else if numeroProyecto == "777" then Err(NotFinalCode)
    else if numeroProyecto == "444" then Err(UnconfirmedCode)
    else Ok(Template(numeroProyecto))
  }

  /** The `catch` block's `switch` from an error code to the message shown;
      any other code gives the generic message. */
  function ErrorMessage(code: string): (m: string)
    ensures m != ""
    ensures code !in {NotFoundCode, WrongStateCode, NotFinalCode, UnconfirmedCode} <==> m == UnexpectedMessage
  {
    if code == NotFoundCode then "No se ha podido encontrar el proyecto ingresado. Intente nuevamente"
    else if code == WrongStateCode then "El proyecto no está en estado \"En evaluación\"."
    else if code == NotFinalCode then "El proceso de selección no está en estado \"Definitivo\"."
    else if code == UnconfirmedCode then "En el proyecto ingresado, hay postulaciones que no se encuentran en estado \"Confirmado\""
    else UnexpectedMessage
  }

  /** The message a submission of `numeroProyecto` leaves on screen: none
      exactly for a digit string that is not a sentinel. */
  function SubmitError(numeroProyecto: string): (m: string)
    ensures m == "" <==> IsProjectNumber(numeroProyecto) && numeroProyecto !in {"999", "555", "777", "444"}
  {
    BlankIsNotProjectNumber(numeroProyecto);
    assert |InvalidMessage| == 56;
    if IsBlank(numeroProyecto) || !IsProjectNumber(numeroProyecto) then InvalidMessage
    else match Lookup(numeroProyecto)
      case Ok(_) => ""
      case Err(code) => ErrorMessage(code)
  }

  /** The project handed to `onProyectoValidado`, if any: the template
      for exactly the digit strings that are not sentinels. */
  function SubmitFound(numeroProyecto: string): (r: Option<ProyectoData>)
    ensures r.Some? <==> IsProjectNumber(numeroProyecto) && numeroProyecto !in {"999", "555", "777", "444"}
    ensures r.Some? ==> r.value == Template(numeroProyecto)
  {
    BlankIsNotProjectNumber(numeroProyecto);
    if IsBlank(numeroProyecto) || !IsProjectNumber(numeroProyecto) then None
    else match Lookup(numeroProyecto)
      case Ok(p) => Some(p)
      case Err(_) => None
  }

  /** The state of the project entry form. */
  class ProyectoForm {
    var numeroProyecto: string
    var error: string

    constructor ()
      ensures numeroProyecto == "" && error == ""
    {
      numeroProyecto := "";
      error := "";
    }

    /** The input's change event stores the text as typed. */
    method HandleChange(value: string)
      modifies this
      ensures numeroProyecto == value && error == old(error)
    {
      numeroProyecto := value;
    }

    /** `handleSubmit`, with the lookup taken as instantaneous. `found` is
        the argument passed to `onProyectoValidado`, if it is called. The
        field is never cleared. */
    method HandleSubmit() returns (found: Option<ProyectoData>)
      modifies this
      ensures numeroProyecto == old(numeroProyecto)
      ensures error == SubmitError(old(numeroProyecto))
      ensures found == SubmitFound(old(numeroProyecto))
    {
      found := None;
      if IsBlank(numeroProyecto) {
        error := InvalidMessage;
        return;
      }
      if !IsProjectNumber(numeroProyecto) {
        error := InvalidMessage;
        return;
      }
      error := "";
      var response := Lookup(numeroProyecto);
      if response.Ok? {
        found := Some(response.value);
      } else {
        error := ErrorMessage(response.error);
      }
    }

    /** The Limpiar button: clears both the field and the message. */
    method Limpiar()
      modifies this
      ensures numeroProyecto == "" && error == ""
    {
      numeroProyecto := "";
      error := "";
    }
  }

  // ---------------------------------------------------------------------
  // Lemmas

  /** Blank input never reaches the lookup, and neither does anything that
      is not all digits: letters, signs and spaces give the generic message. */
  lemma InvalidInputRejected(numeroProyecto: string)
    requires IsBlank(numeroProyecto) || exists i :: 0 <= i < |numeroProyecto| && !IsDigit(numeroProyecto[i])
    ensures SubmitError(numeroProyecto) == InvalidMessage && SubmitFound(numeroProyecto) == None
  {
  }

  /** The blank check is subsumed by the digit check: both give the same
      message, so only the digit check decides. */
  lemma BlankIsNotProjectNumber(s: string)
    ensures IsBlank(s) ==> !IsProjectNumber(s)
  {
    if IsBlank(s) && s != [] {
      assert IsSpace(s[0]);
    }
  }

  /** Each sentinel gives its own message, distinct from the others, from
      the generic validation message and from the unexpected-error message. */
  lemma SentinelMessagesDistinct(a: string, b: string)
    requires a in {"999", "555", "777", "444"} && b in {"999", "555", "777", "444"}
    ensures SubmitFound(a) == None
    ensures SubmitError(a) !in {"", InvalidMessage, UnexpectedMessage}
    ensures a != b ==> SubmitError(a) != SubmitError(b)
  {
    SentinelReachesLookup(a);
    SentinelReachesLookup(b);
    CodeMessagesDistinct(Lookup(a).error, Lookup(b).error);
  }

  lemma SentinelReachesLookup(a: string)
    requires a in {"999", "555", "777", "444"}
    ensures Lookup(a).Err? && SubmitError(a) == ErrorMessage(Lookup(a).error) && SubmitFound(a) == None
    ensures Lookup(a).error in {NotFoundCode, WrongStateCode, NotFinalCode, UnconfirmedCode}
  {
    assert IsProjectNumber(a);
    AllDigitsNotBlank(a);
  }

  lemma CodeMessagesDistinct(c: string, d: string)
    requires c in {NotFoundCode, WrongStateCode, NotFinalCode, UnconfirmedCode}
    requires d in {NotFoundCode, WrongStateCode, NotFinalCode, UnconfirmedCode}
    ensures ErrorMessage(c) !in {"", InvalidMessage, UnexpectedMessage}
    ensures c != d ==> ErrorMessage(c) != ErrorMessage(d)
  {
    var ms := [ErrorMessage(NotFoundCode), ErrorMessage(WrongStateCode),
               ErrorMessage(NotFinalCode), ErrorMessage(UnconfirmedCode)];
    assert |ms[0]| == 67 && |ms[1]| == 46 && |ms[2]| == 55 && |ms[3]| == 87;
    assert |InvalidMessage| == 56 && |UnexpectedMessage| == 37;
  }

  /** Every other digit string, including ones that only look like a
      sentinel such as "0999", finds the template project with that number
      and the three applications POST-001, POST-002 and POST-003 in order. */
  lemma OtherNumbersFound(numeroProyecto: string)
    requires IsProjectNumber(numeroProyecto) && numeroProyecto !in {"999", "555", "777", "444"}
    ensures SubmitError(numeroProyecto) == ""
    ensures var found := SubmitFound(numeroProyecto);
            && found.Some?
            && found.value.numeroProyecto == numeroProyecto
            && |found.value.estudiantesConfirmados| == 3
            && found.value.estudiantesConfirmados[0].numeroPostulacion == "POST-001"
            && found.value.estudiantesConfirmados[1].numeroPostulacion == "POST-002"
            && found.value.estudiantesConfirmados[2].numeroPostulacion == "POST-003"
  {
    AllDigitsNotBlank(numeroProyecto);
  }

  /** Sentinel matching is by exact string: "0999" is found. */
  lemma LeadingZeroIsNotSentinel()
    ensures SubmitFound("0999") == Some(Template("0999"))
  {
    assert IsProjectNumber("0999");
    AllDigitsNotBlank("0999");
  }
}
