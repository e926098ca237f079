/** The company registration page (app/page.tsx): the current step, the
    validated CUIT and the registered company, updated by the handlers the
    page passes to its three steps. */
module Registro {
  import opened Wrappers
  import Cuit
  import Datos
  import Registrada

  datatype Paso = PasoCuit | PasoDatos | PasoExito

  class RegistroWizard {
    var paso: Paso
    var cuitValidado: string
    var empresaRegistrada: Option<Datos.DatosEmpresa>
    /** The state of the CUIT step while it is shown. React discards it when
        the page leaves the step, so returning to the step starts afresh. */
    var entry: Cuit.CuitEntry
    /** The state of the details step, likewise remounted on entry. */
    var form: Datos.DatosForm

    /** The success step is shown exactly when a company is stored, so its
        screen always has a record to render. */
    ghost predicate Valid()
      reads this
    {
      paso == PasoExito <==> empresaRegistrada.Some?
    }

    /** What the wired steps guarantee besides: from the details step on,
        the CUIT is eleven digits, and the registered company carries it. */
    ghost predicate Consistent()
      reads this
    {
      && Valid()
      && (paso != PasoCuit ==> Cuit.IsCuitDigits(cuitValidado))
      && (paso == PasoExito ==> empresaRegistrada.value.cuitEmpresa == cuitValidado)
    }

    /** The first screen, with a freshly mounted, empty CUIT step. */
    ghost predicate Initial()
      reads this, entry
    {
      && paso == PasoCuit && cuitValidado == "" && empresaRegistrada == None
      && entry.cuitEmpresa == "" && entry.error == ""
    }

    constructor ()
      ensures Initial() && Consistent()
      ensures fresh(entry) && fresh(form)
    {
      paso := PasoCuit;
      cuitValidado := "";
      empresaRegistrada := None;
      entry := new Cuit.CuitEntry();
      form := new Datos.DatosForm();
    }

    /** `handleCuitValidado`, reachable only from the CUIT step: the details
        step is mounted with empty fields. */
    method HandleCuitValidado(cuit: string)
      requires Valid() && paso == PasoCuit
      modifies this
      ensures Valid()
      ensures paso == PasoDatos && cuitValidado == cuit
      ensures empresaRegistrada == old(empresaRegistrada) && entry == old(entry)
      ensures fresh(form) && form.formData == Datos.EmptyForm && form.error == ""
    {
      cuitValidado := cuit;
      paso := PasoDatos;
      form := new Datos.DatosForm();
    }

    /** `handleEmpresaRegistrada`. It is meant to be called from the details
        step, but it moves to the success step from any step. */
    method HandleEmpresaRegistrada(datos: Datos.DatosEmpresa)
      modifies this
      ensures Valid()
      ensures paso == PasoExito && empresaRegistrada == Some(datos)
      ensures cuitValidado == old(cuitValidado) && entry == old(entry) && form == old(form)
    {
      empresaRegistrada := Some(datos);
      paso := PasoExito;
    }

    /** `handleNuevoRegistro`: back to exactly the initial state, with a
        freshly mounted CUIT step. */
    method HandleNuevoRegistro()
      modifies this
      ensures Initial() && Consistent()
      ensures fresh(entry)
    {
      paso := PasoCuit;
      cuitValidado := "";
      empresaRegistrada := None;
      entry := new Cuit.CuitEntry();
    }

    /** The details step's Volver (and Cancelar) button: the CUIT step is
        mounted again, with an empty field. */
    method Volver()
      requires Consistent() && paso == PasoDatos
      modifies this
      ensures Consistent()
      ensures paso == PasoCuit
      ensures cuitValidado == old(cuitValidado) && empresaRegistrada == old(empresaRegistrada)
      ensures fresh(entry) && entry.cuitEmpresa == "" && entry.error == ""
    {
      paso := PasoCuit;
      entry := new Cuit.CuitEntry();
    }

    /** Submitting the CUIT step, whose `onCuitValidado` is
        `handleCuitValidado`: the page moves on exactly when the step
        forwards a CUIT, and then holds that CUIT and an empty details
        step. */
    method SubmitCuit()
      requires Consistent() && paso == PasoCuit
      modifies this, entry
      ensures Consistent()
      ensures entry == old(entry)
      ensures var o := Cuit.Decide(old(entry.cuitEmpresa));
              if o.Forwarded? then
                paso == PasoDatos && cuitValidado == o.cuit
                && fresh(form) && form.formData == Datos.EmptyForm && form.error == ""
              else paso == PasoCuit && cuitValidado == old(cuitValidado) && form == old(form)
      ensures empresaRegistrada == old(empresaRegistrada)
      ensures var o := Cuit.Decide(old(entry.cuitEmpresa));
              && (o.Blank? ==> entry.error == Cuit.InvalidMessage && entry.cuitEmpresa == old(entry.cuitEmpresa))
              && (o.Invalid? ==> entry.error == Cuit.InvalidMessage && entry.cuitEmpresa == "")
              && (o.AlreadyRegistered? ==> entry.error == Cuit.RegisteredMessage && entry.cuitEmpresa == "")
              && (o.Forwarded? ==> entry.error == "" && entry.cuitEmpresa == old(entry.cuitEmpresa))
    {
      var forwarded := entry.HandleSubmit();
      if forwarded.Some? {
        HandleCuitValidado(forwarded.value);
      }
    }

    /** Submitting the details step, which receives `cuitValidado` as its
        CUIT and whose `onEmpresaRegistrada` is `handleEmpresaRegistrada`. */
    method SubmitDatos()
      requires Consistent() && paso == PasoDatos
      modifies this, form
      ensures Consistent()
      ensures cuitValidado == old(cuitValidado) && entry == old(entry) && form == old(form)
      ensures Datos.ValidarDatos(old(form.formData)).None? ==>
        paso == PasoExito && empresaRegistrada == Some(Datos.Merge(cuitValidado, old(form.formData)))
      ensures Datos.ValidarDatos(old(form.formData)).Some? ==>
        paso == PasoDatos && empresaRegistrada == old(empresaRegistrada)
      ensures form.formData == old(form.formData)
      ensures form.error == if Datos.ValidarDatos(old(form.formData)).Some? then Datos.InconsistentMessage else ""
    {
      var registered := form.HandleSubmit(cuitValidado);
      if registered.Some? {
        HandleEmpresaRegistrada(registered.value);
      }
    }
  }

  /** A whole registration: typing "20-12345678-9", continuing, filling in
      valid details and submitting leads to the success step, whose record
      holds "20123456789" and whose display shows "20-12345678-9". */
  method RegistrationScenario(typed: string, cuit: string, postal: string, telefono: string) returns (shown: string)
    requires typed == "20-12345678-9" && cuit == "20123456789"
    requires postal == "1043" && telefono == "1112345678"
    ensures shown == typed
  {
    Registrada.WorkedExample(typed, cuit);
    var page := new RegistroWizard();
    page.entry.HandleCuitChange(typed);
    page.SubmitCuit();
    assert page.paso == PasoDatos && page.cuitValidado == cuit;

    var form := page.form;
    form.HandleInputChange(Datos.NombreEmpresa, "TechCorp S.A.");
    form.HandleInputChange(Datos.DireccionEmpresa, "Av. Corrientes 1234");
    form.HandlePostalChange(postal);
    form.HandleInputChange(Datos.NroTelefonoEmpresa, telefono);
    ValidExampleDetails(form.formData, postal);
    page.SubmitDatos();
    assert page.paso == PasoExito;
    shown := Registrada.FormatCuit(page.empresaRegistrada.value.cuitEmpresa);
  }

  lemma ValidExampleDetails(f: Datos.FormData, postal: string)
    requires |f.nombreEmpresa| > 0 && f.nombreEmpresa[0] == 'T'
    requires |f.direccionEmpresa| > 0 && f.direccionEmpresa[0] == 'A'
    requires postal == "1043" && f.codigoPostalEmpresa == Datos.PostalFilter(postal)
    requires f.nroTelefonoEmpresa == "1112345678"
    ensures Datos.ValidarDatos(f).None?
  {
    Cuit.DigitsKeepAll(postal);
    Cuit.DigitsKeepAll(f.nroTelefonoEmpresa);
    Datos.ValidarDatosAcceptsIff(f);
  }
}
