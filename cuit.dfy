/** The CUIT entry step (components/ingresar-cuit.tsx): live reformatting of
    the typed tax id into the 2-8-1 grouping, the 11-digit check, and the
    submit decision table. */
module Cuit {
  import opened Text
  import opened Wrappers

  const InvalidMessage: string := "Los datos ingresados no son válidos. Intenta nuevamente."
  const RegisteredMessage: string := "La empresa ya se encuentra registrada en el sistema"
  const UnexpectedMessage: string := "Error inesperado. Intente nuevamente."

  /** The one CUIT the mocked registry reports as already registered. */
  const RegisteredSentinel: string := "11111111111"
  /** The error code the mocked registry throws for it. */
  const ExistingCompanyCode: string := "EMPRESA_EXISTENTE"

  /** A canonical CUIT: exactly eleven ASCII digits. */
  predicate IsCuitDigits(s: string) {
    |s| == 11 && AllDigits(s)
  }

  /** `validarCuit`: after removing hyphens and white space, exactly eleven
      digits remain (the regular expression `^\d{11}$`). No check digit is
      verified. */
  predicate ValidarCuit(cuit: string)
    ensures ValidarCuit(cuit) ==> |Digits(cuit)| == 11
  {
    var stripped := RemoveSeparators(cuit);
    FilterFilter(cuit, NotSeparator, IsDigit);
    FilterKeepsAll(stripped, IsDigit);
    IsCuitDigits(stripped)
  }

  /** The grouping applied to at most eleven digits: two or fewer stay bare,
      three to ten become `DD-D…`, eleven become `DD-DDDDDDDD-D`. */
  function Group(limited: string): string {
    if 3 <= |limited| <= 10 then Slice(limited, 0, 2) + "-" + SliceFrom(limited, 2)
    else if |limited| == 11 then Slice(limited, 0, 2) + "-" + Slice(limited, 2, 10) + "-" + SliceFrom(limited, 10)
    else limited
  }

  /** `formatCuit` of the entry field: keep the digits, cap them at eleven and
      group them. Removing the hyphens gives back the first eleven digits of
      the input, in order. */
  function FormatCuit(value: string): (r: string)
    ensures RemoveHyphens(r) == Digits(value)[..Min(11, |Digits(value)|)]
  {
    var limited := Slice(Digits(value), 0, 11);
    GroupKeepsDigits(limited);
    Group(limited)
  }

  /** The text `handleCuitChange` stores: a value that is digits once its
      hyphens are removed (the empty string included) is reformatted, any
      other value is kept as typed. */
  function ChangedText(value: string): (r: string)
    ensures AllDigits(RemoveHyphens(value)) ==> RemoveHyphens(r) == Slice(RemoveHyphens(value), 0, 11)
    ensures AllDigits(RemoveHyphens(value)) ==> r == FormatCuit(value)
    ensures !AllDigits(RemoveHyphens(value)) ==> r == value
  {
    HyphenFreeDigits(value);
    if AllDigits(RemoveHyphens(value)) then FormatCuit(value) else value
  }

  /** The decision `handleSubmit` takes on the field's content. */
  datatype SubmitOutcome =
    | Blank                   // white space only: message, field kept
    | Invalid                 // not eleven digits: message, field cleared
    | AlreadyRegistered       // the sentinel: message, field cleared
    | Forwarded(cuit: string) // `onCuitValidado` receives the stripped digits

  function Decide(input: string): (o: SubmitOutcome)
    ensures o.Forwarded? ==> IsCuitDigits(o.cuit) && o.cuit != RegisteredSentinel
  {
    if IsBlank(input) then Blank
    else if !ValidarCuit(input) then Invalid
    else if RemoveSeparators(input) == RegisteredSentinel then AlreadyRegistered
    else Forwarded(RemoveSeparators(input))
  }

  /** The `catch` block's mapping from an error code to the message shown. */
  function ErrorMessage(code: string): (m: string)
    ensures m == RegisteredMessage <==> code == ExistingCompanyCode
    ensures m != RegisteredMessage ==> m == UnexpectedMessage
  {
    if code == ExistingCompanyCode then RegisteredMessage else UnexpectedMessage
  }

  /** The state of the CUIT entry form: the field's text and the error shown. */
  class CuitEntry {
    var cuitEmpresa: string
    var error: string

    constructor ()
      ensures cuitEmpresa == "" && error == ""
    {
      cuitEmpresa := "";
      error := "";
    }

    /** `handleCuitChange`: the input's change event. */
    method HandleCuitChange(value: string)
      modifies this
      ensures AllDigits(RemoveHyphens(value)) ==> cuitEmpresa == FormatCuit(value)
      ensures !AllDigits(RemoveHyphens(value)) ==> cuitEmpresa == value
      ensures cuitEmpresa == ChangedText(value)
      ensures error == old(error)
    {
      if AllDigits(RemoveHyphens(value)) {
        cuitEmpresa := FormatCuit(value);
      } else {
        cuitEmpresa := value;
      }
    }

    /** `handleSubmit`, with the registry's lookup taken as instantaneous.
        `forwarded` is the argument passed to `onCuitValidado`, if it is called. */
    method HandleSubmit() returns (forwarded: Option<string>)
      modifies this
      ensures Decide(old(cuitEmpresa)).Blank? ==>
        error == InvalidMessage && cuitEmpresa == old(cuitEmpresa) && forwarded == None
      ensures Decide(old(cuitEmpresa)).Invalid? ==>
        error == InvalidMessage && cuitEmpresa == "" && forwarded == None
      ensures Decide(old(cuitEmpresa)).AlreadyRegistered? ==>
        error == RegisteredMessage && cuitEmpresa == "" && forwarded == None
      ensures Decide(old(cuitEmpresa)).Forwarded? ==>
        error == "" && cuitEmpresa == old(cuitEmpresa) && forwarded == Some(Decide(old(cuitEmpresa)).cuit)
    {
      forwarded := None;
      if IsBlank(cuitEmpresa) {
        error := InvalidMessage;
        return;
      }
      if !ValidarCuit(cuitEmpresa) {
        error := InvalidMessage;
        cuitEmpresa := "";
        return;
      }
      error := "";
      var cuitLimpio := RemoveSeparators(cuitEmpresa);
      var thrown: Option<string> := None;
      if cuitLimpio == RegisteredSentinel {
        thrown := Some(ExistingCompanyCode);
      }
      if thrown.None? {
        forwarded := Some(cuitLimpio);
      } else {
        error := ErrorMessage(thrown.value);
        cuitEmpresa := "";
      }
    }
  }

  // ---------------------------------------------------------------------
  // Lemmas about the formatter

  /** Text that is digits once its hyphens are removed has those as its
      digits. */
  lemma HyphenFreeDigits(value: string)
    ensures AllDigits(RemoveHyphens(value)) ==> Digits(value) == RemoveHyphens(value)
  {
    FilterFilter(value, NotHyphen, IsDigit);
    FilterKeepsAll(RemoveHyphens(value), IsDigit);
  }

  lemma DigitsKeepAll(s: string)
    requires AllDigits(s)
    ensures Digits(s) == s && RemoveHyphens(s) == s && RemoveSeparators(s) == s
  {
    FilterKeepsAll(s, IsDigit);
    FilterKeepsAll(s, NotHyphen);
    FilterKeepsAll(s, NotSeparator);
  }

  lemma AllDigitsSlice(s: string, start: nat, end: nat)
    requires AllDigits(s)
    ensures AllDigits(Slice(s, start, end))
  {
  }

  /** Grouping only inserts hyphens: removing them gives back the digits. */
  lemma GroupKeepsDigits(limited: string)
    requires AllDigits(limited)
    ensures RemoveHyphens(Group(limited)) == limited
  {
    var n := |limited|;
    if 3 <= n <= 10 {
      TwoGroupsKeepDigits(limited);
    } else if n == 11 {
      ThreeGroupsKeepDigits(limited);
    } else {
      DigitsKeepAll(limited);
    }
  }

  lemma TwoGroupsKeepDigits(limited: string)
    requires AllDigits(limited) && 3 <= |limited|
    ensures RemoveHyphens(Slice(limited, 0, 2) + "-" + SliceFrom(limited, 2)) == limited
  {
    var a, b := Slice(limited, 0, 2), SliceFrom(limited, 2);
    AllDigitsSlice(limited, 0, 2);
    AllDigitsSlice(limited, 2, |limited|);
    DigitsKeepAll(a);
    DigitsKeepAll(b);
    RemoveHyphensJoin(a, b);
    assert a + b == limited;
  }

  lemma ThreeGroupsKeepDigits(limited: string)
    requires AllDigits(limited) && |limited| == 11
    ensures RemoveHyphens(Slice(limited, 0, 2) + "-" + Slice(limited, 2, 10) + "-" + SliceFrom(limited, 10)) == limited
  {
    var a, b, c := Slice(limited, 0, 2), Slice(limited, 2, 10), SliceFrom(limited, 10);
    AllDigitsSlice(limited, 0, 2);
    AllDigitsSlice(limited, 2, 10);
    AllDigitsSlice(limited, 10, 11);
    DigitsKeepAll(a);
    DigitsKeepAll(b);
    DigitsKeepAll(c);
    RemoveHyphensJoin(a + "-" + b, c);
    RemoveHyphensJoin(a, b);
    FilterConcat(a, b, NotHyphen);
    assert a + b + c == limited;
  }

  /** The output's shape depends only on how many digits were kept: hyphens
      stand at index 2 (from three digits on) and at index 11 (with eleven),
      and every other character is a digit. */
  lemma FormatCuitShape(value: string)
    ensures var n := Min(11, |Digits(value)|);
            var r := FormatCuit(value);
            && |r| == (if n <= 2 then n else if n <= 10 then n + 1 else n + 2)
            && (forall i :: 0 <= i < |r| ==> (r[i] == '-' <==> (i == 2 && n >= 3) || (i == 11 && n == 11)))
            && (forall i :: 0 <= i < |r| && r[i] != '-' ==> IsDigit(r[i]))
  {
    var limited := Slice(Digits(value), 0, 11);
    var r := FormatCuit(value);
    assert AllDigits(limited);
    assert r == Group(limited);
  }

  /** Digits already grouped come out unchanged: `formatCuit` is idempotent. */
  lemma FormatCuitIdempotent(value: string)
    ensures FormatCuit(FormatCuit(value)) == FormatCuit(value)
  {
    var r := FormatCuit(value);
    var d := Digits(value);
    var limited := Slice(d, 0, 11);
    assert limited == d[..Min(11, |d|)];
    FormatCuitShape(value);
    FilterFilter(r, NotHyphen, IsDigit);
    assert Digits(r) == Digits(RemoveHyphens(r));
    DigitsKeepAll(limited);
    assert Digits(r) == limited;
    assert Slice(Digits(r), 0, 11) == limited;
  }

  /** The live formatter never produces text that the change handler would
      pass through verbatim, and re-applying the handler to its own output
      changes nothing. */
  lemma ChangedTextIdempotent(value: string)
    ensures ChangedText(ChangedText(value)) == ChangedText(value)
  {
    if AllDigits(RemoveHyphens(value)) {
      var r := FormatCuit(value);
      var d := Digits(value);
      assert RemoveHyphens(r) == d[..Min(11, |d|)];
      assert AllDigits(RemoveHyphens(r));
      FormatCuitIdempotent(value);
    }
  }

  // ---------------------------------------------------------------------
  // Lemmas about validation and the submit decision

  /** A blank field never validates, so the blank check only decides whether
      the field is cleared. */
  lemma BlankNeverValid(s: string)
    requires IsBlank(s)
    ensures RemoveSeparators(s) == [] && !ValidarCuit(s)
  {
    BlankStripsToEmpty(s);
  }

  /** An independent reading of `validarCuit`: the input holds only digits,
      hyphens and white space, and exactly eleven digits. */
  lemma ValidarCuitIff(cuit: string)
    ensures ValidarCuit(cuit) <==>
      && (forall i :: 0 <= i < |cuit| ==> IsDigit(cuit[i]) || !NotSeparator(cuit[i]))
      && |Digits(cuit)| == 11
  {
    var stripped := RemoveSeparators(cuit);
    FilterFilter(cuit, NotSeparator, IsDigit);
    FilterMembers(cuit, NotSeparator);
    if ValidarCuit(cuit) {
      DigitsKeepAll(stripped);
      forall i | 0 <= i < |cuit| ensures IsDigit(cuit[i]) || !NotSeparator(cuit[i]) {
        if NotSeparator(cuit[i]) {
          assert cuit[i] in stripped;
        }
      }
    }
    if forall i :: 0 <= i < |cuit| ==> IsDigit(cuit[i]) || !NotSeparator(cuit[i]) {
      assert AllDigits(stripped) by {
        forall j | 0 <= j < |stripped| ensures IsDigit(stripped[j]) {
          assert stripped[j] in cuit;
        }
      }
      DigitsKeepAll(stripped);
    }
  }

  /** `onCuitValidado` is called exactly for the valid non-sentinel inputs,
      with their stripped form. */
  lemma DecideForwardsIff(input: string)
    ensures Decide(input).Forwarded? <==> ValidarCuit(input) && RemoveSeparators(input) != RegisteredSentinel
    ensures Decide(input).Forwarded? ==> Decide(input).cuit == RemoveSeparators(input)
    ensures Decide(input).AlreadyRegistered? <==> RemoveSeparators(input) == RegisteredSentinel
    ensures Decide(input).Invalid? <==> !IsBlank(input) && !ValidarCuit(input)
  {
    if IsBlank(input) {
      BlankNeverValid(input);
    }
  }

  /** Every eleven-digit string other than the sentinel is forwarded
      unchanged. */
  lemma ElevenDigitsForwarded(s: string)
    requires IsCuitDigits(s) && s != RegisteredSentinel
    ensures Decide(s) == Forwarded(s)
  {
    DigitsKeepAll(s);
    AllDigitsNotBlank(s);
  }

  /** Removing separators from formatted text gives the kept digits. */
  lemma SeparatorsOfFormatted(value: string)
    ensures var d := Digits(value);
            RemoveSeparators(FormatCuit(value)) == d[..Min(11, |d|)]
  {
    var r := FormatCuit(value);
    var d := Digits(value);
    FilterFilter(r, NotHyphen, NotSeparator);
    assert AllDigits(d[..Min(11, |d|)]);
    DigitsKeepAll(d[..Min(11, |d|)]);
  }

  /** What submitting the live formatter's output does, by digit count:
      no digits is blank, one to ten digits is invalid, and eleven or more
      forwards the first eleven unless they are the sentinel. */
  lemma DecideFormatted(value: string)
    ensures var d := Digits(value);
            var o := Decide(FormatCuit(value));
            && (|d| == 0 ==> o == Blank)
            && (0 < |d| < 11 ==> o == Invalid)
            && (|d| >= 11 && d[..11] != RegisteredSentinel ==> o == Forwarded(d[..11]))
            && (|d| >= 11 && d[..11] == RegisteredSentinel ==> o == AlreadyRegistered)
  {
    var d := Digits(value);
    var r := FormatCuit(value);
    SeparatorsOfFormatted(value);
    FormatCuitShape(value);
    if |d| == 0 {
      assert r == [];
    } else {
      assert r[0] != '-' && IsDigit(r[0]);
      assert !IsBlank(r);
    }
  }
}
