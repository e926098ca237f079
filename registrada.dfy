/** The registration success screen (components/empresa-registrada.tsx):
    the CUIT display formatter, and how it closes the round trip from the
    typed CUIT through the entry step's stripping. */
module Registrada {
  import opened Text
  import Cuit
  import Datos

  /** `formatCuit` of the success screen: `s[0,2) + "-" + s[2,10) + "-" + s[10,)`
      with clamped slicing. For every input it only inserts two hyphens, the
      first after at most two characters and the second after at most ten. */
  function FormatCuit(cuit: string): (r: string)
    ensures |r| == |cuit| + 2
    ensures r[Min(2, |cuit|)] == '-' && r[Min(10, |cuit|) + 1] == '-'
    ensures RemoveHyphens(r) == RemoveHyphens(cuit)
    ensures r[..Min(2, |cuit|)] + r[Min(2, |cuit|) + 1..Min(10, |cuit|) + 1] + r[Min(10, |cuit|) + 2..] == cuit
  {
    var a, b, c := Slice(cuit, 0, 2), Slice(cuit, 2, 10), SliceFrom(cuit, 10);
    SliceThree(cuit);
    RemoveHyphensJoin(a + "-" + b, c);
    RemoveHyphensJoin(a, b);
    FilterConcat(a, b, NotHyphen);
    FilterConcat(a + b, c, NotHyphen);
    var r := a + "-" + b + "-" + c;
    assert r[..|a|] == a && r[|a| + 1..|a| + 1 + |b|] == b && r[|a| + |b| + 2..] == c;
    r
  }

  /** A hyphen-free CUIT comes back unchanged once the display hyphens are
      removed. */
  lemma DisplayRoundTrip(cuit: string)
    requires forall i :: 0 <= i < |cuit| ==> cuit[i] != '-'
    ensures RemoveHyphens(FormatCuit(cuit)) == cuit
  {
    FilterKeepsAll(cuit, NotHyphen);
  }

  /** For an eleven-digit CUIT the hyphens sit at indices 2 and 11, giving
      digit groups of two, eight and one. */
  lemma ElevenDigitLayout(cuit: string)
    requires Cuit.IsCuitDigits(cuit)
    ensures var r := FormatCuit(cuit);
            && |r| == 13 && r[2] == '-' && r[11] == '-'
            && r[..2] == cuit[..2] && r[3..11] == cuit[2..10] && r[12..] == cuit[10..]
            && forall i :: 0 <= i < 13 && i != 2 && i != 11 ==> IsDigit(r[i])
  {
  }

  /** The success screen and the details step's header format every string
      alike. */
  lemma AgreesWithDetailsHeader(cuit: string)
    ensures FormatCuit(cuit) == Datos.FormatCuit(cuit)
  {
  }

  /** On eleven digits, the display formatter and the entry step's live
      formatter agree. */
  lemma AgreesWithEntryFormatter(cuit: string)
    requires Cuit.IsCuitDigits(cuit)
    ensures FormatCuit(cuit) == Cuit.FormatCuit(cuit)
  {
    Cuit.DigitsKeepAll(cuit);
    assert Slice(cuit, 0, 11) == cuit;
  }

  /** The whole round trip: digits and hyphens with at least eleven digits,
      typed into the entry field and submitted, forward the first eleven
      digits, and the success screen shows them exactly as the entry field
      displayed them. (Text with any other character is stored as typed;
      `Cuit.DecideForwardsIff` says what submitting it does.) */
  lemma TypedCuitShownBack(typed: string)
    requires AllDigits(RemoveHyphens(typed))
    requires |Digits(typed)| >= 11 && Digits(typed)[..11] != Cuit.RegisteredSentinel
    ensures var shown := Cuit.ChangedText(typed);
            var o := Cuit.Decide(shown);
            && shown == Cuit.FormatCuit(typed)
            && o == Cuit.Forwarded(Digits(typed)[..11])
            && FormatCuit(o.cuit) == shown
  {
    var d := Digits(typed);
    Cuit.DecideFormatted(typed);
    var c := d[..11];
    assert Cuit.IsCuitDigits(c);
    AgreesWithEntryFormatter(c);
    Cuit.DigitsKeepAll(c);
    assert Digits(c) == c;
    assert Slice(Digits(c), 0, 11) == Slice(d, 0, 11);
  }

  /** The worked example: "20-12345678-9" is kept as typed by the entry
      field, forwarded as "20123456789" and shown back as "20-12345678-9". */
  lemma WorkedExample(typed: string, cuit: string)
    requires typed == "20-12345678-9" && cuit == "20123456789"
    ensures Cuit.ChangedText(typed) == typed
    ensures Cuit.Decide(typed) == Cuit.Forwarded(cuit)
    ensures FormatCuit(cuit) == typed
  {
    assert Cuit.IsCuitDigits(cuit);
    Cuit.DigitsKeepAll(cuit);
    assert Slice(Digits(cuit), 0, 11) == cuit;
    assert Cuit.FormatCuit(cuit) == typed;
    Cuit.FormatCuitIdempotent(cuit);
    TypedCuitShownBack(cuit);
  }
}
