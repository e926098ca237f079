/** Contract numbering of the emission confirmation step
    (components/confirmar-emision.tsx): one id per confirmed student,
    `CONT-{numeroProyecto}-{sequence}`, the sequence number written in
    decimal and left-filled with `0` to three characters. */
module Emision {
  import opened Text
  import Proyecto

  function DigitChar(d: nat): (c: char)
    requires d < 10
    ensures IsDigit(c)
  {
    (48 + d) as char
  }

  function DigitValue(c: char): (d: nat)
    requires IsDigit(c)
    ensures d < 10
  {
    c as int - 48
  }

  /** `String(n)` for a natural number: its decimal digits, with no leading
      zero unless the number is zero. */
  function DecimalString(n: nat): (r: string)
    ensures |r| >= 1 && AllDigits(r)
    ensures r[0] == '0' ==> n == 0
  {
    if n < 10 then [DigitChar(n)] else DecimalString(n / 10) + [DigitChar(n % 10)]
  }

  /** The number a digit string denotes, leading zeros allowed. */
  function DecimalValue(s: string): nat
    requires AllDigits(s)
  {
    if s == [] then 0 else DecimalValue(s[..|s| - 1]) * 10 + DigitValue(s[|s| - 1])
  }

  function Repeat(c: char, n: nat): (r: string)
    ensures |r| == n && forall i :: 0 <= i < n ==> r[i] == c
  {
    seq(n, _ => c)
  }

  /** `s.padStart(width, fill)` with a one-character fill: never truncates,
      and only adds fill characters in front. */
  function PadStart(s: string, width: nat, fill: char): (r: string)
    ensures |r| == if |s| >= width then |s| else width
    ensures r[|r| - |s|..] == s
    ensures forall i :: 0 <= i < |r| - |s| ==> r[i] == fill
  {
    if |s| >= width then s else Repeat(fill, width - |s|) + s
  }

  /** `String(n).padStart(3, "0")`: at least three digits, ending with the
      decimal of `n`. */
  function SequenceNumber(n: nat): (r: string)
    ensures AllDigits(r) && |r| >= 3 && |r| >= |DecimalString(n)|
    ensures r[|r| - |DecimalString(n)|..] == DecimalString(n)
  {
    PadStart(DecimalString(n), 3, '0')
  }

  function ContractPrefix(numeroProyecto: string): string {
    "CONT-" + numeroProyecto + "-"
  }

  /** One contract id: the project's prefix, then a sequence number of at
      least three digits. */
  function ContractId(numeroProyecto: string, n: nat): (id: string)
    ensures var prefix := ContractPrefix(numeroProyecto);
            && |id| >= |prefix| + 3
            && id[..|prefix|] == prefix
            && id[|prefix|..] == SequenceNumber(n)
  {
    ContractPrefix(numeroProyecto) + SequenceNumber(n)
  }

  /** The ids `handleEmitirContratos` builds: a `map` over the confirmed
      students that ignores each student and uses only its index. */
  function ContractIds(p: Proyecto.ProyectoData): (ids: seq<string>)
    ensures |ids| == |p.estudiantesConfirmados|
  {
    seq(|p.estudiantesConfirmados|, i requires 0 <= i => ContractId(p.numeroProyecto, i + 1))
  }

  // ---------------------------------------------------------------------
  // Lemmas

  /** Reading back the decimal string of `n` gives `n`. */
  lemma {:induction false} DecimalRoundTrip(n: nat)
    ensures DecimalValue(DecimalString(n)) == n
  {
    var s := DecimalString(n);
    if n >= 10 {
      DecimalRoundTrip(n / 10);
      assert s[..|s| - 1] == DecimalString(n / 10);
    }
  }

  /** A leading zero does not change a digit string's value. */
  lemma {:induction false} LeadingZero(s: string)
    requires AllDigits(s)
    ensures DecimalValue(['0'] + s) == DecimalValue(s)
  {
    if s != [] {
      var t := ['0'] + s;
      assert t[..|t| - 1] == ['0'] + s[..|s| - 1];
      LeadingZero(s[..|s| - 1]);
    }
  }

  lemma {:induction false} LeadingZeros(k: nat, s: string)
    requires AllDigits(s)
    ensures AllDigits(Repeat('0', k) + s)
    ensures DecimalValue(Repeat('0', k) + s) == DecimalValue(s)
  {
    if k == 0 {
      assert Repeat('0', k) + s == s;
    } else {
      var t := Repeat('0', k - 1) + s;
      LeadingZeros(k - 1, s);
      assert Repeat('0', k) + s == ['0'] + t;
      LeadingZero(t);
    }
  }

  /** The padded sequence number is digits only, reads back as `n`, is at
      least three characters long and ends with the full decimal of `n`. */
  lemma SequenceNumberDecodes(n: nat)
    ensures var r := SequenceNumber(n);
            && AllDigits(r)
            && DecimalValue(r) == n
            && |r| >= 3
            && r[|r| - |DecimalString(n)|..] == DecimalString(n)
  {
    var d := DecimalString(n);
    DecimalRoundTrip(n);
    if |d| < 3 {
      LeadingZeros(3 - |d|, d);
    }
  }

  /** Two contract ids of one project are equal only for equal sequence
      numbers. */
  lemma ContractIdInjective(numeroProyecto: string, a: nat, b: nat)
    requires ContractId(numeroProyecto, a) == ContractId(numeroProyecto, b)
    ensures a == b
  {
    var prefix := ContractPrefix(numeroProyecto);
    var x, y := ContractId(numeroProyecto, a), ContractId(numeroProyecto, b);
    assert x[|prefix|..] == SequenceNumber(a);
    assert y[|prefix|..] == SequenceNumber(b);
    SequenceNumberDecodes(a);
    SequenceNumberDecodes(b);
  }

  /** One id per student, in list order: the i-th id is the project's prefix
      followed by a sequence number that reads back as i + 1. */
  lemma ContractIdsInOrder(p: Proyecto.ProyectoData)
    ensures var ids := ContractIds(p);
            var prefix := ContractPrefix(p.numeroProyecto);
            && |ids| == |p.estudiantesConfirmados|
            && forall i :: 0 <= i < |ids| ==>
                 && |ids[i]| > |prefix|
                 && ids[i][..|prefix|] == prefix
                 && AllDigits(ids[i][|prefix|..])
                 && DecimalValue(ids[i][|prefix|..]) == i + 1
  {
    var ids := ContractIds(p);
    var prefix := ContractPrefix(p.numeroProyecto);
    forall i | 0 <= i < |ids|
      ensures |ids[i]| > |prefix| && ids[i][..|prefix|] == prefix && AllDigits(ids[i][|prefix|..]) && DecimalValue(ids[i][|prefix|..]) == i + 1
    {
      assert ids[i] == ContractId(p.numeroProyecto, i + 1);
      assert ids[i][|prefix|..] == SequenceNumber(i + 1);
      SequenceNumberDecodes(i + 1);
    }
  }

  /** The ids are pairwise distinct, as they must be to serve as list keys. */
  lemma ContractIdsDistinct(p: Proyecto.ProyectoData)
    ensures var ids := ContractIds(p);
            forall i, j :: 0 <= i < j < |ids| ==> ids[i] != ids[j]
  {
    var ids := ContractIds(p);
    forall i, j | 0 <= i < j < |ids| ensures ids[i] != ids[j] {
      if ids[i] == ids[j] {
        ContractIdInjective(p.numeroProyecto, i + 1, j + 1);
      }
    }
  }

  /** The ids depend only on the project number and the number of students,
      never on the students themselves. */
  lemma ContractIdsIgnoreStudents(p: Proyecto.ProyectoData, q: Proyecto.ProyectoData)
    requires p.numeroProyecto == q.numeroProyecto
    requires |p.estudiantesConfirmados| == |q.estudiantesConfirmados|
    ensures ContractIds(p) == ContractIds(q)
  {
  }

  /** The three students of the template project for number "12345" get
      CONT-12345-001 to CONT-12345-003, and a thousandth student would get
      the unpadded sequence number 1000. */
  lemma WorkedExample()
    ensures ContractIds(Proyecto.Template("12345")) == ["CONT-12345-001", "CONT-12345-002", "CONT-12345-003"]
    ensures ContractId("12345", 1000) == "CONT-12345-1000"
  {
    TemplateIds("12345");
    ExampleId("12345", 1, "CONT-12345-001");
    ExampleId("12345", 2, "CONT-12345-002");
    ExampleId("12345", 3, "CONT-12345-003");
    ExampleId("12345", 1000, "CONT-12345-1000");
  }

  /** Looking up "12345" and emitting its contracts gives CONT-12345-001 to
      CONT-12345-003. */
  lemma EmissionScenario()
    ensures Proyecto.SubmitFound("12345").Some?
    ensures ContractIds(Proyecto.SubmitFound("12345").value) == ["CONT-12345-001", "CONT-12345-002", "CONT-12345-003"]
  {
    assert Proyecto.IsProjectNumber("12345");
    Proyecto.OtherNumbersFound("12345");
    WorkedExample();
  }

  lemma ExampleId(numero: string, n: nat, id: string)
    requires numero == "12345"
    requires (n, id) in {(1, "CONT-12345-001"), (2, "CONT-12345-002"), (3, "CONT-12345-003"), (1000, "CONT-12345-1000")}
    ensures ContractId(numero, n) == id
  {
    var tail := id[11..];
    assert id == ContractPrefix(numero) + tail;
    ExampleSequence(n, tail);
  }

  lemma ExampleSequence(n: nat, s: string)
    requires (n, s) in {(1, "001"), (2, "002"), (3, "003"), (1000, "1000")}
    ensures SequenceNumber(n) == s
  {
    assert DecimalString(n) == if n == 1000 then s else s[2..];
  }

  /** The template project always gets the ids for sequence numbers 1 to 3. */
  lemma TemplateIds(numero: string)
    ensures ContractIds(Proyecto.Template(numero)) == [ContractId(numero, 1), ContractId(numero, 2), ContractId(numero, 3)]
  {
    var ids := ContractIds(Proyecto.Template(numero));
    assert ids[0] == ContractId(numero, 1) && ids[1] == ContractId(numero, 2) && ids[2] == ContractId(numero, 3);
  }
}
