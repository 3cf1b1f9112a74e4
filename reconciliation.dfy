/**
 * Reconciliation of the advance ("anticipo") against the invoice total the
 * payload reports ("monto_total_calculado"), and the difference line that
 * both the exported document and the on-screen summary print.
 */
module Reconciliation {
  import opened Decimal

  /**
   * The advance input as the page reads it: left blank, or holding an amount
   * in cents. `Number(anticipo || 0)` turns a blank field into 0.
   */
  datatype AdvanceField = Blank | Entered(cents: int)

  /**
   * `Number(anticipo || 0)`, in cents: a blank field and an entered 0 are the
   * only inputs that coerce to 0, and an entered amount is taken as it is.
   */
  function AdvanceCents(anticipo: AdvanceField): (cents: int)
    ensures cents == 0 <==> anticipo == Blank || anticipo == Entered(0)
    ensures anticipo.Entered? ==> cents == anticipo.cents
  {
    match anticipo
    case Blank => 0
    case Entered(c) => c
  }

  type Positive = n: int | n > 0 witness 1

  /**
   * The three outcomes of comparing the advance with the total: money the
   * holder of the advance still has to hand over ("a Pagar"), money still
   * owed to them ("a Cobrar"), or nothing either way. The amounts are
   * magnitudes, so they are positive by type.
   */
  datatype Settlement = ToPay(amount: Positive) | ToCollect(amount: Positive) | Settled
  {
    /** The signed difference advance − total this outcome stands for. */
    function Signed(): int
    {
      match this
      case ToPay(a) => a
      case ToCollect(a) => 0 - a
      case Settled => 0
    }

    /** The non-negative amount printed after the label. */
    function Magnitude(): nat
    {
      match this
      case ToPay(a) => a
      case ToCollect(a) => a
      case Settled => 0
    }

    /** The label printed before the amount. */
    function Label(): string
    {
      match this
      case ToPay(_) => "Diferencia a Pagar:"
      case ToCollect(_) => "Diferencia a Cobrar:"
      case Settled => "Diferencia:"
    }
  }

  /** The classification of a signed difference by its sign alone. */
  function Classify(difference: int): (s: Settlement)
    ensures s.Signed() == difference
    ensures s.Magnitude() == Abs(difference)
  {
    if difference > 0 then ToPay(difference)
    else if difference < 0 then ToCollect(-difference)
    else Settled
  }

  /** Every outcome arises from exactly one difference: `Classify` is a bijection. */
  lemma {:induction false} ClassifyOfSigned(s: Settlement)
    ensures Classify(s.Signed()) == s
  {
  }

  /**
   * The three-way rule in the terms of the inputs: exactly one outcome holds,
   * and its amount is the distance between the advance and the total.
   */
  lemma {:induction false} SettlementRule(advance: int, total: int)
    ensures Classify(advance - total).ToPay? <==> advance > total
    ensures Classify(advance - total).ToCollect? <==> advance < total
    ensures Classify(advance - total).Settled? <==> advance == total
    ensures advance > total ==> Classify(advance - total) == ToPay(advance - total)
    ensures advance < total ==> Classify(advance - total) == ToCollect(total - advance)
  {
  }

  /** The label and the amount each sign of the difference is shown with. */
  lemma {:induction false} LabelAndMagnitude(d: int)
    ensures d > 0 ==> Classify(d).Label() == "Diferencia a Pagar:" && Classify(d).Magnitude() == d
    ensures d < 0 ==> Classify(d).Label() == "Diferencia a Cobrar:" && Classify(d).Magnitude() == -d
    ensures d == 0 ==> Classify(d).Label() == "Diferencia:" && Classify(d).Magnitude() == 0
  {
  }

  /** The text of an outcome: its label, then the amount in bolivianos. */
  function DifferenceText(s: Settlement): string
  {
    s.Label() + " Bs. " + ToFixed2(s.Magnitude())
  }

  /** The "a Pagar" text, spelled as the page's template string spells it. */
  lemma {:induction false} PayText(d: int)
    requires d > 0
    ensures DifferenceText(Classify(d)) == "Diferencia a Pagar: Bs. " + ToFixed2(d)
  {
    assert "Diferencia a Pagar:" + " Bs. " == "Diferencia a Pagar: Bs. ";
  }

  /** The "a Cobrar" text, spelled as the page's template string spells it. */
  lemma {:induction false} CollectText(d: int)
    requires d < 0
    ensures DifferenceText(Classify(d)) == "Diferencia a Cobrar: Bs. " + ToFixed2(-d)
  {
    assert "Diferencia a Cobrar:" + " Bs. " == "Diferencia a Cobrar: Bs. ";
  }

  /** Zero, in bolivianos with two decimals. */
  lemma {:induction false} ZeroAmountText()
    ensures ToFixed2(0) == "0.00" && "Bs. " + ToFixed2(0) == "Bs. 0.00"
  {
    assert NatToDigits(0) == "0";
    assert UnsignedFixed2(0) == "0.00";
  }

  /** The zero text, spelled as the page's template string spells it. */
  lemma {:induction false} SettledText()
    ensures DifferenceText(Classify(0)) == "Diferencia: Bs. 0.00"
  {
    ZeroAmountText();
    assert "Diferencia:" + " Bs. " + "0.00" == "Diferencia: Bs. 0.00";
  }

  /**
   * The difference line of the exported document, computed from the coerced
   * advance and the reported total as the export does it.
   */
  function PdfDifferenceLine(anticipoNum: int, montoTotal: int): (line: string)
    ensures line == DifferenceText(Classify(anticipoNum - montoTotal))
  {
    var diferencia := anticipoNum - montoTotal;
    if diferencia > 0 then
      PayText(diferencia);
      "Diferencia a Pagar: Bs. " + ToFixed2(diferencia)
    else if diferencia < 0 then
      CollectText(diferencia);
      "Diferencia a Cobrar: Bs. " + ToFixed2(-diferencia)
    else
      SettledText();
      "Diferencia: Bs. 0.00"
  }

  /** The difference paragraph on screen: a bold heading followed by the amount. */
  datatype DifferenceParagraph = DifferenceParagraph(heading: string, amount: string)
  {
    /** The paragraph's text as displayed: heading, a space, amount. */
    function Text(): string { heading + " " + amount }
  }

  /** A heading, a space and an amount in bolivianos read as the heading followed by " Bs. ". */
  lemma {:induction false} HeadingJoin(heading: string, amount: string)
    ensures heading + " " + ("Bs. " + amount) == heading + " Bs. " + amount
  {
    assert " " + "Bs. " == " Bs. ";
    assert heading + " " + ("Bs. " + amount) == heading + (" " + "Bs. ") + amount;
  }

  /**
   * The on-screen difference, computed from the advance field and the
   * reported total: its text is the text of the classification of the
   * coerced advance minus the total.
   */
  function ScreenDifference(anticipo: AdvanceField, montoTotal: int): (p: DifferenceParagraph)
    ensures p.heading == Classify(AdvanceCents(anticipo) - montoTotal).Label()
    ensures p.Text() == DifferenceText(Classify(AdvanceCents(anticipo) - montoTotal))
  {
    var diferencia := AdvanceCents(anticipo) - montoTotal;
    LabelAndMagnitude(diferencia);
    if diferencia > 0 then
      HeadingJoin("Diferencia a Pagar:", ToFixed2(diferencia));
      DifferenceParagraph("Diferencia a Pagar:", "Bs. " + ToFixed2(diferencia))
    else if diferencia < 0 then
      HeadingJoin("Diferencia a Cobrar:", ToFixed2(-diferencia));
      DifferenceParagraph("Diferencia a Cobrar:", "Bs. " + ToFixed2(-diferencia))
    else
      HeadingJoin("Diferencia:", ToFixed2(0));
      ZeroAmountText();
      DifferenceParagraph("Diferencia:", "Bs. 0.00")
  }

  /** The screen and the exported document print the same difference for the same inputs. */
  lemma {:induction false} ScreenMatchesPdf(anticipo: AdvanceField, montoTotal: int)
    ensures ScreenDifference(anticipo, montoTotal).Text()
         == PdfDifferenceLine(AdvanceCents(anticipo), montoTotal)
  {
  }

  /** A blank advance gives the same difference as an advance of 0.00, on both surfaces. */
  lemma {:induction false} BlankAdvanceIsZero(montoTotal: int)
    ensures ScreenDifference(Blank, montoTotal) == ScreenDifference(Entered(0), montoTotal)
    ensures PdfDifferenceLine(AdvanceCents(Blank), montoTotal) == PdfDifferenceLine(0, montoTotal)
  {
    assert AdvanceCents(Blank) == 0 == AdvanceCents(Entered(0));
  }

  /** The printed difference never carries a minus sign: only the label says who owes whom. */
  lemma {:induction false} DifferenceLineUnsigned(anticipoNum: int, montoTotal: int)
    ensures Unsigned(PdfDifferenceLine(anticipoNum, montoTotal))
  {
    var s := Classify(anticipoNum - montoTotal);
    var prefix := s.Label() + " Bs. ";
    match s {
      case ToPay(_) => assert Unsigned(prefix);
      case ToCollect(_) => assert Unsigned(prefix);
      case Settled => assert Unsigned(prefix);
    }
    UnsignedConcat(prefix, ToFixed2(s.Magnitude()));
  }

  /**
   * The difference line loses nothing: two inputs that print the same line
   * have the same signed difference.
   */
  lemma {:induction false} DifferenceLineDeterminesDifference(advance1: int, total1: int, advance2: int, total2: int)
    ensures PdfDifferenceLine(advance1, total1) == PdfDifferenceLine(advance2, total2) ==>
              advance1 - total1 == advance2 - total2
  {
    var s1, s2 := Classify(advance1 - total1), Classify(advance2 - total2);
    if DifferenceText(s1) == DifferenceText(s2) {
      var t1, t2 := DifferenceText(s1), DifferenceText(s2);
      // The labels differ at index 10 (":" against " ") or 13 ("P" against "C").
      assert t1[10] == s1.Label()[10] && t2[10] == s2.Label()[10];
      assert s1.Settled? <==> s2.Settled?;
      if !s1.Settled? {
        assert t1[13] == s1.Label()[13] && t2[13] == s2.Label()[13];
        assert s1.ToPay? <==> s2.ToPay?;
        var prefix := s1.Label() + " Bs. ";
        assert s1.Label() == s2.Label();
        assert t1 == prefix + ToFixed2(s1.Magnitude());
        assert t2 == prefix + ToFixed2(s2.Magnitude());
        assert ToFixed2(s1.Magnitude()) == t1[|prefix|..];
        assert ToFixed2(s2.Magnitude()) == t2[|prefix|..];
        ToFixed2Injective(s1.Magnitude(), s2.Magnitude());
      }
    }
  }

  /** 100.00 and 50.00 written with two decimals. */
  lemma {:induction false} WorkedAmountTexts()
    ensures ToFixed2(10000) == "100.00" && ToFixed2(5000) == "50.00"
  {
    assert NatToDigits(1) == "1" && NatToDigits(10) == "10" && NatToDigits(100) == "100";
    assert UnsignedFixed2(10000) == "100.00";
    assert NatToDigits(5) == "5" && NatToDigits(50) == "50";
    assert UnsignedFixed2(5000) == "50.00";
  }

  /** Worked case: a blank advance against a total of 100.00. */
  lemma {:induction false} WorkedBlankAdvance()
    ensures PdfDifferenceLine(AdvanceCents(Blank), 10000) == "Diferencia a Cobrar: Bs. 100.00"
  {
    var line := PdfDifferenceLine(AdvanceCents(Blank), 10000);
    assert line == DifferenceText(Classify(-10000));
    CollectText(-10000);
    WorkedAmountTexts();
    assert "Diferencia a Cobrar: Bs. " + "100.00" == "Diferencia a Cobrar: Bs. 100.00";
  }

  /** Worked case: an advance of 150.00 against invoices of 120.50 and 79.50 (total 200.00). */
  lemma {:induction false} WorkedShortAdvance()
    ensures PdfDifferenceLine(15000, 20000) == "Diferencia a Cobrar: Bs. 50.00"
  {
    var line := PdfDifferenceLine(15000, 20000);
    assert line == DifferenceText(Classify(-5000));
    CollectText(-5000);
    WorkedAmountTexts();
    assert "Diferencia a Cobrar: Bs. " + "50.00" == "Diferencia a Cobrar: Bs. 50.00";
  }

  /** Worked case: an advance equal to the total. */
  lemma {:induction false} WorkedExactAdvance()
    ensures PdfDifferenceLine(20000, 20000) == "Diferencia: Bs. 0.00"
  {
    SettledText();
  }
}
