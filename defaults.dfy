/** The tables shipped with the program (faturamento_energia.py, lines
    25-44) and worked examples of the pipeline on them. */
module Defaults {
  import opened Wrappers
  import opened Tariff
  import opened Validation
  import opened Brackets
  import opened Charges
  import opened Billing

  /** `TARIFAS_FAIXAS`: 0-100 kWh at R$ 0,50, 100-200 at 0,75, 200-500 at
      1,00 and above 500 at 1,35 per kWh. */
  const DefaultBrackets: seq<Bracket> := [
    Bracket(0.0, Finite(100.0), 0.50),
    Bracket(100.0, Finite(200.0), 0.75),
    Bracket(200.0, Finite(500.0), 1.00),
    Bracket(500.0, Unbounded, 1.35)
  ]

  /** `BANDEIRAS`, in insertion order. */
  const DefaultFlags: seq<NamedRate> := [
    NamedRate("verde", 0.0),
    NamedRate("amarela", 0.05),
    NamedRate("vermelha", 0.10)
  ]

  /** `IMPOSTOS`, in insertion order. */
  const DefaultTaxes: seq<NamedRate> := [
    NamedRate("ICMS", 0.18),
    NamedRate("PIS", 0.0165),
    NamedRate("COFINS", 0.0761)
  ]

  const DefaultConfig: Config := Config(DefaultBrackets, DefaultFlags, DefaultTaxes)

  /** The shipped tables meet every assumption of the properties proved
      about the pipeline. */
  lemma DefaultConfigWellFormed()
    ensures WellFormed(DefaultConfig)
    ensures Names(DefaultFlags) == ["verde", "amarela", "vermelha"]
  {
    DefaultBracketsWellFormed();
    DefaultFlagsWellFormed();
    DefaultTaxesWellFormed();
  }

  lemma DefaultBracketsWellFormed()
    ensures WellFormedBrackets(DefaultBrackets)
  {
  }

  lemma DefaultFlagsWellFormed()
    ensures WellFormedRates(DefaultFlags)
    ensures Names(DefaultFlags) == ["verde", "amarela", "vermelha"]
  {
    assert Names(DefaultFlags) == ["verde", "amarela", "vermelha"];
  }

  lemma DefaultTaxesWellFormed()
    ensures WellFormedRates(DefaultTaxes)
  {
  }

  /** The breakdown for 250 kWh: the first two brackets in full, 50 kWh
      of the third, nothing of the fourth. */
  lemma ExampleBreakdown()
    ensures Breakdown(DefaultBrackets, 250.0) == [
              LineItem(RangeLabel(0, Some(100)), 100.0, 0.50, 50.0),
              LineItem(RangeLabel(100, Some(200)), 100.0, 0.75, 75.0),
              LineItem(RangeLabel(200, Some(500)), 50.0, 1.00, 50.0)]
  {
    var bs := DefaultBrackets;
    DefaultLabels();
    BreakdownPassesOver(bs, 250.0, 0);
    BreakdownPassesOver(bs, 250.0, 1);
    DefaultConfigWellFormed();
    BreakdownStopsAt(bs, 250.0, 2);
  }

  /** The labels of the first three brackets: 0-100, 100-200, 200-500. */
  lemma DefaultLabels()
    ensures LabelOf(DefaultBrackets[0]) == RangeLabel(0, Some(100))
    ensures LabelOf(DefaultBrackets[1]) == RangeLabel(100, Some(200))
    ensures LabelOf(DefaultBrackets[2]) == RangeLabel(200, Some(500))
  {
    assert Truncate(0.0) == 0;
    assert Truncate(100.0) == 100;
    assert Truncate(200.0) == 200;
    assert Truncate(500.0) == 500;
  }

  /** The three taxes on a base of R$ 175,00. */
  lemma ExampleTaxes()
    ensures ComputeTaxes(DefaultTaxes, 175.0) ==
              [TaxAmount("ICMS", 31.5), TaxAmount("PIS", 2.8875), TaxAmount("COFINS", 13.3175)]
    ensures SumTaxes(ComputeTaxes(DefaultTaxes, 175.0)) == 47.705
  {
    var ts := ComputeTaxes(DefaultTaxes, 175.0);
    assert ts == [TaxAmount("ICMS", 31.5), TaxAmount("PIS", 2.8875), TaxAmount("COFINS", 13.3175)];
    assert SumTaxes(ts[1..][1..]) == 13.3175 by {
      assert ts[1..][1..][1..] == [];
    }
  }

  /** A bill for 250 kWh under the green flag: subtotal R$ 175,00, no
      surcharge, R$ 47,705 of taxes and R$ 222,705 in all. */
  lemma ExampleBill()
    ensures ComputeBill(DefaultConfig, 250.0, "verde") == Some(Bill(
              250.0, "verde",
              Breakdown(DefaultBrackets, 250.0),
              175.0, 0.0, 175.0,
              [TaxAmount("ICMS", 31.5), TaxAmount("PIS", 2.8875), TaxAmount("COFINS", 13.3175)],
              47.705, 222.705))
  {
    ExampleBreakdown();
    var items := Breakdown(DefaultBrackets, 250.0);
    assert SumAmounts(items) == 175.0 by {
      assert items[1..][1..][1..] == [];
    }
    assert RateOf(DefaultFlags, "verde") == Some(0.0);
    ExampleTaxes();
  }

  /** A decimal comma and a decimal point give the same number. */
  lemma ExampleDecimalSeparators()
    ensures ValidateConsumption("150,5") == Success(150.5)
    ensures ValidateConsumption("150.5") == Success(150.5)
  {
    DecimalExample();
    ValidateDecimal(150, "5");
  }

  lemma DecimalExample()
    ensures NatToString(150) + "," + "5" == "150,5"
    ensures NatToString(150) + "." + "5" == "150.5"
    ensures AllDigits("5") && 150 as real + FractionValue("5") == 150.5
  {
    assert NatToString(150) == "150";
  }

  /** A negative number is rejected as such. */
  lemma ExampleNegative()
    ensures ValidateConsumption("-5") == Failure(Negative)
  {
    assert NatToString(5) == "5";
    ValidateNegated(5);
    assert "-" + "5" == "-5";
  }

  /** Text that is not a number is rejected as such. */
  lemma ExampleNotANumber()
    ensures ValidateConsumption("abc") == Failure(NotANumber)
  {
    ValidateForeignCharacter("abc", 0);
  }

  /** A flag typed in capitals is accepted. */
  lemma ExampleFlagInCapitals()
    ensures ValidateFlag(DefaultFlags, "VERMELHA") == Pass
  {
    assert Lower("VERMELHA") == "vermelha";
    assert Names(DefaultFlags)[2] == "vermelha";
  }

  /** An unknown flag is rejected with the list of accepted names. */
  lemma ExampleUnknownFlag()
    ensures ValidateFlag(DefaultFlags, "azul") == Fail(UnknownFlag(["verde", "amarela", "vermelha"]))
  {
    DefaultConfigWellFormed();
    assert Lower("azul") == "azul";
  }
}
