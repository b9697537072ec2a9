# Electricity billing pipeline, in Dafny

A model of the calculation core of `faturamento_energia.py`, an electricity
bill calculator. The program takes two raw strings, a consumption in kWh and a
tariff-flag name ("bandeira"), and builds the bill in these steps:

1. It validates both inputs.
2. It splits the consumption over a table of progressive brackets, filling
   the cheaper, lower brackets first.
3. It adds a surcharge for the flag: the subtotal times the flag's rate.
4. It applies three taxes (ICMS, PIS, COFINS) to the same base.
5. It folds the parts into a total.
6. It re-checks that the parts add up to that total.

Modules, one per stage:

- `Wrappers` holds `Option` and `Result`.
- `Tariff` holds the configuration tables and their well-formedness:
  - brackets with a finite or `Unbounded` upper bound;
  - flags and taxes as ordered name-to-rate tables;
  - `RateOf`, the dictionary lookup.
- `Validation` covers `validar_numero_positivo`, `validar_bandeira` and
  `validar_entradas`. Python's `float()` is modelled on a decimal grammar,
  and `str.lower()` on ASCII letters. Each error is a value of
  `ValidationError`, and `Message` gives the text the form shows for it.
- `Brackets` covers `calcular_faixa` and the bracket loop of
  `calcular_tarifacao_por_faixas`. The loop is a method with a `for` loop
  and an early `break`, proved equal to the recursive function
  `Breakdown`. The properties of the breakdown are proved about that
  function:
  - coverage of the consumption;
  - positive, correctly priced items;
  - a closed form;
  - lower brackets fill first.
- `Charges` covers `calcular_adicional_bandeira`, `calcular_imposto` and
  `calcular_impostos`, and proves that the total tax is the base times the
  sum of the aliquots.
- `Billing` covers `calcular_faturamento` and `verificar_invariantes`. It
  proves that every bill of a well-formed configuration adds up exactly and
  is not negative, so `verificar_invariantes` accepts it for any consumption and any
  known flag.
- `Defaults` holds the shipped tables (lines 25-44) and worked examples on
  them. One is the bill for 250 kWh under the green flag: R$ 175,00
  subtotal, R$ 47,705 of taxes, R$ 222,705 in all.

Arithmetic is exact (`real`). Under exact arithmetic the 0.01 tolerance of
`verificar_invariantes` is never used: the recomputed sum equals the total.

The tables are a `Config` value passed to every calculation, not global
constants. A flag missing from the table makes the subscript
`BANDEIRAS[bandeira]` raise `KeyError`; here that is `None`.

The comment on the flag table (line 32) calls the flag rates R$ per kWh.
The code (line 176) multiplies the subtotal, in R$, by the rate, so the
rate is a fraction of the subtotal. The model follows the code.

## Model

| member | source | states |
|---|---|---|
| Tariff.RateOf | faturamento_energia.py:176 | the lookup finds a rate exactly when the name is a key of the table; rates of a table with non-negative rates are non-negative |
| Tariff.RateOfEntry | faturamento_energia.py:33-37 | in a well-formed table (distinct keys, non-negative rates), looking up the key of entry k yields entry k's rate |
| Tariff.LowerBoundsIncrease | faturamento_energia.py:25-30 | in a contiguous bracket table with positive widths the lower bounds strictly increase |
| Validation.DecimalComma | faturamento_energia.py:62 | `replace(',', '.')`: same length, each comma becomes a point, every other character kept, so no comma is left |
| Validation.ParseNumber | faturamento_energia.py:62 | the modelled part of `float()`: optional sign, digits, optional point and digits; no contract of its own, its results are stated by `ValidateWholeNumber`, `ValidateNegated`, `ParseDotted` and `ValidateForeignCharacter` |
| Validation.Message | faturamento_energia.py:64-83 | the text shown for each error: the two consumption messages and the flag message listing the keys; no contract of its own, `ExampleUnknownFlag` fixes the listed keys |
| Validation.Lower | faturamento_energia.py:80 | `str.lower()` on ASCII: same length and no capital letter left; `LowerChars` states what each character becomes |
| Validation.LowerChars | faturamento_energia.py:80 | each capital A-Z becomes the letter 32 code points above it (its small letter) and every other character is kept |
| Validation.ValidateConsumption | faturamento_energia.py:61-67 | success carries the parsed number, which is non-negative; `NotANumber` exactly when the text does not parse; `Negative` exactly when it parses to a negative number |
| Validation.ValidateWholeNumber | faturamento_energia.py:61-65 | every natural number written in decimal is accepted with its value |
| Validation.ValidateNegated | faturamento_energia.py:61-65 | a minus sign before a positive number gives `Negative`; "-0" is accepted as zero |
| Validation.ParseDotted | faturamento_energia.py:62 | digits, a point and fraction digits parse to the whole part plus the fraction |
| Validation.DecimalCommaSeparator | faturamento_energia.py:62 | replacing commas turns "d,f" into "d.f" and leaves "d.f" as it is |
| Validation.ValidateDecimal | faturamento_energia.py:61-65 | "n,f" and "n.f" are validated alike, both as success with n plus the fraction |
| Validation.ValidateForeignCharacter | faturamento_energia.py:61-67 | within the modelled decimal grammar, text containing a character other than digits, signs and separators is `NotANumber` |
| Validation.ValidateFlag | faturamento_energia.py:80-83 | accepted exactly when the lower-cased name is a key of the flag table; otherwise the error lists the keys in table order |
| Validation.ValidateInputs | faturamento_energia.py:97-107 | the consumption error wins; a flag error comes only after a valid consumption; success exactly when both pass, returning the number and the lower-cased flag, which the flag table knows |
| Validation.FlagCaseInsensitive | faturamento_energia.py:80-107 | the flag check and the whole validation give the same result for a flag and for its upper-cased form |
| Brackets.TruncateTowardZero | faturamento_energia.py:154 | `int()` on a float drops the fraction: for x >= 0 the result n has 0 <= n <= x < n + 1, for x < 0 it has n - 1 < x <= n <= 0 |
| Brackets.LabelOfBounds | faturamento_energia.py:154 | the label shows each bound truncated toward zero in that sense, and is open exactly for the unbounded bracket |
| Brackets.ApplyBracket | faturamento_energia.py:125-129 | the quantity taken is at most what remains and at most the bracket width, and equals one of them; the value is that quantity times the rate |
| Brackets.ApplyBracketNonNegative | faturamento_energia.py:125-129 | with a non-negative remainder, width and rate, quantity and value are non-negative |
| Brackets.Breakdown | faturamento_energia.py:143-162 | the loop as a recursive function over the bracket index and the remaining consumption; no contract of its own, its properties are the lemmas below |
| Brackets.BreakdownFrom | faturamento_energia.py:146-160 | the passes of the loop from bracket i on, with what remains; stops when nothing remains or the table ends |
| Brackets.CalculateBreakdown | faturamento_energia.py:143-162 | the loop with its early break returns exactly the breakdown `Breakdown` defines |
| Brackets.BreakdownLength | faturamento_energia.py:146-158 | at most one item per bracket |
| Brackets.BreakdownItems | faturamento_energia.py:150-158 | every emitted item has a positive quantity and a value equal to quantity times rate |
| Brackets.BreakdownCoversConsumption | faturamento_energia.py:143-162 | for a non-negative consumption and a well-formed table ending unbounded, the item quantities sum exactly to the consumption |
| Brackets.BreakdownClosedForm | faturamento_energia.py:146-160 | bracket k is billed exactly when the consumption passes its lower bound; items follow table order; each bills the part of the consumption inside its bracket |
| Brackets.LowerBracketsFillFirst | faturamento_energia.py:146-160 | every item but the last bills its bracket's whole width, so no item follows a partly filled bracket |
| Charges.FlagSurcharge | faturamento_energia.py:176 | there is a surcharge exactly when the flag is a key of the table |
| Charges.SurchargeOfEntry | faturamento_energia.py:176 | the surcharge for the flag of entry k is the subtotal times that entry's rate |
| Charges.SurchargeNonNegative | faturamento_energia.py:176 | a non-negative subtotal gets a non-negative surcharge |
| Charges.ApplyTax | faturamento_energia.py:190 | base times aliquot, not rounded; its sign and zero facts are `ApplyTaxSign` |
| Charges.ApplyTaxSign | faturamento_energia.py:190 | a tax on a non-negative base at a non-negative aliquot is non-negative; a zero base or zero aliquot owes nothing |
| Charges.ComputeTaxes | faturamento_energia.py:205-211 | one entry per tax of the table; names, order and amounts are `TaxEntries` |
| Charges.SumTaxes | faturamento_energia.py:245-249 | the sum of the tax amounts; `TotalTaxIsProportional` gives its value |
| Charges.TaxEntries | faturamento_energia.py:205-211 | one entry per tax, in table order, each named after its tax and equal to base times aliquot |
| Charges.TotalTaxIsProportional | faturamento_energia.py:242-249 | the sum of the taxes is the base times the sum of the aliquots |
| Charges.TaxAmountsNonNegative | faturamento_energia.py:205-211 | with non-negative aliquots and base every tax is non-negative |
| Charges.TotalTaxNonNegative | faturamento_energia.py:242-249 | with non-negative aliquots and base the total tax is non-negative |
| Charges.ZeroBaseTaxes | faturamento_energia.py:205-211 | on a zero base every tax is zero |
| Charges.ZeroBaseTotalTax | faturamento_energia.py:242-249 | on a zero base the total tax is zero |
| Billing.SumAmounts | faturamento_energia.py:229-233 | the sum of the item values; `SumAmountsNonNegative` and `SubtotalNonNegative` bound it |
| Billing.SumAmountsNonNegative | faturamento_energia.py:229-233 | items with non-negative values sum to a non-negative subtotal |
| Billing.CheckInvariants | faturamento_energia.py:280-295 | `verificar_invariantes`: false for a negative total, otherwise whether the rebuilt sum is within 0.01 of the total; `AssembledPassesCheck` and `ComputedBillIsConsistent` state when it holds |
| Billing.ComputeBill | faturamento_energia.py:214-265 | a bill exists exactly when the flag is a key of the table; it keeps the consumption and flag and has one tax per table entry |
| Billing.ComputedBillAssembled | faturamento_energia.py:226-252 | a computed bill bills the breakdown of its consumption; its surcharge is the flag's on its subtotal; subtotal, base, taxes, total tax and total are related as the orchestrator builds them |
| Billing.BillSurcharge | faturamento_energia.py:236 | the surcharge of a bill is its subtotal times the rate of its flag |
| Billing.TaxesOfBill | faturamento_energia.py:242-249 | the total tax of a bill is its base times the sum of the aliquots |
| Billing.AssembledAddsUp | faturamento_energia.py:285-292 | the sum the check rebuilds equals the total exactly |
| Billing.AssembledNonNegative | faturamento_energia.py:281-282 | with non-negative subtotal, surcharge and aliquots the total is non-negative |
| Billing.AssembledPassesCheck | faturamento_energia.py:280-295 | such a bill passes `verificar_invariantes` |
| Billing.BillRelations | faturamento_energia.py:236-252 | a computed bill's surcharge is subtotal times the flag rate, its base is subtotal plus surcharge, its total tax is base times the summed aliquots, and its total is base plus total tax |
| Billing.BillClosedForm | faturamento_energia.py:236-252 | for a computed bill with flag rate f and summed aliquots t, base = subtotal (1 + f) and total = subtotal (1 + f)(1 + t) |
| Billing.SubtotalNonNegative | faturamento_energia.py:229-233 | the subtotal of a well-formed table's breakdown is non-negative |
| Billing.ComputedBillIsConsistent | faturamento_energia.py:226-295 | for a well-formed configuration and a known flag, any consumption yields a bill whose parts add up exactly, whose total is non-negative, and which passes the check |
| Billing.NoConsumptionBill | faturamento_energia.py:226-252 | no consumption gives no items, and a zero subtotal, surcharge, base, every tax, total tax and total |
| Billing.ValidatedInputsGiveConsistentBill | faturamento_energia.py:97-107 | inputs that pass validation always yield a bill that passes the check |
| Defaults.DefaultConfigWellFormed | faturamento_energia.py:25-44 | the shipped tables are well formed; the flag keys are verde, amarela, vermelha in that order |
| Defaults.ExampleBreakdown | faturamento_energia.py:143-162 | 250 kWh bill 100, 100 and 50 kWh at 0.50, 0.75 and 1.00 |
| Defaults.ExampleTaxes | faturamento_energia.py:193-211 | on a base of 175 the taxes are 31.5, 2.8875 and 13.3175, summing to 47.705 |
| Defaults.ExampleBill | faturamento_energia.py:214-265 | 250 kWh under "verde": subtotal 175, no surcharge, total tax 47.705, total 222.705 |
| Defaults.ExampleDecimalSeparators | faturamento_energia.py:61-65 | "150,5" and "150.5" are both accepted as 150.5 |
| Defaults.ExampleNegative | faturamento_energia.py:63-64 | "-5" is rejected as negative |
| Defaults.ExampleNotANumber | faturamento_energia.py:66-67 | "abc" is rejected as not a number |
| Defaults.ExampleFlagInCapitals | faturamento_energia.py:80-82 | "VERMELHA" is accepted |
| Defaults.ExampleUnknownFlag | faturamento_energia.py:83 | "azul" is rejected with the list verde, amarela, vermelha |

## Left out

- The Tkinter form `SistemaFaturamentoEnergia` and its entry point (lines 302-444). These cover widgets, callbacks, message boxes and the formatted result text of `exibir_resultado`. `Message` gives the error texts; nothing renders them.
- ParseNumber: covers an optional sign, digits and an optional decimal point with digits. Python's `float()` also accepts surrounding whitespace, exponents ("1e5"), underscores between digits, "inf"/"infinity", "nan" and non-ASCII Unicode digits. The model rejects all of these with `NotANumber` where `float()` accepts them. "nan" is even accepted by the source as a valid consumption, since `nan < 0` is false.
- ValidateForeignCharacter: holds for the modelled grammar only. Under Python's `float()` some of the texts it covers are numbers ("1e5", " 5", "1_000", "inf", "nan").
- Binary floating point: all arithmetic is on exact reals. `CheckInvariants` keeps the 0.01 tolerance, but no rounding error exists for it to absorb.
- Lower: maps ASCII letters only, not the full Unicode `str.lower()`.
- LabelOf: keeps the integers that `int()` produces for a bracket label: two for a finite bracket, one for the top bracket, which is marked open. It does not build the label text.
- FlagSurcharge: a flag missing from the table gives `None`, where the source raises `KeyError`.
- SumAmounts: sums from the front, where `reduce` folds from the left. Over exact reals the two orders give the same value. The same holds for SumTaxes.
- Validation results are a `Result` over an error type rather than the source's (bool, value, message) tuples. `Message` maps each error to its text.
