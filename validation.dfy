/** Validation of the two raw inputs: the consumption text and the tariff
    flag name (faturamento_energia.py, lines 51-107). */
module Validation {
  import opened Wrappers
  import opened Tariff

  datatype ValidationError =
    | Negative                           // "O valor deve ser positivo"
    | NotANumber                         // the `ValueError` raised by `float()`
    | UnknownFlag(accepted: seq<string>) // lists the flag names, in table order

  /** What `validar_bandeira` reports: accepted, or the error to show. */
  datatype Outcome = Pass | Fail(error: ValidationError)

  /** The message the form shows for an error. */
  function Message(e: ValidationError): string
  {
    match e
    case Negative => "O valor deve ser positivo"
    case NotANumber => "Valor inválido. Digite um número válido"
    case UnknownFlag(names) => "Bandeira inválida. Use: " + Join(names, ", ")
  }

  /** `separator.join(parts)`. */
  function Join(parts: seq<string>, separator: string): string
  {
    if |parts| == 0 then ""
    else if |parts| == 1 then parts[0]
    else parts[0] + separator + Join(parts[1..], separator)
  }

  // ---------------------------------------------------------------------
  // Numbers: `float(valor.replace(',', '.'))` on a decimal grammar
  // ---------------------------------------------------------------------

  /** `valor.replace(',', '.')`: a comma is read as the decimal point. */
  function DecimalComma(s: string): (r: string)
    ensures |r| == |s| && ',' !in r
    ensures forall i :: 0 <= i < |s| && s[i] == ',' ==> r[i] == '.'
    ensures forall i :: 0 <= i < |s| && s[i] != ',' ==> r[i] == s[i]
  {
    seq(|s|, i requires 0 <= i < |s| => if s[i] == ',' then '.' else s[i])
  }

  predicate IsDigit(c: char) { '0' <= c <= '9' }

  predicate AllDigits(s: string) { forall i :: 0 <= i < |s| ==> IsDigit(s[i]) }

  function DigitValue(c: char): nat
    requires IsDigit(c)
  {
    c as int - '0' as int
  }

  /** The value of a digit string, read from left to right. */
  function DigitsValue(s: string): nat
    requires AllDigits(s)
  {
    if s == [] then 0 else DigitsValue(s[..|s| - 1]) * 10 + DigitValue(s[|s| - 1])
  }

  /** The value of the digits after the decimal point: "5" is 0.5, "25" is 0.25. */
  function FractionValue(s: string): (v: real)
    requires AllDigits(s)
    ensures 0.0 <= v < 1.0
  {
    if s == [] then 0.0 else (DigitValue(s[0]) as real + FractionValue(s[1..])) / 10.0
  }

  /** Length of the longest prefix of `s` made of digits. */
  function LeadingDigits(s: string): (n: nat)
    ensures n <= |s| && AllDigits(s[..n])
    ensures n < |s| ==> !IsDigit(s[n])
  {
    if |s| > 0 && IsDigit(s[0]) then
      var n := 1 + LeadingDigits(s[1..]);
      assert s[..n] == [s[0]] + s[1..][..n - 1];
      n
    else 0
  }

  /** An unsigned decimal: digits, optionally followed by '.' and more digits,
      with at least one digit in all ("7", "7.", ".5", "150.5"). */
  function ParseUnsigned(s: string): Option<real>
  {
    var n := LeadingDigits(s);
    var whole := DigitsValue(s[..n]) as real;
    if n == |s| then
      if n > 0 then Some(whole) else None
    else if s[n] == '.' && AllDigits(s[n + 1..]) && (n > 0 || n + 1 < |s|) then
      Some(whole + FractionValue(s[n + 1..]))
    else None
  }

  /** The part of Python's `float()` this model covers: an optional sign
      followed by an unsigned decimal. */
  function ParseNumber(s: string): Option<real>
  {
    if |s| > 0 && (s[0] == '+' || s[0] == '-') then
      match ParseUnsigned(s[1..])
      case None => None
      case Some(v) => Some(if s[0] == '-' then -v else v)
    else ParseUnsigned(s)
  }

  /** `validar_numero_positivo`: unparseable text is `NotANumber`, a
      negative number is `Negative`, anything else is accepted as is. */
  function ValidateConsumption(raw: string): (r: Result<real, ValidationError>)
    ensures r.Success? ==> r.value >= 0.0
    ensures r.Success? ==> ParseNumber(DecimalComma(raw)) == Some(r.value)
    ensures r.Failure? ==> r.error == NotANumber || r.error == Negative
    ensures r == Failure(NotANumber) <==> ParseNumber(DecimalComma(raw)).None?
    ensures r == Failure(Negative) <==>
              ParseNumber(DecimalComma(raw)).Some? && ParseNumber(DecimalComma(raw)).value < 0.0
  {
    match ParseNumber(DecimalComma(raw))
    case None => Failure(NotANumber)
    case Some(v) => if v < 0.0 then Failure(Negative) else Success(v)
  }

  // ---------------------------------------------------------------------
  // Tariff flags
  // ---------------------------------------------------------------------

  function LowerChar(c: char): char
  {
    if 'A' <= c <= 'Z' then (c as int + 32) as char else c
  }

  function UpperChar(c: char): char
  {
    if 'a' <= c <= 'z' then (c as int - 32) as char else c
  }

  /** `str.lower()` on ASCII letters. */
  function Lower(s: string): (r: string)
    ensures |r| == |s|
    ensures forall i :: 0 <= i < |r| ==> !('A' <= r[i] <= 'Z')
  {
    seq(|s|, i requires 0 <= i < |s| => LowerChar(s[i]))
  }

  /** `str.upper()` on ASCII letters. */
  function Upper(s: string): string
  {
    seq(|s|, i requires 0 <= i < |s| => UpperChar(s[i]))
  }

  /** Each capital A-Z becomes the small letter 32 code points above it;
      every other character is kept. */
  lemma LowerChars(s: string)
    ensures |Lower(s)| == |s|
    ensures forall i :: 0 <= i < |s| && !('A' <= s[i] <= 'Z') ==> Lower(s)[i] == s[i]
    ensures forall i :: 0 <= i < |s| && 'A' <= s[i] <= 'Z' ==> Lower(s)[i] as int == s[i] as int + 32
  {
  }


  /** `validar_bandeira`: the flag is accepted when its lower-case form is
      a key of the flag table; otherwise the error lists the keys. */
  function ValidateFlag(flags: seq<NamedRate>, raw: string): (r: Outcome)
    ensures r == Pass <==> Lower(raw) in Names(flags)
    ensures r.Fail? ==> r.error == UnknownFlag(Names(flags))
  {
    if Lower(raw) in Names(flags) then Pass else Fail(UnknownFlag(Names(flags)))
  }

  /** `validar_entradas`: the consumption is checked first and its error
      wins; on success the flag comes back in lower case. */
  function ValidateInputs(flags: seq<NamedRate>, consumption: string, flag: string)
    : (r: Result<(real, string), ValidationError>)
    ensures ValidateConsumption(consumption).Failure? ==>
              r == Failure(ValidateConsumption(consumption).error)
    ensures ValidateConsumption(consumption).Success? && ValidateFlag(flags, flag).Fail? ==>
              r == Failure(UnknownFlag(Names(flags)))
    ensures r.Success? <==>
              ValidateConsumption(consumption).Success? && Lower(flag) in Names(flags)
    ensures r.Success? ==>
              && r.value.0 == ValidateConsumption(consumption).value
              && r.value.0 >= 0.0
              && r.value.1 == Lower(flag)
              && RateOf(flags, r.value.1).Some?
  {
    match ValidateConsumption(consumption)
    case Failure(e) => Failure(e)
    case Success(v) =>
      match ValidateFlag(flags, flag)
      case Fail(e) => Failure(e)
      case Pass => Success((v, Lower(flag)))
  }

  // ---------------------------------------------------------------------
  // Properties of the validators
  // ---------------------------------------------------------------------

  /** Decimal rendering of a natural number, used to state round trips. */
  function NatToString(n: nat): (s: string)
    ensures |s| > 0 && AllDigits(s)
  {
    var d := ['0' + (n % 10) as char];
    if n < 10 then d else NatToString(n / 10) + d
  }

  lemma {:induction false} DigitsRoundTrip(n: nat)
    ensures DigitsValue(NatToString(n)) == n
  {
    var s := NatToString(n);
    if n >= 10 {
      assert s[..|s| - 1] == NatToString(n / 10);
      DigitsRoundTrip(n / 10);
    }
  }

  lemma {:induction false} LeadingDigitsOf(d: string, rest: string)
    requires AllDigits(d)
    requires rest == [] || !IsDigit(rest[0])
    ensures LeadingDigits(d + rest) == |d|
  {
    if |d| > 0 {
      assert (d + rest)[1..] == d[1..] + rest;
      LeadingDigitsOf(d[1..], rest);
    }
  }

  lemma DecimalCommaOfDigits(d: string)
    requires AllDigits(d)
    ensures DecimalComma(d) == d
  {
  }

  /** Any natural number written in decimal is accepted with its value. */
  lemma ValidateWholeNumber(n: nat)
    ensures ValidateConsumption(NatToString(n)) == Success(n as real)
  {
    var s := NatToString(n);
    DecimalCommaOfDigits(s);
    LeadingDigitsOf(s, []);
    assert s + [] == s;
    assert s[..|s|] == s;
    DigitsRoundTrip(n);
  }

  /** A minus sign in front of a positive number is the `Negative` error;
      "-0" is zero and accepted. */
  lemma ValidateNegated(n: nat)
    ensures ValidateConsumption("-" + NatToString(n)) ==
              if n == 0 then Success(0.0) else Failure(Negative)
  {
    var s := NatToString(n);
    DecimalCommaOfDigits(s);
    assert DecimalComma("-" + s) == "-" + s;
    assert ("-" + s)[1..] == s;
    LeadingDigitsOf(s, []);
    assert s + [] == s;
    assert s[..|s|] == s;
    DigitsRoundTrip(n);
  }

  /** A dotted decimal is its whole part plus its fraction digits. */
  lemma ParseDotted(n: nat, fraction: string)
    requires AllDigits(fraction)
    ensures ParseNumber(NatToString(n) + "." + fraction) ==
            Some(n as real + FractionValue(fraction))
  {
    var s := NatToString(n);
    var dot := s + ("." + fraction);
    assert s + "." + fraction == dot;
    assert dot[0] == s[0] && IsDigit(dot[0]);
    LeadingDigitsOf(s, "." + fraction);
    assert dot[..|s|] == s;
    assert dot[|s|] == '.';
    assert dot[|s| + 1..] == fraction;
    DigitsRoundTrip(n);
    assert ParseUnsigned(dot) ==
      Some(n as real + FractionValue(fraction));
    assert dot[0] != '+' && dot[0] != '-';
    assert ParseNumber(dot) == ParseUnsigned(dot);
  }

  lemma DecimalCommaSeparator(d: string, fraction: string)
    requires AllDigits(d) && AllDigits(fraction)
    ensures DecimalComma(d + "," + fraction) == d + "." + fraction
    ensures DecimalComma(d + "." + fraction) == d + "." + fraction
  {
  }

  /** "150,5" and "150.5" are the same number: whole part plus the digits
      after the separator scaled by their count. */
  lemma ValidateDecimal(n: nat, fraction: string)
    requires AllDigits(fraction)
    ensures ValidateConsumption(NatToString(n) + "," + fraction) ==
            ValidateConsumption(NatToString(n) + "." + fraction)
    ensures ValidateConsumption(NatToString(n) + "." + fraction) ==
            Success(n as real + FractionValue(fraction))
  {
    DecimalCommaSeparator(NatToString(n), fraction);
    ParseDotted(n, fraction);
  }

  lemma {:induction false} ParsedUnsignedChars(s: string, i: nat)
    requires ParseUnsigned(s).Some? && i < |s|
    ensures IsDigit(s[i]) || s[i] == '.'
  {
    var n := LeadingDigits(s);
    if i < n {
      assert s[..n][i] == s[i];
    } else if i > n {
      assert s[n + 1..][i - n - 1] == s[i];
    }
  }

  /** Within the decimal grammar of `ParseNumber`, text holding any
      character outside digits, signs and separators (such as "abc") is
      `NotANumber`. Python's `float()` accepts some such texts ("1e5",
      " 5", "nan"), which this grammar does not cover. */
  lemma ValidateForeignCharacter(raw: string, i: nat)
    requires i < |raw|
    requires !IsDigit(raw[i]) && raw[i] !in "+-.,"
    ensures ValidateConsumption(raw) == Failure(NotANumber)
  {
    var s := DecimalComma(raw);
    assert s[i] == raw[i];
    if ParseNumber(s).Some? {
      if |s| > 0 && (s[0] == '+' || s[0] == '-') {
        assert i > 0 && s[1..][i - 1] == s[i];
        ParsedUnsignedChars(s[1..], i - 1);
      } else {
        ParsedUnsignedChars(s, i);
      }
      assert false;
    }
  }

  /** The flag check ignores letter case: "VERMELHA" is accepted exactly
      when "vermelha" is, and validation returns the same lower-case key. */
  lemma FlagCaseInsensitive(flags: seq<NamedRate>, consumption: string, flag: string)
    ensures ValidateFlag(flags, Upper(flag)) == ValidateFlag(flags, flag)
    ensures ValidateInputs(flags, consumption, Upper(flag)) == ValidateInputs(flags, consumption, flag)
  {
    assert Lower(Upper(flag)) == Lower(flag);
  }
}
