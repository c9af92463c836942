/**
 * Provider prices and their decimal text (core/internal/agentprovider/service.go), read back as
 * `numeric(20,8)` by the run service.  Costs are whole units of 1e-8 USD.
 */
module Pricing {
  import opened Collections

  // ---------- decimal text ----------

  predicate IsDigit(c: char) { '0' <= c <= '9' }

  predicate AllDigits(s: string) { forall i :: 0 <= i < |s| ==> IsDigit(s[i]) }

  function Digit(n: nat): char
    requires n < 10
  {
    '0' + n as char
  }

  /** `%d` of a natural number. */
  function Decimal(n: nat): string {
    if n < 10 then [Digit(n)] else Decimal(n / 10) + [Digit(n % 10)]
  }

  /** `%0wd` of a natural number below 10^w. */
  function Padded(n: nat, w: nat): string {
    if w == 0 then "" else Padded(n / 10, w - 1) + [Digit(n % 10)]
  }

  function Value(s: string): nat
    requires AllDigits(s)
  {
    if s == "" then 0 else Value(s[..|s| - 1]) * 10 + (s[|s| - 1] as int - '0' as int)
  }

  function Pow10(n: nat): nat { if n == 0 then 1 else 10 * Pow10(n - 1) }

  /** The index of the first point, or the length. */
  function PointIndex(s: string): (i: nat)
    ensures i <= |s|
  {
    if s == "" || s[0] == '.' then 0 else 1 + PointIndex(s[1..])
  }

  /** The pattern that both services demand of a cost: digits, optionally a point and one to eight digits. */
  predicate CostPattern(s: string) {
    var point := PointIndex(s);
    && 1 <= point && AllDigits(s[..point])
    && (point < |s| ==> 1 <= |s| - point - 1 <= 8 && AllDigits(s[point + 1..]))
  }

  /** The numeric value of such a text. */
  function CostUnits(s: string): nat
    requires CostPattern(s)
  {
    var point := PointIndex(s);
    Value(s[..point]) * 100_000_000
    + (if point < |s| then Value(s[point + 1..]) * Pow10(8 - (|s| - point - 1)) else 0)
  }

  // ---------- 64-bit arithmetic ----------

  const TWO63: int := 0x8000_0000_0000_0000
  const TWO64: int := 0x1_0000_0000_0000_0000

  function Wrap64(x: int): int { (x + TWO63) % TWO64 - TWO63 }

  /** Division that truncates toward zero. */
  function Quotient(x: int, y: int): int
    requires y > 0
  {
    if x >= 0 then x / y else -((-x) / y)
  }

  function Remainder(x: int, y: int): int
    requires y > 0
  {
    x - Quotient(x, y) * y
  }

  /** `%d` of a 64-bit integer. */
  function SignedDecimal(n: int): string {
    if n >= 0 then Decimal(n) else "-" + Decimal(-n)
  }

  /** `%08d`: the sign takes one of the eight places. */
  function SignedPadded(n: int): string
    requires -100_000_000 < n < 100_000_000
  {
    if n >= 0 then Padded(n, 8)
    else if -n < 10_000_000 then "-" + Padded(-n, 7)
    else "-" + Padded(-n, 8)
  }

  lemma RemainderRange(x: int)
    ensures -100_000_000 < Remainder(x, 100_000_000) < 100_000_000
  {
  }

  /** `%d.%08d` of the whole and fractional parts. */
  function FormatUnits(units: int): string {
    RemainderRange(units);
    SignedDecimal(Quotient(units, 100_000_000)) + "." + SignedPadded(Remainder(units, 100_000_000))
  }

  // ---------- prices ----------

  /** Lower case, as far as it leads to ASCII letters. */
  function LowerChar(c: char): char {
    if 'A' <= c <= 'Z' then c - 'A' + 'a' else if c == '\U{0130}' then 'i' else if c == '\U{212A}' then 'k' else c
  }

  function Lower(s: string): string {
    if s == "" then "" else [LowerChar(s[0])] + Lower(s[1..])
  }

  predicate IsSpace(c: char) {
    c == ' ' || '\t' <= c <= '\r' || c == '\U{0085}' || c == '\U{00a0}' || c == '\U{1680}' || '\U{2000}' <= c <= '\U{200a}'
    || c == '\U{2028}' || c == '\U{2029}' || c == '\U{202f}' || c == '\U{205f}' || c == '\U{3000}'
  }

  function TrimLeft(s: string): string {
    if s != "" && IsSpace(s[0]) then TrimLeft(s[1..]) else s
  }

  function TrimRight(s: string): string {
    if s != "" && IsSpace(s[|s| - 1]) then TrimRight(s[..|s| - 1]) else s
  }

  function TrimSpace(s: string): string { TrimRight(TrimLeft(s)) }

  /** Rates in 1e-8 USD per million tokens. */
  datatype Price = Price(input: nat, output: nat)

  function PriceOf(provider: string, model: string): Option<Price> {
    var key := Lower(TrimSpace(provider)) + "/" + Lower(TrimSpace(model));
    if key == "openai/gpt-5-mini" then Some(Price(25_000_000, 200_000_000))
    else if key == "openai/gpt-5.4-mini" then Some(Price(75_000_000, 450_000_000))
    else None
  }

  function Exact(p: Price, input: int, output: int): int { input * p.input + output * p.output + 999_999 }

  function PricedUnits(p: Price, input: int, output: int): int {
    Quotient(Wrap64(Exact(p, input, output)), 1_000_000)
  }

  const DEFAULT_COST := "0.01000000"

  datatype PriceSource = Estimated | Configured | Unknown

  function EstimateCost(provider: string, model: string, input: int, output: int): (string, PriceSource) {
    match PriceOf(provider, model)
    case None => (DEFAULT_COST, Estimated)
    case Some(p) => (FormatUnits(PricedUnits(p, input, output)), Configured)
  }

  /** The cost that `Session.Finish` reports for what its observer saw. */
  function FinishCost(provider: string, model: string, completed: bool, input: int, output: int): (string, PriceSource) {
    if !completed && input == 0 && output == 0 then ("0.00000000", Unknown)
    else EstimateCost(provider, model, input, output)
  }

  // ---------- reading back what was printed ----------

  lemma {:induction false} ValueSnoc(s: string, c: char)
    requires AllDigits(s) && IsDigit(c)
    ensures AllDigits(s + [c]) && Value(s + [c]) == Value(s) * 10 + (c as int - '0' as int)
  {
    assert (s + [c])[..|s|] == s;
  }

  lemma {:induction false} DecimalReads(n: nat)
    ensures AllDigits(Decimal(n)) && 1 <= |Decimal(n)| && Value(Decimal(n)) == n
  {
    if n < 10 {
      ValueSnoc("", Digit(n));
      assert [] + [Digit(n)] == [Digit(n)];
    } else {
      DecimalReads(n / 10);
      ValueSnoc(Decimal(n / 10), Digit(n % 10));
    }
  }

  lemma {:induction false} PaddedReads(n: nat, w: nat)
    requires n < Pow10(w)
    ensures |Padded(n, w)| == w && AllDigits(Padded(n, w)) && Value(Padded(n, w)) == n
  {
    if w > 0 {
      PaddedReads(n / 10, w - 1);
      ValueSnoc(Padded(n / 10, w - 1), Digit(n % 10));
    }
  }

  lemma {:induction false} PointAfterDigits(a: string, b: string)
    requires AllDigits(a)
    ensures PointIndex(a + "." + b) == |a|
  {
    if a == "" {
      assert (a + "." + b)[0] == '.';
    } else {
      assert (a + "." + b)[1..] == a[1..] + "." + b;
      PointAfterDigits(a[1..], b);
    }
  }

  lemma {:induction false} PointIsFirst(s: string)
    ensures forall i :: 0 <= i < PointIndex(s) ==> s[i] != '.'
  {
    if s != "" && s[0] != '.' {
      PointIsFirst(s[1..]);
      forall i | 0 <= i < PointIndex(s) ensures s[i] != '.' {
        if i > 0 { assert s[i] == s[1..][i - 1]; }
      }
    }
  }

  lemma Pow8()
    ensures Pow10(8) == 100_000_000
  {
    assert Pow10(4) == 10_000;
    assert Pow10(8) == 10 * (10 * (10 * (10 * Pow10(4))));
  }

  lemma FormatIs(units: nat)
    ensures FormatUnits(units) == Decimal(units / 100_000_000) + "." + Padded(units % 100_000_000, 8)
  {
  }

  lemma PartsReadBack(a: string, b: string, whole: nat, part: nat)
    requires AllDigits(a) && a != "" && Value(a) == whole && AllDigits(b) && |b| == 8 && Value(b) == part
    ensures CostPattern(a + "." + b) && CostUnits(a + "." + b) == whole * 100_000_000 + part
  {
    var s := a + "." + b;
    PointAfterDigits(a, b);
    assert s[..|a|] == a && s[|a| + 1..] == b;
    assert Pow10(0) == 1;
  }

  /** Printing and reading back is exact for every amount of 1e-8 USD that is not negative. */
  lemma PrintedCostReadsBack(units: nat)
    ensures CostPattern(FormatUnits(units)) && CostUnits(FormatUnits(units)) == units
  {
    var whole, part := units / 100_000_000, units % 100_000_000;
    DecimalReads(whole);
    Pow8();
    PaddedReads(part, 8);
    FormatIs(units);
    PartsReadBack(Decimal(whole), Padded(part, 8), whole, part);
  }

  /** A cost text is accepted exactly when the amount printed was not negative. */
  lemma PrintedCostIsAcceptedIff(units: int)
    ensures CostPattern(FormatUnits(units)) <==> units >= 0
  {
    if units >= 0 {
      PrintedCostReadsBack(units);
    } else {
      var s := FormatUnits(units);
      var whole := SignedDecimal(Quotient(units, 100_000_000));
      var rest := SignedPadded(Remainder(units, 100_000_000));
      if whole[0] == '-' {
        assert s[0] == '-' && 1 <= PointIndex(s);
        assert s[..PointIndex(s)][0] == '-';
      } else {
        assert Quotient(units, 100_000_000) == 0;
        assert whole == "0" && Remainder(units, 100_000_000) < 0;
        PointAfterDigits(whole, rest);
        assert s[2..] == rest && rest[0] == '-';
      }
    }
  }

  // ---------- the price itself ----------

  /** Without 64-bit overflow the price is the exact ceiling: rounded up, by less than one unit. */
  lemma PriceIsCeiling(p: Price, input: nat, output: nat)
    requires Exact(p, input, output) < TWO63
    ensures var units := PricedUnits(p, input, output);
            var exact := input * p.input + output * p.output;
            0 <= units && exact <= units * 1_000_000 < exact + 1_000_000
  {
    assert 0 <= input * p.input && 0 <= output * p.output;
    var x := Exact(p, input, output);
    assert Wrap64(x) == x;
    assert x / 1_000_000 * 1_000_000 <= x < x / 1_000_000 * 1_000_000 + 1_000_000;
  }

  /** More tokens never cost less. */
  lemma PriceIsMonotone(p: Price, input: nat, output: nat, moreInput: nat, moreOutput: nat)
    requires input <= moreInput && output <= moreOutput
    requires Exact(p, moreInput, moreOutput) < TWO63
    ensures 0 <= PricedUnits(p, input, output) <= PricedUnits(p, moreInput, moreOutput)
  {
    assert input * p.input <= moreInput * p.input;
    assert output * p.output <= moreOutput * p.output;
    PriceIsCeiling(p, input, output);
    PriceIsCeiling(p, moreInput, moreOutput);
  }

  function DigitAt(s: string, i: nat): int
    requires i < |s|
  {
    s[i] as int - '0' as int
  }

  lemma ValueStep(s: string, n: nat)
    requires AllDigits(s) && n < |s|
    ensures Value(s[..n + 1]) == Value(s[..n]) * 10 + DigitAt(s, n)
  {
    assert s[..n + 1][..n] == s[..n];
  }

  lemma ValueOfEight(s: string)
    requires |s| == 8 && AllDigits(s)
    requires DigitAt(s, 0) == 0 && forall i :: 2 <= i < 8 ==> DigitAt(s, i) == 0
    ensures Value(s) == 1_000_000 * DigitAt(s, 1)
  {
    assert s[..0] == "" && s[..8] == s;
    ValueStep(s, 0); ValueStep(s, 1); ValueStep(s, 2); ValueStep(s, 3);
    ValueStep(s, 4); ValueStep(s, 5); ValueStep(s, 6); ValueStep(s, 7);
  }

  /** The two constant cost texts are worth 0.01 USD and nothing. */
  lemma ConstantCostReads(text: string, tenths: nat)
    requires (text == DEFAULT_COST && tenths == 1) || (text == "0.00000000" && tenths == 0)
    ensures CostPattern(text) && CostUnits(text) == tenths * 1_000_000
  {
    var whole, part := text[..1], text[2..];
    assert text == whole + "." + part;
    PointAfterDigits(whole, part);
    assert text[..1] == whole && text[1 + 1..] == part;
    ValueOfEight(part);
    ValueStep(whole, 0);
    assert whole[..0] == "" && whole[..1] == whole;
    assert Pow10(0) == 1;
  }

  lemma DefaultCostReads()
    ensures CostPattern(DEFAULT_COST) && CostUnits(DEFAULT_COST) == 1_000_000
    ensures CostPattern("0.00000000") && CostUnits("0.00000000") == 0
  {
    ConstantCostReads(DEFAULT_COST, 1);
    ConstantCostReads("0.00000000", 0);
  }

  /** What the gateway reports never exceeds what it reserved: for an unpriced model always, for a
      priced one when the observed tokens stay within the reserved ones. */
  lemma GatewayStaysWithinReservation(provider: string, model: string, reservedInput: nat, reservedOutput: nat,
                                      completed: bool, input: nat, output: nat)
    requires PriceOf(provider, model).Some? ==>
               && input <= reservedInput && output <= reservedOutput
               && Exact(PriceOf(provider, model).value, reservedInput, reservedOutput) < TWO63
    ensures var reserved := EstimateCost(provider, model, reservedInput, reservedOutput).0;
            var actual := FinishCost(provider, model, completed, input, output).0;
            CostPattern(reserved) && CostPattern(actual) && CostUnits(actual) <= CostUnits(reserved)
  {
    DefaultCostReads();
    match PriceOf(provider, model) {
      case None =>
      case Some(p) =>
        PriceIsMonotone(p, input, output, reservedInput, reservedOutput);
        PrintedCostReadsBack(PricedUnits(p, reservedInput, reservedOutput));
        PrintedCostReadsBack(PricedUnits(p, input, output));
    }
  }

  /** The gateway's finish, completed or not, is accepted exactly when the price did not wrap to a negative amount. */
  lemma GatewayCostIsAcceptedIff(provider: string, model: string, completed: bool, input: nat, output: nat)
    ensures CostPattern(FinishCost(provider, model, completed, input, output).0)
            <==> PriceOf(provider, model).None? || Wrap64(Exact(PriceOf(provider, model).value, input, output)) > -1_000_000
  {
    DefaultCostReads();
    if PriceOf(provider, model).Some? {
      var x := Wrap64(Exact(PriceOf(provider, model).value, input, output));
      PrintedCostIsAcceptedIff(Quotient(x, 1_000_000));
      assert Quotient(x, 1_000_000) >= 0 <==> x > -1_000_000;
    }
  }

  predicate Canonical(s: string) {
    s != "" && !IsSpace(s[0]) && !IsSpace(s[|s| - 1]) && forall i :: 0 <= i < |s| ==> LowerChar(s[i]) == s[i]
  }

  lemma CanonicalStays(s: string)
    requires Canonical(s)
    ensures Lower(TrimSpace(s)) == s
  {
    LowerKeeps(s);
  }

  lemma PriceOfKey(provider: string, model: string, key: string)
    requires Canonical(provider) && Canonical(model) && key == provider + "/" + model
    ensures key == "openai/gpt-5.4-mini" ==> PriceOf(provider, model) == Some(Price(75_000_000, 450_000_000))
  {
    CanonicalStays(provider);
    CanonicalStays(model);
    assert |"openai/gpt-5.4-mini"| == 19 && |"openai/gpt-5-mini"| == 17;
  }

  lemma MiniPrice(provider: string, model: string)
    requires provider == "openai" && model == "gpt-5.4-mini"
    ensures PriceOf(provider, model) == Some(Price(75_000_000, 450_000_000))
  {
    var key := provider + "/" + model;
    assert key == "openai/gpt-5.4-mini";
    PriceOfKey(provider, model, key);
  }

  /** A usage report of thirty billion output tokens wraps below zero: its finish is refused and the call stays open. */
  lemma HugeUsageIsRefused(provider: string, model: string, completed: bool)
    requires provider == "openai" && model == "gpt-5.4-mini"
    ensures !CostPattern(FinishCost(provider, model, completed, 0, 30_000_000_000).0)
  {
    MiniPrice(provider, model);
    WrapsBelowZero(Price(75_000_000, 450_000_000));
    GatewayCostIsAcceptedIff(provider, model, completed, 0, 30_000_000_000);
  }

  lemma WrapsBelowZero(p: Price)
    requires p == Price(75_000_000, 450_000_000)
    ensures Wrap64(Exact(p, 0, 30_000_000_000)) <= -1_000_000
  {
  }

  lemma {:induction false} LowerKeeps(s: string)
    requires forall i :: 0 <= i < |s| ==> LowerChar(s[i]) == s[i]
    ensures Lower(s) == s
  {
    if s != "" { LowerKeeps(s[1..]); }
  }
}
