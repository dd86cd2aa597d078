/**
 Fixed-point price parsing and cost estimation (crates/harness-agent/src/lib.rs,
 `decimal_microusd` and `estimate_cost_microusd`).
 */
module CostEstimate {
  import opened Wrappers
  import opened Text

  const U64_MAX: nat := 0xFFFF_FFFF_FFFF_FFFF
  const MICRO: nat := 1_000_000

  predicate IsDigit(c: char) { '0' <= c <= '9' }

  predicate Digits(s: string) { forall i :: 0 <= i < |s| ==> IsDigit(s[i]) }

  function DigitValue(c: char): nat
    requires IsDigit(c)
  {
    c as int - '0' as int
  }

  /** The number a digit string writes; zero for the empty string. */
  function Value(s: string): nat
    requires Digits(s)
    decreases |s|
  {
    if s == "" then 0 else 10 * Value(s[..|s| - 1]) + DigitValue(s[|s| - 1])
  }

  function Pow10(n: nat): (p: nat)
    ensures p >= 1
  {
    if n == 0 then 1 else 10 * Pow10(n - 1)
  }

  /** Rust's `str::parse::<u64>`: an optional plus sign and at least one digit. */
  function ParseU64(s: string): Option<nat> {
    var digits := if s != "" && s[0] == '+' then s[1..] else s;
    if digits == "" || !Digits(digits) || Value(digits) > U64_MAX then None else Some(Value(digits))
  }

  /** The index of the first '.', or the length. */
  function DotIndex(s: string): (i: nat)
    ensures i <= |s| && (i < |s| ==> s[i] == '.')
    ensures '.' !in s[..i]
    decreases |s|
  {
    if s == "" || s[0] == '.' then 0 else 1 + DotIndex(s[1..])
  }

  function FirstSix(s: string): string {
    if |s| <= 6 then s else s[..6]
  }

  /** The fraction in millionths, from its first six characters. */
  function FractionMicros(fraction: string): Option<nat> {
    var six := FirstSix(fraction);
    if six == "" then Some(0)
    else
      match ParseU64(six)
      case None => None
      case Some(v) => Some(v * Pow10(6 - |six|))
  }

  function DecimalMicrousd(value: string): Option<nat> {
    var trimmed := Trim(value);
    var dot := DotIndex(trimmed);
    var whole := trimmed[..dot];
    var fraction := if dot < |trimmed| then trimmed[dot + 1..] else "";
    match ParseU64(whole)
    case None => None
    case Some(w) =>
      match FractionMicros(fraction)
      case None => None
      case Some(f) => if w * MICRO > U64_MAX || w * MICRO + f > U64_MAX then None else Some(w * MICRO + f)
  }

  // ----- exactness -----

  lemma {:induction false} ValueOfConcat(a: string, b: string)
    requires Digits(a) && Digits(b)
    ensures Digits(a + b) && Value(a + b) == Value(a) * Pow10(|b|) + Value(b)
    decreases |b|
  {
    if b == "" {
      assert a + b == a;
    } else {
      var front := b[..|b| - 1];
      ValueOfConcat(a, front);
      assert (a + b)[..|a + b| - 1] == a + front;
      var p := Pow10(|front|);
      assert Pow10(|b|) == 10 * p;
      assert Value(a) * (10 * p) == 10 * (Value(a) * p);
    }
  }

  lemma {:induction false} ValueBelowPow(s: string)
    requires Digits(s)
    ensures Value(s) < Pow10(|s|)
    decreases |s|
  {
    if s != "" { ValueBelowPow(s[..|s| - 1]); }
  }

  lemma {:induction false} PowAdds(a: nat, b: nat)
    ensures Pow10(a) * Pow10(b) == Pow10(a + b)
    decreases a
  {
    if a > 0 {
      PowAdds(a - 1, b);
      assert Pow10(a) * Pow10(b) == 10 * (Pow10(a - 1) * Pow10(b));
    }
  }

  lemma SixIsMillion()
    ensures Pow10(6) == MICRO
  {
  }

  /** floor(v * 10^6 / p). */
  function MicrosOf(v: nat, p: nat): nat
    requires p >= 1
  {
    v * MICRO / p
  }

  lemma MulLe(p: nat, a: nat, b: nat)
    requires a <= b
    ensures p * a <= p * b
  {
  }

  /** The floor is the only number between its bounds. */
  lemma MicrosIs(v: nat, p: nat, q: nat)
    requires p >= 1 && p * q <= v * MICRO < p * (q + 1)
    ensures MicrosOf(v, p) == q
  {
    var n := v * MICRO;
    var d := MicrosOf(v, p);
    assert p * d <= n < p * (d + 1);
    if d < q {
      MulLe(p, d + 1, q);
    } else if q < d {
      MulLe(p, q + 1, d);
    }
  }

  lemma ShortFraction(f: nat, p: nat, rest: nat)
    requires p >= 1 && p * rest == MICRO && f < p
    ensures MicrosOf(f, p) == f * rest < MICRO
  {
  }

  lemma LongFraction(head: nat, tail: nat, t: nat)
    requires tail < t
    ensures MicrosOf(head * t + tail, MICRO * t) == head
  {
    var p := MICRO * t;
    var v := head * t + tail;
    assert p * head == (head * t) * MICRO;
    assert p * (head + 1) == p * head + p;
    MicrosIs(v, p, head);
  }

  lemma WholeSplitsOff(w: nat, f: nat, p: nat)
    requires p >= 1
    ensures MicrosOf(w * p + f, p) == w * MICRO + MicrosOf(f, p)
  {
    var q := MicrosOf(f, p);
    assert p * q <= f * MICRO < p * (q + 1);
    var wp := w * p;
    assert p * (w * MICRO + q) == wp * MICRO + p * q;
    assert p * (w * MICRO + q + 1) == wp * MICRO + p * (q + 1);
    MicrosIs(wp + f, p, w * MICRO + q);
  }

  /** The first six digits of the fraction are the fraction in millionths, rounded down. */
  lemma FractionIsFloor(fraction: string)
    requires Digits(fraction)
    ensures FractionMicros(fraction) == Some(MicrosOf(Value(fraction), Pow10(|fraction|)))
    ensures MicrosOf(Value(fraction), Pow10(|fraction|)) < MICRO
  {
    if |fraction| <= 6 {
      ShortFractionIsFloor(fraction);
    } else {
      assert fraction == fraction[..6] + fraction[6..];
      LongFractionIsFloor(fraction[..6], fraction[6..]);
    }
  }

  lemma ShortFractionIsFloor(fraction: string)
    requires Digits(fraction) && |fraction| <= 6
    ensures FractionMicros(fraction) == Some(MicrosOf(Value(fraction), Pow10(|fraction|)))
    ensures MicrosOf(Value(fraction), Pow10(|fraction|)) < MICRO
  {
    var p := Pow10(|fraction|);
    var rest := Pow10(6 - |fraction|);
    assert p * rest == MICRO by {
      SixIsMillion();
      PowAdds(|fraction|, 6 - |fraction|);
    }
    ValueBelowPow(fraction);
    ShortFraction(Value(fraction), p, rest);
    SmallValue(fraction);
    assert FirstSix(fraction) == fraction;
  }

  lemma LongFractionIsFloor(head: string, tail: string)
    requires Digits(head) && Digits(tail) && |head| == 6
    ensures Digits(head + tail)
    ensures FractionMicros(head + tail) == Some(MicrosOf(Value(head + tail), Pow10(|head + tail|)))
    ensures MicrosOf(Value(head + tail), Pow10(|head + tail|)) < MICRO
  {
    var t := Pow10(|tail|);
    assert Pow10(|head + tail|) == MICRO * t by {
      SixIsMillion();
      PowAdds(6, |tail|);
    }
    ValueOfConcat(head, tail);
    ValueBelowPow(tail);
    LongFraction(Value(head), Value(tail), t);
    SmallValue(head);
    assert Value(head) < MICRO by {
      SixIsMillion();
      ValueBelowPow(head);
    }
    assert FirstSix(head + tail) == head;
    assert Pow10(6 - |head|) == 1;
  }

  /** Up to six digits parse. */
  lemma SmallValue(s: string)
    requires Digits(s) && |s| <= 6
    ensures s != "" ==> ParseU64(s) == Some(Value(s))
    ensures s == "" ==> Value(s) == 0
  {
    ValueBelowPow(s);
    SixIsMillion();
    PowAdds(|s|, 6 - |s|);
    assert Pow10(|s|) <= Pow10(|s|) * Pow10(6 - |s|);
  }

  /** A price written with digits: a whole part, and a fraction after a point. */
  function Written(whole: string, fraction: string): string {
    whole + "." + fraction
  }

  /** floor(price * 10^6) for the price the digits write. */
  function ExactMicros(whole: string, fraction: string): nat
    requires Digits(whole) && Digits(fraction)
  {
    MicrosOf(Value(whole) * Pow10(|fraction|) + Value(fraction), Pow10(|fraction|))
  }

  lemma DigitsTrim(s: string)
    requires forall i :: 0 <= i < |s| ==> IsDigit(s[i]) || s[i] == '.'
    ensures Trim(s) == s
  {
  }

  lemma {:induction false} DotAfter(whole: string, rest: string)
    requires '.' !in whole
    ensures DotIndex(whole + "." + rest) == |whole|
    decreases |whole|
  {
    if whole == "" {
      assert (whole + "." + rest)[0] == '.';
    } else {
      DotAfter(whole[1..], rest);
      assert (whole + "." + rest)[1..] == whole[1..] + "." + rest;
    }
  }

  /** The two parts, put together and checked against 64 bits. */
  function Combined(whole: Option<nat>, fraction: Option<nat>): Option<nat> {
    if whole.None? || fraction.None? then None
    else if whole.value * MICRO + fraction.value > U64_MAX then None
    else Some(whole.value * MICRO + fraction.value)
  }

  lemma ParsesParts(whole: string, fraction: string)
    requires Digits(whole) && Digits(fraction)
    ensures DecimalMicrousd(Written(whole, fraction)) == Combined(ParseU64(whole), FractionMicros(fraction))
  {
    var value := Written(whole, fraction);
    DigitsTrim(value);
    DotAfter(whole, fraction);
    assert value[..|whole|] == whole && value[|whole| + 1..] == fraction;
  }

  lemma DigitsParse(s: string)
    requires Digits(s)
    ensures ParseU64(s) == if s == "" || Value(s) > U64_MAX then None else Some(Value(s))
  {
  }

  /**
   Main result: for every digit string with a whole part, parsing yields floor(price * 10^6) exactly
   when that fits in 64 bits, and nothing otherwise.
   */
  lemma ParsingIsExact(whole: string, fraction: string)
    requires Digits(whole) && Digits(fraction) && whole != ""
    ensures DecimalMicrousd(Written(whole, fraction))
            == if ExactMicros(whole, fraction) <= U64_MAX then Some(ExactMicros(whole, fraction)) else None
  {
    var w := Value(whole);
    var f := MicrosOf(Value(fraction), Pow10(|fraction|));
    assert DecimalMicrousd(Written(whole, fraction)) == Combined(if w > U64_MAX then None else Some(w), Some(f)) by {
      ParsesParts(whole, fraction);
      DigitsParse(whole);
      FractionIsFloor(fraction);
    }
    assert ExactMicros(whole, fraction) == w * MICRO + f by {
      WholeSplitsOff(w, Value(fraction), Pow10(|fraction|));
    }
  }

  /** A price without a point has the fraction zero. */
  lemma MissingFractionIsZero(whole: string)
    requires Digits(whole)
    ensures DecimalMicrousd(whole) == DecimalMicrousd(Written(whole, ""))
  {
    ParsesParts(whole, "");
    DigitsTrim(whole);
    NoDot(whole);
    assert whole[..|whole|] == whole;
  }

  lemma {:induction false} NoDot(s: string)
    requires Digits(s)
    ensures DotIndex(s) == |s|
    decreases |s|
  {
  }

  /** Without a whole part nothing is parsed. */
  lemma WholePartIsRequired(fraction: string)
    requires Digits(fraction)
    ensures DecimalMicrousd("." + fraction) == None
  {
  }

  // ----- the estimate -----

  function SaturatingAdd64(a: nat, b: nat): nat { if a + b <= U64_MAX then a + b else U64_MAX }

  function SaturatingMul64(a: nat, b: nat): nat { if a * b <= U64_MAX then a * b else U64_MAX }

  /** Micro-USD for the tokens, at rates in micro-USD per million tokens. */
  function EstimatedCost(inputRate: nat, inputTokens: nat, outputRate: nat, outputTokens: nat): nat {
    SaturatingAdd64(SaturatingMul64(inputRate, inputTokens), SaturatingMul64(outputRate, outputTokens)) / MICRO
  }

  function EstimateCost(inputPrice: string, inputTokens: nat, outputPrice: string, outputTokens: nat): Option<nat> {
    match DecimalMicrousd(inputPrice)
    case None => None
    case Some(inputRate) =>
      match DecimalMicrousd(outputPrice)
      case None => None
      case Some(outputRate) => Some(EstimatedCost(inputRate, inputTokens, outputRate, outputTokens))
  }

  /** What the tokens cost at the given rates, in whole micro-USD, without any bound. */
  function ExactCost(inputRate: nat, inputTokens: nat, outputRate: nat, outputTokens: nat): nat {
    (inputRate * inputTokens + outputRate * outputTokens) / MICRO
  }

  /** Saturation caps the exact cost, so the estimate is exact exactly while the cost stays under the cap. */
  lemma EstimateIsExactExactlyBelowCap(inputRate: nat, inputTokens: nat, outputRate: nat, outputTokens: nat)
    ensures EstimatedCost(inputRate, inputTokens, outputRate, outputTokens)
            == ExactCost(inputRate, inputTokens, outputRate, outputTokens)
            <==> ExactCost(inputRate, inputTokens, outputRate, outputTokens) <= U64_MAX / MICRO
    ensures EstimatedCost(inputRate, inputTokens, outputRate, outputTokens) <= U64_MAX / MICRO
  {
  }

  /**
   Main result on cost: for prices written with digits the estimate exists exactly when both prices fit
   64 bits as micro-USD, and is then the exact cost at those prices rounded down to 10^-6 USD, up to the cap.
   */
  lemma EstimateFromDigits(
    inputWhole: string, inputFraction: string, inputTokens: nat,
    outputWhole: string, outputFraction: string, outputTokens: nat)
    requires Digits(inputWhole) && Digits(inputFraction) && inputWhole != ""
    requires Digits(outputWhole) && Digits(outputFraction) && outputWhole != ""
    ensures var inputRate := ExactMicros(inputWhole, inputFraction);
            var outputRate := ExactMicros(outputWhole, outputFraction);
            var cost := EstimateCost(Written(inputWhole, inputFraction), inputTokens,
                                     Written(outputWhole, outputFraction), outputTokens);
            && (cost.Some? <==> inputRate <= U64_MAX && outputRate <= U64_MAX)
            && (cost.Some? ==>
                  (cost.value == ExactCost(inputRate, inputTokens, outputRate, outputTokens)
                   <==> ExactCost(inputRate, inputTokens, outputRate, outputTokens) <= U64_MAX / MICRO))
  {
    var inputRate := ExactMicros(inputWhole, inputFraction);
    var outputRate := ExactMicros(outputWhole, outputFraction);
    var input := Written(inputWhole, inputFraction);
    var output := Written(outputWhole, outputFraction);
    assert DecimalMicrousd(input) == if inputRate <= U64_MAX then Some(inputRate) else None by {
      ParsingIsExact(inputWhole, inputFraction);
    }
    assert DecimalMicrousd(output) == if outputRate <= U64_MAX then Some(outputRate) else None by {
      ParsingIsExact(outputWhole, outputFraction);
    }
    EstimateIsExactExactlyBelowCap(inputRate, inputTokens, outputRate, outputTokens);
  }

}
