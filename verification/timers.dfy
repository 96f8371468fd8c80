/**
 * Timer set-up for the ATmega328 (16 MHz): choose the smallest prescaler
 * whose compare value for the requested interrupt frequency fits the
 * timer's compare register, then record the compare value, the CTC mode and
 * the clock-select bits for that prescaler. Timer0 and Timer2 are 8-bit,
 * Timer1 is 16-bit. Register bits are kept symbolic.
 *
 * The compare value is `16000000 / (prescale * frequency) - 1`, truncated.
 * The firmware computes it in floating point; here it is the exact integer
 * quotient. The product `prescale * frequency` is evaluated in 16-bit
 * unsigned arithmetic by the firmware (both operands are `uint16_t`, which
 * is `unsigned int` on this target), so it wraps modulo 65536. The wrapping
 * computation is kept as `DeterminePrescalerAsWritten`; the set-up routines
 * use the mathematical product (`PrescalerChoice`, `DeterminePrescaler`).
 */
module Timers {
  import opened Wrappers
  import opened Arith

  type UInt16 = x: int | 0 <= x < 0x1_0000

  const CpuHz := 16000000

  /** The prescalers tried, in order. */
  const Prescalers: seq<nat> := [1, 8, 64, 256, 1024]

  /** Exclusive upper bound of a compare value: 2^16 for a 16-bit timer, 2^8 otherwise. */
  function Limit(max16bit: bool): nat {
    if max16bit then 0x1_0000 else 0x100
  }

  /** A candidate is accepted when it is positive and below the timer's limit. */
  predicate Fits(value: nat, max16bit: bool) {
    value > 0 && value < Limit(max16bit)
  }

  /**
   * `16000000 / divisor - 1` truncated toward zero: a quotient below one
   * gives a number in (-1, 0), which truncates to 0.
   */
  function CompareValue(divisor: nat): (v: nat)
    requires divisor > 0
    ensures divisor <= CpuHz ==> (v + 1) * divisor <= CpuHz < (v + 2) * divisor
    ensures divisor > CpuHz ==> v == 0
  {
    if divisor > CpuHz then 0 else CpuHz / divisor - 1
  }

  /** `uint16_t * uint16_t` with a 16-bit `unsigned int`: the product modulo 65536. */
  function Mul16(a: UInt16, b: UInt16): (r: UInt16)
    ensures a * b < 0x1_0000 ==> r == a * b
    ensures (a * b - r) % 0x1_0000 == 0
  {
    var p := a * b;
    MulNonNegative(a, b);
    if p < 0x1_0000 then DivModOfBracket(p, 0x1_0000, 0); p % 0x1_0000
    else p % 0x1_0000
  }

  /**
   * The candidate compare values as the firmware computes them. A product
   * that wraps to 0 is a division by zero, whose conversion to an integer C
   * leaves undefined; it is counted here as a rejected candidate (0).
   */
  function CandidatesAsWritten(frequency: UInt16): (vs: seq<nat>)
    ensures |vs| == |Prescalers|
  {
    seq(|Prescalers|, k requires 0 <= k < |Prescalers| =>
      var d := Mul16(Prescalers[k], frequency);
      if d == 0 then 0 else CompareValue(d))
  }

  /** The candidate compare values with the mathematical product. */
  function Candidates(frequency: UInt16): (vs: seq<nat>)
    requires frequency > 0
    ensures |vs| == |Prescalers|
  {
    seq(|Prescalers|, k requires 0 <= k < |Prescalers| => CompareValue(Prescalers[k] * frequency))
  }

  /** Index of the first value from position `i` on that fits, if any. */
  function FirstFit(vs: seq<nat>, max16bit: bool, i: nat): (r: Option<nat>)
    requires i <= |vs|
    ensures r.Some? ==> i <= r.value < |vs| && Fits(vs[r.value], max16bit) &&
                        forall j :: i <= j < r.value ==> !Fits(vs[j], max16bit)
    ensures r.None? ==> forall j :: i <= j < |vs| ==> !Fits(vs[j], max16bit)
    decreases |vs| - i
  {
    if i == |vs| then None
    else if Fits(vs[i], max16bit) then Some(i)
    else FirstFit(vs, max16bit, i + 1)
  }

  datatype Choice = Choice(prescale: nat, clockmatch: nat)

  function ChoiceAt(vs: seq<nat>, k: Option<nat>): Option<Choice>
    requires |vs| == |Prescalers|
    requires k.Some? ==> k.value < |vs|
  {
    match k
    case None => None
    case Some(i) => Some(Choice(Prescalers[i], vs[i]))
  }

  /** The selection exactly as the firmware computes it, with the 16-bit product. */
  function DeterminePrescalerAsWritten(frequency: UInt16, max16bit: bool): (r: Option<Choice>)
    ensures r.Some? ==> Fits(r.value.clockmatch, max16bit)
  {
    var vs := CandidatesAsWritten(frequency);
    ChoiceAt(vs, FirstFit(vs, max16bit, 0))
  }

  /** The selection with the mathematical product: the first prescaler whose compare value fits. */
  function PrescalerChoice(frequency: UInt16, max16bit: bool): (r: Option<Choice>)
    requires frequency > 0
    ensures r.Some? ==> Fits(r.value.clockmatch, max16bit)
  {
    var vs := Candidates(frequency);
    ChoiceAt(vs, FirstFit(vs, max16bit, 0))
  }

  /**
   * 100 Hz on an 8-bit timer: with the wrapping product no prescaler is
   * accepted (1024 * 100 wraps to 36864, giving 433), so the firmware halts;
   * with the mathematical product prescaler 1024 gives compare value 155.
   */
  lemma HundredHertzEightBit()
    ensures DeterminePrescalerAsWritten(100, false) == None
    ensures PrescalerChoice(100, false) == Some(Choice(1024, 155))
  {
    var w := CandidatesAsWritten(100);
    assert Mul16(1024, 100) == 36864;
    assert CompareValue(36864) == 433;
    assert CompareValue(25600) == 624;
    assert CompareValue(6400) == 2499;
    assert CompareValue(800) == 19999;
    assert CompareValue(100) == 159999;
    assert w[4] == 433 && w[3] == 624 && w[2] == 2499 && w[1] == 19999 && w[0] == 159999;
    FirstFitSkips(w, false, 0, 5);
    var c := Candidates(100);
    assert CompareValue(102400) == 155;
    assert c[4] == 155 && c[3] == 624 && c[2] == 2499 && c[1] == 19999 && c[0] == 159999;
    FirstFitSkips(c, false, 0, 4);
  }

  /** While no product reaches 65536 the two computations agree. */
  lemma AgreeWithoutWrap(frequency: UInt16, max16bit: bool)
    requires 0 < frequency < 64
    ensures DeterminePrescalerAsWritten(frequency, max16bit) == PrescalerChoice(frequency, max16bit)
  {
    assert CandidatesAsWritten(frequency) == Candidates(frequency);
  }

  /**
   * `determinePrescaler` with the mathematical product. The out-parameters
   * are as the firmware leaves them: `clockmatch` stays 0 when no prescaler
   * is accepted, and `prescale` is then the last one tried.
   */
  method DeterminePrescaler(frequency: UInt16, max16bit: bool) returns (prescale: nat, clockmatch: nat)
    requires frequency > 0
    ensures clockmatch == 0 <==> PrescalerChoice(frequency, max16bit).None?
    ensures clockmatch != 0 ==> PrescalerChoice(frequency, max16bit) == Some(Choice(prescale, clockmatch))
    ensures clockmatch == 0 ==> prescale == 1024
  {
    prescale := 0;
    clockmatch := 0;
    ghost var vs := Candidates(frequency);
    var i := 0;
    while i < |Prescalers|
      invariant 0 <= i <= |Prescalers|
      invariant clockmatch == 0
      invariant forall j :: 0 <= j < i ==> !Fits(vs[j], max16bit)
      invariant i > 0 ==> prescale == Prescalers[i - 1]
    {
      prescale := Prescalers[i];
      var value := CompareValue(prescale * frequency);
      if value > 0 && ((max16bit && value < 65536) || (!max16bit && value < 256)) {
        clockmatch := value;
        assert FirstFit(vs, max16bit, i) == Some(i);
        FirstFitSkips(vs, max16bit, 0, i);
        return;
      }
      i := i + 1;
    }
    FirstFitSkips(vs, max16bit, 0, |vs|);
  }

  /** Skipping a run of values that do not fit does not change the first fit. */
  lemma {:induction false} FirstFitSkips(vs: seq<nat>, max16bit: bool, i: nat, k: nat)
    requires i <= k <= |vs|
    requires forall j :: i <= j < k ==> !Fits(vs[j], max16bit)
    ensures FirstFit(vs, max16bit, i) == FirstFit(vs, max16bit, k)
    decreases k - i
  {
    if i < k {
      FirstFitSkips(vs, max16bit, i + 1, k);
    }
  }

  datatype TimerId = Timer0 | Timer1 | Timer2

  /** Clock-select bits CSn0, CSn1, CSn2 of a timer's control register B. */
  datatype ClockBit = CS0 | CS1 | CS2

  /** The register settings a `setupTimerN` routine makes. */
  datatype TimerSetup = TimerSetup(compareMatch: nat, ctcMode: bool, clockSelect: set<ClockBit>, compareInterrupt: bool)

  datatype SetupResult = Configured(setup: TimerSetup) | Halted(message: string)

  const HaltMessage := "ERROR: Unable to set up timer at the provided frequency!"

  /** Only Timer1 has a 16-bit compare register. */
  function Is16Bit(t: TimerId): bool {
    t == Timer1
  }

  /** The three clock-select bits read as a binary number, CSn0 the least significant. */
  function ClockSelectCode(bits: set<ClockBit>): nat {
    (if CS0 in bits then 1 else 0) + (if CS1 in bits then 2 else 0) + (if CS2 in bits then 4 else 0)
  }

  /**
   * The clock-select bits each timer sets for a prescaler: the k-th
   * prescaler gets clock-select code k + 1, so different prescalers get
   * different bits; any other value sets no bit.
   */
  function ClockSelect(prescale: nat): (bits: set<ClockBit>)
    ensures forall k :: 0 <= k < |Prescalers| && Prescalers[k] == prescale ==> ClockSelectCode(bits) == k + 1
    ensures prescale !in Prescalers ==> bits == {}
  {
    if prescale == 1 then {CS0}
    else if prescale == 8 then {CS1}
    else if prescale == 64 then {CS0, CS1}
    else if prescale == 256 then {CS2}
    else if prescale == 1024 then {CS2, CS0}
    else {}
  }

  /**
   * `setupTimer0`, `setupTimer1` and `setupTimer2`: the compare register gets
   * the chosen compare value, CTC mode is requested, the clock-select bits
   * encode the chosen prescaler and the compare interrupt is enabled. When no
   * prescaler fits, the firmware prints an error and halts.
   */
  method SetupTimer(t: TimerId, frequency: UInt16) returns (r: SetupResult)
    requires frequency > 0
    ensures r.Halted? <==> PrescalerChoice(frequency, Is16Bit(t)).None?
    ensures r.Halted? ==> r.message == HaltMessage
    ensures r.Configured? ==>
              var c := PrescalerChoice(frequency, Is16Bit(t)).value;
              r.setup == TimerSetup(c.clockmatch, true, ClockSelect(c.prescale), true) &&
              0 < r.setup.compareMatch < Limit(Is16Bit(t))
  {
    var prescale, clockmatch := DeterminePrescaler(frequency, Is16Bit(t));
    if clockmatch == 0 {
      return Halted(HaltMessage);
    }
    r := Configured(TimerSetup(clockmatch, true, ClockSelect(prescale), true));
  }
}
