/** The rotary encoder value model shared by every encoder variant
    (`RotaryEncoder`), and the quadrature decoding with time-based
    acceleration of `HardwareRotaryEncoder`.

    The C++ code derives `HardwareRotaryEncoder` from `RotaryEncoder` and
    overrides the virtual `encoderChanged`; here both are one class whose
    constant `kind` says whether the hardware part is present.  Values handed
    to the `EncoderCallbackFn` are recorded in the ghost log `reported`. */
module Encoders {
  import opened Types

  datatype EncoderUserIntention = ChangeValue | ScrollThroughItems | DirectionOnly
  datatype HWAccelerationMode = HwAccelNone | HwAccelRegular | HwAccelSlower
  datatype EncoderType = QuarterCycle | HalfCycle | FullCycle

  const ONE_TURN_OF_ENCODER: int := 32

  /** The value part of an encoder. */
  datatype Reading = Reading(maximumValue: uint16, currentReading: uint16, rollover: bool, intent: EncoderUserIntention)

  function Abs(x: int): nat { if x < 0 then -x else x }

  function Clamp(x: int, lo: int, hi: int): int
    requires lo <= hi
  {
    if x < lo then lo else if x > hi then hi else x
  }

  // ---- increment ------------------------------------------------------------

  /** The negative-step branch of `increment`: an underflow either clamps to 0
      or, with rollover, lands on maximumValue - |incVal| + 1 whatever the
      current reading was. */
  function NegativeStep(maximumValue: uint16, currentReading: uint16, rollover: bool, incVal: int8): (r: uint16)
    requires incVal < 0
    ensures currentReading >= Abs(incVal) ==> r == currentReading + incVal
    ensures currentReading < Abs(incVal) && !rollover ==> r == 0
    ensures currentReading < Abs(incVal) && rollover && Abs(incVal) <= maximumValue + 1 ==>
              r == maximumValue + 1 + incVal
  {
    if currentReading < Abs(incVal) then
      if rollover then ToUint16(maximumValue - Abs(incVal) + 1) else 0
    else if currentReading != 0 then currentReading + incVal
    else currentReading
  }

  /** The new reading of a bounded encoder exactly as `increment` computes it:
      a non-negative step is added in 16 bits (stored into the `uint16_t`
      reading with rollover, cast to `uint16_t` before `min` without). */
  function NextReadingAsWritten(maximumValue: uint16, currentReading: uint16, rollover: bool, incVal: int8): (r: uint16)
    ensures (maximumValue > 0 && currentReading <= maximumValue && (rollover ==> Abs(incVal) <= maximumValue + 1))
              ==> r <= maximumValue
  {
    if incVal >= 0 then
      if rollover then
        var sum := ToUint16(currentReading + incVal);
        if sum > maximumValue then sum - maximumValue - 1 else sum
      else
        Min(ToUint16(currentReading + incVal), maximumValue)
    else
      NegativeStep(maximumValue, currentReading, rollover, incVal)
  }

  /** The new reading of a bounded encoder with the non-negative sum kept
      exact (the model's encoder): saturate at the maximum, or wrap past it. */
  function NextReading(maximumValue: uint16, currentReading: uint16, rollover: bool, incVal: int8): (r: uint16)
    ensures (maximumValue > 0 && currentReading <= maximumValue && (rollover ==> Abs(incVal) <= maximumValue + 1))
              ==> r <= maximumValue
    ensures !rollover && currentReading <= maximumValue ==> r == Clamp(currentReading + incVal, 0, maximumValue)
    ensures (rollover && currentReading <= maximumValue && Abs(incVal) <= maximumValue + 1 && currentReading + incVal >= 0)
              ==> r == (currentReading + incVal) % (maximumValue + 1)
    ensures rollover && currentReading + incVal < 0 ==> r == ToUint16(maximumValue + 1 + incVal)
  {
    if incVal >= 0 then
      var sum := currentReading + incVal;
      if rollover then
        var r := if sum > maximumValue then ToUint16(sum - maximumValue - 1) else sum;
        if sum < 2 * (maximumValue + 1) then
          ModOfSmall(sum, maximumValue + 1);
          r
        else
          r
      else
        Min(sum, maximumValue)
    else
      var r := NegativeStep(maximumValue, currentReading, rollover, incVal);
      if Abs(incVal) <= currentReading < 2 * (maximumValue + 1) then
        ModOfSmall(currentReading + incVal, maximumValue + 1);
        r
      else
        r
  }

  /** `x % m` for 0 <= x < 2 * m. */
  lemma ModOfSmall(x: int, m: int)
    requires m > 0 && 0 <= x < 2 * m
    ensures x % m == if x < m then x else x - m
  {
    if x >= m {
      assert x == m + (x - m);
      assert (x - m) / m == 0;
      assert x / m == 1;
    }
  }

  /** The reading after `increment(incVal)`; direction-only encoders keep none. */
  function Incremented(e: Reading, incVal: int8): (r: Reading)
    ensures r.maximumValue == e.maximumValue && r.rollover == e.rollover && r.intent == e.intent
    ensures e.maximumValue == 0 ==> r == e
  {
    if e.maximumValue == 0 then e
    else e.(currentReading := NextReading(e.maximumValue, e.currentReading, e.rollover, incVal))
  }

  /** The value `increment` hands to the callback: the raw step in
      direction-only mode, otherwise the new reading. */
  function Reported(e: Reading, incVal: int8): (r: int)
    ensures e.maximumValue == 0 ==> r == incVal
    ensures (e.maximumValue > 0 && e.currentReading <= e.maximumValue && (e.rollover ==> Abs(incVal) <= e.maximumValue + 1))
              ==> 0 <= r <= e.maximumValue
  {
    if e.maximumValue == 0 then incVal else Incremented(e, incVal).currentReading
  }

  /** `changePrecision(maxValue, currentValue, rolloverOnMax)`: the reading is
      the `int` argument stored into 16 bits; zero maximum and zero value select
      direction-only mode, otherwise the intention is kept. */
  function WithPrecision(e: Reading, maxValue: uint16, currentValue: int, rolloverOnMax: bool): (r: Reading)
    ensures r.maximumValue == maxValue && r.rollover == rolloverOnMax
    ensures 0 <= currentValue < 0x1_0000 ==> r.currentReading == currentValue
    ensures (r.currentReading - currentValue) % 0x1_0000 == 0
    ensures maxValue == 0 && currentValue == 0 ==> r.intent == DirectionOnly
    ensures !(maxValue == 0 && currentValue == 0) ==> r.intent == e.intent
  {
    Reading(maxValue, ToUint16(currentValue), rolloverOnMax,
            if maxValue == 0 && currentValue == 0 then DirectionOnly else e.intent)
  }

  /** `setUserIntention(intention)`: direction-only also discards the bound and the reading. */
  function WithIntention(e: Reading, intention: EncoderUserIntention): (r: Reading)
    ensures r.intent == intention && r.rollover == e.rollover
    ensures intention == DirectionOnly ==> r.maximumValue == 0 && r.currentReading == 0
    ensures intention != DirectionOnly ==> r.maximumValue == e.maximumValue && r.currentReading == e.currentReading
  {
    var r := e.(intent := intention);
    if intention == DirectionOnly then r.(maximumValue := 0, currentReading := 0) else r
  }

  // ---- hardware encoder: acceleration and decoding ---------------------------

  /** Microseconds since `last`, as the 32-bit `unsigned long` subtraction gives them. */
  function Elapsed(now: uint32, last: uint32): (r: uint32)
    ensures last <= now ==> r == now - last
    ensures now < last ==> r == now + 0x1_0000_0000 - last
  {
    (now - last) % 0x1_0000_0000
  }

  /** `amountFromChange(change)`: the step size for a detent `change`
      microseconds after the previous one. */
  function AmountFromChange(mode: HWAccelerationMode, maximumValue: uint16, change: uint32): (r: int)
    ensures 1 <= r <= 10
    ensures change > 250000 || maximumValue < ONE_TURN_OF_ENCODER || mode == HwAccelNone ==> r == 1
    ensures mode == HwAccelSlower ==> r <= 4
  {
    if change > 250000 || maximumValue < ONE_TURN_OF_ENCODER then 1
    else if mode == HwAccelNone then 1
    else if mode == HwAccelRegular then
      if change > 120000 then 2
      else if change > 70000 then 4
      else if change > 30000 then 6
      else 10
    else
      if change > 100000 then 2
      else if change > 30000 then 3
      else 4
  }

  /** The remembered levels of the quadrature decoder. */
  datatype Decoder = Decoder(aLast: uint8, cleanFromB: uint8)
  datatype Decoded = Decoded(next: Decoder, step: bool)

  /** The gating of `encoderChanged` for levels `a` and `b`, exactly as nested
      in the C++ code.  Whatever the cycle type, `aLast` ends equal to `a`.
      QUARTER_CYCLE re-tests after `aLast = a`, so it steps exactly when B
      differs from the clean B level, and its final level test always holds;
      HALF_CYCLE and FULL_CYCLE step when A changed, B differs from the clean
      level and A is active, and move the clean level only when A changed. */
  function Decode(encoderType: EncoderType, d: Decoder, a: uint8, b: uint8): (r: Decoded)
    ensures r.next.aLast == a
    ensures encoderType == QuarterCycle ==> r.next.cleanFromB == b && (r.step <==> b != d.cleanFromB)
    ensures encoderType != QuarterCycle ==>
              && r.next.cleanFromB == (if a != d.aLast then b else d.cleanFromB)
              && (r.step <==> a != d.aLast && b != d.cleanFromB && a != 0)
  {
    if encoderType == QuarterCycle then
      if a != d.aLast || b != d.cleanFromB then
        var aLast := a;
        if a != aLast || b != d.cleanFromB then
          var cleanFromB := b;
          Decoded(Decoder(aLast, cleanFromB), (a != 0 || cleanFromB != 0) || (a == 0 && b == 0))
        else
          Decoded(Decoder(aLast, d.cleanFromB), false)
      else
        Decoded(d, false)
    else
      if a != d.aLast then
        if b != d.cleanFromB then Decoded(Decoder(a, b), a != 0)
        else Decoded(Decoder(a, d.cleanFromB), false)
      else
        Decoded(d, false)
  }

  /** The signed step: negative when the levels differ. */
  function StepDelta(a: uint8, b: uint8, amount: int): (r: int)
    ensures Abs(r) == Abs(amount)
    ensures amount > 0 ==> (r < 0 <==> a != b)
  {
    if a != b then -amount else amount
  }

  datatype EncoderKind = Generic | Quadrature(pinA: PinId, pinB: PinId)

  /** Everything an encoder keeps that its operations change. */
  datatype EncoderState = EncoderState(value: Reading, decoder: Decoder, lastChange: uint32,
                                       accelerationMode: HWAccelerationMode, encoderType: EncoderType,
                                       lastSyncStatus: bool, reported: seq<int>)

  /** What a hardware encoder does on one edge interrupt: it records the sync
      result and runs the gating of `Decode`; on a step it increments by the
      accelerated amount in the direction B gives, reports once and restarts
      the timing, otherwise its value and timing stay as they were. */
  function OnEdge(s: EncoderState, syncOk: bool, a: uint8, b: uint8, now: uint32): EncoderState
  {
    var r := Decode(s.encoderType, s.decoder, a, b);
    var delta := StepDelta(a, b, AmountFromChange(s.accelerationMode, s.value.maximumValue,
                                                  Elapsed(now, s.lastChange)));
    var t := s.(lastSyncStatus := syncOk, decoder := r.next);
    if r.step then
      t.(value := Incremented(s.value, delta), lastChange := now,
         reported := s.reported + [Reported(s.value, delta)])
    else
      t
  }

  class RotaryEncoder {
    var maximumValue: uint16
    var currentReading: uint16
    var lastSyncStatus: bool
    var rollover: bool
    var intent: EncoderUserIntention
    /** Every value passed to the change callback, in order. */
    ghost var reported: seq<int>

    /** Generic for the base class and the up/down button encoder; Quadrature for a quadrature encoder. */
    const kind: EncoderKind
    var lastChange: uint32
    var aLast: uint8
    var cleanFromB: uint8
    var accelerationMode: HWAccelerationMode
    var encoderType: EncoderType

    function Value(): Reading
      reads this
    {
      Reading(maximumValue, currentReading, rollover, intent)
    }

    function DecoderState(): Decoder
      reads this
    {
      Decoder(aLast, cleanFromB)
    }

    ghost function State(): EncoderState
      reads this
    {
      EncoderState(Value(), DecoderState(), lastChange, accelerationMode, encoderType, lastSyncStatus, reported)
    }

    /** The base constructor: direction-only maximum, reading zero, intention CHANGE_VALUE. */
    constructor ()
      ensures kind == Generic && Value() == Reading(0, 0, false, ChangeValue)
      ensures lastSyncStatus && reported == []
    {
      currentReading := 0;
      maximumValue := 0;
      lastSyncStatus := true;
      rollover := false;
      intent := ChangeValue;
      reported := [];
      kind := Generic;
    }

    /** A hardware encoder on pins A and B; the first sync result, the initial
        levels and the clock reading are parameters. */
    constructor Hardware(pinA: PinId, pinB: PinId, accelerationMode: HWAccelerationMode, encoderType: EncoderType,
                         syncOk: bool, initialA: uint8, initialB: uint8, now: uint32)
      ensures kind == Quadrature(pinA, pinB) && Value() == Reading(0, 0, false, ChangeValue)
      ensures this.accelerationMode == accelerationMode && this.encoderType == encoderType
      ensures lastSyncStatus == syncOk && DecoderState() == Decoder(initialA, initialB) && lastChange == now
      ensures reported == []
    {
      currentReading := 0;
      maximumValue := 0;
      rollover := false;
      intent := ChangeValue;
      reported := [];
      kind := Quadrature(pinA, pinB);
      lastChange := now;
      this.accelerationMode := accelerationMode;
      this.encoderType := encoderType;
      lastSyncStatus := syncOk;
      aLast := initialA;
      cleanFromB := initialB;
    }

    method ChangePrecision(maxValue: uint16, currentValue: int, rolloverOnMax: bool)
      modifies this`maximumValue, this`currentReading, this`rollover, this`intent, this`reported
      ensures Value() == WithPrecision(old(Value()), maxValue, currentValue, rolloverOnMax)
      ensures reported == old(reported) + [currentReading]
    {
      maximumValue := maxValue;
      currentReading := ToUint16(currentValue);
      rollover := rolloverOnMax;
      if maxValue == 0 && currentValue == 0 {
        intent := DirectionOnly;
      }
      reported := reported + [currentReading];
    }

    function GetCurrentReading(): int
      reads this
    {
      currentReading
    }

    /** `setCurrentReading(reading)`: the `int` is stored into 16 bits. */
    method SetCurrentReading(reading: int)
      modifies this`currentReading
      ensures currentReading == ToUint16(reading)
      ensures 0 <= reading < 0x1_0000 ==> GetCurrentReading() == reading
    {
      currentReading := ToUint16(reading);
    }

    method Increment(incVal: int8)
      modifies this`currentReading, this`reported
      ensures Value() == Incremented(old(Value()), incVal)
      ensures reported == old(reported) + [Reported(old(Value()), incVal)]
    {
      if maximumValue == 0 {
        reported := reported + [incVal];
        return;
      }
      if incVal >= 0 {
        if rollover {
          var sum := currentReading + incVal;
          currentReading := if sum > maximumValue then ToUint16(sum - maximumValue - 1) else sum;
        } else {
          currentReading := Min(currentReading + incVal, maximumValue);
        }
      } else if currentReading < Abs(incVal) {
        currentReading := if rollover then ToUint16(maximumValue - Abs(incVal) + 1) else 0;
      } else if currentReading != 0 {
        currentReading := currentReading + incVal;
      }
      reported := reported + [currentReading];
    }

    function DidLastSyncSucceed(): bool
      reads this
    {
      lastSyncStatus
    }

    method SetUserIntention(intention: EncoderUserIntention)
      modifies this`intent, this`maximumValue, this`currentReading
      ensures Value() == WithIntention(old(Value()), intention)
    {
      intent := intention;
      if intention == DirectionOnly {
        maximumValue := 0;
        currentReading := 0;
      }
    }

    function GetUserIntention(): EncoderUserIntention
      reads this
    {
      intent
    }

    method SetAccelerationMode(mode: HWAccelerationMode)
      modifies this`accelerationMode
      ensures accelerationMode == mode
    {
      accelerationMode := mode;
    }

    /** `setEncoderType` as intended: the encoder type becomes `encoderType`. */
    method SetEncoderType(encoderType: EncoderType)
      modifies this`encoderType
      ensures this.encoderType == encoderType
    {
      this.encoderType := encoderType;
    }

    /** `setEncoderType` as written: its parameter shadows the member and is
        assigned to itself, so the encoder type never changes. */
    method SetEncoderTypeAsWritten(encoderType: EncoderType)
      ensures this.encoderType == old(this.encoderType)
    {
      var shadowed := encoderType;
      shadowed := shadowed;
    }

    /** The encoder type read back after `setEncoderType(t)` as written: a
        type other than the current one is never taken. */
    method EncoderTypeAfterSetAsWritten(t: EncoderType) returns (r: EncoderType)
      ensures r == encoderType
      ensures encoderType != t ==> r != t
    {
      SetEncoderTypeAsWritten(t);
      r := encoderType;
    }

    /** The step taken once an edge passes the gating: the amount for the
        time since the last step, negative when the levels differ, is
        added, and the timing restarts at `now`. */
    method Advance(a: uint8, b: uint8, now: uint32)
      modifies this`currentReading, this`reported, this`lastChange
      ensures var s := old(State());
              var delta := StepDelta(a, b, AmountFromChange(s.accelerationMode, s.value.maximumValue, Elapsed(now, s.lastChange)));
              State() == s.(value := Incremented(s.value, delta), lastChange := now,
                            reported := s.reported + [Reported(s.value, delta)])
    {
      var timeNow := now;
      var amt := AmountFromChange(accelerationMode, maximumValue, Elapsed(timeNow, lastChange));
      Increment(if a != b then -amt else amt);
      lastChange := timeNow;
    }

    /** One edge interrupt.  The base class ignores it; a hardware encoder
        records the sync result, runs the gating of `Decode` and, on a step,
        increments by the accelerated amount and restarts the timing. */
    method EncoderChanged(syncOk: bool, a: uint8, b: uint8, now: uint32)
      modifies this
      ensures kind.Generic? ==> unchanged(this)
      ensures kind.Quadrature? ==> State() == OnEdge(old(State()), syncOk, a, b, now)
    {
      if kind.Generic? {
        return;
      }
      lastSyncStatus := syncOk;
      if encoderType == QuarterCycle {
        if a != aLast || b != cleanFromB {
          aLast := a;
          if a != aLast || b != cleanFromB {
            cleanFromB := b;
            if (a != 0 || cleanFromB != 0) || (a == 0 && b == 0) {
              Advance(a, b, now);
            }
          }
        }
      } else {
        if a != aLast {
          aLast := a;
          if b != cleanFromB {
            cleanFromB := b;
            if a != 0 {
              Advance(a, b, now);
            }
          }
        }
      }
    }
  }
}
