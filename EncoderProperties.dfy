/** Properties of the encoder value model and of the quadrature decoding. */
module EncoderProperties {
  import opened Types
  import opened Encoders

  // ---- increment --------------------------------------------------------------

  /** Worked examples of the two bounded modes: a non-rollover encoder stops at
      its maximum, a rollover encoder wraps past it once, and a rollover
      underflow counts back from the maximum by |incVal| - 1. */
  lemma IncrementExamples()
    ensures NextReading(10, 8, false, 15) == 10
    ensures NextReading(10, 9, true, 3) == 1
    ensures NextReading(10, 2, false, -5) == 0
    ensures NextReading(10, 2, true, -5) == 6
  {
  }

  /** `x % m` for -m <= x < 0. */
  lemma ModOfNegativeSmall(x: int, m: int)
    requires m > 0 && -m <= x < 0
    ensures x % m == x + m
  {
    assert x == m * (-1) + (x + m);
    assert 0 <= x + m < m;
  }

  /** A rollover underflow lands on maximumValue - |incVal| + 1 whatever the
      current reading: it agrees with wrapping modulo maximumValue + 1 only
      when the reading was 0. */
  lemma {:induction false} UnderflowIgnoresCurrent(maximumValue: uint16, currentReading: uint16, incVal: int8)
    requires incVal < 0 && currentReading < Abs(incVal) <= maximumValue + 1
    ensures NextReading(maximumValue, currentReading, true, incVal) == (currentReading + incVal) % (maximumValue + 1)
            <==> currentReading == 0
  {
    ModOfNegativeSmall(currentReading + incVal, maximumValue + 1);
    assert NextReading(maximumValue, currentReading, true, incVal) == maximumValue + 1 + incVal;
  }

  /** Where the 16-bit sum does not overflow, the C++ arithmetic and the model's agree. */
  lemma AsWrittenAgreesWithoutOverflow(maximumValue: uint16, currentReading: uint16, rollover: bool, incVal: int8)
    requires currentReading + incVal < 0x1_0000
    ensures NextReadingAsWritten(maximumValue, currentReading, rollover, incVal)
            == NextReading(maximumValue, currentReading, rollover, incVal)
  {
  }

  /** The 16-bit truncation as written: a non-rollover encoder at its maximum
      of 65535 stepped up by one reads 0, and a rollover encoder with maximum
      65534 stepped up by 5 from 65534 reads 3 instead of 4. */
  lemma IncrementTruncatesAsWritten()
    ensures NextReadingAsWritten(65535, 65535, false, 1) == 0
    ensures NextReading(65535, 65535, false, 1) == 65535
    ensures NextReadingAsWritten(65534, 65534, true, 5) == 3
    ensures NextReading(65534, 65534, true, 5) == 4
  {
  }

  /** In direction-only mode an increment leaves the reading alone and hands
      the raw step to the callback. */
  lemma DirectionOnlyForwardsSteps(e: Reading, incVal: int8)
    ensures var d := WithIntention(e, DirectionOnly);
            Incremented(d, incVal) == d && Reported(d, incVal) == incVal
  {
  }

  /** Any increment of a reading within its bounds stays within them. */
  lemma IncrementStaysInRange(e: Reading, incVal: int8)
    requires e.currentReading <= e.maximumValue
    requires e.rollover ==> Abs(incVal) <= e.maximumValue + 1
    ensures Incremented(e, incVal).currentReading <= e.maximumValue
  {
  }

  // ---- acceleration -----------------------------------------------------------

  /** A slower turn never gives a bigger step. */
  lemma AmountNonIncreasing(mode: HWAccelerationMode, maximumValue: uint16, c1: uint32, c2: uint32)
    requires c1 <= c2
    ensures AmountFromChange(mode, maximumValue, c2) <= AmountFromChange(mode, maximumValue, c1)
  {
  }

  /** Elapsed time survives the 32-bit clock wrapping between two detents. */
  lemma ElapsedAcrossWrap(last: uint32, delta: uint32)
    ensures Elapsed((last + delta) % 0x1_0000_0000, last) == delta
  {
  }

  // ---- decoding ---------------------------------------------------------------

  /** Feeding the same levels twice: the second call changes nothing and does not step. */
  lemma DecodeIdempotent(encoderType: EncoderType, d: Decoder, a: uint8, b: uint8)
    ensures var r := Decode(encoderType, d, a, b);
            Decode(encoderType, r.next, a, b) == Decoded(r.next, false)
  {
  }

  /** HALF_CYCLE and FULL_CYCLE decode alike. */
  lemma HalfAndFullCycleAgree(d: Decoder, a: uint8, b: uint8)
    ensures Decode(HalfCycle, d, a, b) == Decode(FullCycle, d, a, b)
  {
  }

  /** In HALF_CYCLE and FULL_CYCLE a step only fires with A high, so its sign
      is given by B alone: negative exactly when B is low. */
  lemma CycleStepSign(encoderType: EncoderType, d: Decoder, a: uint8, b: uint8, amount: int)
    requires encoderType != QuarterCycle && a <= 1 && b <= 1 && amount > 0
    requires Decode(encoderType, d, a, b).step
    ensures StepDelta(a, b, amount) < 0 <==> b == 0
  {
  }

  /** The unit steps produced by a sequence of sampled (A, B) levels. */
  function DecodeRun(encoderType: EncoderType, d: Decoder, samples: seq<(uint8, uint8)>): (steps: seq<int>)
    decreases |samples|
    ensures |steps| <= |samples|
    ensures forall s | s in steps :: s == 1 || s == -1
    ensures (encoderType != QuarterCycle && forall j | 0 <= j < |samples| :: samples[j].0 <= 1 && samples[j].1 == 1)
              ==> forall s | s in steps :: s == 1
    ensures (encoderType != QuarterCycle && forall j | 0 <= j < |samples| :: samples[j].0 <= 1 && samples[j].1 == 0)
              ==> forall s | s in steps :: s == -1
  {
    if samples == [] then []
    else
      var r := Decode(encoderType, d, samples[0].0, samples[0].1);
      (if r.step then [StepDelta(samples[0].0, samples[0].1, 1)] else [])
        + DecodeRun(encoderType, r.next, samples[1..])
  }

  /** Sampled on the A edges of two full turns from rest: B leading A steps up
      once per turn, A leading B steps down (its first turn only primes the
      clean B level). */
  lemma FullCycleDirection()
    ensures DecodeRun(FullCycle, Decoder(0, 0), [(1, 1), (0, 0), (1, 1), (0, 0)]) == [1, 1]
    ensures DecodeRun(FullCycle, Decoder(0, 0), [(1, 0), (0, 1), (1, 0), (0, 1)]) == [-1]
  {
  }

  /** QUARTER_CYCLE steps on every A edge once B has moved. */
  lemma QuarterCycleDirection()
    ensures DecodeRun(QuarterCycle, Decoder(0, 0), [(1, 1), (0, 0), (1, 1), (0, 0)]) == [1, 1, 1, 1]
    ensures DecodeRun(QuarterCycle, Decoder(0, 0), [(1, 0), (0, 1), (1, 0), (0, 1)]) == [-1, -1, -1]
  {
  }

  /** A rising and then B rising, sampled at both edges, gives no step at all
      in FULL_CYCLE: the second sample has A unchanged. */
  lemma RisingAThenRisingBIsSilent()
    ensures DecodeRun(FullCycle, Decoder(0, 0), [(1, 0), (1, 1)]) == []
  {
  }

  /** What one edge interrupt does to a hardware encoder: the sync result is
      recorded, A is remembered, the mode, the cycle type, the bound, the
      rollover and the intention are kept; a step reports exactly one value
      (1 or -1 by direction in direction-only mode) and restarts the
      timing, no step changes neither value nor timing; and a reading within
      the bound stays within it, whatever the acceleration. */
  lemma EdgeProperties(s: EncoderState, syncOk: bool, a: uint8, b: uint8, now: uint32)
    ensures var t := OnEdge(s, syncOk, a, b, now);
            && t.lastSyncStatus == syncOk && t.decoder.aLast == a
            && t.accelerationMode == s.accelerationMode && t.encoderType == s.encoderType
            && t.value.maximumValue == s.value.maximumValue && t.value.rollover == s.value.rollover
            && t.value.intent == s.value.intent
    ensures var t := OnEdge(s, syncOk, a, b, now);
            s.value.currentReading <= s.value.maximumValue ==> t.value.currentReading <= t.value.maximumValue
    ensures var t := OnEdge(s, syncOk, a, b, now);
            |t.reported| >= |s.reported| && t.reported[..|s.reported|] == s.reported
    ensures var t := OnEdge(s, syncOk, a, b, now);
            Decode(s.encoderType, s.decoder, a, b).step <==> |t.reported| == |s.reported| + 1
    ensures var t := OnEdge(s, syncOk, a, b, now);
            !Decode(s.encoderType, s.decoder, a, b).step ==> t.value == s.value && t.lastChange == s.lastChange
    ensures var t := OnEdge(s, syncOk, a, b, now);
            Decode(s.encoderType, s.decoder, a, b).step ==> t.lastChange == now
    ensures var t := OnEdge(s, syncOk, a, b, now);
            Decode(s.encoderType, s.decoder, a, b).step && s.value.maximumValue == 0 ==>
              t.reported[|s.reported|] == (if a != b then -1 else 1)
  {
  }
}
