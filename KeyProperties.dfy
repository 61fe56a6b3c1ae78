/** What the key state machine promises: the effect of a single tick in each
    state, and the behaviour of runs of ticks (debounce, hold threshold,
    accelerating repeat, the stall of the wrapping repeat counter). */
module KeyProperties {
  import opened Types
  import opened Keys

  /** `isDebouncing`, `isPressed` and `isHeld` partition the press states. */
  lemma StatePredicates(flags: bv8)
    ensures !(IsDebouncing(flags) && IsPressed(flags))
    ensures IsHeld(flags) ==> IsPressed(flags)
    ensures GetState(flags) == NOT_PRESSED ==> !IsDebouncing(flags) && !IsPressed(flags) && !IsHeld(flags)
  {
  }

  /** An item with neither a notification target nor a release callback ignores every tick. */
  lemma IgnoredWithoutTarget(k: Key, level: uint8)
    requires !HasTarget(k)
    ensures Tick(k, level) == TickResult(k, [])
  {
  }

  /** Debounce entry: an active level arms the debounce silently; one inactive
      sample during the first debounce stage is absorbed; an active level in
      either stage confirms the press with exactly one press(held=false). */
  lemma DebounceEntry(k: Key, level: uint8)
    requires KeyInvariant(k) && HasTarget(k)
    ensures GetState(k.stateFlags) == NOT_PRESSED && level == HIGH ==>
              Tick(k, level) == TickResult(k.(stateFlags := WithState(k.stateFlags, DEBOUNCING1)), [])
    ensures GetState(k.stateFlags) == DEBOUNCING1 && level != HIGH ==>
              Tick(k, level) == TickResult(k.(stateFlags := WithState(k.stateFlags, DEBOUNCING2)), [])
    ensures IsDebouncing(k.stateFlags) && level == HIGH ==>
              Tick(k, level) == TickResult(k.(stateFlags := WithState(k.stateFlags, PRESSED), previousState := PRESSED,
                                              counter := 0, acceleration := 1),
                                           PressEvents(k, false))
  {
  }

  /** Release: an inactive level in any state but the first debounce stage
      returns to NOT_PRESSED, and a release fires exactly when the item had
      reached PRESSED or BUTTON_HELD, carrying held = (it was held). */
  lemma Release(k: Key, level: uint8)
    requires KeyInvariant(k) && HasTarget(k)
    requires level != HIGH && GetState(k.stateFlags) != DEBOUNCING1
    ensures GetState(Tick(k, level).key.stateFlags) == NOT_PRESSED
    ensures Tick(k, level).key.previousState == NOT_PRESSED
    ensures Tick(k, level).events ==
              if IsPressed(k.stateFlags) then ReleaseEvents(k, IsHeld(k.stateFlags)) else []
  {
  }

  /** In PRESSED an active tick counts; the tick that passes HOLD_THRESHOLD
      moves to BUTTON_HELD with one press(held=true). */
  lemma HoldTick(k: Key)
    requires KeyInvariant(k) && HasTarget(k) && GetState(k.stateFlags) == PRESSED
    ensures k.counter < HOLD_THRESHOLD ==>
              Tick(k, HIGH) == TickResult(k.(counter := k.counter + 1), [])
    ensures k.counter == HOLD_THRESHOLD ==>
              Tick(k, HIGH) == TickResult(k.(stateFlags := WithState(k.stateFlags, BUTTON_HELD), previousState := BUTTON_HELD,
                                             counter := 0, acceleration := 1),
                                          PressEvents(k, true))
  {
  }

  /** In BUTTON_HELD without repeat (NO_REPEAT or no target) active ticks change
      nothing; with repeat the counter advances by (acceleration >> 2) + 1 and a
      tick that passes repeatInterval fires press(held=true), resets the counter
      and raises the acceleration by one, saturating at 255. */
  lemma RepeatTick(k: Key)
    requires KeyInvariant(k) && HasTarget(k) && GetState(k.stateFlags) == BUTTON_HELD
    ensures !Repeats(k) ==> Tick(k, HIGH) == TickResult(k, [])
    ensures Repeats(k) && k.counter + k.acceleration / 4 + 1 <= k.repeatInterval ==>
              Tick(k, HIGH) == TickResult(k.(counter := k.counter + k.acceleration / 4 + 1), [])
    ensures Repeats(k) && k.counter + k.acceleration / 4 + 1 > k.repeatInterval ==>
              Tick(k, HIGH) == TickResult(k.(counter := 0, acceleration := Min(255, k.acceleration + 1)),
                                          PressEvents(k, true))
    ensures Tick(k, HIGH).key.acceleration >= k.acceleration
  {
  }

  /** Every reachable item stays reachable over any run of ticks. */
  lemma {:induction false} RunKeepsInvariant(arith: CounterArithmetic, k: Key, levels: seq<uint8>)
    requires KeyInvariant(k)
    ensures KeyInvariant(Run(arith, k, levels).key)
    decreases |levels|
  {
    if levels != [] {
      RunKeepsInvariant(arith, Step(arith, k, levels[0]).key, levels[1..]);
    }
  }

  /** A one-tick spike (active once, then inactive twice) never reaches PRESSED
      and notifies nobody: NOT_PRESSED, DEBOUNCING1, DEBOUNCING2, NOT_PRESSED. */
  lemma NoiseSpikeIgnored(k: Key)
    requires KeyInvariant(k) && HasTarget(k) && GetState(k.stateFlags) == NOT_PRESSED
    ensures Run(Saturating, k, [HIGH, 0, 0]).events == []
    ensures GetState(Run(Saturating, k, [HIGH, 0, 0]).key.stateFlags) == NOT_PRESSED
  {
    var k1 := Tick(k, HIGH).key;
    var k2 := Tick(k1, 0).key;
    assert [HIGH, 0, 0][1..] == [0, 0];
    assert [0, 0][1..] == [0];
    assert GetState(k2.stateFlags) == DEBOUNCING2;
  }

  /** Two active ticks from rest confirm the press with exactly one press(held=false). */
  lemma CleanPress(k: Key)
    requires KeyInvariant(k) && HasTarget(k) && GetState(k.stateFlags) == NOT_PRESSED
    ensures Run(Saturating, k, [HIGH, HIGH]).events == PressEvents(k, false)
    ensures GetState(Run(Saturating, k, [HIGH, HIGH]).key.stateFlags) == PRESSED
  {
    var k1 := k.(stateFlags := WithState(k.stateFlags, DEBOUNCING1));
    assert Tick(k, HIGH) == TickResult(k1, []);
    assert [HIGH, HIGH][1..] == [HIGH];
    assert Run(Saturating, k1, [HIGH]) == Tick(k1, HIGH);
  }

  /** Holding for `a + b` ticks is holding for `a` ticks and then for `b`. */
  lemma {:induction false} HoldForSplit(arith: CounterArithmetic, k: Key, a: nat, b: nat)
    ensures var first := HoldFor(arith, k, a);
            var rest := HoldFor(arith, first.key, b);
            HoldFor(arith, k, a + b) == TickResult(rest.key, first.events + rest.events)
    decreases a
  {
    if a > 0 {
      var step := Step(arith, k, HIGH);
      HoldForSplit(arith, step.key, a - 1, b);
      var first := HoldFor(arith, step.key, a - 1);
      var rest := HoldFor(arith, first.key, b);
      assert step.events + (first.events + rest.events) == (step.events + first.events) + rest.events;
    }
  }

  /** While PRESSED and below the hold threshold, each active tick only counts. */
  lemma {:induction false} PressedCountsUp(arith: CounterArithmetic, k: Key, m: nat)
    requires KeyInvariant(k) && HasTarget(k) && GetState(k.stateFlags) == PRESSED
    requires k.counter + m <= HOLD_THRESHOLD
    ensures HoldFor(arith, k, m) == TickResult(k.(counter := k.counter + m), [])
    decreases m
  {
    if m > 0 {
      var next := k.(counter := k.counter + 1);
      assert Step(arith, k, HIGH) == TickResult(next, []);
      PressedCountsUp(arith, next, m - 1);
    }
  }

  /** From PRESSED, exactly HOLD_THRESHOLD + 1 - counter further active ticks
      reach BUTTON_HELD, firing one press(held=true) and nothing else. */
  lemma PressedBecomesHeld(arith: CounterArithmetic, k: Key)
    requires KeyInvariant(k) && HasTarget(k) && GetState(k.stateFlags) == PRESSED
    ensures HoldFor(arith, k, HOLD_THRESHOLD + 1 - k.counter) ==
              TickResult(k.(stateFlags := WithState(k.stateFlags, BUTTON_HELD), previousState := BUTTON_HELD,
                            counter := 0, acceleration := 1),
                         PressEvents(k, true))
  {
    var m := HOLD_THRESHOLD - k.counter;
    HoldForSplit(arith, k, m, 1);
    PressedCountsUp(arith, k, m);
    HeldAtThreshold(arith, k.(counter := HOLD_THRESHOLD));
  }

  /** The one tick that takes a PRESSED item at HOLD_THRESHOLD to BUTTON_HELD. */
  lemma HeldAtThreshold(arith: CounterArithmetic, top: Key)
    requires KeyInvariant(top) && HasTarget(top) && GetState(top.stateFlags) == PRESSED
    requires top.counter == HOLD_THRESHOLD
    ensures HoldFor(arith, top, 1) ==
              TickResult(top.(stateFlags := WithState(top.stateFlags, BUTTON_HELD), previousState := BUTTON_HELD,
                              counter := 0, acceleration := 1),
                         PressEvents(top, true))
  {
    var step := Step(arith, top, HIGH);
    assert step.events + [] == step.events;
  }

  /** Without repeat, a held switch stays silent however long it is held. */
  lemma {:induction false} HeldWithoutRepeatIsSilent(arith: CounterArithmetic, k: Key, n: nat)
    requires KeyInvariant(k) && HasTarget(k) && GetState(k.stateFlags) == BUTTON_HELD && !Repeats(k)
    ensures HoldFor(arith, k, n) == TickResult(k, [])
    decreases n
  {
    if n > 0 {
      HeldWithoutRepeatIsSilent(arith, k, n - 1);
    }
  }

  /** A clean press held from rest: two ticks to confirm, HOLD_THRESHOLD + 1 to
      reach BUTTON_HELD; exactly press(held=false) then press(held=true). */
  lemma PressAndHold(arith: CounterArithmetic, k: Key)
    requires KeyInvariant(k) && HasTarget(k) && GetState(k.stateFlags) == NOT_PRESSED
    ensures GetState(HoldFor(arith, k, HOLD_THRESHOLD + 3).key.stateFlags) == BUTTON_HELD
    ensures HoldFor(arith, k, HOLD_THRESHOLD + 3).events == PressEvents(k, false) + PressEvents(k, true)
  {
    var k1 := k.(stateFlags := WithState(k.stateFlags, DEBOUNCING1));
    var k2 := k1.(stateFlags := WithState(k1.stateFlags, PRESSED), previousState := PRESSED,
                  counter := 0, acceleration := 1);
    assert Step(arith, k, HIGH) == TickResult(k1, []);
    assert Step(arith, k1, HIGH) == TickResult(k2, PressEvents(k, false));
    assert HoldFor(arith, k1, 1) == TickResult(k2, PressEvents(k, false));
    assert HoldFor(arith, k, 2) == TickResult(k2, PressEvents(k, false));
    HoldForSplit(arith, k, 2, HOLD_THRESHOLD + 1);
    PressedBecomesHeld(arith, k2);
  }

  /** Active ticks until the next repeat of a held switch whose repeat is enabled. */
  function TicksToRepeat(k: Key): (n: nat)
    requires GetState(k.stateFlags) == BUTTON_HELD && Repeats(k) && k.counter <= k.repeatInterval
    ensures 1 <= n <= k.repeatInterval - k.counter + 1
    decreases k.repeatInterval - k.counter
  {
    var c := RepeatCounter(Saturating, k.counter, k.acceleration);
    if c > k.repeatInterval then 1 else 1 + TicksToRepeat(k.(counter := c))
  }

  /** Liveness of auto-repeat: after TicksToRepeat(k) active ticks, exactly one
      press(held=true) has fired, the counter is back at 0 and the acceleration
      has risen by one (saturating at 255). */
  lemma {:induction false} RepeatFires(k: Key)
    requires KeyInvariant(k) && HasTarget(k) && GetState(k.stateFlags) == BUTTON_HELD && Repeats(k)
    ensures HoldFor(Saturating, k, TicksToRepeat(k)) ==
              TickResult(k.(counter := 0, acceleration := Min(255, k.acceleration + 1)), PressEvents(k, true))
    decreases k.repeatInterval - k.counter
  {
    var c := RepeatCounter(Saturating, k.counter, k.acceleration);
    if c <= k.repeatInterval {
      var next := k.(counter := c);
      assert Step(Saturating, k, HIGH) == TickResult(next, []);
      RepeatFires(next);
    }
  }

  /** Repeats never slow down: a later counter and a higher acceleration never
      need more ticks to the next repeat. */
  lemma {:induction false} RepeatSpacingNonIncreasing(k: Key, c1: uint8, a1: uint8, c2: uint8, a2: uint8)
    requires GetState(k.stateFlags) == BUTTON_HELD && Repeats(k)
    requires c1 <= c2 <= k.repeatInterval && a1 <= a2
    ensures TicksToRepeat(k.(counter := c2, acceleration := a2)) <= TicksToRepeat(k.(counter := c1, acceleration := a1))
    decreases k.repeatInterval - c1
  {
    var n1 := RepeatCounter(Saturating, c1, a1);
    var n2 := RepeatCounter(Saturating, c2, a2);
    if n1 <= k.repeatInterval && n2 <= k.repeatInterval {
      RepeatSpacingNonIncreasing(k, n1, a1, n2, a2);
      assert k.(counter := c1, acceleration := a1).(counter := n1) == k.(counter := n1, acceleration := a1);
      assert k.(counter := c2, acceleration := a2).(counter := n2) == k.(counter := n2, acceleration := a2);
    }
  }

  // ---- The wrapping repeat counter of the C++ code -------------------------

  /** As written, a held switch whose repeatInterval lies in 192..254 stops
      repeating for good once its acceleration reaches 252: the step
      (252 >> 2) + 1 = 64 takes the 8-bit counter 0, 64, 128, 192 and back to
      0 without ever exceeding the interval. */
  lemma StallsAsWritten(k: Key)
    requires KeyInvariant(k) && GetState(k.stateFlags) == BUTTON_HELD && Repeats(k)
    requires 192 <= k.repeatInterval && k.acceleration >= 252 && k.counter == 0
    ensures HoldFor(Wrapping, k, 4) == TickResult(k, [])
  {
    var k1 := k.(counter := 64);
    var k2 := k.(counter := 128);
    var k3 := k.(counter := 192);
    assert Step(Wrapping, k, HIGH) == TickResult(k1, []);
    assert Step(Wrapping, k1, HIGH) == TickResult(k2, []);
    assert Step(Wrapping, k2, HIGH) == TickResult(k3, []);
    assert Step(Wrapping, k3, HIGH) == TickResult(k, []);
    assert HoldFor(Wrapping, k3, 1) == TickResult(k, []);
    assert HoldFor(Wrapping, k2, 2) == TickResult(k, []);
    assert HoldFor(Wrapping, k1, 3) == TickResult(k, []);
  }

  /** ... and stays silent for every multiple of four further ticks. */
  lemma {:induction false} StallsForeverAsWritten(k: Key, n: nat)
    requires KeyInvariant(k) && GetState(k.stateFlags) == BUTTON_HELD && Repeats(k)
    requires 192 <= k.repeatInterval && k.acceleration >= 252 && k.counter == 0
    ensures HoldFor(Wrapping, k, 4 * n) == TickResult(k, [])
    decreases n
  {
    if n > 0 {
      StallsAsWritten(k);
      StallsForeverAsWritten(k, n - 1);
      HoldForSplit(Wrapping, k, 4, 4 * (n - 1));
    }
  }

  /** As written, a held switch with repeat interval 254 and acceleration 4
      to 7 moves its counter up by 2 per tick, silently, while it stays
      within 254. */
  lemma {:induction false} ClimbsByTwoAsWritten(k: Key, n: nat)
    requires KeyInvariant(k) && GetState(k.stateFlags) == BUTTON_HELD && Repeats(k)
    requires k.repeatInterval == 254 && 4 <= k.acceleration <= 7 && k.counter + 2 * n <= 254
    ensures HoldFor(Wrapping, k, n) == TickResult(k.(counter := k.counter + 2 * n), [])
    decreases n
  {
    if n > 0 {
      var k1 := k.(counter := k.counter + 2);
      assert Step(Wrapping, k, HIGH) == TickResult(k1, []);
      ClimbsByTwoAsWritten(k1, n - 1);
      assert k1.(counter := k1.counter + 2 * (n - 1)) == k.(counter := k.counter + 2 * n);
    }
  }

  /** So with repeat interval 254 the C++ counter already stalls once three
      repeats have raised the acceleration from 1 to 4: it runs 0, 2, ...,
      254 and wraps back to 0, never exceeding the interval, so 128 ticks
      later the switch is back where it started without having repeated. */
  lemma StallsAtAccelerationFourAsWritten(k: Key)
    requires KeyInvariant(k) && GetState(k.stateFlags) == BUTTON_HELD && Repeats(k)
    requires k.repeatInterval == 254 && 4 <= k.acceleration <= 7 && k.counter == 0
    ensures HoldFor(Wrapping, k, 128) == TickResult(k, [])
  {
    assert 2 * 127 == 254;
    var m: nat :| 2 * m == 254;
    WrapsAfterClimbAsWritten(k, m);
  }

  /** One round of the stall: `m` steps of 2 up to 254, then the wrap to 0. */
  lemma WrapsAfterClimbAsWritten(k: Key, m: nat)
    requires KeyInvariant(k) && GetState(k.stateFlags) == BUTTON_HELD && Repeats(k)
    requires k.repeatInterval == 254 && 4 <= k.acceleration <= 7 && k.counter == 0 && 2 * m == 254
    ensures HoldFor(Wrapping, k, m + 1) == TickResult(k, [])
  {
    var top := k.(counter := 254);
    ClimbsByTwoAsWritten(k, m);
    assert Step(Wrapping, top, HIGH) == TickResult(k, []);
    assert HoldFor(Wrapping, top, 1) == TickResult(k, []);
    HoldForSplit(Wrapping, k, m, 1);
  }

  /** The saturating counter of the model's item repeats from the same state on the fourth tick. */
  lemma SaturatingRepeatsWhereWrappingStalls(k: Key)
    requires KeyInvariant(k) && HasTarget(k) && GetState(k.stateFlags) == BUTTON_HELD && Repeats(k)
    requires 192 <= k.repeatInterval && k.acceleration >= 252 && k.counter == 0
    ensures TicksToRepeat(k) == 4
    ensures HoldFor(Saturating, k, 4).events == PressEvents(k, true)
  {
    var k1 := k.(counter := 64);
    var k2 := k.(counter := 128);
    var k3 := k.(counter := 192);
    assert TicksToRepeat(k3) == 1;
    assert TicksToRepeat(k2) == 2;
    assert TicksToRepeat(k1) == 3;
    RepeatFires(k);
  }
}
