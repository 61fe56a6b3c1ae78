/** One managed switch: the two-stage debounce, hold and accelerating
    auto-repeat state machine of `KeyboardItem`.

    The state lives in a packed flags byte (low nibble: the press state,
    bit 6: logic inverted, bit 7: listener mode) plus the previous stable
    state, a tick counter and an acceleration level.  Notifications that the
    C++ code sends through a function pointer or a `SwitchListener` are
    recorded as `KeyEvent`s in a ghost log. */
module Keys {
  import opened Types

  const HOLD_THRESHOLD: int := 20
  /** The `repeatInterval` meaning "never repeat, only report the hold". */
  const NO_REPEAT: uint8 := 0xff
  const HIGH: uint8 := 1

  // KeyPressState values, as stored in the low nibble of the flags byte.
  const NOT_PRESSED: bv8 := 0
  const DEBOUNCING1: bv8 := 1
  const DEBOUNCING2: bv8 := 2
  const PRESSED: bv8 := 3
  const BUTTON_HELD: bv8 := 4

  type KeyPressState = s: bv8 | s <= BUTTON_HELD

  const KEY_PRESS_STATE_MASK: bv8 := 0x0f
  const KEY_LISTENER_MODE_BIT: nat := 7
  const KEY_LOGIC_IS_INVERTED: nat := 6

  type CallbackId = nat
  type ListenerId = nat

  /** The union `notify` with its discriminant made explicit. */
  datatype Notify = NoTarget | Callback(fn: CallbackId) | Listener(listener: ListenerId)

  datatype Receiver = ToCallback(fn: CallbackId) | ToListener(listener: ListenerId)

  /** A call of a press callback / `onPressed`, or of a release callback / `onReleased`. */
  datatype KeyEvent =
    | Press(to: Receiver, pin: PinId, held: bool)
    | Release(to: Receiver, pin: PinId, held: bool)

  /** The value of every field of a `KeyboardItem`. */
  datatype Key = Key(
    pin: PinId,
    stateFlags: bv8,
    previousState: KeyPressState,
    counter: uint8,
    acceleration: uint8,
    repeatInterval: uint8,
    notify: Notify,
    callbackOnRelease: Option<CallbackId>)

  datatype TickResult = TickResult(key: Key, events: seq<KeyEvent>)

  /** `getState()`: the low nibble of the flags byte. */
  function GetState(flags: bv8): (s: bv8)
    ensures s <= KEY_PRESS_STATE_MASK
  {
    flags & KEY_PRESS_STATE_MASK
  }

  /** The flags byte after `setState(state)`: the low nibble is replaced and
      the upper nibble (listener-mode and logic-inverted bits) is kept. */
  function WithState(flags: bv8, state: KeyPressState): (r: bv8)
    ensures GetState(r) == state
    ensures r & !KEY_PRESS_STATE_MASK == flags & !KEY_PRESS_STATE_MASK
    ensures BitRead(r, KEY_LISTENER_MODE_BIT) == BitRead(flags, KEY_LISTENER_MODE_BIT)
    ensures BitRead(r, KEY_LOGIC_IS_INVERTED) == BitRead(flags, KEY_LOGIC_IS_INVERTED)
  {
    (flags & !KEY_PRESS_STATE_MASK) | (state & KEY_PRESS_STATE_MASK)
  }

  /** `isDebouncing()`: in either debounce stage. */
  predicate IsDebouncing(flags: bv8): (r: bool)
    ensures r <==> NOT_PRESSED < GetState(flags) < PRESSED
  {
    GetState(flags) == DEBOUNCING1 || GetState(flags) == DEBOUNCING2
  }

  /** `isPressed()`: pressed, whether or not held yet. */
  predicate IsPressed(flags: bv8): (r: bool)
    ensures r <==> PRESSED <= GetState(flags) <= BUTTON_HELD
  {
    GetState(flags) == PRESSED || GetState(flags) == BUTTON_HELD
  }

  /** `isHeld()`: held past the hold threshold. */
  predicate IsHeld(flags: bv8): (r: bool)
    ensures r <==> GetState(flags) == BUTTON_HELD
    ensures r ==> IsPressed(flags) && !IsDebouncing(flags)
  {
    GetState(flags) == BUTTON_HELD
  }

  /** `isUsingListener()`: bit 7, the top bit of the flags byte. */
  predicate IsUsingListener(flags: bv8): (r: bool)
    ensures r <==> flags >= 0x80
  {
    BitRead(flags, KEY_LISTENER_MODE_BIT)
  }

  /** `isLogicInverted()`: bit 6 of the flags byte. */
  predicate IsLogicInverted(flags: bv8): (r: bool)
    ensures r <==> flags & 0x7f >= 0x40
  {
    BitRead(flags, KEY_LOGIC_IS_INVERTED)
  }

  /** The flags byte a freshly constructed item starts with. */
  function InitialFlags(listenerMode: bool, keyLogicIsInverted: bool): (r: bv8)
    ensures GetState(r) == NOT_PRESSED
    ensures IsUsingListener(r) == listenerMode && IsLogicInverted(r) == keyLogicIsInverted
  {
    BitWrite(BitWrite(NOT_PRESSED, KEY_LISTENER_MODE_BIT, listenerMode), KEY_LOGIC_IS_INVERTED, keyLogicIsInverted)
  }

  /** The previous stable state the machine keeps for each press state. */
  function StableStateOf(state: bv8): KeyPressState
  {
    if state == PRESSED then PRESSED
    else if state == BUTTON_HELD then BUTTON_HELD
    else NOT_PRESSED
  }

  /** True when the repeat branch of the held state is enabled. */
  predicate Repeats(k: Key)
  {
    k.repeatInterval != NO_REPEAT && k.notify != NoTarget
  }

  /** True when the item has somewhere to send an event; otherwise every tick is ignored. */
  predicate HasTarget(k: Key)
  {
    k.notify != NoTarget || k.callbackOnRelease != None
  }

  /** The invariant every item reachable from its constructors keeps. */
  ghost predicate KeyInvariant(k: Key)
  {
    && GetState(k.stateFlags) <= BUTTON_HELD
    && (IsUsingListener(k.stateFlags) <==> k.notify.Listener?)
    && k.previousState == StableStateOf(GetState(k.stateFlags))
    && (GetState(k.stateFlags) == PRESSED ==> k.counter <= HOLD_THRESHOLD)
    && (GetState(k.stateFlags) == BUTTON_HELD && Repeats(k) ==> k.counter <= k.repeatInterval)
  }

  /** `trigger(held)`: the press notification, swallowed when there is no target. */
  function PressEvents(k: Key, held: bool): (r: seq<KeyEvent>)
    ensures |r| == (if k.notify == NoTarget then 0 else 1)
    ensures forall e | e in r :: e.Press? && e.pin == k.pin && e.held == held
    ensures k.notify.Listener? ==> forall e | e in r :: e.to == ToListener(k.notify.listener)
    ensures k.notify.Callback? ==> forall e | e in r :: e.to == ToCallback(k.notify.fn)
  {
    match k.notify
    case NoTarget => []
    case Listener(l) => [Press(ToListener(l), k.pin, held)]
    case Callback(f) => [Press(ToCallback(f), k.pin, held)]
  }

  /** `triggerRelease(held)`: in listener mode the listener only, otherwise the
      release callback when one is set. */
  function ReleaseEvents(k: Key, held: bool): (r: seq<KeyEvent>)
    ensures |r| == 1 <==> k.notify.Listener? || k.callbackOnRelease.Some?
    ensures |r| <= 1 && forall e | e in r :: e.Release? && e.pin == k.pin && e.held == held
    ensures k.notify.Listener? ==> forall e | e in r :: e.to == ToListener(k.notify.listener)
    ensures !k.notify.Listener? ==> forall e | e in r :: k.callbackOnRelease.Some? && e.to == ToCallback(k.callbackOnRelease.value)
  {
    if k.notify.Listener? then [Release(ToListener(k.notify.listener), k.pin, held)]
    else if k.callbackOnRelease.Some? then [Release(ToCallback(k.callbackOnRelease.value), k.pin, held)]
    else []
  }

  /** How the 8-bit repeat counter absorbs `(acceleration >> 2) + 1`: the C++
      code stores the sum back into a `uint8_t` (Wrapping); the model's item
      saturates at 255 instead (see the findings in the README). */
  datatype CounterArithmetic = Wrapping | Saturating

  function RepeatCounter(arith: CounterArithmetic, counter: uint8, acceleration: uint8): (r: uint8)
    ensures arith == Saturating ==> r == Min(255, counter + acceleration / 4 + 1)
    ensures counter + acceleration / 4 + 1 < 256 ==> r == counter + acceleration / 4 + 1
  {
    var sum := counter + acceleration / 4 + 1;
    match arith
    case Wrapping => sum % 256
    case Saturating => if sum > 255 then 255 else sum
  }

  /** One call of `checkAndTrigger(buttonState)` with the given counter arithmetic. */
  function Step(arith: CounterArithmetic, k: Key, buttonState: uint8): (r: TickResult)
    ensures KeyInvariant(k) ==> KeyInvariant(r.key)
    ensures r.key.pin == k.pin && r.key.repeatInterval == k.repeatInterval
    ensures r.key.notify == k.notify && r.key.callbackOnRelease == k.callbackOnRelease
    ensures r.key.stateFlags & !KEY_PRESS_STATE_MASK == k.stateFlags & !KEY_PRESS_STATE_MASK
    ensures |r.events| <= 1
  {
    if !HasTarget(k) then TickResult(k, [])
    else if buttonState == HIGH then ActiveStep(arith, k)
    else InactiveStep(k)
  }

  /** The tick of an item with a target while its switch reads active. */
  function ActiveStep(arith: CounterArithmetic, k: Key): (r: TickResult)
    ensures KeyInvariant(k) ==> KeyInvariant(r.key)
    ensures r.key.pin == k.pin && r.key.repeatInterval == k.repeatInterval
    ensures r.key.notify == k.notify && r.key.callbackOnRelease == k.callbackOnRelease
    ensures r.key.stateFlags & !KEY_PRESS_STATE_MASK == k.stateFlags & !KEY_PRESS_STATE_MASK
    ensures |r.events| <= 1
  {
    var state := GetState(k.stateFlags);
    if state == NOT_PRESSED then
      TickResult(k.(stateFlags := WithState(k.stateFlags, DEBOUNCING1)), [])
    else if IsDebouncing(k.stateFlags) then
      TickResult(k.(stateFlags := WithState(k.stateFlags, PRESSED), previousState := PRESSED,
                    counter := 0, acceleration := 1),
                 PressEvents(k, false))
    else if state == PRESSED then
      var counter := (k.counter + 1) % 256;
      if counter > HOLD_THRESHOLD then
        TickResult(k.(stateFlags := WithState(k.stateFlags, BUTTON_HELD), previousState := BUTTON_HELD,
                      counter := 0, acceleration := 1),
                   PressEvents(k, true))
      else
        TickResult(k.(counter := counter), [])
    else if state == BUTTON_HELD && Repeats(k) then
      var counter := RepeatCounter(arith, k.counter, k.acceleration);
      if counter > k.repeatInterval then
        TickResult(k.(acceleration := Min(255, k.acceleration + 1), counter := 0), PressEvents(k, true))
      else
        TickResult(k.(counter := counter), [])
    else
      TickResult(k, [])
  }

  /** The tick of an item with a target while its switch reads inactive. */
  function InactiveStep(k: Key): (r: TickResult)
    ensures KeyInvariant(k) ==> KeyInvariant(r.key)
    ensures r.key.pin == k.pin && r.key.repeatInterval == k.repeatInterval
    ensures r.key.notify == k.notify && r.key.callbackOnRelease == k.callbackOnRelease
    ensures r.key.stateFlags & !KEY_PRESS_STATE_MASK == k.stateFlags & !KEY_PRESS_STATE_MASK
    ensures |r.events| <= 1
  {
    if GetState(k.stateFlags) == DEBOUNCING1 then
      TickResult(k.(stateFlags := WithState(k.stateFlags, DEBOUNCING2)), [])
    else
      var released := k.(stateFlags := WithState(k.stateFlags, NOT_PRESSED));
      if k.previousState == PRESSED then
        TickResult(released.(previousState := NOT_PRESSED), ReleaseEvents(k, false))
      else if k.previousState == BUTTON_HELD then
        TickResult(released.(previousState := NOT_PRESSED), ReleaseEvents(k, true))
      else
        TickResult(released, [])
  }

  /** The tick the model's `KeyboardItem` performs. */
  function Tick(k: Key, buttonState: uint8): TickResult
  {
    Step(Saturating, k, buttonState)
  }

  /** The tick exactly as the C++ code performs it, repeat counter wrapping mod 256. */
  function TickAsWritten(k: Key, buttonState: uint8): (r: TickResult)
    ensures k.counter + k.acceleration / 4 + 1 < 256 ==> r == Tick(k, buttonState)
  {
    Step(Wrapping, k, buttonState)
  }

  /** The item after one tick per level of `levels`, and every event on the way. */
  function Run(arith: CounterArithmetic, k: Key, levels: seq<uint8>): (r: TickResult)
    decreases |levels|
  {
    if levels == [] then TickResult(k, [])
    else
      var first := Step(arith, k, levels[0]);
      var rest := Run(arith, first.key, levels[1..]);
      TickResult(rest.key, first.events + rest.events)
  }

  /** `n` consecutive ticks with the switch active. */
  function HoldFor(arith: CounterArithmetic, k: Key, n: nat): (r: TickResult)
    decreases n
  {
    if n == 0 then TickResult(k, [])
    else
      var first := Step(arith, k, HIGH);
      var rest := HoldFor(arith, first.key, n - 1);
      TickResult(rest.key, first.events + rest.events)
  }

  /** The state of one switch managed by the switch input. */
  class KeyboardItem {
    const pin: PinId
    var stateFlags: bv8
    var previousState: KeyPressState
    var counter: uint8
    var acceleration: uint8
    const repeatInterval: uint8
    const notify: Notify
    var callbackOnRelease: Option<CallbackId>
    /** Every notification sent so far, in order. */
    ghost var events: seq<KeyEvent>

    function View(): Key
      reads this
    {
      Key(pin, stateFlags, previousState, counter, acceleration, repeatInterval, notify, callbackOnRelease)
    }

    ghost predicate Valid()
      reads this
    {
      KeyInvariant(View())
    }

    /** The listener-mode bit agrees with the kind of notification target. */
    ghost predicate NotifyConsistent()
      reads this
    {
      IsUsingListener(stateFlags) <==> notify.Listener?
    }

    /** An item notifying a callback function (which may be absent). */
    constructor (pin: PinId, callback: Option<CallbackId>, repeatInterval: uint8, keyLogicIsInverted: bool)
      ensures Valid() && events == []
      ensures View() == Key(pin, InitialFlags(false, keyLogicIsInverted), NOT_PRESSED, 0, 0, repeatInterval,
                            if callback.Some? then Callback(callback.value) else NoTarget, None)
    {
      this.repeatInterval := repeatInterval;
      this.pin := pin;
      this.notify := if callback.Some? then Callback(callback.value) else NoTarget;
      this.counter := 0;
      previousState := NOT_PRESSED;
      callbackOnRelease := None;
      acceleration := 0;
      var flags := BitWrite(NOT_PRESSED, KEY_LISTENER_MODE_BIT, false);
      stateFlags := BitWrite(flags, KEY_LOGIC_IS_INVERTED, keyLogicIsInverted);
      events := [];
    }

    /** An item notifying a `SwitchListener`. */
    constructor WithListener(pin: PinId, listener: ListenerId, repeatInterval: uint8, keyLogicIsInverted: bool)
      ensures Valid() && events == []
      ensures View() == Key(pin, InitialFlags(true, keyLogicIsInverted), NOT_PRESSED, 0, 0, repeatInterval,
                            Listener(listener), None)
    {
      this.pin := pin;
      this.repeatInterval := repeatInterval;
      this.notify := Listener(listener);
      this.counter := 0;
      previousState := NOT_PRESSED;
      callbackOnRelease := None;
      acceleration := 0;
      var flags := BitWrite(NOT_PRESSED, KEY_LISTENER_MODE_BIT, true);
      stateFlags := BitWrite(flags, KEY_LOGIC_IS_INVERTED, keyLogicIsInverted);
      events := [];
    }

    method OnRelease(callbackOnRelease: Option<CallbackId>)
      requires Valid()
      modifies this`callbackOnRelease
      ensures Valid()
      ensures View() == old(View()).(callbackOnRelease := callbackOnRelease)
    {
      this.callbackOnRelease := callbackOnRelease;
    }

    method SetState(state: KeyPressState)
      modifies this`stateFlags
      ensures stateFlags == WithState(old(stateFlags), state)
    {
      stateFlags := stateFlags & !KEY_PRESS_STATE_MASK;
      stateFlags := stateFlags | (state & KEY_PRESS_STATE_MASK);
    }

    method Trigger(held: bool)
      requires NotifyConsistent()
      modifies this`events
      ensures events == old(events) + PressEvents(View(), held)
    {
      if notify == NoTarget {
        return;
      }
      if IsUsingListener(stateFlags) {
        events := events + [Press(ToListener(notify.listener), pin, held)];
      } else {
        events := events + [Press(ToCallback(notify.fn), pin, held)];
      }
    }

    method TriggerRelease(held: bool)
      requires NotifyConsistent()
      modifies this`events
      ensures events == old(events) + ReleaseEvents(View(), held)
    {
      if IsUsingListener(stateFlags) {
        events := events + [Release(ToListener(notify.listener), pin, held)];
      } else if callbackOnRelease.Some? {
        events := events + [Release(ToCallback(callbackOnRelease.value), pin, held)];
      }
    }

    /** One tick: feed the (already logic-corrected) level of the switch. */
    method CheckAndTrigger(buttonState: uint8)
      requires Valid()
      modifies this
      ensures Valid()
      ensures View() == Tick(old(View()), buttonState).key
      ensures events == old(events) + Tick(old(View()), buttonState).events
    {
      if notify == NoTarget && callbackOnRelease == None {
        return;
      }
      if buttonState == HIGH {
        CheckActive();
      } else {
        CheckInactive();
      }
    }

    /** The branch of `checkAndTrigger` for an active switch. */
    method CheckActive()
      requires Valid()
      modifies this
      ensures Valid()
      ensures View() == ActiveStep(Saturating, old(View())).key
      ensures events == old(events) + ActiveStep(Saturating, old(View())).events
    {
      if GetState(stateFlags) == NOT_PRESSED {
        SetState(DEBOUNCING1);
      } else if IsDebouncing(stateFlags) {
        SetState(PRESSED);
        previousState := PRESSED;
        counter := 0;
        acceleration := 1;
        Trigger(false);
      } else if GetState(stateFlags) == PRESSED {
        counter := (counter + 1) % 256;
        if counter > HOLD_THRESHOLD {
          SetState(BUTTON_HELD);
          previousState := BUTTON_HELD;
          Trigger(true);
          counter := 0;
          acceleration := 1;
        }
      } else if GetState(stateFlags) == BUTTON_HELD && repeatInterval != NO_REPEAT && notify != NoTarget {
        var sum := counter + acceleration / 4 + 1;
        counter := if sum > 255 then 255 else sum;
        if counter > repeatInterval {
          acceleration := Min(255, acceleration + 1);
          Trigger(true);
          counter := 0;
        }
      }
    }

    /** The branch of `checkAndTrigger` for an inactive switch. */
    method CheckInactive()
      requires Valid()
      modifies this
      ensures Valid()
      ensures View() == InactiveStep(old(View())).key
      ensures events == old(events) + InactiveStep(old(View())).events
    {
      if GetState(stateFlags) == DEBOUNCING1 {
        SetState(DEBOUNCING2);
      } else {
        SetState(NOT_PRESSED);
        if previousState == PRESSED {
          previousState := NOT_PRESSED;
          TriggerRelease(false);
        } else if previousState == BUTTON_HELD {
          previousState := NOT_PRESSED;
          TriggerRelease(true);
        }
      }
    }
  }
}
