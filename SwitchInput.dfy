/** The switch input orchestrator: the `switches` object that owns the
    managed keys (ordered by pin), the rotary encoder slots and the flags that
    select pull-up logic and interrupt-driven operation, together with the
    free functions that the task manager and the interrupt handler call.

    Pin levels, the result of syncing the I/O device and the clock are
    parameters.  Pin mode changes, interrupt registrations and task scheduling
    are recorded in the ghost log `calls`; the free functions take the
    `switches` object as a parameter. */
module Switches {
  import opened Types
  import opened Keys
  import opened Encoders

  const MAX_ROTARY_ENCODERS: nat := 4
  const SWITCH_POLL_INTERVAL: nat := 20
  /** The delay before `checkRunLoopAndRepeat` runs again while keys are busy. */
  const FOLLOW_UP_DELAY: nat := 20

  const SW_FLAG_PULLUP_LOGIC: nat := 0
  const SW_FLAG_INTERRUPT_DRIVEN: nat := 1
  const SW_FLAG_INTERRUPT_DEBOUNCE: nat := 2

  /** An `IoAbstractionRef`: the board's own pins or some other device. */
  datatype IoDevice = InternalDigitalIo | ExternalDevice(id: nat)

  /** A call into the I/O device or the task manager. */
  datatype HardwareCall =
    | SetPinMode(pin: PinId, pullUp: bool)
    | RegisterInterrupt(pin: PinId)
    | ScheduleFixedRate(interval: nat)
    | ScheduleOnce(delay: nat)

  /** The level the key handler sees: the raw level, inverted when pull-up
      logic applies to the key. */
  function LevelSeen(pullUpLogic: bool, raw: uint8): (r: uint8)
    ensures pullUpLogic ==> (r == 1 <==> raw == 0) && r <= 1
    ensures !pullUpLogic ==> r == raw
  {
    if pullUpLogic then (if raw == 0 then 1 else 0) else raw
  }

  /** True when the key still needs ticks: debouncing, pressed or held. */
  predicate Busy(flags: bv8)
  {
    IsDebouncing(flags) || IsPressed(flags)
  }

  /** Strictly increasing pins: the key list ordered by its key. */
  predicate SortedByPin(keys: seq<KeyboardItem>)
  {
    forall i, j | 0 <= i < j < |keys| :: keys[i].pin < keys[j].pin
  }

  /** Keys sorted by pin are distinct items. */
  lemma DistinctItems(keys: seq<KeyboardItem>)
    requires SortedByPin(keys)
    ensures forall i, j | 0 <= i < |keys| && 0 <= j < |keys| && i != j :: keys[i] != keys[j]
  {
    forall i, j | 0 <= i < |keys| && 0 <= j < |keys| && i != j
      ensures keys[i] != keys[j]
    {
      if i < j { assert keys[i].pin < keys[j].pin; } else { assert keys[j].pin < keys[i].pin; }
    }
  }

  /** Where `BtreeList::add` places a key for `pin`: after every smaller pin. */
  function InsertionPoint(keys: seq<KeyboardItem>, pin: PinId): (i: nat)
    ensures i <= |keys|
    ensures forall j | 0 <= j < i :: keys[j].pin < pin
    ensures SortedByPin(keys) ==> forall j | i <= j < |keys| :: pin <= keys[j].pin
    decreases |keys|
  {
    if keys == [] || pin <= keys[0].pin then 0
    else 1 + InsertionPoint(keys[1..], pin)
  }

  /** The position of the key for `pin`, which must be registered. */
  function IndexOf(keys: seq<KeyboardItem>, pin: PinId): (i: nat)
    requires exists k | k in keys :: k.pin == pin
    ensures i < |keys| && keys[i].pin == pin
    decreases |keys|
  {
    if keys[0].pin == pin then 0
    else 1 + IndexOf(keys[1..], pin)
  }

  /** The tick a key performs in one run of the loop: the raw level of its
      pin, inverted when pull-up logic applies to it. */
  function TickOf(k: Key, pullUpFlag: bool, levels: PinId -> uint8): TickResult
  {
    Tick(k, LevelSeen(pullUpFlag != IsLogicInverted(k.stateFlags), levels(k.pin)))
  }

  /** True when some key still needs ticks. */
  ghost predicate AnyBusy(keys: seq<KeyboardItem>)
    reads keys
  {
    exists k | k in keys :: Busy(k.stateFlags)
  }

  /** The key was fed one level. */
  twostate predicate KeyTicked(k: KeyboardItem, pullUpFlag: bool, levels: PinId -> uint8)
    reads k
  {
    && k.View() == TickOf(old(k.View()), pullUpFlag, levels).key
    && k.events == old(k.events) + TickOf(old(k.View()), pullUpFlag, levels).events
  }

  /** Every key of `keys` was fed one level. */
  twostate predicate KeysTicked(keys: seq<KeyboardItem>, pullUpFlag: bool, levels: PinId -> uint8)
    reads keys
  {
    forall k | k in keys :: KeyTicked(k, pullUpFlag, levels)
  }

  class SwitchInput {
    const encoder: array<RotaryEncoder?>
    var ioDevice: Option<IoDevice>
    var keys: seq<KeyboardItem>
    var swFlags: bv8
    var lastSyncStatus: bool
    /** Every pin mode change, interrupt registration and scheduled task, in order. */
    ghost var calls: seq<HardwareCall>
    /** The slots whose encoder was told of an interrupt, in order. */
    ghost var encoderCalls: seq<nat>

    /** The encoder slot array has its fixed size. */
    predicate HasSlots()
    {
      encoder.Length == MAX_ROTARY_ENCODERS
    }

    ghost predicate Valid()
      reads this`keys, keys
    {
      && HasSlots()
      && SortedByPin(keys)
      && (forall k | k in keys :: k.Valid())
    }

    ghost predicate Registered(pin: PinId)
      reads this`keys
    {
      exists k | k in keys :: k.pin == pin
    }

    constructor ()
      ensures Valid() && fresh(encoder)
      ensures ioDevice == None && swFlags == 0 && lastSyncStatus && keys == []
      ensures forall i | 0 <= i < encoder.Length :: encoder[i] == null
      ensures calls == [] && encoderCalls == []
    {
      ioDevice := None;
      swFlags := 0;
      lastSyncStatus := true;
      encoder := new RotaryEncoder?[MAX_ROTARY_ENCODERS](_ => null);
      keys := [];
      calls := [];
      encoderCalls := [];
    }

    /** `isPullupLogic(invertedLogic)`: the pull-up flag, inverted for an inverted key. */
    function IsPullupLogic(invertedLogic: bool): (r: bool)
      reads this`swFlags
      ensures r <==> BitRead(swFlags, SW_FLAG_PULLUP_LOGIC) != invertedLogic
    {
      var pullUp := BitRead(swFlags, SW_FLAG_PULLUP_LOGIC);
      (pullUp && !invertedLogic) || (!pullUp && invertedLogic)
    }

    function IsInterruptDriven(): (r: bool)
      reads this`swFlags
      ensures r <==> swFlags & 0x03 >= 0x02
    {
      BitRead(swFlags, SW_FLAG_INTERRUPT_DRIVEN)
    }

    function IsInterruptDebouncing(): (r: bool)
      reads this`swFlags
      ensures r <==> swFlags & 0x07 >= 0x04
    {
      BitRead(swFlags, SW_FLAG_INTERRUPT_DEBOUNCE)
    }

    /** `setInterruptDebouncing(debounce)`: only the debounce bit changes. */
    method SetInterruptDebouncing(debounce: bool)
      modifies this`swFlags
      ensures IsInterruptDebouncing() == debounce
      ensures IsInterruptDriven() == old(IsInterruptDriven())
      ensures BitRead(swFlags, SW_FLAG_PULLUP_LOGIC) == old(BitRead(swFlags, SW_FLAG_PULLUP_LOGIC))
      ensures swFlags & !Bit(SW_FLAG_INTERRUPT_DEBOUNCE) == old(swFlags) & !Bit(SW_FLAG_INTERRUPT_DEBOUNCE)
    {
      swFlags := BitWrite(swFlags, SW_FLAG_INTERRUPT_DEBOUNCE, debounce);
    }

    /** `initialise`: polling mode, flags reset to the pull-up choice, and a
        fixed-rate task that runs the loop. */
    method Initialise(ioDevice: IoDevice, usePullUpSwitching: bool)
      modifies this`ioDevice, this`swFlags, this`calls
      ensures this.ioDevice == Some(ioDevice)
      ensures BitRead(swFlags, SW_FLAG_PULLUP_LOGIC) == usePullUpSwitching
      ensures !IsInterruptDriven() && !IsInterruptDebouncing() && swFlags & 0xf8 == 0
      ensures calls == old(calls) + [ScheduleFixedRate(SWITCH_POLL_INTERVAL)]
    {
      this.ioDevice := Some(ioDevice);
      swFlags := 0;
      swFlags := BitWrite(swFlags, SW_FLAG_PULLUP_LOGIC, usePullUpSwitching);
      calls := calls + [ScheduleFixedRate(SWITCH_POLL_INTERVAL)];
    }

    /** `initialiseInterrupt`: interrupt mode, flags reset to the pull-up
        choice plus the interrupt-driven bit, nothing scheduled. */
    method InitialiseInterrupt(ioDevice: IoDevice, usePullUpSwitching: bool)
      modifies this`ioDevice, this`swFlags
      ensures this.ioDevice == Some(ioDevice)
      ensures BitRead(swFlags, SW_FLAG_PULLUP_LOGIC) == usePullUpSwitching
      ensures IsInterruptDriven() && !IsInterruptDebouncing() && swFlags & 0xf8 == 0
    {
      this.ioDevice := Some(ioDevice);
      swFlags := 0;
      swFlags := BitWrite(swFlags, SW_FLAG_PULLUP_LOGIC, usePullUpSwitching);
      swFlags := swFlags | Bit(SW_FLAG_INTERRUPT_DRIVEN);
    }

    /** `internalAddSwitch`: prepares the pin (initialising polling on the
        board's own pins when no device was chosen) and always succeeds. */
    method InternalAddSwitch(pin: PinId, invertLogic: bool) returns (ok: bool)
      modifies this`ioDevice, this`swFlags, this`calls
      ensures ok
      ensures ioDevice == if old(ioDevice) == None then Some(InternalDigitalIo) else old(ioDevice)
      ensures swFlags == if old(ioDevice) == None then BitWrite(0, SW_FLAG_PULLUP_LOGIC, true) else old(swFlags)
      ensures calls == old(calls)
                       + (if old(ioDevice) == None then [ScheduleFixedRate(SWITCH_POLL_INTERVAL)] else [])
                       + [SetPinMode(pin, IsPullupLogic(invertLogic))]
                       + (if IsInterruptDriven() then [RegisterInterrupt(pin)] else [])
    {
      EnsureDevice();
      calls := calls + [SetPinMode(pin, IsPullupLogic(invertLogic))];
      if IsInterruptDriven() {
        calls := calls + [RegisterInterrupt(pin)];
      }
      ok := true;
    }

    /** Adds `item` at its place in the pin order. */
    method InsertKey(item: KeyboardItem)
      requires Valid() && item.Valid() && !Registered(item.pin)
      modifies this`keys
      ensures Valid()
      ensures var p := InsertionPoint(old(keys), item.pin);
              keys == old(keys)[..p] + [item] + old(keys)[p..]
    {
      var p := InsertionPoint(keys, item.pin);
      keys := keys[..p] + [item] + keys[p..];
    }

    /** `addSwitch`: a key notifying a callback (or nothing), placed in pin order. */
    method AddSwitch(pin: PinId, callback: Option<CallbackId>, repeat: uint8, invertLogic: bool) returns (ok: bool)
      requires Valid() && !Registered(pin)
      modifies this`ioDevice, this`swFlags, this`calls, this`keys
      ensures Valid() && ok && Registered(pin)
      ensures ioDevice == if old(ioDevice) == None then Some(InternalDigitalIo) else old(ioDevice)
      ensures swFlags == if old(ioDevice) == None then BitWrite(0, SW_FLAG_PULLUP_LOGIC, true) else old(swFlags)
      ensures calls == old(calls)
                       + (if old(ioDevice) == None then [ScheduleFixedRate(SWITCH_POLL_INTERVAL)] else [])
                       + [SetPinMode(pin, IsPullupLogic(invertLogic))]
                       + (if IsInterruptDriven() then [RegisterInterrupt(pin)] else [])
      ensures var p := InsertionPoint(old(keys), pin);
              && |keys| == |old(keys)| + 1
              && keys[..p] == old(keys)[..p] && keys[p + 1..] == old(keys)[p..]
              && fresh(keys[p]) && keys[p].events == []
              && keys[p].View() == Key(pin, InitialFlags(false, invertLogic), NOT_PRESSED, 0, 0, repeat,
                                       if callback.Some? then Callback(callback.value) else NoTarget, None)
    {
      ok := InternalAddSwitch(pin, invertLogic);
      var item := new KeyboardItem(pin, callback, repeat, invertLogic);
      InsertKey(item);
      ok := true;
      var p := InsertionPoint(old(keys), pin);
      assert keys[p] == item;
    }

    /** `addSwitchListener`: a key notifying a listener, placed in pin order. */
    method AddSwitchListener(pin: PinId, listener: ListenerId, repeat: uint8, invertLogic: bool) returns (ok: bool)
      requires Valid() && !Registered(pin)
      modifies this`ioDevice, this`swFlags, this`calls, this`keys
      ensures Valid() && ok && Registered(pin)
      ensures ioDevice == if old(ioDevice) == None then Some(InternalDigitalIo) else old(ioDevice)
      ensures swFlags == if old(ioDevice) == None then BitWrite(0, SW_FLAG_PULLUP_LOGIC, true) else old(swFlags)
      ensures calls == old(calls)
                       + (if old(ioDevice) == None then [ScheduleFixedRate(SWITCH_POLL_INTERVAL)] else [])
                       + [SetPinMode(pin, IsPullupLogic(invertLogic))]
                       + (if IsInterruptDriven() then [RegisterInterrupt(pin)] else [])
      ensures var p := InsertionPoint(old(keys), pin);
              && |keys| == |old(keys)| + 1
              && keys[..p] == old(keys)[..p] && keys[p + 1..] == old(keys)[p..]
              && fresh(keys[p]) && keys[p].events == []
              && keys[p].View() == Key(pin, InitialFlags(true, invertLogic), NOT_PRESSED, 0, 0, repeat,
                                       Listener(listener), None)
    {
      ok := InternalAddSwitch(pin, invertLogic);
      var item := new KeyboardItem.WithListener(pin, listener, repeat, invertLogic);
      InsertKey(item);
      ok := true;
      var p := InsertionPoint(old(keys), pin);
      assert keys[p] == item;
    }

    /** `onRelease(pin, callbackOnRelease)`.  The C++ code picks its branch on
        the pin number rather than on the lookup result: a non-zero pin must be
        registered already and gets the release callback; pin 0 gets a new
        non-repeating key whose only target is the release callback. */
    method OnRelease(pin: PinId, callbackOnRelease: CallbackId)
      requires Valid()
      requires pin != 0 ==> Registered(pin)
      requires pin == 0 ==> !Registered(pin)
      modifies this`ioDevice, this`swFlags, this`calls, this`keys, keys
      ensures Valid() && Registered(pin)
      ensures ioDevice == if old(ioDevice) == None then Some(InternalDigitalIo) else old(ioDevice)
      ensures swFlags == if old(ioDevice) == None then BitWrite(0, SW_FLAG_PULLUP_LOGIC, true) else old(swFlags)
      ensures calls == old(calls)
                       + (if old(ioDevice) == None then [ScheduleFixedRate(SWITCH_POLL_INTERVAL)] else [])
                       + (if pin == 0 then [SetPinMode(0, IsPullupLogic(false))]
                                           + (if IsInterruptDriven() then [RegisterInterrupt(0)] else [])
                          else [])
      ensures pin != 0 ==> && keys == old(keys)
                           && var k := keys[IndexOf(keys, pin)];
                              k.View() == old(k.View()).(callbackOnRelease := Some(callbackOnRelease))
                              && k.events == old(k.events)
      ensures pin != 0 ==> forall k | k in keys && k.pin != pin :: unchanged(k)
      ensures pin == 0 ==> forall k | k in old(keys) :: unchanged(k)
      ensures pin == 0 ==> && keys[1..] == old(keys)
                           && fresh(keys[0]) && keys[0].events == []
                           && keys[0].View() == Key(0, InitialFlags(false, false), NOT_PRESSED, 0, 0, NO_REPEAT,
                                                    NoTarget, Some(callbackOnRelease))
    {
      EnsureDevice();
      if pin != 0 {
        AttachReleaseCallback(pin, callbackOnRelease);
      } else {
        AddReleaseOnlySwitch(callbackOnRelease);
      }
    }

    /** The lazy set-up at the head of `internalAddSwitch` and `onRelease`: the internal device with pull-up logic, polled. */
    method EnsureDevice()
      modifies this`ioDevice, this`swFlags, this`calls
      ensures ioDevice == if old(ioDevice) == None then Some(InternalDigitalIo) else old(ioDevice)
      ensures swFlags == if old(ioDevice) == None then BitWrite(0, SW_FLAG_PULLUP_LOGIC, true) else old(swFlags)
      ensures calls == old(calls) + (if old(ioDevice) == None then [ScheduleFixedRate(SWITCH_POLL_INTERVAL)] else [])
    {
      if ioDevice == None {
        Initialise(InternalDigitalIo, true);
        assert swFlags == BitWrite(0, SW_FLAG_PULLUP_LOGIC, true);
      }
    }

    /** The branch of `onRelease` for pin 0: the pin is set up and a release-only key is added. */
    method AddReleaseOnlySwitch(callbackOnRelease: CallbackId)
      requires Valid() && ioDevice.Some? && !Registered(0)
      modifies this`ioDevice, this`swFlags, this`calls, this`keys
      ensures Valid() && Registered(0)
      ensures ioDevice == old(ioDevice) && swFlags == old(swFlags)
      ensures calls == old(calls) + [SetPinMode(0, IsPullupLogic(false))]
                       + (if IsInterruptDriven() then [RegisterInterrupt(0)] else [])
      ensures forall k | k in old(keys) :: unchanged(k)
      ensures keys[1..] == old(keys) && fresh(keys[0]) && keys[0].events == []
      ensures keys[0].View() == Key(0, InitialFlags(false, false), NOT_PRESSED, 0, 0, NO_REPEAT,
                                    NoTarget, Some(callbackOnRelease))
    {
      var ok := InternalAddSwitch(0, false);
      if ok {
        AddReleaseOnlyKey(callbackOnRelease);
      }
    }

    /** The branch of `onRelease` for a non-zero pin: its key gets the release callback. */
    method AttachReleaseCallback(pin: PinId, callbackOnRelease: CallbackId)
      requires Valid() && Registered(pin)
      modifies keys
      ensures Valid()
      ensures var k := keys[IndexOf(keys, pin)];
              k.View() == old(k.View()).(callbackOnRelease := Some(callbackOnRelease)) && k.events == old(k.events)
      ensures forall k | k in keys && k.pin != pin :: unchanged(k)
    {
      var keyItem := keys[IndexOf(keys, pin)];
      keyItem.OnRelease(Some(callbackOnRelease));
    }

    /** The key the pin-0 branch of `onRelease` adds: non-repeating, whose only
        target is the release callback. */
    method AddReleaseOnlyKey(callbackOnRelease: CallbackId)
      requires Valid() && !Registered(0)
      modifies this`keys
      ensures Valid() && Registered(0)
      ensures |keys| == |old(keys)| + 1 && keys[1..] == old(keys)
      ensures fresh(keys[0]) && keys[0].events == []
      ensures keys[0].View() == Key(0, InitialFlags(false, false), NOT_PRESSED, 0, 0, NO_REPEAT,
                                    NoTarget, Some(callbackOnRelease))
    {
      var newItem := new KeyboardItem(0, None, NO_REPEAT, false);
      newItem.OnRelease(Some(callbackOnRelease));
      InsertKey(newItem);
      assert InsertionPoint(old(keys), 0) == 0;
    }

    /** `isSwitchPressed(pin)`: the registered key for `pin` is pressed or held. */
    function IsSwitchPressed(pin: PinId): (r: bool)
      requires Valid() && Registered(pin)
      reads this, keys
      ensures r <==> exists k | k in keys && k.pin == pin :: IsPressed(k.stateFlags)
    {
      IsPressed(keys[IndexOf(keys, pin)].stateFlags)
    }

    /** `pushSwitch(pin, held)`: the press notification of the key for `pin`, as if it fired. */
    method PushSwitch(pin: PinId, held: bool)
      requires Valid() && Registered(pin)
      modifies keys
      ensures var k := keys[IndexOf(keys, pin)];
              && k.events == old(k.events) + PressEvents(k.View(), held)
              && k.View() == old(k.View())
      ensures forall k | k in keys && k.pin != pin :: unchanged(k)
    {
      keys[IndexOf(keys, pin)].Trigger(held);
    }

    /** `setEncoder(slot, encoder)`: out-of-range slots are ignored. */
    method SetEncoderAt(slot: uint8, enc: RotaryEncoder?)
      requires Valid()
      modifies encoder
      ensures slot < MAX_ROTARY_ENCODERS ==> encoder[..] == old(encoder[..])[slot := enc]
      ensures slot >= MAX_ROTARY_ENCODERS ==> encoder[..] == old(encoder[..])
    {
      if slot < MAX_ROTARY_ENCODERS {
        encoder[slot] := enc;
      }
    }

    /** `setEncoder(encoder)`: slot 0. */
    method SetEncoder(enc: RotaryEncoder?)
      requires Valid()
      modifies encoder
      ensures encoder[..] == old(encoder[..])[0 := enc]
      ensures GetEncoder() == enc
    {
      encoder[0] := enc;
    }

    /** `getEncoder()`: slot 0. */
    function GetEncoder(): RotaryEncoder?
      requires HasSlots()
      reads this, encoder
    {
      encoder[0]
    }

    /** `changeEncoderPrecision(slot, precision, currentValue, rollover)`:
        ignored for an out-of-range or empty slot. */
    method ChangeEncoderPrecisionAt(slot: uint8, precision: uint16, currentValue: uint16, rollover: bool)
      requires Valid()
      modifies if slot < MAX_ROTARY_ENCODERS && encoder[slot] != null then {encoder[slot]} else {}
      ensures slot < MAX_ROTARY_ENCODERS && encoder[slot] != null ==>
                var e := encoder[slot];
                e.State() == old(e.State()).(value := WithPrecision(old(e.Value()), precision, currentValue, rollover),
                                             reported := old(e.reported) + [currentValue])
    {
      if slot < MAX_ROTARY_ENCODERS && encoder[slot] != null {
        encoder[slot].ChangePrecision(precision, currentValue, rollover);
      }
    }

    /** `changeEncoderPrecision(precision, currentValue)`: slot 0 without rollover. */
    method ChangeEncoderPrecision(precision: uint16, currentValue: uint16)
      requires Valid()
      modifies if encoder[0] != null then {encoder[0]} else {}
      ensures encoder[0] != null ==>
                var e := encoder[0];
                e.State() == old(e.State()).(value := WithPrecision(old(e.Value()), precision, currentValue, false),
                                             reported := old(e.reported) + [currentValue])
    {
      ChangeEncoderPrecisionAt(0, precision, currentValue, false);
    }


    /** `runLoop()`: one tick for every key; the result says whether any key
        is still debouncing, pressed or held. */
    method RunLoop(syncOk: bool, levels: PinId -> uint8) returns (needAnotherGo: bool)
      requires Valid()
      modifies this`lastSyncStatus, keys
      ensures Valid() && keys == old(keys)
      ensures lastSyncStatus == syncOk
      ensures KeysTicked(keys, BitRead(swFlags, SW_FLAG_PULLUP_LOGIC), levels)
      ensures needAnotherGo <==> AnyBusy(keys)
    {
      lastSyncStatus := syncOk;
      needAnotherGo := TickKeys(keys, levels);
    }

    /** The loop of `runLoop`: every key of `ks`, in order, is fed its level. */
    method TickKeys(ks: seq<KeyboardItem>, levels: PinId -> uint8) returns (needAnotherGo: bool)
      requires SortedByPin(ks) && forall k | k in ks :: k.Valid()
      modifies ks
      ensures forall k | k in ks :: k.Valid()
      ensures KeysTicked(ks, BitRead(swFlags, SW_FLAG_PULLUP_LOGIC), levels)
      ensures needAnotherGo <==> AnyBusy(ks)
    {
      needAnotherGo := false;
      ghost var pullUpFlag := BitRead(swFlags, SW_FLAG_PULLUP_LOGIC);
      DistinctItems(ks);
      var i := 0;
      while i < |ks|
        invariant 0 <= i <= |ks|
        invariant forall j | 0 <= j < i :: KeyTicked(ks[j], pullUpFlag, levels)
        invariant forall j | i <= j < |ks| :: unchanged(ks[j])
        invariant needAnotherGo <==> AnyBusy(ks[..i])
      {
        var key := ks[i];
        assert ks[..i + 1] == ks[..i] + [key];
        var busy := TickKey(key, levels);
        needAnotherGo := needAnotherGo || busy;
        i := i + 1;
      }
      assert ks[..i] == ks;
    }

    /** The body of the loop of `runLoop` for one key. */
    method TickKey(key: KeyboardItem, levels: PinId -> uint8) returns (busy: bool)
      requires key.Valid()
      modifies key
      ensures key.Valid()
      ensures KeyTicked(key, BitRead(swFlags, SW_FLAG_PULLUP_LOGIC), levels)
      ensures busy == Busy(key.stateFlags)
    {
      var pinState := levels(key.pin);
      if IsPullupLogic(IsLogicInverted(key.stateFlags)) {
        pinState := if pinState == 0 then 1 else 0;
      }
      key.CheckAndTrigger(pinState);
      busy := IsDebouncing(key.stateFlags) || IsPressed(key.stateFlags);
    }
  }

  /** `checkRunLoopAndRepeat()`: one run of the loop with interrupts held
      off; while a key is busy the debounce flag stays set and a follow-up
      run is scheduled, otherwise the flag is cleared. */
  method CheckRunLoopAndRepeat(switches: SwitchInput, syncOk: bool, levels: PinId -> uint8)
    requires switches.Valid()
    modifies switches`swFlags, switches`lastSyncStatus, switches`calls, switches.keys
    ensures switches.Valid() && switches.keys == old(switches.keys)
    ensures switches.lastSyncStatus == syncOk
    ensures KeysTicked(switches.keys, BitRead(switches.swFlags, SW_FLAG_PULLUP_LOGIC), levels)
    ensures switches.IsInterruptDebouncing() <==> AnyBusy(switches.keys)
    ensures switches.calls == old(switches.calls) + if AnyBusy(switches.keys) then [ScheduleOnce(FOLLOW_UP_DELAY)] else []
    ensures switches.IsInterruptDriven() == old(switches.IsInterruptDriven())
    ensures BitRead(switches.swFlags, SW_FLAG_PULLUP_LOGIC) == old(BitRead(switches.swFlags, SW_FLAG_PULLUP_LOGIC))
  {
    ghost var pullUp := BitRead(switches.swFlags, SW_FLAG_PULLUP_LOGIC);
    switches.SetInterruptDebouncing(true);
    var again := switches.RunLoop(syncOk, levels);
    if again {
      switches.calls := switches.calls + [ScheduleOnce(FOLLOW_UP_DELAY)];
    } else {
      switches.SetInterruptDebouncing(false);
    }
    assert BitRead(switches.swFlags, SW_FLAG_PULLUP_LOGIC) == pullUp;
  }

  /** What `onSwitchesInterrupt` does to the keys and the flags: in interrupt
      mode, unless a burst of polling was already under way, it polls every key
      once and keeps the burst going while any key is busy; otherwise it leaves
      them alone. */
  twostate predicate KeysHandledInterrupt(switches: SwitchInput, syncOk: bool, levels: PinId -> uint8)
    reads switches`swFlags, switches`lastSyncStatus, switches`calls, switches`keys, switches.keys
  {
    && switches.keys == old(switches.keys)
    && (old(switches.IsInterruptDriven() && !switches.IsInterruptDebouncing()) ==>
          && switches.lastSyncStatus == syncOk
          && KeysTicked(switches.keys, BitRead(switches.swFlags, SW_FLAG_PULLUP_LOGIC), levels)
          && (switches.IsInterruptDebouncing() <==> AnyBusy(switches.keys))
          && switches.calls == old(switches.calls) + if AnyBusy(switches.keys) then [ScheduleOnce(FOLLOW_UP_DELAY)] else [])
    && (!old(switches.IsInterruptDriven() && !switches.IsInterruptDebouncing()) ==>
          && switches.swFlags == old(switches.swFlags)
          && switches.lastSyncStatus == old(switches.lastSyncStatus)
          && switches.calls == old(switches.calls)
          && forall k | k in switches.keys :: unchanged(k))
  }

  /** `onSwitchesInterrupt(pin)`: the keys are handled as
      `KeysHandledInterrupt` says, then every encoder in a slot is told of the
      interrupt, reading its pins from `levels`. */
  method OnSwitchesInterrupt(switches: SwitchInput, syncOk: bool, levels: PinId -> uint8, encoderSyncOk: bool, now: uint32)
    requires switches.Valid()
    modifies switches`swFlags, switches`lastSyncStatus, switches`calls, switches`encoderCalls, switches.keys
    modifies switches.encoder[..]
    ensures switches.Valid() && KeysHandledInterrupt(switches, syncOk, levels)
    ensures switches.encoderCalls == old(switches.encoderCalls) + OccupiedSlots(switches.encoder[..])
    ensures var slots := switches.encoder[..];
            forall j {:trigger SoleSlot(slots, j)} | 0 <= j < |slots| && slots[j] != null && SoleSlot(slots, j) ::
              slots[j].State() == Notified(slots[j].kind, old(slots[j].State()), levels, encoderSyncOk, now)
  {
    var slots := switches.encoder[..];
    HandleKeyInterrupt(switches, syncOk, levels);
    assert forall j {:trigger SoleSlot(slots, j)} | 0 <= j < |slots| && slots[j] != null && SoleSlot(slots, j) ::
             slots[j].State() == old(slots[j].State());
    label keysHandled:
    NotifyEncoders(switches, slots, levels, encoderSyncOk, now);
    assert forall k | k in switches.keys :: unchanged@keysHandled(k);
  }

  /** The key half of `onSwitchesInterrupt`. */
  method HandleKeyInterrupt(switches: SwitchInput, syncOk: bool, levels: PinId -> uint8)
    requires switches.Valid()
    modifies switches`swFlags, switches`lastSyncStatus, switches`calls, switches.keys
    ensures switches.Valid() && KeysHandledInterrupt(switches, syncOk, levels)
  {
    if switches.IsInterruptDriven() && !switches.IsInterruptDebouncing() {
      CheckRunLoopAndRepeat(switches, syncOk, levels);
    }
  }

  /** The loop of `onSwitchesInterrupt` over the encoder slots `slots`:
      every non-empty slot's encoder handles the interrupt, in slot order. */
  method NotifyEncoders(switches: SwitchInput, slots: seq<RotaryEncoder?>, levels: PinId -> uint8, encoderSyncOk: bool, now: uint32)
    modifies switches`encoderCalls, slots
    ensures switches.encoderCalls == old(switches.encoderCalls) + OccupiedSlots(slots)
    ensures forall j {:trigger SoleSlot(slots, j)} | 0 <= j < |slots| && slots[j] != null && SoleSlot(slots, j) ::
              slots[j].State() == Notified(slots[j].kind, old(slots[j].State()), levels, encoderSyncOk, now)
  {
    var i := 0;
    while i < |slots|
      invariant 0 <= i <= |slots|
      invariant switches.encoderCalls == old(switches.encoderCalls) + OccupiedSlots(slots[..i])
      invariant forall j {:trigger SoleSlot(slots, j)} | 0 <= j < |slots| && slots[j] != null && SoleSlot(slots, j) ::
                  slots[j].State() == if j < i then Notified(slots[j].kind, old(slots[j].State()), levels, encoderSyncOk, now)
                                      else old(slots[j].State())
    {
      assert slots[..i + 1][..i] == slots[..i];
      if slots[i] != null {
        NotifySlot(slots, i, levels, encoderSyncOk, now);
        switches.encoderCalls := switches.encoderCalls + [i];
      }
      i := i + 1;
    }
    assert slots[..i] == slots;
  }

  /** True when no other slot holds the encoder of slot `i`. */
  predicate SoleSlot(slots: seq<RotaryEncoder?>, i: nat)
    requires i < |slots|
  {
    forall j | 0 <= j < |slots| && j != i :: slots[j] != slots[i]
  }

  /** The state of an encoder of `kind` after it handled an interrupt: a
      generic encoder ignores it, a hardware encoder reads its two pins. */
  function Notified(kind: EncoderKind, s: EncoderState, levels: PinId -> uint8, syncOk: bool, now: uint32): EncoderState
  {
    if kind.Generic? then s else OnEdge(s, syncOk, levels(kind.pinA), levels(kind.pinB), now)
  }

  /** The encoder in slot `i` handles the interrupt; every other encoder
      that occupies a single slot keeps its state. */
  method NotifySlot(slots: seq<RotaryEncoder?>, i: nat, levels: PinId -> uint8, encoderSyncOk: bool, now: uint32)
    requires i < |slots| && slots[i] != null
    modifies slots[i]
    ensures forall j {:trigger SoleSlot(slots, j)} | 0 <= j < |slots| && slots[j] != null && SoleSlot(slots, j) ::
              slots[j].State() == if j == i then Notified(slots[j].kind, old(slots[j].State()), levels, encoderSyncOk, now)
                                  else old(slots[j].State())
  {
    NotifyEncoder(slots[i], levels, encoderSyncOk, now);
  }

  /** One encoder handles the interrupt, reading its pins from `levels`. */
  method NotifyEncoder(e: RotaryEncoder, levels: PinId -> uint8, encoderSyncOk: bool, now: uint32)
    modifies e
    ensures e.kind.Generic? ==> unchanged(e)
    ensures e.State() == Notified(e.kind, old(e.State()), levels, encoderSyncOk, now)
  {
    var a, b := 0, 0;
    if e.kind.Quadrature? {
      a := levels(e.kind.pinA);
      b := levels(e.kind.pinB);
    }
    e.EncoderChanged(encoderSyncOk, a, b, now);
  }

  /** The indices of the non-empty slots, in order. */
  function OccupiedSlots(slots: seq<RotaryEncoder?>): (r: seq<nat>)
    ensures forall i | 0 <= i < |r| :: r[i] < |slots| && slots[r[i]] != null
    ensures forall i | 0 <= i < |slots| && slots[i] != null :: i in r
  {
    if slots == [] then []
    else
      var init := OccupiedSlots(slots[..|slots| - 1]);
      assert slots[..|slots| - 1] == slots[..|slots| - 1];
      init + if slots[|slots| - 1] != null then [|slots| - 1] else []
  }

  /** The step an up button pushes: +1, or -1 when scrolling through items. */
  function UpDirection(intent: EncoderUserIntention): (d: int8)
    ensures d == 1 || d == -1
    ensures d == -1 <==> intent == ScrollThroughItems
    ensures d == -DownDirection(intent)
  {
    if intent == ScrollThroughItems then -1 else 1
  }

  /** The step a down button pushes: -1, or +1 when scrolling through items. */
  function DownDirection(intent: EncoderUserIntention): (d: int8)
    ensures d == 1 || d == -1
  {
    if intent == ScrollThroughItems then 1 else -1
  }

  /** `switchEncoderUp`: one step up on the encoder in slot 0. */
  method SwitchEncoderUp(switches: SwitchInput)
    requires switches.Valid() && switches.GetEncoder() != null
    modifies switches.GetEncoder()`currentReading, switches.GetEncoder()`reported
    ensures var e := switches.GetEncoder();
            && e.Value() == Incremented(old(e.Value()), UpDirection(old(e.intent)))
            && e.reported == old(e.reported) + [Reported(old(e.Value()), UpDirection(old(e.intent)))]
  {
    var dir := UpDirection(switches.GetEncoder().GetUserIntention());
    switches.GetEncoder().Increment(dir);
  }

  /** `switchEncoderDown`: one step down on the encoder in slot 0. */
  method SwitchEncoderDown(switches: SwitchInput)
    requires switches.Valid() && switches.GetEncoder() != null
    modifies switches.GetEncoder()`currentReading, switches.GetEncoder()`reported
    ensures var e := switches.GetEncoder();
            && e.Value() == Incremented(old(e.Value()), DownDirection(old(e.intent)))
            && e.reported == old(e.reported) + [Reported(old(e.Value()), DownDirection(old(e.intent)))]
  {
    var dir := DownDirection(switches.GetEncoder().GetUserIntention());
    switches.GetEncoder().Increment(dir);
  }
}
