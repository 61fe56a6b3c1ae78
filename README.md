# Switch and rotary encoder input, modelled in Dafny

This project models the switch and encoder input core of IoAbstraction
(`src/SwitchInput.cpp` and `src/SwitchInput.h`) and proves properties of it.

- **`KeyboardItem`** (module `Keys`, `KeyboardItem.dfy`) is the per-switch state machine. It covers the two-stage debounce, the press, the hold after `HOLD_THRESHOLD` ticks, and the accelerating auto-repeat.
  - The state is packed into an 8-bit flags byte: the low nibble holds the state, bit 6 the logic inversion and bit 7 the listener mode.
  - A class with the source's fields keeps this state, and `CheckAndTrigger` updates it in place.
  - The pure function `Tick`/`Step` specifies one tick. The class method is proved against it.
  - Callback and listener notifications are recorded as `KeyEvent`s in a ghost log.
- **`RotaryEncoder` and `HardwareRotaryEncoder`** (module `Encoders`, `RotaryEncoder.dfy`) are one class. A constant `kind` says whether the quadrature hardware part is present, since a base-class encoder ignores edge interrupts.
  - The bounded, rollover and direction-only value model is specified by `Incremented`, `WithPrecision` and `WithIntention`.
  - The gating of `encoderChanged` is `Decode`, and the time-based acceleration is `AmountFromChange`.
  - Values handed to the encoder callback are recorded in the ghost log `reported`.
- **`SwitchInput`** (module `Switches`, `SwitchInput.dfy`) is the orchestrator. It owns the keys, kept in pin order as the B-tree list keeps them, the four encoder slots and the flags byte.
  - The flags byte holds pull-up logic in bit 0, interrupt-driven mode in bit 1 and interrupt debouncing in bit 2.
  - The free functions `checkRunLoopAndRepeat`, `onSwitchesInterrupt` and `switchEncoderUp`/`switchEncoderDown` take the switch input object as a parameter.
  - Calls into the I/O device and the task manager (pin modes, interrupt registrations, scheduled tasks) are recorded in the ghost log `calls`.
  - The results of syncing the device, the pin levels and the microsecond clock are parameters.
- **Proofs** live in `KeyProperties.dfy`, `EncoderProperties.dfy` and `SwitchProperties.dfy`. They cover:
  - each tick's effect in every state;
  - debounce, press-then-hold and repeat liveness over runs of ticks;
  - range preservation for encoder increments;
  - the decoding direction;
  - the behaviours behind the findings below.

The trivial getters are fields or one-line functions of the classes and carry no contract of their own: `getPin`, `getCurrentReading`, `didLastSyncSucceed`, `getUserIntention` and `getEncoder`.

The model follows the C++ code, except for the three bugs under "## Findings". There the classes run the corrected arithmetic or setter, and the code as written is kept beside it as a separate member (`TickAsWritten`, `NextReadingAsWritten`, `SetEncoderTypeAsWritten`).

- **Quadrature direction.** In FULL_CYCLE a step fires only on an A edge while B differs from its clean level.
  - B leading A gives +1 per turn, and A leading B gives -1 (`EncoderProperties.FullCycleDirection`).
  - A rising and then B rising gives no step (`EncoderProperties.RisingAThenRisingBIsSilent`).
- **onRelease.** The C++ code chooses the branch of `onRelease` by testing the pin number, not by testing the lookup result. See "## Left out".

## Model

| member | source | states |
|---|---|---|
| Keys.IsDebouncing | src/SwitchInput.h:119 | an item is debouncing exactly when its state lies strictly between NOT_PRESSED and PRESSED |
| Keys.IsPressed | src/SwitchInput.h:120 | an item is pressed exactly when its state is PRESSED or above, up to BUTTON_HELD |
| Keys.IsHeld | src/SwitchInput.h:121 | an item is held exactly in BUTTON_HELD, and a held item is also pressed and not debouncing |
| Keys.IsUsingListener | src/SwitchInput.h:133 | listener mode is the top bit of the flags byte |
| Keys.IsLogicInverted | src/SwitchInput.h:134 | logic inversion is bit 6 of the flags byte |
| Keys.GetState | src/SwitchInput.h:128 | the press state is the low nibble of the flags byte |
| Keys.WithState | src/SwitchInput.h:129-132 | setting a state replaces the low nibble and keeps the listener-mode and logic-inverted bits |
| Keys.KeyboardItem.SetState | src/SwitchInput.h:129-132 | the flags byte becomes `WithState` of the old one |
| Keys.KeyboardItem.constructor | src/SwitchInput.cpp:26-37 | a callback item starts NOT_PRESSED with counter and acceleration 0, listener bit clear, the inversion bit as given, no release callback, and satisfies the item invariant |
| Keys.KeyboardItem.WithListener | src/SwitchInput.cpp:39-50 | a listener item starts the same way with the listener bit set |
| Keys.InitialFlags | src/SwitchInput.cpp:32-36 | the initial flags byte has state NOT_PRESSED and the listener and inversion bits as given |
| Keys.KeyboardItem.OnRelease | src/SwitchInput.cpp:76-78 | only the release callback changes; the invariant is kept |
| Keys.PressEvents | src/SwitchInput.cpp:80-85 | one press notification, carrying the pin and `held`, goes to the listener in listener mode or to the callback otherwise, and there is none without a target |
| Keys.KeyboardItem.Trigger | src/SwitchInput.cpp:80-85 | the event log grows by exactly `PressEvents` |
| Keys.ReleaseEvents | src/SwitchInput.cpp:87-90 | exactly one release notification, carrying the pin and `held`, is sent when there is a listener or a release callback, and none otherwise; the listener takes precedence, and otherwise it goes to the release callback |
| Keys.KeyboardItem.TriggerRelease | src/SwitchInput.cpp:87-90 | the event log grows by exactly `ReleaseEvents` |
| Keys.RepeatCounter | src/SwitchInput.cpp:118 | the counter advances by `(acceleration >> 2) + 1`, exactly while that fits in 8 bits; the model's arithmetic saturates at 255 |
| Keys.Step | src/SwitchInput.cpp:92-139 | one tick keeps the item invariant, never changes pin, repeat interval, targets or the upper nibble of the flags, and emits at most one event |
| Keys.ActiveStep | src/SwitchInput.cpp:95-125 | the active-level half of the tick keeps the same invariant and frame |
| Keys.InactiveStep | src/SwitchInput.cpp:126-138 | the inactive-level half of the tick keeps the same invariant and frame |
| Keys.TickAsWritten | src/SwitchInput.cpp:92-139 | the tick with the C++ code's wrapping 8-bit repeat counter; it is the model's tick whenever the counter sum fits 8 bits |
| Keys.KeyboardItem.CheckAndTrigger | src/SwitchInput.cpp:92-139 | the item's new fields and appended events are exactly those of `Tick` on its old value, and validity is kept |
| Keys.KeyboardItem.CheckActive | src/SwitchInput.cpp:95-125 | the active branch updates the item exactly as `ActiveStep` |
| Keys.KeyboardItem.CheckInactive | src/SwitchInput.cpp:126-138 | the inactive branch updates the item exactly as `InactiveStep` |
| KeyProperties.StatePredicates | src/SwitchInput.h:119-121 | debouncing and pressed exclude each other, held implies pressed, and NOT_PRESSED is none of them |
| KeyProperties.IgnoredWithoutTarget | src/SwitchInput.cpp:93 | an item with neither target nor release callback ignores every tick |
| KeyProperties.DebounceEntry | src/SwitchInput.cpp:95-128 | an active level arms DEBOUNCING1 silently, one inactive sample moves DEBOUNCING1 to DEBOUNCING2, and an active level while debouncing confirms the press with one press(held=false) |
| KeyProperties.Release | src/SwitchInput.cpp:129-138 | an inactive level outside DEBOUNCING1 returns to NOT_PRESSED and fires a release exactly when the item was pressed, with held = it was held |
| KeyProperties.HoldTick | src/SwitchInput.cpp:107-116 | in PRESSED an active tick counts; the tick past HOLD_THRESHOLD enters BUTTON_HELD with one press(held=true) |
| KeyProperties.RepeatTick | src/SwitchInput.cpp:117-124 | in BUTTON_HELD without repeat nothing changes; with repeat the counter advances, and passing the interval fires, resets the counter and raises the acceleration |
| KeyProperties.RunKeepsInvariant | src/SwitchInput.cpp:92-139 | any run of ticks keeps the item invariant |
| KeyProperties.NoiseSpikeIgnored | src/SwitchInput.cpp:95-138 | active once and then inactive twice never reaches PRESSED and notifies nobody |
| KeyProperties.CleanPress | src/SwitchInput.cpp:95-106 | two active ticks from rest confirm the press with exactly one press(held=false) |
| KeyProperties.HoldForSplit | src/SwitchInput.cpp:95-125 | holding for a + b ticks is holding for a and then b ticks |
| KeyProperties.PressedCountsUp | src/SwitchInput.cpp:107-116 | below the hold threshold, active ticks only count |
| KeyProperties.HeldAtThreshold | src/SwitchInput.cpp:107-115 | a PRESSED item at HOLD_THRESHOLD becomes BUTTON_HELD on the next active tick, with its counter and acceleration reset and one press(held=true) |
| KeyProperties.PressedBecomesHeld | src/SwitchInput.cpp:107-116 | exactly HOLD_THRESHOLD + 1 - counter active ticks take PRESSED to BUTTON_HELD with one press(held=true) |
| KeyProperties.HeldWithoutRepeatIsSilent | src/SwitchInput.cpp:117 | a held item without repeat stays silent and unchanged however long it is held |
| KeyProperties.PressAndHold | src/SwitchInput.cpp:95-116 | HOLD_THRESHOLD + 3 active ticks from rest reach BUTTON_HELD with exactly press(false) then press(true) |
| KeyProperties.TicksToRepeat | src/SwitchInput.cpp:117-124 | the ticks to the next repeat are between 1 and interval - counter + 1 |
| KeyProperties.RepeatFires | src/SwitchInput.cpp:117-124 | after `TicksToRepeat` active ticks exactly one press(held=true) fires, the counter is 0 and the acceleration rose by one |
| KeyProperties.RepeatSpacingNonIncreasing | src/SwitchInput.cpp:118-120 | a later counter and a higher acceleration never need more ticks to the next repeat |
| KeyProperties.StallsAsWritten | src/SwitchInput.cpp:118 | with the 8-bit wrap, interval 192..254 and acceleration >= 252, four active ticks return the item to the same state with no event |
| KeyProperties.StallsForeverAsWritten | src/SwitchInput.cpp:118 | with the 8-bit wrap, the same item is silent for every multiple of four ticks |
| KeyProperties.ClimbsByTwoAsWritten | src/SwitchInput.cpp:117-120 | with the 8-bit wrap, interval 254 and acceleration 4 to 7, each active tick adds 2 to the counter silently, up to 254 |
| KeyProperties.WrapsAfterClimbAsWritten | src/SwitchInput.cpp:118 | from counter 0, 127 ticks climb to 254 and the next one wraps back to the starting state, with no event |
| KeyProperties.StallsAtAccelerationFourAsWritten | src/SwitchInput.cpp:118 | with the 8-bit wrap and interval 254, an item that has reached acceleration 4 (after three repeats) returns to the same state every 128 ticks and never repeats |
| KeyProperties.SaturatingRepeatsWhereWrappingStalls | src/SwitchInput.cpp:117-124 | the model's saturating counter repeats from that state on the fourth tick |
| Encoders.NextReading | src/SwitchInput.cpp:297-311 | the new reading stays within [0, max]; without rollover it is the clamped sum; with rollover and a non-negative result it is the sum modulo max + 1; an underflow with rollover lands on max + 1 + incVal |
| Encoders.NegativeStep | src/SwitchInput.cpp:306-311 | a negative step subtracts when the reading covers it; otherwise it gives 0, or with rollover lands on max + 1 + incVal |
| Encoders.NextReadingAsWritten | src/SwitchInput.cpp:297-311 | the code as written, with the non-negative sum stored into 16 bits before the maximum is applied; it still keeps an in-range reading within [0, max] |
| Encoders.Incremented | src/SwitchInput.cpp:290-311 | an increment changes only the reading, and in direction-only mode (max 0) nothing |
| Encoders.Reported | src/SwitchInput.cpp:290-312 | the callback gets the raw step in direction-only mode, otherwise a value within [0, max] when the reading was in range |
| Encoders.RotaryEncoder.Increment | src/SwitchInput.cpp:290-313 | the encoder's value becomes `Incremented` and `Reported` is appended to the callback log |
| Encoders.WithPrecision | src/SwitchInput.cpp:271-277 | max and rollover are stored, the reading is the value stored into 16 bits, and max 0 with value 0 forces DIRECTION_ONLY, otherwise the intention is kept |
| Encoders.RotaryEncoder.ChangePrecision | src/SwitchInput.cpp:271-277 | the value becomes `WithPrecision` and the new reading is reported |
| Encoders.WithIntention | src/SwitchInput.cpp:279-285 | the intention is stored; DIRECTION_ONLY also zeroes the maximum and the reading, and any other intention keeps them |
| Encoders.RotaryEncoder.SetUserIntention | src/SwitchInput.cpp:279-285 | the value becomes `WithIntention` |
| Encoders.RotaryEncoder.constructor | src/SwitchInput.cpp:262-269 | a base encoder starts at reading 0, max 0, no rollover, CHANGE_VALUE, sync ok |
| Encoders.RotaryEncoder.Hardware | src/SwitchInput.cpp:315-332 | a hardware encoder also stores its pins, mode and type, and its initial sync result, A/B levels and timestamp |
| Encoders.RotaryEncoder.SetCurrentReading | src/SwitchInput.h:186 | the reading becomes the argument stored into 16 bits |
| Encoders.RotaryEncoder.SetAccelerationMode | src/SwitchInput.h:261 | the acceleration mode becomes the argument |
| Encoders.RotaryEncoder.SetEncoderType | src/SwitchInput.h:262 | as intended: the encoder type becomes the argument |
| Encoders.RotaryEncoder.SetEncoderTypeAsWritten | src/SwitchInput.h:262 | as written: the encoder type never changes |
| Encoders.RotaryEncoder.EncoderTypeAfterSetAsWritten | src/SwitchInput.h:262 | as written: reading back after setting a different type never gives that type |
| Encoders.AmountFromChange | src/SwitchInput.cpp:364-383 | the step is 1..10; it is 1 for a slow turn (> 250000 us), a small range (< 32) or no acceleration, and at most 4 in the slower mode |
| Encoders.Elapsed | src/SwitchInput.cpp:397 | the time since the last step is the unsigned 32-bit difference: now - last, or now + 2^32 - last once the clock has wrapped |
| Encoders.StepDelta | src/SwitchInput.cpp:398-412 | the signed step has the magnitude of the accelerated amount and is negative exactly when A and B differ |
| Encoders.Decode | src/SwitchInput.cpp:390-417 | aLast becomes A; QUARTER_CYCLE steps exactly when B moved from its clean level; HALF and FULL step exactly when A changed, B moved and A is high |
| Encoders.RotaryEncoder.Advance | src/SwitchInput.cpp:396-399 | a step that passed the gating adds the accelerated amount, negative when A and B differ, reports it as `increment` does, and restamps the time; nothing else changes |
| Encoders.RotaryEncoder.EncoderChanged | src/SwitchInput.cpp:385-419 | a base encoder is unchanged; a hardware encoder's whole state (value, decoder, time, mode, type, sync result, callback log) becomes `OnEdge` of its old state |
| EncoderProperties.IncrementExamples | src/SwitchInput.cpp:297-311 | concrete saturation, wrap, clamp and rollover-underflow results |
| EncoderProperties.UnderflowIgnoresCurrent | src/SwitchInput.cpp:306-307 | a rollover underflow agrees with wrapping modulo max + 1 exactly when the reading was 0 |
| EncoderProperties.AsWrittenAgreesWithoutOverflow | src/SwitchInput.cpp:297-304 | the C++ 16-bit arithmetic and the model's agree whenever the sum fits 16 bits |
| EncoderProperties.IncrementTruncatesAsWritten | src/SwitchInput.cpp:299-303 | as written, +1 on a full 65535/65535 encoder reads 0, and +5 on 65534 with max 65534 reads 3; the model gives 65535 and 4 |
| EncoderProperties.DirectionOnlyForwardsSteps | src/SwitchInput.cpp:290-295 | in direction-only mode the reading is untouched and the raw step is reported |
| EncoderProperties.IncrementStaysInRange | src/SwitchInput.cpp:297-311 | an increment of an in-range reading stays in range |
| EncoderProperties.AmountNonIncreasing | src/SwitchInput.cpp:364-383 | a slower turn never gives a bigger step |
| EncoderProperties.ElapsedAcrossWrap | src/SwitchInput.cpp:397 | elapsed time survives the 32-bit clock wrapping |
| EncoderProperties.DecodeIdempotent | src/SwitchInput.cpp:390-417 | feeding the same levels again changes nothing and does not step |
| EncoderProperties.HalfAndFullCycleAgree | src/SwitchInput.cpp:404-417 | HALF_CYCLE and FULL_CYCLE decode alike |
| EncoderProperties.CycleStepSign | src/SwitchInput.cpp:405-412 | in HALF/FULL cycle a step is negative exactly when B is low |
| EncoderProperties.DecodeRun | src/SwitchInput.cpp:385-419 | a run of samples yields at most one unit step per sample, each +1 or -1; in HALF/FULL cycle every step is +1 when B is high at every sample and -1 when B is low at every sample |
| EncoderProperties.EdgeProperties | src/SwitchInput.cpp:385-419 | one edge records the sync result and A, keeps mode, type, bound, rollover and intention, keeps an in-range reading in range, reports exactly one value exactly when it steps (in direction-only mode -1 when A and B differ and +1 when they agree) and restamps the time, and without a step leaves value and time alone |
| EncoderProperties.FullCycleDirection | src/SwitchInput.cpp:404-417 | FULL_CYCLE: B leading A steps up once per turn, A leading B steps down |
| EncoderProperties.QuarterCycleDirection | src/SwitchInput.cpp:390-403 | QUARTER_CYCLE steps on every A edge once B has moved, in the same directions |
| EncoderProperties.RisingAThenRisingBIsSilent | src/SwitchInput.cpp:405-409 | A rising and then B rising gives no FULL_CYCLE step |
| Switches.LevelSeen | src/SwitchInput.cpp:245-247 | under pull-up logic the key sees 1 exactly when the pin reads 0, and 0 otherwise; without it the raw level |
| Switches.InsertionPoint | src/SwitchInput.cpp:170-177 | a new key goes after every smaller pin and, in a sorted list, before every larger one |
| Switches.IndexOf | src/SwitchInput.cpp:216-218 | the lookup of a registered pin finds the key with that pin |
| Switches.SwitchInput.constructor | src/SwitchInput.cpp:141-148 | no device, flags 0, sync ok, no keys, all four slots empty |
| Switches.SwitchInput.IsPullupLogic | src/SwitchInput.h:410-414 | pull-up logic applies exactly when the pull-up flag differs from the key's inversion |
| Switches.SwitchInput.IsInterruptDriven | src/SwitchInput.h:419 | interrupt-driven mode is bit 1 of the flags byte |
| Switches.SwitchInput.IsInterruptDebouncing | src/SwitchInput.h:424 | interrupt debouncing is bit 2 of the flags byte |
| Switches.SwitchInput.SetInterruptDebouncing | src/SwitchInput.h:436 | only the debounce bit changes, to the argument |
| Switches.SwitchInput.Initialise | src/SwitchInput.cpp:159-168 | the device is set, the flags become just the pull-up choice (polling, not debouncing), and a fixed-rate task of 20 is scheduled |
| Switches.SwitchInput.InitialiseInterrupt | src/SwitchInput.cpp:150-157 | the device is set, the flags become the pull-up choice plus interrupt-driven, and nothing is scheduled |
| Switches.SwitchInput.InternalAddSwitch | src/SwitchInput.cpp:188-198 | it initialises polling on the board's pins if there is no device, sets the pin mode by `isPullupLogic`, registers an interrupt in interrupt mode, and succeeds |
| Switches.SwitchInput.InsertKey | src/SwitchInput.cpp:172 | the key is inserted at its pin-order position and the list stays sorted and valid |
| Switches.SwitchInput.AddSwitch | src/SwitchInput.cpp:170-177 | exactly one fresh callback key with the initial state is added at its pin position and the others keep their places; with no device, polling is initialised on the board's pins first; the pin mode is set by `isPullupLogic` and, in interrupt mode, the interrupt is registered |
| Switches.SwitchInput.AddSwitchListener | src/SwitchInput.cpp:179-186 | the same for a listener key, with the same device, flags and set-up calls |
| Switches.SwitchInput.OnRelease | src/SwitchInput.cpp:200-214 | a non-zero pin's key gains the release callback and no key changes otherwise; pin 0 gets a fresh non-repeating key, whose only target is the release callback, in front of the existing keys, which are all unchanged, with the pin set up as by `addSwitch`; with no device, polling is initialised first in both cases |
| Switches.SwitchInput.EnsureDevice | src/SwitchInput.cpp:189 | with no device, the internal device is installed with pull-up logic and polling is scheduled; with a device, nothing changes (the same test heads `onRelease`, line 201) |
| Switches.SwitchInput.AddReleaseOnlySwitch | src/SwitchInput.cpp:208-213 | pin 0 is set up as by `addSwitch`, and a fresh key with only the release callback goes in front of the existing keys, which are unchanged; the device and flags stay as they were |
| Switches.SwitchInput.AttachReleaseCallback | src/SwitchInput.cpp:204-207 | only the release callback of that pin's key changes |
| Switches.SwitchInput.AddReleaseOnlyKey | src/SwitchInput.cpp:209-213 | a fresh key for pin 0 with only a release callback is added first |
| Switches.SwitchInput.IsSwitchPressed | src/SwitchInput.cpp:216-218 | true exactly when the key for the pin is pressed or held |
| Switches.SwitchInput.PushSwitch | src/SwitchInput.cpp:220-222 | the key's press notification fires with its state unchanged, and every other key is unchanged |
| Switches.SwitchInput.SetEncoderAt | src/SwitchInput.cpp:230-234 | an in-range slot is replaced and an out-of-range slot is ignored |
| Switches.SwitchInput.SetEncoder | src/SwitchInput.h:354 | slot 0 is replaced, and `getEncoder` returns the new encoder |
| Switches.SwitchInput.ChangeEncoderPrecisionAt | src/SwitchInput.cpp:224-228 | an occupied in-range slot's encoder changes its value as `WithPrecision` and reports the new reading, and the rest of its state is unchanged; otherwise nothing happens |
| Switches.SwitchInput.ChangeEncoderPrecision | src/SwitchInput.h:377 | the same for slot 0 without rollover |
| Switches.SwitchInput.RunLoop | src/SwitchInput.cpp:236-256 | the sync result is stored, every key is ticked once with its pin level inverted under pull-up logic, and the result is true exactly when some key is debouncing, pressed or held |
| Switches.SwitchInput.TickKeys | src/SwitchInput.cpp:241-253 | the loop ticks each key exactly once and ORs their busy states |
| Switches.SwitchInput.TickKey | src/SwitchInput.cpp:243-252 | one key is ticked with its corrected level, and the result is whether it is busy |
| Switches.CheckRunLoopAndRepeat | src/SwitchInput.cpp:334-350 | the keys are polled once; while any key is busy, debouncing stays set and one follow-up run of 20 is scheduled, otherwise debouncing is cleared |
| Switches.OnSwitchesInterrupt | src/SwitchInput.cpp:352-362 | in interrupt mode and not already debouncing, the keys are polled as in `checkRunLoopAndRepeat`, otherwise the keys and flags are untouched; then every occupied slot, in order, is notified, and each encoder held in a single slot ends in the `Notified` state of its old one |
| Switches.HandleKeyInterrupt | src/SwitchInput.cpp:353-355 | the key half of the interrupt, as above |
| Switches.NotifyEncoders | src/SwitchInput.cpp:357-361 | the occupied slots are notified in slot order: the slot log grows by exactly the occupied slots, and each encoder held in a single slot ends in the `Notified` state of its old one |
| Switches.NotifySlot | src/SwitchInput.cpp:357-361 | the encoder of one slot handles the interrupt, and every other encoder held in a single slot keeps its state |
| Switches.NotifyEncoder | src/SwitchInput.cpp:358-360 | the encoder's whole state becomes `Notified`: `OnEdge` with its own pin levels for a hardware encoder; a base encoder is unchanged |
| Switches.OccupiedSlots | src/SwitchInput.cpp:357-361 | the notified slots are exactly the non-empty ones |
| Switches.UpDirection | src/SwitchInput.cpp:426 | up is -1 exactly when scrolling through items, else +1, the opposite of down |
| Switches.DownDirection | src/SwitchInput.cpp:431 | down is a unit step; `UpDirection` states it is +1 exactly when scrolling through items |
| Switches.SwitchEncoderUp | src/SwitchInput.cpp:425-428 | the slot-0 encoder is incremented by the up direction of its intention |
| Switches.SwitchEncoderDown | src/SwitchInput.cpp:430-433 | the slot-0 encoder is incremented by the down direction of its intention |
| SwitchProperties.PullUpInvertsLevel | src/SwitchInput.cpp:245-248 | under pull-up logic a low pin is seen active by a normal key; an inverted key sees the raw level |
| SwitchProperties.QuietPollChangesNothing | src/SwitchInput.cpp:243-250 | a resting key whose switch reads inactive is left exactly as it was and notifies nobody |
| SwitchProperties.UpThenDownRestores | src/SwitchInput.cpp:425-433 | an up press followed by a down press restores a reading strictly inside its bounds |

## Left out

- I/O: `ioDeviceSync`, `ioDeviceDigitalRead` and `micros()` become parameters (the sync result, a level function, the time). The switch input's own calls to `ioDevicePinMode`, `registerInterrupt` and the task manager's scheduling are recorded in its `calls` log. The scheduled lambdas are not run.
- Encoders.RotaryEncoder.Hardware: the hardware encoder constructor's pin set-up (two `ioDevicePinMode(..., INPUT_PULLUP)` calls) and its `registerInterrupt(pinA)` are not recorded; only the fields it stores are modelled.
- Concurrency: the interplay of interrupt context and task context, and `volatile`, are not modelled. Each operation is atomic.
- Notifications: callback and listener calls are recorded, not executed. The `EncoderUpDownButtons` constructor wires two keys to `switchEncoderUp`/`switchEncoderDown` through function pointers; that wiring is not modelled, but the two functions themselves are.
- The setup helpers `setupRotaryEncoderWithInterrupt` and `setupUpDownButtonEncoder` are not part of this model. A call to the global `registerInterrupt` is recorded, but its body (`setInterruptCallback`, `addInterrupt`) is not modelled.
- The default `KeyboardItem()` constructor (pin -1), the copy constructor and the assignment operator are not modelled. The list holds the item objects themselves, not copies.
- `BtreeList`'s own code is not part of this model. Its `add` is modelled as an insertion in pin order, and `getByKey` as a lookup of a registered pin.
- Switches.SwitchInput.AddSwitch: requires an unregistered pin and always returns true. The duplicate-pin result of `BtreeList::add` is not modelled.
- Switches.SwitchInput.AddSwitchListener: requires an unregistered pin and always returns true, for the same reason.
- Switches.SwitchInput.OnRelease: requires a non-zero pin to be registered and pin 0 to be unregistered. For an unregistered non-zero pin the C++ code dereferences a missing item, and for a registered pin 0 it tries to add a second entry; neither case is modelled.
- Switches.SwitchInput.IsSwitchPressed: requires a registered pin; for any other pin the C++ code dereferences a missing item.
- Switches.SwitchInput.PushSwitch: requires a registered pin for the same reason.
- Switches.SwitchEncoderUp: requires an encoder in slot 0; the C++ code dereferences a null pointer otherwise.
- Switches.SwitchEncoderDown: requires an encoder in slot 0, as above.
- Switches.OnSwitchesInterrupt: the final state is stated only for encoders held in a single slot. An encoder placed in several slots is notified once per slot, and its end state is not stated. All encoders of one interrupt see the same sync result, the same time and the same `levels` function as the key poll. In the C++ code each encoder syncs the device again, reads its own pins and reads the clock.
- Switches.NotifyEncoders: the same restriction to encoders held in a single slot.
- Encoders.RotaryEncoder.EncoderChanged: the sync result, pin levels and time are parameters, since the device read and `micros()` are I/O.
- Keys.KeyboardItem.CheckAndTrigger: runs the corrected, saturating repeat counter (`Tick`), not the C++ code's wrapping `uint8_t` counter. The code's tick is `TickAsWritten`; the lemmas in the first Findings row show where the two part. `RunLoop`, `CheckRunLoopAndRepeat` and `OnSwitchesInterrupt` inherit this.
- Keys.KeyboardItem.CheckActive: the active branch of `CheckAndTrigger`, where the saturating add is made. It is corrected in the same way, and `ActiveStep` under `Wrapping` is the code as written.
- Encoders.RotaryEncoder.Increment: adds exactly (`NextReading`), where the C++ code stores the sum in 16 bits first. The code's arithmetic is `NextReadingAsWritten`; they agree whenever the sum fits 16 bits. `Incremented`, which specifies it, carries the same exact sum. `EncoderChanged`, `SwitchEncoderUp` and `SwitchEncoderDown` inherit this.
- Encoders.Incremented: the exact sum of `NextReading`, as for `Increment` above.
- A `SwitchListener` pointer is never null. The model's `NoTarget` stands for a null callback only.

## Findings

| source | as written | input that shows it | evidently intended | confidence | as-written member | corrected member |
|---|---|---|---|---|---|---|
| src/SwitchInput.cpp:118 | the repeat counter `counter + (acceleration >> 2) + 1` is stored back into a `uint8_t` and wraps | repeatInterval 200, acceleration 252, counter 0: the counter runs 64, 128, 192, 0 and never exceeds 200, so repeats stop for good; with repeatInterval 254 the same happens from acceleration 4, reached after three repeats: the counter climbs by 2 to 254 and wraps to 0 (`StallsAtAccelerationFourAsWritten`) | the counter saturates, so a held key keeps repeating | high (not executed) | KeyProperties.StallsForeverAsWritten | KeyProperties.SaturatingRepeatsWhereWrappingStalls |
| src/SwitchInput.cpp:299-303 | a non-negative increment is added in 16 bits before the maximum is applied | max 65535, reading 65535, increment +1 gives 0 without rollover; max 65534, reading 65534, increment +5 with rollover gives 3 | the sum is kept exact: 65535 (saturated) and 4 (wrapped modulo 65535) | high (not executed) | EncoderProperties.IncrementTruncatesAsWritten | Encoders.NextReading |
| src/SwitchInput.h:262 | `setEncoderType(EncoderType encoderType)` assigns its parameter to itself | an encoder built with FULL_CYCLE, then `setEncoderType(QUARTER_CYCLE)`: it still decodes as FULL_CYCLE | the member `this->encoderType` takes the new type | high (not executed) | Encoders.RotaryEncoder.EncoderTypeAfterSetAsWritten | Encoders.RotaryEncoder.SetEncoderType |
