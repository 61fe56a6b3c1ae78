/** Properties of the switch input's polling and of the up/down button encoder. */
module SwitchProperties {
  import opened Types
  import opened Keys
  import opened Encoders
  import opened Switches

  /** With pull-up logic a closed switch pulls its pin low, and the key
      handler sees it as active; an inverted key under pull-up logic sees the
      raw level. */
  lemma PullUpInvertsLevel(k: Key, levels: PinId -> uint8)
    requires levels(k.pin) <= 1
    ensures !IsLogicInverted(k.stateFlags) ==>
              TickOf(k, true, levels) == Tick(k, if levels(k.pin) == 0 then HIGH else 0)
    ensures IsLogicInverted(k.stateFlags) ==> TickOf(k, true, levels) == Tick(k, levels(k.pin))
  {
  }

  /** A key at rest whose switch reads inactive stays exactly as it is and
      notifies nobody, so a quiet poll changes nothing. */
  lemma QuietPollChangesNothing(k: Key, pullUpFlag: bool, levels: PinId -> uint8)
    requires GetState(k.stateFlags) == NOT_PRESSED && k.previousState == NOT_PRESSED
    requires LevelSeen(pullUpFlag != IsLogicInverted(k.stateFlags), levels(k.pin)) != HIGH
    ensures TickOf(k, pullUpFlag, levels) == TickResult(k, [])
  {
    var flags := WithState(k.stateFlags, NOT_PRESSED);
    assert flags & !KEY_PRESS_STATE_MASK == k.stateFlags & !KEY_PRESS_STATE_MASK;
    assert flags & KEY_PRESS_STATE_MASK == k.stateFlags & KEY_PRESS_STATE_MASK;
    BitsFromNibbles(flags, k.stateFlags);
  }

  /** A byte is fixed by its low nibble and the rest. */
  lemma BitsFromNibbles(x: bv8, y: bv8)
    requires x & !KEY_PRESS_STATE_MASK == y & !KEY_PRESS_STATE_MASK
    requires x & KEY_PRESS_STATE_MASK == y & KEY_PRESS_STATE_MASK
    ensures x == y
  {
  }

  /** An up button press followed by a down button press puts a bounded
      reading back where it was, whatever the intention. */
  lemma UpThenDownRestores(e: Reading)
    requires 0 < e.currentReading < e.maximumValue
    ensures Incremented(Incremented(e, UpDirection(e.intent)), DownDirection(e.intent)) == e
  {
  }
}
