/** The macOS input translation of src/platform.rs: `NSEventModifierFlags` to
    `KeyModifiers`, the hardware key-code table, the `keyDown:`/`keyUp:` handlers and the
    `flagsChanged:` edge detector that turns modifier changes into key events. */
module AppKitInput {
  import opened Keys

  /** `NSEvent.keyCode` is an unsigned 16-bit value. */
  type u16 = x: nat | x < 0x1_0000

  /** The named `NSEventModifierFlags` of AppKit, as bits of the 64-bit `NSUInteger`. */
  const NS_CAPS_LOCK: bv64 := 0x1_0000
  const NS_SHIFT: bv64 := 0x2_0000
  const NS_CONTROL: bv64 := 0x4_0000
  const NS_OPTION: bv64 := 0x8_0000
  const NS_COMMAND: bv64 := 0x10_0000
  const NS_NUMERIC_PAD: bv64 := 0x20_0000
  const NS_HELP: bv64 := 0x40_0000
  const NS_FUNCTION: bv64 := 0x80_0000
  const NS_DEVICE_INDEPENDENT_FLAGS_MASK: bv64 := 0xFFFF_0000

  /** The named flags in declaration order, which is the order `iter()` yields them in. */
  const NAMED_FLAGS: seq<bv64> := [NS_CAPS_LOCK, NS_SHIFT, NS_CONTROL, NS_OPTION, NS_COMMAND,
                                   NS_NUMERIC_PAD, NS_HELP, NS_FUNCTION, NS_DEVICE_INDEPENDENT_FLAGS_MASK]

  /** Whether every bit of `flag` is set in `value` (bitflags' `contains`). */
  predicate Contains(value: bv64, flag: bv64) {
    value & flag == flag
  }

  /** The match arm of `From`: one named flag to the modifier it stands for. */
  function Translate(flag: bv64): KeyModifiers {
    if flag == NS_CAPS_LOCK then CAPSLOCK
    else if flag == NS_SHIFT then SHIFT
    else if flag == NS_CONTROL then CONTROL
    else if flag == NS_OPTION then OPTION
    else if flag == NS_COMMAND then COMMAND
    else if flag == NS_NUMERIC_PAD then NUMERIC_PAD
    else if flag == NS_HELP then HELP
    else if flag == NS_FUNCTION then FUNCTION
    else CLEAR
  }

  /** What the `j`-th named flag adds to the accumulator of `From`. */
  function Added(value: bv64, j: nat): bv8
    requires j < |NAMED_FLAGS|
  {
    if Contains(value, NAMED_FLAGS[j]) then Translate(NAMED_FLAGS[j]).bits else 0
  }

  /** The accumulator of `From` after the first `i` named flags. */
  function Fold(value: bv64, i: nat): bv8
    requires i <= |NAMED_FLAGS|
  {
    if i == 0 then 0 else Fold(value, i - 1) | Added(value, i - 1)
  }

  /** The match arm on each named flag: the k-th named flag stands for the k-th modifier,
      and the device-independent mask for none. */
  lemma TranslateNamed(j: nat)
    requires j < |NAMED_FLAGS|
    ensures Translate(NAMED_FLAGS[j]) == if j < |MODIFIERS| then MODIFIERS[j] else CLEAR
  {
    if j == 0 {} else if j == 1 {} else if j == 2 {} else if j == 3 {} else if j == 4 {}
    else if j == 5 {} else if j == 6 {} else if j == 7 {} else {}
  }

  /** The `j`-th named flag adds the `k`-th modifier exactly when `j` is `k` and the value
      contains that flag. */
  lemma AddedHolds(value: bv64, j: nat, k: nat)
    requires j < |NAMED_FLAGS| && k < |MODIFIERS|
    ensures Has(KeyModifiers(Added(value, j)), MODIFIERS[k]) <==> j == k && Contains(value, NAMED_FLAGS[k])
  {
    TranslateNamed(j);
    IsSingleBit(k);
    if j < |MODIFIERS| {
      HasNamed(j, k);
    }
  }

  /** The modifiers an AppKit flag word stands for: what `From` folds all the named flags into. */
  function ModifiersOf(flags: bv64): KeyModifiers {
    KeyModifiers(Fold(flags, |NAMED_FLAGS|))
  }

  /** After the first `i` named flags, the accumulator holds exactly the modifiers of the
      flags among them that the value contains. */
  lemma {:induction false} FoldHolds(value: bv64, i: nat, k: nat)
    requires i <= |NAMED_FLAGS| && k < |MODIFIERS|
    ensures Has(KeyModifiers(Fold(value, i)), MODIFIERS[k]) <==> k < i && Contains(value, NAMED_FLAGS[k])
  {
    IsSingleBit(k);
    if i > 0 {
      FoldHolds(value, i - 1, k);
      AddedHolds(value, i - 1, k);
      OrSingleBit(Fold(value, i - 1), Added(value, i - 1), MODIFIERS[k].bits);
    }
  }

  /** Each named modifier is held exactly when its AppKit flag is set. */
  lemma ModifiersOfFlags(flags: bv64, k: nat)
    requires k < |MODIFIERS|
    ensures Has(ModifiersOf(flags), MODIFIERS[k]) <==> Contains(flags, NAMED_FLAGS[k])
  {
    FoldHolds(flags, |NAMED_FLAGS|, k);
  }

  /** A modifier set is the one an AppKit flag word stands for exactly when it holds the
      named modifiers whose flags the word has set, and no others. */
  lemma ModifiersOfUnique(flags: bv64, m: KeyModifiers)
    ensures ModifiersOf(flags) == m <==>
      forall k :: 0 <= k < |MODIFIERS| ==> (Has(m, MODIFIERS[k]) <==> Contains(flags, NAMED_FLAGS[k]))
  {
    forall k | 0 <= k < |MODIFIERS|
      ensures Has(ModifiersOf(flags), MODIFIERS[k]) <==> Contains(flags, NAMED_FLAGS[k])
    {
      ModifiersOfFlags(flags, k);
    }
    if forall k :: 0 <= k < |MODIFIERS| ==> (Has(m, MODIFIERS[k]) <==> Contains(flags, NAMED_FLAGS[k])) {
      DeterminedByModifiers(ModifiersOf(flags), m);
    }
  }

  /** `From<NSEventModifierFlags> for KeyModifiers`: OR together the modifier of every
      named flag the value contains. */
  method From(value: bv64) returns (m: KeyModifiers)
    ensures m == ModifiersOf(value)
  {
    var mods: bv8 := 0;
    for i := 0 to |NAMED_FLAGS|
      invariant mods == Fold(value, i)
    {
      var modifier := NAMED_FLAGS[i];
      if Contains(value, modifier) {
        mods := mods | Translate(modifier).bits;
      }
    }
    m := KeyModifiers(mods);
  }

  /** One entry of `KEY_CODE_LUT`: a Mac virtual key code to its key, `Unknown` if unlisted. */
  function LutEntry(code: int): KeyCode {
    match code
    case 0x00 => KeyA
    case 0x01 => KeyS
    case 0x02 => KeyD
    case 0x03 => KeyF
    case 0x04 => KeyH
    case 0x05 => KeyG
    case 0x06 => KeyZ
    case 0x07 => KeyX
    case 0x08 => KeyC
    case 0x09 => KeyV
    case 0x0A => NonUSBackslash
    case 0x0B => KeyB
    case 0x0C => KeyQ
    case 0x0D => KeyW
    case 0x0E => KeyE
    case 0x0F => KeyR
    case 0x10 => KeyY
    case 0x11 => KeyT
    case 0x12 => Num1
    case 0x13 => Num2
    case 0x14 => Num3
    case 0x15 => Num4
    case 0x16 => Num6
    case 0x17 => Num5
    case 0x18 => EqualSign
    case 0x19 => Num9
    case 0x1A => Num7
    case 0x1B => Hyphen
    case 0x1C => Num8
    case 0x1D => Num0
    case 0x1E => CloseBracket
    case 0x1F => KeyO
    case 0x20 => KeyU
    case 0x21 => OpenBracket
    case 0x22 => KeyI
    case 0x23 => KeyP
    case 0x24 => Return
    case 0x25 => KeyL
    case 0x26 => KeyJ
    case 0x27 => Quote
    case 0x28 => KeyK
    case 0x29 => Semicolon
    case 0x2A => Backslash
    case 0x2B => Comma
    case 0x2C => Slash
    case 0x2D => KeyN
    case 0x2E => KeyM
    case 0x2F => Period
    case 0x30 => Tab
    case 0x31 => Spacebar
    case 0x32 => NonUSPound
    case 0x33 => DeleteOrBackspace
    case 0x34 => Return
    case 0x35 => Escape
    case 0x5F => Separator
    case 0x72 => Insert
    case 0x73 => Home
    case 0x74 => PageUp
    case 0x75 => DeleteForward
    case 0x77 => End
    case 0x79 => PageDown
    case 0x7B => LeftArrow
    case 0x7C => RightArrow
    case 0x7D => DownArrow
    case 0x7E => UpArrow
    case _ => Unknown
  }

  /** `KEY_CODE_LUT`: 128 entries, one per 7-bit key code. */
  function KeyCodeLut(): (lut: seq<KeyCode>)
    ensures |lut| == 128
    ensures forall code :: 0 <= code < 128 ==> lut[code] == LutEntry(code)
  {
    seq(128, code => LutEntry(code))
  }

  /** The modifier and lock keys.  The table never yields one of them; `flagsChanged:`
      yields only LeftShift, LeftControl and LeftAlt, so the others never reach the game. */
  predicate IsModifierKey(c: KeyCode) {
    match c
    case CapsLock | LeftAlt | LeftControl | LeftShift | LockingCapsLock | LockingNumLock
      | LockingScrollLock | RightAlt | RightControl | RightShift | ScrollLock => true
    case _ => false
  }

  /** A few entries of the table, and the gap between the main block and the
      navigation keys that falls back to `Unknown`. */
  lemma LutEntries()
    ensures KeyCodeLut()[0x00] == KeyA && KeyCodeLut()[0x0D] == KeyW && KeyCodeLut()[0x01] == KeyS
    ensures KeyCodeLut()[0x02] == KeyD && KeyCodeLut()[0x31] == Spacebar && KeyCodeLut()[0x7E] == UpArrow
    ensures KeyCodeLut()[0x24] == Return && KeyCodeLut()[0x34] == Return
    ensures forall code :: 0x36 <= code < 0x5F ==> KeyCodeLut()[code] == Unknown
    ensures KeyCodeLut()[0x7F] == Unknown
  {
  }

  /** No entry of the table is a modifier key. */
  lemma LutHasNoModifierKeys(code: nat)
    requires code < |KeyCodeLut()|
    ensures !IsModifierKey(KeyCodeLut()[code])
  {
  }

  /** A key event as AppKit delivers it. */
  datatype NSEvent = NSEvent(keyCode: u16, modifierFlags: bv64, isARepeat: bool)

  /** What a handler passes to the game's input callback, or the panic of an
      out-of-bounds table index. */
  datatype Dispatch = Dispatched(input: Input) | Panicked

  /** The key event the handlers build, for a key code inside the table. */
  function KeyInput(event: NSEvent, pressed: bool): (i: Input)
    requires event.keyCode < |KeyCodeLut()|
    ensures i.Key? && i.code == KeyCodeLut()[event.keyCode] && i.pressed == pressed
    ensures i.modifiers == ModifiersOf(event.modifierFlags) && i.repeat == event.isARepeat
  {
    Key(KeyCodeLut()[event.keyCode], ModifiersOf(event.modifierFlags), pressed, event.isARepeat)
  }

  /** `keyDown:` (lines 206-217): a pressed key event carrying the event's repeat flag;
      a key code past the 128-entry table panics. */
  method KeyDown(event: NSEvent) returns (d: Dispatch)
    ensures d.Panicked? <==> event.keyCode >= |KeyCodeLut()|
    ensures d.Dispatched? ==> d.input == KeyInput(event, true)
  {
    if event.keyCode >= |KeyCodeLut()| {
      return Panicked;
    }
    var code := KeyCodeLut()[event.keyCode];
    var modifiers := From(event.modifierFlags);
    d := Dispatched(Key(code, modifiers, true, event.isARepeat));
  }

  /** `keyUp:` (lines 219-229): the same event with `pressed` false. */
  method KeyUp(event: NSEvent) returns (d: Dispatch)
    ensures d.Panicked? <==> event.keyCode >= |KeyCodeLut()|
    ensures d.Dispatched? ==> d.input == KeyInput(event, false)
  {
    if event.keyCode >= |KeyCodeLut()| {
      return Panicked;
    }
    var code := KeyCodeLut()[event.keyCode];
    var modifiers := From(event.modifierFlags);
    d := Dispatched(Key(code, modifiers, false, event.isARepeat));
  }

  /** The pair of key-down and key-up events of one key differ only in `pressed`. */
  lemma DownUpDifferInPressed(event: NSEvent)
    requires event.keyCode < |KeyCodeLut()|
    ensures var down, up := KeyInput(event, true), KeyInput(event, false);
      down.Key? && up == down.(pressed := false) && down != up
  {
  }

  /** A modifier that `flagsChanged:` reports, with the key code it reports it as. */
  datatype Tracked = Tracked(flag: bv64, code: KeyCode)

  const SHIFT_KEY: Tracked := Tracked(NS_SHIFT, LeftShift)
  const CONTROL_KEY: Tracked := Tracked(NS_CONTROL, LeftControl)
  const OPTION_KEY: Tracked := Tracked(NS_OPTION, LeftAlt)

  /** The event reported for a tracked modifier when its bit is among `changed`. */
  function EventIf(changed: bv64, t: Tracked, modifiers: KeyModifiers, pressed: bool): seq<Input> {
    if changed & t.flag != 0 then [Key(t.code, modifiers, pressed, false)] else []
  }

  /** The reports for Shift, then Control, then Option; Command changes are not reported. */
  function TrackedEvents(changed: bv64, modifiers: KeyModifiers, pressed: bool): seq<Input> {
    EventIf(changed, SHIFT_KEY, modifiers, pressed) + EventIf(changed, CONTROL_KEY, modifiers, pressed)
      + EventIf(changed, OPTION_KEY, modifiers, pressed)
  }

  /** The events `flagsChanged:` hands the game when the flag word goes from `previous`
      to `current`: all carry the new modifiers and one `pressed`, which is whether any
      changed bit is now set. */
  function ModifierEvents(previous: bv64, current: bv64): seq<Input> {
    var changed := current ^ previous;
    TrackedEvents(changed, ModifiersOf(current), current & changed != 0)
  }

  /** The definition of `ModifierEvents`, as a fact of its own. */
  lemma ModifierEventsUnfold(previous: bv64, current: bv64)
    ensures ModifierEvents(previous, current)
      == TrackedEvents(current ^ previous, ModifiersOf(current), current & (current ^ previous) != 0)
  {
  }

  /** Every reported event is a key event with the given modifiers and `pressed`, and never
      a repeat; and Shift, Control and Option are each reported exactly when their bit is
      among `changed`. */
  lemma TrackedEventsShape(changed: bv64, modifiers: KeyModifiers, pressed: bool)
    ensures var events := TrackedEvents(changed, modifiers, pressed);
      && (forall i :: 0 <= i < |events| ==>
            events[i].Key? && events[i].modifiers == modifiers && events[i].pressed == pressed && !events[i].repeat)
      && (Key(LeftShift, modifiers, pressed, false) in events <==> changed & NS_SHIFT != 0)
      && (Key(LeftControl, modifiers, pressed, false) in events <==> changed & NS_CONTROL != 0)
      && (Key(LeftAlt, modifiers, pressed, false) in events <==> changed & NS_OPTION != 0)
  {
    var shift, control, option := EventIf(changed, SHIFT_KEY, modifiers, pressed), EventIf(changed, CONTROL_KEY, modifiers, pressed), EventIf(changed, OPTION_KEY, modifiers, pressed);
    assert Key(LeftShift, modifiers, pressed, false) !in control + option;
    assert Key(LeftControl, modifiers, pressed, false) !in shift && Key(LeftControl, modifiers, pressed, false) !in option;
    assert Key(LeftAlt, modifiers, pressed, false) !in shift + control;
  }

  /** What `flagsChanged:` reports: key events with the new modifiers and the shared
      `pressed`, never a repeat, one for each of Shift, Control and Option whose bit
      changed and none for the others. */
  lemma ModifierEventsShape(previous: bv64, current: bv64)
    ensures var events, m, pressed := ModifierEvents(previous, current), ModifiersOf(current), current & (current ^ previous) != 0;
      && (forall i :: 0 <= i < |events| ==>
            events[i].Key? && events[i].modifiers == m && events[i].pressed == pressed && !events[i].repeat)
      && (Key(LeftShift, m, pressed, false) in events <==> (current ^ previous) & NS_SHIFT != 0)
      && (Key(LeftControl, m, pressed, false) in events <==> (current ^ previous) & NS_CONTROL != 0)
      && (Key(LeftAlt, m, pressed, false) in events <==> (current ^ previous) & NS_OPTION != 0)
  {
    TrackedEventsShape(current ^ previous, ModifiersOf(current), current & (current ^ previous) != 0);
  }

  /** `flagsChanged:` reports only LeftShift, LeftControl and LeftAlt: no right-hand key,
      Caps Lock, locking key or Scroll Lock ever comes from it. */
  lemma ModifierEventsKeys(previous: bv64, current: bv64)
    ensures forall e :: e in ModifierEvents(previous, current) ==>
      e.Key? && e.code in {LeftShift, LeftControl, LeftAlt}
  {
  }

  /** When exactly one of Shift, Control or Option changes, it is reported once and
      `pressed` is its new state. */
  lemma SingleModifierChange(previous: bv64, t: Tracked)
    requires t in [SHIFT_KEY, CONTROL_KEY, OPTION_KEY]
    ensures var current := previous ^ t.flag;
      ModifierEvents(previous, current) == [Key(t.code, ModifiersOf(current), Contains(current, t.flag), false)]
  {
  }

  /** A Command change alone, or no change at all, reports nothing. */
  lemma UnreportedChanges(previous: bv64)
    ensures ModifierEvents(previous, previous ^ NS_COMMAND) == []
    ensures ModifierEvents(previous, previous) == []
  {
  }

  /** Holding Shift, adding Control, letting go of Shift, then of Control: two presses
      then two releases, in that order. */
  lemma ShiftControlSequence()
    ensures ModifierEvents(0, NS_SHIFT) + ModifierEvents(NS_SHIFT, NS_SHIFT | NS_CONTROL)
      + ModifierEvents(NS_SHIFT | NS_CONTROL, NS_CONTROL) + ModifierEvents(NS_CONTROL, 0)
      == [Key(LeftShift, SHIFT, true, false), Key(LeftControl, Or(SHIFT, CONTROL), true, false),
          Key(LeftShift, CONTROL, false, false), Key(LeftControl, CLEAR, false, false)]
  {
    ModifiersOfUnique(NS_SHIFT, SHIFT);
    ModifiersOfUnique(NS_SHIFT | NS_CONTROL, Or(SHIFT, CONTROL));
    ModifiersOfUnique(NS_CONTROL, CONTROL);
    ModifiersOfUnique(0, CLEAR);
  }

  /** Going straight from Shift to Control changes both bits and the one shared `pressed`
      is true, so the release of Shift is reported as a press. */
  lemma ShiftToControlReportsTwoPresses()
    ensures ModifierEvents(NS_SHIFT, NS_CONTROL)
      == [Key(LeftShift, CONTROL, true, false), Key(LeftControl, CONTROL, true, false)]
  {
    ModifiersOfUnique(NS_CONTROL, CONTROL);
  }

  /** One `if changed & flag != 0 { update(...) }` block of `flagsChanged:`: the event
      for a tracked modifier, if its bit changed. */
  method Report(changed: bv64, t: Tracked, current: bv64, pressed: bool) returns (reported: seq<Input>)
    ensures reported == EventIf(changed, t, ModifiersOf(current), pressed)
  {
    reported := [];
    if changed & t.flag != 0 {
      var modifiers := From(current);
      reported := [Key(t.code, modifiers, pressed, false)];
    }
  }

  /** The three `if changed & flag != 0` blocks of `flagsChanged:`, in order; a Command
      change is not reported. */
  method ReportTracked(changed: bv64, current: bv64, pressed: bool) returns (events: seq<Input>)
    ensures events == TrackedEvents(changed, ModifiersOf(current), pressed)
  {
    var shift := Report(changed, SHIFT_KEY, current, pressed);
    var control := Report(changed, CONTROL_KEY, current, pressed);
    var option := Report(changed, OPTION_KEY, current, pressed);
    events := shift + control + option;
  }

  /** The body of `flagsChanged:` below its store to the static: the changed bits, the
      shared `pressed`, and the reports. */
  method ReportChanges(previous: bv64, current: bv64) returns (events: seq<Input>)
    ensures events == ModifierEvents(previous, current)
  {
    var changed := current ^ previous;
    var pressed := (current & changed) != 0;
    events := ReportTracked(changed, current, pressed);
    ModifierEventsUnfold(previous, current);
  }

  /** `flagsChanged:` with its static `PREVIOUS_MODIFIER_FLAGS`. */
  class ModifierTracker {
    var previous: bv64

    /** The static starts out empty. */
    constructor ()
      ensures previous == 0
    {
      previous := 0;
    }

    /** Lines 243-289: report the changes since the previous call and remember the new flags. */
    method FlagsChanged(current: bv64) returns (events: seq<Input>)
      modifies this
      ensures previous == current
      ensures events == ModifierEvents(old(previous), current)
    {
      var before := previous;
      previous := current;
      events := ReportChanges(before, current);
    }
  }
}
