# glazer macOS host layer, modelled in Dafny

This project models the core of glazer's macOS host (`src/platform.rs`), together with the
input types of `src/lib.rs` and the key handling of the demo game (`demo/src/lib.rs`), and
proves properties of that model. It contains:

- **The lock-free audio bridge.** The ring `AUDIO_SAMPLES` holds 4096 interleaved `i16`
  samples over two channels. `GAME_SAMPLES` is the game's scratch buffer.
  `AUDIO_SAMPLES_INDICES` is one 64-bit word that holds the write index in its high 32
  bits and the read index in its low 32 bits.
  - Modules `PackedIndex` and `RingIndex` do the index arithmetic on plain integers.
  - Class `AudioBridge.AudioBridge` holds the two buffers as arrays and the word as a
    field. The producer steps of `update` are its methods `LoadForUpdate`, `RunGame`,
    `CopyToRing` and `PublishWrite`; `Update` runs them back to back, and
    `UpdateWithConsumerSteps` runs them with consumer calls in between. The consumer is
    `AudioCallback`. Consumer calls may run between the producer's load and its publish.
  - The ghost function `InFlight()` gives the samples the consumer will read next, oldest
    first. Every method states its effect on it: the producer appends the game's
    samples, the consumer removes a prefix.
- **Modifier keys and their operators** (module `Keys`). These are `KeyModifiers` with
  their constants, `|` and `&`, plus `KeyCode` and `Input`.
- **AppKit input translation** (module `AppKitInput`):
  - `From<NSEventModifierFlags> for KeyModifiers`, as a loop over the named flags;
  - the 128-entry `KEY_CODE_LUT`;
  - `keyDown:` and `keyUp:`;
  - `flagsChanged:`, the edge detector over the static `PREVIOUS_MODIFIER_FLAGS`, as
    class `ModifierTracker`.
- **The demo game's input state** (module `Demo`):
  - `handle_input` on class `Memory`. A key event sets one of six movement flags. A
    mouse move turns the camera and clamps its pitch.
  - `frame_buffer()` and `memory()`, each guarded by its one-shot `INIT` static, as
    classes `FrameBufferStatic` and `MemoryStatic`.

## Behaviour of the code worth knowing

- **`flagsChanged:` shares one `pressed` flag** (src/platform.rs:250-252). All events of
  one call carry a single `pressed`, which says whether any changed bit is now set. Only
  Shift, Control and Option are reported, always as the left-hand key, and a Command
  change reports nothing. So going from Shift straight to Control reports two presses
  (`ShiftToControlReportsTwoPresses`).
- **The game is always handed all the free space** (src/platform.rs:473): the slice is
  `GAME_SAMPLES[..samples_to_write]`.
- **A reentrant call panics** in `RefCell::borrow_mut` (src/platform.rs:208, 221, 234,
  253, 464). The model has no reentry (see "Left out").
- **The render callback panics on an empty buffer** (`assert!(len > 0)`,
  src/platform.rs:518), which the model has as the `Panicked` outcome.
- **Key codes of 128 or more panic.** `keyDown:` and `keyUp:` do no range check of their
  own; the array index into `KEY_CODE_LUT` panics for a code of 128 or more
  (src/platform.rs:211, 224). The model has that as the `Panicked` dispatch.

## Model

| member | source | states |
|---|---|---|
| PackedIndex.WriteHalf | src/platform.rs:453 | `indices >> 32` is a value below 2^32 |
| PackedIndex.ReadHalf | src/platform.rs:455 | `indices & u32::MAX` is a value below 2^32 |
| PackedIndex.Pack | src/platform.rs:486-491 | packing a write and a read index below 2^32 and unpacking gives both back |
| PackedIndex.InitialIndices | src/platform.rs:500 | the initial word `(2 << 32) \| 0` is 0x2_0000_0000 and decodes to write 2, read 0 |
| PackedIndex.UnpackPack | src/platform.rs:486-491 | repacking the two halves of any word gives the word back |
| PackedIndex.ReplaceHalves | src/platform.rs:553-558 | replacing one half of the word leaves the other half as it was |
| PackedIndex.ShiftAndMaskAreDivMod | src/platform.rs:453-455 | on 64-bit words `>> 32` is division by 2^32 and `& 0xFFFF_FFFF` is the remainder |
| PackedIndex.ShiftOrIsMulAdd | src/platform.rs:490 | for halves below 2^32, `(hi << 32) \| lo` is `hi * 2^32 + lo` |
| RingIndex.Distance | src/platform.rs:526-530 | the cyclic distance between two slots is below LEN and equals their difference modulo LEN |
| RingIndex.SamplesToWrite | src/platform.rs:458-462 | for frame-aligned indices, the free space is `(r - w - CHANNELS) mod LEN`, whole frames, at most LEN - CHANNELS |
| RingIndex.AvailableSamples | src/platform.rs:526-530 | the samples in flight are the distance from read to write, whole frames; with the free space they add up to exactly LEN - CHANNELS |
| RingIndex.Advance | src/platform.rs:556 | `(i + n) % LEN` for whole frames `n < LEN` keeps the index frame-aligned and lies `n` slots ahead |
| RingIndex.Window | src/platform.rs:538-542 | the `n` samples read from `start` on are `ring[(start + k) % LEN]` |
| RingIndex.DistanceOfAdvance | src/platform.rs:479-483 | the slot `(start + i) % LEN` lies `i` slots past `start` |
| RingIndex.DistanceInjective | src/platform.rs:479-483 | distinct slots lie at distinct distances from a start, so the copy never writes a slot twice |
| RingIndex.NextSlot | src/platform.rs:482 | stepping the index with `(index + 1) % LEN` keeps it equal to `(start + i) % LEN` |
| RingIndex.OnlySlotAtDistance | src/platform.rs:479-483 | the slot `i` past `start` is the only slot at that distance |
| RingIndex.NextSlotsOfFrame | src/platform.rs:538-542 | at a frame start, `index + 1` needs no wrap and `(index + CHANNELS) % LEN` is the next frame start |
| RingIndex.WindowDrop | src/platform.rs:553-558 | reading `k` samples leaves the window that starts `k` slots later |
| RingIndex.WindowExtend | src/platform.rs:486-491 | a window grows by the samples written in the slots that follow it |
| RingIndex.WindowAgree | src/platform.rs:479-483 | rings that agree on a window's slots have the same window |
| RingIndex.BetweenSnapshotAndWrite | src/platform.rs:452-491 | while a snapshot is current, the read index lies between the snapshot's read index and the write index |
| RingIndex.ConsumerStepKeepsSnapshot | src/platform.rs:553-558 | a consumer step between load and publish keeps the producer's snapshot current and moves the read index forward by what it read |
| RingIndex.AvailableAfterRead | src/platform.rs:553-558 | reading `k` samples in flight leaves `k` fewer in flight |
| RingIndex.ProducedSlotsAreFree | src/platform.rs:479-483 | the slots the producer fills are never among the samples in flight, even after consumer steps |
| RingIndex.PublishArithmetic | src/platform.rs:486-491 | publishing appends the produced samples after the ones in flight, and the next free space is what the consumer read since the load |
| RingIndex.ProducedByOffset | src/platform.rs:479-483 | the filled slots, listed by distance from the write index, hold the game's samples in order |
| RingIndex.ProducerKeepsWindow | src/platform.rs:479-483 | changing only the producer's slots leaves the samples in flight unchanged |
| RingIndex.DropTwice | src/platform.rs:553-558 | two reads in a row drop what one read of both amounts would |
| RingIndex.ReadPrefix | src/platform.rs:538-542 | a buffer read slot by slot from the read index holds a prefix of the samples in flight |
| AudioBridge.AudioBridge.constructor | src/platform.rs:495-500 | both buffers are zero, write index 2, read index 0, so one silent frame is in flight |
| AudioBridge.AudioBridge.LoadForUpdate | src/platform.rs:452-462 | the snapshot holds both halves of the word; its free space plus the samples in flight is LEN - CHANNELS |
| AudioBridge.AudioBridge.RunGame | src/platform.rs:464-476 | the game rewrites exactly the first `samples_to_write` scratch samples; the rest is unchanged |
| AudioBridge.AudioBridge.CopyToRing | src/platform.rs:479-483 | `ring[(w + i) % LEN] = scratch[i]` for each produced sample, every other slot unchanged, the samples in flight untouched |
| AudioBridge.AudioBridge.PublishWrite | src/platform.rs:486-492 | the write half advances by the free space and the current read half is kept; the samples in flight gain the game's samples at the end |
| AudioBridge.AudioBridge.Update | src/platform.rs:452-492 | with no consumer step in between, the game's samples are appended to the samples in flight and the ring is then full |
| AudioBridge.AudioBridge.AudioCallback | src/platform.rs:502-562 | an empty buffer panics; otherwise it copies the first `min(available, 2 * frames)` samples in flight, zeroes the rest of the requested frames, reports the underrun exactly when frames were missing, leaves the rest of the buffer and the write half alone, advances the read half and returns 0; a pending producer snapshot stays pending |
| AudioBridge.AudioBridge.CallbackDuringUpdate | src/platform.rs:502-562 | a consumer call while the producer holds a snapshot keeps it pending and keeps the samples in flight equal to those the load saw, less everything read since the load |
| AudioBridge.AudioBridge.UpdateWithConsumerSteps | src/platform.rs:452-562 | with consumer calls after the load and after the copy, the samples in flight are the unread rest of the old ones followed by the game's samples, and the free space is what the consumer read |
| AudioBridge.AudioBridge.ReadFrames | src/platform.rs:536-542 | the first `2 * frames` samples of the buffer are the ring slots from the read index on; the rest of the buffer is unchanged |
| AudioBridge.AudioBridge.FillSilence | src/platform.rs:544-551 | frames `from` up to `to` are zero, nothing else changes |
| Keys.Or | src/lib.rs:174-180 | a modifier is in `a \| b` exactly when it is in `a` or in `b` |
| Keys.And | src/lib.rs:182-188 | a modifier is in `a & b` exactly when it is in both |
| Keys.OrEach | src/lib.rs:177-179 | the bitwise union holds each named modifier exactly when one side does |
| Keys.AndEach | src/lib.rs:185-187 | the bitwise intersection holds each named modifier exactly when both sides do |
| Keys.IsSingleBit | src/lib.rs:163-171 | each named modifier is a single bit |
| Keys.HasNamed | src/lib.rs:163-171 | a named modifier contains another named modifier only when they are the same |
| Keys.SingleBits | src/lib.rs:163-171 | `CLEAR` is 0, the k-th named modifier is `1 << k`, and no two overlap |
| Keys.DeterminedByModifiers | src/lib.rs:160-171 | two modifier sets holding the same named modifiers are equal |
| Keys.OrCommutative | src/lib.rs:174-180 | `a \| b == b \| a` |
| Keys.OrAssociative | src/lib.rs:174-180 | `(a \| b) \| c == a \| (b \| c)` |
| Keys.OrIdentity | src/lib.rs:174-180 | `CLEAR` is the identity of `\|` on both sides |
| Keys.AndClearAndIdempotent | src/lib.rs:182-188 | `a & CLEAR == CLEAR` and `a & a == a` |
| Keys.AllModifiers | src/lib.rs:163-171 | the union of all eight named modifiers is 0xFF |
| AppKitInput.TranslateNamed | src/platform.rs:568-577 | the k-th named AppKit flag maps to the k-th modifier, the device-independent mask to `CLEAR` |
| AppKitInput.AddedHolds | src/platform.rs:566-580 | the j-th step of the loop adds the k-th modifier exactly when j is k and the word has that flag |
| AppKitInput.FoldHolds | src/platform.rs:566-581 | after the first `i` named flags, the accumulator holds exactly the modifiers of the flags among them that the word contains |
| AppKitInput.ModifiersOfFlags | src/platform.rs:564-584 | each modifier is in `from(value)` exactly when its AppKit flag is set in `value` |
| AppKitInput.ModifiersOfUnique | src/platform.rs:564-584 | a modifier set is `from(value)` exactly when it holds the modifiers whose flags are set and no others |
| AppKitInput.From | src/platform.rs:564-584 | the loop over the named flags computes `ModifiersOf(value)` |
| AppKitInput.KeyCodeLut | src/platform.rs:587-655 | the table has 128 entries, each the listed key or `Unknown` |
| AppKitInput.LutEntries | src/platform.rs:587-655 | sample entries of the table, and `Unknown` for every unlisted code from 0x36 to 0x5E and for 0x7F |
| AppKitInput.LutHasNoModifierKeys | src/platform.rs:587-655 | no key code translates to a modifier or lock key |
| AppKitInput.ModifierEventsKeys | src/platform.rs:255-284 | `flagsChanged:` yields only LeftShift, LeftControl and LeftAlt, so the right-hand keys, Caps Lock, the locking keys and Scroll Lock never reach the game |
| AppKitInput.KeyInput | src/platform.rs:206-229 | a key event carries the table's key, the event's modifiers, `pressed` and the event's repeat flag |
| AppKitInput.KeyDown | src/platform.rs:206-217 | the handler panics exactly for key codes past the table; otherwise it dispatches the pressed key event |
| AppKitInput.KeyUp | src/platform.rs:219-229 | the handler panics exactly for key codes past the table; otherwise it dispatches the released key event |
| AppKitInput.DownUpDifferInPressed | src/platform.rs:206-229 | the key-down and key-up events of one key differ only in `pressed` |
| AppKitInput.TrackedEventsShape | src/platform.rs:255-284 | every report is a key event with the given modifiers and `pressed`, never a repeat, and each of Shift, Control and Option is reported exactly when its bit changed |
| AppKitInput.ModifierEventsShape | src/platform.rs:243-289 | the events of one flag change carry the new modifiers and one shared `pressed`, one per changed tracked modifier |
| AppKitInput.SingleModifierChange | src/platform.rs:243-289 | flipping one of Shift, Control or Option reports that key once, pressed exactly when it is now set |
| AppKitInput.UnreportedChanges | src/platform.rs:285-287 | a Command change alone, or no change, reports nothing |
| AppKitInput.ShiftControlSequence | src/platform.rs:243-289 | 0, Shift, Shift+Control, Control, 0 reports press Shift, press Control, release Shift, release Control |
| AppKitInput.ShiftToControlReportsTwoPresses | src/platform.rs:250-252 | going straight from Shift to Control reports both keys as pressed |
| AppKitInput.Report | src/platform.rs:255-263 | one `if changed & flag != 0` block, computed as `EventIf`; a separate method so that the bit-vector test and the sequence goals are verified apart |
| AppKitInput.ReportTracked | src/platform.rs:255-287 | the three blocks in source order, computed as `TrackedEvents`, whose meaning `TrackedEventsShape` states; split off for the same reason |
| AppKitInput.ReportChanges | src/platform.rs:248-287 | `changed` and the shared `pressed` of one call, giving `ModifierEvents(previous, current)`, whose meaning `ModifierEventsShape` states; split off from `FlagsChanged` for the same reason |
| AppKitInput.ModifierTracker.constructor | src/platform.rs:245 | the static starts out as the empty flag word |
| AppKitInput.ModifierTracker.FlagsChanged | src/platform.rs:243-289 | the call reports `ModifierEvents(previous, current)` and remembers `current` |
| Demo.SetGet | demo/src/lib.rs:76-93 | setting one movement flag changes that flag and no other |
| Demo.SetTwice | demo/src/lib.rs:76-93 | setting a flag twice leaves the second value |
| Demo.ControlForInjective | demo/src/lib.rs:75-95 | no two keys drive the same flag |
| Demo.ApplyKeyGet | demo/src/lib.rs:75-95 | after a key event the flag its key drives equals `pressed`, and every other flag is kept |
| Demo.ApplyKeyArms | demo/src/lib.rs:75-95 | W, S, A, D, Space and Left Shift set forward, back, left, right, up and down; every other key changes nothing |
| Demo.UnboundKeyChangesNothing | demo/src/lib.rs:94 | a key no arm names leaves the flags as they were |
| Demo.AtMostOneFlagChanges | demo/src/lib.rs:75-95 | a key event changes at most one of the six flags |
| Demo.LaterEventWins | demo/src/lib.rs:76-93 | of two events for the same key, the later one decides |
| Demo.ApplyKeyIdempotent | demo/src/lib.rs:76-93 | applying the same key event twice is applying it once |
| Demo.PressThenRelease | demo/src/lib.rs:76-93 | a press followed by a release leaves the key's flag false |
| Demo.DifferentKeysCommute | demo/src/lib.rs:75-95 | events for different keys give the same flags in either order |
| Demo.ClampPitch | demo/src/lib.rs:101-107 | the pitch ends within the safe range and a pitch already in it is kept; below or above it becomes the bound |
| Demo.ClampPitchIdempotent | demo/src/lib.rs:101-107 | clamping twice is clamping once |
| Demo.Memory.constructor | demo/src/lib.rs:45-50 | the borrowed depth buffer, camera (0, 1.5, -5), no flags set, everything else 0 |
| Demo.Memory.HandleInput | demo/src/lib.rs:73-108 | a key event updates the flags as `ApplyKey` says and touches nothing else; a mouse move updates yaw and clamped pitch and keeps the flags; depth buffer, camera position and animation state never change |
| Demo.Memory.HandleKey | demo/src/lib.rs:75-95 | the key arm changes exactly the flags as `ApplyKey` says |
| Demo.Memory.HandleMouse | demo/src/lib.rs:96-107 | yaw grows by `dx * 0.005`; pitch becomes the clamped `pitch + dy * 0.005` |
| Demo.FrameBufferStatic.constructor | demo/src/lib.rs:12-14 | `MAX_PIXELS` white pixels and `INIT` false |
| Demo.FrameBufferStatic.FrameBuffer | demo/src/lib.rs:11-29 | the first call hands out the untouched white buffer and sets `INIT`; every later call panics |
| Demo.MemoryStatic.constructor | demo/src/lib.rs:32-33 | `MAX_PIXELS` depths of 1.0 and `INIT` false |
| Demo.MemoryStatic.Memory | demo/src/lib.rs:31-52 | the first call builds a fresh `Memory` over the untouched depth buffer and sets `INIT`; every later call panics |

## Left out

- AppKit application, window, delegate, view and timer set-up, and `draw_rect`
  (src/platform.rs:85-433): Objective-C plumbing and drawing.
- The `mouseMoved:` handler (src/platform.rs:232-241): it forwards `deltaX`/`deltaY` as
  `f32` and has no logic beyond the cast.
- `init_audio`, `start_audio` and `stop_audio`: CoreAudio calls that only check OS status
  codes.
- Frame timing and the frames-per-second window title (src/platform.rs:439-449): clocks
  and floating point. The game is a parameter of `Update` (`game`), a function from the
  old scratch samples to the new ones.
- Memory ordering: each `load` and `fetch_update` is one atomic step, and weak-memory
  effects are not modelled. The consumer runs as one atomic step, so only whole consumer
  calls can fall between the producer's load and publish.
- `RefCell` borrows (src/platform.rs:208, 221, 234, 253, 464): reentry panics in the source. The
  model has no reentry and no `update` callback object.
- `log!` output: the underrun line is the `underrun` field of the callback's outcome.
- AudioBridge.AudioBridge.AudioCallback: requires the buffer to hold at least
  `2 * frames` samples, the size CoreAudio promises. With a shorter buffer the source
  either drops the samples that did not fit or panics on an index after writing part of
  the buffer; the model covers neither.
- AudioBridge.AudioBridge.AudioCallback: the `mNumberBuffers == 1` assertion is not
  modelled; the model takes the one buffer as given.
- The ring length and channel count are the source's constants, 4096 and 2. The model
  is not generic over them.
- The wasm backend (src/platform.rs:658-768, src/wasm.rs), src/debug.rs, and `run` in
  src/lib.rs: web plumbing, timing wrappers and a forwarding wrapper.
- `NSEventModifierFlags::iter()` also yields the unnamed remainder bits. `From` maps them
  to `CLEAR`, so the model loops over the named flags only.
- `KEY_CODE_LUT` is modelled entry by entry; only sample entries are stated as lemmas.
- Demo: `f32` values are modelled as `real`, so rounding, infinities and NaN are not
  modelled. `FRAC_PI_2` and `SAFE_FRAC_PI_2` are the exact `f32` values the source computes. The camera movement, sine
  synthesis, rendering and projection (demo/src/lib.rs:110-379) are not modelled.
  demo/src/main.rs and crates/demo/src/main.rs are not part of this model.
