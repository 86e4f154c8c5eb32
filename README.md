# KSFX keyboard-sound controller in Dafny

KSFX plays a short sound each time a key is pressed. It polls the keyboard in a
busy loop. While sounds are on, holding more keys than on the last poll with
sounds on counts as a new press (the count is not updated while sounds are
off), and each new press plays a random clip from the current sound pack. The
playback speed ("pitch") climbs on fast typing and resets on slow typing. Four
optional key bindings terminate the program, toggle the sounds on and off, and
switch to the previous or next pack. Each toggle and each pack switch fires
once per press: a latch blocks it until every key is released.

This project models that controller:

- `config.dfy` (module `Config`): the sound-pack settings (a bare path or an
  advanced record), the global settings, the pack path and display name, the
  three-level fallback for the playback parameters, and the default settings.
- `bindings.dfy` (module `Bindings`): the binding comparison (same length,
  and every binding key held) and how it relates to set equality.
- `packindex.dfy` (module `PackIndex`): moving the pack index back and forth
  with wraparound. It holds the previous-pack step both as the code writes it
  and as corrected (see Findings). The controller uses the step as written.
- `pitch.dfy` (module `Pitch`): the three-branch pitch update and the band it
  keeps the pitch in.
- `loop.dfy` (module `Loop`): the loop state and one tick as a specification
  function `Step`, with the outcome (terminate, play a clip, or nothing) and
  the console lines. `Run` folds `Step` over a sequence of ticks. The class
  `Controller` holds the loop state as fields; its `Tick` method updates them
  in place, one stage method per block of the loop body, and is proved equal
  to `Step`.
- `properties.dfy` (module `LoopProperties`): properties over several ticks.
  Holding a binding fires it once; a release re-arms it. Scenarios use the
  default bindings.

Each tick takes three inputs from outside:

- the held key names;
- `fast`: whether the time since the last press is below the pack's fast
  threshold;
- a random `draw` in [0, 1) that picks the clip.

Packs are represented only by their clip counts.

## Model

| member | source | states |
|---|---|---|
| `Config.GetPath` | src/main.rs:24-31 | a pack's directory is the bare path, or the `name` field of the record form |
| `Config.RevPosition` | src/main.rs:35 | the reverse search finds the last `/` or `\`, counted from the end, with no separator after it; None exactly when the path has no separator |
| `Config.GetName` | src/main.rs:33-41 | the display name is a suffix of the path; if the path has a separator, the name starts with one and has none after it; otherwise it is the whole path |
| `Config.GetNameKeepsSeparator` | src/main.rs:35-36 | "a/b" is displayed as "/b": the separator is kept |
| `Config.GetNameKeepsBackslash` | src/main.rs:35-36 | a backslash is kept the same way in the record form's path |
| `Config.GetNameIdempotent` | src/main.rs:33-41 | taking the display name of a display name changes nothing |
| `Config.ResolveParams` | src/main.rs:186-204 | each parameter is the pack's own value (advanced form, if present), else the global value, else 1.0 / 0.5 / 0.5 / 0.005 / 1.0 |
| `Config.BasicPacksShareParams` | src/main.rs:197-203 | every basic pack resolves to the same parameters |
| `Config.OverrideChangesOnlyItsField` | src/main.rs:189-196 | setting one override of a record-form pack gives that parameter the set value and leaves the other four as they were |
| `Config.NoOverridesActsBasic` | src/main.rs:186-204 | a record-form pack without overrides resolves and is displayed exactly like the bare path with the same directory |
| `Config.DefaultSettings` | src/main.rs:107-113 | the default configuration has the single pack `assets`, all four bindings set to one key each, and every global parameter set, so its pack resolves to the hard-coded defaults |
| `Config.DefaultPackName` | src/main.rs:107-113 | the default pack is displayed as `assets` |
| `Config.DefaultSettingsParams` | src/main.rs:107-113 | the default configuration resolves to the literal defaults |
| `Bindings.Matches` | src/main.rs:144-145 | a binding matches exactly when the lists have equal length and every binding key is among the held keys (the same comparison serves the toggle and both pack-switch bindings) |
| `Bindings.MatchesIffSameKeys` | src/main.rs:144-145 | for duplicate-free lists, a binding matches exactly when it and the held keys name the same set |
| `Bindings.StrictSubsetOrSupersetNeverMatches` | src/main.rs:144-145 | holding a strict superset or subset of a duplicate-free binding never fires it |
| `Bindings.MatchBoundsHeldKeys` | src/main.rs:144-145 | for any lists, a match means every binding key is held and the held list names at most as many distinct keys as the binding has entries |
| `Bindings.DuplicateBindingQuirk` | src/main.rs:144-145 | with a duplicated binding key the comparison is not set equality: ["A","A"] matches ["A","B"] |
| `PackIndex.PrevPackAsWritten` | src/main.rs:162-168 | the previous-pack step as written keeps the index below n; it decrements a positive index and leaves index 0 at 0 |
| `PackIndex.PrevPackAsWrittenDoesNotWrap` | src/main.rs:162-168 | with two packs, "next" from pack 1 gives 0, and the as-written "previous" stays at 0 instead of returning to 1 |
| `PackIndex.PrevPack` | src/main.rs:162-168 | the corrected previous-pack step keeps the index below n, decrements a positive index and wraps 0 to n - 1 |
| `PackIndex.NextPack` | src/main.rs:176-177 | the next-pack step keeps the index below n, increments it, and wraps n - 1 to 0 |
| `PackIndex.PrevAfterNext` | src/main.rs:162-177 | the corrected previous step undoes "next" (the step as written does not: see Findings) |
| `PackIndex.NextAfterPrev` | src/main.rs:162-177 | "next" undoes the corrected previous step |
| `PackIndex.NextTimesIsShift` | src/main.rs:176-177 | k "next" steps from i land on (i + k) mod n |
| `PackIndex.FullCycleReturns` | src/main.rs:176-177 | n "next" steps return to the starting pack |
| `Pitch.UpdatePitch` | src/main.rs:207-212 | a slow press resets the pitch to the start value; a fast press below start + range raises it by exactly one step; a fast press at or above start + range leaves it |
| `Pitch.UpdateKeepsBand` | src/main.rs:207-212 | with non-negative range and step, a pitch between start and start + range + step stays there: it overshoots the ceiling by at most one step |
| `Pitch.FastPressesClimbWithinBand` | src/main.rs:207-209 | any run of fast presses never lowers the pitch and keeps it in the band |
| `Pitch.FastPressesStopAtCeiling` | src/main.rs:207-212 | at or above start + range, fast presses leave the pitch unchanged |
| `Pitch.PitchExamples` | src/main.rs:207-212 | start 0.5, range 0.5, step 0.1: fast 0.5 gives 0.6, 0.9 gives 1.0, 0.95 overshoots to 1.05, 1.0 stays; slow always gives 0.5 |
| `Loop.Clip` | src/main.rs:185 | a draw in [0, 1) scaled by the pack size and truncated is a valid clip index |
| `Loop.PlayStage` | src/main.rs:184-223 | a press plays exactly when more keys are held than before; the clip is in range and of the current pack, at that pack's resolved volume, at the speed the pitch update gives under that pack's resolved start, range and step, which becomes the new pitch; the count is recorded either way |
| `Loop.StepPlaysResolvedParams` | src/main.rs:184-223 | whatever the switch stages did, a clip played by a tick carries the resolved volume of its pack and the speed the pitch update gives from the pitch before the tick |
| `Loop.Step` | src/main.rs:139-224 | terminate fires exactly when its binding matches, and then nothing changes; the index stays in range and moves at most one place, only through an unlatched switch; an inactive tick plays nothing and keeps the key count; an active tick plays exactly when more keys are held than before, then records the count; a played clip is in range and of the current pack, at the new pitch |
| `Loop.Run` | src/main.rs:139-224 | after any sequence of ticks the pack index is still in range |
| `Loop.Controller.constructor` | src/main.rs:132-137 | the loop starts active, unlatched, on pack 0, with no keys counted and the global start pitch (or 0.5) |
| `Loop.Controller.ApplyToggle` | src/main.rs:149-156 | an unlatched toggle match flips `active`, latches, and prints one line |
| `Loop.Controller.ApplyRelease` | src/main.rs:157 | with no keys held both latches are cleared |
| `Loop.Controller.ApplyPrevious` | src/main.rs:158-171 | an unlatched previous-pack match latches and takes the previous-pack step as written (one pack back, but pack 0 stays at 0), naming the pack |
| `Loop.Controller.ApplyNext` | src/main.rs:172-180 | an unlatched next-pack match latches and steps forward one pack, naming it |
| `Loop.Controller.ApplyPlay` | src/main.rs:184-223 | a rise in the held-key count updates the pitch and plays a clip at the pack's volume; the count is recorded either way |
| `Loop.Controller.Tick` | src/main.rs:139-224 | one pass of the loop body leaves the fields, outcome and printed lines exactly as `Step` gives them, and keeps the pack index in range |
| `LoopProperties.ReleaseClearsLatches` | src/main.rs:157-179 | a tick with no keys clears the toggle latch; the switch latch stays set only when a switch binding is the empty list |
| `LoopProperties.LatchesHoldWhileKeysHeld` | src/main.rs:149-179 | while keys are held, a set latch stays set, and neither `active` nor the pack index changes through it |
| `LoopProperties.LatchedToggleHeld` | src/main.rs:149-157 | over any run in which every tick holds some key, a latched toggle stays latched and never flips `active` |
| `LoopProperties.HeldToggleFlipsOnce` | src/main.rs:149-157 | holding the toggle binding for any number of ticks flips `active` exactly once |
| `LoopProperties.RunAppend` | src/main.rs:139-224 | ticks run in two stretches give the same state as run together, if the first stretch never terminates |
| `LoopProperties.ToggleRearmsAfterRelease` | src/main.rs:149-157 | after the held toggle, one release tick and one more press flip `active` back |
| `LoopProperties.LatchedSwitchHeld` | src/main.rs:157-179 | over any run in which every tick holds some key, a latched switch stays latched and never moves the pack index |
| `LoopProperties.HeldSwitchMovesOnce` | src/main.rs:158-179 | holding a pack-switch binding for any number of ticks takes exactly one step (next, or the as-written previous step); previous wins when both bindings match |
| `LoopProperties.ActiveFlipsOnlyByToggle` | src/main.rs:149-156 | a tick changes `active` only when the toggle was unlatched and its binding matches |
| `LoopProperties.SwitchNamesNewPack` | src/main.rs:158-179 | a tick that changes the pack prints `Changed sound pack to` with the name of the pack it moved to |
| `LoopProperties.PlayDependsOnCountOnly` | src/main.rs:184 | whether a tick plays depends on how many keys are held, not which |
| `LoopProperties.NextScenarioNamesPack` | src/main.rs:172-179 | with packs "a" and "b", F5 at pack 0 moves to pack 1 and prints `Changed sound pack to "b"` |
| `LoopProperties.PreviousScenarioStaysOnFirstPack` | src/main.rs:158-171 | with packs "a" and "b", F4 from the initial state stays on pack 0 and prints `Changed sound pack to "a"` |
| `LoopProperties.NextScenarioWraps` | src/main.rs:157-179 | at pack 1, a release followed by F5 wraps to pack 0 |
| `LoopProperties.DefaultToggleScenario` | src/main.rs:149-157 | default configuration: F3 held three ticks turns sounds off once; release and F3 turn them on again |

## Findings

| source | as written | input that shows it | evidently intended | confidence | as-written member | corrected member |
|---|---|---|---|---|---|---|
| src/main.rs:162-168 | at index 0 the previous-pack step sets the index to the pack count, then reduces it modulo the pack count, which gives 0 again | two packs, current pack 0, previous-pack binding pressed: the index stays 0 instead of becoming 1 | wrap from the first pack to the last (pack count - 1), so that "previous" undoes "next" | high (not executed) | `PackIndex.PrevPackAsWritten`, `PackIndex.PrevPackAsWrittenDoesNotWrap` | `PackIndex.PrevPack`, `PackIndex.PrevAfterNext`, `PackIndex.NextAfterPrev` |

## Left out

- Audio output (the output stream, sink, decoder, stop/set_speed/set_volume/append) is a foreign library. A tick reports playback as a `Play` outcome carrying the pack, clip, speed and volume.
- Keyboard polling is platform input. The held key names are a parameter of each tick.
- Reading, parsing and writing the JSON configuration file, the command-line path and the default-file bootstrap are file I/O. Only the default settings value is modelled (`Config.DefaultSettings`).
- Sound-pack loading (directory enumeration and decoding) is file I/O. Packs are represented by their clip counts.
- Wall-clock timing (`Instant`, `Duration`, the millisecond conversion of the fast threshold) is left out. The result of the timing test is the `fast` input. The resolved fast threshold is computed but not compared with a time.
- Random clip selection: the random float is the `draw` input. Loop.Clip: uses exact real arithmetic, so it does not model f32 rounding of the draw scaled by the pack size.
- Pitch.UpdatePitch: computes over reals, not f32, so it shows the branch structure and not float rounding. `Config.ResolveParams` and the volume are modelled the same way.
- The unbounded busy loop and process exit: one tick is modelled, and `Run` covers finite runs that stop at a terminate outcome. The printed line on termination is part of the outcome's messages.
- Empty configurations are excluded by precondition: at least one pack must be configured and every pack must hold a clip. The program does not handle these cases and panics (remainder by zero, index out of bounds).
- Config.GetName: works over character sequences. The byte-versus-character offset of the slice in the code agrees with this only for single-byte (ASCII) paths.
