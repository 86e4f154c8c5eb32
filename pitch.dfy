/** The cadence-sensitive playback pitch. Each new key press either raises the
    pitch by one step (a fast press below the ceiling), resets it to the start
    value (a slow press), or leaves it where it is (a fast press at or above the
    ceiling). Floats are modelled as reals. */
module Pitch {

  /** The pitch after one new press; `fast` says whether the press came within
      the fast threshold of the previous one. */
  function UpdatePitch(pitch: real, start: real, range: real, steps: real, fast: bool): (r: real)
    ensures !fast ==> r == start
    ensures fast ==> r == pitch || r == pitch + steps
    ensures fast && pitch < start + range ==> r == pitch + steps
    ensures fast && start + range <= pitch ==> r == pitch
  {
    if pitch < start + range && fast then pitch + steps
    else if !fast then start
    else pitch
  }

  /** The band a pitch stays in: from the start value up to one step past the
      ceiling `start + range`. */
  predicate InBand(pitch: real, start: real, range: real, steps: real) {
    start <= pitch <= start + range + steps
  }

  /** With non-negative range and step, every press keeps the pitch in its band:
      it may overshoot the ceiling by at most one step, never more. */
  lemma UpdateKeepsBand(pitch: real, start: real, range: real, steps: real, fast: bool)
    requires 0.0 <= range && 0.0 <= steps
    requires InBand(pitch, start, range, steps)
    ensures InBand(UpdatePitch(pitch, start, range, steps, fast), start, range, steps)
  {
  }

  /** The pitch after `k` consecutive fast presses. */
  function FastPresses(pitch: real, start: real, range: real, steps: real, k: nat): real {
    if k == 0 then pitch
    else UpdatePitch(FastPresses(pitch, start, range, steps, k - 1), start, range, steps, true)
  }

  /** Any run of fast presses from a pitch in the band climbs monotonically and
      stays in the band. */
  lemma {:induction false} FastPressesClimbWithinBand(pitch: real, start: real, range: real, steps: real, k: nat)
    requires 0.0 <= range && 0.0 <= steps
    requires InBand(pitch, start, range, steps)
    ensures pitch <= FastPresses(pitch, start, range, steps, k)
    ensures InBand(FastPresses(pitch, start, range, steps, k), start, range, steps)
  {
    if k > 0 {
      FastPressesClimbWithinBand(pitch, start, range, steps, k - 1);
      UpdateKeepsBand(FastPresses(pitch, start, range, steps, k - 1), start, range, steps, true);
    }
  }

  /** Once the pitch has reached the ceiling, further fast presses leave it. */
  lemma {:induction false} FastPressesStopAtCeiling(pitch: real, start: real, range: real, steps: real, k: nat)
    requires start + range <= pitch
    ensures FastPresses(pitch, start, range, steps, k) == pitch
  {
    if k > 0 {
      FastPressesStopAtCeiling(pitch, start, range, steps, k - 1);
    }
  }

  /** With start 0.5, range 0.5 and step 0.1: a fast press at 0.5 gives 0.6; at
      0.9 it gives 1.0; at 0.95 it overshoots to 1.05; at 1.0 it stays; a slow
      press resets to 0.5 whatever the pitch. */
  lemma PitchExamples(p: real)
    ensures UpdatePitch(0.5, 0.5, 0.5, 0.1, true) == 0.6
    ensures UpdatePitch(0.9, 0.5, 0.5, 0.1, true) == 1.0
    ensures UpdatePitch(0.95, 0.5, 0.5, 0.1, true) == 1.05
    ensures UpdatePitch(1.0, 0.5, 0.5, 0.1, true) == 1.0
    ensures UpdatePitch(p, 0.5, 0.5, 0.1, false) == 0.5
  {
  }
}
