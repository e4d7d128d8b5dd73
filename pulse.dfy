/**
 * What the three glitch wrappers of components/glitch-text.tsx,
 * components/glitch-image.tsx and components/glitch-effects.tsx share: the
 * one timeout each tracks in `timeoutRef`, their glitch frequency, and the
 * range of a delay drawn below it.
 */
module Pulse {
  import opened Draws

  /** The timeout `timeoutRef` names: none, the one that starts the next
      glitch after `delay` ms, or the one that ends the current glitch after
      `duration` ms. */
  datatype Timer = NoTimer | Trigger(delay: real) | Reset(duration: real)

  /** `2000 - (intensity / 10) * 1500`: the upper bound of the pause between
      two glitches, in ms. */
  function Frequency(intensity: real): (f: real)
    ensures 0.0 <= intensity <= 10.0 ==> 500.0 <= f <= 2000.0
  {
    2000.0 - (intensity / 10.0) * 1500.0
  }

  /** A stronger glitch comes more often, so the frequency tells
      intensities apart: an effect that depends on the frequency re-runs
      whenever the intensity changes. */
  lemma FrequencyFalls(i: real, j: real)
    ensures i < j ==> Frequency(j) < Frequency(i)
    ensures Frequency(i) == Frequency(j) <==> i == j
  {
  }

  /** `50 + (intensity / 10) * span`: how long a glitch lasts, in ms (the
      text wrapper uses a span of 150, the image and effect wrappers 200). */
  function Duration(intensity: real, span: real): (d: real)
    requires span >= 0.0
    ensures 0.0 <= intensity <= 10.0 ==> 50.0 <= d <= 50.0 + span
  {
    50.0 + (intensity / 10.0) * span
  }

  /** `Math.ceil((intensity / 10) * reach)`: the largest shift, in px (the
      text wrapper uses a reach of 10, the image wrapper 15). */
  function MaxOffset(intensity: real, reach: real): (m: int)
    requires reach >= 0.0
    ensures (intensity / 10.0) * reach <= m as real < (intensity / 10.0) * reach + 1.0
    ensures 0.0 <= intensity <= 10.0 ==> 0.0 <= m as real < reach + 1.0
  {
    Ceil((intensity / 10.0) * reach)
  }

  /** `d` is `r * f` for some `r` in [0, 1): in [0, f) for a positive `f`. */
  predicate Below(d: real, f: real) {
    if f > 0.0 then 0.0 <= d < f
    else if f < 0.0 then f < d <= 0.0
    else d == 0.0
  }

  lemma ScaledBelow(r: real, f: real)
    requires Unit(r)
    ensures Below(r * f, f)
  {
    if f > 0.0 {
      ScaledUnit(r, f);
    } else if f < 0.0 {
      ScaledUnit(r, -f);
      assert r * f == -(r * -f);
    }
  }

  /** `Math.random() * f`: a delay drawn below `f`. */
  function Delay(r: real, f: real): (d: real)
    requires Unit(r)
    ensures Below(d, f)
  {
    ScaledBelow(r, f);
    r * f
  }

  /** Every delay in [0, f) can be drawn. */
  lemma DelayOnto(d: real, f: real)
    requires 0.0 <= d < f
    ensures Unit(d / f) && Delay(d / f, f) == d
  {
  }
}
