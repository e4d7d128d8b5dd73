/**
 * The `GlitchEffect` wrapper of components/glitch-effects.tsx: the bare
 * resting/glitching cycle with one timeout at a time, and the overlays it
 * renders over its children (two tinted copies and a row of horizontal
 * lines whose number grows with the intensity).
 */
module GlitchEffect {
  import opened Draws
  import opened Pulse

  /** The duration span of this wrapper. */
  const Span: real := 200.0

  /** For intensities on the 0-10 scale the pause bound lies in [500, 2000]
      and the duration in [50, 250]. */
  lemma ParameterRanges(intensity: real)
    requires 0.0 <= intensity <= 10.0
    ensures 500.0 <= Frequency(intensity) <= 2000.0
    ensures 50.0 <= Duration(intensity, Span) <= 250.0
  {
  }

  /** `Math.floor((intensity / 10) * 5)` as an `Array.from` length: the
      number of horizontal lines of a glitch. */
  function LineCount(intensity: real): (n: nat)
    ensures 0.0 <= intensity <= 10.0 ==> n <= 5
    ensures intensity >= 0.0 ==> n as real <= intensity / 2.0 < n as real + 1.0
    ensures intensity < 0.0 ==> n == 0
  {
    ArrayLength((intensity / 10.0) * 5.0)
  }

  /** An overlay's clip `inset(top% 0 bottom% 0)`. */
  datatype Clip = Clip(top: real, bottom: real)

  /** The clip that hides an overlay completely. */
  const Closed: Clip := Clip(50.0, 50.0)

  /** What the wrapper renders over its children when enabled: the cyan and
      the red overlay's clips, the red overlay's shift in px, and the lines. */
  datatype Overlays = Overlays(cyan: Clip, red: Clip, shift: real, lines: nat)

  /** The render-time draws: two per clip and one for the shift. */
  datatype OverlayDraws = OverlayDraws(cyanTop: real, cyanBottom: real, redTop: real, redBottom: real, shift: real)

  predicate OverlayDrawsOk(d: OverlayDraws) {
    Unit(d.cyanTop) && Unit(d.cyanBottom) && Unit(d.redTop) && Unit(d.redBottom) && Unit(d.shift)
  }

  /** The overlays of one render.  A disabled wrapper renders none; a resting
      one renders both copies closed, unshifted and without lines; a glitching
      one opens both clips inside [0, 100)%, shifts the red copy by less than
      5 px either way and draws `LineCount` lines. */
  function View(enabled: bool, isGlitching: bool, intensity: real, d: OverlayDraws): (v: Option<Overlays>)
    requires OverlayDrawsOk(d)
    ensures v.Some? <==> enabled
    ensures v.Some? && !isGlitching ==> v.value == Overlays(Closed, Closed, 0.0, 0)
    ensures v.Some? && isGlitching ==>
              && 0.0 <= v.value.cyan.top < 100.0 && 0.0 <= v.value.cyan.bottom < 100.0
              && 0.0 <= v.value.red.top < 100.0 && 0.0 <= v.value.red.bottom < 100.0
              && -5.0 <= v.value.shift < 5.0
              && v.value.lines == LineCount(intensity)
  {
    if !enabled then None
    else if !isGlitching then Some(Overlays(Closed, Closed, 0.0, 0))
    else
      Some(Overlays(Clip(d.cyanTop * 100.0, d.cyanBottom * 100.0),
                    Clip(d.redTop * 100.0, d.redBottom * 100.0),
                    (d.shift - 0.5) * 10.0,
                    LineCount(intensity)))
  }

  /** The effect's dependency list `[enabled, glitchFrequency, glitchDuration]`
      is unchanged; by `FrequencyFalls` this holds exactly when neither
      `enabled` nor `intensity` changed. */
  predicate SameDeps(enabled: bool, intensity: real, enabled': bool, intensity': real) {
    && enabled == enabled'
    && Frequency(intensity) == Frequency(intensity')
    && Duration(intensity, Span) == Duration(intensity', Span)
  }

  class GlitchEffect {
    var enabled: bool
    var intensity: real
    var isGlitching: bool
    /** The timeout `timeoutRef` holds, if it is still pending. */
    var timer: Timer
    var mounted: bool

    ghost predicate Valid()
      reads this
    {
      && (mounted ==> (enabled <==> !timer.NoTimer?))
      && (!mounted ==> timer.NoTimer?)
      && (!enabled ==> !isGlitching)
      && (timer.Reset? ==> isGlitching && timer.duration == Duration(intensity, Span))
      && (timer.Trigger? ==> Below(timer.delay, Frequency(intensity)))
    }

    /** Mounting: the first effect run rests (disabled) or schedules the first
        glitch after a delay below the frequency. */
    constructor (enabled: bool, intensity: real, r: real)
      requires Unit(r)
      ensures Valid() && mounted
      ensures this.enabled == enabled && this.intensity == intensity && !isGlitching
      ensures timer == if enabled then Trigger(Delay(r, Frequency(intensity))) else NoTimer
    {
      this.enabled := enabled;
      this.intensity := intensity;
      isGlitching := false;
      mounted := true;
      timer := if enabled then Trigger(Delay(r, Frequency(intensity))) else NoTimer;
    }

    /** The trigger timeout fires: glitch, and end the glitch after the
        duration. */
    method Glitch()
      requires Valid() && timer.Trigger?
      modifies this
      ensures Valid()
      ensures isGlitching && timer == Reset(Duration(intensity, Span))
      ensures enabled == old(enabled) && intensity == old(intensity) && mounted == old(mounted)
    {
      isGlitching := true;
      timer := Reset(Duration(intensity, Span));
    }

    /** The reset timeout fires: rest, and schedule the next glitch after a
        delay below the frequency. */
    method Settle(r: real)
      requires Valid() && timer.Reset?
      requires Unit(r)
      modifies this
      ensures Valid()
      ensures !isGlitching && timer == Trigger(Delay(r, Frequency(intensity)))
      ensures enabled == old(enabled) && intensity == old(intensity) && mounted == old(mounted)
    {
      isGlitching := false;
      timer := Trigger(Delay(r, Frequency(intensity)));
    }

    /** A render with new props.  When a dependency changed, the pending
        timeout is cleared and the effect runs again: disabled, it rests;
        enabled, it schedules a first glitch and leaves a glitch in progress
        showing. */
    method SetProps(enabled': bool, intensity': real, r: real)
      requires Valid() && mounted
      requires Unit(r)
      modifies this
      ensures Valid() && mounted
      ensures enabled == enabled' && intensity == intensity'
      ensures SameDeps(old(enabled), old(intensity), enabled', intensity') ==>
                timer == old(timer) && isGlitching == old(isGlitching)
      ensures !SameDeps(old(enabled), old(intensity), enabled', intensity') && !enabled' ==>
                timer == NoTimer && !isGlitching
      ensures !SameDeps(old(enabled), old(intensity), enabled', intensity') && enabled' ==>
                timer == Trigger(Delay(r, Frequency(intensity'))) && isGlitching == old(isGlitching)
    {
      if !SameDeps(enabled, intensity, enabled', intensity') {
        timer := NoTimer;
        if !enabled' {
          isGlitching := false;
        } else {
          timer := Trigger(Delay(r, Frequency(intensity')));
        }
      }
      enabled, intensity := enabled', intensity';
    }

    /** Unmounting: the cleanup clears the pending timeout. */
    method Unmount()
      requires Valid() && mounted
      modifies this
      ensures Valid() && !mounted && timer == NoTimer
      ensures enabled == old(enabled) && intensity == old(intensity) && isGlitching == old(isGlitching)
    {
      timer := NoTimer;
      mounted := false;
    }
  }
}
