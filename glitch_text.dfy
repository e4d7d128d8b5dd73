/**
 * The `GlitchText` wrapper of components/glitch-text.tsx: while enabled it
 * alternates between resting and glitching, driven by one timeout at a time,
 * and while glitching it shows a red and a cyan copy of its text shifted by
 * two random offsets.  React state and the effect are fields and event
 * methods: mounting is the constructor, a render with new props is
 * `SetProps`, the two timeouts are `Glitch` and `Settle`.
 */
module GlitchText {
  import opened Draws
  import opened Pulse

  /** A layer's shift in px. */
  datatype Offset = Offset(x: real, y: real)

  const Rest: Offset := Offset(0.0, 0.0)

  /** The duration span and the offset reach of this wrapper. */
  const Span: real := 150.0
  const Reach: real := 10.0

  /** For intensities on the 0-10 scale the pause bound lies in [500, 2000],
      the duration in [50, 200] and the largest offset in [0, 10]. */
  lemma ParameterRanges(intensity: real)
    requires 0.0 <= intensity <= 10.0
    ensures 500.0 <= Frequency(intensity) <= 2000.0
    ensures 50.0 <= Duration(intensity, Span) <= 200.0
    ensures 0 <= MaxOffset(intensity, Reach) <= 10
  {
  }

  /** The two draws for one layer's offset. */
  datatype OffsetDraws = OffsetDraws(x: real, y: real)

  predicate OffsetDrawsOk(d: OffsetDraws) {
    Unit(d.x) && Unit(d.y)
  }

  /** A glitch offset: x in [-m, m) and y in [-m/4, m/4) (both 0 when m is 0). */
  function Jitter(m: int, d: OffsetDraws): (o: Offset)
    requires OffsetDrawsOk(d)
    ensures m >= 0 ==> -(m as real) <= o.x <= m as real && -(m as real) / 4.0 <= o.y <= m as real / 4.0
    ensures m > 0 ==> o.x < m as real && o.y < m as real / 4.0
    ensures m == 0 ==> o == Rest
  {
    var mr := m as real;
    ShiftRange(d.x, mr, 2.0);
    ShiftRange(d.y, mr, 0.5);
    Offset((d.x - 0.5) * mr * 2.0, (d.y - 0.5) * mr * 0.5)
  }

  /** The effect's dependency list `[enabled, maxOffset, glitchFrequency,
      glitchDuration]` is unchanged; by `FrequencyFalls` this holds exactly
      when neither `enabled` nor `intensity` changed. */
  predicate SameDeps(enabled: bool, intensity: real, enabled': bool, intensity': real) {
    && enabled == enabled'
    && MaxOffset(intensity, Reach) == MaxOffset(intensity', Reach)
    && Frequency(intensity) == Frequency(intensity')
    && Duration(intensity, Span) == Duration(intensity', Span)
  }

  class GlitchText {
    var enabled: bool
    var intensity: real
    var isGlitching: bool
    var offset1: Offset
    var offset2: Offset
    /** The timeout `timeoutRef` holds, if it is still pending. */
    var timer: Timer
    var mounted: bool

    ghost predicate Valid()
      reads this
    {
      && (mounted ==> (enabled <==> !timer.NoTimer?))
      && (!mounted ==> timer.NoTimer?)
      && (!enabled ==> !isGlitching && offset1 == Rest && offset2 == Rest)
      && (timer.Reset? ==> isGlitching && timer.duration == Duration(intensity, Span))
      && (timer.Trigger? ==> Below(timer.delay, Frequency(intensity)))
    }

    /** The two shifted layers the component renders, if any: only while
        glitching, since a disabled wrapper never glitches. */
    function Layers(): (l: Option<(Offset, Offset)>)
      reads this
      requires Valid()
      ensures l.Some? <==> isGlitching
      ensures l.Some? ==> l.value == (offset1, offset2)
    {
      if enabled && isGlitching then Some((offset1, offset2)) else None
    }

    /** Mounting: the first effect run either clears everything (disabled) or
        schedules the first glitch after a delay below the frequency. */
    constructor (enabled: bool, intensity: real, r: real)
      requires Unit(r)
      ensures Valid() && mounted
      ensures this.enabled == enabled && this.intensity == intensity
      ensures !isGlitching && offset1 == Rest && offset2 == Rest
      ensures timer == if enabled then Trigger(Delay(r, Frequency(intensity))) else NoTimer
    {
      this.enabled := enabled;
      this.intensity := intensity;
      isGlitching := false;
      offset1, offset2 := Rest, Rest;
      mounted := true;
      timer := if enabled then Trigger(Delay(r, Frequency(intensity))) else NoTimer;
    }

    /** The trigger timeout fires: glitch with two fresh offsets and end the
        glitch after the duration. */
    method Glitch(d1: OffsetDraws, d2: OffsetDraws)
      requires Valid() && timer.Trigger?
      requires OffsetDrawsOk(d1) && OffsetDrawsOk(d2)
      modifies this
      ensures Valid()
      ensures isGlitching
      ensures offset1 == Jitter(MaxOffset(intensity, Reach), d1) && offset2 == Jitter(MaxOffset(intensity, Reach), d2)
      ensures timer == Reset(Duration(intensity, Span))
      ensures enabled == old(enabled) && intensity == old(intensity) && mounted == old(mounted)
    {
      isGlitching := true;
      offset1 := Jitter(MaxOffset(intensity, Reach), d1);
      offset2 := Jitter(MaxOffset(intensity, Reach), d2);
      timer := Reset(Duration(intensity, Span));
    }

    /** The reset timeout fires: rest with both offsets at (0, 0) and
        schedule the next glitch after a delay below the frequency. */
    method Settle(r: real)
      requires Valid() && timer.Reset?
      requires Unit(r)
      modifies this
      ensures Valid()
      ensures !isGlitching && offset1 == Rest && offset2 == Rest
      ensures timer == Trigger(Delay(r, Frequency(intensity)))
      ensures enabled == old(enabled) && intensity == old(intensity) && mounted == old(mounted)
    {
      isGlitching := false;
      offset1, offset2 := Rest, Rest;
      timer := Trigger(Delay(r, Frequency(intensity)));
    }

    /** A render with new props.  When a dependency changed, the previous run's
        cleanup clears the pending timeout and the effect runs again: disabled,
        it rests; enabled, it schedules a first glitch and leaves a glitch in
        progress showing until that next glitch ends. */
    method SetProps(enabled': bool, intensity': real, r: real)
      requires Valid() && mounted
      requires Unit(r)
      modifies this
      ensures Valid() && mounted
      ensures enabled == enabled' && intensity == intensity'
      ensures SameDeps(old(enabled), old(intensity), enabled', intensity') ==>
                timer == old(timer) && isGlitching == old(isGlitching) &&
                offset1 == old(offset1) && offset2 == old(offset2)
      ensures !SameDeps(old(enabled), old(intensity), enabled', intensity') && !enabled' ==>
                timer == NoTimer && !isGlitching && offset1 == Rest && offset2 == Rest
      ensures !SameDeps(old(enabled), old(intensity), enabled', intensity') && enabled' ==>
                timer == Trigger(Delay(r, Frequency(intensity'))) && isGlitching == old(isGlitching) &&
                offset1 == old(offset1) && offset2 == old(offset2)
    {
      if !SameDeps(enabled, intensity, enabled', intensity') {
        timer := NoTimer;
        if !enabled' {
          isGlitching := false;
          offset1, offset2 := Rest, Rest;
        } else {
          timer := Trigger(Delay(r, Frequency(intensity')));
        }
      }
      enabled, intensity := enabled', intensity';
    }

    /** Unmounting: the cleanup clears the pending timeout, so no callback of
        this wrapper runs again. */
    method Unmount()
      requires Valid() && mounted
      modifies this
      ensures Valid() && !mounted && timer == NoTimer
      ensures enabled == old(enabled) && intensity == old(intensity) && isGlitching == old(isGlitching)
      ensures offset1 == old(offset1) && offset2 == old(offset2)
    {
      timer := NoTimer;
      mounted := false;
    }
  }
}
