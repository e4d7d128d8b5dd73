/**
 * The `ScreenGlitch` wrapper of components/ScreenGlitch.tsx: a timeout that
 * keeps rescheduling itself fires a full-screen glitch (scan lines, a shift,
 * a clip and a colour filter) every 0.5 to 1.5 `frequency` ms, and every
 * glitch sets its own, untracked, timeout that ends it.
 */
module ScreenGlitch {
  import opened Draws

  /** `120 + (intensity / 10) * 200`: the longest glitch, in ms. */
  function MaxDuration(intensity: real): (m: real)
    ensures 0.0 <= intensity <= 10.0 ==> 120.0 <= m <= 320.0
  {
    120.0 + (intensity / 10.0) * 200.0
  }

  /** The shortest glitch, in ms. */
  const MinDuration: real := 50.0

  /** `minDuration + r * (maxDuration - minDuration)`: a glitch's length lies
      in [50, maxDuration) (which is not empty from intensity -3.5 on). */
  function GlitchLength(maxDuration: real, r: real): (d: real)
    requires Unit(r)
    ensures maxDuration >= MinDuration ==> MinDuration <= d <= maxDuration
    ensures maxDuration > MinDuration ==> d < maxDuration
  {
    var width := maxDuration - MinDuration;
    ScaledUnit(r, width);
    MinDuration + r * width
  }

  /** `Math.floor(3 + (intensity / 10) * 5)` as an `Array.from` length: the
      number of scan lines of a glitch. */
  function ScanCount(intensity: real): (n: nat)
    ensures 0.0 <= intensity <= 10.0 ==> 3 <= n <= 8
    ensures intensity >= -6.0 ==> n as real <= 3.0 + intensity / 2.0 < n as real + 1.0
    ensures intensity < -6.0 ==> n == 0
  {
    ArrayLength(3.0 + (intensity / 10.0) * 5.0)
  }

  /** One scan line: its top in %, its height and horizontal shift in px,
      its opacity and its fade-in time in ms. */
  datatype ScanLine = ScanLine(top: real, height: real, shift: real, opacity: real, delay: real)

  /** The five draws of one scan line, in order. */
  datatype ScanDraws = ScanDraws(top: real, height: real, shift: real, opacity: real, delay: real)

  predicate ScanDrawsOk(d: ScanDraws) {
    Unit(d.top) && Unit(d.height) && Unit(d.shift) && Unit(d.opacity) && Unit(d.delay)
  }

  /** The ranges of a scan line. */
  predicate LineInRange(l: ScanLine) {
    && 0.0 <= l.top < 100.0
    && 1.0 <= l.height < 4.0
    && -5.0 <= l.shift < 5.0
    && 0.5 <= l.opacity < 1.0
    && 0.0 <= l.delay < 50.0
  }

  function Line(d: ScanDraws): (l: ScanLine)
    requires ScanDrawsOk(d)
    ensures LineInRange(l)
  {
    ScaledUnit(d.top, 100.0);
    ScaledUnit(d.height, 3.0);
    ScaledUnit(d.shift, 10.0);
    ScaledUnit(d.opacity, 0.5);
    ScaledUnit(d.delay, 50.0);
    ScanLine(d.top * 100.0, 1.0 + d.height * 3.0, (d.shift - 0.5) * 10.0, 0.5 + d.opacity * 0.5, d.delay * 50.0)
  }

  /** The scan lines of a glitch: `ScanCount` of them, each in range. */
  function ScanLines(intensity: real, draws: seq<ScanDraws>): (lines: seq<ScanLine>)
    requires |draws| == ScanCount(intensity)
    requires forall k :: 0 <= k < |draws| ==> ScanDrawsOk(draws[k])
    ensures |lines| == ScanCount(intensity)
    ensures forall k :: 0 <= k < |lines| ==> LineInRange(lines[k])
  {
    seq(|draws|, k requires 0 <= k < |draws| => Line(draws[k]))
  }

  /** An inset `inset(top% 0 bottom% 0)`. */
  datatype Clip = Clip(top: real, bottom: real)
  /** `hue-rotate(hue deg) saturate(saturate)`. */
  datatype Filter = Filter(hue: real, saturate: real)

  /** The `glitchStyles` state; an empty CSS string is `None`. */
  datatype Styles = Styles(shift: Option<real>, clip: Option<Clip>, filter: Option<Filter>)

  const Blank: Styles := Styles(None, None, None)

  /** The draws for the main styles: a coin and an amount for the shift, a
      coin and two insets for the clip, and the hue.  A draw the source only
      makes after a winning coin is simply ignored after a losing one. */
  datatype StyleDraws = StyleDraws(shiftCoin: real, shift: real, clipCoin: real, clipTop: real, clipBottom: real, hue: real)

  predicate StyleDrawsOk(d: StyleDraws) {
    Unit(d.shiftCoin) && Unit(d.shift) && Unit(d.clipCoin) && Unit(d.clipTop) && Unit(d.clipBottom) && Unit(d.hue)
  }

  /** `(r - 0.5) * (intensity / 10) * 10` lies in [-intensity/2, intensity/2). */
  lemma ShakeRange(r: real, intensity: real)
    requires Unit(r)
    ensures intensity >= 0.0 ==>
              -(intensity / 2.0) <= (r - 0.5) * (intensity / 10.0) * 10.0 <= intensity / 2.0
    ensures intensity > 0.0 ==> (r - 0.5) * (intensity / 10.0) * 10.0 < intensity / 2.0
  {
    var n := intensity / 10.0;
    ShiftRange(r, n, 10.0);
    assert n * 10.0 / 2.0 == intensity / 2.0;
  }

  /** The main styles of a glitch: a shift only when its coin exceeds 0.7, of
      less than `intensity / 2` px either way; a clip only when its coin
      exceeds 0.5, with both insets in [0, 30)%; always a filter with a hue in
      [0, 360) and a saturation of `1 + (intensity / 10) * 5`. */
  function MainStyles(intensity: real, d: StyleDraws): (s: Styles)
    requires StyleDrawsOk(d)
    ensures s.shift.Some? <==> d.shiftCoin > 0.7
    ensures s.shift.Some? && intensity >= 0.0 ==> -(intensity / 2.0) <= s.shift.value <= intensity / 2.0
    ensures s.shift.Some? && intensity > 0.0 ==> s.shift.value < intensity / 2.0
    ensures s.clip.Some? <==> d.clipCoin > 0.5
    ensures s.clip.Some? ==> 0.0 <= s.clip.value.top < 30.0 && 0.0 <= s.clip.value.bottom < 30.0
    ensures s.filter.Some? && 0.0 <= s.filter.value.hue < 360.0
    ensures s.filter.value.saturate == 1.0 + (intensity / 10.0) * 5.0
  {
    var n := intensity / 10.0;
    ShakeRange(d.shift, intensity);
    ScaledUnit(d.clipTop, 30.0);
    ScaledUnit(d.clipBottom, 30.0);
    ScaledUnit(d.hue, 360.0);
    Styles(if d.shiftCoin > 0.7 then Some((d.shift - 0.5) * n * 10.0) else None,
           if d.clipCoin > 0.5 then Some(Clip(d.clipTop * 30.0, d.clipBottom * 30.0)) else None,
           Some(Filter(d.hue * 360.0, 1.0 + n * 5.0)))
  }

  /** `frequency * (0.5 + r)`: the pause before the next glitch lies in
      [0.5, 1.5) times the frequency. */
  function NextDelay(frequency: real, r: real): (d: real)
    requires Unit(r)
    ensures frequency >= 0.0 ==> 0.5 * frequency <= d <= 1.5 * frequency
    ensures frequency > 0.0 ==> d < 1.5 * frequency
  {
    ScaledUnit(r, frequency);
    frequency * (0.5 + r)
  }

  /** The draws of one firing: the glitch length, the scan lines, the main
      styles, then the pause before the next firing. */
  datatype FireDraws = FireDraws(length: real, lines: seq<ScanDraws>, style: StyleDraws, next: real)

  predicate FireDrawsOk(intensity: real, d: FireDraws) {
    && Unit(d.length) && Unit(d.next) && StyleDrawsOk(d.style)
    && |d.lines| == ScanCount(intensity)
    && forall k :: 0 <= k < |d.lines| ==> ScanDrawsOk(d.lines[k])
  }

  /** The effect's dependency list `[frequency, normalizedIntensity,
      maxDuration]` is unchanged. */
  predicate SameDeps(intensity: real, frequency: real, intensity': real, frequency': real) {
    && frequency == frequency'
    && intensity / 10.0 == intensity' / 10.0
    && MaxDuration(intensity) == MaxDuration(intensity')
  }

  /** The effect re-runs exactly when a prop changes. */
  lemma SameDepsIffSameProps(intensity: real, frequency: real, intensity': real, frequency': real)
    ensures SameDeps(intensity, frequency, intensity', frequency') <==> intensity == intensity' && frequency == frequency'
  {
  }

  class ScreenGlitch {
    var intensity: real
    var frequency: real
    var isGlitching: bool
    var styles: Styles
    var overlays: seq<ScanLine>
    /** The delay of the firing `timeoutRef` holds, while it is pending. */
    var pending: Option<real>
    /** The lengths of the glitches whose ending timeouts are still pending;
        nothing tracks or clears these. */
    var stops: seq<real>
    var mounted: bool

    ghost predicate Valid()
      reads this
    {
      && (mounted <==> pending.Some?)
      && (pending.Some? && frequency >= 0.0 ==> 0.5 * frequency <= pending.value <= 1.5 * frequency)
      && (forall k :: 0 <= k < |overlays| ==> LineInRange(overlays[k]))
      && (isGlitching ==> |stops| > 0 && styles.filter.Some?)
    }

    /** Mounting: the effect schedules the first firing. */
    constructor (intensity: real, frequency: real, r: real)
      requires Unit(r)
      ensures Valid() && mounted
      ensures this.intensity == intensity && this.frequency == frequency
      ensures !isGlitching && styles == Blank && overlays == [] && stops == []
      ensures pending == Some(NextDelay(frequency, r))
    {
      this.intensity := intensity;
      this.frequency := frequency;
      isGlitching := false;
      styles := Blank;
      overlays := [];
      stops := [];
      mounted := true;
      pending := Some(NextDelay(frequency, r));
    }

    /** The tracked timeout fires: exactly one glitch starts, with its own
        ending timeout, and the next firing is scheduled. */
    method Fire(d: FireDraws)
      requires Valid() && pending.Some?
      requires FireDrawsOk(intensity, d)
      modifies this
      ensures Valid() && mounted
      ensures intensity == old(intensity) && frequency == old(frequency)
      ensures isGlitching
      ensures overlays == ScanLines(intensity, d.lines) && styles == MainStyles(intensity, d.style)
      ensures stops == old(stops) + [GlitchLength(MaxDuration(intensity), d.length)]
      ensures pending == Some(NextDelay(frequency, d.next))
    {
      var length := GlitchLength(MaxDuration(intensity), d.length);
      overlays := ScanLines(intensity, d.lines);
      styles := MainStyles(intensity, d.style);
      isGlitching := true;
      stops := stops + [length];
      pending := Some(NextDelay(frequency, d.next));
    }

    /** The ending timeout of one glitch fires, whether or not a later glitch
        or an unmount came first. */
    method Stop(k: nat)
      requires Valid() && k < |stops|
      modifies this
      ensures Valid()
      ensures !isGlitching && stops == old(stops[..k] + stops[k + 1..])
      ensures pending == old(pending) && mounted == old(mounted)
      ensures styles == old(styles) && overlays == old(overlays)
      ensures intensity == old(intensity) && frequency == old(frequency)
    {
      isGlitching := false;
      stops := stops[..k] + stops[k + 1..];
    }

    /** A render with new props: when a dependency changed, the pending firing
        is cleared and a new one is scheduled from the new frequency; a glitch
        in progress and its ending timeout are left alone. */
    method SetProps(intensity': real, frequency': real, r: real)
      requires Valid() && mounted
      requires Unit(r)
      modifies this
      ensures Valid() && mounted
      ensures intensity == intensity' && frequency == frequency'
      ensures pending == if SameDeps(old(intensity), old(frequency), intensity', frequency')
                         then old(pending) else Some(NextDelay(frequency', r))
      ensures isGlitching == old(isGlitching) && stops == old(stops)
      ensures styles == old(styles) && overlays == old(overlays)
    {
      if !SameDeps(intensity, frequency, intensity', frequency') {
        pending := Some(NextDelay(frequency', r));
      }
      intensity, frequency := intensity', frequency';
    }

    /** Unmounting: the cleanup clears the pending firing, so no glitch starts
        again; the ending timeouts still pending can still fire. */
    method Unmount()
      requires Valid() && mounted
      modifies this
      ensures Valid() && !mounted && pending == None
      ensures stops == old(stops) && isGlitching == old(isGlitching)
      ensures styles == old(styles) && overlays == old(overlays)
      ensures intensity == old(intensity) && frequency == old(frequency)
    {
      pending := None;
      mounted := false;
    }
  }
}
