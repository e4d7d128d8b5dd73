/**
 * The `GlitchImage` wrapper of components/glitch-image.tsx: the same
 * resting/glitching cycle as the text wrapper, with one set of glitch
 * parameters (an RGB-split shift, a clip slice and a hue rotation) instead
 * of two offsets, plus the loop that fills a canvas image with black and
 * white noise.
 */
module GlitchImage {
  import opened Draws
  import opened Pulse

  /** A canvas byte (`Uint8ClampedArray` element). */
  newtype Byte = x: int | 0 <= x < 256

  /** The `glitchParams` state. */
  datatype Params = Params(offsetX: real, offsetY: real, sliceTop: real, sliceBottom: real, hueRotate: int)

  const Initial: Params := Params(0.0, 0.0, 0.0, 0.0, 0)

  /** The duration span and the offset reach of this wrapper. */
  const Span: real := 200.0
  const Reach: real := 15.0

  /** For intensities on the 0-10 scale the pause bound lies in [500, 2000],
      the duration in [50, 250] and the largest offset in [0, 15]. */
  lemma ParameterRanges(intensity: real)
    requires 0.0 <= intensity <= 10.0
    ensures 500.0 <= Frequency(intensity) <= 2000.0
    ensures 50.0 <= Duration(intensity, Span) <= 250.0
    ensures 0 <= MaxOffset(intensity, Reach) <= 15
  {
  }

  /** The five draws of one trigger, in the order they are made. */
  datatype ParamDraws = ParamDraws(x: real, y: real, top: real, bottom: real, hue: real)

  predicate ParamDrawsOk(d: ParamDraws) {
    Unit(d.x) && Unit(d.y) && Unit(d.top) && Unit(d.bottom) && Unit(d.hue)
  }

  /** The parameters a trigger sets: the shift lies in [-m, m) x [-m/2, m/2),
      both slices in [0, 100) and the hue is a whole number of degrees in
      [0, 359]. */
  function TriggerParams(m: int, d: ParamDraws): (p: Params)
    requires ParamDrawsOk(d)
    ensures m >= 0 ==> -(m as real) <= p.offsetX <= m as real && -(m as real) / 2.0 <= p.offsetY <= m as real / 2.0
    ensures m > 0 ==> p.offsetX < m as real && p.offsetY < m as real / 2.0
    ensures 0.0 <= p.sliceTop < 100.0 && 0.0 <= p.sliceBottom < 100.0
    ensures 0 <= p.hueRotate <= 359
  {
    var mr := m as real;
    ShiftRange(d.x, mr, 2.0);
    ShiftRange(d.y, mr, 1.0);
    ScaledUnit(d.top, 100.0);
    ScaledUnit(d.bottom, 100.0);
    Params((d.x - 0.5) * mr * 2.0, (d.y - 0.5) * mr, d.top * 100.0, d.bottom * 100.0, Pick(d.hue, 360))
  }

  /** The effect's dependency list `[enabled, maxOffset, glitchFrequency,
      glitchDuration]` is unchanged; by `FrequencyFalls` this holds exactly
      when neither `enabled` nor `intensity` changed. */
  predicate SameDeps(enabled: bool, intensity: real, enabled': bool, intensity': real) {
    && enabled == enabled'
    && MaxOffset(intensity, Reach) == MaxOffset(intensity', Reach)
    && Frequency(intensity) == Frequency(intensity')
    && Duration(intensity, Span) == Duration(intensity', Span)
  }

  class GlitchImage {
    var enabled: bool
    var intensity: real
    var isGlitching: bool
    var params: Params
    /** The timeout `timeoutRef` holds, if it is still pending. */
    var timer: Timer
    var mounted: bool

    ghost predicate Valid()
      reads this
    {
      && (mounted ==> (enabled <==> !timer.NoTimer?))
      && (!mounted ==> timer.NoTimer?)
      && (!enabled ==> !isGlitching)
      && (timer.Reset? ==> isGlitching && timer.duration == Duration(intensity, Span))
      && (timer.Trigger? ==> Below(timer.delay, Frequency(intensity)))
    }

    /** The RGB-split overlay the component renders, if any: only while
        glitching, since a disabled wrapper never glitches. */
    function Overlay(): (o: Option<Params>)
      reads this
      requires Valid()
      ensures o.Some? <==> isGlitching
      ensures o.Some? ==> o.value == params
    {
      if enabled && isGlitching then Some(params) else None
    }

    /** Mounting: the first effect run rests (disabled) or schedules the first
        glitch after a delay below the frequency. */
    constructor (enabled: bool, intensity: real, r: real)
      requires Unit(r)
      ensures Valid() && mounted
      ensures this.enabled == enabled && this.intensity == intensity
      ensures !isGlitching && params == Initial
      ensures timer == if enabled then Trigger(Delay(r, Frequency(intensity))) else NoTimer
    {
      this.enabled := enabled;
      this.intensity := intensity;
      isGlitching := false;
      params := Initial;
      mounted := true;
      timer := if enabled then Trigger(Delay(r, Frequency(intensity))) else NoTimer;
    }

    /** The trigger timeout fires: glitch with fresh parameters and end the
        glitch after the duration. */
    method Glitch(d: ParamDraws)
      requires Valid() && timer.Trigger?
      requires ParamDrawsOk(d)
      modifies this
      ensures Valid()
      ensures isGlitching && params == TriggerParams(MaxOffset(intensity, Reach), d)
      ensures timer == Reset(Duration(intensity, Span))
      ensures enabled == old(enabled) && intensity == old(intensity) && mounted == old(mounted)
    {
      isGlitching := true;
      params := TriggerParams(MaxOffset(intensity, Reach), d);
      timer := Reset(Duration(intensity, Span));
    }

    /** The reset timeout fires: stop glitching, keep the parameters as they
        are and schedule the next glitch after a delay below the frequency. */
    method Settle(r: real)
      requires Valid() && timer.Reset?
      requires Unit(r)
      modifies this
      ensures Valid()
      ensures !isGlitching && params == old(params)
      ensures timer == Trigger(Delay(r, Frequency(intensity)))
      ensures enabled == old(enabled) && intensity == old(intensity) && mounted == old(mounted)
    {
      isGlitching := false;
      timer := Trigger(Delay(r, Frequency(intensity)));
    }

    /** A render with new props.  When a dependency changed, the pending
        timeout is cleared and the effect runs again: disabled, it stops
        glitching (the parameters stay); enabled, it schedules a first glitch
        and leaves a glitch in progress showing. */
    method SetProps(enabled': bool, intensity': real, r: real)
      requires Valid() && mounted
      requires Unit(r)
      modifies this
      ensures Valid() && mounted
      ensures enabled == enabled' && intensity == intensity' && params == old(params)
      ensures SameDeps(old(enabled), old(intensity), enabled', intensity') ==>
                timer == old(timer) && isGlitching == old(isGlitching)
      ensures !SameDeps(old(enabled), old(intensity), enabled', intensity') && !enabled' ==>
                timer == NoTimer && !isGlitching
      ensures !SameDeps(old(enabled), old(intensity), enabled', intensity') && enabled' ==>
                timer == Trigger(Delay(r, Frequency(intensity'))) && isGlitching == old(isGlitching)
    {
      if !SameDeps(enabled, intensity, enabled', intensity') {
        timer := NoTimer;
        if !enabled' {
          isGlitching := false;
        } else {
          timer := Trigger(Delay(r, Frequency(intensity')));
        }
      }
      enabled, intensity := enabled', intensity';
    }

    /** Unmounting: the cleanup clears the pending timeout. */
    method Unmount()
      requires Valid() && mounted
      modifies this
      ensures Valid() && !mounted && timer == NoTimer
      ensures enabled == old(enabled) && intensity == old(intensity)
      ensures isGlitching == old(isGlitching) && params == old(params)
    {
      timer := NoTimer;
      mounted := false;
    }
  }

  /** The noise byte at index `j`: the alpha byte of a pixel is opaque, its
      three colour bytes are all white or all black by the pixel's coin. */
  function NoiseAt(j: nat, coins: seq<real>): Byte
    requires j / 4 < |coins|
  {
    if j % 4 == 3 then 255 else if coins[j / 4] > 0.5 then 255 else 0
  }

  /** The image the noise loop leaves in a buffer of `n` bytes. */
  function Noise(n: nat, coins: seq<real>): (s: seq<Byte>)
    requires |coins| == (n + 3) / 4
    ensures |s| == n
  {
    seq(n, j requires 0 <= j < n => NoiseAt(j, coins))
  }

  /** In the noise image every complete pixel is opaque and grey-free: its
      red, green and blue bytes agree and are 0 or 255. */
  lemma NoisePixels(n: nat, coins: seq<real>, i: nat)
    requires |coins| == (n + 3) / 4
    requires i % 4 == 0 && i + 3 < n
    ensures Noise(n, coins)[i] == Noise(n, coins)[i + 1] == Noise(n, coins)[i + 2]
    ensures Noise(n, coins)[i] == 0 || Noise(n, coins)[i] == 255
    ensures Noise(n, coins)[i + 3] == 255
    ensures Noise(n, coins)[i] == 255 <==> coins[i / 4] > 0.5
  {
    assert (i + 1) / 4 == i / 4 && (i + 2) / 4 == i / 4 && (i + 3) % 4 == 3;
  }

  /** The noise loop of the canvas effect: one coin per pixel; writes past
      the end of the buffer (a last, partial pixel) are dropped, as typed
      arrays drop them. */
  method NoiseFill(data: array<Byte>, coins: seq<real>)
    requires |coins| == (data.Length + 3) / 4
    modifies data
    ensures data[..] == Noise(data.Length, coins)
  {
    var i := 0;
    while i < data.Length
      invariant i % 4 == 0 && 0 <= i <= data.Length + 3
      invariant forall j :: 0 <= j < i && j < data.Length ==> data[j] == NoiseAt(j, coins)
      decreases data.Length - i
    {
      var value: Byte := if coins[i / 4] > 0.5 then 255 else 0;
      data[i] := value;
      if i + 1 < data.Length { data[i + 1] := value; }
      if i + 2 < data.Length { data[i + 2] := value; }
      if i + 3 < data.Length { data[i + 3] := 255; }
      assert (i + 1) / 4 == i / 4 && (i + 2) / 4 == i / 4 && (i + 3) / 4 == i / 4;
      assert (i + 1) % 4 == 1 && (i + 2) % 4 == 2 && (i + 3) % 4 == 3;
      i := i + 4;
    }
  }
}
