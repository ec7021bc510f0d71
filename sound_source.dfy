/** `SoundSource` of allocore/allocore/sound/al_AudioScene.hpp: a moving source with
    its own delay buffer, position history and distance-attenuation policy.
    Doubles are modelled as reals. The delay buffer (`RingBuffer<float>`) is
    represented by its size only; its sample values are not modelled. */
module SoundSources {
  import opened SceneBasics

  /** `M_PI`, to the precision of its decimal expansion. */
  const Pi: real := 3.141592653589793

  /** Where a new source's position history starts: far from any listener. */
  const FarAway := Vec3(1000.0, 1000.0, 1000.0)

  /** `bufferSize(samplerate, speedOfSound, distance)`: the number of samples
      sound takes to travel `distance`, rounded up. */
  function BufferSize(sampleRate: real, speedOfSound: real, distance: real): (n: int)
    requires speedOfSound != 0.0
    ensures n as real - 1.0 < sampleRate * distance / speedOfSound <= n as real
  {
    Ceil(sampleRate * distance / speedOfSound)
  }

  /** The two delay-buffer taps `readSample` reads and the weight it gives
      the second: `ipl::linear(frac, read(index0), read(index1))`. */
  datatype Taps = Taps(index0: int, index1: int, frac: real)

  /** A source's distance-attenuation policy: whether it is on, the near
      clip, the clip range and the floor reached beyond the far clip. */
  datatype Attenuator = Attenuator(useAtten: bool, nearClip: real, clipRange: real, ampFar: real)
  {
    /** `farClip()`: the distance at which attenuation reaches its floor. */
    function FarClip(): (f: real)
      ensures f - nearClip == clipRange
    {
      nearClip + clipRange
    }

    /** `attenuation(distance)`. `tanh` is the hyperbolic tangent, taken as
        a parameter. `None` stands for the NaN of the 0/0 that the sigmoid
        branch computes when the clip range is 0 and `distance` is exactly the
        near clip. */
    function Gain(distance: real, tanh: real -> real): Option<real>
    {
      if !useAtten then Some(1.0)
      else if distance < nearClip then Some(1.0)
      else if distance > nearClip + clipRange then Some(ampFar)
      else if clipRange == 0.0 then None
      else
        Some(SkewedSigmoid(ampFar, (distance - nearClip) / clipRange, tanh))
    }
  }

  /** The cases of `attenuation`: a gain of 1 with attenuation off or
      nearer than the near clip, the floor beyond the far clip, and NaN
      exactly when the sigmoid branch divides 0 by a zero clip range. (Stated
      as a lemma, so that proofs that only carry a gain along do not see the
      case split.) */
  lemma GainCases(a: Attenuator, distance: real, tanh: real -> real)
    ensures !a.useAtten ==> a.Gain(distance, tanh) == Some(1.0)
    ensures a.useAtten && distance < a.nearClip ==> a.Gain(distance, tanh) == Some(1.0)
    ensures a.useAtten && a.nearClip <= distance && distance > a.FarClip() ==> a.Gain(distance, tanh) == Some(a.ampFar)
    ensures a.Gain(distance, tanh) == None <==> a.useAtten && a.clipRange == 0.0 && distance == a.nearClip
  {
  }

  /** What `render` needs of a source: whether Doppler is on, the largest
      readable index, the attenuation policy (whose far clip scales the
      delay index) and the position history. */
  datatype SourceParams = SourceParams(useDoppler: bool, maxIndex: int, atten: Attenuator, history: seq<Vec3>)
  {
    function FarClip(): real { atten.FarClip() }
  }

  /** The attenuation curve between the clips, at normalised distance `dN`:
      `curve = 1 - tanh(pi dN^2)`, scaled into [ampFar, 1]. */
  function SkewedSigmoid(ampFar: real, dN: real, tanh: real -> real): real
  {
    var curve := 1.0 - tanh(Pi * dN * dN);
    ampFar + curve * (1.0 - ampFar)
  }

  class SoundSource {
    /** `mSound.size()`: the length of the delay buffer. */
    var delaySize: int
    var pose: Pose
    var posHistory: seq<Vec3>
    var rollOff: real
    var nearClip: real
    var clipRange: real
    var ampFar: real
    var useAtten: bool
    var useDoppler: bool

    ghost predicate Valid()
      reads this
    {
      |posHistory| == HistoryDepth
    }

    /** The constructor, with the source's default arguments. The position
        history receives four pushes of a far-away position. */
    constructor (rollOff: real := 1.0, near: real := 1.0, range: real := 32.0,
                 ampFar: real := 0.0, bufSize: nat := 5000)
      ensures Valid()
      ensures posHistory == [FarAway, FarAway, FarAway, FarAway]
      ensures delaySize == bufSize && this.rollOff == rollOff && nearClip == near
      ensures clipRange == range && this.ampFar == ampFar && useAtten && useDoppler
      ensures pose == Pose(Origin, IdentityQuat)
    {
      delaySize := bufSize;
      pose := Pose(Origin, IdentityQuat);
      this.rollOff := rollOff;
      nearClip := near;
      clipRange := range;
      this.ampFar := ampFar;
      useAtten := true;
      useDoppler := true;
      var h := [Origin, Origin, Origin, Origin];
      h := Push(h, FarAway);
      h := Push(h, FarAway);
      h := Push(h, FarAway);
      h := Push(h, FarAway);
      PushNFills([Origin, Origin, Origin, Origin], FarAway, 4);
      assert h == PushN([Origin, Origin, Origin, Origin], FarAway, 4);
      posHistory := h;
    }

    /** The source's attenuation policy. */
    function Policy(): (a: Attenuator)
      reads this
      ensures a.useAtten == useAtten && a.nearClip == nearClip
      ensures a.clipRange == clipRange && a.ampFar == ampFar
    {
      Attenuator(useAtten, nearClip, clipRange, ampFar)
    }

    /** `farClip()`. */
    function FarClip(): real
      reads this
    {
      Policy().FarClip()
    }

    /** `attenuation(distance)`. */
    function Attenuation(distance: real, tanh: real -> real): Option<real>
      reads this
    {
      Policy().Gain(distance, tanh)
    }

    /** `enableAttenuation(enable)`. */
    method EnableAttenuation(enable: bool)
      modifies this`useAtten
      ensures useAtten == enable
    {
      useAtten := enable;
    }

    /** `enableDoppler(enable)`. */
    method EnableDoppler(enable: bool)
      modifies this`useDoppler
      ensures useDoppler == enable
    {
      useDoppler := enable;
    }

    /** `delaySize()`. */
    function DelaySize(): (n: int)
      reads this
      ensures n == delaySize
    {
      delaySize
    }

    /** `delayToIndex(delay, sampleRate)`: a delay in seconds as a buffer
        index, or 0 when Doppler is off. */
    function DelayToIndex(delay: real, sampleRate: real): (idx: real)
      reads this
      ensures !useDoppler ==> idx == 0.0
      ensures useDoppler && sampleRate != 0.0 ==> idx / sampleRate == delay
    {
      if !useDoppler then 0.0 else delay * sampleRate
    }

    /** `maxDelay(sampleRate)`: the buffer's length in seconds. */
    function MaxDelay(sampleRate: real): (t: real)
      reads this
      requires sampleRate != 0.0
      ensures t * sampleRate == DelaySize() as real
    {
      DelaySize() as real / sampleRate
    }

    /** `maxIndex()`: the largest index `readSample` may be given; its second
        tap, one further back, is the last slot of the buffer. */
    function MaxIndex(): (m: int)
      reads this
      ensures m + 1 == DelaySize() - 1
    {
      DelaySize() - 2
    }

    /** `readSample(index)`: the two taps of the linear interpolation. The
        index is truncated to `index0`, the second tap is one sample further
        back, and the weight is the fractional part. Both taps lie inside the
        buffer. */
    function ReadSample(index: real): (t: Taps)
      reads this
      requires Readable(MaxIndex(), index)
      ensures 0 <= t.index0 && t.index1 == t.index0 + 1 && t.index1 < DelaySize()
      ensures 0.0 <= t.frac < 1.0 && t.index0 as real + t.frac == index
    {
      var index0 := Trunc(index);
      Taps(index0, index0 + 1, index - index0 as real)
    }

    /** `farClip(v)`: sets the clip range so that the far clip becomes `v`. */
    method SetFarClip(v: real)
      modifies this`clipRange
      ensures FarClip() == v
      ensures clipRange == v - nearClip
    {
      clipRange := v - nearClip;
    }

    /** `nearClip(v)`: the clip range is kept, so the far clip moves with it. */
    method SetNearClip(v: real)
      modifies this`nearClip
      ensures nearClip == v
      ensures FarClip() == old(FarClip()) + (v - old(nearClip))
    {
      nearClip := v;
    }

    /** `ampFar(v)`. */
    method SetAmpFar(v: real)
      modifies this`ampFar
      ensures ampFar == v
    {
      ampFar := v;
    }

    /** `rollOff(v)`. */
    method SetRollOff(v: real)
      modifies this`rollOff
      ensures rollOff == v
    {
      rollOff := v;
    }

    /** `pose(p)`. */
    method SetPose(p: Pose)
      modifies this`pose
      ensures pose == p
    {
      pose := p;
    }

    /** The part of the source's state that `render` reads. */
    function Params(): (p: SourceParams)
      reads this
      ensures p.useDoppler == useDoppler && p.maxIndex == MaxIndex() && p.atten == Policy()
      ensures p.history == posHistory
    {
      SourceParams(useDoppler, MaxIndex(), Policy(), posHistory)
    }
  }

  /** A hyperbolic tangent's properties on the non-negative reals, as the
      attenuation curve uses them: values in [0, 1], non-decreasing. */
  ghost predicate TanhLike(tanh: real -> real)
  {
    && (forall x :: 0.0 <= x ==> 0.0 <= tanh(x) <= 1.0)
    && (forall x, y :: 0.0 <= x <= y ==> tanh(x) <= tanh(y))
  }

  /** The product of two positive numbers is positive. */
  lemma ProductPositive(a: real, b: real)
    requires 0.0 < a && 0.0 < b
    ensures 0.0 < a * b
  {
  }

  /** Dividing by a positive number keeps order. */
  lemma DivideMonotone(x: real, y: real, r: real)
    requires 0.0 < r && x <= y
    ensures x / r <= y / r
  {
    assert (y / r - x / r) * r == y - x;
  }

  /** The quotient of a part by a positive whole lies in [0, 1]. */
  lemma QuotientInUnit(x: real, r: real)
    requires 0.0 < r && 0.0 <= x <= r
    ensures 0.0 <= x / r <= 1.0
  {
    DivideMonotone(0.0, x, r);
    DivideMonotone(x, r, r);
    assert r / r == 1.0;
  }

  /** Scaling a non-negative amount by a factor in [0, 1] keeps it between
      0 and itself. */
  lemma ScaleInUnit(c: real, m: real)
    requires 0.0 <= c <= 1.0 && 0.0 <= m
    ensures 0.0 <= c * m <= m
  {
    assert (1.0 - c) * m >= 0.0;
  }

  /** Between the clips, with a non-zero clip range, attenuation follows the
      skewed sigmoid of the normalised distance, which lies in [0, 1]. */
  lemma AttenuationSigmoid(a: Attenuator, distance: real, tanh: real -> real)
    requires a.useAtten && a.clipRange != 0.0
    requires a.nearClip <= distance <= a.FarClip()
    ensures 0.0 <= (distance - a.nearClip) / a.clipRange <= 1.0
    ensures a.Gain(distance, tanh)
              == Some(SkewedSigmoid(a.ampFar, (distance - a.nearClip) / a.clipRange, tanh))
  {
    QuotientInUnit(distance - a.nearClip, a.clipRange);
  }

  /** The skewed sigmoid at a normalised distance in [0, 1] is a gain
      between the floor and 1. */
  lemma CurveInRange(tanh: real -> real, ampFar: real, dN: real)
    requires TanhLike(tanh)
    requires ampFar <= 1.0 && 0.0 <= dN
    ensures ampFar <= SkewedSigmoid(ampFar, dN, tanh) <= 1.0
  {
    assert 0.0 <= dN * dN;
    assert 0.0 <= Pi * (dN * dN) == Pi * dN * dN;
    ScaleInUnit(1.0 - tanh(Pi * dN * dN), 1.0 - ampFar);
  }

  /** With a floor of at most 1, attenuation is a gain between the floor and
      1 wherever it is defined. */
  lemma AttenuationInRange(a: Attenuator, distance: real, tanh: real -> real)
    requires TanhLike(tanh)
    requires a.ampFar <= 1.0
    ensures a.Gain(distance, tanh).Some? ==>
              a.ampFar <= a.Gain(distance, tanh).value <= 1.0
  {
    if a.useAtten && a.nearClip <= distance <= a.FarClip() && a.clipRange != 0.0 {
      AttenuationSigmoid(a, distance, tanh);
      CurveInRange(tanh, a.ampFar, (distance - a.nearClip) / a.clipRange);
    }
  }

  /** The curve part of the attenuation does not grow with the normalised
      distance. */
  lemma CurveNonIncreasing(tanh: real -> real, ampFar: real, a: real, b: real)
    requires TanhLike(tanh)
    requires ampFar <= 1.0 && 0.0 <= a <= b
    ensures SkewedSigmoid(ampFar, b, tanh) <= SkewedSigmoid(ampFar, a, tanh)
  {
    assert a * a <= b * b by {
      assert b * b - a * a == (b - a) * (b + a);
    }
    assert 0.0 <= Pi * a * a <= Pi * b * b;
    var ta, tb := tanh(Pi * a * a), tanh(Pi * b * b);
    assert ta <= tb;
    assert (tb - ta) * (1.0 - ampFar) >= 0.0;
  }

  /** With attenuation on, a positive clip range and a floor of at most 1, a
      farther source is never louder. */
  lemma AttenuationNonIncreasing(a: Attenuator, d1: real, d2: real, tanh: real -> real)
    requires TanhLike(tanh)
    requires a.ampFar <= 1.0 && 0.0 < a.clipRange
    requires d1 <= d2
    ensures a.Gain(d1, tanh).Some? && a.Gain(d2, tanh).Some?
    ensures a.Gain(d2, tanh).value <= a.Gain(d1, tanh).value
  {
    if !a.useAtten || d2 < a.nearClip {
    } else if d1 < a.nearClip || d1 > a.FarClip() {
      AttenuationInRange(a, d2, tanh);
    } else if d2 > a.FarClip() {
      AttenuationInRange(a, d1, tanh);
    } else {
      SigmoidNonIncreasing(a, d1, d2, tanh);
    }
  }

  /** The sigmoid branch of `AttenuationNonIncreasing`. */
  lemma SigmoidNonIncreasing(a: Attenuator, d1: real, d2: real, tanh: real -> real)
    requires TanhLike(tanh)
    requires a.useAtten && a.ampFar <= 1.0 && 0.0 < a.clipRange
    requires a.nearClip <= d1 <= d2 <= a.FarClip()
    ensures a.Gain(d1, tanh).Some? && a.Gain(d2, tanh).Some?
    ensures a.Gain(d2, tanh).value <= a.Gain(d1, tanh).value
  {
    var n1 := (d1 - a.nearClip) / a.clipRange;
    var n2 := (d2 - a.nearClip) / a.clipRange;
    DivideMonotone(d1 - a.nearClip, d2 - a.nearClip, a.clipRange);
    AttenuationSigmoid(a, d1, tanh);
    AttenuationSigmoid(a, d2, tanh);
    CurveNonIncreasing(tanh, a.ampFar, n1, n2);
  }

  /** At exactly the far clip the sigmoid branch is still taken (the test is
      `distance > farClip`), so the gain there is the floor plus the curve's
      value at normalised distance 1, which lies above the floor whenever
      tanh(pi) < 1 and the floor is below 1. */
  lemma AttenuationAtFarClip(a: Attenuator, tanh: real -> real)
    requires a.useAtten && 0.0 < a.clipRange
    ensures a.Gain(a.FarClip(), tanh) == Some(SkewedSigmoid(a.ampFar, 1.0, tanh))
    ensures SkewedSigmoid(a.ampFar, 1.0, tanh) == a.ampFar + (1.0 - tanh(Pi)) * (1.0 - a.ampFar)
    ensures tanh(Pi) < 1.0 && a.ampFar < 1.0 ==> SkewedSigmoid(a.ampFar, 1.0, tanh) > a.ampFar
  {
    AttenuationSigmoid(a, a.FarClip(), tanh);
    var num := a.FarClip() - a.nearClip;
    assert num == a.clipRange;
    assert num / a.clipRange == 1.0;
    assert Pi * 1.0 * 1.0 == Pi;
    var t := tanh(Pi);
    if t < 1.0 && a.ampFar < 1.0 {
      var u, v := 1.0 - t, 1.0 - a.ampFar;
      ProductPositive(u, v);
      var prod := u * v;
      assert 0.0 < prod;
      assert SkewedSigmoid(a.ampFar, 1.0, tanh) == a.ampFar + prod;
    }
  }
}
