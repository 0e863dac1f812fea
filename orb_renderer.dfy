/**
 * The audio-reactive orb drawn on the recording screen: a globe of dots whose radius follows
 * the microphone's loudness, whose dots are coloured by a noise field, and which turns slowly
 * around its vertical axis while being projected in perspective onto the canvas.
 *
 * The trigonometry, the 3D noise function and `Math.random` are parameters; the canvas calls
 * are modelled as the `DrawCall` values one frame produces.
 */
module OrbRenderer {
  import opened Wrappers
  import opened Numeric

  datatype Point3D = Point3D(x: real, y: real, z: real)

  datatype Projection3D = Projection3D(x: real, y: real, size: real)

  datatype Dot = Dot(location: Point3D, projection: Projection3D, theta: real, phi: real)

  /** One filled circle: centre, radius, `globalAlpha` and `fillStyle`. */
  datatype DrawCall = DrawCall(x: real, y: real, arcRadius: real, alpha: real, color: string)

  /** A new dot has not been projected yet: its projection is all zeros. */
  function CreateDot(point: Point3D, theta: real, phi: real): (d: Dot)
    ensures d.location == point && d.theta == theta && d.phi == phi
    ensures d.projection == Projection3D(0.0, 0.0, 0.0)
  {
    Dot(point, Projection3D(0.0, 0.0, 0.0), theta, phi)
  }

  /* ---------------- colours ---------------- */

  const Palette: seq<string> := ["#fff7ed", "#ffedd5", "#fed7aa", "#fdba74", "#fb923c", "#f97316"]

  /**
   * Noise in [-1, 1] is mapped to [0, 1] and then to an index into the palette; an index that
   * falls outside the palette (noise of 1 or more, or below -1) gives the first colour.
   */
  function ColorByNoise(noise: real): (color: string)
    ensures color in Palette
  {
    var i := Floor(((noise + 1.0) / 2.0) * |Palette| as real);
    if 0 <= i < |Palette| then Palette[i] else Palette[0]
  }

  /** The noise range [-1, 1) is cut into six bands of width 1/3, one per colour. */
  lemma ColorBand(noise: real, k: nat)
    requires k < |Palette|
    requires -1.0 + k as real / 3.0 <= noise < -1.0 + (k + 1) as real / 3.0
    ensures ColorByNoise(noise) == Palette[k]
  {
    var x := ((noise + 1.0) / 2.0) * |Palette| as real;
    assert x == 3.0 * (noise + 1.0);
    assert k as real <= x < (k + 1) as real;
    assert Floor(x) == k;
  }

  /** Noise outside [-1, 1) falls back to the first colour. */
  lemma ColorFallback(noise: real)
    requires noise < -1.0 || noise >= 1.0
    ensures ColorByNoise(noise) == Palette[0]
  {
    var x := ((noise + 1.0) / 2.0) * |Palette| as real;
    assert x == 3.0 * (noise + 1.0);
    assert Floor(x) < 0 || Floor(x) >= 6;
  }

  /* ---------------- constants of the scene ---------------- */

  const DotsAmount: nat := 1500
  const MinDotRadius: real := 1.0
  const MaxDotRadius: real := 1.25

  function InactiveGlobeRadius(h: real): real { h * 0.15 }
  function ActiveGlobeRadius(h: real): real { h * 0.4 }
  function MinGlobeRadius(h: real): real { h * 0.35 }
  function MaxGlobeRadius(h: real): real { h * 0.65 }
  function GlobeCenterZ(h: real): real { -ActiveGlobeRadius(h) }
  function FieldOfView(h: real): real { h * 0.8 }

  /* ---------------- audio ---------------- */

  newtype byte = b: int | 0 <= b < 256

  /** `frequencyBinCount` is half of `fftSize`, which the Web Audio API keeps in [32, 32768]. */
  type BinCount = n: int | 16 <= n <= 16384 witness 16

  datatype Analyser = Analyser(frequencyBinCount: BinCount)

  /** What the screen hands the orb every frame. */
  datatype AudioState = AudioState(analyser: Option<Analyser>, dataArray: Option<seq<byte>>, isActive: bool)

  /**
   * `AnalyserNode.getByteFrequencyData`: the current bins are copied into the buffer; bins
   * beyond the buffer's end are dropped and buffer elements beyond the last bin are left alone.
   */
  function GetByteFrequencyData(buffer: seq<byte>, frequencies: seq<byte>): (r: seq<byte>)
    ensures |r| == |buffer|
    ensures |frequencies| >= |buffer| ==> r == frequencies[..|buffer|]
    ensures |frequencies| <= |buffer| ==> r == frequencies + buffer[|frequencies|..]
  {
    if |frequencies| >= |buffer| then frequencies[..|buffer|]
    else frequencies + buffer[|frequencies|..]
  }

  function Sum(s: seq<byte>): nat {
    if |s| == 0 then 0 else Sum(s[..|s| - 1]) + s[|s| - 1] as nat
  }

  lemma {:induction false} SumBound(s: seq<byte>)
    ensures Sum(s) <= 255 * |s|
  {
    if |s| > 0 {
      SumBound(s[..|s| - 1]);
    }
  }

  lemma {:induction false} SumAllLoud(s: seq<byte>)
    requires forall i :: 0 <= i < |s| ==> s[i] == 255
    ensures Sum(s) == 255 * |s|
  {
    if |s| > 0 {
      SumAllLoud(s[..|s| - 1]);
    }
  }

  /**
   * The average frequency divided by 80. The sum is a `reduce` with no initial value, which
   * throws on an empty array; the average divides by the bin count, not by the array length.
   */
  function AverageFactor(data: seq<byte>, binCount: BinCount): (r: Result<real, string>)
    ensures r.Failure? <==> |data| == 0
    ensures r.Success? ==> r.value >= 0.0
    ensures r.Success? ==> r.value * (binCount as real) * 80.0 == Sum(data) as real
  {
    if |data| == 0 then Failure("Reduce of empty array with no initial value")
    else Success(Sum(data) as real / binCount as real / 80.0)
  }

  /** The array's contents after the frame read the analyser (unchanged without one). */
  function FilledData(state: AudioState, frequencies: seq<byte>): (r: Option<seq<byte>>)
    ensures r.Some? <==> state.dataArray.Some?
    ensures state.analyser.None? ==> r == state.dataArray
    ensures r.Some? ==> |r.value| == |state.dataArray.value|
  {
    if state.analyser.Some? && state.dataArray.Some? then
      Some(GetByteFrequencyData(state.dataArray.value, frequencies))
    else state.dataArray
  }

  /** How strongly the audio pushes the dots outwards; 0 without an analyser or an array. */
  function NoiseFactor(state: AudioState, frequencies: seq<byte>): (r: Result<real, string>)
    ensures state.analyser.None? || state.dataArray.None? ==> r == Success(0.0)
    ensures r.Failure? <==> state.analyser.Some? && state.dataArray.Some? && |state.dataArray.value| == 0
    ensures r.Success? ==> r.value >= 0.0
  {
    if state.analyser.Some? && state.dataArray.Some? then
      AverageFactor(GetByteFrequencyData(state.dataArray.value, frequencies), state.analyser.value.frequencyBinCount)
    else Success(0.0)
  }

  /**
   * With the array sized to the bin count (as the screen sets it up), the factor lies in
   * [0, 255/80], the top being reached when every bin is at full scale.
   */
  lemma NoiseFactorRange(state: AudioState, frequencies: seq<byte>)
    requires state.analyser.Some? && state.dataArray.Some?
    requires |state.dataArray.value| == state.analyser.value.frequencyBinCount
    ensures NoiseFactor(state, frequencies).Success?
    ensures 0.0 <= NoiseFactor(state, frequencies).value <= 255.0 / 80.0
    ensures (forall i :: 0 <= i < |frequencies| ==> frequencies[i] == 255) && |frequencies| >= |state.dataArray.value|
      ==> NoiseFactor(state, frequencies).value == 255.0 / 80.0
  {
    var b := state.analyser.value.frequencyBinCount;
    var data := GetByteFrequencyData(state.dataArray.value, frequencies);
    var q := NoiseFactor(state, frequencies).value;
    SumBound(data);
    var bb := b as real * 80.0;
    assert q * bb == Sum(data) as real;
    assert (255.0 / 80.0) * bb == 255.0 * b as real;
    ScaledBound(q, bb, Sum(data) as real, 255.0 / 80.0);
    if (forall i :: 0 <= i < |frequencies| ==> frequencies[i] == 255) && |frequencies| >= |state.dataArray.value| {
      assert forall i :: 0 <= i < |data| ==> data[i] == frequencies[i];
      SumAllLoud(data);
      ScaledEqual(q, bb, 255.0 / 80.0);
    }
  }

  lemma ScaledBound(q: real, d: real, s: real, t: real)
    requires d > 0.0 && q * d == s && s <= t * d
    ensures q <= t
  {
    assert (q - t) * d == q * d - t * d;
    if q > t {
      MulPos(q - t, d);
    }
  }

  lemma ScaledEqual(q: real, d: real, t: real)
    requires d > 0.0 && q * d == t * d
    ensures q == t
  {
    assert (q - t) * d == q * d - t * d;
    if q != t {
      if q > t {
        MulPos(q - t, d);
      } else {
        MulPos(t - q, d);
      }
    }
  }

  /* ---------------- the radius ---------------- */

  function TargetRadius(isActive: bool, h: real): real {
    if isActive then ActiveGlobeRadius(h) else InactiveGlobeRadius(h)
  }

  /** One smoothing step (smoothness 4) moves a quarter of the way to the target and never overshoots. */
  function Smooth(current: real, target: real): (r: real)
    ensures current <= target ==> current <= r <= target
    ensures target <= current ==> target <= r <= current
    ensures target - r == 0.75 * (target - current)
  {
    current + (target - current) / 4.0
  }

  /** The radius after `n` frames with the same target. */
  function SmoothN(current: real, target: real, n: nat): real {
    if n == 0 then current else Smooth(SmoothN(current, target, n - 1), target)
  }

  function Pow(b: real, n: nat): real {
    if n == 0 then 1.0 else b * Pow(b, n - 1)
  }

  lemma {:induction false} PowBetween(n: nat)
    ensures 0.0 < Pow(0.75, n) <= 1.0
  {
    if n > 0 {
      PowBetween(n - 1);
    }
  }

  /**
   * After `n` frames the distance to the target is (3/4)^n of the starting distance: the
   * radius approaches the target geometrically and always from the side it started on.
   */
  lemma {:induction false} SmoothNGap(current: real, target: real, n: nat)
    ensures target - SmoothN(current, target, n) == Pow(0.75, n) * (target - current)
  {
    if n > 0 {
      SmoothNGap(current, target, n - 1);
      var p := Pow(0.75, n - 1);
      assert Pow(0.75, n) == 0.75 * p;
      SmoothStep(SmoothN(current, target, n - 1), target, p, target - current);
    }
  }

  /** (3/4)^20 is below one hundredth. */
  lemma PowTwentyFrames()
    ensures Pow(0.75, 20) < 0.01
  {
    assert Pow(0.75, 1) == 3.0 / 4.0;
    assert Pow(0.75, 2) == 9.0 / 16.0;
    assert Pow(0.75, 3) == 27.0 / 64.0;
    assert Pow(0.75, 4) == 81.0 / 256.0;
    assert Pow(0.75, 5) == 243.0 / 1024.0;
    assert Pow(0.75, 6) == 729.0 / 4096.0;
    assert Pow(0.75, 7) == 2187.0 / 16384.0;
    assert Pow(0.75, 8) == 6561.0 / 65536.0;
    assert Pow(0.75, 9) == 19683.0 / 262144.0;
    assert Pow(0.75, 10) == 59049.0 / 1048576.0;
    assert Pow(0.75, 11) == 177147.0 / 4194304.0;
    assert Pow(0.75, 12) == 531441.0 / 16777216.0;
    assert Pow(0.75, 13) == 1594323.0 / 67108864.0;
    assert Pow(0.75, 14) == 4782969.0 / 268435456.0;
    assert Pow(0.75, 15) == 14348907.0 / 1073741824.0;
    assert Pow(0.75, 16) == 43046721.0 / 4294967296.0;
    assert Pow(0.75, 17) == 129140163.0 / 17179869184.0;
    assert Pow(0.75, 18) == 387420489.0 / 68719476736.0;
    assert Pow(0.75, 19) == 1162261467.0 / 274877906944.0;
    assert Pow(0.75, 20) == 3486784401.0 / 1099511627776.0;
  }

  /**
   * Twenty frames toward a fixed target leave less than one per cent of the initial gap, and
   * none is left only when there was none to begin with.
   */
  lemma SettlesInTwentyFrames(current: real, target: real)
    ensures Abs(target - SmoothN(current, target, 20)) <= 0.01 * Abs(target - current)
    ensures current != target ==> Abs(target - SmoothN(current, target, 20)) < 0.01 * Abs(target - current)
  {
    SmoothNGap(current, target, 20);
    PowTwentyFrames();
    PowBetween(20);
    var p := Pow(0.75, 20);
    var g := target - current;
    GapShrinks(p, g, target - SmoothN(current, target, 20));
  }

  lemma GapShrinks(p: real, g: real, e: real)
    requires 0.0 < p < 0.01 && e == p * g
    ensures Abs(e) <= 0.01 * Abs(g)
    ensures g != 0.0 ==> Abs(e) < 0.01 * Abs(g)
  {
    if g >= 0.0 {
      ForwardGapShrinks(p, g, e);
    } else {
      assert -e == p * -g;
      ForwardGapShrinks(p, -g, -e);
    }
  }

  lemma ForwardGapShrinks(p: real, g: real, e: real)
    requires 0.0 < p < 0.01 && g >= 0.0 && e == p * g
    ensures 0.0 <= e <= 0.01 * g
    ensures g != 0.0 ==> e < 0.01 * g
  {
    MulNonNeg(p, g);
    if g > 0.0 {
      MulPos(0.01 - p, g);
      assert (0.01 - p) * g == 0.01 * g - e;
    }
  }

  lemma SmoothStep(x: real, target: real, p: real, g: real)
    requires target - x == p * g
    ensures target - Smooth(x, target) == (0.75 * p) * g
  {
    assert target - Smooth(x, target) == 0.75 * (p * g);
  }

  /** Smoothing keeps the radius between the idle and the active size of the globe. */
  lemma SmoothKeepsBand(h: real, current: real, isActive: bool)
    requires h >= 0.0
    requires InactiveGlobeRadius(h) <= current <= ActiveGlobeRadius(h)
    ensures InactiveGlobeRadius(h) <= Smooth(current, TargetRadius(isActive, h)) <= ActiveGlobeRadius(h)
  {
  }

  /**
   * While recording, the radius is the smoothed radius pushed by noise and audio, clamped to
   * [0.35h, 0.65h]; when idle it is the smoothed radius itself.
   */
  function AnimatedRadius(isActive: bool, current: real, noiseValue: real, factor: real, h: real): (r: real)
    requires h >= 0.0
    ensures !isActive ==> r == current
    ensures isActive ==> MinGlobeRadius(h) <= r <= MaxGlobeRadius(h)
    ensures isActive ==> var pushed := current + noiseValue * (MaxGlobeRadius(h) - MinGlobeRadius(h)) * factor;
      && (MinGlobeRadius(h) <= pushed <= MaxGlobeRadius(h) ==> r == pushed)
      && (pushed < MinGlobeRadius(h) ==> r == MinGlobeRadius(h))
      && (pushed > MaxGlobeRadius(h) ==> r == MaxGlobeRadius(h))
  {
    if isActive then
      Min(Max(current + noiseValue * (MaxGlobeRadius(h) - MinGlobeRadius(h)) * factor, MinGlobeRadius(h)), MaxGlobeRadius(h))
    else current
  }

  /* ---------------- geometry ---------------- */

  /** The squared distance of a point from the globe's centre (0, 0, -0.4h). */
  function DistSq(p: Point3D, h: real): real {
    p.x * p.x + p.y * p.y + (p.z - GlobeCenterZ(h)) * (p.z - GlobeCenterZ(h))
  }

  /** A point on the globe of radius `r` at polar angle `phi` and azimuth `theta`. */
  function SphericalPoint(m: Maths, r: real, theta: real, phi: real, h: real): (p: Point3D)
    ensures Lawful(m) ==> DistSq(p, h) == r * r
  {
    OnSphere(m, r, theta, phi, h);
    Point3D(r * m.sin(phi) * m.cos(theta), r * m.sin(phi) * m.sin(theta), r * m.cos(phi) + GlobeCenterZ(h))
  }

  lemma OnSphere(m: Maths, r: real, theta: real, phi: real, h: real)
    ensures Lawful(m) ==>
      var p := Point3D(r * m.sin(phi) * m.cos(theta), r * m.sin(phi) * m.sin(theta), r * m.cos(phi) + GlobeCenterZ(h));
      DistSq(p, h) == r * r
  {
    if Lawful(m) {
      SphereNorm(r, m.sin(phi), m.cos(phi), m.sin(theta), m.cos(theta));
    }
  }

  lemma SphereNorm(r: real, sp: real, cp: real, st: real, ct: real)
    requires sp * sp + cp * cp == 1.0 && st * st + ct * ct == 1.0
    ensures (r * sp * ct) * (r * sp * ct) + (r * sp * st) * (r * sp * st) + (r * cp) * (r * cp) == r * r
  {
    var a := r * sp;
    assert (a * ct) * (a * ct) + (a * st) * (a * st) == (a * a) * (ct * ct + st * st);
    assert (a * a) + (r * cp) * (r * cp) == (r * r) * (sp * sp + cp * cp);
  }

  /** A rotation by an angle with sine `s` and cosine `c` keeps distances. */
  lemma RotationNorm(s: real, c: real, x: real, w: real)
    requires s * s + c * c == 1.0
    ensures (-s * x + c * w) * (-s * x + c * w) + (c * x + s * w) * (c * x + s * w) == x * x + w * w
  {
    assert (-s * x + c * w) * (-s * x + c * w) == s * s * (x * x) - 2.0 * (s * c) * (x * w) + c * c * (w * w);
    assert (c * x + s * w) * (c * x + s * w) == c * c * (x * x) + 2.0 * (s * c) * (x * w) + s * s * (w * w);
    assert s * s * (x * x) + c * c * (x * x) == (s * s + c * c) * (x * x);
    assert s * s * (w * w) + c * c * (w * w) == (s * s + c * c) * (w * w);
  }

  /** The globe turns about the vertical axis through its centre. */
  function RotX(p: Point3D, s: real, c: real, h: real): real {
    c * p.x + s * (p.z - GlobeCenterZ(h))
  }

  function RotZ(p: Point3D, s: real, c: real, h: real): real {
    -s * p.x + c * (p.z - GlobeCenterZ(h)) + GlobeCenterZ(h)
  }

  /**
   * Perspective projection onto a canvas `w` wide and `h` high: the scale is the field of view
   * over the rotated point's distance from the eye, positive exactly when the point is in front
   * of the eye, and the canvas position is the rotated point scaled about the canvas centre.
   */
  function Project(w: real, h: real, p: Point3D, s: real, c: real): (r: Projection3D)
    requires h > 0.0 && RotZ(p, s, c, h) != FieldOfView(h)
    ensures r.size * (FieldOfView(h) - RotZ(p, s, c, h)) == FieldOfView(h)
    ensures r.size > 0.0 <==> RotZ(p, s, c, h) < FieldOfView(h)
    ensures r.x - w / 2.0 == RotX(p, s, c, h) * r.size && r.y - h / 2.0 == p.y * r.size
  {
    var fov := FieldOfView(h);
    var d := fov - RotZ(p, s, c, h);
    var size := fov / d;
    QuotientSign(fov, d);
    Projection3D(RotX(p, s, c, h) * size + w / 2.0, p.y * size + h / 2.0, size)
  }

  /** A positive number over a divisor has the divisor's sign. */
  lemma QuotientSign(f: real, d: real)
    requires f > 0.0 && d != 0.0
    ensures (f / d) * d == f
    ensures f / d > 0.0 <==> d > 0.0
  {
    var q := f / d;
    assert q * d == f;
    if d > 0.0 && q <= 0.0 {
      MulNonNeg(-q, d);
    }
    if d < 0.0 && q > 0.0 {
      MulNonNeg(q, -d);
    }
  }

  /**
   * Every point of a globe no larger than 0.65h stays in front of the eye, however the globe
   * has turned: its rotated depth is at most 0.25h, below the field of view 0.8h.
   */
  lemma InFront(p: Point3D, s: real, c: real, h: real, r: real)
    requires h > 0.0 && s * s + c * c == 1.0
    requires 0.0 <= r <= MaxGlobeRadius(h) && DistSq(p, h) == r * r
    ensures RotZ(p, s, c, h) <= GlobeCenterZ(h) + r < FieldOfView(h)
  {
    var x := p.x;
    var w := p.z - GlobeCenterZ(h);
    var t := -s * x + c * w;
    var u := c * x + s * w;
    RotationNorm(s, c, x, w);
    assert t * t + u * u == x * x + w * w;
    SquareNonNeg(p.y);
    SquareNonNeg(u);
    assert x * x + w * w <= r * r;
    SquareBound(t, r);
    assert RotZ(p, s, c, h) == t + GlobeCenterZ(h);
  }

  /**
   * A dot moved onto the globe of radius `radius` along its own angles and projected with the
   * frame's rotation; its projected size is positive.
   */
  function MovedDot(m: Maths, w: real, h: real, d: Dot, radius: real, s: real, c: real): (r: Dot)
    requires Lawful(m) && h > 0.0 && s * s + c * c == 1.0
    requires 0.0 <= radius <= MaxGlobeRadius(h)
    ensures r.theta == d.theta && r.phi == d.phi
    ensures r.location == SphericalPoint(m, radius, d.theta, d.phi, h)
    ensures DistSq(r.location, h) == radius * radius
    ensures RotZ(r.location, s, c, h) < FieldOfView(h) && r.projection == Project(w, h, r.location, s, c)
    ensures r.projection.size > 0.0
  {
    var location := SphericalPoint(m, radius, d.theta, d.phi, h);
    InFront(location, s, c, h, radius);
    Dot(location, Project(w, h, location, s, c), d.theta, d.phi)
  }

  /** A fresh dot from two random numbers: azimuth from the first, polar angle from the second. */
  function NewDot(m: Maths, radius: real, h: real, u: real, v: real): (d: Dot)
    ensures d.projection == Projection3D(0.0, 0.0, 0.0)
    ensures d.theta == u * 2.0 * m.pi && d.phi == m.acos(v * 2.0 - 1.0)
    ensures d.location == SphericalPoint(m, radius, d.theta, d.phi, h)
  {
    var theta := u * 2.0 * m.pi;
    var phi := m.acos(v * 2.0 - 1.0);
    CreateDot(SphericalPoint(m, radius, theta, phi, h), theta, phi)
  }

  /** With random numbers in [0, 1) the angles cover [0, 2 pi) and [0, pi]. */
  lemma NewDotAngles(m: Maths, radius: real, h: real, u: real, v: real)
    requires Lawful(m) && 0.0 <= u < 1.0 && 0.0 <= v < 1.0
    ensures 0.0 <= NewDot(m, radius, h, u, v).theta < 2.0 * m.pi
    ensures 0.0 <= NewDot(m, radius, h, u, v).phi <= m.pi
    ensures DistSq(NewDot(m, radius, h, u, v).location, h) == radius * radius
  {
    var d := NewDot(m, radius, h, u, v);
    AzimuthRange(u, m.pi, d.theta);
    var c := v * 2.0 - 1.0;
    assert -1.0 <= c <= 1.0;
    assert d.phi == m.acos(c);
  }

  /** A random number in [0, 1) scaled by 2 pi is an azimuth in [0, 2 pi). */
  lemma AzimuthRange(u: real, pi: real, theta: real)
    requires pi > 0.0 && 0.0 <= u < 1.0 && theta == u * 2.0 * pi
    ensures 0.0 <= theta < 2.0 * pi
  {
    var tp := 2.0 * pi;
    assert theta == u * tp;
    MulNonNeg(u, tp);
    MulPos(1.0 - u, tp);
  }

  /** The dot `createDots` builds from its spelled-out coordinates is `NewDot`. */
  lemma CreatedDotIsNewDot(m: Maths, radius: real, h: real, u: real, v: real,
                           theta: real, phi: real, x: real, y: real, z: real)
    requires theta == u * 2.0 * m.pi && phi == m.acos(v * 2.0 - 1.0)
    requires x == radius * m.sin(phi) * m.cos(theta)
    requires y == radius * m.sin(phi) * m.sin(theta)
    requires z == radius * m.cos(phi) + GlobeCenterZ(h)
    ensures CreateDot(Point3D(x, y, z), theta, phi) == NewDot(m, radius, h, u, v)
  {
    var d := NewDot(m, radius, h, u, v);
    assert d.theta == theta && d.phi == phi;
    var p := SphericalPoint(m, radius, theta, phi, h);
    assert p.x == x && p.y == y && p.z == z;
    assert d.location == p;
  }

  function NewDots(m: Maths, radius: real, h: real, randoms: seq<real>): (ds: seq<Dot>)
    requires |randoms| == 2 * DotsAmount
    ensures |ds| == DotsAmount
    ensures forall k :: 0 <= k < DotsAmount ==> ds[k] == NewDot(m, radius, h, randoms[2 * k], randoms[2 * k + 1])
  {
    seq(DotsAmount, k requires 0 <= k < DotsAmount => NewDot(m, radius, h, randoms[2 * k], randoms[2 * k + 1]))
  }

  function DotScale(isActive: bool): real {
    if isActive then MaxDotRadius else MinDotRadius
  }

  /** `draw`: a circle at the projected position, radius and opacity scaled by the projection. */
  function Draw(d: Dot, dotRadius: real, color: string): (call: DrawCall)
    ensures call.x == d.projection.x && call.y == d.projection.y && call.color == color
    ensures call.alpha == d.projection.size && call.arcRadius == dotRadius * d.projection.size
  {
    DrawCall(d.projection.x, d.projection.y, dotRadius * d.projection.size, d.projection.size, color)
  }

  /** Everything one frame's dots depend on besides the dots themselves. */
  datatype FrameSetting = FrameSetting(
    width: real, height: real, maths: Maths, noise3D: (real, real, real) -> real,
    time: real, rotation: real, radius: real, isActive: bool, factor: real)

  /** A setting the orb can reach: a visible canvas, lawful maths, a radius between its sizes. */
  ghost predicate Reachable(f: FrameSetting) {
    && f.height > 0.0
    && Lawful(f.maths)
    && InactiveGlobeRadius(f.height) <= f.radius <= ActiveGlobeRadius(f.height)
  }

  /** The noise sampled at a dot's position of the previous frame. */
  function DotNoise(f: FrameSetting, d: Dot): real {
    f.noise3D(d.location.x / 80.0, d.location.y / 80.0, f.time * 0.001)
  }

  /** Where a dot goes in a frame: onto the animated radius along its own angles, projected. */
  function AnimatedDot(f: FrameSetting, d: Dot): (r: Dot)
    requires Reachable(f)
    ensures r.theta == d.theta && r.phi == d.phi
    ensures r.location == SphericalPoint(f.maths, AnimatedRadius(f.isActive, f.radius, DotNoise(f, d), f.factor, f.height), d.theta, d.phi, f.height)
    ensures r.projection.size > 0.0
  {
    var radius := AnimatedRadius(f.isActive, f.radius, DotNoise(f, d), f.factor, f.height);
    Pythagoras(f.maths, f.rotation);
    MovedDot(f.maths, f.width, f.height, d, radius, f.maths.sin(f.rotation), f.maths.cos(f.rotation))
  }

  /** The circle drawn for a dot in a frame, coloured by the noise at its old position. */
  function DotCall(f: FrameSetting, d: Dot): (call: DrawCall)
    requires Reachable(f)
    ensures call.alpha > 0.0 && call.color in Palette
    ensures call.arcRadius == DotScale(f.isActive) * call.alpha
    ensures call.x == AnimatedDot(f, d).projection.x && call.y == AnimatedDot(f, d).projection.y
  {
    Draw(AnimatedDot(f, d), DotScale(f.isActive), ColorByNoise(DotNoise(f, d)))
  }

  /** The body of the frame's loop over the dots: move one dot and draw it. */
  method AnimateDot(f: FrameSetting, dot: Dot, s: real, c: real) returns (moved: Dot, call: DrawCall)
    requires Reachable(f) && s == f.maths.sin(f.rotation) && c == f.maths.cos(f.rotation)
    ensures moved == AnimatedDot(f, dot)
    ensures call == DotCall(f, dot)
  {
    var noiseValue := f.noise3D(dot.location.x / 80.0, dot.location.y / 80.0, f.time * 0.001);
    var color := ColorByNoise(noiseValue);
    var radius := AnimatedRadius(f.isActive, f.radius, noiseValue, f.factor, f.height);
    Pythagoras(f.maths, f.rotation);
    moved := MovedDot(f.maths, f.width, f.height, dot, radius, s, c);
    call := Draw(moved, DotScale(f.isActive), color);
  }

  class Orb {
    const width: real
    const height: real
    const maths: Maths
    const noise3D: (real, real, real) -> real
    var rotation: real
    var currentRadius: real
    var dots: seq<Dot>

    /** The scene's settings: a positive height, lawful maths and a radius within its band. */
    ghost predicate ValidSettings()
      reads this
    {
      && height > 0.0
      && Lawful(maths)
      && InactiveGlobeRadius(height) <= currentRadius <= ActiveGlobeRadius(height)
    }

    ghost predicate Valid()
      reads this
    {
      ValidSettings() && |dots| == DotsAmount
    }

    /** The setting of a frame at `time` drawn from the orb's current rotation and radius. */
    function Setting(time: real, isActive: bool, factor: real): (f: FrameSetting)
      reads this
      ensures Valid() ==> Reachable(f)
    {
      FrameSetting(width, height, maths, noise3D, time, rotation, currentRadius, isActive, factor)
    }

    /** `orb`: the scene starts unrotated at radius 0.35h and fills the globe with dots. */
    constructor (width: real, height: real, maths: Maths, noise3D: (real, real, real) -> real, randoms: seq<real>)
      requires height > 0.0 && Lawful(maths)
      requires |randoms| == 2 * DotsAmount
      ensures Valid()
      ensures this.width == width && this.height == height && this.maths == maths && this.noise3D == noise3D
      ensures rotation == 0.0 && currentRadius == MinGlobeRadius(height)
      ensures dots == NewDots(maths, MinGlobeRadius(height), height, randoms)
    {
      this.width := width;
      this.height := height;
      this.maths := maths;
      this.noise3D := noise3D;
      rotation := 0.0;
      currentRadius := MinGlobeRadius(height);
      dots := [];
      new;
      CreateDots(randoms);
    }

    /** Replaces every dot with a fresh one on the globe of the current radius. */
    method CreateDots(randoms: seq<real>)
      requires ValidSettings() && |randoms| == 2 * DotsAmount
      modifies this
      ensures Valid()
      ensures dots == NewDots(maths, currentRadius, height, randoms)
      ensures rotation == old(rotation) && currentRadius == old(currentRadius)
    {
      dots := [];
      var i := 0;
      while i < DotsAmount
        invariant 0 <= i <= DotsAmount && |dots| == i
        invariant forall k :: 0 <= k < i ==> dots[k] == NewDot(maths, currentRadius, height, randoms[2 * k], randoms[2 * k + 1])
        invariant rotation == old(rotation) && currentRadius == old(currentRadius)
      {
        var theta := randoms[2 * i] * 2.0 * maths.pi;
        var phi := maths.acos(randoms[2 * i + 1] * 2.0 - 1.0);
        var x := currentRadius * maths.sin(phi) * maths.cos(theta);
        var y := currentRadius * maths.sin(phi) * maths.sin(theta);
        var z := currentRadius * maths.cos(phi) + GlobeCenterZ(height);
        CreatedDotIsNewDot(maths, currentRadius, height, randoms[2 * i], randoms[2 * i + 1], theta, phi, x, y, z);
        dots := dots + [CreateDot(Point3D(x, y, z), theta, phi)];
        i := i + 1;
      }
      assert dots == NewDots(maths, currentRadius, height, randoms);
    }

    /**
     * `render` at time `time`: smooth the radius towards its target, set the rotation, read the
     * analyser, then move, project and draw every dot. A failing average stops the frame before
     * any dot is touched.
     */
    method Frame(time: real, state: AudioState, frequencies: seq<byte>)
      returns (result: Result<seq<DrawCall>, string>, filled: Option<seq<byte>>)
      requires Valid()
      modifies this
      ensures Valid()
      ensures currentRadius == Smooth(old(currentRadius), TargetRadius(state.isActive, height))
      ensures rotation == time * 0.0002
      ensures filled == FilledData(state, frequencies)
      ensures result.Failure? <==> NoiseFactor(state, frequencies).Failure?
      ensures result.Failure? ==> dots == old(dots)
      ensures result.Success? ==> |dots| == |old(dots)| && |result.value| == |dots|
      ensures result.Success? ==> var f := Setting(time, state.isActive, NoiseFactor(state, frequencies).value);
        forall j :: 0 <= j < |dots| ==> dots[j] == AnimatedDot(f, old(dots)[j]) && result.value[j] == DotCall(f, old(dots)[j])
    {
      SmoothKeepsBand(height, currentRadius, state.isActive);
      currentRadius := Smooth(currentRadius, TargetRadius(state.isActive, height));
      rotation := time * 0.0002;
      var s := maths.sin(rotation);
      var c := maths.cos(rotation);
      filled := FilledData(state, frequencies);
      var factor := NoiseFactor(state, frequencies);
      if factor.Failure? {
        return Failure(factor.error), filled;
      }
      var f := Setting(time, state.isActive, factor.value);
      var next := dots;
      var calls: seq<DrawCall> := [];
      var i := 0;
      while i < |next|
        invariant 0 <= i <= |next| && |next| == |dots| && |calls| == i
        invariant forall j :: 0 <= j < i ==> next[j] == AnimatedDot(f, dots[j]) && calls[j] == DotCall(f, dots[j])
        invariant forall j :: i <= j < |next| ==> next[j] == dots[j]
        modifies {}
      {
        var moved, call := AnimateDot(f, next[i], s, c);
        next := next[i := moved];
        calls := calls + [call];
        i := i + 1;
      }
      dots := next;
      result := Success(calls);
    }
  }
}
