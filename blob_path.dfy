/**
 * The decorative blob shapes of the "generate" screen (app/routes/recordings.new.tsx, the
 * blob generator): points on a jittered circle joined into a closed SVG path of quadratic curves.
 */
module BlobPath {
  import opened Wrappers
  import opened Numeric
  import opened Decimal

  /** `randomFloatBetween(min, max, seed)`: the point a fraction `seed` of the way from min to max. */
  function RandomFloatBetween(min: real, max: real, seed: real): (r: real)
    ensures 0.0 <= seed <= 1.0 && min <= max ==> min <= r <= max
    ensures seed == 0.0 ==> r == min
    ensures seed == 1.0 ==> r == max
  {
    var offset := seed * (max - min);
    FractionBetween(min, max, seed, offset);
    min + offset
  }

  lemma FractionBetween(min: real, max: real, seed: real, offset: real)
    requires offset == seed * (max - min)
    ensures 0.0 <= seed <= 1.0 && min <= max ==> 0.0 <= offset <= max - min
    ensures seed == 0.0 ==> offset == 0.0
    ensures seed == 1.0 ==> offset == max - min
  {
    if 0.0 <= seed <= 1.0 && min <= max {
      MulNonNeg(seed, max - min);
      MulNonNeg(1.0 - seed, max - min);
    }
  }

  /** Larger seeds give larger values when min < max. */
  lemma RandomFloatBetweenMonotonic(min: real, max: real, s1: real, s2: real)
    requires min < max && s1 < s2
    ensures RandomFloatBetween(min, max, s1) < RandomFloatBetween(min, max, s2)
  {
    var d := max - min;
    var p1, p2 := s1 * d, s2 * d;
    ScaledIncreasing(s1, s2, d, p1, p2);
    assert RandomFloatBetween(min, max, s1) == min + p1;
    assert RandomFloatBetween(min, max, s2) == min + p2;
  }

  lemma ScaledIncreasing(s1: real, s2: real, d: real, p1: real, p2: real)
    requires s1 < s2 && d > 0.0 && p1 == s1 * d && p2 == s2 * d
    ensures p1 < p2
  {
    MulPos(s2 - s1, d);
    assert p2 - p1 == (s2 - s1) * d;
  }

  /** `randomIntBetween(min, max, seed)`: the floor of the float between. */
  function RandomIntBetween(min: real, max: real, seed: real): (r: int)
    ensures r as real <= RandomFloatBetween(min, max, seed) < r as real + 1.0
  {
    Floor(RandomFloatBetween(min, max, seed))
  }

  /** With integral bounds and a seed in [0, 1), the result is an integer in [min, max). */
  lemma RandomIntBetweenRange(min: int, max: int, seed: real)
    requires min <= max && 0.0 <= seed < 1.0
    ensures min <= RandomIntBetween(min as real, max as real, seed) <= max
    ensures min < max ==> RandomIntBetween(min as real, max as real, seed) < max
  {
    var f := RandomFloatBetween(min as real, max as real, seed);
    if min < max {
      MulMono((max - min) as real, seed, 1.0);
      assert seed * (max - min) as real == (max - min) as real * seed;
      MulPos((max - min) as real, 1.0 - seed);
      assert (max - min) as real * (1.0 - seed) == (max - min) as real - (max - min) as real * seed;
    }
  }

  /** `Blob` draws its number of edges with `randomIntBetween(8, 36, seed)`: between 8 and 35. */
  lemma BlobEdges(seed: real)
    requires 0.0 <= seed < 1.0
    ensures 8 <= RandomIntBetween(8.0, 36.0, seed) <= 35
  {
    RandomIntBetweenRange(8, 36, seed);
  }

  /** `toRad`. */
  function ToRad(m: Maths, deg: real): real {
    deg * (m.pi / 180.0)
  }

  /** `divide(count)`: `count` equally spaced angles in degrees, starting at 0. */
  function Divide(count: nat): (r: seq<real>)
    ensures |r| == count
    ensures count > 0 ==> r[0] == 0.0
    ensures forall i :: 0 <= i < count ==> 0.0 <= r[i] < 360.0
    ensures forall i :: 0 <= i < count - 1 ==> r[i + 1] - r[i] == 360.0 / count as real
  {
    if count == 0 then []
    else
      var deg := 360.0 / count as real;
      var angles := seq(count, i => i as real * deg);
      assert forall i :: 0 <= i < count ==> angles[i] < 360.0 by {
        forall i | 0 <= i < count ensures angles[i] < 360.0 {
          MulPos((count - i) as real, deg);
          assert count as real * deg == 360.0;
          assert (count - i) as real * deg == count as real * deg - i as real * deg;
        }
      }
      angles
  }

  /** The angles `divide` returns are strictly increasing. */
  lemma {:induction false} DivideIncreasing(count: nat, i: nat, j: nat)
    requires i < j < count
    ensures Divide(count)[i] < Divide(count)[j]
    decreases j - i
  {
    if j > i + 1 {
      DivideIncreasing(count, i, j - 1);
    }
  }

  /** `point({ origin, radius, degree })`: the rounded point at `degree` on the circle of `radius` around (origin, origin). */
  function Point(m: Maths, origin: real, radius: real, degree: real): (p: (int, int))
    requires Lawful(m)
    ensures Abs(p.0 as real - origin) <= Abs(radius) + 0.5
    ensures Abs(p.1 as real - origin) <= Abs(radius) + 0.5
  {
    var c := m.cos(ToRad(m, degree));
    var s := m.sin(ToRad(m, degree));
    assert Abs(radius * c) <= Abs(radius) by { BoundedProduct(radius, c); }
    assert Abs(radius * s) <= Abs(radius) by { BoundedProduct(radius, s); }
    (Round(origin + radius * c), Round(origin + radius * s))
  }

  /** The inner radius of a blob: the outer radius shrunk by a growth of up to one half. */
  function InnerRadius(size: real, seed: real): (r: real)
    requires 0.0 <= seed <= 1.0 && size >= 0.0
    ensures 0.0 <= r <= size / 2.0
  {
    var origin := size / 2.0;
    var growth := RandomFloatBetween(0.0, 0.5, seed);
    ShrinkBound(origin, growth);
    origin - origin * growth
  }

  lemma ShrinkBound(origin: real, growth: real)
    requires origin >= 0.0 && 0.0 <= growth <= 0.5
    ensures 0.0 <= origin * growth <= origin
  {
    MulMono(origin, growth, 0.5);
    MulNonNeg(origin, growth);
  }

  /**
   * `createPoints`: one point per slice of the circle, at a random radius between the inner and
   * outer radius. `seed ?? Math.random()` is `seed.GetOr(random)`; `randoms` are the draws the loop makes.
   */
  method CreatePoints(m: Maths, size: real, edges: nat, seed: Option<real>, random: real, randoms: seq<real>)
    returns (destPoints: seq<(int, int)>, seedValue: real)
    requires Lawful(m)
    requires |randoms| == edges
    requires 0.0 <= seed.GetOr(random) <= 1.0 && size >= 0.0
    requires forall k :: 0 <= k < |randoms| ==> 0.0 <= randoms[k] <= 1.0
    ensures seedValue == seed.GetOr(random)
    ensures |destPoints| == edges
    ensures forall k :: 0 <= k < edges ==>
              destPoints[k] == Point(m, size / 2.0, RandomFloatBetween(InnerRadius(size, seedValue), size / 2.0, randoms[k]), Divide(edges)[k])
    // every point lies within the outer radius (plus rounding) of the centre
    ensures forall k :: 0 <= k < edges ==>
              Abs(destPoints[k].0 as real - size / 2.0) <= size / 2.0 + 0.5 &&
              Abs(destPoints[k].1 as real - size / 2.0) <= size / 2.0 + 0.5
  {
    seedValue := seed.GetOr(random);
    var growth := RandomFloatBetween(0.0, 0.5, seedValue);
    var origin := size / 2.0;
    var outerRad := origin;
    var innerRad := origin - origin * growth;
    assert innerRad == InnerRadius(size, seedValue);
    var slices := Divide(edges);
    destPoints := [];
    var k := 0;
    while k < |slices|
      invariant 0 <= k <= |slices|
      invariant |destPoints| == k
      invariant forall j :: 0 <= j < k ==> destPoints[j] == Point(m, origin, RandomFloatBetween(innerRad, outerRad, randoms[j]), slices[j])
      invariant forall j :: 0 <= j < k ==>
                  Abs(destPoints[j].0 as real - origin) <= origin + 0.5 &&
                  Abs(destPoints[j].1 as real - origin) <= origin + 0.5
    {
      var o := RandomFloatBetween(innerRad, outerRad, randoms[k]);
      var end := Point(m, origin, o, slices[k]);
      destPoints := destPoints + [end];
      k := k + 1;
    }
  }

  /**
   * A number that is an integer or an integer and a half, rendered as JavaScript prints it;
   * `twice` is twice the number. Midpoints of integer points are of this kind.
   */
  function HalfToString(twice: int): (s: string)
  {
    if twice % 2 == 0 then IntToString(twice / 2)
    else if twice >= 0 then NatToString(twice / 2) + ".5"
    else "-" + NatToString((-twice) / 2) + ".5"
  }

  /** One `Q` segment of the loop: control point p1 = points[i+1], end point the middle of p1 and points[i+2]. */
  function Segment(points: seq<(int, int)>, i: nat): string
    requires |points| >= 1
  {
    Curve(points[(i + 1) % |points|], points[(i + 2) % |points|])
  }

  /** A quadratic curve with control point p1, ending in the middle of p1 and p2. */
  function Curve(p1: (int, int), p2: (int, int)): string {
    Command('Q', Joined(IntToString(p1.0), IntToString(p1.1), HalfToString(p1.0 + p2.0), HalfToString(p1.1 + p2.1)))
  }

  /** A path command: its letter, then its arguments. */
  function Command(letter: char, arguments: string): string {
    [letter] + arguments
  }

  /** Four numbers separated by commas. */
  function Joined(a: string, b: string, c: string, d: string): string {
    a + "," + b + "," + c + "," + d
  }

  /** The first `k` segments, in loop order. */
  function Segments(points: seq<(int, int)>, k: nat): string
    requires |points| >= 1
  {
    Concat(SegmentAt(points), k)
  }

  /** The segments of a loop of points, by index. */
  function SegmentAt(points: seq<(int, int)>): nat -> string
    requires |points| >= 1
  {
    (i: nat) => Segment(points, i)
  }

  /** The first `k` parts, joined in order. */
  function Concat(part: nat -> string, k: nat): string {
    if k == 0 then "" else Concat(part, k - 1) + part(k - 1)
  }

  lemma SegmentsStep(head: string, points: seq<(int, int)>, i: nat)
    requires |points| >= 1
    ensures head + Segments(points, i + 1) == head + Segments(points, i) + Segment(points, i)
  {
  }

  /** The opening move: to the middle of the first two points. */
  function MoveTo(points: seq<(int, int)>): string
    requires |points| >= 2
  {
    Command('M', HalfToString(points[0].0 + points[1].0) + "," + HalfToString(points[0].1 + points[1].1))
  }

  /** The path `createSvgPath` builds: move to the middle of the first two points, one curve per point, close. */
  function SvgPath(points: seq<(int, int)>): string
    requires |points| >= 2
  {
    MoveTo(points) + Segments(points, |points|) + "Z"
  }

  /** `createSvgPath(points)`; None models the TypeError that reading `points[1]` of a shorter list raises. */
  method CreateSvgPath(points: seq<(int, int)>) returns (path: Option<string>)
    ensures |points| < 2 <==> path.None?
    ensures |points| >= 2 ==> path == Some(SvgPath(points))
  {
    if |points| < 2 {
      return None;
    }
    var svgPath := "M" + HalfToString(points[0].0 + points[1].0) + "," + HalfToString(points[0].1 + points[1].1);
    assert svgPath == MoveTo(points);
    ghost var head := svgPath;
    var i := 0;
    while i < |points|
      invariant 0 <= i <= |points|
      invariant svgPath == head + Segments(points, i)
    {
      SegmentsStep(head, points, i);
      svgPath := svgPath + Segment(points, i);
      i := i + 1;
    }
    svgPath := svgPath + "Z";
    return Some(svgPath);
  }

  /** The number of occurrences of `c` in `s`. */
  function Count(s: string, c: char): nat {
    if |s| == 0 then 0 else (if s[0] == c then 1 else 0) + Count(s[1..], c)
  }

  lemma {:induction false} CountConcat(a: string, b: string, c: char)
    ensures Count(a + b, c) == Count(a, c) + Count(b, c)
  {
    if |a| == 0 {
      assert a + b == b;
    } else {
      assert (a + b)[0] == a[0];
      assert (a + b)[1..] == a[1..] + b;
      CountConcat(a[1..], b, c);
    }
  }

  /** A command letter in front of a string adds one occurrence of itself. */
  lemma CommandCount(command: char, s: string, letter: char)
    ensures Count(Command(command, s), letter) == (if command == letter then 1 else 0) + Count(s, letter)
  {
    assert Command(command, s)[1..] == s;
  }

  /** Characters that can occur in a rendered number. */
  predicate NumberText(s: string) {
    forall k :: 0 <= k < |s| ==> IsDigit(s[k]) || s[k] == '-' || s[k] == '.'
  }

  /** A letter that is neither a digit, a sign, a point nor a comma. */
  predicate IsLetter(c: char) {
    !IsDigit(c) && c != '-' && c != '.' && c != ','
  }

  lemma {:induction false} NumberTextHasNoLetter(s: string, c: char)
    requires NumberText(s) && IsLetter(c)
    ensures Count(s, c) == 0
  {
    if |s| > 0 {
      NumberTextHasNoLetter(s[1..], c);
    }
  }

  lemma HalfToStringIsNumber(twice: int)
    ensures NumberText(HalfToString(twice))
  {
  }

  lemma IntToStringIsNumber(i: int)
    ensures NumberText(IntToString(i))
  {
  }

  /** A curve command holds its letter once and, its arguments being numbers, no other letter. */
  lemma CurveLetters(a: string, b: string, c: string, d: string)
    requires NumberText(a) && NumberText(b) && NumberText(c) && NumberText(d)
    ensures Count(Command('Q', Joined(a, b, c, d)), 'Q') == 1
    ensures Count(Command('Q', Joined(a, b, c, d)), 'M') == 0 && Count(Command('Q', Joined(a, b, c, d)), 'Z') == 0
  {
    forall letter | IsLetter(letter) ensures Count(Command('Q', Joined(a, b, c, d)), letter) == if letter == 'Q' then 1 else 0 {
      JoinedLetters(a, b, c, d, letter);
      CommandCount('Q', Joined(a, b, c, d), letter);
    }
    assert IsLetter('Q') && IsLetter('M') && IsLetter('Z');
  }

  /** Comma-separated numbers hold no letter. */
  lemma JoinedLetters(a: string, b: string, c: string, d: string, letter: char)
    requires NumberText(a) && NumberText(b) && NumberText(c) && NumberText(d) && IsLetter(letter)
    ensures Count(Joined(a, b, c, d), letter) == 0
  {
    NumberTextHasNoLetter(a, letter);
    NumberTextHasNoLetter(b, letter);
    NumberTextHasNoLetter(c, letter);
    NumberTextHasNoLetter(d, letter);
    assert Count(",", letter) == 0;
    CountConcat(a, ",", letter);
    CountConcat(a + ",", b, letter);
    CountConcat(a + "," + b, ",", letter);
    CountConcat(a + "," + b + ",", c, letter);
    CountConcat(a + "," + b + "," + c, ",", letter);
    CountConcat(a + "," + b + "," + c + ",", d, letter);
  }

  /** The letters of the curve through p1 towards p2. */
  lemma CurveThroughLetters(p1: (int, int), p2: (int, int))
    ensures var q := Command('Q', Joined(IntToString(p1.0), IntToString(p1.1), HalfToString(p1.0 + p2.0), HalfToString(p1.1 + p2.1)));
            Count(q, 'Q') == 1 && Count(q, 'M') == 0 && Count(q, 'Z') == 0
  {
    IntToStringIsNumber(p1.0);
    IntToStringIsNumber(p1.1);
    HalfToStringIsNumber(p1.0 + p2.0);
    HalfToStringIsNumber(p1.1 + p2.1);
    CurveLetters(IntToString(p1.0), IntToString(p1.1), HalfToString(p1.0 + p2.0), HalfToString(p1.1 + p2.1));
  }

  lemma CurveLettersAt(p1: (int, int), p2: (int, int))
    ensures Count(Curve(p1, p2), 'Q') == 1 && Count(Curve(p1, p2), 'M') == 0 && Count(Curve(p1, p2), 'Z') == 0
  {
    CurveThroughLetters(p1, p2);
  }

  /** Each segment holds exactly one `Q` and no `M` or `Z`. */
  lemma SegmentLetters(points: seq<(int, int)>, i: nat)
    requires |points| >= 1
    ensures Count(Segment(points, i), 'Q') == 1 && Count(Segment(points, i), 'M') == 0 && Count(Segment(points, i), 'Z') == 0
  {
    CurveLettersAt(points[(i + 1) % |points|], points[(i + 2) % |points|]);
  }

  /** Joined parts that each hold one curve and no move or close hold one curve per part. */
  lemma {:induction false} ConcatLetters(part: nat -> string, k: nat)
    requires forall i :: 0 <= i < k ==> Count(part(i), 'Q') == 1 && Count(part(i), 'M') == 0 && Count(part(i), 'Z') == 0
    ensures Count(Concat(part, k), 'Q') == k
    ensures Count(Concat(part, k), 'M') == 0 && Count(Concat(part, k), 'Z') == 0
  {
    if k > 0 {
      ConcatLetters(part, k - 1);
      CountConcat(Concat(part, k - 1), part(k - 1), 'Q');
      CountConcat(Concat(part, k - 1), part(k - 1), 'M');
      CountConcat(Concat(part, k - 1), part(k - 1), 'Z');
    }
  }

  /** The first `k` segments hold `k` curves and no move or close. */
  lemma SegmentsLetters(points: seq<(int, int)>, k: nat)
    requires |points| >= 1
    ensures Count(Segments(points, k), 'Q') == k
    ensures Count(Segments(points, k), 'M') == 0 && Count(Segments(points, k), 'Z') == 0
  {
    var part := SegmentAt(points);
    forall i | 0 <= i < k
      ensures Count(part(i), 'Q') == 1 && Count(part(i), 'M') == 0 && Count(part(i), 'Z') == 0
    {
      SegmentLetters(points, i);
    }
    ConcatLetters(part, k);
  }

  /** A move command to two numbers holds its letter once and no other letter. */
  lemma MoveLetters(x: string, y: string)
    requires NumberText(x) && NumberText(y)
    ensures Count(Command('M', x + "," + y), 'M') == 1
    ensures Count(Command('M', x + "," + y), 'Q') == 0 && Count(Command('M', x + "," + y), 'Z') == 0
  {
    forall letter | IsLetter(letter) ensures Count(Command('M', x + "," + y), letter) == if letter == 'M' then 1 else 0 {
      NumberTextHasNoLetter(x, letter);
      NumberTextHasNoLetter(y, letter);
      assert Count(",", letter) == 0;
      CountConcat(x, ",", letter);
      CountConcat(x + ",", y, letter);
      CommandCount('M', x + "," + y, letter);
    }
    assert IsLetter('Q') && IsLetter('M') && IsLetter('Z');
  }

  lemma MoveThroughLetters(a: int, b: int)
    ensures var m := Command('M', HalfToString(a) + "," + HalfToString(b));
            Count(m, 'M') == 1 && Count(m, 'Q') == 0 && Count(m, 'Z') == 0
  {
    HalfToStringIsNumber(a);
    HalfToStringIsNumber(b);
    MoveLetters(HalfToString(a), HalfToString(b));
  }

  /** The opening move holds one `M` and no `Q` or `Z`. */
  lemma MoveToLetters(points: seq<(int, int)>)
    requires |points| >= 2
    ensures Count(MoveTo(points), 'M') == 1 && Count(MoveTo(points), 'Q') == 0 && Count(MoveTo(points), 'Z') == 0
  {
    MoveThroughLetters(points[0].0 + points[1].0, points[0].1 + points[1].1);
  }

  /** A move, then curves, then the close: the letters add up. */
  lemma PathLetters(head: string, segs: string, n: nat)
    requires Count(head, 'M') == 1 && Count(head, 'Q') == 0 && Count(head, 'Z') == 0
    requires Count(segs, 'Q') == n && Count(segs, 'M') == 0 && Count(segs, 'Z') == 0
    ensures Count(head + segs + "Z", 'Q') == n
    ensures Count(head + segs + "Z", 'M') == 1 && Count(head + segs + "Z", 'Z') == 1
  {
    assert Count("Z", 'Z') == 1 && Count("Z", 'Q') == 0 && Count("Z", 'M') == 0;
    CountConcat(head, segs, 'Q');
    CountConcat(head, segs, 'M');
    CountConcat(head, segs, 'Z');
    CountConcat(head + segs, "Z", 'Q');
    CountConcat(head + segs, "Z", 'M');
    CountConcat(head + segs, "Z", 'Z');
  }

  /** The path starts with its one move, ends with its one close, and has one curve per point. */
  lemma SvgPathShape(points: seq<(int, int)>)
    requires |points| >= 2
    ensures var path := SvgPath(points);
            && path[0] == 'M' && path[|path| - 1] == 'Z'
            && Count(path, 'Q') == |points|
            && Count(path, 'M') == 1 && Count(path, 'Z') == 1
  {
    MoveToLetters(points);
    SegmentsLetters(points, |points|);
    PathLetters(MoveTo(points), Segments(points, |points|), |points|);
  }

  /**
   * `blobGenerator`: size and edge count default to 400 and 6; a path exactly when there are
   * at least two edges, with one curve per edge.
   */
  method BlobGenerator(m: Maths, size: Option<real>, edges: Option<nat>, seed: Option<real>, random: real, randoms: seq<real>)
    returns (path: Option<string>, seedValue: real)
    requires Lawful(m)
    requires |randoms| == edges.GetOr(6)
    requires 0.0 <= seed.GetOr(random) <= 1.0 && size.GetOr(400.0) >= 0.0
    requires forall k :: 0 <= k < |randoms| ==> 0.0 <= randoms[k] <= 1.0
    ensures seedValue == seed.GetOr(random)
    ensures path.Some? <==> edges.GetOr(6) >= 2
    ensures path.Some? ==> Count(path.value, 'Q') == edges.GetOr(6) && Count(path.value, 'M') == 1 && Count(path.value, 'Z') == 1
    ensures edges.None? ==> path.Some? && Count(path.value, 'Q') == 6
  {
    var destPoints;
    destPoints, seedValue := CreatePoints(m, size.GetOr(400.0), edges.GetOr(6), seed, random, randoms);
    path := CreateSvgPath(destPoints);
    if edges.GetOr(6) >= 2 {
      SvgPathShape(destPoints);
    }
  }

  /** `Blob`: the seed picks 8 to 35 edges and a size of 92 to 108; the path then always exists. */
  method Blob(m: Maths, seed: real, random: real, randoms: seq<real>) returns (path: Option<string>)
    requires Lawful(m)
    requires 0.0 <= seed < 1.0 && 0.0 <= random <= 1.0
    requires |randoms| == RandomIntBetween(8.0, 36.0, seed)
    requires forall k :: 0 <= k < |randoms| ==> 0.0 <= randoms[k] <= 1.0
    ensures path.Some?
    ensures 8 <= Count(path.value, 'Q') <= 35
  {
    BlobEdges(seed);
    var edges: nat := RandomIntBetween(8.0, 36.0, seed);
    var size := RandomFloatBetween(92.0, 108.0, seed);
    var seedValue;
    path, seedValue := BlobGenerator(m, Some(size), Some(edges), None, random, randoms);
  }
}
