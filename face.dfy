/** `Face`: a head circle with two eye circles and a semicircle mouth at fixed
    ratios of the head, a velocity, and a 3x3 transform that `translate`
    advances by velocity times elapsed seconds. */
module FaceModel {
  import opened Wrappers
  import opened WgpuMatrix
  import opened Geometry
  import Colors

  /** The four primitives of a face, in the order `getCircles` yields them. */
  datatype Features = Features(head: Primitive, leftEye: Primitive, rightEye: Primitive, mouth: Primitive) {
    function List(): (cs: seq<Primitive>)
      ensures |cs| == 4
    {
      [head, leftEye, rightEye, mouth]
    }
  }

  /** The primitives the constructor builds, each placed from the head's own
      centre and radius. */
  function FeaturesOf(centerX: real, centerY: real, radius: real, color: Colors.Color, eyeMouthColor: Colors.Color): (f: Features)
    ensures f.head == NewCircle(centerX, centerY, radius, color)
    ensures f.leftEye == NewCircle(centerX - 3.0 * radius / 8.0, centerY + radius / 8.0, radius / 8.0, eyeMouthColor)
    ensures f.rightEye == NewCircle(centerX + 3.0 * radius / 8.0, centerY + radius / 8.0, radius / 8.0, eyeMouthColor)
    ensures f.mouth == NewSemiCircle(centerX, centerY, radius / 4.0, eyeMouthColor, 180.0)
  {
    var head := NewCircle(centerX, centerY, radius, color);
    Features(
      head,
      NewCircle(head.center[0] - (3.0 / 8.0) * head.radius, head.center[1] + head.radius / 8.0, head.radius / 8.0, eyeMouthColor),
      NewCircle(head.center[0] + (3.0 / 8.0) * head.radius, head.center[1] + head.radius / 8.0, head.radius / 8.0, eyeMouthColor),
      NewSemiCircle(head.center[0], head.center[1], head.radius / 4.0, eyeMouthColor, 180.0))
  }

  function Abs(x: real): (a: real)
    ensures a >= 0.0 && (a == x || a == -x)
  {
    if x < 0.0 then -x else x
  }

  /** Disc (c, r) lies inside the disc (hc, hr): its centre is within
      hr - r of hc, since the distance between centres is at most the sum
      of the coordinate differences. */
  predicate Inside(c: seq<real>, r: real, hc: seq<real>, hr: real)
    requires |c| == 2 && |hc| == 2
  {
    0.0 <= r && Abs(c[0] - hc[0]) + Abs(c[1] - hc[1]) + r <= hr
  }

  /** The interiors of discs (c, r) and (d, s) do not meet: along one axis
      the centres are at least r + s apart. */
  predicate Apart(c: seq<real>, r: real, d: seq<real>, s: real)
    requires |c| == 2 && |d| == 2
  {
    Abs(c[0] - d[0]) >= r + s || Abs(c[1] - d[1]) >= r + s
  }

  /** The face is drawn consistently: every feature lies inside the head,
      and no two features overlap. */
  lemma FeaturesInsideHead(cx: real, cy: real, r: real, color: Colors.Color, eyeMouthColor: Colors.Color)
    requires r >= 0.0
    ensures var f := FeaturesOf(cx, cy, r, color, eyeMouthColor);
      && Inside(f.leftEye.center, f.leftEye.radius, f.head.center, f.head.radius)
      && Inside(f.rightEye.center, f.rightEye.radius, f.head.center, f.head.radius)
      && Inside(f.mouth.center, f.mouth.radius, f.head.center, f.head.radius)
      && Apart(f.leftEye.center, f.leftEye.radius, f.rightEye.center, f.rightEye.radius)
      && Apart(f.leftEye.center, f.leftEye.radius, f.mouth.center, f.mouth.radius)
      && Apart(f.rightEye.center, f.rightEye.radius, f.mouth.center, f.mouth.radius)
  {
  }

  /** `getCircles` of a freshly built face: head, left eye, right eye and
      mouth in that order; the first three are full circles, the mouth a
      semicircle from 180 degrees; each carries a 512-float vertex array. */
  lemma FaceCircles(cx: real, cy: real, r: real, color: Colors.Color, eyeMouthColor: Colors.Color)
    ensures var f := FeaturesOf(cx, cy, r, color, eyeMouthColor);
      var cs := f.List();
      && cs == [f.head, f.leftEye, f.rightEye, f.mouth]
      && cs[0].kind == Full && cs[1].kind == Full && cs[2].kind == Full && cs[3].kind == Semi(180.0)
      && cs[0].radius == r && cs[1].radius == r / 8.0 && cs[2].radius == r / 8.0 && cs[3].radius == r / 4.0
      && cs[3].props == [cx, cy, r / 4.0, 180.0]
      && forall k :: 0 <= k < 4 ==> |cs[k].vertices| == 512
  {
  }

  /** The translation vector for moving from time `from` to time `to` (in
      milliseconds) at the given velocity (per second). */
  function Displacement(vx: real, vy: real, from: real, to: real): (d: seq<real>)
    ensures |d| == 2
    ensures d[0] * 1000.0 == vx * (to - from) && d[1] * 1000.0 == vy * (to - from)
  {
    var timeDelta := (to - from) * 0.001;
    [vx * timeDelta, vy * timeDelta]
  }

  ghost predicate IsTransform(m: Mat) {
    m.Valid() && m.columns == 3 && m.rows == 3
  }

  /** The transform after one `translate(to)` from time `from`. */
  function Moved(m: Mat, vx: real, vy: real, from: real, to: real): (r: Mat)
    requires IsTransform(m)
    ensures IsTransform(r)
  {
    Product(TranslationMat(3, Displacement(vx, vy, from, to)), m)
  }

  /** The transform after `translate` at each of the given times in turn. */
  function Drift(m: Mat, vx: real, vy: real, from: real, times: seq<real>): (r: Mat)
    requires IsTransform(m)
    ensures IsTransform(r)
    decreases |times|
  {
    if times == [] then m
    else Drift(Moved(m, vx, vy, from, times[0]), vx, vy, times[0], times[1..])
  }

  function Last(from: real, times: seq<real>): real {
    if times == [] then from else times[|times| - 1]
  }

  /** One update from a translation is again a translation. */
  lemma MovedTranslation(d: seq<real>, vx: real, vy: real, from: real, to: real)
    requires |d| == 2
    ensures Moved(TranslationMat(3, d), vx, vy, from, to) == TranslationMat(3, Sum(d, Displacement(vx, vy, from, to)))
  {
    TranslationCompose(3, d, Displacement(vx, vy, from, to));
  }

  /** Displacements over consecutive intervals add up. */
  lemma DisplacementAdds(d: seq<real>, vx: real, vy: real, t0: real, t1: real, t2: real)
    requires |d| == 2
    ensures Sum(Sum(d, Displacement(vx, vy, t0, t1)), Displacement(vx, vy, t1, t2)) == Sum(d, Displacement(vx, vy, t0, t2))
  {
    var a, b, c := Displacement(vx, vy, t0, t1), Displacement(vx, vy, t1, t2), Displacement(vx, vy, t0, t2);
    assert (a[0] + b[0]) * 1000.0 == c[0] * 1000.0;
    assert (a[1] + b[1]) * 1000.0 == c[1] * 1000.0;
  }

  /** However the updates are spaced, a translation accumulates the
      displacement for the whole time elapsed since `from`. */
  lemma {:induction false} DriftIsOneTranslation(d: seq<real>, vx: real, vy: real, from: real, times: seq<real>)
    requires |d| == 2
    ensures Drift(TranslationMat(3, d), vx, vy, from, times)
         == TranslationMat(3, Sum(d, Displacement(vx, vy, from, Last(from, times))))
    decreases |times|
  {
    if times == [] {
      assert Sum(d, Displacement(vx, vy, from, from)) == d;
    } else {
      var next := Sum(d, Displacement(vx, vy, from, times[0]));
      MovedTranslation(d, vx, vy, from, times[0]);
      DriftIsOneTranslation(next, vx, vy, times[0], times[1..]);
      assert Last(times[0], times[1..]) == Last(from, times);
      DisplacementAdds(d, vx, vy, from, times[0], Last(from, times));
    }
  }

  /** The identity is the translation by zero. */
  lemma IdentityIsZeroTranslation()
    ensures IdentityMat(3) == TranslationMat(3, [0.0, 0.0])
  {
    MatExtensional(IdentityMat(3), TranslationMat(3, [0.0, 0.0]));
  }

  /** From the identity transform a face created at `from` has, after any
      sequence of `translate` calls, moved by velocity times the time since
      `from` up to the last call. */
  lemma DriftFromCreation(vx: real, vy: real, from: real, times: seq<real>)
    ensures Drift(IdentityMat(3), vx, vy, from, times)
         == TranslationMat(3, Displacement(vx, vy, from, Last(from, times)))
  {
    IdentityIsZeroTranslation();
    DriftIsOneTranslation([0.0, 0.0], vx, vy, from, times);
    assert Sum([0.0, 0.0], Displacement(vx, vy, from, Last(from, times)))
        == Displacement(vx, vy, from, Last(from, times));
  }

  class Face {
    var head: Primitive
    var leftEye: Primitive
    var rightEye: Primitive
    var mouth: Primitive
    var velocityX: real
    var velocityY: real
    var transform: Matrix
    var transformBuffer: Option<Handle>
    var timeCreated: real
    var timeModified: real

    ghost predicate Valid()
      reads this, transform
    {
      transform.Valid() && transform.columns == 3 && transform.rows == 3
    }

    /** `new Face(...)`; `now` is the clock reading the constructor takes from
        `performance.now()`. */
    constructor (centerX: real, centerY: real, radius: real, velocityX: real, velocityY: real,
                 color: Colors.Color, eyeMouthColor: Colors.Color, now: real)
      ensures Valid() && fresh(transform)
      ensures Features(head, leftEye, rightEye, mouth) == FeaturesOf(centerX, centerY, radius, color, eyeMouthColor)
      ensures this.velocityX == velocityX && this.velocityY == velocityY
      ensures transform.Value() == IdentityMat(3)
      ensures transformBuffer.None?
      ensures timeCreated == now && timeModified == now
    {
      var f := FeaturesOf(centerX, centerY, radius, color, eyeMouthColor);
      head, leftEye, rightEye, mouth := f.head, f.leftEye, f.rightEye, f.mouth;
      this.velocityX, this.velocityY := velocityX, velocityY;
      var m := Matrix.New(3.0, 3.0, None);
      assert m.Success?;
      var o := m.value.Identity();
      assert o.Pass?;
      transform := m.value;
      transformBuffer := None;
      timeCreated := now;
      timeModified := now;
    }

    /** `getCircles`: the four primitives in drawing order. */
    function Circles(): (cs: seq<Primitive>)
      reads this
      ensures cs == Features(head, leftEye, rightEye, mouth).List()
    {
      [head, leftEye, rightEye, mouth]
    }

    method SetTransformBuffer(buffer: Handle)
      modifies this
      ensures transformBuffer == Some(buffer)
      ensures head == old(head) && leftEye == old(leftEye) && rightEye == old(rightEye) && mouth == old(mouth)
      ensures velocityX == old(velocityX) && velocityY == old(velocityY)
      ensures transform == old(transform)
      ensures timeCreated == old(timeCreated) && timeModified == old(timeModified)
    {
      transformBuffer := Some(buffer);
    }

    /** `translate(time)`: composes the translation by velocity times the
        seconds since the last update into the transform. */
    method Translate(time: real)
      requires Valid()
      modifies this, transform
      ensures Valid() && transform == old(transform)
      ensures transform.Value() == Moved(old(transform.Value()), velocityX, velocityY, old(timeModified), time)
      ensures timeModified == time
      ensures head == old(head) && leftEye == old(leftEye) && rightEye == old(rightEye) && mouth == old(mouth)
      ensures velocityX == old(velocityX) && velocityY == old(velocityY)
      ensures timeCreated == old(timeCreated) && transformBuffer == old(transformBuffer)
    {
      var o := transform.Translate(Displacement(velocityX, velocityY, timeModified, time));
      assert o.Pass?;
      timeModified := time;
    }
  }
}
