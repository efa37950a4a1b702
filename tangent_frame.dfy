/** TangentFrame: a rigid frame that also stores, along each of its three
    axes, a tangent pair, the tangent circle dual to it and a coordinate
    surface sphere, in three-element arrays updated in place. */
module Tangent {
  import opened Kernel

  /** A default-constructed sphere: every coefficient zero. */
  function ZeroSphere(): Sphere { [0.0, 0.0, 0.0, 0.0, 0.0] }

  /** A default-constructed circle: every coefficient zero. */
  function ZeroCircle(): Circle { [0.0, 0.0, 0.0, 0.0, 0.0, 0.0, 0.0, 0.0, 0.0, 0.0] }

  /** The frame's own tangents tx, ty, tz. */
  function FrameTangents(K: Kernel, f: RigidFrame): (ts: seq<Pair>)
    ensures |ts| == 3 && forall j :: 0 <= j < 3 ==> ts[j] == K.frameTangent(f, j)
  {
    [K.frameTangent(f, 0), K.frameTangent(f, 1), K.frameTangent(f, 2)]
  }

  /** The tangent circles of store(): the undual of each tangent. */
  function Undualed(K: Kernel, ts: seq<Pair>): (cs: seq<Circle>)
    requires |ts| == 3
    ensures |cs| == 3 && forall j :: 0 <= j < 3 ==> cs[j] == K.undual(ts[j])
  {
    seq(3, j requires 0 <= j < 3 => K.undual(ts[j]))
  }

  /** The coordinate surfaces of set(p, tf): tf's tangent circles carried to p. */
  function SurfacesThrough(K: Kernel, cs: seq<Circle>, p: Point): (ss: seq<Sphere>)
    requires |cs| == 3
    ensures |ss| == 3 && forall j :: 0 <= j < 3 ==> ss[j] == K.wedgeCircle(cs[j], p)
  {
    seq(3, j requires 0 <= j < 3 => K.wedgeCircle(cs[j], p))
  }

  /** The tangent circles of set(p, tf): tangent to each surface at p. */
  function TangentsAt(K: Kernel, ss: seq<Sphere>, p: Point): (cs: seq<Circle>)
    requires |ss| == 3
    ensures |cs| == 3 && forall j :: 0 <= j < 3 ==> cs[j] == K.tangentAt(ss[j], p)
  {
    seq(3, j requires 0 <= j < 3 => K.tangentAt(ss[j], p))
  }

  /** The tangents of set(p, tf): the dual of each tangent circle. */
  function Dualed(K: Kernel, cs: seq<Circle>): (ts: seq<Pair>)
    requires |cs| == 3
    ensures |ts| == 3 && forall j :: 0 <= j < 3 ==> ts[j] == K.dual(cs[j])
  {
    seq(3, j requires 0 <= j < 3 => K.dual(cs[j]))
  }

  /** flip(idx) on one of the arrays: entry idx negated. */
  function FlipAt(xs: seq<seq<real>>, idx: nat): (r: seq<seq<real>>)
    requires idx < |xs|
    ensures |r| == |xs|
  {
    xs[idx := Neg(xs[idx])]
  }

  /** A flip changes only its own entry, and that entry is negated. */
  lemma FlipAtOnlyTarget(xs: seq<seq<real>>, idx: nat, j: nat)
    requires idx < |xs| && j < |xs|
    ensures j != idx ==> FlipAt(xs, idx)[j] == xs[j]
    ensures j == idx ==> forall n :: 0 <= n < |xs[j]| ==> FlipAt(xs, idx)[j][n] == -xs[j][n]
  {
  }

  /** Flipping the same entry twice restores the sequence. */
  lemma FlipAtTwice(xs: seq<seq<real>>, idx: nat)
    requires idx < |xs|
    ensures FlipAt(FlipAt(xs, idx), idx) == xs
  {
    NegInvolutive(xs[idx]);
  }

  /** The point circleClose and close keep from the two intersection points
      of `pair`: pointA, unless pointA is (within FERROR) at the current
      position pt, in which case pointB. */
  function OtherPoint(K: Kernel, pt: Point, pair: Pair): (p: Point)
    ensures p == K.pointA(pair) || p == K.pointB(pair)
  {
    if K.nearZero(K.inner(pt, K.pointA(pair))) then K.pointB(pair) else K.pointA(pair)
  }

  /** The kept point is away from pt exactly when at least one of the two
      candidates is; when pointA is at pt and pointB is not, pointB is kept. */
  lemma OtherPointAway(K: Kernel, pt: Point, pair: Pair)
    ensures var p := OtherPoint(K, pt, pair);
            !K.nearZero(K.inner(pt, p)) <==>
              (!K.nearZero(K.inner(pt, K.pointA(pair))) || !K.nearZero(K.inner(pt, K.pointB(pair))))
    ensures K.nearZero(K.inner(pt, K.pointA(pair))) ==> OtherPoint(K, pt, pair) == K.pointB(pair)
  {
  }

  /** The circle calcCurve(idx) should return: the meet of the two surfaces
      other than surface idx. */
  function EdgeCurve(K: Kernel, ss: seq<Sphere>, idx: int): (c: Circle)
    requires |ss| == 3
    ensures idx == 0 ==> c == K.meetSpheres(ss[1], ss[2])
    ensures idx == 1 ==> c == K.meetSpheres(ss[0], ss[2])
    ensures idx == 2 ==> c == K.meetSpheres(ss[0], ss[1])
    ensures !(0 <= idx < 3) ==> c == ZeroCircle()
  {
    match idx
    case 0 => K.meetSpheres(ss[1], ss[2])
    case 1 => K.meetSpheres(ss[0], ss[2])
    case 2 => K.meetSpheres(ss[0], ss[1])
    case _ => ZeroCircle()
  }

  class TangentFrame {
    const alg: Kernel
    var pos: Point
    var rot: Versor
    /** Coordinate surface spheres. */
    const sphere: array<Sphere>
    /** Tangent pairs. */
    const tan: array<Pair>
    /** Tangent circles. */
    const bitan: array<Circle>

    ghost predicate Valid()
      reads this
    {
      sphere.Length == 3 && tan.Length == 3 && bitan.Length == 3 && tan != bitan
    }

    /** The underlying rigid frame. */
    function Frame(): (f: RigidFrame)
      reads this
      ensures f.pos == pos && f.rot == rot
    {
      RigidFrame(pos, rot)
    }

    /** TangentFrame(): the default frame, stored as tangents. */
    constructor (K: Kernel)
      ensures Valid() && alg == K && fresh(sphere) && fresh(tan) && fresh(bitan)
      ensures pos == K.origin && rot == K.identity
      ensures sphere[..] == [ZeroSphere(), ZeroSphere(), ZeroSphere()]
      ensures tan[..] == FrameTangents(K, RigidFrame(K.origin, K.identity))
      ensures bitan[..] == Undualed(K, tan[..])
    {
      alg, pos, rot := K, K.origin, K.identity;
      sphere := new Sphere[3](_ => ZeroSphere());
      tan := new Pair[3](_ => ZeroCircle());
      bitan := new Circle[3](_ => ZeroCircle());
      new;
      Store();
    }

    /** TangentFrame(f): the frame f, stored as tangents. */
    constructor FromFrame(K: Kernel, f: RigidFrame)
      ensures Valid() && alg == K && fresh(sphere) && fresh(tan) && fresh(bitan)
      ensures pos == f.pos && rot == f.rot
      ensures sphere[..] == [ZeroSphere(), ZeroSphere(), ZeroSphere()]
      ensures tan[..] == FrameTangents(K, f)
      ensures bitan[..] == Undualed(K, tan[..])
    {
      alg, pos, rot := K, f.pos, f.rot;
      sphere := new Sphere[3](_ => ZeroSphere());
      tan := new Pair[3](_ => ZeroCircle());
      bitan := new Circle[3](_ => ZeroCircle());
      new;
      Store();
    }

    /** TangentFrame(p, tf): a frame at p whose surfaces and tangents are
        carried over from tf by set(p, tf). */
    constructor At(K: Kernel, p: Point, tf: TangentFrame)
      requires tf.Valid()
      ensures Valid() && alg == K && fresh(sphere) && fresh(tan) && fresh(bitan)
      ensures pos == p && rot == K.identity
      ensures sphere[..] == SurfacesThrough(K, old(tf.bitan[..]), p)
      ensures bitan[..] == TangentsAt(K, sphere[..], p)
      ensures tan[..] == Dualed(K, bitan[..])
    {
      var cs := tf.bitan[..];
      alg, pos, rot := K, K.origin, K.identity;
      sphere := new Sphere[3](_ => ZeroSphere());
      tan := new Pair[3](_ => ZeroCircle());
      bitan := new Circle[3](_ => ZeroCircle());
      new;
      Place(p, cs);
    }

    /** store(): tangents from the frame's axes, tangent circles their unduals;
        the surfaces and the frame itself are untouched. */
    method Store()
      requires Valid()
      modifies tan, bitan
      ensures tan[..] == FrameTangents(alg, Frame())
      ensures bitan[..] == Undualed(alg, tan[..])
      ensures sphere[..] == old(sphere[..])
    {
      tan[0] := alg.frameTangent(Frame(), 0);
      tan[1] := alg.frameTangent(Frame(), 1);
      tan[2] := alg.frameTangent(Frame(), 2);
      var j := 0;
      while j < 3
        invariant 0 <= j <= 3
        invariant tan[..] == FrameTangents(alg, Frame())
        invariant forall n :: 0 <= n < j ==> bitan[n] == alg.undual(tan[n])
      {
        bitan[j] := alg.undual(tan[j]);
        j := j + 1;
      }
    }

    /** operator=(const Frame&): take f's position and rotor, then store(). */
    method AssignFrame(f: RigidFrame)
      requires Valid()
      modifies this, tan, bitan
      ensures pos == f.pos && rot == f.rot
      ensures tan[..] == FrameTangents(alg, f)
      ensures bitan[..] == Undualed(alg, tan[..])
      ensures sphere[..] == old(sphere[..])
    {
      rot := f.rot;
      pos := f.pos;
      Store();
    }

    /** operator=(const TangentFrame&): take f's position, rotor, tangents,
        tangent circles and surfaces (assigning a frame to itself changes
        nothing). */
    method AssignFrom(f: TangentFrame)
      requires Valid() && f.Valid()
      modifies this, sphere, tan, bitan
      ensures pos == old(f.pos) && rot == old(f.rot)
      ensures tan[..] == old(f.tan[..]) && bitan[..] == old(f.bitan[..]) && sphere[..] == old(f.sphere[..])
    {
      var ts, cs, ss := f.tan[..], f.bitan[..], f.sphere[..];
      rot := f.rot;
      pos := f.pos;
      var j := 0;
      while j < 3
        invariant 0 <= j <= 3 && pos == old(f.pos) && rot == old(f.rot)
        invariant forall n :: 0 <= n < j ==> tan[n] == ts[n] && bitan[n] == cs[n] && sphere[n] == ss[n]
      {
        tan[j] := ts[j];
        bitan[j] := cs[j];
        sphere[j] := ss[j];
        j := j + 1;
      }
    }

    /** set(p, tf): move to p and carry tf's tangent circles there. Each
        pass reads tf's circle j before writing entry j, so the result is
        the same when tf is this frame. */
    method Set(p: Point, tf: TangentFrame)
      requires Valid() && tf.Valid()
      modifies this, sphere, tan, bitan
      ensures pos == p && rot == old(rot)
      ensures sphere[..] == SurfacesThrough(alg, old(tf.bitan[..]), p)
      ensures bitan[..] == TangentsAt(alg, sphere[..], p)
      ensures tan[..] == Dualed(alg, bitan[..])
    {
      Place(p, tf.bitan[..]);
    }

    /** The body of set(p, tf), given tf's tangent circles. */
    method Place(p: Point, cs: seq<Circle>)
      requires Valid() && |cs| == 3
      modifies this, sphere, tan, bitan
      ensures pos == p && rot == old(rot)
      ensures sphere[..] == SurfacesThrough(alg, cs, p)
      ensures bitan[..] == TangentsAt(alg, sphere[..], p)
      ensures tan[..] == Dualed(alg, bitan[..])
    {
      pos := p;
      var j := 0;
      while j < 3
        invariant 0 <= j <= 3 && pos == p && rot == old(rot)
        invariant forall n :: 0 <= n < j ==>
                    sphere[n] == alg.wedgeCircle(cs[n], p) && bitan[n] == alg.tangentAt(sphere[n], p)
                    && tan[n] == alg.dual(bitan[n])
      {
        sphere[j] := alg.wedgeCircle(cs[j], p);
        bitan[j] := alg.tangentAt(sphere[j], p);
        tan[j] := alg.dual(bitan[j]);
        j := j + 1;
      }
    }

    /** flip(idx): tangent idx and tangent circle idx negated, nothing else changes. */
    method Flip(idx: nat)
      requires Valid() && idx < 3
      modifies tan, bitan
      ensures tan[..] == FlipAt(old(tan[..]), idx)
      ensures bitan[..] == FlipAt(old(bitan[..]), idx)
      ensures sphere[..] == old(sphere[..])
    {
      tan[idx] := Neg(tan[idx]);
      bitan[idx] := Neg(bitan[idx]);
    }

    /** calcCurve(idx) as written: its switch has no breaks, so every case
        from idx onwards runs and the last one decides. */
    function CalcCurve(idx: int): (c: Circle)
      reads this, sphere
      requires Valid()
      ensures 0 <= idx < 3 ==> c == alg.meetSpheres(sphere[0], sphere[1])
      ensures !(0 <= idx < 3) ==> c == ZeroCircle()
    {
      var c0 := ZeroCircle();
      var c1 := if idx == 0 then alg.meetSpheres(sphere[1], sphere[2]) else c0;
      var c2 := if idx == 0 || idx == 1 then alg.meetSpheres(sphere[0], sphere[2]) else c1;
      if idx == 0 || idx == 1 || idx == 2 then alg.meetSpheres(sphere[0], sphere[1]) else c2
    }

    /** Every in-range index yields the curve of index 2, which differs from
        the intended curve of index 0 whenever the two meets differ. */
    lemma CalcCurveFallsThrough(idx: int)
      requires Valid()
      ensures 0 <= idx < 3 ==> CalcCurve(idx) == EdgeCurve(alg, sphere[..], 2)
      ensures !(0 <= idx < 3) ==> CalcCurve(idx) == EdgeCurve(alg, sphere[..], idx)
      ensures alg.meetSpheres(sphere[1], sphere[2]) != alg.meetSpheres(sphere[0], sphere[1]) ==>
                CalcCurve(0) != EdgeCurve(alg, sphere[..], 0)
    {
    }

    /** circleClose(s, pa, pb): the frame at whichever of the two points
        where s meets the circle through this frame's position, pa and pb
        is not this frame's position, carried over from this frame. */
    method CircleClose(s: DualSphere, pa: Point, pb: Point) returns (r: TangentFrame)
      requires Valid()
      ensures fresh(r) && fresh(r.sphere) && fresh(r.tan) && fresh(r.bitan) && r.Valid() && r.alg == alg
      ensures r.pos == OtherPoint(alg, pos, alg.meetSphereCircle(s, alg.circleThrough(pos, pa, pb)))
      ensures r.sphere[..] == SurfacesThrough(alg, bitan[..], r.pos)
      ensures r.bitan[..] == TangentsAt(alg, r.sphere[..], r.pos)
      ensures r.tan[..] == Dualed(alg, r.bitan[..])
    {
      var pair := alg.meetSphereCircle(s, alg.circleThrough(pos, pa, pb));
      r := new TangentFrame.At(alg, OtherPoint(alg, pos, pair), this);
    }

    /** close(ta, tb, tc, td): the frame at whichever of the two points where
        the circles through (this, ta, tb) and (this, tc, td) meet is not
        this frame's position, carried over from this frame. */
    method Close(ta: TangentFrame, tb: TangentFrame, tc: TangentFrame, td: TangentFrame)
      returns (r: TangentFrame)
      requires Valid()
      ensures fresh(r) && fresh(r.sphere) && fresh(r.tan) && fresh(r.bitan) && r.Valid() && r.alg == alg
      ensures r.pos == OtherPoint(alg, pos, alg.meetCircles(alg.circleThrough(pos, ta.pos, tb.pos),
                                                            alg.circleThrough(pos, tc.pos, td.pos)))
      ensures r.sphere[..] == SurfacesThrough(alg, bitan[..], r.pos)
      ensures r.bitan[..] == TangentsAt(alg, r.sphere[..], r.pos)
      ensures r.tan[..] == Dualed(alg, r.bitan[..])
    {
      var pair := alg.meetCircles(alg.circleThrough(pos, ta.pos, tb.pos), alg.circleThrough(pos, tc.pos, td.pos));
      r := new TangentFrame.At(alg, OtherPoint(alg, pos, pair), this);
    }
  }
}
