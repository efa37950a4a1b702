/** SixSphere: a tangent frame with a curvature along each of the two other
    axes for each of its three coordinate curves, and the rule that gives
    the curvature of the opposite edge of a quadrilateral patch. */
module Six {
  import opened Kernel
  import opened Tangent

  /** The curvature of the edge opposite an edge of curvature k, at distance
      l along the patch (X1Y from XY and lengthX in xy, likewise in zx and
      zy): 0 when k is 0, otherwise a signed reciprocal. None stands for the
      division by zero the source's formula meets when 1/|k| and l cancel. */
  function CloseCurvature(k: real, l: real): (r: Option<real>)
    ensures k == 0.0 ==> r == Some(0.0)
  {
    if k == 0.0 then Some(0.0)
    else if k > 0.0 then
      var d := 1.0 / k - l;
      if d == 0.0 then None else Some(-(1.0 / d))
    else
      var d := 1.0 / -k + l;
      if d == 0.0 then None else Some(1.0 / d)
  }

  /** 1/k - l and 1/(-k) + l are (1 - l k)/k and (1 - l k)/(-k). */
  lemma Reciprocal(k: real, l: real)
    requires k != 0.0
    ensures 1.0 / k - l == (1.0 - l * k) / k
    ensures 1.0 / -k + l == (1.0 - l * k) / -k
  {
  }

  /** l is exactly the radius 1/k: the opposite edge would be flat at
      infinite distance and the formula divides by zero. */
  predicate Degenerate(k: real, l: real)
  {
    l * k == 1.0
  }

  /** The closed form of the opposite curvature: -k / (1 - l k). */
  function OppositeCurvature(k: real, l: real): real
    requires !Degenerate(k, l)
  {
    -k / (1.0 - l * k)
  }

  /** Both non-zero branches agree: the opposite curvature is -k / (1 - l k),
      defined exactly when l k != 1. */
  lemma CloseCurvatureClosedForm(k: real, l: real)
    ensures k != 0.0 ==> (CloseCurvature(k, l).Some? <==> !Degenerate(k, l))
    ensures k != 0.0 && !Degenerate(k, l) ==> CloseCurvature(k, l) == Some(OppositeCurvature(k, l))
  {
    var n := 1.0 - l * k;
    if k != 0.0 && n != 0.0 {
      Reciprocal(k, l);
      assert OppositeCurvature(k, l) == -k / n;
      if k > 0.0 {
        assert 1.0 / (n / k) == k / n;
        assert -(k / n) == -k / n;
      } else {
        assert 1.0 / (n / -k) == -k / n;
      }
    }
  }

  /** A concave edge (k < 0) at a non-negative distance always closes onto a
      convex one: the opposite curvature exists and is positive. */
  lemma CloseCurvatureFlipsConcave(k: real, l: real)
    requires k < 0.0 && l >= 0.0
    ensures CloseCurvature(k, l).Some? && CloseCurvature(k, l).value > 0.0
  {
    var d := 1.0 / -k + l;
    assert 1.0 / -k > 0.0;
    assert d > 0.0;
  }

  /** A convex edge (k > 0) closer than its radius (l k < 1) closes onto a
      concave one: the opposite curvature is negative. */
  lemma CloseCurvatureFlipsConvex(k: real, l: real)
    requires k > 0.0 && l * k < 1.0
    ensures CloseCurvature(k, l).Some? && CloseCurvature(k, l).value < 0.0
  {
    CloseCurvatureClosedForm(k, l);
    var n := 1.0 - l * k;
    assert n > 0.0;
    assert k / n > 0.0;
    assert OppositeCurvature(k, l) == -(k / n);
  }

  /** The curvature xy, zx or zy hands on to the closing surface: the
      opposite curvature plus the extra curve input c. */
  function Shifted(r: Option<real>, c: real): (s: Option<real>)
    ensures r.None? ==> s.None?
    ensures r.Some? ==> s == Some(r.value + c)
  {
    match r
    case None => None
    case Some(v) => Some(v + c)
  }

  /** The closed form carried through the extra curve input. */
  lemma ShiftedCloseCurvature(k: real, l: real, c: real)
    ensures k == 0.0 ==> Shifted(CloseCurvature(k, l), c) == Some(c)
    ensures k != 0.0 ==> (Shifted(CloseCurvature(k, l), c).Some? <==> !Degenerate(k, l))
    ensures k != 0.0 && !Degenerate(k, l) ==> Shifted(CloseCurvature(k, l), c) == Some(OppositeCurvature(k, l) + c)
  {
    CloseCurvatureClosedForm(k, l);
  }

  /** One coordinate curve: its curvatures toward the two other axes. */
  datatype Curve = Curve(a: real, b: real)

  class SixSphere {
    const frame: TangentFrame
    /** The three coordinate curves, x, y and z. */
    const curve: array<Curve>
    var lengthX: real
    var lengthY: real
    var lengthZ: real

    ghost predicate Valid()
      reads this
    {
      curve.Length == 3
    }

    /** SixSphere(): the default tangent frame and all curvatures zero; the
        lengths are left unset. */
    constructor (K: Kernel)
      ensures Valid() && fresh(frame) && fresh(curve)
      ensures frame.alg == K && frame.pos == K.origin && frame.rot == K.identity && frame.Valid()
      ensures frame.sphere[..] == [ZeroSphere(), ZeroSphere(), ZeroSphere()]
      ensures frame.tan[..] == FrameTangents(K, RigidFrame(K.origin, K.identity))
      ensures frame.bitan[..] == Undualed(K, frame.tan[..])
      ensures Cyx() == 0.0 && Czx() == 0.0 && Cxy() == 0.0 && Czy() == 0.0 && Cxz() == 0.0 && Cyz() == 0.0
    {
      frame := new TangentFrame(K);
      curve := new Curve[3](_ => Curve(0.0, 0.0));
    }

    /** SixSphere(f): the tangent frame of f and all curvatures zero; the
        lengths are left unset. */
    constructor FromFrame(K: Kernel, f: RigidFrame)
      ensures Valid() && fresh(frame) && fresh(curve)
      ensures frame.alg == K && frame.pos == f.pos && frame.rot == f.rot && frame.Valid()
      ensures frame.sphere[..] == [ZeroSphere(), ZeroSphere(), ZeroSphere()]
      ensures frame.tan[..] == FrameTangents(K, f)
      ensures frame.bitan[..] == Undualed(K, frame.tan[..])
      ensures Cyx() == 0.0 && Czx() == 0.0 && Cxy() == 0.0 && Czy() == 0.0 && Cxz() == 0.0 && Cyz() == 0.0
    {
      frame := new TangentFrame.FromFrame(K, f);
      curve := new Curve[3](_ => Curve(0.0, 0.0));
    }

    /** cyx(): constant x, toward y. */
    function Cyx(): (r: real)
      reads this, curve
      requires Valid()
      ensures r == curve[0].a
    {
      curve[0].a
    }

    /** czx(): constant x, toward z. */
    function Czx(): (r: real)
      reads this, curve
      requires Valid()
      ensures r == curve[0].b
    {
      curve[0].b
    }

    /** cxy(): constant y, toward x. */
    function Cxy(): (r: real)
      reads this, curve
      requires Valid()
      ensures r == curve[1].a
    {
      curve[1].a
    }

    /** czy(): constant y, toward z. */
    function Czy(): (r: real)
      reads this, curve
      requires Valid()
      ensures r == curve[1].b
    {
      curve[1].b
    }

    /** cxz(): constant z, toward x. */
    function Cxz(): (r: real)
      reads this, curve
      requires Valid()
      ensures r == curve[2].a
    {
      curve[2].a
    }

    /** cyz(): constant z, toward y. */
    function Cyz(): (r: real)
      reads this, curve
      requires Valid()
      ensures r == curve[2].b
    {
      curve[2].b
    }

    /** set(YX, ZX, XY, ZY, XZ, YZ, lx, ly, lz): every accessor then reads
        back the curvature given for it, and the lengths are as given. */
    method Set(yx: real, zx: real, xy: real, zy: real, xz: real, yz: real,
               lx: real := 1.0, ly: real := 1.0, lz: real := 1.0)
      requires Valid()
      modifies this, curve
      ensures Cyx() == yx && Czx() == zx && Cxy() == xy && Czy() == zy && Cxz() == xz && Cyz() == yz
      ensures lengthX == lx && lengthY == ly && lengthZ == lz
    {
      curve[0] := Curve(yx, zx);
      curve[1] := Curve(xy, zy);
      curve[2] := Curve(xz, yz);
      lengthX, lengthY, lengthZ := lx, ly, lz;
    }

    /** The curvature xy(c) closes with: cxy carried across lengthX, plus c. */
    function XyCurvature(c: real): (r: Option<real>)
      reads this, curve
      requires Valid()
      ensures Cxy() == 0.0 ==> r == Some(c)
      ensures Cxy() != 0.0 ==> (r.Some? <==> !Degenerate(Cxy(), lengthX))
      ensures Cxy() != 0.0 && !Degenerate(Cxy(), lengthX) ==> r == Some(OppositeCurvature(Cxy(), lengthX) + c)
    {
      ShiftedCloseCurvature(Cxy(), lengthX, c);
      Shifted(CloseCurvature(Cxy(), lengthX), c)
    }

    /** The curvature zx(c) closes with: czx carried across lengthZ, plus c. */
    function ZxCurvature(c: real): (r: Option<real>)
      reads this, curve
      requires Valid()
      ensures Czx() == 0.0 ==> r == Some(c)
      ensures Czx() != 0.0 ==> (r.Some? <==> !Degenerate(Czx(), lengthZ))
      ensures Czx() != 0.0 && !Degenerate(Czx(), lengthZ) ==> r == Some(OppositeCurvature(Czx(), lengthZ) + c)
    {
      ShiftedCloseCurvature(Czx(), lengthZ, c);
      Shifted(CloseCurvature(Czx(), lengthZ), c)
    }

    /** The curvature zy(c) closes with: czy carried across lengthZ, plus c. */
    function ZyCurvature(c: real): (r: Option<real>)
      reads this, curve
      requires Valid()
      ensures Czy() == 0.0 ==> r == Some(c)
      ensures Czy() != 0.0 ==> (r.Some? <==> !Degenerate(Czy(), lengthZ))
      ensures Czy() != 0.0 && !Degenerate(Czy(), lengthZ) ==> r == Some(OppositeCurvature(Czy(), lengthZ) + c)
    {
      ShiftedCloseCurvature(Czy(), lengthZ, c);
      Shifted(CloseCurvature(Czy(), lengthZ), c)
    }
  }
}
