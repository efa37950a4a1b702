/** TVolume: eight corner TFrames, nine curvatures, three spacings and twelve
    edge generators; the derivation of the corner surfaces, the forward grid
    mapping and the inverse point-to-parameter mapping. */
module Volume {
  import opened Kernel
  import opened TFrames
  import opened Grid

  /** The eight corners; the corner code has bit 0 = u, bit 1 = v, bit 2 = w. */
  datatype Corner = Origin | U | V | W | UV | UW | VW | UVW
  {
    predicate HasU() { this == U || this == UV || this == UW || this == UVW }
    predicate HasV() { this == V || this == UV || this == VW || this == UVW }
    predicate HasW() { this == W || this == UW || this == VW || this == UVW }

    /** The slot of mTFrame the accessor (tf, uf, vf, wf, uvf, uwf, vwf, uvwf) returns. */
    function Code(): (n: nat)
      ensures n == (if HasU() then 1 else 0) + (if HasV() then 2 else 0) + (if HasW() then 4 else 0)
    {
      match this
      case Origin => 0
      case U => 1
      case V => 2
      case W => 4
      case UV => 3
      case UW => 5
      case VW => 6
      case UVW => 7
    }
  }

  /** The corner with a given code. */
  function CornerOf(n: nat): (c: Corner)
    requires n < 8
    ensures c.Code() == n
  {
    var u, v, w := n % 2 == 1, (n / 2) % 2 == 1, n / 4 == 1;
    if u && v && w then UVW else if u && v then UV else if u && w then UW
    else if v && w then VW else if u then U else if v then V else if w then W else Origin
  }

  /** The corner codes are distinct: each slot belongs to one corner. */
  lemma {:induction false} CornerCodeInjective(a: Corner, b: Corner)
    requires a.Code() == b.Code()
    ensures a == b
  {
    assert a.HasU() == b.HasU() && a.HasV() == b.HasV() && a.HasW() == b.HasW();
  }

  /** The nine curvature slots of mK. */
  datatype Curvature = Kvu | Kwu | Kuv | Kwv | Kuw | Kvw | Kv1u | Ku1w | Kw1v
  {
    function Slot(): (n: nat)
      ensures n < 9
    {
      match this
      case Kvu => 0
      case Kwu => 1
      case Kuv => 2
      case Kwv => 3
      case Kuw => 4
      case Kvw => 5
      case Kv1u => 6
      case Ku1w => 7
      case Kw1v => 8
    }
  }

  /** The three spacing slots of mSpacing. */
  datatype Axis = AxisU | AxisV | AxisW
  {
    function Slot(): (n: nat)
      ensures n < 3
    {
      match this
      case AxisU => 0
      case AxisV => 1
      case AxisW => 2
    }
  }

  /** The twelve generator slots of mGen: the sweep direction, the swept
      curve, the axis held fixed, and the end (0 or 1) of that axis. */
  datatype Generator = Duvw0 | Duwv0 | Dvwu0 | Dvuw0 | Dwuv0 | Dwvu0
                     | Duvw1 | Duwv1 | Dvwu1 | Dvuw1 | Dwuv1 | Dwvu1
  {
    /** At the far end of the fixed axis (the `1` accessors). */
    predicate Far()
    {
      this in {Duvw1, Duwv1, Dvwu1, Dvuw1, Dwuv1, Dwvu1}
    }

    function Slot(): (n: nat)
      ensures n < 12
      ensures Far() <==> n >= 6
    {
      match this
      case Duvw0 => 0
      case Duwv0 => 1
      case Dvwu0 => 2
      case Dvuw0 => 3
      case Dwuv0 => 4
      case Dwvu0 => 5
      case Duvw1 => 6
      case Duwv1 => 7
      case Dvwu1 => 8
      case Dvuw1 => 9
      case Dwuv1 => 10
      case Dwvu1 => 11
    }
  }

  /** Each slot array is addressed one-to-one by its named accessors. */
  lemma SlotsDistinct()
    ensures forall a: Curvature, b: Curvature :: a.Slot() == b.Slot() ==> a == b
    ensures forall a: Axis, b: Axis :: a.Slot() == b.Slot() ==> a == b
    ensures forall a: Generator, b: Generator :: a.Slot() == b.Slot() ==> a == b
  {
  }

  datatype Face = Left | Right | Bottom | Top | Back | Front

  datatype Coord = Coord(u: real, v: real, w: real)

  /** A stage of the derivation: the curvature slots, the eight frames and the twelve generators. */
  datatype Stage = Stage(k: seq<real>, frames: seq<TFrame>, gens: seq<Pair>)

  /** Normalize(s <= t): the surface through s's intersection orthogonal to tangent t. */
  function Ortho(K: Kernel, s: Vec5, t: Pair): DualSphere
  {
    Normalize(K.dot(s, t))
  }

  /** The fully opposite corner: the point common to the top, front and right
      planes, each through three known corner positions and infinity. */
  function OppositeCorner(K: Kernel, u: TFrame, v: TFrame, w: TFrame,
                          uv: TFrame, uw: TFrame, vw: TFrame): Point
  {
    var top := K.planeDual(Pos(K, v), Pos(K, uv), Pos(K, vw));
    var front := K.planeDual(Pos(K, w), Pos(K, vw), Pos(K, uw));
    var right := K.planeDual(Pos(K, u), Pos(K, uw), Pos(K, uv));
    K.unitNull(K.meetDual(top, front, right))
  }

  /** Pair(-dir(t).unit()): the direction of t as a tangent at the origin. */
  function NormT(K: Kernel, t: Pair): Pair
  {
    K.tnv(K.direction(t))
  }

  /** The eight default frames a TVolume starts with. */
  function DefaultFrames(K: Kernel): (fs: seq<TFrame>)
    ensures |fs| == 8
  {
    seq(8, _ => DefaultTFrame(K))
  }
  /** The origin and the three axis frames of a derivation stage. */
  datatype Axes = Axes(t: TFrame, u: TFrame, v: TFrame, w: TFrame)

  /** The three edge corners and the opposite corner of a derivation stage. */
  datatype Edges = Edges(uv: TFrame, uw: TFrame, vw: TFrame, uvw: TFrame)

  /** The eight frames in slot order (corner codes 0 to 7). */
  function Slots(a: Axes, e: Edges): (fs: seq<TFrame>)
    ensures |fs| == 8
    ensures fs[Corner.Origin.Code()] == a.t && fs[Corner.U.Code()] == a.u
    ensures fs[Corner.V.Code()] == a.v && fs[Corner.W.Code()] == a.w
    ensures fs[Corner.UV.Code()] == e.uv && fs[Corner.UW.Code()] == e.uw
    ensures fs[Corner.VW.Code()] == e.vw && fs[Corner.UVW.Code()] == e.uvw
  {
    [a.t, a.u, a.v, e.uv, a.w, e.uw, e.vw, e.uvw]
  }

  /** First stage of calcSurfaces: the origin's six surfaces, the three axis
      frames transformed from it along their conformal rotors, and the one
      bent surface each axis frame carries (kv1u, ku1w, kw1v). */
  function BentAxes(K: Kernel, k: seq<real>, sp: seq<real>, t0: TFrame): (r: Axes)
    requires |k| == 9 && |sp| == 3
    ensures r.t == Surfaces(K, t0, k[0], k[1], k[2], k[3], k[4], k[5])
    ensures r.u.suw == USurf(K, r.u, k[7])
    ensures r.v.svu == VSurf(K, r.v, k[6])
    ensures r.w.swv == WSurf(K, r.w, k[8])
  {
    var uc := Uc(K, t0, k[0], k[1], sp[0]);
    var vc := Vc(K, t0, k[2], k[3], sp[1]);
    var wc := Wc(K, t0, k[4], k[5], sp[2]);
    var t := Surfaces(K, t0, k[0], k[1], k[2], k[3], k[4], k[5]);
    var u := Xf(K, t, uc, Flip, false, false);
    var v := Xf(K, t, vc, false, Flip, false);
    var w := Xf(K, t, wc, false, false, Flip);
    Axes(t, u.(suw := USurf(K, u, k[7])), v.(svu := VSurf(K, v, k[6])), w.(swv := WSurf(K, w, k[8])))
  }

  /** Second stage: each axis frame's remaining surfaces, orthogonal to the
      bent ones. Only those surfaces change. */
  function OrthoAxes(K: Kernel, a: Axes): (r: Axes)
    ensures r.t == a.t
    ensures r.u.tu == a.u.tu && r.u.tv == a.u.tv && r.u.tw == a.u.tw
    ensures r.u.svu == a.u.svu && r.u.swu == a.u.swu && r.u.suw == a.u.suw
    ensures r.v.tu == a.v.tu && r.v.tv == a.v.tv && r.v.tw == a.v.tw
    ensures r.v.svu == a.v.svu && r.v.suv == a.v.suv && r.v.swv == a.v.swv
    ensures r.w.tu == a.w.tu && r.w.tv == a.w.tv && r.w.tw == a.w.tw
    ensures r.w.svw == a.w.svw && r.w.suw == a.w.suw && r.w.swv == a.w.swv
  {
    var u, v, w := a.u, a.v, a.w;
    var u1 := u.(suv := Ortho(K, v.svu, Scale(u.tu, FSign)), swv := Ortho(K, v.svu, Scale(u.tw, FSign)));
    var w1 := w.(swu := Ortho(K, u1.suw, Scale(w.tw, FSign)), svu := Ortho(K, u1.suw, Scale(w.tv, FSign)));
    var v1 := v.(svw := Ortho(K, w1.swv, Scale(v.tv, FSign)), suw := Ortho(K, w1.swv, Scale(v.tu, FSign)));
    var u2 := u1.(svw := Ortho(K, w1.swu, Scale(u1.tv, FSign)));
    var v2 := v1.(swu := Ortho(K, u2.suv, Scale(v1.tw, FSign)));
    var w2 := w1.(suv := Ortho(K, v2.svw, Scale(w1.tu, FSign)));
    Axes(a.t, u2, v2, w2)
  }

  /** The six generators along the edges leaving the origin, in slots 0-5. */
  function NearGens(K: Kernel, a: Axes): (g: seq<Pair>)
    ensures |g| == 6
  {
    [Duv(K, a.t, a.u), Duw(K, a.t, a.u), Dvw(K, a.t, a.v), Dvu(K, a.t, a.v), Dwu(K, a.t, a.w), Dwv(K, a.t, a.w)]
  }

  /** The six generators along the far edges, in slots 6-11. */
  function FarGens(K: Kernel, a: Axes, e: Edges): (g: seq<Pair>)
    ensures |g| == 6
  {
    [Duv(K, a.w, e.uw), Duw(K, a.v, e.uv), Dvw(K, a.u, e.uv),
     Dvu(K, a.w, e.vw), Dwu(K, a.v, e.vw), Dwv(K, a.u, e.uw)]
  }

  /** Third stage: the edge corners uv, uw, vw boosted from the axis frames,
      their surfaces through the opposite corner, and the opposite corner's
      tangents. The opposite corner keeps its surfaces. */
  function EdgeCorners(K: Kernel, a: Axes, g0: seq<Pair>, uvw0: TFrame): (r: Edges)
    requires |g0| == 6
    ensures r.uvw.(tu := uvw0.tu, tv := uvw0.tv, tw := uvw0.tw) == uvw0
  {
    var uv := Xf(K, a.v, K.boost(g0[0]), Flip, false, false);
    var vw := Xf(K, a.w, K.boost(g0[2]), false, Flip, false);
    var uw := Xf(K, a.u, K.boost(g0[4]), false, false, Flip);
    var np := OppositeCorner(K, a.u, a.v, a.w, uv, uw, vw);
    var npS := Scale(np, FSign);
    var uv2 := uv.(suw := Ortho(K, np, Scale(uv.tu, FSign)), svw := Ortho(K, np, Scale(uv.tv, FSign)));
    var vw2 := vw.(svu := Ortho(K, np, Scale(vw.tv, FSign)), swu := Ortho(K, np, Scale(vw.tw, FSign)));
    var uw2 := uw.(swv := Ortho(K, np, Scale(uw.tw, FSign)), suv := Ortho(K, np, Scale(uw.tu, FSign)));
    var uvw := uvw0.(tu := K.wedge(uv2.suw, npS), tv := K.wedge(uv2.svw, npS), tw := K.wedge(vw2.swu, npS));
    Edges(uv2, uw2, vw2, uvw)
  }

  /** calcSurfaces: every corner frame and all twelve generators from the nine
      curvatures, the three spacings and the origin frame's tangents. The
      fully opposite corner only receives new tangents. */
  function DeriveSurfaces(K: Kernel, k: seq<real>, sp: seq<real>, fs: seq<TFrame>): (r: Stage)
    requires |k| == 9 && |sp| == 3 && |fs| == 8
    ensures r.k == k && |r.frames| == 8 && |r.gens| == 12
    ensures r.frames[7].(tu := fs[7].tu, tv := fs[7].tv, tw := fs[7].tw) == fs[7]
  {
    var a := OrthoAxes(K, BentAxes(K, k, sp, fs[0]));
    var g0 := NearGens(K, a);
    var e := EdgeCorners(K, a, g0, fs[7]);
    Stage(k, Slots(a, e), g0 + FarGens(K, a, e))
  }

  /** The origin's surfaces come from the six origin curvatures alone. */
  lemma DeriveSurfacesOrigin(K: Kernel, k: seq<real>, sp: seq<real>, fs: seq<TFrame>)
    requires |k| == 9 && |sp| == 3 && |fs| == 8
    ensures DeriveSurfaces(K, k, sp, fs).frames[0] == Surfaces(K, fs[0], k[0], k[1], k[2], k[3], k[4], k[5])
  {
    var a := OrthoAxes(K, BentAxes(K, k, sp, fs[0]));
    assert DeriveSurfaces(K, k, sp, fs).frames[0] == a.t;
  }

  /** The frames of calcSurfaces are its three stages in slot order. */
  lemma DeriveSurfacesStages(K: Kernel, k: seq<real>, sp: seq<real>, fs: seq<TFrame>) returns (b: Axes, a: Axes, e: Edges)
    requires |k| == 9 && |sp| == 3 && |fs| == 8
    ensures b == BentAxes(K, k, sp, fs[0]) && a == OrthoAxes(K, b)
    ensures e == EdgeCorners(K, a, NearGens(K, a), fs[7])
    ensures DeriveSurfaces(K, k, sp, fs).frames == Slots(a, e)
  {
    b := BentAxes(K, k, sp, fs[0]);
    a := OrthoAxes(K, b);
    e := EdgeCorners(K, a, NearGens(K, a), fs[7]);
  }

  /** The three surfaces bent from kv1u, ku1w and kw1v survive to the end. */
  lemma DeriveSurfacesKeepsBends(K: Kernel, k: seq<real>, sp: seq<real>, fs: seq<TFrame>)
    requires |k| == 9 && |sp| == 3 && |fs| == 8
    ensures var r := DeriveSurfaces(K, k, sp, fs);
            r.frames[1].suw == USurf(K, r.frames[1], k[7])
            && r.frames[2].svu == VSurf(K, r.frames[2], k[6])
            && r.frames[4].swv == WSurf(K, r.frames[4], k[8])
  {
    var b, a, e := DeriveSurfacesStages(K, k, sp, fs);
    assert USurf(K, a.u, k[7]) == USurf(K, b.u, k[7]);
    assert VSurf(K, a.v, k[6]) == VSurf(K, b.v, k[6]);
    assert WSurf(K, a.w, k[8]) == WSurf(K, b.w, k[8]);
  }

  /** calcSurfaces reads the old frames only through the origin's tangents and
      the opposite corner's surfaces. */
  lemma DeriveSurfacesReads(K: Kernel, k: seq<real>, sp: seq<real>, fs: seq<TFrame>, gs: seq<TFrame>)
    requires |k| == 9 && |sp| == 3 && |fs| == 8 && |gs| == 8
    requires fs[0].tu == gs[0].tu && fs[0].tv == gs[0].tv && fs[0].tw == gs[0].tw
    requires fs[7].(tu := gs[7].tu, tv := gs[7].tv, tw := gs[7].tw) == gs[7]
    ensures DeriveSurfaces(K, k, sp, fs) == DeriveSurfaces(K, k, sp, gs)
  {
    assert BentAxes(K, k, sp, fs[0]) == BentAxes(K, k, sp, gs[0]);
  }

  /** With the six origin curvatures zero, the origin's surfaces are its flat planes. */
  lemma UncurvedOriginIsFlat(K: Kernel, k: seq<real>, sp: seq<real>, fs: seq<TFrame>)
    requires |k| == 9 && |sp| == 3 && |fs| == 8
    requires k[0] == k[1] == k[2] == k[3] == k[4] == k[5] == 0.0
    requires K.infDot(fs[0].tu)[3] == 0.0 && K.infDot(fs[0].tv)[3] == 0.0 && K.infDot(fs[0].tw)[3] == 0.0
    ensures DeriveSurfaces(K, k, sp, fs).frames[0] == FlatSurfaces(K, fs[0])
  {
    DeriveSurfacesOrigin(K, k, sp, fs);
    UncurvedSurfacesAreFlat(K, fs[0]);
  }

  /** First stage of calcSurfacesFromFace(LEFT): the left face's surfaces
      through the known face corners, kvu and kwu bent at the origin, kv1u
      at v, and the u frame transformed from the origin. The surface the
      source bends from ku1w onto the old u frame is replaced by this new u
      frame, so it is not computed here. */
  function FaceAxes(K: Kernel, k1: seq<real>, sp: seq<real>, t0: TFrame, v0: TFrame, w0: TFrame, vw0: TFrame)
    : (r: Axes)
    requires |k1| == 9 && |sp| == 3
    ensures r.t.tu == t0.tu && r.t.tv == t0.tv && r.t.tw == t0.tw
    ensures r.u == FlatSurfaces(K, r.u)
    ensures r.v.svu == VSurf(K, v0, k1[6])
    ensures r.v.tu == v0.tu && r.v.tv == v0.tv && r.v.tw == v0.tw
    ensures r.v.suv == v0.suv && r.v.swu == v0.swu && r.v.swv == v0.swv
    ensures r.w.tu == w0.tu && r.w.tv == w0.tv && r.w.tw == w0.tw
    ensures r.w.svu == w0.svu && r.w.swu == w0.swu && r.w.suw == w0.suw && r.w.svw == w0.svw
  {
    var t1 := t0.(suv := Ortho(K, Pos(K, v0), t0.tu), swv := Ortho(K, Pos(K, v0), t0.tw),
                  suw := Ortho(K, Pos(K, w0), t0.tu), svw := Ortho(K, Pos(K, w0), t0.tv));
    var v1 := v0.(suw := Ortho(K, Pos(K, w0), v0.tu), svw := Ortho(K, Pos(K, w0), v0.tv));
    var w1 := w0.(suv := Ortho(K, Pos(K, vw0), w0.tu), swv := Ortho(K, Pos(K, vw0), w0.tw));
    var uc := Uc(K, t1, k1[0], k1[1], sp[0]);
    var t2 := t1.(svu := VSurf(K, t1, k1[0]), swu := WSurf(K, t1, k1[1]));
    var v2 := v1.(svu := VSurf(K, v1, k1[6]));
    var u := Xf(K, t2, uc, false, false, false);
    Axes(t2, u, v2, w1)
  }

  /** Second stage of the face derivation: the surfaces orthogonal to the bent ones. */
  function FaceOrtho(K: Kernel, a: Axes): (r: Axes)
    ensures r.t == a.t
    ensures r.u.tu == a.u.tu && r.u.tv == a.u.tv && r.u.tw == a.u.tw
    ensures r.u.svu == a.u.svu && r.u.swu == a.u.swu && r.u.suw == a.u.suw
    ensures r.v == a.v.(swu := r.v.swu)
    ensures r.w.tu == a.w.tu && r.w.tv == a.w.tv && r.w.tw == a.w.tw
    ensures r.w.suv == a.w.suv && r.w.suw == a.w.suw && r.w.svw == a.w.svw && r.w.swv == a.w.swv
  {
    var u, v, w := a.u, a.v, a.w;
    var u1 := u.(suv := Ortho(K, v.svu, u.tu), swv := Ortho(K, v.svu, u.tw));
    var w1 := w.(swu := Ortho(K, u1.suw, w.tw), svu := Ortho(K, u1.suw, w.tv));
    var u2 := u1.(svw := Ortho(K, w1.swu, u1.tv));
    var v1 := v.(swu := Ortho(K, u2.suv, v.tw));
    Axes(a.t, u2, v1, w1)
  }

  /** Third stage of the face derivation: uv and uw boosted without flips,
      the known corner vw kept, and their surfaces through the opposite corner. */
  function FaceEdges(K: Kernel, a: Axes, vw0: TFrame, g0: seq<Pair>, uvw0: TFrame): (r: Edges)
    requires |g0| == 6
    ensures r.vw == vw0.(svu := r.vw.svu, swu := r.vw.swu)
    ensures r.uvw.(tu := uvw0.tu, tv := uvw0.tv, tw := uvw0.tw) == uvw0
  {
    var uv := Xf(K, a.v, K.boost(g0[0]), false, false, false);
    var uw := Xf(K, a.u, K.boost(g0[4]), false, false, false);
    var np := OppositeCorner(K, a.u, a.v, a.w, uv, uw, vw0);
    var uv2 := uv.(suw := Ortho(K, np, uv.tu), svw := Ortho(K, np, uv.tv));
    var vw2 := vw0.(svu := Ortho(K, np, vw0.tv), swu := Ortho(K, np, vw0.tw));
    var uw2 := uw.(swv := Ortho(K, np, uw.tw), suv := Ortho(K, np, uw.tu));
    var uvw := uvw0.(tu := NormT(K, K.wedge(uv2.suw, np)), tv := NormT(K, K.wedge(uv2.svw, np)),
                     tw := NormT(K, K.wedge(vw2.swu, np)));
    Edges(uv2, uw2, vw2, uvw)
  }

  /** The curvatures calcSurfacesFromFace(LEFT) works with: kvu becomes .3
      and kv1u becomes -.3, the other seven are kept. */
  function FaceCurvatures(k: seq<real>): (r: seq<real>)
    requires |k| == 9
    ensures |r| == 9 && r[Kvu.Slot()] == 0.3 && r[Kv1u.Slot()] == -0.3
    ensures forall i :: 0 <= i < 9 && i != Kvu.Slot() && i != Kv1u.Slot() ==> r[i] == k[i]
  {
    [0.3, k[1], k[2], k[3], k[4], k[5], -0.3, k[7], k[8]]
  }

  /** calcSurfacesFromFace(LEFT): re-derive a volume from the four frames of
      its left face (slots 0, 2, 4, 6). kvu and kv1u are overwritten with .3
      and -.3. */
  function DeriveFromLeftFace(K: Kernel, k: seq<real>, sp: seq<real>, fs: seq<TFrame>): (r: Stage)
    requires |k| == 9 && |sp| == 3 && |fs| == 8
    ensures r.k == FaceCurvatures(k) && |r.frames| == 8 && |r.gens| == 12
  {
    var k1 := FaceCurvatures(k);
    var a := FaceOrtho(K, FaceAxes(K, k1, sp, fs[0], fs[2], fs[4], fs[6]));
    var g0 := NearGens(K, a);
    var e := FaceEdges(K, a, fs[6], g0, fs[7]);
    Stage(k1, Slots(a, e), g0 + FarGens(K, a, e))
  }

  /** The frames of the left-face derivation are its three stages in slot order. */
  lemma FromLeftFaceStages(K: Kernel, k: seq<real>, sp: seq<real>, fs: seq<TFrame>) returns (b: Axes, a: Axes, e: Edges)
    requires |k| == 9 && |sp| == 3 && |fs| == 8
    ensures b == FaceAxes(K, FaceCurvatures(k), sp, fs[0], fs[2], fs[4], fs[6])
    ensures a == FaceOrtho(K, b)
    ensures e == FaceEdges(K, a, fs[6], NearGens(K, a), fs[7])
    ensures DeriveFromLeftFace(K, k, sp, fs).frames == Slots(a, e)
  {
    b := FaceAxes(K, FaceCurvatures(k), sp, fs[0], fs[2], fs[4], fs[6]);
    a := FaceOrtho(K, b);
    e := FaceEdges(K, a, fs[6], NearGens(K, a), fs[7]);
  }

  /** The left-face derivation keeps the origin's tangents and the opposite
      corner's surfaces, touches only two surfaces of vw, and leaves the u
      frame's surface along w flat: the surface the source bends from ku1w
      is lost. */
  lemma FromLeftFaceSlots(K: Kernel, k: seq<real>, sp: seq<real>, fs: seq<TFrame>)
    requires |k| == 9 && |sp| == 3 && |fs| == 8
    ensures var r := DeriveFromLeftFace(K, k, sp, fs);
            r.frames[0].tu == fs[0].tu && r.frames[0].tv == fs[0].tv && r.frames[0].tw == fs[0].tw
            && r.frames[1].suw == K.infDot(r.frames[1].tu)
            && r.frames[6] == fs[6].(svu := r.frames[6].svu, swu := r.frames[6].swu)
            && r.frames[7].(tu := fs[7].tu, tv := fs[7].tv, tw := fs[7].tw) == fs[7]
  {
    var b, a, e := FromLeftFaceStages(K, k, sp, fs);
    assert a.u.suw == b.u.suw && a.u.tu == b.u.tu;
  }

  /** Of the nine curvatures, the left-face derivation's frames and generators
      depend on kwu alone (kvu and kv1u are overwritten, ku1w's surface is
      discarded, the rest are not read), and of the spacings on uSpacing alone. */
  lemma FromLeftFaceReadsOnlyKwu(K: Kernel, k: seq<real>, k2: seq<real>, sp: seq<real>, sp2: seq<real>,
                                 fs: seq<TFrame>)
    requires |k| == 9 && |k2| == 9 && |sp| == 3 && |sp2| == 3 && |fs| == 8
    requires k[1] == k2[1] && sp[0] == sp2[0]
    ensures DeriveFromLeftFace(K, k, sp, fs).frames == DeriveFromLeftFace(K, k2, sp2, fs).frames
    ensures DeriveFromLeftFace(K, k, sp, fs).gens == DeriveFromLeftFace(K, k2, sp2, fs).gens
  {
    var k1, k3 := FaceCurvatures(k), FaceCurvatures(k2);
    assert k1[0] == k3[0] && k1[1] == k3[1] && k1[6] == k3[6];
    assert FaceAxes(K, k1, sp, fs[0], fs[2], fs[4], fs[6]) == FaceAxes(K, k3, sp2, fs[0], fs[2], fs[4], fs[6]);
  }

  /** The pieces of a grid cell that depend only on the w parameter tk (one
      back-to-front slice): the u and v generators of that slice and the
      boost wvu0 that carries the back face to it. */
  datatype Slice = Slice(duv: Pair, dvu: Pair, wvu0: Versor)

  function SliceAt(K: Kernel, fs: seq<TFrame>, gs: seq<Pair>, tk: real): Slice
    requires |fs| == 8 && |gs| == 12
  {
    var wvu0 := K.bst(Scale(gs[Generator.Dwvu0.Slot()], tk));
    var wvu1 := K.bst(Scale(gs[Generator.Dwvu1.Slot()], tk));
    var wuv0 := K.bst(Scale(gs[Generator.Dwuv0.Slot()], tk));
    var wuv1 := K.bst(Scale(gs[Generator.Dwuv1.Slot()], tk));
    var su0v := Normalize(K.spinSphere(fs[0].suv, wvu0));
    var su1v := Normalize(K.spinSphere(fs[1].suv, wvu1));
    var sv0u := Normalize(K.spinSphere(fs[0].svu, wuv0));
    var sv1u := Normalize(K.spinSphere(fs[2].svu, wuv1));
    var u0 := K.spinPair(fs[0].tu, wvu0);
    var u1 := K.spinPair(fs[1].tu, wvu1);
    var duv := CalcGen(K, u0, u1, su0v, su1v);
    var v0 := K.spinPair(fs[0].tv, wuv0);
    var v1 := K.spinPair(fs[2].tv, wuv1);
    var dvu := CalcGen(K, v0, v1, sv0u, sv1u);
    Slice(duv, dvu, wvu0)
  }

  /** calcMappingAt(ti, tj, tk): the transform vu * uv * wvu0 at the
      parameters u = ti, v = tj, w = tk. */
  function MappingAt(K: Kernel, fs: seq<TFrame>, gs: seq<Pair>, ti: real, tj: real, tk: real): (r: Versor)
    requires |fs| == 8 && |gs| == 12
    ensures K.bst(ZeroPair()) == K.identity && ti == 0.0 && tj == 0.0 ==>
              r == K.mul(K.mul(K.identity, K.identity), K.bst(Scale(gs[Generator.Dwvu0.Slot()], tk)))
  {
    var s := SliceAt(K, fs, gs, tk);
    ScaleZero(s.duv);
    ScaleZero(s.dvu);
    assert Scale(s.duv, 0.0) == ZeroPair() && Scale(s.dvu, 0.0) == ZeroPair();
    var uv := K.bst(Scale(s.duv, ti));
    var vu := K.bst(Scale(s.dvu, tj));
    K.mul(K.mul(vu, uv), s.wvu0)
  }

  function ZeroPair(): Pair { [0.0, 0.0, 0.0, 0.0, 0.0, 0.0, 0.0, 0.0, 0.0, 0.0] }

  /** In a kernel whose exponential of the zero generator is the identity and
      whose identity composes with itself, the origin cell is the identity. */
  lemma OriginCellIsIdentity(K: Kernel, fs: seq<TFrame>, gs: seq<Pair>)
    requires |fs| == 8 && |gs| == 12
    requires K.bst(ZeroPair()) == K.identity
    requires K.mul(K.identity, K.identity) == K.identity
    ensures MappingAt(K, fs, gs, 0.0, 0.0, 0.0) == K.identity
  {
    var s := SliceAt(K, fs, gs, 0.0);
    ScaleZero(s.duv);
    ScaleZero(s.dvu);
    ScaleZero(gs[5]);
    assert Scale(s.duv, 0.0) == ZeroPair();
    assert Scale(s.dvu, 0.0) == ZeroPair();
    assert Scale(gs[5], 0.0) == ZeroPair();
  }

  /** The scalar parameter of a point along one edge: the point's surface
      p <= g, its log-ratio against the face's starting surface s, measured
      against the edge generator g itself. */
  function EdgeParam(K: Kernel, p: Point, g: Pair, s: DualSphere): real
  {
    var sp := K.dot(p, g);
    var pair := Scale(K.log(K.ratio(s, sp)), 0.5);
    K.pairScalar(pair, g)
  }

  /** FERROR(x) ? 0 : x */
  function Clamp(K: Kernel, x: real): (r: real)
    ensures K.nearZero(x) ==> r == 0.0
    ensures !K.nearZero(x) ==> r == x
    ensures r == 0.0 || !K.nearZero(r)
  {
    if K.nearZero(x) then 0.0 else x
  }

  /** The FRONT face's (u, v) before the clamp: tangent-aware generator ratios. */
  function FrontParams(K: Kernel, fs: seq<TFrame>, gs: seq<Pair>, p: Point): (uv: (real, real))
    requires |fs| == 8 && |gs| == 12
  {
    var wf, uwf, vwf := fs[Corner.W.Code()], fs[Corner.UW.Code()], fs[Corner.VW.Code()];
    var sv := Normalize(K.dot(Neg(p), gs[Generator.Dvuw1.Slot()]));
    var su := Normalize(K.dot(Neg(p), gs[Generator.Duvw1.Slot()]));
    var svt := K.wedge(sv, p);
    var sut := K.wedge(su, p);
    var vpair := K.originDot(CalcGen(K, wf.tv, svt, wf.svu, sv));
    var vpair2 := K.originDot(CalcGen(K, wf.tv, vwf.tv, wf.svu, vwf.svu));
    var upair := K.originDot(CalcGen(K, wf.tu, sut, wf.suv, su));
    var upair2 := K.originDot(CalcGen(K, wf.tu, uwf.tu, wf.suv, uwf.suv));
    (K.vecScalar(upair, upair2), K.vecScalar(vpair, vpair2))
  }

  /** The coordinate a face holds fixed, and its value there. */
  function FaceLevel(face: Face): real
  {
    match face
    case Left => 0.0
    case Right => 1.0
    case Back => 0.0
    case Front => 1.0
    case Bottom => 0.0
    case Top => 1.0
  }

  /** inverseMapping exactly as written: BACK reports w = 1. */
  function FaceCoordAsWritten(K: Kernel, fs: seq<TFrame>, gs: seq<Pair>, p: Point, face: Face): (r: Coord)
    requires |fs| == 8 && |gs| == 12
    ensures face == Back ==> r.w == 1.0
    ensures face == Back ==> r.(w := 0.0) == FaceCoord(K, fs, gs, p, face)
    ensures face != Back ==> r == FaceCoord(K, fs, gs, p, face)
  {
    if face == Back then
      var r := FaceCoord(K, fs, gs, p, face);
      r.(w := 1.0)
    else FaceCoord(K, fs, gs, p, face)
  }

  /** The BACK face is the face w = 0, yet the code as written reports w = 1 there. */
  lemma BackFaceAsWrittenDisagrees(K: Kernel, fs: seq<TFrame>, gs: seq<Pair>, p: Point)
    requires |fs| == 8 && |gs| == 12
    ensures FaceCoordAsWritten(K, fs, gs, p, Back).w != FaceLevel(Back)
  {
  }

  /** inverseMapping(p, face), with BACK reporting its own level w = 0. LEFT
      and RIGHT fix u, BACK and FRONT fix w; FRONT clamps near-zero u and v
      to 0; BOTTOM and TOP are not implemented and give (0, 0, 0). */
  function FaceCoord(K: Kernel, fs: seq<TFrame>, gs: seq<Pair>, p: Point, face: Face): (r: Coord)
    requires |fs| == 8 && |gs| == 12
    ensures face in {Left, Right} ==> r.u == FaceLevel(face)
    ensures face in {Back, Front} ==> r.w == FaceLevel(face)
    ensures face == Left ==> (r.v == EdgeParam(K, p, gs[Generator.Dvwu0.Slot()], fs[0].svw)
                           && r.w == EdgeParam(K, p, gs[Generator.Dwvu0.Slot()], fs[0].swv))
    ensures face == Right ==> (r.v == EdgeParam(K, p, gs[Generator.Dvwu1.Slot()], fs[1].svw)
                            && r.w == EdgeParam(K, p, gs[Generator.Dwvu1.Slot()], fs[1].swv))
    ensures face == Back ==> (r.u == EdgeParam(K, p, gs[Generator.Duvw0.Slot()], fs[0].suv)
                           && r.v == EdgeParam(K, p, gs[Generator.Dvuw0.Slot()], fs[0].svu))
    ensures face == Front ==> (r.u == 0.0 || !K.nearZero(r.u)) && (r.v == 0.0 || !K.nearZero(r.v))
    ensures face == Front ==> (r.u == Clamp(K, FrontParams(K, fs, gs, p).0)
                            && r.v == Clamp(K, FrontParams(K, fs, gs, p).1))
    ensures face in {Bottom, Top} ==> r == Coord(0.0, 0.0, 0.0)
  {
    match face
    case Left =>
      Coord(0.0, EdgeParam(K, p, gs[Generator.Dvwu0.Slot()], fs[Corner.Origin.Code()].svw),
                 EdgeParam(K, p, gs[Generator.Dwvu0.Slot()], fs[Corner.Origin.Code()].swv))
    case Right =>
      Coord(1.0, EdgeParam(K, p, gs[Generator.Dvwu1.Slot()], fs[Corner.U.Code()].svw),
                 EdgeParam(K, p, gs[Generator.Dwvu1.Slot()], fs[Corner.U.Code()].swv))
    case Back =>
      Coord(EdgeParam(K, p, gs[Generator.Duvw0.Slot()], fs[Corner.Origin.Code()].suv),
            EdgeParam(K, p, gs[Generator.Dvuw0.Slot()], fs[Corner.Origin.Code()].svu), 0.0)
    case Front =>
      var uv := FrontParams(K, fs, gs, p);
      Coord(Clamp(K, uv.0), Clamp(K, uv.1), 1.0)
    case _ => Coord(0.0, 0.0, 0.0)
  }

  /** zeroInit's curvatures: all nine zero. */
  function ZeroCurvatures(): (k: seq<real>)
    ensures |k| == 9 && forall i :: 0 <= i < 9 ==> k[i] == 0.0
  {
    seq(9, _ => 0.0)
  }

  /** zeroInit's spacings: 3 along each axis. */
  function DefaultSpacing(): (sp: seq<real>)
    ensures |sp| == 3 && forall i :: 0 <= i < 3 ==> sp[i] == 3.0
  {
    [3.0, 3.0, 3.0]
  }

  /** The volume a default TVolume holds: the zero curvatures and default
      spacings applied to default frames. */
  function ZeroStage(K: Kernel): (r: Stage)
    ensures |r.frames| == 8 && |r.gens| == 12 && r.k == ZeroCurvatures()
  {
    DeriveSurfaces(K, ZeroCurvatures(), DefaultSpacing(), DefaultFrames(K))
  }

  /** The face copy of TVolume(tv, RIGHT): tv's right face (its u-side corners
      U, UW, UV, UVW) becomes this volume's left face (Origin, W, V, VW); the
      right face's slots keep what they held. */
  function CopyRightFace(fs: seq<TFrame>, other: seq<TFrame>): (r: seq<TFrame>)
    requires |fs| == 8 && |other| == 8
    ensures |r| == 8
    ensures forall c: Corner :: !c.HasU() ==> r[c.Code()] == other[c.Code() + 1]
    ensures forall c: Corner :: c.HasU() ==> r[c.Code()] == fs[c.Code()]
  {
    fs[0 := other[1]][4 := other[5]][2 := other[3]][6 := other[7]]
  }

  /** A cell's place in the sweep of calcMapping: the outer loop runs over w
      (index c), the middle one over u (index a), the inner one over v (index
      b); (a, b, c) has been written once the loops have passed (i, j, k). */
  ghost predicate Swept(a: nat, b: nat, c: nat, i: nat, j: nat, k: nat)
  {
    c < i || (c == i && (a < j || (a == j && b < k)))
  }

  /** calcMapping's parameter of grid index n along an axis of res >= 2 samples: n / (res - 1). */
  function GridParam(n: nat, res: nat): (t: real)
    requires res >= 2
    ensures n == 0 ==> t == 0.0
    ensures n == res - 1 ==> t == 1.0
  {
    n as real / (res - 1) as real
  }

  /** The state of calcMapping's sweep once it has reached (i, j, k):
      exactly the cells before (i, j, k) in sweep order have been written,
      once each, and each holds the value `want` gives it. */
  ghost predicate Progress(m: Mapping, want: (nat, nat, nat) -> Versor, hits: seq<nat>, i: nat, j: nat, k: nat)
    reads m, m.cells
    requires m.Valid()
  {
    && |hits| == m.resU * m.resV * m.resW
    && (forall a: nat, b: nat, c: nat :: a < m.resU && b < m.resV && c < m.resW ==>
          hits[Slot(a, b, c, m.resU, m.resV, m.resW)] == if Swept(a, b, c, i, j, k) then 1 else 0)
    && (forall a: nat, b: nat, c: nat :: a < m.resU && b < m.resV && c < m.resW && Swept(a, b, c, i, j, k) ==>
          m.At(a, b, c) == want(a, b, c))
  }

  /** One pass of calcMapping's outer loop: the slice at w = i / (resW - 1). */
  method FillSlice(K: Kernel, fs: seq<TFrame>, gs: seq<Pair>, m: Mapping, ghost want: (nat, nat, nat) -> Versor,
                   i: nat, ghost hits0: seq<nat>) returns (ghost hits: seq<nat>)
    requires |fs| == 8 && |gs| == 12
    requires m.Valid() && m.resU >= 2 && m.resV >= 2 && m.resW >= 2 && i < m.resW
    requires forall a: nat, b: nat :: a < m.resU && b < m.resV ==>
               want(a, b, i) == MappingAt(K, fs, gs, GridParam(a, m.resU), GridParam(b, m.resV), GridParam(i, m.resW))
    requires Progress(m, want, hits0, i, 0, 0)
    modifies m.cells
    ensures Progress(m, want, hits, i + 1, 0, 0)
  {
    var s := SliceAt(K, fs, gs, GridParam(i, m.resW));
    hits := hits0;
    var j := 0;
    while j < m.resU
      invariant 0 <= j <= m.resU
      invariant Progress(m, want, hits, i, j, 0)
    {
      hits := FillRow(K, s, m, want, i, j, hits);
      j := j + 1;
    }
  }

  /** One pass of calcMapping's middle loop: the row at u = j / (resU - 1)
      of slice s. */
  method FillRow(K: Kernel, s: Slice, m: Mapping, ghost want: (nat, nat, nat) -> Versor,
                 i: nat, j: nat, ghost hits0: seq<nat>) returns (ghost hits: seq<nat>)
    requires m.Valid() && m.resU >= 2 && m.resV >= 2 && m.resW >= 2 && i < m.resW && j < m.resU
    requires forall b: nat :: b < m.resV ==>
               want(j, b, i) == K.mul(K.mul(K.bst(Scale(s.dvu, GridParam(b, m.resV))),
                                            K.bst(Scale(s.duv, GridParam(j, m.resU)))), s.wvu0)
    requires Progress(m, want, hits0, i, j, 0)
    modifies m.cells
    ensures Progress(m, want, hits, i, j + 1, 0)
  {
    var uv := K.bst(Scale(s.duv, GridParam(j, m.resU)));
    hits := hits0;
    var k := 0;
    while k < m.resV
      invariant 0 <= k <= m.resV
      invariant Progress(m, want, hits, i, j, k)
    {
      var vu := K.bst(Scale(s.dvu, GridParam(k, m.resV)));
      hits := FillCell(m, want, i, j, k, K.mul(K.mul(vu, uv), s.wvu0), hits);
      k := k + 1;
    }
  }

  /** The body of calcMapping's inner loop: cell (j, k, i) gets its value. */
  method FillCell(m: Mapping, ghost want: (nat, nat, nat) -> Versor, i: nat, j: nat, k: nat, kw: Versor,
                  ghost hits0: seq<nat>) returns (ghost hits: seq<nat>)
    requires m.Valid() && i < m.resW && j < m.resU && k < m.resV
    requires want(j, k, i) == kw
    requires Progress(m, want, hits0, i, j, k)
    modifies m.cells
    ensures Progress(m, want, hits, i, j, k + 1)
  {
    m.Put(j, k, i, kw);
    var n := Slot(j, k, i, m.resU, m.resV, m.resW);
    hits := hits0[n := hits0[n] + 1];
    forall a: nat, b: nat, c: nat | a < m.resU && b < m.resV && c < m.resW
      ensures hits[Slot(a, b, c, m.resU, m.resV, m.resW)] == if Swept(a, b, c, i, j, k + 1) then 1 else 0
    {
      if (a, b, c) != (j, k, i) {
        if Index(a, b, c, m.resV, m.resW) == Index(j, k, i, m.resV, m.resW) {
          IndexInjective(a, b, c, j, k, i, m.resV, m.resW);
        }
        assert Swept(a, b, c, i, j, k + 1) == Swept(a, b, c, i, j, k);
      }
    }
  }

  /** The volume proper: curvatures, spacings, corner frames and generators,
      held in fixed-size arrays the operations update in place. */
  class TVolume {
    const alg: Kernel
    const k: array<real>
    const spacing: array<real>
    const frames: array<TFrame>
    const gen: array<Pair>

    ghost predicate Valid()
      reads this
    {
      k.Length == 9 && spacing.Length == 3 && frames.Length == 8 && gen.Length == 12 && k != spacing
    }

    /** TVolume(): a zero volume. */
    constructor (K: Kernel)
      ensures Valid() && alg == K
      ensures fresh(k) && fresh(spacing) && fresh(frames) && fresh(gen)
      ensures k[..] == ZeroCurvatures() && spacing[..] == DefaultSpacing()
      ensures frames[..] == ZeroStage(K).frames && gen[..] == ZeroStage(K).gens
    {
      alg := K;
      k := new real[9];
      spacing := new real[3];
      frames := new TFrame[8](_ => DefaultTFrame(K));
      gen := new Pair[12](_ => ZeroPair());
      new;
      assert frames[..] == DefaultFrames(K);
      ZeroInit();
    }

    /** TVolume(kvu, ..., wSpacing): the nine curvatures and three spacings as
        given, and everything else derived from them. */
    constructor Curved(K: Kernel, kvu: real, kwu: real, kuv: real, kwv: real, kuw: real, kvw: real,
                       kv1u: real, ku1w: real, kw1v: real, uSpacing: real, vSpacing: real, wSpacing: real)
      ensures Valid() && alg == K
      ensures fresh(k) && fresh(spacing) && fresh(frames) && fresh(gen)
      ensures k[..] == [kvu, kwu, kuv, kwv, kuw, kvw, kv1u, ku1w, kw1v]
      ensures spacing[..] == [uSpacing, vSpacing, wSpacing]
      ensures var d := DeriveSurfaces(K, k[..], spacing[..], DefaultFrames(K));
              frames[..] == d.frames && gen[..] == d.gens
    {
      alg := K;
      k := new real[9];
      spacing := new real[3];
      frames := new TFrame[8](_ => DefaultTFrame(K));
      gen := new Pair[12](_ => ZeroPair());
      new;
      var ks := [kvu, kwu, kuv, kwv, kuw, kvw, kv1u, ku1w, kw1v];
      var sps := [uSpacing, vSpacing, wSpacing];
      Assign(ks, sps, DeriveSurfaces(K, ks, sps, DefaultFrames(K)));
    }

    /** TVolume(tv, face): a zero volume; for RIGHT, its left face is tv's
        right face and the rest is derived from that face. */
    constructor FromFace(tv: TVolume, face: Face)
      requires tv.Valid()
      ensures Valid() && alg == tv.alg
      ensures fresh(k) && fresh(spacing) && fresh(frames) && fresh(gen)
      ensures spacing[..] == DefaultSpacing()
      ensures face != Right ==>
                k[..] == ZeroCurvatures() && frames[..] == ZeroStage(alg).frames && gen[..] == ZeroStage(alg).gens
      ensures face == Right ==>
                var d := DeriveFromLeftFace(alg, ZeroCurvatures(), DefaultSpacing(),
                                            CopyRightFace(ZeroStage(alg).frames, old(tv.frames[..])));
                k[..] == d.k && frames[..] == d.frames && gen[..] == d.gens
    {
      var other := tv.frames[..];
      alg := tv.alg;
      k := new real[9];
      spacing := new real[3];
      frames := new TFrame[8](_ => DefaultTFrame(tv.alg));
      gen := new Pair[12](_ => ZeroPair());
      new;
      // zeroInit, then for RIGHT the face copy and calcSurfacesFromFace(LEFT)
      var zero := ZeroStage(alg);
      if face == Right {
        Assign(ZeroCurvatures(), DefaultSpacing(), zero.(frames := CopyRightFace(zero.frames, other)));
        CalcSurfacesFromLeft();
      } else {
        Assign(ZeroCurvatures(), DefaultSpacing(), zero);
      }
    }

    /** Overwrites the four arrays with the given curvatures, spacings and stage. */
    method Assign(ks: seq<real>, sps: seq<real>, d: Stage)
      requires Valid() && |ks| == 9 && |sps| == 3 && |d.frames| == 8 && |d.gens| == 12
      modifies k, spacing, frames, gen
      ensures k[..] == ks && spacing[..] == sps && frames[..] == d.frames && gen[..] == d.gens
    {
      forall i | 0 <= i < 9 {
        k[i] := ks[i];
      }
      forall i | 0 <= i < 3 {
        spacing[i] := sps[i];
      }
      forall i | 0 <= i < 8 {
        frames[i] := d.frames[i];
      }
      forall i | 0 <= i < 12 {
        gen[i] := d.gens[i];
      }
    }

    /** zeroInit(): curvatures zero, spacings 3, then calcSurfaces. */
    method ZeroInit()
      requires Valid()
      modifies k, spacing, frames, gen
      ensures k[..] == ZeroCurvatures() && spacing[..] == DefaultSpacing()
      ensures var d := DeriveSurfaces(alg, ZeroCurvatures(), DefaultSpacing(), old(frames[..]));
              frames[..] == d.frames && gen[..] == d.gens
    {
      Assign(ZeroCurvatures(), DefaultSpacing(), DeriveSurfaces(alg, ZeroCurvatures(), DefaultSpacing(), frames[..]));
    }

    /** calcSurfaces(): every frame and generator rewritten from the
        curvatures, the spacings and the current frames. */
    method CalcSurfaces()
      requires Valid()
      modifies k, spacing, frames, gen
      ensures k[..] == old(k[..]) && spacing[..] == old(spacing[..])
      ensures var d := DeriveSurfaces(alg, old(k[..]), old(spacing[..]), old(frames[..]));
              frames[..] == d.frames && gen[..] == d.gens
    {
      Assign(k[..], spacing[..], DeriveSurfaces(alg, k[..], spacing[..], frames[..]));
    }

    /** calcSurfacesFromFace(face): LEFT re-derives the volume from its left
        face; every other face changes nothing. */
    method CalcSurfacesFromFace(face: Face)
      requires Valid()
      modifies k, spacing, frames, gen
      ensures spacing[..] == old(spacing[..])
      ensures face == Left ==>
                var d := DeriveFromLeftFace(alg, old(k[..]), old(spacing[..]), old(frames[..]));
                k[..] == d.k && frames[..] == d.frames && gen[..] == d.gens
      ensures face != Left ==> k[..] == old(k[..]) && frames[..] == old(frames[..]) && gen[..] == old(gen[..])
    {
      if face == Left {
        CalcSurfacesFromLeft();
      }
    }

    /** The LEFT case of calcSurfacesFromFace. */
    method CalcSurfacesFromLeft()
      requires Valid()
      modifies k, spacing, frames, gen
      ensures spacing[..] == old(spacing[..])
      ensures var d := DeriveFromLeftFace(alg, old(k[..]), old(spacing[..]), old(frames[..]));
              k[..] == d.k && frames[..] == d.frames && gen[..] == d.gens
    {
      var d := DeriveFromLeftFace(alg, k[..], spacing[..], frames[..]);
      Assign(d.k, spacing[..], d);
    }

    /** Read access to a corner frame (tf(), uf(), ..., uvwf()). */
    function Frame(c: Corner): (f: TFrame)
      reads this, frames
      requires Valid()
      ensures f == frames[(if c.HasU() then 1 else 0) + (if c.HasV() then 2 else 0) + (if c.HasW() then 4 else 0)]
    {
      frames[c.Code()]
    }

    /** calcMappingAt(ti, tj, tk) on the current frames and generators. */
    function CalcMappingAt(ti: real, tj: real, tk: real): (r: Versor)
      reads this, frames, gen
      requires Valid()
      ensures alg.bst(ZeroPair()) == alg.identity && ti == 0.0 && tj == 0.0 ==>
                r == alg.mul(alg.mul(alg.identity, alg.identity), alg.bst(Scale(gen[Generator.Dwvu0.Slot()], tk)))
    {
      MappingAt(alg, frames[..], gen[..], ti, tj, tk)
    }

    /** calcMapping(resU, resV, resW): a fresh grid whose cell (j, k, i) is
        calcMappingAt at u = j / (resU - 1), v = k / (resV - 1),
        w = i / (resW - 1); every cell of the grid is written exactly once
        (`hits` counts the writes to each storage slot). */
    method CalcMapping(resU: nat, resV: nat, resW: nat) returns (m: Mapping, ghost hits: seq<nat>)
      requires Valid()
      requires resU >= 2 && resV >= 2 && resW >= 2
      ensures fresh(m) && fresh(m.cells) && m.Valid()
      ensures m.resU == resU && m.resV == resV && m.resW == resW
      ensures forall a: nat, b: nat, c: nat :: a < resU && b < resV && c < resW ==>
                m.At(a, b, c) == CalcMappingAt(GridParam(a, resU), GridParam(b, resV), GridParam(c, resW))
      ensures |hits| == resU * resV * resW && forall n :: 0 <= n < |hits| ==> hits[n] == 1
    {
      m := new Mapping(resU, resV, resW, alg.blank);
      hits := seq(resU * resV * resW, _ => 0);
      var K, fs, gs := alg, frames[..], gen[..];
      ghost var want := (a: nat, b: nat, c: nat) =>
        MappingAt(K, fs, gs, GridParam(a, resU), GridParam(b, resV), GridParam(c, resW));
      var i := 0;
      while i < resW
        invariant 0 <= i <= resW && m.Valid() && fresh(m.cells)
        invariant m.resU == resU && m.resV == resV && m.resW == resW
        invariant Progress(m, want, hits, i, 0, 0)
      {
        hits := FillSlice(K, fs, gs, m, want, i, hits);
        i := i + 1;
      }
      forall a: nat, b: nat, c: nat | a < resU && b < resV && c < resW
        ensures m.At(a, b, c) == CalcMappingAt(GridParam(a, resU), GridParam(b, resV), GridParam(c, resW))
      {
        assert Swept(a, b, c, resW, 0, 0);
      }
      forall n | 0 <= n < |hits|
        ensures hits[n] == 1
      {
        var a, b, c := Decode(n, resU, resV, resW);
        assert Slot(a, b, c, resU, resV, resW) == n;
      }
    }

    /** inverseMapping(p, face) on the current frames and generators, with
        BACK reporting its own level w = 0; on every other face, and in u and
        v on BACK, it is the code as written. */
    function InverseMapping(p: Point, face: Face): (r: Coord)
      reads this, frames, gen
      requires Valid()
      ensures face in {Left, Right} ==> r.u == FaceLevel(face)
      ensures face in {Back, Front} ==> r.w == FaceLevel(face)
      ensures r == FaceCoord(alg, frames[..], gen[..], p, face)
      ensures face != Back ==> r == FaceCoordAsWritten(alg, frames[..], gen[..], p, face)
      ensures face == Back ==> r == FaceCoordAsWritten(alg, frames[..], gen[..], p, face).(w := 0.0)
    {
      FaceCoord(alg, frames[..], gen[..], p, face)
    }
  }
}
