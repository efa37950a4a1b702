/** TFrame: one local tangent frame (three tangent pairs) with its six
    constant-coordinate surfaces, and the scalar decision rules that the
    volume code builds on (Normalize, the sign tables of CalcGen/CalcGen2). */
module TFrames {
  import opened Kernel

  /** Sign of the infinity used for the flat surfaces (FSIGN). */
  const FSign: real := 1.0
  /** Default value of the flip flags of xf (FLIP). */
  const Flip: bool := false

  /** |x| */
  function Abs(x: real): real { if x < 0.0 then -x else x }

  /** Scale a dual sphere so that its `no` weight is +1 or -1, keeping the
      sign of that weight; a flat sphere (a plane, weight 0) is kept as it is. */
  function Normalize(s: DualSphere): (r: DualSphere)
    ensures s[3] == 0.0 ==> r == s
    ensures s[3] != 0.0 ==> forall i :: 0 <= i < 5 ==> r[i] == s[i] / Abs(s[3])
    ensures s[3] > 0.0 ==> r[3] == 1.0
    ensures s[3] < 0.0 ==> r[3] == -1.0
  {
    var flip := if s[3] < 0.0 then -1.0 else 1.0;
    var isFlat := s[3] == 0.0;
    Scale(if isFlat then [s[0], s[1], s[2], 0.0, s[4]] else Scale(s, 1.0 / s[3]), flip)
  }

  /** A normalised dual sphere has weight 0, +1 or -1. */
  predicate IsNormal(s: DualSphere)
  {
    s[3] == 0.0 || s[3] == 1.0 || s[3] == -1.0
  }

  lemma NormalizeIsNormal(s: DualSphere)
    ensures IsNormal(Normalize(s))
  {
  }

  /** Normalising a normalised sphere changes nothing. */
  lemma NormalizeFixesNormal(s: DualSphere)
    requires IsNormal(s)
    ensures Normalize(s) == s
  {
    if s[3] == -1.0 {
      assert forall i :: 0 <= i < 5 ==> Normalize(s)[i] == s[i];
    }
  }

  /** Normalize is idempotent. */
  lemma NormalizeIdempotent(s: DualSphere)
    ensures Normalize(Normalize(s)) == Normalize(s)
  {
    NormalizeIsNormal(s);
    NormalizeFixesNormal(Normalize(s));
  }

  /** The orientation sign of CalcGen: -1 exactly when the first tangent's
      side test against `beg` and the second's against `end` disagree. */
  function CalcGenSign(begDotP1: Vec5, endDotP2: Vec5): (sign: real)
    ensures sign == 1.0 || sign == -1.0
    ensures sign == -1.0 <==> ((begDotP1[3] > 0.0) != (endDotP2[3] > 0.0))
  {
    var flipA := begDotP1[3] > 0.0;
    var flipB := endDotP2[3] > 0.0;
    if flipA != flipB then -1.0 else 1.0
  }

  /** The ratio of the two surfaces as CalcGen hands it to the logarithm. */
  function CalcGenRatio(K: Kernel, p1: Pair, p2: Pair, beg: DualSphere, end: DualSphere): (r: Versor)
    ensures ((K.dot(beg, p1)[3] > 0.0) == (K.dot(end, p2)[3] > 0.0)) ==> r == K.ratio(beg, end)
    ensures ((K.dot(beg, p1)[3] > 0.0) != (K.dot(end, p2)[3] > 0.0)) ==> r == Neg(K.ratio(beg, end))
  {
    var sign := CalcGenSign(K.dot(beg, p1), K.dot(end, p2));
    var r := Scale(K.ratio(beg, end), sign);
    assert sign == 1.0 ==> r == K.ratio(beg, end);
    assert sign == -1.0 ==> r == Neg(K.ratio(beg, end));
    r
  }

  /** The pair generator whose exponential carries `beg` to `end`, given the
      tangents p1 (on beg) and p2 (on end): half the logarithm of the
      sign-corrected ratio, with the third test (p1's location on the positive
      side of `end`, beyond FPERROR) passed on to the logarithm. */
  function CalcGen(K: Kernel, p1: Pair, p2: Pair, beg: DualSphere, end: DualSphere): (g: Pair)
    ensures var flipC := K.inner(K.location(p1), end) > K.fpError;
            ((K.dot(beg, p1)[3] > 0.0) == (K.dot(end, p2)[3] > 0.0)) ==>
              g == Scale(K.logSigned(K.ratio(beg, end), flipC), 0.5)
    ensures var flipC := K.inner(K.location(p1), end) > K.fpError;
            ((K.dot(beg, p1)[3] > 0.0) != (K.dot(end, p2)[3] > 0.0)) ==>
              g == Scale(K.logSigned(Neg(K.ratio(beg, end)), flipC), 0.5)
  {
    var flipC := K.inner(K.location(p1), end) > K.fpError;
    Scale(K.logSigned(CalcGenRatio(K, p1, p2, beg, end), flipC), 0.5)
  }

  /** The sign of CalcGen2: -1 exactly when the ratio's scalar part is
      negative and the test point lies on the positive side of `end`. */
  function CalcGen2Sign(ratio0: real, sense: real): (sign: real)
    ensures sign == 1.0 || sign == -1.0
    ensures sign == -1.0 <==> (ratio0 < 0.0 && sense > 0.0)
  {
    var isense := sense > 0.0;
    var iratio := ratio0 < 0.0;
    if iratio then (if isense then -1.0 else 1.0) else 1.0
  }

  /** The ratio CalcGen2 hands to the logarithm: when the test point is on the
      positive side of `end`, its scalar part is never negative. */
  function CalcGen2Ratio(K: Kernel, p: Point, beg: DualSphere, end: DualSphere): (r: Versor)
    ensures r == K.ratio(beg, end) || r == Neg(K.ratio(beg, end))
    ensures K.inner(p, end) > 0.0 ==> r[0] >= 0.0
    ensures K.inner(p, end) <= 0.0 ==> r == K.ratio(beg, end)
    ensures K.ratio(beg, end)[0] >= 0.0 ==> r == K.ratio(beg, end)
  {
    var ratio := K.ratio(beg, end);
    var sign := CalcGen2Sign(ratio[0], K.inner(p, end));
    var r := Scale(ratio, sign);
    assert sign == 1.0 ==> r == ratio;
    assert sign == -1.0 ==> r == Neg(ratio);
    r
  }

  /** The single-surface-pair generator, without tangent inputs. */
  function CalcGen2(K: Kernel, p: Point, beg: DualSphere, end: DualSphere): (g: Pair)
    ensures (K.inner(p, end) <= 0.0 || K.ratio(beg, end)[0] >= 0.0) ==>
              g == Scale(K.log(K.ratio(beg, end)), 0.5)
    ensures (K.inner(p, end) > 0.0 && K.ratio(beg, end)[0] < 0.0) ==>
              g == Scale(K.log(Neg(K.ratio(beg, end))), 0.5)
  {
    Scale(K.log(CalcGen2Ratio(K, p, beg, end)), 0.5)
  }

  /** Pair(-dir(t).unit()).trs(location(t)): a unit tangent at t's location. */
  function NormalizePair(K: Kernel, t: Pair): Pair
  {
    K.trsPair(K.tnv(K.direction(t)), K.location(t))
  }

  /** A constant-coordinate surface through the frame's position with
      tangent t, bent by curvature k: Normalize((Inf <= t) * (t * k + 1)),
      whose vector part is (Inf <= t) + k ((Inf <= t) <= t). */
  function Bend(K: Kernel, t: Pair, k: real): (r: DualSphere)
    ensures IsNormal(r)
    ensures k == 0.0 && K.infDot(t)[3] == 0.0 ==> r == K.infDot(t)
  {
    var plane := K.infDot(t);
    var bent := Add(plane, Scale(K.dot(plane, t), k));
    assert k == 0.0 ==> bent == plane;
    Normalize(bent)
  }

  datatype TFrame = TFrame(
    tu: Pair, tv: Pair, tw: Pair,          // tangents
    svu: DualSphere, swu: DualSphere,      // surfaces of constant v (resp. w) along u
    suv: DualSphere, swv: DualSphere,      // ... along v
    suw: DualSphere, svw: DualSphere)      // ... along w
  {
    /** Negate the u tangent; nothing else changes. */
    function UFlip(): (r: TFrame)
      ensures r.tu == Neg(tu) && r.(tu := tu) == this
    {
      this.(tu := Neg(tu))
    }

    /** Negate the v tangent; nothing else changes. */
    function VFlip(): (r: TFrame)
      ensures r.tv == Neg(tv) && r.(tv := tv) == this
    {
      this.(tv := Neg(tv))
    }

    /** Negate the w tangent; nothing else changes. */
    function WFlip(): (r: TFrame)
      ensures r.tw == Neg(tw) && r.(tw := tw) == this
    {
      this.(tw := Neg(tw))
    }
  }

  /** Flipping a tangent twice restores the frame. */
  lemma FlipTwice(f: TFrame)
    ensures f.UFlip().UFlip() == f
    ensures f.VFlip().VFlip() == f
    ensures f.WFlip().WFlip() == f
  {
    NegInvolutive(f.tu);
    NegInvolutive(f.tv);
    NegInvolutive(f.tw);
  }

  /** A flip of a tangent with a nonzero coefficient changes the frame. */
  lemma FlipChanges(f: TFrame, i: nat)
    requires i < 10 && f.tu[i] != 0.0
    ensures f.UFlip() != f
  {
    NegNotFixed(f.tu, i);
  }

  /** The surfaces default to planes: each axis's two surfaces are the plane
      Inf <= t of that axis's tangent. Tangents are kept. */
  function FlatSurfaces(K: Kernel, f: TFrame): (r: TFrame)
    ensures r.tu == f.tu && r.tv == f.tv && r.tw == f.tw
    ensures r.svu == r.svw == K.infDot(f.tv)
    ensures r.suv == r.suw == K.infDot(f.tu)
    ensures r.swu == r.swv == K.infDot(f.tw)
  {
    var sv := K.infDot(f.tv);
    var su := K.infDot(f.tu);
    var sw := K.infDot(f.tw);
    f.(svu := sv, svw := sv, suv := su, suw := su, swu := sw, swv := sw)
  }

  /** TFrame(tu, tv, tw): the tangents with flat surfaces. */
  function MakeTFrame(K: Kernel, tu: Pair, tv: Pair, tw: Pair): (r: TFrame)
    ensures r == FlatSurfaces(K, r)
    ensures r.tu == tu && r.tv == tv && r.tw == tw
  {
    var sv, sw, su := K.infDot(tv), K.infDot(tw), K.infDot(tu);
    TFrame(tu, tv, tw, sv, sw, su, sw, su, sv)
  }

  /** TFrame(): the canonical axis tangents at the origin, flat surfaces. */
  function DefaultTFrame(K: Kernel): TFrame
  {
    MakeTFrame(K, K.tnvU, K.tnvV, K.tnvW)
  }

  function USurf(K: Kernel, f: TFrame, ku: real): DualSphere { Bend(K, f.tu, ku) }
  function VSurf(K: Kernel, f: TFrame, kv: real): DualSphere { Bend(K, f.tv, kv) }
  function WSurf(K: Kernel, f: TFrame, kw: real): DualSphere { Bend(K, f.tw, kw) }

  /** surfaces(): the six surfaces from six curvatures; the tangents are kept. */
  function Surfaces(K: Kernel, f: TFrame, kvu: real, kwu: real, kuv: real, kwv: real,
                    kuw: real, kvw: real): (r: TFrame)
    ensures r.tu == f.tu && r.tv == f.tv && r.tw == f.tw
    ensures r.svu == VSurf(K, f, kvu) && r.swu == WSurf(K, f, kwu)
    ensures r.suv == USurf(K, f, kuv) && r.swv == WSurf(K, f, kwv)
    ensures r.suw == USurf(K, f, kuw) && r.svw == VSurf(K, f, kvw)
    ensures IsNormal(r.svu) && IsNormal(r.swu) && IsNormal(r.suv)
    ensures IsNormal(r.swv) && IsNormal(r.suw) && IsNormal(r.svw)
  {
    f.(svu := VSurf(K, f, kvu), swu := WSurf(K, f, kwu),
       suv := USurf(K, f, kuv), swv := WSurf(K, f, kwv),
       suw := USurf(K, f, kuw), svw := VSurf(K, f, kvw))
  }

  /** With every curvature zero, surfaces() reproduces flatSurfaces(). */
  lemma UncurvedSurfacesAreFlat(K: Kernel, f: TFrame)
    requires K.infDot(f.tu)[3] == 0.0 && K.infDot(f.tv)[3] == 0.0 && K.infDot(f.tw)[3] == 0.0
    ensures Surfaces(K, f, 0.0, 0.0, 0.0, 0.0, 0.0, 0.0) == FlatSurfaces(K, f)
  {
  }

  /** The frame's position, the location of its u tangent. */
  function Pos(K: Kernel, f: TFrame): Point { K.location(f.tu) }

  /** The bend-then-translate versor along a tangent `t` of the frame:
      bst((a * ka + b * kb) * -.5) * trs(dir(t) * dist). */
  function Curving(K: Kernel, t: Pair, a: Pair, ka: real, b: Pair, kb: real, dist: real): Versor
  {
    K.mul(K.bst(Scale(Add(Scale(a, ka), Scale(b, kb)), -0.5)), K.trs(Scale(K.direction(t), dist)))
  }

  function Uc(K: Kernel, f: TFrame, kvu: real, kwu: real, dist: real): Versor
  {
    Curving(K, f.tu, f.tv, kvu, f.tw, kwu, dist)
  }

  function Vc(K: Kernel, f: TFrame, kuv: real, kwv: real, dist: real): Versor
  {
    Curving(K, f.tv, f.tu, kuv, f.tw, kwv, dist)
  }

  function Wc(K: Kernel, f: TFrame, kuw: real, kvw: real, dist: real): Versor
  {
    Curving(K, f.tw, f.tu, kuw, f.tv, kvw, dist)
  }

  /** xf: carry the tangents by a versor, re-derive each as a unit tangent at
      its carried location, negate the flagged ones, and start from flat
      surfaces. */
  function Xf(K: Kernel, f: TFrame, k: Versor, uflip: bool, vflip: bool, wflip: bool): (r: TFrame)
    ensures r.tu == Signed(NormalizePair(K, K.spinPair(f.tu, k)), uflip)
    ensures r.tv == Signed(NormalizePair(K, K.spinPair(f.tv, k)), vflip)
    ensures r.tw == Signed(NormalizePair(K, K.spinPair(f.tw, k)), wflip)
    ensures r == FlatSurfaces(K, r)
  {
    MakeTFrame(K, Signed(NormalizePair(K, K.spinPair(f.tu, k)), uflip),
                  Signed(NormalizePair(K, K.spinPair(f.tv, k)), vflip),
                  Signed(NormalizePair(K, K.spinPair(f.tw, k)), wflip))
  }

  /** Each flip flag of xf negates exactly its own tangent of the result and
      leaves the other two tangents as they are. */
  lemma XfFlagNegatesOneTangent(K: Kernel, f: TFrame, k: Versor, uflip: bool, vflip: bool, wflip: bool)
    ensures var a, b := Xf(K, f, k, true, vflip, wflip), Xf(K, f, k, false, vflip, wflip);
            a.tu == Neg(b.tu) && a.tv == b.tv && a.tw == b.tw
    ensures var a, b := Xf(K, f, k, uflip, true, wflip), Xf(K, f, k, uflip, false, wflip);
            a.tv == Neg(b.tv) && a.tu == b.tu && a.tw == b.tw
    ensures var a, b := Xf(K, f, k, uflip, vflip, true), Xf(K, f, k, uflip, vflip, false);
            a.tw == Neg(b.tw) && a.tu == b.tu && a.tv == b.tv
  {
  }

  /** xf reads only the tangents of the frame it transforms: frames with the
      same tangents, whatever their surfaces, give the same result. */
  lemma XfReadsOnlyTangents(K: Kernel, f: TFrame, g: TFrame, k: Versor, uflip: bool, vflip: bool, wflip: bool)
    requires f.tu == g.tu && f.tv == g.tv && f.tw == g.tw
    ensures Xf(K, f, k, uflip, vflip, wflip) == Xf(K, g, k, uflip, vflip, wflip)
  {
  }

  // The six edge generators from this frame to a neighbour g (surfaces() must have run).
  function Duv(K: Kernel, f: TFrame, g: TFrame): Pair { CalcGen(K, f.tu, g.tu, f.suv, g.suv) }
  function Duw(K: Kernel, f: TFrame, g: TFrame): Pair { CalcGen(K, f.tu, g.tu, f.suw, g.suw) }
  function Dvu(K: Kernel, f: TFrame, g: TFrame): Pair { CalcGen(K, f.tv, g.tv, f.svu, g.svu) }
  function Dvw(K: Kernel, f: TFrame, g: TFrame): Pair { CalcGen(K, f.tv, g.tv, f.svw, g.svw) }
  function Dwu(K: Kernel, f: TFrame, g: TFrame): Pair { CalcGen(K, f.tw, g.tw, f.swu, g.swu) }
  function Dwv(K: Kernel, f: TFrame, g: TFrame): Pair { CalcGen(K, f.tw, g.tw, f.swv, g.swv) }
}
