/** The conformal geometric-algebra kernel that the tangent-frame code consumes.

    Blades are kept as coefficient sequences: vector-grade elements (dual spheres,
    points, planes, direct spheres) have five coefficients in the basis
    e1, e2, e3, no, ni (so index 3 is the `no` weight that Normalize divides by);
    bivector-grade pairs and trivector-grade circles have ten.  Versors (Con,
    Boost, the normalised ratio of two spheres) are coefficient sequences whose
    index 0 is the scalar part.

    The products, logarithms, exponentials and duals of the kernel are not part
    of this model: they are the uninterpreted function fields of `Kernel`, and
    every operation of the model takes the kernel it works in as a value. */
module Kernel {

  type Vec3 = s: seq<real> | |s| == 3 witness [0.0, 0.0, 0.0]
  type Vec5 = s: seq<real> | |s| == 5 witness [0.0, 0.0, 0.0, 0.0, 0.0]
  type Vec10 = s: seq<real> | |s| == 10
    witness [0.0, 0.0, 0.0, 0.0, 0.0, 0.0, 0.0, 0.0, 0.0, 0.0]
  type Versor = s: seq<real> | |s| >= 1 witness [1.0]

  type DualSphere = Vec5
  type Point = Vec5
  type Sphere = Vec5
  type Pair = Vec10
  type Circle = Vec10

  datatype Option<T> = None | Some(value: T)

  /** A rigid frame (the `Frame` base class): a position and a rotor. */
  datatype RigidFrame = RigidFrame(pos: Point, rot: Versor)

  /** The uninterpreted kernel. Each field names the source operation it stands for. */
  datatype Kernel = Kernel(
    bst: Pair -> Versor,                         // Gen::bst, exponential of a pair generator
    boost: Pair -> Versor,                       // Gen::boost
    trs: Vec3 -> Versor,                         // Gen::trs, translation by a vector
    mul: (Versor, Versor) -> Versor,             // versor composition a * b
    spinSphere: (DualSphere, Versor) -> DualSphere,  // s.spin(v)
    spinPair: (Pair, Versor) -> Pair,            // t.spin(v)
    ratio: (DualSphere, DualSphere) -> Versor,   // ratio(beg, end) = (end / beg).tunit()
    log: Versor -> Pair,                         // Gen::log(r)
    logSigned: (Versor, bool) -> Pair,           // Gen::log(r, flip, true)
    infDot: Pair -> DualSphere,                  // Inf(1) <= t
    dot: (Vec5, Pair) -> Vec5,                   // vector <= pair
    inner: (Vec5, Vec5) -> real,                 // (a <= b)[0], scalar inner product
    pairScalar: (Pair, Pair) -> real,            // (a <= !b)[0]
    vecScalar: (Vec5, Vec5) -> real,             // (a <= !b)[0]
    location: Pair -> Point,                     // Round::location
    direction: Pair -> Vec3,                     // -Round::dir(t).copy<Vec>().unit()
    tnv: Vec3 -> Pair,                           // Pair(vec.copy<Tnv>()), a tangent at the origin
    trsPair: (Pair, Point) -> Pair,              // t.trs(p)
    wedge: (Vec5, Point) -> Pair,                // s ^ p
    planeDual: (Point, Point, Point) -> Vec5,    // (a ^ b ^ c ^ Inf(1)).dual()
    meetDual: (Vec5, Vec5, Vec5) -> Vec5,        // (a ^ b ^ c).dual()
    unitNull: Vec5 -> Point,                     // p /= p[3]; p.null()
    originDot: Pair -> Vec5,                     // Ori(1) <= t
    frameTangent: (RigidFrame, nat) -> Pair,     // Frame::tx / ty / tz
    undual: Pair -> Circle,                      // t.undual()
    dual: Circle -> Pair,                        // c.dual()
    wedgeCircle: (Circle, Point) -> Sphere,      // c ^ p
    tangentAt: (Sphere, Point) -> Circle,        // Tangent::at(s, p)
    meetSpheres: (Sphere, Sphere) -> Circle,     // (a.dual() ^ b.dual()).undual()
    circleThrough: (Point, Point, Point) -> Circle,  // a ^ b ^ c
    meetSphereCircle: (DualSphere, Circle) -> Pair,  // (s ^ c.dual()).dual()
    meetCircles: (Circle, Circle) -> Pair,       // (Round::surround(a) ^ b.dual()).dual()
    pointA: Pair -> Point,                       // Construct::pointA
    pointB: Pair -> Point,                       // Construct::pointB
    tnvU: Pair, tnvV: Pair, tnvW: Pair,          // Tnv(1,0,0), Tnv(0,1,0), Tnv(0,0,1)
    origin: Point,                               // the default Frame position
    identity: Versor,                            // the default Frame rotor
    blank: Versor,                               // a default-constructed Con
    nearZero: real -> bool,                      // FERROR(x)
    fpError: real                                // FPERROR
  )

  /** Multiplication of every coefficient by `c` (the `*` of a blade by a scalar). */
  function Scale(x: seq<real>, c: real): (r: seq<real>)
    ensures |r| == |x|
    ensures forall i :: 0 <= i < |x| ==> r[i] == c * x[i]
  {
    seq(|x|, i requires 0 <= i < |x| => c * x[i])
  }

  /** Negation of every coefficient (`*= -1`). */
  function Neg(x: seq<real>): (r: seq<real>)
    ensures |r| == |x|
    ensures forall i :: 0 <= i < |x| ==> r[i] == -x[i]
  {
    seq(|x|, i requires 0 <= i < |x| => -x[i])
  }

  /** Coefficient-wise sum of two blades of the same grade. */
  function Add(x: seq<real>, y: seq<real>): (r: seq<real>)
    requires |x| == |y|
    ensures |r| == |x|
    ensures forall i :: 0 <= i < |x| ==> r[i] == x[i] + y[i]
  {
    seq(|x|, i requires 0 <= i < |x| => x[i] + y[i])
  }

  /** `x * (flip ? -1 : 1)`, the conditional sign change used by xf. */
  function Signed(x: seq<real>, flip: bool): (r: seq<real>)
    ensures |r| == |x|
    ensures !flip ==> r == x
    ensures flip ==> r == Neg(x)
  {
    if flip then Neg(x) else x
  }

  lemma NegInvolutive(x: seq<real>)
    ensures Neg(Neg(x)) == x
  {
    assert forall i :: 0 <= i < |x| ==> Neg(Neg(x))[i] == x[i];
  }

  lemma NegNotFixed(x: seq<real>, i: nat)
    requires i < |x| && x[i] != 0.0
    ensures Neg(x) != x
  {
    assert Neg(x)[i] != x[i];
  }

  lemma ScaleZero(x: seq<real>)
    ensures Scale(x, 0.0) == seq(|x|, _ => 0.0)
  {
    assert forall i :: 0 <= i < |x| ==> Scale(x, 0.0)[i] == 0.0;
  }
}
