# Tangent frames and tangent volumes (versor, `vsr_tangent.h`)

This project models the discrete and scalar skeleton of versor's tangent-frame
header in Dafny and proves properties of it. The header builds curvilinear
coordinate systems out of conformal geometric algebra. The conformal kernel
is abstracted: every product, logarithm, exponential, dual and construction
it calls is an uninterpreted function field of `Kernel.Kernel`, and each
operation takes the kernel as a value. What remains, and is modelled:

- `TFrames`: the `TFrame` record of three tangent pairs and six
  constant-coordinate surfaces. It covers:
  - `Normalize`;
  - the sign tables of `CalcGen` and `CalcGen2`;
  - the surface builders (`usurf`/`vsurf`/`wsurf`, `surfaces`, `flatSurfaces`);
  - the conformal rotors `uc`/`vc`/`wc`, `xf`, and the flips.
- `Grid`: `TVolume::Mapping`, a row-major 3D grid of versors. It covers its
  linear index `i * resV * resW + j * resW + k` and the `at` read and write.
- `Volume`: the `TVolume` class.
  - Its state is four fixed arrays: nine curvatures, three spacings, eight
    corner frames and twelve edge generators.
  - It has three constructors and `zeroInit`.
  - `calcSurfaces` and `calcSurfacesFromFace` are each written as a staged
    derivation (three pure stages, then one write into the arrays).
  - `calcMappingAt` and `calcMapping`: the triple loop that fills a grid.
  - `inverseMapping`, which dispatches by face.
- `Tangent`: the `TangentFrame` class. It is a rigid frame with three-element
  arrays of tangents, tangent circles and coordinate spheres, and it covers:
  - its constructors;
  - `store`, `set`, `flip` and both assignment operators;
  - `calcCurve`;
  - the choice of the other intersection point in `close` and `circleClose`.
- `Six`: `SixSphere`. It covers `set`, the six curvature accessors and the
  opposite-edge curvature law of `xy`, `zx` and `zy`.

Coefficients are `real`. A dual sphere or point has five coefficients, and
index 3 is the `no` weight that `Normalize` divides by. The tolerance tests
`FERROR` and `FPERROR` are an abstract predicate and an abstract value of the
kernel.

## Model

| member | source | states |
|---|---|---|
| Grid.IndexInRange | include/vsr/form/vsr_tangent.h:250-261 | every in-bounds (i, j, k) indexes inside the resU * resV * resW cells the constructor allocates |
| Grid.IndexInjective | include/vsr/form/vsr_tangent.h:255-261 | two in-bounds triples with the same linear index are the same triple |
| Grid.Decode | include/vsr/form/vsr_tangent.h:250-261 | every storage slot of the grid is the index of some in-bounds triple, so `at` is onto |
| Grid.Mapping.constructor | include/vsr/form/vsr_tangent.h:248-251 | the grid holds resU * resV * resW cells, each a default versor |
| Grid.Mapping.Put | include/vsr/form/vsr_tangent.h:255-257 | writing through `at(i, j, k)` sets that cell and leaves every other cell unchanged |
| Grid.Mapping.At | include/vsr/form/vsr_tangent.h:259-261 | `at(i, j, k)` reads the row-major cell (i * resV + j) * resW + k, which lies inside the grid |
| TFrames.Normalize | include/vsr/form/vsr_tangent.h:159-163 | weight 0 keeps the sphere; otherwise every coefficient is divided by the absolute weight, so the weight becomes +1 or -1 with its old sign |
| TFrames.NormalizeIsNormal | include/vsr/form/vsr_tangent.h:159-163 | the result of Normalize has weight 0, +1 or -1 |
| TFrames.NormalizeFixesNormal | include/vsr/form/vsr_tangent.h:159-163 | a sphere of weight 0, +1 or -1 is left unchanged |
| TFrames.NormalizeIdempotent | include/vsr/form/vsr_tangent.h:159-163 | normalising twice equals normalising once |
| TFrames.CalcGenSign | include/vsr/form/vsr_tangent.h:175-184 | the sign is +1 or -1, and -1 exactly when flipA and flipB differ |
| TFrames.CalcGenRatio | include/vsr/form/vsr_tangent.h:175-184 | CalcGen passes the ratio unchanged when the two side tests agree, and negated when they differ |
| TFrames.CalcGen | include/vsr/form/vsr_tangent.h:175-184 | the generator is half the signed logarithm of the surface ratio when the two side tests agree, and of the negated ratio when they differ, with flipC the FPERROR test of p1's location against `end` |
| TFrames.CalcGen2Sign | include/vsr/form/vsr_tangent.h:165-173 | the sign is -1 exactly when the ratio's scalar part is negative and the test point is on the positive side of `end` |
| TFrames.CalcGen2Ratio | include/vsr/form/vsr_tangent.h:165-173 | CalcGen2's ratio is plus or minus the surface ratio; its scalar part is non-negative when the point is on the positive side; otherwise it is unchanged |
| TFrames.CalcGen2 | include/vsr/form/vsr_tangent.h:165-173 | the generator is half the logarithm of the negated ratio exactly when the ratio's scalar part is negative and p is on the positive side of `end`, and of the ratio itself otherwise |
| TFrames.Bend | include/vsr/form/vsr_tangent.h:72-90 | a bent surface is normalised, and with curvature 0 a flat plane Inf <= t comes back unchanged |
| TFrames.TFrame.UFlip | include/vsr/form/vsr_tangent.h:144-147 | tu is negated and nothing else changes |
| TFrames.TFrame.VFlip | include/vsr/form/vsr_tangent.h:149-152 | tv is negated and nothing else changes |
| TFrames.TFrame.WFlip | include/vsr/form/vsr_tangent.h:154-157 | tw is negated and nothing else changes |
| TFrames.FlipTwice | include/vsr/form/vsr_tangent.h:144-157 | each flip applied twice restores the frame |
| TFrames.FlipChanges | include/vsr/form/vsr_tangent.h:144-147 | a flip of a tangent with a nonzero coefficient changes the frame |
| TFrames.FlatSurfaces | include/vsr/form/vsr_tangent.h:49-54 | each axis's two surfaces are the plane Inf <= t of that axis's tangent; the tangents are kept |
| TFrames.MakeTFrame | include/vsr/form/vsr_tangent.h:42-46 | TFrame(tu, tv, tw) keeps the three tangents and has flat surfaces |
| TFrames.Surfaces | include/vsr/form/vsr_tangent.h:93-101 | surfaces() keeps the tangents and bends each of the six slots by its own curvature (svu by kvu along v, swu by kwu along w, suv by kuv along u, swv by kwv, suw by kuw, svw by kvw); all six are normalised |
| TFrames.UncurvedSurfacesAreFlat | include/vsr/form/vsr_tangent.h:93-101 | with every curvature zero and flat tangent planes, surfaces() gives the flatSurfaces() frame |
| TFrames.XfFlagNegatesOneTangent | include/vsr/form/vsr_tangent.h:127-141 | each flip flag of xf negates exactly its own tangent of the result and leaves the other two as they are |
| TFrames.XfReadsOnlyTangents | include/vsr/form/vsr_tangent.h:127-141 | xf reads only the tangents of its frame: frames with equal tangents give equal results, whatever their surfaces |
| Volume.Corner.Code | include/vsr/form/vsr_tangent.h:223-232 | the corner code is the sum of bit 0 for u, bit 1 for v and bit 2 for w |
| Volume.CornerOf | include/vsr/form/vsr_tangent.h:223-232 | every code 0 to 7 is the code of a corner |
| Volume.CornerCodeInjective | include/vsr/form/vsr_tangent.h:340-347 | distinct corners have distinct slots, so the eight frame accessors are distinct |
| Volume.Generator.Slot | include/vsr/form/vsr_tangent.h:386-420 | the twelve generator accessors address slots 0 to 11; the far-end ones use slots 6 to 11 |
| Volume.SlotsDistinct | include/vsr/form/vsr_tangent.h:358-420 | the curvature, spacing and generator accessors each address distinct slots |
| Volume.Slots | include/vsr/form/vsr_tangent.h:340-347 | each corner frame of a stage is stored in the slot its accessor reads |
| Volume.TVolume.Frame | include/vsr/form/vsr_tangent.h:340-347 | the corner accessor reads the slot whose bits are u = 1, v = 2, w = 4 of its corner |
| Volume.BentAxes | include/vsr/form/vsr_tangent.h:522-540 | the origin gets its six surfaces from the six origin curvatures; u, v and w each carry the one surface bent from ku1w, kv1u or kw1v |
| Volume.OrthoAxes | include/vsr/form/vsr_tangent.h:549-562 | the orthogonal stage writes only nine surfaces, three each of u, v and w; tangents, bent surfaces and the origin are kept |
| Volume.EdgeCorners | include/vsr/form/vsr_tangent.h:583-609 | the opposite corner receives new tangents and keeps its surfaces |
| Volume.DeriveSurfaces | include/vsr/form/vsr_tangent.h:519-626 | calcSurfaces keeps the curvatures, yields eight frames and twelve generators, and changes only the opposite corner's tangents |
| Volume.DeriveSurfacesOrigin | include/vsr/form/vsr_tangent.h:522-527 | the origin's surfaces are surfaces() of its frame with kvu, kwu, kuv, kwv, kuw and kvw |
| Volume.DeriveSurfacesKeepsBends | include/vsr/form/vsr_tangent.h:538-562 | the surfaces bent from kv1u, ku1w and kw1v survive the orthogonal stage unchanged |
| Volume.DeriveSurfacesReads | include/vsr/form/vsr_tangent.h:519-626 | calcSurfaces reads the old frames only through the origin's tangents and the opposite corner's surfaces |
| Volume.UncurvedOriginIsFlat | include/vsr/form/vsr_tangent.h:522-527 | with the six origin curvatures zero, the origin keeps flat surfaces |
| Volume.FaceAxes | include/vsr/form/vsr_tangent.h:428-447 | the face stage writes only the listed surfaces of the origin, v and w; the new u frame is flat, so the ku1w surface written before it is lost |
| Volume.FaceOrtho | include/vsr/form/vsr_tangent.h:450-455 | the orthogonal face stage writes only the six listed surfaces |
| Volume.FaceEdges | include/vsr/form/vsr_tangent.h:464-495 | the known corner vw changes only svu and swu; the opposite corner receives only new tangents |
| Volume.FaceCurvatures | include/vsr/form/vsr_tangent.h:437-438 | kvu becomes .3 and kv1u becomes -.3; the other seven curvatures are kept |
| Volume.DeriveFromLeftFace | include/vsr/form/vsr_tangent.h:426-511 | calcSurfacesFromFace(LEFT) leaves FaceCurvatures in the curvature slots and yields eight frames and twelve generators |
| Volume.FromLeftFaceSlots | include/vsr/form/vsr_tangent.h:426-511 | it keeps the origin's tangents and the opposite corner's surfaces, touches two surfaces of vw, and u's surface along w ends up flat |
| Volume.FromLeftFaceReadsOnlyKwu | include/vsr/form/vsr_tangent.h:437-447 | of the curvatures and spacings, the result depends only on kwu and uSpacing |
| Volume.OriginCellIsIdentity | include/vsr/form/vsr_tangent.h:628-651 | when bst(0) is the identity, calcMappingAt(0, 0, 0) is the identity |
| Volume.Clamp | include/vsr/form/vsr_tangent.h:787-788 | a near-zero value becomes 0, any other value is kept, and the result is never a nonzero near-zero value |
| Volume.FaceCoordAsWritten | include/vsr/form/vsr_tangent.h:709-799 | as written, inverseMapping reports w = 1 on BACK and agrees with FaceCoord everywhere else |
| Volume.BackFaceAsWrittenDisagrees | include/vsr/form/vsr_tangent.h:738-749 | on the BACK face (w = 0) the code as written reports a w that is not 0 |
| Volume.FaceCoord | include/vsr/form/vsr_tangent.h:709-799 | LEFT/RIGHT fix u at 0/1, BACK/FRONT fix w at 0/1, and each free coordinate is the named edge parameter; FRONT clamps near-zero u and v; BOTTOM and TOP give (0, 0, 0) |
| Volume.ZeroCurvatures | include/vsr/form/vsr_tangent.h:323-331 | zeroInit's nine curvatures are all 0 |
| Volume.DefaultSpacing | include/vsr/form/vsr_tangent.h:333-335 | zeroInit's three spacings are all 3 |
| Volume.ZeroStage | include/vsr/form/vsr_tangent.h:270-272 | a default volume has zero curvatures and derived frames and generators |
| Volume.CopyRightFace | include/vsr/form/vsr_tangent.h:283-286 | the corners without u take the other volume's corner one u-step over; the u-side corners keep their value |
| Volume.GridParam | include/vsr/form/vsr_tangent.h:660-694 | the first grid index maps to parameter 0 and the last to 1 |
| Volume.FillSlice | include/vsr/form/vsr_tangent.h:658-701 | one pass of the outer loop extends the sweep by a whole w slice, each cell written once with its target value |
| Volume.FillRow | include/vsr/form/vsr_tangent.h:687-700 | one pass of the middle loop extends the sweep by a whole row |
| Volume.FillCell | include/vsr/form/vsr_tangent.h:694-698 | the inner loop body writes cell (j, k, i) once with `vu * uv * wvu0` |
| Volume.MappingAt | include/vsr/form/vsr_tangent.h:628-651 | on the edge u = v = 0 (and with bst(0) the identity), the transform is the back-to-front boost along dwvu0 at tk, composed with identities |
| Volume.TVolume.CalcMappingAt | include/vsr/form/vsr_tangent.h:628-651 | on the current generators, calcMappingAt(0, 0, tk) is the boost along the stored dwvu0 at tk, composed with identities, when bst(0) is the identity |
| Volume.TVolume.constructor | include/vsr/form/vsr_tangent.h:270-272 | TVolume() holds zero curvatures, spacings 3, and frames and generators derived from default frames |
| Volume.TVolume.Curved | include/vsr/form/vsr_tangent.h:299-320 | the nine curvatures and three spacings are stored in their slots, and frames and generators are derived from them |
| Volume.TVolume.FromFace | include/vsr/form/vsr_tangent.h:274-297 | faces other than RIGHT give the zero volume; RIGHT copies tv's right face into the left face and re-derives from it |
| Volume.TVolume.ZeroInit | include/vsr/form/vsr_tangent.h:322-338 | curvatures 0 and spacings 3, then calcSurfaces on the current frames |
| Volume.TVolume.CalcSurfaces | include/vsr/form/vsr_tangent.h:519-626 | curvatures and spacings unchanged; frames and generators become the derivation of the old state |
| Volume.TVolume.CalcSurfacesFromFace | include/vsr/form/vsr_tangent.h:423-516 | LEFT re-derives the volume from its left face; every other face changes nothing |
| Volume.TVolume.CalcSurfacesFromLeft | include/vsr/form/vsr_tangent.h:426-511 | spacings unchanged; curvatures, frames and generators become the left-face derivation of the old state |
| Volume.TVolume.CalcMapping | include/vsr/form/vsr_tangent.h:653-704 | a fresh grid whose cell (j, k, i) equals calcMappingAt(j / (resU - 1), k / (resV - 1), i / (resW - 1)); every cell is written exactly once |
| Volume.TVolume.InverseMapping | include/vsr/form/vsr_tangent.h:709-799 | LEFT/RIGHT report u = 0/1 and BACK/FRONT report w = 0/1; the result is FaceCoord on the current state, equal to the code as written on every face except BACK's w |
| Tangent.FlipAtOnlyTarget | include/vsr/form/vsr_tangent.h:889-894 | a flip negates its own entry and keeps every other entry |
| Tangent.FlipAtTwice | include/vsr/form/vsr_tangent.h:889-894 | flipping the same entry twice restores the array |
| Tangent.OtherPoint | include/vsr/form/vsr_tangent.h:1082-1085 | the kept point is one of the two intersection points |
| Tangent.OtherPointAway | include/vsr/form/vsr_tangent.h:1063-1067 | the kept point is away from the current position exactly when one of the two points is; pointB is kept when pointA is at the position |
| Tangent.EdgeCurve | include/vsr/form/vsr_tangent.h:916-929 | the intended curve of index idx is the meet of the two surfaces other than idx, and a default circle out of range |
| Tangent.TangentFrame.CalcCurve | include/vsr/form/vsr_tangent.h:916-929 | as written, every index 0 to 2 returns the meet of spheres 0 and 1, and any other index a default circle |
| Tangent.TangentFrame.constructor | include/vsr/form/vsr_tangent.h:825 | TangentFrame(): the default frame, its tangents stored and the tangent circles their unduals |
| Tangent.TangentFrame.FromFrame | include/vsr/form/vsr_tangent.h:828 | TangentFrame(f): f's position and rotor, with f's tangents and their unduals |
| Tangent.TangentFrame.At | include/vsr/form/vsr_tangent.h:831 | TangentFrame(p, tf): at p, with surfaces, tangent circles and tangents carried from tf |
| Tangent.TangentFrame.Store | include/vsr/form/vsr_tangent.h:859-872 | the tangents become the frame's tx, ty, tz and the circles their unduals; the spheres are unchanged |
| Tangent.TangentFrame.AssignFrame | include/vsr/form/vsr_tangent.h:834-839 | the position and rotor of f, then store() |
| Tangent.TangentFrame.AssignFrom | include/vsr/form/vsr_tangent.h:842-855 | the position, rotor, tangents, circles and spheres all become f's, including when f is this frame |
| Tangent.TangentFrame.Set | include/vsr/form/vsr_tangent.h:875-886 | position p, rotor kept; each sphere is tf's circle wedged with p, each circle tangent to it at p, and each tangent that circle's dual |
| Tangent.TangentFrame.Place | include/vsr/form/vsr_tangent.h:877-885 | the loop of set(p, tf) over given circles produces exactly those three arrays |
| Tangent.TangentFrame.Flip | include/vsr/form/vsr_tangent.h:889-894 | only tan[idx] and bitan[idx] are negated; the spheres are unchanged |
| Tangent.TangentFrame.CalcCurveFallsThrough | include/vsr/form/vsr_tangent.h:916-929 | as written, every in-range index returns the curve of index 2, which differs from the intended curve of index 0 |
| Tangent.TangentFrame.CircleClose | include/vsr/form/vsr_tangent.h:1073-1088 | a fresh frame at the point of sphere s and circle (pos, pa, pb) that is not the current position, carried from this frame |
| Tangent.TangentFrame.Close | include/vsr/form/vsr_tangent.h:1052-1070 | a fresh frame at the meet point of circles (pos, ta, tb) and (pos, tc, td) that is not the current position, carried from this frame |
| Six.CloseCurvature | include/vsr/form/vsr_tangent.h:1204-1205 | a curvature of 0 closes with 0 |
| Six.CloseCurvatureClosedForm | include/vsr/form/vsr_tangent.h:1204-1205 | for nonzero k, both branches give -k / (1 - l k), and exactly when l k != 1 |
| Six.CloseCurvatureFlipsConcave | include/vsr/form/vsr_tangent.h:1204-1205 | k < 0 with l >= 0 always closes, with a positive curvature |
| Six.CloseCurvatureFlipsConvex | include/vsr/form/vsr_tangent.h:1204-1205 | k > 0 with l k < 1 closes with a negative curvature |
| Six.ShiftedCloseCurvature | include/vsr/form/vsr_tangent.h:1204-1206 | the closed form carries over after the extra curve input c is added |
| Six.SixSphere.constructor | include/vsr/form/vsr_tangent.h:1150-1158 | SixSphere(): the default tangent frame (origin, identity rotor, its tangents stored and undualed, zero spheres) and all six curvatures 0 |
| Six.SixSphere.FromFrame | include/vsr/form/vsr_tangent.h:1159 | SixSphere(f): f's tangent frame (f's position and rotor, f's tangents stored and undualed, zero spheres) and all six curvatures 0 |
| Six.SixSphere.Set | include/vsr/form/vsr_tangent.h:1167-1183 | each of the six accessors reads back the curvature given for it, and the lengths are as given |
| Six.SixSphere.Cyx | include/vsr/form/vsr_tangent.h:1230 | cyx() is curvature `a` of curve 0 (constant x, toward y), the slot set() fills from YX |
| Six.SixSphere.Czx | include/vsr/form/vsr_tangent.h:1231 | czx() is curvature `b` of curve 0 (constant x, toward z), the slot set() fills from ZX |
| Six.SixSphere.Cxy | include/vsr/form/vsr_tangent.h:1232 | cxy() is curvature `a` of curve 1 (constant y, toward x), the slot set() fills from XY |
| Six.SixSphere.Czy | include/vsr/form/vsr_tangent.h:1233 | czy() is curvature `b` of curve 1 (constant y, toward z), the slot set() fills from ZY |
| Six.SixSphere.Cxz | include/vsr/form/vsr_tangent.h:1234 | cxz() is curvature `a` of curve 2 (constant z, toward x), the slot set() fills from XZ |
| Six.SixSphere.Cyz | include/vsr/form/vsr_tangent.h:1235 | cyz() is curvature `b` of curve 2 (constant z, toward y), the slot set() fills from YZ |
| Six.SixSphere.XyCurvature | include/vsr/form/vsr_tangent.h:1201-1207 | xy closes with c when cxy is 0; otherwise with -cxy / (1 - lengthX cxy) + c, defined exactly when lengthX cxy != 1 |
| Six.SixSphere.ZxCurvature | include/vsr/form/vsr_tangent.h:1209-1215 | zx closes with c when czx is 0; otherwise with -czx / (1 - lengthZ czx) + c, defined exactly when lengthZ czx != 1 |
| Six.SixSphere.ZyCurvature | include/vsr/form/vsr_tangent.h:1217-1223 | zy closes with c when czy is 0; otherwise with -czy / (1 - lengthZ czy) + c, defined exactly when lengthZ czy != 1 |

## Left out

- The conformal kernel is uninterpreted. That covers `Gen::log/bst/boost/trs`, `spin`, `dual`/`undual`, the `<=` and `^` products, `Round::*`, `Construct::*`, `Tangent::at`, `tunit`, `null` and the `Frame` base class's tangents. Its headers are not part of this model.
- No geometric claim that depends on the kernel is stated. That covers surface orthogonality, the forward/inverse round trip, and whether the zero-curvature volume is a box.
- Floating-point rounding is not modelled; coefficients are exact reals. `FERROR` is an abstract predicate (`Kernel.nearZero`) and `FPERROR` an abstract value (`Kernel.fpError`).
- A division by zero in the SixSphere law gives infinity or NaN in floating point. It is modelled as `None`.
- Volume.TVolume.InverseMapping: reports w = 0 on the BACK face, where the source returns 1. This is the correction under Findings; FaceCoordAsWritten models the code as written, and InverseMapping's contract states how the two differ.
- Integer width is not modelled. The grid index `i * mResV * mResW + j * mResW + k` and the size `resU * resV * resW` are C++ `int` and can overflow for large resolutions; the model's unbounded `nat` cannot. Negative resolutions, which the source accepts, are excluded by the `nat` parameter types.
- Volume.TVolume.CalcMapping: requires every resolution to be at least 2. With resolution 1 the parameter `i / (res - 1)` is 0/0 in floating point.
- TFrame is a value record, as the source copies it by value into `TVolume`'s frame array, so its flips return a new value. `calcSurfaces` and `calcSurfacesFromFace` write field by field into that array. They are modelled as staged pure derivations followed by one write of all four arrays, so the order of the intermediate writes is captured by the stages, not by the heap.
- Volume.FaceAxes: the surface `uf().suw` that `calcSurfacesFromFace` bends from ku1w is not computed. The next statement replaces the whole u frame, so the value is never observed. FromLeftFaceSlots states the consequence.
- Writes through the reference-returning accessors (`kvu()`, `tf()`, `cxy()` and the rest) by outside callers are not modelled. Only the writes the modelled operations make are.
- `TFrame::du/dv/dw` are the kernel's `direction` field. `pos`, `uc/vc/wc`, `NormalizePair` and the edge generators `duv` to `dwv` are functions with no contract of their own, because they are pure compositions of kernel operations.
- `Contact` is not part of this model. It is constructors over kernel operations only.
- The following `TangentFrame` helpers are not part of this model: `unit`, `xdir`/`ydir`/`zdir`, `xcurve` and its relatives, `xsurface` and its relatives, `xpoint` and its relatives, `xbend` and its relatives, and `xclose` and its relatives. Each is a single kernel expression with no decision of its own.
- `SixSphere`'s `x`, `y`, `z` and `xyz` frames, and the frames `xy`, `zx` and `zy` return, are left out: they are kernel constructions. What is modelled of `xy`, `zx` and `zy` is the scalar curvature each hands to the closing frame.
- SixSphere's lengths are left unset by its constructors, as in the source, where they are uninitialised floats. No contract speaks of them before `set`.

## Findings

| source | as written | input that shows it | evidently intended | confidence | as-written member | corrected member |
|---|---|---|---|---|---|---|
| include/vsr/form/vsr_tangent.h:738-749 | `inverseMapping` on the BACK face returns `{tu, tv, 1.0}` | any point p with face = BACK: the reported w is 1, although BACK is the face w = 0 (its edge generators are the `...0` ones read from the origin frame) | report w = 0 on BACK, as LEFT reports u = 0 | not executed | Volume.BackFaceAsWrittenDisagrees | Volume.FaceCoord |
| include/vsr/form/vsr_tangent.h:916-929 | `calcCurve`'s `switch` has no `break`, so every case from idx on runs | idx = 0, with spheres whose meets (1, 2) and (0, 1) differ: the result is the meet of spheres 0 and 1, not of 1 and 2 | each index returns the meet of the two other surfaces | not executed | Tangent.TangentFrame.CalcCurveFallsThrough | Tangent.EdgeCurve |
