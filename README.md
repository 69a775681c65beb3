# Watertight ray/triangle intersection, modelled in Dafny

This project models `watertight_ray_triangle_intersection` of `src/main.rs`.
That function is the watertight ray/triangle test of Woop, Benthin and Wald
(JCGT 2013), and the model covers:

- the `Hit` record it returns;
- its nested helpers `index_max_abs_dim`, `sign_mask` and `xorf`;
- the worked example `example_triangle_ray_test`.

The intersector is straight-line code over `let mut` locals with no loops
and no state that outlives the call. It is modelled as pure functions in
which each reassignment becomes a new `let`:

- the kx/ky swap becomes `PermutedAxes`;
- the sign normalisation of u, v, w and det becomes `NormalizeSign`;
- the flip of t is `NegateIf(t, NegativeMask(det))`.

Single-precision floats are modelled as exact reals. `f32::EPSILON` is the
exact real 2^-23.

Modules:

- `Vectors`: 3-vectors, plane points, and the vector operations glam provides.
- `Permutations`: the axis frame (kx, ky, kz), relabelling a vector into it,
  and its parity.
- `SignBits`: `sign_mask` and `xorf` on raw `bv32` patterns.
- `Intersector`: the `Hit` record, `index_max_abs_dim`, the frame, the shear,
  the scaled barycentrics, the edge test, the determinant block and the
  normalisation, and `Intersect` itself.
- `Frame`: algebra of the intersector once the frame is fixed, on plain
  vectors.
- `IntersectorProofs`: what `Intersect` computes:
  - the determinant has the opposite sign of the triangle's facing;
  - every hit lies on the ray and on the triangle;
  - every such point is found;
  - culling keeps exactly the front faces;
  - the two windings mirror each other.
- `Examples`: the worked example.

The main results:

- **Soundness.** A hit `h` satisfies
  `origin + h.t * direction == h.u * v0 + h.v * v1 + h.w * v2`, with
  `h.u, h.v, h.w >= 0`, `h.u + h.v + h.w == 1` and `h.t >= 0`.
- **Completeness.** If a point of the triangle lies at a distance `t >= 0`
  along a usable direction, with weights `ka, kb, kc`, the result is exactly
  `Some(Hit(ka, kb, kc, t))`. This holds unless the ray is parallel to the
  triangle's plane, or, with culling, the triangle faces away from the ray.

## Model

| member | source | states |
|---|---|---|
| Intersector.IndexMaxAbsDim | src/main.rs:65-74 | the axis is 0, 1 or 2; its absolute component is at least every other; every earlier axis is strictly smaller, so ties go to x before y before z |
| Intersector.PermutedAxes | src/main.rs:76-83 | kx, ky, kz are distinct axes in 0..2 and kz is the dominant axis; ky follows kx cyclically exactly when `direction[kz] >= 0`, so kx and ky are swapped exactly when `direction[kz] < 0`; the frame is a rotation, not a reflection, exactly when it is not swapped |
| Intersector.Usable | src/main.rs:85-90 | the guard on the dominant component passes exactly when some component of the direction has magnitude at least `EPSILON` |
| IntersectorProofs.UsableNonZero | src/main.rs:85-95 | a direction that passes the guard leaves a non-zero kz component to divide by in the shear constants |
| Intersector.ShearOf | src/main.rs:92-95 | the shear constants send the direction seen in the frame to the unit vector along kz: `dx - sx*dz == 0`, `dy - sy*dz == 0`, `sz*dz == 1` |
| Frame.ShearedOnRay | src/main.rs:100-108 | `ShearXY` (the shear of 103-108) sends a ray-relative vertex to the origin of the plane exactly when the vertex is the point of the ray at the distance given by its sheared and scaled kz coordinate (`ShearZ`) |
| Frame.RayShearsToOrigin | src/main.rs:165-168 | the point of the ray at distance t shears to the origin of the plane and has sheared and scaled kz coordinate (`ShearZ`) exactly t |
| Frame.ScaledBarycentricsWeighOrigin | src/main.rs:110-128 | the u, v, w that `ScaledBarycentrics` computes weigh the three sheared vertices to the origin of the plane (the sheared ray), and their sum is `Cross2(c - a, b - a)`: minus twice the signed area of the sheared triangle a, b, c (twice that of the reversed winding c, b, a) |
| Frame.CrossesAreWeights | src/main.rs:110-113 | if weights summing to one put the ray on the sheared triangle, the three cross products are exactly those weights times their sum |
| Intersector.PassesEdgeTest | src/main.rs:140-149 | the edge test passes exactly when u, v, w are all non-negative, or, without culling, all non-positive |
| Frame.NormalizeWeights | src/main.rs:140-163 | scaled barycentrics that are non-negative weights times a non-zero determinant (positive under culling) pass the edge test, and the sign normalisation leaves the weights times the absolute determinant |
| Intersector.NormalizeSign | src/main.rs:151-163 | after a passed edge test and a non-zero determinant: u, v, w are all >= 0, det is their sum and is > 0, the result is the input or its negation, and the sign bit of det is clear |
| Frame.TimesDistance | src/main.rs:165-169 | for a point of the ray at distance t made by weights ka, kb, kc, the hit distance `ScaledDistance` computes from the weights times k is k times t |
| Intersector.NegativeMask | src/main.rs:172-174 | on values, `sign_mask` is 0 or 1, and 1 exactly for a negative value |
| Intersector.NegateIf | src/main.rs:175-182 | on values, `xorf` keeps the magnitude and changes the value exactly when bit 0 of the mask is set and the value is not zero |
| Intersector.NormalizedHit | src/main.rs:187-194 | dividing by a positive det gives u, v, w >= 0 summing to 1 and t >= 0, each of them det times smaller than the scaled value |
| Intersector.IntersectInFrame | src/main.rs:97-196 | a hit comes only from scaled barycentrics that pass the edge test of the culling mode and have a non-zero determinant; it has u, v, w >= 0, u + v + w == 1 and t >= 0 |
| Intersector.Intersect | src/main.rs:58-197 | a hit comes only from a direction with `abs(direction[kz]) >= EPSILON`; it has u, v, w >= 0, u + v + w == 1 and t >= 0 |
| SignBits.SignMask | src/main.rs:172-174 | the result is 0 or 1, and it is 1 exactly when the sign bit of the pattern is set |
| SignBits.Xorf | src/main.rs:175-179 | the low 31 bits are kept; the sign bit is toggled exactly when bit 0 of the mask is set |
| SignBits.XorfZero | src/main.rs:175-179 | `xorf(x, 0) == x` |
| SignBits.XorfInvolution | src/main.rs:175-179 | applying `xorf` twice with the same mask restores the pattern |
| SignBits.XorfByNonNegativeSign | src/main.rs:181-182 | flipping t by the sign of a determinant whose sign bit is clear leaves t unchanged |
| Frame.ScaledBarycentricsAreCrosses | src/main.rs:115-128 | the double-precision fallback recomputes the same three cross products, so in exact arithmetic the result is the same whichever branch runs |
| Frame.FrameDeterminant | src/main.rs:103-152 | the determinant u + v + w of the sheared vertices is minus the facing of the triangle in the frame, divided by the kz component of the direction |
| Frame.WithoutSignFlip | src/main.rs:171-185 | the flip of t by the sign of the normalised determinant changes nothing: the intersector equals the same computation without it |
| Frame.FrameHitOnRay | src/main.rs:166-194 | in the frame, the vertices weighted by the hit's u, v, w make the point at distance t along the direction |
| Frame.FrameHitComplete | src/main.rs:103-196 | in the frame, a point of the triangle at distance t >= 0 along the direction, with a non-zero determinant (positive under culling), is returned with its own weights and distance |
| IntersectorProofs.DeterminantIsFacing | src/main.rs:130-152 | the determinant is positive exactly when the triangle's normal points against the ray (`facing < 0`) and negative exactly when it points along it, whichever frame was chosen |
| IntersectorProofs.HitOnRayAndTriangle | src/main.rs:58-197 | every hit satisfies `origin + t * direction == u * v0 + v * v1 + w * v2` |
| IntersectorProofs.HitFacing | src/main.rs:140-155 | a hit never comes from a ray parallel to the triangle's plane, and with culling only from a triangle facing the ray |
| IntersectorProofs.HitWhenRayMeetsTriangle | src/main.rs:58-197 | the converse of soundness: a point of the triangle at distance t >= 0 along a usable direction is returned as exactly `Hit(ka, kb, kc, t)`, unless the ray is parallel to the plane or, with culling, the triangle faces away |
| IntersectorProofs.ParallelRayMisses | src/main.rs:152-155 | a ray parallel to the triangle's plane gets None (its determinant is zero by `DeterminantIsFacing`) |
| IntersectorProofs.CullingKeepsFrontFaces | src/main.rs:140-149 | with culling, the result is the unculled result for a triangle facing the ray and None otherwise |
| IntersectorProofs.NormalPerpendicular | src/main.rs:130-133 | `Normal`, `edge1.cross(edge2)`, is perpendicular to both edges of the triangle |
| IntersectorProofs.ReverseNormal | src/main.rs:130-134 | reversing the winding negates the facing |
| IntersectorProofs.ReversedHit | src/main.rs:76-196 | without culling, a hit on one winding is a hit on the reversed winding with the weights of the first and last vertex exchanged |
| IntersectorProofs.ReversedWinding | src/main.rs:76-196 | without culling, the two windings hit or miss together, at the same point, with the weights of the first and last vertex exchanged |
| IntersectorProofs.CullingHitsOneWinding | src/main.rs:140-149 | with culling, a ray that meets the triangle hits exactly one of its two windings |
| Examples.ExampleCulled | src/main.rs:199-216 | with culling, the first winding gives the scaled barycentrics (-2, -1, -1) and no intersection |
| Examples.ReversedHitAtFive | src/main.rs:218-233 | with culling, the reversed winding is hit at t = 5 with u, v, w = 1/4, 1/4, 1/2 |
| Examples.ExampleUnculled | src/main.rs:199-207 | without culling, the first winding is hit at t = 5 with u, v, w = 1/2, 1/4, 1/4 |
| Examples.ExampleBehind | src/main.rs:183-185 | a ray along -z misses the example triangle, whose hit would be at t = -5 |
| Examples.ZeroDirectionMisses | src/main.rs:85-90 | a zero direction fails the degenerate-direction guard |

Without culling, the ray from the origin along (0, 0, 1) meets the winding
at src/main.rs:203-207 at t = 5 with u, v, w = 1/2, 1/4, 1/4: the point
(0, 0, 5) is 1/2 of the first vertex (1, 0, 5) plus 1/4 of each of the other
two (`Examples.ExampleUnculled`).

## Left out

- The Bevy application around the intersector is engine plumbing with no
  algorithmic content: `main`, the camera, cursor, lights, model and text
  systems (src/main.rs:27-56, 236-390).
- The computation of `normal` and `facing` (src/main.rs:130-134) and the
  `println!` diagnostics (src/main.rs:137, 142) only feed log output and do
  not affect the result. `facing` is still defined, as
  `Dot(Normal(tri), direction)`, because the proofs state what the
  determinant means in its terms.
- The calculator library in src/lib.rs and its callers in
  src/main.rs:393-411 are one-line `f64` wrappers that only print results.
- The example's `println!` output is left out. The examples state the
  results it would print.
- IEEE single- and double-precision rounding, NaN, infinities and -0 are not
  modelled: every value is an exact real. In particular:
  - the double-precision fallback is the identity;
  - a hit's u + v + w is exactly 1, where in `f32` it is 1 only up to
    rounding.
- The link between an `f32` bit pattern and its value is not modelled.
  `SignBits` states `sign_mask` and `xorf` on `bv32` patterns. The real-valued
  intersector uses their meaning on values instead: `NegativeMask` is 1 for a
  negative value, and `NegateIf` negates a value when bit 0 of the mask is set.
