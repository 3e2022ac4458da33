# Scene-graph bounds, shadow-light fitting and roll/pitch/yaw matrices in Dafny

This project models three pieces of the SceneGraph / SimpleGui rendering
library and proves properties about them:

- **The axis-aligned bounding box** (`SceneGraph/AxisAlignedBoundingBox.h`).
  - `linear.dfy` (module `Linear`) has the vector and matrix shapes and the
    element-wise minimum and maximum helpers.
  - `bounds.dfy` (module `Bounds`) has the value `Box` with the queries
    (`Empty`, `Size`, `Center`, `Volume`, `HalfSizeFromOrigin`) and what each
    in-place operation does to a value. It also has the class
    `AxisAlignedBoundingBox`, whose methods overwrite `boxmin` and `boxmax`
    in place as the source does.
  - `box_laws.dfy` (module `BoxLaws`) proves the algebra of those operations:
    - every insert gives the *least* box holding the old box and the inserted
      geometry;
    - intersection gives the *greatest* common box;
    - commutativity, associativity and idempotence;
    - a transformed insert holds the image of every point of the inserted
      box, not only of its corners;
    - inserting a box into a cleared box gives back that box exactly when the
      box lies within the `FLT_MAX` sentinel.
- **The shadow light's bookkeeping** (`SceneGraph/GLShadowLight.h`), in
  `shadow_light.dfy` (module `ShadowLight`).
  - The caster and receiver lists only grow, by appending.
  - `ObjectBounds` folds `Insert(pose, bounds)` over a list of objects. The
    fold is proved to be the least box admitting every object, so it depends
    only on which objects the list holds, and never on their order or
    repetition.
  - For the bounds, look-at and clip-plane part of `SetupLight`, the view
    looks from the light position at the caster centre. The near plane is
    `max(dist - bothrad, 0.1)` and the far plane is `dist + bothrad`.
- **The roll/pitch/yaw builders** `GLCart2R` and `GLCart2T`
  (`SimpleGui/GLWindow.h`), in `euler.dfy` (module `EulerAngles`).
  - The three angles enter only through their cosines and sines, which are
    kept symbolic.
  - `GLCart2R` is proved to be the product Rz(yaw) · Ry(pitch) · Rx(roll).
  - It is orthogonal whenever the cosines and sines lie on the unit circle.
  - `GLCart2T` is the homogeneous transform whose rotation block is `GLCart2R`.

Two consequences of the code are worth stating, because a reader might
expect otherwise:

- **A cleared box is not a separate empty state.** `Clear()` writes the
  sentinel `(FLT_MAX, FLT_MAX, FLT_MAX)` / `(-FLT_MAX, -FLT_MAX, -FLT_MAX)`,
  and `Insert(bb)` merges with it. So inserting `bb` into a cleared box
  returns `bb` exactly when `bb` lies within the sentinel
  (`BoxLaws.InsertBoxIntoCleared`). `Insert(T, bb)`, by contrast, skips an
  Empty `bb` altogether.
- **`SetupLight` has no guard for an empty caster list.** It fits the light
  to the cleared caster box, whose centre is the origin.

## Model

| member | source | states |
|---|---|---|
| Linear.MinOf | SceneGraph/AxisAlignedBoundingBox.h:9-18 | each entry of the element-wise minimum is a lower bound of both inputs and equals one of them |
| Linear.MaxOf | SceneGraph/AxisAlignedBoundingBox.h:20-30 | each entry of the element-wise maximum is an upper bound of both inputs and equals one of them |
| Linear.ElementwiseMin | SceneGraph/AxisAlignedBoundingBox.h:9-18 | the loop fills the result with std::min of the two inputs, entry by entry: the result is MinOf |
| Linear.ElementwiseMax | SceneGraph/AxisAlignedBoundingBox.h:20-30 | the loop fills the result with std::max of the two inputs: the result is MaxOf |
| Linear.Affine | SceneGraph/AxisAlignedBoundingBox.h:108 | coordinate i of T.block<3,3>(0,0) * p + T.block<3,1>(0,3) is row i of T applied to the homogeneous point (p, 1) |
| Bounds.Box.Size | SceneGraph/AxisAlignedBoundingBox.h:167-170 | min + size = max on every axis |
| Bounds.Box.Empty | SceneGraph/AxisAlignedBoundingBox.h:67-70 | Empty holds exactly when all three axes are inverted (max < min on each) |
| Bounds.Box.Center | SceneGraph/AxisAlignedBoundingBox.h:88-90 | Min() + Size()/2 is the midpoint of the corners, equally far from both |
| Bounds.Box.Volume | SceneGraph/AxisAlignedBoundingBox.h:172-176 | zero exactly when the box is flat on some axis; negative for an Empty box; non-negative for a box with no inverted axis |
| Bounds.Box.HalfSizeFromOrigin | SceneGraph/AxisAlignedBoundingBox.h:179-182 | on every axis the half-size reaches both corners, is one of max and -min, and is non-negative for a non-inverted box |
| Bounds.Box.InsertPoint | SceneGraph/AxisAlignedBoundingBox.h:99-103 | the new box contains p and encloses the old box, and each bound is p's coordinate or the old bound |
| Bounds.Box.InsertBox | SceneGraph/AxisAlignedBoundingBox.h:114-118 | the new box encloses both boxes, and each bound comes from one of them |
| Bounds.Box.InsertTransformedBox | SceneGraph/AxisAlignedBoundingBox.h:121-134 | an Empty argument box leaves the box unchanged; otherwise the new box encloses the old one |
| Bounds.Box.InsertFrustum | SceneGraph/AxisAlignedBoundingBox.h:136-157 | the new box encloses the old one |
| Bounds.Box.Intersect | SceneGraph/AxisAlignedBoundingBox.h:161-165 | a point lies in the result if and only if it lies in both boxes |
| Bounds.Cleared | SceneGraph/AxisAlignedBoundingBox.h:92-96 | the cleared box is Empty and contains no point |
| Bounds.InsertFirstEight | SceneGraph/AxisAlignedBoundingBox.h:125-132 | inserting the eight corner images as a fold is inserting them one by one, in the source's order |
| Bounds.CameraDirection | SceneGraph/AxisAlignedBoundingBox.h:144-147 | the camera-frame direction has depth 1 and projects back to pixel (u, v) through fu, fv, u0, v0 |
| Bounds.Ray | SceneGraph/AxisAlignedBoundingBox.h:144-147 | the world-frame ray is the rotation block of T_wc applied to CameraDirection; its behaviour is stated by CameraDirection and BoxLaws.InsertFrustumHoldsCorners |
| Bounds.AxisAlignedBoundingBox.constructor | SceneGraph/AxisAlignedBoundingBox.h:35-38 | a new box holds the cleared value |
| Bounds.AxisAlignedBoundingBox.Copy | SceneGraph/AxisAlignedBoundingBox.h:40-43 | the copy holds the argument's value |
| Bounds.AxisAlignedBoundingBox.FromMinMax | SceneGraph/AxisAlignedBoundingBox.h:45-48 | the box holds the given corners |
| Bounds.AxisAlignedBoundingBox.FromTransformed | SceneGraph/AxisAlignedBoundingBox.h:50-54 | the box is the cleared box with bb_a inserted under T_ba |
| Bounds.AxisAlignedBoundingBox.FromFrustum | SceneGraph/AxisAlignedBoundingBox.h:57-65 | the box is the cleared box with the frustum inserted |
| Bounds.AxisAlignedBoundingBox.Clear | SceneGraph/AxisAlignedBoundingBox.h:92-96 | the box now holds the FLT_MAX sentinel value |
| Bounds.AxisAlignedBoundingBox.InsertPoint | SceneGraph/AxisAlignedBoundingBox.h:99-103 | the new value is Box.InsertPoint of the old value |
| Bounds.AxisAlignedBoundingBox.InsertTransformedPoint | SceneGraph/AxisAlignedBoundingBox.h:106-111 | the new value is the old value with R * p_a + t inserted |
| Bounds.AxisAlignedBoundingBox.InsertBox | SceneGraph/AxisAlignedBoundingBox.h:114-118 | the new value is Box.InsertBox of the old values, also when bb is this box |
| Bounds.AxisAlignedBoundingBox.InsertTransformedBox | SceneGraph/AxisAlignedBoundingBox.h:121-134 | the eight in-place inserts, in the source's corner order, yield Box.InsertTransformedBox of the old value |
| Bounds.AxisAlignedBoundingBox.InsertFrustum | SceneGraph/AxisAlignedBoundingBox.h:136-157 | the eight in-place inserts of the near and far ray points yield Box.InsertFrustum of the old value |
| Bounds.AxisAlignedBoundingBox.Intersect | SceneGraph/AxisAlignedBoundingBox.h:161-165 | the new value is Box.Intersect of the old values, also when bb is this box |
| BoxLaws.InvertedBoxHoldsNoPoint | SceneGraph/AxisAlignedBoundingBox.h:67-70 | a box inverted on any axis holds no point, whether or not it is Empty |
| BoxLaws.PartlyInvertedBoxIsNotEmpty | SceneGraph/AxisAlignedBoundingBox.h:67-70 | a box with one non-inverted axis is not Empty, even though it may hold no point |
| BoxLaws.InsertBoxIntoCleared | SceneGraph/AxisAlignedBoundingBox.h:114-118 | inserting b into a cleared box yields b if and only if b lies within the FLT_MAX sentinel |
| BoxLaws.InsertPointIsLeast | SceneGraph/AxisAlignedBoundingBox.h:99-103 | a box encloses the result if and only if it encloses the old box and contains p |
| BoxLaws.InsertPointIdempotent | SceneGraph/AxisAlignedBoundingBox.h:99-103 | inserting the same point twice is inserting it once |
| BoxLaws.InsertPointIsInsertBox | SceneGraph/AxisAlignedBoundingBox.h:99-103 | inserting p is inserting the box with both corners at p |
| BoxLaws.InsertBoxIsLeast | SceneGraph/AxisAlignedBoundingBox.h:114-118 | a box encloses the result if and only if it encloses both boxes |
| BoxLaws.InsertBoxCommutative | SceneGraph/AxisAlignedBoundingBox.h:114-118 | a.Insert(b) equals b.Insert(a) |
| BoxLaws.InsertBoxAssociative | SceneGraph/AxisAlignedBoundingBox.h:114-118 | the order of grouping of box inserts does not matter |
| BoxLaws.InsertBoxIdempotent | SceneGraph/AxisAlignedBoundingBox.h:114-118 | A.Insert(A) is A |
| BoxLaws.HoldsCornerImagesAllCorners | SceneGraph/AxisAlignedBoundingBox.h:125-132 | the eight points inserted are the images of all eight corners of bb |
| BoxLaws.InsertFirstIsLeast | SceneGraph/AxisAlignedBoundingBox.h:106-111 | a box encloses the result of inserting n points in turn if and only if it encloses the old box and contains those points |
| BoxLaws.InsertTransformedBoxIsLeast | SceneGraph/AxisAlignedBoundingBox.h:121-134 | a box encloses the result if and only if it encloses the old box and holds the images of bb's corners |
| BoxLaws.InsertTransformedBoxHoldsCorners | SceneGraph/AxisAlignedBoundingBox.h:121-134 | an Empty bb changes nothing; otherwise the result holds the image of every corner of bb |
| BoxLaws.InsertTransformedBoxCommutes | SceneGraph/AxisAlignedBoundingBox.h:121-134 | two transformed-box inserts can be done in either order |
| BoxLaws.ImageBetweenCorners | SceneGraph/AxisAlignedBoundingBox.h:106-111 | on each axis the image of a point of bb lies between the images of two corners of bb |
| BoxLaws.CornerImagesBoundImage | SceneGraph/AxisAlignedBoundingBox.h:121-134 | a box holding the images of bb's corners holds the image of every point of bb |
| BoxLaws.InsertTransformedBoxHoldsImage | SceneGraph/AxisAlignedBoundingBox.h:121-134 | after Insert(T, bb) the box holds the image of every point of bb, not only of its corners |
| BoxLaws.InsertFrustumIsLeast | SceneGraph/AxisAlignedBoundingBox.h:136-157 | a box encloses the result if and only if it encloses the old box and holds the near and far points of the four corner rays |
| BoxLaws.InsertFrustumHoldsCorners | SceneGraph/AxisAlignedBoundingBox.h:136-157 | the result holds all eight frustum corner points |
| BoxLaws.IntersectIsGreatest | SceneGraph/AxisAlignedBoundingBox.h:161-165 | the result encloses a box if and only if both boxes enclose it |
| BoxLaws.IntersectInsideBoth | SceneGraph/AxisAlignedBoundingBox.h:161-165 | on each non-inverted axis the intersection lies inside both boxes |
| BoxLaws.IntersectIdempotent | SceneGraph/AxisAlignedBoundingBox.h:161-165 | A.Intersect(A) is A |
| BoxLaws.IntersectCommutative | SceneGraph/AxisAlignedBoundingBox.h:161-165 | a.Intersect(b) equals b.Intersect(a) |
| ShadowLight.FoldBounds | SceneGraph/GLShadowLight.h:149-156 | the fold of Insert(pose, bounds) encloses its starting box |
| ShadowLight.FoldBoundsIsLeast | SceneGraph/GLShadowLight.h:149-156 | a box encloses the fold if and only if it encloses the start and admits every object |
| ShadowLight.FoldBoundsMonotone | SceneGraph/GLShadowLight.h:149-156 | a list holding every object of another folds to a box enclosing the other's |
| ShadowLight.FoldBoundsOrderFree | SceneGraph/GLShadowLight.h:149-156 | lists with the same objects fold to the same box, whatever the order and repetitions |
| ShadowLight.FoldBoundsPermutation | SceneGraph/GLShadowLight.h:149-156 | a permuted list folds to the same box |
| ShadowLight.FoldBoundsHoldsImages | SceneGraph/GLShadowLight.h:149-156 | the fold holds the image under its pose of every point of every object's bounds |
| ShadowLight.FitBoxes | SceneGraph/GLShadowLight.h:161-165 | the caster and receiver boxes are the folds over the two lists, and bbox_both encloses both |
| ShadowLight.BothIsUnion | SceneGraph/GLShadowLight.h:163-165 | within the sentinel, bbox_both is exactly the union of the caster and receiver boxes |
| ShadowLight.Clip | SceneGraph/GLShadowLight.h:168-176 | the near plane is 0.1 or dist - bothrad, and at least both; far - dist is bothrad; near <= far whenever bothrad >= 0 and dist + bothrad >= 0.1 |
| ShadowLight.ClipCanCross | SceneGraph/GLShadowLight.h:176 | a scene closer to the light than 0.1 gets a near plane beyond its far plane |
| ShadowLight.GLShadowLight.constructor | SceneGraph/GLShadowLight.h:13-19 | the light starts at (x, y, z) with the given buffer size and no casters or receivers |
| ShadowLight.GLShadowLight.AddShadowCaster | SceneGraph/GLShadowLight.h:29-32 | the object is appended to the casters; nothing else changes |
| ShadowLight.GLShadowLight.AddShadowReceiver | SceneGraph/GLShadowLight.h:34-37 | the object is appended to the receivers; nothing else changes |
| ShadowLight.GLShadowLight.AddShadowCasterAndReceiver | SceneGraph/GLShadowLight.h:39-43 | the object is appended to both lists |
| ShadowLight.GLShadowLight.ObjectBounds | SceneGraph/GLShadowLight.h:149-156 | the loop of in-place inserts yields a fresh box holding the fold over the objects; an empty list gives an Empty box |
| ShadowLight.GLShadowLight.SetupLight | SceneGraph/GLShadowLight.h:158-178 | the view looks from the light position at the caster centre; the clip planes are Clip(\|centre - position\|, \|bbox_both.Size()\| / 2) |
| EulerAngles.GLCart2R | SimpleGui/GLWindow.h:69-98 | the nine entries of the roll/pitch/yaw matrix; its behaviour is stated by EulerAngles.GLCart2RComposition (Rz * Ry * Rx) and EulerAngles.GLCart2ROrthogonal |
| EulerAngles.GLCart2T | SimpleGui/GLWindow.h:27-64 | the rotation block is GLCart2R(r, p, q), the translation column is (x, y, z) and the bottom row is (0, 0, 0, 1) |
| EulerAngles.GLCart2TMapsPoint | SimpleGui/GLWindow.h:47-62 | the transform maps v to R * v + (x, y, z) |
| EulerAngles.GLCart2RComposition | SimpleGui/GLWindow.h:69-98 | GLCart2R equals Rz(yaw) * Ry(pitch) * Rx(roll): roll is applied first and yaw last |
| EulerAngles.CompositionOrderMatters | SimpleGui/GLWindow.h:86-96 | applying roll last instead gives a different matrix for quarter turns |
| EulerAngles.ZeroAnglesTranslateOnly | SimpleGui/GLWindow.h:47-62 | with all angles zero R is the identity and T a pure translation |
| EulerAngles.BottomRowIgnoresYaw | SimpleGui/GLWindow.h:94-96 | the bottom row (-sp, sr*cp, cr*cp) does not depend on yaw |
| EulerAngles.FirstColumnIgnoresRoll | SimpleGui/GLWindow.h:86-96 | the first column (cp*cq, cp*sq, -sp) does not depend on roll |
| EulerAngles.GLCart2ROrthogonal | SimpleGui/GLWindow.h:86-96 | for cosines and sines on the unit circle, R^T R is the identity |
| EulerAngles.ColumnProducts | SimpleGui/GLWindow.h:86-96 | the columns of R are unit vectors and pairwise orthogonal |

## Left out

- `Linear.ElementwiseMin`, `Linear.ElementwiseMax`: modelled for column vectors only. These are the only shapes the box instantiates, so the column loop is a single pass.
- `Bounds.AxisAlignedBoundingBox.InsertTransformedBox`: takes the value of the argument box rather than the object. The case where `bb_a` is the box itself is not modelled. In the source each of the eight inserts would then read the partly updated corners.
- `Bounds.Box.InsertFrustum`, `Bounds.AxisAlignedBoundingBox.InsertFrustum`, `Bounds.AxisAlignedBoundingBox.FromFrustum`, `Bounds.Ray`, `Bounds.CameraDirection`: require non-zero focal lengths `fu` and `fv`. With zero focal lengths the source divides by zero in floating point and produces infinities or NaNs, which reals do not have.
- **Floating point.** All arithmetic is on exact reals. Rounding, `float` against `double`, infinities and NaNs are not modelled. The sentinel `std::numeric_limits<float>::max()` is the exact real value of `FLT_MAX`.
- **Trigonometry.** `cos` and `sin` are not evaluated. An angle is the pair (cosine, sine), and the unit-circle identity is a hypothesis where a lemma needs it.
- `ShadowLight.GLShadowLight.SetupLight`: takes the vector norm as a parameter, because square roots are not modelled.
- **The focal length.** The `f = width * dist / (8 * |casters size|)` heuristic of `SetupLight` is not modelled. Neither is its unguarded division by the caster box's extent.
- **The light's OpenGL state.**
  - `SetupLight` does not build the projection and look-at matrices (`ProjectionMatrix`, `ModelViewLookAt`). The model records only their near/far and eye/target arguments, in `projection` and `view`.
  - `ComputeShadows`, `PreRender`, `PostRender`, `DrawShadows` and the texture, framebuffer and render-buffer setup of the constructor are left out. They are OpenGL calls with no computed result.
- **Scene objects.** A scene object is reduced to its pose and its bounds. `GetPose4x4_po` and `ObjectAndChildrenBounds` (the union over an object's children) belong to `SceneGraph/GLObject.h`, which is not part of this model. Drawing is not modelled either.
- **Window and printing.** The `GLWindow` class (FLTK window, event handling, picking) and `operator<<` for boxes are not modelled. They are I/O.
- **The light position.** The light position is a field. `GLLight` and its `GetPose` are not part of this model.
