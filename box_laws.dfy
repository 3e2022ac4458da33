/** Laws of the bounding-box operations of SceneGraph/AxisAlignedBoundingBox.h:
    each insert yields the least box holding the old box and what was
    inserted, Intersect the greatest box inside both, and the algebra
    (commutativity, associativity, idempotence) that follows from that. */
module BoxLaws {
  import opened Linear
  import opened Bounds

  /** Two boxes that enclose each other are the same box. */
  lemma EnclosesAntisymmetric(a: Box, b: Box)
    requires a.Encloses(b) && b.Encloses(a)
    ensures a == b
  {
    assert a.boxmin == b.boxmin by {
      assert forall i :: 0 <= i < 3 ==> a.boxmin[i] == b.boxmin[i];
    }
    assert a.boxmax == b.boxmax by {
      assert forall i :: 0 <= i < 3 ==> a.boxmax[i] == b.boxmax[i];
    }
  }

  // ----- Clear and Empty -----

  /** A box inverted on any axis holds no point, so a box inverted on only
      some axes holds no point either, yet is not Empty. */
  lemma InvertedBoxHoldsNoPoint(b: Box)
    ensures !b.Proper() ==> forall p :: !b.Contains(p)
  {
  }

  lemma PartlyInvertedBoxIsNotEmpty(b: Box, i: int)
    requires 0 <= i < 3 && b.boxmin[i] <= b.boxmax[i]
    ensures !b.Empty()
  {
  }

  /** Coordinates a cleared box can absorb without the sentinel showing. */
  predicate WithinSentinel(b: Box)
  {
    && b.boxmin[0] <= FltMax && b.boxmin[1] <= FltMax && b.boxmin[2] <= FltMax
    && -FltMax <= b.boxmax[0] && -FltMax <= b.boxmax[1] && -FltMax <= b.boxmax[2]
  }

  /** Inserting a box into a cleared box yields exactly that box if, and
      only if, its minimum is at most FLT_MAX and its maximum at least
      -FLT_MAX on every axis. */
  lemma InsertBoxIntoCleared(b: Box)
    ensures Cleared().InsertBox(b) == b <==> WithinSentinel(b)
  {
    var r := Cleared().InsertBox(b);
    if WithinSentinel(b) {
      EnclosesAntisymmetric(r, b);
    }
  }

  // ----- Insert(p) -----

  /** Insert(p) gives the least box holding the old box and p. */
  lemma InsertPointIsLeast(b: Box, p: Vector3, c: Box)
    ensures c.Encloses(b.InsertPoint(p)) <==> c.Encloses(b) && c.Contains(p)
  {
  }

  /** Inserting the same point twice is inserting it once. */
  lemma InsertPointIdempotent(b: Box, p: Vector3)
    ensures b.InsertPoint(p).InsertPoint(p) == b.InsertPoint(p)
  {
    var once := b.InsertPoint(p);
    var twice := once.InsertPoint(p);
    InsertPointIsLeast(once, p, once);
    InsertPointIsLeast(once, p, twice);
    EnclosesAntisymmetric(once, twice);
  }

  /** Insert(p) is Insert of the box that holds p alone. */
  lemma InsertPointIsInsertBox(b: Box, p: Vector3)
    ensures b.InsertPoint(p) == b.InsertBox(Box(p, p))
  {
    var r1 := b.InsertPoint(p);
    var r2 := b.InsertBox(Box(p, p));
    InsertPointIsLeast(b, p, r2);
    InsertBoxIsLeast(b, Box(p, p), r1);
    EnclosesAntisymmetric(r1, r2);
  }

  // ----- Insert(bb) -----

  /** Insert(bb) gives the least box enclosing both boxes. */
  lemma InsertBoxIsLeast(a: Box, bb: Box, c: Box)
    ensures c.Encloses(a.InsertBox(bb)) <==> c.Encloses(a) && c.Encloses(bb)
  {
  }

  lemma InsertBoxCommutative(a: Box, b: Box)
    ensures a.InsertBox(b) == b.InsertBox(a)
  {
    var ab := a.InsertBox(b);
    var ba := b.InsertBox(a);
    InsertBoxIsLeast(a, b, ba);
    InsertBoxIsLeast(b, a, ab);
    EnclosesAntisymmetric(ab, ba);
  }

  lemma InsertBoxAssociative(a: Box, b: Box, c: Box)
    ensures a.InsertBox(b).InsertBox(c) == a.InsertBox(b.InsertBox(c))
  {
    var left := a.InsertBox(b).InsertBox(c);
    var right := a.InsertBox(b.InsertBox(c));
    InsertBoxIsLeast(a.InsertBox(b), c, right);
    InsertBoxIsLeast(a, b, right);
    InsertBoxIsLeast(a, b.InsertBox(c), left);
    InsertBoxIsLeast(b, c, left);
    EnclosesAntisymmetric(left, right);
  }

  /** A.Insert(A) leaves A unchanged. */
  lemma InsertBoxIdempotent(a: Box)
    ensures a.InsertBox(a) == a
  {
    var r := a.InsertBox(a);
    InsertBoxIsLeast(a, a, a);
    EnclosesAntisymmetric(r, a);
  }

  // ----- Insert(T, bb) -----

  /** The box c holds the image under T of every corner of bb (vacuously so
      when bb is Empty, whose corners are never inserted). */
  predicate HoldsCornerImages(c: Box, T: Matrix4, bb: Box)
  {
    !bb.Empty() ==> HoldsFirst(c, CornerImages(T, bb), 8)
  }

  /** The box c holds ps[0], ..., ps[n - 1]. */
  predicate HoldsFirst(c: Box, ps: seq<Vector3>, n: int)
    requires n <= |ps|
  {
    forall k :: 0 <= k < n ==> c.Contains(ps[k])
  }

  /** The eight images CornerImages lists are those of all eight corners. */
  lemma HoldsCornerImagesAllCorners(c: Box, T: Matrix4, bb: Box)
    requires !bb.Empty()
    ensures HoldsCornerImages(c, T, bb) <==> forall x0, x1, x2 :: c.Contains(Affine(T, bb.Corner(x0, x1, x2)))
  {
    var ps := CornerImages(T, bb);
    if HoldsCornerImages(c, T, bb) {
      forall x0, x1, x2
        ensures c.Contains(Affine(T, bb.Corner(x0, x1, x2)))
      {
        var k := (if x0 then 4 else 0) + (if x1 then 2 else 0) + (if x2 then 1 else 0);
        assert ps[k] == Affine(T, bb.Corner(x0, x1, x2));
      }
    }
    if forall x0, x1, x2 :: c.Contains(Affine(T, bb.Corner(x0, x1, x2))) {
      assert c.Contains(ps[0]) && c.Contains(ps[1]) && c.Contains(ps[2]) && c.Contains(ps[3]);
      assert c.Contains(ps[4]) && c.Contains(ps[5]) && c.Contains(ps[6]) && c.Contains(ps[7]);
    }
  }

  /** Inserting the first n points gives the least box holding the old box
      and those points. */
  lemma {:induction false} InsertFirstIsLeast(b: Box, ps: seq<Vector3>, n: nat, c: Box)
    requires n <= |ps|
    ensures c.Encloses(b.InsertFirst(ps, n)) <==> c.Encloses(b) && HoldsFirst(c, ps, n)
  {
    if n > 0 {
      InsertPointIsLeast(b.InsertFirst(ps, n - 1), ps[n - 1], c);
      InsertFirstIsLeast(b, ps, n - 1, c);
    }
  }

  /** Insert(T, bb) gives the least box holding the old box and the images
      of the corners of bb. */
  lemma InsertTransformedBoxIsLeast(b: Box, T: Matrix4, bb: Box, c: Box)
    ensures c.Encloses(b.InsertTransformedBox(T, bb)) <==> c.Encloses(b) && HoldsCornerImages(c, T, bb)
  {
    InsertFirstIsLeast(b, CornerImages(T, bb), 8, c);
  }

  /** Insert(T, bb) leaves the box unchanged when bb is Empty; otherwise the
      new box holds the images of all eight corners of bb. */
  lemma InsertTransformedBoxHoldsCorners(b: Box, T: Matrix4, bb: Box)
    ensures bb.Empty() ==> b.InsertTransformedBox(T, bb) == b
    ensures !bb.Empty() ==> forall x0, x1, x2 :: b.InsertTransformedBox(T, bb).Contains(Affine(T, bb.Corner(x0, x1, x2)))
  {
    var r := b.InsertTransformedBox(T, bb);
    InsertTransformedBoxIsLeast(b, T, bb, r);
    if !bb.Empty() {
      HoldsCornerImagesAllCorners(r, T, bb);
    }
  }

  /** Two transformed-box inserts can be done in either order. */
  lemma InsertTransformedBoxCommutes(b: Box, T1: Matrix4, bb1: Box, T2: Matrix4, bb2: Box)
    ensures b.InsertTransformedBox(T1, bb1).InsertTransformedBox(T2, bb2)
         == b.InsertTransformedBox(T2, bb2).InsertTransformedBox(T1, bb1)
  {
    SwappedEncloses(b, T1, bb1, T2, bb2);
    SwappedEncloses(b, T2, bb2, T1, bb1);
    EnclosesAntisymmetric(b.InsertTransformedBox(T1, bb1).InsertTransformedBox(T2, bb2),
                          b.InsertTransformedBox(T2, bb2).InsertTransformedBox(T1, bb1));
  }

  lemma SwappedEncloses(b: Box, T1: Matrix4, bb1: Box, T2: Matrix4, bb2: Box)
    ensures b.InsertTransformedBox(T2, bb2).InsertTransformedBox(T1, bb1)
              .Encloses(b.InsertTransformedBox(T1, bb1).InsertTransformedBox(T2, bb2))
  {
    var b1 := b.InsertTransformedBox(T1, bb1);
    var b2 := b.InsertTransformedBox(T2, bb2);
    var b21 := b2.InsertTransformedBox(T1, bb1);
    // b21 holds b2 and the images of bb1 ...
    InsertTransformedBoxIsLeast(b2, T1, bb1, b21);
    // ... so it holds b and the images of bb2 ...
    InsertTransformedBoxIsLeast(b, T2, bb2, b21);
    // ... hence b1 ...
    InsertTransformedBoxIsLeast(b, T1, bb1, b21);
    // ... and b1 with bb2 inserted.
    InsertTransformedBoxIsLeast(b1, T2, bb2, b21);
  }

  /** On axis i, the image of a point of bb lies between the images of the
      two corners that pick, coordinate by coordinate, the end the i-th row
      of T maps lowest and highest. */
  lemma ImageBetweenCorners(T: Matrix4, bb: Box, p: Vector3, i: int)
    requires bb.Contains(p) && 0 <= i < 3
    ensures Affine(T, bb.Corner(T[i][0] < 0.0, T[i][1] < 0.0, T[i][2] < 0.0))[i] <= Affine(T, p)[i]
    ensures Affine(T, p)[i] <= Affine(T, bb.Corner(T[i][0] >= 0.0, T[i][1] >= 0.0, T[i][2] >= 0.0))[i]
  {
    var lo := bb.Corner(T[i][0] < 0.0, T[i][1] < 0.0, T[i][2] < 0.0);
    var hi := bb.Corner(T[i][0] >= 0.0, T[i][1] >= 0.0, T[i][2] >= 0.0);
    ProductBetweenPicked(T[i][0], bb.boxmin[0], p[0], bb.boxmax[0]);
    ProductBetweenPicked(T[i][1], bb.boxmin[1], p[1], bb.boxmax[1]);
    ProductBetweenPicked(T[i][2], bb.boxmin[2], p[2], bb.boxmax[2]);
    AffineCoordinateLe(T, lo, p, i);
    AffineCoordinateLe(T, p, hi, i);
  }

  /** A box holding the images of the eight corners of bb holds the image
      of every point of bb: rotation can widen the box, never leave part of
      the transformed bb outside it. */
  lemma CornerImagesBoundImage(c: Box, T: Matrix4, bb: Box, p: Vector3)
    requires bb.Contains(p)
    requires HoldsCornerImages(c, T, bb)
    ensures c.Contains(Affine(T, p))
  {
    assert !bb.Empty();
    HoldsCornerImagesAllCorners(c, T, bb);
    ImageBetweenCorners(T, bb, p, 0);
    ImageBetweenCorners(T, bb, p, 1);
    ImageBetweenCorners(T, bb, p, 2);
    assert c.Contains(Affine(T, bb.Corner(T[0][0] < 0.0, T[0][1] < 0.0, T[0][2] < 0.0)));
    assert c.Contains(Affine(T, bb.Corner(T[0][0] >= 0.0, T[0][1] >= 0.0, T[0][2] >= 0.0)));
    assert c.Contains(Affine(T, bb.Corner(T[1][0] < 0.0, T[1][1] < 0.0, T[1][2] < 0.0)));
    assert c.Contains(Affine(T, bb.Corner(T[1][0] >= 0.0, T[1][1] >= 0.0, T[1][2] >= 0.0)));
    assert c.Contains(Affine(T, bb.Corner(T[2][0] < 0.0, T[2][1] < 0.0, T[2][2] < 0.0)));
    assert c.Contains(Affine(T, bb.Corner(T[2][0] >= 0.0, T[2][1] >= 0.0, T[2][2] >= 0.0)));
  }

  /** After Insert(T, bb) the box holds the image under T of every point of
      bb, not only of its corners. */
  lemma InsertTransformedBoxHoldsImage(b: Box, T: Matrix4, bb: Box, p: Vector3)
    requires bb.Contains(p)
    ensures b.InsertTransformedBox(T, bb).Contains(Affine(T, p))
  {
    InsertTransformedBoxIsLeast(b, T, bb, b.InsertTransformedBox(T, bb));
    CornerImagesBoundImage(b.InsertTransformedBox(T, bb), T, bb, p);
  }

  // ----- InsertFrustum -----

  /** The point at depth d along the ray through pixel (u, v), starting at
      the camera centre. */
  function FrustumPoint(T_wc: Matrix4, fu: real, fv: real, u0: real, v0: real,
                        u: real, v: real, d: real): Vector3
    requires fu != 0.0 && fv != 0.0
  {
    Add(TranslationColumn(T_wc), Scale(d, Ray(T_wc, fu, fv, u0, v0, u, v)))
  }

  /** The box c holds the near and far points of the four corner rays of a
      w x h image. */
  predicate HoldsFrustumCorners(c: Box, T_wc: Matrix4, w: real, h: real, fu: real, fv: real,
                                u0: real, v0: real, near: real, far: real)
    requires fu != 0.0 && fv != 0.0
  {
    && c.Contains(FrustumPoint(T_wc, fu, fv, u0, v0, 0.0, 0.0, near))
    && c.Contains(FrustumPoint(T_wc, fu, fv, u0, v0, w, 0.0, near))
    && c.Contains(FrustumPoint(T_wc, fu, fv, u0, v0, 0.0, h, near))
    && c.Contains(FrustumPoint(T_wc, fu, fv, u0, v0, w, h, near))
    && c.Contains(FrustumPoint(T_wc, fu, fv, u0, v0, 0.0, 0.0, far))
    && c.Contains(FrustumPoint(T_wc, fu, fv, u0, v0, w, 0.0, far))
    && c.Contains(FrustumPoint(T_wc, fu, fv, u0, v0, 0.0, h, far))
    && c.Contains(FrustumPoint(T_wc, fu, fv, u0, v0, w, h, far))
  }

  /** InsertFrustum gives the least box holding the old box and the near
      and far points of the four corner rays. */
  lemma InsertFrustumIsLeast(b: Box, T_wc: Matrix4, w: real, h: real, fu: real, fv: real,
                             u0: real, v0: real, near: real, far: real, c: Box)
    requires fu != 0.0 && fv != 0.0
    ensures c.Encloses(b.InsertFrustum(T_wc, w, h, fu, fv, u0, v0, near, far))
        <==> c.Encloses(b) && HoldsFrustumCorners(c, T_wc, w, h, fu, fv, u0, v0, near, far)
  {
    var p1 := FrustumPoint(T_wc, fu, fv, u0, v0, 0.0, 0.0, near);
    var p2 := FrustumPoint(T_wc, fu, fv, u0, v0, w, 0.0, near);
    var p3 := FrustumPoint(T_wc, fu, fv, u0, v0, 0.0, h, near);
    var p4 := FrustumPoint(T_wc, fu, fv, u0, v0, w, h, near);
    var p5 := FrustumPoint(T_wc, fu, fv, u0, v0, 0.0, 0.0, far);
    var p6 := FrustumPoint(T_wc, fu, fv, u0, v0, w, 0.0, far);
    var p7 := FrustumPoint(T_wc, fu, fv, u0, v0, 0.0, h, far);
    var p8 := FrustumPoint(T_wc, fu, fv, u0, v0, w, h, far);
    var b1 := b.InsertPoint(p1);
    var b2 := b1.InsertPoint(p2);
    var b3 := b2.InsertPoint(p3);
    var b4 := b3.InsertPoint(p4);
    var b5 := b4.InsertPoint(p5);
    var b6 := b5.InsertPoint(p6);
    var b7 := b6.InsertPoint(p7);
    assert b.InsertFrustum(T_wc, w, h, fu, fv, u0, v0, near, far) == b7.InsertPoint(p8);
    InsertPointIsLeast(b, p1, c);
    InsertPointIsLeast(b1, p2, c);
    InsertPointIsLeast(b2, p3, c);
    InsertPointIsLeast(b3, p4, c);
    InsertPointIsLeast(b4, p5, c);
    InsertPointIsLeast(b5, p6, c);
    InsertPointIsLeast(b6, p7, c);
    InsertPointIsLeast(b7, p8, c);
  }

  /** After InsertFrustum the box holds the eight frustum corners. */
  lemma InsertFrustumHoldsCorners(b: Box, T_wc: Matrix4, w: real, h: real, fu: real, fv: real,
                                  u0: real, v0: real, near: real, far: real)
    requires fu != 0.0 && fv != 0.0
    ensures HoldsFrustumCorners(b.InsertFrustum(T_wc, w, h, fu, fv, u0, v0, near, far),
                                T_wc, w, h, fu, fv, u0, v0, near, far)
  {
    var r := b.InsertFrustum(T_wc, w, h, fu, fv, u0, v0, near, far);
    InsertFrustumIsLeast(b, T_wc, w, h, fu, fv, u0, v0, near, far, r);
  }

  // ----- Intersect(bb) -----

  /** Intersect gives the greatest box that both boxes enclose. */
  lemma IntersectIsGreatest(a: Box, bb: Box, c: Box)
    ensures a.Intersect(bb).Encloses(c) <==> a.Encloses(c) && bb.Encloses(c)
  {
  }

  /** On every axis the bounds of the intersection lie within the bounds
      of both boxes. */
  lemma IntersectInsideBoth(a: Box, bb: Box, i: int)
    requires 0 <= i < 3
    ensures a.boxmin[i] <= a.Intersect(bb).boxmin[i] && a.Intersect(bb).boxmax[i] <= a.boxmax[i]
    ensures bb.boxmin[i] <= a.Intersect(bb).boxmin[i] && a.Intersect(bb).boxmax[i] <= bb.boxmax[i]
  {
  }

  lemma IntersectIdempotent(a: Box)
    ensures a.Intersect(a) == a
  {
    var r := a.Intersect(a);
    IntersectIsGreatest(a, a, a);
    IntersectIsGreatest(a, a, r);
    EnclosesAntisymmetric(r, a);
  }

  lemma IntersectCommutative(a: Box, b: Box)
    ensures a.Intersect(b) == b.Intersect(a)
  {
    var ab := a.Intersect(b);
    var ba := b.Intersect(a);
    IntersectIsGreatest(a, b, ba);
    IntersectIsGreatest(b, a, ab);
    IntersectIsGreatest(a, b, ab);
    IntersectIsGreatest(b, a, ba);
    EnclosesAntisymmetric(ab, ba);
  }
}
