/** The axis-aligned bounding box of SceneGraph/AxisAlignedBoundingBox.h.

    `Box` is the value a box holds (its two corner vectors) together with the
    expression-only queries of the source (Empty, Size, Center, Volume,
    HalfSizeFromOrigin) and, as functions, what each in-place operation does
    to that value.  `AxisAlignedBoundingBox` is the class itself: its methods
    overwrite `boxmin` and `boxmax` in place, as the source does, and each
    one's postcondition ties the new value to the function of the old one. */
module Bounds {
  import opened Linear

  /** std::numeric_limits<float>::max(), the sentinel Clear() writes. */
  const FltMax: real := 340282346638528859811704183484516925440.0

  datatype Box = Box(boxmin: Vector3, boxmax: Vector3) {

    /** The extent vector, max - min. */
    function Size(): (s: Vector3)
      ensures forall i :: 0 <= i < 3 ==> boxmin[i] + s[i] == boxmax[i]
    {
      Sub(boxmax, boxmin)
    }

    /** Empty(): all three extents are negative at once, that is, every
        axis is inverted. */
    predicate Empty()
      ensures Empty() <==> boxmax[0] < boxmin[0] && boxmax[1] < boxmin[1] && boxmax[2] < boxmin[2]
    {
      var size := Size();
      size[0] < 0.0 && size[1] < 0.0 && size[2] < 0.0
    }

    /** No axis is inverted. */
    predicate Proper()
    {
      boxmin[0] <= boxmax[0] && boxmin[1] <= boxmax[1] && boxmin[2] <= boxmax[2]
    }

    /** The point lies between the two corners on every axis. */
    predicate Contains(p: Vector3)
    {
      && boxmin[0] <= p[0] <= boxmax[0]
      && boxmin[1] <= p[1] <= boxmax[1]
      && boxmin[2] <= p[2] <= boxmax[2]
    }

    /** This box's bounds are at least as wide as b's on every axis. */
    predicate Encloses(b: Box)
    {
      && boxmin[0] <= b.boxmin[0] && b.boxmax[0] <= boxmax[0]
      && boxmin[1] <= b.boxmin[1] && b.boxmax[1] <= boxmax[1]
      && boxmin[2] <= b.boxmin[2] && b.boxmax[2] <= boxmax[2]
    }

    /** Center(), computed as Min() + Size()/2: the midpoint of the two
        corners, equally far from both. */
    function Center(): (c: Vector3)
      ensures forall i :: 0 <= i < 3 ==> c[i] == (boxmin[i] + boxmax[i]) / 2.0
      ensures forall i :: 0 <= i < 3 ==> c[i] - boxmin[i] == boxmax[i] - c[i]
    {
      Add(boxmin, Scale(1.0 / 2.0, Size()))
    }

    /** Volume(): the product of the three extents.  It is zero exactly when
        the box is flat on some axis, negative for an Empty box and never
        negative for a proper one. */
    function Volume(): (v: real)
      ensures v == 0.0 <==> (boxmin[0] == boxmax[0] || boxmin[1] == boxmax[1] || boxmin[2] == boxmax[2])
      ensures Empty() ==> v < 0.0
      ensures Proper() ==> v >= 0.0
    {
      var s := Size();
      assert s[0] < 0.0 && s[1] < 0.0 ==> s[0] * s[1] > 0.0;
      assert s[0] >= 0.0 && s[1] >= 0.0 ==> s[0] * s[1] >= 0.0;
      s[0] * s[1] * s[2]
    }

    /** HalfSizeFromOrigin(): on every axis the smallest h such that the box
        centred on the origin with half-size h holds both corners. */
    function HalfSizeFromOrigin(): (h: Vector3)
      ensures forall i :: 0 <= i < 3 ==> -h[i] <= boxmin[i] && boxmax[i] <= h[i]
      ensures forall i :: 0 <= i < 3 ==> h[i] == boxmax[i] || h[i] == -boxmin[i]
      ensures Proper() ==> forall i :: 0 <= i < 3 ==> h[i] >= 0.0
    {
      MaxOf(boxmax, Scale(-1.0, boxmin))
    }

    /** Insert(p): the box grows just enough to hold p. */
    function InsertPoint(p: Vector3): (r: Box)
      ensures r.Contains(p) && r.Encloses(this)
      ensures forall i :: 0 <= i < 3 ==> r.boxmin[i] == p[i] || r.boxmin[i] == boxmin[i]
      ensures forall i :: 0 <= i < 3 ==> r.boxmax[i] == p[i] || r.boxmax[i] == boxmax[i]
    {
      Box([Min(p[0], boxmin[0]), Min(p[1], boxmin[1]), Min(p[2], boxmin[2])],
          [Max(p[0], boxmax[0]), Max(p[1], boxmax[1]), Max(p[2], boxmax[2])])
    }

    /** Insert(bb): the box grows just enough to enclose bb. */
    function InsertBox(bb: Box): (r: Box)
      ensures r.Encloses(this) && r.Encloses(bb)
      ensures forall i :: 0 <= i < 3 ==> r.boxmin[i] == bb.boxmin[i] || r.boxmin[i] == boxmin[i]
      ensures forall i :: 0 <= i < 3 ==> r.boxmax[i] == bb.boxmax[i] || r.boxmax[i] == boxmax[i]
    {
      Box(MinOf(bb.boxmin, boxmin), MaxOf(bb.boxmax, boxmax))
    }

    /** The corner that takes boxmax on the axes whose flag is set and boxmin
        on the others. */
    function Corner(x0: bool, x1: bool, x2: bool): Vector3
    {
      [if x0 then boxmax[0] else boxmin[0],
       if x1 then boxmax[1] else boxmin[1],
       if x2 then boxmax[2] else boxmin[2]]
    }

    /** Insert(T, bb): unless bb is Empty, the eight corners of bb, mapped by
        T, are inserted one by one, in the source's order. */
    function InsertTransformedBox(T: Matrix4, bb: Box): (r: Box)
      ensures bb.Empty() ==> r == this
      ensures r.Encloses(this)
    {
      if bb.Empty() then this else InsertFirst(CornerImages(T, bb), 8)
    }

    /** Inserts ps[0], ..., ps[n - 1], in that order. */
    function InsertFirst(ps: seq<Vector3>, n: nat): (r: Box)
      requires n <= |ps|
      ensures r.Encloses(this)
    {
      if n == 0 then this else InsertFirst(ps, n - 1).InsertPoint(ps[n - 1])
    }

    /** InsertFrustum: the points at depth near and then at depth far along
        the top-left, top-right, bottom-left and bottom-right rays of the
        camera are inserted one by one. */
    function InsertFrustum(T_wc: Matrix4, w: real, h: real, fu: real, fv: real,
                           u0: real, v0: real, near: real, far: real): (r: Box)
      requires fu != 0.0 && fv != 0.0
      ensures r.Encloses(this)
    {
      var c_w := TranslationColumn(T_wc);
      var ray_tl := Ray(T_wc, fu, fv, u0, v0, 0.0, 0.0);
      var ray_tr := Ray(T_wc, fu, fv, u0, v0, w, 0.0);
      var ray_bl := Ray(T_wc, fu, fv, u0, v0, 0.0, h);
      var ray_br := Ray(T_wc, fu, fv, u0, v0, w, h);
      this
        .InsertPoint(Add(c_w, Scale(near, ray_tl)))
        .InsertPoint(Add(c_w, Scale(near, ray_tr)))
        .InsertPoint(Add(c_w, Scale(near, ray_bl)))
        .InsertPoint(Add(c_w, Scale(near, ray_br)))
        .InsertPoint(Add(c_w, Scale(far, ray_tl)))
        .InsertPoint(Add(c_w, Scale(far, ray_tr)))
        .InsertPoint(Add(c_w, Scale(far, ray_bl)))
        .InsertPoint(Add(c_w, Scale(far, ray_br)))
    }

    /** Intersect(bb): the common part of the two boxes. */
    function Intersect(bb: Box): (r: Box)
      ensures forall p :: r.Contains(p) <==> Contains(p) && bb.Contains(p)
    {
      Box(MaxOf(bb.boxmin, boxmin), MinOf(bb.boxmax, boxmax))
    }
  }

  /** The value Clear() writes: an inverted box that holds no point at all. */
  function Cleared(): (b: Box)
    ensures b.Empty()
    ensures forall p :: !b.Contains(p)
  {
    Box([FltMax, FltMax, FltMax], [-FltMax, -FltMax, -FltMax])
  }

  /** The corners of bb mapped by T, in the order Insert(T, bb) visits
      them: the x end changes slowest and the z end fastest, min first. */
  function CornerImages(T: Matrix4, bb: Box): (ps: seq<Vector3>)
    ensures |ps| == 8
  {
    [Affine(T, bb.Corner(false, false, false)), Affine(T, bb.Corner(false, false, true)),
     Affine(T, bb.Corner(false, true, false)), Affine(T, bb.Corner(false, true, true)),
     Affine(T, bb.Corner(true, false, false)), Affine(T, bb.Corner(true, false, true)),
     Affine(T, bb.Corner(true, true, false)), Affine(T, bb.Corner(true, true, true))]
  }

  /** Inserting the first eight of eight points is inserting them one by one. */
  lemma InsertFirstEight(b: Box, ps: seq<Vector3>)
    requires |ps| == 8
    ensures b.InsertFirst(ps, 8)
         == b.InsertPoint(ps[0]).InsertPoint(ps[1]).InsertPoint(ps[2]).InsertPoint(ps[3])
             .InsertPoint(ps[4]).InsertPoint(ps[5]).InsertPoint(ps[6]).InsertPoint(ps[7])
  {
    var b1 := b.InsertPoint(ps[0]);
    var b2 := b1.InsertPoint(ps[1]);
    var b3 := b2.InsertPoint(ps[2]);
    var b4 := b3.InsertPoint(ps[3]);
    var b5 := b4.InsertPoint(ps[4]);
    var b6 := b5.InsertPoint(ps[5]);
    var b7 := b6.InsertPoint(ps[6]);
    assert b.InsertFirst(ps, 1) == b1;
    assert b.InsertFirst(ps, 2) == b2;
    assert b.InsertFirst(ps, 3) == b3;
    assert b.InsertFirst(ps, 4) == b4;
    assert b.InsertFirst(ps, 5) == b5;
    assert b.InsertFirst(ps, 6) == b6;
    assert b.InsertFirst(ps, 7) == b7;
  }

  /** The camera-frame direction at depth 1 through pixel (u, v) of a
      pinhole camera with focal lengths fu, fv and principal point (u0, v0):
      projecting it gives back the pixel. */
  function CameraDirection(fu: real, fv: real, u0: real, v0: real, u: real, v: real): (d: Vector3)
    requires fu != 0.0 && fv != 0.0
    ensures d[2] == 1.0
    ensures fu * d[0] / d[2] + u0 == u && fv * d[1] / d[2] + v0 == v
  {
    [(u - u0) / fu, (v - v0) / fv, 1.0]
  }

  /** The ray through pixel (u, v), rotated into the world frame by the
      rotation block of T_wc. */
  function Ray(T_wc: Matrix4, fu: real, fv: real, u0: real, v0: real, u: real, v: real): Vector3
    requires fu != 0.0 && fv != 0.0
  {
    MulVec(RotationBlock(T_wc), CameraDirection(fu, fv, u0, v0, u, v))
  }

  /** The box whose two fields the source overwrites in place. */
  class AxisAlignedBoundingBox {
    var boxmin: Vector3
    var boxmax: Vector3

    /** The value the box currently holds. */
    function Value(): Box
      reads this
    {
      Box(boxmin, boxmax)
    }

    /** The default constructor clears the box. */
    constructor ()
      ensures Value() == Cleared()
    {
      new;
      Clear();
    }

    constructor Copy(bbox: AxisAlignedBoundingBox)
      ensures Value() == bbox.Value()
    {
      boxmin := bbox.boxmin;
      boxmax := bbox.boxmax;
    }

    constructor FromMinMax(boxmin: Vector3, boxmax: Vector3)
      ensures Value() == Box(boxmin, boxmax)
    {
      this.boxmin := boxmin;
      this.boxmax := boxmax;
    }

    /** The bounds of bb_a seen through T_ba: a cleared box with bb_a
        inserted under the transform. */
    constructor FromTransformed(T_ba: Matrix4, bb_a: AxisAlignedBoundingBox)
      ensures Value() == Cleared().InsertTransformedBox(T_ba, bb_a.Value())
    {
      new;
      Clear();
      InsertTransformedBox(T_ba, bb_a.Value());
    }

    /** The bounds of a camera frustum: a cleared box with the frustum
        inserted. */
    constructor FromFrustum(T_wc: Matrix4, w: real, h: real, fu: real, fv: real,
                            u0: real, v0: real, near: real, far: real)
      requires fu != 0.0 && fv != 0.0
      ensures Value() == Cleared().InsertFrustum(T_wc, w, h, fu, fv, u0, v0, near, far)
    {
      new;
      Clear();
      InsertFrustum(T_wc, w, h, fu, fv, u0, v0, near, far);
    }

    method Clear()
      modifies this
      ensures Value() == Cleared()
    {
      boxmin := [FltMax, FltMax, FltMax];
      boxmax := [-FltMax, -FltMax, -FltMax];
    }

    /** Insert(p). */
    method InsertPoint(p: Vector3)
      modifies this
      ensures Value() == old(Value()).InsertPoint(p)
    {
      boxmax := ElementwiseMax(p, boxmax);
      boxmin := ElementwiseMin(p, boxmin);
    }

    /** Insert(T_ba, p_a): inserts p_a mapped into frame b. */
    method InsertTransformedPoint(T_ba: Matrix4, p_a: Vector3)
      modifies this
      ensures Value() == old(Value()).InsertPoint(Affine(T_ba, p_a))
    {
      var p_b := Add(MulVec(RotationBlock(T_ba), p_a), TranslationColumn(T_ba));
      boxmax := ElementwiseMax(p_b, boxmax);
      boxmin := ElementwiseMin(p_b, boxmin);
    }

    /** Insert(bb). */
    method InsertBox(bb: AxisAlignedBoundingBox)
      modifies this
      ensures Value() == old(Value()).InsertBox(old(bb.Value()))
    {
      boxmin := ElementwiseMin(bb.boxmin, boxmin);
      boxmax := ElementwiseMax(bb.boxmax, boxmax);
    }

    /** Insert(T_ba, bb_a): the eight corners of bb_a, mapped into frame b,
        are inserted one by one; an Empty bb_a changes nothing.  bb_a is
        the value of the argument box. */
    method InsertTransformedBox(T_ba: Matrix4, bb_a: Box)
      modifies this
      ensures Value() == old(Value()).InsertTransformedBox(T_ba, bb_a)
    {
      if !bb_a.Empty() {
        ghost var before := Value();
        ghost var corners := CornerImages(T_ba, bb_a);
        InsertTransformedPoint(T_ba, [bb_a.boxmin[0], bb_a.boxmin[1], bb_a.boxmin[2]]);
        InsertTransformedPoint(T_ba, [bb_a.boxmin[0], bb_a.boxmin[1], bb_a.boxmax[2]]);
        InsertTransformedPoint(T_ba, [bb_a.boxmin[0], bb_a.boxmax[1], bb_a.boxmin[2]]);
        InsertTransformedPoint(T_ba, [bb_a.boxmin[0], bb_a.boxmax[1], bb_a.boxmax[2]]);
        InsertTransformedPoint(T_ba, [bb_a.boxmax[0], bb_a.boxmin[1], bb_a.boxmin[2]]);
        InsertTransformedPoint(T_ba, [bb_a.boxmax[0], bb_a.boxmin[1], bb_a.boxmax[2]]);
        InsertTransformedPoint(T_ba, [bb_a.boxmax[0], bb_a.boxmax[1], bb_a.boxmin[2]]);
        InsertTransformedPoint(T_ba, [bb_a.boxmax[0], bb_a.boxmax[1], bb_a.boxmax[2]]);
        InsertFirstEight(before, corners);
      }
    }

    /** InsertFrustum: inserts the near and far ends of the four corner rays. */
    method InsertFrustum(T_wc: Matrix4, w: real, h: real, fu: real, fv: real,
                         u0: real, v0: real, near: real, far: real)
      requires fu != 0.0 && fv != 0.0
      modifies this
      ensures Value() == old(Value()).InsertFrustum(T_wc, w, h, fu, fv, u0, v0, near, far)
    {
      var c_w := TranslationColumn(T_wc);
      var R := RotationBlock(T_wc);
      var ray_tl := MulVec(R, [(0.0 - u0) / fu, (0.0 - v0) / fv, 1.0]);
      var ray_tr := MulVec(R, [(w - u0) / fu, (0.0 - v0) / fv, 1.0]);
      var ray_bl := MulVec(R, [(0.0 - u0) / fu, (h - v0) / fv, 1.0]);
      var ray_br := MulVec(R, [(w - u0) / fu, (h - v0) / fv, 1.0]);

      InsertPoint(Add(c_w, Scale(near, ray_tl)));
      InsertPoint(Add(c_w, Scale(near, ray_tr)));
      InsertPoint(Add(c_w, Scale(near, ray_bl)));
      InsertPoint(Add(c_w, Scale(near, ray_br)));
      InsertPoint(Add(c_w, Scale(far, ray_tl)));
      InsertPoint(Add(c_w, Scale(far, ray_tr)));
      InsertPoint(Add(c_w, Scale(far, ray_bl)));
      InsertPoint(Add(c_w, Scale(far, ray_br)));
      assert ray_tl == Ray(T_wc, fu, fv, u0, v0, 0.0, 0.0);
      assert ray_tr == Ray(T_wc, fu, fv, u0, v0, w, 0.0);
      assert ray_bl == Ray(T_wc, fu, fv, u0, v0, 0.0, h);
      assert ray_br == Ray(T_wc, fu, fv, u0, v0, w, h);
    }

    /** Intersect(bb): shrinks the box to the part it shares with bb. */
    method Intersect(bb: AxisAlignedBoundingBox)
      modifies this
      ensures Value() == old(Value()).Intersect(old(bb.Value()))
    {
      boxmin := ElementwiseMax(bb.boxmin, boxmin);
      boxmax := ElementwiseMin(bb.boxmax, boxmax);
    }
  }
}
