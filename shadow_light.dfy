/** The bookkeeping of SceneGraph/GLShadowLight.h: the append-only lists of
    shadow casters and receivers, ObjectBounds (the fold of Insert(pose,
    bounds) over a list of objects) and the bounds, look-at and near/far
    part of SetupLight.  Drawing and the OpenGL render state are outside
    this model. */
module ShadowLight {
  import opened Linear
  import opened Bounds
  import opened BoxLaws

  /** A scene object as the shadow light sees it: its pose (GetPose4x4_po)
      and the bounds of the object and its children (ObjectAndChildrenBounds). */
  class GLObject {
    var pose: Matrix4
    var bounds: Box

    constructor (pose: Matrix4, bounds: Box)
      ensures this.pose == pose && this.bounds == bounds
    {
      this.pose := pose;
      this.bounds := bounds;
    }
  }

  /** What ObjectBounds reads from one object. */
  datatype Placed = Placed(pose: Matrix4, bounds: Box)

  /** The poses and bounds of a list of objects, in list order. */
  function Placements(objs: seq<GLObject>): (ps: seq<Placed>)
    reads objs
    ensures |ps| == |objs|
    ensures forall i :: 0 <= i < |objs| ==> ps[i] == Placed(objs[i].pose, objs[i].bounds)
  {
    seq(|objs|, i requires 0 <= i < |objs| reads objs => Placed(objs[i].pose, objs[i].bounds))
  }

  /** The left fold of Insert(pose, bounds) over ps, starting from init. */
  function FoldBounds(init: Box, ps: seq<Placed>): (r: Box)
    decreases |ps|
    ensures r.Encloses(init)
  {
    if |ps| == 0 then init
    else
      var last := ps[|ps| - 1];
      FoldBounds(init, ps[..|ps| - 1]).InsertTransformedBox(last.pose, last.bounds)
  }

  /** The box c admits the placed object pl: it holds the images of its corners. */
  predicate Admits(c: Box, pl: Placed)
  {
    HoldsCornerImages(c, pl.pose, pl.bounds)
  }

  /** The box c admits every object of ps. */
  predicate AdmitsAll(c: Box, ps: seq<Placed>)
  {
    forall pl :: pl in ps ==> Admits(c, pl)
  }

  /** The fold is the least box that holds init and admits every object. */
  lemma {:induction false} FoldBoundsIsLeast(init: Box, ps: seq<Placed>, c: Box)
    decreases |ps|
    ensures c.Encloses(FoldBounds(init, ps)) <==> c.Encloses(init) && AdmitsAll(c, ps)
  {
    if |ps| > 0 {
      var front := ps[..|ps| - 1];
      var last := ps[|ps| - 1];
      var prev := FoldBounds(init, front);
      assert FoldBounds(init, ps) == prev.InsertTransformedBox(last.pose, last.bounds);
      InsertTransformedBoxIsLeast(prev, last.pose, last.bounds, c);
      assert c.Encloses(FoldBounds(init, ps)) <==> c.Encloses(prev) && Admits(c, last);
      FoldBoundsIsLeast(init, front, c);
      MembersOfFrontAndLast(ps);
      assert AdmitsAll(c, ps) <==> AdmitsAll(c, front) && Admits(c, last);
    }
  }

  lemma MembersOfFrontAndLast<T>(s: seq<T>)
    requires |s| > 0
    ensures forall x :: x in s <==> x in s[..|s| - 1] || x == s[|s| - 1]
  {
    assert s == s[..|s| - 1] + [s[|s| - 1]];
  }

  /** Adding objects can only grow the fold: a list that holds every object
      of another folds to a box enclosing the other's. */
  lemma FoldBoundsMonotone(init: Box, ps: seq<Placed>, qs: seq<Placed>)
    requires forall pl :: pl in qs ==> pl in ps
    ensures FoldBounds(init, ps).Encloses(FoldBounds(init, qs))
  {
    var a := FoldBounds(init, ps);
    FoldBoundsIsLeast(init, ps, a);
    assert AdmitsAll(a, qs);
    FoldBoundsIsLeast(init, qs, a);
  }

  /** The fold depends only on which objects the list holds: not on their
      order, nor on how often each appears. */
  lemma FoldBoundsOrderFree(init: Box, ps: seq<Placed>, qs: seq<Placed>)
    requires forall pl :: pl in ps <==> pl in qs
    ensures FoldBounds(init, ps) == FoldBounds(init, qs)
  {
    FoldBoundsMonotone(init, ps, qs);
    FoldBoundsMonotone(init, qs, ps);
    EnclosesAntisymmetric(FoldBounds(init, ps), FoldBounds(init, qs));
  }

  /** In particular the fold of a permutation of the list is the same box. */
  lemma FoldBoundsPermutation(init: Box, ps: seq<Placed>, qs: seq<Placed>)
    requires multiset(ps) == multiset(qs)
    ensures FoldBounds(init, ps) == FoldBounds(init, qs)
  {
    forall pl
      ensures pl in ps <==> pl in qs
    {
      assert pl in ps <==> pl in multiset(ps);
      assert pl in qs <==> pl in multiset(qs);
    }
    FoldBoundsOrderFree(init, ps, qs);
  }

  /** The fold holds the image under its pose of every point of every
      object's bounds. */
  lemma FoldBoundsHoldsImages(init: Box, ps: seq<Placed>, k: int, p: Vector3)
    requires 0 <= k < |ps| && ps[k].bounds.Contains(p)
    ensures FoldBounds(init, ps).Contains(Affine(ps[k].pose, p))
  {
    var r := FoldBounds(init, ps);
    FoldBoundsIsLeast(init, ps, r);
    assert ps[k] in ps;
    assert Admits(r, ps[k]);
    CornerImagesBoundImage(FoldBounds(init, ps), ps[k].pose, ps[k].bounds, p);
  }

  /** The three boxes SetupLight builds. */
  datatype LightBoxes = LightBoxes(casters: Box, receivers: Box, both: Box)

  /** bboxcasters, bboxreceivers and bbox_both: both is a cleared box with the
      caster box and then the receiver box inserted. */
  function FitBoxes(casters: seq<Placed>, receivers: seq<Placed>): (fit: LightBoxes)
    ensures fit.both.Encloses(fit.casters) && fit.both.Encloses(fit.receivers)
    ensures fit.casters == FoldBounds(Cleared(), casters)
    ensures fit.receivers == FoldBounds(Cleared(), receivers)
  {
    var bc := FoldBounds(Cleared(), casters);
    var br := FoldBounds(Cleared(), receivers);
    LightBoxes(bc, br, Cleared().InsertBox(bc).InsertBox(br))
  }

  /** bbox_both is the union of the caster and receiver boxes whenever that
      union lies within the sentinel, and otherwise the least box holding
      both of them and a cleared box. */
  lemma BothIsUnion(casters: seq<Placed>, receivers: seq<Placed>)
    ensures var fit := FitBoxes(casters, receivers);
      WithinSentinel(fit.casters.InsertBox(fit.receivers)) ==> fit.both == fit.casters.InsertBox(fit.receivers)
  {
    var fit := FitBoxes(casters, receivers);
    InsertBoxAssociative(Cleared(), fit.casters, fit.receivers);
    InsertBoxIntoCleared(fit.casters.InsertBox(fit.receivers));
  }

  /** The clip planes of the light's projection. */
  datatype ClipPlanes = ClipPlanes(near: real, far: real)

  /** near = std::max(dist - bothrad, 0.1) and far = dist + bothrad. */
  function Clip(dist: real, bothrad: real): (planes: ClipPlanes)
    ensures planes.near >= 0.1 && planes.near >= dist - bothrad
    ensures planes.near == 0.1 || planes.near == dist - bothrad
    ensures planes.far - dist == bothrad
    ensures bothrad >= 0.0 && dist + bothrad >= 0.1 ==> planes.near <= planes.far
  {
    ClipPlanes(Max(dist - bothrad, 0.1), dist + bothrad)
  }

  /** The clamp can put the near plane beyond the far plane: a small scene
      closer to the light than 0.1. */
  lemma ClipCanCross()
    ensures Clip(0.02, 0.01).near > Clip(0.02, 0.01).far
  {
    var planes := Clip(0.02, 0.01);
    assert planes.near == 0.1;
  }

  /** The eye and target handed to ModelViewLookAt. */
  datatype LookAt = LookAt(eye: Vector3, target: Vector3)

  class GLShadowLight {
    /** The light position, GetPose().head<3>(). */
    var position: Vector3
    var bufferWidth: int
    var bufferHeight: int
    var shadowCasters: seq<GLObject>
    var shadowReceivers: seq<GLObject>
    /** The clip planes of the light's projection matrix and the arguments
        of its look-at view matrix, as SetupLight last set them. */
    var projection: ClipPlanes
    var view: LookAt

    /** The light at (x, y, z) with a shadow buffer of the given size; the
        defaults are the origin and a 1024 x 1024 buffer. */
    constructor (x: real := 0.0, y: real := 0.0, z: real := 0.0,
                 shadowBufferWidth: int := 1024, shadowBufferHeight: int := 1024)
      ensures position == [x, y, z]
      ensures bufferWidth == shadowBufferWidth && bufferHeight == shadowBufferHeight
      ensures shadowCasters == [] && shadowReceivers == []
    {
      position := [x, y, z];
      bufferWidth := shadowBufferWidth;
      bufferHeight := shadowBufferHeight;
      shadowCasters := [];
      shadowReceivers := [];
      projection := ClipPlanes(0.1, 0.1);
      view := LookAt([x, y, z], [x, y, z]);
    }

    method AddShadowCaster(obj: GLObject)
      modifies this`shadowCasters
      ensures shadowCasters == old(shadowCasters) + [obj]
    {
      shadowCasters := shadowCasters + [obj];
    }

    method AddShadowReceiver(obj: GLObject)
      modifies this`shadowReceivers
      ensures shadowReceivers == old(shadowReceivers) + [obj]
    {
      shadowReceivers := shadowReceivers + [obj];
    }

    method AddShadowCasterAndReceiver(obj: GLObject)
      modifies this`shadowCasters, this`shadowReceivers
      ensures shadowCasters == old(shadowCasters) + [obj]
      ensures shadowReceivers == old(shadowReceivers) + [obj]
    {
      shadowCasters := shadowCasters + [obj];
      shadowReceivers := shadowReceivers + [obj];
    }

    /** Folds Insert(pose, bounds) over objs into a fresh cleared box. */
    method ObjectBounds(objs: seq<GLObject>) returns (bbox: AxisAlignedBoundingBox)
      ensures fresh(bbox)
      ensures bbox.Value() == FoldBounds(Cleared(), old(Placements(objs)))
      ensures objs == [] ==> bbox.Value().Empty()
    {
      bbox := new AxisAlignedBoundingBox();
      ghost var ps := Placements(objs);
      var i := 0;
      while i < |objs|
        invariant 0 <= i <= |objs|
        invariant fresh(bbox)
        invariant bbox.Value() == FoldBounds(Cleared(), ps[..i])
      {
        assert ps[i] == Placed(objs[i].pose, objs[i].bounds);
        bbox.InsertTransformedBox(objs[i].pose, objs[i].bounds);
        assert ps[..i + 1][..i] == ps[..i];
        assert FoldBounds(Cleared(), ps[..i + 1])
          == FoldBounds(Cleared(), ps[..i]).InsertTransformedBox(ps[i].pose, ps[i].bounds);
        i := i + 1;
      }
      assert ps[..|objs|] == ps;
    }

    /** The boxes SetupLight would build from the current lists. */
    function Boxes(): LightBoxes
      reads this`shadowCasters, this`shadowReceivers, shadowCasters, shadowReceivers
    {
      FitBoxes(Placements(shadowCasters), Placements(shadowReceivers))
    }

    /** The bounds, look-at and clip-plane part of SetupLight; norm is the
        Euclidean norm of the vector library. */
    method SetupLight(norm: Vector3 -> real)
      modifies this`projection, this`view
      ensures view == LookAt(old(position), old(Boxes()).casters.Center())
      ensures projection
          == old(Clip(norm(Sub(Boxes().casters.Center(), position)), norm(Boxes().both.Size()) / 2.0))
    {
      ghost var fit := Boxes();
      var lpos := position;
      var bboxcasters := ObjectBounds(shadowCasters);
      ghost var casters := bboxcasters.Value();
      assert casters == fit.casters;
      var bboxreceivers := ObjectBounds(shadowReceivers);
      ghost var receivers := bboxreceivers.Value();
      assert receivers == fit.receivers;
      var bboxBoth := new AxisAlignedBoundingBox();
      bboxBoth.InsertBox(bboxcasters);
      bboxBoth.InsertBox(bboxreceivers);
      assert bboxBoth.Value() == Cleared().InsertBox(casters).InsertBox(receivers);

      var center := bboxcasters.Value().Center();
      var dist := norm(Sub(center, lpos));
      var bothrad := norm(bboxBoth.Value().Size()) / 2.0;
      assert center == fit.casters.Center();
      assert bboxBoth.Value() == fit.both;
      assert dist == norm(Sub(fit.casters.Center(), lpos));
      assert bothrad == norm(fit.both.Size()) / 2.0;

      projection := ClipPlanes(Max(dist - bothrad, 0.1), dist + bothrad);
      view := LookAt(lpos, center);
    }
  }
}
