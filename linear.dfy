/** Fixed-size vectors and matrices over exact reals: the Eigen shapes
    (Vector3d, Matrix3d, Matrix4d) that the scene-graph code computes with,
    and the element-wise minimum and maximum helpers of
    SceneGraph/AxisAlignedBoundingBox.h. */
module Linear {

  /** A 3-vector, Eigen::Vector3d. */
  type Vector3 = v: seq<real> | |v| == 3 witness [0.0, 0.0, 0.0]

  /** A 3x3 matrix stored row by row, Eigen::Matrix3d. */
  type Matrix3 = m: seq<seq<real>> | |m| == 3 && |m[0]| == 3 && |m[1]| == 3 && |m[2]| == 3
    witness [[0.0, 0.0, 0.0], [0.0, 0.0, 0.0], [0.0, 0.0, 0.0]]

  /** A 4x4 matrix stored row by row, Eigen::Matrix4d (a homogeneous transform). */
  type Matrix4 = m: seq<seq<real>> | |m| == 4 && |m[0]| == 4 && |m[1]| == 4 && |m[2]| == 4 && |m[3]| == 4
    witness [[0.0, 0.0, 0.0, 0.0], [0.0, 0.0, 0.0, 0.0], [0.0, 0.0, 0.0, 0.0], [0.0, 0.0, 0.0, 0.0]]

  /** std::min: the second argument only when it is strictly smaller. */
  function Min(a: real, b: real): real { if b < a then b else a }

  /** std::max: the second argument only when the first is strictly smaller. */
  function Max(a: real, b: real): real { if a < b then b else a }

  /** The element-wise minimum that ElementwiseMin computes: each entry is a
      lower bound of both inputs and is one of them. */
  function MinOf(m1: seq<real>, m2: seq<real>): (r: seq<real>)
    requires |m1| == |m2|
    ensures |r| == |m1|
    ensures forall i :: 0 <= i < |r| ==> r[i] <= m1[i] && r[i] <= m2[i] && (r[i] == m1[i] || r[i] == m2[i])
  {
    seq(|m1|, i requires 0 <= i < |m1| => Min(m1[i], m2[i]))
  }

  /** The element-wise maximum that ElementwiseMax computes: each entry is an
      upper bound of both inputs and is one of them. */
  function MaxOf(m1: seq<real>, m2: seq<real>): (r: seq<real>)
    requires |m1| == |m2|
    ensures |r| == |m1|
    ensures forall i :: 0 <= i < |r| ==> m1[i] <= r[i] && m2[i] <= r[i] && (r[i] == m1[i] || r[i] == m2[i])
  {
    seq(|m1|, i requires 0 <= i < |m1| => Max(m1[i], m2[i]))
  }

  /** ElementwiseMin: fills the result one row at a time with std::min of the
      two inputs (column vectors, the only shape the core instantiates). */
  method ElementwiseMin(m1: seq<real>, m2: seq<real>) returns (ret: seq<real>)
    requires |m1| == |m2|
    ensures ret == MinOf(m1, m2)
  {
    ret := [];
    var r := 0;
    while r < |m1|
      invariant 0 <= r <= |m1|
      invariant ret == MinOf(m1, m2)[..r]
    {
      ret := ret + [Min(m1[r], m2[r])];
      r := r + 1;
    }
  }

  /** ElementwiseMax: fills the result one row at a time with std::max of the
      two inputs. */
  method ElementwiseMax(m1: seq<real>, m2: seq<real>) returns (ret: seq<real>)
    requires |m1| == |m2|
    ensures ret == MaxOf(m1, m2)
  {
    ret := [];
    var r := 0;
    while r < |m1|
      invariant 0 <= r <= |m1|
      invariant ret == MaxOf(m1, m2)[..r]
    {
      ret := ret + [Max(m1[r], m2[r])];
      r := r + 1;
    }
  }

  function Add(a: Vector3, b: Vector3): Vector3
  {
    [a[0] + b[0], a[1] + b[1], a[2] + b[2]]
  }

  function Sub(a: Vector3, b: Vector3): Vector3
  {
    [a[0] - b[0], a[1] - b[1], a[2] - b[2]]
  }

  function Scale(k: real, a: Vector3): Vector3
  {
    [k * a[0], k * a[1], k * a[2]]
  }

  function MulVec(R: Matrix3, v: Vector3): Vector3
  {
    [R[0][0] * v[0] + R[0][1] * v[1] + R[0][2] * v[2],
     R[1][0] * v[0] + R[1][1] * v[1] + R[1][2] * v[2],
     R[2][0] * v[0] + R[2][1] * v[1] + R[2][2] * v[2]]
  }

  /** T.block<3,3>(0,0): the rotation part of a homogeneous transform. */
  function RotationBlock(T: Matrix4): Matrix3
  {
    [[T[0][0], T[0][1], T[0][2]], [T[1][0], T[1][1], T[1][2]], [T[2][0], T[2][1], T[2][2]]]
  }

  /** Matrices with the same entries are equal. */
  lemma Matrix3Equal(A: Matrix3, B: Matrix3)
    requires A[0][0] == B[0][0] && A[0][1] == B[0][1] && A[0][2] == B[0][2]
    requires A[1][0] == B[1][0] && A[1][1] == B[1][1] && A[1][2] == B[1][2]
    requires A[2][0] == B[2][0] && A[2][1] == B[2][1] && A[2][2] == B[2][2]
    ensures A == B
  {
    assert A[0] == B[0];
    assert A[1] == B[1];
    assert A[2] == B[2];
  }

  /** T.block<3,1>(0,3): the translation column of a homogeneous transform. */
  function TranslationColumn(T: Matrix4): Vector3
  {
    [T[0][3], T[1][3], T[2][3]]
  }

  /** The point R * p + t, with R and t taken from the upper 3x4 of T: its
      coordinate i is row i of T applied to the homogeneous point (p, 1), and
      the bottom row of T is never read. */
  function Affine(T: Matrix4, p: Vector3): (r: Vector3)
    ensures r[0] == RowImage(T[0], p) && r[1] == RowImage(T[1], p) && r[2] == RowImage(T[2], p)
  {
    Add(MulVec(RotationBlock(T), p), TranslationColumn(T))
  }

  /** A row of a homogeneous transform applied to a point. */
  function RowImage(row: seq<real>, p: Vector3): real
    requires |row| == 4
  {
    row[0] * p[0] + row[1] * p[1] + row[2] * p[2] + row[3]
  }

  /** Termwise domination of the products of row i carries over to
      coordinate i of the affine image. */
  lemma AffineCoordinateLe(T: Matrix4, a: Vector3, b: Vector3, i: int)
    requires 0 <= i < 3
    requires T[i][0] * a[0] <= T[i][0] * b[0]
    requires T[i][1] * a[1] <= T[i][1] * b[1]
    requires T[i][2] * a[2] <= T[i][2] * b[2]
    ensures Affine(T, a)[i] <= Affine(T, b)[i]
  {
    RowImageLe(T[i], a, b);
  }

  lemma RowImageLe(row: seq<real>, a: Vector3, b: Vector3)
    requires |row| == 4
    requires row[0] * a[0] <= row[0] * b[0]
    requires row[1] * a[1] <= row[1] * b[1]
    requires row[2] * a[2] <= row[2] * b[2]
    ensures RowImage(row, a) <= RowImage(row, b)
  {
  }

  /** Of the two ends of an interval, the one a real maps lowest (highest)
      when multiplied by it bounds the product with every point below (above). */
  lemma ProductBetweenPicked(a: real, lo: real, x: real, hi: real)
    requires lo <= x <= hi
    ensures a * (if a < 0.0 then hi else lo) <= a * x
    ensures a * x <= a * (if a >= 0.0 then hi else lo)
  {
    ProductBetween(a, lo, x, hi);
  }

  /** Products of a real with the two ends of an interval bound the product
      with every point of the interval. */
  lemma ProductBetween(a: real, lo: real, x: real, hi: real)
    requires lo <= x <= hi
    ensures a >= 0.0 ==> a * lo <= a * x <= a * hi
    ensures a < 0.0 ==> a * hi <= a * x <= a * lo
  {
    if a >= 0.0 {
      assert a * (x - lo) >= 0.0;
      assert a * (hi - x) >= 0.0;
    } else {
      assert a * (x - lo) <= 0.0;
      assert a * (hi - x) <= 0.0;
    }
  }
}
