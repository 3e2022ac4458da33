/** The roll/pitch/yaw matrix builders of SimpleGui/GLWindow.h: GLCart2R
    fills a rotation matrix and GLCart2T a homogeneous transform from a
    position and three angles.  The angles enter only through their cosines
    and sines, which are kept symbolic. */
module EulerAngles {
  import opened Linear

  /** An angle given by its cosine and sine. */
  datatype Angle = Angle(cos: real, sin: real)

  /** The cosine and sine of one real angle satisfy cos^2 + sin^2 = 1. */
  predicate OnUnitCircle(a: Angle)
  {
    a.cos * a.cos + a.sin * a.sin == 1.0
  }

  /** The angle zero. */
  const Zero: Angle := Angle(1.0, 0.0)

  /** A quarter turn. */
  const Quarter: Angle := Angle(0.0, 1.0)

  const Identity3: Matrix3 := [[1.0, 0.0, 0.0], [0.0, 1.0, 0.0], [0.0, 0.0, 1.0]]

  /** Rotation by a about the X axis (roll). */
  function RotX(a: Angle): Matrix3
  {
    [[1.0, 0.0, 0.0], [0.0, a.cos, -a.sin], [0.0, a.sin, a.cos]]
  }

  /** Rotation by a about the Y axis (pitch). */
  function RotY(a: Angle): Matrix3
  {
    [[a.cos, 0.0, a.sin], [0.0, 1.0, 0.0], [-a.sin, 0.0, a.cos]]
  }

  /** Rotation by a about the Z axis (yaw). */
  function RotZ(a: Angle): Matrix3
  {
    [[a.cos, -a.sin, 0.0], [a.sin, a.cos, 0.0], [0.0, 0.0, 1.0]]
  }

  /** Entry (i, j) of the product A * B. */
  function Dot3(A: Matrix3, B: Matrix3, i: int, j: int): real
    requires 0 <= i < 3 && 0 <= j < 3
  {
    A[i][0] * B[0][j] + A[i][1] * B[1][j] + A[i][2] * B[2][j]
  }

  /** The matrix product A * B. */
  function Mul3(A: Matrix3, B: Matrix3): Matrix3
  {
    [[Dot3(A, B, 0, 0), Dot3(A, B, 0, 1), Dot3(A, B, 0, 2)],
     [Dot3(A, B, 1, 0), Dot3(A, B, 1, 1), Dot3(A, B, 1, 2)],
     [Dot3(A, B, 2, 0), Dot3(A, B, 2, 1), Dot3(A, B, 2, 2)]]
  }

  function Transpose3(A: Matrix3): Matrix3
  {
    [[A[0][0], A[1][0], A[2][0]], [A[0][1], A[1][1], A[2][1]], [A[0][2], A[1][2], A[2][2]]]
  }

  /** GLCart2R: the rotation matrix of roll r, pitch p and yaw q. */
  function GLCart2R(r: Angle, p: Angle, q: Angle): Matrix3
  {
    var cr, cp, cq := r.cos, p.cos, q.cos;
    var sr, sp, sq := r.sin, p.sin, q.sin;
    [[cp * cq, -cr * sq + sr * sp * cq, sr * sq + cr * sp * cq],
     [cp * sq, cr * cq + sr * sp * sq, -sr * cq + cr * sp * sq],
     [-sp, sr * cp, cr * cp]]
  }

  /** GLCart2T: the homogeneous transform of position (x, y, z) and roll r,
      pitch p and yaw q.  Its rotation block is GLCart2R(r, p, q), its
      translation column is the position and its bottom row is (0, 0, 0, 1). */
  function GLCart2T(x: real, y: real, z: real, r: Angle, p: Angle, q: Angle): (T: Matrix4)
    ensures RotationBlock(T) == GLCart2R(r, p, q)
    ensures TranslationColumn(T) == [x, y, z]
    ensures T[3] == [0.0, 0.0, 0.0, 1.0]
  {
    var cr, cp, cq := r.cos, p.cos, q.cos;
    var sr, sp, sq := r.sin, p.sin, q.sin;
    var T: Matrix4 :=
      [[cp * cq, -cr * sq + sr * sp * cq, sr * sq + cr * sp * cq, x],
       [cp * sq, cr * cq + sr * sp * sq, -sr * cq + cr * sp * sq, y],
       [-sp, sr * cp, cr * cp, z],
       [0.0, 0.0, 0.0, 1.0]];
    Matrix3Equal(RotationBlock(T), GLCart2R(r, p, q));
    T
  }

  /** The transform maps a point v to R * v + (x, y, z). */
  lemma GLCart2TMapsPoint(x: real, y: real, z: real, r: Angle, p: Angle, q: Angle, v: Vector3)
    ensures Affine(GLCart2T(x, y, z, r, p, q), v) == Add(MulVec(GLCart2R(r, p, q), v), [x, y, z])
  {
  }

  /** GLCart2R is the product Rz(yaw) * Ry(pitch) * Rx(roll). */
  lemma GLCart2RComposition(r: Angle, p: Angle, q: Angle)
    ensures GLCart2R(r, p, q) == Mul3(Mul3(RotZ(q), RotY(p)), RotX(r))
  {
    var cr, cp, cq := r.cos, p.cos, q.cos;
    var sr, sp, sq := r.sin, p.sin, q.sin;
    var ZY := Mul3(RotZ(q), RotY(p));
    Matrix3Equal(ZY, [[cq * cp, -sq, cq * sp], [sq * cp, cq, sq * sp], [-sp, 0.0, cp]]);
    Matrix3Equal(GLCart2R(r, p, q), Mul3(ZY, RotX(r)));
  }

  /** The order of the factors matters: a quarter turn of roll and of pitch
      gives a different matrix when roll is applied last. */
  lemma CompositionOrderMatters()
    ensures GLCart2R(Quarter, Quarter, Zero) != Mul3(Mul3(RotX(Quarter), RotY(Quarter)), RotZ(Zero))
  {
  }

  /** With all angles zero GLCart2R is the identity and GLCart2T a pure
      translation. */
  lemma ZeroAnglesTranslateOnly(x: real, y: real, z: real)
    ensures GLCart2R(Zero, Zero, Zero) == Identity3
    ensures GLCart2T(x, y, z, Zero, Zero, Zero)
      == [[1.0, 0.0, 0.0, x], [0.0, 1.0, 0.0, y], [0.0, 0.0, 1.0, z], [0.0, 0.0, 0.0, 1.0]]
  {
  }

  /** The bottom row of R does not depend on yaw. */
  lemma BottomRowIgnoresYaw(r: Angle, p: Angle, q: Angle, q': Angle)
    ensures GLCart2R(r, p, q)[2] == GLCart2R(r, p, q')[2]
  {
  }

  /** The first column of R does not depend on roll. */
  lemma FirstColumnIgnoresRoll(r: Angle, r': Angle, p: Angle, q: Angle)
    ensures var R, R' := GLCart2R(r, p, q), GLCart2R(r', p, q);
      R[0][0] == R'[0][0] && R[1][0] == R'[1][0] && R[2][0] == R'[2][0]
  {
  }

  /** For true cosines and sines R is orthogonal: its transpose is its
      inverse, so it preserves lengths and angles. */
  lemma GLCart2ROrthogonal(r: Angle, p: Angle, q: Angle)
    requires OnUnitCircle(r) && OnUnitCircle(p) && OnUnitCircle(q)
    ensures Mul3(Transpose3(GLCart2R(r, p, q)), GLCart2R(r, p, q)) == Identity3
  {
    var R := GLCart2R(r, p, q);
    var G := Mul3(Transpose3(R), R);
    ColumnProducts(r, p, q);
    assert G[0][0] == ColumnDot(R, 0, 0) && G[0][1] == ColumnDot(R, 0, 1) && G[0][2] == ColumnDot(R, 0, 2);
    assert G[1][0] == ColumnDot(R, 1, 0) && G[1][1] == ColumnDot(R, 1, 1) && G[1][2] == ColumnDot(R, 1, 2);
    assert G[2][0] == ColumnDot(R, 2, 0) && G[2][1] == ColumnDot(R, 2, 1) && G[2][2] == ColumnDot(R, 2, 2);
    Matrix3Equal(G, Identity3);
  }

  /** The product of columns i and j of R. */
  function ColumnDot(R: Matrix3, i: int, j: int): real
    requires 0 <= i < 3 && 0 <= j < 3
  {
    R[0][i] * R[0][j] + R[1][i] * R[1][j] + R[2][i] * R[2][j]
  }

  /** The columns of R are unit vectors and pairwise orthogonal. */
  lemma ColumnProducts(r: Angle, p: Angle, q: Angle)
    requires OnUnitCircle(r) && OnUnitCircle(p) && OnUnitCircle(q)
    ensures var R := GLCart2R(r, p, q);
      ColumnDot(R, 0, 0) == 1.0 && ColumnDot(R, 1, 1) == 1.0 && ColumnDot(R, 2, 2) == 1.0
    ensures var R := GLCart2R(r, p, q);
      ColumnDot(R, 0, 1) == 0.0 && ColumnDot(R, 0, 2) == 0.0 && ColumnDot(R, 1, 2) == 0.0
    ensures var R := GLCart2R(r, p, q);
      ColumnDot(R, 1, 0) == 0.0 && ColumnDot(R, 2, 0) == 0.0 && ColumnDot(R, 2, 1) == 0.0
  {
    var R := GLCart2R(r, p, q);
    FirstColumnUnit(r, p, q);
    SecondColumnUnit(r, p, q);
    ThirdColumnUnit(r, p, q);
    FirstSecondColumnsOrthogonal(r, p, q);
    FirstThirdColumnsOrthogonal(r, p, q);
    SecondThirdColumnsOrthogonal(r, p, q);
    ColumnDotSymmetric(R, 0, 1);
    ColumnDotSymmetric(R, 0, 2);
    ColumnDotSymmetric(R, 1, 2);
  }

  lemma ColumnDotSymmetric(R: Matrix3, i: int, j: int)
    requires 0 <= i < 3 && 0 <= j < 3
    ensures ColumnDot(R, i, j) == ColumnDot(R, j, i)
  {
  }

  /** The first column of R is a unit vector. */
  lemma FirstColumnUnit(r: Angle, p: Angle, q: Angle)
    requires OnUnitCircle(r) && OnUnitCircle(p) && OnUnitCircle(q)
    ensures ColumnDot(GLCart2R(r, p, q), 0, 0) == 1.0
  {
    var R := GLCart2R(r, p, q);
    FirstColumnUnitIdentity(R[0][0], R[1][0], R[2][0], r.cos, r.sin, p.cos, p.sin, q.cos, q.sin);
  }

  /** The second column of R is a unit vector. */
  lemma SecondColumnUnit(r: Angle, p: Angle, q: Angle)
    requires OnUnitCircle(r) && OnUnitCircle(p) && OnUnitCircle(q)
    ensures ColumnDot(GLCart2R(r, p, q), 1, 1) == 1.0
  {
    var R := GLCart2R(r, p, q);
    SecondColumnUnitIdentity(R[0][1], R[1][1], R[2][1], r.cos, r.sin, p.cos, p.sin, q.cos, q.sin);
  }

  /** The third column of R is a unit vector. */
  lemma ThirdColumnUnit(r: Angle, p: Angle, q: Angle)
    requires OnUnitCircle(r) && OnUnitCircle(p) && OnUnitCircle(q)
    ensures ColumnDot(GLCart2R(r, p, q), 2, 2) == 1.0
  {
    var R := GLCart2R(r, p, q);
    ThirdColumnUnitIdentity(R[0][2], R[1][2], R[2][2], r.cos, r.sin, p.cos, p.sin, q.cos, q.sin);
  }

  /** The first and second columns of R are orthogonal. */
  lemma FirstSecondColumnsOrthogonal(r: Angle, p: Angle, q: Angle)
    requires OnUnitCircle(r) && OnUnitCircle(p) && OnUnitCircle(q)
    ensures ColumnDot(GLCart2R(r, p, q), 0, 1) == 0.0
  {
    var R := GLCart2R(r, p, q);
    FirstSecondColumnsOrthogonalIdentity(R[0][0], R[1][0], R[2][0], R[0][1], R[1][1], R[2][1],
                                         r.cos, r.sin, p.cos, p.sin, q.cos, q.sin);
  }

  /** The first and third columns of R are orthogonal. */
  lemma FirstThirdColumnsOrthogonal(r: Angle, p: Angle, q: Angle)
    requires OnUnitCircle(r) && OnUnitCircle(p) && OnUnitCircle(q)
    ensures ColumnDot(GLCart2R(r, p, q), 0, 2) == 0.0
  {
    var R := GLCart2R(r, p, q);
    FirstThirdColumnsOrthogonalIdentity(R[0][0], R[1][0], R[2][0], R[0][2], R[1][2], R[2][2],
                                        r.cos, r.sin, p.cos, p.sin, q.cos, q.sin);
  }

  /** The second and third columns of R are orthogonal. */
  lemma SecondThirdColumnsOrthogonal(r: Angle, p: Angle, q: Angle)
    requires OnUnitCircle(r) && OnUnitCircle(p) && OnUnitCircle(q)
    ensures ColumnDot(GLCart2R(r, p, q), 1, 2) == 0.0
  {
    var R := GLCart2R(r, p, q);
    SecondThirdColumnsOrthogonalIdentity(R[0][1], R[1][1], R[2][1], R[0][2], R[1][2], R[2][2],
                                         r.cos, r.sin, p.cos, p.sin, q.cos, q.sin);
  }

  // The column identities over plain reals: the entries a, b, c (and d, e, f)
  // of one column (and another) are given by the cosines and sines.

  /** The entries of the first column square-sum to one. */
  lemma FirstColumnUnitIdentity(a: real, b: real, c: real,
                                cr: real, sr: real, cp: real, sp: real, cq: real, sq: real)
    requires cr * cr + sr * sr == 1.0 && cp * cp + sp * sp == 1.0 && cq * cq + sq * sq == 1.0
    requires a == cp * cq && b == cp * sq && c == -sp
    ensures a * a + b * b + c * c == 1.0
  {
    calc {
      a * a + b * b + c * c;
      (cp * cq) * (cp * cq) + (cp * sq) * (cp * sq) + (-sp) * (-sp);
      (cp * cp) * (cq * cq + sq * sq) + sp * sp;
      1.0;
    }
  }

  /** The entries of the second column square-sum to one. */
  lemma SecondColumnUnitIdentity(a: real, b: real, c: real,
                                 cr: real, sr: real, cp: real, sp: real, cq: real, sq: real)
    requires cr * cr + sr * sr == 1.0 && cp * cp + sp * sp == 1.0 && cq * cq + sq * sq == 1.0
    requires a == -cr * sq + sr * sp * cq && b == cr * cq + sr * sp * sq && c == sr * cp
    ensures a * a + b * b + c * c == 1.0
  {
    calc {
      a * a + b * b + c * c;
      (-cr * sq + sr * sp * cq) * (-cr * sq + sr * sp * cq)
        + (cr * cq + sr * sp * sq) * (cr * cq + sr * sp * sq)
        + (sr * cp) * (sr * cp);
      (cr * cr) * (cq * cq + sq * sq) + (sr * sr) * ((sp * sp) * (cq * cq + sq * sq) + cp * cp);
      cr * cr + sr * sr;
      1.0;
    }
  }

  /** The entries of the third column square-sum to one. */
  lemma ThirdColumnUnitIdentity(a: real, b: real, c: real,
                                cr: real, sr: real, cp: real, sp: real, cq: real, sq: real)
    requires cr * cr + sr * sr == 1.0 && cp * cp + sp * sp == 1.0 && cq * cq + sq * sq == 1.0
    requires a == sr * sq + cr * sp * cq && b == -sr * cq + cr * sp * sq && c == cr * cp
    ensures a * a + b * b + c * c == 1.0
  {
    calc {
      a * a + b * b + c * c;
      (sr * sq + cr * sp * cq) * (sr * sq + cr * sp * cq)
        + (-sr * cq + cr * sp * sq) * (-sr * cq + cr * sp * sq)
        + (cr * cp) * (cr * cp);
      (sr * sr) * (cq * cq + sq * sq) + (cr * cr) * ((sp * sp) * (cq * cq + sq * sq) + cp * cp);
      sr * sr + cr * cr;
      1.0;
    }
  }

  /** The first and second columns have a zero inner product. */
  lemma FirstSecondColumnsOrthogonalIdentity(a: real, b: real, c: real, d: real, e: real, f: real,
                                             cr: real, sr: real, cp: real, sp: real, cq: real, sq: real)
    requires cr * cr + sr * sr == 1.0 && cp * cp + sp * sp == 1.0 && cq * cq + sq * sq == 1.0
    requires a == cp * cq && b == cp * sq && c == -sp
    requires d == -cr * sq + sr * sp * cq && e == cr * cq + sr * sp * sq && f == sr * cp
    ensures a * d + b * e + c * f == 0.0
  {
    calc {
      a * d + b * e + c * f;
      (cp * cq) * (-cr * sq + sr * sp * cq)
        + (cp * sq) * (cr * cq + sr * sp * sq)
        + (-sp) * (sr * cp);
      (cp * sr * sp) * (cq * cq + sq * sq) - sp * sr * cp;
      0.0;
    }
  }

  /** The first and third columns have a zero inner product. */
  lemma FirstThirdColumnsOrthogonalIdentity(a: real, b: real, c: real, d: real, e: real, f: real,
                                            cr: real, sr: real, cp: real, sp: real, cq: real, sq: real)
    requires cr * cr + sr * sr == 1.0 && cp * cp + sp * sp == 1.0 && cq * cq + sq * sq == 1.0
    requires a == cp * cq && b == cp * sq && c == -sp
    requires d == sr * sq + cr * sp * cq && e == -sr * cq + cr * sp * sq && f == cr * cp
    ensures a * d + b * e + c * f == 0.0
  {
    calc {
      a * d + b * e + c * f;
      (cp * cq) * (sr * sq + cr * sp * cq)
        + (cp * sq) * (-sr * cq + cr * sp * sq)
        + (-sp) * (cr * cp);
      (cp * cr * sp) * (cq * cq + sq * sq) - sp * cr * cp;
      0.0;
    }
  }

  /** The second and third columns have a zero inner product. */
  lemma SecondThirdColumnsOrthogonalIdentity(a: real, b: real, c: real, d: real, e: real, f: real,
                                             cr: real, sr: real, cp: real, sp: real, cq: real, sq: real)
    requires cr * cr + sr * sr == 1.0 && cp * cp + sp * sp == 1.0 && cq * cq + sq * sq == 1.0
    requires a == -cr * sq + sr * sp * cq && b == cr * cq + sr * sp * sq && c == sr * cp
    requires d == sr * sq + cr * sp * cq && e == -sr * cq + cr * sp * sq && f == cr * cp
    ensures a * d + b * e + c * f == 0.0
  {
    calc {
      a * d + b * e + c * f;
      (-cr * sq + sr * sp * cq) * (sr * sq + cr * sp * cq)
        + (cr * cq + sr * sp * sq) * (-sr * cq + cr * sp * sq)
        + (sr * cp) * (cr * cp);
      (sr * cr) * ((sp * sp) * (cq * cq + sq * sq) + cp * cp - (cq * cq + sq * sq));
      (sr * cr) * (sp * sp + cp * cp - 1.0);
      0.0;
    }
  }
}
