/** Fixed-size vectors and matrices over the reals: 3-vectors, 3x3 matrices
    with their product, transpose and determinant, and 4x4 matrices for
    homogeneous transforms. Entries are addressed (row, column) from 0. */
module Matrix {

  datatype Vec3 = Vec3(x: real, y: real, z: real)

  /** Component i of a 3-vector. */
  function Component(v: Vec3, i: int): real
    requires 0 <= i < 3
  {
    if i == 0 then v.x else if i == 1 then v.y else v.z
  }

  /** A 3x3 matrix, row by row. */
  datatype Mat3 = Mat3(
    a00: real, a01: real, a02: real,
    a10: real, a11: real, a12: real,
    a20: real, a21: real, a22: real)

  function Get(m: Mat3, i: int, j: int): real
    requires 0 <= i < 3 && 0 <= j < 3
  {
    if i == 0 then (if j == 0 then m.a00 else if j == 1 then m.a01 else m.a02)
    else if i == 1 then (if j == 0 then m.a10 else if j == 1 then m.a11 else m.a12)
    else (if j == 0 then m.a20 else if j == 1 then m.a21 else m.a22)
  }

  const Identity: Mat3 := Mat3(1.0, 0.0, 0.0, 0.0, 1.0, 0.0, 0.0, 0.0, 1.0)

  /** The matrix product A B. */
  function Mul(a: Mat3, b: Mat3): Mat3
  {
    Mat3(
      a.a00 * b.a00 + a.a01 * b.a10 + a.a02 * b.a20,
      a.a00 * b.a01 + a.a01 * b.a11 + a.a02 * b.a21,
      a.a00 * b.a02 + a.a01 * b.a12 + a.a02 * b.a22,
      a.a10 * b.a00 + a.a11 * b.a10 + a.a12 * b.a20,
      a.a10 * b.a01 + a.a11 * b.a11 + a.a12 * b.a21,
      a.a10 * b.a02 + a.a11 * b.a12 + a.a12 * b.a22,
      a.a20 * b.a00 + a.a21 * b.a10 + a.a22 * b.a20,
      a.a20 * b.a01 + a.a21 * b.a11 + a.a22 * b.a21,
      a.a20 * b.a02 + a.a21 * b.a12 + a.a22 * b.a22)
  }

  function Transpose(a: Mat3): (t: Mat3)
    ensures forall i, j :: 0 <= i < 3 && 0 <= j < 3 ==> Get(t, i, j) == Get(a, j, i)
  {
    Mat3(a.a00, a.a10, a.a20, a.a01, a.a11, a.a21, a.a02, a.a12, a.a22)
  }

  /** The determinant, by cofactor expansion along the first row. */
  function Det(a: Mat3): real
  {
    a.a00 * (a.a11 * a.a22 - a.a12 * a.a21)
    - a.a01 * (a.a10 * a.a22 - a.a12 * a.a20)
    + a.a02 * (a.a10 * a.a21 - a.a11 * a.a20)
  }

  /** Orthonormal columns: the transpose is a left inverse. */
  predicate Orthogonal(a: Mat3)
  {
    Mul(Transpose(a), a) == Identity
  }

  /** A proper rotation: orthonormal, with determinant +1. */
  predicate IsRotation(a: Mat3)
  {
    Orthogonal(a) && Det(a) == 1.0
  }

  lemma MulIdentity(a: Mat3)
    ensures Mul(Identity, a) == a && Mul(a, Identity) == a
  {
  }

  /** The matrix applied to a vector. */
  function Apply(m: Mat3, v: Vec3): Vec3
  {
    Vec3(m.a00 * v.x + m.a01 * v.y + m.a02 * v.z,
         m.a10 * v.x + m.a11 * v.y + m.a12 * v.z,
         m.a20 * v.x + m.a21 * v.y + m.a22 * v.z)
  }

  /** The product is composition: applying A B is applying B, then A. */
  lemma MulApplies(a: Mat3, b: Mat3, v: Vec3)
    ensures Apply(Mul(a, b), v) == Apply(a, Apply(b, v))
  {
    MulAppliesX(a, b, v);
    MulAppliesY(a, b, v);
    MulAppliesZ(a, b, v);
  }

  lemma MulAppliesX(a: Mat3, b: Mat3, v: Vec3)
    ensures Apply(Mul(a, b), v).x == Apply(a, Apply(b, v)).x
  {
    var ab, bv := Mul(a, b), Apply(b, v);
    EntryAssoc(a.a00, a.a01, a.a02, b, v.x, v.y, v.z,
               ab.a00, ab.a01, ab.a02, bv.x, bv.y, bv.z);
  }

  lemma MulAppliesY(a: Mat3, b: Mat3, v: Vec3)
    ensures Apply(Mul(a, b), v).y == Apply(a, Apply(b, v)).y
  {
    var ab, bv := Mul(a, b), Apply(b, v);
    EntryAssoc(a.a10, a.a11, a.a12, b, v.x, v.y, v.z,
               ab.a10, ab.a11, ab.a12, bv.x, bv.y, bv.z);
  }

  lemma MulAppliesZ(a: Mat3, b: Mat3, v: Vec3)
    ensures Apply(Mul(a, b), v).z == Apply(a, Apply(b, v)).z
  {
    var ab, bv := Mul(a, b), Apply(b, v);
    EntryAssoc(a.a20, a.a21, a.a22, b, v.x, v.y, v.z,
               ab.a20, ab.a21, ab.a22, bv.x, bv.y, bv.z);
  }

  /** The product is associative. */
  lemma MulAssoc(a: Mat3, b: Mat3, c: Mat3)
    ensures Mul(Mul(a, b), c) == Mul(a, Mul(b, c))
  {
    MulAssoc00(a, b, c);
    MulAssoc01(a, b, c);
    MulAssoc02(a, b, c);
    MulAssoc10(a, b, c);
    MulAssoc11(a, b, c);
    MulAssoc12(a, b, c);
    MulAssoc20(a, b, c);
    MulAssoc21(a, b, c);
    MulAssoc22(a, b, c);
  }

  lemma MulAssoc00(a: Mat3, b: Mat3, c: Mat3)
    ensures Mul(Mul(a, b), c).a00 == Mul(a, Mul(b, c)).a00
  {
    var ab, bc := Mul(a, b), Mul(b, c);
    EntryAssoc(a.a00, a.a01, a.a02, b, c.a00, c.a10, c.a20,
               ab.a00, ab.a01, ab.a02, bc.a00, bc.a10, bc.a20);
  }

  lemma MulAssoc01(a: Mat3, b: Mat3, c: Mat3)
    ensures Mul(Mul(a, b), c).a01 == Mul(a, Mul(b, c)).a01
  {
    var ab, bc := Mul(a, b), Mul(b, c);
    EntryAssoc(a.a00, a.a01, a.a02, b, c.a01, c.a11, c.a21,
               ab.a00, ab.a01, ab.a02, bc.a01, bc.a11, bc.a21);
  }

  lemma MulAssoc02(a: Mat3, b: Mat3, c: Mat3)
    ensures Mul(Mul(a, b), c).a02 == Mul(a, Mul(b, c)).a02
  {
    var ab, bc := Mul(a, b), Mul(b, c);
    EntryAssoc(a.a00, a.a01, a.a02, b, c.a02, c.a12, c.a22,
               ab.a00, ab.a01, ab.a02, bc.a02, bc.a12, bc.a22);
  }

  lemma MulAssoc10(a: Mat3, b: Mat3, c: Mat3)
    ensures Mul(Mul(a, b), c).a10 == Mul(a, Mul(b, c)).a10
  {
    var ab, bc := Mul(a, b), Mul(b, c);
    EntryAssoc(a.a10, a.a11, a.a12, b, c.a00, c.a10, c.a20,
               ab.a10, ab.a11, ab.a12, bc.a00, bc.a10, bc.a20);
  }

  lemma MulAssoc11(a: Mat3, b: Mat3, c: Mat3)
    ensures Mul(Mul(a, b), c).a11 == Mul(a, Mul(b, c)).a11
  {
    var ab, bc := Mul(a, b), Mul(b, c);
    EntryAssoc(a.a10, a.a11, a.a12, b, c.a01, c.a11, c.a21,
               ab.a10, ab.a11, ab.a12, bc.a01, bc.a11, bc.a21);
  }

  lemma MulAssoc12(a: Mat3, b: Mat3, c: Mat3)
    ensures Mul(Mul(a, b), c).a12 == Mul(a, Mul(b, c)).a12
  {
    var ab, bc := Mul(a, b), Mul(b, c);
    EntryAssoc(a.a10, a.a11, a.a12, b, c.a02, c.a12, c.a22,
               ab.a10, ab.a11, ab.a12, bc.a02, bc.a12, bc.a22);
  }

  lemma MulAssoc20(a: Mat3, b: Mat3, c: Mat3)
    ensures Mul(Mul(a, b), c).a20 == Mul(a, Mul(b, c)).a20
  {
    var ab, bc := Mul(a, b), Mul(b, c);
    EntryAssoc(a.a20, a.a21, a.a22, b, c.a00, c.a10, c.a20,
               ab.a20, ab.a21, ab.a22, bc.a00, bc.a10, bc.a20);
  }

  lemma MulAssoc21(a: Mat3, b: Mat3, c: Mat3)
    ensures Mul(Mul(a, b), c).a21 == Mul(a, Mul(b, c)).a21
  {
    var ab, bc := Mul(a, b), Mul(b, c);
    EntryAssoc(a.a20, a.a21, a.a22, b, c.a01, c.a11, c.a21,
               ab.a20, ab.a21, ab.a22, bc.a01, bc.a11, bc.a21);
  }

  lemma MulAssoc22(a: Mat3, b: Mat3, c: Mat3)
    ensures Mul(Mul(a, b), c).a22 == Mul(a, Mul(b, c)).a22
  {
    var ab, bc := Mul(a, b), Mul(b, c);
    EntryAssoc(a.a20, a.a21, a.a22, b, c.a02, c.a12, c.a22,
               ab.a20, ab.a21, ab.a22, bc.a02, bc.a12, bc.a22);
  }

  /** One entry of a triple product: (row p times B) times column q equals
      row p times (B times column q), where u is row p times B and v is B
      times column q. */
  lemma EntryAssoc(p0: real, p1: real, p2: real, b: Mat3, q0: real, q1: real, q2: real,
                   u0: real, u1: real, u2: real, v0: real, v1: real, v2: real)
    requires u0 == p0 * b.a00 + p1 * b.a10 + p2 * b.a20
    requires u1 == p0 * b.a01 + p1 * b.a11 + p2 * b.a21
    requires u2 == p0 * b.a02 + p1 * b.a12 + p2 * b.a22
    requires v0 == b.a00 * q0 + b.a01 * q1 + b.a02 * q2
    requires v1 == b.a10 * q0 + b.a11 * q1 + b.a12 * q2
    requires v2 == b.a20 * q0 + b.a21 * q1 + b.a22 * q2
    ensures u0 * q0 + u1 * q1 + u2 * q2 == p0 * v0 + p1 * v1 + p2 * v2
  {
  }

  lemma TransposeMul(a: Mat3, b: Mat3)
    ensures Transpose(Mul(a, b)) == Mul(Transpose(b), Transpose(a))
  {
    TransposeMulRow0(a, b);
    TransposeMulRow1(a, b);
    TransposeMulRow2(a, b);
  }

  lemma TransposeMulRow0(a: Mat3, b: Mat3)
    ensures var l, r := Transpose(Mul(a, b)), Mul(Transpose(b), Transpose(a));
      l.a00 == r.a00 && l.a01 == r.a01 && l.a02 == r.a02
  {
  }

  lemma TransposeMulRow1(a: Mat3, b: Mat3)
    ensures var l, r := Transpose(Mul(a, b)), Mul(Transpose(b), Transpose(a));
      l.a10 == r.a10 && l.a11 == r.a11 && l.a12 == r.a12
  {
  }

  lemma TransposeMulRow2(a: Mat3, b: Mat3)
    ensures var l, r := Transpose(Mul(a, b)), Mul(Transpose(b), Transpose(a));
      l.a20 == r.a20 && l.a21 == r.a21 && l.a22 == r.a22
  {
  }

  /** The product of two matrices with orthonormal columns has orthonormal
      columns. */
  lemma {:induction false} OrthogonalCompose(a: Mat3, b: Mat3)
    requires Orthogonal(a) && Orthogonal(b)
    ensures Orthogonal(Mul(a, b))
  {
    var ab := Mul(a, b);
    TransposeMul(a, b);
    calc {
      Mul(Transpose(ab), ab);
      Mul(Mul(Transpose(b), Transpose(a)), Mul(a, b));
      { MulAssoc(Transpose(b), Transpose(a), Mul(a, b)); }
      Mul(Transpose(b), Mul(Transpose(a), Mul(a, b)));
      { MulAssoc(Transpose(a), a, b); }
      Mul(Transpose(b), Mul(Mul(Transpose(a), a), b));
      { MulIdentity(b); }
      Mul(Transpose(b), b);
      Identity;
    }
  }

  /** A row of a 4x4 matrix. */
  datatype Row4 = Row4(c0: real, c1: real, c2: real, c3: real)

  datatype Mat4 = Mat4(r0: Row4, r1: Row4, r2: Row4, r3: Row4)

  function Get4(m: Mat4, i: int, j: int): real
    requires 0 <= i < 4 && 0 <= j < 4
  {
    var row := if i == 0 then m.r0 else if i == 1 then m.r1 else if i == 2 then m.r2 else m.r3;
    if j == 0 then row.c0 else if j == 1 then row.c1 else if j == 2 then row.c2 else row.c3
  }
}
