/** The pose transform calculator: the rigid transform from the printed
    sheet's frame to the calibration-target frame, as a 4x4 homogeneous matrix
    in millimetres together with its translation in metres.

    The program takes roll, pitch and yaw in degrees and evaluates cosines
    and sines in floating point. Here each angle is given directly by its
    cosine and sine, so that every matrix entry is exact real arithmetic. */
module Pose {
  import Paper
  import opened Matrix

  /** An angle, given by its cosine and its sine. */
  datatype Angle = Angle(cos: real, sin: real)

  /** The cosine and sine of one actual angle. */
  predicate OnUnitCircle(a: Angle)
  {
    a.cos * a.cos + a.sin * a.sin == 1.0
  }

  /** The angle 0. */
  const Zero: Angle := Angle(1.0, 0.0)

  /** The angle 180 degrees. */
  const HalfTurn: Angle := Angle(-1.0, 0.0)

  /** Right-handed rotation about the X axis. */
  function Rx(a: Angle): Mat3
  {
    Mat3(1.0, 0.0, 0.0,
         0.0, a.cos, -a.sin,
         0.0, a.sin, a.cos)
  }

  /** Right-handed rotation about the Y axis. */
  function Ry(a: Angle): Mat3
  {
    Mat3(a.cos, 0.0, a.sin,
         0.0, 1.0, 0.0,
         -a.sin, 0.0, a.cos)
  }

  /** Right-handed rotation about the Z axis. */
  function Rz(a: Angle): Mat3
  {
    Mat3(a.cos, -a.sin, 0.0,
         a.sin, a.cos, 0.0,
         0.0, 0.0, 1.0)
  }

  /** The fixed convention rotation that turns the printed page over: Y and Z
      are reversed, X is kept. */
  const Flip: Mat3 := Mat3(1.0, 0.0, 0.0, 0.0, -1.0, 0.0, 0.0, 0.0, -1.0)

  /** The user's rotation, composed yaw-pitch-roll: Rz Ry Rx. */
  function UserRotation(roll: Angle, pitch: Angle, yaw: Angle): Mat3
  {
    Mul(Mul(Rz(yaw), Ry(pitch)), Rx(roll))
  }

  /** The composed user rotation is the Z-Y-X (yaw, pitch, roll) Euler matrix,
      written out entry by entry. */
  lemma UserRotationIsEulerZYX(roll: Angle, pitch: Angle, yaw: Angle)
    ensures var cr, sr, cp, sp, cy, sy := roll.cos, roll.sin, pitch.cos, pitch.sin, yaw.cos, yaw.sin;
      UserRotation(roll, pitch, yaw) ==
        Mat3(cy * cp, cy * sp * sr - sy * cr, cy * sp * cr + sy * sr,
             sy * cp, sy * sp * sr + cy * cr, sy * sp * cr - cy * sr,
             -sp,     cp * sr,                cp * cr)
  {
    EulerRow0(roll, pitch, yaw);
    EulerRow1(roll, pitch, yaw);
    EulerRow2(roll, pitch, yaw);
  }

  lemma EulerRow0(roll: Angle, pitch: Angle, yaw: Angle)
    ensures var cr, sr, cp, sp, cy, sy := roll.cos, roll.sin, pitch.cos, pitch.sin, yaw.cos, yaw.sin;
      var u := UserRotation(roll, pitch, yaw);
      u.a00 == cy * cp && u.a01 == cy * sp * sr - sy * cr && u.a02 == cy * sp * cr + sy * sr
  {
    var cr, sr, cp, sp, cy, sy := roll.cos, roll.sin, pitch.cos, pitch.sin, yaw.cos, yaw.sin;
    var zy := Mul(Rz(yaw), Ry(pitch));
    assert zy.a00 == cy * cp && zy.a01 == -sy && zy.a02 == cy * sp;
  }

  lemma EulerRow1(roll: Angle, pitch: Angle, yaw: Angle)
    ensures var cr, sr, cp, sp, cy, sy := roll.cos, roll.sin, pitch.cos, pitch.sin, yaw.cos, yaw.sin;
      var u := UserRotation(roll, pitch, yaw);
      u.a10 == sy * cp && u.a11 == sy * sp * sr + cy * cr && u.a12 == sy * sp * cr - cy * sr
  {
    var cr, sr, cp, sp, cy, sy := roll.cos, roll.sin, pitch.cos, pitch.sin, yaw.cos, yaw.sin;
    var zy := Mul(Rz(yaw), Ry(pitch));
    assert zy.a10 == sy * cp && zy.a11 == cy && zy.a12 == sy * sp;
  }

  lemma EulerRow2(roll: Angle, pitch: Angle, yaw: Angle)
    ensures var cr, sr, cp, sp, cy, sy := roll.cos, roll.sin, pitch.cos, pitch.sin, yaw.cos, yaw.sin;
      var u := UserRotation(roll, pitch, yaw);
      u.a20 == -sp && u.a21 == cp * sr && u.a22 == cp * cr
  {
    var cr, sr, cp, sp, cy, sy := roll.cos, roll.sin, pitch.cos, pitch.sin, yaw.cos, yaw.sin;
    var zy := Mul(Rz(yaw), Ry(pitch));
    assert zy.a20 == -sp && zy.a21 == 0.0 && zy.a22 == cp;
  }

  /** The sheet's rotation: the user's rotation applied after the flip. */
  function Rotation(roll: Angle, pitch: Angle, yaw: Angle): (r: Mat3)
    // the flip keeps the user rotation's first column and negates the others
    ensures var u := UserRotation(roll, pitch, yaw);
      && r.a00 == u.a00 && r.a10 == u.a10 && r.a20 == u.a20
      && r.a01 == -u.a01 && r.a11 == -u.a11 && r.a21 == -u.a21
      && r.a02 == -u.a02 && r.a12 == -u.a12 && r.a22 == -u.a22
  {
    Mul(UserRotation(roll, pitch, yaw), Flip)
  }

  /** The flip is the half turn about X, and doing it twice changes nothing. */
  lemma FlipIsHalfTurn()
    ensures Flip == Rx(HalfTurn)
    ensures Mul(Flip, Flip) == Identity
  {
  }

  /** The user rotation can be read back from the sheet's rotation by
      flipping once more. */
  lemma {:induction false} UserRotationRecovered(roll: Angle, pitch: Angle, yaw: Angle)
    ensures Mul(Rotation(roll, pitch, yaw), Flip) == UserRotation(roll, pitch, yaw)
  {
    var u := UserRotation(roll, pitch, yaw);
    MulAssoc(u, Flip, Flip);
    FlipIsHalfTurn();
    MulIdentity(u);
  }

  /** With no user rotation the sheet's rotation is the flip,
      diag(1, -1, -1). */
  lemma ZeroAnglesGiveFlip()
    ensures Rotation(Zero, Zero, Zero) == Flip
    ensures Rotation(Zero, Zero, Zero) == Mat3(1.0, 0.0, 0.0, 0.0, -1.0, 0.0, 0.0, 0.0, -1.0)
  {
    ZeroAnglesNoUserRotation();
    MulIdentity(Flip);
  }

  lemma ZeroAnglesNoUserRotation()
    ensures UserRotation(Zero, Zero, Zero) == Identity
  {
    assert Rz(Zero) == Identity && Ry(Zero) == Identity && Rx(Zero) == Identity;
    MulIdentity(Identity);
  }

  /** Each elemental matrix keeps its own axis, turns the next axis by the
      angle, and scales volume by cos^2 + sin^2. */
  lemma ElementalAxes(a: Angle)
    ensures Apply(Rx(a), Vec3(1.0, 0.0, 0.0)) == Vec3(1.0, 0.0, 0.0)
    ensures Apply(Rx(a), Vec3(0.0, 1.0, 0.0)) == Vec3(0.0, a.cos, a.sin)
    ensures Apply(Ry(a), Vec3(0.0, 1.0, 0.0)) == Vec3(0.0, 1.0, 0.0)
    ensures Apply(Ry(a), Vec3(0.0, 0.0, 1.0)) == Vec3(a.sin, 0.0, a.cos)
    ensures Apply(Rz(a), Vec3(0.0, 0.0, 1.0)) == Vec3(0.0, 0.0, 1.0)
    ensures Apply(Rz(a), Vec3(1.0, 0.0, 0.0)) == Vec3(a.cos, a.sin, 0.0)
    ensures Det(Rx(a)) == Det(Ry(a)) == Det(Rz(a)) == a.cos * a.cos + a.sin * a.sin
  {
  }

  /** Each elemental rotation of an actual angle is a rotation matrix. */
  lemma ElementalAreRotations(a: Angle)
    requires OnUnitCircle(a)
    ensures IsRotation(Rx(a)) && IsRotation(Ry(a)) && IsRotation(Rz(a))
  {
    RxIsRotation(a);
    RyIsRotation(a);
    RzIsRotation(a);
  }

  lemma RxIsRotation(a: Angle)
    requires OnUnitCircle(a)
    ensures IsRotation(Rx(a))
  {
  }

  lemma RyIsRotation(a: Angle)
    requires OnUnitCircle(a)
    ensures IsRotation(Ry(a))
  {
  }

  lemma RzIsRotation(a: Angle)
    requires OnUnitCircle(a)
    ensures IsRotation(Rz(a))
  {
  }

  /** For actual angles the sheet's rotation is a proper rotation:
      orthonormal, with determinant +1. */
  lemma RotationIsProper(roll: Angle, pitch: Angle, yaw: Angle)
    requires OnUnitCircle(roll) && OnUnitCircle(pitch) && OnUnitCircle(yaw)
    ensures IsRotation(Rotation(roll, pitch, yaw))
  {
    RotationOrthogonal(roll, pitch, yaw);
    RotationDeterminant(roll, pitch, yaw);
  }

  lemma {:induction false} RotationOrthogonal(roll: Angle, pitch: Angle, yaw: Angle)
    requires OnUnitCircle(roll) && OnUnitCircle(pitch) && OnUnitCircle(yaw)
    ensures Orthogonal(Rotation(roll, pitch, yaw))
  {
    var zy := Mul(Rz(yaw), Ry(pitch));
    var u := Mul(zy, Rx(roll));
    assert Orthogonal(zy) by {
      ElementalAreRotations(yaw);
      ElementalAreRotations(pitch);
      OrthogonalCompose(Rz(yaw), Ry(pitch));
    }
    assert Orthogonal(u) by {
      ElementalAreRotations(roll);
      OrthogonalCompose(zy, Rx(roll));
    }
    assert Orthogonal(Flip) by {
      FlipIsHalfTurn();
      ElementalAreRotations(HalfTurn);
    }
    OrthogonalCompose(u, Flip);
  }

  lemma {:induction false} RotationDeterminant(roll: Angle, pitch: Angle, yaw: Angle)
    requires OnUnitCircle(roll) && OnUnitCircle(pitch) && OnUnitCircle(yaw)
    ensures Det(Rotation(roll, pitch, yaw)) == 1.0
  {
    var zy := Mul(Rz(yaw), Ry(pitch));
    var u := Mul(zy, Rx(roll));
    assert Det(zy) == 1.0 by {
      ElementalAreRotations(yaw);
      DetTimesRy(Rz(yaw), pitch);
    }
    assert Det(u) == 1.0 by {
      DetTimesRx(zy, roll);
    }
    FlipIsHalfTurn();
    DetTimesRx(u, HalfTurn);
  }

  /** Right-multiplying by Rx turns columns 1 and 2 and scales the
      determinant by cos^2 + sin^2. */
  lemma DetTimesRx(m: Mat3, a: Angle)
    ensures Det(Mul(m, Rx(a))) == (a.cos * a.cos + a.sin * a.sin) * Det(m)
  {
    var p := Mul(m, Rx(a));
    DetTurnColumns12(m, p, a.cos, a.sin);
  }

  /** Right-multiplying by Ry turns columns 0 and 2 and scales the
      determinant by cos^2 + sin^2. */
  lemma DetTimesRy(m: Mat3, a: Angle)
    ensures Det(Mul(m, Ry(a))) == (a.cos * a.cos + a.sin * a.sin) * Det(m)
  {
    var p := Mul(m, Ry(a));
    DetTurnColumns02(m, p, a.cos, a.sin);
  }

  lemma DetTurnColumns12(m: Mat3, p: Mat3, c: real, s: real)
    requires p.a00 == m.a00 && p.a10 == m.a10 && p.a20 == m.a20
    requires p.a01 == c * m.a01 + s * m.a02 && p.a02 == -s * m.a01 + c * m.a02
    requires p.a11 == c * m.a11 + s * m.a12 && p.a12 == -s * m.a11 + c * m.a12
    requires p.a21 == c * m.a21 + s * m.a22 && p.a22 == -s * m.a21 + c * m.a22
    ensures Det(p) == (c * c + s * s) * Det(m)
  {
  }

  lemma DetTurnColumns02(m: Mat3, p: Mat3, c: real, s: real)
    requires p.a01 == m.a01 && p.a11 == m.a11 && p.a21 == m.a21
    requires p.a00 == c * m.a00 - s * m.a02 && p.a02 == s * m.a00 + c * m.a02
    requires p.a10 == c * m.a10 - s * m.a12 && p.a12 == s * m.a10 + c * m.a12
    requires p.a20 == c * m.a20 - s * m.a22 && p.a22 == s * m.a20 + c * m.a22
    ensures Det(p) == (c * c + s * s) * Det(m)
  {
  }

  /** A pose request: the page, the user's offset in millimetres and the
      user's roll, pitch and yaw. */
  datatype PoseRequest = PoseRequest(
    paperSize: string,
    orientation: string,
    offset: Vec3,
    roll: Angle,
    pitch: Angle,
    yaw: Angle)

  /** The values the program uses when the request leaves a field out: A4
      portrait, no offset, no rotation. */
  const DefaultRequest: PoseRequest := PoseRequest("A4", "portrait", Vec3(0.0, 0.0, 0.0), Zero, Zero, Zero)

  /** The translation of the sheet's frame: half the page width along -X and
      half its height along +Y, displaced by the negated user offset. */
  function Translation(page: Paper.Dims, offset: Vec3): (t: Vec3)
    // translation and offset always add up to the same page-fixed point
    ensures t.x + offset.x == -page.width / 2.0
    ensures t.y + offset.y == page.height / 2.0
    ensures t.z + offset.z == 0.0
  {
    Vec3(-page.width / 2.0 - offset.x, page.height / 2.0 - offset.y, -offset.z)
  }

  /** The offset can be read back from the translation: the map from offset
      to translation is its own inverse. */
  lemma TranslationIsInvolution(page: Paper.Dims, offset: Vec3)
    ensures Translation(page, Translation(page, offset)) == offset
  {
  }

  /** The 3x3 block at the top left of a 4x4 matrix. */
  function RotationBlock(m: Mat4): Mat3
  {
    Mat3(m.r0.c0, m.r0.c1, m.r0.c2,
         m.r1.c0, m.r1.c1, m.r1.c2,
         m.r2.c0, m.r2.c1, m.r2.c2)
  }

  /** The first three entries of the last column of a 4x4 matrix. */
  function TranslationColumn(m: Mat4): Vec3
  {
    Vec3(m.r0.c3, m.r1.c3, m.r2.c3)
  }

  /** The homogeneous transform with rotation r and translation t. */
  function Homogeneous(r: Mat3, t: Vec3): (m: Mat4)
    // r and t can be read back from their places ...
    ensures RotationBlock(m) == r && TranslationColumn(m) == t
    // ... and the bottom row is that of the identity
    ensures m.r3 == Row4(0.0, 0.0, 0.0, 1.0)
  {
    Mat4(Row4(r.a00, r.a01, r.a02, t.x),
         Row4(r.a10, r.a11, r.a12, t.y),
         Row4(r.a20, r.a21, r.a22, t.z),
         Row4(0.0, 0.0, 0.0, 1.0))
  }

  /** Conversely, a 4x4 matrix whose bottom row is (0, 0, 0, 1) is the
      homogeneous transform of its own rotation block and translation column. */
  lemma HomogeneousOfBlocks(m: Mat4)
    requires m.r3 == Row4(0.0, 0.0, 0.0, 1.0)
    ensures Homogeneous(RotationBlock(m), TranslationColumn(m)) == m
  {
  }

  /** Entry by entry: rows and columns 0 to 2 hold r, column 3 holds t, row 3
      is (0, 0, 0, 1). */
  lemma HomogeneousEntries(r: Mat3, t: Vec3, i: int, j: int)
    requires 0 <= i < 4 && 0 <= j < 4
    ensures var m := Homogeneous(r, t);
      Get4(m, i, j) == (if i < 3 && j < 3 then Get(r, i, j)
                        else if i < 3 then Component(t, i)
                        else if j < 3 then 0.0
                        else 1.0)
  {
  }

  /** A length vector in millimetres, in metres. */
  function ToMetres(t: Vec3): (m: Vec3)
    ensures m.x * 1000.0 == t.x && m.y * 1000.0 == t.y && m.z * 1000.0 == t.z
  {
    Vec3(t.x / 1000.0, t.y / 1000.0, t.z / 1000.0)
  }

  /** What the calculator returns besides the quaternion: the homogeneous
      transform in millimetres and its translation in metres. */
  datatype Transform = Transform(matrix: Mat4, translationM: Vec3)

  /** The pose transform of a request. */
  function Calculate(req: PoseRequest): (p: Transform)
    // the rotation block is the flipped user rotation
    ensures RotationBlock(p.matrix) == Rotation(req.roll, req.pitch, req.yaw)
    // the translation column and the offset add up to the point fixed by the
    // page the layout prints on
    ensures var page := Paper.Dimensions(req.paperSize, req.orientation);
      var t := TranslationColumn(p.matrix);
      && t.x + req.offset.x == -page.width / 2.0
      && t.y + req.offset.y == page.height / 2.0
      && t.z + req.offset.z == 0.0
    ensures p.matrix.r3 == Row4(0.0, 0.0, 0.0, 1.0)
    // the metric translation is the same vector, scaled to metres
    ensures var t := TranslationColumn(p.matrix);
      p.translationM.x * 1000.0 == t.x && p.translationM.y * 1000.0 == t.y && p.translationM.z * 1000.0 == t.z
  {
    Assemble(Rotation(req.roll, req.pitch, req.yaw), req)
  }

  /** The transform of a request once its rotation r is known: r with the
      page-derived translation, and that translation in metres. */
  function Assemble(r: Mat3, req: PoseRequest): (p: Transform)
    ensures RotationBlock(p.matrix) == r
    // the translation column and the offset add up to the point fixed by the
    // page the layout prints on
    ensures var page := Paper.Dimensions(req.paperSize, req.orientation);
      var t := TranslationColumn(p.matrix);
      && t.x + req.offset.x == -page.width / 2.0
      && t.y + req.offset.y == page.height / 2.0
      && t.z + req.offset.z == 0.0
    ensures p.matrix.r3 == Row4(0.0, 0.0, 0.0, 1.0)
    // the metric translation is the same vector, scaled to metres
    ensures var t := TranslationColumn(p.matrix);
      p.translationM.x * 1000.0 == t.x && p.translationM.y * 1000.0 == t.y && p.translationM.z * 1000.0 == t.z
  {
    var page := Paper.PoseDimensions(req.paperSize, req.orientation);
    var t := Translation(page, req.offset);
    Transform(Homogeneous(r, t), ToMetres(t))
  }

  /** For actual angles the transform is rigid: its rotation block is a
      proper rotation. */
  lemma CalculateIsRigid(req: PoseRequest)
    requires OnUnitCircle(req.roll) && OnUnitCircle(req.pitch) && OnUnitCircle(req.yaw)
    ensures IsRotation(RotationBlock(Calculate(req).matrix))
  {
    RotationIsProper(req.roll, req.pitch, req.yaw);
  }
}
