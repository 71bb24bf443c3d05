/** 4x4 homogeneous transforms as the engine's matrix stack uses them.

    A matrix is stored column-major, as glm stores a `glm::mat4`: the entry in
    row r and column c sits at index r + 4 * c. Entries are exact reals in
    place of 32-bit floats, so that matrix equalities are exact. Points are
    column vectors and `Mul(a, b)` is the product a * b, so applying
    `Mul(a, b)` to a point applies b first and a second.
 */
module Transforms {

  datatype Vec2 = Vec2(x: real, y: real)
  datatype Vec4 = Vec4(x: real, y: real, z: real, w: real)

  type Mat4 = m: seq<real> | |m| == 16
    witness [1.0, 0.0, 0.0, 0.0, 0.0, 1.0, 0.0, 0.0, 0.0, 0.0, 1.0, 0.0, 0.0, 0.0, 0.0, 1.0]

  /** The entry in row r and column c. */
  function At(m: Mat4, r: nat, c: nat): real
    requires r < 4 && c < 4
  {
    m[r + 4 * c]
  }

  /** Row r of a times column c of b. */
  function Dot(a: Mat4, b: Mat4, r: nat, c: nat): real
    requires r < 4 && c < 4
  {
    At(a, r, 0) * At(b, 0, c) + At(a, r, 1) * At(b, 1, c) +
    At(a, r, 2) * At(b, 2, c) + At(a, r, 3) * At(b, 3, c)
  }

  /** The matrix product a * b (glm's `operator*` on two `mat4`). */
  function Mul(a: Mat4, b: Mat4): (p: Mat4)
    ensures forall r: nat, c: nat | r < 4 && c < 4 :: At(p, r, c) == Dot(a, b, r, c)
  {
    [Dot(a, b, 0, 0), Dot(a, b, 1, 0), Dot(a, b, 2, 0), Dot(a, b, 3, 0),
     Dot(a, b, 0, 1), Dot(a, b, 1, 1), Dot(a, b, 2, 1), Dot(a, b, 3, 1),
     Dot(a, b, 0, 2), Dot(a, b, 1, 2), Dot(a, b, 2, 2), Dot(a, b, 3, 2),
     Dot(a, b, 0, 3), Dot(a, b, 1, 3), Dot(a, b, 2, 3), Dot(a, b, 3, 3)]
  }

  /** `glm::mat4(1.0f)`. */
  const Identity: Mat4 :=
    [1.0, 0.0, 0.0, 0.0,
     0.0, 1.0, 0.0, 0.0,
     0.0, 0.0, 1.0, 0.0,
     0.0, 0.0, 0.0, 1.0]

  /** `glm::translate(glm::mat4(1.0f), glm::vec3(v, 1.0f))`: the identity with
      column 3 replaced by (v.x, v.y, 1, 1). The z offset is 1, not 0. */
  function Translation(v: Vec2): (t: Mat4)
    ensures Planar(t) && DepthOffset(t) == 1.0
    ensures At(t, 0, 0) == 1.0 && At(t, 1, 1) == 1.0 && At(t, 0, 1) == 0.0 && At(t, 1, 0) == 0.0
    ensures At(t, 0, 3) == v.x && At(t, 1, 3) == v.y
  {
    [1.0, 0.0, 0.0, 0.0,
     0.0, 1.0, 0.0, 0.0,
     0.0, 0.0, 1.0, 0.0,
     v.x, v.y, 1.0, 1.0]
  }

  /** `glm::rotate(glm::mat4(1.0f), theta, glm::vec3(0, 0, 1))` where
      c = cos theta and s = sin theta. */
  function Rotation(c: real, s: real): (t: Mat4)
    ensures Planar(t) && DepthOffset(t) == 0.0
    ensures At(t, 0, 0) == c && At(t, 1, 0) == s && At(t, 0, 1) == -s && At(t, 1, 1) == c
    ensures At(t, 0, 3) == 0.0 && At(t, 1, 3) == 0.0
  {
    [c, s, 0.0, 0.0,
     -s, c, 0.0, 0.0,
     0.0, 0.0, 1.0, 0.0,
     0.0, 0.0, 0.0, 1.0]
  }

  /** `glm::scale(glm::mat4(1.0f), glm::vec3(v, 1.0f))`: diag(v.x, v.y, 1, 1). */
  function Scaling(v: Vec2): (t: Mat4)
    ensures Planar(t) && DepthOffset(t) == 0.0
    ensures At(t, 0, 0) == v.x && At(t, 1, 1) == v.y && At(t, 0, 1) == 0.0 && At(t, 1, 0) == 0.0
    ensures At(t, 0, 3) == 0.0 && At(t, 1, 3) == 0.0
  {
    [v.x, 0.0, 0.0, 0.0,
     0.0, v.y, 0.0, 0.0,
     0.0, 0.0, 1.0, 0.0,
     0.0, 0.0, 0.0, 1.0]
  }

  /** Row r of m times the column vector p. */
  function Row(m: Mat4, r: nat, p: Vec4): real
    requires r < 4
  {
    At(m, r, 0) * p.x + At(m, r, 1) * p.y + At(m, r, 2) * p.z + At(m, r, 3) * p.w
  }

  /** The matrix applied to a column vector. */
  function Apply(m: Mat4, p: Vec4): Vec4
  {
    Vec4(Row(m, 0, p), Row(m, 1, p), Row(m, 2, p), Row(m, 3, p))
  }

  /** Where a point of the drawing plane (z = 0, w = 1) lands in the plane.
      This assumes the drawing calls apply the top of the stack to a point
      as `top * p`, glm's `mat4 * vec4`. */
  function Image(m: Mat4, q: Vec2): Vec2
  {
    var p := Apply(m, Vec4(q.x, q.y, 0.0, 1.0));
    Vec2(p.x, p.y)
  }

  /** A transform of the drawing plane embedded in 4x4: x and y do not mix
      with z, z is only offset, and the last row is (0, 0, 0, 1). Every
      matrix the stack builds has this shape. */
  predicate Planar(m: Mat4)
  {
    At(m, 0, 2) == 0.0 && At(m, 1, 2) == 0.0 &&
    At(m, 2, 0) == 0.0 && At(m, 2, 1) == 0.0 && At(m, 2, 2) == 1.0 &&
    At(m, 3, 0) == 0.0 && At(m, 3, 1) == 0.0 && At(m, 3, 2) == 0.0 && At(m, 3, 3) == 1.0
  }

  /** How far the matrix moves z: the row-2, column-3 entry. */
  function DepthOffset(m: Mat4): real
  {
    At(m, 2, 3)
  }

  /** Two matrices are equal when all their entries are. */
  lemma EntriesEqual(a: Mat4, b: Mat4)
    requires forall r: nat, c: nat | r < 4 && c < 4 :: At(a, r, c) == At(b, r, c)
    ensures a == b
  {
    forall k | 0 <= k < 16
      ensures a[k] == b[k]
    {
      assert At(a, k % 4, k / 4) == At(b, k % 4, k / 4);
    }
  }

  /** The entries of the identity: ones on the diagonal, zeros elsewhere. */
  lemma IdentityAt(r: nat, c: nat)
    requires r < 4 && c < 4
    ensures At(Identity, r, c) == if r == c then 1.0 else 0.0
  {
    assert r == 0 || r == 1 || r == 2 || r == 3;
    assert c == 0 || c == 1 || c == 2 || c == 3;
  }

  /** The identity is neutral on both sides of the product. */
  lemma MulIdentity(m: Mat4)
    ensures Mul(Identity, m) == m
    ensures Mul(m, Identity) == m
  {
    forall r: nat, c: nat | r < 4 && c < 4
      ensures At(Mul(Identity, m), r, c) == At(m, r, c)
      ensures At(Mul(m, Identity), r, c) == At(m, r, c)
    {
      IdentityAt(r, 0); IdentityAt(r, 1); IdentityAt(r, 2); IdentityAt(r, 3);
      IdentityAt(0, c); IdentityAt(1, c); IdentityAt(2, c); IdentityAt(3, c);
    }
    EntriesEqual(Mul(Identity, m), m);
    EntriesEqual(Mul(m, Identity), m);
  }

  /** Applying a product applies the right factor first: a point drawn
      through `E * top` is moved by `top` and then by E. */
  lemma ApplyMul(a: Mat4, b: Mat4, p: Vec4)
    ensures Apply(Mul(a, b), p) == Apply(a, Apply(b, p))
  {
    RowOfProduct(a, b, p, 0);
    RowOfProduct(a, b, p, 1);
    RowOfProduct(a, b, p, 2);
    RowOfProduct(a, b, p, 3);
  }

  /** One row of `ApplyMul`: the dot products regrouped. */
  lemma RowOfProduct(a: Mat4, b: Mat4, p: Vec4, r: nat)
    requires r < 4
    ensures Row(Mul(a, b), r, p) == Row(a, r, Apply(b, p))
  {
    RowOfMul(a, b, p, r);
    DotsRegrouped(a, b, p, r);
  }

  lemma RowOfMul(a: Mat4, b: Mat4, p: Vec4, r: nat)
    requires r < 4
    ensures Row(Mul(a, b), r, p) ==
      Dot(a, b, r, 0) * p.x + Dot(a, b, r, 1) * p.y + Dot(a, b, r, 2) * p.z + Dot(a, b, r, 3) * p.w
  {
  }

  lemma DotsRegrouped(a: Mat4, b: Mat4, p: Vec4, r: nat)
    requires r < 4
    ensures var q := Apply(b, p);
      Dot(a, b, r, 0) * p.x + Dot(a, b, r, 1) * p.y + Dot(a, b, r, 2) * p.z + Dot(a, b, r, 3) * p.w
      == At(a, r, 0) * q.x + At(a, r, 1) * q.y + At(a, r, 2) * q.z + At(a, r, 3) * q.w
  {
    Regroup(At(a, r, 0), At(a, r, 1), At(a, r, 2), At(a, r, 3),
            At(b, 0, 0), At(b, 0, 1), At(b, 0, 2), At(b, 0, 3),
            At(b, 1, 0), At(b, 1, 1), At(b, 1, 2), At(b, 1, 3),
            At(b, 2, 0), At(b, 2, 1), At(b, 2, 2), At(b, 2, 3),
            At(b, 3, 0), At(b, 3, 1), At(b, 3, 2), At(b, 3, 3),
            p.x, p.y, p.z, p.w);
  }

  /** The ring identity behind `DotsRegrouped`, on plain reals. */
  lemma Regroup(a0: real, a1: real, a2: real, a3: real,
                b00: real, b01: real, b02: real, b03: real,
                b10: real, b11: real, b12: real, b13: real,
                b20: real, b21: real, b22: real, b23: real,
                b30: real, b31: real, b32: real, b33: real,
                x: real, y: real, z: real, w: real)
    ensures (a0 * b00 + a1 * b10 + a2 * b20 + a3 * b30) * x + (a0 * b01 + a1 * b11 + a2 * b21 + a3 * b31) * y
          + (a0 * b02 + a1 * b12 + a2 * b22 + a3 * b32) * z + (a0 * b03 + a1 * b13 + a2 * b23 + a3 * b33) * w
         == a0 * (b00 * x + b01 * y + b02 * z + b03 * w) + a1 * (b10 * x + b11 * y + b12 * z + b13 * w)
          + a2 * (b20 * x + b21 * y + b22 * z + b23 * w) + a3 * (b30 * x + b31 * y + b32 * z + b33 * w)
  {
  }

  /** The identity leaves every point where it is. */
  lemma ApplyIdentity(p: Vec4)
    ensures Apply(Identity, p) == p
  {
  }

  /** The identity and the three elementary transforms are planar. */
  lemma ElementaryPlanar(v: Vec2, c: real, s: real)
    ensures Planar(Identity)
    ensures Planar(Translation(v)) && Planar(Rotation(c, s)) && Planar(Scaling(v))
  {
  }

  /** Planar matrices are closed under the product. */
  lemma MulPlanar(a: Mat4, b: Mat4)
    requires Planar(a) && Planar(b)
    ensures Planar(Mul(a, b))
  {
  }

  /** Under a planar matrix the z coordinate of a point has no effect on
      where its x and y land. */
  lemma ImageIgnoresDepth(m: Mat4, x: real, y: real, z: real)
    requires Planar(m)
    ensures Apply(m, Vec4(x, y, z, 1.0)).x == Image(m, Vec2(x, y)).x
    ensures Apply(m, Vec4(x, y, z, 1.0)).y == Image(m, Vec2(x, y)).y
  {
  }

  /** `Translation(v) * m` draws every point v further on than m does. */
  lemma TranslationShiftsImage(m: Mat4, v: Vec2, q: Vec2)
    requires Planar(m)
    ensures Image(Mul(Translation(v), m), q) == Vec2(Image(m, q).x + v.x, Image(m, q).y + v.y)
  {
    ApplyMul(Translation(v), m, Vec4(q.x, q.y, 0.0, 1.0));
  }

  /** `Scaling(v) * m` scales the image of m about the device origin. */
  lemma ScalingScalesImage(m: Mat4, v: Vec2, q: Vec2)
    requires Planar(m)
    ensures Image(Mul(Scaling(v), m), q) == Vec2(v.x * Image(m, q).x, v.y * Image(m, q).y)
  {
    ApplyMul(Scaling(v), m, Vec4(q.x, q.y, 0.0, 1.0));
  }

  /** `Rotation(c, s) * m` rotates the image of m about the device origin. */
  lemma RotationRotatesImage(m: Mat4, c: real, s: real, q: Vec2)
    requires Planar(m)
    ensures Image(Mul(Rotation(c, s), m), q) ==
            Vec2(c * Image(m, q).x - s * Image(m, q).y, s * Image(m, q).x + c * Image(m, q).y)
  {
    ApplyMul(Rotation(c, s), m, Vec4(q.x, q.y, 0.0, 1.0));
  }

  /** For a genuine angle (c * c + s * s == 1) the rotation keeps every
      image at the same distance from the origin. */
  lemma RotationKeepsDistance(c: real, s: real, q: Vec2)
    requires c * c + s * s == 1.0
    ensures var p := Image(Rotation(c, s), q); p.x * p.x + p.y * p.y == q.x * q.x + q.y * q.y
  {
    var p := Image(Rotation(c, s), q);
    assert p.x == c * q.x - s * q.y && p.y == s * q.x + c * q.y;
    calc {
      p.x * p.x + p.y * p.y;
      (c * c + s * s) * (q.x * q.x) + (c * c + s * s) * (q.y * q.y);
      q.x * q.x + q.y * q.y;
    }
  }

  /** The z quirk: every translation adds 1 to the z offset of a planar
      matrix, whatever the translation vector. */
  lemma TranslationLiftsDepth(m: Mat4, v: Vec2)
    requires Planar(m)
    ensures DepthOffset(Mul(Translation(v), m)) == DepthOffset(m) + 1.0
  {
  }

  /** Because of the z offset, two translations do not compose to the
      translation by their sum: the z offset becomes 2. */
  lemma TranslationsDoNotCompose(a: Vec2, b: Vec2)
    ensures Mul(Translation(a), Translation(b)) != Translation(Vec2(a.x + b.x, a.y + b.y))
    ensures Image(Mul(Translation(a), Translation(b)), Vec2(0.0, 0.0)) == Vec2(a.x + b.x, a.y + b.y)
  {
    assert At(Mul(Translation(a), Translation(b)), 2, 3) == 2.0;
    TranslationShiftsImage(Translation(b), a, Vec2(0.0, 0.0));
  }

  /** The elementary transform of the latest call acts in the device frame,
      not in the frame the earlier calls set up: after a rotation, a
      translation by v draws the origin at v itself. Read in the rotated
      frame it would land at `Image(Rotation(c, s), v)` instead, which for a
      quarter turn (c, s) = (0, 1) and v = (1, 0) is (0, 1). */
  lemma LatestTransformActsLast(v: Vec2, c: real, s: real)
    ensures Image(Mul(Translation(v), Rotation(c, s)), Vec2(0.0, 0.0)) == v
    ensures Image(Rotation(0.0, 1.0), Vec2(1.0, 0.0)) == Vec2(0.0, 1.0)
  {
    var turn := Rotation(c, s);
    assert Image(turn, Vec2(0.0, 0.0)) == Vec2(0.0, 0.0);
    ElementaryPlanar(v, c, s);
    TranslationShiftsImage(turn, v, Vec2(0.0, 0.0));
  }
}
