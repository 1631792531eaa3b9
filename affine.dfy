/** The part of gl-matrix's `mat2d` and `vec2` that the pinch engine calls:
    create, translate, scale, invert and transformMat2d.
    A matrix is stored as gl-matrix stores it, [a, b, c, d, tx, ty], and maps
    the point (x, y) to (a*x + c*y + tx, b*x + d*y + ty). */
module Affine {

  datatype Vec2 = Vec2(x: real, y: real)

  datatype Mat2d = Mat2d(a: real, b: real, c: real, d: real, tx: real, ty: real)

  datatype Option<T> = None | Some(value: T)

  /** mat2d.create() */
  const Identity: Mat2d := Mat2d(1.0, 0.0, 0.0, 1.0, 0.0, 0.0)

  /** vec2.transformMat2d(out, p, m) */
  function Apply(m: Mat2d, p: Vec2): Vec2 {
    Vec2(m.a * p.x + m.c * p.y + m.tx, m.b * p.x + m.d * p.y + m.ty)
  }

  /** mat2d.multiply(out, m, n): the product m·n, which applies n first. */
  function Multiply(m: Mat2d, n: Mat2d): Mat2d {
    Mat2d(m.a * n.a + m.c * n.b, m.b * n.a + m.d * n.b,
          m.a * n.c + m.c * n.d, m.b * n.c + m.d * n.d,
          m.a * n.tx + m.c * n.ty + m.tx, m.b * n.tx + m.d * n.ty + m.ty)
  }

  function Translation(v: Vec2): Mat2d {
    Mat2d(1.0, 0.0, 0.0, 1.0, v.x, v.y)
  }

  function Scaling(v: Vec2): Mat2d {
    Mat2d(v.x, 0.0, 0.0, v.y, 0.0, 0.0)
  }

  /** mat2d.translate(out, m, v): gl-matrix post-multiplies, so the
      translation by v happens before m. */
  function Translate(m: Mat2d, v: Vec2): Mat2d {
    Mat2d(m.a, m.b, m.c, m.d, m.a * v.x + m.c * v.y + m.tx, m.b * v.x + m.d * v.y + m.ty)
  }

  /** mat2d.scale(out, m, v): post-multiplies by a scaling. */
  function Scale(m: Mat2d, v: Vec2): Mat2d {
    Mat2d(m.a * v.x, m.b * v.x, m.c * v.y, m.d * v.y, m.tx, m.ty)
  }

  function Determinant(m: Mat2d): real {
    m.a * m.d - m.b * m.c
  }

  /** mat2d.invert: gl-matrix returns null for a singular matrix. */
  function Invert(m: Mat2d): (r: Option<Mat2d>)
    ensures r.Some? <==> Determinant(m) != 0.0
  {
    var det := Determinant(m);
    if det == 0.0 then None
    else
      var inv := 1.0 / det;
      Some(Mat2d(m.d * inv, -m.b * inv, -m.c * inv, m.a * inv,
                 (m.c * m.ty - m.d * m.tx) * inv, (m.b * m.tx - m.a * m.ty) * inv))
  }

  /** mat2d.invert(m, m), the in-place call the engine makes: on a singular
      matrix gl-matrix writes nothing, so the matrix stays as it was. */
  function InvertInPlace(m: Mat2d): (r: Mat2d)
    ensures Determinant(m) == 0.0 ==> r == m
  {
    match Invert(m)
    case Some(inv) => inv
    case None => m
  }

  /** T(c)·m: the translation by c applied after m. */
  function PreTranslate(m: Mat2d, c: Vec2): Mat2d {
    Mat2d(m.a, m.b, m.c, m.d, m.tx + c.x, m.ty + c.y)
  }

  /** translate, scale and the re-centring step are products with a
      translation or a scaling matrix, on the side gl-matrix puts them. */
  lemma OperationsAreProducts(m: Mat2d, v: Vec2)
    ensures Translate(m, v) == Multiply(m, Translation(v))
    ensures Scale(m, v) == Multiply(m, Scaling(v))
    ensures PreTranslate(m, v) == Multiply(Translation(v), m)
  {
  }

  /** Matrices built only from scalings and translations (both scale factors non-zero). */
  predicate IsScaleTranslate(m: Mat2d) {
    m.b == 0.0 && m.c == 0.0 && m.a != 0.0 && m.d != 0.0
  }

  /** One coordinate of `ApplyMultiply`: row (e, f, t) of the left factor
      against the right factor's entries. */
  lemma ProductRow(e: real, f: real, t: real, na: real, nb: real, nc: real, nd: real,
                   ntx: real, nty: real, px: real, py: real)
    ensures (e * na + f * nb) * px + (e * nc + f * nd) * py + (e * ntx + f * nty + t)
            == e * (na * px + nc * py + ntx) + f * (nb * px + nd * py + nty) + t
  {
  }

  lemma ApplyMultiplyX(m: Mat2d, n: Mat2d, p: Vec2)
    ensures Apply(Multiply(m, n), p).x == Apply(m, Apply(n, p)).x
  {
    ProductRow(m.a, m.c, m.tx, n.a, n.b, n.c, n.d, n.tx, n.ty, p.x, p.y);
  }

  lemma ApplyMultiplyY(m: Mat2d, n: Mat2d, p: Vec2)
    ensures Apply(Multiply(m, n), p).y == Apply(m, Apply(n, p)).y
  {
    ProductRow(m.b, m.d, m.ty, n.a, n.b, n.c, n.d, n.tx, n.ty, p.x, p.y);
  }

  /** Applying a product is applying its factors in turn. */
  lemma ApplyMultiply(m: Mat2d, n: Mat2d, p: Vec2)
    ensures Apply(Multiply(m, n), p) == Apply(m, Apply(n, p))
  {
    ApplyMultiplyX(m, n, p);
    ApplyMultiplyY(m, n, p);
  }

  /** Every point's image under T(c)·m is its image under m shifted by c. */
  lemma PreTranslateShifts(m: Mat2d, c: Vec2, p: Vec2)
    ensures Apply(PreTranslate(m, c), p) == Vec2(Apply(m, p).x + c.x, Apply(m, p).y + c.y)
  {
  }

  /** The four coordinate identities behind `InvertIsInverse`, one polynomial
      identity each, over the entries of the matrix and `inv` = 1/det. */
  lemma InverseAfterX(a: real, b: real, c: real, d: real, tx: real, ty: real, inv: real, px: real, py: real)
    requires (a * d - b * c) * inv == 1.0
    ensures d * inv * (a * px + c * py + tx) + (-c * inv) * (b * px + d * py + ty) + (c * ty - d * tx) * inv == px
  {
    assert d * inv * (a * px + c * py + tx) + (-c * inv) * (b * px + d * py + ty) + (c * ty - d * tx) * inv
        == (a * d - b * c) * inv * px;
  }

  lemma InverseAfterY(a: real, b: real, c: real, d: real, tx: real, ty: real, inv: real, px: real, py: real)
    requires (a * d - b * c) * inv == 1.0
    ensures (-b * inv) * (a * px + c * py + tx) + a * inv * (b * px + d * py + ty) + (b * tx - a * ty) * inv == py
  {
    assert (-b * inv) * (a * px + c * py + tx) + a * inv * (b * px + d * py + ty) + (b * tx - a * ty) * inv
        == (a * d - b * c) * inv * py;
  }

  lemma InverseBeforeX(a: real, b: real, c: real, d: real, tx: real, ty: real, inv: real, px: real, py: real)
    requires (a * d - b * c) * inv == 1.0
    ensures a * (d * inv * px + (-c * inv) * py + (c * ty - d * tx) * inv)
            + c * ((-b * inv) * px + a * inv * py + (b * tx - a * ty) * inv) + tx == px
  {
    assert a * (d * inv * px + (-c * inv) * py + (c * ty - d * tx) * inv)
           + c * ((-b * inv) * px + a * inv * py + (b * tx - a * ty) * inv) + tx
        == (a * d - b * c) * inv * px - (a * d - b * c) * inv * tx + tx;
  }

  lemma InverseBeforeY(a: real, b: real, c: real, d: real, tx: real, ty: real, inv: real, px: real, py: real)
    requires (a * d - b * c) * inv == 1.0
    ensures b * (d * inv * px + (-c * inv) * py + (c * ty - d * tx) * inv)
            + d * ((-b * inv) * px + a * inv * py + (b * tx - a * ty) * inv) + ty == py
  {
    assert b * (d * inv * px + (-c * inv) * py + (c * ty - d * tx) * inv)
           + d * ((-b * inv) * px + a * inv * py + (b * tx - a * ty) * inv) + ty
        == (a * d - b * c) * inv * py - (a * d - b * c) * inv * ty + ty;
  }

  lemma InvertUndoesX(m: Mat2d, p: Vec2)
    requires Determinant(m) != 0.0
    ensures Apply(Invert(m).value, Apply(m, p)).x == p.x
  {
    var inv := 1.0 / Determinant(m);
    assert (m.a * m.d - m.b * m.c) * inv == 1.0;
    var i := Invert(m).value;
    assert i == Mat2d(m.d * inv, -m.b * inv, -m.c * inv, m.a * inv,
                      (m.c * m.ty - m.d * m.tx) * inv, (m.b * m.tx - m.a * m.ty) * inv);
    InverseAfterX(m.a, m.b, m.c, m.d, m.tx, m.ty, inv, p.x, p.y);
  }

  lemma InvertUndoesY(m: Mat2d, p: Vec2)
    requires Determinant(m) != 0.0
    ensures Apply(Invert(m).value, Apply(m, p)).y == p.y
  {
    var inv := 1.0 / Determinant(m);
    assert (m.a * m.d - m.b * m.c) * inv == 1.0;
    var i := Invert(m).value;
    assert i == Mat2d(m.d * inv, -m.b * inv, -m.c * inv, m.a * inv,
                      (m.c * m.ty - m.d * m.tx) * inv, (m.b * m.tx - m.a * m.ty) * inv);
    InverseAfterY(m.a, m.b, m.c, m.d, m.tx, m.ty, inv, p.x, p.y);
  }

  /** The inverse gl-matrix computes undoes the matrix, applied after it ... */
  lemma InvertUndoes(m: Mat2d, p: Vec2)
    requires Determinant(m) != 0.0
    ensures Apply(Invert(m).value, Apply(m, p)) == p
  {
    InvertUndoesX(m, p);
    InvertUndoesY(m, p);
  }

  lemma InvertIsUndoneX(m: Mat2d, p: Vec2)
    requires Determinant(m) != 0.0
    ensures Apply(m, Apply(Invert(m).value, p)).x == p.x
  {
    var inv := 1.0 / Determinant(m);
    assert (m.a * m.d - m.b * m.c) * inv == 1.0;
    var i := Invert(m).value;
    assert i == Mat2d(m.d * inv, -m.b * inv, -m.c * inv, m.a * inv,
                      (m.c * m.ty - m.d * m.tx) * inv, (m.b * m.tx - m.a * m.ty) * inv);
    InverseBeforeX(m.a, m.b, m.c, m.d, m.tx, m.ty, inv, p.x, p.y);
  }

  lemma InvertIsUndoneY(m: Mat2d, p: Vec2)
    requires Determinant(m) != 0.0
    ensures Apply(m, Apply(Invert(m).value, p)).y == p.y
  {
    var inv := 1.0 / Determinant(m);
    assert (m.a * m.d - m.b * m.c) * inv == 1.0;
    var i := Invert(m).value;
    assert i == Mat2d(m.d * inv, -m.b * inv, -m.c * inv, m.a * inv,
                      (m.c * m.ty - m.d * m.tx) * inv, (m.b * m.tx - m.a * m.ty) * inv);
    InverseBeforeY(m.a, m.b, m.c, m.d, m.tx, m.ty, inv, p.x, p.y);
  }

  /** ... and before it. */
  lemma InvertIsUndone(m: Mat2d, p: Vec2)
    requires Determinant(m) != 0.0
    ensures Apply(m, Apply(Invert(m).value, p)) == p
  {
    InvertIsUndoneX(m, p);
    InvertIsUndoneY(m, p);
  }

  /** The inverse of a scale-and-translate matrix in closed form. */
  lemma ScaleTranslateInverse(m: Mat2d)
    requires IsScaleTranslate(m)
    ensures Invert(m) == Some(Mat2d(1.0 / m.a, 0.0, 0.0, 1.0 / m.d, -m.tx / m.a, -m.ty / m.d))
  {
    var det := m.a * m.d;
    assert det != 0.0 by {
      if m.a > 0.0 {
        if m.d > 0.0 { assert det > 0.0; } else { assert det < 0.0; }
      } else {
        if m.d > 0.0 { assert det < 0.0; } else { assert det > 0.0; }
      }
    }
    assert Determinant(m) == det;
    var inv := 1.0 / det;
    assert m.d * inv == 1.0 / m.a by {
      assert m.a * (m.d * inv) == 1.0;
    }
    assert m.a * inv == 1.0 / m.d by {
      assert m.d * (m.a * inv) == 1.0;
    }
    assert (0.0 * m.ty - m.d * m.tx) * inv == -m.tx / m.a by {
      assert (0.0 * m.ty - m.d * m.tx) * inv == -m.tx * (m.d * inv);
    }
    assert (0.0 * m.tx - m.a * m.ty) * inv == -m.ty / m.d by {
      assert (0.0 * m.tx - m.a * m.ty) * inv == -m.ty * (m.a * inv);
    }
    assert -m.b * inv == 0.0 && -m.c * inv == 0.0;
    assert Invert(m).Some?;
    assert Invert(m).value.a == m.d * inv;
    assert Invert(m).value.b == -m.b * inv;
    assert Invert(m).value.tx == (m.c * m.ty - m.d * m.tx) * inv;
    var i := Invert(m).value;
    assert i.a == 1.0 / m.a;
    assert i.b == 0.0;
    assert i.c == 0.0;
    assert i.d == 1.0 / m.d;
    assert i.tx == -m.tx / m.a;
    assert i.ty == -m.ty / m.d;
  }

  /** The engine's trick for putting a translation by c first in the chain:
      invert, translate by -c, invert again. For a scale-and-translate matrix
      this is exactly T(c)·m. */
  lemma InvertTranslateInvert(m: Mat2d, c: Vec2)
    requires IsScaleTranslate(m)
    ensures InvertInPlace(Translate(InvertInPlace(m), Vec2(-c.x, -c.y))) == PreTranslate(m, c)
  {
    ScaleTranslateInverse(m);
    var n := Mat2d(1.0 / m.a, 0.0, 0.0, 1.0 / m.d, -m.tx / m.a, -m.ty / m.d);
    assert InvertInPlace(m) == n;
    var t := Translate(n, Vec2(-c.x, -c.y));
    assert t == Mat2d(1.0 / m.a, 0.0, 0.0, 1.0 / m.d, -(c.x + m.tx) / m.a, -(c.y + m.ty) / m.d);
    assert IsScaleTranslate(t);
    ScaleTranslateInverse(t);
    assert 1.0 / (1.0 / m.a) == m.a;
    assert 1.0 / (1.0 / m.d) == m.d;
    assert -(-(c.x + m.tx) / m.a) / (1.0 / m.a) == m.tx + c.x;
    assert -(-(c.y + m.ty) / m.d) / (1.0 / m.d) == m.ty + c.y;
  }
}
