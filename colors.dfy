/** Colors as triples of reals with the componentwise operations the
    integrator uses (`color` in the ray tracer is a `vec3` of doubles;
    rounding is not modelled). */
module Colors {

  datatype Color = Color(r: real, g: real, b: real)

  const Black: Color := Color(0.0, 0.0, 0.0)

  /** The neutral element of componentwise multiplication. */
  const White: Color := Color(1.0, 1.0, 1.0)

  /** Componentwise sum (`operator+` on `vec3`). */
  function Add(x: Color, y: Color): Color
  {
    Color(x.r + y.r, x.g + y.g, x.b + y.b)
  }

  /** Componentwise product (`operator*` of two `vec3`s). */
  function Mul(x: Color, y: Color): Color
  {
    Color(x.r * y.r, x.g * y.g, x.b * y.b)
  }

  /** `k` copies of `c` added together. */
  function Scale(k: nat, c: Color): Color
  {
    Color(k as real * c.r, k as real * c.g, k as real * c.b)
  }

  lemma ScaleStep(k: nat, c: Color)
    ensures Add(Scale(k, c), c) == Scale(k + 1, c)
  {
    var m := k as real;
    assert m * c.r + c.r == (m + 1.0) * c.r;
    assert m * c.g + c.g == (m + 1.0) * c.g;
    assert m * c.b + c.b == (m + 1.0) * c.b;
  }

  /** Every channel is at least zero. */
  predicate NonNegative(c: Color)
  {
    c.r >= 0.0 && c.g >= 0.0 && c.b >= 0.0
  }

  lemma AddBlack(x: Color)
    ensures Add(x, Black) == x && Add(Black, x) == x
  {
  }

  lemma MulWhite(x: Color)
    ensures Mul(White, x) == x && Mul(x, White) == x
  {
  }

  lemma MulBlack(x: Color)
    ensures Mul(x, Black) == Black && Mul(Black, x) == Black
  {
  }

  lemma AddAssoc(x: Color, y: Color, z: Color)
    ensures Add(Add(x, y), z) == Add(x, Add(y, z))
  {
  }

  lemma MulAssoc(x: Color, y: Color, z: Color)
    ensures Mul(Mul(x, y), z) == Mul(x, Mul(y, z))
  {
    assert (x.r * y.r) * z.r == x.r * (y.r * z.r);
    assert (x.g * y.g) * z.g == x.g * (y.g * z.g);
    assert (x.b * y.b) * z.b == x.b * (y.b * z.b);
  }

  lemma MulAddDistrib(x: Color, y: Color, z: Color)
    ensures Mul(x, Add(y, z)) == Add(Mul(x, y), Mul(x, z))
  {
    assert x.r * (y.r + z.r) == x.r * y.r + x.r * z.r;
    assert x.g * (y.g + z.g) == x.g * y.g + x.g * z.g;
    assert x.b * (y.b + z.b) == x.b * y.b + x.b * z.b;
  }

  lemma NonNegativeClosed(x: Color, y: Color)
    requires NonNegative(x) && NonNegative(y)
    ensures NonNegative(Add(x, y)) && NonNegative(Mul(x, y))
  {
  }
}
