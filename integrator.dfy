/** The radiance integrator `ray_color` of src/Part2/main_RT_scape2.cpp.

    Rays and intersection records are left abstract (type parameters). The
    scene and its materials are given as oracles: `hit` answers
    `world.hit(r, t_min, t_max, rec)`, and `emitted` / `scatter` answer the
    calls made through `rec.mat_ptr` (the record names its material, so the
    material laws are functions of the record). */
module Integrator {
  import opened Colors
  import opened Wrappers

  /** Upper end of a ray-parameter interval; `infinity` in the source. */
  datatype Bound = Finite(t: real) | Infinity

  /** The open interval (tMin, tMax) of ray parameters a hit is searched in. */
  datatype Interval = Interval(tMin: real, tMax: Bound)

  /** The shadow-acne epsilon of the source: hits are searched in (0.001, infinity). */
  const HitEpsilon: real := 0.001
  const SearchInterval: Interval := Interval(HitEpsilon, Infinity)

  /** What `material::scatter` writes into its out-parameters when it returns true. */
  datatype Scattered<Ray> = Scattered(attenuation: Color, scattered: Ray)

  /** The scene as the integrator sees it. */
  datatype World<!Ray, !Rec> = World(
    hit: (Ray, Interval) -> Option<Rec>,
    emitted: Rec -> Color,
    scatter: (Ray, Rec) -> Option<Scattered<Ray>>)

  /** `ray_color(r, background, world, depth)`: black once the bounce limit
      is reached, the background when nothing is hit, otherwise the emission
      plus the attenuated radiance of the scattered ray. */
  function RayColor<Ray, Rec>(r: Ray, background: Color, world: World<Ray, Rec>, depth: int): (c: Color)
    ensures depth <= 0 ==> c == Black
    ensures depth > 0 && world.hit(r, SearchInterval).None? ==> c == background
    decreases depth
  {
    if depth <= 0 then Black
    else
      match world.hit(r, SearchInterval)
      case None => background
      case Some(rec) =>
        var emitted := world.emitted(rec);
        match world.scatter(r, rec)
        case None => emitted
        case Some(s) => Add(emitted, Mul(s.attenuation, RayColor(s.scattered, background, world, depth - 1)))
  }

  // ---------------------------------------------------------------------
  // The four cases of the recurrence

  /** An exhausted bounce budget gathers no light, whatever the ray, background or world. */
  lemma ExhaustedIsBlack<Ray, Rec>(r: Ray, background: Color, world: World<Ray, Rec>, depth: int)
    requires depth <= 0
    ensures RayColor(r, background, world, depth) == Black
  {
  }

  /** A ray with budget left that hits nothing in (0.001, infinity) sees the background verbatim. */
  lemma MissIsBackground<Ray, Rec>(r: Ray, background: Color, world: World<Ray, Rec>, depth: int)
    requires depth > 0 && world.hit(r, SearchInterval) == None
    ensures RayColor(r, background, world, depth) == background
  {
  }

  /** A hit on a material that does not scatter yields its emission alone, for every positive budget. */
  lemma AbsorbedIsEmitted<Ray, Rec>(r: Ray, background: Color, world: World<Ray, Rec>, depth: int, depth': int, rec: Rec)
    requires depth > 0 && depth' > 0
    requires world.hit(r, SearchInterval) == Some(rec) && world.scatter(r, rec) == None
    ensures RayColor(r, background, world, depth) == world.emitted(rec)
    ensures RayColor(r, background, world, depth) == RayColor(r, background, world, depth')
  {
  }

  /** A scattering hit adds the attenuated radiance of the scattered ray, with one bounce less. */
  lemma ScatterRecurrence<Ray, Rec>(r: Ray, background: Color, world: World<Ray, Rec>, depth: int, rec: Rec, s: Scattered<Ray>)
    requires depth > 0
    requires world.hit(r, SearchInterval) == Some(rec) && world.scatter(r, rec) == Some(s)
    ensures RayColor(r, background, world, depth)
         == Add(world.emitted(rec), Mul(s.attenuation, RayColor(s.scattered, background, world, depth - 1)))
  {
  }

  // ---------------------------------------------------------------------
  // The path a ray follows

  /** How the chain of recursive calls ends. */
  datatype Ending = Exhausted | Escaped | Absorbed

  function Budget(depth: int): nat
  {
    if depth > 0 then depth else 0
  }

  /** The number of scattered rays `ray_color` follows, i.e. the nesting of its recursive calls. */
  function Bounces<Ray, Rec>(r: Ray, world: World<Ray, Rec>, depth: int): (n: nat)
    ensures n <= Budget(depth)
    decreases depth
  {
    if depth <= 0 then 0
    else
      match world.hit(r, SearchInterval)
      case None => 0
      case Some(rec) =>
        match world.scatter(r, rec)
        case None => 0
        case Some(s) => 1 + Bounces(s.scattered, world, depth - 1)
  }

  /** Which base case the chain of recursive calls reaches. */
  function PathEnding<Ray, Rec>(r: Ray, world: World<Ray, Rec>, depth: int): (e: Ending)
    ensures e != Exhausted ==> Bounces(r, world, depth) < depth
    decreases depth
  {
    if depth <= 0 then Exhausted
    else
      match world.hit(r, SearchInterval)
      case None => Escaped
      case Some(rec) =>
        match world.scatter(r, rec)
        case None => Absorbed
        case Some(s) => PathEnding(s.scattered, world, depth - 1)
  }

  /** The budget runs out exactly when the path has used all of it on scattered rays. */
  lemma {:induction false} ExhaustedIffFullBudget<Ray, Rec>(r: Ray, world: World<Ray, Rec>, depth: int)
    ensures PathEnding(r, world, depth) == Exhausted <==> Bounces(r, world, depth) == Budget(depth)
    decreases depth
  {
    if depth > 0 {
      match world.hit(r, SearchInterval)
      case None =>
      case Some(rec) =>
        match world.scatter(r, rec)
        case None =>
        case Some(s) => ExhaustedIffFullBudget(s.scattered, world, depth - 1);
    }
  }

  /** Once a path escapes or is absorbed within the budget, a larger budget changes nothing. */
  lemma {:induction false} LargerBudgetSameColor<Ray, Rec>(r: Ray, background: Color, world: World<Ray, Rec>, depth: int, depth': int)
    requires PathEnding(r, world, depth) != Exhausted && depth <= depth'
    ensures RayColor(r, background, world, depth') == RayColor(r, background, world, depth)
    decreases depth
  {
    match world.hit(r, SearchInterval)
    case None =>
    case Some(rec) =>
      match world.scatter(r, rec)
      case None =>
      case Some(s) => LargerBudgetSameColor(s.scattered, background, world, depth - 1, depth' - 1);
  }

  // ---------------------------------------------------------------------
  // Light-transport laws of the recursion

  /** With a black background and no emitter in the scene, every ray is black. */
  lemma {:induction false} NoLightIsBlack<Ray, Rec>(r: Ray, world: World<Ray, Rec>, depth: int)
    requires forall rec :: world.emitted(rec) == Black
    ensures RayColor(r, Black, world, depth) == Black
    decreases depth
  {
    if depth > 0 {
      match world.hit(r, SearchInterval)
      case None =>
      case Some(rec) =>
        match world.scatter(r, rec)
        case None =>
        case Some(s) =>
          NoLightIsBlack(s.scattered, world, depth - 1);
          MulBlack(s.attenuation);
          AddBlack(Black);
    }
  }

  /** Non-negative emission, attenuation and background give non-negative radiance. */
  lemma {:induction false} RadianceNonNegative<Ray, Rec>(r: Ray, background: Color, world: World<Ray, Rec>, depth: int)
    requires NonNegative(background)
    requires forall rec :: NonNegative(world.emitted(rec))
    requires forall ray, rec :: world.scatter(ray, rec).Some? ==> NonNegative(world.scatter(ray, rec).value.attenuation)
    ensures NonNegative(RayColor(r, background, world, depth))
    decreases depth
  {
    if depth > 0 {
      match world.hit(r, SearchInterval)
      case None =>
      case Some(rec) =>
        match world.scatter(r, rec)
        case None =>
        case Some(s) =>
          RadianceNonNegative(s.scattered, background, world, depth - 1);
          NonNegativeClosed(s.attenuation, RayColor(s.scattered, background, world, depth - 1));
          NonNegativeClosed(world.emitted(rec), Mul(s.attenuation, RayColor(s.scattered, background, world, depth - 1)));
    }
  }

  // ---------------------------------------------------------------------
  // The iterative form

  /** `ray_color` as a loop carrying the emitted sum and the attenuation product. */
  method RayColorIterative<Ray, Rec>(r: Ray, background: Color, world: World<Ray, Rec>, depth: int) returns (c: Color)
    ensures c == RayColor(r, background, world, depth)
  {
    var ray, budget := r, depth;
    var emittedSum, throughput := Black, White;
    MulWhite(RayColor(r, background, world, depth));
    AddBlack(RayColor(r, background, world, depth));
    while budget > 0
      invariant RayColor(r, background, world, depth)
             == Add(emittedSum, Mul(throughput, RayColor(ray, background, world, budget)))
      decreases budget
    {
      match world.hit(ray, SearchInterval)
      case None =>
        return Add(emittedSum, Mul(throughput, background));
      case Some(rec) =>
        var emitted := world.emitted(rec);
        match world.scatter(ray, rec)
        case None =>
          return Add(emittedSum, Mul(throughput, emitted));
        case Some(s) =>
          ghost var rest := RayColor(s.scattered, background, world, budget - 1);
          MulAddDistrib(throughput, emitted, Mul(s.attenuation, rest));
          MulAssoc(throughput, s.attenuation, rest);
          AddAssoc(emittedSum, Mul(throughput, emitted), Mul(Mul(throughput, s.attenuation), rest));
          emittedSum := Add(emittedSum, Mul(throughput, emitted));
          throughput := Mul(throughput, s.attenuation);
          ray, budget := s.scattered, budget - 1;
    }
    MulBlack(throughput);
    AddBlack(emittedSum);
    c := emittedSum;
  }
}
