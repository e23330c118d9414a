# Monte Carlo ray tracer core, modelled in Dafny

This project models the core of `src/Part2/main_RT_scape2.cpp`, a "Ray Tracing
in One Weekend"-style renderer, in three parts:

- **The radiance integrator `ray_color`** (`integrator.dfy`, module `Integrator`).
  Rays and hit records are type parameters. The world is a datatype of three
  oracles: `hit` (the `world.hit(r, 0.001, infinity, rec)` query over an
  interval), and `emitted` and `scatter` (the calls made through
  `rec.mat_ptr`). `RayColor` is the recursive function. `RayColorIterative`
  is the loop form, with an emitted-sum accumulator and an attenuation-product
  accumulator, and it is proved equal to the recursion. Lemmas state the four
  cases of the recurrence and a bound on how deep the recursion goes. They
  also show that the budget is exhausted exactly when the path has used all of
  it, that a path which ends early gives the same color under any larger
  budget, that a scene with no light stays black, and that the radiance is
  non-negative.
- **The render loop of `main`** (`render.dfy`, module `Render`). `Render` is an
  imperative method with the row loop; the column loop of one row is the method
  `WriteRow`, which appends to the stream it is given, and the sample loop of
  one pixel is the method `AccumulatePixel`. Together they write a
  sequence of output lines: the PPM header `P3` / `<width> <height>` / `255`,
  then one `WriteColor(sum, samples_per_pixel)` entry per pixel. It is proved
  equal to the function `Image`, and lemmas about `Image` give the length,
  the scan order (rows from `height-1` down to 0, columns ascending), the
  position of each pixel, the per-pixel sample sum, and two end-to-end
  scenarios. `image_height` is `width / aspect_ratio` truncated toward zero,
  which gives 675 for `main`'s 1200 pixels at 16:9.
- **The scene builder `myRTscape2`** (`scene.dfy`, module `Scene`). Surfaces
  are trees of primitives (sphere, xy/yz rectangle, box, each with one
  material) and the wrappers `rotate_y` and `translate`. The method
  `MyRTScape2` appends the 28 objects in source order and is proved to build
  `SceneObjects`. Lemmas about that sequence pin down the kinds of the objects,
  the emitters, the sun's dielectric shell, and the rotate-then-translate
  nesting and material sharing of the three boxes.

`colors.dfy` holds `Color` (a triple of reals) with componentwise `Add` and
`Mul`. `wrappers.dfy` holds `Option`.

`main` passes `write_color` the unaveraged sum together with
`samples_per_pixel` (src/Part2/main_RT_scape2.cpp:173). The division happens
inside `write_color`, which is left out, so each entry records both.

## Model

| member | source | states |
|---|---|---|
| `Integrator.RayColor` | src/Part2/main_RT_scape2.cpp:20-39 | `ray_color`: black at depth <= 0, the background on a miss in (0.001, infinity), the emission when nothing scatters, otherwise emitted + attenuation ⊙ RayColor(scattered, depth-1); its contract states the first two cases |
| `Integrator.PathEnding` | src/Part2/main_RT_scape2.cpp:24-38 | which base case the recursion reaches; a path that escapes or is absorbed has followed fewer than `depth` scattered rays |
| `Integrator.ExhaustedIsBlack` | src/Part2/main_RT_scape2.cpp:24-25 | with `depth <= 0` the result is black for every ray, background and world |
| `Integrator.MissIsBackground` | src/Part2/main_RT_scape2.cpp:28-29 | with budget left and no hit in (0.001, infinity) the result is exactly the background |
| `Integrator.AbsorbedIsEmitted` | src/Part2/main_RT_scape2.cpp:33-36 | a hit on a non-scattering material gives its emission, with no attenuation and the same value for every positive depth |
| `Integrator.ScatterRecurrence` | src/Part2/main_RT_scape2.cpp:38 | a scattering hit gives emitted + attenuation ⊙ radiance of the scattered ray at depth-1 |
| `Integrator.Bounces` | src/Part2/main_RT_scape2.cpp:20-39 | the number of nested recursive calls is at most `depth` (0 when `depth <= 0`) |
| `Integrator.ExhaustedIffFullBudget` | src/Part2/main_RT_scape2.cpp:24-38 | the path ends on the exhausted budget exactly when it has followed `depth` scattered rays |
| `Integrator.LargerBudgetSameColor` | src/Part2/main_RT_scape2.cpp:24-38 | once a path escapes or is absorbed within the budget, any larger budget gives the same color |
| `Integrator.NoLightIsBlack` | src/Part2/main_RT_scape2.cpp:20-39 | with a black background and nothing emitting, every ray's radiance is black |
| `Integrator.RadianceNonNegative` | src/Part2/main_RT_scape2.cpp:20-39 | non-negative background, emission and attenuation give non-negative radiance |
| `Integrator.RayColorIterative` | src/Part2/main_RT_scape2.cpp:20-39 | the loop with an emitted sum and an attenuation product returns the same color as the recursion |
| `Render.TruncateToInt` | src/Part2/main_RT_scape2.cpp:151 | `static_cast<int>` truncates toward zero: the result is within one of the real and no farther from zero |
| `Render.ImageHeight` | src/Part2/main_RT_scape2.cpp:151 | `image_height` is `image_width / aspect_ratio` truncated toward zero: within one of the quotient and no farther from zero |
| `Render.MainSetup` | src/Part2/main_RT_scape2.cpp:129-151 | `main` renders 1200 x 675 pixels, 200 samples each, 25 bounces, black background |
| `Render.AccumulatePixel` | src/Part2/main_RT_scape2.cpp:166-172 | the pixel accumulator starts at zero and ends as the in-order sum of the `samples_per_pixel` sample colors `ray_color(cameraRay(i, j, s), background, world, max_depth)` |
| `Render.PixelSum` | src/Part2/main_RT_scape2.cpp:166-171 | the sum of the first n samples of a pixel, added in order to a zero accumulator; zero for n <= 0, non-negative when those samples are |
| `Render.Image` | src/Part2/main_RT_scape2.cpp:161-175 | everything `main` writes to standard output; it starts with the `P3` / `<width> <height>` / `255` header |
| `Render.WriteRow` | src/Part2/main_RT_scape2.cpp:165-174 | the column loop appends exactly row j's entries, columns 0 to width-1, to the stream it is given |
| `Render.Render` | src/Part2/main_RT_scape2.cpp:161-175 | the loops write the header, then width*height entries; entry k is pixel (k % width, height-1 - k / width) with the sum of its samples |
| `Render.ScanRowsAt` | src/Part2/main_RT_scape2.cpp:163-175 | rows height-1 down to `bottom` have (height-bottom)*width entries, in row-descending, column-ascending order |
| `Render.ImageLayout` | src/Part2/main_RT_scape2.cpp:161-175 | the output is the three header lines followed by exactly width*height pixel entries in scan order |
| `Render.PixelPosition` | src/Part2/main_RT_scape2.cpp:163-175 | every pixel (i, j) has its entry at position 3 + (height-1-j)*width + i |
| `Render.SumOfEqualSamples` | src/Part2/main_RT_scape2.cpp:166-172 | the accumulator starts at zero and takes exactly `samples_per_pixel` samples: when samples 0 to n-1 all have color c, they sum to n copies of c |
| `Render.MainImageSize` | src/Part2/main_RT_scape2.cpp:151-175 | `main`'s image starts with `P3`, `1200 675`, `255` and has 810000 pixel entries |
| `Render.AllMissIsBlack` | src/Part2/main_RT_scape2.cpp:161-175 | a black background and camera rays that miss for every pixel and sample the loops shoot (0 <= i < width, 0 <= j < height, 0 <= s < samples_per_pixel) give an image whose every entry is black |
| `Render.SinglePixelEmitter` | src/Part2/main_RT_scape2.cpp:161-175 | a 1x1 image with one sample hitting a pure emitter is the header and one entry holding that emission |
| `Scene.Base` | src/Part2/main_RT_scape2.cpp:107-118 | the surface under a chain of wrappers is a primitive |
| `Scene.WrapChainBase` | src/Part2/main_RT_scape2.cpp:107-118 | every surface is its base primitive wrapped in its chain of wrappers, outermost first |
| `Scene.ChainOfWrap` | src/Part2/main_RT_scape2.cpp:107-118 | wrapping a primitive gives back the same wrappers in the same order and the same primitive |
| `Scene.SceneObjects` | src/Part2/main_RT_scape2.cpp:47-119 | the 28 objects of the scene with their materials and wrappers, in the order of the `add` calls |
| `Scene.MyRTScape2` | src/Part2/main_RT_scape2.cpp:43-122 | the 28 `add` calls, with box1, box2 and box3 reassigned to their wrappers before being added, produce exactly the objects of `SceneObjects`, in call order |
| `Scene.SceneKinds` | src/Part2/main_RT_scape2.cpp:47-119 | the scene holds 28 objects: 18 spheres, then one xy rectangle, six yz rectangles and three boxes |
| `Scene.SceneTransforms` | src/Part2/main_RT_scape2.cpp:107-119 | the first 25 objects are bare primitives; box1 is rotated by 11; box2 and box3 are rotated by 11 first and translated outermost, by (1.2,0,1.2) and (1.7,0.9,1.3) |
| `Scene.SceneBoxes` | src/Part2/main_RT_scape2.cpp:105-119 | the three boxes share the base box (1,0,1)-(2,1,2); box1 and box3 share the metal material and box2 has another one |
| `Scene.SceneEmitters` | src/Part2/main_RT_scape2.cpp:67-102 | exactly 12 objects emit light: the four red spheres, the sun, the doorway and the six side doors |
| `Scene.SunInsideShell` | src/Part2/main_RT_scape2.cpp:85-89 | the emitting sun sits inside a larger dielectric sphere with the same center |

## Left out

- Intersection: `world.hit`, the sphere, rectangle and box tests, the BVH, and the coordinate changes of `rotate_y` and `translate`. Their headers are not part of this model, so `hit` is an oracle and wrappers are values only.
- Material laws: how `lambertian`, `metal`, `dielectric` and `diffuse_light` emit and scatter. These are oracles in `World`, and `Scene.Material` keeps only their parameters.
- Randomness inside `scatter`: the materials draw random numbers when they scatter. The model freezes those draws into one fixed `scatter` function of (ray, record), shared by every bounce and every sample. So in the model two samples with the same camera ray always get the same color; no proved property depends on this.
- `camera::get_ray`, lens jitter, shutter time, `random_double`, and the division of `(i + random)` by `image_width-1` and `image_height-1`. All of it is folded into the oracle `cameraRay(i, j, s)`.
- `write_color`: averaging, gamma, clamping and integer formatting. Entries record its arguments instead.
- Floating point: colors and coordinates are exact reals. The 675 for the image height agrees with IEEE doubles for 1200 / (16.0 / 9.0), but rounding is not modelled in general.
- The stderr progress counter and the timing file written after rendering. These are side-channel I/O and do not affect the image.
- Hittable lists as objects: the list `myRTscape2` builds is a local sequence that each `add` extends.
