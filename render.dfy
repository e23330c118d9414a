/** The render loop of `main` in src/Part2/main_RT_scape2.cpp: the PPM
    header, then one `write_color` call per pixel, rows from the top
    (`image_height-1`) down to 0 and columns from 0 to `image_width-1`,
    each pixel the sum of `samples_per_pixel` calls to `ray_color`.

    The output stream is modelled as the sequence of lines written to it.
    The camera, the two `random_double` draws and the normalisation to
    (u, v) are hidden in the oracle `cameraRay(i, j, s)`: the ray of
    sample `s` of pixel column `i`, row `j`. */
module Render {
  import opened Colors
  import opened Wrappers
  import opened Integrator

  const MagicToken: string := "P3"
  const MaxChannel: int := 255

  /** One line of the plain-text PPM stream. `WriteColor` records the
      arguments of `write_color(std::cout, pixel_color, samples_per_pixel)`:
      the summed (not yet averaged) color and the sample count. */
  datatype Line =
    | Magic(token: string)
    | Size(width: int, height: int)
    | MaxValue(value: int)
    | WriteColor(pixelColor: Color, samplesPerPixel: int)

  /** The configuration `main` renders with. */
  datatype RenderSetup<!Ray, !Rec> = RenderSetup(
    width: int,
    height: int,
    samplesPerPixel: int,
    maxDepth: int,
    background: Color,
    world: World<Ray, Rec>,
    cameraRay: (int, int, int) -> Ray)

  /** The number of iterations of `for (int k = 0; k < n; ++k)`. */
  function Extent(n: int): nat
  {
    if n > 0 then n else 0
  }

  // ---------------------------------------------------------------------
  // Image size

  /** `static_cast<int>` of a real: truncation toward zero. */
  function TruncateToInt(x: real): (n: int)
    ensures x >= 0.0 ==> n >= 0 && n as real <= x < n as real + 1.0
    ensures x < 0.0 ==> n <= 0 && n as real - 1.0 < x <= n as real
  {
    if x >= 0.0 then x.Floor else - ((-x).Floor)
  }

  /** `image_height = static_cast<int>(image_width / aspect_ratio)`. */
  function ImageHeight(width: int, aspectRatio: real): (h: int)
    requires aspectRatio != 0.0
    ensures var q := width as real / aspectRatio;
            if q >= 0.0 then 0 <= h && h as real <= q < h as real + 1.0
            else h <= 0 && h as real - 1.0 < q <= h as real
  {
    TruncateToInt(width as real / aspectRatio)
  }

  const DefaultAspectRatio: real := 16.0 / 9.0
  const DefaultWidth: int := 1200
  const DefaultSamplesPerPixel: int := 200
  const DefaultMaxDepth: int := 25

  /** The setup of `main`: 1200 pixels wide at 16:9, 200 samples per pixel,
      25 bounces, black background. */
  function MainSetup<Ray, Rec>(world: World<Ray, Rec>, cameraRay: (int, int, int) -> Ray): (s: RenderSetup<Ray, Rec>)
    ensures s.width == 1200 && s.height == 675
    ensures s.samplesPerPixel == 200 && s.maxDepth == 25 && s.background == Black
  {
    RenderSetup(DefaultWidth, ImageHeight(DefaultWidth, DefaultAspectRatio), DefaultSamplesPerPixel,
                DefaultMaxDepth, Black, world, cameraRay)
  }

  // ---------------------------------------------------------------------
  // The image as a function of the setup

  function Header(width: int, height: int): seq<Line>
  {
    [Magic(MagicToken), Size(width, height), MaxValue(MaxChannel)]
  }

  /** The color of sample `s` of pixel (i, j): `ray_color(cam.get_ray(u, v), background, world, max_depth)`. */
  function SampleColor<Ray, Rec>(setup: RenderSetup<Ray, Rec>, i: int, j: int, s: int): Color
  {
    RayColor(setup.cameraRay(i, j, s), setup.background, setup.world, setup.maxDepth)
  }

  /** The sum of the first `n` samples of pixel (i, j), added in order to a zero accumulator. */
  function PixelSum<Ray, Rec>(setup: RenderSetup<Ray, Rec>, i: int, j: int, n: int): (c: Color)
    ensures n <= 0 ==> c == Black
    ensures (forall s :: 0 <= s < n ==> NonNegative(SampleColor(setup, i, j, s))) ==> NonNegative(c)
    decreases n
  {
    if n <= 0 then Black else Add(PixelSum(setup, i, j, n - 1), SampleColor(setup, i, j, n - 1))
  }

  function PixelEntry<Ray, Rec>(setup: RenderSetup<Ray, Rec>, i: int, j: int): Line
  {
    WriteColor(PixelSum(setup, i, j, setup.samplesPerPixel), setup.samplesPerPixel)
  }

  /** Row `j`: columns 0 to width-1. */
  function Row<Ray, Rec>(setup: RenderSetup<Ray, Rec>, j: int): seq<Line>
  {
    seq(Extent(setup.width), i => PixelEntry(setup, i, j))
  }

  /** Rows height-1 down to `bottom`, in that order. */
  function ScanRows<Ray, Rec>(setup: RenderSetup<Ray, Rec>, bottom: int): seq<Line>
    decreases setup.height - bottom
  {
    if bottom >= setup.height then [] else ScanRows(setup, bottom + 1) + Row(setup, bottom)
  }

  /** Everything `main` writes to standard output. */
  function Image<Ray, Rec>(setup: RenderSetup<Ray, Rec>): (img: seq<Line>)
    ensures |img| >= 3 && img[..3] == Header(setup.width, setup.height)
  {
    Header(setup.width, setup.height) + ScanRows(setup, 0)
  }

  // ---------------------------------------------------------------------
  // The loop

  /** The sample loop of one pixel: `pixel_color` starts at zero and is
      incremented by `samples_per_pixel` calls to `ray_color`. */
  method AccumulatePixel<Ray, Rec>(setup: RenderSetup<Ray, Rec>, i: int, j: int) returns (pixelColor: Color)
    ensures pixelColor == PixelSum(setup, i, j, setup.samplesPerPixel)
  {
    pixelColor := Black;
    var s := 0;
    while s < setup.samplesPerPixel
      invariant 0 <= s <= Extent(setup.samplesPerPixel)
      invariant pixelColor == PixelSum(setup, i, j, s)
    {
      pixelColor := Add(pixelColor, RayColor(setup.cameraRay(i, j, s), setup.background, setup.world, setup.maxDepth));
      s := s + 1;
    }
  }

  /** The column loop of row `j`: appends one `write_color` entry per column, left to right. */
  method WriteRow<Ray, Rec>(setup: RenderSetup<Ray, Rec>, j: int, stream: seq<Line>) returns (out: seq<Line>)
    ensures out == stream + Row(setup, j)
  {
    out := stream;
    var i := 0;
    while i < setup.width
      invariant 0 <= i <= Extent(setup.width)
      invariant out == stream + Row(setup, j)[..i]
    {
      var pixelColor := AccumulatePixel(setup, i, j);
      RowPrefixStep(setup, j, i);
      out := out + [WriteColor(pixelColor, setup.samplesPerPixel)];
      i := i + 1;
    }
    assert Row(setup, j)[..i] == Row(setup, j);
  }

  /** The nested `j`, `i`, `s` loops of `main`, writing to a fresh stream. */
  method Render<Ray, Rec>(setup: RenderSetup<Ray, Rec>) returns (out: seq<Line>)
    ensures out == Image(setup)
    ensures |out| == 3 + Extent(setup.width) * Extent(setup.height)
    ensures out[..3] == Header(setup.width, setup.height)
    ensures forall k :: 3 <= k < |out| ==>
              out[k] == PixelEntry(setup, (k - 3) % setup.width, setup.height - 1 - (k - 3) / setup.width)
  {
    out := Header(setup.width, setup.height);
    var j := setup.height - 1;
    while j >= 0
      invariant j < setup.height
      invariant j >= -1 || j == setup.height - 1
      invariant out == Header(setup.width, setup.height) + ScanRows(setup, j + 1)
      decreases j
    {
      out := WriteRow(setup, j, out);
      assert ScanRows(setup, j) == ScanRows(setup, j + 1) + Row(setup, j);
      j := j - 1;
    }
    assert out == Image(setup);
    ImageLayout(setup);
  }

  // ---------------------------------------------------------------------
  // Scan order

  lemma RowPrefixStep<Ray, Rec>(setup: RenderSetup<Ray, Rec>, j: int, i: int)
    requires 0 <= i < Extent(setup.width)
    ensures Row(setup, j)[..i + 1] == Row(setup, j)[..i] + [PixelEntry(setup, i, j)]
  {
  }

  lemma DivModOf(q: int, w: int, i: int)
    requires w > 0 && 0 <= i < w
    ensures (q * w + i) / w == q && (q * w + i) % w == i
  {
    var k := q * w + i;
    var d := k / w - q;
    assert d * w == i - k % w;
    assert d >= 1 ==> d * w >= w;
    assert d <= -1 ==> d * w <= -w;
  }

  /** Entry k of rows height-1 .. bottom is pixel (k % width, height-1 - k / width). */
  lemma {:induction false} ScanRowsAt<Ray, Rec>(setup: RenderSetup<Ray, Rec>, bottom: int)
    requires 0 <= bottom <= setup.height
    ensures |ScanRows(setup, bottom)| == (setup.height - bottom) * Extent(setup.width)
    ensures forall k :: 0 <= k < |ScanRows(setup, bottom)| ==>
              ScanRows(setup, bottom)[k]
              == PixelEntry(setup, k % setup.width, setup.height - 1 - k / setup.width)
    decreases setup.height - bottom
  {
    if bottom < setup.height {
      ScanRowsAt(setup, bottom + 1);
      var w := Extent(setup.width);
      var q := setup.height - bottom - 1;
      assert q * w + w == (setup.height - bottom) * w;
      forall k | q * w <= k < |ScanRows(setup, bottom)|
        ensures ScanRows(setup, bottom)[k]
                == PixelEntry(setup, k % setup.width, setup.height - 1 - k / setup.width)
      {
        DivModOf(q, w, k - q * w);
      }
    }
  }

  /** The whole stream: the header, then width*height entries in scan order. */
  lemma ImageLayout<Ray, Rec>(setup: RenderSetup<Ray, Rec>)
    ensures |Image(setup)| == 3 + Extent(setup.width) * Extent(setup.height)
    ensures Image(setup)[..3] == Header(setup.width, setup.height)
    ensures forall k :: 3 <= k < |Image(setup)| ==>
              Image(setup)[k]
              == PixelEntry(setup, (k - 3) % setup.width, setup.height - 1 - (k - 3) / setup.width)
  {
    if setup.height > 0 {
      ScanRowsAt(setup, 0);
    }
    var img := Image(setup);
    forall k | 3 <= k < |img|
      ensures img[k] == PixelEntry(setup, (k - 3) % setup.width, setup.height - 1 - (k - 3) / setup.width)
    {
      assert img[k] == ScanRows(setup, 0)[k - 3];
    }
  }

  /** Every pixel (i, j) of the image has its entry at 3 + (height-1-j)*width + i. */
  lemma PixelPosition<Ray, Rec>(setup: RenderSetup<Ray, Rec>, i: int, j: int)
    requires 0 <= i < setup.width && 0 <= j < setup.height
    ensures var k := 3 + (setup.height - 1 - j) * setup.width + i;
            3 <= k < |Image(setup)| && Image(setup)[k] == PixelEntry(setup, i, j)
  {
    var w, q := setup.width, setup.height - 1 - j;
    var k := q * w + i;
    assert Extent(w) == w && Extent(setup.height) == setup.height;
    assert 0 <= k < w * setup.height by { RowMajorBound(q, w, i, setup.height); }
    assert k / w == q && k % w == i by { DivModOf(q, w, i); }
    ImageLayout(setup);
    assert Image(setup)[3 + k] == PixelEntry(setup, k % w, setup.height - 1 - k / w);
  }

  /** Entry m of a width x height scan lies in column m % w and row-from-top m / w of the image. */
  lemma IndexInRange(m: int, w: int, h: int)
    requires 0 <= m < Extent(w) * Extent(h)
    ensures 0 < w && 0 < h
    ensures 0 <= m % w < w && 0 <= m / w < h
  {
    assert w > 0 && h > 0;
    assert m == (m / w) * w + m % w;
  }

  lemma RowMajorBound(q: int, w: int, i: int, h: int)
    requires 0 <= q < h && 0 <= i < w
    ensures 0 <= q * w + i < w * h
  {
    assert (h - q - 1) * w >= 0;
    assert w * h == (h - q - 1) * w + q * w + w;
  }

  // ---------------------------------------------------------------------
  // Sample accumulation

  /** A pixel whose samples all have color `c` sums to exactly samples_per_pixel copies of `c`. */
  lemma {:induction false} SumOfEqualSamples<Ray, Rec>(setup: RenderSetup<Ray, Rec>, i: int, j: int, n: int, c: Color)
    requires forall s :: 0 <= s < n ==> SampleColor(setup, i, j, s) == c
    ensures PixelSum(setup, i, j, n) == Scale(Extent(n), c)
    decreases n
  {
    if n > 0 {
      SumOfEqualSamples(setup, i, j, n - 1, c);
      assert PixelSum(setup, i, j, n) == Add(Scale(n - 1, c), c);
      ScaleStep(n - 1, c);
    }
  }

  // ---------------------------------------------------------------------
  // End-to-end scenarios

  /** The image of `main`: a 1200 x 675 header followed by 810000 entries. */
  lemma MainImageSize<Ray, Rec>(world: World<Ray, Rec>, cameraRay: (int, int, int) -> Ray)
    ensures Image(MainSetup(world, cameraRay))[..3] == [Magic("P3"), Size(1200, 675), MaxValue(255)]
    ensures |Image(MainSetup(world, cameraRay))| == 3 + 810000
  {
    ImageLayout(MainSetup(world, cameraRay));
  }

  /** A black background and camera rays that all miss the scene give an all-black image. */
  lemma AllMissIsBlack<Ray, Rec>(setup: RenderSetup<Ray, Rec>)
    requires setup.background == Black
    requires forall i, j, s :: 0 <= i < setup.width && 0 <= j < setup.height && 0 <= s < setup.samplesPerPixel ==>
               setup.world.hit(setup.cameraRay(i, j, s), SearchInterval) == None
    ensures forall k :: 3 <= k < |Image(setup)| ==>
              Image(setup)[k] == WriteColor(Black, setup.samplesPerPixel)
  {
    ImageLayout(setup);
    forall k | 3 <= k < |Image(setup)|
      ensures Image(setup)[k] == WriteColor(Black, setup.samplesPerPixel)
    {
      var i, j := (k - 3) % setup.width, setup.height - 1 - (k - 3) / setup.width;
      IndexInRange(k - 3, setup.width, setup.height);
      forall s | 0 <= s < setup.samplesPerPixel ensures SampleColor(setup, i, j, s) == Black {
        if setup.maxDepth > 0 {
          MissIsBackground(setup.cameraRay(i, j, s), setup.background, setup.world, setup.maxDepth);
        }
      }
      SumOfEqualSamples(setup, i, j, setup.samplesPerPixel, Black);
    }
  }

  /** A 1x1 image with one sample whose ray hits a pure emitter is the header and that emission. */
  lemma SinglePixelEmitter<Ray, Rec>(setup: RenderSetup<Ray, Rec>, rec: Rec)
    requires setup.width == 1 && setup.height == 1 && setup.samplesPerPixel == 1 && setup.maxDepth > 0
    requires setup.world.hit(setup.cameraRay(0, 0, 0), SearchInterval) == Some(rec)
    requires setup.world.scatter(setup.cameraRay(0, 0, 0), rec) == None
    ensures Image(setup) == Header(1, 1) + [WriteColor(setup.world.emitted(rec), 1)]
  {
    assert ScanRows(setup, 1) == [];
    AddBlack(setup.world.emitted(rec));
  }
}
