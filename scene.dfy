/** The scene builder `myRTscape2` of src/Part2/main_RT_scape2.cpp, as
    surface trees: primitives carrying one material each, and the
    `rotate_y` / `translate` wrappers, each owning exactly one child.
    Intersection itself (sphere, rectangles, box, BVH, the wrappers'
    coordinate changes) is not part of this model. */
module Scene {
  import opened Colors

  datatype Vec3 = Vec3(x: real, y: real, z: real)

  /** The material laws the scene uses, by their parameters. */
  datatype Material =
    | Lambertian(albedo: Color)
    | Metal(albedo: Color, fuzz: real)
    | Dielectric(refractionIndex: real)
    | DiffuseLight(emit: Color)

  datatype Surface =
    | Sphere(center: Vec3, radius: real, mat: Material)
    | XYRect(x0: real, x1: real, y0: real, y1: real, k: real, mat: Material)
    | YZRect(y0: real, y1: real, z0: real, z1: real, k: real, mat: Material)
    | Box(pMin: Vec3, pMax: Vec3, mat: Material)
    | RotateY(child: Surface, angle: real)
    | Translate(child: Surface, offset: Vec3)
  {
    predicate IsTransform()
    {
      RotateY? || Translate?
    }
  }

  /** One transform wrapper, without its child. */
  datatype Wrapper = RotateYBy(angle: real) | TranslateBy(offset: Vec3)

  // ---------------------------------------------------------------------
  // Transform chains

  /** The primitive at the bottom of a chain of wrappers. */
  function Base(s: Surface): (b: Surface)
    ensures !b.IsTransform()
  {
    match s
    case RotateY(c, _) => Base(c)
    case Translate(c, _) => Base(c)
    case _ => s
  }

  /** The wrappers around the base primitive, outermost first. */
  function Chain(s: Surface): seq<Wrapper>
  {
    match s
    case RotateY(c, a) => [RotateYBy(a)] + Chain(c)
    case Translate(c, v) => [TranslateBy(v)] + Chain(c)
    case _ => []
  }

  /** Wraps `b` in the given wrappers; the last one is applied first, the first one ends outermost. */
  function Wrap(ws: seq<Wrapper>, b: Surface): Surface
  {
    if ws == [] then b
    else
      match ws[0]
      case RotateYBy(a) => RotateY(Wrap(ws[1..], b), a)
      case TranslateBy(v) => Translate(Wrap(ws[1..], b), v)
  }

  /** A surface is exactly its base primitive wrapped in its chain. */
  lemma {:induction false} WrapChainBase(s: Surface)
    ensures Wrap(Chain(s), Base(s)) == s
  {
    match s
    case RotateY(c, a) =>
      WrapChainBase(c);
      assert Chain(s)[1..] == Chain(c);
    case Translate(c, v) =>
      WrapChainBase(c);
      assert Chain(s)[1..] == Chain(c);
    case _ =>
  }

  /** Wrapping a primitive and taking the chain apart again gives back the wrappers and the primitive. */
  lemma {:induction false} ChainOfWrap(ws: seq<Wrapper>, b: Surface)
    requires !b.IsTransform()
    ensures Chain(Wrap(ws, b)) == ws && Base(Wrap(ws, b)) == b
    decreases |ws|
  {
    if ws != [] {
      ChainOfWrap(ws[1..], b);
    }
  }

  /** The material a surface is drawn with: its base primitive's (a wrapper has none of its own). */
  function MaterialOf(s: Surface): Material
  {
    Base(s).mat
  }

  predicate IsEmitter(s: Surface)
  {
    MaterialOf(s).DiffuseLight?
  }

  // ---------------------------------------------------------------------
  // The scene

  datatype Kind = SphereKind | XYRectKind | YZRectKind | BoxKind | WrapperKind

  function PrimitiveKind(s: Surface): Kind
  {
    match s
    case Sphere(_, _, _) => SphereKind
    case XYRect(_, _, _, _, _, _) => XYRectKind
    case YZRect(_, _, _, _, _, _) => YZRectKind
    case Box(_, _, _) => BoxKind
    case _ => WrapperKind
  }

  /** The kind of the k-th object `myRTscape2` adds: 18 spheres, one xy
      rectangle, six yz rectangles, three boxes. */
  function ExpectedKind(k: int): Kind
  {
    if k < 18 then SphereKind else if k == 18 then XYRectKind else if k < 25 then YZRectKind else BoxKind
  }

  /** The objects of the scene, in the order `myRTscape2` adds them. */
  function SceneObjects(): (objects: seq<Surface>)
    ensures |objects| == 28
  {
    [ Sphere(Vec3(0.0, -1000.0, 0.0), 1000.0, Lambertian(Color(0.686, 0.2, 0.039))),
      Sphere(Vec3(-0.5, 1.5, -1.0), 1.5, Metal(Color(0.78, 0.84, 0.835), 0.1)),
      Sphere(Vec3(4.8, 0.066, 2.0), 0.3, Metal(Color(0.78, 0.84, 0.835), 0.1)),
      Sphere(Vec3(-7.0, 0.4, 0.6), 0.3, Metal(Color(0.78, 0.84, 0.835), 0.1)),
      Sphere(Vec3(0.0, 0.066, 0.3), 0.3, Metal(Color(0.78, 0.84, 0.835), 0.1)),
      Sphere(Vec3(-0.3, 0.066, 4.0), 0.3, Metal(Color(0.78, 0.84, 0.835), 0.1)),
      Sphere(Vec3(4.0, 0.2, -0.5), 0.5, Metal(Color(0.78, 0.84, 0.835), 0.1)),
      Sphere(Vec3(3.5, 2.0, -5.0), 0.4, Dielectric(0.4)),
      Sphere(Vec3(4.1, 1.1, -4.5), 0.4, Dielectric(0.4)),
      Sphere(Vec3(4.0, 2.0, -5.0), 0.6, DiffuseLight(Color(9.0, 0.0, 0.0))),
      Sphere(Vec3(3.3, 0.67, -3.9), 0.2, DiffuseLight(Color(9.0, 0.0, 0.0))),
      Sphere(Vec3(3.85, 1.33, -4.9), 0.4, DiffuseLight(Color(9.0, 0.0, 0.0))),
      Sphere(Vec3(4.1, 0.43, -5.11), 0.8, DiffuseLight(Color(9.0, 0.0, 0.0))),
      Sphere(Vec3(3.65, 0.82, -1.5), 0.25, Lambertian(Color(0.22, 0.016, 0.016))),
      Sphere(Vec3(-3.5, 1.2, 3.5), 1.0, Lambertian(Color(0.22, 0.016, 0.016))),
      Sphere(Vec3(5.1, 2.47, -4.83), 0.45, Lambertian(Color(0.22, 0.016, 0.016))),
      Sphere(Vec3(-20.0, 10.0, -50.0), 4.5, DiffuseLight(Color(20.0, 0.0, 0.0))),
      Sphere(Vec3(-20.0, 10.0, -50.0), 5.0, Dielectric(20.0)),
      XYRect(3.0, 5.0, 0.25, 3.0, -5.0, DiffuseLight(Color(4.0, 4.0, 4.0))),
      YZRect(1.0, 3.0, -2.0, 0.0, -5.0, DiffuseLight(Color(20.0, 2.0, 4.0))),
      YZRect(1.0, 3.0, 0.0, 2.0, -5.0, DiffuseLight(Color(20.0, 2.0, 4.0))),
      YZRect(1.0, 3.0, 3.0, 5.0, -5.0, DiffuseLight(Color(20.0, 2.0, 4.0))),
      YZRect(1.0, 3.0, 6.0, 8.0, -5.0, DiffuseLight(Color(20.0, 2.0, 4.0))),
      YZRect(1.0, 3.0, 9.0, 11.0, -5.0, DiffuseLight(Color(20.0, 2.0, 4.0))),
      YZRect(1.0, 3.0, 12.0, 14.0, -5.0, DiffuseLight(Color(20.0, 2.0, 4.0))),
      RotateY(Box(Vec3(1.0, 0.0, 1.0), Vec3(2.0, 1.0, 2.0), Metal(Color(0.78, 0.84, 0.835), 0.1)), 11.0),
      Translate(RotateY(Box(Vec3(1.0, 0.0, 1.0), Vec3(2.0, 1.0, 2.0), Lambertian(Color(0.15, 0.05, 0.65))), 11.0), Vec3(1.2, 0.0, 1.2)),
      Translate(RotateY(Box(Vec3(1.0, 0.0, 1.0), Vec3(2.0, 1.0, 2.0), Metal(Color(0.78, 0.84, 0.835), 0.1)), 11.0), Vec3(1.7, 0.9, 1.3))
    ]
  }

  /** `myRTscape2()`: the list of objects added, in the order of the `add` calls. */
  method MyRTScape2() returns (objects: seq<Surface>)
    ensures objects == SceneObjects()
  {
    objects := [];

    var material1 := Lambertian(Color(0.686, 0.2, 0.039));
    objects := objects + [Sphere(Vec3(0.0, -1000.0, 0.0), 1000.0, material1)];
    var material2 := Metal(Color(0.78, 0.84, 0.835), 0.1);
    objects := objects + [Sphere(Vec3(-0.5, 1.5, -1.0), 1.5, material2)];

    objects := objects + [Sphere(Vec3(4.8, 0.066, 2.0), 0.3, material2)];
    objects := objects + [Sphere(Vec3(-7.0, 0.4, 0.6), 0.3, material2)];
    objects := objects + [Sphere(Vec3(0.0, 0.066, 0.3), 0.3, material2)];
    objects := objects + [Sphere(Vec3(-0.3, 0.066, 4.0), 0.3, material2)];
    objects := objects + [Sphere(Vec3(4.0, 0.2, -0.5), 0.5, material2)];

    var material3 := Dielectric(0.4);
    objects := objects + [Sphere(Vec3(3.5, 2.0, -5.0), 0.4, material3)];
    objects := objects + [Sphere(Vec3(4.1, 1.1, -4.5), 0.4, material3)];

    var material4 := DiffuseLight(Color(9.0, 0.0, 0.0));
    objects := objects + [Sphere(Vec3(4.0, 2.0, -5.0), 0.6, material4)];
    objects := objects + [Sphere(Vec3(3.3, 0.67, -3.9), 0.2, material4)];

    var material5 := DiffuseLight(Color(9.0, 0.0, 0.0));
    objects := objects + [Sphere(Vec3(3.85, 1.33, -4.9), 0.4, material5)];
    objects := objects + [Sphere(Vec3(4.1, 0.43, -5.11), 0.8, material5)];

    var material6 := Lambertian(Color(0.22, 0.016, 0.016));
    objects := objects + [Sphere(Vec3(3.65, 0.82, -1.5), 0.25, material6)];
    objects := objects + [Sphere(Vec3(-3.5, 1.2, 3.5), 1.0, material6)];

    objects := objects + [Sphere(Vec3(5.1, 2.47, -4.83), 0.45, material6)];

    // the sun: an emitter inside a dielectric shell of the same center
    var material7 := DiffuseLight(Color(20.0, 0.0, 0.0));
    objects := objects + [Sphere(Vec3(-20.0, 10.0, -50.0), 4.5, material7)];
    var material8 := Dielectric(20.0);
    objects := objects + [Sphere(Vec3(-20.0, 10.0, -50.0), 5.0, material8)];

    var difflightW := DiffuseLight(Color(4.0, 4.0, 4.0));
    objects := objects + [XYRect(3.0, 5.0, 0.25, 3.0, -5.0, difflightW)];

    var difflightOffW := DiffuseLight(Color(20.0, 2.0, 4.0));
    objects := objects + [YZRect(1.0, 3.0, -2.0, 0.0, -5.0, difflightOffW)];
    objects := objects + [YZRect(1.0, 3.0, 0.0, 2.0, -5.0, difflightOffW)];
    objects := objects + [YZRect(1.0, 3.0, 3.0, 5.0, -5.0, difflightOffW)];
    objects := objects + [YZRect(1.0, 3.0, 6.0, 8.0, -5.0, difflightOffW)];
    objects := objects + [YZRect(1.0, 3.0, 9.0, 11.0, -5.0, difflightOffW)];
    objects := objects + [YZRect(1.0, 3.0, 12.0, 14.0, -5.0, difflightOffW)];

    // cube of cubes
    var blue := Lambertian(Color(0.15, 0.05, 0.65));
    var metalB := Metal(Color(0.78, 0.84, 0.835), 0.1);
    var box1 := Box(Vec3(1.0, 0.0, 1.0), Vec3(2.0, 1.0, 2.0), metalB);
    box1 := RotateY(box1, 11.0);
    objects := objects + [box1];

    var box2 := Box(Vec3(1.0, 0.0, 1.0), Vec3(2.0, 1.0, 2.0), blue);
    box2 := RotateY(box2, 11.0);
    box2 := Translate(box2, Vec3(1.2, 0.0, 1.2));
    objects := objects + [box2];

    var box3 := Box(Vec3(1.0, 0.0, 1.0), Vec3(2.0, 1.0, 2.0), metalB);
    box3 := RotateY(box3, 11.0);
    box3 := Translate(box3, Vec3(1.7, 0.9, 1.3));
    objects := objects + [box3];
  }

  // ---------------------------------------------------------------------
  // What the scene consists of

  /** 28 objects: 18 spheres, one xy rectangle, six yz rectangles, three boxes. */
  lemma SceneKinds()
    ensures |SceneObjects()| == 28
    ensures forall k :: 0 <= k < 28 ==> PrimitiveKind(Base(SceneObjects()[k])) == ExpectedKind(k)
  {
  }

  /** The 25 objects before the boxes are added bare; each box is rotated by 11 degrees
      about the vertical axis first, and the second and third are then translated. */
  lemma SceneTransforms()
    ensures forall k :: 0 <= k < 25 ==> Chain(SceneObjects()[k]) == []
    ensures Chain(SceneObjects()[25]) == [RotateYBy(11.0)]
    ensures Chain(SceneObjects()[26]) == [TranslateBy(Vec3(1.2, 0.0, 1.2)), RotateYBy(11.0)]
    ensures Chain(SceneObjects()[27]) == [TranslateBy(Vec3(1.7, 0.9, 1.3)), RotateYBy(11.0)]
  {
  }

  /** The three boxes share one base geometry; the first and third share the metal, the second is blue. */
  lemma SceneBoxes()
    ensures forall k :: 25 <= k < 28 ==> Base(SceneObjects()[k]).Box? && Base(SceneObjects()[k]).pMin == Vec3(1.0, 0.0, 1.0)
    ensures forall k :: 25 <= k < 28 ==> Base(SceneObjects()[k]).pMax == Vec3(2.0, 1.0, 2.0)
    ensures MaterialOf(SceneObjects()[25]) == MaterialOf(SceneObjects()[27]) != MaterialOf(SceneObjects()[26])
  {
  }

  /** Exactly the four red spheres, the sun, the doorway and the six side doors emit light. */
  lemma SceneEmitters()
    ensures forall k :: 0 <= k < 28 ==> (IsEmitter(SceneObjects()[k]) <==> k in {9, 10, 11, 12, 16, 18, 19, 20, 21, 22, 23, 24})
  {
  }

  /** The sun is an emitting sphere inside a larger dielectric sphere of the same center. */
  lemma SunInsideShell()
    ensures SceneObjects()[16].Sphere? && SceneObjects()[17].Sphere?
    ensures SceneObjects()[16].center == SceneObjects()[17].center
    ensures SceneObjects()[16].radius < SceneObjects()[17].radius
    ensures SceneObjects()[16].mat.DiffuseLight? && SceneObjects()[17].mat.Dielectric?
  {
  }
}
