/**
 * What `init` writes into the four attribute buffers (src/ParticleSystem.js:31-59), as functions
 * of the parameters, the foreign maths routines and the stream of `Math.random()` draws.
 */
module Sampling {
  datatype Rgb = Rgb(r: real, g: real, b: real)
  datatype Vec3 = Vec3(x: real, y: real, z: real)

  /**
   * The foreign routines `init` calls: `Math.cbrt`, `Math.sin`, `Math.cos`, `Math.acos` and the
   * colour parser behind `new THREE.Color(text)`.
   */
  datatype Library = Library(
    cbrt: real -> real, sin: real -> real, cos: real -> real, acos: real -> real,
    parseColor: string -> Rgb)

  /** `Math.cbrt` in exact arithmetic: a non-negative cube root that cubes back. */
  ghost predicate CbrtValid(lib: Library) {
    forall u :: 0.0 <= u ==> 0.0 <= lib.cbrt(u) && lib.cbrt(u) * lib.cbrt(u) * lib.cbrt(u) == u
  }

  /** `Math.sin` and `Math.cos` in exact arithmetic: sin² + cos² = 1. */
  ghost predicate TrigValid(lib: Library) {
    forall a :: lib.sin(a) * lib.sin(a) + lib.cos(a) * lib.cos(a) == 1.0
  }

  /** `Math.acos` in exact arithmetic: the cosine of `acos x` is `x` on [-1, 1]. */
  ghost predicate AcosValid(lib: Library) {
    forall x :: -1.0 <= x <= 1.0 ==> lib.cos(lib.acos(x)) == x
  }

  /** The facts about the maths routines that the bounds below rely on, in exact arithmetic. */
  ghost predicate LibraryValid(lib: Library) {
    CbrtValid(lib) && TrigValid(lib) && AcosValid(lib)
  }

  /** `Math.random()` returns a value in [0, 1); draw number `i` of the stream is `random(i)`. */
  ghost predicate UnitDraws(random: nat -> real) {
    forall i: nat :: 0.0 <= random(i) < 1.0
  }

  /** `Math.PI`. */
  const Pi: real := 3.141592653589793

  /** `init` calls `Math.random()` seven times per particle (src/ParticleSystem.js:42-58). */
  const DrawsPerParticle: nat := 7

  /** The stream position of draw `slot` of particle `i` in a fill that starts at `base`. */
  function DrawIndex(base: nat, i: nat, slot: nat): nat {
    base + DrawsPerParticle * i + slot
  }

  /** Line 42: the distance from the centre, `radius * cbrt(u)`. */
  function SampledRadius(lib: Library, radius: real, u: real): real {
    radius * lib.cbrt(u)
  }

  /** Line 43: the azimuth `u * 2 * PI`. */
  function Azimuth(u: real): real {
    u * 2.0 * Pi
  }

  /** Line 44: the polar angle `acos(2u - 1)`. */
  function Polar(lib: Library, u: real): real {
    lib.acos(2.0 * u - 1.0)
  }

  /** Lines 46-48: spherical to Cartesian coordinates. */
  function Cartesian(lib: Library, r: real, theta: real, phi: real): Vec3 {
    Vec3(r * lib.sin(phi) * lib.cos(theta), r * lib.sin(phi) * lib.sin(theta), r * lib.cos(phi))
  }

  /** Lines 56-58: a draw in [0, 1) mapped to `(u - 0.5) * 2`. */
  function Jitter(u: real): (j: real)
    ensures 0.0 <= u < 1.0 ==> -1.0 <= j < 1.0
    ensures j == 2.0 * u - 1.0
  {
    (u - 0.5) * 2.0
  }

  /** Lines 42-48: particle `i`'s position from its first three draws. */
  function PositionOf(lib: Library, random: nat -> real, base: nat, radius: real, i: nat): Vec3 {
    Cartesian(lib,
      SampledRadius(lib, radius, random(DrawIndex(base, i, 0))),
      Azimuth(random(DrawIndex(base, i, 1))),
      Polar(lib, random(DrawIndex(base, i, 2))))
  }

  /** Line 54: particle `i`'s scale is its fourth draw, so it lies in [0, 1). */
  function ScaleOf(random: nat -> real, base: nat, i: nat): (s: real)
    ensures UnitDraws(random) ==> 0.0 <= s < 1.0
  {
    random(DrawIndex(base, i, 3))
  }

  /** Lines 56-58: particle `i`'s randomness vector from its last three draws, each in [-1, 1). */
  function JitterOf(random: nat -> real, base: nat, i: nat): (v: Vec3)
    ensures UnitDraws(random) ==> -1.0 <= v.x < 1.0 && -1.0 <= v.y < 1.0 && -1.0 <= v.z < 1.0
  {
    Vec3(Jitter(random(DrawIndex(base, i, 4))), Jitter(random(DrawIndex(base, i, 5))), Jitter(random(DrawIndex(base, i, 6))))
  }

  /** Component `c` of a triple, in buffer order x, y, z. */
  function Component(v: Vec3, c: nat): real {
    if c == 0 then v.x else if c == 1 then v.y else v.z
  }

  /** Channel `c` of a colour, in buffer order r, g, b. */
  function Channel(rgb: Rgb, c: nat): real {
    if c == 0 then rgb.r else if c == 1 then rgb.g else rgb.b
  }

  /** Entry `j` of the `position` buffer: coordinate `j % 3` of particle `j / 3`. */
  function PositionEntry(lib: Library, random: nat -> real, base: nat, radius: real, j: nat): real {
    Component(PositionOf(lib, random, base, radius, j / 3), j % 3)
  }

  /** Entry `j` of the `color` buffer: channel `j % 3` of the colour. */
  function ColorEntry(rgb: Rgb, j: nat): real {
    Channel(rgb, j % 3)
  }

  /** Entry `j` of the `aRandomness` buffer: component `j % 3` of particle `j / 3`'s jitter. */
  function JitterEntry(random: nat -> real, base: nat, j: nat): real {
    Component(JitterOf(random, base, j / 3), j % 3)
  }

  /** Flat index `3 * i + c` is component `c` of triple `i`. */
  lemma TripleIndex(i: nat, c: nat)
    requires c < 3
    ensures (3 * i + c) / 3 == i && (3 * i + c) % 3 == c
  {
  }

  /** Triple `i` of the position buffer is the position sampled for particle `i`. */
  lemma PositionsLayout(lib: Library, random: nat -> real, base: nat, radius: real, i: nat)
    ensures Vec3(PositionEntry(lib, random, base, radius, 3 * i), PositionEntry(lib, random, base, radius, 3 * i + 1),
                 PositionEntry(lib, random, base, radius, 3 * i + 2))
            == PositionOf(lib, random, base, radius, i)
  {
    TripleIndex(i, 0);
    TripleIndex(i, 1);
    TripleIndex(i, 2);
  }

  /** Triple `i` of the randomness buffer is the jitter vector drawn for particle `i`. */
  lemma JitterLayout(random: nat -> real, base: nat, i: nat)
    ensures Vec3(JitterEntry(random, base, 3 * i), JitterEntry(random, base, 3 * i + 1), JitterEntry(random, base, 3 * i + 2))
            == JitterOf(random, base, i)
  {
    TripleIndex(i, 0);
    TripleIndex(i, 1);
    TripleIndex(i, 2);
  }

  /** Triple `i` of the colour buffer is the colour itself, for every particle `i`. */
  lemma ColorsLayout(rgb: Rgb, i: nat)
    ensures Rgb(ColorEntry(rgb, 3 * i), ColorEntry(rgb, 3 * i + 1), ColorEntry(rgb, 3 * i + 2)) == rgb
  {
    TripleIndex(i, 0);
    TripleIndex(i, 1);
    TripleIndex(i, 2);
  }

  /** The cube root maps [0, 1) into [0, 1). */
  lemma CbrtBelowOne(lib: Library, u: real)
    requires CbrtValid(lib)
    requires 0.0 <= u < 1.0
    ensures 0.0 <= lib.cbrt(u) < 1.0
  {
    var c := lib.cbrt(u);
    assert 0.0 <= c && c * c * c == u;
    if c >= 1.0 {
      assert false;
    }
  }

  /** Line 42 with a draw in [0, 1) and a positive radius: the distance lies in [0, radius). */
  lemma SampledRadiusInRange(lib: Library, radius: real, u: real)
    requires CbrtValid(lib) && 0.0 <= u < 1.0 && 0.0 < radius
    ensures 0.0 <= SampledRadius(lib, radius, u) < radius
  {
    var c := lib.cbrt(u);
    CbrtBelowOne(lib, u);
    ScaleBelow(radius, c);
    assert SampledRadius(lib, radius, u) == radius * c;
  }

  /** Line 43 with a draw in [0, 1): the azimuth lies in [0, 2 PI). */
  lemma AzimuthInRange(u: real)
    requires 0.0 <= u < 1.0
    ensures 0.0 <= Azimuth(u) < 2.0 * Pi
  {
  }

  /** Line 44 with a draw in [0, 1]: the cosine of the polar angle is `2u - 1`. */
  lemma PolarCosine(lib: Library, u: real)
    requires AcosValid(lib) && 0.0 <= u <= 1.0
    ensures lib.cos(Polar(lib, u)) == 2.0 * u - 1.0
  {
  }

  /**
   * The cube root makes the draw uniform by volume: the cube of the sampled distance is the draw
   * times the cube of the radius, so the chance of landing within distance `rho` is `(rho/radius)^3`.
   */
  lemma SampledRadiusCubed(lib: Library, radius: real, u: real)
    requires CbrtValid(lib)
    requires 0.0 <= u
    ensures var r := SampledRadius(lib, radius, u); r * r * r == radius * radius * radius * u
  {
    var c := lib.cbrt(u);
    assert c * c * c == u;
    calc {
      (radius * c) * (radius * c) * (radius * c);
      (radius * radius * radius) * (c * c * c);
    }
  }

  /** Squared distance from the origin. */
  function Norm2(v: Vec3): real {
    v.x * v.x + v.y * v.y + v.z * v.z
  }

  /** Spherical to Cartesian conversion keeps the distance from the centre. */
  lemma CartesianNorm(lib: Library, r: real, theta: real, phi: real)
    requires TrigValid(lib)
    ensures Norm2(Cartesian(lib, r, theta, phi)) == r * r
  {
    var s, c := lib.sin(phi), lib.cos(phi);
    var st, ct := lib.sin(theta), lib.cos(theta);
    assert s * s + c * c == 1.0;
    assert st * st + ct * ct == 1.0;
    var a := r * s;
    var v := Cartesian(lib, r, theta, phi);
    assert v.x == a * ct && v.y == a * st && v.z == r * c;
    calc {
      v.x * v.x + v.y * v.y;
      a * a * (ct * ct + st * st);
      a * a;
    }
    calc {
      a * a + v.z * v.z;
      r * r * (s * s + c * c);
      r * r;
    }
  }

  /** Every position sampled with draws in [0, 1) lies strictly inside the sphere. */
  lemma PositionInsideSphere(lib: Library, random: nat -> real, base: nat, radius: real, i: nat)
    requires LibraryValid(lib) && UnitDraws(random)
    requires 0.0 < radius
    ensures Norm2(PositionOf(lib, random, base, radius, i)) < radius * radius
  {
    var u := random(DrawIndex(base, i, 0));
    var r := SampledRadius(lib, radius, u);
    SampledRadiusInRange(lib, radius, u);
    CartesianNorm(lib, r, Azimuth(random(DrawIndex(base, i, 1))), Polar(lib, random(DrawIndex(base, i, 2))));
    SquareBelow(r, radius);
  }

  lemma SquareBelow(r: real, radius: real)
    requires 0.0 <= r < radius
    ensures r * r < radius * radius
  {
    Positive(radius - r, radius + r);
    assert (radius - r) * (radius + r) == radius * radius - r * r;
  }

  lemma ScaleBelow(a: real, c: real)
    requires 0.0 < a && 0.0 <= c < 1.0
    ensures 0.0 <= a * c < a
  {
    Positive(a, 1.0 - c);
    assert a * (1.0 - c) == a - a * c;
  }

  lemma Positive(a: real, b: real)
    requires 0.0 < a && 0.0 < b
    ensures 0.0 < a * b
  {
  }

  /**
   * The `acos(2u - 1)` polar draw makes the height linear in the draw: `z = r * (2u - 1)`, which is
   * uniform in [-r, r) for a uniform `u`, so points are uniform over each shell.
   */
  lemma PolarHeightLinear(lib: Library, random: nat -> real, base: nat, radius: real, i: nat)
    requires LibraryValid(lib) && UnitDraws(random)
    ensures var u := random(DrawIndex(base, i, 2));
            PositionOf(lib, random, base, radius, i).z == SampledRadius(lib, radius, random(DrawIndex(base, i, 0))) * (2.0 * u - 1.0)
  {
    var u := random(DrawIndex(base, i, 2));
    assert 0.0 <= u < 1.0;
    PolarCosine(lib, u);
  }

  /** Every randomness component lies in [-1, 1). */
  lemma JitterInRange(random: nat -> real, base: nat, j: nat)
    requires UnitDraws(random)
    ensures -1.0 <= JitterEntry(random, base, j) < 1.0
  {
    var c := j % 3;
    var u := random(DrawIndex(base, j / 3, 4 + c));
    assert 0.0 <= u < 1.0;
  }
}
