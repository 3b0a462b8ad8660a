/**
 * The particle system object (src/ParticleSystem.js:3-142): its parameter record, its four
 * attribute buffers, the three shader uniforms and the `Points` object it keeps in the scene.
 */
module Particles {
  import opened Wrappers
  import opened Config
  import opened Sampling

  class ParticleSystem {
    /** The foreign maths and colour routines. */
    const lib: Library
    /** The `Math.random()` stream: draw number `i` is `random(i)`. */
    const random: nat -> real
    /** `window.devicePixelRatio`. */
    const dpr: real

    var params: Params

    /**
     * The `position`, `color`, `aScale` and `aRandomness` attribute buffers of the geometry, held
     * by value: nothing writes them after the fill of `init`.
     */
    var positions: seq<real>
    var colors: seq<real>
    var scales: seq<real>
    var randomness: seq<real>

    /** The material's uniforms. */
    var uTime: real
    var uSize: real
    var uSpeed: real

    /** How many draws of the random stream have been used so far. */
    var drawn: nat
    /** Where in the stream the current buffers' fill started. */
    ghost var base: nat

    /** The current `Points` object (with its geometry and material), by id; `None` is `null`. */
    var points: Option<nat>
    /** How many `Points` objects have been created; the next one gets this id. */
    var created: nat
    /** The ids of the `Points` objects in the scene. */
    ghost var scene: set<nat>
    /** The ids whose geometry and material have been disposed. */
    ghost var disposed: set<nat>

    /** The buffers hold exactly what a fill from `base` with the current parameters writes. */
    ghost predicate BuffersMatch()
      reads this`positions, this`colors, this`scales, this`randomness, this`base, this`drawn, this`params
    {
      && Filled(positions, colors, scales, randomness, lib, random, base, params)
      && drawn == base + DrawsPerParticle * params.count
    }

    /** The size and speed uniforms reflect the parameters. */
    ghost predicate UniformsMatch()
      reads this`uSize, this`uSpeed, this`params
    {
      uSize == params.size * dpr && uSpeed == params.speed
    }

    /** The latest `Points` object is the only one in the scene; every earlier one is disposed. */
    ghost predicate SceneMatch()
      reads this`created, this`points, this`scene, this`disposed
    {
      && 1 <= created
      && points == Some(created - 1)
      && scene == {created - 1}
      && (forall id: nat :: id in disposed <==> id < created - 1)
    }

    /** Before the first `init`: no `Points` object yet and an empty scene. */
    ghost predicate Unbuilt()
      reads this`created, this`points, this`scene, this`disposed
    {
      points == None && created == 0 && scene == {} && disposed == {}
    }

    ghost predicate Valid()
      reads this
    {
      BuffersMatch() && UniformsMatch() && SceneMatch()
    }

    /**
     * `new ParticleSystem(scene, count = 5000)` with an empty scene: the defaults, then `init`.
     * `new ParticleSystem(dpr, lib, random)` leaves out `count`, as src/main.js:44 does.
     */
    constructor (dpr: real, lib: Library, random: nat -> real, count: nat := 5000)
      ensures Valid()
      ensures this.dpr == dpr && this.lib == lib && this.random == random
      ensures params == Defaults(count)
      ensures base == 0 && uTime == 0.0
      ensures scene == {0} && disposed == {}
    {
      this.lib := lib;
      this.random := random;
      this.dpr := dpr;
      params := Defaults(count);
      positions, colors, scales, randomness := [], [], [], [];
      uTime, uSize, uSpeed := 0.0, 0.0, 0.0;
      drawn := 0;
      base := 0;
      points := None;
      created := 0;
      scene := {};
      disposed := {};
      new;
      Init();
    }

    /**
     * `init()`: take the old `Points` out of the scene and dispose it, fill four fresh buffers from
     * the random stream, reset the uniforms and put a new `Points` into the scene.
     */
    method Init()
      requires Unbuilt() || SceneMatch()
      modifies this
      ensures Valid()
      ensures params == old(params)
      ensures base == old(drawn) && drawn == old(drawn) + DrawsPerParticle * params.count
      ensures |positions| == 3 * params.count && |colors| == 3 * params.count
      ensures |scales| == params.count && |randomness| == 3 * params.count
      ensures uTime == 0.0
      ensures points == Some(old(created)) && created == old(created) + 1
      ensures old(points).Some? ==> old(points).value !in scene && old(points).value in disposed
      ensures disposed == old(disposed) + (if old(points).Some? then {old(points).value} else {})
    {
      Retire();
      Refill();
      ResetUniforms();
      Show();
      assert BuffersMatch() && UniformsMatch() && SceneMatch();
    }

    /** `init`, src/ParticleSystem.js:30-64: four new buffers, filled from where the random stream stands. */
    method Refill()
      modifies this`positions, this`colors, this`scales, this`randomness, this`base, this`drawn
      ensures BuffersMatch()
      ensures base == old(drawn)
    {
      var pos, col, sc, rnd, k := FillBuffers(lib, random, params, drawn);
      positions, colors, scales, randomness, base, drawn := pos[..], col[..], sc[..], rnd[..], drawn, k;
    }

    /** `init`, src/ParticleSystem.js:24-28: the current `Points` leaves the scene and is disposed. */
    method Retire()
      requires Unbuilt() || SceneMatch()
      modifies this`scene, this`disposed
      ensures scene == {}
      ensures forall id: nat :: id in disposed <==> id < created
      ensures disposed == old(disposed) + (if points.Some? then {points.value} else {})
    {
      if points.Some? {
        scene := scene - {points.value};
        disposed := disposed + {points.value};
        assert points.value == created - 1;
      }
      forall id: nat
        ensures id in disposed <==> id < created
      {
      }
    }

    /** `init`, src/ParticleSystem.js:67-75: the uniforms start over from the parameters. */
    method ResetUniforms()
      modifies this`uTime, this`uSize, this`uSpeed
      ensures UniformsMatch() && uTime == 0.0
    {
      uTime := 0.0;
      uSize := params.size * dpr;
      uSpeed := params.speed;
    }

    /** `init`, src/ParticleSystem.js:114-115: a new `Points` object goes into the scene. */
    method Show()
      requires scene == {} && forall id: nat :: id in disposed <==> id < created
      modifies this`points, this`created, this`scene
      ensures SceneMatch()
      ensures points == Some(old(created)) && created == old(created) + 1
    {
      points := Some(created);
      scene := scene + {created};
      created := created + 1;
    }

    /** `update(deltaTime, elapsedTime)`: only the time uniform changes. */
    method Update(deltaTime: real, elapsedTime: real)
      requires Valid()
      modifies this`uTime
      ensures Valid()
      ensures uTime == elapsedTime
    {
      uTime := elapsedTime;
    }

    /** `regenerate(newParams)`: merge the partial record into the parameters, then `init`. */
    method Regenerate(patch: Patch)
      requires Valid()
      modifies this
      ensures Valid()
      ensures params == Merge(old(params), patch)
      ensures base == old(drawn)
      ensures uTime == 0.0
      ensures points == Some(old(created)) && old(points).value in disposed && old(points).value !in scene
    {
      params := Merge(params, patch);
      Init();
    }

    /**
     * `updateParams(key, value)`: store the value; `size` and `speed` update their uniform only,
     * `count`, `radius` and `color` rebuild, `randomness` is only stored.
     */
    method UpdateParams(s: Setting)
      requires Valid()
      modifies this
      ensures Valid()
      ensures params == Assign(old(params), s)
      ensures s.KeyOf() in RebuildKeys ==>
        && base == old(drawn)
        && uTime == 0.0
        && points == Some(old(created)) && old(points).value in disposed && old(points).value !in scene
      ensures s.KeyOf() !in RebuildKeys ==>
        && positions == old(positions) && colors == old(colors)
        && scales == old(scales) && randomness == old(randomness)
        && base == old(base) && drawn == old(drawn)
        && uTime == old(uTime)
        && (s.KeyOf() != Size ==> uSize == old(uSize))
        && (s.KeyOf() != Speed ==> uSpeed == old(uSpeed))
        && points == old(points) && created == old(created)
        && scene == old(scene) && disposed == old(disposed)
      ensures s.SetSize? ==> uSize == s.size * dpr
      ensures s.SetSpeed? ==> uSpeed == s.speed
    {
      ghost var before := params;
      params := Assign(params, s);
      if s.SetSize? {
        uSize := s.size * dpr;
      }
      if s.SetSpeed? {
        uSpeed := s.speed;
      }
      if s.KeyOf() in RebuildKeys {
        Init();
      } else {
        CheapSettingKeepsBaked(before, s);
      }
    }
  }

  /**
   * The four buffers have the lengths `init` allocates, and every entry is what its fill loop writes
   * there when it starts at draw `k0` with parameters `p`.
   */
  ghost predicate Filled(pos: seq<real>, col: seq<real>, sc: seq<real>, rnd: seq<real>,
                         lib: Library, random: nat -> real, k0: nat, p: Params)
  {
    && |pos| == 3 * p.count && |col| == 3 * p.count && |sc| == p.count && |rnd| == 3 * p.count
    && (forall j :: 0 <= j < |pos| ==> pos[j] == PositionEntry(lib, random, k0, p.radius, j))
    && (forall j :: 0 <= j < |col| ==> col[j] == ColorEntry(lib.parseColor(p.color), j))
    && (forall i :: 0 <= i < |sc| ==> sc[i] == ScaleOf(random, k0, i))
    && (forall j :: 0 <= j < |rnd| ==> rnd[j] == JitterEntry(random, k0, j))
  }

  /** Triple `i` of a flat buffer, read as a vector. */
  function VectorAt(s: seq<real>, i: nat): Vec3
    requires 3 * i + 3 <= |s|
  {
    Vec3(s[3 * i], s[3 * i + 1], s[3 * i + 2])
  }

  /** Triple `i` of a flat buffer, read as a colour. */
  function ColorAt(s: seq<real>, i: nat): Rgb
    requires 3 * i + 3 <= |s|
  {
    Rgb(s[3 * i], s[3 * i + 1], s[3 * i + 2])
  }

  /** Lines 42-48: three draws give particle `i`'s position, stored as triple `i`. */
  method WritePosition(lib: Library, random: nat -> real, pos: array<real>, i: nat, k: nat, ghost k0: nat, radius: real)
    requires k == k0 + DrawsPerParticle * i
    requires 3 * i + 3 <= pos.Length
    modifies pos
    ensures forall j :: 0 <= j < pos.Length ==> pos[j] == if 3 * i <= j < 3 * i + 3 then PositionEntry(lib, random, k0, radius, j) else old(pos[j])
  {
    assert k == DrawIndex(k0, i, 0) && k + 1 == DrawIndex(k0, i, 1) && k + 2 == DrawIndex(k0, i, 2);
    var i3 := i * 3;
    var r := SampledRadius(lib, radius, random(k));
    var theta := Azimuth(random(k + 1));
    var phi := Polar(lib, random(k + 2));
    var v := Cartesian(lib, r, theta, phi);
    pos[i3] := v.x;
    pos[i3 + 1] := v.y;
    pos[i3 + 2] := v.z;
    TripleIndex(i, 0);
    TripleIndex(i, 1);
    TripleIndex(i, 2);
  }

  /** Lines 50-52: the colour stored as triple `i`. */
  method WriteColor(col: array<real>, i: nat, color: Rgb)
    requires 3 * i + 3 <= col.Length
    modifies col
    ensures forall j :: 0 <= j < col.Length ==> col[j] == if 3 * i <= j < 3 * i + 3 then ColorEntry(color, j) else old(col[j])
  {
    var i3 := i * 3;
    col[i3] := color.r;
    col[i3 + 1] := color.g;
    col[i3 + 2] := color.b;
    TripleIndex(i, 0);
    TripleIndex(i, 1);
    TripleIndex(i, 2);
  }

  /** Line 54: the fourth draw is particle `i`'s scale. */
  method WriteScale(random: nat -> real, sc: array<real>, i: nat, k: nat, ghost k0: nat)
    requires k == k0 + DrawsPerParticle * i
    requires i < sc.Length
    modifies sc
    ensures forall j :: 0 <= j < sc.Length ==> sc[j] == if j == i then ScaleOf(random, k0, i) else old(sc[j])
  {
    sc[i] := random(k + 3);
  }

  /** Lines 56-58: three draws give particle `i`'s randomness vector, stored as triple `i`. */
  method WriteJitter(random: nat -> real, rnd: array<real>, i: nat, k: nat, ghost k0: nat)
    requires k == k0 + DrawsPerParticle * i
    requires 3 * i + 3 <= rnd.Length
    modifies rnd
    ensures forall j :: 0 <= j < rnd.Length ==> rnd[j] == if 3 * i <= j < 3 * i + 3 then JitterEntry(random, k0, j) else old(rnd[j])
  {
    var i3 := i * 3;
    rnd[i3] := Jitter(random(k + 4));
    rnd[i3 + 1] := Jitter(random(k + 5));
    rnd[i3 + 2] := Jitter(random(k + 6));
    TripleIndex(i, 0);
    TripleIndex(i, 1);
    TripleIndex(i, 2);
  }

  /**
   * The fill loop of `init` (src/ParticleSystem.js:31-59): four fresh buffers, written particle by
   * particle from the random stream starting at draw `k0`; `k` is where the stream stands after.
   */
  method FillBuffers(lib: Library, random: nat -> real, p: Params, k0: nat)
    returns (pos: array<real>, col: array<real>, sc: array<real>, rnd: array<real>, k: nat)
    ensures fresh(pos) && fresh(col) && fresh(sc) && fresh(rnd)
    ensures Filled(pos[..], col[..], sc[..], rnd[..], lib, random, k0, p)
    ensures k == k0 + DrawsPerParticle * p.count
  {
      var n, radius := p.count, p.radius;
      pos := new real[3 * n];
      col := new real[3 * n];
      sc := new real[n];
      rnd := new real[3 * n];
      var color := lib.parseColor(p.color);
      k := k0;
      for i := 0 to n
        modifies pos, col, sc, rnd
        invariant k == k0 + DrawsPerParticle * i
        invariant forall j :: 0 <= j < 3 * i ==> pos[j] == PositionEntry(lib, random, k0, radius, j)
        invariant forall j :: 0 <= j < 3 * i ==> col[j] == ColorEntry(color, j)
        invariant forall j :: 0 <= j < i ==> sc[j] == ScaleOf(random, k0, j)
        invariant forall j :: 0 <= j < 3 * i ==> rnd[j] == JitterEntry(random, k0, j)
      {
        WritePosition(lib, random, pos, i, k, k0, radius);
        WriteColor(col, i, color);
        WriteScale(random, sc, i, k, k0);
        WriteJitter(random, rnd, i, k, k0);
        k := k + DrawsPerParticle;
      }
  }
  /** Every colour triple of a reachable particle system is the parsed `params.color`. */
  lemma ColorsUniform(ps: ParticleSystem)
    requires ps.Valid()
    ensures forall i: nat :: i < ps.params.count ==> ColorAt(ps.colors, i) == ps.lib.parseColor(ps.params.color)
  {
    forall i: nat | i < ps.params.count
      ensures ColorAt(ps.colors, i) == ps.lib.parseColor(ps.params.color)
    {
      ColorsLayout(ps.lib.parseColor(ps.params.color), i);
    }
  }

  /** Every scale of a reachable particle system lies in [0, 1). */
  lemma ScalesBounded(ps: ParticleSystem)
    requires ps.Valid() && UnitDraws(ps.random)
    ensures forall i :: 0 <= i < |ps.scales| ==> 0.0 <= ps.scales[i] < 1.0
  {
    forall i | 0 <= i < |ps.scales|
      ensures 0.0 <= ps.scales[i] < 1.0
    {
    }
  }

  /** Every randomness component of a reachable particle system lies in [-1, 1). */
  lemma JitterBounded(ps: ParticleSystem)
    requires ps.Valid() && UnitDraws(ps.random)
    ensures forall j :: 0 <= j < |ps.randomness| ==> -1.0 <= ps.randomness[j] < 1.0
  {
    forall j | 0 <= j < |ps.randomness|
      ensures -1.0 <= ps.randomness[j] < 1.0
    {
      JitterInRange(ps.random, ps.base, j);
    }
  }

  /** With a positive radius, every position of a reachable particle system lies inside the sphere. */
  lemma PositionsInside(ps: ParticleSystem)
    requires ps.Valid() && LibraryValid(ps.lib) && UnitDraws(ps.random) && 0.0 < ps.params.radius
    ensures forall i: nat :: i < ps.params.count ==> Norm2(VectorAt(ps.positions, i)) < ps.params.radius * ps.params.radius
  {
    FillInside(ps);
  }

  /** The same, from the buffers alone: the uniforms and the scene play no part. */
  lemma FillInside(ps: ParticleSystem)
    requires ps.BuffersMatch() && LibraryValid(ps.lib) && UnitDraws(ps.random) && 0.0 < ps.params.radius
    ensures forall i: nat :: i < ps.params.count ==> Norm2(VectorAt(ps.positions, i)) < ps.params.radius * ps.params.radius
  {
    SampledInside(ps.positions, ps.lib, ps.random, ps.base, ps.params.radius, ps.params.count);
  }

  /** A position buffer filled from the stream lies inside the sphere, triple by triple. */
  lemma SampledInside(pos: seq<real>, lib: Library, random: nat -> real, k0: nat, radius: real, n: nat)
    requires LibraryValid(lib) && UnitDraws(random) && 0.0 < radius
    requires |pos| == 3 * n
    requires forall j :: 0 <= j < |pos| ==> pos[j] == PositionEntry(lib, random, k0, radius, j)
    ensures forall i: nat :: i < n ==> Norm2(VectorAt(pos, i)) < radius * radius
  {
    forall i: nat | i < n
      ensures Norm2(VectorAt(pos, i)) < radius * radius
    {
      assert VectorAt(pos, i) == PositionOf(lib, random, k0, radius, i) by {
        PositionsLayout(lib, random, k0, radius, i);
      }
      PositionInsideSphere(lib, random, k0, radius, i);
    }
  }
}
