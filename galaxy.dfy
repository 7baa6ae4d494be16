/**
 * The particle layers of the landing-page galaxy (`GalaxyLayer`).
 *
 * Each layer seeds its own `createRng`, then fills two buffers of `3 * count`
 * numbers: positions (x, y, z) and colours (r, g, b), one particle after the
 * other, three generator calls per particle (radius, angle, height). The
 * square root, cosine and sine, the constant pi and the colour blend of the
 * rendering library are not part of this model: they are supplied as a
 * `Maths` value, and the properties that need something of them say so.
 */
module Starfield {
  import opened Mulberry32

  /** A colour as three channels. */
  datatype Colour = Colour(r: real, g: real, b: real)

  /** The library functions the fill uses. `lerp(a, b, t)` is `a.clone().lerp(b, t)`. */
  datatype Maths = Maths(
    sqrt: real -> real, cos: real -> real, sin: real -> real, pi: real,
    lerp: (Colour, Colour, real) -> Colour)

  /** The properties of a layer that shape its buffers; the two colours are parsed from the layer's colour strings. */
  datatype Layer = Layer(count: nat, radius: real, depth: real, seed: int)

  /** One particle: its position, its distance `r` from the axis, its blend factor `t` and its colour. */
  datatype Particle = Particle(x: real, y: real, z: real, r: real, t: real, colour: Colour)

  /**
   * The particle built from three generator values: `r = sqrt(u0) * radius`,
   * the angle `u1 * 2 pi + r / 4`, the height `(u2 - 1/2) * depth`, and the
   * colour blended from `a` to `b` by `min(1, r / radius)`.
   */
  function Shape(m: Maths, l: Layer, a: Colour, b: Colour, u0: real, u1: real, u2: real): Particle
    requires l.radius != 0.0
  {
    DeferredShape(m, l, a, b, u0, u1, u2, 1)
  }

  /**
   * `DeferredShape(m, l, a, b, u0, u1, u2, 0)` computes the particle; each
   * further level only defers it, so that reasoning about whole buffers sees
   * `Shape` folded and not the real arithmetic inside it.
   * The recursion on `levels` is a folding device, not an induction: it computes nothing beyond level 0.
   */
  function DeferredShape(m: Maths, l: Layer, a: Colour, b: Colour, u0: real, u1: real, u2: real, levels: nat): Particle
    requires l.radius != 0.0
  {
    if levels > 0 then DeferredShape(m, l, a, b, u0, u1, u2, levels - 1)
    else
      var r := m.sqrt(u0) * l.radius;
      var angle := u1 * m.pi * 2.0 + r * 0.25;
      var t := if 1.0 <= r / l.radius then 1.0 else r / l.radius;
      Particle(m.cos(angle) * r, (u2 - 0.5) * l.depth, m.sin(angle) * r, r, t, m.lerp(a, b, t))
  }

  /** Particle `i` of a layer: it is built from generator calls `3i`, `3i + 1` and `3i + 2`. */
  function ParticleAt(m: Maths, l: Layer, a: Colour, b: Colour, i: nat): Particle
    requires l.radius != 0.0
  {
    Shape(m, l, a, b, Draw(l.seed, 3 * i), Draw(l.seed, 3 * i + 1), Draw(l.seed, 3 * i + 2))
  }

  /** Slot `j` (0, 1 or 2) of a particle in the position buffer. */
  function Coord(p: Particle, j: int): real
  {
    if j == 0 then p.x else if j == 1 then p.y else p.z
  }

  /** Slot `j` (0, 1 or 2) of a particle in the colour buffer. */
  function Channel(p: Particle, j: int): real
  {
    if j == 0 then p.colour.r else if j == 1 then p.colour.g else p.colour.b
  }

  /** The position buffer holding the first `n` particles. */
  function Positions(m: Maths, l: Layer, a: Colour, b: Colour, n: nat): (s: seq<real>)
    requires l.radius != 0.0
    ensures |s| == 3 * n
  {
    if n == 0 then []
    else
      var p := ParticleAt(m, l, a, b, n - 1);
      Positions(m, l, a, b, n - 1) + [p.x, p.y, p.z]
  }

  /** The colour buffer holding the first `n` particles. */
  function Colours(m: Maths, l: Layer, a: Colour, b: Colour, n: nat): (s: seq<real>)
    requires l.radius != 0.0
    ensures |s| == 3 * n
  {
    if n == 0 then []
    else
      var c := ParticleAt(m, l, a, b, n - 1).colour;
      Colours(m, l, a, b, n - 1) + [c.r, c.g, c.b]
  }

  /**
   * The `useMemo` body of `GalaxyLayer`: seed a generator with the layer's
   * seed, allocate both buffers, and write particle `i` at offset `3i` of
   * each. Both buffers are exactly the functions above of the layer, so
   * every mount of the same layer shows the same starfield.
   */
  method FillLayer(m: Maths, l: Layer, a: Colour, b: Colour) returns (positions: array<real>, colours: array<real>)
    requires l.radius != 0.0
    ensures fresh(positions) && fresh(colours)
    ensures positions[..] == Positions(m, l, a, b, l.count)
    ensures colours[..] == Colours(m, l, a, b, l.count)
  {
    var rng := new Rng(l.seed);
    positions := new real[l.count * 3];
    colours := new real[l.count * 3];
    var i := 0;
    while i < l.count
      invariant 0 <= i <= l.count
      invariant rng.Valid() && rng.seed == l.seed && rng.draws == 3 * i
      invariant positions[..3 * i] == Positions(m, l, a, b, i)
      invariant colours[..3 * i] == Colours(m, l, a, b, i)
    {
      var p := NextParticle(rng, m, l, a, b);
      Put(positions, i, p.x, p.y, p.z);
      Put(colours, i, p.colour.r, p.colour.g, p.colour.b);
      assert positions[..3 * (i + 1)] == Positions(m, l, a, b, i + 1);
      assert colours[..3 * (i + 1)] == Colours(m, l, a, b, i + 1);
      i := i + 1;
    }
    assert positions[..] == positions[..3 * i];
    assert colours[..] == colours[..3 * i];
  }

  /** One pass of the loop body up to the writes: three calls of the generator, in order radius, angle, height. */
  method NextParticle(rng: Rng, m: Maths, l: Layer, a: Colour, b: Colour) returns (p: Particle)
    requires rng.Valid() && rng.seed == l.seed && l.radius != 0.0
    modifies rng
    ensures rng.Valid() && rng.draws == old(rng.draws) + 3
    ensures p == Shape(m, l, a, b, Draw(l.seed, old(rng.draws)), Draw(l.seed, old(rng.draws) + 1), Draw(l.seed, old(rng.draws) + 2))
  {
    var u0 := rng.Next();
    var u1 := rng.Next();
    var u2 := rng.Next();
    p := Shape(m, l, a, b, u0, u1, u2);
  }

  /** `buffer.set([v0, v1, v2], 3 * i)`: writes slots 3i .. 3i + 2 and leaves every other slot as it was. */
  method Put(buffer: array<real>, i: nat, v0: real, v1: real, v2: real)
    requires 3 * i + 3 <= buffer.Length
    modifies buffer
    ensures buffer[..3 * i + 3] == old(buffer[..3 * i]) + [v0, v1, v2]
    ensures buffer[3 * i + 3..] == old(buffer[3 * i + 3..])
  {
    buffer[3 * i] := v0;
    buffer[3 * i + 1] := v1;
    buffer[3 * i + 2] := v2;
  }

  /** Slot `j` of either buffer belongs to particle `j / 3`, component `j % 3`. */
  lemma {:induction false} BufferSlots(m: Maths, l: Layer, a: Colour, b: Colour, n: nat)
    requires l.radius != 0.0
    ensures forall j :: 0 <= j < 3 * n ==> Positions(m, l, a, b, n)[j] == Coord(ParticleAt(m, l, a, b, j / 3), j % 3)
    ensures forall j :: 0 <= j < 3 * n ==> Colours(m, l, a, b, n)[j] == Channel(ParticleAt(m, l, a, b, j / 3), j % 3)
  {
    if n > 0 {
      BufferSlots(m, l, a, b, n - 1);
    }
  }

  /** The square root maps [0, 1) into [0, 1), as `Math.sqrt` does. */
  ghost predicate SqrtOfUnit(m: Maths)
  {
    forall u :: 0.0 <= u < 1.0 ==> 0.0 <= m.sqrt(u) < 1.0
  }

  /** Cosine and sine lie on the unit circle, as `Math.cos` and `Math.sin` do up to rounding. */
  ghost predicate UnitCircle(m: Maths)
  {
    forall angle :: m.cos(angle) * m.cos(angle) + m.sin(angle) * m.sin(angle) == 1.0
  }

  /**
   * Every particle of a layer with a positive radius lies strictly inside the
   * disc of that radius, so its blend factor is never clamped and lies in
   * [0, 1); its height lies in [-depth / 2, depth / 2).
   */
  lemma ParticleRanges(m: Maths, l: Layer, a: Colour, b: Colour, i: nat)
    requires l.radius > 0.0 && l.depth > 0.0 && SqrtOfUnit(m)
    ensures var p := ParticleAt(m, l, a, b, i);
      0.0 <= p.r < l.radius && p.t == p.r / l.radius && 0.0 <= p.t < 1.0 &&
      -l.depth / 2.0 <= p.y < l.depth / 2.0
  {
    var u0 := Draw(l.seed, 3 * i);
    var u2 := Draw(l.seed, 3 * i + 2);
    var s := m.sqrt(u0);
    var p := ParticleAt(m, l, a, b, i);
    assert p == DeferredShape(m, l, a, b, u0, Draw(l.seed, 3 * i + 1), u2, 0);
    assert 0.0 <= s < 1.0;
    assert p.r == s * l.radius;
    assert (1.0 - s) * l.radius > 0.0;
    assert p.r / l.radius == s;
    assert (1.0 - u2) * l.depth > 0.0;
    assert u2 * l.depth >= 0.0;
    assert p.y == u2 * l.depth - l.depth / 2.0;
  }

  /** With a true cosine and sine, a particle's distance from the axis is `r`: x^2 + z^2 == r^2. */
  lemma ParticleOnCircle(m: Maths, l: Layer, a: Colour, b: Colour, i: nat)
    requires l.radius != 0.0 && UnitCircle(m)
    ensures var p := ParticleAt(m, l, a, b, i);
      p.x * p.x + p.z * p.z == p.r * p.r
  {
    var p := ParticleAt(m, l, a, b, i);
    assert p == DeferredShape(m, l, a, b, Draw(l.seed, 3 * i), Draw(l.seed, 3 * i + 1), Draw(l.seed, 3 * i + 2), 0);
    var angle := Draw(l.seed, 3 * i + 1) * m.pi * 2.0 + p.r * 0.25;
    var c, s := m.cos(angle), m.sin(angle);
    assert c * c + s * s == 1.0;
    calc {
      p.x * p.x + p.z * p.z;
      (c * p.r) * (c * p.r) + (s * p.r) * (s * p.r);
      (c * c + s * s) * (p.r * p.r);
    }
  }

  /** The three layers of the landing scene, front to back as declared. */
  const SceneLayers: seq<Layer> := [
    Layer(1600, 12.0, 6.0, 42),
    Layer(800, 6.0, 3.0, 1337),
    Layer(500, 18.0, 10.0, 7)
  ]

  /** Two integers less than 2^32 apart, and not equal, have different residues. */
  lemma DistinctResidues(x: int, y: int)
    requires 0 < x - y < Modulus
    ensures x % Modulus != y % Modulus
  {
    var q := x / Modulus - y / Modulus;
    assert x % Modulus - y % Modulus == (x - y) - Modulus * q;
    if q <= 0 {
      assert Modulus * q <= 0;
    } else {
      assert Modulus * q >= Modulus;
    }
  }

  /**
   * The scene's layers never share a generator state at the same call: at
   * every call number the three generators sit at three different states,
   * so no layer's particle stream repeats another's in step.
   */
  lemma SceneLayersOutOfStep(k: nat)
    ensures |SceneLayers| == 3
    ensures forall i, j :: 0 <= i < j < 3 ==>
      StateAfter(SceneLayers[i].seed, k) != StateAfter(SceneLayers[j].seed, k)
  {
    var step := (k + 1) * Increment;
    StateClosedForm(42, k);
    StateClosedForm(1337, k);
    StateClosedForm(7, k);
    DistinctResidues(1337 + step, 42 + step);
    DistinctResidues(42 + step, 7 + step);
    DistinctResidues(1337 + step, 7 + step);
  }
}
