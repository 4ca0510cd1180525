/**
 * One blob's per-frame update (buoyancy, wobble, speed-limited move, then the
 * bounds inside the glass) and the spawning of a blob inside the lamp.
 * Math.sin and p5's random are not modelled: the wobble value and the
 * uniform draws behind each random(lo, hi) are parameters.
 */
module Physics {
  import opened Geometry

  /** A blob: position, radius, velocity, wobble phase and translucency. */
  datatype BlobState = BlobState(x: real, y: real, r: real, vx: real, vy: real, phase: real, alpha: real)

  const Buoyancy: real := 0.0045
  const WobbleGain: real := 0.06
  const MaxSpeed: real := 1.2
  const RestitutionX: real := 0.9
  const RestitutionY: real := 0.7

  /** The argument the sketch passes to Math.sin for a blob's wobble. */
  function WobbleArg(frameCount: nat, phase: real): real
  {
    frameCount as real * 0.02 + phase
  }

  /** Math.max(-1.2, Math.min(1.2, v)): the per-axis speed limit on the move. */
  function ClampSpeed(v: real): (c: real)
    ensures -MaxSpeed <= c <= MaxSpeed
    ensures -MaxSpeed <= v <= MaxSpeed ==> c == v
    ensures v > MaxSpeed ==> c == MaxSpeed
    ensures v < -MaxSpeed ==> c == -MaxSpeed
  {
    Max(-MaxSpeed, Min(MaxSpeed, v))
  }

  /**
   * Buoyancy and wobble change the velocity; the position then moves by the
   * clamped velocity.  The stored velocity keeps its unclamped value.
   */
  function Integrate(b: BlobState, wobble: real): (n: BlobState)
    ensures n.r == b.r && n.phase == b.phase && n.alpha == b.alpha
    ensures n.vy == b.vy - Buoyancy
    ensures n.vx == b.vx + WobbleGain * wobble
    ensures -1.0 <= wobble <= 1.0 ==> Abs(n.vx - b.vx) <= WobbleGain
    ensures Abs(n.x - b.x) <= MaxSpeed && Abs(n.y - b.y) <= MaxSpeed
    ensures n.x - b.x == ClampSpeed(n.vx) && n.y - b.y == ClampSpeed(n.vy)
  {
    var vy := b.vy - Buoyancy;
    var vx := b.vx + WobbleGain * wobble;
    b.(vy := vy, vx := vx, x := b.x + ClampSpeed(vx), y := b.y + ClampSpeed(vy))
  }

  /** The move goes the way the new velocity points, by at most 1.2 per axis. */
  lemma IntegrateMovesWithVelocity(b: BlobState, wobble: real)
    ensures var n := Integrate(b, wobble);
      (n.vx >= 0.0 ==> b.x <= n.x <= b.x + n.vx) && (n.vx <= 0.0 ==> b.x + n.vx <= n.x <= b.x) &&
      (n.vy >= 0.0 ==> b.y <= n.y <= b.y + n.vy) && (n.vy <= 0.0 ==> b.y + n.vy <= n.y <= b.y)
  {
  }

  /** The velocity is never clamped: a fast blob keeps its speed while moving only 1.2. */
  lemma VelocityNotClamped()
    ensures var n := Integrate(BlobState(0.0, 0.0, 20.0, 3.0, 0.0, 0.0, 150.0), 0.0);
      n.vx == 3.0 && n.x == 1.2
  {
  }

  /** The blob's centre lies at least r inside the glass vertically. */
  predicate InsideY(b: BlobState, g: Glass)
  {
    g.gy - g.gh / 2.0 + b.r <= b.y <= g.gy + g.gh / 2.0 - b.r
  }

  /** The horizontal test of the bounds code: x - gx within [-gw/2 + r, gw/2 - r]. */
  predicate InsideX(b: BlobState, g: Glass)
  {
    -g.gw / 2.0 + b.r <= b.x - g.gx <= g.gw / 2.0 - b.r
  }

  /** Horizontal bounds: outside the band the velocity is reflected by -0.9, x is kept. */
  function ResolveX(b: BlobState, g: Glass): (n: BlobState)
    ensures n.(vx := b.vx) == b
    ensures InsideX(b, g) ==> n == b
    ensures !InsideX(b, g) ==> n.vx == -RestitutionX * b.vx
  {
    var left := -g.gw / 2.0 + b.r;
    var right := g.gw / 2.0 - b.r;
    if b.x - g.gx < left || b.x - g.gx > right then b.(vx := b.vx * -RestitutionX) else b
  }

  /**
   * Vertical bounds: above the top edge, and then below the bottom edge, the
   * centre is put on that edge and the velocity reflected by -0.7.
   */
  function ResolveY(b: BlobState, g: Glass): (n: BlobState)
    ensures n.(y := b.y, vy := b.vy) == b
  {
    var top := -g.gh / 2.0 + b.r;
    var bot := g.gh / 2.0 - b.r;
    var b1 := if b.y - g.gy < top then b.(vy := b.vy * -RestitutionY, y := g.gy + top) else b;
    if b1.y - g.gy > bot then b1.(vy := b1.vy * -RestitutionY, y := g.gy + bot) else b1
  }

  /**
   * With a blob no taller than the glass, vertical bounds leave it inside;
   * a crossed edge becomes the exact position and flips vy by -0.7, and a
   * blob already inside is untouched.
   */
  lemma ResolveYContains(b: BlobState, g: Glass)
    requires b.r <= g.gh / 2.0
    ensures InsideY(ResolveY(b, g), g)
    ensures b.y - g.gy < -g.gh / 2.0 + b.r ==>
      ResolveY(b, g).y == g.gy - g.gh / 2.0 + b.r && ResolveY(b, g).vy == -RestitutionY * b.vy
    ensures b.y - g.gy > g.gh / 2.0 - b.r ==>
      ResolveY(b, g).y == g.gy + g.gh / 2.0 - b.r && ResolveY(b, g).vy == -RestitutionY * b.vy
    ensures InsideY(b, g) ==> ResolveY(b, g) == b
  {
  }

  /** Vertical bounds are idempotent once the blob fits in the glass. */
  lemma ResolveYIdempotent(b: BlobState, g: Glass)
    requires b.r <= g.gh / 2.0
    ensures ResolveY(ResolveY(b, g), g) == ResolveY(b, g)
  {
    ResolveYContains(b, g);
    ResolveYContains(ResolveY(b, g), g);
  }

  /** Horizontal bounds are not idempotent: a blob outside the band flips vx every time. */
  lemma ResolveXNotIdempotent()
    ensures var g := Glass(0.0, 0.0, 112.0, 280.0);
      var b := BlobState(100.0, 0.0, 20.0, 1.0, 0.0, 0.0, 150.0);
      ResolveX(ResolveX(b, g), g).vx == 0.81 && ResolveX(b, g).vx == -0.9
  {
  }

  /** Bounds handling of the sketch: horizontal test, then the two vertical edges. */
  function ResolveBounds(b: BlobState, g: Glass): (n: BlobState)
    ensures n.x == b.x && n.r == b.r && n.phase == b.phase && n.alpha == b.alpha
    ensures n.vx == b.vx || n.vx == b.vx * -RestitutionX
  {
    ResolveY(ResolveX(b, g), g)
  }

  /** The two axes are resolved independently: the order does not matter. */
  lemma AxesIndependent(b: BlobState, g: Glass)
    ensures ResolveBounds(b, g) == ResolveX(ResolveY(b, g), g)
  {
  }

  /** Bounces only ever take speed away. */
  lemma BoundsDissipate(b: BlobState, g: Glass)
    ensures Abs(ResolveBounds(b, g).vx) <= Abs(b.vx)
    ensures Abs(ResolveBounds(b, g).vy) <= Abs(b.vy)
    ensures ResolveBounds(b, g).x == b.x
  {
  }

  /** One frame of a blob: integrate, then bounds. */
  function Step(b: BlobState, wobble: real, g: Glass): (n: BlobState)
    ensures n.r == b.r && n.phase == b.phase && n.alpha == b.alpha
    ensures Abs(n.x - b.x) <= MaxSpeed
  {
    ResolveBounds(Integrate(b, wobble), g)
  }

  /**
   * A frame's effect on one blob: vx gains 0.06 * wobble (then maybe reflected
   * by -0.9), vy loses 0.0045, x moves by the clamped vx and nothing more, a
   * blob past the top or bottom edge is put on it with vy reflected by -0.7,
   * and the blob ends vertically inside the glass.
   */
  lemma StepContract(b: BlobState, wobble: real, g: Glass)
    requires b.r <= g.gh / 2.0
    ensures var i := Integrate(b, wobble); var n := Step(b, wobble, g);
      && n.r == b.r && n.phase == b.phase && n.alpha == b.alpha
      && n.x == b.x + ClampSpeed(b.vx + WobbleGain * wobble)
      && Abs(n.x - b.x) <= MaxSpeed
      && (InsideX(i, g) ==> n.vx == b.vx + WobbleGain * wobble)
      && (!InsideX(i, g) ==> n.vx == -RestitutionX * (b.vx + WobbleGain * wobble))
      && (InsideY(i, g) ==> n.y == i.y && n.vy == b.vy - Buoyancy)
      && (i.y - g.gy < -g.gh / 2.0 + b.r ==>
            n.y == g.gy - g.gh / 2.0 + b.r && n.vy == -RestitutionY * (b.vy - Buoyancy))
      && (i.y - g.gy > g.gh / 2.0 - b.r ==>
            n.y == g.gy + g.gh / 2.0 - b.r && n.vy == -RestitutionY * (b.vy - Buoyancy))
      && InsideY(n, g)
  {
    var i := Integrate(b, wobble);
    ResolveYContains(ResolveX(i, g), g);
  }

  /** There is no horizontal clamp: a blob far outside the band stays outside. */
  lemma NoHorizontalClamp()
    ensures var g := Glass(0.0, 0.0, 112.0, 280.0);
      var n := Step(BlobState(100.0, 0.0, 20.0, 0.0, 0.0, 0.0, 150.0), 0.0, g);
      n.x == 100.0 && !InsideX(n, g)
  {
  }

  /** Many frames of one blob inside a fixed glass, one wobble value per frame. */
  function RunSteps(b: BlobState, wobbles: seq<real>, g: Glass): BlobState
    decreases |wobbles|
  {
    if wobbles == [] then b else RunSteps(Step(b, wobbles[0], g), wobbles[1..], g)
  }

  /**
   * Over n frames a blob drifts at most 1.2 * n horizontally, keeps its radius,
   * phase and alpha, and (after at least one frame) is vertically inside.
   */
  lemma {:induction false} RunStepsBounds(b: BlobState, wobbles: seq<real>, g: Glass)
    requires b.r <= g.gh / 2.0
    ensures var n := RunSteps(b, wobbles, g);
      && n.r == b.r && n.phase == b.phase && n.alpha == b.alpha
      && Abs(n.x - b.x) <= MaxSpeed * |wobbles| as real
      && (wobbles != [] ==> InsideY(n, g))
    decreases |wobbles|
  {
    if wobbles != [] {
      var b1 := Step(b, wobbles[0], g);
      StepContract(b, wobbles[0], g);
      RunStepsBounds(b1, wobbles[1..], g);
      var n := RunSteps(b1, wobbles[1..], g);
      assert Abs(n.x - b.x) <= Abs(n.x - b1.x) + Abs(b1.x - b.x);
      assert MaxSpeed * |wobbles| as real == MaxSpeed * |wobbles[1..]| as real + MaxSpeed;
      if wobbles[1..] == [] {
        assert n == b1;
      }
    }
  }

  /** The uniform draws in [0, 1) behind the seven random calls of makeBlob. */
  datatype Draws = Draws(ux: real, uy: real, ur: real, uvx: real, uvy: real, uphase: real, ualpha: real)

  predicate Unit(u: real) { 0.0 <= u < 1.0 }

  predicate ValidDraws(d: Draws)
  {
    Unit(d.ux) && Unit(d.uy) && Unit(d.ur) && Unit(d.uvx) && Unit(d.uvy) && Unit(d.uphase) && Unit(d.ualpha)
  }

  lemma ProductPositive(a: real, b: real)
    requires a > 0.0 && b > 0.0
    ensures a * b > 0.0
  {
  }

  lemma ProductNonNegative(a: real, b: real)
    requires a >= 0.0 && b >= 0.0
    ensures a * b >= 0.0
  {
  }

  lemma PositiveFactor(a: real, b: real)
    requires b > 0.0 && a * b > 0.0
    ensures a > 0.0
  {
  }

  lemma NonNegativeFactor(a: real, b: real)
    requires b > 0.0 && a * b >= 0.0
    ensures a >= 0.0
  {
  }

  lemma Distribute(a: real, b: real, c: real)
    ensures (a - b) * c == a * c - b * c
  {
  }

  /** p5's random(lo, hi) for a uniform draw u. */
  function Random(lo: real, hi: real, u: real): real
  {
    u * (hi - lo) + lo
  }

  lemma RandomAbove(lo: real, hi: real, u: real)
    requires lo < hi && Unit(u)
    ensures lo <= Random(lo, hi, u)
  {
    ProductNonNegative(u, hi - lo);
  }

  lemma RandomBelow(lo: real, hi: real, u: real)
    requires lo < hi && Unit(u)
    ensures Random(lo, hi, u) < hi
  {
    ProductPositive(1.0 - u, hi - lo);
    Distribute(1.0, u, hi - lo);
  }

  /** A draw u in [0, 1) gives a value in [lo, hi). */
  lemma RandomInRange(lo: real, hi: real, u: real)
    requires lo < hi && Unit(u)
    ensures lo <= Random(lo, hi, u) < hi
  {
    RandomAbove(lo, hi, u);
    RandomBelow(lo, hi, u);
  }

  /** Every value of [lo, hi) is drawn by some u. */
  lemma RandomCovers(lo: real, hi: real, v: real) returns (u: real)
    requires lo <= v < hi
    ensures Unit(u) && Random(lo, hi, u) == v
  {
    var width := hi - lo;
    u := (v - lo) / width;
    assert u * width == v - lo;
    NonNegativeFactor(u, width);
    Distribute(1.0, u, width);
    PositiveFactor(1.0 - u, width);
  }

  const TwoPi: real := 6.283185307179586

  /** makeBlob: a blob placed in the padded box around the lamp centre. */
  function Spawn(s: LampState, d: Draws): BlobState
  {
    var padX := s.w as real * 0.30;
    var padY := s.h as real * 0.35;
    BlobState(
      Random(s.x - padX, s.x + padX, d.ux),
      Random(s.y - padY, s.y + padY, d.uy),
      Random(18.0, 42.0, d.ur),
      Random(-0.35, 0.35, d.uvx),
      Random(-0.55, 0.15, d.uvy),
      d.uphase * TwoPi,
      Random(110.0, 170.0, d.ualpha))
  }

  /** The ranges a spawned blob's fields fall in. */
  predicate SpawnRange(s: LampState, b: BlobState)
  {
    && s.x - s.w as real * 0.30 <= b.x < s.x + s.w as real * 0.30
    && s.y - s.h as real * 0.35 <= b.y < s.y + s.h as real * 0.35
    && 18.0 <= b.r < 42.0
    && -0.35 <= b.vx < 0.35
    && -0.55 <= b.vy < 0.15
    && 0.0 <= b.phase < TwoPi
    && 110.0 <= b.alpha < 170.0
  }

  /** Every blob that makeBlob creates lies in the spawn ranges. */
  lemma SpawnInRange(s: LampState, d: Draws)
    requires s.w > 0 && s.h > 0
    requires ValidDraws(d)
    ensures SpawnRange(s, Spawn(s, d))
  {
    var padX := s.w as real * 0.30;
    var padY := s.h as real * 0.35;
    RandomInRange(s.x - padX, s.x + padX, d.ux);
    RandomInRange(s.y - padY, s.y + padY, d.uy);
    RandomInRange(18.0, 42.0, d.ur);
    RandomInRange(-0.35, 0.35, d.uvx);
    RandomInRange(-0.55, 0.15, d.uvy);
    RandomInRange(0.0, TwoPi, d.uphase);
    RandomInRange(110.0, 170.0, d.ualpha);
  }

  /** Conversely, every blob in the spawn ranges can come out of makeBlob. */
  lemma SpawnCovers(s: LampState, b: BlobState) returns (d: Draws)
    requires s.w > 0 && s.h > 0
    requires SpawnRange(s, b)
    ensures ValidDraws(d) && Spawn(s, d) == b
  {
    var padX := s.w as real * 0.30;
    var padY := s.h as real * 0.35;
    var ux := RandomCovers(s.x - padX, s.x + padX, b.x);
    var uy := RandomCovers(s.y - padY, s.y + padY, b.y);
    var ur := RandomCovers(18.0, 42.0, b.r);
    var uvx := RandomCovers(-0.35, 0.35, b.vx);
    var uvy := RandomCovers(-0.55, 0.15, b.vy);
    var ualpha := RandomCovers(110.0, 170.0, b.alpha);
    var uphase := b.phase / TwoPi;
    d := Draws(ux, uy, ur, uvx, uvy, uphase, ualpha);
  }

  /**
   * A newly spawned blob already lies vertically inside the glass: the padded
   * box reaches 0.35 h from the centre and a radius is below 42 = 0.15 * 280.
   */
  lemma SpawnInsideY(s: LampState, d: Draws)
    requires SizeInRange(s)
    requires ValidDraws(d)
    ensures InsideY(Spawn(s, d), GlassOf(s))
  {
    SpawnInRange(s, d);
  }
}
