/**
 * Canvas and lamp geometry of the lava-lamp sketch: the canvas caps for phones,
 * the clamped lamp size computed on setup and on resize, the glass rectangle
 * that both the blob bounds and the hit test use, and the hit test itself.
 */
module Geometry {

  function Min(a: real, b: real): real { if a <= b then a else b }
  function Max(a: real, b: real): real { if a >= b then a else b }
  function Abs(a: real): real { if a < 0.0 then -a else a }

  /** JavaScript's Math.round: the nearest integer, halves rounded up. */
  function Round(v: real): (n: int)
    ensures n as real - 0.5 <= v < n as real + 0.5
  {
    (v + 0.5).Floor
  }

  /** The rounding above is the only integer within half a unit (halves going up). */
  lemma RoundUnique(v: real, m: int)
    requires m as real - 0.5 <= v < m as real + 0.5
    ensures Round(v) == m
  {
  }

  lemma RoundMonotone(a: real, b: real)
    requires a <= b
    ensures Round(a) <= Round(b)
  {
  }

  /** p5's constrain(n, lo, hi), computed as max(min(n, hi), lo). */
  function Constrain(n: int, lo: int, hi: int): (r: int)
    ensures lo <= hi ==> lo <= r <= hi
    ensures lo <= n <= hi ==> r == n
    ensures n < lo ==> r == lo
    ensures lo <= hi && n > hi ==> r == hi
  {
    var m := if n <= hi then n else hi;
    if m >= lo then m else lo
  }

  /** Canvas size chosen for a viewport: at most 600 wide and 720 high. */
  datatype Canvas = Canvas(w: real, h: real)

  const MaxCanvasW: real := 600.0
  const MaxCanvasH: real := 720.0

  function CanvasSizeForPhone(innerW: real, innerH: real): (c: Canvas)
    ensures c.w <= MaxCanvasW && c.w <= innerW && (c.w == innerW || c.w == MaxCanvasW)
    ensures c.h <= MaxCanvasH && c.h <= innerH * 0.9 && (c.h == innerH * 0.9 || c.h == MaxCanvasH)
  {
    Canvas(Min(innerW, MaxCanvasW), Min(innerH * 0.9, MaxCanvasH))
  }

  const MinLampW: int := 160
  const MaxLampW: int := 240
  const MinLampH: int := 280
  const MaxLampH: int := 420

  /** Lamp width: 55% of the canvas width, rounded, kept within [160, 240]. */
  function LampWidth(cw: real): (w: int)
    ensures MinLampW <= w <= MaxLampW
    ensures MinLampW <= Round(cw * 0.55) <= MaxLampW ==> w == Round(cw * 0.55)
    ensures Round(cw * 0.55) < MinLampW ==> w == MinLampW
    ensures Round(cw * 0.55) > MaxLampW ==> w == MaxLampW
  {
    Constrain(Round(cw * 0.55), MinLampW, MaxLampW)
  }

  /** Lamp height: 55% of the canvas height, rounded, kept within [280, 420]. */
  function LampHeight(ch: real): (h: int)
    ensures MinLampH <= h <= MaxLampH
    ensures MinLampH <= Round(ch * 0.55) <= MaxLampH ==> h == Round(ch * 0.55)
    ensures Round(ch * 0.55) < MinLampH ==> h == MinLampH
    ensures Round(ch * 0.55) > MaxLampH ==> h == MaxLampH
  {
    Constrain(Round(ch * 0.55), MinLampH, MaxLampH)
  }

  /** A larger canvas never yields a smaller lamp. */
  lemma LampSizeMonotone(c1: Canvas, c2: Canvas)
    requires c1.w <= c2.w && c1.h <= c2.h
    ensures LampWidth(c1.w) <= LampWidth(c2.w)
    ensures LampHeight(c1.h) <= LampHeight(c2.h)
  {
    RoundMonotone(c1.w * 0.55, c2.w * 0.55);
    RoundMonotone(c1.h * 0.55, c2.h * 0.55);
  }

  /**
   * The lamp record: centre, integer size, whether it is being dragged, and
   * the pointer offset captured when the drag began.
   */
  datatype LampState = LampState(x: real, y: real, w: int, h: int, dragging: bool, dx: real, dy: real)

  /** The record as the script declares it before setup runs. */
  const InitialLamp: LampState := LampState(220.0, 260.0, 180, 320, false, 0.0, 0.0)

  predicate SizeInRange(s: LampState)
  {
    MinLampW <= s.w <= MaxLampW && MinLampH <= s.h <= MaxLampH
  }

  lemma InitialLampInRange()
    ensures SizeInRange(InitialLamp) && !InitialLamp.dragging
  {
  }

  /** Sizing and centring done by setup and by windowResized. */
  function Fit(s: LampState, c: Canvas): (r: LampState)
    ensures r.w == LampWidth(c.w) && r.h == LampHeight(c.h)
    ensures SizeInRange(r)
    ensures r.x * 2.0 == c.w
    ensures r.y == c.h * 0.55
    ensures r.dragging == s.dragging && r.dx == s.dx && r.dy == s.dy
  {
    s.(w := LampWidth(c.w), h := LampHeight(c.h), x := c.w * 0.5, y := c.h * 0.55)
  }

  /** Refitting to the same canvas changes nothing further. */
  lemma FitIdempotent(s: LampState, c: Canvas)
    ensures Fit(Fit(s, c), c) == Fit(s, c)
  {
  }

  /** The lamp's result after a fit depends only on the canvas and the drag fields. */
  lemma FitForgetsPosition(s: LampState, t: LampState, c: Canvas)
    requires s.dragging == t.dragging && s.dx == t.dx && s.dy == t.dy
    ensures Fit(s, c) == Fit(t, c)
  {
  }

  /** The glass: centred on the lamp, 70% of its width, its full height. */
  datatype Glass = Glass(gx: real, gy: real, gw: real, gh: real)

  function GlassOf(s: LampState): (g: Glass)
    ensures g.gx == s.x && g.gy == s.y
    ensures SizeInRange(s) ==> 112.0 <= g.gw <= 168.0 && 280.0 <= g.gh <= 420.0
  {
    Glass(s.x, s.y, s.w as real * 0.7, s.h as real)
  }

  /** pointInLamp: strictly inside the glass rectangle (its edges miss). */
  predicate PointInLamp(s: LampState, px: real, py: real)
  {
    var g := GlassOf(s);
    px > g.gx - g.gw / 2.0 && px < g.gx + g.gw / 2.0 &&
    py > g.gy - g.gh / 2.0 && py < g.gy + g.gh / 2.0
  }

  /** The hit area is the open rectangle |px - x| < 0.35 w, |py - y| < h / 2. */
  lemma PointInLampIff(s: LampState, px: real, py: real)
    ensures PointInLamp(s, px, py) <==>
            Abs(px - s.x) < 0.35 * s.w as real && Abs(py - s.y) < s.h as real / 2.0
  {
  }

  /** A hit depends only on the pointer's offset from the lamp centre. */
  lemma PointInLampTranslates(s: LampState, px: real, py: real, tx: real, ty: real)
    ensures PointInLamp(s, px, py) <==> PointInLamp(s.(x := s.x + tx, y := s.y + ty), px + tx, py + ty)
  {
  }
}
