/**
 * The sketch's mutable state: the one lamp record, the blobs it owns and the
 * canvas size.  Each method updates that state in place as the script does
 * and is specified by the value-level functions of Geometry, Drag, Physics,
 * Population and Render.
 */
module LavaLamp {
  import opened Geometry
  import Drag
  import Physics
  import Population
  import Render

  /** The lamp record, updated by setup, windowResized and the pointer handlers. */
  class Lamp {
    var x: real
    var y: real
    var w: int
    var h: int
    var dragging: bool
    var dx: real
    var dy: real

    function State(): LampState
      reads this
    {
      LampState(x, y, w, h, dragging, dx, dy)
    }

    ghost predicate Valid()
      reads this
    {
      SizeInRange(State())
    }

    /** The record as declared at the top of the script. */
    constructor ()
      ensures State() == InitialLamp && Valid()
    {
      x, y, w, h := 220.0, 260.0, 180, 320;
      dragging, dx, dy := false, 0.0, 0.0;
    }

    /** The four sizing lines shared by setup and windowResized. */
    method FitTo(c: Canvas)
      modifies this
      ensures State() == Fit(old(State()), c) && Valid()
    {
      w := LampWidth(c.w);
      h := LampHeight(c.h);
      x := c.w * 0.5;
      y := c.h * 0.55;
    }

    method MousePressed(px: real, py: real)
      modifies this
      ensures State() == Drag.Press(old(State()), px, py)
      ensures Valid() == old(Valid())
    {
      if PointInLamp(State(), px, py) {
        dragging := true;
        dx := px - x;
        dy := py - y;
      }
    }

    method MouseDragged(mx: real, my: real)
      modifies this
      ensures State() == Drag.Move(old(State()), mx, my)
      ensures Valid() == old(Valid())
    {
      if dragging {
        x := mx - dx;
        y := my - dy;
      }
    }

    method MouseReleased()
      modifies this
      ensures State() == Drag.Release(old(State()))
      ensures Valid() == old(Valid())
    {
      dragging := false;
    }

    /** The touch handlers forward to the mouse handlers. */
    method TouchStarted(px: real, py: real)
      modifies this
      ensures State() == Drag.Press(old(State()), px, py)
      ensures Valid() == old(Valid())
    {
      MousePressed(px, py);
    }

    method TouchMoved(mx: real, my: real)
      modifies this
      ensures State() == Drag.Move(old(State()), mx, my)
      ensures Valid() == old(Valid())
    {
      MouseDragged(mx, my);
    }

    method TouchEnded()
      modifies this
      ensures State() == Drag.Release(old(State()))
      ensures Valid() == old(Valid())
    {
      MouseReleased();
    }
  }

  /** A blob: radius, phase and alpha are fixed at creation; position and velocity change each frame. */
  class Blob {
    var x: real
    var y: real
    const r: real
    var vx: real
    var vy: real
    const phase: real
    const alpha: real

    function State(): Physics.BlobState
      reads this
    {
      Physics.BlobState(x, y, r, vx, vy, phase, alpha)
    }

    constructor (s: Physics.BlobState)
      ensures State() == s
    {
      x, y, r, vx, vy, phase, alpha := s.x, s.y, s.r, s.vx, s.vy, s.phase, s.alpha;
    }

    /**
     * The loop body of the frame: buoyancy and wobble, the clamped move, the
     * halo and core drawn at the position reached so far, then the bounds.
     */
    method Step(wobble: real, g: Glass) returns (halo: Render.Disc, core: Render.Disc)
      modifies this
      ensures State() == Physics.Step(old(State()), wobble, g)
      ensures [halo, core] == Render.BlobDiscs(Physics.Integrate(old(State()), wobble), g)
    {
      vy := vy - Physics.Buoyancy;
      vx := vx + Physics.WobbleGain * wobble;

      x := x + Physics.ClampSpeed(vx);
      y := y + Physics.ClampSpeed(vy);

      halo := Render.Halo(State(), g);
      core := Render.Core(State(), g);

      var left, right := -g.gw / 2.0 + r, g.gw / 2.0 - r;
      var top, bot := -g.gh / 2.0 + r, g.gh / 2.0 - r;
      if x - g.gx < left || x - g.gx > right {
        vx := vx * -Physics.RestitutionX;
      }
      if y - g.gy < top {
        vy := vy * -Physics.RestitutionY;
        y := g.gy + top;
      }
      if y - g.gy > bot {
        vy := vy * -Physics.RestitutionY;
        y := g.gy + bot;
      }
    }
  }

  /** The script's globals: the lamp, the blob list and the canvas size. */
  class Sketch {
    const lamp: Lamp
    var blobs: seq<Blob>
    var width: real
    var height: real

    /**
     * The lamp's size stays in range, there are at most ten blobs, no blob is
     * listed twice, and every radius and alpha is one makeBlob can produce.
     */
    ghost predicate Valid()
      reads this, lamp
    {
      && lamp.Valid()
      && |blobs| <= Population.MaxBlobs
      && (forall i, j :: 0 <= i < j < |blobs| ==> blobs[i] != blobs[j])
      && (forall i :: 0 <= i < |blobs| ==> 18.0 <= blobs[i].r < 42.0 && 110.0 <= blobs[i].alpha < 170.0)
    }

    /**
     * The state before setup: the declared lamp record, no blobs, and p5's
     * default 100 by 100 canvas.
     */
    constructor ()
      ensures Valid() && fresh(lamp)
      ensures lamp.State() == InitialLamp && blobs == []
      ensures width == 100.0 && height == 100.0
    {
      lamp := new Lamp();
      blobs := [];
      width, height := 100.0, 100.0;
    }

    /** makeBlob: a new blob in the padded box around the lamp's current centre. */
    method MakeBlob(d: Physics.Draws) returns (b: Blob)
      requires Physics.ValidDraws(d)
      requires lamp.Valid()
      ensures fresh(b) && b.State() == Physics.Spawn(lamp.State(), d)
      ensures Physics.SpawnRange(lamp.State(), b.State())
    {
      b := new Blob(Physics.Spawn(lamp.State(), d));
      Physics.SpawnInRange(lamp.State(), d);
    }

    /**
     * setup: size the canvas for the viewport, fit the lamp to it, and create
     * 5 or 8 blobs, the k-th from the k-th set of draws.
     */
    method Setup(innerW: real, innerH: real, rand: nat -> Physics.Draws)
      requires Valid()
      requires forall k :: Physics.ValidDraws(rand(k))
      modifies this, lamp
      ensures Valid()
      ensures Canvas(width, height) == CanvasSizeForPhone(innerW, innerH)
      ensures lamp.State() == Fit(old(lamp.State()), Canvas(width, height))
      ensures |blobs| == Population.InitialBlobCount(width)
      ensures forall k :: 0 <= k < |blobs| ==>
        fresh(blobs[k]) && blobs[k].State() == Physics.Spawn(lamp.State(), rand(k))
    {
      var c := CanvasSizeForPhone(innerW, innerH);
      width, height := c.w, c.h;
      lamp.FitTo(c);
      var target := Population.InitialBlobCount(c.w);
      blobs := [];
      for i := 0 to target
        invariant Valid()
        invariant width == c.w && height == c.h
        invariant lamp.State() == Fit(old(lamp.State()), c)
        invariant |blobs| == i
        invariant forall k :: 0 <= k < i ==>
          fresh(blobs[k]) && blobs[k].State() == Physics.Spawn(lamp.State(), rand(k))
      {
        var b := MakeBlob(rand(i));
        blobs := blobs + [b];
      }
    }

    /** windowResized: resize the canvas and refit the lamp; blobs stay where they are. */
    method WindowResized(innerW: real, innerH: real)
      requires Valid()
      modifies this, lamp
      ensures Valid()
      ensures Canvas(width, height) == CanvasSizeForPhone(innerW, innerH)
      ensures lamp.State() == Fit(old(lamp.State()), Canvas(width, height))
      ensures blobs == old(blobs)
      ensures forall k :: 0 <= k < |blobs| ==> blobs[k].State() == old(blobs[k].State())
    {
      var c := CanvasSizeForPhone(innerW, innerH);
      width, height := c.w, c.h;
      lamp.FitTo(c);
    }

    /**
     * The blob loop of a frame: every blob, in list order, stepped with its
     * own wobble sin(frameCount * 0.02 + phase) and drawn as a halo and a core.
     */
    method StepBlobs(frameCount: nat, sin: real -> real, g: Glass) returns (discs: seq<seq<Render.Disc>>)
      requires forall i, j :: 0 <= i < j < |blobs| ==> blobs[i] != blobs[j]
      modifies blobs
      ensures |discs| == |blobs|
      ensures forall k :: 0 <= k < |blobs| ==>
        blobs[k].State() == Physics.Step(old(blobs[k].State()), sin(Physics.WobbleArg(frameCount, blobs[k].phase)), g)
      ensures forall k :: 0 <= k < |blobs| ==>
        discs[k] == Render.BlobDiscs(Physics.Integrate(old(blobs[k].State()), sin(Physics.WobbleArg(frameCount, blobs[k].phase))), g)
    {
      discs := [];
      var i := 0;
      while i < |blobs|
        invariant 0 <= i <= |blobs|
        invariant |discs| == i
        invariant forall k :: 0 <= k < i ==>
          blobs[k].State() == Physics.Step(old(blobs[k].State()), sin(Physics.WobbleArg(frameCount, blobs[k].phase)), g)
        invariant forall k :: 0 <= k < i ==>
          discs[k] == Render.BlobDiscs(Physics.Integrate(old(blobs[k].State()), sin(Physics.WobbleArg(frameCount, blobs[k].phase))), g)
        invariant forall k :: i <= k < |blobs| ==> blobs[k].State() == old(blobs[k].State())
      {
        var b := blobs[i];
        var halo, core := b.Step(sin(Physics.WobbleArg(frameCount, b.phase)), g);
        discs := discs + [[halo, core]];
        i := i + 1;
      }
    }

    /**
     * One frame of the glass contents: the gradient rows, the blob loop, then
     * possibly one new blob.  Afterwards each blob lies vertically inside the
     * glass, and the blobs that were there keep their order.
     */
    method Frame(frameCount: nat, sin: real -> real, d: Physics.Draws)
      returns (shades: seq<real>, discs: seq<seq<Render.Disc>>)
      requires Valid()
      requires forall t :: -1.0 <= sin(t) <= 1.0
      requires Physics.ValidDraws(d)
      modifies this, blobs
      ensures Valid()
      ensures lamp.State() == old(lamp.State()) && width == old(width) && height == old(height)
      ensures |shades| == lamp.h + 1
      ensures forall i :: 0 <= i < |shades| ==> shades[i] == i as real / lamp.h as real
      ensures |blobs| == Population.NextCount(old(|blobs|), frameCount)
      ensures blobs[..old(|blobs|)] == old(blobs)
      ensures forall k :: 0 <= k < old(|blobs|) ==>
        blobs[k].State() ==
          Physics.Step(old(blobs[k].State()), sin(Physics.WobbleArg(frameCount, blobs[k].phase)), GlassOf(lamp.State()))
      ensures |blobs| > old(|blobs|) ==>
        fresh(blobs[|blobs| - 1]) && blobs[|blobs| - 1].State() == Physics.Spawn(lamp.State(), d)
      ensures |discs| == old(|blobs|)
      ensures forall k :: 0 <= k < old(|blobs|) ==>
        discs[k] == Render.BlobDiscs(
          Physics.Integrate(old(blobs[k].State()), sin(Physics.WobbleArg(frameCount, blobs[k].phase))),
          GlassOf(lamp.State()))
      ensures forall k :: 0 <= k < |blobs| ==> Physics.InsideY(blobs[k].State(), GlassOf(lamp.State()))
    {
      var g := GlassOf(lamp.State());
      shades := Render.GradientRows(lamp.h);
      discs := StepBlobs(frameCount, sin, g);

      forall k | 0 <= k < |blobs| ensures Physics.InsideY(blobs[k].State(), g) {
        Physics.StepContract(old(blobs[k].State()), sin(Physics.WobbleArg(frameCount, blobs[k].phase)), g);
      }

      if Population.SpawnsAt(frameCount) && |blobs| < Population.MaxBlobs {
        var nb := MakeBlob(d);
        Physics.SpawnInsideY(lamp.State(), d);
        blobs := blobs + [nb];
      }
    }
  }
}
