/**
 * What a frame draws, as data: the gradient parameter of every row of the
 * glass, and for each blob a soft outer halo and an inner core, both in
 * glass-centred coordinates.  Colours, strokes and clipping are not modelled.
 */
module Render {
  import opened Geometry
  import Physics

  /** A filled circle: centre relative to the glass centre, diameter, fill alpha. */
  datatype Disc = Disc(cx: real, cy: real, d: real, alpha: real)

  const HaloScale: real := 2.3
  const HaloAlpha: real := 0.6
  const CoreScale: real := 1.7

  function Halo(b: Physics.BlobState, g: Glass): Disc
  {
    Disc(b.x - g.gx, b.y - g.gy, b.r * HaloScale, b.alpha * HaloAlpha)
  }

  function Core(b: Physics.BlobState, g: Glass): Disc
  {
    Disc(b.x - g.gx, b.y - g.gy, b.r * CoreScale, b.alpha)
  }

  /** The two discs of a blob, halo first, as the sketch draws them. */
  function BlobDiscs(b: Physics.BlobState, g: Glass): seq<Disc>
  {
    [Halo(b, g), Core(b, g)]
  }

  /**
   * The halo and the core are concentric on the blob's centre; the halo is
   * the larger and the more transparent of the two, the core exactly as
   * opaque as the blob.
   */
  lemma HaloAroundCore(b: Physics.BlobState, g: Glass)
    requires b.r > 0.0 && b.alpha > 0.0
    ensures var h, c := Halo(b, g), Core(b, g);
      && h.cx == c.cx && h.cy == c.cy
      && h.cx + g.gx == b.x && h.cy + g.gy == b.y
      && h.d > c.d > b.r
      && h.alpha < c.alpha == b.alpha
  {
  }

  lemma RowParameterBounds(k: int, gh: int)
    requires gh > 0 && 0 <= k <= gh
    ensures 0.0 <= k as real / gh as real <= 1.0
  {
    var a := k as real / gh as real;
    assert a * gh as real == k as real;
    assert (1.0 - a) * gh as real == (gh - k) as real;
    Physics.NonNegativeFactor(a, gh as real);
    Physics.NonNegativeFactor(1.0 - a, gh as real);
  }

  lemma RowParameterRises(k: int, j: int, gh: int)
    requires gh > 0 && k < j
    ensures k as real / gh as real < j as real / gh as real
  {
    var a, b := k as real / gh as real, j as real / gh as real;
    assert a * gh as real == k as real && b * gh as real == j as real;
    assert (b - a) * gh as real == (j - k) as real;
    Physics.PositiveFactor(b - a, gh as real);
  }

  /**
   * The gradient loop: one row for every i in 0..gh, each with the
   * interpolation parameter t = i / gh.  The parameters start at 0, end at 1
   * and rise strictly from row to row.
   */
  method GradientRows(gh: int) returns (ts: seq<real>)
    requires gh > 0
    ensures |ts| == gh + 1
    ensures forall i :: 0 <= i < |ts| ==> ts[i] == i as real / gh as real
    ensures forall i :: 0 <= i < |ts| ==> 0.0 <= ts[i] <= 1.0
    ensures ts[0] == 0.0 && ts[gh] == 1.0
    ensures forall i, j :: 0 <= i < j < |ts| ==> ts[i] < ts[j]
  {
    ts := [];
    var i := 0;
    while i <= gh
      invariant 0 <= i <= gh + 1
      invariant |ts| == i
      invariant forall k :: 0 <= k < i ==> ts[k] == k as real / gh as real
    {
      var t := i as real / gh as real;
      ts := ts + [t];
      i := i + 1;
    }
    forall k | 0 <= k < |ts| ensures 0.0 <= ts[k] <= 1.0 {
      RowParameterBounds(k, gh);
    }
    forall k, j | 0 <= k < j < |ts| ensures ts[k] < ts[j] {
      RowParameterRises(k, j, gh);
    }
  }
}
