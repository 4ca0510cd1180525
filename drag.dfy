/**
 * Dragging the whole lamp: mousePressed captures the lamp when the pointer is
 * inside the glass, mouseDragged moves it so that the grabbed point stays
 * under the pointer, mouseReleased lets go.  The touch handlers forward to
 * these, so one event type serves both.
 */
module Drag {
  import opened Geometry

  /** mousePressed: capture (or re-capture) on a hit, otherwise nothing. */
  function Press(s: LampState, px: real, py: real): (r: LampState)
    ensures r.x == s.x && r.y == s.y && r.w == s.w && r.h == s.h
    ensures PointInLamp(s, px, py) ==> r.dragging && r.x + r.dx == px && r.y + r.dy == py
    ensures !PointInLamp(s, px, py) ==> r == s
  {
    if PointInLamp(s, px, py) then s.(dragging := true, dx := px - s.x, dy := py - s.y)
    else s
  }

  /** mouseDragged: while dragging, the lamp centre is the pointer minus the offset. */
  function Move(s: LampState, mx: real, my: real): (r: LampState)
    ensures r.w == s.w && r.h == s.h
    ensures r.dragging == s.dragging && r.dx == s.dx && r.dy == s.dy
    ensures s.dragging ==> r.x + r.dx == mx && r.y + r.dy == my
    ensures !s.dragging ==> r == s
  {
    if s.dragging then s.(x := mx - s.dx, y := my - s.dy) else s
  }

  /** mouseReleased: only the dragging flag changes. */
  function Release(s: LampState): (r: LampState)
    ensures !r.dragging
    ensures r.(dragging := s.dragging) == s
  {
    s.(dragging := false)
  }

  /** Pointer events as the host delivers them (mouse or forwarded touch). */
  datatype Event = Down(px: real, py: real) | Dragged(mx: real, my: real) | Up

  function Apply(s: LampState, e: Event): (r: LampState)
    ensures r.w == s.w && r.h == s.h
    ensures e.Up? ==> !r.dragging
    ensures !s.dragging && !e.Down? ==> r == s
  {
    match e
    case Down(px, py) => Press(s, px, py)
    case Dragged(mx, my) => Move(s, mx, my)
    case Up => Release(s)
  }

  function Run(s: LampState, es: seq<Event>): LampState
    decreases |es|
  {
    if es == [] then s else Run(Apply(s, es[0]), es[1..])
  }

  lemma {:induction false} RunAppend(s: LampState, es: seq<Event>, fs: seq<Event>)
    ensures Run(s, es + fs) == Run(Run(s, es), fs)
    decreases |es|
  {
    if es == [] {
      assert es + fs == fs;
    } else {
      assert (es + fs)[0] == es[0];
      assert (es + fs)[1..] == es[1..] + fs;
      RunAppend(Apply(s, es[0]), es[1..], fs);
    }
  }

  /** No event sequence ever resizes the lamp. */
  lemma {:induction false} RunKeepsSize(s: LampState, es: seq<Event>)
    ensures Run(s, es).w == s.w && Run(s, es).h == s.h
    ensures SizeInRange(s) ==> SizeInRange(Run(s, es))
    decreases |es|
  {
    if es != [] {
      RunKeepsSize(Apply(s, es[0]), es[1..]);
    }
  }

  predicate AllDrags(es: seq<Event>)
  {
    forall i :: 0 <= i < |es| ==> es[i].Dragged?
  }

  /**
   * During a drag every move puts the lamp at pointer minus the captured
   * offset; the offset and the flag do not change.
   */
  lemma {:induction false} DragFollowsPointer(s: LampState, es: seq<Event>)
    requires s.dragging
    requires AllDrags(es)
    ensures Run(s, es).dragging && Run(s, es).dx == s.dx && Run(s, es).dy == s.dy
    ensures Run(s, es).w == s.w && Run(s, es).h == s.h
    ensures es != [] ==> Run(s, es).x == es[|es| - 1].mx - s.dx && Run(s, es).y == es[|es| - 1].my - s.dy
    ensures es == [] ==> Run(s, es) == s
    decreases |es|
  {
    if es != [] {
      var t := Move(s, es[0].mx, es[0].my);
      assert AllDrags(es[1..]) by {
        forall i | 0 <= i < |es[1..]| ensures es[1..][i].Dragged? {
          assert es[1..][i] == es[i + 1];
        }
      }
      DragFollowsPointer(t, es[1..]);
      if |es| > 1 {
        assert es[1..][|es[1..]| - 1] == es[|es| - 1];
      }
    }
  }

  /**
   * A press inside the lamp followed by any drags keeps the pointer inside
   * the lamp at the point it grabbed, and dragging back to the press point
   * puts the lamp back where it was.
   */
  lemma PressThenDrags(s: LampState, px: real, py: real, es: seq<Event>)
    requires PointInLamp(s, px, py)
    requires AllDrags(es)
    ensures Run(s, [Down(px, py)] + es).dragging
    ensures es != [] ==> PointInLamp(Run(s, [Down(px, py)] + es), es[|es| - 1].mx, es[|es| - 1].my)
    ensures Run(s, [Down(px, py)] + es + [Dragged(px, py)]).x == s.x
    ensures Run(s, [Down(px, py)] + es + [Dragged(px, py)]).y == s.y
  {
    var p := Press(s, px, py);
    assert Run(s, [Down(px, py)]) == p;
    RunAppend(s, [Down(px, py)], es);
    DragFollowsPointer(p, es);
    var es' := es + [Dragged(px, py)];
    assert AllDrags(es') by {
      forall i | 0 <= i < |es'| ensures es'[i].Dragged? {
        if i < |es| { assert es'[i] == es[i]; }
      }
    }
    assert [Down(px, py)] + es + [Dragged(px, py)] == [Down(px, py)] + es';
    RunAppend(s, [Down(px, py)], es');
    DragFollowsPointer(p, es');
    if es != [] {
      var t := Run(p, es);
      var m := es[|es| - 1];
      assert t.x == m.mx - p.dx && t.y == m.my - p.dy;
      PointInLampIff(s, px, py);
      PointInLampIff(t, m.mx, m.my);
    }
  }

  /** Pressing again while dragging re-captures with the new offset. */
  lemma RepressResetsOffset(s: LampState, px: real, py: real, qx: real, qy: real)
    requires PointInLamp(s, px, py)
    requires PointInLamp(s, qx, qy)
    ensures Press(Press(s, px, py), qx, qy) == Press(s, qx, qy)
    ensures Press(Press(s, px, py), qx, qy).dx == qx - s.x
  {
  }

  /** After release, moves do nothing until the next press. */
  lemma {:induction false} ReleasedIgnoresDrags(s: LampState, es: seq<Event>)
    requires AllDrags(es)
    ensures Run(Release(s), es) == Release(s)
    decreases |es|
  {
    if es != [] {
      assert AllDrags(es[1..]) by {
        forall i | 0 <= i < |es[1..]| ensures es[1..][i].Dragged? {
          assert es[1..][i] == es[i + 1];
        }
      }
      ReleasedIgnoresDrags(s, es[1..]);
    }
  }

  /** Release is idempotent and forgets nothing but the flag. */
  lemma ReleaseIdempotent(s: LampState)
    ensures Release(Release(s)) == Release(s)
  {
  }
}
