/** Pointer tracking, click hit-testing and the bounce state: the handlers
    `_handleMouseMove`, `_handleClick` and `_onAnimationEnd`, and the centre
    computed by `_calculateCenter`. The element's bounding rectangle is an
    input. */
module Interaction {

  /** A bounding rectangle as `getBoundingClientRect` reports it. */
  datatype Rect = Rect(left: real, top: real, width: real, height: real) {
    function Right(): real { left + width }
    function Bottom(): real { top + height }
  }

  /** The click test: inside the rectangle, all four edges included. */
  predicate Hit(r: Rect, x: real, y: real) {
    r.left <= x <= r.Right() && r.top <= y <= r.Bottom()
  }

  /** `(left + width / 2, top + height / 2)`: the point equally far from the
      left and right edges and from the top and bottom edges; for a
      rectangle as reported (no negative extent) it is a hit. */
  function Center(r: Rect): (c: (real, real))
    ensures c.0 - r.left == r.Right() - c.0
    ensures c.1 - r.top == r.Bottom() - c.1
    ensures r.width >= 0.0 && r.height >= 0.0 ==> Hit(r, c.0, c.1)
  {
    (r.left + r.width / 2.0, r.top + r.height / 2.0)
  }

  /** What the handlers read and write: the last pointer coordinates and
      whether the element carries the `bouncing` class. */
  datatype InputState = InputState(mouseX: real, mouseY: real, bouncing: bool)

  datatype Event =
    | MouseMove(x: real, y: real)
    | Click(x: real, y: real, rect: Rect)
    | AnimationEnd

  predicate HitClick(e: Event) {
    e.Click? && Hit(e.rect, e.x, e.y)
  }

  /** One handler run. A move overwrites the coordinates and nothing else; a
      click that hits sets the flag (a click while already bouncing adds
      nothing) and a click that misses changes nothing; the end of the
      animation clears the flag unconditionally. */
  function Apply(s: InputState, e: Event): (t: InputState)
    ensures e.MouseMove? ==> t.mouseX == e.x && t.mouseY == e.y && t.bouncing == s.bouncing
    ensures !e.MouseMove? ==> t.mouseX == s.mouseX && t.mouseY == s.mouseY
    ensures e.Click? ==> (t.bouncing <==> s.bouncing || Hit(e.rect, e.x, e.y))
    ensures e.Click? && !Hit(e.rect, e.x, e.y) ==> t == s
    ensures e.AnimationEnd? ==> !t.bouncing
  {
    match e
    case MouseMove(x, y) => s.(mouseX := x, mouseY := y)
    case Click(x, y, rect) =>
      if Hit(rect, x, y) && !s.bouncing then s.(bouncing := true) else s
    case AnimationEnd => s.(bouncing := false)
  }

  /** The state after a sequence of events, in order. */
  function Run(s: InputState, evs: seq<Event>): InputState
    decreases |evs|
  {
    if evs == [] then s else Apply(Run(s, evs[..|evs| - 1]), evs[|evs| - 1])
  }

  /** No animation end among `evs[from..]`. */
  ghost predicate NoEndFrom(evs: seq<Event>, from: nat) {
    forall j :: from <= j < |evs| ==> !evs[j].AnimationEnd?
  }

  /** The widget is bouncing after a sequence of events exactly when some
      click hit it after the last animation end, or it was bouncing already
      and no animation end came. */
  lemma {:induction false} BouncingAfter(s: InputState, evs: seq<Event>)
    ensures Run(s, evs).bouncing <==>
      (exists i :: 0 <= i < |evs| && HitClick(evs[i]) && NoEndFrom(evs, i + 1))
      || (s.bouncing && NoEndFrom(evs, 0))
    decreases |evs|
  {
    if evs != [] {
      var n := |evs| - 1;
      var p := evs[..n];
      var e := evs[n];
      BouncingAfter(s, p);
      assert forall j :: 0 <= j < n ==> p[j] == evs[j];
      if e.AnimationEnd? {
        assert !NoEndFrom(evs, 0);
        forall i | 0 <= i < |evs| && HitClick(evs[i])
          ensures !NoEndFrom(evs, i + 1)
        {
          assert i < n;
        }
      } else if HitClick(e) {
        assert NoEndFrom(evs, n + 1);
      } else {
        assert NoEndFrom(evs, 0) <==> NoEndFrom(p, 0);
        if exists i :: 0 <= i < |evs| && HitClick(evs[i]) && NoEndFrom(evs, i + 1) {
          var i :| 0 <= i < |evs| && HitClick(evs[i]) && NoEndFrom(evs, i + 1);
          assert i < n && HitClick(p[i]);
          assert NoEndFrom(p, i + 1);
        }
        if exists i :: 0 <= i < |p| && HitClick(p[i]) && NoEndFrom(p, i + 1) {
          var i :| 0 <= i < |p| && HitClick(p[i]) && NoEndFrom(p, i + 1);
          assert HitClick(evs[i]);
          assert NoEndFrom(evs, i + 1);
        }
      }
    }
  }

  /** No pointer move among `evs[from..]`. */
  ghost predicate NoMoveFrom(evs: seq<Event>, from: nat) {
    forall j :: from <= j < |evs| ==> !evs[j].MouseMove?
  }

  /** The stored coordinates are those of the last move, or the initial ones
      when there was no move. */
  lemma {:induction false} PointerIsLastMove(s: InputState, evs: seq<Event>)
    ensures NoMoveFrom(evs, 0) ==>
      Run(s, evs).mouseX == s.mouseX && Run(s, evs).mouseY == s.mouseY
    ensures forall i :: 0 <= i < |evs| && evs[i].MouseMove? && NoMoveFrom(evs, i + 1) ==>
      Run(s, evs).mouseX == evs[i].x && Run(s, evs).mouseY == evs[i].y
    decreases |evs|
  {
    if evs != [] {
      var n := |evs| - 1;
      var p := evs[..n];
      var e := evs[n];
      PointerIsLastMove(s, p);
      assert forall j :: 0 <= j < n ==> p[j] == evs[j];
      if !e.MouseMove? {
        assert NoMoveFrom(evs, 0) ==> NoMoveFrom(p, 0);
        forall i | 0 <= i < |evs| && evs[i].MouseMove? && NoMoveFrom(evs, i + 1)
          ensures Run(s, evs).mouseX == evs[i].x && Run(s, evs).mouseY == evs[i].y
        {
          assert i < n && p[i].MouseMove?;
          assert NoMoveFrom(p, i + 1);
        }
      } else {
        assert !NoMoveFrom(evs, 0);
      }
    }
  }
}
