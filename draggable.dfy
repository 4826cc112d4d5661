/** `makeDraggable(element, onDrag, onStart, onEnd, threshold, mouseButton)`:
    a pointer-gesture recogniser. A press with the chosen button starts a
    gesture; moves are measured from the last reported point, and once the
    displacement from the press exceeds the threshold on either axis the
    gesture becomes a drag: `onStart` fires once, then `onDrag` on every
    move. Release, leaving or cancelling ends the gesture, with `onEnd` only
    when it dragged. A click right after a drag is swallowed until the
    gesture's click listener is removed (10 ms later). */
module Draggable {
  import opened JsNumber

  const DEFAULT_THRESHOLD := 3.0
  const DEFAULT_BUTTON := 0

  /** The pointer events the recogniser listens to. `Move` carries the
      element's bounding-rect corner at that moment. `Release` stands for
      pointerup, pointerout and pointercancel, which share a handler;
      `GuardExpired` is the timeout that removes the oldest click listener. */
  datatype PointerEvent =
    | Down(button: int, x: real, y: real)
    | Move(x: real, y: real, left: real, top: real)
    | Release
    | GuardExpired

  /** The callbacks, with their arguments. */
  datatype DragCall = OnStart(x: real, y: real) | OnDrag(dx: real, dy: real, x: real, y: real) | OnEnd

  /** The closure state: whether a gesture's document listeners are
      registered, its last reported point and its `isDragging` flag; and the
      flags of earlier gestures whose click listeners are still registered,
      oldest first. */
  datatype DragState = DragState(active: bool, startX: real, startY: real, isDragging: bool, guards: seq<bool>)

  const Initial := DragState(false, 0.0, 0.0, false, [])

  /** Whether a click now is swallowed: some registered click listener
      belongs to a gesture that dragged. */
  predicate ClickSuppressed(s: DragState) {
    (s.active && s.isDragging) || true in s.guards
  }

  /** How one event changes the state and which callbacks it calls. */
  function Step(s: DragState, e: PointerEvent, threshold: real, mouseButton: int): (r: (DragState, seq<DragCall>))
    ensures e.Down? && e.button != mouseButton ==> r == (s, [])
    ensures e.Down? && e.button == mouseButton ==>
      r.1 == [] && r.0.active && !r.0.isDragging && r.0.startX == e.x && r.0.startY == e.y
    ensures !s.active && (e.Move? || e.Release?) ==> r == (s, [])
    ensures e.Release? && s.active ==> !r.0.active && r.1 == (if s.isDragging then [OnEnd] else [])
    ensures e.Move? && s.active && !s.isDragging ==>
      (r.1 != [] <==> Abs(e.x - s.startX) > threshold || Abs(e.y - s.startY) > threshold)
    ensures e.Move? && s.active && r.1 != [] ==>
      r.0.isDragging && r.0.startX == e.x && r.0.startY == e.y
      && r.1[|r.1| - 1] == OnDrag(e.x - s.startX, e.y - s.startY, e.x - e.left, e.y - e.top)
      && (r.1[0].OnStart? <==> !s.isDragging)
    ensures e.Move? && r.1 == [] ==> r.0 == s
    ensures |r.1| <= 2
  {
    match e
    case Down(button, x, y) =>
      if button != mouseButton then (s, [])
      else
        var guards := if s.active then s.guards + [s.isDragging] else s.guards;
        (DragState(true, x, y, false, guards), [])
    case Move(x, y, left, top) =>
      if !s.active then (s, [])
      else
        var dx := x - s.startX;
        var dy := y - s.startY;
        if s.isDragging || Abs(dx) > threshold || Abs(dy) > threshold then
          var start := if s.isDragging then [] else [OnStart(s.startX - left, s.startY - top)];
          (s.(startX := x, startY := y, isDragging := true), start + [OnDrag(dx, dy, x - left, y - top)])
        else (s, [])
    case Release =>
      if !s.active then (s, [])
      else
        (s.(active := false, guards := s.guards + [s.isDragging]), if s.isDragging then [OnEnd] else [])
    case GuardExpired =>
      (s.(guards := if s.guards == [] then [] else s.guards[1..]), [])
  }

  /** The callbacks a sequence of events calls, and the state it leaves. */
  function Run(s: DragState, es: seq<PointerEvent>, threshold: real, mouseButton: int): (r: (DragState, seq<DragCall>))
    ensures es == [] ==> r == (s, [])
    ensures |r.1| <= 2 * |es|
  {
    if es == [] then (s, [])
    else
      var prev := Run(s, es[..|es| - 1], threshold, mouseButton);
      var last := Step(prev.0, es[|es| - 1], threshold, mouseButton);
      (last.0, prev.1 + last.1)
  }

  /** The callback protocol, read left to right with `open` saying whether a
      drag is under way: `onStart` is always followed by an `onDrag`,
      `onDrag` only comes inside a drag, and `onEnd` only closes one. */
  predicate Protocol(calls: seq<DragCall>, open: bool)
    decreases |calls|
  {
    if calls == [] then true
    else match calls[0]
      case OnStart(_, _) => |calls| > 1 && calls[1].OnDrag? && Protocol(calls[1..], true)
      case OnDrag(_, _, _, _) => open && Protocol(calls[1..], true)
      case OnEnd => open && Protocol(calls[1..], false)
  }

  /** Whether a drag is under way after `calls`, starting from `open`. */
  function OpenAfter(calls: seq<DragCall>, open: bool): bool
  {
    if calls == [] then open else calls[|calls| - 1] != OnEnd
  }

  /** Two protocol-respecting pieces make one, the second read from where
      the first leaves off. */
  lemma {:induction false} ProtocolAppend(a: seq<DragCall>, b: seq<DragCall>, open: bool)
    requires Protocol(a, open)
    requires Protocol(b, OpenAfter(a, open))
    ensures Protocol(a + b, open)
    decreases |a|
  {
    if a == [] {
      assert a + b == b;
    } else {
      assert (a + b)[0] == a[0];
      assert (a + b)[1..] == a[1..] + b;
      var next := a[0] != OnEnd;
      if |a| > 1 {
        assert OpenAfter(a[1..], next) == OpenAfter(a, open);
        ProtocolAppend(a[1..], b, next);
        if a[0].OnStart? {
          assert (a + b)[1] == a[1];
        }
      } else {
        assert a[1..] + b == b;
      }
    }
  }

  /** Whatever the events, the callbacks follow the protocol, and a
      dragging gesture is inside an open drag. */
  lemma {:induction false} RunFollowsProtocol(es: seq<PointerEvent>, threshold: real, mouseButton: int)
    ensures var r := Run(Initial, es, threshold, mouseButton);
      Protocol(r.1, false) && (r.0.active && r.0.isDragging ==> OpenAfter(r.1, false))
  {
    if es != [] {
      var prev := Run(Initial, es[..|es| - 1], threshold, mouseButton);
      RunFollowsProtocol(es[..|es| - 1], threshold, mouseButton);
      var e := es[|es| - 1];
      var last := Step(prev.0, e, threshold, mouseButton);
      StepFollowsProtocol(prev.0, prev.1, e, threshold, mouseButton);
    }
  }

  lemma StepFollowsProtocol(s: DragState, calls: seq<DragCall>, e: PointerEvent, threshold: real, mouseButton: int)
    requires Protocol(calls, false) && (s.active && s.isDragging ==> OpenAfter(calls, false))
    ensures var r := Step(s, e, threshold, mouseButton);
      Protocol(calls + r.1, false) && (r.0.active && r.0.isDragging ==> OpenAfter(calls + r.1, false))
  {
    var r := Step(s, e, threshold, mouseButton);
    if r.1 == [] {
      assert calls + r.1 == calls;
    } else {
      var open := OpenAfter(calls, false);
      if e.Move? {
        if s.isDragging {
          assert r.1 == [OnDrag(e.x - s.startX, e.y - s.startY, e.x - e.left, e.y - e.top)];
        } else {
          assert r.1 == [OnStart(s.startX - e.left, s.startY - e.top), OnDrag(e.x - s.startX, e.y - s.startY, e.x - e.left, e.y - e.top)];
          assert Protocol(r.1, open);
        }
      } else {
        assert r.1 == [OnEnd];
      }
      ProtocolAppend(calls, r.1, false);
      assert (calls + r.1)[|calls + r.1| - 1] == r.1[|r.1| - 1];
    }
  }

  /** The horizontal deltas of the `onDrag` calls in `calls`, summed. */
  function SumDx(calls: seq<DragCall>): real
  {
    if calls == [] then 0.0
    else SumDx(calls[..|calls| - 1]) + (if calls[|calls| - 1].OnDrag? then calls[|calls| - 1].dx else 0.0)
  }

  lemma {:induction false} SumDxAppend(a: seq<DragCall>, b: seq<DragCall>)
    ensures SumDx(a + b) == SumDx(a) + SumDx(b)
    decreases |b|
  {
    if b == [] {
      assert a + b == a;
    } else {
      var ab := a + b;
      var last := b[|b| - 1];
      assert ab[..|ab| - 1] == a + b[..|b| - 1];
      assert ab[|ab| - 1] == last;
      SumDxAppend(a, b[..|b| - 1]);
      assert SumDx(ab) == SumDx(a + b[..|b| - 1]) + (if last.OnDrag? then last.dx else 0.0);
      assert SumDx(b) == SumDx(b[..|b| - 1]) + (if last.OnDrag? then last.dx else 0.0);
    }
  }

  /** Within one gesture, the reported deltas add up: the drags' horizontal
      deltas sum to the distance from the press to the last reported point. */
  lemma {:induction false} DeltasTelescope(x0: real, y0: real, moves: seq<PointerEvent>, threshold: real, mouseButton: int)
    requires forall k :: 0 <= k < |moves| ==> moves[k].Move?
    ensures var r := Run(Initial, [Down(mouseButton, x0, y0)] + moves, threshold, mouseButton);
      r.0.active && SumDx(r.1) == r.0.startX - x0
  {
    if moves == [] {
      var es := [Down(mouseButton, x0, y0)];
      assert es + moves == es;
      assert es[..0] == [];
      assert Run(Initial, es[..0], threshold, mouseButton) == (Initial, []);
    } else {
      var es := [Down(mouseButton, x0, y0)] + moves;
      var init := moves[..|moves| - 1];
      assert es[..|es| - 1] == [Down(mouseButton, x0, y0)] + init;
      DeltasTelescope(x0, y0, init, threshold, mouseButton);
      var prev := Run(Initial, es[..|es| - 1], threshold, mouseButton);
      var e := es[|es| - 1];
      var last := Step(prev.0, e, threshold, mouseButton);
      SumDxAppend(prev.1, last.1);
      assert Run(Initial, es, threshold, mouseButton) == (last.0, prev.1 + last.1);
      if last.1 != [] {
        var drag := OnDrag(e.x - prev.0.startX, e.y - prev.0.startY, e.x - e.left, e.y - e.top);
        if prev.0.isDragging {
          assert last.1 == [drag];
          assert last.1[..0] == [];
        } else {
          var start := OnStart(prev.0.startX - e.left, prev.0.startY - e.top);
          assert last.1 == [start, drag];
          assert last.1[..1] == [start];
          assert last.1[..1][..0] == [];
          assert SumDx(last.1[..1]) == 0.0;
        }
        assert SumDx(last.1) == e.x - prev.0.startX;
      } else {
        assert SumDx(last.1) == 0.0;
      }
    }
  }

  /** Within one gesture `onStart` fires at most once, as the very first
      call, and only `onDrag` calls follow it; nothing is called until the
      gesture is dragging. */
  lemma {:induction false} StartOnceThenDrags(x0: real, y0: real, moves: seq<PointerEvent>, threshold: real, mouseButton: int)
    requires forall k :: 0 <= k < |moves| ==> moves[k].Move?
    ensures var r := Run(Initial, [Down(mouseButton, x0, y0)] + moves, threshold, mouseButton);
      && r.0.active
      && (r.1 == [] <==> !r.0.isDragging)
      && (r.1 != [] ==> r.1[0].OnStart? && forall k :: 0 < k < |r.1| ==> r.1[k].OnDrag?)
  {
    var es := [Down(mouseButton, x0, y0)] + moves;
    if moves == [] {
      assert es == [Down(mouseButton, x0, y0)];
      assert es[..0] == [];
      assert Run(Initial, es[..0], threshold, mouseButton) == (Initial, []);
    } else {
      var init := moves[..|moves| - 1];
      assert es[..|es| - 1] == [Down(mouseButton, x0, y0)] + init;
      StartOnceThenDrags(x0, y0, init, threshold, mouseButton);
      var prev := Run(Initial, es[..|es| - 1], threshold, mouseButton);
      var e := es[|es| - 1];
      var last := Step(prev.0, e, threshold, mouseButton);
      assert Run(Initial, es, threshold, mouseButton) == (last.0, prev.1 + last.1);
      var all := prev.1 + last.1;
      if last.1 != [] {
        var drag := OnDrag(e.x - prev.0.startX, e.y - prev.0.startY, e.x - e.left, e.y - e.top);
        if prev.0.isDragging {
          assert last.1 == [drag];
          forall k | 0 < k < |all| ensures all[k].OnDrag? {
            if k < |prev.1| {
              assert all[k] == prev.1[k];
            }
          }
        } else {
          assert prev.1 == [];
          assert all == [OnStart(prev.0.startX - e.left, prev.0.startY - e.top), drag];
        }
      } else {
        assert all == prev.1;
      }
    }
  }

  /** A press with another button changes nothing: no gesture starts. */
  lemma OtherButtonIgnored(es: seq<PointerEvent>, button: int, x: real, y: real, threshold: real, mouseButton: int)
    requires button != mouseButton
    ensures Run(Initial, es + [Down(button, x, y)], threshold, mouseButton)
         == (Run(Initial, es, threshold, mouseButton).0, Run(Initial, es, threshold, mouseButton).1)
  {
    assert (es + [Down(button, x, y)])[..|es|] == es;
    assert Run(Initial, es, threshold, mouseButton).1 + [] == Run(Initial, es, threshold, mouseButton).1;
  }

  /** A press followed by moves that stay within the threshold of the press
      point calls nothing, and a click afterwards is not swallowed. */
  lemma SmallMovesAreAClick(x0: real, y0: real, xs: seq<real>, threshold: real, mouseButton: int)
    requires forall k :: 0 <= k < |xs| ==> Abs(xs[k] - x0) <= threshold
    requires threshold >= 0.0
    ensures var es := [Down(mouseButton, x0, y0)] + MovesAlong(xs, y0) + [Release];
      var r := Run(Initial, es, threshold, mouseButton);
      r.1 == [] && !ClickSuppressed(r.0)
  {
    var es := [Down(mouseButton, x0, y0)] + MovesAlong(xs, y0) + [Release];
    assert es[..|es| - 1] == [Down(mouseButton, x0, y0)] + MovesAlong(xs, y0);
    SmallMovesStayStill(x0, y0, xs, threshold, mouseButton);
  }

  /** Horizontal moves at height `y`, with the element at the origin. */
  function MovesAlong(xs: seq<real>, y: real): (r: seq<PointerEvent>)
    ensures |r| == |xs| && forall k :: 0 <= k < |r| ==> r[k] == Move(xs[k], y, 0.0, 0.0)
  {
    if xs == [] then [] else MovesAlong(xs[..|xs| - 1], y) + [Move(xs[|xs| - 1], y, 0.0, 0.0)]
  }

  lemma {:induction false} SmallMovesStayStill(x0: real, y0: real, xs: seq<real>, threshold: real, mouseButton: int)
    requires forall k :: 0 <= k < |xs| ==> Abs(xs[k] - x0) <= threshold
    requires threshold >= 0.0
    ensures var r := Run(Initial, [Down(mouseButton, x0, y0)] + MovesAlong(xs, y0), threshold, mouseButton);
      r == (DragState(true, x0, y0, false, []), [])
  {
    if xs == [] {
      var es := [Down(mouseButton, x0, y0)];
      assert es + MovesAlong(xs, y0) == es;
      assert es[..0] == [];
      assert Run(Initial, es[..0], threshold, mouseButton) == (Initial, []);
      assert es[0] == Down(mouseButton, x0, y0);
      assert Step(Initial, es[0], threshold, mouseButton) == (DragState(true, x0, y0, false, []), []);
      assert |es| - 1 == 0;
      var none: seq<DragCall> := [];
      assert none + none == none;
      assert Run(Initial, es, threshold, mouseButton) == (DragState(true, x0, y0, false, []), []);
    } else {
      var es := [Down(mouseButton, x0, y0)] + MovesAlong(xs, y0);
      assert es[..|es| - 1] == [Down(mouseButton, x0, y0)] + MovesAlong(xs[..|xs| - 1], y0);
      SmallMovesStayStill(x0, y0, xs[..|xs| - 1], threshold, mouseButton);
      assert es[|es| - 1] == Move(xs[|xs| - 1], y0, 0.0, 0.0);
      assert Abs(y0 - y0) == 0.0;
    }
  }

  /** The closure variables of one `makeDraggable` call, updated in place by
      its listeners; `calls` records the callbacks made. */
  class Draggable {
    const threshold: real
    const mouseButton: int
    var active: bool
    var startX: real
    var startY: real
    var isDragging: bool
    var guards: seq<bool>
    var calls: seq<DragCall>

    function State(): DragState
      reads this
    {
      DragState(active, startX, startY, isDragging, guards)
    }

    constructor(threshold: real, mouseButton: int)
      ensures State() == Initial && calls == []
      ensures this.threshold == threshold && this.mouseButton == mouseButton
    {
      this.threshold := threshold;
      this.mouseButton := mouseButton;
      active := false;
      startX := 0.0;
      startY := 0.0;
      isDragging := false;
      guards := [];
      calls := [];
    }

    /** `onPointerDown`. */
    method PointerDown(button: int, x: real, y: real)
      modifies this
      ensures State() == Step(old(State()), Down(button, x, y), threshold, mouseButton).0
      ensures calls == old(calls) + Step(old(State()), Down(button, x, y), threshold, mouseButton).1
    {
      if button != mouseButton {
        return;
      }
      if active {
        guards := guards + [isDragging];
      }
      active := true;
      startX := x;
      startY := y;
      isDragging := false;
    }

    /** `onPointerMove`, with the element's rect corner read at that time. */
    method PointerMove(x: real, y: real, left: real, top: real)
      modifies this
      ensures State() == Step(old(State()), Move(x, y, left, top), threshold, mouseButton).0
      ensures calls == old(calls) + Step(old(State()), Move(x, y, left, top), threshold, mouseButton).1
    {
      if !active {
        return;
      }
      var dx := x - startX;
      var dy := y - startY;
      if isDragging || Abs(dx) > threshold || Abs(dy) > threshold {
        if !isDragging {
          calls := calls + [OnStart(startX - left, startY - top)];
          isDragging := true;
        }
        calls := calls + [OnDrag(dx, dy, x - left, y - top)];
        startX := x;
        startY := y;
      }
    }

    /** `onPointerUp` (also for pointerout and pointercancel). */
    method PointerUp()
      modifies this
      ensures State() == Step(old(State()), Release, threshold, mouseButton).0
      ensures calls == old(calls) + Step(old(State()), Release, threshold, mouseButton).1
    {
      if !active {
        return;
      }
      if isDragging {
        calls := calls + [OnEnd];
      }
      guards := guards + [isDragging];
      active := false;
    }

    /** The 10 ms timeout that removes the oldest gesture's click listener. */
    method ExpireGuard()
      modifies this
      ensures State() == Step(old(State()), GuardExpired, threshold, mouseButton).0
      ensures calls == old(calls)
    {
      if guards != [] {
        guards := guards[1..];
      }
    }

    /** `onClick`: whether the click is swallowed. */
    method Click() returns (swallowed: bool)
      ensures swallowed == ClickSuppressed(State())
    {
      swallowed := (active && isDragging) || true in guards;
    }
  }
}
