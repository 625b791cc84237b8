/** The touch gesture machine. Screen coordinates are reals, times milliseconds. */
module Gesture {
  import opened Basics

  const TAP_MS := 300
  const LONG_PRESS_MS := 500
  const DOUBLE_TAP_MS := 350

  datatype Pos = Pos(x: real, y: real)

  datatype Button = Left | Right

  datatype Out = Move(x: real, y: real) | Press(b: Button) | Release(b: Button) | Scroll(notches: int)

  type Positive = r: real | r > 0.0 witness 1.0

  /** What the surface measures: size in pixels, slop radii squared, pixels per notch. */
  datatype Surface = Surface(width: int, height: int, touchSlopSq: real, doubleTapSlopSq: real, px: Positive)

  /** The fingers down in one event; of two or more only the first two count. */
  datatype Touch = One(p: Pos) | Two(a: Pos, b: Pos)

  /** One gesture: where the first finger came down, the events until the last one lifts,
      how long it took and the clock at its end. */
  datatype Stroke = Stroke(down: Pos, events: seq<Touch>, dur: int, now: int)

  /** Float.toInt truncates toward zero. */
  function ToInt(r: real): int { if r >= 0.0 then r.Floor else -(-r).Floor }

  function CoerceIn(v: real, lo: real, hi: real): real
  {
    if v < lo then lo else if v > hi then hi else v
  }

  function Norm(s: Surface, p: Pos): Out
  {
    Move(CoerceIn(p.x / Max(s.width, 1) as real, 0.0, 1.0), CoerceIn(p.y / Max(s.height, 1) as real, 0.0, 1.0))
  }

  function DistSq(p: Pos, q: Pos): real { (p.x - q.x) * (p.x - q.x) + (p.y - q.y) * (p.y - q.y) }

  function MidY(e: Touch): real
    requires e.Two?
  {
    (e.a.y + e.b.y) / 2.0
  }

  // -------------------------------------------------------------- specification

  datatype State = State(moved: bool, leftDown: bool, twoFingers: bool, midY: Option<real>, accum: real)

  const FRESH := State(false, false, false, None, 0.0)

  function OneFinger(s: Surface, down: Pos, g: State, p: Pos): (State, seq<Out>)
  {
    var moved := g.moved || DistSq(p, down) > s.touchSlopSq;
    var drags := moved && !g.twoFingers;
    (State(moved, g.leftDown || drags, g.twoFingers, None, 0.0),
     if !drags then [] else if g.leftDown then [Norm(s, p)] else [Norm(s, p), Press(Left)])
  }

  function TwoFingers(s: Surface, g: State, mid: real): (State, seq<Out>)
  {
    if g.midY.None? then (g.(twoFingers := true, midY := Some(mid)), [])
    else
      var accum := g.accum + (mid - g.midY.value);
      var notches := ToInt(accum / s.px);
      (g.(twoFingers := true, midY := Some(mid), accum := accum - notches as real * s.px),
       if notches != 0 then [Scroll(notches)] else [])
  }

  function OnEvent(s: Surface, down: Pos, g: State, e: Touch): (State, seq<Out>)
  {
    if e.One? then OneFinger(s, down, g, e.p) else TwoFingers(s, g, MidY(e))
  }

  /** State and outputs after a list of events. */
  function During(s: Surface, down: Pos, g: State, es: seq<Touch>): (State, seq<Out>)
  {
    if es == [] then (g, [])
    else
      var (h, out) := During(s, down, g, Front(es));
      var (k, more) := OnEvent(s, down, h, Last(es));
      (k, out + more)
  }

  lemma During0(s: Surface, down: Pos, g: State)
    ensures During(s, down, g, []) == (g, [])
  {
  }

  lemma DuringSnoc(s: Surface, down: Pos, g: State, es: seq<Touch>, e: Touch)
    ensures var (h, out) := During(s, down, g, es);
            var (k, more) := OnEvent(s, down, h, e);
            During(s, down, g, es + [e]) == (k, out + more)
  {
    assert Front(es + [e]) == es;
  }

  datatype Tap = Tap(time: int, at: Pos)

  predicate DoubleTap(s: Surface, last: Tap, k: Stroke)
  {
    k.now - last.time < DOUBLE_TAP_MS && DistSq(k.down, last.at) < s.doubleTapSlopSq
  }

  /** What the last finger lifting does. */
  function AtEnd(s: Surface, last: Tap, g: State, k: Stroke): (Tap, seq<Out>)
  {
    if g.leftDown then (last, [Release(Left)])
    else if g.twoFingers || g.moved then (last, [])
    else if k.dur >= LONG_PRESS_MS then (last, [Norm(s, k.down), Press(Right), Release(Right)])
    else if k.dur >= TAP_MS then (last, [])
    else if DoubleTap(s, last, k) then (last.(time := 0), [Press(Left), Release(Left)])
    else (Tap(k.now, k.down), [Norm(s, k.down), Press(Left), Release(Left)])
  }

  function Whole(s: Surface, last: Tap, k: Stroke): (Tap, seq<Out>)
  {
    var (g, out) := During(s, k.down, FRESH, k.events);
    var (tap, more) := AtEnd(s, last, g, k);
    (tap, out + more)
  }

  function All(s: Surface, ks: seq<Stroke>): (Tap, seq<Out>)
  {
    if ks == [] then (Tap(0, Pos(0.0, 0.0)), [])
    else
      var (tap, out) := All(s, Front(ks));
      var (tap', more) := Whole(s, tap, Last(ks));
      (tap', out + more)
  }

  // -------------------------------------------------------------------- the code

  /** gestureLoop. */
  method GestureLoop(s: Surface, ks: seq<Stroke>) returns (out: seq<Out>)
    ensures out == All(s, ks).1
  {
    hide OnEvent;
    hide AtEnd;
    var lastTapTime, lastTapX, lastTapY := 0, 0.0, 0.0;
    out := [];
    var i := 0;
    while i < |ks|
      invariant i <= |ks| && All(s, ks[..i]) == (Tap(lastTapTime, Pos(lastTapX, lastTapY)), out)
    {
      var k := ks[i];
      assert Front(ks[..i + 1]) == ks[..i];
      var g, during := Events(s, k);
      var tap, ending := Lift(s, Tap(lastTapTime, Pos(lastTapX, lastTapY)), g, k);
      assert out + (during + ending) == out + during + ending;
      out := out + during + ending;
      lastTapTime, lastTapX, lastTapY := tap.time, tap.at.x, tap.at.y;
      i := i + 1;
    }
    assert ks[..|ks|] == ks;
  }

  /** The event loop of one gesture, up to the last finger lifting. */
  method Events(s: Surface, k: Stroke) returns (g: State, out: seq<Out>)
    ensures (g, out) == During(s, k.down, FRESH, k.events)
  {
    hide Norm;
    hide ToInt;
    hide DistSq;
    hide During;
    During0(s, k.down, FRESH);
    var singleFingerMoved, leftDownSent, sawTwoFingers := false, false, false;
    var lastMidY: Option<real>, scrollAccum := None, 0.0;
    out := [];
    var i := 0;
    while i < |k.events|
      invariant i <= |k.events|
      invariant During(s, k.down, FRESH, k.events[..i]) ==
                (State(singleFingerMoved, leftDownSent, sawTwoFingers, lastMidY, scrollAccum), out)
    {
      var active := k.events[i];
      DuringSnoc(s, k.down, FRESH, k.events[..i], active);
      assert out + [] == out;
      ghost var g0, out0 := State(singleFingerMoved, leftDownSent, sawTwoFingers, lastMidY, scrollAccum), out;
      assert k.events[..i + 1] == k.events[..i] + [active];
      i := i + 1;
      if active.One? {
        var p := active.p;
        if !singleFingerMoved && DistSq(p, k.down) > s.touchSlopSq {
          singleFingerMoved := true;
        }
        if singleFingerMoved && !sawTwoFingers {
          out := out + if leftDownSent then [Norm(s, p)] else [Norm(s, p), Press(Left)];
          leftDownSent := true;
        }
        lastMidY, scrollAccum := None, 0.0;
        assert OneFinger(s, k.down, g0, p).0 == State(singleFingerMoved, leftDownSent, sawTwoFingers, lastMidY, scrollAccum);
        assert out0 + OneFinger(s, k.down, g0, p).1 == out;
      } else {
        sawTwoFingers := true;
        var midY := (active.a.y + active.b.y) / 2.0;
        if lastMidY.None? {
          lastMidY := Some(midY);
        } else {
          var deltaPx := midY - lastMidY.value;
          scrollAccum := scrollAccum + deltaPx;
          var notches := ToInt(scrollAccum / s.px);
          assert 0 as real * s.px == 0.0;
          if notches != 0 {
            out := out + [Scroll(notches)];
            scrollAccum := scrollAccum - notches as real * s.px;
          }
          lastMidY := Some(midY);
        }
        assert TwoFingers(s, g0, midY).0 == State(singleFingerMoved, leftDownSent, sawTwoFingers, lastMidY, scrollAccum);
        assert out0 + TwoFingers(s, g0, midY).1 == out;
      }
    }
    assert k.events[..|k.events|] == k.events;
    g := State(singleFingerMoved, leftDownSent, sawTwoFingers, lastMidY, scrollAccum);
  }

  method Lift(s: Surface, last: Tap, g: State, k: Stroke) returns (tap: Tap, out: seq<Out>)
    ensures (tap, out) == AtEnd(s, last, g, k)
  {
    tap, out := last, [];
    if g.leftDown {
      out := [Release(Left)];
    } else if g.twoFingers {
    } else if !g.moved && k.dur >= LONG_PRESS_MS {
      out := [Norm(s, k.down), Press(Right), Release(Right)];
    } else if !g.moved && k.dur < TAP_MS {
      var ddx, ddy := k.down.x - last.at.x, k.down.y - last.at.y;
      var isDoubleTap := k.now - last.time < DOUBLE_TAP_MS && ddx * ddx + ddy * ddy < s.doubleTapSlopSq;
      if isDoubleTap {
        out := [Press(Left), Release(Left)];
        tap := last.(time := 0);
      } else {
        out := [Norm(s, k.down), Press(Left), Release(Left)];
        tap := Tap(k.now, k.down);
      }
    }
  }

  // -------------------------------------------------------------------- buttons

  /** One output played on the buttons held: none is pressed twice or released unheld. */
  function Play(held: set<Button>, o: Out): Option<set<Button>>
  {
    match o
    case Press(b) => if b in held then None else Some(held + {b})
    case Release(b) => if b in held then Some(held - {b}) else None
    case Move(_, _) => Some(held)
    case Scroll(_) => Some(held)
  }

  /** The buttons held after `out`, starting from `held`; none if some step fails. */
  function Plays(held: set<Button>, out: seq<Out>): Option<set<Button>>
  {
    if out == [] then Some(held)
    else
      var h := Plays(held, Front(out));
      if h.None? then None else Play(h.value, Last(out))
  }

  lemma {:induction false} PlaysAppend(held: set<Button>, out: seq<Out>, more: seq<Out>)
    requires Plays(held, out).Some?
    ensures Plays(held, out + more) == Plays(Plays(held, out).value, more)
  {
    if more == [] {
      assert out + more == out;
    } else {
      PlaysAppend(held, out, Front(more));
      assert Front(out + more) == out + Front(more) && Last(out + more) == Last(more);
    }
  }

  lemma PlaysOne(held: set<Button>, o: Out)
    ensures Plays(held, [o]) == Play(held, o)
  {
    assert Front([o]) == [] && Last([o]) == o;
  }

  lemma PlaysClick(held: set<Button>, o: Out, b: Button)
    requires o.Move? && b !in held
    ensures Plays(held, [o, Press(b)]) == Some(held + {b})
    ensures Plays(held, [Press(b), Release(b)]) == Some(held)
    ensures Plays(held, [o, Press(b), Release(b)]) == Some(held)
  {
    PlaysOne(held, o);
    PlaysOne(held, Press(b));
    assert Front([o, Press(b)]) == [o] && Front([Press(b), Release(b)]) == [Press(b)];
    assert Front([o, Press(b), Release(b)]) == [o, Press(b)];
    assert held + {b} - {b} == held;
  }

  function Drag(g: State): set<Button> { if g.leftDown then {Left} else {} }

  /** During a gesture the only button held is the left one of a drag. */
  lemma {:induction false} DuringHeld(s: Surface, down: Pos, es: seq<Touch>)
    ensures Plays({}, During(s, down, FRESH, es).1) == Some(Drag(During(s, down, FRESH, es).0))
  {
    if es != [] {
      DuringHeld(s, down, Front(es));
      var (g, out) := During(s, down, FRESH, Front(es));
      var (h, more) := OnEvent(s, down, g, Last(es));
      PlaysAppend({}, out, more);
      StepHeld(s, down, g, Last(es));
    }
  }

  lemma StepHeld(s: Surface, down: Pos, g: State, e: Touch)
    ensures Plays(Drag(g), OnEvent(s, down, g, e).1) == Some(Drag(OnEvent(s, down, g, e).0))
  {
    hide Norm;
    if e.One? {
      NormMoves(s, e.p);
      PlaysOne(Drag(g), Norm(s, e.p));
      PlaysClick({}, Norm(s, e.p), Left);
      assert {} + {Left} == {Left};
    } else if g.midY.Some? {
      PlaysOne(Drag(g), Scroll(ToInt((g.accum + (MidY(e) - g.midY.value)) / s.px)));
    }
  }

  lemma NormMoves(s: Surface, p: Pos)
    ensures var o := Norm(s, p); o.Move? && 0.0 <= o.x <= 1.0 && 0.0 <= o.y <= 1.0
  {
  }

  lemma EndHeld(s: Surface, last: Tap, g: State, k: Stroke)
    ensures Plays(Drag(g), AtEnd(s, last, g, k).1) == Some({})
  {
    hide Norm;
    NormMoves(s, k.down);
    PlaysOne({Left}, Release(Left));
    PlaysClick({}, Norm(s, k.down), Left);
    PlaysClick({}, Norm(s, k.down), Right);
    assert {Left} - {Left} == {};
  }

  /** Over any strokes, no button is ever pressed while held or released while not, and
      nothing is held when a gesture ends. */
  lemma {:induction false} ButtonsBalanced(s: Surface, ks: seq<Stroke>)
    ensures Plays({}, All(s, ks).1) == Some({})
  {
    if ks != [] {
      ButtonsBalanced(s, Front(ks));
      var k := Last(ks);
      var (tap, out) := All(s, Front(ks));
      var (g, during) := During(s, k.down, FRESH, k.events);
      var (_, ending) := AtEnd(s, tap, g, k);
      DuringHeld(s, k.down, k.events);
      EndHeld(s, tap, g, k);
      PlaysAppend({}, during, ending);
      PlaysAppend({}, out, during + ending);
    }
  }

  predicate Far(s: Surface, down: Pos, e: Touch) { e.One? && DistSq(e.p, down) > s.touchSlopSq }

  /** One finger got beyond the slop before any second finger landed. */
  predicate Dragged(s: Surface, down: Pos, es: seq<Touch>)
  {
    exists i :: 0 <= i < |es| && Far(s, down, es[i]) && forall k | 0 <= k < i :: es[k].One?
  }

  /** The machine's flags, read off the events. */
  lemma {:induction false} FlagsAre(s: Surface, down: Pos, es: seq<Touch>)
    ensures var g := During(s, down, FRESH, es).0;
            && (g.twoFingers <==> exists i :: 0 <= i < |es| && es[i].Two?)
            && (g.moved <==> exists i :: 0 <= i < |es| && Far(s, down, es[i]))
            && (g.leftDown <==> Dragged(s, down, es))
  {
    if es != [] {
      var h, n := During(s, down, FRESH, Front(es)).0, |es| - 1;
      FlagsAre(s, down, Front(es));
      assert forall i | 0 <= i < n :: Front(es)[i] == es[i];
      assert h.leftDown ==> Dragged(s, down, es);
      assert es[n].Two? ==> (Dragged(s, down, es) <==> h.leftDown);
      if es[n].One? && !h.twoFingers {
        assert forall i | 0 <= i < n :: es[i].One?;
      }
    }
  }

  /** A gesture cut off before its last finger lifts leaves the left button held exactly if
      one finger had got beyond the slop before any second finger landed. */
  lemma CutGesture(s: Surface, ks: seq<Stroke>, down: Pos, es: seq<Touch>)
    ensures Plays({}, All(s, ks).1 + During(s, down, FRESH, es).1) == Some(if Dragged(s, down, es) then {Left} else {})
  {
    ButtonsBalanced(s, ks);
    DuringHeld(s, down, es);
    PlaysAppend({}, All(s, ks).1, During(s, down, FRESH, es).1);
    FlagsAre(s, down, es);
  }

  // ------------------------------------------------------------------ no late drag

  /** Once a second finger has landed, the rest of the gesture presses nothing: all that
      can still come is scrolling, and at the end the release of an earlier drag. */
  lemma {:induction false} NoLateDrag(s: Surface, down: Pos, g: State, es: seq<Touch>, last: Tap, k: Stroke)
    requires g.twoFingers && g.leftDown == false
    ensures var (h, out) := During(s, down, g, es);
            && h.twoFingers && !h.leftDown && (forall o | o in out :: o.Scroll?)
            && AtEnd(s, last, h, k).1 == []
  {
    if es != [] {
      NoLateDrag(s, down, g, Front(es), last, k);
    }
  }

  /** A drag that was under way when the second finger landed is only released. */
  lemma {:induction false} DragSurvives(s: Surface, down: Pos, g: State, es: seq<Touch>, last: Tap, k: Stroke)
    requires g.twoFingers && g.leftDown
    ensures var (h, out) := During(s, down, g, es);
            && h.twoFingers && h.leftDown && (forall o | o in out :: o.Scroll?)
            && AtEnd(s, last, h, k).1 == [Release(Left)]
  {
    if es != [] {
      DragSurvives(s, down, g, Front(es), last, k);
    }
  }

  // --------------------------------------------------------------------- scrolling

  function Notches(out: seq<Out>): int
  {
    if out == [] then 0 else Notches(Front(out)) + if Last(out).Scroll? then Last(out).notches else 0
  }

  lemma NotchesOf(out: seq<Out>, n: int)
    ensures Notches(out + if n != 0 then [Scroll(n)] else []) == Notches(out) + n
  {
    if n != 0 {
      assert Front(out + [Scroll(n)]) == out;
    } else {
      assert out + [] == out;
    }
  }

  /** What truncation leaves is less than a notch. */
  lemma Remainder(accum: real, px: real)
    requires px > 0.0
    ensures var n := ToInt(accum / px); -px < accum - n as real * px < px
  {
    var q := accum / px;
    assert q * px == accum;
    var n := ToInt(q);
    assert -1.0 < q - n as real < 1.0;
    Scaled(q, n as real, px, accum);
  }

  lemma Scaled(q: real, n: real, px: real, accum: real)
    requires px > 0.0 && -1.0 < q - n < 1.0 && accum == q * px
    ensures -px < accum - n * px < px
  {
    var f := q - n;
    Small(f, px);
    var a, b := f * px, n * px;
    Distribute(q, n, px);
    assert a == accum - b;
  }

  lemma Small(f: real, px: real)
    requires px > 0.0 && -1.0 < f < 1.0
    ensures -px < f * px < px
  {
    assert (1.0 - f) * px > 0.0;
    assert (1.0 + f) * px > 0.0;
  }

  lemma Distribute(q: real, n: real, px: real)
    ensures (q - n) * px == q * px - n * px
  {
  }

  /** In an uninterrupted two-finger phase nothing of the travel is lost: the notches sent
      plus the remainder are exactly the distance the midpoint moved, and the remainder is
      less than a notch. */
  lemma {:induction false} ScrollConserved(s: Surface, down: Pos, g: State, es: seq<Touch>)
    requires es != [] && forall i | 0 <= i < |es| :: es[i].Two?
    requires g.midY.None? && g.accum == 0.0
    ensures var (h, out) := During(s, down, g, es);
            && h.midY == Some(MidY(Last(es))) && 0.0 - s.px < h.accum < s.px
            && Notches(out) as real * s.px + h.accum == MidY(Last(es)) - MidY(es[0])
  {
    hide ToInt;
    hide Notches;
    hide MidY;
    hide During;
    During0(s, down, g);
    DuringSnoc(s, down, g, Front(es), Last(es));
    assert Front(es) + [Last(es)] == es;
    if |es| == 1 {
      assert Front(es) == [] && Last(es) == es[0];
      assert During(s, down, g, es).1 == [];
      NoNotches();
      assert 0 as real * s.px == 0.0;
    } else {
      ScrollConserved(s, down, g, Front(es));
      var (h, out) := During(s, down, g, Front(es));
      var mid := MidY(Last(es));
      var n := ToInt((h.accum + (mid - h.midY.value)) / s.px);
      Remainder(h.accum + (mid - h.midY.value), s.px);
      NotchesOf(out, n);
      Combine(Notches(out), n, s.px);
    }
  }

  lemma NoNotches()
    ensures Notches([]) == 0
  {
  }

  lemma Combine(a: int, b: int, px: real)
    ensures (a + b) as real * px == a as real * px + b as real * px
  {
  }

  // -------------------------------------------------------------------- pointing

  /** A move names the place under the finger as a share of the surface: on the surface it is
      exact, beyond an edge it stays on that edge, and each axis depends on its own alone. */
  lemma NormIs(s: Surface, p: Pos)
    requires s.width > 0 && s.height > 0
    ensures var o, w, h := Norm(s, p), s.width as real, s.height as real;
            && o.Move?
            && (p.x <= 0.0 ==> o.x == 0.0) && (p.x >= w ==> o.x == 1.0) && (0.0 <= p.x <= w ==> o.x * w == p.x)
            && (p.y <= 0.0 ==> o.y == 0.0) && (p.y >= h ==> o.y == 1.0) && (0.0 <= p.y <= h ==> o.y * h == p.y)
  {
    Share(p.x, s.width as real);
    Share(p.y, s.height as real);
  }

  lemma Share(v: real, w: real)
    requires w > 0.0
    ensures v <= 0.0 ==> CoerceIn(v / w, 0.0, 1.0) == 0.0
    ensures v >= w ==> CoerceIn(v / w, 0.0, 1.0) == 1.0
    ensures 0.0 <= v <= w ==> CoerceIn(v / w, 0.0, 1.0) * w == v
  {
    var q := v / w;
    assert q * w == v;
    Sign(q, w);
    Sign(q - 1.0, w);
    assert (q - 1.0) * w == v - w;
  }

  lemma Sign(a: real, w: real)
    requires w > 0.0
    ensures a > 0.0 <==> a * w > 0.0
    ensures a < 0.0 <==> a * w < 0.0
  {
  }

  /** The moves that follow a finger. */
  function Path(s: Surface, es: seq<Touch>): seq<Out>
    requires forall e | e in es :: e.One?
  {
    if es == [] then [] else Path(s, Front(es)) + [Norm(s, Last(es).p)]
  }

  /** Only one finger, and never beyond the slop. */
  predicate Still(s: Surface, down: Pos, es: seq<Touch>)
  {
    forall i | 0 <= i < |es| :: es[i].One? && !Far(s, down, es[i])
  }

  lemma {:induction false} StillIsSilent(s: Surface, down: Pos, es: seq<Touch>)
    requires Still(s, down, es)
    ensures var (g, out) := During(s, down, FRESH, es);
            out == [] && !g.moved && !g.leftDown && !g.twoFingers
  {
    if es != [] {
      assert forall i | 0 <= i < |es| - 1 :: Front(es)[i] == es[i];
      StillIsSilent(s, down, Front(es));
    }
  }

  /** A drag by one finger: nothing up to the slop, then the pointer is brought to the finger
      before the button goes down, and from there follows it event by event. */
  lemma {:induction false} DragFollows(s: Surface, down: Pos, es: seq<Touch>, i: nat)
    requires i < |es| && Far(s, down, es[i]) && Still(s, down, es[..i]) && forall e | e in es :: e.One?
    ensures var (g, out) := During(s, down, FRESH, es);
            && g.leftDown && !g.twoFingers && g.moved
            && out == [Norm(s, es[i].p), Press(Left)] + Path(s, es[i + 1..])
    decreases |es|
  {
    hide Norm;
    if i == |es| - 1 {
      assert Front(es) == es[..i] && Last(es) == es[i] && es[i + 1..] == [];
      StillIsSilent(s, down, es[..i]);
      assert Path(s, []) == [];
    } else {
      assert Front(es)[..i] == es[..i] && Front(es)[i] == es[i];
      assert Front(es[i + 1..]) == Front(es)[i + 1..] && Last(es[i + 1..]) == Last(es) && Last(es) in es;
      DragFollows(s, down, Front(es), i);
    }
  }

  // --------------------------------------------------------------------- pressing

  /** The buttons pressed, in order. */
  function Pressed(out: seq<Out>): seq<Button>
  {
    if out == [] then [] else Pressed(Front(out)) + if Last(out).Press? then [Last(out).b] else []
  }

  lemma {:induction false} PressedAppend(a: seq<Out>, b: seq<Out>)
    ensures Pressed(a + b) == Pressed(a) + Pressed(b)
  {
    if b == [] {
      assert a + b == a;
    } else {
      PressedAppend(a, Front(b));
      assert Front(a + b) == a + Front(b);
    }
  }

  lemma PressedSnoc(out: seq<Out>, o: Out)
    ensures Pressed(out + [o]) == Pressed(out) + if o.Press? then [o.b] else []
    ensures Pressed([]) == []
  {
    assert Front(out + [o]) == out;
  }

  lemma {:induction false} DuringPressed(s: Surface, down: Pos, es: seq<Touch>)
    ensures Pressed(During(s, down, FRESH, es).1) == if During(s, down, FRESH, es).0.leftDown then [Left] else []
  {
    if es != [] {
      DuringPressed(s, down, Front(es));
      var (g, out) := During(s, down, FRESH, Front(es));
      var more := OnEvent(s, down, g, Last(es)).1;
      PressedAppend(out, more);
      EventPressed(s, down, g, Last(es));
    }
  }

  lemma EventPressed(s: Surface, down: Pos, g: State, e: Touch)
    ensures var (h, out) := OnEvent(s, down, g, e);
            Pressed(out) == (if h.leftDown && !g.leftDown then [Left] else []) && (g.leftDown ==> h.leftDown)
  {
    hide Norm;
    if e.One? {
      NormMoves(s, e.p);
      PressedSnoc([], Norm(s, e.p));
      PressedSnoc([Norm(s, e.p)], Press(Left));
      assert [] + [Norm(s, e.p)] == [Norm(s, e.p)];
      assert [Norm(s, e.p)] + [Press(Left)] == [Norm(s, e.p), Press(Left)];
    } else {
      forall n ensures Pressed([Scroll(n)]) == [] {
        PressedSnoc([], Scroll(n));
        assert [] + [Scroll(n)] == [Scroll(n)];
      }
    }
  }

  /** A gesture presses left once if it drags; if a single finger stays within the slop it
      presses left when lifted before 300 ms and right when after 500; otherwise nothing. */
  lemma OnePress(s: Surface, last: Tap, k: Stroke)
    ensures Pressed(Whole(s, last, k).1) ==
            if Dragged(s, k.down, k.events) then [Left]
            else if !Still(s, k.down, k.events) then []
            else if k.dur < TAP_MS then [Left]
            else if k.dur >= LONG_PRESS_MS then [Right]
            else []
  {
    var (g, out) := During(s, k.down, FRESH, k.events);
    FlagsAre(s, k.down, k.events);
    DuringPressed(s, k.down, k.events);
    PressedAppend(out, AtEnd(s, last, g, k).1);
    EndPressed(s, last, g, k);
  }

  lemma EndPressed(s: Surface, last: Tap, g: State, k: Stroke)
    ensures Pressed(AtEnd(s, last, g, k).1) ==
            if g.leftDown || g.moved || g.twoFingers then []
            else if k.dur < TAP_MS then [Left]
            else if k.dur >= LONG_PRESS_MS then [Right]
            else []
  {
    hide Norm;
    var o := Norm(s, k.down);
    NormMoves(s, k.down);
    ClickPressed(o, Left);
    ClickPressed(o, Right);
  }

  lemma ClickPressed(o: Out, b: Button)
    requires o.Move?
    ensures Pressed([o, Press(b), Release(b)]) == [b] && Pressed([Press(b), Release(b)]) == [b]
    ensures Pressed([Release(b)]) == []
  {
    PressedSnoc([], o);
    PressedSnoc([o], Press(b));
    PressedSnoc([o, Press(b)], Release(b));
    PressedSnoc([], Press(b));
    PressedSnoc([Press(b)], Release(b));
    PressedSnoc([], Release(b));
    assert [] + [o] == [o] && [o] + [Press(b)] == [o, Press(b)];
    assert [o, Press(b)] + [Release(b)] == [o, Press(b), Release(b)];
    assert [] + [Press(b)] == [Press(b)] && [Press(b)] + [Release(b)] == [Press(b), Release(b)];
    assert [] + [Release(b)] == [Release(b)];
  }

  /** A tap or long press happens where the finger came down; the second of two quick taps
      leaves the pointer where the first put it. */
  lemma ClickLands(s: Surface, last: Tap, k: Stroke)
    requires Still(s, k.down, k.events)
    ensures var out := Whole(s, last, k).1;
            && (k.dur < TAP_MS && DoubleTap(s, last, k) ==> out == [Press(Left), Release(Left)])
            && (k.dur < TAP_MS && !DoubleTap(s, last, k) ==> out == [Norm(s, k.down), Press(Left), Release(Left)])
            && (TAP_MS <= k.dur < LONG_PRESS_MS ==> out == [])
            && (k.dur >= LONG_PRESS_MS ==> out == [Norm(s, k.down), Press(Right), Release(Right)])
  {
    StillIsSilent(s, k.down, k.events);
  }
}
