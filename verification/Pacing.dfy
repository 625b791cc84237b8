/** The capture loop's pacing gate. Times are nanoseconds of a monotonic clock. */
module Pacing {
  import opened Basics

  const EARLY_NS := 2_000_000
  const IDLE_LIMIT := 30

  /** One turn of the loop as the clock and the capture card see it: the gate reads
      `now`; a capture that succeeds is encoded by `done`. */
  datatype Outcome = Nothing | Captured(done: int) | Broken

  datatype Turn = Turn(now: int, outcome: Outcome)

  function EndOf(t: Turn): int { if t.outcome.Captured? then t.outcome.done else t.now }

  ghost predicate Monotone(ts: seq<Turn>)
  {
    && (forall i | 0 <= i < |ts| :: ts[i].now <= EndOf(ts[i]))
    && (forall i, j | 0 <= i < j < |ts| :: EndOf(ts[i]) <= ts[j].now)
  }

  /** Gate times and the due time each capture left behind. */
  ghost predicate Paced(gates: seq<int>, dues: seq<int>, interval: nat)
  {
    && |gates| == |dues|
    && (forall i | 0 <= i < |gates| :: gates[i] <= dues[i])
    && (forall i | 0 <= i < |gates| - 1 ::
          gates[i] <= gates[i + 1] && dues[i] <= gates[i + 1] + EARLY_NS && dues[i] + interval <= dues[i + 1])
  }

  lemma PacedSnoc(gates: seq<int>, dues: seq<int>, interval: nat, now: int, done: int)
    requires Paced(gates, dues, interval) && now <= done
    requires gates != [] ==> Last(gates) <= now && Last(dues) <= now + EARLY_NS
    ensures forall due | due >= done && (gates != [] ==> due >= Last(dues) + interval) ::
              Paced(gates + [now], dues + [due], interval)
  {
  }

  /** The loop's variables; `gates`, `dues` are history: the gate time of each capture
      and the due time it left behind. */
  datatype Pace = Pace(
    nextDue: int, idleStrikes: nat, keyframes: nat, broken: bool, gates: seq<int>, dues: seq<int>)

  function Next(p: Pace, t: Turn, interval: nat): Pace
  {
    if p.broken || t.now + EARLY_NS < p.nextDue then p
    else
      match t.outcome
      case Nothing =>
        if p.idleStrikes + 1 >= IDLE_LIMIT then p.(idleStrikes := 0, keyframes := p.keyframes + 1)
        else p.(idleStrikes := p.idleStrikes + 1)
      case Captured(done) =>
        var due := Max(p.nextDue + interval, done);
        p.(idleStrikes := 0, nextDue := due, gates := p.gates + [t.now], dues := p.dues + [due])
      case Broken => p.(broken := true)
  }

  function After(turns: seq<Turn>, interval: nat, start: int): Pace
  {
    if turns == [] then Pace(start, 0, 0, false, [], [])
    else Next(After(Front(turns), interval, start), Last(turns), interval)
  }

  /** run_video_loop, whose turns end when the capture or the encoder fails. */
  method VideoLoop(turns: seq<Turn>, interval: nat, start: int) returns (gates: seq<int>, keyframes: nat, nextDue: int)
    ensures var p := After(turns, interval, start);
            gates == p.gates && keyframes == p.keyframes && nextDue == p.nextDue
  {
    var idleStrikes, i := 0, 0;
    gates, keyframes, nextDue := [], 0, start;
    while i < |turns|
      invariant i <= |turns|
      invariant var p := After(turns[..i], interval, start);
                && !p.broken && p.gates == gates && p.keyframes == keyframes
                && p.nextDue == nextDue && p.idleStrikes == idleStrikes
    {
      var t := turns[i];
      assert Front(turns[..i + 1]) == turns[..i];
      i := i + 1;
      if t.now + EARLY_NS < nextDue {
        continue;
      }
      match t.outcome
      case Nothing =>
        idleStrikes := idleStrikes + 1;
        if idleStrikes >= IDLE_LIMIT {
          keyframes := keyframes + 1;
          idleStrikes := 0;
        }
      case Captured(done) =>
        idleStrikes := 0;
        nextDue := Max(nextDue + interval, done);
        gates := gates + [t.now];
      case Broken =>
        BrokenStays(turns, i, interval, start);
        return;
    }
    assert turns[..|turns|] == turns;
  }

  lemma {:induction false} BrokenStays(turns: seq<Turn>, i: nat, interval: nat, start: int)
    requires i <= |turns| && After(turns[..i], interval, start).broken
    ensures After(turns, interval, start) == After(turns[..i], interval, start)
    decreases |turns|
  {
    if i == |turns| {
      assert turns[..i] == turns;
    } else {
      assert Front(turns)[..i] == turns[..i];
      BrokenStays(Front(turns), i, interval, start);
    }
  }

  /** A capture is due no earlier than one interval after the previous one was, and is
      let through at most 2 ms early; an idle streak forces a keyframe every 30 turns. */
  lemma {:induction false} LoopPaced(turns: seq<Turn>, interval: nat, start: int)
    requires Monotone(turns)
    ensures var p := After(turns, interval, start);
            && Paced(p.gates, p.dues, interval) && (p.gates != [] ==> Last(p.dues) == p.nextDue)
            && (p.gates != [] ==> turns != [] && Last(p.gates) <= Last(turns).now)
            && p.idleStrikes < IDLE_LIMIT && IDLE_LIMIT * p.keyframes + p.idleStrikes <= |turns|
  {
    hide Paced;
    if turns == [] {
      NoCaptures(interval);
    } else {
      LoopPaced(Front(turns), interval, start);
      var p, t := After(Front(turns), interval, start), Last(turns);
      assert turns[|turns| - 1] == t && t.now <= EndOf(t);
      assert |turns| > 1 ==> EndOf(turns[|turns| - 2]) <= t.now && turns[|turns| - 2] == Last(Front(turns));
      if !p.broken && t.now + EARLY_NS >= p.nextDue && t.outcome.Captured? {
        PacedSnoc(p.gates, p.dues, interval, t.now, t.outcome.done);
      }
    }
  }

  /** While nothing is captured, every turn that the gate lets through counts, and every
      30th forces a keyframe. */
  lemma {:induction false} IdleForces(turns: seq<Turn>, idle: seq<Turn>, interval: nat, start: int)
    requires forall t | t in idle :: t.outcome.Nothing? && t.now + EARLY_NS >= After(turns, interval, start).nextDue
    requires !After(turns, interval, start).broken
    ensures var p, q := After(turns, interval, start), After(turns + idle, interval, start);
            && q.gates == p.gates && q.nextDue == p.nextDue && !q.broken
            && IDLE_LIMIT * q.keyframes + q.idleStrikes == IDLE_LIMIT * p.keyframes + p.idleStrikes + |idle|
  {
    if idle == [] {
      assert turns + idle == turns;
    } else {
      assert Last(idle) in idle && turns + idle == turns + Front(idle) + [Last(idle)];
      IdleForces(turns, Front(idle), interval, start);
      AfterSnoc(turns + Front(idle), Last(idle), interval, start);
      var q := After(turns + Front(idle), interval, start);
      Strikes(turns + Front(idle), interval, start);
    }
  }

  lemma {:induction false} Strikes(turns: seq<Turn>, interval: nat, start: int)
    ensures After(turns, interval, start).idleStrikes < IDLE_LIMIT
  {
    if turns != [] {
      Strikes(Front(turns), interval, start);
    }
  }

  lemma NoCaptures(interval: nat)
    ensures Paced([], [], interval)
  {
  }

  /** `m` captures further on, the gate has moved by at least `m - 1` intervals less the
      early margin. */
  lemma {:induction false} Spacing(gates: seq<int>, dues: seq<int>, interval: nat, i: nat, j: nat)
    requires Paced(gates, dues, interval) && i < j < |gates|
    ensures gates[i] <= gates[j] && dues[i] + (j - i) * interval <= dues[j]
    ensures gates[i] + (j - i - 1) * interval <= gates[j] + EARLY_NS
    decreases j
  {
    if i + 1 < j {
      Spacing(gates, dues, interval, i, j - 1);
      assert (j - i) * interval == (j - 1 - i) * interval + interval;
    }
  }

  /** Captures whose gate time falls in the window. */
  function CountIn(gates: seq<int>, lo: int, hi: int): nat
  {
    if gates == [] then 0 else CountIn(Front(gates), lo, hi) + if lo <= Last(gates) <= hi then 1 else 0
  }

  lemma {:induction false} Ends(gates: seq<int>, lo: int, hi: int) returns (i: nat, j: nat)
    requires CountIn(gates, lo, hi) > 0
    ensures i <= j < |gates| && lo <= gates[i] && gates[j] <= hi && CountIn(gates, lo, hi) <= j - i + 1
  {
    if lo <= Last(gates) <= hi {
      i, j := |gates| - 1, |gates| - 1;
      if CountIn(Front(gates), lo, hi) > 0 {
        var k;
        i, k := Ends(Front(gates), lo, hi);
      }
    } else {
      i, j := Ends(Front(gates), lo, hi);
    }
  }

  /** Whatever the capture and encode times, a window of length W sees at most
      (W + 2 ms) / interval + 2 captures. */
  lemma PacingBound(turns: seq<Turn>, interval: nat, start: int, lo: int, hi: int)
    requires Monotone(turns) && interval > 0 && lo <= hi
    ensures CountIn(After(turns, interval, start).gates, lo, hi) <= (hi - lo + EARLY_NS) / interval + 2
  {
    hide Paced;
    LoopPaced(turns, interval, start);
    var p := After(turns, interval, start);
    WindowBound(p.gates, p.dues, interval, lo, hi);
  }

  lemma WindowBound(gates: seq<int>, dues: seq<int>, interval: nat, lo: int, hi: int)
    requires Paced(gates, dues, interval) && interval > 0 && lo <= hi
    ensures CountIn(gates, lo, hi) <= (hi - lo + EARLY_NS) / interval + 2
  {
    var n := CountIn(gates, lo, hi);
    if n > 2 {
      var i, j := Ends(gates, lo, hi);
      Spacing(gates, dues, interval, i, j);
      Product(n - 2, j - i - 1, interval);
      Quotient(n - 2, interval, hi - lo + EARLY_NS);
    }
  }

  lemma Product(a: nat, b: nat, d: nat)
    requires a <= b
    ensures a * d <= b * d
  {
  }

  lemma Quotient(k: nat, d: nat, x: int)
    requires d > 0 && k * d <= x
    ensures k <= x / d
  {
    if k >= x / d + 1 {
      Product(x / d + 1, k, d);
    }
  }

  /** The bound is reached: one frame after a pause, the next at once, and a third 2 ms
      before it is due make three captures in an interval less 2 ms. */
  lemma BoundReached(interval: nat)
    requires interval > EARLY_NS
    ensures var hi := 2 * interval - EARLY_NS;
            var turns := [Turn(interval, Captured(interval)), Turn(interval, Captured(interval)), Turn(hi, Captured(hi))];
            && Monotone(turns)
            && CountIn(After(turns, interval, 0).gates, interval, hi) == (hi - interval + EARLY_NS) / interval + 2
  {
    var hi := 2 * interval - EARLY_NS;
    var t0, t1 := Turn(interval, Captured(interval)), Turn(hi, Captured(hi));
    AfterSnoc([], t0, interval, 0);
    AfterSnoc([t0], t0, interval, 0);
    AfterSnoc([t0, t0], t1, interval, 0);
    assert [] + [t0] == [t0] && [t0] + [t0] == [t0, t0] && [t0, t0] + [t1] == [t0, t0, t1];
    assert After([t0, t0, t1], interval, 0).gates == [] + [interval] + [interval] + [hi];
    CountSnoc([], interval, interval, hi);
    CountSnoc([] + [interval], interval, interval, hi);
    CountSnoc([] + [interval] + [interval], hi, interval, hi);
    assert hi - interval + EARLY_NS == interval && interval / interval == 1;
  }

  lemma AfterSnoc(turns: seq<Turn>, t: Turn, interval: nat, start: int)
    ensures After(turns + [t], interval, start) == Next(After(turns, interval, start), t, interval)
  {
    assert Front(turns + [t]) == turns;
  }

  lemma CountSnoc(gates: seq<int>, g: int, lo: int, hi: int)
    ensures CountIn(gates + [g], lo, hi) == CountIn(gates, lo, hi) + if lo <= g <= hi then 1 else 0
  {
    assert Front(gates + [g]) == gates;
  }
}
