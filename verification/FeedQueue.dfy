/** The decoder feed queues of both players: frames wait for input indices or indices
    for frames, and overload drops the oldest frame. */
module FeedQueue {
  import opened Basics

  datatype Frame = Frame(pts: int, key: bool)

  /** How a frame left the queue. */
  datatype Fate = Submitted(index: nat) | Evicted | Cleared

  /** `gated`: drop everything before a keyframe. H264Player is (32, true), OpusPlayer
      (64, false). `accepted`, `exits`, `offered` and `gate` are history: every frame let
      in, every frame that left and how, every index offered since the last clear, and
      how many frames had been accepted when the keyframe gate last closed. */
  datatype Queue = Queue(
    cap: nat, gated: bool, codec: bool, sawKeyframe: bool, indices: seq<nat>, pending: seq<Frame>,
    accepted: seq<Frame>, exits: seq<(Frame, Fate)>, offered: seq<nat>, used: seq<nat>, gate: nat)

  function Fresh(cap: nat, gated: bool): Queue
  {
    Queue(cap, gated, false, false, [], [], [], [], [], [], 0)
  }

  predicate Admits(q: Queue, f: Frame) { !q.gated || q.sawKeyframe || f.key }

  /** addLast, then pollFirst while over the cap. */
  function Enqueue(q: Queue, f: Frame): Queue
  {
    var p := q.pending + [f];
    if |p| > q.cap then q.(pending := p[1..], exits := q.exits + [(p[0], Evicted)]) else q.(pending := p)
  }

  function Submit(q: Queue, index: nat, f: Frame): Queue
  {
    q.(exits := q.exits + [(f, Submitted(index))], used := q.used + [index])
  }

  function FeedNext(q: Queue, f: Frame): Queue
  {
    if !Admits(q, f) then q
    else
      var a := q.(sawKeyframe := q.sawKeyframe || q.gated, accepted := q.accepted + [f]);
      if !q.codec || q.indices == [] then Enqueue(a, f)
      else Submit(a.(indices := q.indices[1..]), q.indices[0], f)
  }

  function Available(q: Queue, index: nat): Queue
  {
    var o := q.(offered := q.offered + [index]);
    if q.pending != [] then Submit(o.(pending := q.pending[1..]), index, q.pending[0])
    else o.(indices := q.indices + [index])
  }

  function Publish(q: Queue): Queue { q.(codec := true) }

  /** `codec = null`, and for video the keyframe gate closes. */
  function Unpublish(q: Queue): Queue
  {
    q.(codec := false, sawKeyframe := if q.gated then false else q.sawKeyframe,
       gate := if q.gated then |q.accepted| else q.gate)
  }

  function AllCleared(fs: seq<Frame>): seq<(Frame, Fate)>
  {
    if fs == [] then [] else AllCleared(Front(fs)) + [(Last(fs), Cleared)]
  }

  function Clear(q: Queue): Queue
  {
    q.(indices := [], pending := [], exits := q.exits + AllCleared(q.pending), offered := [], used := [])
  }

  function StopNext(q: Queue): Queue
  {
    if q.gated && !q.codec then q else Clear(Unpublish(q))
  }

  function StartNext(q: Queue): Queue { Publish(StopNext(q)) }

  class Player {
    const cap: nat
    const gated: bool
    var codec: bool
    var sawKeyframe: bool
    var availableInputIndices: seq<nat>
    var pendingFrames: seq<Frame>
    ghost var accepted: seq<Frame>
    ghost var exits: seq<(Frame, Fate)>
    ghost var offered: seq<nat>
    ghost var used: seq<nat>
    ghost var gate: nat

    ghost function View(): Queue
      reads this
    {
      Queue(cap, gated, codec, sawKeyframe, availableInputIndices, pendingFrames, accepted, exits, offered, used, gate)
    }

    constructor (cap: nat, gated: bool)
      requires cap > 0
      ensures View() == Fresh(cap, gated)
    {
      this.cap, this.gated := cap, gated;
      codec, sawKeyframe, availableInputIndices, pendingFrames := false, false, [], [];
      accepted, exits, offered, used, gate := [], [], [], [], 0;
    }

    method Feed(frame: Frame)
      requires |pendingFrames| <= cap
      modifies this
      ensures View() == FeedNext(old(View()), frame) && |pendingFrames| <= cap
    {
      if gated && !sawKeyframe {
        if !frame.key {
          return;
        }
        sawKeyframe := true;
      }
      accepted := accepted + [frame];
      if !codec {
        AddLast(frame);
        return;
      }
      if availableInputIndices != [] {
        var idx := availableInputIndices[0];
        availableInputIndices := availableInputIndices[1..];
        exits, used := exits + [(frame, Submitted(idx))], used + [idx];
      } else {
        AddLast(frame);
      }
    }

    method AddLast(frame: Frame)
      requires |pendingFrames| <= cap
      modifies this`pendingFrames, this`exits
      ensures View() == Enqueue(old(View()), frame) && |pendingFrames| <= cap
    {
      pendingFrames := pendingFrames + [frame];
      ghost var full := pendingFrames;
      while |pendingFrames| > cap
        invariant (pendingFrames == full && exits == old(exits)) ||
                  (|full| > cap && |pendingFrames| == cap && pendingFrames == full[1..] &&
                   exits == old(exits) + [(full[0], Evicted)])
        decreases |pendingFrames|
      {
        exits := exits + [(pendingFrames[0], Evicted)];
        pendingFrames := pendingFrames[1..];
      }
    }

    method OnInputBufferAvailable(index: nat)
      modifies this
      ensures View() == Available(old(View()), index)
    {
      offered := offered + [index];
      if pendingFrames != [] {
        var frame := pendingFrames[0];
        pendingFrames := pendingFrames[1..];
        exits, used := exits + [(frame, Submitted(index))], used + [index];
      } else {
        availableInputIndices := availableInputIndices + [index];
      }
    }

    method Stop()
      modifies this
      ensures View() == StopNext(old(View()))
      ensures gated && !old(codec) ==> View() == old(View())
      ensures old(codec) || !gated ==>
                && !codec && pendingFrames == [] && availableInputIndices == [] && (gated ==> !sawKeyframe)
                && exits == old(exits) + AllCleared(old(pendingFrames)) && accepted == old(accepted)
    {
      if gated {
        if !codec {
          return;
        }
        sawKeyframe := false;
        gate := |accepted|;
      }
      codec := false;
      exits := exits + AllCleared(pendingFrames);
      availableInputIndices, pendingFrames, offered, used := [], [], [], [];
    }

    method Start()
      modifies this
      ensures View() == StartNext(old(View()))
      ensures codec && (gated && !old(codec) ==> pendingFrames == old(pendingFrames))
      ensures old(codec) || !gated ==> pendingFrames == [] && availableInputIndices == []
    {
      Stop();
      codec := true;
    }
  }

  // --------------------------------------------------------------------- runs

  /** Callbacks and `feed` come from different threads, so publishing, unpublishing and
      clearing are separate steps, and an index may be offered at any time. */
  datatype Event = Fed(f: Frame) | Offered(index: nat) | Publishes | Unpublishes | Clears

  function Next(q: Queue, e: Event): Queue
  {
    match e
    case Fed(f) => FeedNext(q, f)
    case Offered(i) => Available(q, i)
    case Publishes => Publish(q)
    case Unpublishes => Unpublish(q)
    case Clears => Clear(q)
  }

  function After(q: Queue, es: seq<Event>): Queue
  {
    if es == [] then q else Next(After(q, Front(es)), Last(es))
  }

  predicate Disjoint(q: Queue) { q.pending == [] || q.indices == [] }

  /** A frame is let in while no codec is published but an index is already at hand:
      between `c.start()` and `codec = c`, or after `stop` and a late callback. */
  predicate Gap(q: Queue, e: Event) { e.Fed? && Admits(q, e.f) && !q.codec && q.indices != [] }

  lemma DisjointStep(q: Queue, e: Event)
    requires Disjoint(q) && q.cap > 0
    ensures Disjoint(Next(q, e)) <==> !Gap(q, e)
  {
  }

  function Frames(xs: seq<(Frame, Fate)>): seq<Frame>
  {
    if xs == [] then [] else Frames(Front(xs)) + [Last(xs).0]
  }

  lemma FramesSnoc(xs: seq<(Frame, Fate)>, x: (Frame, Fate))
    ensures Frames(xs + [x]) == Frames(xs) + [x.0]
  {
    assert Front(xs + [x]) == xs;
  }

  lemma {:induction false} FramesCleared(xs: seq<(Frame, Fate)>, fs: seq<Frame>)
    ensures Frames(xs + AllCleared(fs)) == Frames(xs) + fs
  {
    if fs == [] {
      assert xs + AllCleared(fs) == xs;
    } else {
      FramesCleared(xs, Front(fs));
      var ys := xs + AllCleared(Front(fs));
      assert xs + AllCleared(fs) == ys + [(Last(fs), Cleared)];
      FramesSnoc(ys, (Last(fs), Cleared));
      assert Front(fs) + [Last(fs)] == fs;
    }
  }

  /** Frames leave in the order they were accepted. */
  ghost predicate InOrder(q: Queue) { q.accepted == Frames(q.exits) + q.pending }

  /** A frame goes straight to an index while an older one waits. */
  predicate Overtake(q: Queue, e: Event)
  {
    e.Fed? && Admits(q, e.f) && q.codec && q.indices != [] && q.pending != []
  }

  /** Any step but an overtaking one adds the same frames to what was accepted and to what
      left or waits. */
  lemma SameOrder(q: Queue, e: Event)
    requires !Overtake(q, e)
    ensures var q', added := Next(q, e), if e.Fed? && Admits(q, e.f) then [e.f] else [];
            q'.accepted == q.accepted + added && Frames(q'.exits) + q'.pending == Frames(q.exits) + q.pending + added
  {
    hide Frames;
    match e
    case Fed(f) =>
      var p := q.pending + [f];
      if Admits(q, f) {
        if q.codec && q.indices != [] {
          FramesSnoc(q.exits, (f, Submitted(q.indices[0])));
        } else {
          FramesSnoc(q.exits, (p[0], Evicted));
          assert Frames(q.exits) + [p[0]] + p[1..] == Frames(q.exits) + p;
        }
      }
    case Offered(i) =>
      if q.pending != [] {
        FramesSnoc(q.exits, (q.pending[0], Submitted(i)));
        assert Frames(q.exits) + [q.pending[0]] + q.pending[1..] == Frames(q.exits) + q.pending;
      }
    case Clears => FramesCleared(q.exits, q.pending);
    case _ =>
  }

  /** Frames leave in exactly the order they were accepted, indices are used in exactly
      the order they were offered, and nothing else is in the queue. */
  ghost predicate Fifo(q: Queue)
  {
    Disjoint(q) && InOrder(q) && q.offered == q.used + q.indices
  }

  /** At most `cap` frames wait; what was accepted since the gate last closed starts with
      a keyframe. */
  ghost predicate Bounded(q: Queue)
  {
    && |q.pending| <= q.cap
    && q.gate <= |q.accepted|
    && (q.gated ==> (q.sawKeyframe <==> |q.accepted| > q.gate) && (q.sawKeyframe ==> q.accepted[q.gate].key))
  }

  lemma FifoKeeps(q: Queue, e: Event)
    requires Fifo(q) && !Gap(q, e) && q.cap > 0
    ensures Fifo(Next(q, e))
  {
    hide Frames;
    DisjointStep(q, e);
    SameOrder(q, e);
  }

  lemma BoundedKeeps(q: Queue, e: Event)
    requires Bounded(q)
    ensures Bounded(Next(q, e))
  {
  }

  ghost predicate GapFree(q: Queue, es: seq<Event>)
  {
    es == [] || (GapFree(q, Front(es)) && !Gap(After(q, Front(es)), Last(es)))
  }

  lemma {:induction false} RunFifo(cap: nat, gated: bool, es: seq<Event>)
    requires cap > 0 && GapFree(Fresh(cap, gated), es)
    ensures Fifo(After(Fresh(cap, gated), es)) && After(Fresh(cap, gated), es).cap == cap
  {
    hide Fifo;
    hide Gap;
    if es == [] {
      FreshFifo(cap, gated);
    } else {
      RunFifo(cap, gated, Front(es));
      FifoKeeps(After(Fresh(cap, gated), Front(es)), Last(es));
    }
  }

  lemma FreshFifo(cap: nat, gated: bool)
    ensures Fifo(Fresh(cap, gated))
  {
    assert Frames([]) == [];
  }

  lemma {:induction false} CapStays(q: Queue, es: seq<Event>)
    ensures After(q, es).cap == q.cap
  {
    if es != [] {
      CapStays(q, Front(es));
    }
  }

  /** Frames and indices never wait for each other, precisely as long as no frame is fed in
      the gap. */
  lemma {:induction false} DisjointExactly(cap: nat, gated: bool, es: seq<Event>)
    requires cap > 0
    ensures (forall k | 0 <= k <= |es| :: Disjoint(After(Fresh(cap, gated), es[..k]))) <==> GapFree(Fresh(cap, gated), es)
  {
    hide Disjoint, Gap;
    var q := Fresh(cap, gated);
    if es == [] {
      FreshFifo(cap, gated);
    } else {
      DisjointExactly(cap, gated, Front(es));
      CapStays(q, Front(es));
      assert es[..|es|] == es && es[..|es| - 1] == Front(es);
      assert forall k | 0 <= k < |es| :: Front(es)[..k] == es[..k];
      if Disjoint(After(q, Front(es))) {
        DisjointStep(After(q, Front(es)), Last(es));
      }
    }
  }

  lemma {:induction false} RunBounded(cap: nat, gated: bool, es: seq<Event>)
    ensures Bounded(After(Fresh(cap, gated), es))
  {
    if es != [] {
      RunBounded(cap, gated, Front(es));
      BoundedKeeps(After(Fresh(cap, gated), Front(es)), Last(es));
    }
  }

  function FedFrames(es: seq<Event>): seq<Frame>
  {
    if es == [] then [] else FedFrames(Front(es)) + if Last(es).Fed? then [Last(es).f] else []
  }

  /** Which frames are let in: on the audio path all of them; on the video path a keyframe
      always, and any other once a frame was let in since the gate last closed. */
  lemma {:induction false} AcceptedExactly(cap: nat, gated: bool, es: seq<Event>, e: Event)
    ensures var q := After(Fresh(cap, gated), es);
            && (!gated ==> q.accepted == FedFrames(es))
            && (e.Fed? && (!gated || e.f.key || |q.accepted| > q.gate) ==> Next(q, e).accepted == q.accepted + [e.f])
            && (!e.Fed? || (gated && !e.f.key && |q.accepted| <= q.gate) ==> Next(q, e).accepted == q.accepted)
            && Next(q, e).gate == if e.Unpublishes? && gated then |q.accepted| else q.gate
  {
    RunBounded(cap, gated, es);
    KindStays(cap, gated, es);
    if es != [] {
      AcceptedExactly(cap, gated, Front(es), Last(es));
    }
  }

  lemma {:induction false} KindStays(cap: nat, gated: bool, es: seq<Event>)
    ensures After(Fresh(cap, gated), es).gated == gated
  {
    if es != [] {
      KindStays(cap, gated, Front(es));
    }
  }

  // --------------------------------------------------------------- consequences

  predicate WasSubmitted(x: (Frame, Fate)) { x.1.Submitted? }

  predicate WasEvicted(x: (Frame, Fate)) { x.1.Evicted? }

  predicate WasCleared(x: (Frame, Fate)) { x.1.Cleared? }

  /** The frames that left in a way `p`, however often. */
  ghost function Bag(xs: seq<(Frame, Fate)>, p: ((Frame, Fate)) -> bool): multiset<Frame>
  {
    multiset(Frames(Filter(xs, p)))
  }

  lemma BagNone(p: ((Frame, Fate)) -> bool)
    ensures Bag([], p) == multiset{} == multiset(Frames([]))
  {
    assert Filter<(Frame, Fate)>([], p) == [];
  }

  lemma {:induction false} FatesPartition(xs: seq<(Frame, Fate)>)
    ensures multiset(Frames(xs)) == Bag(xs, WasSubmitted) + Bag(xs, WasEvicted) + Bag(xs, WasCleared)
  {
    hide Bag, Frames;
    if xs == [] {
      BagNone(WasSubmitted);
      BagNone(WasEvicted);
      BagNone(WasCleared);
    } else {
      FatesPartition(Front(xs));
      assert Front(xs) + [Last(xs)] == xs;
      BagSnoc(Front(xs), Last(xs), WasSubmitted);
      BagSnoc(Front(xs), Last(xs), WasEvicted);
      BagSnoc(Front(xs), Last(xs), WasCleared);
      FramesSnoc(Front(xs), Last(xs));
    }
  }

  lemma BagSnoc(xs: seq<(Frame, Fate)>, x: (Frame, Fate), p: ((Frame, Fate)) -> bool)
    ensures Bag(xs + [x], p) == Bag(xs, p) + if p(x) then multiset{x.0} else multiset{}
  {
    FilterSnoc(xs, x, p);
    FramesSnoc(Filter(xs, p), x);
    assert Filter(xs, p) + [] == Filter(xs, p);
  }

  lemma {:induction false} SubmittedOnly(xs: seq<(Frame, Fate)>)
    ensures Subseq(Frames(Filter(xs, WasSubmitted)), Frames(xs))
  {
    if xs != [] {
      SubmittedOnly(Front(xs));
      SubseqSnoc(Frames(Filter(Front(xs), WasSubmitted)), Frames(Front(xs)), Last(xs).0);
      if WasSubmitted(Last(xs)) {
        FramesSnoc(Filter(Front(xs), WasSubmitted), Last(xs));
      } else {
        assert Filter(xs, WasSubmitted) == Filter(Front(xs), WasSubmitted);
      }
    }
  }

  /** Every accepted frame has left once or waits, and nothing else did. */
  ghost predicate Entire(q: Queue)
  {
    multiset(q.accepted) == multiset(Frames(q.exits) + q.pending)
  }

  lemma EntireKeeps(q: Queue, e: Event)
    requires Entire(q)
    ensures Entire(Next(q, e))
  {
    hide Frames;
    if Overtake(q, e) {
      FramesSnoc(q.exits, (e.f, Submitted(q.indices[0])));
    } else {
      SameOrder(q, e);
    }
  }

  lemma {:induction false} RunEntire(cap: nat, gated: bool, es: seq<Event>)
    ensures Entire(After(Fresh(cap, gated), es))
  {
    if es != [] {
      RunEntire(cap, gated, Front(es));
      EntireKeeps(After(Fresh(cap, gated), Front(es)), Last(es));
    }
  }

  /** In every run, in the gap or not, each accepted frame was submitted once, evicted
      once, cleared once, or still waits. */
  lemma Conservation(cap: nat, gated: bool, es: seq<Event>)
    ensures var q := After(Fresh(cap, gated), es);
            multiset(q.accepted) == Bag(q.exits, WasSubmitted) + multiset(q.pending) +
                                    Bag(q.exits, WasEvicted) + Bag(q.exits, WasCleared)
  {
    RunEntire(cap, gated, es);
    FatesPartition(After(Fresh(cap, gated), es).exits);
  }

  // ---------------------------------------------------------------------- order

  ghost predicate OvertakeFree(q: Queue, es: seq<Event>)
  {
    es == [] || (OvertakeFree(q, Front(es)) && !Overtake(After(q, Front(es)), Last(es)))
  }

  predicate Distinct(fs: seq<Frame>) { forall i, j | 0 <= i < j < |fs| :: fs[i] != fs[j] }

  lemma OvertakeReorders(q: Queue, e: Event)
    requires Entire(q) && Overtake(q, e) && Distinct(Next(q, e).accepted)
    ensures !InOrder(Next(q, e))
  {
    hide Frames;
    FramesSnoc(q.exits, (e.f, Submitted(q.indices[0])));
    var last := Last(q.pending);
    assert last in multiset(q.pending) && last in multiset(q.accepted);
    var i :| 0 <= i < |q.accepted| && q.accepted[i] == last;
    assert Next(q, e).accepted == q.accepted + [e.f];
    assert (q.accepted + [e.f])[i] == last && (q.accepted + [e.f])[|q.accepted|] == e.f;
    assert Last(Frames(q.exits) + [e.f] + q.pending) == last;
  }

  /** Frames leave in the order they were accepted if and only if none was submitted past
      a waiting one. (Of equal frames no one can say which came first.) */
  lemma {:induction false} OrderExactly(cap: nat, gated: bool, es: seq<Event>)
    requires Distinct(After(Fresh(cap, gated), es).accepted)
    ensures InOrder(After(Fresh(cap, gated), es)) <==> OvertakeFree(Fresh(cap, gated), es)
  {
    hide Frames, Overtake;
    if es == [] {
      FreshFifo(cap, gated);
    } else {
      var q, e := After(Fresh(cap, gated), Front(es)), Last(es);
      RunEntire(cap, gated, Front(es));
      assert q.accepted <= Next(q, e).accepted;
      assert Distinct(q.accepted) by { PrefixDistinct(q.accepted, Next(q, e).accepted); }
      OrderExactly(cap, gated, Front(es));
      if Overtake(q, e) {
        OvertakeReorders(q, e);
      } else {
        SameOrder(q, e);
        SameSize(q);
      }
    }
  }

  lemma PrefixDistinct(fs: seq<Frame>, gs: seq<Frame>)
    requires fs <= gs && Distinct(gs)
    ensures Distinct(fs)
  {
    assert forall i | 0 <= i < |fs| :: fs[i] == gs[i];
  }

  lemma SameSize(q: Queue)
    requires Entire(q)
    ensures |q.accepted| == |Frames(q.exits) + q.pending|
  {
    assert |multiset(q.accepted)| == |q.accepted|;
    assert |multiset(Frames(q.exits)) + multiset(q.pending)| == |Frames(q.exits)| + |q.pending|;
  }

  /** As long as no frame overtakes another, the decoder is fed in order a subsequence of
      the accepted frames that ends with everything still waiting. */
  lemma {:induction false} FedInOrder(cap: nat, gated: bool, es: seq<Event>)
    requires OvertakeFree(Fresh(cap, gated), es)
    ensures var q := After(Fresh(cap, gated), es);
            InOrder(q) && Subseq(Frames(Filter(q.exits, WasSubmitted)) + q.pending, q.accepted)
  {
    hide Frames, Overtake;
    var q := After(Fresh(cap, gated), es);
    if es == [] {
      FreshFifo(cap, gated);
    } else {
      FedInOrder(cap, gated, Front(es));
      SameOrder(After(Fresh(cap, gated), Front(es)), Last(es));
    }
    SubmittedOnly(q.exits);
    SubseqExtend(Frames(Filter(q.exits, WasSubmitted)), Frames(q.exits), q.pending);
  }

  /** Without the gap nothing can be overtaken. */
  lemma {:induction false} GapComesFirst(cap: nat, gated: bool, es: seq<Event>)
    requires cap > 0 && GapFree(Fresh(cap, gated), es)
    ensures OvertakeFree(Fresh(cap, gated), es)
  {
    hide Gap, Frames;
    if es != [] {
      GapComesFirst(cap, gated, Front(es));
      RunFifo(cap, gated, Front(es));
    }
  }

  /** A frame is evicted only by a frame that finds the queue full, and it is the oldest. */
  lemma EvictsOldest(cap: nat, gated: bool, es: seq<Event>, e: Event)
    ensures var q := After(Fresh(cap, gated), es);
            var q' := Next(q, e);
            |Filter(q'.exits, WasEvicted)| > |Filter(q.exits, WasEvicted)| ==>
              e.Fed? && |q.pending| == q.cap && Last(q'.exits) == ((q.pending + [e.f])[0], Evicted)
  {
    RunBounded(cap, gated, es);
    var q := After(Fresh(cap, gated), es);
    NewExits(q, e);
  }

  lemma {:induction false} ClearedNotEvicted(xs: seq<(Frame, Fate)>, fs: seq<Frame>)
    ensures Filter(xs + AllCleared(fs), WasEvicted) == Filter(xs, WasEvicted)
  {
    if fs == [] {
      assert xs + AllCleared(fs) == xs;
    } else {
      ClearedNotEvicted(xs, Front(fs));
      assert xs + AllCleared(fs) == xs + AllCleared(Front(fs)) + [(Last(fs), Cleared)];
      FilterSnoc(xs + AllCleared(Front(fs)), (Last(fs), Cleared), WasEvicted);
    }
  }

  lemma NewExits(q: Queue, e: Event)
    requires |q.pending| <= q.cap
    ensures var q' := Next(q, e);
            |Filter(q'.exits, WasEvicted)| > |Filter(q.exits, WasEvicted)| ==>
              e.Fed? && |q.pending| == q.cap && Last(q'.exits) == ((q.pending + [e.f])[0], Evicted)
  {
    match e
    case Fed(f) =>
      if q.indices != [] {
        FilterSnoc(q.exits, (f, Submitted(q.indices[0])), WasEvicted);
      }
    case Offered(i) =>
      if q.pending != [] {
        FilterSnoc(q.exits, (q.pending[0], Submitted(i)), WasEvicted);
      }
    case Clears => ClearedNotEvicted(q.exits, q.pending);
    case _ =>
  }

  /** Frames fed before the codec exists survive `start` on the video path only: the
      audio path's `start` begins with a `stop` that clears them. */
  lemma EarlyFrames(q: Queue)
    requires !q.codec
    ensures StartNext(q).pending == if q.gated then q.pending else []
  {
  }

  /** In the gap the decoder gets frames out of order. */
  lemma GapReorders(f: Frame, g: Frame)
    requires f.key && f != g
    ensures var es := [Offered(0), Fed(f), Publishes, Fed(g), Offered(1)];
            var q := After(Fresh(32, true), es);
            q.accepted == [f, g] && q.exits == [(g, Submitted(0)), (f, Submitted(1))]
  {
    var q0 := Fresh(32, true);
    var e1, e2, e3 := [Offered(0)], [Offered(0), Fed(f)], [Offered(0), Fed(f), Publishes];
    var e4 := [Offered(0), Fed(f), Publishes, Fed(g)];
    assert Front(e1) == [] && Front(e2) == e1 && Front(e3) == e2 && Front(e4) == e3;
    assert Front([Offered(0), Fed(f), Publishes, Fed(g), Offered(1)]) == e4;
    assert After(q0, e1).indices == [0];
    assert After(q0, e2).pending == [f] && After(q0, e2).indices == [0];
    assert After(q0, e4).exits == [(g, Submitted(0))];
  }
}
