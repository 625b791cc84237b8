/** What the tunnel may lose and what it may not: A/V frames only where a queue is full, a
    writer is gone or a phone has no route, and messages of a live session never. */
module TunnelFlow {
  import opened Basics
  import opened Messages
  import opened Link
  import opened Tunnel
  import opened TunnelLegs
  import opened TunnelProof

  // ------------------------------------------------------------------ A/V frames

  function AvOf(l: Leg, pipe: seq<Msg>): seq<Msg>
  {
    Av(l.seen) + Av(l.wire) + l.fast + Av(pipe) + l.vid
  }

  /** The A/V frames that reached phone `c` or are still on their way to it, oldest first. */
  function Flow(s: Net, c: Cid): seq<Msg>
    requires c in s.legs
  {
    AvOf(s.legs[c], PipeFor(s, c))
  }

  /** An A/V frame for `c` meets a full queue, a missing route or a dead writer. */
  predicate Drops(s: Net, a: Action, c: Cid)
    requires Enabled(s, a) && c in s.legs
  {
    match a
    case EmitAv(d, _) => d == c && |s.legs[c].vid| >= OUTBOUND_VIDEO_CAP
    case HostRead => s.up[0].Data? && s.up[0].c == c && IsAv(s.up[0].m) && c !in s.clients
    case Queue =>
      && s.held[0].c == c && IsAv(s.held[0].m)
      && (!s.legs[c].writing || |s.legs[c].fast| >= PER_CLIENT_FAST_CAP)
    case _ => false
  }

  /** The A/V frame that the session of `c` produces in this step. */
  function Produced(a: Action, c: Cid): seq<Msg>
  {
    if a.EmitAv? && a.c == c then [a.m] else []
  }

  /** What one step does to the frames on their way. */
  ghost predicate Flows(s: Net, a: Action, t: Net, c: Cid)
    requires Enabled(s, a) && c in s.legs
  {
    && c in t.legs
    && t.legs[c].av == s.legs[c].av + Produced(a, c)
    && (if Drops(s, a, c) then |Flow(t, c)| + 1 == |Flow(s, c)| + |Produced(a, c)|
        else Flow(t, c) == Flow(s, c) + Produced(a, c))
  }

  lemma NothingNew(q: seq<Msg>)
    ensures q + [] == q
  {
  }

  lemma StillFlows(s: Net, a: Action, t: Net, c: Cid)
    requires Enabled(s, a) && c in s.legs && c in t.legs && !Drops(s, a, c) && Produced(a, c) == []
    requires t.legs[c].av == s.legs[c].av && Flow(t, c) == Flow(s, c)
    ensures Flows(s, a, t, c)
  {
    NothingNew(s.legs[c].av);
    NothingNew(Flow(s, c));
  }

  /** The fields of a leg that A/V frames pass through. */
  predicate SameAv(l: Leg, k: Leg)
  {
    l.seen == k.seen && l.wire == k.wire && l.fast == k.fast && l.vid == k.vid && l.av == k.av
  }

  /** The phone whose leg a step changes. */
  function Owner(s: Net, a: Action): Option<Cid>
    requires Enabled(s, a)
  {
    match a
    case ClearClients => None
    case HostWrite => None
    case HostWriterStop => None
    case PcWrite => None
    case PcRead => Some(s.down[0].c)
    case HostRead => Some(s.up[0].c)
    case Queue => Some(s.held[0].c)
    case _ => Some(a.c)
  }

  lemma OthersStand(s: Net, a: Action, c: Cid)
    requires Enabled(s, a) && c in s.legs && Owner(s, a) != Some(c)
    ensures c in Apply(s, a).legs && Apply(s, a).legs[c] == s.legs[c]
    ensures !Drops(s, a, c) && Produced(a, c) == []
  {
    if a.PcRead? || a.HostRead? || a.Queue? {
      OthersStandShared(s, a, c);
    } else if a.Dial? || a.Register? || a.SendOpen? || a.Forward? || a.ReaderEnd? || a.SendClose? || a.Unregister? {
      OthersStandReader(s, a, c);
    }
  }

  lemma OthersStandShared(s: Net, a: Action, c: Cid)
    requires Enabled(s, a) && c in s.legs && Owner(s, a) != Some(c) && (a.PcRead? || a.HostRead? || a.Queue?)
    ensures c in Apply(s, a).legs && Apply(s, a).legs[c] == s.legs[c] && !Drops(s, a, c)
  {
  }

  lemma OthersStandReader(s: Net, a: Action, c: Cid)
    requires Enabled(s, a) && c in s.legs && Owner(s, a) != Some(c)
    requires a.Dial? || a.Register? || a.SendOpen? || a.Forward? || a.ReaderEnd? || a.SendClose? || a.Unregister?
    ensures c in Apply(s, a).legs && Apply(s, a).legs[c] == s.legs[c]
  {
  }

  /** Only the pump puts messages into the pipe and only the relay takes them out. */
  lemma PipeStands(s: Net, a: Action, c: Cid)
    requires Shape(s) && Enabled(s, a) && c in s.legs && !a.Pump? && !a.HostRead? && !a.Queue?
    ensures PipeFor(Apply(s, a), c) == PipeFor(s, c)
  {
    assert Pipe(Apply(s, a)) == Pipe(s);
  }

  lemma PumpFlows(s: Net, a: Action, c: Cid)
    requires Inv(s) && Enabled(s, a) && a.Pump? && c in s.legs
    ensures Flows(s, a, Apply(s, a), c)
  {
    var t := Apply(s, a);
    var l, m := s.legs[a.c], PumpTurn(s.legs[a.c]).0;
    PushPipeFlow(s, t, a.c, m);
    if a.c == c {
      assert LegOk(s, c);
      PumpAvOf(l, PipeFor(s, c), c, Feed(s, c), Routable(s, c), c in s.sessions);
    }
    StillFlows(s, a, t, c);
  }

  lemma PumpAvOf(l: Leg, pipe: seq<Msg>, c: Cid, feed: seq<Frame>, r: bool, q: bool)
    requires LegInv(c, l, feed, pipe, r, q) && (l.ctl != [] || l.vid != [] || l.blk != [])
    ensures AvOf(PumpTurn(l).1, pipe + [PumpTurn(l).0]) == AvOf(l, pipe)
  {
    var m := PumpTurn(l).0;
    Snoc(pipe, m);
    if l.ctl != [] {
      assert m in l.ctl && IsText(m);
      NothingNew(Av(pipe));
    } else if l.vid != [] {
      assert m in l.vid && IsAv(m);
      var a := Av(l.seen) + Av(l.wire) + l.fast;
      assert a + (Av(pipe) + [m]) + l.vid[1..] == a + Av(pipe) + l.vid;
    } else {
      assert m in l.blk && IsFile(m);
      NothingNew(Av(pipe));
    }
  }

  lemma TakeTurnAvOf(l: Leg, pipe: seq<Msg>, r: bool)
    requires DownInv(l, pipe, r) && (l.fast != [] || l.bulk != [])
    ensures AvOf(TakeTurn(l), pipe) == AvOf(l, pipe)
  {
    hide Subseq;
    Snoc(l.wire, if l.fast != [] then l.fast[0] else l.bulk[0]);
    if l.fast != [] {
      assert l.fast[0] in l.fast;
      assert Av(l.wire) + [l.fast[0]] + l.fast[1..] == Av(l.wire) + l.fast;
      assert Av(l.seen) + (Av(l.wire) + [l.fast[0]]) + l.fast[1..] == Av(l.seen) + Av(l.wire) + l.fast;
    } else {
      assert l.bulk[0] in l.bulk;
      NothingNew(Av(l.wire));
    }
  }

  lemma ReceiveAvOf(l: Leg, pipe: seq<Msg>)
    requires l.wire != []
    ensures AvOf(l.(seen := l.seen + [l.wire[0]], wire := l.wire[1..]), pipe) == AvOf(l, pipe)
  {
    Snoc(l.seen, l.wire[0]);
    Head(l.wire);
    assert Av(l.seen + [l.wire[0]]) + Av(l.wire[1..]) == Av(l.seen) + Av(l.wire);
  }

  /** The head of the pipe leaves it: into the fast queue, or for good. */
  lemma PopAvOf(l: Leg, m: Msg, pipe: seq<Msg>)
    ensures IsMust(m) ==> AvOf(l, [m] + pipe) == AvOf(l, pipe)
    ensures IsAv(m) ==> AvOf(l.(fast := l.fast + [m]), pipe) == AvOf(l, [m] + pipe)
    ensures IsAv(m) ==> |AvOf(l, pipe)| + 1 == |AvOf(l, [m] + pipe)|
  {
    Head([m] + pipe);
    assert ([m] + pipe)[1..] == pipe;
    var a := Av(l.seen) + Av(l.wire);
    if IsAv(m) {
      assert a + (l.fast + [m]) + Av(pipe) == a + l.fast + ([m] + Av(pipe));
    } else {
      assert [] + Av(pipe) == Av(pipe);
    }
  }

  lemma QueueFlows(s: Net, c: Cid)
    requires Inv(s) && Enabled(s, Queue) && c in s.legs
    ensures Flows(s, Queue, Apply(s, Queue), c)
  {
    var t, f := Apply(s, Queue), s.held[0];
    assert s.held == [f] && Pipe(s) == [f] + Pipe(t);
    PipeHead(s, t, f, c);
    NothingNew(s.legs[c].av);
    NothingNew(Flow(s, c));
    if f.c == c {
      PopAvOf(s.legs[c], f.m, PipeFor(t, c));
    } else {
      assert [] + PipeFor(t, c) == PipeFor(t, c);
    }
  }

  lemma RouteFlows(s: Net, c: Cid)
    requires Inv(s) && Enabled(s, HostRead) && c in s.legs
    ensures Flows(s, HostRead, Apply(s, HostRead), c)
  {
    assert s.up[0] in s.up;
    hide Flows, LegInv;
    if s.up[0].c in s.clients {
      HeldFlows(s, c);
    } else {
      LostFlows(s, c);
    }
  }

  lemma HeldFlows(s: Net, c: Cid)
    requires Shape(s) && Enabled(s, HostRead) && s.up[0].c in s.clients && c in s.legs
    ensures Flows(s, HostRead, Apply(s, HostRead), c)
  {
    HostReadHolds(s, Apply(s, HostRead));
    hide Apply;
    StillFlows(s, HostRead, Apply(s, HostRead), c);
  }

  lemma LostFlows(s: Net, c: Cid)
    requires Enabled(s, HostRead) && s.up[0].c !in s.clients && s.up[0].Data? && c in s.legs
    ensures Flows(s, HostRead, Apply(s, HostRead), c)
  {
    var t, f := Apply(s, HostRead), s.up[0];
    LostLeg(s, c);
    PipeHead(s, t, f, c);
    hide Apply, PipeFor;
    NothingNew(s.legs[c].av);
    NothingNew(Flow(s, c));
    if f.c == c {
      PopAvOf(s.legs[c], f.m, PipeFor(t, c));
    } else {
      assert [] + PipeFor(t, c) == PipeFor(t, c);
    }
  }

  lemma LostLeg(s: Net, c: Cid)
    requires Enabled(s, HostRead) && s.up[0].c !in s.clients && s.up[0].Data? && c in s.legs
    ensures var t := Apply(s, HostRead);
            Pipe(s) == [s.up[0]] + Pipe(t) && c in t.legs && SameAv(s.legs[c], t.legs[c])
  {
  }

  lemma EmitAvFlows(s: Net, c: Cid, m: Msg)
    requires Shape(s) && Enabled(s, EmitAv(c, m))
    ensures Flows(s, EmitAv(c, m), Apply(s, EmitAv(c, m)), c)
  {
    var l, pipe := s.legs[c], PipeFor(s, c);
    PipeStands(s, EmitAv(c, m), c);
    var a := Av(l.seen) + Av(l.wire) + l.fast + Av(pipe);
    assert a + (l.vid + [m]) == a + l.vid + [m];
  }

  /** The steps that leave the pipe alone. */
  lemma OwnFlows(s: Net, a: Action, c: Cid)
    requires Inv(s) && Enabled(s, a) && !a.Pump? && !a.HostRead? && !a.Queue? && !a.EmitAv?
    requires Owner(s, a) == Some(c) && c in s.legs
    ensures Flows(s, a, Apply(s, a), c)
  {
    var t := Apply(s, a);
    PipeStands(s, a, c);
    assert LegOk(s, c);
    if a.WriterTurn? {
      TakeTurnAvOf(s.legs[c], PipeFor(s, c), Routable(s, c));
    } else if a.PhoneReceive? {
      ReceiveAvOf(s.legs[c], PipeFor(s, c));
    } else {
      QuietLeg(s, a, c);
    }
    StillFlows(s, a, t, c);
  }

  lemma QuietLeg(s: Net, a: Action, c: Cid)
    requires Enabled(s, a) && c in s.legs && Owner(s, a) == Some(c) && !a.Pump? && !a.Queue? && !a.EmitAv?
    requires !a.WriterTurn? && !a.PhoneReceive? && !a.HostRead?
    ensures c in Apply(s, a).legs && SameAv(s.legs[c], Apply(s, a).legs[c])
  {
    if a.Register? || a.SendOpen? || a.Forward? || a.ReaderEnd? || a.SendClose? || a.Unregister? {
      QuietReader(s, a, c);
    }
  }

  lemma QuietReader(s: Net, a: Action, c: Cid)
    requires Enabled(s, a) && c in s.legs && Owner(s, a) == Some(c)
    requires a.Register? || a.SendOpen? || a.Forward? || a.ReaderEnd? || a.SendClose? || a.Unregister?
    ensures c in Apply(s, a).legs && SameAv(s.legs[c], Apply(s, a).legs[c])
  {
  }

  lemma FlowStep(s: Net, a: Action, c: Cid)
    requires Inv(s) && Enabled(s, a) && c in s.legs
    ensures Flows(s, a, Apply(s, a), c)
  {
    hide Flows, Inv;
    if a.Pump? {
      PumpFlows(s, a, c);
    } else if a.Queue? {
      QueueFlows(s, c);
    } else if a.HostRead? {
      RouteFlows(s, c);
    } else if Owner(s, a) != Some(c) {
      OthersFlow(s, a, c);
    } else if a.EmitAv? {
      ShapeOf(s);
      EmitAvFlows(s, c, a.m);
    } else {
      OwnFlows(s, a, c);
    }
  }

  lemma ShapeOf(s: Net)
    requires Inv(s)
    ensures Shape(s)
  {
  }

  lemma OthersFlow(s: Net, a: Action, c: Cid)
    requires Inv(s) && Enabled(s, a) && c in s.legs && Owner(s, a) != Some(c)
    requires !a.Pump? && !a.HostRead? && !a.Queue?
    ensures Flows(s, a, Apply(s, a), c)
  {
    OthersStand(s, a, c);
    PipeStands(s, a, c);
    StillFlows(s, a, Apply(s, a), c);
  }

  /** How many A/V frames for `c` were dropped before step `i`. */
  ghost function Dropped(ss: seq<Net>, acts: seq<Action>, c: Cid, i: nat): nat
    requires Run(ss, acts) && i < |ss|
  {
    if i == 0 then 0
    else Dropped(ss, acts, c, i - 1) + if c in ss[i - 1].legs && Drops(ss[i - 1], acts[i - 1], c) then 1 else 0
  }

  lemma {:induction false} FlowRun(ss: seq<Net>, acts: seq<Action>, c: Cid, i: nat)
    requires Run(ss, acts) && i < |ss|
    ensures c !in ss[i].legs ==> Dropped(ss, acts, c, i) == 0
    ensures c in ss[i].legs ==> |ss[i].legs[c].av| == |Flow(ss[i], c)| + Dropped(ss, acts, c, i)
    ensures c in ss[i].legs && Dropped(ss, acts, c, i) == 0 ==> Flow(ss[i], c) == ss[i].legs[c].av
  {
    hide Inv, Apply, Enabled, Drops, Flow;
    if i > 0 {
      var s, a := ss[i - 1], acts[i - 1];
      FlowRun(ss, acts, c, i - 1);
      RunInv(ss, acts, i - 1);
      if c in s.legs {
        FlowStep(s, a, c);
      } else if c in ss[i].legs {
        FreshFlow(s, a, c);
      }
    }
  }

  lemma FreshFlow(s: Net, a: Action, c: Cid)
    requires Inv(s) && Enabled(s, a) && c !in s.legs && c in Apply(s, a).legs
    ensures Flow(Apply(s, a), c) == [] == Apply(s, a).legs[c].av
  {
    assert a == Dial(c);
    var t := Apply(s, a);
    StrangerHasNothing(s, c);
    assert Pipe(t) == Pipe(s);
    assert Av([]) == [];
  }

  /** In every run, of the A/V frames that the session of `c` produced exactly those are
      missing that met a full queue, a missing route or a dead writer; and as long as none
      did, all of them are with the phone or on their way to it, in the order produced. */
  lemma AvConserved(ss: seq<Net>, acts: seq<Action>, c: Cid, i: nat)
    requires Run(ss, acts) && i < |ss| && c in ss[i].legs
    ensures |ss[i].legs[c].av| - |Flow(ss[i], c)| == Dropped(ss, acts, c, i)
    ensures Flow(ss[i], c) == ss[i].legs[c].av <==> Dropped(ss, acts, c, i) == 0
  {
    FlowRun(ss, acts, c, i);
  }

  // -------------------------------------------------------------------- sessions

  /** A session lives from its Open until its Close or the end of its pump. */
  ghost predicate SessionExact(s: Net, c: Cid)
    requires c in s.legs
  {
    var l := s.legs[c];
    && (c in s.sessions <==> l.served != [] && l.pumping && ClientClose(c) !in l.served)
    && (l.served == [] ==> l.pumping)
  }

  lemma SessionStep(s: Net, a: Action, c: Cid)
    requires Inv(s) && Enabled(s, a) && c in s.legs && SessionExact(s, c)
    ensures c in Apply(s, a).legs && SessionExact(Apply(s, a), c)
  {
    hide Inv;
    if a.PcRead? && s.down[0].c == c {
      ServeSession(s, c);
    } else {
      QuietSession(s, a, c);
    }
  }

  lemma QuietSession(s: Net, a: Action, c: Cid)
    requires Enabled(s, a) && c in s.legs && SessionExact(s, c) && !(a.PcRead? && s.down[0].c == c)
    ensures c in Apply(s, a).legs && SessionExact(Apply(s, a), c)
  {
    if a.Dial? || a.PhoneSend? || a.EmitText? || a.EmitFile? || a.EmitAv? {
      assert c in Apply(s, a).legs;
    } else if Owner(s, a) != Some(c) {
      OthersStand(s, a, c);
    }
  }

  lemma ServeSession(s: Net, c: Cid)
    requires Inv(s) && Enabled(s, PcRead) && c == s.down[0].c && c in s.legs && SessionExact(s, c)
    ensures c in Apply(s, PcRead).legs && SessionExact(Apply(s, PcRead), c)
  {
    var f, t := s.down[0], Apply(s, PcRead);
    OpenIsNew(s);
    hide Inv;
  }

  lemma OpenIsNew(s: Net)
    requires Inv(s) && Enabled(s, PcRead)
    ensures s.down[0].ClientOpen? <==> s.legs[s.down[0].c].served == []
  {
    hide LegInv, Feed, PipeFor, Apply;
    var f, c, t := s.down[0], s.down[0].c, Apply(s, PcRead);
    PcReadFlow(s, t);
    assert LegOk(s, c);
    OpenComesFirst(c, s.legs[c], f, Feed(t, c), PipeFor(s, c), Routable(s, c), c in s.sessions);
  }

  lemma OpenComesFirst(c: Cid, l: Leg, f: Frame, feed: seq<Frame>, pipe: seq<Msg>, r: bool, q: bool)
    requires LegInv(c, l, [f] + feed, pipe, r, q)
    ensures f.ClientOpen? <==> l.served == []
  {
    hide DownInv, Writer, Payloads;
    assert l.served + ([f] + feed) == l.link;
    assert l.link[|l.served|] == f;
  }

  /** In every run the PC serves a phone exactly from its Open until its Close or until its
      pump ends, and a phone served has had all its messages handed on. */
  lemma {:induction false} SessionsExact(ss: seq<Net>, acts: seq<Action>, c: Cid, i: nat)
    requires Run(ss, acts) && i < |ss| && c in ss[i].legs
    ensures var l := ss[i].legs[c];
            && (c in ss[i].sessions <==> l.served != [] && l.pumping && ClientClose(c) !in l.served)
            && (c in ss[i].sessions ==> l.inbox == Payloads(l.served))
    ensures SessionExact(ss[i], c)
  {
    hide Apply, Enabled;
    var s := ss[i - 1];
    RunInv(ss, acts, i - 1);
    RunInv(ss, acts, i);
    if c in s.legs {
      SessionsExact(ss, acts, c, i - 1);
      SessionStep(s, acts[i - 1], c);
    } else {
      FreshSession(s, acts[i - 1], c);
    }
    assert LegOk(ss[i], c);
  }

  lemma FreshSession(s: Net, a: Action, c: Cid)
    requires Inv(s) && Enabled(s, a) && c !in s.legs && c in Apply(s, a).legs
    ensures SessionExact(Apply(s, a), c)
  {
    assert a == Dial(c);
    assert c !in s.sessions;
  }
}
