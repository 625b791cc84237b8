/** Every run of the tunnel keeps `Inv`, and so is, phone by phone, a run of an
    independent `Link`. */
module TunnelProof {
  import opened Basics
  import opened Messages
  import opened Link
  import opened Tunnel
  import opened TunnelLegs

  // --------------------------------------------------------- shared queues

  lemma FeedSnoc(s: Net, t: Net, f: Frame, d: Cid)
    requires t.down + t.toHost == s.down + s.toHost + [f]
    ensures Feed(t, d) == Feed(s, d) + if f.c == d then [f] else []
  {
    FilterSnoc(s.down + s.toHost, f, For(d));
  }

  lemma FeedHead(s: Net, t: Net, f: Frame, d: Cid)
    requires s.down + s.toHost == [f] + (t.down + t.toHost)
    ensures Feed(s, d) == (if f.c == d then [f] else []) + Feed(t, d)
  {
    FilterHead(s.down + s.toHost, For(d));
    assert (s.down + s.toHost)[1..] == t.down + t.toHost;
  }

  lemma PipeSnoc(s: Net, t: Net, f: Frame, d: Cid)
    requires Pipe(t) == Pipe(s) + [f] && f.Data?
    ensures PipeFor(t, d) == PipeFor(s, d) + if f.c == d then [f.m] else []
  {
    FilterSnoc(Pipe(s), f, For(d));
    var q := Filter(Pipe(s), For(d));
    PayloadsSnoc(q, f);
    assert q + [] == q;
  }

  lemma PipeHead(s: Net, t: Net, f: Frame, d: Cid)
    requires Pipe(s) == [f] + Pipe(t) && f.Data?
    ensures PipeFor(s, d) == (if f.c == d then [f.m] else []) + PipeFor(t, d)
  {
    FilterHead(Pipe(s), For(d));
    assert Pipe(s)[1..] == Pipe(t);
    var q := Filter(Pipe(t), For(d));
    PayloadsAppend([f], q);
    PayloadsSnoc([], f);
    assert [] + [f] == [f] && [] + q == q;
  }

  /** Only phone `c` was touched. */
  ghost predicate Untouched(s: Net, t: Net, c: Cid)
  {
    && t.legs.Keys == s.legs.Keys + {c}
    && forall d | d in s.legs && d != c ::
         && t.legs[d] == s.legs[d]
         && Feed(t, d) == Feed(s, d) && PipeFor(t, d) == PipeFor(s, d)
         && (Routable(t, d) ==> Routable(s, d))
         && (d in t.sessions ==> d in s.sessions)
  }

  lemma Rebuild(s: Net, t: Net, c: Cid)
    requires Inv(s) && Shape(t) && Untouched(s, t, c) && c in t.legs && LegOk(t, c)
    ensures Inv(t)
  {
    forall d | d in t.legs && d != c
      ensures LegOk(t, d)
    {
      assert LegOk(s, d);
      LegMono(d, s.legs[d], Feed(s, d), PipeFor(s, d), Routable(s, d), d in s.sessions, Routable(t, d), d in t.sessions);
    }
  }

  /** Feed, pipe and routes depend only on the queues and the two key sets. */
  lemma PutFrame(s: Net, c: Cid, l: Leg)
    requires Shape(s)
    ensures Shape(Put(s, c, l)) && Untouched(s, Put(s, c, l), c)
  {
    var t := Put(s, c, l);
    assert Pipe(t) == Pipe(s);
    forall d
      ensures Feed(t, d) == Feed(s, d) && PipeFor(t, d) == PipeFor(s, d)
    {
    }
  }

  lemma StrangerHasNothing(s: Net, c: Cid)
    requires Shape(s) && c !in s.legs
    ensures Feed(s, c) == [] && PipeFor(s, c) == [] && !Routable(s, c) && c !in s.sessions
  {
    FilterNone(s.down + s.toHost, For(c));
    FilterNone(Pipe(s), For(c));
    assert Payloads([]) == [];
    forall f | f in s.held ensures f.c != c { assert f in Pipe(s); }
  }

  /** A change to one leg alone. */
  lemma LocalKeeps(s: Net, t: Net, c: Cid)
    requires Inv(s) && c in t.legs && t == Put(s, c, t.legs[c])
    requires LegInv(c, t.legs[c], Feed(s, c), PipeFor(s, c), Routable(s, c), c in s.sessions)
    ensures Inv(t)
  {
    PutFrame(s, c, t.legs[c]);
    Rebuild(s, t, c);
  }

  // ------------------------------------------------------------ the queues' steps

  lemma ClientsShrink(s: Net, keep: set<Cid>)
    requires Inv(s) && keep <= s.clients
    ensures Inv(s.(clients := keep))
  {
    var t := s.(clients := keep);
    assert Pipe(t) == Pipe(s);
    forall d | d in t.legs
      ensures LegOk(t, d)
    {
      assert LegOk(s, d);
      assert Feed(t, d) == Feed(s, d) && PipeFor(t, d) == PipeFor(s, d);
      LegMono(d, s.legs[d], Feed(s, d), PipeFor(s, d), Routable(s, d), d in s.sessions, Routable(t, d), d in t.sessions);
    }
  }

  /** A frame that moves along without leaving the path changes nothing for anyone. */
  lemma SameFlow(s: Net, t: Net)
    requires Inv(s) && t.legs == s.legs && t.clients == s.clients && t.sessions == s.sessions
    requires t.down + t.toHost == s.down + s.toHost && Pipe(t) == Pipe(s) && Shape(t)
    requires forall f | f in t.held :: f.c in s.clients || f in s.held
    ensures Inv(t)
  {
    forall d | d in t.legs
      ensures LegOk(t, d)
    {
      assert LegOk(s, d);
      assert Feed(t, d) == Feed(s, d) && PipeFor(t, d) == PipeFor(s, d);
      LegMono(d, s.legs[d], Feed(s, d), PipeFor(s, d), Routable(s, d), d in s.sessions, Routable(t, d), d in t.sessions);
    }
  }

  /** client_loop puts a frame on the shared queue. */
  lemma PushFeed(s: Net, t: Net, c: Cid, f: Frame)
    requires Inv(s) && c in s.legs && f.c == c && c in t.legs
    requires t == s.(legs := s.legs[c := t.legs[c]], toHost := s.toHost + [f])
    requires LegInv(c, t.legs[c], Feed(s, c) + [f], PipeFor(s, c), Routable(s, c), c in s.sessions)
    ensures Inv(t)
  {
    hide LegInv;
    assert t.down + t.toHost == s.down + s.toHost + [f];
    FeedSnoc(s, t, f, c);
    assert Untouched(s, t, c) by {
      forall d | d in s.legs && d != c
        ensures Feed(t, d) == Feed(s, d)
      {
        FeedSnoc(s, t, f, d);
        assert Feed(s, d) + [] == Feed(s, d);
      }
    }
    Rebuild(s, t, c);
  }

  lemma PcReadFlow(s: Net, t: Net)
    requires Enabled(s, PcRead) && t == Apply(s, PcRead)
    ensures forall d :: Feed(s, d) == if s.down[0].c == d then [s.down[0]] + Feed(t, d) else Feed(t, d)
    ensures forall d :: PipeFor(t, d) == PipeFor(s, d)
  {
    var f := s.down[0];
    assert s.down + s.toHost == [f] + (t.down + t.toHost);
    assert Pipe(t) == Pipe(s);
    forall d
      ensures Feed(s, d) == if f.c == d then [f] + Feed(t, d) else Feed(t, d)
    {
      FeedHead(s, t, f, d);
      assert [] + Feed(t, d) == Feed(t, d);
    }
  }

  lemma PcReadKeeps(s: Net, t: Net)
    requires Inv(s) && Enabled(s, PcRead) && t == Apply(s, PcRead)
    ensures Inv(t)
  {
    hide LegInv;
    hide Feed;
    hide PipeFor;
    var f, c := s.down[0], s.down[0].c;
    PcReadFlow(s, t);
    assert LegOk(s, c);
    ServeLeg(c, s.legs[c], f, Feed(t, c), PipeFor(s, c), Routable(s, c), c in s.sessions);
    Rebuild(s, t, c);
  }

  /** A pump puts a message on the PC's outbound queue. */
  lemma PushPipe(s: Net, t: Net, c: Cid, m: Msg)
    requires Inv(s) && c in s.legs && c in t.legs
    requires t == s.(legs := s.legs[c := t.legs[c]], hostOut := s.hostOut + [Data(c, m)])
    requires LegInv(c, t.legs[c], Feed(s, c), PipeFor(s, c) + [m], Routable(s, c), c in s.sessions)
    ensures Inv(t)
  {
    hide LegInv;
    hide Feed;
    hide PipeFor;
    PushPipeFlow(s, t, c, m);
    Rebuild(s, t, c);
  }

  lemma PushPipeFlow(s: Net, t: Net, c: Cid, m: Msg)
    requires t.down == s.down && t.toHost == s.toHost && t.held == s.held && t.up == s.up
    requires t.hostOut == s.hostOut + [Data(c, m)]
    ensures forall d :: Feed(t, d) == Feed(s, d)
    ensures forall d :: PipeFor(t, d) == if d == c then PipeFor(s, d) + [m] else PipeFor(s, d)
  {
    var f := Data(c, m);
    assert Pipe(t) == Pipe(s) + [f];
    forall d
      ensures PipeFor(t, d) == if d == c then PipeFor(s, d) + [m] else PipeFor(s, d)
    {
      PipeSnoc(s, t, f, d);
      assert PipeFor(s, d) + [] == PipeFor(s, d);
    }
  }

  lemma PumpKeeps(s: Net, t: Net, c: Cid)
    requires Inv(s) && Enabled(s, Pump(c)) && t == Apply(s, Pump(c))
    ensures Inv(t)
  {
    hide LegInv;
    assert LegOk(s, c);
    PumpLeg(c, s.legs[c], Feed(s, c), PipeFor(s, c), Routable(s, c), c in s.sessions);
    PushPipe(s, t, c, PumpTurn(s.legs[c]).0);
  }

  lemma SameQueues(s: Net, t: Net)
    requires t.down == s.down && t.toHost == s.toHost && t.held == s.held && t.up == s.up && t.hostOut == s.hostOut
    ensures forall d :: Feed(t, d) == Feed(s, d) && PipeFor(t, d) == PipeFor(s, d)
  {
  }

  lemma PumpStopKeeps(s: Net, t: Net, c: Cid)
    requires Inv(s) && Enabled(s, PumpStop(c)) && t == Apply(s, PumpStop(c))
    ensures Inv(t)
  {
    hide LegInv;
    hide Feed;
    hide PipeFor;
    SameQueues(s, t);
    assert LegOk(s, c);
    PumpStopLeg(c, s.legs[c], Feed(s, c), PipeFor(s, c), Routable(s, c), c in s.sessions);
    Rebuild(s, t, c);
  }

  /** A frame leaves the pipe: it is queued for its phone, or has no route. */
  lemma PopPipe(s: Net, t: Net, f: Frame)
    requires Inv(s) && f.Data? && f.c in s.legs && f.c in t.legs && Pipe(s) == [f] + Pipe(t)
    requires t == s.(legs := s.legs[f.c := t.legs[f.c]], held := [], up := t.up) && AllData(t.up, s.legs.Keys)
    requires LegInv(f.c, t.legs[f.c], Feed(s, f.c), PipeFor(t, f.c), Routable(t, f.c), f.c in s.sessions)
    ensures Inv(t)
  {
    hide LegInv;
    forall d | d != f.c
      ensures Feed(t, d) == Feed(s, d) && PipeFor(s, d) == PipeFor(t, d)
    {
      PipeHead(s, t, f, d);
      assert [] + PipeFor(t, d) == PipeFor(t, d);
    }
    Rebuild(s, t, f.c);
  }

  lemma HostReadKeeps(s: Net, t: Net)
    requires Inv(s) && Enabled(s, HostRead) && t == Apply(s, HostRead)
    ensures Inv(t)
  {
    hide LegInv;
    hide Feed;
    hide PipeFor;
    if s.up[0].c in s.clients {
      HostReadHolds(s, t);
      SameFlow(s, t);
    } else {
      NoRoute(s, t);
    }
  }

  lemma HostReadHolds(s: Net, t: Net)
    requires Shape(s) && Enabled(s, HostRead) && t == Apply(s, HostRead) && s.up[0].c in s.clients
    ensures t == s.(held := [s.up[0]], up := s.up[1..]) && Pipe(t) == Pipe(s) && Shape(t)
  {
    assert s.up[0] in s.up;
  }

  lemma NoRoute(s: Net, t: Net)
    requires Inv(s) && Enabled(s, HostRead) && t == Apply(s, HostRead) && s.up[0].c !in s.clients
    ensures Inv(t)
  {
    hide LegInv;
    hide Feed;
    hide PipeFor;
    var f, c := s.up[0], s.up[0].c;
    assert f in s.up;
    assert Pipe(s) == [f] + Pipe(t);
    PipeHead(s, t, f, c);
    assert LegOk(s, c);
    UnroutedLeg(c, s.legs[c], Feed(s, c), f.m, PipeFor(t, c), false, c in s.sessions);
    assert s.legs[c := s.legs[c]] == s.legs;
    PopPipe(s, t, f);
  }

  lemma QueueKeeps(s: Net, t: Net)
    requires Inv(s) && Enabled(s, Queue) && t == Apply(s, Queue)
    ensures Inv(t)
  {
    hide LegInv;
    var f, c := s.held[0], s.held[0].c;
    assert s.held == [f] && f in s.held;
    assert Pipe(s) == [f] + Pipe(t);
    PipeHead(s, t, f, c);
    assert LegOk(s, c);
    EnqueueLeg(c, s.legs[c], Feed(s, c), f.m, PipeFor(t, c), Routable(t, c), c in s.sessions);
    PopPipe(s, t, f);
  }

  // ------------------------------------------------------------- every action

  lemma RegisterKeeps(s: Net, t: Net, c: Cid)
    requires Inv(s) && Enabled(s, Register(c)) && t == Apply(s, Register(c))
    ensures Inv(t)
  {
    hide LegInv;
    forall d ensures Feed(t, d) == Feed(s, d) && PipeFor(t, d) == PipeFor(s, d) {}
    assert LegOk(s, c);
    RegisterLeg(c, s.legs[c], Feed(s, c), PipeFor(s, c), Routable(s, c), c in s.sessions);
    Rebuild(s, t, c);
  }

  /** client_loop leaves: its map entry goes and its phase is final. */
  lemma GoneKeeps(s: Net, t: Net, c: Cid)
    requires Inv(s) && c in s.legs && (s.legs[c].phase.Registered? || s.legs[c].phase.Unregistering?)
    requires t == Put(s, c, s.legs[c].(phase := Gone)).(clients := s.clients - {c})
    ensures Inv(t)
  {
    assert LegOk(s, c);
    if s.legs[c].phase.Registered? {
      SendOpenLeg(c, s.legs[c], Feed(s, c), PipeFor(s, c), Routable(s, c), c in s.sessions);
    } else {
      UnregisterLeg(c, s.legs[c], Feed(s, c), PipeFor(s, c), Routable(s, c), c in s.sessions);
    }
    LocalKeeps(s, Put(s, c, s.legs[c].(phase := Gone)), c);
    ClientsShrink(Put(s, c, s.legs[c].(phase := Gone)), t.clients);
  }

  lemma SendOpenKeeps(s: Net, t: Net, c: Cid)
    requires Inv(s) && Enabled(s, SendOpen(c)) && t == Apply(s, SendOpen(c))
    ensures Inv(t)
  {
    if s.hostWriting {
      assert LegOk(s, c);
      SendOpenLeg(c, s.legs[c], Feed(s, c), PipeFor(s, c), Routable(s, c), c in s.sessions);
      PushFeed(s, t, c, ClientOpen(c));
    } else {
      GoneKeeps(s, t, c);
    }
  }

  lemma ForwardKeeps(s: Net, t: Net, c: Cid)
    requires Inv(s) && Enabled(s, Forward(c)) && t == Apply(s, Forward(c))
    ensures Inv(t)
  {
    hide LegInv;
    assert LegOk(s, c);
    ForwardLeg(c, s.legs[c], Feed(s, c), PipeFor(s, c), Routable(s, c), c in s.sessions);
    if s.hostWriting {
      PushFeed(s, t, c, Data(c, s.legs[c].sent[s.legs[c].read]));
    } else {
      LocalKeeps(s, t, c);
    }
  }

  lemma SendCloseKeeps(s: Net, t: Net, c: Cid)
    requires Inv(s) && Enabled(s, SendClose(c)) && t == Apply(s, SendClose(c))
    ensures Inv(t)
  {
    assert LegOk(s, c);
    SendCloseLeg(c, s.legs[c], Feed(s, c), PipeFor(s, c), Routable(s, c), c in s.sessions);
    if s.hostWriting {
      PushFeed(s, t, c, ClientClose(c));
    } else {
      LocalKeeps(s, t, c);
    }
  }

  /** Actions that touch nothing but one phone's own leg. */
  predicate OwnLeg(a: Action)
  {
    || a.PhoneSend? || a.ReaderEnd? || a.EmitText? || a.EmitFile? || a.EmitAv?
    || a.WriterTurn? || a.WriterStop? || a.PhoneReceive?
  }

  lemma OwnLegInv(c: Cid, l: Leg, feed: seq<Frame>, pipe: seq<Msg>, s: Net, a: Action, q: bool)
    requires OwnLeg(a) && a.c == c && Enabled(s, a) && s.legs[c] == l && LegInv(c, l, feed, pipe, Routable(s, c), q)
    ensures LegInv(c, Apply(s, a).legs[c], feed, pipe, Routable(s, c), q)
  {
    hide LegInv;
    var r := Routable(s, c);
    match a
    case PhoneSend(_, m) => PhoneSendLeg(c, l, feed, pipe, r, q, m);
    case ReaderEnd(_) => ForwardLeg(c, l, feed, pipe, r, q);
    case EmitText(_, m) => EmitTextLeg(c, l, feed, pipe, r, q, m);
    case EmitFile(_, m) => EmitFileLeg(c, l, feed, pipe, r, q, m);
    case EmitAv(_, m) => EmitAvLeg(c, l, feed, pipe, r, q, m);
    case WriterTurn(_) => TakeTurnLeg(c, l, feed, pipe, r, q);
    case WriterStop(_) => WriterStopLeg(c, l, feed, pipe, r, q);
    case PhoneReceive(_) => PhoneReceiveLeg(c, l, feed, pipe, r, q);
  }

  lemma OwnLegOnly(s: Net, a: Action)
    requires Enabled(s, a) && OwnLeg(a)
    ensures a.c in s.legs && a.c in Apply(s, a).legs && Apply(s, a) == Put(s, a.c, Apply(s, a).legs[a.c])
  {
  }

  lemma OwnLegKeeps(s: Net, t: Net, a: Action)
    requires Inv(s) && Enabled(s, a) && OwnLeg(a) && t == Apply(s, a)
    ensures Inv(t)
  {
    hide LegInv;
    var c := a.c;
    OwnLegOnly(s, a);
    assert LegOk(s, c);
    OwnLegInv(c, s.legs[c], Feed(s, c), PipeFor(s, c), s, a, c in s.sessions);
    hide Apply;
    LocalKeeps(s, t, c);
  }

  lemma DialKeeps(s: Net, t: Net, c: Cid)
    requires Inv(s) && Enabled(s, Dial(c)) && t == Apply(s, Dial(c))
    ensures Inv(t)
  {
    hide LegInv;
    StrangerHasNothing(s, c);
    NewLegOk(c);
    LocalKeeps(s, t, c);
  }

  /** The two writers move a frame along, and a writer that stops moves nothing. */
  lemma WritersKeep(s: Net, a: Action, t: Net)
    requires Inv(s) && Enabled(s, a) && t == Apply(s, a) && (a.HostWrite? || a.HostWriterStop? || a.PcWrite?)
    ensures Inv(t)
  {
    hide LegInv;
    SameFlow(s, t);
  }

  lemma StepKeeps(s: Net, a: Action, t: Net)
    requires Inv(s) && Enabled(s, a) && t == Apply(s, a)
    ensures Inv(t)
  {
    hide Inv;
    match a
    case Dial(c) => DialKeeps(s, t, c);
    case Register(c) => RegisterKeeps(s, t, c);
    case SendOpen(c) => SendOpenKeeps(s, t, c);
    case Forward(c) => ForwardKeeps(s, t, c);
    case SendClose(c) => SendCloseKeeps(s, t, c);
    case Unregister(c) => GoneKeeps(s, t, c);
    case ClearClients => ClientsShrink(s, {});
    case HostWrite => WritersKeep(s, a, t);
    case HostWriterStop => WritersKeep(s, a, t);
    case PcRead => PcReadKeeps(s, t);
    case Pump(c) => PumpKeeps(s, t, c);
    case PumpStop(c) => PumpStopKeeps(s, t, c);
    case PcWrite => WritersKeep(s, a, t);
    case HostRead => HostReadKeeps(s, t);
    case Queue => QueueKeeps(s, t);
    case _ => OwnLegKeeps(s, t, a);
  }

  // ------------------------------------------------------------------ theorems

  /** In every reachable state each phone's channel is intact. */
  lemma Observed(s: Net, c: Cid)
    requires Inv(s) && c in s.legs
    ensures Ok(View(s, c))
  {
    assert LegOk(s, c);
    var l, pipe := s.legs[c], PipeFor(s, c);
    ServedPrefix(c, l, Feed(s, c), c in s.sessions);
    assert Must(l.seen) <= Must(l.seen) + Must(l.wire) + l.bulk;
    OrderedPrefix(Must(l.seen), l.order, l.emitted);
    assert Av(l.seen) + (Av(l.wire) + l.fast + Av(pipe) + l.vid) == Av(l.seen) + Av(l.wire) + l.fast + Av(pipe) + l.vid;
    SubseqPrefix(Av(l.seen), Av(l.wire) + l.fast + Av(pipe) + l.vid, l.av);
  }

  /** Which phone an action belongs to, if its channel can notice. */
  function Actor(s: Net, a: Action): Option<Cid>
    requires Enabled(s, a)
  {
    match a
    case PhoneSend(c, _) => Some(c)
    case PcRead => Some(s.down[0].c)
    case EmitText(c, _) => Some(c)
    case EmitFile(c, _) => Some(c)
    case EmitAv(c, _) => Some(c)
    case PhoneReceive(c) => Some(c)
    case _ => None
  }

  /** The part of a leg that its channel shows. */
  predicate SameFace(l: Leg, k: Leg)
  {
    l.sent == k.sent && l.inbox == k.inbox && l.emitted == k.emitted && l.av == k.av && l.seen == k.seen
  }

  /** Every other phone's channel stands still. */
  lemma Independent(s: Net, a: Action, t: Net, c: Cid)
    requires Enabled(s, a) && t == Apply(s, a) && c in s.legs && Actor(s, a) != Some(c)
    ensures c in t.legs && View(t, c) == View(s, c)
  {
    assert c in t.legs && SameFace(s.legs[c], t.legs[c]) by { SameFaces(s, a, c); }
  }

  lemma SameFaces(s: Net, a: Action, c: Cid)
    requires Enabled(s, a) && c in s.legs && Actor(s, a) != Some(c)
    ensures c in Apply(s, a).legs && SameFace(s.legs[c], Apply(s, a).legs[c])
  {
    if a.Register? || a.SendOpen? || a.Forward? || a.ReaderEnd? || a.SendClose? || a.Unregister? {
      ReaderFaces(s, a, c);
    } else if a.Pump? || a.PumpStop? {
      PumpFaces(s, a, c);
    } else if a.WriterTurn? || a.WriterStop? {
      WriterFaces(s, a, c);
    } else if a.HostRead? || a.Queue? {
      RelayFaces(s, a, c);
    } else if a.PcRead? || a.PhoneSend? || a.EmitText? || a.EmitFile? || a.EmitAv? || a.PhoneReceive? || a.Dial? {
      assert Apply(s, a).legs[c] == s.legs[c];
    } else {
      assert Apply(s, a).legs == s.legs;
    }
  }

  lemma ReaderFaces(s: Net, a: Action, c: Cid)
    requires Enabled(s, a) && c in s.legs
    requires a.Register? || a.SendOpen? || a.Forward? || a.ReaderEnd? || a.SendClose? || a.Unregister?
    ensures c in Apply(s, a).legs && SameFace(s.legs[c], Apply(s, a).legs[c])
  {
  }

  lemma PumpFaces(s: Net, a: Action, c: Cid)
    requires Enabled(s, a) && c in s.legs && (a.Pump? || a.PumpStop?)
    ensures c in Apply(s, a).legs && SameFace(s.legs[c], Apply(s, a).legs[c])
  {
  }

  lemma WriterFaces(s: Net, a: Action, c: Cid)
    requires Enabled(s, a) && c in s.legs && (a.WriterTurn? || a.WriterStop?)
    ensures c in Apply(s, a).legs && SameFace(s.legs[c], Apply(s, a).legs[c])
  {
  }

  lemma RelayFaces(s: Net, a: Action, c: Cid)
    requires Enabled(s, a) && c in s.legs && (a.HostRead? || a.Queue?)
    ensures c in Apply(s, a).legs && SameFace(s.legs[c], Apply(s, a).legs[c])
  {
  }

  /** Taking one frame changes the leg's inbox by at most that frame's message. */
  lemma PcReadLeg(s: Net, t: Net, c: Cid)
    requires Enabled(s, PcRead) && t == Apply(s, PcRead) && c == s.down[0].c
    ensures c in t.legs
    ensures var l, k := s.legs[c], t.legs[c];
            && SameFace(l, k.(inbox := l.inbox))
            && (k.inbox == l.inbox || (s.down[0].Data? && k.inbox == l.inbox + [s.down[0].m]))
  {
  }

  lemma InboxGrows(s: Net, t: Net, c: Cid)
    requires Enabled(s, PcRead) && t == Apply(s, PcRead) && Actor(s, PcRead) == Some(c)
    requires t.legs[c].inbox <= t.legs[c].sent
    ensures Next(View(s, c), View(t, c))
  {
    hide Next;
    PcReadLeg(s, t, c);
    hide Apply;
    var l, k, v := s.legs[c], t.legs[c], View(s, c);
    if k.inbox == l.inbox {
      NextStays(v);
      assert View(t, c) == v;
    } else {
      assert k.inbox[|l.inbox|] == k.sent[|l.inbox|];
      NextInbox(v);
      assert View(t, c) == v.(inbox := k.inbox);
    }
  }

  lemma PhoneGets(s: Net, t: Net, c: Cid)
    requires Enabled(s, PhoneReceive(c)) && t == Apply(s, PhoneReceive(c)) && Ok(View(t, c))
    ensures Next(View(s, c), View(t, c))
  {
    var l, m := s.legs[c], s.legs[c].wire[0];
    Snoc(l.seen, m);
    var v, w := View(s, c), View(t, c);
    if IsMust(m) {
      assert w == v.(got := v.got + [m]) by { assert Av(l.seen) + [] == Av(l.seen); }
    } else {
      assert w == v.(gotAv := v.gotAv + [m]) by { assert Must(l.seen) + [] == Must(l.seen); }
    }
  }

  /** Each action is one step of its phone's own channel. */
  lemma ViewStep(s: Net, a: Action, t: Net, c: Cid)
    requires Inv(s) && Enabled(s, a) && t == Apply(s, a) && c in s.legs
    ensures c in t.legs && Next(View(s, c), View(t, c))
  {
    hide LegInv;
    hide Ordered;
    if Actor(s, a) != Some(c) {
      Independent(s, a, t, c);
    } else {
      StepKeeps(s, a, t);
      Observed(t, c);
      var v, w := View(s, c), View(t, c);
      match a
      case PhoneSend(_, m) => assert w == v.(sent := v.sent + [m]);
      case PcRead => InboxGrows(s, t, c);
      case EmitText(_, m) => assert w == v.(emitted := v.emitted + [m]);
      case EmitFile(_, m) => assert w == v.(emitted := v.emitted + [m]);
      case EmitAv(_, m) => assert w == v.(av := v.av + [m]);
      case PhoneReceive(_) => PhoneGets(s, t, c);
    }
  }

  /** Every phone's channel takes at most one step of its own. */
  ghost predicate Moves(s: Net, t: Net)
  {
    forall c | c in s.legs :: c in t.legs && Next(View(s, c), View(t, c))
  }

  /** No phone's channel moves. */
  ghost predicate Steady(s: Net, t: Net)
  {
    forall c | c in s.legs :: c in t.legs && View(t, c) == View(s, c)
  }

  /** What a task's step means for everybody: the invariant stands, each channel takes at
      most one step, and none moves when the action is nobody's. */
  lemma TaskStep(s: Net, a: Action, t: Net)
    requires Inv(s) && Enabled(s, a) && t == Apply(s, a)
    ensures Inv(t) && Moves(s, t)
    ensures Actor(s, a).None? ==> Steady(s, t)
  {
    hide Inv;
    hide Enabled;
    hide Apply;
    hide Next;
    hide View;
    StepKeeps(s, a, t);
    forall c | c in s.legs
      ensures c in t.legs && Next(View(s, c), View(t, c))
      ensures Actor(s, a).None? ==> View(t, c) == View(s, c)
    {
      ViewStep(s, a, t, c);
      if Actor(s, a).None? {
        Independent(s, a, t, c);
      }
    }
  }

  /** The same frames are in flight for every phone, in the same order. */
  ghost predicate SameCargo(s: Net, t: Net)
  {
    forall c :: Feed(t, c) == Feed(s, c) && PipeFor(t, c) == PipeFor(s, c)
  }

  /** The writers only carry frames along: nothing is lost, doubled or swapped. */
  lemma WriterCarries(s: Net, a: Action)
    requires Enabled(s, a) && (a.HostWrite? || a.PcWrite?)
    ensures SameCargo(s, Apply(s, a))
  {
    var t := Apply(s, a);
    assert t.down + t.toHost == s.down + s.toHost;
    assert Pipe(t) == Pipe(s);
  }

  /** A run of the tunnel: any number of phones, any interleaving. */
  ghost predicate Run(ss: seq<Net>, acts: seq<Action>)
  {
    && |ss| == |acts| + 1
    && ss[0] == INIT
    && forall i | 0 <= i < |acts| :: Enabled(ss[i], acts[i]) && ss[i + 1] == Apply(ss[i], acts[i])
  }

  lemma {:induction false} RunInv(ss: seq<Net>, acts: seq<Action>, i: nat)
    requires Run(ss, acts) && i < |ss|
    ensures Inv(ss[i])
  {
    if i > 0 {
      RunInv(ss, acts, i - 1);
      StepKeeps(ss[i - 1], acts[i - 1], ss[i]);
    }
  }

  /** The refinement theorem. In any run, at every step, every phone that has dialled
      keeps an intact channel, and the step is a step of that channel; if it belongs to
      another phone the channel does not move at all. */
  lemma TunnelRefinesLinks(ss: seq<Net>, acts: seq<Action>, i: nat, c: Cid)
    requires Run(ss, acts) && i < |acts| && c in ss[i].legs
    ensures c in ss[i + 1].legs && Ok(View(ss[i + 1], c))
    ensures Next(View(ss[i], c), View(ss[i + 1], c))
    ensures Actor(ss[i], acts[i]) != Some(c) ==> View(ss[i + 1], c) == View(ss[i], c)
  {
    hide LegInv;
    hide Next;
    RunInv(ss, acts, i);
    RunInv(ss, acts, i + 1);
    ViewStep(ss[i], acts[i], ss[i + 1], c);
    Observed(ss[i + 1], c);
    if Actor(ss[i], acts[i]) != Some(c) {
      Independent(ss[i], acts[i], ss[i + 1], c);
    }
  }

  /** A phone that has just dialled has a channel on which nothing happened yet. */
  lemma DialStartsFresh(s: Net, a: Action, c: Cid)
    requires Enabled(s, a) && c !in s.legs && c in Apply(s, a).legs
    ensures View(Apply(s, a), c) == FRESH
  {
    assert a == Dial(c);
    assert Must([]) == [] && Av([]) == [];
  }

  /** What one phone puts on the shared host link is a prefix of Open, its own
      messages in order, Close; and what the PC took of it is a prefix of that. */
  lemma LinkScript(ss: seq<Net>, acts: seq<Action>, i: nat, c: Cid)
    requires Run(ss, acts) && i < |ss| && c in ss[i].legs
    ensures var l := ss[i].legs[c];
            && l.served <= l.link
            && l.read <= |l.sent| && l.link <= Script(c, l.sent[..l.read]) + [ClientClose(c)]
            && Payloads(l.served) <= l.sent
  {
    hide LegInv;
    hide Payloads;
    RunInv(ss, acts, i);
    assert LegOk(ss[i], c);
    LegScript(c, ss[i].legs[c], Feed(ss[i], c), PipeFor(ss[i], c), Routable(ss[i], c), c in ss[i].sessions);
  }
}
