/** The per-phone half of the tunnel proof: what each task does to one leg, given
    the messages in flight for that phone. */
module TunnelLegs {
  import opened Basics
  import opened Messages
  import opened Link
  import opened Tunnel

  // ------------------------------------------------- frames and scripts

  lemma {:induction false} PayloadsAppend(a: seq<Frame>, b: seq<Frame>)
    ensures Payloads(a + b) == Payloads(a) + Payloads(b)
  {
    if b == [] {
      assert a + b == a;
    } else {
      assert Front(a + b) == a + Front(b);
      PayloadsAppend(a, Front(b));
    }
  }

  lemma PayloadsSnoc(a: seq<Frame>, f: Frame)
    ensures Payloads(a + [f]) == Payloads(a) + if f.Data? then [f.m] else []
  {
    assert Front(a + [f]) == a;
  }

  lemma ScriptSnoc(c: Cid, ms: seq<Msg>, m: Msg)
    ensures Script(c, ms + [m]) == Script(c, ms) + [Data(c, m)]
  {
  }

  lemma {:induction false} ScriptPayloads(c: Cid, ms: seq<Msg>)
    ensures Payloads(Script(c, ms)) == ms
  {
    if ms == [] {
      assert Script(c, ms) == [] + [ClientOpen(c)];
      PayloadsSnoc([], ClientOpen(c));
    } else {
      assert ms == Front(ms) + [Last(ms)];
      ScriptSnoc(c, Front(ms), Last(ms));
      PayloadsSnoc(Script(c, Front(ms)), Data(c, Last(ms)));
      ScriptPayloads(c, Front(ms));
    }
  }

  /** What the PC has taken off the link is a prefix of what the phone sent. */
  lemma ServedPrefix(c: Cid, l: Leg, feed: seq<Frame>, ses: bool)
    requires UpInv(c, l, feed, ses)
    ensures Payloads(l.served) <= l.sent[..l.read]
  {
    PayloadsAppend(l.served, feed);
    var ms := l.sent[..l.read];
    ScriptPayloads(c, ms);
    PayloadsSnoc(Script(c, ms), ClientClose(c));
    assert Payloads(l.link) <= ms;
  }

  /** Open, messages in order, at most one Close; the PC has taken a prefix of that. */
  lemma LegScript(c: Cid, l: Leg, feed: seq<Frame>, pipe: seq<Msg>, r: bool, q: bool)
    requires LegInv(c, l, feed, pipe, r, q)
    ensures l.read <= |l.sent| && l.served <= l.link && Payloads(l.served) <= l.sent
    ensures l.link <= Script(c, l.sent[..l.read]) + [ClientClose(c)]
  {
    hide DownInv;
    hide Writer;
    ServedPrefix(c, l, feed, q);
  }

  lemma NewLegOk(c: Cid)
    ensures LegInv(c, NEW_LEG, [], [], false, false)
  {
    assert Payloads([]) == [];
    assert Must([]) == [] && Av([]) == [] && Texts([]) == [] && Files([]) == [];
  }

  /** Losing its route or its session is all that other phones' steps do to a leg. */
  lemma LegMono(c: Cid, l: Leg, feed: seq<Frame>, pipe: seq<Msg>, r: bool, q: bool, r': bool, q': bool)
    requires LegInv(c, l, feed, pipe, r, q) && (r' ==> r) && (q' ==> q)
    ensures LegInv(c, l, feed, pipe, r', q')
  {
  }

  /** The upward half looks at these fields alone ... */
  lemma KeepUp(c: Cid, l: Leg, k: Leg, feed: seq<Frame>, q: bool)
    requires UpInv(c, l, feed, q)
    requires k.phase == l.phase && k.read == l.read && k.link == l.link
    requires k.sent == l.sent && k.served == l.served && k.inbox == l.inbox
    ensures UpInv(c, k, feed, q)
  {
  }

  /** ... and the downward half at these. */
  lemma KeepDown(l: Leg, k: Leg, pipe: seq<Msg>, r: bool)
    requires DownInv(l, pipe, r) && k.seen == l.seen && k.wire == l.wire && k.bulk == l.bulk && k.fast == l.fast
    requires k.vid == l.vid && k.order == l.order && k.av == l.av && k.cut == l.cut && k.writing == l.writing
    ensures DownInv(k, pipe, r)
  {
  }

  // ------------------------------------------------------- client_loop, reader

  lemma RegisterLeg(c: Cid, l: Leg, feed: seq<Frame>, pipe: seq<Msg>, r: bool, q: bool)
    requires LegInv(c, l, feed, pipe, r, q) && l.phase.Dialed?
    ensures LegInv(c, l.(phase := Registered), feed, pipe, true, q)
  {
    assert l.served == [];
  }

  lemma PhoneSendLeg(c: Cid, l: Leg, feed: seq<Frame>, pipe: seq<Msg>, r: bool, q: bool, m: Msg)
    requires LegInv(c, l, feed, pipe, r, q)
    ensures LegInv(c, l.(sent := l.sent + [m]), feed, pipe, r, q)
  {
    assert (l.sent + [m])[..l.read] == l.sent[..l.read];
  }

  lemma SendOpenLeg(c: Cid, l: Leg, feed: seq<Frame>, pipe: seq<Msg>, r: bool, q: bool)
    requires LegInv(c, l, feed, pipe, r, q) && l.phase.Registered?
    ensures LegInv(c, l.(phase := Reading, link := l.link + [ClientOpen(c)]), feed + [ClientOpen(c)], pipe, r, q)
    ensures LegInv(c, l.(phase := Gone), feed, pipe, r, q)
  {
    assert l.link + [ClientOpen(c)] == Script(c, l.sent[..0]);
    assert l.served + (feed + [ClientOpen(c)]) == l.link + [ClientOpen(c)];
  }

  lemma ForwardLeg(c: Cid, l: Leg, feed: seq<Frame>, pipe: seq<Msg>, r: bool, q: bool)
    requires LegInv(c, l, feed, pipe, r, q) && l.phase.Reading?
    ensures LegInv(c, l.(phase := Closing), feed, pipe, r, q)
    ensures l.read < |l.sent| ==>
              var f := Data(c, l.sent[l.read]);
              LegInv(c, l.(read := l.read + 1, link := l.link + [f]), feed + [f], pipe, r, q)
  {
    hide DownInv;
    hide Writer;
    hide UpInv;
    EndLink(c, l, feed, q);
    KeepDown(l, l.(phase := Closing), pipe, r);
    if l.read < |l.sent| {
      var k := l.(read := l.read + 1, link := l.link + [Data(c, l.sent[l.read])]);
      GrowLink(c, l, feed, q);
      KeepDown(l, k, pipe, r);
    }
  }

  lemma EndLink(c: Cid, l: Leg, feed: seq<Frame>, q: bool)
    requires UpInv(c, l, feed, q) && l.phase.Reading?
    ensures UpInv(c, l.(phase := Closing), feed, q)
  {
    hide Script;
    hide Payloads;
  }

  lemma GrowLink(c: Cid, l: Leg, feed: seq<Frame>, q: bool)
    requires UpInv(c, l, feed, q) && l.phase.Reading? && l.read < |l.sent|
    ensures var f := Data(c, l.sent[l.read]);
            UpInv(c, l.(read := l.read + 1, link := l.link + [f]), feed + [f], q)
  {
    hide Script;
    hide Payloads;
    var m := l.sent[l.read];
    assert l.sent[..l.read + 1] == l.sent[..l.read] + [m];
    ScriptSnoc(c, l.sent[..l.read], m);
    assert l.served + (feed + [Data(c, m)]) == l.link + [Data(c, m)];
  }

  lemma SendCloseLeg(c: Cid, l: Leg, feed: seq<Frame>, pipe: seq<Msg>, r: bool, q: bool)
    requires LegInv(c, l, feed, pipe, r, q) && l.phase.Closing?
    ensures LegInv(c, l.(phase := Unregistering), feed, pipe, r, q)
    ensures LegInv(c, l.(phase := Unregistering, link := l.link + [ClientClose(c)]),
                   feed + [ClientClose(c)], pipe, r, q)
  {
    assert l.served + (feed + [ClientClose(c)]) == l.link + [ClientClose(c)];
  }

  lemma UnregisterLeg(c: Cid, l: Leg, feed: seq<Frame>, pipe: seq<Msg>, r: bool, q: bool)
    requires LegInv(c, l, feed, pipe, r, q) && l.phase.Unregistering?
    ensures LegInv(c, l.(phase := Gone), feed, pipe, r, q)
  {
  }

  // -------------------------------------------------------------- PC reader

  /** The PC sees one Open per phone and sees it first, so a session is never
      restarted and never skips a message while it lives. */
  lemma ServeLeg(c: Cid, l: Leg, f: Frame, feed: seq<Frame>, pipe: seq<Msg>, r: bool, q: bool)
    requires LegInv(c, l, [f] + feed, pipe, r, q) && f.c == c
    ensures var l' := l.(served := l.served + [f]);
            && (f.ClientOpen? ==> LegInv(c, l', feed, pipe, r, true))
            && (f.ClientClose? ==> LegInv(c, l', feed, pipe, r, false))
            && (f.Data? ==> LegInv(c, if q then l'.(inbox := l.inbox + [f.m]) else l', feed, pipe, r, q))
  {
    hide DownInv;
    hide Writer;
    hide UpInv;
    var l' := l.(served := l.served + [f]);
    ServeUp(c, l, f, feed, q);
    KeepDown(l, l', pipe, r);
    if f.Data? {
      KeepDown(l, l'.(inbox := l.inbox + [f.m]), pipe, r);
    }
  }

  lemma ServeUp(c: Cid, l: Leg, f: Frame, feed: seq<Frame>, q: bool)
    requires UpInv(c, l, [f] + feed, q) && f.c == c
    ensures var l' := l.(served := l.served + [f]);
            && (f.ClientOpen? ==> UpInv(c, l', feed, true))
            && (f.ClientClose? ==> UpInv(c, l', feed, false))
            && (f.Data? ==> UpInv(c, if q then l'.(inbox := l.inbox + [f.m]) else l', feed, q))
  {
    assert l.served + [f] + feed == l.served + ([f] + feed) == l.link;
    PayloadsSnoc(l.served, f);
    assert l.link[|l.served|] == f;
    if f.ClientOpen? {
      assert l.served == [];
      assert Payloads(l.served) == [];
    }
  }

  // ------------------------------------------------------- run_connection, pump

  lemma EmitTextLeg(c: Cid, l: Leg, feed: seq<Frame>, pipe: seq<Msg>, r: bool, q: bool, m: Msg)
    requires LegInv(c, l, feed, pipe, r, q) && l.served != [] && IsText(m)
    ensures LegInv(c, l.(emitted := l.emitted + [m], ctl := l.ctl + [m]), feed, pipe, r, q)
  {
    WriterEmitText(l.emitted, l.order, l.ctl, l.blk, m);
  }

  lemma EmitFileLeg(c: Cid, l: Leg, feed: seq<Frame>, pipe: seq<Msg>, r: bool, q: bool, m: Msg)
    requires LegInv(c, l, feed, pipe, r, q) && l.served != [] && IsFile(m)
    ensures LegInv(c, l.(emitted := l.emitted + [m], blk := l.blk + [m]), feed, pipe, r, q)
  {
    WriterEmitFile(l.emitted, l.order, l.ctl, l.blk, m);
  }

  lemma EmitAvLeg(c: Cid, l: Leg, feed: seq<Frame>, pipe: seq<Msg>, r: bool, q: bool, m: Msg)
    requires LegInv(c, l, feed, pipe, r, q) && l.served != [] && IsAv(m)
    ensures LegInv(c, l.(av := l.av + [m]), feed, pipe, r, q)
    ensures LegInv(c, l.(av := l.av + [m], vid := l.vid + [m]), feed, pipe, r, q)
  {
    var a := Av(l.seen) + Av(l.wire) + l.fast + Av(pipe);
    SubseqSnoc(a + l.vid, l.av, m);
    assert a + (l.vid + [m]) == a + l.vid + [m];
  }

  lemma PumpTextLeg(c: Cid, l: Leg, feed: seq<Frame>, pipe: seq<Msg>, r: bool, q: bool)
    requires LegInv(c, l, feed, pipe, r, q) && l.ctl != []
    ensures LegInv(c, PumpTurn(l).1, feed, pipe + [PumpTurn(l).0], r, q)
  {
    hide UpInv;
    hide DownInv;
    KeepUp(c, l, PumpTurn(l).1, feed, q);
    WriterTakesText(l.emitted, l.order, l.ctl, l.blk);
    assert IsText(l.ctl[0]);
    hide Writer;
    PumpMust(l, PumpTurn(l).1, l.ctl[0], pipe, r);
  }

  /** The pump hands on a message that must be delivered. */
  lemma PumpMust(l: Leg, k: Leg, m: Msg, pipe: seq<Msg>, r: bool)
    requires DownInv(l, pipe, r) && IsMust(m)
    requires k.seen == l.seen && k.wire == l.wire && k.bulk == l.bulk && k.fast == l.fast
    requires k.vid == l.vid && k.order == l.order + [m] && k.av == l.av && k.cut == l.cut && k.writing == l.writing
    ensures DownInv(k, pipe + [m], r)
  {
    hide Subseq;
    Snoc(pipe, m);
    var d := Must(l.seen) + Must(l.wire) + l.bulk;
    assert d + (Must(pipe) + [m]) == d + Must(pipe) + [m];
    assert Av(pipe) + [] == Av(pipe);
  }

  lemma PumpAvLeg(c: Cid, l: Leg, feed: seq<Frame>, pipe: seq<Msg>, r: bool, q: bool)
    requires LegInv(c, l, feed, pipe, r, q) && l.ctl == [] && l.vid != []
    ensures LegInv(c, PumpTurn(l).1, feed, pipe + [PumpTurn(l).0], r, q)
  {
    hide UpInv;
    hide DownInv;
    hide Writer;
    KeepUp(c, l, PumpTurn(l).1, feed, q);
    PumpAv(l, pipe, r);
  }

  lemma PumpAv(l: Leg, pipe: seq<Msg>, r: bool)
    requires DownInv(l, pipe, r) && l.vid != []
    ensures DownInv(l.(vid := l.vid[1..]), pipe + [l.vid[0]], r)
  {
    hide Subseq;
    var m := l.vid[0];
    Snoc(pipe, m);
    var a := Av(l.seen) + Av(l.wire) + l.fast;
    assert Must(pipe) + [] == Must(pipe);
    assert a + (Av(pipe) + [m]) + l.vid[1..] == a + Av(pipe) + l.vid;
  }

  lemma PumpFileLeg(c: Cid, l: Leg, feed: seq<Frame>, pipe: seq<Msg>, r: bool, q: bool)
    requires LegInv(c, l, feed, pipe, r, q) && l.ctl == [] && l.vid == [] && l.blk != []
    ensures LegInv(c, PumpTurn(l).1, feed, pipe + [PumpTurn(l).0], r, q)
  {
    hide UpInv;
    hide DownInv;
    KeepUp(c, l, PumpTurn(l).1, feed, q);
    WriterTakesFile(l.emitted, l.order, l.ctl, l.blk);
    assert IsFile(l.blk[0]);
    hide Writer;
    PumpMust(l, PumpTurn(l).1, l.blk[0], pipe, r);
  }

  lemma PumpLeg(c: Cid, l: Leg, feed: seq<Frame>, pipe: seq<Msg>, r: bool, q: bool)
    requires LegInv(c, l, feed, pipe, r, q) && (l.ctl != [] || l.vid != [] || l.blk != [])
    ensures LegInv(c, PumpTurn(l).1, feed, pipe + [PumpTurn(l).0], r, q)
  {
    hide LegInv;
    if l.ctl != [] {
      PumpTextLeg(c, l, feed, pipe, r, q);
    } else if l.vid != [] {
      PumpAvLeg(c, l, feed, pipe, r, q);
    } else {
      PumpFileLeg(c, l, feed, pipe, r, q);
    }
  }

  lemma PumpStopLeg(c: Cid, l: Leg, feed: seq<Frame>, pipe: seq<Msg>, r: bool, q: bool)
    requires LegInv(c, l, feed, pipe, r, q)
    ensures LegInv(c, l.(pumping := false), feed, pipe, r, false)
  {
  }

  // ------------------------------------------------------- relay, towards the phone

  /** A message with no route: the phone has been unregistered for good. */
  lemma UnroutedLeg(c: Cid, l: Leg, feed: seq<Frame>, m: Msg, pipe: seq<Msg>, r: bool, q: bool)
    requires LegInv(c, l, feed, [m] + pipe, r, q) && !r
    ensures LegInv(c, if IsMust(m) then l.(cut := true) else l, feed, pipe, r, q)
  {
    hide UpInv;
    hide DownInv;
    hide Writer;
    KeepUp(c, l, l.(cut := true), feed, q);
    Unrouted(l, m, pipe);
  }

  lemma Unrouted(l: Leg, m: Msg, pipe: seq<Msg>)
    requires DownInv(l, [m] + pipe, false)
    ensures DownInv(if IsMust(m) then l.(cut := true) else l, pipe, false)
  {
    hide Subseq;
    Head([m] + pipe);
    assert ([m] + pipe)[1..] == pipe;
    if IsAv(m) {
      assert [] + Must(pipe) == Must(pipe);
      DropAv(l, m, pipe);
    } else {
      assert [] + Av(pipe) == Av(pipe);
    }
  }

  lemma DropAv(l: Leg, m: Msg, pipe: seq<Msg>)
    requires Subseq(Av(l.seen) + Av(l.wire) + l.fast + ([m] + Av(pipe)) + l.vid, l.av)
    ensures Subseq(Av(l.seen) + Av(l.wire) + l.fast + Av(pipe) + l.vid, l.av)
  {
    var a := Av(l.seen) + Av(l.wire) + l.fast;
    assert a + ([m] + Av(pipe)) + l.vid == a + [m] + (Av(pipe) + l.vid);
    SubseqDrop(a, m, Av(pipe) + l.vid, l.av);
    assert a + (Av(pipe) + l.vid) == a + Av(pipe) + l.vid;
  }

  lemma EnqueueLeg(c: Cid, l: Leg, feed: seq<Frame>, m: Msg, pipe: seq<Msg>, r: bool, q: bool)
    requires LegInv(c, l, feed, [m] + pipe, true, q)
    ensures LegInv(c, Enqueue(l, m), feed, pipe, r, q)
  {
    hide DownInv;
    hide Writer;
    if IsMust(m) {
      EnqueueMust(l, m, pipe, r);
    } else {
      EnqueueAv(l, m, pipe, r);
    }
  }

  lemma EnqueueMust(l: Leg, m: Msg, pipe: seq<Msg>, r: bool)
    requires DownInv(l, [m] + pipe, true) && IsMust(m)
    ensures DownInv(Enqueue(l, m), pipe, r)
  {
    hide Subseq;
    Head([m] + pipe);
    assert ([m] + pipe)[1..] == pipe && [] + Av(pipe) == Av(pipe);
    var d := Must(l.seen) + Must(l.wire);
    assert d + (l.bulk + [m]) + Must(pipe) == d + l.bulk + ([m] + Must(pipe));
  }

  lemma EnqueueAv(l: Leg, m: Msg, pipe: seq<Msg>, r: bool)
    requires DownInv(l, [m] + pipe, true) && IsAv(m)
    ensures DownInv(Enqueue(l, m), pipe, r)
  {
    hide Subseq;
    Head([m] + pipe);
    assert ([m] + pipe)[1..] == pipe && [] + Must(pipe) == Must(pipe);
    var a := Av(l.seen) + Av(l.wire);
    assert a + (l.fast + [m]) + Av(pipe) == a + l.fast + ([m] + Av(pipe));
    DropAv(l, m, pipe);
  }

  lemma TakeTurnLeg(c: Cid, l: Leg, feed: seq<Frame>, pipe: seq<Msg>, r: bool, q: bool)
    requires LegInv(c, l, feed, pipe, r, q) && (l.fast != [] || l.bulk != [])
    ensures LegInv(c, TakeTurn(l), feed, pipe, r, q)
  {
    hide UpInv;
    hide DownInv;
    hide Writer;
    KeepUp(c, l, TakeTurn(l), feed, q);
    TakeTurnDown(l, pipe, r);
  }

  lemma TakeTurnDown(l: Leg, pipe: seq<Msg>, r: bool)
    requires DownInv(l, pipe, r) && (l.fast != [] || l.bulk != [])
    ensures DownInv(TakeTurn(l), pipe, r)
  {
    hide Subseq;
    var l' := TakeTurn(l);
    Snoc(l.wire, if l.fast != [] then l.fast[0] else l.bulk[0]);
    if l.fast != [] {
      assert l.fast[0] in l.fast;
      assert Must(l.wire) + [] == Must(l.wire);
      assert Av(l'.seen) + Av(l'.wire) + l'.fast == Av(l.seen) + Av(l.wire) + l.fast;
    } else {
      assert l.bulk[0] in l.bulk;
      assert Av(l.wire) + [] == Av(l.wire);
      assert Must(l'.seen) + Must(l'.wire) + l'.bulk == Must(l.seen) + Must(l.wire) + l.bulk;
    }
  }

  lemma WriterStopLeg(c: Cid, l: Leg, feed: seq<Frame>, pipe: seq<Msg>, r: bool, q: bool)
    requires LegInv(c, l, feed, pipe, r, q)
    ensures LegInv(c, l.(writing := false), feed, pipe, r, q)
  {
  }

  lemma PhoneReceiveLeg(c: Cid, l: Leg, feed: seq<Frame>, pipe: seq<Msg>, r: bool, q: bool)
    requires LegInv(c, l, feed, pipe, r, q) && l.wire != []
    ensures LegInv(c, l.(seen := l.seen + [l.wire[0]], wire := l.wire[1..]), feed, pipe, r, q)
  {
    hide UpInv;
    hide DownInv;
    hide Writer;
    KeepUp(c, l, l.(seen := l.seen + [l.wire[0]], wire := l.wire[1..]), feed, q);
    ReceiveDown(l, pipe, r);
  }

  lemma ReceiveDown(l: Leg, pipe: seq<Msg>, r: bool)
    requires DownInv(l, pipe, r) && l.wire != []
    ensures DownInv(l.(seen := l.seen + [l.wire[0]], wire := l.wire[1..]), pipe, r)
  {
    hide Subseq;
    var m := l.wire[0];
    Snoc(l.seen, m);
    Head(l.wire);
    assert Must(l.seen + [m]) + Must(l.wire[1..]) == Must(l.seen) + Must(l.wire);
    assert Av(l.seen + [m]) + Av(l.wire[1..]) == Av(l.seen) + Av(l.wire);
  }
}
