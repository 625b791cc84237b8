/** The tunnel's tasks as they update their queues and maps in place. Each method is what
    one task does between two suspension points. It is one step of the tunnel, keeps the
    tunnel's invariant and moves each phone's channel by at most one step of its own. */
module TunnelTasks {
  import opened Basics
  import opened Messages
  import opened Link
  import opened Tunnel
  import opened TunnelProof

  class Tasks {
    var legs: map<Cid, Leg>
    var clients: set<Cid>
    var toHost: seq<Frame>
    var hostWriting: bool
    var down: seq<Frame>
    var sessions: set<Cid>
    var hostOut: seq<Frame>
    var up: seq<Frame>
    var held: seq<Frame>

    ghost function View(): Net
      reads this
    {
      Net(legs, clients, toHost, hostWriting, down, sessions, hostOut, up, held)
    }

    ghost predicate Valid()
      reads this
    {
      Inv(View())
    }

    /** What the two ends of every phone's path may rely on between any two steps. */
    lemma Observed(c: Cid)
      requires Valid() && c in legs
      ensures Ok(Tunnel.View(View(), c))
    {
      TunnelProof.Observed(View(), c);
    }

    constructor ()
      ensures View() == INIT && Valid()
    {
      legs, clients, toHost, hostWriting, down := map[], {}, [], true, [];
      sessions, hostOut, up, held := {}, [], [], [];
    }

    // ---------------------------------------------------------- client_loop

    method Accept(c: Cid)
      requires Valid() && Enabled(View(), Dial(c))
      modifies this
      ensures Valid() && View() == Apply(old(View()), Dial(c))
      ensures Steady(old(View()), View()) && Tunnel.View(View(), c) == FRESH
    {
      hide Inv, Moves, Steady;
      ghost var s := View();
      legs := legs[c := NEW_LEG];
      TaskStep(s, Dial(c), View());
      DialStartsFresh(s, Dial(c), c);
    }

    method RegisterQueues(c: Cid)
      requires Valid() && Enabled(View(), Register(c))
      modifies this
      ensures Valid() && View() == Apply(old(View()), Register(c))
      ensures Steady(old(View()), View())
    {
      hide Inv, Moves, Steady;
      ghost var s := View();
      clients := clients + {c};
      legs := legs[c := legs[c].(phase := Registered)];
      TaskStep(s, Register(c), View());
    }

    /** `to_host.send`: waits for room while the writer lives, fails at once when not. */
    method SendToHost(c: Cid, f: Frame) returns (ok: bool)
      requires c in legs && (hostWriting ==> |toHost| < TO_HOST_QUEUE_CAP)
      modifies this`toHost, this`legs
      ensures ok == hostWriting
      ensures toHost == if ok then old(toHost) + [f] else old(toHost)
      ensures legs == if ok then old(legs)[c := old(legs)[c].(link := old(legs)[c].link + [f])] else old(legs)
    {
      ok := hostWriting;
      if ok {
        toHost := toHost + [f];
        legs := legs[c := legs[c].(link := legs[c].link + [f])];
      }
    }

    method OpenTunnel(c: Cid)
      requires Valid() && Enabled(View(), SendOpen(c))
      modifies this
      ensures Valid() && View() == Apply(old(View()), SendOpen(c))
      ensures Steady(old(View()), View())
      ensures toHost == old(toHost) + if hostWriting then [ClientOpen(c)] else []
      ensures legs.Keys == old(legs).Keys && legs[c].phase == if hostWriting then Reading else Gone
      ensures clients == if hostWriting then old(clients) else old(clients) - {c}
    {
      hide Inv, Moves, Steady;
      ghost var s := View();
      var ok := SendToHost(c, ClientOpen(c));
      if ok {
        legs := legs[c := legs[c].(phase := Reading)];
      } else {
        clients := clients - {c};
        legs := legs[c := legs[c].(phase := Gone)];
      }
      TaskStep(s, SendOpen(c), View());
    }

    /** One turn of the reader: phone to relay to host. */
    method ForwardOne(c: Cid)
      requires Valid() && Enabled(View(), Forward(c))
      modifies this
      ensures Valid() && View() == Apply(old(View()), Forward(c))
      ensures Steady(old(View()), View())
      ensures legs.Keys == old(legs).Keys && hostWriting == old(hostWriting)
      ensures var l, k := old(legs)[c], legs[c];
              && toHost == old(toHost) + (if hostWriting then [Data(c, l.sent[l.read])] else [])
              && k.read == l.read + (if hostWriting then 1 else 0)
              && k.phase == if hostWriting then Reading else Closing
    {
      hide Inv, Moves, Steady;
      ghost var s := View();
      var ok := SendToHost(c, Data(c, legs[c].sent[legs[c].read]));
      if ok {
        legs := legs[c := legs[c].(read := legs[c].read + 1)];
      } else {
        legs := legs[c := legs[c].(phase := Closing)];
      }
      TaskStep(s, Forward(c), View());
    }

    method StopReading(c: Cid)
      requires Valid() && Enabled(View(), ReaderEnd(c))
      modifies this
      ensures Valid() && View() == Apply(old(View()), ReaderEnd(c))
      ensures Steady(old(View()), View())
    {
      hide Inv, Moves, Steady;
      ghost var s := View();
      legs := legs[c := legs[c].(phase := Closing)];
      TaskStep(s, ReaderEnd(c), View());
    }

    /** A failed send is ignored here: the loop leaves either way. */
    method CloseTunnel(c: Cid)
      requires Valid() && Enabled(View(), SendClose(c))
      modifies this
      ensures Valid() && View() == Apply(old(View()), SendClose(c))
      ensures Steady(old(View()), View())
      ensures toHost == old(toHost) + if hostWriting then [ClientClose(c)] else []
    {
      hide Inv, Moves, Steady;
      ghost var s := View();
      var _ := SendToHost(c, ClientClose(c));
      legs := legs[c := legs[c].(phase := Unregistering)];
      TaskStep(s, SendClose(c), View());
    }

    method Leave(c: Cid)
      requires Valid() && Enabled(View(), Unregister(c))
      modifies this
      ensures Valid() && View() == Apply(old(View()), Unregister(c))
      ensures Steady(old(View()), View())
    {
      hide Inv, Moves, Steady;
      ghost var s := View();
      clients := clients - {c};
      legs := legs[c := legs[c].(phase := Gone)];
      TaskStep(s, Unregister(c), View());
    }

    /** One turn of the phone's writer: the fast queue before the bulk queue. */
    method PhoneWriterTurn(c: Cid)
      requires Valid() && Enabled(View(), WriterTurn(c))
      modifies this
      ensures Valid() && View() == Apply(old(View()), WriterTurn(c))
      ensures Steady(old(View()), View())
      ensures var l := old(legs)[c];
              legs == old(legs)[c := l.(fast := if l.fast != [] then l.fast[1..] else [],
                                        bulk := if l.fast != [] then l.bulk else l.bulk[1..],
                                        wire := l.wire + [if l.fast != [] then l.fast[0] else l.bulk[0]])]
    {
      hide Inv, Moves, Steady;
      ghost var s := View();
      var l := legs[c];
      if l.fast != [] {
        legs := legs[c := l.(fast := l.fast[1..], wire := l.wire + [l.fast[0]])];
      } else {
        legs := legs[c := l.(bulk := l.bulk[1..], wire := l.wire + [l.bulk[0]])];
      }
      TaskStep(s, WriterTurn(c), View());
    }

    // ------------------------------------------------------------ host_loop

    method HostWriterTurn()
      requires Valid() && Enabled(View(), HostWrite)
      modifies this
      ensures Valid() && View() == Apply(old(View()), HostWrite)
      ensures Steady(old(View()), View()) && SameCargo(old(View()), View())
      ensures down == old(down) + [old(toHost)[0]] && toHost == old(toHost)[1..]
    {
      hide Inv, Moves, Steady;
      ghost var s := View();
      down := down + [toHost[0]];
      toHost := toHost[1..];
      TaskStep(s, HostWrite, View());
      WriterCarries(s, HostWrite);
    }

    /** The reader looks a frame's phone up and takes a copy of its queues. */
    method RouteFrame()
      requires Valid() && Enabled(View(), HostRead)
      modifies this
      ensures Valid() && View() == Apply(old(View()), HostRead)
      ensures Steady(old(View()), View())
      ensures up == old(up)[1..] && clients == old(clients)
      ensures held == if old(up)[0].Data? && old(up)[0].c in clients then [old(up)[0]] else []
    {
      hide Inv, Moves, Steady;
      ghost var s := View();
      var f := up[0];
      up := up[1..];
      if f.Data? {
        if f.c in clients {
          held := [f];
        } else if IsMust(f.m) {
          legs := legs[f.c := legs[f.c].(cut := true)];
        }
      }
      TaskStep(s, HostRead, View());
    }

    /** Text and FILE messages wait for room in the bulk queue; A/V frames are dropped
        when the fast queue is full; a closed queue takes nothing. */
    method QueueFrame()
      requires Valid() && Enabled(View(), Queue)
      modifies this
      ensures Valid() && View() == Apply(old(View()), Queue)
      ensures Steady(old(View()), View())
      ensures var c, m := old(held)[0].c, old(held)[0].m;
              var l := old(legs)[c];
              && held == []
              && legs == old(legs)[c := l.(
                   fast := if IsAv(m) && l.writing && |l.fast| < PER_CLIENT_FAST_CAP then l.fast + [m] else l.fast,
                   bulk := if IsMust(m) && l.writing then l.bulk + [m] else l.bulk,
                   cut := l.cut || (IsMust(m) && !l.writing))]
    {
      hide Inv, Moves, Steady;
      ghost var s := View();
      var c, m := held[0].c, held[0].m;
      held := [];
      var l := legs[c];
      if IsMust(m) {
        if l.writing {
          legs := legs[c := l.(bulk := l.bulk + [m])];
        } else {
          legs := legs[c := l.(cut := true)];
        }
      } else {
        if l.writing && |l.fast| < PER_CLIENT_FAST_CAP {
          l := l.(fast := l.fast + [m]);
        }
        legs := legs[c := l];
      }
      TaskStep(s, Queue, View());
    }

    method Displaced()
      requires Valid()
      modifies this`clients
      ensures Valid() && View() == Apply(old(View()), ClearClients)
      ensures Steady(old(View()), View())
    {
      hide Inv, Moves, Steady;
      ghost var s := View();
      clients := {};
      TaskStep(s, ClearClients, View());
    }

    // ----------------------------------------------------- RelayClient::run

    /** The PC's demultiplexer. */
    method DemuxOne()
      requires Valid() && Enabled(View(), PcRead)
      modifies this
      ensures Valid() && View() == Apply(old(View()), PcRead)
      ensures Moves(old(View()), View())
      ensures var f, l := old(down)[0], old(legs)[old(down)[0].c];
              && down == old(down)[1..]
              && sessions == (if f.ClientOpen? then old(sessions) + {f.c}
                              else if f.ClientClose? then old(sessions) - {f.c} else old(sessions))
              && legs == old(legs)[f.c := l.(served := l.served + [f],
                                             inbox := if f.Data? && f.c in old(sessions) then l.inbox + [f.m] else l.inbox)]
    {
      hide Inv, Moves, Steady;
      ghost var s := View();
      var f := down[0];
      down := down[1..];
      var l := legs[f.c].(served := legs[f.c].served + [f]);
      match f {
        case ClientOpen(c) =>
          sessions := sessions + {c};
          legs := legs[c := l];
        case ClientClose(c) =>
          sessions := sessions - {c};
          legs := legs[c := l];
        case Data(c, m) =>
          if c in sessions {
            l := l.(inbox := l.inbox + [m]);
          }
          legs := legs[c := l];
      }
      TaskStep(s, PcRead, View());
    }

    /** One turn of a session's outbound pump: control, then video, then bulk. */
    method PumpOne(c: Cid)
      requires Valid() && c in legs && Enabled(View(), Pump(c))
      modifies this
      ensures Valid() && View() == Apply(old(View()), Pump(c))
      ensures Steady(old(View()), View())
      ensures c in legs && legs == old(legs)[c := legs[c]]
      ensures var l, k := old(legs)[c], legs[c];
              && hostOut == old(hostOut) + [Data(c, if l.ctl != [] then l.ctl[0] else if l.vid != [] then l.vid[0] else l.blk[0])]
              && k.ctl == (if l.ctl != [] then l.ctl[1..] else [])
              && k.vid == (if l.ctl == [] && l.vid != [] then l.vid[1..] else l.vid)
              && k.blk == if l.ctl + l.vid == [] then l.blk[1..] else l.blk
    {
      hide Inv, Moves, Steady;
      ghost var s := View();
      var l := legs[c];
      if l.ctl != [] {
        hostOut := hostOut + [Data(c, l.ctl[0])];
        legs := legs[c := l.(ctl := l.ctl[1..], order := l.order + [l.ctl[0]])];
      } else if l.vid != [] {
        hostOut := hostOut + [Data(c, l.vid[0])];
        legs := legs[c := l.(vid := l.vid[1..])];
      } else {
        hostOut := hostOut + [Data(c, l.blk[0])];
        legs := legs[c := l.(blk := l.blk[1..], order := l.order + [l.blk[0]])];
      }
      TaskStep(s, Pump(c), View());
    }

    method PumpEnds(c: Cid)
      requires Valid() && Enabled(View(), PumpStop(c))
      modifies this
      ensures Valid() && View() == Apply(old(View()), PumpStop(c))
      ensures Steady(old(View()), View())
    {
      hide Inv, Moves, Steady;
      ghost var s := View();
      legs := legs[c := legs[c].(pumping := false)];
      sessions := sessions - {c};
      TaskStep(s, PumpStop(c), View());
    }

    method PcWriterTurn()
      requires Valid() && Enabled(View(), PcWrite)
      modifies this
      ensures Valid() && View() == Apply(old(View()), PcWrite)
      ensures Steady(old(View()), View()) && SameCargo(old(View()), View())
      ensures up == old(up) + [old(hostOut)[0]] && hostOut == old(hostOut)[1..]
    {
      hide Inv, Moves, Steady;
      ghost var s := View();
      up := up + [hostOut[0]];
      hostOut := hostOut[1..];
      TaskStep(s, PcWrite, View());
      WriterCarries(s, PcWrite);
    }

    /** A session's three ways out: what it emits counts as emitted at once, and only
        an A/V frame that finds two waiting is dropped. */
    method SessionSends(c: Cid, m: Msg)
      requires Valid() && c in legs && legs[c].served != []
      requires IsFile(m) ==> |legs[c].blk| < OUTBOUND_BULK_CAP
      modifies this`legs
      ensures Valid() && Moves(old(View()), View())
      ensures c in legs && legs == old(legs)[c := legs[c]]
      ensures var v := Tunnel.View(old(View()), c);
              Tunnel.View(View(), c) == if IsMust(m) then v.(emitted := v.emitted + [m]) else v.(av := v.av + [m])
      ensures var l, k := old(legs[c]), legs[c];
              && k.ctl == l.ctl + (if IsText(m) then [m] else [])
              && k.blk == l.blk + (if IsFile(m) then [m] else [])
              && k.vid == l.vid + (if IsAv(m) && |l.vid| < OUTBOUND_VIDEO_CAP then [m] else [])
    {
      hide Inv, Moves, Steady;
      ghost var s := View();
      ghost var a := if IsText(m) then EmitText(c, m) else if IsFile(m) then EmitFile(c, m) else EmitAv(c, m);
      var l := legs[c];
      if IsText(m) {
        legs := legs[c := l.(emitted := l.emitted + [m], ctl := l.ctl + [m])];
      } else if IsFile(m) {
        legs := legs[c := l.(emitted := l.emitted + [m], blk := l.blk + [m])];
      } else {
        l := l.(av := l.av + [m]);
        if |l.vid| < OUTBOUND_VIDEO_CAP {
          l := l.(vid := l.vid + [m]);
        }
        legs := legs[c := l];
      }
      TaskStep(s, a, View());
    }
  }
}
