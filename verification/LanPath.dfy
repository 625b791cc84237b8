/** The LAN transport of one phone: a reader feeding run_connection's inbox and a
    writer draining three queues onto one WebSocket. It refines the same `Channel`, as a
    step system and as the code that takes the steps in place. */
module LanPath {
  import opened Basics
  import opened Messages
  import opened Link

  /** The three queues over the channel `v` the phone and its session see. */
  ghost predicate Sound(v: Channel, ctl: seq<Msg>, vid: seq<Msg>, blk: seq<Msg>)
  {
    && v.inbox <= v.sent
    && Writer(v.emitted, v.got, ctl, blk)
    && (forall m | m in vid :: IsAv(m))
    && Subseq(v.gotAv + vid, v.av)
    && |vid| <= OUTBOUND_VIDEO_CAP && |blk| <= OUTBOUND_BULK_CAP
  }

  lemma Starts()
    ensures Sound(FRESH, [], [], []) && Must([]) == [] && Av([]) == []
  {
    assert Texts([]) == [] && Files([]) == [];
  }

  /** What a message on the wire adds to either view of it. */
  lemma OnWire(wire: seq<Msg>, m: Msg)
    ensures IsMust(m) ==> Must(wire + [m]) == Must(wire) + [m] && Av(wire + [m]) == Av(wire)
    ensures IsAv(m) ==> Must(wire + [m]) == Must(wire) && Av(wire + [m]) == Av(wire) + [m]
  {
    Snoc(wire, m);
    assert Av(wire) + [] == Av(wire) && Must(wire) + [] == Must(wire);
  }

  lemma ReadStep(v: Channel, ctl: seq<Msg>, vid: seq<Msg>, blk: seq<Msg>, m: Msg)
    requires Sound(v, ctl, vid, blk) && |v.inbox| < |v.sent| && m == v.sent[|v.inbox|]
    ensures Sound(v.(inbox := v.inbox + [m]), ctl, vid, blk) && Next(v, v.(inbox := v.inbox + [m]))
  {
  }

  lemma SentStep(v: Channel, ctl: seq<Msg>, vid: seq<Msg>, blk: seq<Msg>, m: Msg)
    requires Sound(v, ctl, vid, blk)
    ensures Sound(v.(sent := v.sent + [m]), ctl, vid, blk) && Next(v, v.(sent := v.sent + [m]))
  {
  }

  lemma TextStep(v: Channel, ctl: seq<Msg>, vid: seq<Msg>, blk: seq<Msg>, m: Msg)
    requires Sound(v, ctl, vid, blk) && IsText(m)
    ensures Sound(v.(emitted := v.emitted + [m]), ctl + [m], vid, blk) && Next(v, v.(emitted := v.emitted + [m]))
  {
    hide Writer;
    WriterEmitText(v.emitted, v.got, ctl, blk, m);
  }

  lemma FileStep(v: Channel, ctl: seq<Msg>, vid: seq<Msg>, blk: seq<Msg>, m: Msg)
    requires Sound(v, ctl, vid, blk) && IsFile(m) && |blk| < OUTBOUND_BULK_CAP
    ensures Sound(v.(emitted := v.emitted + [m]), ctl, vid, blk + [m]) && Next(v, v.(emitted := v.emitted + [m]))
  {
    hide Writer;
    WriterEmitFile(v.emitted, v.got, ctl, blk, m);
  }

  lemma VideoStep(v: Channel, ctl: seq<Msg>, vid: seq<Msg>, blk: seq<Msg>, m: Msg)
    requires Sound(v, ctl, vid, blk) && IsAv(m)
    ensures Next(v, v.(av := v.av + [m])) && Sound(v.(av := v.av + [m]), ctl, vid, blk)
    ensures |vid| < OUTBOUND_VIDEO_CAP ==> Sound(v.(av := v.av + [m]), ctl, vid + [m], blk)
  {
    hide Writer;
    SubseqSnoc(v.gotAv + vid, v.av, m);
    assert v.gotAv + (vid + [m]) == v.gotAv + vid + [m];
  }

  lemma ControlTaken(v: Channel, ctl: seq<Msg>, vid: seq<Msg>, blk: seq<Msg>)
    requires Sound(v, ctl, vid, blk) && ctl != []
    ensures IsText(ctl[0])
    ensures var w := v.(got := v.got + [ctl[0]]); Sound(w, ctl[1..], vid, blk) && Next(v, w)
  {
    WriterTakesText(v.emitted, v.got, ctl, blk);
    assert ctl[0] in ctl;
    hide Ordered;
    NextGot(v, ctl[0]);
  }

  lemma VideoTaken(v: Channel, ctl: seq<Msg>, vid: seq<Msg>, blk: seq<Msg>)
    requires Sound(v, ctl, vid, blk) && vid != []
    ensures IsAv(vid[0])
    ensures var w := v.(gotAv := v.gotAv + [vid[0]]); Sound(w, ctl, vid[1..], blk) && Next(v, w)
  {
    hide Writer;
    hide Subseq;
    assert vid[0] in vid;
    SubseqTake(v.gotAv, vid, v.av);
    NextGotAv(v, vid[0]);
  }

  lemma BulkTaken(v: Channel, ctl: seq<Msg>, vid: seq<Msg>, blk: seq<Msg>)
    requires Sound(v, ctl, vid, blk) && ctl == [] && blk != []
    ensures IsFile(blk[0])
    ensures var w := v.(got := v.got + [blk[0]]); Sound(w, ctl, vid, blk[1..]) && Next(v, w)
  {
    WriterTakesFile(v.emitted, v.got, ctl, blk);
    assert blk[0] in blk;
    hide Ordered;
    NextGot(v, blk[0]);
  }

  /** An intact channel is what soundness means to an observer. */
  lemma SoundOk(v: Channel, ctl: seq<Msg>, vid: seq<Msg>, blk: seq<Msg>)
    requires Sound(v, ctl, vid, blk)
    ensures Ok(v)
  {
    SubseqPrefix(v.gotAv, vid, v.av);
  }

  // -------------------------------------------------------------------- steps

  /** The channel and the three queues: `outbox`, `outbox_video`, `outbox_bulk`. A pump
      that dies takes no more steps, which nobody can tell from its losing the rest. */
  datatype Lan = Lan(v: Channel, ctl: seq<Msg>, vid: seq<Msg>, blk: seq<Msg>)

  const IDLE := Lan(FRESH, [], [], [])

  datatype Action =
    | PhoneSend(m: Msg)
    | ReadOne
    | EmitText(m: Msg)
    | EmitFile(m: Msg)
    | EmitAv(m: Msg)
    | TakeOne

  /** When an action can happen: a full bulk queue makes its sender wait. */
  predicate Enabled(s: Lan, a: Action)
  {
    match a
    case PhoneSend(_) => true
    case ReadOne => |s.v.inbox| < |s.v.sent|
    case EmitText(m) => IsText(m)
    case EmitFile(m) => IsFile(m) && |s.blk| < OUTBOUND_BULK_CAP
    case EmitAv(m) => IsAv(m)
    case TakeOne => s.ctl != [] || s.vid != [] || s.blk != []
  }

  function Apply(s: Lan, a: Action): Lan
    requires Enabled(s, a)
  {
    var v := s.v;
    match a
    case PhoneSend(m) => s.(v := v.(sent := v.sent + [m]))
    case ReadOne => s.(v := v.(inbox := v.inbox + [v.sent[|v.inbox|]]))
    case EmitText(m) => s.(v := v.(emitted := v.emitted + [m]), ctl := s.ctl + [m])
    case EmitFile(m) => s.(v := v.(emitted := v.emitted + [m]), blk := s.blk + [m])
    case EmitAv(m) =>
      s.(v := v.(av := v.av + [m]), vid := s.vid + if |s.vid| < OUTBOUND_VIDEO_CAP then [m] else [])
    case TakeOne =>
      if s.ctl != [] then s.(v := v.(got := v.got + [s.ctl[0]]), ctl := s.ctl[1..])
      else if s.vid != [] then s.(v := v.(gotAv := v.gotAv + [s.vid[0]]), vid := s.vid[1..])
      else s.(v := v.(got := v.got + [s.blk[0]]), blk := s.blk[1..])
  }

  ghost predicate Inv(s: Lan) { Sound(s.v, s.ctl, s.vid, s.blk) }

  /** Every step of the bridge keeps its queues sound and is a step of the channel. */
  lemma StepSound(s: Lan, a: Action)
    requires Inv(s) && Enabled(s, a)
    ensures Inv(Apply(s, a)) && Next(s.v, Apply(s, a).v)
  {
    hide Sound, Next;
    match a
    case PhoneSend(m) => SentStep(s.v, s.ctl, s.vid, s.blk, m);
    case ReadOne => ReadStep(s.v, s.ctl, s.vid, s.blk, s.v.sent[|s.v.inbox|]);
    case EmitText(m) => TextStep(s.v, s.ctl, s.vid, s.blk, m);
    case EmitFile(m) => FileStep(s.v, s.ctl, s.vid, s.blk, m);
    case EmitAv(m) =>
      VideoStep(s.v, s.ctl, s.vid, s.blk, m);
      assert s.vid + [] == s.vid;
    case TakeOne =>
      if s.ctl != [] {
        ControlTaken(s.v, s.ctl, s.vid, s.blk);
      } else if s.vid != [] {
        VideoTaken(s.v, s.ctl, s.vid, s.blk);
      } else {
        BulkTaken(s.v, s.ctl, s.vid, s.blk);
      }
  }

  /** A run of one phone's LAN connection: reader, writer and session interleave freely. */
  ghost predicate Run(ss: seq<Lan>, acts: seq<Action>)
  {
    && |ss| == |acts| + 1
    && ss[0] == IDLE
    && forall i | 0 <= i < |acts| :: Enabled(ss[i], acts[i]) && ss[i + 1] == Apply(ss[i], acts[i])
  }

  lemma {:induction false} RunInv(ss: seq<Lan>, acts: seq<Action>, i: nat)
    requires Run(ss, acts) && i < |ss|
    ensures Inv(ss[i])
  {
    if i == 0 {
      Starts();
    } else {
      RunInv(ss, acts, i - 1);
      StepSound(ss[i - 1], acts[i - 1]);
    }
  }

  /** The refinement: every run of the bridge is a run of the channel, intact throughout. */
  lemma LanRefinesLink(ss: seq<Lan>, acts: seq<Action>, i: nat)
    requires Run(ss, acts) && i < |acts|
    ensures Next(ss[i].v, ss[i + 1].v) && Ok(ss[i].v) && Ok(ss[i + 1].v)
  {
    hide Sound, Next;
    RunInv(ss, acts, i);
    RunInv(ss, acts, i + 1);
    StepSound(ss[i], acts[i]);
    SoundOk(ss[i].v, ss[i].ctl, ss[i].vid, ss[i].blk);
    SoundOk(ss[i + 1].v, ss[i + 1].ctl, ss[i + 1].vid, ss[i + 1].blk);
  }

  // --------------------------------------------------------------------- code

  class LanBridge {
    var inbox: seq<Msg>
    var outbox: seq<Msg>
    var outboxVideo: seq<Msg>
    var outboxBulk: seq<Msg>
    var wire: seq<Msg>          // what the sink accepted, in order
    ghost var sent: seq<Msg>
    ghost var emitted: seq<Msg>
    ghost var av: seq<Msg>

    ghost predicate Valid()
      reads this
    {
      Inv(State())
    }

    ghost function State(): Lan
      reads this
    {
      Lan(View(), outbox, outboxVideo, outboxBulk)
    }

    ghost function View(): Channel
      reads this
    {
      Channel(sent, inbox, emitted, Must(wire), av, Av(wire))
    }

    constructor ()
      ensures Valid() && State() == IDLE
    {
      inbox, outbox, outboxVideo, outboxBulk, wire := [], [], [], [], [];
      sent, emitted, av := [], [], [];
      Starts();
    }

    lemma Observed()
      requires Valid()
      ensures Ok(View())
    {
      SoundOk(View(), outbox, outboxVideo, outboxBulk);
    }

    ghost method PhoneSends(m: Msg)
      requires Valid()
      modifies this`sent
      ensures Valid() && Next(old(View()), View()) && State() == Apply(old(State()), PhoneSend(m))
      ensures sent == old(sent) + [m]
    {
      hide Sound, Next;
      StepSound(State(), PhoneSend(m));
      sent := sent + [m];
    }

    /** The reader task hands the next message to the inbox. */
    method ReaderTurn(m: Msg)
      requires Valid() && |inbox| < |sent| && m == sent[|inbox|]
      modifies this`inbox
      ensures Valid() && Next(old(View()), View()) && State() == Apply(old(State()), ReadOne)
      ensures inbox == old(inbox) + [m]
    {
      hide Sound, Next;
      StepSound(State(), ReadOne);
      inbox := inbox + [m];
    }

    /** Control plane: unbounded, never dropped. */
    method Send(m: Msg)
      requires Valid() && IsText(m)
      modifies this`outbox, this`emitted
      ensures Valid() && Next(old(View()), View()) && State() == Apply(old(State()), EmitText(m))
      ensures outbox == old(outbox) + [m] && emitted == old(emitted) + [m]
    {
      hide Sound, Next;
      StepSound(State(), EmitText(m));
      outbox := outbox + [m];
      emitted := emitted + [m];
    }

    /** A/V: `try_send`, dropped when two frames already wait. */
    method TrySendVideo(m: Msg) returns (ok: bool)
      requires Valid() && IsAv(m)
      modifies this`outboxVideo, this`av
      ensures Valid() && Next(old(View()), View()) && State() == Apply(old(State()), EmitAv(m))
      ensures av == old(av) + [m]
      ensures ok == (|old(outboxVideo)| < OUTBOUND_VIDEO_CAP)
      ensures outboxVideo == if ok then old(outboxVideo) + [m] else old(outboxVideo)
    {
      hide Sound, Next;
      StepSound(State(), EmitAv(m));
      assert outboxVideo + [] == outboxVideo;
      ok := |outboxVideo| < OUTBOUND_VIDEO_CAP;
      if ok {
        outboxVideo := outboxVideo + [m];
      }
      av := av + [m];
    }

    /** FILE chunks: the sender waits for room, so a call happens only when there is some. */
    method SendBulk(m: Msg)
      requires Valid() && IsFile(m) && |outboxBulk| < OUTBOUND_BULK_CAP
      modifies this`outboxBulk, this`emitted
      ensures Valid() && Next(old(View()), View()) && State() == Apply(old(State()), EmitFile(m))
      ensures outboxBulk == old(outboxBulk) + [m] && emitted == old(emitted) + [m]
    {
      hide Sound, Next;
      StepSound(State(), EmitFile(m));
      outboxBulk := outboxBulk + [m];
      emitted := emitted + [m];
    }

    /** One turn of the biased writer loop: control, then video, then bulk. */
    method WriterTurn() returns (moved: bool)
      requires Valid()
      modifies this`outbox, this`outboxVideo, this`outboxBulk, this`wire
      ensures Valid() && Next(old(View()), View())
      ensures moved == (old(outbox) != [] || old(outboxVideo) != [] || old(outboxBulk) != [])
      ensures if moved then State() == Apply(old(State()), TakeOne) else State() == old(State())
      ensures wire == old(wire) + (if old(outbox) != [] then [old(outbox)[0]]
                                   else if old(outboxVideo) != [] then [old(outboxVideo)[0]]
                                   else if old(outboxBulk) != [] then [old(outboxBulk)[0]]
                                   else [])
      ensures outbox == if old(outbox) != [] then old(outbox)[1..] else []
      ensures outboxVideo == if old(outbox) == [] && old(outboxVideo) != [] then old(outboxVideo)[1..] else old(outboxVideo)
      ensures outboxBulk == if old(outbox + outboxVideo) == [] && old(outboxBulk) != [] then old(outboxBulk)[1..]
                            else old(outboxBulk)
    {
      hide Sound, Next;
      moved := true;
      if outbox != [] {
        TakeControl();
      } else if outboxVideo != [] {
        TakeVideo();
      } else if outboxBulk != [] {
        TakeBulk();
      } else {
        moved := false;
        NextStays(View());
      }
    }

    method TakeControl()
      requires Valid() && outbox != []
      modifies this`outbox, this`wire
      ensures Valid() && Next(old(View()), View()) && State() == Apply(old(State()), TakeOne)
      ensures wire == old(wire) + [old(outbox)[0]] && outbox == old(outbox)[1..]
    {
      hide Sound, Next;
      StepSound(State(), TakeOne);
      ControlTaken(View(), outbox, outboxVideo, outboxBulk);
      OnWire(wire, outbox[0]);
      wire, outbox := wire + [outbox[0]], outbox[1..];
    }

    method TakeVideo()
      requires Valid() && outbox == [] && outboxVideo != []
      modifies this`outboxVideo, this`wire
      ensures Valid() && Next(old(View()), View()) && State() == Apply(old(State()), TakeOne)
      ensures wire == old(wire) + [old(outboxVideo)[0]] && outboxVideo == old(outboxVideo)[1..]
    {
      hide Sound, Next;
      StepSound(State(), TakeOne);
      VideoTaken(View(), outbox, outboxVideo, outboxBulk);
      OnWire(wire, outboxVideo[0]);
      wire, outboxVideo := wire + [outboxVideo[0]], outboxVideo[1..];
    }

    method TakeBulk()
      requires Valid() && outbox == [] && outboxVideo == [] && outboxBulk != []
      modifies this`outboxBulk, this`wire
      ensures Valid() && Next(old(View()), View()) && State() == Apply(old(State()), TakeOne)
      ensures wire == old(wire) + [old(outboxBulk)[0]] && outboxBulk == old(outboxBulk)[1..]
    {
      hide Sound, Next;
      StepSound(State(), TakeOne);
      BulkTaken(View(), outbox, outboxVideo, outboxBulk);
      OnWire(wire, outboxBulk[0]);
      wire, outboxBulk := wire + [outboxBulk[0]], outboxBulk[1..];
    }
  }
}
