/** Files end to end, over the relay tunnel and over the LAN. */
module EndToEnd {
  import opened Basics
  import opened Messages
  import opened Link
  import opened ChunkLog
  import opened Transfer
  import opened TransferProof
  import LanPath
  import Tunnel
  import TunnelProof

  lemma UploadKeeps(e: Ends, v: Channel, a: Event, e': Ends, v': Channel)
    requires Inv(e, v) && Step(e, v, a, e', v')
    requires a.UploadBegin? || a.UploadChunk? || a.UploadEof? || a.UploadFail? || a.PhoneSays?
    ensures UpOk(e'.ups, v'.sent)
  {
    hide UpOk;
    match a
    case UploadBegin(id, name, size) => UpBeginKeeps(e.ups, v.sent, id, name, size);
    case UploadChunk(id, payload) => UpFrameKeeps(e.ups, v.sent, id, false, payload);
    case UploadEof(id) =>
      UpFrameKeeps(e.ups, v.sent, id, true, []);
      assert e.ups[id].stream + [] == e.ups[id].stream;
    case UploadFail(id) =>
      UpStopKeeps(e.ups, v.sent, id);
      UpTextKeeps(e'.ups, v.sent, Text(FileTransferAbort(id)));
    case PhoneSays(m) => UpTextKeeps(e.ups, v.sent, m);
  }

  lemma SendKeeps(e: Ends, v: Channel, a: Event, e': Ends, v': Channel)
    requires Inv(e, v) && Step(e, v, a, e', v')
    requires a.SendBegin? || a.SendChunk? || a.SendStop? || a.SessionSays?
    ensures DownOk(e'.sends, v'.emitted)
  {
    hide DownOk;
    match a
    case SendBegin(id, name, spool, size) => DownBeginKeeps(e.sends, v.emitted, id, name, spool, size);
    case SendChunk(id, n) => DownFrameKeeps(e.sends, v.emitted, id, n);
    case SendStop(id) => DownStopKeeps(e.sends, v.emitted, id);
    case SessionSays(m) => DownTextKeeps(e.sends, v.emitted, m);
  }

  lemma HandleKeeps(e: Ends, v: Channel, ok: bool, e': Ends)
    requires Inv(e, v) && Ok(v) && Step(e, v, Handle(ok), e', v)
    ensures Inv(e', v)
  {
    var n := e.handled;
    assert v.sent[n] == v.inbox[n] && v.sent[..n] == v.inbox[..n] && v.sent[..n + 1] == v.inbox[..n + 1];
    SessionHandlesKeeps(e.ups, v.sent, e.up, n, e.auth, ok);
  }

  lemma StepKeeps(e: Ends, v: Channel, a: Event, e': Ends, v': Channel)
    requires Inv(e, v) && Ok(v) && Ok(v') && Step(e, v, a, e', v')
    ensures Inv(e', v')
  {
    hide UpOk;
    hide DownOk;
    if a.UploadBegin? || a.UploadChunk? || a.UploadEof? || a.UploadFail? || a.PhoneSays? {
      UploadKeeps(e, v, a, e', v');
    } else if a.SendBegin? || a.SendChunk? || a.SendStop? || a.SessionSays? {
      SendKeeps(e, v, a, e', v');
    } else if a.Handle? {
      HandleKeeps(e, v, a.ok, e');
    } else if a.PhoneGets? {
      PhoneHandlesKeeps(e.sends, v.emitted, v.got, e.down, a.m, a.ok);
    } else if a.Transport? {
      assert v'.inbox[..e.handled] == v.inbox[..e.handled];
    }
  }

  lemma StartOk()
    ensures Inv(START, FRESH)
  {
    assert Texts([]) == [] && Files([]) == [];
  }

  /** PC to phone: no chunk was ever out of order or ahead of its announcement; what
      is on the phone's disk is a prefix of the spool; a completed file holds all
      bytes up to the declared size, so it equals a spool of the announced length. */
  ghost predicate DownloadsIntact(e: Ends, v: Channel)
  {
    && e.down.misordered == 0
    && (forall k: nat | k < |Files(v.got)| ::
          ChunkOf(Files(v.got)[k]).Some? && HasBegin(TextsBefore(v.got, k), ChunkOf(Files(v.got)[k]).value.id))
    && (forall id | id in e.down.open && e.down.open[id].data != [] ::
          id in e.sends && e.down.open[id].data <= e.sends[id].spool)
    && (forall id | id in e.down.done ::
          && id in e.sends && e.down.done[id] <= e.sends[id].spool && |e.down.done[id]| >= e.sends[id].size
          && (|e.sends[id].spool| == e.sends[id].size ==> e.down.done[id] == e.sends[id].spool))
  }

  /** Phone to PC: the PC's file is a prefix of what the upload thread read, and a
      completed one is everything it read up to end of file. */
  ghost predicate UploadsIntact(e: Ends, v: Channel)
  {
    && e.up.misordered == 0
    && (forall id | id in e.up.open && e.up.open[id].data != [] ::
          id in e.ups && e.up.open[id].data <= e.ups[id].stream)
    && (forall id | id in e.up.done :: id in e.ups && e.ups[id].ended && e.up.done[id] == e.ups[id].stream)
  }

  lemma DownloadFile(e: Ends, v: Channel, id: u32)
    requires Inv(e, v) && Ok(v) && Chunks(v.got, id) != []
    ensures id in e.sends && Payload(Chunks(v.got, id)) <= e.sends[id].spool
    ensures Ended(Chunks(v.got, id)) ==>
              Payload(Chunks(v.got, id)) == e.sends[id].spool[..e.sends[id].pos] && e.sends[id].pos >= e.sends[id].size
  {
    ChunksOfFiles(v.got, id);
    var k := SomeChunk(Files(v.got), id);
    BeginArrivedFirst(e.sends, v.emitted, v.got, k);
    TextsBeforeIsPrefix(v.got, k);
    HasBeginPrefix(TextsBefore(v.got, k), Texts(v.got), id);
    HasBeginPrefix(Texts(v.got), Texts(v.emitted), id);
    assert Streamer(e.sends[id], Chunks(v.emitted, id));
    ChunksPrefix(v.got, v.emitted, id);
    StreamPrefix(Chunks(v.got, id), Chunks(v.emitted, id));
    PayloadPrefix(Chunks(v.got, id), Chunks(v.emitted, id));
  }

  lemma UploadFile(e: Ends, v: Channel, id: u32)
    requires Inv(e, v) && Ok(v) && Chunks(v.inbox[..e.handled], id) != []
    ensures id in e.ups && Payload(Chunks(v.inbox[..e.handled], id)) <= e.ups[id].stream
    ensures Ended(Chunks(v.inbox[..e.handled], id)) ==>
              e.ups[id].ended && Payload(Chunks(v.inbox[..e.handled], id)) == e.ups[id].stream
  {
    var s := v.inbox[..e.handled];
    assert s == v.sent[..e.handled];
    ChunkNeedsBegin(e.ups, v.sent, e.handled, id);
    assert UpThread(e.ups[id], Chunks(v.sent, id));
    FilterPrefix(s, v.sent, IsFile);
    ChunksPrefix(s, v.sent, id);
    StreamPrefix(Chunks(s, id), Chunks(v.sent, id));
    PayloadPrefix(Chunks(s, id), Chunks(v.sent, id));
  }

  lemma Intact(e: Ends, v: Channel)
    requires Inv(e, v) && Ok(v)
    ensures DownloadsIntact(e, v) && UploadsIntact(e, v)
  {
    assert Payload([]) == [];
    forall k: nat | k < |Files(v.got)|
      ensures ChunkOf(Files(v.got)[k]).Some? && HasBegin(TextsBefore(v.got, k), ChunkOf(Files(v.got)[k]).value.id)
    {
      BeginArrivedFirst(e.sends, v.emitted, v.got, k);
    }
    forall id | Chunks(v.got, id) != []
      ensures id in e.sends && Payload(Chunks(v.got, id)) <= e.sends[id].spool
    {
      DownloadFile(e, v, id);
    }
    forall id | id in e.down.done
      ensures id in e.sends && e.sends[id].pos >= e.sends[id].size
      ensures e.down.done[id] == e.sends[id].spool[..e.sends[id].pos]
    {
      DownloadFile(e, v, id);
    }
    forall id | Chunks(v.inbox[..e.handled], id) != []
      ensures id in e.ups && Payload(Chunks(v.inbox[..e.handled], id)) <= e.ups[id].stream
      ensures Ended(Chunks(v.inbox[..e.handled], id)) ==>
                e.ups[id].ended && Payload(Chunks(v.inbox[..e.handled], id)) == e.ups[id].stream
    {
      UploadFile(e, v, id);
    }
  }

  /** The two ends of one channel over time, from its first step. */
  ghost predicate EndsRun(vs: seq<Channel>, evs: seq<Event>, es: seq<Ends>)
  {
    && |vs| == |es| == |evs| + 1
    && vs[0] == FRESH && es[0] == START
    && forall i | 0 <= i < |evs| :: Step(es[i], vs[i], evs[i], es[i + 1], vs[i + 1])
  }

  lemma {:induction false} EndsRunInv(vs: seq<Channel>, evs: seq<Event>, es: seq<Ends>, i: nat)
    requires EndsRun(vs, evs, es) && i < |vs|
    requires forall k | 0 <= k < |vs| :: Ok(vs[k])
    ensures Inv(es[i], vs[i])
  {
    hide Inv;
    hide Step;
    hide Ok;
    if i == 0 {
      StartOk();
    } else {
      EndsRunInv(vs, evs, es, i - 1);
      StepKeeps(es[i - 1], vs[i - 1], evs[i - 1], es[i], vs[i]);
    }
  }

  /** Over any transport that keeps the channel intact, files arrive intact. */
  lemma FilesOverChannel(vs: seq<Channel>, evs: seq<Event>, es: seq<Ends>, i: nat)
    requires EndsRun(vs, evs, es) && i < |vs|
    requires forall k | 0 <= k < |vs| :: Ok(vs[k])
    ensures DownloadsIntact(es[i], vs[i]) && UploadsIntact(es[i], vs[i])
  {
    EndsRunInv(vs, evs, es, i);
    Intact(es[i], vs[i]);
  }

  /** The LAN bridge is such a transport: in any run of one, from its first state, the
      transfers in both directions are intact at every step. */
  lemma FilesOverLan(ss: seq<LanPath.Lan>, acts: seq<LanPath.Action>,
                     vs: seq<Channel>, evs: seq<Event>, es: seq<Ends>, i: nat)
    requires LanPath.Run(ss, acts) && |vs| == |ss|
    requires forall k | 0 <= k < |vs| :: vs[k] == ss[k].v
    requires EndsRun(vs, evs, es) && i < |vs|
    ensures DownloadsIntact(es[i], vs[i]) && UploadsIntact(es[i], vs[i])
  {
    forall k | 0 <= k < |vs| ensures Ok(vs[k]) {
      LanPath.RunInv(ss, acts, k);
      LanPath.SoundOk(ss[k].v, ss[k].ctl, ss[k].vid, ss[k].blk);
    }
    FilesOverChannel(vs, evs, es, i);
  }

  /** The relay is such a transport. In any run of the tunnel with any number of phones
      and sessions, from the moment phone `c` dialled (state `j`), its transfers in both
      directions are intact at every step, whatever the other phones do and whatever
      transfer ids they use. */
  lemma FilesOverRelay(ss: seq<Tunnel.Net>, acts: seq<Tunnel.Action>, c: Tunnel.Cid, j: nat,
                       vs: seq<Channel>, evs: seq<Event>, es: seq<Ends>, i: nat)
    requires TunnelProof.Run(ss, acts) && j + |vs| == |ss|
    requires forall k | j <= k < |ss| :: c in ss[k].legs
    requires forall k | 0 <= k < |vs| :: c in ss[j + k].legs && vs[k] == Tunnel.View(ss[j + k], c)
    requires EndsRun(vs, evs, es) && i < |vs|
    ensures DownloadsIntact(es[i], vs[i]) && UploadsIntact(es[i], vs[i])
  {
    forall k | 0 <= k < |vs| ensures Ok(vs[k]) {
      TunnelProof.RunInv(ss, acts, j + k);
      TunnelProof.Observed(ss[j + k], c);
    }
    FilesOverChannel(vs, evs, es, i);
  }
}
