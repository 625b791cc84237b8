/** Transfers come to an end: one that no file error, cancel or disconnect touches is
    complete, with all its bytes, once all its messages have been handled. */
module Completion {
  import opened Basics
  import opened Messages
  import opened Link
  import opened ChunkLog
  import opened Transfer
  import opened TransferProof
  import opened EndToEnd

  /** The receiver has kept up with transfer `id`: finished with its last chunk, and open
      until then. */
  ghost predicate Alive(r: Receiver, s: seq<Msg>, id: u32)
  {
    if Ended(Chunks(s, id)) then id in r.done else id in r.open
  }

  lemma AliveOther(r: Receiver, s: seq<Msg>, m: Msg, id: u32)
    requires Alive(r, s, id) && !ChunkFor(m, id)
    ensures Alive(r, s + [m], id)
  {
    ChunksSnoc(s, m, id);
    assert Chunks(s, id) + [] == Chunks(s, id);
  }

  lemma AliveChunk(r: Receiver, s: seq<Msg>, m: Msg, id: u32)
    requires Alive(r, s, id) && Received(r, s) && ChunkFor(m, id) && Stream(Chunks(s + [m], id))
    ensures Alive(OnChunk(r, ChunkOf(m).value, true), s + [m], id)
  {
    hide Payload, ChunkOf;
    var cs, c := Chunks(s, id), ChunkOf(m).value;
    ChunksSnoc(s, m, id);
    hide Chunks;
    assert (cs + [c])[|cs|] == c && Last(cs + [c]) == c;
    assert cs != [] ==> !(cs + [c])[|cs| - 1].last;
  }

  // -------------------------------------------------------------------- uploads

  /** Nothing in the handling of this message is to the harm of transfer `id`. */
  ghost predicate Kind(auth: bool, m: Msg, ok: bool, id: u32)
  {
    && (UpBegin(m, id) ==> auth && ok && m.control.size <= MAX_UPLOAD)
    && (ChunkFor(m, id) ==> auth && ok)
    && m != Text(FileTransferAbort(id))
  }

  ghost predicate UpAlive(r: Receiver, s: seq<Msg>, id: u32)
  {
    Announced(s, id) ==> Alive(r, s, id)
  }

  lemma NoChunkYet(ups: map<u32, Uploading>, sent: seq<Msg>, n: nat, id: u32)
    requires UpLog(ups, sent) && n < |sent| && UpBegin(sent[n], id)
    ensures Chunks(sent[..n], id) == []
  {
    if Chunks(sent[..n], id) != [] {
      ChunkNeedsBegin(ups, sent, n, id);
    }
  }

  lemma BeginAlive(ups: map<u32, Uploading>, sent: seq<Msg>, r: Receiver, n: nat, id: u32)
    requires UpLog(ups, sent) && n < |sent| && UpBegin(sent[n], id) && sent[n].control.size <= MAX_UPLOAD
    ensures Alive(SessionHandles(true, r, sent[n], true), sent[..n] + [sent[n]], id)
  {
    NoChunkYet(ups, sent, n, id);
    ChunksSnoc(sent[..n], sent[n], id);
  }

  lemma HandleAlive(ups: map<u32, Uploading>, sent: seq<Msg>, r: Receiver, n: nat, auth: bool, ok: bool, id: u32)
    requires UpOk(ups, sent) && n < |sent| && Received(r, sent[..n]) && (!auth ==> r == EMPTY)
    requires Kind(auth, sent[n], ok, id) && UpAlive(r, sent[..n], id)
    ensures UpAlive(SessionHandles(auth, r, sent[n], ok), sent[..n + 1], id)
  {
    hide Received, Alive, ChunkOf, UpOk, SessionHandles, Announced;
    var m, s := sent[n], sent[..n];
    assert sent[..n + 1] == s + [m];
    LogOf(ups, sent);
    if UpBegin(m, id) {
      BeginAlive(ups, sent, r, n, id);
    } else {
      AnnouncedSnoc(s, m, id);
      if Announced(s, id) {
        if ChunkFor(m, id) {
          SessionStream(ups, sent, n);
          AliveChunk(r, s, m, id);
          ChunkHandled(r, m, id);
        } else {
          AliveOther(r, s, m, id);
          OtherHandled(r, m, auth, ok, id);
          SameAlive(r, SessionHandles(auth, r, m, ok), s + [m], id);
        }
      }
    }
  }

  lemma LogOf(ups: map<u32, Uploading>, sent: seq<Msg>)
    requires UpOk(ups, sent)
    ensures UpLog(ups, sent)
  {
  }

  lemma ChunkHandled(r: Receiver, m: Msg, id: u32)
    requires ChunkFor(m, id)
    ensures SessionHandles(true, r, m, true) == OnChunk(r, ChunkOf(m).value, true)
  {
    hide OnChunk;
  }

  lemma OtherHandled(r: Receiver, m: Msg, auth: bool, ok: bool, id: u32)
    requires !UpBegin(m, id) && !ChunkFor(m, id) && m != Text(FileTransferAbort(id))
    ensures var q := SessionHandles(auth, r, m, ok);
            (id in r.open ==> id in q.open) && (id in r.done ==> id in q.done)
  {
    hide ChunkOf;
  }

  lemma SameAlive(r: Receiver, q: Receiver, s: seq<Msg>, id: u32)
    requires Alive(r, s, id) && (id in r.open ==> id in q.open) && (id in r.done ==> id in q.done)
    ensures Alive(q, s, id)
  {
  }

  /** This event does transfer `id` no harm on the PC. */
  ghost predicate SparesUpload(e: Ends, v: Channel, a: Event, id: u32)
  {
    !a.SessionEnds? && (a.Handle? && e.handled < |v.inbox| ==> Kind(e.auth, v.inbox[e.handled], a.ok, id))
  }

  lemma UploadStep(e: Ends, v: Channel, a: Event, e': Ends, v': Channel, id: u32)
    requires Inv(e, v) && Ok(v) && Step(e, v, a, e', v') && SparesUpload(e, v, a, id)
    requires UpAlive(e.up, v.inbox[..e.handled], id)
    ensures e'.handled <= |v'.inbox| && UpAlive(e'.up, v'.inbox[..e'.handled], id)
  {
    hide UpAlive, UpOk, DownOk, Received, Kind;
    if a.Handle? {
      var n := e.handled;
      assert v.sent[n] == v.inbox[n] && v.sent[..n] == v.inbox[..n] && v.sent[..n + 1] == v.inbox[..n + 1];
      HandleAlive(e.ups, v.sent, e.up, n, e.auth, a.ok, id);
    } else {
      assert e'.up == e.up && e'.handled == e.handled && v'.inbox[..e.handled] == v.inbox[..e.handled];
    }
  }

  lemma {:induction false} UploadRun(vs: seq<Channel>, evs: seq<Event>, es: seq<Ends>, i: nat, id: u32)
    requires EndsRun(vs, evs, es) && i < |vs|
    requires forall k | 0 <= k < |vs| :: Ok(vs[k])
    requires forall k | 0 <= k < i :: SparesUpload(es[k], vs[k], evs[k], id)
    ensures es[i].handled <= |vs[i].inbox| && UpAlive(es[i].up, vs[i].inbox[..es[i].handled], id)
  {
    hide Inv, Step, Ok, SparesUpload;
    if i > 0 {
      UploadRun(vs, evs, es, i - 1, id);
      EndsRunInv(vs, evs, es, i - 1);
      UploadStep(es[i - 1], vs[i - 1], evs[i - 1], es[i], vs[i], id);
    }
  }

  /** An upload whose sender reached end of file, whose messages the session has all handled,
      and which met no failure on the way is complete on the PC, with every byte read. */
  lemma UploadCompletes(vs: seq<Channel>, evs: seq<Event>, es: seq<Ends>, i: nat, id: u32)
    requires EndsRun(vs, evs, es) && i < |vs|
    requires forall k | 0 <= k < |vs| :: Ok(vs[k])
    requires forall k | 0 <= k < i :: SparesUpload(es[k], vs[k], evs[k], id)
    requires id in es[i].ups && es[i].ups[id].ended && es[i].handled == |vs[i].sent|
    ensures id in es[i].up.done && es[i].up.done[id] == es[i].ups[id].stream
  {
    var e, v := es[i], vs[i];
    EndsRunInv(vs, evs, es, i);
    UploadRun(vs, evs, es, i, id);
    assert v.inbox[..e.handled] == v.sent;
    assert UpThread(e.ups[id], Chunks(v.sent, id));
  }

  // ------------------------------------------------------------------ downloads

  ghost predicate DownAlive(r: Receiver, got: seq<Msg>, id: u32)
  {
    HasBegin(Texts(got), id) ==> Alive(r, got, id)
  }

  /** This event does transfer `id` no harm on the phone. */
  predicate SparesDownload(a: Event, id: u32)
  {
    && !a.PhoneDisconnects? && a != CancelDownload(id)
    && (a.PhoneGets? && (DownBegin(a.m, id) || ChunkFor(a.m, id)) ==> a.ok)
  }

  lemma GetAlive(sends: map<u32, Sending>, emitted: seq<Msg>, got: seq<Msg>, r: Receiver, m: Msg, ok: bool, id: u32)
    requires DownOk(sends, emitted) && Ordered(got + [m], emitted) && Received(r, got) && IsMust(m)
    requires DownBegin(m, id) || ChunkFor(m, id) ==> ok
    requires DownAlive(r, got, id)
    ensures DownAlive(PhoneHandles(r, m, ok), got + [m], id)
  {
    hide Received, Alive, DownOk, Ordered, ChunkOf, PhoneHandles;
    Snoc(got, m);
    if DownBegin(m, id) {
      BeginGotAlive(sends, emitted, got, r, m, id);
    } else if ChunkFor(m, id) {
      GotStream(sends, emitted, got, m, id);
      AliveChunk(r, got, m, id);
      FileHandled(r, m, id);
    } else {
      OtherGot(r, m, ok, id);
      HasBeginSnoc(Texts(got), m, id);
      assert Texts(got) + [] == Texts(got);
      if HasBegin(Texts(got), id) {
        AliveOther(r, got, m, id);
        SameAlive(r, PhoneHandles(r, m, ok), got + [m], id);
      }
    }
  }

  lemma BeginGotAlive(sends: map<u32, Sending>, emitted: seq<Msg>, got: seq<Msg>, r: Receiver, m: Msg, id: u32)
    requires DownOk(sends, emitted) && Ordered(got + [m], emitted) && DownBegin(m, id)
    ensures Alive(PhoneHandles(r, m, true), got + [m], id)
  {
    PhoneBegins(sends, emitted, got, m, id);
  }

  lemma FileHandled(r: Receiver, m: Msg, id: u32)
    requires ChunkFor(m, id)
    ensures PhoneHandles(r, m, true) == OnChunk(r, ChunkOf(m).value, true)
  {
    PhoneReadsFile(r, m, true);
  }

  /** What has arrived of a transfer, with the chunk that arrives next, is a proper stream
      whose announcement is in. */
  lemma GotStream(sends: map<u32, Sending>, emitted: seq<Msg>, got: seq<Msg>, m: Msg, id: u32)
    requires DownOk(sends, emitted) && Ordered(got + [m], emitted) && ChunkFor(m, id)
    ensures Stream(Chunks(got + [m], id)) && HasBegin(Texts(got), id)
  {
    Snoc(got, m);
    ChunksSnoc(got, m, id);
    ChunkHasBegin(sends, emitted, got + [m], id);
    assert Texts(got) + [] == Texts(got);
    ChunksPrefix(got + [m], emitted, id);
    var k := |Files(got)|;
    assert Files(emitted)[k] == Files(got + [m])[k] == m;
    HasBeginPrefix(TextsBefore(emitted, k), Texts(emitted), id) by { TextsBeforeIsPrefix(emitted, k); }
    assert Streamer(sends[id], Chunks(emitted, id));
    StreamPrefix(Chunks(got + [m], id), Chunks(emitted, id));
  }

  lemma OtherGot(r: Receiver, m: Msg, ok: bool, id: u32)
    requires IsMust(m) && !DownBegin(m, id) && !ChunkFor(m, id)
    ensures var q := PhoneHandles(r, m, ok);
            (id in r.open ==> id in q.open) && (id in r.done ==> id in q.done)
  {
    PhoneReadsFile(r, m, ok);
  }

  lemma DownloadStep(e: Ends, v: Channel, a: Event, e': Ends, v': Channel, id: u32)
    requires Inv(e, v) && Ok(v') && Step(e, v, a, e', v') && SparesDownload(a, id)
    requires DownAlive(e.down, v.got, id)
    ensures DownAlive(e'.down, v'.got, id)
  {
    hide UpOk, DownOk, Received, Ordered, ChunkOf;
    if a.PhoneGets? {
      GetAlive(e.sends, v.emitted, v.got, e.down, a.m, a.ok, id);
    } else if a.CancelDownload? {
      assert id in e.down.open ==> id in e'.down.open;
    } else {
      assert e'.down == e.down && v'.got == v.got;
    }
  }

  lemma {:induction false} DownloadRun(vs: seq<Channel>, evs: seq<Event>, es: seq<Ends>, i: nat, id: u32)
    requires EndsRun(vs, evs, es) && i < |vs|
    requires forall k | 0 <= k < |vs| :: Ok(vs[k])
    requires forall k | 0 <= k < i :: SparesDownload(evs[k], id)
    ensures DownAlive(es[i].down, vs[i].got, id)
  {
    hide Inv, Step, Ok, SparesDownload;
    if i == 0 {
      assert Texts([]) == [];
    } else {
      DownloadRun(vs, evs, es, i - 1, id);
      EndsRunInv(vs, evs, es, i - 1);
      DownloadStep(es[i - 1], vs[i - 1], evs[i - 1], es[i], vs[i], id);
    }
  }

  /** A download whose last chunk was sent, whose chunks have all arrived, and which met no
      failure on the way is complete on the phone, with every byte the streamer read. */
  lemma DownloadCompletes(vs: seq<Channel>, evs: seq<Event>, es: seq<Ends>, i: nat, id: u32)
    requires EndsRun(vs, evs, es) && i < |vs|
    requires forall k | 0 <= k < |vs| :: Ok(vs[k])
    requires forall k | 0 <= k < i :: SparesDownload(evs[k], id)
    requires Ended(Chunks(vs[i].emitted, id)) && Files(vs[i].got) == Files(vs[i].emitted)
    ensures id in es[i].sends && id in es[i].down.done
    ensures var d := es[i].sends[id];
            d.size <= d.pos <= |d.spool| && es[i].down.done[id] == d.spool[..d.pos]
  {
    var e, v := es[i], vs[i];
    EndsRunInv(vs, evs, es, i);
    DownloadRun(vs, evs, es, i, id);
    ChunksOfFiles(v.got, id);
    ChunksOfFiles(v.emitted, id);
    ChunkHasBegin(e.sends, v.emitted, v.got, id);
    DownloadFile(e, v, id);
  }
}
