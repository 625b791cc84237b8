/** No interleaving of the two ends and the transport breaks a file. */
module TransferProof {
  import opened Basics
  import opened Messages
  import opened Link
  import opened ChunkLog
  import opened Transfer
  import Codec

  lemma FileFrameIs(id: u32, n: u32, last: bool, payload: seq<byte>)
    ensures var m := Binary(Codec.FileFrame(id, n, last, payload));
            IsFile(m) && ChunkOf(m) == Some(Codec.Chunk(id, n, last, payload))
  {
    Codec.RustDecodesFile(id, n, last, payload);
  }

  /** Both ends apply the same chunk handler to a FILE message, whichever parser reads it. */
  lemma PhoneReadsFile(r: Receiver, m: Msg, ok: bool)
    requires IsMust(m)
    ensures IsFile(m) ==> PhoneHandles(r, m, ok) == if ChunkOf(m).None? then r else OnChunk(r, ChunkOf(m).value, ok)
  {
    if IsFile(m) {
      Codec.DecodersAgree(m.bytes);
    }
  }

  // ------------------------------------------------------------- upload, phone

  lemma AnnouncedSnoc(s: seq<Msg>, m: Msg, id: u32)
    ensures Announced(s + [m], id) <==> Announced(s, id) || UpBegin(m, id)
  {
    var t := s + [m];
    if Announced(s, id) {
      var j :| 0 <= j < |s| && UpBegin(s[j], id);
      assert UpBegin(t[j], id);
    }
    if UpBegin(m, id) {
      assert UpBegin(t[|s|], id);
    }
  }

  lemma AnnouncedPrefix(s: seq<Msg>, p: nat, id: u32)
    requires p <= |s| && Announced(s[..p], id)
    ensures Announced(s, id)
  {
    var j :| 0 <= j < p && UpBegin(s[..p][j], id);
    assert UpBegin(s[j], id);
  }

  lemma ChunkNeedsBegin(ups: map<u32, Uploading>, sent: seq<Msg>, p: nat, id: u32)
    requires UpLog(ups, sent) && p <= |sent| && Chunks(sent[..p], id) != []
    ensures id in ups && Announced(sent[..p], id)
  {
    var k := SomeChunk(sent[..p], id);
    assert ChunkFor(sent[k], id);
    assert sent[..p][..k] == sent[..k];
    AnnouncedPrefix(sent[..p], k, id);
    AnnouncedPrefix(sent, p, id);
  }

  lemma UpLogSnoc(ups: map<u32, Uploading>, ups': map<u32, Uploading>, sent: seq<Msg>, m: Msg)
    requires UpLog(ups, sent)
    requires forall id :: id in ups' <==> id in ups || UpBegin(m, id)
    requires forall id | UpBegin(m, id) :: id !in ups
    requires forall id | ChunkFor(m, id) :: id in ups
    ensures UpLog(ups', sent + [m])
  {
    var t := sent + [m];
    forall id ensures id in ups' <==> Announced(t, id) { AnnouncedSnoc(sent, m, id); }
    assert t[..|sent|] == sent;
    forall i, id | 0 <= i < |t| && ChunkFor(t[i], id) ensures Announced(t[..i], id) {
      if i < |sent| { assert ChunkFor(sent[i], id) && t[..i] == sent[..i]; }
    }
    forall i, id | 0 <= i < |t| && UpBegin(t[i], id) ensures !Announced(t[..i], id) {
      if i < |sent| { assert UpBegin(sent[i], id) && t[..i] == sent[..i]; }
    }
  }

  lemma UpTextKeeps(ups: map<u32, Uploading>, sent: seq<Msg>, m: Msg)
    requires UpOk(ups, sent) && m.Text? && !m.control.FileTransferBegin?
    ensures UpOk(ups, sent + [m])
  {
    UpLogSnoc(ups, ups, sent, m);
    forall id ensures Chunks(sent + [m], id) == Chunks(sent, id) { ChunksSnoc(sent, m, id); }
  }

  lemma UpBeginKeeps(ups: map<u32, Uploading>, sent: seq<Msg>, id: u32, name: string, size: nat)
    requires UpOk(ups, sent) && id !in ups
    ensures UpOk(ups[id := Uploading([], 0, true, false)], sent + [Text(FileTransferBegin(id, name, size))])
  {
    var m, ups' := Text(FileTransferBegin(id, name, size)), ups[id := Uploading([], 0, true, false)];
    UpLogSnoc(ups, ups', sent, m);
    forall k ensures Chunks(sent + [m], k) == Chunks(sent, k) { ChunksSnoc(sent, m, k); }
    assert sent[..|sent|] == sent;
    if Chunks(sent, id) != [] {
      ChunkNeedsBegin(ups, sent, |sent|, id);
    }
    assert Payload([]) == [];
  }

  lemma StreamSnoc(cs: seq<Codec.Chunk>, c: Codec.Chunk)
    requires Stream(cs) && !Ended(cs) && c.chunk == Wrap32(|cs|)
    ensures Stream(cs + [c]) && Payload(cs + [c]) == Payload(cs) + c.payload && (Ended(cs + [c]) <==> c.last)
  {
    hide Payload;
    PayloadSnoc(cs, c);
    assert Last(cs + [c]) == c;
    forall i: nat | i < |cs + [c]|
      ensures (cs + [c])[i].chunk == Wrap32(i) && ((cs + [c])[i].last ==> i == |cs|)
    {
      if i < |cs| {
        assert (cs + [c])[i] == cs[i];
        assert i == |cs| - 1 ==> cs[i] == Last(cs);
      }
    }
  }

  lemma UpFrameKeeps(ups: map<u32, Uploading>, sent: seq<Msg>, id: u32, last: bool, payload: seq<byte>)
    requires UpOk(ups, sent) && id in ups && ups[id].live
    ensures var u := ups[id];
            UpOk(ups[id := Uploading(u.stream + payload, u.count + 1, !last, last)], sent + [UpFrame(u, id, last, payload)])
  {
    hide ChunkOf;
    hide Chunks;
    hide Payload;
    hide Stream;
    hide UpLog;
    hide Codec.FileFrame;
    var u := ups[id];
    var m, ups' := UpFrame(u, id, last, payload), ups[id := Uploading(u.stream + payload, u.count + 1, !last, last)];
    var c := Codec.Chunk(id, Wrap32(u.count), last, payload);
    FileFrameIs(id, Wrap32(u.count), last, payload);
    assert UpLog(ups', sent + [m]) by {
      assert forall k :: !UpBegin(m, k);
      UpLogSnoc(ups, ups', sent, m);
    }
    ChunksSnoc(sent, m, id);
    assert UpThread(u, Chunks(sent, id));
    StreamSnoc(Chunks(sent, id), c);
    forall k | k in ups' && k != id ensures UpThread(ups'[k], Chunks(sent + [m], k)) {
      ChunksSnoc(sent, m, k);
      assert Chunks(sent, k) + [] == Chunks(sent, k);
      assert UpThread(ups[k], Chunks(sent, k));
    }
  }

  lemma UpStopKeeps(ups: map<u32, Uploading>, sent: seq<Msg>, id: u32)
    requires UpOk(ups, sent) && id in ups
    ensures UpOk(ups[id := ups[id].(live := false)], sent)
  {
  }

  // ------------------------------------------------------------ upload, session

  lemma ReceivedEmpty(s: seq<Msg>)
    ensures Received(EMPTY, s)
  {
  }

  /** The chunks handled so far, and the one handled next, are a proper stream. */
  lemma SessionStream(ups: map<u32, Uploading>, sent: seq<Msg>, n: nat)
    requires UpOk(ups, sent) && n < |sent| && ChunkOf(sent[n]).Some?
    ensures Stream(Chunks(sent[..n] + [sent[n]], ChunkOf(sent[n]).value.id))
  {
    hide Chunks;
    hide Payload;
    hide ChunkOf;
    var m, s := sent[n], sent[..n];
    assert sent[..n + 1] == s + [m];
    var id := ChunkOf(m).value.id;
    assert ChunkFor(m, id);
    AnnouncedPrefix(sent, n, id);
    assert UpThread(ups[id], Chunks(sent, id));
    FilterPrefix(s + [m], sent, IsFile);
    ChunksPrefix(s + [m], sent, id);
    StreamPrefix(Chunks(s + [m], id), Chunks(sent, id));
  }

  lemma SessionText(ups: map<u32, Uploading>, sent: seq<Msg>, r: Receiver, n: nat, ok: bool)
    requires UpOk(ups, sent) && n < |sent| && ChunkOf(sent[n]).None? && Received(r, sent[..n] + [sent[n]])
    ensures Received(SessionHandles(true, r, sent[n], ok), sent[..n] + [sent[n]])
  {
    hide Payload;
    var m, s := sent[n], sent[..n];
    if m.Text? && m.control.FileTransferBegin? {
      var id := m.control.id;
      assert UpBegin(m, id);
      if Chunks(s, id) != [] {
        ChunkNeedsBegin(ups, sent, n, id);
      }
      ChunksSnoc(s, m, id);
      ReceivedOpen(r, s + [m], id, m.control.size);
    }
  }

  /** The session has processed a prefix of the phone's log, whatever its I/O did. */
  lemma SessionHandlesKeeps(ups: map<u32, Uploading>, sent: seq<Msg>, r: Receiver, n: nat, auth: bool, ok: bool)
    requires UpOk(ups, sent) && n < |sent| && Received(r, sent[..n]) && (!auth ==> r == EMPTY)
    ensures Received(SessionHandles(auth, r, sent[n], ok), sent[..n + 1])
  {
    hide Received;
    hide UpOk;
    var m, s := sent[n], sent[..n];
    assert sent[..n + 1] == s + [m];
    if !auth {
      ReceivedEmpty(s + [m]);
    } else if ChunkOf(m).Some? {
      SessionStream(ups, sent, n);
      ReceivedChunk(r, s, m, ok);
    } else {
      ReceivedOther(r, s, m);
      SessionText(ups, sent, r, n, ok);
    }
  }

  // ---------------------------------------------------------- download, session

  lemma HasBeginPrefix(p: seq<Msg>, s: seq<Msg>, id: u32)
    requires p <= s && HasBegin(p, id)
    ensures HasBegin(s, id)
  {
    var i :| 0 <= i < |p| && DownBegin(p[i], id);
    assert DownBegin(s[i], id);
  }

  lemma HasBeginSnoc(s: seq<Msg>, m: Msg, id: u32)
    ensures HasBegin(s + [m], id) <==> HasBegin(s, id) || DownBegin(m, id)
  {
    if HasBegin(s, id) {
      HasBeginPrefix(s, s + [m], id);
    }
    if DownBegin(m, id) {
      assert DownBegin((s + [m])[|s|], id);
    }
  }

  lemma DownLogText(sends: map<u32, Sending>, sends': map<u32, Sending>, emitted: seq<Msg>, m: Msg)
    requires DownLog(sends, emitted) && m.Text?
    requires forall id :: id in sends' <==> id in sends || DownBegin(m, id)
    requires forall id | DownBegin(m, id) :: id !in sends
    ensures DownLog(sends', emitted + [m])
  {
    var t := emitted + [m];
    var ts := Texts(emitted);
    Snoc(emitted, m);
    assert Texts(t) == ts + [m] && Files(t) == Files(emitted);
    forall id ensures id in sends' <==> HasBegin(Texts(t), id) { HasBeginSnoc(ts, m, id); }
    forall k: nat | k < |Files(t)|
      ensures ChunkOf(Files(t)[k]).Some? && HasBegin(TextsBefore(t, k), ChunkOf(Files(t)[k]).value.id)
    {
      TextsBeforeSnoc(emitted, m, k);
    }
    assert Texts(t)[..|ts|] == ts;
    forall i, id | 0 <= i < |Texts(t)| && DownBegin(Texts(t)[i], id) ensures !HasBegin(Texts(t)[..i], id) {
      if i < |ts| { assert DownBegin(ts[i], id) && Texts(t)[..i] == ts[..i]; }
    }
  }

  lemma DownLogFile(sends: map<u32, Sending>, sends': map<u32, Sending>, emitted: seq<Msg>, m: Msg)
    requires DownLog(sends, emitted) && IsFile(m) && ChunkOf(m).Some? && ChunkOf(m).value.id in sends
    requires sends'.Keys == sends.Keys
    ensures DownLog(sends', emitted + [m])
  {
    var t := emitted + [m];
    Snoc(emitted, m);
    assert Texts(t) == Texts(emitted) && Files(t) == Files(emitted) + [m];
    forall k: nat | k < |Files(t)|
      ensures ChunkOf(Files(t)[k]).Some? && HasBegin(TextsBefore(t, k), ChunkOf(Files(t)[k]).value.id)
    {
      if k < |Files(emitted)| {
        TextsBeforeSnoc(emitted, m, k);
        assert Files(t)[k] == Files(emitted)[k];
      } else {
        TextsBeforeLast(emitted, m);
      }
    }
  }

  lemma DownTextKeeps(sends: map<u32, Sending>, emitted: seq<Msg>, m: Msg)
    requires DownOk(sends, emitted) && m.Text? && !m.control.FileSendBegin?
    ensures DownOk(sends, emitted + [m])
  {
    hide Streamer;
    hide Chunks;
    hide DownLog;
    DownLogText(sends, sends, emitted, m);
    forall id ensures Chunks(emitted + [m], id) == Chunks(emitted, id) { ChunksSnoc(emitted, m, id); }
  }

  /** No chunk of a send precedes its announcement. */
  lemma NoChunksYet(sends: map<u32, Sending>, emitted: seq<Msg>, id: u32)
    requires DownLog(sends, emitted) && id !in sends
    ensures Chunks(emitted, id) == []
  {
    hide Chunks;
    if Chunks(emitted, id) != [] {
      ChunksOfFiles(emitted, id);
      var k := SomeChunk(Files(emitted), id);
      TextsBeforeIsPrefix(emitted, k);
      HasBeginPrefix(TextsBefore(emitted, k), Texts(emitted), id);
    }
  }

  lemma NewStreamer(spool: seq<byte>, size: nat)
    ensures Streamer(Sending(spool, size, 0, 0, true), [])
  {
    assert Payload([]) == [];
  }

  lemma DownBeginKeeps(sends: map<u32, Sending>, emitted: seq<Msg>, id: u32, name: string, spool: seq<byte>, size: nat)
    requires DownOk(sends, emitted) && id !in sends
    ensures DownOk(sends[id := Sending(spool, size, 0, 0, true)], emitted + [Text(FileSendBegin(id, name, size))])
  {
    hide Streamer;
    hide Chunks;
    hide DownLog;
    var m, sends' := Text(FileSendBegin(id, name, size)), sends[id := Sending(spool, size, 0, 0, true)];
    DownLogText(sends, sends', emitted, m);
    forall k ensures Chunks(emitted + [m], k) == Chunks(emitted, k) { ChunksSnoc(emitted, m, k); }
    NoChunksYet(sends, emitted, id);
    NewStreamer(spool, size);
  }

  lemma DownFrameKeeps(sends: map<u32, Sending>, emitted: seq<Msg>, id: u32, n: nat)
    requires DownOk(sends, emitted) && id in sends && sends[id].live && n > 0 && sends[id].pos + n <= |sends[id].spool|
    ensures var d := sends[id];
            DownOk(sends[id := d.(pos := d.pos + n, count := d.count + 1, live := d.pos + n < d.size)],
                   emitted + [DownFrame(d, id, n)])
  {
    hide ChunkOf;
    hide Chunks;
    hide Payload;
    hide Stream;
    hide DownLog;
    hide Codec.FileFrame;
    var d := sends[id];
    var m, last, bytes := DownFrame(d, id, n), d.pos + n >= d.size, d.spool[d.pos..d.pos + n];
    var sends' := sends[id := d.(pos := d.pos + n, count := d.count + 1, live := d.pos + n < d.size)];
    var c := Codec.Chunk(id, Wrap32(d.count), last, bytes);
    FileFrameIs(id, Wrap32(d.count), last, bytes);
    DownLogFile(sends, sends', emitted, m);
    ChunksSnoc(emitted, m, id);
    assert Streamer(d, Chunks(emitted, id));
    StreamSnoc(Chunks(emitted, id), c);
    assert d.spool[..d.pos] + bytes == d.spool[..d.pos + n];
    forall k | k in sends' && k != id ensures Streamer(sends'[k], Chunks(emitted + [m], k)) {
      ChunksSnoc(emitted, m, k);
      assert Chunks(emitted, k) + [] == Chunks(emitted, k);
      assert Streamer(sends[k], Chunks(emitted, k));
    }
  }

  lemma DownStopKeeps(sends: map<u32, Sending>, emitted: seq<Msg>, id: u32)
    requires DownOk(sends, emitted) && id in sends
    ensures DownOk(sends[id := sends[id].(live := false)], emitted)
  {
    hide Payload;
    hide Stream;
    forall k | k in sends ensures Streamer(sends[k].(live := false), Chunks(emitted, k)) {
      assert Streamer(sends[k], Chunks(emitted, k));
    }
  }

  // ------------------------------------------------------------ download, phone

  /** The announcement is in: a chunk is delivered only after its FileSendBegin. */
  lemma BeginArrivedFirst(sends: map<u32, Sending>, emitted: seq<Msg>, got: seq<Msg>, k: nat)
    requires DownLog(sends, emitted) && Ordered(got, emitted) && k < |Files(got)|
    ensures ChunkOf(Files(got)[k]).Some? && HasBegin(TextsBefore(got, k), ChunkOf(Files(got)[k]).value.id)
  {
    assert Files(got)[k] == Files(emitted)[k];
    HasBeginPrefix(TextsBefore(emitted, k), TextsBefore(got, k), ChunkOf(Files(got)[k]).value.id);
  }

  /** A chunk that has arrived had its announcement before it. */
  lemma ChunkHasBegin(sends: map<u32, Sending>, emitted: seq<Msg>, got: seq<Msg>, id: u32)
    requires DownLog(sends, emitted) && Ordered(got, emitted) && Chunks(got, id) != []
    ensures HasBegin(Texts(got), id)
  {
    ChunksOfFiles(got, id);
    var k := SomeChunk(Files(got), id);
    BeginArrivedFirst(sends, emitted, got, k);
    TextsBeforeIsPrefix(got, k);
    HasBeginPrefix(TextsBefore(got, k), Texts(got), id);
  }

  lemma PhoneBegins(sends: map<u32, Sending>, emitted: seq<Msg>, got: seq<Msg>, m: Msg, id: u32)
    requires DownLog(sends, emitted) && Ordered(got + [m], emitted) && DownBegin(m, id)
    ensures Chunks(got + [m], id) == []
  {
    Snoc(got, m);
    ChunksSnoc(got, m, id);
    OrderedPrefix(got, got + [m], emitted);
    var i := |Texts(got)|;
    assert Texts(emitted)[i] == Texts(got + [m])[i] == m && Texts(emitted)[..i] == Texts(got);
    assert DownBegin(Texts(emitted)[i], id) && !HasBegin(Texts(got), id);
    if Chunks(got, id) != [] {
      ChunkHasBegin(sends, emitted, got, id);
    }
  }

  lemma PhoneHandlesKeeps(sends: map<u32, Sending>, emitted: seq<Msg>, got: seq<Msg>, r: Receiver, m: Msg, ok: bool)
    requires DownOk(sends, emitted) && Ordered(got + [m], emitted) && Received(r, got) && IsMust(m)
    ensures Received(PhoneHandles(r, m, ok), got + [m])
  {
    Snoc(got, m);
    PhoneReadsFile(r, m, ok);
    if IsFile(m) {
      var k := |Files(got)|;
      assert Files(emitted)[k] == Files(got + [m])[k] == m;
      var id := ChunkOf(m).value.id;
      TextsBeforeIsPrefix(emitted, k);
      HasBeginPrefix(TextsBefore(emitted, k), Texts(emitted), id);
      assert Streamer(sends[id], Chunks(emitted, id));
      ChunksPrefix(got + [m], emitted, id);
      StreamPrefix(Chunks(got + [m], id), Chunks(emitted, id));
      ReceivedChunk(r, got, m, ok);
    } else {
      ReceivedOther(r, got, m);
      if m.control.FileSendBegin? {
        PhoneBegins(sends, emitted, got, m, m.control.id);
        ReceivedOpen(r, got + [m], m.control.id, m.control.size);
      }
    }
  }
}
