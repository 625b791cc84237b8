/** The two chunking loops: the phone's upload thread and the PC's spool streamer. */
module Senders {
  import opened Basics
  import opened Messages
  import opened ChunkLog
  import opened Transfer
  import opened TransferProof
  import Codec

  /** What the environment does to one iteration of the phone's loop: the user
      cancels, the read fails, or it yields bytes (none at end of file) and the
      WebSocket takes the frame or not. */
  datatype Turn = UserCancel | ReadError | Read(bytes: seq<byte>, taken: bool)

  datatype Verdict = Running | Completed | Aborted

  function Wanted(ts: seq<Turn>): seq<byte>
  {
    if ts == [] then [] else Wanted(Front(ts)) + if Last(ts).Read? then Last(ts).bytes else []
  }

  /** ConnectionClient.uploadFile's thread. Chunk numbers wrap at 2^32. The log is a
      proper stream of exactly the bytes read; it ends in LAST_CHUNK precisely when end
      of file was reached and its terminator accepted, and any other exit aborts. */
  method UploadThread(id: u32, turns: seq<Turn>) returns (log: seq<Msg>, u: Uploading, verdict: Verdict, used: nat)
    requires forall t | t in turns && t.Read? :: |t.bytes| <= CHUNK_BYTES
    ensures used <= |turns| && (verdict.Running? ==> used == |turns|)
    ensures UpThread(u, Chunks(log, id)) && (forall m | m in log :: ChunkFor(m, id))
    ensures verdict.Completed? <==> u.ended
    ensures verdict.Running? ==> u.stream == Wanted(turns)
    ensures verdict.Completed? ==> used > 0 && u.stream == Wanted(turns[..used]) && turns[used - 1] == Read([], true)
    ensures verdict.Aborted? ==>
              used > 0 && u.stream == Wanted(turns[..used - 1]) &&
              (turns[used - 1].Read? ==> !turns[used - 1].taken)
  {
    hide ChunkOf;
    hide Payload;
    hide Stream;
    log, u, verdict, used := [], Uploading([], 0, true, false), Running, 0;
    UpThreadStart(id);
    while used < |turns|
      invariant used <= |turns| && verdict.Running?
      invariant u.live && !u.ended && u.stream == Wanted(turns[..used])
      invariant UpThread(u, Chunks(log, id)) && (forall m | m in log :: ChunkFor(m, id))
    {
      var t := turns[used];
      assert turns[..used + 1] == turns[..used] + [t] && Front(turns[..used + 1]) == turns[..used];
      used := used + 1;
      match t
      case UserCancel =>
        return log, u.(live := false), Aborted, used;
      case ReadError =>
        return log, u.(live := false), Aborted, used;
      case Read(bytes, taken) =>
        var last := bytes == [];
        var frame := Codec.KtBuildFileChunkFrame(id, Wrap32(u.count), last, bytes);
        if !taken {
          return log, u.(live := false), Aborted, used;
        }
        var m := Binary(frame[..]);
        FrameSnoc(log, id, Wrap32(u.count), last, bytes);
        StreamSnoc(Chunks(log, id), Codec.Chunk(id, Wrap32(u.count), last, bytes));
        log, u := log + [m], Uploading(u.stream + bytes, u.count + 1, !last, last);
        if last {
          assert u.stream == Wanted(turns[..used]);
          return log, u, Completed, used;
        }
    }
    assert turns[..used] == turns;
  }

  lemma UpThreadStart(id: u32)
    ensures UpThread(Uploading([], 0, true, false), Chunks([], id)) && Wanted([]) == []
  {
    assert Payload([]) == [];
  }

  lemma FrameSnoc(log: seq<Msg>, id: u32, n: u32, last: bool, bytes: seq<byte>)
    ensures var m := Binary(Codec.FileFrame(id, n, last, bytes));
            ChunkFor(m, id) && Chunks(log + [m], id) == Chunks(log, id) + [Codec.Chunk(id, n, last, bytes)]
  {
    FileFrameIs(id, n, last, bytes);
    ChunksSnoc(log, Binary(Codec.FileFrame(id, n, last, bytes)), id);
  }

  /** One iteration of the PC's streamer: cancelled, the read fails, the bulk queue is
      gone, or `n` bytes were asked for and the read returned up to that many. */
  datatype Pull = Cancelled | Broken | Closed | Got(n: nat)

  datatype Outcome = Streaming | LastSent | EarlyEof | Stopped

  /** How many bytes those reads ask for. */
  function Asked(ps: seq<Pull>): nat
  {
    if ps == [] then 0 else Asked(Front(ps)) + if Last(ps).Got? then Last(ps).n else 0
  }

  /** spawn_file_sender. The log is a proper stream of a prefix of the spool. LAST_CHUNK
      is sent exactly when the declared size is reached; end of file before that happens
      only to a spool that is empty or shorter than declared; and the streamer stops early
      for nothing but a cancel, a failed read or a queue that is gone. */
  method StreamSpool(id: u32, spool: seq<byte>, size: nat, pulls: seq<Pull>)
    returns (log: seq<Msg>, d: Sending, outcome: Outcome, used: nat)
    requires forall p | p in pulls && p.Got? :: 0 < p.n <= CHUNK_BYTES
    ensures d.spool == spool && d.size == size && Streamer(d, Chunks(log, id))
    ensures forall m | m in log :: ChunkFor(m, id)
    ensures used <= |pulls| && d.pos == Min(Asked(pulls[..used]), |spool|)
    ensures outcome.Streaming? ==> used == |pulls| && (d.pos == 0 || d.pos < size)
    ensures outcome.Stopped? <==> used > 0 && !pulls[used - 1].Got?
    ensures outcome.LastSent? <==> Ended(Chunks(log, id))
    ensures outcome.LastSent? ==> d.pos >= size && d.pos > 0
    ensures outcome.EarlyEof? ==> d.pos == |spool| && (|spool| < size || spool == [])
    ensures outcome.LastSent? && |spool| == size ==> Payload(Chunks(log, id)) == spool
  {
    hide Chunks;
    hide ChunkFor;
    hide Streamer;
    hide Ended;
    log, d, outcome, used := [], Sending(spool, size, 0, 0, true), Streaming, 0;
    StreamerStart(id, d);
    while used < |pulls|
      invariant used <= |pulls| && outcome.Streaming? && d.live
      invariant d.pos == Min(Asked(pulls[..used]), |spool|) && (used > 0 ==> pulls[used - 1].Got?)
      invariant d.spool == spool && d.size == size && d.pos <= |spool| && Streamer(d, Chunks(log, id))
      invariant !Ended(Chunks(log, id))
      invariant d.pos == 0 || d.pos < size
      invariant forall m | m in log :: ChunkFor(m, id)
    {
      var p := pulls[used];
      assert Front(pulls[..used + 1]) == pulls[..used];
      used := used + 1;
      if !p.Got? {
        Stops(d, Chunks(log, id));
        return log, d.(live := false), Stopped, used;
      }
      var n := Min(p.n, |spool| - d.pos);
      if n == 0 {
        Stops(d, Chunks(log, id));
        return log, d.(live := false), EarlyEof, used;
      }
      var bytes := spool[d.pos..d.pos + n];
      var last := d.pos + n >= size;
      var frame := Codec.BuildFileChunkFrame(id, Wrap32(d.count), last, bytes);
      SpoolStep(log, d, id, n);
      log, d := log + [Binary(frame)], d.(pos := d.pos + n, count := d.count + 1, live := !last);
      if last {
        WholeSpool(d, Chunks(log, id));
        return log, d, LastSent, used;
      }
    }
    assert pulls[..used] == pulls;
  }

  /** A streamer that has come to the end of its spool has sent all of it. */
  lemma WholeSpool(d: Sending, cs: seq<Codec.Chunk>)
    requires Streamer(d, cs)
    ensures d.pos == |d.spool| ==> Payload(cs) == d.spool
    ensures d.pos >= d.size && |d.spool| == d.size ==> Payload(cs) == d.spool
  {
    assert d.spool[..|d.spool|] == d.spool;
  }

  /** One chunk of the spool goes out. */
  lemma SpoolStep(log: seq<Msg>, d: Sending, id: u32, n: nat)
    requires Streamer(d, Chunks(log, id)) && !Ended(Chunks(log, id)) && n > 0 && d.pos + n <= |d.spool|
    ensures var last := d.pos + n >= d.size;
            var m := Binary(Codec.FileFrame(id, Wrap32(d.count), last, d.spool[d.pos..d.pos + n]));
            && ChunkFor(m, id)
            && Streamer(d.(pos := d.pos + n, count := d.count + 1, live := !last), Chunks(log + [m], id))
            && (Ended(Chunks(log + [m], id)) <==> last)
  {
    hide Chunks;
    hide ChunkFor;
    hide Payload;
    hide Stream;
    hide Ended;
    var last, bytes := d.pos + n >= d.size, d.spool[d.pos..d.pos + n];
    FrameSnoc(log, id, Wrap32(d.count), last, bytes);
    StreamSnoc(Chunks(log, id), Codec.Chunk(id, Wrap32(d.count), last, bytes));
    assert d.spool[..d.pos] + bytes == d.spool[..d.pos + n];
  }

  lemma Stops(d: Sending, cs: seq<Codec.Chunk>)
    requires Streamer(d, cs)
    ensures Streamer(d.(live := false), cs)
  {
  }

  lemma StreamerStart(id: u32, d: Sending)
    requires d.pos == 0 && d.count == 0
    ensures Streamer(d, Chunks([], id)) && !Ended(Chunks([], id))
  {
    assert Payload([]) == [];
  }
}
