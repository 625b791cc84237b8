/** FILE chunks as a message log shows them, and the chunk receiver both ends run. */
module ChunkLog {
  import opened Basics
  import opened Messages
  import opened Codec

  function ChunkOf(m: Msg): Option<Chunk>
  {
    if IsFile(m) then ParseFileChunk(m.bytes) else None
  }

  predicate ChunkFor(m: Msg, id: u32) { ChunkOf(m).Some? && ChunkOf(m).value.id == id }

  /** The chunks of transfer `id` in `s`, in order. */
  function Chunks(s: seq<Msg>, id: u32): seq<Chunk>
  {
    if s == [] then []
    else Chunks(Front(s), id) + if ChunkFor(Last(s), id) then [ChunkOf(Last(s)).value] else []
  }

  lemma ChunksSnoc(s: seq<Msg>, m: Msg, id: u32)
    ensures Chunks(s + [m], id) == Chunks(s, id) + if ChunkFor(m, id) then [ChunkOf(m).value] else []
  {
    assert Front(s + [m]) == s;
  }

  lemma {:induction false} ChunksAppend(s: seq<Msg>, t: seq<Msg>, id: u32)
    ensures Chunks(s + t, id) == Chunks(s, id) + Chunks(t, id)
  {
    if t == [] {
      assert s + t == s;
    } else {
      assert Front(s + t) == s + Front(t);
      ChunksAppend(s, Front(t), id);
    }
  }

  lemma {:induction false} ChunksOfFiles(s: seq<Msg>, id: u32)
    ensures Chunks(Files(s), id) == Chunks(s, id)
  {
    if s != [] {
      ChunksOfFiles(Front(s), id);
      if IsFile(Last(s)) {
        ChunksSnoc(Files(Front(s)), Last(s), id);
      } else {
        assert Files(s) == Files(Front(s));
      }
    }
  }

  lemma ChunksPrefix(p: seq<Msg>, s: seq<Msg>, id: u32)
    requires Files(p) <= Files(s)
    ensures Chunks(p, id) <= Chunks(s, id)
  {
    hide Chunks;
    ChunksOfFiles(p, id);
    ChunksOfFiles(s, id);
    assert Files(s) == Files(p) + Files(s)[|Files(p)|..];
    ChunksAppend(Files(p), Files(s)[|Files(p)|..], id);
  }

  /** A log without a chunk of `id` has no chunks of `id`, and conversely. */
  lemma {:induction false} SomeChunk(s: seq<Msg>, id: u32) returns (k: nat)
    requires Chunks(s, id) != []
    ensures k < |s| && ChunkFor(s[k], id)
  {
    if ChunkFor(Last(s), id) {
      k := |s| - 1;
    } else {
      k := SomeChunk(Front(s), id);
    }
  }

  function Payload(cs: seq<Chunk>): seq<byte>
  {
    if cs == [] then [] else Payload(Front(cs)) + Last(cs).payload
  }

  lemma PayloadSnoc(cs: seq<Chunk>, c: Chunk)
    ensures Payload(cs + [c]) == Payload(cs) + c.payload
  {
    assert Front(cs + [c]) == cs;
  }

  lemma {:induction false} PayloadPrefix(p: seq<Chunk>, cs: seq<Chunk>)
    requires p <= cs
    ensures Payload(p) <= Payload(cs)
    decreases |cs|
  {
    if p != cs {
      assert p <= Front(cs);
      PayloadPrefix(p, Front(cs));
    }
  }

  /** Numbered 0, 1, 2, ... modulo 2^32, and only the final chunk may be the last. */
  ghost predicate Stream(cs: seq<Chunk>)
  {
    forall i: nat | i < |cs| :: cs[i].chunk == Wrap32(i) && (cs[i].last ==> i == |cs| - 1)
  }

  predicate Ended(cs: seq<Chunk>) { cs != [] && Last(cs).last }

  lemma StreamPrefix(p: seq<Chunk>, cs: seq<Chunk>)
    requires p <= cs && Stream(cs)
    ensures Stream(p) && (Ended(p) ==> p == cs)
  {
  }

  // ---------------------------------------------------------------- receiver

  /** One partially received file: what is on disk and the chunk expected next. */
  datatype Partial = Partial(size: nat, data: seq<byte>, next: u32)

  /** `done` records completed files; `misordered` counts out-of-order failures. */
  datatype Receiver = Receiver(open: map<u32, Partial>, done: map<u32, seq<byte>>, misordered: nat)

  const EMPTY := Receiver(map[], map[], 0)

  function Open(r: Receiver, id: u32, size: nat): Receiver
  {
    r.(open := r.open[id := Partial(size, [], 0)])
  }

  /** Failure, cancel or abort: the entry goes and its partial file is unlinked. */
  function Drop(r: Receiver, id: u32): Receiver { r.(open := r.open - {id}) }

  /** The chunk handler; `io` says whether write, flush and close succeed. */
  function OnChunk(r: Receiver, c: Chunk, io: bool): Receiver
  {
    if c.id !in r.open then r
    else
      var p := r.open[c.id];
      if c.chunk != p.next then Drop(r, c.id).(misordered := r.misordered + 1)
      else if !io then Drop(r, c.id)
      else
        var q := p.(data := p.data + c.payload, next := Wrap32(p.next + 1));
        if c.last then Drop(r, c.id).(done := r.done[c.id := q.data])
        else r.(open := r.open[c.id := q])
  }

  /** A receiver that has handled exactly the log `s`. */
  ghost predicate Received(r: Receiver, s: seq<Msg>)
  {
    && r.misordered == 0
    && (forall id | id in r.open ::
          && r.open[id].data == Payload(Chunks(s, id))
          && r.open[id].next == Wrap32(|Chunks(s, id)|)
          && !Ended(Chunks(s, id)))
    && (forall id | id in r.done ::
          r.done[id] == Payload(Chunks(s, id)) && Ended(Chunks(s, id)))
  }

  lemma ReceivedOther(r: Receiver, s: seq<Msg>, m: Msg)
    requires Received(r, s) && ChunkOf(m).None?
    ensures Received(r, s + [m])
  {
    forall id ensures Chunks(s + [m], id) == Chunks(s, id) { ChunksSnoc(s, m, id); }
  }

  lemma ReceivedOpen(r: Receiver, s: seq<Msg>, id: u32, size: nat)
    requires Received(r, s) && Chunks(s, id) == []
    ensures Received(Open(r, id, size), s)
  {
    assert Payload([]) == [];
    hide Payload;
    hide Chunks;
  }

  /** The heart of both directions: while the log is a proper stream, a chunk never
      meets the out-of-order branch and the file stays the log's payload. */
  lemma ReceivedChunk(r: Receiver, s: seq<Msg>, m: Msg, io: bool)
    requires Received(r, s) && ChunkOf(m).Some?
    requires Stream(Chunks(s + [m], ChunkOf(m).value.id))
    ensures Received(OnChunk(r, ChunkOf(m).value, io), s + [m])
  {
    hide Payload;
    hide Chunks;
    hide ChunkOf;
    var c := ChunkOf(m).value;
    var cs, r' := Chunks(s, c.id), OnChunk(r, c, io);
    assert Chunks(s + [m], c.id) == cs + [c] by { ChunksSnoc(s, m, c.id); }
    forall id | id != c.id
      ensures Chunks(s + [m], id) == Chunks(s, id)
    {
      ChunksSnoc(s, m, id);
    }
    PayloadSnoc(cs, c);
    NextWraps(|cs|);
    assert (cs + [c])[|cs|] == c && Last(cs + [c]) == c;
    assert cs != [] ==> !(cs + [c])[|cs| - 1].last;
    assert c.id in r.open ==> c.chunk == r.open[c.id].next;
  }

  lemma NextWraps(n: nat)
    ensures Wrap32(Wrap32(n) + 1) == Wrap32(n + 1)
  {
  }
}
