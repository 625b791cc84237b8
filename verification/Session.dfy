/** run_connection: one peer from its first message to cleanup. */
module Session {
  import opened Basics
  import opened Messages
  import opened ChunkLog
  import opened OpenFiles
  import opened Ledger
  import opened Paths
  import Transfer
  import TransferProof
  import Codec

  /** Messages the session parses; verdicts of other components (pairing, trust store,
      encoder, file system) are part of the event. */
  datatype ClientMsg =
    | Hello(v: nat, codeOk: bool, nonceOk: bool)
    | TrustedHello(v: nat, trusted: bool)
    | Ping
    | StreamRequest(codecKnown: bool, starts: bool)
    | StreamStop
    | KeyframeRequest
    | Input
    | File(control: Control, dirOk: bool, createOk: bool)

  /** How the disk takes a chunk. A write is only buffered: the next non-empty write waits
      for it and reports its failure, an empty one does not even look. A background write
      that fails after that is noticed by `flush` alone, whose error is merely logged;
      `kept` bytes of the file landed. */
  datatype Io = Written | WriteFails | FlushFails(kept: nat)

  /** How much of a file that held `data` is known to have landed once the write of
      `payload` returned. */
  function Confirm(data: seq<byte>, confirmed: nat, payload: seq<byte>): nat
  {
    if payload == [] then confirmed else |data|
  }

  /** What a file holds after `flush`: a failure costs unconfirmed bytes only. */
  function Flushed(data: seq<byte>, confirmed: nat, io: Io): seq<byte>
  {
    if io.FlushFails? then data[..Min(|data|, Max(confirmed, io.kept))] else data
  }

  /** What a file is complete with, when `payload` comes in the last chunk. */
  function Final(data: seq<byte>, confirmed: nat, payload: seq<byte>, io: Io): seq<byte>
  {
    Flushed(data + payload, Confirm(data, confirmed, payload), io)
  }

  /** The latest non-empty write of a file is never confirmed yet. */
  ghost predicate Buffered(data: seq<byte>, confirmed: nat)
  {
    confirmed <= |data| && (data != [] ==> confirmed < |data|)
  }

  lemma StaysBuffered(data: seq<byte>, confirmed: nat, payload: seq<byte>)
    requires Buffered(data, confirmed)
    ensures Buffered(data + payload, Confirm(data, confirmed, payload))
  {
  }

  /** FileTransferComplete vouches for the whole file exactly when `flush` succeeded, which
      the code does not check, or the file is empty: whatever `flush` reports, every way the
      disk may have taken the writes must leave all of it. */
  lemma CompleteIntact(data: seq<byte>, confirmed: nat, payload: seq<byte>, flushOk: bool)
    requires Buffered(data, confirmed)
    ensures (forall io: Io | !io.WriteFails? && (flushOk <==> io.Written?) ::
               Final(data, confirmed, payload, io) == data + payload) <==> flushOk || data + payload == []
  {
    StaysBuffered(data, confirmed, payload);
    var worst := FlushFails(0);
    assert Final(data, confirmed, payload, worst) == (data + payload)[..Confirm(data, confirmed, payload)];
    if flushOk {
      assert forall io: Io | io.Written? :: Final(data, confirmed, payload, io) == data + payload;
    } else if data + payload == [] {
      assert forall io: Io :: Final(data, confirmed, payload, io) == [];
    } else {
      assert |Final(data, confirmed, payload, worst)| < |data + payload|;
    }
  }

  /** The chunk handler over the receiver: as the receiver theory has it, except for what a
      flush that failed costs. */
  function Handled(r: Receiver, confirmed: map<u32, nat>, c: Codec.Chunk, io: Io): Receiver
  {
    if c.id in r.open && c.id in confirmed && c.chunk == r.open[c.id].next && c.last && io.FlushFails? then
      Drop(r, c.id).(done := r.done[c.id := Final(r.open[c.id].data, confirmed[c.id], c.payload, io)])
    else OnChunk(r, c, !io.WriteFails?)
  }

  lemma HandledIs(r: Receiver, confirmed: map<u32, nat>, c: Codec.Chunk, io: Io)
    requires c.id in r.open && c.id in confirmed && c.chunk == r.open[c.id].next && !io.WriteFails?
    ensures var p, data := r.open[c.id], r.open[c.id].data + c.payload;
            Handled(r, confirmed, c, io) ==
              if c.last then
                Drop(r, c.id).(done := r.done[c.id := Flushed(data, Confirm(p.data, confirmed[c.id], c.payload), io)])
              else r.(open := r.open[c.id := Partial(p.size, data, Wrap32(p.next + 1))])
  {
  }

  function BinaryHandled(auth: bool, r: Receiver, confirmed: map<u32, nat>, bytes: seq<byte>, io: Io): Receiver
  {
    var c := ChunkOf(Messages.Binary(bytes));
    if !auth || c.None? then r else Handled(r, confirmed, c.value, io)
  }

  lemma BinaryHandledIs(auth: bool, r: Receiver, confirmed: map<u32, nat>, bytes: seq<byte>, io: Io)
    requires !io.FlushFails?
    ensures BinaryHandled(auth, r, confirmed, bytes, io) ==
            Transfer.SessionHandles(auth, r, Messages.Binary(bytes), !io.WriteFails?)
  {
  }

  /** A terminator frame without bytes: what a failed flush costs is the whole chunk before. */
  lemma TerminatorLoses(r: Receiver, c: Codec.Chunk, end: Codec.Chunk, confirmed: nat)
    requires c.id in r.open && c.chunk == r.open[c.id].next && !c.last && c.payload != []
    requires end == Codec.Chunk(c.id, Wrap32(c.chunk + 1), true, [])
    requires Buffered(r.open[c.id].data, confirmed)
    ensures var data := r.open[c.id].data;
            var s := Handled(r, map[c.id := confirmed], c, Written);
            && c.id in s.open && s.open[c.id].data == data + c.payload && s.open[c.id].next == end.chunk
            && var t := Handled(s, map[c.id := Confirm(data, confirmed, c.payload)], end, FlushFails(0));
            c.id in t.done && t.done[c.id] == data
  {
    var data := r.open[c.id].data;
    assert data + c.payload + [] == data + c.payload;
    assert (data + c.payload)[..|data|] == data;
  }

  /** The phone's own upload of a file of one chunk: the terminator frame carries no bytes,
      so a lost write of the chunk before it surfaces in `flush`, if anywhere, and the PC
      reports an empty file complete. */
  lemma ShortUpload(id: u32, b: byte)
    ensures var u0, u1 := Transfer.Uploading([], 0, true, false), Transfer.Uploading([b], 1, true, false);
            var chunk, end := ChunkOf(Transfer.UpFrame(u0, id, false, [b])), ChunkOf(Transfer.UpFrame(u1, id, true, []));
            && chunk.Some? && end.Some? && end.value.last
            && var sent := Handled(Open(EMPTY, id, 1), map[id := 0], chunk.value, Written);
            && id in sent.open && sent.open[id].data == [b]
            && var ended := Handled(sent, map[id := 0], end.value, FlushFails(0));
            id in ended.done && ended.done[id] == []
  {
    hide ChunkOf, Handled;
    TransferProof.FileFrameIs(id, 0, false, [b]);
    TransferProof.FileFrameIs(id, 1, true, []);
    var chunk, end := Codec.Chunk(id, 0, false, [b]), Codec.Chunk(id, 1, true, []);
    TerminatorLoses(Open(EMPTY, id, 1), chunk, end, 0);
    assert [] + [b] == [b];
  }

  datatype Cmd = Send(id: u32, name: string, size: nat, tempPath: string) | Cancel(id: u32)

  datatype Event =
    | IdleTimeout
    | TransportGone
    | Malformed
    | Text(m: ClientMsg)
    | Binary(bytes: seq<byte>, io: Io)
    | WsPing
    | WsClose
    | Packet(outlet: bool)
    | StreamDied
    | Command(cmd: Cmd)

  datatype Reply = Welcome | Error | Pong | StreamStarted | StreamStopped | Ctl(c: Control)

  /** How an arm of the select loop ends. */
  datatype Flow = Loop | Continue | Break

  /** FileTransferComplete was sent for exactly these paths. */
  ghost predicate Told(paths: set<string>, out: seq<Reply>)
  {
    && (forall p | p in paths :: exists id :: Ctl(FileTransferComplete(id, p)) in out)
    && (forall id, p | Ctl(FileTransferComplete(id, p)) in out :: p in paths)
  }

  lemma ToldMore(paths: set<string>, out: seq<Reply>, r: Reply)
    requires Told(paths, out) && !(r.Ctl? && r.c.FileTransferComplete?)
    ensures Told(paths, out + [r])
  {
    forall p | p in paths ensures exists id :: Ctl(FileTransferComplete(id, p)) in out + [r] {
      var id :| Ctl(FileTransferComplete(id, p)) in out;
      assert Ctl(FileTransferComplete(id, p)) in out + [r];
    }
  }

  lemma ToldNew(paths: set<string>, out: seq<Reply>, id: u32, p: string)
    requires Told(paths, out)
    ensures Told(paths + {p}, out + [Ctl(FileTransferComplete(id, p))])
  {
    var r := Ctl(FileTransferComplete(id, p));
    assert r in out + [r];
    forall q | q in paths ensures exists k :: Ctl(FileTransferComplete(k, q)) in out + [r] {
      var k :| Ctl(FileTransferComplete(k, q)) in out;
      assert Ctl(FileTransferComplete(k, q)) in out + [r];
    }
  }

  lemma CompletedTold(a: Account, out: seq<Reply>, id: u32, dest: string, landed: seq<byte>)
    requires Told(a.content.Keys, out)
    ensures Told(Completed(a, id, dest, landed).content.Keys, out + [Ctl(FileTransferComplete(id, dest))])
    ensures Completed(a, id, dest, landed).created == a.created
  {
    assert a.content[dest := landed].Keys == a.content.Keys + {dest};
    ToldNew(a.content.Keys, out, id, dest);
  }

  lemma Reported(paths: set<string>, out: seq<Reply>)
    requires Told(paths, out)
    ensures forall p :: p in paths <==> exists id :: Ctl(FileTransferComplete(id, p)) in out
  {
  }

  /** The latest non-empty write of each open file is not confirmed yet. */
  ghost predicate Writers(files: Files, confirmed: map<u32, nat>)
  {
    && confirmed.Keys == files.Keys
    && forall id | id in files ::
         confirmed[id] <= files[id].written && (files[id].written > 0 ==> confirmed[id] < files[id].written)
  }

  lemma WritersBegin(files: Files, confirmed: map<u32, nat>, id: u32, f: OpenFile)
    requires Writers(files, confirmed) && f.written == 0
    ensures Writers(files[id := f], confirmed[id := 0])
  {
  }

  lemma WritersDrop(files: Files, confirmed: map<u32, nat>, id: u32)
    requires Writers(files, confirmed)
    ensures Writers(files - {id}, confirmed - {id})
  {
  }

  lemma WriterOf(files: Files, confirmed: map<u32, nat>, id: u32)
    requires Writers(files, confirmed) && id in files
    ensures id in confirmed
  {
  }

  lemma WritersTake(files: Files, confirmed: map<u32, nat>, id: u32, data: seq<byte>, payload: seq<byte>)
    requires Writers(files, confirmed) && id in files && files[id].written == |data|
    ensures id in confirmed && Grown(files[id], |payload|).dest == files[id].dest
    ensures Writers(files[id := Grown(files[id], |payload|)], confirmed[id := Confirm(data, confirmed[id], payload)])
  {
  }

  /** Every path the session created is directly in `dir`. */
  ghost predicate AllInside(dir: string, paths: set<string>) { forall p | p in paths :: Inside(dir, p) }

  lemma MoreInside(dir: string, paths: set<string>, p: string)
    requires AllInside(dir, paths) && Inside(dir, p)
    ensures AllInside(dir, paths + {p})
  {
    hide Inside;
  }

  class Connection {
    const dir: string
    var authenticated: bool
    var activeStream: bool
    var transfers: Files
    var sends: map<u32, string>      // spool path per send in flight
    var cancelled: set<string>       // spools whose streamer has been told to stop
    var bridge: Option<nat>
    var disk: Disk                   // open files with all that was written to them
    var confirmed: map<u32, nat>     // of each open file, the bytes known to have landed
    var spools: set<string>
    var outbox: seq<Reply>
    ghost var account: Account
    ghost var finished: map<u32, seq<byte>>
    ghost var misordered: nat
    ghost var entered: set<string>   // spools that went into `sends`
    ghost var displaced: set<string> // spools whose entry a later send with the same id replaced

    ghost predicate Valid()
      reads this
    {
      && Kept(transfers, disk, account)
      && Writers(transfers, confirmed)
      && (!authenticated ==>
            transfers == map[] && sends == map[] && !activeStream && bridge.None? &&
            finished == map[] && misordered == 0 && entered == {})
      && (forall p | p in entered :: p in spools ==> p in sends.Values || p in displaced)
      && Told(account.content.Keys, outbox)
      && AllInside(dir, account.created)
    }

    ghost function Rx(): Receiver
      requires Valid()
      reads this
    {
      Receiver(OpenOf(transfers, disk), finished, misordered)
    }

    constructor (dir: string, disk: Disk, spools: set<string>)
      ensures Valid() && !authenticated && Rx() == EMPTY && this.disk == disk
      ensures account == Account({}, map[], map[], disk)
    {
      this.dir, this.disk, this.spools := dir, disk, spools;
      authenticated, activeStream, bridge := false, false, None;
      transfers, confirmed, sends, cancelled, outbox := map[], map[], map[], {}, [];
      account := Account({}, map[], map[], disk);
      finished, misordered, entered, displaced := map[], 0, {}, {};
    }

    method Send(r: Reply)
      requires Valid() && !(r.Ctl? && r.c.FileTransferComplete?)
      modifies this`outbox
      ensures Valid() && Rx() == old(Rx()) && outbox == old(outbox) + [r]
    {
      hide Kept, OpenOf, Writers, AllInside;
      ToldMore(account.content.Keys, outbox, r);
      hide Told;
      outbox := outbox + [r];
    }

    // ------------------------------------------------------------ uploads

    /** An accepted upload lands in a new, empty file: the first candidate for its cleaned
        name that is free, which is the path the phone is told. */
    method HandleFileBegin(id: u32, name: string, size: nat, dirOk: bool, createOk: bool) returns (ok: bool)
      requires Valid() && authenticated
      modifies this`transfers, this`confirmed, this`disk, this`outbox, this`account
      ensures Valid()
      ensures Rx() == Transfer.SessionHandles(true, old(Rx()), Messages.Text(FileTransferBegin(id, name, size)), ok)
      ensures ok <==> id !in old(transfers) && size <= Transfer.MAX_UPLOAD && dirOk && createOk &&
                      exists k :: 0 <= k <= 999 && Candidate(dir, Sanitize(name), k) !in old(disk)
      ensures !ok ==> outbox == old(outbox) + [Ctl(FileTransferFailed(id))]
      ensures !ok ==> disk == old(disk) && transfers == old(transfers) && account == old(account)
      ensures ok ==> exists p :: LandedAt(id, name, size, old(disk), old(transfers), old(outbox), p)
      ensures account.before == old(account).before && old(account).created <= account.created
    {
      hide Kept, OpenOf, Writers, AllInside, Told, Inside, Sanitize, Candidate;
      ok := false;
      if id in transfers || size > Transfer.MAX_UPLOAD || !dirOk {
        Send(Ctl(FileTransferFailed(id)));
        return;
      }
      var dest := UniqueDestPath(dir, Sanitize(name), disk.Keys);
      if dest.None? || !createOk {
        Send(Ctl(FileTransferFailed(id)));
        return;
      }
      ok := true;
      ghost var n: nat :| n <= 999 && FirstFree(dir, Sanitize(name), disk.Keys, n, dest.value);
      LandsInside(dir, name, n);
      Create(id, size, dest.value);
      Send(Ctl(FileTransferAccepted(id, dest.value)));
      assert LandedAt(id, name, size, old(disk), old(transfers), old(outbox), dest.value);
    }

    /** The upload has begun at `p`. */
    ghost predicate LandedAt(
      id: u32, name: string, size: nat, was: Disk, before: Files, said: seq<Reply>, p: string)
      reads this`disk, this`transfers, this`outbox
    {
      && (exists n: nat :: n <= 999 && FirstFree(dir, Sanitize(name), was.Keys, n, p))
      && disk == was[p := []] && transfers == before[id := OpenFile(size, p, 0, 0)]
      && outbox == said + [Ctl(FileTransferAccepted(id, p))]
    }

    /** The file is created and its entry made. */
    method Create(id: u32, size: nat, dest: string)
      requires Valid() && authenticated && id !in transfers && dest !in disk && Inside(dir, dest)
      modifies this`transfers, this`confirmed, this`disk, this`account
      ensures Valid() && Rx() == Open(old(Rx()), id, size)
      ensures account == Began(old(account), id, dest)
      ensures disk == old(disk)[dest := []] && transfers == old(transfers)[id := OpenFile(size, dest, 0, 0)]
    {
      hide Kept, OpenOf, Writers, AllInside, Told, Inside;
      Begins(transfers, disk, account, id, size, dest);
      WritersBegin(transfers, confirmed, id, OpenFile(size, dest, 0, 0));
      MoreInside(dir, account.created, dest);
      account := Began(account, id, dest);
      disk := disk[dest := []];
      transfers, confirmed := transfers[id := OpenFile(size, dest, 0, 0)], confirmed[id := 0];
    }

    /** The entry goes and its partial file is unlinked. */
    method Unlink(id: u32)
      requires Valid() && id in transfers
      modifies this`transfers, this`confirmed, this`disk, this`account
      ensures Valid() && Rx() == Drop(old(Rx()), id)
      ensures transfers == old(transfers) - {id} && account == Dropped(old(account), id)
    {
      hide Kept, OpenOf, Writers, AllInside, Told;
      Drops(transfers, disk, account, id);
      WritersDrop(transfers, confirmed, id);
      account := Dropped(account, id);
      disk := disk - {transfers[id].dest};
      transfers, confirmed := transfers - {id}, confirmed - {id};
    }

    method HandleFileAbort(id: u32)
      requires Valid()
      modifies this`transfers, this`confirmed, this`disk, this`account
      ensures Valid() && Rx() == Drop(old(Rx()), id)
      ensures account.before == old(account).before && account.created == old(account).created
    {
      if id in transfers {
        Unlink(id);
      } else {
        assert old(Rx()).open - {id} == old(Rx()).open;
      }
    }

    method HandleFileChunk(bytes: seq<byte>, io: Io)
      requires Valid() && authenticated && IsFile(Messages.Binary(bytes))
      modifies this`transfers, this`confirmed, this`disk, this`account, this`outbox, this`finished, this`misordered
      ensures Valid()
      ensures Rx() == BinaryHandled(true, old(Rx()), old(confirmed), bytes, io)
      ensures !io.FlushFails? ==>
                Rx() == Transfer.SessionHandles(true, old(Rx()), Messages.Binary(bytes), !io.WriteFails?)
      ensures var c := Codec.ParseFileChunk(bytes);
              c.Some? && c.value.id in old(transfers) ==>
                var st := old(transfers)[c.value.id];
                outbox == old(outbox) +
                  if c.value.chunk != st.next || io.WriteFails? then [Ctl(FileTransferFailed(c.value.id))]
                  else if c.value.last then [Ctl(FileTransferComplete(c.value.id, st.dest))] else []
      ensures account.before == old(account).before && account.created == old(account).created
    {
      hide Kept, OpenOf, Writers, AllInside, Told, Final;
      if !io.FlushFails? {
        BinaryHandledIs(true, Rx(), confirmed, bytes, io);
      }
      var parsed := Codec.ParseFileChunk(bytes);
      if parsed.None? || parsed.value.id !in transfers {
        return;
      }
      var c := parsed.value;
      if c.chunk != transfers[c.id].next {
        Unlink(c.id);
        misordered := misordered + 1;
        Send(Ctl(FileTransferFailed(c.id)));
      } else if io.WriteFails? {
        Unlink(c.id);
        Send(Ctl(FileTransferFailed(c.id)));
      } else {
        TakeChunk(c, io);
      }
    }

    /** The chunk is in order and the write succeeds. */
    method TakeChunk(c: Codec.Chunk, io: Io)
      requires Valid() && authenticated && c.id in transfers && c.chunk == transfers[c.id].next && !io.WriteFails?
      modifies this`transfers, this`confirmed, this`disk, this`account, this`outbox, this`finished
      ensures Valid() && Rx() == Handled(old(Rx()), old(confirmed), c, io)
      ensures outbox == old(outbox) +
                if c.last then [Ctl(FileTransferComplete(c.id, old(transfers)[c.id].dest))] else []
      ensures account.before == old(account).before && account.created == old(account).created
    {
      hide Kept, OpenOf, Writers, AllInside, Told, Handled, Confirm, Flushed, Wrap32;
      WriterOf(transfers, confirmed, c.id);
      HandledIs(Rx(), confirmed, c, io);
      Write(c.id, c.payload);
      if c.last {
        Complete(c.id, io);
        assert Rx().open == old(Rx()).open - {c.id};
      }
    }

    method Write(id: u32, payload: seq<byte>)
      requires Valid() && id in transfers
      modifies this`transfers, this`confirmed, this`disk, this`account
      ensures Valid() && transfers.Keys == old(transfers).Keys && transfers[id].dest == old(transfers)[id].dest
      ensures var p := old(Rx()).open[id];
              && Rx() == old(Rx()).(open := old(Rx()).open[id := Partial(p.size, p.data + payload, Wrap32(p.next + 1))])
              && confirmed == old(confirmed)[id := Confirm(p.data, old(confirmed)[id], payload)]
      ensures account == Took(old(account), id, payload)
    {
      hide Kept, OpenOf, Writers, AllInside, Told, Took, Wrap32, Confirm, Grown;
      var st := transfers[id];
      Entry(transfers, disk, account, id);
      WritersTake(transfers, confirmed, id, disk[st.dest], payload);
      var disk' := disk[st.dest := disk[st.dest] + payload];
      Takes(transfers, disk, account, id, payload, disk', Rx().open[id]);
      account := Took(account, id, payload);
      confirmed := confirmed[id := Confirm(disk[st.dest], confirmed[id], payload)];
      transfers, disk := transfers[id := Grown(st, |payload|)], disk';
    }

    /** What is left of the file when `flush` has done what it could. */
    method Flush(id: u32, io: Io) returns (landed: seq<byte>)
      requires Valid() && id in transfers
      ensures landed == Flushed(Rx().open[id].data, confirmed[id], io)
      ensures transfers[id].dest in disk
    {
      hide Kept, OpenOf, Told;
      Entry(transfers, disk, account, id);
      landed := disk[transfers[id].dest];
      if io.FlushFails? {
        landed := landed[..Min(|landed|, Max(confirmed[id], io.kept))];
      }
    }

    /** LAST_CHUNK arrived: a flush that fails and a size mismatch are only logged. */
    method Complete(id: u32, io: Io)
      requires Valid() && authenticated && id in transfers
      modifies this`transfers, this`confirmed, this`disk, this`outbox, this`account, this`finished
      ensures Valid()
      ensures var landed := Flushed(old(Rx()).open[id].data, old(confirmed)[id], io);
              && Rx() == Drop(old(Rx()), id).(done := old(Rx()).done[id := landed])
              && account == Completed(old(account), id, old(transfers)[id].dest, landed)
      ensures outbox == old(outbox) + [Ctl(FileTransferComplete(id, old(transfers)[id].dest))]
    {
      hide Kept, OpenOf, Writers, AllInside, Told, Completed, Flushed;
      var dest := transfers[id].dest;
      var landed := Flush(id, io);
      Completes(transfers, disk, account, id, landed);
      WritersDrop(transfers, confirmed, id);
      CompletedTold(account, outbox, id, dest, landed);
      finished := finished[id := landed];
      account := Completed(account, id, dest, landed);
      disk := disk[dest := landed];
      transfers, confirmed := transfers - {id}, confirmed - {id};
      outbox := outbox + [Ctl(FileTransferComplete(id, dest))];
    }

    // ---------------------------------------------------------------- control

    function Admits(m: ClientMsg): bool
    {
      (m.Hello? && Supported(m.v) && m.codeOk && m.nonceOk) || (m.TrustedHello? && Supported(m.v) && m.trusted)
    }

    /** A handshake that is not accepted, and a ping or stream request before one that is. */
    function Refuses(m: ClientMsg, auth: bool): bool
    {
      ((m.Hello? || m.TrustedHello?) && !Admits(m)) || ((m.Ping? || m.StreamRequest?) && !auth)
    }

    /** handle_client_msg: false drops the connection. Only an accepted handshake
        authenticates, and nothing takes it back. */
    method HandleClientMsg(m: ClientMsg) returns (keep: bool)
      requires Valid() && !m.File?
      modifies this`authenticated, this`activeStream, this`outbox
      ensures Valid() && Rx() == old(Rx())
      ensures authenticated == (old(authenticated) || Admits(m))
      ensures keep <==> !Refuses(m, old(authenticated))
      ensures Admits(m) ==> outbox == old(outbox) + [Welcome]
      ensures !keep ==> outbox == old(outbox) + [Error]
      ensures activeStream == (if m.StreamRequest? then old(activeStream) || (old(authenticated) && m.codecKnown && m.starts)
                               else old(activeStream) && !m.StreamStop?)
    {
      hide Kept, OpenOf, Writers, AllInside, Told;
      keep := true;
      match m
      case Hello(v, codeOk, nonceOk) =>
        if !Supported(v) || !codeOk || !nonceOk {
          Send(Error);
          return false;
        }
        Send(Welcome);
        authenticated := true;
      case TrustedHello(v, trusted) =>
        if !Supported(v) || !trusted {
          Send(Error);
          return false;
        }
        Send(Welcome);
        authenticated := true;
      case Ping =>
        if !authenticated {
          Send(Error);
          return false;
        }
        Send(Pong);
      case StreamRequest(codecKnown, starts) =>
        if !authenticated {
          Send(Error);
          return false;
        }
        if !codecKnown || activeStream || !starts {
          Send(Error);
        } else {
          Send(StreamStarted);
          activeStream := true;
        }
      case StreamStop =>
        if activeStream {
          activeStream := false;
          Send(StreamStopped);
        }
      case KeyframeRequest =>
      case Input =>
    }

    // ------------------------------------------------------------------ sends

    /** A send leaves `sends` and its spool leaves the disk; `stop` also tells the streamer. */
    method DropSend(id: u32, stop: bool)
      requires Valid() && id in sends
      modifies this`sends, this`spools, this`cancelled
      ensures Valid() && Rx() == old(Rx())
      ensures sends == old(sends) - {id} && spools == old(spools) - {old(sends)[id]}
      ensures cancelled == old(cancelled) + if stop then {old(sends)[id]} else {}
    {
      hide Kept, OpenOf, Writers, AllInside, Told;
      if stop {
        cancelled := cancelled + {sends[id]};
      }
      ghost var was := sends;
      spools := spools - {sends[id]};
      sends := sends - {id};
      forall p | p in entered && p in spools && p !in displaced
        ensures p in sends.Values
      {
        var k :| k in was && was[k] == p;
        assert k in sends && sends[k] == p;
      }
    }

    method HandleSendReply(c: Control)
      requires Valid() && (c.FileSendAccepted? || c.FileSendComplete? || c.FileSendFailed?)
      modifies this`sends, this`spools, this`cancelled
      ensures Valid() && Rx() == old(Rx())
      ensures sends == if c.FileSendAccepted? then old(sends) else old(sends) - {c.id}
      ensures c.FileSendFailed? && c.id in old(sends) ==> old(sends)[c.id] in cancelled
      ensures old(cancelled) <= cancelled && spools <= old(spools)
    {
      if !c.FileSendAccepted? && c.id in sends {
        DropSend(c.id, c.FileSendFailed?);
      } else {
        assert c.id !in sends ==> sends - {c.id} == sends;
      }
    }

    /** dispatch_file_send_cmd and the cancel arm. */
    method HandleCommand(cmd: Cmd) returns (flow: Flow)
      requires Valid()
      modifies this`sends, this`spools, this`cancelled, this`outbox, this`entered, this`displaced
      ensures Valid() && Rx() == old(Rx())
      ensures flow == if old(authenticated) then Loop else Continue
      ensures old(cancelled) <= cancelled && old(entered) <= entered
      ensures !authenticated && cmd.Send? ==> spools == old(spools) - {cmd.tempPath} && sends == old(sends)
      ensures authenticated && cmd.Send? ==>
                && sends == old(sends)[cmd.id := cmd.tempPath] && entered == old(entered) + {cmd.tempPath}
                && outbox == old(outbox) + [Ctl(FileSendBegin(cmd.id, cmd.name, cmd.size))] && spools == old(spools)
      ensures authenticated && cmd.Cancel? ==> sends == old(sends) - {cmd.id}
      ensures authenticated && cmd.Cancel? && cmd.id in old(sends) ==>
                old(sends)[cmd.id] in cancelled && old(sends)[cmd.id] !in spools
      ensures displaced == old(displaced) +
                if authenticated && cmd.Send? && cmd.id in old(sends) then {old(sends)[cmd.id]} else {}
    {
      hide Kept, OpenOf, Writers, AllInside, Told;
      flow := Loop;
      if !authenticated {
        if cmd.Send? {
          spools := spools - {cmd.tempPath};
        }
        return Continue;
      }
      match cmd
      case Send(id, name, size, tempPath) =>
        ghost var was := sends;
        if id in sends {
          displaced := displaced + {sends[id]};
        }
        sends := sends[id := tempPath];
        entered := entered + {tempPath};
        forall p | p in entered && p in spools && p !in displaced
          ensures p in sends.Values
        {
          if p == tempPath {
            assert sends[id] == p;
          } else {
            var k :| k in was && was[k] == p;
            assert k != id && sends[k] == p;
          }
        }
        Send(Ctl(FileSendBegin(id, name, size)));
      case Cancel(id) =>
        if id in sends {
          DropSend(id, true);
        } else {
          assert sends - {id} == sends;
        }
    }

    // --------------------------------------------------------- the select loop

    method OnText(m: ClientMsg) returns (flow: Flow)
      requires Valid()
      modifies this
      ensures Valid() && Kin(old(account), old(entered), old(cancelled), old(displaced), old(bridge))
      ensures authenticated == (old(authenticated) || Admits(m))
      ensures !m.File? ==> flow == if Refuses(m, old(authenticated)) then Break else Loop
      ensures m.File? ==>
                exists ok :: Rx() == Transfer.SessionHandles(old(authenticated), old(Rx()), Messages.Text(m.control), ok)
      ensures !m.File? ==> Rx() == old(Rx())
    {
      hide Kept, OpenOf, Writers, AllInside, Told;
      if !m.File? {
        var keep := HandleClientMsg(m);
        return if keep then Loop else Break;
      }
      flow := OnFileControl(m.control, m.dirOk, m.createOk);
    }

    method OnFileControl(c: Control, dirOk: bool, createOk: bool) returns (flow: Flow)
      requires Valid()
      modifies this
      ensures Valid() && Kin(old(account), old(entered), old(cancelled), old(displaced), old(bridge))
      ensures authenticated == old(authenticated)
      ensures exists ok :: Rx() == Transfer.SessionHandles(authenticated, old(Rx()), Messages.Text(c), ok)
    {
      hide Kept, OpenOf, Writers, AllInside, Told;
      flow := Loop;
      var ok := true;
      if c.FileTransferBegin? {
        if authenticated {
          ok := HandleFileBegin(c.id, c.name, c.size, dirOk, createOk);
        } else {
          Send(Ctl(FileTransferFailed(c.id)));
          flow := Continue;
        }
      } else if c.FileTransferAbort? {
        HandleFileAbort(c.id);
      } else if c.FileSendAccepted? || c.FileSendComplete? || c.FileSendFailed? {
        HandleSendReply(c);
      } else {
        Send(Error);
        flow := Break;
      }
      assert Rx() == Transfer.SessionHandles(authenticated, old(Rx()), Messages.Text(c), ok);
    }

    /** What no step of the loop gives up. */
    ghost predicate Kin(was: Account, entered: set<string>, cancelled: set<string>, displaced: set<string>,
                        bridge: Option<nat>)
      reads this
    {
      && account.before == was.before && was.created <= account.created
      && entered <= this.entered && cancelled <= this.cancelled && displaced <= this.displaced
      && this.bridge == bridge
    }

    method OnBinary(bytes: seq<byte>, io: Io) returns (flow: Flow)
      requires Valid()
      modifies this
      ensures Valid() && Kin(old(account), old(entered), old(cancelled), old(displaced), old(bridge))
      ensures authenticated == old(authenticated)
      ensures flow == if authenticated then Loop else Continue
      ensures Rx() == BinaryHandled(authenticated, old(Rx()), old(confirmed), bytes, io)
      ensures !io.FlushFails? ==>
                Rx() == Transfer.SessionHandles(authenticated, old(Rx()), Messages.Binary(bytes), !io.WriteFails?)
    {
      hide Kept, OpenOf, Writers, AllInside, Told, Handled;
      if !io.FlushFails? {
        BinaryHandledIs(authenticated, Rx(), confirmed, bytes, io);
      }
      if !authenticated {
        return Continue;
      }
      var header := Codec.PeekFrameHeader(bytes);
      if header.Some? && header.value.0 == Codec.FILE {
        HandleFileChunk(bytes, io);
      }
      flow := Loop;
    }

    /** What ends the connection: silence, a lost transport or outlet, a close, a message that
        does not parse or that drops it. */
    function Ends(ev: Event, auth: bool): bool
    {
      || ev.IdleTimeout? || ev.TransportGone? || ev.Malformed? || ev.WsClose? || (ev.Packet? && !ev.outlet)
      || (ev.Text? && !ev.m.File? && Refuses(ev.m, auth))
    }

    /** One turn of the select loop. Only an accepted handshake authenticates, nothing
        takes that back, and uploads change exactly as the receiver theory says. */
    method OnEvent(ev: Event) returns (flow: Flow)
      requires Valid()
      modifies this
      ensures Valid() && Kin(old(account), old(entered), old(cancelled), old(displaced), old(bridge))
      ensures authenticated == (old(authenticated) || (ev.Text? && Admits(ev.m)))
      ensures ev.Text? && ev.m.File? ==>
                exists ok :: Rx() == Transfer.SessionHandles(old(authenticated), old(Rx()), Messages.Text(ev.m.control), ok)
      ensures ev.Binary? ==> Rx() == BinaryHandled(authenticated, old(Rx()), old(confirmed), ev.bytes, ev.io)
      ensures ev.Binary? && !ev.io.FlushFails? ==>
                Rx() == Transfer.SessionHandles(authenticated, old(Rx()), Messages.Binary(ev.bytes), !ev.io.WriteFails?)
      ensures !(ev.Text? && ev.m.File?) && !ev.Binary? ==> Rx() == old(Rx())
      ensures Ends(ev, old(authenticated)) ==> flow == Break
    {
      hide Kept, OpenOf, Writers, AllInside, Told;
      flow := Loop;
      match ev
      case IdleTimeout => flow := Break;
      case TransportGone => flow := Break;
      case Malformed =>
        Send(Error);
        flow := Break;
      case Text(m) => flow := OnText(m);
      case Binary(bytes, io) => flow := OnBinary(bytes, io);
      case WsPing => Send(Pong);
      case WsClose => flow := Break;
      case Packet(outlet) => flow := if outlet then Loop else Break;
      case StreamDied =>
        if activeStream {
          activeStream := false;
          Send(StreamStopped);
        }
        flow := Continue;
      case Command(cmd) => flow := HandleCommand(cmd);
    }

    // -------------------------------------------------------------------- exit

    method UnlinkAll()
      requires Valid()
      modifies this`transfers, this`confirmed, this`disk, this`account
      ensures Valid() && transfers == map[] && Rx() == Transfer.Abandon(old(Rx()))
      ensures account.before == old(account).before && account.created == old(account).created
      ensures account.content == old(account).content
    {
      hide Kept, OpenOf, Writers, AllInside, Told;
      while transfers != map[]
        invariant Valid() && Rx().done == old(Rx()).done && Rx().misordered == old(Rx()).misordered
        invariant account.before == old(account).before && account.created == old(account).created
        invariant account.content == old(account).content
        decreases |transfers|
      {
        var id :| id in transfers;
        assert transfers.Keys == (transfers - {id}).Keys + {id};
        Unlink(id);
      }
      assert Rx().open.Keys == {};
    }

    method CancelAll()
      requires Valid()
      modifies this`sends, this`spools, this`cancelled
      ensures Valid() && Rx() == old(Rx()) && sends == map[]
      ensures old(cancelled) + old(sends).Values <= cancelled
      ensures entered * spools <= displaced
    {
      hide Kept, OpenOf, Writers, AllInside, Told;
      while sends != map[]
        invariant Valid() && Rx() == old(Rx())
        invariant forall p | p in old(cancelled) || p in old(sends).Values :: p in cancelled || p in sends.Values
        decreases |sends|
      {
        var id :| id in sends;
        ghost var was := sends;
        assert was.Keys == (was - {id}).Keys + {id};
        DropSend(id, true);
        forall p | p in was.Values ensures p in cancelled || p in sends.Values {
          var k :| k in was && was[k] == p;
          if k != id {
            assert k in sends && sends[k] == p;
          }
        }
      }
    }

    /** The end of run_connection, however its loop ended. */
    method CleanUp()
      requires Valid()
      modifies this
      ensures Valid() && authenticated == old(authenticated) && account.before == old(account).before
      ensures transfers == map[] && sends == map[] && !activeStream && bridge.None?
      ensures disk.Keys == account.before.Keys + account.content.Keys && account.content.Keys !! account.before.Keys
      ensures forall p :: p in account.content <==> exists id :: Ctl(FileTransferComplete(id, p)) in outbox
      ensures forall p | p in disk :: disk[p] == if p in account.before then account.before[p] else account.content[p]
      ensures entered * spools <= displaced
      ensures account.content.Keys <= account.created && forall p | p in account.created :: Inside(dir, p)
    {
      hide Kept, OpenOf, Writers, Told, Inside;
      activeStream := false;
      UnlinkAll();
      CancelAll();
      bridge := None;
      Settles(transfers, disk, account);
      Reported(account.content.Keys, outbox);
    }

    /** run_connection. However the events fall: nothing authenticates without an accepted
        handshake; when it returns no upload, send, stream or registration is left; the
        files it added are exactly those it reported complete, with the content they had
        then; the files it found are as it found them; everything it ever created is directly in
        its directory; and the only spools of its sends
        still on disk are those a later send displaced. */
    method Run(events: seq<Event>, instance: nat)
      requires Valid() && !authenticated && entered == {} && account == Account({}, map[], map[], disk)
      modifies this
      ensures Valid()
      ensures authenticated ==> exists k :: 0 <= k < |events| && events[k].Text? && Admits(events[k].m)
      ensures transfers == map[] && sends == map[] && !activeStream && bridge.None?
      ensures disk.Keys == account.before.Keys + account.content.Keys
      ensures account.before == old(disk) && account.content.Keys !! old(disk).Keys
      ensures forall p :: p in disk && p !in old(disk) <==> exists id :: Ctl(FileTransferComplete(id, p)) in outbox
      ensures forall p | p in disk :: disk[p] == if p in old(disk) then old(disk)[p] else account.content[p]
      ensures forall p | p in account.created :: Inside(dir, p)
      ensures forall p | p in disk && p !in old(disk) :: Inside(dir, p)
      ensures entered * spools <= displaced
    {
      hide Kept, OpenOf, Writers, AllInside, Told, Inside, BinaryHandled;
      var i, flow := 0, Loop;
      while i < |events| && flow != Break
        invariant i <= |events| && Valid() && account.before == old(disk)
        invariant authenticated ==> exists k :: 0 <= k < i && events[k].Text? && Admits(events[k].m)
        invariant bridge.Some? ==> authenticated
      {
        flow := OnEvent(events[i]);
        i := i + 1;
        if flow == Loop && authenticated && bridge.None? {
          bridge := Some(instance);
        }
      }
      CleanUp();
    }
  }
}
