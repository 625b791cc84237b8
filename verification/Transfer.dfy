/** File transfer in both directions between one phone and its session, over any
    transport that keeps their `Channel` intact. */
module Transfer {
  import opened Basics
  import opened Messages
  import opened Link
  import opened ChunkLog
  import Codec

  const CHUNK_BYTES := 0x4_0000
  const MAX_UPLOAD: nat := 16 * 1024 * 1024 * 1024

  /** A phone upload: what its thread has read so far and how many chunks it sent. */
  datatype Uploading = Uploading(stream: seq<byte>, count: nat, live: bool, ended: bool)

  /** A PC send: the spool, the declared size and how far the streamer is. */
  datatype Sending = Sending(spool: seq<byte>, size: nat, pos: nat, count: nat, live: bool)

  datatype Ends = Ends(
    ups: map<u32, Uploading>,   // phone: upload threads
    down: Receiver,             // phone: incomingFiles
    auth: bool,                 // session
    handled: nat,               // session: inbox messages processed
    up: Receiver,               // session: file_transfers
    sends: map<u32, Sending>)   // session: file_sends and their streamers

  const START := Ends(map[], EMPTY, false, 0, EMPTY, map[])

  datatype Event =
    | UploadBegin(id: u32, name: string, size: nat)
    | UploadChunk(id: u32, payload: seq<byte>)
    | UploadEof(id: u32)
    | UploadFail(id: u32)
    | PhoneSays(m: Msg)
    | Authenticate
    | Handle(ok: bool)
    | SessionEnds
    | SendBegin(id: u32, name: string, spool: seq<byte>, size: nat)
    | SendChunk(id: u32, n: nat)
    | SendStop(id: u32)
    | SessionSays(m: Msg)
    | PhoneGets(m: Msg, ok: bool)
    | CancelDownload(id: u32)
    | PhoneDisconnects
    | Transport

  predicate UpBegin(m: Msg, id: u32) { m.Text? && m.control.FileTransferBegin? && m.control.id == id }

  predicate DownBegin(m: Msg, id: u32) { m.Text? && m.control.FileSendBegin? && m.control.id == id }

  /** How the session treats one inbox message; `ok` is whether its file I/O works. */
  function SessionHandles(auth: bool, r: Receiver, m: Msg, ok: bool): Receiver
  {
    match m
    case Text(FileTransferBegin(id, _, size)) =>
      if !auth || id in r.open || size > MAX_UPLOAD || !ok then r else Open(r, id, size)
    case Text(FileTransferAbort(id)) => Drop(r, id)
    case Text(_) => r
    case Binary(b) =>
      if !auth || ChunkOf(m).None? then r else OnChunk(r, ChunkOf(m).value, ok)
  }

  /** How the phone treats one message; it decodes frames with its own parser. */
  function PhoneHandles(r: Receiver, m: Msg, ok: bool): Receiver
  {
    match m
    case Text(FileSendBegin(id, _, size)) => if ok then Open(r, id, size) else r
    case Text(_) => r
    case Binary(b) =>
      var f := Codec.KtParse(b);
      if f.None? || f.value.kind != Codec.FILE then r else OnChunk(r, Codec.KtChunk(f.value), ok)
  }

  /** The upload loop: chunk numbers count modulo 2^32, an empty last chunk marks EOF. */
  function UpFrame(u: Uploading, id: u32, last: bool, payload: seq<byte>): Msg
  {
    Binary(Codec.FileFrame(id, Wrap32(u.count), last, payload))
  }

  function DownFrame(d: Sending, id: u32, n: nat): Msg
    requires d.pos + n <= |d.spool|
  {
    Binary(Codec.FileFrame(id, Wrap32(d.count), d.pos + n >= d.size, d.spool[d.pos..d.pos + n]))
  }

  function Abandon(r: Receiver): Receiver { r.(open := map[]) }

  /** One step of either end, or of the transport while the ends stand still: how the
      ends' state follows what the channel shows. */
  ghost predicate Step(e: Ends, v: Channel, a: Event, e': Ends, v': Channel)
  {
    match a
    case UploadBegin(id, name, size) =>
      && id !in e.ups
      && v' == v.(sent := v.sent + [Text(FileTransferBegin(id, name, size))])
      && e' == e.(ups := e.ups[id := Uploading([], 0, true, false)])
    case UploadChunk(id, payload) =>
      && id in e.ups && e.ups[id].live && 0 < |payload| <= CHUNK_BYTES
      && v' == v.(sent := v.sent + [UpFrame(e.ups[id], id, false, payload)])
      && e' == e.(ups := e.ups[id := Uploading(e.ups[id].stream + payload, e.ups[id].count + 1, true, false)])
    case UploadEof(id) =>
      && id in e.ups && e.ups[id].live
      && v' == v.(sent := v.sent + [UpFrame(e.ups[id], id, true, [])])
      && e' == e.(ups := e.ups[id := Uploading(e.ups[id].stream, e.ups[id].count + 1, false, true)])
    case UploadFail(id) =>
      && id in e.ups && e.ups[id].live
      && (v' == v || v' == v.(sent := v.sent + [Text(FileTransferAbort(id))]))
      && e' == e.(ups := e.ups[id := e.ups[id].(live := false)])
    case PhoneSays(m) =>
      && m.Text? && !m.control.FileTransferBegin?
      && v' == v.(sent := v.sent + [m]) && e' == e
    case Authenticate => v' == v && e' == e.(auth := true)
    case Handle(ok) =>
      && e.handled < |v.inbox| && v' == v
      && e' == e.(handled := e.handled + 1, up := SessionHandles(e.auth, e.up, v.inbox[e.handled], ok))
    case SessionEnds => v' == v && e' == e.(up := Abandon(e.up))
    case SendBegin(id, name, spool, size) =>
      && id !in e.sends
      && v' == v.(emitted := v.emitted + [Text(FileSendBegin(id, name, size))])
      && e' == e.(sends := e.sends[id := Sending(spool, size, 0, 0, true)])
    case SendChunk(id, n) =>
      && id in e.sends && e.sends[id].live
      && 0 < n <= CHUNK_BYTES && e.sends[id].pos + n <= |e.sends[id].spool|
      && v' == v.(emitted := v.emitted + [DownFrame(e.sends[id], id, n)])
      && e' == e.(sends := e.sends[id := e.sends[id].(
                    pos := e.sends[id].pos + n, count := e.sends[id].count + 1,
                    live := e.sends[id].pos + n < e.sends[id].size)])
    case SendStop(id) =>
      id in e.sends && v' == v && e' == e.(sends := e.sends[id := e.sends[id].(live := false)])
    case SessionSays(m) =>
      && m.Text? && !m.control.FileSendBegin?
      && v' == v.(emitted := v.emitted + [m]) && e' == e
    case PhoneGets(m, ok) =>
      IsMust(m) && v' == v.(got := v.got + [m]) && e' == e.(down := PhoneHandles(e.down, m, ok))
    case CancelDownload(id) => v' == v && e' == e.(down := Drop(e.down, id))
    case PhoneDisconnects => v' == v && e' == e.(down := Abandon(e.down))
    case Transport =>
      && e' == e && v'.sent == v.sent && v'.emitted == v.emitted && v'.got == v.got && v.inbox <= v'.inbox
  }

  // --------------------------------------------------------------- invariants

  predicate Announced(s: seq<Msg>, id: u32)
  {
    exists j :: 0 <= j < |s| && UpBegin(s[j], id)
  }

  /** Phone's own log: each transfer is announced once, before its first chunk. */
  ghost predicate UpLog(ups: map<u32, Uploading>, sent: seq<Msg>)
  {
    && (forall id :: id in ups <==> Announced(sent, id))
    && (forall i, id {:trigger ChunkFor(sent[i], id)} | 0 <= i < |sent| && ChunkFor(sent[i], id) ::
          Announced(sent[..i], id))
    && (forall i, id {:trigger UpBegin(sent[i], id)} | 0 <= i < |sent| && UpBegin(sent[i], id) ::
          !Announced(sent[..i], id))
  }

  ghost predicate UpThread(u: Uploading, cs: seq<Codec.Chunk>)
  {
    && Stream(cs) && |cs| == u.count && Payload(cs) == u.stream
    && (Ended(cs) <==> u.ended) && (u.live ==> !u.ended)
  }

  ghost predicate UpOk(ups: map<u32, Uploading>, sent: seq<Msg>)
  {
    UpLog(ups, sent) && forall id | id in ups :: UpThread(ups[id], Chunks(sent, id))
  }

  predicate HasBegin(texts: seq<Msg>, id: u32)
  {
    exists i :: 0 <= i < |texts| && DownBegin(texts[i], id)
  }

  /** Session's log: each send is announced once, in a text emitted before its first chunk. */
  ghost predicate DownLog(sends: map<u32, Sending>, emitted: seq<Msg>)
  {
    && (forall id :: id in sends <==> HasBegin(Texts(emitted), id))
    && (forall k: nat | k < |Files(emitted)| ::
          ChunkOf(Files(emitted)[k]).Some? && HasBegin(TextsBefore(emitted, k), ChunkOf(Files(emitted)[k]).value.id))
    && (forall i, id {:trigger DownBegin(Texts(emitted)[i], id)}
          | 0 <= i < |Texts(emitted)| && DownBegin(Texts(emitted)[i], id) :: !HasBegin(Texts(emitted)[..i], id))
  }

  ghost predicate Streamer(d: Sending, cs: seq<Codec.Chunk>)
  {
    && Stream(cs) && |cs| == d.count
    && d.pos <= |d.spool| && Payload(cs) == d.spool[..d.pos]
    && (Ended(cs) ==> !d.live && d.pos >= d.size)
  }

  ghost predicate DownOk(sends: map<u32, Sending>, emitted: seq<Msg>)
  {
    DownLog(sends, emitted) && forall id | id in sends :: Streamer(sends[id], Chunks(emitted, id))
  }

  ghost predicate Inv(e: Ends, v: Channel)
  {
    && UpOk(e.ups, v.sent)
    && e.handled <= |v.inbox| && Received(e.up, v.inbox[..e.handled])
    && (!e.auth ==> e.up == EMPTY)
    && DownOk(e.sends, v.emitted)
    && Received(e.down, v.got)
  }
}
