/** Messages on a phone's WebSocket. Control JSON is a datatype; data-plane
    messages are the bytes laid out in Codec. */
module Messages {
  import opened Basics
  import Codec

  datatype Control =
    // phone to PC
    | FileTransferBegin(id: u32, name: string, size: nat)
    | FileTransferAbort(id: u32)
    | FileSendAccepted(id: u32)
    | FileSendComplete(id: u32)
    | FileSendFailed(id: u32)
    // PC to phone
    | FileTransferAccepted(id: u32, path: string)
    | FileTransferComplete(id: u32, path: string)
    | FileTransferFailed(id: u32)
    | FileSendBegin(id: u32, name: string, size: nat)
    // handshake, stream control, input, clipboard
    | Other(tag: nat)

  /** Capacities of a session's two bounded outbound queues. */
  const OUTBOUND_VIDEO_CAP := 2
  const OUTBOUND_BULK_CAP := 8

  datatype Msg = Text(control: Control) | Binary(bytes: seq<byte>)

  function FrameType(b: seq<byte>): byte { if b == [] then 0 else b[0] }

  predicate IsText(m: Msg) { m.Text? }

  predicate IsFile(m: Msg) { m.Binary? && FrameType(m.bytes) == Codec.FILE }

  /** The relay's delivery policy: text and FILE frames must not be dropped. */
  predicate IsMust(m: Msg) { IsText(m) || IsFile(m) }

  predicate IsAv(m: Msg) { !IsMust(m) }

  function Texts(s: seq<Msg>): seq<Msg> { Filter(s, IsText) }
  function Files(s: seq<Msg>): seq<Msg> { Filter(s, IsFile) }
  function Must(s: seq<Msg>): seq<Msg> { Filter(s, IsMust) }
  function Av(s: seq<Msg>): seq<Msg> { Filter(s, IsAv) }

  lemma Snoc(s: seq<Msg>, m: Msg)
    ensures Texts(s + [m]) == Texts(s) + if IsText(m) then [m] else []
    ensures Files(s + [m]) == Files(s) + if IsFile(m) then [m] else []
    ensures Must(s + [m]) == Must(s) + if IsMust(m) then [m] else []
    ensures Av(s + [m]) == Av(s) + if IsAv(m) then [m] else []
  {
    FilterSnoc(s, m, IsText);
    FilterSnoc(s, m, IsFile);
    FilterSnoc(s, m, IsMust);
    FilterSnoc(s, m, IsAv);
  }

  lemma Head(s: seq<Msg>)
    requires s != []
    ensures Must(s) == (if IsMust(s[0]) then [s[0]] else []) + Must(s[1..])
    ensures Av(s) == (if IsAv(s[0]) then [s[0]] else []) + Av(s[1..])
  {
    FilterHead(s, IsMust);
    FilterHead(s, IsAv);
  }
}
