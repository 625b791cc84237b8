/** One tunnel: a relay `host_loop` with any number of `client_loop`s, and the
    PC's `RelayClient::run` with one session per phone, as a step system. A step is
    one atomic action of one task. A task that stops while it holds messages leaves
    them in its queue for ever, which a peer cannot tell from losing them. */
module Tunnel {
  import opened Basics
  import opened Messages
  import opened Link

  const TO_HOST_QUEUE_CAP := 32
  const PER_CLIENT_FAST_CAP := 8
  const PER_CLIENT_BULK_CAP := 32

  type Cid = nat

  datatype Frame = ClientOpen(c: Cid) | ClientClose(c: Cid) | Data(c: Cid, m: Msg)

  /** Where a phone's `client_loop` stands. */
  datatype Phase = Dialed | Registered | Reading | Closing | Unregistering | Gone

  /** Everything on one phone's path. The histories `sent`, `link`, `served`,
      `inbox`, `emitted`, `av`, `order` and `seen` only grow. */
  datatype Leg = Leg(
    phase: Phase,
    sent: seq<Msg>,      // what the phone's WebSocket carries
    read: nat,           // how much of it client_loop has taken
    link: seq<Frame>,    // frames client_loop put on to_host
    served: seq<Frame>,  // frames the PC's reader has taken
    inbox: seq<Msg>,     // what run_connection's inbox was given
    emitted: seq<Msg>,   // text and FILE messages run_connection emitted
    av: seq<Msg>,        // A/V frames run_connection produced
    ctl: seq<Msg>, vid: seq<Msg>, blk: seq<Msg>,  // outbox, outbox_video, outbox_bulk
    pumping: bool,       // the outbound pump is running
    order: seq<Msg>,     // text and FILE messages the pump took, in order
    fast: seq<Msg>, bulk: seq<Msg>,  // the relay's two queues for this phone
    writing: bool,       // the relay's writer for this phone is running
    cut: bool,           // some must-deliver message found no route
    wire: seq<Msg>,      // on the phone's WebSocket, downlink
    seen: seq<Msg>)      // what reached the phone

  const NEW_LEG := Leg(Dialed, [], 0, [], [], [], [], [], [], [], [], true, [], [], [], true, false, [], [])

  datatype Net = Net(
    legs: map<Cid, Leg>,
    clients: set<Cid>,     // keys of the relay's clients map
    toHost: seq<Frame>,    // shared bounded queue
    hostWriting: bool,     // the relay's host writer is running
    down: seq<Frame>,      // host WebSocket, relay to PC
    sessions: set<Cid>,    // keys of the PC's sessions map
    hostOut: seq<Frame>,   // PC's unbounded outbound queue
    up: seq<Frame>,        // host WebSocket, PC to relay
    held: seq<Frame>)      // at most one frame: routed, still being queued

  const INIT := Net(map[], {}, [], true, [], {}, [], [], [])

  datatype Action =
    | Dial(c: Cid)
    | Register(c: Cid)
    | SendOpen(c: Cid)
    | PhoneSend(c: Cid, m: Msg)
    | Forward(c: Cid)
    | ReaderEnd(c: Cid)
    | SendClose(c: Cid)
    | Unregister(c: Cid)
    | ClearClients
    | HostWrite
    | HostWriterStop
    | PcRead
    | EmitText(c: Cid, m: Msg)
    | EmitFile(c: Cid, m: Msg)
    | EmitAv(c: Cid, m: Msg)
    | Pump(c: Cid)
    | PumpStop(c: Cid)
    | PcWrite
    | HostRead
    | Queue
    | WriterTurn(c: Cid)
    | WriterStop(c: Cid)
    | PhoneReceive(c: Cid)

  predicate HasRoom(s: Net) { s.hostWriting ==> |s.toHost| < TO_HOST_QUEUE_CAP }

  /** When an action can happen. A send on a full bounded queue blocks unless the
      receiver is gone, in which case it fails at once. */
  predicate Enabled(s: Net, a: Action)
  {
    match a
    case Dial(c) => c !in s.legs
    case Register(c) => c in s.legs && s.legs[c].phase.Dialed?
    case SendOpen(c) => c in s.legs && s.legs[c].phase.Registered? && HasRoom(s)
    case PhoneSend(c, _) => c in s.legs
    case Forward(c) =>
      c in s.legs && s.legs[c].phase.Reading? && s.legs[c].read < |s.legs[c].sent| && HasRoom(s)
    case ReaderEnd(c) => c in s.legs && s.legs[c].phase.Reading?
    case SendClose(c) => c in s.legs && s.legs[c].phase.Closing? && HasRoom(s)
    case Unregister(c) => c in s.legs && s.legs[c].phase.Unregistering?
    case ClearClients => true
    case HostWrite => s.hostWriting && s.toHost != []
    case HostWriterStop => true
    case PcRead => s.down != [] && s.down[0].c in s.legs
    case EmitText(c, m) => c in s.legs && s.legs[c].served != [] && IsText(m)
    case EmitFile(c, m) =>
      c in s.legs && s.legs[c].served != [] && IsFile(m) && |s.legs[c].blk| < OUTBOUND_BULK_CAP
    case EmitAv(c, m) => c in s.legs && s.legs[c].served != [] && IsAv(m)
    case Pump(c) =>
      var l := if c in s.legs then s.legs[c] else NEW_LEG;
      l.pumping && (l.ctl != [] || l.vid != [] || l.blk != [])
    case PumpStop(c) => c in s.legs && s.legs[c].served != []
    case PcWrite => s.hostOut != []
    case HostRead => s.held == [] && s.up != [] && s.up[0].c in s.legs
    case Queue =>
      && |s.held| == 1 && s.held[0].Data? && s.held[0].c in s.legs
      && (IsMust(s.held[0].m) && s.legs[s.held[0].c].writing ==>
            |s.legs[s.held[0].c].bulk| < PER_CLIENT_BULK_CAP)
    case WriterTurn(c) =>
      c in s.legs && s.legs[c].writing && (s.legs[c].fast != [] || s.legs[c].bulk != [])
    case WriterStop(c) => c in s.legs
    case PhoneReceive(c) => c in s.legs && s.legs[c].wire != []
  }

  function Put(s: Net, c: Cid, l: Leg): Net { s.(legs := s.legs[c := l]) }

  /** The PC reader's three arms. */
  function Serve(s: Net, f: Frame): Net
    requires f.c in s.legs
  {
    var l := s.legs[f.c].(served := s.legs[f.c].served + [f]);
    match f
    case ClientOpen(c) => Put(s, c, l).(sessions := s.sessions + {c})
    case ClientClose(c) => Put(s, c, l).(sessions := s.sessions - {c})
    case Data(c, m) => Put(s, c, if c in s.sessions then l.(inbox := l.inbox + [m]) else l)
  }

  /** The outbound pump's biased select. */
  function PumpTurn(l: Leg): (Msg, Leg)
    requires l.ctl != [] || l.vid != [] || l.blk != []
  {
    if l.ctl != [] then (l.ctl[0], l.(ctl := l.ctl[1..], order := l.order + [l.ctl[0]]))
    else if l.vid != [] then (l.vid[0], l.(vid := l.vid[1..]))
    else (l.blk[0], l.(blk := l.blk[1..], order := l.order + [l.blk[0]]))
  }

  /** The relay's delivery policy for one routed message. */
  function Enqueue(l: Leg, m: Msg): Leg
  {
    if IsMust(m) then
      if l.writing then l.(bulk := l.bulk + [m]) else l.(cut := true)
    else if l.writing && |l.fast| < PER_CLIENT_FAST_CAP then l.(fast := l.fast + [m])
    else l
  }

  /** The relay's per-phone writer: fast before bulk. */
  function TakeTurn(l: Leg): Leg
    requires l.fast != [] || l.bulk != []
  {
    if l.fast != [] then l.(fast := l.fast[1..], wire := l.wire + [l.fast[0]])
    else l.(bulk := l.bulk[1..], wire := l.wire + [l.bulk[0]])
  }

  function Apply(s: Net, a: Action): Net
    requires Enabled(s, a)
  {
    match a
    case Dial(c) => Put(s, c, NEW_LEG)
    case Register(c) =>
      Put(s, c, s.legs[c].(phase := Registered)).(clients := s.clients + {c})
    case SendOpen(c) =>
      var l := s.legs[c];
      if s.hostWriting then
        Put(s, c, l.(phase := Reading, link := l.link + [ClientOpen(c)]))
          .(toHost := s.toHost + [ClientOpen(c)])
      else Put(s, c, l.(phase := Gone)).(clients := s.clients - {c})
    case PhoneSend(c, m) => Put(s, c, s.legs[c].(sent := s.legs[c].sent + [m]))
    case Forward(c) =>
      var l := s.legs[c];
      var f := Data(c, l.sent[l.read]);
      if s.hostWriting then
        Put(s, c, l.(read := l.read + 1, link := l.link + [f])).(toHost := s.toHost + [f])
      else Put(s, c, l.(phase := Closing))
    case ReaderEnd(c) => Put(s, c, s.legs[c].(phase := Closing))
    case SendClose(c) =>
      var l := s.legs[c];
      if s.hostWriting then
        Put(s, c, l.(phase := Unregistering, link := l.link + [ClientClose(c)]))
          .(toHost := s.toHost + [ClientClose(c)])
      else Put(s, c, l.(phase := Unregistering))
    case Unregister(c) =>
      Put(s, c, s.legs[c].(phase := Gone)).(clients := s.clients - {c})
    case ClearClients => s.(clients := {})
    case HostWrite => s.(down := s.down + [s.toHost[0]], toHost := s.toHost[1..])
    case HostWriterStop => s.(hostWriting := false)
    case PcRead => Serve(s.(down := s.down[1..]), s.down[0])
    case EmitText(c, m) =>
      var l := s.legs[c];
      Put(s, c, l.(emitted := l.emitted + [m], ctl := l.ctl + [m]))
    case EmitFile(c, m) =>
      var l := s.legs[c];
      Put(s, c, l.(emitted := l.emitted + [m], blk := l.blk + [m]))
    case EmitAv(c, m) =>
      var l := s.legs[c].(av := s.legs[c].av + [m]);
      Put(s, c, if |l.vid| < OUTBOUND_VIDEO_CAP then l.(vid := l.vid + [m]) else l)
    case Pump(c) =>
      var (m, l) := PumpTurn(s.legs[c]);
      Put(s, c, l).(hostOut := s.hostOut + [Data(c, m)])
    case PumpStop(c) =>
      Put(s, c, s.legs[c].(pumping := false)).(sessions := s.sessions - {c})
    case PcWrite => s.(up := s.up + [s.hostOut[0]], hostOut := s.hostOut[1..])
    case HostRead =>
      var f, c := s.up[0], s.up[0].c;
      var t := s.(up := s.up[1..]);
      if f.Data? && c in s.clients then t.(held := [f])
      else if f.Data? && IsMust(f.m) then Put(t, c, t.legs[c].(cut := true))
      else t
    case Queue =>
      var f := s.held[0];
      Put(s, f.c, Enqueue(s.legs[f.c], f.m)).(held := [])
    case WriterTurn(c) => Put(s, c, TakeTurn(s.legs[c]))
    case WriterStop(c) => Put(s, c, s.legs[c].(writing := false))
    case PhoneReceive(c) =>
      var l := s.legs[c];
      Put(s, c, l.(seen := l.seen + [l.wire[0]], wire := l.wire[1..]))
  }

  // ------------------------------------------------------------- invariant

  function For(c: Cid): Frame -> bool { (f: Frame) => f.c == c }

  /** Frames for `c` between client_loop and the PC's reader. */
  function Feed(s: Net, c: Cid): seq<Frame> { Filter(s.down + s.toHost, For(c)) }

  /** Everything between the PC's pumps and the relay's per-phone queues. */
  function Pipe(s: Net): seq<Frame> { s.held + s.up + s.hostOut }

  function Payloads(fs: seq<Frame>): seq<Msg>
  {
    if fs == [] then []
    else Payloads(Front(fs)) + if Last(fs).Data? then [Last(fs).m] else []
  }

  function PipeFor(s: Net, c: Cid): seq<Msg> { Payloads(Filter(Pipe(s), For(c))) }

  function Script(c: Cid, ms: seq<Msg>): (fs: seq<Frame>)
    ensures |fs| == |ms| + 1
  {
    [ClientOpen(c)] + seq(|ms|, i requires 0 <= i < |ms| => Data(c, ms[i]))
  }

  /** Open, then the phone's messages in order, then at most one Close. */
  ghost predicate LinkShape(c: Cid, l: Leg)
  {
    && l.read <= |l.sent|
    && match l.phase
       case Dialed => l.link == [] && l.read == 0
       case Registered => l.link == [] && l.read == 0
       case Reading => l.link == Script(c, l.sent[..l.read])
       case Closing => l.link == Script(c, l.sent[..l.read])
       case _ =>
         || (l.link == [] && l.read == 0)
         || l.link == Script(c, l.sent[..l.read])
         || l.link == Script(c, l.sent[..l.read]) + [ClientClose(c)]
  }

  ghost predicate Idle(l: Leg)
  {
    && l.inbox == [] && l.emitted == [] && l.av == [] && l.ctl == [] && l.vid == [] && l.blk == []
    && l.order == [] && l.fast == [] && l.bulk == [] && l.wire == [] && l.seen == [] && !l.cut
  }

  ghost predicate UpInv(c: Cid, l: Leg, feed: seq<Frame>, ses: bool)
  {
    && LinkShape(c, l)
    && l.served + feed == l.link
    && l.inbox <= Payloads(l.served)
    && (ses ==> l.inbox == Payloads(l.served) && l.served != [])
  }

  ghost predicate DownInv(l: Leg, pipe: seq<Msg>, routable: bool)
  {
    && (forall m | m in l.bulk :: IsMust(m))
    && (forall m | m in l.fast :: IsAv(m))
    && (forall m | m in l.vid :: IsAv(m))
    && Must(l.seen) + Must(l.wire) + l.bulk <= l.order
    && (!l.cut ==> Must(l.seen) + Must(l.wire) + l.bulk + Must(pipe) == l.order)
    && (l.cut ==> !l.writing || !routable)
    && Subseq(Av(l.seen) + Av(l.wire) + l.fast + Av(pipe) + l.vid, l.av)
  }

  ghost predicate LegInv(c: Cid, l: Leg, feed: seq<Frame>, pipe: seq<Msg>, routable: bool, ses: bool)
  {
    && UpInv(c, l, feed, ses)
    && (l.served == [] ==> Idle(l) && pipe == [])
    && (l.phase.Dialed? ==> !routable)
    && Writer(l.emitted, l.order, l.ctl, l.blk)
    && DownInv(l, pipe, routable)
  }

  ghost predicate Routable(s: Net, c: Cid)
  {
    c in s.clients || exists f :: f in s.held && f.c == c
  }

  ghost predicate LegOk(s: Net, c: Cid)
    requires c in s.legs
  {
    LegInv(c, s.legs[c], Feed(s, c), PipeFor(s, c), Routable(s, c), c in s.sessions)
  }

  ghost predicate Known(fs: seq<Frame>, cs: set<Cid>)
  {
    forall f | f in fs :: f.c in cs
  }

  ghost predicate AllData(fs: seq<Frame>, cs: set<Cid>)
  {
    forall f | f in fs :: f.c in cs && f.Data?
  }

  /** Every frame in flight belongs to a known phone; the PC sends only Data. */
  ghost predicate Shape(s: Net)
  {
    && |s.held| <= 1
    && s.clients <= s.legs.Keys && s.sessions <= s.legs.Keys
    && Known(s.down, s.legs.Keys) && Known(s.toHost, s.legs.Keys)
    && AllData(s.held, s.legs.Keys) && AllData(s.up, s.legs.Keys) && AllData(s.hostOut, s.legs.Keys)
  }

  ghost predicate Inv(s: Net)
  {
    Shape(s) && forall c {:trigger LegOk(s, c)} | c in s.legs :: LegOk(s, c)
  }

  function View(s: Net, c: Cid): Channel
    requires c in s.legs
  {
    var l := s.legs[c];
    Channel(l.sent, l.inbox, l.emitted, Must(l.seen), l.av, Av(l.seen))
  }
}
