/** The phone's dialling: which socket is current, the one relay fallback, and callbacks
    that arrive late from sockets long replaced. */
module Dial {
  import opened Basics
  import opened Qr

  datatype ConnState = Idle | Connecting | Connected | Failed

  datatype Hello = NoHello | QrHello(code: string) | TrustedHello(deviceId: string)

  /** Sockets are numbered in the order they were dialled; `dialled` lists their URLs. */
  datatype Dialer = Dialer(
    socket: Option<nat>, fallback: Option<QrPayload>, state: ConnState, wsUrl: string, hello: Hello,
    dialled: seq<string>, fileAborts: nat)

  const START := Dialer(None, None, Idle, "", NoHello, [], 0)

  function Disconnected(d: Dialer): Dialer
  {
    d.(socket := None, state := Idle, fileAborts := d.fileAborts + 1)
  }

  function NewSocket(d: Dialer, url: string, hello: Hello): Dialer
  {
    d.(socket := Some(|d.dialled|), state := Connecting, wsUrl := url, hello := hello, dialled := d.dialled + [url])
  }

  /** `keyOk`: the key decodes as base64url; otherwise connect throws halfway. */
  function QrDial(d: Dialer, p: QrPayload, keyOk: bool): Dialer
  {
    if !keyOk then Disconnected(d).(state := Connecting)
    else NewSocket(Disconnected(d), p.WsUrl(), QrHello(p.code)).(fallback := p.fallback)
  }

  function TrustedDial(d: Dialer, url: string, deviceId: string): Dialer
  {
    NewSocket(Disconnected(d), url, TrustedHello(deviceId))
  }

  function Failure(d: Dialer, ws: nat, keyOk: bool): Dialer
  {
    if d.socket != Some(ws) then d
    else
      var a := d.(fileAborts := d.fileAborts + 1, socket := None);
      if a.fallback.Some? then QrDial(a.(fallback := None), a.fallback.value, keyOk) else a.(state := Failed)
  }

  function Closed(d: Dialer, ws: nat): Dialer
  {
    if d.socket != Some(ws) then d
    else d.(socket := None, state := if d.state.Connected? then Idle else d.state, fileAborts := d.fileAborts + 1)
  }

  class Client {
    var webSocket: Option<nat>
    var pendingFallback: Option<QrPayload>
    var state: ConnState
    var pendingWsUrl: string
    var pendingHello: Hello
    var dialled: seq<string>
    var fileAborts: nat

    ghost function View(): Dialer
      reads this
    {
      Dialer(webSocket, pendingFallback, state, pendingWsUrl, pendingHello, dialled, fileAborts)
    }

    constructor ()
      ensures View() == START
    {
      webSocket, pendingFallback, state := None, None, Idle;
      pendingWsUrl, pendingHello, dialled, fileAborts := "", NoHello, [], 0;
    }

    method Disconnect()
      modifies this
      ensures View() == Disconnected(old(View()))
    {
      webSocket := None;
      state := Idle;
      fileAborts := fileAborts + 1;
    }

    method Open(url: string) returns (ws: nat)
      modifies this`dialled
      ensures ws == |old(dialled)| && dialled == old(dialled) + [url]
    {
      ws := |dialled|;
      dialled := dialled + [url];
    }

    method Connect(payload: QrPayload, keyOk: bool)
      modifies this
      ensures View() == QrDial(old(View()), payload, keyOk)
    {
      Disconnect();
      state := Connecting;
      if !keyOk {
        return;
      }
      pendingWsUrl := payload.WsUrl();
      pendingHello := QrHello(payload.code);
      pendingFallback := payload.fallback;
      var ws := Open(payload.WsUrl());
      webSocket := Some(ws);
    }

    method ConnectTrusted(url: string, deviceId: string)
      modifies this
      ensures View() == TrustedDial(old(View()), url, deviceId)
    {
      Disconnect();
      state := Connecting;
      pendingWsUrl := url;
      pendingHello := TrustedHello(deviceId);
      var ws := Open(url);
      webSocket := Some(ws);
    }

    method OnFailure(ws: nat, keyOk: bool)
      modifies this
      ensures View() == Failure(old(View()), ws, keyOk)
    {
      if webSocket != Some(ws) {
        return;
      }
      fileAborts := fileAborts + 1;
      var fb := pendingFallback;
      if fb.Some? {
        pendingFallback := None;
        webSocket := None;
        Connect(fb.value, keyOk);
        return;
      }
      state := Failed;
      webSocket := None;
    }

    method OnClosed(ws: nat)
      modifies this
      ensures View() == Closed(old(View()), ws)
    {
      if webSocket != Some(ws) {
        return;
      }
      webSocket := None;
      if state == Connected {
        state := Idle;
      }
      fileAborts := fileAborts + 1;
    }
  }

  // --------------------------------------------------------------------- runs

  datatype Event =
    | Scan(payload: QrPayload, keyOk: bool)
    | Reconnect(url: string, deviceId: string)
    | UserDisconnects
    | Fails(ws: nat, keyOk: bool)
    | Closes(ws: nat)
    | Verdict(ok: bool)         // a Welcome accepted, or an error message

  function Next(d: Dialer, e: Event): Dialer
  {
    match e
    case Scan(p, keyOk) => QrDial(d, p, keyOk)
    case Reconnect(url, id) => TrustedDial(d, url, id)
    case UserDisconnects => Disconnected(d)
    case Fails(ws, keyOk) => Failure(d, ws, keyOk)
    case Closes(ws) => Closed(d, ws)
    case Verdict(ok) => d.(state := if ok then Connected else Failed)
  }

  function After(d: Dialer, es: seq<Event>): Dialer
  {
    if es == [] then d else Next(After(d, Front(es)), Last(es))
  }

  /** The current socket, when there is one, is the last one dialled, and the URL kept
      for the trust store is the one it was dialled on. */
  ghost predicate Current(d: Dialer)
  {
    d.socket.Some? ==> d.socket.value + 1 == |d.dialled| && d.wsUrl == Last(d.dialled)
  }

  lemma {:induction false} CurrentIsLatest(es: seq<Event>)
    ensures Current(After(START, es))
  {
    if es != [] {
      CurrentIsLatest(Front(es));
    }
  }

  /** In every reachable state, a failure or close reported by any socket but the last
      one dialled changes nothing at all; so does one reported after a disconnect. */
  lemma StaleIgnored(es: seq<Event>, ws: nat, keyOk: bool)
    ensures var d := After(START, es);
            ws + 1 != |d.dialled| || d.socket.None? ==> Failure(d, ws, keyOk) == d && Closed(d, ws) == d
  {
    CurrentIsLatest(es);
  }

  /** Whenever the current socket goes or is replaced, downloads under way are aborted. */
  lemma LossAborts(es: seq<Event>, e: Event)
    ensures var d := After(START, es);
            d.socket.Some? && Next(d, e).socket != d.socket ==> Next(d, e).fileAborts > d.fileAborts
  {
    CurrentIsLatest(es);
  }

  /** How many fallbacks hang off a payload. */
  function Depth(p: Option<QrPayload>): nat
    decreases p
  {
    if p.None? then 0 else 1 + Depth(p.value.fallback)
  }

  function Budget(es: seq<Event>): nat
  {
    if es == [] then 0
    else Budget(Front(es)) +
         match Last(es) case Scan(p, _) => 1 + Depth(p.fallback) case Reconnect(_, _) => 1 case _ => 0
  }

  /** Every dial is paid for by a scan, one of its fallbacks, or a trusted reconnect. */
  lemma {:induction false} DialsPaid(d: Dialer, es: seq<Event>)
    ensures |After(d, es).dialled| + Depth(After(d, es).fallback) <= |d.dialled| + Depth(d.fallback) + Budget(es)
  {
    if es != [] {
      DialsPaid(d, Front(es));
    }
  }

  ghost predicate Scanned(e: Event)
  {
    e.Scan? ==> exists raw :: Parse(raw) == Some(e.payload)
  }

  predicate IsScan(e: Event) { e.Scan? }

  predicate IsReconnect(e: Event) { e.Reconnect? }

  function Count(es: seq<Event>, p: Event -> bool): nat
  {
    if es == [] then 0 else Count(Front(es), p) + if p(Last(es)) then 1 else 0
  }

  lemma ParsedDepth(e: Event)
    requires Scanned(e) && e.Scan?
    ensures Depth(e.payload.fallback) <= 1
  {
    var raw :| Parse(raw) == Some(e.payload);
    FallbackIsLast(raw);
  }

  lemma {:induction false} BudgetParsed(es: seq<Event>)
    requires forall e | e in es :: Scanned(e)
    ensures Budget(es) <= 2 * Count(es, IsScan) + Count(es, IsReconnect)
  {
    hide Scanned;
    if es != [] {
      var e := Last(es);
      assert e in es;
      BudgetParsed(Front(es));
      if e.Scan? {
        ParsedDepth(e);
      }
    }
  }

  /** Over any interleaving of user actions and callbacks from any number of sockets,
      dials number at most two per scan plus one per trusted reconnect. */
  lemma DialsBounded(es: seq<Event>)
    requires forall e | e in es :: Scanned(e)
    ensures |After(START, es).dialled| <= 2 * Count(es, IsScan) + Count(es, IsReconnect)
  {
    DialsPaid(START, es);
    BudgetParsed(es);
  }

  /** Without a user action, retries end: new dials are at most the pending fallbacks. */
  lemma {:induction false} RetriesEnd(d: Dialer, es: seq<Event>)
    requires forall e | e in es :: !e.Scan? && !e.Reconnect?
    ensures |After(d, es).dialled| - |d.dialled| <= Depth(d.fallback)
  {
    DialsPaid(d, es);
    NoBudget(es);
  }

  lemma {:induction false} NoBudget(es: seq<Event>)
    requires forall e | e in es :: !e.Scan? && !e.Reconnect?
    ensures Budget(es) == 0
  {
    if es != [] {
      assert Last(es) in es;
      NoBudget(Front(es));
    }
  }

  /** Callbacks that do not concern the current socket, and verdicts on its handshake. */
  predicate Idles(e: Event, ws: nat)
  {
    e.Verdict? || ((e.Fails? || e.Closes?) && e.ws != ws)
  }

  /** `d` is dialling or using its socket number `ws`, on `url` and with `hello`; `fallback`
      is what it will turn to. */
  ghost predicate On(d: Dialer, ws: nat, url: string, hello: Hello, fallback: Option<QrPayload>)
  {
    d.socket == Some(ws) && |d.dialled| == ws + 1 && d.dialled[ws] == url && d.wsUrl == url &&
    d.hello == hello && d.fallback == fallback
  }

  lemma {:induction false} StaysOn(d: Dialer, es: seq<Event>, ws: nat, url: string, hello: Hello, fallback: Option<QrPayload>)
    requires On(d, ws, url, hello, fallback) && forall e | e in es :: Idles(e, ws)
    ensures On(After(d, es), ws, url, hello, fallback)
  {
    if es != [] {
      assert Last(es) in es;
      StaysOn(d, Front(es), ws, url, hello, fallback);
    }
  }

  /** A scan dials the payload's URL and says its code. When that socket fails, whatever other
      sockets reported meanwhile, its fallback is dialled in the same way, and only without a
      fallback is the failure shown. */
  lemma ScanFallsBack(d: Dialer, p: QrPayload, es: seq<Event>)
    requires forall e | e in es :: Idles(e, |d.dialled|)
    ensures var ws, a := |d.dialled|, QrDial(d, p, true);
            && On(a, ws, p.WsUrl(), QrHello(p.code), p.fallback) && a.state == Connecting
            && On(After(a, es), ws, p.WsUrl(), QrHello(p.code), p.fallback)
            && var b := Failure(After(a, es), ws, true);
            if p.fallback.Some? then
              var f := p.fallback.value;
              On(b, ws + 1, f.WsUrl(), QrHello(f.code), f.fallback) && b.state == Connecting
            else b.state == Failed && b.socket.None? && b.dialled == After(a, es).dialled
  {
    StaysOn(QrDial(d, p, true), es, |d.dialled|, p.WsUrl(), QrHello(p.code), p.fallback);
  }

  /** From the printed code to the sockets: scanning the PC's combined code dials the PC, and
      when that fails the relay under the PC's host id, unless the code has lost it. */
  lemma PrintedCodeDials(d: Dialer, host: string, port: nat, code: string, key: string, u: RelayUrl, hostId: string)
    requires HostName(host) && 0 < port < 0x1_0000 && Word(code) && Word(key) && ValidUrl(u) && Word(hostId)
    requires !(':' in u.host && u.port.None?)
    ensures var p := Parse(BuildCombinedPayload(host, port, code, key, Some(RelayInfo(UrlText(u), hostId))));
            && p.Some?
            && var a := QrDial(d, p.value, true);
            && a.wsUrl == "ws://" + host + ":" + Dec(port) + "/ws" && a.hello == QrHello(code)
            && var b := Failure(a, |d.dialled|, true);
            && b.dialled == a.dialled + [b.wsUrl] && b.hello == QrHello(code)
            && b.wsUrl == (if u.https then "wss://" else "ws://") + u.host + ":" + Dec(PortOf(u)) + "/v1/client?host=" + hostId
  {
    hide Parse, BuildCombinedPayload, HostName, Word, ValidUrl, Dec;
    CombinedTrip(host, port, code, key, u, hostId);
    ScanDials(host, port, code, key, u, hostId);
  }

  /** A trusted reconnect does not clear a scan's unused fallback: when it fails, the old
      QR code's relay is dialled exactly if that fallback is still pending. */
  lemma TrustedFailureRedials(d: Dialer, url: string, deviceId: string)
    ensures var a := TrustedDial(d, url, deviceId);
            var b := Failure(a, |d.dialled|, true);
            && (b.dialled != a.dialled <==> d.fallback.Some?)
            && (d.fallback.Some? ==> b.wsUrl == d.fallback.value.WsUrl() && b.hello == QrHello(d.fallback.value.code))
            && (d.fallback.None? ==> b.state == Failed && b.socket.None?)
  {
    var a := TrustedDial(d, url, deviceId);
    assert forall s: seq<string>, x :: |s + [x]| > |s|;
  }
}
