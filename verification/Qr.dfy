/** The QR code's URL: what the PC prints and what the phone reads back. */
module Qr {
  import opened Basics
  import opened Uri

  // ------------------------------------------------------------------- printing

  /** The relay registration the PC holds. */
  datatype RelayInfo = RelayInfo(baseUrl: string, hostId: string)

  function BuildPayload(host: string, port: nat, code: string, key: string): string
  {
    "rc://" + host + ":" + Dec(port) + "/?v=" + Dec(PROTOCOL_VERSION) + "&c=" + code + "&k=" + key
  }

  function TrimStartMatches(s: string, p: string): string
    requires p != ""
    decreases |s|
  {
    if p <= s then TrimStartMatches(s[|p|..], p) else s
  }

  function TrimEndMatches(s: string, c: char): string
  {
    if s != "" && Last(s) == c then TrimEndMatches(Front(s), c) else s
  }

  function Stripped(baseUrl: string): string
  {
    TrimEndMatches(TrimStartMatches(TrimStartMatches(baseUrl, "https://"), "http://"), '/')
  }

  function BuildCombinedPayload(
    lanHost: string, lanPort: nat, code: string, key: string, relay: Option<RelayInfo>): string
  {
    var base := BuildPayload(lanHost, lanPort, code, key);
    if relay.None? then base
    else
      var https := "https://" <= relay.value.baseUrl;
      var stripped := Stripped(relay.value.baseUrl);
      var authority := if ':' in stripped then stripped else stripped + ":" + Dec(if https then 443 else 80);
      base + "&rh=" + authority + "&rid=" + relay.value.hostId + "&rtls=" + Dec(if https then 1 else 0)
  }

  // -------------------------------------------------------------------- parsing

  datatype QrPayload = QrPayload(
    host: string, port: int, code: string, key: string, version: int,
    relayHostId: Option<string>, secure: bool, fallback: Option<QrPayload>)
  {
    function WsUrl(): string
    {
      (if secure then "wss://" else "ws://") + host + ":" + (if port < 0 then "-" else "") + Dec(Abs(port)) +
      if relayHostId.Some? then "/v1/client?host=" + relayHostId.value else "/ws"
    }
  }

  predicate Space(c: char)
  {
    var n := c as int;
    || 0x09 <= n <= 0x0D || 0x1C <= n <= 0x20 || n == 0xA0 || n == 0x1680 || 0x2000 <= n <= 0x200A
    || n == 0x2028 || n == 0x2029 || n == 0x202F || n == 0x205F || n == 0x3000
  }

  predicate Blank(s: string) { forall c | c in s :: Space(c) }

  function NonBlank(s: Option<string>): Option<string>
  {
    if s.None? || Blank(s.value) then None else s
  }

  function Trim(s: string): string
    decreases |s|
  {
    if s == "" then s
    else if Space(s[0]) then Trim(s[1..])
    else if Space(Last(s)) then Trim(Front(s))
    else s
  }

  function Lower(s: string): string
  {
    seq(|s|, i requires 0 <= i < |s| => if 'A' <= s[i] <= 'Z' then (s[i] as int + 32) as char else s[i])
  }

  function Host(authority: string): string
  {
    var i := LastIndexOf(authority, '@') + 1;
    var a := authority[i..];
    var p := PortSeparator(a);
    if p < 0 then a else a[..p]
  }

  function Port(authority: string): int
  {
    var p := PortSeparator(authority);
    var n := if p < 0 then None else ToIntOrNull(authority[p + 1..]);
    if n.None? then -1 else n.value
  }

  function ParseAuthority(authority: string, tls: bool): Option<(string, int)>
  {
    var i := LastIndexOf(authority, ':');
    if i <= 0 then Some((authority, if tls then 443 else 80))
    else
      var port := ToIntOrNull(authority[i + 1..]);
      if port.None? then None else Some((authority[..i], port.value))
  }

  function BuildFallback(rh: Option<string>, rid: Option<string>, rtls: Option<string>,
                         version: int, code: string, key: string): Option<QrPayload>
  {
    if rh.None? || rid.None? then None
    else
      var tls := rtls != Some("0");
      var at := ParseAuthority(rh.value, tls);
      if at.None? then None
      else Some(QrPayload(at.value.0, at.value.1, code, key, version, rid, tls, None))
  }

  function QueryParam(u: Parts, key: string): Option<string>
  {
    if u.query.None? then None else Param(u.query.value, key)
  }

  function Version(u: Parts): Option<int>
  {
    var v := QueryParam(u, "v");
    if v.None? then None else ToIntOrNull(v.value)
  }

  function ParseLan(u: Parts): Option<QrPayload>
  {
    if u.authority.None? || Port(u.authority.value) <= 0 then None
    else
      var version, code, key := Version(u), NonBlank(QueryParam(u, "c")), NonBlank(QueryParam(u, "k"));
      if version.None? || code.None? || key.None? then None
      else
        var fallback := BuildFallback(NonBlank(QueryParam(u, "rh")), NonBlank(QueryParam(u, "rid")), QueryParam(u, "rtls"),
                                      version.value, code.value, key.value);
        Some(QrPayload(Host(u.authority.value), Port(u.authority.value), code.value, key.value, version.value,
                       None, false, fallback))
  }

  function ParseRelay(u: Parts): Option<QrPayload>
  {
    if u.authority.None? then None
    else
      var version, code, key := Version(u), NonBlank(QueryParam(u, "c")), NonBlank(QueryParam(u, "k"));
      var hostId := NonBlank(QueryParam(u, "host"));
      if version.None? || code.None? || key.None? || hostId.None? then None
      else
        var tls := QueryParam(u, "tls") != Some("0");
        var port := Port(u.authority.value);
        Some(QrPayload(Host(u.authority.value), if port > 0 then port else if tls then 443 else 80,
                       code.value, key.value, version.value, hostId, tls, None))
  }

  function Parse(raw: string): Option<QrPayload>
  {
    var u := Split(Trim(raw));
    if u.None? then None
    else if Lower(u.value.scheme) == "rc" then ParseLan(u.value)
    else if Lower(u.value.scheme) == "rcrelay" then ParseRelay(u.value)
    else None
  }

  /** Whatever is scanned, a fallback has no fallback of its own. */
  lemma FallbackIsLast(raw: string)
    ensures Parse(raw).Some? && Parse(raw).value.fallback.Some? ==> Parse(raw).value.fallback.value.fallback.None?
  {
  }

  // ----------------------------------------------------------------- round trip

  /** Unreserved characters of section 2.3 of RFC 3986, which include the base64url
      alphabet of section 5 of RFC 4648. */
  predicate Unreserved(c: char)
  {
    'a' <= c <= 'z' || 'A' <= c <= 'Z' || Digit(c) || c in "-._~"
  }

  predicate Word(s: string) { s != "" && forall c | c in s :: Unreserved(c) }

  /** A registered name or IPv4 address, or a bracketed address literal. */
  predicate HostName(s: string)
  {
    || Word(s)
    || (|s| > 2 && s[0] == '[' && Last(s) == ']' && forall c | c in s[1..|s| - 1] :: Unreserved(c) || c == ':')
  }

  /** A relay URL: scheme, host, optional port, trailing slashes. */
  datatype RelayUrl = RelayUrl(https: bool, host: string, port: Option<nat>, slashes: nat)

  predicate ValidUrl(u: RelayUrl) { HostName(u.host) && (u.port.Some? ==> u.port.value < 0x1_0000) }

  function Slashes(n: nat): string { if n == 0 then "" else Slashes(n - 1) + "/" }

  function AuthorityOf(u: RelayUrl): string
  {
    u.host + if u.port.Some? then ":" + Dec(u.port.value) else ""
  }

  function UrlText(u: RelayUrl): string
  {
    (if u.https then "https://" else "http://") + AuthorityOf(u) + Slashes(u.slashes)
  }

  function PortOf(u: RelayUrl): nat
  {
    if u.port.Some? then u.port.value else if u.https then 443 else 80
  }

  lemma {:induction false} TrimSlashes(s: string, n: nat)
    requires s != "" && Last(s) != '/'
    ensures TrimEndMatches(s + Slashes(n), '/') == s
  {
    if n == 0 {
      assert s + "" == s;
    } else {
      assert Front(s + Slashes(n)) == s + Slashes(n - 1);
      TrimSlashes(s, n - 1);
    }
  }

  lemma HostChars(h: string)
    requires HostName(h)
    ensures forall c | c in h :: Unreserved(c) || c in ":[]"
    ensures h != "" && h[0] != ':' && Last(h) != '/' && (Last(h) == ']' || Unreserved(Last(h)))
    ensures ':' !in h || (Last(h) == ']' && h[0] == '[')
  {
    if !Word(h) {
      assert h == [h[0]] + h[1..|h| - 1] + [Last(h)];
    } else {
      assert h[0] in h && Last(h) in h;
    }
  }

  lemma TrimOnce(p: string, tail: string)
    requires p != "" && !(p <= tail)
    ensures TrimStartMatches(p + tail, p) == tail && TrimStartMatches(tail, p) == tail
  {
    assert (p + tail)[|p|..] == tail;
  }

  lemma StrippedIs(u: RelayUrl)
    requires ValidUrl(u)
    ensures Stripped(UrlText(u)) == AuthorityOf(u) && ("https://" <= UrlText(u) <==> u.https)
  {
    hide TrimEndMatches;
    hide TrimStartMatches;
    hide HostName;
    var a, tail := AuthorityOf(u), AuthorityOf(u) + Slashes(u.slashes);
    NoScheme(u, a, tail);
    SchemeOff(u.https, tail);
    assert UrlText(u) == (if u.https then "https://" else "http://") + tail;
    AuthorityEnds(u);
    TrimSlashes(a, u.slashes);
  }

  lemma SchemeOff(https: bool, tail: string)
    requires !("https://" <= tail) && !("http://" <= tail)
    ensures var t := (if https then "https://" else "http://") + tail;
            && TrimStartMatches(TrimStartMatches(t, "https://"), "http://") == tail
            && ("https://" <= t <==> https)
  {
    TrimOnce("https://", tail);
    TrimOnce("http://", tail);
    var t := "http://" + tail;
    assert t[4] == ':' && "https://"[4] == 's';
  }

  lemma AuthorityEnds(u: RelayUrl)
    requires ValidUrl(u)
    ensures var a := AuthorityOf(u); a != "" && Last(a) != '/' && Last(a) != ':' && '/' !in a
  {
    HostChars(u.host);
    if u.port.Some? {
      var d := Dec(u.port.value);
      assert Last(AuthorityOf(u)) == Last(d) && Last(d) in d;
    } else {
      assert AuthorityOf(u) == u.host && Last(u.host) in u.host;
    }
  }

  /** What follows the scheme does not start with another one. */
  lemma NoScheme(u: RelayUrl, a: string, tail: string)
    requires ValidUrl(u) && a == AuthorityOf(u) && tail == a + Slashes(u.slashes)
    ensures !("https://" <= tail) && !("http://" <= tail)
  {
    AuthorityEnds(u);
    SlashesOnly(u.slashes);
    if "https://" <= tail {
      ColonInside(a, Slashes(u.slashes), 5);
    }
    if "http://" <= tail {
      ColonInside(a, Slashes(u.slashes), 4);
    }
  }

  lemma ColonInside(a: string, slashes: string, k: nat)
    requires a != "" && Last(a) != ':' && '/' !in a && forall c | c in slashes :: c == '/'
    requires k + 1 < |a + slashes| && (a + slashes)[k] == ':'
    ensures (a + slashes)[k + 1] != '/'
  {
    assert forall i | 0 <= i < |slashes| :: slashes[i] in slashes;
    assert forall i | 0 <= i < |a| :: a[i] in a;
  }

  lemma {:induction false} SlashesOnly(n: nat)
    ensures forall c | c in Slashes(n) :: c == '/'
  {
    if n > 0 {
      SlashesOnly(n - 1);
    }
  }

  function Printed(u: RelayUrl): string
  {
    var a := AuthorityOf(u);
    if ':' in a then a else a + ":" + Dec(if u.https then 443 else 80)
  }

  /** The authority the PC prints, read back by the phone. */
  lemma AuthorityTrip(u: RelayUrl)
    requires ValidUrl(u)
    ensures ParseAuthority(Printed(u), u.https) == if ':' in u.host && u.port.None? then None else Some((u.host, PortOf(u)))
  {
    hide ParseAuthority;
    HostChars(u.host);
    if u.port.Some? {
      var d := Dec(u.port.value);
      assert AuthorityOf(u) == u.host + ":" + d && AuthorityOf(u)[|u.host|] == ':';
      WithPort(u.host, PortOf(u), u.https);
    } else {
      assert AuthorityOf(u) == u.host;
      if ':' in u.host {
        BareLiteral(u.host);
      } else {
        WithPort(u.host, PortOf(u), u.https);
      }
    }
  }

  lemma WithPort(host: string, port: nat, tls: bool)
    requires host != "" && port < 0x1_0000
    ensures ParseAuthority(host + ":" + Dec(port), tls) == Some((host, port))
  {
    var d := Dec(port);
    DecInt(port);
    assert ':' !in d;
    LastCut(host, ':', d);
    assert (host + ":" + d)[|host| + 1..] == d && (host + ":" + d)[..|host|] == host;
  }

  /** An address literal without a port is taken apart at a colon of its own. */
  lemma BareLiteral(h: string)
    requires HostName(h) && ':' in h
    ensures forall tls :: ParseAuthority(h, tls) == None
  {
    HostChars(h);
    LastIndexIs(h, ':');
    var i := LastIndexOf(h, ':');
    assert h[i] == ':' && i > 0;
    var tail := h[i + 1..];
    assert tail != "" && Last(tail) == Last(h) == ']';
    assert |tail| > 1 ==> Last(tail[1..]) == ']';
  }

  /** One more literal `&k=` and its value, after `u` and the query so far. */
  lemma Grow(u: string, ps: seq<(string, string)>, k: string, v: string, literal: string)
    requires ps != [] && literal == "&" + k + "="
    ensures u + Pairs(ps) + literal + v == u + Pairs(ps + [(k, v)])
  {
    var q := Pairs(ps);
    assert Front(ps + [(k, v)]) == ps;
    assert u + q + literal + v == u + (q + "&" + Piece(k, v));
  }

  function Prefix(host: string, port: nat): string { "rc://" + (host + ":" + Dec(port)) + "/?" }

  function LanPairs(code: string, key: string): seq<(string, string)>
  {
    [("v", "6"), ("c", code), ("k", key)]
  }

  function RelayPairs(code: string, key: string, rh: string, rid: string, tls: string): seq<(string, string)>
  {
    LanPairs(code, key) + [("rh", rh), ("rid", rid), ("rtls", tls)]
  }

  lemma LanText(host: string, port: nat, code: string, key: string)
    ensures BuildPayload(host, port, code, key) == Prefix(host, port) + Pairs(LanPairs(code, key))
  {
    var u := Prefix(host, port);
    assert Dec(PROTOCOL_VERSION) == "6";
    assert "rc://" + host + ":" + Dec(port) + "/?v=" + "6" == u + Pairs([("v", "6")]);
    Grow(u, [("v", "6")], "c", code, "&c=");
    Grow(u, [("v", "6")] + [("c", code)], "k", key, "&k=");
    assert [("v", "6")] + [("c", code)] + [("k", key)] == LanPairs(code, key);
  }

  lemma CombinedText(host: string, port: nat, code: string, key: string, u: RelayUrl, hostId: string)
    requires ValidUrl(u)
    ensures BuildCombinedPayload(host, port, code, key, Some(RelayInfo(UrlText(u), hostId))) ==
            Prefix(host, port) + Pairs(RelayPairs(code, key, Printed(u), hostId, if u.https then "1" else "0"))
  {
    hide Pairs;
    hide Stripped;
    hide BuildPayload;
    StrippedIs(u);
    LanText(host, port, code, key);
    var p, ps, tls := Prefix(host, port), LanPairs(code, key), if u.https then "1" else "0";
    assert Dec(if u.https then 1 else 0) == tls;
    Grow(p, ps, "rh", Printed(u), "&rh=");
    Grow(p, ps + [("rh", Printed(u))], "rid", hostId, "&rid=");
    Grow(p, ps + [("rh", Printed(u))] + [("rid", hostId)], "rtls", tls, "&rtls=");
    assert ps + [("rh", Printed(u))] + [("rid", hostId)] + [("rtls", tls)] ==
           RelayPairs(code, key, Printed(u), hostId, tls);
  }

  // -------------------------------------------------------------- whole QR codes

  predicate Plain(s: string) { '&' !in s && '#' !in s && forall c | c in s :: !Space(c) }

  lemma {:induction false} PairsPlain(ps: seq<(string, string)>)
    requires ps != [] && forall p | p in ps :: Plain(p.0) && Plain(p.1)
    ensures Pairs(ps) != "" && '#' !in Pairs(ps) && !Space(Last(Pairs(ps)))
  {
    assert Last(ps) in ps;
    var piece := Piece(Last(ps).0, Last(ps).1);
    assert Last(piece) == '=' || Last(piece) in Last(ps).1;
    if |ps| > 1 {
      PairsPlain(Front(ps));
      assert Last(Pairs(ps)) == Last(piece);
    }
  }

  /** The printed URL, as the phone's parser cuts it. */
  lemma SplitTrip(a: string, query: string)
    requires forall c | c in a :: c !in "/\\?#"
    requires query != "" && !Space(Last(query)) && '#' !in query
    ensures var url := "rc://" + a + "/?" + query;
            Trim(url) == url && Split(url) == Some(Parts("rc", Some(a), Some(query)))
  {
    hide Authority;
    hide Before;
    hide After;
    var url, rest := "rc://" + a + "/?" + query, "//" + a + "/?" + query;
    assert url == "rc" + ":" + rest;
    Cut("rc", ':', rest);
    assert rest[2..] == a + ("/?" + query);
    AuthorityIs(a, "/?" + query);
    NoHash(a, query);
    Cut(rest, '#', "");
    assert rest == "//" + a + "/" + "?" + query;
    Cut("//" + a + "/", '?', query);
  }

  lemma NoHash(a: string, query: string)
    requires '#' !in a && '#' !in query
    ensures '#' !in "//" + a + "/?" + query
  {
  }

  lemma AuthorityChars(host: string, port: nat)
    requires HostName(host)
    ensures forall c | c in host + ":" + Dec(port) :: c !in "/\\?#" && c != '@'
  {
    HostChars(host);
  }

  lemma NoUserInfo(a: string)
    requires forall c | c in a :: c != '@'
    ensures LastIndexOf(a, '@') == -1
  {
    LastIndexIs(a, '@');
  }

  lemma HostPortTrip(host: string, port: nat)
    requires HostName(host) && port <= INT_MAX
    ensures Host(host + ":" + Dec(port)) == host && Port(host + ":" + Dec(port)) == port
  {
    hide HostName;
    hide PortSeparator;
    hide ToIntOrNull;
    hide LastIndexOf;
    hide Dec;
    var d := Dec(port);
    var a := host + ":" + d;
    NoUserInfo(a) by {
      AuthorityChars(host, port);
    }
    PortSeparatorIs(host, d);
    DecInt(port);
    Halves(host, d);
  }

  lemma Halves(host: string, d: string)
    ensures var a := host + ":" + d; a[0..] == a && a[..|host|] == host && a[|host| + 1..] == d
  {
  }

  lemma WordIs(s: string)
    requires Word(s)
    ensures !Blank(s) && Plain(s)
  {
    assert s[0] in s;
  }

  lemma PrintedIs(u: RelayUrl)
    requires ValidUrl(u)
    ensures !Blank(Printed(u)) && Plain(Printed(u))
  {
    HostChars(u.host);
    assert Printed(u)[0] == u.host[0] && u.host[0] in u.host;
    assert u.host[0] in Printed(u);
    hide HostName;
  }

  /** From the printed text to what the phone's parser works on. */
  lemma PrintedParts(host: string, port: nat, ps: seq<(string, string)>)
    requires HostName(host) && port <= INT_MAX
    requires ps != [] && forall p | p in ps :: Plain(p.0) && Plain(p.1) && '=' !in p.0
    ensures var u := Parts("rc", Some(host + ":" + Dec(port)), Some(Pairs(ps)));
            Parse(Prefix(host, port) + Pairs(ps)) == ParseLan(u) && forall k :: QueryParam(u, k) == Lookup(ps, k)
  {
    hide Pairs;
    hide ParseLan;
    hide HostName;
    hide Param;
    PairsPlain(ps);
    AuthorityChars(host, port);
    SplitTrip(host + ":" + Dec(port), Pairs(ps));
    forall k ensures Param(Pairs(ps), k) == Lookup(ps, k) { PairsParam(ps, k); }
    assert Lower("rc") == "rc";
  }

  lemma VersionTrip()
    ensures ToIntOrNull("6") == Some(PROTOCOL_VERSION)
  {
    DecInt(6);
    assert Dec(6) == "6";
  }

  lemma LanLookups(code: string, key: string)
    ensures var ps := LanPairs(code, key);
            && Lookup(ps, "v") == Some("6") && Lookup(ps, "c") == Some(code) && Lookup(ps, "k") == Some(key)
            && forall n | n in {"rh", "rid", "rtls"} :: Lookup(ps, n).None?
  {
    assert [] + [("v", "6")] + [("c", code)] + [("k", key)] == LanPairs(code, key);
    assert forall n :: Lookup([], n).None?;
    LookupSnoc([], "v", "6");
    LookupSnoc([] + [("v", "6")], "c", code);
    LookupSnoc([] + [("v", "6")] + [("c", code)], "k", key);
  }

  lemma RelayLookups(code: string, key: string, rh: string, rid: string, tls: string)
    ensures var ps := RelayPairs(code, key, rh, rid, tls);
            && Lookup(ps, "v") == Some("6") && Lookup(ps, "c") == Some(code) && Lookup(ps, "k") == Some(key)
            && Lookup(ps, "rh") == Some(rh) && Lookup(ps, "rid") == Some(rid) && Lookup(ps, "rtls") == Some(tls)
  {
    hide Lookup;
    LanLookups(code, key);
    var lan := LanPairs(code, key);
    assert lan + [("rh", rh)] + [("rid", rid)] + [("rtls", tls)] == RelayPairs(code, key, rh, rid, tls);
    LookupSnoc(lan, "rh", rh);
    LookupSnoc(lan + [("rh", rh)], "rid", rid);
    LookupSnoc(lan + [("rh", rh)] + [("rid", rid)], "rtls", tls);
  }

  /** What the parser makes of those parameters. */
  lemma LanParse(u: Parts, host: string, port: nat, code: string, key: string)
    requires u.authority.Some? && Host(u.authority.value) == host && Port(u.authority.value) == port > 0
    requires Version(u) == Some(PROTOCOL_VERSION) && QueryParam(u, "c") == Some(code) && QueryParam(u, "k") == Some(key)
    requires QueryParam(u, "rh").None? && QueryParam(u, "rid").None? && QueryParam(u, "rtls").None?
    requires !Blank(code) && !Blank(key)
    ensures ParseLan(u) == Some(QrPayload(host, port, code, key, PROTOCOL_VERSION, None, false, None))
  {
    hide Host, Port, QueryParam, Blank;
  }

  /** The LAN QR code reads back as exactly what was printed. */
  lemma LanTrip(host: string, port: nat, code: string, key: string)
    requires HostName(host) && 0 < port < 0x1_0000 && Word(code) && Word(key)
    ensures Parse(BuildPayload(host, port, code, key)) ==
            Some(QrPayload(host, port, code, key, PROTOCOL_VERSION, None, false, None))
  {
    hide Parse, ParseLan, Pairs, Lookup, BuildPayload, HostName, Host, Port, Word, Blank;
    LanText(host, port, code, key);
    WordIs(code);
    WordIs(key);
    PrintedParts(host, port, LanPairs(code, key));
    LanLookups(code, key);
    HostPortTrip(host, port);
    VersionTrip();
    LanParse(Parts("rc", Some(host + ":" + Dec(port)), Some(Pairs(LanPairs(code, key)))), host, port, code, key);
  }

  /** What the combined code must read back as. An IPv6 literal without a port is the
      one shape of relay URL whose fallback the phone loses. */
  function Expected(host: string, port: nat, code: string, key: string, u: RelayUrl, hostId: string): QrPayload
  {
    QrPayload(host, port, code, key, PROTOCOL_VERSION, None, false,
      if ':' in u.host && u.port.None? then None
      else Some(QrPayload(u.host, PortOf(u), code, key, PROTOCOL_VERSION, Some(hostId), u.https, None)))
  }

  lemma RelayPlain(code: string, key: string, rh: string, rid: string, tls: string)
    requires Plain(code) && Plain(key) && Plain(rh) && Plain(rid) && Plain(tls)
    ensures RelayPairs(code, key, rh, rid, tls) != []
    ensures forall p | p in RelayPairs(code, key, rh, rid, tls) :: Plain(p.0) && Plain(p.1) && '=' !in p.0
  {
  }

  /** What the parser makes of those parameters. */
  lemma CombinedParse(u: Parts, host: string, port: nat, code: string, key: string, r: RelayUrl, hostId: string)
    requires u.authority.Some? && Host(u.authority.value) == host && Port(u.authority.value) == port > 0 && ValidUrl(r)
    requires Version(u) == Some(PROTOCOL_VERSION) && QueryParam(u, "c") == Some(code) && QueryParam(u, "k") == Some(key)
    requires QueryParam(u, "rh") == Some(Printed(r)) && QueryParam(u, "rid") == Some(hostId)
    requires QueryParam(u, "rtls") == Some(if r.https then "1" else "0")
    requires !Blank(code) && !Blank(key) && !Blank(Printed(r)) && !Blank(hostId)
    ensures ParseLan(u) == Some(Expected(host, port, code, key, r, hostId))
  {
    hide Host;
    hide Port;
    hide QueryParam;
    hide ParseAuthority;
    hide Blank;
    AuthorityTrip(r);
    assert "1" != "0";
  }

  lemma CombinedTrip(host: string, port: nat, code: string, key: string, u: RelayUrl, hostId: string)
    requires HostName(host) && 0 < port < 0x1_0000 && Word(code) && Word(key) && ValidUrl(u) && Word(hostId)
    ensures Parse(BuildCombinedPayload(host, port, code, key, Some(RelayInfo(UrlText(u), hostId)))) ==
            Some(Expected(host, port, code, key, u, hostId))
  {
    hide Parse;
    hide Pairs;
    hide Lookup;
    hide BuildCombinedPayload;
    hide ParseLan;
    hide RelayPairs;
    hide Host;
    hide Port;
    hide Printed;
    hide Expected;
    hide HostName;
    hide Word;
    hide Blank;
    var rh, tls := Printed(u), if u.https then "1" else "0";
    CombinedText(host, port, code, key, u, hostId);
    PrintedIs(u);
    WordIs(code);
    WordIs(key);
    WordIs(hostId);
    RelayPlain(code, key, rh, hostId, tls);
    RelayLookups(code, key, rh, hostId, tls);
    PrintedParts(host, port, RelayPairs(code, key, rh, hostId, tls));
    HostPortTrip(host, port);
    VersionTrip();
    CombinedParse(Parts("rc", Some(host + ":" + Dec(port)), Some(Pairs(RelayPairs(code, key, rh, hostId, tls)))),
                  host, port, code, key, u, hostId);
  }

  /** What a scan dials: the LAN code the PC's own endpoint, its fallback the relay, by that
      relay's scheme, host and port and under the PC's host id. */
  lemma ScanDials(host: string, port: nat, code: string, key: string, u: RelayUrl, hostId: string)
    requires HostName(host) && 0 < port < 0x1_0000 && Word(code) && Word(key) && ValidUrl(u) && Word(hostId)
    ensures var lan := Parse(BuildPayload(host, port, code, key));
            lan.Some? && lan.value.WsUrl() == "ws://" + host + ":" + Dec(port) + "/ws" && lan.value.fallback.None?
    ensures var p := Parse(BuildCombinedPayload(host, port, code, key, Some(RelayInfo(UrlText(u), hostId))));
            && p.Some? && p.value.WsUrl() == "ws://" + host + ":" + Dec(port) + "/ws"
            && (p.value.fallback.Some? <==> !(':' in u.host && u.port.None?))
            && (p.value.fallback.Some? ==>
                  p.value.fallback.value.WsUrl() ==
                  (if u.https then "wss://" else "ws://") + u.host + ":" + Dec(PortOf(u)) + "/v1/client?host=" + hostId)
  {
    hide Parse, BuildPayload, BuildCombinedPayload, HostName, Word, ValidUrl, Dec;
    LanTrip(host, port, code, key);
    CombinedTrip(host, port, code, key, u, hostId);
    UrlIs(host, port, code, key, PROTOCOL_VERSION, None, false, None);
    UrlIs(u.host, PortOf(u), code, key, PROTOCOL_VERSION, Some(hostId), u.https, None);
    var e := Expected(host, port, code, key, u, hostId);
    UrlIs(host, port, code, key, PROTOCOL_VERSION, None, false, e.fallback);
  }

  lemma UrlIs(host: string, port: nat, code: string, key: string, version: int, hostId: Option<string>, secure: bool,
              fallback: Option<QrPayload>)
    ensures QrPayload(host, port, code, key, version, hostId, secure, fallback).WsUrl() ==
            (if secure then "wss://" else "ws://") + host + ":" + Dec(port) +
            if hostId.Some? then "/v1/client?host=" + hostId.value else "/ws"
  {
    assert ":" + "" == ":";
    var a := (if secure then "wss://" else "ws://") + host + ":";
    assert a + "" == a;
  }
}
