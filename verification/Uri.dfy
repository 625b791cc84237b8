/** The pieces of android.net.Uri the QR parser uses: authority and query are cut as in
    sections 3.2 and 3.4 of RFC 3986, without percent-decoding. */
module Uri {
  import opened Basics

  /** The part before the first `c`, or all of `s`. */
  function Before(s: string, c: char): string
  {
    if s == "" || s[0] == c then "" else [s[0]] + Before(s[1..], c)
  }

  /** The part after the first `c`, if there is one. */
  function After(s: string, c: char): Option<string>
  {
    if s == "" then None else if s[0] == c then Some(s[1..]) else After(s[1..], c)
  }

  lemma {:induction false} Cut(p: string, c: char, q: string)
    requires c !in p
    ensures Before(p + [c] + q, c) == p && After(p + [c] + q, c) == Some(q)
    ensures Before(p, c) == p && After(p, c) == None
  {
    var s := p + [c] + q;
    if p == "" {
      assert s[1..] == q;
    } else {
      assert s[1..] == p[1..] + [c] + q && p == [p[0]] + p[1..];
      Cut(p[1..], c, q);
    }
  }

  lemma {:induction false} LastCut(p: string, c: char, q: string)
    requires c !in q
    ensures LastIndexOf(p + [c] + q, c) == |p| && LastIndexOf(q, c) == -1
    decreases |q|
  {
    var s := p + [c] + q;
    if q != "" {
      assert Front(s) == p + [c] + Front(q) && Last(q) in q;
      LastCut(p, c, Front(q));
    }
  }

  lemma {:induction false} LastIndexIs(s: string, c: char)
    ensures var i := LastIndexOf(s, c);
            if c in s then i >= 0 && s == s[..i] + [c] + s[i + 1..] && c !in s[i + 1..] else i == -1
  {
    if s != "" && Last(s) != c {
      LastIndexIs(Front(s), c);
      var i := LastIndexOf(Front(s), c);
      if i >= 0 {
        assert s[i + 1..] == Front(s)[i + 1..] + [Last(s)];
      }
    }
  }

  /** The authority ends at a slash, backslash, question mark or hash. */
  function Authority(s: string): string
  {
    if s == "" || s[0] in "/\\?#" then "" else [s[0]] + Authority(s[1..])
  }

  lemma {:induction false} AuthorityIs(p: string, q: string)
    requires forall c | c in p :: c !in "/\\?#"
    requires q != "" && q[0] in "/\\?#"
    ensures Authority(p + q) == p
  {
    if p == "" {
      assert p + q == q;
    } else {
      assert (p + q)[1..] == p[1..] + q && p[0] in p && p == [p[0]] + p[1..];
      AuthorityIs(p[1..], q);
    }
  }

  datatype Parts = Parts(scheme: string, authority: Option<string>, query: Option<string>)

  function Split(s: string): Option<Parts>
  {
    var rest := After(s, ':');
    if rest.None? then None
    else
      var r := rest.value;
      Some(Parts(Before(s, ':'), if "//" <= r then Some(Authority(r[2..])) else None, After(Before(r, '#'), '?')))
  }

  /** getQueryParameter: the value of the first piece named `key`. */
  function Param(query: string, key: string): Option<string>
    decreases |query|
  {
    var piece, rest := Before(query, '&'), After(query, '&');
    AfterShrinks(query, '&');
    if Before(piece, '=') == key then Some(if After(piece, '=').Some? then After(piece, '=').value else "")
    else if rest.Some? then Param(rest.value, key)
    else None
  }

  lemma AfterShrinks(s: string, c: char)
    ensures After(s, c).Some? ==> |After(s, c).value| < |s|
  {
  }

  predicate Name(s: string) { '&' !in s && '=' !in s }

  function Piece(k: string, v: string): string { k + "=" + v }

  /** `k1=v1&k2=v2&...` */
  function Pairs(ps: seq<(string, string)>): string
  {
    if ps == [] then ""
    else if |ps| == 1 then Piece(ps[0].0, ps[0].1)
    else Pairs(Front(ps)) + "&" + Piece(Last(ps).0, Last(ps).1)
  }

  /** The first pair named `key`. */
  function Lookup(ps: seq<(string, string)>, key: string): Option<string>
  {
    if ps == [] then None
    else if Lookup(Front(ps), key).Some? then Lookup(Front(ps), key)
    else if Last(ps).0 == key then Some(Last(ps).1)
    else None
  }

  lemma LookupSnoc(ps: seq<(string, string)>, k: string, v: string)
    ensures forall key :: Lookup(ps + [(k, v)], key) ==
                          if Lookup(ps, key).Some? then Lookup(ps, key) else if k == key then Some(v) else None
  {
    assert Front(ps + [(k, v)]) == ps;
  }

  lemma PieceParam(k: string, v: string, key: string)
    requires Name(k) && '&' !in v
    ensures Param(Piece(k, v), key) == if k == key then Some(v) else None
  {
    Cut(k, '=', v);
    Cut(Piece(k, v), '&', "");
  }

  lemma {:induction false} ParamSnoc(q: string, k: string, v: string, key: string)
    requires Name(k) && '&' !in v
    ensures Param(q + "&" + Piece(k, v), key) ==
            if Param(q, key).Some? then Param(q, key) else if k == key then Some(v) else None
    decreases |q|
  {
    AfterShrinks(q, '&');
    CutMore(q, '&', Piece(k, v));
    if After(q, '&').Some? {
      ParamSnoc(After(q, '&').value, k, v, key);
    } else {
      PieceParam(k, v, key);
    }
  }

  /** Appending behind another separator moves the first cut only if there was none. */
  lemma {:induction false} CutMore(q: string, c: char, r: string)
    ensures Before(q + [c] + r, c) == Before(q, c)
    ensures After(q + [c] + r, c) == if After(q, c).Some? then Some(After(q, c).value + [c] + r) else Some(r)
  {
    var s := q + [c] + r;
    if q == "" {
      assert s[1..] == r;
    } else {
      assert s[1..] == q[1..] + [c] + r;
      CutMore(q[1..], c, r);
    }
  }

  /** Reading a printed query back: every parameter is found with its own value. */
  lemma {:induction false} PairsParam(ps: seq<(string, string)>, key: string)
    requires ps != [] && forall p | p in ps :: Name(p.0) && '&' !in p.1
    ensures Param(Pairs(ps), key) == Lookup(ps, key)
  {
    assert Last(ps) in ps;
    if |ps| == 1 {
      assert Front(ps) == [];
      PieceParam(ps[0].0, ps[0].1, key);
    } else {
      PairsParam(Front(ps), key);
      ParamSnoc(Pairs(Front(ps)), Last(ps).0, Last(ps).1, key);
    }
  }

  // ------------------------------------------------------------------- numbers

  function Nat(s: string): Option<nat>
  {
    if s == "" then None
    else if !Digit(Last(s)) then None
    else
      var d: nat := Last(s) as int - '0' as int;
      if |s| == 1 then Some(d)
      else if Nat(Front(s)).None? then None
      else Some(10 * Nat(Front(s)).value + d)
  }

  const INT_MAX := 0x7FFF_FFFF

  /** Kotlin's toIntOrNull over ASCII digits. */
  function ToIntOrNull(s: string): Option<int>
  {
    if s == "" then None
    else
      var sign := if s[0] == '-' then -1 else 1;
      var n := Nat(if s[0] == '-' || s[0] == '+' then s[1..] else s);
      if n.None? then None
      else if sign * n.value > INT_MAX || sign * n.value < -INT_MAX - 1 then None
      else Some(sign * n.value)
  }

  lemma {:induction false} DecNat(n: nat)
    ensures Nat(Dec(n)) == Some(n)
  {
    if n >= 10 {
      DecNat(n / 10);
      assert Front(Dec(n)) == Dec(n / 10);
    }
  }

  lemma DecInt(n: nat)
    requires n <= INT_MAX
    ensures ToIntOrNull(Dec(n)) == Some(n)
  {
    DecNat(n);
    assert Dec(n)[0] in Dec(n);
  }

  /** Uri's port separator: scanning back over digits to a colon. */
  function PortSeparator(s: string): (i: int)
    ensures -1 <= i < |s|
  {
    if s == "" then -1
    else if Last(s) == ':' then |s| - 1
    else if !Digit(Last(s)) then -1
    else PortSeparator(Front(s))
  }

  lemma {:induction false} PortSeparatorIs(host: string, port: string)
    requires forall c | c in port :: Digit(c)
    ensures PortSeparator(host + ":" + port) == |host|
    decreases |port|
  {
    if port != "" {
      assert Front(host + ":" + port) == host + ":" + Front(port) && Last(port) in port;
      PortSeparatorIs(host, Front(port));
    }
  }
}
