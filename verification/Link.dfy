/** What one phone and its PC session may observe of each other: one ordered
    channel each way. The tunnel and the LAN path are both proved to refine it. */
module Link {
  import opened Basics
  import opened Messages

  datatype Channel = Channel(
    sent: seq<Msg>,     // everything the phone put on its WebSocket
    inbox: seq<Msg>,    // everything its PC session was handed
    emitted: seq<Msg>,  // text and FILE messages the session emitted, in order
    got: seq<Msg>,      // text and FILE messages that reached the phone, in order
    av: seq<Msg>,       // A/V frames the session emitted
    gotAv: seq<Msg>)    // A/V frames that reached the phone

  /** The text messages of `s` that precede its `k`-th FILE message. */
  function TextsBefore(s: seq<Msg>, k: nat): seq<Msg>
    requires k < |Files(s)|
  {
    if k < |Files(Front(s))| then TextsBefore(Front(s), k) else Texts(Front(s))
  }

  /** Text and FILE messages each arrive in order and without gaps, and no FILE
      message overtakes a text emitted before it. */
  ghost predicate Ordered(got: seq<Msg>, emitted: seq<Msg>)
  {
    && Texts(got) <= Texts(emitted)
    && Files(got) <= Files(emitted)
    && forall k: nat | k < |Files(got)| :: TextsBefore(emitted, k) <= TextsBefore(got, k)
  }

  ghost predicate Ok(l: Channel)
  {
    l.inbox <= l.sent && Ordered(l.got, l.emitted) && Subseq(l.gotAv, l.av)
  }

  const FRESH := Channel([], [], [], [], [], [])

  /** The channel's own steps. Nothing is delivered that was not sent, nothing is
      delivered twice, and only A/V frames may be skipped. */
  ghost predicate Next(l: Channel, m: Channel)
  {
    || m == l
    || (exists x :: m == l.(sent := l.sent + [x]))
    || (|l.inbox| < |l.sent| && m == l.(inbox := l.inbox + [l.sent[|l.inbox|]]))
    || (exists x :: IsMust(x) && m == l.(emitted := l.emitted + [x]))
    || (exists x :: IsMust(x) && Ordered(l.got + [x], l.emitted) && m == l.(got := l.got + [x]))
    || (exists x :: IsAv(x) && m == l.(av := l.av + [x]))
    || (exists x :: IsAv(x) && Subseq(l.gotAv + [x], l.av) && m == l.(gotAv := l.gotAv + [x]))
  }

  lemma NextStays(l: Channel)
    ensures Next(l, l)
  {
  }

  lemma NextInbox(l: Channel)
    requires |l.inbox| < |l.sent|
    ensures Next(l, l.(inbox := l.inbox + [l.sent[|l.inbox|]]))
  {
  }

  lemma NextGot(l: Channel, x: Msg)
    requires IsMust(x) && Ordered(l.got + [x], l.emitted)
    ensures Next(l, l.(got := l.got + [x]))
  {
  }

  lemma NextGotAv(l: Channel, x: Msg)
    requires IsAv(x) && Subseq(l.gotAv + [x], l.av)
    ensures Next(l, l.(gotAv := l.gotAv + [x]))
  {
  }

  lemma TextsBeforeSnoc(s: seq<Msg>, m: Msg, k: nat)
    requires k < |Files(s)|
    ensures |Files(s)| <= |Files(s + [m])|
    ensures TextsBefore(s + [m], k) == TextsBefore(s, k)
  {
    Snoc(s, m);
    assert Front(s + [m]) == s;
  }

  lemma TextsBeforeLast(s: seq<Msg>, m: Msg)
    requires IsFile(m)
    ensures |Files(s)| < |Files(s + [m])| && TextsBefore(s + [m], |Files(s)|) == Texts(s)
  {
    Snoc(s, m);
    assert Front(s + [m]) == s;
  }

  lemma {:induction false} TextsBeforePrefix(p: seq<Msg>, s: seq<Msg>, k: nat)
    requires p <= s && k < |Files(p)|
    ensures |Files(p)| <= |Files(s)| && TextsBefore(p, k) == TextsBefore(s, k)
    decreases |s|
  {
    if p == s {
    } else {
      assert p <= Front(s) && s == Front(s) + [Last(s)];
      TextsBeforePrefix(p, Front(s), k);
      TextsBeforeSnoc(Front(s), Last(s), k);
    }
  }

  /** A receiver that is further behind is still ordered. */
  lemma OrderedPrefix(p: seq<Msg>, got: seq<Msg>, emitted: seq<Msg>)
    requires p <= got && Ordered(got, emitted)
    ensures Ordered(p, emitted)
  {
    FilterPrefix(p, got, IsText);
    FilterPrefix(p, got, IsFile);
    forall k: nat | k < |Files(p)|
      ensures TextsBefore(emitted, k) <= TextsBefore(p, k)
    {
      TextsBeforePrefix(p, got, k);
    }
  }

  /** Emitting more never disturbs what was delivered. */
  lemma OrderedEmit(got: seq<Msg>, emitted: seq<Msg>, m: Msg)
    requires Ordered(got, emitted)
    ensures Ordered(got, emitted + [m])
  {
    Snoc(emitted, m);
    forall k: nat | k < |Files(got)|
      ensures TextsBefore(emitted + [m], k) <= TextsBefore(got, k)
    {
      TextsBeforeSnoc(emitted, m, k);
    }
  }

  /** A writer that has handed on `out` and holds `ctl` and `blk` keeps order when it
      picks `ctl` first: this is the whole content of the biased select. */
  ghost predicate Writer(emitted: seq<Msg>, out: seq<Msg>, ctl: seq<Msg>, blk: seq<Msg>)
  {
    && Texts(emitted) == Texts(out) + ctl
    && Files(emitted) == Files(out) + blk
    && Ordered(out, emitted)
    && (forall m | m in ctl :: IsText(m))
    && (forall m | m in blk :: IsFile(m))
  }

  lemma WriterEmitText(emitted: seq<Msg>, out: seq<Msg>, ctl: seq<Msg>, blk: seq<Msg>, m: Msg)
    requires Writer(emitted, out, ctl, blk) && IsText(m)
    ensures Writer(emitted + [m], out, ctl + [m], blk)
  {
    Snoc(emitted, m);
    OrderedEmit(out, emitted, m);
  }

  lemma WriterEmitFile(emitted: seq<Msg>, out: seq<Msg>, ctl: seq<Msg>, blk: seq<Msg>, m: Msg)
    requires Writer(emitted, out, ctl, blk) && IsFile(m)
    ensures Writer(emitted + [m], out, ctl, blk + [m])
  {
    Snoc(emitted, m);
    OrderedEmit(out, emitted, m);
  }

  lemma WriterTakesText(emitted: seq<Msg>, out: seq<Msg>, ctl: seq<Msg>, blk: seq<Msg>)
    requires Writer(emitted, out, ctl, blk) && ctl != []
    ensures Writer(emitted, out + [ctl[0]], ctl[1..], blk)
  {
    var m := ctl[0];
    Snoc(out, m);
    assert Texts(out) + ctl == Texts(out + [m]) + ctl[1..];
    forall k: nat | k < |Files(out + [m])|
      ensures TextsBefore(emitted, k) <= TextsBefore(out + [m], k)
    {
      TextsBeforeSnoc(out, m, k);
    }
  }

  lemma {:induction false} TextsBeforeIsPrefix(s: seq<Msg>, k: nat)
    requires k < |Files(s)|
    ensures TextsBefore(s, k) <= Texts(s)
  {
    FilterPrefix(Front(s), s, IsText);
    if k < |Files(Front(s))| {
      TextsBeforeIsPrefix(Front(s), k);
    }
  }

  lemma WriterTakesFile(emitted: seq<Msg>, out: seq<Msg>, ctl: seq<Msg>, blk: seq<Msg>)
    requires Writer(emitted, out, ctl, blk) && ctl == [] && blk != []
    ensures Writer(emitted, out + [blk[0]], ctl, blk[1..])
  {
    var m := blk[0];
    Snoc(out, m);
    assert Files(out) + blk == Files(out + [m]) + blk[1..];
    assert Texts(out) == Texts(emitted);
    forall k: nat | k < |Files(out + [m])|
      ensures TextsBefore(emitted, k) <= TextsBefore(out + [m], k)
    {
      if k < |Files(out)| {
        TextsBeforeSnoc(out, m, k);
      } else {
        TextsBeforeLast(out, m);
        TextsBeforeIsPrefix(emitted, k);
      }
    }
  }
}
