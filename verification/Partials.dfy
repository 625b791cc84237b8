/** What is left on the phone when a download is cut short. abortAllIncomingFiles deletes
    a file only while it is shorter than announced, so this is about sizes. */
module Partials {
  import opened Basics
  import opened Messages
  import opened Link
  import opened ChunkLog
  import opened Transfer
  import opened TransferProof
  import opened EndToEnd
  import Codec

  /** Every chunk but the last leaves the payload short of the declared size. */
  ghost predicate Short(size: nat, cs: seq<Codec.Chunk>)
  {
    forall k: nat | 0 < k <= |cs| && !cs[k - 1].last :: |Payload(cs[..k])| < size
  }

  ghost predicate AllShort(sends: map<u32, Sending>, emitted: seq<Msg>)
  {
    forall id | id in sends :: Short(sends[id].size, Chunks(emitted, id))
  }

  /** Announcements carry the declared size. */
  ghost predicate Announces(sends: map<u32, Sending>, emitted: seq<Msg>)
  {
    forall i | 0 <= i < |Texts(emitted)| && Texts(emitted)[i].Text? && Texts(emitted)[i].control.FileSendBegin? ::
      Texts(emitted)[i].control.id in sends && sends[Texts(emitted)[i].control.id].size == Texts(emitted)[i].control.size
  }

  ghost predicate OpenSized(sends: map<u32, Sending>, r: Receiver)
  {
    forall id | id in r.open :: id in sends && r.open[id].size == sends[id].size
  }

  ghost predicate Sized(e: Ends, v: Channel)
  {
    AllShort(e.sends, v.emitted) && Announces(e.sends, v.emitted) && OpenSized(e.sends, e.down)
  }

  lemma ShortSnoc(size: nat, cs: seq<Codec.Chunk>, c: Codec.Chunk)
    requires Short(size, cs) && (!c.last ==> |Payload(cs)| + |c.payload| < size)
    ensures Short(size, cs + [c])
  {
    hide Payload;
    PayloadSnoc(cs, c);
    var t := cs + [c];
    forall k: nat | 0 < k <= |t| && !t[k - 1].last ensures |Payload(t[..k])| < size {
      if k <= |cs| {
        assert t[..k] == cs[..k] && t[k - 1] == cs[k - 1];
      } else {
        assert t[..k] == t;
      }
    }
  }

  lemma TextSized(e: Ends, v: Channel, m: Msg, sends': map<u32, Sending>)
    requires Sized(e, v) && m.Text? && e.sends.Keys <= sends'.Keys
    requires forall id | id in e.sends :: sends'[id].size == e.sends[id].size
    requires forall id | id in sends' && id !in e.sends :: Chunks(v.emitted, id) == []
    requires m.control.FileSendBegin? ==> m.control.id in sends' && sends'[m.control.id].size == m.control.size
    ensures Sized(e.(sends := sends'), v.(emitted := v.emitted + [m]))
  {
    hide Chunks;
    hide Payload;
    Snoc(v.emitted, m);
    forall id ensures Chunks(v.emitted + [m], id) == Chunks(v.emitted, id) { ChunksSnoc(v.emitted, m, id); }
  }

  lemma ChunkSized(e: Ends, v: Channel, id: u32, n: nat)
    requires Inv(e, v) && Sized(e, v) && id in e.sends && e.sends[id].live && n > 0
    requires e.sends[id].pos + n <= |e.sends[id].spool|
    ensures AllShort(e.sends, v.emitted + [DownFrame(e.sends[id], id, n)])
    ensures Texts(v.emitted + [DownFrame(e.sends[id], id, n)]) == Texts(v.emitted)
  {
    hide ChunkOf;
    hide Chunks;
    hide Payload;
    hide Stream;
    hide Short;
    hide Codec.FileFrame;
    var d := e.sends[id];
    var m, last, bytes := DownFrame(d, id, n), d.pos + n >= d.size, d.spool[d.pos..d.pos + n];
    FileFrameIs(id, Wrap32(d.count), last, bytes);
    Snoc(v.emitted, m);
    assert Streamer(d, Chunks(v.emitted, id));
    ShortSnoc(d.size, Chunks(v.emitted, id), Codec.Chunk(id, Wrap32(d.count), last, bytes));
    forall k | k in e.sends ensures Short(e.sends[k].size, Chunks(v.emitted + [m], k)) {
      ChunksSnoc(v.emitted, m, k);
      assert Chunks(v.emitted, k) + [] == Chunks(v.emitted, k);
    }
  }

  lemma GetSized(e: Ends, v: Channel, m: Msg, ok: bool)
    requires Sized(e, v) && IsMust(m) && Ok(v.(got := v.got + [m]))
    ensures OpenSized(e.sends, PhoneHandles(e.down, m, ok))
  {
    Snoc(v.got, m);
    if m.Text? {
      assert Texts(v.emitted)[|Texts(v.got)|] == m;
    }
  }

  lemma StepSized(e: Ends, v: Channel, a: Event, e': Ends, v': Channel)
    requires Inv(e, v) && Ok(v') && Step(e, v, a, e', v') && Sized(e, v)
    ensures Sized(e', v')
  {
    hide AllShort;
    hide DownOk;
    hide UpOk;
    hide Ok;
    match a
    case SendBegin(id, name, spool, size) =>
      DownLogOf(e.sends, v.emitted);
      NoChunksYet(e.sends, v.emitted, id);
      TextSized(e, v, Text(FileSendBegin(id, name, size)), e'.sends);
    case SendChunk(id, n) =>
      ChunkSized(e, v, id, n);
      SameSizes(e.sends, e'.sends, v'.emitted);
    case SendStop(id) => SameSizes(e.sends, e'.sends, v.emitted);
    case SessionSays(m) => TextSized(e, v, m, e.sends);
    case PhoneGets(m, ok) => GetSized(e, v, m, ok);
    case _ =>
  }

  lemma DownLogOf(sends: map<u32, Sending>, emitted: seq<Msg>)
    requires DownOk(sends, emitted)
    ensures DownLog(sends, emitted)
  {
  }

  lemma SameSizes(s: map<u32, Sending>, t: map<u32, Sending>, emitted: seq<Msg>)
    requires AllShort(s, emitted) && s.Keys == t.Keys && forall id | id in s :: t[id].size == s[id].size
    ensures AllShort(t, emitted)
  {
    hide Short;
  }

  /** A file still open on the phone is shorter than announced, so a disconnect deletes
      it; the one exception is a send announced as empty, which has nothing in it. */
  lemma OpenIsPartial(e: Ends, v: Channel, id: u32)
    requires Inv(e, v) && Ok(v) && Sized(e, v) && id in e.down.open
    ensures var f := e.down.open[id]; |f.data| < f.size || (f.size == 0 && f.data == [])
  {
    assert Payload([]) == [];
    hide Payload;
    hide Chunks;
    hide Short;
    hide DownOk;
    hide UpOk;
    ChunksPrefix(v.got, v.emitted, id);
    PrefixShort(e.sends[id].size, Chunks(v.got, id), Chunks(v.emitted, id));
  }

  lemma PrefixShort(size: nat, cs: seq<Codec.Chunk>, all: seq<Codec.Chunk>)
    requires Short(size, all) && cs <= all && !Ended(cs)
    ensures cs == [] || |Payload(cs)| < size
  {
    hide Payload;
    assert cs == all[..|cs|];
    assert cs != [] ==> !all[|cs| - 1].last;
  }

  lemma {:induction false} RunSized(vs: seq<Channel>, evs: seq<Event>, es: seq<Ends>, i: nat)
    requires EndsRun(vs, evs, es) && i < |vs|
    requires forall k | 0 <= k < |vs| :: Ok(vs[k])
    ensures Sized(es[i], vs[i])
  {
    hide Inv;
    hide Step;
    hide Ok;
    if i == 0 {
      assert Texts([]) == [];
    } else {
      RunSized(vs, evs, es, i - 1);
      EndsRunInv(vs, evs, es, i - 1);
      StepSized(es[i - 1], vs[i - 1], evs[i - 1], es[i], vs[i]);
    }
  }

  /** At every step of every run, every download under way would be deleted. */
  lemma PartialsAreShort(vs: seq<Channel>, evs: seq<Event>, es: seq<Ends>, i: nat, id: u32)
    requires EndsRun(vs, evs, es) && i < |vs| && id in es[i].down.open
    requires forall k | 0 <= k < |vs| :: Ok(vs[k])
    ensures var f := es[i].down.open[id]; |f.data| < f.size || (f.size == 0 && f.data == [])
  {
    RunSized(vs, evs, es, i);
    EndsRunInv(vs, evs, es, i);
    OpenIsPartial(es[i], vs[i], id);
  }
}
