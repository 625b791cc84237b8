/** What the LAN path may lose: A/V frames, and those only at a full queue. */
module LanFlow {
  import opened Basics
  import opened Messages
  import opened Link
  import opened LanPath

  /** The A/V frames that reached the phone or wait for the writer, oldest first. */
  function Flow(s: Lan): seq<Msg> { s.v.gotAv + s.vid }

  /** The A/V frame that the session produces in this step. */
  function Produced(a: Action): seq<Msg> { if a.EmitAv? then [a.m] else [] }

  /** It meets a full queue. */
  predicate Drops(s: Lan, a: Action) { a.EmitAv? && |s.vid| >= OUTBOUND_VIDEO_CAP }

  lemma FlowStep(s: Lan, a: Action)
    requires Enabled(s, a)
    ensures Apply(s, a).v.av == s.v.av + Produced(a)
    ensures Flow(Apply(s, a)) == if Drops(s, a) then Flow(s) else Flow(s) + Produced(a)
  {
    assert Flow(s) + [] == Flow(s) && s.v.av + [] == s.v.av;
    if a.TakeOne? && s.ctl == [] && s.vid != [] {
      assert s.v.gotAv + [s.vid[0]] + s.vid[1..] == s.v.gotAv + s.vid;
    } else if a.EmitAv? && |s.vid| < OUTBOUND_VIDEO_CAP {
      assert s.v.gotAv + (s.vid + [a.m]) == s.v.gotAv + s.vid + [a.m];
    }
  }

  /** How many frames were dropped before step `i`. */
  ghost function Dropped(ss: seq<Lan>, acts: seq<Action>, i: nat): nat
    requires Run(ss, acts) && i < |ss|
  {
    if i == 0 then 0 else Dropped(ss, acts, i - 1) + if Drops(ss[i - 1], acts[i - 1]) then 1 else 0
  }

  /** In every run exactly those frames are missing that met a full queue, and as long as
      none did all of them are with the phone or wait, in the order produced. */
  lemma {:induction false} AvConserved(ss: seq<Lan>, acts: seq<Action>, i: nat)
    requires Run(ss, acts) && i < |ss|
    ensures |ss[i].v.av| - |Flow(ss[i])| == Dropped(ss, acts, i)
    ensures Flow(ss[i]) == ss[i].v.av <==> Dropped(ss, acts, i) == 0
  {
    hide Apply, Enabled;
    if i > 0 {
      AvConserved(ss, acts, i - 1);
      FlowStep(ss[i - 1], acts[i - 1]);
    }
  }
}
