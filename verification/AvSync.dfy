/** Audio and video on one clock: the audio path publishes a reference, the video path
    anchors to it and holds frames back. Times are integers: wall clock in nanoseconds,
    source PTS in microseconds. */
module AvSync {
  import opened Basics

  const MS := 1_000_000
  const SECOND_NS := 1000 * MS
  const PREROLL_NS := 250 * MS
  const STANDALONE_NS := 100 * MS
  const REFINE_NS := 5 * MS
  const REANCHOR_NS := 30 * MS
  const MAX_DELAY_MS := 400

  /** Integer division as Kotlin's Long does it. */
  function Trunc(a: int, b: int): int
    requires b != 0
  {
    if (a < 0) == (b < 0) then Abs(a) / Abs(b) else -(Abs(a) / Abs(b))
  }

  /** The published pair; a negative PTS means nothing is published. */
  datatype Clock = Clock(wall: int, pts: int)

  const UNSET := Clock(-1, -1)

  /** The wall time at which PTS 0 is heard. */
  function Origin(c: Clock): int { c.wall - c.pts * 1000 }

  class AvSyncClock {
    var publishedWallNs: int
    var publishedPtsUs: int

    ghost function View(): Clock
      reads this
    {
      Clock(publishedWallNs, publishedPtsUs)
    }

    constructor ()
      ensures View() == UNSET
    {
      publishedWallNs, publishedPtsUs := -1, -1;
    }

    method PublishAudioStart(wallNs: int, ptsUs: int)
      modifies this
      ensures View() == Clock(wallNs, ptsUs)
    {
      publishedWallNs := wallNs;
      publishedPtsUs := ptsUs;
    }

    method AudioReference() returns (r: Option<(int, int)>)
      ensures r == if View().pts < 0 then None else Some((View().wall, View().pts))
    {
      if publishedPtsUs < 0 {
        return None;
      }
      r := Some((publishedWallNs, publishedPtsUs));
    }

    method Reset()
      modifies this
      ensures View() == UNSET
    {
      publishedWallNs := -1;
      publishedPtsUs := -1;
    }
  }

  // -------------------------------------------------------------------- audio

  /** The audio player's share; 0 in `lastRefined` means never refined. */
  datatype Audio = Audio(seeded: bool, firstPts: int, lastRefined: int, sampleRate: int)

  /** AudioTrack.getTimestamp: it may fail. */
  datatype Stamp = NoStamp | Stamp(framePosition: int, nanoTime: int)

  function Seed(a: Audio, c: Clock, now: int, pts: int): (Audio, Clock)
  {
    if a.seeded then (a, c) else (a.(seeded := true, firstPts := pts), Clock(now + PREROLL_NS, pts))
  }

  predicate Usable(a: Audio, t: Stamp)
  {
    a.seeded && a.firstPts >= 0 && t.Stamp? && t.framePosition > 0 && a.sampleRate != 0
  }

  /** The wall time of sample 0, when the timestamp is usable. */
  function Measured(a: Audio, t: Stamp): Option<int>
  {
    if !Usable(a, t) then None else Some(t.nanoTime - Trunc(t.framePosition * SECOND_NS, a.sampleRate))
  }

  /** If sample 0 is heard at `wall`, sample `framePosition` is heard at `nanoTime`, up to a
      nanosecond: both sides are multiplied by the rate. */
  predicate Heard(t: Stamp, rate: int, wall: int)
    requires t.Stamp?
  {
    Abs((t.nanoTime - wall) * rate - t.framePosition * SECOND_NS) < rate
  }

  /** How far into its second's worth of samples the measured nanosecond is. */
  lemma MeasuredLeaves(a: Audio, t: Stamp) returns (r: int)
    requires Usable(a, t) && a.sampleRate > 0
    ensures 0 <= r < a.sampleRate
    ensures t.framePosition * SECOND_NS == (t.nanoTime - Measured(a, t).value) * a.sampleRate + r
  {
    var x, rate := t.framePosition * SECOND_NS, a.sampleRate;
    r := x % rate;
    assert x == x / rate * rate + r;
    assert Trunc(x, rate) == x / rate;
  }

  lemma MeasuredHeard(a: Audio, t: Stamp)
    requires Usable(a, t) && a.sampleRate > 0
    ensures Heard(t, a.sampleRate, Measured(a, t).value)
  {
    hide Measured;
    var r := MeasuredLeaves(a, t);
  }

  predicate Close(a: Audio, wall: int) { a.lastRefined != 0 && Abs(wall - a.lastRefined) < REFINE_NS }

  function Refine(a: Audio, c: Clock, t: Stamp): (Audio, Clock)
  {
    var m := Measured(a, t);
    if m.None? || Close(a, m.value) then (a, c)
    else (a.(lastRefined := m.value), Clock(m.value, a.firstPts))
  }

  class OpusPlayer {
    const avSync: AvSyncClock
    var avSyncSeeded: bool
    var firstFramePtsUs: int
    var lastRefinedFrame0WallNs: int
    var sampleRate: int

    ghost function View(): Audio
      reads this
    {
      Audio(avSyncSeeded, firstFramePtsUs, lastRefinedFrame0WallNs, sampleRate)
    }

    constructor (avSync: AvSyncClock, sampleRate: int)
      ensures View() == Audio(false, -1, 0, sampleRate) && this.avSync == avSync
    {
      this.avSync, this.sampleRate := avSync, sampleRate;
      avSyncSeeded, firstFramePtsUs, lastRefinedFrame0WallNs := false, -1, 0;
    }

    /** onOutputBufferAvailable for a non-empty buffer. */
    method OnOutput(now: int, ptsUs: int, t: Stamp)
      modifies this, avSync
      ensures var (a, c) := Seed(old(View()), old(avSync.View()), now, ptsUs);
              (View(), avSync.View()) == Refine(a, c, t)
    {
      if !avSyncSeeded {
        avSyncSeeded := true;
        firstFramePtsUs := ptsUs;
        avSync.PublishAudioStart(now + PREROLL_NS, firstFramePtsUs);
      }
      if avSyncSeeded && firstFramePtsUs >= 0 {
        TryRefineAudioRef(t);
      }
    }

    /** A usable timestamp yields the wall time of sample 0, which is published unless one
        within 5 ms of it already is. A zero sample rate makes the division throw, which ends
        the attempt. */
    method TryRefineAudioRef(t: Stamp)
      requires avSyncSeeded && firstFramePtsUs >= 0
      modifies this`lastRefinedFrame0WallNs, avSync
      ensures (View(), avSync.View()) == Refine(old(View()), old(avSync.View()), t)
      ensures t.NoStamp? || t.framePosition <= 0 ==>
                avSync.View() == old(avSync.View()) && lastRefinedFrame0WallNs == old(lastRefinedFrame0WallNs)
      ensures t.Stamp? && t.framePosition > 0 && sampleRate > 0 ==>
                exists w :: Heard(t, sampleRate, w) &&
                  var last := old(lastRefinedFrame0WallNs);
                  if last != 0 && Abs(w - last) < REFINE_NS then
                    avSync.View() == old(avSync.View()) && lastRefinedFrame0WallNs == last
                  else avSync.View() == Clock(w, firstFramePtsUs) && lastRefinedFrame0WallNs == w
    {
      if Usable(View(), t) && sampleRate > 0 {
        MeasuredHeard(View(), t);
      }
      hide Heard;
      if t.NoStamp? || t.framePosition <= 0 || sampleRate == 0 {
        return;
      }
      var frame0WallNs := t.nanoTime - Trunc(t.framePosition * SECOND_NS, sampleRate);
      if lastRefinedFrame0WallNs != 0 && Abs(frame0WallNs - lastRefinedFrame0WallNs) < REFINE_NS {
        return;
      }
      avSync.PublishAudioStart(frame0WallNs, firstFramePtsUs);
      lastRefinedFrame0WallNs := frame0WallNs;
    }
  }

  // -------------------------------------------------------------------- video

  /** The video clock origin after an output callback; 0 means not anchored. */
  function Anchor(origin: int, c: Clock, now: int, pts: int): int
  {
    if origin == 0 then (if c.pts >= 0 then Origin(c) else now - pts * 1000 + STANDALONE_NS)
    else if c.pts >= 0 && Abs(Origin(c) - origin) > REANCHOR_NS then Origin(c)
    else origin
  }

  function Clamp(x: int, lo: int, hi: int): int
    requires lo <= hi
  {
    Max(lo, Min(x, hi))
  }

  /** How long a decoded frame is held, in whole milliseconds. */
  function DelayMs(origin: int, pts: int, now: int): (d: nat)
    ensures d <= MAX_DELAY_MS
  {
    Clamp(Trunc(origin + pts * 1000 - now, MS), 0, MAX_DELAY_MS)
  }

  class H264Player {
    const avSync: AvSyncClock?
    var clockOriginNs: int
    var anchoredOnAudio: bool
    var lastAnchoredAudioWallNs: int
    var renderHandler: bool

    constructor (avSync: AvSyncClock?)
      ensures this.avSync == avSync && clockOriginNs == 0 && renderHandler
    {
      this.avSync := avSync;
      clockOriginNs, anchoredOnAudio, lastAnchoredAudioWallNs, renderHandler := 0, false, 0, true;
    }

    /** What `avSync?.audioReference()` sees. */
    ghost function Reference(): Clock
      reads this, avSync
    {
      if avSync == null then UNSET else avSync.View()
    }

    method OnOutputBufferAvailable(ptsUs: int, now: int, later: int) returns (holdMs: nat)
      modifies this`clockOriginNs, this`anchoredOnAudio, this`lastAnchoredAudioWallNs
      ensures clockOriginNs == Anchor(old(clockOriginNs), Reference(), now, ptsUs)
      ensures holdMs == if renderHandler then DelayMs(clockOriginNs, ptsUs, later) else 0
      ensures clockOriginNs != old(clockOriginNs) && Reference().pts >= 0 ==>
                anchoredOnAudio && lastAnchoredAudioWallNs == Reference().wall
    {
      var audioRef: Option<(int, int)> := None;
      if avSync != null {
        audioRef := avSync.AudioReference();
      }
      if clockOriginNs == 0 {
        if audioRef.Some? {
          anchoredOnAudio := true;
          lastAnchoredAudioWallNs := audioRef.value.0;
          clockOriginNs := audioRef.value.0 - audioRef.value.1 * 1000;
        } else {
          clockOriginNs := now - ptsUs * 1000 + STANDALONE_NS;
        }
      } else if audioRef.Some? {
        var newOrigin := audioRef.value.0 - audioRef.value.1 * 1000;
        if Abs(newOrigin - clockOriginNs) > REANCHOR_NS {
          clockOriginNs := newOrigin;
          anchoredOnAudio := true;
          lastAnchoredAudioWallNs := audioRef.value.0;
        }
      }
      var renderTimeNs := clockOriginNs + ptsUs * 1000;
      var delayMs := Clamp(Trunc(renderTimeNs - later, MS), 0, MAX_DELAY_MS);
      if delayMs <= 0 || !renderHandler {
        return 0;
      }
      holdMs := delayMs;
    }
  }

  // --------------------------------------------------------------------- runs

  /** Both players and the clock between them. `latest` is the last usable timestamp;
      `refined` says the clock holds a refined value rather than a seed. */
  datatype Players = Players(clock: Clock, audio: Audio, origin: int, latest: Option<Stamp>, refined: bool)

  datatype Event =
    | ResetClock
    | AudioStarts(sampleRate: int)
    | AudioOut(now: int, pts: int, stamp: Stamp)
    | VideoStarts
    | VideoOut(now: int, pts: int)

  function AudioNext(p: Players, now: int, pts: int, t: Stamp): Players
  {
    var (a, c) := Seed(p.audio, p.clock, now, pts);
    var (b, d) := Refine(a, c, t);
    var m := Measured(a, t);
    p.(audio := b, clock := d,
       latest := if Usable(a, t) then Some(t) else p.latest,
       refined := if m.Some? && !Close(a, m.value) then true else p.refined && p.audio.seeded)
  }

  function Next(p: Players, e: Event): Players
  {
    match e
    case ResetClock => p.(clock := UNSET, refined := false)
    case AudioStarts(rate) => p.(audio := Audio(false, -1, 0, rate), latest := None, refined := false)
    case AudioOut(now, pts, t) => AudioNext(p, now, pts, t)
    case VideoStarts => p.(origin := 0)
    case VideoOut(now, pts) => p.(origin := Anchor(p.origin, p.clock, now, pts))
  }

  function After(es: seq<Event>): Players
  {
    if es == [] then Players(UNSET, Audio(false, -1, 0, 48000), 0, None, false)
    else Next(After(Front(es)), Last(es))
  }

  /** A refined clock holds the value last published, and what the latest timestamp
      measures is within the audio path's 5 ms hysteresis of it. */
  ghost predicate Tracks(p: Players)
  {
    p.refined ==>
      && p.audio.firstPts >= 0 && p.clock == Clock(p.audio.lastRefined, p.audio.firstPts)
      && p.latest.Some? && Usable(p.audio, p.latest.value)
      && Abs(Measured(p.audio, p.latest.value).value - p.audio.lastRefined) < REFINE_NS
  }

  lemma {:induction false} AudioTracks(es: seq<Event>)
    ensures Tracks(After(es))
  {
    if es != [] {
      AudioTracks(Front(es));
    }
  }

  /** The video clock says when the sample of the latest timestamp should be heard, and that
      is within `bound` of when the timestamp says it is: the PTS of sample n is n / rate
      after the first one's, and both sides are multiplied by the rate. */
  predicate InSync(p: Players, bound: int)
    requires p.latest.Some? && p.latest.value.Stamp?
  {
    var t := p.latest.value;
    Abs((p.origin + p.clock.pts * 1000 - t.nanoTime) * p.audio.sampleRate + t.framePosition * SECOND_NS) <
    bound * p.audio.sampleRate
  }

  /** Over any run, after an output callback with an audio reference present, the video
      origin is within 30 ms of the published audio origin; and once refined, the video clock
      puts the sample of the latest timestamp within 35 ms of where it is heard. */
  lemma SyncBound(es: seq<Event>, now: int, pts: int)
    ensures var p := After(es + [VideoOut(now, pts)]);
            && (p.clock.pts >= 0 ==> Abs(p.origin - Origin(p.clock)) <= REANCHOR_NS)
            && (p.refined ==> p.clock.pts >= 0 && p.latest.Some? && p.latest.value.Stamp?)
            && (p.refined && p.audio.sampleRate > 0 ==> InSync(p, REANCHOR_NS + REFINE_NS))
  {
    assert Front(es + [VideoOut(now, pts)]) == es;
    AudioTracks(es);
    var p := After(es + [VideoOut(now, pts)]);
    if p.refined && p.audio.sampleRate > 0 {
      var t, m := p.latest.value, Measured(p.audio, p.latest.value).value;
      var r := MeasuredLeaves(p.audio, t);
      Rescaled(p.origin + p.clock.pts * 1000 - m, t.nanoTime - m, p.audio.sampleRate, r, REANCHOR_NS + REFINE_NS);
    }
  }

  lemma Rescaled(d: int, q: int, rate: int, r: int, bound: int)
    requires rate > 0 && 0 <= r < rate && Abs(d) < bound
    ensures Abs((d - q) * rate + (q * rate + r)) < bound * rate
  {
    assert (d - q) * rate == d * rate - q * rate;
    Below(d, bound - 1, rate);
    Below(1 - bound, d, rate);
    assert (bound - 1) * rate == bound * rate - rate;
    assert (1 - bound) * rate == rate - bound * rate;
  }

  lemma Below(a: int, b: int, rate: int)
    requires a <= b && rate > 0
    ensures a * rate <= b * rate
  {
    assert b * rate - a * rate == (b - a) * rate;
  }

  /** Before there is a measurement: the first audio sample is taken to be heard 250 ms after
      it was decoded, and without audio the first frame is shown after 100 ms. */
  lemma FirstGuess(a: Audio, c: Clock, now: int, audioPts: int, later: int, pts: int)
    requires !a.seeded && audioPts >= 0
    ensures Anchor(0, Seed(a, c, now, audioPts).1, later, pts) + pts * 1000 == now + 250 * MS + (pts - audioPts) * 1000
    ensures DelayMs(Anchor(0, UNSET, now, pts), pts, now) == 100
  {
  }

  /** While the published reference stands still the origin moves at most once. */
  lemma AnchorsOnce(origin: int, c: Clock, now: int, pts: int, now': int, pts': int)
    requires c.pts >= 0
    ensures var o := Anchor(origin, c, now, pts);
            Anchor(o, c, now', pts') == if o == 0 then Origin(c) else o
  {
  }

  // ------------------------------------------------------------ release order

  /** A decoded frame, when its callback read the clock for the delay, and when it then
      released the frame or posted its release. */
  datatype Frame = Frame(pts: int, now: int, posted: int)

  /** The two clock reads of a callback are at most `lag` apart. */
  predicate Prompt(f: Frame, lag: nat) { f.now <= f.posted <= f.now + lag }

  /** The millisecond at which it is released: Handler.postDelayed counts from the uptime,
      read once more and in whole milliseconds. */
  function Due(origin: int, f: Frame): int { f.posted / MS + DelayMs(origin, f.pts, f.now) }

  /** Truncation only ever makes a frame early, and by less than two milliseconds; it is
      late only by what passes before it is posted or when its slot has passed, and earlier
      only when the 400 ms cap bites. */
  lemma DueOnTime(origin: int, f: Frame, lag: nat)
    requires Prompt(f, lag)
    ensures var slot := origin + f.pts * 1000;
            && (slot <= f.now ==> Due(origin, f) == f.posted / MS)
            && (f.now <= slot < f.now + (MAX_DELAY_MS + 1) * MS ==> slot / MS - 1 <= Due(origin, f) <= (slot + lag) / MS)
            && (slot >= f.now + MAX_DELAY_MS * MS ==> Due(origin, f) == f.posted / MS + MAX_DELAY_MS)
  {
    var hold := origin + f.pts * 1000 - f.now;
    TruncFloor(hold);
    FloorSum(f.now, hold);
    FloorSum(f.posted, hold);
  }

  lemma TruncFloor(x: int)
    ensures x >= 0 ==> Trunc(x, MS) == x / MS
    ensures x < 0 ==> Trunc(x, MS) <= 0
  {
  }

  lemma FloorSum(a: int, b: int)
    ensures (a + b) / MS - 1 <= (a + b - MS + 1) / MS <= a / MS + b / MS <= (a + b) / MS
  {
  }

  /** Callbacks run one after another. */
  predicate Follows(f: Frame, g: Frame) { f.posted <= g.now <= g.posted }

  /** While the origin stands, frames are released in order if their slots are at least a
      millisecond apart on top of the time between the first one's two clock reads. */
  lemma ReleasedInOrder(origin: int, f: Frame, g: Frame, lag: nat)
    requires Prompt(f, lag) && Follows(f, g) && (g.pts - f.pts) * 1000 >= MS + lag - 1
    ensures Due(origin, f) <= Due(origin, g)
  {
    var x, y := origin + f.pts * 1000, origin + g.pts * 1000;
    TruncFloor(x - f.now);
    TruncFloor(y - g.now);
    FloorSum(f.posted, x - f.now);
    FloorSum(g.now, y - g.now);
    assert x + lag <= y - MS + 1;
  }

  /** A whole session's worth of frames. */
  lemma AllReleasedInOrder(origin: int, fs: seq<Frame>, lag: nat)
    requires forall i | 0 <= i < |fs| :: Prompt(fs[i], lag)
    requires forall i, j | 0 <= i < j < |fs| :: Follows(fs[i], fs[j]) && (fs[j].pts - fs[i].pts) * 1000 >= MS + lag - 1
    ensures forall i, j | 0 <= i < j < |fs| :: Due(origin, fs[i]) <= Due(origin, fs[j])
    ensures forall i | 0 <= i < |fs| :: fs[i].posted / MS <= Due(origin, fs[i]) <= fs[i].posted / MS + MAX_DELAY_MS
  {
    forall i, j | 0 <= i < j < |fs| ensures Due(origin, fs[i]) <= Due(origin, fs[j]) {
      ReleasedInOrder(origin, fs[i], fs[j], lag);
    }
  }

  /** That much is exactly what it takes: for any smaller gap some pair of frames is
      released the wrong way round. */
  lemma GapNeeded(gap: int, lag: nat)
    ensures gap * 1000 >= MS + lag - 1 <==>
            forall origin: int, f: Frame, g: Frame | Prompt(f, lag) && Follows(f, g) && g.pts - f.pts == gap ::
              Due(origin, f) <= Due(origin, g)
  {
    if gap * 1000 >= MS + lag - 1 {
      forall origin: int, f: Frame, g: Frame | Prompt(f, lag) && Follows(f, g) && g.pts - f.pts == gap
        ensures Due(origin, f) <= Due(origin, g)
      {
        ReleasedInOrder(origin, f, g, lag);
      }
    } else {
      var f, g := Frame(0, 0 - lag, 0), Frame(gap, MS - 1, MS - 1);
      assert Prompt(f, lag) && Follows(f, g);
      assert Due(MS - lag, f) == 1 && Due(MS - lag, g) == 0;
    }
  }
}
