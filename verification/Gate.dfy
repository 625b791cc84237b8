/** Who gets in: any number of peers handshaking at once against one pairing code and
    one device list. Each critical section is a step. */
module Gate {
  import opened Basics
  import opened Pairing
  import opened TrustStore

  /** Between messages, or inside `Hello` after its code was consumed and after its
      device was pushed. */
  datatype Stage = Ready | CodeSpent | Pushed

  /** History: handshakes whose code was accepted, those that ended on a bad nonce,
      welcomes sent for QR handshakes, rotations, devices pushed, and the (id, token
      hash) pairs that trusted reconnects were accepted with. */
  datatype History = History(
    accepted: nat, spoiled: nat, welcomes: nat, rotations: nat, pushed: seq<Device>, reconnects: seq<(string, string)>)

  datatype Doorway = Doorway(code: Code, devices: Devices, peers: map<nat, Stage>, log: History)

  datatype Action =
    | Connect(p: nat)
    | Leave(p: nat)
    | HelloCode(p: nat, v: nat, code: string, now: nat)
    | HelloNonce(p: nat)                      // the nonce does not decode
    | HelloMint(p: nat, dev: Device)
    | HelloWelcome(p: nat)                    // whether or not the list could be saved
    | TrustedHello(p: nat, v: nat, id: string, token: string, now: nat)
    | Rotate(code: string, key: seq<int>, now: nat)

  function Boot(code: Code, devices: Devices): Doorway
  {
    Doorway(code, devices, map[], History(0, 0, 0, 0, [], []))
  }

  predicate At(s: Doorway, p: nat, st: Stage) { p in s.peers && s.peers[p] == st }

  predicate Enabled(s: Doorway, a: Action)
  {
    match a
    case Connect(p) => p !in s.peers
    case Leave(p) => At(s, p, Ready)
    case HelloCode(p, _, _, _) => At(s, p, Ready)
    case HelloNonce(p) => At(s, p, CodeSpent)
    case HelloMint(p, dev) => At(s, p, CodeSpent)
    case HelloWelcome(p) => At(s, p, Pushed)
    case TrustedHello(p, _, _, _, _) => At(s, p, Ready)
    case Rotate(_, _, _) => true
  }

  function Dropped(s: Doorway, p: nat): Doorway { s.(peers := s.peers - {p}) }

  function Moved(s: Doorway, p: nat, st: Stage): Doorway { s.(peers := s.peers[p := st]) }

  function Apply(s: Doorway, a: Action, sha: string -> string): Doorway
    requires Enabled(s, a)
  {
    match a
    case Connect(p) => Moved(s, p, Ready)
    case Leave(p) => Dropped(s, p)
    case HelloCode(p, v, code, now) =>
      if !Supported(v) then Dropped(s, p)
      else if Check(s.code, code, now).Accepted? then
        Moved(s, p, CodeSpent).(code := Spend(s.code, code, now), log := s.log.(accepted := s.log.accepted + 1))
      else Dropped(s, p)
    case HelloNonce(p) => Dropped(s, p).(log := s.log.(spoiled := s.log.spoiled + 1))
    case HelloMint(p, dev) =>
      Moved(s, p, Pushed).(devices := s.devices + [dev], log := s.log.(pushed := s.log.pushed + [dev]))
    case HelloWelcome(p) => Moved(s, p, Ready).(log := s.log.(welcomes := s.log.welcomes + 1))
    case TrustedHello(p, v, id, token, now) =>
      if Supported(v) && Judge(s.devices, id, sha(token)).Trusted? then
        s.(devices := Touch(s.devices, id, sha(token), now),
           log := s.log.(reconnects := s.log.reconnects + [(id, sha(token))]))
      else Dropped(s, p)
    case Rotate(code, key, now) =>
      s.(code := Fresh(code, key, now), log := s.log.(rotations := s.log.rotations + 1))
  }

  // ---------------------------------------------------------------- counting

  function InStage(s: Doorway, st: Stage): set<nat> { set p | p in s.peers && s.peers[p] == st }

  /** Codes that may still be accepted. */
  function Live(c: Code): nat { if c.consumed then 0 else 1 }

  /** Every accepted code is accounted for, and acceptance uses the code up. */
  ghost predicate Counts(s: Doorway, origin: Doorway)
  {
    && s.log.accepted == s.log.welcomes + s.log.spoiled + |InStage(s, CodeSpent)| + |InStage(s, Pushed)|
    && |s.log.pushed| == s.log.welcomes + |InStage(s, Pushed)|
    && s.log.accepted + Live(s.code) <= s.log.rotations + Live(origin.code)
    && |s.devices| == |origin.devices| + |s.log.pushed|
  }

  /** Only peer `p` moved. */
  lemma Moves(s: Doorway, s': Doorway, p: nat, st: Stage)
    requires forall q | q != p :: (q in s.peers <==> q in s'.peers) && (q in s.peers ==> s.peers[q] == s'.peers[q])
    ensures |InStage(s', st)| + (if At(s, p, st) then 1 else 0) == |InStage(s, st)| + if At(s', p, st) then 1 else 0
  {
    assert InStage(s, st) - {p} == InStage(s', st) - {p};
    Size(InStage(s, st), p);
    Size(InStage(s', st), p);
  }

  lemma Size(a: set<nat>, p: nat)
    ensures |a| == |a - {p}| + if p in a then 1 else 0
  {
    if p in a {
      assert a == (a - {p}) + {p};
    } else {
      assert a - {p} == a;
    }
  }

  lemma CountsKeep(s: Doorway, a: Action, sha: string -> string, origin: Doorway)
    requires Counts(s, origin) && Enabled(s, a)
    ensures Counts(Apply(s, a, sha), origin)
  {
    hide Judge;
    hide Find;
    hide Touch;
    hide InStage;
    var s' := Apply(s, a, sha);
    if a.Rotate? {
      SamePeers(s, s');
    } else {
      Moves(s, s', a.p, CodeSpent);
      Moves(s, s', a.p, Pushed);
      if a.TrustedHello? {
        TouchSize(s.devices, a.id, sha(a.token), a.now);
      }
    }
  }

  lemma SamePeers(s: Doorway, s': Doorway)
    requires s.peers == s'.peers
    ensures InStage(s, CodeSpent) == InStage(s', CodeSpent) && InStage(s, Pushed) == InStage(s', Pushed)
  {
  }

  lemma TouchSize(ds: Devices, id: string, hash: string, now: nat)
    ensures |Touch(ds, id, hash, now)| == |ds|
  {
    FindIs(ds, id);
  }

  // --------------------------------------------------------------- provenance

  /** `id` with `hash` was on the list to begin with, or a handshake pushed it. */
  ghost predicate Known(id: string, hash: string, origin: Doorway, log: History)
  {
    || (exists d :: d in origin.devices && d.id == id && d.hash == hash)
    || (exists d :: d in log.pushed && d.id == id && d.hash == hash)
  }

  ghost predicate Provenance(s: Doorway, origin: Doorway)
  {
    && (forall i: nat | i < |s.devices| :: Known(s.devices[i].id, s.devices[i].hash, origin, s.log))
    && (forall i: nat | i < |s.log.reconnects| :: Known(s.log.reconnects[i].0, s.log.reconnects[i].1, origin, s.log))
  }

  lemma KnownGrows(id: string, hash: string, origin: Doorway, l: History, m: History)
    requires Known(id, hash, origin, l) && l.pushed <= m.pushed
    ensures Known(id, hash, origin, m)
  {
    if d :| d in l.pushed && d.id == id && d.hash == hash {
      assert d in m.pushed;
    }
  }

  lemma ProvenanceKeeps(s: Doorway, a: Action, sha: string -> string, origin: Doorway)
    requires Provenance(s, origin) && Enabled(s, a)
    ensures Provenance(Apply(s, a, sha), origin)
  {
    hide Find;
    hide Known;
    var s' := Apply(s, a, sha);
    forall id, hash | Known(id, hash, origin, s.log) ensures Known(id, hash, origin, s'.log) {
      KnownGrows(id, hash, origin, s.log, s'.log);
    }
    match a
    case HelloMint(_, dev) => PushedKnown(dev, origin, s.log);
    case TrustedHello(_, _, id, token, _) => FindIs(s.devices, id);
    case _ =>
  }

  lemma PushedKnown(dev: Device, origin: Doorway, l: History)
    ensures Known(dev.id, dev.hash, origin, l.(pushed := l.pushed + [dev]))
  {
    assert dev in l.pushed + [dev];
  }

  // --------------------------------------------------------------------- runs

  ghost predicate Run(trace: seq<Doorway>, acts: seq<Action>, sha: string -> string)
  {
    && |trace| == |acts| + 1
    && trace[0] == Boot(trace[0].code, trace[0].devices)
    && forall i: nat | i < |acts| :: Enabled(trace[i], acts[i]) && trace[i + 1] == Apply(trace[i], acts[i], sha)
  }

  lemma {:induction false} RunInv(trace: seq<Doorway>, acts: seq<Action>, sha: string -> string, i: nat)
    requires Run(trace, acts, sha) && i < |trace|
    ensures Counts(trace[i], trace[0]) && Provenance(trace[i], trace[0])
    decreases i
  {
    hide Provenance;
    if i == 0 {
      RunStart(trace[0]);
    } else {
      RunInv(trace, acts, sha, i - 1);
      CountsKeep(trace[i - 1], acts[i - 1], sha, trace[0]);
      ProvenanceKeeps(trace[i - 1], acts[i - 1], sha, trace[0]);
    }
  }

  lemma RunStart(s: Doorway)
    requires s == Boot(s.code, s.devices)
    ensures Counts(s, s) && Provenance(s, s)
  {
    assert InStage(s, CodeSpent) == {} && InStage(s, Pushed) == {};
    assert forall i: nat | i < |s.devices| :: s.devices[i] in s.devices;
  }

  /** However peers interleave, QR handshakes that reach their Welcome, and devices added
      to the list, number at most one plus the rotations. */
  lemma WelcomesBounded(trace: seq<Doorway>, acts: seq<Action>, sha: string -> string, i: nat)
    requires Run(trace, acts, sha) && i < |trace|
    ensures var s := trace[i];
            && s.log.welcomes <= |s.log.pushed| <= s.log.accepted <= 1 + s.log.rotations
            && |s.devices| <= |trace[0].devices| + 1 + s.log.rotations
  {
    RunInv(trace, acts, sha, i);
  }

  /** One code lets at most one handshake through: over any stretch of any run, accepted
      codes number at most the rotations in it plus one if the code was live at its start. */
  lemma {:induction false} OneCodeOneHandshake(
    trace: seq<Doorway>, acts: seq<Action>, sha: string -> string, i: nat, j: nat)
    requires Run(trace, acts, sha) && i <= j < |trace|
    ensures trace[j].log.accepted - trace[i].log.accepted + Live(trace[j].code) <=
            trace[j].log.rotations - trace[i].log.rotations + Live(trace[i].code)
    decreases j
  {
    if i < j {
      OneCodeOneHandshake(trace, acts, sha, i, j - 1);
    }
  }

  /** At step `h` a handshake of peer `p` has its code accepted. */
  ghost predicate CodeAccepted(trace: seq<Doorway>, acts: seq<Action>, h: nat, p: nat)
    requires |trace| == |acts| + 1
  {
    && h < |acts| && acts[h].HelloCode? && acts[h].p == p && Supported(acts[h].v)
    && Check(trace[h].code, acts[h].code, acts[h].now).Accepted?
  }

  /** The code in force at step `h` is the one of the rotation at step `r`. */
  ghost predicate InForce(trace: seq<Doorway>, acts: seq<Action>, r: nat, h: nat)
    requires |trace| == |acts| + 1
  {
    && r < h < |trace| && acts[r].Rotate?
    && trace[h].code.code == acts[r].code && trace[h].code.created == acts[r].now
    && forall k | r < k < h :: !acts[k].Rotate?
  }

  lemma {:induction false} CodeInForce(trace: seq<Doorway>, acts: seq<Action>, sha: string -> string, h: nat)
    requires Run(trace, acts, sha) && h < |trace|
    ensures || (trace[h].code.(consumed := trace[0].code.consumed) == trace[0].code && forall k | 0 <= k < h :: !acts[k].Rotate?)
            || exists r: nat :: InForce(trace, acts, r, h)
    decreases h
  {
    hide Judge;
    hide Touch;
    if h > 0 {
      var i := h - 1;
      CodeInForce(trace, acts, sha, i);
      if acts[i].Rotate? {
        assert InForce(trace, acts, i, h);
      } else if r: nat :| InForce(trace, acts, r, i) {
        assert InForce(trace, acts, r, h);
      }
    }
  }

  /** A code is accepted only within five minutes of being made, and it is then the one that
      the latest rotation made, or the first. */
  lemma AcceptedIsFresh(trace: seq<Doorway>, acts: seq<Action>, sha: string -> string, h: nat, p: nat)
    requires Run(trace, acts, sha) && CodeAccepted(trace, acts, h, p)
    ensures || (acts[h].code == trace[0].code.code && acts[h].now - trace[0].code.created <= 300 * 1000 &&
                forall k | 0 <= k < h :: !acts[k].Rotate?)
            || exists r: nat :: InForce(trace, acts, r, h) && acts[h].code == acts[r].code && acts[h].now - acts[r].now <= 300 * 1000
  {
    CodeInForce(trace, acts, sha, h);
  }

  /** At step `j` peer `p` pushes a device with this id and token hash, inside the
      handshake whose code was accepted at step `h`. */
  ghost predicate MintedBy(
    trace: seq<Doorway>, acts: seq<Action>, h: nat, j: nat, id: string, hash: string)
    requires |trace| == |acts| + 1
  {
    && h < j < |acts| && acts[j].HelloMint? && acts[j].dev.id == id && acts[j].dev.hash == hash
    && CodeAccepted(trace, acts, h, acts[j].p)
    && forall k | h < k <= j :: At(trace[k], acts[j].p, CodeSpent)
  }

  /** Every trusted reconnect ever accepted carried the id and a token with the hash of a
      device that was on the list to begin with, or that an earlier handshake pushed after
      its code was accepted. */
  lemma ReconnectsWereMinted(trace: seq<Doorway>, acts: seq<Action>, sha: string -> string, i: nat)
    requires Run(trace, acts, sha) && i < |acts| && acts[i].TrustedHello? && acts[i].p in trace[i + 1].peers
    ensures || (exists d :: d in trace[0].devices && d.id == acts[i].id && d.hash == sha(acts[i].token))
            || exists h: nat, j: nat :: j < i && MintedBy(trace, acts, h, j, acts[i].id, sha(acts[i].token))
  {
    assert Enabled(trace[i], acts[i]);
    RunInv(trace, acts, sha, i + 1);
    var r := trace[i + 1].log.reconnects;
    assert Known(r[|r| - 1].0, r[|r| - 1].1, trace[0], trace[i + 1].log);
    if d :| d in trace[i].log.pushed && d.id == acts[i].id && d.hash == sha(acts[i].token) {
      var j := PushedWhen(trace, acts, sha, i, d);
      var h := SpentWhen(trace, acts, sha, j, acts[j].p);
      assert MintedBy(trace, acts, h, j, acts[i].id, sha(acts[i].token));
    }
  }

  /** A peer past its code had it accepted, and has stood there since. */
  lemma {:induction false} SpentWhen(trace: seq<Doorway>, acts: seq<Action>, sha: string -> string, j: nat, p: nat)
    returns (h: nat)
    requires Run(trace, acts, sha) && j < |trace| && At(trace[j], p, CodeSpent)
    ensures h < j && CodeAccepted(trace, acts, h, p) && forall k | h < k <= j :: At(trace[k], p, CodeSpent)
    decreases j
  {
    hide Judge;
    hide Touch;
    assert Enabled(trace[j - 1], acts[j - 1]);
    if At(trace[j - 1], p, CodeSpent) {
      h := SpentWhen(trace, acts, sha, j - 1, p);
    } else {
      h := j - 1;
    }
  }

  lemma {:induction false} PushedWhen(trace: seq<Doorway>, acts: seq<Action>, sha: string -> string, i: nat, d: Device)
    returns (j: nat)
    requires Run(trace, acts, sha) && i < |trace| && d in trace[i].log.pushed
    ensures j < i && acts[j].HelloMint? && acts[j].dev == d && At(trace[j], acts[j].p, CodeSpent)
    decreases i
  {
    assert trace[0].log.pushed == [];
    if d in trace[i - 1].log.pushed {
      j := PushedWhen(trace, acts, sha, i - 1, d);
    } else {
      j := i - 1;
    }
  }
}
