/** The long-lived device list: in memory behind a mutex, on disk through a temporary
    file and a rename. Concurrent `mint` and `verify` calls interleave between their
    critical sections, and the process may stop anywhere and start again. Starting again
    while the file cannot be read begins with an empty list, the file still in place. */
module TrustStore {
  import opened Basics

  datatype Device = Device(id: string, hash: string, name: string, created: nat, lastSeen: nat)

  type Devices = seq<Device>

  /** What a path holds: nothing, something `open` cannot use, or a complete list. */
  datatype File = Absent | Junk | Snapshot(devices: Devices)

  /** The first entry with this id. */
  function Find(ds: Devices, id: string): Option<nat>
  {
    if ds == [] then None
    else if Find(Front(ds), id).Some? then Find(Front(ds), id)
    else if Last(ds).id == id then Some(|ds| - 1)
    else None
  }

  lemma {:induction false} FindIs(ds: Devices, id: string)
    ensures Find(ds, id).Some? ==>
              var i := Find(ds, id).value; i < |ds| && ds[i].id == id && forall j | 0 <= j < i :: ds[j].id != id
    ensures Find(ds, id).None? ==> forall d | d in ds :: d.id != id
  {
    if ds != [] {
      FindIs(Front(ds), id);
    }
  }

  datatype Verdict = Trusted(name: string) | UnknownDevice | BadToken

  /** verify's answer for a device id and the hash of the token presented. */
  function Judge(ds: Devices, id: string, hash: string): Verdict
  {
    FindIs(ds, id);
    var i := Find(ds, id);
    if i.None? then UnknownDevice
    else if ds[i.value].hash != hash then BadToken
    else Trusted(ds[i.value].name)
  }

  function Touch(ds: Devices, id: string, hash: string, now: nat): Devices
  {
    FindIs(ds, id);
    if Judge(ds, id, hash).Trusted? then
      var i := Find(ds, id).value; ds[i := ds[i].(lastSeen := now)]
    else ds
  }

  ghost predicate Accepts(ds: Devices, id: string, hash: string) { Judge(ds, id, hash).Trusted? }

  /** `open`: anything but a complete list that can be read starts fresh. */
  function Load(f: File, readable: bool): Devices { if readable && f.Snapshot? then f.devices else [] }

  /** The list that the file would give to a reader. */
  function Kept(f: File): Devices { Load(f, true) }

  function Ids(ds: Devices): set<string> { set d | d in ds :: d.id }

  // ------------------------------------------------------- steps of many calls

  datatype Call = Mint(dev: Device) | Verify

  /** A call past its first critical section: waiting to save, holding the lock with the
      list serialized, holding it with the temporary file written, or returned. */
  datatype Stage = Waiting | Serialized(snapshot: Devices) | Written(snapshot: Devices) | Done(ok: bool)

  datatype Thread = Thread(call: Call, stage: Stage)

  datatype State = State(
    devices: Devices, file: File, tmp: File, lock: Option<nat>, threads: map<nat, Thread>,
    running: bool, issued: set<string>)   // issued: every device id made so far

  datatype Action =
    | MintPush(t: nat, dev: Device)
    | VerifyLook(t: nat, id: string, hash: string, now: nat)
    | Lock(t: nat, serializes: bool)
    | WriteTmp(t: nat, writes: bool)
    | Rename(t: nat, renames: bool)
    | Crash(torn: bool)
    | Reopen(readable: bool)

  function Boot(file: File, tmp: File, readable: bool): State
  {
    State(Load(file, readable), file, tmp, None, map[], true, Ids(Kept(file)))
  }

  function Staged(s: State, t: nat, st: Stage): State
    requires t in s.threads
  {
    s.(threads := s.threads[t := s.threads[t].(stage := st)])
  }

  predicate Stands(s: State, t: nat) { s.running && t in s.threads }

  /** Device ids are fresh UUIDs: a minted id was never made before. */
  predicate Enabled(s: State, a: Action)
  {
    match a
    case MintPush(t, dev) => s.running && t !in s.threads && s.lock.None? && dev.id !in s.issued
    case VerifyLook(t, _, _, _) => s.running && t !in s.threads && s.lock.None?
    case Lock(t, _) => Stands(s, t) && s.threads[t].stage.Waiting? && s.lock.None?
    case WriteTmp(t, _) => Stands(s, t) && s.threads[t].stage.Serialized?
    case Rename(t, _) => Stands(s, t) && s.threads[t].stage.Written?
    case Crash(_) => s.running
    case Reopen(_) => !s.running
  }

  function Apply(s: State, a: Action): State
    requires Enabled(s, a)
  {
    match a
    case MintPush(t, dev) =>
      s.(devices := s.devices + [dev], threads := s.threads[t := Thread(Mint(dev), Waiting)],
         issued := s.issued + {dev.id})
    case VerifyLook(t, id, hash, now) =>
      s.(devices := Touch(s.devices, id, hash, now),
         threads := s.threads[t := Thread(Verify, if Judge(s.devices, id, hash).Trusted? then Waiting else Done(true))])
    case Lock(t, serializes) =>
      if serializes then Staged(s, t, Serialized(s.devices)).(lock := Some(t)) else Staged(s, t, Done(false))
    case WriteTmp(t, writes) =>
      if writes then Staged(s, t, Written(s.threads[t].stage.snapshot)).(tmp := Snapshot(s.threads[t].stage.snapshot))
      else Staged(s, t, Done(false)).(tmp := Junk, lock := None)
    case Rename(t, renames) =>
      if renames then Staged(s, t, Done(true)).(file := s.tmp, tmp := Absent, lock := None)
      else Staged(s, t, Done(false)).(lock := None)
    case Crash(torn) => s.(running := false, threads := map[], lock := None, tmp := if torn then Junk else s.tmp)
    case Reopen(readable) => s.(running := true, devices := Load(s.file, readable))
  }

  // ---------------------------------------------------------------- invariant

  /** A save in progress belongs to the lock holder, has the current list in hand, and
      has it in the temporary file before it renames. */
  ghost predicate SavesCurrent(s: State)
  {
    && (forall t | t in s.threads && (s.threads[t].stage.Serialized? || s.threads[t].stage.Written?) ::
          s.lock == Some(t) && s.threads[t].stage.snapshot == s.devices)
    && (forall t | t in s.threads && s.threads[t].stage.Written? :: s.tmp == Snapshot(s.devices))
  }

  ghost predicate Knows(ds: Devices, dev: Device) { Accepts(ds, dev.id, dev.hash) }

  /** Every mint under way is in memory under an id that is never made again. */
  ghost predicate MintsKnown(s: State)
  {
    forall t | t in s.threads && s.threads[t].call.Mint? ::
      Knows(s.devices, s.threads[t].call.dev) && s.threads[t].call.dev.id in s.issued
  }

  ghost predicate Inv(s: State)
  {
    && SavesCurrent(s) && MintsKnown(s) && (!s.running ==> s.threads == map[])
    && Ids(s.devices) <= s.issued && Ids(Kept(s.file)) <= s.issued
  }

  lemma FindSnoc(ds: Devices, d: Device, id: string)
    ensures Find(ds + [d], id) == if Find(ds, id).Some? then Find(ds, id) else if d.id == id then Some(|ds|) else None
  {
    assert Front(ds + [d]) == ds;
  }

  lemma PushKnows(ds: Devices, dev: Device, d: Device)
    requires Find(ds, dev.id).None?
    ensures Knows(ds, d) ==> Knows(ds + [dev], d)
    ensures Knows(ds + [dev], dev)
  {
    FindSnoc(ds, dev, d.id);
    FindSnoc(ds, dev, dev.id);
    FindIs(ds, d.id);
  }

  lemma {:induction false} FindByIds(ds: Devices, es: Devices, id: string)
    requires |ds| == |es| && forall i | 0 <= i < |ds| :: ds[i].id == es[i].id
    ensures Find(ds, id) == Find(es, id)
  {
    if ds != [] {
      FindByIds(Front(ds), Front(es), id);
    }
  }

  lemma TouchKnows(ds: Devices, id: string, hash: string, now: nat, d: Device)
    ensures Knows(ds, d) <==> Knows(Touch(ds, id, hash, now), d)
  {
    FindIs(ds, id);
    FindIs(ds, d.id);
    FindByIds(ds, Touch(ds, id, hash, now), d.id);
  }

  lemma {:induction false} SameIds(ds: Devices, es: Devices)
    requires |ds| == |es| && forall i | 0 <= i < |ds| :: ds[i].id == es[i].id
    ensures Ids(ds) == Ids(es)
  {
    if ds != [] {
      SameIds(Front(ds), Front(es));
      assert ds == Front(ds) + [Last(ds)] && es == Front(es) + [Last(es)];
      assert Ids(ds) == Ids(Front(ds)) + {Last(ds).id};
      assert Ids(es) == Ids(Front(es)) + {Last(es).id};
    }
  }

  lemma TouchIds(ds: Devices, id: string, hash: string, now: nat)
    ensures Ids(Touch(ds, id, hash, now)) == Ids(ds)
  {
    FindIs(ds, id);
    SameIds(Touch(ds, id, hash, now), ds);
  }

  lemma NotFound(ds: Devices, id: string)
    ensures Find(ds, id).None? <==> id !in Ids(ds)
  {
    FindIs(ds, id);
  }

  lemma StepKeeps(s: State, a: Action)
    requires Inv(s) && Enabled(s, a)
    ensures Inv(Apply(s, a))
  {
    hide Judge, Touch, Find;
    match a
    case MintPush(t, dev) =>
      NotFound(s.devices, dev.id);
      forall d ensures Knows(s.devices, d) ==> Knows(s.devices + [dev], d) { PushKnows(s.devices, dev, d); }
      PushKnows(s.devices, dev, dev);
    case VerifyLook(t, id, hash, now) =>
      TouchIds(s.devices, id, hash, now);
      forall d ensures Knows(s.devices, d) ==> Knows(Touch(s.devices, id, hash, now), d) {
        TouchKnows(s.devices, id, hash, now, d);
      }
    case Rename(t, _) =>
      assert s.tmp == Snapshot(s.devices);
    case _ =>
  }

  // ---------------------------------------------------------------- the store

  /** save under the lock: three steps of the call that holds it, unless one fails. */
  function Saved(s: State, t: nat, serializes: bool, writes: bool, renames: bool): State
    requires Enabled(s, Lock(t, serializes))
  {
    var s1 := Apply(s, Lock(t, serializes));
    if !serializes then s1
    else
      var s2 := Apply(s1, WriteTmp(t, writes));
      if writes then Apply(s2, Rename(t, renames)) else s2
  }

  lemma SavedIs(s: State, t: nat, serializes: bool, writes: bool, renames: bool)
    requires Inv(s) && Enabled(s, Lock(t, serializes))
    ensures var ok := serializes && writes && renames;
            var s' := Saved(s, t, serializes, writes, renames);
            && Inv(s') && s' == Staged(s, t, Done(ok)).(file := s'.file, tmp := s'.tmp)
            && s'.file == (if ok then Snapshot(s.devices) else s.file)
            && s'.tmp == if !serializes then s.tmp else if !writes then Junk else if ok then Absent else Snapshot(s.devices)
  {
    hide Inv;
    var s1 := Apply(s, Lock(t, serializes));
    StepKeeps(s, Lock(t, serializes));
    if serializes {
      StepKeeps(s1, WriteTmp(t, writes));
      if writes {
        StepKeeps(Apply(s1, WriteTmp(t, writes)), Rename(t, renames));
      }
    }
  }

  /** Nothing that was accepted stops being accepted. */
  ghost predicate Keeps(ds: Devices, es: Devices)
  {
    forall id, hash :: Accepts(ds, id, hash) ==> Accepts(es, id, hash)
  }

  lemma PushMeans(s: State, t: nat, dev: Device)
    requires Inv(s) && Enabled(s, MintPush(t, dev))
    ensures var s' := Apply(s, MintPush(t, dev));
            Inv(s') && Keeps(s.devices, s'.devices) && Knows(s'.devices, dev)
  {
    StepKeeps(s, MintPush(t, dev));
    NotFound(s.devices, dev.id);
    hide Judge, Find, Inv;
    PushKnows(s.devices, dev, dev);
    forall id, hash ensures Accepts(s.devices, id, hash) ==> Accepts(s.devices + [dev], id, hash) {
      PushKnows(s.devices, dev, dev.(id := id, hash := hash));
    }
  }

  /** The critical sections and the file operations, as the code performs them. The ghost
      fields say which calls are under way. */
  class Store {
    var devices: Devices
    var file: File
    var tmp: File
    ghost var lock: Option<nat>
    ghost var threads: map<nat, Thread>
    ghost var issued: set<string>

    ghost function View(): State
      reads this
    {
      State(devices, file, tmp, lock, threads, true, issued)
    }

    ghost predicate Valid()
      reads this
    {
      Inv(View())
    }

    constructor (file: File, tmp: File, readable: bool)
      ensures Valid() && View() == Boot(file, tmp, readable)
    {
      this.file, this.tmp := file, tmp;
      match file {
        case Snapshot(ds) =>
          devices := if readable then ds else [];
        case _ =>
          devices := [];
      }
      lock, threads, issued := None, map[], Ids(Kept(file));
    }

    /** mint's section under the lock: from now on the new device is accepted, and so is
        every device that was. */
    method Push(ghost t: nat, dev: Device)
      requires Valid() && Enabled(View(), MintPush(t, dev))
      modifies this
      ensures Valid() && View() == Apply(old(View()), MintPush(t, dev))
      ensures Accepts(devices, dev.id, dev.hash) && Keeps(old(devices), devices)
    {
      hide Inv, Keeps, Judge;
      PushMeans(View(), t, dev);
      devices := devices + [dev];
      threads, issued := threads[t := Thread(Mint(dev), Waiting)], issued + {dev.id};
    }

    /** verify's section under the lock: the first device with the id decides. */
    method Lookup(ghost t: nat, id: string, hash: string, now: nat) returns (v: Verdict)
      requires Valid() && Enabled(View(), VerifyLook(t, id, hash, now))
      modifies this
      ensures Valid() && View() == Apply(old(View()), VerifyLook(t, id, hash, now))
      ensures v == Judge(old(devices), id, hash)
    {
      hide Inv;
      ghost var s := View();
      StepKeeps(s, VerifyLook(t, id, hash, now));
      FindIs(devices, id);
      threads := threads[t := Thread(Verify, if Judge(devices, id, hash).Trusted? then Waiting else Done(true))];
      var i := 0;
      while i < |devices| && devices[i].id != id
        invariant i <= |devices| && forall j | 0 <= j < i :: devices[j].id != id
      {
        i := i + 1;
      }
      if i == |devices| {
        return UnknownDevice;
      }
      if devices[i].hash != hash {
        return BadToken;
      }
      v := Trusted(devices[i].name);
      devices := devices[i := devices[i].(lastSeen := now)];
    }

    /** save, which holds the lock throughout. Whatever fails, the file keeps its old
        content or gets the whole list. */
    method Save(ghost t: nat, serializes: bool, writes: bool, renames: bool) returns (ok: bool)
      requires Valid() && Enabled(View(), Lock(t, serializes))
      modifies this`file, this`tmp, this`threads
      ensures Valid() && View() == Saved(old(View()), t, serializes, writes, renames)
      ensures ok <==> serializes && writes && renames
      ensures file == if ok then Snapshot(devices) else old(file)
    {
      hide Inv;
      SavedIs(View(), t, serializes, writes, renames);
      threads := threads[t := threads[t].(stage := Done(serializes && writes && renames))];
      if !serializes {
        return false;
      }
      if !writes {
        tmp := Junk;
        return false;
      }
      tmp := Snapshot(devices);
      if !renames {
        return false;
      }
      file, tmp := tmp, Absent;
      ok := true;
    }
  }

  // --------------------------------------------------------------------- runs

  /** A run is the list of states it passes through. */
  ghost predicate Run(trace: seq<State>, acts: seq<Action>)
  {
    && |trace| == |acts| + 1
    && (exists readable :: trace[0] == Boot(trace[0].file, trace[0].tmp, readable))
    && forall i: nat | i < |acts| :: Enabled(trace[i], acts[i]) && trace[i + 1] == Apply(trace[i], acts[i])
  }

  lemma {:induction false} RunInv(trace: seq<State>, acts: seq<Action>, i: nat)
    requires Run(trace, acts) && i < |trace|
    ensures Inv(trace[i])
    decreases i
  {
    if i > 0 {
      RunInv(trace, acts, i - 1);
      StepKeeps(trace[i - 1], acts[i - 1]);
    }
  }

  /** The file is always its initial content or a complete copy of a list that was in
      memory: it changes only at a rename, and then to the list in memory right then. */
  lemma {:induction false} FileIsComplete(trace: seq<State>, acts: seq<Action>, i: nat)
    requires Run(trace, acts) && i < |trace|
    ensures trace[i].file == trace[0].file || exists j: nat :: j < i && trace[i].file == Snapshot(trace[j].devices)
    decreases i
  {
    if i > 0 {
      FileIsComplete(trace, acts, i - 1);
      RunInv(trace, acts, i - 1);
      var p := trace[i - 1];
      if trace[i].file != p.file {
        assert trace[i].file == Snapshot(p.devices);
      }
    }
  }

  /** mint returns: it reports success exactly when its device just reached the file, and
      on every failure the file is as it was while memory accepts the device all the same. */
  lemma MintReports(trace: seq<State>, acts: seq<Action>, i: nat, t: nat)
    requires Run(trace, acts) && i < |acts| && t in trace[i].threads && t in trace[i + 1].threads
    requires trace[i].threads[t].call.Mint? && !trace[i].threads[t].stage.Done? && trace[i + 1].threads[t].stage.Done?
    ensures var ok, d := trace[i + 1].threads[t].stage.ok, trace[i].threads[t].call.dev;
            && (ok <==> acts[i] == Rename(t, true))
            && (ok ==> trace[i + 1].file == Snapshot(trace[i].devices) && Accepts(Kept(trace[i + 1].file), d.id, d.hash))
            && (!ok ==> trace[i + 1].file == trace[i].file)
            && Accepts(trace[i + 1].devices, d.id, d.hash)
  {
    hide Judge, Touch, Find;
    RunInv(trace, acts, i);
    RunInv(trace, acts, i + 1);
    assert Enabled(trace[i], acts[i]);
  }

  // ------------------------------------------------------- how long a mint lasts

  /** At step `m` the mint of `dev` succeeds. */
  ghost predicate Minted(trace: seq<State>, acts: seq<Action>, m: nat, dev: Device)
    requires Run(trace, acts)
  {
    m < |acts| && acts[m].Rename? && acts[m].renames && trace[m].threads[acts[m].t].call == Mint(dev)
  }

  /** After step `m` and before step `j` the latest reopening could not read the file. */
  predicate Blind(acts: seq<Action>, m: nat, j: nat)
    requires j <= |acts|
  {
    j > m + 1 && if acts[j - 1].Reopen? then !acts[j - 1].readable else Blind(acts, m, j - 1)
  }

  predicate Saves(a: Action) { a.Rename? && a.renames }

  /** A list begun blindly was saved over the file. */
  predicate Lost(acts: seq<Action>, m: nat, j: nat)
    requires j <= |acts|
  {
    j > m + 1 && (Lost(acts, m, j - 1) || (Saves(acts[j - 1]) && Blind(acts, m, j - 1)))
  }

  ghost predicate Tracks(s: State, dev: Device, lost: bool, blind: bool)
  {
    && dev.id in s.issued
    && (if lost then dev.id !in Ids(Kept(s.file)) else Knows(Kept(s.file), dev))
    && (s.running ==> if lost || blind then dev.id !in Ids(s.devices) else Knows(s.devices, dev))
  }

  lemma TrackStep(s: State, a: Action, dev: Device, lost: bool, blind: bool)
    requires Inv(s) && Enabled(s, a) && Tracks(s, dev, lost, blind)
    ensures Tracks(Apply(s, a), dev, lost || (Saves(a) && blind), if a.Reopen? then !a.readable else blind)
  {
    hide Judge, Touch, Find;
    match a
    case MintPush(_, d) =>
      NotFound(s.devices, d.id);
      PushKnows(s.devices, d, dev);
    case VerifyLook(_, id, hash, now) =>
      TouchIds(s.devices, id, hash, now);
      TouchKnows(s.devices, id, hash, now, dev);
    case Rename(_, _) =>
      assert s.tmp == Snapshot(s.devices);
    case _ =>
  }

  lemma {:induction false} Tracked(trace: seq<State>, acts: seq<Action>, m: nat, j: nat, dev: Device)
    requires Run(trace, acts) && Minted(trace, acts, m, dev) && m < j < |trace|
    ensures Tracks(trace[j], dev, Lost(acts, m, j), Blind(acts, m, j))
    decreases j
  {
    hide Judge, Find, Inv, Apply;
    RunInv(trace, acts, j - 1);
    assert Enabled(trace[j - 1], acts[j - 1]);
    if j == m + 1 {
      JustMinted(trace[m], acts[m], dev);
    } else {
      Tracked(trace, acts, m, j - 1, dev);
      TrackStep(trace[j - 1], acts[j - 1], dev, Lost(acts, m, j - 1), Blind(acts, m, j - 1));
    }
  }

  lemma JustMinted(s: State, a: Action, dev: Device)
    requires Inv(s) && Enabled(s, a) && Saves(a) && s.threads[a.t].call == Mint(dev)
    ensures Tracks(Apply(s, a), dev, false, false)
  {
    hide Judge, Find;
    assert s.tmp == Snapshot(s.devices);
  }

  lemma Unknown(ds: Devices, dev: Device)
    ensures dev.id !in Ids(ds) ==> !Knows(ds, dev)
  {
    NotFound(ds, dev.id);
  }

  /** How long a successful mint lasts, whenever the process stops and however calls
      interleave. The file accepts the device exactly as long as no list that was begun
      without reading the file has been saved over it, and memory exactly as long as also
      the latest reopening read the file. */
  lemma MintedSurvives(trace: seq<State>, acts: seq<Action>, m: nat, j: nat, dev: Device)
    requires Run(trace, acts) && Minted(trace, acts, m, dev) && m < j < |trace|
    ensures Accepts(Kept(trace[j].file), dev.id, dev.hash) <==> !Lost(acts, m, j)
    ensures trace[j].running ==>
              (Accepts(trace[j].devices, dev.id, dev.hash) <==> !Lost(acts, m, j) && !Blind(acts, m, j))
  {
    hide Run, Minted, Lost, Blind, Judge, Find, Ids;
    Tracked(trace, acts, m, j, dev);
    Unknown(Kept(trace[j].file), dev);
    Unknown(trace[j].devices, dev);
  }

  /** As long as every reopening reads the file nothing minted is ever lost. */
  lemma {:induction false} ReadsKeepAll(acts: seq<Action>, m: nat, j: nat)
    requires j <= |acts| && forall k | m < k < j && acts[k].Reopen? :: acts[k].readable
    ensures !Lost(acts, m, j) && !Blind(acts, m, j)
  {
    if j > m + 1 {
      ReadsKeepAll(acts, m, j - 1);
    }
  }

  lemma Extends(trace: seq<State>, acts: seq<Action>, a: Action)
    requires Run(trace, acts) && Enabled(Last(trace), a)
    ensures Run(trace + [Apply(Last(trace), a)], acts + [a])
  {
    hide Apply, Enabled;
    var more := trace + [Apply(Last(trace), a)];
    assert more[0] == trace[0] && more[|acts|] == Last(trace);
  }

  function MintActs(t: nat, dev: Device): seq<Action>
  {
    [MintPush(t, dev), Lock(t, true), WriteTmp(t, true), Rename(t, true)]
  }

  /** A run goes on with one undisturbed mint. */
  lemma MintRuns(trace: seq<State>, acts: seq<Action>, t: nat, dev: Device) returns (more: seq<State>)
    requires Run(trace, acts) && trace != []
    requires var s := Last(trace); s.running && t !in s.threads && s.lock.None? && dev.id !in s.issued
    ensures |more| == 4 && Run(trace + more, acts + MintActs(t, dev))
    ensures more[2].threads.Keys == Last(trace).threads.Keys + {t} && more[2].threads[t].call == Mint(dev)
    ensures more[3].running && more[3].issued == Last(trace).issued + {dev.id}
  {
    hide Run;
    var s := Last(trace);
    var s1 := Apply(s, MintPush(t, dev));
    var s2 := Apply(s1, Lock(t, true));
    var s3 := Apply(s2, WriteTmp(t, true));
    more := [s1, s2, s3, Apply(s3, Rename(t, true))];
    Extends(trace, acts, MintPush(t, dev));
    assert more[..1] == [s1] && MintActs(t, dev)[..1] == [MintPush(t, dev)];
    Extends(trace + more[..1], acts + MintActs(t, dev)[..1], Lock(t, true));
    assert trace + more[..2] == trace + more[..1] + [s2];
    assert acts + MintActs(t, dev)[..2] == acts + MintActs(t, dev)[..1] + [Lock(t, true)];
    Extends(trace + more[..2], acts + MintActs(t, dev)[..2], WriteTmp(t, true));
    assert trace + more[..3] == trace + more[..2] + [s3];
    assert acts + MintActs(t, dev)[..3] == acts + MintActs(t, dev)[..2] + [WriteTmp(t, true)];
    Extends(trace + more[..3], acts + MintActs(t, dev)[..3], Rename(t, true));
    assert trace + more == trace + more[..3] + [more[3]];
    assert acts + MintActs(t, dev) == acts + MintActs(t, dev)[..3] + [Rename(t, true)];
  }

  /** A device is minted, the process stops, the file cannot be read at the next start,
      and the next mint saves its list of one. */
  function BlindStart(a: Device, b: Device): seq<Action>
  {
    MintActs(0, a) + [Crash(false), Reopen(false)] + MintActs(1, b)
  }

  lemma BlindStartRuns(a: Device, b: Device) returns (trace: seq<State>)
    requires a.id != b.id
    ensures Run(trace, BlindStart(a, b)) && Minted(trace, BlindStart(a, b), 3, a)
  {
    var s0 := Boot(Absent, Absent, true);
    assert [s0][0] == Boot([s0][0].file, [s0][0].tmp, true);
    var first := MintRuns([s0], [], 0, a);
    var t4 := [s0] + first;
    assert [] + MintActs(0, a) == MintActs(0, a);
    var s5 := Apply(Last(t4), Crash(false));
    Extends(t4, MintActs(0, a), Crash(false));
    var t5 := t4 + [s5];
    Extends(t5, MintActs(0, a) + [Crash(false)], Reopen(false));
    var t6 := t5 + [Apply(s5, Reopen(false))];
    assert MintActs(0, a) + [Crash(false), Reopen(false)] == MintActs(0, a) + [Crash(false)] + [Reopen(false)];
    hide Run;
    var second := MintRuns(t6, MintActs(0, a) + [Crash(false), Reopen(false)], 1, b);
    trace := t6 + second;
    assert trace[3] == first[2];
  }

  lemma BlindStartFlags(a: Device, b: Device)
    ensures var acts := BlindStart(a, b); !Lost(acts, 3, 9) && Lost(acts, 3, 10)
  {
    var acts := BlindStart(a, b);
    assert !Lost(acts, 3, 5);
    assert !Lost(acts, 3, 6) && Blind(acts, 3, 6);
    assert !Lost(acts, 3, 7) && Blind(acts, 3, 7);
    assert !Lost(acts, 3, 8) && Blind(acts, 3, 8);
    assert !Lost(acts, 3, 9) && Blind(acts, 3, 9);
  }

  /** That run loses the device: on disk until the last step, and gone after it. */
  lemma UnreadableLoses(a: Device, b: Device)
    requires a.id != b.id
    ensures exists trace: seq<State> :: Run(trace, BlindStart(a, b)) && Minted(trace, BlindStart(a, b), 3, a) &&
              Accepts(Kept(trace[9].file), a.id, a.hash) && !Accepts(Kept(trace[10].file), a.id, a.hash)
  {
    hide Judge, Find, Minted, Lost;
    var acts := BlindStart(a, b);
    var trace := BlindStartRuns(a, b);
    BlindStartFlags(a, b);
    MintedSurvives(trace, acts, 3, 9, a);
    MintedSurvives(trace, acts, 3, 10, a);
  }
}
