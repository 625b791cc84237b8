/** Takeover of a host's `online` slot: any number of overlapping host loops, with every
    critical section of `host_loop` one atomic step. */
module Takeover {
  import opened Basics

  /** Where a loop is: it has its instance tag; it has swapped itself in and may owe a
      displaced loop its cancel signal; its reader runs; its reader has ended; it has
      cleaned up. */
  datatype Phase = Tagged | Owing(displaced: nat) | Reading | Ended | Gone

  /** `cancelled` is the stored permit of the loop's Notify. */
  datatype HostLoop = HostLoop(host: string, phase: Phase, cancelled: bool)

  /** Loops are named by their instance tag. `latest` is history: the last loop to swap
      itself in for each host. */
  datatype Relay = Relay(
    next: nat, loops: map<nat, HostLoop>, online: map<string, nat>, latest: map<string, nat>)

  const START := Relay(0, map[], map[], map[])

  datatype Action =
    | FetchTag(host: string)
    | SwapIn(tag: nat)
    | NotifyOld(tag: nat)
    | StreamEnds(tag: nat)
    | SeesCancel(tag: nat)
    | CleanUp(tag: nat)

  predicate Enabled(s: Relay, a: Action)
  {
    match a
    case FetchTag(_) => true
    case SwapIn(t) => t in s.loops && s.loops[t].phase.Tagged?
    case NotifyOld(t) => t in s.loops && s.loops[t].phase.Owing?
    case StreamEnds(t) => t in s.loops && s.loops[t].phase.Reading?
    case SeesCancel(t) => t in s.loops && s.loops[t].phase.Reading? && s.loops[t].cancelled
    case CleanUp(t) => t in s.loops && s.loops[t].phase.Ended?
  }

  function At(s: Relay, t: nat, p: Phase): Relay
    requires t in s.loops
  {
    s.(loops := s.loops[t := s.loops[t].(phase := p)])
  }

  function Cancel(s: Relay, t: nat): Relay
  {
    if t in s.loops then s.(loops := s.loops[t := s.loops[t].(cancelled := true)]) else s
  }

  /** The map after `online.insert` and the entry it displaced. */
  function Inserted(online: map<string, nat>, host: string, tag: nat): (map<string, nat>, Option<nat>)
  {
    (online[host := tag], if host in online then Some(online[host]) else None)
  }

  /** The map after the cleanup section: only our own entry is removed. */
  function Removed(online: map<string, nat>, host: string, tag: nat): map<string, nat>
  {
    if host in online && online[host] == tag then online - {host} else online
  }

  function Apply(s: Relay, a: Action): Relay
    requires Enabled(s, a)
  {
    match a
    case FetchTag(h) => s.(next := s.next + 1, loops := s.loops[s.next := HostLoop(h, Tagged, false)])
    case SwapIn(t) =>
      var h := s.loops[t].host;
      var (online, displaced) := Inserted(s.online, h, t);
      At(s, t, if displaced.Some? then Owing(displaced.value) else Reading)
        .(online := online, latest := s.latest[h := t])
    case NotifyOld(t) => Cancel(At(s, t, Reading), s.loops[t].phase.displaced)
    case StreamEnds(t) => At(s, t, Ended)
    case SeesCancel(t) => At(s, t, Ended)
    case CleanUp(t) => At(s, t, Gone).(online := Removed(s.online, s.loops[t].host, t))
  }

  // ---------------------------------------------------------------- invariant

  /** Swapped itself in and not cleaned up yet. */
  predicate Serving(l: HostLoop) { l.phase.Owing? || l.phase.Reading? || l.phase.Ended? }

  predicate Swapped(l: HostLoop) { Serving(l) || l.phase.Gone? }

  /** `d` displaced `t` and has not signalled it yet. */
  predicate Owes(s: Relay, d: nat, t: nat) { d in s.loops && s.loops[d].phase == Owing(t) }

  predicate Current(s: Relay, t: nat)
  {
    t in s.loops && s.loops[t].host in s.online && s.online[s.loops[t].host] == t
  }

  /** Every tag handed out is below the counter. */
  ghost predicate TagsFresh(s: Relay)
  {
    forall t | t in s.loops :: t < s.next
  }

  /** The slot is exactly the last loop to swap in, as long as it has not cleaned up. */
  ghost predicate SlotExact(s: Relay)
  {
    && (forall h | h in s.latest ::
          s.latest[h] in s.loops && s.loops[s.latest[h]].host == h && Swapped(s.loops[s.latest[h]]))
    && (forall h :: h in s.online <==> h in s.latest && Serving(s.loops[s.latest[h]]))
    && (forall h | h in s.online :: s.online[h] == s.latest[h])
    && (forall t | t in s.loops && Swapped(s.loops[t]) :: s.loops[t].host in s.latest)
  }

  /** A later loop has swapped itself in for the same host. */
  predicate Superseded(s: Relay, t: nat)
  {
    t in s.loops && Swapped(s.loops[t]) && s.loops[t].host in s.latest && s.latest[s.loops[t].host] != t
  }

  /** A superseded loop has been signalled, or exactly one loop still owes it the
      signal; nobody else has or is owed one. */
  ghost predicate SignalsExact(s: Relay)
  {
    && (forall t | Superseded(s, t) && !s.loops[t].phase.Gone? :: s.loops[t].cancelled || exists d :: Owes(s, d, t))
    && (forall d, t | Owes(s, d, t) ::
          d != t && Superseded(s, t) && s.loops[t].host == s.loops[d].host && !s.loops[t].cancelled)
    && (forall c, d, t | Owes(s, c, t) && Owes(s, d, t) :: c == d)
    && (forall t | t in s.loops && s.loops[t].cancelled :: Superseded(s, t))
  }

  ghost predicate Inv(s: Relay) { TagsFresh(s) && SlotExact(s) && SignalsExact(s) }

  lemma FetchKeeps(s: Relay, h: string)
    requires Inv(s)
    ensures Inv(Apply(s, FetchTag(h)))
  {
    var s' := Apply(s, FetchTag(h));
    assert s.next !in s.loops;
    forall t | t in s.loops ensures s'.loops[t] == s.loops[t] {}
    forall d, t ensures Owes(s', d, t) == Owes(s, d, t) {}
  }

  lemma SwapKeeps(s: Relay, t: nat)
    requires Inv(s) && Enabled(s, SwapIn(t))
    ensures Inv(Apply(s, SwapIn(t)))
  {
    hide SignalsExact;
    if s.loops[t].host in s.online {
      SwapDisplaces(s, t);
    } else {
      SwapFree(s, t);
    }
  }

  lemma SwapDisplaces(s: Relay, t: nat)
    requires Inv(s) && Enabled(s, SwapIn(t)) && s.loops[t].host in s.online
    ensures SignalsExact(Apply(s, SwapIn(t)))
  {
    var s', h := Apply(s, SwapIn(t)), s.loops[t].host;
    var prev := s.latest[h];
    forall c, k | c != t ensures Owes(s', c, k) == Owes(s, c, k) {}
    forall k | k in s.loops && k != t ensures Superseded(s', k) == (Superseded(s, k) || k == prev) {}
    assert Owes(s', t, prev) && !s.loops[prev].cancelled && !Superseded(s', t);
    forall c ensures !Owes(s, c, prev) {}
    forall k | Superseded(s', k) && !s'.loops[k].phase.Gone?
      ensures s'.loops[k].cancelled || exists d :: Owes(s', d, k)
    {
      if k != prev && !s.loops[k].cancelled {
        var d :| Owes(s, d, k);
        assert Owes(s', d, k);
      }
    }
  }

  lemma SwapFree(s: Relay, t: nat)
    requires Inv(s) && Enabled(s, SwapIn(t)) && s.loops[t].host !in s.online
    ensures SignalsExact(Apply(s, SwapIn(t)))
  {
    var s' := Apply(s, SwapIn(t));
    forall c, k ensures Owes(s', c, k) == Owes(s, c, k) {}
    forall k | Superseded(s', k) && !s'.loops[k].phase.Gone?
      ensures s'.loops[k].cancelled || exists d :: Owes(s', d, k)
    {
      if !s.loops[k].cancelled {
        assert Swapped(s.loops[k]);
        var d :| Owes(s, d, k);
        assert Owes(s', d, k);
      }
    }
  }

  lemma NotifyKeeps(s: Relay, t: nat)
    requires Inv(s) && Enabled(s, NotifyOld(t))
    ensures Inv(Apply(s, NotifyOld(t)))
  {
    hide SignalsExact;
    NotifySignals(s, t);
    SameSlot(s, Apply(s, NotifyOld(t)));
  }

  lemma NotifySignals(s: Relay, t: nat)
    requires Inv(s) && Enabled(s, NotifyOld(t))
    ensures SignalsExact(Apply(s, NotifyOld(t))) && s.loops[t].phase.displaced in s.loops
  {
    hide SlotExact;
    var s', prev := Apply(s, NotifyOld(t)), s.loops[t].phase.displaced;
    assert Owes(s, t, prev) && prev != t;
    forall k ensures Superseded(s', k) == Superseded(s, k) {}
    forall c, k ensures Owes(s', c, k) == (Owes(s, c, k) && c != t) {}
    forall k | Superseded(s', k) && !s'.loops[k].phase.Gone?
      ensures s'.loops[k].cancelled || exists d :: Owes(s', d, k)
    {
      if k != prev && !s.loops[k].cancelled {
        var d :| Owes(s, d, k);
        assert Owes(s', d, k);
      }
    }
  }

  /** Steps after which every loop still serves as before leave the slots exact. */
  lemma SameSlot(s: Relay, s': Relay)
    requires SlotExact(s) && s'.loops.Keys == s.loops.Keys && s'.latest == s.latest && s'.online == s.online
    requires forall k | k in s.loops :: s'.loops[k].host == s.loops[k].host && Serving(s'.loops[k]) == Serving(s.loops[k]) &&
                                        Swapped(s'.loops[k]) == Swapped(s.loops[k])
    ensures SlotExact(s')
  {
  }

  lemma EndKeeps(s: Relay, t: nat)
    requires Inv(s) && t in s.loops && s.loops[t].phase.Reading?
    ensures Inv(At(s, t, Ended))
  {
    hide SignalsExact;
    SameSlot(s, At(s, t, Ended));
    SameDebts(s, At(s, t, Ended));
  }

  /** Steps that leave every debt and signal alone leave SignalsExact alone. */
  lemma SameDebts(s: Relay, s': Relay)
    requires SignalsExact(s) && s'.loops.Keys == s.loops.Keys && s'.latest == s.latest
    requires forall k | k in s.loops :: s'.loops[k].host == s.loops[k].host && s'.loops[k].cancelled == s.loops[k].cancelled &&
                                        Swapped(s'.loops[k]) == Swapped(s.loops[k]) &&
                                        (s.loops[k].phase.Gone? ==> s'.loops[k].phase.Gone?)
    requires forall k | k in s.loops :: s'.loops[k].phase.Owing? || s.loops[k].phase.Owing? ==>
                                          s'.loops[k].phase == s.loops[k].phase
    ensures SignalsExact(s')
  {
    forall c, k ensures Owes(s', c, k) == Owes(s, c, k) {}
    forall k | Superseded(s', k) && !s'.loops[k].phase.Gone?
      ensures s'.loops[k].cancelled || exists d :: Owes(s', d, k)
    {
      if !s.loops[k].cancelled {
        var d :| Owes(s, d, k);
        assert Owes(s', d, k);
      }
    }
  }

  lemma CleanKeeps(s: Relay, t: nat)
    requires Inv(s) && Enabled(s, CleanUp(t))
    ensures Inv(Apply(s, CleanUp(t)))
  {
    hide SignalsExact;
    SameDebts(s, Apply(s, CleanUp(t)));
  }

  lemma StepKeeps(s: Relay, a: Action)
    requires Inv(s) && Enabled(s, a)
    ensures Inv(Apply(s, a))
  {
    match a
    case FetchTag(h) => FetchKeeps(s, h);
    case SwapIn(t) => SwapKeeps(s, t);
    case NotifyOld(t) => NotifyKeeps(s, t);
    case StreamEnds(t) => EndKeeps(s, t);
    case SeesCancel(t) => EndKeeps(s, t);
    case CleanUp(t) => CleanKeeps(s, t);
  }

  // --------------------------------------------------------------- the registry

  lemma FetchMeans(s: Relay, h: string)
    requires Inv(s)
    ensures Inv(Apply(s, FetchTag(h))) && s.next !in s.loops
  {
    FetchKeeps(s, h);
  }

  lemma InsertMeans(s: Relay, t: nat)
    requires Inv(s) && Enabled(s, SwapIn(t))
    ensures var h, s' := s.loops[t].host, Apply(s, SwapIn(t));
            && Inv(s') && Current(s', t)
            && (h in s.online ==> s.online[h] in s.loops && Serving(s.loops[s.online[h]]) && Owes(s', t, s.online[h]))
            && forall g | g != h :: g in s'.online <==> g in s.online && s'.online[g] == s.online[g]
  {
    SwapKeeps(s, t);
  }

  lemma RemoveMeans(s: Relay, t: nat)
    requires Inv(s) && Enabled(s, CleanUp(t))
    ensures var s' := Apply(s, CleanUp(t));
            && Inv(s') && (!Current(s, t) ==> s'.online == s.online)
            && forall g :: g in s'.online <==> g in s.online && s.online[g] != t
  {
    CleanKeeps(s, t);
  }

  /** The two critical sections and the tag counter, as the code updates them in place.
      The ghost fields say which loops there are and where they stand. */
  class Registry {
    var online: map<string, nat>
    var nextInstance: nat
    ghost var loops: map<nat, HostLoop>
    ghost var latest: map<string, nat>

    ghost function View(): Relay
      reads this
    {
      Relay(nextInstance, loops, online, latest)
    }

    ghost predicate Valid()
      reads this
    {
      Inv(View())
    }

    constructor ()
      ensures Valid() && View() == START
    {
      online, nextInstance, loops, latest := map[], 0, map[], map[];
    }

    /** No loop ever gets a tag that another loop has or had. */
    method FetchInstance(ghost host: string) returns (tag: nat)
      requires Valid()
      modifies this`nextInstance, this`loops
      ensures Valid() && View() == Apply(old(View()), FetchTag(host))
      ensures tag !in old(loops) && tag in loops && loops[tag].phase.Tagged?
    {
      hide Inv;
      FetchMeans(View(), host);
      loops := loops[nextInstance := HostLoop(host, Tagged, false)];
      tag := nextInstance;
      nextInstance := nextInstance + 1;
    }

    /** The slot is ours from now on; whoever had it is a live loop that we now owe its
        cancel signal. */
    method Insert(host: string, tag: nat) returns (displaced: Option<nat>)
      requires Valid() && Enabled(View(), SwapIn(tag)) && loops[tag].host == host
      modifies this`online, this`loops, this`latest
      ensures Valid() && View() == Apply(old(View()), SwapIn(tag))
      ensures Current(View(), tag)
      ensures displaced == if host in old(online) then Some(old(online)[host]) else None
      ensures displaced.Some? ==> displaced.value in old(loops) && Serving(old(loops)[displaced.value])
      ensures displaced.Some? ==> Owes(View(), tag, displaced.value)
    {
      hide Inv;
      InsertMeans(View(), tag);
      displaced := None;
      if host in online {
        displaced := Some(online[host]);
      }
      online := online[host := tag];
      latest := latest[host := tag];
      loops := loops[tag := loops[tag].(phase := if displaced.Some? then Owing(displaced.value) else Reading)];
    }

    /** Only our own entry goes: the cleanup of a displaced loop changes no slot. */
    method Remove(host: string, tag: nat)
      requires Valid() && Enabled(View(), CleanUp(tag)) && loops[tag].host == host
      modifies this`online, this`loops
      ensures Valid() && View() == Apply(old(View()), CleanUp(tag))
      ensures forall g :: g in online <==> g in old(online) && old(online)[g] != tag
      ensures !Current(old(View()), tag) ==> online == old(online)
    {
      hide Inv;
      RemoveMeans(View(), tag);
      loops := loops[tag := loops[tag].(phase := Gone)];
      var stillOurs := false;
      if host in online {
        stillOurs := online[host] == tag;
      }
      if stillOurs {
        online := online - {host};
      }
    }
  }

  // --------------------------------------------------------------------- runs

  ghost predicate Run(acts: seq<Action>, s: Relay)
  {
    if acts == [] then s == START
    else exists p :: Run(Front(acts), p) && Enabled(p, Last(acts)) && s == Apply(p, Last(acts))
  }

  lemma {:induction false} RunInv(acts: seq<Action>, s: Relay)
    requires Run(acts, s)
    ensures Inv(s)
  {
    if acts != [] {
      var p :| Run(Front(acts), p) && Enabled(p, Last(acts)) && s == Apply(p, Last(acts));
      RunInv(Front(acts), p);
      StepKeeps(p, Last(acts));
    }
  }

  /** In every reachable state a slot belongs to a loop that swapped itself in for that
      host, has not cleaned up, and was the last to do so. */
  lemma OnlineIsLive(acts: seq<Action>, s: Relay, h: string)
    requires Run(acts, s) && h in s.online
    ensures h in s.latest && s.online[h] == s.latest[h]
    ensures s.online[h] in s.loops && s.loops[s.online[h]].host == h && Serving(s.loops[s.online[h]])
    ensures !s.loops[s.online[h]].cancelled
  {
    RunInv(acts, s);
  }

  /** A serving loop that does not own its slot has been signalled, or exactly one loop
      is still due to signal it, never both; the slot's owner is never signalled. */
  lemma DisplacedIsSignalled(acts: seq<Action>, s: Relay, t: nat)
    requires Run(acts, s) && t in s.loops && Serving(s.loops[t])
    ensures Current(s, t) ==> !s.loops[t].cancelled && forall d :: !Owes(s, d, t)
    ensures !Current(s, t) ==> (s.loops[t].cancelled <==> forall d :: !Owes(s, d, t))
    ensures forall c, d | Owes(s, c, t) && Owes(s, d, t) :: c == d
  {
    RunInv(acts, s);
    assert s.latest[s.loops[t].host] == t ==> Current(s, t);
  }

  /** Cleaning up takes exactly the loop's own entry away, so the cleanup of a displaced
      loop changes no slot at all. */
  lemma CleanupIsOwn(acts: seq<Action>, s: Relay, t: nat)
    requires Run(acts, s) && Enabled(s, CleanUp(t))
    ensures var s' := Apply(s, CleanUp(t));
            && (forall h :: h in s'.online <==> h in s.online && s.online[h] != t)
            && (forall h | h in s'.online :: s'.online[h] == s.online[h])
            && (!Current(s, t) ==> s'.online == s.online)
  {
    RunInv(acts, s);
  }

  /** Once every loop has finished, no host is left online. */
  lemma NothingLeftOnline(acts: seq<Action>, s: Relay)
    requires Run(acts, s) && forall t | t in s.loops :: s.loops[t].phase.Gone?
    ensures s.online == map[]
  {
    RunInv(acts, s);
    assert forall h :: h !in s.online;
  }

  /** When nobody owes a signal, each host has at most one serving loop that has not been
      told to stop. */
  lemma OneSurvivor(acts: seq<Action>, s: Relay, t: nat, u: nat)
    requires Run(acts, s) && forall c, d :: !Owes(s, c, d)
    requires t in s.loops && u in s.loops && s.loops[t].host == s.loops[u].host
    requires Serving(s.loops[t]) && Serving(s.loops[u]) && !s.loops[t].cancelled && !s.loops[u].cancelled
    ensures t == u && Current(s, t)
  {
    RunInv(acts, s);
    DisplacedIsSignalled(acts, s, t);
    DisplacedIsSignalled(acts, s, u);
  }
}
