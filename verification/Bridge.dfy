/** FileSendBridge: the single slot that routes sends to a session, and transfer ids. */
module Bridge {
  import opened Basics

  /** A command and the session instance whose queue it went to. */
  datatype Delivery = Delivery(instance: nat, cmd: nat)

  // ------------------------------------------------------------------- the slot

  function Released(slot: Option<nat>, instance: nat): Option<nat>
  {
    if slot == Some(instance) then None else slot
  }

  /** Sessions interleave between taking an instance number, claiming the slot and
      giving it back. A session gives back only what it claimed, and once. */
  datatype Action =
    | Fetches
    | Claims(instance: nat)
    | GivesBack(instance: nat)
    | Dispatches(cmd: nat, open: set<nat>)  // `open`: sessions whose queue has a receiver

  datatype Phase = Numbered | Claimed | Left

  datatype State = State(
    next: nat, slot: Option<nat>, phases: map<nat, Phase>, claims: seq<nat>, queued: seq<Delivery>)

  const START := State(0, None, map[], [], [])

  predicate Enabled(s: State, a: Action)
  {
    match a
    case Fetches => true
    case Claims(i) => i in s.phases && s.phases[i] == Numbered
    case GivesBack(i) => i in s.phases && s.phases[i] == Claimed
    case Dispatches(_, _) => true
  }

  function Apply(s: State, a: Action): State
  {
    match a
    case Fetches => s.(next := s.next + 1, phases := s.phases[s.next := Numbered])
    case Claims(i) => s.(slot := Some(i), phases := s.phases[i := Claimed], claims := s.claims + [i])
    case GivesBack(i) => s.(slot := Released(s.slot, i), phases := s.phases[i := Left])
    case Dispatches(cmd, open) =>
      if s.slot.Some? && s.slot.value in open then s.(queued := s.queued + [Delivery(s.slot.value, cmd)]) else s
  }

  /** The last session to claim the slot, unless it gave it back. */
  function Holder(s: State): Option<nat>
  {
    if s.claims != [] && Last(s.claims) in s.phases && s.phases[Last(s.claims)] == Claimed then Some(Last(s.claims))
    else None
  }

  ghost predicate Run(acts: seq<Action>, s: State)
  {
    if acts == [] then s == START
    else exists p :: Run(Front(acts), p) && Enabled(p, Last(acts)) && s == Apply(p, Last(acts))
  }

  ghost predicate Inv(s: State)
  {
    && (forall i | i in s.phases :: i < s.next)
    && (forall k | 0 <= k < |s.claims| :: s.claims[k] in s.phases && s.phases[s.claims[k]] != Numbered)
    && (forall i | i in s.phases && s.phases[i] != Numbered :: i in s.claims)
    && s.slot == Holder(s)
  }

  lemma {:induction false} RunInv(acts: seq<Action>, s: State)
    requires Run(acts, s)
    ensures Inv(s)
  {
    if acts != [] {
      var p :| Run(Front(acts), p) && Enabled(p, Last(acts)) && s == Apply(p, Last(acts));
      RunInv(Front(acts), p);
      StepKeeps(p, Last(acts));
    }
  }

  lemma StepKeeps(s: State, a: Action)
    requires Inv(s) && Enabled(s, a)
    ensures Inv(Apply(s, a))
  {
    var s' := Apply(s, a);
    match a
    case Claims(i) =>
      assert Last(s'.claims) == i;
      forall j | j in s'.phases && s'.phases[j] != Numbered ensures j in s'.claims {}
    case GivesBack(i) =>
      assert i in s.claims;
    case Fetches =>
      assert s.next !in s.phases;
    case Dispatches(_, _) =>
  }

  /** Over any interleaving the slot is the last session to claim it, unless that very
      session gave it back: a late give-back by any other changes nothing, and a dispatch
      reaches the last claimant or nobody. */
  lemma SlotIsLastClaim(acts: seq<Action>, s: State)
    requires Run(acts, s)
    ensures s.slot == Holder(s)
    ensures forall i | Enabled(s, GivesBack(i)) ::
              s.claims != [] && Apply(s, GivesBack(i)).slot == if i == Last(s.claims) then None else s.slot
    ensures forall cmd, open :: Apply(s, Dispatches(cmd, open)).queued ==
              s.queued + if Holder(s).Some? && Holder(s).value in open then [Delivery(Last(s.claims), cmd)] else []
  {
    RunInv(acts, s);
  }

  // ------------------------------------------------------------------- the bridge

  /** The slot with the counters, as the code updates them in place. The ghost fields say
      which sessions there are and in which order they claimed the slot. */
  class FileSendBridge {
    var inner: Option<nat>
    var nextInstance: nat
    var nextTransferId: u32
    var queued: seq<Delivery>
    ghost var phases: map<nat, Phase>
    ghost var claims: seq<nat>

    ghost function View(): State
      reads this
    {
      State(nextInstance, inner, phases, claims, queued)
    }

    ghost predicate Valid()
      reads this
    {
      Inv(View())
    }

    constructor ()
      ensures Valid() && View() == START && nextTransferId == 1
    {
      inner, nextInstance, nextTransferId, queued := None, 0, 1, [];
      phases, claims := map[], [];
    }

    /** No session ever gets a number that another session has or had. */
    method FetchInstance() returns (instance: nat)
      requires Valid()
      modifies this`nextInstance, this`phases
      ensures Valid() && View() == Apply(old(View()), Fetches)
      ensures instance !in old(phases) && instance in phases && instance !in claims
    {
      StepKeeps(View(), Fetches);
      phases := phases[nextInstance := Numbered];
      instance := nextInstance;
      nextInstance := nextInstance + 1;
    }

    /** The section of `register` under the lock: whoever had the slot, this session has it
        from now on, and no other session's give-back can take it away. */
    method Claim(instance: nat)
      requires Valid() && Enabled(View(), Claims(instance))
      modifies this`inner, this`phases, this`claims
      ensures Valid() && View() == Apply(old(View()), Claims(instance))
      ensures Holder(View()) == Some(instance)
      ensures forall i | i != instance && Enabled(View(), GivesBack(i)) ::
                Holder(Apply(View(), GivesBack(i))) == Some(instance)
    {
      StepKeeps(View(), Claims(instance));
      inner := Some(instance);
      phases, claims := phases[instance := Claimed], claims + [instance];
    }

    /** The slot is free afterwards if this session was the last to claim it, and as it was
        if not. */
    method Deregister(instance: nat)
      requires Valid() && Enabled(View(), GivesBack(instance))
      modifies this`inner, this`phases
      ensures Valid() && View() == Apply(old(View()), GivesBack(instance))
      ensures inner == if instance == Last(claims) then None else old(inner)
    {
      StepKeeps(View(), GivesBack(instance));
      phases := phases[instance := Left];
      if inner.Some? && inner.value == instance {
        inner := None;
      }
    }

    /** `open`: the sessions whose queue still has a receiver. */
    method Dispatch(cmd: nat, open: set<nat>) returns (ok: bool)
      requires Valid()
      modifies this`queued
      ensures Valid() && View() == Apply(old(View()), Dispatches(cmd, open))
      ensures ok <==> Holder(View()).Some? && Holder(View()).value in open
      ensures queued == old(queued) + if ok then [Delivery(Last(claims), cmd)] else []
    {
      if inner.None? {
        return false;
      }
      if inner.value !in open {
        return false;
      }
      queued := queued + [Delivery(inner.value, cmd)];
      ok := true;
    }

    method FetchAdd() returns (v: u32)
      modifies this`nextTransferId
      ensures v == old(nextTransferId) && nextTransferId == Wrap32(v + 1)
    {
      v := nextTransferId;
      nextTransferId := Wrap32(nextTransferId + 1);
    }

    method AllocateTransferId() returns (id: u32)
      modifies this`nextTransferId
      ensures id == Issued(old(nextTransferId)) && nextTransferId == Counter(old(nextTransferId)) && id != 0
    {
      id := FetchAdd();
      if id == 0 {
        id := FetchAdd();
      }
    }
  }

  // ----------------------------------------------------------------- transfer ids

  const CYCLE := TWO32 - 1

  function Issued(c: u32): u32 { if c == 0 then 1 else c }

  function Counter(c: u32): u32 { Wrap32(Issued(c) + 1) }

  /** The counter after `k` allocations. */
  function CounterAfter(c: u32, k: nat): u32 { if k == 0 then c else Counter(CounterAfter(c, k - 1)) }

  function Id(c: u32, k: nat): u32 { Issued(CounterAfter(c, k)) }

  lemma IdStep(c: u32, k: nat)
    ensures Id(c, k + 1) == if Id(c, k) == CYCLE then 1 else Id(c, k) + 1
  {
  }

  lemma ModStep(a: nat, m: nat)
    requires m > 1
    ensures (a + 1) % m == if a % m == m - 1 then 0 else a % m + 1
  {
    if a % m == m - 1 {
      assert a + 1 == (a / m + 1) * m + 0;
      Remainder(a / m + 1, m, 0);
    } else {
      assert a + 1 == a / m * m + (a % m + 1);
      Remainder(a / m, m, a % m + 1);
    }
  }

  lemma {:induction false} IdIs(c: u32, k: nat)
    ensures Id(c, k) == 1 + (Issued(c) - 1 + k) % CYCLE
  {
    if k > 0 {
      IdIs(c, k - 1);
      IdStep(c, k - 1);
      ModStep(Issued(c) - 1 + (k - 1), CYCLE);
    }
  }

  /** From any counter value, ids are never 0, and two allocations get the same id
      exactly when they are a multiple of 2^32 - 1 apart. */
  lemma IdsDistinct(c: u32, i: nat, j: nat)
    ensures Id(c, i) != 0
    ensures Id(c, i) == Id(c, j) <==> (j - i) % CYCLE == 0
  {
    IdIs(c, i);
    IdIs(c, j);
    Congruent(Issued(c) - 1 + i, Issued(c) - 1 + j, CYCLE);
  }

  lemma Congruent(a: nat, b: nat, m: nat)
    requires m > 0
    ensures a % m == b % m <==> (b - a) % m == 0
  {
    var qa, qb, q := a / m, b / m, (b - a) / m;
    if a % m == b % m {
      assert b - a == (qb - qa) * m;
      Multiple(qb - qa, m);
    }
    if (b - a) % m == 0 {
      assert b == (q + qa) * m + a % m;
      Remainder(q + qa, m, a % m);
    }
  }

  lemma Multiple(k: int, m: nat)
    requires m > 0
    ensures (k * m) % m == 0
  {
    Remainder(k, m, 0);
  }

  lemma Remainder(k: int, m: nat, r: nat)
    requires r < m
    ensures (k * m + r) % m == r
  {
    var n := k * m + r;
    var d := n / m - k;
    assert n == n / m * m + n % m;
    assert d * m == r - n % m;
    if d != 0 {
      Far(d, m);
    }
  }

  lemma Far(d: int, m: int)
    requires d != 0 && m >= 0
    ensures d * m >= m || d * m <= 0 - m
  {
    if d > 0 {
      Grows(d - 1, m);
      assert d * m == (d - 1) * m + m;
    } else {
      Grows(-1 - d, m);
      assert d * m == -((-1 - d) * m) - m;
    }
  }

  lemma Grows(k: int, m: int)
    requires k >= 0 && m >= 0
    ensures k * m >= 0
  {
  }
}
