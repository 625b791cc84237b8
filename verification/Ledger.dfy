/** Who owns which file on disk while a session runs. */
module Ledger {
  import opened Basics
  import opened ChunkLog
  import opened OpenFiles

  /** `created`: paths this session made; `content`: those it completed and what they
      must hold; `accepted`: payloads accepted per open transfer; `before`: the disk
      the session found. */
  datatype Account = Account(
    created: set<string>, content: map<string, seq<byte>>, accepted: map<u32, seq<seq<byte>>>, before: Disk)

  function Join(ps: seq<seq<byte>>): seq<byte>
  {
    if ps == [] then [] else Join(Front(ps)) + Last(ps)
  }

  /** Each open file holds exactly the payloads accepted for it, with their total
      length and their count modulo 2^32. */
  ghost predicate Counted(files: Files, disk: Disk, accepted: map<u32, seq<seq<byte>>>)
  {
    && accepted.Keys == files.Keys
    && forall id | id in files ::
         files[id].dest in disk && disk[files[id].dest] == Join(accepted[id]) && files[id].next == Wrap32(|accepted[id]|)
  }

  /** The user's own files are untouched; every path the session made is completed with
      its content intact, or belongs to an open transfer, or is gone. */
  ghost predicate Balanced(files: Files, disk: Disk, a: Account)
  {
    && a.created !! a.before.Keys
    && (forall p | p in a.before :: p in disk && disk[p] == a.before[p])
    && (forall p | p in a.content :: p in a.created && p in disk && disk[p] == a.content[p])
    && Dests(files) <= a.created && Dests(files) !! a.content.Keys
    && a.created * disk.Keys <= a.content.Keys + Dests(files)
    && disk.Keys <= a.before.Keys + a.created
  }

  ghost predicate Kept(files: Files, disk: Disk, a: Account)
  {
    Owned(files, disk) && Counted(files, disk, a.accepted) && Balanced(files, disk, a)
  }

  lemma Entry(files: Files, disk: Disk, a: Account, id: u32)
    requires Kept(files, disk, a) && id in files
    ensures Owned(files, disk) && files[id].dest in disk && files[id].written == |disk[files[id].dest]|
    ensures OpenOf(files, disk)[id] == Partial(files[id].size, disk[files[id].dest], files[id].next)
  {
  }

  function Began(a: Account, id: u32, dest: string): Account
  {
    a.(created := a.created + {dest}, accepted := a.accepted[id := []])
  }

  lemma Begins(files: Files, disk: Disk, a: Account, id: u32, size: nat, dest: string)
    requires Kept(files, disk, a) && id !in files && dest !in disk
    ensures Kept(files[id := OpenFile(size, dest, 0, 0)], disk[dest := []], Began(a, id, dest))
    ensures OpenOf(files[id := OpenFile(size, dest, 0, 0)], disk[dest := []]) ==
            OpenOf(files, disk)[id := Partial(size, [], 0)]
  {
    hide Owned;
    hide OpenOf;
    hide Counted;
    hide Balanced;
    var f := OpenFile(size, dest, 0, 0);
    Creates(files, disk, id, f);
    BeginsCounted(files, disk, a.accepted, id, f);
    BeginsBalanced(files, disk, a, id, f);
  }

  lemma BeginsCounted(files: Files, disk: Disk, acc: map<u32, seq<seq<byte>>>, id: u32, f: OpenFile)
    requires Counted(files, disk, acc) && id !in files && f.dest !in disk && f.next == 0
    ensures Counted(files[id := f], disk[f.dest := []], acc[id := []])
  {
    assert Join([]) == [];
  }

  lemma BeginsBalanced(files: Files, disk: Disk, a: Account, id: u32, f: OpenFile)
    requires Balanced(files, disk, a) && id !in files && f.dest !in disk
    ensures Balanced(files[id := f], disk[f.dest := []], Began(a, id, f.dest))
  {
    CreatesDest(files, id, f);
  }

  function Dropped(a: Account, id: u32): Account { a.(accepted := a.accepted - {id}) }

  /** Abort and every failure: the entry goes and its file is unlinked. */
  lemma Drops(files: Files, disk: Disk, a: Account, id: u32)
    requires Kept(files, disk, a) && id in files
    ensures Kept(files - {id}, disk - {files[id].dest}, Dropped(a, id))
    ensures OpenOf(files - {id}, disk - {files[id].dest}) == OpenOf(files, disk) - {id}
  {
    Removes(files, disk, id);
    RemovesDest(files, disk, id);
    assert files[id].dest in Dests(files);
  }

  function Completed(a: Account, id: u32, dest: string, data: seq<byte>): Account
  {
    Dropped(a, id).(content := a.content[dest := data])
  }

  /** Completion: the entry goes and its file stays, with whatever content landed. */
  lemma Completes(files: Files, disk: Disk, a: Account, id: u32, landed: seq<byte>)
    requires Kept(files, disk, a) && id in files
    ensures var disk' := disk[files[id].dest := landed];
            && Kept(files - {id}, disk', Completed(a, id, files[id].dest, landed))
            && OpenOf(files - {id}, disk') == OpenOf(files, disk) - {id}
  {
    hide Owned, OpenOf, Counted, Balanced;
    var dest := files[id].dest;
    CompletesCounted(files, disk, a.accepted, id, landed);
    CompletesBalanced(files, disk, a, id, landed);
    Removes(files, disk, id);
    Overwrites(files, disk, id, landed);
  }

  lemma CompletesCounted(files: Files, disk: Disk, acc: map<u32, seq<seq<byte>>>, id: u32, landed: seq<byte>)
    requires Owned(files, disk) && Counted(files, disk, acc) && id in files
    ensures Counted(files - {id}, disk[files[id].dest := landed], acc - {id})
  {
    hide Join;
  }

  lemma CompletesBalanced(files: Files, disk: Disk, a: Account, id: u32, landed: seq<byte>)
    requires Owned(files, disk) && Balanced(files, disk, a) && id in files
    ensures Balanced(files - {id}, disk[files[id].dest := landed], Completed(a, id, files[id].dest, landed))
  {
    assert files[id].dest in Dests(files);
    RemovesDest(files, disk, id);
    hide Owned, Dests;
  }

  function Took(a: Account, id: u32, payload: seq<byte>): Account
  {
    a.(accepted := a.accepted[id := (if id in a.accepted then a.accepted[id] else []) + [payload]])
  }

  lemma Takes(files: Files, disk: Disk, a: Account, id: u32, payload: seq<byte>, disk': Disk, p: Partial)
    requires Kept(files, disk, a) && id in files && p == OpenOf(files, disk)[id]
    requires disk' == disk[files[id].dest := disk[files[id].dest] + payload]
    ensures Kept(files[id := Grown(files[id], |payload|)], disk', Took(a, id, payload))
    ensures var b := Took(a, id, payload); b.content == a.content && b.created == a.created && b.before == a.before
    ensures OpenOf(files[id := Grown(files[id], |payload|)], disk') ==
            OpenOf(files, disk)[id := Partial(p.size, p.data + payload, Wrap32(p.next + 1))]
  {
    Appends(files, disk, id, payload, disk', p);
    TakesCounted(files, disk, a.accepted, id, payload);
    assert files[id].dest in Dests(files);
    assert disk'.Keys == disk.Keys;
  }

  lemma TakesCounted(files: Files, disk: Disk, acc: map<u32, seq<seq<byte>>>, id: u32, payload: seq<byte>)
    requires Owned(files, disk) && Counted(files, disk, acc) && id in files
    ensures Counted(files[id := Grown(files[id], |payload|)], disk[files[id].dest := disk[files[id].dest] + payload],
                    acc[id := acc[id] + [payload]])
  {
    assert Front(acc[id] + [payload]) == acc[id];
    NextWraps(|acc[id]|);
    forall k | k in files && k != id ensures files[k].dest != files[id].dest {}
  }

  /** With no transfer open, the disk is what the session found plus what it completed. */
  lemma Settles(files: Files, disk: Disk, a: Account)
    requires Kept(files, disk, a) && files == map[]
    ensures disk.Keys == a.before.Keys + a.content.Keys && a.content.Keys !! a.before.Keys
    ensures a.content.Keys <= a.created
    ensures forall p | p in disk :: disk[p] == if p in a.before then a.before[p] else a.content[p]
  {
    assert Dests(files) == {};
  }
}
