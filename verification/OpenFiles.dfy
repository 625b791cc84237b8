/** Partially received files over a disk: the state both receivers keep per transfer. */
module OpenFiles {
  import opened Basics
  import opened ChunkLog

  datatype OpenFile = OpenFile(size: nat, dest: string, written: nat, next: u32)

  type Files = map<u32, OpenFile>
  type Disk = map<string, seq<byte>>

  /** Every open file exists, is counted right, and is nobody else's. */
  ghost predicate Owned(files: Files, disk: Disk)
  {
    && (forall id | id in files :: files[id].dest in disk && files[id].written == |disk[files[id].dest]|)
    && (forall i, j | i in files && j in files && i != j :: files[i].dest != files[j].dest)
  }

  /** What the receiver theory sees of it. */
  ghost function OpenOf(files: Files, disk: Disk): (open: map<u32, Partial>)
    requires Owned(files, disk)
    ensures open.Keys == files.Keys && forall id | id in open :: open[id].next == files[id].next
  {
    map id | id in files :: Partial(files[id].size, disk[files[id].dest], files[id].next)
  }

  function Dests(files: Files): set<string>
  {
    set id | id in files :: files[id].dest
  }

  function Grown(f: OpenFile, n: nat): OpenFile
  {
    f.(written := f.written + n, next := Wrap32(f.next + 1))
  }

  lemma Creates(files: Files, disk: Disk, id: u32, f: OpenFile)
    requires Owned(files, disk) && f.dest !in disk && f.written == 0
    ensures Owned(files[id := f], disk[f.dest := []])
    ensures OpenOf(files[id := f], disk[f.dest := []]) == OpenOf(files, disk)[id := Partial(f.size, [], f.next)]
  {
  }

  lemma CreatesDest(files: Files, id: u32, f: OpenFile)
    requires id !in files
    ensures Dests(files[id := f]) == Dests(files) + {f.dest}
  {
    assert files[id := f][id] == f;
    forall k | k in files ensures files[k].dest in Dests(files[id := f]) { assert files[id := f][k] == files[k]; }
  }

  lemma Removes(files: Files, disk: Disk, id: u32)
    requires Owned(files, disk) && id in files
    ensures Owned(files - {id}, disk) && OpenOf(files - {id}, disk) == OpenOf(files, disk) - {id}
    ensures var disk' := disk - {files[id].dest};
            Owned(files - {id}, disk') && OpenOf(files - {id}, disk') == OpenOf(files, disk) - {id}
  {
  }

  /** What the removed file holds is nobody else's business. */
  lemma Overwrites(files: Files, disk: Disk, id: u32, data: seq<byte>)
    requires Owned(files, disk) && id in files
    ensures var disk' := disk[files[id].dest := data];
            Owned(files - {id}, disk') && OpenOf(files - {id}, disk') == OpenOf(files, disk) - {id}
  {
  }

  lemma RemovesDest(files: Files, disk: Disk, id: u32)
    requires Owned(files, disk) && id in files
    ensures Dests(files - {id}) == Dests(files) - {files[id].dest}
  {
    forall p | p in Dests(files) && p != files[id].dest ensures p in Dests(files - {id}) {
      var k :| k in files && files[k].dest == p;
      assert k in files - {id} && (files - {id})[k].dest == p;
    }
  }

  lemma Appends(files: Files, disk: Disk, id: u32, payload: seq<byte>, disk': Disk, p: Partial)
    requires Owned(files, disk) && id in files && p == OpenOf(files, disk)[id]
    requires disk' == disk[files[id].dest := disk[files[id].dest] + payload]
    ensures var files' := files[id := Grown(files[id], |payload|)];
            && Owned(files', disk') && files'.Keys == files.Keys && Dests(files') == Dests(files)
            && OpenOf(files', disk') == OpenOf(files, disk)[id := Partial(p.size, p.data + payload, Wrap32(p.next + 1))]
  {
    var files' := files[id := Grown(files[id], |payload|)];
    AppendsOwned(files, disk, id, payload);
    GrownDests(files, id, |payload|);
    var q := Partial(p.size, p.data + payload, Wrap32(p.next + 1));
    forall k | k in files
      ensures OpenOf(files', disk')[k] == OpenOf(files, disk)[id := q][k]
    {
      assert k != id ==> files[k].dest != files[id].dest;
    }
  }

  lemma AppendsOwned(files: Files, disk: Disk, id: u32, payload: seq<byte>)
    requires Owned(files, disk) && id in files
    ensures Owned(files[id := Grown(files[id], |payload|)], disk[files[id].dest := disk[files[id].dest] + payload])
  {
    forall k | k in files && k != id ensures files[k].dest != files[id].dest {}
  }

  lemma GrownDests(files: Files, id: u32, n: nat)
    requires id in files
    ensures Dests(files[id := Grown(files[id], n)]) == Dests(files)
  {
    var files' := files[id := Grown(files[id], n)];
    assert forall k | k in files :: files'[k].dest == files[k].dest;
    forall q | q in Dests(files) ensures q in Dests(files') {
      var k :| k in files && files[k].dest == q;
      assert files'[k].dest == q;
    }
  }
}
