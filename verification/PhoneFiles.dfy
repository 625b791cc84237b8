/** The phone's receive side as it is: a map of open files updated in place, over a
    directory on disk. Each handler is the receiver function the proofs use. */
module PhoneFiles {
  import opened Basics
  import opened Messages
  import opened ChunkLog
  import opened Transfer
  import opened Paths
  import opened OpenFiles
  import Codec

  /** Every completed file is where it was completed, with the content it had then, and no
      download under way writes to it. */
  ghost predicate Stored(files: Files, disk: Disk, delivered: map<string, seq<byte>>)
  {
    && (forall p | p in delivered :: p in disk && disk[p] == delivered[p])
    && Dests(files) !! delivered.Keys
  }

  /** Where each finished download is. */
  ghost predicate Placed(finished: map<u32, seq<byte>>, place: map<u32, string>, delivered: map<string, seq<byte>>)
  {
    && place.Keys == finished.Keys
    && forall id | id in finished :: place[id] in delivered && delivered[place[id]] == finished[id]
  }

  lemma StoredBegins(files: Files, disk: Disk, delivered: map<string, seq<byte>>, id: u32, f: OpenFile)
    requires Stored(files, disk, delivered) && f.dest !in disk
    ensures Stored(files[id := f], disk[f.dest := []], delivered)
  {
    forall q | q in Dests(files[id := f]) ensures q == f.dest || q in Dests(files) {
      var k :| k in files[id := f] && files[id := f][k].dest == q;
      assert k != id ==> k in files && files[k].dest == q;
    }
  }

  lemma StoredDrops(files: Files, disk: Disk, delivered: map<string, seq<byte>>, id: u32)
    requires Owned(files, disk) && Stored(files, disk, delivered) && id in files
    ensures Stored(files - {id}, disk - {files[id].dest}, delivered)
  {
    assert files[id].dest in Dests(files);
    RemovesDest(files, disk, id);
  }

  lemma StoredGrows(files: Files, disk: Disk, delivered: map<string, seq<byte>>, id: u32, n: nat, data: seq<byte>)
    requires Stored(files, disk, delivered) && id in files
    ensures Stored(files[id := Grown(files[id], n)], disk[files[id].dest := data], delivered)
  {
    assert files[id].dest in Dests(files);
    GrownDests(files, id, n);
  }

  lemma StoredFinishes(files: Files, disk: Disk, delivered: map<string, seq<byte>>, id: u32)
    requires Owned(files, disk) && Stored(files, disk, delivered) && id in files
    ensures Stored(files - {id}, disk, delivered[files[id].dest := disk[files[id].dest]])
  {
    RemovesDest(files, disk, id);
  }

  lemma PlacedFinishes(finished: map<u32, seq<byte>>, place: map<u32, string>, delivered: map<string, seq<byte>>,
                       id: u32, dest: string, data: seq<byte>)
    requires Placed(finished, place, delivered) && dest !in delivered
    ensures Placed(finished[id := data], place[id := dest], delivered[dest := data])
  {
  }

  lemma FreshDest(files: Files, disk: Disk, delivered: map<string, seq<byte>>, id: u32)
    requires Owned(files, disk) && Stored(files, disk, delivered) && id in files
    ensures files[id].dest in disk && files[id].dest !in delivered
    ensures OpenOf(files, disk)[id] == Partial(files[id].size, disk[files[id].dest], files[id].next)
  {
    assert files[id].dest in Dests(files);
  }

  lemma Distinct(files: Files, disk: Disk)
    requires Owned(files, disk)
    ensures forall i, j | i in files && j in files && files[i].dest == files[j].dest :: i == j
    ensures forall i | i in files :: files[i].dest in disk
  {
  }

  lemma StoredLoses(files: Files, disk: Disk, delivered: map<string, seq<byte>>, id: u32)
    requires Stored(files, disk, delivered) && id in files
    ensures Stored(files, disk - {files[id].dest}, delivered)
  {
    assert files[id].dest in Dests(files);
  }

  lemma StoredNone(files: Files, disk: Disk, delivered: map<string, seq<byte>>)
    requires Stored(files, disk, delivered)
    ensures Stored(map[], disk, delivered) && Owned(map[], disk) && OpenOf(map[], disk) == map[]
  {
    assert Dests(map[]) == {};
  }

  class Downloads {
    const dir: Option<string>     // downloadsDir, if configured
    var socket: bool              // webSocket != null
    var incomingFiles: Files
    var disk: Disk
    var replies: seq<Control>
    ghost var finished: map<u32, seq<byte>>
    ghost var place: map<u32, string>              // where each finished download is
    ghost var delivered: map<string, seq<byte>>    // every completed file and its content
    ghost var misordered: nat

    ghost predicate Valid()
      reads this
    {
      && Owned(incomingFiles, disk)
      && Stored(incomingFiles, disk, delivered) && Placed(finished, place, delivered)
    }

    ghost function Rx(): Receiver
      requires Valid()
      reads this
    {
      Receiver(OpenOf(incomingFiles, disk), finished, misordered)
    }

    constructor (dir: Option<string>, socket: bool, disk: Disk)
      ensures Valid() && Rx() == EMPTY && this.disk == disk
    {
      this.dir, this.socket, this.disk := dir, socket, disk;
      incomingFiles, replies, finished, misordered := map[], [], map[], 0;
      place, delivered := map[], map[];
    }

    /** `webSocket?.send`. */
    method Tell(c: Control)
      requires Valid()
      modifies this`replies
      ensures Valid() && Rx() == old(Rx()) && replies == Answered(old(replies), c)
    {
      hide Owned, OpenOf, Stored, Placed;
      if socket {
        replies := replies + [c];
      }
    }

    function Answered(replies: seq<Control>, c: Control): seq<Control>
      reads this`socket
    {
      if socket then replies + [c] else replies
    }

    /** Whether a send can be taken; `opens` is whether the new file can be opened. */
    predicate Willing(opens: bool)
      reads this`socket
    {
      socket && dir.Some? && opens
    }

    /** handleFileSendBegin. Without a socket nothing happens at all; without a directory,
        or if the file cannot be opened, the send is refused. A file that is taken is a new
        one directly inside the directory. An entry under the same id is replaced and its
        file left where it is. */
    method HandleFileSendBegin(id: u32, name: string, size: nat, opens: bool, uuid: string)
      requires Valid() && Fresh(uuid)
      modifies this`incomingFiles, this`disk, this`replies
      ensures Valid() && Rx() == if Willing(opens) then Open(old(Rx()), id, size) else old(Rx())
      ensures replies == Answered(old(replies), if Willing(opens) then FileSendAccepted(id) else FileSendFailed(id))
      ensures forall p | p in old(disk) :: p in disk && disk[p] == old(disk)[p]
      ensures !Willing(opens) ==> disk == old(disk) && incomingFiles == old(incomingFiles)
      ensures Willing(opens) ==>
                && id in incomingFiles && disk.Keys == old(disk).Keys + {incomingFiles[id].dest}
                && incomingFiles[id].dest !in old(disk)
                && exists c :: Component(c, Unreplaced) && incomingFiles[id].dest == dir.value + "/" + c
    {
      hide Owned, OpenOf, Stored, Placed;
      if !socket {
        return;
      }
      if dir.None? {
        Tell(FileSendFailed(id));
        return;
      }
      var dest := UniqueDestFile(dir.value, name, disk.Keys, uuid);
      if !opens {
        Tell(FileSendFailed(id));
        return;
      }
      Create(id, size, dest);
      Tell(FileSendAccepted(id));
    }

    /** A UUID made of hex digits and dashes that is in no file's name yet. */
    ghost predicate Fresh(uuid: string)
      reads this`disk
    {
      && Only(uuid, Unreplaced)
      && (dir.Some? ==> forall s, t :: dir.value + "/" + s + "-" + uuid + t !in disk.Keys)
    }

    method Create(id: u32, size: nat, dest: string)
      requires Valid() && dest !in disk
      modifies this`incomingFiles, this`disk
      ensures Valid() && Rx() == Open(old(Rx()), id, size)
      ensures disk == old(disk)[dest := []] && incomingFiles == old(incomingFiles)[id := OpenFile(size, dest, 0, 0)]
    {
      hide Owned, OpenOf, Stored, Placed;
      Creates(incomingFiles, disk, id, OpenFile(size, dest, 0, 0));
      StoredBegins(incomingFiles, disk, delivered, id, OpenFile(size, dest, 0, 0));
      disk := disk[dest := []];
      incomingFiles := incomingFiles[id := OpenFile(size, dest, 0, 0)];
    }

    /** failIncoming: close, delete, forget, tell the PC. */
    method FailIncoming(id: u32)
      requires Valid() && id in incomingFiles
      modifies this`incomingFiles, this`disk, this`replies
      ensures Valid() && Rx() == Drop(old(Rx()), id)
      ensures disk == old(disk) - {old(incomingFiles)[id].dest} && incomingFiles == old(incomingFiles) - {id}
      ensures replies == Answered(old(replies), FileSendFailed(id))
    {
      hide Owned, OpenOf, Stored, Placed;
      Removes(incomingFiles, disk, id);
      StoredDrops(incomingFiles, disk, delivered, id);
      disk := disk - {incomingFiles[id].dest};
      incomingFiles := incomingFiles - {id};
      Tell(FileSendFailed(id));
    }

    /** handleIncomingFileChunk; `io` is whether write, flush and close succeed. An in-order
        chunk is appended to its file, which stays when it is complete; anything else deletes
        the file. Each answer is sent exactly then. */
    method HandleIncomingFileChunk(frame: Codec.VideoFrame, io: bool)
      requires Valid()
      modifies this`incomingFiles, this`disk, this`replies, this`finished, this`misordered, this`place, this`delivered
      ensures Valid() && Rx() == OnChunk(old(Rx()), Codec.KtChunk(frame), io)
      ensures Codec.KtChunk(frame).id !in old(incomingFiles) ==>
                disk == old(disk) && incomingFiles == old(incomingFiles) && replies == old(replies)
      ensures var c := Codec.KtChunk(frame);
              c.id in old(incomingFiles) ==>
                var f := old(incomingFiles)[c.id];
                if c.chunk == f.next && io then Took(old(incomingFiles), old(disk), old(delivered), old(replies), c)
                else && disk == old(disk) - {f.dest} && incomingFiles == old(incomingFiles) - {c.id}
                     && replies == Answered(old(replies), FileSendFailed(c.id)) && delivered == old(delivered)
    {
      hide Owned, OpenOf, Stored, Placed, Took;
      hide Codec.KtChunk;
      var c := Codec.KtChunk(frame);
      if c.id in incomingFiles {
        if c.chunk != incomingFiles[c.id].next {
          FailIncoming(c.id);
          misordered := misordered + 1;
        } else if !io {
          FailIncoming(c.id);
        } else {
          Accept(c);
        }
      }
    }

    /** The chunk was appended to its file and, if it was the last, the file was delivered. */
    ghost predicate Took(files: Files, was: Disk, before: map<string, seq<byte>>, said: seq<Control>, c: Codec.Chunk)
      reads this`incomingFiles, this`disk, this`replies, this`delivered, this`socket
    {
      && c.id in files && files[c.id].dest in was
      && var dest, data := files[c.id].dest, was[files[c.id].dest] + c.payload;
      && disk == was[dest := data]
      && (if c.last then
            && incomingFiles == files - {c.id} && delivered == before[dest := data]
            && replies == Answered(said, FileSendComplete(c.id))
          else
            && incomingFiles == files[c.id := Grown(files[c.id], |c.payload|)] && delivered == before
            && replies == said)
    }

    method Accept(c: Codec.Chunk)
      requires Valid() && c.id in incomingFiles && c.chunk == incomingFiles[c.id].next
      modifies this`incomingFiles, this`disk, this`replies, this`finished, this`place, this`delivered
      ensures Valid() && Rx() == OnChunk(old(Rx()), c, true)
      ensures Took(old(incomingFiles), old(disk), old(delivered), old(replies), c)
    {
      hide Owned, OpenOf, Stored, Placed, Grown;
      Append(c.id, c.payload);
      if c.last {
        Finish(c.id);
        assert incomingFiles == old(incomingFiles) - {c.id};
      }
    }

    method Append(id: u32, payload: seq<byte>)
      requires Valid() && id in incomingFiles
      modifies this`incomingFiles, this`disk
      ensures Valid() && incomingFiles == old(incomingFiles)[id := Grown(old(incomingFiles)[id], |payload|)]
      ensures incomingFiles[id].dest == old(incomingFiles)[id].dest
      ensures old(incomingFiles)[id].dest in old(disk)
      ensures disk == old(disk)[old(incomingFiles)[id].dest := old(disk)[old(incomingFiles)[id].dest] + payload]
      ensures var p := old(Rx()).open[id];
              Rx() == old(Rx()).(open := old(Rx()).open[id := Partial(p.size, p.data + payload, Wrap32(p.next + 1))])
    {
      hide Owned, OpenOf, Stored, Placed, Wrap32;
      var st := incomingFiles[id];
      FreshDest(incomingFiles, disk, delivered, id);
      var data := disk[st.dest] + payload;
      Appends(incomingFiles, disk, id, payload, disk[st.dest := data], Rx().open[id]);
      StoredGrows(incomingFiles, disk, delivered, id, |payload|, data);
      incomingFiles, disk := incomingFiles[id := Grown(st, |payload|)], disk[st.dest := data];
    }

    /** The file stays where it is, with the content it has. */
    method Finish(id: u32)
      requires Valid() && id in incomingFiles
      modifies this`incomingFiles, this`replies, this`finished, this`place, this`delivered
      ensures Valid()
      ensures Rx() == Drop(old(Rx()), id).(done := old(Rx()).done[id := old(Rx()).open[id].data])
      ensures old(incomingFiles)[id].dest in disk && incomingFiles == old(incomingFiles) - {id}
      ensures delivered == old(delivered)[old(incomingFiles)[id].dest := disk[old(incomingFiles)[id].dest]]
      ensures replies == Answered(old(replies), FileSendComplete(id))
    {
      hide Owned, OpenOf, Stored, Placed;
      var dest := incomingFiles[id].dest;
      FreshDest(incomingFiles, disk, delivered, id);
      Removes(incomingFiles, disk, id);
      StoredFinishes(incomingFiles, disk, delivered, id);
      PlacedFinishes(finished, place, delivered, id, dest, disk[dest]);
      finished, place := finished[id := disk[dest]], place[id := dest];
      delivered := delivered[dest := disk[dest]];
      incomingFiles := incomingFiles - {id};
      Tell(FileSendComplete(id));
    }

    /** cancelDownload. */
    method CancelDownload(id: u32)
      requires Valid()
      modifies this`incomingFiles, this`disk, this`replies
      ensures Valid() && Rx() == Drop(old(Rx()), id)
      ensures id in old(incomingFiles) ==>
                && disk == old(disk) - {old(incomingFiles)[id].dest} && incomingFiles == old(incomingFiles) - {id}
                && replies == Answered(old(replies), FileSendFailed(id))
      ensures id !in old(incomingFiles) ==>
                disk == old(disk) && incomingFiles == old(incomingFiles) && replies == old(replies)
    {
      hide Stored, Placed;
      if id in incomingFiles {
        FailIncoming(id);
      } else {
        assert old(Rx()).open - {id} == old(Rx()).open;
      }
    }

    /** abortAllIncomingFiles: short files are deleted, the map is cleared. */
    method AbortAll()
      requires Valid()
      modifies this`incomingFiles, this`disk
      ensures Valid() && Rx() == Abandon(old(Rx())) && incomingFiles == map[]
      ensures forall id | id in old(incomingFiles) ::
                var f := old(incomingFiles)[id]; f.dest in disk <==> f.written >= f.size
      ensures forall p | p in old(disk) :: (p in disk ==> disk[p] == old(disk)[p]) &&
                (p !in disk ==> exists id :: id in old(incomingFiles) && old(incomingFiles)[id].dest == p)
    {
      hide Owned, OpenOf, Stored, Placed;
      Distinct(incomingFiles, disk);
      var todo := incomingFiles.Keys;
      while todo != {}
        invariant todo <= incomingFiles.Keys && incomingFiles == old(incomingFiles)
        invariant Stored(incomingFiles, disk, delivered)
        invariant forall id | id in incomingFiles ::
                    var f := incomingFiles[id];
                    f.dest in disk <==> id in todo || f.written >= f.size
        invariant forall p | p in old(disk) :: (p in disk ==> disk[p] == old(disk)[p]) &&
                    (p !in disk ==> exists id :: id in incomingFiles && incomingFiles[id].dest == p)
        decreases todo
      {
        var id :| id in todo;
        var f := incomingFiles[id];
        StoredLoses(incomingFiles, disk, delivered, id);
        if f.written < f.size {
          disk := disk - {f.dest};
        }
        todo := todo - {id};
      }
      StoredNone(incomingFiles, disk, delivered);
      incomingFiles := map[];
    }

    /** onMessage, for the messages that concern files; `ok` is whether the file I/O of
        this message works. */
    method OnMessage(m: Msg, ok: bool, uuid: string)
      requires Valid() && Fresh(uuid)
      modifies this`incomingFiles, this`disk, this`replies, this`finished, this`misordered, this`place, this`delivered
      ensures Valid()
      ensures Rx() == PhoneHandles(old(Rx()), m, if m.Text? then Willing(ok) else ok)
    {
      match m
      case Text(FileSendBegin(id, name, size)) => HandleFileSendBegin(id, name, size, ok, uuid);
      case Text(_) =>
      case Binary(b) =>
        var f := Codec.KtParse(b);
        if f.Some? && f.value.kind == Codec.FILE {
          HandleIncomingFileChunk(f.value, ok);
        }
    }
  }
}
