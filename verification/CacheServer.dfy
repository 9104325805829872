// The server process as it stands in memory: the handlers, and the close handler and the data mover piece by piece
// between their locks. Every method does to the fields what one or several atomic steps of the model do to the state.
module CacheServer {
  import opened PlainFile
  import opened Wrappers
  import opened Server

  // ---------------------------------------------------------------- uninterrupted sequences of steps

  predicate NobodyLocks(sv: ServerState) {
    sv.up && sv.closing.Idle? && sv.pathLock.Nobody? && sv.dataLock.Nobody?
  }

  // The close handler from end to end.
  function Closed(sv: ServerState, fd: int): ServerState
    requires NobodyLocks(sv)
  {
    var closed := HandleClose(sv, fd);
    if !closed.up then closed
    else
      var locked := Take(closed, TakePathLock);
      if locked.closing.Leaving? then Take(locked, Leave)
      else Take(Take(Take(Take(locked, TakeDataLock), Push), Signal), Leave)
  }

  // What one copy of the mover meets: the fresh directory, whether it completes, and what it leaves there.
  datatype Copy = Copy(dir: string, complete: bool, content: Option<Bytes>)

  predicate CanCopy(sv: ServerState, c: Copy) {
    CanStep(sv, MoverCopy(c.dir, c.complete, c.content)) && sv.pathLock.Nobody?
  }

  // One turn of the mover's inner loop.
  function Copied(sv: ServerState, c: Copy): ServerState
    requires CanCopy(sv, c)
  {
    var copied := Take(sv, MoverCopy(c.dir, c.complete, c.content));
    if c.complete then Take(Take(copied, MoverTakePathLock), MoverPublish) else copied
  }

  // The copies are those of all paths in hand.
  predicate CanCopyAll(sv: ServerState, copies: seq<Copy>)
    decreases |copies|
  {
    |copies| == |sv.inHand| && (copies != [] ==> CanCopy(sv, copies[0]) && CanCopyAll(Copied(sv, copies[0]), copies[1..]))
  }

  function CopiedAll(sv: ServerState, copies: seq<Copy>): ServerState
    requires CanCopyAll(sv, copies)
    decreases |copies|
  {
    if copies == [] then sv else CopiedAll(Copied(sv, copies[0]), copies[1..])
  }

  // ---------------------------------------------------------------- what the sequences achieve

  // Closing enqueues the path of the descriptor exactly when it is not cached, wakes the mover in that case, and
  // forgets the descriptor; nothing else changes.
  lemma ClosedEnqueuesOnce(pfs: map<Path, Bytes>, sv: ServerState, fd: int)
    requires Inv(pfs, sv) && NobodyLocks(sv) && fd in sv.files
    ensures var after := Closed(sv, fd);
            var path := sv.fdToPath[fd];
            && Inv(pfs, after) && NobodyLocks(after)
            && after.files == sv.files - {fd} && after.fdToPath == sv.fdToPath - {fd}
            && after.queue == (if path in sv.cache then sv.queue else sv.queue + [path])
            && (path !in sv.cache ==> !after.moving.Asleep?)
            && after.cache == sv.cache && after.fs == sv.fs && after.inHand == sv.inHand
  {
    CloseKeepsInv(pfs, sv, fd);
    var closed := HandleClose(sv, fd);
    StepKeepsInv(pfs, closed, TakePathLock);
    var locked := Take(closed, TakePathLock);
    if locked.closing.Leaving? {
      StepKeepsInv(pfs, locked, Leave);
    } else {
      PushKeepsInv(pfs, locked);
    }
  }

  lemma PushKeepsInv(pfs: map<Path, Bytes>, sv: ServerState)
    requires Inv(pfs, sv) && CanStep(sv, TakeDataLock)
    ensures Inv(pfs, Take(Take(Take(Take(sv, TakeDataLock), Push), Signal), Leave))
  {
    StepKeepsInv(pfs, sv, TakeDataLock);
    var a := Take(sv, TakeDataLock);
    StepKeepsInv(pfs, a, Push);
    var b := Take(a, Push);
    StepKeepsInv(pfs, b, Signal);
    StepKeepsInv(pfs, Take(b, Signal), Leave);
  }

  // The state after one copy.
  lemma CopiedState(sv: ServerState, c: Copy)
    requires CanCopy(sv, c)
    ensures var path := sv.inHand[0];
            var name := NvmeName(c.dir, path);
            var fs := if c.content.Some? then sv.fs[name := c.content.value] else sv.fs;
            var after := sv.(fs := fs, processed := sv.processed + [path], inHand := sv.inHand[1..]);
            Copied(sv, c) == if c.complete then after.(cache := sv.cache[path := name])
                             else after.(failed := sv.failed + {path})
  {
  }

  lemma CopyTaken(sv: ServerState, c: Copy)
    requires CanStep(sv, MoverCopy(c.dir, c.complete, c.content))
    ensures var path := sv.inHand[0];
            var name := NvmeName(c.dir, path);
            var after := sv.(fs := if c.content.Some? then sv.fs[name := c.content.value] else sv.fs);
            Take(sv, MoverCopy(c.dir, c.complete, c.content))
            == if c.complete then after.(moving := WantPublish(name))
               else after.(processed := sv.processed + [path], failed := sv.failed + {path}, inHand := sv.inHand[1..])
  {
  }

  lemma CopiedKeepsInv(pfs: map<Path, Bytes>, sv: ServerState, c: Copy)
    requires Inv(pfs, sv) && CanCopy(sv, c)
    ensures Inv(pfs, Copied(sv, c))
  {
    var e := MoverCopy(c.dir, c.complete, c.content);
    StepKeepsInv(pfs, sv, e);
    if c.complete {
      var copied := Take(sv, e);
      StepKeepsInv(pfs, copied, MoverTakePathLock);
      StepKeepsInv(pfs, Take(copied, MoverTakePathLock), MoverPublish);
    }
  }

  lemma {:induction false} PassKeepsInv(pfs: map<Path, Bytes>, sv: ServerState, copies: seq<Copy>)
    requires Inv(pfs, sv) && CanCopyAll(sv, copies)
    ensures Inv(pfs, CopiedAll(sv, copies))
    decreases |copies|
  {
    if copies != [] {
      CopiedKeepsInv(pfs, sv, copies[0]);
      PassKeepsInv(pfs, Copied(sv, copies[0]), copies[1..]);
    }
  }

  // What a pass over the paths in hand leaves: nothing in hand, all processed in order, the paths whose copy
  // completed cached, and no other path cached anew.
  ghost predicate PassDone(sv: ServerState, copies: seq<Copy>, after: ServerState) {
    && |copies| == |sv.inHand|
    && after.inHand == [] && after.processed == sv.processed + sv.inHand && after.queue == sv.queue
    && (forall p :: p in sv.cache ==> p in after.cache)
    && (forall p :: p in after.cache && p !in sv.inHand ==> p in sv.cache && after.cache[p] == sv.cache[p])
    && (forall i :: 0 <= i < |copies| && copies[i].complete ==> sv.inHand[i] in after.cache)
  }

  lemma PassStep(sv: ServerState, copies: seq<Copy>, next: ServerState, after: ServerState)
    requires copies != [] && sv.inHand != []
    requires next.inHand == sv.inHand[1..] && next.processed == sv.processed + [sv.inHand[0]] && next.queue == sv.queue
    requires next.cache.Keys == (if copies[0].complete then sv.cache.Keys + {sv.inHand[0]} else sv.cache.Keys)
    requires forall p :: p in sv.cache && p != sv.inHand[0] ==> next.cache[p] == sv.cache[p]
    requires PassDone(next, copies[1..], after)
    ensures PassDone(sv, copies, after)
  {
    assert sv.inHand == [sv.inHand[0]] + next.inHand;
    assert sv.processed + sv.inHand == next.processed + next.inHand;
    forall p | p in sv.cache ensures p in after.cache { assert p in next.cache; }
    forall i | 0 <= i < |copies| && copies[i].complete
      ensures sv.inHand[i] in after.cache
    {
      if i == 0 {
        assert sv.inHand[0] in next.cache;
      } else {
        assert copies[1..][i - 1] == copies[i] && next.inHand[i - 1] == sv.inHand[i];
      }
    }
  }

  lemma {:induction false} PassCachesAll(sv: ServerState, copies: seq<Copy>)
    requires CanCopyAll(sv, copies)
    ensures PassDone(sv, copies, CopiedAll(sv, copies))
    decreases |copies|
  {
    if copies == [] {
      assert sv.processed + [] == sv.processed;
    } else {
      CopiedState(sv, copies[0]);
      var next := Copied(sv, copies[0]);
      PassCachesAll(next, copies[1..]);
      PassStep(sv, copies, next, CopiedAll(next, copies[1..]));
    }
  }

  // base is all of the path, or what follows a slash in it up to its end.
  predicate Ending(path: Path, base: string) {
    |base| <= |path| && path[|path| - |base|..] == base && (|base| < |path| ==> path[|path| - |base| - 1] == '/')
  }

  // ---------------------------------------------------------------- the process

  class CacheServer {
    var up: bool
    var files: map<int, OpenFile>
    var fdToPath: map<int, Path>
    var pathCache: map<Path, Path>
    var disk: map<Path, Bytes>
    var dataQueue: seq<Path>
    var localList: seq<Path>
    // Who holds the locks, where the close handler and the mover stand, and the record of what passed through the queue.
    ghost var pathLock: Holder
    ghost var dataLock: Holder
    ghost var closing: Closing
    ghost var moving: Moving
    ghost var enqueued: seq<Path>
    ghost var processed: seq<Path>
    ghost var failed: set<Path>

    ghost function State(): ServerState
      reads this
    {
      ServerState(up, files, fdToPath, pathCache, disk, dataQueue, localList, pathLock, dataLock, closing, moving,
                  enqueued, processed, failed)
    }

    constructor (disk: map<Path, Bytes>)
      ensures State() == Boot(disk)
    {
      up, files, fdToPath, pathCache := true, map[], map[], map[];
      this.disk := disk;
      dataQueue, localList := [], [];
      pathLock, dataLock, closing, moving := Nobody, Nobody, Idle, Locking;
      enqueued, processed, failed := [], [], {};
    }

    // fd is what the operating system answers to the open.
    method OpenHandler(path: Path, fd: int) returns (reply: int)
      requires CanOpen(State(), path, fd)
      modifies this
      ensures State() == HandleOpen(old(State()), path, fd) && reply == fd
      ensures fdToPath == old(fdToPath)[fd := path]
      ensures fd != -1 ==>
                var target := if path in pathCache then pathCache[path] else path;
                target in disk && files == old(files)[fd := OpenFile(disk[target], 0)]
      ensures fd == -1 ==> files == old(files)
    {
      var redirected := path;
      if path in pathCache {
        redirected := pathCache[path];
      }
      if fd != -1 {
        files := files[fd := OpenFile(disk[redirected], 0)];
      }
      fdToPath := fdToPath[fd := path];
      reply := fd;
    }

    // A plain read of one of the server's descriptors; None when the device fails.
    method ReadFile(fd: int, count: nat, works: bool) returns (bytes: Option<Bytes>)
      modifies this`files
      ensures bytes.Some? <==> fd in old(files) && works
      ensures State() == if bytes.Some? then Advanced(old(State()), fd, count) else old(State())
      ensures bytes.Some? ==> Data(bytes.value) == Read(old(files)[fd].data, old(files)[fd].cursor, count)
      ensures bytes.Some? ==>
                var f := old(files)[fd];
                && |bytes.value| == (if f.cursor >= |f.data| then 0
                                     else if count <= |f.data| - f.cursor then count else |f.data| - f.cursor)
                && (forall i :: 0 <= i < |bytes.value| ==> bytes.value[i] == f.data[f.cursor + i])
                && files == old(files)[fd := OpenFile(f.data, f.cursor + |bytes.value|)]
    {
      bytes := None;
      if fd in files && works {
        var f := files[fd];
        bytes := Some(Slice(f.data, f.cursor, count));
        files := files[fd := f.(cursor := f.cursor + |bytes.value|)];
      }
    }

    // A sequential read travels at offset -1; when both of its attempts fail, the process dies without a reply.
    method RpcHandler(accessFd: int, localFd: int, count: nat, offset: int, works: bool, works2: bool)
      returns (reply: Option<Ret>)
      requires up
      modifies this
      ensures offset == -1 ==>
                (State(), reply) == HandleRead(old(State()), accessFd, localFd, count, works, works2)
      ensures offset != -1 ==>
                State() == old(State()) && reply == Some(HandlePread(old(State()), accessFd, count, offset, works))
      ensures offset != -1 && !(accessFd in files && works && offset >= 0) ==> reply == Some(Fail)
      ensures offset != -1 && accessFd in files && works && offset >= 0 ==>
                var data := files[accessFd].data;
                && reply.Some? && reply.value.Data?
                && |reply.value.bytes| == (if offset >= |data| then 0
                                           else if count <= |data| - offset then count else |data| - offset)
                && (forall i :: 0 <= i < |reply.value.bytes| ==> reply.value.bytes[i] == data[offset + i])
      ensures offset == -1 ==>
                (reply.Some? <==> (accessFd in old(files) && works) || (localFd in old(files) && works2))
                && (reply.None? ==> !up && files == old(files))
      ensures offset == -1 && reply.Some? ==>
                var fd := if accessFd in old(files) && works then accessFd else localFd;
                var f := old(files)[fd];
                && up && reply.value.Data?
                && |reply.value.bytes| == (if f.cursor >= |f.data| then 0
                                           else if count <= |f.data| - f.cursor then count else |f.data| - f.cursor)
                && (forall i :: 0 <= i < |reply.value.bytes| ==> reply.value.bytes[i] == f.data[f.cursor + i])
                && files == old(files)[fd := OpenFile(f.data, f.cursor + |reply.value.bytes|)]
    {
      if offset == -1 {
        var bytes := ReadFile(accessFd, count, works);
        if bytes.None? {
          bytes := ReadFile(localFd, count, works2);
        }
        if bytes.None? {
          up := false;
          return None;
        }
        reply := Some(Data(bytes.value));
      } else if accessFd in files && works && offset >= 0 {
        reply := Some(Data(Slice(files[accessFd].data, offset, count)));
      } else {
        reply := Some(Fail);
      }
    }

    method SeekHandler(fd: int, offset: int, whence: int) returns (reply: int)
      requires up
      modifies this`files
      ensures (State(), Pos(reply)) == HandleSeek(old(State()), fd, offset, whence)
      ensures fd !in old(files) ==> reply == -1 && files == old(files)
      ensures fd in old(files) ==>
                var f := old(files)[fd];
                var want := if whence == 0 then offset else if whence == 1 then f.cursor + offset
                            else if whence == 2 then |f.data| + offset else -1;
                if want < 0 then reply == -1 && files == old(files)
                else
                  && files == old(files)[fd := OpenFile(f.data, want)]
                  && -0x8000_0000 <= reply < 0x8000_0000 && (want - reply) % 0x1_0000_0000 == 0
    {
      reply := -1;
      if fd in files {
        var f := files[fd];
        var target := SeekTarget(f.data, f.cursor, offset, whence);
        if target >= 0 {
          files := files[fd := f.(cursor := target)];
          reply := Int32(target);
        } else {
          assert f.(cursor := f.cursor) == f && files[fd := f] == files;
        }
      }
    }

    // The pieces of the close handler between its locks. Each is a step from any state in which it can run, whatever
    // the mover did since the piece before.
    method CloseFile(fd: int) returns (ok: bool)
      requires Listening(State())
      modifies this
      ensures State() == HandleClose(old(State()), fd) && ok == up
      ensures (ok <==> fd in old(files)) && files == old(files) - {fd}
    {
      if fd !in files {
        up := false;
        return false;
      }
      files := files - {fd};
      closing := WantPath(fd);
      ok := true;
    }

    method LookUpClosed(fd: int) returns (cached: bool)
      requires CanStep(State(), TakePathLock) && closing.fd == fd
      modifies this`pathLock, this`closing
      ensures State() == Take(old(State()), TakePathLock) && (cached <==> closing == Leaving(fd))
      ensures cached <==> (if fd in fdToPath then fdToPath[fd] else "") in pathCache
      ensures !cached ==> closing == WantData(fd)
    {
      pathLock := Handler;
      var path := if fd in fdToPath then fdToPath[fd] else "";
      cached := path in pathCache;
      closing := if cached then Leaving(fd) else WantData(fd);
    }

    method LockQueue()
      requires CanStep(State(), TakeDataLock)
      modifies this`dataLock, this`closing
      ensures State() == Take(old(State()), TakeDataLock)
    {
      dataLock := Handler;
      closing := HaveData(closing.fd);
    }

    method PushClosed(fd: int)
      requires CanStep(State(), Push) && closing.fd == fd
      modifies this`dataQueue, this`enqueued, this`closing
      ensures State() == Take(old(State()), Push)
      ensures dataQueue == old(dataQueue) + [if fd in fdToPath then fdToPath[fd] else ""]
    {
      var path := if fd in fdToPath then fdToPath[fd] else "";
      dataQueue := dataQueue + [path];
      enqueued := enqueued + [path];
      closing := Pushed(fd);
    }

    method SignalMover()
      requires CanStep(State(), Signal)
      modifies this`moving, this`dataLock, this`closing
      ensures State() == Take(old(State()), Signal)
      ensures dataLock == Nobody && moving == if old(moving) == Asleep then Locking else old(moving)
    {
      if moving.Asleep? {
        moving := Locking;
      }
      dataLock := Nobody;
      closing := Leaving(closing.fd);
    }

    method ForgetClosed(fd: int)
      requires CanStep(State(), Leave) && closing.fd == fd
      modifies this`pathLock, this`fdToPath, this`closing
      ensures State() == Take(old(State()), Leave)
      ensures pathLock == Nobody && closing == Idle && fdToPath == old(fdToPath) - {fd}
    {
      pathLock := Nobody;
      fdToPath := fdToPath - {fd};
      closing := Idle;
    }

    // The pieces one after the other.
    method CloseHandler(fd: int)
      requires NobodyLocks(State())
      modifies this
      ensures State() == Closed(old(State()), fd)
      ensures var path := if fd in old(fdToPath) then old(fdToPath)[fd] else "";
              fd in old(files) ==>
                && files == old(files) - {fd} && fdToPath == old(fdToPath) - {fd}
                && dataQueue == (if path in pathCache then old(dataQueue) else old(dataQueue) + [path])
    {
      var ok := CloseFile(fd);
      if !ok {
        return;
      }
      var cached := LookUpClosed(fd);
      if !cached {
        LockQueue();
        PushClosed(fd);
        SignalMover();
      }
      ForgetClosed(fd);
    }

    // The pieces of the mover, in the same way.
    method LockForDrain()
      requires CanStep(State(), MoverLock)
      modifies this`dataLock, this`moving
      ensures State() == Take(old(State()), MoverLock)
    {
      dataLock := Mover;
      moving := Checking;
    }

    // Holding the lock, the mover takes everything queued, or goes to sleep when there is nothing.
    method DrainOrSleep()
      requires CanStep(State(), MoverCheck)
      modifies this
      ensures State() == Take(old(State()), MoverCheck)
      ensures dataQueue == [] && localList == old(localList) + old(dataQueue) && dataLock == Nobody
      ensures moving == if old(dataQueue) == [] then Asleep else Working
    {
      ghost var all := localList + dataQueue;
      if dataQueue == [] {
        moving := Asleep;
      } else {
        while dataQueue != []
          invariant localList + dataQueue == all
          invariant State() == old(State()).(queue := dataQueue, inHand := localList)
          decreases |dataQueue|
        {
          localList := localList + [dataQueue[0]];
          dataQueue := dataQueue[1..];
        }
        moving := Working;
        assert localList == all;
      }
      dataLock := Nobody;
    }

    method DrainQueue()
      requires up && CanStep(State(), MoverLock)
      modifies this
      ensures State() == Take(Take(old(State()), MoverLock), MoverCheck)
    {
      LockForDrain();
      DrainOrSleep();
    }

    // The name of the path's copy in the directory: what follows the last slash of the path, or the whole path.
    method CopyName(dir: string, path: Path) returns (name: Path, ghost base: string)
      ensures name == NvmeName(dir, path) == dir + "/" + base && '/' !in base
      ensures Ending(path, base)
    {
      BaseNameMeans(path);
      base := BaseName(path);
      name := dir + "/" + BaseName(path);
    }

    // The copy runs under that name; one that breaks off drops the path.
    method RunMover(c: Copy, name: Path)
      requires CanStep(State(), MoverCopy(c.dir, c.complete, c.content)) && name == NvmeName(c.dir, localList[0])
      modifies this
      ensures State() == Take(old(State()), MoverCopy(c.dir, c.complete, c.content))
      ensures c.complete ==> moving == WantPublish(name)
      ensures disk == if c.content.Some? then old(disk)[name := c.content.value] else old(disk)
      ensures localList == if c.complete then old(localList) else old(localList)[1..]
    {
      CopyTaken(State(), c);
      var path := localList[0];
      if c.content.Some? {
        disk := disk[name := c.content.value];
      }
      if c.complete {
        moving := WantPublish(name);
      } else {
        failed := failed + {path};
        processed := processed + [path];
        localList := localList[1..];
      }
    }

    // Copies the first path in hand to a fresh directory.
    method CopyFile(c: Copy) returns (name: Path, ghost base: string)
      requires CanStep(State(), MoverCopy(c.dir, c.complete, c.content))
      modifies this
      ensures State() == Take(old(State()), MoverCopy(c.dir, c.complete, c.content))
      ensures c.complete ==> moving == WantPublish(name)
      // The name is the directory's with what follows the last slash of the path, or with the whole path.
      ensures name == c.dir + "/" + base && '/' !in base && Ending(old(localList)[0], base)
      ensures disk == if c.content.Some? then old(disk)[name := c.content.value] else old(disk)
      ensures localList == if c.complete then old(localList) else old(localList)[1..]
    {
      name, base := CopyName(c.dir, localList[0]);
      RunMover(c, name);
    }

    method LockForPublish()
      requires CanStep(State(), MoverTakePathLock)
      modifies this`pathLock, this`moving
      ensures State() == Take(old(State()), MoverTakePathLock)
    {
      pathLock := Mover;
      moving := Publishing(moving.file);
    }

    method PublishCopy(name: Path)
      requires CanStep(State(), MoverPublish) && moving.file == name
      modifies this
      ensures State() == Take(old(State()), MoverPublish)
      ensures pathCache == old(pathCache)[old(localList)[0] := name] && localList == old(localList)[1..]
      ensures pathLock == Nobody && moving == Working
    {
      pathCache := pathCache[localList[0] := name];
      pathLock := Nobody;
      moving := Working;
      processed := processed + [localList[0]];
      localList := localList[1..];
    }

    // One turn of the mover's inner loop.
    method CopyFirst(c: Copy) returns (ghost base: string)
      requires CanCopy(State(), c)
      modifies this
      ensures State() == Copied(old(State()), c)
      ensures localList == old(localList)[1..]
      ensures !c.complete ==> pathCache == old(pathCache)
      ensures '/' !in base && Ending(old(localList)[0], base)
      ensures c.complete ==> pathCache == old(pathCache)[old(localList)[0] := c.dir + "/" + base]
    {
      var name: Path;
      name, base := CopyFile(c);
      if c.complete {
        LockForPublish();
        PublishCopy(name);
      }
    }

    // The mover works through the paths in hand.
    method CopyLocalList(copies: seq<Copy>)
      requires CanCopyAll(State(), copies)
      modifies this
      ensures State() == CopiedAll(old(State()), copies) && localList == []
    {
      var i := 0;
      while localList != []
        invariant i <= |copies| && CanCopyAll(State(), copies[i..])
        invariant CopiedAll(State(), copies[i..]) == CopiedAll(old(State()), copies)
        decreases |localList|
      {
        assert copies[i..][1..] == copies[i + 1..];
        CopiedState(State(), copies[i]);
        ghost var _ := CopyFirst(copies[i]);
        i := i + 1;
      }
    }
  }
}
