// One cache server: the RPC handlers, which its single progress thread runs one at a time, and the data
// mover thread. The handlers for open, read and seek are one step each. The close handler and the mover
// are cut at every lock, unlock, wait and signal, since those two threads share the queue and the map.
module Server {
  import opened PlainFile
  import opened Wrappers

  datatype OpenFile = OpenFile(data: Bytes, cursor: nat)

  datatype Holder = Nobody | Handler | Mover

  // Where the close handler stands: before the path lock, before the data lock (path lock held),
  // with both locks before the push, after the push before the signal, and before giving the path lock back.
  datatype Closing =
    | Idle
    | WantPath(fd: int)
    | WantData(fd: int)
    | HaveData(fd: int)
    | Pushed(fd: int)
    | Leaving(fd: int)

  // Where the mover stands. Locking: about to take the data lock. Checking: holding it, at the loop test.
  // Working: no lock, over the paths in hand. WantPublish/Publishing: copy made, before/with the path lock.
  datatype Moving =
    | Locking
    | Checking
    | Asleep
    | Working
    | WantPublish(file: Path)
    | Publishing(file: Path)

  // fs is what the server's node sees: the parallel file system and its own NVMe directory.
  // enqueued, processed and failed are a record of what happened; no step reads them.
  datatype ServerState = ServerState(
    up: bool,
    files: map<int, OpenFile>,
    fdToPath: map<int, Path>,
    cache: map<Path, Path>,
    fs: map<Path, Bytes>,
    queue: seq<Path>,
    inHand: seq<Path>,
    pathLock: Holder,
    dataLock: Holder,
    closing: Closing,
    moving: Moving,
    enqueued: seq<Path>,
    processed: seq<Path>,
    failed: set<Path>)

  function Boot(fs: map<Path, Bytes>): ServerState {
    ServerState(true, map[], map[], map[], fs, [], [], Nobody, Nobody, Idle, Locking, [], [], {})
  }

  function Crashed(sv: ServerState): ServerState {
    sv.(up := false)
  }

  // ---------------------------------------------------------------- RPC handlers

  predicate Listening(sv: ServerState) {
    sv.up && sv.closing.Idle?
  }

  // std::map::operator[] default-inserts the empty string.
  function PathOf(sv: ServerState, fd: int): Path {
    if fd in sv.fdToPath then sv.fdToPath[fd] else ""
  }

  function Redirected(sv: ServerState, path: Path): Path {
    if path in sv.cache then sv.cache[path] else path
  }

  // fd is the descriptor the operating system hands out, or -1 when open fails.
  predicate CanOpen(sv: ServerState, path: Path, fd: int) {
    && Listening(sv)
    && sv.pathLock.Nobody?
    && (fd == -1 || (0 <= fd && fd !in sv.files && Redirected(sv, path) in sv.fs))
  }

  function HandleOpen(sv: ServerState, path: Path, fd: int): ServerState
    requires CanOpen(sv, path, fd)
  {
    sv.(files := if fd == -1 then sv.files else sv.files[fd := OpenFile(sv.fs[Redirected(sv, path)], 0)],
        fdToPath := sv.fdToPath[fd := path])
  }

  // Positioned read; ok is false when the device reports an error.
  function HandlePread(sv: ServerState, fd: int, count: nat, offset: int, ok: bool): Ret {
    if fd in sv.files && ok then Pread(sv.files[fd].data, count, offset) else Fail
  }

  function Advanced(sv: ServerState, fd: int, count: nat): ServerState
    requires fd in sv.files
  {
    var f := sv.files[fd];
    sv.(files := sv.files[fd := f.(cursor := AfterRead(f.data, f.cursor, count))])
  }

  // Sequential read: on failure the handler tries the client's descriptor number, and when that fails too
  // the transfer of a negative size fails its assertion.
  function HandleRead(sv: ServerState, fd: int, localFd: int, count: nat, ok: bool, ok2: bool): (ServerState, Option<Ret>) {
    if fd in sv.files && ok then
      (Advanced(sv, fd, count), Some(Read(sv.files[fd].data, sv.files[fd].cursor, count)))
    else if localFd in sv.files && ok2 then
      (Advanced(sv, localFd, count), Some(Read(sv.files[localFd].data, sv.files[localFd].cursor, count)))
    else
      (Crashed(sv), None)
  }

  function HandleSeek(sv: ServerState, fd: int, offset: int, whence: int): (ServerState, Ret) {
    if fd in sv.files then
      var f := sv.files[fd];
      (sv.(files := sv.files[fd := f.(cursor := AfterSeek(f.data, f.cursor, offset, whence))]),
       Pos(Int32(Seek(f.data, f.cursor, offset, whence).pos)))
    else (sv, Pos(-1))
  }

  // The close handler up to its first lock; closing a descriptor that is not open fails its assertion.
  function HandleClose(sv: ServerState, fd: int): ServerState {
    if fd in sv.files then sv.(files := sv.files - {fd}, closing := WantPath(fd)) else Crashed(sv)
  }

  // ---------------------------------------------------------------- steps of the close handler and the mover

  datatype Step =
    | TakePathLock
    | TakeDataLock
    | Push
    | Signal
    | Leave
    | MoverLock
    | MoverCheck
    | MoverWake
    | MoverCopy(dir: string, complete: bool, content: Option<Bytes>)
    | MoverTakePathLock
    | MoverPublish

  predicate ByHandler(e: Step) {
    e.TakePathLock? || e.TakeDataLock? || e.Push? || e.Signal? || e.Leave?
  }

  function NvmeName(dir: string, path: Path): Path {
    dir + "/" + BaseName(path)
  }

  // mkdtemp made dir, so no file lies in it yet; a copy that completes has the contents of its source.
  predicate CopyPossible(sv: ServerState, e: Step)
    requires e.MoverCopy?
  {
    && sv.moving.Working? && sv.inHand != []
    && (forall f :: f in sv.fs ==> DirName(f) != e.dir)
    && (e.complete ==> sv.inHand[0] in sv.fs && e.content == Some(sv.fs[sv.inHand[0]]))
  }

  predicate CanStep(sv: ServerState, e: Step) {
    sv.up &&
    match e
    case TakePathLock => sv.closing.WantPath? && sv.pathLock.Nobody?
    case TakeDataLock => sv.closing.WantData? && sv.dataLock.Nobody?
    case Push => sv.closing.HaveData?
    case Signal => sv.closing.Pushed?
    case Leave => sv.closing.Leaving?
    case MoverLock => (sv.moving.Locking? || (sv.moving.Working? && sv.inHand == [])) && sv.dataLock.Nobody?
    case MoverCheck => sv.moving.Checking?
    case MoverWake => sv.moving.Asleep?
    case MoverCopy(_, _, _) => CopyPossible(sv, e)
    case MoverTakePathLock => sv.moving.WantPublish? && sv.pathLock.Nobody?
    case MoverPublish => sv.moving.Publishing? && sv.inHand != []
  }

  function Take(sv: ServerState, e: Step): ServerState
    requires CanStep(sv, e)
  {
    match e
    case TakePathLock =>
      var fd := sv.closing.fd;
      sv.(pathLock := Handler, closing := if PathOf(sv, fd) in sv.cache then Leaving(fd) else WantData(fd))
    case TakeDataLock =>
      sv.(dataLock := Handler, closing := HaveData(sv.closing.fd))
    case Push =>
      var p := PathOf(sv, sv.closing.fd);
      sv.(queue := sv.queue + [p], enqueued := sv.enqueued + [p], closing := Pushed(sv.closing.fd))
    case Signal =>
      sv.(moving := if sv.moving.Asleep? then Locking else sv.moving, dataLock := Nobody, closing := Leaving(sv.closing.fd))
    case Leave =>
      sv.(pathLock := Nobody, fdToPath := sv.fdToPath - {sv.closing.fd}, closing := Idle)
    case MoverLock =>
      sv.(dataLock := Mover, moving := Checking)
    case MoverCheck =>
      if sv.queue == [] then sv.(dataLock := Nobody, moving := Asleep)
      else sv.(dataLock := Nobody, moving := Working, inHand := sv.inHand + sv.queue, queue := [])
    case MoverWake =>
      sv.(moving := Locking)
    case MoverCopy(dir, complete, content) =>
      var file := NvmeName(dir, sv.inHand[0]);
      var fs := if content.Some? then sv.fs[file := content.value] else sv.fs;
      if complete then sv.(fs := fs, moving := WantPublish(file))
      else sv.(fs := fs, processed := sv.processed + [sv.inHand[0]], failed := sv.failed + {sv.inHand[0]},
               inHand := sv.inHand[1..])
    case MoverTakePathLock =>
      sv.(pathLock := Mover, moving := Publishing(sv.moving.file))
    case MoverPublish =>
      sv.(cache := sv.cache[sv.inHand[0] := sv.moving.file], pathLock := Nobody, moving := Working,
          processed := sv.processed + [sv.inHand[0]], inHand := sv.inHand[1..])
  }

  lemma StepStaysUp(sv: ServerState, e: Step)
    requires CanStep(sv, e)
    ensures Take(sv, e).up && Take(sv, e).files == sv.files
  {
  }

  // ---------------------------------------------------------------- what every step keeps

  ghost predicate KeepsSources(pfs: map<Path, Bytes>, sv: ServerState) {
    forall p :: p in pfs ==> p in sv.fs && sv.fs[p] == pfs[p]
  }

  // Each cached path names an NVMe file of its own with the contents of the path.
  ghost predicate CacheCoherent(pfs: map<Path, Bytes>, sv: ServerState) {
    && (forall p :: p in sv.cache ==>
          p in pfs && sv.cache[p] !in pfs && sv.cache[p] in sv.fs && sv.fs[sv.cache[p]] == pfs[p])
    && (forall p, q :: p in sv.cache && q in sv.cache && p != q ==> sv.cache[p] != sv.cache[q])
  }

  // Every open descriptor reads the contents of its fd_to_path entry.
  ghost predicate FilesCoherent(pfs: map<Path, Bytes>, sv: ServerState) {
    forall fd :: fd in sv.files ==>
      0 <= fd && fd in sv.fdToPath && sv.fdToPath[fd] in pfs && sv.files[fd].data == pfs[sv.fdToPath[fd]]
  }

  ghost predicate OnlySources(pfs: map<Path, Bytes>, paths: seq<Path>) {
    forall p :: p in paths ==> p in pfs
  }

  ghost predicate LocksMatch(sv: ServerState) {
    && (sv.pathLock.Handler? <==> sv.closing.WantData? || sv.closing.HaveData? || sv.closing.Pushed? || sv.closing.Leaving?)
    && (sv.pathLock.Mover? <==> sv.moving.Publishing?)
    && (sv.dataLock.Handler? <==> sv.closing.HaveData? || sv.closing.Pushed?)
    && (sv.dataLock.Mover? <==> sv.moving.Checking?)
  }

  ghost predicate CloseOnItsWay(pfs: map<Path, Bytes>, sv: ServerState) {
    && (!sv.closing.Idle? ==>
          sv.closing.fd in sv.fdToPath && sv.fdToPath[sv.closing.fd] in pfs && sv.closing.fd !in sv.files)
    && (sv.closing.WantData? || sv.closing.HaveData? ==> PathOf(sv, sv.closing.fd) !in sv.cache)
    && (sv.closing.Pushed? || sv.closing.Leaving? ==>
          PathOf(sv, sv.closing.fd) in sv.cache || PathOf(sv, sv.closing.fd) in sv.enqueued)
  }

  ghost predicate CopyInHand(pfs: map<Path, Bytes>, sv: ServerState) {
    && (sv.moving.Locking? || sv.moving.Checking? || sv.moving.Asleep? ==> sv.inHand == [])
    && (sv.moving.WantPublish? || sv.moving.Publishing? ==>
          && sv.inHand != [] && sv.inHand[0] in pfs
          && sv.moving.file !in pfs && sv.moving.file in sv.fs && sv.fs[sv.moving.file] == pfs[sv.inHand[0]]
          && (forall p :: p in sv.cache ==> sv.cache[p] != sv.moving.file))
  }

  // Nothing is lost, duplicated or reordered between the close handler and the mover.
  ghost predicate Conserved(sv: ServerState) {
    && sv.processed + sv.inHand + sv.queue == sv.enqueued
    && (forall p :: p in sv.processed ==> p in sv.cache || p in sv.failed)
  }

  // The mover sleeps over a non-empty queue only while the handler is about to signal.
  ghost predicate WakeupPending(sv: ServerState) {
    sv.moving.Asleep? && sv.queue != [] ==> sv.closing.Pushed?
  }

  ghost predicate Coherent(pfs: map<Path, Bytes>, sv: ServerState) {
    && KeepsSources(pfs, sv) && CacheCoherent(pfs, sv) && FilesCoherent(pfs, sv)
    && OnlySources(pfs, sv.queue) && OnlySources(pfs, sv.inHand) && OnlySources(pfs, sv.enqueued)
    && LocksMatch(sv) && CloseOnItsWay(pfs, sv) && CopyInHand(pfs, sv) && WakeupPending(sv)
  }

  ghost predicate Inv(pfs: map<Path, Bytes>, sv: ServerState) {
    Coherent(pfs, sv) && Conserved(sv)
  }

  lemma BootInv(pfs: map<Path, Bytes>)
    ensures Inv(pfs, Boot(pfs))
  {
  }

  lemma OpenKeepsInv(pfs: map<Path, Bytes>, sv: ServerState, path: Path, fd: int)
    requires Inv(pfs, sv) && path in pfs && CanOpen(sv, path, fd)
    ensures Inv(pfs, HandleOpen(sv, path, fd))
  {
  }

  lemma ReadKeepsInv(pfs: map<Path, Bytes>, sv: ServerState, fd: int, localFd: int, count: nat, ok: bool, ok2: bool)
    requires Inv(pfs, sv)
    ensures Inv(pfs, HandleRead(sv, fd, localFd, count, ok, ok2).0)
  {
  }

  lemma SeekKeepsInv(pfs: map<Path, Bytes>, sv: ServerState, fd: int, offset: int, whence: int)
    requires Inv(pfs, sv)
    ensures Inv(pfs, HandleSeek(sv, fd, offset, whence).0)
  {
  }

  lemma CloseKeepsInv(pfs: map<Path, Bytes>, sv: ServerState, fd: int)
    requires Inv(pfs, sv) && Listening(sv)
    ensures Inv(pfs, HandleClose(sv, fd))
  {
  }

  lemma CrashKeepsInv(pfs: map<Path, Bytes>, sv: ServerState)
    requires Inv(pfs, sv)
    ensures Inv(pfs, Crashed(sv))
  {
  }

  lemma HandlerStepCoherent(pfs: map<Path, Bytes>, sv: ServerState, e: Step)
    requires Coherent(pfs, sv) && CanStep(sv, e) && ByHandler(e)
    ensures Coherent(pfs, Take(sv, e))
  {
  }

  lemma MoverLockingCoherent(pfs: map<Path, Bytes>, sv: ServerState, e: Step)
    requires Coherent(pfs, sv) && CanStep(sv, e)
    requires e.MoverLock? || e.MoverWake? || e.MoverTakePathLock?
    ensures Coherent(pfs, Take(sv, e))
  {
  }

  lemma DrainCoherent(pfs: map<Path, Bytes>, sv: ServerState)
    requires Coherent(pfs, sv) && CanStep(sv, MoverCheck)
    ensures Coherent(pfs, Take(sv, MoverCheck))
  {
    assert sv.inHand + sv.queue == sv.queue;
    if sv.queue != [] {
      assert Take(sv, MoverCheck) == sv.(dataLock := Nobody, moving := Working, inHand := sv.queue, queue := []);
    }
  }

  // Whatever the copy left in its fresh directory, no source and no cached file changes.
  lemma FreshFileHarmless(pfs: map<Path, Bytes>, sv: ServerState, file: Path, content: Bytes)
    requires Coherent(pfs, sv) && file !in sv.fs
    ensures Coherent(pfs, sv.(fs := sv.fs[file := content]))
  {
  }

  // The name is the directory's, then a slash, then what follows the last slash of the path, or the whole path.
  lemma NvmeNameMeans(dir: string, path: Path)
    ensures var name := NvmeName(dir, path);
            && dir + "/" <= name
            && var base := name[|dir| + 1..];
               && '/' !in base && |base| <= |path| && path[|path| - |base|..] == base
               && (|base| < |path| ==> path[|path| - |base| - 1] == '/')
  {
    BaseNameMeans(path);
    assert NvmeName(dir, path)[|dir| + 1..] == BaseName(path);
  }

  lemma CopyKeeps(pfs: map<Path, Bytes>, sv: ServerState, e: Step)
    requires Coherent(pfs, sv) && CanStep(sv, e) && e.MoverCopy?
    ensures Coherent(pfs, Take(sv, e))
    ensures e.complete ==> Take(sv, e).moving == WantPublish(NvmeName(e.dir, sv.inHand[0]))
  {
    var p := sv.inHand[0];
    var file := NvmeName(e.dir, p);
    assert file !in sv.fs by {
      DirNameOfJoin(e.dir, BaseName(p));
    }
    var written := if e.content.Some? then sv.(fs := sv.fs[file := e.content.value]) else sv;
    assert Coherent(pfs, written) by {
      if e.content.Some? {
        FreshFileHarmless(pfs, sv, file, e.content.value);
      }
    }
    if e.complete {
      assert written.fs[file] == pfs[p];
    } else {
      FirstDropped(pfs, written, sv.processed + [p], sv.failed + {p});
    }
  }

  lemma CopyCoherent(pfs: map<Path, Bytes>, sv: ServerState, e: Step)
    requires Coherent(pfs, sv) && CanStep(sv, e) && e.MoverCopy?
    ensures Coherent(pfs, Take(sv, e))
    // A complete copy lies in the directory, under what follows the last slash of its path, or the whole path.
    ensures e.complete ==>
              var path, after := sv.inHand[0], Take(sv, e);
              && after.moving.WantPublish? && e.dir + "/" <= after.moving.file
              && var base := after.moving.file[|e.dir| + 1..];
                 && '/' !in base && |base| <= |path| && path[|path| - |base|..] == base
                 && (|base| < |path| ==> path[|path| - |base| - 1] == '/')
  {
    CopyKeeps(pfs, sv, e);
    NvmeNameMeans(e.dir, sv.inHand[0]);
  }

  lemma FirstDropped(pfs: map<Path, Bytes>, sv: ServerState, processed: seq<Path>, failed: set<Path>)
    requires Coherent(pfs, sv) && sv.moving.Working? && sv.inHand != []
    ensures Coherent(pfs, sv.(inHand := sv.inHand[1..], processed := processed, failed := failed))
  {
  }

  lemma PublishCoherent(pfs: map<Path, Bytes>, sv: ServerState, e: Step)
    requires Coherent(pfs, sv) && CanStep(sv, e) && e.MoverPublish?
    ensures Coherent(pfs, Take(sv, e))
  {
  }

  lemma StepConserved(pfs: map<Path, Bytes>, sv: ServerState, e: Step)
    requires Inv(pfs, sv) && CanStep(sv, e)
    ensures Conserved(Take(sv, e))
  {
    var s' := Take(sv, e);
    if e.Push? {
      assert s'.processed + s'.inHand + s'.queue == (sv.processed + sv.inHand + sv.queue) + s'.queue[|sv.queue|..];
    } else if e.MoverCheck? {
      assert s'.processed + s'.inHand + s'.queue == sv.processed + sv.inHand + sv.queue;
    } else if e.MoverCopy? || e.MoverPublish? {
      TransferFirst(sv.processed, sv.inHand, sv.queue);
    }
  }

  lemma TransferFirst(a: seq<Path>, b: seq<Path>, c: seq<Path>)
    requires b != []
    ensures (a + [b[0]]) + b[1..] + c == a + b + c
  {
    assert b == [b[0]] + b[1..];
  }

  lemma StepKeepsInv(pfs: map<Path, Bytes>, sv: ServerState, e: Step)
    requires Inv(pfs, sv) && CanStep(sv, e)
    ensures Inv(pfs, Take(sv, e))
  {
    StepConserved(pfs, sv, e);
    match e
    case MoverCopy(_, _, _) => CopyCoherent(pfs, sv, e);
    case MoverPublish => PublishCoherent(pfs, sv, e);
    case MoverCheck => DrainCoherent(pfs, sv);
    case _ =>
      if ByHandler(e) {
        HandlerStepCoherent(pfs, sv, e);
      } else {
        MoverLockingCoherent(pfs, sv, e);
      }
  }
}
