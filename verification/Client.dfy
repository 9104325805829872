// One client process: the wrapped calls of its threads, the table of tracked descriptors, the redirect table
// and the timeout counters. A call that goes to a server is cut at the limit check, the send, the reply and
// the wake-up or timeout, since the threads of the process interleave there.
module Client {
  import opened PlainFile
  import opened Wrappers

  const TIMEOUT_LIMIT: nat := 3

  // pfs is the immutable parallel file system; a path is served by hash(path) % servers.
  datatype Config = Config(pfs: map<Path, Bytes>, servers: nat, hash: Path -> nat)

  function HostOf(cfg: Config, path: Path): (h: nat)
    requires cfg.servers > 0
    ensures h < cfg.servers
  {
    cfg.hash(path) % cfg.servers
  }

  lemma HostIsRemainder(cfg: Config, path: Path)
    requires cfg.servers > 0
    ensures 0 <= HostOf(cfg, path) < cfg.servers
    ensures cfg.hash(path) == cfg.hash(path) / cfg.servers * cfg.servers + HostOf(cfg, path)
  {
  }

  // Sizes and seek offsets travel as int32_t.
  type Count = x: nat | x < 0x8000_0000
  type Offset32 = x: int | -0x8000_0000 <= x < 0x8000_0000

  datatype Op =
    | OpOpen(fd: int, path: Path)
    | OpRead(fd: int, count: Count)
    | OpPread(fd: int, count: Count, offset: int)
    | OpSeek(fd: int, delta: int, whence: int)
    | OpClose(fd: int)

  // Passed: beyond the limit check, RPC not sent. Waiting: blocked on the reply record of request id.
  datatype Thread =
    | Ready
    | Passed(op: Op, host: nat)
    | Waiting(op: Op, host: nat, id: nat, answer: Option<Ret>)
    | Returned(op: Op, ret: Ret)

  datatype LocalFile = LocalFile(path: Path, cursor: nat)

  // acked records which tracked descriptors have had the reply to their own open; no step reads it.
  datatype ClientState = ClientState(
    local: map<int, LocalFile>,
    fdMap: map<int, Path>,
    redir: map<int, int>,
    counters: seq<nat>,
    threads: seq<Thread>,
    seeksDone: nat,
    seekRet: int,
    acked: set<int>)

  datatype Event =
    | Call(t: nat, op: Op, tracked: bool)
    | Send(t: nat, id: nat)
    | OpenAnswer(t: nat, id: nat, fd: int, remoteFd: int)
    | ReadAnswer(t: nat, id: nat, ret: Ret)
    | SeekAnswer(pos: int)
    | Wake(t: nat)
    | TimeOut(t: nat)
    | Return(t: nat)
    | InitAgain

  // std::vector::resize with fill value 0.
  function Resize(v: seq<nat>, n: nat): (r: seq<nat>)
    ensures |r| == n
    ensures forall i :: 0 <= i < n ==> r[i] == if i < |v| then v[i] else 0
  {
    if n <= |v| then v[..n] else v + seq(n - |v|, _ => 0)
  }

  function Start(cfg: Config, threads: nat): ClientState {
    ClientState(map[], map[], map[], Resize([], cfg.servers), seq(threads, _ => Ready), 0, -1, {})
  }

  predicate AtLimit(c: ClientState, host: nat) {
    host < |c.counters| && c.counters[host] >= TIMEOUT_LIMIT
  }

  // std::map::operator[] default-inserts 0.
  function RemoteFd(c: ClientState, fd: int): int {
    if fd in c.redir then c.redir[fd] else 0
  }

  // ---------------------------------------------------------------- the local file system

  type Descriptors = map<int, LocalFile>

  function Contents(cfg: Config, local: Descriptors, fd: int): Bytes
    requires fd in local
  {
    var path := local[fd].path;
    if path in cfg.pfs then cfg.pfs[path] else []
  }

  // What the real call returns on plain descriptors, and what it does to them.
  function PlainRet(cfg: Config, local: Descriptors, op: Op): Ret {
    if op.OpOpen? then Done
    else if op.fd !in local then Fail
    else
      var file := Contents(cfg, local, op.fd);
      match op
      case OpRead(fd, count) => Read(file, local[fd].cursor, count)
      case OpPread(fd, count, offset) => Pread(file, count, offset)
      case OpSeek(fd, delta, whence) => Seek(file, local[fd].cursor, delta, whence)
      case OpClose(_) => Done
  }

  function PlainAfter(cfg: Config, local: Descriptors, op: Op): Descriptors {
    if op.OpOpen? then local[op.fd := LocalFile(op.path, 0)]
    else if op.fd !in local then local
    else
      var file := Contents(cfg, local, op.fd);
      var f := local[op.fd];
      match op
      case OpRead(fd, count) => local[fd := f.(cursor := AfterRead(file, f.cursor, count))]
      case OpPread(_, _, _) => local
      case OpSeek(fd, delta, whence) => local[fd := f.(cursor := AfterSeek(file, f.cursor, delta, whence))]
      case OpClose(fd) => local - {fd}
  }

  // What the plain calls come to, in so many words.
  lemma PlainCallMeans(cfg: Config, local: Descriptors, op: Op)
    ensures op.OpOpen? ==> PlainRet(cfg, local, op) == Done && PlainAfter(cfg, local, op) == local[op.fd := LocalFile(op.path, 0)]
    ensures !op.OpOpen? && op.fd !in local ==> PlainRet(cfg, local, op) == Fail && PlainAfter(cfg, local, op) == local
    ensures op.OpClose? && op.fd in local ==> PlainRet(cfg, local, op) == Done && PlainAfter(cfg, local, op) == local - {op.fd}
    ensures op.fd in local && local[op.fd].path in cfg.pfs ==>
              var f, ret, after := local[op.fd], PlainRet(cfg, local, op), PlainAfter(cfg, local, op);
              var file := cfg.pfs[f.path];
              && (op.OpRead? ==>
                    && ret.Data? && after == local[op.fd := LocalFile(f.path, f.cursor + |ret.bytes|)]
                    && |ret.bytes| == (if f.cursor >= |file| then 0
                                       else if op.count <= |file| - f.cursor then op.count else |file| - f.cursor)
                    && (forall i :: 0 <= i < |ret.bytes| ==> ret.bytes[i] == file[f.cursor + i]))
              && (op.OpPread? && op.offset < 0 ==> ret == Fail && after == local)
              && (op.OpPread? && op.offset >= 0 ==>
                    && ret.Data? && after == local
                    && |ret.bytes| == (if op.offset >= |file| then 0
                                       else if op.count <= |file| - op.offset then op.count else |file| - op.offset)
                    && (forall i :: 0 <= i < |ret.bytes| ==> ret.bytes[i] == file[op.offset + i]))
              && (op.OpSeek? ==>
                    var want := if op.whence == 0 then op.delta else if op.whence == 1 then f.cursor + op.delta
                                else if op.whence == 2 then |file| + op.delta else -1;
                    if want < 0 then ret == Pos(-1) && after == local
                    else ret == Pos(want) && after == local[op.fd := LocalFile(f.path, want)])
  {
    if op.OpSeek? && op.fd in local {
      assert local[op.fd := local[op.fd]] == local;
    }
  }

  // The real call on the local descriptor, after which the wrapped call returns; an open made it at its start.
  function Locally(cfg: Config, c: ClientState, t: nat, op: Op): ClientState
    requires t < |c.threads|
  {
    c.(local := if op.OpOpen? then c.local else PlainAfter(cfg, c.local, op),
       threads := c.threads[t := Returned(op, PlainRet(cfg, c.local, op))])
  }

  // ---------------------------------------------------------------- steps

  // Does the call go to the server of its path? lseek does not look at the limit.
  predicate GoesRemote(cfg: Config, c: ClientState, op: Op)
    requires cfg.servers > 0
  {
    op.fd in c.fdMap && (op.OpSeek? || !AtLimit(c, HostOf(cfg, c.fdMap[op.fd])))
  }

  // The tables after the open wrapper recorded the descriptor and before the limit check.
  function Opened(cfg: Config, c: ClientState, fd: int, path: Path, tracked: bool): ClientState {
    c.(local := PlainAfter(cfg, c.local, OpOpen(fd, path)),
       fdMap := if tracked then c.fdMap[fd := path] else c.fdMap,
       acked := c.acked - {fd})
  }

  // A close that is not sent forgets the descriptor but keeps its redirect entry.
  function Forgotten(c: ClientState, fd: int): ClientState {
    c.(fdMap := c.fdMap - {fd}, acked := c.acked - {fd})
  }

  predicate CanDo(cfg: Config, c: ClientState, e: Event) {
    match e
    case Call(t, op, tracked) =>
      t < |c.threads| && c.threads[t].Ready? && (op.OpOpen? ==> op.fd !in c.local && op.path in cfg.pfs)
    case Send(t, id) => t < |c.threads| && c.threads[t].Passed?
    case OpenAnswer(t, id, fd, remoteFd) => true
    case ReadAnswer(t, id, ret) => true
    case SeekAnswer(pos) => true
    case Wake(t) =>
      t < |c.threads| && c.threads[t].Waiting?
      && if c.threads[t].op.OpSeek? then c.seeksDone == 1 else c.threads[t].answer.Some?
    case TimeOut(t) =>
      t < |c.threads| && c.threads[t].Waiting? && !c.threads[t].op.OpSeek? && c.threads[t].host < |c.counters|
    case Return(t) => t < |c.threads| && c.threads[t].Returned?
    case InitAgain => true
  }

  // The reply record of a request nobody waits for any more is dead.
  function Recorded(threads: seq<Thread>, t: nat, id: nat, ret: Ret): (r: seq<Thread>)
    ensures |r| == |threads|
  {
    if t < |threads| && threads[t].Waiting? && threads[t].id == id && threads[t].answer.None?
    then threads[t := threads[t].(answer := Some(ret))]
    else threads
  }

  function DoCall(cfg: Config, c: ClientState, t: nat, op: Op, tracked: bool): ClientState
    requires cfg.servers > 0 && t < |c.threads|
  {
    var c1 := if op.OpOpen? then Opened(cfg, c, op.fd, op.path, tracked) else c;
    if GoesRemote(cfg, c1, op) && (op.OpOpen? ==> tracked) then
      c1.(threads := c1.threads[t := Passed(op, HostOf(cfg, c1.fdMap[op.fd]))])
    else
      Locally(cfg, if op.OpClose? then Forgotten(c1, op.fd) else c1, t, op)
  }

  function DoSend(cfg: Config, c: ClientState, t: nat, id: nat): ClientState
    requires t < |c.threads| && c.threads[t].Passed?
  {
    var op, host := c.threads[t].op, c.threads[t].host;
    var waiting := c.threads[t := Waiting(op, host, id, None)];
    match op
    case OpOpen(_, _) => c.(threads := waiting)
    case OpRead(fd, _) => c.(threads := waiting, redir := c.redir[fd := RemoteFd(c, fd)])
    case OpPread(fd, _, _) => c.(threads := waiting, redir := c.redir[fd := RemoteFd(c, fd)])
    case OpSeek(fd, _, _) =>
      c.(threads := waiting, redir := c.redir[fd := RemoteFd(c, fd)], seeksDone := 0, seekRet := -1)
    case OpClose(fd) => Locally(cfg, Forgotten(c.(redir := c.redir - {fd}), fd), t, op)
  }

  function DoWake(cfg: Config, c: ClientState, t: nat): ClientState
    requires CanDo(cfg, c, Wake(t))
  {
    var op := c.threads[t].op;
    if op.OpSeek? then c.(threads := c.threads[t := Returned(op, Pos(c.seekRet))])
    else if op.OpOpen? || c.threads[t].answer.value.Fail? then Locally(cfg, c, t, op)
    else c.(threads := c.threads[t := Returned(op, c.threads[t].answer.value)])
  }

  function Do(cfg: Config, c: ClientState, e: Event): ClientState
    requires cfg.servers > 0 && CanDo(cfg, c, e)
  {
    match e
    case Call(t, op, tracked) => DoCall(cfg, c, t, op, tracked)
    case Send(t, id) => DoSend(cfg, c, t, id)
    case OpenAnswer(t, id, fd, remoteFd) =>
      c.(redir := c.redir[fd := remoteFd], acked := if fd in c.fdMap then c.acked + {fd} else c.acked,
         threads := Recorded(c.threads, t, id, Done))
    case ReadAnswer(t, id, ret) => c.(threads := Recorded(c.threads, t, id, ret))
    case SeekAnswer(pos) => c.(seeksDone := c.seeksDone + 1, seekRet := pos)
    case Wake(t) => DoWake(cfg, c, t)
    case TimeOut(t) =>
      var host := c.threads[t].host;
      Locally(cfg, c.(counters := c.counters[host := c.counters[host] + 1]), t, c.threads[t].op)
    case Return(t) => c.(threads := c.threads[t := Ready])
    case InitAgain => c.(counters := Resize(c.counters, cfg.servers))
  }
}
