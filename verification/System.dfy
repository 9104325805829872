// The whole cache: client processes, servers, and the messages in flight between them. Messages may be
// delayed without bound, overtake each other and get lost; servers may crash.
module System {
  import opened PlainFile
  import opened Wrappers
  import opened Server
  import opened Client

  // remoteFd is the server's descriptor. A sequential read travels as a read at offset -1.
  datatype Msg =
    | OpenReq(id: nat, c: nat, t: nat, host: nat, fd: int, path: Path)
    | OpenReply(id: nat, c: nat, t: nat, host: nat, fd: int, path: Path, remoteFd: int)
    | ReadReq(id: nat, c: nat, t: nat, host: nat, fd: int, remoteFd: int, count: Count, offset: int)
    | ReadReply(id: nat, c: nat, t: nat, ret: Ret)
    | SeekReq(id: nat, c: nat, t: nat, host: nat, remoteFd: int, delta: Offset32, whence: int)
    | SeekReply(id: nat, c: nat, t: nat, pos: int)
    | CloseReq(id: nat, host: nat, remoteFd: int)

  // next numbers the requests.
  datatype Sys = Sys(clients: seq<ClientState>, servers: seq<ServerState>, net: set<Msg>, next: nat)

  // fd is the descriptor a server's open returns; ok and ok2 say whether the device serves its reads.
  datatype SysEvent =
    | ClientActs(c: nat, e: Client.Event)
    | ClientSends(c: nat, t: nat)
    | Deliver(m: Msg)
    | Serve(m: Msg, fd: int, ok: bool, ok2: bool)
    | ServerActs(h: nat, step: Step)
    | Crash(h: nat)
    | Lose(m: Msg)

  function Up(s: Sys, h: nat): bool {
    h < |s.servers| && s.servers[h].up
  }

  // The request a thread past the limit check is about to send.
  function Request(cl: ClientState, c: nat, t: nat, id: nat): Msg
    requires t < |cl.threads| && cl.threads[t].Passed?
  {
    var op, host := cl.threads[t].op, cl.threads[t].host;
    match op
    case OpOpen(fd, path) => OpenReq(id, c, t, host, fd, path)
    case OpRead(fd, count) => ReadReq(id, c, t, host, fd, RemoteFd(cl, fd), count, -1)
    case OpPread(fd, count, offset) => ReadReq(id, c, t, host, fd, RemoteFd(cl, fd), count, offset)
    case OpSeek(fd, delta, whence) => SeekReq(id, c, t, host, RemoteFd(cl, fd), Int32(delta), whence)
    case OpClose(fd) => CloseReq(id, host, RemoteFd(cl, fd))
  }

  predicate IsReply(m: Msg) {
    m.OpenReply? || m.ReadReply? || m.SeekReply?
  }

  function AnswerEvent(m: Msg): Client.Event
    requires IsReply(m)
  {
    match m
    case OpenReply(id, _, t, _, fd, _, remoteFd) => OpenAnswer(t, id, fd, remoteFd)
    case ReadReply(id, _, t, ret) => ReadAnswer(t, id, ret)
    case SeekReply(_, _, _, pos) => SeekAnswer(pos)
  }

  predicate Enabled(cfg: Config, s: Sys, e: SysEvent) {
    match e
    case ClientActs(c, ce) =>
      c < |s.clients| && (ce.Call? || ce.Wake? || ce.TimeOut? || ce.Return? || ce.InitAgain?) && CanDo(cfg, s.clients[c], ce)
    case ClientSends(c, t) => c < |s.clients| && CanDo(cfg, s.clients[c], Send(t, s.next))
    case Deliver(m) => m in s.net && IsReply(m) && m.c < |s.clients|
    case Serve(m, fd, ok, ok2) =>
      m in s.net && !IsReply(m) && m.host < |s.servers| && Listening(s.servers[m.host])
      && (m.OpenReq? ==> CanOpen(s.servers[m.host], m.path, fd))
    case ServerActs(h, step) => h < |s.servers| && CanStep(s.servers[h], step)
    case Crash(h) => h < |s.servers|
    case Lose(m) => m in s.net
  }

  // What a server makes of a request: its next state and the reply, if any.
  function Handle(sv: ServerState, m: Msg, fd: int, ok: bool, ok2: bool): (ServerState, set<Msg>)
    requires !IsReply(m) && (m.OpenReq? ==> CanOpen(sv, m.path, fd))
  {
    match m
    case OpenReq(id, c, t, host, localFd, path) =>
      (HandleOpen(sv, path, fd), {OpenReply(id, c, t, host, localFd, path, fd)})
    case ReadReq(id, c, t, host, localFd, remoteFd, count, offset) =>
      if offset == -1 then
        var (sv', ret) := HandleRead(sv, remoteFd, localFd, count, ok, ok2);
        (sv', if ret.Some? then {ReadReply(id, c, t, ret.value)} else {})
      else (sv, {ReadReply(id, c, t, HandlePread(sv, remoteFd, count, offset, ok))})
    case SeekReq(id, c, t, host, remoteFd, delta, whence) =>
      var (sv', ret) := HandleSeek(sv, remoteFd, delta, whence);
      (sv', {SeekReply(id, c, t, ret.pos)})
    case CloseReq(id, host, remoteFd) =>
      (HandleClose(sv, remoteFd), {})
  }

  function Next(cfg: Config, s: Sys, e: SysEvent): Sys
    requires cfg.servers > 0 && Enabled(cfg, s, e)
  {
    match e
    case ClientActs(c, ce) =>
      s.(clients := s.clients[c := Do(cfg, s.clients[c], ce)])
    case ClientSends(c, t) =>
      s.(clients := s.clients[c := DoSend(cfg, s.clients[c], t, s.next)],
         net := s.net + {Request(s.clients[c], c, t, s.next)},
         next := s.next + 1)
    case Deliver(m) =>
      s.(clients := s.clients[m.c := Do(cfg, s.clients[m.c], AnswerEvent(m))], net := s.net - {m})
    case Serve(m, fd, ok, ok2) =>
      var (sv, replies) := Handle(s.servers[m.host], m, fd, ok, ok2);
      s.(servers := s.servers[m.host := sv], net := s.net - {m} + replies)
    case ServerActs(h, step) =>
      s.(servers := s.servers[h := Take(s.servers[h], step)])
    case Crash(h) =>
      s.(servers := s.servers[h := Crashed(s.servers[h])])
    case Lose(m) =>
      s.(net := s.net - {m})
  }

  // Every process starts empty; every server sees the parallel file system.
  ghost predicate Initial(cfg: Config, s: Sys) {
    && |s.servers| == cfg.servers > 0 && s.net == {}
    && (forall h :: 0 <= h < |s.servers| ==> s.servers[h] == Boot(cfg.pfs))
    && (forall c :: 0 <= c < |s.clients| ==> s.clients[c] == Start(cfg, |s.clients[c].threads|))
  }

  // ---------------------------------------------------------------- the discipline asked of the application

  // The thread is inside a call on its descriptor, or has not yet taken the result.
  predicate Busy(th: Thread) {
    th.Passed? || th.Waiting? || (th.Returned? && !th.op.OpClose?)
  }

  // The thread is opening or closing its descriptor.
  predicate Exclusive(th: Thread) {
    (th.Passed? && th.op.OpClose?) || ((th.Passed? || th.Waiting?) && th.op.OpOpen?)
  }

  // A descriptor is used only while open, not before its open returned nor while it is being closed, and it
  // is not closed while in use.
  predicate Polite(cl: ClientState, t: nat, op: Op) {
    op.fd in cl.local &&
    forall u :: 0 <= u < |cl.threads| && u != t && !cl.threads[u].Ready? && cl.threads[u].op.fd == op.fd ==>
      if op.OpClose? then !Busy(cl.threads[u]) else !Exclusive(cl.threads[u])
  }

  // A reply to an open of (c, fd) is in flight or can still be produced.
  predicate LiveOpen(s: Sys, m: Msg, c: nat, fd: int) {
    (m.OpenReply? || (m.OpenReq? && Up(s, m.host))) && m.c == c && m.fd == fd
  }

  predicate NoLiveOpen(s: Sys, c: nat, fd: int) {
    forall m :: m in s.net ==> !LiveOpen(s, m, c, fd)
  }

  // A descriptor number of a client process.
  datatype Descriptor = Descriptor(c: nat, fd: int)

  ghost const EVERY: iset<Descriptor> := iset d: Descriptor | true

  // The descriptors among w of process c.
  ghost function Of(w: iset<Descriptor>, c: nat): iset<int> {
    iset fd: int | Descriptor(c, fd) in w
  }

  // A call, other than an open, of thread t of process c.
  predicate Calls(s: Sys, e: SysEvent) {
    e.ClientActs? && e.e.Call? && e.c < |s.clients| && !e.e.op.OpOpen?
  }

  // Every call is polite.
  predicate PoliteCall(s: Sys, e: SysEvent) {
    Calls(s, e) ==> Polite(s.clients[e.c], e.e.t, e.e.op)
  }

  // A close, and any call on a descriptor of w, goes to a running server only once the reply to the descriptor's
  // own open has arrived.
  ghost predicate AwaitedCall(cfg: Config, w: iset<Descriptor>, s: Sys, e: SysEvent)
    requires cfg.servers > 0
  {
    Calls(s, e) && e.e.op.fd in s.clients[e.c].fdMap && GoesRemote(cfg, s.clients[e.c], e.e.op)
    && (e.e.op.OpClose? || e.e.op.fd in Of(w, e.c)) ==>
      var cl, fd := s.clients[e.c], e.e.op.fd;
      fd in cl.acked || !Up(s, HostOf(cfg, cl.fdMap[fd]))
  }

  // A descriptor is not closed while that reply can still come.
  predicate SettledClose(s: Sys, e: SysEvent) {
    Calls(s, e) && e.e.op.OpClose? && e.e.op.fd in s.clients[e.c].fdMap ==> NoLiveOpen(s, e.c, e.e.op.fd)
  }

  ghost predicate Disciplined(cfg: Config, w: iset<Descriptor>, s: Sys, e: SysEvent)
    requires cfg.servers > 0
  {
    PoliteCall(s, e) && AwaitedCall(cfg, w, s, e) && SettledClose(s, e)
  }

  // ---------------------------------------------------------------- runs

  datatype SysRun = SysRun(states: seq<Sys>, events: seq<SysEvent>)

  ghost predicate IsSysRun(cfg: Config, run: SysRun) {
    && cfg.servers > 0
    && |run.states| == |run.events| + 1
    && Initial(cfg, run.states[0])
    && (forall i :: 0 <= i < |run.events| ==>
          Enabled(cfg, run.states[i], run.events[i])
          && run.states[i + 1] == Next(cfg, run.states[i], run.events[i]))
  }

  ghost predicate IsDisciplinedRun(cfg: Config, w: iset<Descriptor>, run: SysRun) {
    && IsSysRun(cfg, run)
    && (forall i :: 0 <= i < |run.events| ==> Disciplined(cfg, w, run.states[i], run.events[i]))
  }

  // The clauses of the discipline one by one.
  ghost predicate IsPoliteRun(cfg: Config, run: SysRun) {
    && IsSysRun(cfg, run)
    && (forall i :: 0 <= i < |run.events| ==> PoliteCall(run.states[i], run.events[i]))
  }

  ghost predicate IsAwaitingRun(cfg: Config, w: iset<Descriptor>, run: SysRun) {
    && IsSysRun(cfg, run)
    && (forall i :: 0 <= i < |run.events| ==> AwaitedCall(cfg, w, run.states[i], run.events[i]))
  }

  ghost predicate IsSettledRun(cfg: Config, run: SysRun) {
    && IsSysRun(cfg, run)
    && (forall i :: 0 <= i < |run.events| ==> SettledClose(run.states[i], run.events[i]))
  }
}
