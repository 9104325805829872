// What the cache promises of the cursors of a set w of descriptors, and on what conditions: a forward simulation of
// plain files with one cursor each, in which every call takes effect at one instant between its start and its end.
// The relation and the conditions are here, the proof is in CursorInvariants and CursorSteps.
module CursorRefinement {
  import opened PlainFile
  import opened Wrappers
  import opened Server
  import opened Client
  import opened System
  import opened ClientTables
  import opened Ownership
  import opened Transparency

  // ---------------------------------------------------------------- the specification

  datatype PlainThread = Off | Pending(op: Op) | Finished(op: Op, ret: Ret)

  // A process with plain descriptors, those of w: no servers, no messages, no counters.
  datatype PlainProcess = PlainProcess(files: Descriptors, threads: seq<PlainThread>)

  datatype PlainStep = Invoke(t: nat, op: Op) | Effect(t: nat) | Finish(t: nat)

  predicate PlainCan(p: PlainProcess, e: PlainStep) {
    e.t < |p.threads| &&
    match e
    case Invoke(t, op) => p.threads[t].Off?
    case Effect(t) => p.threads[t].Pending?
    case Finish(t) => p.threads[t].Finished?
  }

  function PlainDo(cfg: Config, p: PlainProcess, e: PlainStep): PlainProcess
    requires PlainCan(p, e)
  {
    match e
    case Invoke(t, op) => p.(threads := p.threads[t := Pending(op)])
    case Effect(t) =>
      var op := p.threads[t].op;
      PlainProcess(PlainAfter(cfg, p.files, op), p.threads[t := Finished(op, PlainRet(cfg, p.files, op))])
    case Finish(t) => p.(threads := p.threads[t := Off])
  }

  // All processes together.
  type Spec = seq<PlainProcess>

  datatype SpecStep = SpecStep(c: nat, e: PlainStep)

  predicate SpecCan(a: Spec, e: SpecStep) {
    e.c < |a| && PlainCan(a[e.c], e.e)
  }

  function SpecDo(cfg: Config, a: Spec, e: SpecStep): Spec
    requires SpecCan(a, e)
  {
    a[e.c := PlainDo(cfg, a[e.c], e.e)]
  }

  ghost predicate Follows(cfg: Config, a: Spec, steps: seq<SpecStep>, a': Spec)
    decreases |steps|
  {
    if steps == [] then a' == a
    else SpecCan(a, steps[0]) && Follows(cfg, SpecDo(cfg, a, steps[0]), steps[1..], a')
  }

  // ---------------------------------------------------------------- what must not happen to a descriptor

  // The request carries the offset the caller gave: a seek offset is cut to 32 bits, a positioned read at offset -1
  // is taken for a sequential one.
  predicate Faithful(op: Op) {
    (op.OpPread? ==> op.offset != -1) && (op.OpSeek? ==> Int32(op.delta) == op.delta)
  }

  predicate Seeking(th: Thread) {
    (th.Passed? || th.Waiting?) && th.op.OpSeek?
  }

  predicate NoSeek(cl: ClientState) {
    forall t :: 0 <= t < |cl.threads| ==> !Seeking(cl.threads[t])
  }

  ghost predicate Watches(w: iset<Descriptor>, c: nat) {
    exists fd :: Descriptor(c, fd) in w
  }

  // The descriptor has no server descriptor and will get none: it lives on its local cursor.
  predicate LocalOnly(s: Sys, c: nat, fd: int)
    requires c < |s.clients|
  {
    fd !in s.clients[c].acked && NoLiveOpen(s, c, fd)
  }

  // A read that falls back to the local descriptor does so for a descriptor that lives there; calls travel as they
  // are; and a process with descriptors in w seeks on tracked descriptors one at a time.
  ghost predicate SoundCall(cfg: Config, w: iset<Descriptor>, s: Sys, c: nat, op: Op)
    requires cfg.servers > 0 && c < |s.clients|
  {
    var cl := s.clients[c];
    op.fd in cl.fdMap ==>
      && (op.fd in Of(w, c) ==> Faithful(op) && (op.OpRead? && !GoesRemote(cfg, cl, op) ==> LocalOnly(s, c, op.fd)))
      && (op.OpSeek? && Watches(w, c) ==> NoSeek(cl))
  }

  ghost predicate SoundTimeOut(w: iset<Descriptor>, s: Sys, c: nat, th: Thread)
    requires c < |s.clients|
  {
    th.Waiting? && th.op.OpRead? && th.op.fd in Of(w, c) ==> LocalOnly(s, c, th.op.fd)
  }

  // A request that reads or moves the cursor of a server descriptor.
  predicate Sequential(m: Msg) {
    m.SeekReq? || (m.ReadReq? && m.offset == -1)
  }

  // The first attempt of the handler fails and the one on the client's descriptor number does not.
  predicate Retried(sv: ServerState, m: Msg, ok: bool, ok2: bool)
    requires m.ReadReq?
  {
    !(m.remoteFd in sv.files && ok) && m.fd in sv.files && ok2
  }

  // The server descriptor whose cursor the request moves, if the server survives it.
  function MovedBy(sv: ServerState, m: Msg, ok: bool, ok2: bool): Option<int>
    requires Sequential(m)
  {
    if m.SeekReq? then if m.remoteFd in sv.files then Some(m.remoteFd) else None
    else if m.remoteFd in sv.files && ok then Some(m.remoteFd)
    else if m.fd in sv.files && ok2 then Some(m.fd)
    else None
  }

  // Descriptor r of server h belongs to a descriptor in w, or is on its way to one.
  ghost predicate Held(cfg: Config, w: iset<Descriptor>, s: Sys, h: nat, r: int)
    requires cfg.servers > 0
  {
    || (exists c: nat, fd :: Descriptor(c, fd) in w && Owns(cfg, s, Entry(c, fd), h, r))
    || (exists m :: Owns(cfg, s, InReply(m), h, r) && Descriptor(m.c, m.fd) in w)
  }

  // The request of a call on a descriptor in w that still waits for it.
  ghost predicate OwnRequest(w: iset<Descriptor>, s: Sys, m: Msg) {
    Matches(s, m) && s.clients[m.c].threads[m.t].op.fd in Of(w, m.c)
  }

  // A sequential request that moves a descriptor of w is the one that its caller waits for, and it is not retried.
  ghost predicate SoundRequest(cfg: Config, w: iset<Descriptor>, s: Sys, m: Msg, ok: bool, ok2: bool)
    requires cfg.servers > 0 && Sequential(m) && m.host < |s.servers|
  {
    var sv := s.servers[m.host];
    && (OwnRequest(w, s, m) && m.ReadReq? ==> !Retried(sv, m, ok, ok2))
    && (MovedBy(sv, m, ok, ok2).Some? && Held(cfg, w, s, m.host, MovedBy(sv, m, ok, ok2).value) ==> OwnRequest(w, s, m))
  }

  // Nothing else is excluded: positioned reads may time out or fail, messages get lost, servers crash, and anything
  // at all may happen to other descriptors, on the same servers or not.
  ghost predicate Sound(cfg: Config, w: iset<Descriptor>, s: Sys, e: SysEvent)
    requires cfg.servers > 0
  {
    match e
    case ClientActs(c, ce) =>
      c < |s.clients| ==>
        && (ce.Call? ==> SoundCall(cfg, w, s, c, ce.op))
        && (ce.TimeOut? && ce.t < |s.clients[c].threads| ==> SoundTimeOut(w, s, c, s.clients[c].threads[ce.t]))
    case Serve(m, fd, ok, ok2) =>
      && (m.OpenReq? && Descriptor(m.c, m.fd) in w ==> fd != -1)
      && (Sequential(m) && m.host < |s.servers| ==> SoundRequest(cfg, w, s, m, ok, ok2))
    case _ => true
  }

  // ---------------------------------------------------------------- the simulation relation

  // The cache's answer is that of the plain file, seek positions being cut to 32 bits on the wire.
  predicate Agree(ret: Ret, plain: Ret) {
    ret == plain || (plain.Pos? && ret == Pos(Int32(plain.pos)))
  }

  predicate DoneWith(at: PlainThread, op: Op, ret: Ret) {
    at.Finished? && at.op == op && Agree(ret, at.ret)
  }

  // The plain thread stands where the thread of the cache stands, if that is on a descriptor in mine.
  ghost predicate ThreadRel(mine: iset<int>, cl: ClientState, th: Thread, at: PlainThread) {
    if th.Ready? || th.op.fd !in mine then at.Off?
    else
      match th
      case Passed(op, _) => if op.OpOpen? then at == Finished(op, Done) else at == Pending(op)
      case Waiting(op, _, _, answer) =>
        && (op.OpOpen? ==> at == Finished(op, Done))
        && (op.OpPread? ==> at == Pending(op))
        && (op.OpRead? && op.fd !in cl.acked ==> at == Pending(op))
        && (op.OpRead? && answer.Some? ==> DoneWith(at, op, answer.value))
        && (op.OpSeek? && cl.seeksDone == 1 ==> DoneWith(at, op, Pos(cl.seekRet)))
      case Returned(op, ret) => DoneWith(at, op, ret)
  }

  ghost predicate ThreadsRel(mine: iset<int>, cl: ClientState, p: PlainProcess) {
    && |p.threads| == |cl.threads|
    && forall t :: 0 <= t < |cl.threads| ==> ThreadRel(mine, cl, cl.threads[t], p.threads[t])
  }

  // A request in flight has not taken effect, a reply carries its result.
  ghost predicate MsgRel(w: iset<Descriptor>, s: Sys, a: Spec, m: Msg)
    requires |a| == |s.clients|
  {
    Matches(s, m) && m.t < |a[m.c].threads| && s.clients[m.c].threads[m.t].op.fd in Of(w, m.c) ==>
      var op := s.clients[m.c].threads[m.t].op;
      var at := a[m.c].threads[m.t];
      && (m.SeekReq? || (m.ReadReq? && op.OpRead?) ==> at == Pending(op))
      && (m.ReadReply? && op.OpRead? ==> DoneWith(at, op, m.ret))
      && (m.SeekReply? ==> DoneWith(at, op, Pos(m.pos)))
  }

  // The cursor is on the server once the open is acknowledged, and local before that and when untracked.
  ghost predicate CursorRel(cfg: Config, s: Sys, cl: ClientState, fd: int, cursor: nat)
    requires cfg.servers > 0 && fd in cl.local
  {
    if fd !in cl.fdMap || fd !in cl.acked || fd !in cl.redir then cursor == cl.local[fd].cursor
    else
      var h := HostOf(cfg, cl.fdMap[fd]);
      Up(s, h) && cl.redir[fd] in s.servers[h].files ==> cursor == s.servers[h].files[cl.redir[fd]].cursor
  }

  ghost predicate FilesRel(cfg: Config, s: Sys, mine: iset<int>, cl: ClientState, files: Descriptors)
    requires cfg.servers > 0
  {
    && (forall fd :: fd in files <==> fd in cl.local && fd in mine)
    && (forall fd :: fd in files ==> files[fd].path == cl.local[fd].path && CursorRel(cfg, s, cl, fd, files[fd].cursor))
  }

  ghost predicate Rel(cfg: Config, w: iset<Descriptor>, s: Sys, a: Spec)
    requires cfg.servers > 0
  {
    && |a| == |s.clients|
    && (forall c :: 0 <= c < |s.clients| ==>
          ThreadsRel(Of(w, c), s.clients[c], a[c]) && FilesRel(cfg, s, Of(w, c), s.clients[c], a[c].files))
    && (forall m :: m in s.net ==> MsgRel(w, s, a, m))
  }

  // ---------------------------------------------------------------- what the specification does in each event

  // Does the server handle a sequential request of w that is still waited for?
  ghost predicate Effective(w: iset<Descriptor>, s: Sys, m: Msg, ok: bool)
    requires !IsReply(m) && m.host < |s.servers|
  {
    && Sequential(m) && Matches(s, m) && s.clients[m.c].threads[m.t].op.fd in Of(w, m.c)
    && (s.clients[m.c].threads[m.t].op.OpRead? || s.clients[m.c].threads[m.t].op.OpSeek?)
    && (m.ReadReq? ==> ok && m.remoteFd in s.servers[m.host].files)
  }

  // A call starts at its start and ends at its end. It takes effect at once when it is local or an open, when it
  // is sent if a close, at its end if a positioned read or a read that falls back, and when the server handles it
  // otherwise.
  ghost function Trace(cfg: Config, w: iset<Descriptor>, s: Sys, e: SysEvent): seq<SpecStep>
    requires cfg.servers > 0 && Enabled(cfg, s, e)
  {
    match e
    case ClientActs(c, Call(t, op, _)) =>
      if op.fd !in Of(w, c) then []
      else if op.OpOpen? || !GoesRemote(cfg, s.clients[c], op)
      then [SpecStep(c, Invoke(t, op)), SpecStep(c, Effect(t))]
      else [SpecStep(c, Invoke(t, op))]
    case ClientActs(c, Wake(t)) =>
      var op := s.clients[c].threads[t].op;
      if op.fd in Of(w, c) && op.OpPread? then [SpecStep(c, Effect(t))] else []
    case ClientActs(c, TimeOut(t)) =>
      var op := s.clients[c].threads[t].op;
      if op.fd in Of(w, c) && (op.OpPread? || op.OpRead?) then [SpecStep(c, Effect(t))] else []
    case ClientActs(c, Return(t)) =>
      if s.clients[c].threads[t].op.fd in Of(w, c) then [SpecStep(c, Finish(t))] else []
    case ClientSends(c, t) =>
      var op := s.clients[c].threads[t].op;
      if op.fd in Of(w, c) && op.OpClose? then [SpecStep(c, Effect(t))] else []
    case Serve(m, _, ok, _) => if Effective(w, s, m, ok) then [SpecStep(m.c, Effect(m.t))] else []
    case _ => []
  }
}
