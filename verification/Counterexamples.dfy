// Runs in which the cache is not transparent: positioned reads at offset -1, each thing that a sound run excludes,
// and each clause of the discipline broken while the others are kept.
module Counterexamples {
  import opened PlainFile
  import opened Wrappers
  import opened Server
  import opened Client
  import opened System
  import opened Transparency
  import opened Seeks

  // ---------------------------------------------------------------- building runs

  ghost function Last(run: SysRun): Sys
    requires run.states != []
  {
    run.states[|run.states| - 1]
  }

  // The longer run keeps each clause of the discipline that the run kept.
  ghost predicate Grows(cfg: Config, run: SysRun, longer: SysRun) {
    && IsSysRun(cfg, longer)
    && (IsPoliteRun(cfg, run) ==> IsPoliteRun(cfg, longer))
    && (forall w :: IsAwaitingRun(cfg, w, run) ==> IsAwaitingRun(cfg, w, longer))
    && (IsSettledRun(cfg, run) ==> IsSettledRun(cfg, longer))
  }

  lemma GrowsOn(cfg: Config, run: SysRun, longer: SysRun, longest: SysRun)
    requires Grows(cfg, run, longer) && Grows(cfg, longer, longest)
    ensures Grows(cfg, run, longest)
  {
  }

  lemma ClausesTogether(cfg: Config, w: iset<Descriptor>, run: SysRun)
    requires IsPoliteRun(cfg, run) && IsAwaitingRun(cfg, w, run) && IsSettledRun(cfg, run)
    ensures IsDisciplinedRun(cfg, w, run)
  {
  }

  // No timeout, crash, loss or device error.
  predicate Untroubled(run: SysRun) {
    forall i :: 0 <= i < |run.events| ==>
      match run.events[i]
      case ClientActs(_, ce) => !ce.TimeOut?
      case Serve(_, _, ok, _) => ok
      case Crash(_) => false
      case Lose(_) => false
      case _ => true
  }

  predicate NoTrouble(e: SysEvent) {
    match e
    case ClientActs(_, ce) => !ce.TimeOut?
    case Serve(_, _, ok, _) => ok
    case Crash(_) => false
    case Lose(_) => false
    case _ => true
  }

  ghost function Extended(cfg: Config, run: SysRun, e: SysEvent): (longer: SysRun)
    requires IsSysRun(cfg, run) && Enabled(cfg, Last(run), e)
    ensures IsSysRun(cfg, longer)
  {
    SysRun(run.states + [Next(cfg, Last(run), e)], run.events + [e])
  }

  lemma ExtendedPolite(cfg: Config, run: SysRun, e: SysEvent)
    requires IsPoliteRun(cfg, run) && Enabled(cfg, Last(run), e) && PoliteCall(Last(run), e)
    ensures IsPoliteRun(cfg, Extended(cfg, run, e))
  {
  }

  lemma ExtendedSettled(cfg: Config, run: SysRun, e: SysEvent)
    requires IsSettledRun(cfg, run) && Enabled(cfg, Last(run), e) && SettledClose(Last(run), e)
    ensures IsSettledRun(cfg, Extended(cfg, run, e))
  {
  }

  lemma ExtendedAwaiting(cfg: Config, w: iset<Descriptor>, run: SysRun, e: SysEvent)
    requires IsAwaitingRun(cfg, w, run) && Enabled(cfg, Last(run), e) && AwaitedCall(cfg, w, Last(run), e)
    ensures IsAwaitingRun(cfg, w, Extended(cfg, run, e))
  {
  }

  lemma ExtendedKeeps(cfg: Config, run: SysRun, e: SysEvent)
    requires IsSysRun(cfg, run) && Enabled(cfg, Last(run), e)
    ensures var longer := Extended(cfg, run, e);
            && (IsPoliteRun(cfg, run) && PoliteCall(Last(run), e) ==> IsPoliteRun(cfg, longer))
            && (IsSettledRun(cfg, run) && SettledClose(Last(run), e) ==> IsSettledRun(cfg, longer))
    ensures forall w :: IsAwaitingRun(cfg, w, run) && AwaitedCall(cfg, w, Last(run), e) ==>
              IsAwaitingRun(cfg, w, Extended(cfg, run, e))
  {
    if IsPoliteRun(cfg, run) && PoliteCall(Last(run), e) {
      ExtendedPolite(cfg, run, e);
    }
    if IsSettledRun(cfg, run) && SettledClose(Last(run), e) {
      ExtendedSettled(cfg, run, e);
    }
    forall w | IsAwaitingRun(cfg, w, run) && AwaitedCall(cfg, w, Last(run), e)
      ensures IsAwaitingRun(cfg, w, Extended(cfg, run, e))
    {
      ExtendedAwaiting(cfg, w, run, e);
    }
  }

  ghost function Extend(cfg: Config, run: SysRun, e: SysEvent): (longer: SysRun)
    requires IsSysRun(cfg, run) && Enabled(cfg, Last(run), e)
    ensures IsSysRun(cfg, longer) && Last(longer) == Next(cfg, Last(run), e)
    ensures longer.events == run.events + [e] && |longer.states| == |run.states| + 1
    ensures IsPoliteRun(cfg, run) && PoliteCall(Last(run), e) ==> IsPoliteRun(cfg, longer)
    ensures forall w :: IsAwaitingRun(cfg, w, run) && AwaitedCall(cfg, w, Last(run), e) ==> IsAwaitingRun(cfg, w, longer)
    ensures IsSettledRun(cfg, run) && SettledClose(Last(run), e) ==> IsSettledRun(cfg, longer)
    ensures Untroubled(run) && NoTrouble(e) ==> Untroubled(longer)
  {
    ExtendedKeeps(cfg, run, e);
    Extended(cfg, run, e)
  }

  // One client with some threads.
  ghost function Beginning(cfg: Config, threads: nat): (run: SysRun)
    requires cfg.servers > 0
    ensures IsPoliteRun(cfg, run) && IsSettledRun(cfg, run) && (forall w :: IsAwaitingRun(cfg, w, run)) && Untroubled(run)
    ensures Simple(cfg, Last(run)) == (threads > 0)
    ensures Last(run).clients == [Start(cfg, threads)] && Last(run).net == {} && Last(run).next == 0
    ensures |Last(run).servers| == cfg.servers
    ensures forall h :: 0 <= h < cfg.servers ==> Last(run).servers[h] == Boot(cfg.pfs)
  {
    SysRun([Sys([Start(cfg, threads)], seq(cfg.servers, _ => Boot(cfg.pfs)), {}, 0)], [])
  }

  lemma Overwrite<T>(s: seq<T>, x: T, y: T)
    requires s != []
    ensures s[0 := x][0 := y] == s[0 := y] && s[0 := x][0 := s[0]] == s
  {
  }

  // ---------------------------------------------------------------- scenes of thread 0

  ghost predicate Simple(cfg: Config, s: Sys) {
    && |s.clients| == 1 && |s.servers| == cfg.servers > 0
    && s.clients[0].threads != [] && s.clients[0].threads[0].Ready? && |s.clients[0].counters| == cfg.servers
    && (forall h :: 0 <= h < |s.servers| ==> Waits(cfg, s.servers[h]))
    && (forall m :: m in s.net ==> m.id < s.next)
  }

  // A server without a handler running and with nothing cached.
  predicate Waits(cfg: Config, sv: ServerState) {
    Listening(sv) && sv.pathLock.Nobody? && sv.dataLock.Nobody? && sv.cache == map[] && sv.fs == cfg.pfs
  }

  function At(cl: ClientState, th: Thread): ClientState
    requires cl.threads != []
  {
    cl.(threads := cl.threads[0 := th])
  }

  predicate OthersReady(cl: ClientState) {
    forall u :: 0 < u < |cl.threads| ==> cl.threads[u].Ready?
  }

  function Tracked(cl: ClientState, fd: int, path: Path): ClientState {
    cl.(local := cl.local[fd := LocalFile(path, 0)], fdMap := cl.fdMap[fd := path], acked := cl.acked - {fd})
  }

  predicate CanTrack(cfg: Config, cl: ClientState, fd: int, path: Path)
    requires cfg.servers > 0
  {
    fd !in cl.local && path in cfg.pfs && !AtLimit(cl, HostOf(cfg, path))
  }

  // The open wrapper records the descriptor and its request is sent.
  lemma StartOpen(cfg: Config, run: SysRun, fd: int, path: Path) returns (longer: SysRun)
    requires IsSysRun(cfg, run) && Simple(cfg, Last(run)) && CanTrack(cfg, Last(run).clients[0], fd, path)
    ensures Grows(cfg, run, longer) && (Untroubled(run) ==> Untroubled(longer))
    ensures var s, h := Last(run), HostOf(cfg, path);
            Last(longer) == s.(
              clients := [At(Tracked(s.clients[0], fd, path), Waiting(OpOpen(fd, path), h, s.next, None))],
              net := s.net + {OpenReq(s.next, 0, 0, h, fd, path)}, next := s.next + 1)
  {
    var s, h := Last(run), HostOf(cfg, path);
    var cl := s.clients[0];
    var passed, waiting := Passed(OpOpen(fd, path), h), Waiting(OpOpen(fd, path), h, s.next, None);
    Overwrite(cl.threads, passed, waiting);
    longer := Extend(cfg, run, ClientActs(0, Call(0, OpOpen(fd, path), true)));
    assert Last(longer).clients == [At(Tracked(cl, fd, path), passed)];
    longer := Extend(cfg, longer, ClientSends(0, 0));
    assert Last(longer).clients == [At(Tracked(cl, fd, path), waiting)];
  }

  // The files of a server whose open returned r.
  function WithOpen(cfg: Config, sv: ServerState, r: int, path: Path): ServerState
    requires path in cfg.pfs
  {
    sv.(files := if r == -1 then sv.files else sv.files[r := OpenFile(cfg.pfs[path], 0)],
        fdToPath := sv.fdToPath[r := path])
  }

  predicate Issuable(sv: ServerState, r: int) {
    r == -1 || (r >= 0 && r !in sv.files)
  }

  // The server handles an open request in flight, its open returning r, and the reply arrives.
  lemma ServeOpen(cfg: Config, run: SysRun, m: Msg, r: int) returns (longer: SysRun)
    requires IsSysRun(cfg, run) && |Last(run).clients| == 1
    requires var s := Last(run);
             && m in s.net && m.OpenReq? && m.c == 0 && m.host < |s.servers| && m.path in cfg.pfs
             && Waits(cfg, s.servers[m.host]) && Issuable(s.servers[m.host], r)
             && m.fd in s.clients[0].fdMap
             && OpenReply(m.id, 0, m.t, m.host, m.fd, m.path, r) !in s.net
    ensures Grows(cfg, run, longer) && (Untroubled(run) ==> Untroubled(longer))
    ensures var s := Last(run);
            var cl := s.clients[0];
            Last(longer) == s.(
              clients := [cl.(redir := cl.redir[m.fd := r], acked := cl.acked + {m.fd},
                              threads := Recorded(cl.threads, m.t, m.id, Done))],
              servers := s.servers[m.host := WithOpen(cfg, s.servers[m.host], r, m.path)],
              net := s.net - {m})
  {
    longer := Extend(cfg, run, Serve(m, r, true, true));
    var reply := OpenReply(m.id, 0, m.t, m.host, m.fd, m.path, r);
    assert Last(longer).net == Last(run).net - {m} + {reply};
    longer := Extend(cfg, longer, Deliver(reply));
    assert Last(longer).net == Last(run).net - {m};
  }

  // The thread sees its answer, or times out, and takes the result of its open.
  lemma FinishOpen(cfg: Config, run: SysRun, answered: bool) returns (longer: SysRun)
    requires IsSysRun(cfg, run) && |Last(run).clients| == 1
    requires var cl := Last(run).clients[0];
             && cl.threads != [] && cl.threads[0].Waiting? && cl.threads[0].op.OpOpen?
             && cl.threads[0].host < |cl.counters|
             && (answered ==> cl.threads[0].answer.Some?)
    ensures Grows(cfg, run, longer) && (Untroubled(run) && answered ==> Untroubled(longer))
    ensures var s := Last(run);
            var cl := s.clients[0];
            Last(longer) == s.(clients := [At(cl, Ready).(counters := if answered then cl.counters else Raised(cl))])
  {
    var cl := Last(run).clients[0];
    var returned := Returned(cl.threads[0].op, Done);
    var counters := if answered then cl.counters else Raised(cl);
    longer := Extend(cfg, run, ClientActs(0, if answered then Wake(0) else TimeOut(0)));
    assert Last(longer).clients == [At(cl, returned).(counters := counters)];
    Overwrite(cl.threads, returned, Ready);
    longer := Extend(cfg, longer, ClientActs(0, Return(0)));
    assert Last(longer).clients == [At(cl, Ready).(counters := counters)];
  }

  // The counters after thread 0 timed out.
  function Raised(cl: ClientState): seq<nat>
    requires cl.threads != [] && (cl.threads[0].Waiting? || cl.threads[0].Passed?) && cl.threads[0].host < |cl.counters|
  {
    var h := cl.threads[0].host;
    cl.counters[h := cl.counters[h] + 1]
  }

  // An open that is answered in time.
  lemma OpenAnswered(cfg: Config, run: SysRun, fd: int, path: Path, r: int) returns (longer: SysRun)
    requires IsSysRun(cfg, run) && Simple(cfg, Last(run)) && CanTrack(cfg, Last(run).clients[0], fd, path)
    requires Issuable(Last(run).servers[HostOf(cfg, path)], r)
    ensures Grows(cfg, run, longer) && (Untroubled(run) ==> Untroubled(longer)) && Simple(cfg, Last(longer))
    ensures var s, h := Last(run), HostOf(cfg, path);
            var cl := s.clients[0];
            && Last(longer).net == s.net && Last(longer).next == s.next + 1
            && Last(longer).clients == [Tracked(cl, fd, path).(redir := cl.redir[fd := r], acked := cl.acked + {fd})]
            && Last(longer).servers == s.servers[h := WithOpen(cfg, s.servers[h], r, path)]
  {
    var s, h := Last(run), HostOf(cfg, path);
    var cl := s.clients[0];
    var served := OpenServed(cfg, run, fd, path, r);
    longer := FinishOpen(cfg, served, true);
    GrowsOn(cfg, run, served, longer);
    OpenedThreads(cl.threads, Waiting(OpOpen(fd, path), h, s.next, None), s.next);
    assert Last(longer).clients[0].acked == cl.acked + {fd};
    OpenedSimple(cfg, s, Last(longer), fd, path, r);
  }

  lemma OpenServed(cfg: Config, run: SysRun, fd: int, path: Path, r: int) returns (longer: SysRun)
    requires IsSysRun(cfg, run) && Simple(cfg, Last(run)) && CanTrack(cfg, Last(run).clients[0], fd, path)
    requires Issuable(Last(run).servers[HostOf(cfg, path)], r)
    ensures Grows(cfg, run, longer) && (Untroubled(run) ==> Untroubled(longer))
    ensures var s, h := Last(run), HostOf(cfg, path);
            var cl, waiting := Tracked(s.clients[0], fd, path), Waiting(OpOpen(fd, path), h, s.next, None);
            Last(longer) == s.(
              clients := [cl.(redir := cl.redir[fd := r], acked := cl.acked + {fd},
                              threads := Recorded(cl.threads[0 := waiting], 0, s.next, Done))],
              servers := s.servers[h := WithOpen(cfg, s.servers[h], r, path)], next := s.next + 1)
  {
    var s, h := Last(run), HostOf(cfg, path);
    var sent := StartOpen(cfg, run, fd, path);
    var req := OpenReq(s.next, 0, 0, h, fd, path);
    assert Last(sent).net == s.net + {req};
    longer := ServeOpen(cfg, sent, req, r);
    assert Last(longer).net == s.net;
    GrowsOn(cfg, run, sent, longer);
  }

  lemma OpenedSimple(cfg: Config, s: Sys, s': Sys, fd: int, path: Path, r: int)
    requires Simple(cfg, s) && path in cfg.pfs && s'.net == s.net && s'.next == s.next + 1
    requires s'.servers == s.servers[HostOf(cfg, path) := WithOpen(cfg, s.servers[HostOf(cfg, path)], r, path)]
    requires |s'.clients| == 1 && s'.clients[0].threads == s.clients[0].threads && s'.clients[0].counters == s.clients[0].counters
    ensures Simple(cfg, s')
  {
  }

  lemma OpenedThreads(threads: seq<Thread>, waiting: Thread, id: nat)
    requires threads != [] && threads[0].Ready? && waiting.Waiting? && waiting.id == id && waiting.answer.None?
    ensures Recorded(threads[0 := waiting], 0, id, Done)[0 := Ready] == threads
  {
  }

  lemma TimedOutTables(cl: ClientState, fd: int, path: Path, waiting: Thread)
    requires cl.threads != [] && cl.threads[0].Ready? && waiting.Waiting? && waiting.host < |cl.counters|
    ensures var sent, h := At(Tracked(cl, fd, path), waiting), waiting.host;
            At(sent, Ready).(counters := Raised(sent)) == Tracked(cl, fd, path).(counters := cl.counters[h := cl.counters[h] + 1])
  {
    Overwrite(cl.threads, waiting, Ready);
  }

  // An open that times out while its request is in flight.
  lemma OpenTimedOut(cfg: Config, run: SysRun, fd: int, path: Path) returns (longer: SysRun)
    requires IsSysRun(cfg, run) && Simple(cfg, Last(run)) && CanTrack(cfg, Last(run).clients[0], fd, path)
    ensures Grows(cfg, run, longer) && Simple(cfg, Last(longer))
    ensures var s, h := Last(run), HostOf(cfg, path);
            var cl := s.clients[0];
            && Last(longer).net == s.net + {OpenReq(s.next, 0, 0, h, fd, path)} && Last(longer).next == s.next + 1
            && Last(longer).servers == s.servers
            && Last(longer).clients == [Tracked(cl, fd, path).(counters := cl.counters[h := cl.counters[h] + 1])]
  {
    var s, h := Last(run), HostOf(cfg, path);
    var sent := StartOpen(cfg, run, fd, path);
    longer := FinishTimedOut(cfg, sent, s.clients[0], fd, path, s.next);
    GrowsOn(cfg, run, sent, longer);
    SimpleAgain(cfg, s, Last(longer));
  }

  lemma FinishTimedOut(cfg: Config, run: SysRun, cl: ClientState, fd: int, path: Path, id: nat) returns (longer: SysRun)
    requires IsSysRun(cfg, run) && cl.threads != [] && cl.threads[0].Ready? && HostOf(cfg, path) < |cl.counters|
    requires Last(run).clients == [At(Tracked(cl, fd, path), Waiting(OpOpen(fd, path), HostOf(cfg, path), id, None))]
    ensures Grows(cfg, run, longer)
    ensures var h := HostOf(cfg, path);
            Last(longer) == Last(run).(
              clients := [Tracked(cl, fd, path).(counters := cl.counters[h := cl.counters[h] + 1])])
  {
    TimedOutTables(cl, fd, path, Waiting(OpOpen(fd, path), HostOf(cfg, path), id, None));
    longer := FinishOpen(cfg, run, false);
  }

  // The call grows the run by one that keeps the clauses as far as the call does.
  ghost predicate GrowsCall(cfg: Config, run: SysRun, longer: SysRun, cl: ClientState, op: Op) {
    && IsSysRun(cfg, longer)
    && (IsPoliteRun(cfg, run) && OthersReady(cl) ==> IsPoliteRun(cfg, longer))
    && (forall w :: IsAwaitingRun(cfg, w, run) && (op.fd in cl.acked || (!op.OpClose? && op.fd !in Of(w, 0))) ==>
          IsAwaitingRun(cfg, w, longer))
    && (IsSettledRun(cfg, run) && !op.OpClose? ==> IsSettledRun(cfg, longer))
    && (Untroubled(run) ==> Untroubled(longer))
  }

  predicate IsUse(op: Op) {
    op.OpRead? || (op.OpPread? && op.offset >= -1) || op.OpSeek?
  }

  ghost predicate CanUse(cfg: Config, s: Sys, op: Op) {
    && Simple(cfg, s) && IsUse(op) && op.fd in s.clients[0].fdMap && op.fd in s.clients[0].local
    && !AtLimit(s.clients[0], HostOf(cfg, s.clients[0].fdMap[op.fd]))
  }

  // A read, positioned read or seek passes the limit check.
  lemma CallUse(cfg: Config, run: SysRun, op: Op) returns (longer: SysRun)
    requires IsSysRun(cfg, run) && CanUse(cfg, Last(run), op)
    ensures GrowsCall(cfg, run, longer, Last(run).clients[0], op)
    ensures var cl := Last(run).clients[0];
            Last(longer) == Last(run).(clients := [At(cl, Passed(op, HostOf(cfg, cl.fdMap[op.fd])))])
  {
    var cl := Last(run).clients[0];
    longer := Extend(cfg, run, ClientActs(0, Call(0, op, false)));
    assert Last(longer).clients == [At(cl, Passed(op, HostOf(cfg, cl.fdMap[op.fd])))];
  }

  function Redirected(cl: ClientState, fd: int): ClientState {
    cl.(redir := cl.redir[fd := RemoteFd(cl, fd)])
  }

  // A read or positioned read is sent to the server.
  lemma SendRead(cfg: Config, run: SysRun, op: Op) returns (longer: SysRun)
    requires IsSysRun(cfg, run) && CanUse(cfg, Last(run), op) && !op.OpSeek?
    ensures GrowsCall(cfg, run, longer, Last(run).clients[0], op)
    ensures var s := Last(run);
            var cl := s.clients[0];
            var h := HostOf(cfg, cl.fdMap[op.fd]);
            Last(longer) == s.(
              clients := [At(Redirected(cl, op.fd), Waiting(op, h, s.next, None))],
              net := s.net + {ReadReq(s.next, 0, 0, h, op.fd, RemoteFd(cl, op.fd), op.count, WireOffset(op))},
              next := s.next + 1)
  {
    var s := Last(run);
    var cl := s.clients[0];
    var h := HostOf(cfg, cl.fdMap[op.fd]);
    longer := CallUse(cfg, run, op);
    Overwrite(cl.threads, Passed(op, h), Waiting(op, h, s.next, None));
    longer := Extend(cfg, longer, ClientSends(0, 0));
    assert Last(longer).clients == [At(Redirected(cl, op.fd), Waiting(op, h, s.next, None))];
  }

  // The last thing in the run is the end of the call.
  ghost predicate Ends(run: SysRun, longer: SysRun, op: Op, ret: Ret)
    requires run.states != [] && longer.states != []
  {
    && |Last(run).clients| == 1 && |Last(longer).clients| == 1
    && Last(longer).clients[0].local == Last(run).clients[0].local
    && Last(longer).clients[0].threads != [] && Last(longer).clients[0].threads[0] == Returned(op, ret)
  }

  // What a server answers to the read that carries its descriptor r.
  function Answer(sv: ServerState, r: int, op: Op): Ret
    requires IsUse(op) && !op.OpSeek? && r in sv.files
  {
    var f := sv.files[r];
    Data(Slice(f.data, if WireOffset(op) == -1 then f.cursor else WireOffset(op), op.count))
  }

  // A read or positioned read goes to the server, which answers it.
  lemma RemoteRead(cfg: Config, run: SysRun, op: Op) returns (longer: SysRun)
    requires IsSysRun(cfg, run) && CanUse(cfg, Last(run), op) && !op.OpSeek?
    requires var s := Last(run);
             var cl := s.clients[0];
             RemoteFd(cl, op.fd) in s.servers[HostOf(cfg, cl.fdMap[op.fd])].files
    ensures GrowsCall(cfg, run, longer, Last(run).clients[0], op)
    ensures var s := Last(run);
            var cl := s.clients[0];
            Ends(run, longer, op, Answer(s.servers[HostOf(cfg, cl.fdMap[op.fd])], RemoteFd(cl, op.fd), op))
  {
    var s := Last(run);
    var cl := s.clients[0];
    var h, r := HostOf(cfg, cl.fdMap[op.fd]), RemoteFd(cl, op.fd);
    longer := SendRead(cfg, run, op);
    longer := ServeRead(cfg, longer, ReadReq(s.next, 0, 0, h, op.fd, r, op.count, WireOffset(op)), op);
    longer := DeliverRead(cfg, longer, s.next, op, Answer(s.servers[h], r, op));
  }

  lemma ServeRead(cfg: Config, run: SysRun, m: Msg, op: Op) returns (longer: SysRun)
    requires IsSysRun(cfg, run) && IsUse(op) && !op.OpSeek? && m in Last(run).net
    requires m.ReadReq? && m.count == op.count && m.offset == WireOffset(op)
    requires m.host < |Last(run).servers| && Listening(Last(run).servers[m.host])
    requires m.remoteFd in Last(run).servers[m.host].files
    ensures Grows(cfg, run, longer) && (Untroubled(run) ==> Untroubled(longer))
    ensures Last(longer).clients == Last(run).clients
    ensures ReadReply(m.id, m.c, m.t, Answer(Last(run).servers[m.host], m.remoteFd, op)) in Last(longer).net
  {
    longer := Extend(cfg, run, Serve(m, 0, true, true));
  }

  // The reply arrives and the thread wakes up with it.
  lemma DeliverRead(cfg: Config, run: SysRun, id: nat, op: Op, ret: Ret) returns (longer: SysRun)
    requires IsSysRun(cfg, run) && !op.OpOpen? && !op.OpSeek? && ret.Data?
    requires |Last(run).clients| == 1 && Last(run).clients[0].threads != []
    requires Last(run).clients[0].threads[0].Waiting? && Last(run).clients[0].threads[0].op == op
    requires Last(run).clients[0].threads[0].id == id && Last(run).clients[0].threads[0].answer.None?
    requires ReadReply(id, 0, 0, ret) in Last(run).net
    ensures Grows(cfg, run, longer) && (Untroubled(run) ==> Untroubled(longer))
    ensures Ends(run, longer, op, ret) && Last(longer).servers == Last(run).servers
    ensures |Last(longer).clients[0].threads| == |Last(run).clients[0].threads|
  {
    longer := Extend(cfg, run, Deliver(ReadReply(id, 0, 0, ret)));
    assert Last(longer).clients[0].threads[0].answer == Some(ret);
    longer := Extend(cfg, longer, ClientActs(0, Wake(0)));
  }

  // On an acknowledged descriptor, with the other threads outside any call, it keeps them all.
  lemma UseGrows(cfg: Config, run: SysRun, longer: SysRun, cl: ClientState, op: Op)
    requires IsSysRun(cfg, run) && GrowsCall(cfg, run, longer, cl, op) && OthersReady(cl) && op.fd in cl.acked && !op.OpClose?
    ensures Grows(cfg, run, longer)
  {
  }

  // Thread 0 is outside any call again, and only a request was added.
  lemma SimpleAgain(cfg: Config, s: Sys, s': Sys)
    requires Simple(cfg, s) && s'.servers == s.servers && |s'.clients| == 1 && s'.next == s.next + 1
    requires var cl := s'.clients[0]; cl.threads != [] && cl.threads[0].Ready? && |cl.counters| == cfg.servers
    requires forall m :: m in s'.net ==> m in s.net || m.id == s.next
    ensures Simple(cfg, s')
  {
  }

  // A sequential read times out and is served locally; its request stays in flight.
  lemma LocalRead(cfg: Config, run: SysRun, op: Op) returns (longer: SysRun)
    requires IsSysRun(cfg, run) && CanUse(cfg, Last(run), op) && op.OpRead?
    requires op.fd in Last(run).clients[0].acked && op.fd in Last(run).clients[0].redir && OthersReady(Last(run).clients[0])
    ensures Grows(cfg, run, longer) && Simple(cfg, Last(longer))
    ensures var s := Last(run);
            var cl := s.clients[0];
            var h := HostOf(cfg, cl.fdMap[op.fd]);
            Last(longer) == s.(
              clients := [cl.(local := PlainAfter(cfg, cl.local, op), counters := cl.counters[h := cl.counters[h] + 1])],
              net := s.net + {ReadReq(s.next, 0, 0, h, op.fd, cl.redir[op.fd], op.count, -1)}, next := s.next + 1)
  {
    var s := Last(run);
    var cl := s.clients[0];
    var sent := SendRead(cfg, run, op);
    UseGrows(cfg, run, sent, cl, op);
    assert Redirected(cl, op.fd).redir == cl.redir;
    longer := TimeOutRead(cfg, sent, cl, op, s.next);
    GrowsOn(cfg, run, sent, longer);
    SimpleAgain(cfg, s, Last(longer));
  }

  lemma TimeOutRead(cfg: Config, run: SysRun, cl: ClientState, op: Op, id: nat) returns (longer: SysRun)
    requires IsSysRun(cfg, run) && op.OpRead? && op.fd in cl.fdMap
    requires cl.threads != [] && cl.threads[0].Ready? && HostOf(cfg, cl.fdMap[op.fd]) < |cl.counters|
    requires Last(run).clients == [At(cl, Waiting(op, HostOf(cfg, cl.fdMap[op.fd]), id, None))]
    ensures Grows(cfg, run, longer)
    ensures var h := HostOf(cfg, cl.fdMap[op.fd]);
            Last(longer) == Last(run).(
              clients := [cl.(local := PlainAfter(cfg, cl.local, op), counters := cl.counters[h := cl.counters[h] + 1])])
  {
    var h := HostOf(cfg, cl.fdMap[op.fd]);
    var cl1 := cl.(local := PlainAfter(cfg, cl.local, op), counters := cl.counters[h := cl.counters[h] + 1]);
    var returned := Returned(op, PlainRet(cfg, cl.local, op));
    Overwrite(cl.threads, Waiting(op, h, id, None), returned);
    var late := Extend(cfg, run, ClientActs(0, TimeOut(0)));
    assert Last(late).clients == [At(cl1, returned)];
    longer := FinishCall(cfg, late, cl1, op, returned.ret);
    GrowsOn(cfg, run, late, longer);
  }

  // Thread 0 leaves the wrapper.
  lemma FinishCall(cfg: Config, run: SysRun, cl: ClientState, op: Op, ret: Ret) returns (longer: SysRun)
    requires IsSysRun(cfg, run) && cl.threads != [] && cl.threads[0].Ready?
    requires Last(run).clients == [At(cl, Returned(op, ret))]
    ensures Grows(cfg, run, longer) && (Untroubled(run) ==> Untroubled(longer))
    ensures Last(longer) == Last(run).(clients := [cl])
  {
    Overwrite(cl.threads, Returned(op, ret), Ready);
    longer := Extend(cfg, run, ClientActs(0, Return(0)));
    assert Last(longer).clients == [cl];
  }

  // A seek goes to the server, which answers it.
  lemma RemoteSeek(cfg: Config, run: SysRun, op: Op) returns (longer: SysRun)
    requires IsSysRun(cfg, run) && CanUse(cfg, Last(run), op) && op.OpSeek?
    ensures GrowsCall(cfg, run, longer, Last(run).clients[0], op)
    ensures var s := Last(run);
            var cl := s.clients[0];
            var h := HostOf(cfg, cl.fdMap[op.fd]);
            var (sv, ret) := HandleSeek(s.servers[h], RemoteFd(cl, op.fd), Int32(op.delta), op.whence);
            Ends(run, longer, op, ret) && Last(longer).servers == s.servers[h := sv]
  {
    var s := Last(run);
    var cl := s.clients[0];
    var h, r := HostOf(cfg, cl.fdMap[op.fd]), RemoteFd(cl, op.fd);
    longer := CallUse(cfg, run, op);
    longer := Extend(cfg, longer, ClientSends(0, 0));
    var req := SeekReq(s.next, 0, 0, h, r, Int32(op.delta), op.whence);
    assert req in Last(longer).net && Last(longer).servers == s.servers;
    longer := AnswerSeek(cfg, longer, req, op);
  }

  lemma AnswerSeek(cfg: Config, run: SysRun, req: Msg, op: Op) returns (longer: SysRun)
    requires IsSysRun(cfg, run) && req.SeekReq? && req in Last(run).net && req.c == 0 && req.t == 0
    requires req.host < |Last(run).servers| && Listening(Last(run).servers[req.host])
    requires |Last(run).clients| == 1 && Last(run).clients[0].threads != [] && Last(run).clients[0].seeksDone == 0
    requires Last(run).clients[0].threads[0].Waiting? && Last(run).clients[0].threads[0].op == op && op.OpSeek?
    ensures Grows(cfg, run, longer) && (Untroubled(run) ==> Untroubled(longer))
    ensures var (sv, ret) := HandleSeek(Last(run).servers[req.host], req.remoteFd, req.delta, req.whence);
            Ends(run, longer, op, ret) && Last(longer).servers == Last(run).servers[req.host := sv]
  {
    var reply := SeekAnswerOf(Last(run), req);
    var served := Extend(cfg, run, Serve(req, 0, true, true));
    longer := HearSeek(cfg, served, reply, op);
    GrowsOn(cfg, run, served, longer);
  }

  lemma HearSeek(cfg: Config, run: SysRun, reply: Msg, op: Op) returns (longer: SysRun)
    requires IsSysRun(cfg, run) && reply.SeekReply? && reply in Last(run).net && reply.c == 0
    requires |Last(run).clients| == 1 && Last(run).clients[0].threads != [] && Last(run).clients[0].seeksDone == 0
    requires Last(run).clients[0].threads[0].Waiting? && Last(run).clients[0].threads[0].op == op && op.OpSeek?
    ensures Grows(cfg, run, longer) && (Untroubled(run) ==> Untroubled(longer))
    ensures Ends(run, longer, op, Pos(reply.pos)) && Last(longer).servers == Last(run).servers
  {
    longer := Extend(cfg, run, Deliver(reply));
    longer := Extend(cfg, longer, ClientActs(0, Wake(0)));
  }

  function Closed(cl: ClientState, fd: int): ClientState {
    cl.(local := cl.local - {fd}, fdMap := cl.fdMap - {fd}, acked := cl.acked - {fd})
  }

  // A thread closes a tracked descriptor while the host is below its limit.
  lemma RemoteClose(cfg: Config, run: SysRun, fd: int) returns (longer: SysRun)
    requires IsSysRun(cfg, run) && Simple(cfg, Last(run))
    requires var cl := Last(run).clients[0]; fd in cl.fdMap && fd in cl.local && !AtLimit(cl, HostOf(cfg, cl.fdMap[fd]))
    ensures GrowsCall(cfg, run, longer, Last(run).clients[0], OpClose(fd))
    ensures IsSettledRun(cfg, run) && NoLiveOpen(Last(run), 0, fd) ==> IsSettledRun(cfg, longer)
    ensures var s := Last(run);
            var cl := s.clients[0];
            Last(longer) == s.(
              clients := [Closed(cl, fd).(redir := cl.redir - {fd})],
              net := s.net + {CloseReq(s.next, HostOf(cfg, cl.fdMap[fd]), RemoteFd(cl, fd))}, next := s.next + 1)
  {
    var s := Last(run);
    var cl := s.clients[0];
    var called := Extend(cfg, run, ClientActs(0, Call(0, OpClose(fd), false)));
    assert Last(called).clients == [At(cl, Passed(OpClose(fd), HostOf(cfg, cl.fdMap[fd])))];
    longer := SendClose(cfg, called, cl, fd);
    CloseGrows(cfg, run, called, longer, cl, fd);
  }

  lemma SendClose(cfg: Config, run: SysRun, cl: ClientState, fd: int) returns (longer: SysRun)
    requires IsSysRun(cfg, run) && cl.threads != [] && cl.threads[0].Ready? && fd in cl.fdMap && fd in cl.local
    requires Last(run).clients == [At(cl, Passed(OpClose(fd), HostOf(cfg, cl.fdMap[fd])))]
    ensures Grows(cfg, run, longer) && (Untroubled(run) ==> Untroubled(longer))
    ensures var s := Last(run);
            Last(longer) == s.(
              clients := [Closed(cl, fd).(redir := cl.redir - {fd})],
              net := s.net + {CloseReq(s.next, HostOf(cfg, cl.fdMap[fd]), RemoteFd(cl, fd))}, next := s.next + 1)
  {
    var passed, returned := Passed(OpClose(fd), HostOf(cfg, cl.fdMap[fd])), Returned(OpClose(fd), Done);
    var cl1 := Closed(cl, fd).(redir := cl.redir - {fd});
    Overwrite(cl.threads, passed, returned);
    var sent := Extend(cfg, run, ClientSends(0, 0));
    assert Last(sent).clients == [At(cl1, returned)];
    longer := FinishCall(cfg, sent, cl1, OpClose(fd), Done);
    GrowsOn(cfg, run, sent, longer);
  }

  lemma CloseGrows(cfg: Config, run: SysRun, called: SysRun, longer: SysRun, cl: ClientState, fd: int)
    requires GrowsCall(cfg, run, called, cl, OpClose(fd)) && Grows(cfg, called, longer)
    requires Untroubled(called) ==> Untroubled(longer)
    ensures GrowsCall(cfg, run, longer, cl, OpClose(fd))
    ensures IsSettledRun(cfg, called) ==> IsSettledRun(cfg, longer)
  {
  }

  // A close while the host is at its limit sends nothing and keeps the redirection.
  lemma SkippedClose(cfg: Config, run: SysRun, fd: int) returns (longer: SysRun)
    requires IsSysRun(cfg, run) && Simple(cfg, Last(run))
    requires var cl := Last(run).clients[0]; fd in cl.fdMap && fd in cl.local && AtLimit(cl, HostOf(cfg, cl.fdMap[fd]))
    ensures IsSysRun(cfg, longer) && (IsPoliteRun(cfg, run) && OthersReady(Last(run).clients[0]) ==> IsPoliteRun(cfg, longer))
    ensures forall w :: IsAwaitingRun(cfg, w, run) ==> IsAwaitingRun(cfg, w, longer)
    ensures Last(longer) == Last(run).(clients := [Closed(Last(run).clients[0], fd)])
  {
    var cl := Last(run).clients[0];
    longer := Extend(cfg, run, ClientActs(0, Call(0, OpClose(fd), false)));
    var returned := Returned(OpClose(fd), Done);
    assert Last(longer).clients == [At(Closed(cl, fd), returned)];
    Overwrite(cl.threads, returned, Ready);
    longer := Extend(cfg, longer, ClientActs(0, Return(0)));
    assert Last(longer).clients == [Closed(cl, fd)];
  }

  // The server closes the descriptor and queues its path for the mover.
  lemma ServeClose(cfg: Config, run: SysRun, m: Msg) returns (longer: SysRun)
    requires IsSysRun(cfg, run) && Simple(cfg, Last(run)) && m.CloseReq? && m in Last(run).net
    requires m.host < cfg.servers && m.remoteFd in Last(run).servers[m.host].files
    ensures Grows(cfg, run, longer) && (Untroubled(run) ==> Untroubled(longer)) && Simple(cfg, Last(longer))
    ensures Last(longer).clients == Last(run).clients && Last(longer).net == Last(run).net - {m}
    ensures Last(longer).next == Last(run).next
    ensures Last(longer).servers[m.host].files == Last(run).servers[m.host].files - {m.remoteFd}
  {
    longer := Extend(cfg, run, Serve(m, 0, true, true));
    assert Last(longer).net == Last(run).net - {m};
    longer := FinishClose(cfg, longer, m.host);
  }

  // A step of a server's close handler.
  lemma ServerStep(cfg: Config, run: SysRun, h: nat, step: Step) returns (longer: SysRun)
    requires IsSysRun(cfg, run) && h < |Last(run).servers| && CanStep(Last(run).servers[h], step)
    ensures Grows(cfg, run, longer) && (Untroubled(run) ==> Untroubled(longer))
    ensures Last(longer) == Last(run).(servers := Last(run).servers[h := Take(Last(run).servers[h], step)])
  {
    longer := Extend(cfg, run, ServerActs(h, step));
  }

  lemma ServerSteps(cfg: Config, run: SysRun, h: nat, step: Step, next: Step) returns (longer: SysRun)
    requires IsSysRun(cfg, run) && h < |Last(run).servers| && CanStep(Last(run).servers[h], step)
    requires CanStep(Take(Last(run).servers[h], step), next)
    ensures Grows(cfg, run, longer) && (Untroubled(run) ==> Untroubled(longer))
    ensures Last(longer)
            == Last(run).(servers := Last(run).servers[h := Take(Take(Last(run).servers[h], step), next)])
  {
    var once := ServerStep(cfg, run, h, step);
    longer := ServerStep(cfg, once, h, next);
    GrowsOn(cfg, run, once, longer);
    assert Last(longer).servers == Last(run).servers[h := Take(Take(Last(run).servers[h], step), next)];
  }

  lemma FinishClose(cfg: Config, run: SysRun, h: nat) returns (longer: SysRun)
    requires IsSysRun(cfg, run) && h < |Last(run).servers|
    requires var sv := Last(run).servers[h];
             && sv.up && sv.closing.WantPath? && sv.pathLock.Nobody? && sv.dataLock.Nobody? && sv.cache == map[]
    ensures Grows(cfg, run, longer) && (Untroubled(run) ==> Untroubled(longer))
    ensures |Last(longer).servers| == |Last(run).servers|
    ensures Last(longer) == Last(run).(servers := Last(run).servers[h := Last(longer).servers[h]])
    ensures var sv, sv' := Last(run).servers[h], Last(longer).servers[h];
            && Listening(sv') && sv'.pathLock.Nobody? && sv'.dataLock.Nobody? && sv'.cache == map[] && sv'.fs == sv.fs
            && sv'.files == sv.files
  {
    var locked := ServerSteps(cfg, run, h, TakePathLock, TakeDataLock);
    var signalled := ServerSteps(cfg, locked, h, Push, Signal);
    GrowsOn(cfg, run, locked, signalled);
    longer := ServerStep(cfg, signalled, h, Leave);
    GrowsOn(cfg, run, signalled, longer);
    assert Last(longer).servers == Last(run).servers[h := Last(longer).servers[h]];
  }

  // ---------------------------------------------------------------- offset -1

  // One server and two files.
  const TWO_FILES: Config := Config(map["/a" := [7, 8], "/b" := [9]], 1, _ => 0)

  lemma Bytes()
    ensures Slice([7, 8], 0, 1) == [7] && Slice([7, 8], 1, 1) == [8] && Slice([9], 0, 1) == [9] && Slice([5], 0, 1) == [5]
  {
  }

  // In every state of every run that is disciplined for the descriptor, a positioned read of it at the offset returns
  // what the file holds there.
  ghost predicate TransparentAt(offset: int) {
    forall cfg, w: iset<Descriptor>, run: SysRun, i: nat, c: nat, t: nat ::
      IsDisciplinedRun(cfg, w, run) && i < |run.states| && c < |run.states[i].clients|
      && t < |run.states[i].clients[c].threads| ==>
        PreadIsPlain(cfg, Of(w, c), run.states[i].clients[c], run.states[i].clients[c].threads[t], offset)
  }

  ghost predicate PreadIsPlain(cfg: Config, mine: iset<int>, cl: ClientState, th: Thread, offset: int) {
    th.Returned? && th.op.OpPread? && th.op.offset == offset && th.op.fd in mine ==>
      && th.op.fd in cl.local && cl.local[th.op.fd].path in cfg.pfs
      && th.ret == Pread(cfg.pfs[cl.local[th.op.fd].path], th.op.count, offset)
  }

  // A positioned read at offset -1 should fail; the cache serves it from the cursor.
  lemma PreadAtMinusOne() returns (run: SysRun, op: Op)
    ensures IsDisciplinedRun(TWO_FILES, EVERY, run) && Untroubled(run) && op == OpPread(5, 1, -1)
    ensures Ends(run, run, op, Data([7])) && 5 in Last(run).clients[0].local
    ensures PlainRet(TWO_FILES, Last(run).clients[0].local, op) == Fail
  {
    Bytes();
    run := OneOpenFile("/a", 3);
    op := OpPread(5, 1, -1);
    run := RemoteRead(TWO_FILES, run, op);
    ClausesTogether(TWO_FILES, EVERY, run);
  }

  // Descriptor 5 is open, as r on the server.
  lemma OneOpenFile(path: Path, r: int) returns (run: SysRun)
    requires r >= -1 && path in TWO_FILES.pfs
    ensures IsPoliteRun(TWO_FILES, run) && IsSettledRun(TWO_FILES, run) && IsAwaitingRun(TWO_FILES, EVERY, run)
    ensures IsDisciplinedRun(TWO_FILES, EVERY, run) && Untroubled(run) && Simple(TWO_FILES, Last(run))
    ensures Last(run).net == {} && Last(run).next == 1
    ensures var cl, sv := Last(run).clients[0], Last(run).servers[0];
            && cl.threads == [Ready] && cl.counters == [0] && cl.local == map[5 := LocalFile(path, 0)]
            && cl.fdMap == map[5 := path] && cl.redir == map[5 := r] && cl.acked == {5}
            && sv.files == if r == -1 then map[] else map[r := OpenFile(TWO_FILES.pfs[path], 0)]
  {
    run := OpenAnswered(TWO_FILES, Beginning(TWO_FILES, 1), 5, path, r);
    ClausesTogether(TWO_FILES, EVERY, run);
  }

  lemma TransparentIff(offset: int)
    ensures TransparentAt(offset) <==> offset != -1
  {
    if offset == -1 {
      var run, op := PreadAtMinusOne();
      var cl := Last(run).clients[0];
      assert !PreadIsPlain(TWO_FILES, Of(EVERY, 0), cl, cl.threads[0], offset);
      assert !TransparentAt(offset) by {
        assert IsDisciplinedRun(TWO_FILES, EVERY, run) && |run.states| - 1 < |run.states|;
      }
    } else {
      forall cfg, w: iset<Descriptor>, run: SysRun, i: nat, c: nat, t: nat
        | IsDisciplinedRun(cfg, w, run) && i < |run.states| && c < |run.states[i].clients|
          && t < |run.states[i].clients[c].threads|
        ensures PreadIsPlain(cfg, Of(w, c), run.states[i].clients[c], run.states[i].clients[c].threads[t], offset)
      {
        var th := run.states[i].clients[c].threads[t];
        if th.Returned? && th.op.OpPread? && th.op.offset == offset && th.op.fd in Of(w, c) {
          PreadTransparency(cfg, w, run, i, c, t);
        }
      }
    }
  }

  // ---------------------------------------------------------------- reads that a sound run excludes

  // The local fallback of a sequential read advances the local cursor only: the next read, served remotely, returns
  // the same byte again where a plain file would return the next one.
  lemma SequentialReadRepeats() returns (run: SysRun)
    ensures IsDisciplinedRun(TWO_FILES, EVERY, run) && Ends(run, run, OpRead(5, 1), Data([7]))
    ensures var start := map[5 := LocalFile("/a", 0)];
            var once := PlainAfter(TWO_FILES, start, OpRead(5, 1));
            && once == Last(run).clients[0].local
            && PlainRet(TWO_FILES, start, OpRead(5, 1)) == Data([7])
            && PlainRet(TWO_FILES, once, OpRead(5, 1)) == Data([8])
  {
    Bytes();
    run := ReadFellBack();
    run := RemoteRead(TWO_FILES, run, OpRead(5, 1));
    ClausesTogether(TWO_FILES, EVERY, run);
  }

  lemma ReadFellBack() returns (run: SysRun)
    ensures IsPoliteRun(TWO_FILES, run) && IsSettledRun(TWO_FILES, run) && IsAwaitingRun(TWO_FILES, EVERY, run)
    ensures Simple(TWO_FILES, Last(run)) && |Last(run).clients[0].threads| == 1
    ensures var cl, sv := Last(run).clients[0], Last(run).servers[0];
            && cl.local == PlainAfter(TWO_FILES, map[5 := LocalFile("/a", 0)], OpRead(5, 1))
            && 5 in cl.fdMap && 5 in cl.acked && cl.redir == map[5 := 3] && cl.counters == [1]
            && 3 in sv.files && sv.files[3] == OpenFile([7, 8], 0)
  {
    run := OneOpenFile("/a", 3);
    run := LocalRead(TWO_FILES, run, OpRead(5, 1));
  }

  // No call falls back, but the device fails the first attempt of the handler, and the second reads the descriptor
  // that has the client's number: the read returns another file's byte, and moves a cursor nobody read.
  lemma RetryMisreads() returns (run: SysRun)
    ensures IsDisciplinedRun(TWO_FILES, EVERY, run) && Ends(run, run, OpRead(5, 1), Data([9]))
    ensures PlainRet(TWO_FILES, Last(run).clients[0].local, OpRead(5, 1)) == Data([7])
    ensures |Last(run).servers| == 1 && 5 in Last(run).servers[0].files && Last(run).servers[0].files[5].cursor == 1
  {
    Bytes();
    run := ReadInFlight();
    run := ServeRetried(TWO_FILES, run, ReadReq(2, 0, 0, 0, 5, 3, 1, -1));
    run := DeliverRead(TWO_FILES, run, 2, OpRead(5, 1), Data([9]));
    ClausesTogether(TWO_FILES, EVERY, run);
  }

  lemma ReadInFlight() returns (run: SysRun)
    ensures IsPoliteRun(TWO_FILES, run) && IsSettledRun(TWO_FILES, run) && IsAwaitingRun(TWO_FILES, EVERY, run)
    ensures |Last(run).clients| == 1 && |Last(run).servers| == 1 && Listening(Last(run).servers[0])
    ensures Last(run).clients[0].threads == [Waiting(OpRead(5, 1), 0, 2, None)]
    ensures Last(run).clients[0].local == map[5 := LocalFile("/a", 0), 6 := LocalFile("/b", 0)]
    ensures ReadReq(2, 0, 0, 0, 5, 3, 1, -1) in Last(run).net
    ensures Last(run).servers[0].files == map[3 := OpenFile([7, 8], 0), 5 := OpenFile([9], 0)]
  {
    run := OneOpenFile("/a", 3);
    run := OpenAnswered(TWO_FILES, run, 6, "/b", 5);
    run := SendRead(TWO_FILES, run, OpRead(5, 1));
  }

  // The first attempt fails, the second does not.
  lemma ServeRetried(cfg: Config, run: SysRun, m: Msg) returns (longer: SysRun)
    requires IsSysRun(cfg, run) && |Last(run).servers| == 1 && Listening(Last(run).servers[0])
    requires m in Last(run).net && m.ReadReq? && m.host == 0 && m.offset == -1 && m.fd in Last(run).servers[0].files
    ensures Grows(cfg, run, longer) && Last(longer).clients == Last(run).clients
    ensures Last(longer).servers == [Advanced(Last(run).servers[0], m.fd, m.count)]
    ensures var f := Last(run).servers[0].files[m.fd];
            ReadReply(m.id, m.c, m.t, Read(f.data, f.cursor, m.count)) in Last(longer).net
  {
    longer := Extend(cfg, run, Serve(m, 0, false, true));
  }

  // A sequential read times out, its descriptor is closed and the number issued again, and only then the server
  // handles the request: the first read of the new descriptor misses the first byte.
  lemma StaleReadSkips() returns (run: SysRun)
    ensures IsDisciplinedRun(TWO_FILES, EVERY, run) && Ends(run, run, OpRead(6, 1), Data([8]))
    ensures Last(run).clients[0].local == map[6 := LocalFile("/a", 0)]
    ensures PlainRet(TWO_FILES, Last(run).clients[0].local, OpRead(6, 1)) == Data([7])
  {
    Bytes();
    run := ClosedWithReadInFlight();
    run := OpenAnswered(TWO_FILES, run, 6, "/a", 3);
    assert Last(run).clients[0].local == map[6 := LocalFile("/a", 0)];
    run := ServeStale(run, ReadReq(1, 0, 0, 0, 5, 3, 1, -1));
    run := RemoteRead(TWO_FILES, run, OpRead(6, 1));
    ClausesTogether(TWO_FILES, EVERY, run);
  }

  lemma ClosedWithReadInFlight() returns (run: SysRun)
    ensures IsPoliteRun(TWO_FILES, run) && IsSettledRun(TWO_FILES, run) && IsAwaitingRun(TWO_FILES, EVERY, run)
    ensures Simple(TWO_FILES, Last(run)) && |Last(run).clients[0].threads| == 1
    ensures ReadReq(1, 0, 0, 0, 5, 3, 1, -1) in Last(run).net
    ensures Last(run).servers[0].files == map[]
    ensures Last(run).clients[0].local == map[] && Last(run).clients[0].counters == [1]
  {
    run := ReadLeftBehind();
    var m := CloseReq(2, 0, 3);
    run := RemoteClose(TWO_FILES, run, 5);
    assert m in Last(run).net;
    run := ServeClose(TWO_FILES, run, m);
  }

  lemma ReadLeftBehind() returns (run: SysRun)
    ensures IsPoliteRun(TWO_FILES, run) && IsSettledRun(TWO_FILES, run) && IsAwaitingRun(TWO_FILES, EVERY, run)
    ensures Simple(TWO_FILES, Last(run)) && Last(run).net == {ReadReq(1, 0, 0, 0, 5, 3, 1, -1)} && Last(run).next == 2
    ensures Last(run).servers[0].files.Keys == {3}
    ensures var cl := Last(run).clients[0];
            && |cl.threads| == 1 && cl.local.Keys == {5} && 5 in cl.fdMap && 5 in cl.acked && cl.redir == map[5 := 3]
            && cl.counters == [1]
  {
    run := OneOpenFile("/b", 3);
    run := LocalRead(TWO_FILES, run, OpRead(5, 1));
  }

  // A request nobody waits for moves the descriptor it carries.
  lemma ServeStale(run: SysRun, m: Msg) returns (longer: SysRun)
    requires IsSysRun(TWO_FILES, run) && Simple(TWO_FILES, Last(run)) && m in Last(run).net
    requires m.ReadReq? && m.host == 0 && m.offset == -1 && m.remoteFd in Last(run).servers[0].files
    ensures Grows(TWO_FILES, run, longer) && Simple(TWO_FILES, Last(longer))
    ensures Last(longer).clients == Last(run).clients
    ensures Last(longer).servers == [Advanced(Last(run).servers[0], m.remoteFd, m.count)]
  {
    longer := Extend(TWO_FILES, run, Serve(m, 0, true, true));
  }

  // ---------------------------------------------------------------- seeks that a sound run excludes

  // An offset of 2^32 + 1 goes to position 1.
  lemma WideSeekMisplaces() returns (run: SysRun, op: Op)
    ensures IsDisciplinedRun(TWO_FILES, EVERY, run) && Untroubled(run) && op == OpSeek(5, 0x1_0000_0001, SEEK_SET)
    ensures Ends(run, run, op, Pos(1)) && PlainRet(TWO_FILES, Last(run).clients[0].local, op) == Pos(0x1_0000_0001)
    ensures |Last(run).servers| == 1 && 3 in Last(run).servers[0].files && Last(run).servers[0].files[3].cursor == 1
  {
    op := OpSeek(5, 0x1_0000_0001, SEEK_SET);
    run := OneOpenFile("/a", 3);
    run := RemoteSeek(TWO_FILES, run, op);
    ClausesTogether(TWO_FILES, EVERY, run);
  }

  // Two threads seek on two descriptors. Nothing fails, both replies are delivered, and both calls hang for ever.
  lemma OverlappingSeeksHang() returns (run: SysRun)
    ensures IsDisciplinedRun(TWO_FILES, EVERY, run) && Untroubled(run) && Hung(Last(run))
    ensures |Last(run).clients| == 1
    ensures Last(run).clients[0].threads
            == [Waiting(OpSeek(5, 1, SEEK_SET), 0, 2, None), Waiting(OpSeek(6, 0, SEEK_SET), 0, 3, None)]
    ensures forall e: Client.Event :: e.Call? || e.Send? || e.Wake? || e.TimeOut? || e.Return? ==>
              !CanDo(TWO_FILES, Last(run).clients[0], e)
  {
    run := TwoSeeksInFlight();
    run := AnswerBothSeeks(run);
    ClausesTogether(TWO_FILES, EVERY, run);
  }

  lemma TwoOpenFiles() returns (run: SysRun)
    ensures IsPoliteRun(TWO_FILES, run) && IsSettledRun(TWO_FILES, run) && IsAwaitingRun(TWO_FILES, EVERY, run)
    ensures Untroubled(run) && Simple(TWO_FILES, Last(run)) && Last(run).net == {} && Last(run).next == 2
    ensures var cl, sv := Last(run).clients[0], Last(run).servers[0];
            && cl.threads == [Ready, Ready] && cl.counters == [0] && cl.fdMap == map[5 := "/a", 6 := "/b"]
            && cl.local == map[5 := LocalFile("/a", 0), 6 := LocalFile("/b", 0)]
            && cl.redir == map[5 := 3, 6 := 0] && cl.acked == {5, 6}
            && sv.files == map[3 := OpenFile([7, 8], 0), 0 := OpenFile([9], 0)]
  {
    run := OpenAnswered(TWO_FILES, Beginning(TWO_FILES, 2), 5, "/a", 3);
    run := OpenAnswered(TWO_FILES, run, 6, "/b", 0);
  }

  lemma TwoSeeksInFlight() returns (run: SysRun)
    ensures IsPoliteRun(TWO_FILES, run) && IsSettledRun(TWO_FILES, run) && IsAwaitingRun(TWO_FILES, EVERY, run)
    ensures Untroubled(run) && |Last(run).clients| == 1 && |Last(run).servers| == 1 && Listening(Last(run).servers[0])
    ensures Last(run).clients[0].threads
            == [Waiting(OpSeek(5, 1, SEEK_SET), 0, 2, None), Waiting(OpSeek(6, 0, SEEK_SET), 0, 3, None)]
    ensures Last(run).clients[0].seeksDone == 0
    ensures Last(run).net == {SeekReq(2, 0, 0, 0, 3, 1, SEEK_SET), SeekReq(3, 0, 1, 0, 0, 0, SEEK_SET)}
    ensures Last(run).servers[0].files == map[3 := OpenFile([7, 8], 0), 0 := OpenFile([9], 0)]
  {
    run := TwoSeeksCalled();
    run := Extend(TWO_FILES, run, ClientSends(0, 0));
    assert Last(run).clients[0].threads
        == [Waiting(OpSeek(5, 1, SEEK_SET), 0, 2, None), Passed(OpSeek(6, 0, SEEK_SET), 0)];
    run := Extend(TWO_FILES, run, ClientSends(0, 1));
    assert Last(run).clients[0].threads
        == [Waiting(OpSeek(5, 1, SEEK_SET), 0, 2, None), Waiting(OpSeek(6, 0, SEEK_SET), 0, 3, None)];
    assert Last(run).net == {SeekReq(2, 0, 0, 0, 3, 1, SEEK_SET), SeekReq(3, 0, 1, 0, 0, 0, SEEK_SET)};
  }

  lemma TwoSeeksCalled() returns (run: SysRun)
    ensures IsPoliteRun(TWO_FILES, run) && IsSettledRun(TWO_FILES, run) && IsAwaitingRun(TWO_FILES, EVERY, run)
    ensures Untroubled(run) && |Last(run).clients| == 1 && |Last(run).servers| == 1 && Listening(Last(run).servers[0])
    ensures Last(run).clients[0].threads == [Passed(OpSeek(5, 1, SEEK_SET), 0), Passed(OpSeek(6, 0, SEEK_SET), 0)]
    ensures Last(run).clients[0].redir == map[5 := 3, 6 := 0] && Last(run).net == {} && Last(run).next == 2
    ensures Last(run).servers[0].files == map[3 := OpenFile([7, 8], 0), 0 := OpenFile([9], 0)]
  {
    run := TwoOpenFiles();
    run := CallUse(TWO_FILES, run, OpSeek(5, 1, SEEK_SET));
    assert Last(run).clients[0].threads == [Passed(OpSeek(5, 1, SEEK_SET), 0), Ready];
    run := Extend(TWO_FILES, run, ClientActs(0, Call(1, OpSeek(6, 0, SEEK_SET), false)));
    assert Last(run).clients[0].threads == [Passed(OpSeek(5, 1, SEEK_SET), 0), Passed(OpSeek(6, 0, SEEK_SET), 0)];
  }

  lemma AnswerBothSeeks(run: SysRun) returns (longer: SysRun)
    requires IsSysRun(TWO_FILES, run)
    requires |Last(run).clients| == 1 && |Last(run).servers| == 1 && Listening(Last(run).servers[0])
    requires Last(run).clients[0].threads
             == [Waiting(OpSeek(5, 1, SEEK_SET), 0, 2, None), Waiting(OpSeek(6, 0, SEEK_SET), 0, 3, None)]
    requires Last(run).net == {SeekReq(2, 0, 0, 0, 3, 1, SEEK_SET), SeekReq(3, 0, 1, 0, 0, 0, SEEK_SET)}
    requires Last(run).servers[0].files == map[3 := OpenFile([7, 8], 0), 0 := OpenFile([9], 0)]
    ensures Grows(TWO_FILES, run, longer) && (Untroubled(run) ==> Untroubled(longer)) && Hung(Last(longer))
    ensures |Last(longer).clients| == 1 && Last(longer).clients[0].threads == Last(run).clients[0].threads
  {
    var served := ServeBothSeeks(run);
    longer := DeliverBothSeeks(served);
    GrowsOn(TWO_FILES, run, served, longer);
  }

  lemma DeliverBothSeeks(run: SysRun) returns (longer: SysRun)
    requires IsSysRun(TWO_FILES, run) && |Last(run).clients| == 1
    requires Last(run).clients[0].threads
             == [Waiting(OpSeek(5, 1, SEEK_SET), 0, 2, None), Waiting(OpSeek(6, 0, SEEK_SET), 0, 3, None)]
    requires Last(run).net == {SeekReply(2, 0, 0, 1), SeekReply(3, 0, 1, 0)}
    ensures Grows(TWO_FILES, run, longer) && (Untroubled(run) ==> Untroubled(longer)) && Hung(Last(longer))
    ensures |Last(longer).clients| == 1 && Last(longer).clients[0].threads == Last(run).clients[0].threads
  {
    var first := DeliverSeekReply(run, SeekReply(2, 0, 0, 1));
    assert Last(first).net == {SeekReply(3, 0, 1, 0)};
    longer := DeliverSeekReply(first, SeekReply(3, 0, 1, 0));
    assert Last(longer).net == {};
    GrowsOn(TWO_FILES, run, first, longer);
    BothHung(Last(longer));
  }

  lemma BothHung(s: Sys)
    requires s.net == {} && |s.clients| == 1 && s.clients[0].seeksDone >= 2
    requires s.clients[0].threads
             == [Waiting(OpSeek(5, 1, SEEK_SET), 0, 2, None), Waiting(OpSeek(6, 0, SEEK_SET), 0, 3, None)]
    ensures Hung(s)
  {
  }

  lemma DeliverSeekReply(run: SysRun, m: Msg) returns (longer: SysRun)
    requires IsSysRun(TWO_FILES, run) && |Last(run).clients| == 1 && m.SeekReply? && m.c == 0 && m in Last(run).net
    ensures Grows(TWO_FILES, run, longer) && (Untroubled(run) ==> Untroubled(longer))
    ensures Last(longer).net == Last(run).net - {m} && |Last(longer).clients| == 1
    ensures Last(longer).clients[0].threads == Last(run).clients[0].threads
    ensures Last(longer).clients[0].seeksDone == Last(run).clients[0].seeksDone + 1
  {
    longer := Extend(TWO_FILES, run, Deliver(m));
  }

  lemma ServeBothSeeks(run: SysRun) returns (longer: SysRun)
    requires IsSysRun(TWO_FILES, run)
    requires |Last(run).clients| == 1 && |Last(run).servers| == 1 && Listening(Last(run).servers[0])
    requires Last(run).net == {SeekReq(2, 0, 0, 0, 3, 1, SEEK_SET), SeekReq(3, 0, 1, 0, 0, 0, SEEK_SET)}
    requires Last(run).servers[0].files == map[3 := OpenFile([7, 8], 0), 0 := OpenFile([9], 0)]
    ensures Grows(TWO_FILES, run, longer) && (Untroubled(run) ==> Untroubled(longer))
    ensures Last(longer).clients == Last(run).clients && Last(longer).net == {SeekReply(2, 0, 0, 1), SeekReply(3, 0, 1, 0)}
  {
    var m, n := SeekReq(2, 0, 0, 0, 3, 1, SEEK_SET), SeekReq(3, 0, 1, 0, 0, 0, SEEK_SET);
    longer := Extend(TWO_FILES, run, Serve(m, 0, true, true));
    assert Last(longer).net == {n, SeekReply(2, 0, 0, 1)};
    longer := Extend(TWO_FILES, longer, Serve(n, 0, true, true));
    assert Last(longer).net == {SeekReply(2, 0, 0, 1), SeekReply(3, 0, 1, 0)};
  }

  // ---------------------------------------------------------------- opens that failed on the server

  // The server's open failed, and the -1 comes back to it in a close: the assertion fails and the server is gone.
  lemma FailedOpenKillsServer() returns (run: SysRun, m: Msg)
    ensures IsDisciplinedRun(TWO_FILES, EVERY, run) && Untroubled(run) && m.CloseReq? && m.remoteFd == -1
    ensures Enabled(TWO_FILES, Last(run), Serve(m, 0, true, true))
    ensures var sv := Last(run).servers[m.host]; sv.up && !HandleClose(sv, m.remoteFd).up
  {
    run := OneOpenFile("/a", -1);
    m := CloseReq(1, 0, -1);
    run := RemoteClose(TWO_FILES, run, 5);
    assert m in Last(run).net;
    ClausesTogether(TWO_FILES, EVERY, run);
  }

  // Or it comes back in a sequential read: both attempts fail, and the server is gone without a reply.
  lemma ReadAfterFailedOpenKillsServer() returns (run: SysRun, m: Msg)
    ensures IsDisciplinedRun(TWO_FILES, EVERY, run) && Untroubled(run)
    ensures m.ReadReq? && m.remoteFd == -1 && |Last(run).clients| == 1 && |Last(run).servers| == 1
    ensures Last(run).clients[0].threads == [Waiting(OpRead(5, 1), 0, 1, None)] && Last(run).net == {m}
    ensures Last(run).servers[0].up && Enabled(TWO_FILES, Last(run), Serve(m, 0, true, true))
    ensures var dead := Next(TWO_FILES, Last(run), Serve(m, 0, true, true));
            dead.net == {} && |dead.servers| == 1 && !dead.servers[0].up && dead.clients == Last(run).clients
  {
    run := OneOpenFile("/a", -1);
    m := ReadReq(1, 0, 0, 0, 5, -1, 1, -1);
    run := SendRead(TWO_FILES, run, OpRead(5, 1));
    assert Last(run).net == {m};
    ClausesTogether(TWO_FILES, EVERY, run);
  }

  // A seek on it fails where the plain one does not.
  lemma SeekAfterFailedOpenFails() returns (run: SysRun, op: Op)
    ensures IsDisciplinedRun(TWO_FILES, EVERY, run) && Untroubled(run) && op == OpSeek(5, 1, SEEK_SET)
    ensures Ends(run, run, op, Pos(-1)) && PlainRet(TWO_FILES, Last(run).clients[0].local, op) == Pos(1)
  {
    op := OpSeek(5, 1, SEEK_SET);
    run := OneOpenFile("/a", -1);
    run := RemoteSeek(TWO_FILES, run, op);
    ClausesTogether(TWO_FILES, EVERY, run);
  }

  // ---------------------------------------------------------------- without the discipline

  // A positioned read sent although the open of its descriptor timed out carries the default descriptor 0, and
  // returns the bytes of whatever the server has open there. All closes are disciplined, and all other calls.
  lemma UnacknowledgedReadMisreads() returns (run: SysRun)
    ensures IsDisciplinedRun(TWO_FILES, EVERY - iset{Descriptor(0, 6)}, run)
    ensures Ends(run, run, OpPread(6, 1, 0), Data([9]))
    ensures PlainRet(TWO_FILES, Last(run).clients[0].local, OpPread(6, 1, 0)) == Data([7])
  {
    Bytes();
    var w := EVERY - iset{Descriptor(0, 6)};
    run := OpenAnswered(TWO_FILES, Beginning(TWO_FILES, 1), 5, "/b", 0);
    run := OpenTimedOut(TWO_FILES, run, 6, "/a");
    assert 6 !in Of(w, 0);
    run := RemoteRead(TWO_FILES, run, OpPread(6, 1, 0));
    ClausesTogether(TWO_FILES, w, run);
  }

  // A close sent although the open of its descriptor was lost closes the server's descriptor 0, which belongs to
  // another: when the number is issued again, positioned reads of that other one return the new file's bytes. Only
  // the clause that a close awaits its open is broken.
  lemma UnacknowledgedCloseMisreads() returns (run: SysRun)
    ensures IsPoliteRun(TWO_FILES, run) && IsSettledRun(TWO_FILES, run)
    ensures Ends(run, run, OpPread(5, 1, 0), Data([7]))
    ensures PlainRet(TWO_FILES, Last(run).clients[0].local, OpPread(5, 1, 0)) == Data([9])
  {
    Bytes();
    run := WrongDescriptorClosed();
    run := OpenAnswered(TWO_FILES, run, 7, "/a", 0);
    run := RemoteRead(TWO_FILES, run, OpPread(5, 1, 0));
  }

  lemma WrongDescriptorClosed() returns (run: SysRun)
    ensures IsPoliteRun(TWO_FILES, run) && IsSettledRun(TWO_FILES, run)
    ensures Simple(TWO_FILES, Last(run)) && Last(run).servers[0].files == map[]
    ensures var cl := Last(run).clients[0];
            && 5 in cl.fdMap && cl.redir == map[5 := 0] && cl.local == map[5 := LocalFile("/b", 0)]
            && |cl.threads| == 1 && cl.counters == [1]
  {
    run := OpenLost();
    var m := CloseReq(2, 0, 0);
    run := RemoteClose(TWO_FILES, run, 6);
    assert m in Last(run).net;
    run := ServeClose(TWO_FILES, run, m);
  }

  lemma OpenLost() returns (run: SysRun)
    ensures IsPoliteRun(TWO_FILES, run) && IsSettledRun(TWO_FILES, run)
    ensures Simple(TWO_FILES, Last(run)) && Last(run).next == 2 && Last(run).net == {}
    ensures Last(run).servers[0].files.Keys == {0}
    ensures var cl := Last(run).clients[0];
            && cl.redir == map[5 := 0] && cl.local == map[5 := LocalFile("/b", 0), 6 := LocalFile("/a", 0)]
            && cl.fdMap.Keys == {5, 6} && |cl.threads| == 1 && cl.counters == [1]
  {
    run := OneOpenFile("/b", 0);
    run := OpenTimedOut(TWO_FILES, run, 6, "/a");
    run := Extend(TWO_FILES, run, Lose(OpenReq(1, 0, 0, 0, 6, "/a")));
  }

  // Two servers; the second one has two of the files.
  const TWO_SERVERS: Config := Config(map["/a" := [7, 8], "/b" := [9], "/c" := [5]], 2, path => if path == "/b" then 0 else 1)

  // The reply to a timed-out open arrives after its descriptor was closed, the close being skipped at the limit, and
  // the number reused for a file of the other server: it redirects the new descriptor to whatever has the same number
  // there. Only the clause that a close waits until no reply can come is broken.
  lemma LateReplyMisreads() returns (run: SysRun)
    ensures IsPoliteRun(TWO_SERVERS, run) && IsAwaitingRun(TWO_SERVERS, EVERY, run)
    ensures Ends(run, run, OpPread(5, 1, 0), Data([5]))
    ensures PlainRet(TWO_SERVERS, Last(run).clients[0].local, OpPread(5, 1, 0)) == Data([7])
  {
    Bytes();
    run := NumberReused();
    run := LateReply(run);
    run := RemoteRead(TWO_SERVERS, run, OpPread(5, 1, 0));
  }

  lemma LateReply(run: SysRun) returns (longer: SysRun)
    requires IsSysRun(TWO_SERVERS, run) && Simple(TWO_SERVERS, Last(run)) && OpenReq(1, 0, 0, 0, 5, "/b") in Last(run).net
    requires forall m :: m in Last(run).net ==> !IsReply(m)
    requires 5 in Last(run).clients[0].fdMap && 4 !in Last(run).servers[0].files
    ensures Grows(TWO_SERVERS, run, longer) && Simple(TWO_SERVERS, Last(longer))
    ensures Last(longer).servers[1] == Last(run).servers[1]
    ensures var cl := Last(run).clients[0];
            Last(longer).clients == [cl.(redir := cl.redir[5 := 4], acked := cl.acked + {5})]
  {
    longer := ServeOpen(TWO_SERVERS, run, OpenReq(1, 0, 0, 0, 5, "/b"), 4);
  }

  lemma NumberReused() returns (run: SysRun)
    ensures IsPoliteRun(TWO_SERVERS, run) && IsAwaitingRun(TWO_SERVERS, EVERY, run)
    ensures Simple(TWO_SERVERS, Last(run)) && OpenReq(1, 0, 0, 0, 5, "/b") in Last(run).net
    ensures forall m :: m in Last(run).net ==> !IsReply(m)
    ensures var cl, s := Last(run).clients[0], Last(run);
            && |cl.threads| == 1 && 5 in cl.fdMap && cl.fdMap[5] == "/a" && 5 in cl.local && cl.local[5].path == "/a"
            && cl.counters == [3, 0] && 5 in cl.acked && 4 !in s.servers[0].files
            && 4 in s.servers[1].files && s.servers[1].files[4].data == [5]
  {
    run := ClosedAtLimit();
    run := OpenAnswered(TWO_SERVERS, run, 5, "/a", 3);
  }

  lemma ClosedAtLimit() returns (run: SysRun)
    ensures IsPoliteRun(TWO_SERVERS, run) && IsAwaitingRun(TWO_SERVERS, EVERY, run)
    ensures Simple(TWO_SERVERS, Last(run)) && OpenReq(1, 0, 0, 0, 5, "/b") in Last(run).net
    ensures forall m :: m in Last(run).net ==> !IsReply(m)
    ensures var cl, s := Last(run).clients[0], Last(run);
            && |cl.threads| == 1 && 5 !in cl.local && cl.counters == [3, 0] && s.servers[0].files == map[]
            && s.servers[1].files == map[4 := OpenFile([5], 0)]
  {
    run := LimitReached();
    run := SkippedClose(TWO_SERVERS, run, 5);
  }

  lemma LimitReached() returns (run: SysRun)
    ensures IsPoliteRun(TWO_SERVERS, run) && IsAwaitingRun(TWO_SERVERS, EVERY, run)
    ensures Simple(TWO_SERVERS, Last(run)) && OpenReq(1, 0, 0, 0, 5, "/b") in Last(run).net
    ensures forall m :: m in Last(run).net ==> !IsReply(m)
    ensures var cl, s := Last(run).clients[0], Last(run);
            && |cl.threads| == 1 && 5 in cl.local && 5 in cl.fdMap && cl.fdMap[5] == "/b"
            && cl.counters == [3, 0] && s.servers[0].files == map[] && s.servers[1].files == map[4 := OpenFile([5], 0)]
  {
    run := SecondTimeOut();
    run := OpenTimedOut(TWO_SERVERS, run, 7, "/b");
  }

  lemma SecondTimeOut() returns (run: SysRun)
    ensures IsPoliteRun(TWO_SERVERS, run) && IsAwaitingRun(TWO_SERVERS, EVERY, run)
    ensures Simple(TWO_SERVERS, Last(run)) && OpenReq(1, 0, 0, 0, 5, "/b") in Last(run).net
    ensures forall m :: m in Last(run).net ==> !IsReply(m)
    ensures var cl, s := Last(run).clients[0], Last(run);
            && |cl.threads| == 1 && cl.local.Keys == {5, 6, 8} && 5 in cl.fdMap && cl.fdMap[5] == "/b"
            && cl.counters == [2, 0] && s.servers[0].files == map[] && s.servers[1].files == map[4 := OpenFile([5], 0)]
  {
    run := FirstTimeOut();
    run := OpenTimedOut(TWO_SERVERS, run, 6, "/b");
  }

  lemma FirstTimeOut() returns (run: SysRun)
    ensures IsPoliteRun(TWO_SERVERS, run) && IsAwaitingRun(TWO_SERVERS, EVERY, run)
    ensures Simple(TWO_SERVERS, Last(run)) && Last(run).net == {OpenReq(1, 0, 0, 0, 5, "/b")}
    ensures var cl, s := Last(run).clients[0], Last(run);
            && |cl.threads| == 1 && cl.local.Keys == {5, 8} && 5 in cl.fdMap && cl.fdMap[5] == "/b"
            && cl.counters == [1, 0] && s.servers[0].files == map[] && s.servers[1].files == map[4 := OpenFile([5], 0)]
  {
    run := OpenAnswered(TWO_SERVERS, Beginning(TWO_SERVERS, 1), 8, "/c", 4);
    run := OpenTimedOut(TWO_SERVERS, run, 5, "/b");
  }

  // Thread 1 closes the descriptor while thread 0 is about to send a positioned read on it. The close erases the
  // redirection, so that the read carries 0: it returns neither the file's byte nor the failure of a closed
  // descriptor, but a byte of another file. Only politeness is broken.
  lemma RacingCloseMisreads() returns (run: SysRun)
    ensures IsAwaitingRun(TWO_FILES, EVERY, run) && IsSettledRun(TWO_FILES, run) && Untroubled(run)
    ensures |Last(run).clients| == 1 && |Last(run).clients[0].threads| == 2
    ensures Last(run).clients[0].threads[0] == Returned(OpPread(5, 1, 0), Data([9]))
    ensures Last(run).clients[0].local == map[6 := LocalFile("/b", 0)]
    ensures var before := map[5 := LocalFile("/a", 0), 6 := LocalFile("/b", 0)];
            && PlainRet(TWO_FILES, before, OpPread(5, 1, 0)) == Data([7])
            && PlainRet(TWO_FILES, Last(run).clients[0].local, OpPread(5, 1, 0)) == Fail
  {
    Bytes();
    run := AboutToRead();
    run := RacingClose(run);
    run := SendAfterClose(run);
  }

  lemma AboutToRead() returns (run: SysRun)
    ensures IsAwaitingRun(TWO_FILES, EVERY, run) && IsSettledRun(TWO_FILES, run) && Untroubled(run)
    ensures |Last(run).clients| == 1 && |Last(run).servers| == 1 && Last(run).net == {}
    ensures var cl, sv := Last(run).clients[0], Last(run).servers[0];
            && cl.threads == [Passed(OpPread(5, 1, 0), 0), Ready] && cl.counters == [0]
            && 5 in cl.fdMap && 5 in cl.acked && cl.redir == map[5 := 3, 6 := 0]
            && cl.local == map[5 := LocalFile("/a", 0), 6 := LocalFile("/b", 0)]
            && Listening(sv) && 0 in sv.files && sv.files[0].data == [9]
  {
    run := TwoOpenFiles();
    run := CallUse(TWO_FILES, run, OpPread(5, 1, 0));
  }

  // Thread 1 closes descriptor 5 up to its return.
  lemma RacingClose(run: SysRun) returns (longer: SysRun)
    requires IsSysRun(TWO_FILES, run) && |Last(run).clients| == 1
    requires var cl := Last(run).clients[0];
             && |cl.threads| == 2 && cl.threads[0].Passed? && cl.threads[1].Ready? && cl.counters == [0]
             && 5 in cl.fdMap && 5 in cl.local && 5 in cl.acked && Last(run).net == {}
    ensures IsSysRun(TWO_FILES, longer) && |Last(longer).clients| == 1
    ensures IsAwaitingRun(TWO_FILES, EVERY, run) ==> IsAwaitingRun(TWO_FILES, EVERY, longer)
    ensures IsSettledRun(TWO_FILES, run) ==> IsSettledRun(TWO_FILES, longer)
    ensures Untroubled(run) ==> Untroubled(longer)
    ensures Last(longer).servers == Last(run).servers
    ensures var cl, cl' := Last(run).clients[0], Last(longer).clients[0];
            && |cl'.threads| == 2 && cl'.threads[0] == cl.threads[0]
            && cl'.local == cl.local - {5} && cl'.redir == cl.redir - {5}
  {
    longer := Extend(TWO_FILES, run, ClientActs(0, Call(1, OpClose(5), false)));
    longer := Extend(TWO_FILES, longer, ClientSends(0, 1));
  }

  lemma SendAfterClose(run: SysRun) returns (longer: SysRun)
    requires IsSysRun(TWO_FILES, run) && |Last(run).clients| == 1 && |Last(run).servers| == 1
    requires var cl, sv := Last(run).clients[0], Last(run).servers[0];
             && |cl.threads| == 2 && cl.threads[0] == Passed(OpPread(5, 1, 0), 0)
             && 5 !in cl.redir && Listening(sv) && 0 in sv.files && Slice(sv.files[0].data, 0, 1) == [9]
    ensures Grows(TWO_FILES, run, longer) && (Untroubled(run) ==> Untroubled(longer)) && |Last(longer).clients| == 1
    ensures var cl, cl' := Last(run).clients[0], Last(longer).clients[0];
            && |cl'.threads| == 2 && cl'.threads[0] == Returned(OpPread(5, 1, 0), Data([9])) && cl'.local == cl.local
  {
    var s := Last(run);
    var op := OpPread(5, 1, 0);
    longer := Extend(TWO_FILES, run, ClientSends(0, 0));
    assert Last(longer).clients[0].threads[0] == Waiting(op, 0, s.next, None);
    var req := ReadReq(s.next, 0, 0, 0, 5, 0, 1, 0);
    longer := ServeRead(TWO_FILES, longer, req, op);
    longer := DeliverRead(TWO_FILES, longer, s.next, op, Data([9]));
  }
}
