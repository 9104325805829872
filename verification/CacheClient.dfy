// The client process as it stands in memory: its tables, the callbacks of its replies, and the wrapped calls, each
// run by one thread while the others stand still. A wrapped call does to the tables what its sequence of events
// does to the state of the model.
module CacheClient {
  import opened PlainFile
  import opened Wrappers
  import opened Client
  import opened System

  // ---------------------------------------------------------------- the events of a wrapped call

  // What the outside world makes of a request: no reply in time, or a reply.
  datatype Outcome =
    | TimedOut
    | Opened(remoteFd: int)
    | Answered(ret: Ret)
    | Sought(pos: int)

  // The process, thread and request number of a call.
  datatype Caller = Caller(c: nat, t: nat, id: nat)

  predicate Fits(op: Op, outcome: Outcome) {
    match op
    case OpOpen(_, _) => outcome.TimedOut? || outcome.Opened?
    case OpRead(_, _) => outcome.TimedOut? || (outcome.Answered? && (outcome.ret.Fail? || outcome.ret.Data?))
    case OpPread(_, _, _) => outcome.TimedOut? || (outcome.Answered? && (outcome.ret.Fail? || outcome.ret.Data?))
    case OpSeek(_, _, _) => outcome.Sought?
    case OpClose(_) => true
  }

  predicate Remote(cfg: Config, c: ClientState, op: Op, tracked: bool)
    requires cfg.servers > 0
  {
    if op.OpOpen? then tracked && !AtLimit(c, HostOf(cfg, op.path)) else GoesRemote(cfg, c, op)
  }

  // The events from the start of the call to the moment its result stands.
  function Script(cfg: Config, c: ClientState, who: Caller, op: Op, tracked: bool, outcome: Outcome): seq<Event>
    requires cfg.servers > 0 && Fits(op, outcome)
  {
    if !Remote(cfg, c, op, tracked) then [Call(who.t, op, tracked)]
    else [Call(who.t, op, tracked), Send(who.t, who.id)] + Rest(who, op, outcome)
  }

  function Rest(who: Caller, op: Op, outcome: Outcome): seq<Event>
    requires Fits(op, outcome)
  {
    if op.OpClose? then []
    else
      match outcome
      case TimedOut => [TimeOut(who.t)]
      case Opened(remoteFd) => [OpenAnswer(who.t, who.id, op.fd, remoteFd), Wake(who.t)]
      case Answered(ret) => [ReadAnswer(who.t, who.id, ret), Wake(who.t)]
      case Sought(pos) => [SeekAnswer(pos), Wake(who.t)]
  }

  // The state after a sequence of events, if all of them can happen.
  function AfterAll(cfg: Config, c: ClientState, events: seq<Event>): Option<ClientState>
    requires cfg.servers > 0
    decreases |events|
  {
    if events == [] then Some(c)
    else if !CanDo(cfg, c, events[0]) then None
    else AfterAll(cfg, Do(cfg, c, events[0]), events[1..])
  }

  // The request the call sends, if it sends one.
  function Sent(cfg: Config, c: ClientState, who: Caller, op: Op, tracked: bool): Option<Msg>
    requires cfg.servers > 0 && CanDo(cfg, c, Call(who.t, op, tracked))
  {
    var called := Do(cfg, c, Call(who.t, op, tracked));
    if called.threads[who.t].Passed? then Some(Request(called, who.c, who.t, who.id)) else None
  }

  lemma AfterOne(cfg: Config, c: ClientState, e: Event)
    requires cfg.servers > 0 && CanDo(cfg, c, e)
    ensures AfterAll(cfg, c, [e]) == Some(Do(cfg, c, e))
  {
    assert AfterAll(cfg, Do(cfg, c, e), [e][1..]) == Some(Do(cfg, c, e));
  }

  lemma AfterCons(cfg: Config, c: ClientState, e: Event, rest: seq<Event>)
    requires cfg.servers > 0 && CanDo(cfg, c, e)
    ensures AfterAll(cfg, c, [e] + rest) == AfterAll(cfg, Do(cfg, c, e), rest)
  {
    assert ([e] + rest)[1..] == rest;
  }

  // ---------------------------------------------------------------- what a script does, call by call

  ghost predicate CanCall(cfg: Config, c: ClientState, who: Caller, op: Op, tracked: bool) {
    cfg.servers > 0 && |c.counters| == cfg.servers && CanDo(cfg, c, Call(who.t, op, tracked))
  }

  // The tables while the call waits for its reply.
  function Waited(cfg: Config, c: ClientState, who: Caller, op: Op): ClientState
    requires cfg.servers > 0 && who.t < |c.threads| && (op.OpOpen? || op.fd in c.fdMap) && !op.OpClose?
  {
    var host := HostOf(cfg, if op.OpOpen? then op.path else c.fdMap[op.fd]);
    var waiting := c.threads[who.t := Waiting(op, host, who.id, None)];
    if op.OpOpen? then Client.Opened(cfg, c, op.fd, op.path, true).(threads := waiting)
    else
      var c1 := c.(threads := waiting, redir := c.redir[op.fd := RemoteFd(c, op.fd)]);
      if op.OpSeek? then c1.(seeksDone := 0, seekRet := -1) else c1
  }

  lemma CallAndSend(cfg: Config, c: ClientState, who: Caller, op: Op, tracked: bool, rest: seq<Event>)
    requires CanCall(cfg, c, who, op, tracked) && Remote(cfg, c, op, tracked) && !op.OpClose?
    ensures AfterAll(cfg, c, [Call(who.t, op, tracked), Send(who.t, who.id)] + rest)
            == AfterAll(cfg, Waited(cfg, c, who, op), rest)
  {
    var call, send := Call(who.t, op, tracked), Send(who.t, who.id);
    assert [call, send] + rest == [call] + ([send] + rest);
    AfterCons(cfg, c, call, [send] + rest);
    AfterCons(cfg, Do(cfg, c, call), send, rest);
    SentState(cfg, c, who, op, tracked);
  }

  lemma SentState(cfg: Config, c: ClientState, who: Caller, op: Op, tracked: bool)
    requires CanCall(cfg, c, who, op, tracked) && Remote(cfg, c, op, tracked) && !op.OpClose?
    ensures DoCall(cfg, c, who.t, op, tracked).threads[who.t].Passed?
    ensures DoSend(cfg, DoCall(cfg, c, who.t, op, tracked), who.t, who.id) == Waited(cfg, c, who, op)
  {
    var c1 := DoCall(cfg, c, who.t, op, tracked);
    assert c1.threads == c.threads[who.t := c1.threads[who.t]];
  }

  lemma Overwrite<T>(s: seq<T>, t: nat, x: T, y: T)
    requires t < |s|
    ensures s[t := x][t := y] == s[t := y]
  {
  }

  lemma AfterTimeOut(cfg: Config, c: ClientState, t: nat)
    requires cfg.servers > 0 && CanDo(cfg, c, TimeOut(t))
    ensures var host := c.threads[t].host;
            AfterAll(cfg, c, [TimeOut(t)])
            == Some(Locally(cfg, c.(counters := c.counters[host := c.counters[host] + 1]), t, c.threads[t].op))
  {
    AfterOne(cfg, c, TimeOut(t));
  }

  lemma AfterAnswer(cfg: Config, c: ClientState, t: nat, id: nat, ret: Ret)
    requires cfg.servers > 0 && t < |c.threads|
    requires c.threads[t].Waiting? && c.threads[t].id == id && c.threads[t].answer.None?
    requires c.threads[t].op.OpRead? || c.threads[t].op.OpPread?
    ensures AfterAll(cfg, c, [ReadAnswer(t, id, ret), Wake(t)])
            == Some(if ret.Fail? then Locally(cfg, c, t, c.threads[t].op)
                    else c.(threads := c.threads[t := Returned(c.threads[t].op, ret)]))
  {
    var e := ReadAnswer(t, id, ret);
    assert [e, Wake(t)] == [e] + [Wake(t)];
    AfterCons(cfg, c, e, [Wake(t)]);
    AfterOne(cfg, Do(cfg, c, e), Wake(t));
    var op, heard := c.threads[t].op, c.threads[t].(answer := Some(ret));
    Overwrite(c.threads, t, heard, Returned(op, ret));
    Overwrite(c.threads, t, heard, Returned(op, PlainRet(cfg, c.local, op)));
  }

  lemma AfterSought(cfg: Config, c: ClientState, t: nat, pos: int)
    requires cfg.servers > 0 && t < |c.threads| && c.threads[t].Waiting? && c.threads[t].op.OpSeek? && c.seeksDone == 0
    ensures AfterAll(cfg, c, [SeekAnswer(pos), Wake(t)])
            == Some(c.(seeksDone := 1, seekRet := pos, threads := c.threads[t := Returned(c.threads[t].op, Pos(pos))]))
  {
    assert [SeekAnswer(pos), Wake(t)] == [SeekAnswer(pos)] + [Wake(t)];
    AfterCons(cfg, c, SeekAnswer(pos), [Wake(t)]);
    AfterOne(cfg, Do(cfg, c, SeekAnswer(pos)), Wake(t));
  }

  lemma AfterOpened(cfg: Config, c: ClientState, t: nat, id: nat, remoteFd: int)
    requires cfg.servers > 0 && t < |c.threads| && c.threads[t].Waiting? && c.threads[t].op.OpOpen?
    requires c.threads[t].id == id && c.threads[t].answer.None? && c.threads[t].op.fd in c.fdMap
    ensures var op := c.threads[t].op;
            AfterAll(cfg, c, [OpenAnswer(t, id, op.fd, remoteFd), Wake(t)])
            == Some(c.(redir := c.redir[op.fd := remoteFd], acked := c.acked + {op.fd},
                       threads := c.threads[t := Returned(op, Done)]))
  {
    var op := c.threads[t].op;
    var e := OpenAnswer(t, id, op.fd, remoteFd);
    assert [e, Wake(t)] == [e] + [Wake(t)];
    AfterCons(cfg, c, e, [Wake(t)]);
    AfterOne(cfg, Do(cfg, c, e), Wake(t));
    Overwrite(c.threads, t, c.threads[t].(answer := Some(Done)), Returned(op, Done));
  }

  // The tables went from before to after, and the call's result is ret, just as in the run of its events.
  ghost predicate DidScript(cfg: Config, before: ClientState, after: ClientState, who: Caller, op: Op, tracked: bool,
                            outcome: Outcome, ret: Ret)
    requires cfg.servers > 0 && Fits(op, outcome) && who.t < |after.threads|
  {
    AfterAll(cfg, before, Script(cfg, before, who, op, tracked, outcome))
    == Some(after.(threads := after.threads[who.t := Returned(op, ret)]))
  }

  // The events of a read or positioned read.
  lemma ReadScript(cfg: Config, c: ClientState, who: Caller, op: Op, outcome: Outcome)
    requires CanCall(cfg, c, who, op, false) && (op.OpRead? || op.OpPread?) && Fits(op, outcome)
    ensures AfterAll(cfg, c, Script(cfg, c, who, op, false, outcome))
            == Some(if !GoesRemote(cfg, c, op) then Locally(cfg, c, who.t, op)
                    else
                      var host := HostOf(cfg, c.fdMap[op.fd]);
                      var c1 := c.(redir := c.redir[op.fd := RemoteFd(c, op.fd)]);
                      if outcome.TimedOut? then
                        Locally(cfg, c1.(counters := c.counters[host := c.counters[host] + 1]), who.t, op)
                      else if outcome.ret.Fail? then Locally(cfg, c1, who.t, op)
                      else c1.(threads := c.threads[who.t := Returned(op, outcome.ret)]))
  {
    if GoesRemote(cfg, c, op) {
      CallAndSend(cfg, c, who, op, false, Rest(who, op, outcome));
      var waited := Waited(cfg, c, who, op);
      Overwrite(c.threads, who.t, waited.threads[who.t], Returned(op, PlainRet(cfg, c.local, op)));
      if outcome.TimedOut? {
        AfterTimeOut(cfg, waited, who.t);
      } else {
        Overwrite(c.threads, who.t, waited.threads[who.t], Returned(op, outcome.ret));
        AfterAnswer(cfg, waited, who.t, who.id, outcome.ret);
      }
    } else {
      AfterOne(cfg, c, Call(who.t, op, false));
    }
  }

  // Whatever way a positioned read goes, when a reply tells the truth or a failure, the call returns what the real
  // call on the local descriptor would, and moves no cursor.
  lemma PreadIsPlain(cfg: Config, c: ClientState, who: Caller, op: Op, outcome: Outcome)
    requires CanCall(cfg, c, who, op, false) && op.OpPread? && Fits(op, outcome)
    requires outcome.Answered? ==> outcome.ret.Fail? || outcome.ret == PlainRet(cfg, c.local, op)
    ensures var after := AfterAll(cfg, c, Script(cfg, c, who, op, false, outcome));
            && after.Some? && after.value.local == c.local
            && after.value.threads == c.threads[who.t := Returned(op, PlainRet(cfg, c.local, op))]
  {
    ReadScript(cfg, c, who, op, outcome);
  }

  // The events of an open that goes to the server.
  lemma OpenScript(cfg: Config, c: ClientState, who: Caller, op: Op, outcome: Outcome)
    requires CanCall(cfg, c, who, op, true) && op.OpOpen? && Fits(op, outcome) && Remote(cfg, c, op, true)
    ensures var host := HostOf(cfg, op.path);
            var c1 := Client.Opened(cfg, c, op.fd, op.path, true).(threads := c.threads[who.t := Returned(op, Done)]);
            AfterAll(cfg, c, Script(cfg, c, who, op, true, outcome))
            == Some(if outcome.TimedOut? then c1.(counters := c.counters[host := c.counters[host] + 1])
                    else c1.(redir := c.redir[op.fd := outcome.remoteFd], acked := c.acked + {op.fd}))
  {
    CallAndSend(cfg, c, who, op, true, Rest(who, op, outcome));
    var waited := Waited(cfg, c, who, op);
    Overwrite(c.threads, who.t, waited.threads[who.t], Returned(op, Done));
    if outcome.TimedOut? {
      AfterTimeOut(cfg, waited, who.t);
    } else {
      AfterOpened(cfg, waited, who.t, who.id, outcome.remoteFd);
      assert c.acked - {op.fd} + {op.fd} == c.acked + {op.fd};
    }
  }

  // The events of a seek that goes to the server.
  lemma SeekScript(cfg: Config, c: ClientState, who: Caller, op: Op, outcome: Outcome)
    requires CanCall(cfg, c, who, op, false) && op.OpSeek? && Fits(op, outcome) && Remote(cfg, c, op, false)
    ensures AfterAll(cfg, c, Script(cfg, c, who, op, false, outcome))
            == Some(c.(redir := c.redir[op.fd := RemoteFd(c, op.fd)], seeksDone := 1, seekRet := outcome.pos,
                       threads := c.threads[who.t := Returned(op, Pos(outcome.pos))]))
  {
    CallAndSend(cfg, c, who, op, false, Rest(who, op, outcome));
    var waited := Waited(cfg, c, who, op);
    Overwrite(c.threads, who.t, waited.threads[who.t], Returned(op, Pos(outcome.pos)));
    AfterSought(cfg, waited, who.t, outcome.pos);
  }

  lemma CloseScript(cfg: Config, c: ClientState, who: Caller, fd: int)
    requires CanCall(cfg, c, who, OpClose(fd), false)
    ensures var op := OpClose(fd);
            AfterAll(cfg, c, Script(cfg, c, who, op, false, TimedOut))
            == Some(Locally(cfg, Forgotten(if GoesRemote(cfg, c, op) then c.(redir := c.redir - {fd}) else c, fd), who.t, op))
  {
    var op := OpClose(fd);
    var call, send := Call(who.t, op, false), Send(who.t, who.id);
    if GoesRemote(cfg, c, op) {
      assert [call, send] + [] == [call] + [send];
      AfterCons(cfg, c, call, [send]);
      AfterOne(cfg, Do(cfg, c, call), send);
      var host := HostOf(cfg, c.fdMap[fd]);
      assert c.threads[who.t := Passed(op, host)][who.t := Returned(op, PlainRet(cfg, c.local, op))]
             == c.threads[who.t := Returned(op, PlainRet(cfg, c.local, op))];
    } else {
      AfterOne(cfg, c, call);
    }
  }

  // ---------------------------------------------------------------- the process

  class CacheClient {
    const cfg: Config
    const client: nat
    var local: Descriptors
    var fdMap: map<int, Path>
    var fdRedirMap: map<int, int>
    var timeoutCounters: seq<nat>
    var done: nat
    var readRet: int
    var mercuryInit: bool
    ghost var acked: set<int>
    // Where the threads stand between the calls.
    ghost const threads: seq<Thread>

    ghost function State(): ClientState
      reads this
    {
      ClientState(local, fdMap, fdRedirMap, timeoutCounters, threads, done, readRet, acked)
    }

    ghost predicate Valid()
      reads this
    {
      cfg.servers > 0 && |timeoutCounters| == cfg.servers
    }

    ghost predicate CanStart(who: Caller, op: Op, tracked: bool)
      reads this
    {
      Valid() && who.c == client && CanCall(cfg, State(), who, op, tracked)
    }

    constructor (cfg: Config, client: nat, ghost threads: nat)
      requires cfg.servers > 0
      ensures this.cfg == cfg && this.client == client && Valid() && State() == Start(cfg, threads)
    {
      this.cfg, this.client := cfg, client;
      local, fdMap, fdRedirMap := map[], map[], map[];
      timeoutCounters := Resize([], cfg.servers);
      done, readRet, mercuryInit := 0, -1, false;
      acked := {};
      this.threads := seq(threads, _ => Ready);
    }

    // -------------------------------------------------------------- tables and counters

    // Called a second time when the first file is tracked: it keeps what has been counted.
    method InitializeTimeoutCounters()
      requires Valid()
      modifies this`timeoutCounters
      ensures Valid() && timeoutCounters == old(timeoutCounters)
    {
      timeoutCounters := Resize(timeoutCounters, cfg.servers);
    }

    method HostAtLimit(path: Path) returns (host: nat, limit: bool)
      requires Valid()
      ensures host == HostOf(cfg, path) && limit == AtLimit(State(), host)
      ensures 0 <= host < cfg.servers && cfg.hash(path) == cfg.hash(path) / cfg.servers * cfg.servers + host
      ensures limit <==> timeoutCounters[host] >= 3
    {
      host := cfg.hash(path) % cfg.servers;
      limit := timeoutCounters[host] >= TIMEOUT_LIMIT;
    }

    method CountTimeout(host: nat)
      requires Valid() && host < cfg.servers
      modifies this`timeoutCounters
      ensures Valid() && timeoutCounters == old(timeoutCounters)[host := old(timeoutCounters)[host] + 1]
    {
      timeoutCounters := timeoutCounters[host := timeoutCounters[host] + 1];
    }

    // fd_redir_map[fd], which inserts 0 when there is no entry.
    method Redirected(fd: int) returns (remoteFd: int)
      modifies this`fdRedirMap
      ensures remoteFd == RemoteFd(old(State()), fd) == if fd in old(fdRedirMap) then old(fdRedirMap)[fd] else 0
      ensures fdRedirMap == old(fdRedirMap)[fd := remoteFd]
    {
      if fd !in fdRedirMap {
        fdRedirMap := fdRedirMap[fd := 0];
      }
      remoteFd := fdRedirMap[fd];
    }

    // -------------------------------------------------------------- callbacks

    method OpenCallback(fd: int, remoteFd: int)
      modifies this`fdRedirMap, this`acked
      ensures fdRedirMap == old(fdRedirMap)[fd := remoteFd]
      ensures acked == if fd in fdMap then old(acked) + {fd} else old(acked)
    {
      fdRedirMap := fdRedirMap[fd := remoteFd];
      if fd in fdMap {
        acked := acked + {fd};
      }
    }

    method SeekCallback(pos: int)
      modifies this`done, this`readRet
      ensures done == old(done) + 1 && readRet == pos
    {
      done := done + 1;
      readRet := pos;
    }

    // -------------------------------------------------------------- local calls

    // The real call on a local descriptor.
    method RealCall(op: Op) returns (ret: Ret)
      requires !op.OpOpen?
      modifies this`local
      ensures ret == PlainRet(cfg, old(local), op) && local == PlainAfter(cfg, old(local), op)
    {
      ret := PlainRet(cfg, local, op);
      local := PlainAfter(cfg, local, op);
    }

    // -------------------------------------------------------------- wrapped calls

    // ftc_track_file: record the descriptor and, below the limit, have the server open the file.
    method TrackFile(who: Caller, fd: int, path: Path, outcome: Outcome) returns (ok: bool, sent: Option<Msg>)
      requires Valid() && Fits(OpOpen(fd, path), outcome)
      modifies this`fdMap, this`fdRedirMap, this`timeoutCounters, this`mercuryInit, this`acked
      ensures Valid() && fdMap == old(fdMap)[fd := path]
      ensures ok <==> !old(AtLimit(State(), HostOf(cfg, path)))
      ensures ok <==> old(timeoutCounters)[cfg.hash(path) % cfg.servers] < 3
      ensures sent.Some? ==> sent.value.OpenReq? && 0 <= sent.value.host < cfg.servers
                             && cfg.hash(path) == cfg.hash(path) / cfg.servers * cfg.servers + sent.value.host
      ensures var host := HostOf(cfg, path);
              && sent == (if ok then Some(OpenReq(who.id, who.c, who.t, host, fd, path)) else None)
              && timeoutCounters == (if ok && outcome.TimedOut? then old(timeoutCounters)[host := old(timeoutCounters)[host] + 1]
                                     else old(timeoutCounters))
      ensures fdRedirMap == if ok && outcome.Opened? then old(fdRedirMap)[fd := outcome.remoteFd] else old(fdRedirMap)
      ensures acked == if ok && outcome.Opened? then old(acked) + {fd} else old(acked)
    {
      fdMap := fdMap[fd := path];
      if !mercuryInit {
        mercuryInit := true;
        InitializeTimeoutCounters();
      }
      var host, limit := HostAtLimit(path);
      if limit {
        return false, None;
      }
      sent := Some(OpenReq(who.id, who.c, who.t, host, fd, path));
      if outcome.TimedOut? {
        CountTimeout(host);
      } else {
        OpenCallback(fd, outcome.remoteFd);
      }
      ok := true;
    }

    // The real open has returned fd; tracked says whether the path lies in the data directory and the flags allow it.
    method Open(who: Caller, fd: int, path: Path, tracked: bool, outcome: Outcome) returns (ret: Ret, sent: Option<Msg>)
      requires CanStart(who, OpOpen(fd, path), tracked) && Fits(OpOpen(fd, path), outcome)
      modifies this
      ensures Valid() && DidScript(cfg, old(State()), State(), who, OpOpen(fd, path), tracked, outcome, ret)
      ensures sent == Sent(cfg, old(State()), who, OpOpen(fd, path), tracked)
      ensures ret == Done && local == old(local)[fd := LocalFile(path, 0)]
      ensures fdMap == if tracked then old(fdMap)[fd := path] else old(fdMap)
    {
      local := local[fd := LocalFile(path, 0)];
      acked := acked - {fd};
      sent := None;
      ret := Done;
      var ok := false;
      if tracked {
        ok, sent := TrackFile(who, fd, path, outcome);
      }
      ghost var op := OpOpen(fd, path);
      if ok {
        OpenScript(cfg, old(State()), who, op, outcome);
        assert old(acked) - {fd} + {fd} == old(acked) + {fd};
      } else {
        AfterOne(cfg, old(State()), Call(who.t, op, tracked));
      }
    }

    // ftc_remote_read and ftc_remote_pread: Fail when the descriptor is not tracked, its host is at the limit, no
    // reply comes in time, or the reply says so.
    method RemoteRead(who: Caller, fd: int, count: Count, offset: int, outcome: Outcome)
      returns (ret: Ret, sent: Option<Msg>)
      requires Valid() && Fits(OpRead(fd, count), outcome)
      modifies this`fdRedirMap, this`timeoutCounters
      ensures Valid()
      ensures var c := old(State());
              if !GoesRemote(cfg, c, OpRead(fd, count)) then
                ret == Fail && sent == None && fdRedirMap == old(fdRedirMap) && timeoutCounters == old(timeoutCounters)
              else
                var host := HostOf(cfg, fdMap[fd]);
                && sent == Some(ReadReq(who.id, who.c, who.t, host, fd, RemoteFd(c, fd), count, offset))
                && fdRedirMap == old(fdRedirMap)[fd := RemoteFd(c, fd)]
                && (if outcome.TimedOut? then
                      ret == Fail && timeoutCounters == old(timeoutCounters)[host := old(timeoutCounters)[host] + 1]
                    else ret == outcome.ret && timeoutCounters == old(timeoutCounters))
      ensures sent.Some? <==> fd in fdMap && old(timeoutCounters)[cfg.hash(fdMap[fd]) % cfg.servers] < 3
      ensures sent.Some? ==> 0 <= sent.value.host < cfg.servers
                             && cfg.hash(fdMap[fd]) == cfg.hash(fdMap[fd]) / cfg.servers * cfg.servers + sent.value.host
      ensures sent.Some? ==> sent.value.remoteFd == if fd in old(fdRedirMap) then old(fdRedirMap)[fd] else 0
    {
      if fd !in fdMap {
        return Fail, None;
      }
      var host, limit := HostAtLimit(fdMap[fd]);
      if limit {
        return Fail, None;
      }
      var remoteFd := Redirected(fd);
      sent := Some(ReadReq(who.id, who.c, who.t, host, fd, remoteFd, count, offset));
      if outcome.TimedOut? {
        CountTimeout(host);
        return Fail, sent;
      }
      ret := outcome.ret;
    }

    method Read(who: Caller, fd: int, count: Count, outcome: Outcome) returns (ret: Ret, sent: Option<Msg>)
      requires CanStart(who, OpRead(fd, count), false) && Fits(OpRead(fd, count), outcome)
      modifies this
      ensures Valid() && DidScript(cfg, old(State()), State(), who, OpRead(fd, count), false, outcome, ret)
      ensures sent == Sent(cfg, old(State()), who, OpRead(fd, count), false)
      ensures if sent.Some? && outcome.Answered? && outcome.ret.Data? then ret == outcome.ret && local == old(local)
              else ret == PlainRet(cfg, old(local), OpRead(fd, count))
                   && local == PlainAfter(cfg, old(local), OpRead(fd, count))
    {
      ret, sent := RemoteRead(who, fd, count, -1, outcome);
      if ret.Fail? {
        ret := RealCall(OpRead(fd, count));
      }
      ReadScript(cfg, old(State()), who, OpRead(fd, count), outcome);
    }

    method Pread(who: Caller, fd: int, count: Count, offset: int, outcome: Outcome) returns (ret: Ret, sent: Option<Msg>)
      requires CanStart(who, OpPread(fd, count, offset), false) && Fits(OpPread(fd, count, offset), outcome)
      modifies this
      ensures Valid() && DidScript(cfg, old(State()), State(), who, OpPread(fd, count, offset), false, outcome, ret)
      ensures sent == Sent(cfg, old(State()), who, OpPread(fd, count, offset), false)
      ensures if sent.Some? && outcome.Answered? && outcome.ret.Data? then ret == outcome.ret && local == old(local)
              else ret == PlainRet(cfg, old(local), OpPread(fd, count, offset))
                   && local == PlainAfter(cfg, old(local), OpPread(fd, count, offset))
    {
      if fd in fdMap {
        ret, sent := RemoteRead(who, fd, count, offset, outcome);
        if ret.Fail? {
          ret := RealCall(OpPread(fd, count, offset));
        }
      } else {
        sent := None;
        ret := RealCall(OpPread(fd, count, offset));
      }
      ReadScript(cfg, old(State()), who, OpPread(fd, count, offset), outcome);
    }

    // Neither the limit is checked nor a timeout possible.
    method Lseek(who: Caller, fd: int, offset: int, whence: int, outcome: Outcome) returns (ret: Ret, sent: Option<Msg>)
      requires CanStart(who, OpSeek(fd, offset, whence), false) && Fits(OpSeek(fd, offset, whence), outcome)
      modifies this
      ensures Valid() && DidScript(cfg, old(State()), State(), who, OpSeek(fd, offset, whence), false, outcome, ret)
      ensures sent == Sent(cfg, old(State()), who, OpSeek(fd, offset, whence), false)
      ensures sent.Some? <==> fd in old(fdMap)
      ensures sent.Some? ==> 0 <= sent.value.host < cfg.servers
                             && cfg.hash(old(fdMap)[fd]) == cfg.hash(old(fdMap)[fd]) / cfg.servers * cfg.servers + sent.value.host && ret == Pos(outcome.pos)
      ensures sent.Some? ==> (offset - sent.value.delta) % 0x1_0000_0000 == 0 && sent.value.whence == whence
      ensures sent.None? ==> ret == PlainRet(cfg, old(local), OpSeek(fd, offset, whence))
    {
      ghost var op := OpSeek(fd, offset, whence);
      if fd in fdMap {
        var host := cfg.hash(fdMap[fd]) % cfg.servers;
        readRet, done := -1, 0;
        var remoteFd := Redirected(fd);
        sent := Some(SeekReq(who.id, who.c, who.t, host, remoteFd, Int32(offset), whence));
        SeekCallback(outcome.pos);
        ret := Pos(readRet);
        SeekScript(cfg, old(State()), who, op, outcome);
      } else {
        sent := None;
        ret := RealCall(OpSeek(fd, offset, whence));
        AfterOne(cfg, old(State()), Call(who.t, op, false));
      }
    }

    // ftc_remote_close sends the close and forgets the redirection; at the limit it does neither.
    method RemoteClose(who: Caller, fd: int) returns (sent: Option<Msg>)
      requires Valid()
      modifies this`fdRedirMap
      ensures sent == (if GoesRemote(cfg, old(State()), OpClose(fd))
                       then Some(CloseReq(who.id, HostOf(cfg, fdMap[fd]), RemoteFd(old(State()), fd))) else None)
      ensures fdRedirMap == if sent.Some? then old(fdRedirMap) - {fd} else old(fdRedirMap)
      ensures sent.Some? <==> fd in fdMap && timeoutCounters[cfg.hash(fdMap[fd]) % cfg.servers] < 3
      ensures sent.Some? ==> 0 <= sent.value.host < cfg.servers
                             && cfg.hash(fdMap[fd]) == cfg.hash(fdMap[fd]) / cfg.servers * cfg.servers + sent.value.host
      ensures sent.Some? ==> sent.value.remoteFd == if fd in old(fdRedirMap) then old(fdRedirMap)[fd] else 0
    {
      if fd !in fdMap {
        return None;
      }
      var host, limit := HostAtLimit(fdMap[fd]);
      if limit {
        return None;
      }
      var remoteFd := Redirected(fd);
      sent := Some(CloseReq(who.id, host, remoteFd));
      fdRedirMap := fdRedirMap - {fd};
    }

    method Close(who: Caller, fd: int) returns (ret: Ret, sent: Option<Msg>)
      requires CanStart(who, OpClose(fd), false)
      modifies this
      ensures Valid() && DidScript(cfg, old(State()), State(), who, OpClose(fd), false, TimedOut, ret)
      ensures sent == Sent(cfg, old(State()), who, OpClose(fd), false)
      ensures fdMap == old(fdMap) - {fd} && local == old(local) - {fd}
    {
      sent := None;
      if fd in fdMap {
        sent := RemoteClose(who, fd);
      }
      fdMap := fdMap - {fd};
      acked := acked - {fd};
      ret := RealCall(OpClose(fd));
      CloseScript(cfg, old(State()), who, fd);
    }
  }
}
