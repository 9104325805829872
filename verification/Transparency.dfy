// A wrapped positioned read returns the bytes of the file, whichever way it is served.
module Transparency {
  import opened PlainFile
  import opened Wrappers
  import opened Server
  import opened Client
  import opened System
  import opened ClientTables
  import opened Ownership

  // The message belongs to the request its thread is waiting for.
  predicate Matches(s: Sys, m: Msg) {
    && !m.CloseReq? && m.c < |s.clients| && m.t < |s.clients[m.c].threads|
    && s.clients[m.c].threads[m.t].Waiting? && s.clients[m.c].threads[m.t].id == m.id
  }

  predicate KindOk(op: Op, m: Msg) {
    && (m.OpenReq? || m.OpenReply? ==> op.OpOpen?)
    && (m.ReadReq? || m.ReadReply? ==> op.OpRead? || op.OpPread?)
    && (m.SeekReq? || m.SeekReply? ==> op.OpSeek?)
  }

  // The offset a read travels with.
  function WireOffset(op: Op): int
    requires op.OpRead? || op.OpPread?
  {
    if op.OpRead? then -1 else op.offset
  }

  predicate IsPread(op: Op) {
    op.OpPread? && op.offset != -1
  }

  // What the plain file answers to the positioned read.
  function Plain(cfg: Config, cl: ClientState, op: Op): Ret
    requires op.OpPread? && op.fd in cl.local
  {
    PlainRet(cfg, cl.local, op)
  }

  predicate Honest(cfg: Config, cl: ClientState, op: Op, ret: Ret)
    requires op.OpPread? && op.fd in cl.local
  {
    ret == Fail || ret == Plain(cfg, cl, op)
  }

  // A request waited for names the descriptor its client still has; an answer waited for is honest.
  ghost predicate MsgOk(cfg: Config, w: iset<Descriptor>, s: Sys, m: Msg)
    requires Matches(s, m)
  {
    var cl := s.clients[m.c];
    var op := cl.threads[m.t].op;
    && KindOk(op, m)
    && (m.ReadReq? ==>
          && m.fd == op.fd && m.host == cl.threads[m.t].host && m.count == op.count && m.offset == WireOffset(op)
          && (op.fd in Of(w, m.c) && Up(s, m.host) ==> op.fd in cl.redir && m.remoteFd == cl.redir[op.fd]))
    && (m.SeekReq? ==>
          && m.host == cl.threads[m.t].host && m.delta == Int32(op.delta) && m.whence == op.whence
          && (op.fd in Of(w, m.c) && Up(s, m.host) ==> op.fd in cl.redir && m.remoteFd == cl.redir[op.fd]))
    && (m.ReadReply? && IsPread(op) && op.fd in Of(w, m.c) ==> op.fd in cl.local && Honest(cfg, cl, op, m.ret))
  }

  ghost predicate PreadOk(cfg: Config, mine: iset<int>, cl: ClientState, th: Thread) {
    && (th.Waiting? && IsPread(th.op) && th.op.fd in mine && th.answer.Some? ==>
          th.op.fd in cl.local && Honest(cfg, cl, th.op, th.answer.value))
    && (th.Returned? && IsPread(th.op) && th.op.fd in mine ==> th.op.fd in cl.local && th.ret == Plain(cfg, cl, th.op))
  }

  // ---------------------------------------------------------------- one client

  ghost predicate PreadsOk(cfg: Config, mine: iset<int>, cl: ClientState) {
    forall t :: 0 <= t < |cl.threads| ==> PreadOk(cfg, mine, cl, cl.threads[t])
  }

  lemma CallPreads(cfg: Config, mine: iset<int>, cl: ClientState, t: nat, op: Op, tracked: bool)
    requires cfg.servers > 0 && ClientOk(cfg, cl) && PreadsOk(cfg, mine, cl)
    requires CanDo(cfg, cl, Call(t, op, tracked)) && (op.OpOpen? || Polite(cl, t, op))
    ensures PreadsOk(cfg, mine, DoCall(cfg, cl, t, op, tracked))
  {
  }

  lemma ActPreads(cfg: Config, mine: iset<int>, cl: ClientState, e: Client.Event)
    requires cfg.servers > 0 && ClientOk(cfg, cl) && PreadsOk(cfg, mine, cl) && CanDo(cfg, cl, e)
    requires e.Wake? || e.TimeOut? || e.Return? || e.InitAgain?
    ensures PreadsOk(cfg, mine, Do(cfg, cl, e))
  {
  }

  lemma SendPreads(cfg: Config, mine: iset<int>, cl: ClientState, t: nat, id: nat)
    requires cfg.servers > 0 && ClientOk(cfg, cl) && PreadsOk(cfg, mine, cl) && CanDo(cfg, cl, Send(t, id))
    ensures PreadsOk(cfg, mine, DoSend(cfg, cl, t, id))
  {
  }

  lemma AnswerPreads(cfg: Config, mine: iset<int>, cl: ClientState, e: Client.Event)
    requires cfg.servers > 0 && ClientOk(cfg, cl) && PreadsOk(cfg, mine, cl)
    requires e.OpenAnswer? || e.ReadAnswer? || e.SeekAnswer?
    requires !e.SeekAnswer? && e.t < |cl.threads| && cl.threads[e.t].Waiting? && cl.threads[e.t].id == e.id
             && IsPread(cl.threads[e.t].op) && cl.threads[e.t].op.fd in mine ==>
               e.ReadAnswer? && cl.threads[e.t].op.fd in cl.local && Honest(cfg, cl, cl.threads[e.t].op, e.ret)
    ensures PreadsOk(cfg, mine, Do(cfg, cl, e))
  {
  }

  // Thread t still waits for the same request, with the same descriptor behind it.
  predicate SameWait(cl: ClientState, cl': ClientState, t: nat, but: Option<int>) {
    t < |cl'.threads| && cl'.threads[t].Waiting? ==>
      && t < |cl.threads| && cl.threads[t].Waiting?
      && cl'.threads[t].id == cl.threads[t].id && cl'.threads[t].op == cl.threads[t].op
      && cl'.threads[t].host == cl.threads[t].host
      && var fd := cl.threads[t].op.fd;
         && (fd in cl.redir && but != Some(fd) ==> fd in cl'.redir && cl'.redir[fd] == cl.redir[fd])
         && (fd in cl.local ==> fd in cl'.local && cl'.local[fd].path == cl.local[fd].path)
  }

  lemma CallWaits(cfg: Config, cl: ClientState, t: nat, op: Op, tracked: bool, u: nat)
    requires cfg.servers > 0 && ClientOk(cfg, cl) && CanDo(cfg, cl, Call(t, op, tracked))
    requires op.OpOpen? || Polite(cl, t, op)
    ensures SameWait(cl, DoCall(cfg, cl, t, op, tracked), u, None)
  {
  }

  lemma ActWaits(cfg: Config, cl: ClientState, e: Client.Event, u: nat)
    requires cfg.servers > 0 && ClientOk(cfg, cl) && CanDo(cfg, cl, e)
    requires e.Wake? || e.TimeOut? || e.Return? || e.InitAgain?
    ensures SameWait(cl, Do(cfg, cl, e), u, None)
  {
  }

  lemma SendWaits(cfg: Config, cl: ClientState, t: nat, id: nat, u: nat)
    requires cfg.servers > 0 && ClientOk(cfg, cl) && CanDo(cfg, cl, Send(t, id)) && u != t
    ensures SameWait(cl, DoSend(cfg, cl, t, id), u, None)
  {
  }

  lemma AnswerWaits(cfg: Config, cl: ClientState, e: Client.Event, u: nat)
    requires cfg.servers > 0 && (e.OpenAnswer? || e.ReadAnswer? || e.SeekAnswer?)
    ensures SameWait(cl, Do(cfg, cl, e), u, if e.OpenAnswer? then Some(e.fd) else None)
  {
  }

  // ---------------------------------------------------------------- the whole system

  ghost predicate Numbered(s: Sys) {
    && (forall m :: m in s.net ==> m.id < s.next)
    && (forall c, t :: 0 <= c < |s.clients| && 0 <= t < |s.clients[c].threads| && s.clients[c].threads[t].Waiting? ==>
          s.clients[c].threads[t].id < s.next)
  }

  ghost predicate MsgsOk(cfg: Config, w: iset<Descriptor>, s: Sys) {
    forall m :: m in s.net && Matches(s, m) ==> MsgOk(cfg, w, s, m)
  }

  ghost predicate AllPreadsOk(cfg: Config, w: iset<Descriptor>, s: Sys) {
    forall c :: 0 <= c < |s.clients| ==> PreadsOk(cfg, Of(w, c), s.clients[c])
  }

  ghost predicate Answers(cfg: Config, w: iset<Descriptor>, s: Sys) {
    Numbered(s) && MsgsOk(cfg, w, s) && AllPreadsOk(cfg, w, s)
  }

  ghost predicate WaitsBelow(cl: ClientState, n: nat) {
    forall t :: 0 <= t < |cl.threads| && cl.threads[t].Waiting? ==> cl.threads[t].id < n
  }

  lemma DoWaitsBelow(cfg: Config, cl: ClientState, e: Client.Event, n: nat)
    requires cfg.servers > 0 && CanDo(cfg, cl, e) && WaitsBelow(cl, n) && (e.Send? ==> e.id < n)
    ensures WaitsBelow(Do(cfg, cl, e), n)
  {
  }

  lemma EventNumbered(cfg: Config, s: Sys, e: SysEvent)
    requires cfg.servers > 0 && Numbered(s) && Enabled(cfg, s, e)
    ensures Numbered(Next(cfg, s, e))
  {
    var s' := Next(cfg, s, e);
    forall c | 0 <= c < |s'.clients|
      ensures WaitsBelow(s'.clients[c], s'.next)
    {
      assert WaitsBelow(s.clients[c], s'.next);
      match e
      case ClientActs(_, ce) => DoWaitsBelow(cfg, s.clients[e.c], ce, s.next);
      case ClientSends(_, t) => DoWaitsBelow(cfg, s.clients[e.c], Send(t, s.next), s'.next);
      case Deliver(m) => DoWaitsBelow(cfg, s.clients[m.c], AnswerEvent(m), s.next);
      case _ =>
    }
  }

  lemma MsgKept(cfg: Config, w: iset<Descriptor>, s: Sys, s': Sys, m: Msg, but: Option<int>)
    requires Matches(s', m) && |s.clients| == |s'.clients|
    requires SameWait(s.clients[m.c], s'.clients[m.c], m.t, but)
    requires MsgOk(cfg, w, s, m)
    requires forall h :: Up(s', h) ==> Up(s, h)
    requires (m.ReadReq? || m.SeekReq?) && s.clients[m.c].threads[m.t].op.fd in Of(w, m.c) ==>
               but != Some(s.clients[m.c].threads[m.t].op.fd) || !Up(s', m.host)
    ensures MsgOk(cfg, w, s', m)
  {
  }

  // A client acts on its own: requests and replies in flight stay as they are.
  lemma ClientActsAnswers(cfg: Config, w: iset<Descriptor>, s: Sys, e: SysEvent)
    requires ClientsOk(cfg, s) && MsgsOk(cfg, w, s) && AllPreadsOk(cfg, w, s) && Enabled(cfg, s, e) && Disciplined(cfg, w, s, e)
    requires e.ClientActs?
    ensures MsgsOk(cfg, w, Next(cfg, s, e)) && AllPreadsOk(cfg, w, Next(cfg, s, e))
  {
    var s' := Next(cfg, s, e);
    var cl := s.clients[e.c];
    assert ClientOk(cfg, cl);
    if e.e.Call? {
      CallPreads(cfg, Of(w, e.c), cl, e.e.t, e.e.op, e.e.tracked);
    } else {
      ActPreads(cfg, Of(w, e.c), cl, e.e);
    }
    forall m | m in s'.net && Matches(s', m)
      ensures MsgOk(cfg, w, s', m)
    {
      if m.c == e.c {
        if e.e.Call? {
          CallWaits(cfg, cl, e.e.t, e.e.op, e.e.tracked, m.t);
        } else {
          ActWaits(cfg, cl, e.e, m.t);
        }
      }
      MsgKept(cfg, w, s, s', m, None);
    }
  }

  lemma SendsAnswers(cfg: Config, w: iset<Descriptor>, s: Sys, e: SysEvent)
    requires ClientsOk(cfg, s) && Answers(cfg, w, s) && Enabled(cfg, s, e) && e.ClientSends?
    ensures MsgsOk(cfg, w, Next(cfg, s, e)) && AllPreadsOk(cfg, w, Next(cfg, s, e))
  {
    var s' := Next(cfg, s, e);
    var cl := s.clients[e.c];
    assert ClientOk(cfg, cl);
    SendPreads(cfg, Of(w, e.c), cl, e.t, s.next);
    var sent := Request(cl, e.c, e.t, s.next);
    forall m | m in s'.net && Matches(s', m)
      ensures MsgOk(cfg, w, s', m)
    {
      if m != sent {
        assert m in s.net && m.id < s.next;
        if m.c == e.c {
          SendWaits(cfg, cl, e.t, s.next, m.t);
        }
        MsgKept(cfg, w, s, s', m, None);
      }
    }
  }

  lemma DeliversAnswers(cfg: Config, w: iset<Descriptor>, s: Sys, e: SysEvent)
    requires ClientsOk(cfg, s) && Opens(cfg, w, s) && Answers(cfg, w, s) && Enabled(cfg, s, e) && e.Deliver?
    ensures MsgsOk(cfg, w, Next(cfg, s, e)) && AllPreadsOk(cfg, w, Next(cfg, s, e))
  {
    var s' := Next(cfg, s, e);
    var cl := s.clients[e.m.c];
    assert ClientOk(cfg, cl);
    var answer := AnswerEvent(e.m);
    assert Matches(s, e.m) ==> MsgOk(cfg, w, s, e.m);
    AnswerPreads(cfg, Of(w, e.m.c), cl, answer);
    var but := if e.m.OpenReply? then Some(e.m.fd) else None;
    forall m | m in s'.net && Matches(s', m)
      ensures MsgOk(cfg, w, s', m)
    {
      if m.c == e.m.c {
        AnswerWaits(cfg, cl, answer, m.t);
        assert ThreadOk(cfg, cl, cl.threads[m.t]) && Linked(w, s, m.c, cl.threads[m.t]);
        assert e.m.OpenReply? ==> OpenOk(cfg, s, e.m);
        MsgKept(cfg, w, s, s', m, but);
      } else {
        MsgKept(cfg, w, s, s', m, None);
      }
    }
  }

  // What a running server answers to a positioned read that is still waited for.
  lemma ServedPreadHonest(cfg: Config, w: iset<Descriptor>, s: Sys, m: Msg, ok: bool)
    requires Basic(cfg, s) && AllLinked(w, s) && Tokens(cfg, s)
    requires m in s.net && Matches(s, m) && MsgOk(cfg, w, s, m) && m.ReadReq?
    requires var op := s.clients[m.c].threads[m.t].op; IsPread(op) && op.fd in Of(w, m.c)
    requires Up(s, m.host)
    ensures var cl := s.clients[m.c];
            var op := cl.threads[m.t].op;
            op.fd in cl.local && Honest(cfg, cl, op, HandlePread(s.servers[m.host], m.remoteFd, m.count, m.offset, ok))
  {
    var cl := s.clients[m.c];
    var th := cl.threads[m.t];
    var sv := s.servers[m.host];
    assert ClientOk(cfg, cl) && ThreadOk(cfg, cl, th) && Linked(w, s, m.c, th);
    assert Inv(cfg.pfs, sv);
    if m.remoteFd in sv.files {
      assert Owns(cfg, s, Entry(m.c, m.fd), m.host, m.remoteFd);
      assert sv.fdToPath[m.remoteFd] == cl.fdMap[m.fd];
    }
  }

  // The reply to a request still waited for is in order.
  lemma ReplyOk(cfg: Config, w: iset<Descriptor>, s: Sys, s': Sys, req: Msg, fd: int, ok: bool, ok2: bool, m: Msg)
    requires Basic(cfg, s) && AllLinked(w, s) && Tokens(cfg, s)
    requires req in s.net && !IsReply(req) && Up(s, req.host) && (req.OpenReq? ==> CanOpen(s.servers[req.host], req.path, fd))
    requires Matches(s, req) && MsgOk(cfg, w, s, req)
    requires m in Handle(s.servers[req.host], req, fd, ok, ok2).1 && s'.clients == s.clients
    ensures Matches(s', m) && MsgOk(cfg, w, s', m)
  {
    if req.ReadReq? && IsPread(s.clients[req.c].threads[req.t].op)
       && s.clients[req.c].threads[req.t].op.fd in Of(w, req.c) {
      ServedPreadHonest(cfg, w, s, req, ok);
    }
  }

  lemma ServesAnswers(cfg: Config, w: iset<Descriptor>, s: Sys, e: SysEvent)
    requires Basic(cfg, s) && Opens(cfg, w, s) && Tokens(cfg, s) && Answers(cfg, w, s) && Enabled(cfg, s, e) && e.Serve?
    ensures MsgsOk(cfg, w, Next(cfg, s, e)) && AllPreadsOk(cfg, w, Next(cfg, s, e))
  {
    var s' := Next(cfg, s, e);
    var req := e.m;
    forall m | m in s'.net && Matches(s', m)
      ensures MsgOk(cfg, w, s', m)
    {
      if m in s.net {
        MsgKept(cfg, w, s, s', m, None);
      } else {
        ReplyOk(cfg, w, s, s', req, e.fd, e.ok, e.ok2, m);
      }
    }
  }

  lemma RestAnswers(cfg: Config, w: iset<Descriptor>, s: Sys, e: SysEvent)
    requires ClientsOk(cfg, s) && Answers(cfg, w, s) && Enabled(cfg, s, e)
    requires e.ServerActs? || e.Crash? || e.Lose?
    ensures MsgsOk(cfg, w, Next(cfg, s, e)) && AllPreadsOk(cfg, w, Next(cfg, s, e))
  {
    var s' := Next(cfg, s, e);
    forall m | m in s'.net && Matches(s', m)
      ensures MsgOk(cfg, w, s', m)
    {
      MsgKept(cfg, w, s, s', m, None);
    }
  }

  // ---------------------------------------------------------------- every reachable state

  ghost predicate SysInv(cfg: Config, w: iset<Descriptor>, s: Sys) {
    Basic(cfg, s) && Opens(cfg, w, s) && Tokens(cfg, s) && Answers(cfg, w, s)
  }

  lemma InitialInv(cfg: Config, w: iset<Descriptor>, s: Sys)
    requires Initial(cfg, s)
    ensures SysInv(cfg, w, s)
  {
    InitialBasic(cfg, s);
  }

  lemma EventKeepsSysInv(cfg: Config, w: iset<Descriptor>, s: Sys, e: SysEvent)
    requires SysInv(cfg, w, s) && Enabled(cfg, s, e) && Disciplined(cfg, w, s, e)
    ensures SysInv(cfg, w, Next(cfg, s, e))
  {
    EventBasic(cfg, w, s, e);
    EventOpens(cfg, w, s, e);
    EventTokens(cfg, w, s, e);
    EventNumbered(cfg, s, e);
    match e
    case ClientActs(_, _) => ClientActsAnswers(cfg, w, s, e);
    case ClientSends(_, _) => SendsAnswers(cfg, w, s, e);
    case Deliver(_) => DeliversAnswers(cfg, w, s, e);
    case Serve(_, _, _, _) => ServesAnswers(cfg, w, s, e);
    case _ => RestAnswers(cfg, w, s, e);
  }

  lemma {:induction false} Reachable(cfg: Config, w: iset<Descriptor>, run: SysRun, i: nat)
    requires IsDisciplinedRun(cfg, w, run) && i < |run.states|
    ensures SysInv(cfg, w, run.states[i])
  {
    if i == 0 {
      InitialInv(cfg, w, run.states[0]);
    } else {
      Reachable(cfg, w, run, i - 1);
      EventKeepsSysInv(cfg, w, run.states[i - 1], run.events[i - 1]);
    }
  }

  // Whatever the interleaving, the timeouts, losses, crashes and device errors: a positioned read of a descriptor of
  // w at any offset but -1 returns what the file of its descriptor holds there. Only closes, and calls on the
  // descriptors of w, need to await the reply to their open.
  lemma PreadTransparency(cfg: Config, w: iset<Descriptor>, run: SysRun, i: nat, c: nat, t: nat)
    requires IsDisciplinedRun(cfg, w, run) && i < |run.states|
    requires c < |run.states[i].clients| && t < |run.states[i].clients[c].threads|
    requires var th := run.states[i].clients[c].threads[t];
             th.Returned? && th.op.OpPread? && th.op.offset != -1 && Descriptor(c, th.op.fd) in w
    ensures var cl := run.states[i].clients[c];
            var th := cl.threads[t];
            && th.op.fd in cl.local && cl.local[th.op.fd].path in cfg.pfs
            && th.ret == Pread(cfg.pfs[cl.local[th.op.fd].path], th.op.count, th.op.offset)
    ensures var cl := run.states[i].clients[c];
            var th := cl.threads[t];
            var file, at, count := cfg.pfs[cl.local[th.op.fd].path], th.op.offset, th.op.count;
            if at < 0 then th.ret == Fail
            else
              && th.ret.Data?
              && |th.ret.bytes| == (if at >= |file| then 0 else if count <= |file| - at then count else |file| - at)
              && (forall k :: 0 <= k < |th.ret.bytes| ==> th.ret.bytes[k] == file[at + k])
  {
    Reachable(cfg, w, run, i);
    var cl := run.states[i].clients[c];
    assert ClientOk(cfg, cl) && PreadOk(cfg, Of(w, c), cl, cl.threads[t]);
    assert ThreadOk(cfg, cl, cl.threads[t]);
  }
}
