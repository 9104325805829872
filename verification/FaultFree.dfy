// Runs without faults of polite applications keep the whole discipline and are sound for every descriptor, so that all
// processes see plain files throughout.
module FaultFree {
  import opened PlainFile
  import opened Wrappers
  import opened Server
  import opened Client
  import opened System
  import opened ClientTables
  import opened Ownership
  import opened Transparency
  import opened CursorRefinement
  import opened CursorInvariants
  import opened CursorSteps

  // No timeout, crash, loss, failed open or device error; calls travel as they are, and each process seeks on tracked
  // descriptors one at a time.
  predicate Faultless(s: Sys, e: SysEvent) {
    match e
    case ClientActs(c, ce) =>
      !ce.TimeOut? && (ce.Call? && c < |s.clients| && ce.op.fd in s.clients[c].fdMap ==>
        Faithful(ce.op) && (ce.op.OpSeek? ==> NoSeek(s.clients[c])))
    case Serve(m, fd, ok, _) => ok && (m.OpenReq? ==> fd != -1)
    case Crash(_) => false
    case Lose(_) => false
    case _ => true
  }

  ghost predicate AllUp(s: Sys) {
    forall h :: 0 <= h < |s.servers| ==> s.servers[h].up
  }

  ghost predicate NoTimeouts(s: Sys) {
    forall c, h :: 0 <= c < |s.clients| && 0 <= h < |s.clients[c].counters| ==> s.clients[c].counters[h] == 0
  }

  // Requests and replies are still waited for, and closes carry descriptors of opens that succeeded.
  ghost predicate InOrder(s: Sys, m: Msg) {
    if m.CloseReq? then m.remoteFd >= 0 else Matches(s, m)
  }

  ghost predicate AllAwaited(s: Sys) {
    forall m :: m in s.net ==> InOrder(s, m)
  }

  ghost predicate Calm(s: Sys) {
    AllUp(s) && NoTimeouts(s) && AllAwaited(s)
  }

  // ---------------------------------------------------------------- what calm states keep

  lemma CallCounters(cfg: Config, cl: ClientState, e: Client.Event)
    requires cfg.servers > 0 && |cl.counters| == cfg.servers && CanDo(cfg, cl, e) && !e.TimeOut?
    ensures Do(cfg, cl, e).counters == cl.counters
  {
  }

  lemma EventNoTimeouts(cfg: Config, s: Sys, e: SysEvent)
    requires ClientsOk(cfg, s) && NoTimeouts(s) && Enabled(cfg, s, e) && Faultless(s, e)
    ensures NoTimeouts(Next(cfg, s, e))
  {
    if e.ClientActs? || e.ClientSends? || e.Deliver? {
      var c := if e.Deliver? then e.m.c else e.c;
      var ce := if e.Deliver? then AnswerEvent(e.m) else if e.ClientSends? then Send(e.t, s.next) else e.e;
      assert ClientOk(cfg, s.clients[c]);
      CallCounters(cfg, s.clients[c], ce);
      assert Next(cfg, s, e).clients == s.clients[c := Do(cfg, s.clients[c], ce)];
    }
  }

  // A thread that still waits for its answer goes on waiting, for the same request.
  lemma ActKeepsWaiting(cfg: Config, cl: ClientState, e: Client.Event, t: nat)
    requires cfg.servers > 0 && CanDo(cfg, cl, e) && (e.Call? || e.Wake? || e.Return? || e.InitAgain?)
    requires t < |cl.threads| && cl.threads[t].Waiting? && cl.threads[t].answer.None?
    requires cl.threads[t].op.OpSeek? ==> cl.seeksDone == 0
    ensures t < |Do(cfg, cl, e).threads| && Do(cfg, cl, e).threads[t] == cl.threads[t]
  {
  }

  lemma KeptAwaited(cfg: Config, s: Sys, e: SysEvent, m: Msg)
    requires cfg.servers > 0 && Enabled(cfg, s, e) && Faultless(s, e)
    requires !m.CloseReq? && Matches(s, m) && Unanswered(s, m)
    requires s.clients[m.c].threads[m.t].op.OpSeek? ==> s.clients[m.c].seeksDone == 0
    ensures Matches(Next(cfg, s, e), m)
  {
    if e.ClientActs? && e.c == m.c {
      ActKeepsWaiting(cfg, s.clients[e.c], e.e, m.t);
    } else if e.ClientSends? && e.c == m.c {
      SendWaiter(cfg, s.clients[e.c], e.t, s.next);
    } else if e.Deliver? && e.m.c == m.c {
      AnswerKeepsWaiting(cfg, s.clients[m.c], AnswerEvent(e.m), m.t);
    }
  }

  lemma AnswerKeepsWaiting(cfg: Config, cl: ClientState, e: Client.Event, t: nat)
    requires cfg.servers > 0 && (e.OpenAnswer? || e.ReadAnswer? || e.SeekAnswer?)
    requires t < |cl.threads| && cl.threads[t].Waiting?
    ensures var cl' := Do(cfg, cl, e);
            t < |cl'.threads| && cl'.threads[t].Waiting? && cl'.threads[t].id == cl.threads[t].id
  {
  }

  lemma SeekPending(cfg: Config, s: Sys, m: Msg)
    requires SysInv(cfg, EVERY, s) && Sane(EVERY, s) && m in s.net && !m.CloseReq? && Matches(s, m)
    ensures s.clients[m.c].threads[m.t].op.OpSeek? ==> s.clients[m.c].seeksDone == 0
  {
    assert MsgOk(cfg, EVERY, s, m) && SeekAwaited(EVERY, s, m);
    assert Descriptor(m.c, 0) in EVERY;
  }

  lemma SentInOrder(cfg: Config, s: Sys, e: SysEvent)
    requires SysInv(cfg, EVERY, s) && Sane(EVERY, s) && AllUp(s) && Enabled(cfg, s, e) && e.ClientSends?
    ensures InOrder(Next(cfg, s, e), Request(s.clients[e.c], e.c, e.t, s.next))
  {
    var cl := s.clients[e.c];
    var th := cl.threads[e.t];
    assert ClientSane(Of(EVERY, e.c), cl) && ClientOk(cfg, cl) && ThreadOk(cfg, cl, th) && Linked(EVERY, s, e.c, th);
    SendWaiter(cfg, cl, e.t, s.next);
  }

  lemma ReplyInOrder(s: Sys, s': Sys, req: Msg, fd: int, ok: bool, ok2: bool, m: Msg)
    requires !IsReply(req) && req.host < |s.servers| && (req.OpenReq? ==> CanOpen(s.servers[req.host], req.path, fd))
    requires InOrder(s, req) && s'.clients == s.clients && m in Handle(s.servers[req.host], req, fd, ok, ok2).1
    ensures InOrder(s', m)
  {
  }

  lemma NewAwaited(cfg: Config, s: Sys, e: SysEvent, m: Msg)
    requires SysInv(cfg, EVERY, s) && Sane(EVERY, s) && Calm(s) && Enabled(cfg, s, e)
    requires m in Next(cfg, s, e).net && m !in s.net
    ensures InOrder(Next(cfg, s, e), m)
  {
    if e.ClientSends? {
      SentInOrder(cfg, s, e);
    } else {
      ReplyInOrder(s, Next(cfg, s, e), e.m, e.fd, e.ok, e.ok2, m);
    }
  }

  lemma EventAwaited(cfg: Config, s: Sys, e: SysEvent)
    requires SysInv(cfg, EVERY, s) && Sane(EVERY, s) && Calm(s) && Enabled(cfg, s, e) && Faultless(s, e)
    ensures AllAwaited(Next(cfg, s, e))
  {
    var s' := Next(cfg, s, e);
    forall m | m in s'.net
      ensures InOrder(s', m)
    {
      assert m in s.net ==> InOrder(s, m);
      if m !in s.net {
        NewAwaited(cfg, s, e, m);
      } else if !m.CloseReq? {
        SeekPending(cfg, s, m);
        assert Unanswered(s, m);
        KeptAwaited(cfg, s, e, m);
      }
    }
  }

  // The descriptor a sequential read or a close in flight carries is open on its server.
  lemma CarriedDescriptorOpen(cfg: Config, s: Sys, m: Msg)
    requires SysInv(cfg, EVERY, s) && Sane(EVERY, s) && Calm(s) && m in s.net
    requires (m.ReadReq? && m.offset == -1) || m.CloseReq?
    requires m.host < |s.servers|
    ensures m.remoteFd in s.servers[m.host].files
  {
    assert InOrder(s, m);
    if m.CloseReq? {
      assert Owns(cfg, s, InClose(m), m.host, m.remoteFd);
    } else {
      assert s.clients[m.c].threads[m.t].op.fd in Of(EVERY, m.c);
      OwnRequestOwned(cfg, EVERY, s, m);
      assert ClientSane(Of(EVERY, m.c), s.clients[m.c]);
    }
  }

  lemma EventUp(cfg: Config, s: Sys, e: SysEvent)
    requires SysInv(cfg, EVERY, s) && Sane(EVERY, s) && Calm(s) && Enabled(cfg, s, e) && Faultless(s, e)
    ensures AllUp(Next(cfg, s, e))
  {
    if e.Serve? {
      if (e.m.ReadReq? && e.m.offset == -1) || e.m.CloseReq? {
        CarriedDescriptorOpen(cfg, s, e.m);
      }
    } else if e.ServerActs? {
      StepStaysUp(s.servers[e.h], e.step);
    }
  }

  lemma EventCalm(cfg: Config, s: Sys, e: SysEvent)
    requires SysInv(cfg, EVERY, s) && Sane(EVERY, s) && Calm(s) && Enabled(cfg, s, e) && Faultless(s, e)
    ensures Calm(Next(cfg, s, e))
  {
    EventNoTimeouts(cfg, s, e);
    EventAwaited(cfg, s, e);
    EventUp(cfg, s, e);
  }

  // ---------------------------------------------------------------- opens

  // The thread has opened the descriptor and not heard of it yet.
  predicate Opening(th: Thread, fd: int) {
    (th.Passed? || (th.Waiting? && th.answer.None?)) && th.op.OpOpen? && th.op.fd == fd
  }

  // An open that was answered is acknowledged, and every tracked descriptor is acknowledged or being opened.
  ghost predicate OpensHeard(cl: ClientState) {
    && (forall t :: 0 <= t < |cl.threads| && cl.threads[t].Waiting? && cl.threads[t].op.OpOpen? && cl.threads[t].answer.Some? ==>
          cl.threads[t].op.fd in cl.acked)
    && (forall fd :: fd in cl.fdMap && fd !in cl.acked ==>
          exists t :: 0 <= t < |cl.threads| && Opening(cl.threads[t], fd))
  }

  // The requests and replies of opens in flight are those of threads that open their descriptor.
  ghost predicate OpenAwaited(s: Sys, m: Msg) {
    m.OpenReq? || m.OpenReply? ==>
      Matches(s, m) && s.clients[m.c].threads[m.t].op.OpOpen? && s.clients[m.c].threads[m.t].op.fd == m.fd
  }

  ghost predicate AllOpens(s: Sys) {
    && (forall c :: 0 <= c < |s.clients| ==> OpensHeard(s.clients[c]))
    && (forall m :: m in s.net ==> OpenAwaited(s, m))
  }

  lemma CallHeard(cfg: Config, cl: ClientState, t: nat, op: Op, tracked: bool)
    requires cfg.servers > 0 && ClientOk(cfg, cl) && OpensHeard(cl) && CanDo(cfg, cl, Call(t, op, tracked))
    requires op.OpOpen? || Polite(cl, t, op)
    requires forall h :: 0 <= h < |cl.counters| ==> cl.counters[h] == 0
    ensures OpensHeard(DoCall(cfg, cl, t, op, tracked))
  {
    var cl' := DoCall(cfg, cl, t, op, tracked);
    forall fd | fd in cl'.fdMap && fd !in cl'.acked
      ensures exists u :: 0 <= u < |cl'.threads| && Opening(cl'.threads[u], fd)
    {
      if op.OpOpen? && fd == op.fd {
        assert Opening(cl'.threads[t], fd);
      } else {
        var u :| 0 <= u < |cl.threads| && Opening(cl.threads[u], fd);
        assert Opening(cl'.threads[u], fd);
      }
    }
  }

  lemma ActHeard(cfg: Config, cl: ClientState, e: Client.Event)
    requires cfg.servers > 0 && OpensHeard(cl) && CanDo(cfg, cl, e) && (e.Wake? || e.Return? || e.InitAgain?)
    ensures OpensHeard(Do(cfg, cl, e))
  {
    var cl' := Do(cfg, cl, e);
    forall fd | fd in cl'.fdMap && fd !in cl'.acked
      ensures exists u :: 0 <= u < |cl'.threads| && Opening(cl'.threads[u], fd)
    {
      var u :| 0 <= u < |cl.threads| && Opening(cl.threads[u], fd);
      assert Opening(cl'.threads[u], fd);
    }
  }

  lemma SendHeard(cfg: Config, cl: ClientState, t: nat, id: nat)
    requires cfg.servers > 0 && ClientOk(cfg, cl) && OpensHeard(cl) && CanDo(cfg, cl, Send(t, id))
    ensures OpensHeard(DoSend(cfg, cl, t, id))
  {
    var cl' := DoSend(cfg, cl, t, id);
    assert ThreadOk(cfg, cl, cl.threads[t]);
    forall fd | fd in cl'.fdMap && fd !in cl'.acked
      ensures exists u :: 0 <= u < |cl'.threads| && Opening(cl'.threads[u], fd)
    {
      var u :| 0 <= u < |cl.threads| && Opening(cl.threads[u], fd);
      assert Opening(cl'.threads[u], fd);
    }
  }

  lemma AnswerHeard(cfg: Config, cl: ClientState, e: Client.Event)
    requires cfg.servers > 0 && OpensHeard(cl) && (e.OpenAnswer? || e.ReadAnswer? || e.SeekAnswer?)
    requires e.OpenAnswer? ==> e.fd in cl.fdMap && e.t < |cl.threads| && cl.threads[e.t].Waiting? && cl.threads[e.t].op.fd == e.fd
    requires e.ReadAnswer? && e.t < |cl.threads| && cl.threads[e.t].Waiting? && cl.threads[e.t].id == e.id ==>
               !cl.threads[e.t].op.OpOpen?
    ensures OpensHeard(Do(cfg, cl, e))
  {
    var cl' := Do(cfg, cl, e);
    forall fd | fd in cl'.fdMap && fd !in cl'.acked
      ensures exists u :: 0 <= u < |cl'.threads| && Opening(cl'.threads[u], fd)
    {
      var u :| 0 <= u < |cl.threads| && Opening(cl.threads[u], fd);
      assert Opening(cl'.threads[u], fd);
    }
  }

  lemma EventHeard(cfg: Config, s: Sys, e: SysEvent, c: nat)
    requires SysInv(cfg, EVERY, s) && Calm(s) && AllOpens(s) && Enabled(cfg, s, e) && Faultless(s, e) && PoliteCall(s, e)
    requires c < |s.clients|
    ensures c < |Next(cfg, s, e).clients| && OpensHeard(Next(cfg, s, e).clients[c])
  {
    assert ClientOk(cfg, s.clients[c]) && OpensHeard(s.clients[c]);
    match e
    case ClientActs(_, ce) =>
      if e.c == c {
        if ce.Call? {
          CallHeard(cfg, s.clients[c], ce.t, ce.op, ce.tracked);
        } else {
          ActHeard(cfg, s.clients[c], ce);
        }
      }
    case ClientSends(_, t) =>
      if e.c == c {
        SendHeard(cfg, s.clients[c], t, s.next);
      }
    case Deliver(m) =>
      if m.c == c {
        assert OpenAwaited(s, m) && (Matches(s, m) ==> MsgOk(cfg, EVERY, s, m)) && (m.OpenReply? ==> OpenOk(cfg, s, m));
        AnswerHeard(cfg, s.clients[c], AnswerEvent(m));
      }
    case _ =>
  }

  lemma EventOpenAwaited(cfg: Config, s: Sys, e: SysEvent, m: Msg)
    requires SysInv(cfg, EVERY, s) && Sane(EVERY, s) && Calm(s) && AllOpens(s) && Enabled(cfg, s, e) && Faultless(s, e)
    requires m in Next(cfg, s, e).net && (m.OpenReq? || m.OpenReply?)
    ensures OpenAwaited(Next(cfg, s, e), m)
  {
    if m in s.net {
      assert OpenAwaited(s, m) && Unanswered(s, m) && MsgOk(cfg, EVERY, s, m);
      KeptOpenAwaited(cfg, s, e, m);
    } else {
      NewOpenAwaited(cfg, s, e, m);
    }
  }

  lemma NewOpenAwaited(cfg: Config, s: Sys, e: SysEvent, m: Msg)
    requires cfg.servers > 0 && AllOpens(s) && Enabled(cfg, s, e) && m !in s.net && m in Next(cfg, s, e).net
    requires m.OpenReq? || m.OpenReply?
    ensures OpenAwaited(Next(cfg, s, e), m)
  {
    if e.ClientSends? {
      SendWaiter(cfg, s.clients[e.c], e.t, s.next);
    } else {
      assert OpenAwaited(s, e.m);
    }
  }

  lemma KeptOpenAwaited(cfg: Config, s: Sys, e: SysEvent, m: Msg)
    requires cfg.servers > 0 && Enabled(cfg, s, e) && Faultless(s, e)
    requires (m.OpenReq? || m.OpenReply?) && OpenAwaited(s, m) && Unanswered(s, m)
    ensures OpenAwaited(Next(cfg, s, e), m)
  {
    KeptAwaited(cfg, s, e, m);
    if e.ClientActs? && e.c == m.c {
      ActKeepsWaiting(cfg, s.clients[e.c], e.e, m.t);
    } else if e.ClientSends? && e.c == m.c {
      SendWaiter(cfg, s.clients[e.c], e.t, s.next);
    } else if e.Deliver? && e.m.c == m.c {
      AnswerWaiters(cfg, s.clients[m.c], AnswerEvent(e.m));
    }
  }

  lemma EventOpensHeard(cfg: Config, s: Sys, e: SysEvent)
    requires SysInv(cfg, EVERY, s) && Sane(EVERY, s) && Calm(s) && AllOpens(s)
    requires Enabled(cfg, s, e) && Faultless(s, e) && PoliteCall(s, e)
    ensures AllOpens(Next(cfg, s, e))
  {
    var s' := Next(cfg, s, e);
    forall c | 0 <= c < |s'.clients|
      ensures OpensHeard(s'.clients[c])
    {
      EventHeard(cfg, s, e, c);
    }
    forall m | m in s'.net && (m.OpenReq? || m.OpenReply?)
      ensures OpenAwaited(s', m)
    {
      EventOpenAwaited(cfg, s, e, m);
    }
  }

  // A polite application does not act on a descriptor that is being opened, and every other one is acknowledged.
  lemma PoliteIsDisciplined(cfg: Config, s: Sys, e: SysEvent)
    requires SysInv(cfg, EVERY, s) && AllOpens(s) && Enabled(cfg, s, e) && PoliteCall(s, e)
    ensures Disciplined(cfg, EVERY, s, e)
  {
    if Calls(s, e) && e.e.op.fd in s.clients[e.c].fdMap {
      var cl, fd := s.clients[e.c], e.e.op.fd;
      assert OpensHeard(cl);
      assert fd in cl.acked;
      forall m | m in s.net
        ensures !LiveOpen(s, m, e.c, fd)
      {
        assert Live(s, m) ==> OpenOk(cfg, s, m);
      }
    }
  }

  // ---------------------------------------------------------------- soundness

  lemma FaultlessIsSound(cfg: Config, s: Sys, e: SysEvent)
    requires SysInv(cfg, EVERY, s) && Sane(EVERY, s) && Calm(s) && Enabled(cfg, s, e) && Faultless(s, e)
    ensures Sound(cfg, EVERY, s, e)
  {
    if e.Serve? {
      assert InOrder(s, e.m);
      if Sequential(e.m) && e.m.ReadReq? {
        CarriedDescriptorOpen(cfg, s, e.m);
      }
    } else if e.ClientActs? && e.e.Call? {
      var cl := s.clients[e.c];
      assert ClientOk(cfg, cl);
      assert e.e.op.fd in cl.fdMap ==> cl.counters[HostOf(cfg, cl.fdMap[e.e.op.fd])] == 0;
    }
  }

  // All that is asked: descriptors are used while open, and no fault occurs.
  ghost predicate IsFaultlessRun(cfg: Config, run: SysRun) {
    && IsPoliteRun(cfg, run)
    && (forall i :: 0 <= i < |run.events| ==> Faultless(run.states[i], run.events[i]))
  }

  ghost predicate Good(cfg: Config, s: Sys) {
    SysInv(cfg, EVERY, s) && Sane(EVERY, s) && Calm(s) && AllOpens(s)
  }

  lemma GoodStart(cfg: Config, run: SysRun)
    requires IsSysRun(cfg, run)
    ensures Good(cfg, run.states[0])
  {
    InitialInv(cfg, EVERY, run.states[0]);
    RunStarts(cfg, EVERY, run);
  }

  lemma StaysGood(cfg: Config, s: Sys, e: SysEvent)
    requires Good(cfg, s) && Enabled(cfg, s, e) && Faultless(s, e) && PoliteCall(s, e)
    ensures Disciplined(cfg, EVERY, s, e) && Sound(cfg, EVERY, s, e) && Good(cfg, Next(cfg, s, e))
  {
    PoliteIsDisciplined(cfg, s, e);
    FaultlessIsSound(cfg, s, e);
    EventOpensHeard(cfg, s, e);
    EventCalm(cfg, s, e);
    EventSane(cfg, EVERY, s, e);
    EventKeepsSysInv(cfg, EVERY, s, e);
  }

  lemma {:induction false} AlwaysGood(cfg: Config, run: SysRun, i: nat)
    requires IsFaultlessRun(cfg, run) && i < |run.states|
    ensures Good(cfg, run.states[i])
  {
    if i == 0 {
      GoodStart(cfg, run);
    } else {
      AlwaysGood(cfg, run, i - 1);
      StaysGood(cfg, run.states[i - 1], run.events[i - 1]);
    }
  }

  // Without faults politeness is enough: the run keeps the whole discipline, and the cursor theorem applies to it with
  // every descriptor of every process.
  lemma FaultlessRunIsSound(cfg: Config, run: SysRun)
    requires IsFaultlessRun(cfg, run)
    ensures IsDisciplinedRun(cfg, EVERY, run) && IsSoundRun(cfg, EVERY, run)
  {
    forall i | 0 <= i < |run.events|
      ensures Disciplined(cfg, EVERY, run.states[i], run.events[i]) && Sound(cfg, EVERY, run.states[i], run.events[i])
    {
      AlwaysGood(cfg, run, i);
      StaysGood(cfg, run.states[i], run.events[i]);
    }
  }
}
