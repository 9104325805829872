// What the events of a sound run keep about threads, requests and fresh descriptors.
module CursorInvariants {
  import opened PlainFile
  import opened Wrappers
  import opened Server
  import opened Client
  import opened System
  import opened ClientTables
  import opened Ownership
  import opened Transparency
  import opened CursorRefinement

  // ---------------------------------------------------------------- one client

  ghost predicate OneSeek(cl: ClientState) {
    forall t, u :: 0 <= t < |cl.threads| && 0 <= u < |cl.threads| && Seeking(cl.threads[t]) && Seeking(cl.threads[u]) ==>
      t == u
  }

  ghost predicate ThreadSane(mine: iset<int>, cl: ClientState, th: Thread) {
    && ((th.Passed? || th.Waiting?) && th.op.fd in mine ==> Faithful(th.op))
    && (th.Passed? && th.op.OpOpen? && th.op.fd in mine ==> th.op.fd in cl.local && cl.local[th.op.fd].cursor == 0)
    && (th.Waiting? && th.op.OpRead? && th.answer.Some? ==> th.answer.value.Data?)
  }

  // Acknowledged descriptors in mine are real ones, and the threads are in order.
  ghost predicate ClientSane(mine: iset<int>, cl: ClientState) {
    && (forall fd :: fd in mine && fd in cl.acked ==> fd in cl.redir && cl.redir[fd] >= 0)
    && (forall t :: 0 <= t < |cl.threads| ==> ThreadSane(mine, cl, cl.threads[t]))
  }

  lemma CallSane(cfg: Config, mine: iset<int>, cl: ClientState, t: nat, op: Op, tracked: bool)
    requires cfg.servers > 0 && ClientOk(cfg, cl) && ClientSane(mine, cl)
    requires CanDo(cfg, cl, Call(t, op, tracked)) && (op.OpOpen? || Polite(cl, t, op))
    requires op.fd in cl.fdMap && op.fd in mine ==> Faithful(op)
    ensures ClientSane(mine, DoCall(cfg, cl, t, op, tracked))
  {
  }

  lemma ActSane(cfg: Config, mine: iset<int>, cl: ClientState, e: Client.Event)
    requires cfg.servers > 0 && ClientOk(cfg, cl) && ClientSane(mine, cl) && CanDo(cfg, cl, e)
    requires e.Wake? || e.TimeOut? || e.Return? || e.InitAgain?
    ensures ClientSane(mine, Do(cfg, cl, e))
  {
    var cl' := Do(cfg, cl, e);
    assert cl'.acked == cl.acked && cl'.redir == cl.redir;
    forall t | 0 <= t < |cl'.threads|
      ensures ThreadSane(mine, cl', cl'.threads[t])
    {
      assert ThreadSane(mine, cl, cl.threads[t]) && ThreadOk(cfg, cl, cl.threads[t]);
    }
  }

  lemma SendSane(cfg: Config, mine: iset<int>, cl: ClientState, t: nat, id: nat)
    requires cfg.servers > 0 && ClientOk(cfg, cl) && ClientSane(mine, cl) && CanDo(cfg, cl, Send(t, id))
    ensures ClientSane(mine, DoSend(cfg, cl, t, id))
  {
    var cl' := DoSend(cfg, cl, t, id);
    forall u | 0 <= u < |cl'.threads|
      ensures ThreadSane(mine, cl', cl'.threads[u])
    {
      assert ThreadSane(mine, cl, cl.threads[u]) && ThreadOk(cfg, cl, cl.threads[u]);
    }
  }

  lemma AnswerSane(cfg: Config, mine: iset<int>, cl: ClientState, e: Client.Event)
    requires cfg.servers > 0 && ClientSane(mine, cl)
    requires e.OpenAnswer? || e.ReadAnswer? || e.SeekAnswer?
    requires e.OpenAnswer? && e.fd in mine ==> e.remoteFd >= 0
    requires (!e.SeekAnswer? && e.t < |cl.threads| && cl.threads[e.t].Waiting? && cl.threads[e.t].id == e.id
              && cl.threads[e.t].op.OpRead?) ==> (e.ReadAnswer? && e.ret.Data?)
    ensures ClientSane(mine, Do(cfg, cl, e))
  {
  }

  // The cursor of a descriptor with a live open stays at the start: every read of it is sound only without one.
  lemma CallKeepsFresh(cfg: Config, s: Sys, c: nat, t: nat, op: Op, tracked: bool, fd: int)
    requires cfg.servers > 0 && c < |s.clients| && ClientOk(cfg, s.clients[c])
    requires CanDo(cfg, s.clients[c], Call(t, op, tracked)) && (op.OpOpen? || Polite(s.clients[c], t, op))
    requires var cl := s.clients[c]; fd in cl.fdMap && fd in cl.local && cl.local[fd].cursor == 0
    requires op.OpRead? && op.fd == fd ==> GoesRemote(cfg, s.clients[c], op)
    requires op.fd != fd || !op.OpClose?
    ensures var local := DoCall(cfg, s.clients[c], t, op, tracked).local; fd in local && local[fd].cursor == 0
  {
  }

  lemma ActKeepsFresh(cfg: Config, mine: iset<int>, cl: ClientState, e: Client.Event, fd: int)
    requires cfg.servers > 0 && ClientOk(cfg, cl) && ClientSane(mine, cl) && CanDo(cfg, cl, e)
    requires e.Wake? || e.TimeOut? || e.Return? || e.InitAgain?
    requires fd in mine && fd in cl.local && cl.local[fd].cursor == 0
    requires e.TimeOut? ==> !(cl.threads[e.t].op.OpRead? && cl.threads[e.t].op.fd == fd)
    ensures fd in Do(cfg, cl, e).local && Do(cfg, cl, e).local[fd].cursor == 0
  {
    if e.Wake? || e.TimeOut? {
      assert ThreadSane(mine, cl, cl.threads[e.t]) && ThreadOk(cfg, cl, cl.threads[e.t]);
    }
  }

  // ---------------------------------------------------------------- requests

  ghost predicate UniqueIds(s: Sys) {
    forall m, n :: m in s.net && n in s.net && m.id == n.id ==> m == n
  }

  // Whose message is still in flight has not been answered; the answer to a read carries bytes.
  ghost predicate Unanswered(s: Sys, m: Msg) {
    Matches(s, m) ==>
      && s.clients[m.c].threads[m.t].answer.None?
      && (m.ReadReply? && s.clients[m.c].threads[m.t].op.OpRead? ==> m.ret.Data?)
  }

  // In a process with descriptors in w a seek in flight is the one that is waited for.
  ghost predicate SeekAwaited(w: iset<Descriptor>, s: Sys, m: Msg) {
    (m.SeekReq? || m.SeekReply?) && m.c < |s.clients| && Watches(w, m.c) ==>
      Matches(s, m) && s.clients[m.c].seeksDone == 0
  }

  // A descriptor on its way to its client has not been read, nor has its local twin.
  ghost predicate FreshOpen(w: iset<Descriptor>, s: Sys, m: Msg) {
    (m.OpenReply? || (m.OpenReq? && Up(s, m.host))) && m.c < |s.clients| && Descriptor(m.c, m.fd) in w ==>
      && m.fd in s.clients[m.c].local && s.clients[m.c].local[m.fd].cursor == 0
      && (m.OpenReply? ==>
            && m.remoteFd >= 0
            && (Up(s, m.host) && m.remoteFd in s.servers[m.host].files ==>
                  s.servers[m.host].files[m.remoteFd].cursor == 0))
  }

  ghost predicate MsgsSane(w: iset<Descriptor>, s: Sys) {
    forall m :: m in s.net ==> Unanswered(s, m) && SeekAwaited(w, s, m) && FreshOpen(w, s, m)
  }

  ghost predicate ClientsSane(w: iset<Descriptor>, s: Sys) {
    forall c :: 0 <= c < |s.clients| ==> ClientSane(Of(w, c), s.clients[c]) && (Watches(w, c) ==> OneSeek(s.clients[c]))
  }

  ghost predicate Sane(w: iset<Descriptor>, s: Sys) {
    UniqueIds(s) && ClientsSane(w, s) && MsgsSane(w, s)
  }

  lemma EventUniqueIds(cfg: Config, s: Sys, e: SysEvent)
    requires cfg.servers > 0 && UniqueIds(s) && Numbered(s) && Enabled(cfg, s, e)
    ensures UniqueIds(Next(cfg, s, e))
  {
  }

  // ---------------------------------------------------------------- server descriptors

  datatype Place = Place(h: nat, r: int)

  // The descriptors of w keep their cursors, but for one.
  ghost predicate Steady(cfg: Config, w: iset<Descriptor>, s: Sys, s': Sys, moved: Option<Place>)
    requires cfg.servers > 0
  {
    && (forall h: nat :: Up(s', h) ==> Up(s, h))
    && (forall h: nat, r :: Held(cfg, w, s, h, r) && Up(s', h) && r in s'.servers[h].files && moved != Some(Place(h, r)) ==>
          r in s.servers[h].files && s'.servers[h].files[r].cursor == s.servers[h].files[r].cursor)
  }

  // A request of w carries the descriptor of its own caller.
  lemma OwnRequestOwned(cfg: Config, w: iset<Descriptor>, s: Sys, m: Msg)
    requires SysInv(cfg, w, s) && m in s.net && Sequential(m) && OwnRequest(w, s, m) && Up(s, m.host)
    ensures var op := s.clients[m.c].threads[m.t].op;
            && op.fd in s.clients[m.c].acked
            && Owns(cfg, s, Entry(m.c, op.fd), m.host, m.remoteFd)
            && KindOk(op, m)
            && (m.ReadReq? ==> m.count == op.count && m.offset == WireOffset(op))
            && (m.SeekReq? ==> m.delta == Int32(op.delta) && m.whence == op.whence)
  {
    var cl := s.clients[m.c];
    var th := cl.threads[m.t];
    assert MsgOk(cfg, w, s, m);
    assert ClientOk(cfg, cl) && ThreadOk(cfg, cl, th) && Linked(w, s, m.c, th);
  }

  // Where all calls await their opens, a request is unsound only if its caller no longer waits for it, so that its
  // descriptor may belong to another by now, or if it is retried.
  lemma UnsoundIsStray(cfg: Config, w: iset<Descriptor>, s: Sys, m: Msg, ok: bool, ok2: bool)
    requires SysInv(cfg, EVERY, s) && m in s.net && Sequential(m) && Up(s, m.host)
    requires !SoundRequest(cfg, w, s, m, ok, ok2)
    ensures !Matches(s, m) || (m.ReadReq? && Retried(s.servers[m.host], m, ok, ok2))
  {
    if Matches(s, m) {
      assert s.clients[m.c].threads[m.t].op.fd in Of(EVERY, m.c);
      OwnRequestOwned(cfg, EVERY, s, m);
      assert FilesCoherent(cfg.pfs, s.servers[m.host]);
    }
  }

  // The descriptor of w that the event moves.
  ghost function Moved(w: iset<Descriptor>, s: Sys, m: Msg): Option<Place> {
    if Sequential(m) && OwnRequest(w, s, m) then Some(Place(m.host, m.remoteFd)) else None
  }

  // What a handler does to the files of its server.
  lemma HandleFiles(sv: ServerState, m: Msg, fd: int, ok: bool, ok2: bool)
    requires !IsReply(m) && sv.up && (m.OpenReq? ==> CanOpen(sv, m.path, fd))
    ensures var sv' := Handle(sv, m, fd, ok, ok2).0;
            sv'.up ==> forall r :: r in sv'.files && !(Sequential(m) && MovedBy(sv, m, ok, ok2) == Some(r)) ==>
                         if r in sv.files then sv'.files[r] == sv.files[r] else m.OpenReq? && r == fd && fd >= 0
  {
  }

  // What is held on a running server is open there.
  lemma HeldOpen(cfg: Config, w: iset<Descriptor>, s: Sys, h: nat, r: int)
    requires cfg.servers > 0 && Backed(cfg, s) && Held(cfg, w, s, h, r) && Up(s, h) && r >= 0
    ensures r in s.servers[h].files
  {
  }

  lemma ServeSteady(cfg: Config, w: iset<Descriptor>, s: Sys, e: SysEvent)
    requires SysInv(cfg, w, s) && Enabled(cfg, s, e) && Sound(cfg, w, s, e) && e.Serve?
    ensures Steady(cfg, w, s, Next(cfg, s, e), Moved(w, s, e.m))
  {
    var s', m := Next(cfg, s, e), e.m;
    HandleFiles(s.servers[m.host], m, e.fd, e.ok, e.ok2);
    forall h: nat, r | Held(cfg, w, s, h, r) && Up(s', h) && r in s'.servers[h].files && Moved(w, s, m) != Some(Place(h, r))
      ensures r in s.servers[h].files && s'.servers[h].files[r].cursor == s.servers[h].files[r].cursor
    {
      if h == m.host && r !in s.servers[h].files {
        HeldOpen(cfg, w, s, h, r);
      }
    }
  }

  lemma OtherSteady(cfg: Config, w: iset<Descriptor>, s: Sys, e: SysEvent)
    requires cfg.servers > 0 && Enabled(cfg, s, e) && !e.Serve?
    ensures Steady(cfg, w, s, Next(cfg, s, e), None)
  {
    if e.ServerActs? {
      StepStaysUp(s.servers[e.h], e.step);
    }
  }

  // ---------------------------------------------------------------- each event

  lemma InitialSane(cfg: Config, w: iset<Descriptor>, s: Sys)
    requires Initial(cfg, s)
    ensures Sane(w, s)
  {
  }

  lemma ClientActSane(cfg: Config, w: iset<Descriptor>, s: Sys, e: SysEvent)
    requires SysInv(cfg, w, s) && Sane(w, s) && Enabled(cfg, s, e) && Disciplined(cfg, w, s, e)
    requires Sound(cfg, w, s, e) && e.ClientActs?
    ensures ClientsSane(w, Next(cfg, s, e))
  {
    var cl, mine := s.clients[e.c], Of(w, e.c);
    assert ClientOk(cfg, cl);
    assert ClientSane(mine, cl);
    if e.e.Call? {
      CallSane(cfg, mine, cl, e.e.t, e.e.op, e.e.tracked);
      if Watches(w, e.c) {
        CallOneSeek(cfg, cl, e.e.t, e.e.op, e.e.tracked);
      }
    } else {
      ActSane(cfg, mine, cl, e.e);
      if Watches(w, e.c) {
        ActOneSeek(cfg, cl, e.e);
      }
    }
  }

  lemma CallOneSeek(cfg: Config, cl: ClientState, t: nat, op: Op, tracked: bool)
    requires cfg.servers > 0 && OneSeek(cl) && CanDo(cfg, cl, Call(t, op, tracked))
    requires op.OpSeek? && op.fd in cl.fdMap ==> NoSeek(cl)
    ensures OneSeek(DoCall(cfg, cl, t, op, tracked))
  {
  }

  lemma ActOneSeek(cfg: Config, cl: ClientState, e: Client.Event)
    requires cfg.servers > 0 && OneSeek(cl) && CanDo(cfg, cl, e) && !e.Call?
    ensures OneSeek(Do(cfg, cl, e))
  {
    var cl' := Do(cfg, cl, e);
    assert forall t :: 0 <= t < |cl'.threads| && Seeking(cl'.threads[t]) ==> Seeking(cl.threads[t]);
  }

  lemma EventClientsSane(cfg: Config, w: iset<Descriptor>, s: Sys, e: SysEvent)
    requires SysInv(cfg, w, s) && Sane(w, s) && Enabled(cfg, s, e) && Disciplined(cfg, w, s, e)
    requires Sound(cfg, w, s, e)
    ensures ClientsSane(w, Next(cfg, s, e))
  {
    match e
    case ClientActs(_, _) => ClientActSane(cfg, w, s, e);
    case ClientSends(c, t) =>
      assert ClientOk(cfg, s.clients[c]) && ClientSane(Of(w, c), s.clients[c]);
      SendSane(cfg, Of(w, c), s.clients[c], t, s.next);
      if Watches(w, c) {
        ActOneSeek(cfg, s.clients[c], Send(t, s.next));
      }
    case Deliver(m) => DeliverClientSane(cfg, w, s, m);
    case _ =>
      assert Next(cfg, s, e).clients == s.clients;
  }

  lemma DeliverClientSane(cfg: Config, w: iset<Descriptor>, s: Sys, m: Msg)
    requires SysInv(cfg, w, s) && Sane(w, s) && Enabled(cfg, s, Deliver(m))
    ensures ClientsSane(w, Next(cfg, s, Deliver(m)))
  {
    assert ClientSane(Of(w, m.c), s.clients[m.c]);
    assert Unanswered(s, m) && FreshOpen(w, s, m) && (Matches(s, m) ==> MsgOk(cfg, w, s, m));
    AnswerSane(cfg, Of(w, m.c), s.clients[m.c], AnswerEvent(m));
    if Watches(w, m.c) {
      ActOneSeek(cfg, s.clients[m.c], AnswerEvent(m));
    }
  }

  // ---------------------------------------------------------------- unanswered requests

  // Thread t of the client waits for the same request as before, still without an answer.
  predicate StillWaits(cl: ClientState, cl': ClientState, t: nat) {
    t < |cl'.threads| && cl'.threads[t].Waiting? ==>
      t < |cl.threads| && cl.threads[t].Waiting?
      && cl'.threads[t].id == cl.threads[t].id && cl'.threads[t].op == cl.threads[t].op
      && cl'.threads[t].answer == cl.threads[t].answer
  }

  lemma ActStillWaits(cfg: Config, cl: ClientState, e: Client.Event, t: nat)
    requires cfg.servers > 0 && CanDo(cfg, cl, e)
    requires e.Call? || e.Wake? || e.TimeOut? || e.Return? || e.InitAgain?
    ensures StillWaits(cl, Do(cfg, cl, e), t)
  {
  }

  lemma SendStillWaits(cfg: Config, cl: ClientState, t: nat, id: nat, u: nat)
    requires CanDo(cfg, cl, Send(t, id))
    ensures u < |cl.threads| && DoSend(cfg, cl, t, id).threads[u].Waiting? && DoSend(cfg, cl, t, id).threads[u].id != id ==>
              StillWaits(cl, DoSend(cfg, cl, t, id), u)
  {
  }

  lemma AnswerStillWaits(cfg: Config, cl: ClientState, e: Client.Event, t: nat)
    requires cfg.servers > 0 && (e.OpenAnswer? || e.ReadAnswer? || e.SeekAnswer?)
    ensures var cl' := Do(cfg, cl, e);
            t < |cl'.threads| && cl'.threads[t].Waiting? ==>
              && t < |cl.threads| && cl.threads[t].Waiting? && cl'.threads[t].id == cl.threads[t].id
              && (e.SeekAnswer? || e.t != t || e.id != cl.threads[t].id ==> StillWaits(cl, cl', t))
  {
  }

  lemma EventUnanswered(cfg: Config, w: iset<Descriptor>, s: Sys, e: SysEvent)
    requires SysInv(cfg, w, s) && Sane(w, s) && Enabled(cfg, s, e)
    ensures forall m :: m in Next(cfg, s, e).net ==> Unanswered(Next(cfg, s, e), m)
  {
    var s' := Next(cfg, s, e);
    forall m | m in s'.net
      ensures Unanswered(s', m)
    {
      if m in s.net {
        assert Unanswered(s, m);
        KeptUnanswered(cfg, s, e, m);
      } else {
        NewUnanswered(cfg, w, s, e, m);
      }
    }
  }

  lemma KeptUnanswered(cfg: Config, s: Sys, e: SysEvent, m: Msg)
    requires cfg.servers > 0 && UniqueIds(s) && Numbered(s) && Enabled(cfg, s, e)
    requires m in s.net && m in Next(cfg, s, e).net && Unanswered(s, m)
    ensures Unanswered(Next(cfg, s, e), m)
  {
    if m.CloseReq? {
      return;
    }
    if e.ClientActs? && e.c == m.c {
      ActStillWaits(cfg, s.clients[e.c], e.e, m.t);
    } else if e.ClientSends? && e.c == m.c {
      SendStillWaits(cfg, s.clients[e.c], e.t, s.next, m.t);
    } else if e.Deliver? && e.m.c == m.c {
      AnswerStillWaits(cfg, s.clients[m.c], AnswerEvent(e.m), m.t);
    }
  }

  lemma NewUnanswered(cfg: Config, w: iset<Descriptor>, s: Sys, e: SysEvent, m: Msg)
    requires SysInv(cfg, w, s) && Enabled(cfg, s, e)
    requires forall n :: n in s.net ==> Unanswered(s, n)
    requires m !in s.net && m in Next(cfg, s, e).net
    ensures Unanswered(Next(cfg, s, e), m)
  {
    if e.Serve? {
      assert Unanswered(s, e.m) && (Matches(s, e.m) ==> MsgOk(cfg, w, s, e.m));
      ReplyUnanswered(s, Next(cfg, s, e), e.m, e.fd, e.ok, e.ok2, m);
    }
  }

  lemma ReplyUnanswered(s: Sys, s': Sys, req: Msg, fd: int, ok: bool, ok2: bool, m: Msg)
    requires !IsReply(req) && req.host < |s.servers| && (req.OpenReq? ==> CanOpen(s.servers[req.host], req.path, fd))
    requires Unanswered(s, req) && s'.clients == s.clients
    requires Matches(s, req) && req.ReadReq? && s.clients[req.c].threads[req.t].op.OpRead? ==> req.offset == -1
    requires m in Handle(s.servers[req.host], req, fd, ok, ok2).1
    ensures Unanswered(s', m)
  {
  }

  // ---------------------------------------------------------------- seeks

  lemma EventSeekAwaited(cfg: Config, w: iset<Descriptor>, s: Sys, e: SysEvent)
    requires SysInv(cfg, w, s) && Sane(w, s) && Enabled(cfg, s, e)
    ensures forall m :: m in Next(cfg, s, e).net ==> SeekAwaited(w, Next(cfg, s, e), m)
  {
    var s' := Next(cfg, s, e);
    forall m | m in s'.net && (m.SeekReq? || m.SeekReply?) && m.c < |s'.clients| && Watches(w, m.c)
      ensures SeekAwaited(w, s', m)
    {
      assert OneSeek(s.clients[m.c]);
      if m in s.net {
        assert SeekAwaited(w, s, m) && MsgOk(cfg, w, s, m);
        KeptSeekAwaited(cfg, w, s, e, m);
      } else {
        NewSeekAwaited(cfg, w, s, e, m);
      }
    }
  }

  lemma NewSeekAwaited(cfg: Config, w: iset<Descriptor>, s: Sys, e: SysEvent, m: Msg)
    requires cfg.servers > 0 && Enabled(cfg, s, e) && m !in s.net && m in Next(cfg, s, e).net
    requires forall n :: n in s.net ==> SeekAwaited(w, s, n)
    ensures SeekAwaited(w, Next(cfg, s, e), m)
  {
    if e.Serve? {
      assert SeekAwaited(w, s, e.m);
    }
  }

  // A seek that is waited for stays so, until another seek or its own answer comes.
  lemma SeekStays(cfg: Config, cl: ClientState, e: Client.Event, t: nat)
    requires cfg.servers > 0 && CanDo(cfg, cl, e) && OneSeek(cl)
    requires t < |cl.threads| && cl.threads[t].Waiting? && cl.threads[t].op.OpSeek? && cl.seeksDone == 0
    requires !e.SeekAnswer? && ((e.OpenAnswer? || e.ReadAnswer?) ==> !(e.t == t && e.id == cl.threads[t].id))
    ensures var cl' := Do(cfg, cl, e);
            t < |cl'.threads| && cl'.threads[t] == cl.threads[t] && cl'.seeksDone == 0
  {
  }

  lemma KeptSeekAwaited(cfg: Config, w: iset<Descriptor>, s: Sys, e: SysEvent, m: Msg)
    requires cfg.servers > 0 && Enabled(cfg, s, e) && UniqueIds(s)
    requires m in s.net && m in Next(cfg, s, e).net && (m.SeekReq? || m.SeekReply?)
    requires Matches(s, m) && s.clients[m.c].seeksDone == 0 && s.clients[m.c].threads[m.t].op.OpSeek?
    requires OneSeek(s.clients[m.c]) && Watches(w, m.c)
    requires MsgsOk(cfg, w, s) && forall n :: n in s.net ==> SeekAwaited(w, s, n)
    ensures SeekAwaited(w, Next(cfg, s, e), m)
  {
    var cl := s.clients[m.c];
    if e.ClientActs? && e.c == m.c {
      SeekStays(cfg, cl, e.e, m.t);
    } else if e.ClientSends? && e.c == m.c {
      SeekStays(cfg, cl, Send(e.t, s.next), m.t);
    } else if e.Deliver? && e.m.c == m.c {
      assert SeekAwaited(w, s, e.m) && (Matches(s, e.m) ==> MsgOk(cfg, w, s, e.m));
      assert !e.m.SeekReply?;
      SeekStays(cfg, cl, AnswerEvent(e.m), m.t);
    }
  }

  // ---------------------------------------------------------------- fresh descriptors

  lemma EventFreshOpen(cfg: Config, w: iset<Descriptor>, s: Sys, e: SysEvent)
    requires SysInv(cfg, w, s) && Sane(w, s) && Enabled(cfg, s, e) && Disciplined(cfg, w, s, e)
    requires Sound(cfg, w, s, e)
    ensures forall m :: m in Next(cfg, s, e).net ==> FreshOpen(w, Next(cfg, s, e), m)
  {
    var s' := Next(cfg, s, e);
    forall m | m in s'.net && Live(s', m) && m.c < |s'.clients| && Descriptor(m.c, m.fd) in w
      ensures FreshOpen(w, s', m)
    {
      if m in s.net {
        LiveBefore(cfg, s, e, m);
        KeptFreshOpen(cfg, w, s, e, m);
      } else {
        NewFreshOpen(cfg, w, s, e, m);
      }
    }
  }

  lemma LiveBefore(cfg: Config, s: Sys, e: SysEvent, m: Msg)
    requires cfg.servers > 0 && Enabled(cfg, s, e) && m in s.net && Live(Next(cfg, s, e), m)
    ensures Live(s, m)
  {
  }

  lemma NewFreshOpen(cfg: Config, w: iset<Descriptor>, s: Sys, e: SysEvent, m: Msg)
    requires cfg.servers > 0 && Sane(w, s) && Enabled(cfg, s, e) && Sound(cfg, w, s, e)
    requires m !in s.net && m in Next(cfg, s, e).net
    ensures FreshOpen(w, Next(cfg, s, e), m)
  {
    if e.ClientSends? {
      assert ClientSane(Of(w, e.c), s.clients[e.c]);
      assert ThreadSane(Of(w, e.c), s.clients[e.c], s.clients[e.c].threads[e.t]);
    } else {
      assert FreshOpen(w, s, e.m);
    }
  }

  lemma KeptFreshOpen(cfg: Config, w: iset<Descriptor>, s: Sys, e: SysEvent, m: Msg)
    requires SysInv(cfg, w, s) && Sane(w, s) && Enabled(cfg, s, e) && Disciplined(cfg, w, s, e)
    requires Sound(cfg, w, s, e)
    requires m in s.net && m in Next(cfg, s, e).net && Live(s, m) && m.c < |s.clients| && Descriptor(m.c, m.fd) in w
    ensures FreshOpen(w, Next(cfg, s, e), m)
  {
    assert FreshOpen(w, s, m);
    assert OpenOk(cfg, s, m);
    match e
    case ClientActs(_, _) => ActFreshOpen(cfg, w, s, e, m);
    case ClientSends(_, _) => SendFreshOpen(cfg, w, s, e, m);
    case Deliver(_) => DeliverFreshOpen(cfg, w, s, e, m);
    case Serve(req, _, _, _) =>
      ServeSteady(cfg, w, s, e);
      if Moved(w, s, req).Some? && req.host == m.host {
        OwnRequestOwned(cfg, w, s, req);
        ServeFreshOpen(cfg, w, s, Next(cfg, s, e), Moved(w, s, req), Entry(req.c, s.clients[req.c].threads[req.t].op.fd), m);
      } else {
        ServeFreshOpen(cfg, w, s, Next(cfg, s, e), Moved(w, s, req), InReply(m), m);
      }
    case _ =>
      OtherSteady(cfg, w, s, e);
      SteadyFreshOpen(cfg, w, s, Next(cfg, s, e), m);
  }

  lemma DeliverFreshOpen(cfg: Config, w: iset<Descriptor>, s: Sys, e: SysEvent, m: Msg)
    requires cfg.servers > 0 && Enabled(cfg, s, e) && e.Deliver? && FreshOpen(w, s, m)
    ensures FreshOpen(w, Next(cfg, s, e), m)
  {
  }

  lemma SteadyFreshOpen(cfg: Config, w: iset<Descriptor>, s: Sys, s': Sys, m: Msg)
    requires cfg.servers > 0 && Steady(cfg, w, s, s', None) && s'.clients == s.clients && FreshOpen(w, s, m)
    requires m in s.net && Live(s, m) && Descriptor(m.c, m.fd) in w
    ensures FreshOpen(w, s', m)
  {
    if m.OpenReply? {
      assert Owns(cfg, s, InReply(m), m.host, m.remoteFd);
    }
  }

  lemma ActFreshOpen(cfg: Config, w: iset<Descriptor>, s: Sys, e: SysEvent, m: Msg)
    requires SysInv(cfg, w, s) && ClientsSane(w, s) && Enabled(cfg, s, e) && Disciplined(cfg, w, s, e)
    requires Sound(cfg, w, s, e) && e.ClientActs?
    requires m in s.net && Live(s, m) && m.c < |s.clients| && Descriptor(m.c, m.fd) in w && FreshOpen(w, s, m)
    requires m.fd in s.clients[m.c].fdMap
    ensures FreshOpen(w, Next(cfg, s, e), m)
  {
    if e.c == m.c {
      var cl := s.clients[e.c];
      assert ClientOk(cfg, cl) && ClientSane(Of(w, e.c), cl);
      assert LiveOpen(s, m, e.c, m.fd);
      if e.e.Call? {
        CallKeepsFresh(cfg, s, e.c, e.e.t, e.e.op, e.e.tracked, m.fd);
      } else {
        ActKeepsFresh(cfg, Of(w, e.c), cl, e.e, m.fd);
      }
    }
  }

  lemma SendFreshOpen(cfg: Config, w: iset<Descriptor>, s: Sys, e: SysEvent, m: Msg)
    requires SysInv(cfg, w, s) && Enabled(cfg, s, e) && e.ClientSends?
    requires m in s.net && Live(s, m) && m.c < |s.clients| && Descriptor(m.c, m.fd) in w && FreshOpen(w, s, m)
    ensures FreshOpen(w, Next(cfg, s, e), m)
  {
    assert Linked(w, s, e.c, s.clients[e.c].threads[e.t]);
    assert LiveOpen(s, m, m.c, m.fd);
  }

  // The request moves the descriptor of its own caller, which a reply in flight does not share.
  lemma ServeFreshOpen(cfg: Config, w: iset<Descriptor>, s: Sys, s': Sys, moved: Option<Place>, k: Token, m: Msg)
    requires cfg.servers > 0 && Sole(cfg, s) && s'.clients == s.clients && Steady(cfg, w, s, s', moved)
    requires m in s.net && Live(s, m) && m.c < |s.clients| && Descriptor(m.c, m.fd) in w && FreshOpen(w, s, m)
    requires moved.Some? && moved.value.h == m.host ==> k.Entry? && Owns(cfg, s, k, m.host, moved.value.r)
    ensures FreshOpen(w, s', m)
  {
    if m.OpenReply? {
      assert Owns(cfg, s, InReply(m), m.host, m.remoteFd);
    }
  }

  // ---------------------------------------------------------------- together

  lemma EventSane(cfg: Config, w: iset<Descriptor>, s: Sys, e: SysEvent)
    requires SysInv(cfg, w, s) && Sane(w, s) && Enabled(cfg, s, e) && Disciplined(cfg, w, s, e)
    requires Sound(cfg, w, s, e)
    ensures Sane(w, Next(cfg, s, e))
  {
    EventUniqueIds(cfg, s, e);
    EventClientsSane(cfg, w, s, e);
    EventUnanswered(cfg, w, s, e);
    EventSeekAwaited(cfg, w, s, e);
    EventFreshOpen(cfg, w, s, e);
  }
}
