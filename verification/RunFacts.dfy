// Facts about every state of every disciplined run that follow from the invariants.
module RunFacts {
  import opened PlainFile
  import opened Wrappers
  import opened Server
  import opened ServerProgress
  import opened Client
  import opened System
  import opened ClientTables
  import opened Ownership
  import opened Transparency

  // ---------------------------------------------------------------- servers

  // In every reachable state the cache of every server is coherent, and so is every open descriptor.
  lemma ServersCoherent(cfg: Config, w: iset<Descriptor>, run: SysRun, i: nat, h: nat)
    requires IsDisciplinedRun(cfg, w, run) && i < |run.states| && h < |run.states[i].servers|
    ensures CacheCoherent(cfg.pfs, run.states[i].servers[h])
    ensures FilesCoherent(cfg.pfs, run.states[i].servers[h])
    ensures Conserved(run.states[i].servers[h])
  {
    Reachable(cfg, w, run, i);
  }

  // In every reachable state of a running server the close handler and the mover are not blocked on each other, a
  // mover asleep over queued paths is about to be woken, and some steps end the close and get the mover through
  // everything enqueued.
  lemma NeverStuck(cfg: Config, w: iset<Descriptor>, run: SysRun, i: nat, h: nat) returns (steps: seq<Step>)
    requires IsDisciplinedRun(cfg, w, run) && i < |run.states| && Up(run.states[i], h)
    ensures var sv := run.states[i].servers[h];
            && !(HandlerBlocked(sv) && MoverBlocked(sv))
            && (sv.moving.Asleep? && sv.queue != [] ==> CanStep(sv, Signal) && Take(sv, Signal).moving.Locking?)
            && AfterSteps(sv, steps).Some?
            && var after := AfterSteps(sv, steps).value;
               && after.closing.Idle? && after.processed == after.enqueued && sv.enqueued <= after.enqueued
               && forall p :: p in after.enqueued ==> p in after.cache || p in sv.failed
  {
    Reachable(cfg, w, run, i);
    var sv := run.states[i].servers[h];
    assert Inv(cfg.pfs, sv);
    steps := MoverCanFinish(cfg.pfs, sv);
    NoDeadlock(cfg.pfs, sv);
  }

  // Nothing closed is forgotten: every path ever enqueued is cached, failed, in hand or queued.
  lemma EnqueuedNotForgotten(cfg: Config, w: iset<Descriptor>, run: SysRun, i: nat, h: nat, p: Path)
    requires IsDisciplinedRun(cfg, w, run) && i < |run.states| && Up(run.states[i], h)
    requires p in run.states[i].servers[h].enqueued
    ensures var sv := run.states[i].servers[h];
            p in sv.cache || p in sv.failed || p in sv.inHand || p in sv.queue
  {
    Reachable(cfg, w, run, i);
    EnqueuedIsAccountedFor(cfg.pfs, run.states[i].servers[h], p);
  }

  // The server answered an open with -1.
  predicate FailedOpen(e: SysEvent, h: nat) {
    e.Serve? && e.m.OpenReq? && e.m.host == h && e.fd == -1
  }

  // A negative descriptor owned on a running server is the -1 of an open that failed there.
  ghost predicate NegativesExplained(cfg: Config, run: SysRun, i: nat)
    requires cfg.servers > 0 && |run.states| == |run.events| + 1 && i < |run.states|
  {
    forall k, h: nat, r :: Owns(cfg, run.states[i], k, h, r) && r < 0 && Up(run.states[i], h) ==>
      r == -1 && exists j :: 0 <= j < i && FailedOpen(run.events[j], h)
  }

  lemma NoneComesUp(cfg: Config, s: Sys, e: SysEvent, h: nat)
    requires cfg.servers > 0 && Enabled(cfg, s, e) && Up(Next(cfg, s, e), h)
    ensures Up(s, h)
  {
  }

  // A token of a running server was there before the event, or in the shape of another.
  lemma TokenOrigin(cfg: Config, w: iset<Descriptor>, s: Sys, e: SysEvent, k: Token, h: nat, r: int) returns (l: Token)
    requires SysInv(cfg, w, s) && Enabled(cfg, s, e) && !(e.Serve? && e.m.OpenReq?)
    requires Owns(cfg, Next(cfg, s, e), k, h, r) && Up(Next(cfg, s, e), h)
    ensures Owns(cfg, s, l, h, r)
  {
    l := k;
    match e
    case ClientActs(_, _) => ClientActTokens(cfg, s, e);
    case ClientSends(c, t) =>
      SendTokens(cfg, w, s, e);
      if k == InClose(Request(s.clients[c], c, t, s.next)) && s.clients[c].threads[t].op.OpClose? {
        l := Entry(c, s.clients[c].threads[t].op.fd);
        assert ThreadOk(cfg, s.clients[c], s.clients[c].threads[t]);
      }
    case Deliver(m) =>
      DeliverTokens(cfg, w, s, e);
      if m.OpenReply? && k == Entry(m.c, m.fd) {
        l := InReply(m);
      }
    case Serve(m, _, _, _) =>
      if m.CloseReq? {
        ServeCloseTokens(cfg, s, e);
      } else {
        QuietServerTokens(cfg, s, e);
      }
    case _ => QuietServerTokens(cfg, s, e);
  }

  // An open that is handled adds one token, for what the open returned.
  lemma OpenTokenOrigin(cfg: Config, s: Sys, e: SysEvent, k: Token, h: nat, r: int)
    requires cfg.servers > 0 && Enabled(cfg, s, e) && e.Serve? && e.m.OpenReq?
    requires Owns(cfg, Next(cfg, s, e), k, h, r)
    ensures Owns(cfg, s, k, h, r) || (e.m.host == h && e.fd == r)
  {
  }

  lemma {:induction false} OnlyFailedOpensNegative(cfg: Config, w: iset<Descriptor>, run: SysRun, i: nat)
    requires IsDisciplinedRun(cfg, w, run) && i < |run.states|
    ensures NegativesExplained(cfg, run, i)
  {
    if i > 0 {
      OnlyFailedOpensNegative(cfg, w, run, i - 1);
      Reachable(cfg, w, run, i - 1);
      var s, e := run.states[i - 1], run.events[i - 1];
      forall k, h: nat, r | Owns(cfg, run.states[i], k, h, r) && r < 0 && Up(run.states[i], h)
        ensures r == -1 && exists j :: 0 <= j < i && FailedOpen(run.events[j], h)
      {
        NoneComesUp(cfg, s, e, h);
        if e.Serve? && e.m.OpenReq? {
          OpenTokenOrigin(cfg, s, e, k, h, r);
          assert Owns(cfg, s, k, h, r) || FailedOpen(run.events[i - 1], h);
        } else {
          var l := TokenOrigin(cfg, w, s, e, k, h, r);
          assert Owns(cfg, s, l, h, r);
        }
      }
    }
  }

  // Closing never closes a descriptor twice: the assertion of the close handler fails exactly for a negative
  // descriptor, and that is the -1 of an open that had failed on this server.
  lemma CloseAssertionIff(cfg: Config, w: iset<Descriptor>, run: SysRun, i: nat, m: Msg, fd: int, ok: bool, ok2: bool)
    requires IsDisciplinedRun(cfg, w, run) && i < |run.states|
    requires m.CloseReq? && Enabled(cfg, run.states[i], Serve(m, fd, ok, ok2))
    ensures var sv := run.states[i].servers[m.host];
            HandleClose(sv, m.remoteFd).up <==> 0 <= m.remoteFd
    ensures m.remoteFd < 0 ==> m.remoteFd == -1 && exists j :: 0 <= j < i && FailedOpen(run.events[j], m.host)
  {
    Reachable(cfg, w, run, i);
    OnlyFailedOpensNegative(cfg, w, run, i);
    var s := run.states[i];
    assert Owns(cfg, s, InClose(m), m.host, m.remoteFd);
    assert FilesCoherent(cfg.pfs, s.servers[m.host]);
  }

  // At most one path was added, and not a cached one.
  ghost predicate Enqueues(before: ServerState, after: ServerState) {
    after.enqueued == before.enqueued || exists p :: p !in before.cache && after.enqueued == before.enqueued + [p]
  }

  lemma EventKeepsRecord(cfg: Config, w: iset<Descriptor>, s: Sys, e: SysEvent, h: nat)
    requires SysInv(cfg, w, s) && Enabled(cfg, s, e) && h < |s.servers|
    ensures |Next(cfg, s, e).servers| == |s.servers|
    ensures s.servers[h].cache.Keys <= Next(cfg, s, e).servers[h].cache.Keys
    ensures Enqueues(s.servers[h], Next(cfg, s, e).servers[h])
  {
    if e.Serve? && e.m.host == h {
      HandleKeepsRecord(s.servers[h], e.m, e.fd, e.ok, e.ok2);
    } else if e.ServerActs? && e.h == h {
      TakeKeepsRecord(cfg.pfs, s.servers[h], e.step);
    }
  }

  lemma HandleKeepsRecord(sv: ServerState, m: Msg, fd: int, ok: bool, ok2: bool)
    requires !IsReply(m) && (m.OpenReq? ==> CanOpen(sv, m.path, fd))
    ensures Handle(sv, m, fd, ok, ok2).0.cache == sv.cache && Handle(sv, m, fd, ok, ok2).0.enqueued == sv.enqueued
  {
  }

  lemma TakeKeepsRecord(pfs: map<Path, Bytes>, sv: ServerState, e: Step)
    requires Inv(pfs, sv) && CanStep(sv, e)
    ensures sv.cache.Keys <= Take(sv, e).cache.Keys
    ensures Enqueues(sv, Take(sv, e))
  {
    if e.Push? {
      var p := PathOf(sv, sv.closing.fd);
      assert p !in sv.cache && Take(sv, e).enqueued == sv.enqueued + [p];
    }
  }

  // Once p is cached on a server it stays cached, and p is not enqueued there any more.
  lemma {:induction false} CachingIsPermanent(cfg: Config, w: iset<Descriptor>, run: SysRun, i: nat, j: nat, h: nat, p: Path)
    requires IsDisciplinedRun(cfg, w, run) && i <= j < |run.states|
    requires h < |run.states[i].servers| && p in run.states[i].servers[h].cache
    ensures h < |run.states[j].servers| && p in run.states[j].servers[h].cache
    ensures run.states[i].servers[h].enqueued <= run.states[j].servers[h].enqueued
    ensures p !in run.states[j].servers[h].enqueued[|run.states[i].servers[h].enqueued|..]
    decreases j
  {
    if i < j {
      CachingIsPermanent(cfg, w, run, i, j - 1, h, p);
      Reachable(cfg, w, run, j - 1);
      EventKeepsRecord(cfg, w, run.states[j - 1], run.events[j - 1], h);
      StillAbsent(run.states[i].servers[h].enqueued, run.states[j - 1].servers[h], run.states[j].servers[h], p);
    }
  }

  lemma StillAbsent(first: seq<Path>, before: ServerState, after: ServerState, p: Path)
    requires first <= before.enqueued && p !in before.enqueued[|first|..]
    requires Enqueues(before, after) && p in before.cache
    ensures first <= after.enqueued && p !in after.enqueued[|first|..]
  {
    if after.enqueued != before.enqueued {
      var q :| q !in before.cache && after.enqueued == before.enqueued + [q];
      assert after.enqueued[|first|..] == before.enqueued[|first|..] + [q];
    }
  }

  // ---------------------------------------------------------------- what may happen

  // In any state any server may crash, any message get lost and any reply arrive, any waiting call but a seek time out,
  // and a server that listens take up any request, with its device failing or not.
  lemma AnythingMayHappen(cfg: Config, s: Sys)
    ensures forall h :: 0 <= h < |s.servers| ==> Enabled(cfg, s, Crash(h))
    ensures forall m :: m in s.net ==> Enabled(cfg, s, Lose(m))
    ensures forall m :: m in s.net && IsReply(m) && m.c < |s.clients| ==> Enabled(cfg, s, Deliver(m))
    ensures forall c: nat, t: nat ::
              (c < |s.clients| && t < |s.clients[c].threads| && s.clients[c].threads[t].Waiting?
               && !s.clients[c].threads[t].op.OpSeek? && s.clients[c].threads[t].host < |s.clients[c].counters|)
              ==> Enabled(cfg, s, ClientActs(c, TimeOut(t)))
    ensures forall m, ok, ok2 ::
              (m in s.net && !IsReply(m) && m.host < |s.servers| && Listening(s.servers[m.host])
               && (m.OpenReq? ==> s.servers[m.host].pathLock.Nobody?))
              ==> Enabled(cfg, s, Serve(m, -1, ok, ok2))
  {
  }

  // A message that is lost changes nothing else, and a server that crashes is down and leaves the messages alone.
  lemma FaultsMean(cfg: Config, s: Sys)
    requires cfg.servers > 0
    ensures forall m :: m in s.net ==> Next(cfg, s, Lose(m)) == s.(net := s.net - {m})
    ensures forall h: nat :: h < |s.servers| ==>
              && var s' := Next(cfg, s, Crash(h));
                 && !s'.servers[h].up && s'.net == s.net && s'.clients == s.clients && s'.next == s.next
                 && |s'.servers| == |s.servers| && (forall k :: 0 <= k < |s.servers| && k != h ==> s'.servers[k] == s.servers[k])
  {
  }

  // The request a thread sends carries its call, the offset of a seek cut to 32 bits and a read's place taken by -1.
  lemma RequestMeans(cl: ClientState, c: nat, t: nat, id: nat)
    requires t < |cl.threads| && cl.threads[t].Passed?
    ensures var op, host, m := cl.threads[t].op, cl.threads[t].host, Request(cl, c, t, id);
            var r := if op.fd in cl.redir then cl.redir[op.fd] else 0;
            && (op.OpOpen? ==> m == OpenReq(id, c, t, host, op.fd, op.path))
            && (op.OpRead? ==> m == ReadReq(id, c, t, host, op.fd, r, op.count, -1))
            && (op.OpPread? ==> m == ReadReq(id, c, t, host, op.fd, r, op.count, op.offset))
            && (op.OpSeek? ==> m.SeekReq? && m == SeekReq(id, c, t, host, r, m.delta, op.whence)
                               && (op.delta - m.delta) % 0x1_0000_0000 == 0)
            && (op.OpClose? ==> m == CloseReq(id, host, r))
  {
  }

  // A positioned read changes no server; its reply has the descriptor's bytes from the offset on, or a failure when the
  // device fails, the descriptor is not open or the offset is negative.
  lemma ServedPreadMeans(cfg: Config, s: Sys, m: Msg, fd: int, ok: bool, ok2: bool) returns (ret: Ret)
    requires cfg.servers > 0 && Enabled(cfg, s, Serve(m, fd, ok, ok2)) && m.ReadReq? && m.offset != -1
    ensures Next(cfg, s, Serve(m, fd, ok, ok2)) == s.(net := s.net - {m} + {ReadReply(m.id, m.c, m.t, ret)})
    ensures var files := s.servers[m.host].files;
            if !ok || m.remoteFd !in files || m.offset < 0 then ret == Fail
            else
              var data := files[m.remoteFd].data;
              && ret.Data?
              && |ret.bytes| == (if m.offset >= |data| then 0
                                 else if m.count <= |data| - m.offset then m.count else |data| - m.offset)
              && (forall i :: 0 <= i < |ret.bytes| ==> ret.bytes[i] == data[m.offset + i])
  {
    ret := HandlePread(s.servers[m.host], m.remoteFd, m.count, m.offset, ok);
    assert s.servers[m.host := s.servers[m.host]] == s.servers;
  }

  // ---------------------------------------------------------------- routing

  // Every request on a descriptor of w, and every close, that goes to a running server carries a descriptor that
  // this server issued for the path of the caller, and that only the caller owns.
  lemma RoutingAffinity(cfg: Config, w: iset<Descriptor>, run: SysRun, i: nat, c: nat, t: nat)
    requires IsDisciplinedRun(cfg, w, run) && i < |run.states|
    requires Enabled(cfg, run.states[i], ClientSends(c, t))
    requires var th := run.states[i].clients[c].threads[t];
             !th.op.OpOpen? && (th.op.OpClose? || Descriptor(c, th.op.fd) in w) && Up(run.states[i], th.host)
    ensures var s := run.states[i];
            var cl, th := s.clients[c], s.clients[c].threads[t];
            var r := RemoteFd(cl, th.op.fd);
            && th.op.fd in cl.fdMap && th.host == HostOf(cfg, cl.fdMap[th.op.fd])
            && 0 <= th.host < cfg.servers
            && cfg.hash(cl.fdMap[th.op.fd]) == cfg.hash(cl.fdMap[th.op.fd]) / cfg.servers * cfg.servers + th.host
            && Request(cl, c, t, s.next).host == th.host && Request(cl, c, t, s.next).remoteFd == r
            && Owns(cfg, s, Entry(c, th.op.fd), th.host, r)
            && (0 <= r ==> r in s.servers[th.host].files && r in s.servers[th.host].fdToPath
                           && s.servers[th.host].fdToPath[r] == cl.fdMap[th.op.fd]
                           && forall k :: Owns(cfg, s, k, th.host, r) ==> k == Entry(c, th.op.fd))
  {
    Reachable(cfg, w, run, i);
    var s := run.states[i];
    var cl, th := s.clients[c], s.clients[c].threads[t];
    assert ClientOk(cfg, cl) && ThreadOk(cfg, cl, th) && Linked(w, s, c, th);
    assert Owns(cfg, s, Entry(c, th.op.fd), th.host, RemoteFd(cl, th.op.fd));
    HostIsRemainder(cfg, cl.fdMap[th.op.fd]);
  }

  // Every request of every disciplined run, opens included and running or not, goes to the server whose number is the
  // remainder of the hash of the caller's path by the number of servers.
  lemma EveryRequestRouted(cfg: Config, w: iset<Descriptor>, run: SysRun, i: nat, c: nat, t: nat)
    requires IsDisciplinedRun(cfg, w, run) && i < |run.states|
    requires Enabled(cfg, run.states[i], ClientSends(c, t))
    ensures var cl := run.states[i].clients[c];
            var m := Request(cl, c, t, run.states[i].next);
            var fd := cl.threads[t].op.fd;
            && m in Next(cfg, run.states[i], ClientSends(c, t)).net
            && fd in cl.fdMap && !m.ReadReply? && !m.SeekReply? && 0 <= m.host < cfg.servers
            && cfg.hash(cl.fdMap[fd]) == cfg.hash(cl.fdMap[fd]) / cfg.servers * cfg.servers + m.host
  {
    Reachable(cfg, w, run, i);
    var cl := run.states[i].clients[c];
    assert ClientOk(cfg, cl) && ThreadOk(cfg, cl, cl.threads[t]);
    HostIsRemainder(cfg, cl.fdMap[cl.threads[t].op.fd]);
  }


  // ---------------------------------------------------------------- conservation of descriptors

  // Every descriptor open on a running server has its owner.
  ghost predicate NoOrphans(cfg: Config, s: Sys)
    requires cfg.servers > 0
  {
    forall h: nat, r :: Up(s, h) && r in s.servers[h].files ==> exists k :: Owns(cfg, s, k, h, r)
  }

  // The events that leave a descriptor open without an owner: losing the message that carries it, and the close
  // that is not sent because the host is at its limit.
  predicate Orphans(cfg: Config, s: Sys, e: SysEvent)
    requires cfg.servers > 0
  {
    || (e.Lose? && (e.m.OpenReply? || e.m.CloseReq?))
    || (e.ClientActs? && e.e.Call? && e.e.op.OpClose? && e.c < |s.clients|
        && e.e.op.fd in s.clients[e.c].acked && !GoesRemote(cfg, s.clients[e.c], e.e.op))
  }

  // What becomes of a token in an event.
  ghost function Successor(s: Sys, e: SysEvent, k: Token): Token {
    if e.Deliver? && e.m.OpenReply? && k == InReply(e.m) then Entry(e.m.c, e.m.fd)
    else if e.ClientSends? && e.c < |s.clients| && e.t < |s.clients[e.c].threads| && s.clients[e.c].threads[e.t].Passed?
            && s.clients[e.c].threads[e.t].op.OpClose? && k == Entry(e.c, s.clients[e.c].threads[e.t].op.fd)
    then InClose(Request(s.clients[e.c], e.c, e.t, s.next))
    else k
  }

  lemma ActConserves(cfg: Config, s: Sys, e: SysEvent, k: Token, h: nat, r: int)
    requires ClientsOk(cfg, s) && Enabled(cfg, s, e) && !Orphans(cfg, s, e) && e.ClientActs?
    requires Owns(cfg, s, k, h, r)
    ensures Owns(cfg, Next(cfg, s, e), k, h, r)
  {
    assert ClientOk(cfg, s.clients[e.c]);
  }

  lemma SendConserves(cfg: Config, s: Sys, e: SysEvent, k: Token, h: nat, r: int)
    requires ClientsOk(cfg, s) && Enabled(cfg, s, e) && e.ClientSends? && Owns(cfg, s, k, h, r)
    ensures Owns(cfg, Next(cfg, s, e), Successor(s, e, k), h, r)
  {
    var cl := s.clients[e.c];
    assert ClientOk(cfg, cl) && ThreadOk(cfg, cl, cl.threads[e.t]);
  }

  lemma DeliverConserves(cfg: Config, w: iset<Descriptor>, s: Sys, e: SysEvent, k: Token, h: nat, r: int)
    requires ClientsOk(cfg, s) && Opens(cfg, w, s) && Enabled(cfg, s, e) && e.Deliver? && Owns(cfg, s, k, h, r)
    ensures Owns(cfg, Next(cfg, s, e), Successor(s, e, k), h, r)
  {
    if e.m.OpenReply? {
      assert OpenOk(cfg, s, e.m);
    }
  }

  // Descriptors open after the server handled the request were open before, but for the one an open issued.
  lemma HandleOpensOnly(sv: ServerState, m: Msg, fd: int, ok: bool, ok2: bool, r: int)
    requires !IsReply(m) && (m.OpenReq? ==> CanOpen(sv, m.path, fd))
    requires r in Handle(sv, m, fd, ok, ok2).0.files && Handle(sv, m, fd, ok, ok2).0.up
    ensures r in sv.files || (m.OpenReq? && r == fd)
    ensures m.CloseReq? ==> r != m.remoteFd
  {
  }

  lemma ServeConserves(cfg: Config, s: Sys, e: SysEvent, h: nat, r: int)
    requires Basic(cfg, s) && NoOrphans(cfg, s) && Enabled(cfg, s, e) && e.Serve?
    requires Up(Next(cfg, s, e), h) && r in Next(cfg, s, e).servers[h].files
    ensures exists k :: Owns(cfg, Next(cfg, s, e), k, h, r)
  {
    var s' := Next(cfg, s, e);
    var m := e.m;
    if h == m.host {
      HandleOpensOnly(s.servers[h], m, e.fd, e.ok, e.ok2, r);
    }
    if h == m.host && m.OpenReq? && r == e.fd {
      assert Owns(cfg, s', InReply(OpenReply(m.id, m.c, m.t, m.host, m.fd, m.path, e.fd)), h, r);
    } else {
      var k :| Owns(cfg, s, k, h, r);
      assert Owns(cfg, s', k, h, r);
    }
  }

  lemma NoServeOpensNothing(cfg: Config, s: Sys, e: SysEvent, h: nat, r: int)
    requires cfg.servers > 0 && Enabled(cfg, s, e) && !e.Serve?
    requires Up(Next(cfg, s, e), h) && r in Next(cfg, s, e).servers[h].files
    ensures Up(s, h) && r in s.servers[h].files
  {
  }

  lemma NoServeConserves(cfg: Config, w: iset<Descriptor>, s: Sys, e: SysEvent, k: Token, h: nat, r: int)
    requires ClientsOk(cfg, s) && Opens(cfg, w, s) && Enabled(cfg, s, e) && !Orphans(cfg, s, e) && !e.Serve?
    requires Owns(cfg, s, k, h, r)
    ensures Owns(cfg, Next(cfg, s, e), Successor(s, e, k), h, r)
  {
    match e
    case ClientActs(_, _) => ActConserves(cfg, s, e, k, h, r);
    case ClientSends(_, _) => SendConserves(cfg, s, e, k, h, r);
    case Deliver(_) => DeliverConserves(cfg, w, s, e, k, h, r);
    case _ =>
  }

  lemma EventConserves(cfg: Config, w: iset<Descriptor>, s: Sys, e: SysEvent)
    requires Basic(cfg, s) && Opens(cfg, w, s) && NoOrphans(cfg, s) && Enabled(cfg, s, e) && !Orphans(cfg, s, e)
    ensures NoOrphans(cfg, Next(cfg, s, e))
  {
    var s' := Next(cfg, s, e);
    forall h: nat, r | Up(s', h) && r in s'.servers[h].files
      ensures exists k :: Owns(cfg, s', k, h, r)
    {
      if e.Serve? {
        ServeConserves(cfg, s, e, h, r);
      } else {
        NoServeOpensNothing(cfg, s, e, h, r);
        var k :| Owns(cfg, s, k, h, r);
        NoServeConserves(cfg, w, s, e, k, h, r);
      }
    }
  }

  // While nothing is lost and no close is skipped at the limit, the open descriptors of a running server and
  // their owners (redirect entries, open replies and closes in flight) correspond one to one.
  lemma {:induction false} DescriptorsConserved(cfg: Config, w: iset<Descriptor>, run: SysRun, i: nat)
    requires IsDisciplinedRun(cfg, w, run) && i < |run.states|
    requires forall j :: 0 <= j < i ==> !Orphans(cfg, run.states[j], run.events[j])
    ensures NoOrphans(cfg, run.states[i]) && Backed(cfg, run.states[i]) && Sole(cfg, run.states[i])
  {
    Reachable(cfg, w, run, i);
    if i > 0 {
      DescriptorsConserved(cfg, w, run, i - 1);
      Reachable(cfg, w, run, i - 1);
      EventConserves(cfg, w, run.states[i - 1], run.events[i - 1]);
    }
  }
}
