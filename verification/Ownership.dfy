// Who owns which server descriptor. In a disciplined run every live descriptor of a running server belongs to
// one place only: a client's acknowledged redirect entry, an open reply in flight, or a close in flight.
module Ownership {
  import opened PlainFile
  import opened Wrappers
  import opened Server
  import opened Client
  import opened System
  import opened ClientTables

  // ---------------------------------------------------------------- clients and servers one by one

  ghost predicate ClientsOk(cfg: Config, s: Sys) {
    && |s.servers| == cfg.servers && cfg.servers > 0
    && (forall c :: 0 <= c < |s.clients| ==> ClientOk(cfg, s.clients[c]))
  }

  ghost predicate Basic(cfg: Config, s: Sys) {
    && ClientsOk(cfg, s)
    && (forall h :: 0 <= h < |s.servers| ==> Inv(cfg.pfs, s.servers[h]))
    && (forall m :: m in s.net && m.OpenReq? ==> m.path in cfg.pfs)
  }

  lemma InitialBasic(cfg: Config, s: Sys)
    requires Initial(cfg, s)
    ensures Basic(cfg, s)
  {
    forall c | 0 <= c < |s.clients|
      ensures ClientOk(cfg, s.clients[c])
    {
      StartOk(cfg, |s.clients[c].threads|);
    }
    BootInv(cfg.pfs);
  }

  lemma ClientEventBasic(cfg: Config, w: iset<Descriptor>, s: Sys, e: SysEvent)
    requires Basic(cfg, s) && Enabled(cfg, s, e) && Disciplined(cfg, w, s, e)
    requires e.ClientActs? || e.ClientSends? || e.Deliver?
    ensures Basic(cfg, Next(cfg, s, e))
  {
    var s' := Next(cfg, s, e);
    var c := if e.Deliver? then e.m.c else e.c;
    assert ClientOk(cfg, s'.clients[c]) by {
      if e.ClientSends? {
        SendOk(cfg, s.clients[c], e.t, s.next);
      } else if e.Deliver? {
        AnswerOk(cfg, s.clients[c], AnswerEvent(e.m));
      } else if e.e.Call? {
        CallOk(cfg, s.clients[c], e.e.t, e.e.op, e.e.tracked);
      } else {
        OtherOk(cfg, s.clients[c], e.e);
      }
    }
    assert forall d :: 0 <= d < |s'.clients| && d != c ==> s'.clients[d] == s.clients[d];
    if e.ClientSends? {
      assert ThreadOk(cfg, s.clients[c], s.clients[c].threads[e.t]);
    }
  }

  lemma HandleInv(cfg: Config, sv: ServerState, m: Msg, fd: int, ok: bool, ok2: bool)
    requires Inv(cfg.pfs, sv) && !IsReply(m) && Listening(sv)
    requires m.OpenReq? ==> CanOpen(sv, m.path, fd) && m.path in cfg.pfs
    ensures Inv(cfg.pfs, Handle(sv, m, fd, ok, ok2).0)
  {
    match m
    case OpenReq(_, _, _, _, _, path) => OpenKeepsInv(cfg.pfs, sv, path, fd);
    case ReadReq(_, _, _, _, localFd, remoteFd, count, _) =>
      ReadKeepsInv(cfg.pfs, sv, remoteFd, localFd, count, ok, ok2);
    case SeekReq(_, _, _, _, remoteFd, delta, whence) => SeekKeepsInv(cfg.pfs, sv, remoteFd, delta, whence);
    case CloseReq(_, _, remoteFd) => CloseKeepsInv(cfg.pfs, sv, remoteFd);
  }

  lemma ServerEventBasic(cfg: Config, s: Sys, e: SysEvent)
    requires Basic(cfg, s) && Enabled(cfg, s, e)
    requires e.Serve? || e.ServerActs? || e.Crash? || e.Lose?
    ensures Basic(cfg, Next(cfg, s, e))
  {
    match e
    case Serve(m, fd, ok, ok2) => HandleInv(cfg, s.servers[m.host], m, fd, ok, ok2);
    case ServerActs(h, step) => StepKeepsInv(cfg.pfs, s.servers[h], step);
    case Crash(h) => CrashKeepsInv(cfg.pfs, s.servers[h]);
    case Lose(_) =>
  }

  lemma EventBasic(cfg: Config, w: iset<Descriptor>, s: Sys, e: SysEvent)
    requires Basic(cfg, s) && Enabled(cfg, s, e) && Disciplined(cfg, w, s, e)
    ensures Basic(cfg, Next(cfg, s, e))
  {
    if e.ClientActs? || e.ClientSends? || e.Deliver? {
      ClientEventBasic(cfg, w, s, e);
    } else {
      ServerEventBasic(cfg, s, e);
    }
  }

  // ---------------------------------------------------------------- open requests and their replies

  predicate Live(s: Sys, m: Msg) {
    m.OpenReply? || (m.OpenReq? && Up(s, m.host))
  }

  // An open that can still be answered concerns a tracked descriptor not yet acknowledged.
  ghost predicate OpenOk(cfg: Config, s: Sys, m: Msg)
    requires cfg.servers > 0 && Live(s, m)
  {
    && m.c < |s.clients|
    && m.fd in s.clients[m.c].fdMap && s.clients[m.c].fdMap[m.fd] == m.path
    && m.host == HostOf(cfg, m.path)
    && m.fd !in s.clients[m.c].acked
  }

  ghost predicate OpensOk(cfg: Config, s: Sys)
    requires cfg.servers > 0
  {
    && (forall m :: m in s.net && Live(s, m) ==> OpenOk(cfg, s, m))
    && (forall m, n :: m in s.net && n in s.net && Live(s, m) && Live(s, n) && m.c == n.c && m.fd == n.fd ==> m == n)
  }

  // A thread that closes a descriptor on a running server, or uses one of w there, has it acknowledged; none opens
  // or closes a descriptor whose open can still be answered.
  ghost predicate Linked(w: iset<Descriptor>, s: Sys, c: nat, th: Thread)
    requires c < |s.clients|
  {
    && ((th.Passed? || th.Waiting?) && !th.op.OpOpen? && (th.op.OpClose? || th.op.fd in Of(w, c)) ==>
          th.op.fd in s.clients[c].acked || !Up(s, th.host))
    && (th.Passed? && th.op.OpOpen? ==> th.op.fd !in s.clients[c].acked)
    && (th.Passed? && (th.op.OpOpen? || th.op.OpClose?) ==> NoLiveOpen(s, c, th.op.fd))
  }

  ghost predicate AllLinked(w: iset<Descriptor>, s: Sys) {
    forall c, t :: 0 <= c < |s.clients| && 0 <= t < |s.clients[c].threads| ==> Linked(w, s, c, s.clients[c].threads[t])
  }

  ghost predicate Opens(cfg: Config, w: iset<Descriptor>, s: Sys)
    requires cfg.servers > 0
  {
    OpensOk(cfg, s) && AllLinked(w, s)
  }

  lemma CallOpens(cfg: Config, w: iset<Descriptor>, s: Sys, e: SysEvent)
    requires ClientsOk(cfg, s) && Opens(cfg, w, s) && Enabled(cfg, s, e) && Disciplined(cfg, w, s, e)
    requires e.ClientActs? && e.e.Call?
    ensures Opens(cfg, w, Next(cfg, s, e))
  {
    assert ClientOk(cfg, s.clients[e.c]);
    CallOpensOk(cfg, w, s, e);
    CallLinked(cfg, w, s, e);
  }

  lemma CallOpensOk(cfg: Config, w: iset<Descriptor>, s: Sys, e: SysEvent)
    requires cfg.servers > 0 && OpensOk(cfg, s) && Enabled(cfg, s, e) && Disciplined(cfg, w, s, e)
    requires e.ClientActs? && e.e.Call? && ClientOk(cfg, s.clients[e.c])
    ensures OpensOk(cfg, Next(cfg, s, e))
  {
    var s' := Next(cfg, s, e);
    forall m | m in s'.net && Live(s', m)
      ensures OpenOk(cfg, s', m)
    {
      assert OpenOk(cfg, s, m) && LiveOpen(s, m, m.c, m.fd);
    }
  }

  lemma CallLinked(cfg: Config, w: iset<Descriptor>, s: Sys, e: SysEvent)
    requires cfg.servers > 0 && Opens(cfg, w, s) && Enabled(cfg, s, e) && Disciplined(cfg, w, s, e)
    requires e.ClientActs? && e.e.Call? && ClientOk(cfg, s.clients[e.c])
    ensures AllLinked(w, Next(cfg, s, e))
  {
    var s' := Next(cfg, s, e);
    forall c, t | 0 <= c < |s'.clients| && 0 <= t < |s'.clients[c].threads|
      ensures Linked(w, s', c, s'.clients[c].threads[t])
    {
      assert Linked(w, s, c, s.clients[c].threads[t]);
    }
  }

  // The thread has not moved on to a new call that still has to reach a server.
  predicate NoBusier(th: Thread, th': Thread) {
    && (th'.Passed? ==> th' == th)
    && (th'.Waiting? ==> (th.Passed? || th.Waiting?) && th'.op == th.op && th'.host == th.host)
  }

  // Tables as they were, no new live open, no server back up.
  ghost predicate Calmer(s: Sys, s': Sys) {
    && |s'.clients| == |s.clients|
    && (forall c :: 0 <= c < |s.clients| ==>
          && s'.clients[c].fdMap == s.clients[c].fdMap && s'.clients[c].acked == s.clients[c].acked
          && |s'.clients[c].threads| == |s.clients[c].threads|)
    && (forall c, t :: 0 <= c < |s.clients| && 0 <= t < |s.clients[c].threads| ==>
          NoBusier(s.clients[c].threads[t], s'.clients[c].threads[t]))
    && (forall m :: m in s'.net && Live(s', m) ==> m in s.net && Live(s, m))
    && (forall h :: Up(s', h) ==> Up(s, h))
  }

  lemma CalmerOpens(cfg: Config, w: iset<Descriptor>, s: Sys, s': Sys)
    requires cfg.servers > 0 && Opens(cfg, w, s) && Calmer(s, s')
    ensures Opens(cfg, w, s')
  {
    forall c, t | 0 <= c < |s'.clients| && 0 <= t < |s'.clients[c].threads|
      ensures Linked(w, s', c, s'.clients[c].threads[t])
    {
      assert Linked(w, s, c, s.clients[c].threads[t]);
      assert NoBusier(s.clients[c].threads[t], s'.clients[c].threads[t]);
    }
    forall m | m in s'.net && Live(s', m)
      ensures OpenOk(cfg, s', m)
    {
      assert OpenOk(cfg, s, m);
    }
  }

  predicate SendsTableChange(s: Sys, e: SysEvent)
    requires e.ClientSends? && e.c < |s.clients| && e.t < |s.clients[e.c].threads| && s.clients[e.c].threads[e.t].Passed?
  {
    s.clients[e.c].threads[e.t].op.OpOpen? || s.clients[e.c].threads[e.t].op.OpClose?
  }

  lemma ActCalmer(cfg: Config, s: Sys, e: SysEvent)
    requires ClientsOk(cfg, s) && Enabled(cfg, s, e) && e.ClientActs? && !e.e.Call?
    ensures Calmer(s, Next(cfg, s, e))
  {
    assert ClientOk(cfg, s.clients[e.c]);
  }

  lemma DeliverCalmer(cfg: Config, s: Sys, e: SysEvent)
    requires ClientsOk(cfg, s) && Enabled(cfg, s, e) && e.Deliver? && !e.m.OpenReply?
    ensures Calmer(s, Next(cfg, s, e))
  {
  }

  lemma SendCalmer(cfg: Config, s: Sys, e: SysEvent)
    requires ClientsOk(cfg, s) && Enabled(cfg, s, e) && e.ClientSends? && !SendsTableChange(s, e)
    ensures Calmer(s, Next(cfg, s, e))
  {
  }

  lemma ServerEventCalmer(cfg: Config, s: Sys, e: SysEvent)
    requires ClientsOk(cfg, s) && Enabled(cfg, s, e)
    requires (e.Serve? && !e.m.OpenReq?) || e.ServerActs? || e.Crash? || e.Lose?
    ensures Calmer(s, Next(cfg, s, e))
  {
  }

  lemma SendOpenOpens(cfg: Config, w: iset<Descriptor>, s: Sys, e: SysEvent)
    requires ClientsOk(cfg, s) && Opens(cfg, w, s) && Enabled(cfg, s, e)
    requires e.ClientSends? && s.clients[e.c].threads[e.t].op.OpOpen?
    ensures Opens(cfg, w, Next(cfg, s, e))
  {
  }

  lemma SendCloseOpens(cfg: Config, w: iset<Descriptor>, s: Sys, e: SysEvent)
    requires ClientsOk(cfg, s) && Opens(cfg, w, s) && Enabled(cfg, s, e)
    requires e.ClientSends? && s.clients[e.c].threads[e.t].op.OpClose?
    ensures Opens(cfg, w, Next(cfg, s, e))
  {
    var th := s.clients[e.c].threads[e.t];
    var s' := Next(cfg, s, e);
    assert Linked(w, s, e.c, th);
    assert s'.clients[e.c].fdMap == s.clients[e.c].fdMap - {th.op.fd};
    assert s'.clients[e.c].acked == s.clients[e.c].acked - {th.op.fd};
    assert forall m :: m in s'.net && Live(s', m) ==> m in s.net && Live(s, m);
    assert OpensOk(cfg, s');
    forall c, t | 0 <= c < |s'.clients| && 0 <= t < |s'.clients[c].threads|
      ensures Linked(w, s', c, s'.clients[c].threads[t])
    {
      assert Linked(w, s, c, s.clients[c].threads[t]);
    }
  }

  lemma AckOpens(cfg: Config, w: iset<Descriptor>, s: Sys, e: SysEvent)
    requires ClientsOk(cfg, s) && Opens(cfg, w, s) && Enabled(cfg, s, e) && e.Deliver? && e.m.OpenReply?
    ensures Opens(cfg, w, Next(cfg, s, e))
  {
  }

  lemma ServeOpens(cfg: Config, w: iset<Descriptor>, s: Sys, e: SysEvent)
    requires ClientsOk(cfg, s) && Opens(cfg, w, s) && Enabled(cfg, s, e) && e.Serve? && e.m.OpenReq?
    ensures Opens(cfg, w, Next(cfg, s, e))
  {
  }

  lemma EventOpens(cfg: Config, w: iset<Descriptor>, s: Sys, e: SysEvent)
    requires ClientsOk(cfg, s) && Opens(cfg, w, s) && Enabled(cfg, s, e) && Disciplined(cfg, w, s, e)
    ensures Opens(cfg, w, Next(cfg, s, e))
  {
    match e
    case ClientActs(_, ce) =>
      if ce.Call? {
        CallOpens(cfg, w, s, e);
      } else {
        ActCalmer(cfg, s, e);
        CalmerOpens(cfg, w, s, Next(cfg, s, e));
      }
    case ClientSends(c, t) =>
      if s.clients[c].threads[t].op.OpOpen? {
        SendOpenOpens(cfg, w, s, e);
      } else if s.clients[c].threads[t].op.OpClose? {
        SendCloseOpens(cfg, w, s, e);
      } else {
        SendCalmer(cfg, s, e);
        CalmerOpens(cfg, w, s, Next(cfg, s, e));
      }
    case Deliver(m) =>
      if m.OpenReply? {
        AckOpens(cfg, w, s, e);
      } else {
        DeliverCalmer(cfg, s, e);
        CalmerOpens(cfg, w, s, Next(cfg, s, e));
      }
    case Serve(m, _, _, _) =>
      if m.OpenReq? {
        ServeOpens(cfg, w, s, e);
      } else {
        ServerEventCalmer(cfg, s, e);
        CalmerOpens(cfg, w, s, Next(cfg, s, e));
      }
    case _ =>
      ServerEventCalmer(cfg, s, e);
      CalmerOpens(cfg, w, s, Next(cfg, s, e));
  }

  // ---------------------------------------------------------------- tokens: the owners of server descriptors

  datatype Token = Entry(c: nat, fd: int) | InReply(m: Msg) | InClose(m: Msg)

  // The token owns descriptor r of server h.
  ghost predicate Owns(cfg: Config, s: Sys, k: Token, h: nat, r: int)
    requires cfg.servers > 0
  {
    match k
    case Entry(c, fd) =>
      c < |s.clients| && fd in s.clients[c].acked && fd in s.clients[c].fdMap && fd in s.clients[c].redir
      && HostOf(cfg, s.clients[c].fdMap[fd]) == h && s.clients[c].redir[fd] == r
    case InReply(m) => m in s.net && m.OpenReply? && m.host == h && m.remoteFd == r
    case InClose(m) => m in s.net && m.CloseReq? && m.host == h && m.remoteFd == r
  }

  // The path whose file the descriptor must be open on; a close in flight does not care.
  ghost function PathOwned(s: Sys, k: Token): Option<Path> {
    match k
    case Entry(c, fd) => if c < |s.clients| && fd in s.clients[c].fdMap then Some(s.clients[c].fdMap[fd]) else None
    case InReply(m) => if m.OpenReply? then Some(m.path) else None
    case InClose(_) => None
  }

  // What a token owns on a running server is open there, on the right file.
  ghost predicate Backed(cfg: Config, s: Sys)
    requires cfg.servers > 0
  {
    forall k, h: nat, r :: Owns(cfg, s, k, h, r) && 0 <= r && Up(s, h) ==>
      && r in s.servers[h].files && r in s.servers[h].fdToPath
      && (PathOwned(s, k).Some? ==> s.servers[h].fdToPath[r] == PathOwned(s, k).value)
  }

  // No two tokens own the same descriptor of a running server.
  ghost predicate Sole(cfg: Config, s: Sys)
    requires cfg.servers > 0
  {
    forall k, l, h: nat, r :: Owns(cfg, s, k, h, r) && Owns(cfg, s, l, h, r) && 0 <= r && Up(s, h) ==> k == l
  }

  ghost predicate Tokens(cfg: Config, s: Sys)
    requires cfg.servers > 0
  {
    Backed(cfg, s) && Sole(cfg, s)
  }

  // The server still has the descriptor open on the same path.
  ghost predicate Kept(s: Sys, s': Sys, h: nat, r: int) {
    Up(s', h) && Up(s, h) && r in s.servers[h].files && r in s.servers[h].fdToPath ==>
      && r in s'.servers[h].files && r in s'.servers[h].fdToPath
      && s'.servers[h].fdToPath[r] == s.servers[h].fdToPath[r]
  }

  // Every token was there before, except that one may have taken the place of another.
  ghost predicate TokensFrom(cfg: Config, s: Sys, s': Sys, gone: Option<Token>, come: Option<Token>)
    requires cfg.servers > 0
  {
    && (forall k, h: nat, r :: Owns(cfg, s', k, h, r) && Up(s', h) && 0 <= r ==> Up(s, h) && Kept(s, s', h, r))
    && (forall k, h: nat, r :: Owns(cfg, s', k, h, r) && Up(s', h) && come != Some(k) ==>
          Owns(cfg, s, k, h, r) && gone != Some(k) && PathOwned(s', k) == PathOwned(s, k))
    && (come.Some? ==> gone.Some? && forall h: nat, r :: Owns(cfg, s', come.value, h, r) && Up(s', h) ==>
          && Owns(cfg, s, gone.value, h, r)
          && (PathOwned(s', come.value).Some? ==> PathOwned(s', come.value) == PathOwned(s, gone.value)))
  }

  lemma TokensFromKeep(cfg: Config, s: Sys, s': Sys, gone: Option<Token>, come: Option<Token>)
    requires cfg.servers > 0 && Tokens(cfg, s) && TokensFrom(cfg, s, s', gone, come)
    ensures Tokens(cfg, s')
  {
    forall k, h: nat, r | Owns(cfg, s', k, h, r) && 0 <= r && Up(s', h)
      ensures r in s'.servers[h].files && r in s'.servers[h].fdToPath
      ensures PathOwned(s', k).Some? ==> s'.servers[h].fdToPath[r] == PathOwned(s', k).value
    {
      assert Owns(cfg, s, if come == Some(k) then gone.value else k, h, r);
      assert Kept(s, s', h, r);
    }
    forall k, l, h: nat, r | Owns(cfg, s', k, h, r) && Owns(cfg, s', l, h, r) && 0 <= r && Up(s', h)
      ensures k == l
    {
      assert Owns(cfg, s, if come == Some(k) then gone.value else k, h, r);
      assert Owns(cfg, s, if come == Some(l) then gone.value else l, h, r);
    }
  }

  lemma ClientActTokens(cfg: Config, s: Sys, e: SysEvent)
    requires ClientsOk(cfg, s) && Enabled(cfg, s, e) && e.ClientActs?
    ensures TokensFrom(cfg, s, Next(cfg, s, e), None, None)
  {
  }

  // Sending a close turns the redirect entry into the message.
  lemma SendTokens(cfg: Config, w: iset<Descriptor>, s: Sys, e: SysEvent)
    requires ClientsOk(cfg, s) && Opens(cfg, w, s) && Enabled(cfg, s, e) && e.ClientSends?
    ensures var th := s.clients[e.c].threads[e.t];
            if th.op.OpClose? && Up(s, th.host)
            then TokensFrom(cfg, s, Next(cfg, s, e), Some(Entry(e.c, th.op.fd)),
                            Some(InClose(Request(s.clients[e.c], e.c, e.t, s.next))))
            else TokensFrom(cfg, s, Next(cfg, s, e), None, None)
  {
    var th := s.clients[e.c].threads[e.t];
    assert Linked(w, s, e.c, th) && ThreadOk(cfg, s.clients[e.c], th);
  }

  // The reply to an open becomes the redirect entry.
  lemma DeliverTokens(cfg: Config, w: iset<Descriptor>, s: Sys, e: SysEvent)
    requires ClientsOk(cfg, s) && Opens(cfg, w, s) && Enabled(cfg, s, e) && e.Deliver?
    ensures if e.m.OpenReply?
            then TokensFrom(cfg, s, Next(cfg, s, e), Some(InReply(e.m)), Some(Entry(e.m.c, e.m.fd)))
            else TokensFrom(cfg, s, Next(cfg, s, e), None, None)
  {
  }

  // A server that is still up has every descriptor it had, but for one, on the same path.
  predicate ServerKeeps(sv: ServerState, sv': ServerState, but: Option<int>) {
    sv'.up ==>
      && sv.up
      && forall r :: r in sv.files && r in sv.fdToPath && but != Some(r) ==>
           r in sv'.files && r in sv'.fdToPath && sv'.fdToPath[r] == sv.fdToPath[r]
  }

  lemma TakeKeeps(pfs: map<Path, Bytes>, sv: ServerState, e: Step)
    requires Inv(pfs, sv) && CanStep(sv, e)
    ensures ServerKeeps(sv, Take(sv, e), None)
  {
  }

  lemma HandleKeeps(sv: ServerState, m: Msg, fd: int, ok: bool, ok2: bool)
    requires !IsReply(m) && !m.OpenReq? && sv.up
    ensures ServerKeeps(sv, Handle(sv, m, fd, ok, ok2).0, if m.CloseReq? then Some(m.remoteFd) else None)
    ensures forall n :: n in Handle(sv, m, fd, ok, ok2).1 ==> n.ReadReply? || n.SeekReply?
  {
  }

  lemma QuietServerTokens(cfg: Config, s: Sys, e: SysEvent)
    requires Basic(cfg, s) && Enabled(cfg, s, e)
    requires (e.Serve? && (e.m.ReadReq? || e.m.SeekReq?)) || e.ServerActs? || e.Crash? || e.Lose?
    ensures TokensFrom(cfg, s, Next(cfg, s, e), None, None)
  {
    var s' := Next(cfg, s, e);
    if e.Serve? {
      HandleKeeps(s.servers[e.m.host], e.m, e.fd, e.ok, e.ok2);
    } else if e.ServerActs? {
      TakeKeeps(cfg.pfs, s.servers[e.h], e.step);
    }
    assert forall h: nat :: h < |s.servers| ==> ServerKeeps(s.servers[h], s'.servers[h], None);
    assert forall m :: m in s'.net && (m.OpenReply? || m.CloseReq?) ==> m in s.net;
    SameTables(cfg, s, s');
  }

  lemma SameTables(cfg: Config, s: Sys, s': Sys)
    requires cfg.servers > 0 && s'.clients == s.clients && |s'.servers| == |s.servers|
    requires forall h: nat :: h < |s.servers| ==> ServerKeeps(s.servers[h], s'.servers[h], None)
    requires forall m :: m in s'.net && (m.OpenReply? || m.CloseReq?) ==> m in s.net
    ensures TokensFrom(cfg, s, s', None, None)
  {
  }

  lemma ServeCloseTokens(cfg: Config, s: Sys, e: SysEvent)
    requires Basic(cfg, s) && Tokens(cfg, s) && Enabled(cfg, s, e) && e.Serve? && e.m.CloseReq?
    ensures TokensFrom(cfg, s, Next(cfg, s, e), Some(InClose(e.m)), None)
  {
    var s' := Next(cfg, s, e);
    HandleKeeps(s.servers[e.m.host], e.m, e.fd, e.ok, e.ok2);
    forall k, h: nat, r | Owns(cfg, s', k, h, r) && Up(s', h) && 0 <= r
      ensures Up(s, h) && Kept(s, s', h, r)
    {
      assert Owns(cfg, s, k, h, r) && k != InClose(e.m);
      if h == e.m.host && r == e.m.remoteFd {
        assert Owns(cfg, s, InClose(e.m), h, r);
        assert false;
      }
      assert ServerKeeps(s.servers[h], s'.servers[h], if h == e.m.host then Some(e.m.remoteFd) else None);
    }
  }

  // A new descriptor is owned by the reply that carries it.
  lemma ServeOpenTokens(cfg: Config, s: Sys, e: SysEvent)
    requires Basic(cfg, s) && Tokens(cfg, s) && Enabled(cfg, s, e) && e.Serve? && e.m.OpenReq?
    ensures Tokens(cfg, Next(cfg, s, e))
  {
    OpenedTokens(cfg, s, Next(cfg, s, e), e.m, e.fd);
  }

  lemma OpenedTokens(cfg: Config, s: Sys, s': Sys, m: Msg, fd: int)
    requires cfg.servers > 0 && Tokens(cfg, s)
    requires m.OpenReq? && m.host < |s.servers| && CanOpen(s.servers[m.host], m.path, fd)
    requires s' == s.(servers := s.servers[m.host := HandleOpen(s.servers[m.host], m.path, fd)],
                      net := s.net - {m} + {OpenReply(m.id, m.c, m.t, m.host, m.fd, m.path, fd)})
    ensures Tokens(cfg, s')
  {
    var made := InReply(OpenReply(m.id, m.c, m.t, m.host, m.fd, m.path, fd));
    assert forall k, h: nat, r :: Owns(cfg, s', k, h, r) && k != made ==>
        Owns(cfg, s, k, h, r) && PathOwned(s', k) == PathOwned(s, k);
    assert forall h: nat :: Up(s', h) ==> Up(s, h);
    forall k, h: nat, r | Owns(cfg, s', k, h, r) && k != made && 0 <= r && Up(s', h)
      ensures r in s.servers[h].files && r in s.servers[h].fdToPath
      ensures h == m.host ==> r != fd
    {
      assert Owns(cfg, s, k, h, r);
    }
  }

  lemma EventTokens(cfg: Config, w: iset<Descriptor>, s: Sys, e: SysEvent)
    requires Basic(cfg, s) && Opens(cfg, w, s) && Tokens(cfg, s) && Enabled(cfg, s, e)
    ensures Tokens(cfg, Next(cfg, s, e))
  {
    var s' := Next(cfg, s, e);
    match e
    case ClientActs(_, _) =>
      ClientActTokens(cfg, s, e);
      TokensFromKeep(cfg, s, s', None, None);
    case ClientSends(c, t) =>
      SendTokens(cfg, w, s, e);
      var th := s.clients[c].threads[t];
      if th.op.OpClose? && Up(s, th.host) {
        TokensFromKeep(cfg, s, s', Some(Entry(c, th.op.fd)), Some(InClose(Request(s.clients[c], c, t, s.next))));
      } else {
        TokensFromKeep(cfg, s, s', None, None);
      }
    case Deliver(m) =>
      DeliverTokens(cfg, w, s, e);
      if m.OpenReply? {
        TokensFromKeep(cfg, s, s', Some(InReply(m)), Some(Entry(m.c, m.fd)));
      } else {
        TokensFromKeep(cfg, s, s', None, None);
      }
    case Serve(m, _, _, _) =>
      if m.OpenReq? {
        ServeOpenTokens(cfg, s, e);
      } else if m.CloseReq? {
        ServeCloseTokens(cfg, s, e);
        TokensFromKeep(cfg, s, s', Some(InClose(m)), None);
      } else {
        QuietServerTokens(cfg, s, e);
        TokensFromKeep(cfg, s, s', None, None);
      }
    case _ =>
      QuietServerTokens(cfg, s, e);
      TokensFromKeep(cfg, s, s', None, None);
  }
}
