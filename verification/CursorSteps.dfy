// The simulation of plain files, event by event and over whole runs.
module CursorSteps {
  import opened PlainFile
  import opened Wrappers
  import opened Server
  import opened Client
  import opened System
  import opened ClientTables
  import opened Ownership
  import opened Transparency
  import opened CursorRefinement
  import opened CursorInvariants

  // ---------------------------------------------------------------- one client: calls

  function CallTarget(cfg: Config, cl: ClientState, p: PlainProcess, t: nat, op: Op): PlainProcess
    requires cfg.servers > 0 && t < |p.threads| && p.threads[t].Off?
  {
    var invoked := PlainDo(cfg, p, Invoke(t, op));
    if op.OpOpen? || !GoesRemote(cfg, cl, op) then PlainDo(cfg, invoked, Effect(t)) else invoked
  }

  // The plain descriptor is where the local one is, as far as the call cares.
  predicate Twin(cl: ClientState, files: Descriptors, op: Op) {
    && op.fd in cl.local && op.fd in files && files[op.fd].path == cl.local[op.fd].path
    && (op.OpRead? || op.OpSeek? ==> files[op.fd].cursor == cl.local[op.fd].cursor)
  }

  lemma CallThreads(cfg: Config, mine: iset<int>, cl: ClientState, t: nat, op: Op, tracked: bool, p: PlainProcess)
    requires cfg.servers > 0 && ClientOk(cfg, cl) && ThreadsRel(mine, cl, p) && op.fd in mine
    requires CanDo(cfg, cl, Call(t, op, tracked)) && (op.OpOpen? || Polite(cl, t, op))
    requires !op.OpOpen? && !GoesRemote(cfg, cl, op) ==> Twin(cl, p.files, op)
    ensures p.threads[t].Off? && ThreadsRel(mine, DoCall(cfg, cl, t, op, tracked), CallTarget(cfg, cl, p, t, op))
  {
    assert ThreadRel(mine, cl, cl.threads[t], p.threads[t]);
  }

  lemma CallFiles(cfg: Config, s: Sys, mine: iset<int>, cl: ClientState, t: nat, op: Op, tracked: bool, p: PlainProcess)
    requires cfg.servers > 0 && ClientOk(cfg, cl) && FilesRel(cfg, s, mine, cl, p.files) && op.fd in mine
    requires CanDo(cfg, cl, Call(t, op, tracked)) && (op.OpOpen? || Polite(cl, t, op))
    requires t < |p.threads| && p.threads[t].Off?
    requires !op.OpOpen? && !GoesRemote(cfg, cl, op) ==> Twin(cl, p.files, op)
    requires op.OpRead? && !GoesRemote(cfg, cl, op) ==> op.fd !in cl.fdMap || op.fd !in cl.acked
    ensures FilesRel(cfg, s, mine, DoCall(cfg, cl, t, op, tracked), CallTarget(cfg, cl, p, t, op).files)
  {
  }

  // A call on another descriptor.
  lemma OtherCallThreads(cfg: Config, mine: iset<int>, cl: ClientState, t: nat, op: Op, tracked: bool, p: PlainProcess)
    requires cfg.servers > 0 && op.fd !in mine && ThreadsRel(mine, cl, p) && CanDo(cfg, cl, Call(t, op, tracked))
    ensures ThreadsRel(mine, DoCall(cfg, cl, t, op, tracked), p)
  {
    assert ThreadRel(mine, cl, cl.threads[t], p.threads[t]);
  }

  lemma OtherCallFiles(
      cfg: Config, s: Sys, mine: iset<int>, cl: ClientState, t: nat, op: Op, tracked: bool, files: Descriptors)
    requires cfg.servers > 0 && op.fd !in mine && FilesRel(cfg, s, mine, cl, files) && CanDo(cfg, cl, Call(t, op, tracked))
    ensures FilesRel(cfg, s, mine, DoCall(cfg, cl, t, op, tracked), files)
  {
    var cl' := DoCall(cfg, cl, t, op, tracked);
    assert forall fd :: fd != op.fd ==>
        && (fd in cl'.local <==> fd in cl.local) && (fd in cl.local ==> cl'.local[fd] == cl.local[fd])
        && (fd in cl'.fdMap <==> fd in cl.fdMap) && (fd in cl.fdMap ==> cl'.fdMap[fd] == cl.fdMap[fd])
        && (fd in cl'.acked <==> fd in cl.acked);
    assert cl'.redir == cl.redir;
  }

  // ---------------------------------------------------------------- one client: ends of calls

  function Effected(cfg: Config, p: PlainProcess, t: nat): PlainProcess
    requires t < |p.threads| && p.threads[t].Pending?
  {
    PlainDo(cfg, p, Effect(t))
  }

  // A read that falls back, and a positioned read however it ends, takes effect when its thread goes on.
  predicate EndsNow(mine: iset<int>, cl: ClientState, e: Client.Event)
    requires (e.Wake? || e.TimeOut?) && e.t < |cl.threads| && cl.threads[e.t].Waiting?
  {
    var op := cl.threads[e.t].op;
    op.fd in mine && (op.OpPread? || (e.TimeOut? && op.OpRead?))
  }

  lemma EndThreads(cfg: Config, mine: iset<int>, cl: ClientState, e: Client.Event, p: PlainProcess)
    requires cfg.servers > 0 && ClientOk(cfg, cl) && ThreadsRel(mine, cl, p) && ClientSane(mine, cl)
    requires CanDo(cfg, cl, e) && (e.Wake? || e.TimeOut?)
    requires PreadsOk(cfg, mine, cl)
    requires EndsNow(mine, cl, e) ==> Twin(cl, p.files, cl.threads[e.t].op)
    requires e.TimeOut? && EndsNow(mine, cl, e) && cl.threads[e.t].op.OpRead? ==> cl.threads[e.t].op.fd !in cl.acked
    ensures EndsNow(mine, cl, e) ==> p.threads[e.t] == Pending(cl.threads[e.t].op)
    ensures ThreadsRel(mine, Do(cfg, cl, e), if EndsNow(mine, cl, e) then Effected(cfg, p, e.t) else p)
  {
    var th := cl.threads[e.t];
    assert ThreadRel(mine, cl, th, p.threads[e.t]) && ThreadOk(cfg, cl, th) && ThreadSane(mine, cl, th);
    assert PreadOk(cfg, mine, cl, th);
  }

  lemma EndFiles(cfg: Config, s: Sys, mine: iset<int>, cl: ClientState, e: Client.Event, p: PlainProcess)
    requires cfg.servers > 0 && ClientOk(cfg, cl) && FilesRel(cfg, s, mine, cl, p.files) && ClientSane(mine, cl)
    requires CanDo(cfg, cl, e) && (e.Wake? || e.TimeOut?) && e.t < |p.threads|
    requires EndsNow(mine, cl, e) ==>
               && p.threads[e.t] == Pending(cl.threads[e.t].op) && Twin(cl, p.files, cl.threads[e.t].op)
               && (cl.threads[e.t].op.OpRead? ==> cl.threads[e.t].op.fd !in cl.acked)
    ensures FilesRel(cfg, s, mine, Do(cfg, cl, e), (if EndsNow(mine, cl, e) then Effected(cfg, p, e.t) else p).files)
  {
    var th := cl.threads[e.t];
    assert ThreadOk(cfg, cl, th) && ThreadSane(mine, cl, th);
  }

  lemma ReturnThreads(cfg: Config, mine: iset<int>, cl: ClientState, t: nat, p: PlainProcess)
    requires cfg.servers > 0 && ThreadsRel(mine, cl, p) && CanDo(cfg, cl, Return(t))
    ensures cl.threads[t].op.fd in mine ==> PlainCan(p, Finish(t))
    ensures ThreadsRel(mine, Do(cfg, cl, Return(t)),
                       if cl.threads[t].op.fd in mine then PlainDo(cfg, p, Finish(t)) else p)
  {
    assert ThreadRel(mine, cl, cl.threads[t], p.threads[t]);
  }

  // ---------------------------------------------------------------- one client: sends and replies

  predicate ClosesNow(mine: iset<int>, cl: ClientState, t: nat)
    requires t < |cl.threads| && cl.threads[t].Passed?
  {
    cl.threads[t].op.fd in mine && cl.threads[t].op.OpClose?
  }

  lemma SendThreads(cfg: Config, mine: iset<int>, cl: ClientState, t: nat, id: nat, p: PlainProcess)
    requires cfg.servers > 0 && ClientOk(cfg, cl) && ThreadsRel(mine, cl, p) && CanDo(cfg, cl, Send(t, id))
    requires forall fd :: fd in p.files <==> fd in cl.local && fd in mine
    ensures ClosesNow(mine, cl, t) ==> p.threads[t] == Pending(cl.threads[t].op)
    ensures ThreadsRel(mine, DoSend(cfg, cl, t, id), if ClosesNow(mine, cl, t) then Effected(cfg, p, t) else p)
  {
    assert ThreadRel(mine, cl, cl.threads[t], p.threads[t]) && ThreadOk(cfg, cl, cl.threads[t]);
  }

  lemma SendFiles(cfg: Config, s: Sys, mine: iset<int>, cl: ClientState, t: nat, id: nat, p: PlainProcess)
    requires cfg.servers > 0 && ClientOk(cfg, cl) && FilesRel(cfg, s, mine, cl, p.files) && CanDo(cfg, cl, Send(t, id))
    requires t < |p.threads| && (ClosesNow(mine, cl, t) ==> p.threads[t] == Pending(cl.threads[t].op))
    ensures FilesRel(cfg, s, mine, DoSend(cfg, cl, t, id), (if ClosesNow(mine, cl, t) then Effected(cfg, p, t) else p).files)
  {
    assert ThreadOk(cfg, cl, cl.threads[t]);
  }

  lemma AnswerThreads(cfg: Config, mine: iset<int>, cl: ClientState, e: Client.Event, p: PlainProcess)
    requires cfg.servers > 0 && ThreadsRel(mine, cl, p)
    requires e.OpenAnswer? || e.ReadAnswer? || e.SeekAnswer?
    requires !e.SeekAnswer? && e.t < |cl.threads| && cl.threads[e.t].Waiting? && cl.threads[e.t].id == e.id
             && cl.threads[e.t].op.fd in mine ==>
               var op := cl.threads[e.t].op;
               if e.OpenAnswer? then op.OpOpen? else op.OpPread? || (op.OpRead? && DoneWith(p.threads[e.t], op, e.ret))
    requires e.SeekAnswer? ==>
               forall t :: 0 <= t < |cl.threads| && cl.threads[t].Waiting? && cl.threads[t].op.OpSeek?
                           && cl.threads[t].op.fd in mine ==>
                 cl.seeksDone == 0 && DoneWith(p.threads[t], cl.threads[t].op, Pos(e.pos))
    ensures ThreadsRel(mine, Do(cfg, cl, e), p)
  {
  }

  // The acknowledged descriptor has not been read yet, so its cursor is at the start on both sides.
  lemma AckFiles(cfg: Config, w: iset<Descriptor>, s: Sys, m: Msg, files: Descriptors)
    requires cfg.servers > 0 && m in s.net && m.OpenReply? && OpensOk(cfg, s) && FreshOpen(w, s, m)
    requires m.c < |s.clients| && FilesRel(cfg, s, Of(w, m.c), s.clients[m.c], files)
    ensures FilesRel(cfg, s, Of(w, m.c), Do(cfg, s.clients[m.c], AnswerEvent(m)), files)
  {
    assert OpenOk(cfg, s, m);
  }

  // ---------------------------------------------------------------- from one client to the system

  ghost predicate CanSimulate(cfg: Config, w: iset<Descriptor>, s: Sys, a: Spec, e: SysEvent) {
    && SysInv(cfg, w, s) && Sane(w, s) && Rel(cfg, w, s, a)
    && Enabled(cfg, s, e) && Disciplined(cfg, w, s, e) && Sound(cfg, w, s, e)
  }

  // Whoever still waits in c waited before, and his plain thread stands where it stood.
  ghost predicate SameWaiters(s: Sys, s': Sys, a: Spec, a': Spec, c: nat) {
    && |s'.clients| == |s.clients| == |a| == |a'| && c < |a|
    && (forall d :: 0 <= d < |a| && d != c ==> s'.clients[d] == s.clients[d] && a'[d] == a[d])
    && |a'[c].threads| == |a[c].threads| && |s'.clients[c].threads| == |s.clients[c].threads| == |a[c].threads|
    && (forall t :: 0 <= t < |a[c].threads| && s'.clients[c].threads[t].Waiting? ==>
          s.clients[c].threads[t].Waiting? && s.clients[c].threads[t].id == s'.clients[c].threads[t].id
          && s.clients[c].threads[t].op == s'.clients[c].threads[t].op && a'[c].threads[t] == a[c].threads[t])
  }

  // The client's own relations are what an event of the client has to restore.
  lemma ClientRel(cfg: Config, w: iset<Descriptor>, s: Sys, s': Sys, a: Spec, a': Spec, c: nat)
    requires cfg.servers > 0 && Rel(cfg, w, s, a) && SameWaiters(s, s', a, a', c)
    requires s'.servers == s.servers && (forall m :: m in s'.net ==> m in s.net)
    requires ThreadsRel(Of(w, c), s'.clients[c], a'[c]) && FilesRel(cfg, s, Of(w, c), s'.clients[c], a'[c].files)
    ensures Rel(cfg, w, s', a')
  {
    SameServersFiles(cfg, w, s, s', a, a', c);
    forall m | m in s'.net
      ensures MsgRel(w, s', a', m)
    {
      assert MsgRel(w, s, a, m);
    }
  }

  lemma SameServersFiles(cfg: Config, w: iset<Descriptor>, s: Sys, s': Sys, a: Spec, a': Spec, c: nat)
    requires cfg.servers > 0 && |s'.clients| == |s.clients| == |a| == |a'| && c < |a| && s'.servers == s.servers
    requires forall d :: 0 <= d < |a| && d != c ==> s'.clients[d] == s.clients[d] && a'[d] == a[d]
    requires forall d :: 0 <= d < |a| ==> FilesRel(cfg, s, Of(w, d), s.clients[d], a[d].files)
    requires FilesRel(cfg, s, Of(w, c), s'.clients[c], a'[c].files)
    ensures forall d :: 0 <= d < |a| ==> FilesRel(cfg, s', Of(w, d), s'.clients[d], a'[d].files)
  {
    forall d | 0 <= d < |a|
      ensures FilesRel(cfg, s', Of(w, d), s'.clients[d], a'[d].files)
    {
      assert FilesRel(cfg, s, Of(w, d), s'.clients[d], a'[d].files);
    }
  }

  lemma FollowsOne(cfg: Config, a: Spec, c: nat, e: PlainStep)
    requires c < |a| && PlainCan(a[c], e)
    ensures Follows(cfg, a, [SpecStep(c, e)], a[c := PlainDo(cfg, a[c], e)])
  {
    assert Follows(cfg, SpecDo(cfg, a, SpecStep(c, e)), [], a[c := PlainDo(cfg, a[c], e)]);
    assert [SpecStep(c, e)][1..] == [];
  }

  lemma FollowsTwo(cfg: Config, a: Spec, c: nat, e: PlainStep, f: PlainStep)
    requires c < |a| && PlainCan(a[c], e) && PlainCan(PlainDo(cfg, a[c], e), f)
    ensures Follows(cfg, a, [SpecStep(c, e), SpecStep(c, f)], a[c := PlainDo(cfg, PlainDo(cfg, a[c], e), f)])
  {
    var b := SpecDo(cfg, a, SpecStep(c, e));
    FollowsOne(cfg, b, c, f);
    assert b[c := PlainDo(cfg, b[c], f)] == a[c := PlainDo(cfg, PlainDo(cfg, a[c], e), f)];
    assert [SpecStep(c, e), SpecStep(c, f)][1..] == [SpecStep(c, f)];
  }

  // ---------------------------------------------------------------- calls and their ends

  // Where a call that stays local finds the cursor of the plain file.
  lemma LocalTwin(cfg: Config, s: Sys, mine: iset<int>, cl: ClientState, files: Descriptors, op: Op)
    requires cfg.servers > 0 && FilesRel(cfg, s, mine, cl, files) && op.fd in mine && op.fd in cl.local
    requires op.OpRead? || op.OpSeek? ==> op.fd !in cl.fdMap || op.fd !in cl.acked
    ensures Twin(cl, files, op)
  {
    assert op.fd in files && CursorRel(cfg, s, cl, op.fd, files[op.fd].cursor);
  }

  lemma CallSim(cfg: Config, w: iset<Descriptor>, s: Sys, a: Spec, e: SysEvent) returns (a': Spec)
    requires cfg.servers > 0 && Rel(cfg, w, s, a) && Enabled(cfg, s, e) && e.ClientActs? && e.e.Call?
    requires ClientOk(cfg, s.clients[e.c]) && Disciplined(cfg, w, s, e) && Sound(cfg, w, s, e)
    ensures Follows(cfg, a, Trace(cfg, w, s, e), a') && Rel(cfg, w, Next(cfg, s, e), a')
  {
    var c, t, op := e.c, e.e.t, e.e.op;
    var cl, p := s.clients[c], a[c];
    assert ThreadsRel(Of(w, c), cl, p) && FilesRel(cfg, s, Of(w, c), cl, p.files);
    if op.fd in Of(w, c) {
      a' := OwnCall(cfg, w, s, a, e);
    } else {
      a' := a;
      OtherCallThreads(cfg, Of(w, c), cl, t, op, e.e.tracked, p);
      OtherCallFiles(cfg, s, Of(w, c), cl, t, op, e.e.tracked, p.files);
    }
    CallWaiters(cfg, cl, t, op, e.e.tracked);
    ClientRel(cfg, w, s, Next(cfg, s, e), a, a', c);
  }

  lemma CallWaiters(cfg: Config, cl: ClientState, t: nat, op: Op, tracked: bool)
    requires cfg.servers > 0 && CanDo(cfg, cl, Call(t, op, tracked))
    ensures var cl' := DoCall(cfg, cl, t, op, tracked);
            && |cl'.threads| == |cl.threads| && !cl'.threads[t].Waiting?
            && forall u :: 0 <= u < |cl.threads| && u != t ==> cl'.threads[u] == cl.threads[u]
  {
  }

  lemma OwnCall(cfg: Config, w: iset<Descriptor>, s: Sys, a: Spec, e: SysEvent) returns (a': Spec)
    requires cfg.servers > 0 && Enabled(cfg, s, e) && Disciplined(cfg, w, s, e) && Sound(cfg, w, s, e)
    requires |a| == |s.clients| && e.ClientActs? && e.e.Call? && e.e.op.fd in Of(w, e.c) && ClientOk(cfg, s.clients[e.c])
    requires ThreadsRel(Of(w, e.c), s.clients[e.c], a[e.c]) && FilesRel(cfg, s, Of(w, e.c), s.clients[e.c], a[e.c].files)
    ensures |a'| == |a| && |a'[e.c].threads| == |a[e.c].threads|
    ensures forall d :: 0 <= d < |a| && d != e.c ==> a'[d] == a[d]
    ensures forall t :: 0 <= t < |a[e.c].threads| && t != e.e.t ==> a'[e.c].threads[t] == a[e.c].threads[t]
    ensures Follows(cfg, a, Trace(cfg, w, s, e), a')
    ensures var cl' := DoCall(cfg, s.clients[e.c], e.e.t, e.e.op, e.e.tracked);
            ThreadsRel(Of(w, e.c), cl', a'[e.c]) && FilesRel(cfg, s, Of(w, e.c), cl', a'[e.c].files)
  {
    var c, t, op := e.c, e.e.t, e.e.op;
    var cl, p := s.clients[c], a[c];
    if !op.OpOpen? && !GoesRemote(cfg, cl, op) {
      LocalTwin(cfg, s, Of(w, c), cl, p.files, op);
    }
    CallThreads(cfg, Of(w, c), cl, t, op, e.e.tracked, p);
    CallFiles(cfg, s, Of(w, c), cl, t, op, e.e.tracked, p);
    a' := a[c := CallTarget(cfg, cl, p, t, op)];
    if op.OpOpen? || !GoesRemote(cfg, cl, op) {
      FollowsTwo(cfg, a, c, Invoke(t, op), Effect(t));
    } else {
      FollowsOne(cfg, a, c, Invoke(t, op));
    }
  }

  lemma EndSim(cfg: Config, w: iset<Descriptor>, s: Sys, a: Spec, e: SysEvent) returns (a': Spec)
    requires cfg.servers > 0 && Rel(cfg, w, s, a) && Enabled(cfg, s, e) && e.ClientActs? && (e.e.Wake? || e.e.TimeOut?)
    requires Sound(cfg, w, s, e) && ClientOk(cfg, s.clients[e.c]) && ClientSane(Of(w, e.c), s.clients[e.c])
    requires PreadsOk(cfg, Of(w, e.c), s.clients[e.c])
    ensures Follows(cfg, a, Trace(cfg, w, s, e), a') && Rel(cfg, w, Next(cfg, s, e), a')
  {
    var c, t, mine := e.c, e.e.t, Of(w, e.c);
    var cl, p := s.clients[c], a[c];
    assert ThreadsRel(mine, cl, p) && FilesRel(cfg, s, mine, cl, p.files);
    EndRel(cfg, s, mine, cl, e.e, p);
    if EndsNow(mine, cl, e.e) {
      a' := a[c := Effected(cfg, p, t)];
      FollowsOne(cfg, a, c, Effect(t));
    } else {
      a' := a;
    }
    ActWaiters(cfg, cl, e.e);
    ClientRel(cfg, w, s, Next(cfg, s, e), a, a', c);
  }

  lemma EndRel(cfg: Config, s: Sys, mine: iset<int>, cl: ClientState, e: Client.Event, p: PlainProcess)
    requires cfg.servers > 0 && ClientOk(cfg, cl) && ClientSane(mine, cl) && PreadsOk(cfg, mine, cl)
    requires ThreadsRel(mine, cl, p) && FilesRel(cfg, s, mine, cl, p.files)
    requires CanDo(cfg, cl, e) && (e.Wake? || e.TimeOut?)
    requires e.TimeOut? && EndsNow(mine, cl, e) && cl.threads[e.t].op.OpRead? ==> cl.threads[e.t].op.fd !in cl.acked
    ensures EndsNow(mine, cl, e) ==> p.threads[e.t] == Pending(cl.threads[e.t].op)
    ensures var p' := if EndsNow(mine, cl, e) then Effected(cfg, p, e.t) else p;
            ThreadsRel(mine, Do(cfg, cl, e), p') && FilesRel(cfg, s, mine, Do(cfg, cl, e), p'.files)
  {
    assert ThreadOk(cfg, cl, cl.threads[e.t]);
    if EndsNow(mine, cl, e) {
      LocalTwin(cfg, s, mine, cl, p.files, cl.threads[e.t].op);
    }
    EndThreads(cfg, mine, cl, e, p);
    EndFiles(cfg, s, mine, cl, e, p);
  }

  lemma ActWaiters(cfg: Config, cl: ClientState, e: Client.Event)
    requires cfg.servers > 0 && CanDo(cfg, cl, e) && (e.Wake? || e.TimeOut? || e.Return? || e.InitAgain?)
    ensures |Do(cfg, cl, e).threads| == |cl.threads|
    ensures !e.InitAgain? ==> !Do(cfg, cl, e).threads[e.t].Waiting?
    ensures forall u :: 0 <= u < |cl.threads| && (e.InitAgain? || u != e.t) ==> Do(cfg, cl, e).threads[u] == cl.threads[u]
  {
  }

  lemma ReturnSim(cfg: Config, w: iset<Descriptor>, s: Sys, a: Spec, e: SysEvent) returns (a': Spec)
    requires cfg.servers > 0 && Rel(cfg, w, s, a) && Enabled(cfg, s, e) && e.ClientActs? && (e.e.Return? || e.e.InitAgain?)
    ensures Follows(cfg, a, Trace(cfg, w, s, e), a') && Rel(cfg, w, Next(cfg, s, e), a')
  {
    var c := e.c;
    var cl, p := s.clients[c], a[c];
    assert ThreadsRel(Of(w, c), cl, p) && FilesRel(cfg, s, Of(w, c), cl, p.files);
    a' := a;
    if e.e.Return? {
      ReturnThreads(cfg, Of(w, c), cl, e.e.t, p);
      if cl.threads[e.e.t].op.fd in Of(w, c) {
        a' := a[c := PlainDo(cfg, p, Finish(e.e.t))];
        FollowsOne(cfg, a, c, Finish(e.e.t));
      }
    }
    SameFiles(cfg, s, Of(w, c), cl, Do(cfg, cl, e.e), p.files);
    ActWaiters(cfg, cl, e.e);
    ClientRel(cfg, w, s, Next(cfg, s, e), a, a', c);
  }

  lemma SameFiles(cfg: Config, s: Sys, mine: iset<int>, cl: ClientState, cl': ClientState, files: Descriptors)
    requires cfg.servers > 0 && FilesRel(cfg, s, mine, cl, files)
    requires cl'.local == cl.local && cl'.fdMap == cl.fdMap && cl'.acked == cl.acked && cl'.redir == cl.redir
    ensures FilesRel(cfg, s, mine, cl', files)
  {
    forall fd | fd in files
      ensures CursorRel(cfg, s, cl', fd, files[fd].cursor)
    {
      assert CursorRel(cfg, s, cl, fd, files[fd].cursor);
    }
  }

  // ---------------------------------------------------------------- sends and deliveries

  lemma SendSim(cfg: Config, w: iset<Descriptor>, s: Sys, a: Spec, e: SysEvent) returns (a': Spec)
    requires CanSimulate(cfg, w, s, a, e) && e.ClientSends?
    ensures Follows(cfg, a, Trace(cfg, w, s, e), a') && Rel(cfg, w, Next(cfg, s, e), a')
  {
    var c, t, mine := e.c, e.t, Of(w, e.c);
    var cl, p := s.clients[c], a[c];
    assert ClientOk(cfg, cl) && ThreadsRel(mine, cl, p) && FilesRel(cfg, s, mine, cl, p.files);
    SendThreads(cfg, mine, cl, t, s.next, p);
    SendFiles(cfg, s, mine, cl, t, s.next, p);
    if ClosesNow(mine, cl, t) {
      a' := a[c := Effected(cfg, p, t)];
      FollowsOne(cfg, a, c, Effect(t));
    } else {
      a' := a;
    }
    SentRel(cfg, w, s, Next(cfg, s, e), a, a', c, t);
  }

  lemma SentRel(cfg: Config, w: iset<Descriptor>, s: Sys, s': Sys, a: Spec, a': Spec, c: nat, t: nat)
    requires cfg.servers > 0 && Rel(cfg, w, s, a) && Numbered(s) && c < |s.clients|
    requires CanDo(cfg, s.clients[c], Send(t, s.next))
    requires s' == s.(clients := s.clients[c := DoSend(cfg, s.clients[c], t, s.next)],
                      net := s.net + {Request(s.clients[c], c, t, s.next)}, next := s.next + 1)
    requires a' == a || (t < |a[c].threads| && a[c].threads[t].Pending? && ClosesNow(Of(w, c), s.clients[c], t)
                         && a' == a[c := Effected(cfg, a[c], t)])
    requires ThreadsRel(Of(w, c), s'.clients[c], a'[c]) && FilesRel(cfg, s, Of(w, c), s'.clients[c], a'[c].files)
    ensures Rel(cfg, w, s', a')
  {
    SameServersFiles(cfg, w, s, s', a, a', c);
    SendWaiter(cfg, s.clients[c], t, s.next);
    assert ThreadRel(Of(w, c), s.clients[c], s.clients[c].threads[t], a[c].threads[t]);
    SentMsgRel(w, s, s', a, a', c, t);
  }

  lemma SentMsgRel(w: iset<Descriptor>, s: Sys, s': Sys, a: Spec, a': Spec, c: nat, t: nat)
    requires |s'.clients| == |s.clients| == |a| == |a'| && c < |a| && Numbered(s)
    requires forall d :: 0 <= d < |a| && d != c ==> s'.clients[d] == s.clients[d] && a'[d] == a[d]
    requires t < |a[c].threads| == |s.clients[c].threads| && s.clients[c].threads[t].Passed?
    requires |a'[c].threads| == |a[c].threads| && |s'.clients[c].threads| == |a[c].threads|
    requires forall u :: 0 <= u < |a[c].threads| && u != t ==>
               s'.clients[c].threads[u] == s.clients[c].threads[u] && a'[c].threads[u] == a[c].threads[u]
    requires var th, th' := s.clients[c].threads[t], s'.clients[c].threads[t];
             th'.Waiting? ==>
               && th'.id == s.next && th'.op == th.op && a'[c].threads[t] == a[c].threads[t]
               && (th.op.fd in Of(w, c) && !th.op.OpOpen? ==> a[c].threads[t] == Pending(th.op))
    requires s'.net == s.net + {Request(s.clients[c], c, t, s.next)}
    requires forall m :: m in s.net ==> MsgRel(w, s, a, m)
    ensures forall m :: m in s'.net ==> MsgRel(w, s', a', m)
  {
    forall m | m in s'.net
      ensures MsgRel(w, s', a', m)
    {
      if m in s.net {
        assert MsgRel(w, s, a, m) && m.id < s.next;
      }
    }
  }

  lemma SendWaiter(cfg: Config, cl: ClientState, t: nat, id: nat)
    requires CanDo(cfg, cl, Send(t, id))
    ensures var cl' := DoSend(cfg, cl, t, id);
            && |cl'.threads| == |cl.threads|
            && (cl'.threads[t].Waiting? ==> cl'.threads[t].id == id && cl'.threads[t].op == cl.threads[t].op)
            && (cl.threads[t].op.OpClose? ==> !cl'.threads[t].Waiting?)
            && forall u :: 0 <= u < |cl.threads| && u != t ==> cl'.threads[u] == cl.threads[u]
  {
  }

  lemma DeliverSim(cfg: Config, w: iset<Descriptor>, s: Sys, a: Spec, e: SysEvent)
    requires CanSimulate(cfg, w, s, a, e) && e.Deliver?
    ensures Follows(cfg, a, Trace(cfg, w, s, e), a) && Rel(cfg, w, Next(cfg, s, e), a)
  {
    var m := e.m;
    var cl, p := s.clients[m.c], a[m.c];
    assert ThreadsRel(Of(w, m.c), cl, p) && FilesRel(cfg, s, Of(w, m.c), cl, p.files);
    assert MsgRel(w, s, a, m) && (Matches(s, m) ==> MsgOk(cfg, w, s, m));
    assert SeekAwaited(w, s, m) && FreshOpen(w, s, m);
    DeliverThreads(cfg, w, s, a, m);
    if m.OpenReply? {
      AckFiles(cfg, w, s, m, p.files);
    } else {
      SameFiles(cfg, s, Of(w, m.c), cl, Do(cfg, cl, AnswerEvent(m)), p.files);
    }
    AnswerWaiters(cfg, cl, AnswerEvent(m));
    ClientRel(cfg, w, s, Next(cfg, s, e), a, a, m.c);
  }

  lemma DeliverThreads(cfg: Config, w: iset<Descriptor>, s: Sys, a: Spec, m: Msg)
    requires cfg.servers > 0 && |a| == |s.clients| && IsReply(m) && m.c < |a| && MsgRel(w, s, a, m) && SeekAwaited(w, s, m)
    requires ThreadsRel(Of(w, m.c), s.clients[m.c], a[m.c]) && (Watches(w, m.c) ==> OneSeek(s.clients[m.c]))
    requires Matches(s, m) ==> MsgOk(cfg, w, s, m)
    ensures ThreadsRel(Of(w, m.c), Do(cfg, s.clients[m.c], AnswerEvent(m)), a[m.c])
  {
    var cl, p, mine := s.clients[m.c], a[m.c], Of(w, m.c);
    if m.SeekReply? {
      forall t | 0 <= t < |cl.threads| && cl.threads[t].Waiting? && cl.threads[t].op.OpSeek? && cl.threads[t].op.fd in mine
        ensures cl.seeksDone == 0 && DoneWith(p.threads[t], cl.threads[t].op, Pos(m.pos))
      {
        assert Descriptor(m.c, cl.threads[t].op.fd) in w;
        assert Seeking(cl.threads[t]) && Seeking(cl.threads[m.t]);
      }
    }
    AnswerThreads(cfg, mine, cl, AnswerEvent(m), p);
  }

  lemma AnswerWaiters(cfg: Config, cl: ClientState, e: Client.Event)
    requires cfg.servers > 0 && (e.OpenAnswer? || e.ReadAnswer? || e.SeekAnswer?)
    ensures var cl' := Do(cfg, cl, e);
            && |cl'.threads| == |cl.threads|
            && forall t :: 0 <= t < |cl.threads| && cl'.threads[t].Waiting? ==>
                 cl.threads[t].Waiting? && cl.threads[t].id == cl'.threads[t].id && cl.threads[t].op == cl'.threads[t].op
  {
  }

  // ---------------------------------------------------------------- requests handled by a server

  // The cursor of every descriptor in w but fd of client c stays, for only that one's own descriptor may move.
  lemma SteadyCursor(
      cfg: Config, w: iset<Descriptor>, s: Sys, s': Sys, moved: Option<Place>, mover: Descriptor, d: Descriptor, cursor: nat)
    requires cfg.servers > 0 && Basic(cfg, s) && Tokens(cfg, s) && Steady(cfg, w, s, s', moved)
    requires moved.Some? ==> Owns(cfg, s, Entry(mover.c, mover.fd), moved.value.h, moved.value.r)
    requires d in w && d != mover && d.c < |s.clients| && d.fd in s.clients[d.c].local
    requires d.fd in s.clients[d.c].acked && d.fd in s.clients[d.c].redir ==> s.clients[d.c].redir[d.fd] >= 0
    requires CursorRel(cfg, s, s.clients[d.c], d.fd, cursor)
    ensures CursorRel(cfg, s', s.clients[d.c], d.fd, cursor)
  {
    var cl, fd := s.clients[d.c], d.fd;
    if fd in cl.fdMap && fd in cl.acked && fd in cl.redir {
      var h, r := HostOf(cfg, cl.fdMap[fd]), cl.redir[fd];
      assert Owns(cfg, s, Entry(d.c, fd), h, r);
      assert Descriptor(d.c, fd) in w && Held(cfg, w, s, h, r);
      if Up(s', h) {
        assert Up(s, h) && r in s.servers[h].files;
        assert moved == Some(Place(h, r)) ==> Entry(d.c, fd) == Entry(mover.c, mover.fd);
      }
    }
  }

  // Nothing moves, or a descriptor moves that no descriptor in w owns.
  lemma SteadyFiles(cfg: Config, w: iset<Descriptor>, s: Sys, s': Sys, a: Spec, moved: Option<Place>, mover: Descriptor)
    requires cfg.servers > 0 && Basic(cfg, s) && Tokens(cfg, s) && ClientsSane(w, s) && Rel(cfg, w, s, a)
    requires Steady(cfg, w, s, s', moved) && s'.clients == s.clients
    requires moved.Some? ==> Owns(cfg, s, Entry(mover.c, mover.fd), moved.value.h, moved.value.r)
    ensures forall c: nat, fd :: c < |a| && fd in a[c].files && !(moved.Some? && Descriptor(c, fd) == mover) ==>
              fd in s'.clients[c].local && CursorRel(cfg, s', s'.clients[c], fd, a[c].files[fd].cursor)
  {
    forall c: nat, fd | c < |a| && fd in a[c].files && !(moved.Some? && Descriptor(c, fd) == mover)
      ensures fd in s'.clients[c].local && CursorRel(cfg, s', s'.clients[c], fd, a[c].files[fd].cursor)
    {
      assert FilesRel(cfg, s, Of(w, c), s.clients[c], a[c].files) && ClientSane(Of(w, c), s.clients[c]);
      assert CursorRel(cfg, s, s.clients[c], fd, a[c].files[fd].cursor);
      if moved.Some? {
        SteadyCursor(cfg, w, s, s', moved, mover, Descriptor(c, fd), a[c].files[fd].cursor);
      } else {
        SteadyCursor(cfg, w, s, s', moved, Descriptor(c + 1, fd), Descriptor(c, fd), a[c].files[fd].cursor);
      }
    }
  }

  // Clients as they were, cursors as they were, and no news for a descriptor in w.
  lemma QuietRel(cfg: Config, w: iset<Descriptor>, s: Sys, s': Sys, a: Spec)
    requires cfg.servers > 0 && Rel(cfg, w, s, a) && s'.clients == s.clients
    requires forall c: nat, fd :: c < |a| && fd in a[c].files ==>
               fd in s'.clients[c].local && CursorRel(cfg, s', s'.clients[c], fd, a[c].files[fd].cursor)
    requires forall m :: m in s'.net && m !in s.net ==> MsgRel(w, s', a, m)
    ensures Rel(cfg, w, s', a)
  {
    forall c | 0 <= c < |a|
      ensures FilesRel(cfg, s', Of(w, c), s'.clients[c], a[c].files)
    {
      assert FilesRel(cfg, s, Of(w, c), s.clients[c], a[c].files);
    }
    forall m | m in s'.net && m in s.net
      ensures MsgRel(w, s', a, m)
    {
      assert MsgRel(w, s, a, m);
    }
  }

  lemma OtherSim(cfg: Config, w: iset<Descriptor>, s: Sys, a: Spec, e: SysEvent)
    requires CanSimulate(cfg, w, s, a, e) && (e.ServerActs? || e.Crash? || e.Lose?)
    ensures Follows(cfg, a, Trace(cfg, w, s, e), a) && Rel(cfg, w, Next(cfg, s, e), a)
  {
    OtherSteady(cfg, w, s, e);
    SteadyFiles(cfg, w, s, Next(cfg, s, e), a, None, Descriptor(0, 0));
    QuietRel(cfg, w, s, Next(cfg, s, e), a);
  }

  // Where a sequential request in flight finds the cursor of the plain file.
  ghost predicate Carried(cfg: Config, w: iset<Descriptor>, s: Sys, a: Spec, m: Msg, ok: bool)
    requires !IsReply(m) && m.host < |s.servers|
  {
    && |a| == |s.clients| && Effective(w, s, m, ok) && m.t < |a[m.c].threads|
    && var op := s.clients[m.c].threads[m.t].op;
       var files, sv := a[m.c].files, s.servers[m.host];
       && KindOk(op, m) && Faithful(op)
       && (m.ReadReq? ==> m.count == op.count) && (m.SeekReq? ==> m.delta == Int32(op.delta) && m.whence == op.whence)
       && a[m.c].threads[m.t] == Pending(op)
       && op.fd in files && m.remoteFd in sv.files
       && sv.files[m.remoteFd] == OpenFile(Contents(cfg, files, op.fd), files[op.fd].cursor)
  }

  lemma CarriedCursor(cfg: Config, w: iset<Descriptor>, s: Sys, a: Spec, m: Msg, ok: bool)
    requires SysInv(cfg, w, s) && Sane(w, s) && Rel(cfg, w, s, a)
    requires m in s.net && !IsReply(m) && Up(s, m.host) && Effective(w, s, m, ok)
    ensures Carried(cfg, w, s, a, m, ok)
  {
    OwnRequestOwned(cfg, w, s, m);
    var cl, sv := s.clients[m.c], s.servers[m.host];
    var th := cl.threads[m.t];
    assert MsgRel(w, s, a, m) && ClientSane(Of(w, m.c), cl) && ThreadSane(Of(w, m.c), cl, th);
    assert ClientOk(cfg, cl) && ThreadOk(cfg, cl, th);
    assert ThreadsRel(Of(w, m.c), cl, a[m.c]);
    CarriedFile(cfg, s, Of(w, m.c), m.c, th.op.fd, m.host, m.remoteFd, a[m.c].files);
  }

  // The server's descriptor is open on the plain file, with its cursor.
  lemma CarriedFile(cfg: Config, s: Sys, mine: iset<int>, c: nat, fd: int, h: nat, r: int, files: Descriptors)
    requires Basic(cfg, s) && Tokens(cfg, s) && Up(s, h) && c < |s.clients|
    requires Owns(cfg, s, Entry(c, fd), h, r) && r >= 0 && fd in s.clients[c].local && fd in mine
    requires FilesRel(cfg, s, mine, s.clients[c], files)
    ensures fd in files && r in s.servers[h].files
    ensures s.servers[h].files[r] == OpenFile(Contents(cfg, files, fd), files[fd].cursor)
  {
    var cl, sv := s.clients[c], s.servers[h];
    assert ClientOk(cfg, cl) && Inv(cfg.pfs, sv);
    assert CursorRel(cfg, s, cl, fd, files[fd].cursor);
    assert sv.fdToPath[r] == cl.fdMap[fd];
  }

  // What the server makes of it: the cursor moves as that of the plain file, and so reads the reply.
  lemma HandledLikePlain(cfg: Config, w: iset<Descriptor>, s: Sys, a: Spec, m: Msg, fd: int, ok: bool, ok2: bool)
    requires !IsReply(m) && m.host < |s.servers| && Carried(cfg, w, s, a, m, ok)
    ensures var op := s.clients[m.c].threads[m.t].op;
            var files, sv := a[m.c].files, s.servers[m.host];
            var (sv', replies) := Handle(sv, m, fd, ok, ok2);
            && op.fd in PlainAfter(cfg, files, op)
            && PlainAfter(cfg, files, op) == files[op.fd := files[op.fd].(cursor := PlainAfter(cfg, files, op)[op.fd].cursor)]
            && m.remoteFd in sv'.files && sv'.files[m.remoteFd].cursor == PlainAfter(cfg, files, op)[op.fd].cursor
            && (forall n :: n in replies ==> (n.ReadReply? || n.SeekReply?) && n.c == m.c && n.t == m.t && n.id == m.id)
            && (forall n :: n in replies && n.ReadReply? ==> n.ret == PlainRet(cfg, files, op))
            && (forall n :: n in replies && n.SeekReply? ==> Agree(Pos(n.pos), PlainRet(cfg, files, op)))
  {
  }

  lemma EffectThreads(mine: iset<int>, cfg: Config, cl: ClientState, t: nat, p: PlainProcess)
    requires ThreadsRel(mine, cl, p) && t < |cl.threads| && cl.threads[t].Waiting? && cl.threads[t].answer.None?
    requires cl.threads[t].op.OpRead? || cl.threads[t].op.OpSeek?
    requires p.threads[t] == Pending(cl.threads[t].op) && cl.threads[t].op.fd in mine && cl.threads[t].op.fd in cl.acked
    requires cl.threads[t].op.OpSeek? ==> cl.seeksDone == 0
    ensures ThreadsRel(mine, cl, Effected(cfg, p, t))
  {
    assert ThreadRel(mine, cl, cl.threads[t], p.threads[t]);
  }

  lemma EffectSim(cfg: Config, w: iset<Descriptor>, s: Sys, a: Spec, e: SysEvent) returns (a': Spec)
    requires CanSimulate(cfg, w, s, a, e) && e.Serve? && Effective(w, s, e.m, e.ok)
    ensures Follows(cfg, a, Trace(cfg, w, s, e), a') && Rel(cfg, w, Next(cfg, s, e), a')
  {
    var m := e.m;
    CarriedCursor(cfg, w, s, a, m, e.ok);
    a' := a[m.c := Effected(cfg, a[m.c], m.t)];
    FollowsOne(cfg, a, m.c, Effect(m.t));
    ServeSteady(cfg, w, s, e);
    EffectStep(cfg, w, s, Next(cfg, s, e), a, m, e.fd, e.ok, e.ok2);
  }

  lemma EffectStep(cfg: Config, w: iset<Descriptor>, s: Sys, s': Sys, a: Spec, m: Msg, fd: int, ok: bool, ok2: bool)
    requires SysInv(cfg, w, s) && Sane(w, s) && Rel(cfg, w, s, a)
    requires m in s.net && !IsReply(m) && Up(s, m.host) && Carried(cfg, w, s, a, m, ok)
    requires Steady(cfg, w, s, s', Moved(w, s, m)) && s'.clients == s.clients
    requires s'.servers == s.servers[m.host := Handle(s.servers[m.host], m, fd, ok, ok2).0]
    requires s'.net == s.net - {m} + Handle(s.servers[m.host], m, fd, ok, ok2).1
    ensures Rel(cfg, w, s', a[m.c := Effected(cfg, a[m.c], m.t)])
  {
    EffectThreadsRel(cfg, w, s, a, m, ok);
    EffectFilesRel(cfg, w, s, s', a, m, fd, ok, ok2);
    EffectMsgRel(cfg, w, s, s', a, m, fd, ok, ok2);
    EffectRel(cfg, w, s, s', a, a[m.c := Effected(cfg, a[m.c], m.t)], m.c);
  }

  lemma EffectRel(cfg: Config, w: iset<Descriptor>, s: Sys, s': Sys, a: Spec, a': Spec, c: nat)
    requires cfg.servers > 0 && Rel(cfg, w, s, a) && s'.clients == s.clients && |a'| == |a| && c < |a|
    requires forall d :: 0 <= d < |a| && d != c ==> a'[d] == a[d]
    requires ThreadsRel(Of(w, c), s.clients[c], a'[c])
    requires forall d :: 0 <= d < |a| ==> FilesRel(cfg, s', Of(w, d), s'.clients[d], a'[d].files)
    requires forall m :: m in s'.net ==> MsgRel(w, s', a', m)
    ensures Rel(cfg, w, s', a')
  {
  }

  lemma EffectThreadsRel(cfg: Config, w: iset<Descriptor>, s: Sys, a: Spec, m: Msg, ok: bool)
    requires SysInv(cfg, w, s) && Sane(w, s) && Rel(cfg, w, s, a)
    requires m in s.net && !IsReply(m) && Up(s, m.host) && Carried(cfg, w, s, a, m, ok)
    ensures ThreadsRel(Of(w, m.c), s.clients[m.c], Effected(cfg, a[m.c], m.t))
  {
    OwnRequestOwned(cfg, w, s, m);
    assert Unanswered(s, m) && SeekAwaited(w, s, m);
    assert Descriptor(m.c, s.clients[m.c].threads[m.t].op.fd) in w;
    assert ThreadsRel(Of(w, m.c), s.clients[m.c], a[m.c]);
    EffectThreads(Of(w, m.c), cfg, s.clients[m.c], m.t, a[m.c]);
  }

  lemma EffectFilesRel(cfg: Config, w: iset<Descriptor>, s: Sys, s': Sys, a: Spec, m: Msg, fd: int, ok: bool, ok2: bool)
    requires SysInv(cfg, w, s) && ClientsSane(w, s) && Rel(cfg, w, s, a) && m in s.net && !IsReply(m) && Up(s, m.host)
    requires Carried(cfg, w, s, a, m, ok) && Steady(cfg, w, s, s', Moved(w, s, m)) && s'.clients == s.clients
    requires s'.servers == s.servers[m.host := Handle(s.servers[m.host], m, fd, ok, ok2).0]
    ensures forall c :: 0 <= c < |a| ==>
              FilesRel(cfg, s', Of(w, c), s'.clients[c], a[m.c := Effected(cfg, a[m.c], m.t)][c].files)
  {
    var g := s.clients[m.c].threads[m.t].op.fd;
    OwnRequestOwned(cfg, w, s, m);
    SteadyFiles(cfg, w, s, s', a, Moved(w, s, m), Descriptor(m.c, g));
    EffectMoves(cfg, w, s, s', a, m, fd, ok, ok2);
    MovedFilesRel(cfg, w, s, s', a, m.c, g, m.host, m.remoteFd, Effected(cfg, a[m.c], m.t).files);
  }

  lemma EffectMoves(cfg: Config, w: iset<Descriptor>, s: Sys, s': Sys, a: Spec, m: Msg, fd: int, ok: bool, ok2: bool)
    requires !IsReply(m) && m.host < |s.servers| && Carried(cfg, w, s, a, m, ok)
    requires s'.servers == s.servers[m.host := Handle(s.servers[m.host], m, fd, ok, ok2).0]
    ensures var g := s.clients[m.c].threads[m.t].op.fd;
            var files := Effected(cfg, a[m.c], m.t).files;
            && g in a[m.c].files && g in files && files == a[m.c].files[g := a[m.c].files[g].(cursor := files[g].cursor)]
            && m.remoteFd in s'.servers[m.host].files && s'.servers[m.host].files[m.remoteFd].cursor == files[g].cursor
  {
    HandledLikePlain(cfg, w, s, a, m, fd, ok, ok2);
  }

  lemma MovedFilesRel(
      cfg: Config, w: iset<Descriptor>, s: Sys, s': Sys, a: Spec, c: nat, fd: int, h: nat, r: int, files: Descriptors)
    requires cfg.servers > 0 && Rel(cfg, w, s, a) && s'.clients == s.clients && Owns(cfg, s, Entry(c, fd), h, r)
    requires forall d: nat, g :: d < |a| && g in a[d].files && Descriptor(d, g) != Descriptor(c, fd) ==>
               g in s'.clients[d].local && CursorRel(cfg, s', s'.clients[d], g, a[d].files[g].cursor)
    requires fd in a[c].files && fd in files && files == a[c].files[fd := a[c].files[fd].(cursor := files[fd].cursor)]
    requires h < |s'.servers| && r in s'.servers[h].files && s'.servers[h].files[r].cursor == files[fd].cursor
    ensures forall d :: 0 <= d < |a| ==> FilesRel(cfg, s', Of(w, d), s'.clients[d], if d == c then files else a[d].files)
  {
    forall d | 0 <= d < |a|
      ensures FilesRel(cfg, s', Of(w, d), s'.clients[d], if d == c then files else a[d].files)
    {
      assert FilesRel(cfg, s, Of(w, d), s.clients[d], a[d].files);
    }
  }

  lemma EffectMsgRel(cfg: Config, w: iset<Descriptor>, s: Sys, s': Sys, a: Spec, m: Msg, fd: int, ok: bool, ok2: bool)
    requires !IsReply(m) && m in s.net && m.host < |s.servers| && Carried(cfg, w, s, a, m, ok) && UniqueIds(s)
    requires s'.clients == s.clients && s'.net == s.net - {m} + Handle(s.servers[m.host], m, fd, ok, ok2).1
    requires forall n :: n in s.net ==> MsgRel(w, s, a, n)
    ensures forall n :: n in s'.net ==> MsgRel(w, s', a[m.c := Effected(cfg, a[m.c], m.t)], n)
  {
    HandledLikePlain(cfg, w, s, a, m, fd, ok, ok2);
    forall n | n in s'.net
      ensures MsgRel(w, s', a[m.c := Effected(cfg, a[m.c], m.t)], n)
    {
      if n in s.net && n != m {
        assert MsgRel(w, s, a, n);
      }
    }
  }

  // A request without effect on a descriptor in w: not sequential, of another descriptor, or fatal to the server.
  lemma IneffectiveSim(cfg: Config, w: iset<Descriptor>, s: Sys, a: Spec, e: SysEvent)
    requires CanSimulate(cfg, w, s, a, e) && e.Serve? && !Effective(w, s, e.m, e.ok)
    ensures Follows(cfg, a, Trace(cfg, w, s, e), a) && Rel(cfg, w, Next(cfg, s, e), a)
  {
    var m, s' := e.m, Next(cfg, s, e);
    ServeSteady(cfg, w, s, e);
    if Moved(w, s, m).Some? {
      OwnRequestOwned(cfg, w, s, m);
      SteadyFiles(cfg, w, s, s', a, Moved(w, s, m), Descriptor(m.c, s.clients[m.c].threads[m.t].op.fd));
      IneffectiveCursor(cfg, w, s, a, e);
    } else {
      SteadyFiles(cfg, w, s, s', a, None, Descriptor(0, 0));
    }
    IneffectiveMsgRel(cfg, w, s, a, e);
    QuietRel(cfg, w, s, s', a);
  }

  // The server does not survive it if it is the request of a descriptor in w after all.
  lemma IneffectiveCursor(cfg: Config, w: iset<Descriptor>, s: Sys, a: Spec, e: SysEvent)
    requires CanSimulate(cfg, w, s, a, e) && e.Serve? && !Effective(w, s, e.m, e.ok)
    requires Sequential(e.m) && OwnRequest(w, s, e.m)
    ensures var s', c := Next(cfg, s, e), e.m.c;
            c < |a| && e.m.t < |s.clients[c].threads| && s.clients[c].threads[e.m.t].Waiting?
            && var fd := s.clients[c].threads[e.m.t].op.fd;
               fd in a[c].files ==> fd in s'.clients[c].local && CursorRel(cfg, s', s'.clients[c], fd, a[c].files[fd].cursor)
  {
    var m, c := e.m, e.m.c;
    OwnRequestOwned(cfg, w, s, m);
    var cl := s.clients[c];
    var th := cl.threads[m.t];
    assert FilesRel(cfg, s, Of(w, c), cl, a[c].files);
    if th.op.fd in a[c].files {
      assert ClientSane(Of(w, c), cl) && ThreadSane(Of(w, c), cl, th);
      assert !Up(Next(cfg, s, e), m.host);
    }
  }

  lemma IneffectiveMsgRel(cfg: Config, w: iset<Descriptor>, s: Sys, a: Spec, e: SysEvent)
    requires CanSimulate(cfg, w, s, a, e) && e.Serve? && !Effective(w, s, e.m, e.ok)
    ensures forall n :: n in Next(cfg, s, e).net && n !in s.net ==> MsgRel(w, Next(cfg, s, e), a, n)
  {
    var m := e.m;
    if Matches(s, m) && s.clients[m.c].threads[m.t].op.fd in Of(w, m.c) {
      assert MsgOk(cfg, w, s, m);
      assert ClientSane(Of(w, m.c), s.clients[m.c]) && ThreadSane(Of(w, m.c), s.clients[m.c], s.clients[m.c].threads[m.t]);
    }
    forall n | n in Handle(s.servers[m.host], m, e.fd, e.ok, e.ok2).1
      ensures MsgRel(w, Next(cfg, s, e), a, n)
    {
      IneffectiveReply(w, s, Next(cfg, s, e), a, m, e.fd, e.ok, e.ok2, n);
    }
  }

  // Its reply is not one that a read or seek on a descriptor in w waits for.
  lemma IneffectiveReply(
      w: iset<Descriptor>, s: Sys, s': Sys, a: Spec, m: Msg, fd: int, ok: bool, ok2: bool, n: Msg)
    requires |a| == |s.clients| && s'.clients == s.clients && !IsReply(m) && m.host < |s.servers|
    requires (m.OpenReq? ==> CanOpen(s.servers[m.host], m.path, fd)) && !Effective(w, s, m, ok)
    requires Matches(s, m) && s.clients[m.c].threads[m.t].op.fd in Of(w, m.c) ==>
               var op := s.clients[m.c].threads[m.t].op;
               && KindOk(op, m) && Faithful(op) && (m.ReadReq? ==> m.offset == WireOffset(op))
               && (m.ReadReq? && m.offset == -1 ==> !Retried(s.servers[m.host], m, ok, ok2))
    requires n in Handle(s.servers[m.host], m, fd, ok, ok2).1
    ensures MsgRel(w, s', a, n)
  {
  }

  // ---------------------------------------------------------------- any event

  // One event of the cache is a few steps of the plain processes, mostly none.
  lemma EventSim(cfg: Config, w: iset<Descriptor>, s: Sys, a: Spec, e: SysEvent) returns (a': Spec)
    requires CanSimulate(cfg, w, s, a, e)
    ensures Follows(cfg, a, Trace(cfg, w, s, e), a') && Rel(cfg, w, Next(cfg, s, e), a')
  {
    a' := a;
    match e
    case ClientActs(c, ce) =>
      assert ClientOk(cfg, s.clients[c]) && ClientSane(Of(w, c), s.clients[c]);
      if ce.Call? {
        a' := CallSim(cfg, w, s, a, e);
      } else if ce.Wake? || ce.TimeOut? {
        a' := EndSim(cfg, w, s, a, e);
      } else {
        a' := ReturnSim(cfg, w, s, a, e);
      }
    case ClientSends(_, _) => a' := SendSim(cfg, w, s, a, e);
    case Deliver(_) => DeliverSim(cfg, w, s, a, e);
    case Serve(m, _, ok, _) =>
      if Effective(w, s, m, ok) {
        a' := EffectSim(cfg, w, s, a, e);
      } else {
        IneffectiveSim(cfg, w, s, a, e);
      }
    case _ => OtherSim(cfg, w, s, a, e);
  }

  // ---------------------------------------------------------------- whole runs

  // A disciplined run in which nothing happens to the descriptors in w that breaks their cursors.
  ghost predicate IsSoundRun(cfg: Config, w: iset<Descriptor>, run: SysRun) {
    && IsDisciplinedRun(cfg, w, run)
    && (forall i :: 0 <= i < |run.events| ==> Sound(cfg, w, run.states[i], run.events[i]))
  }

  // Every process starts without open files, its threads outside any call.
  function PlainStart(s: Sys): Spec {
    seq(|s.clients|, c requires 0 <= c < |s.clients| =>
      PlainProcess(map[], seq(|s.clients[c].threads|, _ => Off)))
  }

  lemma RunStarts(cfg: Config, w: iset<Descriptor>, run: SysRun)
    requires IsSysRun(cfg, run)
    ensures Sane(w, run.states[0]) && Rel(cfg, w, run.states[0], PlainStart(run.states[0]))
  {
    InitialSane(cfg, w, run.states[0]);
    InitialRel(cfg, w, run.states[0]);
  }

  lemma InitialRel(cfg: Config, w: iset<Descriptor>, s: Sys)
    requires Initial(cfg, s)
    ensures Rel(cfg, w, s, PlainStart(s))
  {
  }

  lemma StaysSane(cfg: Config, w: iset<Descriptor>, run: SysRun, i: nat)
    requires IsSoundRun(cfg, w, run) && i < |run.events| && Sane(w, run.states[i])
    ensures Sane(w, run.states[i + 1])
  {
    Reachable(cfg, w, run, i);
    EventSane(cfg, w, run.states[i], run.events[i]);
  }

  lemma {:induction false} ByInduction(p: nat -> bool, n: nat)
    requires p(0) && forall i: nat :: i < n && p(i) ==> p(i + 1)
    ensures p(n)
  {
    if n > 0 {
      ByInduction(p, n - 1);
    }
  }

  lemma AlwaysSane(cfg: Config, w: iset<Descriptor>, run: SysRun, i: nat)
    requires IsSoundRun(cfg, w, run) && i < |run.states|
    ensures Sane(w, run.states[i])
  {
    ghost var p := (j: nat) => j < |run.states| && Sane(w, run.states[j]);
    RunStarts(cfg, w, run);
    forall j: nat | j < i && p(j)
      ensures p(j + 1)
    {
      StaysSane(cfg, w, run, j);
    }
    ByInduction(p, i);
  }

  // The run of the plain processes that shadows the first i events of the cache.
  ghost predicate Shadows(cfg: Config, w: iset<Descriptor>, run: SysRun, plain: seq<Spec>, i: nat)
    requires IsSysRun(cfg, run) && i < |run.states|
  {
    && |plain| == i + 1 && plain[0] == PlainStart(run.states[0])
    && (forall j :: 0 <= j < i ==> Follows(cfg, plain[j], Trace(cfg, w, run.states[j], run.events[j]), plain[j + 1]))
    && (forall j :: 0 <= j <= i ==> Rel(cfg, w, run.states[j], plain[j]))
  }

  lemma ShadowNext(cfg: Config, w: iset<Descriptor>, run: SysRun, a: Spec, i: nat) returns (next: Spec)
    requires IsSoundRun(cfg, w, run) && i < |run.events|
    requires Sane(w, run.states[i]) && Rel(cfg, w, run.states[i], a)
    ensures Follows(cfg, a, Trace(cfg, w, run.states[i], run.events[i]), next) && Rel(cfg, w, run.states[i + 1], next)
  {
    Reachable(cfg, w, run, i);
    next := EventSim(cfg, w, run.states[i], a, run.events[i]);
  }

  lemma ShadowsSnoc(cfg: Config, w: iset<Descriptor>, run: SysRun, plain: seq<Spec>, next: Spec, i: nat)
    requires IsSysRun(cfg, run) && i < |run.events| && Shadows(cfg, w, run, plain, i)
    requires Follows(cfg, plain[i], Trace(cfg, w, run.states[i], run.events[i]), next) && Rel(cfg, w, run.states[i + 1], next)
    ensures Shadows(cfg, w, run, plain + [next], i + 1)
  {
    var longer := plain + [next];
    assert longer[i] == plain[i] && longer[i + 1] == next;
    forall j | 0 <= j <= i
      ensures Follows(cfg, longer[j], Trace(cfg, w, run.states[j], run.events[j]), longer[j + 1])
    {
      if j < i {
        assert longer[j] == plain[j] && longer[j + 1] == plain[j + 1];
      }
    }
  }

  // Every sound run refines a run of plain files with one cursor each, as far as the descriptors in w go: their calls
  // start and end where they do in the cache, take effect once in between, and return what the plain files return.
  lemma {:induction false} CursorRefinementTheorem(cfg: Config, w: iset<Descriptor>, run: SysRun, i: nat)
    returns (plain: seq<Spec>)
    requires IsSoundRun(cfg, w, run) && i < |run.states|
    ensures Shadows(cfg, w, run, plain, i)
  {
    if i == 0 {
      RunStarts(cfg, w, run);
      plain := [PlainStart(run.states[0])];
    } else {
      var shorter := CursorRefinementTheorem(cfg, w, run, i - 1);
      AlwaysSane(cfg, w, run, i - 1);
      var next := ShadowNext(cfg, w, run, shorter[i - 1], i - 1);
      ShadowsSnoc(cfg, w, run, shorter, next, i - 1);
      plain := shorter + [next];
    }
  }

  // What a thread holds at the end of a call on a descriptor in w is what the plain file returned, but that a
  // position beyond 31 bits is cut.
  lemma ReturnsLikePlain(cfg: Config, w: iset<Descriptor>, run: SysRun, plain: seq<Spec>, i: nat, c: nat, t: nat)
    requires IsSysRun(cfg, run) && i < |run.states| && Shadows(cfg, w, run, plain, i)
    requires c < |run.states[i].clients| && t < |run.states[i].clients[c].threads|
    requires var th := run.states[i].clients[c].threads[t]; th.Returned? && Descriptor(c, th.op.fd) in w
    ensures var th := run.states[i].clients[c].threads[t];
            && c < |plain[i]| && t < |plain[i][c].threads| && plain[i][c].threads[t].Finished?
            && plain[i][c].threads[t].op == th.op
            && Agree(th.ret, plain[i][c].threads[t].ret)
            && (!plain[i][c].threads[t].ret.Pos? ==> th.ret == plain[i][c].threads[t].ret)
            && (plain[i][c].threads[t].ret.Pos? ==>
                  th.ret.Pos? && (plain[i][c].threads[t].ret.pos - th.ret.pos) % 0x1_0000_0000 == 0)
            && (plain[i][c].threads[t].ret.Pos? && -1 <= plain[i][c].threads[t].ret.pos < 0x8000_0000 ==>
                  th.ret == plain[i][c].threads[t].ret)
  {
    var s := run.states[i];
    assert Rel(cfg, w, s, plain[i]);
    assert ThreadsRel(Of(w, c), s.clients[c], plain[i][c]);
    assert ThreadRel(Of(w, c), s.clients[c], s.clients[c].threads[t], plain[i][c].threads[t]);
  }
}
