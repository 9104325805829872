// When a seek that is served does what the plain seek does, and when its thread hears of it.
module Seeks {
  import opened PlainFile
  import opened Wrappers
  import opened Server
  import opened Client
  import opened System
  import opened ClientTables
  import opened Ownership
  import opened Transparency
  import opened CursorRefinement
  import opened CursorInvariants
  import opened SequentialReads

  // ---------------------------------------------------------------- the cut of the offset

  // The server's seek by the cut offset moves the cursor as the plain seek by the whole one.
  predicate MovesAlike(file: Bytes, k: nat, delta: int, whence: int) {
    AfterSeek(file, k, Int32(delta), whence) == AfterSeek(file, k, delta, whence)
  }

  // In every state of every file it does so exactly for offsets that fit 32 bits.
  lemma OffsetTravelsIff(delta: int)
    ensures (forall file, k, whence :: MovesAlike(file, k, delta, whence)) <==> Int32(delta) == delta
  {
    if Int32(delta) != delta {
      var cut := Int32(delta);
      var k: nat := (if delta < 0 then -delta else delta) + 0x8000_0000;
      assert SeekTarget([], k, delta, SEEK_CUR) == k + delta && SeekTarget([], k, cut, SEEK_CUR) == k + cut;
      assert !MovesAlike([], k, delta, SEEK_CUR);
    }
  }

  // An offset that is not too small and does not fit goes wrong for some whence from every single state.
  lemma LargeOffsetMisplaces(file: Bytes, k: nat, delta: int)
    requires delta >= 0x8000_0000
    ensures !MovesAlike(file, k, delta, SEEK_SET) || !MovesAlike(file, k, delta, SEEK_CUR)
  {
  }

  // From a related state: the server moves the cursor as the plain file does, for every whence, exactly when the
  // offset fits. Below the range the plain seek fails, so that the cut one must leave the cursor where it is.
  lemma SeekCursorIff(cfg: Config, w: iset<Descriptor>, s: Sys, a: Spec, c: nat, fd: int, h: nat, r: int, delta: int)
    requires Related(cfg, w, s, a, c, fd) && ServedAt(cfg, s, c, fd, h, r)
    ensures |a| == |s.clients| && fd in a[c].files && r in s.servers[h].files
    ensures delta >= -0x8000_0000 ==>
              ((forall whence :: SeeksAlike(cfg, s.servers[h], r, a[c].files, fd, delta, whence)) <==> Int32(delta) == delta)
    ensures var file, k := FileOf(cfg, s, c, fd), a[c].files[fd].cursor;
            delta < -0x8000_0000 && Readable(file) && k < 0x8000_0000 ==>
              forall whence :: SeeksAlike(cfg, s.servers[h], r, a[c].files, fd, delta, whence)
                               <==> AfterSeek(file, k, Int32(delta), whence) == k
  {
    AnswerOf(cfg, w, s, a, c, fd, h, r);
    SameFile(cfg, w, s, a, c, fd);
    var file, k := FileOf(cfg, s, c, fd), a[c].files[fd].cursor;
    assert forall whence ::
        SeeksAlike(cfg, s.servers[h], r, a[c].files, fd, delta, whence) <==> MovesAlike(file, k, delta, whence);
    if delta >= 0x8000_0000 {
      LargeOffsetMisplaces(file, k, delta);
    }
  }

  // The handler of the cut offset leaves the server's cursor where the plain call leaves the plain one.
  predicate SeeksAlike(cfg: Config, sv: ServerState, r: int, files: Descriptors, fd: int, delta: int, whence: int)
    requires r in sv.files && fd in files
  {
    var after := PlainAfter(cfg, files, OpSeek(fd, delta, whence));
    fd in after && HandleSeek(sv, r, Int32(delta), whence).0.files[r].cursor == after[fd].cursor
  }

  // ---------------------------------------------------------------- the cut of the position

  // The reply to a seek whose offset fits is the plain position exactly when that is below 2^31.
  lemma SeekReplyIff(
      cfg: Config, w: iset<Descriptor>, s: Sys, a: Spec, c: nat, fd: int, h: nat, r: int, delta: int, whence: int)
    requires Related(cfg, w, s, a, c, fd) && ServedAt(cfg, s, c, fd, h, r) && Int32(delta) == delta
    ensures |a| == |s.clients| && fd in a[c].files
    ensures HandleSeek(s.servers[h], r, Int32(delta), whence).1 == PlainRet(cfg, a[c].files, OpSeek(fd, delta, whence))
            <==> SeekTarget(FileOf(cfg, s, c, fd), a[c].files[fd].cursor, delta, whence) < 0x8000_0000
  {
    AnswerOf(cfg, w, s, a, c, fd, h, r);
    SameFile(cfg, w, s, a, c, fd);
  }

  // A seek on the -1 of a failed open replies a failure, as the plain call does exactly when its target is negative.
  lemma FailedOpenSeekIff(
      cfg: Config, w: iset<Descriptor>, s: Sys, a: Spec, c: nat, fd: int, sv: ServerState, delta: int, whence: int)
    requires Related(cfg, w, s, a, c, fd) && -1 !in sv.files
    ensures |a| == |s.clients| && fd in a[c].files
    ensures HandleSeek(sv, -1, Int32(delta), whence) == (sv, Pos(-1))
    ensures PlainRet(cfg, a[c].files, OpSeek(fd, delta, whence)) == Pos(-1)
            <==> SeekTarget(FileOf(cfg, s, c, fd), a[c].files[fd].cursor, delta, whence) < 0
  {
    SameFile(cfg, w, s, a, c, fd);
  }

  // ---------------------------------------------------------------- one seek at a time

  // In a process that seeks one at a time, the delivery of a reply lets the thread that asked for it wake up, with
  // the position it carries.
  lemma ReplyWakesItsThread(cfg: Config, w: iset<Descriptor>, s: Sys, m: Msg)
    requires SysInv(cfg, w, s) && Sane(w, s) && m.SeekReply? && Watches(w, m.c) && Enabled(cfg, s, Deliver(m))
    ensures m.t < |s.clients[m.c].threads| && s.clients[m.c].threads[m.t].Waiting?
    ensures var heard := Next(cfg, s, Deliver(m));
            && Enabled(cfg, heard, ClientActs(m.c, Wake(m.t)))
            && var woken := Next(cfg, heard, ClientActs(m.c, Wake(m.t)));
               m.c < |woken.clients| && m.t < |woken.clients[m.c].threads|
               && woken.clients[m.c].threads[m.t] == Returned(s.clients[m.c].threads[m.t].op, Pos(m.pos))
  {
    assert SeekAwaited(w, s, m) && MsgOk(cfg, w, s, m);
  }

  // The thread waits for a seek, and the count of replies has gone past the one it waits to see.
  predicate Blocked(cl: ClientState, t: nat) {
    t < |cl.threads| && cl.threads[t].Waiting? && cl.threads[t].op.OpSeek? && cl.seeksDone >= 2
  }

  // The state after a sequence of events, if all of them can happen.
  ghost function AfterEvents(cfg: Config, s: Sys, events: seq<SysEvent>): Option<Sys>
    requires cfg.servers > 0
    decreases |events|
  {
    if events == [] then Some(s)
    else if !Enabled(cfg, s, events[0]) then None
    else AfterEvents(cfg, Next(cfg, s, events[0]), events[1..])
  }

  lemma AfterCons(cfg: Config, s: Sys, e: SysEvent, rest: seq<SysEvent>)
    requires cfg.servers > 0 && Enabled(cfg, s, e)
    ensures AfterEvents(cfg, s, [e] + rest) == AfterEvents(cfg, Next(cfg, s, e), rest)
  {
    assert ([e] + rest)[1..] == rest;
  }

  lemma AfterFour(cfg: Config, s: Sys, e: SysEvent, f: SysEvent, g: SysEvent, h: SysEvent)
    requires cfg.servers > 0 && Enabled(cfg, s, e) && Enabled(cfg, Next(cfg, s, e), f)
    requires Enabled(cfg, Next(cfg, Next(cfg, s, e), f), g)
    requires Enabled(cfg, Next(cfg, Next(cfg, Next(cfg, s, e), f), g), h)
    ensures AfterEvents(cfg, s, [e, f, g, h]) == Some(Next(cfg, Next(cfg, Next(cfg, Next(cfg, s, e), f), g), h))
  {
    var s1 := Next(cfg, s, e);
    var s2 := Next(cfg, s1, f);
    var s3 := Next(cfg, s2, g);
    assert [e, f, g, h] == [e] + ([f] + ([g] + ([h] + [])));
    AfterCons(cfg, s, e, [f] + ([g] + ([h] + [])));
    AfterCons(cfg, s1, f, [g] + ([h] + []));
    AfterCons(cfg, s2, g, [h] + []);
    AfterCons(cfg, s3, h, []);
  }

  function SeekAnswerOf(s: Sys, m: Msg): Msg
    requires m.SeekReq? && m.host < |s.servers|
  {
    SeekReply(m.id, m.c, m.t, HandleSeek(s.servers[m.host], m.remoteFd, m.delta, m.whence).1.pos)
  }

  ghost predicate InFlight(s: Sys, m: Msg) {
    m.SeekReq? && m in s.net && Matches(s, m) && s.clients[m.c].threads[m.t].op.OpSeek?
    && m.host < |s.servers| && Listening(s.servers[m.host])
  }

  // A running server handles a seek request: its reply is in flight, and the server listens on.
  lemma ServeSeek(cfg: Config, s: Sys, m: Msg) returns (s': Sys)
    requires cfg.servers > 0 && InFlight(s, m)
    ensures Enabled(cfg, s, Serve(m, 0, true, true)) && s' == Next(cfg, s, Serve(m, 0, true, true))
    ensures s'.clients == s.clients && SeekAnswerOf(s, m) in s'.net
    ensures forall n :: n in s.net && n != m ==> n in s'.net
    ensures forall n :: n != m && InFlight(s, n) ==> InFlight(s', n)
  {
    s' := Next(cfg, s, Serve(m, 0, true, true));
  }

  lemma DeliverSeek(cfg: Config, s: Sys, m: Msg) returns (s': Sys)
    requires cfg.servers > 0 && m.SeekReply? && m in s.net && m.c < |s.clients|
    ensures Enabled(cfg, s, Deliver(m)) && s' == Next(cfg, s, Deliver(m)) && |s'.clients| == |s.clients|
    ensures s'.clients[m.c].threads == s.clients[m.c].threads && s'.clients[m.c].seeksDone == s.clients[m.c].seeksDone + 1
    ensures forall n :: n in s.net && n != m ==> n in s'.net
  {
    s' := Next(cfg, s, Deliver(m));
  }

  // Two seeks of one process in flight to servers that listen: when both are handled and both replies delivered before
  // either thread looks, neither wakes up.
  lemma OverlappingSeeksBlock(cfg: Config, s: Sys, m: Msg, n: Msg) returns (events: seq<SysEvent>)
    requires cfg.servers > 0 && InFlight(s, m) && InFlight(s, n) && m.c == n.c && m.t != n.t && m.id != n.id
    ensures |events| == 4 && forall e :: e in events ==> e.Serve? || e.Deliver?
    ensures AfterEvents(cfg, s, events).Some?
    ensures var later := AfterEvents(cfg, s, events).value;
            m.c < |later.clients| && Blocked(later.clients[m.c], m.t) && Blocked(later.clients[m.c], n.t)
  {
    var s1 := ServeSeek(cfg, s, m);
    var s2 := ServeSeek(cfg, s1, n);
    var first, second := SeekAnswerOf(s, m), SeekAnswerOf(s1, n);
    var s3 := DeliverSeek(cfg, s2, first);
    var s4 := DeliverSeek(cfg, s3, second);
    events := [Serve(m, 0, true, true), Serve(n, 0, true, true), Deliver(first), Deliver(second)];
    AfterFour(cfg, s, events[0], events[1], events[2], events[3]);
  }

  // A blocked thread can neither wake up nor time out, and stays blocked until a thread of its process sends another
  // seek.
  lemma BlockedStays(cfg: Config, s: Sys, e: SysEvent, c: nat, t: nat)
    requires cfg.servers > 0 && c < |s.clients| && Blocked(s.clients[c], t) && Enabled(cfg, s, e)
    requires e.ClientSends? && e.c == c ==> !s.clients[c].threads[e.t].op.OpSeek?
    ensures !CanDo(cfg, s.clients[c], Wake(t)) && !CanDo(cfg, s.clients[c], TimeOut(t))
    ensures c < |Next(cfg, s, e).clients| && Blocked(Next(cfg, s, e).clients[c], t)
    ensures Next(cfg, s, e).clients[c].threads[t].op == s.clients[c].threads[t].op
  {
  }

  // Nothing is in flight, and every thread of every process is blocked.
  ghost predicate Hung(s: Sys) {
    && s.net == {}
    && (forall c, t :: 0 <= c < |s.clients| && 0 <= t < |s.clients[c].threads| ==>
          s.clients[c].threads[t].Waiting? && s.clients[c].threads[t].op.OpSeek? && s.clients[c].seeksDone >= 2)
  }

  // Then it stays so for ever.
  lemma HungStays(cfg: Config, s: Sys, e: SysEvent)
    requires cfg.servers > 0 && Hung(s) && Enabled(cfg, s, e)
    ensures Hung(Next(cfg, s, e))
    ensures e.ServerActs? || e.Crash? || (e.ClientActs? && e.e.InitAgain?)
  {
    if e.ClientActs? {
      assert Next(cfg, s, e).clients[e.c].threads == s.clients[e.c].threads;
    }
  }
}
