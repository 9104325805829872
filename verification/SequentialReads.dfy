// What each thing that a sound run excludes does to sequential reads, exactly: from a state in which the cache and the
// plain files are related, when does a read that falls back, one that is retried, or the next one after either or
// after a stray request, return what the plain file returns?
module SequentialReads {
  import opened PlainFile
  import opened Wrappers
  import opened Server
  import opened Client
  import opened System
  import opened ClientTables
  import opened Ownership
  import opened Transparency
  import opened CursorRefinement
  import opened CursorInvariants
  import opened CursorSteps

  // ---------------------------------------------------------------- two cursors

  // A read can ask for all of it.
  predicate Readable(file: Bytes) {
    |file| < 0x8000_0000
  }

  function Rest(file: Bytes, cursor: nat): Bytes {
    if cursor < |file| then file[cursor..] else []
  }

  // Equal, or both at or past the end.
  predicate SameReads(file: Bytes, a: nat, b: nat) {
    a == b || (a >= |file| && b >= |file|)
  }

  lemma WholeRest(file: Bytes, cursor: nat, n: nat)
    requires n >= |file|
    ensures Slice(file, cursor, n) == Rest(file, cursor)
  {
  }

  lemma SliceOfRest(file: Bytes, a: nat, other: Bytes, b: nat, n: nat)
    requires Rest(file, a) == Rest(other, b)
    ensures Slice(file, a, n) == Slice(other, b, n)
  {
    assert Slice(file, a, n) == if n <= |Rest(file, a)| then Rest(file, a)[..n] else Rest(file, a);
    assert Slice(other, b, n) == if n <= |Rest(other, b)| then Rest(other, b)[..n] else Rest(other, b);
  }

  // Reads of two files agree whatever their size exactly when the same bytes are left in both.
  lemma RestsAgreeIff(file: Bytes, a: nat, other: Bytes, b: nat)
    requires Readable(file) && Readable(other)
    ensures (forall n: Count :: Slice(file, a, n) == Slice(other, b, n)) <==> Rest(file, a) == Rest(other, b)
  {
    if forall n: Count :: Slice(file, a, n) == Slice(other, b, n) {
      var all: Count := if |file| >= |other| then |file| else |other|;
      WholeRest(file, a, all);
      WholeRest(other, b, all);
      assert Slice(file, a, all) == Slice(other, b, all);
    }
    if Rest(file, a) == Rest(other, b) {
      forall n: Count
        ensures Slice(file, a, n) == Slice(other, b, n)
      {
        SliceOfRest(file, a, other, b, n);
      }
    }
  }

  lemma ReadsAgreeIff(file: Bytes, a: nat, b: nat)
    requires Readable(file)
    ensures (forall n: Count :: Slice(file, a, n) == Slice(file, b, n)) <==> SameReads(file, a, b)
  {
    RestsAgreeIff(file, a, file, b);
    if Rest(file, a) == Rest(file, b) {
      assert |Rest(file, a)| == |Rest(file, b)|;
    }
  }

  // ---------------------------------------------------------------- reads that fall back

  // Descriptor fd of process c, in w and open there.
  ghost predicate Related(cfg: Config, w: iset<Descriptor>, s: Sys, a: Spec, c: nat, fd: int) {
    && SysInv(cfg, w, s) && Rel(cfg, w, s, a)
    && c < |s.clients| && Descriptor(c, fd) in w && fd in s.clients[c].local
  }

  function FileOf(cfg: Config, s: Sys, c: nat, fd: int): Bytes
    requires c < |s.clients| && fd in s.clients[c].local
  {
    Contents(cfg, s.clients[c].local, fd)
  }

  lemma SameFile(cfg: Config, w: iset<Descriptor>, s: Sys, a: Spec, c: nat, fd: int)
    requires Related(cfg, w, s, a, c, fd)
    ensures |a| == |s.clients| && fd in a[c].files && Contents(cfg, a[c].files, fd) == FileOf(cfg, s, c, fd)
    ensures ClientOk(cfg, s.clients[c])
    ensures CursorRel(cfg, s, s.clients[c], fd, a[c].files[fd].cursor)
  {
    assert FilesRel(cfg, s, Of(w, c), s.clients[c], a[c].files);
  }

  // The wrapped read turns to the real one: it is refused at the limit, not tracked, timed out or answered with a
  // failure.
  predicate FallsBack(cfg: Config, s: Sys, e: SysEvent, op: Op)
    requires cfg.servers > 0 && Enabled(cfg, s, e)
  {
    e.ClientActs? &&
    match e.e
    case Call(_, called, _) => called == op && !GoesRemote(cfg, s.clients[e.c], op)
    case TimeOut(t) => s.clients[e.c].threads[t].op == op
    case Wake(t) => s.clients[e.c].threads[t].op == op && s.clients[e.c].threads[t].answer == Some(Fail)
    case _ => false
  }

  // Then it returns what lies at the local cursor, and moves that one.
  lemma FallbackReturns(cfg: Config, s: Sys, e: SysEvent, fd: int, count: Count)
    requires cfg.servers > 0 && Enabled(cfg, s, e) && FallsBack(cfg, s, e, OpRead(fd, count))
    requires fd in s.clients[e.c].local
    ensures var cl, cl' := s.clients[e.c], Next(cfg, s, e).clients[e.c];
            var file, at := FileOf(cfg, s, e.c, fd), cl.local[fd].cursor;
            && e.e.t < |cl'.threads| && cl'.threads[e.e.t] == Returned(OpRead(fd, count), Read(file, at, count))
            && cl'.local == cl.local[fd := cl.local[fd].(cursor := AfterRead(file, at, count))]
  {
  }

  // Those are the bytes of the plain file, for every size of the read, exactly when the local cursor is the plain
  // one or both are at or past the end.
  lemma FallbackIff(cfg: Config, w: iset<Descriptor>, s: Sys, a: Spec, c: nat, fd: int)
    requires Related(cfg, w, s, a, c, fd) && Readable(FileOf(cfg, s, c, fd))
    ensures |a| == |s.clients| && fd in a[c].files
    ensures var file, at := FileOf(cfg, s, c, fd), s.clients[c].local[fd].cursor;
            (forall count: Count :: Read(file, at, count) == PlainRet(cfg, a[c].files, OpRead(fd, count)))
            <==> SameReads(file, at, a[c].files[fd].cursor)
  {
    SameFile(cfg, w, s, a, c, fd);
    var file, at, k := FileOf(cfg, s, c, fd), s.clients[c].local[fd].cursor, a[c].files[fd].cursor;
    ReadsAgreeIff(file, at, k);
    assert forall count: Count :: PlainRet(cfg, a[c].files, OpRead(fd, count)) == Read(file, k, count);
    assert forall count: Count ::
        Read(file, at, count) == PlainRet(cfg, a[c].files, OpRead(fd, count)) <==> Slice(file, at, count) == Slice(file, k, count);
  }

  // A descriptor without a server descriptor has its cursor there, so that its reads may fall back.
  lemma LocalReadsAgree(cfg: Config, w: iset<Descriptor>, s: Sys, a: Spec, c: nat, fd: int, count: Count)
    requires Related(cfg, w, s, a, c, fd) && fd !in s.clients[c].acked
    ensures |a| == |s.clients|
    ensures Read(FileOf(cfg, s, c, fd), s.clients[c].local[fd].cursor, count) == PlainRet(cfg, a[c].files, OpRead(fd, count))
  {
    SameFile(cfg, w, s, a, c, fd);
  }

  // ---------------------------------------------------------------- the next read

  // Descriptor fd of process c is open as descriptor r of a running server h.
  ghost predicate ServedAt(cfg: Config, s: Sys, c: nat, fd: int, h: nat, r: int)
    requires cfg.servers > 0 && c < |s.clients|
  {
    var cl := s.clients[c];
    && fd in cl.acked && fd in cl.fdMap && fd in cl.redir && HostOf(cfg, cl.fdMap[fd]) == h && cl.redir[fd] == r
    && Up(s, h) && r >= 0
  }

  // What the server answers to a sequential read of the descriptor.
  function Answered(sv: ServerState, r: int, count: Count): Option<Ret> {
    HandleRead(sv, r, -1, count, true, false).1
  }

  // From a related state the server's answer is the plain file's.
  lemma AnswerOf(cfg: Config, w: iset<Descriptor>, s: Sys, a: Spec, c: nat, fd: int, h: nat, r: int)
    requires Related(cfg, w, s, a, c, fd) && ServedAt(cfg, s, c, fd, h, r)
    ensures |a| == |s.clients| && fd in a[c].files && r in s.servers[h].files
    ensures s.servers[h].files[r] == OpenFile(FileOf(cfg, s, c, fd), a[c].files[fd].cursor)
  {
    SameFile(cfg, w, s, a, c, fd);
    assert Owns(cfg, s, Entry(c, fd), h, r);
    CarriedFile(cfg, s, Of(w, c), c, fd, h, r, a[c].files);
  }

  // The next answers of a server that has the file open at one cursor agree with a plain file at another, for every
  // size, exactly when reads from the two cursors are the same.
  lemma NextAnswersIff(cfg: Config, sv: ServerState, r: int, at: nat, files: Descriptors, fd: int)
    requires fd in files && Readable(Contents(cfg, files, fd))
    requires r in sv.files && sv.files[r] == OpenFile(Contents(cfg, files, fd), at)
    ensures (forall n: Count :: Answered(sv, r, n) == Some(PlainRet(cfg, files, OpRead(fd, n))))
            <==> SameReads(Contents(cfg, files, fd), at, files[fd].cursor)
  {
    var file, k := Contents(cfg, files, fd), files[fd].cursor;
    ReadsAgreeIff(file, at, k);
    assert forall n: Count ::
        Answered(sv, r, n) == Some(PlainRet(cfg, files, OpRead(fd, n))) <==> Slice(file, at, n) == Slice(file, k, n);
  }

  // The call falls back and the server has not handled its request, if it was sent.
  ghost predicate FallsBackUnhandled(
      cfg: Config, w: iset<Descriptor>, s: Sys, a: Spec, e: SysEvent, fd: int, count: Count, h: nat, r: int)
  {
    && e.ClientActs? && cfg.servers > 0 && Enabled(cfg, s, e) && FallsBack(cfg, s, e, OpRead(fd, count))
    && Related(cfg, w, s, a, e.c, fd) && ServedAt(cfg, s, e.c, fd, h, r) && Readable(FileOf(cfg, s, e.c, fd))
    && (!e.e.Call? ==> |a| == |s.clients| && e.e.t < |a[e.c].threads| && a[e.c].threads[e.e.t].Pending?)
  }

  // After a read fell back unhandled, the answers to the next one are the plain file's, for every size, exactly when
  // the read had no bytes to return.
  lemma AfterFallbackIff(
      cfg: Config, w: iset<Descriptor>, s: Sys, a: Spec, e: SysEvent, fd: int, count: Count, h: nat, r: int)
    requires FallsBackUnhandled(cfg, w, s, a, e, fd, count, h, r)
    ensures |a| == |s.clients| && fd in a[e.c].files && h < |Next(cfg, s, e).servers|
    ensures var plain := PlainAfter(cfg, a[e.c].files, OpRead(fd, count));
            (forall n: Count :: Answered(Next(cfg, s, e).servers[h], r, n) == Some(PlainRet(cfg, plain, OpRead(fd, n))))
            <==> Slice(FileOf(cfg, s, e.c, fd), a[e.c].files[fd].cursor, count) == []
  {
    AnswerOf(cfg, w, s, a, e.c, fd, h, r);
    SameFile(cfg, w, s, a, e.c, fd);
    var file, k := FileOf(cfg, s, e.c, fd), a[e.c].files[fd].cursor;
    var plain := PlainAfter(cfg, a[e.c].files, OpRead(fd, count));
    assert Contents(cfg, plain, fd) == file && plain[fd].cursor == AfterRead(file, k, count);
    NextAnswersIff(cfg, s.servers[h], r, k, plain, fd);
  }

  // Once its request is handled after all, the server is where the plain file is again.
  lemma AfterLateHandling(
      cfg: Config, w: iset<Descriptor>, s: Sys, a: Spec, e: SysEvent, fd: int, count: Count, h: nat, r: int, m: Msg, n: Count)
    requires FallsBackUnhandled(cfg, w, s, a, e, fd, count, h, r)
    requires m.ReadReq? && m.host == h && m.remoteFd == r && m.offset == -1 && m.count == count
    requires Enabled(cfg, Next(cfg, s, e), Serve(m, 0, true, true))
    ensures |a| == |s.clients| && h < |Next(cfg, Next(cfg, s, e), Serve(m, 0, true, true)).servers|
    ensures var later := Next(cfg, Next(cfg, s, e), Serve(m, 0, true, true));
            var plain := PlainAfter(cfg, a[e.c].files, OpRead(fd, count));
            Answered(later.servers[h], r, n) == Some(PlainRet(cfg, plain, OpRead(fd, n)))
  {
    AnswerOf(cfg, w, s, a, e.c, fd, h, r);
    SameFile(cfg, w, s, a, e.c, fd);
    var plain := PlainAfter(cfg, a[e.c].files, OpRead(fd, count));
    assert Contents(cfg, plain, fd) == FileOf(cfg, s, e.c, fd);
    assert Next(cfg, s, e).servers == s.servers;
  }

  // The server handles a request that moves the descriptor but is not the one its owner waits for.
  ghost predicate HandlesStray(
      cfg: Config, w: iset<Descriptor>, s: Sys, a: Spec, e: SysEvent, c: nat, fd: int, h: nat, r: int)
  {
    && e.Serve? && cfg.servers > 0 && Enabled(cfg, s, e) && Sequential(e.m) && !OwnRequest(w, s, e.m)
    && e.m.host == h && MovedBy(s.servers[h], e.m, e.ok, e.ok2) == Some(r)
    && Related(cfg, w, s, a, c, fd) && ServedAt(cfg, s, c, fd, h, r) && Readable(FileOf(cfg, s, c, fd))
  }

  // Where it leaves the cursor.
  function StrayCursor(file: Bytes, k: nat, m: Msg): nat
    requires Sequential(m)
  {
    if m.SeekReq? then AfterSeek(file, k, m.delta, m.whence) else AfterRead(file, k, m.count)
  }

  // After a stray request the answers to the next read are the plain file's, for every size, exactly when the request
  // left the cursor where it was, or it was and is at or past the end.
  lemma AfterStrayIff(
      cfg: Config, w: iset<Descriptor>, s: Sys, a: Spec, e: SysEvent, c: nat, fd: int, h: nat, r: int)
    requires HandlesStray(cfg, w, s, a, e, c, fd, h, r)
    ensures |a| == |s.clients| && fd in a[c].files && h < |Next(cfg, s, e).servers|
    ensures var file, k := FileOf(cfg, s, c, fd), a[c].files[fd].cursor;
            (forall n: Count :: Answered(Next(cfg, s, e).servers[h], r, n) == Some(PlainRet(cfg, a[c].files, OpRead(fd, n))))
            <==> SameReads(file, StrayCursor(file, k, e.m), k)
  {
    AnswerOf(cfg, w, s, a, c, fd, h, r);
    SameFile(cfg, w, s, a, c, fd);
    var file, k := FileOf(cfg, s, c, fd), a[c].files[fd].cursor;
    NextAnswersIff(cfg, Next(cfg, s, e).servers[h], r, StrayCursor(file, k, e.m), a[c].files, fd);
  }

  // A stray read leaves it there exactly when it has no bytes to return.
  lemma StrayReadIff(file: Bytes, k: nat, m: Msg)
    requires m.ReadReq? && m.offset == -1 && Readable(file)
    ensures SameReads(file, StrayCursor(file, k, m), k) <==> Slice(file, k, m.count) == []
  {
  }

  // ---------------------------------------------------------------- retried reads

  // The handler's second attempt answers from the descriptor that has the client's number, and moves that one.
  lemma RetriedReturns(cfg: Config, s: Sys, m: Msg, ok: bool, ok2: bool)
    requires cfg.servers > 0 && m.ReadReq? && m.offset == -1 && Enabled(cfg, s, Serve(m, 0, ok, ok2))
    requires Retried(s.servers[m.host], m, ok, ok2)
    ensures var other, s' := s.servers[m.host].files[m.fd], Next(cfg, s, Serve(m, 0, ok, ok2));
            && ReadReply(m.id, m.c, m.t, Read(other.data, other.cursor, m.count)) in s'.net
            && s'.servers == s.servers[m.host := Advanced(s.servers[m.host], m.fd, m.count)]
  {
  }

  // For a descriptor of w: the reply is the plain file's, whatever size the request asks for, exactly when the same
  // bytes are left in both files. This holds after a failed open of the descriptor, too.
  lemma RetriedIff(cfg: Config, w: iset<Descriptor>, s: Sys, a: Spec, m: Msg, ok: bool, ok2: bool)
    requires m.ReadReq? && m.offset == -1 && Related(cfg, w, s, a, m.c, m.fd) && Readable(FileOf(cfg, s, m.c, m.fd))
    requires Up(s, m.host) && Retried(s.servers[m.host], m, ok, ok2) && Readable(s.servers[m.host].files[m.fd].data)
    ensures |a| == |s.clients| && m.fd in a[m.c].files
    ensures var other := s.servers[m.host].files[m.fd];
            (forall n: Count :: Handle(s.servers[m.host], m.(count := n), 0, ok, ok2).1
                                == {ReadReply(m.id, m.c, m.t, PlainRet(cfg, a[m.c].files, OpRead(m.fd, n)))})
            <==> Rest(other.data, other.cursor) == Rest(FileOf(cfg, s, m.c, m.fd), a[m.c].files[m.fd].cursor)
  {
    SameFile(cfg, w, s, a, m.c, m.fd);
    var file, k, other := FileOf(cfg, s, m.c, m.fd), a[m.c].files[m.fd].cursor, s.servers[m.host].files[m.fd];
    RestsAgreeIff(other.data, other.cursor, file, k);
    forall n: Count
      ensures Handle(s.servers[m.host], m.(count := n), 0, ok, ok2).1
              == {ReadReply(m.id, m.c, m.t, PlainRet(cfg, a[m.c].files, OpRead(m.fd, n)))}
              <==> Slice(other.data, other.cursor, n) == Slice(file, k, n)
    {
      RetriedReply(s.servers[m.host], m, n, ok, ok2);
      SameReply(m, Data(Slice(other.data, other.cursor, n)), Data(Slice(file, k, n)));
    }
  }

  lemma RetriedReply(sv: ServerState, m: Msg, n: Count, ok: bool, ok2: bool)
    requires m.ReadReq? && m.offset == -1 && Retried(sv, m, ok, ok2)
    ensures Handle(sv, m.(count := n), 0, ok, ok2).1
            == {ReadReply(m.id, m.c, m.t, Read(sv.files[m.fd].data, sv.files[m.fd].cursor, n))}
  {
  }

  lemma SameReply(m: Msg, x: Ret, y: Ret)
    requires m.ReadReq?
    ensures {ReadReply(m.id, m.c, m.t, x)} == {ReadReply(m.id, m.c, m.t, y)} <==> x == y
  {
    if {ReadReply(m.id, m.c, m.t, x)} == {ReadReply(m.id, m.c, m.t, y)} {
      assert ReadReply(m.id, m.c, m.t, x) in {ReadReply(m.id, m.c, m.t, y)};
    }
  }

  // A sequential read that carries no open descriptor, like the -1 of a failed open, is retried or kills the server.
  lemma NothingToRead(cfg: Config, s: Sys, m: Msg, ok: bool, ok2: bool)
    requires cfg.servers > 0 && m.ReadReq? && m.offset == -1 && Enabled(cfg, s, Serve(m, 0, ok, ok2))
    requires m.remoteFd !in s.servers[m.host].files
    ensures m.host < |Next(cfg, s, Serve(m, 0, ok, ok2)).servers|
    ensures Retried(s.servers[m.host], m, ok, ok2) <==> Next(cfg, s, Serve(m, 0, ok, ok2)).servers[m.host].up
  {
  }
}
