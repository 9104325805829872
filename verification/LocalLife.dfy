// A descriptor opened while its host is at the timeout limit is recorded as tracked, yet lives locally.
module LocalLife {
  import opened PlainFile
  import opened Wrappers
  import opened Client
  import opened FaultDetector

  // fd is tracked, its host is at the limit, and no request for it is on its way, except seeks.
  ghost predicate LivesLocally(cfg: Config, c: ClientState, fd: int, path: Path)
    requires cfg.servers > 0
  {
    && |c.counters| == cfg.servers
    && fd in c.fdMap && c.fdMap[fd] == path && path in cfg.pfs
    && fd in c.local && c.local[fd].path == path
    && AtLimit(c, HostOf(cfg, path))
    && Quiet(c, fd)
  }

  ghost predicate Quiet(c: ClientState, fd: int) {
    forall t :: 0 <= t < |c.threads| && (c.threads[t].Passed? || c.threads[t].Waiting?) && c.threads[t].op.fd == fd ==>
      c.threads[t].op.OpSeek?
  }

  // Opening a file of a host at its limit records the descriptor and sends nothing.
  lemma OpenAtLimit(cfg: Config, c: ClientState, t: nat, fd: int, path: Path)
    requires cfg.servers > 0 && |c.counters| == cfg.servers
    requires CanDo(cfg, c, Call(t, OpOpen(fd, path), true)) && AtLimit(c, HostOf(cfg, path)) && Quiet(c, fd)
    ensures var c' := Do(cfg, c, Call(t, OpOpen(fd, path), true));
            && LivesLocally(cfg, c', fd, path) && c'.local[fd].cursor == 0
            && c'.threads[t] == Returned(OpOpen(fd, path), Done)
  {
  }

  // The bytes an event hands to a caller reading fd sequentially.
  ghost function BytesOf(c': ClientState, e: Event, fd: int): Bytes {
    if e.Call? && e.op.OpRead? && e.op.fd == fd && e.t < |c'.threads| && c'.threads[e.t].Returned?
       && c'.threads[e.t].ret.Data?
    then c'.threads[e.t].ret.bytes
    else []
  }

  ghost predicate Closes(e: Event, fd: int) {
    e.Call? && e.op == OpClose(fd)
  }

  // A read or positioned read is answered at once, from the local file.
  ghost predicate AnsweredLocally(cfg: Config, c: ClientState, c': ClientState, e: Event, fd: int, path: Path)
    requires path in cfg.pfs
  {
    e.Call? && e.op.fd == fd && e.t < |c'.threads| && fd in c.local ==>
      && (e.op.OpRead? ==> c'.threads[e.t] == Returned(e.op, Read(cfg.pfs[path], c.local[fd].cursor, e.op.count)))
      && (e.op.OpPread? ==> c'.threads[e.t] == Returned(e.op, Pread(cfg.pfs[path], e.op.count, e.op.offset)))
  }

  lemma EventKeepsLocalLife(cfg: Config, c: ClientState, e: Event, fd: int, path: Path)
    requires cfg.servers > 0 && CanDo(cfg, c, e) && LivesLocally(cfg, c, fd, path) && !Closes(e, fd)
    ensures var c' := Do(cfg, c, e);
            && LivesLocally(cfg, c', fd, path) && AnsweredLocally(cfg, c, c', e, fd, path)
            && c'.local[fd].cursor == c.local[fd].cursor + |BytesOf(c', e, fd)|
            && BytesOf(c', e, fd) == Slice(cfg.pfs[path], c.local[fd].cursor, |BytesOf(c', e, fd)|)
  {
    EventKeepsLivesLocally(cfg, c, e, fd, path);
    if !e.Call? {
      assert BytesOf(Do(cfg, c, e), e, fd) == [];
    }
  }

  lemma EventKeepsLivesLocally(cfg: Config, c: ClientState, e: Event, fd: int, path: Path)
    requires cfg.servers > 0 && CanDo(cfg, c, e) && LivesLocally(cfg, c, fd, path) && !Closes(e, fd)
    ensures LivesLocally(cfg, Do(cfg, c, e), fd, path)
  {
    CountersNeverDrop(cfg, c, e, HostOf(cfg, path));
  }

  // The bytes all sequential reads of fd return between states i and j, in order.
  ghost function BytesRead(run: Run, i: nat, j: nat, fd: int): Bytes
    requires i <= j < |run.states| && |run.states| == |run.events| + 1
  {
    if i == j then [] else BytesRead(run, i, j - 1, fd) + BytesOf(run.states[j], run.events[j - 1], fd)
  }

  // From its open to its close the reads of such a descriptor return the bytes of the file in order,
  // whatever the other threads do.
  lemma {:induction false} WhollyLocalLife(cfg: Config, run: Run, i: nat, j: nat, fd: int, path: Path)
    requires IsRun(cfg, run) && i <= j < |run.states|
    requires LivesLocally(cfg, run.states[i], fd, path) && run.states[i].local[fd].cursor == 0
    requires forall k :: i <= k < j ==> !Closes(run.events[k], fd)
    ensures LivesLocally(cfg, run.states[j], fd, path)
    ensures run.states[j].local[fd].cursor <= |cfg.pfs[path]|
    ensures BytesRead(run, i, j, fd) == cfg.pfs[path][..run.states[j].local[fd].cursor]
    decreases j
  {
    if i < j {
      WhollyLocalLife(cfg, run, i, j - 1, fd, path);
      LocalStep(cfg, run, j - 1, fd, path);
      PrefixGrows(cfg.pfs[path], run.states[j - 1].local[fd].cursor, run.states[j].local[fd].cursor,
                  BytesRead(run, i, j - 1, fd), BytesOf(run.states[j], run.events[j - 1], fd));
    }
  }

  // And every read and positioned read of it is served locally.
  lemma ServedLocally(cfg: Config, run: Run, i: nat, j: nat, fd: int, path: Path)
    requires IsRun(cfg, run) && i <= j < |run.events|
    requires LivesLocally(cfg, run.states[i], fd, path) && run.states[i].local[fd].cursor == 0
    requires forall k :: i <= k <= j ==> !Closes(run.events[k], fd)
    ensures AnsweredLocally(cfg, run.states[j], run.states[j + 1], run.events[j], fd, path)
  {
    WhollyLocalLife(cfg, run, i, j, fd, path);
    LocalStep(cfg, run, j, fd, path);
  }

  lemma LocalStep(cfg: Config, run: Run, k: nat, fd: int, path: Path)
    requires IsRun(cfg, run) && k < |run.events|
    requires LivesLocally(cfg, run.states[k], fd, path) && !Closes(run.events[k], fd)
    ensures LivesLocally(cfg, run.states[k + 1], fd, path)
    ensures AnsweredLocally(cfg, run.states[k], run.states[k + 1], run.events[k], fd, path)
    ensures var bytes := BytesOf(run.states[k + 1], run.events[k], fd);
            && run.states[k + 1].local[fd].cursor == run.states[k].local[fd].cursor + |bytes|
            && bytes == Slice(cfg.pfs[path], run.states[k].local[fd].cursor, |bytes|)
  {
    EventKeepsLocalLife(cfg, run.states[k], run.events[k], fd, path);
  }

  lemma PrefixGrows(file: Bytes, from: nat, to: nat, read: Bytes, bytes: Bytes)
    requires from <= |file| && read == file[..from]
    requires bytes == Slice(file, from, |bytes|) && to == from + |bytes|
    ensures to <= |file| && read + bytes == file[..to]
  {
  }
}
