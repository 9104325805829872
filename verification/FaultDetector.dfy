// Whole-run facts about the timeout counters of one client, whatever its servers answer.
module FaultDetector {
  import opened PlainFile
  import opened Wrappers
  import opened Client

  // A run: the client's states with the event between each two.
  datatype Run = Run(states: seq<ClientState>, events: seq<Event>)

  ghost predicate IsRun(cfg: Config, run: Run) {
    && cfg.servers > 0
    && |run.states| == |run.events| + 1
    && (forall i :: 0 <= i < |run.events| ==>
          CanDo(cfg, run.states[i], run.events[i])
          && run.states[i + 1] == Do(cfg, run.states[i], run.events[i]))
  }

  ghost predicate FromStart(cfg: Config, threads: nat, run: Run) {
    IsRun(cfg, run) && run.states[0] == Start(cfg, threads)
  }

  // ---------------------------------------------------------------- the overshoot bound

  // Has the thread passed the limit check of host h without yet returning?
  predicate PastCheck(th: Thread, h: nat) {
    (th.Passed? || th.Waiting?) && !th.op.OpSeek? && th.host == h
  }

  function Flag(b: bool): nat {
    if b then 1 else 0
  }

  ghost function CountPast(threads: seq<Thread>, h: nat): nat {
    if threads == [] then 0
    else CountPast(threads[..|threads| - 1], h) + Flag(PastCheck(threads[|threads| - 1], h))
  }

  lemma {:induction false} CountPastUpdate(threads: seq<Thread>, t: nat, th: Thread, h: nat)
    requires t < |threads|
    ensures CountPast(threads[t := th], h) + Flag(PastCheck(threads[t], h))
            == CountPast(threads, h) + Flag(PastCheck(th, h))
    decreases |threads|
  {
    var last := |threads| - 1;
    var changed := threads[t := th];
    if t == last {
      assert changed[..last] == threads[..last];
    } else {
      assert changed[..last] == threads[..last][t := th];
      CountPastUpdate(threads[..last], t, th, h);
    }
  }

  lemma {:induction false} CountPastAtMost(threads: seq<Thread>, h: nat)
    ensures CountPast(threads, h) <= |threads|
    decreases |threads|
  {
    if threads != [] {
      CountPastAtMost(threads[..|threads| - 1], h);
    }
  }

  lemma {:induction false} CountPastReady(n: nat, h: nat)
    ensures CountPast(seq(n, _ => Ready), h) == 0
  {
    if n > 0 {
      CountPastReady(n - 1, h);
      assert seq(n, _ => Ready)[..n - 1] == seq(n - 1, _ => Ready);
    }
  }

  // The counters and the threads past the check together stay below the limit plus the number of threads.
  ghost predicate Bounded(cfg: Config, c: ClientState) {
    && |c.counters| == cfg.servers
    && forall h :: 0 <= h < |c.counters| ==> c.counters[h] + CountPast(c.threads, h) < TIMEOUT_LIMIT + |c.threads|
  }

  lemma EventKeepsThreadCount(cfg: Config, c: ClientState, e: Event)
    requires cfg.servers > 0 && CanDo(cfg, c, e)
    ensures |Do(cfg, c, e).threads| == |c.threads|
  {
  }

  // Only a timeout raises a counter, by one, and nothing lowers one: not even the second initialisation.
  lemma CountersNeverDrop(cfg: Config, c: ClientState, e: Event, h: nat)
    requires cfg.servers > 0 && |c.counters| == cfg.servers && h < cfg.servers && CanDo(cfg, c, e)
    ensures |Do(cfg, c, e).counters| == cfg.servers
    ensures Do(cfg, c, e).counters[h] == c.counters[h] + Flag(e.TimeOut? && c.threads[e.t].host == h)
  {
  }

  // A call takes a place past the check only when the counter is below the limit.
  lemma CallEffect(cfg: Config, c: ClientState, t: nat, op: Op, tracked: bool, h: nat)
    requires cfg.servers > 0 && CanDo(cfg, c, Call(t, op, tracked))
    ensures var c' := DoCall(cfg, c, t, op, tracked);
            c'.counters == c.counters
            && (AtLimit(c, h) ==> CountPast(c'.threads, h) == CountPast(c.threads, h))
  {
    var c' := DoCall(cfg, c, t, op, tracked);
    CountPastUpdate(c.threads, t, c'.threads[t], h);
    assert c'.threads == c.threads[t := c'.threads[t]];
  }

  lemma RecordedKeepsCount(threads: seq<Thread>, t: nat, id: nat, ret: Ret, h: nat)
    ensures CountPast(Recorded(threads, t, id, ret), h) == CountPast(threads, h)
  {
    if t < |threads| && threads[t].Waiting? {
      CountPastUpdate(threads, t, threads[t].(answer := Some(ret)), h);
    }
  }

  // Every other event takes no new place past the check; a timeout gives one up.
  lemma OtherEffect(cfg: Config, c: ClientState, e: Event, h: nat)
    requires cfg.servers > 0 && CanDo(cfg, c, e) && !e.Call?
    ensures CountPast(Do(cfg, c, e).threads, h) + Flag(e.TimeOut? && c.threads[e.t].host == h) <= CountPast(c.threads, h)
  {
    var c' := Do(cfg, c, e);
    if e.OpenAnswer? {
      RecordedKeepsCount(c.threads, e.t, e.id, Done, h);
    } else if e.ReadAnswer? {
      RecordedKeepsCount(c.threads, e.t, e.id, e.ret, h);
    } else if e.Send? || e.Wake? || e.TimeOut? || e.Return? {
      assert c'.threads == c.threads[e.t := c'.threads[e.t]];
      CountPastUpdate(c.threads, e.t, c'.threads[e.t], h);
    }
  }

  lemma EventKeepsBound(cfg: Config, c: ClientState, e: Event)
    requires cfg.servers > 0 && CanDo(cfg, c, e) && Bounded(cfg, c)
    ensures Bounded(cfg, Do(cfg, c, e))
  {
    var c' := Do(cfg, c, e);
    EventKeepsThreadCount(cfg, c, e);
    CountersNeverDrop(cfg, c, e, 0);
    forall h | 0 <= h < |c'.counters|
      ensures c'.counters[h] + CountPast(c'.threads, h) < TIMEOUT_LIMIT + |c'.threads|
    {
      CountersNeverDrop(cfg, c, e, h);
      if e.Call? {
        CallEffect(cfg, c, e.t, e.op, e.tracked, h);
        CountPastAtMost(c'.threads, h);
      } else {
        OtherEffect(cfg, c, e, h);
      }
    }
  }

  // With T threads no counter of any reachable state exceeds TIMEOUT_LIMIT - 1 + T.
  lemma {:induction false} OvershootBound(cfg: Config, threads: nat, run: Run, i: nat)
    requires FromStart(cfg, threads, run) && i < |run.states|
    ensures |run.states[i].threads| == threads && Bounded(cfg, run.states[i])
    ensures forall h :: 0 <= h < cfg.servers ==> run.states[i].counters[h] <= TIMEOUT_LIMIT - 1 + threads
  {
    if i == 0 {
      forall h | 0 <= h < cfg.servers
        ensures CountPast(run.states[0].threads, h) == 0
      {
        CountPastReady(threads, h);
      }
    } else {
      OvershootBound(cfg, threads, run, i - 1);
      EventKeepsBound(cfg, run.states[i - 1], run.events[i - 1]);
      EventKeepsThreadCount(cfg, run.states[i - 1], run.events[i - 1]);
    }
  }

  // ---------------------------------------------------------------- how many timeouts a run can suffer

  ghost function Timeouts(events: seq<Event>): nat {
    if events == [] then 0
    else Timeouts(events[..|events| - 1]) + Flag(events[|events| - 1].TimeOut?)
  }

  ghost function Sum(v: seq<nat>): nat {
    if v == [] then 0 else Sum(v[..|v| - 1]) + v[|v| - 1]
  }

  lemma {:induction false} SumUpdate(v: seq<nat>, i: nat, x: nat)
    requires i < |v|
    ensures Sum(v[i := x]) + v[i] == Sum(v) + x
    decreases |v|
  {
    var last := |v| - 1;
    if i == last {
      assert v[i := x][..last] == v[..last];
    } else {
      assert v[i := x][..last] == v[..last][i := x];
      SumUpdate(v[..last], i, x);
    }
  }

  lemma {:induction false} SumAtMost(v: seq<nat>, most: nat)
    requires forall i :: 0 <= i < |v| ==> v[i] <= most
    ensures Sum(v) <= |v| * most
    decreases |v|
  {
    if v != [] {
      SumAtMost(v[..|v| - 1], most);
    }
  }

  lemma {:induction false} TimeoutsAreCounted(cfg: Config, threads: nat, run: Run, i: nat)
    requires FromStart(cfg, threads, run) && i < |run.states|
    ensures Timeouts(run.events[..i]) == Sum(run.states[i].counters)
  {
    if i == 0 {
      SumAtMost(run.states[0].counters, 0);
    } else {
      TimeoutsAreCounted(cfg, threads, run, i - 1);
      OvershootBound(cfg, threads, run, i - 1);
      assert run.events[..i][..i - 1] == run.events[..i - 1];
      TimeoutAddsOne(cfg, run.states[i - 1], run.events[i - 1]);
    }
  }

  lemma TimeoutAddsOne(cfg: Config, c: ClientState, e: Event)
    requires cfg.servers > 0 && |c.counters| == cfg.servers && CanDo(cfg, c, e)
    ensures Sum(Do(cfg, c, e).counters) == Sum(c.counters) + Flag(e.TimeOut?)
  {
    if e.TimeOut? {
      var h := c.threads[e.t].host;
      SumUpdate(c.counters, h, c.counters[h] + 1);
    } else {
      assert Do(cfg, c, e).counters == c.counters;
    }
  }

  // A run of any length suffers at most N * (TIMEOUT_LIMIT - 1 + T) timeouts.
  lemma TimeoutsAreBounded(cfg: Config, threads: nat, run: Run)
    requires FromStart(cfg, threads, run)
    ensures Timeouts(run.events) <= cfg.servers * (TIMEOUT_LIMIT - 1 + threads)
  {
    var n := |run.events|;
    TimeoutsAreCounted(cfg, threads, run, n);
    OvershootBound(cfg, threads, run, n);
    SumAtMost(run.states[n].counters, TIMEOUT_LIMIT - 1 + threads);
    assert run.events[..n] == run.events;
  }

  // ---------------------------------------------------------------- the bound is attained

  ghost function Last(run: Run): ClientState
    requires run.states != []
  {
    run.states[|run.states| - 1]
  }

  ghost function Extend(cfg: Config, run: Run, e: Event): (longer: Run)
    requires IsRun(cfg, run) && CanDo(cfg, Last(run), e)
    ensures IsRun(cfg, longer) && longer.states[0] == run.states[0] && Last(longer) == Do(cfg, Last(run), e)
    ensures longer.events == run.events + [e] && longer.states[|run.events|] == Last(run)
  {
    Run(run.states + [Do(cfg, Last(run), e)], run.events + [e])
  }

  // A thread opens the file, and its request times out.
  lemma TimeOutAlone(cfg: Config, run: Run, path: Path, fd: int) returns (longer: Run)
    requires IsRun(cfg, run) && path in cfg.pfs
    requires var c := Last(run);
             |c.counters| == cfg.servers && !AtLimit(c, HostOf(cfg, path))
             && c.threads != [] && c.threads[0].Ready? && fd !in c.local
    ensures IsRun(cfg, longer) && longer.states[0] == run.states[0]
    ensures var c, c', h := Last(run), Last(longer), HostOf(cfg, path);
            && c'.threads == c.threads && c'.local.Keys == c.local.Keys + {fd} && c'.fdMap == c.fdMap[fd := path]
            && c'.counters == c.counters[h := c.counters[h] + 1]
  {
    longer := Extend(cfg, run, Call(0, OpOpen(fd, path), true));
    longer := Extend(cfg, longer, Send(0, 0));
    longer := Extend(cfg, longer, TimeOut(0));
    longer := Extend(cfg, longer, Return(0));
  }

  // Threads 0 to t are past the check of the host, the others ready.
  ghost predicate FirstPassed(c: ClientState, h: nat, t: nat) {
    forall i :: 0 <= i < |c.threads| ==>
      if i < t then c.threads[i].Passed? && c.threads[i].op.OpOpen? && c.threads[i].host == h else c.threads[i].Ready?
  }

  lemma {:induction false} AllPass(cfg: Config, run: Run, path: Path, t: nat) returns (longer: Run)
    requires IsRun(cfg, run) && path in cfg.pfs
    requires var c := Last(run);
             |c.counters| == cfg.servers && !AtLimit(c, HostOf(cfg, path))
             && t <= |c.threads| && FirstPassed(c, HostOf(cfg, path), t) && (forall fd :: fd in c.local ==> fd < 2 + t)
    ensures IsRun(cfg, longer) && longer.states[0] == run.states[0]
    ensures Last(longer).counters == Last(run).counters && |Last(longer).threads| == |Last(run).threads|
    ensures FirstPassed(Last(longer), HostOf(cfg, path), |Last(run).threads|)
    decreases |Last(run).threads| - t
  {
    longer := run;
    if t < |Last(run).threads| {
      longer := Extend(cfg, longer, Call(t, OpOpen(2 + t, path), true));
      longer := AllPass(cfg, longer, path, t + 1);
    }
  }

  lemma {:induction false} AllTimeOut(cfg: Config, run: Run, h: nat, t: nat) returns (longer: Run)
    requires IsRun(cfg, run) && h < |Last(run).counters|
    requires t <= |Last(run).threads| && FirstPassed(Last(run).(threads := Last(run).threads[t..]), h, |Last(run).threads| - t)
    ensures IsRun(cfg, longer) && longer.states[0] == run.states[0]
    ensures h < |Last(longer).counters|
    ensures Last(longer).counters[h] == Last(run).counters[h] + |Last(run).threads| - t
    decreases |Last(run).threads| - t
  {
    longer := run;
    var c := Last(run);
    if t < |c.threads| {
      assert c.threads[t] == c.threads[t..][0];
      longer := Extend(cfg, longer, Send(t, 0));
      longer := Extend(cfg, longer, TimeOut(t));
      assert Last(longer).threads[t + 1..] == c.threads[t..][1..];
      longer := AllTimeOut(cfg, longer, h, t + 1);
    }
  }

  // With T threads some run takes a counter to exactly TIMEOUT_LIMIT - 1 + T.
  lemma BoundIsAttained(cfg: Config, threads: nat, path: Path) returns (run: Run)
    requires cfg.servers > 0 && threads >= 1 && path in cfg.pfs
    ensures FromStart(cfg, threads, run)
    ensures |Last(run).counters| == cfg.servers
    ensures Last(run).counters[HostOf(cfg, path)] == TIMEOUT_LIMIT - 1 + threads
  {
    var h := HostOf(cfg, path);
    run := Run([Start(cfg, threads)], []);
    run := TimeOutAlone(cfg, run, path, 0);
    run := TimeOutAlone(cfg, run, path, 1);
    run := AllPass(cfg, run, path, 0);
    assert Last(run).threads[0..] == Last(run).threads;
    run := AllTimeOut(cfg, run, h, 0);
    OvershootBound(cfg, threads, run, |run.states| - 1);
  }

  // ---------------------------------------------------------------- a dead host stays dead

  // The host is at its limit and no thread is left between the check and the send.
  ghost predicate Dead(c: ClientState, h: nat) {
    && AtLimit(c, h)
    && forall t :: 0 <= t < |c.threads| && c.threads[t].Passed? && !c.threads[t].op.OpSeek? ==> c.threads[t].host != h
  }

  // The event sends h an open, a read, a positioned read or a close.
  predicate SendsTo(c: ClientState, e: Event, h: nat) {
    e.Send? && e.t < |c.threads| && c.threads[e.t].Passed? && !c.threads[e.t].op.OpSeek? && c.threads[e.t].host == h
  }

  lemma EventKeepsDead(cfg: Config, c: ClientState, e: Event, h: nat)
    requires cfg.servers > 0 && |c.counters| == cfg.servers && CanDo(cfg, c, e) && Dead(c, h)
    ensures Dead(Do(cfg, c, e), h) && !SendsTo(c, e, h)
  {
    CountersNeverDrop(cfg, c, e, h);
  }

  lemma {:induction false} DeadHostStaysDead(cfg: Config, threads: nat, run: Run, i: nat, j: nat, h: nat)
    requires FromStart(cfg, threads, run) && i <= j < |run.states|
    requires Dead(run.states[i], h)
    ensures Dead(run.states[j], h)
    ensures j < |run.events| ==> !SendsTo(run.states[j], run.events[j], h)
    ensures j < |run.events| && run.events[j].Send? ==>
              var th := run.states[j].threads[run.events[j].t];
              th.host != h || th.op.OpSeek?
    decreases j
  {
    OvershootBound(cfg, threads, run, j);
    if i < j {
      DeadHostStaysDead(cfg, threads, run, i, j - 1, h);
      OvershootBound(cfg, threads, run, j - 1);
      EventKeepsDead(cfg, run.states[j - 1], run.events[j - 1], h);
    }
  }

  // The limit is reached with a tracked descriptor still open.
  lemma LimitReached(cfg: Config, threads: nat, path: Path) returns (run: Run)
    requires cfg.servers > 0 && threads >= 1 && path in cfg.pfs
    ensures FromStart(cfg, threads, run)
    ensures var c := Last(run);
            && |c.threads| == threads && (forall t :: 0 <= t < threads ==> c.threads[t].Ready?)
            && AtLimit(c, HostOf(cfg, path)) && 0 in c.fdMap && c.fdMap[0] == path
  {
    run := Run([Start(cfg, threads)], []);
    run := TimeOutAlone(cfg, run, path, 0);
    run := TimeOutAlone(cfg, run, path, 1);
    run := TimeOutAlone(cfg, run, path, 2);
  }

  // lseek is the exception: a seek on a tracked descriptor passes at any counter value.
  lemma SeekIgnoresLimit(cfg: Config, c: ClientState, t: nat, fd: int, delta: int, whence: int)
    requires cfg.servers > 0 && CanDo(cfg, c, Call(t, OpSeek(fd, delta, whence), true)) && fd in c.fdMap
    ensures DoCall(cfg, c, t, OpSeek(fd, delta, whence), true).threads[t]
            == Passed(OpSeek(fd, delta, whence), HostOf(cfg, c.fdMap[fd]))
  {
  }

  // So some run sends a dead host a seek.
  lemma DeadHostIsSentSeeks(cfg: Config, threads: nat, path: Path) returns (run: Run)
    requires cfg.servers > 0 && threads >= 1 && path in cfg.pfs
    ensures FromStart(cfg, threads, run) && run.events != []
    ensures var i, h, op := |run.events| - 1, HostOf(cfg, path), OpSeek(0, 0, SEEK_SET);
            && Dead(run.states[i], h) && run.events[i] == Send(0, 0)
            && run.states[i].threads != [] && run.states[i].threads[0] == Passed(op, h)
  {
    run := LimitReached(cfg, threads, path);
    SeekIgnoresLimit(cfg, Last(run), 0, 0, 0, SEEK_SET);
    run := Extend(cfg, run, Call(0, OpSeek(0, 0, SEEK_SET), true));
    run := Extend(cfg, run, Send(0, 0));
  }
}
