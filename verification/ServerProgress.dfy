// The close handler and the mover: neither waits for the other for ever, no wake-up is lost, nothing that was
// closed is forgotten, and what is cached stays cached.
module ServerProgress {
  import opened PlainFile
  import opened Wrappers
  import opened Server

  // ---------------------------------------------------------------- deadlock

  // The handler waits for a lock somebody holds.
  predicate HandlerBlocked(sv: ServerState) {
    (sv.closing.WantPath? && !sv.pathLock.Nobody?) || (sv.closing.WantData? && !sv.dataLock.Nobody?)
  }

  predicate MoverBlocked(sv: ServerState) {
    (sv.moving.Locking? && !sv.dataLock.Nobody?) || (sv.moving.WantPublish? && !sv.pathLock.Nobody?)
  }

  // The next step of the close handler when it is not blocked.
  function HandlerStep(sv: ServerState): Step
    requires !sv.closing.Idle?
  {
    match sv.closing
    case WantPath(_) => TakePathLock
    case WantData(_) => TakeDataLock
    case HaveData(_) => Push
    case Pushed(_) => Signal
    case Leaving(_) => Leave
  }

  // The step with which the mover gives back the lock it holds.
  function MoverRelease(sv: ServerState): Step {
    if sv.moving.Checking? then MoverCheck else MoverPublish
  }

  // Handler and mover are never both blocked; a blocked one waits for the other's very next step, or, the mover,
  // for a handler that is itself free to move.
  lemma NoDeadlock(pfs: map<Path, Bytes>, sv: ServerState)
    requires Inv(pfs, sv) && sv.up
    ensures !(HandlerBlocked(sv) && MoverBlocked(sv))
    ensures !sv.closing.Idle? && !HandlerBlocked(sv) ==> CanStep(sv, HandlerStep(sv))
    ensures HandlerBlocked(sv) ==> CanStep(sv, MoverRelease(sv)) && !HandlerBlocked(Take(sv, MoverRelease(sv)))
    ensures MoverBlocked(sv) ==> !sv.closing.Idle? && CanStep(sv, HandlerStep(sv))
  {
  }

  // How many of its own steps the handler is away from the end of its close.
  function HandlerDistance(sv: ServerState): nat {
    match sv.closing
    case Idle => 0
    case WantPath(_) => 5
    case WantData(_) => 4
    case HaveData(_) => 3
    case Pushed(_) => 2
    case Leaving(_) => 1
  }

  function AfterSteps(sv: ServerState, steps: seq<Step>): Option<ServerState>
    decreases |steps|
  {
    if steps == [] then Some(sv)
    else if CanStep(sv, steps[0]) then AfterSteps(Take(sv, steps[0]), steps[1..])
    else None
  }

  // A bound on the steps to the end of the close, one of the mover before each of the handler's own.
  function StepsToFinish(sv: ServerState): nat {
    if sv.closing.Idle? then 0 else 2 * HandlerDistance(sv) - if HandlerBlocked(sv) then 0 else 1
  }

  // The handler may still push a path.
  predicate ToPush(sv: ServerState) {
    sv.closing.WantPath? || sv.closing.WantData? || sv.closing.HaveData?
  }

  lemma ClosingStep(sv: ServerState, e: Step)
    requires CanStep(sv, e) && (ByHandler(e) || e.MoverCheck? || e.MoverPublish?)
    ensures var after := Take(sv, e);
            && sv.enqueued <= after.enqueued && after.failed == sv.failed
            && |after.inHand| + |after.queue| + (if ToPush(after) then 1 else 0)
               <= |sv.inHand| + |sv.queue| + if ToPush(sv) then 1 else 0
  {
  }

  // From every state the close handler can finish, adding at most one path to the mover's work.
  lemma {:induction false} CloseCanFinish(pfs: map<Path, Bytes>, sv: ServerState) returns (steps: seq<Step>)
    requires Inv(pfs, sv) && sv.up
    ensures |steps| <= StepsToFinish(sv) && AfterSteps(sv, steps).Some?
    ensures var after := AfterSteps(sv, steps).value;
            && Inv(pfs, after) && after.up && after.closing.Idle?
            && sv.enqueued <= after.enqueued && after.failed == sv.failed
            && |after.inHand| + |after.queue| <= |sv.inHand| + |sv.queue| + if ToPush(sv) then 1 else 0
    decreases StepsToFinish(sv)
  {
    if sv.closing.Idle? {
      steps := [];
    } else {
      NoDeadlock(pfs, sv);
      var e := if HandlerBlocked(sv) then MoverRelease(sv) else HandlerStep(sv);
      CloserToTheEnd(pfs, sv, e);
      ClosingStep(sv, e);
      var rest := CloseCanFinish(pfs, Take(sv, e));
      Prepended(sv, e, rest);
      steps := [e] + rest;
    }
  }

  lemma CloserToTheEnd(pfs: map<Path, Bytes>, sv: ServerState, e: Step)
    requires Inv(pfs, sv) && CanStep(sv, e) && !sv.closing.Idle?
    requires e == if HandlerBlocked(sv) then MoverRelease(sv) else HandlerStep(sv)
    ensures Inv(pfs, Take(sv, e)) && Take(sv, e).up && StepsToFinish(Take(sv, e)) < StepsToFinish(sv)
  {
    StepKeepsInv(pfs, sv, e);
    NoDeadlock(pfs, sv);
  }

  lemma Prepended(sv: ServerState, first: Step, rest: seq<Step>)
    requires CanStep(sv, first)
    ensures AfterSteps(sv, [first] + rest) == AfterSteps(Take(sv, first), rest)
  {
    assert ([first] + rest)[1..] == rest;
  }

  lemma {:induction false} AfterAppend(sv: ServerState, a: seq<Step>, b: seq<Step>)
    requires AfterSteps(sv, a).Some?
    ensures AfterSteps(sv, a + b) == AfterSteps(AfterSteps(sv, a).value, b)
    decreases |a|
  {
    if a == [] {
      assert a + b == b;
    } else {
      assert (a + b)[1..] == a[1..] + b;
      AfterAppend(Take(sv, a[0]), a[1..], b);
    }
  }

  // ---------------------------------------------------------------- the mover gets through its work

  // No directory of this name has a file in it, so that mkdtemp can make it.
  lemma FreshDirectory(fs: map<Path, Bytes>) returns (dir: string)
    ensures forall f :: f in fs ==> DirName(f) != dir
  {
    var n := LongestName(fs.Keys);
    dir := seq(n + 1, _ => 'd');
    forall f | f in fs
      ensures DirName(f) != dir
    {
      DirNameShorter(f);
    }
  }

  lemma {:induction false} LongestName(names: set<Path>) returns (n: nat)
    ensures forall f :: f in names ==> |f| <= n
  {
    if names == {} {
      n := 0;
    } else {
      var f :| f in names;
      var rest := LongestName(names - {f});
      n := if |f| > rest then |f| else rest;
    }
  }

  lemma {:induction false} DirNameShorter(p: Path)
    ensures |DirName(p)| <= |p|
    decreases |p|
  {
    if p != [] && p[|p| - 1] != '/' {
      DirNameShorter(p[..|p| - 1]);
    }
  }

  // A copy may break off at any time, having left anything or nothing, and may complete where its source exists.
  lemma AnyCopyMayHappen(sv: ServerState, dir: string, content: Option<Bytes>)
    requires sv.up && sv.moving.Working? && sv.inHand != [] && (forall f :: f in sv.fs ==> DirName(f) != dir)
    ensures CanStep(sv, MoverCopy(dir, false, content))
    ensures sv.inHand[0] in sv.fs ==> CanStep(sv, MoverCopy(dir, true, Some(sv.fs[sv.inHand[0]])))
  {
  }

  // Between closes: how many steps the mover is away from having nothing queued or in hand.
  function MoverDistance(sv: ServerState): nat {
    var n := 3 * (|sv.inHand| + |sv.queue|) + if sv.queue == [] then 0 else 2;
    match sv.moving
    case Locking => n
    case Checking => if n > 0 then n - 1 else 0
    case Asleep => n
    case Working => n
    case WantPublish(_) => if n > 0 then n - 1 else 0
    case Publishing(_) => if n > 1 then n - 2 else 0
  }

  predicate Unworked(sv: ServerState) {
    sv.inHand != [] || sv.queue != []
  }

  // The mover's next step, a copy completing into a fresh directory.
  lemma MoverStep(pfs: map<Path, Bytes>, sv: ServerState) returns (e: Step)
    requires Inv(pfs, sv) && sv.up && sv.closing.Idle? && Unworked(sv)
    ensures CanStep(sv, e) && !ByHandler(e)
    ensures e.MoverCopy? ==> e.complete
    ensures MoverDistance(Take(sv, e)) < MoverDistance(sv) && Take(sv, e).closing.Idle?
    ensures Take(sv, e).failed == sv.failed && Take(sv, e).enqueued == sv.enqueued
  {
    match sv.moving
    case Locking => e := MoverLock;
    case Checking => e := MoverCheck;
    case Asleep => assert false;
    case Working =>
      if sv.inHand == [] {
        e := MoverLock;
      } else {
        var dir := FreshDirectory(sv.fs);
        assert sv.inHand[0] in pfs;
        e := MoverCopy(dir, true, Some(sv.fs[sv.inHand[0]]));
      }
    case WantPublish(_) => e := MoverTakePathLock;
    case Publishing(_) => e := MoverPublish;
  }

  // Between closes the mover can get through everything queued.
  lemma {:induction false} MoverCanCatchUp(pfs: map<Path, Bytes>, sv: ServerState) returns (steps: seq<Step>)
    requires Inv(pfs, sv) && sv.up && sv.closing.Idle?
    ensures |steps| <= MoverDistance(sv) && AfterSteps(sv, steps).Some?
    ensures var after := AfterSteps(sv, steps).value;
            && Inv(pfs, after) && !Unworked(after) && after.closing.Idle?
            && after.enqueued == sv.enqueued && after.failed == sv.failed
    decreases MoverDistance(sv)
  {
    if !Unworked(sv) {
      steps := [];
    } else {
      var e := MoverStep(pfs, sv);
      StepKeepsInv(pfs, sv, e);
      StepStaysUp(sv, e);
      var rest := MoverCanCatchUp(pfs, Take(sv, e));
      Prepended(sv, e, rest);
      steps := [e] + rest;
    }
  }

  // From every state of a running server some steps, no more than a bound, end the close at hand and get the mover
  // through all paths: every path ever enqueued has been processed, and is cached unless its copy failed before.
  lemma MoverCanFinish(pfs: map<Path, Bytes>, sv: ServerState) returns (steps: seq<Step>)
    requires Inv(pfs, sv) && sv.up
    ensures |steps| <= StepsToFinish(sv) + 3 * (|sv.inHand| + |sv.queue| + 1) + 2
    ensures AfterSteps(sv, steps).Some?
    ensures var after := AfterSteps(sv, steps).value;
            && after.closing.Idle? && after.queue == [] && after.inHand == [] && after.processed == after.enqueued
            && sv.enqueued <= after.enqueued && after.failed == sv.failed
            && forall p :: p in after.enqueued ==> p in after.cache || p in sv.failed
  {
    var closing := CloseCanFinish(pfs, sv);
    var closed := AfterSteps(sv, closing).value;
    var moving := MoverCanCatchUp(pfs, closed);
    AfterAppend(sv, closing, moving);
    steps := closing + moving;
    var after := AfterSteps(closed, moving).value;
    assert after.processed + [] + [] == after.processed;
  }

  // ---------------------------------------------------------------- no lost wake-up

  // A sleeping mover with something to do is about to be signalled, and the signal wakes it.
  lemma NoLostWakeup(pfs: map<Path, Bytes>, sv: ServerState)
    requires Inv(pfs, sv) && sv.up && sv.moving.Asleep? && sv.queue != []
    ensures CanStep(sv, Signal) && Take(sv, Signal).moving.Locking?
  {
  }

  // ---------------------------------------------------------------- nothing closed is forgotten

  lemma EnqueuedIsAccountedFor(pfs: map<Path, Bytes>, sv: ServerState, p: Path)
    requires Inv(pfs, sv) && p in sv.enqueued
    ensures p in sv.cache || p in sv.failed || p in sv.inHand || p in sv.queue
  {
    assert p in sv.processed + sv.inHand + sv.queue;
  }

  // Once a close is over its path is cached, its copy failed, or it is still on its way to the mover.
  lemma ClosedIsAccountedFor(pfs: map<Path, Bytes>, sv: ServerState)
    requires Inv(pfs, sv) && CanStep(sv, Leave)
    ensures var p := PathOf(sv, sv.closing.fd);
            var sv' := Take(sv, Leave);
            p in sv'.cache || p in sv'.failed || p in sv'.inHand || p in sv'.queue
  {
    var p := PathOf(sv, sv.closing.fd);
    if p !in sv.cache {
      EnqueuedIsAccountedFor(pfs, sv, p);
    }
  }

  // The mover takes paths in the order they were enqueued, each once.
  lemma InOrder(pfs: map<Path, Bytes>, sv: ServerState, e: Step)
    requires Inv(pfs, sv) && CanStep(sv, e)
    ensures sv.enqueued <= Take(sv, e).enqueued && sv.processed <= Take(sv, e).processed
    ensures Take(sv, e).processed <= Take(sv, e).enqueued
    ensures |Take(sv, e).processed| > |sv.processed|
            ==> Take(sv, e).processed == sv.processed + [sv.enqueued[|sv.processed|]]
  {
    StepConserved(pfs, sv, e);
    var sv' := Take(sv, e);
    FirstOfThree(sv.processed, sv.inHand, sv.queue);
    FirstOfThree(sv'.processed, sv'.inHand, sv'.queue);
    RecordsGrow(sv, e);
  }

  lemma FirstOfThree(a: seq<Path>, b: seq<Path>, c: seq<Path>)
    ensures a <= a + b + c
    ensures b != [] ==> (a + b + c)[|a|] == b[0]
  {
  }

  lemma RecordsGrow(sv: ServerState, e: Step)
    requires CanStep(sv, e)
    ensures sv.enqueued <= Take(sv, e).enqueued
    ensures Take(sv, e).processed == sv.processed
            || (sv.inHand != [] && Take(sv, e).processed == sv.processed + [sv.inHand[0]])
  {
  }

  // ---------------------------------------------------------------- paths and copies

  // Only paths of the parallel file system are ever enqueued or cached, and their copies are none of them.
  lemma NoRedirectChains(pfs: map<Path, Bytes>, sv: ServerState)
    requires Inv(pfs, sv)
    ensures forall p :: p in sv.enqueued ==> p in pfs
    ensures forall p :: p in sv.cache ==> p in pfs && sv.cache[p] !in sv.cache && sv.cache[p] !in sv.enqueued
  {
  }

  // The bytes an open hands out do not depend on whether the file is cached.
  lemma CopyIsInvisible(pfs: map<Path, Bytes>, sv: ServerState, path: Path, fd: int)
    requires Inv(pfs, sv) && path in pfs && CanOpen(sv, path, fd) && fd != -1
    ensures HandleOpen(sv, path, fd).files[fd] == OpenFile(pfs[path], 0)
  {
  }
}
