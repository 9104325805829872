// The failure experiment of the load-distribution simulator: files are placed on the ring, one server is
// removed, and only its files are placed again.
module Redistribution {
  import opened Wrappers
  import opened HashRing
  import opened Numerals

  type Counts = map<Server, nat>

  // How many of the files the ring gives to s.
  ghost function CountOf(ring: Ring, hash: Hash, files: seq<string>, s: Server): nat
    requires ring != map[]
  {
    |OwnedBy(ring, hash, files, s)|
  }

  // The counts a full placement of files on the ring produces, absent meaning zero.
  ghost predicate CountsFor(counts: Counts, ring: Ring, hash: Hash, files: seq<string>)
    requires ring != map[]
  {
    forall s :: GetOr(counts, s, 0) == CountOf(ring, hash, files, s)
  }

  // The file lists a full placement produces, absent meaning empty.
  ghost predicate ListsFor(lists: map<Server, seq<string>>, ring: Ring, hash: Hash, files: seq<string>)
    requires ring != map[]
  {
    forall s :: GetOr(lists, s, []) == OwnedBy(ring, hash, files, s)
  }

  // The counts after the failed server's entry is cleared and the moved files are counted on the ring.
  ghost predicate MovedCounts(after: Counts, before: Counts, failed: Server, ring: Ring, hash: Hash, moved: seq<string>)
    requires ring != map[]
  {
    forall s :: GetOr(after, s, 0) == (if s == failed then 0 else GetOr(before, s, 0)) + CountOf(ring, hash, moved, s)
  }

  ghost function Total(counts: Counts): nat {
    SumOver(counts, counts.Keys)
  }

  ghost function SumOver(counts: Counts, servers: set<Server>): nat
    requires servers <= counts.Keys
  {
    if servers == {} then 0
    else
      var s :| s in servers;
      counts[s] + SumOver(counts, servers - {s})
  }

  lemma {:induction false} SumWithout(counts: Counts, servers: set<Server>, s: Server)
    requires servers <= counts.Keys && s in servers
    ensures SumOver(counts, servers) == counts[s] + SumOver(counts, servers - {s})
    decreases servers
  {
    var t :| t in servers && SumOver(counts, servers) == counts[t] + SumOver(counts, servers - {t});
    if s != t {
      SumWithout(counts, servers - {t}, s);
      SumWithout(counts, servers - {s}, t);
      assert servers - {t} - {s} == servers - {s} - {t};
    }
  }

  lemma {:induction false} SumSameOn(a: Counts, b: Counts, servers: set<Server>)
    requires servers <= a.Keys && servers <= b.Keys
    requires forall s :: s in servers ==> a[s] == b[s]
    ensures SumOver(a, servers) == SumOver(b, servers)
    decreases servers
  {
    if servers != {} {
      var s :| s in servers;
      SumWithout(a, servers, s);
      SumWithout(b, servers, s);
      SumSameOn(a, b, servers - {s});
    }
  }

  lemma TotalAfterUpdate(counts: Counts, s: Server, n: nat)
    ensures Total(counts[s := n]) + GetOr(counts, s, 0) == Total(counts) + n
  {
    var after := counts[s := n];
    SumWithout(after, after.Keys, s);
    SumSameOn(counts, after, counts.Keys - {s});
    assert after.Keys - {s} == counts.Keys - {s};
    if s in counts {
      SumWithout(counts, counts.Keys, s);
    } else {
      assert counts.Keys - {s} == counts.Keys;
    }
  }

  lemma OwnedBySnoc(ring: Ring, hash: Hash, files: seq<string>, i: nat, s: Server)
    requires ring != map[] && i < |files|
    ensures OwnedBy(ring, hash, files[..i + 1], s)
            == OwnedBy(ring, hash, files[..i], s) + if Owner(ring, hash(files[i])) == s then [files[i]] else []
  {
    assert files[..i + 1][..i] == files[..i];
  }

  lemma CountsSnoc(counts: Counts, ring: Ring, hash: Hash, files: seq<string>, i: nat)
    requires ring != map[] && i < |files| && CountsFor(counts, ring, hash, files[..i])
    ensures var s := Owner(ring, hash(files[i]));
            CountsFor(counts[s := GetOr(counts, s, 0) + 1], ring, hash, files[..i + 1])
  {
    var s := Owner(ring, hash(files[i]));
    var more := counts[s := GetOr(counts, s, 0) + 1];
    forall t
      ensures GetOr(more, t, 0) == CountOf(ring, hash, files[..i + 1], t)
    {
      OwnedBySnoc(ring, hash, files, i, t);
      assert GetOr(counts, t, 0) == CountOf(ring, hash, files[..i], t);
    }
  }

  lemma ListsSnoc(lists: map<Server, seq<string>>, ring: Ring, hash: Hash, files: seq<string>, i: nat)
    requires ring != map[] && i < |files| && ListsFor(lists, ring, hash, files[..i])
    ensures var s := Owner(ring, hash(files[i]));
            ListsFor(lists[s := GetOr(lists, s, []) + [files[i]]], ring, hash, files[..i + 1])
  {
    var s := Owner(ring, hash(files[i]));
    var more := lists[s := GetOr(lists, s, []) + [files[i]]];
    forall t
      ensures GetOr(more, t, []) == OwnedBy(ring, hash, files[..i + 1], t)
    {
      OwnedBySnoc(ring, hash, files, i, t);
      assert GetOr(lists, t, []) == OwnedBy(ring, hash, files[..i], t);
    }
  }

  lemma MovedNone(before: Counts, failed: Server, ring: Ring, hash: Hash, moved: seq<string>)
    requires ring != map[]
    ensures MovedCounts(before[failed := 0], before, failed, ring, hash, moved[..0])
  {
    assert moved[..0] == [];
  }

  lemma MovedSnoc(
      after: Counts, before: Counts, failed: Server, ring: Ring, hash: Hash, moved: seq<string>, i: nat)
    requires ring != map[] && i < |moved| && MovedCounts(after, before, failed, ring, hash, moved[..i])
    ensures var s := Owner(ring, hash(moved[i]));
            MovedCounts(after[s := GetOr(after, s, 0) + 1], before, failed, ring, hash, moved[..i + 1])
  {
    var s := Owner(ring, hash(moved[i]));
    var more := after[s := GetOr(after, s, 0) + 1];
    forall t
      ensures GetOr(more, t, 0)
              == (if t == failed then 0 else GetOr(before, t, 0)) + CountOf(ring, hash, moved[..i + 1], t)
    {
      OwnedBySnoc(ring, hash, moved, i, t);
      assert GetOr(after, t, 0)
          == (if t == failed then 0 else GetOr(before, t, 0)) + CountOf(ring, hash, moved[..i], t);
    }
  }

  // The placement before the failure: counts, and the files of each server.
  method Place(ring: HashRing, files: seq<string>)
    returns (placed: Result<(Counts, map<Server, seq<string>>), RingError>)
    requires ring.Sorted()
    ensures placed.Err? <==> ring.ring == map[] && files != []
    ensures placed.Ok? ==> Total(placed.value.0) == |files|
    ensures placed.Ok? && files == [] ==> placed.value == (map[], map[])
    ensures placed.Ok? && ring.ring != map[] ==>
              && CountsFor(placed.value.0, ring.ring, ring.hash, files)
              && ListsFor(placed.value.1, ring.ring, ring.hash, files)
  {
    var counts: Counts := map[];
    var byServer: map<Server, seq<string>> := map[];
    var i := 0;
    while i < |files|
      invariant 0 <= i <= |files|
      invariant Total(counts) == i
      invariant i == 0 ==> counts == map[] && byServer == map[]
      invariant i > 0 ==> ring.ring != map[]
      invariant ring.ring != map[] ==> CountsFor(counts, ring.ring, ring.hash, files[..i])
      invariant ring.ring != map[] ==> ListsFor(byServer, ring.ring, ring.hash, files[..i])
    {
      var server := ring.GetServer(files[i]);
      if server.Err? {
        return Err(server.error);
      }
      var s := server.value;
      TotalAfterUpdate(counts, s, GetOr(counts, s, 0) + 1);
      CountsSnoc(counts, ring.ring, ring.hash, files, i);
      ListsSnoc(byServer, ring.ring, ring.hash, files, i);
      counts := counts[s := GetOr(counts, s, 0) + 1];
      byServer := byServer[s := GetOr(byServer, s, []) + [files[i]]];
      i := i + 1;
    }
    assert files[..i] == files;
    placed := Ok((counts, byServer));
  }

  // Removes the failed server and moves only its files; fails as GetServer does when no server is left.
  method Redistribute(ring: HashRing, failed: Server, files: seq<string>) returns (counts: Result<Counts, RingError>)
    requires ring.Valid()
    modifies ring
    ensures ring.Valid()
    ensures ring.ring == Removed(old(ring.ring), Points(ring.hash, failed, ring.replicas))
    ensures counts.Err?
            <==> files != []
                 && (old(ring.ring) == map[]
                     || (ring.ring == map[] && OwnedBy(old(ring.ring), ring.hash, files, failed) != []))
    // No file is lost or counted twice, whatever the removal erased.
    ensures counts.Ok? ==> Total(counts.value) == |files|
    ensures counts.Ok? && old(ring.ring) != map[] && ring.ring != map[] ==>
              forall s :: GetOr(counts.value, s, 0)
                          == IncrementalCount(old(ring.ring), ring.ring, ring.hash, failed, files, s)
  {
    var placed := Place(ring, files);
    if placed.Err? {
      assert Removed(map[], Points(ring.hash, failed, ring.replicas)) == map[];
      return Err(placed.error);
    }
    var (before, byServer) := placed.value;
    ring.RemoveServer(failed);
    TotalAfterUpdate(before, failed, 0);
    counts := PlaceMoved(ring, before, failed, GetOr(byServer, failed, []));
  }

  // Clears the failed server's count and counts its files on the reduced ring.
  method PlaceMoved(ring: HashRing, before: Counts, failed: Server, moved: seq<string>)
    returns (counts: Result<Counts, RingError>)
    requires ring.Sorted()
    ensures counts.Err? <==> ring.ring == map[] && moved != []
    ensures counts.Ok? ==> Total(counts.value) == Total(before[failed := 0]) + |moved|
    ensures counts.Ok? && ring.ring != map[] ==>
              MovedCounts(counts.value, before, failed, ring.ring, ring.hash, moved)
  {
    var after: Counts := before[failed := 0];
    var i := 0;
    if ring.ring != map[] {
      MovedNone(before, failed, ring.ring, ring.hash, moved);
    }
    while i < |moved|
      invariant 0 <= i <= |moved|
      invariant i > 0 ==> ring.ring != map[]
      invariant Total(after) == Total(before[failed := 0]) + i
      invariant ring.ring != map[] ==> MovedCounts(after, before, failed, ring.ring, ring.hash, moved[..i])
    {
      var server := ring.GetServer(moved[i]);
      if server.Err? {
        return Err(server.error);
      }
      var s := server.value;
      TotalAfterUpdate(after, s, GetOr(after, s, 0) + 1);
      MovedSnoc(after, before, failed, ring.ring, ring.hash, moved, i);
      after := after[s := GetOr(after, s, 0) + 1];
      i := i + 1;
    }
    assert moved[..i] == moved;
    counts := Ok(after);
  }

  // What moving only the failed server's files yields for s.
  ghost function IncrementalCount(before: Ring, after: Ring, hash: Hash, failed: Server, files: seq<string>, s: Server): nat
    requires before != map[] && after != map[]
  {
    (if s == failed then 0 else CountOf(before, hash, files, s))
    + CountOf(after, hash, OwnedBy(before, hash, files, failed), s)
  }

  lemma OwnedByLast(ring: Ring, hash: Hash, init: seq<string>, last: string, s: Server)
    requires ring != map[]
    ensures OwnedBy(ring, hash, init + [last], s)
            == OwnedBy(ring, hash, init, s) + if Owner(ring, hash(last)) == s then [last] else []
  {
    assert (init + [last])[..|init|] == init;
  }

  lemma CountLast(ring: Ring, hash: Hash, init: seq<string>, last: string, s: Server)
    requires ring != map[]
    ensures CountOf(ring, hash, init + [last], s)
            == CountOf(ring, hash, init, s) + if Owner(ring, hash(last)) == s then 1 else 0
  {
    OwnedByLast(ring, hash, init, last, s);
  }

  // Only keys of the failed server change owner.
  ghost predicate OnlyFailedMoves(before: Ring, after: Ring, failed: Server)
    requires before != map[] && after != map[]
  {
    forall h :: Owner(before, h) != failed ==> Owner(after, h) == Owner(before, h)
  }

  lemma {:induction false} IncrementalWhenOnlyFailedMoves(
      before: Ring, after: Ring, hash: Hash, failed: Server, files: seq<string>, s: Server)
    requires before != map[] && after != map[] && OnlyFailedMoves(before, after, failed)
    ensures IncrementalCount(before, after, hash, failed, files, s) == CountOf(after, hash, files, s)
    decreases |files|
  {
    if files != [] {
      var init, last := files[..|files| - 1], files[|files| - 1];
      assert files == init + [last];
      IncrementalWhenOnlyFailedMoves(before, after, hash, failed, init, s);
      IncrementalStep(before, after, hash, failed, init, last, s);
      CountLast(after, hash, init, last, s);
    }
  }

  lemma IncrementalStep(
      before: Ring, after: Ring, hash: Hash, failed: Server, init: seq<string>, last: string, s: Server)
    requires before != map[] && after != map[] && OnlyFailedMoves(before, after, failed)
    ensures IncrementalCount(before, after, hash, failed, init + [last], s)
            == IncrementalCount(before, after, hash, failed, init, s) + if Owner(after, hash(last)) == s then 1 else 0
  {
    MovedStep(before, after, hash, failed, init, last, s);
    CountLast(before, hash, init, last, s);
  }

  lemma MovedStep(before: Ring, after: Ring, hash: Hash, failed: Server, init: seq<string>, last: string, s: Server)
    requires before != map[] && after != map[]
    ensures CountOf(after, hash, OwnedBy(before, hash, init + [last], failed), s)
            == CountOf(after, hash, OwnedBy(before, hash, init, failed), s)
               + if Owner(before, hash(last)) == failed && Owner(after, hash(last)) == s then 1 else 0
  {
    var mine := OwnedBy(before, hash, init, failed);
    if Owner(before, hash(last)) == failed {
      assert OwnedBy(before, hash, init + [last], failed) == mine + [last] by {
        OwnedByLast(before, hash, init, last, failed);
      }
      CountLast(after, hash, mine, last, s);
    } else {
      assert OwnedBy(before, hash, init + [last], failed) == mine by {
        OwnedByLast(before, hash, init, last, failed);
      }
    }
  }

  // When the failed server owns every point its removal erases, the incremental counts are those of
  // placing every file again on the reduced ring.
  lemma IncrementalIsRecomputation(
      before: Ring, hash: Hash, replicas: nat, failed: Server, files: seq<string>, s: Server)
    requires OwnsItsPoints(before, Points(hash, failed, replicas), failed)
    requires Removed(before, Points(hash, failed, replicas)) != map[]
    ensures before != map[]
    ensures IncrementalCount(before, Removed(before, Points(hash, failed, replicas)), hash, failed, files, s)
            == CountOf(Removed(before, Points(hash, failed, replicas)), hash, files, s)
  {
    var after := Removed(before, Points(hash, failed, replicas));
    assert before != map[] by {
      var p :| p in after;
      assert p in before;
    }
    forall h | Owner(before, h) != failed
      ensures Owner(after, h) == Owner(before, h)
    {
      OwnerIs(after, h, Successor(before, h));
    }
    IncrementalWhenOnlyFailedMoves(before, after, hash, failed, files, s);
  }

  // ---------------------------------------------------------------- exactly when

  // Every erased point that another server had taken over is followed by a surviving point of that server.
  ghost predicate Absorbed(before: Ring, points: set<Point>, failed: Server)
    requires Removed(before, points) != map[]
  {
    forall p :: p in points && p in before && before[p] != failed ==> Owner(Removed(before, points), p) == before[p]
  }

  lemma DistanceVia(h: Point, q: Point, x: Point)
    requires Distance(h, q) <= Distance(h, x)
    ensures Distance(h, x) == Distance(h, q) + Distance(q, x)
  {
    DistanceCases(h, q);
    DistanceCases(h, x);
    DistanceCases(q, x);
  }

  // A key whose point was erased goes where that point itself would go; other keys stay.
  lemma OwnerAfterRemoval(before: Ring, points: set<Point>, h: Point)
    requires before != map[] && Removed(before, points) != map[]
    ensures var after, q := Removed(before, points), Successor(before, h);
            Owner(after, h) == if q in points then Owner(after, q) else before[q]
  {
    var after, q := Removed(before, points), Successor(before, h);
    if q in points {
      var r := Successor(after, q);
      forall x | x in after
        ensures Distance(h, r) <= Distance(h, x)
      {
        DistanceVia(h, q, x);
        DistanceVia(h, q, r);
      }
      OwnerIs(after, h, r);
    } else {
      OwnerIs(after, h, q);
    }
  }

  lemma OnlyFailedMovesIff(before: Ring, points: set<Point>, failed: Server)
    requires before != map[] && Removed(before, points) != map[]
    ensures OnlyFailedMoves(before, Removed(before, points), failed) <==> Absorbed(before, points, failed)
  {
    var after := Removed(before, points);
    if Absorbed(before, points, failed) {
      forall h | Owner(before, h) != failed
        ensures Owner(after, h) == Owner(before, h)
      {
        OwnerAfterRemoval(before, points, h);
      }
    } else {
      var p :| p in points && p in before && before[p] != failed && Owner(after, p) != before[p];
      assert IsSuccessor(before, p, p);
      OwnerIs(before, p, p);
    }
  }

  ghost predicate IncrementalIsExact(before: Ring, after: Ring, hash: Hash, failed: Server)
    requires before != map[] && after != map[]
  {
    forall files, s :: IncrementalCount(before, after, hash, failed, files, s) == CountOf(after, hash, files, s)
  }

  // A file named like the failed server's replica r hashes to its point.
  lemma OneFileTells(before: Ring, hash: Hash, replicas: nat, failed: Server, r: nat)
    requires r < replicas && Removed(before, Points(hash, failed, replicas)) != map[] && before != map[]
    requires var p := PointOf(hash, failed, r); p in before && before[p] != failed
    requires IncrementalIsExact(before, Removed(before, Points(hash, failed, replicas)), hash, failed)
    ensures var p := PointOf(hash, failed, r); Owner(Removed(before, Points(hash, failed, replicas)), p) == before[p]
  {
    var after := Removed(before, Points(hash, failed, replicas));
    var name := failed + Decimal(r);
    var p := hash(name);
    var t := before[p];
    assert IsSuccessor(before, p, p);
    OwnerIs(before, p, p);
    assert OwnedBy(before, hash, [], t) == [] && OwnedBy(before, hash, [], failed) == [] && OwnedBy(after, hash, [], t) == [];
    CountLast(before, hash, [], name, t);
    OwnedByLast(before, hash, [], name, failed);
    CountLast(after, hash, [], name, t);
    assert IncrementalCount(before, after, hash, failed, [] + [name], t) == CountOf(after, hash, [] + [name], t);
  }

  // Moving only the failed server's files gives, for every list of files, the counts of placing them all again,
  // exactly when each erased point of another server is followed by a surviving point of the same server.
  lemma IncrementalIff(before: Ring, hash: Hash, replicas: nat, failed: Server)
    requires before != map[] && Removed(before, Points(hash, failed, replicas)) != map[]
    ensures IncrementalIsExact(before, Removed(before, Points(hash, failed, replicas)), hash, failed)
            <==> Absorbed(before, Points(hash, failed, replicas), failed)
  {
    var points := Points(hash, failed, replicas);
    var after := Removed(before, points);
    if Absorbed(before, points, failed) {
      OnlyFailedMovesIff(before, points, failed);
      forall files, s
        ensures IncrementalCount(before, after, hash, failed, files, s) == CountOf(after, hash, files, s)
      {
        IncrementalWhenOnlyFailedMoves(before, after, hash, failed, files, s);
      }
    }
    if IncrementalIsExact(before, after, hash, failed) {
      forall p | p in points && p in before && before[p] != failed
        ensures Owner(after, p) == before[p]
      {
        var r :| 0 <= r < replicas && p == PointOf(hash, failed, r);
        OneFileTells(before, hash, replicas, failed, r);
      }
    }
  }

  // ---------------------------------------------------------------- where the simulator misses it

  // The simulator adds Server1, Server2, ... in order.
  ghost function Adds(count: nat): seq<Change> {
    if count == 0 then [] else Adds(count - 1) + [Add(ServerName(count))]
  }

  lemma FleetGrows(hash: Hash, replicas: nat, count: nat)
    requires count > 0
    ensures Replay(hash, replicas, Adds(count))
            == Added(Replay(hash, replicas, Adds(count - 1)), Points(hash, ServerName(count), replicas), ServerName(count))
  {
    ReplaySnoc(hash, replicas, Adds(count - 1), Add(ServerName(count)));
  }

  // A point belongs to the last server added that has it.
  lemma {:induction false} LastAddedOwns(hash: Hash, replicas: nat, count: nat, p: Point, j: nat)
    requires 1 <= j <= count && p in Points(hash, ServerName(j), replicas)
    requires forall k :: j < k <= count ==> p !in Points(hash, ServerName(k), replicas)
    ensures p in Replay(hash, replicas, Adds(count)) && Replay(hash, replicas, Adds(count))[p] == ServerName(j)
    decreases count
  {
    FleetGrows(hash, replicas, count);
    if j < count {
      LastAddedOwns(hash, replicas, count - 1, p, j);
    }
  }

  lemma {:induction false} OnlyFleetPoints(hash: Hash, replicas: nat, count: nat)
    ensures forall p :: p in Replay(hash, replicas, Adds(count)) ==>
              exists name :: name in FleetNames(count, replicas) && p == hash(name)
    decreases count
  {
    if count > 0 {
      var s := ServerName(count);
      FleetGrows(hash, replicas, count);
      OnlyFleetPoints(hash, replicas, count - 1);
      forall p | p in Replay(hash, replicas, Adds(count))
        ensures exists name :: name in FleetNames(count, replicas) && p == hash(name)
      {
        if p in Points(hash, s, replicas) {
          var r :| 0 <= r < replicas && p == PointOf(hash, s, r);
          assert s + Decimal(r) in FleetNames(count, replicas);
        } else {
          var name :| name in FleetNames(count - 1, replicas) && p == hash(name);
          assert name in FleetNames(count, replicas);
        }
      }
    }
  }

  const SHARED: string := "Server110"
  const NEXT: string := "Server20"
  const FILE: string := "/data/f"

  lemma SharedNames()
    ensures SHARED == ServerName(1) + Decimal(10) == ServerName(11) + Decimal(0) && NEXT == ServerName(2) + Decimal(0)
    ensures ServerName(11) != ServerName(1) && ServerName(11) != ServerName(2)
  {
    assert Decimal(0) == "0" && Decimal(1) == "1" && Decimal(2) == "2";
    assert Decimal(10) == Decimal(1) + "0" && Decimal(11) == Decimal(1) + "1";
    assert |ServerName(11)| == 8 && |ServerName(1)| == 7 && |ServerName(2)| == 7;
  }

  // Only Server1 and Server11 are ever hashed to the shared name, and only Server2 to the next one.
  lemma {:induction false} WhoHasTheNames(k: nat, r: nat)
    requires k >= 1
    ensures ServerName(k) + Decimal(r) == SHARED ==> k <= 11
    ensures ServerName(k) + Decimal(r) == NEXT ==> k == 2
  {
    var u, x := Decimal(k), Decimal(r);
    SharedNames();
    assert "Server" + u + x == "Server" + (u + x) && SHARED == "Server" + "110" && NEXT == "Server" + "20";
    if ServerName(k) + x == SHARED && k > 11 {
      CancelPrefix("Server", u + x, "110");
      assert |u| == 2 && u == (u + x)[..2] == "11";
      assert Decimal(11) == "11";
      NumberOfDecimal(k);
      NumberOfDecimal(11);
    }
    if ServerName(k) + x == NEXT {
      CancelPrefix("Server", u + x, "20");
      assert k < 10 && Decimal(2) == "2";
      assert Decimal(2) + "0" == "20";
      OneDigitFirst(k, 2, x, "0");
    }
  }

  // A hash without collisions among the names of the fleet, under which the shared name, the next one and the file
  // come first on the circle.
  lemma FleetHash(count: nat, replicas: nat) returns (hash: Hash)
    requires |FleetNames(count, replicas)| + 3 <= RING_SIZE
    ensures Perfect(hash, FleetNames(count, replicas))
    ensures hash(FILE) == 0 && hash(SHARED) == 1 && hash(NEXT) == 2
    ensures forall x :: x in FleetNames(count, replicas) ==> 1 <= hash(x)
  {
    var names := FleetNames(count, replicas);
    var rest := PerfectHash(names, 3);
    hash := x => if x == FILE then 0 else if x == SHARED then 1 else if x == NEXT then 2 else rest(x);
    forall x | x in names
      ensures x != FILE
    {
      assert x[0] == 'S';
    }
  }

  // The points 1 and 2 of such a ring, before and after Server1 fails.
  lemma FleetRing(hash: Hash, replicas: nat, count: nat)
    requires Perfect(hash, FleetNames(count, replicas)) && 11 <= count && 11 <= replicas
    requires hash(SHARED) == 1 && hash(NEXT) == 2
    ensures var before := Replay(hash, replicas, Adds(count));
            && 1 in before && before[1] == ServerName(11)
            && 2 in before && before[2] == ServerName(2)
    ensures 1 in Points(hash, ServerName(1), replicas) && 2 !in Points(hash, ServerName(1), replicas)
  {
    SharedNames();
    assert PointOf(hash, ServerName(1), 10) == 1 && PointOf(hash, ServerName(11), 0) == 1;
    assert PointOf(hash, ServerName(2), 0) == 2;
    forall k: nat, p: Point | 1 <= k <= count && (p == 1 || p == 2) && p in Points(hash, ServerName(k), replicas)
      ensures p == 1 ==> k <= 11
      ensures p == 2 ==> k == 2
    {
      var r :| 0 <= r < replicas && p == PointOf(hash, ServerName(k), r);
      InFleetNames(count, replicas, k, r);
      InFleetNames(count, replicas, 11, 0);
      InFleetNames(count, replicas, 2, 0);
      WhoHasTheNames(k, r);
    }
    LastAddedOwns(hash, replicas, count, 1, 11);
    LastAddedOwns(hash, replicas, count, 2, 2);
  }

  lemma InFleetNames(count: nat, replicas: nat, k: nat, r: nat)
    requires 1 <= k <= count && r < replicas
    ensures ServerName(k) + Decimal(r) in FleetNames(count, replicas)
  {
  }

  // An input for which it is not, for every fleet of more than ten servers with more than ten replicas and without
  // any hash collision. Replica 10 of Server1 and replica 0 of Server11 have the same name; Server11 took the point
  // over, and removing Server1 erases it. The file there stays counted on Server11, though the ring now gives it to
  // Server2.
  lemma SharedPointBreaksIncremental(count: nat, replicas: nat) returns (hash: Hash)
    requires 11 <= count && 11 <= replicas && |FleetNames(count, replicas)| + 3 <= RING_SIZE
    ensures Perfect(hash, FleetNames(count, replicas))
    ensures var before := Replay(hash, replicas, Adds(count));
            var after := Removed(before, Points(hash, ServerName(1), replicas));
            && before != map[] && after != map[]
            && IncrementalCount(before, after, hash, ServerName(1), [FILE], ServerName(2)) == 0
            && CountOf(after, hash, [FILE], ServerName(2)) == 1
            && IncrementalCount(before, after, hash, ServerName(1), [FILE], ServerName(11)) == 1
            && CountOf(after, hash, [FILE], ServerName(11)) == 0
  {
    hash := FleetHash(count, replicas);
    FleetRing(hash, replicas, count);
    OnlyFleetPoints(hash, replicas, count);
    SharedNames();
    var before := Replay(hash, replicas, Adds(count));
    var points := Points(hash, ServerName(1), replicas);
    FirstOnCircle(before, points);
    OneFile(before, Removed(before, points), hash);
  }

  lemma FirstOnCircle(before: Ring, points: set<Point>)
    requires 1 in before && 2 in before && 1 in points && 2 !in points
    requires forall p :: p in before ==> 1 <= p
    ensures before != map[] && Removed(before, points) != map[]
    ensures Owner(before, 0) == before[1] && Owner(Removed(before, points), 0) == before[2]
  {
    var after := Removed(before, points);
    assert 2 in after;
    assert IsSuccessor(before, 0, 1) && IsSuccessor(after, 0, 2);
    OwnerIs(before, 0, 1);
    OwnerIs(after, 0, 2);
  }

  lemma OneFile(before: Ring, after: Ring, hash: Hash)
    requires before != map[] && after != map[]
    requires Owner(before, hash(FILE)) == ServerName(11) && Owner(after, hash(FILE)) == ServerName(2)
    requires ServerName(11) != ServerName(1) && ServerName(11) != ServerName(2)
    ensures IncrementalCount(before, after, hash, ServerName(1), [FILE], ServerName(2)) == 0
    ensures CountOf(after, hash, [FILE], ServerName(2)) == 1
    ensures IncrementalCount(before, after, hash, ServerName(1), [FILE], ServerName(11)) == 1
    ensures CountOf(after, hash, [FILE], ServerName(11)) == 0
  {
    assert [FILE] == [] + [FILE];
    OwnedByLast(before, hash, [], FILE, ServerName(1));
    OneFileCount(before, hash, ServerName(2));
    OneFileCount(before, hash, ServerName(11));
    OneFileCount(after, hash, ServerName(2));
    OneFileCount(after, hash, ServerName(11));
  }

  lemma OneFileCount(ring: Ring, hash: Hash, s: Server)
    requires ring != map[]
    ensures CountOf(ring, hash, [FILE], s) == if Owner(ring, hash(FILE)) == s then 1 else 0
  {
    assert [FILE] == [] + [FILE];
    CountLast(ring, hash, [], FILE, s);
  }
}
