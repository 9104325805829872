// The consistent-hash ring of the load-distribution simulator: servers are hashed to several points
// each, and a key belongs to the server of the first point at or after the hash of the key, wrapping
// around at the end of the 64-bit range.
module HashRing {
  import opened Wrappers
  import opened Numerals

  const RING_SIZE: nat := 0x1_0000_0000_0000_0000

  type Point = x: nat | x < 0x1_0000_0000_0000_0000
  type Server = string
  type Ring = map<Point, Server>
  type Hash = string -> Point

  datatype RingError = EmptyRing

  // ---------------------------------------------------------------- points of a server

  function PointOf(hash: Hash, server: Server, replica: nat): Point {
    hash(server + Decimal(replica))
  }

  ghost function Points(hash: Hash, server: Server, replicas: nat): set<Point> {
    set r | 0 <= r < replicas :: PointOf(hash, server, r)
  }

  // ---------------------------------------------------------------- what the operations do to the ring

  ghost function Added(ring: Ring, points: set<Point>, server: Server): Ring {
    map p | p in ring.Keys + points :: if p in points then server else ring[p]
  }

  ghost function Removed(ring: Ring, points: set<Point>): Ring {
    ring - points
  }

  lemma PointsStep(hash: Hash, server: Server, r: nat)
    ensures Points(hash, server, r + 1) == Points(hash, server, r) + {PointOf(hash, server, r)}
  {
  }

  // The ring after the first r passes of the loop of AddServer.
  ghost function AddedReplicas(ring: Ring, hash: Hash, server: Server, r: nat): Ring {
    if r == 0 then ring
    else AddedReplicas(ring, hash, server, r - 1)[PointOf(hash, server, r - 1) := server]
  }

  lemma AddedOneMore(ring: Ring, points: set<Point>, p: Point, server: Server)
    ensures Added(ring, points, server)[p := server] == Added(ring, points + {p}, server)
  {
  }

  lemma {:induction false} AddedReplicasIsAdded(ring: Ring, hash: Hash, server: Server, r: nat)
    ensures AddedReplicas(ring, hash, server, r) == Added(ring, Points(hash, server, r), server)
  {
    if r > 0 {
      AddedReplicasIsAdded(ring, hash, server, r - 1);
      AddedOneMore(ring, Points(hash, server, r - 1), PointOf(hash, server, r - 1), server);
      PointsStep(hash, server, r - 1);
    } else {
      assert Points(hash, server, r) == {};
    }
  }

  lemma RemovedStep(ring: Ring, hash: Hash, server: Server, r: nat)
    ensures Removed(ring, Points(hash, server, r)) - {PointOf(hash, server, r)}
            == Removed(ring, Points(hash, server, r + 1))
  {
    PointsStep(hash, server, r);
  }

  // Clockwise distance from h to p on the circle of RING_SIZE points.
  function Distance(h: Point, p: Point): nat {
    (p - h) % RING_SIZE
  }

  // p is the ring point that comes first when walking clockwise from h.
  ghost predicate IsSuccessor(ring: Ring, h: Point, p: Point) {
    p in ring && forall q :: q in ring ==> Distance(h, p) <= Distance(h, q)
  }

  lemma DistanceCases(h: Point, p: Point)
    ensures Distance(h, p) == if h <= p then p - h else p - h + RING_SIZE
  {
  }

  lemma SuccessorUnique(ring: Ring, h: Point, p: Point, q: Point)
    requires IsSuccessor(ring, h, p) && IsSuccessor(ring, h, q)
    ensures p == q
  {
    DistanceCases(h, p);
    DistanceCases(h, q);
  }

  lemma {:induction false} NearestExists(points: set<Point>, h: Point) returns (p: Point)
    requires points != {}
    ensures p in points && forall q :: q in points ==> Distance(h, p) <= Distance(h, q)
    decreases points
  {
    p :| p in points;
    if points != {p} {
      var other := NearestExists(points - {p}, h);
      if Distance(h, other) < Distance(h, p) {
        p := other;
      }
    }
  }

  lemma SuccessorExists(ring: Ring, h: Point)
    requires ring != map[]
    ensures exists p :: IsSuccessor(ring, h, p)
  {
    assert ring.Keys != {};
    var p := NearestExists(ring.Keys, h);
    assert IsSuccessor(ring, h, p);
  }

  ghost function Successor(ring: Ring, h: Point): (p: Point)
    requires ring != map[]
    ensures IsSuccessor(ring, h, p)
  {
    SuccessorExists(ring, h);
    var p :| IsSuccessor(ring, h, p);
    p
  }

  ghost function Owner(ring: Ring, h: Point): Server
    requires ring != map[]
  {
    ring[Successor(ring, h)]
  }

  lemma OwnerIs(ring: Ring, h: Point, p: Point)
    requires IsSuccessor(ring, h, p)
    ensures ring != map[] && Successor(ring, h) == p && Owner(ring, h) == ring[p]
  {
    assert p in ring;
    SuccessorUnique(ring, h, p, Successor(ring, h));
  }

  // The owner of a key is the server at the first point at or after its hash, or at the very first point when there is
  // none.
  lemma OwnerMeans(ring: Ring, h: Point) returns (p: Point)
    requires ring != map[]
    ensures p in ring && Owner(ring, h) == ring[p]
    ensures if exists q :: q in ring && h <= q then h <= p && forall q :: q in ring && h <= q ==> p <= q
            else forall q :: q in ring ==> p <= q
  {
    p := Successor(ring, h);
    forall q | q in ring
      ensures h <= q ==> h <= p <= q
      ensures q < h && p < h ==> p <= q
    {
      DistanceCases(h, p);
      DistanceCases(h, q);
    }
  }

  // Some replica of the server is hashed to the point.
  ghost predicate HasPoint(hash: Hash, server: Server, replicas: nat, p: Point) {
    exists r :: 0 <= r < replicas && p == hash(server + Decimal(r))
  }

  // Adding and removing, point by point: an addition takes over every point of the server, a removal erases them all.
  lemma ChangeMeans(ring: Ring, hash: Hash, server: Server, replicas: nat, p: Point)
    ensures var points := Points(hash, server, replicas);
            var added, removed := Added(ring, points, server), Removed(ring, points);
            && (p in added <==> p in ring || HasPoint(hash, server, replicas, p))
            && (p in added ==> added[p] == if HasPoint(hash, server, replicas, p) then server else ring[p])
            && (p in removed <==> p in ring && !HasPoint(hash, server, replicas, p))
            && (p in removed ==> removed[p] == ring[p])
  {
    if HasPoint(hash, server, replicas, p) {
      var r :| 0 <= r < replicas && p == hash(server + Decimal(r));
      assert PointOf(hash, server, r) == p;
    }
    if p in Points(hash, server, replicas) {
      var r :| 0 <= r < replicas && p == PointOf(hash, server, r);
      assert p == hash(server + Decimal(r));
    }
  }

  // ---------------------------------------------------------------- the ring as a mutable object

  ghost predicate StrictlySorted(s: seq<Point>) {
    forall i, j :: 0 <= i < j < |s| ==> s[i] < s[j]
  }

  // i is where lower_bound(h) points in the sorted keys.
  ghost predicate SplitsAt(keys: seq<Point>, i: nat, h: Point) {
    && i <= |keys|
    && (forall j :: 0 <= j < i ==> keys[j] < h)
    && (forall j :: i <= j < |keys| ==> h <= keys[j])
  }

  lemma KeysAfterInsert(keys: seq<Point>, i: nat, point: Point)
    requires StrictlySorted(keys) && SplitsAt(keys, i, point) && point !in keys
    ensures StrictlySorted(keys[..i] + [point] + keys[i..])
    ensures forall p :: p in keys[..i] + [point] + keys[i..] <==> p in keys || p == point
  {
    var longer := keys[..i] + [point] + keys[i..];
    assert forall j :: 0 <= j < |longer| ==>
        longer[j] == if j < i then keys[j] else if j == i then point else keys[j - 1];
    forall p | p in keys
      ensures p in longer
    {
      var j :| 0 <= j < |keys| && keys[j] == p;
      assert longer[if j < i then j else j + 1] == p;
    }
    assert longer[i] == point;
  }

  lemma KeysAfterErase(keys: seq<Point>, i: nat, point: Point)
    requires StrictlySorted(keys) && SplitsAt(keys, i, point) && point in keys
    ensures i < |keys| && keys[i] == point
    ensures StrictlySorted(keys[..i] + keys[i + 1..])
    ensures forall p :: p in keys[..i] + keys[i + 1..] <==> p in keys && p != point
  {
    assert i < |keys| && keys[i] == point;
    var shorter := keys[..i] + keys[i + 1..];
    assert forall j :: i <= j < |shorter| ==> shorter[j] == keys[j + 1];
    assert keys == keys[..i] + [point] + keys[i + 1..];
  }

  // std::map kept in key order: the sorted key sequence and the mapped values. history records the servers added
  // and removed so far.
  class HashRing {
    const replicas: nat
    const hash: Hash
    var keys: seq<Point>
    var ring: Ring
    ghost var history: seq<Change>

    ghost predicate Sorted()
      reads this
    {
      StrictlySorted(keys) && (forall p :: p in keys <==> p in ring)
    }

    ghost predicate Valid()
      reads this
    {
      Sorted() && ring == Replay(hash, replicas, history)
    }

    constructor (replicas: nat, hash: Hash)
      ensures Valid() && ring == map[] && history == []
      ensures this.replicas == replicas && this.hash == hash
    {
      this.replicas := replicas;
      this.hash := hash;
      keys := [];
      ring := map[];
      history := [];
    }

    // std::map::lower_bound
    method LowerBound(h: Point) returns (i: nat)
      requires Sorted()
      ensures SplitsAt(keys, i, h)
      ensures i <= |keys| && (forall j :: 0 <= j < i ==> keys[j] < h) && (forall j :: i <= j < |keys| ==> h <= keys[j])
    {
      i := 0;
      while i < |keys| && keys[i] < h
        invariant i <= |keys|
        invariant forall j :: 0 <= j < i ==> keys[j] < h
      {
        i := i + 1;
      }
    }

    // ring_[point] = server
    method Put(point: Point, server: Server)
      requires Sorted()
      modifies this`keys, this`ring
      ensures Sorted() && ring == old(ring)[point := server]
    {
      if point !in ring {
        var i := LowerBound(point);
        KeysAfterInsert(keys, i, point);
        keys := keys[..i] + [point] + keys[i..];
      }
      ring := ring[point := server];
    }

    // ring_.erase(point)
    method Erase(point: Point)
      requires Sorted()
      modifies this`keys, this`ring
      ensures Sorted() && ring == old(ring) - {point}
    {
      if point in ring {
        var i := LowerBound(point);
        KeysAfterErase(keys, i, point);
        keys := keys[..i] + keys[i + 1..];
      }
      ring := ring - {point};
    }

    // Returns the last point written; without replicas the source returns an indeterminate value.
    method AddServer(server: Server) returns (last: Option<Point>)
      requires Valid()
      modifies this
      ensures Valid() && history == old(history) + [Add(server)]
      ensures ring == Added(old(ring), Points(hash, server, replicas), server)
      ensures last == if replicas == 0 then None else Some(PointOf(hash, server, replicas - 1))
    {
      last := None;
      var r := 0;
      ghost var before := ring;
      while r < replicas
        invariant 0 <= r <= replicas && Sorted() && history == old(history)
        invariant ring == AddedReplicas(before, hash, server, r)
        invariant last == if r == 0 then None else Some(PointOf(hash, server, r - 1))
      {
        Put(PointOf(hash, server, r), server);
        last := Some(PointOf(hash, server, r));
        r := r + 1;
      }
      AddedReplicasIsAdded(before, hash, server, replicas);
      ReplaySnoc(hash, replicas, history, Add(server));
      history := history + [Add(server)];
    }

    method RemoveServer(server: Server)
      requires Valid()
      modifies this
      ensures Valid() && history == old(history) + [Remove(server)]
      ensures ring == Removed(old(ring), Points(hash, server, replicas))
    {
      var r := 0;
      while r < replicas
        invariant 0 <= r <= replicas && Sorted() && history == old(history)
        invariant ring == Removed(old(ring), Points(hash, server, r))
      {
        RemovedStep(old(ring), hash, server, r);
        Erase(PointOf(hash, server, r));
        r := r + 1;
      }
      ReplaySnoc(hash, replicas, history, Remove(server));
      history := history + [Remove(server)];
    }

    // The owner of the point that minimises the clockwise distance from the hash of the key.
    method GetServer(data: string) returns (server: Result<Server, RingError>)
      requires Sorted()
      ensures ring == map[] <==> server == Err(EmptyRing)
      ensures ring != map[] ==> server == Ok(Owner(ring, hash(data)))
    {
      if |keys| == 0 {
        assert ring == map[] by {
          assert forall p :: p !in ring;
        }
        return Err(EmptyRing);
      }
      var h := hash(data);
      var i := LowerBound(h);
      if i == |keys| {
        i := 0;
      }
      assert keys[i] in keys;
      forall q | q in ring
        ensures Distance(h, keys[i]) <= Distance(h, q)
      {
        DistanceCases(h, keys[i]);
        DistanceCases(h, q);
        assert q in keys;
      }
      OwnerIs(ring, h, keys[i]);
      server := Ok(ring[keys[i]]);
    }

    // The files each server owns, in input order.
    method GetDistribution(data: seq<string>) returns (distribution: Result<map<Server, seq<string>>, RingError>)
      requires Sorted()
      ensures distribution.Err? <==> ring == map[] && data != []
      ensures distribution.Ok? && ring != map[] ==>
                forall s :: GetOr(distribution.value, s, []) == OwnedBy(ring, hash, data, s)
      ensures distribution.Ok? && ring == map[] ==> distribution.value == map[]
    {
      var d: map<Server, seq<string>> := map[];
      var i := 0;
      while i < |data|
        invariant 0 <= i <= |data|
        invariant ring == map[] ==> i == 0 && d == map[]
        invariant ring != map[] ==> forall s :: GetOr(d, s, []) == OwnedBy(ring, hash, data[..i], s)
      {
        var owner := GetServer(data[i]);
        if owner.Err? {
          return Err(owner.error);
        }
        assert data[..i + 1] == data[..i] + [data[i]];
        d := d[owner.value := GetOr(d, owner.value, []) + [data[i]]];
        i := i + 1;
      }
      assert data[..i] == data;
      distribution := Ok(d);
    }
  }

  function GetOr<V>(m: map<Server, V>, s: Server, default: V): V {
    if s in m then m[s] else default
  }

  // The keys of data that the ring gives to s, in order.
  ghost function OwnedBy(ring: Ring, hash: Hash, data: seq<string>, s: Server): seq<string>
    requires ring != map[]
  {
    if data == [] then []
    else
      var last := data[|data| - 1];
      OwnedBy(ring, hash, data[..|data| - 1], s) + if Owner(ring, hash(last)) == s then [last] else []
  }

  // The places of the owned data in the list: all of them, in order, and no others.
  lemma {:induction false} OwnedByMeans(ring: Ring, hash: Hash, data: seq<string>, s: Server) returns (at: seq<nat>)
    requires ring != map[]
    ensures |at| == |OwnedBy(ring, hash, data, s)| && (forall i, j :: 0 <= i < j < |at| ==> at[i] < at[j])
    ensures forall k :: 0 <= k < |at| ==> at[k] < |data| && OwnedBy(ring, hash, data, s)[k] == data[at[k]]
    ensures forall k :: 0 <= k < |data| ==> (k in at <==> Owner(ring, hash(data[k])) == s)
  {
    at := [];
    if data != [] {
      var n := |data| - 1;
      at := OwnedByMeans(ring, hash, data[..n], s);
      if Owner(ring, hash(data[n])) == s {
        at := at + [n];
      }
    }
  }

  // ---------------------------------------------------------------- histories

  datatype Change = Add(server: Server) | Remove(server: Server)

  ghost function Replay(hash: Hash, replicas: nat, history: seq<Change>): Ring {
    if history == [] then map[]
    else
      var before := Replay(hash, replicas, history[..|history| - 1]);
      match history[|history| - 1]
      case Add(s) => Added(before, Points(hash, s, replicas), s)
      case Remove(s) => Removed(before, Points(hash, s, replicas))
  }

  lemma ReplaySnoc(hash: Hash, replicas: nat, history: seq<Change>, c: Change)
    ensures var before := Replay(hash, replicas, history);
            Replay(hash, replicas, history + [c])
            == if c.Add? then Added(before, Points(hash, c.server, replicas), c.server)
               else Removed(before, Points(hash, c.server, replicas))
  {
    assert (history + [c])[..|history|] == history;
  }

  // ---------------------------------------------------------------- growth and removal

  // Adding a server moves a key only to that server, even where its points overwrite others.
  lemma MonotoneGrowth(ring: Ring, points: set<Point>, server: Server, h: Point)
    requires ring != map[]
    ensures Added(ring, points, server) != map[]
    ensures Owner(Added(ring, points, server), h) in {Owner(ring, h), server}
  {
    var grown := Added(ring, points, server);
    var p := Successor(ring, h);
    assert p in grown;
    var q := Successor(grown, h);
    if q !in points {
      OwnerIs(ring, h, q);
    }
  }

  // Every entry lies at one of the points of the server it names.
  ghost predicate WellPlaced(ring: Ring, hash: Hash, replicas: nat) {
    forall p :: p in ring ==> p in Points(hash, ring[p], replicas)
  }

  lemma WellPlacedKept(ring: Ring, hash: Hash, replicas: nat, s: Server)
    requires WellPlaced(ring, hash, replicas)
    ensures WellPlaced(Added(ring, Points(hash, s, replicas), s), hash, replicas)
    ensures WellPlaced(Removed(ring, Points(hash, s, replicas)), hash, replicas)
  {
  }

  // Whatever servers were added and removed, and however their points collided.
  lemma {:induction false} ReplayWellPlaced(hash: Hash, replicas: nat, history: seq<Change>)
    ensures WellPlaced(Replay(hash, replicas, history), hash, replicas)
    decreases |history|
  {
    if history != [] {
      var init, last := history[..|history| - 1], history[|history| - 1];
      ReplayWellPlaced(hash, replicas, init);
      WellPlacedKept(Replay(hash, replicas, init), hash, replicas, last.server);
    }
  }

  // After any history: no key maps to a server just removed, and a key moves only if its successor point was erased.
  lemma MinimalDisruption(hash: Hash, replicas: nat, history: seq<Change>, s: Server, h: Point)
    requires Replay(hash, replicas, history + [Remove(s)]) != map[]
    ensures Replay(hash, replicas, history) != map[]
    ensures var before, after := Replay(hash, replicas, history), Replay(hash, replicas, history + [Remove(s)]);
            && Owner(after, h) != s
            && (Successor(before, h) !in Points(hash, s, replicas) ==> Owner(after, h) == Owner(before, h))
  {
    ReplaySnoc(hash, replicas, history, Remove(s));
    ReplayWellPlaced(hash, replicas, history);
    var ring, points := Replay(hash, replicas, history), Points(hash, s, replicas);
    var rest := Removed(ring, points);
    assert Successor(rest, h) in ring;
    var p := Successor(ring, h);
    if p !in points {
      OwnerIs(rest, h, p);
    }
  }

  // s alone sits at the points that removing s erases.
  ghost predicate OwnsItsPoints(ring: Ring, points: set<Point>, s: Server) {
    forall p :: p in ring && p in points ==> ring[p] == s
  }

  // After any history in which no other server came to sit at a point of s, exactly the keys of s move.
  lemma ExactlyTheKeysOfSMove(hash: Hash, replicas: nat, history: seq<Change>, s: Server, h: Point)
    requires Replay(hash, replicas, history + [Remove(s)]) != map[]
    requires OwnsItsPoints(Replay(hash, replicas, history), Points(hash, s, replicas), s)
    ensures Replay(hash, replicas, history) != map[]
    ensures var before, after := Replay(hash, replicas, history), Replay(hash, replicas, history + [Remove(s)]);
            Owner(after, h) != Owner(before, h) <==> Owner(before, h) == s
  {
    MinimalDisruption(hash, replicas, history, s, h);
  }

  // That is so, in particular, when the points of different servers are disjoint.
  lemma DisjointOwnsItsPoints(hash: Hash, replicas: nat, history: seq<Change>, s: Server)
    requires Disjoint(hash, replicas, Mentioned(history) + {s})
    ensures OwnsItsPoints(Replay(hash, replicas, history), Points(hash, s, replicas), s)
  {
    ReplayIsLive(hash, replicas, history, Mentioned(history) + {s});
  }

  // ---------------------------------------------------------------- the ring is a function of the live set

  ghost function Live(history: seq<Change>): set<Server> {
    if history == [] then {}
    else
      var before := Live(history[..|history| - 1]);
      match history[|history| - 1]
      case Add(s) => before + {s}
      case Remove(s) => before - {s}
  }

  ghost predicate Disjoint(hash: Hash, replicas: nat, servers: set<Server>) {
    forall s, t :: s in servers && t in servers && s != t ==> Points(hash, s, replicas) !! Points(hash, t, replicas)
  }

  // The ring has an entry for every point of a live server, and no other.
  ghost predicate HoldsExactly(hash: Hash, replicas: nat, ring: Ring, live: set<Server>) {
    && WellPlaced(ring, hash, replicas)
    && (forall p :: p in ring ==> ring[p] in live)
    && (forall s, p :: s in live && p in Points(hash, s, replicas) ==> p in ring && ring[p] == s)
  }

  ghost function Mentioned(history: seq<Change>): set<Server> {
    set c | c in history :: c.server
  }

  lemma {:induction false} ReplayIsLive(hash: Hash, replicas: nat, history: seq<Change>, universe: set<Server>)
    requires Disjoint(hash, replicas, universe) && Mentioned(history) <= universe
    ensures Live(history) <= universe
    ensures HoldsExactly(hash, replicas, Replay(hash, replicas, history), Live(history))
    decreases |history|
  {
    if history != [] {
      var init := history[..|history| - 1];
      var last := history[|history| - 1];
      assert last in history && last.server in Mentioned(history);
      forall c | c in init
        ensures c.server in Mentioned(history)
      {
        assert c in history;
      }
      ReplayIsLive(hash, replicas, init, universe);
    }
  }

  // Two histories over servers with disjoint points that leave the same servers leave the same ring.
  lemma {:induction false} RingIsFunctionOfLiveSet(hash: Hash, replicas: nat, a: seq<Change>, b: seq<Change>)
    requires Disjoint(hash, replicas, Mentioned(a) + Mentioned(b))
    requires Live(a) == Live(b)
    ensures Replay(hash, replicas, a) == Replay(hash, replicas, b)
  {
    var universe := Mentioned(a) + Mentioned(b);
    ReplayIsLive(hash, replicas, a, universe);
    ReplayIsLive(hash, replicas, b, universe);
    var live := Live(a);
    HoldsExactlyUnique(hash, replicas, Replay(hash, replicas, a), Replay(hash, replicas, b), live);
  }

  lemma HoldsExactlyUnique(hash: Hash, replicas: nat, a: Ring, b: Ring, live: set<Server>)
    requires HoldsExactly(hash, replicas, a, live) && HoldsExactly(hash, replicas, b, live)
    ensures a == b
  {
    forall p | p in a
      ensures p in b && b[p] == a[p]
    {
      assert p in Points(hash, a[p], replicas);
    }
    forall p | p in b
      ensures p in a
    {
      assert p in Points(hash, b[p], replicas);
    }
  }

  // ---------------------------------------------------------------- when points are disjoint

  // No two of the names collide.
  ghost predicate Perfect(hash: Hash, names: set<string>) {
    forall x, y :: x in names && y in names && hash(x) == hash(y) ==> x == y
  }

  // Every set of names that the circle has room for has such a hash, with values from base on.
  lemma {:induction false} PerfectHash(names: set<string>, base: nat) returns (hash: Hash)
    requires base + |names| <= RING_SIZE
    ensures Perfect(hash, names)
    ensures forall x :: x in names ==> base <= hash(x) < base + |names|
  {
    if names == {} {
      hash := _ => 0;
    } else {
      var name :| name in names;
      var rest := PerfectHash(names - {name}, base);
      var free: Point := base + |names| - 1;
      hash := x => if x == name then free else rest(x);
    }
  }

  // The simulator's servers: "Server" followed by 1, 2, ..., count.
  function ServerName(i: nat): Server {
    "Server" + Decimal(i)
  }

  ghost function Fleet(count: nat): set<Server> {
    set i | 1 <= i <= count :: ServerName(i)
  }

  // The strings the ring hashes for a fleet.
  ghost function FleetNames(count: nat, replicas: nat): set<string> {
    set i, r | 1 <= i <= count && 0 <= r < replicas :: ServerName(i) + Decimal(r)
  }

  lemma ReplicaNamesInjective(s: Server, t: Server, i: nat, j: nat)
    requires i < 10 && j < 10
    requires s + Decimal(i) == t + Decimal(j)
    ensures s == t && i == j
  {
    var x, y := s + Decimal(i), t + Decimal(j);
    assert x[|x| - 1] == DIGITS[i] && y[|y| - 1] == DIGITS[j];
    assert s == x[..|x| - 1] && t == y[..|y| - 1];
  }

  lemma ServerOneReplicaTenIsServerElevenReplicaZero()
    ensures ServerName(1) + Decimal(10) == ServerName(11) + Decimal(0)
    ensures ServerName(1) != ServerName(11)
  {
    assert Decimal(1) == "1" && Decimal(0) == "0";
    assert Decimal(10) == Decimal(1) + ['0'];
    assert Decimal(11) == Decimal(1) + ['1'];
    assert |ServerName(1)| != |ServerName(11)|;
  }

  // Numerals do not start with a zero, but for "0" itself.
  lemma {:induction false} NoLeadingZero(n: nat)
    ensures Decimal(n)[0] == '0' <==> n == 0
  {
    if n >= 10 {
      NoLeadingZero(n / 10);
    }
  }

  lemma OneDigitFirst(a: nat, b: nat, u: string, v: string)
    requires a < 10 && b < 10 && Decimal(a) + u == Decimal(b) + v
    ensures a == b && u == v
  {
    var x, y := Decimal(a) + u, Decimal(b) + v;
    assert x[0] == DIGITS[a] && y[0] == DIGITS[b];
    assert x[1..] == u && y[1..] == v;
  }

  lemma TenIsNoDigit(a: nat, i: nat, v: string)
    requires 1 <= a < 10 && v != ""
    ensures Decimal(a) + Decimal(i) != Decimal(10) + v
  {
    assert Decimal(10) == Decimal(1) + "0";
    if Decimal(a) + Decimal(i) == Decimal(10) + v {
      assert Decimal(10) + v == Decimal(1) + ("0" + v);
      OneDigitFirst(a, 1, Decimal(i), "0" + v);
      NoLeadingZero(i);
    }
  }

  lemma CancelPrefix(p: string, u: string, v: string)
    requires p + u == p + v
    ensures u == v
  {
    assert u == (p + u)[|p|..] && v == (p + v)[|p|..];
  }

  // With at most ten servers only the number 10 has two digits, and no replica number starts with its zero.
  lemma {:induction false} SmallFleetNamesInjective(a: nat, b: nat, i: nat, j: nat)
    requires 1 <= a <= b <= 10 && ServerName(a) + Decimal(i) == ServerName(b) + Decimal(j)
    ensures a == b && Decimal(i) == Decimal(j)
  {
    var u, v, x, y := Decimal(a), Decimal(b), Decimal(i), Decimal(j);
    assert "Server" + u + x == "Server" + (u + x) && "Server" + v + y == "Server" + (v + y);
    CancelPrefix("Server", u + x, v + y);
    if b < 10 {
      OneDigitFirst(a, b, x, y);
    } else if a < 10 {
      TenIsNoDigit(a, i, y);
    } else {
      CancelPrefix(u, x, y);
    }
  }

  lemma SmallFleetDisjoint(hash: Hash, replicas: nat, count: nat)
    requires Perfect(hash, FleetNames(count, replicas)) && count <= 10
    ensures Disjoint(hash, replicas, Fleet(count))
  {
    forall s, t | s in Fleet(count) && t in Fleet(count) && s != t
      ensures Points(hash, s, replicas) !! Points(hash, t, replicas)
    {
      var a :| 1 <= a <= count && s == ServerName(a);
      var b :| 1 <= b <= count && t == ServerName(b);
      forall p | p in Points(hash, s, replicas) && p in Points(hash, t, replicas)
        ensures false
      {
        var i :| 0 <= i < replicas && p == PointOf(hash, s, i);
        var j :| 0 <= j < replicas && p == PointOf(hash, t, j);
        assert s + Decimal(i) in FleetNames(count, replicas) && t + Decimal(j) in FleetNames(count, replicas);
        if a <= b {
          SmallFleetNamesInjective(a, b, i, j);
        } else {
          SmallFleetNamesInjective(b, a, j, i);
        }
      }
    }
  }

  lemma FewReplicasDisjoint(hash: Hash, replicas: nat, count: nat)
    requires Perfect(hash, FleetNames(count, replicas)) && replicas <= 10
    ensures Disjoint(hash, replicas, Fleet(count))
  {
    forall s, t | s in Fleet(count) && t in Fleet(count) && s != t
      ensures Points(hash, s, replicas) !! Points(hash, t, replicas)
    {
      forall p | p in Points(hash, s, replicas) && p in Points(hash, t, replicas)
        ensures false
      {
        var i :| 0 <= i < replicas && p == PointOf(hash, s, i);
        var j :| 0 <= j < replicas && p == PointOf(hash, t, j);
        assert s + Decimal(i) in FleetNames(count, replicas) && t + Decimal(j) in FleetNames(count, replicas);
        ReplicaNamesInjective(s, t, i, j);
      }
    }
  }

  // Even a hash without collisions keeps the points of the simulator's servers apart only up to ten replicas or
  // ten servers.
  lemma FleetDisjointIff(hash: Hash, replicas: nat, count: nat)
    requires Perfect(hash, FleetNames(count, replicas))
    ensures Disjoint(hash, replicas, Fleet(count)) <==> replicas <= 10 || count <= 10
  {
    if count <= 10 {
      SmallFleetDisjoint(hash, replicas, count);
    } else if replicas <= 10 {
      FewReplicasDisjoint(hash, replicas, count);
    } else {
      ServerOneReplicaTenIsServerElevenReplicaZero();
      var s, t := ServerName(1), ServerName(11);
      assert s in Fleet(count) && t in Fleet(count);
      assert PointOf(hash, s, 10) in Points(hash, s, replicas);
      assert PointOf(hash, t, 0) in Points(hash, t, replicas);
    }
  }

  // Removing undoes adding exactly when the new server shared no point with the ring.
  lemma RemoveUndoesAddIff(ring: Ring, points: set<Point>, s: Server)
    ensures Removed(Added(ring, points, s), points) == ring <==> ring.Keys !! points
  {
    var back := Removed(Added(ring, points, s), points);
    assert forall p :: p in back <==> p in ring && p !in points;
    if ring.Keys !! points {
      assert back == ring;
    }
  }
}
