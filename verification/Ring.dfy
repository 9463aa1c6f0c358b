/** Points on the hash circle and the order in which a key meets them. The theorems hold
    for every hash function, collisions included. */
module Ring {
  import opened Wrappers

  type HashFunction = seq<Byte> -> nat

  /** A virtual node's position and the node that owns it. */
  datatype Point = Point(hash: nat, id: nat)

  const HASH_SIGN: Byte := 35

  /** strconv.FormatUint in base 10. */
  function Decimal(n: nat): seq<Byte> {
    if n < 10 then [48 + n] else Decimal(n / 10) + [48 + n % 10]
  }

  function Label(id: nat, v: nat): seq<Byte> {
    Decimal(id) + [HASH_SIGN] + Decimal(v)
  }

  predicate IsDigits(s: seq<Byte>) {
    forall i :: 0 <= i < |s| ==> 48 <= s[i] < 58
  }

  lemma {:induction false} DecimalDigits(n: nat)
    ensures Decimal(n) != [] && IsDigits(Decimal(n))
  {
    if n >= 10 {
      DecimalDigits(n / 10);
    }
  }

  lemma {:induction false} DecimalInjective(a: nat, b: nat)
    requires Decimal(a) == Decimal(b)
    ensures a == b
  {
    DecimalDigits(a / 10);
    DecimalDigits(b / 10);
    var x, y := Decimal(a), Decimal(b);
    assert x[|x| - 1] == 48 + a % 10 && y[|y| - 1] == 48 + b % 10;
    if a >= 10 && b >= 10 {
      assert x[..|x| - 1] == Decimal(a / 10) && y[..|y| - 1] == Decimal(b / 10);
      DecimalInjective(a / 10, b / 10);
    }
  }

  /** The number that digits stand for. */
  function ReadDecimal(s: seq<Byte>): int {
    if s == [] then 0 else 10 * ReadDecimal(s[..|s| - 1]) + s[|s| - 1] as int - 48
  }

  /** Decimal writes digits that read as the number, without a leading zero. */
  lemma {:induction false} DecimalReads(n: nat)
    ensures IsDigits(Decimal(n)) && ReadDecimal(Decimal(n)) == n
    ensures Decimal(n) != [] && (n != 0 ==> Decimal(n)[0] != 48) && (n < 10 ==> |Decimal(n)| == 1)
    decreases n
  {
    var s := Decimal(n);
    if n >= 10 {
      DecimalReads(n / 10);
      assert s[..|s| - 1] == Decimal(n / 10);
    } else {
      assert s[..0] == [];
    }
  }

  /** A label is the two numbers in decimal with `#` between them. */
  lemma LabelReads(id: nat, v: nat) returns (k: nat)
    ensures k < |Label(id, v)| && Label(id, v)[k] == '#' as int
    ensures var before, after := Label(id, v)[..k], Label(id, v)[k + 1..];
            IsDigits(before) && ReadDecimal(before) == id && IsDigits(after) && ReadDecimal(after) == v
  {
    k := |Decimal(id)|;
    DecimalReads(id);
    DecimalReads(v);
    assert Label(id, v)[..k] == Decimal(id) && Label(id, v)[k + 1..] == Decimal(v);
  }

  /** No two virtual nodes are hashed from the same label. */
  lemma LabelInjective(a: nat, v: nat, b: nat, w: nat)
    requires Label(a, v) == Label(b, w)
    ensures a == b && v == w
  {
    DecimalDigits(a);
    DecimalDigits(b);
    var x, y := Decimal(a), Decimal(b);
    var text := Label(a, v);
    assert text[|x|] == HASH_SIGN && text[|y|] == HASH_SIGN;
    assert forall i :: 0 <= i < |x| ==> text[i] == x[i];
    assert forall i :: 0 <= i < |y| ==> text[i] == y[i];
    assert |x| == |y|;
    assert x == text[..|x|] == y;
    assert Decimal(v) == text[|x| + 1..] == Decimal(w);
    DecimalInjective(a, b);
    DecimalInjective(v, w);
  }

  ghost function PointsOf(fnv: HashFunction, virtualNodes: nat, ids: set<nat>): set<Point> {
    set id, v | id in ids && 0 <= v < virtualNodes :: Point(fnv(Label(id, v)), id)
  }

  /** The order of the sorted ring: by hash, ties by id. */
  predicate Less(a: Point, b: Point) {
    a.hash < b.hash || (a.hash == b.hash && a.id < b.id)
  }

  /** Going clockwise from h, a comes before b. */
  predicate Before(h: nat, a: Point, b: Point) {
    if a.hash >= h && b.hash < h then true
    else if a.hash < h && b.hash >= h then false
    else Less(a, b)
  }

  /** p is the first point of s clockwise from h. */
  ghost predicate IsFirst(h: nat, s: set<Point>, p: Point) {
    p in s && forall q :: q in s && q != p ==> Before(h, p, q)
  }

  lemma FirstUnique(h: nat, s: set<Point>, p: Point, q: Point)
    requires IsFirst(h, s, p) && IsFirst(h, s, q)
    ensures p == q
  {
  }

  /** The first point clockwise: the lowest hash from h on, or the lowest of all when the circle has
      none from h on; of points with one hash, the one with the smallest id. */
  lemma FirstIs(h: nat, s: set<Point>, p: Point)
    requires IsFirst(h, s, p)
    ensures forall q :: q in s && q.hash >= h ==> p.hash >= h && p.hash <= q.hash
    ensures (forall q :: q in s ==> q.hash < h) ==> forall q :: q in s ==> p.hash <= q.hash
    ensures forall q :: q in s && q.hash == p.hash ==> p.id <= q.id
  {
  }

  lemma {:induction false} FirstExists(h: nat, s: set<Point>)
    requires s != {}
    ensures exists p :: IsFirst(h, s, p)
    decreases s
  {
    var p :| p in s;
    if s != {p} {
      FirstExists(h, s - {p});
      var q :| IsFirst(h, s - {p}, q);
      forall r | r in s && r != (if Before(h, p, q) then p else q)
        ensures Before(h, if Before(h, p, q) then p else q, r)
      {
        assert r == p || r in s - {p};
      }
      assert IsFirst(h, s, if Before(h, p, q) then p else q);
    } else {
      assert IsFirst(h, s, p);
    }
  }

  /** The first point clockwise from h. */
  ghost function First(h: nat, s: set<Point>): (p: Point)
    requires s != {}
    ensures IsFirst(h, s, p)
  {
    FirstExists(h, s);
    var p :| IsFirst(h, s, p);
    p
  }

  lemma HasPoints(fnv: HashFunction, virtualNodes: nat, ids: set<nat>)
    requires virtualNodes > 0 && ids != {}
    ensures PointsOf(fnv, virtualNodes, ids) != {}
  {
    var id :| id in ids;
    assert Point(fnv(Label(id, 0)), id) in PointsOf(fnv, virtualNodes, ids);
  }

  /** The owner a key gets from a set of node ids. */
  ghost function OwnerOf(fnv: HashFunction, virtualNodes: nat, ids: set<nat>, key: seq<Byte>): nat
    requires virtualNodes > 0 && ids != {}
  {
    HasPoints(fnv, virtualNodes, ids);
    First(fnv(key), PointsOf(fnv, virtualNodes, ids)).id
  }

  lemma OwnerIsCandidate(fnv: HashFunction, virtualNodes: nat, ids: set<nat>, key: seq<Byte>)
    requires virtualNodes > 0 && ids != {}
    ensures OwnerOf(fnv, virtualNodes, ids, key) in ids
  {
    HasPoints(fnv, virtualNodes, ids);
  }

  /** Dropping nodes that do not own a key leaves its owner alone. */
  lemma OwnerStable(fnv: HashFunction, virtualNodes: nat, ids: set<nat>, kept: set<nat>, key: seq<Byte>)
    requires virtualNodes > 0 && kept <= ids && kept != {}
    requires OwnerOf(fnv, virtualNodes, ids, key) in kept
    ensures OwnerOf(fnv, virtualNodes, kept, key) == OwnerOf(fnv, virtualNodes, ids, key)
  {
    HasPoints(fnv, virtualNodes, ids);
    HasPoints(fnv, virtualNodes, kept);
    var all, some := PointsOf(fnv, virtualNodes, ids), PointsOf(fnv, virtualNodes, kept);
    assert some <= all;
    assert First(fnv(key), all) in some;
    FirstUnique(fnv(key), some, First(fnv(key), all), First(fnv(key), some));
  }

  /** Adding a node moves a key to the new node or not at all. */
  lemma AddingMovesOnlyToNew(fnv: HashFunction, virtualNodes: nat, ids: set<nat>, n: nat, key: seq<Byte>)
    requires virtualNodes > 0 && ids != {}
    ensures OwnerOf(fnv, virtualNodes, ids + {n}, key) == n
         || OwnerOf(fnv, virtualNodes, ids + {n}, key) == OwnerOf(fnv, virtualNodes, ids, key)
  {
    OwnerIsCandidate(fnv, virtualNodes, ids + {n}, key);
    if OwnerOf(fnv, virtualNodes, ids + {n}, key) != n {
      OwnerStable(fnv, virtualNodes, ids + {n}, ids, key);
    }
  }

  /** Removing a node moves exactly the keys it owned. */
  lemma RemovingMovesExactlyOwned(fnv: HashFunction, virtualNodes: nat, ids: set<nat>, n: nat, key: seq<Byte>)
    requires virtualNodes > 0 && n in ids && ids != {n}
    ensures OwnerOf(fnv, virtualNodes, ids - {n}, key) != OwnerOf(fnv, virtualNodes, ids, key)
       <==> OwnerOf(fnv, virtualNodes, ids, key) == n
  {
    OwnerIsCandidate(fnv, virtualNodes, ids, key);
    OwnerIsCandidate(fnv, virtualNodes, ids - {n}, key);
    if OwnerOf(fnv, virtualNodes, ids, key) != n {
      OwnerStable(fnv, virtualNodes, ids, ids - {n}, key);
    }
  }

  // ---- The sorted ring ----

  ghost predicate Sorted(ring: seq<Point>) {
    forall i, j :: 0 <= i < j < |ring| ==> !Less(ring[j], ring[i])
  }

  /** sort.Search for the first hash not below h. */
  ghost predicate IsSearchResult(ring: seq<Point>, h: nat, i: nat) {
    && i <= |ring|
    && (forall j :: 0 <= j < i ==> ring[j].hash < h)
    && (forall j :: i <= j < |ring| ==> ring[j].hash >= h)
  }

  /** The index `Select` uses: past the end wraps to the start. */
  function Wrapped(ring: seq<Point>, i: nat): nat {
    if i == |ring| then 0 else i
  }

  /** The k-th point of a walk round the ring. */
  function Walk(ring: seq<Point>, start: nat, k: nat): Point
    requires start < |ring| && k < |ring|
  {
    if start + k < |ring| then ring[start + k] else ring[start + k - |ring|]
  }

  /** A walk from the search result meets the points in clockwise order. */
  lemma WalkIsClockwise(ring: seq<Point>, h: nat, i: nat, a: nat, b: nat)
    requires ring != [] && Sorted(ring) && IsSearchResult(ring, h, i)
    requires a < b < |ring|
    ensures var s := Wrapped(ring, i); !Before(h, Walk(ring, s, b), Walk(ring, s, a))
  {
  }

  /** Every ring position is met once. */
  lemma WalkCovers(ring: seq<Point>, start: nat, j: nat) returns (k: nat)
    requires start < |ring| && j < |ring|
    ensures k < |ring| && Walk(ring, start, k) == ring[j]
  {
    k := if j >= start then j - start else j + |ring| - start;
  }

  /** Binary search with wrap-around finds the first point clockwise from h. */
  lemma SearchFindsFirst(ring: seq<Point>, h: nat, i: nat)
    requires ring != [] && Sorted(ring) && IsSearchResult(ring, h, i)
    ensures IsFirst(h, (set p | p in ring), ring[Wrapped(ring, i)])
  {
    var s := Wrapped(ring, i);
    assert Walk(ring, s, 0) == ring[s];
    forall q | q in ring && q != ring[s]
      ensures Before(h, ring[s], q)
    {
      var j :| 0 <= j < |ring| && ring[j] == q;
      var k := WalkCovers(ring, s, j);
      WalkIsClockwise(ring, h, i, 0, k);
    }
  }

  /** Walk on from `start` past points of excluded owners. */
  function FirstAllowed(ring: seq<Point>, start: nat, k: nat, excluded: set<nat>): (j: nat)
    requires start < |ring| && k <= |ring|
    ensures k <= j <= |ring|
    ensures j < |ring| ==> Walk(ring, start, j).id !in excluded
    ensures forall m :: k <= m < j ==> Walk(ring, start, m).id in excluded
    decreases |ring| - k
  {
    if k == |ring| || Walk(ring, start, k).id !in excluded then k
    else FirstAllowed(ring, start, k + 1, excluded)
  }

  /** The points of the filtered nodes are the points whose owner is not excluded. */
  lemma FilteredPoints(fnv: HashFunction, virtualNodes: nat, ids: set<nat>, excluded: set<nat>, p: Point)
    ensures p in PointsOf(fnv, virtualNodes, ids - excluded) <==> p in PointsOf(fnv, virtualNodes, ids) && p.id !in excluded
  {
  }

  /** Filtering the nodes and building a new ring gives the owner that walking the full
      ring and skipping excluded owners gives. */
  lemma FilterEqualsSkip(fnv: HashFunction, virtualNodes: nat, ids: set<nat>, excluded: set<nat>, key: seq<Byte>,
                         ring: seq<Point>, i: nat)
    requires virtualNodes > 0 && ids - excluded != {}
    requires Sorted(ring) && (set p | p in ring) == PointsOf(fnv, virtualNodes, ids)
    requires IsSearchResult(ring, fnv(key), i)
    ensures ring != []
    ensures var s := Wrapped(ring, i);
            var k := FirstAllowed(ring, s, 0, excluded);
            k < |ring| && Walk(ring, s, k).id == OwnerOf(fnv, virtualNodes, ids - excluded, key)
  {
    var h := fnv(key);
    var rest := ids - excluded;
    HasPoints(fnv, virtualNodes, rest);
    var some := PointsOf(fnv, virtualNodes, rest);
    var p := First(h, some);
    FilteredPoints(fnv, virtualNodes, ids, excluded, p);
    assert p in (set q | q in ring);
    var j :| 0 <= j < |ring| && ring[j] == p;
    var s := Wrapped(ring, i);
    var m := WalkCovers(ring, s, j);
    var k := FirstAllowed(ring, s, 0, excluded);
    assert k <= m;
    var w := Walk(ring, s, k);
    assert w in (set q | q in ring);
    FilteredPoints(fnv, virtualNodes, ids, excluded, w);
    if k < m {
      WalkIsClockwise(ring, h, i, k, m);
    }
  }
}
