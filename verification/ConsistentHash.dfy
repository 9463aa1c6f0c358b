/** internal/router/consistent_hash.go: the ring, its cache and the selection. */
module ConsistentHashing {
  import opened Wrappers
  import opened Nodes
  import opened Ring

  datatype SelectError = ErrEmptyCandidates | ErrInvalidRoutingKey

  datatype VNode = VNode(hash: nat, node: Node)

  const DEFAULT_VIRTUAL_NODES := 64

  const ID_LIMIT := 0x1_0000_0000_0000_0000

  function IDs(nodes: seq<Node>): (ids: seq<nat>)
    ensures |ids| == |nodes| && forall i :: 0 <= i < |nodes| ==> ids[i] == nodes[i].id
  {
    seq(|nodes|, i requires 0 <= i < |nodes| => nodes[i].id)
  }

  function IDSet(ids: seq<nat>): set<nat> {
    set id | id in ids
  }

  // ---- Fingerprint ----

  /** The n low bytes of x, least significant first. */
  function LittleEndian(x: nat, n: nat): (bytes: seq<Byte>)
    ensures |bytes| == n
  {
    if n == 0 then [] else [x % 256] + LittleEndian(x / 256, n - 1)
  }

  /** x >> 8*k. */
  function ShiftRight(x: nat, k: nat): nat {
    if k == 0 then x else ShiftRight(x / 256, k - 1)
  }

  lemma {:induction false} ByteAt(x: nat, n: nat, k: nat)
    requires k < n
    ensures LittleEndian(x, n)[k] == ShiftRight(x, k) % 256
  {
    if k > 0 {
      ByteAt(x / 256, n - 1, k - 1);
    }
  }

  function EncodeIDs(ids: seq<nat>): (bytes: seq<Byte>)
    ensures |bytes| == 8 * |ids|
  {
    if ids == [] then [] else EncodeIDs(ids[..|ids| - 1]) + LittleEndian(ids[|ids| - 1], 8)
  }

  function Fingerprint(fnv: HashFunction, ids: seq<nat>): nat {
    fnv(EncodeIDs(ids))
  }

  function Pow256(n: nat): nat {
    if n == 0 then 1 else 256 * Pow256(n - 1)
  }

  lemma {:induction false} LittleEndianInjective(x: nat, y: nat, n: nat)
    requires x < Pow256(n) && y < Pow256(n) && LittleEndian(x, n) == LittleEndian(y, n)
    ensures x == y
  {
    if n > 0 {
      var a, b := LittleEndian(x, n), LittleEndian(y, n);
      assert a[0] == b[0] && a[1..] == LittleEndian(x / 256, n - 1) && b[1..] == LittleEndian(y / 256, n - 1);
      LittleEndianInjective(x / 256, y / 256, n - 1);
    }
  }

  lemma Pow256Is()
    ensures Pow256(8) == ID_LIMIT
  {
    assert Pow256(4) == 0x1_0000_0000;
    assert Pow256(8) == 256 * 256 * 256 * 256 * Pow256(4);
  }

  /** The bytes that are fingerprinted determine the sequence of ids. */
  lemma {:induction false} EncodingInjective(a: seq<nat>, b: seq<nat>)
    requires forall i :: 0 <= i < |a| ==> a[i] < ID_LIMIT
    requires forall i :: 0 <= i < |b| ==> b[i] < ID_LIMIT
    requires EncodeIDs(a) == EncodeIDs(b)
    ensures a == b
    decreases |a|
  {
    assert |a| == |b|;
    if a != [] {
      var n := |a| - 1;
      var x, y := EncodeIDs(a), EncodeIDs(b);
      assert x[..8 * n] == EncodeIDs(a[..n]) && y[..8 * n] == EncodeIDs(b[..n]);
      assert x[8 * n..] == LittleEndian(a[n], 8) && y[8 * n..] == LittleEndian(b[n], 8);
      EncodingInjective(a[..n], b[..n]);
      assert Pow256(8) == ID_LIMIT by { Pow256Is(); }
      LittleEndianInjective(a[n], b[n], 8);
      assert a == a[..n] + [a[n]] && b == b[..n] + [b[n]];
    }
  }

  /** Distinct id sequences share a fingerprint only if the hash maps two different byte
      strings to one value. */
  lemma CollisionIsAHashCollision(fnv: HashFunction, a: seq<nat>, b: seq<nat>)
    requires forall i :: 0 <= i < |a| ==> a[i] < ID_LIMIT
    requires forall i :: 0 <= i < |b| ==> b[i] < ID_LIMIT
    requires a != b && Fingerprint(fnv, a) == Fingerprint(fnv, b)
    ensures EncodeIDs(a) != EncodeIDs(b) && fnv(EncodeIDs(a)) == fnv(EncodeIDs(b))
  {
    if EncodeIDs(a) == EncodeIDs(b) {
      EncodingInjective(a, b);
    }
  }

  // ---- The ring of virtual nodes ----

  function PointOf(v: VNode): Point {
    Point(v.hash, v.node.id)
  }

  function Points(ring: seq<VNode>): (ps: seq<Point>)
    ensures |ps| == |ring| && forall i :: 0 <= i < |ring| ==> ps[i] == PointOf(ring[i])
  {
    seq(|ring|, i requires 0 <= i < |ring| => PointOf(ring[i]))
  }

  /** What a ring built from `nodes` must be: sorted, with exactly their points, each held
      by one of the nodes. */
  ghost predicate IsRingOf(fnv: HashFunction, virtualNodes: nat, nodes: seq<Node>, ring: seq<VNode>) {
    && Ring.Sorted(Points(ring))
    && (set p | p in Points(ring)) == PointsOf(fnv, virtualNodes, IDSet(IDs(nodes)))
    && forall v :: v in ring ==> v.node in nodes
  }

  /** Insertion into a sorted sequence, after everything that is not greater. */
  function Insert(ring: seq<VNode>, v: VNode): (r: seq<VNode>)
    ensures multiset(r) == multiset(ring) + multiset{v}
  {
    if ring == [] then [v]
    else
      var last := ring[|ring| - 1];
      assert ring == ring[..|ring| - 1] + [last];
      if Less(PointOf(v), PointOf(last)) then Insert(ring[..|ring| - 1], v) + [last]
      else ring + [v]
  }

  lemma {:induction false} InsertSorted(ring: seq<VNode>, v: VNode)
    requires Ring.Sorted(Points(ring))
    ensures Ring.Sorted(Points(Insert(ring, v)))
    decreases |ring|
  {
    if ring != [] {
      var init, last := ring[..|ring| - 1], ring[|ring| - 1];
      var ps := Points(ring);
      forall i, j | 0 <= i < j < |Points(init)|
        ensures !Less(Points(init)[j], Points(init)[i])
      {
        assert Points(init)[i] == ps[i] && Points(init)[j] == ps[j];
      }
      if Less(PointOf(v), PointOf(last)) {
        InsertSorted(init, v);
        var r := Insert(init, v);
        forall i | 0 <= i < |r|
          ensures !Less(PointOf(last), PointOf(r[i]))
        {
          assert r[i] in multiset(init) + multiset{v};
          if r[i] != v {
            var j :| 0 <= j < |init| && init[j] == r[i];
            assert ps[j] == PointOf(r[i]) && ps[|ring| - 1] == PointOf(last);
          }
        }
      } else {
        forall i | 0 <= i < |ring|
          ensures !Less(PointOf(v), PointOf(ring[i]))
        {
          assert !Less(ps[|ring| - 1], ps[i]) || i == |ring| - 1;
        }
      }
    }
  }

  lemma SameElementsSamePoints(xs: seq<VNode>, ys: seq<VNode>)
    requires multiset(xs) == multiset(ys)
    ensures (set p | p in Points(xs)) == (set p | p in Points(ys))
    ensures forall v :: v in xs <==> v in ys
  {
    assert forall v :: v in xs <==> v in multiset(xs);
    assert forall v :: v in ys <==> v in multiset(ys);
    forall p | p in Points(xs)
      ensures p in Points(ys)
    {
      var i :| 0 <= i < |xs| && Points(xs)[i] == p;
      assert xs[i] in ys;
      var j :| 0 <= j < |ys| && ys[j] == xs[i];
      assert Points(ys)[j] == p;
    }
    forall p | p in Points(ys)
      ensures p in Points(xs)
    {
      var i :| 0 <= i < |ys| && Points(ys)[i] == p;
      assert ys[i] in xs;
      var j :| 0 <= j < |xs| && xs[j] == ys[i];
      assert Points(xs)[j] == p;
    }
  }

  // ---- The cache over a sequence of calls ----

  /** A Select that gets past its argument checks. */
  datatype Call = Call(nodes: seq<Node>, key: seq<Byte>)

  predicate ValidCall(c: Call) {
    c.nodes != [] && c.key != []
  }

  function CallIDs(c: Call): seq<nat> {
    IDs(c.nodes)
  }

  /** The node list the ring in use was built from, after one more call. */
  function NextBuilt(fnv: HashFunction, built: Option<seq<Node>>, nodes: seq<Node>): seq<Node> {
    if built.Some? && Fingerprint(fnv, IDs(built.value)) == Fingerprint(fnv, IDs(nodes)) then built.value else nodes
  }

  function BuiltAfter(fnv: HashFunction, calls: seq<Call>): Option<seq<Node>> {
    if calls == [] then None
    else Some(NextBuilt(fnv, BuiltAfter(fnv, calls[..|calls| - 1]), calls[|calls| - 1].nodes))
  }

  lemma {:induction false} BuiltNotEmpty(fnv: HashFunction, calls: seq<Call>)
    requires calls != [] && forall c :: c in calls ==> ValidCall(c)
    ensures BuiltAfter(fnv, calls).Some? && BuiltAfter(fnv, calls).value != []
    ensures IDSet(IDs(BuiltAfter(fnv, calls).value)) != {}
    decreases |calls|
  {
    if |calls| > 1 {
      BuiltNotEmpty(fnv, calls[..|calls| - 1]);
    } else {
      assert calls[..|calls| - 1] == [];
    }
    var last := calls[|calls| - 1];
    assert ValidCall(last);
    assert BuiltAfter(fnv, calls) == Some(NextBuilt(fnv, BuiltAfter(fnv, calls[..|calls| - 1]), last.nodes));
    var built := BuiltAfter(fnv, calls).value;
    assert built != [];
    assert IDs(built)[0] in IDSet(IDs(built));
  }

  /** The owner the k-th call is answered with. */
  ghost function CachedOwner(fnv: HashFunction, virtualNodes: nat, calls: seq<Call>, k: nat): nat
    requires virtualNodes > 0 && k < |calls| && forall c :: c in calls ==> ValidCall(c)
  {
    BuiltNotEmpty(fnv, calls[..k + 1]);
    OwnerOf(fnv, virtualNodes, IDSet(IDs(BuiltAfter(fnv, calls[..k + 1]).value)), calls[k].key)
  }

  /** No two consecutive calls have different id sequences with one fingerprint. */
  ghost predicate NoConsecutiveCollision(fnv: HashFunction, calls: seq<Call>) {
    forall k :: 0 < k < |calls| && Fingerprint(fnv, CallIDs(calls[k - 1])) == Fingerprint(fnv, CallIDs(calls[k]))
      ==> CallIDs(calls[k - 1]) == CallIDs(calls[k])
  }

  /** After the k-th call the ring in use has the ids of that call's candidates. */
  ghost predicate RingMatches(fnv: HashFunction, calls: seq<Call>, k: nat)
    requires k < |calls|
  {
    IDs(BuiltAfter(fnv, calls[..k + 1]).value) == CallIDs(calls[k])
  }

  lemma BuiltStep(fnv: HashFunction, calls: seq<Call>, k: nat)
    requires 0 < k < |calls|
    ensures BuiltAfter(fnv, calls[..k + 1]) == Some(NextBuilt(fnv, BuiltAfter(fnv, calls[..k]), calls[k].nodes))
  {
    assert calls[..k + 1][..k] == calls[..k];
  }

  lemma {:induction false} MatchesWithoutCollision(fnv: HashFunction, calls: seq<Call>, k: nat)
    requires k < |calls| && NoConsecutiveCollision(fnv, calls)
    ensures RingMatches(fnv, calls, k)
  {
    if k > 0 {
      MatchesWithoutCollision(fnv, calls, k - 1);
      BuiltStep(fnv, calls, k);
    } else {
      assert calls[..1][..0] == [];
    }
  }

  /** The ring in use always has the current candidates' ids if and only if no two
      consecutive calls collide. */
  lemma CacheExactlyWhenNoCollision(fnv: HashFunction, calls: seq<Call>)
    ensures NoConsecutiveCollision(fnv, calls) <==> forall k :: 0 <= k < |calls| ==> RingMatches(fnv, calls, k)
  {
    if NoConsecutiveCollision(fnv, calls) {
      forall k | 0 <= k < |calls|
        ensures RingMatches(fnv, calls, k)
      {
        MatchesWithoutCollision(fnv, calls, k);
      }
    } else {
      var k :| 0 < k < |calls| && Fingerprint(fnv, CallIDs(calls[k - 1])) == Fingerprint(fnv, CallIDs(calls[k]))
               && CallIDs(calls[k - 1]) != CallIDs(calls[k]);
      if RingMatches(fnv, calls, k - 1) {
        BuiltStep(fnv, calls, k);
        assert !RingMatches(fnv, calls, k);
      }
    }
  }

  /** Cached selection picks the id that building and searching a fresh ring would pick. */
  lemma CacheRefinesFreshRing(fnv: HashFunction, virtualNodes: nat, calls: seq<Call>, k: nat)
    requires virtualNodes > 0 && k < |calls| && forall c :: c in calls ==> ValidCall(c)
    requires NoConsecutiveCollision(fnv, calls)
    ensures IDSet(CallIDs(calls[k])) != {}
    ensures CachedOwner(fnv, virtualNodes, calls, k) == OwnerOf(fnv, virtualNodes, IDSet(CallIDs(calls[k])), calls[k].key)
  {
    MatchesWithoutCollision(fnv, calls, k);
    BuiltNotEmpty(fnv, calls[..k + 1]);
  }

  /** With colliding fingerprints the second call is answered from the first call's ring,
      with a node that is no candidate at all. */
  lemma CollisionServesStaleOwner(a: Node, b: Node, key: seq<Byte>)
    requires a.id != b.id && key != []
    ensures var calls := [Call([a], key), Call([b], key)];
            && CachedOwner(bytes => 0, DEFAULT_VIRTUAL_NODES, calls, 1) == a.id
            && a.id !in IDSet(CallIDs(calls[1]))
  {
    var fnv: HashFunction := bytes => 0;
    var calls := [Call([a], key), Call([b], key)];
    BuiltStep(fnv, calls, 1);
    assert calls[..1] == [calls[0]] && calls[..1][..0] == [];
    assert BuiltAfter(fnv, calls[..1]) == Some([a]);
    BuiltNotEmpty(fnv, calls[..2]);
    OwnerIsCandidate(fnv, DEFAULT_VIRTUAL_NODES, IDSet(IDs([a])), key);
  }

  // ---- The strategy object ----

  lemma PointsOfOneMore(fnv: HashFunction, virtualNodes: nat, ids: seq<nat>, i: nat)
    requires i < |ids|
    ensures forall p :: p in PointsOf(fnv, virtualNodes, IDSet(ids[..i + 1])) <==>
              p in PointsOf(fnv, virtualNodes, IDSet(ids[..i]))
              || exists u :: 0 <= u < virtualNodes && p == Point(fnv(Label(ids[i], u)), ids[i])
  {
    assert ids[..i + 1] == ids[..i] + [ids[i]];
    assert forall id :: id in IDSet(ids[..i + 1]) <==> id in IDSet(ids[..i]) || id == ids[i];
    forall u | 0 <= u < virtualNodes
      ensures Point(fnv(Label(ids[i], u)), ids[i]) in PointsOf(fnv, virtualNodes, IDSet(ids[..i + 1]))
    {
      assert ids[i] in IDSet(ids[..i + 1]);
    }
  }

  /** The search on a ring of `nodes` ends at the owner of the key. */
  lemma SearchGivesOwner(fnv: HashFunction, virtualNodes: nat, nodes: seq<Node>, ring: seq<VNode>, key: seq<Byte>, i: nat)
    requires virtualNodes > 0 && nodes != [] && ring != [] && IsRingOf(fnv, virtualNodes, nodes, ring)
    requires IsSearchResult(Points(ring), fnv(key), i)
    ensures IDSet(IDs(nodes)) != {}
    ensures var v := ring[Wrapped(Points(ring), i)];
            v.node in nodes && v.node.id == OwnerOf(fnv, virtualNodes, IDSet(IDs(nodes)), key)
  {
    assert IDs(nodes)[0] in IDSet(IDs(nodes));
    HasPoints(fnv, virtualNodes, IDSet(IDs(nodes)));
    SearchFindsFirst(Points(ring), fnv(key), i);
    var ps := PointsOf(fnv, virtualNodes, IDSet(IDs(nodes)));
    FirstUnique(fnv(key), ps, First(fnv(key), ps), Points(ring)[Wrapped(Points(ring), i)]);
  }

  class ConsistentHash {
    const virtualNodes: nat
    const fnv: HashFunction
    var cachedFP: nat
    var ring: seq<VNode>          // empty: not built yet
    ghost var builtFrom: seq<Node>

    ghost predicate Valid()
      reads this
    {
      && virtualNodes > 0
      && (ring != [] ==>
            && builtFrom != []
            && IsRingOf(fnv, virtualNodes, builtFrom, ring)
            && cachedFP == Fingerprint(fnv, IDs(builtFrom)))
    }

    /** The node list behind the cached ring, if there is one. */
    ghost function Built(): Option<seq<Node>>
      reads this
    {
      if ring == [] then None else Some(builtFrom)
    }

    constructor (wanted: int, fnv: HashFunction)
      ensures Valid() && Built() == None && this.fnv == fnv
      ensures virtualNodes == if wanted <= 0 then 64 else wanted
    {
      virtualNodes := if wanted <= 0 then DEFAULT_VIRTUAL_NODES else wanted;
      this.fnv := fnv;
      cachedFP := 0;
      ring := [];
      builtFrom := [];
    }

    /** Writes each id as eight bytes through one reused buffer. */
    method NodesFingerprint(nodes: seq<Node>) returns (fp: nat)
      ensures fp == Fingerprint(fnv, IDs(nodes))
    {
      var written: seq<Byte> := [];
      var buf := new Byte[8];
      for i := 0 to |nodes|
        invariant written == EncodeIDs(IDs(nodes)[..i])
      {
        WriteID(buf, nodes[i].id);
        written := written + buf[..];
        assert IDs(nodes)[..i + 1][..i] == IDs(nodes)[..i];
      }
      assert IDs(nodes)[..|nodes|] == IDs(nodes);
      fp := fnv(written);
    }

    method WriteID(buf: array<Byte>, id: nat)
      requires buf.Length == 8
      modifies buf
      ensures buf[..] == LittleEndian(id, 8)
    {
      buf[0] := ShiftRight(id, 0) % 256;
      buf[1] := ShiftRight(id, 1) % 256;
      buf[2] := ShiftRight(id, 2) % 256;
      buf[3] := ShiftRight(id, 3) % 256;
      buf[4] := ShiftRight(id, 4) % 256;
      buf[5] := ShiftRight(id, 5) % 256;
      buf[6] := ShiftRight(id, 6) % 256;
      buf[7] := ShiftRight(id, 7) % 256;
      forall k | 0 <= k < 8
        ensures buf[k] == LittleEndian(id, 8)[k]
      {
        ByteAt(id, 8, k);
      }
      assert buf[..] == LittleEndian(id, 8);
    }

    /** sort.Slice with the ring's order; callers rely on no more than a sorted permutation. */
    method SortRing(xs: seq<VNode>) returns (ys: seq<VNode>)
      ensures Ring.Sorted(Points(ys)) && multiset(ys) == multiset(xs)
    {
      ys := [];
      for i := 0 to |xs|
        invariant Ring.Sorted(Points(ys)) && multiset(ys) == multiset(xs[..i])
      {
        InsertSorted(ys, xs[i]);
        ys := Insert(ys, xs[i]);
        assert xs[..i + 1] == xs[..i] + [xs[i]];
      }
      assert xs[..|xs|] == xs;
    }

    method BuildRing(nodes: seq<Node>) returns (r: seq<VNode>)
      requires nodes != [] && virtualNodes > 0
      ensures IsRingOf(fnv, virtualNodes, nodes, r) && r != []
    {
      var unsorted: seq<VNode> := [];
      for i := 0 to |nodes|
        invariant |unsorted| == i * virtualNodes
        invariant forall v :: v in unsorted ==> v.node in nodes
        invariant forall p :: p in Points(unsorted) <==> p in PointsOf(fnv, virtualNodes, IDSet(IDs(nodes)[..i]))
      {
        var node := nodes[i];
        ghost var before := unsorted;
        for v := 0 to virtualNodes
          invariant |unsorted| == i * virtualNodes + v
          invariant forall x :: x in unsorted ==> x.node in nodes
          invariant forall p :: p in Points(unsorted) <==>
                      p in Points(before) || (exists u :: 0 <= u < v && p == Point(fnv(Label(node.id, u)), node.id))
        {
          ghost var was := unsorted;
          var vn := VNode(fnv(Label(node.id, v)), node);
          unsorted := unsorted + [vn];
          assert Points(unsorted) == Points(was) + [PointOf(vn)];
        }
        PointsOfOneMore(fnv, virtualNodes, IDs(nodes), i);
      }
      assert IDs(nodes)[..|nodes|] == IDs(nodes);
      r := SortRing(unsorted);
      SameElementsSamePoints(unsorted, r);
      assert |r| == |multiset(r)| == |multiset(unsorted)| == |nodes| * virtualNodes;
      assert r != [] by {
        assert IDs(nodes)[0] in IDSet(IDs(nodes));
        HasPoints(fnv, virtualNodes, IDSet(IDs(nodes)));
      }
    }

    /** sort.Search: the first position whose hash is not below h. */
    method Search(vs: seq<VNode>, h: nat) returns (i: nat)
      requires Ring.Sorted(Points(vs))
      ensures IsSearchResult(Points(vs), h, i)
    {
      i := 0;
      var j := |vs|;
      ghost var ps := Points(vs);
      while i < j
        invariant i <= j <= |vs|
        invariant forall k :: 0 <= k < i ==> ps[k].hash < h
        invariant forall k :: j <= k < |vs| ==> ps[k].hash >= h
      {
        var m := (i + j) / 2;
        if vs[m].hash < h {
          assert forall k :: 0 <= k < m ==> !Less(ps[m], ps[k]);
          i := m + 1;
        } else {
          assert forall k :: m < k < |vs| ==> !Less(ps[k], ps[m]);
          j := m;
        }
      }
    }

    /** Select answers from the cached ring when the fingerprint matches, and rebuilds it otherwise. */
    method Select(nodes: seq<Node>, key: seq<Byte>) returns (r: Result<Node, SelectError>)
      requires Valid()
      modifies this
      ensures Valid()
      ensures nodes == [] ==> r == Err(ErrEmptyCandidates)
      ensures nodes != [] && key == [] ==> r == Err(ErrInvalidRoutingKey)
      ensures r.Err? ==> Built() == old(Built())
      ensures nodes != [] && key != [] ==>
                && r.Ok?
                && Built() == Some(NextBuilt(fnv, old(Built()), nodes))
                && r.value in Built().value
                && IDSet(IDs(Built().value)) != {}
                && r.value.id == OwnerOf(fnv, virtualNodes, IDSet(IDs(Built().value)), key)
    {
      if |nodes| == 0 {
        return Err(ErrEmptyCandidates);
      }
      if key == [] {
        return Err(ErrInvalidRoutingKey);
      }
      var fp := NodesFingerprint(nodes);
      if ring == [] || fp != cachedFP {
        ring := BuildRing(nodes);
        cachedFP := fp;
        builtFrom := nodes;
      }
      var h := fnv(key);
      var i := Search(ring, h);
      ghost var at := i;
      if i == |ring| {
        i := 0;
      }
      SearchGivesOwner(fnv, virtualNodes, builtFrom, ring, key, at);
      return Ok(ring[i].node);
    }
  }
}
