/** internal/router/router.go: candidate filtering, exclusion and the hand-over to the strategy. */
module Routing {
  import opened Wrappers
  import opened Nodes
  import opened Ring
  import opened ConsistentHashing

  datatype MessageType = DataRequestType | DataResponseType | OtherType

  /** The oneof body of an envelope, as far as routing looks at it. */
  datatype Body = NoBody | RequestBody(messageId: nat, sessionId: seq<Byte>) | ResponseBody(messageId: nat)

  datatype RoutedEnvelope = RoutedEnvelope(messageType: MessageType, body: Body, transactionId: nat)

  datatype RouteError = ErrContext | ErrNoEligibleNode | ErrUnsupportedMessageType | ErrStrategy(e: SelectError)

  function RequestedMessageID(env: RoutedEnvelope): Result<nat, RouteError> {
    match env.messageType
    case DataRequestType => if env.body.RequestBody? then Ok(env.body.messageId) else Err(ErrUnsupportedMessageType)
    case DataResponseType => if env.body.ResponseBody? then Ok(env.body.messageId) else Err(ErrUnsupportedMessageType)
    case OtherType => Err(ErrUnsupportedMessageType)
  }

  /** session_id sticks a session to a node; otherwise the transaction id is the key. */
  function RoutingKey(env: RoutedEnvelope): seq<Byte> {
    if env.body.RequestBody? && env.body.sessionId != [] then env.body.sessionId
    else if env.transactionId != 0 then Decimal(env.transactionId)
    else []
  }

  /** The message id of a DATA_REQUEST or DATA_RESPONSE that has the body of its kind; nothing else
      can be routed. */
  lemma MessageIDExactly(env: RoutedEnvelope, messageId: nat)
    ensures RequestedMessageID(env) == Ok(messageId)
       <==> || (env.messageType == DataRequestType && exists sid :: env.body == RequestBody(messageId, sid))
            || (env.messageType == DataResponseType && env.body == ResponseBody(messageId))
    ensures RequestedMessageID(env).Err? ==> RequestedMessageID(env).error == ErrUnsupportedMessageType
  {
    if env.body.RequestBody? {
      assert env.body == RequestBody(env.body.messageId, env.body.sessionId);
    }
  }

  /** The key is the session id if there is one, and the transaction id in decimal otherwise. */
  lemma KeyIs(env: RoutedEnvelope)
    ensures forall m, sid :: env.body == RequestBody(m, sid) && sid != [] ==> RoutingKey(env) == sid
    ensures (forall m, sid :: env.body == RequestBody(m, sid) ==> sid == []) && env.transactionId != 0 ==>
              IsDigits(RoutingKey(env)) && ReadDecimal(RoutingKey(env)) == env.transactionId && RoutingKey(env)[0] != 48
  {
    DecimalReads(env.transactionId);
    assert env.body.RequestBody? ==> env.body == RequestBody(env.body.messageId, env.body.sessionId);
  }

  /** Requests of one session share a key whatever their transaction ids; without a session
      the key tells transaction ids apart; it is missing only when neither is set. */
  lemma KeySticksToSession(a: RoutedEnvelope, b: RoutedEnvelope)
    ensures a.body.RequestBody? && a.body.sessionId != [] && b.body.RequestBody? && b.body.sessionId == a.body.sessionId
            ==> RoutingKey(a) == RoutingKey(b)
    ensures !(a.body.RequestBody? && a.body.sessionId != []) && !(b.body.RequestBody? && b.body.sessionId != [])
            ==> (RoutingKey(a) == RoutingKey(b) <==> a.transactionId == b.transactionId)
    ensures RoutingKey(a) == [] <==> !(a.body.RequestBody? && a.body.sessionId != []) && a.transactionId == 0
  {
    DecimalDigits(a.transactionId);
    DecimalDigits(b.transactionId);
    if Decimal(a.transactionId) == Decimal(b.transactionId) {
      DecimalInjective(a.transactionId, b.transactionId);
    }
  }

  predicate Supports(n: Node, messageId: nat) {
    exists i :: 0 <= i < |n.services| && messageId in n.services[i]
  }

  predicate IsEligible(n: Node, messageId: nat) {
    n.state.Active? && n.nodeType.TypeLogic? && Supports(n, messageId)
  }

  function CanServe(messageId: nat): Node -> bool {
    (n: Node) => IsEligible(n, messageId)
  }

  function NotIn(excluded: set<nat>): Node -> bool {
    (n: Node) => n.id !in excluded
  }

  function Filter(nodes: seq<Node>, keep: Node -> bool): seq<Node> {
    if nodes == [] then []
    else Filter(nodes[..|nodes| - 1], keep) + (if keep(nodes[|nodes| - 1]) then [nodes[|nodes| - 1]] else [])
  }

  lemma {:induction false} FilterMembers(nodes: seq<Node>, keep: Node -> bool, n: Node)
    ensures n in Filter(nodes, keep) <==> n in nodes && keep(n)
    decreases |nodes|
  {
    if nodes != [] {
      FilterMembers(nodes[..|nodes| - 1], keep, n);
      assert nodes == nodes[..|nodes| - 1] + [nodes[|nodes| - 1]];
    }
  }

  /** Excluded ids; id 0 excludes nothing. */
  function Excluded(ids: seq<nat>): set<nat> {
    set id | id in ids && id != 0
  }

  ghost function EligibleIDs(nodes: seq<Node>, messageId: nat): set<nat> {
    set n | n in nodes && IsEligible(n, messageId) :: n.id
  }

  // ---- Candidate order ----

  ghost predicate SortedByID(nodes: seq<Node>) {
    forall i, j :: 0 <= i < j < |nodes| ==> nodes[i].id <= nodes[j].id
  }

  ghost predicate DistinctIDs(nodes: seq<Node>) {
    forall i, j :: 0 <= i < j < |nodes| ==> nodes[i].id != nodes[j].id
  }

  function InsertByID(nodes: seq<Node>, n: Node): (r: seq<Node>)
    ensures multiset(r) == multiset(nodes) + multiset{n}
  {
    if nodes == [] then [n]
    else
      var last := nodes[|nodes| - 1];
      assert nodes == nodes[..|nodes| - 1] + [last];
      if n.id < last.id then InsertByID(nodes[..|nodes| - 1], n) + [last] else nodes + [n]
  }

  lemma {:induction false} InsertByIDSorted(nodes: seq<Node>, n: Node)
    requires SortedByID(nodes)
    ensures SortedByID(InsertByID(nodes, n))
    decreases |nodes|
  {
    if nodes != [] {
      var init, last := nodes[..|nodes| - 1], nodes[|nodes| - 1];
      if n.id < last.id {
        InsertByIDSorted(init, n);
        var r := InsertByID(init, n);
        forall i | 0 <= i < |r|
          ensures r[i].id <= last.id
        {
          assert r[i] in multiset(init) + multiset{n};
        }
      }
    }
  }

  lemma LastIsGreatest(a: seq<Node>)
    requires a != [] && SortedByID(a)
    ensures a[|a| - 1].id in IDSet(IDs(a)) && forall id :: id in IDSet(IDs(a)) ==> id <= a[|a| - 1].id
  {
    assert IDs(a)[|a| - 1] in IDs(a);
  }

  lemma InitIDs(a: seq<Node>)
    requires a != [] && DistinctIDs(a)
    ensures IDSet(IDs(a[..|a| - 1])) == IDSet(IDs(a)) - {a[|a| - 1].id}
  {
    var n := |a| - 1;
    assert IDs(a) == IDs(a[..n]) + [a[n].id];
    forall id | id in IDSet(IDs(a[..n]))
      ensures id != a[n].id
    {
      var i :| 0 <= i < n && IDs(a[..n])[i] == id;
      assert a[i].id == id;
    }
  }

  /** The sorted candidates of a set of distinct ids do not depend on the order in which
      the registry listed them, and so neither does their fingerprint. */
  lemma {:induction false} SortedIDsCanonical(a: seq<Node>, b: seq<Node>)
    requires SortedByID(a) && SortedByID(b) && DistinctIDs(a) && DistinctIDs(b)
    requires IDSet(IDs(a)) == IDSet(IDs(b))
    ensures IDs(a) == IDs(b)
    decreases |a|
  {
    if a == [] {
      if b != [] {
        LastIsGreatest(b);
        assert false;
      }
    } else {
      assert IDs(a)[0] in IDSet(IDs(a));
      var n, m := |a| - 1, |b| - 1;
      LastIsGreatest(a);
      LastIsGreatest(b);
      assert a[n].id == b[m].id;
      InitIDs(a);
      InitIDs(b);
      SortedIDsCanonical(a[..n], b[..m]);
      assert IDs(a) == IDs(a[..n]) + [a[n].id] && IDs(b) == IDs(b[..m]) + [b[m].id];
    }
  }

  // ---- The router ----

  lemma {:induction false} KeepAll(nodes: seq<Node>, keep: Node -> bool)
    requires forall n :: n in nodes ==> keep(n)
    ensures Filter(nodes, keep) == nodes
    decreases |nodes|
  {
    if nodes != [] {
      var init, last := nodes[..|nodes| - 1], nodes[|nodes| - 1];
      assert nodes == init + [last];
      KeepAll(init, keep);
      assert Filter(nodes, keep) == init + [last];
    }
  }

  lemma CandidatesAre(nodes: seq<Node>, messageId: nat, excluded: set<nat>, all: seq<Node>, kept: seq<Node>, sorted: seq<Node>)
    requires all == Filter(nodes, CanServe(messageId)) && kept == Filter(all, NotIn(excluded))
    requires multiset(sorted) == multiset(kept)
    ensures forall n :: n in sorted <==> n in nodes && IsEligible(n, messageId) && n.id !in excluded
    ensures IDSet(IDs(sorted)) == EligibleIDs(nodes, messageId) - excluded
    ensures |sorted| == |kept|
  {
    forall n
      ensures n in sorted <==> n in nodes && IsEligible(n, messageId) && n.id !in excluded
    {
      FilterMembers(nodes, CanServe(messageId), n);
      FilterMembers(all, NotIn(excluded), n);
      assert n in sorted <==> n in multiset(sorted);
      assert n in kept <==> n in multiset(kept);
    }
    assert |sorted| == |multiset(sorted)| && |kept| == |multiset(kept)|;
    forall id | id in EligibleIDs(nodes, messageId) - excluded
      ensures id in IDSet(IDs(sorted))
    {
      var n :| n in nodes && IsEligible(n, messageId) && n.id == id;
      assert n in sorted;
      var i :| 0 <= i < |sorted| && sorted[i] == n;
      assert IDs(sorted)[i] == id;
    }
    forall id | id in IDSet(IDs(sorted))
      ensures id in EligibleIDs(nodes, messageId) - excluded
    {
      var i :| 0 <= i < |IDs(sorted)| && IDs(sorted)[i] == id;
      assert sorted[i] in sorted;
    }
  }

  class Router {
    const strategy: ConsistentHash

    constructor (strategy: ConsistentHash)
      ensures this.strategy == strategy
    {
      this.strategy := strategy;
    }

    method SupportsMessage(n: Node, messageId: nat) returns (b: bool)
      ensures b == Supports(n, messageId)
    {
      for i := 0 to |n.services|
        invariant forall k :: 0 <= k < i ==> messageId !in n.services[k]
      {
        for j := 0 to |n.services[i]|
          invariant messageId !in n.services[i][..j]
        {
          if n.services[i][j] == messageId {
            return true;
          }
        }
        assert n.services[i][..|n.services[i]|] == n.services[i];
      }
      return false;
    }

    method Eligible(nodes: seq<Node>, messageId: nat) returns (out: seq<Node>)
      ensures out == Filter(nodes, CanServe(messageId))
    {
      out := [];
      for i := 0 to |nodes|
        invariant out == Filter(nodes[..i], CanServe(messageId))
      {
        assert nodes[..i + 1][..i] == nodes[..i];
        var n := nodes[i];
        if !n.state.Active? {
          continue;
        }
        if !n.nodeType.TypeLogic? {
          continue;
        }
        var ok := SupportsMessage(n, messageId);
        if ok {
          out := out + [n];
        }
      }
      assert nodes[..|nodes|] == nodes;
    }

    /** `filtered := candidates[:0]`: kept candidates are moved to the front of the same array. */
    method CompactExcluded(a: array<Node>, excluded: set<nat>) returns (k: nat)
      modifies a
      ensures k <= a.Length
      ensures a[..k] == Filter(old(a[..]), NotIn(excluded))
    {
      k := 0;
      for i := 0 to a.Length
        invariant k <= i
        invariant a[..k] == Filter(old(a[..])[..i], NotIn(excluded))
        invariant a[i..] == old(a[..])[i..]
      {
        assert old(a[..])[..i + 1][..i] == old(a[..])[..i];
        assert a[i] == a[i..][0];
        var n := a[i];
        if n.id in excluded {
          continue;
        }
        a[k] := n;
        k := k + 1;
      }
      assert old(a[..])[..a.Length] == old(a[..]);
    }

    /** sort.Slice by id. */
    method SortByID(xs: seq<Node>) returns (ys: seq<Node>)
      ensures SortedByID(ys) && multiset(ys) == multiset(xs)
    {
      ys := [];
      for i := 0 to |xs|
        invariant SortedByID(ys) && multiset(ys) == multiset(xs[..i])
      {
        InsertByIDSorted(ys, xs[i]);
        ys := InsertByID(ys, xs[i]);
        assert xs[..i + 1] == xs[..i] + [xs[i]];
      }
      assert xs[..|xs|] == xs;
    }

    /** The part of RouteExcluding between List and Select. */
    method Candidates(nodes: seq<Node>, messageId: nat, excluded: set<nat>) returns (sorted: seq<Node>)
      ensures SortedByID(sorted)
      ensures forall n :: n in sorted <==> n in nodes && IsEligible(n, messageId) && n.id !in excluded
      ensures IDSet(IDs(sorted)) == EligibleIDs(nodes, messageId) - excluded
      ensures sorted == [] <==> EligibleIDs(nodes, messageId) - excluded == {}
    {
      var candidates := Eligible(nodes, messageId);
      ghost var all := candidates;
      if excluded != {} {
        var a := new Node[|candidates|](i requires 0 <= i < |candidates| => candidates[i]);
        assert a[..] == candidates;
        var k := CompactExcluded(a, excluded);
        candidates := a[..k];
      } else {
        KeepAll(all, NotIn(excluded));
      }
      sorted := SortByID(candidates);
      CandidatesAre(nodes, messageId, excluded, all, candidates, sorted);
      if sorted != [] {
        LastIsGreatest(sorted);
      }
    }

    /** RouteExcluding. `sorted` is the candidate list that the strategy is asked with. */
    method RouteExcluding(ctxDone: bool, env: Option<RoutedEnvelope>, nodes: seq<Node>, excludeIDs: seq<nat>)
      returns (r: Result<Node, RouteError>, ghost sorted: seq<Node>)
      requires strategy.Valid()
      modifies strategy
      ensures strategy.Valid()
      ensures ctxDone ==> r == Err(ErrContext)
      ensures !ctxDone && env.None? ==> r == Err(ErrUnsupportedMessageType)
      ensures !ctxDone && env.Some? && RequestedMessageID(env.value).Err? ==> r == Err(ErrUnsupportedMessageType)
      ensures !ctxDone && env.Some? && RequestedMessageID(env.value).Ok? ==>
                var messageId := RequestedMessageID(env.value).value;
                var allowed := EligibleIDs(nodes, messageId) - Excluded(excludeIDs);
                var key := RoutingKey(env.value);
                && SortedByID(sorted)
                && (forall n :: n in sorted <==> n in nodes && IsEligible(n, messageId) && (n.id !in excludeIDs || n.id == 0))
                && IDSet(IDs(sorted)) == allowed
                && (allowed == {} ==> r == Err(ErrNoEligibleNode))
                && (allowed != {} && key == [] ==> r == Err(ErrStrategy(ErrInvalidRoutingKey)))
                && (allowed != {} && key != [] ==>
                      && r.Ok?
                      && strategy.Built() == Some(NextBuilt(strategy.fnv, old(strategy.Built()), sorted))
                      && r.value in strategy.Built().value
                      && IDSet(IDs(strategy.Built().value)) != {}
                      && r.value.id == OwnerOf(strategy.fnv, strategy.virtualNodes, IDSet(IDs(strategy.Built().value)), key)
                      && (IDs(strategy.Built().value) == IDs(sorted) ==>
                            && r.value.id == OwnerOf(strategy.fnv, strategy.virtualNodes, allowed, key)
                            && r.value.id in allowed))
    {
      sorted := [];
      if ctxDone {
        return Err(ErrContext), sorted;
      }
      if env.None? {
        return Err(ErrUnsupportedMessageType), sorted;
      }
      var wanted := RequestedMessageID(env.value);
      if wanted.Err? {
        return Err(wanted.error), sorted;
      }
      var chosen := Candidates(nodes, wanted.value, Excluded(excludeIDs));
      sorted := chosen;
      if |chosen| == 0 {
        return Err(ErrNoEligibleNode), sorted;
      }
      var key := RoutingKey(env.value);
      var picked := strategy.Select(chosen, key);
      if picked.Err? {
        return Err(ErrStrategy(picked.error)), sorted;
      }
      if IDs(strategy.Built().value) == IDs(sorted) {
        OwnerIsCandidate(strategy.fnv, strategy.virtualNodes, IDSet(IDs(sorted)), key);
      }
      return Ok(picked.value), sorted;
    }
  }

  /** A node that was picked and is now excluded is picked again if and only if the candidates
      left have the fingerprint of the candidates it was picked from and the ring in use gives it
      the new key too. */
  lemma ExcludedAgainExactly(fnv: HashFunction, virtualNodes: nat, before: Option<seq<Node>>,
                             first: seq<Node>, second: seq<Node>, key: seq<Byte>, key2: seq<Byte>)
    requires virtualNodes > 0
    requires var ring := NextBuilt(fnv, before, first);
             && IDSet(IDs(ring)) != {} && IDSet(IDs(second)) != {}
             && OwnerOf(fnv, virtualNodes, IDSet(IDs(ring)), key) !in IDSet(IDs(second))
    ensures var ring := NextBuilt(fnv, before, first);
            var ring2 := NextBuilt(fnv, Some(ring), second);
            && IDSet(IDs(ring2)) != {}
            && (OwnerOf(fnv, virtualNodes, IDSet(IDs(ring2)), key2) == OwnerOf(fnv, virtualNodes, IDSet(IDs(ring)), key)
                <==> && Fingerprint(fnv, IDs(first)) == Fingerprint(fnv, IDs(second))
                     && OwnerOf(fnv, virtualNodes, IDSet(IDs(ring)), key2) == OwnerOf(fnv, virtualNodes, IDSet(IDs(ring)), key))
  {
    OwnerIsCandidate(fnv, virtualNodes, IDSet(IDs(second)), key2);
  }

  /** And it can be: of two nodes one is picked, excluded, and picked again although the other is left. */
  lemma ExcludedNodePickedAgain(a: Node, b: Node, key: seq<Byte>) returns (x: Node, y: Node)
    requires a.id < b.id && key != []
    ensures {x, y} == {a, b} && x.id !in IDSet(IDs([y]))
    ensures var calls := [Call([a, b], key), Call([y], key)];
            CachedOwner(bytes => 0, DEFAULT_VIRTUAL_NODES, calls, 0) == CachedOwner(bytes => 0, DEFAULT_VIRTUAL_NODES, calls, 1) == x.id
  {
    var fnv: HashFunction := bytes => 0;
    assert IDs([a, b])[0] in IDSet(IDs([a, b]));
    OwnerIsCandidate(fnv, DEFAULT_VIRTUAL_NODES, IDSet(IDs([a, b])), key);
    x := if OwnerOf(fnv, DEFAULT_VIRTUAL_NODES, IDSet(IDs([a, b])), key) == a.id then a else b;
    y := if x == a then b else a;
    var calls := [Call([a, b], key), Call([y], key)];
    BuiltStep(fnv, calls, 1);
    assert calls[..1] == [calls[0]] && calls[..1][..0] == [];
    assert BuiltAfter(fnv, calls[..1]) == Some([a, b]);
    BuiltNotEmpty(fnv, calls[..2]);
  }

  /** Routing with exclusions picks the owner of the first virtual node clockwise from the
      key, on the ring of all eligible nodes, whose owner is not excluded. */
  lemma RoutingSkipsExcluded(fnv: HashFunction, virtualNodes: nat, nodes: seq<Node>, messageId: nat, excludeIDs: seq<nat>,
                             key: seq<Byte>, ring: seq<VNode>, i: nat, eligible: seq<Node>)
    requires virtualNodes > 0 && EligibleIDs(nodes, messageId) - Excluded(excludeIDs) != {}
    requires IDSet(IDs(eligible)) == EligibleIDs(nodes, messageId) && IsRingOf(fnv, virtualNodes, eligible, ring)
    requires IsSearchResult(Points(ring), fnv(key), i)
    ensures ring != []
    ensures var s := Wrapped(Points(ring), i);
            var k := FirstAllowed(Points(ring), s, 0, Excluded(excludeIDs));
            && k < |ring|
            && Walk(Points(ring), s, k).id
               == OwnerOf(fnv, virtualNodes, EligibleIDs(nodes, messageId) - Excluded(excludeIDs), key)
  {
    FilterEqualsSkip(fnv, virtualNodes, EligibleIDs(nodes, messageId), Excluded(excludeIDs), key, Points(ring), i);
  }
}
