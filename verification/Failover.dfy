/** route of internal/transaction/service.go: what the router and the registry give a Request. */
module Failover {
  import opened Wrappers
  import opened Nodes
  import opened Ring
  import opened Heartbeats
  import opened ConsistentHashing
  import opened Registry
  import opened Routing
  import opened Freshness
  import opened Gateway
  import Lifecycle

  /** What a routed node must be, when the ring in use has the candidates' ids: a registered one
      that serves the message, is not excluded, may be taken by any Request that excludes the
      same ids, and was heard from lately. */
  ghost predicate GoodChoice(nodes: map<nat, Node>, messageId: nat, exclude: seq<nat>, id: nat,
                             cfg: Config, es: seq<Lifecycle.Event>, now: int) {
    && id in nodes && IsEligible(nodes[id], messageId) && id !in exclude
    && (forall s: Sys, t :: InStage(s, t, Routing) && s.reqs[t].exclude == exclude ==> EventEnabled(s, Routed(t, id)))
    && now - nodes[id].lastHeartbeatAt < cfg.suspectTimeout + cfg.interval
    && exists i :: Lifecycle.AcceptedAt(cfg, es, id, i, nodes[id].lastHeartbeatAt)
  }

  lemma AllowedIsGoodChoice(nodes: map<nat, Node>, list: seq<Node>, messageId: nat, exclude: seq<nat>, id: nat,
                            cfg: Config, es: seq<Lifecycle.Event>, now: int)
    requires KeyedByID(nodes) && IsListing(list, nodes) && nodes == Lifecycle.Run(cfg, es)
    requires cfg.Valid() && Lifecycle.Ordered(es) && Lifecycle.RecentlyChecked(cfg, es, now)
    requires id in EligibleIDs(list, messageId) - Excluded(exclude)
    ensures GoodChoice(nodes, messageId, exclude, id, cfg, es, now)
  {
    RoutedNodeIsFresh(cfg, es, list, now, messageId, Excluded(exclude), id);
    var n :| n in list && IsEligible(n, messageId) && n.id == id;
    assert n in nodes.Values;
    assert id != 0 && nodes[id] == n;
  }

  lemma AllowedExists(nodes: map<nat, Node>, list: seq<Node>, messageId: nat, exclude: seq<nat>, id: nat)
    requires KeyedByID(nodes) && IsListing(list, nodes)
    requires id in nodes && IsEligible(nodes[id], messageId) && id !in exclude
    ensures id in EligibleIDs(list, messageId) - Excluded(exclude)
  {
    assert nodes[id] in nodes.Values;
    assert nodes[id] in list;
  }

  lemma NodeLeftExactly(nodes: map<nat, Node>, list: seq<Node>, messageId: nat, exclude: seq<nat>)
    requires KeyedByID(nodes) && IsListing(list, nodes)
    ensures EligibleIDs(list, messageId) - Excluded(exclude) != {}
       <==> exists id :: id in nodes && id !in exclude && IsEligible(nodes[id], messageId)
  {
    var allowed := EligibleIDs(list, messageId) - Excluded(exclude);
    if allowed != {} {
      var id :| id in allowed;
      var n :| n in list && IsEligible(n, messageId) && n.id == id;
      assert n in nodes.Values;
      assert nodes[id] == n && id !in exclude;
    }
    if id :| id in nodes && id !in exclude && IsEligible(nodes[id], messageId) {
      AllowedExists(nodes, list, messageId, exclude, id);
    }
  }

  /** A Request that has a key finds a node whenever one is left; and the node is a good choice
      while the ring in use has the candidates' ids. The event history stands for how the registry came about; `sorted` lists the candidates. */
  method Route(router: Router, registry: Memory, ctxDone: bool, env: RoutedEnvelope, exclude: seq<nat>,
               ghost cfg: Config, ghost es: seq<Lifecycle.Event>, ghost now: int)
    returns (r: Result<Node, RouteError>, ghost sorted: seq<Node>)
    requires KeyedByID(registry.nodes) && registry.nodes == Lifecycle.Run(cfg, es)
    requires cfg.Valid() && Lifecycle.Ordered(es) && Lifecycle.RecentlyChecked(cfg, es, now)
    requires router.strategy.Valid()
    modifies router.strategy
    ensures router.strategy.Valid()
    ensures r.Ok? ==>
              && router.strategy.Built() == Some(NextBuilt(router.strategy.fnv, old(router.strategy.Built()), sorted))
              && RequestedMessageID(env).Ok?
              && (IDs(router.strategy.Built().value) == IDs(sorted) ==>
                    GoodChoice(registry.nodes, RequestedMessageID(env).value, exclude, r.value.id, cfg, es, now))
    ensures !ctxDone && RequestedMessageID(env).Ok? && RoutingKey(env) != [] ==>
              (r.Ok? <==> exists id :: id in registry.nodes && id !in exclude
                                       && IsEligible(registry.nodes[id], RequestedMessageID(env).value))
  {
    var list := registry.List();
    if RequestedMessageID(env).Ok? {
      NodeLeftExactly(registry.nodes, list, RequestedMessageID(env).value, exclude);
    }
    r, sorted := router.RouteExcluding(ctxDone, Some(env), list, exclude);
    if r.Ok? && IDs(router.strategy.Built().value) == IDs(sorted) {
      AllowedIsGoodChoice(registry.nodes, list, RequestedMessageID(env).value, exclude, r.value.id, cfg, es, now);
    }
  }

  /** The sorted list of the nodes that serve the request and are not excluded. */
  ghost predicate ListsAllowed(sorted: seq<Node>, env: RoutedEnvelope, nodes: seq<Node>, excluded: set<nat>) {
    && RequestedMessageID(env).Ok? && SortedByID(sorted)
    && IDSet(IDs(sorted)) == EligibleIDs(nodes, RequestedMessageID(env).value) - excluded
  }

  /** The node comes from the ring in use, which is the candidates' own unless fingerprints collided. */
  method RouteOnce(router: Router, env: RoutedEnvelope, nodes: seq<Node>, exclude: seq<nat>)
    returns (r: Result<Node, RouteError>, ghost sorted: seq<Node>)
    requires router.strategy.Valid()
    modifies router.strategy
    ensures router.strategy.Valid()
    ensures r.Ok? ==>
              && ListsAllowed(sorted, env, nodes, Excluded(exclude)) && IDSet(IDs(sorted)) != {}
              && router.strategy.Built() == Some(NextBuilt(router.strategy.fnv, old(router.strategy.Built()), sorted))
              && var ids := IDSet(IDs(router.strategy.Built().value));
                 ids != {} && r.value.id == OwnerOf(router.strategy.fnv, router.strategy.virtualNodes, ids, RoutingKey(env))
  {
    r, sorted := router.RouteExcluding(false, Some(env), nodes, exclude);
  }

  /** The two routings of one Request, the second after a failed Send and under a new id. The
      registry may list other nodes by then. */
  method RouteTwice(router: Router, env: RoutedEnvelope, newID: nat, nodes: seq<Node>, nodesLater: seq<Node>)
    returns (first: Result<Node, RouteError>, second: Result<Node, RouteError>,
             ghost sorted: seq<Node>, ghost sortedLater: seq<Node>)
    requires router.strategy.Valid()
    modifies router.strategy
    ensures first.Ok? && second.Ok? && first.value.id != 0 ==>
              && ListsAllowed(sorted, env, nodes, {}) && ListsAllowed(sortedLater, env, nodesLater, {first.value.id})
              && var collide := Fingerprint(router.strategy.fnv, IDs(sorted)) == Fingerprint(router.strategy.fnv, IDs(sortedLater));
                 && (!collide ==> second.value.id in IDSet(IDs(sortedLater)) && second.value.id != first.value.id)
                 && (collide && RoutingKey(env) == RoutingKey(env.(transactionId := newID)) ==> second.value.id == first.value.id)
  {
    sortedLater := [];
    ghost var before := router.strategy.Built();
    ghost var later := env.(transactionId := newID);
    first, sorted := RouteOnce(router, env, nodes, []);
    second := first;
    if first.Ok? {
      assert Excluded([]) == {} && (first.value.id != 0 ==> Excluded([first.value.id]) == {first.value.id});
      second, sortedLater := RouteOnce(router, env.(transactionId := newID), nodesLater, [first.value.id]);
      if second.Ok? && first.value.id != 0 {
        assert RequestedMessageID(later) == RequestedMessageID(env);
        ExcludedAgainExactly(router.strategy.fnv, router.strategy.virtualNodes, before, sorted, sortedLater, RoutingKey(env), RoutingKey(later));
        OwnerIsCandidate(router.strategy.fnv, router.strategy.virtualNodes, IDSet(IDs(sortedLater)), RoutingKey(later));
      }
    }
  }
}
