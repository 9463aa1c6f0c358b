/** Routing meets node lifecycle: what a routed node's heartbeats must have been. */
module Freshness {
  import opened Nodes
  import opened Heartbeats
  import opened Routing
  import Lifecycle

  /** List returned the nodes of this map. */
  ghost predicate IsListing(list: seq<Node>, nodes: map<nat, Node>) {
    forall n :: n in list <==> n in nodes.Values
  }

  /** Every id the router may pick belongs to a Logic node whose last accepted heartbeat is
      less than SuspectTimeout + Interval old. */
  lemma RoutedNodeIsFresh(cfg: Config, es: seq<Lifecycle.Event>, list: seq<Node>, now: int,
                          messageId: nat, excluded: set<nat>, picked: nat)
    requires cfg.Valid() && Lifecycle.Ordered(es) && Lifecycle.RecentlyChecked(cfg, es, now)
    requires IsListing(list, Lifecycle.Run(cfg, es))
    requires picked in EligibleIDs(list, messageId) - excluded
    ensures picked in Lifecycle.Run(cfg, es)
    ensures now - Lifecycle.Run(cfg, es)[picked].lastHeartbeatAt < cfg.suspectTimeout + cfg.interval
    ensures exists i :: Lifecycle.AcceptedAt(cfg, es, picked, i, Lifecycle.Run(cfg, es)[picked].lastHeartbeatAt)
  {
    var nodes := Lifecycle.Run(cfg, es);
    var n :| n in list && IsEligible(n, messageId) && n.id == picked;
    var id :| id in nodes && nodes[id] == n;
    Lifecycle.StateIsClassification(cfg, es, id);
    Lifecycle.ActiveMeansRecentHeartbeat(cfg, es, id, now);
  }

  /** A Logic node that went silent long enough is no candidate. */
  lemma SilentNodeIsNotRouted(cfg: Config, es: seq<Lifecycle.Event>, list: seq<Node>, now: int, messageId: nat, id: nat)
    requires cfg.Valid() && Lifecycle.Ordered(es) && Lifecycle.RecentlyChecked(cfg, es, now)
    requires IsListing(list, Lifecycle.Run(cfg, es))
    requires id in Lifecycle.Run(cfg, es)
    requires now - Lifecycle.Run(cfg, es)[id].lastHeartbeatAt >= cfg.suspectTimeout + cfg.interval
    ensures id !in EligibleIDs(list, messageId)
  {
    if id in EligibleIDs(list, messageId) {
      RoutedNodeIsFresh(cfg, es, list, now, messageId, {}, id);
    }
  }

  /** A node is a candidate for a message if and only if it is ACTIVE, and it registered last as a
      Logic node that lists the message. */
  lemma CandidateExactly(cfg: Config, es: seq<Lifecycle.Event>, list: seq<Node>, messageId: nat, id: nat, r: nat)
    requires IsListing(list, Lifecycle.Run(cfg, es)) && Lifecycle.RegisteredAt(es, id, r)
    requires cfg.Valid() && Lifecycle.Ordered(es)
    ensures id in Lifecycle.Run(cfg, es)
    ensures id in EligibleIDs(list, messageId)
       <==> && Lifecycle.Run(cfg, es)[id].state.Active?
            && es[r].node.nodeType.TypeLogic?
            && exists i :: 0 <= i < |es[r].node.services| && messageId in es[r].node.services[i]
  {
    var nodes := Lifecycle.Run(cfg, es);
    Lifecycle.DescriptionIsKept(cfg, es, id, r);
    assert nodes[id] in nodes.Values;
    if id in EligibleIDs(list, messageId) {
      var n :| n in list && IsEligible(n, messageId) && n.id == id;
      var k :| k in nodes && nodes[k] == n;
      Lifecycle.StateIsClassification(cfg, es, k);
    }
  }

  /** Registration and one heartbeat make a Logic node a candidate for exactly the messages it listed. */
  lemma RegisteredNodeIsCandidate(cfg: Config, es: seq<Lifecycle.Event>, n: Node, a: int, b: int, load: nat, active: nat,
                                  list: seq<Node>, messageId: nat)
    requires cfg.Valid() && n.id != 0 && n.nodeType.TypeLogic?
    requires var all := es + [Lifecycle.Register(n, a), Lifecycle.Heartbeat(n.id, b, load, active)];
             Lifecycle.Ordered(all) && IsListing(list, Lifecycle.Run(cfg, all))
    ensures n.id in EligibleIDs(list, messageId) <==> exists i :: 0 <= i < |n.services| && messageId in n.services[i]
  {
    var beat := Lifecycle.Heartbeat(n.id, b, load, active);
    var first := es + [Lifecycle.Register(n, a)];
    var all := es + [Lifecycle.Register(n, a), beat];
    assert all == first + [beat] && all[..|all| - 1] == first && first[..|es|] == es;
    assert Lifecycle.Run(cfg, first)[n.id].state.Registered?;
    assert Lifecycle.RegisteredAt(all, n.id, |es|);
    CandidateExactly(cfg, all, list, messageId, n.id, |es|);
  }
}
