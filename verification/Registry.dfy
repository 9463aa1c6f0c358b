/** internal/registry/registry.go: the node map. Each method runs under the registry's lock. */
module Registry {
  import opened Wrappers
  import opened Nodes

  datatype RegistryError<+E> = ErrInvalidNode | ErrNotFound | ErrTransition(e: E)

  type Timeout = (NodeState, int, int) -> (NodeState, bool)

  /** The map's keys are the ids of the nodes they lead to. */
  ghost predicate KeyedByID(nodes: map<nat, Node>) {
    forall id :: id in nodes ==> nodes[id].id == id && id != 0
  }

  /** What a node says of itself when it registers. */
  predicate SameDescription(a: Node, b: Node) {
    a.id == b.id && a.nodeType == b.nodeType && a.address == b.address && a.udpPort == b.udpPort && a.services == b.services
  }

  function Stored(n: Node, now: int): Node {
    n.(state := Registered, lastHeartbeatAt := now)
  }

  /** One node of a timeout sweep. */
  function TimedOut(n: Node, now: int, skip: Node -> bool, transition: Timeout): Node {
    var (next, changed) := transition(n.state, n.lastHeartbeatAt, now);
    if skip(n) || !changed || next == n.state then n else n.(state := next)
  }

  function Swept(nodes: map<nat, Node>, now: int, skip: Node -> bool, transition: Timeout): map<nat, Node> {
    map id | id in nodes :: TimedOut(nodes[id], now, skip, transition)
  }

  /** ApplyTimeouts leaves the gateway's own entry alone. */
  function SkipGateway(): Node -> bool {
    (n: Node) => n.nodeType.TypeHTTP2GW?
  }

  class Memory {
    var nodes: map<nat, Node>

    constructor ()
      ensures nodes == map[]
    {
      nodes := map[];
    }

    method Register(node: Option<Node>, now: int) returns (err: Option<RegistryError<()>>)
      requires KeyedByID(nodes)
      modifies this
      ensures KeyedByID(nodes)
      ensures node.None? || node.value.id == 0 ==> err == Some(ErrInvalidNode) && nodes == old(nodes)
      ensures node.Some? && node.value.id != 0 ==>
                err == None && nodes == old(nodes)[node.value.id := Stored(node.value, now)]
      ensures err == None ==>
                && node.Some? && node.value.id in nodes
                && nodes[node.value.id].state == Registered && nodes[node.value.id].lastHeartbeatAt == now
                && SameDescription(nodes[node.value.id], node.value)
                && nodes[node.value.id].load == node.value.load
                && nodes[node.value.id].activeTransaction == node.value.activeTransaction
    {
      if node.None? || node.value.id == 0 {
        return Some(ErrInvalidNode);
      }
      var stored := Stored(node.value, now);
      nodes := nodes[stored.id := stored];
      return None;
    }

    method Get(id: nat) returns (r: Option<Node>)
      ensures r == if id in nodes then Some(nodes[id]) else None
    {
      if id !in nodes {
        return None;
      }
      return Some(nodes[id]);
    }

    method Remove(id: nat) returns (err: Option<RegistryError<()>>)
      requires KeyedByID(nodes)
      modifies this
      ensures KeyedByID(nodes)
      ensures err == if id in old(nodes) then None else Some(ErrNotFound)
      ensures nodes == old(nodes) - {id}
    {
      if id !in nodes {
        return Some(ErrNotFound);
      }
      nodes := nodes - {id};
      return None;
    }

    /** List returns every node once, in any order. */
    method List() returns (out: seq<Node>)
      requires KeyedByID(nodes)
      ensures forall n :: n in out <==> n in nodes.Values
      ensures forall i, j :: 0 <= i < j < |out| ==> out[i].id != out[j].id
    {
      out := [];
      var rest := nodes.Keys;
      while rest != {}
        invariant rest <= nodes.Keys
        invariant forall n :: n in out <==> exists id :: id in nodes && id !in rest && nodes[id] == n
        invariant forall i :: 0 <= i < |out| ==> out[i].id in nodes && out[i].id !in rest
        invariant forall i, j :: 0 <= i < j < |out| ==> out[i].id != out[j].id
      {
        var id :| id in rest;
        out := out + [nodes[id]];
        rest := rest - {id};
      }
    }

    /** A rejected transition leaves state and time untouched and still returns the node. */
    method ApplyHeartbeat<E>(id: nat, at: int, transition: NodeState -> Result<NodeState, E>)
      returns (node: Option<Node>, err: Option<RegistryError<E>>)
      requires KeyedByID(nodes)
      modifies this
      ensures KeyedByID(nodes)
      ensures id == 0 ==> err == Some(ErrInvalidNode)
      ensures id != 0 && id !in old(nodes) ==> err == Some(ErrNotFound)
      ensures id in old(nodes) ==>
                match transition(old(nodes)[id].state)
                case Ok(next) => err == None
                                 && nodes == old(nodes)[id := old(nodes)[id].(state := next, lastHeartbeatAt := at)]
                case Err(e) => err == Some(ErrTransition(e))
      ensures err.Some? ==> nodes == old(nodes)
      ensures node == if id in nodes then Some(nodes[id]) else None
    {
      if id == 0 {
        return None, Some(ErrInvalidNode);
      }
      if id !in nodes {
        return None, Some(ErrNotFound);
      }
      var n := nodes[id];
      var next := transition(n.state);
      if next.Err? {
        return Some(n), Some(ErrTransition(next.error));
      }
      nodes := nodes[id := n.(state := next.value, lastHeartbeatAt := at)];
      return Some(nodes[id]), None;
    }

    /** The sweep; `changed` holds exactly the nodes whose state it changed, as they are now, each once. */
    method ApplyTimeoutsExcept(now: int, skip: Node -> bool, transition: Timeout) returns (changed: seq<Node>)
      requires KeyedByID(nodes)
      modifies this
      ensures KeyedByID(nodes)
      ensures nodes == Swept(old(nodes), now, skip, transition)
      ensures forall n :: n in changed <==> exists id :: id in nodes && nodes[id] == n && nodes[id].state != old(nodes)[id].state
      ensures forall i, j :: 0 <= i < j < |changed| ==> changed[i].id != changed[j].id
    {
      changed := [];
      ghost var before := nodes;
      var rest := nodes.Keys;
      while rest != {}
        invariant rest <= before.Keys && nodes.Keys == before.Keys
        invariant forall id :: id in before ==>
                    nodes[id] == if id in rest then before[id] else TimedOut(before[id], now, skip, transition)
        invariant forall n :: n in changed <==>
                    exists id :: id in before && id !in rest && nodes[id] == n && nodes[id].state != before[id].state
        invariant forall i :: 0 <= i < |changed| ==> changed[i].id in before && changed[i].id !in rest
        invariant forall i, j :: 0 <= i < j < |changed| ==> changed[i].id != changed[j].id
      {
        var id :| id in rest;
        ghost var was, soFar, left := nodes, changed, rest;
        rest := rest - {id};
        var n := nodes[id];
        if !skip(n) {
          var (next, ok) := transition(n.state, n.lastHeartbeatAt, now);
          if ok && next != n.state {
            nodes := nodes[id := n.(state := next)];
            changed := changed + [nodes[id]];
          }
        }
        assert forall i :: i in before && i != id ==> nodes[i] == was[i];
      }
    }

    method SetRuntime(id: nat, load: nat, active: nat) returns (err: Option<RegistryError<()>>)
      requires KeyedByID(nodes)
      modifies this
      ensures KeyedByID(nodes)
      ensures id == 0 ==> err == Some(ErrInvalidNode)
      ensures id != 0 && id !in old(nodes) ==> err == Some(ErrNotFound)
      ensures err.Some? ==> nodes == old(nodes)
      ensures id in old(nodes) ==>
                err == None && nodes == old(nodes)[id := old(nodes)[id].(load := load, activeTransaction := active)]
    {
      if id == 0 {
        return Some(ErrInvalidNode);
      }
      if id !in nodes {
        return Some(ErrNotFound);
      }
      nodes := nodes[id := nodes[id].(load := load, activeTransaction := active)];
      return None;
    }
  }
}
