/** The life of a node as a function of event times, and the methods that realise it:
    internal/heartbeat/service.go and monitor.go over internal/registry/registry.go. One
    clock that never runs backwards stamps every event; each handler is atomic. */
module Lifecycle {
  import opened Wrappers
  import opened Nodes
  import opened Heartbeats
  import opened Registry

  datatype Event =
    | Register(node: Node, at: int)
    | Remove(id: nat, at: int)
    | Heartbeat(id: nat, at: int, load: nat, active: nat)
    | Check(at: int)

  function Beaten(nodes: map<nat, Node>, id: nat, at: int, load: nat, active: nat): map<nat, Node> {
    if id !in nodes then nodes
    else
      match NextOnHeartbeat(nodes[id].state)
      case Ok(next) => nodes[id := nodes[id].(state := next, lastHeartbeatAt := at, load := load, activeTransaction := active)]
      case Err(_) => nodes
  }

  function Checked(cfg: Config, nodes: map<nat, Node>, at: int): map<nat, Node> {
    Swept(nodes, at, SkipGateway(), CheckTransition(cfg))
  }

  function StepNodes(cfg: Config, nodes: map<nat, Node>, e: Event): map<nat, Node> {
    match e
    case Register(n, at) => if n.id == 0 then nodes else nodes[n.id := Stored(n, at)]
    case Remove(id, _) => nodes - {id}
    case Heartbeat(id, at, load, active) => Beaten(nodes, id, at, load, active)
    case Check(at) => Checked(cfg, nodes, at)
  }

  function Run(cfg: Config, es: seq<Event>): map<nat, Node> {
    if es == [] then map[] else StepNodes(cfg, Run(cfg, es[..|es| - 1]), es[|es| - 1])
  }

  /** The clock never runs backwards. */
  ghost predicate Ordered(es: seq<Event>) {
    forall i, j :: 0 <= i < j < |es| ==> es[i].at <= es[j].at
  }

  // ---- Classification ----

  /** All that matters about a node: registered or heartbeated last, when, and the latest
      Check since then. */
  datatype Track = Track(base: NodeState, since: int, isGateway: bool, check: Option<int>)

  function Classify(cfg: Config, t: Track): NodeState {
    if t.check.None? then t.base
    else if t.check.value - t.since >= cfg.deadTimeout then Dead
    else if t.check.value - t.since >= cfg.suspectTimeout then Suspect
    else t.base
  }

  function NextTrack(cfg: Config, t: Option<Track>, id: nat, e: Event): Option<Track> {
    match e
    case Register(n, at) =>
      if n.id == id && id != 0 then Some(Track(Registered, at, n.nodeType.TypeHTTP2GW?, None)) else t
    case Remove(i, _) => if i == id then None else t
    case Heartbeat(i, at, _, _) =>
      if i == id && t.Some? && !Classify(cfg, t.value).Dead? then Some(t.value.(base := Active, since := at, check := None)) else t
    case Check(at) =>
      if t.Some? && !t.value.isGateway then Some(t.value.(check := Some(at))) else t
  }

  function TrackOf(cfg: Config, es: seq<Event>, id: nat): Option<Track> {
    if es == [] then None else NextTrack(cfg, TrackOf(cfg, es[..|es| - 1], id), id, es[|es| - 1])
  }

  /** The stored entry says what the track says. */
  predicate Agrees(cfg: Config, nodes: map<nat, Node>, t: Option<Track>, id: nat) {
    if t.None? then id !in nodes
    else
      && id in nodes
      && nodes[id].id == id
      && nodes[id].state == Classify(cfg, t.value)
      && nodes[id].lastHeartbeatAt == t.value.since
      && nodes[id].nodeType.TypeHTTP2GW? == t.value.isGateway
  }

  predicate TrackOk(t: Track, now: int) {
    && (t.base.Registered? || t.base.Active?)
    && t.since <= now
    && (t.check.Some? ==> t.since <= t.check.value <= now && !t.isGateway)
  }

  /** What a Check does to one node. */
  lemma CheckOne(cfg: Config, n: Node, at: int)
    ensures var elapsed := if at - n.lastHeartbeatAt < 0 then 0 else at - n.lastHeartbeatAt;
            TimedOut(n, at, SkipGateway(), CheckTransition(cfg)) ==
            if n.nodeType.TypeHTTP2GW? then n
            else n.(state := NextOnTimeout(n.state, elapsed, cfg.suspectTimeout, cfg.deadTimeout).0)
  {
  }

  lemma AgreesStep(cfg: Config, nodes: map<nat, Node>, t: Option<Track>, id: nat, e: Event)
    requires cfg.Valid() && Agrees(cfg, nodes, t, id) && (t.Some? ==> TrackOk(t.value, e.at))
    ensures Agrees(cfg, StepNodes(cfg, nodes, e), NextTrack(cfg, t, id, e), id)
    ensures NextTrack(cfg, t, id, e).Some? ==> TrackOk(NextTrack(cfg, t, id, e).value, e.at)
  {
    match e
    case Register(n, at) =>
    case Remove(i, _) =>
    case Heartbeat(i, at, load, active) => assert Agrees(cfg, StepNodes(cfg, nodes, e), NextTrack(cfg, t, id, e), id);
    case Check(at) =>
      if id in nodes {
        CheckOne(cfg, nodes[id], at);
      }
  }

  lemma OrderedInit(es: seq<Event>)
    requires Ordered(es) && es != []
    ensures Ordered(es[..|es| - 1])
    ensures |es| > 1 ==> es[|es| - 2].at <= es[|es| - 1].at
  {
  }

  /** After any run on an ordered clock, every node's stored state is the classification of
      its track. */
  lemma {:induction false} StateIsClassification(cfg: Config, es: seq<Event>, id: nat)
    requires cfg.Valid() && Ordered(es)
    ensures Agrees(cfg, Run(cfg, es), TrackOf(cfg, es, id), id)
    ensures TrackOf(cfg, es, id).Some? ==> es != [] && TrackOk(TrackOf(cfg, es, id).value, es[|es| - 1].at)
    decreases |es|
  {
    if es != [] {
      var init, e := es[..|es| - 1], es[|es| - 1];
      OrderedInit(es);
      StateIsClassification(cfg, init, id);
      AgreesStep(cfg, Run(cfg, init), TrackOf(cfg, init, id), id, e);
    }
  }

  // ---- When a node is DEAD ----

  /** The event gives the node a new lease, if it is accepted. */
  predicate Touches(e: Event, id: nat) {
    (e.Register? && e.node.id == id) || (e.Heartbeat? && e.id == id)
  }

  /** Event r is the node's last registration and it has not been removed since. */
  ghost predicate RegisteredAt(es: seq<Event>, id: nat, r: nat) {
    && r < |es| && id != 0
    && es[r].Register? && es[r].node.id == id
    && forall j :: r < j < |es| ==> !(es[j].Register? && es[j].node.id == id) && !(es[j].Remove? && es[j].id == id)
  }

  /** Check k comes at least DeadTimeout after every registration and heartbeat, accepted or
      not, that arrived from r on. */
  ghost predicate FindsSilent(cfg: Config, es: seq<Event>, id: nat, r: nat, k: nat) {
    && r < k < |es| && es[k].Check?
    && forall j :: r <= j < k && Touches(es[j], id) ==> es[k].at - es[j].at >= cfg.deadTimeout
  }

  lemma {:induction false} RegistrationGivesTrack(cfg: Config, es: seq<Event>, id: nat, r: nat)
    requires cfg.Valid() && Ordered(es) && RegisteredAt(es, id, r)
    ensures TrackOf(cfg, es, id).Some?
    ensures TrackOf(cfg, es, id).value.isGateway == es[r].node.nodeType.TypeHTTP2GW?
    decreases |es|
  {
    if r < |es| - 1 {
      var init := es[..|es| - 1];
      OrderedInit(es);
      assert RegisteredAt(init, id, r);
      RegistrationGivesTrack(cfg, init, id, r);
    }
  }

  /** Whatever happens after its registration, a node stays known with the type, address, port and
      services it registered with. */
  lemma {:induction false} DescriptionIsKept(cfg: Config, es: seq<Event>, id: nat, r: nat)
    requires RegisteredAt(es, id, r)
    ensures id in Run(cfg, es) && SameDescription(Run(cfg, es)[id], es[r].node)
    decreases |es|
  {
    if r < |es| - 1 {
      var init := es[..|es| - 1];
      assert RegisteredAt(init, id, r);
      DescriptionIsKept(cfg, init, id, r);
    }
  }

  /** While the node lives, every heartbeat since its registration was accepted: its lease
      starts at the latest of them. */
  ghost predicate LeaseIsLatest(es: seq<Event>, id: nat, r: nat, since: int) {
    && (forall j :: r <= j < |es| && Touches(es[j], id) ==> es[j].at <= since)
    && exists j :: r <= j < |es| && Touches(es[j], id) && es[j].at == since
  }

  /** Without a registration or removal, a dead track stays dead. */
  lemma DeadIsKept(cfg: Config, t: Track, id: nat, e: Event)
    requires cfg.Valid() && TrackOk(t, e.at)
    requires !(e.Register? && e.node.id == id) && !(e.Remove? && e.id == id)
    ensures NextTrack(cfg, Some(t), id, e).Some?
    ensures Classify(cfg, t).Dead? ==> Classify(cfg, NextTrack(cfg, Some(t), id, e).value).Dead?
  {
  }

  lemma LeaseGoesOn(es: seq<Event>, id: nat, r: nat, was: int, since: int)
    requires Ordered(es) && r < |es| - 1 && LeaseIsLatest(es[..|es| - 1], id, r, was)
    requires since == if Touches(es[|es| - 1], id) then es[|es| - 1].at else was
    ensures LeaseIsLatest(es, id, r, since)
  {
    var n := |es| - 1;
    var init := es[..n];
    var j :| r <= j < |init| && Touches(init[j], id) && init[j].at == was;
    assert es[j] == init[j] && es[j].at <= es[n].at;
    forall i | r <= i < |es| && Touches(es[i], id)
      ensures es[i].at <= since
    {
      if i < n {
        assert init[i] == es[i];
      }
    }
    if Touches(es[n], id) {
      assert es[n].at == since;
    }
  }

  lemma {:induction false} AliveMeansLatest(cfg: Config, es: seq<Event>, id: nat, r: nat)
    requires cfg.Valid() && Ordered(es) && RegisteredAt(es, id, r)
    requires TrackOf(cfg, es, id).Some? && !Classify(cfg, TrackOf(cfg, es, id).value).Dead?
    ensures LeaseIsLatest(es, id, r, TrackOf(cfg, es, id).value.since)
    decreases |es|
  {
    var n := |es| - 1;
    var init, e := es[..n], es[n];
    if r == n {
      assert Touches(es[r], id) && es[r].at == TrackOf(cfg, es, id).value.since;
    } else {
      OrderedInit(es);
      assert RegisteredAt(init, id, r);
      RegistrationGivesTrack(cfg, init, id, r);
      StateIsClassification(cfg, init, id);
      DeadIsKept(cfg, TrackOf(cfg, init, id).value, id, e);
      AliveMeansLatest(cfg, init, id, r);
      LeaseGoesOn(es, id, r, TrackOf(cfg, init, id).value.since, TrackOf(cfg, es, id).value.since);
    }
  }

  predicate DeadAfter(cfg: Config, es: seq<Event>, id: nat) {
    TrackOf(cfg, es, id).Some? && Classify(cfg, TrackOf(cfg, es, id).value).Dead?
  }

  lemma {:induction false} SilenceMeansDead(cfg: Config, es: seq<Event>, id: nat, r: nat, k: nat)
    requires cfg.Valid() && Ordered(es) && RegisteredAt(es, id, r) && FindsSilent(cfg, es, id, r, k)
    requires !es[r].node.nodeType.TypeHTTP2GW?
    ensures DeadAfter(cfg, es, id)
    decreases |es|
  {
    var n := |es| - 1;
    var init, e := es[..n], es[n];
    OrderedInit(es);
    assert RegisteredAt(init, id, r);
    RegistrationGivesTrack(cfg, init, id, r);
    StateIsClassification(cfg, init, id);
    if k < n {
      assert FindsSilent(cfg, init, id, r, k);
      SilenceMeansDead(cfg, init, id, r, k);
    }
    if DeadAfter(cfg, init, id) {
      DeadIsKept(cfg, TrackOf(cfg, init, id).value, id, e);
    } else {
      AliveMeansLatest(cfg, init, id, r);
      var since := TrackOf(cfg, init, id).value.since;
      var j :| r <= j < |init| && Touches(init[j], id) && init[j].at == since;
      assert es[j] == init[j];
    }
  }

  lemma DiesOnlyAtCheck(cfg: Config, t: Track, id: nat, e: Event)
    requires cfg.Valid() && (t.base.Registered? || t.base.Active?) && !Classify(cfg, t).Dead?
    requires NextTrack(cfg, Some(t), id, e).Some? && Classify(cfg, NextTrack(cfg, Some(t), id, e).value).Dead?
    requires !(e.Register? && e.node.id == id)
    ensures e.Check? && e.at - t.since >= cfg.deadTimeout
  {
  }

  lemma {:induction false} DeadMeansSilence(cfg: Config, es: seq<Event>, id: nat, r: nat)
    requires cfg.Valid() && Ordered(es) && RegisteredAt(es, id, r) && DeadAfter(cfg, es, id)
    ensures exists k :: FindsSilent(cfg, es, id, r, k)
    decreases |es|
  {
    var n := |es| - 1;
    if r < n {
      var init, e := es[..n], es[n];
      OrderedInit(es);
      assert RegisteredAt(init, id, r);
      RegistrationGivesTrack(cfg, init, id, r);
      if DeadAfter(cfg, init, id) {
        DeadMeansSilence(cfg, init, id, r);
        var k :| FindsSilent(cfg, init, id, r, k);
        assert FindsSilent(cfg, es, id, r, k);
      } else {
        StateIsClassification(cfg, init, id);
        DiesOnlyAtCheck(cfg, TrackOf(cfg, init, id).value, id, e);
        AliveMeansLatest(cfg, init, id, r);
        forall j | r <= j < n && Touches(es[j], id)
          ensures es[n].at - es[j].at >= cfg.deadTimeout
        {
          assert init[j] == es[j];
        }
        assert FindsSilent(cfg, es, id, r, n);
      }
    }
  }

  /** A registered node other than the gateway is DEAD if and only if some Check since its
      registration came DeadTimeout or more after everything heard from it until then. */
  lemma DeadExactlyWhenFoundSilent(cfg: Config, es: seq<Event>, id: nat, r: nat)
    requires cfg.Valid() && Ordered(es) && RegisteredAt(es, id, r) && !es[r].node.nodeType.TypeHTTP2GW?
    ensures id in Run(cfg, es)
    ensures Run(cfg, es)[id].state.Dead? <==> exists k :: FindsSilent(cfg, es, id, r, k)
  {
    RegistrationGivesTrack(cfg, es, id, r);
    StateIsClassification(cfg, es, id);
    if k :| FindsSilent(cfg, es, id, r, k) {
      SilenceMeansDead(cfg, es, id, r, k);
    }
    if DeadAfter(cfg, es, id) {
      DeadMeansSilence(cfg, es, id, r);
    }
  }

  /** A heartbeat is accepted exactly when the node is known and not DEAD; a rejected one
      changes nothing, and of a known node it is rejected as dead. */
  lemma HeartbeatAcceptedExactly(cfg: Config, es: seq<Event>, id: nat, at: int, load: nat, active: nat)
    requires cfg.Valid() && Ordered(es)
    ensures var before := Run(cfg, es);
            var after := Run(cfg, es + [Heartbeat(id, at, load, active)]);
            if id in before && !before[id].state.Dead?
            then after == before[id := before[id].(state := Active, lastHeartbeatAt := at, load := load, activeTransaction := active)]
            else after == before && (id in before ==> NextOnHeartbeat(before[id].state) == Err(ErrDeadNode))
  {
    StateIsClassification(cfg, es, id);
    assert (es + [Heartbeat(id, at, load, active)])[..|es|] == es;
  }

  lemma {:induction false} DeadPersists(cfg: Config, es: seq<Event>, more: seq<Event>, id: nat)
    requires cfg.Valid() && Ordered(es + more)
    requires id in Run(cfg, es) && Run(cfg, es)[id].state.Dead?
    requires forall e :: e in more ==> !(e.Register? && e.node.id == id) && !(e.Remove? && e.id == id)
    ensures id in Run(cfg, es + more) && Run(cfg, es + more)[id].state.Dead?
    decreases |more|
  {
    if more == [] {
      assert es + more == es;
    } else {
      var init, e := more[..|more| - 1], more[|more| - 1];
      assert (es + more)[..|es + more| - 1] == es + init;
      OrderedInit(es + more);
      DeadPersists(cfg, es, init, id);
      StateIsClassification(cfg, es + init, id);
      StateIsClassification(cfg, es + more, id);
      DeadIsKept(cfg, TrackOf(cfg, es + init, id).value, id, e);
    }
  }

  lemma TwoChecksAreOne(cfg: Config, nodes: map<nat, Node>, a: int, b: int)
    requires cfg.Valid() && a <= b
    ensures Checked(cfg, Checked(cfg, nodes, a), b) == Checked(cfg, nodes, b)
  {
    forall id | id in nodes
      ensures Checked(cfg, Checked(cfg, nodes, a), b)[id] == Checked(cfg, nodes, b)[id]
    {
      CheckOne(cfg, nodes[id], a);
      CheckOne(cfg, nodes[id], b);
      CheckOne(cfg, Checked(cfg, nodes, a)[id], b);
    }
  }

  lemma RunCheck(cfg: Config, es: seq<Event>, e: Event)
    requires e.Check?
    ensures Run(cfg, es + [e]) == Checked(cfg, Run(cfg, es), e.at)
  {
    assert (es + [e])[..|es|] == es;
  }

  /** Of the last two events, both Checks, the later one says it all. */
  lemma LastTwoChecks(cfg: Config, es: seq<Event>, a: Event, b: Event)
    requires cfg.Valid() && a.Check? && b.Check? && a.at <= b.at
    ensures Run(cfg, (es + [a]) + [b]) == Run(cfg, es + [b])
  {
    RunCheck(cfg, es + [a], b);
    RunCheck(cfg, es, a);
    RunCheck(cfg, es, b);
    TwoChecksAreOne(cfg, Run(cfg, es), a.at, b.at);
  }

  lemma SameBeforeCheck(cfg: Config, xs: seq<Event>, ys: seq<Event>, e: Event)
    requires e.Check? && Run(cfg, xs) == Run(cfg, ys)
    ensures Run(cfg, xs + [e]) == Run(cfg, ys + [e])
  {
    RunCheck(cfg, xs, e);
    RunCheck(cfg, ys, e);
  }

  /** Any number of Checks with nothing between them equals the last one alone. */
  lemma {:induction false} ChecksCollapse(cfg: Config, es: seq<Event>, checks: seq<Event>)
    requires cfg.Valid() && Ordered(es + checks) && checks != [] && forall e :: e in checks ==> e.Check?
    ensures Run(cfg, es + checks) == Run(cfg, es + [checks[|checks| - 1]])
    decreases |checks|
  {
    var n := |checks| - 1;
    if n > 0 {
      var init, prev, last := checks[..n], checks[n - 1], checks[n];
      assert es + checks == (es + init) + [last];
      assert init[n - 1] == prev && last in checks && prev in checks;
      assert Ordered(es + init) && prev.at <= last.at by {
        OrderedInit(es + checks);
        assert (es + checks)[..|es| + n] == es + init;
        assert (es + checks)[|es| + n - 1] == prev && (es + checks)[|es| + n] == last;
      }
      assert Run(cfg, es + init) == Run(cfg, es + [prev]) by {
        ChecksCollapse(cfg, es, init);
      }
      SameBeforeCheck(cfg, es + init, es + [prev], last);
      LastTwoChecks(cfg, es, prev, last);
    } else {
      assert checks == [checks[0]];
    }
  }

  // ---- Real time ----

  /** Some Check lies at most `interval` before now. */
  ghost predicate RecentlyChecked(cfg: Config, es: seq<Event>, now: int) {
    exists k :: 0 <= k < |es| && es[k].Check? && now - es[k].at <= cfg.interval
  }

  lemma {:induction false} TrackSeesChecks(cfg: Config, es: seq<Event>, id: nat, k: nat)
    requires cfg.Valid() && Ordered(es) && k < |es| && es[k].Check?
    requires TrackOf(cfg, es, id).Some? && !TrackOf(cfg, es, id).value.isGateway
    ensures var t := TrackOf(cfg, es, id).value;
            if t.check.Some? then es[k].at <= t.check.value || es[k].at <= t.since else es[k].at <= t.since
    decreases |es|
  {
    var n := |es| - 1;
    OrderedInit(es);
    StateIsClassification(cfg, es, id);
    if k < n {
      var init := es[..n];
      assert es[k].at <= es[n].at;
      if TrackOf(cfg, init, id).Some? && !TrackOf(cfg, init, id).value.isGateway {
        TrackSeesChecks(cfg, init, id, k);
        StateIsClassification(cfg, init, id);
      }
    }
  }

  /** Event i is a heartbeat of the node at time `at`, and it was accepted. */
  ghost predicate AcceptedAt(cfg: Config, es: seq<Event>, id: nat, i: int, at: int) {
    && 0 <= i < |es| && es[i].Heartbeat? && es[i].id == id && es[i].at == at
    && id in Run(cfg, es[..i]) && !Run(cfg, es[..i])[id].state.Dead?
  }

  lemma {:induction false} ActiveHasHeartbeat(cfg: Config, es: seq<Event>, id: nat)
    requires cfg.Valid() && Ordered(es) && TrackOf(cfg, es, id).Some? && TrackOf(cfg, es, id).value.base.Active?
    ensures exists i :: AcceptedAt(cfg, es, id, i, TrackOf(cfg, es, id).value.since)
    decreases |es|
  {
    var n := |es| - 1;
    var init := es[..n];
    OrderedInit(es);
    StateIsClassification(cfg, init, id);
    if TrackOf(cfg, init, id).Some? && TrackOf(cfg, init, id).value.base.Active?
       && TrackOf(cfg, es, id).value.since == TrackOf(cfg, init, id).value.since {
      ActiveHasHeartbeat(cfg, init, id);
      var i :| AcceptedAt(cfg, init, id, i, TrackOf(cfg, init, id).value.since);
      assert es[..i] == init[..i];
      assert AcceptedAt(cfg, es, id, i, TrackOf(cfg, es, id).value.since);
    } else {
      assert AcceptedAt(cfg, es, id, n, TrackOf(cfg, es, id).value.since);
    }
  }

  /** With Checks at most Interval apart, an ACTIVE node had an accepted heartbeat less than
      SuspectTimeout + Interval ago. */
  lemma ActiveMeansRecentHeartbeat(cfg: Config, es: seq<Event>, id: nat, now: int)
    requires cfg.Valid() && Ordered(es) && RecentlyChecked(cfg, es, now)
    requires id in Run(cfg, es) && Run(cfg, es)[id].state.Active? && !Run(cfg, es)[id].nodeType.TypeHTTP2GW?
    ensures exists i :: AcceptedAt(cfg, es, id, i, Run(cfg, es)[id].lastHeartbeatAt)
    ensures now - Run(cfg, es)[id].lastHeartbeatAt < cfg.suspectTimeout + cfg.interval
  {
    StateIsClassification(cfg, es, id);
    ActiveHasHeartbeat(cfg, es, id);
    var k :| 0 <= k < |es| && es[k].Check? && now - es[k].at <= cfg.interval;
    TrackSeesChecks(cfg, es, id, k);
  }

  /** A node that has been silent for DeadTimeout + Interval is DEAD. */
  lemma SilentNodeIsDead(cfg: Config, es: seq<Event>, id: nat, now: int)
    requires cfg.Valid() && Ordered(es) && RecentlyChecked(cfg, es, now)
    requires id in Run(cfg, es) && !Run(cfg, es)[id].nodeType.TypeHTTP2GW?
    requires now - Run(cfg, es)[id].lastHeartbeatAt >= cfg.deadTimeout + cfg.interval
    ensures Run(cfg, es)[id].state.Dead?
  {
    StateIsClassification(cfg, es, id);
    var k :| 0 <= k < |es| && es[k].Check? && now - es[k].at <= cfg.interval;
    TrackSeesChecks(cfg, es, id, k);
  }

  // ---- The handlers ----

  datatype HandleError = ErrInvalidHeartbeat | ErrUnknownNode | ErrRejected(e: HeartbeatError)

  datatype HeartbeatRequest = HeartbeatRequest(nodeId: nat, sequence: nat, load: nat, activeTransaction: nat)

  datatype HeartbeatResponse = HeartbeatResponse(sequence: nat, timestampMs: nat)

  const NANOS_PER_MILLI := 1_000_000

  class Service {
    const registry: Memory

    constructor (registry: Memory)
      ensures this.registry == registry
    {
      this.registry := registry;
    }

    method Handle(req: Option<HeartbeatRequest>, at: int) returns (r: Result<HeartbeatResponse, HandleError>)
      requires KeyedByID(registry.nodes)
      modifies registry
      ensures KeyedByID(registry.nodes)
      ensures req.None? || req.value.nodeId == 0 ==> r == Err(ErrInvalidHeartbeat) && registry.nodes == old(registry.nodes)
      ensures req.Some? && req.value.nodeId != 0 ==>
                && registry.nodes == Beaten(old(registry.nodes), req.value.nodeId, at, req.value.load, req.value.activeTransaction)
                && (req.value.nodeId !in old(registry.nodes) ==> r == Err(ErrUnknownNode))
                && (req.value.nodeId in old(registry.nodes) ==>
                      match NextOnHeartbeat(old(registry.nodes)[req.value.nodeId].state)
                      case Err(e) => r == Err(ErrRejected(e))
                      case Ok(_) => r.Ok? && r.value.sequence == req.value.sequence
                                    && r.value.timestampMs == if at < 0 then 0 else at / 1_000_000)
    {
      if req.None? || req.value.nodeId == 0 {
        return Err(ErrInvalidHeartbeat);
      }
      var id := req.value.nodeId;
      var _, err := registry.ApplyHeartbeat(id, at, NextOnHeartbeat);
      if err.Some? {
        match err.value
        case ErrNotFound => return Err(ErrUnknownNode);
        case ErrTransition(e) => return Err(ErrRejected(e));
        case ErrInvalidNode => return Err(ErrInvalidHeartbeat);
      }
      var ignored := registry.SetRuntime(id, req.value.load, req.value.activeTransaction);
      var ts := if at < 0 then 0 else at / NANOS_PER_MILLI;
      return Ok(HeartbeatResponse(req.value.sequence, ts));
    }
  }

  class Monitor {
    const registry: Memory
    const cfg: Config

    constructor (registry: Memory, cfg: Config)
      requires cfg.Valid()
      ensures this.registry == registry && this.cfg == cfg
    {
      this.registry := registry;
      this.cfg := cfg;
    }

    method Check(now: int) returns (changed: seq<Node>)
      requires KeyedByID(registry.nodes)
      modifies registry
      ensures KeyedByID(registry.nodes)
      ensures registry.nodes == StepNodes(cfg, old(registry.nodes), Event.Check(now))
      ensures forall n :: n in changed <==>
                exists id :: id in registry.nodes && registry.nodes[id] == n && n.state != old(registry.nodes)[id].state
      ensures forall i, j :: 0 <= i < j < |changed| ==> changed[i].id != changed[j].id
    {
      changed := registry.ApplyTimeoutsExcept(now, SkipGateway(), CheckTransition(cfg));
    }
  }
}
