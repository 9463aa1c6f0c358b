/** Every event of module Gateway keeps its invariant. */
module GatewayInvariant {
  import opened Wrappers
  import opened Pendings
  import opened Managers
  import opened Protocol
  import opened Gateway

  // ---- Frames ----

  /** s1 continues s, and as far as ids outside `mine` go, the waiter table only loses entries. */
  ghost predicate Continues(s: Sys, s1: Sys, mine: set<nat>) {
    && s.net <= s1.net
    && (forall id :: id in s.owner ==> id in s1.owner && s1.owner[id] == s.owner[id])
    && (forall t :: t in s.reqs ==>
          && t in s1.reqs
          && s1.reqs[t].messageId == s.reqs[t].messageId && s1.reqs[t].payload == s.reqs[t].payload)
    && (forall id :: id in s1.m.tab.wait && id !in mine ==> id in s.m.tab.wait && s1.m.tab.wait[id] == s.m.tab.wait[id])
    && (forall p :: Live(s.m, p) && s.m.objs[p].id !in mine ==> p in s1.m.objs && s1.m.objs[p].waiting == s.m.objs[p].waiting)
  }

  /** The part of the protocol invariant that the gateway's clauses lean on. */
  ghost predicate Linked(m: State) {
    && (forall id :: id in m.tab.wait ==> Live(m, m.tab.wait[id]) && m.objs[m.tab.wait[id]].id == id)
    && (forall t :: t in m.pcs && m.pcs[t].Claiming? ==> Live(m, m.pcs[t].p) && m.objs[m.pcs[t].p].id == m.pcs[t].id)
    && (m.tab.closed ==> m.tab.wait == map[])
  }

  lemma InvLinked(m: State)
    requires Inv(m)
    ensures Linked(m)
  {
    forall t | t in m.pcs && m.pcs[t].Claiming?
      ensures Live(m, m.pcs[t].p) && m.objs[m.pcs[t].p].id == m.pcs[t].id
    {
      assert ThreadOk(m, m.pcs[t]);
    }
  }

  lemma KeepRequest(s: Sys, s1: Sys, u: Tid, mine: set<nat>)
    requires Linked(s.m) && Continues(s, s1, mine)
    requires u in s.reqs && u in s1.reqs && s1.reqs[u] == s.reqs[u] && PcOf(s1.m, u) == PcOf(s.m, u)
    requires forall id :: id in s.reqs[u].ids ==> id !in mine
    requires RequestOk(s, u)
    ensures RequestOk(s1, u)
  {
    var q := s.reqs[u];
    if q.ID() in s.m.tab.wait {
      assert Live(s.m, s.m.tab.wait[q.ID()]);
    }
  }

  lemma KeepNet(s: Sys, s1: Sys, mine: set<nat>)
    requires NetOk(s) && Continues(s, s1, mine)
    requires forall q :: q in s1.net && q !in s.net ==> PacketOk(s1, q)
    ensures NetOk(s1)
  {
    forall q | q in s1.net && q in s.net
      ensures PacketOk(s1, q)
    {
      assert PacketOk(s, q);
    }
  }

  lemma KeepWorkers(s: Sys, s1: Sys, mine: set<nat>, d: Tid)
    requires WorkersOk(s) && Continues(s, s1, mine)
    requires forall t :: t in s1.m.pcs && t !in s1.reqs && t != d ==> t in s.m.pcs && t !in s.reqs && s1.m.pcs[t] == s.m.pcs[t]
    requires d !in s1.reqs && d in s1.m.pcs ==> WorkerOk(s1, s1.m.pcs[d])
    ensures WorkersOk(s1)
  {
    forall t | t in s1.m.pcs && t !in s1.reqs
      ensures WorkerOk(s1, s1.m.pcs[t])
    {
      if t != d {
        assert WorkerOk(s, s.m.pcs[t]);
      }
    }
  }

  lemma SameDeliveries(s: Sys, s1: Sys)
    requires DeliveriesOk(s) && s.net <= s1.net
    requires forall p :: p in s1.m.deliveries ==> s1.m.deliveries[p] == [] || (p in s.m.deliveries && s1.m.deliveries[p] == s.m.deliveries[p])
    ensures DeliveriesOk(s1)
  {
  }

  /** A request thread's own event keeps everything but its own clause and the manager's. */
  lemma OthersKept(s: Sys, s1: Sys, t: Tid, mine: set<nat>)
    requires GatewayOk(s) && Linked(s.m) && Continues(s, s1, mine)
    requires forall u :: u in s1.reqs && u != t ==> u in s.reqs && s1.reqs[u] == s.reqs[u] && PcOf(s1.m, u) == PcOf(s.m, u)
    requires forall id :: id in mine && id in s.owner ==> s.owner[id] == t
    ensures forall u :: u in s1.reqs && u != t ==> RequestOk(s1, u)
  {
    forall u | u in s1.reqs && u != t
      ensures RequestOk(s1, u)
    {
      assert RequestOk(s, u);
      KeepRequest(s, s1, u, mine);
    }
  }

  /** An event of thread t: what it must show for itself, and the rest follows. */
  lemma Assemble(s: Sys, s1: Sys, t: Tid, mine: set<nat>)
    requires GatewayOk(s) && Linked(s.m) && Continues(s, s1, mine)
    requires forall u :: u in s1.reqs && u != t ==> u in s.reqs && s1.reqs[u] == s.reqs[u]
    requires forall u :: u != t ==> PcOf(s1.m, u) == PcOf(s.m, u) && (u in s1.m.pcs <==> u in s.m.pcs)
    requires forall id :: id in mine && id in s.owner ==> s.owner[id] == t
    requires forall q :: q in s1.net && q !in s.net ==> PacketOk(s1, q)
    requires OwnersOk(s1) && DeliveriesOk(s1)
    requires t in s1.reqs ==> RequestOk(s1, t)
    requires t !in s1.reqs && t in s1.m.pcs ==> WorkerOk(s1, s1.m.pcs[t])
    ensures GatewayOk(s1)
  {
    OthersKept(s, s1, t, mine);
    KeepNet(s, s1, mine);
    forall u | u in s1.m.pcs && u !in s1.reqs && u != t
      ensures u in s.m.pcs && u !in s.reqs && s1.m.pcs[u] == s.m.pcs[u]
    {
      assert PcOf(s1.m, u) == PcOf(s.m, u);
    }
    KeepWorkers(s, s1, mine, t);
  }

  /** At most thread t's place and the envelope histories differ. */
  ghost predicate OnlyMoves(m: State, m1: State, t: Tid) {
    && m1.tab == m.tab && m1.objs == m.objs && m1.deliveries == m.deliveries
    && forall u :: u != t ==> PcOf(m1, u) == PcOf(m, u) && (u in m1.pcs <==> u in m.pcs)
  }

  lemma LookupMoves(m: State, t: Tid, id: nat, r: Outcome, after: After, carrier: Option<nat>)
    ensures OnlyMoves(m, DoFinish(m, t, id, r, after, carrier), t)
    ensures OnlyMoves(m, DoWaitLookup(m, t, id), t)
  {
  }

  /** Table, waiters and owners stay; at most t's own request and datagrams change. */
  ghost predicate QuietFor(s: Sys, s1: Sys, t: Tid) {
    && OnlyMoves(s.m, s1.m, t) && s1.owner == s.owner && s.net <= s1.net
    && t in s1.reqs && s1.reqs == s.reqs[t := s1.reqs[t]]
    && (if t in s.reqs then s1.reqs[t].messageId == s.reqs[t].messageId && s1.reqs[t].payload == s.reqs[t].payload
                            && s1.reqs[t].ids == s.reqs[t].ids
        else t !in s.m.pcs)
  }

  lemma QuietContinues(s: Sys, s1: Sys, t: Tid)
    requires QuietFor(s, s1, t)
    ensures Continues(s, s1, {})
  {
  }

  lemma QuietOwners(s: Sys, s1: Sys, t: Tid)
    requires OwnersOk(s) && QuietFor(s, s1, t)
    ensures OwnersOk(s1)
  {
  }

  /** Events that change no table entry and no waiter. */
  lemma QuietEvent(s: Sys, s1: Sys, t: Tid)
    requires GatewayOk(s) && Linked(s.m) && QuietFor(s, s1, t)
    requires forall q :: q in s1.net && q !in s.net ==> PacketOk(s1, q)
    requires RequestOk(s1, t)
    ensures GatewayOk(s1)
  {
    SameDeliveries(s, s1);
    QuietContinues(s, s1, t);
    QuietOwners(s, s1, t);
    Assemble(s, s1, t, {});
  }

  /** Moves along the stages that touch nothing else. */
  lemma OwnStage(s: Sys, t: Tid, stage: Stage)
    requires t in s.reqs && RequestOk(s, t)
    requires match s.reqs[t].stage
             case Begin => stage.Finished? && stage.res.Failure?
             case Routing => stage.Sending? && stage.node !in s.reqs[t].exclude
             case Cancelling(next) => PcOf(s.m, t).Idle? && stage.Finished? && stage.res.Failure?
             case AboutToWait => s.m.tab.wait == map[] && stage.Finished? && stage.res.Failure?
             case _ => false
    ensures RequestOk(ToStage(s, t, stage), t)
  {
  }

  lemma AbortInv(s: Sys, t: Tid)
    requires GatewayOk(s) && Linked(s.m) && InStage(s, t, Begin)
    ensures GatewayOk(DoAbort(s, t))
  {
    OwnStage(s, t, DoAbort(s, t).reqs[t].stage);
    QuietEvent(s, DoAbort(s, t), t);
  }

  lemma RoutedInv(s: Sys, t: Tid, node: NodeID)
    requires GatewayOk(s) && Linked(s.m) && InStage(s, t, Routing) && node !in s.reqs[t].exclude
    ensures GatewayOk(ToStage(s, t, Sending(node)))
  {
    OwnStage(s, t, Sending(node));
    QuietEvent(s, ToStage(s, t, Sending(node)), t);
  }

  lemma ResumeOwn(s: Sys, t: Tid)
    requires t in s.reqs && RequestOk(s, t) && s.reqs[t].stage.Cancelling? && PcOf(s.m, t).Idle?
    ensures RequestOk(DoResume(s, t), t)
  {
    if s.reqs[t].stage.next.Stop? {
      OwnStage(s, t, Finished(Failure(s.reqs[t].stage.next.why)));
    }
  }

  lemma ResumeInv(s: Sys, t: Tid)
    requires GatewayOk(s) && Linked(s.m) && t in s.reqs && s.reqs[t].stage.Cancelling? && PcOf(s.m, t).Idle?
    ensures GatewayOk(DoResume(s, t))
  {
    ResumeOwn(s, t);
    QuietEvent(s, DoResume(s, t), t);
  }

  lemma SentOwn(s: Sys, t: Tid)
    requires t in s.reqs && RequestOk(s, t) && s.reqs[t].stage.Sending?
    ensures RequestOk(DoSend(s, t, true, true), t)
  {
  }

  lemma CurrentIDOwned(s: Sys, t: Tid)
    requires t in s.reqs && RequestOk(s, t) && s.reqs[t].ids != []
    ensures s.reqs[t].ID() in s.reqs[t].ids && s.reqs[t].ID() in s.owner && s.owner[s.reqs[t].ID()] == t
  {
  }

  lemma SentInv(s: Sys, t: Tid)
    requires GatewayOk(s) && Linked(s.m) && t in s.reqs && s.reqs[t].stage.Sending?
    ensures GatewayOk(DoSend(s, t, true, true))
  {
    assert RequestOk(s, t);
    CurrentIDOwned(s, t);
    SentOwn(s, t);
    QuietEvent(s, DoSend(s, t, true, true), t);
  }

  /** The clause of a request whose Cancel has done its lookup. */
  lemma CancelOwn(s: Sys, s1: Sys, t: Tid, q: Request, next: AfterCancel)
    requires t in s.reqs && RequestOk(s, t) && PcOf(s.m, t).Idle?
    requires s1 == BeginCancel(s, t, q, next) && q.ids == s.reqs[t].ids && q.ids != []
    requires SendsOk(q.(stage := Cancelling(next)))
    ensures RequestOk(s1, t)
  {
  }

  lemma CancelInv(s: Sys, t: Tid, q: Request, next: AfterCancel)
    requires GatewayOk(s) && Linked(s.m) && t in s.reqs && PcOf(s.m, t).Idle?
    requires q.ids == s.reqs[t].ids && q.messageId == s.reqs[t].messageId && q.payload == s.reqs[t].payload && q.ids != []
    requires SendsOk(q.(stage := Cancelling(next)))
    ensures GatewayOk(BeginCancel(s, t, q, next))
  {
    LookupMoves(s.m, t, q.ID(), Failed(Canceled), ThenRemove, None);
    assert RequestOk(s, t);
    CancelOwn(s, BeginCancel(s, t, q, next), t, q, next);
    QuietEvent(s, BeginCancel(s, t, q, next), t);
  }

  /** Between Create and Wait the thread is in no manager operation. */
  lemma InTheLoop(s: Sys, t: Tid)
    requires RequestsOk(s) && t in s.reqs
    requires s.reqs[t].stage.Routing? || s.reqs[t].stage.Sending? || s.reqs[t].stage.AboutToWait?
    ensures SendsOk(s.reqs[t]) && PcOf(s.m, t).Idle? && s.reqs[t].ids != []
  {
    assert RequestOk(s, t);
  }

  lemma RouteFailInv(s: Sys, t: Tid)
    requires GatewayOk(s) && Linked(s.m) && InStage(s, t, Routing)
    ensures GatewayOk(BeginCancel(s, t, s.reqs[t], Stop(RouteFailed)))
  {
    InTheLoop(s, t);
    CancelInv(s, t, s.reqs[t], Stop(RouteFailed));
  }

  lemma RequestsGrow(s: Sys, s1: Sys)
    requires RequestsOk(s) && Linked(s.m) && s1 == s.(net := s1.net) && s.net <= s1.net
    ensures RequestsOk(s1)
  {
    forall u | u in s1.reqs
      ensures RequestOk(s1, u)
    {
      assert RequestOk(s, u);
      KeepRequest(s, s1, u, {});
    }
  }

  lemma WorkersGrow(s: Sys, s1: Sys)
    requires WorkersOk(s) && s1 == s.(net := s1.net) && s.net <= s1.net
    ensures WorkersOk(s1)
  {
    forall u | u in s1.m.pcs && u !in s1.reqs
      ensures WorkerOk(s1, s1.m.pcs[u])
    {
      assert WorkerOk(s, s.m.pcs[u]);
    }
  }

  /** Only the set of datagrams grows. */
  lemma NetGrows(s: Sys, q: Packet)
    requires GatewayOk(s) && Linked(s.m) && PacketOk(s, q)
    ensures GatewayOk(s.(net := s.net + {q}))
  {
    var s1 := s.(net := s.net + {q});
    SameDeliveries(s, s1);
    KeepNet(s, s1, {});
    RequestsGrow(s, s1);
    WorkersGrow(s, s1);
  }

  /** A failing Send may have put the datagram on the wire. */
  lemma MayHaveWritten(s: Sys, t: Tid, wrote: bool) returns (s1: Sys)
    requires GatewayOk(s) && Linked(s.m) && t in s.reqs && s.reqs[t].stage.Sending?
    ensures var q := s.reqs[t];
            s1 == s.(net := if wrote then s.net + {DataRequest(q.ID(), q.messageId, q.payload)} else s.net)
    ensures GatewayOk(s1)
  {
    var q := s.reqs[t];
    assert RequestOk(s, t);
    CurrentIDOwned(s, t);
    if wrote {
      NetGrows(s, DataRequest(q.ID(), q.messageId, q.payload));
      s1 := s.(net := s.net + {DataRequest(q.ID(), q.messageId, q.payload)});
    } else {
      s1 := s;
    }
  }

  /** The request as its Cancel begins. */
  function AfterFailedSend(q: Request): Request
    requires q.stage.Sending?
  {
    q.(sends := q.sends + [Sent(q.stage.node, q.ID(), false)], exclude := AppendUnique(q.exclude, q.stage.node))
  }

  function NextAfterFailedSend(q: Request): AfterCancel {
    if q.attempt + 1 < MAX_ROUTE_ATTEMPTS then Retry else Stop(SendFailed)
  }

  lemma FailedSendIsCancel(s: Sys, t: Tid, wrote: bool)
    requires t in s.reqs && s.reqs[t].stage.Sending?
    ensures var q := s.reqs[t];
            DoSend(s, t, false, wrote) ==
            BeginCancel(s.(net := if wrote then s.net + {DataRequest(q.ID(), q.messageId, q.payload)} else s.net),
                        t, AfterFailedSend(q), NextAfterFailedSend(q))
  {
  }

  lemma FailedSendsOk(q: Request)
    requires SendsOk(q) && q.stage.Sending?
    ensures SendsOk(AfterFailedSend(q).(stage := Cancelling(NextAfterFailedSend(q))))
  {
  }

  lemma SendFailInv(s: Sys, t: Tid, wrote: bool)
    requires GatewayOk(s) && Linked(s.m) && t in s.reqs && s.reqs[t].stage.Sending?
    ensures GatewayOk(DoSend(s, t, false, wrote))
  {
    var q := s.reqs[t];
    InTheLoop(s, t);
    FailedSendIsCancel(s, t, wrote);
    FailedSendsOk(q);
    var s1 := MayHaveWritten(s, t, wrote);
    CancelInv(s1, t, AfterFailedSend(q), NextAfterFailedSend(q));
  }

  lemma AwaitOwn(s: Sys, t: Tid)
    requires t in s.reqs && RequestOk(s, t) && s.reqs[t].stage.AboutToWait? && Find(s.m.tab, s.reqs[t].ID()).Ok?
    ensures RequestOk(DoAwait(s, t), t)
  {
  }

  lemma AwaitFailed(s: Sys, t: Tid, stage: Stage)
    requires t in s.reqs && RequestOk(s, t) && s.reqs[t].stage.AboutToWait? && Linked(s.m)
    requires Find(s.m.tab, s.reqs[t].ID()).Err? && stage.Finished? && stage.res.Failure?
    ensures RequestOk(ToStage(s, t, stage), t)
  {
  }

  lemma AwaitInv(s: Sys, t: Tid)
    requires GatewayOk(s) && Linked(s.m) && InStage(s, t, AboutToWait)
    ensures GatewayOk(DoAwait(s, t))
  {
    assert RequestOk(s, t);
    LookupMoves(s.m, t, s.reqs[t].ID(), Failed(Canceled), Return, None);
    if Find(s.m.tab, s.reqs[t].ID()).Ok? {
      AwaitOwn(s, t);
    } else {
      AwaitFailed(s, t, DoAwait(s, t).reqs[t].stage);
    }
    QuietEvent(s, DoAwait(s, t), t);
  }

  /** Every committed removal is for an id issued before. */
  lemma FreshIDHasNoRemover(s: Sys, id: nat)
    requires OwnersOk(s) && RequestsOk(s) && WorkersOk(s) && id > s.m.tab.nextID
    ensures NoRemover(s.m, id)
  {
    forall u | u in s.m.pcs
      ensures !WillRemove(s.m, s.m.pcs[u], id)
    {
      if u in s.reqs {
        assert RequestOk(s, u);
        if s.reqs[u].ids != [] {
          CurrentIDOwned(s, u);
        }
      } else {
        assert WorkerOk(s, s.m.pcs[u]);
      }
    }
  }

  /** What the enabled Create says, below the wrap-around. */
  predicate FreshIssue(s: Sys, t: Tid, k: nat, p: Pid) {
    && InStage(s, t, Begin) && !s.m.tab.closed
    && 1 <= k && Advance(s.m.tab.nextID, k) == s.m.tab.nextID + k
    && s.m.tab.nextID + k !in s.m.tab.wait
    && !Live(s.m, p)
  }

  lemma IssueSends(q: Request, id: nat)
    requires SendsOk(q) && q.stage.Begin?
    ensures SendsOk(q.(ids := q.ids + [id], stage := Routing))
  {
  }

  lemma IssueOwn(s: Sys, t: Tid, k: nat, p: Pid)
    requires t in s.reqs && RequestOk(s, t)
    requires FreshIssue(s, t, k, p) && s.m.tab.nextID + k !in s.owner
    ensures RequestOk(DoIssue(s, t, k, p), t)
  {
    var id := s.m.tab.nextID + k;
    var s1 := DoIssue(s, t, k, p);
    IssueSends(s.reqs[t], id);
    assert s1.reqs[t] == s.reqs[t].(ids := s.reqs[t].ids + [id], stage := Routing);
    assert s1.m.tab.wait == s.m.tab.wait[id := p] && !s1.m.objs[p].waiting;
    assert forall i :: i in s.reqs[t].ids ==> i in s.owner && i !in s.m.tab.wait;
    assert forall i :: i in s1.reqs[t].ids ==> i in s.reqs[t].ids || i == id;
    assert PcOf(s1.m, t) == PcOf(s.m, t);
  }

  lemma IssueOwners(s: Sys, t: Tid, k: nat, p: Pid)
    requires OwnersOk(s) && FreshIssue(s, t, k, p)
    ensures OwnersOk(DoIssue(s, t, k, p))
  {
    var s1 := DoIssue(s, t, k, p);
    assert s1.reqs[t].ids == s.reqs[t].ids + [s.m.tab.nextID + k];
  }

  lemma CanCreateFresh(s: Sys, t: Tid, k: nat, p: Pid)
    requires InStage(s, t, Begin) && CanCreate(s.m, t, 0, k, p) && s.m.tab.nextID + k < WORD
    ensures FreshIssue(s, t, k, p)
  {
  }

  lemma IssueContinues(s: Sys, t: Tid, k: nat, p: Pid)
    requires OwnersOk(s) && FreshIssue(s, t, k, p)
    ensures Continues(s, DoIssue(s, t, k, p), {s.m.tab.nextID + k})
    ensures s.m.tab.nextID + k !in s.owner
  {
  }

  lemma IssueRequests(s: Sys, t: Tid, k: nat, p: Pid)
    requires GatewayOk(s) && Linked(s.m) && FreshIssue(s, t, k, p)
    ensures RequestsOk(DoIssue(s, t, k, p))
  {
    IssueContinues(s, t, k, p);
    assert RequestOk(s, t);
    IssueOwn(s, t, k, p);
    OthersKept(s, DoIssue(s, t, k, p), t, {s.m.tab.nextID + k});
  }

  lemma IssueRest(s: Sys, t: Tid, k: nat, p: Pid)
    requires NetOk(s) && OwnersOk(s) && WorkersOk(s) && DeliveriesOk(s) && FreshIssue(s, t, k, p)
    ensures NetOk(DoIssue(s, t, k, p)) && WorkersOk(DoIssue(s, t, k, p)) && DeliveriesOk(DoIssue(s, t, k, p))
  {
    var s1 := DoIssue(s, t, k, p);
    IssueContinues(s, t, k, p);
    SameDeliveries(s, s1);
    KeepNet(s, s1, {s.m.tab.nextID + k});
    KeepWorkers(s, s1, {s.m.tab.nextID + k}, t);
  }

  lemma IssueInv(s: Sys, t: Tid, k: nat, p: Pid)
    requires GatewayOk(s) && Linked(s.m) && FreshIssue(s, t, k, p)
    ensures GatewayOk(DoIssue(s, t, k, p))
  {
    IssueOwners(s, t, k, p);
    IssueRequests(s, t, k, p);
    IssueRest(s, t, k, p);
  }

  // ---- Manager steps of a Request thread ----

  /** The object a request thread works on was created for its id, and a reply it has
      received comes from the wire. */
  predicate Anchored(s: Sys, t: Tid) {
    match PcOf(s.m, t)
    case Claiming(p, id) => p in s.m.objs && s.m.objs[p].id == id
    case Resetting(p, id, r) => p in s.m.objs && s.m.objs[p].id == id && FromWire(s, id, r)
    case _ => true
  }

  lemma InvAnchored(s: Sys, t: Tid)
    requires Inv(s.m) && DeliveriesOk(s)
    ensures Anchored(s, t)
  {
    var pc := PcOf(s.m, t);
    assert ThreadOk(s.m, pc);
    if pc.Resetting? {
      assert ObjOk(s.m, pc.p);
    }
  }

  predicate CanProceed(s: Sys, t: Tid, a: Step) {
    t in s.reqs && (s.reqs[t].stage.Cancelling? || s.reqs[t].stage.Waiting?) && OwnStep(t, a)
  }

  /** The manager's part of a request thread's step: one id, one thread. */
  ghost predicate OneIDOneThread(s: Sys, s1: Sys, t: Tid)
    requires t in s.reqs
  {
    && Continues(s, s1, {s.reqs[t].ID()})
    && s1.m.tab.nextID == s.m.tab.nextID && s1.m.tab.wait.Keys <= s.m.tab.wait.Keys
    && forall u :: u != t ==> PcOf(s1.m, u) == PcOf(s.m, u) && (u in s1.m.pcs <==> u in s.m.pcs)
  }

  lemma TableStepFrame(s: Sys, t: Tid, a: Step)
    requires CanProceed(s, t, a) && Enabled(s.m, a) && Anchored(s, t) && PlaceOk(s.reqs[t], PcOf(s.m, t))
    requires a.CancelRemove? || a.WaitRemove? || a.WaitCancel?
    ensures OneIDOneThread(s, DoProceed(s, t, a), t)
  {
  }

  lemma DeliverStepFrame(s: Sys, t: Tid, a: Step)
    requires CanProceed(s, t, a) && Enabled(s.m, a) && Anchored(s, t) && PlaceOk(s.reqs[t], PcOf(s.m, t))
    requires a.TryDeliver?
    ensures OneIDOneThread(s, DoProceed(s, t, a), t)
  {
  }

  lemma ClaimStepFrame(s: Sys, t: Tid, a: Step)
    requires CanProceed(s, t, a) && Enabled(s.m, a) && Anchored(s, t) && PlaceOk(s.reqs[t], PcOf(s.m, t))
    requires a.WaitClaim?
    ensures OneIDOneThread(s, DoProceed(s, t, a), t)
  {
  }

  lemma ReceiveStepFrame(s: Sys, t: Tid, a: Step)
    requires CanProceed(s, t, a) && Enabled(s.m, a) && Anchored(s, t) && PlaceOk(s.reqs[t], PcOf(s.m, t))
    requires a.WaitReceive?
    ensures OneIDOneThread(s, DoProceed(s, t, a), t)
  {
  }

  lemma DrainStepFrame(s: Sys, t: Tid, a: Step)
    requires CanProceed(s, t, a) && Enabled(s.m, a) && Anchored(s, t) && PlaceOk(s.reqs[t], PcOf(s.m, t))
    requires a.WaitDrain?
    ensures OneIDOneThread(s, DoProceed(s, t, a), t)
  {
  }

  lemma ResetStepFrame(s: Sys, t: Tid, a: Step)
    requires CanProceed(s, t, a) && Enabled(s.m, a) && Anchored(s, t) && PlaceOk(s.reqs[t], PcOf(s.m, t))
    requires a.WaitReset?
    ensures OneIDOneThread(s, DoProceed(s, t, a), t)
  {
  }

  lemma ProceedFrame(s: Sys, t: Tid, a: Step)
    requires CanProceed(s, t, a) && Enabled(s.m, a) && Anchored(s, t) && PlaceOk(s.reqs[t], PcOf(s.m, t))
    ensures OneIDOneThread(s, DoProceed(s, t, a), t)
  {
    if a.TryDeliver? {
      DeliverStepFrame(s, t, a);
    } else if a.WaitClaim? {
      ClaimStepFrame(s, t, a);
    } else if a.WaitReceive? {
      ReceiveStepFrame(s, t, a);
    } else if a.WaitDrain? {
      DrainStepFrame(s, t, a);
    } else if a.WaitReset? {
      ResetStepFrame(s, t, a);
    } else {
      TableStepFrame(s, t, a);
    }
  }

  lemma SameHistory(s: Sys, t: Tid, a: Step)
    requires CanProceed(s, t, a) && Enabled(s.m, a) && !a.TryDeliver?
    ensures DoProceed(s, t, a).m.deliveries == s.m.deliveries && DoProceed(s, t, a).net == s.net
  {
  }

  /** A delivery that carries an error, or a reply off the wire, keeps the clause. */
  lemma AppendFailed(s: Sys, s1: Sys, p: Pid, d: Delivery)
    requires DeliveriesOk(s) && s1.net == s.net && FromWire(s, d.id, d.r) && p in s.m.objs && CanDeliver(s.m.objs[p])
    requires s1.m.deliveries == Delivered(s.m, p, d).deliveries
    ensures DeliveriesOk(s1)
  {
  }

  lemma ProceedDeliveries(s: Sys, t: Tid, a: Step)
    requires CanProceed(s, t, a) && Enabled(s.m, a) && PlaceOk(s.reqs[t], PcOf(s.m, t)) && DeliveriesOk(s)
    ensures DeliveriesOk(DoProceed(s, t, a))
  {
    var s1 := DoProceed(s, t, a);
    if !a.TryDeliver? {
      SameHistory(s, t, a);
      SameDeliveries(s, s1);
    } else {
      AppendFailed(s, s1, PcOf(s.m, t).p, Delivery(PcOf(s.m, t).id, PcOf(s.m, t).r));
    }
  }

  lemma DeliverOwn(s: Sys, t: Tid)
    requires t in s.reqs && RequestOk(s, t) && CanProceed(s, t, TryDeliver(t)) && CanTryDeliver(s.m, t)
    ensures RequestOk(DoProceed(s, t, TryDeliver(t)), t)
  {
  }

  lemma CancelRemoveOwn(s: Sys, t: Tid)
    requires t in s.reqs && RequestOk(s, t) && CanProceed(s, t, CancelRemove(t)) && Enabled(s.m, CancelRemove(t))
    ensures RequestOk(DoProceed(s, t, CancelRemove(t)), t)
  {
  }

  lemma ClaimOwn(s: Sys, t: Tid)
    requires t in s.reqs && RequestOk(s, t) && CanProceed(s, t, WaitClaim(t)) && CanClaim(s.m, t)
    ensures RequestOk(DoProceed(s, t, WaitClaim(t)), t)
  {
  }

  lemma ReceiveOwn(s: Sys, t: Tid)
    requires t in s.reqs && RequestOk(s, t) && CanProceed(s, t, WaitReceive(t)) && CanReceive(s.m, t)
    ensures RequestOk(DoProceed(s, t, WaitReceive(t)), t)
  {
  }

  lemma WaitCancelOwn(s: Sys, t: Tid, err: Failure)
    requires t in s.reqs && RequestOk(s, t) && CanProceed(s, t, WaitCancel(t, err)) && Enabled(s.m, WaitCancel(t, err))
    ensures RequestOk(DoProceed(s, t, WaitCancel(t, err)), t)
  {
  }

  lemma WaitRemoveOwn(s: Sys, t: Tid)
    requires t in s.reqs && RequestOk(s, t) && CanProceed(s, t, WaitRemove(t)) && Enabled(s.m, WaitRemove(t))
    ensures RequestOk(DoProceed(s, t, WaitRemove(t)), t)
  {
  }

  lemma DrainOwn(s: Sys, t: Tid)
    requires t in s.reqs && RequestOk(s, t) && CanProceed(s, t, WaitDrain(t)) && CanDrain(s.m, t)
    ensures RequestOk(DoProceed(s, t, WaitDrain(t)), t)
  {
  }

  lemma ResetOwn(s: Sys, t: Tid)
    requires t in s.reqs && RequestOk(s, t) && CanProceed(s, t, WaitReset(t)) && CanReset(s.m, t) && Anchored(s, t)
    ensures RequestOk(DoProceed(s, t, WaitReset(t)), t)
  {
  }

  lemma ProceedOwn(s: Sys, t: Tid, a: Step)
    requires CanProceed(s, t, a) && RequestOk(s, t) && Enabled(s.m, a) && Anchored(s, t)
    ensures RequestOk(DoProceed(s, t, a), t)
  {
    match a
    case TryDeliver(_) => DeliverOwn(s, t);
    case CancelRemove(_) => CancelRemoveOwn(s, t);
    case WaitClaim(_) => ClaimOwn(s, t);
    case WaitReceive(_) => ReceiveOwn(s, t);
    case WaitCancel(_, err) => WaitCancelOwn(s, t, err);
    case WaitRemove(_) => WaitRemoveOwn(s, t);
    case WaitDrain(_) => DrainOwn(s, t);
    case WaitReset(_) => ResetOwn(s, t);
  }

  /** Apart from the manager, only the stage of t's request may change. */
  ghost predicate OnlyStage(s: Sys, s1: Sys, t: Tid) {
    && s1.owner == s.owner && s1.net == s.net
    && t in s.reqs && t in s1.reqs && s1.reqs == s.reqs[t := s1.reqs[t]] && s1.reqs[t].ids == s.reqs[t].ids
  }

  lemma ProceedShape(s: Sys, t: Tid, a: Step)
    requires CanProceed(s, t, a) && Enabled(s.m, a)
    ensures OnlyStage(s, DoProceed(s, t, a), t)
  {
  }

  lemma ProceedParts(s: Sys, t: Tid, a: Step)
    requires RequestsOk(s) && DeliveriesOk(s) && CanProceed(s, t, a) && Enabled(s.m, a) && Anchored(s, t)
    ensures var s1 := DoProceed(s, t, a);
            OnlyStage(s, s1, t) && OneIDOneThread(s, s1, t) && RequestOk(s1, t) && DeliveriesOk(s1)
  {
    assert RequestOk(s, t);
    ProceedShape(s, t, a);
    ProceedFrame(s, t, a);
    ProceedDeliveries(s, t, a);
    ProceedOwn(s, t, a);
  }

  lemma ProceedOwners(s: Sys, s1: Sys, t: Tid)
    requires OwnersOk(s) && OnlyStage(s, s1, t) && OneIDOneThread(s, s1, t)
    ensures OwnersOk(s1)
  {
    assert forall i :: i in s1.m.tab.wait ==> i in s.m.tab.wait.Keys;
  }

  lemma ProceedAssemble(s: Sys, s1: Sys, t: Tid)
    requires GatewayOk(s) && Linked(s.m) && OnlyStage(s, s1, t) && OneIDOneThread(s, s1, t)
    requires RequestOk(s1, t) && DeliveriesOk(s1)
    ensures GatewayOk(s1)
  {
    ProceedOwners(s, s1, t);
    assert s.reqs[t].ID() in s.owner ==> s.owner[s.reqs[t].ID()] == t by {
      assert RequestOk(s, t);
    }
    Assemble(s, s1, t, {s.reqs[t].ID()});
  }

  lemma ProceedInv(s: Sys, t: Tid, a: Step)
    requires GatewayOk(s) && Linked(s.m) && CanProceed(s, t, a) && Enabled(s.m, a) && Anchored(s, t)
    ensures GatewayOk(DoProceed(s, t, a))
  {
    ProceedParts(s, t, a);
    ProceedAssemble(s, DoProceed(s, t, a), t);
  }

  // ---- Dispatcher workers and Close ----

  lemma WorkerMoves(s: Sys, s1: Sys, d: Tid)
    requires GatewayOk(s) && Linked(s.m) && s1 == s.(m := s1.m) && OnlyMoves(s.m, s1.m, d) && d !in s.reqs
    requires d in s1.m.pcs ==> WorkerOk(s1, s1.m.pcs[d])
    ensures GatewayOk(s1)
  {
    SameDeliveries(s, s1);
    Assemble(s, s1, d, {});
  }

  lemma ArriveInv(s: Sys, d: Tid, q: Packet, h: nat)
    requires GatewayOk(s) && Linked(s.m) && d !in s.reqs && q in s.net && !q.DataRequest?
    ensures GatewayOk(s.(m := DoFinish(s.m, d, q.txid, ReplyOf(q, h), Return, Some(h))))
  {
    LookupMoves(s.m, d, q.txid, ReplyOf(q, h), Return, Some(h));
    WorkerMoves(s, s.(m := DoFinish(s.m, d, q.txid, ReplyOf(q, h), Return, Some(h))), d);
  }

  lemma DispatchFrame(s: Sys, d: Tid)
    requires d !in s.reqs && CanTryDeliver(s.m, d)
    ensures var s1 := s.(m := DoTryDeliver(s.m, d));
            && Continues(s, s1, {}) && (OwnersOk(s) ==> OwnersOk(s1))
            && forall u :: u != d ==> PcOf(s1.m, u) == PcOf(s.m, u) && (u in s1.m.pcs <==> u in s.m.pcs)
  {
  }

  lemma DispatchInv(s: Sys, d: Tid)
    requires GatewayOk(s) && Linked(s.m) && d !in s.reqs && CanTryDeliver(s.m, d)
    ensures GatewayOk(s.(m := DoTryDeliver(s.m, d)))
  {
    var s1 := s.(m := DoTryDeliver(s.m, d));
    assert WorkerOk(s, s.m.pcs[d]);
    AppendFailed(s, s1, PcOf(s.m, d).p, Delivery(PcOf(s.m, d).id, PcOf(s.m, d).r));
    DispatchFrame(s, d);
    Assemble(s, s1, d, {});
  }

  lemma SnapshotFrame(s: Sys, c: Tid, ps: seq<Pid>)
    requires c !in s.reqs && CanSnapshot(s.m, c, ps)
    ensures var s1 := s.(m := DoSnapshot(s.m, c, ps));
            && Continues(s, s1, {}) && (OwnersOk(s) ==> OwnersOk(s1))
            && forall u :: u != c ==> PcOf(s1.m, u) == PcOf(s.m, u) && (u in s1.m.pcs <==> u in s.m.pcs)
  {
  }

  lemma CloseManagerInv(s: Sys, c: Tid, ps: seq<Pid>)
    requires GatewayOk(s) && Linked(s.m) && c !in s.reqs && CanSnapshot(s.m, c, ps)
    ensures GatewayOk(s.(m := DoSnapshot(s.m, c, ps)))
  {
    if !s.m.tab.closed {
      var s1 := s.(m := DoSnapshot(s.m, c, ps));
      SnapshotFrame(s, c, ps);
      SameDeliveries(s, s1);
      Assemble(s, s1, c, {});
    }
  }

  lemma CloseNextInv(s: Sys, c: Tid)
    requires GatewayOk(s) && Linked(s.m) && c !in s.reqs && CanCloseDeliver(s.m, c)
    ensures GatewayOk(s.(m := DoCloseDeliver(s.m, c)))
  {
    var s1 := s.(m := DoCloseDeliver(s.m, c));
    if s.m.owed == [] {
      SameDeliveries(s, s1);
    } else {
      AppendFailed(s, s1, s.m.owed[0], Delivery(s.m.objs[s.m.owed[0]].id, Failed(ManagerClosed)));
    }
    Assemble(s, s1, c, {});
  }

  // ---- Every event ----

  /** Nobody else is about to claim the waiter that a request thread releases. */
  lemma ReleaseHasNoClaimant(s: Sys, t: Tid)
    requires GatewayOk(s) && Linked(s.m) && Anchored(s, t) && t in s.reqs && CanReset(s.m, t)
    ensures NoClaimant(s.m, PcOf(s.m, t).p)
  {
    assert RequestOk(s, t);
    CurrentIDOwned(s, t);
    forall u | u in s.m.pcs
      ensures !(s.m.pcs[u].Claiming? && s.m.pcs[u].p == PcOf(s.m, t).p)
    {
      if u in s.reqs {
        assert RequestOk(s, u);
        if s.reqs[u].ids != [] {
          CurrentIDOwned(s, u);
        }
      } else {
        assert WorkerOk(s, s.m.pcs[u]);
      }
    }
  }

  lemma ProceedClean(s: Sys, t: Tid, a: Step)
    requires SysInv(s) && CanProceed(s, t, a) && Enabled(s.m, a)
    ensures Inv(Apply(s.m, a))
  {
    InvLinked(s.m);
    InvAnchored(s, t);
    if a.WaitReset? {
      ReleaseHasNoClaimant(s, t);
    }
    StepInv(s.m, a);
  }

  lemma CreateWithoutHolder(m: State, t: Tid, k: nat, p: Pid)
    requires Inv(m) && CanCreate(m, t, 0, k, p) && NoHolder(m, p) && NoRemover(m, IssuedID(m, 0, k))
    ensures Inv(DoCreate(m, 0, k, p))
  {
    CreateInv(m, t, 0, k, p);
  }

  lemma IssueClean(s: Sys, t: Tid, k: nat, p: Pid)
    requires OwnersOk(s) && RequestsOk(s) && WorkersOk(s) && FreshIssue(s, t, k, p)
    requires Inv(s.m) && CanCreate(s.m, t, 0, k, p) && NoHolder(s.m, p)
    ensures Inv(DoIssue(s, t, k, p).m)
  {
    assert NoRemover(s.m, IssuedID(s.m, 0, k)) by {
      FreshIDHasNoRemover(s, s.m.tab.nextID + k);
    }
    CreateWithoutHolder(s.m, t, k, p);
  }

  predicate LoopEvent(e: Event) {
    e.Start? || e.Abort? || e.Issue? || e.IssueClosed? || e.RouteFail? || e.Routed? || e.Send? || e.Resume? || e.Await?
  }

  lemma BeginCancelInv(s: Sys, t: Tid, q: Request, next: AfterCancel)
    requires SysInv(s) && t in s.reqs && (s.reqs[t].stage.Routing? || s.reqs[t].stage.Sending?)
    ensures Inv(BeginCancel(s, t, q, next).m)
  {
    InTheLoop(s, t);
    FinishInv(s.m, t, q.ID(), Failed(Canceled), ThenRemove, None);
  }

  lemma SendManagerInv(s: Sys, t: Tid, ok: bool, wrote: bool)
    requires SysInv(s) && t in s.reqs && s.reqs[t].stage.Sending?
    ensures Inv(DoSend(s, t, ok, wrote).m)
  {
    if !ok {
      FailedSendIsCancel(s, t, wrote);
      BeginCancelInv(s, t, AfterFailedSend(s.reqs[t]), NextAfterFailedSend(s.reqs[t]));
    }
  }

  lemma AwaitManagerInv(s: Sys, t: Tid)
    requires SysInv(s) && InStage(s, t, AboutToWait)
    ensures Inv(DoAwait(s, t).m)
  {
    InTheLoop(s, t);
    WaitLookupInv(s.m, t, s.reqs[t].ID());
  }

  lemma IssueManagerInv(s: Sys, t: Tid, k: nat, p: Pid)
    requires SysInv(s) && EventEnabled(s, Issue(t, k, p))
    ensures Inv(DoIssue(s, t, k, p).m)
  {
    CanCreateFresh(s, t, k, p);
    IssueClean(s, t, k, p);
  }

  lemma LoopManagerInv(s: Sys, e: Event)
    requires SysInv(s) && EventEnabled(s, e) && LoopEvent(e)
    ensures Inv(EventApply(s, e).m)
  {
    if e.Issue? {
      IssueManagerInv(s, e.t, e.k, e.p);
    } else if e.RouteFail? {
      BeginCancelInv(s, e.t, s.reqs[e.t], Stop(RouteFailed));
    } else if e.Send? {
      SendManagerInv(s, e.t, e.ok, e.wrote);
    } else if e.Await? {
      AwaitManagerInv(s, e.t);
    }
  }

  lemma OtherManagerInv(s: Sys, e: Event)
    requires SysInv(s) && EventEnabled(s, e) && !LoopEvent(e)
    ensures Inv(EventApply(s, e).m)
  {
    match e
    case Proceed(t, a) => ProceedClean(s, t, a);
    case Arrive(d, q, h) => FinishInv(s.m, d, q.txid, ReplyOf(q, h), Return, Some(h));
    case Dispatch(d) => TryDeliverInv(s.m, d);
    case CloseManager(c, ps) => SnapshotInv(s.m, c, ps);
    case CloseNext(c) => CloseDeliverInv(s.m, c);
    case _ =>
  }

  lemma StartOwn(s: Sys, t: Tid, messageId: nat, payload: seq<nat>)
    requires t !in s.reqs && t !in s.m.pcs
    ensures RequestOk(SetReq(s, t, Request(messageId, payload, 0, [], [], [], Begin)), t)
  {
  }

  lemma StartInv(s: Sys, t: Tid, messageId: nat, payload: seq<nat>)
    requires GatewayOk(s) && Linked(s.m) && t !in s.reqs && t !in s.m.pcs
    ensures GatewayOk(SetReq(s, t, Request(messageId, payload, 0, [], [], [], Begin)))
  {
    var s1 := SetReq(s, t, Request(messageId, payload, 0, [], [], [], Begin));
    StartOwn(s, t, messageId, payload);
    QuietEvent(s, s1, t);
  }

  lemma IssueClosedInv(s: Sys, t: Tid)
    requires GatewayOk(s) && Linked(s.m) && InStage(s, t, Begin)
    ensures GatewayOk(ToStage(s, t, Finished(Failure(TableFailed(ErrManagerClosed)))))
  {
    var stage := Finished(Failure(TableFailed(ErrManagerClosed)));
    OwnStage(s, t, stage);
    QuietEvent(s, ToStage(s, t, stage), t);
  }

  /** The loop up to the Send. */
  lemma LoopHeadOk(s: Sys, e: Event)
    requires GatewayOk(s) && Linked(s.m) && EventEnabled(s, e)
    requires e.Start? || e.Abort? || e.Issue? || e.IssueClosed? || e.RouteFail?
    ensures GatewayOk(EventApply(s, e))
  {
    match e
    case Start(t, messageId, payload) => StartInv(s, t, messageId, payload);
    case Abort(t) => AbortInv(s, t);
    case Issue(t, k, p) =>
      CanCreateFresh(s, t, k, p);
      IssueInv(s, t, k, p);
    case IssueClosed(t) => IssueClosedInv(s, t);
    case RouteFail(t) => RouteFailInv(s, t);
  }

  /** From the Send on. */
  lemma LoopTailOk(s: Sys, e: Event)
    requires GatewayOk(s) && Linked(s.m) && EventEnabled(s, e)
    requires e.Routed? || e.Send? || e.Resume? || e.Await?
    ensures GatewayOk(EventApply(s, e))
  {
    match e
    case Routed(t, node) => RoutedInv(s, t, node);
    case Send(t, ok, wrote) =>
      if ok {
        SentInv(s, t);
      } else {
        SendFailInv(s, t, wrote);
      }
    case Resume(t) => ResumeInv(s, t);
    case Await(t) => AwaitInv(s, t);
  }

  lemma LogicReplyInv(s: Sys, q: Packet, overload: bool)
    requires GatewayOk(s) && Linked(s.m) && q in s.net && q.DataRequest?
    ensures GatewayOk(DoLogicReply(s, q, overload))
  {
    assert PacketOk(s, q);
    NetGrows(s, if overload then ErrorReply(q.txid, ERROR_CODE_OVERLOAD) else HandleBusiness(q));
  }

  lemma OtherEventOk(s: Sys, e: Event)
    requires GatewayOk(s) && Linked(s.m) && EventEnabled(s, e) && !LoopEvent(e)
    requires e.Proceed? ==> Anchored(s, e.t)
    ensures GatewayOk(EventApply(s, e))
  {
    match e
    case Proceed(t, a) => ProceedInv(s, t, a);
    case LogicReply(q, overload) => LogicReplyInv(s, q, overload);
    case Arrive(d, q, h) => ArriveInv(s, d, q, h);
    case Dispatch(d) => DispatchInv(s, d);
    case CloseManager(c, ps) => CloseManagerInv(s, c, ps);
    case CloseNext(c) => CloseNextInv(s, c);
  }

  lemma LoopStaysFree(s: Sys, e: Event)
    requires Free(s.m) && EventEnabled(s, e) && LoopEvent(e)
    ensures Free(EventApply(s, e).m)
  {
  }

  lemma StaysFree(s: Sys, e: Event)
    requires Free(s.m) && EventEnabled(s, e) && !LoopEvent(e)
    ensures Free(EventApply(s, e).m)
  {
    if e.Proceed? {
      SameAcquiring(s.m, e.a);
    }
  }

  lemma EventGatewayOk(s: Sys, e: Event)
    requires GatewayOk(s) && Linked(s.m) && EventEnabled(s, e)
    requires e.Proceed? ==> Anchored(s, e.t)
    ensures GatewayOk(EventApply(s, e))
  {
    if e.Routed? || e.Send? || e.Resume? || e.Await? {
      LoopTailOk(s, e);
    } else if LoopEvent(e) {
      LoopHeadOk(s, e);
    } else {
      OtherEventOk(s, e);
    }
  }

  lemma EventInv(s: Sys, e: Event)
    requires SysInv(s) && EventEnabled(s, e)
    ensures SysInv(EventApply(s, e))
  {
    InvLinked(s.m);
    if e.Proceed? {
      InvAnchored(s, e.t);
    }
    EventGatewayOk(s, e);
    if LoopEvent(e) {
      LoopManagerInv(s, e);
      LoopStaysFree(s, e);
    } else {
      OtherManagerInv(s, e);
      StaysFree(s, e);
    }
  }
}
