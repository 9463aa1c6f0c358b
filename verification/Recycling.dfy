/** When the gateway may recycle a waiter: exactly when nobody holds it any more. */
module Recycling {
  import opened Wrappers
  import opened Pendings
  import opened Managers
  import opened Protocol
  import opened Necessity
  import opened Gateway
  import opened GatewayInvariant
  import opened EndToEnd

  /** A Request that is about to return a foreign outcome, blocked for ever, or waiting on a
      released object. */
  ghost predicate RequestGoneWrong(s: Sys, t: Tid) {
    t in s.reqs && GoneWrong(s.m, t)
  }

  /** No run of the system from here makes a Request go wrong. */
  ghost predicate SysSafe(s: Sys) {
    forall events, end, t :: SysRun(s, events, end) ==> !RequestGoneWrong(end, t)
  }

  lemma SysInvSafe(s: Sys)
    requires SysInv(s)
    ensures SysSafe(s)
  {
    forall events, end, t | SysRun(s, events, end)
      ensures !RequestGoneWrong(end, t)
    {
      SysRunInv(s, events, end);
      InvNotWrong(end.m, t);
    }
  }

  /** Who still holds an object that may be recycled stands before a delivery, with an id that
      was issued earlier. */
  lemma HolderIsOlder(s: Sys, t: Tid, k: nat, p: Pid, u: Tid)
    requires SysInv(s) && FreshIssue(s, t, k, p) && u in s.m.pcs && Refers(s.m.pcs[u], p)
    ensures s.m.pcs[u].Delivering? && s.m.pcs[u].p == p && !s.m.pcs[u].after.ThenReceive?
    ensures s.m.pcs[u].id <= s.m.tab.nextID && u != t
    ensures u in s.reqs ==> s.reqs[u].stage.Cancelling?
  {
    assert ThreadOk(s.m, s.m.pcs[u]);
    if u in s.reqs {
      assert RequestOk(s, u);
      CurrentIDOwned(s, u);
    } else {
      assert WorkerOk(s, s.m.pcs[u]);
    }
  }

  lemma CreateSafeWithoutHolder(m: State, t: Tid, k: nat, p: Pid)
    requires Inv(m) && CanCreate(m, t, 0, k, p) && NoRemover(m, IssuedID(m, 0, k))
    ensures NoHolder(m, p) <==> Safe(Apply(m, CreateReset(t, 0, k, p)))
  {
    var a := CreateReset(t, 0, k, p);
    assert Clean(m, a) <==> NoHolder(m, p);
    if Clean(m, a) {
      CleanStepSafe(m, a);
    } else {
      UncleanNotSafe(m, a);
    }
  }

  lemma IssuedHasNoRemover(s: Sys, t: Tid, k: nat, p: Pid)
    requires GatewayOk(s) && FreshIssue(s, t, k, p)
    ensures NoRemover(s.m, IssuedID(s.m, 0, k))
  {
    FreshIDHasNoRemover(s, s.m.tab.nextID + k);
  }

  /** In the waiter protocol: the Create of a Request is safe if and only if nobody holds the object. */
  lemma IssueSafeInProtocol(s: Sys, t: Tid, k: nat, p: Pid)
    requires SysInv(s) && FreshIssue(s, t, k, p) && CanCreate(s.m, t, 0, k, p)
    ensures NoHolder(s.m, p) <==> Safe(Apply(s.m, CreateReset(t, 0, k, p)))
  {
    IssuedHasNoRemover(s, t, k, p);
    CreateSafeWithoutHolder(s.m, t, k, p);
  }

  // ---- A held object is harmful on the gateway's own events ----

  /** Request t has just been given object p, and p holds an outcome that was delivered for `old`. */
  predicate HoldsForeign(s: Sys, t: Tid, p: Pid, id: nat, old_: nat, r: Outcome) {
    && InStage(s, t, Routing) && PcOf(s.m, t).Idle?
    && s.reqs[t].ids != [] && s.reqs[t].ID() == id && id != old_
    && !s.m.tab.closed && s.reqs[t].ID() in s.m.tab.wait && s.m.tab.wait[s.reqs[t].ID()] == p
    && p in s.m.objs && s.m.objs[p].ch == Some(r) && !s.m.objs[p].waiting
    && p in s.m.deliveries && s.m.deliveries[p] == [Delivery(old_, r)]
  }

  /** The holder's next step on the waiter, after the waiter has been recycled. */
  lemma StaleDelivery(m: State, id: nat, k: nat, p: Pid, u: Tid)
    requires u in m.pcs && m.pcs[u].Delivering? && m.pcs[u].p == p && IssuedID(m, 0, k) == id
    ensures var m1 := DoCreate(m, 0, k, p);
            && CanTryDeliver(m1, u)
            && var m2 := DoTryDeliver(m1, u);
            && m2.tab == m1.tab && (forall v :: v != u ==> PcOf(m2, v) == PcOf(m, v))
            && id in m2.tab.wait && m2.tab.wait[id] == p && m2.tab.closed == m.tab.closed
            && p in m2.objs && m2.objs[p].ch == Some(m.pcs[u].r) && !m2.objs[p].waiting
            && p in m2.deliveries && m2.deliveries[p] == [Delivery(m.pcs[u].id, m.pcs[u].r)]
  {
  }

  function HolderEvent(s: Sys, u: Tid): Event {
    if u in s.reqs then Proceed(u, TryDeliver(u)) else Dispatch(u)
  }

  lemma HolderEventIs(s: Sys, u: Tid)
    requires CanTryDeliver(s.m, u) && (u in s.reqs ==> s.reqs[u].stage.Cancelling?)
    ensures EventEnabled(s, HolderEvent(s, u)) && EventApply(s, HolderEvent(s, u)) == s.(m := DoTryDeliver(s.m, u))
  {
  }

  lemma HolderDeliversForeign(s: Sys, t: Tid, k: nat, p: Pid, u: Tid) returns (e: Event)
    requires FreshIssue(s, t, k, p) && PcOf(s.m, t).Idle? && u != t
    requires u in s.m.pcs && s.m.pcs[u].Delivering? && s.m.pcs[u].p == p && s.m.pcs[u].id <= s.m.tab.nextID
    requires u in s.reqs ==> s.reqs[u].stage.Cancelling?
    ensures var s1 := DoIssue(s, t, k, p);
            && EventEnabled(s1, e)
            && HoldsForeign(EventApply(s1, e), t, p, s.m.tab.nextID + k, s.m.pcs[u].id, s.m.pcs[u].r)
  {
    var s1 := DoIssue(s, t, k, p);
    StaleDelivery(s.m, s.m.tab.nextID + k, k, p, u);
    HolderEventIs(s1, u);
    e := HolderEvent(s1, u);
  }

  /** The request goes on: it routes, sends, waits, claims the object and receives. */
  lemma SendsAndAwaits(s: Sys, t: Tid, p: Pid, id: nat, old_: nat, r: Outcome) returns (events: seq<Event>, end: Sys)
    requires HoldsForeign(s, t, p, id, old_, r)
    ensures SysRun(s, events, end) && InStage(end, t, Waiting)
    ensures PcOf(end.m, t) == Claiming(p, id) && end.m.objs == s.m.objs && end.m.deliveries == s.m.deliveries
  {
    var node := FreshNat(set n | n in s.reqs[t].exclude);
    var s1 := EventApply(s, Routed(t, node));
    var s2 := EventApply(s1, Send(t, true, true));
    assert s2.m == s.m && InStage(s2, t, AboutToWait) && s2.reqs[t].ID() == s.reqs[t].ID();
    end := EventApply(s2, Await(t));
    events := SysRunCons(s2, Await(t), [], end);
    events := SysRunCons(s1, Send(t, true, true), events, end);
    events := SysRunCons(s, Routed(t, node), events, end);
  }

  lemma ClaimsAndReceives(s: Sys, t: Tid, p: Pid, id: nat, old_: nat, r: Outcome) returns (events: seq<Event>, end: Sys)
    requires InStage(s, t, Waiting) && PcOf(s.m, t) == Claiming(p, id) && id != old_
    requires p in s.m.objs && s.m.objs[p].ch == Some(r) && !s.m.objs[p].waiting
    requires p in s.m.deliveries && s.m.deliveries[p] == [Delivery(old_, r)]
    ensures SysRun(s, events, end) && RequestGoneWrong(end, t) && PcOf(end.m, t) == Received(p, id, r)
  {
    var s1 := EventApply(s, Proceed(t, WaitClaim(t)));
    end := EventApply(s1, Proceed(t, WaitReceive(t)));
    events := SysRunCons(s1, Proceed(t, WaitReceive(t)), [], end);
    events := SysRunCons(s, Proceed(t, WaitClaim(t)), events, end);
    assert Misdelivered(end.m, t);
  }

  lemma ForeignIsReceived(s: Sys, t: Tid, p: Pid, id: nat, old_: nat, r: Outcome) returns (events: seq<Event>, end: Sys)
    requires HoldsForeign(s, t, p, id, old_, r)
    ensures SysRun(s, events, end) && RequestGoneWrong(end, t) && PcOf(end.m, t) == Received(p, id, r)
  {
    var xs, mid := SendsAndAwaits(s, t, p, id, old_, r);
    events, end := ClaimsAndReceives(mid, t, p, id, old_, r);
    events := SysRunAppend(s, xs, mid, events, end);
  }

  lemma HolderMisleadsRequest(s: Sys, t: Tid, k: nat, p: Pid, u: Tid) returns (events: seq<Event>, end: Sys)
    requires FreshIssue(s, t, k, p) && PcOf(s.m, t).Idle? && u != t
    requires u in s.m.pcs && s.m.pcs[u].Delivering? && s.m.pcs[u].p == p && s.m.pcs[u].id <= s.m.tab.nextID
    requires u in s.reqs ==> s.reqs[u].stage.Cancelling?
    ensures SysRun(DoIssue(s, t, k, p), events, end) && RequestGoneWrong(end, t)
    ensures PcOf(end.m, t) == Received(p, s.m.tab.nextID + k, s.m.pcs[u].r)
  {
    var s1 := DoIssue(s, t, k, p);
    var e := HolderDeliversForeign(s, t, k, p, u);
    events, end := ForeignIsReceived(EventApply(s1, e), t, p, s.m.tab.nextID + k, s.m.pcs[u].id, s.m.pcs[u].r);
    events := SysRunCons(s1, e, events, end);
  }

  lemma HeldObjectMisleadsRequest(s: Sys, t: Tid, k: nat, p: Pid, u: Tid) returns (events: seq<Event>, end: Sys)
    requires SysInv(s) && FreshIssue(s, t, k, p) && u in s.m.pcs && Refers(s.m.pcs[u], p)
    ensures SysRun(DoIssue(s, t, k, p), events, end) && RequestGoneWrong(end, t)
    ensures s.m.pcs[u].Delivering? && PcOf(end.m, t) == Received(p, s.m.tab.nextID + k, s.m.pcs[u].r)
  {
    HolderIsOlder(s, t, k, p, u);
    assert PcOf(s.m, t).Idle? by { assert RequestOk(s, t); }
    events, end := HolderMisleadsRequest(s, t, k, p, u);
  }

  /** Exactness at the gateway: wherever Requests that recycled no held object have led, a further
      Create that the manager allows is harmless in every such continuation if and only if no
      thread holds the object it recycles. */
  lemma IssueExactlyWhenSafe(before: seq<Event>, s: Sys, t: Tid, k: nat, p: Pid)
    requires SysRun(SYS_INIT, before, s)
    requires InStage(s, t, Begin) && CanCreate(s.m, t, 0, k, p) && s.m.tab.nextID + k < WORD
    ensures NoHolder(s.m, p) <==> SysSafe(DoIssue(s, t, k, p))
  {
    ReachableSysInv(before, s);
    CanCreateFresh(s, t, k, p);
    if NoHolder(s.m, p) {
      EventInv(s, Issue(t, k, p));
      SysInvSafe(DoIssue(s, t, k, p));
    } else {
      assert p !in s.m.owed;
      var u :| u in s.m.pcs && Refers(s.m.pcs[u], p);
      var events, end := HeldObjectMisleadsRequest(s, t, k, p, u);
      assert RequestGoneWrong(end, t);
    }
  }
}
