/** A Request is never stuck and never goes on for ever: each of its events brings it closer to its
    end, no other event takes it back, and one of its own or of Close is always possible. */
module Completion {
  import opened Pendings
  import opened Protocol
  import opened Correlation
  import opened Gateway
  import opened GatewayInvariant
  import opened EndToEnd

  /** What the request does next once its context has ended. */
  function OwnEvent(s: Sys, t: Tid): Event
    requires t in s.reqs
  {
    match s.reqs[t].stage
    case Routing => RouteFail(t)
    case Sending(_) => Send(t, false, true)
    case AboutToWait => Await(t)
    case Cancelling(_) =>
      (match PcOf(s.m, t)
       case Delivering(_, _, _, _, _) => Proceed(t, TryDeliver(t))
       case Removing(_) => Proceed(t, CancelRemove(t))
       case _ => Resume(t))
    case Waiting =>
      (match PcOf(s.m, t)
       case Claiming(_, _) => Proceed(t, WaitClaim(t))
       case Selecting(_, _) => Proceed(t, WaitCancel(t, DeadlineExceeded))
       case Delivering(_, _, _, _, _) => Proceed(t, TryDeliver(t))
       case Receiving(_, _) => Proceed(t, WaitReceive(t))
       case Received(_, _, _) => Proceed(t, WaitRemove(t))
       case Draining(_, _, _) => Proceed(t, WaitDrain(t))
       case _ => Proceed(t, WaitReset(t)))
    case _ => Abort(t)
  }

  function CancelRank(pc: Pc): nat {
    match pc
    case Delivering(_, _, _, _, _) => 4
    case Removing(_) => 3
    case _ => 2
  }

  /** What a further attempt may still add. */
  const ATTEMPT_RANK := 10

  function WaitRank(pc: Pc): nat {
    match pc
    case Claiming(_, _) => 7
    case Selecting(_, _) => 6
    case Delivering(_, _, _, _, _) => 5
    case Receiving(_, _) => 4
    case Received(_, _, _) => 3
    case Draining(_, _, _) => 2
    case _ => 1
  }

  function StageRank(stage: Stage, pc: Pc): nat {
    match stage
    case Begin => 11
    case Routing => 10
    case Sending(_) => 9
    case AboutToWait => 8
    case Cancelling(_) => CancelRank(pc)
    case Waiting => WaitRank(pc)
    case Finished(_) => 0
  }

  function RankOf(q: Request, pc: Pc): nat {
    StageRank(q.stage, pc) + if q.stage.Finished? || q.attempt + 1 >= MAX_ROUTE_ATTEMPTS then 0 else ATTEMPT_RANK
  }

  /** At most this many events of the request are still to come. */
  function Rank(s: Sys, t: Tid): nat
    requires t in s.reqs
  {
    RankOf(s.reqs[t], PcOf(s.m, t))
  }

  predicate IsFinished(s: Sys, t: Tid) {
    t in s.reqs && s.reqs[t].stage.Finished?
  }

  /** The request sits at its second receive with an empty slot. */
  predicate OwedByClose(s: Sys, t: Tid) {
    PcOf(s.m, t).Receiving? && !CanReceive(s.m, t)
  }

  /** The event is enabled and brings the request closer to its end. */
  ghost predicate Advances(s: Sys, t: Tid)
    requires t in s.reqs
  {
    var e := OwnEvent(s, t);
    EventEnabled(s, e) && t in EventApply(s, e).reqs && Rank(EventApply(s, e), t) < Rank(s, t)
  }

  lemma DeliveryGoesOn(m: State, t: Tid)
    requires Inv(m) && PcOf(m, t).Delivering?
    ensures CanTryDeliver(m, t)
  {
    assert ThreadOk(m, PcOf(m, t));
    assert ObjOk(m, PcOf(m, t).p);
  }

  lemma PlaceIsUsable(s: Sys, t: Tid)
    requires SysInv(s) && t in s.reqs
    ensures PlaceOk(s.reqs[t], PcOf(s.m, t)) && SendsOk(s.reqs[t])
    ensures s.reqs[t].stage.Waiting? ==> PcOf(s.m, t).p in s.m.objs
    ensures PcOf(s.m, t).Delivering? ==> CanTryDeliver(s.m, t)
  {
    assert RequestOk(s, t);
    if PcOf(s.m, t).Delivering? {
      DeliveryGoesOn(s.m, t);
    } else {
      assert ThreadOk(s.m, PcOf(s.m, t));
    }
  }

  // ---- No event takes a request back ----

  predicate OfRequest(e: Event, t: Tid) {
    match e
    case Start(u, _, _) => u == t
    case Abort(u) => u == t
    case Issue(u, _, _) => u == t
    case IssueClosed(u) => u == t
    case RouteFail(u) => u == t
    case Routed(u, _) => u == t
    case Send(u, _, _) => u == t
    case Resume(u) => u == t
    case Await(u) => u == t
    case Proceed(u, _) => u == t
    case _ => false
  }

  lemma LoopHeadLowers(s: Sys, t: Tid, e: Event)
    requires t in s.reqs && EventEnabled(s, e) && OfRequest(e, t)
    requires e.Start? || e.Abort? || e.Issue? || e.IssueClosed? || e.RouteFail?
    ensures t in EventApply(s, e).reqs && Rank(EventApply(s, e), t) < Rank(s, t)
  {
  }

  lemma SendLowers(s: Sys, t: Tid, ok: bool, wrote: bool)
    requires t in s.reqs && EventEnabled(s, Send(t, ok, wrote))
    ensures t in DoSend(s, t, ok, wrote).reqs && Rank(DoSend(s, t, ok, wrote), t) < Rank(s, t)
  {
  }

  lemma LoopTailLowers(s: Sys, t: Tid, e: Event)
    requires t in s.reqs && SendsOk(s.reqs[t]) && EventEnabled(s, e) && OfRequest(e, t)
    requires e.Routed? || e.Resume? || e.Await?
    ensures t in EventApply(s, e).reqs && Rank(EventApply(s, e), t) < Rank(s, t)
  {
  }

  lemma CancelStepLowers(s: Sys, t: Tid, a: Step)
    requires t in s.reqs && PlaceOk(s.reqs[t], PcOf(s.m, t)) && EventEnabled(s, Proceed(t, a)) && s.reqs[t].stage.Cancelling?
    ensures t in DoProceed(s, t, a).reqs && Rank(DoProceed(s, t, a), t) < Rank(s, t)
  {
    assert a.TryDeliver? || a.CancelRemove?;
  }

  /** Up to the receive. */
  lemma WaitHeadLowers(s: Sys, t: Tid, a: Step)
    requires t in s.reqs && PlaceOk(s.reqs[t], PcOf(s.m, t)) && EventEnabled(s, Proceed(t, a)) && s.reqs[t].stage.Waiting?
    requires a.WaitClaim? || a.WaitCancel? || a.TryDeliver?
    ensures t in DoProceed(s, t, a).reqs && Rank(DoProceed(s, t, a), t) < Rank(s, t)
  {
  }

  lemma WaitStepLowers(s: Sys, t: Tid, a: Step)
    requires t in s.reqs && PlaceOk(s.reqs[t], PcOf(s.m, t)) && EventEnabled(s, Proceed(t, a)) && s.reqs[t].stage.Waiting?
    ensures t in DoProceed(s, t, a).reqs && Rank(DoProceed(s, t, a), t) < Rank(s, t)
  {
    assert !a.CancelRemove?;
    if a.WaitClaim? || a.WaitCancel? || a.TryDeliver? {
      WaitHeadLowers(s, t, a);
    }
  }

  /** Every event of a request lowers its rank. */
  lemma EveryOwnEventLowers(s: Sys, t: Tid, e: Event)
    requires SysInv(s) && t in s.reqs && EventEnabled(s, e) && OfRequest(e, t)
    ensures t in EventApply(s, e).reqs && Rank(EventApply(s, e), t) < Rank(s, t)
  {
    PlaceIsUsable(s, t);
    if e.Proceed? {
      if s.reqs[t].stage.Waiting? {
        WaitStepLowers(s, t, e.a);
      } else {
        CancelStepLowers(s, t, e.a);
      }
    } else if e.Send? {
      SendLowers(s, t, e.ok, e.wrote);
    } else if e.Routed? || e.Resume? || e.Await? {
      LoopTailLowers(s, t, e);
    } else {
      LoopHeadLowers(s, t, e);
    }
  }

  /** The request and its place in the waiter protocol are as before. */
  ghost predicate Untouched(s: Sys, s1: Sys, t: Tid) {
    t in s.reqs && t in s1.reqs && s1.reqs[t] == s.reqs[t] && PcOf(s1.m, t) == PcOf(s.m, t)
  }

  lemma OtherLoopLeaves(s: Sys, t: Tid, e: Event)
    requires t in s.reqs && EventEnabled(s, e) && LoopEvent(e) && !OfRequest(e, t)
    ensures Untouched(s, EventApply(s, e), t)
  {
  }

  lemma OtherProceedLeaves(s: Sys, t: Tid, e: Event)
    requires t in s.reqs && EventEnabled(s, e) && e.Proceed? && !OfRequest(e, t)
    ensures Untouched(s, EventApply(s, e), t)
  {
    OnlyActorMoves(s.m, e.a);
  }

  lemma WorkerLeaves(s: Sys, t: Tid, e: Event)
    requires t in s.reqs && EventEnabled(s, e) && !LoopEvent(e) && !e.Proceed?
    ensures Untouched(s, EventApply(s, e), t)
  {
  }

  /** Every other event leaves it alone. */
  lemma OthersKeepRank(s: Sys, t: Tid, e: Event)
    requires t in s.reqs && EventEnabled(s, e) && !OfRequest(e, t)
    ensures t in EventApply(s, e).reqs && Rank(EventApply(s, e), t) == Rank(s, t)
  {
    if LoopEvent(e) {
      OtherLoopLeaves(s, t, e);
    } else if e.Proceed? {
      OtherProceedLeaves(s, t, e);
    } else {
      WorkerLeaves(s, t, e);
    }
  }

  predicate OwesNoMore(m: State, m1: State) {
    m1.tab.closed && |m1.owed| <= |m.owed|
  }

  lemma LoopOwesNoMore(s: Sys, e: Event)
    requires EventEnabled(s, e) && LoopEvent(e) && s.m.tab.closed
    ensures OwesNoMore(s.m, EventApply(s, e).m)
  {
  }

  lemma StepOwesNoMore(m: State, a: Step)
    requires Enabled(m, a) && m.tab.closed && !a.CreateReset? && !a.CreateNext?
    ensures OwesNoMore(m, Apply(m, a))
  {
  }

  lemma WorkerOwesNoMore(s: Sys, e: Event)
    requires EventEnabled(s, e) && !LoopEvent(e) && !e.Proceed? && s.m.tab.closed
    ensures OwesNoMore(s.m, EventApply(s, e).m)
  {
  }

  /** Once the table is closed, what Close still owes never grows. */
  lemma OwedNeverGrows(s: Sys, e: Event)
    requires EventEnabled(s, e) && s.m.tab.closed
    ensures EventApply(s, e).m.tab.closed && |EventApply(s, e).m.owed| <= |s.m.owed|
  {
    if LoopEvent(e) {
      LoopOwesNoMore(s, e);
    } else if e.Proceed? {
      StepOwesNoMore(s.m, e.a);
    } else {
      WorkerOwesNoMore(s, e);
    }
  }

  function EventsOf(events: seq<Event>, t: Tid): nat {
    if events == [] then 0 else (if OfRequest(events[0], t) then 1 else 0) + EventsOf(events[1..], t)
  }

  /** In every run, however the other threads, the network and Close behave, a request takes at
      most as many events as its rank says. */
  lemma {:induction false} RequestIsBounded(s: Sys, events: seq<Event>, end: Sys, t: Tid)
    requires SysInv(s) && SysRun(s, events, end) && t in s.reqs
    ensures t in end.reqs && EventsOf(events, t) + Rank(end, t) <= Rank(s, t)
    decreases |events|
  {
    if events != [] {
      var e := events[0];
      var s1 := EventApply(s, e);
      assert SysInv(s1) by {
        EventInv(s, e);
      }
      assert t in s1.reqs && Rank(s1, t) + (if OfRequest(e, t) then 1 else 0) <= Rank(s, t) by {
        if OfRequest(e, t) {
          EveryOwnEventLowers(s, t, e);
        } else {
          OthersKeepRank(s, t, e);
        }
      }
      RequestIsBounded(s1, events[1..], end, t);
    }
  }

  /** Only its start brings a request into being. */
  lemma BeforeStart(s: Sys, e: Event, t: Tid)
    requires EventEnabled(s, e) && t !in s.reqs
    ensures if OfRequest(e, t) then t in EventApply(s, e).reqs && Rank(EventApply(s, e), t) <= ATTEMPT_RANK + StageRank(Begin, Idle)
            else t !in EventApply(s, e).reqs
  {
    assert OfRequest(e, t) ==> e.Start?;
  }

  /** So in any run a request takes at most 22 events. */
  lemma {:induction false} EventsPerRequest(s: Sys, events: seq<Event>, end: Sys, t: Tid)
    requires SysInv(s) && SysRun(s, events, end) && t !in s.reqs
    ensures EventsOf(events, t) <= 1 + ATTEMPT_RANK + StageRank(Begin, Idle)
    decreases |events|
  {
    if events != [] {
      var e := events[0];
      var s1 := EventApply(s, e);
      assert SysInv(s1) by {
        EventInv(s, e);
      }
      BeforeStart(s, e, t);
      if t in s1.reqs {
        RequestIsBounded(s1, events[1..], end, t);
      } else {
        EventsPerRequest(s1, events[1..], end, t);
      }
    }
  }

  /** Steps of the request itself, and of a Close under way. */
  predicate OwnOrClose(e: Event, t: Tid) {
    match e
    case Abort(u) => u == t
    case RouteFail(u) => u == t
    case Send(u, _, _) => u == t
    case Resume(u) => u == t
    case Await(u) => u == t
    case Proceed(u, _) => u == t
    case CloseNext(_) => true
    case _ => false
  }

  // ---- One of its own events, or of Close, is always possible ----

  lemma LoopIsEnabled(s: Sys, t: Tid)
    requires t in s.reqs && !s.reqs[t].stage.Cancelling? && !s.reqs[t].stage.Waiting? && !s.reqs[t].stage.Finished?
    ensures EventEnabled(s, OwnEvent(s, t))
  {
  }

  lemma CancelIsEnabled(s: Sys, t: Tid)
    requires t in s.reqs && s.reqs[t].stage.Cancelling? && PlaceOk(s.reqs[t], PcOf(s.m, t)) && Free(s.m)
    requires PcOf(s.m, t).Delivering? ==> CanTryDeliver(s.m, t)
    ensures EventEnabled(s, OwnEvent(s, t))
  {
  }

  lemma WaitIsEnabled(s: Sys, t: Tid)
    requires t in s.reqs && s.reqs[t].stage.Waiting? && PlaceOk(s.reqs[t], PcOf(s.m, t)) && !OwedByClose(s, t) && Free(s.m)
    requires PcOf(s.m, t).p in s.m.objs
    requires PcOf(s.m, t).Delivering? ==> CanTryDeliver(s.m, t)
    ensures EventEnabled(s, OwnEvent(s, t))
  {
  }

  lemma OwnEventIsOwn(s: Sys, t: Tid)
    requires t in s.reqs
    ensures OwnOrClose(OwnEvent(s, t), t) && OfRequest(OwnEvent(s, t), t)
  {
  }

  lemma OwnEventAdvances(s: Sys, t: Tid)
    requires SysInv(s) && t in s.reqs && !IsFinished(s, t) && !OwedByClose(s, t)
    ensures Advances(s, t)
  {
    PlaceIsUsable(s, t);
    if s.reqs[t].stage.Cancelling? {
      CancelIsEnabled(s, t);
    } else if s.reqs[t].stage.Waiting? {
      WaitIsEnabled(s, t);
    } else {
      LoopIsEnabled(s, t);
    }
    OwnEventIsOwn(s, t);
    EveryOwnEventLowers(s, t, OwnEvent(s, t));
  }

  lemma ClosingIsNoRequest(s: Sys, c: Tid)
    requires RequestsOk(s) && PcOf(s.m, c).Closing?
    ensures c !in s.reqs
  {
    assert c in s.reqs ==> RequestOk(s, c);
  }

  /** Close has a step to take, which leaves the request where it is. */
  lemma CloseAdvances(s: Sys, t: Tid)
    requires SysInv(s) && t in s.reqs && OwedByClose(s, t)
    ensures EventEnabled(s, CloseNext(s.m.closer))
    ensures var s1 := EventApply(s, CloseNext(s.m.closer));
            s1.reqs == s.reqs && Rank(s1, t) == Rank(s, t) && |s1.m.owed| < |s.m.owed|
  {
    AtSecondReceive(s.m, t);
    var c := s.m.closer;
    assert ObjOk(s.m, s.m.owed[0]);
    ClosingIsNoRequest(s, c);
  }

  /** The event is enabled, belongs to the request or to Close, and makes progress. */
  ghost predicate Useful(s: Sys, t: Tid, e: Event)
    requires t in s.reqs
  {
    && EventEnabled(s, e) && OwnOrClose(e, t) && t in EventApply(s, e).reqs
    && (Rank(EventApply(s, e), t) < Rank(s, t)
        || (Rank(EventApply(s, e), t) == Rank(s, t) && |EventApply(s, e).m.owed| < |s.m.owed|))
  }

  lemma OwnUseful(s: Sys, t: Tid)
    requires t in s.reqs && Advances(s, t)
    ensures Useful(s, t, OwnEvent(s, t))
  {
    OwnEventIsOwn(s, t);
    var e := OwnEvent(s, t);
    assert EventEnabled(s, e) && OwnOrClose(e, t);
  }

  lemma StepTowardsEnd(s: Sys, t: Tid) returns (e: Event)
    requires SysInv(s) && t in s.reqs && !IsFinished(s, t)
    ensures Useful(s, t, e)
  {
    if OwedByClose(s, t) {
      CloseAdvances(s, t);
      e := CloseNext(s.m.closer);
    } else {
      OwnEventAdvances(s, t);
      OwnUseful(s, t);
      e := OwnEvent(s, t);
    }
  }

  predicate AllOwnOrClose(events: seq<Event>, t: Tid) {
    forall e :: e in events ==> OwnOrClose(e, t)
  }

  lemma {:induction false} FinishFrom(s: Sys, t: Tid) returns (events: seq<Event>, end: Sys)
    requires SysInv(s) && t in s.reqs
    ensures SysRun(s, events, end) && IsFinished(end, t) && AllOwnOrClose(events, t)
    decreases Rank(s, t), |s.m.owed|
  {
    if IsFinished(s, t) {
      events, end := [], s;
    } else {
      var e := StepTowardsEnd(s, t);
      var s1 := EventApply(s, e);
      assert SysInv(s1) by {
        EventInv(s, e);
      }
      var rest;
      rest, end := FinishFrom(s1, t);
      events := SysRunCons(s, e, rest, end);
    }
  }

  /** From every reachable state a Request whose context has ended gets to its return by its own
      steps and those of a Close under way, whatever the network and the other threads do not do. */
  lemma RequestCanFinish(before: seq<Event>, s: Sys, t: Tid) returns (events: seq<Event>, end: Sys)
    requires SysRun(SYS_INIT, before, s) && t in s.reqs
    ensures SysRun(s, events, end) && IsFinished(end, t) && AllOwnOrClose(events, t)
  {
    ReachableSysInv(before, s);
    events, end := FinishFrom(s, t);
  }
}
