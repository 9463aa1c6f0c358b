/** The race on a recycled waiter as a run of the whole gateway, on its own events and issued ids. */
module GatewayRace {
  import opened Wrappers
  import opened Pendings
  import opened Managers
  import opened Protocol
  import opened Gateway
  import opened GatewayInvariant
  import opened EndToEnd
  import opened Recycling

  const QUESTION := DataRequest(1, 1001, [7])
  const ANSWER := DataResponse(1, 1001, [7])
  const FIRST := Reply(Envelope(1, 1, 1001, [7]))
  const DUPLICATE := Reply(Envelope(2, 1, 1001, [7]))

  lemma Claims(s4: Sys) returns (events: seq<Event>, s: Sys)
    requires s4.m.tab == Table(1, false, map[1 := 0]) && s4.m.objs == map[0 := PendingState(1, false, false, None)]
    requires s4.m.pcs == map[] && Free(s4.m)
    requires s4.reqs.Keys == {0} && s4.reqs[0].stage == AboutToWait && s4.reqs[0].ids == [1]
    ensures SysRun(s4, events, s)
    ensures s.m == s4.m.(objs := map[0 := PendingState(1, false, true, None)], pcs := map[0 := Selecting(0, 1)])
    ensures s.reqs.Keys == {0} && s.reqs[0].stage == Waiting && s.net == s4.net
  {
    var s5 := EventApply(s4, Await(0));
    assert s5.m.pcs == map[0 := Claiming(0, 1)] && s5.m.objs == s4.m.objs;
    s := EventApply(s5, Proceed(0, WaitClaim(0)));
    events := SysRunCons(s5, Proceed(0, WaitClaim(0)), [], s);
    events := SysRunCons(s4, Await(0), events, s);
  }

  lemma SendsAndClaims(s2: Sys) returns (events: seq<Event>, s: Sys)
    requires s2.m.tab == Table(1, false, map[1 := 0]) && s2.m.objs == map[0 := PendingState(1, false, false, None)]
    requires s2.m.pcs == map[] && Free(s2.m)
    requires s2.reqs == map[0 := Request(1001, [7], 0, [1], [], [], Routing)]
    ensures SysRun(s2, events, s)
    ensures s.m == s2.m.(objs := map[0 := PendingState(1, false, true, None)], pcs := map[0 := Selecting(0, 1)])
    ensures s.reqs.Keys == {0} && s.reqs[0].stage == Waiting && QUESTION in s.net
  {
    var s3 := EventApply(s2, Routed(0, 9));
    var s4 := EventApply(s3, Send(0, true, true));
    assert s4.m == s2.m && QUESTION in s4.net;
    events, s := Claims(s4);
    events := SysRunCons(s3, Send(0, true, true), events, s);
    events := SysRunCons(s2, Routed(0, 9), events, s);
  }

  /** Request 0 is issued id 1 on object 0, sends and claims its waiter. */
  lemma Asks() returns (events: seq<Event>, s: Sys)
    ensures SysRun(SYS_INIT, events, s)
    ensures s.m.tab == Table(1, false, map[1 := 0]) && s.m.objs == map[0 := PendingState(1, false, true, None)]
    ensures s.m.pcs == map[0 := Selecting(0, 1)] && s.m.used == {} && Free(s.m)
    ensures s.reqs.Keys == {0} && s.reqs[0].stage == Waiting && QUESTION in s.net
  {
    assert Advance(0, 1) == 1 && StopsAfter(SYS_INIT.m.tab, 1);
    var s1 := EventApply(SYS_INIT, Start(0, 1001, [7]));
    var s2 := EventApply(s1, Issue(0, 1, 0));
    assert s2.reqs[0].ids == [] + [1] == [1];
    assert s2.reqs[0] == Request(1001, [7], 0, [1], [], [], Routing);
    assert s2.reqs == map[0 := Request(1001, [7], 0, [1], [], [], Routing)];
    assert s2.m.tab == Table(1, false, map[1 := 0]);
    assert s2.m.objs == map[0 := Cleared(1)] && s2.m.pcs == map[];
    events, s := SendsAndClaims(s2);
    events := SysRunCons(s1, Issue(0, 1, 0), events, s);
    events := SysRunCons(SYS_INIT, Start(0, 1001, [7]), events, s);
  }

  /** A dispatcher worker looks up the waiter for the answer. */
  lemma Arrives(s: Sys, d: Tid, r: Outcome)
    requires s.m.tab == Table(1, false, map[1 := 0]) && ANSWER in s.net
    requires Free(s.m) && d !in s.reqs && d !in s.m.pcs && d !in s.m.used && r == Reply(Envelope(d, 1, 1001, [7]))
    ensures EventEnabled(s, Arrive(d, ANSWER, d))
    ensures EventApply(s, Arrive(d, ANSWER, d))
         == s.(m := s.m.(used := s.m.used + {d}, pcs := s.m.pcs[d := Delivering(0, 1, r, Return, Some(d))]))
  {
  }

  lemma FirstDelivers(s: Sys)
    requires s.m.objs == map[0 := PendingState(1, false, true, None)] && 1 !in s.reqs
    requires 1 in s.m.pcs && s.m.pcs[1] == Delivering(0, 1, FIRST, Return, Some(1))
    ensures EventEnabled(s, Dispatch(1)) && EventApply(s, Dispatch(1)) == s.(m := DoTryDeliver(s.m, 1))
    ensures var m1 := DoTryDeliver(s.m, 1);
            && m1.objs == map[0 := PendingState(1, true, true, Some(FIRST))] && m1.pcs == s.m.pcs[1 := Idle]
            && m1.tab == s.m.tab && m1.pool == s.m.pool
  {
  }

  lemma DuplicateArrives(s2: Sys) returns (events: seq<Event>, end: Sys)
    requires s2.m.tab == Table(1, false, map[1 := 0]) && s2.m.objs == map[0 := PendingState(1, false, true, None)]
    requires s2.m.pcs == map[0 := Selecting(0, 1), 1 := Delivering(0, 1, FIRST, Return, Some(1))]
    requires s2.m.used == {1} && Free(s2.m) && s2.reqs.Keys == {0} && ANSWER in s2.net
    ensures SysRun(s2, events, end)
    ensures end.m.tab == s2.m.tab && Free(end.m) && end.m.pool == s2.m.pool && end.reqs == s2.reqs
    ensures end.m.objs == map[0 := PendingState(1, true, true, Some(FIRST))]
    ensures end.m.pcs == map[0 := Selecting(0, 1), 1 := Idle, 2 := Delivering(0, 1, DUPLICATE, Return, Some(2))]
  {
    Arrives(s2, 2, DUPLICATE);
    var s3 := s2.(m := s2.m.(used := s2.m.used + {2}, pcs := s2.m.pcs[2 := Delivering(0, 1, DUPLICATE, Return, Some(2))]));
    FirstDelivers(s3);
    end := s3.(m := DoTryDeliver(s3.m, 1));
    events := SysRunCons(s3, Dispatch(1), [], end);
    events := SysRunCons(s2, Arrive(2, ANSWER, 2), events, end);
  }

  /** A Logic node answers; workers 1 and 2 look up the waiter for the answer and its duplicate,
      and worker 1 delivers. */
  lemma AnsweredTwice(s: Sys) returns (events: seq<Event>, end: Sys)
    requires s.m.tab == Table(1, false, map[1 := 0]) && s.m.objs == map[0 := PendingState(1, false, true, None)]
    requires s.m.pcs == map[0 := Selecting(0, 1)] && s.m.used == {} && Free(s.m) && s.reqs.Keys == {0} && QUESTION in s.net
    ensures SysRun(s, events, end)
    ensures end.m.tab == s.m.tab && Free(end.m) && end.m.pool == s.m.pool && end.reqs == s.reqs
    ensures end.m.objs == map[0 := PendingState(1, true, true, Some(FIRST))]
    ensures end.m.pcs == map[0 := Selecting(0, 1), 1 := Idle, 2 := Delivering(0, 1, DUPLICATE, Return, Some(2))]
  {
    var s1 := EventApply(s, LogicReply(QUESTION, false));
    assert ANSWER in s1.net && s1.m == s.m;
    Arrives(s1, 1, FIRST);
    var s2 := EventApply(s1, Arrive(1, ANSWER, 1));
    events, end := DuplicateArrives(s2);
    events := SysRunCons(s1, Arrive(1, ANSWER, 1), events, end);
    events := SysRunCons(s, LogicReply(QUESTION, false), events, end);
  }

  lemma Releases(s: Sys) returns (events: seq<Event>, end: Sys)
    requires 0 in s.m.objs && 0 in s.m.pcs && s.m.pcs[0] == Draining(0, 1, FIRST)
    requires s.reqs.Keys == {0} && s.reqs[0].stage == Waiting
    ensures SysRun(s, events, end)
    ensures end.m.tab == s.m.tab && end.m.acquiring == s.m.acquiring && end.m.pool == s.m.pool + {0} && end.m.pcs == s.m.pcs[0 := Idle]
    ensures end.reqs.Keys == {0} && end.reqs[0].stage == Finished(Success(FIRST.env))
  {
    var a3, a4 := Proceed(0, WaitDrain(0)), Proceed(0, WaitReset(0));
    var s3 := EventApply(s, a3);
    assert s3.m.pcs == s.m.pcs[0 := Resetting(0, 1, FIRST)] && s3.reqs == s.reqs;
    end := EventApply(s3, a4);
    events := SysRunCons(s3, a4, [], end);
    events := SysRunCons(s, a3, events, end);
  }

  /** A receive or remove of request 0 changes the manager only. */
  lemma PlainStep(s: Sys, a: Step)
    requires 0 in s.reqs && s.reqs[0].stage == Waiting && Enabled(s.m, a)
    requires a == WaitReceive(0) || a == WaitRemove(0)
    ensures EventEnabled(s, Proceed(0, a)) && EventApply(s, Proceed(0, a)) == s.(m := Apply(s.m, a))
  {
  }

  lemma RemovesAndReleases(s: Sys) returns (events: seq<Event>, end: Sys)
    requires s.m.tab == Table(1, false, map[1 := 0]) && 0 in s.m.objs
    requires 0 in s.m.pcs && s.m.pcs[0] == Received(0, 1, FIRST)
    requires s.reqs.Keys == {0} && s.reqs[0].stage == Waiting && Free(s.m)
    ensures SysRun(s, events, end)
    ensures end.m.tab == Table(1, false, map[]) && Free(end.m) && end.m.pool == s.m.pool + {0}
    ensures end.m.pcs == s.m.pcs[0 := Idle] && end.reqs.Keys == {0}
    ensures end.reqs[0].stage == Finished(Success(FIRST.env))
  {
    PlainStep(s, WaitRemove(0));
    var s1 := s.(m := DoWaitRemove(s.m, 0));
    assert s1.m.pcs == s.m.pcs[0 := Draining(0, 1, FIRST)] && s1.m.tab == Table(1, false, map[]);
    events, end := Releases(s1);
    events := SysRunCons(s, Proceed(0, WaitRemove(0)), events, end);
  }

  /** Request 0 returns, and its waiter goes back to the pool. */
  lemma ReturnsAndReleases(s: Sys) returns (events: seq<Event>, end: Sys)
    requires s.m.tab == Table(1, false, map[1 := 0]) && s.m.objs == map[0 := PendingState(1, true, true, Some(FIRST))]
    requires 0 in s.m.pcs && s.m.pcs[0] == Selecting(0, 1)
    requires s.reqs.Keys == {0} && s.reqs[0].stage == Waiting && Free(s.m)
    ensures SysRun(s, events, end)
    ensures end.m.tab == Table(1, false, map[]) && Free(end.m) && end.m.pool == s.m.pool + {0}
    ensures end.m.pcs == s.m.pcs[0 := Idle] && end.reqs.Keys == {0}
    ensures end.reqs[0].stage == Finished(Success(FIRST.env))
  {
    PlainStep(s, WaitReceive(0));
    var s1 := s.(m := DoReceive(s.m, 0));
    assert s1.m.pcs == s.m.pcs[0 := Received(0, 1, FIRST)];
    events, end := RemovesAndReleases(s1);
    events := SysRunCons(s, Proceed(0, WaitReceive(0)), events, end);
  }

  /** While worker 2 still holds the released waiter for the duplicate, request 3 starts. */
  lemma HeldWhileReleased() returns (events: seq<Event>, s: Sys)
    ensures SysRun(SYS_INIT, events, s)
    ensures InStage(s, 3, Begin) && CanCreate(s.m, 3, 0, 1, 0) && s.m.tab.nextID == 1
    ensures 2 in s.m.pcs && s.m.pcs[2] == Delivering(0, 1, DUPLICATE, Return, Some(2))
  {
    var e1, s1 := Asks();
    var e2, s2 := AnsweredTwice(s1);
    var e3, s3 := ReturnsAndReleases(s2);
    s := EventApply(s3, Start(3, 1001, [8]));
    var e4 := SysRunCons(s3, Start(3, 1001, [8]), [], s);
    events := SysRunAppend(s2, e3, s3, e4, s);
    events := SysRunAppend(s1, e2, s2, events, s);
    events := SysRunAppend(SYS_INIT, e1, s1, events, s);
    assert Advance(1, 1) == 2 && StopsAfter(s.m.tab, 1);
  }

  /** If request 3 then takes that waiter, a run of the gateway lets it return the duplicate of
      the answer to request 0. */
  lemma GatewayReturnsForeignAnswer() returns (events: seq<Event>, s: Sys, more: seq<Event>, end: Sys)
    ensures SysRun(SYS_INIT, events, s)
    ensures InStage(s, 3, Begin) && CanCreate(s.m, 3, 0, 1, 0) && s.m.tab.nextID + 1 < WORD && !NoHolder(s.m, 0)
    ensures SysRun(DoIssue(s, 3, 1, 0), more, end) && RequestGoneWrong(end, 3)
    ensures PcOf(end.m, 3) == Received(0, 2, DUPLICATE)
  {
    events, s := HeldWhileReleased();
    ReachableSysInv(events, s);
    CanCreateFresh(s, 3, 1, 0);
    more, end := HeldObjectMisleadsRequest(s, 3, 1, 0, 2);
  }
}
