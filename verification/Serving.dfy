/** A Request can succeed: from the head of its loop, on an open manager, one attempt whose Send
    goes through and whose answer arrives ends in Success; and a failed Send leads back there. */
module Serving {
  import opened Wrappers
  import opened Pendings
  import opened Managers
  import opened Protocol
  import opened Gateway
  import opened GatewayInvariant
  import opened EndToEnd
  import opened Completion
  import opened Results

  /** The request holds object p under its current id, unclaimed and empty. */
  predicate Holding(s: Sys, t: Tid, p: Pid, id: nat, stage: Stage) {
    && InStage(s, t, stage) && s.reqs[t].ids != [] && s.reqs[t].ID() == id
    && PcOf(s.m, t).Idle? && Free(s.m) && !s.m.tab.closed
    && id in s.m.tab.wait && s.m.tab.wait[id] == p && p in s.m.objs && s.m.objs[p] == Cleared(id)
  }

  /** The request is as it was, but for its place in the attempt. */
  predicate SameAttempt(q: Request, q1: Request) {
    q1.messageId == q.messageId && q1.payload == q.payload && q1.attempt == q.attempt && q1.ids == q.ids
  }

  // ---- Create ----

  lemma FreshIsFree(m: State, p: Pid)
    requires Inv(m) && p !in m.objs
    ensures NoHolder(m, p)
  {
    forall u | u in m.pcs
      ensures !Refers(m.pcs[u], p)
    {
      assert ThreadOk(m, m.pcs[u]);
    }
  }

  lemma NextIDIsFree(s: Sys)
    requires OwnersOk(s) && s.m.tab.nextID + 1 < WORD
    ensures Advance(s.m.tab.nextID, 1) == s.m.tab.nextID + 1 && StopsAfter(s.m.tab, 1)
  {
  }

  /** The next number is free, and so is a new object. */
  lemma CanIssue(s: Sys, t: Tid, p: Pid)
    requires InStage(s, t, Begin) && PcOf(s.m, t).Idle? && Free(s.m) && !s.m.tab.closed && s.m.tab.nextID + 1 < WORD
    requires StopsAfter(s.m.tab, 1) && p !in s.m.objs && NoHolder(s.m, p)
    ensures EventEnabled(s, Issue(t, 1, p))
  {
  }

  lemma IssueHolds(s: Sys, t: Tid, p: Pid)
    requires InStage(s, t, Begin) && PcOf(s.m, t).Idle? && Free(s.m) && !s.m.tab.closed
    requires Advance(s.m.tab.nextID, 1) == s.m.tab.nextID + 1
    ensures Holding(DoIssue(s, t, 1, p), t, p, s.m.tab.nextID + 1, Routing)
    ensures DoIssue(s, t, 1, p).reqs[t] == s.reqs[t].(ids := s.reqs[t].ids + [s.m.tab.nextID + 1], stage := Routing)
  {
  }

  lemma Issues(s: Sys, t: Tid) returns (p: Pid, s1: Sys)
    requires SysInv(s) && InStage(s, t, Begin) && !s.m.tab.closed && s.m.tab.nextID + 1 < WORD
    ensures EventEnabled(s, Issue(t, 1, p)) && s1 == EventApply(s, Issue(t, 1, p)) && s1 == DoIssue(s, t, 1, p)
    ensures Holding(s1, t, p, s.m.tab.nextID + 1, Routing)
    ensures s1.reqs[t] == s.reqs[t].(ids := s.reqs[t].ids + [s.m.tab.nextID + 1], stage := Routing)
  {
    p := FreshNat(s.m.objs.Keys);
    assert PcOf(s.m, t).Idle? by { assert RequestOk(s, t); }
    NextIDIsFree(s);
    FreshIsFree(s.m, p);
    CanIssue(s, t, p);
    IssueHolds(s, t, p);
    s1 := DoIssue(s, t, 1, p);
  }

  // ---- Route, Send and the first half of Wait ----

  lemma SendsOff(s: Sys, t: Tid, p: Pid, id: nat) returns (events: seq<Event>, s1: Sys)
    requires Holding(s, t, p, id, Routing)
    ensures SysRun(s, events, s1) && s1.m == s.m && Holding(s1, t, p, id, AboutToWait)
    ensures DataRequest(id, s.reqs[t].messageId, s.reqs[t].payload) in s1.net
    ensures SameAttempt(s.reqs[t], s1.reqs[t]) && s1.reqs == s.reqs[t := s1.reqs[t]]
  {
    var node := FreshNat(set n | n in s.reqs[t].exclude);
    var mid := EventApply(s, Routed(t, node));
    s1 := EventApply(mid, Send(t, true, true));
    events := SysRunCons(mid, Send(t, true, true), [], s1);
    events := SysRunCons(s, Routed(t, node), events, s1);
  }

  /** The request is in its select. */
  predicate Listening(s: Sys, t: Tid, p: Pid, id: nat) {
    && InStage(s, t, Waiting) && s.reqs[t].ids != [] && s.reqs[t].ID() == id
    && PcOf(s.m, t) == Selecting(p, id) && Free(s.m) && !s.m.tab.closed
    && id in s.m.tab.wait && s.m.tab.wait[id] == p
    && p in s.m.objs && s.m.objs[p].waiting
  }

  lemma StartsToWait(s: Sys, t: Tid, p: Pid, id: nat) returns (events: seq<Event>, s1: Sys)
    requires Holding(s, t, p, id, AboutToWait)
    ensures SysRun(s, events, s1) && Listening(s1, t, p, id) && s1.net == s.net
    ensures s1.m.objs[p] == PendingState(id, false, true, None)
    ensures SameAttempt(s.reqs[t], s1.reqs[t]) && s1.reqs == s.reqs[t := s1.reqs[t]]
  {
    var mid := EventApply(s, Await(t));
    s1 := EventApply(mid, Proceed(t, WaitClaim(t)));
    events := SysRunCons(mid, Proceed(t, WaitClaim(t)), [], s1);
    events := SysRunCons(s, Await(t), events, s1);
  }

  // ---- The answer ----

  lemma NodeAnswers(s: Sys, t: Tid, id: nat) returns (events: seq<Event>, s1: Sys)
    requires t in s.reqs && DataRequest(id, s.reqs[t].messageId, s.reqs[t].payload) in s.net
    requires s.reqs[t].messageId in {1001, 1002, 1003}
    ensures SysRun(s, events, s1) && s1 == s.(net := s1.net)
    ensures DataResponse(id, s.reqs[t].messageId, s.reqs[t].payload) in s1.net
  {
    var q := DataRequest(id, s.reqs[t].messageId, s.reqs[t].payload);
    s1 := EventApply(s, LogicReply(q, false));
    events := SysRunCons(s, LogicReply(q, false), [], s1);
  }

  lemma Arrives(s: Sys, d: Tid, q: Packet, h: nat)
    requires q in s.net && q.DataResponse? && q.txid != 0 && d !in s.reqs && d !in s.m.pcs && h !in s.m.used
    requires Free(s.m) && !s.m.tab.closed && q.txid in s.m.tab.wait
    ensures EventEnabled(s, Arrive(d, q, h))
    ensures EventApply(s, Arrive(d, q, h))
         == s.(m := s.m.(used := s.m.used + {h},
                         pcs := s.m.pcs[d := Delivering(s.m.tab.wait[q.txid], q.txid, ReplyOf(q, h), Return, Some(h))]))
  {
  }

  /** A dispatcher worker hands the response to the waiter. */
  lemma AnswerArrives(s: Sys, t: Tid, p: Pid, id: nat, messageId: nat, payload: seq<nat>)
    returns (events: seq<Event>, s1: Sys, env: Envelope)
    requires Listening(s, t, p, id) && s.m.objs[p] == PendingState(id, false, true, None)
    requires DataResponse(id, messageId, payload) in s.net && id != 0
    ensures SysRun(s, events, s1) && Listening(s1, t, p, id) && s1.reqs == s.reqs
    ensures env.txid == id && env.messageId == messageId && env.payload == payload
    ensures s1.m.objs[p] == PendingState(id, true, true, Some(Reply(env)))
  {
    var d := FreshNat(s.reqs.Keys + s.m.pcs.Keys);
    var h := FreshNat(s.m.used);
    env := Envelope(h, id, messageId, payload);
    var q := DataResponse(id, messageId, payload);
    var mid := s.(m := s.m.(used := s.m.used + {h}, pcs := s.m.pcs[d := Delivering(p, id, Reply(env), Return, Some(h))]));
    Arrives(s, d, q, h);
    s1 := EventApply(mid, Dispatch(d));
    events := SysRunCons(mid, Dispatch(d), [], s1);
    events := SysRunCons(s, Arrive(d, q, h), events, s1);
  }

  // ---- The second half of Wait ----

  lemma ReceivesAndRemoves(s: Sys, t: Tid, p: Pid, id: nat, r: Outcome) returns (events: seq<Event>, s1: Sys)
    requires Listening(s, t, p, id) && s.m.objs[p].ch == Some(r)
    ensures SysRun(s, events, s1) && s1.reqs == s.reqs
    ensures PcOf(s1.m, t) == Draining(p, id, r) && p in s1.m.objs
  {
    var a, b := Proceed(t, WaitReceive(t)), Proceed(t, WaitRemove(t));
    var mid := EventApply(s, a);
    s1 := EventApply(mid, b);
    events := SysRunCons(mid, b, [], s1);
    events := SysRunCons(s, a, events, s1);
  }

  lemma ReleasesAndReturns(s: Sys, t: Tid, p: Pid, id: nat, r: Outcome) returns (events: seq<Event>, s1: Sys)
    requires InStage(s, t, Waiting) && PcOf(s.m, t) == Draining(p, id, r) && p in s.m.objs
    ensures SysRun(s, events, s1) && t in s1.reqs && s1.reqs[t] == s.reqs[t].(stage := Finished(ResultOf(r)))
  {
    var a, b := Proceed(t, WaitDrain(t)), Proceed(t, WaitReset(t));
    var mid := EventApply(s, a);
    s1 := EventApply(mid, b);
    events := SysRunCons(mid, b, [], s1);
    events := SysRunCons(s, a, events, s1);
  }

  // ---- One attempt ----

  lemma AsksAndListens(s: Sys, t: Tid) returns (events: seq<Event>, s1: Sys, p: Pid)
    requires SysInv(s) && InStage(s, t, Begin) && !s.m.tab.closed && s.m.tab.nextID + 1 < WORD
    ensures SysRun(s, events, s1)
    ensures var id := s.m.tab.nextID + 1;
            && Listening(s1, t, p, id) && s1.m.objs[p] == PendingState(id, false, true, None)
            && SameAttempt(s.reqs[t].(ids := s.reqs[t].ids + [id]), s1.reqs[t])
            && DataRequest(id, s.reqs[t].messageId, s.reqs[t].payload) in s1.net
  {
    var id, s0 := s.m.tab.nextID + 1, s;
    p, s0 := Issues(s, t);
    var xs, mid := SendsOff(s0, t, p, id);
    var ys;
    ys, s1 := StartsToWait(mid, t, p, id);
    events := SysRunAppend(s0, xs, mid, ys, s1);
    events := SysRunCons(s, Issue(t, 1, p), events, s1);
  }

  lemma IsAnswered(s: Sys, t: Tid, p: Pid, id: nat) returns (events: seq<Event>, end: Sys)
    requires Listening(s, t, p, id) && s.m.objs[p] == PendingState(id, false, true, None) && id != 0
    requires DataRequest(id, s.reqs[t].messageId, s.reqs[t].payload) in s.net && s.reqs[t].messageId in {1001, 1002, 1003}
    ensures SysRun(s, events, end) && t in end.reqs && SameAttempt(s.reqs[t], end.reqs[t])
    ensures end.reqs[t].stage.Finished? && end.reqs[t].stage.res.Success?
  {
    var q := s.reqs[t];
    var e1, s1 := NodeAnswers(s, t, id);
    var e2, s2, env := AnswerArrives(s1, t, p, id, q.messageId, q.payload);
    var e3, s3 := ReceivesAndRemoves(s2, t, p, id, Reply(env));
    var e4;
    e4, end := ReleasesAndReturns(s3, t, p, id, Reply(env));
    events := SysRunAppend(s2, e3, s3, e4, end);
    events := SysRunAppend(s1, e2, s2, events, end);
    events := SysRunAppend(s, e1, s1, events, end);
  }

  /** From every reachable state with the manager open and an id left below the wrap-around, a
      Request at the head of its loop can go on to succeed in that attempt. */
  lemma AttemptCanSucceed(before: seq<Event>, s: Sys, t: Tid) returns (events: seq<Event>, end: Sys)
    requires SysRun(SYS_INIT, before, s)
    requires InStage(s, t, Begin) && !s.m.tab.closed && s.m.tab.nextID + 1 < WORD && s.reqs[t].messageId in {1001, 1002, 1003}
    ensures SysRun(s, events, end) && t in end.reqs
    ensures end.reqs[t].stage.Finished? && end.reqs[t].stage.res.Success?
    ensures end.reqs[t].attempt == s.reqs[t].attempt && |end.reqs[t].ids| == |s.reqs[t].ids| + 1
  {
    ReachableSysInv(before, s);
    var xs, mid, p := AsksAndListens(s, t);
    var ys;
    ys, end := IsAnswered(mid, t, p, s.m.tab.nextID + 1);
    events := SysRunAppend(s, xs, mid, ys, end);
  }

  // ---- A failed Send ----

  /** The manager is as open, and its counter where it was. */
  predicate SameManager(s: Sys, s1: Sys) {
    s1.m.tab.closed == s.m.tab.closed && s1.m.tab.nextID == s.m.tab.nextID
  }

  function CancelEvent(s: Sys, t: Tid): Event {
    Proceed(t, if PcOf(s.m, t).Removing? then CancelRemove(t) else TryDeliver(t))
  }

  lemma CancelEventGoesOn(s: Sys, t: Tid)
    requires t in s.reqs && s.reqs[t].stage.Cancelling? && PlaceOk(s.reqs[t], PcOf(s.m, t)) && !PcOf(s.m, t).Idle? && Free(s.m)
    requires PcOf(s.m, t).Delivering? ==> CanTryDeliver(s.m, t)
    ensures var e := CancelEvent(s, t);
            && EventEnabled(s, e) && EventApply(s, e).reqs == s.reqs && SameManager(s, EventApply(s, e))
            && CancelRank(PcOf(EventApply(s, e).m, t)) < CancelRank(PcOf(s.m, t))
  {
  }

  lemma CancelStepGoesOn(s: Sys, t: Tid) returns (e: Event)
    requires SysInv(s) && t in s.reqs && s.reqs[t].stage.Cancelling? && !PcOf(s.m, t).Idle?
    ensures EventEnabled(s, e) && SysInv(EventApply(s, e)) && EventApply(s, e).reqs == s.reqs
    ensures SameManager(s, EventApply(s, e)) && CancelRank(PcOf(EventApply(s, e).m, t)) < CancelRank(PcOf(s.m, t))
  {
    PlaceIsUsable(s, t);
    CancelEventGoesOn(s, t);
    e := CancelEvent(s, t);
    EventInv(s, e);
  }

  /** Cancel runs to its end by itself. */
  lemma {:induction false} CancelRuns(s: Sys, t: Tid) returns (events: seq<Event>, s1: Sys)
    requires SysInv(s) && t in s.reqs && s.reqs[t].stage.Cancelling?
    ensures SysRun(s, events, s1) && SysInv(s1) && s1.reqs == s.reqs && PcOf(s1.m, t).Idle? && SameManager(s, s1)
    decreases CancelRank(PcOf(s.m, t))
  {
    if PcOf(s.m, t).Idle? {
      events, s1 := [], s;
    } else {
      var e := CancelStepGoesOn(s, t);
      events, s1 := CancelRuns(EventApply(s, e), t);
      events := SysRunCons(s, e, events, s1);
    }
  }

  lemma SendFailsAs(s: Sys, t: Tid, wrote: bool)
    requires t in s.reqs && s.reqs[t].stage.Sending? && SendsOk(s.reqs[t])
    ensures var s1 := DoSend(s, t, false, wrote);
            && SameManager(s, s1) && t in s1.reqs && s1.reqs[t].stage.Cancelling? && SameAttempt(s.reqs[t], s1.reqs[t])
            && s1.reqs[t].sends == s.reqs[t].sends + [Sent(s.reqs[t].stage.node, s.reqs[t].ID(), false)]
            && s1.reqs[t].stage.next == if s.reqs[t].attempt == 0 then Retry else Stop(SendFailed)
  {
  }

  lemma SendFails(s: Sys, t: Tid, wrote: bool) returns (s1: Sys)
    requires SysInv(s) && t in s.reqs && s.reqs[t].stage.Sending?
    ensures EventEnabled(s, Send(t, false, wrote)) && s1 == EventApply(s, Send(t, false, wrote))
    ensures SysInv(s1) && SameManager(s, s1) && t in s1.reqs && s1.reqs[t].stage.Cancelling?
    ensures SameAttempt(s.reqs[t], s1.reqs[t]) && s1.reqs[t].sends == s.reqs[t].sends + [Sent(s.reqs[t].stage.node, s.reqs[t].ID(), false)]
    ensures s1.reqs[t].stage.next == if s.reqs[t].attempt == 0 then Retry else Stop(SendFailed)
  {
    s1 := EventApply(s, Send(t, false, wrote));
    InTheLoop(s, t);
    SendFailsAs(s, t, wrote);
    EventInv(s, Send(t, false, wrote));
  }

  lemma ResumesFrom(s: Sys, t: Tid) returns (events: seq<Event>, s1: Sys)
    requires t in s.reqs && s.reqs[t].stage.Cancelling? && PcOf(s.m, t).Idle?
    ensures SysRun(s, events, s1) && SameManager(s, s1) && t in s1.reqs
    ensures s1.reqs[t].sends == s.reqs[t].sends && s1.reqs[t].ids == s.reqs[t].ids && s1.reqs[t].messageId == s.reqs[t].messageId
    ensures if s.reqs[t].stage.next.Retry? then s1.reqs[t].stage == Begin && s1.reqs[t].attempt == s.reqs[t].attempt + 1
            else s1.reqs[t].stage == Finished(Failure(s.reqs[t].stage.next.why))
  {
    s1 := EventApply(s, Resume(t));
    events := SysRunCons(s, Resume(t), [], s1);
  }

  /** After a failed Send, and whatever its waiter has got by then, Request's own steps lead on: the
      first time to the head of the loop for a second attempt, the second time to SendFailed. */
  lemma FailedSendGoesOn(before: seq<Event>, s: Sys, t: Tid, wrote: bool) returns (events: seq<Event>, s1: Sys)
    requires SysRun(SYS_INIT, before, s) && t in s.reqs && s.reqs[t].stage.Sending?
    ensures SysRun(s, events, s1) && events != [] && events[0] == Send(t, false, wrote) && t in s1.reqs && SameManager(s, s1)
    ensures s1.reqs[t].sends == s.reqs[t].sends + [Sent(s.reqs[t].stage.node, s.reqs[t].ID(), false)]
    ensures s1.reqs[t].ids == s.reqs[t].ids && s1.reqs[t].messageId == s.reqs[t].messageId
    ensures if s.reqs[t].attempt == 0 then s1.reqs[t].stage == Begin && s1.reqs[t].attempt == 1
            else s1.reqs[t].stage == Finished(Failure(SendFailed))
  {
    ReachableSysInv(before, s);
    var mid := SendFails(s, t, wrote);
    var ys, s2 := CancelRuns(mid, t);
    var last;
    last, s1 := ResumesFrom(s2, t);
    events := SysRunAppend(mid, ys, s2, last, s1);
    events := SysRunCons(s, Send(t, false, wrote), events, s1);
  }

  /** A Request whose first Send fails can still succeed, with its second id. */
  lemma RetryCanSucceed(before: seq<Event>, s: Sys, t: Tid, wrote: bool) returns (events: seq<Event>, end: Sys)
    requires SysRun(SYS_INIT, before, s) && t in s.reqs && s.reqs[t].stage.Sending? && s.reqs[t].attempt == 0
    requires !s.m.tab.closed && s.m.tab.nextID + 1 < WORD && s.reqs[t].messageId in {1001, 1002, 1003}
    ensures SysRun(s, events, end) && events != [] && events[0] == Send(t, false, wrote) && t in end.reqs
    ensures end.reqs[t].stage.Finished? && end.reqs[t].stage.res.Success? && |end.reqs[t].ids| == 2
  {
    assert |s.reqs[t].ids| == 1 by {
      ReachableSysInv(before, s);
      assert RequestOk(s, t);
    }
    var xs, s1 := FailedSendGoesOn(before, s, t, wrote);
    var sofar := SysRunAppend(SYS_INIT, before, s, xs, s1);
    var ys;
    ys, end := AttemptCanSucceed(sofar, s1, t);
    var rest := xs[1..];
    assert SysRun(EventApply(s, xs[0]), rest, s1);
    events := SysRunAppend(EventApply(s, xs[0]), rest, s1, ys, end);
    events := SysRunCons(s, xs[0], events, end);
  }

  /** A Request starts, is issued an id and is routed. */
  lemma FirstSending(t: Tid, payload: seq<nat>) returns (events: seq<Event>, s: Sys)
    ensures SysRun(SYS_INIT, events, s) && Start(t, 1001, payload) in events
    ensures t in s.reqs && s.reqs[t].stage.Sending? && s.reqs[t].attempt == 0 && s.reqs[t].messageId == 1001
    ensures !s.m.tab.closed && s.m.tab.nextID == 1
  {
    var s1 := EventApply(SYS_INIT, Start(t, 1001, payload));
    var xs := SysRunCons(SYS_INIT, Start(t, 1001, payload), [], s1);
    ReachableSysInv(xs, s1);
    var p, s2 := Issues(s1, t);
    s := EventApply(s2, Routed(t, 7));
    events := SysRunCons(s2, Routed(t, 7), [], s);
    events := SysRunCons(s1, Issue(t, 1, p), events, s);
    events := SysRunCons(SYS_INIT, Start(t, 1001, payload), events, s);
  }

  /** And it happens: from the initial system a Request fails its first Send and returns Success. */
  lemma SecondAttemptSucceeds(t: Tid, payload: seq<nat>) returns (events: seq<Event>, end: Sys)
    ensures SysRun(SYS_INIT, events, end) && t in end.reqs
    ensures end.reqs[t].stage.Finished? && end.reqs[t].stage.res.Success?
    ensures |end.reqs[t].ids| == |end.reqs[t].sends| == 2 && !end.reqs[t].sends[0].ok && end.reqs[t].sends[1].ok
    ensures end.reqs[t].stage.res.env.messageId == 1001 && end.reqs[t].stage.res.env.payload == payload
  {
    var xs, s := FirstSending(t, payload);
    var ys;
    ys, end := RetryCanSucceed(xs, s, t, false);
    events := SysRunAppend(SYS_INIT, xs, s, ys, end);
    ResultIsExplained(events, end, t);
    SuccessEchoesCall(events, end, t, 1001, payload);
  }
}
