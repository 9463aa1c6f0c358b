/** Guarantees of Request over every run of gateway, network and Logic nodes. */
module EndToEnd {
  import opened Protocol
  import opened Gateway
  import opened GatewayInvariant

  ghost predicate SysRun(s: Sys, events: seq<Event>, end: Sys)
    decreases |events|
  {
    if events == [] then s == end
    else EventEnabled(s, events[0]) && SysRun(EventApply(s, events[0]), events[1..], end)
  }

  lemma SysRunCons(s: Sys, e: Event, rest: seq<Event>, end: Sys) returns (events: seq<Event>)
    requires EventEnabled(s, e) && SysRun(EventApply(s, e), rest, end)
    ensures SysRun(s, events, end) && events == [e] + rest
  {
    events := [e] + rest;
    assert events[1..] == rest;
  }

  lemma {:induction false} SysRunAppend(s: Sys, xs: seq<Event>, mid: Sys, ys: seq<Event>, end: Sys) returns (events: seq<Event>)
    requires SysRun(s, xs, mid) && SysRun(mid, ys, end)
    ensures SysRun(s, events, end) && events == xs + ys
    decreases |xs|
  {
    if xs == [] {
      events := ys;
      assert xs + ys == ys;
    } else {
      events := SysRunAppend(EventApply(s, xs[0]), xs[1..], mid, ys, end);
      assert [xs[0]] + (xs[1..] + ys) == xs + ys;
      events := SysRunCons(s, xs[0], events, end);
    }
  }

  lemma {:induction false} SysRunInv(s: Sys, events: seq<Event>, end: Sys)
    requires SysInv(s) && SysRun(s, events, end)
    ensures SysInv(end)
    decreases |events|
  {
    if events != [] {
      EventInv(s, events[0]);
      SysRunInv(EventApply(s, events[0]), events[1..], end);
    }
  }

  lemma ReachableSysInv(events: seq<Event>, s: Sys)
    requires SysRun(SYS_INIT, events, s)
    ensures SysInv(s)
  {
    SysRunInv(SYS_INIT, events, s);
  }

  /** A successful Request returns a response that carries the request's current id and, as
      only 1001, 1002 and 1003 are answered with data, the request's own message id and payload. */
  lemma SuccessEchoesRequest(events: seq<Event>, s: Sys, t: Tid)
    requires SysRun(SYS_INIT, events, s)
    requires t in s.reqs && s.reqs[t].stage.Finished? && s.reqs[t].stage.res.Success?
    ensures var q := s.reqs[t];
            var env := q.stage.res.env;
            && q.ids != [] && env.txid == q.ID()
            && env.messageId == q.messageId && env.payload == q.payload && Supported(q.messageId)
  {
    ReachableSysInv(events, s);
    var q := s.reqs[t];
    assert RequestOk(s, t);
    assert PacketOk(s, DataResponse(q.ID(), q.stage.res.env.messageId, q.stage.res.env.payload));
    CurrentIDOwned(s, t);
  }

  /** An answer to the first, cancelled attempt never resolves the retry: what a second
      attempt returns carries the second id, which differs from the first. */
  lemma LateAnswerNeverResolvesRetry(events: seq<Event>, s: Sys, t: Tid)
    requires SysRun(SYS_INIT, events, s)
    requires t in s.reqs && s.reqs[t].stage.Finished? && s.reqs[t].stage.res.Success? && |s.reqs[t].ids| == 2
    ensures s.reqs[t].stage.res.env.txid == s.reqs[t].ids[1] != s.reqs[t].ids[0]
  {
    ReachableSysInv(events, s);
    assert RequestOk(s, t);
  }

  /** No id of another request, and none of its own cancelled ids, is ever handed to it. */
  lemma IDsNeverShared(events: seq<Event>, s: Sys, t: Tid, u: Tid, id: nat)
    requires SysRun(SYS_INIT, events, s)
    requires t in s.reqs && u in s.reqs && id in s.reqs[t].ids && id in s.reqs[u].ids
    ensures t == u
  {
    ReachableSysInv(events, s);
    assert RequestOk(s, t) && RequestOk(s, u);
  }

  /** On every return path no id of the request is left in the waiter table; it has sent at
      most twice, and a second time only after a failed first Send, to a node the first one
      did not use and under a fresh id. */
  lemma RequestLeavesNothing(events: seq<Event>, s: Sys, t: Tid)
    requires SysRun(SYS_INIT, events, s) && t in s.reqs && s.reqs[t].stage.Finished?
    ensures forall id :: id in s.reqs[t].ids ==> id !in s.m.tab.wait
    ensures var q := s.reqs[t];
            && |q.sends| <= |q.ids| <= MAX_ROUTE_ATTEMPTS
            && (|q.sends| == 2 ==>
                  && !q.sends[0].ok
                  && q.sends[0].node != q.sends[1].node
                  && q.sends[0].id == q.ids[0] && q.sends[1].id == q.ids[1] && q.ids[0] != q.ids[1])
  {
    ReachableSysInv(events, s);
    assert RequestOk(s, t);
  }

  /** The second Wait on an id that Wait rejects never happens to a request. */
  lemma NeverWaitInProgress(events: seq<Event>, s: Sys, t: Tid, a: Step)
    requires SysRun(SYS_INIT, events, s) && EventEnabled(s, Proceed(t, a)) && a.WaitClaim?
    ensures PcOf(EventApply(s, Proceed(t, a)).m, t).Selecting?
  {
    ReachableSysInv(events, s);
    assert RequestOk(s, t);
  }

  // ---- What a Request was asked ----

  predicate Asks(s: Sys, t: Tid, messageId: nat, payload: seq<nat>) {
    t in s.reqs && s.reqs[t].messageId == messageId && s.reqs[t].payload == payload
  }

  lemma LoopKeepsQuestion(s: Sys, e: Event, t: Tid, messageId: nat, payload: seq<nat>)
    requires EventEnabled(s, e) && LoopEvent(e) && Asks(s, t, messageId, payload)
    ensures Asks(EventApply(s, e), t, messageId, payload)
  {
  }

  lemma EventKeepsQuestion(s: Sys, e: Event, t: Tid, messageId: nat, payload: seq<nat>)
    requires EventEnabled(s, e) && (Asks(s, t, messageId, payload) || e == Start(t, messageId, payload))
    ensures Asks(EventApply(s, e), t, messageId, payload)
  {
    if LoopEvent(e) && e != Start(t, messageId, payload) {
      LoopKeepsQuestion(s, e, t, messageId, payload);
    }
  }

  lemma {:induction false} RunKeepsQuestion(s: Sys, events: seq<Event>, end: Sys, t: Tid, messageId: nat, payload: seq<nat>)
    requires SysRun(s, events, end) && (Asks(s, t, messageId, payload) || Start(t, messageId, payload) in events)
    ensures Asks(end, t, messageId, payload)
    decreases |events|
  {
    if events != [] {
      if Asks(s, t, messageId, payload) || events[0] == Start(t, messageId, payload) {
        EventKeepsQuestion(s, events[0], t, messageId, payload);
      }
      RunKeepsQuestion(EventApply(s, events[0]), events[1..], end, t, messageId, payload);
    }
  }

  /** What a successful Request returns echoes the message id and the payload it was called with. */
  lemma SuccessEchoesCall(events: seq<Event>, s: Sys, t: Tid, messageId: nat, payload: seq<nat>)
    requires SysRun(SYS_INIT, events, s) && Start(t, messageId, payload) in events
    ensures t in s.reqs
    ensures s.reqs[t].stage.Finished? && s.reqs[t].stage.res.Success? ==>
              s.reqs[t].stage.res.env.messageId == messageId && s.reqs[t].stage.res.env.payload == payload
  {
    RunKeepsQuestion(SYS_INIT, events, s, t, messageId, payload);
    if s.reqs[t].stage.Finished? && s.reqs[t].stage.res.Success? {
      SuccessEchoesRequest(events, s, t);
    }
  }
}
