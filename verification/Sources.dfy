/** No outcome is invented: whatever Wait(id) receives was brought by a call for that id, by the end
    of its own context, or by Close. */
module Sources {
  import opened Wrappers
  import opened Pendings
  import opened Managers
  import opened Protocol
  import opened Correlation

  /** This step brings outcome r for id into the protocol. */
  ghost predicate Brings(s: State, a: Step, id: nat, r: Outcome) {
    match a
    case Finish(_, i, q, _, _) => i == id && q == r
    case WaitCancel(t, err) => PcOf(s, t).Selecting? && PcOf(s, t).id == id && r == Failed(err)
    case CloseDeliver(_) => s.owed != [] && s.owed[0] in s.objs && s.objs[s.owed[0]].id == id && r == Failed(ManagerClosed)
    case _ => false
  }

  ghost predicate BroughtIn(s: State, steps: seq<Step>, end: State, id: nat, r: Outcome)
    requires Run(s, steps, end)
    decreases |steps|
  {
    steps != [] && (Brings(s, steps[0], id, r) || BroughtIn(Apply(s, steps[0]), steps[1..], end, id, r))
  }

  predicate Offers(s: State, t: Tid, id: nat, r: Outcome) {
    PcOf(s, t).Delivering? && PcOf(s, t).id == id && PcOf(s, t).r == r
  }

  predicate WasDelivered(s: State, p: Pid, id: nat, r: Outcome) {
    p in s.deliveries && Delivery(id, r) in s.deliveries[p]
  }

  /** Somebody is about to deliver r for id, or has. */
  ghost predicate Known(s: State, id: nat, r: Outcome) {
    (exists t :: Offers(s, t, id, r)) || (exists p :: WasDelivered(s, p, id, r))
  }

  lemma ActorOffers(s: State, a: Step, id: nat, r: Outcome)
    requires Enabled(s, a) && Offers(Apply(s, a), a.t, id, r)
    ensures Offers(s, a.t, id, r) || Brings(s, a, id, r)
  {
  }

  lemma OffersComeFrom(s: State, a: Step, t: Tid, id: nat, r: Outcome)
    requires Enabled(s, a) && Offers(Apply(s, a), t, id, r)
    ensures Offers(s, t, id, r) || Brings(s, a, id, r)
  {
    OnlyActorMoves(s, a);
    if t == a.t {
      ActorOffers(s, a, id, r);
    }
  }

  lemma DeliveriesComeFrom(s: State, a: Step, p: Pid, id: nat, r: Outcome)
    requires Enabled(s, a) && WasDelivered(Apply(s, a), p, id, r)
    ensures WasDelivered(s, p, id, r) || Brings(s, a, id, r) || (a.TryDeliver? && Offers(s, a.t, id, r))
  {
  }

  lemma KnownComesFrom(s: State, a: Step, id: nat, r: Outcome)
    requires Enabled(s, a) && Known(Apply(s, a), id, r)
    ensures Known(s, id, r) || Brings(s, a, id, r)
  {
    var s1 := Apply(s, a);
    if t :| Offers(s1, t, id, r) {
      OffersComeFrom(s, a, t, id, r);
    } else {
      var p :| WasDelivered(s1, p, id, r);
      DeliveriesComeFrom(s, a, p, id, r);
    }
  }

  lemma {:induction false} KnownWasBrought(s: State, steps: seq<Step>, end: State, id: nat, r: Outcome)
    requires Run(s, steps, end) && Known(end, id, r)
    ensures Known(s, id, r) || BroughtIn(s, steps, end, id, r)
    decreases |steps|
  {
    if steps != [] {
      KnownWasBrought(Apply(s, steps[0]), steps[1..], end, id, r);
      if Known(Apply(s, steps[0]), id, r) {
        KnownComesFrom(s, steps[0], id, r);
      }
    }
  }

  /** What Wait(id) is about to return in a clean run was brought for that id by one of its steps. */
  lemma OutcomeHasSource(steps: seq<Step>, s: State, t: Tid, id: nat, r: Outcome)
    requires CleanRun(INIT, steps, s) && Holds(PcOf(s, t), id, r)
    ensures Run(INIT, steps, s) && BroughtIn(INIT, steps, s, id, r)
  {
    CleanRunIsRun(INIT, steps, s);
    WaitGetsOwnFirstDelivery(steps, s, t, id, r);
    assert exists p :: WasDelivered(s, p, id, r) by {
      ReachableInv(steps, s);
      assert ThreadOk(s, s.pcs[t]);
      assert WasDelivered(s, PcOf(s, t).p, id, r);
    }
    KnownWasBrought(INIT, steps, s, id, r);
  }

  // ---- And it is returned ----

  lemma ReceiveStep(s: State, t: Tid, r: Outcome) returns (steps: seq<Step>, end: State)
    requires CanReceive(s, t) && s.objs[PcOf(s, t).p].ch.value == r
    ensures CleanRun(s, steps, end) && PcOf(end, t) == Received(PcOf(s, t).p, PcOf(s, t).id, r)
  {
    end := Apply(s, WaitReceive(t));
    RunCons(s, WaitReceive(t), [], end);
    steps := [WaitReceive(t)];
  }

  lemma ReturnsFromSecondReceive(s: State, t: Tid) returns (steps: seq<Step>, end: State)
    requires Inv(s) && PcOf(s, t).Receiving?
    ensures var p := PcOf(s, t).p;
            && p in s.objs && (s.objs[p].done ==> p in s.deliveries && |s.deliveries[p]| == 1)
            && CleanRun(s, steps, end)
            && PcOf(end, t) == Received(p, PcOf(s, t).id, if s.objs[p].done then s.deliveries[p][0].r else Failed(ManagerClosed))
  {
    var xs, mid := SecondReceiveReturns(s, t);
    var ys;
    ys, end := ReceiveStep(mid, t, mid.objs[PcOf(s, t).p].ch.value);
    RunAppend(s, xs, mid, ys, end);
    steps := xs + ys;
  }

  /** The end of the context on a waiter that nothing has reached: its own error is delivered. */
  lemma OwnErrorArrives(s: State, t: Tid, err: Failure)
    requires Inv(s) && PcOf(s, t).Selecting? && Free(s) && !s.tab.closed && !s.objs[PcOf(s, t).p].done
    ensures var s1 := DoWaitCancel(s, t, err);
            && CanTryDeliver(s1, t)
            && var s2 := DoTryDeliver(s1, t);
               var p := PcOf(s, t).p;
               && PcOf(s2, t) == Receiving(p, PcOf(s, t).id)
               && p in s2.objs && s2.objs[p].done && p in s2.deliveries && s2.deliveries[p] == [Delivery(PcOf(s, t).id, Failed(err))]
  {
    assert ThreadOk(s, s.pcs[t]) && ObjOk(s, PcOf(s, t).p);
  }

  /** Otherwise it keeps what it has, or what Close is about to give it. */
  lemma NothingNewArrives(s: State, t: Tid, err: Failure)
    requires Inv(s) && PcOf(s, t).Selecting? && Free(s) && (s.tab.closed || s.objs[PcOf(s, t).p].done)
    ensures var s1 := DoWaitCancel(s, t, err);
            var p := PcOf(s, t).p;
            && s1.objs == s.objs && s1.deliveries == s.deliveries && p in s.objs
            && (PcOf(s1, t) == Receiving(p, PcOf(s, t).id)
                || (s.objs[p].done && CanTryDeliver(s1, t)
                    && var s2 := DoTryDeliver(s1, t);
                       PcOf(s2, t) == Receiving(p, PcOf(s, t).id) && s2.objs == s.objs && s2.deliveries == s.deliveries))
  {
    assert ThreadOk(s, s.pcs[t]) && ObjOk(s, PcOf(s, t).p);
  }

  /** Wait whose context ends returns the outcome that was first: the one delivered before, or
      ErrManagerClosed once Close has begun, or else the error of its context. */
  lemma ContextEndsWait(s: State, t: Tid, err: Failure) returns (steps: seq<Step>, end: State)
    requires Inv(s) && PcOf(s, t).Selecting? && Free(s) && (err == Canceled || err == DeadlineExceeded)
    ensures var p := PcOf(s, t).p;
            && p in s.objs && (s.objs[p].done ==> p in s.deliveries && |s.deliveries[p]| == 1)
            && CleanRun(s, steps, end)
            && PcOf(end, t) == Received(p, PcOf(s, t).id,
                                        if s.objs[p].done then s.deliveries[p][0].r
                                        else if s.tab.closed then Failed(ManagerClosed) else Failed(err))
  {
    assert ThreadOk(s, s.pcs[t]) && ObjOk(s, PcOf(s, t).p);
    var a, b := WaitCancel(t, err), TryDeliver(t);
    var s1 := DoWaitCancel(s, t, err);
    assert Inv(s1) by { WaitCancelInv(s, t, err); }
    if !s.tab.closed && !s.objs[PcOf(s, t).p].done {
      OwnErrorArrives(s, t, err);
    } else {
      NothingNewArrives(s, t, err);
    }
    if PcOf(s1, t).Receiving? {
      steps, end := ReturnsFromSecondReceive(s1, t);
    } else {
      var s2 := DoTryDeliver(s1, t);
      assert Inv(s2) by { TryDeliverInv(s1, t); }
      steps, end := ReturnsFromSecondReceive(s2, t);
      RunCons(s1, b, steps, end);
      steps := [b] + steps;
    }
    RunCons(s, a, steps, end);
    steps := [a] + steps;
  }

  /** A Wait whose waiter has been reached returns that outcome. */
  lemma DeliveredWaitReturns(s: State, t: Tid) returns (steps: seq<Step>, end: State)
    requires Inv(s) && PcOf(s, t).Selecting? && s.objs[PcOf(s, t).p].done
    ensures var p := PcOf(s, t).p;
            && p in s.deliveries && |s.deliveries[p]| == 1
            && steps == [WaitReceive(t)] && CleanRun(s, steps, end)
            && PcOf(end, t) == Received(p, PcOf(s, t).id, s.deliveries[p][0].r)
  {
    assert ThreadOk(s, s.pcs[t]) && ObjOk(s, PcOf(s, t).p);
    end := Apply(s, WaitReceive(t));
    RunCons(s, WaitReceive(t), [], end);
    steps := [WaitReceive(t)];
  }

  // ---- Complete, Fail and Cancel that nobody disturbs ----

  /** What such a call does to objects and envelopes; the pool gets back an envelope that finds no
      open waiter. */
  ghost predicate Finishes(s: State, end: State, id: nat, r: Outcome, carrier: Option<nat>) {
    var back := if carrier.Some? then multiset{carrier.value} else multiset{};
    match Find(s.tab, id)
    case Err(_) => end.objs == s.objs && end.released == s.released + back
    case Ok(p) =>
      && p in s.objs
      && if s.objs[p].done then end.objs == s.objs && end.released == s.released + back
         else end.objs == s.objs[p := s.objs[p].(done := true, ch := Some(r))] && end.released == s.released
  }

  lemma FinishGetsThrough(s: State, t: Tid, id: nat, r: Outcome, after: After, carrier: Option<nat>)
    returns (steps: seq<Step>, end: State)
    requires Inv(s) && CanFinish(s, t, r, after, carrier)
    ensures CleanRun(s, steps, end) && Finishes(s, end, id, r, carrier)
    ensures PcOf(end, t) == AfterFinish(id, after) && end.tab == s.tab && Free(end)
  {
    var a := Finish(t, id, r, after, carrier);
    var s1 := DoFinish(s, t, id, r, after, carrier);
    if PcOf(s1, t).Delivering? {
      var p := s.tab.wait[id];
      assert p in s.objs && ObjOk(s, p);
      end := DoTryDeliver(s1, t);
      RunCons(s1, TryDeliver(t), [], end);
      steps := [TryDeliver(t)];
    } else {
      steps, end := [], s1;
    }
    RunCons(s, a, steps, end);
    steps := [a] + steps;
  }

  /** The call alone: only the first outcome gets through, to the waiter of this id; Cancel also
      frees the id, whatever it found. */
  lemma CallAlone(s: State, t: Tid, id: nat, r: Outcome, after: After, carrier: Option<nat>)
    returns (steps: seq<Step>, end: State)
    requires Inv(s) && CanFinish(s, t, r, after, carrier)
    ensures CleanRun(s, steps, end) && Finishes(s, end, id, r, carrier) && PcOf(end, t).Idle?
    ensures end.tab.wait == if after.ThenRemove? then s.tab.wait - {id} else s.tab.wait
  {
    steps, end := FinishGetsThrough(s, t, id, r, after, carrier);
    if after.ThenRemove? {
      var mid := end;
      end := Apply(mid, CancelRemove(t));
      RunCons(mid, CancelRemove(t), [], end);
      RunAppend(s, steps, mid, [CancelRemove(t)], end);
      steps := steps + [CancelRemove(t)];
    }
  }

  // ---- Close that nobody disturbs ----

  lemma {:induction false} Snapshot(wait: map<nat, Pid>, left: set<nat>) returns (ps: seq<Pid>)
    requires left <= wait.Keys
    ensures forall p :: p in ps <==> exists id :: id in left && wait[id] == p
    decreases left
  {
    ps := [];
    if left != {} {
      var id :| id in left;
      ps := Snapshot(wait, left - {id});
      ps := [wait[id]] + ps;
    }
  }

  /** Every waiter on the list keeps its outcome or gets ErrManagerClosed; nothing else changes. */
  ghost predicate AllReached(s: State, end: State, ps: seq<Pid>) {
    && end.objs.Keys == s.objs.Keys
    && forall p :: p in s.objs ==> end.objs[p] == if p in ps then AfterClose(s, p) else s.objs[p]
  }

  lemma ReachedAll(s: State, s1: State, end: State)
    requires s.owed != [] && s.owed[0] in s.objs && s1.objs.Keys == s.objs.Keys && s1.owed == s.owed[1..]
    requires s1.objs[s.owed[0]] == AfterClose(s, s.owed[0]) && forall q :: q in s.objs && q != s.owed[0] ==> s1.objs[q] == s.objs[q]
    requires AllReached(s1, end, s1.owed)
    ensures AllReached(s, end, s.owed)
  {
    assert s.owed == [s.owed[0]] + s1.owed;
  }

  lemma SameKeys(s: State)
    requires CanCloseDeliver(s, s.closer)
    ensures s.owed != [] ==> s.owed[0] in s.objs && DoCloseDeliver(s, s.closer).objs.Keys == s.objs.Keys && DoCloseDeliver(s, s.closer).tab == s.tab
  {
  }

  lemma {:induction false} CloserEnds(s: State) returns (steps: seq<Step>, end: State)
    requires Inv(s) && PcOf(s, s.closer).Closing?
    ensures CleanRun(s, steps, end) && PcOf(end, s.closer).Idle? && end.tab == s.tab && end.owed == []
    ensures AllReached(s, end, s.owed)
    decreases |s.owed|
  {
    if s.owed == [] {
      end := DoCloseDeliver(s, s.closer);
      CloserStepFirst(s, [], end);
      steps := [CloseDeliver(s.closer)] + [];
    } else {
      CloserStep(s);
      SameKeys(s);
      var s1 := DoCloseDeliver(s, s.closer);
      var rest;
      rest, end := CloserEnds(s1);
      ReachedAll(s, s1, end);
      CloserStepFirst(s, rest, end);
      steps := [CloseDeliver(s.closer)] + rest;
    }
  }

  /** Close alone: the table is closed and empty, every waiter it held has the outcome it had or
      ErrManagerClosed, and no other waiter changes. */
  lemma CloseAlone(s: State, t: Tid) returns (steps: seq<Step>, end: State)
    requires Inv(s) && PcOf(s, t).Idle? && Free(s) && !s.tab.closed
    ensures CleanRun(s, steps, end) && PcOf(end, t).Idle?
    ensures end.tab.closed && end.tab.wait == map[] && end.tab.nextID == s.tab.nextID && end.objs.Keys == s.objs.Keys
    ensures forall p :: p in s.objs ==> end.objs[p] == if p in s.tab.wait.Values then AfterClose(s, p) else s.objs[p]
  {
    var ps := Snapshot(s.tab.wait, s.tab.wait.Keys);
    assert IsSnapshot(ps, s.tab.wait);
    var a := CloseSnapshot(t, ps);
    var s1 := DoSnapshot(s, t, ps);
    SnapshotInv(s, t, ps);
    steps, end := CloserEnds(s1);
    RunCons(s, a, steps, end);
    steps := [a] + steps;
  }
}
