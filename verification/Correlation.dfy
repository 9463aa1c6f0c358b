/** What the waiter protocol guarantees over whole runs. */
module Correlation {
  import opened Wrappers
  import opened Pendings
  import opened Protocol

  ghost predicate Run(s: State, steps: seq<Step>, end: State)
    decreases |steps|
  {
    if steps == [] then s == end
    else Enabled(s, steps[0]) && Run(Apply(s, steps[0]), steps[1..], end)
  }

  /** A run in which every step is clean. */
  ghost predicate CleanRun(s: State, steps: seq<Step>, end: State)
    decreases |steps|
  {
    if steps == [] then s == end
    else Enabled(s, steps[0]) && Clean(s, steps[0]) && CleanRun(Apply(s, steps[0]), steps[1..], end)
  }

  lemma RunCons(s: State, a: Step, rest: seq<Step>, end: State)
    requires Enabled(s, a) && Clean(s, a) && CleanRun(Apply(s, a), rest, end)
    ensures CleanRun(s, [a] + rest, end)
  {
    assert ([a] + rest)[1..] == rest;
  }

  lemma {:induction false} RunAppend(s: State, xs: seq<Step>, mid: State, ys: seq<Step>, end: State)
    requires CleanRun(s, xs, mid) && CleanRun(mid, ys, end)
    ensures CleanRun(s, xs + ys, end)
    decreases |xs|
  {
    if xs == [] {
      assert xs + ys == ys;
    } else {
      var a, s1 := xs[0], Apply(s, xs[0]);
      var rest := xs[1..] + ys;
      assert CleanRun(s, [a] + rest, end) by {
        assert Enabled(s, a) && Clean(s, a);
        RunAppend(s1, xs[1..], mid, ys, end);
        RunCons(s, a, rest, end);
      }
      assert xs + ys == [a] + rest;
    }
  }

  lemma {:induction false} CleanRunIsRun(s: State, steps: seq<Step>, end: State)
    requires CleanRun(s, steps, end)
    ensures Run(s, steps, end)
    decreases |steps|
  {
    if steps != [] {
      CleanRunIsRun(Apply(s, steps[0]), steps[1..], end);
    }
  }

  lemma {:induction false} CleanRunInv(s: State, steps: seq<Step>, end: State)
    requires Inv(s) && CleanRun(s, steps, end)
    ensures Inv(end)
    decreases |steps|
  {
    if steps != [] {
      StepInv(s, steps[0]);
      CleanRunInv(Apply(s, steps[0]), steps[1..], end);
    }
  }

  lemma ReachableInv(steps: seq<Step>, s: State)
    requires CleanRun(INIT, steps, s)
    ensures Inv(s)
  {
    InitInv();
    CleanRunInv(INIT, steps, s);
  }

  /** A thread in tryDeliver, or Close going through its snapshot, is never held up by a full slot. */
  lemma SendNeverBlocks(steps: seq<Step>, s: State, t: Tid)
    requires CleanRun(INIT, steps, s)
    ensures PcOf(s, t).Delivering? ==> CanTryDeliver(s, t)
    ensures PcOf(s, t).Closing? ==> CanCloseDeliver(s, t)
  {
    ReachableInv(steps, s);
    if PcOf(s, t).Delivering? {
      assert ThreadOk(s, s.pcs[t]);
      assert ObjOk(s, PcOf(s, t).p);
    } else if s.owed != [] {
      assert ObjOk(s, s.owed[0]);
    }
  }

  /** The outcome Wait(id) is about to return. */
  predicate Holds(pc: Pc, id: nat, r: Outcome) {
    match pc
    case Received(_, i, q) => i == id && q == r
    case Draining(_, i, q) => i == id && q == r
    case Resetting(_, i, q) => i == id && q == r
    case _ => false
  }

  /** Correlation: Wait(id) returns the one outcome delivered to its waiter, and that
      delivery was made by a call for the same id. */
  lemma WaitGetsOwnFirstDelivery(steps: seq<Step>, s: State, t: Tid, id: nat, r: Outcome)
    requires CleanRun(INIT, steps, s) && Holds(PcOf(s, t), id, r)
    ensures PcOf(s, t).p in s.deliveries && s.deliveries[PcOf(s, t).p] == [Delivery(id, r)]
    ensures forall u :: u in s.pcs && Owner(s.pcs[u], PcOf(s, t).p) ==> u == t
  {
    ReachableInv(steps, s);
    var p := PcOf(s, t).p;
    assert ThreadOk(s, s.pcs[t]) && ObjOk(s, p);
    assert Owner(s.pcs[t], p);
  }

  /** No waiter gets a second successful delivery before it is released. */
  lemma AtMostOneDelivery(steps: seq<Step>, s: State, p: Pid)
    requires CleanRun(INIT, steps, s) && Live(s, p)
    ensures p in s.deliveries && |s.deliveries[p]| <= 1
    ensures s.objs[p].done <==> |s.deliveries[p]| == 1
  {
    ReachableInv(steps, s);
    assert ObjOk(s, p);
  }

  // ---- The cancellation path of Wait ----

  /** A waiter that Close has reached: its own outcome, or ErrManagerClosed. */
  function AfterClose(s: State, p: Pid): PendingState
    requires p in s.objs
  {
    if s.objs[p].done then s.objs[p] else s.objs[p].(done := true, ch := Some(Failed(ManagerClosed)))
  }

  lemma CloserStep(s: State)
    requires Inv(s) && s.owed != []
    ensures CanCloseDeliver(s, s.closer)
    ensures var s1 := DoCloseDeliver(s, s.closer);
            && Inv(s1) && s1.owed == s.owed[1..] && s1.closer == s.closer && s1.pcs == s.pcs
            && s.owed[0] in s1.objs && s1.objs[s.owed[0]] == AfterClose(s, s.owed[0])
            && forall q :: q in s.objs && q != s.owed[0] ==> q in s1.objs && s1.objs[q] == s.objs[q]
  {
    assert ObjOk(s, s.owed[0]);
    CloseDeliverInv(s, s.closer);
  }

  lemma CloserStepFirst(s: State, rest: seq<Step>, end: State)
    requires CanCloseDeliver(s, s.closer) && CleanRun(DoCloseDeliver(s, s.closer), rest, end)
    ensures CleanRun(s, [CloseDeliver(s.closer)] + rest, end)
  {
    RunCons(s, CloseDeliver(s.closer), rest, end);
  }

  lemma {:induction false} CloserGoesOn(s: State, p: Pid) returns (steps: seq<Step>, end: State)
    requires Inv(s) && p in s.owed
    ensures CleanRun(s, steps, end) && |steps| <= |s.owed|
    ensures forall a :: a in steps ==> a == CloseDeliver(s.closer)
    ensures p in s.objs && p in end.objs && end.objs[p] == AfterClose(s, p) && Inv(end) && end.pcs == s.pcs
    decreases |s.owed|
  {
    CloserStep(s);
    assert p in s.objs;
    var s1 := DoCloseDeliver(s, s.closer);
    var rest := [];
    end := s1;
    if s.owed[0] != p {
      assert s.owed == [s.owed[0]] + s1.owed;
      rest, end := CloserGoesOn(s1, p);
      assert AfterClose(s1, p) == AfterClose(s, p);
    }
    steps := [CloseDeliver(s.closer)] + rest;
    CloserStepFirst(s, rest, end);
  }

  /** Close works off its list up to and including p. */
  lemma CloserReaches(s: State, p: Pid) returns (steps: seq<Step>, end: State)
    requires Inv(s) && p in s.owed
    ensures Run(s, steps, end) && CleanRun(s, steps, end) && |steps| <= |s.owed|
    ensures forall a :: a in steps ==> a == CloseDeliver(s.closer)
    ensures p in s.objs && p in end.objs && end.objs[p] == AfterClose(s, p) && end.objs[p].done
    ensures Inv(end) && forall t :: t != s.closer ==> PcOf(end, t) == PcOf(s, t)
  {
    steps, end := CloserGoesOn(s, p);
    CleanRunIsRun(s, steps, end);
  }

  lemma AtSecondReceive(s: State, t: Tid)
    requires Inv(s) && PcOf(s, t).Receiving?
    ensures Live(s, PcOf(s, t).p) && Owner(s.pcs[t], PcOf(s, t).p)
    ensures if s.objs[PcOf(s, t).p].done then CanReceive(s, t) else PcOf(s, t).p in s.owed && s.tab.closed
    ensures CanReceive(s, t) ==> s.objs[PcOf(s, t).p].done
    ensures forall u :: u in s.pcs && Owner(s.pcs[u], PcOf(s, t).p) ==> u == t
  {
    assert ThreadOk(s, s.pcs[t]);
    assert ObjOk(s, PcOf(s, t).p);
  }

  lemma SecondReceiveReturns(s: State, t: Tid) returns (steps: seq<Step>, end: State)
    requires Inv(s) && PcOf(s, t).Receiving?
    ensures CleanRun(s, steps, end) && |steps| <= |s.owed| && Inv(end)
    ensures forall a :: a in steps ==> a == CloseDeliver(s.closer)
    ensures PcOf(end, t) == PcOf(s, t) && CanReceive(end, t)
    ensures var p := PcOf(s, t).p;
            && p in s.objs && (s.objs[p].done ==> p in s.deliveries && |s.deliveries[p]| == 1)
            && end.objs[p].ch == Some(if s.objs[p].done then s.deliveries[p][0].r else Failed(ManagerClosed))
  {
    var p := PcOf(s, t).p;
    AtSecondReceive(s, t);
    assert ObjOk(s, p);
    if s.objs[p].done {
      steps, end := [], s;
    } else {
      steps, end := CloserReaches(s, p);
    }
  }

  /** A Wait whose context ended never waits forever for its own slot: the slot is full
      already, or Close still owes this waiter a delivery and fills it by its own steps. */
  lemma CancelledWaitReturns(before: seq<Step>, s: State, t: Tid) returns (steps: seq<Step>, end: State)
    requires CleanRun(INIT, before, s) && PcOf(s, t).Receiving?
    ensures CleanRun(s, steps, end) && |steps| <= |s.owed|
    ensures forall a :: a in steps ==> a == CloseDeliver(s.closer)
    ensures PcOf(end, t) == PcOf(s, t) && CanReceive(end, t)
    ensures var p := PcOf(s, t).p;
            && p in s.objs && (s.objs[p].done ==> p in s.deliveries && |s.deliveries[p]| == 1)
            && end.objs[p].ch == Some(if s.objs[p].done then s.deliveries[p][0].r else Failed(ManagerClosed))
  {
    ReachableInv(before, s);
    steps, end := SecondReceiveReturns(s, t);
  }

  /** Critical sections under Manager.mu that leave the objects alone. */
  predicate TableOnly(a: Step) {
    a.Finish? || a.WaitLookup? || a.WaitCancel? || a.CancelRemove? || a.WaitRemove? || a.CloseSnapshot?
  }

  lemma TableStepsWriteNoObject(s: State, a: Step)
    requires Enabled(s, a) && TableOnly(a)
    ensures Apply(s, a).objs == s.objs && Apply(s, a).pool == s.pool
  {
  }

  lemma TableStepMoves(s: State, a: Step)
    requires Enabled(s, a) && TableOnly(a)
    ensures forall t :: t != a.t ==> PcOf(Apply(s, a), t) == PcOf(s, t)
  {
  }

  lemma OnlyActorMoves(s: State, a: Step)
    requires Enabled(s, a)
    ensures forall t :: t != a.t ==> PcOf(Apply(s, a), t) == PcOf(s, t)
  {
    if TableOnly(a) {
      TableStepMoves(s, a);
    }
  }

  lemma DeliveryKeepsDone(s: State, a: Step, p: Pid)
    requires Enabled(s, a) && (a.TryDeliver? || a.CloseDeliver?) && p in s.objs
    ensures p in Apply(s, a).objs && (s.objs[p].done ==> Apply(s, a).objs[p].done)
  {
  }

  /** Only a release or a new tenancy clears done. */
  lemma DoneStays(s: State, a: Step, p: Pid)
    requires Enabled(s, a) && Live(s, p)
    requires !(a.WaitReset? && PcOf(s, a.t).p == p)
    ensures p in Apply(s, a).objs && (s.objs[p].done ==> Apply(s, a).objs[p].done)
  {
    if a.Finish? || a.WaitLookup? || a.WaitCancel? || a.CancelRemove? || a.WaitRemove? || a.CloseSnapshot? {
      assert Apply(s, a).objs == s.objs;
    } else if a.TryDeliver? || a.CloseDeliver? {
      DeliveryKeepsDone(s, a, p);
    } else {
      assert a.CreateReset? || a.CreateNext? || a.WaitClaim? || a.WaitReceive? || a.WaitDrain? || a.WaitReset?;
    }
  }

  lemma OwedShrinks(s: State, a: Step)
    requires Enabled(s, a) && s.tab.closed
    ensures Apply(s, a).owed == s.owed || Apply(s, a).owed == s.owed[1..]
  {
  }

  /** Nor can any other step put that off: a full slot stays full, and the list that Close
      works off only loses its head. */
  lemma CancelledWaitKeepsProgress(before: seq<Step>, s: State, t: Tid, a: Step)
    requires CleanRun(INIT, before, s) && PcOf(s, t).Receiving? && Enabled(s, a) && Clean(s, a) && a.t != t
    ensures PcOf(Apply(s, a), t) == PcOf(s, t)
    ensures CanReceive(s, t) ==> CanReceive(Apply(s, a), t)
    ensures !CanReceive(s, t) ==>
              && PcOf(s, t).p in s.owed
              && (CanReceive(Apply(s, a), t) || Apply(s, a).owed == s.owed || Apply(s, a).owed == s.owed[1..])
  {
    ReachableInv(before, s);
    AtSecondReceive(s, t);
    OnlyActorMoves(s, a);
    DoneStays(s, a, PcOf(s, t).p);
    if !CanReceive(s, t) {
      OwedShrinks(s, a);
    }
    var s1 := Apply(s, a);
    assert Inv(s1) by {
      StepInv(s, a);
    }
    AtSecondReceive(s1, t);
  }

  // ---- Ownership of pooled envelopes, in every run ----

  /** Thread t is responsible for envelope h. */
  predicate Carries(s: State, t: Tid, h: nat) {
    match PcOf(s, t)
    case Delivering(_, _, _, _, carrier) => carrier == Some(h)
    case Received(_, _, r) => HandleOf(r) == Some(h)
    case Draining(_, _, r) => HandleOf(r) == Some(h)
    case Resetting(_, _, r) => HandleOf(r) == Some(h)
    case _ => false
  }

  /** Envelope h lies in the slot of object p. */
  predicate InSlot(s: State, p: Pid, h: nat) {
    p in s.objs && s.objs[p].ch.Some? && HandleOf(s.objs[p].ch.value) == Some(h)
  }

  /** Envelope h is in one place: with one thread, in one slot, or back in the pool, where
      it arrived once. */
  ghost predicate OnePlace(s: State, h: nat) {
    && (forall t, u :: Carries(s, t, h) && Carries(s, u, h) ==> t == u)
    && (forall p, q :: InSlot(s, p, h) && InSlot(s, q, h) ==> p == q)
    && (forall t, p :: Carries(s, t, h) ==> !InSlot(s, p, h))
    && (forall t :: Carries(s, t, h) ==> s.released[h] == 0 && h in s.used)
    && (forall p :: InSlot(s, p, h) ==> s.released[h] == 0 && h in s.used)
    && s.released[h] <= 1
    && (h !in s.used ==> s.released[h] == 0)
  }

  /** A thread that delivers a reply is responsible for that reply's envelope. */
  ghost predicate CarriersOk(s: State) {
    forall t :: t in s.pcs && s.pcs[t].Delivering? && s.pcs[t].r.Reply? ==>
      s.pcs[t].carrier == Some(s.pcs[t].r.env.handle)
  }

  /** h did not move, except that it may have been dropped for the garbage collector. */
  ghost predicate Quiet(s: State, s1: State, h: nat) {
    && s1.used == s.used && s1.released == s.released
    && (forall t :: Carries(s1, t, h) ==> Carries(s, t, h))
    && (forall p :: InSlot(s1, p, h) ==> InSlot(s, p, h))
  }

  lemma QuietStep(s: State, a: Step, h: nat)
    requires Enabled(s, a) && !a.Finish? && !a.TryDeliver? && !a.WaitReceive? && !a.WaitReset?
    ensures Quiet(s, Apply(s, a), h)
  {
    OnlyActorMoves(s, a);
    if TableOnly(a) {
      TableStepsWriteNoObject(s, a);
    }
  }

  lemma FinishLeavesOthers(s: State, t: Tid, id: nat, r: Outcome, after: After, carrier: Option<nat>, h: nat)
    ensures var s1 := DoFinish(s, t, id, r, after, carrier);
            && (forall u :: u != t ==> (Carries(s1, u, h) <==> Carries(s, u, h)))
            && (forall q :: InSlot(s1, q, h) <==> InSlot(s, q, h))
  {
  }

  /** A dispatcher thread becomes responsible for the envelope it brings, or puts it back. */
  lemma FinishTakesOne(s: State, t: Tid, id: nat, r: Outcome, after: After, carrier: Option<nat>, h: nat)
    requires CanFinish(s, t, r, after, carrier)
    ensures var s1 := DoFinish(s, t, id, r, after, carrier);
            && (Carries(s1, t, h) ==> carrier == Some(h) && s1.released == s.released)
            && s1.released[h] == s.released[h] + (if carrier == Some(h) && !Carries(s1, t, h) then 1 else 0)
            && (h in s1.used <==> h in s.used || carrier == Some(h))
  {
  }

  lemma FinishOnePlace(s: State, t: Tid, id: nat, r: Outcome, after: After, carrier: Option<nat>, h: nat)
    requires OnePlace(s, h) && CanFinish(s, t, r, after, carrier)
    ensures OnePlace(DoFinish(s, t, id, r, after, carrier), h)
  {
    var s1 := DoFinish(s, t, id, r, after, carrier);
    FinishLeavesOthers(s, t, id, r, after, carrier, h);
    FinishTakesOne(s, t, id, r, after, carrier, h);
    assert !Carries(s, t, h);
    assert carrier == Some(h) ==> h !in s.used;
  }

  lemma TryDeliverOnePlace(s: State, t: Tid, h: nat)
    requires OnePlace(s, h) && CarriersOk(s) && CanTryDeliver(s, t)
    ensures OnePlace(DoTryDeliver(s, t), h)
  {
    var s1 := DoTryDeliver(s, t);
    var p := PcOf(s, t).p;
    assert Carries(s, t, h) <==> PcOf(s, t).carrier == Some(h);
    assert PcOf(s, t).r.Reply? ==> PcOf(s, t).carrier == HandleOf(PcOf(s, t).r);
    assert forall u :: u != t ==> (Carries(s1, u, h) <==> Carries(s, u, h));
    assert forall q :: q != p ==> (InSlot(s1, q, h) <==> InSlot(s, q, h));
    assert InSlot(s1, p, h) ==> InSlot(s, p, h) || (Carries(s, t, h) && s1.released == s.released);
    assert !Carries(s1, t, h);
    if !InSlot(s, p, h) && InSlot(s1, p, h) {
      assert forall q :: !InSlot(s, q, h);
    }
  }

  lemma ReceiveOnePlace(s: State, t: Tid, h: nat)
    requires OnePlace(s, h) && CanReceive(s, t)
    ensures OnePlace(DoReceive(s, t), h)
  {
    var s1 := DoReceive(s, t);
    assert forall u :: u != t ==> (Carries(s1, u, h) <==> Carries(s, u, h));
    assert forall q :: q != PcOf(s, t).p ==> (InSlot(s1, q, h) <==> InSlot(s, q, h));
    assert Carries(s1, t, h) ==> InSlot(s, PcOf(s, t).p, h) && !InSlot(s1, PcOf(s, t).p, h);
  }

  lemma ResetOnePlace(s: State, t: Tid, h: nat)
    requires OnePlace(s, h) && CanReset(s, t)
    ensures OnePlace(DoWaitReset(s, t), h)
  {
    var s1 := DoWaitReset(s, t);
    assert Carries(s, t, h) <==> HandleOf(PcOf(s, t).r) == Some(h);
    assert forall u :: u != t ==> (Carries(s1, u, h) <==> Carries(s, u, h));
    assert forall q :: InSlot(s1, q, h) <==> InSlot(s, q, h);
    assert !Carries(s1, t, h);
  }

  lemma StepOnePlace(s: State, a: Step, h: nat)
    requires OnePlace(s, h) && CarriersOk(s) && Enabled(s, a)
    ensures OnePlace(Apply(s, a), h)
  {
    match a
    case Finish(t, id, r, after, carrier) => FinishOnePlace(s, t, id, r, after, carrier, h);
    case TryDeliver(t) => TryDeliverOnePlace(s, t, h);
    case WaitReceive(t) => ReceiveOnePlace(s, t, h);
    case WaitReset(t) => ResetOnePlace(s, t, h);
    case _ => QuietStep(s, a, h);
  }

  lemma StepCarriers(s: State, a: Step)
    requires CarriersOk(s) && Enabled(s, a)
    ensures CarriersOk(Apply(s, a))
  {
    var s1 := Apply(s, a);
    OnlyActorMoves(s, a);
    assert PcOf(s1, a.t).Delivering? && PcOf(s1, a.t).r.Reply? ==> PcOf(s1, a.t).carrier == Some(PcOf(s1, a.t).r.env.handle);
    forall t | t in s1.pcs && s1.pcs[t].Delivering? && s1.pcs[t].r.Reply?
      ensures s1.pcs[t].carrier == Some(s1.pcs[t].r.env.handle)
    {
      assert PcOf(s1, t) == s1.pcs[t];
      assert t != a.t ==> PcOf(s, t) == s1.pcs[t];
    }
  }

  lemma {:induction false} RunOnePlace(s: State, steps: seq<Step>, end: State, h: nat)
    requires OnePlace(s, h) && CarriersOk(s) && Run(s, steps, end)
    ensures OnePlace(end, h)
    decreases |steps|
  {
    if steps != [] {
      StepOnePlace(s, steps[0], h);
      StepCarriers(s, steps[0]);
      RunOnePlace(Apply(s, steps[0]), steps[1..], end, h);
    }
  }

  /** No envelope is put back twice, in any run, clean or not: whoever holds it is its only holder. */
  lemma ReleasedAtMostOnce(steps: seq<Step>, s: State, h: nat)
    requires Run(INIT, steps, s)
    ensures s.released[h] <= 1
    ensures forall t :: Carries(s, t, h) ==> s.released[h] == 0
    ensures forall p :: InSlot(s, p, h) ==> s.released[h] == 0
    ensures forall t, u :: Carries(s, t, h) && Carries(s, u, h) ==> t == u
  {
    RunOnePlace(INIT, steps, s, h);
  }
}
