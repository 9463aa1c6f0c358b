/** Concrete runs, clean up to their last step, that reach each kind of unclean step and
    what follows from it. */
module Races {
  import opened Wrappers
  import opened Pendings
  import opened Managers
  import opened Protocol
  import opened Correlation
  import opened Necessity
  import opened Acquisition
  import opened Envelopes

  const FIRST := Reply(Envelope(1, 1, 1001, [7]))
  const DUPLICATE := Reply(Envelope(2, 1, 1001, [7]))

  /** The first Create, by thread 0 on object 0. */
  lemma FirstCreate(wanted: nat, k: nat) returns (steps: seq<Step>, s: State)
    requires if wanted == 0 then k == 1 else true
    ensures CleanRun(INIT, steps, s) && CreateReset(0, wanted, k, 0) in steps
    ensures var id := if wanted == 0 then 1 else wanted;
            && s.tab == Table(if wanted == 0 then 1 else 0, false, map[id := 0]) && s.objs == map[0 := Cleared(id)]
            && s.pool == {} && s.acquiring == None && s.pcs == map[0 := Idle] && s.owed == [] && s.used == {}
            && s.deliveries == map[0 := []]
  {
    assert Advance(0, 1) == 1 && (wanted == 0 ==> StopsAfter(INIT.tab, 1));
    steps, s := CreateIsItsParts(INIT, 0, wanted, k, 0);
  }

  /** A call of finish finds its waiter. */
  lemma LooksUp(s: State, t: Tid, id: nat, r: Outcome, after: After, carrier: Option<nat>) returns (steps: seq<Step>, end: State)
    requires CanFinish(s, t, r, after, carrier) && !s.tab.closed && id in s.tab.wait
    ensures CleanRun(s, steps, end)
    ensures end == s.(used := if carrier.Some? then s.used + {carrier.value} else s.used,
                      pcs := s.pcs[t := Delivering(s.tab.wait[id], id, r, after, carrier)])
  {
    var a := Finish(t, id, r, after, carrier);
    end := Apply(s, a);
    RunCons(s, a, [], end);
    steps := [a];
  }

  lemma Delivers(s: State, t: Tid) returns (steps: seq<Step>, end: State)
    requires CanTryDeliver(s, t) && !s.objs[PcOf(s, t).p].done
    ensures CleanRun(s, steps, end)
    ensures var pc := PcOf(s, t);
            end == Delivered(s, pc.p, Delivery(pc.id, pc.r)).(pcs := s.pcs[t := AfterFinish(pc.id, pc.after)])
  {
    end := Apply(s, TryDeliver(t));
    RunCons(s, TryDeliver(t), [], end);
    steps := [TryDeliver(t)];
  }

  lemma DeliversAndReceives(s: State, u: Tid, t: Tid) returns (steps: seq<Step>, end: State)
    requires CanTryDeliver(s, u) && !s.objs[PcOf(s, u).p].done && PcOf(s, u).after.Return?
    requires PcOf(s, t).Selecting? && PcOf(s, t).p == PcOf(s, u).p
    ensures CleanRun(s, steps, end)
    ensures var Delivering(p, id, r, _, _) := PcOf(s, u);
            && end.pcs == s.pcs[u := Idle][t := Received(p, PcOf(s, t).id, r)]
            && end.objs == s.objs[p := s.objs[p].(done := true, ch := None)]
            && end.tab == s.tab && end.pool == s.pool && end.acquiring == s.acquiring
  {
    var s1;
    steps, s1 := Delivers(s, u);
    end := Apply(s1, WaitReceive(t));
    RunCons(s1, WaitReceive(t), [], end);
    RunAppend(s, steps, s1, [WaitReceive(t)], end);
    steps := steps + [WaitReceive(t)];
  }

  lemma RemovesAndDrains(s: State, r: Outcome) returns (steps: seq<Step>, end: State)
    requires PcOf(s, 0) == Received(0, 1, r) && 0 in s.objs && Free(s)
    ensures CleanRun(s, steps, end)
    ensures end == s.(pcs := s.pcs[0 := Resetting(0, 1, r)], tab := Delete(s.tab, 1),
                      objs := s.objs[0 := s.objs[0].(ch := None)])
  {
    var mid := Apply(s, WaitRemove(0));
    end := Apply(mid, WaitDrain(0));
    assert end.pcs == s.pcs[0 := Resetting(0, 1, r)];
    RunCons(mid, WaitDrain(0), [], end);
    RunCons(s, WaitRemove(0), [WaitDrain(0)], end);
    steps := [WaitRemove(0)] + [WaitDrain(0)];
  }

  lemma Removes(s: State, t: Tid, id: nat) returns (steps: seq<Step>, end: State)
    requires PcOf(s, t) == Removing(id) && Free(s)
    ensures CleanRun(s, steps, end) && end == s.(tab := Delete(s.tab, id), pcs := s.pcs[t := Idle])
  {
    end := Apply(s, CancelRemove(t));
    RunCons(s, CancelRemove(t), [], end);
    steps := [CancelRemove(t)];
  }

  lemma StartsWait(s: State, t: Tid, id: nat) returns (steps: seq<Step>, end: State)
    requires PcOf(s, t).Idle? && Free(s) && !s.tab.closed && id in s.tab.wait
    ensures CleanRun(s, steps, end) && end == s.(pcs := s.pcs[t := Claiming(s.tab.wait[id], id)])
  {
    end := Apply(s, WaitLookup(t, id));
    RunCons(s, WaitLookup(t, id), [], end);
    steps := [WaitLookup(t, id)];
  }

  /** Three runs in a row. */
  lemma Join(s: State, xs: seq<Step>, s1: State, ys: seq<Step>, s2: State, zs: seq<Step>, end: State) returns (steps: seq<Step>)
    requires CleanRun(s, xs, s1) && CleanRun(s1, ys, s2) && CleanRun(s2, zs, end)
    ensures CleanRun(s, steps, end) && steps == xs + (ys + zs)
  {
    RunAppend(s1, ys, s2, zs, end);
    RunAppend(s, xs, s1, ys + zs, end);
    steps := xs + (ys + zs);
  }

  /** Thread 1 delivers, thread 0 receives, removes and drains. */
  lemma ReplyBeforeRelease(s5: State) returns (steps: seq<Step>, end: State)
    requires s5.objs == map[0 := PendingState(1, false, true, None)]
    requires PcOf(s5, 0) == Selecting(0, 1) && PcOf(s5, 1) == Delivering(0, 1, FIRST, Return, Some(1)) && Free(s5)
    ensures CleanRun(s5, steps, end)
    ensures end.pcs == s5.pcs[1 := Idle][0 := Resetting(0, 1, FIRST)]
    ensures end.tab == Delete(s5.tab, 1) && end.pool == s5.pool && Free(end)
    ensures 0 in end.objs && end.objs[0].ch.None?
  {
    var xs, s7 := DeliversAndReceives(s5, 1, 0);
    var ys;
    ys, end := RemovesAndDrains(s7, FIRST);
    assert end.pcs == s5.pcs[1 := Idle][0 := Resetting(0, 1, FIRST)];
    RunAppend(s5, xs, s7, ys, end);
    steps := xs + ys;
  }

  lemma Releases(s: State, t: Tid) returns (steps: seq<Step>, end: State)
    requires CanReset(s, t) && NoClaimant(s, PcOf(s, t).p)
    ensures CleanRun(s, steps, end) && end == DoWaitReset(s, t)
  {
    end := Apply(s, WaitReset(t));
    RunCons(s, WaitReset(t), [], end);
    steps := [WaitReset(t)];
  }

  lemma ReplyThenRelease(s5: State) returns (steps: seq<Step>, end: State)
    requires s5.objs == map[0 := PendingState(1, false, true, None)] && s5.pool == {} && Free(s5)
    requires s5.tab == Table(1, false, map[1 := 0])
    requires PcOf(s5, 0) == Selecting(0, 1) && PcOf(s5, 1) == Delivering(0, 1, FIRST, Return, Some(1)) && NoClaimant(s5, 0)
    ensures CleanRun(s5, steps, end)
    ensures end.pcs == s5.pcs[1 := Idle][0 := Idle]
    ensures end.tab == Table(1, false, map[]) && end.pool == {0} && Free(end)
    ensures 0 in end.objs && end.objs[0] == Cleared(0)
  {
    var xs, s9 := ReplyBeforeRelease(s5);
    var ys;
    ys, end := Releases(s9, 0);
    assert end.pcs == s5.pcs[1 := Idle][0 := Idle];
    RunAppend(s5, xs, s9, ys, end);
    steps := xs + ys;
  }

  lemma OthersIdle(s: State, s1: State)
    requires forall t :: t != 0 ==> PcOf(s, t).Idle?
    requires PcOf(s1, 0).Selecting? && PcOf(s1, 1).Delivering? && PcOf(s1, 2).Delivering? && forall t :: t > 2 ==> PcOf(s1, t) == PcOf(s, t)
    ensures NoClaimant(s1, 0)
  {
    forall t | t in s1.pcs
      ensures !s1.pcs[t].Claiming?
    {
      assert PcOf(s1, t) == s1.pcs[t] && (t > 2 ==> PcOf(s, t).Idle?);
    }
  }

  lemma RepliedTwice(s3: State) returns (steps: seq<Step>, s: State)
    requires s3.objs == map[0 := PendingState(1, false, true, None)] && s3.pool == {} && Free(s3) && s3.used == {}
    requires s3.tab == Table(1, false, map[1 := 0]) && PcOf(s3, 0) == Selecting(0, 1) && NoClaimant(s3, 0)
    requires forall t :: t != 0 ==> PcOf(s3, t).Idle?
    ensures CleanRun(s3, steps, s)
    ensures PcOf(s, 2) == Delivering(0, 1, DUPLICATE, Return, Some(2)) && forall t :: t != 2 ==> PcOf(s, t).Idle?
    ensures s.tab == Table(1, false, map[]) && s.pool == {0} && Free(s) && 0 in s.objs && s.objs[0] == Cleared(0)
  {
    var xs, s4 := LooksUp(s3, 1, 1, FIRST, Return, Some(1));
    assert PcOf(s4, 2) == PcOf(s3, 2);
    var ys, s5 := LooksUp(s4, 2, 1, DUPLICATE, Return, Some(2));
    var zs;
    OthersIdle(s3, s5);
    zs, s := ReplyThenRelease(s5);
    steps := Join(s3, xs, s4, ys, s5, zs, s);
    forall t | t != 2
      ensures PcOf(s, t).Idle?
    {
      assert t > 2 ==> PcOf(s, t) == PcOf(s3, t);
    }
  }

  /** Thread 0 is issued id 1 on object 0 and waits; threads 1 and 2 both look up the waiter,
      for a reply and its duplicate; the reply is delivered and the Wait returns. */
  lemma DuplicateReplyHeldAcrossRelease() returns (steps: seq<Step>, s: State)
    ensures CleanRun(INIT, steps, s)
    ensures PcOf(s, 2) == Delivering(0, 1, DUPLICATE, Return, Some(2)) && forall t :: t != 2 ==> PcOf(s, t).Idle?
    ensures s.tab == Table(1, false, map[]) && Free(s) && 0 in s.pool && 0 in s.objs && s.objs[0] == Cleared(0)
  {
    var first, s1 := FirstCreate(0, 1);
    var xs, s3 := WaitGoesOn(s1, 0, 1, 0);
    var rest;
    rest, s := RepliedTwice(s3);
    steps := Join(INIT, first, s1, xs, s3, rest, s);
  }

  lemma DeliversToPooled(s: State) returns (steps: seq<Step>, end: State)
    requires PcOf(s, 2) == Delivering(0, 1, DUPLICATE, Return, Some(2)) && (forall t :: t != 2 ==> PcOf(s, t).Idle?)
    requires s.tab == Table(1, false, map[]) && Free(s) && s.owed == [] && 0 in s.pool && 0 in s.objs && s.objs[0] == Cleared(0)
    ensures CleanRun(s, steps, end) && InSlot(end, 0, 2) && NoHolder(end, 0)
    ensures (forall t :: PcOf(end, t).Idle?) && end.tab == s.tab && Free(end) && end.pool == s.pool
  {
    steps, end := Delivers(s, 2);
    forall t
      ensures PcOf(end, t).Idle?
    {
      assert t != 2 ==> PcOf(end, t) == PcOf(s, t);
    }
    forall t | t in end.pcs
      ensures !Refers(end.pcs[t], 0)
    {
      assert PcOf(end, t) == end.pcs[t];
    }
  }

  lemma CreateReachesDrain(s: State) returns (steps: seq<Step>, end: State)
    requires InSlot(s, 0, 2) && NoHolder(s, 0) && (forall t :: PcOf(s, t).Idle?)
    requires s.tab == Table(1, false, map[]) && Free(s) && 0 in s.pool
    ensures CleanRun(s, steps, end) && InSlot(end, 0, 2) && PcOf(end, 3) == Acquiring(0, 5, Drain)
  {
    var a := CreateReset(3, 5, 0, 0);
    assert NoRemover(s, 5) by {
      assert forall t :: t in s.pcs ==> PcOf(s, t) == s.pcs[t];
    }
    var s1 := Apply(s, a);
    end := Apply(s1, CreateNext(3));
    RunCons(s1, CreateNext(3), [], end);
    RunCons(s, a, [CreateNext(3)] + [], end);
    steps := [a] + ([CreateNext(3)] + []);
  }

  /** A clean run that loses a reply: the duplicate is delivered to the waiter in the pool, and the
      next Create drains it. */
  lemma DuplicateIsDropped() returns (steps: seq<Step>, s: State, a: Step)
    ensures CleanRun(INIT, steps, s) && Enabled(s, a) && Clean(s, a) && a == CreateNext(3) && Drops(s, a, 2)
  {
    var xs, s1 := DuplicateReplyHeldAcrossRelease();
    assert s1.owed == [] by {
      ReachableInv(xs, s1);
    }
    var ys, s2 := DeliversToPooled(s1);
    var zs;
    zs, s := CreateReachesDrain(s2);
    steps := Join(INIT, xs, s1, ys, s2, zs, s);
    a := CreateNext(3);
  }

  /** Pool reuse with issued ids: id 2 takes the object of id 1, and its Wait receives the
      duplicate of id 1's reply. */
  lemma RecycledWaiterGetsForeignReply() returns (steps: seq<Step>, s: State, a: Step, more: seq<Step>, end: State)
    ensures CleanRun(INIT, steps, s) && Enabled(s, a) && !Clean(s, a)
    ensures CleanRun(Apply(s, a), more, end)
    ensures a.CreateReset? && a.wanted == 0
    ensures exists t :: Misdelivered(end, t) && PcOf(end, t).id == 2
  {
    steps, s := DuplicateReplyHeldAcrossRelease();
    ReachableInv(steps, s);
    a := CreateReset(0, 0, 1, 0);
    assert Advance(1, 1) == 2 && StopsAfter(s.tab, 1);
    assert Refers(s.pcs[2], 0);
    var v := FreshNat(s.pcs.Keys);
    more, end := StaleHolderMisdelivers(s, a, 2, v);
  }

  /** The same id again: thread 3 creates id 1 anew on object 0 while the duplicate of the old
      reply still holds it. The duplicate is delivered after `done` is reset and drained before the
      new Wait looks, which then waits for ever. */
  lemma RecreatedIDGoesDeaf() returns (steps: seq<Step>, s: State, a: Step, more: seq<Step>, end: State)
    ensures CleanRun(INIT, steps, s) && Enabled(s, a) && !Clean(s, a)
    ensures a == CreateReset(3, 1, 0, 0) && s.pcs.Keys >= {2} && s.pcs[2] == Delivering(0, 1, DUPLICATE, Return, Some(2))
    ensures CleanRun(Apply(s, a), more, end)
    ensures exists t :: Deaf(end, t) && DeafAlone(end, t, 0)
  {
    steps, s := DuplicateReplyHeldAcrossRelease();
    ReachableInv(steps, s);
    a := CreateReset(3, 1, 0, 0);
    assert Refers(s.pcs[2], 0);
    var v := FreshNat(s.pcs.Keys + {3});
    var w;
    more, end, w := StaleHolderDeafens(s, a, 2, v);
  }

  /** Cancel(id), start to end, on an undelivered waiter. */
  lemma Cancelled(s: State, u: Tid, id: nat) returns (steps: seq<Step>, end: State)
    requires PcOf(s, u).Idle? && Free(s) && !s.tab.closed && id in s.tab.wait
    requires var p := s.tab.wait[id]; p in s.objs && !s.objs[p].done && s.objs[p].ch.None?
    ensures CleanRun(s, steps, end)
    ensures var p := s.tab.wait[id];
            end == Delivered(s, p, Delivery(id, Failed(Canceled))).(tab := Delete(s.tab, id), pcs := s.pcs[u := Idle])
  {
    var xs, s1 := LooksUp(s, u, id, Failed(Canceled), ThenRemove, None);
    var ys, s2 := Delivers(s1, u);
    var zs;
    zs, end := Removes(s2, u, id);
    assert end.pcs == s.pcs[u := Idle];
    steps := Join(s, xs, s1, ys, s2, zs, end);
  }

  lemma CancelledWhileWaiting(s1: State) returns (steps: seq<Step>, s: State)
    requires s1.tab == Table(0, false, map[5 := 0]) && s1.objs == map[0 := Cleared(5)] && Free(s1)
    requires s1.pcs == map[0 := Idle] && s1.owed == []
    ensures CleanRun(s1, steps, s)
    ensures PcOf(s, 0) == Selecting(0, 5) && PcOf(s, 1).Idle? && PcOf(s, 2).Idle? && PcOf(s, 3).Idle?
    ensures s.tab.wait == map[] && !s.tab.closed && s.objs.Keys == {0} && NoHolder(s, 1) && Free(s)
  {
    var xs, s3 := WaitGoesOn(s1, 0, 5, 0);
    var rest;
    rest, s := Cancelled(s3, 1, 5);
    RunAppend(s1, xs, s3, rest, s);
    steps := xs + rest;
  }

  lemma CreatedAgain(s: State) returns (a: Step, more: seq<Step>, end: State)
    requires Inv(s) && PcOf(s, 0) == Selecting(0, 5) && PcOf(s, 2).Idle? && PcOf(s, 3).Idle?
    requires s.tab.wait == map[] && !s.tab.closed && s.objs.Keys == {0} && NoHolder(s, 1) && Free(s)
    ensures a == CreateReset(2, 5, 0, 1) && Enabled(s, a) && !Clean(s, a)
    ensures CleanRun(Apply(s, a), more, end) && Orphaned(end, 3) && PcOf(end, 3) == Receiving(1, 5)
  {
    a := CreateReset(2, 5, 0, 1);
    assert WillRemove(s, s.pcs[0], 5);
    more, end := StaleRemoverOrphans(s, a, 0, 3);
  }

  /** Cancel and re-creation: id 5 is created and awaited by thread 0, cancelled by thread 1, and
      created again on object 1 while thread 0 has still to return; thread 0's remove then
      deletes the new entry. */
  lemma RecreatedIDIsOrphaned() returns (steps: seq<Step>, s: State, a: Step, more: seq<Step>, end: State)
    ensures CleanRun(INIT, steps, s) && Enabled(s, a) && !Clean(s, a)
    ensures a == CreateReset(2, 5, 0, 1) && CreateReset(0, 5, 0, 0) in steps
    ensures CleanRun(Apply(s, a), more, end)
    ensures Orphaned(end, 3) && PcOf(end, 3) == Receiving(1, 5)
  {
    var first, s1 := FirstCreate(5, 0);
    var rest;
    rest, s := CancelledWhileWaiting(s1);
    RunAppend(INIT, first, s1, rest, s);
    steps := first + rest;
    ReachableInv(steps, s);
    a, more, end := CreatedAgain(s);
  }

  lemma RepliedOnce(s3: State) returns (steps: seq<Step>, s: State)
    requires s3.tab == Table(1, false, map[1 := 0]) && s3.objs == map[0 := PendingState(1, false, true, None)]
    requires PcOf(s3, 0) == Selecting(0, 1) && PcOf(s3, 1).Idle? && Free(s3) && s3.used == {}
    ensures CleanRun(s3, steps, s)
    ensures PcOf(s, 0) == Resetting(0, 1, FIRST) && PcOf(s, 3) == PcOf(s3, 3) && 0 in s.objs
  {
    var xs, s4 := LooksUp(s3, 1, 1, FIRST, Return, Some(1));
    var ys;
    ys, s := ReplyBeforeRelease(s4);
    RunAppend(s3, xs, s4, ys, s);
    steps := xs + ys;
  }

  lemma RepliedBesideSecondWait(s1: State) returns (steps: seq<Step>, s: State)
    requires s1.tab == Table(1, false, map[1 := 0]) && s1.objs == map[0 := Cleared(1)] && Free(s1)
    requires s1.pcs == map[0 := Idle] && s1.used == {}
    ensures CleanRun(s1, steps, s)
    ensures PcOf(s, 0) == Resetting(0, 1, FIRST) && PcOf(s, 3) == Claiming(0, 1) && 0 in s.objs
  {
    var xs, s2 := StartsWait(s1, 3, 1);
    var ys, s3 := WaitGoesOn(s2, 0, 1, 0);
    assert PcOf(s3, 3) == Claiming(0, 1) && PcOf(s3, 0) == Selecting(0, 1);
    assert s3.objs == map[0 := PendingState(1, false, true, None)];
    var zs;
    zs, s := RepliedOnce(s3);
    steps := Join(s1, xs, s2, ys, s3, zs, s);
  }

  /** Two Waits on one id: the second stands between lookup and claim when the first releases. */
  lemma SecondWaitOwnsReleasedObject() returns (steps: seq<Step>, s: State, a: Step, more: seq<Step>, end: State)
    ensures CleanRun(INIT, steps, s) && Enabled(s, a) && !Clean(s, a)
    ensures CleanRun(Apply(s, a), more, end)
    ensures exists t :: WaitsOnReleased(end, t)
  {
    var first, s1 := FirstCreate(0, 1);
    var rest;
    rest, s := RepliedBesideSecondWait(s1);
    RunAppend(INIT, first, s1, rest, s);
    steps := first + rest;
    a := WaitReset(0);
    ReachableInv(steps, s);
    more, end := SecondWaitClaimsReleased(s, a, 3);
  }
}
