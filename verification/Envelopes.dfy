/** Where every response envelope ends up: with a thread, in a slot, back in the decode pool, or
    dropped for the garbage collector by one of three steps. */
module Envelopes {
  import opened Wrappers
  import opened Pendings
  import opened Protocol
  import opened Correlation

  ghost predicate Located(s: State, h: nat) {
    (exists t :: Carries(s, t, h)) || (exists p :: InSlot(s, p, h)) || s.released[h] == 1
  }

  /** The steps that let go of an envelope without putting it back: an ERROR that finds its waiter,
      and the drains of Create and Wait. */
  ghost predicate Drops(s: State, a: Step, h: nat)
    requires Enabled(s, a)
  {
    match a
    case TryDeliver(t) => Carries(s, t, h) && PcOf(s, t).r.Failed? && !s.objs[PcOf(s, t).p].done
    case CreateNext(t) => PcOf(s, t).phase.Drain? && InSlot(s, PcOf(s, t).p, h)
    case WaitDrain(t) => InSlot(s, PcOf(s, t).p, h)
    case _ => false
  }

  // ---- One step ----

  /** Nobody's hands and nobody's slot change, as far as h goes. */
  ghost predicate Untouched(s: State, s1: State, h: nat) {
    && s1.used == s.used && s1.released == s.released
    && (forall t :: Carries(s1, t, h) <==> Carries(s, t, h))
    && (forall p :: InSlot(s1, p, h) <==> InSlot(s, p, h))
  }

  lemma UntouchedLocated(s: State, s1: State, h: nat)
    requires Untouched(s, s1, h)
    ensures Located(s1, h) <==> Located(s, h)
  {
    if t :| Carries(s, t, h) {
      assert Carries(s1, t, h);
    }
    if p :| InSlot(s, p, h) {
      assert InSlot(s1, p, h);
    }
  }

  lemma TableStepTouchesNothing(s: State, a: Step, h: nat)
    requires Enabled(s, a) && TableOnly(a) && !a.Finish?
    ensures Untouched(s, Apply(s, a), h)
  {
    OnlyActorMoves(s, a);
    TableStepsWriteNoObject(s, a);
    assert Carries(Apply(s, a), a.t, h) <==> Carries(s, a.t, h);
  }

  lemma ObjectStepTouchesNothing(s: State, a: Step, h: nat)
    requires Enabled(s, a) && (a.CreateReset? || a.WaitClaim? || a.CloseDeliver?)
    ensures Untouched(s, Apply(s, a), h)
  {
    OnlyActorMoves(s, a);
    assert Carries(Apply(s, a), a.t, h) <==> Carries(s, a.t, h);
  }

  /** A drain empties one slot. */
  lemma DrainTouches(s: State, a: Step, h: nat)
    requires OnePlace(s, h) && Enabled(s, a) && (a.CreateNext? || a.WaitDrain?)
    ensures if Drops(s, a, h) then !Located(Apply(s, a), h) else Untouched(s, Apply(s, a), h)
  {
    var s1 := Apply(s, a);
    OnlyActorMoves(s, a);
    assert Carries(s1, a.t, h) <==> Carries(s, a.t, h);
    var p := PcOf(s, a.t).p;
    assert forall q :: q != p ==> (InSlot(s1, q, h) <==> InSlot(s, q, h));
    if Drops(s, a, h) {
      assert InSlot(s, p, h);
      assert forall t :: Carries(s1, t, h) <==> Carries(s, t, h);
    }
  }

  lemma FinishLocates(s: State, t: Tid, id: nat, r: Outcome, after: After, carrier: Option<nat>, h: nat)
    requires OnePlace(s, h) && CanFinish(s, t, r, after, carrier)
    ensures var s1 := DoFinish(s, t, id, r, after, carrier);
            if carrier == Some(h) then h !in s.used && Located(s1, h) else Located(s1, h) <==> Located(s, h)
  {
    var s1 := DoFinish(s, t, id, r, after, carrier);
    FinishLeavesOthers(s, t, id, r, after, carrier, h);
    FinishTakesOne(s, t, id, r, after, carrier, h);
    assert !Carries(s, t, h);
    if carrier == Some(h) {
      assert Carries(s1, t, h) || s1.released[h] == 1;
    } else {
      assert forall u :: Carries(s1, u, h) <==> Carries(s, u, h);
      if u :| Carries(s, u, h) { assert Carries(s1, u, h); }
      if q :| InSlot(s, q, h) { assert InSlot(s1, q, h); }
    }
  }

  lemma DeliverOthers(s: State, t: Tid, h: nat)
    requires CanTryDeliver(s, t)
    ensures var s1 := DoTryDeliver(s, t);
            && (forall u :: u != t ==> (Carries(s1, u, h) <==> Carries(s, u, h))) && !Carries(s1, t, h)
            && (forall q :: q != PcOf(s, t).p ==> (InSlot(s1, q, h) <==> InSlot(s, q, h)))
  {
  }

  lemma DeliverLocates(s: State, t: Tid, h: nat)
    requires OnePlace(s, h) && CarriersOk(s) && CanTryDeliver(s, t)
    ensures Located(DoTryDeliver(s, t), h) <==> Located(s, h) && !Drops(s, TryDeliver(t), h)
  {
    var s1 := DoTryDeliver(s, t);
    var p := PcOf(s, t).p;
    DeliverOthers(s, t, h);
    if Carries(s, t, h) {
      assert s.released[h] == 0;
      if s.objs[p].done {
        assert s1.released[h] == 1;
      } else if PcOf(s, t).r.Reply? {
        assert InSlot(s1, p, h);
      } else {
        assert !InSlot(s1, p, h);
      }
    } else {
      assert s1.released[h] == s.released[h];
      assert InSlot(s1, p, h) <==> InSlot(s, p, h);
      if u :| Carries(s, u, h) { assert Carries(s1, u, h); }
      if q :| InSlot(s, q, h) { assert InSlot(s1, q, h); }
    }
  }

  lemma ReceiveLocates(s: State, t: Tid, h: nat)
    requires OnePlace(s, h) && CanReceive(s, t)
    ensures Located(DoReceive(s, t), h) <==> Located(s, h)
  {
    var s1 := DoReceive(s, t);
    var p := PcOf(s, t).p;
    assert forall u :: u != t ==> (Carries(s1, u, h) <==> Carries(s, u, h));
    assert forall q :: q != p ==> (InSlot(s1, q, h) <==> InSlot(s, q, h));
    assert !Carries(s, t, h) && (Carries(s1, t, h) <==> InSlot(s, p, h));
    if u :| Carries(s, u, h) { assert Carries(s1, u, h); }
    if q :| InSlot(s, q, h) { assert q == p || InSlot(s1, q, h); }
  }

  lemma ResetLocates(s: State, t: Tid, h: nat)
    requires OnePlace(s, h) && CanReset(s, t)
    ensures Located(DoWaitReset(s, t), h) <==> Located(s, h)
  {
    var s1 := DoWaitReset(s, t);
    assert forall u :: u != t ==> (Carries(s1, u, h) <==> Carries(s, u, h));
    assert forall q :: InSlot(s1, q, h) <==> InSlot(s, q, h);
    assert !Carries(s1, t, h) && (Carries(s, t, h) <==> HandleOf(PcOf(s, t).r) == Some(h));
    if Carries(s, t, h) {
      assert s1.released[h] == 1;
    } else {
      assert s1.released[h] == s.released[h];
      if u :| Carries(s, u, h) { assert Carries(s1, u, h); }
      if q :| InSlot(s, q, h) { assert InSlot(s1, q, h); }
    }
  }

  lemma DrainStep(s: State, a: Step, h: nat)
    requires OnePlace(s, h) && Enabled(s, a) && (a.CreateNext? || a.WaitDrain?)
    ensures Located(Apply(s, a), h) <==> Located(s, h) && !Drops(s, a, h)
    ensures Apply(s, a).used == s.used
  {
    DrainTouches(s, a, h);
    if !Drops(s, a, h) {
      UntouchedLocated(s, Apply(s, a), h);
    }
  }

  lemma OtherStep(s: State, a: Step, h: nat)
    requires Enabled(s, a) && !a.Finish? && !a.TryDeliver? && !a.WaitReceive? && !a.WaitReset? && !a.CreateNext? && !a.WaitDrain?
    ensures Located(Apply(s, a), h) <==> Located(s, h)
    ensures Apply(s, a).used == s.used && !Drops(s, a, h)
  {
    if TableOnly(a) {
      TableStepTouchesNothing(s, a, h);
    } else {
      ObjectStepTouchesNothing(s, a, h);
    }
    UntouchedLocated(s, Apply(s, a), h);
  }

  /** A step loses an envelope if and only if it is one of the three. */
  lemma StepLocates(s: State, a: Step, h: nat)
    requires OnePlace(s, h) && CarriersOk(s) && Enabled(s, a) && h in s.used
    ensures h in Apply(s, a).used
    ensures Located(Apply(s, a), h) <==> Located(s, h) && !Drops(s, a, h)
  {
    match a
    case Finish(t, id, r, after, carrier) =>
      FinishLocates(s, t, id, r, after, carrier, h);
      FinishTakesOne(s, t, id, r, after, carrier, h);
    case TryDeliver(t) => DeliverLocates(s, t, h);
    case WaitReceive(t) => ReceiveLocates(s, t, h);
    case WaitReset(t) => ResetLocates(s, t, h);
    case CreateNext(_) => DrainStep(s, a, h);
    case WaitDrain(_) => DrainStep(s, a, h);
    case _ => OtherStep(s, a, h);
  }

  lemma SameUsed(s: State, a: Step)
    requires Enabled(s, a) && !a.Finish?
    ensures Apply(s, a).used == s.used
  {
  }

  /** An envelope comes into the protocol in somebody's hands, or goes straight back. */
  lemma FirstUse(s: State, a: Step, h: nat)
    requires OnePlace(s, h) && CarriersOk(s) && Enabled(s, a) && h !in s.used
    ensures !Drops(s, a, h) && (h in Apply(s, a).used ==> Located(Apply(s, a), h))
  {
    if a.Finish? {
      FinishLocates(s, a.t, a.id, a.r, a.after, a.carrier, h);
      FinishTakesOne(s, a.t, a.id, a.r, a.after, a.carrier, h);
    } else {
      SameUsed(s, a);
    }
  }

  // ---- Whole runs ----

  ghost predicate DroppedIn(s: State, steps: seq<Step>, end: State, h: nat)
    requires Run(s, steps, end)
    decreases |steps|
  {
    steps != [] && (Drops(s, steps[0], h) || DroppedIn(Apply(s, steps[0]), steps[1..], end, h))
  }

  lemma {:induction false} RunLocates(s: State, steps: seq<Step>, end: State, h: nat)
    requires OnePlace(s, h) && CarriersOk(s) && Run(s, steps, end)
    ensures h in s.used && !Located(s, h) ==> h in end.used && !Located(end, h)
    ensures h in end.used && (h in s.used ==> Located(s, h)) ==> (Located(end, h) <==> !DroppedIn(s, steps, end, h))
    decreases |steps|
  {
    if steps != [] {
      var a := steps[0];
      StepOnePlace(s, a, h);
      StepCarriers(s, a);
      RunLocates(Apply(s, a), steps[1..], end, h);
      if h in s.used {
        StepLocates(s, a, h);
      } else {
        FirstUse(s, a, h);
      }
    }
  }

  /** In every run, clean or not: an envelope that was decoded is with a thread, in a slot or back in
      the pool, where it arrived once, unless one of the three steps has dropped it; and a dropped
      one never comes back. */
  lemma EnvelopeAccounted(steps: seq<Step>, s: State, h: nat)
    requires Run(INIT, steps, s) && h in s.used
    ensures Located(s, h) <==> !DroppedIn(INIT, steps, s, h)
  {
    RunLocates(INIT, steps, s, h);
  }

  /** In a clean run the drain of Wait drops nothing: what gets lost is an ERROR that was delivered,
      or a reply that was delivered to a waiter already in the pool. */
  lemma CleanDrops(steps: seq<Step>, s: State, a: Step, h: nat)
    requires CleanRun(INIT, steps, s) && Enabled(s, a) && Drops(s, a, h)
    ensures (a.TryDeliver? && PcOf(s, a.t).r.Failed?) || (a.CreateNext? && PcOf(s, a.t).p in s.pool)
  {
    ReachableInv(steps, s);
    assert ThreadOk(s, s.pcs[a.t]);
  }
}
