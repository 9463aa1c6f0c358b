/** The side conditions of module Protocol are exact: an unclean step always leaves a way,
    by clean steps alone, to a state in which a waiter has gone wrong. */
module Necessity {
  import opened Wrappers
  import opened Pendings
  import opened Managers
  import opened Protocol
  import opened Correlation

  /** Wait(id) is about to return an outcome that was delivered for another id. */
  predicate Misdelivered(s: State, t: Tid) {
    var pc := PcOf(s, t);
    && pc.Received?
    && pc.p in s.deliveries && |s.deliveries[pc.p]| == 1
    && s.deliveries[pc.p][0].id != pc.id && s.deliveries[pc.p][0].r == pc.r
  }

  predicate Acquires(pc: Pc, p: Pid) {
    pc.Acquiring? && pc.p == p
  }

  /** A Wait sits at its second receive and nothing that could fill the slot is left: the
      object is in no table, on no list, in no pool and in nobody else's hands. */
  ghost predicate Orphaned(s: State, t: Tid) {
    var pc := PcOf(s, t);
    && pc.Receiving?
    && pc.p in s.objs && s.objs[pc.p].ch.None?
    && pc.p !in s.tab.wait.Values && pc.p !in s.owed && pc.p !in s.pool
    && forall u :: u in s.pcs && u != t ==> !Refers(s.pcs[u], pc.p) && !Acquires(s.pcs[u], pc.p)
  }

  /** A Wait that waits on an object which was given back to the pool. */
  predicate WaitsOnReleased(s: State, t: Tid) {
    PcOf(s, t).Selecting? && PcOf(s, t).p in s.pool
  }

  /** A Wait that has been given nothing yet, on an object that no Complete, Fail, Cancel or
      Close can find any more: a reply that arrives now is turned away. */
  predicate CutOff(s: State, t: Tid) {
    var pc := PcOf(s, t);
    && (pc.Selecting? || pc.Receiving?)
    && pc.p in s.objs && !s.objs[pc.p].done
    && pc.p !in s.tab.wait.Values && pc.p !in s.owed
  }

  /** A Wait on an object that counts as done although its slot is empty: every delivery is
      refused, so it waits for ever. */
  predicate Deaf(s: State, t: Tid) {
    var pc := PcOf(s, t);
    (pc.Selecting? || pc.Receiving?) && pc.p in s.objs && s.objs[pc.p].done && s.objs[pc.p].ch.None?
  }

  /** A delivery that is held up, with the object's lock held, by a full slot. */
  predicate SendBlocked(s: State, t: Tid) {
    PcOf(s, t).Delivering? && PcOf(s, t).p in s.objs && !CanDeliver(s.objs[PcOf(s, t).p])
  }

  ghost predicate GoneWrong(s: State, t: Tid) {
    Misdelivered(s, t) || Orphaned(s, t) || CutOff(s, t) || WaitsOnReleased(s, t) || Deaf(s, t) || SendBlocked(s, t)
  }

  /** An object outside table, list and pool, and not in the hands of the thread that steps. */
  ghost predicate OutOfReach(s: State, p: Pid, a: Step) {
    && !Refers(PcOf(s, a.t), p) && !Acquires(PcOf(s, a.t), p) && p in s.objs
    && p !in s.tab.wait.Values && p !in s.owed && p !in s.pool
  }

  lemma LookupNeverFinds(s: State, p: Pid, a: Step)
    requires Enabled(s, a) && OutOfReach(s, p, a) && TableOnly(a)
    ensures !Refers(PcOf(Apply(s, a), a.t), p) && !Acquires(PcOf(Apply(s, a), a.t), p)
  {
    assert forall id :: id in s.tab.wait ==> s.tab.wait[id] in s.tab.wait.Values;
  }

  lemma NeverFound(s: State, p: Pid, a: Step)
    requires Enabled(s, a) && OutOfReach(s, p, a)
    ensures !Refers(PcOf(Apply(s, a), a.t), p) && !Acquires(PcOf(Apply(s, a), a.t), p)
  {
    if TableOnly(a) {
      LookupNeverFinds(s, p, a);
    }
  }

  lemma NeverWritten(s: State, p: Pid, a: Step)
    requires Enabled(s, a) && OutOfReach(s, p, a)
    ensures p in Apply(s, a).objs && Apply(s, a).objs[p] == s.objs[p]
  {
    if TableOnly(a) {
      TableStepsWriteNoObject(s, a);
    }
  }

  /** The table only loses entries, unless a Create inserts its own object. */
  lemma TableGains(s: State, a: Step)
    requires Enabled(s, a)
    ensures forall id :: id in Apply(s, a).tab.wait ==>
              || (id in s.tab.wait && Apply(s, a).tab.wait[id] == s.tab.wait[id])
              || (PcOf(s, a.t).Acquiring? && Apply(s, a).tab.wait[id] == PcOf(s, a.t).p)
  {
  }

  lemma NeverListed(s: State, p: Pid, a: Step)
    requires Enabled(s, a) && OutOfReach(s, p, a)
    ensures p !in Apply(s, a).tab.wait.Values && p !in Apply(s, a).owed && p !in Apply(s, a).pool
  {
    assert forall id :: id in s.tab.wait ==> s.tab.wait[id] in s.tab.wait.Values;
    TableGains(s, a);
  }

  /** An orphaned Wait stays blocked, whatever anybody does, clean or not. */
  lemma OrphanedForever(s: State, t: Tid, a: Step)
    requires Orphaned(s, t) && Enabled(s, a)
    ensures Orphaned(Apply(s, a), t) && PcOf(Apply(s, a), t) == PcOf(s, t)
  {
    var p := PcOf(s, t).p;
    var s1 := Apply(s, a);
    assert a.t != t;
    OnlyActorMoves(s, a);
    assert OutOfReach(s, p, a);
    NeverFound(s, p, a);
    NeverWritten(s, p, a);
    NeverListed(s, p, a);
    forall u | u in s1.pcs && u != t
      ensures !Refers(s1.pcs[u], p) && !Acquires(s1.pcs[u], p)
    {
      assert PcOf(s1, u) == s1.pcs[u];
      assert u != a.t ==> !Refers(PcOf(s, u), p) && !Acquires(PcOf(s, u), p);
    }
  }

  // ---- A Create while somebody is still to remove the id ----

  /** u can reach its deletion of id by its own steps, without touching p. */
  predicate CanReachRemoval(s: State, pc: Pc, id: nat, p: Pid) {
    match pc
    case Removing(i) => i == id
    case Received(q, i, _) => i == id && q != p
    case Selecting(q, i) => i == id && q != p && q in s.objs && s.objs[q].ch.Some?
    case Receiving(q, i) => i == id && q != p && q in s.objs && s.objs[q].ch.Some?
    case Claiming(q, i) => i == id && q != p && q in s.objs && s.objs[q].ch.Some? && !s.objs[q].waiting
    case Delivering(q, i, r, after, _) =>
      && i == id && q != p && q in s.objs && !after.Return?
      && (after.ThenReceive? ==> after.own == q)
      && (if s.objs[q].done then after.ThenReceive? ==> s.objs[q].ch.Some? else s.objs[q].ch.None?)
    case _ => false
  }

  /** p and everything but u's place, its object and the table entry of id are as before. */
  ghost predicate RemovedBy(s: State, end: State, u: Tid, id: nat, p: Pid) {
    && end.tab == Delete(s.tab, id)
    && end.pool == s.pool && end.owed == s.owed && end.acquiring == s.acquiring
    && p in s.objs && p in end.objs && end.objs[p] == s.objs[p]
    && (forall t :: t != u ==> PcOf(end, t) == PcOf(s, t))
    && !Refers(PcOf(end, u), p) && !PcOf(end, u).Acquiring?
  }

  ghost function NextTowardsRemoval(pc: Pc, u: Tid): Step {
    match pc
    case Removing(_) => CancelRemove(u)
    case Received(_, _, _) => WaitRemove(u)
    case Claiming(_, _) => WaitClaim(u)
    case Delivering(_, _, _, _, _) => TryDeliver(u)
    case _ => WaitReceive(u)
  }

  ghost function StepsToRemoval(pc: Pc): nat {
    match pc
    case Removing(_) => 0
    case Received(_, _, _) => 0
    case Claiming(_, _) => 2
    case Delivering(_, _, _, _, _) => 2
    case _ => 1
  }

  lemma {:induction false} DriveToRemoval(s: State, u: Tid, id: nat, p: Pid) returns (steps: seq<Step>, end: State)
    requires CanReachRemoval(s, PcOf(s, u), id, p) && p in s.objs && Free(s)
    ensures CleanRun(s, steps, end) && RemovedBy(s, end, u, id, p)
    decreases StepsToRemoval(PcOf(s, u))
  {
    var a := NextTowardsRemoval(PcOf(s, u), u);
    var s1 := Apply(s, a);
    assert forall t :: t != u ==> PcOf(s1, t) == PcOf(s, t);
    if StepsToRemoval(PcOf(s, u)) == 0 {
      steps, end := [a], s1;
      assert CleanRun(s1, steps[1..], end);
    } else {
      var rest;
      rest, end := DriveToRemoval(s1, u, id, p);
      steps := [a] + rest;
      assert steps[1..] == rest;
    }
  }

  lemma RemoverCanReach(s: State, u: Tid, id: nat, p: Pid)
    requires Inv(s) && !s.tab.closed && id !in s.tab.wait
    requires WillRemove(s, PcOf(s, u), id) && !Refers(PcOf(s, u), p)
    ensures CanReachRemoval(s, PcOf(s, u), id, p)
  {
    var pc := PcOf(s, u);
    assert ThreadOk(s, pc);
    if !pc.Removing? {
      assert ObjOk(s, pc.p);
    }
  }

  lemma IssuedIsFree(s: State, t: Tid, wanted: nat, k: nat, p: Pid)
    requires CanCreate(s, t, wanted, k, p)
    ensures IssuedID(s, wanted, k) !in s.tab.wait
  {
  }

  /** The rest of a Create, whatever has happened to its object since the reset. */
  lemma CreateGoesOn(s: State, t: Tid) returns (steps: seq<Step>, end: State)
    requires PcOf(s, t).Acquiring? && PcOf(s, t).phase.Unclaim? && PcOf(s, t).p in s.objs
    ensures CleanRun(s, steps, end)
    ensures var Acquiring(p, id, _) := PcOf(s, t);
            end == s.(tab := Managers.Insert(s.tab, id, p), objs := s.objs[p := s.objs[p].(waiting := false, ch := None)],
                      pool := s.pool - {p}, acquiring := None, pcs := s.pcs[t := Idle])
  {
    var a := CreateNext(t);
    var p := PcOf(s, t).p;
    var s1 := Apply(s, a);
    var s2 := Apply(s1, a);
    assert s2.objs == s.objs[p := s.objs[p].(waiting := false, ch := None)];
    end := Apply(s2, a);
    assert end.pcs == s.pcs[t := Idle];
    RunCons(s2, a, [], end);
    RunCons(s1, a, [a] + [], end);
    RunCons(s, a, [a] + ([a] + []), end);
    steps := [a] + ([a] + ([a] + []));
  }

  /** A new Wait looks the object up and claims it. */
  lemma WaitGoesOn(s: State, v: Tid, id: nat, p: Pid) returns (steps: seq<Step>, end: State)
    requires Free(s) && PcOf(s, v).Idle? && !s.tab.closed && id in s.tab.wait && s.tab.wait[id] == p
    requires p in s.objs && !s.objs[p].waiting
    ensures CleanRun(s, steps, end)
    ensures end == s.(objs := s.objs[p := s.objs[p].(waiting := true)], pcs := s.pcs[v := Selecting(p, id)])
  {
    var a, b := WaitLookup(v, id), WaitClaim(v);
    var s1 := Apply(s, a);
    end := Apply(s1, b);
    assert end.pcs == s.pcs[v := Selecting(p, id)];
    RunCons(s1, b, [], end);
    RunCons(s, a, [b] + [], end);
    steps := [a] + ([b] + []);
  }

  /** The new Wait is in its select, and every other thread is where it was. */
  ghost predicate NewWaitSelects(s: State, a: Step, s3: State, v: Tid)
    requires a.CreateReset?
  {
    var id := IssuedID(s, a.wanted, a.k);
    && id !in s.tab.wait
    && s3.tab.wait == s.tab.wait[id := a.p] && !s3.tab.closed && a.p !in s3.pool && s3.owed == s.owed && Free(s3)
    && s3.objs == s.objs[a.p := Cleared(id).(waiting := true)]
    && s3.pcs == s.pcs[a.t := Idle][v := Selecting(a.p, id)]
    && a.p in s3.deliveries && s3.deliveries[a.p] == []
  }

  lemma CreatedSelects(s: State, a: Step, s3: State, v: Tid)
    requires a.CreateReset? && Enabled(s, a) && PcOf(s, v).Idle?
    requires var (s1, id) := (Apply(s, a), IssuedID(s, a.wanted, a.k));
             s3 == s1.(tab := Managers.Insert(s1.tab, id, a.p), pool := s1.pool - {a.p}, acquiring := None,
                       objs := s1.objs[a.p := Cleared(id)][a.p := Cleared(id).(waiting := true)],
                       pcs := s1.pcs[a.t := Idle][v := Selecting(a.p, id)])
    ensures NewWaitSelects(s, a, s3, v)
  {
    var id := IssuedID(s, a.wanted, a.k);
    IssuedIsFree(s, a.t, a.wanted, a.k, a.p);
    assert Apply(s, a).pcs[a.t := Idle] == s.pcs[a.t := Idle];
    assert s3.objs == s.objs[a.p := Cleared(id).(waiting := true)];
  }

  lemma CreateThenWait(s: State, a: Step, v: Tid) returns (steps: seq<Step>, s3: State)
    requires a.CreateReset? && Enabled(s, a) && PcOf(s, v).Idle?
    ensures CleanRun(Apply(s, a), steps, s3) && NewWaitSelects(s, a, s3, v)
  {
    var id := IssuedID(s, a.wanted, a.k);
    var s1 := Apply(s, a);
    var xs, s2 := CreateGoesOn(s1, a.t);
    var ys;
    ys, s3 := WaitGoesOn(s2, v, id, a.p);
    RunAppend(s1, xs, s2, ys, s3);
    steps := xs + ys;
    CreatedSelects(s, a, s3, v);
  }

  lemma RemoverStillCanReach(s: State, a: Step, s3: State, u: Tid, v: Tid)
    requires a.CreateReset? && PcOf(s, a.t).Idle? && NewWaitSelects(s, a, s3, v) && v != u
    requires CanReachRemoval(s, PcOf(s, u), IssuedID(s, a.wanted, a.k), a.p)
    ensures CanReachRemoval(s3, PcOf(s3, u), IssuedID(s, a.wanted, a.k), a.p)
  {
  }

  lemma RemovedCutsOff(s: State, a: Step, s3: State, s4: State, u: Tid, v: Tid)
    requires Inv(s) && a.CreateReset? && Enabled(s, a) && v != u
    requires NewWaitSelects(s, a, s3, v) && RemovedBy(s3, s4, u, IssuedID(s, a.wanted, a.k), a.p)
    ensures CutOff(s4, v)
  {
    assert PcOf(s4, v) == Selecting(a.p, IssuedID(s, a.wanted, a.k));
    assert s4.tab.wait == s.tab.wait;
    assert a.p !in s.tab.wait.Values by {
      assert forall i :: i in s.tab.wait ==> Live(s, s.tab.wait[i]);
    }
  }

  /** The old remover deletes the new entry, and the new Wait is cut off. */
  lemma StaleRemoverCutsOff(s: State, a: Step, u: Tid, v: Tid) returns (steps: seq<Step>, s3: State, s4: State)
    requires Inv(s) && a.CreateReset? && Enabled(s, a)
    requires WillRemove(s, PcOf(s, u), IssuedID(s, a.wanted, a.k)) && !Refers(PcOf(s, u), a.p)
    requires PcOf(s, v).Idle? && v != u
    ensures CleanRun(Apply(s, a), steps, s4) && CutOff(s4, v)
    ensures NewWaitSelects(s, a, s3, v) && RemovedBy(s3, s4, u, IssuedID(s, a.wanted, a.k), a.p)
  {
    var id := IssuedID(s, a.wanted, a.k);
    var first;
    first, s3 := CreateThenWait(s, a, v);
    RemoverCanReach(s, u, id, a.p);
    RemoverStillCanReach(s, a, s3, u, v);
    var mid;
    mid, s4 := DriveToRemoval(s3, u, id, a.p);
    RemovedCutsOff(s, a, s3, s4, u, v);
    RunAppend(Apply(s, a), first, s3, mid, s4);
    steps := first + mid;
  }

  lemma NobodyAcquires(s: State, w: Tid)
    requires ThreadsOk(s) && Free(s)
    ensures !PcOf(s, w).Acquiring?
  {
    assert w in s.pcs ==> ThreadOk(s, s.pcs[w]);
  }

  lemma RemovedOrphans(s: State, a: Step, s3: State, s4: State, u: Tid, v: Tid)
    requires Inv(s) && a.CreateReset? && Enabled(s, a) && NoHolder(s, a.p) && v != u
    requires NewWaitSelects(s, a, s3, v) && RemovedBy(s3, s4, u, IssuedID(s, a.wanted, a.k), a.p)
    ensures Orphaned(Apply(s4, WaitCancel(v, DeadlineExceeded)), v)
    ensures PcOf(Apply(s4, WaitCancel(v, DeadlineExceeded)), v) == Receiving(a.p, IssuedID(s, a.wanted, a.k))
  {
    var id := IssuedID(s, a.wanted, a.k);
    var end := Apply(s4, WaitCancel(v, DeadlineExceeded));
    assert PcOf(s4, v) == Selecting(a.p, id);
    assert end.tab.wait == s.tab.wait;
    assert a.p !in s.tab.wait.Values by {
      assert forall i :: i in s.tab.wait ==> Live(s, s.tab.wait[i]);
    }
    forall w | w in end.pcs && w != v
      ensures !Refers(end.pcs[w], a.p) && !end.pcs[w].Acquiring?
    {
      assert PcOf(end, w) == PcOf(s4, w);
      NobodyAcquires(s, w);
      if w != u {
        assert PcOf(s4, w) == PcOf(s3, w);
        assert PcOf(s3, w) == PcOf(s, w) || PcOf(s3, w).Idle?;
      }
    }
  }

  /** If nobody else holds the object either, that Wait, once cancelled, is orphaned. */
  lemma StaleRemoverOrphans(s: State, a: Step, u: Tid, v: Tid) returns (steps: seq<Step>, end: State)
    requires Inv(s) && a.CreateReset? && Enabled(s, a) && NoHolder(s, a.p)
    requires WillRemove(s, PcOf(s, u), IssuedID(s, a.wanted, a.k))
    requires PcOf(s, v).Idle? && v != u
    ensures CleanRun(Apply(s, a), steps, end) && Orphaned(end, v)
    ensures PcOf(end, v) == Receiving(a.p, IssuedID(s, a.wanted, a.k))
  {
    var first, s3, s4 := StaleRemoverCutsOff(s, a, u, v);
    var last := WaitCancel(v, DeadlineExceeded);
    end := Apply(s4, last);
    RemovedOrphans(s, a, s3, s4, u, v);
    RunCons(s4, last, [], end);
    RunAppend(Apply(s, a), first, s4, [last], end);
    steps := first + [last];
  }

  // ---- A Create that recycles an object somebody still holds ----

  /** On an object that may be recycled a holder stands before its delivery. */
  lemma HolderDelivers(s: State, p: Pid, u: Tid)
    requires Inv(s) && u in s.pcs && Refers(s.pcs[u], p) && (p in s.objs ==> p in s.pool)
    ensures s.pcs[u].Delivering? && s.pcs[u].p == p && p in s.objs && !s.pcs[u].after.ThenReceive?
  {
    assert ThreadOk(s, s.pcs[u]);
  }

  /** Thread t waits, or will wait, on a done object with an empty slot that nobody else waits on,
      acquires or can acquire. */
  ghost predicate DeafAlone(s: State, t: Tid, p: Pid) {
    && (PcOf(s, t).Selecting? || PcOf(s, t).Receiving? ==> PcOf(s, t).p == p)
    && Owner(PcOf(s, t), p) && (PcOf(s, t).Selecting? || PcOf(s, t).Receiving? || PcOf(s, t).Delivering?)
    && p in s.objs && s.objs[p].done && s.objs[p].waiting && s.objs[p].ch.None? && p !in s.pool
    && forall u :: u != t ==> !Owner(PcOf(s, u), p) && !Acquires(PcOf(s, u), p)
  }

  lemma DeafActor(s: State, t: Tid, p: Pid, a: Step)
    requires DeafAlone(s, t, p) && Enabled(s, a)
    ensures var pc := PcOf(Apply(s, a), a.t);
            if a.t == t then Owner(pc, p) && (pc.Selecting? || pc.Receiving? || pc.Delivering?) && (pc.Selecting? || pc.Receiving? ==> pc.p == p)
            else !Owner(pc, p) && !Acquires(pc, p)
  {
    assert !Owner(PcOf(s, a.t), p) || a.t == t;
    assert a.CreateReset? ==> a.p != p;
  }

  lemma DeafObject(s: State, t: Tid, p: Pid, a: Step)
    requires DeafAlone(s, t, p) && Enabled(s, a)
    ensures p in Apply(s, a).objs && Apply(s, a).objs[p] == s.objs[p] && p !in Apply(s, a).pool
  {
    assert !Owner(PcOf(s, a.t), p) || a.t == t;
    if TableOnly(a) {
      TableStepsWriteNoObject(s, a);
    }
  }

  /** A deaf Wait stays so, whatever anybody does, clean or not, even after its own context ends. */
  lemma DeafForever(s: State, t: Tid, p: Pid, a: Step)
    requires DeafAlone(s, t, p) && Enabled(s, a)
    ensures DeafAlone(Apply(s, a), t, p)
  {
    OnlyActorMoves(s, a);
    DeafActor(s, t, p, a);
    DeafObject(s, t, p, a);
  }

  lemma NobodyOwnsHeld(s: State, a: Step, u: Tid, s2: State)
    requires Inv(s) && a.CreateReset? && Enabled(s, a)
    requires forall w :: w != u && w != a.t ==> PcOf(s2, w) == PcOf(s, w)
    requires PcOf(s2, u).Idle? || PcOf(s2, u).Removing?
    ensures forall w :: w != a.t ==> !Owner(PcOf(s2, w), a.p) && !Acquires(PcOf(s2, w), a.p)
  {
    UnclaimedHasNoOwner(s, a.p);
    forall w | w != a.t
      ensures !Owner(PcOf(s2, w), a.p) && !Acquires(PcOf(s2, w), a.p)
    {
      NobodyAcquires(s, w);
    }
  }

  lemma DeafAfterDrain(s: State, t: Tid, v: Tid) returns (steps: seq<Step>, end: State)
    requires PcOf(s, t).Acquiring? && PcOf(s, t).phase.Unclaim? && !s.tab.closed
    requires PcOf(s, t).p in s.objs && s.objs[PcOf(s, t).p].done
    requires PcOf(s, v).Idle? && forall w :: w != t ==> !Owner(PcOf(s, w), PcOf(s, t).p) && !Acquires(PcOf(s, w), PcOf(s, t).p)
    ensures CleanRun(s, steps, end) && Deaf(end, v) && DeafAlone(end, v, PcOf(s, t).p)
  {
    var p := PcOf(s, t).p;
    var xs, mid := CreateGoesOn(s, t);
    var ys;
    ys, end := WaitGoesOn(mid, v, PcOf(s, t).id, p);
    RunAppend(s, xs, mid, ys, end);
    steps := xs + ys;
    assert PcOf(end, v) == Selecting(p, PcOf(s, t).id);
    forall w | w != v
      ensures !Owner(PcOf(end, w), p) && !Acquires(PcOf(end, w), p)
    {
      assert PcOf(end, w) == if w == t then Idle else PcOf(s, w);
    }
  }

  /** The holder delivers between the reset of `done` and the drain: the new Wait is deaf. If the
      slot is still full at that time, the holder's send is held up at once. */
  lemma StaleHolderDeafens(s: State, a: Step, u: Tid, v: Tid) returns (steps: seq<Step>, end: State, w: Tid)
    requires Inv(s) && a.CreateReset? && Enabled(s, a)
    requires u in s.pcs && Refers(s.pcs[u], a.p)
    requires PcOf(s, v).Idle? && v != u && v != a.t
    ensures CleanRun(Apply(s, a), steps, end)
    ensures if a.p in s.objs && s.objs[a.p].ch.Some? then w == u && SendBlocked(end, w)
            else w == v && Deaf(end, w) && DeafAlone(end, w, a.p)
  {
    HolderDelivers(s, a.p, u);
    var s1 := Apply(s, a);
    if s1.objs[a.p].ch.Some? {
      steps, end, w := [], s1, u;
    } else {
      var s2 := DoTryDeliver(s1, u);
      assert s2.objs[a.p].done && PcOf(s2, a.t) == PcOf(s1, a.t);
      NobodyOwnsHeld(s, a, u, s2);
      steps, end := DeafAfterDrain(s2, a.t, v);
      RunCons(s1, TryDeliver(u), steps, end);
      steps, w := [TryDeliver(u)] + steps, v;
    }
  }

  lemma DeliversThenReceives(s: State, u: Tid, v: Tid) returns (steps: seq<Step>, end: State)
    requires PcOf(s, v).Selecting? && PcOf(s, u).Delivering? && PcOf(s, u).p == PcOf(s, v).p && PcOf(s, u).id != PcOf(s, v).id
    requires var p := PcOf(s, v).p;
             p in s.objs && !s.objs[p].done && s.objs[p].ch.None? && (p in s.deliveries ==> s.deliveries[p] == [])
    ensures CleanRun(s, steps, end) && Misdelivered(end, v) && PcOf(end, v).id == PcOf(s, v).id
  {
    var a, b := TryDeliver(u), WaitReceive(v);
    var s1 := Apply(s, a);
    end := Apply(s1, b);
    RunCons(s1, b, [], end);
    RunCons(s, a, [b] + [], end);
    steps := [a] + ([b] + []);
  }

  /** A holder for another id that delivers later hands its outcome to the new owner. */
  lemma StaleHolderMisdelivers(s: State, a: Step, u: Tid, v: Tid) returns (steps: seq<Step>, end: State)
    requires Inv(s) && a.CreateReset? && Enabled(s, a)
    requires u in s.pcs && Refers(s.pcs[u], a.p) && PcOf(s, u).id != IssuedID(s, a.wanted, a.k)
    requires PcOf(s, v).Idle? && v != u
    ensures CleanRun(Apply(s, a), steps, end) && Misdelivered(end, v)
    ensures PcOf(end, v).id == IssuedID(s, a.wanted, a.k)
  {
    HolderDelivers(s, a.p, u);
    var first, s3 := CreateThenWait(s, a, v);
    assert PcOf(s3, u) == s.pcs[u];
    var rest;
    rest, end := DeliversThenReceives(s3, u, v);
    RunAppend(Apply(s, a), first, s3, rest, end);
    steps := first + rest;
  }

  // ---- A release while a second Wait is about to claim ----

  /** The reset clears `waiting`, so the second Wait claims the released object. */
  lemma SecondWaitClaimsReleased(s: State, a: Step, u: Tid) returns (steps: seq<Step>, end: State)
    requires Inv(s) && a.WaitReset? && Enabled(s, a)
    requires PcOf(s, u).Claiming? && PcOf(s, u).p == PcOf(s, a.t).p
    ensures CleanRun(Apply(s, a), steps, end) && WaitsOnReleased(end, u)
  {
    var s1 := Apply(s, a);
    assert PcOf(s1, u) == PcOf(s, u);
    end := Apply(s1, WaitClaim(u));
    RunCons(s1, WaitClaim(u), [], end);
    steps := [WaitClaim(u)];
  }

  lemma RepliesToReleased(s: State, u: Tid, v: Tid, b: nat, env: Envelope) returns (steps: seq<Step>, end: State)
    requires PcOf(s, u).Selecting? && PcOf(s, v).Idle? && Free(s) && !s.tab.closed && b != PcOf(s, u).id
    requires b in s.tab.wait && s.tab.wait[b] == PcOf(s, u).p && env.handle !in s.used
    requires var p := PcOf(s, u).p;
             p in s.objs && !s.objs[p].done && s.objs[p].ch.None? && p in s.deliveries && s.deliveries[p] == []
    ensures CleanRun(s, steps, end) && Misdelivered(end, u)
  {
    var a := Finish(v, b, Reply(env), Return, Some(env.handle));
    var s1 := Apply(s, a);
    steps, end := DeliversThenReceives(s1, v, u);
    RunCons(s, a, steps, end);
    steps := [a] + steps;
  }

  /** From there the next Create may hand the object to another id, and the first Wait
      receives that id's reply. */
  lemma WaitOnReleasedMisdelivers(s: State, u: Tid, v: Tid, b: nat, env: Envelope) returns (steps: seq<Step>, end: State)
    requires WaitsOnReleased(s, u) && PcOf(s, u).p in s.objs && !s.tab.closed && Free(s)
    requires PcOf(s, v).Idle? && v != u
    requires b != 0 && b != PcOf(s, u).id && b !in s.tab.wait && env.handle !in s.used
    ensures Run(s, steps, end) && Misdelivered(end, u)
  {
    var p := PcOf(s, u).p;
    var a := CreateReset(v, b, 0, p);
    var s1 := Apply(s, a);
    var xs, s2 := CreateGoesOn(s1, v);
    var ys;
    ys, end := RepliesToReleased(s2, u, v, b, env);
    RunAppend(s1, xs, s2, ys, end);
    CleanRunIsRun(s1, xs + ys, end);
    steps := [a] + (xs + ys);
    assert steps[1..] == xs + ys;
  }

  // ---- Exactness ----

  lemma InvNotWrong(s: State, t: Tid)
    requires Inv(s)
    ensures !GoneWrong(s, t)
  {
    var pc := PcOf(s, t);
    assert ThreadOk(s, pc);
    if pc.Received? || pc.Selecting? || pc.Receiving? || pc.Delivering? {
      assert ObjOk(s, pc.p);
    }
  }

  /** Clean continuations never make a waiter go wrong. */
  ghost predicate Safe(s: State) {
    forall steps, end, t :: CleanRun(s, steps, end) ==> !GoneWrong(end, t)
  }

  lemma InvSafe(s: State)
    requires Inv(s)
    ensures Safe(s)
  {
    forall steps, end, t | CleanRun(s, steps, end)
      ensures !GoneWrong(end, t)
    {
      CleanRunInv(s, steps, end);
      InvNotWrong(end, t);
    }
  }

  lemma WrongNotSafe(s: State, steps: seq<Step>, end: State, t: Tid)
    requires CleanRun(s, steps, end) && GoneWrong(end, t)
    ensures !Safe(s)
  {
  }

  lemma UncleanNotSafe(s: State, a: Step)
    requires Inv(s) && Enabled(s, a) && !Clean(s, a)
    ensures !Safe(Apply(s, a))
  {
    if a.WaitReset? {
      var u :| u in s.pcs && s.pcs[u].Claiming? && s.pcs[u].p == PcOf(s, a.t).p;
      var steps, end := SecondWaitClaimsReleased(s, a, u);
      WrongNotSafe(Apply(s, a), steps, end, u);
    } else {
      var v := FreshNat(s.pcs.Keys + {a.t});
      if NoHolder(s, a.p) {
        var u :| u in s.pcs && WillRemove(s, s.pcs[u], IssuedID(s, a.wanted, a.k));
        var steps, _, end := StaleRemoverCutsOff(s, a, u, v);
        WrongNotSafe(Apply(s, a), steps, end, v);
      } else {
        var u :| u in s.pcs && Refers(s.pcs[u], a.p);
        var steps, end, w := StaleHolderDeafens(s, a, u, v);
        WrongNotSafe(Apply(s, a), steps, end, w);
      }
    }
  }

  lemma CleanStepSafe(s: State, a: Step)
    requires Inv(s) && Enabled(s, a) && Clean(s, a)
    ensures Safe(Apply(s, a))
  {
    StepInv(s, a);
    InvSafe(Apply(s, a));
  }

  /** In every state that a clean run reaches, a step is clean if and only if no clean
      continuation makes a waiter go wrong. */
  lemma CleanExactlyWhenSafe(before: seq<Step>, s: State, a: Step)
    requires CleanRun(INIT, before, s) && Enabled(s, a)
    ensures Clean(s, a) <==> Safe(Apply(s, a))
  {
    ReachableInv(before, s);
    if Clean(s, a) {
      CleanStepSafe(s, a);
    } else {
      UncleanNotSafe(s, a);
    }
  }
}
