/** Create in four steps and Create at once: in clean runs no other thread can tell them apart. */
module Acquisition {
  import opened Wrappers
  import opened Pendings
  import opened Managers
  import opened Protocol
  import opened Correlation
  import opened Necessity

  /** The four steps, with nobody between them, are DoCreate. */
  lemma CreateIsItsParts(s: State, t: Tid, wanted: nat, k: nat, p: Pid) returns (steps: seq<Step>, end: State)
    requires CanCreate(s, t, wanted, k, p) && NoRemover(s, IssuedID(s, wanted, k)) && NoHolder(s, p)
    ensures CleanRun(s, steps, end) && CreateReset(t, wanted, k, p) in steps
    ensures end == DoCreate(s, wanted, k, p).(pcs := s.pcs[t := Idle])
  {
    var a := CreateReset(t, wanted, k, p);
    var s1 := DoCreateReset(s, t, wanted, k, p);
    var rest;
    rest, end := CreateGoesOn(s1, t);
    RunCons(s, a, rest, end);
    steps := [a] + rest;
    assert a in [a];
    var id := IssuedID(s, wanted, k);
    assert end.objs == s.objs[p := Cleared(id)];
    assert s1.pcs[t := Idle] == s.pcs[t := Idle];
    assert end.pool == s.pool - {p};
  }

  /** What another thread can do while Manager.mu is held. */
  predicate LocksNothing(b: Step) {
    b.TryDeliver? || b.WaitClaim? || b.WaitReceive? || b.WaitDrain? || b.WaitReset? || b.CloseDeliver?
  }

  lemma OnlyOneAcquires(s: State, t: Tid, b: Step)
    requires Inv(s) && PcOf(s, t).Acquiring? && Enabled(s, b) && b.t != t
    ensures LocksNothing(b) && s.acquiring == Some(PcOf(s, t).p) && s.owed == []
    ensures !Refers(PcOf(s, b.t), PcOf(s, t).p)
  {
    assert ThreadOk(s, s.pcs[t]);
  }

  // ---- What another thread's step does, and that it commutes ----

  /** The changes one such step makes: the thread's place, at most one object and its history,
      an envelope put back, an object released. */
  datatype Effect = Effect(pc: Pc, objs: map<Pid, PendingState>, deliveries: map<Pid, seq<Delivery>>,
                           released: multiset<nat>, pool: set<Pid>)

  function With(s: State, u: Tid, e: Effect): State {
    s.(pcs := s.pcs[u := e.pc], objs := s.objs + e.objs, deliveries := s.deliveries + e.deliveries,
       released := s.released + e.released, pool := s.pool + e.pool)
  }

  function Handles(h: Option<nat>): multiset<nat> {
    if h.Some? then multiset{h.value} else multiset{}
  }

  ghost function EffectOf(s: State, b: Step): Effect
    requires LocksNothing(b) && Enabled(s, b)
  {
    var pc := PcOf(s, b.t);
    if b.TryDeliver? then
      var ds := if pc.p in s.deliveries then s.deliveries[pc.p] else [];
      if s.objs[pc.p].done then Effect(AfterFinish(pc.id, pc.after), map[], map[], Handles(pc.carrier), {})
      else Effect(AfterFinish(pc.id, pc.after), map[pc.p := s.objs[pc.p].(done := true, ch := Some(pc.r))],
                  map[pc.p := ds + [Delivery(pc.id, pc.r)]], multiset{}, {})
    else if b.WaitClaim? then
      if s.objs[pc.p].waiting then Effect(Idle, map[], map[], multiset{}, {})
      else Effect(Selecting(pc.p, pc.id), map[pc.p := s.objs[pc.p].(waiting := true)], map[], multiset{}, {})
    else if b.WaitReceive? then
      Effect(Received(pc.p, pc.id, s.objs[pc.p].ch.value), map[pc.p := s.objs[pc.p].(ch := None)], map[], multiset{}, {})
    else if b.WaitDrain? then
      Effect(Resetting(pc.p, pc.id, pc.r), map[pc.p := s.objs[pc.p].(ch := None)], map[], multiset{}, {})
    else if b.WaitReset? then
      Effect(Idle, map[pc.p := Cleared(0).(ch := s.objs[pc.p].ch)], map[], Handles(HandleOf(pc.r)), {pc.p})
    else Effect(Idle, map[], map[], multiset{}, {})
  }

  lemma RefusalIs(s: State, b: Step)
    requires b.TryDeliver? && Enabled(s, b) && s.objs[PcOf(s, b.t).p].done
    ensures Apply(s, b) == With(s, b.t, EffectOf(s, b))
  {
    var s1, s2 := Apply(s, b), With(s, b.t, EffectOf(s, b));
    assert s1.objs == s2.objs && s1.deliveries == s2.deliveries && s1.released == s2.released;
  }

  lemma DeliveryIs(s: State, b: Step)
    requires b.TryDeliver? && Enabled(s, b) && !s.objs[PcOf(s, b.t).p].done
    ensures Apply(s, b) == With(s, b.t, EffectOf(s, b))
  {
    var s1, s2 := Apply(s, b), With(s, b.t, EffectOf(s, b));
    assert s1.objs == s2.objs && s1.deliveries == s2.deliveries;
  }

  lemma ClaimIs(s: State, b: Step)
    requires b.WaitClaim? && Enabled(s, b)
    ensures Apply(s, b) == With(s, b.t, EffectOf(s, b))
  {
    var s1, s2 := Apply(s, b), With(s, b.t, EffectOf(s, b));
    assert s1.objs == s2.objs && s1.deliveries == s2.deliveries;
  }

  lemma EmptyingIs(s: State, b: Step)
    requires (b.WaitReceive? || b.WaitDrain?) && Enabled(s, b)
    ensures Apply(s, b) == With(s, b.t, EffectOf(s, b))
  {
    var s1, s2 := Apply(s, b), With(s, b.t, EffectOf(s, b));
    assert s1.objs == s2.objs && s1.deliveries == s2.deliveries;
  }

  lemma ReleaseIs(s: State, b: Step)
    requires b.WaitReset? && Enabled(s, b)
    ensures Apply(s, b) == With(s, b.t, EffectOf(s, b))
  {
    var s1, s2 := Apply(s, b), With(s, b.t, EffectOf(s, b));
    assert s1.objs == s2.objs && s1.deliveries == s2.deliveries && s1.released == s2.released;
  }

  lemma CloserIs(s: State, b: Step)
    requires b.CloseDeliver? && Enabled(s, b) && s.owed == []
    ensures Apply(s, b) == With(s, b.t, EffectOf(s, b))
  {
    var s2 := With(s, b.t, EffectOf(s, b));
    assert s2.objs == s.objs && s2.deliveries == s.deliveries;
  }

  lemma StepIsEffect(s: State, b: Step)
    requires LocksNothing(b) && Enabled(s, b) && s.owed == []
    ensures Apply(s, b) == With(s, b.t, EffectOf(s, b))
  {
    if b.TryDeliver? {
      if s.objs[PcOf(s, b.t).p].done {
        RefusalIs(s, b);
      } else {
        DeliveryIs(s, b);
      }
    } else if b.WaitReset? {
      ReleaseIs(s, b);
    } else if b.CloseDeliver? {
      CloserIs(s, b);
    } else if b.WaitClaim? {
      ClaimIs(s, b);
    } else {
      EmptyingIs(s, b);
    }
  }

  ghost predicate ElsewhereThan(e: Effect, p: Pid) {
    p !in e.objs && p !in e.deliveries && p !in e.pool
  }

  lemma EffectElsewhere(s: State, b: Step, p: Pid)
    requires LocksNothing(b) && Enabled(s, b) && !Refers(PcOf(s, b.t), p)
    ensures ElsewhereThan(EffectOf(s, b), p)
  {
  }

  /** Only the object p, the place of t and the table differ. */
  ghost predicate DiffersAt(s: State, s1: State, t: Tid, p: Pid) {
    && (forall u :: u != t ==> PcOf(s1, u) == PcOf(s, u)) && s1.owed == s.owed
    && (forall q :: q != p ==> (q in s1.objs <==> q in s.objs) && (q in s1.deliveries <==> q in s.deliveries))
    && (forall q :: q != p && q in s.objs ==> s1.objs[q] == s.objs[q])
    && (forall q :: q != p && q in s.deliveries ==> s1.deliveries[q] == s.deliveries[q])
  }

  lemma SameEffect(s: State, s1: State, t: Tid, p: Pid, b: Step)
    requires LocksNothing(b) && Enabled(s, b) && b.t != t && !Refers(PcOf(s, b.t), p) && s.owed == []
    requires DiffersAt(s, s1, t, p)
    ensures Enabled(s1, b) && EffectOf(s1, b) == EffectOf(s, b)
  {
  }

  lemma NextDiffersAt(s: State, t: Tid)
    requires CanCreateNext(s, t)
    ensures DiffersAt(s, DoCreateNext(s, t), t, PcOf(s, t).p)
  {
  }

  lemma UpdateCommutes<K, V>(a: map<K, V>, m: map<K, V>, k: K, v: V)
    requires k !in m
    ensures a[k := v] + m == (a + m)[k := v]
    ensures k in a ==> (a + m)[k] == a[k]
  {
  }

  lemma PlacesCommute(a: map<Tid, Pc>, t: Tid, u: Tid, x: Pc, y: Pc)
    requires t != u
    ensures a[t := x][u := y] == a[u := y][t := x]
  {
  }

  /** An update of p and of t's place commutes with the effect. */
  lemma UpdateThenEffect(s: State, t: Tid, p: Pid, o: PendingState, pc: Pc, u: Tid, e: Effect)
    requires u != t && ElsewhereThan(e, p)
    ensures With(At(SetObj(s, p, o), t, pc), u, e) == At(SetObj(With(s, u, e), p, o), t, pc)
    ensures PcOf(With(s, u, e), t) == PcOf(s, t)
    ensures p in s.objs ==> p in With(s, u, e).objs && With(s, u, e).objs[p] == s.objs[p]
  {
    UpdateCommutes(s.objs, e.objs, p, o);
    PlacesCommute(s.pcs, t, u, pc, e.pc);
  }

  lemma InsertCommutes(s: State, t: Tid, p: Pid, id: nat, u: Tid, e: Effect)
    requires u != t && ElsewhereThan(e, p)
    ensures var f := (x: State) => At(x, t, Idle).(tab := Managers.Insert(x.tab, id, p), pool := x.pool - {p}, acquiring := None);
            With(f(s), u, e) == f(With(s, u, e))
  {
    PlacesCommute(s.pcs, t, u, Idle, e.pc);
    assert (s.pool - {p}) + e.pool == (s.pool + e.pool) - {p};
  }

  lemma NextCommutes(s: State, t: Tid, u: Tid, e: Effect)
    requires CanCreateNext(s, t) && u != t && ElsewhereThan(e, PcOf(s, t).p)
    ensures CanCreateNext(With(s, u, e), t)
    ensures With(DoCreateNext(s, t), u, e) == DoCreateNext(With(s, u, e), t)
  {
    var Acquiring(p, id, phase) := PcOf(s, t);
    match phase
    case Unclaim => UpdateThenEffect(s, t, p, s.objs[p].(waiting := false), Acquiring(p, id, Drain), u, e);
    case Drain => UpdateThenEffect(s, t, p, s.objs[p].(ch := None), Acquiring(p, id, Insert), u, e);
    case Insert =>
      UpdateThenEffect(s, t, p, s.objs[p], Idle, u, e);
      InsertCommutes(s, t, p, id, u, e);
  }

  /** The two steps can be taken in either order, to the same end. */
  ghost predicate Swap(s: State, a: Step, b: Step) {
    && Enabled(s, a) && Enabled(s, b)
    && Enabled(Apply(s, a), b) && Enabled(Apply(s, b), a)
    && Apply(Apply(s, a), b) == Apply(Apply(s, b), a)
  }

  lemma NextSwaps(s: State, t: Tid, b: Step)
    requires CanCreateNext(s, t) && LocksNothing(b) && Enabled(s, b) && b.t != t
    requires !Refers(PcOf(s, b.t), PcOf(s, t).p) && s.owed == []
    ensures Swap(s, CreateNext(t), b)
  {
    var p := PcOf(s, t).p;
    var e := EffectOf(s, b);
    var s1 := DoCreateNext(s, t);
    EffectElsewhere(s, b, p);
    StepIsEffect(s, b);
    NextDiffersAt(s, t);
    SameEffect(s, s1, t, p, b);
    StepIsEffect(s1, b);
    NextCommutes(s, t, b.t, e);
  }

  /** Between the first and the last step of a Create no other thread sees the object: what it
      does can as well be done before the Create's next step as after it. */
  lemma NextStepSwaps(s: State, t: Tid, b: Step)
    requires Inv(s) && PcOf(s, t).Acquiring? && Enabled(s, b) && b.t != t
    ensures Swap(s, CreateNext(t), b)
  {
    OnlyOneAcquires(s, t, b);
    assert ThreadOk(s, s.pcs[t]);
    NextSwaps(s, t, b);
  }

  // ---- Whole runs ----

  function PhaseRank(phase: Phase): nat {
    match phase
    case Unclaim => 2
    case Drain => 1
    case Insert => 0
  }

  /** The Create of t taken to its end at once. */
  function Completed(s: State, t: Tid): State
    requires CanCreateNext(s, t)
    decreases PhaseRank(PcOf(s, t).phase)
  {
    if PcOf(s, t).phase.Insert? then DoCreateNext(s, t) else Completed(DoCreateNext(s, t), t)
  }

  lemma {:induction false} CompletedFrees(s: State, t: Tid)
    requires Inv(s) && CanCreateNext(s, t)
    ensures Inv(Completed(s, t)) && Free(Completed(s, t))
    decreases PhaseRank(PcOf(s, t).phase)
  {
    CreateNextInv(s, t);
    if !PcOf(s, t).phase.Insert? {
      CompletedFrees(DoCreateNext(s, t), t);
    }
  }

  lemma StaysClean(s: State, t: Tid, b: Step)
    requires CanCreateNext(s, t) && LocksNothing(b) && b.t != t && Enabled(s, b) && Clean(s, b)
    ensures Clean(DoCreateNext(s, t), b)
  {
    assert PcOf(DoCreateNext(s, t), b.t) == PcOf(s, b.t);
  }

  /** Another thread's step that comes nowhere near the object being acquired. */
  ghost predicate Elsewhere(s: State, t: Tid, b: Step) {
    && CanCreateNext(s, t) && b.t != t && LocksNothing(b) && Enabled(s, b) && Clean(s, b)
    && !Refers(PcOf(s, b.t), PcOf(s, t).p) && s.owed == []
  }

  lemma StaysElsewhere(s: State, t: Tid, b: Step)
    requires Elsewhere(s, t, b)
    ensures CanCreateNext(Apply(s, b), t) && PcOf(Apply(s, b), t) == PcOf(s, t)
    ensures Enabled(DoCreateNext(s, t), b) && Clean(DoCreateNext(s, t), b)
    ensures Apply(DoCreateNext(s, t), b) == DoCreateNext(Apply(s, b), t)
    ensures !PcOf(s, t).phase.Insert? ==> Elsewhere(DoCreateNext(s, t), t, b)
  {
    NextSwaps(s, t, b);
    OnlyActorMoves(s, b);
    StaysClean(s, t, b);
  }

  lemma {:induction false} ElsewhereSwaps(s: State, t: Tid, b: Step)
    requires Elsewhere(s, t, b)
    ensures CanCreateNext(Apply(s, b), t)
    ensures Enabled(Completed(s, t), b) && Clean(Completed(s, t), b)
    ensures Apply(Completed(s, t), b) == Completed(Apply(s, b), t)
    decreases PhaseRank(PcOf(s, t).phase)
  {
    StaysElsewhere(s, t, b);
    if !PcOf(s, t).phase.Insert? {
      ElsewhereSwaps(DoCreateNext(s, t), t, b);
    }
  }

  /** What another thread does before the Create is complete it can do afterwards instead. */
  lemma CompletedSwaps(s: State, t: Tid, b: Step)
    requires Inv(s) && CanCreateNext(s, t) && Enabled(s, b) && Clean(s, b) && b.t != t
    ensures CanCreateNext(Apply(s, b), t)
    ensures Enabled(Completed(s, t), b) && Clean(Completed(s, t), b)
    ensures Apply(Completed(s, t), b) == Completed(Apply(s, b), t)
  {
    OnlyOneAcquires(s, t, b);
    ElsewhereSwaps(s, t, b);
  }

  /** A run that starts within a Create and ends when no Create is under way can complete that
      Create first. */
  lemma {:induction false} CompletesFirst(s: State, t: Tid, steps: seq<Step>, end: State) returns (others: seq<Step>)
    requires Inv(s) && CanCreateNext(s, t) && CleanRun(s, steps, end) && Free(end)
    ensures |others| < |steps| && CleanRun(Completed(s, t), others, end)
    decreases |steps|
  {
    assert steps != [] by {
      assert ThreadOk(s, s.pcs[t]);
    }
    var b, rest := steps[0], steps[1..];
    StepInv(s, b);
    if b.t != t {
      CompletedSwaps(s, t, b);
      others := CompletesFirst(Apply(s, b), t, rest, end);
      RunCons(Completed(s, t), b, others, end);
      others := [b] + others;
    } else if PcOf(s, t).phase.Insert? {
      others := rest;
    } else {
      others := CompletesFirst(Apply(s, b), t, rest, end);
    }
  }

  /** Every Create takes its four steps in a row. */
  ghost predicate Serial(steps: seq<Step>)
    decreases |steps|
  {
    steps == []
    || (if steps[0].CreateReset? then
          && |steps| >= 4 && (forall i :: 1 <= i < 4 ==> steps[i] == CreateNext(steps[0].t))
          && Serial(steps[4..])
        else !steps[0].CreateNext? && Serial(steps[1..]))
  }

  lemma {:induction false} CompletedRun(s: State, t: Tid) returns (steps: seq<Step>)
    requires CanCreateNext(s, t)
    ensures CleanRun(s, steps, Completed(s, t))
    ensures |steps| == PhaseRank(PcOf(s, t).phase) + 1 && forall a :: a in steps ==> a == CreateNext(t)
    decreases PhaseRank(PcOf(s, t).phase)
  {
    var s1 := DoCreateNext(s, t);
    steps := [];
    if !PcOf(s, t).phase.Insert? {
      steps := CompletedRun(s1, t);
    }
    RunCons(s, CreateNext(t), steps, Completed(s, t));
    steps := [CreateNext(t)] + steps;
  }

  lemma SerialFour(a: Step, nexts: seq<Step>, others: seq<Step>)
    requires a.CreateReset? && |nexts| == 3 && (forall b :: b in nexts ==> b == CreateNext(a.t)) && Serial(others)
    ensures Serial([a] + (nexts + others))
  {
    var steps := [a] + (nexts + others);
    assert steps[4..] == others;
    assert steps[0] == a && forall i :: 1 <= i < 4 ==> steps[i] == nexts[i - 1] && nexts[i - 1] in nexts;
  }

  lemma SerialCreate(s: State, a: Step, others: seq<Step>, end: State) returns (steps: seq<Step>)
    requires a.CreateReset? && Enabled(s, a) && Clean(s, a)
    requires CleanRun(Completed(DoCreateReset(s, a.t, a.wanted, a.k, a.p), a.t), others, end) && Serial(others)
    ensures CleanRun(s, steps, end) && Serial(steps)
  {
    var s1 := DoCreateReset(s, a.t, a.wanted, a.k, a.p);
    var nexts := CompletedRun(s1, a.t);
    RunAppend(s1, nexts, Completed(s1, a.t), others, end);
    RunCons(s, a, nexts + others, end);
    SerialFour(a, nexts, others);
    steps := [a] + (nexts + others);
  }

  lemma SerialStep(b: Step, rest: seq<Step>)
    requires !b.CreateReset? && !b.CreateNext? && Serial(rest)
    ensures Serial([b] + rest)
  {
    assert ([b] + rest)[1..] == rest;
  }

  /** Whatever a clean run interleaves with its Creates: when none is under way at its end, a run
      whose Creates take their steps in a row leads to the same end. So nothing is lost by a
      model in which Create is one step. */
  lemma {:induction false} RunIsSerial(s: State, steps: seq<Step>, end: State) returns (serial: seq<Step>)
    requires Inv(s) && Free(s) && CleanRun(s, steps, end) && Free(end)
    ensures CleanRun(s, serial, end) && Serial(serial)
    decreases |steps|
  {
    if steps == [] {
      return [];
    }
    var a, rest := steps[0], steps[1..];
    var s1 := Apply(s, a);
    StepInv(s, a);
    if a.CreateReset? {
      var others := CompletesFirst(s1, a.t, rest, end);
      CompletedFrees(s1, a.t);
      others := RunIsSerial(Completed(s1, a.t), others, end);
      serial := SerialCreate(s, a, others, end);
    } else {
      NobodyAcquires(s, a.t);
      SameAcquiring(s, a);
      serial := RunIsSerial(s1, rest, end);
      RunCons(s, a, serial, end);
      SerialStep(a, serial);
      serial := [a] + serial;
    }
  }
}
