/** What the worker pool takes in, and that what it took in can always run. */
module Intake {
  import opened WorkerPool
  import opened Shutdown

  // ---- Enqueue ----

  predicate Refusing(s: State, e: Eid) {
    EnqueueAt(s, e, Unlocking(false)) || EnqueueAt(s, e, Returned(false)) || EnqueueAt(s, e, Rejected)
  }

  predicate OfEnqueue(a: Step) {
    a.Arrive? || a.Lock? || a.CheckClosing? || a.Select? || a.Unlock? || a.Reject?
  }

  lemma OthersEnqueueNothing(s: State, a: Step)
    requires Enabled(s, a) && !OfEnqueue(a)
    ensures Apply(s, a).enqueues == s.enqueues
  {
  }

  lemma EnqueueMoves(s: State, a: Step)
    requires Enabled(s, a) && OfEnqueue(a)
    ensures Refusing(Apply(s, a), a.e) && !Refusing(s, a.e) ==> s.closing || |s.queue| >= s.capacity
    ensures Accepted(Apply(s, a), a.e) && !Accepted(s, a.e) ==> |s.queue| < s.capacity && Apply(s, a).queue == s.queue + [a.e]
    ensures (Refusing(s, a.e) ==> Refusing(Apply(s, a), a.e)) && (Accepted(s, a.e) ==> Accepted(Apply(s, a), a.e))
    ensures forall e :: e != a.e ==> (e in Apply(s, a).enqueues <==> e in s.enqueues)
    ensures forall e :: e != a.e && e in s.enqueues ==> Apply(s, a).enqueues[e] == s.enqueues[e]
  {
  }

  /** A job is refused only by a pool that is closing or full, and taken in only where there is
      room, at the end of the queue; and that decision stands. */
  lemma DecidedByRoom(s: State, a: Step, e: Eid)
    requires Enabled(s, a)
    ensures Refusing(Apply(s, a), e) && !Refusing(s, e) ==> s.closing || |s.queue| >= s.capacity
    ensures Accepted(Apply(s, a), e) && !Accepted(s, e) ==> |s.queue| < s.capacity && Apply(s, a).queue == s.queue + [e]
    ensures (Refusing(s, e) ==> Refusing(Apply(s, a), e)) && (Accepted(s, e) ==> Accepted(Apply(s, a), e))
  {
    if OfEnqueue(a) {
      EnqueueMoves(s, a);
    } else {
      OthersEnqueueNothing(s, a);
    }
  }

  function EnqueueSteps(e: Eid): seq<Step> {
    [Arrive(e), Lock(e), CheckClosing(e), Select(e), Unlock(e)]
  }

  lemma LocksAt(s: State, e: Eid) returns (mid: State)
    requires e !in s.enqueues && NoWriter(s)
    ensures mid == s.(enqueues := s.enqueues[e := Locked])
    ensures forall rest, end :: RunOf(mid, rest, end) ==> RunOf(s, [Arrive(e), Lock(e)] + rest, end)
  {
    var s1 := Apply(s, Arrive(e));
    mid := Apply(s1, Lock(e));
    assert mid.enqueues == s.enqueues[e := Locked];
    forall rest, end | RunOf(mid, rest, end)
      ensures RunOf(s, [Arrive(e), Lock(e)] + rest, end)
    {
      assert ([Lock(e)] + rest)[1..] == rest;
      assert RunOf(s1, [Lock(e)] + rest, end);
      assert ([Arrive(e), Lock(e)] + rest)[1..] == [Lock(e)] + rest;
    }
  }

  lemma SelectsAt(s: State, e: Eid) returns (end: State)
    requires EnqueueAt(s, e, Locked) && !s.closing
    ensures RunOf(s, [CheckClosing(e), Select(e), Unlock(e)], end)
    ensures var room := |s.queue| < s.capacity;
            end == s.(enqueues := s.enqueues[e := Returned(room)], queue := if room then s.queue + [e] else s.queue)
  {
    var s1 := Apply(s, CheckClosing(e));
    var s2 := Apply(s1, Select(e));
    end := Apply(s2, Unlock(e));
    assert end.enqueues == s.enqueues[e := Returned(|s.queue| < s.capacity)];
    assert RunOf(s2, [Unlock(e)], end);
    assert [CheckClosing(e), Select(e), Unlock(e)][1..] == [Select(e), Unlock(e)];
    assert [Select(e), Unlock(e)][1..] == [Unlock(e)];
  }

  /** An Enqueue that nobody disturbs, on any pool that nobody is closing: it returns true exactly
      when there was room, and then the job is last in the queue. */
  lemma OpenPoolAccepts(s: State, e: Eid) returns (end: State)
    requires e !in s.enqueues && NoWriter(s) && !s.closing
    ensures RunOf(s, EnqueueSteps(e), end)
    ensures var room := |s.queue| < s.capacity;
            && end == s.(enqueues := s.enqueues[e := Returned(room)], queue := if room then s.queue + [e] else s.queue)
            && (Accepted(end, e) <==> room)
  {
    var mid := LocksAt(s, e);
    end := SelectsAt(mid, e);
    assert [Arrive(e), Lock(e)] + [CheckClosing(e), Select(e), Unlock(e)] == EnqueueSteps(e);
    assert end.enqueues == s.enqueues[e := Returned(|s.queue| < s.capacity)];
  }

  /** On a pool that is closing it returns false, and the queue is as before. */
  lemma ClosingPoolRefuses(s: State, e: Eid) returns (end: State)
    requires e !in s.enqueues && NoWriter(s) && s.closing
    ensures RunOf(s, [Arrive(e), Lock(e), CheckClosing(e), Unlock(e)], end)
    ensures end == s.(enqueues := s.enqueues[e := Returned(false)])
  {
    var mid := LocksAt(s, e);
    var s1 := Apply(mid, CheckClosing(e));
    end := Apply(s1, Unlock(e));
    assert end.enqueues == s.enqueues[e := Returned(false)];
    assert RunOf(s1, [Unlock(e)], end);
    assert [CheckClosing(e), Unlock(e)][1..] == [Unlock(e)];
    assert [Arrive(e), Lock(e)] + [CheckClosing(e), Unlock(e)] == [Arrive(e), Lock(e), CheckClosing(e), Unlock(e)];
  }

  // ---- Every accepted job can run ----

  predicate OfWorker(a: Step, w: Wid) {
    (a.Take? || a.Start? || a.Run? || a.Finish?) && a.w == w
  }

  predicate AllOfWorker(steps: seq<Step>, w: Wid) {
    forall a :: a in steps ==> OfWorker(a, w)
  }

  lemma WorkerCons(s: State, a: Step, rest: seq<Step>, end: State, w: Wid) returns (steps: seq<Step>)
    requires Enabled(s, a) && RunOf(Apply(s, a), rest, end) && OfWorker(a, w) && AllOfWorker(rest, w)
    ensures RunOf(s, steps, end) && AllOfWorker(steps, w)
  {
    steps := [a] + rest;
    assert steps[1..] == rest;
  }

  lemma {:induction false} RunsWhatItHas(s: State, w: Wid, e: Eid) returns (steps: seq<Step>, end: State)
    requires WithWorker(s, w, e)
    ensures RunOf(s, steps, end) && AllOfWorker(steps, w) && end.ran[e] == s.ran[e] + 1
    decreases WorkerRank(s.workers[w])
  {
    var a := WorkerStep(s, w);
    var s1 := Apply(s, a);
    if s.workers[w].Working? {
      steps := WorkerCons(s, a, [], s1, w);
      end := s1;
    } else {
      var rest;
      rest, end := RunsWhatItHas(s1, w, e);
      steps := WorkerCons(s, a, rest, end, w);
    }
  }

  lemma NextOfWorker(s: State, w: Wid, e: Eid)
    requires w in s.workers && !s.workers[w].Gone? && e in s.queue && !WithWorker(s, w, e)
    ensures var a := WorkerStep(s, w);
            && Enabled(s, a) && OfWorker(a, w)
            && var s1 := Apply(s, a);
               && w in s1.workers && !s1.workers[w].Gone? && (e in s1.queue || WithWorker(s1, w, e)) && s1.ran[e] >= s.ran[e]
               && (|s1.queue| < |s.queue| || (s1.queue == s.queue && WorkerRank(s1.workers[w]) < WorkerRank(s.workers[w])))
  {
    if s.workers[w].Idle? {
      assert s.queue == [s.queue[0]] + s.queue[1..];
    }
  }

  /** Worker w works off the queue up to and including e. */
  lemma {:induction false} WorksOff(s: State, w: Wid, e: Eid) returns (steps: seq<Step>, end: State)
    requires w in s.workers && !s.workers[w].Gone? && (e in s.queue || WithWorker(s, w, e))
    ensures RunOf(s, steps, end) && AllOfWorker(steps, w) && end.ran[e] > s.ran[e]
    decreases |s.queue|, WorkerRank(s.workers[w])
  {
    if WithWorker(s, w, e) {
      steps, end := RunsWhatItHas(s, w, e);
    } else {
      var a := WorkerStep(s, w);
      var s1 := Apply(s, a);
      NextOfWorker(s, w, e);
      var rest;
      rest, end := WorksOff(s1, w, e);
      steps := WorkerCons(s, a, rest, end, w);
    }
  }

  /** From every reachable state, closing or not, one worker's own steps run an accepted job that
      has not run yet, and it runs exactly once. */
  lemma AcceptedCanRun(capacity: nat, workers: set<Wid>, before: seq<Step>, s: State, e: Eid)
    returns (w: Wid, steps: seq<Step>, end: State)
    requires RunOf(Init(capacity, workers), before, s) && workers != {} && Accepted(s, e) && s.ran[e] == 0
    ensures w in workers && RunOf(s, steps, end) && AllOfWorker(steps, w)
    ensures end.ran[e] == 1
  {
    Reachable(capacity, workers, before, s, e);
    if Taken(s, e) {
      w :| WithWorker(s, w, e);
    } else {
      assert e in multiset(s.queue);
      w :| w in workers;
    }
    steps, end := WorksOff(s, w, e);
    RunKeeps(s, steps, end, e);
  }

  // ---- Every Close call can return ----

  lemma {:induction false} RunCloseOk(s: State, steps: seq<Step>, end: State)
    requires CloseOk(s) && RunOf(s, steps, end)
    ensures CloseOk(end)
    decreases |steps|
  {
    if steps != [] {
      StepCloseOk(s, steps[0]);
      RunCloseOk(Apply(s, steps[0]), steps[1..], end);
    }
  }

  lemma DoneIsWinner(s: State, c: Cid)
    requires CloseOk(s) && c in s.closes && s.closes[c].Done?
    ensures s.closing && CloseAt(s, c, Done(s.winner == c))
  {
  }

  lemma FirstCallReturns(s: State, c: Cid) returns (steps: seq<Step>, end: State)
    requires CloseOk(s) && CloseAt(s, c, Begin) && !s.closing
    ensures RunOf(s, steps, end) && NoNewcomer(steps) && CloseAt(end, c, Done(true))
  {
    var s1 := Apply(s, CompareAndSwap(c));
    StepCloseOk(s, CompareAndSwap(c));
    OnlyWinnerWrites(s1, c);
    var rest;
    rest, end := FromWon(s1, c);
    steps := RunCons(s, CompareAndSwap(c), rest, end);
  }

  /** A call of Close that has begun can return, and it returns as the one that closed the pool if
      and only if it set the flag; on an open pool it does. */
  lemma CloseCallReturns(capacity: nat, workers: set<Wid>, before: seq<Step>, s: State, c: Cid)
    returns (steps: seq<Step>, end: State)
    requires RunOf(Init(capacity, workers), before, s) && c in s.closes
    ensures RunOf(s, steps, end) && NoNewcomer(steps)
    ensures end.closing && CloseAt(end, c, Done(end.winner == c))
    ensures !s.closing ==> end.winner == c
  {
    Reachable(capacity, workers, before, s, 0);
    if CloseAt(s, c, Begin) && s.closing {
      end := Apply(s, CompareAndSwap(c));
      steps := RunCons(s, CompareAndSwap(c), [], end);
    } else if CloseAt(s, c, Begin) {
      steps, end := FirstCallReturns(s, c);
    } else if InClose(s, c) {
      steps, end := CloseCanReturn(capacity, workers, before, s, c);
    } else {
      steps, end := [], s;
    }
    RunCloseOk(s, steps, end);
    DoneIsWinner(end, c);
  }
}
