/** Close of the worker pool is never stuck: the threads already inside can always finish. */
module Shutdown {
  import opened WorkerPool

  /** Steps of calls and workers that are under way. */
  predicate NoNewcomer(steps: seq<Step>) {
    forall a :: a in steps ==> !a.Arrive? && !a.Lock? && !a.CallClose?
  }

  lemma RunCons(s: State, a: Step, rest: seq<Step>, end: State) returns (steps: seq<Step>)
    requires Enabled(s, a) && RunOf(Apply(s, a), rest, end)
    requires NoNewcomer([a]) && NoNewcomer(rest)
    ensures RunOf(s, steps, end) && NoNewcomer(steps)
  {
    steps := [a] + rest;
    assert steps[1..] == rest;
    assert a in [a];
  }

  lemma {:induction false} RunAppend(s: State, xs: seq<Step>, mid: State, ys: seq<Step>, end: State) returns (steps: seq<Step>)
    requires RunOf(s, xs, mid) && RunOf(mid, ys, end)
    requires NoNewcomer(xs) && NoNewcomer(ys)
    ensures RunOf(s, steps, end) && NoNewcomer(steps)
    decreases |xs|
  {
    if xs == [] {
      steps := ys;
    } else {
      assert xs[0] in xs;
      var rest := RunAppend(Apply(s, xs[0]), xs[1..], mid, ys, end);
      steps := RunCons(s, xs[0], rest, end);
    }
  }

  // ---- Workers empty the closed channel and leave ----

  function WorkerStep(s: State, w: Wid): Step
    requires w in s.workers
  {
    match s.workers[w]
    case Got(_) => Start(w)
    case Working(_) => Run(w)
    case Finished => Finish(w)
    case _ => if s.queue != [] then Take(w) else Leave(w)
  }

  function WorkerRank(pc: WorkerPc): nat {
    match pc
    case Got(_) => 4
    case Working(_) => 3
    case Finished => 2
    case Idle => 1
    case Gone => 0
  }

  /** Only workers in `who`, the queue and what running jobs changes differ. */
  ghost predicate WorkersOnly(s: State, end: State, who: set<Wid>) {
    && end == s.(workers := end.workers, queue := end.queue, busy := end.busy, ran := end.ran, released := end.released)
    && end.workers.Keys == s.workers.Keys
    && forall w :: w in s.workers && w !in who ==> end.workers[w] == s.workers[w]
  }

  lemma IdleWorkerMoves(s: State, w: Wid)
    requires s.closed && w in s.workers && s.workers[w].Idle?
    ensures Enabled(s, WorkerStep(s, w))
    ensures var s1 := Apply(s, WorkerStep(s, w));
            && WorkersOnly(s, s1, {w})
            && (|s1.queue| < |s.queue| || (s1.queue == s.queue && s1.workers[w].Gone?))
  {
  }

  lemma BusyWorkerMoves(s: State, w: Wid)
    requires w in s.workers && (s.workers[w].Got? || s.workers[w].Working? || s.workers[w].Finished?)
    ensures Enabled(s, WorkerStep(s, w))
    ensures var s1 := Apply(s, WorkerStep(s, w));
            WorkersOnly(s, s1, {w}) && s1.queue == s.queue && WorkerRank(s1.workers[w]) < WorkerRank(s.workers[w])
  {
  }

  /** A worker that has not left always has a step to take once the channel is closed. */
  lemma WorkerMoves(s: State, w: Wid)
    requires s.closed && w in s.workers && !s.workers[w].Gone?
    ensures Enabled(s, WorkerStep(s, w))
    ensures var s1 := Apply(s, WorkerStep(s, w));
            && WorkersOnly(s, s1, {w})
            && (|s1.queue| < |s.queue| || (s1.queue == s.queue && WorkerRank(s1.workers[w]) < WorkerRank(s.workers[w])))
  {
    if s.workers[w].Idle? {
      IdleWorkerMoves(s, w);
    } else {
      BusyWorkerMoves(s, w);
    }
  }

  lemma {:induction false} DriveWorker(s: State, w: Wid) returns (steps: seq<Step>, end: State)
    requires s.closed && w in s.workers
    ensures RunOf(s, steps, end) && NoNewcomer(steps)
    ensures WorkersOnly(s, end, {w}) && end.workers[w].Gone?
    decreases |s.queue|, WorkerRank(s.workers[w])
  {
    if s.workers[w].Gone? {
      steps, end := [], s;
    } else {
      var a := WorkerStep(s, w);
      WorkerMoves(s, w);
      var s1 := Apply(s, a);
      var rest;
      rest, end := DriveWorker(s1, w);
      steps := RunCons(s, a, rest, end);
    }
  }

  lemma {:induction false} DriveWorkers(s: State, left: set<Wid>) returns (steps: seq<Step>, end: State)
    requires s.closed && left <= s.workers.Keys
    requires forall w :: w in s.workers && w !in left ==> s.workers[w].Gone?
    ensures RunOf(s, steps, end) && NoNewcomer(steps)
    ensures WorkersOnly(s, end, left) && AllGone(end)
    decreases left
  {
    if left == {} {
      steps, end := [], s;
    } else {
      var w :| w in left;
      var first, mid := DriveWorker(s, w);
      var rest;
      rest, end := DriveWorkers(mid, left - {w});
      steps := RunAppend(s, first, mid, rest, end);
    }
  }

  // ---- Readers let go of the lock ----

  function ReaderStep(s: State, e: Eid): Step
    requires e in s.enqueues
  {
    match s.enqueues[e]
    case Locked => CheckClosing(e)
    case Sending => Select(e)
    case _ => Unlock(e)
  }

  function ReaderRank(pc: EnqueuePc): nat {
    match pc
    case Locked => 3
    case Sending => 2
    case Unlocking(_) => 1
    case _ => 0
  }

  ghost predicate EnqueuesOnly(s: State, end: State, who: set<Eid>) {
    && end == s.(enqueues := end.enqueues, queue := end.queue)
    && end.enqueues.Keys == s.enqueues.Keys
    && forall e :: e in s.enqueues && e !in who ==> end.enqueues[e] == s.enqueues[e]
  }

  lemma ReaderMoves(s: State, e: Eid)
    requires e in s.enqueues && Reading(s.enqueues[e])
    ensures Enabled(s, ReaderStep(s, e))
    ensures var s1 := Apply(s, ReaderStep(s, e));
            EnqueuesOnly(s, s1, {e}) && ReaderRank(s1.enqueues[e]) < ReaderRank(s.enqueues[e])
  {
  }

  lemma {:induction false} DriveReader(s: State, e: Eid) returns (steps: seq<Step>, end: State)
    requires e in s.enqueues
    ensures RunOf(s, steps, end) && NoNewcomer(steps)
    ensures EnqueuesOnly(s, end, {e}) && !Reading(end.enqueues[e])
    decreases ReaderRank(s.enqueues[e])
  {
    if !Reading(s.enqueues[e]) {
      steps, end := [], s;
    } else {
      var a := ReaderStep(s, e);
      ReaderMoves(s, e);
      var s1 := Apply(s, a);
      var rest;
      rest, end := DriveReader(s1, e);
      steps := RunCons(s, a, rest, end);
    }
  }

  lemma {:induction false} DriveReaders(s: State, left: set<Eid>) returns (steps: seq<Step>, end: State)
    requires left <= s.enqueues.Keys
    requires forall e :: e in s.enqueues && e !in left ==> !Reading(s.enqueues[e])
    ensures RunOf(s, steps, end) && NoNewcomer(steps)
    ensures EnqueuesOnly(s, end, left) && NoReader(end)
    decreases left
  {
    if left == {} {
      steps, end := [], s;
    } else {
      var e :| e in left;
      var first, mid := DriveReader(s, e);
      var rest;
      rest, end := DriveReaders(mid, left - {e});
      steps := RunAppend(s, first, mid, rest, end);
    }
  }

  // ---- Close ----

  predicate InClose(s: State, c: Cid) {
    CloseAt(s, c, Won) || CloseAt(s, c, HasLock) || CloseAt(s, c, ChannelClosed) || CloseAt(s, c, WaitingForWorkers)
  }

  lemma FromWaiting(s: State, c: Cid) returns (steps: seq<Step>, end: State)
    requires CloseAt(s, c, WaitingForWorkers) && s.closed
    ensures RunOf(s, steps, end) && NoNewcomer(steps) && CloseAt(end, c, Done(true))
  {
    var first, mid := DriveWorkers(s, s.workers.Keys);
    end := Apply(mid, CloseReturns(c));
    var last := RunCons(mid, CloseReturns(c), [], end);
    steps := RunAppend(s, first, mid, last, end);
  }

  lemma FromHasLock(s: State, c: Cid) returns (steps: seq<Step>, end: State)
    requires CloseAt(s, c, HasLock)
    ensures RunOf(s, steps, end) && NoNewcomer(steps) && CloseAt(end, c, Done(true))
  {
    var s1 := Apply(s, CloseChannel(c));
    var s2 := Apply(s1, UnlockAfterClose(c));
    var rest;
    rest, end := FromWaiting(s2, c);
    rest := RunCons(s1, UnlockAfterClose(c), rest, end);
    steps := RunCons(s, CloseChannel(c), rest, end);
  }

  lemma FromWon(s: State, c: Cid) returns (steps: seq<Step>, end: State)
    requires CloseAt(s, c, Won) && NoWriter(s)
    ensures RunOf(s, steps, end) && NoNewcomer(steps) && CloseAt(end, c, Done(true))
  {
    var first, mid := DriveReaders(s, s.enqueues.Keys);
    var s1 := Apply(mid, LockForClose(c));
    var rest;
    rest, end := FromHasLock(s1, c);
    rest := RunCons(mid, LockForClose(c), rest, end);
    steps := RunAppend(s, first, mid, rest, end);
  }

  lemma OnlyWinnerWrites(s: State, c: Cid)
    requires CloseOk(s) && CloseAt(s, c, Won)
    ensures NoWriter(s)
  {
  }

  /** From every reachable state inside Close, the calls and workers already under way can
      finish so that Close returns, with terminating jobs and without any new call. */
  lemma CloseCanReturn(capacity: nat, workers: set<Wid>, before: seq<Step>, s: State, c: Cid)
    returns (steps: seq<Step>, end: State)
    requires RunOf(Init(capacity, workers), before, s) && InClose(s, c)
    ensures RunOf(s, steps, end) && NoNewcomer(steps) && CloseAt(end, c, Done(true))
  {
    Reachable(capacity, workers, before, s, 0);
    match s.closes[c]
    case Won =>
      OnlyWinnerWrites(s, c);
      steps, end := FromWon(s, c);
    case HasLock => steps, end := FromHasLock(s, c);
    case ChannelClosed =>
      var s1 := Apply(s, UnlockAfterClose(c));
      var rest;
      rest, end := FromWaiting(s1, c);
      steps := RunCons(s, UnlockAfterClose(c), rest, end);
    case WaitingForWorkers => steps, end := FromWaiting(s, c);
  }
}
