/** The bounded worker pool of internal/logicnode/pool.go under concurrent Enqueue and
    Close, together with the envelope each job owns (handleIncoming in run.go). A job is
    named after the Enqueue call that brought it. */
module WorkerPool {

  type Eid = nat
  type Wid = nat
  type Cid = nat

  datatype EnqueuePc =
    | Starting
    | Locked                     // read lock held
    | Sending                    // read lock held, closing seen false
    | Unlocking(accepted: bool)  // read lock held, select done
    | Returned(accepted: bool)
    | Rejected                   // OVERLOAD answered, envelope released

  datatype WorkerPc =
    | Idle
    | Got(job: Eid)
    | Working(job: Eid)
    | Finished
    | Gone

  datatype ClosePc =
    | Begin
    | Won                        // closing flag set by this call
    | HasLock
    | ChannelClosed              // write lock still held
    | WaitingForWorkers
    | Done(won: bool)

  datatype State = State(
    capacity: nat,
    enqueues: map<Eid, EnqueuePc>,
    workers: map<Wid, WorkerPc>,
    closes: map<Cid, ClosePc>,
    queue: seq<Eid>,
    closing: bool,
    closed: bool,
    winner: Cid,               // history: the Close call that set the flag
    busy: int,
    ran: multiset<Eid>,        // history: jobs that have run
    released: multiset<Eid>)   // envelopes put back

  datatype Step =
    | Arrive(e: Eid)
    | Lock(e: Eid)
    | CheckClosing(e: Eid)
    | Select(e: Eid)
    | Unlock(e: Eid)
    | Reject(e: Eid)
    | Take(w: Wid)
    | Leave(w: Wid)
    | Start(w: Wid)
    | Run(w: Wid)
    | Finish(w: Wid)
    | CallClose(c: Cid)
    | CompareAndSwap(c: Cid)
    | LockForClose(c: Cid)
    | CloseChannel(c: Cid)
    | UnlockAfterClose(c: Cid)
    | CloseReturns(c: Cid)

  function Init(capacity: nat, workers: set<Wid>): State {
    State(capacity, map[], map w | w in workers :: Idle, map[], [], false, false, 0, 0, multiset{}, multiset{})
  }

  predicate EnqueueAt(s: State, e: Eid, pc: EnqueuePc) {
    e in s.enqueues && s.enqueues[e] == pc
  }

  predicate CloseAt(s: State, c: Cid, pc: ClosePc) {
    c in s.closes && s.closes[c] == pc
  }

  predicate Reading(pc: EnqueuePc) {
    pc.Locked? || pc.Sending? || pc.Unlocking?
  }

  predicate Writing(pc: ClosePc) {
    pc.HasLock? || pc.ChannelClosed?
  }

  ghost predicate NoReader(s: State) {
    forall e :: e in s.enqueues ==> !Reading(s.enqueues[e])
  }

  ghost predicate NoWriter(s: State) {
    forall c :: c in s.closes ==> !Writing(s.closes[c])
  }

  ghost predicate AllGone(s: State) {
    forall w :: w in s.workers ==> s.workers[w].Gone?
  }

  ghost predicate Enabled(s: State, a: Step) {
    match a
    case Arrive(e) => e !in s.enqueues
    case Lock(e) => EnqueueAt(s, e, Starting) && NoWriter(s)
    case CheckClosing(e) => EnqueueAt(s, e, Locked)
    case Select(e) => EnqueueAt(s, e, Sending)
    case Unlock(e) => e in s.enqueues && s.enqueues[e].Unlocking?
    case Reject(e) => EnqueueAt(s, e, Returned(false))
    case Take(w) => w in s.workers && s.workers[w].Idle? && s.queue != []
    case Leave(w) => w in s.workers && s.workers[w].Idle? && s.queue == [] && s.closed
    case Start(w) => w in s.workers && s.workers[w].Got?
    case Run(w) => w in s.workers && s.workers[w].Working?
    case Finish(w) => w in s.workers && s.workers[w].Finished?
    case CallClose(c) => c !in s.closes
    case CompareAndSwap(c) => CloseAt(s, c, Begin)
    case LockForClose(c) => CloseAt(s, c, Won) && NoReader(s) && NoWriter(s)
    case CloseChannel(c) => CloseAt(s, c, HasLock)
    case UnlockAfterClose(c) => CloseAt(s, c, ChannelClosed)
    case CloseReturns(c) => CloseAt(s, c, WaitingForWorkers) && AllGone(s)
  }

  function SetE(s: State, e: Eid, pc: EnqueuePc): State {
    s.(enqueues := s.enqueues[e := pc])
  }

  function SetW(s: State, w: Wid, pc: WorkerPc): State {
    s.(workers := s.workers[w := pc])
  }

  function SetC(s: State, c: Cid, pc: ClosePc): State {
    s.(closes := s.closes[c := pc])
  }

  function DoSelect(s: State, e: Eid): State {
    if |s.queue| < s.capacity then SetE(s, e, Unlocking(true)).(queue := s.queue + [e])
    else SetE(s, e, Unlocking(false))
  }

  function DoRun(s: State, w: Wid): State
    requires w in s.workers && s.workers[w].Working?
  {
    var job := s.workers[w].job;
    SetW(s, w, Finished).(ran := s.ran + multiset{job}, released := s.released + multiset{job})
  }

  ghost function Apply(s: State, a: Step): State
    requires Enabled(s, a)
  {
    match a
    case Arrive(e) => SetE(s, e, Starting)
    case Lock(e) => SetE(s, e, Locked)
    case CheckClosing(e) => SetE(s, e, if s.closing then Unlocking(false) else Sending)
    case Select(e) => DoSelect(s, e)
    case Unlock(e) => SetE(s, e, Returned(s.enqueues[e].accepted))
    case Reject(e) => SetE(s, e, Rejected).(released := s.released + multiset{e})
    case Take(w) => SetW(s, w, Got(s.queue[0])).(queue := s.queue[1..])
    case Leave(w) => SetW(s, w, Gone)
    case Start(w) => SetW(s, w, Working(s.workers[w].job)).(busy := s.busy + 1)
    case Run(w) => DoRun(s, w)
    case Finish(w) => SetW(s, w, Idle).(busy := s.busy - 1)
    case CallClose(c) => SetC(s, c, Begin)
    case CompareAndSwap(c) =>
      if s.closing then SetC(s, c, Done(false)) else SetC(s, c, Won).(closing := true, winner := c)
    case LockForClose(c) => SetC(s, c, HasLock)
    case CloseChannel(c) => SetC(s, c, ChannelClosed).(closed := true)
    case UnlockAfterClose(c) => SetC(s, c, WaitingForWorkers)
    case CloseReturns(c) => SetC(s, c, Done(true))
  }

  // ---- Shutdown safety ----

  ghost predicate CloseOk(s: State) {
    && (s.closed ==> s.closing)
    && (forall c :: c in s.closes && !s.closes[c].Begin? ==> s.closing && (s.closes[c] == Done(false) || c == s.winner))
    && (s.closing ==> s.winner in s.closes && !s.closes[s.winner].Begin? && s.closes[s.winner] != Done(false))
    && (s.closing ==> (s.closed <==> s.closes[s.winner].ChannelClosed? || s.closes[s.winner].WaitingForWorkers?
                                     || s.closes[s.winner].Done?))
    && (NoReader(s) || NoWriter(s))
    && (forall e :: e in s.enqueues && s.enqueues[e].Sending? ==> !s.closed)
    && (forall w :: w in s.workers && s.workers[w].Gone? ==> s.closed && s.queue == [])
    && (s.closing && s.closes[s.winner].Done? ==> AllGone(s))
    && |s.queue| <= s.capacity
  }

  lemma EnqueueCloseOk(s: State, a: Step)
    requires CloseOk(s) && Enabled(s, a)
    requires a.Arrive? || a.Lock? || a.CheckClosing? || a.Select? || a.Unlock? || a.Reject?
    ensures CloseOk(Apply(s, a))
  {
    match a
    case Arrive(e) =>
    case Lock(e) =>
    case CheckClosing(e) =>
    case Select(e) =>
    case Unlock(e) =>
    case Reject(e) =>
  }

  lemma WorkCloseOk(s: State, a: Step)
    requires CloseOk(s) && Enabled(s, a)
    requires a.Take? || a.Leave? || a.Start? || a.Run? || a.Finish?
    ensures CloseOk(Apply(s, a))
  {
    match a
    case Take(w) =>
    case Leave(w) =>
    case Start(w) =>
    case Run(w) =>
    case Finish(w) =>
  }

  lemma ClosingCloseOk(s: State, a: Step)
    requires CloseOk(s) && Enabled(s, a)
    requires a.CallClose? || a.CompareAndSwap? || a.LockForClose? || a.CloseChannel? || a.UnlockAfterClose? || a.CloseReturns?
    ensures CloseOk(Apply(s, a))
  {
    match a
    case CallClose(c) =>
    case CompareAndSwap(c) =>
    case LockForClose(c) =>
    case CloseChannel(c) =>
    case UnlockAfterClose(c) =>
    case CloseReturns(c) =>
  }

  lemma StepCloseOk(s: State, a: Step)
    requires CloseOk(s) && Enabled(s, a)
    ensures CloseOk(Apply(s, a))
  {
    if a.Arrive? || a.Lock? || a.CheckClosing? || a.Select? || a.Unlock? || a.Reject? {
      EnqueueCloseOk(s, a);
    } else if a.Take? || a.Leave? || a.Start? || a.Run? || a.Finish? {
      WorkCloseOk(s, a);
    } else {
      ClosingCloseOk(s, a);
    }
  }

  // ---- One place per job ----

  predicate Accepted(s: State, e: Eid) {
    EnqueueAt(s, e, Unlocking(true)) || EnqueueAt(s, e, Returned(true))
  }

  predicate WithWorker(s: State, w: Wid, e: Eid) {
    w in s.workers && (s.workers[w] == Got(e) || s.workers[w] == Working(e))
  }

  ghost predicate Taken(s: State, e: Eid) {
    exists w :: WithWorker(s, w, e)
  }

  ghost function Places(s: State, e: Eid): nat {
    multiset(s.queue)[e] + (if Taken(s, e) then 1 else 0) + s.ran[e]
  }

  /** An accepted job is in the queue, with one worker, or has run once; any other job is
      nowhere. Its envelope is released when it has run or been rejected. */
  ghost predicate JobOk(s: State, e: Eid) {
    && (forall w, v :: WithWorker(s, w, e) && WithWorker(s, v, e) ==> w == v)
    && Places(s, e) == (if Accepted(s, e) then 1 else 0)
    && s.released[e] == s.ran[e] + (if EnqueueAt(s, e, Rejected) then 1 else 0)
  }

  lemma SameWorkers(s: State, s1: State, e: Eid)
    requires forall v :: WithWorker(s1, v, e) <==> WithWorker(s, v, e)
    ensures Taken(s1, e) <==> Taken(s, e)
  {
    if w :| WithWorker(s, w, e) {
      assert WithWorker(s1, w, e);
    }
  }

  lemma SelectAccepts(s: State, e: Eid, mine: Eid)
    requires EnqueueAt(s, mine, Sending)
    ensures var s1 := DoSelect(s, mine);
            && (Accepted(s1, e) <==> Accepted(s, e) || (e == mine && |s.queue| < s.capacity))
            && (EnqueueAt(s1, e, Rejected) <==> EnqueueAt(s, e, Rejected))
  {
  }

  lemma SelectJobOk(s: State, e: Eid, mine: Eid)
    requires JobOk(s, e) && EnqueueAt(s, mine, Sending)
    ensures JobOk(DoSelect(s, mine), e)
  {
    var s1 := DoSelect(s, mine);
    SelectAccepts(s, e, mine);
    assert forall v :: WithWorker(s1, v, e) <==> WithWorker(s, v, e);
    SameWorkers(s, s1, e);
    if |s.queue| < s.capacity {
      assert multiset(s1.queue) == multiset(s.queue) + multiset{mine};
      assert e == mine ==> !Accepted(s, e);
    }
  }

  lemma EnqueueJobOk(s: State, a: Step, e: Eid)
    requires JobOk(s, e) && Enabled(s, a)
    requires a.Arrive? || a.Lock? || a.CheckClosing? || a.Unlock? || a.Reject?
    ensures JobOk(Apply(s, a), e)
  {
    var s1 := Apply(s, a);
    assert forall v :: WithWorker(s1, v, e) <==> WithWorker(s, v, e);
    SameWorkers(s, s1, e);
    assert Accepted(s1, e) <==> Accepted(s, e);
  }

  lemma CloseJobOk(s: State, a: Step, e: Eid)
    requires JobOk(s, e) && Enabled(s, a)
    requires a.CallClose? || a.CompareAndSwap? || a.LockForClose? || a.CloseChannel? || a.UnlockAfterClose? || a.CloseReturns?
    ensures JobOk(Apply(s, a), e)
  {
    var s1 := Apply(s, a);
    assert s1.workers == s.workers && s1.enqueues == s.enqueues;
    assert forall v :: WithWorker(s1, v, e) <==> WithWorker(s, v, e);
    SameWorkers(s, s1, e);
  }

  lemma TakeJobOk(s: State, w: Wid, e: Eid)
    requires JobOk(s, e) && Enabled(s, Take(w))
    ensures JobOk(Apply(s, Take(w)), e)
  {
    var s1 := Apply(s, Take(w));
    assert s.queue == [s.queue[0]] + s1.queue;
    assert multiset(s.queue)[e] == multiset(s1.queue)[e] + (if e == s.queue[0] then 1 else 0);
    if e == s.queue[0] {
      assert !Taken(s, e);
      assert WithWorker(s1, w, e);
      assert forall v :: WithWorker(s1, v, e) ==> v == w || WithWorker(s, v, e);
    } else {
      assert forall v :: WithWorker(s1, v, e) <==> WithWorker(s, v, e);
      SameWorkers(s, s1, e);
    }
  }

  lemma WorkJobOk(s: State, a: Step, e: Eid)
    requires JobOk(s, e) && Enabled(s, a) && (a.Leave? || a.Start? || a.Run? || a.Finish?)
    ensures JobOk(Apply(s, a), e)
  {
    var s1 := Apply(s, a);
    if a.Run? && s.workers[a.w].job == e {
      assert WithWorker(s, a.w, e);
      forall v
        ensures !WithWorker(s1, v, e)
      {
        if v != a.w {
          assert WithWorker(s1, v, e) <==> WithWorker(s, v, e);
        }
      }
    } else {
      assert forall v :: WithWorker(s1, v, e) <==> WithWorker(s, v, e);
      SameWorkers(s, s1, e);
    }
  }

  lemma StepJobOk(s: State, a: Step, e: Eid)
    requires JobOk(s, e) && Enabled(s, a)
    ensures JobOk(Apply(s, a), e)
  {
    match a
    case Take(w) => TakeJobOk(s, w, e);
    case Leave(_) => WorkJobOk(s, a, e);
    case Start(_) => WorkJobOk(s, a, e);
    case Run(_) => WorkJobOk(s, a, e);
    case Finish(_) => WorkJobOk(s, a, e);
    case Select(mine) => SelectJobOk(s, e, mine);
    case Arrive(_) => EnqueueJobOk(s, a, e);
    case Lock(_) => EnqueueJobOk(s, a, e);
    case CheckClosing(_) => EnqueueJobOk(s, a, e);
    case Unlock(_) => EnqueueJobOk(s, a, e);
    case Reject(_) => EnqueueJobOk(s, a, e);
    case _ => CloseJobOk(s, a, e);
  }

  // ---- Busy workers ----

  ghost function BusyWorkers(s: State): set<Wid> {
    set w | w in s.workers && (s.workers[w].Working? || s.workers[w].Finished?)
  }

  lemma WorkerBusy(s: State, w: Wid, pc: WorkerPc, busy: int)
    requires s.busy == |BusyWorkers(s)| && w in s.workers
    requires var was := s.workers[w].Working? || s.workers[w].Finished?;
             var now := pc.Working? || pc.Finished?;
             busy == s.busy + (if now then 1 else 0) - (if was then 1 else 0)
    ensures busy == |BusyWorkers(SetW(s, w, pc))|
  {
    var s1 := SetW(s, w, pc);
    var rest := BusyWorkers(s) - {w};
    assert BusyWorkers(s) == if w in BusyWorkers(s) then rest + {w} else rest;
    assert BusyWorkers(s1) == if w in BusyWorkers(s1) then rest + {w} else rest;
  }

  lemma WorkStepBusy(s: State, a: Step)
    requires s.busy == |BusyWorkers(s)| && Enabled(s, a)
    requires a.Take? || a.Leave? || a.Start? || a.Run? || a.Finish?
    ensures Apply(s, a).busy == |BusyWorkers(Apply(s, a))| && Apply(s, a).workers.Keys == s.workers.Keys
  {
    var s1 := Apply(s, a);
    WorkerBusy(s, a.w, s1.workers[a.w], s1.busy);
    assert BusyWorkers(s1) == BusyWorkers(SetW(s, a.w, s1.workers[a.w]));
  }

  lemma OtherStepBusy(s: State, a: Step)
    requires s.busy == |BusyWorkers(s)| && Enabled(s, a)
    requires !a.Take? && !a.Leave? && !a.Start? && !a.Run? && !a.Finish?
    ensures Apply(s, a).busy == |BusyWorkers(Apply(s, a))| && Apply(s, a).workers.Keys == s.workers.Keys
  {
    var s1 := Apply(s, a);
    assert s1.workers == s.workers;
    assert BusyWorkers(s1) == BusyWorkers(s);
  }

  lemma StepBusy(s: State, a: Step)
    requires s.busy == |BusyWorkers(s)| && Enabled(s, a)
    ensures Apply(s, a).busy == |BusyWorkers(Apply(s, a))| && Apply(s, a).workers.Keys == s.workers.Keys
  {
    if a.Take? || a.Leave? || a.Start? || a.Run? || a.Finish? {
      WorkStepBusy(s, a);
    } else {
      OtherStepBusy(s, a);
    }
  }

  // ---- Guarantees over whole runs ----

  ghost predicate RunOf(s: State, steps: seq<Step>, end: State)
    decreases |steps|
  {
    if steps == [] then s == end
    else Enabled(s, steps[0]) && RunOf(Apply(s, steps[0]), steps[1..], end)
  }

  lemma {:induction false} RunKeeps(s: State, steps: seq<Step>, end: State, e: Eid)
    requires RunOf(s, steps, end) && CloseOk(s) && JobOk(s, e) && s.busy == |BusyWorkers(s)|
    ensures CloseOk(end) && JobOk(end, e) && end.busy == |BusyWorkers(end)| && end.workers.Keys == s.workers.Keys
    ensures end.capacity == s.capacity
    decreases |steps|
  {
    if steps != [] {
      StepCloseOk(s, steps[0]);
      StepJobOk(s, steps[0], e);
      StepBusy(s, steps[0]);
      RunKeeps(Apply(s, steps[0]), steps[1..], end, e);
    }
  }

  lemma Reachable(capacity: nat, workers: set<Wid>, steps: seq<Step>, s: State, e: Eid)
    requires RunOf(Init(capacity, workers), steps, s)
    ensures CloseOk(s) && JobOk(s, e) && s.busy == |BusyWorkers(s)|
    ensures s.workers.Keys == workers && s.capacity == capacity
  {
    var s0 := Init(capacity, workers);
    assert s0.workers.Keys == workers;
    assert BusyWorkers(s0) == {};
    RunKeeps(s0, steps, s, e);
  }

  /** No job is ever sent on the closed channel. */
  lemma NeverSendsOnClosed(capacity: nat, workers: set<Wid>, steps: seq<Step>, s: State, e: Eid)
    requires RunOf(Init(capacity, workers), steps, s) && Enabled(s, Select(e))
    ensures !s.closed
  {
    Reachable(capacity, workers, steps, s, e);
  }

  /** The queue keeps within its capacity, and no more jobs run at once than there are
      workers; the busy counter counts them. */
  lemma BoundsHold(capacity: nat, workers: set<Wid>, steps: seq<Step>, s: State)
    requires RunOf(Init(capacity, workers), steps, s)
    ensures |s.queue| <= capacity && s.busy == |BusyWorkers(s)| <= |workers|
  {
    Reachable(capacity, workers, steps, s, 0);
    assert workers == BusyWorkers(s) + (workers - BusyWorkers(s));
  }

  /** When the Close call that won the flag returns, every accepted job has run exactly once,
      and nothing is accepted any more. */
  lemma CloseReturnsAfterAllRan(capacity: nat, workers: set<Wid>, steps: seq<Step>, s: State, c: Cid, e: Eid)
    requires RunOf(Init(capacity, workers), steps, s) && workers != {} && CloseAt(s, c, Done(true))
    ensures Accepted(s, e) ==> s.ran[e] == 1
    ensures !EnqueueAt(s, e, Sending)
  {
    Reachable(capacity, workers, steps, s, e);
    var w :| w in workers;
    assert s.workers[w].Gone?;
  }

  /** An envelope is released at most once, whether its job was queued or rejected, and
      exactly once when the job has run or the rejection has been answered. */
  lemma EnvelopeReleasedOnce(capacity: nat, workers: set<Wid>, steps: seq<Step>, s: State, e: Eid)
    requires RunOf(Init(capacity, workers), steps, s)
    ensures s.released[e] <= 1
    ensures s.ran[e] == 1 || EnqueueAt(s, e, Rejected) ==> s.released[e] == 1
    ensures Accepted(s, e) ==> s.released[e] == s.ran[e]
  {
    Reachable(capacity, workers, steps, s, e);
  }
}
