/** Which accepted jobs the send batcher can still answer, and which ones it must. */
module Answering {
  import opened Wrappers
  import opened Batcher

  /** Steps of the loop and of its timer. */
  predicate LoopOrTimer(a: Step) {
    a.TimerFires? || a.LoopStops? || a.LoopReceives? || a.LoopTimer? || a.DrainReceives? || a.DrainEnds?
    || a.WriteBatch? || a.Reply? || a.FlushEnds?
  }

  predicate AllLoopOrTimer(steps: seq<Step>) {
    forall a :: a in steps ==> LoopOrTimer(a)
  }

  /** The loop has returned, or returns after the flush it is in. */
  predicate Leaving(s: State) {
    s.loop.Exited? || (s.loop.Writing? && s.loop.stop) || (s.loop.Replying? && s.loop.stop)
  }

  // ---- The loop left to itself ----

  /** What the loop does next; at its head it prefers a waiting job to everything else. */
  function LoopStep(s: State): Step {
    match s.loop
    case Head => if s.ch != [] then LoopReceives else if s.timer.Fired? then LoopTimer else TimerFires
    case Draining(_) => if |s.buf| < s.max && s.ch != [] then DrainReceives else DrainEnds
    case Writing(_) => WriteBatch(0, 0)
    case Replying(next, _, _) => if next < |s.buf| then Reply(true) else FlushEnds
    case Exited => Close
  }

  predicate AtRest(s: State) {
    s.loop.Exited? || (s.loop.Head? && Pending(s) == [])
  }

  function Unanswered(s: State): nat {
    |s.buf| - Replied(s)
  }

  function PlaceRank(s: State): nat {
    match s.loop
    case Head => if s.buf == [] then 0 else if s.timer.Fired? then 4 else 5
    case Draining(_) => 6
    case Writing(_) => 3
    case Replying(_, _, _) => 2
    case Exited => 0
  }

  ghost predicate Closer(s: State, s1: State) {
    || |s1.ch| < |s.ch|
    || (s1.ch == s.ch && (Unanswered(s1) < Unanswered(s) || (Unanswered(s1) == Unanswered(s) && PlaceRank(s1) < PlaceRank(s))))
  }

  lemma LoopStepEnabled(s: State)
    requires Inv(s) && !AtRest(s)
    ensures Enabled(s, LoopStep(s)) && LoopOrTimer(LoopStep(s))
  {
    if s.loop.Replying? {
      BufferIsPending(s);
    }
  }

  /** Closer to rest, and as much on the way out as before. */
  ghost predicate GoesOn(s: State, s1: State) {
    && Closer(s, s1) && s1.accepted == s.accepted && s1.subs == s.subs && s1.max == s.max
    && (Leaving(s) <==> Leaving(s1)) && (Leaving(s) ==> s1.ch == s.ch)
  }

  lemma GatherStepGoesOn(s: State)
    requires LoopOk(s) && !AtRest(s) && Enabled(s, LoopStep(s)) && (s.loop.Head? || s.loop.Draining?)
    ensures GoesOn(s, Apply(s, LoopStep(s)))
  {
  }

  lemma FlushStepGoesOn(s: State)
    requires LoopOk(s) && Enabled(s, LoopStep(s)) && (s.loop.Writing? || s.loop.Replying?)
    ensures GoesOn(s, Apply(s, LoopStep(s)))
  {
  }

  lemma LoopStepGoesOn(s: State)
    requires LoopOk(s) && !AtRest(s) && Enabled(s, LoopStep(s))
    ensures GoesOn(s, Apply(s, LoopStep(s)))
  {
    if s.loop.Head? || s.loop.Draining? {
      GatherStepGoesOn(s);
    } else {
      FlushStepGoesOn(s);
    }
  }

  /** Left to itself the loop comes to rest: at its head with nothing pending, or, when it is
      leaving, outside with the channel as it was. */
  lemma {:induction false} LoopComesToRest(s: State) returns (steps: seq<Step>, end: State)
    requires Inv(s)
    ensures Run(s, steps, end) && AllLoopOrTimer(steps) && Inv(end) && end.accepted == s.accepted
    ensures Reply(false) !in steps && end.subs == s.subs && end.max == s.max
    ensures if Leaving(s) then end.loop.Exited? && end.ch == s.ch else end.loop.Head? && Pending(end) == []
    decreases |s.ch|, Unanswered(s), PlaceRank(s)
  {
    if AtRest(s) {
      steps, end := [], s;
    } else {
      var a := LoopStep(s);
      LoopStepEnabled(s);
      LoopStepGoesOn(s);
      var s1 := Apply(s, a);
      assert Inv(s1) by {
        StepInv(s, a);
      }
      var rest;
      rest, end := LoopComesToRest(s1);
      steps := RunCons(s, a, rest, end);
    }
  }

  // ---- Where a job stands among the accepted ones ----

  /** The jobs the loop has taken from the channel come before those it has not. */
  function Taken(s: State): int {
    |s.accepted| - |s.ch|
  }

  /** The part of the buffer that the current flush has not answered yet. */
  function Buffered(s: State): seq<Jid> {
    s.buf[Replied(s)..]
  }

  lemma PlaceOfJob(s: State, j: Jid)
    requires Inv(s) && j in Pending(s)
    ensures j in s.jobs
    ensures exists i :: 0 <= i < |s.accepted| && s.accepted[i] == s.jobs[j].sub && (j in Buffered(s) ==> i < Taken(s))
  {
    var js := Pending(s);
    if j in Buffered(s) {
      var k :| 0 <= k < |Buffered(s)| && Buffered(s)[k] == j;
      assert js[k] == j;
      assert s.accepted[|s.answered| + k] == s.jobs[j].sub;
    } else {
      var k :| 0 <= k < |s.ch| && s.ch[k] == j;
      assert js[|Buffered(s)| + k] == j;
      assert s.accepted[|s.answered| + |Buffered(s)| + k] == s.jobs[j].sub;
    }
  }

  // ---- What can be answered ----

  ghost predicate CanBeAnswered(s: State, sid: Sid) {
    exists steps, end :: Run(s, steps, end) && AllLoopOrTimer(steps) && sid in end.answered
  }

  lemma StaysInChannel(s: State, a: Step, j: Jid)
    requires Inv(s) && Enabled(s, a) && Leaving(s) && j in s.ch
    ensures var s1 := Apply(s, a); Leaving(s1) && j in s1.ch && j in s.jobs && j in s1.jobs && s1.jobs[j].sub == s.jobs[j].sub
  {
    var k :| 0 <= k < |s.ch| && s.ch[k] == j;
    assert Pending(s)[|s.buf| - Replied(s) + k] == j;
    if a.Acquire? {
      PooledNotPending(s, a.j);
    }
  }

  lemma InChannelMeansUnanswered(s: State, j: Jid)
    requires Inv(s) && AcceptedOnce(s) && j in s.ch
    ensures j in s.jobs && s.jobs[j].sub !in s.answered
  {
    var k :| 0 <= k < |s.ch| && s.ch[k] == j;
    var p := |s.buf| - Replied(s) + k;
    assert Pending(s)[p] == j;
    assert s.accepted[|s.answered| + p] == s.jobs[j].sub;
    forall i | 0 <= i < |s.answered|
      ensures s.answered[i] != s.jobs[j].sub
    {
      assert s.accepted[i] == s.answered[i];
    }
  }

  lemma {:induction false} NeverAnswered(s: State, steps: seq<Step>, end: State, j: Jid)
    requires Inv(s) && AcceptedOnce(s) && Run(s, steps, end) && Leaving(s) && j in s.ch
    ensures j in s.jobs && s.jobs[j].sub !in end.answered
    decreases |steps|
  {
    if steps == [] {
      InChannelMeansUnanswered(s, j);
    } else {
      StaysInChannel(s, steps[0], j);
      assert Inv(Apply(s, steps[0])) by {
        StepInv(s, steps[0]);
      }
      StepAcceptedOnce(s, steps[0]);
      NeverAnswered(Apply(s, steps[0]), steps[1..], end, j);
    }
  }

  lemma RestAnswers(s: State, j: Jid)
    requires Inv(s) && j in Pending(s) && j in s.jobs && (Leaving(s) ==> j in Buffered(s))
    ensures CanBeAnswered(s, s.jobs[j].sub)
  {
    PlaceOfJob(s, j);
    var steps, end := LoopComesToRest(s);
    var i :| 0 <= i < |s.accepted| && s.accepted[i] == s.jobs[j].sub && (j in Buffered(s) ==> i < Taken(s));
    assert |SubsOf(end.jobs, Pending(end))| == |Pending(end)|;
    if Leaving(s) {
      assert Pending(end) == end.ch;
      assert |end.answered| == Taken(s);
    }
    assert end.answered[i] == s.accepted[i];
  }

  /** In every reachable state, a job that still has to be answered can be answered by the loop and
      its timer alone if and only if the loop is not leaving or the job is in its buffer, waiting
      for the current flush. */
  lemma AnswerableExactly(max: nat, before: seq<Step>, s: State, j: Jid)
    requires max > 0 && Run(Init(max), before, s) && j in Pending(s)
    ensures j in s.jobs
    ensures CanBeAnswered(s, s.jobs[j].sub) <==> !Leaving(s) || j in Buffered(s)
  {
    InitInv(max);
    RunInv(Init(max), before, s);
    RunAcceptedOnce(Init(max), before, s);
    if Leaving(s) && j !in Buffered(s) {
      assert j in s.ch;
      forall steps, end | Run(s, steps, end)
        ensures s.jobs[j].sub !in end.answered
      {
        NeverAnswered(s, steps, end, j);
      }
    } else {
      RestAnswers(s, j);
    }
  }

  // ---- What must be answered ----

  lemma StepTakes(s: State, a: Step)
    requires Enabled(s, a)
    ensures s.accepted <= Apply(s, a).accepted && Taken(s) <= Taken(Apply(s, a))
  {
  }

  lemma {:induction false} RunTakes(s: State, steps: seq<Step>, end: State)
    requires Run(s, steps, end)
    ensures s.accepted <= end.accepted && Taken(s) <= Taken(end)
    decreases |steps|
  {
    if steps != [] {
      StepTakes(s, steps[0]);
      RunTakes(Apply(s, steps[0]), steps[1..], end);
    }
  }

  /** In every run, whatever the interleaving: once the loop has exited, every submission it had
      ever taken from the channel has been answered, in order. */
  lemma TakenIsAnsweredByExit(max: nat, before: seq<Step>, s: State, more: seq<Step>, end: State)
    requires max > 0 && Run(Init(max), before, s) && Run(s, more, end) && end.loop.Exited?
    ensures 0 <= Taken(s) <= |s.accepted| && s.accepted[..Taken(s)] <= end.answered
    ensures forall j :: j in Buffered(s) ==> j in s.jobs && s.jobs[j].sub in end.answered
  {
    InitInv(max);
    RunInv(Init(max), before, s);
    RunInv(s, more, end);
    RunTakes(s, more, end);
    assert |SubsOf(end.jobs, Pending(end))| == |Pending(end)| == |end.ch|;
    assert |SubsOf(s.jobs, Pending(s))| == |Pending(s)|;
    assert end.answered == end.accepted[..Taken(end)];
    forall j | j in Buffered(s)
      ensures j in s.jobs && s.jobs[j].sub in end.answered
    {
      assert j in Pending(s);
      PlaceOfJob(s, j);
      var i :| 0 <= i < |s.accepted| && s.accepted[i] == s.jobs[j].sub && i < Taken(s);
      assert end.answered[i] == s.accepted[i];
    }
  }

  /** And no more than that: at the head of a stopped loop there is a run of the loop alone that
      exits and leaves the whole channel behind. */
  lemma StopMayLeaveChannel(max: nat, before: seq<Step>, s: State) returns (steps: seq<Step>, end: State)
    requires max > 0 && Run(Init(max), before, s) && s.loop.Head? && s.stopped
    ensures Run(s, steps, end) && AllLoopOrTimer(steps)
    ensures end.loop.Exited? && end.ch == s.ch && end.accepted == s.accepted
  {
    InitInv(max);
    RunInv(Init(max), before, s);
    var s1 := Apply(s, LoopStops);
    StepInv(s, LoopStops);
    var rest;
    rest, end := LoopComesToRest(s1);
    steps := RunCons(s, LoopStops, rest, end);
  }

  lemma {:induction false} StrandedInEveryRun(s: State, steps: seq<Step>, end: State, sid: Sid)
    requires Inv(s) && Run(s, steps, end) && s.loop.Exited?
    requires sid in s.subs && s.subs[sid].Waiting? && s.subs[sid].j in s.ch
    ensures sid in end.subs && end.subs[sid] == s.subs[sid]
    decreases |steps|
  {
    if steps != [] {
      StepInv(s, steps[0]);
      StrandedForever(s, steps[0], sid);
      StrandedInEveryRun(Apply(s, steps[0]), steps[1..], end, sid);
    }
  }

  lemma WaitsForEver(s: State, sid: Sid)
    requires Inv(s) && s.loop.Exited? && sid in s.subs && s.subs[sid].Waiting? && s.subs[sid].j in s.ch
    ensures forall more, end :: Run(s, more, end) ==> sid in end.subs && end.subs[sid] == s.subs[sid]
  {
    forall more, end | Run(s, more, end)
      ensures sid in end.subs && end.subs[sid] == s.subs[sid]
    {
      StrandedInEveryRun(s, more, end, sid);
    }
  }

  lemma StopsAtOnce(s: State)
    requires s.loop.Head? && s.buf == []
    ensures Enabled(s, Close) && Enabled(Apply(s, Close), LoopStops)
    ensures Apply(Apply(s, Close), LoopStops) == s.(loop := Exited, stopped := true)
  {
  }

  lemma AcceptsOne() returns (steps: seq<Step>, s: State)
    ensures steps == [Acquire(0, 0), Enqueue(0)] && Run(Init(1), steps, s)
    ensures s == Init(1).(subs := map[0 := Waiting(0)], jobs := map[0 := Job(0, None)], ch := [0], accepted := [0])
  {
    var s1 := DoAcquire(Init(1), 0, 0);
    s := DoEnqueue(s1, 0);
    steps := RunCons(s1, Enqueue(0), [], s);
    steps := RunCons(Init(1), Acquire(0, 0), steps, s);
  }

  /** Nor is everything accepted answered: a submission is accepted, Close stops the loop before it
      receives, and whatever happens then, the submission waits for an answer. */
  lemma CloseStrandsAccepted() returns (steps: seq<Step>, s: State)
    ensures steps == [Acquire(0, 0), Enqueue(0), Close, LoopStops] && Run(Init(1), steps, s)
    ensures s.loop.Exited? && s.accepted == [0] && s.answered == [] && s.ch == [0]
    ensures forall more, end :: Run(s, more, end) ==> 0 in end.subs && end.subs[0] == Waiting(0)
  {
    var mid;
    steps, mid := AcceptsOne();
    StopsAtOnce(mid);
    s := Apply(Apply(mid, Close), LoopStops);
    RunSnoc(Init(1), steps, mid, Close);
    RunSnoc(Init(1), steps + [Close], Apply(mid, Close), LoopStops);
    steps := steps + [Close] + [LoopStops];
    assert Inv(s) by {
      InitInv(1);
      RunInv(Init(1), steps, s);
    }
    WaitsForEver(s, 0);
  }
}
