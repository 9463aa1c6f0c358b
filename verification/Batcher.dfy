/** The UDP send batcher of internal/transport/udp/sendqueue.go as a step machine: any
    number of submit calls, one loop, a bounded channel, a timer and a pool of job objects. */
module Batcher {
  import opened Wrappers

  type Sid = nat   // one call of submit
  type Jid = nat   // one pooled sendJob object

  datatype Answer = Sent | WriteFailed

  /** What submit returns. `CtxAfterSend` is its context error for a datagram that went out. */
  datatype SubmitResult = OkSent | ErrWrite | ErrTransportClosed | ErrContext | CtxAfterSend

  datatype SubmitPc =
    | Selecting(j: Jid)                            // job acquired, first select
    | Waiting(j: Jid)                              // accepted, second select
    | Answered(j: Jid, ans: Answer, ctxDone: bool) // answer received, job not yet given back
    | Returned(res: SubmitResult)

  /** A job object: the submission whose payload it carries and its one-slot reply channel. */
  datatype Job = Job(sub: Sid, errCh: Option<Answer>)

  datatype Timer = Stopped | Running | Fired

  /** Where the loop stands. `start` is the first job of the buffer that still has to be
      written on its own; `stop` says that the loop returns after this flush. */
  datatype LoopPc =
    | Head
    | Draining(wasEmpty: bool)
    | Writing(stop: bool)
    | Replying(next: nat, start: nat, stop: bool)
    | Exited

  datatype State = State(
    max: nat,
    subs: map<Sid, SubmitPc>,
    jobs: map<Jid, Job>,
    pool: set<Jid>,
    ch: seq<Jid>,
    buf: seq<Jid>,
    loop: LoopPc,
    timer: Timer,
    stopped: bool,
    accepted: seq<Sid>,      // history: submissions in the order the channel took them
    answered: seq<Sid>,      // history: submissions in the order they were answered
    released: multiset<Sid>, // history: calls of release()
    handed: set<Sid>)        // history: payloads the socket took

  datatype Step =
    | Acquire(sid: Sid, j: Jid)
    | RejectStopped(sid: Sid)
    | RejectCtx(sid: Sid)
    | Enqueue(sid: Sid)
    | Receive(sid: Sid, ctxDone: bool)
    | Finish(sid: Sid)
    | TimerFires
    | Close
    | LoopStops
    | LoopReceives
    | LoopTimer
    | DrainReceives
    | DrainEnds
    | WriteBatch(start: nat, wrote: nat)
    | Reply(ok: bool)
    | FlushEnds

  function Init(max: nat): State {
    State(max, map[], map[], {}, [], [], Head, Stopped, false, [], [], multiset{}, {})
  }

  /** Jobs of the buffer already answered in the current flush. */
  function Replied(s: State): nat {
    if s.loop.Replying? && s.loop.next <= |s.buf| then s.loop.next else 0
  }

  /** The accepted jobs that the batcher still has to answer, oldest first. */
  function Pending(s: State): seq<Jid> {
    s.buf[Replied(s)..] + s.ch
  }

  function SubsOf(jobs: map<Jid, Job>, js: seq<Jid>): seq<Sid>
    requires forall j :: j in js ==> j in jobs
  {
    seq(|js|, i requires 0 <= i < |js| => jobs[js[i]].sub)
  }

  predicate IsSelecting(s: State, sid: Sid) {
    sid in s.subs && s.subs[sid].Selecting?
  }

  ghost predicate Enabled(s: State, a: Step) {
    match a
    case Acquire(sid, j) => sid !in s.subs && (j !in s.jobs || j in s.pool)
    case RejectStopped(sid) => IsSelecting(s, sid) && s.stopped
    case RejectCtx(sid) => IsSelecting(s, sid)
    case Enqueue(sid) => IsSelecting(s, sid) && |s.ch| < 4 * s.max
    case Receive(sid, _) =>
      sid in s.subs && s.subs[sid].Waiting? && s.subs[sid].j in s.jobs && s.jobs[s.subs[sid].j].errCh.Some?
    case Finish(sid) => sid in s.subs && s.subs[sid].Answered?
    case TimerFires => s.timer.Running?
    case Close => true
    case LoopStops => s.loop.Head? && s.stopped
    case LoopReceives => s.loop.Head? && s.ch != []
    case LoopTimer => s.loop.Head? && s.buf != [] && s.timer.Fired?
    case DrainReceives => s.loop.Draining? && |s.buf| < s.max && s.ch != []
    case DrainEnds => s.loop.Draining? && (|s.buf| >= s.max || s.ch == [])
    // WriteBatch took the first `wrote` payloads; `start` is 0 when it reported an error,
    // and also when the jobs are written one by one
    case WriteBatch(start, wrote) => s.loop.Writing? && start <= wrote <= |s.buf| && (start == wrote || start == 0)
    case Reply(ok) =>
      && s.loop.Replying? && s.loop.next < |s.buf|
      && s.buf[s.loop.next] in s.jobs && s.jobs[s.buf[s.loop.next]].errCh.None?
      && (s.loop.next < s.loop.start ==> ok)
    case FlushEnds => s.loop.Replying? && s.loop.next == |s.buf|
  }

  function SetSub(s: State, sid: Sid, pc: SubmitPc): State {
    s.(subs := s.subs[sid := pc])
  }

  function SetErr(s: State, j: Jid, e: Option<Answer>): State
    requires j in s.jobs
  {
    s.(jobs := s.jobs[j := s.jobs[j].(errCh := e)])
  }

  function DoAcquire(s: State, sid: Sid, j: Jid): State {
    SetSub(s, sid, Selecting(j)).(jobs := s.jobs[j := Job(sid, None)], pool := s.pool - {j})
  }

  /** releaseSendJob: the reply slot is emptied and the object goes back to the pool. */
  function GiveBack(s: State, j: Jid): State {
    s.(jobs := if j in s.jobs then s.jobs[j := s.jobs[j].(errCh := None)] else s.jobs, pool := s.pool + {j})
  }

  /** submit releases the payload itself when the job was not accepted. */
  function DoReject(s: State, sid: Sid, res: SubmitResult): State
    requires IsSelecting(s, sid)
  {
    GiveBack(SetSub(s, sid, Returned(res)).(released := s.released + multiset{sid}), s.subs[sid].j)
  }

  function DoEnqueue(s: State, sid: Sid): State
    requires IsSelecting(s, sid)
  {
    var j := s.subs[sid].j;
    SetSub(s, sid, Waiting(j)).(ch := s.ch + [j], accepted := s.accepted + [sid])
  }

  function DoReceive(s: State, sid: Sid, ctxDone: bool): State
    requires sid in s.subs && s.subs[sid].Waiting? && s.subs[sid].j in s.jobs && s.jobs[s.subs[sid].j].errCh.Some?
  {
    var j := s.subs[sid].j;
    SetErr(SetSub(s, sid, Answered(j, s.jobs[j].errCh.value, ctxDone)), j, None)
  }

  function ResultOf(ans: Answer, ctxDone: bool): SubmitResult {
    if ans.WriteFailed? then ErrWrite else if ctxDone then CtxAfterSend else OkSent
  }

  function DoFinish(s: State, sid: Sid): State
    requires sid in s.subs && s.subs[sid].Answered?
  {
    var Answered(j, ans, ctxDone) := s.subs[sid];
    GiveBack(SetSub(s, sid, Returned(ResultOf(ans, ctxDone))), j)
  }

  /** drain returns: a full buffer is flushed, an only just started one arms the timer. */
  function DoDrainEnds(s: State): State
    requires s.loop.Draining?
  {
    if |s.buf| >= s.max then s.(loop := Writing(false), timer := if s.loop.wasEmpty then s.timer else Stopped)
    else if s.loop.wasEmpty then s.(loop := Head, timer := Running)
    else s.(loop := Head)
  }

  function DoWriteBatch(s: State, start: nat, wrote: nat): State
    requires s.loop.Writing? && start <= wrote <= |s.buf|
  {
    s.(loop := Replying(0, start, s.loop.stop),
       handed := s.handed + set i | 0 <= i < wrote && s.buf[i] in s.jobs :: s.jobs[s.buf[i]].sub)
  }

  /** Release the payload and answer; from `start` on the job is first written on its own. */
  function DoReply(s: State, ok: bool): State
    requires s.loop.Replying? && s.loop.next < |s.buf| && s.buf[s.loop.next] in s.jobs
  {
    var j := s.buf[s.loop.next];
    var sid := s.jobs[j].sub;
    SetErr(s, j, Some(if ok then Sent else WriteFailed)).(
      loop := s.loop.(next := s.loop.next + 1),
      released := s.released + multiset{sid},
      answered := s.answered + [sid],
      handed := if ok && s.loop.next >= s.loop.start then s.handed + {sid} else s.handed)
  }

  ghost function Apply(s: State, a: Step): State
    requires Enabled(s, a)
  {
    match a
    case Acquire(sid, j) => DoAcquire(s, sid, j)
    case RejectStopped(sid) => DoReject(s, sid, ErrTransportClosed)
    case RejectCtx(sid) => DoReject(s, sid, ErrContext)
    case Enqueue(sid) => DoEnqueue(s, sid)
    case Receive(sid, ctxDone) => DoReceive(s, sid, ctxDone)
    case Finish(sid) => DoFinish(s, sid)
    case TimerFires => s.(timer := Fired)
    case Close => s.(stopped := true)
    case LoopStops => s.(loop := if s.buf == [] then Exited else Writing(true))
    case LoopReceives => s.(buf := s.buf + [s.ch[0]], ch := s.ch[1..], loop := Draining(s.buf == []))
    case LoopTimer => s.(timer := Stopped, loop := Writing(false))
    case DrainReceives => s.(buf := s.buf + [s.ch[0]], ch := s.ch[1..])
    case DrainEnds => DoDrainEnds(s)
    case WriteBatch(start, wrote) => DoWriteBatch(s, start, wrote)
    case Reply(ok) => DoReply(s, ok)
    case FlushEnds => s.(buf := [], loop := if s.loop.stop then Exited else Head)
  }

  // ---- Invariant ----

  predicate HeldBy(s: State, j: Jid, sid: Sid) {
    j in s.jobs && j !in s.pool && s.jobs[j].sub == sid
  }

  /** One submission: who has its payload, who has its job, and what an answer means. */
  predicate SubOk(s: State, sid: Sid)
    requires sid in s.subs
  {
    match s.subs[sid]
    case Selecting(j) =>
      HeldBy(s, j, sid) && s.jobs[j].errCh.None? && j !in Pending(s) && s.released[sid] == 0
    case Waiting(j) =>
      && HeldBy(s, j, sid)
      && (if s.jobs[j].errCh.None? then j in Pending(s) && s.released[sid] == 0
          else j !in Pending(s) && s.released[sid] == 1 && (s.jobs[j].errCh.value.Sent? ==> sid in s.handed))
    case Answered(j, ans, _) =>
      && HeldBy(s, j, sid) && s.jobs[j].errCh.None? && j !in Pending(s)
      && s.released[sid] == 1 && (ans.Sent? ==> sid in s.handed)
    case Returned(res) =>
      s.released[sid] == 1 && (res.OkSent? || res.CtxAfterSend? ==> sid in s.handed)
  }

  ghost predicate SubsOk(s: State) {
    forall sid :: sid in s.subs ==> SubOk(s, sid)
  }

  ghost predicate PendingOk(s: State) {
    && (forall j :: j in Pending(s) ==>
          j in s.jobs && s.jobs[j].sub in s.subs && s.subs[s.jobs[j].sub] == Waiting(j) && s.jobs[j].errCh.None?)
    && (forall i, k :: 0 <= i < k < |Pending(s)| ==> Pending(s)[i] != Pending(s)[k])
  }

  ghost predicate Conserved(s: State) {
    && (forall j :: j in Pending(s) ==> j in s.jobs)
    && s.accepted == s.answered + SubsOf(s.jobs, Pending(s))
  }

  /** Buffer size, timer and stop flag at each place of the loop. At the head the timer is
      running, or fired and not read, exactly when jobs are buffered. */
  predicate PlaceOk(s: State) {
    match s.loop
    case Head => |s.buf| < s.max && (s.buf != [] <==> !s.timer.Stopped?)
    case Draining(wasEmpty) => 1 <= |s.buf| <= s.max && (wasEmpty <==> s.timer.Stopped?)
    case Writing(stop) => 1 <= |s.buf| <= s.max && (if stop then s.stopped else s.timer.Stopped?)
    case Replying(next, start, stop) =>
      && 1 <= |s.buf| <= s.max && next <= |s.buf| && start <= |s.buf|
      && (if stop then s.stopped else s.timer.Stopped?)
      && (forall i :: next <= i < start ==> s.buf[i] in s.jobs && s.jobs[s.buf[i]].sub in s.handed)
    case Exited => s.buf == [] && s.stopped
  }

  predicate LoopOk(s: State) {
    s.max > 0 && PlaceOk(s)
  }

  ghost predicate Inv(s: State) {
    && LoopOk(s) && PendingOk(s) && SubsOk(s) && Conserved(s)
    && (forall sid :: sid !in s.subs ==> s.released[sid] == 0)
    && s.pool <= s.jobs.Keys
  }

  lemma InitInv(max: nat)
    requires max > 0
    ensures Inv(Init(max))
  {
  }

  /** Steps after which the same jobs are pending, in the same order, and no job changed. */
  lemma SamePendingInv(s: State, s1: State)
    requires Inv(s) && LoopOk(s1) && Pending(s1) == Pending(s) && s.handed <= s1.handed
    requires s1.subs == s.subs && s1.jobs == s.jobs && s1.pool == s.pool
    requires s1.accepted == s.accepted && s1.answered == s.answered && s1.released == s.released
    ensures Inv(s1)
  {
    forall sid | sid in s1.subs
      ensures SubOk(s1, sid)
    {
      assert SubOk(s, sid);
    }
  }

  lemma TakeOne(s: State, s1: State)
    requires s.ch != [] && !s.loop.Replying? && !s1.loop.Replying?
    requires s1.buf == s.buf + [s.ch[0]] && s1.ch == s.ch[1..]
    ensures Pending(s1) == Pending(s)
  {
  }

  lemma ReceivesInv(s: State, a: Step)
    requires Inv(s) && Enabled(s, a) && (a.LoopReceives? || a.DrainReceives?)
    ensures Inv(Apply(s, a))
  {
    TakeOne(s, Apply(s, a));
    SamePendingInv(s, Apply(s, a));
  }

  lemma WriteBatchInv(s: State, start: nat, wrote: nat)
    requires Inv(s) && Enabled(s, WriteBatch(start, wrote))
    ensures Inv(DoWriteBatch(s, start, wrote))
  {
    var s1 := DoWriteBatch(s, start, wrote);
    assert forall i :: 0 <= i < |s.buf| ==> Pending(s)[i] == s.buf[i];
    SamePendingInv(s, s1);
  }

  lemma ControlInv(s: State, a: Step)
    requires Inv(s) && Enabled(s, a)
    requires a.TimerFires? || a.Close? || a.LoopStops? || a.LoopTimer? || a.DrainEnds? || a.FlushEnds?
    ensures Inv(Apply(s, a))
  {
    SamePendingInv(s, Apply(s, a));
  }

  // ---- Steps of submit ----

  /** A job object never sits in the pool while the batcher still has to answer it. */
  lemma PooledNotPending(s: State, j: Jid)
    requires Inv(s) && (j !in s.jobs || j in s.pool)
    ensures j !in Pending(s)
  {
    forall i | i in Pending(s)
      ensures i in s.jobs && i !in s.pool
    {
      assert SubOk(s, s.jobs[i].sub);
    }
  }

  lemma AcquireInv(s: State, sid: Sid, j: Jid)
    requires Inv(s) && Enabled(s, Acquire(sid, j))
    ensures Inv(DoAcquire(s, sid, j))
  {
    var s1 := DoAcquire(s, sid, j);
    assert Pending(s1) == Pending(s);
    assert j !in Pending(s) by { PooledNotPending(s, j); }
    assert SubsOf(s1.jobs, Pending(s1)) == SubsOf(s.jobs, Pending(s));
    forall x | x in s1.subs
      ensures SubOk(s1, x)
    {
      if x != sid {
        assert SubOk(s, x);
      }
    }
  }

  lemma RejectInv(s: State, sid: Sid, res: SubmitResult)
    requires Inv(s) && IsSelecting(s, sid) && (res.ErrTransportClosed? || res.ErrContext?)
    ensures Inv(DoReject(s, sid, res))
  {
    var s1 := DoReject(s, sid, res);
    assert SubOk(s, sid);
    assert Pending(s1) == Pending(s);
    assert SubsOf(s1.jobs, Pending(s1)) == SubsOf(s.jobs, Pending(s));
    forall x | x in s1.subs
      ensures SubOk(s1, x)
    {
      assert SubOk(s, x);
    }
  }

  lemma EnqueueSubs(s: State, sid: Sid)
    requires SubsOk(s) && Enabled(s, Enqueue(sid))
    ensures SubsOk(DoEnqueue(s, sid))
  {
    var s1 := DoEnqueue(s, sid);
    assert SubOk(s, sid);
    assert Pending(s1) == Pending(s) + [s.subs[sid].j];
    forall x | x in s1.subs
      ensures SubOk(s1, x)
    {
      assert SubOk(s, x);
    }
  }

  lemma EnqueuePending(s: State, sid: Sid)
    requires SubsOk(s) && PendingOk(s) && Conserved(s) && Enabled(s, Enqueue(sid))
    ensures PendingOk(DoEnqueue(s, sid)) && Conserved(DoEnqueue(s, sid))
  {
    var s1 := DoEnqueue(s, sid);
    assert SubOk(s, sid);
    assert Pending(s1) == Pending(s) + [s.subs[sid].j];
    assert SubsOf(s1.jobs, Pending(s1)) == SubsOf(s.jobs, Pending(s)) + [sid];
  }

  lemma EnqueueInv(s: State, sid: Sid)
    requires Inv(s) && Enabled(s, Enqueue(sid))
    ensures Inv(DoEnqueue(s, sid))
  {
    EnqueueSubs(s, sid);
    EnqueuePending(s, sid);
  }

  lemma ReceiveInv(s: State, sid: Sid, ctxDone: bool)
    requires Inv(s) && Enabled(s, Receive(sid, ctxDone))
    ensures Inv(DoReceive(s, sid, ctxDone))
  {
    var s1 := DoReceive(s, sid, ctxDone);
    assert SubOk(s, sid);
    assert Pending(s1) == Pending(s);
    assert SubsOf(s1.jobs, Pending(s1)) == SubsOf(s.jobs, Pending(s));
    forall x | x in s1.subs
      ensures SubOk(s1, x)
    {
      assert SubOk(s, x);
    }
  }

  lemma FinishInv(s: State, sid: Sid)
    requires Inv(s) && Enabled(s, Finish(sid))
    ensures Inv(DoFinish(s, sid))
  {
    var s1 := DoFinish(s, sid);
    assert SubOk(s, sid);
    assert Pending(s1) == Pending(s);
    assert SubsOf(s1.jobs, Pending(s1)) == SubsOf(s.jobs, Pending(s));
    forall x | x in s1.subs
      ensures SubOk(s1, x)
    {
      assert SubOk(s, x);
    }
  }

  /** A reply takes the oldest pending job. */
  lemma ReplyTakesFirst(s: State, ok: bool)
    requires Enabled(s, Reply(ok))
    ensures Pending(s) == [s.buf[s.loop.next]] + Pending(DoReply(s, ok))
  {
    var n := s.loop.next;
    var s1 := DoReply(s, ok);
    assert Replied(s) == n && Replied(s1) == n + 1 && s1.buf == s.buf && s1.ch == s.ch;
    assert s.buf[n..] == [s.buf[n]] + s.buf[n + 1..];
    assert ([s.buf[n]] + s.buf[n + 1..]) + s.ch == [s.buf[n]] + (s.buf[n + 1..] + s.ch);
  }

  lemma FirstNotInRest(s: State, js: seq<Jid>, j: Jid)
    requires PendingOk(s) && Pending(s) == [j] + js
    ensures j !in js
    ensures forall k, m :: 0 <= k < m < |js| ==> js[k] != js[m]
    ensures j in Pending(s) && forall i :: i in js ==> i in Pending(s)
  {
    assert Pending(s)[0] == j;
    assert forall i :: 0 <= i < |js| ==> js[i] == Pending(s)[i + 1];
  }

  lemma ReplyPending(s: State, ok: bool)
    requires PendingOk(s) && Enabled(s, Reply(ok))
    ensures PendingOk(DoReply(s, ok))
  {
    ReplyTakesFirst(s, ok);
    FirstNotInRest(s, Pending(DoReply(s, ok)), s.buf[s.loop.next]);
  }

  lemma SubsCons(jobs: map<Jid, Job>, jobs1: map<Jid, Job>, j: Jid, rest: seq<Jid>)
    requires forall i :: i in [j] + rest ==> i in jobs && i in jobs1 && jobs1[i].sub == jobs[i].sub
    requires forall i :: i in rest ==> i in jobs1
    ensures SubsOf(jobs, [j] + rest) == [jobs[j].sub] + SubsOf(jobs1, rest)
  {
    forall i | 0 <= i < |rest|
      ensures jobs[rest[i]].sub == jobs1[rest[i]].sub
    {
      assert ([j] + rest)[i + 1] == rest[i];
    }
  }

  lemma ReplyConserved(s: State, ok: bool)
    requires Conserved(s) && Enabled(s, Reply(ok))
    ensures Conserved(DoReply(s, ok))
  {
    var s1 := DoReply(s, ok);
    var j := s.buf[s.loop.next];
    var rest := Pending(s1);
    assert Pending(s) == [j] + rest by { ReplyTakesFirst(s, ok); }
    assert SubsOf(s.jobs, [j] + rest) == [s.jobs[j].sub] + SubsOf(s1.jobs, rest) by {
      ReplyTakesFirst(s, ok);
      assert forall i :: i in rest ==> i in [j] + rest;
      SubsCons(s.jobs, s1.jobs, j, rest);
    }
    assert s.answered + ([s.jobs[j].sub] + SubsOf(s1.jobs, rest)) == (s.answered + [s.jobs[j].sub]) + SubsOf(s1.jobs, rest);
  }

  lemma ReplySubs(s: State, ok: bool)
    requires Inv(s) && Enabled(s, Reply(ok))
    ensures SubsOk(DoReply(s, ok))
  {
    var s1 := DoReply(s, ok);
    ReplyTakesFirst(s, ok);
    FirstNotInRest(s, Pending(s1), s.buf[s.loop.next]);
    assert SubOk(s, s.jobs[s.buf[s.loop.next]].sub);
    forall x | x in s1.subs
      ensures SubOk(s1, x)
    {
      assert SubOk(s, x);
    }
  }

  lemma ReplyInv(s: State, ok: bool)
    requires Inv(s) && Enabled(s, Reply(ok))
    ensures Inv(DoReply(s, ok))
  {
    ReplySubs(s, ok);
    ReplyPending(s, ok);
    ReplyConserved(s, ok);
    assert s.buf[s.loop.next] in Pending(s) by { ReplyTakesFirst(s, ok); }
  }

  lemma StepInv(s: State, a: Step)
    requires Inv(s) && Enabled(s, a)
    ensures Inv(Apply(s, a))
  {
    match a
    case Acquire(sid, j) => AcquireInv(s, sid, j);
    case RejectStopped(sid) => RejectInv(s, sid, ErrTransportClosed);
    case RejectCtx(sid) => RejectInv(s, sid, ErrContext);
    case Enqueue(sid) => EnqueueInv(s, sid);
    case Receive(sid, ctxDone) => ReceiveInv(s, sid, ctxDone);
    case Finish(sid) => FinishInv(s, sid);
    case LoopReceives => ReceivesInv(s, a);
    case DrainReceives => ReceivesInv(s, a);
    case WriteBatch(start, wrote) => WriteBatchInv(s, start, wrote);
    case Reply(ok) => ReplyInv(s, ok);
    case _ => ControlInv(s, a);
  }

  // ---- Guarantees over whole runs ----

  ghost predicate Run(s: State, steps: seq<Step>, end: State)
    decreases |steps|
  {
    if steps == [] then s == end
    else Enabled(s, steps[0]) && Run(Apply(s, steps[0]), steps[1..], end)
  }

  lemma {:induction false} RunInv(s: State, steps: seq<Step>, end: State)
    requires Inv(s) && Run(s, steps, end)
    ensures Inv(end)
    decreases |steps|
  {
    if steps != [] {
      StepInv(s, steps[0]);
      RunInv(Apply(s, steps[0]), steps[1..], end);
    }
  }

  /** Conservation: at every point the accepted submissions, in order, are the answered ones
      followed by those in the buffer and those in the channel. When the loop has exited,
      the channel alone is left. */
  lemma AcceptedAreAnsweredOrPending(max: nat, steps: seq<Step>, s: State)
    requires max > 0 && Run(Init(max), steps, s)
    ensures forall j :: j in Pending(s) ==> j in s.jobs
    ensures s.accepted == s.answered + SubsOf(s.jobs, Pending(s))
    ensures s.loop.Exited? ==> Pending(s) == s.ch
  {
    InitInv(max);
    RunInv(Init(max), steps, s);
  }

  lemma StepBound(s: State, a: Step)
    requires Enabled(s, a) && |s.ch| <= 4 * s.max
    ensures Apply(s, a).max == s.max && |Apply(s, a).ch| <= 4 * s.max
  {
  }

  lemma {:induction false} RunBound(s: State, steps: seq<Step>, end: State)
    requires Run(s, steps, end) && |s.ch| <= 4 * s.max
    ensures end.max == s.max && |end.ch| <= 4 * s.max
    decreases |steps|
  {
    if steps != [] {
      StepBound(s, steps[0]);
      RunBound(Apply(s, steps[0]), steps[1..], end);
    }
  }

  /** The channel never holds more than four full buffers; a flush has between 1 and max jobs, and a
      buffered job at the loop head always has a pending timer to wake the loop. */
  lemma FlushSizeAndWakeUp(max: nat, steps: seq<Step>, s: State)
    requires max > 0 && Run(Init(max), steps, s)
    ensures s.loop.Writing? || s.loop.Replying? ==> 1 <= |s.buf| <= s.max
    ensures s.loop.Head? ==> |s.buf| < s.max && (s.buf != [] <==> s.timer.Running? || s.timer.Fired?)
    ensures s.max == max && |s.ch| <= 4 * max
    ensures forall sid :: IsSelecting(s, sid) && !Enabled(s, Enqueue(sid)) ==> |s.ch| == 4 * max
  {
    InitInv(max);
    RunInv(Init(max), steps, s);
    RunBound(Init(max), steps, s);
  }

  /** Answering never blocks, and the object that is answered is in no pool. */
  lemma ReplyNeverBlocks(max: nat, steps: seq<Step>, s: State)
    requires max > 0 && Run(Init(max), steps, s) && s.loop.Replying? && s.loop.next < |s.buf|
    ensures Enabled(s, Reply(true)) && s.buf[s.loop.next] !in s.pool
  {
    InitInv(max);
    RunInv(Init(max), steps, s);
    assert Pending(s)[0] == s.buf[s.loop.next];
    assert SubOk(s, s.jobs[s.buf[s.loop.next]].sub);
  }

  /** Payloads are released at most once, exactly once for every submission that has
      returned or been answered; each accepted submission is answered at most once; and a
      nil answer means that the socket took the datagram. */
  lemma ReleasedAndAnsweredOnce(max: nat, steps: seq<Step>, s: State, sid: Sid)
    requires max > 0 && Run(Init(max), steps, s)
    ensures s.released[sid] <= 1
    ensures sid in s.subs && s.subs[sid].Returned? ==> s.released[sid] == 1
    ensures sid in s.subs && s.subs[sid] == Returned(OkSent) ==> sid in s.handed
  {
    InitInv(max);
    RunInv(Init(max), steps, s);
    if sid in s.subs {
      assert SubOk(s, sid);
    }
  }

  lemma ExitedLeavesChannel(s: State, sid: Sid)
    requires Inv(s) && s.loop.Exited? && sid in s.subs && s.subs[sid].Waiting?
    ensures s.subs[sid].j in s.jobs && (s.jobs[s.subs[sid].j].errCh.Some? <==> s.subs[sid].j !in s.ch)
  {
    assert SubOk(s, sid) && Pending(s) == s.ch;
  }

  /** After the loop has exited an accepted submission can return if and only if its job is
      no longer in the channel. */
  lemma StrandedExactlyInChannel(max: nat, steps: seq<Step>, s: State, sid: Sid)
    requires max > 0 && Run(Init(max), steps, s) && s.loop.Exited?
    requires sid in s.subs && s.subs[sid].Waiting?
    ensures Enabled(s, Receive(sid, false)) <==> s.subs[sid].j !in s.ch
  {
    assert Inv(s) by {
      InitInv(max);
      RunInv(Init(max), steps, s);
    }
    ExitedLeavesChannel(s, sid);
  }

  /** And a stranded submission stays stranded, whatever happens. */
  lemma StrandedForever(s: State, a: Step, sid: Sid)
    requires Inv(s) && Enabled(s, a) && s.loop.Exited?
    requires sid in s.subs && s.subs[sid].Waiting? && s.subs[sid].j in s.ch
    ensures Apply(s, a).loop.Exited?
    ensures sid in Apply(s, a).subs && Apply(s, a).subs[sid] == s.subs[sid] && s.subs[sid].j in Apply(s, a).ch
  {
    assert SubOk(s, sid);
    assert s.subs[sid].j in Pending(s);
  }

  // ---- One flush, undisturbed ----

  function AnswerFor(ok: bool): Answer {
    if ok then Sent else WriteFailed
  }

  /** The slots after the replies from position `next` on, with ok[i] the outcome for job i. */
  ghost predicate SlotsSettled(s: State, end: State, next: nat, ok: seq<bool>)
    requires next <= |s.buf| == |ok| && forall j :: j in s.buf ==> j in s.jobs
  {
    && end.ch == s.ch && end.subs == s.subs && end.pool == s.pool && end.accepted == s.accepted
    && end.jobs.Keys == s.jobs.Keys
    && (forall i :: next <= i < |s.buf| ==> end.jobs[s.buf[i]].errCh == Some(AnswerFor(ok[i])))
    && (forall j :: j in s.jobs && j !in s.buf[next..] ==> end.jobs[j] == s.jobs[j])
  }

  /** The histories after these replies. */
  ghost predicate HistorySettled(s: State, end: State, next: nat)
    requires next <= |s.buf| && forall j :: j in s.buf ==> j in s.jobs
  {
    && end.answered == s.answered + SubsOf(s.jobs, s.buf[next..])
    && end.released == s.released + multiset(SubsOf(s.jobs, s.buf[next..]))
  }

  ghost predicate Settled(s: State, end: State, next: nat, ok: seq<bool>)
    requires next <= |s.buf| == |ok| && forall j :: j in s.buf ==> j in s.jobs
  {
    SlotsSettled(s, end, next, ok) && HistorySettled(s, end, next)
  }

  lemma BufferIsPending(s: State)
    requires Inv(s) && (s.loop.Writing? || s.loop.Replying?)
    ensures s.loop.Replying? ==> s.loop.next <= |s.buf|
    ensures forall i :: Replied(s) <= i < |s.buf| ==> s.buf[i] in s.jobs && s.jobs[s.buf[i]].errCh.None?
    ensures forall i, k :: Replied(s) <= i < k < |s.buf| ==> s.buf[i] != s.buf[k]
  {
    var r := Replied(s);
    assert forall i :: r <= i < |s.buf| ==> Pending(s)[i - r] == s.buf[i];
  }

  lemma OneMoreSlot(s: State, end: State, ok: seq<bool>)
    requires s.loop.Replying? && s.loop.next < |s.buf| == |ok| && (forall j :: j in s.buf ==> j in s.jobs)
    requires forall i, k :: s.loop.next <= i < k < |s.buf| ==> s.buf[i] != s.buf[k]
    requires SlotsSettled(DoReply(s, ok[s.loop.next]), end, s.loop.next + 1, ok)
    ensures SlotsSettled(s, end, s.loop.next, ok)
  {
    var next := s.loop.next;
    assert s.buf[next..] == [s.buf[next]] + s.buf[next + 1..];
    assert s.buf[next] !in s.buf[next + 1..];
  }

  lemma OneMoreAnswered(s: State, end: State, ok: bool)
    requires s.loop.Replying? && s.loop.next < |s.buf| && (forall j :: j in s.buf ==> j in s.jobs)
    requires HistorySettled(DoReply(s, ok), end, s.loop.next + 1)
    ensures HistorySettled(s, end, s.loop.next)
  {
    var next := s.loop.next;
    var j, rest := s.buf[next], s.buf[next + 1..];
    var s1 := DoReply(s, ok);
    assert s.buf[next..] == [j] + rest;
    var more := SubsOf(s1.jobs, rest);
    assert SubsOf(s.jobs, [j] + rest) == [s.jobs[j].sub] + more by {
      assert forall i :: i in [j] + rest ==> i in s.buf;
      SubsCons(s.jobs, s1.jobs, j, rest);
    }
    assert s.answered + ([s.jobs[j].sub] + more) == (s.answered + [s.jobs[j].sub]) + more;
    assert multiset([s.jobs[j].sub] + more) == multiset{s.jobs[j].sub} + multiset(more);
  }

  lemma OneMoreSettled(s: State, end: State, ok: seq<bool>)
    requires s.loop.Replying? && s.loop.next < |s.buf| == |ok| && (forall j :: j in s.buf ==> j in s.jobs)
    requires Enabled(s, Reply(ok[s.loop.next]))
    requires forall i, k :: s.loop.next <= i < k < |s.buf| ==> s.buf[i] != s.buf[k]
    requires Settled(DoReply(s, ok[s.loop.next]), end, s.loop.next + 1, ok)
    ensures Settled(s, end, s.loop.next, ok)
  {
    OneMoreSlot(s, end, ok);
    OneMoreAnswered(s, end, ok[s.loop.next]);
  }

  lemma {:induction false} RepliesRun(s: State, ok: seq<bool>) returns (steps: seq<Step>, end: State)
    requires Inv(s) && s.loop.Replying? && |ok| == |s.buf| && (forall j :: j in s.buf ==> j in s.jobs)
    requires forall i :: 0 <= i < s.loop.start && i < |ok| ==> ok[i]
    ensures Run(s, steps, end) && s.loop.next <= |s.buf| && Settled(s, end, s.loop.next, ok)
    ensures end.buf == s.buf && end.loop == Replying(|s.buf|, s.loop.start, s.loop.stop)
    decreases |s.buf| - s.loop.next
  {
    BufferIsPending(s);
    var next := s.loop.next;
    if next == |s.buf| {
      steps, end := [], s;
      assert s.buf[next..] == [];
    } else {
      var a := Reply(ok[next]);
      var s1 := Apply(s, a);
      StepInv(s, a);
      var rest;
      rest, end := RepliesRun(s1, ok);
      steps := [a] + rest;
      assert steps[1..] == rest;
      OneMoreSettled(s, end, ok);
    }
  }

  lemma SettledFrame(s: State, s1: State, s2: State, end: State, ok: seq<bool>)
    requires |ok| == |s.buf| && (forall j :: j in s.buf ==> j in s.jobs)
    requires s1 == s.(loop := s1.loop, handed := s1.handed) && Settled(s1, s2, 0, ok)
    requires end == s2.(buf := end.buf, loop := end.loop)
    ensures Settled(s, end, 0, ok)
  {
  }

  lemma FlushReplies(s: State, start: nat, wrote: nat, ok: seq<bool>) returns (mid: seq<Step>, s2: State)
    requires Inv(s) && Enabled(s, WriteBatch(start, wrote)) && forall j :: j in s.buf ==> j in s.jobs
    requires |ok| == |s.buf| && forall i :: 0 <= i < start ==> ok[i]
    ensures Run(DoWriteBatch(s, start, wrote), mid, s2) && Settled(s, s2, 0, ok)
    ensures s2.buf == s.buf && s2.loop == Replying(|s.buf|, start, s.loop.stop)
  {
    WriteBatchInv(s, start, wrote);
    var s1 := DoWriteBatch(s, start, wrote);
    mid, s2 := RepliesRun(s1, ok);
    SettledFrame(s, s1, s2, s2, ok);
  }

  lemma {:induction false} RunSnoc(s: State, steps: seq<Step>, mid: State, a: Step)
    requires Run(s, steps, mid) && Enabled(mid, a)
    ensures Run(s, steps + [a], Apply(mid, a))
    decreases |steps|
  {
    if steps == [] {
      assert steps + [a] == [a];
      assert Run(Apply(s, a), [a][1..], Apply(mid, a));
    } else {
      RunSnoc(Apply(s, steps[0]), steps[1..], mid, a);
      assert (steps + [a])[1..] == steps[1..] + [a];
    }
  }

  lemma RunCons(s: State, a: Step, rest: seq<Step>, end: State) returns (steps: seq<Step>)
    requires Enabled(s, a) && Run(Apply(s, a), rest, end)
    ensures steps == [a] + rest && Run(s, steps, end)
  {
    steps := [a] + rest;
    assert steps[1..] == rest;
  }

  lemma {:induction false} RunAppend(s: State, xs: seq<Step>, mid: State, ys: seq<Step>, end: State)
    requires Run(s, xs, mid) && Run(mid, ys, end)
    ensures Run(s, xs + ys, end)
    decreases |xs|
  {
    if xs == [] {
      assert xs + ys == ys;
    } else {
      RunAppend(Apply(s, xs[0]), xs[1..], mid, ys, end);
      assert (xs + ys)[1..] == xs[1..] + ys;
    }
  }

  lemma FlushEndsAfter(s: State, start: nat, wrote: nat, mid: seq<Step>, s2: State) returns (steps: seq<Step>, end: State)
    requires Enabled(s, WriteBatch(start, wrote)) && Run(DoWriteBatch(s, start, wrote), mid, s2)
    requires s2.buf == s.buf && s2.loop == Replying(|s.buf|, start, s.loop.stop)
    ensures Run(s, steps, end) && end == s2.(buf := [], loop := if s.loop.stop then Exited else Head)
  {
    end := Apply(s2, FlushEnds);
    RunSnoc(DoWriteBatch(s, start, wrote), mid, s2, FlushEnds);
    steps := RunCons(s, WriteBatch(start, wrote), mid + [FlushEnds], end);
  }

  /** The timer is armed by the end of a drain that started the buffer, and only time fires it. */
  lemma TimerMoves(s: State, a: Step)
    requires Enabled(s, a)
    ensures !s.timer.Running? && Apply(s, a).timer.Running? ==> a.DrainEnds? && s.loop.Draining? && s.loop.wasEmpty
    ensures !s.timer.Fired? && Apply(s, a).timer.Fired? ==> a.TimerFires?
  {
  }

  /** A flush that nobody interrupts answers every job of the buffer, in order, releases each
      payload once and leaves the buffer empty. */
  lemma FlushSettlesBuffer(max: nat, before: seq<Step>, s: State, start: nat, wrote: nat, ok: seq<bool>)
    returns (steps: seq<Step>, end: State)
    requires max > 0 && Run(Init(max), before, s) && Enabled(s, WriteBatch(start, wrote))
    requires |ok| == |s.buf| && forall i :: 0 <= i < start ==> ok[i]
    ensures forall j :: j in s.buf ==> j in s.jobs
    ensures Run(s, steps, end) && Settled(s, end, 0, ok)
    ensures end.buf == [] && end.loop == if s.loop.stop then Exited else Head
  {
    InitInv(max);
    RunInv(Init(max), before, s);
    BufferIsPending(s);
    var mid, s2 := FlushReplies(s, start, wrote, ok);
    steps, end := FlushEndsAfter(s, start, wrote, mid, s2);
    SettledFrame(s, s, s2, end, ok);
  }

  // ---- No submission is answered twice ----

  /** A submission is accepted once, after which it is no longer selecting. */
  ghost predicate AcceptedOnce(s: State) {
    && (forall i, k :: 0 <= i < k < |s.accepted| ==> s.accepted[i] != s.accepted[k])
    && (forall sid :: sid in s.accepted ==> sid in s.subs && !s.subs[sid].Selecting?)
  }

  lemma StepAcceptedOnce(s: State, a: Step)
    requires AcceptedOnce(s) && Enabled(s, a)
    ensures AcceptedOnce(Apply(s, a))
  {
  }

  lemma {:induction false} RunAcceptedOnce(s: State, steps: seq<Step>, end: State)
    requires AcceptedOnce(s) && Run(s, steps, end)
    ensures AcceptedOnce(end)
    decreases |steps|
  {
    if steps != [] {
      StepAcceptedOnce(s, steps[0]);
      RunAcceptedOnce(Apply(s, steps[0]), steps[1..], end);
    }
  }

  lemma AnsweredAtMostOnce(max: nat, steps: seq<Step>, s: State, i: nat, k: nat)
    requires max > 0 && Run(Init(max), steps, s) && i < k < |s.answered|
    ensures s.answered[i] != s.answered[k]
  {
    AcceptedAreAnsweredOrPending(max, steps, s);
    RunAcceptedOnce(Init(max), steps, s);
    assert s.accepted[i] == s.answered[i] && s.accepted[k] == s.answered[k];
  }
}
