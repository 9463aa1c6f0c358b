/** What submit returns, said of the steps of a run alone: which select it left by, and how its
    datagram was answered. */
module Submitting {
  import opened Wrappers
  import opened Batcher
  import opened Answering

  // ---- What a run says about a submission ----

  ghost predicate RepliesTo(s: State, a: Step, sid: Sid) {
    && a.Reply? && s.loop.Replying? && s.loop.next < |s.buf| && s.buf[s.loop.next] in s.jobs
    && s.jobs[s.buf[s.loop.next]].sub == sid
  }

  /** The first answer that the loop gives this submission in the run. */
  ghost function FirstReply(s: State, steps: seq<Step>, end: State, sid: Sid): Option<bool>
    requires Run(s, steps, end)
    decreases |steps|
  {
    if steps == [] then None
    else if RepliesTo(s, steps[0], sid) then Some(steps[0].ok)
    else FirstReply(Apply(s, steps[0]), steps[1..], end, sid)
  }

  /** Whether its context had ended when submit read the answer. */
  function ReadLate(steps: seq<Step>, sid: Sid): Option<bool> {
    if steps == [] then None
    else if steps[0].Receive? && steps[0].sid == sid then Some(steps[0].ctxDone)
    else ReadLate(steps[1..], sid)
  }

  /** The result that belongs to these events. */
  predicate Explains(sent: Option<bool>, late: Option<bool>, stopped: bool, ctxDone: bool, res: SubmitResult) {
    && (res.OkSent? <==> sent == Some(true) && late == Some(false))
    && (res.CtxAfterSend? <==> sent == Some(true) && late == Some(true))
    && (res.ErrWrite? <==> sent == Some(false))
    && (res.ErrTransportClosed? <==> stopped)
    && (res.ErrContext? <==> ctxDone)
  }

  // ---- One step ----

  ghost predicate Concerns(s: State, a: Step, sid: Sid) {
    || ((a.Acquire? || a.RejectStopped? || a.RejectCtx? || a.Enqueue? || a.Receive? || a.Finish?) && a.sid == sid)
    || RepliesTo(s, a, sid)
  }

  /** The answer that lies in the slot or has been read, and how it was read. */
  function KnownSent(s: State, sid: Sid): Option<bool> {
    if sid !in s.subs then None
    else
      match s.subs[sid]
      case Answered(_, ans, _) => Some(ans.Sent?)
      case Waiting(j) => if j in s.jobs && s.jobs[j].errCh.Some? then Some(s.jobs[j].errCh.value.Sent?) else None
      case _ => None
  }

  function KnownLate(s: State, sid: Sid): Option<bool> {
    if sid in s.subs && s.subs[sid].Answered? then Some(s.subs[sid].ctxDone) else None
  }

  predicate HasReturned(s: State, sid: Sid) {
    sid in s.subs && s.subs[sid].Returned?
  }

  function Or(a: Option<bool>, b: Option<bool>): Option<bool> {
    if a.Some? then a else b
  }

  lemma OthersSubs(s: State, a: Step, sid: Sid)
    requires Enabled(s, a) && !Concerns(s, a, sid)
    ensures sid in Apply(s, a).subs <==> sid in s.subs
    ensures sid in s.subs ==> Apply(s, a).subs[sid] == s.subs[sid]
  {
  }

  lemma OthersSlot(s: State, a: Step, sid: Sid)
    requires Inv(s) && Enabled(s, a) && !Concerns(s, a, sid) && sid in s.subs && s.subs[sid].Waiting?
    ensures s.subs[sid].j in s.jobs && s.subs[sid].j in Apply(s, a).jobs
    ensures Apply(s, a).jobs[s.subs[sid].j].errCh == s.jobs[s.subs[sid].j].errCh
  {
    assert SubOk(s, sid);
    if (a.RejectStopped? || a.RejectCtx? || a.Receive? || a.Finish?) && a.sid in s.subs {
      assert SubOk(s, a.sid);
    }
  }

  lemma ReplyFills(s: State, a: Step, sid: Sid)
    requires Inv(s) && Enabled(s, a) && RepliesTo(s, a, sid)
    ensures sid in s.subs && s.subs[sid].Waiting? && s.subs[sid].j in s.jobs && s.jobs[s.subs[sid].j].errCh.None?
    ensures Apply(s, a).subs == s.subs && s.subs[sid].j in Apply(s, a).jobs
    ensures Apply(s, a).jobs[s.subs[sid].j].errCh == Some(AnswerFor(a.ok))
  {
    assert Pending(s)[0] == s.buf[s.loop.next];
  }

  /** What a step adds to what is known. */
  ghost predicate Adds(s: State, a: Step, s1: State, sid: Sid) {
    && KnownSent(s1, sid) == (if RepliesTo(s, a, sid) then Some(a.ok) else KnownSent(s, sid))
    && KnownLate(s1, sid) == (if a.Receive? && a.sid == sid then Some(a.ctxDone) else KnownLate(s, sid))
    && (RepliesTo(s, a, sid) ==> KnownSent(s, sid).None?)
    && (a.Receive? && a.sid == sid ==> KnownLate(s, sid).None?)
    && a != RejectStopped(sid) && a != RejectCtx(sid)
  }

  lemma OwnStepAdds(s: State, a: Step, sid: Sid)
    requires Inv(s) && Enabled(s, a) && Concerns(s, a, sid) && !HasReturned(s, sid) && !HasReturned(Apply(s, a), sid)
    ensures Adds(s, a, Apply(s, a), sid)
  {
    if RepliesTo(s, a, sid) {
      ReplyFills(s, a, sid);
    } else if a.Enqueue? {
      assert SubOk(s, sid);
    }
  }

  lemma StepAdds(s: State, a: Step, sid: Sid)
    requires Inv(s) && Enabled(s, a) && !HasReturned(s, sid) && !HasReturned(Apply(s, a), sid)
    ensures Adds(s, a, Apply(s, a), sid)
  {
    if Concerns(s, a, sid) {
      OwnStepAdds(s, a, sid);
    } else {
      OthersSubs(s, a, sid);
      if sid in s.subs && s.subs[sid].Waiting? {
        OthersSlot(s, a, sid);
      }
    }
  }

  /** The step that returns. */
  lemma ReturningStep(s: State, a: Step, sid: Sid)
    requires Inv(s) && Enabled(s, a) && !HasReturned(s, sid) && HasReturned(Apply(s, a), sid)
    ensures !RepliesTo(s, a, sid) && !(a.Receive? && a.sid == sid)
    ensures Explains(KnownSent(s, sid), KnownLate(s, sid), a == RejectStopped(sid), a == RejectCtx(sid), Apply(s, a).subs[sid].res)
  {
    if RepliesTo(s, a, sid) {
      ReplyFills(s, a, sid);
    }
    if !Concerns(s, a, sid) {
      OthersSubs(s, a, sid);
    }
  }

  // ---- After the return ----

  lemma {:induction false} NothingAfterReturn(s: State, steps: seq<Step>, end: State, sid: Sid)
    requires Inv(s) && Run(s, steps, end) && HasReturned(s, sid)
    ensures sid in end.subs && end.subs[sid] == s.subs[sid]
    ensures RejectStopped(sid) !in steps && RejectCtx(sid) !in steps
    ensures FirstReply(s, steps, end, sid).None? && ReadLate(steps, sid).None?
    decreases |steps|
  {
    if steps != [] {
      var a := steps[0];
      if RepliesTo(s, a, sid) {
        ReplyFills(s, a, sid);
      }
      OthersSubs(s, a, sid);
      StepInv(s, a);
      NothingAfterReturn(Apply(s, a), steps[1..], end, sid);
    }
  }

  // ---- The whole run ----

  ghost predicate Explained(s: State, steps: seq<Step>, end: State, sid: Sid)
    requires Run(s, steps, end) && HasReturned(end, sid)
  {
    Explains(Or(KnownSent(s, sid), FirstReply(s, steps, end, sid)), Or(KnownLate(s, sid), ReadLate(steps, sid)),
             RejectStopped(sid) in steps, RejectCtx(sid) in steps, end.subs[sid].res)
  }

  lemma ExplainedByRest(s: State, steps: seq<Step>, end: State, sid: Sid)
    requires steps != [] && Run(s, steps, end) && HasReturned(end, sid)
    requires Adds(s, steps[0], Apply(s, steps[0]), sid) && Explained(Apply(s, steps[0]), steps[1..], end, sid)
    ensures Explained(s, steps, end, sid)
  {
    assert steps == [steps[0]] + steps[1..];
  }

  lemma ExplainedByReturn(s: State, steps: seq<Step>, end: State, sid: Sid)
    requires steps != [] && Run(s, steps, end) && Inv(s) && !HasReturned(s, sid)
    requires Inv(Apply(s, steps[0])) && HasReturned(Apply(s, steps[0]), sid)
    ensures HasReturned(end, sid) && Explained(s, steps, end, sid)
  {
    var a, rest := steps[0], steps[1..];
    assert steps == [a] + rest;
    ReturningStep(s, a, sid);
    NothingAfterReturn(Apply(s, a), rest, end, sid);
  }

  lemma {:induction false} ReturnExplained(s: State, steps: seq<Step>, end: State, sid: Sid)
    requires Inv(s) && Run(s, steps, end) && HasReturned(end, sid) && !HasReturned(s, sid)
    ensures Explained(s, steps, end, sid)
    decreases |steps|
  {
    var s1 := Apply(s, steps[0]);
    assert Inv(s1) by { StepInv(s, steps[0]); }
    if HasReturned(s1, sid) {
      ExplainedByReturn(s, steps, end, sid);
    } else {
      ReturnExplained(s1, steps[1..], end, sid);
      StepAdds(s, steps[0], sid);
      ExplainedByRest(s, steps, end, sid);
    }
  }

  /** In every run: nil is returned if and only if the answer said that the datagram went out and
      the context was alive when it was read; and so for each of the errors. */
  lemma SubmitReturns(max: nat, steps: seq<Step>, s: State, sid: Sid)
    requires max > 0 && Run(Init(max), steps, s) && HasReturned(s, sid)
    ensures Explains(FirstReply(Init(max), steps, s, sid), ReadLate(steps, sid),
                     RejectStopped(sid) in steps, RejectCtx(sid) in steps, s.subs[sid].res)
  {
    InitInv(max);
    ReturnExplained(Init(max), steps, s, sid);
  }

  /** The last two steps of a submit whose answer is in its slot. */
  lemma AnswerIsReturned(s: State, sid: Sid, ctxDone: bool) returns (end: State)
    requires Inv(s) && Enabled(s, Receive(sid, ctxDone))
    ensures Run(s, [Receive(sid, ctxDone), Finish(sid)], end) && HasReturned(end, sid)
    ensures var ans := s.jobs[s.subs[sid].j].errCh.value;
            && (ans.Sent? && !ctxDone ==> end.subs[sid].res == OkSent)
            && (ans.Sent? && ctxDone ==> end.subs[sid].res == CtxAfterSend)
            && (ans.WriteFailed? ==> end.subs[sid].res == ErrWrite)
    ensures s.subs[sid].j in end.pool && s.subs[sid].j in end.jobs && end.jobs[s.subs[sid].j].errCh.None?
  {
    var s1 := Apply(s, Receive(sid, ctxDone));
    end := Apply(s1, Finish(sid));
    assert Run(s1, [Finish(sid)], end);
    assert [Receive(sid, ctxDone), Finish(sid)][1..] == [Finish(sid)];
  }

  /** A submit that is not accepted can always return, releasing its payload itself. */
  lemma NotAcceptedReturns(s: State, sid: Sid, a: Step)
    requires IsSelecting(s, sid) && (a == RejectCtx(sid) || (a == RejectStopped(sid) && s.stopped))
    ensures Enabled(s, a) && HasReturned(Apply(s, a), sid)
    ensures Apply(s, a).subs[sid].res == if a.RejectCtx? then ErrContext else ErrTransportClosed
    ensures Apply(s, a).released == s.released + multiset{sid} && Apply(s, a).ch == s.ch && s.subs[sid].j in Apply(s, a).pool
  {
  }

  // ---- What the socket took ----

  /** The socket takes the submission's datagram: as one of the first `wrote` of a batch, or in a
      write of its own that went out. */
  ghost predicate HandsOver(s: State, a: Step, sid: Sid) {
    || (a.WriteBatch? && exists i :: 0 <= i < a.wrote && i < |s.buf| && s.buf[i] in s.jobs && s.jobs[s.buf[i]].sub == sid)
    || (a == Reply(true) && RepliesTo(s, a, sid) && s.loop.next >= s.loop.start)
  }

  ghost predicate HandedIn(s: State, steps: seq<Step>, end: State, sid: Sid)
    requires Run(s, steps, end)
    decreases |steps|
  {
    steps != [] && (HandsOver(s, steps[0], sid) || HandedIn(Apply(s, steps[0]), steps[1..], end, sid))
  }

  lemma StepHands(s: State, a: Step, sid: Sid)
    requires Enabled(s, a)
    ensures sid in Apply(s, a).handed <==> sid in s.handed || HandsOver(s, a, sid)
  {
  }

  lemma {:induction false} RunHands(s: State, steps: seq<Step>, end: State, sid: Sid)
    requires Run(s, steps, end)
    ensures sid in end.handed <==> sid in s.handed || HandedIn(s, steps, end, sid)
    decreases |steps|
  {
    if steps != [] {
      StepHands(s, steps[0], sid);
      RunHands(Apply(s, steps[0]), steps[1..], end, sid);
    }
  }

  /** nil is returned only for a datagram that the socket took in this run. */
  lemma NilMeansHandedOver(max: nat, steps: seq<Step>, s: State, sid: Sid)
    requires max > 0 && Run(Init(max), steps, s) && HasReturned(s, sid) && s.subs[sid].res == OkSent
    ensures HandedIn(Init(max), steps, s, sid)
  {
    ReleasedAndAnsweredOnce(max, steps, s, sid);
    RunHands(Init(max), steps, s, sid);
  }

  // ---- Whether a new submit can succeed ----

  predicate WaitsUnfailed(s: State, sid: Sid) {
    && sid in s.subs && s.subs[sid].Waiting? && s.subs[sid].j in s.jobs
    && s.jobs[s.subs[sid].j].errCh != Some(WriteFailed)
  }

  lemma {:induction false} StaysUnfailed(s: State, steps: seq<Step>, end: State, sid: Sid)
    requires Inv(s) && Run(s, steps, end) && AllLoopOrTimer(steps) && Reply(false) !in steps && WaitsUnfailed(s, sid)
    ensures WaitsUnfailed(end, sid)
    decreases |steps|
  {
    if steps != [] {
      var a := steps[0];
      assert a in steps;
      if RepliesTo(s, a, sid) {
        ReplyFills(s, a, sid);
      } else {
        OthersSubs(s, a, sid);
        OthersSlot(s, a, sid);
      }
      assert Inv(Apply(s, a)) by { StepInv(s, a); }
      StaysUnfailed(Apply(s, a), steps[1..], end, sid);
    }
  }

  /** A submission of an idle batcher is accepted. */
  lemma IsAccepted(s: State, sid: Sid) returns (steps: seq<Step>, end: State)
    requires Inv(s) && s.loop.Head? && s.ch == [] && sid !in s.subs
    ensures Run(s, steps, end) && Inv(end) && end.loop.Head? && WaitsUnfailed(end, sid)
  {
    var j := FreshNat(s.jobs.Keys);
    var s1 := Apply(s, Acquire(sid, j));
    StepInv(s, Acquire(sid, j));
    end := Apply(s1, Enqueue(sid));
    StepInv(s1, Enqueue(sid));
    steps := RunCons(s1, Enqueue(sid), [], end);
    steps := RunCons(s, Acquire(sid, j), steps, end);
  }

  lemma AcceptedSucceeds(s: State, sid: Sid) returns (steps: seq<Step>, end: State)
    requires Inv(s) && !Leaving(s) && WaitsUnfailed(s, sid)
    ensures Run(s, steps, end) && HasReturned(end, sid) && end.subs[sid].res == OkSent
  {
    var xs, mid := LoopComesToRest(s);
    StaysUnfailed(s, xs, mid, sid);
    assert SubOk(mid, sid);
    end := AnswerIsReturned(mid, sid, false);
    RunAppend(s, xs, mid, [Receive(sid, false), Finish(sid)], end);
    steps := xs + [Receive(sid, false), Finish(sid)];
  }

  lemma NewSubmitSucceeds(s: State, sid: Sid) returns (steps: seq<Step>, end: State)
    requires Inv(s) && !Leaving(s) && sid !in s.subs
    ensures Run(s, steps, end) && HasReturned(end, sid) && end.subs[sid].res == OkSent
  {
    var xs, s1 := LoopComesToRest(s);
    var ys, s2 := IsAccepted(s1, sid);
    var zs;
    zs, end := AcceptedSucceeds(s2, sid);
    RunAppend(s1, ys, s2, zs, end);
    RunAppend(s, xs, s1, ys + zs, end);
    steps := xs + (ys + zs);
  }

  /** Where a submission that comes too late may stand. */
  predicate TooLate(s: State, sid: Sid) {
    sid in s.subs ==>
      match s.subs[sid]
      case Selecting(_) => true
      case Waiting(j) => j in s.ch
      case Answered(_, _, _) => false
      case Returned(res) => res.ErrTransportClosed? || res.ErrContext?
  }

  lemma StaysTooLate(s: State, a: Step, sid: Sid)
    requires Inv(s) && Enabled(s, a) && Leaving(s) && TooLate(s, sid)
    ensures Leaving(Apply(s, a)) && TooLate(Apply(s, a), sid)
  {
    if sid in s.subs && s.subs[sid].Waiting? {
      var j := s.subs[sid].j;
      StaysInChannel(s, a, j);
      assert j in Pending(s) && SubOk(s, sid);
    }
  }

  lemma {:induction false} TooLateForEver(s: State, steps: seq<Step>, end: State, sid: Sid)
    requires Inv(s) && Run(s, steps, end) && Leaving(s) && TooLate(s, sid)
    ensures TooLate(end, sid)
    decreases |steps|
  {
    if steps != [] {
      StaysTooLate(s, steps[0], sid);
      assert Inv(Apply(s, steps[0])) by { StepInv(s, steps[0]); }
      TooLateForEver(Apply(s, steps[0]), steps[1..], end, sid);
    }
  }

  ghost predicate CanSucceed(s: State, sid: Sid) {
    exists steps, end :: Run(s, steps, end) && HasReturned(end, sid) && end.subs[sid].res == OkSent
  }

  /** In every reachable state: a call of submit that is still to come can return nil if and only
      if the loop has not begun to leave. */
  lemma NewSubmitSucceedsExactly(max: nat, before: seq<Step>, s: State, sid: Sid)
    requires max > 0 && Run(Init(max), before, s) && sid !in s.subs
    ensures CanSucceed(s, sid) <==> !Leaving(s)
  {
    InitInv(max);
    RunInv(Init(max), before, s);
    if Leaving(s) {
      if CanSucceed(s, sid) {
        var steps, end :| Run(s, steps, end) && HasReturned(end, sid) && end.subs[sid].res == OkSent;
        TooLateForEver(s, steps, end, sid);
        assert false;
      }
    } else {
      var steps, end := NewSubmitSucceeds(s, sid);
    }
  }
}
