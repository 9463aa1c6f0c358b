/** What the result of a Request says about what happened: its sends, the table, and the datagrams
    on the wire. */
module Results {
  import opened Wrappers
  import opened Pendings
  import opened Managers
  import opened Protocol
  import opened Sources
  import opened Gateway
  import opened GatewayInvariant
  import opened EndToEnd
  import opened Completion

  // ---- The Logic node's answer ----

  /** The one datagram that answers q carries q's id: OVERLOAD when the queue was full, the echo of
      1001, 1002 and 1003, INVALID_MESSAGE otherwise. */
  lemma AnswerCarriesID(s: Sys, q: Packet, overload: bool) returns (x: Packet)
    requires EventEnabled(s, LogicReply(q, overload))
    ensures EventApply(s, LogicReply(q, overload)) == s.(net := s.net + {x}) && x.txid == q.txid
    ensures overload ==> x == ErrorReply(q.txid, 4)
    ensures !overload && q.messageId in {1001, 1002, 1003} ==> x == DataResponse(q.txid, q.messageId, q.payload)
    ensures !overload && q.messageId !in {1001, 1002, 1003} ==> x == ErrorReply(q.txid, 3)
  {
    x := if overload then ErrorReply(q.txid, ERROR_CODE_OVERLOAD) else HandleBusiness(q);
  }

  /** An ERROR on the wire answers a request on the wire; INVALID_MESSAGE one that no node serves. */
  ghost predicate ErrorOk(s: Sys, id: nat, code: nat) {
    exists messageId, payload :: DataRequest(id, messageId, payload) in s.net
      && (code == ERROR_CODE_OVERLOAD || (code == ERROR_CODE_INVALID_MESSAGE && messageId !in {1001, 1002, 1003}))
  }

  ghost predicate ErrorsOk(s: Sys) {
    forall id, code :: ErrorReply(id, code) in s.net ==> ErrorOk(s, id, code)
  }

  lemma ErrorStays(s: Sys, s1: Sys, id: nat, code: nat)
    requires s.net <= s1.net && ErrorOk(s, id, code)
    ensures ErrorOk(s1, id, code)
  {
    var messageId, payload :| DataRequest(id, messageId, payload) in s.net
      && (code == ERROR_CODE_OVERLOAD || (code == ERROR_CODE_INVALID_MESSAGE && messageId !in {1001, 1002, 1003}));
    assert DataRequest(id, messageId, payload) in s1.net;
  }

  /** Only a Send and a Logic node put anything on the wire. */
  lemma NetChanges(s: Sys, e: Event)
    requires EventEnabled(s, e)
    ensures s.net <= EventApply(s, e).net
    ensures !e.LogicReply? ==> forall q :: q in EventApply(s, e).net && q !in s.net ==> q.DataRequest?
  {
  }

  lemma EventErrors(s: Sys, e: Event)
    requires EventEnabled(s, e) && ErrorsOk(s)
    ensures ErrorsOk(EventApply(s, e))
  {
    var s1 := EventApply(s, e);
    NetChanges(s, e);
    forall id, code | ErrorReply(id, code) in s1.net
      ensures ErrorOk(s1, id, code)
    {
      if ErrorReply(id, code) in s.net {
        ErrorStays(s, s1, id, code);
      } else {
        var x := AnswerCarriesID(s, e.q, e.overload);
        assert DataRequest(id, e.q.messageId, e.q.payload) in s1.net;
      }
    }
  }

  // ---- Errors inside the manager ----

  /** An error that is delivered or about to be: Logic's is on the wire under that id, and
      ErrManagerClosed comes from a closed manager. */
  predicate Grounded(s: Sys, id: nat, err: Failure) {
    match err
    case LogicError(code) => ErrorReply(id, code) in s.net
    case ManagerClosed => s.m.tab.closed
    case _ => true
  }

  ghost predicate KnownGrounded(s: Sys) {
    forall id, err :: Known(s.m, id, Failed(err)) ==> Grounded(s, id, err)
  }

  function CancelStep(s: Sys, t: Tid): Step
    requires t in s.reqs
  {
    Step.Finish(t, s.reqs[t].ID(), Failed(Canceled), ThenRemove, None)
  }

  /** The protocol step behind an event, if it is one. */
  function StepOf(s: Sys, e: Event): Option<Step> {
    match e
    case RouteFail(t) => if t in s.reqs then Some(CancelStep(s, t)) else None
    case Send(t, ok, _) => if t in s.reqs && !ok then Some(CancelStep(s, t)) else None
    case Await(t) => if t in s.reqs then Some(WaitLookup(t, s.reqs[t].ID())) else None
    case Proceed(_, a) => Some(a)
    case Arrive(d, q, h) => if q.DataRequest? then None else Some(Step.Finish(d, q.txid, ReplyOf(q, h), Return, Some(h)))
    case Dispatch(d) => Some(TryDeliver(d))
    case CloseManager(c, ps) => Some(CloseSnapshot(c, ps))
    case CloseNext(c) => Some(CloseDeliver(c))
    case _ => None
  }

  lemma CancelIsStep(s: Sys, t: Tid)
    requires t in s.reqs && PcOf(s.m, t).Idle? && Free(s.m)
    ensures Enabled(s.m, CancelStep(s, t))
    ensures Apply(s.m, CancelStep(s, t)) == DoFinish(s.m, t, s.reqs[t].ID(), Failed(Canceled), ThenRemove, None)
  {
  }

  lemma AwaitIsStep(s: Sys, t: Tid)
    requires EventEnabled(s, Await(t)) && PcOf(s.m, t).Idle? && Free(s.m)
    ensures Enabled(s.m, WaitLookup(t, s.reqs[t].ID()))
    ensures DoAwait(s, t).m == Apply(s.m, WaitLookup(t, s.reqs[t].ID()))
  {
  }

  lemma LoopEventIsStep(s: Sys, e: Event)
    requires SysInv(s) && EventEnabled(s, e) && StepOf(s, e).Some? && LoopEvent(e)
    ensures Enabled(s.m, StepOf(s, e).value) && EventApply(s, e).m == Apply(s.m, StepOf(s, e).value)
  {
    InTheLoop(s, e.t);
    if e.Await? {
      AwaitIsStep(s, e.t);
    } else {
      CancelIsStep(s, e.t);
    }
  }

  lemma EventIsStep(s: Sys, e: Event)
    requires SysInv(s) && EventEnabled(s, e) && StepOf(s, e).Some?
    ensures Enabled(s.m, StepOf(s, e).value) && EventApply(s, e).m == Apply(s.m, StepOf(s, e).value)
  {
    if LoopEvent(e) {
      LoopEventIsStep(s, e);
    }
  }

  /** The other events leave the manager alone, but for Create. */
  lemma EventIsNoStep(s: Sys, e: Event)
    requires EventEnabled(s, e) && StepOf(s, e).None?
    ensures EventApply(s, e).m == if e.Issue? then DoCreate(s.m, 0, e.k, e.p) else s.m
  {
  }

  lemma CreateKnowsNothing(m: State, k: nat, p: Pid, id: nat, r: Outcome)
    requires Known(DoCreate(m, 0, k, p), id, r)
    ensures Known(m, id, r)
  {
    var m1 := DoCreate(m, 0, k, p);
    if t :| Offers(m1, t, id, r) {
      assert Offers(m, t, id, r);
    } else {
      var q :| WasDelivered(m1, q, id, r);
      assert WasDelivered(m, q, id, r);
    }
  }

  /** Whatever an event brings in is grounded. */
  lemma BroughtIsGrounded(s: Sys, e: Event, id: nat, err: Failure)
    requires SysInv(s) && EventEnabled(s, e) && StepOf(s, e).Some? && Enabled(s.m, StepOf(s, e).value)
    requires Brings(s.m, StepOf(s, e).value, id, Failed(err))
    ensures Grounded(s, id, err)
  {
  }

  lemma StepStaysClosed(m: State, a: Step)
    requires Enabled(m, a) && m.tab.closed
    ensures Apply(m, a).tab.closed
  {
  }

  lemma GroundedStays(s: Sys, e: Event, id: nat, err: Failure)
    requires SysInv(s) && EventEnabled(s, e) && Grounded(s, id, err)
    ensures Grounded(EventApply(s, e), id, err)
  {
    NetChanges(s, e);
    if s.m.tab.closed {
      if StepOf(s, e).Some? {
        EventIsStep(s, e);
        StepStaysClosed(s.m, StepOf(s, e).value);
      } else {
        EventIsNoStep(s, e);
      }
    }
  }

  lemma EventKnows(s: Sys, e: Event, id: nat, err: Failure)
    requires SysInv(s) && EventEnabled(s, e) && Known(EventApply(s, e).m, id, Failed(err))
    ensures Known(s.m, id, Failed(err)) || Grounded(s, id, err)
  {
    if StepOf(s, e).Some? {
      EventIsStep(s, e);
      KnownComesFrom(s.m, StepOf(s, e).value, id, Failed(err));
      if Brings(s.m, StepOf(s, e).value, id, Failed(err)) {
        BroughtIsGrounded(s, e, id, err);
      }
    } else {
      EventIsNoStep(s, e);
      if e.Issue? {
        CreateKnowsNothing(s.m, e.k, e.p, id, Failed(err));
      }
    }
  }

  lemma EventKnownGrounded(s: Sys, e: Event)
    requires SysInv(s) && EventEnabled(s, e) && KnownGrounded(s)
    ensures KnownGrounded(EventApply(s, e))
  {
    forall id, err | Known(EventApply(s, e).m, id, Failed(err))
      ensures Grounded(EventApply(s, e), id, err)
    {
      EventKnows(s, e, id, err);
      GroundedStays(s, e, id, err);
    }
  }

  // ---- An id stays registered until its own Cancel or Wait removes it ----

  predicate Awaited(q: Request) {
    q.stage.Routing? || q.stage.Sending? || q.stage.AboutToWait?
  }

  predicate StillRegistered(s: Sys, t: Tid) {
    t in s.reqs && Awaited(s.reqs[t]) && !s.m.tab.closed ==> s.reqs[t].ID() in s.m.tab.wait
  }

  predicate Removes(m: State, a: Step, id: nat) {
    (a.CancelRemove? && PcOf(m, a.t) == Removing(id)) || (a.WaitRemove? && PcOf(m, a.t).Received? && PcOf(m, a.t).id == id)
  }

  lemma TableKeeps(m: State, a: Step, id: nat)
    requires Enabled(m, a) && id in m.tab.wait && !Removes(m, a, id)
    ensures id in Apply(m, a).tab.wait || Apply(m, a).tab.closed
  {
  }

  /** Only the request that owns an id ever removes it, and not while it is awaited. */
  lemma OnlyOwnerRemoves(s: Sys, t: Tid, a: Step)
    requires SysInv(s) && t in s.reqs && Awaited(s.reqs[t]) && Enabled(s.m, a)
    ensures !Removes(s.m, a, s.reqs[t].ID())
  {
    assert RequestOk(s, t);
    CurrentIDOwned(s, t);
    if a.t in s.reqs {
      assert RequestOk(s, a.t);
      if s.reqs[a.t].ids != [] {
        CurrentIDOwned(s, a.t);
      }
    } else if a.t in s.m.pcs {
      assert WorkerOk(s, s.m.pcs[a.t]);
    }
  }

  lemma OthersUntouched(s: Sys, e: Event, t: Tid)
    requires t in s.reqs && EventEnabled(s, e) && !OfRequest(e, t)
    ensures Untouched(s, EventApply(s, e), t)
  {
    if LoopEvent(e) {
      OtherLoopLeaves(s, t, e);
    } else if e.Proceed? {
      OtherProceedLeaves(s, t, e);
    } else {
      WorkerLeaves(s, t, e);
    }
  }

  lemma OwnEventRegistered(s: Sys, e: Event, t: Tid)
    requires EventEnabled(s, e) && OfRequest(e, t) && StillRegistered(s, t)
    ensures StillRegistered(EventApply(s, e), t)
  {
  }

  lemma OtherEventKeepsID(s: Sys, e: Event, t: Tid)
    requires SysInv(s) && EventEnabled(s, e) && StillRegistered(s, t) && t in s.reqs && Awaited(s.reqs[t])
    requires !EventApply(s, e).m.tab.closed
    ensures s.reqs[t].ID() in EventApply(s, e).m.tab.wait
  {
    if StepOf(s, e).Some? {
      EventIsStep(s, e);
      if s.m.tab.closed {
        StepStaysClosed(s.m, StepOf(s, e).value);
      }
      OnlyOwnerRemoves(s, t, StepOf(s, e).value);
      TableKeeps(s.m, StepOf(s, e).value, s.reqs[t].ID());
    } else {
      EventIsNoStep(s, e);
    }
  }

  lemma EventRegistered(s: Sys, e: Event, t: Tid)
    requires SysInv(s) && EventEnabled(s, e) && StillRegistered(s, t)
    ensures StillRegistered(EventApply(s, e), t)
  {
    if OfRequest(e, t) {
      OwnEventRegistered(s, e, t);
    } else if t in s.reqs {
      OthersUntouched(s, e, t);
      if Awaited(s.reqs[t]) && !EventApply(s, e).m.tab.closed {
        OtherEventKeepsID(s, e, t);
      }
    } else {
      BeforeStart(s, e, t);
    }
  }

  // ---- Results ----

  predicate AllFailed(q: Request) {
    forall i :: 0 <= i < |q.sends| ==> !q.sends[i].ok
  }

  /** Every Send but the last failed, and the last one, under the current id, went through. */
  predicate LastSent(q: Request) {
    && q.sends != [] && |q.ids| == |q.sends| && q.sends[|q.sends| - 1].ok
    && forall i :: 0 <= i < |q.sends| - 1 ==> !q.sends[i].ok
  }

  /** What lies behind a result. */
  predicate Behind(s: Sys, q: Request, res: RequestResult) {
    match res
    case Success(_) => LastSent(q)
    case Failure(why) =>
      match why
      case ContextDone => q.ids == [] && q.sends == []
      case SendFailed => AllFailed(q) && q.sends != [] && |q.ids| == |q.sends|
      case RouteFailed => AllFailed(q) && |q.ids| == |q.sends| + 1
      case TableFailed(te) => te == ErrManagerClosed && s.m.tab.closed && (LastSent(q) || (AllFailed(q) && |q.ids| == |q.sends|))
      case WaitFailed(err) => LastSent(q) && Grounded(s, q.ID(), err)
      case WaitInProgress => false
  }

  predicate StoryOk(s: Sys, q: Request) {
    match q.stage
    case Begin => AllFailed(q)
    case Routing => AllFailed(q)
    case Sending(_) => AllFailed(q)
    case AboutToWait => LastSent(q)
    case Waiting => LastSent(q)
    case Cancelling(next) =>
      AllFailed(q) && (next.Stop? ==>
        || (next.why == RouteFailed && |q.ids| == |q.sends| + 1)
        || (next.why == SendFailed && |q.ids| == |q.sends| == MAX_ROUTE_ATTEMPTS))
    case Finished(res) => Behind(s, q, res)
  }

  lemma StoryStays(s: Sys, s1: Sys, q: Request)
    requires s.net <= s1.net && (s.m.tab.closed ==> s1.m.tab.closed) && StoryOk(s, q)
    ensures StoryOk(s1, q)
  {
  }

  lemma LoopHeadStory(s: Sys, e: Event, t: Tid)
    requires EventEnabled(s, e) && OfRequest(e, t)
    requires e.Start? || e.Abort? || e.Issue? || e.IssueClosed? || e.RouteFail? || e.Routed?
    requires t in s.reqs ==> StoryOk(s, s.reqs[t]) && SendsOk(s.reqs[t])
    ensures t in EventApply(s, e).reqs && StoryOk(EventApply(s, e), EventApply(s, e).reqs[t])
  {
  }

  lemma SendStory(s: Sys, t: Tid, ok: bool, wrote: bool)
    requires EventEnabled(s, Send(t, ok, wrote)) && StoryOk(s, s.reqs[t]) && SendsOk(s.reqs[t])
    ensures var s1 := DoSend(s, t, ok, wrote); t in s1.reqs && StoryOk(s1, s1.reqs[t])
  {
  }

  lemma ResumeStory(s: Sys, t: Tid)
    requires EventEnabled(s, Resume(t)) && StoryOk(s, s.reqs[t]) && SendsOk(s.reqs[t])
    ensures var s1 := DoResume(s, t); t in s1.reqs && StoryOk(s1, s1.reqs[t])
  {
  }

  lemma AwaitStory(s: Sys, t: Tid)
    requires EventEnabled(s, Await(t)) && StoryOk(s, s.reqs[t]) && StillRegistered(s, t)
    ensures var s1 := DoAwait(s, t); t in s1.reqs && StoryOk(s1, s1.reqs[t])
  {
  }

  lemma ReleasedIsKnown(m: State, t: Tid)
    requires Inv(m) && PcOf(m, t).Resetting?
    ensures Known(m, PcOf(m, t).id, PcOf(m, t).r)
  {
    assert ThreadOk(m, m.pcs[t]) && ObjOk(m, m.pcs[t].p);
    assert WasDelivered(m, m.pcs[t].p, m.pcs[t].id, m.pcs[t].r);
  }

  /** Request returns what Wait received. */
  lemma ReturnsWhatWaitReceived(s: Sys, t: Tid)
    requires EventEnabled(s, Proceed(t, WaitReset(t)))
    ensures var s1 := EventApply(s, Proceed(t, WaitReset(t)));
            && t in s1.reqs && s1.reqs[t].stage.Finished?
            && forall env, err ::
                 && (s1.reqs[t].stage.res == Success(env) <==> PcOf(s.m, t).r == Reply(env))
                 && (s1.reqs[t].stage.res == Failure(WaitFailed(err)) <==> PcOf(s.m, t).r == Failed(err))
  {
  }

  lemma ClaimStory(s: Sys, t: Tid)
    requires EventEnabled(s, Proceed(t, WaitClaim(t))) && RequestOk(s, t) && StoryOk(s, s.reqs[t])
    ensures var s1 := DoProceed(s, t, WaitClaim(t)); t in s1.reqs && StoryOk(s1, s1.reqs[t])
  {
  }

  lemma ReleaseStory(s: Sys, t: Tid)
    requires EventEnabled(s, Proceed(t, WaitReset(t))) && RequestOk(s, t) && StoryOk(s, s.reqs[t]) && KnownGrounded(s)
    requires Known(s.m, PcOf(s.m, t).id, PcOf(s.m, t).r)
    ensures var s1 := DoProceed(s, t, WaitReset(t)); t in s1.reqs && StoryOk(s1, s1.reqs[t])
  {
  }

  lemma InsideStory(s: Sys, t: Tid, a: Step)
    requires EventEnabled(s, Proceed(t, a)) && StoryOk(s, s.reqs[t]) && !a.WaitReset? && !a.WaitClaim?
    ensures var s1 := DoProceed(s, t, a); t in s1.reqs && StoryOk(s1, s1.reqs[t])
  {
    assert DoProceed(s, t, a).reqs == s.reqs;
  }

  lemma ProceedStory(s: Sys, t: Tid, a: Step)
    requires SysInv(s) && EventEnabled(s, Proceed(t, a)) && StoryOk(s, s.reqs[t]) && KnownGrounded(s)
    ensures t in DoProceed(s, t, a).reqs && StoryOk(DoProceed(s, t, a), DoProceed(s, t, a).reqs[t])
  {
    assert RequestOk(s, t);
    if a.WaitReset? {
      ReleasedIsKnown(s.m, t);
      ReleaseStory(s, t);
    } else if a.WaitClaim? {
      ClaimStory(s, t);
    } else {
      InsideStory(s, t, a);
    }
  }

  ghost predicate ResultsOk(s: Sys) {
    && ErrorsOk(s) && KnownGrounded(s)
    && forall t :: t in s.reqs ==> StillRegistered(s, t) && StoryOk(s, s.reqs[t])
  }

  lemma ClosedStays(s: Sys, e: Event)
    requires SysInv(s) && EventEnabled(s, e)
    ensures s.m.tab.closed ==> EventApply(s, e).m.tab.closed
  {
    if s.m.tab.closed {
      OwedNeverGrows(s, e);
    }
  }

  lemma OtherStory(s: Sys, e: Event, t: Tid)
    requires SysInv(s) && ResultsOk(s) && EventEnabled(s, e) && t in EventApply(s, e).reqs && !OfRequest(e, t)
    ensures StoryOk(EventApply(s, e), EventApply(s, e).reqs[t])
  {
    if t !in s.reqs {
      BeforeStart(s, e, t);
    }
    OthersUntouched(s, e, t);
    NetChanges(s, e);
    ClosedStays(s, e);
    StoryStays(s, EventApply(s, e), s.reqs[t]);
  }

  lemma OwnLoopStory(s: Sys, e: Event, t: Tid)
    requires EventEnabled(s, e) && OfRequest(e, t) && !e.Proceed?
    requires t in s.reqs ==> StoryOk(s, s.reqs[t]) && SendsOk(s.reqs[t]) && StillRegistered(s, t)
    ensures t in EventApply(s, e).reqs && StoryOk(EventApply(s, e), EventApply(s, e).reqs[t])
  {
    if e.Send? {
      SendStory(s, t, e.ok, e.wrote);
    } else if e.Resume? {
      ResumeStory(s, t);
    } else if e.Await? {
      AwaitStory(s, t);
    } else {
      LoopHeadStory(s, e, t);
    }
  }

  lemma EventStory(s: Sys, e: Event, t: Tid)
    requires SysInv(s) && ResultsOk(s) && EventEnabled(s, e) && t in EventApply(s, e).reqs
    ensures StoryOk(EventApply(s, e), EventApply(s, e).reqs[t])
  {
    if !OfRequest(e, t) {
      OtherStory(s, e, t);
    } else if e.Proceed? {
      ProceedStory(s, t, e.a);
    } else {
      assert t in s.reqs ==> RequestOk(s, t);
      OwnLoopStory(s, e, t);
    }
  }

  lemma EventResultsOk(s: Sys, e: Event)
    requires SysInv(s) && ResultsOk(s) && EventEnabled(s, e)
    ensures ResultsOk(EventApply(s, e))
  {
    EventErrors(s, e);
    EventKnownGrounded(s, e);
    forall t | t in EventApply(s, e).reqs
      ensures StillRegistered(EventApply(s, e), t) && StoryOk(EventApply(s, e), EventApply(s, e).reqs[t])
    {
      EventRegistered(s, e, t);
      EventStory(s, e, t);
    }
  }

  lemma {:induction false} RunResultsOk(s: Sys, events: seq<Event>, end: Sys)
    requires SysInv(s) && ResultsOk(s) && SysRun(s, events, end)
    ensures SysInv(end) && ResultsOk(end)
    decreases |events|
  {
    if events != [] {
      EventInv(s, events[0]);
      EventResultsOk(s, events[0]);
      RunResultsOk(EventApply(s, events[0]), events[1..], end);
    }
  }

  lemma ReachableResultsOk(events: seq<Event>, s: Sys)
    requires SysRun(SYS_INIT, events, s)
    ensures SysInv(s) && ResultsOk(s)
  {
    ReachableSysInv([], SYS_INIT);
    RunResultsOk(SYS_INIT, events, s);
  }

  // ---- Over every run ----

  /** Every ERROR on the wire answers a request on the wire that has the same id; INVALID_MESSAGE one
      for a message that no node serves. */
  lemma ErrorAnswersRequest(events: seq<Event>, s: Sys, id: nat, code: nat)
    requires SysRun(SYS_INIT, events, s) && ErrorReply(id, code) in s.net
    ensures ErrorOk(s, id, code)
  {
    ReachableResultsOk(events, s);
  }

  /** Every result of a Request, and what it says: whether and how often it sent, under which id, and
      for an error of a Logic node that this very id was answered with it. */
  lemma ResultIsExplained(events: seq<Event>, s: Sys, t: Tid)
    requires SysRun(SYS_INIT, events, s) && t in s.reqs && s.reqs[t].stage.Finished?
    ensures Behind(s, s.reqs[t], s.reqs[t].stage.res)
  {
    ReachableResultsOk(events, s);
  }

  lemma ErrorIsForRequest(s: Sys, t: Tid, code: nat)
    requires NetOk(s) && RequestsOk(s) && ErrorsOk(s) && t in s.reqs && s.reqs[t].ids != []
    requires ErrorReply(s.reqs[t].ID(), code) in s.net
    ensures code == ERROR_CODE_OVERLOAD || (code == ERROR_CODE_INVALID_MESSAGE && s.reqs[t].messageId !in {1001, 1002, 1003})
  {
    var id := s.reqs[t].ID();
    assert ErrorOk(s, id, code);
    var messageId, payload :| DataRequest(id, messageId, payload) in s.net
      && (code == ERROR_CODE_OVERLOAD || (code == ERROR_CODE_INVALID_MESSAGE && messageId !in {1001, 1002, 1003}));
    assert PacketOk(s, DataRequest(id, messageId, payload));
    assert RequestOk(s, t);
    CurrentIDOwned(s, t);
  }

  /** A Logic node's error that a Request returns was sent for its own current id, in answer to a
      request with that id. */
  lemma LogicErrorIsOwn(events: seq<Event>, s: Sys, t: Tid, code: nat)
    requires SysRun(SYS_INIT, events, s) && t in s.reqs
    requires s.reqs[t].stage == Finished(Failure(WaitFailed(LogicError(code))))
    ensures ErrorReply(s.reqs[t].ID(), code) in s.net
    ensures code == ERROR_CODE_OVERLOAD || (code == ERROR_CODE_INVALID_MESSAGE && s.reqs[t].messageId !in {1001, 1002, 1003})
  {
    ReachableResultsOk(events, s);
    assert Behind(s, s.reqs[t], s.reqs[t].stage.res);
    ErrorIsForRequest(s, t, code);
  }

  lemma EndsByResume(s: Sys, e: Event, t: Tid)
    requires EventEnabled(s, e) && OfRequest(e, t) && e != Abort(t) && t in s.reqs && !s.reqs[t].stage.Finished?
    requires t in EventApply(s, e).reqs && EventApply(s, e).reqs[t].stage == Finished(Failure(SendFailed))
    ensures e == Resume(t)
  {
  }

  lemma ResumesToTheEnd(s: Sys, t: Tid)
    requires EventEnabled(s, Resume(t)) && StoryOk(s, s.reqs[t]) && DoResume(s, t).reqs[t].stage == Finished(Failure(SendFailed))
    ensures |DoResume(s, t).reqs[t].sends| == MAX_ROUTE_ATTEMPTS && AllFailed(DoResume(s, t).reqs[t])
  {
  }

  /** Unless its context ends between two attempts, a Request gives up on sending only after two
      failed Sends. */
  lemma GivesUpOnlyAfterAllAttempts(events: seq<Event>, s: Sys, e: Event, t: Tid)
    requires SysRun(SYS_INIT, events, s) && EventEnabled(s, e) && e != Abort(t)
    requires t in s.reqs && !s.reqs[t].stage.Finished?
    requires t in EventApply(s, e).reqs && EventApply(s, e).reqs[t].stage == Finished(Failure(SendFailed))
    ensures |EventApply(s, e).reqs[t].sends| == MAX_ROUTE_ATTEMPTS == 2
    ensures forall i :: 0 <= i < 2 ==> !EventApply(s, e).reqs[t].sends[i].ok
  {
    ReachableResultsOk(events, s);
    if !OfRequest(e, t) {
      OthersUntouched(s, e, t);
    }
    EndsByResume(s, e, t);
    ResumesToTheEnd(s, t);
  }
}
