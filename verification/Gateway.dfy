/** internal/transaction/service.go composed with the waiter protocol, a network that
    loses, repeats and reorders datagrams but never forges one, and the Logic nodes of
    internal/logicnode/run.go. Requests, dispatcher workers and Close interleave freely. */
module Gateway {
  import opened Wrappers
  import opened Pendings
  import opened Managers
  import opened Protocol

  type NodeID = nat

  const MAX_ROUTE_ATTEMPTS := 2
  const MESSAGE_CREATE_CALL := 1001
  const MESSAGE_UPDATE_CALL := 1002
  const MESSAGE_DELETE_CALL := 1003
  const ERROR_CODE_INVALID_MESSAGE := 3
  const ERROR_CODE_OVERLOAD := 4

  datatype Packet =
    | DataRequest(txid: nat, messageId: nat, payload: seq<nat>)
    | DataResponse(txid: nat, messageId: nat, payload: seq<nat>)
    | ErrorReply(txid: nat, code: nat)

  predicate Supported(messageId: nat) {
    messageId == MESSAGE_CREATE_CALL || messageId == MESSAGE_UPDATE_CALL || messageId == MESSAGE_DELETE_CALL
  }

  /** handleBusiness on a decoded DATA_REQUEST. */
  function HandleBusiness(q: Packet): Packet
    requires q.DataRequest?
  {
    if Supported(q.messageId) then DataResponse(q.txid, q.messageId, q.payload)
    else ErrorReply(q.txid, ERROR_CODE_INVALID_MESSAGE)
  }

  datatype RequestError = ContextDone | RouteFailed | SendFailed | WaitFailed(err: Failure) | TableFailed(te: TableError) | WaitInProgress

  datatype RequestResult = Success(env: Envelope) | Failure(why: RequestError)

  datatype AfterCancel = Retry | Stop(why: RequestError)

  datatype Stage =
    | Begin                        // head of the attempt loop
    | Routing                      // id created
    | Sending(node: NodeID)
    | AboutToWait
    | Waiting                      // inside Manager.Wait
    | Cancelling(next: AfterCancel) // inside Manager.Cancel
    | Finished(res: RequestResult)

  datatype Sent = Sent(node: NodeID, id: nat, ok: bool)

  /** One call of Request. `ids` lists the ids it created, the current one last. */
  datatype Request = Request(
    messageId: nat, payload: seq<nat>,
    attempt: nat, ids: seq<nat>, sends: seq<Sent>, exclude: seq<NodeID>, stage: Stage)
  {
    function ID(): nat {
      if ids == [] then 0 else ids[|ids| - 1]
    }
  }

  datatype Sys = Sys(m: State, reqs: map<Tid, Request>, net: set<Packet>, owner: map<nat, Tid>)

  const SYS_INIT := Sys(Protocol.INIT, map[], {}, map[])

  datatype Event =
    | Start(t: Tid, messageId: nat, payload: seq<nat>)
    | Abort(t: Tid)
    | Issue(t: Tid, k: nat, p: Pid)
    | IssueClosed(t: Tid)
    | RouteFail(t: Tid)
    | Routed(t: Tid, node: NodeID)
    | Send(t: Tid, ok: bool, wrote: bool)
    | Resume(t: Tid)
    | Await(t: Tid)
    | Proceed(t: Tid, a: Step)
    | LogicReply(q: Packet, overload: bool)
    | Arrive(d: Tid, q: Packet, h: nat)
    | Dispatch(d: Tid)
    | CloseManager(c: Tid, ps: seq<Pid>)
    | CloseNext(c: Tid)

  ghost predicate Unique(ids: seq<NodeID>) {
    forall i, k :: 0 <= i < k < |ids| ==> ids[i] != ids[k]
  }

  /** appendUnique. */
  function AppendUnique(ids: seq<NodeID>, id: NodeID): (r: seq<NodeID>)
    ensures forall x :: x in r <==> x in ids || x == id
    ensures ids <= r && |r| <= |ids| + 1
    ensures Unique(ids) ==> Unique(r)
  {
    if id in ids then ids else ids + [id]
  }

  /** OnResponse: what a dispatcher worker hands to Complete or Fail. */
  function ReplyOf(q: Packet, h: nat): Outcome
    requires !q.DataRequest?
  {
    match q
    case DataResponse(txid, messageId, payload) => Reply(Envelope(h, txid, messageId, payload))
    case ErrorReply(_, code) => Failed(LogicError(code))
  }

  predicate InStage(s: Sys, t: Tid, stage: Stage) {
    t in s.reqs && s.reqs[t].stage == stage
  }

  /** Manager steps that a Request thread takes inside Cancel and Wait. */
  predicate OwnStep(t: Tid, a: Step) {
    && a.t == t
    && (a.TryDeliver? || a.CancelRemove? || a.WaitClaim? || a.WaitReceive? || a.WaitCancel?
        || a.WaitRemove? || a.WaitDrain? || a.WaitReset?)
  }

  ghost predicate EventEnabled(s: Sys, e: Event) {
    match e
    case Start(t, _, _) => t !in s.reqs && t !in s.m.pcs
    case Abort(t) => InStage(s, t, Begin)
    case Issue(t, k, p) =>
      // ids below the wrap-around, and no object recycled under a holder
      InStage(s, t, Begin) && CanCreate(s.m, t, 0, k, p) && s.m.tab.nextID + k < WORD && NoHolder(s.m, p)
    case IssueClosed(t) => InStage(s, t, Begin) && s.m.tab.closed
    case RouteFail(t) => InStage(s, t, Routing)
    case Routed(t, node) => InStage(s, t, Routing) && node !in s.reqs[t].exclude
    case Send(t, ok, wrote) => t in s.reqs && s.reqs[t].stage.Sending? && (ok ==> wrote)
    case Resume(t) => t in s.reqs && s.reqs[t].stage.Cancelling? && PcOf(s.m, t).Idle?
    case Await(t) => InStage(s, t, AboutToWait)
    case Proceed(t, a) =>
      && t in s.reqs && (s.reqs[t].stage.Cancelling? || s.reqs[t].stage.Waiting?)
      && OwnStep(t, a) && Enabled(s.m, a)
    case LogicReply(q, _) => q in s.net && q.DataRequest?
    case Arrive(d, q, h) =>
      && d !in s.reqs && q in s.net && !q.DataRequest? && q.txid != 0
      && CanFinish(s.m, d, ReplyOf(q, h), Return, Some(h))
    case Dispatch(d) => d !in s.reqs && CanTryDeliver(s.m, d)
    case CloseManager(c, ps) => c !in s.reqs && CanSnapshot(s.m, c, ps)
    case CloseNext(c) => c !in s.reqs && CanCloseDeliver(s.m, c)
  }

  function SetReq(s: Sys, t: Tid, q: Request): Sys {
    s.(reqs := s.reqs[t := q])
  }

  /** Cancel(id) begins; the thread's next manager steps deliver and remove. */
  function BeginCancel(s: Sys, t: Tid, q: Request, next: AfterCancel): Sys {
    SetReq(s, t, q.(stage := Cancelling(next))).(
      m := DoFinish(s.m, t, q.ID(), Failed(Canceled), ThenRemove, None))
  }

  function ResultOf(r: Outcome): RequestResult {
    match r
    case Reply(env) => Success(env)
    case Failed(err) => Failure(WaitFailed(err))
  }

  function ToStage(s: Sys, t: Tid, stage: Stage): Sys
    requires t in s.reqs
  {
    SetReq(s, t, s.reqs[t].(stage := stage))
  }

  function DoAbort(s: Sys, t: Tid): Sys
    requires t in s.reqs
  {
    ToStage(s, t, Finished(Failure(if s.reqs[t].sends != [] then SendFailed else ContextDone)))
  }

  /** Create(0), all at once: by `Acquisition.RunIsSerial` what other threads do while it holds
      the manager's mutex can come after it. */
  function DoIssue(s: Sys, t: Tid, k: nat, p: Pid): Sys
    requires t in s.reqs
  {
    var id := Advance(s.m.tab.nextID, k);
    SetReq(s, t, s.reqs[t].(ids := s.reqs[t].ids + [id], stage := Routing)).(
      m := DoCreate(s.m, 0, k, p), owner := s.owner[id := t])
  }

  /** Send fails, or succeeds; a failing Send may still have written the datagram. */
  function DoSend(s: Sys, t: Tid, ok: bool, wrote: bool): Sys
    requires t in s.reqs && s.reqs[t].stage.Sending?
  {
    var q := s.reqs[t];
    var node := q.stage.node;
    var q1 := q.(sends := q.sends + [Sent(node, q.ID(), ok)]);
    var s1 := s.(net := if wrote then s.net + {DataRequest(q.ID(), q.messageId, q.payload)} else s.net);
    if ok then SetReq(s1, t, q1.(stage := AboutToWait))
    else BeginCancel(s1, t, q1.(exclude := AppendUnique(q.exclude, node)),
                     if q.attempt + 1 < MAX_ROUTE_ATTEMPTS then Retry else Stop(SendFailed))
  }

  /** After Cancel: `continue` with the next attempt, or return the error. */
  function DoResume(s: Sys, t: Tid): Sys
    requires t in s.reqs && s.reqs[t].stage.Cancelling?
  {
    match s.reqs[t].stage.next
    case Retry => SetReq(s, t, s.reqs[t].(attempt := s.reqs[t].attempt + 1, stage := Begin))
    case Stop(why) => ToStage(s, t, Finished(Failure(why)))
  }

  function DoAwait(s: Sys, t: Tid): Sys
    requires t in s.reqs
  {
    match Find(s.m.tab, s.reqs[t].ID())
    case Ok(_) => ToStage(s, t, Waiting).(m := DoWaitLookup(s.m, t, s.reqs[t].ID()))
    case Err(te) => ToStage(s, t, Finished(Failure(TableFailed(te))))
  }

  ghost function DoProceed(s: Sys, t: Tid, a: Step): Sys
    requires t in s.reqs && Enabled(s.m, a) && OwnStep(t, a)
  {
    var s1 := s.(m := Protocol.Apply(s.m, a));
    var pc := PcOf(s.m, t);
    if a.WaitReset? then ToStage(s1, t, Finished(ResultOf(pc.r)))
    else if a.WaitClaim? && s.m.objs[pc.p].waiting then ToStage(s1, t, Finished(Failure(WaitInProgress)))
    else s1
  }

  function DoLogicReply(s: Sys, q: Packet, overload: bool): Sys
    requires q.DataRequest?
  {
    s.(net := s.net + {if overload then ErrorReply(q.txid, ERROR_CODE_OVERLOAD) else HandleBusiness(q)})
  }

  ghost function EventApply(s: Sys, e: Event): Sys
    requires EventEnabled(s, e)
  {
    match e
    case Start(t, messageId, payload) => SetReq(s, t, Request(messageId, payload, 0, [], [], [], Begin))
    case Abort(t) => DoAbort(s, t)
    case Issue(t, k, p) => DoIssue(s, t, k, p)
    case IssueClosed(t) => ToStage(s, t, Finished(Failure(TableFailed(ErrManagerClosed))))
    case RouteFail(t) => BeginCancel(s, t, s.reqs[t], Stop(RouteFailed))
    case Routed(t, node) => ToStage(s, t, Sending(node))
    case Send(t, ok, wrote) => DoSend(s, t, ok, wrote)
    case Resume(t) => DoResume(s, t)
    case Await(t) => DoAwait(s, t)
    case Proceed(t, a) => DoProceed(s, t, a)
    case LogicReply(q, overload) => DoLogicReply(s, q, overload)
    case Arrive(d, q, h) => s.(m := DoFinish(s.m, d, q.txid, ReplyOf(q, h), Return, Some(h)))
    case Dispatch(d) => s.(m := DoTryDeliver(s.m, d))
    case CloseManager(c, ps) => s.(m := DoSnapshot(s.m, c, ps))
    case CloseNext(c) => s.(m := DoCloseDeliver(s.m, c))
  }

  // ---- Invariant ----

  /** Every request and response on the wire is what the owner of its id asked for. */
  predicate PacketOk(s: Sys, q: Packet) {
    match q
    case DataRequest(id, messageId, payload) =>
      && id in s.owner && s.owner[id] in s.reqs
      && s.reqs[s.owner[id]].messageId == messageId && s.reqs[s.owner[id]].payload == payload
    case DataResponse(id, messageId, payload) =>
      && id in s.owner && s.owner[id] in s.reqs && Supported(messageId)
      && s.reqs[s.owner[id]].messageId == messageId && s.reqs[s.owner[id]].payload == payload
    case ErrorReply(_, _) => true
  }

  /** A reply in the hands of the gateway is a response datagram for the id it is used for. */
  predicate FromWire(s: Sys, id: nat, r: Outcome) {
    r.Reply? ==> r.env.txid == id && DataResponse(id, r.env.messageId, r.env.payload) in s.net
  }

  /** Where a Request thread may stand in the waiter protocol, by stage. */
  predicate PlaceOk(q: Request, pc: Pc) {
    match q.stage
    case Cancelling(_) =>
      (match pc
       case Idle => true
       case Removing(id) => id == q.ID()
       case Delivering(_, id, r, after, _) => id == q.ID() && r.Failed? && after.ThenRemove?
       case _ => false)
    case Waiting =>
      (match pc
       case Claiming(_, id) => id == q.ID()
       case Selecting(_, id) => id == q.ID()
       case Receiving(_, id) => id == q.ID()
       case Delivering(_, id, r, after, _) => id == q.ID() && r.Failed? && after.ThenReceive?
       case Received(_, id, _) => id == q.ID()
       case Draining(_, id, _) => id == q.ID()
       case Resetting(_, id, _) => id == q.ID()
       case _ => false)
    case _ => pc.Idle?
  }

  /** The current id may still be in the table. */
  predicate MayBeRegistered(q: Request, pc: Pc) {
    match q.stage
    case Routing => true
    case Sending(_) => true
    case AboutToWait => true
    case Cancelling(_) => !pc.Idle?
    case Waiting => !pc.Draining? && !pc.Resetting?
    case _ => false
  }

  predicate BeforeClaim(q: Request, pc: Pc) {
    q.stage.Routing? || q.stage.Sending? || q.stage.AboutToWait? || pc.Claiming?
  }

  predicate SendsOk(q: Request) {
    && |q.sends| <= |q.ids| <= q.attempt + 1 <= MAX_ROUTE_ATTEMPTS
    && (q.stage.Begin? ==> |q.ids| == |q.sends| == q.attempt)
    && (q.stage.Cancelling? && q.stage.next.Retry? ==> |q.ids| == |q.sends| == q.attempt + 1 && q.attempt + 1 < MAX_ROUTE_ATTEMPTS)
    && (q.stage.Routing? || q.stage.Sending? ==> |q.ids| == q.attempt + 1 && |q.sends| == q.attempt)
    && (q.stage.AboutToWait? || q.stage.Waiting? ==> |q.ids| == |q.sends| == q.attempt + 1)
    && (forall i :: 0 <= i < |q.sends| ==> q.sends[i].id == q.ids[i])
    && (forall i :: 0 <= i < q.attempt && i < |q.sends| ==> !q.sends[i].ok && q.sends[i].node in q.exclude)
    && (q.stage.Cancelling? && q.stage.next.Retry? ==>
          forall i :: 0 <= i < |q.sends| ==> !q.sends[i].ok && q.sends[i].node in q.exclude)
    && (|q.sends| == 2 ==> q.sends[0].node != q.sends[1].node)
    && (q.stage.Sending? ==> q.stage.node !in q.exclude)
  }

  ghost predicate RequestOk(s: Sys, t: Tid)
    requires t in s.reqs
  {
    var q := s.reqs[t];
    && SendsOk(q)
    && PlaceOk(q, PcOf(s.m, t))
    && (q.stage.Routing? || q.stage.Sending? || q.stage.AboutToWait? || q.stage.Waiting? || q.stage.Cancelling? ==> q.ids != [])
    && (forall id :: id in q.ids ==> id in s.owner && s.owner[id] == t)
    && (|q.ids| == 2 ==> q.ids[0] != q.ids[1])
    && (forall id :: id in q.ids && id in s.m.tab.wait ==> id == q.ID() && MayBeRegistered(q, PcOf(s.m, t)))
    && (BeforeClaim(q, PcOf(s.m, t)) && q.ID() in s.m.tab.wait ==>
          s.m.tab.wait[q.ID()] in s.m.objs && !s.m.objs[s.m.tab.wait[q.ID()]].waiting)
    && (PcOf(s.m, t).Claiming? ==> PcOf(s.m, t).p in s.m.objs && !s.m.objs[PcOf(s.m, t).p].waiting)
    && (q.stage.Finished? && q.stage.res.Success? ==>
          && q.stage.res.env.txid == q.ID() && q.ids != []
          && DataResponse(q.ID(), q.stage.res.env.messageId, q.stage.res.env.payload) in s.net)
  }

  /** Dispatcher workers and Close only. */
  predicate WorkerOk(s: Sys, pc: Pc) {
    match pc
    case Idle => true
    case Closing => true
    case Delivering(_, id, r, after, _) => after.Return? && id in s.owner && FromWire(s, id, r)
    case _ => false
  }

  ghost predicate NetOk(s: Sys) {
    forall q :: q in s.net ==> PacketOk(s, q)
  }

  ghost predicate OwnersOk(s: Sys) {
    && (forall id :: id in s.owner ==> 1 <= id <= s.m.tab.nextID && s.owner[id] in s.reqs && id in s.reqs[s.owner[id]].ids)
    && (forall id :: id in s.m.tab.wait ==> id in s.owner)
  }

  ghost predicate RequestsOk(s: Sys) {
    forall t :: t in s.reqs ==> RequestOk(s, t)
  }

  ghost predicate WorkersOk(s: Sys) {
    forall t :: t in s.m.pcs && t !in s.reqs ==> WorkerOk(s, s.m.pcs[t])
  }

  ghost predicate DeliveriesOk(s: Sys) {
    forall p, i :: p in s.m.deliveries && 0 <= i < |s.m.deliveries[p]| ==>
      FromWire(s, s.m.deliveries[p][i].id, s.m.deliveries[p][i].r)
  }

  /** What the gateway adds to the invariant of the waiter protocol. */
  ghost predicate GatewayOk(s: Sys) {
    NetOk(s) && OwnersOk(s) && RequestsOk(s) && WorkersOk(s) && DeliveriesOk(s)
  }

  ghost predicate SysInv(s: Sys) {
    Inv(s.m) && Free(s.m) && GatewayOk(s)
  }
}
