/** The waiter protocol of internal/transaction/manager.go as a step machine. One step
    is one critical section (Manager.mu or pending.mu) or one channel operation; any
    number of threads interleave. Waiter objects are pooled, as in acquirePending and
    releasePending, and a thread may keep a looked-up object as long as it likes. Create
    holds Manager.mu while acquirePending writes the object's fields one after the other,
    without the object's own lock. */
module Protocol {
  import opened Wrappers
  import opened Pendings
  import opened Managers

  type Pid = nat
  type Tid = nat

  /** What the caller of finish does after it: Complete and Fail return, Cancel removes
      the id, the cancellation path of Wait receives from its own pending. */
  datatype After = Return | ThenRemove | ThenReceive(own: Pid)

  /** What acquirePending and Create do next, once id and done are written. */
  datatype Phase = Unclaim | Drain | Insert

  /** Where a thread stands between two steps. `carrier` is the pooled envelope a
      dispatcher thread is still responsible for. */
  datatype Pc =
    | Idle
    | Acquiring(p: Pid, id: nat, phase: Phase)
    | Delivering(p: Pid, id: nat, r: Outcome, after: After, carrier: Option<nat>)
    | Removing(id: nat)
    | Claiming(p: Pid, id: nat)
    | Selecting(p: Pid, id: nat)
    | Receiving(p: Pid, id: nat)
    | Received(p: Pid, id: nat, r: Outcome)
    | Draining(p: Pid, id: nat, r: Outcome)
    | Resetting(p: Pid, id: nat, r: Outcome)
    | Closing

  /** A successful tryDeliver: the id its caller looked up and the outcome. */
  datatype Delivery = Delivery(id: nat, r: Outcome)

  datatype State = State(
    tab: Table<Pid>,
    objs: map<Pid, PendingState>,
    pool: set<Pid>,                       // free objects, and the one being acquired
    acquiring: Option<Pid>,               // Manager.mu is held by a Create that acquires this object
    pcs: map<Tid, Pc>,
    owed: seq<Pid>,                       // snapshot entries the winning Close has not reached
    closer: Tid,
    deliveries: map<Pid, seq<Delivery>>,  // history: successful deliveries since the object was acquired
    used: set<nat>,                       // history: envelopes decoded so far
    released: multiset<nat>)              // envelopes put back into the decode pool

  datatype Step =
    | CreateReset(t: Tid, wanted: nat, k: nat, p: Pid)
    | CreateNext(t: Tid)
    | Finish(t: Tid, id: nat, r: Outcome, after: After, carrier: Option<nat>)
    | TryDeliver(t: Tid)
    | CancelRemove(t: Tid)
    | WaitLookup(t: Tid, id: nat)
    | WaitClaim(t: Tid)
    | WaitReceive(t: Tid)
    | WaitCancel(t: Tid, err: Failure)
    | WaitRemove(t: Tid)
    | WaitDrain(t: Tid)
    | WaitReset(t: Tid)
    | CloseSnapshot(t: Tid, ps: seq<Pid>)
    | CloseDeliver(t: Tid)

  const INIT := State(Table(0, false, map[]), map[], {}, None, map[], [], 0, map[], {}, multiset{})

  function PcOf(s: State, t: Tid): Pc {
    if t in s.pcs then s.pcs[t] else Idle
  }

  function IssuedID(s: State, wanted: nat, k: nat): nat {
    if wanted == 0 then Advance(s.tab.nextID, k) else wanted
  }

  /** Close collects the map's values, in any order. */
  ghost predicate IsSnapshot(ps: seq<Pid>, wait: map<nat, Pid>) {
    forall p :: p in ps <==> p in wait.Values
  }

  function At(s: State, t: Tid, pc: Pc): State {
    s.(pcs := s.pcs[t := pc])
  }

  function SetObj(s: State, p: Pid, o: PendingState): State {
    s.(objs := s.objs[p := o])
  }

  function AfterFinish(id: nat, after: After): Pc {
    match after
    case Return => Idle
    case ThenRemove => Removing(id)
    case ThenReceive(own) => Receiving(own, id)
  }

  /** The dispatcher puts an undeliverable envelope back, the HTTP handler a delivered reply. */
  function PutBack(s: State, h: Option<nat>): State {
    if h.Some? then s.(released := s.released + multiset{h.value}) else s
  }

  function HandleOf(r: Outcome): Option<nat> {
    if r.Reply? then Some(r.env.handle) else None
  }

  // ---- Steps ----

  /** Manager.mu is free; every other critical section under it is one step. */
  predicate Free(s: State) {
    s.acquiring.None?
  }

  ghost predicate CanCreate(s: State, t: Tid, wanted: nat, k: nat, p: Pid) {
    && PcOf(s, t).Idle? && Free(s)
    && !s.tab.closed
    && (if wanted == 0 then StopsAfter(s.tab, k) else wanted !in s.tab.wait)
    && (p !in s.objs || p in s.pool)
  }

  /** Create up to `p.done = false`: the slot may still hold something. */
  function DoCreateReset(s: State, t: Tid, wanted: nat, k: nat, p: Pid): State {
    var id := IssuedID(s, wanted, k);
    var o := if p in s.objs then s.objs[p].(id := id, done := false) else Cleared(id);
    At(s, t, Acquiring(p, id, Unclaim)).(
      tab := if wanted == 0 then s.tab.(nextID := id) else s.tab,
      objs := s.objs[p := o], pool := s.pool + {p}, acquiring := Some(p), deliveries := s.deliveries[p := []])
  }

  predicate CanCreateNext(s: State, t: Tid) {
    PcOf(s, t).Acquiring? && PcOf(s, t).p in s.objs
  }

  /** `p.waiting = false`, the drain, and the insertion with the unlock. */
  function DoCreateNext(s: State, t: Tid): State
    requires CanCreateNext(s, t)
  {
    var Acquiring(p, id, phase) := PcOf(s, t);
    match phase
    case Unclaim => At(SetObj(s, p, s.objs[p].(waiting := false)), t, Acquiring(p, id, Drain))
    case Drain => At(SetObj(s, p, s.objs[p].(ch := None)), t, Acquiring(p, id, Insert))
    case Insert => At(s, t, Idle).(tab := Managers.Insert(s.tab, id, p), pool := s.pool - {p}, acquiring := None)
  }

  /** All of Create at once. */
  function DoCreate(s: State, wanted: nat, k: nat, p: Pid): State {
    var id := IssuedID(s, wanted, k);
    var tab := if wanted == 0 then s.tab.(nextID := id) else s.tab;
    s.(tab := Managers.Insert(tab, id, p), objs := s.objs[p := Cleared(id)], pool := s.pool - {p},
       deliveries := s.deliveries[p := []])
  }

  /** finish up to its unlock. */
  function DoLookup(s: State, t: Tid, id: nat, r: Outcome, after: After, carrier: Option<nat>): State {
    match Find(s.tab, id)
    case Ok(p) => At(s, t, Delivering(p, id, r, after, carrier))
    case Err(_) => At(PutBack(s, carrier), t, AfterFinish(id, after))
  }

  /** Complete (a reply), Fail (an error that arrived in an envelope) or Cancel. */
  predicate CanFinish(s: State, t: Tid, r: Outcome, after: After, carrier: Option<nat>) {
    && PcOf(s, t).Idle? && Free(s)
    && (after.Return? || (after.ThenRemove? && r == Failed(Canceled) && carrier.None?))
    && (r.Reply? ==> carrier == Some(r.env.handle))
    && (carrier.Some? ==> carrier.value !in s.used)
  }

  function DoFinish(s: State, t: Tid, id: nat, r: Outcome, after: After, carrier: Option<nat>): State {
    DoLookup(s.(used := if carrier.Some? then s.used + {carrier.value} else s.used), t, id, r, after, carrier)
  }

  /** tryDeliver on object p. */
  function Delivered(s: State, p: Pid, d: Delivery): State
    requires p in s.objs && CanDeliver(s.objs[p])
  {
    if s.objs[p].done then s
    else SetObj(s, p, Deliver(s.objs[p], d.r)).(
         deliveries := s.deliveries[p := (if p in s.deliveries then s.deliveries[p] else []) + [d]])
  }

  predicate CanTryDeliver(s: State, t: Tid) {
    PcOf(s, t).Delivering? && PcOf(s, t).p in s.objs && CanDeliver(s.objs[PcOf(s, t).p])
  }

  function DoTryDeliver(s: State, t: Tid): State
    requires CanTryDeliver(s, t)
  {
    var pc := PcOf(s, t);
    var s1 := Delivered(s, pc.p, Delivery(pc.id, pc.r));
    At(if s.objs[pc.p].done then PutBack(s1, pc.carrier) else s1, t, AfterFinish(pc.id, pc.after))
  }

  function DoCancelRemove(s: State, t: Tid): State
    requires PcOf(s, t).Removing?
  {
    At(s.(tab := Delete(s.tab, PcOf(s, t).id)), t, Idle)
  }

  function DoWaitLookup(s: State, t: Tid, id: nat): State {
    match Find(s.tab, id)
    case Ok(p) => At(s, t, Claiming(p, id))
    case Err(_) => s
  }

  predicate CanClaim(s: State, t: Tid) {
    PcOf(s, t).Claiming? && PcOf(s, t).p in s.objs
  }

  function DoWaitClaim(s: State, t: Tid): State
    requires CanClaim(s, t)
  {
    var Claiming(p, id) := PcOf(s, t);
    if s.objs[p].waiting then At(s, t, Idle)
    else At(SetObj(s, p, s.objs[p].(waiting := true)), t, Selecting(p, id))
  }

  /** A receive, in the select or in the cancellation path. */
  predicate CanReceive(s: State, t: Tid) {
    && (PcOf(s, t).Selecting? || PcOf(s, t).Receiving?)
    && PcOf(s, t).p in s.objs
    && s.objs[PcOf(s, t).p].ch.Some?
  }

  function DoReceive(s: State, t: Tid): State
    requires CanReceive(s, t)
  {
    var pc := PcOf(s, t);
    At(SetObj(s, pc.p, s.objs[pc.p].(ch := None)), t, Received(pc.p, pc.id, s.objs[pc.p].ch.value))
  }

  function DoWaitCancel(s: State, t: Tid, err: Failure): State
    requires PcOf(s, t).Selecting?
  {
    var Selecting(p, id) := PcOf(s, t);
    DoLookup(s, t, id, Failed(err), ThenReceive(p), None)
  }

  function DoWaitRemove(s: State, t: Tid): State
    requires PcOf(s, t).Received?
  {
    var Received(p, id, r) := PcOf(s, t);
    At(s.(tab := Delete(s.tab, id)), t, Draining(p, id, r))
  }

  predicate CanDrain(s: State, t: Tid) {
    PcOf(s, t).Draining? && PcOf(s, t).p in s.objs
  }

  function DoWaitDrain(s: State, t: Tid): State
    requires CanDrain(s, t)
  {
    var Draining(p, id, r) := PcOf(s, t);
    At(SetObj(s, p, s.objs[p].(ch := None)), t, Resetting(p, id, r))
  }

  predicate CanReset(s: State, t: Tid) {
    PcOf(s, t).Resetting? && PcOf(s, t).p in s.objs
  }

  /** The locked part of releasePending and the Put; Wait then returns and its caller
      releases the reply. */
  function DoWaitReset(s: State, t: Tid): State
    requires CanReset(s, t)
  {
    var Resetting(p, id, r) := PcOf(s, t);
    At(PutBack(SetObj(s, p, Cleared(0).(ch := s.objs[p].ch)).(pool := s.pool + {p}), HandleOf(r)), t, Idle)
  }

  ghost predicate CanSnapshot(s: State, t: Tid, ps: seq<Pid>) {
    PcOf(s, t).Idle? && Free(s) && (s.tab.closed || IsSnapshot(ps, s.tab.wait))
  }

  function DoSnapshot(s: State, t: Tid, ps: seq<Pid>): State {
    if s.tab.closed then s else At(s.(tab := Shut(s.tab), owed := ps, closer := t), t, Closing)
  }

  predicate CanCloseDeliver(s: State, t: Tid) {
    && PcOf(s, t).Closing?
    && (s.owed != [] ==> s.owed[0] in s.objs && CanDeliver(s.objs[s.owed[0]]))
  }

  function DoCloseDeliver(s: State, t: Tid): State
    requires CanCloseDeliver(s, t)
  {
    if s.owed == [] then At(s, t, Idle)
    else Delivered(s, s.owed[0], Delivery(s.objs[s.owed[0]].id, Failed(ManagerClosed))).(owed := s.owed[1..])
  }

  ghost predicate Enabled(s: State, a: Step) {
    match a
    case CreateReset(t, wanted, k, p) => CanCreate(s, t, wanted, k, p)
    case CreateNext(t) => CanCreateNext(s, t)
    case Finish(t, id, r, after, carrier) => CanFinish(s, t, r, after, carrier)
    case TryDeliver(t) => CanTryDeliver(s, t)
    case CancelRemove(t) => PcOf(s, t).Removing? && Free(s)
    case WaitLookup(t, _) => PcOf(s, t).Idle? && Free(s)
    case WaitClaim(t) => CanClaim(s, t)
    case WaitReceive(t) => CanReceive(s, t)
    case WaitCancel(t, err) => PcOf(s, t).Selecting? && Free(s) && (err == Canceled || err == DeadlineExceeded)
    case WaitRemove(t) => PcOf(s, t).Received? && Free(s)
    case WaitDrain(t) => CanDrain(s, t)
    case WaitReset(t) => CanReset(s, t)
    case CloseSnapshot(t, ps) => CanSnapshot(s, t, ps)
    case CloseDeliver(t) => CanCloseDeliver(s, t)
  }

  ghost function Apply(s: State, a: Step): State
    requires Enabled(s, a)
  {
    match a
    case CreateReset(t, wanted, k, p) => DoCreateReset(s, t, wanted, k, p)
    case CreateNext(t) => DoCreateNext(s, t)
    case Finish(t, id, r, after, carrier) => DoFinish(s, t, id, r, after, carrier)
    case TryDeliver(t) => DoTryDeliver(s, t)
    case CancelRemove(t) => DoCancelRemove(s, t)
    case WaitLookup(t, id) => DoWaitLookup(s, t, id)
    case WaitClaim(t) => DoWaitClaim(s, t)
    case WaitReceive(t) => DoReceive(s, t)
    case WaitCancel(t, err) => DoWaitCancel(s, t, err)
    case WaitRemove(t) => DoWaitRemove(s, t)
    case WaitDrain(t) => DoWaitDrain(s, t)
    case WaitReset(t) => DoWaitReset(s, t)
    case CloseSnapshot(t, ps) => DoSnapshot(s, t, ps)
    case CloseDeliver(t) => DoCloseDeliver(s, t)
  }

  // ---- Which steps are clean ----

  /** The thread has got hold of the object by a lookup. */
  predicate Refers(pc: Pc, p: Pid) {
    match pc
    case Idle => false
    case Acquiring(_, _, _) => false
    case Removing(_) => false
    case Closing => false
    case Delivering(q, _, _, after, _) => q == p || after == ThenReceive(p)
    case _ => pc.p == p
  }

  /** No thread, and no Close snapshot, still holds the object. */
  ghost predicate NoHolder(s: State, p: Pid) {
    && (forall t :: t in s.pcs ==> !Refers(s.pcs[t], p))
    && p !in s.owed
  }

  /** The thread is committed to deleting this id from the table. */
  predicate WillRemove(s: State, pc: Pc, id: nat) {
    match pc
    case Delivering(_, i, _, after, _) => i == id && !after.Return?
    case Removing(i) => i == id
    case Claiming(p, i) => i == id && p in s.objs && !s.objs[p].waiting
    case Selecting(_, i) => i == id
    case Receiving(_, i) => i == id
    case Received(_, i, _) => i == id
    case _ => false
  }

  ghost predicate NoRemover(s: State, id: nat) {
    forall t :: t in s.pcs ==> !WillRemove(s, s.pcs[t], id)
  }

  /** No second Wait stands between its lookup and its claim of this object. */
  ghost predicate NoClaimant(s: State, p: Pid) {
    forall t :: t in s.pcs ==> !(s.pcs[t].Claiming? && s.pcs[t].p == p)
  }

  /** A Create is clean when nobody holds its object and its id has no pending removal; the
      release of an object is clean when no second Wait is about to claim it. */
  ghost predicate Clean(s: State, a: Step) {
    match a
    case CreateReset(_, wanted, k, p) => NoRemover(s, IssuedID(s, wanted, k)) && NoHolder(s, p)
    case WaitReset(t) => PcOf(s, t).Resetting? ==> NoClaimant(s, PcOf(s, t).p)
    case _ => true
  }

  // ---- Invariant of clean runs ----

  predicate Live(s: State, p: Pid) {
    p in s.objs && p !in s.pool
  }

  predicate Registered(s: State, p: Pid)
    requires p in s.objs
  {
    s.objs[p].id in s.tab.wait && s.tab.wait[s.objs[p].id] == p
  }

  predicate MapsOnly(s: State, id: nat, p: Pid) {
    id in s.tab.wait ==> s.tab.wait[id] == p
  }

  ghost predicate TableOk(s: State) {
    && (forall id :: id in s.tab.wait ==> Live(s, s.tab.wait[id]) && s.objs[s.tab.wait[id]].id == id)
    && (s.tab.closed ==> s.tab.wait == map[])
    && (!s.tab.closed ==> s.owed == [])
    && s.pool <= s.objs.Keys
    && s.deliveries.Keys == s.objs.Keys
    && (forall p :: p in s.owed ==> p in s.objs)
    && (s.owed != [] ==> PcOf(s, s.closer).Closing?)
  }

  /** While an object is in use, at most one delivery succeeds, made under the id the object
      was created for, and the slot holds nothing else. An undelivered one can still be found
      in the table or is owed a delivery by Close. While an object is being acquired its slot
      may be full although it is not done. */
  predicate ObjOk(s: State, p: Pid)
    requires p in s.objs
  {
    var o := s.objs[p];
    && (o.ch.Some? ==> o.done || s.acquiring == Some(p))
    && (Live(s, p) ==>
          && p in s.deliveries
          && (if o.done
              then && |s.deliveries[p]| == 1
                   && s.deliveries[p][0].id == o.id
                   && (o.ch.Some? ==> o.ch.value == s.deliveries[p][0].r)
              else s.deliveries[p] == [] && (Registered(s, p) || p in s.owed))
          && (o.done && !o.waiting ==> o.ch.Some?))
  }

  predicate Owns(s: State, p: Pid, id: nat) {
    Live(s, p) && s.objs[p].waiting && s.objs[p].id == id
  }

  predicate HasResult(s: State, p: Pid, r: Outcome)
    requires p in s.objs
  {
    s.objs[p].done && s.objs[p].ch.None? && p in s.deliveries && |s.deliveries[p]| == 1 && s.deliveries[p][0].r == r
  }

  predicate AcquiredUpTo(s: State, p: Pid, id: nat, phase: Phase) {
    && p in s.objs && p in s.pool && p in s.deliveries && s.deliveries[p] == []
    && s.objs[p].id == id && !s.objs[p].done
    && (!phase.Unclaim? ==> !s.objs[p].waiting)
    && (phase.Insert? ==> s.objs[p].ch.None?)
  }

  predicate ThreadOk(s: State, pc: Pc) {
    match pc
    case Idle => true
    case Closing => true
    case Acquiring(p, id, phase) => s.acquiring == Some(p) && AcquiredUpTo(s, p, id, phase)
    case Delivering(p, id, r, after, carrier) =>
      && p in s.objs
      && (Live(s, p) ==> s.objs[p].id == id)
      && (after.ThenRemove? ==> MapsOnly(s, id, p))
      && (after.ThenReceive? ==>
            after.own == p && Owns(s, p, id) && MapsOnly(s, id, p) && (s.objs[p].done ==> s.objs[p].ch.Some?))
    case Removing(id) => id in s.tab.wait && s.tab.wait[id] in s.objs ==> s.objs[s.tab.wait[id]].done
    case Claiming(p, id) => Live(s, p) && s.objs[p].id == id && (!s.objs[p].waiting ==> MapsOnly(s, id, p))
    case Selecting(p, id) => Owns(s, p, id) && MapsOnly(s, id, p) && (s.objs[p].done ==> s.objs[p].ch.Some?)
    case Receiving(p, id) => Owns(s, p, id) && MapsOnly(s, id, p) && (s.objs[p].ch.Some? || (!s.objs[p].done && p in s.owed))
    case Received(p, id, r) => Owns(s, p, id) && MapsOnly(s, id, p) && HasResult(s, p, r)
    case Draining(p, id, r) => Owns(s, p, id) && !Registered(s, p) && HasResult(s, p, r)
    case Resetting(p, id, r) => Owns(s, p, id) && !Registered(s, p) && HasResult(s, p, r)
  }

  predicate Owner(pc: Pc, p: Pid) {
    match pc
    case Delivering(_, _, _, after, _) => after == ThenReceive(p)
    case Selecting(q, _) => q == p
    case Receiving(q, _) => q == p
    case Received(q, _, _) => q == p
    case Draining(q, _, _) => q == p
    case Resetting(q, _, _) => q == p
    case _ => false
  }

  ghost predicate OneOwner(s: State) {
    forall t, u, p :: t in s.pcs && u in s.pcs && Owner(s.pcs[t], p) && Owner(s.pcs[u], p) ==> t == u
  }

  ghost predicate ObjsOk(s: State) {
    forall p :: p in s.objs ==> ObjOk(s, p)
  }

  ghost predicate ThreadsOk(s: State) {
    forall t :: t in s.pcs ==> ThreadOk(s, s.pcs[t])
  }

  /** While an object is being acquired nobody else holds it or is to remove its id. */
  ghost predicate Window(s: State, p: Pid) {
    && p in s.objs && NoHolder(s, p) && NoRemover(s, s.objs[p].id)
    && !s.tab.closed && s.objs[p].id !in s.tab.wait
    && forall t, u :: t in s.pcs && u in s.pcs && s.pcs[t].Acquiring? && s.pcs[u].Acquiring? ==> t == u
  }

  ghost predicate WindowOk(s: State) {
    s.acquiring.Some? ==> Window(s, s.acquiring.value)
  }

  ghost predicate Inv(s: State) {
    TableOk(s) && ObjsOk(s) && ThreadsOk(s) && OneOwner(s) && WindowOk(s)
  }

  lemma InitInv()
    ensures Inv(INIT)
  {
  }

  /** s1 differs from s in the object p only, and there by more progress. */
  ghost predicate Progress(s: State, s1: State, p: Pid) {
    && s1.tab == s.tab && s1.pool == s.pool && s1.owed == s.owed && s1.acquiring == s.acquiring
    && s1.objs.Keys == s.objs.Keys
    && (forall q :: q in s.objs && q != p ==> s1.objs[q] == s.objs[q])
    && (forall q :: q in s.deliveries && q != p ==> q in s1.deliveries && s1.deliveries[q] == s.deliveries[q])
    && (p in s.objs ==>
          && s1.objs[p].id == s.objs[p].id
          && (s.objs[p].done ==> s1.objs[p].done)
          && (s.objs[p].waiting ==> s1.objs[p].waiting))
  }

  lemma BystanderOk(s: State, s1: State, p: Pid, pc: Pc)
    requires Progress(s, s1, p) && ThreadOk(s, pc) && !Owner(pc, p) && s.acquiring != Some(p)
    ensures ThreadOk(s1, pc)
  {
  }

  /** Threads other than t keep their clause when t works on p and no other thread owns p. */
  lemma BystandersOk(s: State, s1: State, t: Tid, p: Pid)
    requires ThreadsOk(s) && OneOwner(s) && Progress(s, s1, p) && s.acquiring != Some(p)
    requires s1.pcs == s.pcs[t := PcOf(s1, t)]
    requires Owner(PcOf(s, t), p) || forall u :: u in s.pcs && u != t ==> !Owner(s.pcs[u], p)
    ensures forall u :: u in s1.pcs && u != t ==> ThreadOk(s1, s1.pcs[u])
  {
    forall u | u in s1.pcs && u != t
      ensures ThreadOk(s1, s1.pcs[u])
    {
      assert ThreadOk(s, s.pcs[u]);
      assert !Owner(s.pcs[u], p);
      BystanderOk(s, s1, p, s.pcs[u]);
    }
  }

  /** Only t moved, and it owns nothing new that somebody else owns. */
  lemma StillOneOwner(s: State, s1: State, t: Tid)
    requires OneOwner(s) && s1.pcs == s.pcs[t := PcOf(s1, t)]
    requires forall q :: Owner(PcOf(s1, t), q) ==>
               Owner(PcOf(s, t), q) || forall u :: u in s.pcs && u != t ==> !Owner(s.pcs[u], q)
    ensures OneOwner(s1)
  {
  }

  /** An object nobody waits on has no owner. */
  lemma UnclaimedHasNoOwner(s: State, p: Pid)
    requires ThreadsOk(s) && (p in s.objs ==> !Live(s, p) || !s.objs[p].waiting)
    ensures forall u :: u in s.pcs ==> !Owner(s.pcs[u], p)
  {
    forall u | u in s.pcs
      ensures !Owner(s.pcs[u], p)
    {
      assert ThreadOk(s, s.pcs[u]);
    }
  }

  lemma SameThread(s: State, s1: State, pc: Pc)
    requires ThreadOk(s, pc)
    requires s1 == s.(pcs := s1.pcs, used := s1.used, released := s1.released)
    ensures ThreadOk(s1, pc)
  {
  }

  /** What a thread may do while p is being acquired: get no hold of p, and become no remover of
      its id. */
  ghost predicate KeepsOut(s: State, s1: State, t: Tid, p: Pid)
    requires p in s.objs
  {
    && !PcOf(s, t).Acquiring? && !PcOf(s1, t).Acquiring? && !Refers(PcOf(s1, t), p)
    && (WillRemove(s1, PcOf(s1, t), s.objs[p].id) ==> WillRemove(s, PcOf(s, t), s.objs[p].id))
  }

  lemma WindowKept(s: State, s1: State, t: Tid)
    requires WindowOk(s) && s1.acquiring == s.acquiring && s1.tab == s.tab && s1.owed == s.owed
    requires s1.pcs == s.pcs[t := PcOf(s1, t)]
    requires s.acquiring.Some? ==>
               var p := s.acquiring.value;
               && p in s.objs && p in s1.objs && s1.objs[p].id == s.objs[p].id && KeepsOut(s, s1, t, p)
               && forall u :: u in s.pcs && WillRemove(s1, s.pcs[u], s.objs[p].id) ==> WillRemove(s, s.pcs[u], s.objs[p].id)
    ensures WindowOk(s1)
  {
  }

  /** Only the place of t and the envelope histories changed. */
  lemma MoveInv(s: State, s1: State, t: Tid)
    requires Inv(s) && (s.closer == t && PcOf(s, t).Closing? ==> s.owed == [])
    requires s1 == s.(pcs := s.pcs[t := PcOf(s1, t)], used := s1.used, released := s1.released)
    requires ThreadOk(s, PcOf(s1, t))
    requires s.acquiring.Some? ==> KeepsOut(s, s1, t, s.acquiring.value)
    requires forall q :: Owner(PcOf(s1, t), q) ==>
               Owner(PcOf(s, t), q) || forall u :: u in s.pcs && u != t ==> !Owner(s.pcs[u], q)
    ensures Inv(s1)
  {
    WindowKept(s, s1, t);
    forall u | u in s1.pcs
      ensures ThreadOk(s1, s1.pcs[u])
    {
      SameThread(s, s1, s1.pcs[u]);
    }
    StillOneOwner(s, s1, t);
  }

  /** Where the cancellation path goes after its lookup. */
  lemma CancelledPlace(s: State, t: Tid, err: Failure)
    requires Inv(s) && PcOf(s, t).Selecting?
    ensures ThreadOk(s, PcOf(DoWaitCancel(s, t, err), t))
  {
    assert ThreadOk(s, s.pcs[t]) && ObjOk(s, s.pcs[t].p);
  }

  lemma WaitCancelInv(s: State, t: Tid, err: Failure)
    requires Inv(s) && PcOf(s, t).Selecting? && Free(s)
    ensures Inv(DoWaitCancel(s, t, err))
  {
    CancelledPlace(s, t, err);
    MoveInv(s, DoWaitCancel(s, t, err), t);
  }

  lemma FinishInv(s: State, t: Tid, id: nat, r: Outcome, after: After, carrier: Option<nat>)
    requires Inv(s) && CanFinish(s, t, r, after, carrier)
    ensures Inv(DoFinish(s, t, id, r, after, carrier))
  {
    MoveInv(s, DoFinish(s, t, id, r, after, carrier), t);
  }

  lemma WaitLookupInv(s: State, t: Tid, id: nat)
    requires Inv(s) && PcOf(s, t).Idle? && Free(s)
    ensures Inv(DoWaitLookup(s, t, id))
  {
    if Find(s.tab, id).Ok? {
      MoveInv(s, DoWaitLookup(s, t, id), t);
    }
  }

  lemma DeliveredOk(s: State, p: Pid, d: Delivery)
    requires TableOk(s) && ObjsOk(s) && p in s.objs && CanDeliver(s.objs[p])
    requires Live(s, p) ==> d.id == s.objs[p].id
    ensures TableOk(Delivered(s, p, d)) && ObjsOk(Delivered(s, p, d))
    ensures Progress(s, Delivered(s, p, d), p)
  {
  }

  lemma DeliveredThread(s: State, p: Pid, d: Delivery, pc: Pc)
    requires p in s.objs && CanDeliver(s.objs[p]) && ThreadOk(s, pc) && s.acquiring != Some(p)
    ensures ThreadOk(Delivered(s, p, d), pc)
  {
  }

  lemma DeliveredInv(s: State, p: Pid, d: Delivery)
    requires Inv(s) && p in s.objs && CanDeliver(s.objs[p]) && s.acquiring != Some(p)
    requires Live(s, p) ==> d.id == s.objs[p].id
    ensures Inv(Delivered(s, p, d))
  {
    assert WindowOk(Delivered(s, p, d));
    DeliveredOk(s, p, d);
    forall t | t in s.pcs
      ensures ThreadOk(Delivered(s, p, d), s.pcs[t])
    {
      DeliveredThread(s, p, d, s.pcs[t]);
    }
  }

  lemma TryDeliverInv(s: State, t: Tid)
    requires Inv(s) && CanTryDeliver(s, t)
    ensures Inv(DoTryDeliver(s, t))
  {
    var Delivering(p, id, r, after, carrier) := PcOf(s, t);
    assert ThreadOk(s, s.pcs[t]);
    assert Refers(s.pcs[t], p);
    var s1 := Delivered(s, p, Delivery(id, r));
    DeliveredInv(s, p, Delivery(id, r));
    assert ThreadOk(s1, s1.pcs[t]) && s1.objs[p].done;
    MoveInv(s1, DoTryDeliver(s, t), t);
  }

  /** Marking a live, unclaimed object as waited on keeps table and objects in order. */
  lemma ClaimedObjs(s: State, p: Pid)
    requires TableOk(s) && ObjsOk(s) && p in s.objs && Live(s, p)
    ensures TableOk(SetObj(s, p, s.objs[p].(waiting := true))) && ObjsOk(SetObj(s, p, s.objs[p].(waiting := true)))
  {
    var s1 := SetObj(s, p, s.objs[p].(waiting := true));
    forall q | q in s1.objs
      ensures ObjOk(s1, q)
    {
      assert ObjOk(s, q);
    }
  }

  lemma ClaimWindow(s: State, t: Tid)
    requires WindowOk(s) && CanClaim(s, t) && !s.objs[PcOf(s, t).p].waiting
    ensures WindowOk(DoWaitClaim(s, t))
  {
    assert s.acquiring.Some? ==> !Refers(s.pcs[t], s.acquiring.value);
    WindowKept(s, DoWaitClaim(s, t), t);
  }

  lemma ClaimantOk(s: State, t: Tid)
    requires CanClaim(s, t) && !s.objs[PcOf(s, t).p].waiting && ThreadOk(s, PcOf(s, t)) && ObjOk(s, PcOf(s, t).p)
    ensures ThreadOk(DoWaitClaim(s, t), PcOf(DoWaitClaim(s, t), t))
  {
  }

  lemma FirstClaimInv(s: State, t: Tid)
    requires Inv(s) && CanClaim(s, t) && !s.objs[PcOf(s, t).p].waiting
    ensures Inv(DoWaitClaim(s, t))
  {
    var p := PcOf(s, t).p;
    var s1 := DoWaitClaim(s, t);
    assert ThreadOk(s, s.pcs[t]);
    UnclaimedHasNoOwner(s, p);
    assert !Refers(s.pcs[t], p) || s.acquiring != Some(p);
    BystandersOk(s, s1, t, p);
    StillOneOwner(s, s1, t);
    ClaimedObjs(s, p);
    ClaimWindow(s, t);
    ClaimantOk(s, t);
  }

  lemma WaitClaimInv(s: State, t: Tid)
    requires Inv(s) && CanClaim(s, t)
    ensures Inv(DoWaitClaim(s, t))
  {
    if s.objs[PcOf(s, t).p].waiting {
      MoveInv(s, DoWaitClaim(s, t), t);
    } else {
      FirstClaimInv(s, t);
    }
  }

  lemma ReceiveWindow(s: State, t: Tid)
    requires WindowOk(s) && CanReceive(s, t)
    ensures WindowOk(DoReceive(s, t))
  {
    assert s.acquiring.Some? ==> !Refers(s.pcs[t], s.acquiring.value);
    WindowKept(s, DoReceive(s, t), t);
  }

  lemma ReceiveInv(s: State, t: Tid)
    requires Inv(s) && CanReceive(s, t)
    ensures Inv(DoReceive(s, t))
  {
    var p := PcOf(s, t).p;
    assert ThreadOk(s, s.pcs[t]);
    assert ObjOk(s, p);
    BystandersOk(s, DoReceive(s, t), t, p);
    StillOneOwner(s, DoReceive(s, t), t);
    ReceiveWindow(s, t);
  }

  lemma CreateBystander(s: State, t: Tid, wanted: nat, k: nat, p: Pid, u: Tid)
    requires Inv(s) && CanCreate(s, t, wanted, k, p)
    requires NoRemover(s, IssuedID(s, wanted, k)) && NoHolder(s, p)
    requires u in s.pcs
    ensures ThreadOk(DoCreate(s, wanted, k, p), s.pcs[u])
  {
    assert !Refers(s.pcs[u], p);
    assert !WillRemove(s, s.pcs[u], IssuedID(s, wanted, k));
    assert ThreadOk(s, s.pcs[u]);
  }

  lemma CreateObjs(s: State, t: Tid, wanted: nat, k: nat, p: Pid)
    requires TableOk(s) && ObjsOk(s) && CanCreate(s, t, wanted, k, p)
    ensures TableOk(DoCreate(s, wanted, k, p)) && ObjsOk(DoCreate(s, wanted, k, p))
  {
    var s1 := DoCreate(s, wanted, k, p);
    forall q | q in s1.objs
      ensures ObjOk(s1, q)
    {
      assert q in s.objs ==> ObjOk(s, q);
    }
  }

  lemma CreateInv(s: State, t: Tid, wanted: nat, k: nat, p: Pid)
    requires Inv(s) && CanCreate(s, t, wanted, k, p)
    requires NoRemover(s, IssuedID(s, wanted, k)) && NoHolder(s, p)
    ensures Inv(DoCreate(s, wanted, k, p))
  {
    var s1 := DoCreate(s, wanted, k, p);
    CreateObjs(s, t, wanted, k, p);
    forall u | u in s1.pcs
      ensures ThreadOk(s1, s1.pcs[u])
    {
      CreateBystander(s, t, wanted, k, p, u);
    }
  }

  /** An object that nobody refers to may be in any state while it is acquired. */
  lemma UnseenThread(s: State, s1: State, p: Pid, pc: Pc)
    requires ThreadOk(s, pc) && !Refers(pc, p) && !pc.Acquiring? && p !in s.tab.wait.Values
    requires s1.tab.wait == s.tab.wait && s1.owed == s.owed && s1.pool == s.pool + {p}
    requires s1.objs.Keys == s.objs.Keys + {p} && (forall q :: q in s.objs && q != p ==> s1.objs[q] == s.objs[q])
    requires forall q :: q in s.deliveries && q != p ==> q in s1.deliveries && s1.deliveries[q] == s.deliveries[q]
    ensures ThreadOk(s1, pc)
  {
    assert forall id :: id in s.tab.wait ==> s.tab.wait[id] in s.tab.wait.Values;
  }

  lemma CreateResetObjs(s: State, t: Tid, wanted: nat, k: nat, p: Pid)
    requires TableOk(s) && ObjsOk(s) && CanCreate(s, t, wanted, k, p)
    ensures TableOk(DoCreateReset(s, t, wanted, k, p)) && ObjsOk(DoCreateReset(s, t, wanted, k, p))
  {
    var s1 := DoCreateReset(s, t, wanted, k, p);
    forall q | q in s1.objs
      ensures ObjOk(s1, q)
    {
      assert q in s.objs ==> ObjOk(s, q);
    }
  }

  lemma WindowOpens(s: State, t: Tid, wanted: nat, k: nat, p: Pid)
    requires ThreadsOk(s) && CanCreate(s, t, wanted, k, p)
    requires NoRemover(s, IssuedID(s, wanted, k)) && NoHolder(s, p)
    ensures WindowOk(DoCreateReset(s, t, wanted, k, p))
  {
    var s1 := DoCreateReset(s, t, wanted, k, p);
    var id := IssuedID(s, wanted, k);
    forall u | u in s.pcs
      ensures !WillRemove(s1, s.pcs[u], id) && !s.pcs[u].Acquiring?
    {
      assert ThreadOk(s, s.pcs[u]) && !WillRemove(s, s.pcs[u], id) && !Refers(s.pcs[u], p);
    }
  }

  lemma CreateResetInv(s: State, t: Tid, wanted: nat, k: nat, p: Pid)
    requires Inv(s) && CanCreate(s, t, wanted, k, p)
    requires NoRemover(s, IssuedID(s, wanted, k)) && NoHolder(s, p)
    ensures Inv(DoCreateReset(s, t, wanted, k, p))
  {
    var s1 := DoCreateReset(s, t, wanted, k, p);
    assert forall u :: u in s.pcs ==> ThreadOk(s, s.pcs[u]) && !s.pcs[u].Acquiring?;
    CreateResetObjs(s, t, wanted, k, p);
    forall u | u in s1.pcs && u != t
      ensures ThreadOk(s1, s1.pcs[u])
    {
      UnseenThread(s, s1, p, s.pcs[u]);
    }
    StillOneOwner(s, s1, t);
    WindowOpens(s, t, wanted, k, p);
  }

  lemma PrepareObjs(s: State, t: Tid)
    requires TableOk(s) && ObjsOk(s) && CanCreateNext(s, t) && ThreadOk(s, PcOf(s, t)) && !PcOf(s, t).phase.Insert?
    ensures TableOk(DoCreateNext(s, t)) && ObjsOk(DoCreateNext(s, t))
  {
    var s1 := DoCreateNext(s, t);
    forall q | q in s1.objs
      ensures ObjOk(s1, q)
    {
      assert ObjOk(s, q);
    }
  }

  /** The two writes before the insertion touch an object that nobody else sees. */
  lemma PrepareInv(s: State, t: Tid)
    requires Inv(s) && CanCreateNext(s, t) && !PcOf(s, t).phase.Insert?
    ensures Inv(DoCreateNext(s, t))
  {
    var s1 := DoCreateNext(s, t);
    var p := PcOf(s, t).p;
    assert ThreadOk(s, s.pcs[t]);
    PrepareObjs(s, t);
    forall u | u in s1.pcs && u != t
      ensures ThreadOk(s1, s1.pcs[u])
    {
      assert ThreadOk(s, s.pcs[u]) && !Refers(s.pcs[u], p);
      UnseenThread(s, s1, p, s.pcs[u]);
    }
    StillOneOwner(s, s1, t);
  }

  lemma InsertBystander(s: State, t: Tid, u: Tid)
    requires Inv(s) && CanCreateNext(s, t) && PcOf(s, t).phase.Insert? && u in s.pcs && u != t
    ensures ThreadOk(DoCreateNext(s, t), s.pcs[u])
  {
    assert ThreadOk(s, s.pcs[t]) && ThreadOk(s, s.pcs[u]);
    assert !Refers(s.pcs[u], PcOf(s, t).p);
    assert !WillRemove(s, s.pcs[u], PcOf(s, t).id);
  }

  lemma InsertInv(s: State, t: Tid)
    requires Inv(s) && CanCreateNext(s, t) && PcOf(s, t).phase.Insert?
    ensures Inv(DoCreateNext(s, t))
  {
    var s1 := DoCreateNext(s, t);
    assert ThreadOk(s, s.pcs[t]);
    assert TableOk(s1);
    assert ObjsOk(s1);
    forall u | u in s1.pcs && u != t
      ensures ThreadOk(s1, s1.pcs[u])
    {
      InsertBystander(s, t, u);
    }
    StillOneOwner(s, s1, t);
  }

  lemma CreateNextInv(s: State, t: Tid)
    requires Inv(s) && CanCreateNext(s, t)
    ensures Inv(DoCreateNext(s, t))
  {
    assert ThreadOk(s, s.pcs[t]);
    if PcOf(s, t).phase.Insert? {
      InsertInv(s, t);
    } else {
      PrepareInv(s, t);
    }
  }

  lemma ResetBystander(s: State, t: Tid, u: Tid)
    requires Inv(s) && CanReset(s, t) && NoClaimant(s, PcOf(s, t).p)
    requires u in s.pcs && !Owner(s.pcs[u], PcOf(s, t).p)
    ensures ThreadOk(DoWaitReset(s, t), s.pcs[u])
  {
    assert ThreadOk(s, s.pcs[t]);
    assert ThreadOk(s, s.pcs[u]);
  }

  lemma ResetObjs(s: State, t: Tid)
    requires TableOk(s) && ObjsOk(s) && CanReset(s, t) && ThreadOk(s, s.pcs[t])
    ensures TableOk(DoWaitReset(s, t)) && ObjsOk(DoWaitReset(s, t))
  {
    var s1 := DoWaitReset(s, t);
    forall q | q in s1.objs
      ensures ObjOk(s1, q)
    {
      assert ObjOk(s, q);
    }
  }

  lemma ResetWindow(s: State, t: Tid)
    requires WindowOk(s) && CanReset(s, t) && NoClaimant(s, PcOf(s, t).p)
    ensures WindowOk(DoWaitReset(s, t))
  {
    assert s.acquiring.Some? ==> !Refers(s.pcs[t], s.acquiring.value);
    WindowKept(s, DoWaitReset(s, t), t);
  }

  lemma WaitResetInv(s: State, t: Tid)
    requires Inv(s) && CanReset(s, t) && NoClaimant(s, PcOf(s, t).p)
    ensures Inv(DoWaitReset(s, t))
  {
    var p := PcOf(s, t).p;
    var s1 := DoWaitReset(s, t);
    assert ThreadOk(s, s.pcs[t]);
    ResetObjs(s, t);
    ResetWindow(s, t);
    forall u | u in s1.pcs && u != t
      ensures ThreadOk(s1, s1.pcs[u])
    {
      assert Owner(s.pcs[t], p);
      assert !Owner(s.pcs[u], p);
      ResetBystander(s, t, u);
    }
    StillOneOwner(s, s1, t);
  }

  /** Close moves on once the first object of its list is delivered. */
  lemma OwedPaid(s: State)
    requires Inv(s) && s.owed != [] && s.objs[s.owed[0]].done
    ensures Inv(s.(owed := s.owed[1..]))
  {
    assert forall q :: q in s.owed ==> q == s.owed[0] || q in s.owed[1..];
    var s1 := s.(owed := s.owed[1..]);
    forall q | q in s1.objs
      ensures ObjOk(s1, q)
    {
      assert ObjOk(s, q);
    }
    forall t | t in s1.pcs
      ensures ThreadOk(s1, s1.pcs[t])
    {
      assert ThreadOk(s, s.pcs[t]);
    }
  }

  lemma CloseDeliverInv(s: State, t: Tid)
    requires Inv(s) && CanCloseDeliver(s, t)
    ensures Inv(DoCloseDeliver(s, t))
  {
    if s.owed == [] {
      MoveInv(s, DoCloseDeliver(s, t), t);
    } else {
      var p := s.owed[0];
      DeliveredInv(s, p, Delivery(s.objs[p].id, Failed(ManagerClosed)));
      OwedPaid(Delivered(s, p, Delivery(s.objs[p].id, Failed(ManagerClosed))));
    }
  }

  lemma CancelRemoveInv(s: State, t: Tid)
    requires Inv(s) && PcOf(s, t).Removing? && Free(s)
    ensures Inv(DoCancelRemove(s, t))
  {
  }

  lemma WaitRemoveInv(s: State, t: Tid)
    requires Inv(s) && PcOf(s, t).Received? && Free(s)
    ensures Inv(DoWaitRemove(s, t))
  {
  }

  /** Emptying an empty slot changes nothing. */
  lemma EmptyAgain(s: State, p: Pid)
    requires p in s.objs && s.objs[p].ch.None?
    ensures SetObj(s, p, s.objs[p].(ch := None)) == s
  {
    assert s.objs[p := s.objs[p]] == s.objs;
  }

  lemma WaitDrainInv(s: State, t: Tid)
    requires Inv(s) && CanDrain(s, t)
    ensures Inv(DoWaitDrain(s, t))
  {
    var p := PcOf(s, t).p;
    var s1 := DoWaitDrain(s, t);
    assert ThreadOk(s, s.pcs[t]);
    EmptyAgain(s, p);
    MoveInv(s, s1, t);
  }

  lemma SnapshotInv(s: State, t: Tid, ps: seq<Pid>)
    requires Inv(s) && CanSnapshot(s, t, ps)
    ensures Inv(DoSnapshot(s, t, ps))
  {
  }

  lemma SameAcquiring(s: State, a: Step)
    requires Enabled(s, a) && !a.CreateReset? && !a.CreateNext?
    ensures Apply(s, a).acquiring == s.acquiring
  {
  }

  lemma StepInv(s: State, a: Step)
    requires Inv(s) && Enabled(s, a) && Clean(s, a)
    ensures Inv(Apply(s, a))
  {
    match a
    case CreateReset(t, wanted, k, p) => CreateResetInv(s, t, wanted, k, p);
    case CreateNext(t) => CreateNextInv(s, t);
    case Finish(t, id, r, after, carrier) => FinishInv(s, t, id, r, after, carrier);
    case TryDeliver(t) => TryDeliverInv(s, t);
    case CancelRemove(t) => CancelRemoveInv(s, t);
    case WaitLookup(t, id) => WaitLookupInv(s, t, id);
    case WaitClaim(t) => WaitClaimInv(s, t);
    case WaitReceive(t) => ReceiveInv(s, t);
    case WaitCancel(t, err) => WaitCancelInv(s, t, err);
    case WaitRemove(t) => WaitRemoveInv(s, t);
    case WaitDrain(t) => WaitDrainInv(s, t);
    case WaitReset(t) => WaitResetInv(s, t);
    case CloseSnapshot(t, ps) => SnapshotInv(s, t, ps);
    case CloseDeliver(t) => CloseDeliverInv(s, t);
  }
}
