/** The waiter table of internal/transaction/manager.go. Each method is one critical
    section under Manager.mu; the step machine in module Protocol interleaves them. */
module Managers {
  import opened Wrappers
  import opened Pendings

  const WORD := 0x1_0000_0000_0000_0000

  datatype TableError = ErrManagerClosed | ErrTransactionExists | ErrUnknownTransaction

  /** Everything Manager.mu protects; `P` is whatever identifies a waiter object. */
  datatype Table<P> = Table(nextID: nat, closed: bool, wait: map<nat, P>)

  /** The counter after k increments of a uint64. */
  function Advance(n: nat, k: nat): nat {
    (n + k) % WORD
  }

  /** k is the number of increments the allocation loop makes: it stops at the first free id. */
  ghost predicate StopsAfter<P>(tab: Table<P>, k: nat) {
    && 1 <= k
    && Advance(tab.nextID, k) !in tab.wait
    && forall j :: 1 <= j < k ==> Advance(tab.nextID, j) in tab.wait
  }

  /** finish and Wait start with this lookup. */
  function Find<P>(tab: Table<P>, id: nat): Result<P, TableError> {
    if tab.closed then Err(ErrManagerClosed)
    else if id !in tab.wait then Err(ErrUnknownTransaction)
    else Ok(tab.wait[id])
  }

  function Insert<P>(tab: Table<P>, id: nat, p: P): Table<P> {
    tab.(wait := tab.wait[id := p])
  }

  function Delete<P>(tab: Table<P>, id: nat): Table<P> {
    tab.(wait := tab.wait - {id})
  }

  /** Close under the lock: no waiter stays reachable. */
  function Shut<P>(tab: Table<P>): Table<P> {
    tab.(closed := true, wait := map[])
  }

  lemma AdvanceStep(n: nat, k: nat)
    ensures Advance(Advance(n, k), 1) == Advance(n, k + 1)
  {
  }

  /** Fewer than 2^64 increments never return to the same id. */
  lemma AdvanceDistinct(n: nat, j: nat, k: nat)
    requires j < k < j + WORD
    ensures Advance(n, j) != Advance(n, k)
    ensures n < 0x1_0000_0000_0000_0000 ==> Advance(n, 1) == if n == 0xFFFF_FFFF_FFFF_FFFF then 0 else n + 1
  {
  }

  /** The ids of the first k increments. */
  ghost function Tried(n: nat, k: nat): set<nat> {
    set j | 1 <= j <= k :: Advance(n, j)
  }

  lemma TriedCount(n: nat, k: nat)
    requires k <= WORD
    ensures |Tried(n, k)| == k
  {
    if k == 0 {
      assert Tried(n, 0) == {};
    } else {
      TriedCount(n, k - 1);
      forall j | 1 <= j < k
        ensures Advance(n, j) != Advance(n, k)
      {
        AdvanceDistinct(n, j, k);
      }
      assert Tried(n, k) == Tried(n, k - 1) + {Advance(n, k)};
    }
  }

  lemma SubsetSize<T>(a: set<T>, b: set<T>)
    requires a <= b
    ensures |a| <= |b|
  {
    assert b == a + (b - a);
  }

  /** Pigeonhole: while fewer than 2^64 waiters exist, at most |wait| increments hit a taken id. */
  lemma TakenPrefixIsShort<P>(tab: Table<P>, k: nat)
    requires |tab.wait| < WORD
    requires forall j :: 1 <= j <= k ==> Advance(tab.nextID, j) in tab.wait
    ensures k <= |tab.wait|
  {
    if k > |tab.wait| {
      var m := |tab.wait| + 1;
      TriedCount(tab.nextID, m);
      assert Tried(tab.nextID, m) <= tab.wait.Keys;
      SubsetSize(Tried(tab.nextID, m), tab.wait.Keys);
    }
  }

  class Manager {
    var nextID: nat
    var closed: bool
    var wait: map<nat, Pending>

    ghost function View(): Table<Pending>
      reads this
    {
      Table(nextID, closed, wait)
    }

    constructor ()
      ensures View() == Table(0, false, map[])
    {
      nextID, closed, wait := 0, false, map[];
    }

    /** Every registered waiter has its own object and takes a delivery without blocking. */
    ghost predicate Valid()
      reads this, wait.Values
    {
      && (closed ==> wait == map[])
      && (forall i, k :: i in wait && k in wait && i != k ==> wait[i] != wait[k])
      && (forall p :: p in wait.Values ==> CanDeliver(p.View()))
    }

    /** The `id == 0` loop of Create. It ends after at most |wait| + 1 increments,
        across wrap-around, at the first free id. */
    method AllocateID() returns (id: nat, ghost k: nat)
      requires |wait| < WORD
      modifies this`nextID
      ensures StopsAfter(old(View()), k) && k <= |wait| + 1
      ensures id == Advance(old(nextID), k) && nextID == id
    {
      k := 0;
      id := nextID;
      ghost var start := nextID;
      ghost var tab := View();
      while true
        invariant k <= |wait|
        invariant nextID == if k == 0 then start else Advance(start, k)
        invariant forall j :: 1 <= j <= k ==> Advance(start, j) in wait
        decreases |wait| - k
      {
        AdvanceStep(start, k);
        nextID := Advance(nextID, 1);
        id := nextID;
        k := k + 1;
        if id !in wait {
          break;
        }
        TakenPrefixIsShort(tab, k);
      }
    }

    /** Create: `id == 0` asks for an id. `p` is the object acquirePending handed out. */
    method Create(wanted: nat, p: Pending) returns (r: Result<nat, TableError>)
      requires |wait| < WORD
      modifies this, p
      ensures closed ==> r == Err(ErrManagerClosed)
      ensures !closed && wanted != 0 && wanted in old(wait) ==> r == Err(ErrTransactionExists)
      ensures r.Err? ==> View() == old(View()) && p.View() == old(p.View())
      ensures r.Ok? ==> !closed && r.value !in old(wait) && p.View() == Cleared(r.value)
      ensures r.Ok? && wanted != 0 ==> r.value == wanted && View() == Insert(old(View()), wanted, p)
      ensures r.Ok? && wanted == 0 ==>
                && View() == Insert(old(View()).(nextID := r.value), r.value, p)
                && exists k: nat :: StopsAfter(old(View()), k) && k <= |old(wait)| + 1 && r.value == Advance(old(nextID), k)
      ensures r.Err? ==> closed || wanted in old(wait)
      ensures old(Valid()) && p !in old(wait.Values) ==> Valid()
    {
      if closed {
        return Err(ErrManagerClosed);
      }
      var id := wanted;
      if id == 0 {
        ghost var k;
        id, k := AllocateID();
      } else if id in wait {
        return Err(ErrTransactionExists);
      }
      p.Acquire(id);
      wait := wait[id := p];
      return Ok(id);
    }

    method Lookup(id: nat) returns (r: Result<Pending, TableError>)
      ensures r == Find(View(), id)
    {
      if closed {
        return Err(ErrManagerClosed);
      }
      if id !in wait {
        return Err(ErrUnknownTransaction);
      }
      return Ok(wait[id]);
    }

    method Remove(id: nat)
      modifies this`wait
      ensures View() == Delete(old(View()), id)
    {
      wait := wait - {id};
    }

    /** Close up to the unlock: the snapshot lists every waiter of the old table. */
    method CloseLocked() returns (won: bool, waiters: seq<Pending>)
      modifies this
      ensures won == !old(closed)
      ensures View() == if won then Shut(old(View())) else old(View())
      ensures won ==> forall p :: p in waiters <==> p in old(wait).Values
      ensures !won ==> waiters == []
    {
      waiters := [];
      if closed {
        return false, waiters;
      }
      closed := true;
      var ids := wait.Keys;
      ghost var seen := {};
      while ids != {}
        invariant closed && nextID == old(nextID) && wait == old(wait)
        invariant ids <= wait.Keys && seen == wait.Keys - ids
        invariant forall p :: p in waiters <==> exists id :: id in seen && wait[id] == p
      {
        var id :| id in ids;
        waiters := waiters + [wait[id]];
        ids := ids - {id};
        seen := seen + {id};
      }
      wait := map[];
      return true, waiters;
    }

    /** finish, when nobody else acts between its lookup and its delivery: only the waiter of
        this id changes, and only the first outcome gets through. */
    method Finish(id: nat, r: Outcome) returns (res: Result<(), TableError>)
      requires Valid()
      modifies wait.Values
      ensures Valid()
      ensures match Find(View(), id)
              case Err(e) => res == Err(e) && forall q :: q in wait.Values ==> q.View() == old(q.View())
              case Ok(p) =>
                && p.View() == Deliver(old(p.View()), r)
                && res == (if old(p.View()).done then Err(ErrUnknownTransaction) else Ok(()))
                && forall q :: q in wait.Values && q != p ==> q.View() == old(q.View())
    {
      var found := Lookup(id);
      if found.Err? {
        return Err(found.error);
      }
      var p := found.value;
      assert p in wait.Values;
      var ok := p.TryDeliver(r);
      return if ok then Ok(()) else Err(ErrUnknownTransaction);
    }

    /** Cancel: the id is free again whatever finish said, and an undelivered waiter holds Canceled. */
    method Cancel(id: nat) returns (res: Result<(), TableError>)
      requires Valid()
      modifies this`wait, wait.Values
      ensures Valid() && View() == Delete(old(View()), id)
      ensures forall q :: q in old(wait.Values) ==>
                q.View() == (if id in old(wait) && q == old(wait[id]) then Deliver(old(q.View()), Failed(Canceled)) else old(q.View()))
      ensures res.Ok? <==> id in old(wait) && !old(wait[id].View()).done
    {
      res := Finish(id, Failed(Canceled));
      Remove(id);
      assert forall q :: q in wait.Values ==> q in old(wait.Values);
    }

    /** Close: afterwards the table is empty, and every waiter it held has an outcome: the one
        delivered before, or ErrManagerClosed. A second Close changes nothing. */
    method Close()
      requires Valid()
      modifies this, wait.Values
      ensures Valid() && View() == if old(closed) then old(View()) else Shut(old(View()))
      ensures forall q :: q in old(wait.Values) ==> q.View() == Deliver(old(q.View()), Failed(ManagerClosed))
    {
      ghost var all := wait.Values;
      var won, waiters := CloseLocked();
      if !won {
        return;
      }
      for i := 0 to |waiters|
        invariant View() == Shut(old(View()))
        invariant forall q :: q in all && q in waiters[..i] ==> q.View() == Deliver(old(q.View()), Failed(ManagerClosed))
        invariant forall q :: q in all && q !in waiters[..i] ==> q.View() == old(q.View())
      {
        assert waiters[i] in all;
        assert waiters[..i + 1] == waiters[..i] + [waiters[i]];
        var _ := waiters[i].TryDeliver(Failed(ManagerClosed));
      }
      assert waiters[..|waiters|] == waiters;
    }
  }
}
