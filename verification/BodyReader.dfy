/** Reading a request body into a pooled buffer: internal/httpsrv/body_pool.go, and the size
    check of the handler in internal/httpsrv/server.go. */
module BodyReader {
  import opened Wrappers

  const MIN_CAP: nat := 4096
  const MAX_BODY: nat := 0x10_0000
  const MAX_POOLED_CAP: nat := MAX_BODY

  datatype Signal = NoError | Eof | Failure

  function Min(a: nat, b: nat): nat {
    if a < b then a else b
  }

  /** Any reader: it delivers `stream` in pieces of its own choosing and then signals the end,
      together with the last piece or after it; `fails` makes that end an error. It may also
      stall, that is return nothing with no error; `stalls` counts how often it did. */
  class Reader {
    const stream: seq<Byte>
    const fails: bool
    var pos: nat
    ghost var stalls: nat

    constructor (stream: seq<Byte>, fails: bool)
      ensures this.stream == stream && this.fails == fails
      ensures pos == 0 && stalls == 0
    {
      this.stream, this.fails, pos, stalls := stream, fails, 0, 0;
    }

    method Read(dst: array<Byte>, lo: nat, hi: nat) returns (n: nat, signal: Signal)
      requires pos <= |stream| && lo < hi <= dst.Length
      modifies this`pos, this`stalls, dst
      ensures n <= hi - lo && pos == old(pos) + n <= |stream|
      ensures dst[..lo + n] == old(dst[..lo]) + stream[old(pos)..pos]
      ensures stalls == old(stalls) + (if n == 0 && signal.NoError? then 1 else 0)
      ensures signal.Eof? ==> pos == |stream| && !fails
      ensures signal.Failure? ==> pos == |stream| && fails
    {
      var room := Min(hi - lo, |stream| - pos);
      n :| 0 <= n <= room;
      forall i | 0 <= i < n {
        dst[lo + i] := stream[pos + i];
      }
      pos := pos + n;
      signal := NoError;
      var now: bool :| true;
      if pos == |stream| && now {
        signal := if fails then Failure else Eof;
      }
      if n == 0 && signal.NoError? {
        stalls := stalls + 1;
      }
    }
  }

  /** io.LimitReader. */
  class LimitedReader {
    const r: Reader
    var left: nat

    constructor (r: Reader, limit: nat)
      ensures this.r == r && left == limit
    {
      this.r, left := r, limit;
    }

    method Read(dst: array<Byte>, lo: nat, hi: nat) returns (n: nat, signal: Signal)
      requires r.pos <= |r.stream| && lo < hi <= dst.Length
      modifies this`left, r`pos, r`stalls, dst
      ensures n <= hi - lo && n <= old(left) && left == old(left) - n
      ensures r.pos == old(r.pos) + n <= |r.stream|
      ensures dst[..lo + n] == old(dst[..lo]) + r.stream[old(r.pos)..r.pos]
      ensures r.stalls == old(r.stalls) + (if n == 0 && signal.NoError? then 1 else 0)
      ensures signal.Eof? ==> old(left) == 0 || (r.pos == |r.stream| && !r.fails)
      ensures signal.Failure? ==> r.pos == |r.stream| && r.fails
    {
      if left == 0 {
        return 0, Eof;
      }
      n, signal := r.Read(dst, lo, lo + Min(hi - lo, left));
      left := left - n;
    }
  }

  /** A pooled byte slice: its capacity is the length of `data`. */
  class Slice {
    var data: array<Byte>
    var len: nat

    constructor (capacity: nat)
      ensures fresh(data) && data.Length == capacity && len == 0
    {
      data, len := new Byte[capacity], 0;
    }

    ghost predicate Valid()
      reads this
    {
      len <= data.Length
    }

    ghost function Contents(): (s: seq<Byte>)
      requires Valid()
      reads this, data
    {
      data[..len]
    }
  }

  /** The buffer pool. It may hand out any buffer it holds or a new one. */
  class Pool {
    var free: set<Slice>

    constructor ()
      ensures Valid() && free == {}
    {
      free := {};
    }

    ghost predicate Valid()
      reads this, free
    {
      && (forall b :: b in free ==> b.len == 0 && 0 < b.data.Length <= MAX_POOLED_CAP)
      && (forall a, b :: a in free && b in free && a != b ==> a.data != b.data)
    }

    /** No pooled buffer is smaller than a new one. */
    ghost predicate Roomy()
      reads this, free
    {
      forall b :: b in free ==> MIN_CAP <= b.data.Length
    }

    /** No buffer still in the pool shares memory with `b`. */
    ghost predicate Exclusive(b: Slice)
      reads this, free, b
    {
      b !in free && (forall a :: a in free ==> a.data != b.data)
    }

    method Acquire() returns (b: Slice)
      requires Valid()
      modifies this
      ensures Valid() && Exclusive(b)
      ensures b.len == 0 && 0 < b.data.Length <= MAX_POOLED_CAP
      ensures old(Roomy()) ==> Roomy() && MIN_CAP <= b.data.Length
      ensures free == old(free) - {b} && (b in old(free) || (fresh(b) && fresh(b.data)))
    {
      var reuse: bool :| true;
      if reuse && free != {} {
        b :| b in free;
        free := free - {b};
      } else {
        b := new Slice(MIN_CAP);
      }
    }

    /** Without a buffer, with one that has no capacity, and with one that grew past the limit,
        the pool stays as it is. */
    method Release(b: Slice?)
      requires Valid() && (b != null ==> Exclusive(b))
      modifies this, b
      ensures Valid()
      ensures b == null || b.data.Length == 0 || b.data.Length > MAX_POOLED_CAP ==> free == old(free)
      ensures b != null ==> b.data == old(b.data)
      ensures b != null && 0 < b.data.Length <= MAX_POOLED_CAP ==> free == old(free) + {b} && b.len == 0
      ensures b != null && !(0 < b.data.Length <= MAX_POOLED_CAP) ==> b.len == old(b.len)
      ensures old(Roomy()) && (b != null && 0 < b.data.Length ==> MIN_CAP <= b.data.Length) ==> Roomy()
    {
      if b == null {
        return;
      }
      if b.data.Length == 0 || b.data.Length > MAX_POOLED_CAP {
        return;
      }
      b.len := 0;
      free := free + {b};
    }
  }

  function NewCap(capacity: nat, limit: nat): nat {
    Min(if capacity * 2 < MIN_CAP then MIN_CAP else capacity * 2, limit)
  }

  /** A full buffer below the limit always grows, at least doubling unless the limit stops it,
      so the loop never leaves through its no-growth guard. */
  lemma GrowthIsReal(capacity: nat, limit: nat)
    requires capacity < limit
    ensures capacity < NewCap(capacity, limit) <= limit
    ensures NewCap(capacity, limit) >= 2 * capacity || NewCap(capacity, limit) == limit
  {
  }

  method Grow(buf: array<Byte>, len: nat, newCap: nat) returns (nb: array<Byte>)
    requires len == buf.Length < newCap
    ensures fresh(nb) && nb.Length == newCap && nb[..len] == buf[..]
  {
    nb := new Byte[newCap];
    forall i | 0 <= i < len {
      nb[i] := buf[i];
    }
  }

  function Bound(limit: int): nat {
    if limit < 0 then 0 else limit
  }

  /** What a finished read leaves: the bytes read since `start`, in a buffer of its own. */
  ghost predicate HoldsBytesSince(pool: Pool, r: Reader, start: nat, b: Slice)
    reads pool, pool.free, r, b, b.data
  {
    && b.Valid() && pool.Exclusive(b)
    && start <= r.pos == start + b.len <= |r.stream|
    && b.Contents() == r.stream[start..r.pos]
  }

  lemma Joined(s: seq<Byte>, a: nat, b: nat, c: nat)
    requires a <= b <= c <= |s|
    ensures s[a..b] + s[b..c] == s[a..c]
  {
  }

  /** The reading loop: it fills `data`, or a larger copy of it, with the next bytes of `r`, and
      stops at the bound, at the end, or at the first stall. */
  method Fill(data: array<Byte>, r: Reader, bound: nat)
    returns (buf: array<Byte>, len: nat, failed: bool, ghost copied: nat)
    requires r.pos <= |r.stream|
    modifies r, data
    ensures (buf == data || fresh(buf)) && data.Length <= buf.Length && len <= buf.Length && len <= bound
    ensures r.pos == old(r.pos) + len <= |r.stream| && buf[..len] == r.stream[old(r.pos)..r.pos]
    ensures copied <= 2 * len
    ensures failed ==> r.fails && r.pos == |r.stream| && 0 < bound && r.stalls == old(r.stalls)
    ensures !failed && r.stalls == old(r.stalls) ==> len == bound || (r.pos == |r.stream| && !r.fails)
    ensures r.stalls == old(r.stalls) || (r.stalls == old(r.stalls) + 1 && len < bound)
  {
    buf, len, failed, copied := data, 0, false, 0;
    var lr := new LimitedReader(r, bound);
    while len < bound
      invariant len <= bound && len <= buf.Length && data.Length <= buf.Length
      invariant buf == data || fresh(buf)
      invariant r.pos == old(r.pos) + len <= |r.stream| && lr.r == r && lr.left == bound - len
      invariant r.stalls == old(r.stalls)
      invariant buf[..len] == r.stream[old(r.pos)..r.pos]
      invariant copied <= 2 * len && (copied <= buf.Length || buf.Length == bound)
    {
      if len == buf.Length {
        var newCap := NewCap(buf.Length, bound);
        if newCap <= buf.Length {
          break;
        }
        GrowthIsReal(buf.Length, bound);
        buf := Grow(buf, len, newCap);
        copied := copied + len;
      }
      ghost var before := r.pos;
      var n, signal := lr.Read(buf, len, buf.Length);
      len := len + n;
      Joined(r.stream, old(r.pos), before, r.pos);
      if signal.Eof? {
        break;
      }
      if signal.Failure? {
        failed := true;
        break;
      }
      if n == 0 {
        break;
      }
    }
  }

  /** readBodyPooled. The body is the next bytes of the reader; it is shorter than the limit and
      the rest of the stream allow exactly when the reader stalled before delivering the rest.
      Growing copies at most twice its length. */
  method ReadBodyPooled(pool: Pool, r: Reader, limit: int) returns (result: Result<Slice, ()>, ghost copied: nat)
    requires pool.Valid() && r.pos <= |r.stream|
    modifies pool, pool.free, r, set b | b in pool.free :: b.data
    ensures pool.Valid() && (old(pool.Roomy()) ==> pool.Roomy())
    ensures result.Ok? ==> HoldsBytesSince(pool, r, old(r.pos), result.value) && result.value.len <= Bound(limit)
    ensures result.Ok? && old(pool.Roomy()) ==> MIN_CAP <= result.value.data.Length
    ensures result.Ok? ==> copied <= 2 * result.value.len
    ensures result.Ok? ==>
              (result.value.len < Min(|r.stream| - old(r.pos), Bound(limit)) <==> r.stalls > old(r.stalls) && r.pos < |r.stream|)
    ensures r.stalls == old(r.stalls) || (result.Ok? && r.stalls == old(r.stalls) + 1)
    ensures result.Ok? && r.stalls == old(r.stalls) && r.fails ==> Bound(limit) <= |r.stream| - old(r.pos)
    ensures result.Err? ==> r.fails && |r.stream| - old(r.pos) <= limit && 0 < limit
    ensures result.Ok? ==> pool.free <= old(pool.free) && (result.value in old(pool.free) || fresh(result.value))
  {
    var bp := pool.Acquire();
    var buf, len, failed;
    buf, len, failed, copied := Fill(bp.data, r, Bound(limit));
    if failed {
      pool.Release(bp);
      return Err(()), copied;
    }
    bp.data, bp.len := buf, len;
    result := Ok(bp);
  }

  datatype Answer =
    | Accepted(body: seq<Byte>)
    | TooLarge       // 413
    | Unreadable     // 400

  /** The body check of serveData; the buffer is given back when the request ends. A stall cuts
      the body short, and the handler takes what came before it for the whole. */
  method ReadRequestBody(pool: Pool, r: Reader) returns (answer: Answer)
    requires pool.Valid() && r.pos == 0
    modifies pool, pool.free, r, set b | b in pool.free :: b.data
    ensures pool.Valid() && (old(pool.Roomy()) ==> pool.Roomy())
    ensures answer.TooLarge? ==> |r.stream| > MAX_BODY
    ensures answer.Unreadable? ==> r.fails && |r.stream| <= MAX_BODY + 1
    ensures answer.Accepted? ==> r.pos <= |r.stream| && r.pos <= MAX_BODY && answer.body == r.stream[..r.pos]
    ensures answer.Accepted? ==> (answer.body == r.stream && !r.fails) || r.stalls > old(r.stalls)
    ensures r.stalls == old(r.stalls) && !r.fails ==> (answer.TooLarge? <==> |r.stream| > 1024 * 1024)
    ensures r.stalls == old(r.stalls) && |r.stream| <= MAX_BODY ==>
              answer == if r.fails then Unreadable else Accepted(r.stream)
    ensures r.stalls == old(r.stalls) && |r.stream| > MAX_BODY + 1 ==> answer.TooLarge?
  {
    var result, _ := ReadBodyPooled(pool, r, MAX_BODY + 1);
    match result
    case Err(_) =>
      answer := Unreadable;
    case Ok(buf) =>
      var body := buf.data[..buf.len];
      assert body == r.stream[..r.pos];
      answer := if |body| > MAX_BODY then TooLarge else Accepted(body);
      pool.Release(buf);
  }
}
