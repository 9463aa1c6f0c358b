/** The loops of internal/transport/udp/sendbatch_write_linux.go and the drain loop of
    sendqueue.go, on job objects updated in place. What the socket does is a parameter. */
module SendBatch {
  import opened Wrappers
  import opened Batcher

  class SendJob {
    const payload: seq<Byte>
    const isIPv4: bool
    var errCh: Option<Answer>
    ghost var releases: nat

    constructor (payload: seq<Byte>, isIPv4: bool)
      ensures this.payload == payload && this.isIPv4 == isIPv4 && errCh == None && releases == 0
    {
      this.payload, this.isIPv4 := payload, isIPv4;
      errCh := None;
      releases := 0;
    }

    method Release()
      modifies this`releases
      ensures releases == old(releases) + 1
    {
      releases := releases + 1;
    }

    /** `errCh <- ans`; the slot is free, so it does not block. */
    method Answer(ans: Batcher.Answer)
      requires errCh.None?
      modifies this`errCh
      ensures errCh == Some(ans)
    {
      errCh := Some(ans);
    }
  }

  ghost predicate Distinct(jobs: seq<SendJob>) {
    forall i, k :: 0 <= i < k < |jobs| ==> jobs[i] != jobs[k]
  }

  /** What one socket write reports: bytes written, and whether there was an error. */
  datatype Write = Write(n: int, err: bool)

  /** The whole payload went out. */
  ghost predicate WentOut(j: SendJob, w: Write) {
    !w.err && w.n == |j.payload|
  }

  ghost predicate AllIPv4(jobs: seq<SendJob>) {
    forall i :: 0 <= i < |jobs| ==> jobs[i].isIPv4
  }

  /** The first job that is written on its own, given what WriteBatch reported. */
  ghost function FirstSingle(jobs: seq<SendJob>, n: nat, batchErr: bool): nat {
    if |jobs| < 2 || !AllIPv4(jobs) || batchErr then 0 else n
  }

  /** Job i is done with: its payload released once, its submitter answered. */
  ghost predicate IsSettled(j: SendJob, before: nat, ans: Answer)
    reads j
  {
    j.releases == before + 1 && j.errCh == Some(ans)
  }

  class Conn {
    constructor () {
    }

    /** WriteToUDP reports `w`; a short write counts as a failure. */
    method WriteOneJob(j: SendJob, w: Write)
      requires j.errCh.None?
      modifies j
      ensures IsSettled(j, old(j.releases), AnswerFor(WentOut(j, w)))
    {
      var err := w.err;
      if !err && w.n != |j.payload| {
        err := true;
      }
      j.Release();
      j.Answer(if err then WriteFailed else Sent);
    }

    /** writePayloadsBatch. WriteBatch reports n messages written and maybe an error;
        single[i] is what WriteToUDP reports if job i is written on its own. */
    method WritePayloadsBatch(jobs: seq<SendJob>, n: nat, batchErr: bool, single: seq<Write>)
      requires Distinct(jobs) && |single| == |jobs| && n <= |jobs|
      requires forall j :: j in jobs ==> j.errCh.None?
      modifies jobs
      ensures forall i :: 0 <= i < |jobs| ==>
                IsSettled(jobs[i], old(jobs[i].releases),
                        if i < FirstSingle(jobs, n, batchErr) then Sent else AnswerFor(WentOut(jobs[i], single[i])))
      ensures forall i :: 0 <= i < |jobs| ==>
                (jobs[i].errCh == Some(Sent)
                 <==> || (|jobs| >= 2 && (forall k :: 0 <= k < |jobs| ==> jobs[k].isIPv4) && !batchErr && i < n)
                      || (!single[i].err && single[i].n == |jobs[i].payload|))
    {
      if |jobs| == 0 {
        return;
      }
      if |jobs| == 1 {
        WriteOneJob(jobs[0], single[0]);
        return;
      }
      var allV4 := true;
      var k := 0;
      while k < |jobs| && allV4
        invariant k <= |jobs|
        invariant allV4 ==> forall i :: 0 <= i < k ==> jobs[i].isIPv4
        invariant !allV4 ==> !AllIPv4(jobs)
      {
        if !jobs[k].isIPv4 {
          allV4 := false;
        }
        k := k + 1;
      }
      var start := if !allV4 || batchErr then 0 else n;
      for i := 0 to start
        invariant forall m :: 0 <= m < i ==> IsSettled(jobs[m], old(jobs[m].releases), Sent)
        invariant forall m :: i <= m < |jobs| ==> jobs[m].errCh.None? && jobs[m].releases == old(jobs[m].releases)
      {
        jobs[i].Release();
        jobs[i].Answer(Sent);
      }
      for i := start to |jobs|
        invariant forall m :: 0 <= m < i ==>
                    IsSettled(jobs[m], old(jobs[m].releases), if m < start then Sent else AnswerFor(WentOut(jobs[m], single[m])))
        invariant forall m :: i <= m < |jobs| ==> jobs[m].errCh.None? && jobs[m].releases == old(jobs[m].releases)
      {
        WriteOneJob(jobs[i], single[i]);
      }
    }
  }

  class SendBatcher {
    const max: nat
    var ch: seq<SendJob>

    constructor (max: nat)
      ensures this.max == max && ch == []
    {
      this.max := max;
      ch := [];
    }

    /** drain moves waiting jobs to the buffer, in order, until it is full or none is waiting. */
    method Drain(buf: seq<SendJob>) returns (out: seq<SendJob>)
      modifies this`ch
      ensures out + ch == buf + old(ch)
      ensures |out| >= max || ch == []
      ensures |buf| >= max ==> out == buf
      ensures |buf| <= max ==> |out| <= max
    {
      out := buf;
      while |out| < max
        invariant out + ch == buf + old(ch)
        invariant |buf| >= max ==> out == buf
        invariant |buf| <= max ==> |out| <= max
        decreases max - |out|
      {
        if ch == [] {
          return;
        }
        assert (out + [ch[0]]) + ch[1..] == out + ch;
        out, ch := out + [ch[0]], ch[1..];
      }
    }
  }
}
