/** The writer's data structures as the C code keeps them: an array of job slots
    and a ring buffer of slot indexes, updated in place. Each method is proved
    to perform the corresponding step of StoreAsync. */
module AsyncWriter {
  import opened Common
  import opened Store
  import S = StoreAsync
  import opened StoreAsync

  /** The ring has room for one more slot whenever a slot is reserved. */
  lemma RoomToSubmit(w: Writer, slot: nat)
    requires Wf(w) && slot < DEPTH && w.jobs[slot].phase != Queued
    ensures |w.todo| < DEPTH
  {
    var s := w.todo + [slot];
    forall k, l | 0 <= k < l < |s| ensures s[k] != s[l] {
      if l < |w.todo| {
        assert w.jobs[w.todo[k]].ticket < w.jobs[w.todo[l]].ticket;
      }
    }
    DistinctFit(s, DEPTH);
  }

  /** The ring's contents, oldest first. */
  ghost function Window(q: seq<nat>, head: nat, count: nat): (r: seq<nat>)
    requires |q| == DEPTH
    ensures |r| == count
    ensures forall k :: 0 <= k < count ==> r[k] == q[(head + k) % DEPTH]
  {
    seq(count, k requires 0 <= k < count => q[(head + k) % DEPTH])
  }

  lemma WindowPush(q: seq<nat>, head: nat, count: nat, x: nat)
    requires |q| == DEPTH && head < DEPTH && count < DEPTH
    ensures Window(q[(head + count) % DEPTH := x], head, count + 1) == Window(q, head, count) + [x]
  {
    var r, r' := Window(q, head, count), Window(q[(head + count) % DEPTH := x], head, count + 1);
    forall k | 0 <= k < count ensures r'[k] == r[k] {
      assert (head + k) % DEPTH != (head + count) % DEPTH;
    }
  }

  lemma WindowPop(q: seq<nat>, head: nat, count: nat)
    requires |q| == DEPTH && head < DEPTH && 0 < count <= DEPTH
    ensures Window(q, (head + 1) % DEPTH, count - 1) == Window(q, head, count)[1..]
  {
  }

  /** The scan up to `i` has freed `t`: all finished slots seen so far, or the
      first `cap` of them when some had to be left. */
  ghost predicate Split(jobs: seq<Job>, t: seq<nat>, i: nat, cap: nat, leftover: bool)
    requires i <= |jobs|
  {
    && (forall k :: 0 <= k < |t| ==> t[k] < i)
    && (if leftover then |t| == cap && |DoneSlots(jobs, 0)| > cap && t == DoneSlots(jobs, 0)[..cap]
        else t + DoneSlots(jobs, i) == DoneSlots(jobs, 0))
  }

  lemma FreeOne(jobs: seq<Job>, t: seq<nat>, i: nat)
    requires i < |jobs| && i !in t
    ensures FreeAll(jobs, t + [i]) == FreeAll(jobs, t)[i := jobs[i].(phase := Free)]
  {
  }

  lemma SplitSkip(jobs: seq<Job>, t: seq<nat>, i: nat, cap: nat, leftover: bool)
    requires i < |jobs| && Split(jobs, t, i, cap, leftover) && jobs[i].phase != Done
    ensures Split(jobs, t, i + 1, cap, leftover)
  {
    assert DoneSlots(jobs, i) == DoneSlots(jobs, i + 1);
  }

  lemma SplitTake(jobs: seq<Job>, t: seq<nat>, i: nat, cap: nat, leftover: bool)
    requires i < |jobs| && Split(jobs, t, i, cap, leftover) && jobs[i].phase == Done && |t| < cap
    ensures Split(jobs, t + [i], i + 1, cap, leftover)
  {
    assert DoneSlots(jobs, i) == [i] + DoneSlots(jobs, i + 1);
    assert t + ([i] + DoneSlots(jobs, i + 1)) == (t + [i]) + DoneSlots(jobs, i + 1);
  }

  lemma SplitLeave(jobs: seq<Job>, t: seq<nat>, i: nat, cap: nat, leftover: bool)
    requires i < |jobs| && Split(jobs, t, i, cap, leftover) && jobs[i].phase == Done && |t| == cap
    ensures Split(jobs, t, i + 1, cap, true)
  {
    assert DoneSlots(jobs, i) == [i] + DoneSlots(jobs, i + 1);
  }

  lemma SplitStart(jobs: seq<Job>, cap: nat)
    ensures Split(jobs, [], 0, cap, false) && FreeAll(jobs, []) == jobs && Completions(jobs, []) == []
  {
    hide DoneSlots;
    assert [] + DoneSlots(jobs, 0) == DoneSlots(jobs, 0);
  }

  /** At the end of the table the scan has freed what a harvest takes. */
  lemma SplitEnd(jobs: seq<Job>, t: seq<nat>, cap: nat, leftover: bool)
    requires Split(jobs, t, |jobs|, cap, leftover) && |t| <= cap
    ensures t == Taken(jobs, cap) && leftover == (|DoneSlots(jobs, 0)| > cap)
  {
    NoneAfterEnd(jobs);
    hide DoneSlots;
    assert t + [] == t;
  }

  lemma NoneAfterEnd(jobs: seq<Job>)
    ensures DoneSlots(jobs, |jobs|) == []
  {
  }

  lemma CompletionsPush(jobs: seq<Job>, t: seq<nat>, i: nat)
    requires i < |jobs| && forall k :: 0 <= k < |t| ==> t[k] < |jobs|
    ensures Completions(jobs, t + [i]) == Completions(jobs, t) + [CompletionOf(jobs[i])]
  {
    assert (t + [i])[..|t|] == t;
  }

  class NvramWriter {
    const jobs: array<Job>
    const q: array<nat>
    var qHead: nat
    var qCount: nat
    /** The worker's locals: how far it is, and the slot it popped. */
    var worker: Worker
    var current: nat
    var shutdown: bool
    var readable: bool
    var issued: nat
    var oldest: nat

    ghost predicate Shape()
      reads this
    {
      jobs.Length == DEPTH && q.Length == DEPTH && qHead < DEPTH && qCount <= DEPTH
    }

    ghost function Abs(): Writer
      reads this, jobs, q
      requires Shape()
    {
      var ring := Window(q[..], qHead, qCount);
      Writer(jobs[..], if worker == Idle then ring else [current] + ring, worker,
             shutdown, readable, issued, oldest)
    }

    ghost predicate Valid()
      reads this, jobs, q
    {
      Shape() && Wf(Abs())
    }

    constructor ()
      ensures Valid() && fresh(jobs) && fresh(q)
      ensures forall i :: 0 <= i < DEPTH ==> Abs().jobs[i].phase == Free
      ensures Abs().todo == [] && Abs().worker == Idle && !Abs().shutdown && !Abs().readable
    {
      var empty := Job(Free, "", "", "", 0, 0, 0, Unchanged, 0);
      jobs := new Job[DEPTH](_ => empty);
      q := new nat[DEPTH](_ => 0);
      qHead, qCount, worker, current := 0, 0, Idle, 0;
      shutdown, readable, issued, oldest := false, false, 0, 0;
    }

    /** opc_store_async_reserve */
    method Reserve(path: string, len: nat) returns (r: Reservation)
      requires Valid()
      modifies jobs
      ensures Valid()
      ensures (Abs(), r) == S.Reserve(old(Abs()), path, len)
    {
      ghost var w := Abs();
      ReserveQuiet(w, path, len);
      QuietWf(w, S.Reserve(w, path, len).0);
      if len > DATA_MAX { return TooBig; }
      if |path| >= PATH_CAP { return NameTooLong; }
      if shutdown { return Canceled; }
      var i := 0;
      while i < DEPTH && jobs[i].phase != Free
        invariant 0 <= i <= DEPTH
        invariant forall k :: 0 <= k < i ==> jobs[k].phase != Free
      {
        i := i + 1;
      }
      assert i == FirstFree(jobs[..], 0);
      if i == DEPTH { return Full; }
      jobs[i] := jobs[i].(path := path, echo := "", len := len, phase := Reserved);
      return Slot(i);
    }

    /** opc_store_async_cancel */
    method Cancel(slot: int)
      requires Valid()
      modifies jobs
      ensures Valid() && Abs() == S.Cancel(old(Abs()), slot)
    {
      QuietWf(Abs(), S.Cancel(Abs(), slot));
      if 0 <= slot < DEPTH && jobs[slot].phase == Reserved {
        jobs[slot] := jobs[slot].(phase := Free);
      }
    }

    /** Append a slot to the ring. */
    method Enqueue(slot: nat)
      requires Shape() && qCount < DEPTH
      modifies this`qCount, q
      ensures Shape() && qCount == old(qCount) + 1
      ensures Window(q[..], qHead, qCount) == Window(old(q[..]), qHead, old(qCount)) + [slot]
    {
      WindowPush(q[..], qHead, qCount, slot);
      ghost var was := q[..];
      var at := (qHead + qCount) % DEPTH;
      q[at] := slot;
      assert q[..] == was[at := slot];
      qCount := qCount + 1;
    }

    /** Fill the reserved slot and queue it. */
    method Fill(slot: nat, data: string, token: nat)
      requires Shape() && qCount < DEPTH && CanSubmit(Abs(), slot, data)
      modifies this`qCount, this`issued, jobs, q
      ensures Shape() && Abs() == Submit(old(Abs()), slot, data, token)
    {
      jobs[slot] := jobs[slot].(data := data, len := |data|, token := token, rc := 0,
                                outcome := Unchanged, phase := Queued, ticket := issued);
      Enqueue(slot);
      issued := issued + 1;
      assert Abs().todo == old(Abs()).todo + [slot];
    }

    /** opc_store_async_submit_reserved; the ring never overflows. */
    method SubmitReserved(slot: int, data: string, token: nat) returns (ok: bool)
      requires Valid()
      modifies this`qCount, this`issued, jobs, q
      ensures Valid() && ok == CanSubmit(old(Abs()), slot, data)
      ensures Abs() == if ok then Submit(old(Abs()), slot, data, token) else old(Abs())
    {
      SubmitWf(Abs(), slot, data, token);
      if !(0 <= slot < DEPTH) || shutdown || jobs[slot].phase != Reserved || |data| > jobs[slot].len {
        return false;
      }
      RoomToSubmit(Abs(), slot);
      Fill(slot, data, token);
      return true;
    }

    /** opc_store_async_submit_echo: reserve, name the echo, submit. */
    method SubmitEcho(path: string, echo: string, data: string, token: nat) returns (ok: bool)
      requires Valid()
      modifies this, jobs, q
      ensures Valid()
      ensures ok == (|echo| < PATH_CAP && S.Reserve(old(Abs()), path, |data|).1.Slot?)
      ensures Abs() == if ok then EchoSubmitted(old(Abs()), path, echo, data, token) else old(Abs())
    {
      hide Abs, Ordered, Submit, SetEcho;
      if |echo| >= PATH_CAP { return false; }
      var r := Reserve(path, |data|);
      if !r.Slot? { return false; }
      NameEcho(r.slot, echo);
      EchoedCanSubmit(S.Reserve(old(Abs()), path, |data|).0, r.slot, echo, data);
      ok := SubmitReserved(r.slot, data, token);
    }

    method NameEcho(slot: nat, echo: string)
      requires Valid() && slot < DEPTH && Abs().jobs[slot].phase == Reserved
      modifies jobs
      ensures Valid() && Abs() == SetEcho(old(Abs()), slot, echo)
    {
      QuietWf(Abs(), SetEcho(Abs(), slot, echo));
      jobs[slot] := jobs[slot].(echo := echo);
    }

    /** Remove the oldest slot of the ring. */
    method Dequeue() returns (slot: nat)
      requires Shape() && qCount > 0
      modifies this`qHead, this`qCount
      ensures Shape() && qCount == old(qCount) - 1
      ensures Window(q[..], old(qHead), old(qCount)) == [slot] + Window(q[..], qHead, qCount)
    {
      WindowPop(q[..], qHead, qCount);
      slot := q[qHead];
      qHead := (qHead + 1) % DEPTH;
      qCount := qCount - 1;
    }

    method PopRing()
      requires Shape() && worker == Idle && qCount > 0
      modifies this`qHead, this`qCount, this`worker, this`current
      ensures Shape() && Abs() == Pop(old(Abs()))
    {
      current := Dequeue();
      worker := Popped;
    }

    /** Worker: pop the ring. */
    method Take() returns (found: bool)
      requires Valid() && worker == Idle
      modifies this`qHead, this`qCount, this`worker, this`current
      ensures Valid() && Abs() == Pop(old(Abs())) && found == (old(Abs()).todo != [])
    {
      found := qCount > 0;
      if found {
        PopRing();
      }
    }

    /** Worker: the unlocked file write returned. */
    method Returned(o: Outcome)
      requires Valid() && worker == Popped
      modifies this
      ensures Valid() && Abs() == WriteReturned(old(Abs()), o)
    {
      worker := Wrote(o);
    }

    /** Worker: publish the result and signal. */
    method Finished()
      requires Valid() && worker.Wrote?
      modifies this`worker, this`readable, this`oldest, jobs
      ensures Valid() && Abs() == Publish(old(Abs()))
    {
      PublishWf(Abs());
      Store();
    }

    method Store()
      requires Shape() && worker.Wrote? && Listed(Abs())
      modifies this`worker, this`readable, this`oldest, jobs
      ensures Shape() && Abs() == Publish(old(Abs()))
    {
      var o := worker.outcome;
      assert current == Abs().todo[0];
      oldest := jobs[current].ticket + 1;
      jobs[current] := jobs[current].(rc := RcOf(o), outcome := o, phase := Done);
      worker := Idle;
      readable := true;
      assert Abs().todo == old(Abs()).todo[1..];
    }

    /** opc_store_async_drain: clear the event, then scan the table once. */
    method Drain(cap: nat) returns (out: seq<Completion>)
      requires Valid() && cap > 0
      modifies this`readable, jobs
      ensures Valid()
      ensures Abs() == Harvest(ClearEvent(old(Abs())), cap)
      ensures out == Harvested(old(Abs()), cap)
    {
      HarvestWf(ClearEvent(Abs()), cap);
      out := Collect(cap);
    }

    method Collect(cap: nat) returns (out: seq<Completion>)
      requires Shape()
      modifies this`readable, jobs
      ensures Shape() && Abs() == Harvest(ClearEvent(old(Abs())), cap)
      ensures out == Harvested(old(Abs()), cap)
    {
      readable := false;
      var leftover: bool;
      out, leftover := Scan(cap);
      if leftover {
        readable := true;
      }
    }

    /** The scan of the table under the mutex. */
    method Scan(cap: nat) returns (out: seq<Completion>, leftover: bool)
      requires jobs.Length == DEPTH
      modifies jobs
      ensures leftover == (|DoneSlots(old(jobs[..]), 0)| > cap)
      ensures jobs[..] == FreeAll(old(jobs[..]), Taken(old(jobs[..]), cap))
      ensures out == Completions(old(jobs[..]), Taken(old(jobs[..]), cap))
    {
      hide Split, FreeAll, Completions, Taken, DoneSlots;
      out, leftover := [], false;
      ghost var was := jobs[..];
      ghost var freed: seq<nat> := [];
      SplitStart(was, cap);
      for i := 0 to DEPTH
        invariant Scanned(was, freed, i, cap, out, leftover)
      {
        out, leftover, freed := ScanSlot(i, cap, out, leftover, was, freed);
      }
      SplitEnd(was, freed, cap, leftover);
    }

    /** The scan is at slot `i`, having freed `freed` into `out`. */
    ghost predicate Scanned(was: seq<Job>, freed: seq<nat>, i: nat, cap: nat,
                            out: seq<Completion>, leftover: bool)
      reads jobs
    {
      && jobs.Length == |was| == DEPTH && i <= DEPTH && |freed| <= cap
      && Split(was, freed, i, cap, leftover)
      && jobs[..] == FreeAll(was, freed) && out == Completions(was, freed)
    }

    method ScanSlot(i: nat, cap: nat, out: seq<Completion>, leftover: bool,
                    ghost was: seq<Job>, ghost freed: seq<nat>)
      returns (out': seq<Completion>, leftover': bool, ghost freed': seq<nat>)
      requires i < DEPTH && Scanned(was, freed, i, cap, out, leftover)
      modifies jobs
      ensures Scanned(was, freed', i + 1, cap, out', leftover')
    {
      out', leftover', freed' := out, leftover, freed;
      if jobs[i].phase != Done {
        SplitSkip(was, freed, i, cap, leftover);
      } else if |out| < cap {
        SplitTake(was, freed, i, cap, leftover);
        var c := FreeSlot(i, was, freed);
        out', freed' := out + [c], freed + [i];
      } else {
        SplitLeave(was, freed, i, cap, leftover);
        leftover' := true;
      }
    }

    method FreeSlot(i: nat, ghost was: seq<Job>, ghost freed: seq<nat>) returns (c: Completion)
      requires jobs.Length == |was| && i < |was| && i !in freed
      requires forall k :: 0 <= k < |freed| ==> freed[k] < |was|
      requires jobs[..] == FreeAll(was, freed)
      modifies jobs
      ensures jobs[..] == FreeAll(was, freed + [i])
      ensures Completions(was, freed + [i]) == Completions(was, freed) + [c]
    {
      FreeOne(was, freed, i);
      CompletionsPush(was, freed, i);
      c := CompletionOf(jobs[i]);
      jobs[i] := jobs[i].(phase := Free);
    }

    /** opc_store_async_finish: stop admission. The join that follows returns
        once the worker has emptied `todo`. */
    method Stop()
      requires Valid()
      modifies this`shutdown
      ensures Valid() && Abs() == old(Abs()).(shutdown := true)
    {
      shutdown := true;
    }
  }

  lemma EchoedCanSubmit(w: Writer, slot: nat, echo: string, data: string)
    requires |w.jobs| == DEPTH && slot < DEPTH && CanSubmit(w, slot, data)
    ensures |SetEcho(w, slot, echo).jobs| == DEPTH && CanSubmit(SetEcho(w, slot, echo), slot, data)
  {
  }

  function EchoSubmitted(w: Writer, path: string, echo: string, data: string, token: nat): Writer
    requires |w.jobs| == DEPTH
  {
    var (w1, r) := S.Reserve(w, path, |data|);
    if r.Slot? then Submit(SetEcho(w1, r.slot, echo), r.slot, data, token) else w
  }
}
