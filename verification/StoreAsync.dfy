/** The asynchronous NVRAM writer (opcd/store_async.c): a fixed table of job
    slots, a FIFO of slots for the single worker thread, and an eventfd.
    Every function below is one critical section of the mutex (or one unlocked
    action of a thread), so any interleaving of the two threads is a sequence
    of these steps. */
module StoreAsync {
  import opened Store

  const DEPTH: nat := 16
  const DATA_MAX: nat := 24576
  const PATH_CAP: nat := 1024

  datatype Phase = Free | Reserved | Queued | Done

  /** A job slot. `ticket` numbers the submissions; only the proofs read it. */
  datatype Job = Job(phase: Phase, path: string, echo: string, data: string, len: nat,
                     token: nat, rc: int, outcome: Outcome, ticket: nat)

  /** What the worker thread is doing outside the mutex with the oldest job:
      nothing yet, writing its file, or done writing it. */
  datatype Worker = Idle | Popped | Wrote(outcome: Outcome)

  /** `todo` lists the slots the worker has not finished, oldest first; the one
      the worker has popped is still its head. `issued` counts the jobs
      submitted so far; tickets below `oldest` are finished. */
  datatype Writer = Writer(jobs: seq<Job>, todo: seq<nat>, worker: Worker,
                           shutdown: bool, readable: bool, issued: nat, oldest: nat)

  datatype Reservation = Slot(slot: nat) | TooBig | NameTooLong | Canceled | Full

  datatype Completion = Completion(token: nat, rc: int, outcome: Outcome)

  predicate Active(j: Job) {
    j.phase == Queued || j.phase == Done
  }

  /** The unfinished slots are exactly the queued ones. */
  ghost predicate Listed(w: Writer) {
    && |w.jobs| == DEPTH
    && (w.todo == [] ==> w.worker == Idle)
    && (forall k :: 0 <= k < |w.todo| ==> w.todo[k] < DEPTH && w.jobs[w.todo[k]].phase == Queued)
    && (forall i :: 0 <= i < DEPTH && w.jobs[i].phase == Queued ==> i in w.todo)
  }

  /** Finished slots hold older tickets than unfinished ones, which are listed
      oldest first. */
  ghost predicate Ordered(w: Writer)
    requires Listed(w)
  {
    && w.oldest <= w.issued
    && (forall k, l :: 0 <= k < l < |w.todo| ==> w.jobs[w.todo[k]].ticket < w.jobs[w.todo[l]].ticket)
    && (forall i :: 0 <= i < DEPTH && w.jobs[i].phase == Queued ==> w.oldest <= w.jobs[i].ticket < w.issued)
    && (forall i :: 0 <= i < DEPTH && w.jobs[i].phase == Done ==> w.jobs[i].ticket < w.oldest)
  }

  ghost predicate Wf(w: Writer) {
    Listed(w) && Ordered(w)
  }

  /** Least free slot at or after `i`; the table size when there is none. */
  function FirstFree(jobs: seq<Job>, i: nat): (r: nat)
    requires i <= |jobs|
    ensures i <= r <= |jobs|
    ensures r < |jobs| ==> jobs[r].phase == Free
    ensures forall k :: i <= k < r ==> jobs[k].phase != Free
    decreases |jobs| - i
  {
    if i == |jobs| || jobs[i].phase == Free then i else FirstFree(jobs, i + 1)
  }

  function Reserve(w: Writer, path: string, len: nat): (Writer, Reservation)
    requires |w.jobs| == DEPTH
  {
    if len > DATA_MAX then (w, TooBig)
    else if |path| >= PATH_CAP then (w, NameTooLong)
    else if w.shutdown then (w, Canceled)
    else
      var i := FirstFree(w.jobs, 0);
      if i == DEPTH then (w, Full)
      else (w.(jobs := w.jobs[i := w.jobs[i].(path := path, echo := "", len := len, phase := Reserved)]),
            Slot(i))
  }

  /** A reservation is given exactly to a job that fits, while the writer runs and a
      slot is free: a free slot, for the path and size asked for and without an echo,
      and no other slot changes. Cancelling it gives the slot back. */
  lemma ReserveGives(w: Writer, path: string, len: nat)
    requires |w.jobs| == DEPTH
    ensures var (w', v) := Reserve(w, path, len);
            && (v.Slot? <==>
                  && len <= 24576 && |path| < 1024 && !w.shutdown
                  && exists i :: 0 <= i < DEPTH && w.jobs[i].phase == Free)
            && (v.Slot? ==>
                  && v.slot < DEPTH && w.jobs[v.slot].phase == Free
                  && w'.jobs[v.slot].phase == Reserved && w'.jobs[v.slot].path == path
                  && w'.jobs[v.slot].echo == "" && w'.jobs[v.slot].len == len
                  && Cancel(w', v.slot).jobs[v.slot].phase == Free)
            && (forall i :: 0 <= i < DEPTH && !(v.Slot? && i == v.slot) ==> w'.jobs[i] == w.jobs[i])
            && w'.todo == w.todo && w'.worker == w.worker && w'.issued == w.issued
  {
  }

  function Cancel(w: Writer, slot: int): Writer
    requires |w.jobs| == DEPTH
  {
    if 0 <= slot < DEPTH && w.jobs[slot].phase == Reserved
    then w.(jobs := w.jobs[slot := w.jobs[slot].(phase := Free)])
    else w
  }

  function SetEcho(w: Writer, slot: nat, echo: string): Writer
    requires |w.jobs| == DEPTH && slot < DEPTH
  {
    w.(jobs := w.jobs[slot := w.jobs[slot].(echo := echo)])
  }

  predicate CanSubmit(w: Writer, slot: int, data: string)
    requires |w.jobs| == DEPTH
  {
    0 <= slot < DEPTH && !w.shutdown && w.jobs[slot].phase == Reserved && |data| <= w.jobs[slot].len
  }

  /** The reserved slot becomes the youngest job. */
  function Submit(w: Writer, slot: int, data: string, token: nat): Writer
    requires |w.jobs| == DEPTH
  {
    if !CanSubmit(w, slot, data) then w
    else w.(jobs := w.jobs[slot := w.jobs[slot].(data := data, len := |data|, token := token, rc := 0,
                                                 outcome := Unchanged, phase := Queued,
                                                 ticket := w.issued)],
            todo := w.todo + [slot], issued := w.issued + 1)
  }

  /** Worker: take the oldest queued slot. */
  function Pop(w: Writer): Writer {
    if w.worker == Idle && w.todo != [] then w.(worker := Popped) else w
  }

  /** Worker: the file write of the popped job returned. */
  function WriteReturned(w: Writer, o: Outcome): Writer {
    if w.worker == Popped then w.(worker := Wrote(o)) else w
  }

  function RcOf(o: Outcome): int {
    if o == Durable then 0 else -1
  }

  /** Worker: store the result and signal the eventfd. */
  function Publish(w: Writer): Writer
    requires Listed(w)
  {
    if !w.worker.Wrote? then w
    else
      var i, o := w.todo[0], w.worker.outcome;
      w.(jobs := w.jobs[i := w.jobs[i].(rc := RcOf(o), outcome := o, phase := Done)],
         todo := w.todo[1..], worker := Idle, readable := true,
         oldest := w.jobs[i].ticket + 1)
  }

  /** Slots holding a finished job at or after `i`, in table order. */
  function DoneSlots(jobs: seq<Job>, i: nat): (r: seq<nat>)
    requires i <= |jobs|
    ensures forall k :: 0 <= k < |r| ==> i <= r[k] < |jobs|
    decreases |jobs| - i
  {
    if i == |jobs| then []
    else if jobs[i].phase == Done then [i] + DoneSlots(jobs, i + 1)
    else DoneSlots(jobs, i + 1)
  }

  lemma {:induction false} DoneSlotsAre(jobs: seq<Job>, i: nat)
    requires i <= |jobs|
    ensures var r := DoneSlots(jobs, i);
            && (forall k :: 0 <= k < |r| ==> jobs[r[k]].phase == Done)
            && (forall k :: i <= k < |jobs| && jobs[k].phase == Done ==> k in r)
            && |r| <= |jobs| - i
    decreases |jobs| - i
  {
    if i < |jobs| { DoneSlotsAre(jobs, i + 1); }
  }

  ghost predicate Rising(s: seq<nat>) {
    forall k, l :: 0 <= k < l < |s| ==> s[k] < s[l]
  }

  lemma {:induction false} DoneSlotsRise(jobs: seq<Job>, i: nat)
    requires i <= |jobs|
    ensures Rising(DoneSlots(jobs, i))
    decreases |jobs| - i
  {
    if i < |jobs| {
      DoneSlotsRise(jobs, i + 1);
      var r, t := DoneSlots(jobs, i), DoneSlots(jobs, i + 1);
      if jobs[i].phase == Done {
        assert r == [i] + t;
        forall k, l | 0 <= k < l < |r| ensures r[k] < r[l] {
          assert r[l] == t[l - 1];
          if k == 0 {
            assert r[k] == i;
          } else {
            assert r[k] == t[k - 1] < t[l - 1];
          }
        }
      } else {
        assert r == t;
      }
    }
  }

  function Taken(jobs: seq<Job>, cap: nat): (r: seq<nat>)
    ensures forall k :: 0 <= k < |r| ==> r[k] < |jobs|
  {
    var d := DoneSlots(jobs, 0);
    if |d| <= cap then d else d[..cap]
  }

  lemma TakenDone(jobs: seq<Job>, cap: nat)
    ensures forall k :: 0 <= k < |Taken(jobs, cap)| ==> jobs[Taken(jobs, cap)[k]].phase == Done
  {
    DoneSlotsAre(jobs, 0);
  }

  /** Main thread: read the eventfd, before the mutex is taken. */
  function ClearEvent(w: Writer): Writer {
    w.(readable := false)
  }

  function CompletionOf(j: Job): Completion {
    Completion(j.token, j.rc, j.outcome)
  }

  function FreeAll(jobs: seq<Job>, t: seq<nat>): (r: seq<Job>)
    ensures |r| == |jobs|
    ensures forall i :: 0 <= i < |jobs| ==>
              r[i] == if i in t then jobs[i].(phase := Free) else jobs[i]
  {
    seq(|jobs|, i requires 0 <= i < |jobs| => if i in t then jobs[i].(phase := Free) else jobs[i])
  }

  /** Main thread: free up to `cap` finished slots; re-arm the eventfd for the rest. */
  function Harvest(w: Writer, cap: nat): Writer {
    w.(jobs := FreeAll(w.jobs, Taken(w.jobs, cap)),
       readable := w.readable || |DoneSlots(w.jobs, 0)| > cap)
  }

  function Completions(jobs: seq<Job>, t: seq<nat>): (r: seq<Completion>)
    requires forall k :: 0 <= k < |t| ==> t[k] < |jobs|
    ensures |r| == |t|
    ensures forall k :: 0 <= k < |t| ==> r[k] == CompletionOf(jobs[t[k]])
  {
    if t == [] then [] else Completions(jobs, t[..|t| - 1]) + [CompletionOf(jobs[t[|t| - 1]])]
  }

  /** What that harvest hands to the caller. */
  function Harvested(w: Writer, cap: nat): seq<Completion> {
    Completions(w.jobs, Taken(w.jobs, cap))
  }

  // ---- Every step keeps the table well formed ------------------------------

  /** Only slots that are neither queued nor finished changed. */
  ghost predicate Quiet(w: Writer, w': Writer)
    requires |w.jobs| == DEPTH
  {
    && |w'.jobs| == DEPTH && w' == w.(jobs := w'.jobs)
    && (forall i :: 0 <= i < DEPTH && (Active(w.jobs[i]) || Active(w'.jobs[i])) ==>
          w'.jobs[i] == w.jobs[i])
  }

  lemma QuietWf(w: Writer, w': Writer)
    requires Wf(w) && Quiet(w, w')
    ensures Wf(w')
  {
  }

  lemma ReserveQuiet(w: Writer, path: string, len: nat)
    requires |w.jobs| == DEPTH
    ensures Quiet(w, Reserve(w, path, len).0)
  {
  }

  lemma SubmitListed(w: Writer, slot: int, data: string, token: nat)
    requires Listed(w)
    ensures Listed(Submit(w, slot, data, token))
  {
    if CanSubmit(w, slot, data) {
      var w' := Submit(w, slot, data, token);
      assert w'.todo[|w.todo|] == slot;
      assert forall i :: i in w.todo ==> i in w'.todo;
    }
  }

  lemma SubmitWf(w: Writer, slot: int, data: string, token: nat)
    requires Wf(w)
    ensures Wf(Submit(w, slot, data, token))
  {
    SubmitListed(w, slot, data, token);
  }

  lemma PublishListed(w: Writer)
    requires Wf(w)
    ensures Listed(Publish(w))
  {
    if w.worker.Wrote? {
      var w' := Publish(w);
      forall k | 0 <= k < |w'.todo| ensures w'.todo[k] == w.todo[k + 1] != w.todo[0] {}
      forall i | 0 <= i < DEPTH && w'.jobs[i].phase == Queued ensures i in w'.todo {
        var k :| 0 <= k < |w.todo| && w.todo[k] == i;
        assert w'.todo[k - 1] == i;
      }
    }
  }

  lemma HeadOldest(w: Writer, i: nat)
    requires Wf(w) && i < DEPTH && w.jobs[i].phase == Queued
    ensures w.todo != [] && (i == w.todo[0] || w.jobs[w.todo[0]].ticket < w.jobs[i].ticket)
  {
    var k :| 0 <= k < |w.todo| && w.todo[k] == i;
  }

  lemma PublishWf(w: Writer)
    requires Wf(w)
    ensures Wf(Publish(w))
  {
    PublishListed(w);
    if w.worker.Wrote? {
      var w' := Publish(w);
      forall i | 0 <= i < DEPTH && w'.jobs[i].phase == Queued ensures w'.oldest <= w'.jobs[i].ticket {
        HeadOldest(w, i);
      }
      assert forall k :: 0 <= k < |w'.todo| ==>
          w'.todo[k] == w.todo[k + 1] && w'.jobs[w'.todo[k]] == w.jobs[w.todo[k + 1]];
    }
  }

  lemma HarvestWf(w: Writer, cap: nat)
    requires Wf(w)
    ensures Wf(Harvest(w, cap))
  {
    TakenDone(w.jobs, cap);
  }
}
