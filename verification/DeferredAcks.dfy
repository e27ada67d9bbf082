/** The main thread's side of the persistence machinery as the C code keeps it:
    a table of pending acknowledgements scanned by loops, and the writer object.
    Each method is proved to perform the corresponding step of Persistence. */
module DeferredAcks {
  import opened Store
  import opened StoreAsync
  import opened AsyncWriter
  import opened Persistence
  import opened PersistenceRuns

  /** persist_admit with its single retry after a harvest. */
  ghost function AdmitTwice(s: Daemon, r: Resource, len: nat, o: Outcome, echoed: bool): (Daemon, Admission)
    requires Inv(s) && s.batch == [] && s.held.NoHold?
  {
    var first := Admit(s, r, len);
    if first.1 != Saturated then first
    else Admit(ProcessAll(Step(s, EvDrain), o, echoed), r, len)
  }

  /** The retry is never needed. */
  lemma OneAttemptIsEnough(s: Daemon, r: Resource, len: nat, o: Outcome, echoed: bool)
    requires Inv(s) && s.batch == [] && s.held.NoHold?
    ensures AdmitTwice(s, r, len, o, echoed) == Admit(s, r, len)
  {
    SlotAvailable(s.w, s.acks, s.held);
    FewPending(s.acks);
    AdmitVerdict(s, r, len);
  }

  class Handler {
    const acks: array<Ack>
    const writer: NvramWriter
    const paths: Paths
    const missing: Settings
    var held: Held
    var running: bool
    var gen: nat
    var mem: Settings
    var cand: Settings
    var disk: map<string, string>
    /** Every accepted request. The code keeps none; the number of a request here
        is the name its acknowledgement has in the model. */
    var log: seq<Request>
    /** History; the code keeps none of these either. */
    ghost var slotOf: seq<nat>
    ghost var at: seq<nat>
    ghost var answers: map<nat, Answer>
    ghost var fate: map<nat, Outcome>

    ghost predicate Shape()
      reads this, writer, writer.jobs, writer.q, acks
    {
      acks.Length == ACK_MAX && writer.Valid()
    }

    /** The daemon's state with `batch` still to be reconciled. */
    ghost function Abs(batch: seq<Completion>): Daemon
      reads this, writer, writer.jobs, writer.q, acks
      requires Shape()
    {
      Daemon(writer.Abs(), acks[..], batch, held, running, gen, mem, cand, disk, paths, missing,
             log, slotOf, at, answers, fate)
    }

    ghost predicate Valid()
      reads this, writer, writer.jobs, writer.q, acks
    {
      Shape() && Inv(Abs([]))
    }

    /** Start-up: memory holds what the files show. */
    constructor (p: Paths, unset: Settings, files: map<string, string>)
      requires Distinct(p)
      ensures Shape() && Init(Abs([])) && fresh(acks) && fresh(writer) && fresh(writer.jobs) && fresh(writer.q)
    {
      acks := new Ack[ACK_MAX](_ => Unused);
      writer := new NvramWriter();
      paths, missing, disk := p, unset, files;
      held, running, gen := NoHold, true, 0;
      mem := Settings(Shown(files, p.password, unset.password), Shown(files, p.ipList, unset.ipList));
      cand := Settings("", "");
      log, slotOf, answers, fate := [], [], map[], map[];
      at := seq(ACK_MAX, _ => 0);
    }

    /** pending_ack_alloc */
    method PendingAckAlloc() returns (slot: int)
      requires acks.Length == ACK_MAX
      ensures slot == if FirstUnused(acks[..], 0) == ACK_MAX then -1 else FirstUnused(acks[..], 0)
    {
      var i := 0;
      while i < ACK_MAX
        invariant 0 <= i <= ACK_MAX
        invariant forall k :: 0 <= k < i ==> acks[k].InUse?
      {
        if acks[i].Unused? {
          assert acks[..][i].Unused? && FirstUnused(acks[..], 0) == i;
          return i;
        }
        i := i + 1;
      }
      assert forall k :: 0 <= k < ACK_MAX ==> acks[..][k].InUse?;
      return -1;
    }

    /** persist_resource_busy */
    method ResourceBusy(r: Resource) returns (busy: bool)
      requires acks.Length == ACK_MAX
      ensures busy == Busy(acks[..], r)
    {
      var i := 0;
      while i < ACK_MAX
        invariant 0 <= i <= ACK_MAX
        invariant forall k :: 0 <= k < i ==> !(acks[k].InUse? && acks[k].req.res == r)
      {
        if acks[i].InUse? && acks[i].req.res == r {
          assert acks[..][i].InUse?;
          return true;
        }
        i := i + 1;
      }
      return false;
    }

    /** persist_blob */
    method PersistBlob(req: Request, data: string) returns (deferred: bool)
      requires Valid() && held.Hold? && req.res == held.res
      modifies this, acks, writer, writer.jobs, writer.q
      ensures Valid() && Abs([]) == Accept(old(Abs([])), req, data)
      ensures deferred == (log != old(log))
    {
      AcceptKeeps(Abs([]), req, data);
      deferred := Blob(req, data);
    }

    method Blob(req: Request, data: string) returns (deferred: bool)
      requires Shape() && held.Hold? && req.res == held.res
      modifies this, acks, writer, writer.jobs, writer.q
      ensures Shape() && Abs([]) == Accept(old(Abs([])), req, data)
      ensures deferred == (log != old(log))
    {
      hide NvramWriter.Abs, Ordered, Submit, Cancel, CanSubmit, With, FirstUnused, Busy;
      ghost var s := Abs([]);
      var slot := PendingAckAlloc();
      var reservation := held.slot;
      held := NoHold;
      if req.res == Radio { gen := gen + 1; }
      ghost var s1 := s.(held := NoHold, gen := gen);
      assert Abs([]) == s1;
      deferred := false;
      if slot >= 0 {
        deferred := writer.SubmitReserved(reservation, data, slot);
      }
      if deferred {
        assert Abs([]) == s1.(w := Submit(s.w, reservation, data, slot));
        Record(req, data, slot, reservation);
      } else {
        assert Abs([]) == s1;
        writer.Cancel(reservation);
        assert Abs([]) == s1.(w := StoreAsync.Cancel(s.w, reservation));
      }
    }

    method Record(req: Request, data: string, slot: nat, reservation: nat)
      requires Shape() && slot < ACK_MAX
      modifies this, acks
      ensures Shape()
      ensures var s := old(Abs([]));
              Abs([]) == s.(acks := s.acks[slot := InUse(|s.log|, req, s.gen)],
                            cand := With(s.cand, req.res, data),
                            log := s.log + [req], slotOf := s.slotOf + [slot],
                            at := if slot < |s.at| then s.at[slot := reservation] else s.at)
    {
      hide NvramWriter.Abs, Wf, With;
      acks[slot] := InUse(|log|, req, gen);
      cand := With(cand, req.res, data);
      log, slotOf := log + [req], slotOf + [slot];
      at := if slot < |at| then at[slot := reservation] else at;
    }

    /** persist_admit */
    method PersistAdmit(r: Resource, len: nat, o: Outcome, echoed: bool) returns (v: Admission)
      requires Valid() && held.NoHold?
      modifies this, acks, writer, writer.jobs, writer.q
      ensures Shape() && (Abs([]), v) == AdmitTwice(old(Abs([])), r, len, o, echoed)
    {
      hide Inv, Step, ProcessAll, NvramWriter.Abs;
      ghost var s := Abs([]);
      var attempt := 0;
      while attempt < 2
        invariant 0 <= attempt <= 2 && Valid() && held.NoHold?
        invariant attempt == 0 ==> Abs([]) == s
        invariant attempt > 0 ==> Admit(s, r, len).1 == Saturated && Abs([]) == ProcessAll(Step(s, EvDrain), o, echoed)
        invariant attempt == 2 ==> Admit(Abs([]), r, len).1 == Saturated
      {
        v := AdmitOnce(r, len);
        if v != Saturated { return; }
        if attempt == 0 { OnReady(o, echoed); }
        attempt := attempt + 1;
      }
      return Saturated;
    }

    /** One attempt: the gate, an acknowledgement slot, a job slot. */
    method AdmitOnce(r: Resource, len: nat) returns (v: Admission)
      requires Shape()
      modifies this`held, writer.jobs
      ensures Shape() && (Abs([]), v) == Admit(old(Abs([])), r, len)
    {
      hide NvramWriter.Abs, Ordered, FirstFree, FirstUnused, Busy;
      var busy := ResourceBusy(r);
      if busy { return Refused; }
      var slot := PendingAckAlloc();
      if slot < 0 { return Saturated; }
      var path := PathOf(paths, r);
      var reservation := writer.Reserve(path, len);
      match reservation {
        case Slot(i) =>
          held := Hold(i, r);
          return Admitted;
        case Full => return Saturated;
        case _ => return Admission.Failed;
      }
    }

    /** opcd_store_async_on_ready: harvest once, then reconcile each completion. */
    method OnReady(o: Outcome, echoed: bool)
      requires Valid() && held.NoHold?
      modifies this, acks, writer, writer.jobs, writer.q
      ensures Valid() && held.NoHold?
      ensures Abs([]) == ProcessAll(Step(old(Abs([])), EvDrain), o, echoed)
    {
      hide Inv, Step, ProcessAll, NvramWriter.Abs, Wf;
      DrainStep(Abs([]));
      var done := Harvest();
      ReconcileAll(done, o, echoed);
    }

    method ReconcileAll(done: seq<Completion>, o: Outcome, echoed: bool)
      requires Shape() && Inv(Abs(done)) && held.NoHold?
      modifies this, acks, writer, writer.jobs, writer.q
      ensures Valid() && held.NoHold? && Abs([]) == ProcessAll(old(Abs(done)), o, echoed)
    {
      hide Inv, Process, ProcessAll, NvramWriter.Abs, Wf;
      ghost var goal := ProcessAll(Abs(done), o, echoed);
      var i := 0;
      assert done[0..] == done;
      while i < |done|
        invariant 0 <= i <= |done| && Shape() && held.NoHold?
        invariant Inv(Abs(done[i..])) && ProcessAll(Abs(done[i..]), o, echoed) == goal
      {
        ProcessUnfolds(Abs(done[i..]), o, echoed);
        assert [done[i]] + done[i + 1..] == done[i..];
        Reconcile(done[i], done[i + 1..], o, echoed);
        i := i + 1;
      }
      assert done[i..] == [];
      ProcessEnds(Abs([]), o, echoed);
    }

    method Harvest() returns (done: seq<Completion>)
      requires Shape()
      modifies writer`readable, writer.jobs
      ensures Shape() && Abs(done) == Drain(old(Abs([])))
    {
      hide NvramWriter.Abs, Wf, StoreAsync.Harvest, Harvested, ClearEvent;
      done := writer.Drain(DEPTH);
    }

    method Reconcile(c: Completion, ghost rest: seq<Completion>, o: Outcome, echoed: bool)
      requires Shape()
      modifies this, acks, writer, writer.jobs, writer.q
      ensures Shape() && Abs(rest) == Process(old(Abs([c] + rest)), o, echoed)
    {
      hide NvramWriter.Abs, Ordered, Mirror;
      ghost var s := Abs([c] + rest);
      assert s.batch[1..] == rest;
      if c.token >= ACK_MAX || acks[c.token].Unused? { return; }
      var ack := acks[c.token];
      if Visible(c.outcome) {
        mem := With(mem, ack.req.res, ValueOf(cand, ack.req.res));
      }
      answers := answers[ack.id := Answer(ack.req.ip, ack.req.port, ack.req.seqNo, c.rc == 0, !ack.req.noAck)];
      acks[c.token] := Unused;
      assert Abs(rest) == Settled(s);
      if Visible(c.outcome) && ack.req.res == IpList {
        MirrorUser(rest, o, echoed);
      }
    }

    /** iplist_mirror_user */
    method MirrorUser(ghost rest: seq<Completion>, o: Outcome, echoed: bool)
      requires Shape()
      modifies this`disk, writer, writer.jobs, writer.q
      ensures Shape() && Abs(rest) == Mirror(old(Abs(rest)), o, echoed)
    {
      hide NvramWriter.Abs, Ordered, Reserve, Submit, SetEcho;
      ghost var s := Abs(rest);
      var text := mem.ipList;
      var queued := writer.SubmitEcho(paths.user, paths.userLast, text, MIRROR);
      if !queued {
        disk := WriteUser(disk, paths, text, o, echoed);
      }
    }
  }

  lemma DrainStep(s: Daemon)
    requires Inv(s) && s.batch == [] && s.held.NoHold?
    ensures Step(s, EvDrain) == Drain(s)
  {
    hide Inv;
  }

  lemma ProcessUnfolds(s: Daemon, o: Outcome, echoed: bool)
    requires Inv(s) && s.batch != []
    ensures var s' := Process(s, o, echoed); Inv(s') && ProcessAll(s', o, echoed) == ProcessAll(s, o, echoed)
    ensures Process(s, o, echoed).batch == s.batch[1..] && Process(s, o, echoed).held == s.held
  {
    hide Booked, Covered, Batched, Sealed, Shows, MirrorFirst, Carried, Gated, Process;
    ProcessStep(s, o, echoed);
    assert Step(s, EvProcess(o, echoed)) == Process(s, o, echoed);
  }

  lemma ProcessEnds(s: Daemon, o: Outcome, echoed: bool)
    requires Inv(s) && s.batch == []
    ensures ProcessAll(s, o, echoed) == s
  {
    hide Inv;
  }
}
