/** Whole runs of the writer on its own: any sequence of API calls by the main
    thread interleaved with the worker in any way. */
module WriterRuns {
  import opened Store
  import opened StoreAsync

  /** A submitted job as its caller passed it. */
  datatype Submission = Submission(path: string, echo: string, data: string, token: nat)

  /** How a job's writes ended. */
  datatype Fate = Fate(outcome: Outcome, echoed: bool)

  datatype Event =
    | ReserveSlot(path: string, len: nat)
    | CancelSlot(slot: int)
    | EchoTo(slot: int, echo: string)          // between reserve and submit in submit_echo
    | SubmitSlot(slot: int, data: string, token: nat)
    | WorkerPop
    | WorkerWrite(fate: Fate)
    | WorkerPublish
    | WorkerExit
    | DrainStart                                // the unlocked eventfd read
    | DrainHarvest(cap: nat)
    | Finish

  /** The writer, the files it writes, and the history of the run, indexed by
      ticket: the jobs submitted with the slot each one took, the fates the
      worker decided, and the completions handed out. */
  datatype World = World(w: Writer, disk: map<string, string>, origin: map<string, string>,
                         log: seq<Submission>, place: seq<nat>, fates: seq<Fate>,
                         harvested: map<nat, Completion>, draining: bool, exited: bool)

  function AfterJob(disk: map<string, string>, s: Submission, f: Fate): map<string, string> {
    if !Visible(f.outcome) then disk
    else if s.echo != "" && f.echoed then disk[s.path := s.data][s.echo := s.data]
    else disk[s.path := s.data]
  }

  /** The files after performing the first jobs one by one in submission order. */
  function Replay(disk: map<string, string>, log: seq<Submission>, fates: seq<Fate>): map<string, string>
    requires |fates| <= |log|
  {
    if fates == [] then disk
    else
      var n := |fates| - 1;
      AfterJob(Replay(disk, log, fates[..n]), log[n], fates[n])
  }

  function Copy(j: Job): Submission {
    Submission(j.path, j.echo, j.data, j.token)
  }

  function SubmitStep(s: World, slot: int, data: string, token: nat): World
    requires Wf(s.w)
  {
    if !CanSubmit(s.w, slot, data) then s
    else s.(w := Submit(s.w, slot, data, token), place := s.place + [slot],
            log := s.log + [Submission(s.w.jobs[slot].path, s.w.jobs[slot].echo, data, token)])
  }

  function WriteStep(s: World, f: Fate): World
    requires Wf(s.w)
  {
    if s.w.worker != Popped then s
    else s.(w := WriteReturned(s.w, f.outcome), fates := s.fates + [f],
            disk := AfterJob(s.disk, Copy(s.w.jobs[s.w.todo[0]]), f))
  }

  function HarvestStep(s: World, cap: nat): World
    requires Wf(s.w)
  {
    if !s.draining || cap == 0 then s
    else s.(w := Harvest(s.w, cap), draining := false,
            harvested := s.harvested + Records(s.w, s.place, Taken(s.w.jobs, cap)))
  }

  /** The completions of the slots `t`, by ticket. */
  function Records(w: Writer, place: seq<nat>, t: seq<nat>): (r: map<nat, Completion>)
    requires Wf(w) && forall k :: 0 <= k < |t| ==> t[k] < DEPTH
    ensures forall n :: n in r <==> 0 <= n < |place| && place[n] in t && w.jobs[place[n]].ticket == n
    ensures forall n :: n in r ==> r[n] == CompletionOf(w.jobs[place[n]])
  {
    map n | 0 <= n < |place| && place[n] in t && w.jobs[place[n]].ticket == n :: CompletionOf(w.jobs[place[n]])
  }

  /** One step; an event its thread cannot perform now changes nothing. */
  function Step(s: World, e: Event): (s': World)
    requires Wf(s.w)
    ensures s'.origin == s.origin
  {
    match e
    case ReserveSlot(path, len) => s.(w := Reserve(s.w, path, len).0)
    case CancelSlot(slot) => s.(w := Cancel(s.w, slot))
    case EchoTo(slot, echo) =>
      if 0 <= slot < DEPTH && s.w.jobs[slot].phase == Reserved
      then s.(w := SetEcho(s.w, slot, echo)) else s
    case SubmitSlot(slot, data, token) => SubmitStep(s, slot, data, token)
    case WorkerPop => s.(w := Pop(s.w))
    case WorkerWrite(f) => WriteStep(s, f)
    case WorkerPublish => s.(w := Publish(s.w))
    case WorkerExit => if s.w.todo == [] && s.w.shutdown then s.(exited := true) else s
    case DrainStart => s.(w := ClearEvent(s.w), draining := true)
    case DrainHarvest(cap) => HarvestStep(s, cap)
    case Finish => s.(w := s.w.(shutdown := true))
  }

  lemma ReservationQuiet(s: World, e: Event)
    requires Wf(s.w) && (e.ReserveSlot? || e.CancelSlot? || e.EchoTo?)
    ensures Quiet(s.w, Step(s, e).w) && Step(s, e) == s.(w := Step(s, e).w)
  {
    hide SubmitStep, WriteStep, HarvestStep, Publish, Pop, Reserve;
    if e.ReserveSlot? {
      ReserveQuiet(s.w, e.path, e.len);
      ReserveShape(s.w, e.path, e.len);
    }
  }

  lemma ReserveShape(w: Writer, path: string, len: nat)
    requires |w.jobs| == DEPTH
    ensures |Reserve(w, path, len).0.jobs| == DEPTH
  {
  }

  /** A reservation is for the path and the size asked for, and a slot stays reserved
      as it is, whatever else either thread does, until it is cancelled, given an
      echo path or submitted. */
  lemma ReservationKept(s: World, e: Event, i: nat)
    requires Wf(s.w) && i < DEPTH && s.w.jobs[i].phase == Reserved
    requires e != CancelSlot(i) && !(e.EchoTo? && e.slot == i) && !(e.SubmitSlot? && e.slot == i)
    ensures Step(s, e).w.jobs[i] == s.w.jobs[i]
  {
    hide Ordered;
    if e.DrainHarvest? {
      HarvestOthers(s.w, e.cap, i);
    }
  }

  lemma HarvestOthers(w: Writer, cap: nat, i: nat)
    requires Listed(w) && i < DEPTH && w.jobs[i].phase == Reserved
    ensures Harvest(w, cap).jobs[i] == w.jobs[i]
  {
    TakenDone(w.jobs, cap);
  }

  lemma StepWf(s: World, e: Event)
    requires Wf(s.w)
    ensures Wf(Step(s, e).w)
  {
    match e
    case ReserveSlot(_, _) => ReservationWf(s, e);
    case CancelSlot(_) => ReservationWf(s, e);
    case EchoTo(_, _) => ReservationWf(s, e);
    case SubmitSlot(slot, data, token) => SubmitWf(s.w, slot, data, token);
    case WorkerPop =>
    case WorkerWrite(_) =>
    case WorkerPublish => PublishWf(s.w);
    case WorkerExit =>
    case DrainStart =>
    case DrainHarvest(cap) => HarvestWf(s.w, cap);
    case Finish =>
  }

  lemma ReservationWf(s: World, e: Event)
    requires Wf(s.w) && (e.ReserveSlot? || e.CancelSlot? || e.EchoTo?)
    ensures Wf(Step(s, e).w)
  {
    ReservationQuiet(s, e);
    QuietWf(s.w, Step(s, e).w);
  }

  function Run(s: World, es: seq<Event>): (s': World)
    requires Wf(s.w)
    ensures Wf(s'.w) && s'.origin == s.origin
  {
    if es == [] then s
    else
      var t := Run(s, es[..|es| - 1]);
      StepWf(t, es[|es| - 1]);
      Step(t, es[|es| - 1])
  }

  ghost predicate Init(s: World) {
    && |s.w.jobs| == DEPTH && s.w.todo == [] && s.w.worker == Idle && s.w.issued == s.w.oldest == 0
    && (forall i :: 0 <= i < DEPTH ==> s.w.jobs[i].phase == Free)
    && s.log == [] && s.place == [] && s.fates == [] && s.harvested == map[]
    && s.disk == s.origin && !s.draining && !s.exited
  }

  // ---- The invariant --------------------------------------------------------

  /** A slot in use holds exactly what was submitted to it. */
  ghost predicate Untouched(w: Writer, log: seq<Submission>, place: seq<nat>) {
    && Wf(w) && |log| == |place| == w.issued
    && (forall i :: 0 <= i < DEPTH && Active(w.jobs[i]) ==>
          place[w.jobs[i].ticket] == i && Copy(w.jobs[i]) == log[w.jobs[i].ticket])
  }

  /** The unfinished jobs are all the submissions after the finished ones. */
  ghost predicate InOrder(w: Writer) {
    && Wf(w) && w.oldest + |w.todo| == w.issued
    && (forall k :: 0 <= k < |w.todo| ==> w.jobs[w.todo[k]].ticket == w.oldest + k)
  }

  /** The worker has decided the fates of the finished jobs, and of the one it
      has just written. */
  ghost predicate Decided(w: Writer, fates: seq<Fate>) {
    && |fates| == w.oldest + (if w.worker.Wrote? then 1 else 0)
    && (w.worker.Wrote? ==> fates[w.oldest].outcome == w.worker.outcome)
  }

  function Due(s: Submission, f: Fate): Completion {
    Completion(s.token, RcOf(f.outcome), f.outcome)
  }

  /** A finished job is still in its slot, or harvested with its own token and
      outcome; never both. */
  ghost predicate Conserved(w: Writer, log: seq<Submission>, place: seq<nat>, fates: seq<Fate>,
                            harvested: map<nat, Completion>)
    requires Wf(w) && |log| == |place| == w.issued && w.oldest <= |fates|
  {
    && (forall n :: n in harvested ==> n < w.oldest && harvested[n] == Due(log[n], fates[n]))
    && (forall n :: 0 <= n < w.oldest && n !in harvested ==>
          place[n] < DEPTH && w.jobs[place[n]].phase == Done && w.jobs[place[n]].ticket == n)
    && (forall i :: 0 <= i < DEPTH && w.jobs[i].phase == Done ==>
          && w.jobs[i].ticket !in harvested
          && w.jobs[i].outcome == fates[w.jobs[i].ticket].outcome
          && w.jobs[i].rc == RcOf(w.jobs[i].outcome))
  }

  /** No wakeup is lost. */
  ghost predicate Awake(w: Writer, draining: bool) {
    draining || w.readable || (forall i :: 0 <= i < |w.jobs| ==> w.jobs[i].phase != Done)
  }

  ghost predicate Inv(s: World) {
    && Wf(s.w) && Untouched(s.w, s.log, s.place) && InOrder(s.w) && Decided(s.w, s.fates)
    && Conserved(s.w, s.log, s.place, s.fates, s.harvested) && Awake(s.w, s.draining)
    && |s.fates| <= |s.log| && s.disk == Replay(s.origin, s.log, s.fates)
    && (s.exited ==> s.w.shutdown && s.w.todo == [])
  }

  // ---- Every step keeps it --------------------------------------------------

  lemma ReplayExtends(disk: map<string, string>, log: seq<Submission>, fates: seq<Fate>, s: Submission)
    requires |fates| <= |log|
    ensures Replay(disk, log + [s], fates) == Replay(disk, log, fates)
  {
    if fates != [] {
      ReplayExtends(disk, log, fates[..|fates| - 1], s);
    }
  }

  lemma QuietKeeps(s: World, w': Writer)
    requires Inv(s) && Quiet(s.w, w')
    ensures Inv(s.(w := w'))
  {
    QuietWf(s.w, w');
  }

  lemma SubmitInOrder(w: Writer, slot: int, data: string, token: nat)
    requires InOrder(w)
    ensures InOrder(Submit(w, slot, data, token))
  {
    SubmitWf(w, slot, data, token);
  }

  lemma SubmitUntouched(s: World, slot: int, data: string, token: nat)
    requires Untouched(s.w, s.log, s.place) && CanSubmit(s.w, slot, data)
    ensures var s' := SubmitStep(s, slot, data, token); Untouched(s'.w, s'.log, s'.place)
  {
    SubmitWf(s.w, slot, data, token);
  }

  lemma SubmitConserved(s: World, slot: int, data: string, token: nat)
    requires Untouched(s.w, s.log, s.place) && CanSubmit(s.w, slot, data) && s.w.oldest <= |s.fates|
    requires Conserved(s.w, s.log, s.place, s.fates, s.harvested)
    ensures var s' := SubmitStep(s, slot, data, token);
            Wf(s'.w) && Conserved(s'.w, s'.log, s'.place, s'.fates, s'.harvested)
  {
    SubmitWf(s.w, slot, data, token);
  }

  lemma SubmitKeeps(s: World, slot: int, data: string, token: nat)
    requires Inv(s) && CanSubmit(s.w, slot, data)
    ensures Inv(SubmitStep(s, slot, data, token))
  {
    SubmitInOrder(s.w, slot, data, token);
    SubmitUntouched(s, slot, data, token);
    SubmitConserved(s, slot, data, token);
    ReplayExtends(s.origin, s.log, s.fates, Copy(Submit(s.w, slot, data, token).jobs[slot]));
  }

  lemma WriteKeeps(s: World, f: Fate)
    requires Inv(s) && s.w.worker == Popped
    ensures Inv(WriteStep(s, f))
  {
    var s', i := WriteStep(s, f), s.w.todo[0];
    assert s.w.jobs[i].ticket == s.w.oldest;
    assert s'.fates[..s.w.oldest] == s.fates;
    assert s'.disk == Replay(s'.origin, s'.log, s'.fates);
    WriteConserved(s, s');
  }

  lemma WriteConserved(s: World, s': World)
    requires Wf(s.w) && |s.log| == |s.place| == s.w.issued && s.w.oldest <= |s.fates|
    requires Conserved(s.w, s.log, s.place, s.fates, s.harvested)
    requires Wf(s'.w) && s'.w.jobs == s.w.jobs && s'.w.oldest == s.w.oldest && s'.w.issued == s.w.issued
    requires s'.log == s.log && s'.place == s.place && s'.harvested == s.harvested && s.fates <= s'.fates
    ensures Conserved(s'.w, s'.log, s'.place, s'.fates, s'.harvested)
  {
  }

  lemma PublishInOrder(w: Writer)
    requires InOrder(w) && w.worker.Wrote?
    ensures InOrder(Publish(w)) && Publish(w).oldest == w.oldest + 1
  {
    PublishWf(w);
    assert w.jobs[w.todo[0]].ticket == w.oldest + 0;
    assert forall k :: 0 <= k < |Publish(w).todo| ==> Publish(w).todo[k] == w.todo[k + 1];
  }

  lemma PublishConserved(s: World)
    requires Untouched(s.w, s.log, s.place) && InOrder(s.w) && Decided(s.w, s.fates) && s.w.worker.Wrote?
    requires Conserved(s.w, s.log, s.place, s.fates, s.harvested)
    ensures Wf(Publish(s.w)) && Publish(s.w).oldest == s.w.oldest + 1
    ensures Conserved(Publish(s.w), s.log, s.place, s.fates, s.harvested)
  {
    PublishInOrder(s.w);
    assert s.w.jobs[s.w.todo[0]].ticket == s.w.oldest + 0;
  }

  lemma PublishKeeps(s: World)
    requires Inv(s) && s.w.worker.Wrote?
    ensures Inv(s.(w := Publish(s.w)))
  {
    PublishInOrder(s.w);
    PublishConserved(s);
    PublishUntouched(s.w, s.log, s.place);
  }

  lemma PublishUntouched(w: Writer, log: seq<Submission>, place: seq<nat>)
    requires Untouched(w, log, place)
    ensures Untouched(Publish(w), log, place)
  {
    PublishWf(w);
  }

  lemma HarvestUntouched(w: Writer, log: seq<Submission>, place: seq<nat>, cap: nat)
    requires Untouched(w, log, place) && InOrder(w)
    ensures Untouched(Harvest(w, cap), log, place) && InOrder(Harvest(w, cap))
  {
    HarvestWf(w, cap);
    TakenDone(w.jobs, cap);
  }

  /** What a harvest hands out is right and was not handed out before. */
  lemma HarvestRecords(w: Writer, log: seq<Submission>, place: seq<nat>, fates: seq<Fate>,
                       harvested: map<nat, Completion>, t: seq<nat>)
    requires Untouched(w, log, place) && w.oldest <= |fates|
    requires Conserved(w, log, place, fates, harvested)
    requires forall k :: 0 <= k < |t| ==> t[k] < DEPTH && w.jobs[t[k]].phase == Done
    ensures forall n :: n in Records(w, place, t) ==>
              && n < w.oldest && n !in harvested && Records(w, place, t)[n] == Due(log[n], fates[n])
  {
  }

  lemma HarvestConserved(w: Writer, w': Writer, log: seq<Submission>, place: seq<nat>, fates: seq<Fate>,
                         harvested: map<nat, Completion>, t: seq<nat>)
    requires Untouched(w, log, place) && w.oldest <= |fates|
    requires Conserved(w, log, place, fates, harvested)
    requires forall k :: 0 <= k < |t| ==> t[k] < DEPTH && w.jobs[t[k]].phase == Done
    requires Wf(w') && w'.jobs == FreeAll(w.jobs, t) && w'.oldest == w.oldest && w'.issued == w.issued
    ensures Conserved(w', log, place, fates, harvested + Records(w, place, t))
  {
    HarvestRecords(w, log, place, fates, harvested, t);
    var h := harvested + Records(w, place, t);
    forall n | 0 <= n < w.oldest && n !in h
      ensures place[n] < DEPTH && w'.jobs[place[n]].phase == Done && w'.jobs[place[n]].ticket == n
    {
      assert n !in harvested;
      assert place[n] !in t;
    }
    forall i | 0 <= i < DEPTH && w'.jobs[i].phase == Done
      ensures w'.jobs[i].ticket !in h && w'.jobs[i] == w.jobs[i]
    {
      assert i !in t && place[w.jobs[i].ticket] == i;
    }
  }

  lemma HarvestAwake(w: Writer, cap: nat)
    requires |w.jobs| == DEPTH
    ensures Awake(Harvest(w, cap), false)
  {
    var d := DoneSlots(w.jobs, 0);
    DoneSlotsAre(w.jobs, 0);
    if |d| <= cap {
      assert forall i :: 0 <= i < DEPTH ==> Harvest(w, cap).jobs[i].phase != Done;
    }
  }

  lemma HarvestKeeps(s: World, cap: nat)
    requires Inv(s) && s.draining && cap != 0
    ensures Inv(HarvestStep(s, cap))
  {
    HarvestUntouched(s.w, s.log, s.place, cap);
    TakenDone(s.w.jobs, cap);
    HarvestConserved(s.w, Harvest(s.w, cap), s.log, s.place, s.fates, s.harvested, Taken(s.w.jobs, cap));
    HarvestAwake(s.w, cap);
  }

  lemma SubmissionKeeps(s: World, e: Event)
    requires Inv(s) && e.SubmitSlot?
    ensures Inv(Step(s, e))
  {
    if CanSubmit(s.w, e.slot, e.data) { SubmitKeeps(s, e.slot, e.data, e.token); }
  }

  lemma PopKeeps(s: World)
    requires Inv(s)
    ensures Inv(s.(w := Pop(s.w)))
  {
    var w' := Pop(s.w);
    assert w'.jobs == s.w.jobs && w'.todo == s.w.todo;
  }

  lemma WriteStepKeeps(s: World, e: Event)
    requires Inv(s) && e.WorkerWrite?
    ensures Inv(Step(s, e))
  {
    if s.w.worker == Popped { WriteKeeps(s, e.fate); }
  }

  lemma PublishStepKeeps(s: World, e: Event)
    requires Inv(s) && e.WorkerPublish?
    ensures Inv(Step(s, e))
  {
    if s.w.worker.Wrote? { PublishKeeps(s); } else { assert Step(s, e) == s; }
  }

  lemma HarvestStepKeeps(s: World, e: Event)
    requires Inv(s) && e.DrainHarvest?
    ensures Inv(Step(s, e))
  {
    if s.draining && e.cap != 0 { HarvestKeeps(s, e.cap); }
  }

  lemma FlagsKeep(s: World, e: Event)
    requires Inv(s) && (e.DrainStart? || e.Finish? || e.WorkerExit?)
    ensures Inv(Step(s, e))
  {
    var s' := Step(s, e);
    assert s'.w.jobs == s.w.jobs && s'.w.todo == s.w.todo && s'.w.worker == s.w.worker;
  }

  lemma StepKeeps(s: World, e: Event)
    requires Inv(s)
    ensures Inv(Step(s, e))
  {
    if e.ReserveSlot? || e.CancelSlot? || e.EchoTo? {
      ReservationQuiet(s, e);
      QuietKeeps(s, Step(s, e).w);
    } else if e.SubmitSlot? {
      SubmissionKeeps(s, e);
    } else if e.WorkerPop? {
      PopKeeps(s);
    } else if e.WorkerWrite? {
      WriteStepKeeps(s, e);
    } else if e.WorkerPublish? {
      PublishStepKeeps(s, e);
    } else if e.DrainHarvest? {
      HarvestStepKeeps(s, e);
    } else {
      FlagsKeep(s, e);
    }
  }

  lemma {:induction false} RunKeeps(s: World, es: seq<Event>)
    requires Init(s)
    ensures Inv(Run(s, es))
  {
    if es != [] {
      RunKeeps(s, es[..|es| - 1]);
      StepKeeps(Run(s, es[..|es| - 1]), es[|es| - 1]);
    }
  }

  /** After finish has joined the worker, one drain of the whole table hands out
      every submission of the run that was not handed out before, each with its
      own token and the outcome its write had. */
  lemma FinalDrain(s: World, es: seq<Event>)
    requires Init(s) && Run(s, es).exited && Run(s, es).draining
    ensures var r := Run(s, es);
            var h := HarvestStep(r, DEPTH).harvested;
            && |r.fates| == |r.log|
            && r.disk == Replay(s.disk, r.log, r.fates)
            && (forall n :: n in h <==> 0 <= n < |r.log|)
            && (forall n :: n in h ==> h[n] == Due(r.log[n], r.fates[n]))
  {
    RunKeeps(s, es);
    DrainsAll(Run(s, es));
  }

  lemma DrainsAll(r: World)
    requires Inv(r) && r.exited && r.draining
    ensures var h := HarvestStep(r, DEPTH).harvested;
            && |r.fates| == |r.log|
            && (forall n :: n in h <==> 0 <= n < |r.log|)
            && (forall n :: n in h ==> h[n] == Due(r.log[n], r.fates[n]))
  {
    NoneLeft(r.w);
    HarvestKeeps(r, DEPTH);
    var s := HarvestStep(r, DEPTH);
    HarvestedAll(s.w, s.log, s.place, s.fates, s.harvested);
  }

  lemma HarvestedAll(w: Writer, log: seq<Submission>, place: seq<nat>, fates: seq<Fate>, h: map<nat, Completion>)
    requires Wf(w) && |log| == |place| == w.issued && w.oldest <= |fates| && Conserved(w, log, place, fates, h)
    requires w.oldest == w.issued && forall i :: 0 <= i < DEPTH ==> w.jobs[i].phase != Done
    ensures forall n :: n in h <==> 0 <= n < |log|
    ensures forall n :: n in h ==> h[n] == Due(log[n], fates[n])
  {
  }

  lemma NoneLeft(w: Writer)
    requires |w.jobs| == DEPTH
    ensures forall i :: 0 <= i < DEPTH ==> Harvest(w, DEPTH).jobs[i].phase != Done
  {
    DoneSlotsAre(w.jobs, 0);
  }
}
