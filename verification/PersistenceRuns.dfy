/** What every run of the persistence machinery promises: capacity is never
    short, each accepted request is written once and answered once, published
    values follow the files, and a stop leaves nothing unanswered. */
module PersistenceRuns {
  import opened Common
  import opened Store
  import opened StoreAsync
  import opened Persistence

  // ---- Capacity ---------------------------------------------------------------

  /** The size and the path fit a job, and the writer has not been stopped. */
  predicate Usable(s: Daemon, r: Resource, len: nat) {
    len <= DATA_MAX && |PathOf(s.paths, r)| < PATH_CAP && !s.w.shutdown
  }

  /** Admission never runs out of capacity, so the harvest-and-retry path of
      persist_admit is never taken and a request is turned away for the busy
      gate, an unusable size or path, or the stop, and for nothing else. */
  lemma CapacityNeverShort(s0: Daemon, es: seq<Event>, r: Resource, len: nat)
    requires Init(s0)
    ensures var s := Run(s0, es);
            && |Occupied(s.w.jobs, DEPTH)| <= 4
            && Admit(s, r, len).1 != Saturated
            && (Admit(s, r, len).1 == Refused <==> Busy(s.acks, r))
            && (Admit(s, r, len).1 == Admitted <==> !Busy(s.acks, r) && Usable(s, r, len))
            && !Reserve(s.w, s.paths.user, |s.mem.ipList|).1.Full?
  {
    var s := Run(s0, es);
    AtMostFour(s.w, s.acks, s.held);
    SlotAvailable(s.w, s.acks, s.held);
    FewPending(s.acks);
    hide *;
    AdmitVerdict(s, r, len);
    assert !Reserve(s.w, s.paths.user, |s.mem.ipList|).1.Full? by {
      NotFull(s.w, s.paths.user, |s.mem.ipList|);
    }
  }

  lemma NotFull(w: Writer, path: string, len: nat)
    requires |w.jobs| == DEPTH && FirstFree(w.jobs, 0) < DEPTH
    ensures !Reserve(w, path, len).1.Full?
  {
  }

  lemma AdmitVerdict(s: Daemon, r: Resource, len: nat)
    requires Listed(s.w) && FirstFree(s.w.jobs, 0) < DEPTH && FirstUnused(s.acks, 0) < |s.acks|
    ensures Admit(s, r, len).1 != Saturated && (Admit(s, r, len).1 == Refused <==> Busy(s.acks, r))
    ensures Admit(s, r, len).1 == Admitted <==> !Busy(s.acks, r) && Usable(s, r, len)
  {
    NotFull(s.w, PathOf(s.paths, r), len);
  }

  /** Once admitted, a request that fits its reservation is accepted unless the
      writer has been stopped: capacity cannot fail it after the fact. */
  lemma AdmittedIsAccepted(s0: Daemon, es: seq<Event>, req: Request, data: string)
    requires Init(s0)
    requires var s := Run(s0, es);
             s.held.Hold? && req.res == s.held.res && s.held.slot < |s.w.jobs| && |data| <= s.w.jobs[s.held.slot].len
    ensures var s := Run(s0, es);
            !s.w.shutdown <==> Accept(s, req, data).log == s.log + [req]
  {
    var s := Run(s0, es);
    FewPending(s.acks);
    assert s.log + [req] != s.log;
    hide Run, Submit, Cancel, Covered, Carried, Sealed, Shows, Booked, MirrorFirst, Batched;
  }

  // ---- Tokens ---------------------------------------------------------------------

  ghost predicate HasJob(w: Writer, token: nat) {
    exists i :: 0 <= i < |w.jobs| && Active(w.jobs[i]) && w.jobs[i].token == token
  }

  /** Pending acknowledgements and outstanding work correspond one to one by
      token: a slot is in use exactly while its job, or else its completion, is
      still there; no token occurs twice. */
  lemma TokensOneToOne(s0: Daemon, es: seq<Event>, a: nat)
    requires Init(s0) && a < ACK_MAX
    ensures var s := Run(s0, es);
            && |s.acks| == ACK_MAX
            && (s.acks[a].InUse? <==> HasJob(s.w, a) || HasToken(s.batch, a))
            && !(HasJob(s.w, a) && HasToken(s.batch, a))
            && (forall i, j :: 0 <= i < j < |s.w.jobs| && Active(s.w.jobs[i]) && Active(s.w.jobs[j]) ==>
                  s.w.jobs[i].token != s.w.jobs[j].token)
            && (forall k, l :: 0 <= k < l < |s.batch| ==> s.batch[k].token != s.batch[l].token)
  {
    var s := Run(s0, es);
    hide Run;
    TokensOf(s.w, s.acks, s.held, s.batch, s.at, a);
  }

  lemma TokensOf(w: Writer, acks: seq<Ack>, held: Held, batch: seq<Completion>, at: seq<nat>, a: nat)
    requires Slots(w, acks, held) && Batched(w, acks, batch, held) && Covered(w, acks, batch, at) && a < ACK_MAX
    ensures acks[a].InUse? <==> HasJob(w, a) || HasToken(batch, a)
    ensures !(HasJob(w, a) && HasToken(batch, a))
  {
    hide Ordered;
    if acks[a].InUse? && !HasToken(batch, a) {
      assert Active(w.jobs[at[a]]) && w.jobs[at[a]].token == a;
    }
  }

  /** When a published list is mirrored no older copy is queued, and the radio
      completion being reconciled is always the current generation's. */
  lemma ReconciledInOrder(s0: Daemon, es: seq<Event>)
    requires Init(s0) && Run(s0, es).batch != [] && IsAck(Run(s0, es).acks, Run(s0, es).batch[0].token)
    ensures var s := Run(s0, es);
            var ack := s.acks[s.batch[0].token];
            && (ack.req.res == IpList ==> NoMirror(s.w))
            && (ack.req.res == Radio ==> ack.gen == s.gen)
  {
    var s := Run(s0, es);
    hide Run, Slots, Batched, Covered, Carried, Sealed, Shows, Booked, NoMirror;
    if s.acks[s.batch[0].token].req.res == IpList {
      assert IsIpAck(s.acks, s.batch[0].token);
    }
  }

  // ---- Written once, answered once ---------------------------------------------

  /** The request whose acknowledgement a step attempts. */
  function AnsweredBy(s: Daemon, e: Event): Option<nat> {
    if e.EvProcess? && s.batch != [] && IsAck(s.acks, s.batch[0].token)
    then Some(s.acks[s.batch[0].token].id)
    else None
  }

  /** The request whose file a step writes. */
  function WrittenBy(s: Daemon, e: Event): Option<nat>
    requires Listed(s.w)
  {
    if e.EvWrite? && s.w.worker == Popped && IsAck(s.acks, s.w.jobs[s.w.todo[0]].token)
    then Some(s.acks[s.w.jobs[s.w.todo[0]].token].id)
    else None
  }

  /** Only reconciling answers, only the worker seals a fate, only accepting logs. */
  lemma Footprints(s: Daemon, e: Event)
    requires Listed(s.w)
    ensures !e.EvProcess? ==> Next(s, e).answers == s.answers
    ensures !e.EvWrite? ==> Next(s, e).fate == s.fate
  {
    hide Listed, Reserve, Submit, Cancel, Publish, Harvest, Harvested, Busy, FirstUnused, CanSubmit, Occupied;
  }

  lemma AnswerStep(s: Daemon, e: Event, n: nat)
    requires Listed(s.w)
    requires AnsweredBy(s, e).Some? ==> AnsweredBy(s, e).value !in s.answers
    ensures var s' := Next(s, e);
            && (n in s'.answers <==> n in s.answers || AnsweredBy(s, e) == Some(n))
            && (n in s.answers ==> s'.answers[n] == s.answers[n] && AnsweredBy(s, e) != Some(n))
  {
    hide Listed, Admit, Release, Accept, Drain, Stop, Reserve, Submit, WorkerWrite, Publish, Pop;
    Footprints(s, e);
  }

  lemma WriteStep(s: Daemon, e: Event, n: nat)
    requires Listed(s.w)
    requires WrittenBy(s, e).Some? ==> WrittenBy(s, e).value !in s.fate
    ensures var s' := Next(s, e);
            && (n in s'.fate <==> n in s.fate || WrittenBy(s, e) == Some(n))
            && (n in s.fate ==> s'.fate[n] == s.fate[n] && WrittenBy(s, e) != Some(n))
  {
    hide Listed, Admit, Release, Accept, Drain, Process, Stop, Publish, Pop;
    Footprints(s, e);
  }

  lemma HeadUnwritten(w: Writer, acks: seq<Ack>, batch: seq<Completion>, fate: map<nat, Outcome>)
    requires Listed(w) && Sealed(w, acks, batch, fate) && w.worker == Popped
    ensures var t := w.jobs[w.todo[0]].token; IsAck(acks, t) ==> acks[t].id !in fate
  {
    assert Active(w.jobs[w.todo[0]]);
  }

  ghost function Answers(s0: Daemon, es: seq<Event>, n: nat): nat
    requires Init(s0)
  {
    if es == [] then 0
    else
      var k := |es| - 1;
      Answers(s0, es[..k], n) + if AnsweredBy(Run(s0, es[..k]), es[k]) == Some(n) then 1 else 0
  }

  ghost function Writes(s0: Daemon, es: seq<Event>, n: nat): nat
    requires Init(s0)
  {
    if es == [] then 0
    else
      var k := |es| - 1;
      Writes(s0, es[..k], n) + if WrittenBy(Run(s0, es[..k]), es[k]) == Some(n) then 1 else 0
  }

  lemma InvGives(s: Daemon, e: Event)
    requires Inv(s)
    ensures Listed(s.w) && Booked(s.acks, s.log, s.slotOf, s.answers, s.fate)
    ensures WrittenBy(s, e).Some? ==> WrittenBy(s, e).value !in s.fate
    ensures AnsweredBy(s, e).Some? ==> AnsweredBy(s, e).value !in s.answers
  {
    if WrittenBy(s, e).Some? {
      HeadUnwritten(s.w, s.acks, s.batch, s.fate);
    }
  }

  lemma {:induction false} CountAnswers(s0: Daemon, es: seq<Event>, n: nat)
    requires Init(s0)
    ensures Answers(s0, es, n) == if n in Run(s0, es).answers then 1 else 0
  {
    hide Inv, Next, Booked, Listed;
    if es != [] {
      var k := |es| - 1;
      CountAnswers(s0, es[..k], n);
      InvGives(Run(s0, es[..k]), es[k]);
      AnswerStep(Run(s0, es[..k]), es[k], n);
    }
  }

  lemma {:induction false} CountWrites(s0: Daemon, es: seq<Event>, n: nat)
    requires Init(s0)
    ensures Writes(s0, es, n) == if n in Run(s0, es).fate then 1 else 0
  {
    hide Inv, Next, Booked, Listed;
    if es != [] {
      var k := |es| - 1;
      CountWrites(s0, es[..k], n);
      InvGives(Run(s0, es[..k]), es[k]);
      WriteStep(Run(s0, es[..k]), es[k], n);
    }
  }

  /** Every accepted request is answered at most once, after exactly one write,
      to its own client with its own sequence number, OK exactly when that write
      was durable; and it keeps a pending slot until then. */
  lemma AnsweredOnce(s0: Daemon, es: seq<Event>, n: nat)
    requires Init(s0)
    ensures var s := Run(s0, es);
            && Answers(s0, es, n) == (if n in s.answers then 1 else 0)
            && Writes(s0, es, n) == (if n in s.fate then 1 else 0)
            && (n in s.answers ==>
                  && n in s.fate && n < |s.log|
                  && s.answers[n] == Answer(s.log[n].ip, s.log[n].port, s.log[n].seqNo,
                                            s.fate[n] == Durable, !s.log[n].noAck))
            && (n < |s.log| && n !in s.answers ==>
                  exists a :: 0 <= a < |s.acks| && s.acks[a].InUse? && s.acks[a].id == n)
  {
    hide Inv, Run, Answers, Writes;
    CountAnswers(s0, es, n);
    CountWrites(s0, es, n);
    InvGives(Run(s0, es), EvPop);
  }

  // ---- The stop -----------------------------------------------------------------

  /** The worker finishes its oldest job, whatever it has already done of it. */
  ghost function WorkOff(s: Daemon, o: Outcome, echoed: bool): (s': Daemon)
    requires Inv(s)
    ensures Inv(s')
  {
    hide Inv, Step;
    Step(Step(Step(s, EvPop), EvWrite(o, echoed)), EvPublish)
  }

  lemma WorkerSteps(s: Daemon, e: Event)
    requires Inv(s) && s.w.todo != [] && (e.EvPop? || e.EvWrite? || e.EvPublish?)
    ensures var s' := Step(s, e);
            && s'.batch == s.batch && s'.held == s.held && s'.w.shutdown == s.w.shutdown && s'.log == s.log
            && (e.EvPop? ==> s'.w.todo == s.w.todo && (s.w.worker == Idle ==> s'.w.worker == Popped)
                             && (s.w.worker != Idle ==> s'.w.worker == s.w.worker))
            && (e.EvWrite? ==> s'.w.todo == s.w.todo && (s.w.worker != Idle ==> s'.w.worker.Wrote?))
            && (e.EvPublish? && s.w.worker.Wrote? ==> s'.w.todo == s.w.todo[1..])
  {
    hide Inv;
  }

  lemma WorkOffShrinks(s: Daemon, o: Outcome, echoed: bool)
    requires Inv(s) && s.w.todo != []
    ensures var s' := WorkOff(s, o, echoed);
            && s'.w.todo == s.w.todo[1..] && s'.batch == s.batch && s'.held == s.held
            && s'.w.shutdown == s.w.shutdown && s'.log == s.log
  {
    hide Inv, Step;
    var s1 := Step(s, EvPop);
    var s2 := Step(s1, EvWrite(o, echoed));
    WorkerSteps(s, EvPop);
    WorkerSteps(s1, EvWrite(o, echoed));
    WorkerSteps(s2, EvPublish);
  }

  /** The worker, with one outcome per unfinished job, runs until its queue is empty. */
  ghost function FinishJobs(s: Daemon, os: seq<(Outcome, bool)>): (s': Daemon)
    requires Inv(s) && |os| == |s.w.todo|
    ensures Inv(s') && s'.w.todo == [] && s'.batch == s.batch && s'.held == s.held
    ensures s'.w.shutdown == s.w.shutdown && s'.log == s.log
    decreases |os|
  {
    hide Inv, WorkOff;
    if os == [] then s
    else
      WorkOffShrinks(s, os[0].0, os[0].1);
      FinishJobs(WorkOff(s, os[0].0, os[0].1), os[1..])
  }

  lemma MirrorFootprint(s: Daemon, o: Outcome, echoed: bool)
    requires Listed(s.w)
    ensures var s' := Mirror(s, o, echoed);
            && s' == s.(w := s'.w, disk := s'.disk) && (s.w.shutdown ==> s'.w == s.w)
  {
    hide Listed, Submit, SetEcho;
  }

  lemma ProcessFootprint(s: Daemon, o: Outcome, echoed: bool)
    requires Listed(s.w) && s.batch != []
    ensures var s' := Process(s, o, echoed);
            && s'.batch == s.batch[1..] && s'.log == s.log && s'.held == s.held
            && (s.w.shutdown ==> s'.w == s.w)
  {
    hide Listed, Mirror;
    if IsAck(s.acks, s.batch[0].token) {
      MirrorFootprint(Settled(s), o, echoed);
    }
  }

  lemma ProcessStep(s: Daemon, o: Outcome, echoed: bool)
    requires Inv(s) && s.batch != []
    ensures var s' := Step(s, EvProcess(o, echoed));
            && s'.batch == s.batch[1..] && s'.log == s.log && s'.held == s.held
            && (s.w.shutdown ==> s'.w == s.w)
  {
    hide Booked, Covered, Batched, Sealed, Shows, MirrorFirst, Carried, Gated, Process;
    ProcessFootprint(s, o, echoed);
  }

  /** The reconcile loop; `o` and `echoed` are what the one synchronous
      customer-file write does, if there is one. */
  ghost function ProcessAll(s: Daemon, o: Outcome, echoed: bool): (s': Daemon)
    requires Inv(s)
    ensures Inv(s') && s'.batch == [] && s'.log == s.log
    ensures s.w.shutdown ==> s'.w == s.w
    decreases |s.batch|
  {
    hide Inv, Step;
    if s.batch == [] then s
    else
      ProcessStep(s, o, echoed);
      ProcessAll(Step(s, EvProcess(o, echoed)), o, echoed)
  }

  predicate NoJobs(w: Writer) {
    forall i :: 0 <= i < |w.jobs| ==> !Active(w.jobs[i])
  }

  /** Nothing in the table and nothing to reconcile: every accepted request has
      been answered, every gate is open, and published values equal the files. */
  lemma QuietMeansAnswered(s: Daemon)
    requires Inv(s) && s.batch == [] && NoJobs(s.w)
    ensures forall n :: 0 <= n < |s.log| ==> n in s.answers
    ensures forall r :: !Busy(s.acks, r)
    ensures s.mem.password == Shown(s.disk, s.paths.password, s.missing.password)
    ensures s.mem.ipList == Shown(s.disk, s.paths.ipList, s.missing.ipList)
  {
    NothingPending(s.w, s.acks, s.at);
    assert Booked(s.acks, s.log, s.slotOf, s.answers, s.fate);
    assert !Busy(s.acks, Password) && !Busy(s.acks, IpList);
    assert Shows(Password, s.acks, s.disk, s.mem, s.cand, s.missing, s.fate, s.paths);
    assert Shows(IpList, s.acks, s.disk, s.mem, s.cand, s.missing, s.fate, s.paths);
  }

  lemma NothingPending(w: Writer, acks: seq<Ack>, at: seq<nat>)
    requires NoJobs(w) && Covered(w, acks, [], at)
    ensures forall a :: 0 <= a < |acks| ==> acks[a].Unused?
  {
  }

  lemma DrainedJobs(w: Writer)
    requires Listed(w) && w.todo == []
    ensures NoJobs(Harvest(ClearEvent(w), DEPTH))
  {
    DrainEmpties(w);
  }

  lemma DrainedTable(s: Daemon)
    requires Inv(s) && s.w.todo == [] && s.held.NoHold? && s.batch == []
    ensures var s' := Step(s, EvDrain); NoJobs(s'.w) && s'.w.shutdown == s.w.shutdown && s'.log == s.log
  {
    hide Booked, Covered, Batched, Sealed, Shows, MirrorFirst, Carried, Gated, NoJobs;
    DrainedJobs(s.w);
  }

  /** The daemon's exit: stop the writer, let the worker finish every queued job
      whatever becomes of the writes, drain once, reconcile. Every request
      accepted before is then answered, and memory agrees with the files. */
  lemma StopAnswersAll(s0: Daemon, es: seq<Event>, os: seq<(Outcome, bool)>, o: Outcome, echoed: bool)
    requires Init(s0)
    requires var s := Run(s0, es); s.held.NoHold? && s.batch == [] && |os| == |s.w.todo|
    ensures Concluded(Run(s0, es), Exit(Run(s0, es), os, o, echoed))
  {
    hide *;
    ExitConcludes(Run(s0, es), os, o, echoed);
  }

  /** Everything logged in `s` is answered in `e`, and `e` is at rest. */
  ghost predicate Concluded(s: Daemon, e: Daemon) {
    && e.log == s.log && (forall n :: 0 <= n < |s.log| ==> n in e.answers)
    && (forall r :: !Busy(e.acks, r))
    && e.mem.password == Shown(e.disk, e.paths.password, e.missing.password)
    && e.mem.ipList == Shown(e.disk, e.paths.ipList, e.missing.ipList)
  }

  ghost function Exit(s: Daemon, os: seq<(Outcome, bool)>, o: Outcome, echoed: bool): (e: Daemon)
    requires Inv(s) && s.held.NoHold? && s.batch == [] && |os| == |s.w.todo|
  {
    hide Inv, Step;
    StopStep(s);
    var f := FinishJobs(Step(s, EvStop), os);
    DrainedTable(f);
    ProcessAll(Step(f, EvDrain), o, echoed)
  }

  lemma ExitConcludes(s: Daemon, os: seq<(Outcome, bool)>, o: Outcome, echoed: bool)
    requires Inv(s) && s.held.NoHold? && s.batch == [] && |os| == |s.w.todo|
    ensures Concluded(s, Exit(s, os, o, echoed))
  {
    hide Inv, Step, ProcessAll, FinishJobs, Shown;
    StopStep(s);
    DrainedTable(FinishJobs(Step(s, EvStop), os));
    QuietMeansAnswered(Exit(s, os, o, echoed));
  }

  lemma StopStep(s: Daemon)
    requires Inv(s) && s.held.NoHold? && s.batch == []
    ensures var s' := Step(s, EvStop);
            s'.w == s.w.(shutdown := true) && s'.log == s.log && s'.held == s.held && s'.batch == []
  {
    hide Inv;
  }
}
