/** The copy of the published IP list in the customer's file and in the record of
    it (iplist_mirror_user and the worker's echo): what a copy contains, and what
    the two files show, over every interleaving of the two threads. */
module PersistenceCopy {
  import opened Store
  import opened StoreAsync
  import opened Persistence

  /** What became of the copy of the list in effect: it waits in a job slot, shows
      in the customer's file (and in the record, if `recorded`), or could not be
      written. `NoCopy`: no list was published in this run yet. */
  datatype Copy = NoCopy | Waiting(slot: nat) | Copied(recorded: bool) | Missed

  /** The step publishes a list. */
  predicate Publishes(s: Daemon, e: Event) {
    e.EvProcess? && s.batch != [] && IsIpAck(s.acks, s.batch[0].token) && Visible(s.batch[0].outcome)
  }

  /** The worker writes a copy. */
  predicate WritesCopy(s: Daemon, e: Event)
    requires Listed(s.w)
  {
    e.EvWrite? && s.w.worker == Popped && s.w.jobs[s.w.todo[0]].token == MIRROR
  }

  /** The writer still takes a job for the customer's file. */
  predicate Takes(s: Daemon) {
    !s.w.shutdown && |s.cand.ipList| <= DATA_MAX && |s.paths.user| < PATH_CAP && |s.paths.userLast| < PATH_CAP
  }

  function WrittenCopy(s: Daemon, o: Outcome, echoed: bool): Copy {
    if Visible(o) then Copied(echoed && s.paths.userLast != "") else Missed
  }

  /** The history of the copy: a publication queues one, or writes it at once when
      the writer takes no more jobs. */
  function CopyNext(c: Copy, s: Daemon, e: Event): Copy
    requires Listed(s.w)
  {
    if Publishes(s, e) then
      if Takes(s) then Waiting(FirstFree(s.w.jobs, 0)) else WrittenCopy(s, e.outcome, e.echoed)
    else if WritesCopy(s, e) then WrittenCopy(s, e.outcome, e.echoed)
    else c
  }

  ghost function CopyAfter(s0: Daemon, es: seq<Event>): Copy
    requires Init(s0)
  {
    if es == [] then NoCopy
    else
      var n := |es| - 1;
      CopyNext(CopyAfter(s0, es[..n]), Run(s0, es[..n]), es[n])
  }

  /** The job has not been written yet. */
  predicate Unwritten(w: Writer, i: nat) {
    i < |w.jobs| && w.jobs[i].phase == Queued && !(w.worker.Wrote? && w.todo != [] && w.todo[0] == i)
  }

  /** Every copy in the table is of the list in effect. */
  ghost predicate CopiesOf(w: Writer, list: string) {
    forall i :: 0 <= i < |w.jobs| && Active(w.jobs[i]) && w.jobs[i].token == MIRROR ==> w.jobs[i].data == list
  }

  predicate Holds(disk: map<string, string>, path: string, text: string) {
    path in disk && disk[path] == text
  }

  /** The files and the table agree with the history. */
  ghost predicate Told(c: Copy, s: Daemon) {
    match c
    case NoCopy => true
    case Waiting(i) => Unwritten(s.w, i) && s.w.jobs[i].token == MIRROR
    case Copied(recorded) =>
      && Holds(s.disk, s.paths.user, s.mem.ipList)
      && (recorded ==> Holds(s.disk, s.paths.userLast, s.mem.ipList))
    case Missed => true
  }

  // ---- Steps that publish nothing and write no copy ------------------------------------

  /** Jobs for the customer's file neither come nor go, except that a finished one
      is taken out. */
  ghost predicate SameCopies(w: Writer, w': Writer) {
    && |w'.jobs| == |w.jobs|
    && (forall i :: 0 <= i < |w.jobs| && Active(w'.jobs[i]) && w'.jobs[i].token == MIRROR ==>
          Active(w.jobs[i]) && w.jobs[i].token == MIRROR && w'.jobs[i].data == w.jobs[i].data)
    && (forall i :: 0 <= i < |w.jobs| && Unwritten(w, i) && w.jobs[i].token == MIRROR ==>
          Unwritten(w', i) && w'.jobs[i].token == MIRROR)
  }

  predicate SameFile(disk: map<string, string>, disk': map<string, string>, path: string) {
    (path in disk <==> path in disk') && (path in disk ==> disk'[path] == disk[path])
  }

  lemma SameKeeps(c: Copy, s: Daemon, s': Daemon)
    requires SameCopies(s.w, s'.w) && CopiesOf(s.w, s.mem.ipList) && Told(c, s)
    requires s'.mem.ipList == s.mem.ipList && s'.paths == s.paths
    requires SameFile(s.disk, s'.disk, s.paths.user) && SameFile(s.disk, s'.disk, s.paths.userLast)
    ensures CopiesOf(s'.w, s'.mem.ipList) && Told(c, s')
  {
  }

  lemma ReserveSame(w: Writer, path: string, len: nat)
    requires Listed(w)
    ensures SameCopies(w, Reserve(w, path, len).0)
  {
  }

  lemma IdleSame(w: Writer)
    requires Listed(w)
    ensures SameCopies(w, Pop(w)) && SameCopies(w, w.(shutdown := true))
  {
  }

  lemma AdmitSame(s: Daemon, e: Event)
    requires Listed(s.w) && (e.EvAdmit? || e.EvRelease? || e.EvStop? || e.EvPop?)
    ensures SameCopies(s.w, Next(s, e).w)
    ensures var t := Next(s, e); t.disk == s.disk && t.mem == s.mem && t.paths == s.paths
  {
    hide Listed, SameCopies, Reserve, Cancel, Busy, FirstUnused, Pop;
    Unmoved(s.w);
    IdleSame(s.w);
    if e.EvAdmit? {
      ReserveSame(s.w, PathOf(s.paths, e.res), e.len);
    } else if s.held.Hold? {
      SubmitSame(s.w, s.held.slot, "", 0);
    }
  }

  lemma SubmitSame(w: Writer, slot: nat, data: string, token: nat)
    requires Listed(w) && token != MIRROR
    ensures SameCopies(w, Submit(w, slot, data, token)) && SameCopies(w, Cancel(w, slot))
  {
    var w' := Submit(w, slot, data, token);
    if w.todo != [] && w' != w {
      assert w'.todo[0] == w.todo[0];
    }
  }

  lemma AcceptSame(s: Daemon, e: Event)
    requires Listed(s.w) && |s.acks| == ACK_MAX && e.EvAccept?
    ensures SameCopies(s.w, Next(s, e).w)
    ensures var t := Next(s, e); t.disk == s.disk && t.mem == s.mem && t.paths == s.paths
  {
    hide Listed, SameCopies, Submit, Cancel, CanSubmit;
    if s.held.Hold? && e.req.res == s.held.res {
      SubmitSame(s.w, s.held.slot, e.data, FirstUnused(s.acks, 0));
    } else {
      Unmoved(s.w);
    }
  }

  lemma Unmoved(w: Writer)
    ensures SameCopies(w, w)
  {
  }

  lemma PublishSame(w: Writer)
    requires Listed(w) && w.worker.Wrote?
    ensures SameCopies(w, Publish(w))
  {
  }

  lemma DrainSame(w: Writer)
    requires Listed(w)
    ensures SameCopies(w, Harvest(ClearEvent(w), DEPTH))
  {
    DrainEmpties(w);
    hide Harvest, Harvested, ClearEvent, Taken;
  }

  // ---- The steps that matter --------------------------------------------------------------

  /** The worker's write: of a copy, into both files; of anything else, into neither. */
  lemma WriteStep(c: Copy, s: Daemon, e: Event)
    requires Inv(s) && e.EvWrite? && CopiesOf(s.w, s.mem.ipList) && Told(c, s)
    ensures var t := Next(s, e); CopiesOf(t.w, t.mem.ipList) && Told(CopyNext(c, s, e), t)
  {
    hide Booked, Covered, Batched, Sealed, Shows, MirrorFirst, Gated, Ordered;
    if s.w.worker == Popped {
      WorkerStep(c, s, e.outcome, e.echoed);
    }
  }

  lemma WorkerStep(c: Copy, s: Daemon, o: Outcome, echoed: bool)
    requires Slots(s.w, s.acks, s.held) && s.w.worker == Popped && Distinct(s.paths)
    requires Carried(s.w, s.acks, s.cand, s.paths) && CopiesOf(s.w, s.mem.ipList) && Told(c, s)
    ensures var t := WorkerWrite(s, o, echoed);
            && CopiesOf(t.w, t.mem.ipList)
            && Told(if s.w.jobs[s.w.todo[0]].token == MIRROR then WrittenCopy(s, o, echoed) else c, t)
  {
    hide Ordered, Told, WorkerWrite;
    var j := s.w.jobs[s.w.todo[0]];
    assert Active(j);
    SameTable(s, o, echoed);
    if j.token == MIRROR {
      WroteCopy(s, o, echoed);
    } else {
      OwnPath(s.paths, s.acks[j.token].req.res);
      WroteOther(c, s, o, echoed);
    }
  }

  lemma SameTable(s: Daemon, o: Outcome, echoed: bool)
    requires Listed(s.w) && s.w.worker == Popped
    ensures var t := WorkerWrite(s, o, echoed); t.w.jobs == s.w.jobs && t.mem == s.mem && t.paths == s.paths
  {
  }

  lemma OwnPath(p: Paths, r: Resource)
    requires Distinct(p)
    ensures PathOf(p, r) != p.user && PathOf(p, r) != p.userLast
  {
  }

  lemma WroteCopy(s: Daemon, o: Outcome, echoed: bool)
    requires Listed(s.w) && s.w.worker == Popped && s.paths.user != s.paths.userLast
    requires var j := s.w.jobs[s.w.todo[0]];
             j.path == s.paths.user && j.echo == s.paths.userLast && j.data == s.mem.ipList
    ensures Told(WrittenCopy(s, o, echoed), WorkerWrite(s, o, echoed))
  {
    hide Listed;
  }

  lemma WroteOther(c: Copy, s: Daemon, o: Outcome, echoed: bool)
    requires Listed(s.w) && s.w.worker == Popped && Told(c, s)
    requires var j := s.w.jobs[s.w.todo[0]];
             j.path != s.paths.user && j.path != s.paths.userLast && j.echo == "" && j.token != MIRROR
    ensures Told(c, WorkerWrite(s, o, echoed))
  {
  }

  lemma SettledStep(c: Copy, s: Daemon)
    requires Inv(s) && s.batch != [] && IsAck(s.acks, s.batch[0].token)
    requires CopiesOf(s.w, s.mem.ipList) && Told(c, s)
    ensures var t := Settled(s);
            && CopiesOf(t.w, t.mem.ipList)
            && (!Publishes(s, EvProcess(Durable, true)) ==> Told(c, t))
            && (Publishes(s, EvProcess(Durable, true)) ==> NoMirror(t.w) && t.mem.ipList == s.cand.ipList)
  {
    hide Booked, Covered, Batched, Sealed, Shows, Carried, Gated, Ordered;
  }

  lemma MirrorQueues(w: Writer, p: Paths, text: string)
    requires Listed(w) && NoMirror(w) && FirstFree(w.jobs, 0) < DEPTH && !w.shutdown
    requires |text| <= DATA_MAX && |p.user| < PATH_CAP
    ensures var (w1, v) := Reserve(w, p.user, |text|);
            v.Slot? && v.slot == FirstFree(w.jobs, 0) &&
            (var w' := Submit(SetEcho(w1, v.slot, p.userLast), v.slot, text, MIRROR);
             CopiesOf(w', text) && Unwritten(w', v.slot) && w'.jobs[v.slot].token == MIRROR)
  {
    var (w1, v) := Reserve(w, p.user, |text|);
    var w2 := SetEcho(w1, v.slot, p.userLast);
    var w' := Submit(w2, v.slot, text, MIRROR);
    assert CanSubmit(w2, v.slot, text);
    assert w'.todo == w.todo + [v.slot] && w'.worker == w.worker;
    assert forall k :: 0 <= k < DEPTH && k != v.slot ==> w'.jobs[k] == w.jobs[k];
  }

  lemma MirrorStep(s: Daemon, o: Outcome, echoed: bool)
    requires Listed(s.w) && NoMirror(s.w) && FirstFree(s.w.jobs, 0) < DEPTH && Distinct(s.paths)
    requires s.mem.ipList == s.cand.ipList
    ensures var t := Mirror(s, o, echoed);
            && CopiesOf(t.w, t.mem.ipList)
            && Told(if Takes(s) then Waiting(FirstFree(s.w.jobs, 0)) else WrittenCopy(s, o, echoed), t)
  {
    hide Listed, Submit, SetEcho, FirstFree, Unwritten;
    if Takes(s) {
      MirrorQueues(s.w, s.paths, s.mem.ipList);
    }
  }

  lemma ProcessStep(c: Copy, s: Daemon, e: Event)
    requires Inv(s) && e.EvProcess? && CopiesOf(s.w, s.mem.ipList) && Told(c, s)
    ensures var t := Next(s, e); CopiesOf(t.w, t.mem.ipList) && Told(CopyNext(c, s, e), t)
  {
    hide Booked, Covered, Batched, Sealed, Shows, Carried, Gated, Ordered, Mirror, NoMirror, CopiesOf, Told,
      MirrorFirst, Takes, FirstFree, Occupied;
    if s.batch != [] {
      if IsAck(s.acks, s.batch[0].token) {
        SettledStep(c, s);
        if Publishes(s, e) {
          SlotAvailable(s.w, s.acks, s.held);
          TakesSame(s);
          MirrorStep(Settled(s), e.outcome, e.echoed);
        }
      } else {
        ToldSame(c, s, s.(batch := s.batch[1..]));
      }
    }
  }

  lemma TakesSame(s: Daemon)
    requires s.batch != [] && IsAck(s.acks, s.batch[0].token)
    ensures Takes(Settled(s)) <==> Takes(s)
  {
  }

  lemma ToldSame(c: Copy, s: Daemon, t: Daemon)
    requires Told(c, s) && t.w == s.w && t.disk == s.disk && t.mem == s.mem && t.paths == s.paths
    ensures Told(c, t)
  {
  }

  lemma InvListed(s: Daemon)
    requires Inv(s)
    ensures Listed(s.w)
  {
  }

  lemma CopyStep(c: Copy, s: Daemon, e: Event)
    requires Inv(s) && CopiesOf(s.w, s.mem.ipList) && Told(c, s)
    ensures var t := Next(s, e); CopiesOf(t.w, t.mem.ipList) && Told(CopyNext(c, s, e), t)
  {
    hide Inv, CopiesOf, Told, SameCopies;
    if e.EvProcess? {
      ProcessStep(c, s, e);
    } else if e.EvWrite? {
      WriteStep(c, s, e);
    } else {
      InvListed(s);
      OtherSame(s, e);
      SameKeeps(c, s, Next(s, e));
    }
  }

  lemma OtherSame(s: Daemon, e: Event)
    requires Inv(s) && !e.EvProcess? && !e.EvWrite?
    ensures SameCopies(s.w, Next(s, e).w)
    ensures var t := Next(s, e); t.disk == s.disk && t.mem == s.mem && t.paths == s.paths
  {
    hide Booked, Covered, Batched, Sealed, Shows, MirrorFirst, Carried, Gated, Ordered, SameCopies;
    match e
    case EvAccept(_, _) => AcceptSame(s, e);
    case EvDrain => if s.held.NoHold? && s.batch == [] { DrainSame(s.w); } else { Unmoved(s.w); }
    case EvPublish => if s.w.worker.Wrote? { PublishSame(s.w); } else { Unmoved(s.w); }
    case _ => AdmitSame(s, e);
  }

  // ---- Runs -------------------------------------------------------------------------------

  /** Over every run: each copy on its way is of the list in effect, for the
      customer's file and its record; once its write is visible, and until the next
      list is published, the customer's file shows exactly the list in effect, and
      so does the record if that write went through too; before that the copy is
      waiting, unless its write failed. */
  lemma {:induction false} CopyShows(s0: Daemon, es: seq<Event>)
    requires Init(s0)
    ensures var s := Run(s0, es);
            && Told(CopyAfter(s0, es), s)
            && (forall i :: 0 <= i < |s.w.jobs| && Active(s.w.jobs[i]) && s.w.jobs[i].token == MIRROR ==>
                  s.w.jobs[i].data == s.mem.ipList && s.w.jobs[i].path == s.paths.user &&
                  s.w.jobs[i].echo == s.paths.userLast)
  {
    hide Inv, Next, CopyNext, Told;
    CopyRun(s0, es);
    CopyPaths(Run(s0, es));
  }

  lemma {:induction false} CopyRun(s0: Daemon, es: seq<Event>)
    requires Init(s0)
    ensures var s := Run(s0, es); CopiesOf(s.w, s.mem.ipList) && Told(CopyAfter(s0, es), s)
  {
    hide Inv, Next, CopyNext, Told, CopiesOf, Init;
    if es == [] {
      CopyInit(s0);
    } else {
      var n := |es| - 1;
      CopyRun(s0, es[..n]);
      CopyStep(CopyAfter(s0, es[..n]), Run(s0, es[..n]), es[n]);
    }
  }

  lemma CopyInit(s: Daemon)
    requires Init(s)
    ensures CopiesOf(s.w, s.mem.ipList) && Told(NoCopy, s)
  {
  }

  lemma CopyPaths(s: Daemon)
    requires Inv(s)
    ensures forall i :: 0 <= i < |s.w.jobs| && Active(s.w.jobs[i]) && s.w.jobs[i].token == MIRROR ==>
              s.w.jobs[i].path == s.paths.user && s.w.jobs[i].echo == s.paths.userLast
  {
    hide Booked, Covered, Batched, Sealed, Shows, MirrorFirst, Gated, Slots;
  }

  /** The step puts a copy into the customer's file. */
  predicate ShowsCopy(s: Daemon, e: Event)
    requires Listed(s.w)
  {
    (WritesCopy(s, e) || (Publishes(s, e) && !Takes(s))) && Visible(e.outcome)
  }

  lemma ProcessFiles(s: Daemon, e: Event)
    requires Inv(s) && e.EvProcess? && !ShowsCopy(s, e)
    ensures Next(s, e).disk == s.disk
  {
    hide Booked, Covered, Batched, Sealed, Shows, Carried, Gated, Ordered, Submit, SetEcho, FirstFree;
    if s.batch != [] && IsAck(s.acks, s.batch[0].token) {
      SlotAvailable(s.w, s.acks, s.held);
    }
  }

  lemma WriteFiles(s: Daemon, e: Event)
    requires Inv(s) && e.EvWrite? && !ShowsCopy(s, e)
    ensures var t := Next(s, e); SameFile(s.disk, t.disk, s.paths.user) && SameFile(s.disk, t.disk, s.paths.userLast)
  {
    hide Booked, Covered, Batched, Sealed, Shows, MirrorFirst, Gated, Ordered;
    if s.w.worker == Popped {
      var j := s.w.jobs[s.w.todo[0]];
      assert Active(j);
      if IsAck(s.acks, j.token) {
        OwnPath(s.paths, s.acks[j.token].req.res);
      }
    }
  }

  /** No other step touches either file, whatever job it writes. */
  lemma OnlyCopies(s0: Daemon, es: seq<Event>, e: Event)
    requires Init(s0) && !ShowsCopy(Run(s0, es), e)
    ensures var s, t := Run(s0, es), Next(Run(s0, es), e);
            SameFile(s.disk, t.disk, s.paths.user) && SameFile(s.disk, t.disk, s.paths.userLast)
  {
    hide Inv, Run, ShowsCopy;
    var s := Run(s0, es);
    if e.EvProcess? {
      ProcessFiles(s, e);
    } else if e.EvWrite? {
      WriteFiles(s, e);
    } else {
      OtherSame(s, e);
    }
  }
}
