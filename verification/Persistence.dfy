/** Deferred acknowledgements on top of the writer (the persistence part of
    opcd/handler.c): one gate per persisted resource, one acknowledgement slot
    per outstanding write, candidates published only when the write's outcome is
    known, and a copy of each published IP list queued for the customer file.
    The main thread's steps interleave freely with the worker's. */
module Persistence {
  import opened Common
  import opened Store
  import opened StoreAsync

  const ACK_MAX: nat := 16
  const MIRROR: nat := 0xFFFF_FFFF_FFFF_FFFE

  datatype Resource = Password | IpList | Radio

  datatype Request = Request(res: Resource, noAck: bool, ip: nat, port: nat, seqNo: nat)

  /** A pending acknowledgement; `id` numbers the accepted requests. */
  datatype Ack = Unused | InUse(id: nat, req: Request, gen: nat)

  /** An acknowledgement attempt: where it goes, what it says, and whether it is
      transmitted at all (a partial IP-list commit answered earlier). */
  datatype Answer = Answer(ip: nat, port: nat, seqNo: nat, ok: bool, transmitted: bool)

  datatype Held = NoHold | Hold(slot: nat, res: Resource)

  datatype Paths = Paths(password: string, ipList: string, user: string, userLast: string, radio: string)

  /** The byte strings of the two settings published only after their write. */
  datatype Settings = Settings(password: string, ipList: string)

  /** `batch` is what is left of the completions being worked through; `held` is
      the reservation of the request being dispatched. The last five fields are
      the history: accepted requests with the acknowledgement slot each took,
      the job slot of each acknowledgement, attempts, and write outcomes. */
  datatype Daemon = Daemon(
    w: Writer, acks: seq<Ack>, batch: seq<Completion>, held: Held, running: bool, gen: nat,
    mem: Settings, cand: Settings, disk: map<string, string>, paths: Paths, missing: Settings,
    log: seq<Request>, slotOf: seq<nat>, at: seq<nat>, answers: map<nat, Answer>, fate: map<nat, Outcome>)

  predicate Busy(acks: seq<Ack>, r: Resource) {
    exists a :: 0 <= a < |acks| && acks[a].InUse? && acks[a].req.res == r
  }

  predicate IsAck(acks: seq<Ack>, token: nat) {
    token < |acks| && acks[token].InUse?
  }

  function FirstUnused(acks: seq<Ack>, a: nat): (r: nat)
    requires a <= |acks|
    ensures a <= r <= |acks|
    ensures r < |acks| ==> acks[r].Unused?
    ensures forall k :: a <= k < r ==> acks[k].InUse?
    decreases |acks| - a
  {
    if a == |acks| || acks[a].Unused? then a else FirstUnused(acks, a + 1)
  }

  function PathOf(p: Paths, r: Resource): string {
    match r
    case Password => p.password
    case IpList => p.ipList
    case Radio => p.radio
  }

  function With(s: Settings, r: Resource, v: string): Settings {
    match r
    case Password => s.(password := v)
    case IpList => s.(ipList := v)
    case Radio => s
  }

  function ValueOf(s: Settings, r: Resource): string {
    match r
    case Password => s.password
    case IpList => s.ipList
    case Radio => ""
  }

  // ---- Main-thread steps ----------------------------------------------------

  datatype Admission = Admitted | Refused | Saturated | Failed

  /** One attempt of persist_admit. `Saturated` is the capacity shortage on which
      the code harvests once and tries again. */
  function Admit(s: Daemon, r: Resource, len: nat): (Daemon, Admission)
    requires Listed(s.w)
  {
    if Busy(s.acks, r) then (s, Refused)
    else if FirstUnused(s.acks, 0) == |s.acks| then (s, Saturated)
    else
      var (w, v) := Reserve(s.w, PathOf(s.paths, r), len);
      match v
      case Slot(i) => (s.(w := w, held := Hold(i, r)), Admitted)
      case Full => (s, Saturated)
      case _ => (s, Admission.Failed)
  }

  /** The dispatched request turned out to need no write. */
  function Release(s: Daemon): Daemon
    requires Listed(s.w) && s.held.Hold?
  {
    s.(w := Cancel(s.w, s.held.slot), held := NoHold)
  }

  /** persist_blob, and the candidate saved by the handler. A radio request
      starts a new generation and binds the write to it. */
  function Accept(s: Daemon, req: Request, data: string): Daemon
    requires Listed(s.w) && s.held.Hold? && req.res == s.held.res
  {
    var a, i := FirstUnused(s.acks, 0), s.held.slot;
    var gen := if req.res == Radio then s.gen + 1 else s.gen;
    if a == |s.acks| || !CanSubmit(s.w, i, data) then
      s.(w := Cancel(s.w, i), held := NoHold, gen := gen)
    else
      s.(w := Submit(s.w, i, data, a), held := NoHold, gen := gen,
         acks := s.acks[a := InUse(|s.log|, req, gen)],
         cand := With(s.cand, req.res, data),
         log := s.log + [req], slotOf := s.slotOf + [a],
         at := if a < |s.at| then s.at[a := i] else s.at)
  }

  /** opc_store_async_drain of the whole table. */
  function Drain(s: Daemon): Daemon {
    s.(batch := Harvested(s.w, DEPTH), w := Harvest(ClearEvent(s.w), DEPTH))
  }

  /** A synchronous replacement and its echo. */
  function WriteUser(disk: map<string, string>, p: Paths, text: string, o: Outcome, echoed: bool): map<string, string> {
    if !Visible(o) then disk
    else if echoed then disk[p.user := text][p.userLast := text]
    else disk[p.user := text]
  }

  /** iplist_mirror_user: queue the copy for the customer file, or write it here
      when the writer no longer takes jobs. */
  function Mirror(s: Daemon, o: Outcome, echoed: bool): Daemon
    requires Listed(s.w)
  {
    var text := s.mem.ipList;
    var (w, v) := Reserve(s.w, s.paths.user, |text|);
    if v.Slot? && |s.paths.userLast| < PATH_CAP
    then s.(w := Submit(SetEcho(w, v.slot, s.paths.userLast), v.slot, text, MIRROR))
    else s.(disk := WriteUser(s.disk, s.paths, text, o, echoed))
  }

  /** Reconcile the published value with the outcome, attempt the
      acknowledgement, open the gate. */
  function Settled(s: Daemon): Daemon
    requires s.batch != [] && IsAck(s.acks, s.batch[0].token)
  {
    var c := s.batch[0];
    var ack := s.acks[c.token];
    s.(batch := s.batch[1..],
       mem := if Visible(c.outcome) then With(s.mem, ack.req.res, ValueOf(s.cand, ack.req.res)) else s.mem,
       acks := s.acks[c.token := Unused],
       answers := s.answers[ack.id := Answer(ack.req.ip, ack.req.port, ack.req.seqNo, c.rc == 0, !ack.req.noAck)])
  }

  /** The loop body of opcd_store_async_on_ready. The mirror copy depends on the
      published list only, so its place in the body does not matter; `o` and
      `echoed` are used only if it has to be written synchronously. */
  function Process(s: Daemon, o: Outcome, echoed: bool): Daemon
    requires Listed(s.w) && s.batch != []
  {
    var c := s.batch[0];
    if !IsAck(s.acks, c.token) then s.(batch := s.batch[1..])
    else if Visible(c.outcome) && s.acks[c.token].req.res == IpList then Mirror(Settled(s), o, echoed)
    else Settled(s)
  }

  function Stop(s: Daemon): Daemon {
    s.(running := false, w := s.w.(shutdown := true))
  }

  // ---- Worker steps ---------------------------------------------------------

  /** The popped job's files change and its fate is sealed. */
  function WorkerWrite(s: Daemon, o: Outcome, echoed: bool): Daemon
    requires Listed(s.w) && s.w.worker == Popped
  {
    var j := s.w.jobs[s.w.todo[0]];
    var disk := if !Visible(o) then s.disk
                else if j.echo != "" && echoed then s.disk[j.path := j.data][j.echo := j.data]
                else s.disk[j.path := j.data];
    var fate := if IsAck(s.acks, j.token) then s.fate[s.acks[j.token].id := o] else s.fate;
    s.(w := WriteReturned(s.w, o), disk := disk, fate := fate)
  }

  datatype Event =
    | EvAdmit(res: Resource, len: nat)
    | EvRelease
    | EvAccept(req: Request, data: string)
    | EvDrain
    | EvProcess(outcome: Outcome, echoed: bool)
    | EvStop
    | EvPop
    | EvWrite(outcome: Outcome, echoed: bool)
    | EvPublish

  /** One step of either thread; an event its thread cannot perform now changes
      nothing. Dispatch happens only between drains and before the stop. */
  function Next(s: Daemon, e: Event): Daemon
    requires Listed(s.w)
  {
    match e
    case EvAdmit(r, len) =>
      if s.running && s.held.NoHold? && s.batch == [] then Admit(s, r, len).0 else s
    case EvRelease => if s.held.Hold? then Release(s) else s
    case EvAccept(req, data) =>
      if s.held.Hold? && req.res == s.held.res then Accept(s, req, data) else s
    case EvDrain => if s.held.NoHold? && s.batch == [] then Drain(s) else s
    case EvProcess(o, echoed) => if s.batch != [] then Process(s, o, echoed) else s
    case EvStop => if s.held.NoHold? && s.batch == [] then Stop(s) else s
    case EvPop => if s.w.worker == Idle && s.w.todo != [] then s.(w := Pop(s.w)) else s
    case EvWrite(o, echoed) => if s.w.worker == Popped then WorkerWrite(s, o, echoed) else s
    case EvPublish => if s.w.worker.Wrote? then s.(w := Publish(s.w)) else s
  }

  // ---- The invariant, by concern ---------------------------------------------

  /** Every job answers one pending acknowledgement or is the mirror copy, and no
      two jobs share a token; the only reservation is the one being dispatched,
      whose gate is open. */
  ghost predicate Slots(w: Writer, acks: seq<Ack>, held: Held) {
    && Wf(w) && |acks| == ACK_MAX
    && (forall i :: 0 <= i < DEPTH && Active(w.jobs[i]) ==>
          w.jobs[i].token == MIRROR || IsAck(acks, w.jobs[i].token))
    && (forall i, j :: 0 <= i < j < DEPTH && Active(w.jobs[i]) && Active(w.jobs[j]) ==>
          w.jobs[i].token != w.jobs[j].token)
    && (forall i :: 0 <= i < DEPTH && w.jobs[i].phase == Reserved ==> held.Hold? && held.slot == i)
    && (held.Hold? ==> held.slot < DEPTH && w.jobs[held.slot].phase == Reserved && !Busy(acks, held.res))
  }

  /** The gate: one outstanding write per resource. */
  ghost predicate Gated(acks: seq<Ack>) {
    forall a, b :: 0 <= a < b < |acks| && acks[a].InUse? && acks[b].InUse? ==>
      acks[a].req.res != acks[b].req.res
  }

  /** A completion in the batch belongs to a pending acknowledgement whose job has
      left the table, or is a mirror's. */
  ghost predicate Batched(w: Writer, acks: seq<Ack>, batch: seq<Completion>, held: Held) {
    && (batch != [] ==> held.NoHold?)
    && (forall k :: 0 <= k < |batch| ==> batch[k].token == MIRROR || IsAck(acks, batch[k].token))
    && (forall k, l :: 0 <= k < l < |batch| ==> batch[k].token != batch[l].token)
    && (forall k, i :: 0 <= k < |batch| && 0 <= i < |w.jobs| && Active(w.jobs[i]) && batch[k].token != MIRROR ==>
          w.jobs[i].token != batch[k].token)
  }

  /** A pending acknowledgement still has its job, or its completion. */
  ghost predicate Covered(w: Writer, acks: seq<Ack>, batch: seq<Completion>, at: seq<nat>) {
    && |at| == |acks|
    && (forall a :: 0 <= a < |acks| && acks[a].InUse? ==>
          || (at[a] < |w.jobs| && Active(w.jobs[at[a]]) && w.jobs[at[a]].token == a)
          || HasToken(batch, a))
  }

  ghost predicate HasToken(batch: seq<Completion>, token: nat) {
    exists k :: 0 <= k < |batch| && batch[k].token == token
  }

  predicate IsIpAck(acks: seq<Ack>, token: nat) {
    IsAck(acks, token) && acks[token].req.res == IpList
  }

  /** The mirror copy is always older than the next IP-list write, so it has
      finished, and been harvested, when that write is reconciled. */
  ghost predicate MirrorFirst(w: Writer, acks: seq<Ack>, batch: seq<Completion>) {
    && (forall i, j ::
          (0 <= i < |w.jobs| && Active(w.jobs[i]) && w.jobs[i].token == MIRROR) &&
          (0 <= j < |w.jobs| && Active(w.jobs[j]) && IsIpAck(acks, w.jobs[j].token)) ==>
            w.jobs[i].ticket < w.jobs[j].ticket)
    && ((exists k :: 0 <= k < |batch| && IsIpAck(acks, batch[k].token)) ==> NoMirror(w))
  }

  ghost predicate NoMirror(w: Writer) {
    forall i :: 0 <= i < |w.jobs| && Active(w.jobs[i]) ==> w.jobs[i].token != MIRROR
  }

  /** Jobs carry the saved candidates to their own files. */
  ghost predicate Carried(w: Writer, acks: seq<Ack>, cand: Settings, p: Paths) {
    forall i :: 0 <= i < |w.jobs| && Active(w.jobs[i]) ==>
      var j := w.jobs[i];
      if j.token == MIRROR then j.path == p.user && j.echo == p.userLast
      else IsAck(acks, j.token) ==>
        && j.path == PathOf(p, acks[j.token].req.res) && j.echo == ""
        && (acks[j.token].req.res != Radio ==> j.data == ValueOf(cand, acks[j.token].req.res))
  }

  /** The reservation is for its resource's file. */
  ghost predicate Ready(w: Writer, held: Held, p: Paths) {
    held.Hold? && held.slot < |w.jobs| ==>
      w.jobs[held.slot].path == PathOf(p, held.res) && w.jobs[held.slot].echo == ""
  }

  /** A job's outcome is recorded exactly when its write has returned, and its
      completion reports that outcome. */
  ghost predicate Sealed(w: Writer, acks: seq<Ack>, batch: seq<Completion>, fate: map<nat, Outcome>) {
    && (forall i :: 0 <= i < |w.jobs| && Active(w.jobs[i]) && IsAck(acks, w.jobs[i].token) ==>
          var id := acks[w.jobs[i].token].id;
          if w.jobs[i].phase == Done then
            id in fate && fate[id] == w.jobs[i].outcome && w.jobs[i].rc == RcOf(w.jobs[i].outcome)
          else if w.worker.Wrote? && w.todo != [] && w.todo[0] == i then
            id in fate && fate[id] == w.worker.outcome
          else id !in fate)
    && (forall k :: 0 <= k < |batch| && IsAck(acks, batch[k].token) ==>
          var id := acks[batch[k].token].id;
          id in fate && fate[id] == batch[k].outcome && batch[k].rc == RcOf(batch[k].outcome))
  }

  function Shown(disk: map<string, string>, path: string, missing: string): string {
    if path in disk then disk[path] else missing
  }

  predicate Distinct(p: Paths) {
    && p.password != p.ipList && p.password != p.user && p.password != p.userLast && p.password != p.radio
    && p.ipList != p.user && p.ipList != p.userLast && p.ipList != p.radio
    && p.user != p.userLast && p.user != p.radio && p.userLast != p.radio
  }

  /** What the file of `r` must show: the published value, or the candidate once
      its write has become visible. */
  ghost predicate Shows(r: Resource, acks: seq<Ack>, disk: map<string, string>, mem: Settings,
                        cand: Settings, missing: Settings, fate: map<nat, Outcome>, p: Paths) {
    var shown := Shown(disk, PathOf(p, r), ValueOf(missing, r));
    && (!Busy(acks, r) ==> shown == ValueOf(mem, r))
    && (forall a :: 0 <= a < |acks| && acks[a].InUse? && acks[a].req.res == r ==>
          shown == ValueOf(if acks[a].id in fate && Visible(fate[acks[a].id]) then cand else mem, r))
  }

  /** Every accepted request is pending or has been answered, at its own address
      with its own sequence number, OK iff its write was durable. */
  ghost predicate Booked(acks: seq<Ack>, log: seq<Request>, slotOf: seq<nat>,
                         answers: map<nat, Answer>, fate: map<nat, Outcome>) {
    && |slotOf| == |log|
    && (forall a :: 0 <= a < |acks| && acks[a].InUse? ==>
          && acks[a].id < |log| && slotOf[acks[a].id] == a
          && log[acks[a].id] == acks[a].req && acks[a].id !in answers)
    && (forall n :: 0 <= n < |log| && n !in answers ==>
          slotOf[n] < |acks| && acks[slotOf[n]].InUse? && acks[slotOf[n]].id == n)
    && (forall n :: n in answers ==>
          && n < |log| && n in fate
          && answers[n] == Answer(log[n].ip, log[n].port, log[n].seqNo, fate[n] == Durable, !log[n].noAck))
    && (forall n :: n in fate ==> n < |log|)
  }

  /** The pending radio write is the current generation's. */
  ghost predicate Current(acks: seq<Ack>, gen: nat) {
    forall a :: 0 <= a < |acks| && acks[a].InUse? && acks[a].req.res == Radio ==> acks[a].gen == gen
  }

  ghost predicate Inv(s: Daemon) {
    && Slots(s.w, s.acks, s.held) && Gated(s.acks)
    && Batched(s.w, s.acks, s.batch, s.held) && Covered(s.w, s.acks, s.batch, s.at)
    && MirrorFirst(s.w, s.acks, s.batch)
    && Distinct(s.paths) && Carried(s.w, s.acks, s.cand, s.paths) && Ready(s.w, s.held, s.paths)
    && Sealed(s.w, s.acks, s.batch, s.fate)
    && Shows(Password, s.acks, s.disk, s.mem, s.cand, s.missing, s.fate, s.paths)
    && Shows(IpList, s.acks, s.disk, s.mem, s.cand, s.missing, s.fate, s.paths)
    && Booked(s.acks, s.log, s.slotOf, s.answers, s.fate)
    && Current(s.acks, s.gen)
    && (s.running ==> !s.w.shutdown)
  }

  // ---- Capacity ---------------------------------------------------------------

  /** The duty a slot in use serves: one of three resources, or the mirror. */
  ghost function Duty(w: Writer, acks: seq<Ack>, held: Held, i: nat): nat
    requires |w.jobs| == DEPTH && i < DEPTH
  {
    var t := w.jobs[i].token;
    if w.jobs[i].phase == Reserved then (if held.Hold? then Rank(held.res) else 0)
    else if t < |acks| && acks[t].InUse? then Rank(acks[t].req.res) else 3
  }

  function Rank(r: Resource): (n: nat)
    ensures n < 3
  {
    match r
    case Password => 0
    case IpList => 1
    case Radio => 2
  }

  function Occupied(jobs: seq<Job>, i: nat): (r: seq<nat>)
    requires i <= |jobs|
    ensures forall k :: 0 <= k < |r| ==> r[k] < i && jobs[r[k]].phase != Free
    ensures forall k, l :: 0 <= k < l < |r| ==> r[k] < r[l]
    ensures forall k :: 0 <= k < i && jobs[k].phase != Free ==> k in r
  {
    if i == 0 then []
    else if jobs[i - 1].phase == Free then Occupied(jobs, i - 1)
    else Occupied(jobs, i - 1) + [i - 1]
  }

  lemma DutiesDiffer(w: Writer, acks: seq<Ack>, held: Held, i: nat, j: nat)
    requires Slots(w, acks, held) && Gated(acks) && i < j < DEPTH
    requires w.jobs[i].phase != Free && w.jobs[j].phase != Free
    ensures Duty(w, acks, held, i) != Duty(w, acks, held, j)
  {
    var ti, tj := w.jobs[i].token, w.jobs[j].token;
    if w.jobs[i].phase == Reserved {
      assert Active(w.jobs[j]);
    } else if w.jobs[j].phase == Reserved {
      assert Active(w.jobs[i]);
    } else {
      assert ti != tj;
    }
  }

  /** At most four of the sixteen job slots are ever in use. */
  lemma AtMostFour(w: Writer, acks: seq<Ack>, held: Held)
    requires Slots(w, acks, held) && Gated(acks)
    ensures |Occupied(w.jobs, DEPTH)| <= 4
  {
    var o := Occupied(w.jobs, DEPTH);
    var d := seq(|o|, k requires 0 <= k < |o| => Duty(w, acks, held, o[k]));
    forall k, l | 0 <= k < l < |o| ensures d[k] != d[l] {
      DutiesDiffer(w, acks, held, o[k], o[l]);
    }
    DistinctFit(d, 4);
  }

  lemma FewPending(acks: seq<Ack>)
    requires |acks| == ACK_MAX && Gated(acks)
    ensures FirstUnused(acks, 0) < ACK_MAX
  {
    if FirstUnused(acks, 0) == ACK_MAX {
      var d := seq(4, k requires 0 <= k < 4 => Rank(acks[k].req.res));
      forall k, l | 0 <= k < l < 4 ensures d[k] != d[l] {
        assert acks[k].req.res != acks[l].req.res;
      }
      DistinctFit(d, 3);
    }
  }

  lemma SlotAvailable(w: Writer, acks: seq<Ack>, held: Held)
    requires Slots(w, acks, held) && Gated(acks)
    ensures FirstFree(w.jobs, 0) < DEPTH
  {
    if FirstFree(w.jobs, 0) == DEPTH {
      AtMostFour(w, acks, held);
      var o := Occupied(w.jobs, DEPTH);
      assert Below(DEPTH) <= Elements(o);
      SubsetSize(Below(DEPTH), Elements(o));
      DistinctSize(o);
    }
  }

  // ---- Steps that touch only free and reserved slots --------------------------

  lemma QuietKeeps(s: Daemon, w': Writer)
    requires Inv(s) && Quiet(s.w, w')
    ensures Batched(w', s.acks, s.batch, NoHold) && Covered(w', s.acks, s.batch, s.at)
    ensures MirrorFirst(w', s.acks, s.batch)
    ensures Carried(w', s.acks, s.cand, s.paths) && Sealed(w', s.acks, s.batch, s.fate)
  {
  }

  lemma AdmitSlots(w: Writer, acks: seq<Ack>, r: Resource, path: string, len: nat)
    requires Slots(w, acks, NoHold) && !Busy(acks, r) && Reserve(w, path, len).1.Slot?
    ensures var (w', v) := Reserve(w, path, len);
            && Slots(w', acks, Hold(v.slot, r)) && Quiet(w, w')
            && w'.jobs[v.slot].path == path && w'.jobs[v.slot].echo == ""
  {
    ReserveQuiet(w, path, len);
    QuietWf(w, Reserve(w, path, len).0);
  }

  lemma AdmitKeeps(s: Daemon, r: Resource, len: nat)
    requires Inv(s) && s.running && s.held.NoHold? && s.batch == []
    ensures Inv(Admit(s, r, len).0)
  {
    var (s', v) := Admit(s, r, len);
    if v == Admitted {
      AdmitSlots(s.w, s.acks, r, PathOf(s.paths, r), len);
      QuietKeeps(s, s'.w);
    }
  }

  lemma CancelSlots(w: Writer, acks: seq<Ack>, held: Held)
    requires Slots(w, acks, held) && held.Hold?
    ensures Slots(Cancel(w, held.slot), acks, NoHold) && Quiet(w, Cancel(w, held.slot))
  {
    QuietWf(w, Cancel(w, held.slot));
  }

  lemma ReleaseKeeps(s: Daemon)
    requires Inv(s) && s.held.Hold?
    ensures Inv(Release(s))
  {
    CancelSlots(s.w, s.acks, s.held);
    QuietKeeps(s, Cancel(s.w, s.held.slot));
  }

  // ---- Accepting a request ------------------------------------------------------

  /** `w'` is `w` with slot `i` newly queued for `token`. */
  ghost predicate Added(w: Writer, w': Writer, i: nat, token: nat)
    requires |w.jobs| == DEPTH
  {
    && |w'.jobs| == DEPTH && i < DEPTH && !Active(w.jobs[i])
    && w'.jobs[i].phase == Queued && w'.jobs[i].token == token && w'.jobs[i].ticket == w.issued
    && (forall k :: 0 <= k < DEPTH && k != i ==> w'.jobs[k] == w.jobs[k])
    && w'.todo == w.todo + [i] && w'.worker == w.worker && w'.shutdown == w.shutdown
  }

  lemma AcceptSlots(w: Writer, acks: seq<Ack>, held: Held, data: string, a: nat, ack: Ack)
    requires Slots(w, acks, held) && held.Hold? && CanSubmit(w, held.slot, data)
    requires a < |acks| && acks[a].Unused? && ack.InUse?
    ensures var w' := Submit(w, held.slot, data, a);
            && Slots(w', acks[a := ack], NoHold) && Added(w, w', held.slot, a)
            && w'.jobs[held.slot].path == w.jobs[held.slot].path
            && w'.jobs[held.slot].echo == w.jobs[held.slot].echo && w'.jobs[held.slot].data == data
  {
    SubmitWf(w, held.slot, data, a);
  }

  lemma AcceptBatch(w: Writer, w': Writer, acks: seq<Ack>, at: seq<nat>, i: nat, a: nat, ack: Ack)
    requires |w.jobs| == DEPTH && Added(w, w', i, a) && a < |acks| && acks[a].Unused? && ack.InUse?
    requires Covered(w, acks, [], at)
    ensures Batched(w', acks[a := ack], [], NoHold)
    ensures Covered(w', acks[a := ack], [], at[a := i])
  {
  }

  lemma AcceptGate(acks: seq<Ack>, a: nat, ack: Ack)
    requires Gated(acks) && a < |acks| && ack.InUse? && !Busy(acks, ack.req.res)
    ensures Gated(acks[a := ack])
  {
  }

  lemma AcceptMirror(w: Writer, w': Writer, acks: seq<Ack>, i: nat, a: nat, ack: Ack)
    requires Wf(w) && Added(w, w', i, a) && a < |acks| == ACK_MAX && acks[a].Unused? && ack.InUse?
    requires MirrorFirst(w, acks, [])
    requires forall k :: 0 <= k < DEPTH && Active(w.jobs[k]) ==> w.jobs[k].token != a
    ensures MirrorFirst(w', acks[a := ack], [])
  {
  }

  lemma AcceptCarried(w: Writer, w': Writer, acks: seq<Ack>, cand: Settings, p: Paths,
                      i: nat, a: nat, ack: Ack, data: string)
    requires |w.jobs| == DEPTH && Added(w, w', i, a) && a < |acks| == ACK_MAX && acks[a].Unused? && ack.InUse?
    requires Carried(w, acks, cand, p) && !Busy(acks, ack.req.res)
    requires forall k :: 0 <= k < DEPTH && Active(w.jobs[k]) ==> w.jobs[k].token != a
    requires w'.jobs[i].path == PathOf(p, ack.req.res) && w'.jobs[i].echo == "" && w'.jobs[i].data == data
    ensures Carried(w', acks[a := ack], With(cand, ack.req.res, data), p)
  {
  }

  lemma AcceptSealed(w: Writer, w': Writer, acks: seq<Ack>, fate: map<nat, Outcome>, i: nat, a: nat, ack: Ack)
    requires Listed(w) && Added(w, w', i, a) && a < |acks| == ACK_MAX && acks[a].Unused? && ack.InUse?
    requires Sealed(w, acks, [], fate) && ack.id !in fate
    requires forall k :: 0 <= k < DEPTH && Active(w.jobs[k]) ==> w.jobs[k].token != a
    ensures Sealed(w', acks[a := ack], [], fate)
  {
  }

  lemma AcceptShows(r: Resource, s: Daemon, a: nat, ack: Ack, data: string)
    requires Shows(r, s.acks, s.disk, s.mem, s.cand, s.missing, s.fate, s.paths)
    requires a < |s.acks| && s.acks[a].Unused? && ack.InUse? && !Busy(s.acks, ack.req.res) && ack.id !in s.fate
    ensures Shows(r, s.acks[a := ack], s.disk, s.mem, With(s.cand, ack.req.res, data), s.missing, s.fate, s.paths)
  {
    var acks' := s.acks[a := ack];
    if !Busy(acks', r) {
      assert acks'[a] == ack;
      assert forall k :: 0 <= k < |s.acks| && k != a ==> acks'[k] == s.acks[k];
      assert !Busy(s.acks, r);
    }
    if ack.req.res == r {
      assert !Busy(s.acks, r);
      assert forall k :: 0 <= k < |s.acks| && k != a ==> acks'[k] == s.acks[k];
    }
  }

  lemma AcceptBooked(acks: seq<Ack>, log: seq<Request>, slotOf: seq<nat>, answers: map<nat, Answer>,
                     fate: map<nat, Outcome>, a: nat, ack: Ack)
    requires Booked(acks, log, slotOf, answers, fate)
    requires a < |acks| && acks[a].Unused? && ack.InUse? && ack.id == |log|
    ensures Booked(acks[a := ack], log + [ack.req], slotOf + [a], answers, fate)
  {
  }

  lemma AcceptKeeps(s: Daemon, req: Request, data: string)
    requires Inv(s) && s.held.Hold? && req.res == s.held.res
    ensures Inv(Accept(s, req, data))
  {
    hide Batched, Covered, MirrorFirst, Carried, Sealed, Shows, Booked;
    var s', a, i := Accept(s, req, data), FirstUnused(s.acks, 0), s.held.slot;
    if a == |s.acks| || !CanSubmit(s.w, i, data) {
      CancelSlots(s.w, s.acks, s.held);
      QuietKeeps(s, s'.w);
    } else {
      AcceptWriter(s, req, data);
      AcceptRecords(s, req, data);
    }
  }

  lemma AcceptWriter(s: Daemon, req: Request, data: string)
    requires Inv(s) && s.held.Hold? && req.res == s.held.res
    requires FirstUnused(s.acks, 0) < |s.acks| && CanSubmit(s.w, s.held.slot, data)
    ensures var s' := Accept(s, req, data);
            && Slots(s'.w, s'.acks, s'.held) && Batched(s'.w, s'.acks, s'.batch, s'.held)
            && Covered(s'.w, s'.acks, s'.batch, s'.at) && MirrorFirst(s'.w, s'.acks, s'.batch)
            && Carried(s'.w, s'.acks, s'.cand, s'.paths) && Sealed(s'.w, s'.acks, s'.batch, s'.fate)
            && s'.w.shutdown == s.w.shutdown
  {
    var s', a, i := Accept(s, req, data), FirstUnused(s.acks, 0), s.held.slot;
    var ack := s'.acks[a];
    AcceptSlots(s.w, s.acks, s.held, data, a, ack);
    AcceptBatch(s.w, s'.w, s.acks, s.at, i, a, ack);
    AcceptMirror(s.w, s'.w, s.acks, i, a, ack);
    AcceptCarried(s.w, s'.w, s.acks, s.cand, s.paths, i, a, ack, data);
    AcceptSealed(s.w, s'.w, s.acks, s.fate, i, a, ack);
  }

  lemma AcceptRecords(s: Daemon, req: Request, data: string)
    requires Inv(s) && s.held.Hold? && req.res == s.held.res
    requires FirstUnused(s.acks, 0) < |s.acks| && CanSubmit(s.w, s.held.slot, data)
    ensures var s' := Accept(s, req, data);
            && Gated(s'.acks) && Current(s'.acks, s'.gen)
            && Shows(Password, s'.acks, s'.disk, s'.mem, s'.cand, s'.missing, s'.fate, s'.paths)
            && Shows(IpList, s'.acks, s'.disk, s'.mem, s'.cand, s'.missing, s'.fate, s'.paths)
            && Booked(s'.acks, s'.log, s'.slotOf, s'.answers, s'.fate)
  {
    var a := FirstUnused(s.acks, 0);
    var ack := Accept(s, req, data).acks[a];
    AcceptGate(s.acks, a, ack);
    AcceptShows(Password, s, a, ack, data);
    AcceptShows(IpList, s, a, ack, data);
    AcceptBooked(s.acks, s.log, s.slotOf, s.answers, s.fate, a, ack);
  }

  // ---- Draining -------------------------------------------------------------------

  /** `w'` is `w` with every finished slot freed, `batch` their completions. */
  ghost predicate Emptied(w: Writer, w': Writer, batch: seq<Completion>, t: seq<nat>)
    requires |w.jobs| == DEPTH
  {
    && |w'.jobs| == DEPTH && |t| == |batch|
    && (forall i :: 0 <= i < DEPTH && w.jobs[i].phase != Done ==> w'.jobs[i] == w.jobs[i])
    && (forall i :: 0 <= i < DEPTH && w.jobs[i].phase == Done ==> w'.jobs[i].phase == Free && i in t)
    && (forall k :: 0 <= k < |t| ==>
          t[k] < DEPTH && w.jobs[t[k]].phase == Done && batch[k] == CompletionOf(w.jobs[t[k]]))
    && Rising(t) && w'.todo == w.todo && w'.worker == w.worker && w'.shutdown == w.shutdown
  }

  lemma DrainTakes(w: Writer)
    requires |w.jobs| == DEPTH
    ensures Taken(w.jobs, DEPTH) == DoneSlots(w.jobs, 0) && Rising(Taken(w.jobs, DEPTH))
    ensures forall i :: 0 <= i < DEPTH ==> (i in Taken(w.jobs, DEPTH) <==> w.jobs[i].phase == Done)
  {
    DoneSlotsAre(w.jobs, 0);
    DoneSlotsRise(w.jobs, 0);
  }

  lemma DrainEmpties(w: Writer)
    requires |w.jobs| == DEPTH
    ensures Emptied(w, Harvest(ClearEvent(w), DEPTH), Harvested(w, DEPTH), Taken(w.jobs, DEPTH))
  {
    DrainTakes(w);
    hide Taken;
  }

  lemma DrainSlots(w: Writer, w': Writer, acks: seq<Ack>, batch: seq<Completion>, t: seq<nat>)
    requires Slots(w, acks, NoHold) && Wf(w') && Emptied(w, w', batch, t)
    ensures Slots(w', acks, NoHold)
  {
  }

  lemma DrainBatched(w: Writer, w': Writer, acks: seq<Ack>, batch: seq<Completion>, t: seq<nat>)
    requires Slots(w, acks, NoHold) && Emptied(w, w', batch, t)
    ensures Batched(w', acks, batch, NoHold)
  {
    forall k, l | 0 <= k < l < |batch| ensures batch[k].token != batch[l].token {
      assert t[k] < t[l];
    }
    forall k, i | 0 <= k < |batch| && 0 <= i < DEPTH && Active(w'.jobs[i]) ensures w'.jobs[i].token != batch[k].token {
      assert t[k] < i || i < t[k];
    }
  }

  lemma DrainCovered(w: Writer, w': Writer, acks: seq<Ack>, batch: seq<Completion>, t: seq<nat>, at: seq<nat>)
    requires |w.jobs| == DEPTH && Emptied(w, w', batch, t) && Covered(w, acks, [], at)
    ensures Covered(w', acks, batch, at)
  {
    forall a | 0 <= a < |acks| && acks[a].InUse? && w.jobs[at[a]].phase == Done ensures HasToken(batch, a) {
      var k :| 0 <= k < |t| && t[k] == at[a];
      assert batch[k].token == a;
    }
  }

  lemma DrainMirror(w: Writer, w': Writer, acks: seq<Ack>, batch: seq<Completion>, t: seq<nat>)
    requires Wf(w) && Emptied(w, w', batch, t) && MirrorFirst(w, acks, [])
    ensures MirrorFirst(w', acks, batch)
  {
    forall k, i | 0 <= k < |batch| && IsIpAck(acks, batch[k].token) && 0 <= i < DEPTH && Active(w'.jobs[i])
      ensures w'.jobs[i].token != MIRROR
    {
      assert w.jobs[t[k]].ticket < w.oldest <= w.jobs[i].ticket;
    }
  }

  lemma DrainSealed(w: Writer, w': Writer, acks: seq<Ack>, batch: seq<Completion>, t: seq<nat>,
                    cand: Settings, p: Paths, fate: map<nat, Outcome>)
    requires |w.jobs| == DEPTH && Emptied(w, w', batch, t)
    requires Carried(w, acks, cand, p) && Sealed(w, acks, [], fate)
    ensures Carried(w', acks, cand, p) && Sealed(w', acks, batch, fate)
  {
  }

  lemma DrainKeeps(s: Daemon)
    requires Inv(s) && s.held.NoHold? && s.batch == []
    ensures Inv(Drain(s))
  {
    var s', t := Drain(s), Taken(s.w.jobs, DEPTH);
    DrainEmpties(s.w);
    HarvestWf(ClearEvent(s.w), DEPTH);
    DrainSlots(s.w, s'.w, s.acks, s'.batch, t);
    DrainBatched(s.w, s'.w, s.acks, s'.batch, t);
    DrainCovered(s.w, s'.w, s.acks, s'.batch, t, s.at);
    DrainMirror(s.w, s'.w, s.acks, s'.batch, t);
    DrainSealed(s.w, s'.w, s.acks, s'.batch, t, s.cand, s.paths, s.fate);
  }

  // ---- Settling one completion ------------------------------------------------------

  lemma SkipKeeps(s: Daemon)
    requires Inv(s) && s.batch != [] && !IsAck(s.acks, s.batch[0].token)
    ensures Inv(s.(batch := s.batch[1..]))
  {
    TailCovered(s.w, s.acks, s.batch, s.at);
    TailMirror(s.w, s.acks, s.batch);
  }

  lemma TailCovered(w: Writer, acks: seq<Ack>, batch: seq<Completion>, at: seq<nat>)
    requires batch != [] && Covered(w, acks, batch, at) && !IsAck(acks, batch[0].token)
    ensures Covered(w, acks, batch[1..], at)
  {
    forall a | IsAck(acks, a) && HasToken(batch, a) ensures HasToken(batch[1..], a) {
      var k :| 0 <= k < |batch| && batch[k].token == a;
      assert batch[1..][k - 1].token == a;
    }
  }

  lemma TailMirror(w: Writer, acks: seq<Ack>, batch: seq<Completion>)
    requires batch != [] && MirrorFirst(w, acks, batch)
    ensures MirrorFirst(w, acks, batch[1..])
  {
    var tail := batch[1..];
    if k :| 0 <= k < |tail| && IsIpAck(acks, tail[k].token) {
      assert IsIpAck(acks, batch[k + 1].token);
    }
  }

  lemma SettleSlots(w: Writer, acks: seq<Ack>, batch: seq<Completion>)
    requires Slots(w, acks, NoHold) && batch != [] && Batched(w, acks, batch, NoHold) && IsAck(acks, batch[0].token)
    ensures var acks' := acks[batch[0].token := Unused];
            Slots(w, acks', NoHold) && Batched(w, acks', batch[1..], NoHold)
  {
  }

  lemma SettleCovered(w: Writer, acks: seq<Ack>, batch: seq<Completion>, at: seq<nat>)
    requires batch != [] && IsAck(acks, batch[0].token) && Covered(w, acks, batch, at)
    ensures Covered(w, acks[batch[0].token := Unused], batch[1..], at)
  {
    forall a | IsAck(acks, a) && a != batch[0].token && HasToken(batch, a) ensures HasToken(batch[1..], a) {
      var k :| 0 <= k < |batch| && batch[k].token == a;
      assert batch[1..][k - 1].token == a;
    }
  }

  lemma SettleMirror(w: Writer, acks: seq<Ack>, batch: seq<Completion>)
    requires batch != [] && IsAck(acks, batch[0].token) && MirrorFirst(w, acks, batch)
    ensures MirrorFirst(w, acks[batch[0].token := Unused], batch[1..])
  {
    var acks', tail := acks[batch[0].token := Unused], batch[1..];
    if k :| 0 <= k < |tail| && IsIpAck(acks', tail[k].token) {
      assert IsIpAck(acks, batch[k + 1].token);
    }
  }

  lemma SettleSealed(w: Writer, acks: seq<Ack>, batch: seq<Completion>, cand: Settings, p: Paths,
                     fate: map<nat, Outcome>)
    requires batch != [] && IsAck(acks, batch[0].token)
    requires Carried(w, acks, cand, p) && Sealed(w, acks, batch, fate)
    ensures var acks' := acks[batch[0].token := Unused];
            Carried(w, acks', cand, p) && Sealed(w, acks', batch[1..], fate)
  {
    var acks', tail := acks[batch[0].token := Unused], batch[1..];
    assert forall k :: 0 <= k < |tail| ==> tail[k] == batch[k + 1];
  }

  /** Busy after one acknowledgement is released. */
  lemma ReleasedBusy(acks: seq<Ack>, t: nat, r: Resource)
    requires IsAck(acks, t) && Gated(acks)
    ensures Busy(acks[t := Unused], r) <==> Busy(acks, r) && acks[t].req.res != r
  {
    var acks' := acks[t := Unused];
    assert forall a :: 0 <= a < |acks'| && a != t ==> acks'[a] == acks[a];
    if Busy(acks, r) && acks[t].req.res != r {
      var a :| 0 <= a < |acks| && acks[a].InUse? && acks[a].req.res == r;
      assert acks'[a] == acks[a];
    }
  }

  lemma WithOther(s: Settings, q: Resource, v: string, r: Resource)
    requires r != Radio
    ensures ValueOf(With(s, q, v), r) == if q == r then v else ValueOf(s, r)
  {
  }

  /** The published value now agrees with the file, whatever the outcome was. */
  lemma SettleShows(r: Resource, s: Daemon, c: Completion)
    requires Shows(r, s.acks, s.disk, s.mem, s.cand, s.missing, s.fate, s.paths)
    requires IsAck(s.acks, c.token) && Gated(s.acks) && r != Radio
    requires s.acks[c.token].id in s.fate && s.fate[s.acks[c.token].id] == c.outcome
    ensures var q := s.acks[c.token].req.res;
            Shows(r, s.acks[c.token := Unused], s.disk,
                  if Visible(c.outcome) then With(s.mem, q, ValueOf(s.cand, q)) else s.mem,
                  s.cand, s.missing, s.fate, s.paths)
  {
    hide Busy, With, ValueOf, Shown, PathOf;
    var acks', q := s.acks[c.token := Unused], s.acks[c.token].req.res;
    ReleasedBusy(s.acks, c.token, r);
    WithOther(s.mem, q, ValueOf(s.cand, q), r);
    assert forall a :: 0 <= a < |acks'| && a != c.token ==> acks'[a] == s.acks[a];
  }

  lemma SettleBooked(acks: seq<Ack>, log: seq<Request>, slotOf: seq<nat>, answers: map<nat, Answer>,
                     fate: map<nat, Outcome>, a: nat, ok: bool)
    requires Booked(acks, log, slotOf, answers, fate) && IsAck(acks, a)
    requires acks[a].id in fate && ok == (fate[acks[a].id] == Durable)
    ensures var k := acks[a];
            Booked(acks[a := Unused], log, slotOf,
                   answers[k.id := Answer(k.req.ip, k.req.port, k.req.seqNo, ok, !k.req.noAck)], fate)
  {
  }

  // ---- Queueing the mirror copy -----------------------------------------------------

  lemma MirrorAdds(w: Writer, p: Paths, text: string)
    requires Wf(w) && Reserve(w, p.user, |text|).1.Slot?
    ensures var (w1, v) := Reserve(w, p.user, |text|);
            var w' := Submit(SetEcho(w1, v.slot, p.userLast), v.slot, text, MIRROR);
            && Wf(w') && Added(w, w', v.slot, MIRROR) && w.jobs[v.slot].phase == Free
            && w'.jobs[v.slot].path == p.user && w'.jobs[v.slot].echo == p.userLast
  {
    var (w1, v) := Reserve(w, p.user, |text|);
    var w2 := SetEcho(w1, v.slot, p.userLast);
    assert Quiet(w, w2);
    QuietWf(w, w2);
    SubmitWf(w2, v.slot, text, MIRROR);
  }

  lemma MirrorSlots(w: Writer, w': Writer, acks: seq<Ack>, i: nat)
    requires Slots(w, acks, NoHold) && NoMirror(w) && Wf(w') && Added(w, w', i, MIRROR)
    ensures Slots(w', acks, NoHold)
  {
  }

  lemma MirrorKeeps(w: Writer, w': Writer, acks: seq<Ack>, batch: seq<Completion>, at: seq<nat>,
                    cand: Settings, p: Paths, fate: map<nat, Outcome>, i: nat)
    requires Listed(w) && |acks| == ACK_MAX && Added(w, w', i, MIRROR)
    requires w'.jobs[i].path == p.user && w'.jobs[i].echo == p.userLast
    requires Batched(w, acks, batch, NoHold) && Covered(w, acks, batch, at)
    requires Carried(w, acks, cand, p) && Sealed(w, acks, batch, fate) && !Busy(acks, IpList)
    ensures Batched(w', acks, batch, NoHold) && Covered(w', acks, batch, at)
    ensures MirrorFirst(w', acks, batch) && Carried(w', acks, cand, p) && Sealed(w', acks, batch, fate)
  {
    assert forall t :: !IsIpAck(acks, t);
  }

  lemma UserFilesApart(r: Resource, s: Daemon, disk': map<string, string>)
    requires Shows(r, s.acks, s.disk, s.mem, s.cand, s.missing, s.fate, s.paths) && Distinct(s.paths) && r != Radio
    requires exists text, o, echoed :: disk' == WriteUser(s.disk, s.paths, text, o, echoed)
    ensures Shows(r, s.acks, disk', s.mem, s.cand, s.missing, s.fate, s.paths)
  {
  }

  lemma SettleWriter(s: Daemon)
    requires Inv(s) && s.batch != [] && IsAck(s.acks, s.batch[0].token)
    ensures var s' := Settled(s);
            && Slots(s'.w, s'.acks, s'.held) && Batched(s'.w, s'.acks, s'.batch, s'.held)
            && Covered(s'.w, s'.acks, s'.batch, s'.at) && MirrorFirst(s'.w, s'.acks, s'.batch)
            && Carried(s'.w, s'.acks, s'.cand, s'.paths) && Sealed(s'.w, s'.acks, s'.batch, s'.fate)
  {
    SettleSlots(s.w, s.acks, s.batch);
    SettleCovered(s.w, s.acks, s.batch, s.at);
    SettleMirror(s.w, s.acks, s.batch);
    SettleSealed(s.w, s.acks, s.batch, s.cand, s.paths, s.fate);
  }

  lemma SettleGate(acks: seq<Ack>, a: nat, gen: nat)
    requires Gated(acks) && Current(acks, gen) && a < |acks|
    ensures Gated(acks[a := Unused]) && Current(acks[a := Unused], gen)
  {
  }

  lemma SettleRecords(s: Daemon)
    requires Inv(s) && s.batch != [] && IsAck(s.acks, s.batch[0].token)
    ensures var s' := Settled(s);
            && Shows(Password, s'.acks, s'.disk, s'.mem, s'.cand, s'.missing, s'.fate, s'.paths)
            && Shows(IpList, s'.acks, s'.disk, s'.mem, s'.cand, s'.missing, s'.fate, s'.paths)
            && Booked(s'.acks, s'.log, s'.slotOf, s'.answers, s'.fate)
  {
    var c := s.batch[0];
    SettleShows(Password, s, c);
    SettleShows(IpList, s, c);
    SettleBooked(s.acks, s.log, s.slotOf, s.answers, s.fate, c.token, c.rc == 0);
  }

  lemma SettleKeeps(s: Daemon)
    requires Inv(s) && s.batch != [] && IsAck(s.acks, s.batch[0].token)
    ensures Inv(Settled(s))
  {
    SettleWriter(s);
    SettleRecords(s);
    SettleGate(s.acks, s.batch[0].token, s.gen);
  }

  /** With no IP-list write outstanding and no older copy in the table, the copy
      is queued, or written here once the writer is stopped. */
  lemma MirrorStepKeeps(s: Daemon, o: Outcome, echoed: bool)
    requires Inv(s) && s.held.NoHold? && !Busy(s.acks, IpList) && NoMirror(s.w)
    ensures Inv(Mirror(s, o, echoed))
  {
    var s', v := Mirror(s, o, echoed), Reserve(s.w, s.paths.user, |s.mem.ipList|).1;
    if v.Slot? && |s.paths.userLast| < PATH_CAP {
      MirrorAdds(s.w, s.paths, s.mem.ipList);
      MirrorSlots(s.w, s'.w, s.acks, v.slot);
      MirrorKeeps(s.w, s'.w, s.acks, s.batch, s.at, s.cand, s.paths, s.fate, v.slot);
    } else {
      UserFilesApart(Password, s, s'.disk);
      UserFilesApart(IpList, s, s'.disk);
    }
  }

  lemma GateOpens(acks: seq<Ack>, a: nat)
    requires IsAck(acks, a) && Gated(acks)
    ensures !Busy(acks[a := Unused], acks[a].req.res)
  {
    var acks' := acks[a := Unused];
    assert forall b :: 0 <= b < |acks| && b != a ==> acks'[b] == acks[b];
  }

  lemma ProcessKeeps(s: Daemon, o: Outcome, echoed: bool)
    requires Inv(s) && s.batch != []
    ensures Inv(Process(s, o, echoed))
  {
    var c := s.batch[0];
    if !IsAck(s.acks, c.token) {
      SkipKeeps(s);
    } else {
      SettleKeeps(s);
      if Visible(c.outcome) && s.acks[c.token].req.res == IpList {
        assert IsIpAck(s.acks, c.token);
        GateOpens(s.acks, c.token);
        MirrorStepKeeps(Settled(s), o, echoed);
      }
    }
  }

  // ---- Worker steps ------------------------------------------------------------------

  lemma PopKeeps(s: Daemon)
    requires Inv(s)
    ensures Inv(s.(w := Pop(s.w)))
  {
    PopSealed(s.w, s.acks, s.batch, s.fate);
    WriteElse(s, Pop(s.w));
  }

  lemma PopSealed(w: Writer, acks: seq<Ack>, batch: seq<Completion>, fate: map<nat, Outcome>)
    requires Sealed(w, acks, batch, fate)
    ensures Sealed(Pop(w), acks, batch, fate)
  {
  }

  lemma IdsDiffer(acks: seq<Ack>, log: seq<Request>, slotOf: seq<nat>, answers: map<nat, Answer>,
                  fate: map<nat, Outcome>)
    requires Booked(acks, log, slotOf, answers, fate)
    ensures forall a, b :: 0 <= a < |acks| && 0 <= b < |acks| && acks[a].InUse? && acks[b].InUse? && a != b ==>
              acks[a].id != acks[b].id
  {
  }

  lemma WriteSealed(s: Daemon, o: Outcome, echoed: bool)
    requires Slots(s.w, s.acks, s.held) && Batched(s.w, s.acks, s.batch, s.held)
    requires Sealed(s.w, s.acks, s.batch, s.fate) && s.w.worker == Popped
    requires forall a, b :: 0 <= a < |s.acks| && 0 <= b < |s.acks| && s.acks[a].InUse? && s.acks[b].InUse? && a != b ==>
               s.acks[a].id != s.acks[b].id
    ensures var s' := WorkerWrite(s, o, echoed); Sealed(s'.w, s'.acks, s'.batch, s'.fate)
  {
    var s', h := WorkerWrite(s, o, echoed), s.w.todo[0];
    assert Active(s.w.jobs[h]);
    forall i | 0 <= i < DEPTH && i != h && Active(s.w.jobs[i]) && IsAck(s.acks, s.w.jobs[i].token)
      ensures s.w.jobs[i].token != s.w.jobs[h].token
    {
      assert i < h || h < i;
    }
  }

  lemma WriteShows(r: Resource, s: Daemon, o: Outcome, echoed: bool)
    requires Listed(s.w) && s.w.worker == Popped && r != Radio && Distinct(s.paths)
    requires Shows(r, s.acks, s.disk, s.mem, s.cand, s.missing, s.fate, s.paths)
    requires Carried(s.w, s.acks, s.cand, s.paths) && Sealed(s.w, s.acks, s.batch, s.fate)
    requires var t := s.w.jobs[s.w.todo[0]].token; t == MIRROR || IsAck(s.acks, t)
    requires |s.acks| == ACK_MAX && Gated(s.acks)
    requires forall a, b :: 0 <= a < |s.acks| && 0 <= b < |s.acks| && s.acks[a].InUse? && s.acks[b].InUse? && a != b ==>
               s.acks[a].id != s.acks[b].id
    ensures var s' := WorkerWrite(s, o, echoed);
            Shows(r, s'.acks, s'.disk, s'.mem, s'.cand, s'.missing, s'.fate, s'.paths)
  {
    var s', j := WorkerWrite(s, o, echoed), s.w.jobs[s.w.todo[0]];
    if j.token == MIRROR {
      var path, unset := PathOf(s.paths, r), ValueOf(s.missing, r);
      assert Shown(s'.disk, path, unset) == Shown(s.disk, path, unset);
    } else if s.acks[j.token].req.res == r {
      assert s.acks[j.token].id !in s.fate;
      assert Busy(s.acks, r);
    } else {
      var path, unset := PathOf(s.paths, r), ValueOf(s.missing, r);
      assert Shown(s'.disk, path, unset) == Shown(s.disk, path, unset);
    }
  }

  lemma WriteBooked(s: Daemon, o: Outcome, echoed: bool)
    requires Listed(s.w) && s.w.worker == Popped && Booked(s.acks, s.log, s.slotOf, s.answers, s.fate)
    ensures var s' := WorkerWrite(s, o, echoed); Booked(s'.acks, s'.log, s'.slotOf, s'.answers, s'.fate)
  {
  }

  lemma WriteKeeps(s: Daemon, o: Outcome, echoed: bool)
    requires Inv(s) && s.w.worker == Popped
    ensures Inv(WorkerWrite(s, o, echoed))
  {
    IdsDiffer(s.acks, s.log, s.slotOf, s.answers, s.fate);
    assert Active(s.w.jobs[s.w.todo[0]]);
    WriteSealed(s, o, echoed);
    WriteShows(Password, s, o, echoed);
    WriteShows(IpList, s, o, echoed);
    WriteBooked(s, o, echoed);
    WriteElse(s, WriteReturned(s.w, o));
  }

  /** Only the worker's progress or the shutdown flag changed. */
  ghost predicate SameJobs(w: Writer, w': Writer) {
    w' == w.(worker := w'.worker, shutdown := w'.shutdown) && (w.todo == [] ==> w'.worker == Idle)
  }

  lemma SameSlots(w: Writer, w': Writer, acks: seq<Ack>, held: Held)
    requires SameJobs(w, w') && Slots(w, acks, held)
    ensures Slots(w', acks, held)
  {
  }

  lemma SameCover(w: Writer, w': Writer, acks: seq<Ack>, batch: seq<Completion>, held: Held, at: seq<nat>)
    requires SameJobs(w, w') && Batched(w, acks, batch, held)
    requires Covered(w, acks, batch, at) && MirrorFirst(w, acks, batch)
    ensures Batched(w', acks, batch, held) && Covered(w', acks, batch, at) && MirrorFirst(w', acks, batch)
  {
  }

  lemma SameCarried(w: Writer, w': Writer, acks: seq<Ack>, cand: Settings, held: Held, p: Paths)
    requires SameJobs(w, w') && Carried(w, acks, cand, p) && Ready(w, held, p)
    ensures Carried(w', acks, cand, p) && Ready(w', held, p)
  {
  }

  lemma WriteElse(s: Daemon, w': Writer)
    requires Inv(s) && SameJobs(s.w, w')
    ensures Slots(w', s.acks, s.held) && Batched(w', s.acks, s.batch, s.held)
    ensures Covered(w', s.acks, s.batch, s.at) && MirrorFirst(w', s.acks, s.batch)
    ensures Carried(w', s.acks, s.cand, s.paths) && Ready(w', s.held, s.paths)
  {
    hide Slots, Batched, Covered, MirrorFirst, Carried, Ready, Sealed, Shows, Booked, Gated, SameJobs;
    SameSlots(s.w, w', s.acks, s.held);
    SameCover(s.w, w', s.acks, s.batch, s.held, s.at);
    SameCarried(s.w, w', s.acks, s.cand, s.held, s.paths);
  }

  /** `w'` is `w` with its oldest job finished. */
  ghost predicate Advanced(w: Writer, w': Writer)
    requires |w.jobs| == DEPTH
  {
    && |w'.jobs| == DEPTH && w.worker.Wrote? && w.todo != [] && w.todo[0] < DEPTH
    && (var h, o := w.todo[0], w.worker.outcome;
        && w.jobs[h].phase == Queued
        && w'.jobs == w.jobs[h := w.jobs[h].(rc := RcOf(o), outcome := o, phase := Done)])
    && w'.worker == Idle && w'.shutdown == w.shutdown
  }

  lemma PublishSlots(w: Writer, w': Writer, acks: seq<Ack>, batch: seq<Completion>, held: Held, at: seq<nat>)
    requires Slots(w, acks, held) && Batched(w, acks, batch, held) && Covered(w, acks, batch, at)
    requires Wf(w') && Advanced(w, w')
    ensures Slots(w', acks, held) && Batched(w', acks, batch, held) && Covered(w', acks, batch, at)
  {
  }

  lemma PublishMirror(w: Writer, w': Writer, acks: seq<Ack>, batch: seq<Completion>)
    requires |w.jobs| == DEPTH && Advanced(w, w') && MirrorFirst(w, acks, batch)
    ensures MirrorFirst(w', acks, batch)
  {
  }

  lemma PublishSealed(w: Writer, w': Writer, acks: seq<Ack>, batch: seq<Completion>, held: Held,
                      cand: Settings, p: Paths, fate: map<nat, Outcome>)
    requires |w.jobs| == DEPTH && Advanced(w, w') && Carried(w, acks, cand, p) && Sealed(w, acks, batch, fate)
    requires Ready(w, held, p) && (held.Hold? ==> held.slot < DEPTH && w.jobs[held.slot].phase == Reserved)
    ensures Carried(w', acks, cand, p) && Sealed(w', acks, batch, fate) && Ready(w', held, p)
  {
  }

  lemma PublishKeeps(s: Daemon)
    requires Inv(s) && s.w.worker.Wrote?
    ensures Inv(s.(w := Publish(s.w)))
  {
    PublishWf(s.w);
    var w' := Publish(s.w);
    PublishSlots(s.w, w', s.acks, s.batch, s.held, s.at);
    PublishMirror(s.w, w', s.acks, s.batch);
    PublishSealed(s.w, w', s.acks, s.batch, s.held, s.cand, s.paths, s.fate);
  }

  lemma StopKeeps(s: Daemon)
    requires Inv(s)
    ensures Inv(Stop(s))
  {
    StopSealed(s.w, s.w.(shutdown := true), s.acks, s.batch, s.fate);
    WriteElse(s, s.w.(shutdown := true));
  }

  lemma StopSealed(w: Writer, w': Writer, acks: seq<Ack>, batch: seq<Completion>, fate: map<nat, Outcome>)
    requires Sealed(w, acks, batch, fate) && w' == w.(shutdown := true)
    ensures Sealed(w', acks, batch, fate)
  {
  }

  // ---- Whole runs ----------------------------------------------------------------------

  lemma DispatchKeeps(s: Daemon, e: Event)
    requires Inv(s) && (e.EvAdmit? || e.EvRelease? || e.EvAccept?)
    ensures Inv(Next(s, e))
  {
    hide Inv;
    match e
    case EvAdmit(r, len) =>
      if s.running && s.held.NoHold? && s.batch == [] { AdmitKeeps(s, r, len); }
    case EvRelease => if s.held.Hold? { ReleaseKeeps(s); }
    case EvAccept(req, data) =>
      if s.held.Hold? && req.res == s.held.res { AcceptKeeps(s, req, data); }
  }

  lemma ReconcileKeeps(s: Daemon, e: Event)
    requires Inv(s) && (e.EvDrain? || e.EvProcess? || e.EvStop?)
    ensures Inv(Next(s, e))
  {
    hide Inv;
    match e
    case EvDrain => if s.held.NoHold? && s.batch == [] { DrainKeeps(s); }
    case EvProcess(o, echoed) => if s.batch != [] { ProcessKeeps(s, o, echoed); }
    case EvStop => if s.held.NoHold? && s.batch == [] { StopKeeps(s); }
  }

  lemma WorkerKeeps(s: Daemon, e: Event)
    requires Inv(s) && (e.EvPop? || e.EvWrite? || e.EvPublish?)
    ensures Inv(Next(s, e))
  {
    hide Inv;
    match e
    case EvPop => if s.w.worker == Idle && s.w.todo != [] { PopKeeps(s); }
    case EvWrite(o, echoed) => if s.w.worker == Popped { WriteKeeps(s, o, echoed); }
    case EvPublish => if s.w.worker.Wrote? { PublishKeeps(s); }
  }

  lemma NextKeeps(s: Daemon, e: Event)
    requires Inv(s)
    ensures Inv(Next(s, e))
  {
    hide Inv, Next;
    if e.EvAdmit? || e.EvRelease? || e.EvAccept? {
      DispatchKeeps(s, e);
    } else if e.EvDrain? || e.EvProcess? || e.EvStop? {
      ReconcileKeeps(s, e);
    } else {
      WorkerKeeps(s, e);
    }
  }

  ghost predicate Init(s: Daemon) {
    && |s.w.jobs| == DEPTH && s.w.todo == [] && s.w.worker == Idle && s.w.oldest <= s.w.issued
    && (forall i :: 0 <= i < DEPTH ==> s.w.jobs[i].phase == Free)
    && |s.acks| == |s.at| == ACK_MAX && (forall a :: 0 <= a < ACK_MAX ==> s.acks[a].Unused?)
    && s.batch == [] && s.held.NoHold? && s.running && !s.w.shutdown && Distinct(s.paths)
    && s.mem.password == Shown(s.disk, s.paths.password, s.missing.password)
    && s.mem.ipList == Shown(s.disk, s.paths.ipList, s.missing.ipList)
    && s.log == [] && s.slotOf == [] && s.answers == map[] && s.fate == map[]
  }

  lemma InitWriter(s: Daemon)
    requires Init(s)
    ensures Slots(s.w, s.acks, s.held) && Batched(s.w, s.acks, s.batch, s.held) && Covered(s.w, s.acks, s.batch, s.at)
    ensures MirrorFirst(s.w, s.acks, s.batch) && Carried(s.w, s.acks, s.cand, s.paths)
    ensures Ready(s.w, s.held, s.paths) && Sealed(s.w, s.acks, s.batch, s.fate)
  {
  }

  lemma InitInv(s: Daemon)
    requires Init(s)
    ensures Inv(s)
  {
    hide Slots, Batched, Covered, MirrorFirst, Carried, Ready, Sealed;
    InitWriter(s);
  }

  ghost function Step(s: Daemon, e: Event): (s': Daemon)
    requires Inv(s)
    ensures Inv(s')
  {
    NextKeeps(s, e);
    Next(s, e)
  }

  /** The state after any interleaving of the two threads' steps. */
  ghost function Run(s: Daemon, es: seq<Event>): (s': Daemon)
    requires Init(s)
    ensures Inv(s')
  {
    hide Inv;
    if es == [] then InitInv(s); s
    else Step(Run(s, es[..|es| - 1]), es[|es| - 1])
  }
}
