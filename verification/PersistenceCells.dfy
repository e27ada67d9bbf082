/** The two-thread machine seen through one persisted setting is a three-stage
    cell: one request in flight, then its outcome, then the gate opens. SettingCells
    ties the models of the individual settings to it. */
module PersistenceCells {
  import opened Store
  import opened StoreAsync
  import opened Persistence

  datatype Stage = Open | Writing(cand: string) | Decided(cand: string, outcome: Outcome)

  datatype Cell = Cell(stage: Stage, published: string, stored: string)

  /** Accept a candidate; decide its write, which changes the file or does not;
      publish accordingly and open the gate. Nothing else changes a cell. */
  predicate CellNext(c: Cell, c': Cell) {
    || c' == c
    || (c.stage.Open? && c'.stage.Writing? && c' == c.(stage := c'.stage))
    || (c.stage.Writing? && c'.stage.Decided? && c'.stage.cand == c.stage.cand &&
        c' == c.(stage := c'.stage, stored := if Visible(c'.stage.outcome) then c.stage.cand else c.stored))
    || (c.stage.Decided? &&
        c' == c.(stage := Open, published := if Visible(c.stage.outcome) then c.stage.cand else c.published))
  }

  /** The first pending acknowledgement of `r`. */
  function PendingOf(acks: seq<Ack>, r: Resource, a: nat): (k: nat)
    requires a <= |acks|
    ensures a <= k <= |acks|
    ensures k < |acks| ==> acks[k].InUse? && acks[k].req.res == r
    ensures forall i :: a <= i < k ==> !(acks[i].InUse? && acks[i].req.res == r)
    decreases |acks| - a
  {
    if a == |acks| || (acks[a].InUse? && acks[a].req.res == r) then a else PendingOf(acks, r, a + 1)
  }

  function StageOf(r: Resource, acks: seq<Ack>, fate: map<nat, Outcome>, cand: Settings): Stage {
    var k := PendingOf(acks, r, 0);
    if k == |acks| then Open
    else if acks[k].id in fate then Decided(ValueOf(cand, r), fate[acks[k].id])
    else Writing(ValueOf(cand, r))
  }

  function CellOf(r: Resource, s: Daemon): Cell {
    Cell(StageOf(r, s.acks, s.fate, s.cand), ValueOf(s.mem, r),
         Shown(s.disk, PathOf(s.paths, r), ValueOf(s.missing, r)))
  }

  /** Every step of either thread is a step of each setting's cell. */
  lemma StepIsCellStep(r: Resource, s: Daemon, e: Event)
    requires Inv(s) && r != Radio
    ensures CellNext(CellOf(r, s), CellOf(r, Next(s, e)))
  {
    hide CellOf, CellNext, Inv;
    if e.EvAccept? {
      AcceptCell(r, s, e);
    } else if e.EvProcess? {
      ProcessCell(r, s, e);
    } else if e.EvWrite? {
      WriteCell(r, s, e);
    } else {
      OtherCell(r, s, e);
    }
  }

  lemma OtherCell(r: Resource, s: Daemon, e: Event)
    requires Inv(s) && !e.EvAccept? && !e.EvProcess? && !e.EvWrite?
    ensures CellNext(CellOf(r, s), CellOf(r, Next(s, e)))
  {
    hide Inv, Listed, Reserve, Cancel, Publish, Harvest, Harvested, Busy, FirstUnused;
  }

  lemma {:induction false} AcceptStage(r: Resource, acks: seq<Ack>, a: nat, ack: Ack)
    requires a < |acks| && acks[a].Unused? && ack.InUse? && PendingOf(acks, ack.req.res, 0) == |acks|
    ensures PendingOf(acks[a := ack], r, 0) == if r == ack.req.res then a else PendingOf(acks, r, 0)
  {
    var acks', k := acks[a := ack], PendingOf(acks, r, 0);
    var k' := PendingOf(acks', r, 0);
    assert forall i :: 0 <= i < |acks| && i != a ==> acks'[i] == acks[i];
    if r == ack.req.res {
      assert acks'[a].req.res == r;
    }
  }

  lemma AcceptCell(r: Resource, s: Daemon, e: Event)
    requires Inv(s) && e.EvAccept?
    ensures CellNext(CellOf(r, s), CellOf(r, Next(s, e)))
  {
    if s.held.Hold? && e.req.res == s.held.res {
      assert !Busy(s.acks, e.req.res) && |s.log| !in s.fate;
      AcceptedCell(r, s, e.req, e.data);
    }
  }

  /** The accepted request's own cell starts writing; the others stay as they are. */
  lemma NewStage(r: Resource, acks: seq<Ack>, a: nat, ack: Ack, fate: map<nat, Outcome>, cand: Settings, data: string)
    requires a < |acks| && acks[a].Unused? && ack.InUse? && !Busy(acks, ack.req.res) && ack.id !in fate
    ensures var c := With(cand, ack.req.res, data);
            StageOf(r, acks[a := ack], fate, c) ==
              if r == ack.req.res then Writing(ValueOf(c, r)) else StageOf(r, acks, fate, cand)
    ensures r == ack.req.res ==> StageOf(r, acks, fate, cand) == Open
  {
    NonePending(acks, ack.req.res);
    hide PendingOf, Busy;
    AcceptStage(r, acks, a, ack);
  }

  lemma AcceptedCell(r: Resource, s: Daemon, req: Request, data: string)
    requires Listed(s.w) && s.held.Hold? && req.res == s.held.res && !Busy(s.acks, req.res) && |s.log| !in s.fate
    ensures CellNext(CellOf(r, s), CellOf(r, Accept(s, req, data)))
  {
    hide Listed, Cancel, Submit, CanSubmit, FirstUnused, Busy, Shown, StageOf, With;
    var s', a := Accept(s, req, data), FirstUnused(s.acks, 0);
    if s'.log != s.log {
      NewStage(r, s.acks, a, s'.acks[a], s.fate, s.cand, data);
    } else {
      SameCell(r, s, s');
    }
  }

  lemma NonePending(acks: seq<Ack>, r: Resource)
    requires !Busy(acks, r)
    ensures PendingOf(acks, r, 0) == |acks|
  {
  }

  lemma SettleStage(r: Resource, acks: seq<Ack>, a: nat)
    requires IsAck(acks, a) && Gated(acks)
    ensures PendingOf(acks, acks[a].req.res, 0) == a
    ensures PendingOf(acks[a := Unused], r, 0) == if r == acks[a].req.res then |acks| else PendingOf(acks, r, 0)
  {
    var acks' := acks[a := Unused];
    var k := PendingOf(acks, acks[a].req.res, 0);
    assert k == a;
    assert forall i :: 0 <= i < |acks| && i != a ==> acks'[i] == acks[i];
    var k' := PendingOf(acks', r, 0);
  }

  lemma MirrorCell(r: Resource, s: Daemon, o: Outcome, echoed: bool)
    requires Listed(s.w) && Distinct(s.paths) && r != Radio
    ensures CellOf(r, Mirror(s, o, echoed)) == CellOf(r, s)
  {
    hide Listed, Submit, Reserve, SetEcho;
  }

  lemma SettledCell(r: Resource, s: Daemon)
    requires s.batch != [] && IsAck(s.acks, s.batch[0].token) && Gated(s.acks)
    requires var id := s.acks[s.batch[0].token].id; id in s.fate && s.fate[id] == s.batch[0].outcome
    requires r != Radio
    ensures CellNext(CellOf(r, s), CellOf(r, Settled(s)))
  {
    SettleStage(r, s.acks, s.batch[0].token);
  }

  lemma ProcessedCell(r: Resource, s: Daemon, o: Outcome, echoed: bool)
    requires Listed(s.w) && s.batch != [] && Gated(s.acks) && Distinct(s.paths) && r != Radio
    requires IsAck(s.acks, s.batch[0].token) ==>
               var id := s.acks[s.batch[0].token].id; id in s.fate && s.fate[id] == s.batch[0].outcome
    ensures CellNext(CellOf(r, s), CellOf(r, Process(s, o, echoed)))
  {
    hide CellNext, CellOf, Mirror, Listed, Gated, Distinct;
    if IsAck(s.acks, s.batch[0].token) {
      SettledCell(r, s);
      MirrorCell(r, Settled(s), o, echoed);
    } else {
      SameCell(r, s, Process(s, o, echoed));
    }
  }

  lemma ProcessCell(r: Resource, s: Daemon, e: Event)
    requires Inv(s) && e.EvProcess? && r != Radio
    ensures CellNext(CellOf(r, s), CellOf(r, Next(s, e)))
  {
    hide CellNext, CellOf, Process, Booked, Covered, MirrorFirst, Carried, Shows;
    if s.batch != [] {
      ProcessedCell(r, s, e.outcome, e.echoed);
    } else {
      SameCell(r, s, Next(s, e));
    }
  }

  lemma SameCell(r: Resource, s: Daemon, s': Daemon)
    requires s'.acks == s.acks && s'.fate == s.fate && s'.cand == s.cand && s'.mem == s.mem
    requires s'.disk == s.disk && s'.paths == s.paths && s'.missing == s.missing
    ensures CellNext(CellOf(r, s), CellOf(r, s'))
  {
  }

  lemma WriteCell(r: Resource, s: Daemon, e: Event)
    requires Inv(s) && e.EvWrite? && r != Radio
    ensures CellNext(CellOf(r, s), CellOf(r, Next(s, e)))
  {
    hide CellNext, CellOf;
    if s.w.worker == Popped {
      IdsDiffer(s.acks, s.log, s.slotOf, s.answers, s.fate);
      assert Active(s.w.jobs[s.w.todo[0]]);
      WrittenCell(r, s, e.outcome, e.echoed);
    } else {
      SameCell(r, s, Next(s, e));
    }
  }

  lemma WrittenCell(r: Resource, s: Daemon, o: Outcome, echoed: bool)
    requires Listed(s.w) && s.w.worker == Popped && r != Radio && Distinct(s.paths) && Gated(s.acks)
    requires Carried(s.w, s.acks, s.cand, s.paths) && Sealed(s.w, s.acks, s.batch, s.fate)
    requires var t := s.w.jobs[s.w.todo[0]].token; t == MIRROR || IsAck(s.acks, t)
    requires |s.acks| == ACK_MAX
    requires forall a, b :: 0 <= a < |s.acks| && 0 <= b < |s.acks| && s.acks[a].InUse? && s.acks[b].InUse? && a != b ==>
               s.acks[a].id != s.acks[b].id
    ensures CellNext(CellOf(r, s), CellOf(r, WorkerWrite(s, o, echoed)))
  {
    var s', j := WorkerWrite(s, o, echoed), s.w.jobs[s.w.todo[0]];
    assert Active(j);
    if j.token == MIRROR {
      assert !IsAck(s.acks, j.token);
    } else {
      SettleStage(r, s.acks, j.token);
    }
  }

  /** Whole runs: the file shows the published value, and the candidate exactly
      while its visible write awaits reconciliation. */
  ghost predicate CellInv(c: Cell) {
    match c.stage
    case Decided(v, o) => c.stored == if Visible(o) then v else c.published
    case _ => c.stored == c.published
  }

  lemma {:induction false} RunsRefineCells(s0: Daemon, es: seq<Event>, r: Resource)
    requires Init(s0) && r != Radio
    ensures CellInv(CellOf(r, Run(s0, es)))
    ensures es != [] ==> CellNext(CellOf(r, Run(s0, es[..|es| - 1])), CellOf(r, Run(s0, es)))
  {
    hide Inv, Next;
    if es == [] {
      InitCell(s0, r);
    } else {
      RunsRefineCells(s0, es[..|es| - 1], r);
      StepIsCellStep(r, Run(s0, es[..|es| - 1]), es[|es| - 1]);
    }
  }

  lemma InitCell(s0: Daemon, r: Resource)
    requires Init(s0) && r != Radio
    ensures CellInv(CellOf(r, s0))
  {
  }
}
