/** SetRadioConfig (opcd/handler.c): a configuration is applied to the radio
    first and stored afterwards, and a marker file tells the next boot that the
    two may disagree. A power loss or a restart may come between any two steps. */
module RadioTxn {
  import opened Common
  import opened Store

  datatype Station = Single | Dual

  datatype Wlan = Wlan(mode: nat, bandwidth: nat, band: nat, list: seq<nat>)

  datatype Config = Config(station: Station, priority: nat, wlan1: Wlan, wlan2: Wlan)

  /** radio_cfg_differs: a single station ignores the second interface. */
  predicate Differs(a: Config, b: Config) {
    || a.station != b.station || a.wlan1 != b.wlan1
    || (a.station == Dual && (a.priority != b.priority || a.wlan2 != b.wlan2))
  }

  predicate Agree(a: Config, b: Config) {
    !Differs(a, b)
  }

  ghost predicate SameWlan(a: Wlan, b: Wlan) {
    a.mode == b.mode && a.bandwidth == b.bandwidth && a.band == b.band && a.list == b.list
  }

  /** `c` is what `req` asks for, field by field: the station type and the first
      interface, and for a dual station the priority channel and the second one. */
  ghost predicate Grants(c: Config, req: Config) {
    && c.station == req.station && SameWlan(c.wlan1, req.wlan1)
    && (req.station == Dual ==> c.priority == req.priority && SameWlan(c.wlan2, req.wlan2))
  }

  /** Two requests are taken for the same exactly if each grants what the other
      asks for. */
  lemma DiffersIff(a: Config, b: Config)
    ensures !Differs(a, b) <==> Grants(a, b)
    ensures Grants(a, b) <==> Grants(b, a)
  {
  }

  lemma AgreeIsEquivalence(a: Config, b: Config, c: Config)
    ensures Agree(a, a) && (Agree(a, b) ==> Agree(b, a))
    ensures Agree(a, b) && Agree(b, c) ==> Agree(a, c)
  {
  }

  /** The radio after a successful apply of `c`; `x` is what it had before. */
  function Applied(c: Config, x: Config): (r: Config)
    ensures Agree(c, r)
  {
    if c.station == Single then c.(priority := x.priority, wlan2 := x.wlan2) else c
  }

  /** How far a transaction is. `base` is the configuration to go back to,
      `baseOk` whether it was committed, `covers` whether going back is possible. */
  datatype Phase =
    | Idle
    | Arming(req: Config, base: Config, baseOk: bool, covers: bool)
    | Armed(req: Config, base: Config, baseOk: bool, covers: bool)
    | Applying(req: Config, base: Config, baseOk: bool, covers: bool)
    | Live(base: Config, baseOk: bool, covers: bool)
    | Writing(base: Config, baseOk: bool, covers: bool, renamed: bool)
    | Decided(base: Config, baseOk: bool, covers: bool, outcome: Outcome)
    | Clearing
    | RevertDue(base: Config, baseOk: bool)
    | Reverting(base: Config, baseOk: bool)

  /** `radio` is the driver's configuration, which a power loss does not undo. */
  datatype State = State(mem: Config, committed: bool, known: bool, phase: Phase,
                         radio: Config, marker: File<Config>, conf: File<Config>)

  datatype Event =
    | Receive(req: Config, valid: bool, admitted: bool, usable: bool)
    | MarkerRenamed
    | MarkerWritten(outcome: Outcome)
    | ApplyBegun(torn: Config)
    | ApplyEnded(ok: bool, left: Config)
    | SubmitFailed
    | WriteBegun
    | ConfRenamed
    | ConfWritten(outcome: Outcome)
    | Reconcile
    | Clear(unlinked: bool)
    | RevertBegun(torn: Config)
    | RevertEnded(ok: bool, left: Config)
    | Restart(loadable: bool, unset: Config)
    | PowerLoss(markerLeft: Option<Config>, confLeft: Option<Config>, loadable: bool, unset: Config)

  /** radio_arm_revert */
  function ArmRevert(s: State, base: Config, baseOk: bool, covers: bool): State {
    if covers then s.(phase := RevertDue(base, baseOk))
    else s.(phase := Idle, known := false, committed := false)
  }

  /** opcd_radio_conf_load on the visible files; `unset` are the defaults. */
  function Load(s: State, loadable: bool, unset: Config): State {
    if s.conf.view.Some? && loadable
    then s.(mem := s.conf.view.value, committed := s.marker.view.None?, known := false, phase := Idle)
    else s.(mem := unset, committed := false, known := false, phase := Idle)
  }

  function Settle<T(==)>(v: Option<T>): File<T> {
    File(v, {v})
  }

  /** One step; an event the phase does not allow changes nothing. A request that
      arrives while a write is outstanding is left unaccepted. */
  function Next(s: State, e: Event): State {
    match e
    case Receive(req, valid, admitted, usable) =>
      if s.phase != Idle || !valid || (s.committed && !Differs(req, s.mem)) || !admitted then s
      else s.(phase := Arming(req, s.mem, s.committed, s.known && usable))
    case MarkerRenamed =>
      if s.phase.Arming? then s.(marker := Written(s.marker, s.phase.req, ReplacedUnsynced)) else s
    case MarkerWritten(o) =>
      if !s.phase.Arming? then s
      else
        var p := s.phase;
        s.(marker := Written(s.marker, p.req, o),
           phase := if o == Durable then Armed(p.req, p.base, p.baseOk, p.covers) else Idle)
    case ApplyBegun(torn) =>
      if s.phase.Armed? then
        var p := s.phase;
        s.(radio := torn, phase := Applying(p.req, p.base, p.baseOk, p.covers))
      else s
    case ApplyEnded(ok, left) =>
      if !s.phase.Applying? then s
      else
        var p := s.phase;
        if ok then
          s.(radio := Applied(p.req, left), mem := p.req, known := true, committed := false,
             phase := Live(p.base, p.baseOk, p.covers))
        else if Differs(p.req, s.mem) then
          ArmRevert(s.(radio := left), p.base, p.baseOk, p.covers)
        else s.(radio := left, phase := Idle)
    case SubmitFailed =>
      if s.phase.Live? then ArmRevert(s, s.phase.base, s.phase.baseOk, s.phase.covers) else s
    case WriteBegun =>
      if s.phase.Live? then s.(phase := Writing(s.phase.base, s.phase.baseOk, s.phase.covers, false)) else s
    case ConfRenamed =>
      if s.phase.Writing? then
        s.(conf := Written(s.conf, s.mem, ReplacedUnsynced), phase := s.phase.(renamed := true))
      else s
    case ConfWritten(o) =>
      if !s.phase.Writing? || (s.phase.renamed && o == Unchanged) then s
      else
        s.(conf := Written(s.conf, s.mem, o),
           phase := Decided(s.phase.base, s.phase.baseOk, s.phase.covers, o))
    case Reconcile =>
      if !s.phase.Decided? then s
      else (match s.phase.outcome
            case Durable => s.(committed := true, phase := Clearing)
            case ReplacedUnsynced => s.(phase := Idle)
            case Unchanged => ArmRevert(s, s.phase.base, s.phase.baseOk, s.phase.covers))
    case Clear(unlinked) =>
      if s.phase.Clearing? then
        s.(marker := if unlinked then Unlinked(s.marker) else s.marker, phase := Idle)
      else s
    case RevertBegun(torn) =>
      if s.phase.RevertDue? then s.(radio := torn, phase := Reverting(s.phase.base, s.phase.baseOk)) else s
    case RevertEnded(ok, left) =>
      if !s.phase.Reverting? then s
      else if ok then
        s.(radio := Applied(s.phase.base, left), mem := s.phase.base, committed := s.phase.baseOk,
           known := true, phase := Idle)
      else s.(radio := left, committed := false, known := false, phase := Idle)
    case Restart(loadable, unset) => Load(s, loadable, unset)
    case PowerLoss(m, f, loadable, unset) =>
      if m in s.marker.crash && f in s.conf.crash
      then Load(s.(marker := Settle(m), conf := Settle(f)), loadable, unset)
      else s
  }

  function Run(s: State, es: seq<Event>): State {
    if es == [] then s else Next(Run(s, es[..|es| - 1]), es[|es| - 1])
  }

  // ---- The invariant ------------------------------------------------------------

  /** The stored configuration is `c` and no power loss can change that. */
  ghost predicate Stored(conf: File<Config>, c: Config) {
    conf == Settle(Some(c))
  }

  /** If a boot may find no marker, the stored configuration is beyond doubt and
      it is the one the radio has. */
  ghost predicate Guarded(s: State) {
    && s.marker.view in s.marker.crash
    && (None in s.marker.crash ==>
          s.conf == Settle(s.conf.view) && (s.conf.view.Some? ==> Agree(s.conf.view.value, s.radio)))
  }

  ghost predicate Committed(s: State) {
    s.committed ==> Stored(s.conf, s.mem) && Agree(s.mem, s.radio)
  }

  ghost predicate Baseline(s: State, req: Config, base: Config, baseOk: bool) {
    && base == s.mem && baseOk == s.committed
    && (baseOk ==> Stored(s.conf, base) && Differs(req, base))
  }

  /** The marker is on disk and survives a power loss. */
  ghost predicate Marked(s: State) {
    None !in s.marker.crash
  }

  ghost predicate Phased(s: State) {
    match s.phase
    case Idle => Committed(s)
    case Arming(req, base, baseOk, _) => Committed(s) && Baseline(s, req, base, baseOk)
    case Armed(req, base, baseOk, _) => Marked(s) && Committed(s) && Baseline(s, req, base, baseOk)
    case Applying(req, base, baseOk, _) => Marked(s) && Baseline(s, req, base, baseOk)
    case Live(base, baseOk, _) =>
      Marked(s) && !s.committed && Agree(s.mem, s.radio) && (baseOk ==> Stored(s.conf, base))
    case Writing(base, baseOk, _, renamed) =>
      && Marked(s) && !s.committed && Agree(s.mem, s.radio)
      && (baseOk && !renamed ==> Stored(s.conf, base))
    case Decided(base, baseOk, _, o) =>
      && Marked(s) && !s.committed && Agree(s.mem, s.radio)
      && (o == Durable ==> Stored(s.conf, s.mem))
      && (o == Unchanged && baseOk ==> Stored(s.conf, base))
    case Clearing => Marked(s) && s.committed && Stored(s.conf, s.mem) && Agree(s.mem, s.radio)
    case RevertDue(base, baseOk) => Marked(s) && (baseOk ==> Stored(s.conf, base))
    case Reverting(base, baseOk) => Marked(s) && (baseOk ==> Stored(s.conf, base))
  }

  ghost predicate Inv(s: State) {
    Guarded(s) && Phased(s)
  }

  lemma NextKeeps(s: State, e: Event)
    requires Inv(s)
    ensures Inv(Next(s, e))
  {
  }

  /** A boot: settled files; without a marker the stored configuration, if any,
      is the radio's. */
  ghost predicate Boot(s: State) {
    && s.phase == Idle && s.marker == Settle(s.marker.view) && s.conf == Settle(s.conf.view)
    && (s.marker.view.None? && s.conf.view.Some? ==> Agree(s.conf.view.value, s.radio))
    && (s.committed ==> s.marker.view.None? && s.conf.view == Some(s.mem))
  }

  lemma {:induction false} RunKeeps(s: State, es: seq<Event>)
    requires Boot(s)
    ensures Inv(Run(s, es))
  {
    if es != [] {
      RunKeeps(s, es[..|es| - 1]);
      NextKeeps(Run(s, es[..|es| - 1]), es[|es| - 1]);
    }
  }

  // ---- What follows ---------------------------------------------------------------

  /** Cut the power at any point of any run and boot on any files that may be
      left: if the boot takes the stored configuration as committed, that
      configuration is the one the radio has, and the file will stay. */
  lemma CommittedBootIsLive(s: State, es: seq<Event>, m: Option<Config>, f: Option<Config>,
                            loadable: bool, unset: Config)
    requires Boot(s) && m in Run(s, es).marker.crash && f in Run(s, es).conf.crash
    ensures var t := Next(Run(s, es), PowerLoss(m, f, loadable, unset));
            t.committed ==> f == Some(t.mem) && Agree(t.mem, t.radio) && Stored(t.conf, t.mem)
  {
    RunKeeps(s, es);
  }

  /** The same for a restart of the process alone. */
  lemma CommittedRestartIsLive(s: State, es: seq<Event>, loadable: bool, unset: Config)
    requires Boot(s)
    ensures var t := Next(Run(s, es), Restart(loadable, unset));
            t.committed ==> Agree(t.mem, t.radio) && Stored(t.conf, t.mem)
  {
    RunKeeps(s, es);
  }

  /** The request a step answers with OK. */
  function Confirms(s: State, e: Event): Option<Config> {
    match e
    case Receive(req, valid, _, _) =>
      if s.phase == Idle && valid && s.committed && !Differs(req, s.mem) then Some(req) else None
    case Clear(_) => if s.phase.Clearing? then Some(s.mem) else None
    case _ => None
  }

  /** The last step of the run answers `req` with OK. */
  ghost predicate Confirmed(s: State, es: seq<Event>, req: Config) {
    es != [] && Confirms(Run(s, es[..|es| - 1]), es[|es| - 1]) == Some(req)
  }

  /** OK is answered only for the configuration the radio has and every later
      boot will find stored, both on the shortcut and after a write. */
  lemma OkMeansLiveAndStored(s: State, es: seq<Event>, e: Event)
    requires Boot(s) && Confirms(Run(s, es), e).Some?
    ensures var t, req := Next(Run(s, es), e), Confirms(Run(s, es), e).value;
            && t.committed && Grants(t.mem, req) && Grants(t.radio, req)
            && t.conf.view.Some? && Grants(t.conf.view.value, req) && t.conf == Settle(t.conf.view)
  {
    RunKeeps(s, es);
    OkGrants(Run(s, es), e);
  }

  lemma OkGrants(s: State, e: Event)
    requires Inv(s) && Confirms(s, e).Some?
    ensures var t, req := Next(s, e), Confirms(s, e).value;
            && t.committed && Grants(t.mem, req) && Grants(t.radio, req)
            && t.conf.view.Some? && Grants(t.conf.view.value, req) && t.conf == Settle(t.conf.view)
  {
    hide Differs, Grants;
    var t, req := Next(s, e), Confirms(s, e).value;
    NextKeeps(s, e);
    DiffersIff(req, t.mem);
    DiffersIff(t.mem, t.radio);
    DiffersIff(t.mem, t.mem);
    DiffersIff(req, req);
    AgreeIsEquivalence(req, t.mem, t.radio);
    DiffersIff(req, t.radio);
  }

  lemma SelfGrants(c: Config)
    ensures Grants(c, c)
  {
  }

  /** What a run that answers OK leaves behind, started from any state the
      invariant allows. */
  lemma ConfirmedGrants(s: State, es: seq<Event>, req: Config)
    requires Inv(s) && Confirmed(s, es, req)
    ensures var t := Run(s, es);
            && t.committed && Grants(t.mem, req) && Grants(t.radio, req)
            && t.conf.view.Some? && Grants(t.conf.view.value, req) && t.conf == Settle(t.conf.view)
  {
    hide Next, Inv, Grants, Confirms;
    KeepsFrom(s, es[..|es| - 1]);
    OkGrants(Run(s, es[..|es| - 1]), es[|es| - 1]);
  }

  lemma {:induction false} KeepsFrom(s: State, es: seq<Event>)
    requires Inv(s)
    ensures Inv(Run(s, es))
  {
    if es != [] {
      KeepsFrom(s, es[..|es| - 1]);
      NextKeeps(Run(s, es[..|es| - 1]), es[|es| - 1]);
    }
  }

  /** Between transactions a committed configuration is live and stored; and a
      radio whose configuration is not the stored one is never unmarked. */
  lemma IdleRadioIsExplained(s: State, es: seq<Event>)
    requires Boot(s) && Run(s, es).phase == Idle
    ensures var t := Run(s, es);
            && (t.committed ==> Agree(t.mem, t.radio) && Stored(t.conf, t.mem))
            && (t.conf.view.Some? && Differs(t.conf.view.value, t.radio) ==>
                  None !in t.marker.crash && t.marker.view.Some?)
  {
    RunKeeps(s, es);
  }

  /** The radio during an apply of `req` that has been marked. */
  function Started(s: State, req: Config, usable: bool, torn: Config): State {
    Next(Next(Next(s, Receive(req, true, true, usable)), MarkerWritten(Durable)), ApplyBegun(torn))
  }

  function Reverted(s: State, torn: Config, left: Config): State {
    Next(Next(s, RevertBegun(torn)), RevertEnded(true, left))
  }

  /** A transaction in which nothing fails ends with the requested configuration
      committed, live and stored, and without its marker. */
  lemma SuccessCommits(s: State, req: Config, usable: bool, c1: Config, c2: Config)
    requires s.phase == Idle && !(s.committed && Grants(s.mem, req))
    ensures var t := Next(Next(Next(Next(Next(Started(s, req, usable, c1), ApplyEnded(true, c2)), WriteBegun),
                                    ConfWritten(Durable)), Reconcile), Clear(true));
            && t.phase == Idle && t.committed && t.known && t.mem == req && Grants(t.radio, req)
            && t.conf == File(Some(req), {Some(req)}) && t.marker.view.None?
  {
    hide Differs, Grants;
    DiffersIff(s.mem, req);
    DiffersIff(req, s.mem);
    DiffersIff(req, Applied(req, c2));
    DiffersIff(Applied(req, c2), req);
  }

  /** Same configuration, commitment and file as before, and the radio agrees. */
  ghost predicate Undone(s: State, t: State) {
    t.mem == s.mem && t.committed == s.committed && t.conf == s.conf && t.phase == Idle && Agree(t.mem, t.radio)
  }

  /** No net change: when the apply fails, or the write leaves the file as it was,
      a successful revert brings back the configuration, its commitment and the
      radio, provided the configuration was known to be usable. */
  lemma FailureChangesNothing(s: State, req: Config, c1: Config, c2: Config, c3: Config, c4: Config)
    requires s.phase == Idle && s.known && Differs(req, s.mem)
    ensures Undone(s, Reverted(Next(Started(s, req, true, c1), ApplyEnded(false, c2)), c3, c4))
    ensures Undone(s, Reverted(Next(Next(Next(Next(Started(s, req, true, c1), ApplyEnded(true, c2)), WriteBegun),
                               ConfWritten(Unchanged)), Reconcile), c3, c4))
  {
    hide Differs;
  }

  /** Without a configuration known to have been applied and usable there is nothing
      to go back to: nothing is reverted, and the daemon no longer vouches for what
      it has. */
  lemma UnknownBaselineDegrades(s: State, req: Config, usable: bool, c1: Config, c2: Config)
    requires s.phase == Idle && !(s.known && usable) && !Grants(s.mem, req)
    ensures var t := Next(Started(s, req, usable, c1), ApplyEnded(false, c2));
            t.phase == Idle && !t.known && !t.committed && t.radio == c2 && t.mem == s.mem
    ensures var t := Next(Next(Next(Next(Started(s, req, usable, c1), ApplyEnded(true, c2)), WriteBegun),
                                    ConfWritten(Unchanged)), Reconcile);
            t.phase == Idle && !t.known && !t.committed && Grants(t.radio, req) && t.mem == req
  {
    hide Differs, Grants;
    DiffersIff(s.mem, req);
    DiffersIff(req, s.mem);
    DiffersIff(req, Applied(req, c2));
    DiffersIff(Applied(req, c2), req);
  }

  /** A confirmed configuration whose marker could be removed is taken as committed
      by the next start. */
  lemma ConfirmedStaysCommitted(s: State, es: seq<Event>, unset: Config)
    requires Boot(s) && Run(s, es).phase == Clearing
    ensures var t := Run(s, es);
            var u := Next(Next(t, Clear(true)), Restart(true, unset));
            u.committed && u.mem == t.mem && u.marker.view.None?
  {
    RunKeeps(s, es);
  }

  // ---- The handler -------------------------------------------------------------------

  datatype Persisting = NotSubmitted | Queued | Direct(outcome: Outcome)

  /** What the request's checks, the files and the radio answer to the handler. */
  datatype World = World(valid: bool, admitted: bool, usable: bool, arm: Outcome, torn: Config, applied: bool,
                         left: Config, persisting: Persisting, unlinked: bool)

  datatype Reply = Ok | Ng | Later

  /** The marker was written and the radio took the configuration. */
  predicate Through(w: World) {
    w.arm == Durable && w.applied
  }

  lemma RunAppend(s: State, es: seq<Event>, e: Event)
    ensures Run(s, es + [e]) == Next(Run(s, es), e)
  {
    assert (es + [e])[..|es|] == es;
  }

  /** The daemon's radio variables. Each method returns the steps it performed,
      so that whatever holds after every run holds at each of its crash points. */
  class Handler {
    var mem: Config
    var committed: bool
    var known: bool
    var writing: bool
    var revertPending: bool
    var revertBase: Config
    var revertOk: bool
    var covers: bool
    var radio: Config
    var marker: File<Config>
    var conf: File<Config>
    ghost var phase: Phase

    ghost function Abs(): State
      reads this
    {
      State(mem, committed, known, phase, radio, marker, conf)
    }

    /** Between two calls: nothing under way, a write outstanding, or a revert due. */
    ghost predicate Valid()
      reads this
    {
      if writing then phase == Writing(revertBase, revertOk, covers, false) && !revertPending
      else if revertPending then phase == RevertDue(revertBase, revertOk)
      else phase == Idle
    }

    constructor (c: Config, m: File<Config>, f: File<Config>, unset: Config, loadable: bool)
      ensures Valid() && phase == Idle && radio == c && marker == m && conf == f
      ensures Abs() == Load(Abs(), loadable, unset)
    {
      radio, marker, conf, phase := c, m, f, Idle;
      known, writing, revertPending, revertBase, revertOk, covers := false, false, false, unset, false, false;
      if f.view.Some? && loadable {
        mem, committed := f.view.value, m.view.None?;
      } else {
        mem, committed := unset, false;
      }
    }

    ghost method Do(s: State, es: seq<Event>, e: Event) returns (r: seq<Event>)
      requires Abs() == Next(Run(s, es), e)
      ensures r == es + [e] && Abs() == Run(s, r)
    {
      RunAppend(s, es, e);
      r := es + [e];
    }

    /** radio_arm_revert */
    method Arm(base: Config, baseOk: bool, usable: bool)
      requires !writing && !revertPending
      modifies this
      ensures Valid() && Abs() == ArmRevert(old(Abs()), base, baseOk, usable)
      ensures !writing && (revertPending ==> usable && revertBase == base && revertOk == baseOk)
    {
      if usable {
        revertBase, revertOk, revertPending := base, baseOk, true;
        phase := RevertDue(base, baseOk);
      } else {
        known, committed := false, false;
        phase := Idle;
      }
    }

    /** handle_set_radio_config, from the gate on. */
    method SetRadioConfig(req: Config, w: World) returns (reply: Reply, ghost trace: seq<Event>)
      requires Valid() && !revertPending
      modifies this
      ensures Valid() && Abs() == Run(old(Abs()), trace)
      ensures reply == Ok ==> committed && Grants(mem, req) && Confirmed(old(Abs()), trace, req)
      ensures reply == Ok && Inv(old(Abs())) ==>
                && Grants(radio, req) && conf.view.Some? && Grants(conf.view.value, req)
                && conf == File(conf.view, {conf.view})
      ensures var held := old(committed) && Grants(old(mem), req);
              && (reply == Ok <==>
                    && !old(writing) && w.valid
                    && (held || (w.admitted && Through(w) && w.persisting == Direct(Durable))))
              && (reply == Later <==>
                    || old(writing)
                    || (w.valid && !held && (!w.admitted || (Through(w) && w.persisting == Queued))))
      ensures old(writing) ==> trace == []
    {
      hide Inv, Grants, Differs;
      ghost var s := Abs();
      trace := [];
      if writing { return Later, trace; }
      DiffersIff(req, mem);
      if !w.valid || (committed && !Differs(req, mem)) || !w.admitted {
        trace := Do(s, [], Receive(req, w.valid, w.admitted, w.usable));
        assert trace[..0] == [];
        reply := if !w.valid then Ng else if committed && !Differs(req, mem) then Ok else Later;
      } else {
        reply, trace := Transact(req, w, s, trace);
      }
      Granted(reply, req, s, trace);
    }

    /** What an OK says about the daemon, the radio and the file. */
    lemma Granted(reply: Reply, req: Config, s: State, es: seq<Event>)
      requires Abs() == Run(s, es) && (reply == Ok ==> Confirmed(s, es, req))
      requires reply == Ok ==> committed && (mem == req || !Differs(req, mem))
      ensures reply == Ok ==> Grants(mem, req)
      ensures reply == Ok && Inv(s) ==>
                && Grants(radio, req) && conf.view.Some? && Grants(conf.view.value, req)
                && conf == File(conf.view, {conf.view})
    {
      hide Inv, Grants, Differs;
      DiffersIff(req, mem);
      SelfGrants(req);
      if reply == Ok && Inv(s) {
        ConfirmedGrants(s, es, req);
      }
    }

    method Transact(req: Config, w: World, ghost s: State, ghost es: seq<Event>)
      returns (reply: Reply, ghost trace: seq<Event>)
      requires Valid() && !revertPending && !writing && w.valid && w.admitted
      requires !(committed && !Differs(req, mem)) && Abs() == Run(s, es)
      modifies this
      ensures Valid() && Abs() == Run(s, trace)
      ensures reply == Ok ==> committed && mem == req && Confirmed(s, trace, req)
      ensures reply == Ok <==> Through(w) && w.persisting == Direct(Durable)
      ensures reply == Later <==> Through(w) && w.persisting == Queued
    {
      hide Run, Differs, Written;
      var base, baseOk, usable := mem, committed, known && w.usable;
      phase := Arming(req, base, baseOk, usable);
      trace := Do(s, es, Receive(req, true, true, w.usable));
      marker := Written(marker, req, w.arm);
      phase := if w.arm == Durable then Armed(req, base, baseOk, usable) else Idle;
      trace := Do(s, trace, MarkerWritten(w.arm));
      if w.arm != Durable { return Ng, trace; }
      reply, trace := Apply(req, base, baseOk, usable, w, s, trace);
    }

    method Apply(req: Config, base: Config, baseOk: bool, usable: bool, w: World, ghost s: State, ghost es: seq<Event>)
      returns (reply: Reply, ghost trace: seq<Event>)
      requires !writing && !revertPending && phase == Armed(req, base, baseOk, usable) && Abs() == Run(s, es)
      modifies this
      ensures Valid() && Abs() == Run(s, trace)
      ensures reply == Ok ==> committed && mem == req && Confirmed(s, trace, req)
      ensures reply == Ok <==> w.applied && w.persisting == Direct(Durable)
      ensures reply == Later <==> w.applied && w.persisting == Queued
    {
      hide Run, Differs, Applied, Load, ArmRevert, Written, Unlinked;
      radio, phase := w.torn, Applying(req, base, baseOk, usable);
      trace := Do(s, es, ApplyBegun(w.torn));
      if !w.applied {
        trace := ApplyFailed(req, base, baseOk, usable, w.left, s, trace);
        return Ng, trace;
      }
      radio, mem, known, committed := Applied(req, w.left), req, true, false;
      phase := Live(base, baseOk, usable);
      trace := Do(s, trace, ApplyEnded(true, w.left));
      reply, trace := Persist(base, baseOk, usable, w, s, trace);
    }

    method ApplyFailed(req: Config, base: Config, baseOk: bool, usable: bool, left: Config,
                       ghost s: State, ghost es: seq<Event>)
      returns (ghost trace: seq<Event>)
      requires !writing && !revertPending && phase == Applying(req, base, baseOk, usable) && Abs() == Run(s, es)
      modifies this
      ensures Valid() && Abs() == Run(s, trace)
    {
      hide Run, Differs, Applied, Load, ArmRevert, Written, Unlinked;
      radio := left;
      if Differs(req, mem) {
        Arm(base, baseOk, usable);
      } else {
        phase := Idle;
      }
      trace := Do(s, es, ApplyEnded(false, left));
    }

    method Persist(base: Config, baseOk: bool, usable: bool, w: World, ghost s: State, ghost es: seq<Event>)
      returns (reply: Reply, ghost trace: seq<Event>)
      requires !writing && !revertPending && phase == Live(base, baseOk, usable) && Abs() == Run(s, es)
      modifies this
      ensures Valid() && Abs() == Run(s, trace)
      ensures reply == Ok ==> committed && mem == old(mem) && Confirmed(s, trace, mem)
      ensures reply == Ok <==> w.persisting == Direct(Durable)
      ensures reply == Later <==> w.persisting == Queued
    {
      hide Run, Differs, Applied, Load, ArmRevert, Written, Unlinked;
      trace := es;
      match w.persisting {
        case NotSubmitted =>
          Arm(base, baseOk, usable);
          trace := Do(s, trace, SubmitFailed);
          return Ng, trace;
        case Queued =>
          revertBase, revertOk, covers, writing := base, baseOk, usable, true;
          phase := Writing(base, baseOk, usable, false);
          trace := Do(s, trace, WriteBegun);
          return Later, trace;
        case Direct(o) =>
          phase := Writing(base, baseOk, usable, false);
          trace := Do(s, trace, WriteBegun);
          reply, trace := Settle(base, baseOk, usable, o, w.unlinked, s, trace);
      }
    }

    /** The write returned: commit and clear the marker, keep, or go back. */
    method Settle(base: Config, baseOk: bool, usable: bool, o: Outcome, unlinked: bool,
                  ghost s: State, ghost es: seq<Event>)
      returns (reply: Reply, ghost trace: seq<Event>)
      requires !writing && !revertPending && phase == Writing(base, baseOk, usable, false) && Abs() == Run(s, es)
      modifies this
      ensures Valid() && !writing && Abs() == Run(s, trace)
      ensures (reply == Ok <==> o == Durable) && reply != Later
      ensures reply == Ok ==> !revertPending && committed && mem == old(mem) && Confirmed(s, trace, mem)
    {
      hide Run, Differs, Applied, Load, ArmRevert, Written, Unlinked;
      conf, phase := Written(conf, mem, o), Decided(base, baseOk, usable, o);
      trace := Do(s, es, ConfWritten(o));
      if o == Durable {
        trace := Commit(unlinked, s, trace);
        return Ok, trace;
      }
      trace := NotConfirmed(base, baseOk, usable, o, s, trace);
      return Ng, trace;
    }

    method NotConfirmed(base: Config, baseOk: bool, usable: bool, o: Outcome, ghost s: State, ghost es: seq<Event>)
      returns (ghost trace: seq<Event>)
      requires !writing && !revertPending && phase == Decided(base, baseOk, usable, o) && o != Durable
      requires Abs() == Run(s, es)
      modifies this
      ensures Valid() && !writing && Abs() == Run(s, trace)
    {
      hide Run, Differs, Applied, Load, ArmRevert, Written, Unlinked;
      if o == ReplacedUnsynced {
        phase := Idle;
      } else {
        Arm(base, baseOk, usable);
      }
      trace := Do(s, es, Reconcile);
    }

    method Commit(unlinked: bool, ghost s: State, ghost es: seq<Event>) returns (ghost trace: seq<Event>)
      requires phase.Decided? && phase.outcome == Durable && Abs() == Run(s, es)
      modifies this`committed, this`phase, this`marker
      ensures phase == Idle && committed && Abs() == Run(s, trace) && Confirmed(s, trace, mem)
    {
      hide Run, Unlinked;
      committed, phase := true, Clearing;
      trace := Do(s, es, Reconcile);
      ghost var before := trace;
      assert Confirms(Abs(), Clear(unlinked)) == Some(mem);
      marker, phase := if unlinked then Unlinked(marker) else marker, Idle;
      trace := Do(s, trace, Clear(unlinked));
      assert trace[..|trace| - 1] == before;
    }

    /** The radio branch of opcd_store_async_on_ready; an unchanged file makes
        it go back at once. */
    method Complete(o: Outcome, unlinked: bool, torn: Config, ok: bool, left: Config)
      returns (reply: Reply, ghost trace: seq<Event>)
      requires Valid() && writing
      modifies this
      ensures Valid() && !writing && !revertPending && Abs() == Run(old(Abs()), trace)
      ensures reply == Ok <==> o == Durable
      ensures reply == Ok ==> committed && mem == old(mem) && Confirmed(old(Abs()), trace, mem)
      ensures reply == Ok && Inv(old(Abs())) ==>
                && Grants(radio, mem) && conf.view.Some? && Grants(conf.view.value, mem)
                && conf == File(conf.view, {conf.view})
    {
      hide Inv, Grants;
      ghost var s := Abs();
      writing := false;
      reply, trace := Settle(revertBase, revertOk, covers, o, unlinked, s, []);
      trace := GoBack(torn, ok, left, s, trace);
      if reply == Ok && Inv(s) {
        ConfirmedGrants(s, trace, mem);
      }
    }

    /** opcd_radio_revert_drain */
    method RevertDrain(torn: Config, ok: bool, left: Config) returns (ghost trace: seq<Event>)
      requires Valid() && !writing
      modifies this
      ensures Valid() && !writing && !revertPending && Abs() == Run(old(Abs()), trace)
    {
      trace := GoBack(torn, ok, left, Abs(), []);
    }

    method EndRevert(ok: bool, left: Config, ghost s: State, ghost es: seq<Event>) returns (ghost trace: seq<Event>)
      requires !writing && phase == Reverting(revertBase, revertOk) && Abs() == Run(s, es)
      modifies this
      ensures Valid() && !writing && !revertPending && Abs() == Run(s, trace)
    {
      hide Run, Applied;
      revertPending, phase := false, Idle;
      if ok {
        radio, mem, committed, known := Applied(revertBase, left), revertBase, revertOk, true;
        trace := Do(s, es, RevertEnded(true, left));
      } else {
        radio, committed, known := left, false, false;
        trace := Do(s, es, RevertEnded(false, left));
      }
    }

    method GoBack(torn: Config, ok: bool, left: Config, ghost s: State, ghost es: seq<Event>)
      returns (ghost trace: seq<Event>)
      requires Valid() && !writing && Abs() == Run(s, es)
      modifies this
      ensures Valid() && !writing && !revertPending && Abs() == Run(s, trace)
      ensures !old(revertPending) ==> Abs() == old(Abs()) && trace == es
    {
      hide Run, Applied;
      trace := es;
      if revertPending {
        radio, phase := torn, Reverting(revertBase, revertOk);
        trace := Do(s, trace, RevertBegun(torn));
        trace := EndRevert(ok, left, s, trace);
      }
    }
  }
}
