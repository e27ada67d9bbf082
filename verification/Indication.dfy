/** Notifications (opcd/indication.c): with a reporting period state changes are
    staged, the latest one wins, and they go out at the period boundary; without
    one they go out on arrival. */
module Indication {
  import opened Common
  import opened FaultProbe

  // ---- Staging: latest wins ---------------------------------------------------------

  /** One kind of state change with its contents. `wanted` is its information bit,
      `pending` what is staged. The history: every wanted change in order of
      arrival, the position of the staged one, and what was sent with its
      position. */
  datatype Stage<T> = Stage(period: nat, wanted: bool, pending: Option<T>,
                            log: seq<T>, at: nat, sent: seq<(nat, T)>)

  /** `ok` says whether the sending worked, if there was one. */
  datatype StageEvent<T> =
    | Change(value: T, ok: bool)
    | Flush(ok: bool)
    | Reconfigure(period: nat, wanted: bool)

  function Staged<T>(s: Stage<T>, e: StageEvent<T>): Stage<T> {
    match e
    case Change(v, ok) =>
      if !s.wanted then s
      else if s.period > 0 then s.(pending := Some(v), log := s.log + [v], at := |s.log|)
      else if ok then s.(log := s.log + [v], sent := s.sent + [(|s.log|, v)])
      else s.(log := s.log + [v])
    case Flush(ok) =>
      if s.period > 0 && s.pending.Some? && ok
      then s.(pending := None, sent := s.sent + [(s.at, s.pending.value)])
      else s
    case Reconfigure(period, wanted) => s.(period := period, wanted := wanted, pending := None)
  }

  function StagedAll<T>(es: seq<StageEvent<T>>): Stage<T> {
    if es == [] then Stage(0, false, None, [], 0, []) else Staged(StagedAll(es[..|es| - 1]), es[|es| - 1])
  }

  /** Sent changes are changes that arrived, in order and without repetition. */
  ghost predicate Faithful<T(!new)>(s: Stage<T>) {
    && (forall i :: 0 <= i < |s.sent| ==> s.sent[i].0 < |s.log| && s.sent[i].1 == s.log[s.sent[i].0])
    && (forall i, j :: 0 <= i < j < |s.sent| ==> s.sent[i].0 < s.sent[j].0)
  }

  /** With any periods, wishes, failed sends and reconfigurations: what is sent is
      each time a change that arrived, never an older one than sent before and never
      the same one twice, and what is staged is the newest of all. */
  lemma {:induction false} LatestWins<T(!new)>(es: seq<StageEvent<T>>)
    ensures var s := StagedAll(es);
            && Faithful(s)
            && (s.pending.Some? ==>
                  && s.period > 0 && s.at + 1 == |s.log| && s.pending.value == s.log[s.at]
                  && forall i :: 0 <= i < |s.sent| ==> s.sent[i].0 < s.at)
  {
    if es != [] { LatestWins(es[..|es| - 1]); }
  }

  /** The fate of a wanted change while nothing newer and no new configuration
      comes. With a period it stays staged through every failed flush and is sent by
      the first that works; without one it is sent on arrival or not at all. */
  lemma {:induction false} NewestSurvives<T>(es: seq<StageEvent<T>>, v: T, ok: bool, flushes: seq<bool>)
    requires StagedAll(es).wanted
    ensures var s, t := StagedAll(es), Flushed(Staged(StagedAll(es), Change(v, ok)), flushes);
            var n := |s.log|;
            if s.period == 0 then t.pending == s.pending && t.sent == (if ok then s.sent + [(n, v)] else s.sent)
            else if true in flushes then t.pending == None && t.sent == s.sent + [(n, v)]
            else t.pending == Some(v) && t.sent == s.sent
    decreases |flushes|
  {
    PendingPeriod(es);
    if flushes != [] {
      var n := |flushes| - 1;
      NewestSurvives(es, v, ok, flushes[..n]);
      assert flushes == flushes[..n] + [flushes[n]];
      FlushedFrame(Staged(StagedAll(es), Change(v, ok)), flushes[..n]);
    }
  }

  /** A number of boundaries, one after another. */
  function Flushed<T>(s: Stage<T>, oks: seq<bool>): Stage<T> {
    if oks == [] then s else Staged(Flushed(s, oks[..|oks| - 1]), Flush(oks[|oks| - 1]))
  }

  lemma {:induction false} FlushedFrame<T>(s: Stage<T>, oks: seq<bool>)
    ensures Flushed(s, oks).period == s.period && Flushed(s, oks).at == s.at && Flushed(s, oks).log == s.log
  {
    if oks != [] { FlushedFrame(s, oks[..|oks| - 1]); }
  }

  lemma {:induction false} PendingPeriod<T>(es: seq<StageEvent<T>>)
    ensures StagedAll(es).pending.Some? ==> StagedAll(es).period > 0
  {
    if es != [] { PendingPeriod(es[..|es| - 1]); }
  }

  // ---- Congestion entries ------------------------------------------------------------

  /** One resource on its way from the probe to the recipient: the band, the staged
      value, and the history of the entries: how many there were, the number of the
      staged one, the reports sent with the number of their entry, and how many were
      withdrawn, dropped or given back. */
  datatype Flow = Flow(band: Band, pending: Option<nat>, period: nat, entries: nat, at: nat,
                       sent: seq<(nat, nat)>, withdrawn: nat, dropped: nat, retried: nat)

  datatype FlowEvent =
    | Sampled(pct: Option<nat>, ok: bool)
    | Boundary(ok: bool)
    | Configure(period: nat)

  function Resampled(c: Levels, f: Flow, m: Option<nat>, ok: bool): Flow {
    var s := Measurement(m);
    var g := f.(band := FaultProbe.Next(c, f.band, s));
    if Entered(c, f.band, s) then
      if f.period > 0 then g.(pending := Some(m.value), entries := f.entries + 1, at := f.entries)
      else if ok then g.(entries := f.entries + 1, sent := f.sent + [(f.entries, m.value)])
      else g.(band := FaultProbe.Next(c, g.band, Rearm), entries := f.entries + 1, retried := f.retried + 1)
    else if Cleared(c, f.band, s) && f.period > 0 && f.pending.Some? then
      g.(pending := None, withdrawn := f.withdrawn + 1)
    else g
  }

  /** fault_probe_tick for one resource, the flush at the boundary, and a new
      configuration, which forgets what was staged and reported. */
  function Flowed(c: Levels, f: Flow, e: FlowEvent): Flow {
    match e
    case Sampled(m, ok) => Resampled(c, f, m, ok)
    case Boundary(ok) =>
      if f.period > 0 && f.pending.Some? && ok then f.(pending := None, sent := f.sent + [(f.at, f.pending.value)])
      else f
    case Configure(period) =>
      f.(band := FaultProbe.Next(c, f.band, Rearm), pending := None, period := period,
         dropped := if f.pending.Some? then f.dropped + 1 else f.dropped)
  }

  function FlowedAll(c: Levels, period: nat, es: seq<FlowEvent>): Flow {
    if es == [] then Flow(Band(false, false), None, period, 0, 0, [], 0, 0, 0)
    else Flowed(c, FlowedAll(c, period, es[..|es| - 1]), es[|es| - 1])
  }

  ghost predicate FlowInv(f: Flow) {
    && (f.band.notified ==> f.band.congested)
    && (f.pending.Some? ==> f.period > 0 && f.band.notified)
    && f.entries == |f.sent| + f.withdrawn + f.dropped + f.retried + if f.pending.Some? then 1 else 0
  }

  /** No entry is lost and none is reported twice: every one is sent, withdrawn
      because the congestion cleared first, dropped by a new configuration, or
      given back to the probe to be reported again; and what waits for the
      boundary is still congested. */
  lemma {:induction false} EntriesConserved(c: Levels, period: nat, es: seq<FlowEvent>)
    ensures FlowInv(FlowedAll(c, period, es))
  {
    if es != [] { EntriesConserved(c, period, es[..|es| - 1]); }
  }

  /** The percentages of the samples that entered the band, in order. */
  function EntryValues(c: Levels, period: nat, es: seq<FlowEvent>): seq<nat> {
    if es == [] then []
    else
      var before, e := es[..|es| - 1], es[|es| - 1];
      EntryValues(c, period, before) +
      if e.Sampled? && Entered(c, FlowedAll(c, period, before).band, Measurement(e.pct)) then [e.pct.value] else []
  }

  ghost predicate Reports(f: Flow, vs: seq<nat>) {
    && f.entries == |vs|
    && (forall k :: 0 <= k < |f.sent| ==> f.sent[k].0 < |vs| && f.sent[k].1 == vs[f.sent[k].0])
    && (forall k, l :: 0 <= k < l < |f.sent| ==> f.sent[k].0 < f.sent[l].0)
    && (f.pending.Some? ==>
          && f.at + 1 == |vs| && f.pending.value == vs[f.at]
          && forall k :: 0 <= k < |f.sent| ==> f.sent[k].0 < f.at)
  }

  lemma ReportStep(c: Levels, f: Flow, e: FlowEvent, vs: seq<nat>)
    requires FlowInv(f) && Reports(f, vs)
    ensures Reports(Flowed(c, f, e),
                    vs + if e.Sampled? && Entered(c, f.band, Measurement(e.pct)) then [e.pct.value] else [])
  {
    hide FaultProbe.Next;
    assert vs + [] == vs;
  }

  /** Every report carries the percentage of the sample that entered, each entry is
      reported at most once and in order, and what is staged is the latest entry
      with its percentage. */
  lemma {:induction false} ReportsEntries(c: Levels, period: nat, es: seq<FlowEvent>)
    ensures Reports(FlowedAll(c, period, es), EntryValues(c, period, es))
  {
    hide Flowed, Entered, FlowInv, Reports;
    if es == [] {
      NoReports(c, period);
    } else {
      var before := es[..|es| - 1];
      ReportsEntries(c, period, before);
      EntriesConserved(c, period, before);
      ReportStep(c, FlowedAll(c, period, before), es[|es| - 1], EntryValues(c, period, before));
    }
  }

  lemma NoReports(c: Levels, period: nat)
    ensures Reports(FlowedAll(c, period, []), [])
  {
  }

  /** The probe's own steps in one event. */
  function StepsOf(c: Levels, f: Flow, e: FlowEvent): seq<Step> {
    match e
    case Sampled(m, ok) =>
      if Entered(c, f.band, Measurement(m)) && f.period == 0 && !ok then [Measurement(m), Rearm]
      else [Measurement(m)]
    case Boundary(_) => []
    case Configure(_) => [Rearm]
  }

  /** The probe's own history of a flow. */
  function ProbeSteps(c: Levels, period: nat, es: seq<FlowEvent>): seq<Step> {
    if es == [] then []
    else
      ProbeSteps(c, period, es[..|es| - 1]) +
      StepsOf(c, FlowedAll(c, period, es[..|es| - 1]), es[|es| - 1])
  }

  lemma RunOne(c: Levels, ss: seq<Step>, s: Step)
    ensures FaultProbe.Run(c, ss + [s]) == FaultProbe.Next(c, FaultProbe.Run(c, ss), s)
  {
    hide FaultProbe.Next;
    assert (ss + [s])[..|ss|] == ss;
  }

  lemma BandStep(c: Levels, f: Flow, e: FlowEvent, ss: seq<Step>)
    requires FaultProbe.Run(c, ss) == f.band
    ensures Flowed(c, f, e).band == FaultProbe.Run(c, ss + StepsOf(c, f, e))
  {
    hide FaultProbe.Run, FaultProbe.Next, Entered, Cleared;
    match e
    case Boundary(_) => assert ss + [] == ss;
    case Configure(_) => RunOne(c, ss, Rearm);
    case Sampled(m, ok) =>
      RunOne(c, ss, Measurement(m));
      RunOne(c, ss + [Measurement(m)], Rearm);
      assert ss + [Measurement(m), Rearm] == ss + [Measurement(m)] + [Rearm];
  }

  lemma {:induction false} BandIsProbeRun(c: Levels, period: nat, es: seq<FlowEvent>)
    ensures FlowedAll(c, period, es).band == FaultProbe.Run(c, ProbeSteps(c, period, es))
  {
    hide Flowed, StepsOf, FaultProbe.Next;
    if es != [] {
      var before := es[..|es| - 1];
      BandIsProbeRun(c, period, before);
      BandStep(c, FlowedAll(c, period, before), es[|es| - 1], ProbeSteps(c, period, before));
    }
  }

  /** A boundary reports a resource only while it is congested: some measured
      sample reached the entry level and none since fell below the release level. */
  lemma BoundaryReportsCongestion(c: Levels, period: nat, es: seq<FlowEvent>)
    requires FlowedAll(c, period, es).pending.Some?
    ensures exists i :: RaisedAt(c, ProbeSteps(c, period, es), i)
  {
    hide FlowedAll, ProbeSteps, RaisedAt, FaultProbe.Run;
    EntriesConserved(c, period, es);
    BandIsProbeRun(c, period, es);
    CongestedIff(c, ProbeSteps(c, period, es));
  }

  // ---- The tick -------------------------------------------------------------------------

  /** The boundary test of opcd_ind_tick_elapsed is the probe's own pacing rule
      with the reporting period, so boundaries are paced alike. */
  lemma BoundariesPaced(period: nat, es: seq<nat>)
    requires period > 0
    ensures var (c, n) := Ticks(period, es); c < period && n <= |es| && c + n * period <= Sum(es)
  {
    SamplesPaced(period, es);
  }

  class Indications {
    const probe: Probe
    /** Staged congestion values, by resource. */
    const pending: array<Option<nat>>
    var period: nat
    var counter: nat

    ghost predicate Valid()
      reads this, probe
    {
      probe.Valid() && pending.Length == 4 && (period > 0 ==> counter < period)
    }

    constructor (p: Probe)
      requires p.Valid()
      ensures Valid() && probe == p && fresh(pending) && period == 0
      ensures forall i :: 0 <= i < 4 ==> pending[i].None?
    {
      probe, period, counter := p, 0, 0;
      pending := new Option<nat>[4](_ => None);
    }

    /** SetIndicationConfig's reset of what is staged and latched. */
    method Configured(seconds: nat)
      requires Valid()
      modifies this`period, this`counter, pending, probe.bands
      ensures Valid() && period == seconds && counter == 0
      ensures forall i :: 0 <= i < 4 ==>
                pending[i].None? && probe.bands[i] == FaultProbe.Next(probe.levels, old(probe.bands[i]), Rearm)
    {
      period, counter := seconds, 0;
      ghost var was := probe.bands[..];
      for i := 0 to 4
        invariant period == seconds && counter == 0
        invariant forall k :: 0 <= k < i ==> pending[k].None? && probe.bands[k] == was[k].(notified := false)
        invariant forall k :: i <= k < 4 ==> probe.bands[k] == was[k]
      {
        pending[i] := None;
        probe.bands[i] := probe.bands[i].(notified := false);
      }
    }

    /** The part of fault_probe_tick after the sample: `rep` is the report on
        resource `i`, `was` its band before the sample. */
    method Notify(i: nat, rep: Report, ok: bool, ghost was: Band, ghost m: Option<nat>)
      returns (sent: Option<nat>)
      requires Valid() && i < 4 && rep == Reported(probe.levels, was, m)
      requires probe.bands[i] == FaultProbe.Next(probe.levels, was, Measurement(m))
      modifies pending, probe.bands
      ensures Valid()
      ensures var g := Resampled(probe.levels, Flow(was, old(pending[i]), period, 0, 0, [], 0, 0, 0), m, ok);
              && probe.bands[i] == g.band && pending[i] == g.pending
              && sent == if g.sent == [] then None else Some(g.sent[0].1)
      ensures forall k :: 0 <= k < 4 && k != i ==>
                pending[k] == old(pending[k]) && probe.bands[k] == old(probe.bands[k])
    {
      sent := None;
      if rep.entered {
        if period > 0 {
          pending[i] := Some(rep.pct);
        } else if ok {
          sent := Some(rep.pct);
        } else {
          probe.bands[i] := probe.bands[i].(notified := false);
        }
      }
      if rep.cleared && period > 0 {
        pending[i] := None;
      }
    }

    /** The boundary test and the flush of the staged values. */
    method Tick(elapsed: nat, ok: seq<bool>) returns (boundary: bool, sent: seq<Option<nat>>)
      requires Valid() && |ok| == 4
      modifies this`counter, pending
      ensures Valid() && |sent| == 4
      ensures period == 0 ==> !boundary
      ensures period > 0 ==> (counter, boundary) == Due(period, old(counter), elapsed)
      ensures forall i :: 0 <= i < 4 ==>
                sent[i] == (if boundary && ok[i] then old(pending[i]) else None) &&
                pending[i] == (if boundary && ok[i] then None else old(pending[i]))
    {
      sent := [None, None, None, None];
      if period == 0 { return false, sent; }
      counter := counter + if elapsed > period then period else elapsed;
      if counter < period { return false, sent; }
      counter := 0;
      boundary := true;
      for i := 0 to 4
        invariant |sent| == 4 && counter == 0
        invariant forall k :: 0 <= k < i ==>
                    sent[k] == (if ok[k] then old(pending[k]) else None) &&
                    pending[k] == (if ok[k] then None else old(pending[k]))
        invariant forall k :: i <= k < 4 ==> sent[k].None? && pending[k] == old(pending[k])
      {
        if pending[i].Some? && ok[i] {
          sent := sent[i := pending[i]];
          pending[i] := None;
        }
      }
    }
  }
}
