/** Congestion detection (opcd/fault_probe.c): utilisation measured from counter
    differences, a two-level band, and a latch that reports each entry once. */
module FaultProbe {
  import opened Common

  const NET_CLOCK_SLACK_MS: nat := 500

  datatype Resource = Cpu | Memory | DiskIo | Network

  // ---- Measuring -----------------------------------------------------------------

  /** What one sample could read; a missing value is an unreadable source. CPU is
      busy and total time, memory used and total, the network survey active time,
      busy time and the time stamp of the reading. */
  datatype Reads = Reads(cpu: Option<(nat, nat)>, memory: Option<(nat, nat)>, disk: Option<nat>,
                         net: Option<(nat, nat, nat)>, now: nat)

  /** The readings to compare with; a source that could not be read has none. */
  datatype Baseline = Baseline(primed: bool, cpu: Option<(nat, nat)>, disk: Option<nat>,
                               net: Option<(nat, nat, nat)>, at: nat)

  function Refreshed(r: Reads): Baseline {
    Baseline(true, r.cpu, r.disk, r.net, r.now)
  }

  /** A counter that went backwards was reset. */
  function Forward(now: nat, before: nat): nat {
    if now >= before then now - before else 0
  }

  function Percent(part: nat, whole: nat): (p: nat)
    requires whole > 0
    ensures p <= 100
  {
    var p := part * 100 / whole;
    if p > 100 then 100 else p
  }

  function Elapsed(b: Baseline, now: nat): (e: nat)
    ensures e > 0
  {
    if now > b.at then now - b.at else 1
  }

  /** The survey delta counts only if both counters and the stamp moved forward
      and the active time agrees with the stamp. */
  predicate NetMeasured(b: (nat, nat, nat), r: (nat, nat, nat)) {
    && r.0 > b.0 && r.1 >= b.1 && r.2 > b.2
    && (var da, dm := r.0 - b.0, r.2 - b.2;
        if da > dm then da - dm <= NET_CLOCK_SLACK_MS else dm - da <= NET_CLOCK_SLACK_MS)
  }

  /** Utilisation in percent, or nothing when it is unknown. */
  function Measured(res: Resource, b: Baseline, r: Reads): (m: Option<nat>)
    ensures m.Some? ==> m.value <= 100
  {
    if !b.primed then None
    else match res
      case Cpu =>
        if r.cpu.None? || b.cpu.None? then None
        else
          var total := Forward(r.cpu.value.1, b.cpu.value.1);
          Some(if total == 0 then 0 else Percent(Forward(r.cpu.value.0, b.cpu.value.0), total))
      case Memory =>
        if r.memory.None? || r.memory.value.1 == 0 then None
        else Some(Percent(r.memory.value.0, r.memory.value.1))
      case DiskIo =>
        if r.disk.None? || b.disk.None? then None
        else Some(Percent(Forward(r.disk.value, b.disk.value), Elapsed(b, r.now)))
      case Network =>
        if r.net.None? || b.net.None? || !NetMeasured(b.net.value, r.net.value) then None
        else Some(Percent(r.net.value.1 - b.net.value.1, r.net.value.0 - b.net.value.0))
  }

  /** `p` is `part` of `whole` in full percent, and 100 when it is all of it or more. */
  ghost predicate Rate(p: nat, part: nat, whole: nat) {
    if part >= whole then p == 100 else p * whole <= 100 * part < (p + 1) * whole
  }

  lemma PercentIsRate(part: nat, whole: nat)
    requires whole > 0
    ensures Rate(Percent(part, whole), part, whole)
  {
    var q := part * 100 / whole;
    assert q * whole <= part * 100 < q * whole + whole;
    assert (q + 1) * whole == q * whole + whole;
    Factor(q + 1, 100, whole);
    Factor(100, q, whole);
  }

  lemma Factor(a: nat, b: nat, w: nat)
    ensures a <= b ==> a * w <= b * w
  {
  }

  /** What each resource's utilisation means, in terms of its own readings, and
      when it is known. */
  lemma MeasuredRates(b: Baseline, r: Reads)
    requires b.primed
    ensures var m := Measured(Cpu, b, r);
            && (m.Some? <==> r.cpu.Some? && b.cpu.Some?)
            && (m.Some? && r.cpu.value.0 >= b.cpu.value.0 && r.cpu.value.1 > b.cpu.value.1 ==>
                  Rate(m.value, r.cpu.value.0 - b.cpu.value.0, r.cpu.value.1 - b.cpu.value.1))
    ensures var m := Measured(Memory, b, r);
            && (m.Some? <==> r.memory.Some? && r.memory.value.1 > 0)
            && (m.Some? ==> Rate(m.value, r.memory.value.0, r.memory.value.1))
    ensures var m := Measured(DiskIo, b, r);
            && (m.Some? <==> r.disk.Some? && b.disk.Some?)
            && (m.Some? && r.disk.value >= b.disk.value && r.now > b.at ==>
                  Rate(m.value, r.disk.value - b.disk.value, r.now - b.at))
    ensures var m := Measured(Network, b, r);
            && (m.Some? <==>
                  && r.net.Some? && b.net.Some?
                  && (var (active, busy, stamp), (active', busy', stamp') := b.net.value, r.net.value;
                      && active' > active && busy' >= busy && stamp' > stamp
                      && -500 <= (active' - active) - (stamp' - stamp) <= 500))
            && (m.Some? ==> Rate(m.value, r.net.value.1 - b.net.value.1, r.net.value.0 - b.net.value.0))
  {
    hide Percent, Rate;
    if r.cpu.Some? && b.cpu.Some? && r.cpu.value.0 >= b.cpu.value.0 && r.cpu.value.1 > b.cpu.value.1 {
      PercentIsRate(r.cpu.value.0 - b.cpu.value.0, r.cpu.value.1 - b.cpu.value.1);
    }
    if r.memory.Some? && r.memory.value.1 > 0 {
      PercentIsRate(r.memory.value.0, r.memory.value.1);
    }
    if r.disk.Some? && b.disk.Some? && r.disk.value >= b.disk.value && r.now > b.at {
      PercentIsRate(r.disk.value - b.disk.value, r.now - b.at);
    }
    if r.net.Some? && b.net.Some? && NetMeasured(b.net.value, r.net.value) {
      PercentIsRate(r.net.value.1 - b.net.value.1, r.net.value.0 - b.net.value.0);
    }
  }

  /** A reset counter counts as a measured 0 for CPU and disk, so it can clear a
      congestion; for the network it is unknown, so it cannot. */
  lemma ResetReadings(b: Baseline, r: Reads)
    requires b.primed
    ensures b.cpu.Some? && r.cpu.Some? && (r.cpu.value.0 < b.cpu.value.0 || r.cpu.value.1 < b.cpu.value.1) ==>
              Measured(Cpu, b, r) == Some(0)
    ensures b.disk.Some? && r.disk.Some? && r.disk.value < b.disk.value ==> Measured(DiskIo, b, r) == Some(0)
    ensures b.net.Some? && r.net.Some? && (r.net.value.0 < b.net.value.0 || r.net.value.1 < b.net.value.1) ==>
              Measured(Network, b, r) == None
  {
  }

  function Total(v: seq<nat>): nat {
    if v == [] then 0 else Total(v[..|v| - 1]) + v[|v| - 1]
  }

  /** The sum in opcd_fault_parse_meminfo: memory not in use saturates at the total,
      so the usage never goes below zero whatever the fields hold. */
  method MemoryUsed(total: nat, notInUse: seq<nat>) returns (used: nat)
    ensures used == if Total(notInUse) >= total then 0 else total - Total(notInUse)
  {
    var sum := 0;
    for i := 0 to |notInUse|
      invariant sum == if Total(notInUse[..i]) >= total then total else Total(notInUse[..i])
    {
      assert notInUse[..i + 1][..i] == notInUse[..i];
      sum := if notInUse[i] > total - sum then total else sum + notInUse[i];
    }
    assert notInUse[..|notInUse|] == notInUse;
    return total - sum;
  }

  // ---- The band ------------------------------------------------------------------

  /** An entry level opc.conf accepts. */
  type Level = n: nat | 1 <= n <= 100 witness 80

  datatype Levels = Levels(enter: Level, clear: nat)

  /** The release level, never above the entry level and never 0. */
  function Release(c: Levels): Level {
    if c.clear == 0 || c.clear > c.enter then c.enter else c.clear
  }

  /** A configured release level counts as it is; without one, or with one above the
      entry level, there is no band. */
  lemma ReleaseLevel(c: Levels)
    ensures 0 < c.clear <= c.enter ==> Release(c) == c.clear
    ensures c.clear == 0 || c.clear > c.enter ==> Release(c) == c.enter
  {
  }

  /** fault_over */
  predicate Over(c: Levels, inBand: bool, pct: nat) {
    pct >= if inBand then Release(c) else c.enter
  }

  datatype Band = Band(congested: bool, notified: bool)

  datatype Step = Measurement(pct: Option<nat>) | Rearm

  /** The band and the latch after one step: an unknown sample changes neither,
      a re-arm forgets only that the entry was reported. */
  function Next(c: Levels, b: Band, s: Step): Band {
    match s
    case Rearm => b.(notified := false)
    case Measurement(m) =>
      if m.None? then b else Band(Over(c, b.congested, m.value), Over(c, b.congested, m.value))
  }

  predicate Entered(c: Levels, b: Band, s: Step) {
    s.Measurement? && s.pct.Some? && Over(c, b.congested, s.pct.value) && !b.notified
  }

  predicate Cleared(c: Levels, b: Band, s: Step) {
    s.Measurement? && s.pct.Some? && !Over(c, b.congested, s.pct.value) && b.notified
  }

  function Run(c: Levels, ss: seq<Step>): Band {
    if ss == [] then Band(false, false) else Next(c, Run(c, ss[..|ss| - 1]), ss[|ss| - 1])
  }

  /** Sample `i` was measured and is below the release level. */
  predicate Low(c: Levels, ss: seq<Step>, i: nat)
    requires i < |ss|
  {
    ss[i].Measurement? && ss[i].pct.Some? && ss[i].pct.value < Release(c)
  }

  predicate High(c: Levels, ss: seq<Step>, i: nat)
    requires i < |ss|
  {
    ss[i].Measurement? && ss[i].pct.Some? && ss[i].pct.value >= c.enter
  }

  /** Position of the last sample that reached the entry level with no sample
      below the release level since, if there is one. */
  ghost predicate RaisedAt(c: Levels, ss: seq<Step>, i: nat) {
    i < |ss| && High(c, ss, i) && forall k :: i < k < |ss| ==> !Low(c, ss, k)
  }

  /** A resource is congested exactly when some measured sample reached the entry
      level and none since then was below the release level: unknown samples and
      re-arming do not matter. */
  lemma {:induction false} CongestedIff(c: Levels, ss: seq<Step>)
    ensures Run(c, ss).congested <==> exists i :: RaisedAt(c, ss, i)
    ensures Run(c, ss).notified ==> Run(c, ss).congested
  {
    if ss != [] {
      var n := |ss| - 1;
      var t := ss[..n];
      CongestedIff(c, t);
      forall i | 0 <= i < n ensures RaisedAt(c, ss, i) <==> RaisedAt(c, t, i) && !Low(c, ss, n) {
        RaisedStep(c, ss, i);
      }
      if Run(c, ss).congested {
        if High(c, ss, n) {
          assert RaisedAt(c, ss, n);
        } else {
          var i :| RaisedAt(c, t, i);
          assert RaisedAt(c, ss, i);
        }
      } else if i: nat :| RaisedAt(c, ss, i) {
        if i < n {
          assert RaisedAt(c, t, i);
        }
      }
    }
  }

  lemma RaisedStep(c: Levels, ss: seq<Step>, i: nat)
    requires ss != [] && i < |ss| - 1
    ensures RaisedAt(c, ss, i) <==> RaisedAt(c, ss[..|ss| - 1], i) && !Low(c, ss, |ss| - 1)
  {
    var t := ss[..|ss| - 1];
    assert forall k :: 0 <= k < |t| ==> t[k] == ss[k];
    assert High(c, ss, i) == High(c, t, i);
    assert forall k :: 0 <= k < |t| ==> (Low(c, ss, k) == Low(c, t, k));
  }

  predicate EntryAt(c: Levels, ss: seq<Step>, i: nat)
    requires i < |ss|
  {
    Entered(c, Run(c, ss[..i]), ss[i])
  }

  /** After an entry, and until a re-arm, the latch holds unless a sample came in
      below the release level. */
  lemma {:induction false} LatchHolds(c: Levels, ss: seq<Step>, i: nat)
    requires i < |ss| && EntryAt(c, ss, i)
    requires forall k :: i < k < |ss| ==> !ss[k].Rearm? && !Low(c, ss, k)
    ensures Run(c, ss).notified && Run(c, ss).congested
  {
    var n := |ss| - 1;
    if i < n {
      var t := ss[..n];
      assert t[..i] == ss[..i] && t[i] == ss[i];
      assert forall k :: 0 <= k < n ==> t[k] == ss[k] && Low(c, t, k) == Low(c, ss, k);
      LatchHolds(c, t, i);
      assert !ss[n].Rearm? && !Low(c, ss, n);
    } else {
      assert ss[..i] == ss[..n];
    }
  }

  /** Entry `j` was reported and is still what the latch remembers: no re-arm and no
      sample below the release level since. */
  ghost predicate Remembered(c: Levels, ss: seq<Step>, j: nat) {
    j < |ss| && EntryAt(c, ss, j) && forall k :: j < k < |ss| ==> !ss[k].Rearm? && !Low(c, ss, k)
  }

  lemma RememberedStep(c: Levels, ss: seq<Step>, j: nat)
    requires ss != [] && j < |ss| - 1
    ensures var n := |ss| - 1;
            Remembered(c, ss, j) <==> Remembered(c, ss[..n], j) && !ss[n].Rearm? && !Low(c, ss, n)
  {
    var t := ss[..|ss| - 1];
    assert t[..j] == ss[..j] && t[j] == ss[j];
    assert forall k :: 0 <= k < |t| ==> t[k] == ss[k] && Low(c, t, k) == Low(c, ss, k);
  }

  /** The latch is set exactly while a reported entry is remembered. */
  lemma {:induction false} NotifiedIff(c: Levels, ss: seq<Step>)
    ensures Run(c, ss).notified <==> exists j :: Remembered(c, ss, j)
  {
    if ss != [] {
      var n := |ss| - 1;
      var t := ss[..n];
      NotifiedIff(c, t);
      CongestedIff(c, t);
      forall j | 0 <= j < n
        ensures Remembered(c, ss, j) <==> Remembered(c, t, j) && !ss[n].Rearm? && !Low(c, ss, n)
      {
        RememberedStep(c, ss, j);
      }
      if Run(c, ss).notified {
        if Run(c, t).notified {
          var j :| Remembered(c, t, j);
          assert Remembered(c, ss, j);
        } else {
          assert Remembered(c, ss, n);
        }
      } else if j: nat :| Remembered(c, ss, j) {
        if j < n {
          assert Remembered(c, t, j);
        }
      }
    }
  }

  /** An entry is reported exactly by a measured sample that leaves the resource
      congested while no earlier entry is remembered: the first one, the first after
      a release, and the first after a re-arm. */
  lemma EntryIff(c: Levels, ss: seq<Step>, i: nat)
    requires i < |ss|
    ensures EntryAt(c, ss, i) <==>
              && ss[i].Measurement? && ss[i].pct.Some? && Run(c, ss[..i + 1]).congested
              && !exists j :: Remembered(c, ss[..i], j)
  {
    NotifiedIff(c, ss[..i]);
    assert ss[..i + 1][..i] == ss[..i];
  }

  /** Two entries are reported without a re-arm between them only if a measured
      sample fell below the release level in between; and an entry is never
      reported below the release level, nor, outside the band, below the entry
      level. */
  lemma EntriesSeparated(c: Levels, ss: seq<Step>, i: nat, j: nat)
    requires i < j < |ss| && EntryAt(c, ss, i) && EntryAt(c, ss, j)
    requires forall k :: i < k < j ==> !ss[k].Rearm?
    ensures exists k :: i < k < j && Low(c, ss, k)
    ensures ss[j].pct.value >= Release(c) && (!Run(c, ss[..j]).congested ==> ss[j].pct.value >= c.enter)
  {
    if forall k :: i < k < j ==> !Low(c, ss, k) {
      var t := ss[..j];
      assert t[..i] == ss[..i] && t[i] == ss[i];
      assert forall k :: 0 <= k < j ==> t[k] == ss[k] && Low(c, t, k) == Low(c, ss, k);
      LatchHolds(c, t, i);
    }
  }

  // ---- The sampling interval -----------------------------------------------------------

  function Interval(interval: nat): (i: nat)
    ensures i > 0
  {
    if interval == 0 then 1 else interval
  }

  /** opcd_fault_probe_due: the countdown and whether to sample now. */
  function Due(interval: nat, countdown: nat, elapsed: nat): (nat, bool) {
    var i := Interval(interval);
    var c := countdown + if elapsed > i then i else elapsed;
    if c < i then (c, false) else (0, true)
  }

  /** Countdown and number of samples after a sequence of ticks. */
  function Ticks(interval: nat, es: seq<nat>): (nat, nat) {
    if es == [] then (0, 0)
    else
      var (c, n) := Ticks(interval, es[..|es| - 1]);
      var (c', due) := Due(interval, c, es[|es| - 1]);
      (c', if due then n + 1 else n)
  }

  function Sum(es: seq<nat>): nat {
    if es == [] then 0 else Sum(es[..|es| - 1]) + es[|es| - 1]
  }

  /** At most one sample per interval of elapsed time and at most one per tick, so
      a stall is never made up for by a burst; with one-second ticks every
      interval gets its sample. */
  lemma {:induction false} SamplesPaced(interval: nat, es: seq<nat>)
    ensures var i, (c, n) := Interval(interval), Ticks(interval, es);
            && c < i && n <= |es| && c + n * i <= Sum(es)
            && ((forall k :: 0 <= k < |es| ==> es[k] <= 1) ==> c + n * i == Sum(es))
  {
    if es != [] {
      SamplesPaced(interval, es[..|es| - 1]);
      var (c, n) := Ticks(interval, es[..|es| - 1]);
      var i := Interval(interval);
      assert (n + 1) * i == n * i + i;
    }
  }

  // ---- The probe -----------------------------------------------------------------------

  datatype Report = Report(pct: nat, over: bool, entered: bool, cleared: bool)

  function Index(res: Resource): (i: nat)
    ensures i < 4
  {
    match res
    case Cpu => 0
    case Memory => 1
    case DiskIo => 2
    case Network => 3
  }

  function Reported(c: Levels, b: Band, m: Option<nat>): Report {
    var s := Measurement(m);
    Report(if m.Some? then m.value else 0, m.Some? && Over(c, b.congested, m.value),
           Entered(c, b, s), Cleared(c, b, s))
  }

  class Probe {
    var levels: Levels
    var interval: nat
    var countdown: nat
    var base: Baseline
    const bands: array<Band>

    ghost predicate Valid()
      reads this
    {
      bands.Length == 4 && countdown < Interval(interval)
    }

    constructor (c: Levels, every: nat)
      ensures Valid() && fresh(bands) && levels == c && interval == every && !base.primed
      ensures forall i :: 0 <= i < 4 ==> bands[i] == Band(false, false)
    {
      levels, interval, countdown := c, every, 0;
      base := Baseline(false, None, None, None, 0);
      bands := new Band[4](_ => Band(false, false));
    }

    /** opcd_fault_probe_due */
    method IsDue(elapsed: nat) returns (due: bool)
      requires Valid()
      modifies this`countdown
      ensures Valid() && (countdown, due) == Due(interval, old(countdown), elapsed)
    {
      var every := if interval == 0 then 1 else interval;
      countdown := countdown + if elapsed > every then every else elapsed;
      if countdown < every { return false; }
      countdown := 0;
      return true;
    }

    /** opcd_fault_probe_rearm */
    method RearmLatch(res: Resource)
      requires Valid()
      modifies bands
      ensures bands[..] == old(bands[..])[Index(res) := Next(levels, old(bands[Index(res)]), Rearm)]
    {
      bands[Index(res)] := bands[Index(res)].(notified := false);
    }

    /** opcd_fault_probe_sample: every resource steps by what was measured for
        it, and the readings become the next baseline. */
    method Sample(r: Reads) returns (reports: seq<Report>)
      requires Valid()
      modifies this`base, bands
      ensures |reports| == 4 && base == Refreshed(r)
      ensures forall res: Resource ::
                var m := Measured(res, old(base), r);
                && bands[Index(res)] == Next(levels, old(bands[Index(res)]), Measurement(m))
                && reports[Index(res)] == Reported(levels, old(bands[Index(res)]), m)
    {
      hide Measured, Next, Reported;
      var c := Apply(Cpu, Measured(Cpu, base, r));
      var m := Apply(Memory, Measured(Memory, base, r));
      var d := Apply(DiskIo, Measured(DiskIo, base, r));
      var n := Apply(Network, Measured(Network, base, r));
      base := Refreshed(r);
      reports := [c, m, d, n];
    }

    /** One resource of the sample. */
    method Apply(res: Resource, m: Option<nat>) returns (rep: Report)
      requires Valid()
      modifies bands
      ensures bands[..] == old(bands[..])[Index(res) := Next(levels, old(bands[Index(res)]), Measurement(m))]
      ensures rep == Reported(levels, old(bands[Index(res)]), m)
    {
      var i := Index(res);
      rep := Report(0, false, false, false);
      if m.Some? {
        var over := Over(levels, bands[i].congested, m.value);
        rep := Report(m.value, over, over && !bands[i].notified, !over && bands[i].notified);
        bands[i] := Band(over, over);
      }
    }
  }
}
