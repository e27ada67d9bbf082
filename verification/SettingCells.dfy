/** The models of SetPassword and SetIpConfigList run on the cells of the
    two-thread machine: a request is in flight while its cell is not open, and the
    outcome its model is told is the one the worker's write had. */
module SettingCells {
  import opened Common
  import opened Store
  import opened PersistenceCells
  import opened OpcText
  import P = Password
  import D = Persistence
  import S = IpSession
  import T = IpListText
  import C = IpConfig
  import A = StoreAsync

  // ---- The password ------------------------------------------------------------------

  function InFlight(c: Cell): Option<string> {
    match c.stage
    case Open => None
    case Writing(v) => Some(v)
    case Decided(v, _) => Some(v)
  }

  ghost predicate SeesPassword(c: Cell, p: P.State) {
    p.password == c.published && p.pending == InFlight(c) && InCharset(c.published)
    && (InFlight(c).Some? ==> InCharset(InFlight(c).value))
  }

  /** The steps of the password's model that one step of its cell is. */
  function PasswordSteps(c: Cell, c': Cell): seq<P.Event> {
    if c.stage.Open? && c'.stage.Writing? then
      [P.Sent(P.Request(c.published, true, c'.stage.cand, true), P.Deferred)]
    else if c.stage.Decided? && c'.stage.Open? then [P.Completed(c.stage.outcome)]
    else []
  }

  lemma PasswordStep(c: Cell, c': Cell, p: P.State)
    requires CellNext(c, c') && SeesPassword(c, p)
    requires c'.stage.Writing? ==> c'.stage.cand != "" && InCharset(c'.stage.cand)
    ensures SeesPassword(c', P.Run(p, PasswordSteps(c, c')))
  {
    hide InCharset;
    var es := PasswordSteps(c, c');
    if es != [] {
      assert es[..0] == [];
      assert P.Run(p, es) == P.Next(P.Run(p, []), es[0]);
    }
  }

  ghost function CellAt(s: D.Daemon, es: seq<D.Event>): Cell
    requires D.Init(s)
  {
    CellOf(D.Password, D.Run(s, es))
  }

  /** Every password the run writes is one the request checks let through. */
  ghost predicate Checked(s: D.Daemon, es: seq<D.Event>)
    requires D.Init(s)
  {
    && InCharset(s.mem.password)
    && forall k :: 0 <= k <= |es| && CellAt(s, es[..k]).stage.Writing? ==>
         CellAt(s, es[..k]).stage.cand != "" && InCharset(CellAt(s, es[..k]).stage.cand)
  }

  ghost function PasswordTrace(s: D.Daemon, es: seq<D.Event>): seq<P.Event>
    requires D.Init(s)
  {
    if es == [] then []
    else PasswordTrace(s, es[..|es| - 1]) + PasswordSteps(CellAt(s, es[..|es| - 1]), CellAt(s, es))
  }

  lemma RunAppend(p: P.State, a: seq<P.Event>, b: seq<P.Event>)
    requires |b| <= 1
    ensures P.Run(p, a + b) == P.Run(P.Run(p, a), b)
  {
    hide P.Next;
    if b == [] {
      assert a + b == a;
    } else {
      assert (a + b)[..|a|] == a && b[..0] == [];
      assert P.Run(P.Run(p, a), b) == P.Next(P.Run(P.Run(p, a), []), b[0]);
    }
  }

  /** Every run of the two threads is, for the password, a run of its model: what
      is published, and what is in flight, are the model's. */
  lemma {:induction false} PasswordRuns(s: D.Daemon, es: seq<D.Event>)
    requires D.Init(s) && Checked(s, es)
    ensures SeesPassword(CellAt(s, es), P.Run(P.State(s.mem.password, false, "", None), PasswordTrace(s, es)))
  {
    hide P.Run, PasswordSteps, SeesPassword, InCharset, CellNext, CellOf, D.Init, D.Run, Checked;
    var p := P.State(s.mem.password, false, "", None);
    if es == [] {
      assert InCharset(s.mem.password) by { CheckedStart(s, es); }
      StartsOpen(s);
    } else {
      var before := es[..|es| - 1];
      CheckedBefore(s, es);
      PasswordRuns(s, before);
      RunsRefineCells(s, es, D.Password);
      var steps := PasswordSteps(CellAt(s, before), CellAt(s, es));
      AtMostOne(CellAt(s, before), CellAt(s, es));
      RunAppend(p, PasswordTrace(s, before), steps);
      PasswordStep(CellAt(s, before), CellAt(s, es), P.Run(p, PasswordTrace(s, before)));
    }
  }

  lemma CheckedStart(s: D.Daemon, es: seq<D.Event>)
    requires D.Init(s) && Checked(s, es)
    ensures InCharset(s.mem.password)
  {
  }

  lemma CheckedBefore(s: D.Daemon, es: seq<D.Event>)
    requires D.Init(s) && Checked(s, es) && es != []
    ensures Checked(s, es[..|es| - 1])
    ensures CellAt(s, es).stage.Writing? ==>
              CellAt(s, es).stage.cand != "" && InCharset(CellAt(s, es).stage.cand)
  {
    hide CellAt, InCharset, D.Init;
    var before := es[..|es| - 1];
    assert es[..|es|] == es;
    forall k | 0 <= k <= |before| && CellAt(s, before[..k]).stage.Writing?
      ensures CellAt(s, before[..k]).stage.cand != "" && InCharset(CellAt(s, before[..k]).stage.cand)
    {
      assert es[..k] == before[..k];
    }
  }

  lemma AtMostOne(c: Cell, c': Cell)
    ensures |PasswordSteps(c, c')| <= 1
  {
  }

  lemma StartsOpen(s: D.Daemon)
    requires D.Init(s) && InCharset(s.mem.password)
    ensures SeesPassword(CellAt(s, []), P.Run(P.State(s.mem.password, false, "", None), []))
  {
    hide InCharset;
  }

  // ---- The IP list ---------------------------------------------------------------------

  /** The cell holds the texts of the published list and of the one in flight. */
  ghost predicate SeesList(c: Cell, s: S.State) {
    && c.published == T.Format(s.list)
    && InFlight(c) == if s.flight.None? then None else Some(T.Format(s.flight.value.candidate))
  }

  /** The cell after one step of the session model: a request that completes a
      cycle accepts its text, the completion publishes or drops it. */
  ghost function ListStep(c: Cell, s: S.State, e: S.Event): Cell {
    var t := S.Next(s, e);
    if s.flight.None? && t.flight.Some? then c.(stage := Writing(T.Format(t.flight.value.candidate)))
    else if e.Completed? && c.stage.Decided? then
      c.(stage := Open, published := if Visible(c.stage.outcome) then c.stage.cand else c.published)
    else c
  }

  /** With the writer thread, and told the outcome the write had, every step of the
      session model is a step of the list's cell: requests and sessions change what
      is published only through it. */
  lemma ListSteps(c: Cell, s: S.State, e: S.Event)
    requires SeesList(c, s) && !(e.SetList? && e.how.Direct?)
    requires e.Completed? && s.flight.Some? ==> c.stage.Decided? && c.stage.outcome == e.outcome
    ensures CellNext(c, ListStep(c, s, e)) && SeesList(ListStep(c, s, e), S.Next(s, e))
  {
    hide T.Format, S.Requested, S.LoggedOut;
    if e.SetList? {
      RequestedList(s, e.entries, e.how);
    } else if e.Logout? {
      LoggedOutList(s, e.ip);
    }
  }

  lemma RequestedList(s: S.State, es: seq<C.Entry>, how: S.Handling)
    requires !how.Direct?
    ensures S.Requested(s, es, how).list == s.list
    ensures S.Requested(s, es, how).flight.None? ==> s.flight.None?
  {
  }

  lemma LoggedOutList(s: S.State, ip: nat)
    ensures S.LoggedOut(s, ip).list == s.list && S.LoggedOut(s, ip).flight == s.flight
  {
  }

  /** The text of a list always fits the reservation made for it, and a job of the
      writer: neither is ever refused for its size. */
  lemma ListFitsJob(l: C.List, w: A.Writer, path: string)
    requires C.Sound(l) && |w.jobs| == A.DEPTH
    ensures |T.Format(l)| <= T.TEXT_MAX
    ensures !A.Reserve(w, path, T.TEXT_MAX).1.TooBig? && !A.Reserve(w, path, |T.Format(l)|).1.TooBig?
  {
    hide T.Format, C.Sound;
    T.FormatFits(l);
  }
}
