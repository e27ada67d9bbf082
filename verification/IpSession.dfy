/** Sessions, IP-list requests and the deferred address change (opcd/handler.c).
    ChangeIp stages a slot number, the Logout of that session decides it against
    the committed list, and the main loop applies the decided entry. An IP-list
    write may be outstanding across any of this, and sessions may come and go. */
module IpSession {
  import opened Common
  import opened Store
  import opened IpConfig

  /** An outstanding IP-list write, with the staging to publish if its session is
      still there. */
  datatype Flight = Flight(candidate: List, staging: List, active: bool, gen: nat, edits: Edits)

  /** `gen` counts session boundaries. The last four fields are the history: the
      updates that make up the list and the open cycle, the session and the
      address that staged the pending change, and the sessions ended by an explicit
      Logout with the address it came from. */
  datatype State = State(
    loggedIn: bool, holder: nat, gen: nat,
    list: List, staging: List, active: bool, flight: Option<Flight>,
    pending: bool, listNo: nat, deferred: bool,
    armed: bool, armedNo: nat, armedEntry: Option<Entry>,
    edits: Edits, stageGen: nat, stageBy: nat, logouts: map<nat, nat>)

  datatype Handling = NotAdmitted | Deferred | Direct(outcome: Outcome)

  datatype Event =
    | Login(ip: nat, accepted: bool)
    | Logout(ip: nat)
    | IdleLogout
    | SetList(ip: nat, entries: seq<Entry>, how: Handling)
    | ChangeIp(ip: nat, number: nat, clash: bool)
    | Completed(outcome: Outcome)
    | Apply(ok: bool)

  predicate Owns(s: State, ip: nat) {
    s.loggedIn && s.holder == ip
  }

  /** opcd_session_logout */
  function EndSession(s: State): State {
    s.(gen := s.gen + 1, loggedIn := false, active := false, staging := Empty(),
       edits := s.edits.(open := None))
  }

  /** arm_ip_change_from_committed */
  function Decide(s: State): State {
    if !(1 <= s.listNo <= SLOTS) then s
    else if s.list[s.listNo - 1].None? then s.(pending := false, listNo := 0)
    else s.(armed := true, armedNo := s.listNo, armedEntry := s.list[s.listNo - 1])
  }

  function LoggedIn(s: State, ip: nat): State {
    var t := s.(loggedIn := true, holder := ip, gen := if s.loggedIn then s.gen else s.gen + 1);
    if !s.loggedIn && !s.armed && !s.deferred then t.(pending := false, listNo := 0) else t
  }

  function LoggedOut(s: State, ip: nat): State {
    var t := if !s.pending || s.armed then s
             else if s.flight.Some? then s.(deferred := true)
             else Decide(s);
    EndSession(t.(logouts := s.logouts[s.gen := ip]))
  }

  /** A request that completes no cycle only moves the staging; one that does
      publishes list and staging when its write is visible. */
  function Adopted(s: State, w: Work, d: Edits, how: Handling): State
    requires how != NotAdmitted
  {
    if !w.committed then s.(staging := w.staging, active := w.active, edits := d)
    else if how.Deferred? then s.(flight := Some(Flight(w.candidate, w.staging, w.active, s.gen, d)))
    else if Visible(how.outcome) then
      s.(list := w.candidate, staging := w.staging, active := w.active, edits := d)
    else s
  }

  function Requested(s: State, es: seq<Entry>, how: Handling): State {
    if how == NotAdmitted then s
    else Adopted(s, IterateAll(Work(s.list, s.staging, s.active, false, Fine), es),
                 EditAll(s.edits, es).(err := Fine), how)
  }

  /** The IP-list branch of opcd_store_async_on_ready. */
  function Reconciled(s: State, o: Outcome): State
    requires s.flight.Some?
  {
    var f := s.flight.value;
    var t := if !Visible(o) then s
             else if s.loggedIn && s.gen == f.gen then
               s.(list := f.candidate, staging := f.staging, active := f.active, edits := f.edits)
             else s.(list := f.candidate, edits := s.edits.(done := f.edits.done));
    var u := t.(flight := None, deferred := false);
    if s.deferred && s.pending && !s.armed then Decide(u) else u
  }

  /** handle_change_ip_address takes the request. */
  predicate Accepts(s: State, e: Event) {
    && e.ChangeIp? && Owns(s, e.ip) && !s.armed && !s.deferred && !s.active
    && 1 <= e.number <= SLOTS && s.list[e.number - 1].Some? && !e.clash
  }

  function Next(s: State, e: Event): State {
    match e
    case Login(ip, accepted) =>
      if (s.loggedIn && s.holder != ip) || !accepted then s else LoggedIn(s, ip)
    case Logout(ip) => if Owns(s, ip) then LoggedOut(s, ip) else s
    case IdleLogout => if s.loggedIn then EndSession(s) else s
    case SetList(ip, es, how) => if Owns(s, ip) && s.flight.None? then Requested(s, es, how) else s
    case ChangeIp(ip, n, _) =>
      if Accepts(s, e) then s.(pending := true, listNo := n, stageGen := s.gen, stageBy := ip) else s
    case Completed(o) => if s.flight.Some? then Reconciled(s, o) else s
    case Apply(ok) =>
      if !s.armed then s
      else
        var t := s.(pending := false, armed := false, listNo := 0, armedNo := 0, armedEntry := None);
        if ok && s.loggedIn then EndSession(t) else t
  }

  function Run(s: State, es: seq<Event>): State {
    if es == [] then s else Next(Run(s, es[..|es| - 1]), es[|es| - 1])
  }

  /** A freshly started daemon. */
  ghost predicate Init(s: State) {
    && !s.loggedIn && !s.active && s.flight.None? && !s.pending && !s.deferred && !s.armed
    && s.edits == Edits([], None, Fine) && s.logouts == map[] && Sound(s.list) && s.staging == Empty()
  }

  // ---- The lists ------------------------------------------------------------------

  /** List and staging are what the completed and the open cycles mean, and so
      are the list and staging an outstanding write would publish. */
  ghost predicate Meant(start: List, s: State) {
    && Denotes(start, Work(s.list, s.staging, s.active, false, Fine), s.edits)
    && (!s.loggedIn ==> !s.active)
    && (s.flight.Some? ==>
          var f := s.flight.value;
          && Denotes(start, Work(f.candidate, f.staging, f.active, false, Fine), f.edits)
          && (s.active ==> s.gen == f.gen))
  }

  lemma RequestedMeant(start: List, s: State, es: seq<Entry>, how: Handling)
    requires Meant(start, s) && s.flight.None? && s.loggedIn
    ensures Meant(start, Requested(s, es, how))
  {
    hide UpdateAll, Lawful, IterateAll, EditAll;
    var w0 := Work(s.list, s.staging, s.active, false, Fine);
    RequestDenotes(start, w0, s.edits, es);
    if !IterateAll(w0, es).committed {
      Uncommitted(w0, es);
    }
  }

  lemma {:induction false} Uncommitted(w: Work, es: seq<Entry>)
    requires !IterateAll(w, es).committed
    ensures IterateAll(w, es).candidate == w.candidate
  {
    if es != [] { Uncommitted(w, es[..|es| - 1]); }
  }

  /** Nothing the lists depend on differs. */
  ghost predicate SameLists(s: State, t: State) {
    && t.list == s.list && t.staging == s.staging && t.active == s.active && t.flight == s.flight
    && t.edits == s.edits && t.loggedIn == s.loggedIn && t.gen == s.gen
  }

  lemma EndSessionMeant(start: List, s: State)
    requires Meant(start, s)
    ensures Meant(start, EndSession(s))
  {
    hide UpdateAll, Lawful;
  }

  lemma LoggedOutMeant(start: List, s: State, ip: nat)
    requires Meant(start, s)
    ensures Meant(start, LoggedOut(s, ip))
  {
    hide UpdateAll, Lawful, EndSession;
    var t := if !s.pending || s.armed then s
             else if s.flight.Some? then s.(deferred := true)
             else Decide(s);
    assert SameLists(s, t);
    EndSessionMeant(start, t.(logouts := s.logouts[s.gen := ip]));
  }

  lemma ReconciledMeant(start: List, s: State, o: Outcome)
    requires Meant(start, s) && s.flight.Some?
    ensures Meant(start, Reconciled(s, o))
  {
    hide UpdateAll, Lawful;
  }

  lemma NextMeant(start: List, s: State, e: Event)
    requires Meant(start, s)
    ensures Meant(start, Next(s, e))
  {
    hide UpdateAll, Lawful, Requested, Reconciled, LoggedOut, EndSession;
    match e
    case Logout(ip) => LoggedOutMeant(start, s, ip);
    case IdleLogout => EndSessionMeant(start, s);
    case SetList(ip, es, how) =>
      if Owns(s, ip) && s.flight.None? { RequestedMeant(start, s, es, how); }
    case Completed(o) => if s.flight.Some? { ReconciledMeant(start, s, o); }
    case Apply(_) =>
      EndSessionMeant(start, s.(pending := false, armed := false, listNo := 0, armedNo := 0, armedEntry := None));
    case _ =>
  }

  /** After any run the committed list is the initial one with the updates of
      every visibly written cycle merged in, in order, and nothing else; staging is
      that list with the open cycle on top, or empty; and every entry in either
      passed the value checks. */
  lemma {:induction false} ListIsItsEdits(s: State, es: seq<Event>)
    requires Init(s)
    ensures Meant(s.list, Run(s, es))
    ensures Sound(Run(s, es).list) && Sound(Run(s, es).staging)
  {
    hide Next, UpdateAll, EntryError;
    if es == [] {
      InitMeant(s);
    } else {
      ListIsItsEdits(s, es[..|es| - 1]);
      NextMeant(s.list, Run(s, es[..|es| - 1]), es[|es| - 1]);
    }
    var t := Run(s, es);
    UpdatesSound(s.list, t.edits.done);
    if t.edits.open.Some? { UpdatesSound(t.list, t.edits.open.value); }
  }

  lemma InitMeant(s: State)
    requires Init(s)
    ensures Meant(s.list, s)
  {
  }

  // ---- The address change ------------------------------------------------------------

  /** A staged change belongs to one session, held by the address that staged it,
      and it is decided or waiting for a decision exactly when that address has
      logged the session out explicitly. */
  ghost predicate Staged(s: State) {
    && (forall g :: g in s.logouts ==> g < s.gen)
    && (s.armed || s.deferred ==> s.pending)
    && (s.deferred ==> s.flight.Some? && !s.armed)
    && (s.pending ==> 1 <= s.listNo <= SLOTS && s.stageGen <= s.gen)
    && (s.pending ==> (s.armed || s.deferred <==> s.stageGen in s.logouts))
    && (s.pending && s.loggedIn && !s.armed && !s.deferred ==> s.stageGen == s.gen && s.stageBy == s.holder)
    && (s.armed || s.deferred ==> s.stageGen in s.logouts && s.logouts[s.stageGen] == s.stageBy)
    && (s.armed ==> s.armedNo == s.listNo && s.armedEntry.Some?)
  }

  lemma RequestedStaged(s: State, es: seq<Entry>, how: Handling)
    requires Staged(s) && s.flight.None?
    ensures Staged(Requested(s, es, how))
  {
    hide IterateAll, EditAll;
  }

  lemma LoggedOutStaged(s: State)
    requires Staged(s) && s.loggedIn
    ensures Staged(LoggedOut(s, s.holder))
  {
  }

  lemma NextStaged(s: State, e: Event)
    requires Staged(s)
    ensures Staged(Next(s, e))
  {
    hide Requested, LoggedOut;
    if e.SetList? && s.flight.None? {
      RequestedStaged(s, e.entries, e.how);
    } else if e.Logout? && s.loggedIn {
      LoggedOutStaged(s);
    }
  }

  lemma {:induction false} RunStaged(s: State, es: seq<Event>)
    requires Init(s)
    ensures Staged(Run(s, es))
  {
    if es != [] {
      RunStaged(s, es[..|es| - 1]);
      NextStaged(Run(s, es[..|es| - 1]), es[|es| - 1]);
    }
  }

  /** The step that decides: the explicit Logout of the staging session, or the
      completion that such a Logout waited for. In both cases no IP-list write is
      undecided, and the snapshot is the staged slot of the committed list. */
  ghost predicate Decision(s: State, e: Event) {
    var t := Next(s, e);
    && !s.armed && t.armed && t.flight.None?
    && t.armedNo == s.listNo && 1 <= s.listNo <= SLOTS
    && t.armedEntry == t.list[s.listNo - 1] && t.armedEntry.Some?
    && ((e.Logout? && Owns(s, e.ip) && s.stageGen == s.gen && s.stageBy == e.ip)
        || (e.Completed? && s.deferred && s.stageGen in s.logouts && s.logouts[s.stageGen] == s.stageBy))
  }

  lemma DecisionStep(s: State, e: Event)
    requires Staged(s)
    ensures !s.armed && Next(s, e).armed ==> Decision(s, e)
    ensures s.armed && Next(s, e).armed ==>
              Next(s, e).armedEntry == s.armedEntry && Next(s, e).armedNo == s.armedNo
    ensures s.armed && !Next(s, e).armed ==> e.Apply?
  {
    hide Requested;
    if e.SetList? {
      RequestedFrame(s, e.entries, e.how);
    }
  }

  lemma RequestedFrame(s: State, es: seq<Entry>, how: Handling)
    ensures var t := Requested(s, es, how);
            t == s.(list := t.list, staging := t.staging, active := t.active, flight := t.flight, edits := t.edits)
  {
    hide IterateAll, EditAll;
  }

  /** Whenever the main loop applies a change, the address that staged it has
      logged its session out explicitly, and the applied entry is the snapshot taken by one
      decision earlier in the run, unchanged since. */
  lemma {:induction false} AppliedWasDecided(s: State, es: seq<Event>)
    requires Init(s) && Run(s, es).armed
    ensures var t := Run(s, es); t.stageGen in t.logouts && t.logouts[t.stageGen] == t.stageBy
    ensures exists i :: 0 <= i < |es| && Decision(Run(s, es[..i]), es[i]) &&
              Next(Run(s, es[..i]), es[i]).armedEntry == Run(s, es).armedEntry &&
              Next(Run(s, es[..i]), es[i]).armedNo == Run(s, es).armedNo
  {
    RunStaged(s, es);
    hide Next, Decision;
    var n := |es| - 1;
    RunStaged(s, es[..n]);
    DecisionStep(Run(s, es[..n]), es[n]);
    if Run(s, es[..n]).armed {
      AppliedWasDecided(s, es[..n]);
      var i :| 0 <= i < n && Decision(Run(s, es[..n][..i]), es[..n][i]) &&
        Next(Run(s, es[..n][..i]), es[..n][i]).armedEntry == Run(s, es[..n]).armedEntry &&
        Next(Run(s, es[..n][..i]), es[..n][i]).armedNo == Run(s, es[..n]).armedNo;
      assert es[..n][..i] == es[..i] && es[..n][i] == es[i];
    }
  }

  /** A session that ends by idling never moves the address: its change is not
      armed, and the next session drops it. */
  lemma IdleNeverCommits(s: State, es: seq<Event>)
    requires Init(s)
    requires var t := Run(s, es); t.pending && t.loggedIn && t.stageGen == t.gen
    ensures var t := Run(s, es);
            var idle := Next(t, IdleLogout);
            && !idle.armed && !idle.deferred
            && (forall ip :: !Next(idle, Login(ip, true)).pending)
  {
    RunStaged(s, es);
  }

  /** Slot `n` of the committed list is armed if it is there, and otherwise the
      change is over. */
  ghost predicate Settled(t: State, n: nat)
    requires 1 <= n <= SLOTS
  {
    && t.flight.None? && !t.deferred && (t.armed <==> t.list[n - 1].Some?)
    && (t.armed ==> t.armedEntry == t.list[n - 1]) && (!t.armed ==> !t.pending)
  }

  lemma LogoutSettles(t: State)
    requires Staged(t) && t.pending && !t.armed && t.stageGen == t.gen && t.loggedIn && t.flight.None?
    ensures 1 <= t.listNo <= SLOTS && Settled(LoggedOut(t, t.holder), t.listNo)
  {
  }

  lemma LogoutDefers(t: State)
    requires Staged(t) && t.pending && !t.armed && t.stageGen == t.gen && t.loggedIn && t.flight.Some?
    ensures 1 <= t.listNo <= SLOTS
    ensures var u := LoggedOut(t, t.holder);
            u.deferred && u.pending && !u.armed && u.flight == t.flight && u.listNo == t.listNo
  {
  }

  lemma CompletionSettles(t: State, o: Outcome)
    requires t.flight.Some? && t.deferred && t.pending && !t.armed && 1 <= t.listNo <= SLOTS
    ensures Settled(Reconciled(t, o), t.listNo)
  {
  }

  /** The explicit Logout is honoured: it arms the staged slot if the committed
      list has it and cancels the change if not, at once or, behind an outstanding
      write, when that write's outcome is in. */
  lemma LogoutIsHonoured(s: State, es: seq<Event>, o: Outcome)
    requires Init(s)
    requires var t := Run(s, es); t.pending && !t.armed && t.stageGen == t.gen && t.loggedIn
    ensures var t := Run(s, es);
            var out := Next(t, Logout(t.holder));
            && 1 <= t.listNo <= SLOTS
            && (t.flight.None? ==> Settled(out, t.listNo))
            && (t.flight.Some? ==> out.deferred && out.pending && Settled(Next(out, Completed(o)), t.listNo))
  {
    RunStaged(s, es);
    hide Run, Staged, LoggedOut, Reconciled, Settled, Requested;
    var t := Run(s, es);
    if t.flight.None? {
      LogoutSettles(t);
    } else {
      LogoutDefers(t);
      CompletionSettles(LoggedOut(t, t.holder), o);
    }
  }

  /** The slot chosen by the last ChangeIp accepted during `es`, if any. */
  function Chosen(s: State, es: seq<Event>, n: nat): nat {
    if es == [] then n
    else
      var before, e := es[..|es| - 1], es[|es| - 1];
      if Accepts(Run(s, before), e) then e.number else Chosen(s, before, n)
  }

  lemma NextGen(s: State, e: Event)
    ensures s.gen <= Next(s, e).gen
  {
    hide Requested;
    if e.SetList? {
      RequestedFrame(s, e.entries, e.how);
    }
  }

  lemma {:induction false} RunGen(s: State, es: seq<Event>)
    ensures s.gen <= Run(s, es).gen
  {
    hide Next;
    if es != [] {
      RunGen(s, es[..|es| - 1]);
      NextGen(Run(s, es[..|es| - 1]), es[|es| - 1]);
    }
  }

  /** As long as its session lasts, whatever happens meanwhile, a staged change
      stays staged and undecided, and the session stays with the address that staged
      it; only a later ChangeIp of that session replaces the slot. */
  lemma {:induction false} StagedUntilLogout(s: State, es: seq<Event>, more: seq<Event>)
    requires Init(s)
    requires var t := Run(s, es); t.loggedIn && t.pending && t.stageGen == t.gen
    requires Run(Run(s, es), more).gen == Run(s, es).gen
    ensures var t := Run(s, es);
            var u := Run(t, more);
            && u.loggedIn && u.pending && !u.armed && u.stageGen == u.gen
            && u.holder == t.holder == u.stageBy
            && u.listNo == Chosen(t, more, t.listNo)
    ensures Staged(Run(Run(s, es), more))
    decreases |more|
  {
    hide Next, Init, Staged, Accepts;
    RunStaged(s, es);
    var t := Run(s, es);
    if more == [] {
      NotArmed(t);
    } else {
      var n := |more| - 1;
      RunGen(t, more[..n]);
      NextGen(Run(t, more[..n]), more[n]);
      StagedUntilLogout(s, es, more[..n]);
      NextStaged(Run(t, more[..n]), more[n]);
      KeptWhileOpen(Run(t, more[..n]), more[n]);
    }
  }

  lemma NotArmed(t: State)
    requires Staged(t) && t.pending && t.stageGen == t.gen && t.loggedIn
    ensures !t.armed && t.stageBy == t.holder
  {
  }

  lemma KeptWhileOpen(t: State, e: Event)
    requires Staged(t) && t.loggedIn && t.pending && t.stageGen == t.gen && Next(t, e).gen == t.gen
    ensures var u := Next(t, e);
            && u.loggedIn && u.pending && !u.armed && u.stageGen == u.gen
            && u.holder == t.holder == u.stageBy
            && u.listNo == if Accepts(t, e) then e.number else t.listNo
  {
    hide Requested;
    if e.SetList? {
      RequestedFrame(t, e.entries, e.how);
    }
  }

  /** A request of the session's holder takes effect. Without a completed cycle it
      moves the open cycle at once; otherwise list and open cycle move together with
      a visible write, at once or when its completion comes, and not at all with one
      that left the file as it was. */
  lemma RequestTakesEffect(s: State, es: seq<Entry>, how: Handling, o: Outcome)
    requires s.loggedIn && s.flight.None? && how != NotAdmitted
    requires s.edits.err == Fine && (s.active <==> s.edits.open.Some?)
    ensures var d := EditAll(s.edits, es).(err := Fine);
            var t := Next(s, SetList(s.holder, es, how));
            if |d.done| == |s.edits.done| then t.edits == d && t.list == s.list && t.flight.None?
            else match how
              case Direct(p) => t.edits == (if Visible(p) then d else s.edits) && t.flight.None?
              case Deferred =>
                && t.edits == s.edits && t.list == s.list && t.flight.Some?
                && (var u := Next(t, Completed(o));
                    u.edits == (if Visible(o) then d else s.edits) && u.flight.None?)
  {
    hide IterateAll, EditAll;
    CommittedIff(Work(s.list, s.staging, s.active, false, Fine), s.edits, es);
  }

  // ---- One client at a time -------------------------------------------------------

  lemma HolderStep(t: State, e: Event)
    requires t.loggedIn && Next(t, e).gen == t.gen
    ensures Next(t, e).loggedIn && Next(t, e).holder == t.holder
  {
    hide Requested, Reconciled, LoggedOut;
    if e.SetList? {
      RequestedFrame(t, e.entries, e.how);
    } else if e.Logout? {
      LogoutEnds(t, e.ip);
    } else if e.Completed? && t.flight.Some? {
      ReconciledSession(t, e.outcome);
    }
  }

  lemma LogoutEnds(t: State, ip: nat)
    ensures LoggedOut(t, ip).gen == t.gen + 1
  {
  }

  lemma ReconciledSession(t: State, o: Outcome)
    requires t.flight.Some?
    ensures var u := Reconciled(t, o); u.loggedIn == t.loggedIn && u.holder == t.holder && u.gen == t.gen
  {
  }

  /** As long as a session lasts it belongs to the address that logged in. */
  lemma {:induction false} HolderKept(t: State, es: seq<Event>)
    requires t.loggedIn && Run(t, es).gen == t.gen
    ensures Run(t, es).loggedIn && Run(t, es).holder == t.holder
  {
    hide Next;
    if es != [] {
      var n := |es| - 1;
      RunGen(t, es[..n]);
      NextGen(Run(t, es[..n]), es[n]);
      HolderKept(t, es[..n]);
      HolderStep(Run(t, es[..n]), es[n]);
    }
  }

  /** Anyone may log in while nobody is, and the holder may again; a fresh login
      starts a session of its own. */
  lemma LoginTakesEffect(s: State, ip: nat)
    requires !s.loggedIn || s.holder == ip
    ensures var t := Next(s, Login(ip, true));
            && t.loggedIn && t.holder == ip
            && t.gen == (if s.loggedIn then s.gen else s.gen + 1)
            && t.list == s.list && t.staging == s.staging && t.active == s.active && t.flight == s.flight
  {
  }

  /** A request sent by another address than `ip`. */
  predicate Foreign(e: Event, ip: nat) {
    match e
    case Login(from, _) => from != ip
    case Logout(from) => from != ip
    case SetList(from, _, _) => from != ip
    case ChangeIp(from, _, _) => from != ip
    case _ => false
  }

  /** The events without the requests of other addresses. */
  function Without(es: seq<Event>, ip: nat): seq<Event> {
    if es == [] then []
    else
      var rest := Without(es[..|es| - 1], ip);
      if Foreign(es[|es| - 1], ip) then rest else rest + [es[|es| - 1]]
  }

  /** Nothing another address sends during a session has any effect: the same events
      without its requests lead to the same state. */
  lemma {:induction false} OthersChangeNothing(t: State, es: seq<Event>)
    requires t.loggedIn && Run(t, es).gen == t.gen
    ensures Run(t, Without(es, t.holder)) == Run(t, es)
  {
    hide Next;
    if es != [] {
      var n, rest := |es| - 1, Without(es[..|es| - 1], t.holder);
      RunGen(t, es[..n]);
      NextGen(Run(t, es[..n]), es[n]);
      OthersChangeNothing(t, es[..n]);
      HolderKept(t, es[..n]);
      if Foreign(es[n], t.holder) {
        ForeignStep(Run(t, es[..n]), es[n]);
      } else {
        assert (rest + [es[n]])[..|rest|] == rest;
      }
    }
  }

  lemma ForeignStep(s: State, e: Event)
    requires s.loggedIn && Foreign(e, s.holder)
    ensures Next(s, e) == s
  {
  }

  /** Applying a change: success ends the session of whoever is still logged in at
      the old address, failure keeps it as it was; either way the reservation is
      over. */
  lemma ApplyOutcome(s: State, ok: bool)
    requires s.armed
    ensures var t := Next(s, Apply(ok));
            && !t.armed && !t.pending && t.armedEntry.None? && t.list == s.list && t.flight == s.flight
            && (ok ==> !t.loggedIn && (s.loggedIn ==> t.gen > s.gen && !t.active && t.staging == Empty()))
            && (!ok ==> t.loggedIn == s.loggedIn && t.holder == s.holder && t.gen == s.gen
                        && t.staging == s.staging && t.active == s.active)
  {
  }

  // ---- The handlers ----------------------------------------------------------------

  /** What the handler keeps of an outstanding write. */
  datatype Sent = Sent(candidate: List, staging: List, active: bool, gen: nat)

  ghost function InFlight(sent: Option<Sent>, edits: Edits): Option<Flight> {
    if sent.None? then None
    else
      var f := sent.value;
      Some(Flight(f.candidate, f.staging, f.active, f.gen, edits))
  }

  class Handler {
    var loggedIn: bool
    var holder: nat
    var gen: nat
    var list: List
    var staging: List
    var active: bool
    var flight: Option<Sent>
    var pending: bool
    var listNo: nat
    var deferred: bool
    var armed: bool
    var armedNo: nat
    var armedEntry: Option<Entry>
    /** History; the code keeps none of these. */
    ghost var edits: Edits
    ghost var flightEdits: Edits
    ghost var stageGen: nat
    ghost var stageBy: nat
    ghost var logouts: map<nat, nat>

    ghost function Abs(): State
      reads this
    {
      State(loggedIn, holder, gen, list, staging, active, InFlight(flight, flightEdits), pending, listNo,
            deferred, armed, armedNo, armedEntry, edits, stageGen, stageBy, logouts)
    }

    constructor (l: List)
      requires Sound(l)
      ensures Init(Abs()) && Abs().list == l
    {
      loggedIn, holder, gen, list, staging, active := false, 0, 0, l, Empty(), false;
      flight, pending, listNo, deferred := None, false, 0, false;
      armed, armedNo, armedEntry := false, 0, None;
      edits, flightEdits, stageGen, stageBy, logouts := Edits([], None, Fine), Edits([], None, Fine), 0, 0, map[];
    }

    method SessionLogout()
      modifies this
      ensures Abs() == EndSession(old(Abs()))
    {
      gen := gen + 1;
      loggedIn, active, staging := false, false, Empty();
      edits := edits.(open := None);
    }

    method ArmFromCommitted()
      modifies this
      ensures Abs() == Decide(old(Abs()))
    {
      if 1 <= listNo <= SLOTS && list[listNo - 1].None? {
        pending, listNo := false, 0;
      } else if 1 <= listNo <= SLOTS {
        armedEntry, armedNo, armed := list[listNo - 1], listNo, true;
      }
    }

    /** handle_login; `accepted` is the verdict on boot state and password. */
    method HandleLogin(ip: nat, accepted: bool)
      modifies this
      ensures Abs() == Next(old(Abs()), Login(ip, accepted))
    {
      hide Requested, Reconciled, LoggedOut, LoggedIn, Decide, EndSession;
      if loggedIn && holder != ip { return; }
      if !accepted { return; }
      Enter(ip);
    }

    method Enter(ip: nat)
      modifies this`loggedIn, this`holder, this`gen, this`pending, this`listNo
      ensures Abs() == LoggedIn(old(Abs()), ip)
    {
      if !loggedIn {
        gen := gen + 1;
        if !armed && !deferred {
          pending, listNo := false, 0;
        }
      }
      loggedIn, holder := true, ip;
    }

    /** handle_logout */
    method HandleLogout(ip: nat)
      modifies this
      ensures Abs() == Next(old(Abs()), Logout(ip))
    {
      hide Requested, Reconciled, LoggedIn;
      if !loggedIn || holder != ip { return; }
      if pending && !armed {
        if flight.Some? {
          deferred := true;
        } else {
          ArmFromCommitted();
        }
      }
      logouts := logouts[gen := ip];
      SessionLogout();
    }

    /** handle_set_ip_config_list */
    method HandleSetList(ip: nat, es: seq<Entry>, how: Handling) returns (err: Verdict)
      modifies this
      ensures Abs() == Next(old(Abs()), SetList(ip, es, how))
      ensures Owns(old(Abs()), ip) && old(flight).None? && how != NotAdmitted ==>
                err == IterateAll(Work(old(list), old(staging), old(active), false, Fine), es).err
    {
      hide IterateAll, EditAll, Reconciled, LoggedOut, LoggedIn, Decide, EndSession, Adopted;
      err := Fine;
      if !loggedIn || holder != ip || flight.Some? || how == NotAdmitted { return; }
      var w := Process(Work(list, staging, active, false, Fine), es);
      err := w.err;
      Adopt(w, EditAll(edits, es).(err := Fine), how);
    }

    method Adopt(w: Work, ghost d: Edits, how: Handling)
      requires how != NotAdmitted
      modifies this`list, this`staging, this`active, this`edits, this`flight, this`flightEdits
      ensures Abs() == Adopted(old(Abs()), w, d, how)
    {
      if !w.committed {
        staging, active, edits := w.staging, w.active, d;
      } else if how == Deferred {
        flight, flightEdits := Some(Sent(w.candidate, w.staging, w.active, gen)), d;
      } else if Visible(how.outcome) {
        list, staging, active, edits := w.candidate, w.staging, w.active, d;
      }
    }

    /** handle_change_ip_address; `clash` is the test against the other interface. */
    method HandleChangeIp(ip: nat, n: nat, clash: bool) returns (ok: bool)
      modifies this
      ensures Abs() == Next(old(Abs()), ChangeIp(ip, n, clash))
      ensures ok == Accepts(old(Abs()), ChangeIp(ip, n, clash))
    {
      hide Requested, Reconciled, LoggedOut, LoggedIn, Decide, EndSession;
      if !loggedIn || holder != ip { return false; }
      if armed || deferred || active { return false; }
      if !(1 <= n <= SLOTS) { return false; }
      if list[n - 1].None? || clash { return false; }
      pending, listNo, stageGen, stageBy := true, n, gen, ip;
      return true;
    }

    /** The IP-list branch of opcd_store_async_on_ready. */
    method OnWritten(o: Outcome)
      requires flight.Some?
      modifies this
      ensures Abs() == Next(old(Abs()), Completed(o))
    {
      hide Requested, LoggedOut, LoggedIn, Decide, EndSession;
      ghost var s := Abs();
      if Visible(o) { Publish(); }
      flight := None;
      var decide := deferred && pending && !armed;
      deferred := false;
      ghost var u := Abs();
      assert Reconciled(s, o) == if decide then Decide(u) else u;
      if decide { ArmFromCommitted(); }
    }

    method Publish()
      requires flight.Some?
      modifies this`list, this`staging, this`active, this`edits
      ensures var s, f := old(Abs()), Abs().flight.value;
              Abs() == if s.loggedIn && s.gen == f.gen
                       then s.(list := f.candidate, staging := f.staging, active := f.active, edits := f.edits)
                       else s.(list := f.candidate, edits := s.edits.(done := f.edits.done))
    {
      var f := flight.value;
      list := f.candidate;
      if loggedIn && gen == f.gen {
        staging, active, edits := f.staging, f.active, flightEdits;
      } else {
        edits := edits.(done := flightEdits.done);
      }
    }

    /** opcd_apply_pending_ip_change; `ok` is the platform's answer. */
    method ApplyPending(ok: bool) returns (applied: Option<Entry>)
      modifies this
      ensures Abs() == Next(old(Abs()), Apply(ok))
      ensures applied == if old(armed) then old(armedEntry) else None
    {
      hide Requested, Reconciled, LoggedOut, LoggedIn, Decide, EndSession;
      if !armed { return None; }
      applied := armedEntry;
      Reset();
      if ok && loggedIn { SessionLogout(); }
    }

    method Reset()
      modifies this`pending, this`armed, this`listNo, this`armedNo, this`armedEntry
      ensures Abs() == old(Abs()).(pending := false, armed := false, listNo := 0, armedNo := 0, armedEntry := None)
    {
      pending, armed, listNo, armedNo, armedEntry := false, false, 0, 0, None;
    }
  }
}
