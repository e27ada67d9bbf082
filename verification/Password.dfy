/** SetPassword (opcd/handler.c): a password is published once its write is
    visible, and a client that was told the write failed can send the same
    request again even though its new password is already in force. */
module Password {
  import opened Common
  import opened Store
  import opened OpcText

  /** `prev` is the password that a visible but unconfirmed write replaced;
      `pending` is the candidate whose write is outstanding. */
  datatype State = State(password: string, unsynced: bool, prev: string, pending: Option<string>)

  datatype Request = Request(was: string, wasTerminated: bool, next: string, nextTerminated: bool)

  datatype Verdict = Busy | OldNul | NewNul | OldChar | NewChar | Mismatch | Taken

  predicate WellFormed(r: Request) {
    r.wasTerminated && r.nextTerminated && InCharset(r.was) && r.next != "" && InCharset(r.next)
  }

  function Judge(p: State, r: Request): (v: Verdict)
    ensures v == Taken <==>
              p.pending.None? && WellFormed(r) &&
              (r.was == p.password || (p.unsynced && r.was == p.prev && r.next == p.password))
  {
    if p.pending.Some? then Busy
    else if !r.wasTerminated then OldNul
    else if !r.nextTerminated then NewNul
    else if !InCharset(r.was) then OldChar
    else if r.next == "" || !InCharset(r.next) then NewChar
    else if r.was != p.password && !(p.unsynced && r.was == p.prev && r.next == p.password) then Mismatch
    else Taken
  }

  /** password_note_outcome, then publication. */
  function Settled(p: State, candidate: string, o: Outcome): State {
    match o
    case Unchanged => p.(pending := None)
    case Durable => State(candidate, false, "", None)
    case ReplacedUnsynced =>
      if candidate == p.password then p.(pending := None)
      else State(candidate, true, p.password, None)
  }

  /** What becomes of an accepted request: no capacity, an outstanding write, or
      a write done on the spot (also a submission that failed). */
  datatype Handling = NotAdmitted | Deferred | OnTheSpot(outcome: Outcome)

  datatype Event = Sent(req: Request, how: Handling) | Completed(outcome: Outcome)

  function Next(p: State, e: Event): State {
    match e
    case Sent(r, how) =>
      if Judge(p, r) != Taken then p
      else (match how
            case NotAdmitted => p
            case Deferred => p.(pending := Some(r.next))
            case OnTheSpot(o) => Settled(p, r.next, o))
    case Completed(o) => if p.pending.Some? then Settled(p, p.pending.value, o) else p
  }

  function Run(p: State, es: seq<Event>): State {
    if es == [] then p else Next(Run(p, es[..|es| - 1]), es[|es| - 1])
  }

  /** The outcome an event settles, if any. */
  function Settles(p: State, e: Event): Option<Outcome> {
    match e
    case Sent(r, OnTheSpot(o)) => if Judge(p, r) == Taken then Some(o) else None
    case Sent(_, _) => None
    case Completed(o) => if p.pending.Some? then Some(o) else None
  }

  // ---- The promise to a client that repeats its request ------------------------

  /** Up to `n` events, nobody else's change was accepted and no write was
      confirmed; requests turned away are unrestricted. */
  ghost predicate OnlyRepeats(p: State, es: seq<Event>, r: Request) {
    forall i :: 0 <= i < |es| ==>
      var s := Run(p, es[..i]);
      && (es[i].Sent? && Judge(s, es[i].req) == Taken ==> es[i].req == r)
      && Settles(s, es[i]) != Some(Durable)
  }

  /** The request is in flight, or would be accepted. */
  ghost predicate Welcome(p: State, r: Request) {
    && (p.pending.None? || p.pending == Some(r.next))
    && Judge(p.(pending := None), r) == Taken
  }

  lemma RepeatStep(p: State, e: Event, r: Request)
    requires Welcome(p, r)
    requires e.Sent? && Judge(p, e.req) == Taken ==> e.req == r
    requires Settles(p, e) != Some(Durable)
    ensures Welcome(Next(p, e), r)
  {
    hide InCharset;
  }

  /** A client that keeps sending the same request until it is told OK is never
      told that its old password is wrong, whatever happens to the writes. */
  lemma {:induction false} RepeatNeverMismatched(p: State, es: seq<Event>, r: Request)
    requires Judge(p, r) == Taken && OnlyRepeats(p, es, r)
    ensures Welcome(Run(p, es), r)
    ensures Judge(Run(p, es), r) == Busy || Judge(Run(p, es), r) == Taken
  {
    hide InCharset, Settles, Next;
    if es != [] {
      var n := |es| - 1;
      assert forall i :: 0 <= i < n ==> es[..n][..i] == es[..i] && es[..n][i] == es[i];
      assert OnlyRepeats(p, es[..n], r);
      RepeatNeverMismatched(p, es[..n], r);
      RepeatStep(Run(p, es[..n]), es[n], r);
    }
  }

  // ---- What a repeat may do ------------------------------------------------------

  /** An unconfirmed change is a change. */
  ghost predicate Inv(p: State) {
    p.unsynced ==> p.prev != p.password
  }

  lemma {:induction false} RunInv(p: State, es: seq<Event>)
    requires !p.unsynced
    ensures Inv(Run(p, es))
  {
    if es != [] { RunInv(p, es[..|es| - 1]); }
  }

  /** The replaced password opens nothing but a repeat of the change that
      replaced it: such a request rewrites the password in force. */
  lemma ReplacedPasswordChangesNothing(p0: State, es: seq<Event>, r: Request, o: Outcome)
    requires !p0.unsynced
    requires var p := Run(p0, es); Judge(p, r) == Taken && p.unsynced && r.was == p.prev
    ensures var p := Run(p0, es); Settled(p, r.next, o).password == p.password
  {
    RunInv(p0, es);
  }

  /** Once a write is confirmed, exactly the password in force is accepted. */
  lemma ConfirmedEndsRepeats(p: State, candidate: string, r: Request)
    ensures Judge(Settled(p, candidate, Durable), r) == Taken <==> WellFormed(r) && r.was == candidate
  {
  }

  // ---- What `unsynced` and `prev` mean -------------------------------------------

  datatype Settlement = Settlement(candidate: string, outcome: Outcome)

  /** The writes settled during a run, oldest first. */
  function Settlements(p: State, es: seq<Event>): seq<Settlement> {
    if es == [] then []
    else
      var n := |es| - 1;
      var s, e := Run(p, es[..n]), es[n];
      Settlements(p, es[..n]) +
      (match e
       case Sent(r, OnTheSpot(o)) => if Judge(s, r) == Taken then [Settlement(r.next, o)] else []
       case Sent(_, _) => []
       case Completed(o) => if s.pending.Some? then [Settlement(s.pending.value, o)] else [])
  }

  /** The password the files show after those writes. */
  function Shown(start: string, h: seq<Settlement>): string {
    if h == [] then start
    else if Visible(h[|h| - 1].outcome) then h[|h| - 1].candidate
    else Shown(start, h[..|h| - 1])
  }

  /** Write `i` changed the password without being confirmed, and nothing since
      has changed or confirmed it. */
  ghost predicate Unconfirmed(start: string, h: seq<Settlement>, i: nat)
    requires i < |h|
  {
    && h[i].outcome == ReplacedUnsynced && h[i].candidate != Shown(start, h[..i])
    && (forall j :: i < j < |h| ==>
          h[j].outcome == Unchanged || (h[j].outcome == ReplacedUnsynced && h[j].candidate == h[i].candidate))
  }

  /** `q` is what the settled writes `h` mean. */
  ghost predicate Means(start: string, q: State, h: seq<Settlement>) {
    && q.password == Shown(start, h)
    && (q.unsynced <==> exists i :: 0 <= i < |h| && Unconfirmed(start, h, i))
    && (forall i :: 0 <= i < |h| && Unconfirmed(start, h, i) ==>
          q.prev == Shown(start, h[..i]) && q.password == h[i].candidate)
  }

  lemma SettledMeaning(start: string, q: State, h: seq<Settlement>, x: Settlement)
    requires Means(start, q, h)
    ensures Means(start, Settled(q, x.candidate, x.outcome), h + [x])
  {
    var h' := h + [x];
    assert h'[..|h|] == h;
    forall i | 0 <= i < |h|
      ensures Unconfirmed(start, h', i) <==>
                Unconfirmed(start, h, i) &&
                (x.outcome == Unchanged || (x.outcome == ReplacedUnsynced && x.candidate == h[i].candidate))
      ensures h'[..i] == h[..i]
    {
      assert h'[..i] == h[..i] && h'[i] == h[i];
      assert forall j :: 0 <= j < |h| ==> h'[j] == h[j];
      assert h'[|h|] == x;
    }
    if x.outcome == ReplacedUnsynced && x.candidate != q.password {
      assert Unconfirmed(start, h', |h|);
    }
  }

  /** The published password is the stored one, and the repeat is open exactly
      while the last change is unconfirmed, for the password it replaced. */
  lemma {:induction false} MeaningOfUnsynced(p: State, es: seq<Event>)
    requires !p.unsynced
    ensures Means(p.password, Run(p, es), Settlements(p, es))
  {
    hide Means, Settled, Judge;
    if es == [] {
      FreshMeaning(p);
    } else {
      var n := |es| - 1;
      MeaningOfUnsynced(p, es[..n]);
      var s, h, h' := Run(p, es[..n]), Settlements(p, es[..n]), Settlements(p, es);
      if h' != h {
        SettledMeaning(p.password, s, h, h'[|h|]);
        assert h' == h + [h'[|h|]];
      } else {
        PendingMeansNothing(p.password, s, Run(p, es), h);
      }
    }
  }

  lemma FreshMeaning(p: State)
    requires !p.unsynced
    ensures Means(p.password, p, [])
  {
  }

  lemma PendingMeansNothing(start: string, q: State, q': State, h: seq<Settlement>)
    requires Means(start, q, h) && q' == q.(pending := q'.pending)
    ensures Means(start, q', h)
  {
  }

  // ---- The handler -----------------------------------------------------------------

  class Handler {
    var password: string
    var unsynced: bool
    var prev: string
    var pending: Option<string>

    ghost function Abs(): State
      reads this
    {
      State(password, unsynced, prev, pending)
    }

    constructor (stored: string)
      ensures Abs() == State(stored, false, "", None)
    {
      password, unsynced, prev, pending := stored, false, "", None;
    }

    /** handle_set_password, after the login gate. */
    method SetPassword(r: Request, how: Handling) returns (v: Verdict)
      modifies this
      ensures v == Judge(old(Abs()), r) && Abs() == Next(old(Abs()), Sent(r, how))
    {
      if pending.Some? { return Busy; }
      if !r.wasTerminated { return OldNul; }
      if !r.nextTerminated { return NewNul; }
      var ok := ValidCharset(r.was);
      if !ok { return OldChar; }
      ok := ValidCharset(r.next);
      if r.next == "" || !ok { return NewChar; }
      if r.was != password && !(unsynced && r.was == prev && r.next == password) { return Mismatch; }
      match how {
        case NotAdmitted =>
        case Deferred => pending := Some(r.next);
        case OnTheSpot(o) => Settle(r.next, o);
      }
      return Taken;
    }

    /** The password branch of opcd_store_async_on_ready. */
    method Complete(o: Outcome)
      modifies this
      ensures Abs() == Next(old(Abs()), Completed(o))
    {
      if pending.Some? { Settle(pending.value, o); }
    }

    method Settle(candidate: string, o: Outcome)
      modifies this
      ensures Abs() == Settled(old(Abs()), candidate, o)
    {
      if o == Durable {
        unsynced, prev := false, "";
      } else if o == ReplacedUnsynced && candidate != password {
        unsynced, prev := true, password;
      }
      if o != Unchanged { password := candidate; }
      pending := None;
    }
  }
}
