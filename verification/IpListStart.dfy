/** Three copies of the IP list (opcd/handler.c): opcd's own file, the customer's
    file, and the record of what opcd last put into or applied from the customer's
    file. A start decides which of them is the list in effect. */
module IpListStart {
  import opened Common
  import opened Store
  import opened IpConfig
  import opened IpListText
  import opened OpcText
  import opened Lines

  const IMPORT_MAX: nat := 65536

  // ---- The decision --------------------------------------------------------------

  predicate OwnRead(own: Option<string>) {
    own.Some? && |own.value| <= TEXT_MAX
  }

  function OwnList(own: Option<string>): List {
    if OwnRead(own) then FromText(own.value, false).value else Empty()
  }

  /** The customer's list, if its file is acceptable. */
  function UserList(user: Option<string>): Option<List> {
    if user.None? || |user.value| > IMPORT_MAX then None else FromText(user.value, true)
  }

  datatype Choice = UserCreated | UserRejected | UserKept | UserApplied

  function Choose(own: Option<string>, user: Option<string>, last: Option<string>): Choice {
    if user.None? then UserCreated
    else if UserList(user).None? then UserRejected
    else if OwnRead(own) && user == last then UserKept
    else UserApplied
  }

  /** opcd_iplist_load: the list in effect after a start. */
  function StartList(own: Option<string>, user: Option<string>, last: Option<string>): List {
    if Choose(own, user, last) == UserApplied then UserList(user).value else OwnList(own)
  }

  /** A start takes another list than opcd's own exactly when the customer's file
      is acceptable, is not the file opcd last put there, and holds another list. */
  lemma StartChangesIff(own: Option<string>, user: Option<string>, last: Option<string>)
    requires OwnRead(own)
    ensures StartList(own, user, last) != OwnList(own) <==>
              UserList(user).Some? && user != last && UserList(user).value != OwnList(own)
  {
    hide FromText;
  }

  // ---- Runs ------------------------------------------------------------------------

  /** `Mirroring`: the list in effect is about to be shown to the customer;
      `Echoing`: it shows, the record follows; `Saving` and `Recording`: the
      customer's file was applied and is being saved and recorded. */
  datatype Phase = Idle | Mirroring | Echoing | Booting | Saving(text: string) | Recording(text: string)

  /** `replaced` (history): the customer has replaced the file since opcd last
      put a list into it, applied it or set it aside. */
  datatype State = State(own: File<string>, user: File<string>, last: File<string>, list: List,
                         replaced: bool, phase: Phase)

  datatype Event =
    | Commit(list: List, outcome: Outcome)
    | ShowUser(outcome: Outcome)
    | Echo(outcome: Outcome)
    | Replace(text: Option<string>)
    | Restart
    | PowerLoss(ownLeft: Option<string>, userLeft: Option<string>, lastLeft: Option<string>)
    | Load(renamed: bool)
    | Save(outcome: Outcome)
    | Record(outcome: Outcome)

  function Settle(v: Option<string>): File<string> {
    File(v, {v})
  }

  /** A start: decide, set a bad customer file aside, and go on to the writes the
      decision calls for. */
  function Loaded(s: State, renamed: bool): State {
    var list := StartList(s.own.view, s.user.view, s.last.view);
    match Choose(s.own.view, s.user.view, s.last.view)
    case UserCreated => s.(list := list, phase := Mirroring)
    case UserRejected =>
      s.(list := list, user := if renamed then Unlinked(s.user) else s.user, phase := Mirroring)
    case UserKept =>
      s.(list := list, phase := if UserList(s.user.view) == Some(list) then Idle else Mirroring)
    case UserApplied =>
      s.(list := list,
         phase := if s.own.view == Some(Format(list)) then Recording(s.user.view.value)
                  else Saving(s.user.view.value))
  }

  /** A SetIpConfigList whose write is visible publishes its list, whose entries
      are compared and shown without boundary flags. */
  function Next(s: State, e: Event): State {
    match e
    case Commit(l, o) =>
      if s.phase == Idle && Visible(o)
      then s.(own := Written(s.own, Format(l), o), list := Normalized(l), phase := Mirroring)
      else s
    case ShowUser(o) =>
      if s.phase != Mirroring then s
      else if !Visible(o) then s.(phase := Idle)
      else s.(user := Written(s.user, Format(s.list), o), replaced := false, phase := Echoing)
    case Echo(o) =>
      if s.phase == Echoing then s.(last := Written(s.last, Format(s.list), o), phase := Idle) else s
    case Replace(text) => s.(user := Settle(text), replaced := true)
    case Restart => s.(phase := Booting)
    case PowerLoss(o, u, l) =>
      if o in s.own.crash && u in s.user.crash && l in s.last.crash
      then s.(own := Settle(o), user := Settle(u), last := Settle(l), phase := Booting)
      else s
    case Load(renamed) => if s.phase == Booting then Loaded(s, renamed) else s
    case Save(o) =>
      if s.phase.Saving? then
        s.(own := Written(s.own, Format(s.list), o),
           phase := if o == Durable then Recording(s.phase.text) else Idle)
      else s
    case Record(o) =>
      if s.phase.Recording? then
        s.(last := Written(s.last, s.phase.text, o), phase := Idle,
           replaced := s.replaced && s.user.view != Some(s.phase.text))
      else s
  }

  function Run(s: State, es: seq<Event>): State {
    if es == [] then s else Next(Run(s, es[..|es| - 1]), es[|es| - 1])
  }

  /** A list in effect is one opcd can print. */
  ghost predicate Lawful(e: Event) {
    e.Commit? ==> Sound(e.list)
  }

  /** No write to the customer's file or to the record is left half done: each is
      refused outright or confirmed. */
  predicate Clean(e: Event) {
    match e
    case ShowUser(o) => o != ReplacedUnsynced
    case Echo(o) => o == Durable
    case Save(o) => o == Durable
    case Record(o) => o == Durable
    case _ => true
  }

  // ---- Lists that print ---------------------------------------------------------------

  /** A list as a text holds it. */
  ghost predicate Plain(l: List) {
    Sound(l) && Normalized(l) == l
  }

  lemma NormalizedPlain(l: List)
    requires Sound(l)
    ensures Plain(Normalized(l))
  {
    hide EntryError;
    forall i | 0 <= i < SLOTS && l[i].Some? ensures EntryError(Normal(l[i].value, i)) == Fine {
      NormalFine(l[i].value, i);
    }
    assert Normalized(Normalized(l)) == Normalized(l);
  }

  lemma SlotPlain(o: Out, i: nat)
    requires Shaped(o) && i < SLOTS && SlotOf(o, i).Kept?
    ensures var e := SlotOf(o, i).entry;
            e.number == i + 1 && e.ip != 0 && EntryError(e) == Fine && Normal(e, i) == e
  {
    hide AddressError, InCharset;
  }

  lemma CollectedPlain(o: Out)
    requires Shaped(o)
    ensures Plain(Collected(o))
  {
    hide EntryError, SlotOf;
    var l := Collected(o);
    forall i | 0 <= i < SLOTS && l[i].Some?
      ensures var e := l[i].value; e.number == i + 1 && e.ip != 0 && EntryError(e) == Fine && Normal(e, i) == e
    {
      SlotPlain(o, i);
    }
    assert Normalized(l) == l;
  }

  lemma TextPlain(s: string, strict: bool)
    ensures FromText(s, strict).Some? ==> Plain(FromText(s, strict).value)
    ensures !strict ==> FromText(s, strict).Some?
  {
    hide ReadText, Plain, Collected;
    CollectedPlain(ReadText(Body(s), Fresh(), 1));
  }

  lemma EmptyPlain()
    ensures Plain(Empty())
  {
    assert Normalized(Empty()) == Empty();
  }

  /** A plain list prints within the limits and reads back as itself. */
  lemma PlainPrints(l: List)
    requires Plain(l)
    ensures |Format(l)| <= TEXT_MAX && UserList(Some(Format(l))) == Some(l)
    ensures OwnRead(Some(Format(l))) && OwnList(Some(Format(l))) == l
  {
    hide FromText, Format, Sound;
    FormatFits(l);
    TextRoundTrip(l, true);
    TextRoundTrip(l, false);
  }

  lemma StartPlain(own: Option<string>, user: Option<string>, last: Option<string>)
    ensures Plain(StartList(own, user, last))
  {
    hide FromText, Plain;
    EmptyPlain();
    if own.Some? { TextPlain(own.value, false); }
    if user.Some? { TextPlain(user.value, true); }
  }

  // ---- The invariant ------------------------------------------------------------------

  /** The customer's file is the recorded one, or one that will not be applied. */
  ghost predicate Matched(s: State) {
    s.user.view == s.last.view || UserList(s.user.view).None?
  }

  ghost predicate Tidy(s: State) {
    && s.last == Settle(s.last.view)
    && (s.user.view.Some? ==> s.user == Settle(s.user.view))
    && (forall u :: u in s.user.crash ==> u == s.user.view || UserList(u).None?)
    && Plain(s.list)
  }

  ghost predicate Inv(s: State) {
    && Tidy(s)
    && (!s.replaced ==> Matched(s) || UserList(s.user.view) == Some(s.list))
    && (!s.replaced && (s.phase == Idle || s.phase == Mirroring) ==> Matched(s))
    && (!s.replaced && s.phase == Echoing ==> s.user.view == Some(Format(s.list)))
    && (!s.replaced && s.phase.Saving? ==> s.user.view == Some(s.phase.text))
    && (!s.replaced && s.phase.Recording? ==> s.user.view == Some(s.phase.text))
  }

  lemma LoadKeeps(s: State, renamed: bool)
    requires Inv(s) && s.phase == Booting
    ensures Inv(Loaded(s, renamed))
  {
    hide FromText, Plain, Format;
    StartPlain(s.own.view, s.user.view, s.last.view);
  }

  lemma CommitKeeps(s: State, e: Event)
    requires Inv(s) && e.Commit? && Sound(e.list)
    ensures Inv(Next(s, e))
  {
    NormalizedPlain(e.list);
    FormatFits(e.list);
    hide FromText, Plain, Format, Normalized;
  }

  lemma ShowKeeps(s: State, e: Event)
    requires Inv(s) && e.ShowUser? && Clean(e)
    ensures Inv(Next(s, e))
  {
    PlainPrints(s.list);
    hide FromText, Plain, Format;
  }

  lemma SaveKeeps(s: State, e: Event)
    requires Inv(s) && e.Save?
    ensures Clean(e) ==> Inv(Next(s, e))
  {
    PlainPrints(s.list);
    hide FromText, Plain, Format;
  }

  lemma NextKeeps(s: State, e: Event)
    requires Inv(s) && Clean(e) && Lawful(e)
    ensures Inv(Next(s, e))
  {
    hide FromText, Plain, Format, Loaded, Sound;
    match e
    case Commit(_, _) => CommitKeeps(s, e);
    case ShowUser(_) => ShowKeeps(s, e);
    case Save(_) => SaveKeeps(s, e);
    case Load(renamed) => if s.phase == Booting { LoadKeeps(s, renamed); }
    case _ =>
  }

  /** A device about to start, with or without a copy of its own. */
  ghost predicate Init(s: State) {
    && s.phase == Booting && s.own == Settle(s.own.view)
    && s.user == Settle(s.user.view) && s.last == Settle(s.last.view)
    && Plain(s.list) && (!s.replaced ==> Matched(s))
  }

  ghost predicate AllClean(es: seq<Event>) {
    forall i :: 0 <= i < |es| ==> Clean(es[i]) && Lawful(es[i])
  }

  lemma {:induction false} RunKeeps(s: State, es: seq<Event>)
    requires Init(s) && AllClean(es)
    ensures Inv(Run(s, es))
  {
    hide Next, Plain, FromText;
    if es != [] {
      RunKeeps(s, es[..|es| - 1]);
      NextKeeps(Run(s, es[..|es| - 1]), es[|es| - 1]);
    }
  }

  // ---- Every run, whatever its writes do -----------------------------------------------

  /** A power loss may leave a customer's file and a record with which a start
      that has the list in effect saved takes another list. */
  ghost predicate Exposed(s: State) {
    exists u, r :: u in s.user.crash && r in s.last.crash && StartList(Some(Format(s.list)), u, r) != s.list
  }

  /** The commit in effect is not undone, unless the customer replaced the file. */
  ghost predicate Secure(s: State) {
    s.replaced || !Exposed(s)
  }

  /** An acceptable file with another list than `l`. */
  predicate Other(u: Option<string>, l: List) {
    UserList(u).Some? && UserList(u).value != l
  }

  /** A customer's file with another list than `l` may be left, and a record that
      is not of that file. */
  ghost predicate Unrecorded(s: State, l: List) {
    exists u, r :: u in s.user.crash && r in s.last.crash && u != r && Other(u, l)
  }

  /** A customer's file with another list than the one in effect may be left. */
  ghost predicate Stale(s: State) {
    exists u :: u in s.user.crash && Other(u, s.list)
  }

  /** The steps that put a commit at risk: committing another list while the one
      shown has no confirmed record, showing a list without its directory entry
      over a file the customer put there, and recording what shows while an older
      file may still come back. */
  ghost predicate Endangers(s: State, e: Event) {
    match e
    case Commit(l, o) => s.phase == Idle && Visible(o) && !s.replaced && Unrecorded(s, Normalized(l))
    case ShowUser(o) => s.phase == Mirroring && o == ReplacedUnsynced && s.replaced && Unrecorded(s, s.list)
    case Echo(o) => s.phase == Echoing && Visible(o) && !s.replaced && Stale(s)
    case Record(o) =>
      && s.phase.Recording? && Visible(o) && Stale(s)
      && (s.replaced ==> s.user.view == Some(s.phase.text))
    case _ => false
  }

  lemma ExposedIff(s: State)
    requires Plain(s.list)
    ensures Exposed(s) <==> Unrecorded(s, s.list)
  {
    hide FromText, Plain, Format, StartList, UserList, OwnRead, OwnList;
    PlainPrints(s.list);
    var own := Some(Format(s.list));
    forall u, r | u in s.user.crash && r in s.last.crash
      ensures StartList(own, u, r) != s.list <==> u != r && Other(u, s.list)
    {
      StartChangesIff(own, u, r);
    }
  }

  /** The only acceptable file that may be left is the one that shows. */
  ghost predicate Sole(s: State) {
    forall u :: u in s.user.crash && UserList(u).Some? ==> u == s.user.view
  }

  /** What a later start without a power loss would load. */
  ghost predicate Settled(s: State) {
    || (OwnRead(s.own.view) && OwnList(s.own.view) == s.list)
    || (Sole(s) && (OwnRead(s.own.view) ==> s.last == Settle(s.last.view)))
    || (!OwnRead(s.own.view) && s.list == Empty() && !Other(s.user.view, s.list))
  }

  ghost predicate Held(s: State) {
    && Plain(s.list) && s.user.view in s.user.crash && s.last.view in s.last.crash
    && (s.replaced ==> Sole(s))
    && (!s.replaced ==> Settled(s))
    && (s.phase == Mirroring || s.phase == Echoing ==> OwnList(s.own.view) == s.list)
    && (s.phase == Echoing && !s.replaced ==> s.user.view == Some(Format(s.list)))
    && (s.phase.Saving? ==> UserList(Some(s.phase.text)) == Some(s.list))
    && (s.phase.Recording? ==>
          UserList(Some(s.phase.text)) == Some(s.list) && s.own.view == Some(Format(s.list)))
  }

  lemma CommitStep(s: State, e: Event)
    requires Held(s) && e.Commit? && Sound(e.list)
    ensures Held(Next(s, e))
  {
    hide FromText, Plain, Format, Normalized;
    NormalizedPlain(e.list);
    FormatNormalized(e.list);
    PlainPrints(Normalized(e.list));
  }

  lemma ShowStep(s: State, e: Event)
    requires Held(s) && e.ShowUser?
    ensures Held(Next(s, e))
    ensures Secure(s) ==> (Secure(Next(s, e)) <==> !Endangers(s, e))
  {
    hide FromText, Plain, Format, UserList, Exposed, OwnRead, OwnList;
    var t := Next(s, e);
    PlainPrints(s.list);
    OwnUnread(s.own.view);
    ExposedIff(s);
    ExposedIff(t);
    if s.phase == Mirroring && Visible(e.outcome) {
      assert !Other(Some(Format(s.list)), s.list);
      if e.outcome == ReplacedUnsynced && Unrecorded(s, s.list) {
        var u, r :| u in s.user.crash && r in s.last.crash && u != r && Other(u, s.list);
        assert u in t.user.crash && r in t.last.crash;
      }
    }
  }

  /** The record of `text` was written with outcome `o`. */
  lemma RecordExposes(s: State, t: State, text: string, o: Outcome)
    requires Plain(s.list) && t.list == s.list && t.user == s.user
    requires t.last == Written(s.last, text, o) && !Other(Some(text), s.list)
    ensures if Visible(o) then Exposed(t) <==> Stale(s) else Exposed(t) <==> Exposed(s)
  {
    hide Plain, UserList, Exposed;
    ExposedIff(s);
    ExposedIff(t);
    if Visible(o) && Stale(s) {
      var u :| u in s.user.crash && Other(u, s.list);
      assert u in t.user.crash && Some(text) in t.last.crash && u != Some(text);
    }
  }

  lemma EchoStep(s: State, e: Event)
    requires Held(s) && e.Echo?
    ensures Held(Next(s, e))
    ensures Secure(s) ==> (Secure(Next(s, e)) <==> !Endangers(s, e))
  {
    hide FromText, Plain, Format, UserList, Exposed, Stale;
    PlainPrints(s.list);
    if s.phase == Echoing {
      RecordExposes(s, Next(s, e), Format(s.list), e.outcome);
    }
  }

  lemma RecordStep(s: State, e: Event)
    requires Held(s) && e.Record?
    ensures Held(Next(s, e))
    ensures Secure(s) ==> (Secure(Next(s, e)) <==> !Endangers(s, e))
  {
    hide FromText, Plain, Format, UserList, Exposed;
    PlainPrints(s.list);
    if s.phase.Recording? {
      RecordExposes(s, Next(s, e), s.phase.text, e.outcome);
      ExposedIff(s);
    }
  }

  /** A start that may keep opcd's list loads the one that was in effect. */
  lemma LoadSame(s: State)
    requires !s.replaced && !Unrecorded(s, s.list)
    requires s.user.view in s.user.crash && s.last.view in s.last.crash
    requires OwnList(s.own.view) == s.list && (OwnRead(s.own.view) || !Other(s.user.view, s.list))
    ensures StartList(s.own.view, s.user.view, s.last.view) == s.list
  {
    hide FromText, OwnList;
    assert s.user.view == s.last.view || !Other(s.user.view, s.list);
  }

  /** One that finds a single file and, if it can read its own, a single record. */
  lemma LoadSole(s: State, t: State)
    requires Sole(s) && (OwnRead(s.own.view) ==> s.last == Settle(s.last.view))
    requires t.list == StartList(s.own.view, s.user.view, s.last.view) && t.last == s.last && t.own == s.own
    requires t.user == s.user || (t.user == Unlinked(s.user) && UserList(s.user.view).None?)
    ensures !Unrecorded(t, t.list) && Settled(t)
  {
    hide FromText, OwnRead, OwnList;
    assert OwnList(s.own.view) == if OwnRead(s.own.view) then OwnList(s.own.view) else Empty() by {
      OwnUnread(s.own.view);
    }
  }

  lemma OwnUnread(own: Option<string>)
    ensures !OwnRead(own) ==> OwnList(own) == Empty()
  {
  }

  lemma NoUser()
    ensures UserList(None).None?
  {
  }

  lemma LoadStep(s: State, renamed: bool)
    requires Held(s) && s.phase == Booting && Secure(s)
    ensures Held(Loaded(s, renamed)) && Secure(Loaded(s, renamed))
  {
    hide FromText, Plain, Format, Exposed, Loaded, StartList, UserList, OwnRead, OwnList;
    var t := Loaded(s, renamed);
    StartPlain(s.own.view, s.user.view, s.last.view);
    LoadedShape(s, renamed);
    ExposedIff(s);
    ExposedIff(t);
    OwnUnread(s.own.view);
    NoUser();
    if !s.replaced {
      if Sole(s) && (OwnRead(s.own.view) ==> s.last == Settle(s.last.view)) {
        LoadSole(s, t);
      } else {
        LoadSame(s);
      }
    }
  }

  lemma LoadedShape(s: State, renamed: bool)
    ensures var t := Loaded(s, renamed);
            && t.list == StartList(s.own.view, s.user.view, s.last.view)
            && t.own == s.own && t.last == s.last && t.replaced == s.replaced
            && (t.user == s.user || (t.user == Unlinked(s.user) && UserList(s.user.view).None?))
            && t.phase != Echoing && (t.phase == Mirroring ==> OwnList(t.own.view) == t.list)
            && (t.phase.Saving? || t.phase.Recording? ==> UserList(Some(t.phase.text)) == Some(t.list))
            && (t.phase.Recording? ==> t.own.view == Some(Format(t.list)))
  {
    hide FromText, OwnRead, Format, OwnList;
  }

  lemma CommitExposes(s: State, e: Event)
    requires Held(s) && Secure(s) && e.Commit? && Sound(e.list)
    ensures Secure(Next(s, e)) <==> !Endangers(s, e)
  {
    hide FromText, Plain, Format, Normalized, Exposed, UserList;
    NormalizedPlain(e.list);
    ExposedIff(Next(s, e));
  }

  lemma SaveStep(s: State, e: Event)
    requires Held(s) && e.Save?
    ensures Held(Next(s, e)) && (Secure(Next(s, e)) <==> Secure(s))
  {
    hide FromText, Plain, Format, Exposed, UserList;
    PlainPrints(s.list);
    ExposedIff(s);
    ExposedIff(Next(s, e));
  }

  lemma PowerLossStep(s: State, e: Event)
    requires Held(s) && Secure(s) && e.PowerLoss?
    ensures Held(Next(s, e)) && Secure(Next(s, e))
  {
    hide FromText, Plain, Format, Exposed, UserList, OwnRead, OwnList;
    ExposedIff(s);
    ExposedIff(Next(s, e));
  }

  lemma RestartStep(s: State)
    requires Held(s)
    ensures Held(Next(s, Restart)) && (Secure(Next(s, Restart)) <==> Secure(s))
  {
    hide FromText, Plain, Format, StartList, UserList, OwnRead, OwnList;
  }

  /** From a secure state, a step leads to an insecure one exactly if it is one of
      those that endanger. */
  lemma SecureStep(s: State, e: Event)
    requires Held(s) && Secure(s) && Lawful(e)
    ensures Secure(Next(s, e)) <==> !Endangers(s, e)
    ensures Secure(Next(s, e)) ==> Held(Next(s, e))
  {
    hide FromText, Plain, Format, Exposed, UserList, OwnRead, OwnList, Loaded, Sound, Unrecorded, Stale;
    match e
    case Commit(_, _) =>
      CommitStep(s, e);
      CommitExposes(s, e);
    case ShowUser(_) => ShowStep(s, e);
    case Echo(_) => EchoStep(s, e);
    case Record(_) => RecordStep(s, e);
    case Load(renamed) => if s.phase == Booting { LoadStep(s, renamed); }
    case Save(_) => SaveStep(s, e);
    case Replace(_) =>
    case Restart => RestartStep(s);
    case PowerLoss(_, _, _) => PowerLossStep(s, e);
  }

  /** Every crash point of the run is secure. */
  ghost predicate AllSecure(s: State, es: seq<Event>) {
    forall k :: 0 <= k <= |es| ==> Secure(Run(s, es[..k]))
  }

  ghost predicate NoneEndangers(s: State, es: seq<Event>) {
    forall k :: 0 <= k < |es| ==> !Endangers(Run(s, es[..k]), es[k])
  }

  ghost predicate AllLawful(es: seq<Event>) {
    forall k :: 0 <= k < |es| ==> Lawful(es[k])
  }

  lemma Prefixes(s: State, es: seq<Event>)
    requires es != []
    ensures var p := es[..|es| - 1];
            && Run(s, es) == Next(Run(s, p), es[|es| - 1])
            && (AllSecure(s, es) <==> AllSecure(s, p) && Secure(Run(s, es)))
            && (NoneEndangers(s, es) <==> NoneEndangers(s, p) && !Endangers(Run(s, p), es[|es| - 1]))
  {
    hide Next, Secure, Endangers;
    var p := es[..|es| - 1];
    assert forall k :: 0 <= k <= |p| ==> es[..k] == p[..k];
    assert es[..|es|] == es && p[..|p|] == p;
  }

  /** For every run, whatever its writes do: a start never undoes the commit in
      effect at any crash point, unless the customer replaced the file, exactly if
      the run takes none of the endangering steps. */
  lemma {:induction false} SecureIff(s: State, es: seq<Event>)
    requires Init(s) && AllLawful(es)
    ensures AllSecure(s, es) <==> NoneEndangers(s, es)
    ensures AllSecure(s, es) ==> Held(Run(s, es))
  {
    hide Held, Secure, Endangers, Next, Init, Lawful;
    if es == [] {
      InitSecure(s);
      assert es[..0] == es;
    } else {
      var p := es[..|es| - 1];
      SecureIff(s, p);
      Prefixes(s, es);
      assert p[..|p|] == p;
      if AllSecure(s, p) {
        assert Secure(Run(s, p[..|p|]));
        SecureStep(Run(s, p), es[|es| - 1]);
      }
    }
  }

  lemma InitSecure(s: State)
    requires Init(s)
    ensures Held(s) && Secure(s)
  {
    hide FromText, Plain, Format, Exposed, OwnRead, OwnList;
    ExposedIff(s);
  }

  /** A clean run takes no endangering step. */
  lemma {:induction false} CleanIsSafe(s: State, es: seq<Event>)
    requires Init(s) && AllClean(es)
    ensures NoneEndangers(s, es)
  {
    hide Held, Inv, Endangers, Next, Init, Clean, Lawful, AllSecure, NoneEndangers;
    if es == [] {
      NothingEndangers(s);
    } else {
      var p := es[..|es| - 1];
      CleanIsSafe(s, p);
      RunKeeps(s, p);
      SecureIff(s, p);
      CleanStep(Run(s, p), es[|es| - 1]);
      Prefixes(s, es);
    }
  }

  lemma NothingEndangers(s: State)
    ensures NoneEndangers(s, [])
  {
  }

  lemma CleanStep(s: State, e: Event)
    requires Inv(s) && Held(s) && Clean(e)
    ensures !Endangers(s, e)
  {
    hide FromText, Plain, Format, UserList, OwnRead, OwnList;
    PlainPrints(s.list);
  }

  /** Unless the customer replaced the file, a power loss at any point of any run
      without an endangering step leaves a start with opcd's own list or the list
      last published: an older customer file never comes back, and a durable
      commit is never undone. */
  lemma StartKeepsCommit(s: State, es: seq<Event>, o: Option<string>, u: Option<string>, l: Option<string>)
    requires Init(s) && AllLawful(es) && NoneEndangers(s, es)
    requires var t := Run(s, es); o in t.own.crash && u in t.user.crash && l in t.last.crash && !t.replaced
    ensures var t := Run(s, es);
            && (OwnRead(o) ==> StartList(o, u, l) == OwnList(o) || StartList(o, u, l) == t.list)
            && (t.own.crash == {Some(Format(t.list))} ==> StartList(o, u, l) == t.list)
    ensures OwnRead(s.own.view) ==> OwnRead(o)
  {
    hide FromText, Plain, Format, UserList, OwnRead, OwnList, Run, Exposed, Endangers, Init;
    var t := Run(s, es);
    SecureIff(s, es);
    assert es[..|es|] == es;
    assert Secure(Run(s, es[..|es|]));
    OwnStaysRead(s, es);
    ExposedIff(t);
    PlainPrints(t.list);
    if OwnRead(o) {
      StartChangesIff(o, u, l);
    }
  }

  /** A device that had a readable copy of its own keeps one. */
  lemma {:induction false} OwnStaysRead(s: State, es: seq<Event>)
    requires Init(s) && AllLawful(es)
    ensures Plain(Run(s, es).list) && Run(s, es).own.view in Run(s, es).own.crash
    ensures OwnRead(s.own.view) ==> forall o :: o in Run(s, es).own.crash ==> OwnRead(o)
  {
    hide Next, Plain, OwnRead, Lawful;
    if es != [] {
      OwnStaysRead(s, es[..|es| - 1]);
      OwnReadStep(Run(s, es[..|es| - 1]), es[|es| - 1]);
    }
  }

  lemma OwnReadStep(s: State, e: Event)
    requires Plain(s.list) && s.own.view in s.own.crash && Lawful(e)
    ensures Plain(Next(s, e).list) && Next(s, e).own.view in Next(s, e).own.crash
    ensures (forall o :: o in s.own.crash ==> OwnRead(o)) ==> forall o :: o in Next(s, e).own.crash ==> OwnRead(o)
  {
    hide FromText, Plain, Format, StartList, Sound;
    PlainPrints(s.list);
    StartPlain(s.own.view, s.user.view, s.last.view);
    if e.Commit? {
      NormalizedPlain(e.list);
      FormatFits(e.list);
    }
  }

  /** A customer's file with a bad line is not applied at all, whatever else it
      holds and whatever the record says. */
  lemma BadFileNotApplied(own: Option<string>, ls: seq<string>, bad: string, after: string, last: Option<string>)
    requires BadLine(bad) && forall i :: 0 <= i < |ls| ==> OneLine(ls[i])
    requires !(BOM <= Joined(ls, bad + "\n" + after))
    ensures var user := Some(Joined(ls, bad + "\n" + after));
            Choose(own, user, last) == UserRejected && StartList(own, user, last) == OwnList(own)
  {
    hide FromText, BadLine, OneLine, Joined, Choose, StartList, OwnList;
    BadLineRejects(ls, bad, after);
    RejectedText(own, Joined(ls, bad + "\n" + after), last);
  }

  lemma RejectedText(own: Option<string>, text: string, last: Option<string>)
    requires FromText(text, true).None?
    ensures Choose(own, Some(text), last) == UserRejected && StartList(own, Some(text), last) == OwnList(own)
  {
    hide FromText;
  }

  // ---- What a start leaves behind -----------------------------------------------------------

  /** The files after the writes the start's decision calls for, each of them
      confirmed. */
  function Started(s: State, renamed: bool): State {
    Next(Next(Next(Next(Loaded(s, renamed), Save(Durable)), Record(Durable)), ShowUser(Durable)), Echo(Durable))
  }

  /** A start whose writes succeed leaves everything agreeing: opcd's copy, if there
      is one to speak of, and the customer's file hold the list in effect, and the
      record is of that file, so the next start keeps the list and writes nothing. */
  lemma StartAgrees(s: State, renamed: bool)
    requires s.phase == Booting
    ensures var t := Started(s, renamed);
            && t.phase == Idle && t.list == StartList(s.own.view, s.user.view, s.last.view)
            && OwnList(t.own.view) == t.list
            && UserList(t.user.view) == Some(t.list) && t.last.view == t.user.view
  {
    hide FromText, Plain, Format, StartList, OwnRead, OwnList, UserList, Loaded;
    var t := Loaded(s, renamed);
    StartPlain(s.own.view, s.user.view, s.last.view);
    LoadedShape(s, renamed);
    LoadedPhase(s, renamed);
    PlainPrints(t.list);
  }

  lemma LoadedPhase(s: State, renamed: bool)
    ensures var t := Loaded(s, renamed);
            && (t.phase == Idle || t.phase == Mirroring || t.phase.Saving? || t.phase.Recording?)
            && (t.phase.Saving? || t.phase.Recording? ==> t.user == s.user && s.user.view == Some(t.phase.text))
            && (t.phase == Idle ==>
                  && t.user == s.user && s.user.view == s.last.view
                  && UserList(s.user.view) == Some(t.list) && OwnList(s.own.view) == t.list)
  {
    hide FromText, Format, OwnRead, OwnList;
  }

  /** Without a readable copy of its own, opcd takes any acceptable customer's file,
      also one it put there itself, and otherwise starts empty. */
  lemma StartWithoutOwn(own: Option<string>, user: Option<string>, last: Option<string>)
    requires !OwnRead(own)
    ensures StartList(own, user, last) == if UserList(user).Some? then UserList(user).value else Empty()
  {
    hide FromText;
  }

  // ---- The outcomes that decide it -------------------------------------------------------

  /** Every power loss leaves a start with the list in effect. */
  ghost predicate Survives(s: State) {
    forall o, u, l :: o in s.own.crash && u in s.user.crash && l in s.last.crash ==> StartList(o, u, l) == s.list
  }

  lemma SurvivesIff(s: State)
    requires s.own == Settle(Some(Format(s.list)))
    ensures Survives(s) <==> !Exposed(s)
  {
    hide FromText, Format, StartList;
    assert Some(Format(s.list)) in s.own.crash;
  }

  /** After any run that ends with a saved list about to be shown: the outcomes of
      showing and recording it decide whether it survives. */
  lemma ShownSurvivesIff(s: State, es: seq<Event>, o1: Outcome, o2: Outcome)
    requires Init(s) && AllLawful(es)
    requires var t := Run(s, es); t.phase == Mirroring && t.own == Settle(Some(Format(t.list)))
    ensures var t := Run(s, es);
            Survives(Next(Next(t, ShowUser(o1)), Echo(o2))) <==>
              || o1 == Durable
              || (if o1 == ReplacedUnsynced && Visible(o2) then !Stale(t) else Survives(t))
  {
    hide Run, FromText, Plain, Format, Exposed, Survives, UserList, OwnRead, OwnList;
    OwnStaysRead(s, es);
    var t := Run(s, es);
    var t2 := Next(Next(t, ShowUser(o1)), Echo(o2));
    PlainPrints(t.list);
    SurvivesIff(t);
    SurvivesIff(t2);
    ExposedIff(t);
    ExposedIff(t2);
    assert !Other(Some(Format(t.list)), t.list);
    if o1 == ReplacedUnsynced && Visible(o2) && Stale(t) {
      var u :| u in t.user.crash && Other(u, t.list);
      assert u in t2.user.crash && Some(Format(t.list)) in t2.last.crash && u != Some(Format(t.list));
    }
    if o1 == ReplacedUnsynced && !Visible(o2) && Unrecorded(t, t.list) {
      var u, r :| u in t.user.crash && r in t.last.crash && u != r && Other(u, t.list);
      assert u in t2.user.crash && r in t2.last.crash;
    }
  }

  /** After a clean run a durable commit survives exactly unless its copy replaced
      another list in the customer's file without the directory entry being synced
      while the record of it went through. */
  lemma CommitSurvivesIff(s: State, es: seq<Event>, o1: Outcome, o2: Outcome)
    requires Init(s) && AllClean(es)
    requires var t := Run(s, es); t.phase == Mirroring && !t.replaced && t.own == Settle(Some(Format(t.list)))
    ensures var t := Run(s, es);
            Survives(Next(Next(t, ShowUser(o1)), Echo(o2))) <==>
              !(o1 == ReplacedUnsynced && Visible(o2) && Other(t.user.view, t.list))
  {
    hide Run, Next, FromText, Plain, Format, Exposed, Survives, UserList;
    ShownSurvivesIff(s, es, o1, o2);
    RunKeeps(s, es);
    var t := Run(s, es);
    SurvivesIff(t);
    ExposedIff(t);
    CleanSole(t);
  }

  lemma CleanSole(t: State)
    requires Inv(t) && t.phase == Mirroring && !t.replaced
    ensures !Unrecorded(t, t.list) && (Stale(t) <==> Other(t.user.view, t.list))
  {
    hide FromText, Plain;
  }

  /** After a clean run: a list is saved and shown, its record is written with
      outcome `o2`, the next list `l3` is saved and showing it fails. `l3` survives
      exactly if the record was confirmed or was not needed. */
  lemma NextCommitSurvivesIff(s: State, es: seq<Event>, o2: Outcome, l3: List)
    requires Init(s) && AllClean(es) && Sound(l3)
    requires var t := Run(s, es); t.phase == Mirroring && !t.replaced
    ensures var t := Run(s, es);
            var t4 := Next(Next(Next(Next(t, ShowUser(Durable)), Echo(o2)), Commit(l3, Durable)), ShowUser(Unchanged));
            && !t4.replaced && t4.list == Normalized(l3) && t4.own == Settle(Some(Format(t4.list)))
            && (Survives(t4) <==>
                  o2 == Durable || Normalized(l3) == t.list || t.last.view == Some(Format(t.list)))
  {
    hide Run, FromText, Plain, Format, Exposed, Survives, UserList, OwnRead, OwnList, Normalized;
    RunKeeps(s, es);
    var t := Run(s, es);
    var t2 := Next(Next(t, ShowUser(Durable)), Echo(o2));
    var t4 := Next(Next(t2, Commit(l3, Durable)), ShowUser(Unchanged));
    NormalizedPlain(l3);
    FormatNormalized(l3);
    PlainPrints(t.list);
    SurvivesIff(t4);
    ExposedIff(t4);
    var f := Some(Format(t.list));
    assert t4.user.crash == {f} && t4.last.crash == Written(t.last, Format(t.list), o2).crash;
    assert Other(f, t4.list) <==> t4.list != t.list;
    assert t.last.view in t.last.crash;
    if o2 != Durable && t.last.view != f && t4.list != t.list {
      assert t.last.view in t4.last.crash;
    }
  }

  /** A run in which it happens, without a power loss: the copy of `l2` shows, its
      record fails, and the copy of `l3` fails. */
  lemma LostRecordUndoesCommit(l1: List, l2: List, l3: List)
    requires Plain(l1) && Plain(l2) && Plain(l3) && l2 != l3 && l1 != l2
    ensures var f1 := Settle(Some(Format(l1)));
            var s := State(f1, f1, f1, l1, false, Idle);
            var t := Run(s, [Commit(l2, Durable), ShowUser(Durable), Echo(Unchanged),
                             Commit(l3, Durable), ShowUser(Unchanged), Restart]);
            !t.replaced && t.own == Settle(Some(Format(l3))) && t.list == l3 &&
            StartList(t.own.view, t.user.view, t.last.view) == l2
  {
    hide FromText, Format, Run, StartList, Sound, Loaded, Choose, UserList;
    var f1, f2, f3 := Settle(Some(Format(l1))), Settle(Some(Format(l2))), Settle(Some(Format(l3)));
    var s := State(f1, f1, f1, l1, false, Idle);
    var es := [Commit(l2, Durable), ShowUser(Durable), Echo(Unchanged),
               Commit(l3, Durable), ShowUser(Unchanged), Restart];
    RunSix(s, es);
    var s1 := Next(s, es[0]);
    assert s1 == State(f2, f1, f1, l2, false, Mirroring);
    var s3 := Next(Next(s1, es[1]), es[2]);
    assert s3 == State(f2, f2, f1, l2, false, Idle);
    var s4 := Next(s3, es[3]);
    assert s4 == State(f3, f2, f1, l3, false, Mirroring);
    assert Next(Next(s4, es[4]), es[5]) == State(f3, f2, f1, l3, false, Booting);
    OlderComesBack(l1, l2, l3);
  }

  lemma OlderComesBack(l1: List, l2: List, l3: List)
    requires Plain(l1) && Plain(l2) && l1 != l2
    ensures StartList(Some(Format(l3)), Some(Format(l2)), Some(Format(l1))) == l2
  {
    PlainPrints(l1);
    PlainPrints(l2);
    hide FromText, Format;
  }

  lemma RunSix(s: State, es: seq<Event>)
    requires |es| == 6
    ensures Run(s, es) == Next(Next(Next(Next(Next(Next(s, es[0]), es[1]), es[2]), es[3]), es[4]), es[5])
  {
    hide Next;
    assert es[..5][..4] == es[..4] && es[..4][..3] == es[..3] && es[..3][..2] == es[..2];
    assert es[..2][..1] == es[..1] && es[..1][..0] == [];
    assert Run(s, es[..1]) == Next(s, es[0]);
    assert Run(s, es[..2]) == Next(Run(s, es[..1]), es[1]);
    assert Run(s, es[..3]) == Next(Run(s, es[..2]), es[2]);
    assert Run(s, es[..4]) == Next(Run(s, es[..3]), es[3]);
    assert Run(s, es[..5]) == Next(Run(s, es[..4]), es[4]);
  }

  // ---- The handler ---------------------------------------------------------------------

  lemma RunAppend(s: State, es: seq<Event>, e: Event)
    ensures Run(s, es + [e]) == Next(Run(s, es), e)
  {
    hide Next;
    assert (es + [e])[..|es|] == es;
  }

  /** Each method returns the steps it performed, so whatever holds after every
      run holds at each of its crash points. */
  class Handler {
    var own: File<string>
    var user: File<string>
    var last: File<string>
    var list: List
    ghost var replaced: bool
    ghost var phase: Phase

    ghost function Abs(): State
      reads this
    {
      State(own, user, last, list, replaced, phase)
    }

    constructor (o: File<string>, u: File<string>, l: File<string>)
      ensures Abs() == State(o, u, l, Empty(), u.view != l.view, Booting)
    {
      own, user, last, list := o, u, l, Empty();
      replaced, phase := u.view != l.view, Booting;
    }

    ghost method Do(s: State, es: seq<Event>, e: Event) returns (r: seq<Event>)
      requires Abs() == Next(Run(s, es), e)
      ensures r == es + [e] && Abs() == Run(s, r)
    {
      RunAppend(s, es, e);
      r := es + [e];
    }

    /** iplist_write_user: the list in effect into the customer's file and, once
        it shows there, the same bytes into the record. */
    method WriteUser(o1: Outcome, o2: Outcome, ghost s: State, ghost es: seq<Event>)
      returns (rc: bool, ghost trace: seq<Event>)
      requires phase == Mirroring && Abs() == Run(s, es)
      modifies this
      ensures phase == Idle && list == old(list) && own == old(own) && Abs() == Run(s, trace)
      ensures rc == (o1 == Durable)
    {
      hide Run, FormatFrom;
      var text := FormatText(list);
      if o1 == Unchanged {
        phase := Idle;
        trace := Do(s, es, ShowUser(o1));
      } else {
        user := Written(user, text, o1);
        replaced, phase := false, Echoing;
        trace := Do(s, es, ShowUser(o1));
        last := Written(last, text, o2);
        phase := Idle;
        trace := Do(s, trace, Echo(o2));
      }
      return o1 == Durable, trace;
    }

    /** opcd_iplist_load, with the outcomes of the writes it may make. */
    method Start(renamed: bool, o1: Outcome, o2: Outcome) returns (choice: Choice, ghost trace: seq<Event>)
      requires phase == Booting
      modifies this
      ensures phase == Idle && Abs() == Run(old(Abs()), trace)
      ensures choice == Choose(old(own).view, old(user).view, old(last).view)
      ensures list == StartList(old(own).view, old(user).view, old(last).view)
    {
      hide Run, FromText, FormatFrom;
      ghost var s := Abs();
      trace := [];
      RunNothing(s);
      var loaded: List := Empty();
      if own.view.Some? && |own.view.value| <= TEXT_MAX {
        var parsed := ParseList(own.view.value, false);
        LenientReads(own.view.value);
        loaded := parsed.value;
      }
      var theirs: Option<List> := None;
      if user.view.Some? && |user.view.value| <= IMPORT_MAX {
        theirs := ParseList(user.view.value, true);
      }
      choice := Choose(own.view, user.view, last.view);
      trace := Decide(choice, loaded, theirs, renamed, s);
      if choice == UserApplied {
        trace := Adopt(user.view.value, o1, o2, s, trace);
      } else if choice != UserKept || theirs != Some(loaded) {
        var rc: bool;
        rc, trace := WriteUser(o1, o2, s, trace);
      }
    }

    /** The choice, and a rejected file renamed away. */
    method Decide(choice: Choice, loaded: List, theirs: Option<List>, renamed: bool, ghost s: State)
      returns (ghost trace: seq<Event>)
      requires phase == Booting && Abs() == s && choice == Choose(own.view, user.view, last.view)
      requires loaded == OwnList(own.view) && theirs == UserList(user.view)
      modifies this
      ensures Abs() == Loaded(s, renamed) && Abs() == Run(s, trace)
    {
      hide Run, FromText, FormatFrom;
      RunNothing(s);
      match choice {
        case UserCreated => list, phase := loaded, Mirroring;
        case UserRejected =>
          list, phase := loaded, Mirroring;
          if renamed { user := Unlinked(user); }
        case UserKept =>
          list := loaded;
          phase := if theirs == Some(loaded) then Idle else Mirroring;
        case UserApplied =>
          list := theirs.value;
          var text := FormatText(list);
          phase := if own.view == Some(text) then Recording(user.view.value) else Saving(user.view.value);
      }
      trace := Do(s, [], Load(renamed));
    }

    /** Save the customer's list as opcd's own, then record the customer's bytes. */
    method Adopt(text: string, o1: Outcome, o2: Outcome, ghost s: State, ghost es: seq<Event>)
      returns (ghost trace: seq<Event>)
      requires phase == Saving(text) || (phase == Recording(text) && own.view == Some(Format(list)))
      requires Abs() == Run(s, es)
      requires phase == Saving(text) <==> own.view != Some(Format(list))
      modifies this
      ensures phase == Idle && list == old(list) && Abs() == Run(s, trace)
    {
      hide Run, FormatFrom;
      trace := es;
      var mine := FormatText(list);
      var saved := own.view == Some(mine);
      if !saved {
        own := Written(own, mine, o1);
        saved := o1 == Durable;
        phase := if saved then Recording(text) else Idle;
        trace := Do(s, trace, Save(o1));
      }
      if saved {
        last := Written(last, text, o2);
        replaced, phase := replaced && user.view != Some(text), Idle;
        trace := Do(s, trace, Record(o2));
      }
    }
  }

  lemma RunNothing(s: State)
    ensures Run(s, []) == s
  {
  }

  lemma LenientReads(s: string)
    ensures FromText(s, false).Some?
  {
    hide ReadText, Collected;
  }
}
