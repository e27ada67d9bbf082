/** The volatile SSID change (opcd/essid_marker.c and its use in
    opcd/platform_nxp.c): the original token is recorded in a marker before the
    helper edits the wpa_supplicant configuration, and put back at the next boot.
    The configuration is seen through its `ssid=` token; EssidText shows that an
    edit changes nothing else. */
module EssidChain {
  import opened Common
  import opened Store
  import opened EssidMarker

  /** A replacement that failed before the rename, or one that went through;
      whether the directory was synced is not reported to the caller. The helper
      can also be stopped between its rename and its directory sync. */
  datatype Writing = NotWritten | Done(synced: bool)

  function Write<T(==)>(f: File<T>, v: T, w: Writing): File<T> {
    match w
    case NotWritten => f
    case Done(synced) => Written(f, v, if synced then Durable else ReplacedUnsynced)
  }

  /** `Applying`: armed, the helper is at work; `pre` is the token it found.
      `Booting` and `Unlinking` are the two halves of the restore. */
  datatype Phase = Ready | Applying(pre: string, target: string) | Booting | Unlinking

  datatype State = State(conf: File<string>, marker: File<Marker>, phase: Phase)

  datatype Event =
    | Arm(ssid: seq<nat>, slot: nat, time: nat, writing: Writing)
    | Install(token: string, writing: Writing)
    | Rollback(writing: Writing)
    | Finish(ok: bool, writing: Writing, unlinked: bool)
    | Restart
    | PowerLoss(markerLeft: Option<Marker>, confLeft: Option<string>)
    | Restore(writing: Writing, unlinked: bool)
    | Unlink(unlinked: bool)

  predicate Usable(token: string) {
    0 < |token| < TOKEN_MAX
  }

  predicate Bytes(ssid: seq<nat>) {
    forall i :: 0 <= i < |ssid| ==> ssid[i] < 256
  }

  /** The token is one this chain wrote: the committed one, or the one requested. */
  predicate Owned(m: Marker, token: string) {
    (m.applied != "" && token == m.applied) || Denotes(token, m.target)
  }

  /** The marker opc_essid_marker_arm writes over `was`. */
  function Armed(was: Option<Marker>, cur: string, target: string, slot: nat, time: nat): Marker {
    if was.Some? && Owned(was.value, cur) then Marker(was.value.essid, cur, target, slot, time)
    else Marker(cur, "", target, slot, time)
  }

  datatype Settling = Remove | Rewrite(marker: Marker)

  /** opc_essid_marker_settle, on the token the failed helper left. */
  function Settle(m: Marker, cur: string): Settling {
    var pre := if m.applied != "" then m.applied else m.essid;
    if cur == pre then (if m.applied == "" then Remove else Rewrite(m.(target := "")))
    else if Denotes(cur, m.target) then Rewrite(m.(applied := cur))
    else if m.applied == "" then Remove
    else Rewrite(m.(target := ""))
  }

  /** commit after a successful helper, settle after a failed one. */
  function Ending(m: Marker, cur: string, ok: bool): Settling {
    if ok then Rewrite(m.(applied := cur)) else Settle(m, cur)
  }

  datatype Verdict = Original | Ours | Foreign

  /** What opc_essid_marker_restore makes of the token it finds. */
  function Judge(m: Marker, cur: string): Verdict {
    if cur == m.essid then Original else if Owned(m, cur) then Ours else Foreign
  }

  function Dropped(f: File<Marker>, unlinked: bool): File<Marker> {
    if unlinked then Unlinked(f) else f
  }

  /** The marker an Arm step writes, if it gets that far. */
  function Arms(s: State, e: Event): (m: Option<Marker>)
    requires e.Arm?
    ensures m.Some? ==> s.conf.view.Some?
  {
    if s.phase != Ready || s.conf.view.None? || !Usable(s.conf.view.value) then None
    else if e.ssid == [] || !Bytes(e.ssid) || 2 * |e.ssid| >= TOKEN_MAX || e.writing.NotWritten? then None
    else Some(Armed(s.marker.view, s.conf.view.value, Hex(e.ssid), e.slot, e.time))
  }

  function Next(s: State, e: Event): State {
    match e
    case Arm(ssid, _, _, w) =>
      if Arms(s, e).None? then s
      else s.(marker := Write(s.marker, Arms(s, e).value, w), phase := Applying(s.conf.view.value, Hex(ssid)))
    case Install(token, w) =>
      if s.phase.Applying? && Denotes(token, s.phase.target) && Usable(token)
      then s.(conf := Write(s.conf, token, w))
      else s
    case Rollback(w) =>
      if s.phase.Applying? then s.(conf := Write(s.conf, s.phase.pre, w)) else s
    case Finish(ok, w, unlinked) =>
      if !s.phase.Applying? then s
      else if s.marker.view.None? || s.conf.view.None? then s.(phase := Ready)
      else
        var m, cur := s.marker.view.value, s.conf.view.value;
        (match Ending(m, cur, ok)
         case Remove => s.(marker := Dropped(s.marker, unlinked), phase := Ready)
         case Rewrite(m') => s.(marker := Write(s.marker, m', w), phase := Ready))
    case Restart => if s.phase.Applying? then s.(phase := Ready) else s
    case PowerLoss(m, f) =>
      if m in s.marker.crash && f in s.conf.crash then State(File(f, {f}), File(m, {m}), Booting) else s
    case Restore(w, unlinked) =>
      if s.phase != Booting then s
      else if s.marker.view.None? || s.conf.view.None? then s.(phase := Ready)
      else (match Judge(s.marker.view.value, s.conf.view.value)
            case Original => s.(marker := Dropped(s.marker, unlinked), phase := Ready)
            case Foreign => s.(marker := Dropped(s.marker, unlinked), phase := Ready)
            case Ours =>
              if w.NotWritten? then s.(phase := Ready)
              else s.(conf := Write(s.conf, s.marker.view.value.essid, w), phase := Unlinking))
    case Unlink(unlinked) =>
      if s.phase == Unlinking then s.(marker := Dropped(s.marker, unlinked), phase := Ready) else s
  }

  function Run(s: State, es: seq<Event>): State {
    if es == [] then s else Next(Run(s, es[..|es| - 1]), es[|es| - 1])
  }

  // ---- The chain keeps its original -------------------------------------------------

  /** From marker `m` and token `f` a boot brings back `original`. */
  ghost predicate Safe(original: string, m: Option<Marker>, f: Option<string>) {
    && f.Some?
    && (m.None? ==> f.value == original)
    && (m.Some? ==> m.value.essid == original && (f.value == original || Owned(m.value, f.value)))
  }

  ghost predicate AllSafe(original: string, s: State) {
    && s.marker.view in s.marker.crash && s.conf.view.Some? && s.conf == File(s.conf.view, {s.conf.view})
    && (forall m :: m in s.marker.crash ==> Safe(original, m, s.conf.view))
  }

  ghost predicate Phased(original: string, s: State) {
    match s.phase
    case Applying(pre, target) =>
      && s.marker.view.Some? && s.marker == File(s.marker.view, {s.marker.view})
      && (var k := s.marker.view.value;
          && k.target == target && target != ""
          && pre == (if k.applied != "" then k.applied else k.essid)
          && (s.conf.view == Some(pre) || (s.conf.view.Some? && Denotes(s.conf.view.value, target))))
    case Unlinking => s.conf.view == Some(original)
    case _ => true
  }

  ghost predicate Inv(original: string, s: State) {
    AllSafe(original, s) && Phased(original, s)
  }

  /** Arm, the helper's writes and the restore sync the directory of what they
      replace. */
  predicate Trusted(e: Event) {
    match e
    case Arm(_, _, _, w) => w != Done(false)
    case Install(_, w) => w != Done(false)
    case Rollback(w) => w != Done(false)
    case Restore(w, _) => w != Done(false)
    case _ => true
  }

  lemma ArmKeeps(original: string, s: State, e: Event)
    requires Inv(original, s) && e.Arm? && Trusted(e)
    ensures Inv(original, Next(s, e))
  {
    hide Denotes, Hex;
    if s.phase == Ready && e.ssid != [] && Bytes(e.ssid) {
      HexRoundTrip(e.ssid);
    }
  }

  lemma FinishKeeps(original: string, s: State, e: Event)
    requires Inv(original, s) && e.Finish?
    ensures Inv(original, Next(s, e))
  {
    hide Denotes, Hex;
    NoTarget();
  }

  lemma NoTarget()
    ensures forall t :: !Denotes(t, "")
  {
  }

  lemma NextKeeps(original: string, s: State, e: Event)
    requires Inv(original, s) && Trusted(e)
    ensures Inv(original, Next(s, e))
  {
    hide Denotes, Hex;
    if e.Arm? {
      ArmKeeps(original, s, e);
    } else if e.Finish? {
      FinishKeeps(original, s, e);
    }
  }

  /** A configured device: no marker, and `original` in the configuration. */
  ghost predicate Init(original: string, s: State) {
    s == State(File(Some(original), {Some(original)}), File(None, {None}), Ready)
  }

  ghost predicate AllTrusted(es: seq<Event>) {
    forall i :: 0 <= i < |es| ==> Trusted(es[i])
  }

  lemma {:induction false} RunKeeps(original: string, s: State, es: seq<Event>)
    requires Init(original, s) && AllTrusted(es)
    ensures Inv(original, Run(s, es))
  {
    if es != [] {
      RunKeeps(original, s, es[..|es| - 1]);
      NextKeeps(original, Run(s, es[..|es| - 1]), es[|es| - 1]);
    }
  }

  /** The boot: restore, and the unlink that ends it. */
  function Boot(s: State, m: Option<Marker>, f: Option<string>): State {
    Next(Next(Next(s, PowerLoss(m, f)), Restore(Done(true), true)), Unlink(true))
  }

  // ---- Every run, whatever its writes do ---------------------------------------------

  /** Every state a power loss may leave is one the boot recovers from. */
  ghost predicate Recoverable(original: string, s: State) {
    forall m, f :: m in s.marker.crash && f in s.conf.crash ==> Boot(s, m, f).conf.view == Some(original)
  }

  /** Neither the original nor a token that `m` identifies as the chain's own. */
  predicate Loses(original: string, m: Option<Marker>, f: Option<string>) {
    f.Some? && f.value != original && (m.None? || !Owned(m.value, f.value))
  }

  /** A marker put in place of the others while the configuration may still be
      left with a token it does not identify. */
  ghost predicate Uncovers(original: string, m: Option<Marker>, conf: File<string>) {
    exists f :: f in conf.crash && Loses(original, m, f)
  }

  /** The steps that put the original at risk: installing a token that some marker
      a power loss may leave does not identify, and writing or removing a marker
      while a power loss may leave a token the new one does not identify. */
  ghost predicate Endangers(original: string, s: State, e: Event) {
    match e
    case Arm(_, _, _, _) => Arms(s, e).Some? && Uncovers(original, Arms(s, e), s.conf)
    case Install(token, w) =>
      && s.phase.Applying? && Denotes(token, s.phase.target) && Usable(token) && w.Done?
      && exists m :: m in s.marker.crash && Loses(original, m, Some(token))
    case Finish(ok, w, unlinked) =>
      && s.phase.Applying? && s.marker.view.Some? && s.conf.view.Some?
      && (match Ending(s.marker.view.value, s.conf.view.value, ok)
          case Remove => unlinked && Uncovers(original, None, s.conf)
          case Rewrite(m) => w.Done? && Uncovers(original, Some(m), s.conf))
    case Unlink(unlinked) => s.phase == Unlinking && unlinked && Uncovers(original, None, s.conf)
    case _ => false
  }

  /** In every run, whoever endangered it, the marker in place while the helper is
      at work is the one armed for it, and the token is the one it found or the
      one requested. */
  ghost predicate Working(s: State) {
    && s.marker.view in s.marker.crash && s.conf.view in s.conf.crash
    && (forall f :: f in s.conf.crash ==> f.Some?)
    && (s.phase.Applying? ==>
          && s.marker.view.Some?
          && (var k, cur := s.marker.view.value, s.conf.view.value;
              && k.target == s.phase.target && k.target != ""
              && s.phase.pre == (if k.applied != "" then k.applied else k.essid)
              && (cur == s.phase.pre || Denotes(cur, k.target))))
  }

  lemma WorkingStep(s: State, e: Event)
    requires Working(s)
    ensures Working(Next(s, e))
  {
    hide Denotes, Hex;
    if e.Arm? && e.ssid != [] && Bytes(e.ssid) {
      HexRoundTrip(e.ssid);
    }
  }

  ghost predicate Whole(original: string, s: State) {
    forall m :: m in s.marker.crash && m.Some? ==> m.value.essid == original
  }

  ghost predicate Kept(original: string, s: State) {
    forall m, f :: m in s.marker.crash && f in s.conf.crash ==> !Loses(original, m, f)
  }

  ghost predicate Held(original: string, s: State) {
    && Working(s) && Whole(original, s) && Kept(original, s)
    && (s.phase.Applying? ==> forall m :: m in s.marker.crash ==> !Loses(original, m, Some(s.phase.pre)))
    && (s.phase == Booting ==> s.marker.crash == {s.marker.view} && s.conf.crash == {s.conf.view})
  }

  lemma BootRestores(original: string, s: State, m: Option<Marker>, f: Option<string>)
    requires m in s.marker.crash && f in s.conf.crash && f.Some? && Whole(original, s)
    ensures Boot(s, m, f).conf.view == Some(original) <==> !Loses(original, m, f)
    ensures !Loses(original, m, f) ==> Boot(s, m, f).marker.view.None? && Boot(s, m, f).phase == Ready
  {
    hide Denotes;
  }

  lemma RecoverableIff(original: string, s: State)
    requires Working(s) && Whole(original, s)
    ensures Recoverable(original, s) <==> Kept(original, s)
  {
    hide Boot, Loses;
    forall m, f | m in s.marker.crash && f in s.conf.crash
      ensures Boot(s, m, f).conf.view == Some(original) <==> !Loses(original, m, f)
    {
      BootRestores(original, s, m, f);
    }
  }

  /** The marker arming writes carries the original and covers the token found. */
  lemma ArmedCovers(original: string, was: Option<Marker>, cur: string, target: string, slot: nat, time: nat)
    requires cur != "" && !Loses(original, was, Some(cur)) && (was.Some? ==> was.value.essid == original)
    ensures var m := Armed(was, cur, target, slot, time);
            m.essid == original && !Loses(original, Some(m), Some(cur))
  {
    hide Denotes;
  }

  /** The marker files after `m` was put in place of the others. */
  lemma MarkerStep(original: string, s: State, t: State, m: Option<Marker>)
    requires Whole(original, s) && Kept(original, s) && t.conf == s.conf && (m.Some? ==> m.value.essid == original)
    requires m in t.marker.crash && t.marker.crash <= s.marker.crash + {m}
    ensures Whole(original, t) && (Kept(original, t) <==> !Uncovers(original, m, s.conf))
  {
    hide Loses;
  }

  /** The configuration after `token` was put into it. */
  lemma ConfStep(original: string, s: State, t: State, token: string)
    requires Whole(original, s) && Kept(original, s) && t.marker == s.marker
    requires Some(token) in t.conf.crash && t.conf.crash <= s.conf.crash + {Some(token)}
    ensures Whole(original, t)
    ensures Kept(original, t) <==> forall m :: m in s.marker.crash ==> !Loses(original, m, Some(token))
  {
    hide Loses;
  }

  lemma ArmStep(original: string, s: State, e: Event)
    requires Held(original, s) && e.Arm?
    ensures var t := Next(s, e);
            && Whole(original, t) && (Kept(original, t) <==> !Endangers(original, s, e))
            && (Kept(original, t) ==> Held(original, t))
  {
    hide Denotes, Hex, Owned, Loses, Uncovers, Armed, Whole;
    WorkingStep(s, e);
    var t, m := Next(s, e), Arms(s, e);
    if m.Some? {
      assert s.marker.view.Some? ==> s.marker.view.value.essid == original by { WholeView(original, s); }
      ArmedCovers(original, s.marker.view, s.conf.view.value, Hex(e.ssid), e.slot, e.time);
      MarkerStep(original, s, t, m);
      assert forall k :: k in t.marker.crash ==> k in s.marker.crash || k == m;
    }
  }

  lemma WholeView(original: string, s: State)
    requires Whole(original, s) && Working(s)
    ensures s.marker.view.Some? ==> s.marker.view.value.essid == original
  {
  }

  lemma InstallStep(original: string, s: State, e: Event)
    requires Held(original, s) && e.Install?
    ensures var t := Next(s, e);
            && Whole(original, t) && (Kept(original, t) <==> !Endangers(original, s, e))
            && (Kept(original, t) ==> Held(original, t))
  {
    hide Denotes, Loses, Whole, Kept;
    WorkingStep(s, e);
    var t := Next(s, e);
    if s.phase.Applying? && Denotes(e.token, s.phase.target) && Usable(e.token) && e.writing.Done? {
      ConfStep(original, s, t, e.token);
    }
  }

  lemma RollbackStep(original: string, s: State, e: Event)
    requires Held(original, s) && e.Rollback?
    ensures Held(original, Next(s, e))
  {
    hide Denotes, Loses, Whole, Kept;
    WorkingStep(s, e);
    if s.phase.Applying? && e.writing.Done? {
      ConfStep(original, s, Next(s, e), s.phase.pre);
    }
  }

  lemma FinishStep(original: string, s: State, e: Event)
    requires Held(original, s) && e.Finish?
    ensures var t := Next(s, e);
            && Whole(original, t) && (Kept(original, t) <==> !Endangers(original, s, e))
            && (Kept(original, t) ==> Held(original, t))
  {
    hide Denotes, Loses, Whole, Kept, Uncovers;
    WorkingStep(s, e);
    WholeView(original, s);
    var t := Next(s, e);
    if s.phase.Applying? {
      match Ending(s.marker.view.value, s.conf.view.value, e.ok)
      case Remove => if e.unlinked { MarkerStep(original, s, t, None); } else { SameFiles(original, s, t); }
      case Rewrite(m) =>
        if e.writing.Done? { MarkerStep(original, s, t, Some(m)); } else { SameFiles(original, s, t); }
    }
  }

  lemma SameFiles(original: string, s: State, t: State)
    requires Whole(original, s) && Kept(original, s) && t.conf == s.conf && t.marker == s.marker
    ensures Whole(original, t) && Kept(original, t)
  {
  }

  lemma UnlinkStep(original: string, s: State, e: Event)
    requires Held(original, s) && e.Unlink?
    ensures var t := Next(s, e);
            && Whole(original, t) && (Kept(original, t) <==> !Endangers(original, s, e))
            && (Kept(original, t) ==> Held(original, t))
  {
    hide Denotes, Loses, Whole, Kept, Uncovers;
    WorkingStep(s, e);
    var t := Next(s, e);
    if s.phase == Unlinking && e.unlinked {
      MarkerStep(original, s, t, None);
    } else {
      SameFiles(original, s, t);
    }
  }

  lemma RestoreStep(original: string, s: State, e: Event)
    requires Held(original, s) && e.Restore?
    ensures Held(original, Next(s, e))
  {
    hide Denotes;
    WorkingStep(s, e);
  }

  lemma PowerLossStep(original: string, s: State, e: Event)
    requires Held(original, s) && (e.PowerLoss? || e.Restart?)
    ensures Held(original, Next(s, e))
  {
    hide Denotes, Loses;
    WorkingStep(s, e);
  }

  /** From a state the boot recovers from, a step leads to one it does not recover
      from exactly if it is one of those that endanger. */
  lemma RecoverableStep(original: string, s: State, e: Event)
    requires Held(original, s)
    ensures Recoverable(original, Next(s, e)) <==> !Endangers(original, s, e)
    ensures Recoverable(original, Next(s, e)) ==> Held(original, Next(s, e))
  {
    hide Denotes, Loses, Next, Working, Recoverable, Kept, Whole;
    match e {
      case Arm(_, _, _, _) => ArmStep(original, s, e);
      case Install(_, _) => InstallStep(original, s, e);
      case Rollback(_) => RollbackStep(original, s, e);
      case Finish(_, _, _) => FinishStep(original, s, e);
      case Restore(_, _) => RestoreStep(original, s, e);
      case Unlink(_) => UnlinkStep(original, s, e);
      case Restart => PowerLossStep(original, s, e);
      case PowerLoss(_, _) => PowerLossStep(original, s, e);
    }
    WorkingStep(s, e);
    RecoverableIff(original, Next(s, e));
  }

  /** Every crash point of the run is one the boot recovers from. */
  ghost predicate AllRecoverable(original: string, s: State, es: seq<Event>) {
    forall k :: 0 <= k <= |es| ==> Recoverable(original, Run(s, es[..k]))
  }

  ghost predicate NoneEndangers(original: string, s: State, es: seq<Event>) {
    forall k :: 0 <= k < |es| ==> !Endangers(original, Run(s, es[..k]), es[k])
  }

  lemma Prefixes(original: string, s: State, es: seq<Event>)
    requires es != []
    ensures var p := es[..|es| - 1];
            && Run(s, es) == Next(Run(s, p), es[|es| - 1])
            && (AllRecoverable(original, s, es) <==>
                  AllRecoverable(original, s, p) && Recoverable(original, Run(s, es)))
            && (NoneEndangers(original, s, es) <==>
                  NoneEndangers(original, s, p) && !Endangers(original, Run(s, p), es[|es| - 1]))
  {
    hide Next, Recoverable, Endangers;
    var p := es[..|es| - 1];
    assert forall k :: 0 <= k <= |p| ==> es[..k] == p[..k];
    assert es[..|es|] == es && p[..|p|] == p;
  }

  /** For every run of changes, failures, crashes and restores, whatever its writes
      do: the boot brings the first original back from every crash point exactly if
      the run takes none of the endangering steps. */
  lemma {:induction false} RestoredIff(original: string, s: State, es: seq<Event>)
    requires Init(original, s)
    ensures AllRecoverable(original, s, es) <==> NoneEndangers(original, s, es)
    ensures AllRecoverable(original, s, es) ==> Held(original, Run(s, es))
  {
    hide Held, Recoverable, Endangers, Next, Init;
    if es == [] {
      InitHeld(original, s);
      assert es[..0] == es;
    } else {
      var p := es[..|es| - 1];
      RestoredIff(original, s, p);
      Prefixes(original, s, es);
      if AllRecoverable(original, s, p) {
        RecoverableStep(original, Run(s, p), es[|es| - 1]);
      }
    }
  }

  lemma InitHeld(original: string, s: State)
    requires Init(original, s)
    ensures Held(original, s) && Recoverable(original, s)
  {
    hide Denotes, Boot;
    RecoverableIff(original, s);
  }

  /** A trusted run takes no endangering step. */
  lemma {:induction false} TrustedIsSafe(original: string, s: State, es: seq<Event>)
    requires Init(original, s) && AllTrusted(es)
    ensures NoneEndangers(original, s, es)
  {
    hide Inv, Endangers, Next, Init, Trusted;
    if es != [] {
      var p := es[..|es| - 1];
      TrustedIsSafe(original, s, p);
      RunKeeps(original, s, p);
      NextKeeps(original, Run(s, p), es[|es| - 1]);
      TrustedStep(original, Run(s, p), es[|es| - 1]);
      Prefixes(original, s, es);
    }
  }

  lemma TrustedStep(original: string, s: State, e: Event)
    requires Inv(original, s) && Trusted(e) && Inv(original, Next(s, e))
    ensures !Endangers(original, s, e)
  {
    hide Denotes, Hex;
  }

  /** Cut the power at any point of any run without an endangering step: whatever
      files are left, the next boot puts the first original back and removes the
      marker. */
  lemma BootRestoresOriginal(original: string, s: State, es: seq<Event>, m: Option<Marker>, f: Option<string>)
    requires Init(original, s) && NoneEndangers(original, s, es)
    requires m in Run(s, es).marker.crash && f in Run(s, es).conf.crash
    ensures var t := Boot(Run(s, es), m, f);
            t.conf.view == Some(original) && t.marker.view.None? && t.phase == Ready
  {
    hide Denotes, Hex, Run, Endangers, Boot, Loses;
    RestoredIff(original, s, es);
    BootRestores(original, Run(s, es), m, f);
  }

  lemma {:induction false} RunWorks(original: string, s: State, es: seq<Event>)
    requires Init(original, s)
    ensures Working(Run(s, es))
  {
    hide Next, Working;
    if es == [] {
      InitHeld(original, s);
    } else {
      RunWorks(original, s, es[..|es| - 1]);
      WorkingStep(Run(s, es[..|es| - 1]), es[|es| - 1]);
    }
  }

  /** While the helper is the only writer, settle never takes the token for
      somebody else's, and neither does the restore unless a step endangered the
      run. */
  lemma NeverForeign(original: string, s: State, es: seq<Event>)
    requires Init(original, s) && Run(s, es).marker.view.Some?
    ensures var t := Run(s, es);
            && t.conf.view.Some?
            && (NoneEndangers(original, s, es) ==> Judge(t.marker.view.value, t.conf.view.value) != Foreign)
            && (t.phase.Applying? ==>
                  var k, cur := t.marker.view.value, t.conf.view.value;
                  cur == (if k.applied != "" then k.applied else k.essid) || Denotes(cur, k.target))
  {
    hide Denotes, Hex, Run, Endangers;
    RunWorks(original, s, es);
    RestoredIff(original, s, es);
  }

  // ---- Other writers -----------------------------------------------------------------

  /** A restore changes the configuration exactly when the token is the chain's
      own and not the original already; any other value is left alone. */
  lemma RestoreTouchesOnlyOwn(s: State)
    requires s.phase == Booting && s.marker.view.Some? && s.conf.view.Some?
    ensures var k, cur := s.marker.view.value, s.conf.view.value;
            && (Next(s, Restore(Done(true), true)).conf != s.conf ==>
                  Owned(k, cur) && cur != k.essid)
            && (Owned(k, cur) && cur != k.essid ==>
                  Next(s, Restore(Done(true), true)).conf.view == Some(k.essid))
  {
    hide Denotes;
  }

  // ---- The directory syncs that decide it -----------------------------------------------

  lemma TrustedHeld(original: string, s: State, es: seq<Event>)
    requires Init(original, s) && AllTrusted(es)
    ensures var t := Run(s, es); Held(original, t) && Inv(original, t)
  {
    hide Held, Inv, Endangers, Next, Init, Trusted;
    TrustedIsSafe(original, s, es);
    RestoredIff(original, s, es);
    RunKeeps(original, s, es);
  }

  /** Arm does not report a failed directory sync. Once the helper has installed a
      token, the original is safe exactly when that sync succeeded or every marker
      that may be left identified the token already. */
  lemma ArmNeedsItsSync(original: string, s: State, es: seq<Event>, arm: Event, install: Event)
    requires Init(original, s) && AllTrusted(es)
    requires arm.Arm? && arm.writing.Done? && Arms(Run(s, es), arm).Some?
    requires install.Install? && install.writing.Done? && Usable(install.token)
    requires Decoded(install.token) == Some(arm.ssid) && install.token != original
    ensures var t := Run(s, es);
            Recoverable(original, Next(Next(t, arm), install)) <==>
              arm.writing.synced || forall m :: m in t.marker.crash ==> m.Some? && Owned(m.value, install.token)
  {
    hide Denotes, Hex, Decoded, Run, Recoverable;
    TrustedHeld(original, s, es);
    DenotesRequest(install.token, arm.ssid);
    var t, k := Run(s, es), Arms(Run(s, es), arm);
    TrustedArm(original, t, arm);
    var t1 := Next(t, arm);
    RecoverableStep(original, t, arm);
    RecoverableStep(original, t1, install);
    assert t1.marker.crash == if arm.writing.synced then {k} else t.marker.crash + {k};
    assert !Loses(original, k, Some(install.token));
    if !arm.writing.synced {
      assert forall m :: m in t.marker.crash ==> m in t1.marker.crash;
    }
  }

  lemma TrustedArm(original: string, t: State, arm: Event)
    requires Inv(original, t) && Held(original, t) && arm.Arm?
    ensures !Endangers(original, t, arm)
  {
    hide Denotes, Hex;
  }

  /** The helper's install: a token it put in place of an earlier one of the same
      chain, without the directory sync, is not recovered from once the marker
      names the new token only. */
  lemma InstallNeedsItsSync(original: string, s: State, es: seq<Event>, install: Event, finish: Event)
    requires Init(original, s) && AllTrusted(es) && Run(s, es).phase.Applying?
    requires install.Install? && install.writing.Done? && Usable(install.token)
    requires Denotes(install.token, Run(s, es).phase.target)
    requires finish.Finish? && (finish.ok || install.token != Run(s, es).phase.pre)
    ensures var t := Run(s, es);
            && t.conf.view.Some?
            && (var cur := t.conf.view.value;
                Recoverable(original, Next(Next(t, install), finish)) <==>
                  || install.writing.synced || finish.writing.NotWritten?
                  || cur == original || Denotes(cur, t.phase.target))
  {
    hide Denotes, Hex, Run, Recoverable;
    TrustedHeld(original, s, es);
    NoTarget();
    var t := Run(s, es);
    var t1 := Next(t, install);
    RecoverableStep(original, t, install);
    RecoverableStep(original, t1, finish);
    var k := t.marker.view.value;
    assert Ending(k, install.token, finish.ok) == Rewrite(k.(applied := install.token));
    assert t1.conf.crash == {Some(install.token)} + if install.writing.synced then {} else {t.conf.view};
  }

  /** The helper's rollback: the token it took back, without the directory sync, is
      not recovered from once settle has removed or narrowed the marker. */
  lemma RollbackNeedsItsSync(original: string, s: State, es: seq<Event>, synced: bool, w: Writing, unlinked: bool)
    requires Init(original, s) && AllTrusted(es) && Run(s, es).phase.Applying?
    ensures var t := Run(s, es);
            && t.conf.view.Some? && t.marker.view.Some?
            && (var cur := t.conf.view.value;
                Recoverable(original, Next(Next(t, Rollback(Done(synced))), Finish(false, w, unlinked))) <==>
                  || synced || cur == original || cur == t.phase.pre
                  || (if t.marker.view.value.applied == "" then !unlinked else w.NotWritten?))
  {
    hide Denotes, Hex, Run, Recoverable;
    TrustedHeld(original, s, es);
    NoTarget();
    var t := Run(s, es);
    var t1 := Next(t, Rollback(Done(synced)));
    RecoverableStep(original, t, Rollback(Done(synced)));
    RecoverableStep(original, t1, Finish(false, w, unlinked));
    assert t1.conf.crash == {Some(t.phase.pre)} + if synced then {} else {t.conf.view};
  }

  /** The configuration the restore writes before it removes the marker. */
  lemma RestoreNeedsItsSync(original: string, s: State, es: seq<Event>, synced: bool, unlinked: bool)
    requires Init(original, s) && AllTrusted(es)
    requires var t := Run(s, es);
             && t.phase == Booting && t.marker.view.Some? && t.conf.view.Some?
             && Judge(t.marker.view.value, t.conf.view.value) == Ours
    ensures Recoverable(original, Next(Next(Run(s, es), Restore(Done(synced), unlinked)), Unlink(unlinked))) <==>
              synced || !unlinked
  {
    hide Denotes, Hex, Run, Recoverable;
    TrustedHeld(original, s, es);
    var t := Run(s, es);
    var t1 := Next(t, Restore(Done(synced), unlinked));
    RecoverableStep(original, t, Restore(Done(synced), unlinked));
    RecoverableStep(original, t1, Unlink(unlinked));
    assert t1.conf.crash == {Some(original)} + if synced then {} else {t.conf.view};
  }

  /** A run in which it happens: the second change of a chain, whose install is
      stopped before its directory sync. The marker is dropped as foreign and the
      original is gone. */
  lemma SecondInstallLoses(original: string, ssid1: seq<nat>, tok1: string, ssid2: seq<nat>, tok2: string)
    requires ssid1 != [] && Bytes(ssid1) && 2 * |ssid1| < TOKEN_MAX && Usable(tok1) && Decoded(tok1) == Some(ssid1)
    requires ssid2 != [] && Bytes(ssid2) && 2 * |ssid2| < TOKEN_MAX && Usable(tok2) && Decoded(tok2) == Some(ssid2)
    requires Usable(original) && tok1 != original && ssid1 != ssid2
    ensures var s := State(File(Some(original), {Some(original)}), File(None, {None}), Ready);
            var w := Done(true);
            var t := Run(s, [Arm(ssid1, 1, 0, w), Install(tok1, w), Finish(true, w, true),
                             Arm(ssid2, 1, 0, w), Install(tok2, Done(false)), Finish(false, w, true)]);
            && t.marker.view in t.marker.crash && Some(tok1) in t.conf.crash
            && (var u := Boot(t, t.marker.view, Some(tok1));
                u.conf == File(Some(tok1), {Some(tok1)}) && u.marker.view.None? && u.phase == Ready)
  {
    hide Denotes, Hex, Run, Decoded;
    DenotesRequest(tok1, ssid1);
    DenotesRequest(tok1, ssid2);
    DenotesRequest(tok2, ssid2);
    var es := [Arm(ssid1, 1, 0, Done(true)), Install(tok1, Done(true)), Finish(true, Done(true), true),
               Arm(ssid2, 1, 0, Done(true)), Install(tok2, Done(false)), Finish(false, Done(true), true)];
    var s := State(File(Some(original), {Some(original)}), File(None, {None}), Ready);
    RunSix(s, es);
    var m1 := Marker(original, "", Hex(ssid1), 1, 0);
    var m2 := m1.(applied := tok1);
    var m3 := Marker(original, tok1, Hex(ssid2), 1, 0);
    var m4 := m3.(applied := tok2);
    var s1 := Next(s, es[0]);
    assert s1 == State(s.conf, File(Some(m1), {Some(m1)}), Applying(original, Hex(ssid1)));
    var s3 := Next(Next(s1, es[1]), es[2]);
    assert s3 == State(File(Some(tok1), {Some(tok1)}), File(Some(m2), {Some(m2)}), Ready);
    var s4 := Next(s3, es[3]);
    assert s4 == State(s3.conf, File(Some(m3), {Some(m3)}), Applying(tok1, Hex(ssid2)));
    var s6 := Next(Next(s4, es[4]), es[5]);
    assert s6 == State(File(Some(tok2), {Some(tok1), Some(tok2)}), File(Some(m4), {Some(m4)}), Ready);
  }

  lemma RunSix(s: State, es: seq<Event>)
    requires |es| == 6
    ensures Run(s, es) == Next(Next(Next(Next(Next(Next(s, es[0]), es[1]), es[2]), es[3]), es[4]), es[5])
  {
    hide Next;
    assert es[..5][..4] == es[..4] && es[..4][..3] == es[..3] && es[..3][..2] == es[..2];
    assert es[..2][..1] == es[..1] && es[..1][..0] == [];
    assert Run(s, es[..1]) == Next(s, es[0]);
    assert Run(s, es[..2]) == Next(Run(s, es[..1]), es[1]);
    assert Run(s, es[..3]) == Next(Run(s, es[..2]), es[2]);
    assert Run(s, es[..4]) == Next(Run(s, es[..3]), es[3]);
    assert Run(s, es[..5]) == Next(Run(s, es[..4]), es[4]);
  }
}
