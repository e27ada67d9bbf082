/** The marker operations on the two files themselves (opcd/essid_marker.c):
    text scanned, parsed and rewritten, proved to be the steps of EssidChain. */
module EssidFiles {
  import opened Common
  import opened Lines
  import opened EssidText
  import opened EssidMarker
  import opened EssidChain

  /** A failed call, success, or one of the two remarks settle and restore make. */
  datatype Rc = Fault | Zero | One | Two

  /** load_marker on a marker body. */
  method Load(body: string) returns (m: Option<Marker>)
    ensures m == Parse(body)
  {
    hide LineValue;
    if !("essid=" <= body) { return None; }
    var essid := FindLine(body, "essid=", TOKEN_MAX);
    if !essid.Found? { return None; }
    var applied := FindLine(body, "applied=", TOKEN_MAX);
    if applied.Bad? { return None; }
    var target := FindLine(body, "target=", TOKEN_MAX);
    if target.Bad? { return None; }
    var slot := FindLine(body, "slot=", NUMBER_MAX);
    var time := FindLine(body, "time=", NUMBER_MAX);
    return Some(Marker(essid.value, Text(applied), Text(target), ReadNumber(slot), ReadNumber(time)));
  }

  method IsOwned(m: Marker, token: string) returns (r: bool)
    ensures r == Owned(m, token)
  {
    hide Denotes;
    NoTarget();
    if m.applied != "" && token == m.applied { return true; }
    if m.target == "" { return false; }
    r := TokenIsSsid(token, m.target);
  }

  /** The marker settle leaves in place of `m`. */
  function Left(m: Marker, cur: string, ok: bool, unlinked: bool): Option<Marker> {
    match Settle(m, cur)
    case Remove => if unlinked then None else Some(m)
    case Rewrite(m') => if ok then Some(m') else Some(m)
  }

  /** What settle returns: nothing changed, the requested token is there, or
      somebody else's is. */
  function Answer(m: Marker, cur: string, ok: bool, unlinked: bool): Rc {
    var pre := if m.applied != "" then m.applied else m.essid;
    if (if Settle(m, cur).Remove? then !unlinked else !ok) then Fault
    else if cur == pre then Zero
    else if Denotes(cur, m.target) then One
    else Two
  }

  class Files {
    var conf: string
    var marker: Option<string>
    /** The marker the body was composed from. */
    ghost var kept: Option<Marker>

    ghost predicate Valid()
      reads this
    {
      && (marker.None? <==> kept.None?)
      && (kept.Some? ==> Wf(kept.value) && Value(kept.value.essid) && marker == Some(Body(kept.value)))
    }

    constructor (text: string)
      ensures Valid() && conf == text && marker == None
    {
      conf, marker, kept := text, None, None;
    }

    method LoadMarker() returns (m: Option<Marker>)
      requires Valid()
      ensures m == kept
    {
      hide Wf, Body, Parse;
      if marker.None? { return None; }
      MarkerRoundTrip(kept.value);
      m := Load(marker.value);
    }

    method WriteMarker(m: Marker, ok: bool) returns (written: bool)
      requires Valid() && Wf(m) && Value(m.essid)
      modifies this`marker, this`kept
      ensures Valid() && written == ok && kept == if ok then Some(m) else old(kept)
    {
      if ok {
        marker, kept := Some(Body(m)), Some(m);
      }
      return ok;
    }

    method UnlinkMarker(ok: bool) returns (removed: bool)
      requires Valid()
      modifies this`marker, this`kept
      ensures Valid() && removed == ok && kept == if ok then None else old(kept)
    {
      if ok {
        marker, kept := None, None;
      }
      return ok;
    }

    /** conf_token: the one `ssid=` value, if there is exactly one and it fits. */
    method ConfToken() returns (token: Option<string>)
      ensures token.Some? <==> Count(conf) == 1 && Usable(Token(conf))
      ensures token.Some? ==> token.value == Token(conf) && Value(token.value)
    {
      hide Count, Span;
      var n, vs, ve := FindSsid(conf);
      if n != 1 { return None; }
      TokenIsValue(conf);
      if ve == vs || ve - vs >= TOKEN_MAX { return None; }
      return Some(conf[vs..ve]);
    }

    /** opc_essid_marker_arm */
    method Arm(ssid: seq<nat>, slot: nat, time: nat, ok: bool) returns (rc: Rc)
      requires Valid() && Bytes(ssid) && slot < 0x1_0000_0000 && time < 0x8000_0000_0000_0000
      modifies this`marker, this`kept
      ensures Valid()
      ensures rc == Zero <==> Count(conf) == 1 && Usable(Token(conf)) && 2 * |ssid| < TOKEN_MAX && ok
      ensures kept == if rc == Zero then Some(Armed(old(kept), Token(conf), Hex(ssid), slot, time)) else old(kept)
    {
      hide Count, Span, Denotes, Hex, HexBytes;
      var cur := ConfToken();
      if cur.None? { return Fault; }
      var was := LoadMarker();
      var owned := false;
      if was.Some? { owned := IsOwned(was.value, cur.value); }
      if 2 * |ssid| >= TOKEN_MAX { return Fault; }
      var target := Hex(ssid);
      HexRoundTrip(ssid);
      HexOneLine(ssid);
      var m := if owned then Marker(was.value.essid, cur.value, target, slot, time)
               else Marker(cur.value, "", target, slot, time);
      var written := WriteMarker(m, ok);
      return if written then Zero else Fault;
    }

    /** opc_essid_marker_commit */
    method Commit(ok: bool) returns (rc: Rc)
      requires Valid()
      modifies this`marker, this`kept
      ensures Valid()
      ensures rc == Zero <==> old(kept).Some? && Count(conf) == 1 && Usable(Token(conf)) && ok
      ensures kept == if rc == Zero then Some(old(kept).value.(applied := Token(conf))) else old(kept)
    {
      hide Count, Span;
      var m := LoadMarker();
      if m.None? { return Fault; }
      var cur := ConfToken();
      if cur.None? { return Fault; }
      var written := WriteMarker(m.value.(applied := cur.value), ok);
      return if written then Zero else Fault;
    }

    /** opc_essid_marker_settle */
    method SettleFailed(ok: bool, unlinked: bool) returns (rc: Rc)
      requires Valid()
      modifies this`marker, this`kept
      ensures Valid()
      ensures old(kept).None? ==> rc == Zero && kept.None?
      ensures old(kept).Some? && !(Count(conf) == 1 && Usable(Token(conf))) ==> rc == Fault && kept == old(kept)
      ensures old(kept).Some? && Count(conf) == 1 && Usable(Token(conf)) ==>
                && kept == Left(old(kept).value, Token(conf), ok, unlinked)
                && rc == Answer(old(kept).value, Token(conf), ok, unlinked)
    {
      hide Count, Span, Denotes;
      var m := LoadMarker();
      if m.None? { return Zero; }
      var cur := ConfToken();
      if cur.None? { return Fault; }
      rc := SettleOn(m.value, cur.value, ok, unlinked);
    }

    method SettleOn(m: Marker, cur: string, ok: bool, unlinked: bool) returns (rc: Rc)
      requires Valid() && kept == Some(m) && Usable(cur) && OneLine(cur)
      modifies this`marker, this`kept
      ensures Valid()
      ensures kept == Left(m, cur, ok, unlinked) && rc == Answer(m, cur, ok, unlinked)
    {
      hide Denotes;
      NoTarget();
      var pre := if m.applied != "" then m.applied else m.essid;
      if cur == pre {
        if m.applied == "" {
          var removed := UnlinkMarker(unlinked);
          return if removed then Zero else Fault;
        }
        var written := WriteMarker(m.(target := ""), ok);
        return if written then Zero else Fault;
      }
      var requested := false;
      if m.target != "" { requested := TokenIsSsid(cur, m.target); }
      if requested {
        var written := WriteMarker(m.(applied := cur), ok);
        return if written then One else Fault;
      }
      if m.applied == "" {
        var removed := UnlinkMarker(unlinked);
        return if removed then Two else Fault;
      }
      var written := WriteMarker(m.(target := ""), ok);
      return if written then Two else Fault;
    }

    /** opc_essid_marker_restore: the original goes back into its line and not a
        byte of the rest changes; a token the chain does not own is left alone. */
    method RestoreOriginal(ok: bool, unlinked: bool) returns (rc: Rc)
      requires Valid()
      modifies this
      ensures Valid()
      ensures old(kept).None? ==> rc == Zero && conf == old(conf) && kept.None?
      ensures old(kept).Some? && !(Count(old(conf)) == 1 && |Token(old(conf))| < TOKEN_MAX) ==>
                rc == Fault && conf == old(conf) && kept == old(kept)
      ensures old(kept).Some? && Count(old(conf)) == 1 && |Token(old(conf))| < TOKEN_MAX ==>
                var k, verdict := old(kept).value, Judge(old(kept).value, Token(old(conf)));
                if verdict == Ours && !ok then rc == Fault && conf == old(conf) && kept == old(kept)
                else
                  && conf == (if verdict == Ours then Replaced(old(conf), k.essid) else old(conf))
                  && Count(conf) == 1 && (verdict != Foreign ==> Token(conf) == k.essid)
                  && kept == (if unlinked then None else old(kept))
                  && rc == (if !unlinked then Fault
                            else match verdict case Original => Zero case Ours => One case Foreign => Two)
    {
      hide Count, Span, Denotes, Wf, Value;
      var m := LoadMarker();
      if m.None? { return Zero; }
      var n, vs, ve := FindSsid(conf);
      if n != 1 || ve - vs >= TOKEN_MAX { return Fault; }
      var cur := conf[vs..ve];
      if cur == m.value.essid {
        var removed := UnlinkMarker(unlinked);
        return if removed then Zero else Fault;
      }
      var ours := IsOwned(m.value, cur);
      if !ours {
        var removed := UnlinkMarker(unlinked);
        return if removed then Two else Fault;
      }
      if !ok { return Fault; }
      ReplacedToken(conf, m.value.essid);
      conf := conf[..vs] + m.value.essid + conf[ve..];
      var removed := UnlinkMarker(unlinked);
      return if removed then One else Fault;
    }
  }

  lemma {:induction false} HexOneLine(bytes: seq<nat>)
    requires Bytes(bytes)
    ensures OneLine(Hex(bytes))
  {
    if bytes != [] {
      HexOneLine(bytes[1..]);
      var a, b := HexDigit(bytes[0] / 16), HexDigit(bytes[0] % 16);
      assert HexVal(a).Some? && HexVal(b).Some?;
      OneLineConcat([a, b], Hex(bytes[1..]));
    }
  }
}
