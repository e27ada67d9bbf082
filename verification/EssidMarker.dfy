/** The restore marker's file format and the ownership test on SSID tokens
    (opcd/essid_marker.c). */
module EssidMarker {
  import opened Common
  import opened Decimal
  import opened Lines
  import opened EssidText

  const TOKEN_MAX: nat := 256
  const NUMBER_MAX: nat := 32
  const BODY_MAX: nat := 3 * TOKEN_MAX + 96

  /** Original token, applied token ("" until committed), requested SSID in hex
      ("" when there was none), list slot and time. */
  datatype Marker = Marker(essid: string, applied: string, target: string, slot: nat, time: nat)

  // ---- Writing -----------------------------------------------------------------

  function Field(key: string, value: string): string {
    key + value + "\n"
  }

  function Optional(key: string, value: string): string {
    if value == "" then "" else Field(key, value)
  }

  /** marker_write */
  function Body(m: Marker): string {
    Field("essid=", m.essid) + (Field("slot=", Digits(m.slot)) + (Field("time=", Digits(m.time)) +
    (Optional("target=", m.target) + Optional("applied=", m.applied))))
  }

  // ---- Reading -----------------------------------------------------------------

  datatype Lookup = Absent | Bad | Found(value: string)

  /** line_value: the first line that starts with the key. */
  function LineValue(body: string, key: string, cap: nat): Lookup
    decreases |body|
  {
    if body == "" then Absent
    else if key <= Line(body) then
      if LineLen(body) == |body| || LineLen(body) == |key| || LineLen(body) - |key| >= cap then Bad
      else Found(Line(body)[|key|..])
    else if LineLen(body) == |body| then Absent
    else LineValue(Rest(body), key, cap)
  }

  /** strtoul: the leading digits. */
  function Leading(s: string): (n: nat)
    ensures n <= |s| && forall i :: 0 <= i < n ==> Digit(s[i])
  {
    if s == "" || !Digit(s[0]) then 0 else 1 + Leading(s[1..])
  }

  function ReadNumber(l: Lookup): nat {
    match l
    case Found(v) => Number(v[..Leading(v)])
    case _ => 0
  }

  function Text(l: Lookup): string {
    match l
    case Found(v) => v
    case _ => ""
  }

  /** marker_parse */
  function Parse(body: string): Option<Marker> {
    var essid := LineValue(body, "essid=", TOKEN_MAX);
    var applied := LineValue(body, "applied=", TOKEN_MAX);
    var target := LineValue(body, "target=", TOKEN_MAX);
    if !("essid=" <= body) || !essid.Found? || applied.Bad? || target.Bad? then None
    else Some(Marker(essid.value, Text(applied), Text(target),
                     ReadNumber(LineValue(body, "slot=", NUMBER_MAX)),
                     ReadNumber(LineValue(body, "time=", NUMBER_MAX))))
  }

  // ---- Round trip ----------------------------------------------------------------

  /** What a marker can hold: tokens of one line, shorter than the buffers. */
  ghost predicate Wf(m: Marker) {
    && 0 < |m.essid| < TOKEN_MAX && OneLine(m.essid)
    && |m.applied| < TOKEN_MAX && OneLine(m.applied)
    && |m.target| < TOKEN_MAX && OneLine(m.target)
    && m.slot < 0x1_0000_0000 && m.time < 0x8000_0000_0000_0000
  }

  /** No key starts a line that another key begins. */
  predicate Apart(k1: string, k2: string) {
    |k1| >= 2 && |k2| >= 2 && (k1[0] != k2[0] || k1[1] != k2[1])
  }

  lemma FieldHit(key: string, v: string, rest: string, cap: nat)
    requires OneLine(key) && OneLine(v)
    ensures LineValue(Field(key, v) + rest, key, cap) == if v == "" || |v| >= cap then Bad else Found(v)
  {
    hide LineLen, OneLine;
    OneLineConcat(key, v);
    Reassoc(key, v, rest);
    LinesOf(key + v, rest);
    assert (key + v)[|key|..] == v;
  }

  lemma Reassoc(key: string, v: string, rest: string)
    ensures Field(key, v) + rest == (key + v) + "\n" + rest && Field(key, v) + rest != ""
  {
  }

  lemma FieldMiss(k: string, v: string, rest: string, key: string, cap: nat)
    requires OneLine(k) && OneLine(v) && Apart(k, key)
    ensures LineValue(Field(k, v) + rest, key, cap) == LineValue(rest, key, cap)
  {
    hide LineLen, OneLine;
    OneLineConcat(k, v);
    Reassoc(k, v, rest);
    LinesOf(k + v, rest);
    assert (k + v)[0] == k[0] && (k + v)[1] == k[1];
  }

  lemma OptionalMiss(k: string, v: string, rest: string, key: string, cap: nat)
    requires OneLine(k) && OneLine(v) && Apart(k, key)
    ensures LineValue(Optional(k, v) + rest, key, cap) == LineValue(rest, key, cap)
  {
    hide LineValue;
    if v == "" {
      assert "" + rest == rest;
    } else {
      FieldMiss(k, v, rest, key, cap);
    }
  }

  lemma DigitsOneLine(s: string)
    requires AllDigits(s)
    ensures OneLine(s)
  {
  }

  lemma {:induction false} LeadingAll(s: string)
    requires AllDigits(s)
    ensures Leading(s) == |s| && s[..Leading(s)] == s
  {
    if s != "" { LeadingAll(s[1..]); }
  }

  ghost predicate Keys() {
    OneLine("essid=") && OneLine("slot=") && OneLine("time=") && OneLine("target=") && OneLine("applied=")
  }

  lemma KeysOneLine()
    ensures Keys()
  {
  }

  /** After the three leading fields, only the optional ones are left to look at. */
  lemma SkipHeader(m: Marker, key: string, cap: nat)
    requires Wf(m) && Apart("essid=", key) && Apart("slot=", key) && Apart("time=", key)
    ensures LineValue(Body(m), key, cap) ==
              LineValue(Optional("target=", m.target) + Optional("applied=", m.applied), key, cap)
  {
    KeysOneLine();
    DigitsRoundTrip(m.slot);
    DigitsRoundTrip(m.time);
    DigitsOneLine(Digits(m.slot));
    DigitsOneLine(Digits(m.time));
    hide LineValue, Field, Optional, Digits, OneLine;
    var opts := Optional("target=", m.target) + Optional("applied=", m.applied);
    FieldMiss("essid=", m.essid, Field("slot=", Digits(m.slot)) + (Field("time=", Digits(m.time)) + opts), key, cap);
    FieldMiss("slot=", Digits(m.slot), Field("time=", Digits(m.time)) + opts, key, cap);
    FieldMiss("time=", Digits(m.time), opts, key, cap);
  }

  lemma ReadEssid(m: Marker)
    requires Wf(m)
    ensures LineValue(Body(m), "essid=", TOKEN_MAX) == Found(m.essid) && "essid=" <= Body(m)
  {
    KeysOneLine();
    hide LineValue, Optional, Digits, OneLine;
    FieldHit("essid=", m.essid,
             Field("slot=", Digits(m.slot)) + (Field("time=", Digits(m.time)) +
             (Optional("target=", m.target) + Optional("applied=", m.applied))), TOKEN_MAX);
  }

  lemma ReadTarget(m: Marker)
    requires Wf(m)
    ensures LineValue(Body(m), "target=", TOKEN_MAX) == if m.target == "" then Absent else Found(m.target)
  {
    SkipHeader(m, "target=", TOKEN_MAX);
    KeysOneLine();
    var applied := Optional("applied=", m.applied);
    if m.target == "" {
      NothingThere("target=", TOKEN_MAX);
      hide LineValue, Body, OneLine;
      assert "" + applied == applied && applied + "" == applied;
      OptionalMiss("applied=", m.applied, "", "target=", TOKEN_MAX);
    } else {
      FieldHit("target=", m.target, applied, TOKEN_MAX);
    }
  }

  lemma ReadApplied(m: Marker)
    requires Wf(m)
    ensures LineValue(Body(m), "applied=", TOKEN_MAX) == if m.applied == "" then Absent else Found(m.applied)
  {
    SkipHeader(m, "applied=", TOKEN_MAX);
    KeysOneLine();
    var applied := Optional("applied=", m.applied);
    OptionalMiss("target=", m.target, applied, "applied=", TOKEN_MAX);
    if m.applied == "" {
      NothingThere("applied=", TOKEN_MAX);
    } else {
      FieldHit("applied=", m.applied, "", TOKEN_MAX);
      assert applied + "" == applied;
    }
  }

  lemma NothingThere(key: string, cap: nat)
    ensures LineValue("", key, cap) == Absent
  {
  }

  lemma ReadSlot(m: Marker)
    requires Wf(m)
    ensures LineValue(Body(m), "slot=", NUMBER_MAX) == Found(Digits(m.slot))
    ensures ReadNumber(LineValue(Body(m), "slot=", NUMBER_MAX)) == m.slot
  {
    KeysOneLine();
    PrintedNumber(m.slot);
    hide LineValue, Optional, Digits, OneLine, Field;
    var rest := Field("time=", Digits(m.time)) + (Optional("target=", m.target) + Optional("applied=", m.applied));
    FieldMiss("essid=", m.essid, Field("slot=", Digits(m.slot)) + rest, "slot=", NUMBER_MAX);
    FieldHit("slot=", Digits(m.slot), rest, NUMBER_MAX);
  }

  lemma ReadTime(m: Marker)
    requires Wf(m)
    ensures LineValue(Body(m), "time=", NUMBER_MAX) == Found(Digits(m.time))
    ensures ReadNumber(LineValue(Body(m), "time=", NUMBER_MAX)) == m.time
  {
    KeysOneLine();
    PrintedNumber(m.slot);
    PrintedNumber(m.time);
    hide LineValue, Optional, Digits, OneLine, Field;
    var rest := Optional("target=", m.target) + Optional("applied=", m.applied);
    FieldMiss("essid=", m.essid, Field("slot=", Digits(m.slot)) + (Field("time=", Digits(m.time)) + rest),
              "time=", NUMBER_MAX);
    FieldMiss("slot=", Digits(m.slot), Field("time=", Digits(m.time)) + rest, "time=", NUMBER_MAX);
    FieldHit("time=", Digits(m.time), rest, NUMBER_MAX);
  }

  lemma PrintedNumber(n: nat)
    requires n < 0x8000_0000_0000_0000
    ensures OneLine(Digits(n)) && 0 < |Digits(n)| < NUMBER_MAX && ReadNumber(Found(Digits(n))) == n
  {
    DigitsRoundTrip(n);
    DigitsOneLine(Digits(n));
    LeadingAll(Digits(n));
    Power19();
    DigitsShort(n, 19);
  }

  lemma Power19()
    ensures Power(10) == 10_000_000_000 && Power(19) == 10_000_000_000_000_000_000
  {
    assert Power(5) == 100_000;
    assert Power(10) == 10_000_000_000;
    assert Power(15) == 1_000_000_000_000_000;
  }

  /** A marker read back is the marker written. */
  lemma MarkerRoundTrip(m: Marker)
    requires Wf(m)
    ensures Parse(Body(m)) == Some(m)
  {
    hide LineValue, Body, Wf, ReadNumber;
    ReadEssid(m);
    ReadTarget(m);
    ReadApplied(m);
    ReadSlot(m);
    ReadTime(m);
  }

  /** The lines of a marker: the original token first, then slot and time, and the
      requested SSID and the applied token under their own names if there are any. */
  lemma MarkerLines(m: Marker)
    requires Wf(m)
    ensures "essid=" + m.essid + "\n" <= Body(m)
    ensures LineValue(Body(m), "slot=", NUMBER_MAX) == Found(Digits(m.slot))
    ensures LineValue(Body(m), "time=", NUMBER_MAX) == Found(Digits(m.time))
    ensures LineValue(Body(m), "target=", TOKEN_MAX) == if m.target == "" then Absent else Found(m.target)
    ensures LineValue(Body(m), "applied=", TOKEN_MAX) == if m.applied == "" then Absent else Found(m.applied)
  {
    hide LineValue, Wf;
    ReadTarget(m);
    ReadApplied(m);
    ReadSlot(m);
    ReadTime(m);
  }

  /** No marker is too long for the buffer it is composed in. */
  lemma BodyFits(m: Marker)
    requires Wf(m)
    ensures |Body(m)| <= 830 < BODY_MAX
  {
    Power19();
    DigitsShort(m.slot, 10);
    DigitsShort(m.time, 19);
  }

  /** The loop of line_value over line starts. */
  method FindLine(body: string, key: string, cap: nat) returns (r: Lookup)
    ensures r == LineValue(body, key, cap)
  {
    hide LineLen, LineValue;
    var ln := 0;
    assert body[0..] == body;
    while ln < |body|
      invariant 0 <= ln <= |body| && LineValue(body[ln..], key, cap) == LineValue(body, key, cap)
    {
      var end := EndOfLine(body, ln);
      ValueStep(body, ln, end, key, cap);
      if key <= body[ln..end] {
        if end == |body| || end - ln == |key| || end - ln - |key| >= cap { return Bad; }
        return Found(body[ln..end][|key|..]);
      }
      if end == |body| { return Absent; }
      ln := end + 1;
    }
    assert body[ln..] == "";
    ValueEnds(key, cap);
    return Absent;
  }

  lemma ValueEnds(key: string, cap: nat)
    ensures LineValue("", key, cap) == Absent
  {
  }

  lemma ValueStep(body: string, ln: nat, end: nat, key: string, cap: nat)
    requires ln < |body| && end == ln + LineLen(body[ln..])
    ensures LineValue(body[ln..], key, cap) ==
              if key <= body[ln..end] then
                (if end == |body| || end - ln == |key| || end - ln - |key| >= cap then Bad
                 else Found(body[ln..end][|key|..]))
              else if end == |body| then Absent
              else LineValue(body[end + 1..], key, cap)
  {
    hide LineLen;
    var s := body[ln..];
    assert Line(s) == body[ln..end];
    if end < |body| {
      assert Rest(s) == body[end + 1..];
    }
  }

  // ---- SSID tokens -------------------------------------------------------------------

  function HexVal(c: char): Option<nat> {
    if '0' <= c <= '9' then Some((c as int) - ('0' as int))
    else if 'a' <= c <= 'f' then Some((c as int) - ('a' as int) + 10)
    else if 'A' <= c <= 'F' then Some((c as int) - ('A' as int) + 10)
    else None
  }

  function Pair(a: char, b: char): Option<nat> {
    if HexVal(a).Some? && HexVal(b).Some? then Some(HexVal(a).value * 16 + HexVal(b).value) else None
  }

  /** The bytes a hexadecimal text denotes. */
  function HexBytes(s: string): Option<seq<nat>> {
    if s == "" then Some([])
    else if |s| == 1 || Pair(s[0], s[1]).None? || HexBytes(s[2..]).None? then None
    else Some([Pair(s[0], s[1]).value] + HexBytes(s[2..]).value)
  }

  function Codes(s: string): (r: seq<nat>)
    ensures |r| == |s| && forall i :: 0 <= i < |s| ==> r[i] == s[i] as int
  {
    seq(|s|, i requires 0 <= i < |s| => s[i] as int)
  }

  predicate Quoted(tok: string) {
    |tok| >= 2 && tok[0] == '"' && tok[|tok| - 1] == '"'
  }

  /** What wpa_supplicant reads a token as. */
  function Decoded(tok: string): Option<seq<nat>> {
    if Quoted(tok) then Some(Codes(tok[1..|tok| - 1])) else HexBytes(tok)
  }

  /** The token denotes exactly the SSID recorded in hexadecimal. */
  predicate Denotes(tok: string, target: string) {
    target != "" && HexBytes(target).Some? && Decoded(tok) == HexBytes(target)
  }

  /** Position by position, without recursion. */
  lemma {:induction false} HexAt(s: string)
    ensures HexBytes(s).Some? <==> |s| % 2 == 0 && forall i {:trigger s[i]} :: 0 <= i < |s| ==> HexVal(s[i]).Some?
    ensures HexBytes(s).Some? ==>
              |HexBytes(s).value| == |s| / 2 &&
              forall i :: 0 <= i < |s| / 2 ==> HexBytes(s).value[i] == PairAt(s, i)
  {
    if |s| >= 2 {
      HexAt(s[2..]);
      var t := s[2..];
      assert forall i :: 0 <= i < |t| ==> t[i] == s[i + 2];
      assert forall i :: 0 <= i < |t| / 2 ==> PairAt(t, i) == PairAt(s, i + 1);
      if HexBytes(t).Some? && Pair(s[0], s[1]).Some? {
        forall i | 0 <= i < |s| ensures HexVal(s[i]).Some? {
          if i >= 2 { assert t[i - 2] == s[i]; }
        }
      }
    }
  }

  function PairAt(s: string, i: nat): nat
    requires 2 * i + 1 < |s|
  {
    if Pair(s[2 * i], s[2 * i + 1]).Some? then Pair(s[2 * i], s[2 * i + 1]).value else 0
  }

  /** Two hexadecimal texts denote the same bytes iff they agree digit by digit. */
  lemma SameBytes(a: string, b: string)
    requires HexBytes(b).Some?
    ensures HexBytes(a) == HexBytes(b) <==>
              |a| == |b| && forall i :: 0 <= i < |a| ==> HexVal(a[i]).Some? && HexVal(a[i]) == HexVal(b[i])
  {
    HexAt(a);
    HexAt(b);
    hide HexBytes;
    if |a| == |b| && forall i :: 0 <= i < |a| ==> HexVal(a[i]).Some? && HexVal(a[i]) == HexVal(b[i]) {
      assert forall i :: 0 <= i < |a| / 2 ==> PairAt(a, i) == PairAt(b, i);
      assert HexBytes(a).value == HexBytes(b).value;
    }
    if HexBytes(a) == HexBytes(b) {
      forall i | 0 <= i < |a| ensures HexVal(a[i]) == HexVal(b[i]) {
        assert PairAt(a, i / 2) == PairAt(b, i / 2);
        SamePair(a, b, i / 2);
        assert i == 2 * (i / 2) || i == 2 * (i / 2) + 1;
      }
    }
  }

  lemma SamePair(a: string, b: string, k: nat)
    requires 2 * k + 1 < |a| && 2 * k + 1 < |b| && PairAt(a, k) == PairAt(b, k)
    requires HexVal(a[2 * k]).Some? && HexVal(a[2 * k + 1]).Some?
    requires HexVal(b[2 * k]).Some? && HexVal(b[2 * k + 1]).Some?
    ensures HexVal(a[2 * k]) == HexVal(b[2 * k]) && HexVal(a[2 * k + 1]) == HexVal(b[2 * k + 1])
  {
  }

  lemma QuotedBytes(tok: string, target: string)
    requires Quoted(tok)
    ensures Denotes(tok, target) <==>
              && target != "" && |target| % 2 == 0 && |tok| - 2 == |target| / 2
              && forall i :: 0 <= i < |target| / 2 ==>
                   Pair(target[2 * i], target[2 * i + 1]) == Some(tok[1 + i] as int)
  {
    HexAt(target);
    hide HexBytes;
    var inner := tok[1..|tok| - 1];
    if target != "" && |target| % 2 == 0 && |tok| - 2 == |target| / 2 &&
       forall i :: 0 <= i < |target| / 2 ==> Pair(target[2 * i], target[2 * i + 1]) == Some(tok[1 + i] as int) {
      forall i | 0 <= i < |target| ensures HexVal(target[i]).Some? {
        assert Pair(target[2 * (i / 2)], target[2 * (i / 2) + 1]).Some?;
        assert i == 2 * (i / 2) || i == 2 * (i / 2) + 1;
      }
      assert Codes(inner) == HexBytes(target).value;
    }
    if Denotes(tok, target) {
      forall i | 0 <= i < |target| / 2
        ensures Pair(target[2 * i], target[2 * i + 1]) == Some(tok[1 + i] as int)
      {
        assert Codes(inner)[i] == PairAt(target, i);
        assert HexVal(target[2 * i]).Some? && HexVal(target[2 * i + 1]).Some?;
      }
    }
  }

  /** token_is_ssid */
  method TokenIsSsid(tok: string, target: string) returns (r: bool)
    ensures r == Denotes(tok, target)
  {
    hide HexBytes;
    HexAt(target);
    if target == "" || |target| % 2 != 0 { return false; }
    if Quoted(tok) {
      r := QuotedIs(tok, target);
    } else {
      r := HexIs(tok, target);
    }
  }

  method QuotedIs(tok: string, target: string) returns (r: bool)
    requires Quoted(tok) && target != "" && |target| % 2 == 0
    ensures r == Denotes(tok, target)
  {
    QuotedBytes(tok, target);
    hide HexBytes, Denotes;
    if |tok| - 2 != |target| / 2 { return false; }
    for i := 0 to |target| / 2
      invariant forall k :: 0 <= k < i ==> Pair(target[2 * k], target[2 * k + 1]) == Some(tok[1 + k] as int)
    {
      var hi, lo := HexVal(target[2 * i]), HexVal(target[2 * i + 1]);
      if hi.None? || lo.None? || tok[1 + i] as int != hi.value * 16 + lo.value { return false; }
    }
    return true;
  }

  method HexIs(tok: string, target: string) returns (r: bool)
    requires !Quoted(tok) && target != "" && |target| % 2 == 0
    ensures r == Denotes(tok, target)
  {
    HexAt(target);
    HexAt(tok);
    if HexBytes(target).Some? { SameBytes(tok, target); }
    hide HexBytes;
    if |tok| != |target| { return false; }
    for i := 0 to |target|
      invariant forall k :: 0 <= k < i ==> HexVal(tok[k]).Some? && HexVal(tok[k]) == HexVal(target[k])
    {
      var a, b := HexVal(tok[i]), HexVal(target[i]);
      if a.None? || b.None? || a != b { return false; }
    }
    return true;
  }

  // ---- The requested SSID ----------------------------------------------------------------

  function HexDigit(d: nat): (c: char)
    requires d < 16
    ensures HexVal(c) == Some(d)
  {
    if d < 10 then (d as char) + '0' else ((d - 10) as char) + 'a'
  }

  /** The `%02x` rendering arm records. */
  function Hex(bytes: seq<nat>): string
    requires forall i :: 0 <= i < |bytes| ==> bytes[i] < 256
  {
    if bytes == [] then "" else [HexDigit(bytes[0] / 16), HexDigit(bytes[0] % 16)] + Hex(bytes[1..])
  }

  /** Two lower-case digits per byte, the high one first. */
  lemma {:induction false} HexText(bytes: seq<nat>, i: nat)
    requires (forall k :: 0 <= k < |bytes| ==> bytes[k] < 256) && i < |bytes|
    ensures 2 * i + 1 < |Hex(bytes)|
    ensures Hex(bytes)[2 * i] == "0123456789abcdef"[bytes[i] / 16]
    ensures Hex(bytes)[2 * i + 1] == "0123456789abcdef"[bytes[i] % 16]
  {
    if i > 0 {
      HexText(bytes[1..], i - 1);
    } else {
      HexDigitIs(bytes[0] / 16);
      HexDigitIs(bytes[0] % 16);
    }
  }

  lemma HexDigitIs(d: nat)
    requires d < 16
    ensures HexDigit(d) == "0123456789abcdef"[d]
    ensures d >= 10 ==> HexVal("0123456789ABCDEF"[d]) == Some(d)
  {
  }

  lemma {:induction false} HexRoundTrip(bytes: seq<nat>)
    requires forall i :: 0 <= i < |bytes| ==> bytes[i] < 256
    ensures HexBytes(Hex(bytes)) == Some(bytes) && |Hex(bytes)| == 2 * |bytes|
  {
    hide HexBytes, HexDigit;
    if bytes == [] {
      NoBytes();
    } else {
      HexRoundTrip(bytes[1..]);
      HexPair(bytes[0], Hex(bytes[1..]));
      assert bytes == [bytes[0]] + bytes[1..];
    }
  }

  lemma NoBytes()
    ensures HexBytes("") == Some([])
  {
  }

  lemma HexPair(d: nat, t: string)
    requires d < 256 && HexBytes(t).Some?
    ensures HexBytes([HexDigit(d / 16), HexDigit(d % 16)] + t) == Some([d] + HexBytes(t).value)
  {
    var s := [HexDigit(d / 16), HexDigit(d % 16)] + t;
    assert s[2..] == t;
    hide HexDigit, HexVal;
    assert s[0] == HexDigit(d / 16) && s[1] == HexDigit(d % 16);
  }

  /** A token denotes the recorded request iff it reads as the requested SSID. */
  lemma DenotesRequest(tok: string, ssid: seq<nat>)
    requires ssid != [] && forall i :: 0 <= i < |ssid| ==> ssid[i] < 256
    ensures Denotes(tok, Hex(ssid)) <==> Decoded(tok) == Some(ssid)
  {
    HexRoundTrip(ssid);
  }
}
