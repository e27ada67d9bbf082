/** The IP list as text (opcd/iplist_text.c and iplist_from_text in
    opcd/handler.c): five `<Key><N>=<value>` lines per populated slot. */
module IpListText {
  import opened Common
  import opened Decimal
  import opened Lines
  import opened OpcText
  import opened IpConfig

  const TEXT_MAX: nat := 24576

  // ---- Dotted addresses ----------------------------------------------------------

  function Octets(ip: bv32): (bv8, bv8, bv8, bv8) {
    ((ip >> 24) as bv8, ((ip >> 16) & 0xFF) as bv8, ((ip >> 8) & 0xFF) as bv8, (ip & 0xFF) as bv8)
  }

  function Join(a: bv8, b: bv8, c: bv8, d: bv8): bv32 {
    ((((((a as bv32) << 8) | (b as bv32)) << 8) | (c as bv32)) << 8) | (d as bv32)
  }

  lemma OctetsRoundTrip(ip: bv32)
    ensures var o := Octets(ip); Join(o.0, o.1, o.2, o.3) == ip
  {
  }

  function Printed(o: bv8): string {
    Digits(o as nat)
  }

  /** ipv4_str */
  function Dotted(ip: bv32): string {
    var o := Octets(ip);
    Printed(o.0) + ("." + (Printed(o.1) + ("." + (Printed(o.2) + ("." + Printed(o.3))))))
  }

  /** Number of leading digits, at most `max`. */
  function DigitRun(s: string, max: nat): (n: nat)
    ensures n <= |s| && n <= max
    ensures forall i :: 0 <= i < n ==> Digit(s[i])
  {
    if s == "" || max == 0 || !Digit(s[0]) then 0 else 1 + DigitRun(s[1..], max - 1)
  }

  /** One octet: one to three digits, at most 255, no leading zero. */
  function ReadOctet(s: string): Option<(bv8, string)> {
    var n := DigitRun(s, 3);
    var v := Number(s[..n]);
    if n == 0 || v > 255 || (n > 1 && s[0] == '0') || (n < |s| && Digit(s[n])) then None
    else Some((v as bv8, s[n..]))
  }

  function ReadDot(s: string): Option<(bv8, string)> {
    if s == "" || s[0] != '.' then None else ReadOctet(s[1..])
  }

  /** parse_ipv4 */
  function ReadAddress(s: string): Option<bv32> {
    var a := ReadOctet(s);
    if a.None? then None else
    var b := ReadDot(a.value.1);
    if b.None? then None else
    var c := ReadDot(b.value.1);
    if c.None? then None else
    var d := ReadDot(c.value.1);
    if d.None? || d.value.1 != "" then None
    else Some(Join(a.value.0, b.value.0, c.value.0, d.value.0))
  }

  ghost predicate NoDigitFirst(s: string) {
    s == "" || !Digit(s[0])
  }

  lemma {:induction false} RunOf(d: string, rest: string, max: nat)
    requires AllDigits(d) && |d| <= max && NoDigitFirst(rest)
    ensures DigitRun(d + rest, max) == |d|
  {
    if d == "" {
      assert d + rest == rest;
    } else {
      assert (d + rest)[1..] == d[1..] + rest;
      RunOf(d[1..], rest, max - 1);
    }
  }

  lemma OctetText(o: bv8)
    ensures AllDigits(Printed(o)) && 0 < |Printed(o)| <= 3 && Number(Printed(o)) == o as nat <= 255
    ensures |Printed(o)| > 1 ==> Printed(o)[0] != '0'
  {
    var n := o as nat;
    DigitsRoundTrip(n);
    DigitsCanonical(n);
    assert Power(3) == 1000;
    DigitsShort(n, 3);
  }

  lemma OctetBack(o: bv8)
    ensures (o as nat) as bv8 == o
  {
  }

  lemma Cut(d: string, rest: string)
    ensures (d + rest)[..|d|] == d && (d + rest)[|d|..] == rest
  {
  }

  lemma OctetOf(o: bv8, rest: string)
    requires NoDigitFirst(rest)
    ensures ReadOctet(Printed(o) + rest) == Some((o, rest))
  {
    OctetText(o);
    OctetBack(o);
    hide Printed, DigitRun, Number;
    var d := Printed(o);
    RunOf(d, rest, 3);
    Cut(d, rest);
    assert |d| < |d + rest| ==> (d + rest)[|d|] == rest[0];
    assert (d + rest)[0] == d[0];
  }

  lemma DotOf(o: bv8, rest: string)
    requires NoDigitFirst(rest)
    ensures ReadDot("." + (Printed(o) + rest)) == Some((o, rest))
  {
    hide ReadOctet, Printed;
    OctetOf(o, rest);
    assert ("." + (Printed(o) + rest))[1..] == Printed(o) + rest;
  }

  /** Reading a printed address gives it back. */
  lemma AddressRoundTrip(ip: bv32)
    ensures ReadAddress(Dotted(ip)) == Some(ip)
  {
    OctetsRoundTrip(ip);
    var o := Octets(ip);
    hide ReadOctet, ReadDot, Printed, Octets, Join;
    var r3 := "." + Printed(o.3);
    var r2 := "." + (Printed(o.2) + r3);
    var r1 := "." + (Printed(o.1) + r2);
    assert Printed(o.3) + "" == Printed(o.3);
    OctetOf(o.0, r1);
    DotOf(o.1, r2);
    DotOf(o.2, r3);
    DotOf(o.3, "");
  }

  /** a*2^24 + b*2^16 + c*2^8 + d */
  function Word(a: bv8, b: bv8, c: bv8, d: bv8): bv32 {
    (a as bv32) * 0x100_0000 + (b as bv32) * 0x1_0000 + (c as bv32) * 0x100 + (d as bv32)
  }

  /** Four decimal numbers joined by dots. */
  function Quad(a: bv8, b: bv8, c: bv8, d: bv8): string {
    Digits(a as nat) + "." + Digits(b as nat) + "." + Digits(c as nat) + "." + Digits(d as nat)
  }

  lemma JoinIsWord(a: bv8, b: bv8, c: bv8, d: bv8)
    ensures Join(a, b, c, d) == Word(a, b, c, d)
  {
  }

  lemma OctetsOfWord(a: bv8, b: bv8, c: bv8, d: bv8)
    ensures Octets(Word(a, b, c, d)) == (a, b, c, d)
  {
  }

  /** An address prints as its four octets in decimal, the most significant first. */
  lemma DottedText(a: bv8, b: bv8, c: bv8, d: bv8)
    ensures Dotted(Word(a, b, c, d)) == Quad(a, b, c, d)
  {
    OctetsOfWord(a, b, c, d);
    hide Octets, Word, Digits;
  }

  lemma OctetBackward(s: string)
    requires ReadOctet(s).Some?
    ensures s == Printed(ReadOctet(s).value.0) + ReadOctet(s).value.1
  {
    var n := DigitRun(s, 3);
    var v := Number(s[..n]);
    NumberRoundTrip(s[..n]);
    OctetValue(v);
    assert s == s[..n] + s[n..];
  }

  function Counted(v: nat): bv8
    requires v <= 255
  {
    if v == 0 then 0 else Counted(v - 1) + 1
  }

  lemma {:induction false} CountedValue(v: nat)
    requires v <= 255
    ensures Counted(v) as nat == v
  {
    if v > 0 {
      CountedValue(v - 1);
      OneMore(Counted(v - 1));
    }
  }

  lemma OneMore(o: bv8)
    requires o != 255
    ensures (o + 1) as nat == o as nat + 1
  {
  }

  lemma OctetValue(v: nat)
    requires v <= 255
    ensures (v as bv8) as nat == v
  {
    CountedValue(v);
    OctetBack(Counted(v));
  }

  lemma DotBackward(s: string)
    requires ReadDot(s).Some?
    ensures s == "." + (Printed(ReadDot(s).value.0) + ReadDot(s).value.1)
  {
    hide ReadOctet, Printed;
    OctetBackward(s[1..]);
    assert s == "." + s[1..];
  }

  /** A text reads as an address exactly if it is that address in dotted decimal:
      four numbers up to 255 without leading zeros, the most significant first. */
  lemma AddressText(s: string, ip: bv32)
    ensures ReadAddress(s) == Some(ip) <==> exists a, b, c, d :: ip == Word(a, b, c, d) && s == Quad(a, b, c, d)
  {
    hide ReadAddress, Dotted, Word, Quad;
    if ReadAddress(s) == Some(ip) {
      var a, b, c, d := AddressBackward(s, ip);
    }
    if a, b, c, d :| ip == Word(a, b, c, d) && s == Quad(a, b, c, d) {
      DottedText(a, b, c, d);
      AddressRoundTrip(ip);
    }
  }

  lemma AddressBackward(s: string, ip: bv32) returns (a: bv8, b: bv8, c: bv8, d: bv8)
    requires ReadAddress(s) == Some(ip)
    ensures ip == Word(a, b, c, d) && s == Quad(a, b, c, d)
  {
    hide ReadOctet, ReadDot, Join, Word, Digits;
    var r0 := ReadOctet(s).value;
    var r1 := ReadDot(r0.1).value;
    var r2 := ReadDot(r1.1).value;
    var r3 := ReadDot(r2.1).value;
    a, b, c, d := r0.0, r1.0, r2.0, r3.0;
    OctetBackward(s);
    DotBackward(r0.1);
    DotBackward(r1.1);
    DotBackward(r2.1);
    JoinIsWord(a, b, c, d);
    Concatenated(Printed(a), Printed(b), Printed(c), Printed(d));
  }

  lemma Concatenated(a: string, b: string, c: string, d: string)
    ensures a + ("." + (b + ("." + (c + ("." + (d + "")))))) == a + "." + b + "." + c + "." + d
  {
  }

  // ---- Lines ---------------------------------------------------------------------

  datatype Key = Ip | Mask | Gateway | Essid | Ntp

  const ALL: set<Key> := {Ip, Mask, Gateway, Essid, Ntp}

  function Name(k: Key): string {
    match k
    case Ip => "IPAddress"
    case Mask => "IPSubnetMask"
    case Gateway => "IPDefaultGateway"
    case Essid => "WL54EssId"
    case Ntp => "NTPServer"
  }

  /** The line starts with the key's name and a digit. */
  predicate Starts(s: string, k: Key) {
    |s| > |Name(k)| && Name(k) <= s && Digit(s[|Name(k)|])
  }

  function FindKey(s: string): Option<Key> {
    if Starts(s, Ip) then Some(Ip)
    else if Starts(s, Mask) then Some(Mask)
    else if Starts(s, Gateway) then Some(Gateway)
    else if Starts(s, Essid) then Some(Essid)
    else if Starts(s, Ntp) then Some(Ntp)
    else None
  }

  /** `<N>=`: at most four digits, 1 to 128, no leading zero. */
  function ReadIndex(p: string): Option<(nat, string)> {
    var n := DigitRun(p, 4);
    var v := Number(p[..n]);
    if n == |p| || p[n] != '=' || p[0] == '0' || v < 1 || v > SLOTS then None
    else Some((v, p[n + 1..]))
  }

  /** The value of a line, stored into the entry under construction. */
  function ReadValue(k: Key, v: string, e: Entry): Option<Entry> {
    var a := ReadAddress(v);
    match k
    case Essid =>
      if |v| >= 2 && v[0] == '"' && v[|v| - 1] == '"' && |v| - 2 <= ESSID_MAX && '"' !in v[1..|v| - 1]
      then Some(e.(essid := v[1..|v| - 1]))
      else None
    case Ip => if a.None? then None else Some(e.(ip := a.value))
    case Mask => if a.None? then None else Some(e.(mask := a.value))
    case Gateway => if a.None? then None else Some(e.(gateway := a.value))
    case Ntp => if a.None? then None else Some(e.(ntp := a.value))
  }

  /** What the lines read so far amount to, slot by slot. */
  datatype Out = Out(entry: seq<Entry>, keys: seq<set<Key>>, bad: seq<bool>, errorLine: nat)

  predicate Shaped(o: Out) {
    |o.entry| == |o.keys| == |o.bad| == SLOTS
  }

  function Note(o: Out, line: nat): Out {
    if o.errorLine != 0 then o else o.(errorLine := line)
  }

  /** parse_line */
  function ReadLine(s: string, o: Out, line: nat): (r: Out)
    requires Shaped(o)
    ensures Shaped(r)
  {
    var k := FindKey(s);
    if '\0' in s || k.None? then Note(o, line)
    else
      var x := ReadIndex(s[|Name(k.value)|..]);
      if x.None? then Note(o, line)
      else
        var i := x.value.0 - 1;
        if k.value in o.keys[i] then Note(o.(bad := o.bad[i := true]), line)
        else
          var e := ReadValue(k.value, x.value.1, o.entry[i]);
          if e.None? then Note(o.(bad := o.bad[i := true]), line)
          else o.(entry := o.entry[i := e.value.(number := i + 1)], keys := o.keys[i := o.keys[i] + {k.value}])
  }

  function StripCr(l: string): string {
    if l != "" && l[|l| - 1] == '\r' then l[..|l| - 1] else l
  }

  /** opc_iplist_text_parse */
  function ReadText(s: string, o: Out, line: nat): (r: Out)
    requires Shaped(o)
    ensures Shaped(r)
    decreases |s|
  {
    if s == "" then o
    else
      var l := StripCr(Line(s));
      ReadText(Rest(s), if l == "" then o else ReadLine(l, o, line), line + 1)
  }

  function BlankEntry(): Entry {
    Entry(0, 0, 0, 0, 0, 0, "")
  }

  function Fresh(): (o: Out)
    ensures Shaped(o)
  {
    Out(seq(SLOTS, _ => BlankEntry()), seq(SLOTS, _ => {}), seq(SLOTS, _ => false), 0)
  }

  // ---- Lists -----------------------------------------------------------------------

  datatype Slot = Vacant | Rejected | Kept(entry: Entry)

  function SlotOf(o: Out, i: nat): Slot
    requires Shaped(o) && i < SLOTS
  {
    if o.keys[i] == {} && !o.bad[i] then Vacant
    else if o.bad[i] || o.keys[i] != ALL then Rejected
    else if o.entry[i].ip != 0 && EntryError(o.entry[i]) != Fine then Rejected
    else if o.entry[i].ip == 0 then Vacant
    else Kept(o.entry[i].(flag := 0, number := i + 1))
  }

  function Collected(o: Out): (l: List)
    requires Shaped(o)
    ensures forall i :: 0 <= i < SLOTS ==> l[i] == if SlotOf(o, i).Kept? then Some(SlotOf(o, i).entry) else None
  {
    seq(SLOTS, i requires 0 <= i < SLOTS => if SlotOf(o, i).Kept? then Some(SlotOf(o, i).entry) else None)
  }

  const BOM: string := [0xEF as char, 0xBB as char, 0xBF as char]

  /** iplist_from_text: strict rejects the text for any bad line or list, lenient
      drops the bad lists and keeps the rest. */
  function FromText(s: string, strict: bool): Option<List> {
    var o := ReadText(Body(s), Fresh(), 1);
    if strict && (o.errorLine != 0 || AnyRejected(o)) then None else Some(Collected(o))
  }

  /** A leading byte order mark is skipped. */
  function Body(s: string): string {
    if BOM <= s then s[3..] else s
  }

  predicate AnyRejected(o: Out)
    requires Shaped(o)
  {
    exists i :: 0 <= i < SLOTS && SlotOf(o, i).Rejected?
  }

  // ---- Bad lines -----------------------------------------------------------------------

  /** Not a line of any list: a NUL, no known name, or no list number from 1 to 128
      before an equals sign. */
  ghost predicate BadLine(l: string) {
    && l != "" && OneLine(l) && l[|l| - 1] != '\r'
    && ('\0' in l || FindKey(l).None? || ReadIndex(l[|Name(FindKey(l).value)|..]).None?)
  }

  function Joined(ls: seq<string>, rest: string): string {
    if ls == [] then rest else ls[0] + "\n" + Joined(ls[1..], rest)
  }

  lemma LineKeepsError(l: string, o: Out, line: nat)
    requires Shaped(o) && line > 0
    ensures o.errorLine != 0 ==> ReadLine(l, o, line).errorLine != 0
    ensures BadLine(l) ==> ReadLine(l, o, line).errorLine != 0
  {
    hide FindKey, ReadIndex, ReadValue;
  }

  lemma {:induction false} ErrorSticks(s: string, o: Out, line: nat)
    requires Shaped(o) && o.errorLine != 0 && line > 0
    ensures ReadText(s, o, line).errorLine != 0
    decreases |s|
  {
    hide ReadLine;
    if s != "" {
      var l := StripCr(Line(s));
      LineKeepsError(l, o, line);
      ErrorSticks(Rest(s), if l == "" then o else ReadLine(l, o, line), line + 1);
    }
  }

  /** One bad line anywhere makes a text erroneous. */
  lemma {:induction false} BadLineNoted(ls: seq<string>, bad: string, after: string, o: Out, line: nat)
    requires Shaped(o) && line > 0 && BadLine(bad) && forall i :: 0 <= i < |ls| ==> OneLine(ls[i])
    ensures ReadText(Joined(ls, bad + "\n" + after), o, line).errorLine != 0
    decreases |ls|
  {
    hide ReadLine, BadLine, OneLine;
    var s := Joined(ls, bad + "\n" + after);
    if ls == [] {
      BadShape(bad);
      LinesOf(bad, after);
      LineKeepsError(bad, o, line);
      ErrorSticks(after, ReadLine(bad, o, line), line + 1);
    } else {
      var r := Joined(ls[1..], bad + "\n" + after);
      LinesOf(ls[0], r);
      assert s == ls[0] + "\n" + r;
      var l := StripCr(ls[0]);
      BadLineNoted(ls[1..], bad, after, if l == "" then o else ReadLine(l, o, line), line + 1);
    }
  }

  lemma BadShape(l: string)
    requires BadLine(l)
    ensures OneLine(l) && l != "" && StripCr(l) == l
  {
    hide FindKey, ReadIndex;
  }

  /** Strict reading takes nothing at all from a text with a bad line. */
  lemma BadLineRejects(ls: seq<string>, bad: string, after: string)
    requires BadLine(bad) && forall i :: 0 <= i < |ls| ==> OneLine(ls[i])
    requires !(BOM <= Joined(ls, bad + "\n" + after))
    ensures FromText(Joined(ls, bad + "\n" + after), true).None?
  {
    hide ReadText, BadLine, OneLine;
    BadLineNoted(ls, bad, after, Fresh(), 1);
  }

  // ---- Formatting -------------------------------------------------------------------

  function FieldText(k: Key, e: Entry): string {
    match k
    case Ip => Dotted(e.ip)
    case Mask => Dotted(e.mask)
    case Gateway => Dotted(e.gateway)
    case Essid => "\"" + e.essid + "\""
    case Ntp => Dotted(e.ntp)
  }

  /** One line without its newline. */
  function FieldLine(k: Key, n: nat, v: string): string {
    Name(k) + (Digits(n) + ("=" + v))
  }

  function FieldOf(k: Key, n: nat, e: Entry, rest: string): string {
    FieldLine(k, n, FieldText(k, e)) + "\n" + rest
  }

  /** The order in which the fields are written. */
  const ORDER: seq<Key> := [Ip, Mask, Gateway, Essid, Ntp]

  /** The lines of slot `n` for the given keys, and what follows. */
  function Block(ks: seq<Key>, n: nat, e: Entry, rest: string): string {
    if ks == [] then rest else FieldOf(ks[0], n, e, Block(ks[1..], n, e, rest))
  }

  /** opc_iplist_text_format, from slot index `i` on. */
  function FormatFrom(l: List, i: nat): string
    requires i <= SLOTS
    decreases SLOTS - i
  {
    if i == SLOTS then ""
    else if l[i].Some? then Block(ORDER, i + 1, l[i].value, FormatFrom(l, i + 1))
    else FormatFrom(l, i + 1)
  }

  function Format(l: List): string {
    FormatFrom(l, 0)
  }

  /** One line: the field's name, the list number, an equals sign, the value. */
  function NamedLine(name: string, n: nat, v: string): string {
    name + Digits(n) + "=" + v + "\n"
  }

  /** The text of one list: five lines, each field under its own name, in order. */
  lemma ListText(n: nat, e: Entry, rest: string)
    ensures Block(ORDER, n, e, rest) ==
              NamedLine("IPAddress", n, Dotted(e.ip)) +
              (NamedLine("IPSubnetMask", n, Dotted(e.mask)) +
               (NamedLine("IPDefaultGateway", n, Dotted(e.gateway)) +
                (NamedLine("WL54EssId", n, "\"" + e.essid + "\"") +
                 (NamedLine("NTPServer", n, Dotted(e.ntp)) + rest))))
  {
    hide FieldOf, NamedLine, Dotted;
    var r4 := FieldOf(Ntp, n, e, rest);
    var r3 := FieldOf(Essid, n, e, r4);
    var r2 := FieldOf(Gateway, n, e, r3);
    var r1 := FieldOf(Mask, n, e, r2);
    FieldNamed(Ntp, n, e, rest);
    FieldNamed(Essid, n, e, r4);
    FieldNamed(Gateway, n, e, r3);
    FieldNamed(Mask, n, e, r2);
    FieldNamed(Ip, n, e, r1);
    assert ORDER[1..] == [Mask, Gateway, Essid, Ntp];
    assert ORDER[1..][1..] == [Gateway, Essid, Ntp];
    assert ORDER[1..][1..][1..] == [Essid, Ntp];
    assert ORDER[1..][1..][1..][1..] == [Ntp];
    assert ORDER[1..][1..][1..][1..][1..] == [];
    assert Block(ORDER[1..][1..][1..][1..], n, e, rest) == r4;
    assert Block(ORDER[1..][1..][1..], n, e, rest) == r3;
    assert Block(ORDER[1..][1..], n, e, rest) == r2;
    assert Block(ORDER[1..], n, e, rest) == r1;
  }

  lemma FieldNamed(k: Key, n: nat, e: Entry, rest: string)
    ensures FieldOf(k, n, e, rest) == NamedLine(Name(k), n, FieldText(k, e)) + rest
  {
    hide Digits, Name, FieldText;
  }

  // ---- Reading back what was formatted ---------------------------------------------------

  lemma Named(k: Key)
    ensures Name(k) != ""
  {
  }

  lemma StartsOwn(k: Key, rest: string)
    requires rest != "" && Digit(rest[0])
    ensures FindKey(Name(k) + rest) == Some(k)
  {
    var s := Name(k) + rest;
    assert s[|Name(k)|] == rest[0];
    match k
    case Ip =>
    case Mask => assert s[2] == 'S';
    case Gateway => assert s[2] == 'D';
    case Essid => assert s[0] == 'W';
    case Ntp => assert s[0] == 'N';
  }

  lemma IndexText(n: nat)
    requires 1 <= n <= SLOTS
    ensures AllDigits(Digits(n)) && 0 < |Digits(n)| <= 3 && Number(Digits(n)) == n && Digits(n)[0] != '0'
  {
    DigitsRoundTrip(n);
    DigitsCanonical(n);
    assert Power(3) == 1000;
    DigitsShort(n, 3);
  }

  lemma IndexOf(n: nat, v: string)
    requires 1 <= n <= SLOTS
    ensures ReadIndex(Digits(n) + ("=" + v)) == Some((n, v))
  {
    IndexText(n);
    hide Digits, Number, DigitRun;
    var d, r := Digits(n), "=" + v;
    RunOf(d, r, 4);
    Cut(d, r);
    assert (d + r)[|d|] == '=' && (d + r)[0] == d[0];
    assert (d + r)[|d| + 1..] == v;
  }

  /** Only these characters occur in a formatted value. */
  predicate Printable(c: char) {
    c != '\n' && c != '\r' && c != '\0'
  }

  ghost predicate Clean(s: string) {
    forall i :: 0 <= i < |s| ==> Printable(s[i])
  }

  lemma CleanConcat(a: string, b: string)
    requires Clean(a) && Clean(b)
    ensures Clean(a + b)
  {
  }

  lemma CleanDigits(s: string)
    requires AllDigits(s)
    ensures Clean(s)
  {
  }

  lemma CleanNames(k: Key)
    ensures Clean(Name(k))
  {
  }

  lemma CleanOctet(o: bv8)
    ensures Clean(Printed(o))
  {
    OctetText(o);
    hide Printed;
    CleanDigits(Printed(o));
  }

  lemma CleanDotted(ip: bv32)
    ensures Clean(Dotted(ip))
  {
    var o := Octets(ip);
    CleanOctet(o.0);
    CleanOctet(o.1);
    CleanOctet(o.2);
    CleanOctet(o.3);
    hide Printed, Octets;
    var d := ".";
    assert Clean(d);
    CleanConcat(d, Printed(o.3));
    CleanConcat(Printed(o.2), d + Printed(o.3));
    CleanConcat(d, Printed(o.2) + (d + Printed(o.3)));
    CleanConcat(Printed(o.1), d + (Printed(o.2) + (d + Printed(o.3))));
    CleanConcat(d, Printed(o.1) + (d + (Printed(o.2) + (d + Printed(o.3)))));
    CleanConcat(Printed(o.0), d + (Printed(o.1) + (d + (Printed(o.2) + (d + Printed(o.3))))));
  }

  lemma CleanEssid(essid: string)
    requires InCharset(essid)
    ensures Clean("\"" + essid + "\"") && '"' !in essid
  {
    assert Clean(essid);
    CleanConcat("\"", essid);
    CleanConcat("\"" + essid, "\"");
  }

  lemma CleanField(k: Key, e: Entry)
    requires InCharset(e.essid)
    ensures Clean(FieldText(k, e))
  {
    hide Dotted, Clean, InCharset;
    match k
    case Ip => CleanDotted(e.ip);
    case Mask => CleanDotted(e.mask);
    case Gateway => CleanDotted(e.gateway);
    case Essid => CleanEssid(e.essid);
    case Ntp => CleanDotted(e.ntp);
  }

  lemma CleanLine(k: Key, n: nat, v: string)
    requires 1 <= n <= SLOTS && Clean(v)
    ensures Clean(FieldLine(k, n, v)) && FieldLine(k, n, v) != ""
  {
    IndexText(n);
    CleanNames(k);
    CleanDigits(Digits(n));
    Named(k);
    hide Digits, Name, AllDigits, Number;
    assert Clean("=");
    CleanConcat("=", v);
    CleanConcat(Digits(n), "=" + v);
    CleanConcat(Name(k), Digits(n) + ("=" + v));
  }

  lemma CleanMeans(s: string)
    requires Clean(s) && s != ""
    ensures OneLine(s) && '\0' !in s && StripCr(s) == s
  {
  }

  /** A formatted line parses to its key, slot and value. */
  lemma FieldLineParts(k: Key, n: nat, v: string)
    requires 1 <= n <= SLOTS && Clean(v)
    ensures var s := FieldLine(k, n, v);
            && FindKey(s) == Some(k) && |Name(k)| <= |s|
            && ReadIndex(s[|Name(k)|..]) == Some((n, v))
  {
    IndexText(n);
    hide Digits, Name, FindKey, ReadIndex, Number, AllDigits;
    var r := Digits(n) + ("=" + v);
    assert r[0] == Digits(n)[0];
    DigitOfAll(Digits(n));
    StartsOwn(k, r);
    IndexOf(n, v);
    Cut(Name(k), r);
  }

  lemma DigitOfAll(d: string)
    requires AllDigits(d) && d != ""
    ensures Digit(d[0])
  {
  }

  /** `cur` with field `k` taken from `e`. */
  function With(k: Key, cur: Entry, e: Entry): Entry {
    match k
    case Ip => cur.(ip := e.ip)
    case Mask => cur.(mask := e.mask)
    case Gateway => cur.(gateway := e.gateway)
    case Essid => cur.(essid := e.essid)
    case Ntp => cur.(ntp := e.ntp)
  }

  lemma EssidBack(essid: string)
    requires |essid| <= ESSID_MAX && '"' !in essid
    ensures var v := "\"" + essid + "\"";
            |v| >= 2 && v[0] == '"' && v[|v| - 1] == '"' && v[1..|v| - 1] == essid
  {
  }

  lemma ValueBack(k: Key, cur: Entry, e: Entry)
    requires InCharset(e.essid) && |e.essid| <= ESSID_MAX
    ensures ReadValue(k, FieldText(k, e), cur) == Some(With(k, cur, e))
  {
    hide Dotted, ReadAddress, InCharset, Clean;
    match k
    case Ip => AddressRoundTrip(e.ip);
    case Mask => AddressRoundTrip(e.mask);
    case Gateway => AddressRoundTrip(e.gateway);
    case Essid => CleanEssid(e.essid); EssidBack(e.essid);
    case Ntp => AddressRoundTrip(e.ntp);
  }

  /** The reading state after field `k` of slot `i`. */
  function Stored(o: Out, k: Key, i: nat, e: Entry): (r: Out)
    requires Shaped(o) && i < SLOTS
    ensures Shaped(r)
  {
    o.(entry := o.entry[i := With(k, o.entry[i], e).(number := i + 1)], keys := o.keys[i := o.keys[i] + {k}])
  }

  lemma ReadField(k: Key, i: nat, e: Entry, rest: string, o: Out, line: nat)
    requires Shaped(o) && i < SLOTS && InCharset(e.essid) && |e.essid| <= ESSID_MAX && k !in o.keys[i]
    ensures ReadText(FieldOf(k, i + 1, e, rest), o, line) == ReadText(rest, Stored(o, k, i, e), line + 1)
  {
    hide FieldText, FieldLine, FindKey, ReadIndex, ReadValue, InCharset, LineLen, Name, With;
    var v := FieldText(k, e);
    var s := FieldLine(k, i + 1, v);
    CleanField(k, e);
    CleanLine(k, i + 1, v);
    CleanMeans(s);
    FieldLineParts(k, i + 1, v);
    ValueBack(k, o.entry[i], e);
    LinesOf(s, rest);
    ReadTextUnfolds(s, rest, o, line);
  }

  lemma ReadTextUnfolds(s: string, rest: string, o: Out, line: nat)
    requires Shaped(o) && s != "" && StripCr(s) == s && Line(s + "\n" + rest) == s && Rest(s + "\n" + rest) == rest
    ensures ReadText(s + "\n" + rest, o, line) == ReadText(rest, ReadLine(s, o, line), line + 1)
  {
    hide ReadLine, Line, Rest, StripCr;
    assert s + "\n" + rest != "";
  }

  /** The entry as a text gives it back: no boundary flag. */
  function Normal(e: Entry, i: nat): Entry {
    Entry(i + 1, 0, e.ip, e.mask, e.gateway, e.ntp, e.essid)
  }

  function Filled(o: Out, i: nat, e: Entry): (r: Out)
    requires Shaped(o) && i < SLOTS
    ensures Shaped(r)
  {
    o.(entry := o.entry[i := Normal(e, i)], keys := o.keys[i := ALL])
  }

  function StoredAll(o: Out, ks: seq<Key>, i: nat, e: Entry): (r: Out)
    requires Shaped(o) && i < SLOTS
    ensures Shaped(r)
    decreases |ks|
  {
    if ks == [] then o else StoredAll(Stored(o, ks[0], i, e), ks[1..], i, e)
  }

  ghost predicate Unrepeated(ks: seq<Key>, seen: set<Key>) {
    && (forall a :: 0 <= a < |ks| ==> ks[a] !in seen)
    && (forall a, b :: 0 <= a < b < |ks| ==> ks[a] != ks[b])
  }

  lemma {:induction false} ReadBlock(ks: seq<Key>, i: nat, e: Entry, rest: string, o: Out, line: nat)
    requires Shaped(o) && i < SLOTS && Unrepeated(ks, o.keys[i])
    requires InCharset(e.essid) && |e.essid| <= ESSID_MAX
    ensures ReadText(Block(ks, i + 1, e, rest), o, line) == ReadText(rest, StoredAll(o, ks, i, e), line + |ks|)
  {
    hide ReadText, FieldOf, InCharset, With;
    if ks != [] {
      ReadField(ks[0], i, e, Block(ks[1..], i + 1, e, rest), o, line);
      ReadBlock(ks[1..], i, e, rest, Stored(o, ks[0], i, e), line + 1);
    }
  }

  lemma FiveFields(o: Out, i: nat, e: Entry)
    requires Shaped(o) && i < SLOTS && o.keys[i] == {} && o.entry[i] == BlankEntry()
    ensures StoredAll(o, ORDER, i, e) == Filled(o, i, e)
  {
    var o1 := Stored(o, Ip, i, e);
    var o2 := Stored(o1, Mask, i, e);
    var o3 := Stored(o2, Gateway, i, e);
    var o4 := Stored(o3, Essid, i, e);
    var r := Stored(o4, Ntp, i, e);
    assert StoredAll(o, ORDER, i, e) == r by {
      hide Stored;
      assert ORDER[1..] == [Mask, Gateway, Essid, Ntp];
      assert [Mask, Gateway, Essid, Ntp][1..] == [Gateway, Essid, Ntp];
      assert [Gateway, Essid, Ntp][1..] == [Essid, Ntp];
      assert [Essid, Ntp][1..] == [Ntp];
      assert [Ntp][1..] == [];
      assert StoredAll(o4, [Ntp], i, e) == r;
      assert StoredAll(o3, [Essid, Ntp], i, e) == r;
      assert StoredAll(o2, [Gateway, Essid, Ntp], i, e) == r;
      assert StoredAll(o1, [Mask, Gateway, Essid, Ntp], i, e) == r;
    }
    assert r.keys[i] == ALL && r.entry[i] == Normal(e, i);
    assert r.entry == o.entry[i := Normal(e, i)];
    assert r.keys == o.keys[i := ALL];
  }

  lemma OrderUnrepeated()
    ensures Unrepeated(ORDER, {})
  {
  }

  /** The reading state when the slots below `i` have been read. */
  function UpTo(l: List, i: nat): (o: Out)
    requires i <= SLOTS
    ensures Shaped(o) && o.errorLine == 0
  {
    Out(seq(SLOTS, j requires 0 <= j < SLOTS => if j < i && l[j].Some? then Normal(l[j].value, j) else BlankEntry()),
        seq(SLOTS, j requires 0 <= j < SLOTS => if j < i && l[j].Some? then ALL else {}),
        seq(SLOTS, _ => false), 0)
  }

  lemma UpToNext(l: List, i: nat)
    requires i < SLOTS
    ensures UpTo(l, i).keys[i] == {} && UpTo(l, i).entry[i] == BlankEntry()
    ensures UpTo(l, i + 1) == if l[i].Some? then Filled(UpTo(l, i), i, l[i].value) else UpTo(l, i)
  {
    var o := UpTo(l, i + 1);
    var r := if l[i].Some? then Filled(UpTo(l, i), i, l[i].value) else UpTo(l, i);
    assert o.entry == r.entry;
    assert o.keys == r.keys;
  }

  lemma {:induction false} ReadFormatted(l: List, i: nat, line: nat)
    requires i <= SLOTS && Sound(l)
    ensures ReadText(FormatFrom(l, i), UpTo(l, i), line) == UpTo(l, SLOTS)
    decreases SLOTS - i
  {
    hide UpTo, Filled, Block, EntryError, StoredAll, InCharset;
    if i < SLOTS {
      UpToNext(l, i);
      if l[i].Some? {
        Charset(l[i].value);
        OrderUnrepeated();
        FiveFields(UpTo(l, i), i, l[i].value);
        ReadBlock(ORDER, i, l[i].value, FormatFrom(l, i + 1), UpTo(l, i), line);
        ReadFormatted(l, i + 1, line + 5);
      } else {
        ReadFormatted(l, i + 1, line);
      }
    }
  }

  lemma Charset(e: Entry)
    requires EntryError(e) == Fine
    ensures InCharset(e.essid) && |e.essid| <= ESSID_MAX
  {
    hide AddressError, InCharset;
  }

  /** A list as a text gives it back. */
  function Normalized(l: List): (r: List)
    ensures forall i :: 0 <= i < SLOTS ==> r[i] == if l[i].Some? then Some(Normal(l[i].value, i)) else None
  {
    seq(SLOTS, i requires 0 <= i < SLOTS => if l[i].Some? then Some(Normal(l[i].value, i)) else None)
  }

  lemma FreshIsUpTo(l: List)
    ensures Fresh() == UpTo(l, 0)
  {
  }

  lemma NormalFine(e: Entry, i: nat)
    requires EntryError(e) == Fine
    ensures EntryError(Normal(e, i)) == Fine
  {
    hide AddressError, InCharset;
  }

  lemma SlotsOfFormatted(l: List, i: nat)
    requires Sound(l) && i < SLOTS
    ensures SlotOf(UpTo(l, SLOTS), i) == if l[i].Some? then Kept(Normal(l[i].value, i)) else Vacant
  {
    hide EntryError;
    if l[i].Some? {
      NormalFine(l[i].value, i);
    }
  }

  lemma NoBom(l: List)
    ensures !(BOM <= Format(l))
  {
    FirstLetter(l, 0);
    assert BOM[0] == 0xEF as char;
  }

  lemma {:induction false} FirstLetter(l: List, i: nat)
    requires i <= SLOTS
    ensures FormatFrom(l, i) == "" || FormatFrom(l, i)[0] == 'I'
    decreases SLOTS - i
  {
    hide Block;
    if i < SLOTS {
      FirstLetter(l, i + 1);
      if l[i].Some? {
        BlockLetter(i + 1, l[i].value, FormatFrom(l, i + 1));
      }
    }
  }

  lemma BlockLetter(n: nat, e: Entry, rest: string)
    ensures var b := Block(ORDER, n, e, rest); b != "" && b[0] == 'I'
  {
    hide Digits, FieldText;
    var b := Block(ORDER[1..], n, e, rest);
    assert FieldOf(Ip, n, e, b)[0] == Name(Ip)[0];
  }

  /** Both ways of reading give back the list that was formatted. */
  lemma TextRoundTrip(l: List, strict: bool)
    requires Sound(l)
    ensures FromText(Format(l), strict) == Some(Normalized(l))
  {
    hide ReadText, SlotOf, UpTo, FormatFrom;
    NoBom(l);
    FreshIsUpTo(l);
    ReadFormatted(l, 0, 1);
    var o := UpTo(l, SLOTS);
    forall i | 0 <= i < SLOTS
      ensures SlotOf(o, i) == if l[i].Some? then Kept(Normal(l[i].value, i)) else Vacant
    {
      SlotsOfFormatted(l, i);
    }
    assert Collected(o) == Normalized(l);
  }

  /** iplist_same: two lists print alike iff they hold the same entries. */
  lemma SameTextSameList(a: List, b: List)
    requires Sound(a) && Sound(b)
    ensures Format(a) == Format(b) <==> Normalized(a) == Normalized(b)
  {
    hide FromText, Format;
    TextRoundTrip(a, true);
    TextRoundTrip(b, true);
    if Normalized(a) == Normalized(b) {
      FormatNormalized(a);
      FormatNormalized(b);
    }
  }

  lemma FormatNormalized(l: List)
    ensures Format(Normalized(l)) == Format(l)
  {
    FormatNormalizedFrom(l, 0);
  }

  lemma {:induction false} FormatNormalizedFrom(l: List, i: nat)
    requires i <= SLOTS
    ensures FormatFrom(Normalized(l), i) == FormatFrom(l, i)
    decreases SLOTS - i
  {
    hide Block;
    if i < SLOTS {
      FormatNormalizedFrom(l, i + 1);
      if l[i].Some? {
        SameBlock(ORDER, i + 1, l[i].value, i, FormatFrom(l, i + 1));
      }
    }
  }

  lemma {:induction false} SameBlock(ks: seq<Key>, n: nat, e: Entry, i: nat, rest: string)
    ensures Block(ks, n, Normal(e, i), rest) == Block(ks, n, e, rest)
  {
    hide FieldLine, Dotted;
    if ks != [] { SameBlock(ks[1..], n, e, i, rest); }
  }

  // ---- Length -------------------------------------------------------------------------

  lemma OctetShort(o: bv8)
    ensures |Printed(o)| <= 3
  {
    OctetText(o);
  }

  lemma DottedShort(ip: bv32)
    ensures |Dotted(ip)| <= 15
  {
    var o := Octets(ip);
    OctetShort(o.0);
    OctetShort(o.1);
    OctetShort(o.2);
    OctetShort(o.3);
    hide Printed, Octets;
  }

  /** Longest line of field `k` for a slot number of `d` digits, newline included. */
  function LineMax(k: Key, d: nat): nat {
    d + match k
        case Ip => 26
        case Mask => 29
        case Gateway => 33
        case Essid => 44
        case Ntp => 26
  }

  lemma FieldShort(k: Key, n: nat, e: Entry, rest: string)
    requires |e.essid| <= ESSID_MAX
    ensures |FieldOf(k, n, e, rest)| <= LineMax(k, |Digits(n)|) + |rest|
  {
    hide Dotted, Digits;
    DottedShort(e.ip);
    DottedShort(e.mask);
    DottedShort(e.gateway);
    DottedShort(e.ntp);
  }

  function LinesMax(ks: seq<Key>, d: nat): nat {
    if ks == [] then 0 else LineMax(ks[0], d) + LinesMax(ks[1..], d)
  }

  lemma {:induction false} LinesShort(ks: seq<Key>, n: nat, e: Entry, rest: string)
    requires |e.essid| <= ESSID_MAX
    ensures |Block(ks, n, e, rest)| <= LinesMax(ks, |Digits(n)|) + |rest|
  {
    hide Digits, FieldOf, LineMax;
    if ks != [] {
      FieldShort(ks[0], n, e, Block(ks[1..], n, e, rest));
      LinesShort(ks[1..], n, e, rest);
    }
  }

  lemma OrderMax(d: nat)
    ensures LinesMax(ORDER, d) == 158 + 5 * d
  {
    assert ORDER[1..] == [Mask, Gateway, Essid, Ntp];
    assert [Mask, Gateway, Essid, Ntp][1..] == [Gateway, Essid, Ntp];
    assert [Gateway, Essid, Ntp][1..] == [Essid, Ntp];
    assert [Essid, Ntp][1..] == [Ntp];
    assert LinesMax([Ntp], d) == 26 + d;
    assert LinesMax([Essid, Ntp], d) == 70 + 2 * d;
    assert LinesMax([Gateway, Essid, Ntp], d) == 103 + 3 * d;
    assert LinesMax([Mask, Gateway, Essid, Ntp], d) == 132 + 4 * d;
  }

  lemma BlockShort(n: nat, e: Entry, rest: string)
    requires |e.essid| <= ESSID_MAX
    ensures |Block(ORDER, n, e, rest)| <= 158 + 5 * |Digits(n)| + |rest|
  {
    hide Digits, Block, LinesMax;
    LinesShort(ORDER, n, e, rest);
    OrderMax(|Digits(n)|);
  }

  /** Longest text from slot index `i` on. */
  function TextMax(i: nat): nat
    requires i <= SLOTS
  {
    if i >= 99 then (SLOTS - i) * 173
    else if i >= 9 then 29 * 173 + (99 - i) * 168
    else 29 * 173 + 90 * 168 + (9 - i) * 163
  }

  lemma SlotDigits(n: nat)
    requires 1 <= n <= SLOTS
    ensures |Digits(n)| <= if n < 10 then 1 else if n < 100 then 2 else 3
  {
    assert Power(1) == 10 && Power(2) == 100 && Power(3) == 1000;
    if n < 10 { DigitsShort(n, 1); } else if n < 100 { DigitsShort(n, 2); } else { DigitsShort(n, 3); }
  }

  lemma {:induction false} FormatShort(l: List, i: nat)
    requires i <= SLOTS && Sound(l)
    ensures |FormatFrom(l, i)| <= TextMax(i)
    decreases SLOTS - i
  {
    hide Block, EntryError, Digits, InCharset;
    if i < SLOTS {
      FormatShort(l, i + 1);
      if l[i].Some? {
        Charset(l[i].value);
        SlotDigits(i + 1);
        BlockShort(i + 1, l[i].value, FormatFrom(l, i + 1));
      }
    }
  }

  /** The longest text is 21,604 bytes, so formatting never overruns its buffer
      and the text always fits a job of the writer. */
  lemma FormatFits(l: List)
    requires Sound(l)
    ensures |Format(l)| <= 21604 < TEXT_MAX
  {
    FormatShort(l, 0);
    hide FormatFrom;
  }

  // ---- The loops ----------------------------------------------------------------------

  lemma {:induction false} BlockThen(ks: seq<Key>, n: nat, e: Entry, rest: string)
    ensures Block(ks, n, e, rest) == Block(ks, n, e, "") + rest
  {
    if ks != [] {
      BlockThen(ks[1..], n, e, rest);
      hide FieldLine, FieldText;
      var b := Block(ks[1..], n, e, "");
      ThenAfter(FieldLine(ks[0], n, FieldText(ks[0], e)), b, rest);
    } else {
      assert "" + rest == rest;
    }
  }

  lemma ThenAfter(a: string, b: string, c: string)
    ensures a + "\n" + (b + c) == a + "\n" + b + c
  {
  }

  lemma Assoc(a: string, b: string, c: string)
    ensures a + (b + c) == a + b + c
  {
  }

  /** opc_iplist_text_format */
  method FormatText(l: List) returns (text: string)
    ensures text == Format(l)
  {
    hide Block, FormatFrom;
    text := "";
    for i := 0 to SLOTS
      invariant text + FormatFrom(l, i) == Format(l)
    {
      FormatUnfolds(l, i);
      if l[i].Some? {
        BlockThen(ORDER, i + 1, l[i].value, FormatFrom(l, i + 1));
        Assoc(text, Block(ORDER, i + 1, l[i].value, ""), FormatFrom(l, i + 1));
        text := text + Block(ORDER, i + 1, l[i].value, "");
      }
    }
    FormatEnds(l);
    assert text + "" == text;
  }

  lemma FormatUnfolds(l: List, i: nat)
    requires i < SLOTS
    ensures FormatFrom(l, i) ==
              if l[i].Some? then Block(ORDER, i + 1, l[i].value, FormatFrom(l, i + 1)) else FormatFrom(l, i + 1)
  {
    hide Block;
  }

  lemma FormatEnds(l: List)
    ensures FormatFrom(l, SLOTS) == ""
  {
  }

  /** The line loop of opc_iplist_text_parse. */
  method ParseText(buf: string) returns (o: Out)
    ensures o == ReadText(buf, Fresh(), 1)
  {
    hide ReadLine, LineLen, Fresh, ReadText;
    o := Fresh();
    var p, line := 0, 1;
    assert buf[0..] == buf;
    while p < |buf|
      invariant 0 <= p <= |buf| && Shaped(o)
      invariant ReadText(buf[p..], o, line) == ReadText(buf, Fresh(), 1)
    {
      ghost var s := buf[p..];
      var nl := EndOfLine(buf, p);
      var next := if nl < |buf| then nl + 1 else nl;
      assert Line(s) == buf[p..nl];
      assert Rest(s) == buf[next..];
      ReadTextStep(s, o, line);
      var end := if nl > p && buf[nl - 1] == '\r' then nl - 1 else nl;
      assert StripCr(Line(s)) == buf[p..end];
      if end > p { o := ReadLine(buf[p..end], o, line); }
      p, line := next, line + 1;
    }
    assert buf[p..] == "";
    ReadTextEnds(o, line);
  }

  lemma ReadTextStep(s: string, o: Out, line: nat)
    requires s != "" && Shaped(o)
    ensures var l := StripCr(Line(s));
            ReadText(s, o, line) == ReadText(Rest(s), if l == "" then o else ReadLine(l, o, line), line + 1)
  {
    hide ReadLine, LineLen, StripCr;
  }

  lemma ReadTextEnds(o: Out, line: nat)
    requires Shaped(o)
    ensures ReadText("", o, line) == o
  {
  }

  /** The slot loop of iplist_from_text. */
  method ParseList(buf: string, strict: bool) returns (r: Option<List>)
    ensures r == FromText(buf, strict)
  {
    hide ReadText, SlotOf, Fresh;
    var o := ParseText(Body(buf));
    if strict && o.errorLine != 0 { return None; }
    var l: List := Empty();
    var i := 0;
    while i < SLOTS
      invariant 0 <= i <= SLOTS
      invariant forall j :: 0 <= j < i ==> l[j] == Collected(o)[j]
      invariant forall j :: i <= j < SLOTS ==> l[j] == None
      invariant strict ==> forall j :: 0 <= j < i ==> !SlotOf(o, j).Rejected?
    {
      var x := SlotOf(o, i);
      if strict && x.Rejected? { return None; }
      if x.Kept? { l := l[i := Some(x.entry)]; }
      i := i + 1;
    }
    assert l == Collected(o);
    return Some(l);
  }
}
