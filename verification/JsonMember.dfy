/** The JSON member scanner (opcd/devinfo_cfg.c): one pass over the text with a
    depth counter, against lookup in the tree the text denotes. Object syntax is
    that of section 4 of RFC 8259, with any whitespace and any nesting. */
module JsonMember {
  import opened Common

  predicate Space(c: char) {
    c == ' ' || c == '\t' || c == '\r' || c == '\n'
  }

  ghost predicate Spaces(s: string) {
    forall i :: 0 <= i < |s| ==> Space(s[i])
  }

  // ---- The scanner -------------------------------------------------------------------

  /** skip_string, after the opening quote: offset of the closing one. */
  function Close(t: string): (r: Option<nat>)
    ensures r.Some? ==> r.value < |t|
  {
    if t == "" then None
    else if t[0] == '\\' then
      if |t| == 1 || Close(t[2..]).None? then None else Some(2 + Close(t[2..]).value)
    else if t[0] == '"' then Some(0)
    else if Close(t[1..]).None? then None
    else Some(1 + Close(t[1..]).value)
  }

  function SkipSpaces(t: string): (r: string)
    ensures |r| <= |t|
  {
    if t != "" && Space(t[0]) then SkipSpaces(t[1..]) else t
  }

  /** What follows a colon, if that is what comes next. */
  function AfterColon(t: string): Option<string> {
    var s := SkipSpaces(t);
    if s != "" && s[0] == ':' then Some(SkipSpaces(s[1..])) else None
  }

  /** at_key on a text that starts with a quote: where the value starts. */
  function AtKey(t: string, name: string): Option<string> {
    if t != "" && name + "\"" <= t[1..] then AfterColon(t[1 + |name| + 1..]) else None
  }

  /** The loop of `member`: the rest of the text from the value on. */
  function Scan(t: string, depth: int, name: string): Option<string>
    decreases |t|
  {
    if t == "" then None
    else if t[0] == '"' then
      var key := AtKey(t, name);
      if depth == 1 && key.Some? then key
      else
        var c := Close(t[1..]);
        if c.None? then None else Scan(t[1..][c.value + 1..], depth, name)
    else if t[0] == '{' || t[0] == '[' then Scan(t[1..], depth + 1, name)
    else if t[0] == '}' || t[0] == ']' then
      if depth == 1 then None else Scan(t[1..], depth - 1, name)
    else Scan(t[1..], depth, name)
  }

  function Member(obj: string, name: string): Option<string> {
    if obj == "" || obj[0] != '{' then None else Scan(obj, 0, name)
  }

  // ---- Documents -----------------------------------------------------------------------

  /** A value as it is written. Strings hold their raw text between the quotes,
      other scalars their text; every gap of the grammar is whitespace. */
  datatype Value =
    | Str(body: string)
    | Token(text: string)
    | Arr(gap: string, items: Items)
    | Obj(gap: string, members: Members)

  datatype Items = NoItems | Item(value: Value, after: string, before: string, rest: Items)

  datatype Members =
    | NoMembers
    | Entry(key: string, g1: string, g2: string, value: Value, after: string, before: string, rest: Members)

  /** The text of a value followed by `k`. */
  function ValueThen(v: Value, k: string): string
    decreases v, 0
  {
    match v
    case Str(b) => "\"" + (b + ("\"" + k))
    case Token(t) => t + k
    case Arr(g, xs) => "[" + (g + ItemsThen(xs, "]" + k))
    case Obj(g, ms) => "{" + (g + MembersThen(ms, "}" + k))
  }

  function ItemsThen(xs: Items, k: string): string
    decreases xs, 0
  {
    match xs
    case NoItems => k
    case Item(v, after, before, rest) =>
      ValueThen(v, after + if rest.NoItems? then k else "," + (before + ItemsThen(rest, k)))
  }

  function MembersThen(ms: Members, k: string): string
    decreases ms, 0
  {
    match ms
    case NoMembers => k
    case Entry(key, g1, g2, v, after, before, rest) =>
      "\"" + (key + ("\"" + (g1 + (":" + (g2 + ValueThen(v, NextThen(after, before, rest, k)))))))
  }

  /** What follows a member's value. */
  function NextThen(after: string, before: string, rest: Members, k: string): string
    decreases rest, 1
  {
    after + if rest.NoMembers? then k else "," + (before + MembersThen(rest, k))
  }

  /** Text between quotes: every quote and backslash in it is escaped. */
  predicate Body(b: string) {
    if b == "" then true
    else if b[0] == '\\' then |b| >= 2 && Body(b[2..])
    else b[0] != '"' && Body(b[1..])
  }

  predicate Plain(c: char) {
    c !in {'"', '{', '}', '[', ']'} && !Space(c)
  }

  ghost predicate WfToken(t: string) {
    t != "" && t[0] != ':' && forall i :: 0 <= i < |t| ==> Plain(t[i])
  }

  ghost predicate Wf(v: Value) {
    match v
    case Str(b) => Body(b)
    case Token(t) => WfToken(t)
    case Arr(g, xs) => Spaces(g) && WfItems(xs)
    case Obj(g, ms) => Spaces(g) && WfMembers(ms)
  }

  ghost predicate WfItems(xs: Items) {
    match xs
    case NoItems => true
    case Item(v, after, before, rest) => Wf(v) && Spaces(after) && Spaces(before) && WfItems(rest)
  }

  ghost predicate WfMembers(ms: Members) {
    match ms
    case NoMembers => true
    case Entry(key, g1, g2, v, after, before, rest) =>
      Body(key) && Spaces(g1) && Spaces(g2) && Wf(v) && Spaces(after) && Spaces(before) && WfMembers(rest)
  }

  /** Lookup in the tree: the first member with that key. */
  function Lookup(ms: Members, name: string): Option<Value> {
    match ms
    case NoMembers => None
    case Entry(key, _, _, v, _, _, rest) => if key == name then Some(v) else Lookup(rest, name)
  }

  /** The text from that member's value on. */
  function From(ms: Members, name: string, k: string): Option<string> {
    match ms
    case NoMembers => None
    case Entry(key, _, _, v, after, before, rest) =>
      if key == name then Some(ValueThen(v, NextThen(after, before, rest, k))) else From(rest, name, k)
  }

  // ---- Strings ---------------------------------------------------------------------------

  /** A string literal ends at its own closing quote. */
  lemma {:induction false} CloseBody(b: string, k: string)
    requires Body(b)
    ensures Close(b + ("\"" + k)) == Some(|b|)
  {
    var t := b + ("\"" + k);
    if b == "" {
      assert t == "\"" + k;
    } else if b[0] == '\\' {
      assert t[2..] == b[2..] + ("\"" + k);
      CloseBody(b[2..], k);
    } else {
      assert t[1..] == b[1..] + ("\"" + k);
      CloseBody(b[1..], k);
    }
  }

  lemma Regroup(a: string, t: string)
    requires a + "\"" <= t
    ensures t == a + ("\"" + t[|a| + 1..]) && t[..|a|] == a
  {
    assert t == (a + "\"") + t[|a| + 1..];
  }

  /** No literal is a proper beginning of another: a name that matches up to a
      quote is the whole key. */
  lemma NameIsKey(name: string, b: string, k: string)
    requires Body(name) && Body(b)
    ensures name + "\"" <= b + ("\"" + k) <==> name == b
  {
    hide Body, Close;
    var t := b + ("\"" + k);
    assert t[..|b|] == b;
    if name + "\"" <= t {
      Regroup(name, t);
      CloseBody(name, t[|name| + 1..]);
      CloseBody(b, k);
    } else {
      assert t == b + "\"" + k;
    }
  }

  lemma {:induction false} SkipOver(g: string, k: string)
    requires Spaces(g)
    ensures SkipSpaces(g + k) == SkipSpaces(k)
  {
    if g == "" {
      assert g + k == k;
    } else {
      assert (g + k)[1..] == g[1..] + k;
      SkipOver(g[1..], k);
    }
  }

  lemma ColonFollows(g: string, k: string)
    requires Spaces(g)
    ensures AfterColon(g + (":" + k)) == Some(SkipSpaces(k))
  {
    SkipOver(g, ":" + k);
    assert (":" + k)[1..] == k;
  }

  lemma KeyIff(b: string, k: string, name: string)
    requires Body(name) && Body(b)
    ensures AtKey("\"" + (b + ("\"" + k)), name) == if b == name then AfterColon(k) else None
  {
    hide AfterColon, Body;
    var r := b + ("\"" + k);
    var t := "\"" + r;
    assert t[1..] == r;
    NameIsKey(name, b, k);
    if b == name {
      assert t[1 + |name| + 1..] == k;
    }
  }

  // ---- Scanning over parts ------------------------------------------------------------------

  predicate Neutral(c: char) {
    c != '"' && c != '{' && c != '}' && c != '[' && c != ']'
  }

  lemma {:induction false} ScanOver(g: string, k: string, d: int, name: string)
    requires forall i :: 0 <= i < |g| ==> Neutral(g[i])
    ensures Scan(g + k, d, name) == Scan(k, d, name)
  {
    if g == "" {
      assert g + k == k;
    } else {
      assert (g + k)[1..] == g[1..] + k;
      ScanOver(g[1..], k, d, name);
    }
  }

  lemma ScanGap(g: string, k: string, d: int, name: string)
    requires Spaces(g)
    ensures Scan(g + k, d, name) == Scan(k, d, name)
  {
    hide Scan;
    ScanOver(g, k, d, name);
  }

  lemma ScanChar(c: string, k: string, d: int, name: string)
    requires |c| == 1 && c[0] != '"'
    ensures Scan(c + k, d, name) ==
              if c[0] == '{' || c[0] == '[' then Scan(k, d + 1, name)
              else if c[0] == '}' || c[0] == ']' then (if d == 1 then None else Scan(k, d - 1, name))
              else Scan(k, d, name)
  {
    assert (c + k)[1..] == k;
  }

  /** A string literal is passed over, unless it is the key looked for. */
  lemma ScanString(b: string, k: string, d: int, name: string)
    requires Body(b)
    ensures var t := "\"" + (b + ("\"" + k));
            Scan(t, d, name) == if d == 1 && AtKey(t, name).Some? then AtKey(t, name) else Scan(k, d, name)
  {
    var r := b + ("\"" + k);
    var t := "\"" + r;
    CloseBody(b, k);
    hide Close, Body, AtKey;
    assert t[1..] == r;
    assert r[|b| + 1..] == k;
  }

  // ---- Scanning over values ------------------------------------------------------------------

  /** Below the object's own level everything is passed over. */
  lemma {:induction false} SkipValue(v: Value, k: string, d: int, name: string)
    requires Wf(v) && d >= 2
    ensures Scan(ValueThen(v, k), d, name) == Scan(k, d, name)
    decreases v, 0
  {
    hide Scan, AtKey, Body;
    match v
    case Str(b) => ScanString(b, k, d, name);
    case Token(t) => ScanOver(t, k, d, name);
    case Arr(g, xs) =>
      var r := ItemsThen(xs, "]" + k);
      ScanChar("[", g + r, d, name);
      ScanGap(g, r, d + 1, name);
      SkipItems(xs, "]" + k, d + 1, name);
      ScanChar("]", k, d + 1, name);
    case Obj(g, ms) =>
      var r := MembersThen(ms, "}" + k);
      ScanChar("{", g + r, d, name);
      ScanGap(g, r, d + 1, name);
      SkipMembers(ms, "}" + k, d + 1, name);
      ScanChar("}", k, d + 1, name);
  }

  lemma {:induction false} SkipItems(xs: Items, k: string, d: int, name: string)
    requires WfItems(xs) && d >= 2
    ensures Scan(ItemsThen(xs, k), d, name) == Scan(k, d, name)
    decreases xs, 0
  {
    hide Scan, Spaces;
    match xs
    case NoItems =>
    case Item(v, after, before, rest) =>
      var r := ItemsThen(rest, k);
      var n := if rest.NoItems? then k else "," + (before + r);
      SkipValue(v, after + n, d, name);
      ScanGap(after, n, d, name);
      if !rest.NoItems? {
        ScanChar(",", before + r, d, name);
        ScanGap(before, r, d, name);
        SkipItems(rest, k, d, name);
      }
  }

  lemma {:induction false} SkipMembers(ms: Members, k: string, d: int, name: string)
    requires WfMembers(ms) && d >= 2
    ensures Scan(MembersThen(ms, k), d, name) == Scan(k, d, name)
    decreases ms, 0
  {
    hide Scan, Spaces, AtKey, Body;
    match ms
    case NoMembers =>
    case Entry(key, g1, g2, v, after, before, rest) =>
      var n := NextThen(after, before, rest, k);
      var r := ValueThen(v, n);
      ScanString(key, g1 + (":" + (g2 + r)), d, name);
      ScanGap(g1, ":" + (g2 + r), d, name);
      ScanChar(":", g2 + r, d, name);
      ScanGap(g2, r, d, name);
      SkipValue(v, n, d, name);
      SkipNext(after, before, rest, k, d, name);
  }

  lemma {:induction false} SkipNext(after: string, before: string, rest: Members, k: string, d: int, name: string)
    requires Spaces(after) && Spaces(before) && WfMembers(rest) && d >= 2
    ensures Scan(NextThen(after, before, rest, k), d, name) == Scan(k, d, name)
    decreases rest, 1
  {
    hide Scan, Spaces;
    var r := MembersThen(rest, k);
    ScanGap(after, if rest.NoMembers? then k else "," + (before + r), d, name);
    if !rest.NoMembers? {
      ScanChar(",", before + r, d, name);
      ScanGap(before, r, d, name);
      SkipMembers(rest, k, d, name);
    }
  }

  /** A member's value is passed over at the object's own level too, because what
      follows it is not a colon. */
  lemma SkipTop(v: Value, k: string, name: string)
    requires Wf(v) && Body(name) && AfterColon(k).None?
    ensures Scan(ValueThen(v, k), 1, name) == Scan(k, 1, name)
  {
    hide Scan, AtKey, Body, AfterColon;
    match v
    case Str(b) =>
      KeyIff(b, k, name);
      ScanString(b, k, 1, name);
    case Token(t) => ScanOver(t, k, 1, name);
    case Arr(g, xs) =>
      var r := ItemsThen(xs, "]" + k);
      ScanChar("[", g + r, 1, name);
      ScanGap(g, r, 2, name);
      SkipItems(xs, "]" + k, 2, name);
      ScanChar("]", k, 2, name);
    case Obj(g, ms) =>
      var r := MembersThen(ms, "}" + k);
      ScanChar("{", g + r, 1, name);
      ScanGap(g, r, 2, name);
      SkipMembers(ms, "}" + k, 2, name);
      ScanChar("}", k, 2, name);
  }

  lemma NoColon(after: string, c: string, k: string)
    requires Spaces(after) && (c == "," || c == "}")
    ensures AfterColon(after + (c + k)).None?
  {
    SkipOver(after, c + k);
  }

  /** The value of a member starts right after its colon and the whitespace. */
  lemma ValueStarts(v: Value, k: string)
    requires Wf(v)
    ensures SkipSpaces(ValueThen(v, k)) == ValueThen(v, k)
  {
    hide ItemsThen, MembersThen, Body;
  }

  /** From the object's own level the scan finds the first member with that key,
      at its value, or reaches the closing brace. */
  lemma {:induction false} ScanMembers(ms: Members, k: string, name: string)
    requires WfMembers(ms) && Body(name)
    ensures Scan(MembersThen(ms, "}" + k), 1, name) == From(ms, name, "}" + k)
    decreases ms
  {
    hide Scan, Spaces, AtKey, Body, AfterColon;
    match ms
    case NoMembers => ScanChar("}", k, 1, name);
    case Entry(key, g1, g2, v, after, before, rest) =>
      var n := NextThen(after, before, rest, "}" + k);
      var r := ValueThen(v, n);
      var u := g1 + (":" + (g2 + r));
      ScanString(key, u, 1, name);
      KeyIff(key, u, name);
      ColonFollows(g1, g2 + r);
      SkipOver(g2, r);
      ValueStarts(v, n);
      if key != name {
        ScanGap(g1, ":" + (g2 + r), 1, name);
        ScanChar(":", g2 + r, 1, name);
        ScanGap(g2, r, 1, name);
        ScanRest(v, after, before, rest, k, name);
        if !rest.NoMembers? {
          ScanMembers(rest, k, name);
        } else {
          ScanChar("}", k, 1, name);
        }
      }
  }

  lemma ScanRest(v: Value, after: string, before: string, rest: Members, k: string, name: string)
    requires Wf(v) && Spaces(after) && Spaces(before) && WfMembers(rest) && Body(name)
    ensures Scan(ValueThen(v, NextThen(after, before, rest, "}" + k)), 1, name) ==
              if rest.NoMembers? then Scan("}" + k, 1, name) else Scan(MembersThen(rest, "}" + k), 1, name)
  {
    hide Scan, Spaces, Body, AfterColon;
    var n := NextThen(after, before, rest, "}" + k);
    if rest.NoMembers? {
      NoColon(after, "}", k);
      ScanGap(after, "}" + k, 1, name);
    } else {
      var r := MembersThen(rest, "}" + k);
      NoColon(after, ",", before + r);
      ScanGap(after, "," + (before + r), 1, name);
      ScanChar(",", before + r, 1, name);
      ScanGap(before, r, 1, name);
    }
    SkipTop(v, n, name);
  }

  lemma {:induction false} FromIsLookup(ms: Members, name: string, k: string)
    ensures From(ms, name, k).Some? <==> Lookup(ms, name).Some?
    ensures Lookup(ms, name).Some? ==> exists n :: From(ms, name, k) == Some(ValueThen(Lookup(ms, name).value, n))
  {
    match ms
    case NoMembers =>
    case Entry(key, _, _, v, after, before, rest) =>
      if key == name {
        assert From(ms, name, k) == Some(ValueThen(v, NextThen(after, before, rest, k)));
      } else {
        FromIsLookup(rest, name, k);
      }
  }

  /** For every object, whatever its nesting, whitespace and escapes and whatever
      follows it, the scanner finds a member exactly when the tree has one with
      that key at the top level, and points at the first one's value in the text. */
  lemma MemberIsLookup(g: string, ms: Members, k: string, name: string)
    requires Spaces(g) && WfMembers(ms) && Body(name)
    ensures var r := Member(ValueThen(Obj(g, ms), k), name);
            && (r.Some? <==> Lookup(ms, name).Some?)
            && (r.Some? ==> exists n :: r == Some(ValueThen(Lookup(ms, name).value, n)))
            && r == From(ms, name, "}" + k)
  {
    hide Scan, Spaces, Body, ItemsThen, MembersThen, Wf;
    var r := MembersThen(ms, "}" + k);
    assert ValueThen(Obj(g, ms), k) == "{" + (g + r);
    assert ("{" + (g + r))[0] == '{';
    ScanChar("{", g + r, 0, name);
    ScanGap(g, r, 1, name);
    ScanMembers(ms, k, name);
    FromIsLookup(ms, name, "}" + k);
  }

  // ---- Names that are not the text of a key -----------------------------------------------------

  lemma {:induction false} QuoteEndsBody(a: string, r: string)
    requires Body(a)
    ensures !Body(a + ("\"" + r))
  {
    var t := a + ("\"" + r);
    if a == "" {
      assert t == "\"" + r;
    } else if a[0] == '\\' {
      assert t[2..] == a[2..] + ("\"" + r);
      QuoteEndsBody(a[2..], r);
    } else {
      assert t[1..] == a[1..] + ("\"" + r);
      QuoteEndsBody(a[1..], r);
    }
  }

  /** Up to its first quote the name is `a`; it can match only at a string `a`. */
  lemma QuotedMatch(a: string, r: string, b: string, k: string)
    requires Body(a) && Body(b) && (a + ("\"" + r)) + "\"" <= b + ("\"" + k)
    ensures a == b && r + "\"" <= k
  {
    var t := b + ("\"" + k);
    assert (a + ("\"" + r)) + "\"" == (a + "\"") + (r + "\"");
    assert a + "\"" <= t;
    NameIsKey(a, b, k);
    assert t[|a| + 1..] == k;
    assert ((a + "\"") + (r + "\""))[|a| + 1..] == r + "\"";
  }

  /** The name must itself be the text of a key: a quote in it can match across a
      string value and the key after it. The object {k: "a", b: v} has no member
      named a","b, but the scanner finds one. */
  lemma QuoteInNameMisleads(k: string, a: string, b: string, v: Value, tail: string)
    requires Body(k) && Body(a) && Body(b) && Wf(v)
    ensures var ms := Entry(k, "", "", Str(a), "", "", Entry(b, "", "", v, "", "", NoMembers));
            var name := a + ("\"" + (",\"" + b));
            && WfMembers(ms) && Lookup(ms, name).None?
            && Member(ValueThen(Obj("", ms), tail), name) == Some(ValueThen(v, "}" + tail))
  {
    var r := ",\"" + b;
    QuoteEndsBody(a, r);
    PairWf(k, a, b, v);
    LookupPair(k, a, b, v, a + ("\"" + r));
    TextOfPair(k, a, b, v, tail);
    ScanPair(k, a, r, ValueThen(v, "}" + tail));
    ValueStarts(v, "}" + tail);
    hide Scan, Body, Wf, WfMembers, ValueThen, Lookup, SkipSpaces;
  }

  /** A name ending in a lone backslash: its closing quote matches an escaped quote
      inside a key. The object whose only key is `b` followed by \": has no member
      named `b` followed by a backslash, but the scanner finds one in that key. */
  lemma BackslashInNameMisleads(b: string, v: Value, tail: string)
    requires Body(b) && Wf(v)
    ensures var ms := Entry(b + "\\\":", "", "", v, "", "", NoMembers);
            var name := b + "\\";
            && WfMembers(ms) && Lookup(ms, name).None?
            && Member(ValueThen(Obj("", ms), tail), name) == Some("\"" + (":" + ValueThen(v, "}" + tail)))
  {
    hide Scan, Wf, AtKey, AfterColon;
    var key, name := b + "\\\":", b + "\\";
    BodyEscape(b, "\"", ":");
    assert key == b + ("\\" + "\"" + ":");
    LoneBackslash(b);
    assert WfMembers(NoMembers);
    var ms := Entry(key, "", "", v, "", "", NoMembers);
    assert Lookup(NoMembers, name).None?;
    var w := ValueThen(v, "}" + tail);
    assert "" + ("}" + tail) == "}" + tail;
    assert NextThen("", "", NoMembers, "}" + tail) == "}" + tail;
    assert "" + w == w && "" + (":" + w) == ":" + w;
    var u := "\"" + (":" + w);
    var t := "\"" + (key + u);
    assert MembersThen(ms, "}" + tail) == t;
    assert "" + t == t;
    assert ValueThen(Obj("", ms), tail) == "{" + t;
    ScanChar("{", t, 0, name);
    ScanString(key, ":" + w, 1, name);
    EscapedMatch(b, u);
    ColonFollows("", u);
    assert "" + (":" + u) == ":" + u;
  }

  lemma EscapedMatch(b: string, u: string)
    ensures AtKey("\"" + ((b + "\\\":") + u), b + "\\") == AfterColon(":" + u)
  {
    hide AfterColon;
    var name := b + "\\";
    var s := "\"" + ((b + "\\\":") + u);
    assert s[1..] == name + "\"" + (":" + u);
    assert s[1 + |name| + 1..] == ":" + u;
  }

  lemma {:induction false} BodyEscape(b: string, c: string, d: string)
    requires Body(b) && |c| == 1 && Body(d)
    ensures Body(b + ("\\" + c + d))
  {
    var t := b + ("\\" + c + d);
    if b == "" {
      assert t[2..] == d;
    } else if b[0] == '\\' {
      assert t[2..] == b[2..] + ("\\" + c + d);
      BodyEscape(b[2..], c, d);
    } else {
      assert t[1..] == b[1..] + ("\\" + c + d);
      BodyEscape(b[1..], c, d);
    }
  }

  lemma {:induction false} LoneBackslash(b: string)
    requires Body(b)
    ensures !Body(b + "\\")
  {
    var t := b + "\\";
    if b == "" {
      assert t == "\\";
    } else if b[0] == '\\' {
      assert t[2..] == b[2..] + "\\";
      LoneBackslash(b[2..]);
    } else {
      assert t[1..] == b[1..] + "\\";
      LoneBackslash(b[1..]);
    }
  }

  lemma LookupPair(k: string, a: string, b: string, v: Value, name: string)
    requires Body(k) && Body(b) && !Body(name)
    ensures Lookup(Entry(k, "", "", Str(a), "", "", Entry(b, "", "", v, "", "", NoMembers)), name).None?
  {
    hide Body;
    assert Lookup(NoMembers, name).None?;
    assert Lookup(Entry(b, "", "", v, "", "", NoMembers), name).None?;
  }

  lemma ScanPair(k: string, a: string, r: string, w: string)
    requires Body(k) && Body(a) && r != "" && r[0] == ','
    ensures var t := "\"" + (a + ("\"" + (r + ("\"" + (":" + w)))));
            Scan("{" + ("\"" + (k + ("\"" + (":" + t)))), 0, a + ("\"" + r)) == Some(SkipSpaces(w))
  {
    hide Scan, Body, AtKey, AfterColon, SkipSpaces;
    var name := a + ("\"" + r);
    var after := r + ("\"" + (":" + w));
    var t := "\"" + (a + ("\"" + after));
    ScanChar("{", "\"" + (k + ("\"" + (":" + t))), 0, name);
    ScanString(k, ":" + t, 1, name);
    NoMatchAtKey(k, a, r, t);
    ScanChar(":", t, 1, name);
    ScanString(a, after, 1, name);
    MatchAtValue(a, r, ":" + w);
    ColonFollows("", w);
    assert "" + (":" + w) == ":" + w;
  }

  lemma PairWf(k: string, a: string, b: string, v: Value)
    requires Body(k) && Body(a) && Body(b) && Wf(v)
    ensures WfMembers(Entry(k, "", "", Str(a), "", "", Entry(b, "", "", v, "", "", NoMembers)))
  {
    hide Body;
    assert WfMembers(NoMembers);
    assert WfMembers(Entry(b, "", "", v, "", "", NoMembers));
  }

  lemma TextOfPair(k: string, a: string, b: string, v: Value, tail: string)
    ensures var ms := Entry(k, "", "", Str(a), "", "", Entry(b, "", "", v, "", "", NoMembers));
            var after := (",\"" + b) + ("\"" + (":" + ValueThen(v, "}" + tail)));
            ValueThen(Obj("", ms), tail) == "{" + ("\"" + (k + ("\"" + (":" + ("\"" + (a + ("\"" + after)))))))
  {
    var w := ValueThen(v, "}" + tail);
    var rest := Entry(b, "", "", v, "", "", NoMembers);
    assert "" + ("}" + tail) == "}" + tail;
    assert NextThen("", "", NoMembers, "}" + tail) == "}" + tail;
    assert "" + w == w && "" + (":" + w) == ":" + w;
    var m := "\"" + (b + ("\"" + (":" + w)));
    assert MembersThen(rest, "}" + tail) == m;
    var after := (",\"" + b) + ("\"" + (":" + w));
    assert "" + ("," + ("" + m)) == "," + m;
    assert "," + m == after;
    assert NextThen("", "", rest, "}" + tail) == after;
    var t := "\"" + (a + ("\"" + after));
    assert ValueThen(Str(a), after) == t;
    assert "" + t == t && "" + (":" + t) == ":" + t;
  }

  lemma CommaIsNoColon(r: string, t: string)
    requires r != "" && r[0] == ','
    ensures !(r + "\"" <= ":" + t)
  {
    assert (r + "\"")[0] == ',' && (":" + t)[0] == ':';
  }

  lemma NoMatchAtKey(k: string, a: string, r: string, t: string)
    requires Body(k) && Body(a) && r != "" && r[0] == ','
    ensures AtKey("\"" + (k + ("\"" + (":" + t))), a + ("\"" + r)).None?
  {
    var s := "\"" + (k + ("\"" + (":" + t)));
    assert s[1..] == k + ("\"" + (":" + t));
    CommaIsNoColon(r, t);
    if (a + ("\"" + r)) + "\"" <= s[1..] {
      QuotedMatch(a, r, k, ":" + t);
    }
  }

  lemma MatchAtValue(a: string, r: string, u: string)
    ensures AtKey("\"" + (a + ("\"" + (r + ("\"" + u)))), a + ("\"" + r)) == AfterColon(u)
  {
    hide AfterColon;
    var name := a + ("\"" + r);
    var s := "\"" + (a + ("\"" + (r + ("\"" + u))));
    assert s[1..] == name + "\"" + u;
    assert s[1 + |name| + 1..] == u;
  }

  // ---- The loops ----------------------------------------------------------------------------------

  /** skip_string: past the literal that starts at `p`. */
  method SkipString(t: string, p: nat) returns (q: Option<nat>)
    requires p < |t|
    ensures var c := Close(t[p + 1..]); q == if c.None? then None else Some(p + 1 + c.value + 1)
    ensures q.Some? ==> q.value <= |t|
  {
    var i := p + 1;
    while i < |t|
      invariant p + 1 <= i <= |t|
      invariant var c, d := Close(t[p + 1..]), Close(t[i..]);
                (c.None? <==> d.None?) && (d.Some? ==> p + 1 + c.value == i + d.value)
    {
      CloseStep(t, i);
      if t[i] == '\\' {
        if i + 1 == |t| { return None; }
        i := i + 2;
      } else if t[i] == '"' {
        return Some(i + 1);
      } else {
        i := i + 1;
      }
    }
    assert t[i..] == "";
    return None;
  }

  lemma CloseStep(t: string, i: nat)
    requires i < |t|
    ensures t[i] == '\\' && i + 1 < |t| ==>
              (Close(t[i..]).None? <==> Close(t[i + 2..]).None?) &&
              (Close(t[i..]).Some? ==> Close(t[i..]).value == 2 + Close(t[i + 2..]).value)
    ensures t[i] == '\\' && i + 1 == |t| ==> Close(t[i..]).None?
    ensures t[i] == '"' ==> Close(t[i..]) == Some(0)
    ensures t[i] != '\\' && t[i] != '"' ==>
              (Close(t[i..]).None? <==> Close(t[i + 1..]).None?) &&
              (Close(t[i..]).Some? ==> Close(t[i..]).value == 1 + Close(t[i + 1..]).value)
  {
    var s := t[i..];
    assert s[0] == t[i];
    assert s[1..] == t[i + 1..];
    if i + 1 < |t| { assert s[2..] == t[i + 2..]; }
  }

  method Blanks(t: string, p: nat) returns (q: nat)
    requires p <= |t|
    ensures p <= q <= |t| && t[q..] == SkipSpaces(t[p..])
  {
    q := p;
    while q < |t| && Space(t[q])
      invariant p <= q <= |t| && SkipSpaces(t[q..]) == SkipSpaces(t[p..])
    {
      assert t[q..][1..] == t[q + 1..];
      q := q + 1;
    }
  }

  /** at_key */
  method AtKeyAt(t: string, p: nat, name: string) returns (val: Option<nat>)
    requires p < |t|
    ensures val.Some? ==> val.value <= |t|
    ensures AtKey(t[p..], name) == if val.Some? then Some(t[val.value..]) else None
  {
    hide SkipSpaces;
    ghost var s := t[p..];
    assert s[1..] == t[p + 1..];
    var q := name + "\"";
    if !(q <= t[p + 1..]) { return None; }
    var at := p + 1 + |name| + 1;
    assert s[1 + |name| + 1..] == t[at..];
    var c := Blanks(t, at);
    if c == |t| || t[c] != ':' { return None; }
    assert t[c..][1..] == t[c + 1..];
    var v := Blanks(t, c + 1);
    return Some(v);
  }

  /** member: the position of the value, if there is such a member. */
  method FindMember(obj: string, name: string) returns (val: Option<nat>)
    ensures val.Some? ==> val.value <= |obj|
    ensures Member(obj, name) == if val.Some? then Some(obj[val.value..]) else None
  {
    hide Scan, AtKey, Close;
    if obj == "" || obj[0] != '{' { return None; }
    var p, depth := 0, 0;
    assert obj[0..] == obj;
    while p < |obj|
      invariant 0 <= p <= |obj| && Scan(obj[p..], depth, name) == Member(obj, name)
      decreases |obj| - p
    {
      ScanStep(obj, p, depth, name);
      if obj[p] == '"' {
        if depth == 1 {
          val := AtKeyAt(obj, p, name);
          if val.Some? { return; }
        }
        var q := SkipString(obj, p);
        if q.None? { return None; }
        p := q.value;
      } else {
        if obj[p] == '{' || obj[p] == '[' {
          depth := depth + 1;
        } else if obj[p] == '}' || obj[p] == ']' {
          if depth == 1 { return None; }
          depth := depth - 1;
        }
        p := p + 1;
      }
    }
    assert obj[p..] == "";
    ScanEnd(depth, name);
    return None;
  }

  lemma ScanStep(t: string, p: nat, d: int, name: string)
    requires p < |t|
    ensures t[p] == '"' && d == 1 && AtKey(t[p..], name).Some? ==> Scan(t[p..], d, name) == AtKey(t[p..], name)
    ensures t[p] == '"' && !(d == 1 && AtKey(t[p..], name).Some?) ==>
              var c := Close(t[p + 1..]);
              Scan(t[p..], d, name) == if c.None? then None else Scan(t[p + 1 + c.value + 1..], d, name)
    ensures t[p] == '{' || t[p] == '[' ==> Scan(t[p..], d, name) == Scan(t[p + 1..], d + 1, name)
    ensures t[p] == '}' || t[p] == ']' ==>
              Scan(t[p..], d, name) == if d == 1 then None else Scan(t[p + 1..], d - 1, name)
    ensures t[p] !in {'"', '{', '}', '[', ']'} ==> Scan(t[p..], d, name) == Scan(t[p + 1..], d, name)
  {
    hide AtKey, Close;
    var s := t[p..];
    assert s[0] == t[p];
    assert s[1..] == t[p + 1..];
    var c := Close(t[p + 1..]);
    if c.Some? {
      assert s[1..][c.value + 1..] == t[p + 1 + c.value + 1..];
    }
  }

  lemma ScanEnd(d: int, name: string)
    ensures Scan("", d, name).None?
  {
  }
}
