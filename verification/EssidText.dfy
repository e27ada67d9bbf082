/** The `ssid=` assignment of a wpa_supplicant configuration text
    (opcd/essid_marker.c): finding it, and replacing its value in place. */
module EssidText {
  import opened Lines

  predicate Blank(c: char) {
    c == ' ' || c == '\t'
  }

  /** Number of leading blanks. */
  function Indent(l: string): (n: nat)
    ensures n <= |l|
  {
    if l == "" || !Blank(l[0]) then 0 else 1 + Indent(l[1..])
  }

  ghost predicate Blanks(s: string) {
    forall i :: 0 <= i < |s| ==> Blank(s[i])
  }

  lemma {:induction false} IndentFacts(l: string)
    ensures Blanks(l[..Indent(l)])
  {
    if l != "" && Blank(l[0]) {
      IndentFacts(l[1..]);
      assert l[..Indent(l)] == [l[0]] + l[1..][..Indent(l[1..])];
    }
  }

  lemma {:induction false} IndentOf(ind: string, x: string)
    requires Blanks(ind) && (x == "" || !Blank(x[0]))
    ensures Indent(ind + x) == |ind|
  {
    if ind == "" {
      assert ind + x == x;
    } else {
      assert (ind + x)[1..] == ind[1..] + x;
      IndentOf(ind[1..], x);
    }
  }

  /** Does the line assign `ssid`? */
  predicate Assigns(l: string) {
    "ssid=" <= l[Indent(l)..]
  }

  predicate Trailing(c: char) {
    c == '\r' || c == ' ' || c == '\t'
  }

  ghost predicate Trails(s: string) {
    forall i :: 0 <= i < |s| ==> Trailing(s[i])
  }

  /** End of the value that starts at `from`, trailing blanks and CR excluded. */
  function ValueEnd(l: string, from: nat): (e: nat)
    requires from <= |l|
    ensures from <= e <= |l|
  {
    if |l| == from || !Trailing(l[|l| - 1]) then |l| else ValueEnd(l[..|l| - 1], from)
  }

  lemma {:induction false} EndFacts(l: string, from: nat)
    requires from <= |l|
    ensures var e := ValueEnd(l, from); Trails(l[e..]) && (e > from ==> !Trailing(l[e - 1]))
  {
    if |l| != from && Trailing(l[|l| - 1]) {
      var k := l[..|l| - 1];
      EndFacts(k, from);
      assert l[ValueEnd(l, from)..] == k[ValueEnd(k, from)..] + [l[|l| - 1]];
    }
  }

  lemma {:induction false} EndOf(y: string, trail: string, from: nat)
    requires from <= |y| && (|y| == from || !Trailing(y[|y| - 1])) && Trails(trail)
    ensures ValueEnd(y + trail, from) == |y|
  {
    if trail == "" {
      assert y + trail == y;
    } else {
      var k := trail[..|trail| - 1];
      assert (y + trail)[..|y + trail| - 1] == y + k;
      EndOf(y, k, from);
    }
  }

  // ---- The assignment -----------------------------------------------------------

  function Count(s: string): nat
    decreases |s|
  {
    if s == "" then 0 else (if Assigns(Line(s)) then 1 else 0) + Count(Rest(s))
  }

  /** Span of the first assignment's value. */
  function Span(s: string): (r: (nat, nat))
    requires Count(s) > 0
    ensures r.0 <= r.1 <= |s|
    decreases |s|
  {
    if Assigns(Line(s)) then
      var from := Indent(Line(s)) + 5;
      (from, ValueEnd(Line(s), from))
    else
      var r := Span(Rest(s));
      (LineLen(s) + 1 + r.0, LineLen(s) + 1 + r.1)
  }

  function Token(s: string): string
    requires Count(s) > 0
  {
    s[Span(s).0..Span(s).1]
  }

  /** The text with that value replaced. */
  function Replaced(s: string, t: string): string
    requires Count(s) > 0
  {
    s[..Span(s).0] + t + s[Span(s).1..]
  }

  /** What can stand as a value: some text on one line that does not end in a
      blank. Every value found is one, unless it is empty. */
  ghost predicate Value(t: string) {
    t != "" && OneLine(t) && !Trailing(t[|t| - 1])
  }

  /** A line that assigns, in parts. */
  lemma LineParts(l: string) returns (ind: string, v: string, trail: string)
    requires Assigns(l) && OneLine(l)
    ensures l == ind + "ssid=" + v + trail && Blanks(ind) && Trails(trail) && OneLine(ind)
    ensures v == "" || !Trailing(v[|v| - 1])
    ensures |ind| + 5 == Indent(l) + 5 && |ind| + 5 + |v| == ValueEnd(l, Indent(l) + 5)
  {
    hide Indent, ValueEnd;
    var n := Indent(l);
    var e := ValueEnd(l, n + 5);
    IndentFacts(l);
    EndFacts(l, n + 5);
    ind, v, trail := l[..n], l[n + 5..e], l[e..];
    assert l[n..n + 5] == "ssid=";
    assert l == l[..n] + l[n..n + 5] + l[n + 5..e] + l[e..];
  }

  lemma BlankOneLine(s: string)
    requires Blanks(s) || Trails(s)
    ensures OneLine(s)
  {
  }

  lemma KeyOneLine(key: string)
    requires key == "ssid="
    ensures OneLine(key)
  {
    assert key[0] == 's' && key[1] == 's' && key[2] == 'i' && key[3] == 'd' && key[4] == '=';
  }

  lemma Assoc(a: string, b: string, c: string, d: string)
    ensures a + b + c + d == a + (b + c + d) && (a + b + c + d)[|a|..] == b + c + d && b <= b + c + d
  {
  }

  lemma PartsOneLine(ind: string, key: string, t: string, trail: string)
    requires Blanks(ind) && key == "ssid=" && OneLine(t) && Trails(trail)
    ensures OneLine(ind + key + t + trail)
  {
    BlankOneLine(ind);
    BlankOneLine(trail);
    KeyOneLine(key);
    hide *;
    OneLineConcat(ind, key);
    OneLineConcat(ind + key, t);
    OneLineConcat(ind + key + t, trail);
  }

  lemma PartsAssign(ind: string, key: string, t: string, trail: string)
    requires Blanks(ind) && key == "ssid="
    ensures var m := ind + key + t + trail; Indent(m) == |ind| && Assigns(m)
  {
    hide Indent, Blanks;
    Assoc(ind, key, t, trail);
    IndentOf(ind, key + t + trail);
  }

  lemma PartsEnd(a: string, t: string, trail: string)
    requires Value(t) && Trails(trail)
    ensures ValueEnd(a + t + trail, |a|) == |a| + |t|
  {
    hide ValueEnd, OneLine, Trails;
    EndOf(a + t, trail, |a|);
  }

  // ---- Unfolding one line ------------------------------------------------------------

  lemma SpanHere(s: string)
    requires s != "" && Assigns(Line(s))
    ensures Count(s) == 1 + Count(Rest(s))
    ensures Span(s) == (Indent(Line(s)) + 5, ValueEnd(Line(s), Indent(Line(s)) + 5))
  {
    hide Indent, ValueEnd, LineLen;
  }

  lemma CountLater(s: string)
    requires s != "" && !Assigns(Line(s))
    ensures Count(s) == Count(Rest(s))
  {
    hide Indent, LineLen;
  }

  lemma SpanLater(s: string)
    requires Count(s) > 0 && !Assigns(Line(s))
    ensures s != "" && Count(s) == Count(Rest(s))
    ensures Span(s) == (LineLen(s) + 1 + Span(Rest(s)).0, LineLen(s) + 1 + Span(Rest(s)).1)
  {
    hide Indent, ValueEnd, LineLen, Assigns, Line, Rest;
  }

  lemma NotEmpty(s: string)
    requires Count(s) > 0
    ensures s != ""
  {
  }

  lemma NoMoreLines(s: string)
    requires LineLen(s) == |s|
    ensures s == Line(s) && Rest(s) == "" && Count(Rest(s)) == 0
  {
    hide LineLen;
  }

  lemma SpliceBack(s: string, l: string, rest: string, t: string, x: (nat, nat), y: (nat, nat), r: string, q: string)
    requires s == l + "\n" + rest && y.0 <= y.1 <= |rest| && x == (|l| + 1 + y.0, |l| + 1 + y.1)
    requires r == s[..x.0] + t + s[x.1..] && q == rest[..y.0] + t + rest[y.1..]
    ensures r == l + "\n" + q
  {
    var p := l + "\n";
    assert s[..x.0] == p + rest[..y.0];
    assert s[x.1..] == rest[y.1..];
  }

  lemma ReplacedIs(s: string, t: string)
    requires Count(s) > 0
    ensures Replaced(s, t) == s[..Span(s).0] + t + s[Span(s).1..]
  {
  }

  lemma ReplacedLater(s: string, t: string)
    requires Count(s) > 0 && !Assigns(Line(s))
    ensures Count(Rest(s)) > 0 && LineLen(s) < |s|
    ensures Replaced(s, t) == Line(s) + "\n" + Replaced(Rest(s), t)
  {
    hide *;
    SpanLater(s);
    LineIs(s);
    if LineLen(s) == |s| {
      NoMoreLines(s);
    } else {
      SplitLine(s);
      ReplacedIs(s, t);
      ReplacedIs(Rest(s), t);
      SpliceBack(s, Line(s), Rest(s), t, Span(s), Span(Rest(s)), Replaced(s, t), Replaced(Rest(s), t));
    }
  }

  /** The line that carries the edited value. */
  lemma EditedLine(l: string, t: string)
    requires Assigns(l) && OneLine(l) && Value(t)
    ensures var n := Indent(l);
            var m := Edited(l, t);
            OneLine(m) && Indent(m) == n && Assigns(m) && ValueEnd(m, n + 5) == n + 5 + |t|
  {
    hide Indent, ValueEnd, OneLine, Blanks, Trails, Value;
    var ind, v, trail := LineParts(l);
    var key := "ssid=";
    var n := Indent(l);
    assert l[..n + 5] == ind + key by { TakePrefix(ind + key, v + trail); assert l == (ind + key) + (v + trail); }
    assert l[n + 5 + |v|..] == trail by { DropPrefix(ind + key + v, trail); }
    PartsLineOk(ind, key, t, trail);
  }

  lemma PartsLineOk(ind: string, key: string, t: string, trail: string)
    requires Blanks(ind) && key == "ssid=" && Value(t) && Trails(trail)
    ensures var m := ind + key + t + trail;
            OneLine(m) && Indent(m) == |ind| && Assigns(m) && ValueEnd(m, |ind| + 5) == |ind| + 5 + |t|
  {
    PartsOneLine(ind, key, t, trail);
    PartsAssign(ind, key, t, trail);
    PartsEnd(ind + key, t, trail);
    hide *;
  }

  lemma TakePrefix(a: string, b: string)
    ensures (a + b)[..|a|] == a
  {
  }

  lemma DropPrefix(a: string, b: string)
    ensures (a + b)[|a|..] == b
  {
  }

  /** The line of the first assignment, edited. */
  function Edited(l: string, t: string): string
    requires Assigns(l)
  {
    l[..Indent(l) + 5] + t + l[ValueEnd(l, Indent(l) + 5)..]
  }

  lemma ReplacedInLast(s: string, t: string)
    requires Count(s) > 0 && Assigns(Line(s)) && LineLen(s) == |s|
    ensures Replaced(s, t) == Edited(Line(s), t)
  {
    hide *;
    NotEmpty(s);
    SpanHere(s);
    ReplacedIs(s, t);
    EditedIs(Line(s), t);
    NoMoreLines(s);
  }

  lemma ReplacedInLine(s: string, t: string)
    requires Count(s) > 0 && Assigns(Line(s)) && LineLen(s) < |s|
    ensures Replaced(s, t) == Edited(Line(s), t) + "\n" + Rest(s)
  {
    hide *;
    NotEmpty(s);
    SpanHere(s);
    var l := Line(s);
    ReplacedIs(s, t);
    EditedIs(l, t);
    SplitLine(s);
    SpliceLine(s, l, Rest(s), t, Span(s), Replaced(s, t), Edited(l, t));
  }

  lemma SpliceLine(s: string, l: string, rest: string, t: string, x: (nat, nat), r: string, m: string)
    requires s == l + "\n" + rest && x.0 <= x.1 <= |l|
    requires r == s[..x.0] + t + s[x.1..] && m == l[..x.0] + t + l[x.1..]
    ensures r == m + "\n" + rest
  {
    assert s[..x.0] == l[..x.0];
    assert s[x.1..] == l[x.1..] + "\n" + rest;
  }

  lemma EditedIs(l: string, t: string)
    requires Assigns(l)
    ensures Indent(l) + 5 <= |l|
    ensures Edited(l, t) == l[..Indent(l) + 5] + t + l[ValueEnd(l, Indent(l) + 5)..]
  {
    hide Indent, ValueEnd;
  }

  lemma ReplacedHere(s: string, t: string)
    requires Count(s) > 0 && Assigns(Line(s)) && OneLine(Edited(Line(s), t))
    ensures var r := Replaced(s, t); Line(r) == Edited(Line(s), t) && Rest(r) == Rest(s)
  {
    hide *;
    if LineLen(s) == |s| {
      ReplacedInLast(s, t);
      NoMoreLines(s);
      LastLineOf(Edited(Line(s), t));
    } else {
      ReplacedInLine(s, t);
      LinesOf(Edited(Line(s), t), Rest(s));
    }
  }

  // ---- Main results --------------------------------------------------------------------

  /** The edited text has as many assignments as before, the first in the same
      place, and its value is `t`. */
  lemma {:induction false} ReplacedHolds(s: string, t: string)
    requires Count(s) > 0 && Value(t)
    ensures Count(Replaced(s, t)) == Count(s)
    ensures Span(Replaced(s, t)) == (Span(s).0, Span(s).0 + |t|)
    decreases |s|
  {
    hide *;
    NotEmpty(s);
    var r := Replaced(s, t);
    if Assigns(Line(s)) {
      LineFacts(s);
      EditedLine(Line(s), t);
      ReplacedHere(s, t);
      AssigningText(r);
      SpanHere(s);
      SpanHere(r);
    } else {
      ReplacedLater(s, t);
      SpanLater(s);
      ReplacedHolds(Rest(s), t);
      LineFacts(s);
      LinesOf(Line(s), Replaced(Rest(s), t));
      assert r != "" by { NotEmptyLine(Line(s), Replaced(Rest(s), t)); }
      CountLater(r);
      SpanLater(r);
      assert LineLen(r) == |Line(s)| == LineLen(s) by { LineIs(s); }
    }
  }

  lemma AssigningText(s: string)
    requires Assigns(Line(s))
    ensures s != ""
  {
  }

  lemma NotEmptyLine(l: string, rest: string)
    ensures l + "\n" + rest != ""
  {
  }

  lemma ReplacedToken(s: string, t: string)
    requires Count(s) > 0 && Value(t)
    ensures Count(Replaced(s, t)) == Count(s) && Token(Replaced(s, t)) == t
  {
    hide Count, Span, Value;
    ReplacedHolds(s, t);
    assert (s[..Span(s).0] + t + s[Span(s).1..])[Span(s).0..Span(s).0 + |t|] == t;
  }

  /** Putting the original value back gives back the original text, byte for
      byte, whatever value was written in between. */
  lemma RestoreUndoesEdit(s: string, t: string)
    requires Count(s) > 0 && Value(t)
    ensures Count(Replaced(s, t)) == Count(s) && Replaced(Replaced(s, t), Token(s)) == s
  {
    hide Count, Span, Value;
    ReplacedHolds(s, t);
    var r, a, b := Replaced(s, t), Span(s).0, Span(s).1;
    assert r[..a] == s[..a];
    assert r[a + |t|..] == s[b..];
    assert s == s[..a] + s[a..b] + s[b..];
  }

  lemma SliceIsValue(l: string, from: nat, e: nat)
    requires OneLine(l) && from < e <= |l| && !Trailing(l[e - 1])
    ensures Value(l[from..e])
  {
  }

  lemma {:induction false} TokenIsValue(s: string)
    requires Count(s) > 0
    ensures Token(s) != "" ==> Value(Token(s))
    decreases |s|
  {
    hide Count, Span, LineLen, Assigns, Indent, ValueEnd, OneLine, Value;
    NotEmpty(s);
    if Assigns(Line(s)) {
      SpanHere(s);
      LineFacts(s);
      var l, from := Line(s), Indent(Line(s)) + 5;
      var e := ValueEnd(l, from);
      EndFacts(l, from);
      HeadSlice(s, LineLen(s), from, e);
      if from < e { SliceIsValue(l, from, e); }
    } else {
      SpanLater(s);
      ReplacedLater(s, "");
      TokenIsValue(Rest(s));
      TailSlice(s, LineLen(s) + 1, Span(Rest(s)).0, Span(Rest(s)).1);
    }
  }

  lemma HeadSlice(s: string, n: nat, i: nat, j: nat)
    requires i <= j <= n <= |s|
    ensures s[i..j] == s[..n][i..j]
  {
  }

  lemma TailSlice(s: string, n: nat, i: nat, j: nat)
    requires n <= |s| && i <= j <= |s[n..]|
    ensures s[n + i..n + j] == s[n..][i..j]
  {
  }

  // ---- The scan ------------------------------------------------------------------------

  /** Skip the leading blanks. */
  method SkipBlanks(l: string) returns (p: nat)
    ensures p == Indent(l)
  {
    p := 0;
    while p < |l| && Blank(l[p])
      invariant 0 <= p <= |l| && forall i :: 0 <= i < p ==> Blank(l[i])
    {
      p := p + 1;
    }
    assert l == l[..p] + l[p..];
    IndentOf(l[..p], l[p..]);
  }

  /** Leave out trailing blanks and CR. */
  method TrimEnd(l: string, from: nat) returns (e: nat)
    requires from <= |l|
    ensures e == ValueEnd(l, from)
  {
    e := |l|;
    while e > from && Trailing(l[e - 1])
      invariant from <= e <= |l| && forall i :: e <= i < |l| ==> Trailing(l[i])
    {
      e := e - 1;
    }
    assert l == l[..e] + l[e..];
    EndOf(l[..e], l[e..], from);
  }

  method ScanLine(l: string) returns (hit: bool, from: nat, to: nat)
    ensures hit == Assigns(l)
    ensures hit ==> from == Indent(l) + 5 && to == ValueEnd(l, from)
  {
    var p := SkipBlanks(l);
    hit := |l| - p >= 5 && l[p..p + 5] == "ssid=";
    from, to := 0, 0;
    assert |l| - p >= 5 ==> l[p..][..5] == l[p..p + 5];
    if hit {
      from := p + 5;
      to := TrimEnd(l, from);
    }
  }

  /** find_ssid: the number of assignments and the span of the first. */
  method FindSsid(conf: string) returns (count: nat, vs: nat, ve: nat)
    ensures count == Count(conf)
    ensures count > 0 ==> (vs, ve) == Span(conf)
  {
    hide Count, Span, LineLen, Assigns, Indent, ValueEnd;
    count, vs, ve := 0, 0, 0;
    var ln := 0;
    assert conf[0..] == conf;
    while ln < |conf|
      invariant 0 <= ln <= |conf|
      invariant count + Count(conf[ln..]) == Count(conf)
      invariant count > 0 ==> (vs, ve) == Span(conf)
      invariant count == 0 && Count(conf) > 0 ==>
                  Span(conf) == (ln + Span(conf[ln..]).0, ln + Span(conf[ln..]).1)
    {
      ghost var s := conf[ln..];
      var end := EndOfLine(conf, ln);
      assert conf[ln..end] == Line(s);
      var hit, from, to := ScanLine(conf[ln..end]);
      if hit {
        SpanHere(s);
        if count == 0 {
          vs, ve := ln + from, ln + to;
        }
        count := count + 1;
      } else {
        CountLater(s);
        if Count(s) > 0 { SpanLater(s); }
      }
      ln := if end < |conf| then end + 1 else end;
      assert conf[ln..] == Rest(s);
    }
    assert conf[ln..] == "";
    NoLines();
  }

  lemma NoLines()
    ensures Count("") == 0
  {
  }
}
