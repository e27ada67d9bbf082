/** Newline-separated text, one line at a time. */
module Lines {

  /** Length of the first line, without its newline. */
  function LineLen(s: string): (e: nat)
    ensures e <= |s|
  {
    if s == "" || s[0] == '\n' then 0 else 1 + LineLen(s[1..])
  }

  function Line(s: string): string {
    s[..LineLen(s)]
  }

  function Rest(s: string): (r: string)
    ensures |r| <= |s| && (s != "" ==> |r| < |s|)
  {
    if LineLen(s) < |s| then s[LineLen(s) + 1..] else ""
  }

  ghost predicate OneLine(s: string) {
    forall i :: 0 <= i < |s| ==> s[i] != '\n'
  }

  lemma {:induction false} LineFacts(s: string)
    ensures OneLine(Line(s)) && (LineLen(s) < |s| ==> s[LineLen(s)] == '\n')
  {
    if s != "" && s[0] != '\n' {
      LineFacts(s[1..]);
      assert Line(s) == [s[0]] + Line(s[1..]);
    }
  }

  /** A text is its first line and what follows it. */
  lemma {:induction false} LineOf(m: string, tail: string)
    requires OneLine(m) && (tail == "" || tail[0] == '\n')
    ensures LineLen(m + tail) == |m|
  {
    if m == "" {
      assert m + tail == tail;
    } else {
      assert (m + tail)[1..] == m[1..] + tail;
      LineOf(m[1..], tail);
    }
  }

  lemma LinesOf(m: string, rest: string)
    requires OneLine(m)
    ensures LineLen(m + "\n" + rest) == |m| && Line(m + "\n" + rest) == m && Rest(m + "\n" + rest) == rest
  {
    LineOf(m, "\n" + rest);
    assert m + "\n" + rest == m + ("\n" + rest);
  }

  lemma LastLineOf(m: string)
    requires OneLine(m)
    ensures LineLen(m) == |m| && Line(m) == m && Rest(m) == ""
  {
    LineOf(m, "");
    assert m + "" == m;
  }

  lemma OneLineConcat(a: string, b: string)
    requires OneLine(a) && OneLine(b)
    ensures OneLine(a + b)
  {
  }

  lemma SplitLine(s: string)
    requires LineLen(s) < |s|
    ensures s == Line(s) + "\n" + Rest(s)
  {
    LineFacts(s);
    hide LineLen, OneLine;
    CutAt(s, LineLen(s));
  }

  lemma CutAt(s: string, n: nat)
    requires n < |s| && s[n] == '\n'
    ensures s == s[..n] + "\n" + s[n + 1..]
  {
    assert s[n..n + 1] == "\n";
  }

  lemma LineIs(s: string)
    ensures |Line(s)| == LineLen(s)
  {
  }

  /** End of the line that starts at `ln`. */
  method EndOfLine(conf: string, ln: nat) returns (end: nat)
    requires ln <= |conf|
    ensures end == ln + LineLen(conf[ln..])
  {
    end := ln;
    while end < |conf| && conf[end] != '\n'
      invariant ln <= end <= |conf| && forall i :: ln <= i < end ==> conf[i] != '\n'
    {
      end := end + 1;
    }
    assert conf[ln..] == conf[ln..end] + conf[end..];
    LineOf(conf[ln..end], conf[end..]);
  }
}
