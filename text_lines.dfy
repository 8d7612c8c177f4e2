/** Multi-line text as the source writes it in template literals: lines joined
    by a newline character, and the inverse that splits text at newlines. */
module TextLines {

  /** Whether a line can stand on a line of its own. */
  predicate SingleLine(s: string) {
    '\n' !in s
  }

  /** The lines joined with one newline between each two neighbours. */
  function JoinLines(ls: seq<string>): string
    decreases |ls|
  {
    if |ls| == 0 then ""
    else if |ls| == 1 then ls[0]
    else ls[0] + "\n" + JoinLines(ls[1..])
  }

  /** The position of the first newline of `s`. */
  function FirstNewline(s: string): (i: nat)
    requires '\n' in s
    ensures i < |s| && s[i] == '\n' && SingleLine(s[..i])
  {
    if s[0] == '\n' then 0
    else
      assert '\n' in s[1..] by { var k :| 0 <= k < |s| && s[k] == '\n'; assert s[1..][k - 1] == '\n'; }
      var i := 1 + FirstNewline(s[1..]);
      assert s[..i] == [s[0]] + s[1..][..i - 1];
      i
  }

  /** The text cut at every newline; a text without newlines is one line. */
  function SplitLines(s: string): (ls: seq<string>)
    ensures |ls| >= 1
    decreases |s|
  {
    if SingleLine(s) then [s]
    else
      var i := FirstNewline(s);
      [s[..i]] + SplitLines(s[i + 1..])
  }

  /** A newline after a newline-free prefix is the first one. */
  lemma FirstNewlineAt(s: string, i: nat)
    requires i < |s| && s[i] == '\n' && SingleLine(s[..i])
    ensures FirstNewline(s) == i
  {
  }

  /** Joining undoes splitting: every text is the join of its lines. */
  lemma {:induction false} JoinSplit(s: string)
    ensures JoinLines(SplitLines(s)) == s
    decreases |s|
  {
    if !SingleLine(s) {
      var i := FirstNewline(s);
      JoinSplit(s[i + 1..]);
      var ls := SplitLines(s);
      assert ls[1..] == SplitLines(s[i + 1..]);
      assert s == s[..i] + "\n" + s[i + 1..];
    }
  }
  /** Splitting a line followed by a newline yields that line, then the rest. */
  lemma SplitCons(l: string, rest: string)
    requires SingleLine(l)
    ensures SplitLines(l + "\n" + rest) == [l] + SplitLines(rest)
  {
    var s := l + "\n" + rest;
    assert s[|l|] == '\n';
    assert s[..|l|] == l;
    FirstNewlineAt(s, |l|);
    assert s[|l| + 1..] == rest;
  }

  /** Splitting a join recovers its leading newline-free lines one by one; the
      lines after them split on their own. */
  lemma {:induction false} SplitJoinAppend(front: seq<string>, back: seq<string>)
    requires |back| >= 1
    requires forall i :: 0 <= i < |front| ==> SingleLine(front[i])
    ensures SplitLines(JoinLines(front + back)) == front + SplitLines(JoinLines(back))
    decreases |front|
  {
    if |front| > 0 {
      var ls, tail := front + back, SplitLines(JoinLines(back));
      calc {
        SplitLines(JoinLines(ls));
        { assert JoinLines(ls) == front[0] + "\n" + JoinLines(ls[1..]);
          SplitCons(front[0], JoinLines(ls[1..])); }
        [front[0]] + SplitLines(JoinLines(ls[1..]));
        { assert ls[1..] == front[1..] + back;
          SplitJoinAppend(front[1..], back); }
        [front[0]] + (front[1..] + tail);
        { assert [front[0]] + front[1..] == front; }
        front + tail;
      }
    } else {
      assert front + back == back;
    }
  }

  /** Splitting undoes joining, as long as no line holds a newline itself. */
  lemma {:induction false} SplitJoin(ls: seq<string>)
    requires |ls| >= 1
    requires forall k :: 0 <= k < |ls| ==> SingleLine(ls[k])
    ensures SplitLines(JoinLines(ls)) == ls
    decreases |ls|
  {
    if |ls| == 1 {
      assert JoinLines(ls) == ls[0];
    } else {
      assert JoinLines(ls) == ls[0] + "\n" + JoinLines(ls[1..]);
      SplitCons(ls[0], JoinLines(ls[1..]));
      SplitJoin(ls[1..]);
      assert [ls[0]] + ls[1..] == ls;
    }
  }
}
