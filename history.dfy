/** The bounded history of past generations: most recent first, at most ten
    entries after a push. Generic in what an entry is; the app stores entries. */
module History {

  /** How many entries the history keeps after a push. */
  const HistoryLimit: nat := 10

  /** How many entries the mobile history list shows. */
  const MobileHistoryLimit: nat := 4

  /** The history after a push: the new entry in front of the old history,
      cut to the first ten. */
  function PushHistory<T>(entry: T, prev: seq<T>): (h: seq<T>)
    ensures |h| == if |prev| + 1 < HistoryLimit then |prev| + 1 else HistoryLimit
    ensures h[0] == entry
    ensures forall i :: 1 <= i < |h| ==> h[i] == prev[i - 1]
  {
    var all := [entry] + prev;
    if |all| <= HistoryLimit then all else all[..HistoryLimit]
  }

  /** The history after a run of pushes, given oldest first. */
  function PushAll<T>(entries: seq<T>, prev: seq<T>): seq<T>
    decreases |entries|
  {
    if |entries| == 0 then prev else PushAll(entries[1..], PushHistory(entries[0], prev))
  }

  /** After a run of at least one push the history has as many entries as
      were pushed and held before, but at most ten. */
  lemma {:induction false} PushAllLength<T>(entries: seq<T>, prev: seq<T>)
    requires |entries| >= 1
    ensures |PushAll(entries, prev)| ==
      if |entries| + |prev| < HistoryLimit then |entries| + |prev| else HistoryLimit
    decreases |entries|
  {
    var next := PushHistory(entries[0], prev);
    if |entries| == 1 {
      assert |entries[1..]| == 0;
      assert PushAll(entries, prev) == PushAll(entries[1..], next) == next;
    } else {
      PushAllLength(entries[1..], next);
    }
  }

  /** Entry `i` of the history after a run of pushes: the pushed entries
      newest first, then what was held before. */
  lemma {:induction false} PushAllAt<T>(entries: seq<T>, prev: seq<T>, i: nat)
    requires |entries| >= 1
    requires i < if |entries| + |prev| < HistoryLimit then |entries| + |prev| else HistoryLimit
    ensures i < |PushAll(entries, prev)|
    ensures PushAll(entries, prev)[i] ==
      if i < |entries| then entries[|entries| - 1 - i] else prev[i - |entries|]
    decreases |entries|
  {
    PushAllLength(entries, prev);
    var n := |entries|;
    var next := PushHistory(entries[0], prev);
    var rest := entries[1..];
    assert PushAll(entries, prev) == PushAll(rest, next);
    if n == 1 {
      assert |rest| == 0;
      assert PushAll(rest, next) == next;
    } else {
      PushAllAt(rest, next, i);
      if i < n - 1 {
        assert rest[n - 2 - i] == entries[n - 1 - i];
      } else if i == n - 1 {
        assert next[0] == entries[0];
      } else {
        assert next[i - (n - 1)] == prev[i - n];
      }
    }
  }

  /** After any run of pushes the history holds the newest entries, newest
      first, followed by what it held before while room remains. */
  lemma PushAllKeepsNewest<T>(entries: seq<T>, prev: seq<T>)
    requires |entries| >= 1
    ensures |PushAll(entries, prev)| ==
      if |entries| + |prev| < HistoryLimit then |entries| + |prev| else HistoryLimit
    ensures forall i :: 0 <= i < |PushAll(entries, prev)| ==>
      PushAll(entries, prev)[i] == if i < |entries| then entries[|entries| - 1 - i] else prev[i - |entries|]
  {
    PushAllLength(entries, prev);
    forall i | 0 <= i < |PushAll(entries, prev)|
      ensures PushAll(entries, prev)[i] == if i < |entries| then entries[|entries| - 1 - i] else prev[i - |entries|]
    {
      PushAllAt(entries, prev, i);
    }
  }

  /** The newest entry is always first. */
  lemma NewestFirst<T>(entries: seq<T>, prev: seq<T>)
    requires |entries| >= 1
    ensures |PushAll(entries, prev)| >= 1 && PushAll(entries, prev)[0] == entries[|entries| - 1]
  {
    PushAllKeepsNewest(entries, prev);
  }

  /** The entries of the mobile history list. */
  function MobileHistory<T>(h: seq<T>): (shown: seq<T>)
    ensures |shown| == if |h| < MobileHistoryLimit then |h| else MobileHistoryLimit
    ensures forall i :: 0 <= i < |shown| ==> shown[i] == h[i]
  {
    if |h| <= MobileHistoryLimit then h else h[..MobileHistoryLimit]
  }
}
