/** The server's whiteboard log: every stroke is appended, and once the log
    holds more than `Cap` strokes the oldest are dropped (first in, first out). */
module Whiteboard {
  import opened Protocol

  const Cap: nat := 10000

  /** The last `n` elements of `s` (all of `s` when it is not longer than `n`). */
  function Last<T>(s: seq<T>, n: nat): (r: seq<T>)
    ensures |r| == if |s| > n then n else |s|
    ensures r == s[|s| - |r|..]
  {
    if |s| > n then s[|s| - n..] else s
  }

  /** `whiteboardData.push(data)` followed by the `slice` that keeps the most
      recent `Cap` strokes. */
  function Push(log: seq<Blob>, stroke: Blob): (r: seq<Blob>)
    ensures |r| == if |log| + 1 > Cap then Cap else |log| + 1
    ensures r == (log + [stroke])[|log| + 1 - |r|..]
    ensures r[|r| - 1] == stroke
  {
    var pushed := log + [stroke];
    if |pushed| > Cap then pushed[|pushed| - Cap..] else pushed
  }

  /** The log after a series of `whiteboard-draw` events, in arrival order. */
  function Replay(log: seq<Blob>, strokes: seq<Blob>): seq<Blob>
    decreases |strokes|
  {
    if strokes == [] then log else Replay(Push(log, strokes[0]), strokes[1..])
  }

  /** Trimming before appending more and trimming once at the end agree. */
  lemma LastOfLast<T>(a: seq<T>, b: seq<T>, n: nat)
    ensures Last(Last(a, n) + b, n) == Last(a + b, n)
  {
    var la := Last(a, n);
    var lhs := Last(la + b, n);
    var rhs := Last(a + b, n);
    assert |lhs| == |rhs|;
    forall i | 0 <= i < |lhs|
      ensures lhs[i] == rhs[i]
    {
      // both are the elements of a + b that end at its last position
      var k := |lhs| - i;
      assert lhs[i] == (la + b)[|la + b| - k];
      assert rhs[i] == (a + b)[|a + b| - k];
      if k <= |b| {
        assert (la + b)[|la + b| - k] == b[|b| - k];
        assert (a + b)[|a + b| - k] == b[|b| - k];
      } else {
        assert (la + b)[|la + b| - k] == la[|la| - (k - |b|)];
        assert la[|la| - (k - |b|)] == a[|a| - (k - |b|)];
        assert (a + b)[|a + b| - k] == a[|a| - (k - |b|)];
      }
    }
  }

  /** FIFO eviction: after any series of draws the log holds exactly the most
      recent `Cap` strokes of the old log followed by the new ones, in order. */
  lemma {:induction false} ReplayKeepsMostRecent(log: seq<Blob>, strokes: seq<Blob>)
    requires |log| <= Cap
    ensures Replay(log, strokes) == Last(log + strokes, Cap)
    decreases |strokes|
  {
    if strokes == [] {
      assert log + strokes == log;
    } else {
      var s0, rest := strokes[0], strokes[1..];
      var pushed := Push(log, s0);
      assert pushed == Last(log + [s0], Cap);
      ReplayKeepsMostRecent(pushed, rest);
      LastOfLast(log + [s0], rest, Cap);
      assert (log + [s0]) + rest == log + strokes;
    }
  }

  /** More than `Cap` draws from any valid log leave exactly `Cap` strokes, and
      they are the latest `Cap` draws. */
  lemma ReplayOverflow(log: seq<Blob>, strokes: seq<Blob>)
    requires |log| <= Cap && |strokes| >= Cap
    ensures Replay(log, strokes) == strokes[|strokes| - Cap..]
  {
    ReplayKeepsMostRecent(log, strokes);
    var all := log + strokes;
    assert all[|all| - Cap..] == strokes[|strokes| - Cap..];
  }
}
