/** The roll history: newest entry first, at most HistoryLimit entries. */
module RollHistory {
  import opened GameState

  /** Prepends an entry and keeps the first HistoryLimit entries (`[e, ...h].slice(0, 5)`). */
  function Push(h: seq<Entry>, e: Entry): (r: seq<Entry>)
    ensures |r| == Min(|h| + 1, HistoryLimit)
    ensures r[0] == e
    // the rest is the old history with its oldest entry dropped when full
    ensures r[1..] == h[..|r| - 1]
  {
    ([e] + h)[..Min(|h| + 1, HistoryLimit)]
  }

  /** The history after pushing the entries of es, es[0] first. */
  function Replay(h: seq<Entry>, es: seq<Entry>): seq<Entry>
    decreases |es|
  {
    if es == [] then h else Replay(Push(h, es[0]), es[1..])
  }

  /** es with its last element first. */
  function NewestFirst(es: seq<Entry>): (r: seq<Entry>)
    ensures |r| == |es|
    decreases |es|
  {
    if es == [] then [] else NewestFirst(es[1..]) + [es[0]]
  }

  lemma PrefixOfAppend(a: seq<Entry>, b: seq<Entry>, m: nat, n: nat)
    requires m <= |b| && n <= |a| + m
    ensures (a + b[..m])[..n] == (a + b)[..n]
  {
    assert forall k :: 0 <= k < n ==> (a + b[..m])[k] == (a + b)[k];
  }

  /** After any run of Push the history holds the newest entries, newest first, and
      the oldest ones are the ones evicted. */
  lemma {:induction false} ReplayKeepsNewest(h: seq<Entry>, es: seq<Entry>)
    requires |h| <= HistoryLimit
    ensures Replay(h, es) == (NewestFirst(es) + h)[..Min(|es| + |h|, HistoryLimit)]
    decreases |es|
  {
    if es == [] {
      assert NewestFirst(es) + h == h;
    } else {
      var e, rest := es[0], es[1..];
      var b := [e] + h;
      var m := Min(|h| + 1, HistoryLimit);
      ReplayKeepsNewest(Push(h, e), rest);
      assert NewestFirst(es) == NewestFirst(rest) + [e];
      assert NewestFirst(es) + h == NewestFirst(rest) + b;
      PrefixOfAppend(NewestFirst(rest), b, m, Min(|rest| + m, HistoryLimit));
    }
  }

  /** Six Pushes into an empty history leave the newest five, newest first. */
  lemma SixRollsEvictOldest(a: Entry, b: Entry, c: Entry, d: Entry, e: Entry, f: Entry)
    ensures Replay([], [a, b, c, d, e, f]) == [f, e, d, c, b]
  {
    ReplayKeepsNewest([], [a, b, c, d, e, f]);
    assert NewestFirst([f]) == [f] by { assert [f][1..] == []; }
    assert NewestFirst([e, f]) == [f, e] by { assert [e, f][1..] == [f]; }
    assert NewestFirst([d, e, f]) == [f, e, d] by { assert [d, e, f][1..] == [e, f]; }
    assert NewestFirst([c, d, e, f]) == [f, e, d, c] by { assert [c, d, e, f][1..] == [d, e, f]; }
    assert NewestFirst([b, c, d, e, f]) == [f, e, d, c, b] by { assert [b, c, d, e, f][1..] == [c, d, e, f]; }
    assert NewestFirst([a, b, c, d, e, f]) == [f, e, d, c, b, a] by {
      assert [a, b, c, d, e, f][1..] == [b, c, d, e, f];
    }
  }
}
