/**
 * The rolling price history `prices = deque(maxlen=30)` (app.py:38) and its
 * append (app.py:172): a full deque drops its oldest entry to make room.
 */
module History {

  const HistoryCap: nat := 30

  /** The deque's `append` on a deque holding at most HistoryCap entries. */
  function PushBounded(h: seq<int>, x: int): (r: seq<int>)
    requires |h| <= HistoryCap
    ensures |r| <= HistoryCap && r != [] && r[|r| - 1] == x
    ensures |h| < HistoryCap ==> r == h + [x]
    ensures |h| == HistoryCap ==> |r| == HistoryCap && r[..|r| - 1] == h[1..]
  {
    if |h| == HistoryCap then h[1..] + [x] else h + [x]
  }

  /** Reference meaning: the last `HistoryCap` entries of a sequence of observations. */
  function Window(s: seq<int>): (r: seq<int>)
    ensures |r| <= HistoryCap
  {
    if |s| <= HistoryCap then s else s[|s| - HistoryCap..]
  }

  /** One append keeps the history equal to the window over everything observed. */
  lemma PushKeepsWindow(all: seq<int>, x: int)
    ensures PushBounded(Window(all), x) == Window(all + [x])
  {
    var w := Window(all);
    if |all| >= HistoryCap {
      assert w[1..] + [x] == (all + [x])[|all| + 1 - HistoryCap..];
    }
  }

  /** Appending observations one at a time, starting from an empty deque. */
  function PushAll(h: seq<int>, xs: seq<int>): (r: seq<int>)
    requires |h| <= HistoryCap
    ensures |r| <= HistoryCap
    decreases |xs|
  {
    if xs == [] then h else PushBounded(PushAll(h, xs[..|xs| - 1]), xs[|xs| - 1])
  }

  /**
   * However many prices have been observed, the deque holds exactly the most
   * recent HistoryCap of them, oldest first: the 31st observation evicts the first.
   */
  lemma {:induction false} PushAllIsWindow(xs: seq<int>)
    ensures PushAll([], xs) == Window(xs)
    decreases |xs|
  {
    if xs != [] {
      var front := xs[..|xs| - 1];
      PushAllIsWindow(front);
      PushKeepsWindow(front, xs[|xs| - 1]);
      assert front + [xs[|xs| - 1]] == xs;
    }
  }
}
