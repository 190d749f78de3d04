/** The agents' experience buffer: Python's `collections.deque(maxlen=N)`.
    Appending to a full deque silently drops the element at the head (the
    oldest one), so the buffer always holds the newest `N` insertions in
    insertion order. */
module ReplayMemory {

  /** `deque.append(x)` on a deque whose bound is `maxLen`. */
  function Append<T>(q: seq<T>, x: T, maxLen: nat): (r: seq<T>)
    requires |q| <= maxLen
    ensures |r| == if |q| < maxLen then |q| + 1 else maxLen
    ensures |q| < maxLen ==> r == q + [x]
    ensures 0 < |q| == maxLen ==> r == q[1..] + [x]
    ensures 0 < maxLen ==> r[|r| - 1] == x
    ensures forall y :: y in r ==> y in q || y == x
  {
    if |q| < maxLen then q + [x] else (q + [x])[1..]
  }

  /** The deque after appending `xs` in order, one `append` call per element. */
  function AppendAll<T>(q: seq<T>, xs: seq<T>, maxLen: nat): (r: seq<T>)
    requires |q| <= maxLen
    ensures |r| == if |q| + |xs| < maxLen then |q| + |xs| else maxLen
    decreases |xs|
  {
    if xs == [] then q
    else Append(AppendAll(q, xs[..|xs| - 1], maxLen), xs[|xs| - 1], maxLen)
  }

  /** Nothing enters the deque but what was appended: every element is one
      it held before or one of the inserted ones. */
  lemma {:induction false} AppendAllFrom<T>(q: seq<T>, xs: seq<T>, maxLen: nat)
    requires |q| <= maxLen
    ensures forall y :: y in AppendAll(q, xs, maxLen) ==> y in q || y in xs
    decreases |xs|
  {
    if xs != [] {
      var front, last := xs[..|xs| - 1], xs[|xs| - 1];
      AppendAllFrom(q, front, maxLen);
      forall y | y in AppendAll(q, xs, maxLen) ensures y in q || y in xs {
        if y != last {
          assert y in AppendAll(q, front, maxLen);
          assert y in q || y in front;
        }
      }
    }
  }

  /** The newest `n` elements of `s`, or all of `s` when it has fewer. */
  function Newest<T>(s: seq<T>, n: nat): seq<T>
  {
    if |s| <= n then s else s[|s| - n..]
  }

  lemma NewestSnoc<T>(s: seq<T>, x: T, n: nat)
    ensures Newest(Newest(s, n) + [x], n) == Newest(s + [x], n)
  {
  }

  /** One `append` keeps the newest `n` elements. */
  lemma AppendIsNewest<T>(r: seq<T>, x: T, n: nat)
    requires |r| <= n
    ensures Append(r, x, n) == Newest(r + [x], n)
  {
  }

  /** FIFO eviction law: whatever was inserted, the deque holds exactly the
      newest `maxLen` elements of the whole insertion history, oldest first. */
  lemma {:induction false} FifoEviction<T>(q: seq<T>, xs: seq<T>, maxLen: nat)
    requires |q| <= maxLen
    ensures AppendAll(q, xs, maxLen) == Newest(q + xs, maxLen)
    decreases |xs|
  {
    if xs == [] {
      assert q + xs == q;
    } else {
      var front, last := xs[..|xs| - 1], xs[|xs| - 1];
      var r := AppendAll(q, front, maxLen);
      assert AppendAll(q, xs, maxLen) == Append(r, last, maxLen);
      FifoEviction(q, front, maxLen);
      AppendIsNewest(r, last, maxLen);
      NewestSnoc(q + front, last, maxLen);
      assert q + xs == (q + front) + [last];
    }
  }

  /** Filling an empty deque of bound `maxLen` with `maxLen + k` elements
      leaves exactly the last `maxLen` of them: the `k` oldest are gone. */
  lemma OldestEvictedFirst<T>(xs: seq<T>, maxLen: nat, k: nat)
    requires |xs| == maxLen + k
    ensures AppendAll([], xs, maxLen) == xs[k..]
  {
    FifoEviction([], xs, maxLen);
    assert [] + xs == xs;
  }

  /** A memory bounded at three that receives four transitions keeps the last
      three, in insertion order. */
  lemma ThreeOfFour<T>(t1: T, t2: T, t3: T, t4: T)
    ensures AppendAll([], [t1, t2, t3, t4], 3) == [t2, t3, t4]
  {
    OldestEvictedFirst([t1, t2, t3, t4], 3, 1);
  }
}
