/** The autoscaler's ring of samples (internal/control_plane/autoscaling/autoscaling.go,
    windowAverage), against the full history of samples. */
module Windows {
  import opened Basics

  function Sum(s: seq<real>): real {
    if s == [] then 0.0 else Sum(s[..|s| - 1]) + s[|s| - 1]
  }

  function Mean(s: seq<real>): real
    requires s != []
  {
    Sum(s) / (|s| as real)
  }

  /** The last `n` elements, or all of them. */
  function Last<T>(s: seq<T>, n: nat): seq<T> {
    if n >= |s| then s else s[|s| - n..]
  }

  lemma {:induction false} SumConcat(a: seq<real>, b: seq<real>)
    ensures Sum(a + b) == Sum(a) + Sum(b)
  {
    if b == [] {
      assert a + b == a;
    } else {
      assert (a + b)[..|a + b| - 1] == a + b[..|b| - 1];
      SumConcat(a, b[..|b| - 1]);
    }
  }

  /** Summation does not care where a ring is cut. */
  lemma SumRotated(s: seq<real>, k: nat)
    requires k <= |s|
    ensures Sum(s[k..] + s[..k]) == Sum(s)
  {
    SumConcat(s[k..], s[..k]);
    SumConcat(s[..k], s[k..]);
    assert s[..k] + s[k..] == s;
  }

  lemma {:induction false} SumZero(s: seq<real>)
    requires forall i :: 0 <= i < |s| ==> s[i] >= 0.0
    ensures Sum(s) >= 0.0
    ensures Sum(s) == 0.0 <==> forall i :: 0 <= i < |s| ==> s[i] == 0.0
  {
    if s != [] {
      SumZero(s[..|s| - 1]);
      assert forall i :: 0 <= i < |s| - 1 ==> s[..|s| - 1][i] == s[i];
    }
  }

  // --- The ring ----------------------------------------------------------------------------

  /** `ring` holds the last `buckets` samples of `history`; `head` is the slot to be written next. */
  predicate Represents(ring: seq<real>, head: int, history: seq<real>, buckets: int) {
    && buckets >= 1
    && head == |history| % buckets
    && if |history| < buckets then ring == history
       else |ring| == buckets && Last(history, buckets) == ring[head..] + ring[..head]
  }

  /** The ring after a sample was written and before the head moves on. */
  predicate Written(ring: seq<real>, head: int, history: seq<real>, buckets: int) {
    && buckets >= 1 && history != [] && 0 <= head < |ring|
    && head == (|history| - 1) % buckets
    && if |history| <= buckets then ring == history && head == |ring| - 1
       else |ring| == buckets && Last(history, buckets) == ring[head + 1..] + ring[..head + 1]
  }

  lemma NextSlot(n: nat, buckets: int)
    requires buckets >= 1
    ensures 0 <= n % buckets < buckets
    ensures (n + 1) % buckets == if n % buckets + 1 == buckets then 0 else n % buckets + 1
    ensures n < buckets ==> n % buckets == n
  {
    var q, r := n / buckets, n % buckets;
    assert n == q * buckets + r;
    if r + 1 == buckets {
      assert n + 1 == (q + 1) * buckets;
      ModOf(q + 1, 0, buckets);
    } else {
      ModOf(q, r + 1, buckets);
    }
    if n < buckets {
      ModOf(0, n, buckets);
    }
  }

  lemma TimesKeepsOrder(a: int, c: int, b: nat)
    requires a <= c
    ensures a * b <= c * b
  {
  }

  lemma ModOf(q: int, r: int, b: int)
    requires 0 <= r < b
    ensures (q * b + r) % b == r
  {
    var x := q * b + r;
    var k := x / b;
    assert x == k * b + x % b;
    if k > q {
      TimesKeepsOrder(q + 1, k, b);
    } else if k < q {
      TimesKeepsOrder(k + 1, q, b);
    }
  }

  function Store(ring: seq<real>, head: int, buckets: int, x: real): seq<real>
    requires |ring| < buckets || 0 <= head < |ring|
  {
    if |ring| < buckets then ring + [x] else ring[head := x]
  }

  lemma StoreWrites(ring: seq<real>, head: int, history: seq<real>, buckets: int, x: real)
    requires Represents(ring, head, history, buckets)
    ensures |ring| < buckets || 0 <= head < |ring|
    ensures Written(Store(ring, head, buckets, x), head, history + [x], buckets)
  {
    NextSlot(|history|, buckets);
    var ring' := Store(ring, head, buckets, x);
    if |history| >= buckets {
      var suffix := Last(history, buckets);
      assert suffix[1..] + [x] == Last(history + [x], buckets);
      assert suffix[1..] == ring[head + 1..] + ring[..head];
      assert ring'[head + 1..] + ring'[..head + 1] == ring[head + 1..] + (ring[..head] + [x]);
    }
  }

  lemma HeadMoves(ring: seq<real>, head: int, history: seq<real>, buckets: int)
    requires Written(ring, head, history, buckets)
    ensures Represents(ring, if head + 1 >= buckets then 0 else head + 1, history, buckets)
  {
    NextSlot(|history| - 1, buckets);
    if |history| == buckets {
      assert ring[0..] + ring[..0] == ring;
    } else if |history| > buckets && head + 1 == buckets {
      assert ring[head + 1..] + ring[..head + 1] == ring;
      assert ring[0..] + ring[..0] == ring;
    }
  }

  // --- Reading a window --------------------------------------------------------------------

  /** The slots a window of `w` buckets reads: down from the head, then down from slot `w - 1`. */
  function Visited(head: nat, w: nat): seq<int> {
    seq(w, i => if i <= head then head - i else w - (i - head))
  }

  /** Every slot is in range and read once, the newest among them. */
  lemma VisitedOnce(head: nat, w: nat, len: nat)
    requires head < len && 1 <= w <= len
    ensures var v := Visited(head, w);
      && v[0] == head
      && (forall i :: 0 <= i < w ==> 0 <= v[i] < len)
      && (forall i, j :: 0 <= i < j < w ==> v[i] != v[j])
  {
  }

  /** How many samples ago a slot of a full ring was written. */
  function Age(slot: nat, head: nat, len: nat): int {
    if slot <= head then head - slot else head + len - slot
  }

  /** A window reads the most recent samples exactly when the head has room below it or the window
      is the whole ring; otherwise it reads the oldest sample the ring holds. */
  lemma RecentExactly(head: nat, w: nat, len: nat)
    requires head < len && 1 <= w <= len
    ensures (forall i :: 0 <= i < w ==> Age(Visited(head, w)[i], head, len) < w) <==> head + 1 >= w || w == len
    ensures head + 1 < w < len ==> Visited(head, w)[w - 1] == head + 1 && Age(head + 1, head, len) == len - 1
  {
  }

  function Slots(ring: seq<real>, head: nat, w: nat): seq<real>
    requires head < |ring| && w <= |ring|
  {
    if w <= head + 1 then ring[head + 1 - w..head + 1] else ring[..w]
  }

  /** The summing loop, which the source has twice. */
  method SumWindow(ring: seq<real>, head: int, w: int) returns (total: real)
    requires 0 <= head < |ring| && 0 <= w <= |ring|
    ensures total == Sum(Slots(ring, head, w))
  {
    total := 0.0;
    var index := head;
    for i := 0 to w
      invariant i < w ==> 0 <= index < |ring| && index == Visited(head, w)[i]
      invariant i <= head + 1 ==> total == Sum(ring[head + 1 - i..head + 1])
      invariant i > head + 1 ==> total == Sum(ring[..head + 1]) + Sum(ring[w - (i - head - 1)..w])
    {
      var value := ring[index];
      AddFront(ring, head, w, i, index);
      total := total + value;
      index := index - 1;
      if index < 0 {
        index := w - 1;
      }
    }
    if w > head + 1 {
      assert ring[..w] == ring[..head + 1] + ring[head + 1..w];
      SumConcat(ring[..head + 1], ring[head + 1..w]);
    }
  }

  lemma AddFront(ring: seq<real>, head: int, w: int, i: int, index: int)
    requires 0 <= head < |ring| && 0 <= i < w <= |ring| && 0 <= index < |ring| && index == Visited(head, w)[i]
    ensures i <= head ==> Sum(ring[head - i..head + 1]) == Sum(ring[head + 1 - i..head + 1]) + ring[index]
    ensures i > head ==>
      Sum(ring[w - (i - head)..w]) == ring[index] + (if i == head + 1 then 0.0 else Sum(ring[w - (i - head - 1)..w]))
  {
    if i <= head {
      assert ring[head - i..head + 1] == [ring[index]] + ring[head + 1 - i..head + 1];
      SumConcat([ring[index]], ring[head + 1 - i..head + 1]);
    } else {
      assert ring[w - (i - head)..w] == [ring[index]] + ring[w - (i - head - 1)..w];
      SumConcat([ring[index]], ring[w - (i - head - 1)..w]);
    }
    assert [ring[index]][..0] == [];
  }

  // --- What the two averages are -------------------------------------------------------------

  /** The stable window is the whole ring, wherever the head is. */
  lemma StableIsSuffix(ring: seq<real>, head: int, history: seq<real>, buckets: int)
    requires Written(ring, head, history, buckets)
    ensures Sum(Slots(ring, head, |ring|)) == Sum(Last(history, buckets)) && |ring| == |Last(history, buckets)|
  {
    if head + 1 == |ring| {
      assert Slots(ring, head, |ring|) == ring;
    } else {
      assert ring[..|ring|] == ring;
    }
    SumRotated(ring, head + 1);
  }

  /** What the panic window averages: the `w` newest samples, or, shortly after the ring has
      wrapped, the samples since it wrapped together with the oldest ones it still holds. */
  function PanicSamples(history: seq<real>, buckets: int, panicBuckets: int): (s: seq<real>)
    requires history != [] && buckets >= 1 && panicBuckets >= 1
    ensures |s| == Min(panicBuckets, Min(buckets, |history|))
  {
    var n := |history|;
    var w := Min(panicBuckets, Min(buckets, n));
    var since := (n - 1) % buckets + 1;
    if since >= w || n <= buckets then Last(history, w)
    else if w == buckets then Last(history, buckets)
    else Last(history, since) + history[n - buckets..n - buckets + (w - since)]
  }

  lemma PanicIsSamples(ring: seq<real>, head: int, history: seq<real>, buckets: int, panicBuckets: int)
    requires Written(ring, head, history, buckets) && panicBuckets >= 1
    ensures var w := Min(panicBuckets, |ring|); var s := PanicSamples(history, buckets, panicBuckets);
      |s| == w && Sum(Slots(ring, head, w)) == Sum(s)
  {
    var w := Min(panicBuckets, |ring|);
    if |history| <= buckets {
      PanicEarly(ring, head, history, buckets, w);
    } else if head + 1 < w == buckets {
      StableIsSuffix(ring, head, history, buckets);
    } else {
      PanicWrapped(ring, head, history, buckets, w);
    }
  }

  lemma PanicEarly(ring: seq<real>, head: int, history: seq<real>, buckets: int, w: int)
    requires Written(ring, head, history, buckets) && |history| <= buckets && 1 <= w <= |ring|
    ensures Slots(ring, head, w) == Last(history, w)
  {
  }

  /** A history whose panic window is not the newest samples: the ring of four has just wrapped, and
      the window of two takes the oldest sample it holds instead of the last but one. */
  lemma PanicMissesNewest()
    ensures var history := [5.0, 1.0, 2.0, 3.0, 4.0];
      && PanicSamples(history, 4, 2) == [4.0, 1.0] && Last(history, 2) == [3.0, 4.0]
      && Mean(PanicSamples(history, 4, 2)) == 2.5 && Mean(Last(history, 2)) == 3.5
  {
    var history := [5.0, 1.0, 2.0, 3.0, 4.0];
    assert Last(history, 1) == [4.0] && history[1..2] == [1.0];
    assert PanicSamples(history, 4, 2) == [4.0, 1.0];
    assert Last(history, 2) == [3.0, 4.0];
    SumOfTwo(4.0, 1.0);
    SumOfTwo(3.0, 4.0);
  }

  function WindowOf(n: nat, buckets: nat, panicBuckets: nat): nat {
    Min(panicBuckets, Min(buckets, n))
  }

  ghost predicate AlwaysNewest(n: nat, buckets: nat, panicBuckets: nat)
    requires n >= 1 && buckets >= 1 && panicBuckets >= 1
  {
    forall h: seq<real> | |h| == n :: NewestIn(h, buckets, panicBuckets)
  }

  predicate NewestIn(h: seq<real>, buckets: nat, panicBuckets: nat)
    requires h != [] && buckets >= 1 && panicBuckets >= 1
  {
    Mean(PanicSamples(h, buckets, panicBuckets)) == Mean(Last(h, WindowOf(|h|, buckets, panicBuckets)))
  }

  /** After `n` samples the panic average is that of the newest samples, for all samples, exactly if the
      ring has not wrapped, or has been refilled far enough since, or the window is the whole ring. */
  lemma NewestExactly(n: nat, buckets: nat, panicBuckets: nat)
    requires n >= 1 && buckets >= 1 && panicBuckets >= 1
    ensures var w := WindowOf(n, buckets, panicBuckets);
      AlwaysNewest(n, buckets, panicBuckets) <==> n <= buckets || (n - 1) % buckets + 1 >= w || w == buckets
  {
    var w := WindowOf(n, buckets, panicBuckets);
    if n <= buckets || (n - 1) % buckets + 1 >= w || w == buckets {
      forall h: seq<real> | |h| == n ensures NewestIn(h, buckets, panicBuckets) {
        SamplesAreNewest(h, buckets, panicBuckets);
      }
    } else {
      var h := seq(n, i => if i == n - buckets then 1.0 else 0.0);
      OldestCounts(h, buckets, panicBuckets);
      assert |h| == n && !NewestIn(h, buckets, panicBuckets);
    }
  }

  lemma SamplesAreNewest(h: seq<real>, buckets: nat, panicBuckets: nat)
    requires h != [] && buckets >= 1 && panicBuckets >= 1
    requires var w := WindowOf(|h|, buckets, panicBuckets);
      |h| <= buckets || (|h| - 1) % buckets + 1 >= w || w == buckets
    ensures PanicSamples(h, buckets, panicBuckets) == Last(h, WindowOf(|h|, buckets, panicBuckets))
  {
  }

  /** A history that is zero but for the oldest sample the ring still holds. */
  lemma OldestCounts(h: seq<real>, buckets: nat, panicBuckets: nat)
    requires 1 <= buckets < |h| && panicBuckets >= 1
    requires var w := WindowOf(|h|, buckets, panicBuckets); (|h| - 1) % buckets + 1 < w < buckets
    requires forall i :: 0 <= i < |h| ==> h[i] == if i == |h| - buckets then 1.0 else 0.0
    ensures Mean(PanicSamples(h, buckets, panicBuckets)) != Mean(Last(h, WindowOf(|h|, buckets, panicBuckets)))
  {
    var w := WindowOf(|h|, buckets, panicBuckets);
    var since := (|h| - 1) % buckets + 1;
    NextSlot(|h| - 1, buckets);
    OldestInSamples(h, buckets, since, w);
    MeansDiffer(PanicSamples(h, buckets, panicBuckets), since, Last(h, w));
  }

  lemma OldestInSamples(h: seq<real>, buckets: nat, since: nat, w: nat)
    requires 1 <= since < w < buckets < |h|
    requires forall i :: 0 <= i < |h| ==> h[i] == if i == |h| - buckets then 1.0 else 0.0
    ensures var s := Last(h, since) + h[|h| - buckets..|h| - buckets + (w - since)];
      |s| == w && s[since] == 1.0 && forall i :: 0 <= i < |s| ==> s[i] >= 0.0
    ensures forall i :: 0 <= i < |Last(h, w)| ==> Last(h, w)[i] == 0.0
  {
  }

  lemma MeansDiffer(some: seq<real>, k: nat, zeros: seq<real>)
    requires k < |some| && some[k] == 1.0 && forall i :: 0 <= i < |some| ==> some[i] >= 0.0
    requires zeros != [] && forall i :: 0 <= i < |zeros| ==> zeros[i] == 0.0
    ensures Mean(some) != Mean(zeros)
  {
    SumZero(some);
    SumZero(zeros);
  }

  lemma SumOfTwo(a: real, b: real)
    ensures Sum([a, b]) == a + b
  {
    SumConcat([a], [b]);
    assert [a] + [b] == [a, b] && [a][..0] == [] && [b][..0] == [];
  }

  lemma PanicWrapped(ring: seq<real>, head: int, history: seq<real>, buckets: int, w: int)
    requires Written(ring, head, history, buckets) && |history| > buckets && 1 <= w <= buckets
    requires head + 1 >= w || w < buckets
    ensures Slots(ring, head, w) ==
      if head + 1 >= w then Last(history, w)
      else Last(history, head + 1) + history[|history| - buckets..|history| - buckets + (w - head - 1)]
  {
    var n := |history|;
    var suffix := Last(history, buckets);
    assert suffix == ring[head + 1..] + ring[..head + 1];
    if head + 1 >= w {
      assert Last(history, w) == suffix[buckets - w..];
      assert ring[head + 1 - w..head + 1] == suffix[buckets - w..];
    } else {
      assert Last(history, head + 1) == suffix[buckets - (head + 1)..];
      assert suffix[buckets - (head + 1)..] == ring[..head + 1];
      assert history[n - buckets..n - buckets + (w - head - 1)] == suffix[..w - head - 1];
      assert suffix[..w - head - 1] == ring[head + 1..w];
      assert ring[..w] == ring[..head + 1] + ring[head + 1..w];
    }
  }
}
