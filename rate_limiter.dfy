// The admission controller of the POE client: a priority queue of pending
// requests, a 60-second sliding window of admission times capped at the
// requests-per-minute limit, exponential backoff with jitter, and the retry
// loop of direct execution with its metrics.
//
// Time is an integer number of milliseconds passed in by the caller; sleeping
// advances it. A jitter draw `random.uniform(0, backoff * 0.5)` is an input
// `u` with 0 <= u <= JitterScale standing for the fraction u / JitterScale of
// half the backoff.
module RateLimiter {
  import opened Wrappers
  import Text

  // ---------------------------------------------------------------------------
  // Priority requests and the binary heap behind RequestQueue
  // ---------------------------------------------------------------------------

  /**
   * A queued request. Only `priority` takes part in comparisons; the other
   * fields are excluded from ordering, so requests of equal priority are not
   * ordered among themselves (there is no first-in-first-out tie-break).
   * The callable, its arguments and its future are not modelled.
   */
  datatype PriorityRequest = PriorityRequest(priority: int, timestampMs: nat, requestId: string)

  function Parent(i: nat): nat
    requires i > 0
  {
    (i - 1) / 2
  }

  /** Heap order on every parent/child pair whose parent index is at least `lo`. */
  ghost predicate HeapFrom(q: seq<PriorityRequest>, lo: nat)
  {
    forall i :: 0 < i < |q| && lo <= Parent(i) ==> q[Parent(i)].priority <= q[i].priority
  }

  ghost predicate IsHeap(q: seq<PriorityRequest>)
  {
    HeapFrom(q, 0)
  }

  /** The root of a heap has the smallest priority of all its elements. */
  lemma {:induction false} HeapRootIsMinimal(q: seq<PriorityRequest>, i: nat)
    requires IsHeap(q) && i < |q|
    ensures q[0].priority <= q[i].priority
    decreases i
  {
    if i > 0 {
      HeapRootIsMinimal(q, Parent(i));
    }
  }

  /** The root's priority is a lower bound for every request in the heap. */
  lemma HeapRootBelowAll(q: seq<PriorityRequest>)
    requires IsHeap(q) && |q| > 0
    ensures forall r :: r in q ==> q[0].priority <= r.priority
  {
    forall r | r in q ensures q[0].priority <= r.priority {
      var i :| 0 <= i < |q| && q[i] == r;
      HeapRootIsMinimal(q, i);
    }
  }

  /** Replacing the root of a heap leaves heap order below the root intact. */
  lemma ReplaceRoot(q: seq<PriorityRequest>, x: PriorityRequest)
    requires IsHeap(q) && |q| > 0
    ensures HeapFrom(q[0 := x], 1)
  {
    var m := q[0 := x];
    forall i | 0 < i < |m| && 1 <= Parent(i)
      ensures m[Parent(i)].priority <= m[i].priority
    {
      assert m[Parent(i)] == q[Parent(i)] && m[i] == q[i];
    }
  }

  /** With no index at or beyond half the length, there is no pair to order. */
  lemma HeapFromHalf(q: seq<PriorityRequest>)
    ensures HeapFrom(q, |q| / 2)
  {
    forall i | 0 < i < |q|
      ensures Parent(i) < |q| / 2
    {
    }
  }

  function Swap(s: seq<PriorityRequest>, i: nat, j: nat): (r: seq<PriorityRequest>)
    requires i < |s| && j < |s|
    ensures |r| == |s| && r[i] == s[j] && r[j] == s[i]
    ensures forall k :: 0 <= k < |s| && k != i && k != j ==> r[k] == s[k]
    ensures multiset(r) == multiset(s)
  {
    s[i := s[j]][j := s[i]]
  }

  /** Heap order everywhere except between `k` and its parent, bridged over `k`. */
  ghost predicate HeapExceptUp(r: seq<PriorityRequest>, k: nat)
  {
    k < |r|
    && (forall i :: 0 < i < |r| && i != k ==> r[Parent(i)].priority <= r[i].priority)
    && (k > 0 ==> forall i :: 0 < i < |r| && Parent(i) == k ==> r[Parent(k)].priority <= r[i].priority)
  }

  /** Swapping a too-small element with its parent moves the hole one level up. */
  lemma SiftUpStep(r: seq<PriorityRequest>, k: nat)
    requires HeapExceptUp(r, k) && k > 0 && r[k].priority < r[Parent(k)].priority
    ensures HeapExceptUp(Swap(r, k, Parent(k)), Parent(k))
  {
    var p := Parent(k);
    var r' := Swap(r, k, p);
    forall i | 0 < i < |r'| && i != p
      ensures r'[Parent(i)].priority <= r'[i].priority
    {
      if i == k {
      } else if Parent(i) == k {
        assert r'[Parent(i)] == r[p];
      } else if Parent(i) == p {
        assert r[p].priority <= r[i].priority;
      } else {
        assert r'[Parent(i)] == r[Parent(i)] && r'[i] == r[i];
      }
    }
    if p > 0 {
      forall i | 0 < i < |r'| && Parent(i) == p
        ensures r'[Parent(p)].priority <= r'[i].priority
      {
        assert r'[Parent(p)] == r[Parent(p)];
        assert r[Parent(p)].priority <= r[p].priority;
        if i != k {
          assert r[p].priority <= r[i].priority;
        }
      }
    }
  }

  /** `heapq._siftdown`: move the element at `pos` up towards the root. */
  method SiftUp(q: seq<PriorityRequest>, pos: nat) returns (r: seq<PriorityRequest>)
    requires HeapExceptUp(q, pos)
    ensures |r| == |q| && multiset(r) == multiset(q)
    ensures IsHeap(r)
  {
    r := q;
    var k := pos;
    while k > 0 && r[k].priority < r[Parent(k)].priority
      invariant |r| == |q| && multiset(r) == multiset(q)
      invariant HeapExceptUp(r, k)
      decreases k
    {
      SiftUpStep(r, k);
      r := Swap(r, k, Parent(k));
      k := Parent(k);
    }
  }

  /** Heap order from `lo` on, except between `k` and its children, bridged over `k`. */
  ghost predicate HeapExceptDown(r: seq<PriorityRequest>, lo: nat, k: nat)
  {
    lo <= k < |r|
    && (forall i :: 0 < i < |r| && lo <= Parent(i) && Parent(i) != k ==> r[Parent(i)].priority <= r[i].priority)
    && (k > lo ==> forall i :: 0 < i < |r| && Parent(i) == k ==> r[Parent(k)].priority <= r[i].priority)
  }

  /** Swapping a too-large element with its smaller child moves the hole one level down. */
  lemma SiftDownStep(r: seq<PriorityRequest>, lo: nat, k: nat, c: nat)
    requires HeapExceptDown(r, lo, k)
    requires 0 < c < |r| && Parent(c) == k && r[c].priority < r[k].priority
    requires forall i :: 0 < i < |r| && Parent(i) == k ==> r[c].priority <= r[i].priority
    ensures HeapExceptDown(Swap(r, k, c), lo, c)
  {
    var r' := Swap(r, k, c);
    forall i | 0 < i < |r'| && lo <= Parent(i) && Parent(i) != c
      ensures r'[Parent(i)].priority <= r'[i].priority
    {
      if i == k {
        assert r[Parent(k)].priority <= r[c].priority;
      } else if i == c {
      } else if Parent(i) == k {
        assert r'[i] == r[i];
      } else {
        assert r'[Parent(i)] == r[Parent(i)] && r'[i] == r[i];
      }
    }
    forall i | 0 < i < |r'| && Parent(i) == c
      ensures r'[Parent(c)].priority <= r'[i].priority
    {
      assert r'[i] == r[i];
      assert r[c].priority <= r[i].priority;
    }
  }

  /** A hole no larger than its children is no hole. */
  lemma SiftDownDone(r: seq<PriorityRequest>, lo: nat, k: nat)
    requires HeapExceptDown(r, lo, k)
    requires forall i :: 0 < i < |r| && Parent(i) == k ==> r[k].priority <= r[i].priority
    ensures HeapFrom(r, lo)
  {
  }

  /**
   * Move the element at `lo` down until it is no larger than its children.
   * The pairs below `lo` must already be in heap order.
   */
  method SiftDown(q: seq<PriorityRequest>, lo: nat) returns (r: seq<PriorityRequest>)
    requires lo < |q|
    requires HeapFrom(q, lo + 1)
    ensures |r| == |q| && multiset(r) == multiset(q)
    ensures HeapFrom(r, lo)
  {
    r := q;
    var k := lo;
    while 2 * k + 1 < |r|
      invariant |r| == |q| && multiset(r) == multiset(q)
      invariant HeapExceptDown(r, lo, k)
      decreases |r| - k
    {
      var c := 2 * k + 1;
      if c + 1 < |r| && !(r[c].priority < r[c + 1].priority) {
        c := c + 1;
      }
      assert forall i :: 0 < i < |r| && Parent(i) == k ==> i == 2 * k + 1 || i == 2 * k + 2;
      if !(r[c].priority < r[k].priority) {
        SiftDownDone(r, lo, k);
        return;
      }
      SiftDownStep(r, lo, k, c);
      r := Swap(r, k, c);
      k := c;
    }
    assert forall i :: 0 < i < |r| && Parent(i) == k ==> i >= 2 * k + 1;
    SiftDownDone(r, lo, k);
  }

  /** `heapq.heapify` */
  method Heapify(q: seq<PriorityRequest>) returns (r: seq<PriorityRequest>)
    ensures |r| == |q| && multiset(r) == multiset(q)
    ensures IsHeap(r)
  {
    r := q;
    var k: nat := |r| / 2;
    HeapFromHalf(r);
    while k > 0
      invariant k <= |r| / 2 && |r| == |q| && multiset(r) == multiset(q)
      invariant HeapFrom(r, k)
    {
      k := k - 1;
      r := SiftDown(r, k);
    }
  }

  // ---------------------------------------------------------------------------
  // Staleness sweep of the queue
  // ---------------------------------------------------------------------------

  const DefaultMaxAgeSeconds: int := 300

  /** A request is stale when it has waited strictly longer than `maxAgeSeconds`. */
  predicate IsStale(r: PriorityRequest, nowMs: nat, maxAgeSeconds: int)
  {
    nowMs - r.timestampMs > maxAgeSeconds * 1000
  }

  /** The requests of `q` that are kept, in order. */
  function Kept(q: seq<PriorityRequest>, nowMs: nat, maxAgeSeconds: int): seq<PriorityRequest>
  {
    if |q| == 0 then []
    else Kept(q[..|q| - 1], nowMs, maxAgeSeconds)
         + (if IsStale(q[|q| - 1], nowMs, maxAgeSeconds) then [] else [q[|q| - 1]])
  }

  /** The requests of `q` that expire, in order. */
  function Expired(q: seq<PriorityRequest>, nowMs: nat, maxAgeSeconds: int): seq<PriorityRequest>
  {
    if |q| == 0 then []
    else Expired(q[..|q| - 1], nowMs, maxAgeSeconds)
         + (if IsStale(q[|q| - 1], nowMs, maxAgeSeconds) then [q[|q| - 1]] else [])
  }

  /**
   * The sweep partitions the queue: every request is either kept or expired,
   * the kept ones are exactly the fresh ones and the expired ones exactly the
   * stale ones.
   */
  lemma {:induction false} SweepPartitions(q: seq<PriorityRequest>, nowMs: nat, maxAgeSeconds: int)
    ensures multiset(Kept(q, nowMs, maxAgeSeconds)) + multiset(Expired(q, nowMs, maxAgeSeconds)) == multiset(q)
    ensures forall r :: r in Kept(q, nowMs, maxAgeSeconds) ==> r in q && !IsStale(r, nowMs, maxAgeSeconds)
    ensures forall r :: r in Expired(q, nowMs, maxAgeSeconds) ==> r in q && IsStale(r, nowMs, maxAgeSeconds)
    ensures forall r :: r in q ==> (r in Kept(q, nowMs, maxAgeSeconds) <==> !IsStale(r, nowMs, maxAgeSeconds))
  {
    if |q| > 0 {
      var init := q[..|q| - 1];
      SweepPartitions(init, nowMs, maxAgeSeconds);
      assert q == init + [q[|q| - 1]];
    }
  }

  // ---------------------------------------------------------------------------
  // RequestQueue
  // ---------------------------------------------------------------------------

  class RequestQueue {
    /** The heap list; `queue[0]` is the next request to serve. */
    var queue: seq<PriorityRequest>
    /** Number of `put` calls ever made; never decremented. */
    var requestCount: nat

    ghost predicate Valid()
      reads this
    {
      IsHeap(queue)
    }

    constructor ()
      ensures Valid() && queue == [] && requestCount == 0
    {
      queue := [];
      requestCount := 0;
    }

    /** `put`: push one request and count it. */
    method Put(request: PriorityRequest)
      requires Valid()
      modifies this
      ensures Valid()
      ensures multiset(queue) == multiset(old(queue)) + multiset{request}
      ensures requestCount == old(requestCount) + 1
    {
      var q := queue + [request];
      assert forall i :: 0 < i < |q| && i != |queue| ==> q[Parent(i)] == queue[Parent(i)] && q[i] == queue[i];
      assert forall i :: 0 < i < |q| ==> Parent(i) < |queue|;
      queue := SiftUp(q, |queue|);
      requestCount := requestCount + 1;
    }

    /** `get`: None on an empty queue, else remove and return a request of minimal priority. */
    method Get() returns (request: Option<PriorityRequest>)
      requires Valid()
      modifies this
      ensures Valid()
      ensures requestCount == old(requestCount)
      ensures old(queue) == [] ==> request == None && queue == []
      ensures old(queue) != [] ==> request.Some? && request.value in old(queue)
      ensures old(queue) != [] ==> multiset(queue) == multiset(old(queue)) - multiset{request.value}
      ensures old(queue) != [] ==> forall r :: r in old(queue) ==> request.value.priority <= r.priority
    {
      if |queue| == 0 {
        return None;
      }
      HeapRootBelowAll(queue);
      var last := queue[|queue| - 1];
      var rest := queue[..|queue| - 1];
      assert queue == rest + [last];
      assert IsHeap(rest) by {
        forall i | 0 < i < |rest| ensures rest[Parent(i)].priority <= rest[i].priority {
          assert rest[Parent(i)] == queue[Parent(i)] && rest[i] == queue[i];
        }
      }
      if |rest| == 0 {
        queue := [];
        return Some(last);
      }
      var top := rest[0];
      var moved := rest[0 := last];
      ReplaceRoot(rest, last);
      assert multiset(moved) == multiset(rest) - multiset{top} + multiset{last};
      queue := SiftDown(moved, 0);
      return Some(top);
    }

    /** `size`: the number of queued requests. */
    function Size(): (n: nat)
      reads this
      ensures n == |multiset(queue)|
    {
      |queue|
    }

    /**
     * `clear_expired`: drop the requests that waited longer than
     * `maxAgeSeconds` and return how many; the dropped requests, in list
     * order, are the ones whose futures are failed with a timeout.
     */
    method ClearExpired(nowMs: nat, maxAgeSeconds: int) returns (removed: nat, expired: seq<PriorityRequest>)
      requires Valid()
      modifies this
      ensures Valid()
      ensures requestCount == old(requestCount)
      ensures expired == Expired(old(queue), nowMs, maxAgeSeconds)
      ensures multiset(queue) == multiset(Kept(old(queue), nowMs, maxAgeSeconds))
      ensures removed == |expired|
    {
      var kept: seq<PriorityRequest> := [];
      expired := [];
      var i := 0;
      while i < |queue|
        invariant 0 <= i <= |queue|
        invariant kept == Kept(queue[..i], nowMs, maxAgeSeconds)
        invariant expired == Expired(queue[..i], nowMs, maxAgeSeconds)
      {
        assert queue[..i + 1][..i] == queue[..i];
        if IsStale(queue[i], nowMs, maxAgeSeconds) {
          expired := expired + [queue[i]];
        } else {
          kept := kept + [queue[i]];
        }
        i := i + 1;
      }
      assert queue[..i] == queue;
      queue := Heapify(kept);
      removed := |expired|;
    }
  }

  // ---------------------------------------------------------------------------
  // Backoff arithmetic
  // ---------------------------------------------------------------------------

  const JitterScale: nat := 1000000

  function Pow2(k: nat): (r: nat)
    ensures r >= 1
  {
    if k == 0 then 1 else 2 * Pow2(k - 1)
  }

  lemma {:induction false} Pow2Monotone(a: nat, b: nat)
    requires a <= b
    ensures Pow2(a) <= Pow2(b)
    decreases b
  {
    if a < b {
      Pow2Monotone(a, b - 1);
    }
  }

  function Min(a: int, b: int): int
  {
    if a <= b then a else b
  }

  /** The wait while the window is full: `min(base * min(2^count, 64), max_backoff)`. */
  function SaturationBackoff(baseMs: nat, count: nat, maxBackoffMs: nat): (b: nat)
    ensures b <= maxBackoffMs && b <= 64 * baseMs
    ensures count == 0 ==> b == Min(baseMs, maxBackoffMs)
  {
    Min(baseMs * Min(Pow2(count), 64), maxBackoffMs)
  }

  /** The wait before retry number `r` (1-based): `min(base * 2^(r-1), max_backoff)`. */
  function RetryBackoff(baseMs: nat, r: nat, maxBackoffMs: nat): (b: nat)
    requires r >= 1
    ensures b <= maxBackoffMs
  {
    Min(baseMs * Pow2(r - 1), maxBackoffMs)
  }

  /** Retry backoff never shrinks as the retry number grows. */
  lemma RetryBackoffMonotone(baseMs: nat, r1: nat, r2: nat, maxBackoffMs: nat)
    requires 1 <= r1 <= r2
    ensures RetryBackoff(baseMs, r1, maxBackoffMs) <= RetryBackoff(baseMs, r2, maxBackoffMs)
  {
    Pow2Monotone(r1 - 1, r2 - 1);
    assert baseMs * Pow2(r1 - 1) <= baseMs * Pow2(r2 - 1);
  }

  /** The jitter drawn as the fraction `u / JitterScale` of half the backoff. */
  function Jitter(backoffMs: nat, u: nat): (j: nat)
    requires u <= JitterScale
    ensures 2 * j <= backoffMs
  {
    JitterBound(backoffMs, u);
    backoffMs * u / (2 * JitterScale)
  }

  /** Half the backoff scaled by a fraction of at most one is at most half the backoff. */
  lemma JitterBound(backoffMs: nat, u: nat)
    requires u <= JitterScale
    ensures 2 * (backoffMs * u / (2 * JitterScale)) <= backoffMs
  {
    var q := backoffMs * u / (2 * JitterScale);
    assert q * (2 * JitterScale) <= backoffMs * u;
    assert backoffMs * u <= backoffMs * JitterScale by {
      assert backoffMs * (JitterScale - u) >= 0;
    }
  }

  /** A whole wait, backoff plus jitter, is at most one and a half times the cap. */
  function TotalWait(backoffMs: nat, u: nat, maxBackoffMs: nat): (w: nat)
    requires u <= JitterScale && backoffMs <= maxBackoffMs
    ensures backoffMs <= w && 2 * w <= 3 * maxBackoffMs
  {
    backoffMs + Jitter(backoffMs, u)
  }

  /** Every jitter draw is a fraction of at most one. */
  predicate DrawsOk(draws: seq<nat>)
  {
    forall k :: 0 <= k < |draws| ==> draws[k] <= JitterScale
  }

  /** Sum of the waits of a run of saturation cycles with the same backoff. */
  function SumWaits(backoffMs: nat, maxBackoffMs: nat, draws: seq<nat>): nat
    requires backoffMs <= maxBackoffMs && DrawsOk(draws)
  {
    if |draws| == 0 then 0
    else TotalWait(backoffMs, draws[0], maxBackoffMs) + SumWaits(backoffMs, maxBackoffMs, draws[1..])
  }

  /** Each saturation cycle waits at least the backoff and at most 1.5 times the cap. */
  lemma {:induction false} SumWaitsBounds(backoffMs: nat, maxBackoffMs: nat, draws: seq<nat>)
    requires backoffMs <= maxBackoffMs && DrawsOk(draws)
    ensures |draws| * backoffMs <= SumWaits(backoffMs, maxBackoffMs, draws)
    ensures 2 * SumWaits(backoffMs, maxBackoffMs, draws) <= 3 * |draws| * maxBackoffMs
  {
    if |draws| > 0 {
      var n := |draws|;
      SumWaitsBounds(backoffMs, maxBackoffMs, draws[1..]);
      var w, rest := TotalWait(backoffMs, draws[0], maxBackoffMs), SumWaits(backoffMs, maxBackoffMs, draws[1..]);
      assert SumWaits(backoffMs, maxBackoffMs, draws) == w + rest;
      WaitsStep(n, backoffMs, maxBackoffMs, w, rest);
    }
  }

  /** One more cycle keeps the per-cycle bounds on the sum. */
  lemma WaitsStep(n: nat, backoffMs: nat, maxBackoffMs: nat, w: nat, rest: nat)
    requires n >= 1 && backoffMs <= w && 2 * w <= 3 * maxBackoffMs
    requires (n - 1) * backoffMs <= rest && 2 * rest <= 3 * (n - 1) * maxBackoffMs
    ensures n * backoffMs <= w + rest && 2 * (w + rest) <= 3 * n * maxBackoffMs
  {
    assert (n - 1) * backoffMs + backoffMs == n * backoffMs;
    assert 3 * (n - 1) * maxBackoffMs + 3 * maxBackoffMs == 3 * n * maxBackoffMs;
  }

  // ---------------------------------------------------------------------------
  // The sliding window
  // ---------------------------------------------------------------------------

  const WindowMs: int := 60000

  /** `_cleanup_window`: pop leading admission times older than 60 s. */
  function DropStale(w: seq<nat>, nowMs: nat): (r: seq<nat>)
    ensures |r| <= |w|
    ensures |r| > 0 ==> r[0] >= nowMs - WindowMs
  {
    if |w| > 0 && w[0] < nowMs - WindowMs then DropStale(w[1..], nowMs) else w
  }

  /** The sweep removes a prefix: what is left is a suffix of the window, in order. */
  lemma {:induction false} DropStaleIsSuffix(w: seq<nat>, nowMs: nat)
    ensures DropStale(w, nowMs) == w[|w| - |DropStale(w, nowMs)|..]
  {
    if |w| > 0 && w[0] < nowMs - WindowMs {
      DropStaleIsSuffix(w[1..], nowMs);
    }
  }

  /** Only stale leading entries are dropped. */
  lemma {:induction false} DropStaleDropsOnlyStale(w: seq<nat>, nowMs: nat)
    ensures forall i :: 0 <= i < |w| - |DropStale(w, nowMs)| ==> w[i] < nowMs - WindowMs
  {
    if |w| > 0 && w[0] < nowMs - WindowMs {
      DropStaleDropsOnlyStale(w[1..], nowMs);
    }
  }

  /**
   * Every admission time that is not older than the window survives the
   * sweep, whether or not the window is sorted; in particular an entry
   * exactly 60 s old stays.
   */
  lemma {:induction false} KeepsRecent(w: seq<nat>, nowMs: nat, x: nat)
    requires x in w && x >= nowMs - WindowMs
    ensures x in DropStale(w, nowMs)
  {
    if |w| > 0 && w[0] < nowMs - WindowMs {
      assert w == [w[0]] + w[1..];
      KeepsRecent(w[1..], nowMs, x);
    }
  }

  /** Sweeping at an earlier time and then at a later one is sweeping at the later one. */
  lemma {:induction false} DropStaleCompose(w: seq<nat>, t1: nat, t2: nat)
    requires t1 <= t2
    ensures DropStale(DropStale(w, t1), t2) == DropStale(w, t2)
  {
    if |w| > 0 && w[0] < t1 - WindowMs {
      DropStaleCompose(w[1..], t1, t2);
    }
  }

  lemma DropStaleAtZero(w: seq<nat>)
    ensures DropStale(w, 0) == w
  {
  }

  // ---------------------------------------------------------------------------
  // The rate limiter
  // ---------------------------------------------------------------------------

  datatype Metrics = Metrics(
    totalRequests: nat,
    successfulRequests: nat,
    failedRequests: nat,
    rateLimited: nat,
    retries: nat,
    queueSizeMax: nat,
    totalWaitTimeMs: nat)

  const ZeroMetrics := Metrics(0, 0, 0, 0, 0, 0, 0)

  /** What `get_metrics` reports: the counters plus three derived values. */
  datatype MetricsReport = MetricsReport(counters: Metrics, currentRpm: nat, queueSize: nat, successRate: real)

  /** The header of a successful result that carries `Retry-After`. */
  datatype RetryAfterHeader =
    | NoRetryAfter
    | RetryAfterSeconds(delayMs: int)   // a value `float()` accepts, in ms
    | RetryAfterText(raw: string)       // any other value: `float()` raises

  /** What one call of the wrapped coroutine does. */
  datatype TaskOutcome =
    | Returned(body: string, retryAfter: RetryAfterHeader)
    | Raised(message: string)

  /**
   * One attempt of direct execution: the jitter draws of the saturation
   * waits before it, how long the call takes, what it does, and the jitter
   * draw of the retry backoff after it if it fails.
   */
  datatype Attempt = Attempt(slotDraws: seq<nat>, durationMs: nat, outcome: TaskOutcome, retryDraw: nat)

  datatype ExecError =
    | TaskFailed(message: string)
    | RetryAfterNotNumeric(raw: string)
    | RequestFailed(requestId: string)   // `Exception(f"Request {id} failed")`

  datatype ExecOutcome =
    | ExecSucceeded(body: string)
    | ExecFailed(error: ExecError)
    | ExecStalled   // the modelled draws ran out while still waiting


  /** The error an attempt ends with, if it ends with one. */
  function AttemptError(o: TaskOutcome): (e: Option<ExecError>)
    ensures e.None? <==> o.Returned? && !o.retryAfter.RetryAfterText?
  {
    match o
    case Raised(m) => Some(TaskFailed(m))
    case Returned(_, RetryAfterText(raw)) => Some(RetryAfterNotNumeric(raw))
    case Returned(_, _) => None
  }

  /** `defaultdict(int)` lookup. */
  function ErrorCount(counts: map<string, nat>, key: string): nat
  {
    if key in counts then counts[key] else 0
  }

  const RateLimitKey: string := "rate_limit"

  datatype SlotOutcome = Admitted(atMs: nat) | StillWaiting(atMs: nat)

  /** What a run of `_wait_for_slot` does to the state it touches. */
  datatype SlotRun = SlotRun(
    outcome: SlotOutcome,
    waits: nat,                      // saturation cycles waited
    window: seq<nat>,                // the deque afterwards
    retryAfterUntil: Option<int>,
    waitedMs: nat)                   // added to `total_wait_time`

  /** A slot run preceded by `cycles` saturation waits lasting `waitedMs` in all. */
  function Earlier(run: SlotRun, cycles: nat, waitedMs: nat): SlotRun
  {
    run.(waits := cycles + run.waits, waitedMs := waitedMs + run.waitedMs)
  }

  /** When admission can start: after a pending Retry-After deadline, else now. */
  function AdmissionStart(retryAfterUntil: Option<int>, nowMs: nat): (t: nat)
    ensures t >= nowMs
    ensures retryAfterUntil.Some? ==> t >= retryAfterUntil.value
  {
    if retryAfterUntil.Some? && nowMs < retryAfterUntil.value then retryAfterUntil.value else nowMs
  }

  /** A pending deadline is cleared once waited out; a past one is left as it is. */
  function ClearedRetryAfter(retryAfterUntil: Option<int>, nowMs: nat): Option<int>
  {
    if retryAfterUntil.Some? && nowMs < retryAfterUntil.value then None else retryAfterUntil
  }

  /** How one pass of `_wait_for_slot` ends: with the run's result, or with a saturation wait. */
  datatype Pass =
    | Done(run: SlotRun)
    | Cycle(window: seq<nat>, retryAfterUntil: Option<int>, resumeMs: nat, waitMs: nat)

  /**
   * One pass of `_wait_for_slot` at time `t`: sweep the window, wait out a
   * pending Retry-After deadline (and clear it), admit when fewer than
   * `rpmLimit` times remain, otherwise wait backoff plus the next jitter
   * draw. With no draw left the caller is still waiting.
   */
  function SlotPass(window: seq<nat>, retryAfterUntil: Option<int>, t: nat, rpmLimit: int,
                    backoffMs: nat, maxBackoffMs: nat, draws: seq<nat>): (p: Pass)
    requires backoffMs <= maxBackoffMs && DrawsOk(draws)
    ensures p.Cycle? ==> |draws| > 0 && p.waitMs == TotalWait(backoffMs, draws[0], maxBackoffMs)
  {
    var w := DropStale(window, t);
    var at := AdmissionStart(retryAfterUntil, t);
    var ra := ClearedRetryAfter(retryAfterUntil, t);
    if |w| < rpmLimit then Done(SlotRun(Admitted(at), 0, w + [at], ra, 0))
    else if |draws| == 0 then Done(SlotRun(StillWaiting(at), 0, w, ra, 0))
    else
      var wait := TotalWait(backoffMs, draws[0], maxBackoffMs);
      Cycle(w, ra, at + wait, wait)
  }

  /** The passes of `_wait_for_slot` from time `t` until admission or the draws run out. */
  function SlotWait(window: seq<nat>, retryAfterUntil: Option<int>, t: nat, rpmLimit: int,
                    backoffMs: nat, maxBackoffMs: nat, draws: seq<nat>): SlotRun
    requires backoffMs <= maxBackoffMs && DrawsOk(draws)
    decreases |draws|
  {
    match SlotPass(window, retryAfterUntil, t, rpmLimit, backoffMs, maxBackoffMs, draws)
    case Done(run) => run
    case Cycle(w, ra, resume, wait) =>
      Earlier(SlotWait(w, ra, resume, rpmLimit, backoffMs, maxBackoffMs, draws[1..]), 1, wait)
  }

  /**
   * A slot wait uses one draw per saturation cycle, gives up only when the
   * draws run out, and adds exactly the cycles' waits to the wait total.
   */
  lemma {:induction false} SlotWaitCycles(window: seq<nat>, retryAfterUntil: Option<int>, t: nat, rpmLimit: int,
                                          backoffMs: nat, maxBackoffMs: nat, draws: seq<nat>)
    requires backoffMs <= maxBackoffMs && DrawsOk(draws)
    ensures var run := SlotWait(window, retryAfterUntil, t, rpmLimit, backoffMs, maxBackoffMs, draws);
      && run.waits <= |draws|
      && (run.outcome.StillWaiting? ==> run.waits == |draws|)
      && run.waitedMs == SumWaits(backoffMs, maxBackoffMs, draws[..run.waits])
    decreases |draws|
  {
    match SlotPass(window, retryAfterUntil, t, rpmLimit, backoffMs, maxBackoffMs, draws)
    case Done(run) =>
      assert draws[..0] == [];
    case Cycle(w, ra, resume, wait) =>
      SlotWaitCycles(w, ra, resume, rpmLimit, backoffMs, maxBackoffMs, draws[1..]);
      var rest := SlotWait(w, ra, resume, rpmLimit, backoffMs, maxBackoffMs, draws[1..]);
      var used := draws[..rest.waits + 1];
      assert used[0] == draws[0] && used[1..] == draws[1..][..rest.waits];
      assert SumWaits(backoffMs, maxBackoffMs, used) == wait + rest.waitedMs;
  }

  /**
   * Timing of a slot wait: admission (or the give-up point) comes at the
   * Retry-After start plus the cycles' waits, and the deadline is cleared
   * exactly when it was still pending at the start.
   */
  lemma {:induction false} SlotWaitTiming(window: seq<nat>, retryAfterUntil: Option<int>, t: nat, rpmLimit: int,
                                          backoffMs: nat, maxBackoffMs: nat, draws: seq<nat>)
    requires backoffMs <= maxBackoffMs && DrawsOk(draws)
    ensures var run := SlotWait(window, retryAfterUntil, t, rpmLimit, backoffMs, maxBackoffMs, draws);
      && run.outcome.atMs == AdmissionStart(retryAfterUntil, t) + run.waitedMs
      && run.retryAfterUntil == ClearedRetryAfter(retryAfterUntil, t)
    decreases |draws|
  {
    match SlotPass(window, retryAfterUntil, t, rpmLimit, backoffMs, maxBackoffMs, draws)
    case Done(run) =>
    case Cycle(w, ra, resume, wait) =>
      SlotWaitTiming(w, ra, resume, rpmLimit, backoffMs, maxBackoffMs, draws[1..]);
      assert AdmissionStart(ra, resume) == resume;
      assert ClearedRetryAfter(ra, resume) == ra;
  }

  /**
   * The window after a slot wait: the old one swept at the last pass's time
   * (the start if no cycle was waited), with the admission time appended
   * only when the sweep left fewer than `rpmLimit` entries. So admission
   * never takes the window past `rpmLimit`.
   */
  lemma {:induction false} SlotWaitWindow(window: seq<nat>, retryAfterUntil: Option<int>, t: nat, rpmLimit: int,
                                          backoffMs: nat, maxBackoffMs: nat, draws: seq<nat>)
    requires backoffMs <= maxBackoffMs && DrawsOk(draws)
    ensures var run := SlotWait(window, retryAfterUntil, t, rpmLimit, backoffMs, maxBackoffMs, draws);
      var swept := DropStale(window, if run.waits == 0 then t else run.outcome.atMs);
      && (run.outcome.Admitted? ==> |swept| < rpmLimit && run.window == swept + [run.outcome.atMs])
      && (run.outcome.StillWaiting? ==> |swept| >= rpmLimit && run.window == swept)
    decreases |draws|
  {
    match SlotPass(window, retryAfterUntil, t, rpmLimit, backoffMs, maxBackoffMs, draws)
    case Done(run) =>
    case Cycle(w, ra, resume, wait) =>
      SlotWaitWindow(w, ra, resume, rpmLimit, backoffMs, maxBackoffMs, draws[1..]);
      SlotWaitTiming(w, ra, resume, rpmLimit, backoffMs, maxBackoffMs, draws[1..]);
      var rest := SlotWait(w, ra, resume, rpmLimit, backoffMs, maxBackoffMs, draws[1..]);
      assert AdmissionStart(ra, resume) == resume;
      var last := if rest.waits == 0 then resume else rest.outcome.atMs;
      assert last == rest.outcome.atMs;
      DropStaleCompose(window, t, last);
  }

  /** A window within the limit stays within it. */
  lemma SlotWaitKeepsLimit(window: seq<nat>, retryAfterUntil: Option<int>, t: nat, rpmLimit: int,
                           backoffMs: nat, maxBackoffMs: nat, draws: seq<nat>)
    requires backoffMs <= maxBackoffMs && DrawsOk(draws)
    requires |window| == 0 || |window| <= rpmLimit
    ensures var run := SlotWait(window, retryAfterUntil, t, rpmLimit, backoffMs, maxBackoffMs, draws);
      |run.window| == 0 || |run.window| <= rpmLimit
  {
    SlotWaitWindow(window, retryAfterUntil, t, rpmLimit, backoffMs, maxBackoffMs, draws);
  }

  // ---------------------------------------------------------------------------
  // Direct execution
  // ---------------------------------------------------------------------------

  /** The limiter's settings: requests per minute, base wait, backoff cap, retries. */
  datatype Settings = Settings(rpmLimit: int, baseWaitMs: nat, maxBackoffMs: nat, maxRetries: int)

  /** The part of the limiter's state that execution changes. */
  datatype LimState = LimState(window: seq<nat>, retryAfterUntil: Option<int>, errorCounts: map<string, nat>, metrics: Metrics)

  /** What direct execution ends with: the outcome, how many calls were made, when it ended, the new state. */
  datatype ExecRun = ExecRun(outcome: ExecOutcome, used: nat, endMs: nat, state: LimState)

  predicate AttemptsOk(attempts: seq<Attempt>)
  {
    forall k :: 0 <= k < |attempts| ==> DrawsOk(attempts[k].slotDraws) && attempts[k].retryDraw <= JitterScale
  }

  /** The wait while the window is full, with the saturation count held in `error_counts`. */
  function SaturationWait(cfg: Settings, s: LimState): (b: nat)
    ensures b <= cfg.maxBackoffMs
  {
    SaturationBackoff(cfg.baseWaitMs, ErrorCount(s.errorCounts, RateLimitKey), cfg.maxBackoffMs)
  }

  /** Count `cycles` saturation waits lasting `waitedMs` in all. */
  function AddWaits(m: Metrics, cycles: nat, waitedMs: nat): Metrics
  {
    m.(rateLimited := m.rateLimited + cycles, totalWaitTimeMs := m.totalWaitTimeMs + waitedMs)
  }

  /** The state after a slot wait: window, deadline and the two wait counters. */
  function AfterSlot(s: LimState, slot: SlotRun): LimState
  {
    LimState(slot.window, slot.retryAfterUntil, s.errorCounts, AddWaits(s.metrics, slot.waits, slot.waitedMs))
  }

  /** A successful call: note a numeric Retry-After, reset both error counts, count the success. */
  function Succeed(s: LimState, id: string, header: RetryAfterHeader, doneMs: nat): LimState
  {
    s.(retryAfterUntil := if header.RetryAfterSeconds? then Some(doneMs + header.delayMs) else s.retryAfterUntil,
       errorCounts := s.errorCounts[RateLimitKey := 0][id := 0],
       metrics := s.metrics.(successfulRequests := s.metrics.successfulRequests + 1))
  }

  /** A failed call: count the retry and the request's error. */
  function Fail(s: LimState, id: string): LimState
  {
    s.(errorCounts := s.errorCounts[id := ErrorCount(s.errorCounts, id) + 1],
       metrics := s.metrics.(retries := s.metrics.retries + 1))
  }

  /** An execution run preceded by `calls` failed calls. */
  function Calls(run: ExecRun, calls: nat): ExecRun
  {
    run.(used := calls + run.used)
  }

  /** What a pass of the retry loop tells the loop: finish with an outcome, or try again at a time. */
  datatype AttemptResult = Finished(outcome: ExecOutcome, calls: nat, endMs: nat) | RetryAt(resumeMs: nat)

  /** How one attempt ends: the loop stops with a run, or sleeps and retries. */
  datatype Step = Stop(run: ExecRun) | Retry(state: LimState, resumeMs: nat)

  /**
   * One pass of the retry loop of direct `execute` at time `t` with
   * `retries` failures so far: wait for a slot, make the call, and on
   * failure count it and either re-raise (past `max_retries`) or sleep the
   * retry backoff plus jitter.
   */
  function AttemptStep(cfg: Settings, s: LimState, id: string, t: nat, retries: nat, a: Attempt): Step
    requires DrawsOk(a.slotDraws) && a.retryDraw <= JitterScale
  {
    var slot := SlotWait(s.window, s.retryAfterUntil, t, cfg.rpmLimit, SaturationWait(cfg, s), cfg.maxBackoffMs, a.slotDraws);
    var s1 := AfterSlot(s, slot);
    if slot.outcome.StillWaiting? then Stop(ExecRun(ExecStalled, 0, slot.outcome.atMs, s1))
    else AfterCall(cfg, s1, id, slot.outcome.atMs + a.durationMs, retries, a)
  }

  /** The call of an attempt returned or raised at `done`: count it and stop or retry. */
  function AfterCall(cfg: Settings, s: LimState, id: string, done: nat, retries: nat, a: Attempt): Step
    requires a.retryDraw <= JitterScale
  {
    match AttemptError(a.outcome)
    case None => Stop(ExecRun(ExecSucceeded(a.outcome.body), 1, done, Succeed(s, id, a.outcome.retryAfter, done)))
    case Some(e) =>
      var s2 := Fail(s, id);
      if retries + 1 > cfg.maxRetries then
        Stop(ExecRun(ExecFailed(e), 1, done, s2.(metrics := s2.metrics.(failedRequests := s2.metrics.failedRequests + 1))))
      else
        Retry(s2, done + TotalWait(RetryBackoff(cfg.baseWaitMs, retries + 1, cfg.maxBackoffMs), a.retryDraw, cfg.maxBackoffMs))
  }

  /**
   * The retry loop of direct `execute`: `while retries <= max_retries`, one
   * attempt per pass. The loop can only fall through when it never ran, and
   * then raises `Exception(f"Request {id} failed")`.
   */
  function ExecLoop(cfg: Settings, s: LimState, id: string, t: nat, retries: nat, attempts: seq<Attempt>): ExecRun
    requires AttemptsOk(attempts)
    decreases |attempts|
  {
    if retries > cfg.maxRetries then ExecRun(ExecFailed(RequestFailed(id)), 0, t, s)
    else if |attempts| == 0 then ExecRun(ExecStalled, 0, t, s)
    else
      match AttemptStep(cfg, s, id, t, retries, attempts[0])
      case Stop(run) => run
      case Retry(s2, t2) =>
        Calls(ExecLoop(cfg, s2, id, t2, retries + 1, attempts[1..]), 1)
  }

  /** What one attempt counts: the counters of the outcome it stops with, or one retry. */
  lemma AttemptStepCounts(cfg: Settings, s: LimState, id: string, t: nat, retries: nat, a: Attempt)
    requires DrawsOk(a.slotDraws) && a.retryDraw <= JitterScale
    ensures var m := s.metrics;
      match AttemptStep(cfg, s, id, t, retries, a)
      case Stop(run) =>
        var m' := run.state.metrics;
        && m'.totalRequests == m.totalRequests && m'.queueSizeMax == m.queueSizeMax
        && (run.outcome.ExecSucceeded? ==>
              run.used == 1 && m'.successfulRequests == m.successfulRequests + 1
              && m'.failedRequests == m.failedRequests && m'.retries == m.retries)
        && (run.outcome.ExecFailed? ==>
              run.used == 1 && !run.outcome.error.RequestFailed? && retries + 1 > cfg.maxRetries
              && m'.failedRequests == m.failedRequests + 1 && m'.successfulRequests == m.successfulRequests
              && m'.retries == m.retries + 1)
        && (run.outcome.ExecStalled? ==>
              run.used == 0 && m'.successfulRequests == m.successfulRequests
              && m'.failedRequests == m.failedRequests && m'.retries == m.retries)
      case Retry(s2, _) =>
        var m' := s2.metrics;
        && retries + 1 <= cfg.maxRetries
        && m'.totalRequests == m.totalRequests && m'.queueSizeMax == m.queueSizeMax
        && m'.successfulRequests == m.successfulRequests && m'.failedRequests == m.failedRequests
        && m'.retries == m.retries + 1
  {
  }

  /**
   * Counting in direct execution: at most `max_retries + 1` calls; a success
   * counts one success and one retry per earlier call; a final failure
   * counts one failure after exactly `max_retries + 1` calls, all of them
   * retries; the total is never touched by the loop.
   */
  lemma {:induction false} ExecLoopCounts(cfg: Settings, s: LimState, id: string, t: nat, retries: nat, attempts: seq<Attempt>)
    requires AttemptsOk(attempts)
    ensures var run := ExecLoop(cfg, s, id, t, retries, attempts);
      var m, m' := s.metrics, run.state.metrics;
      && run.used <= |attempts|
      && (retries <= cfg.maxRetries ==> retries + run.used <= cfg.maxRetries + 1)
      && (retries > cfg.maxRetries ==> run.used == 0 && run.outcome == ExecFailed(RequestFailed(id)))
      && m'.totalRequests == m.totalRequests && m'.queueSizeMax == m.queueSizeMax
      && (run.outcome.ExecSucceeded? ==>
            m'.successfulRequests == m.successfulRequests + 1 && m'.failedRequests == m.failedRequests
            && run.used >= 1 && m'.retries == m.retries + run.used - 1)
      && (run.outcome.ExecFailed? && !run.outcome.error.RequestFailed? ==>
            m'.failedRequests == m.failedRequests + 1 && m'.successfulRequests == m.successfulRequests
            && m'.retries == m.retries + run.used && retries + run.used == cfg.maxRetries + 1)
      && (run.outcome.ExecStalled? ==>
            m'.successfulRequests == m.successfulRequests && m'.failedRequests == m.failedRequests
            && m'.retries == m.retries + run.used)
    decreases |attempts|
  {
    if retries <= cfg.maxRetries && |attempts| > 0 {
      AttemptStepCounts(cfg, s, id, t, retries, attempts[0]);
      match AttemptStep(cfg, s, id, t, retries, attempts[0])
      case Stop(run) =>
      case Retry(s2, t2) =>
        ExecLoopCounts(cfg, s2, id, t2, retries + 1, attempts[1..]);
    }
  }

  /**
   * What one attempt does to `error_counts`: only the request's own count
   * and the saturation count change, a failure never lowers them, and a
   * success sets both to zero.
   */
  lemma AttemptStepErrorCounts(cfg: Settings, s: LimState, id: string, t: nat, retries: nat, a: Attempt)
    requires DrawsOk(a.slotDraws) && a.retryDraw <= JitterScale
    ensures match AttemptStep(cfg, s, id, t, retries, a)
      case Stop(run) =>
        && (id != RateLimitKey ==> ErrorCount(run.state.errorCounts, RateLimitKey) <= ErrorCount(s.errorCounts, RateLimitKey))
        && (run.outcome.ExecSucceeded? ==> ErrorCount(run.state.errorCounts, RateLimitKey) == 0 && ErrorCount(run.state.errorCounts, id) == 0)
      case Retry(s2, _) =>
        && ErrorCount(s2.errorCounts, id) == ErrorCount(s.errorCounts, id) + 1
        && (id != RateLimitKey ==> ErrorCount(s2.errorCounts, RateLimitKey) == ErrorCount(s.errorCounts, RateLimitKey))
  {
  }

  /**
   * The saturation count `error_counts['rate_limit']` is only ever reset:
   * unless a request is itself named "rate_limit", a count of zero stays
   * zero, so the saturation multiplier stays 1. A success always leaves both
   * its own count and the saturation count at zero.
   */
  lemma {:induction false} ExecLoopSaturationCount(cfg: Settings, s: LimState, id: string, t: nat, retries: nat, attempts: seq<Attempt>)
    requires AttemptsOk(attempts)
    ensures var run := ExecLoop(cfg, s, id, t, retries, attempts);
      && (id != RateLimitKey && ErrorCount(s.errorCounts, RateLimitKey) == 0 ==> ErrorCount(run.state.errorCounts, RateLimitKey) == 0)
      && (run.outcome.ExecSucceeded? ==> ErrorCount(run.state.errorCounts, RateLimitKey) == 0 && ErrorCount(run.state.errorCounts, id) == 0)
    decreases |attempts|
  {
    if retries <= cfg.maxRetries && |attempts| > 0 {
      AttemptStepErrorCounts(cfg, s, id, t, retries, attempts[0]);
      match AttemptStep(cfg, s, id, t, retries, attempts[0])
      case Stop(run) =>
      case Retry(s2, t2) =>
        ExecLoopSaturationCount(cfg, s2, id, t2, retries + 1, attempts[1..]);
    }
  }

  /** One attempt keeps the window within `rpmLimit`. */
  lemma AttemptStepKeepsLimit(cfg: Settings, s: LimState, id: string, t: nat, retries: nat, a: Attempt)
    requires DrawsOk(a.slotDraws) && a.retryDraw <= JitterScale
    requires |s.window| == 0 || |s.window| <= cfg.rpmLimit
    ensures match AttemptStep(cfg, s, id, t, retries, a)
      case Stop(run) => |run.state.window| == 0 || |run.state.window| <= cfg.rpmLimit
      case Retry(s2, _) => |s2.window| == 0 || |s2.window| <= cfg.rpmLimit
  {
    SlotWaitKeepsLimit(s.window, s.retryAfterUntil, t, cfg.rpmLimit, SaturationWait(cfg, s), cfg.maxBackoffMs, a.slotDraws);
  }

  /** Execution keeps the window within `rpmLimit`. */
  lemma {:induction false} ExecLoopKeepsLimit(cfg: Settings, s: LimState, id: string, t: nat, retries: nat, attempts: seq<Attempt>)
    requires AttemptsOk(attempts)
    requires |s.window| == 0 || |s.window| <= cfg.rpmLimit
    ensures var run := ExecLoop(cfg, s, id, t, retries, attempts);
      |run.state.window| == 0 || |run.state.window| <= cfg.rpmLimit
    decreases |attempts|
  {
    if retries <= cfg.maxRetries && |attempts| > 0 {
      AttemptStepKeepsLimit(cfg, s, id, t, retries, attempts[0]);
      match AttemptStep(cfg, s, id, t, retries, attempts[0])
      case Stop(run) =>
      case Retry(s2, t2) =>
        ExecLoopKeepsLimit(cfg, s2, id, t2, retries + 1, attempts[1..]);
    }
  }

  /** `f"req_{int(time.time() * 1000)}"` when no id is given. */
  function RequestIdOrDefault(requestId: Option<string>, nowMs: nat): (id: string)
    ensures requestId.Some? ==> id == requestId.value
    ensures requestId.None? ==> |id| > 4 && id[..4] == "req_" && Text.AllDigits(id[4..]) && Text.ParseDigits(id[4..]) == nowMs
  {
    if requestId.Some? then requestId.value
    else
      Text.ParseNatToString(nowMs);
      assert ("req_" + Text.NatToString(nowMs))[4..] == Text.NatToString(nowMs);
      "req_" + Text.NatToString(nowMs)
  }

  /** The success rate in percent, 0 before any request. */
  function SuccessRate(m: Metrics): (r: real)
    requires m.successfulRequests <= m.totalRequests
    ensures 0.0 <= r <= 100.0
    ensures m.totalRequests == 0 ==> r == 0.0
    ensures m.totalRequests > 0 && m.successfulRequests == m.totalRequests ==> r == 100.0
  {
    if m.totalRequests > 0 then (m.successfulRequests as real) / (m.totalRequests as real) * 100.0 else 0.0
  }

  /** The popleft loop of `_cleanup_window` on a window. */
  method Sweep(window: seq<nat>, nowMs: nat) returns (w: seq<nat>)
    ensures w == DropStale(window, nowMs)
  {
    w := window;
    while |w| > 0 && w[0] < nowMs - WindowMs
      invariant DropStale(w, nowMs) == DropStale(window, nowMs)
      decreases |w|
    {
      w := w[1..];
    }
  }

  /** A pass with room in the swept window admits at the admission start. */
  lemma SlotAdmits(window: seq<nat>, retryAfterUntil: Option<int>, t: nat, rpmLimit: int,
                   backoffMs: nat, maxBackoffMs: nat, draws: seq<nat>)
    requires backoffMs <= maxBackoffMs && DrawsOk(draws)
    requires |DropStale(window, t)| < rpmLimit
    ensures var at := AdmissionStart(retryAfterUntil, t);
      SlotWait(window, retryAfterUntil, t, rpmLimit, backoffMs, maxBackoffMs, draws)
      == SlotRun(Admitted(at), 0, DropStale(window, t) + [at], ClearedRetryAfter(retryAfterUntil, t), 0)
  {
  }

  /** A full window with no draw left leaves the caller waiting. */
  lemma SlotGivesUp(window: seq<nat>, retryAfterUntil: Option<int>, t: nat, rpmLimit: int,
                    backoffMs: nat, maxBackoffMs: nat, draws: seq<nat>)
    requires backoffMs <= maxBackoffMs && DrawsOk(draws)
    requires |DropStale(window, t)| >= rpmLimit && |draws| == 0
    ensures SlotWait(window, retryAfterUntil, t, rpmLimit, backoffMs, maxBackoffMs, draws)
      == SlotRun(StillWaiting(AdmissionStart(retryAfterUntil, t)), 0, DropStale(window, t), ClearedRetryAfter(retryAfterUntil, t), 0)
  {
  }

  /** A saturation cycle hands the rest of the run to the next pass, one draw fewer. */
  lemma SlotCycles(window: seq<nat>, retryAfterUntil: Option<int>, t: nat, rpmLimit: int,
                   backoffMs: nat, maxBackoffMs: nat, draws: seq<nat>, cycles: nat, waitedMs: nat)
    requires backoffMs <= maxBackoffMs && DrawsOk(draws)
    requires |DropStale(window, t)| >= rpmLimit && |draws| > 0
    ensures var wait := TotalWait(backoffMs, draws[0], maxBackoffMs);
      Earlier(SlotWait(window, retryAfterUntil, t, rpmLimit, backoffMs, maxBackoffMs, draws), cycles, waitedMs)
      == Earlier(SlotWait(DropStale(window, t), ClearedRetryAfter(retryAfterUntil, t), AdmissionStart(retryAfterUntil, t) + wait,
                          rpmLimit, backoffMs, maxBackoffMs, draws[1..]), cycles + 1, waitedMs + wait)
  {
  }

  /** The loop of `_wait_for_slot` on the window and the Retry-After deadline. */
  method SlotLoop(window: seq<nat>, retryAfterUntil: Option<int>, nowMs: nat, rpmLimit: int,
                  backoffMs: nat, maxBackoffMs: nat, draws: seq<nat>) returns (run: SlotRun)
    requires backoffMs <= maxBackoffMs && DrawsOk(draws)
    ensures run == SlotWait(window, retryAfterUntil, nowMs, rpmLimit, backoffMs, maxBackoffMs, draws)
  {
    var w, ra, t: nat := window, retryAfterUntil, nowMs;
    var waits, waited: nat := 0, 0;
    var rest := draws;
    while true
      invariant DrawsOk(rest)
      invariant SlotWait(window, retryAfterUntil, nowMs, rpmLimit, backoffMs, maxBackoffMs, draws)
        == Earlier(SlotWait(w, ra, t, rpmLimit, backoffMs, maxBackoffMs, rest), waits, waited)
      decreases |rest|
    {
      ghost var wIn, raIn, tIn := w, ra, t;
      w := Sweep(w, t);
      if ra.Some? && t < ra.value {
        t := ra.value;
        ra := None;
      }
      assert t == AdmissionStart(raIn, tIn) && ra == ClearedRetryAfter(raIn, tIn);
      if |w| < rpmLimit {
        SlotAdmits(wIn, raIn, tIn, rpmLimit, backoffMs, maxBackoffMs, rest);
        return SlotRun(Admitted(t), waits, w + [t], ra, waited);
      }
      if rest == [] {
        SlotGivesUp(wIn, raIn, tIn, rpmLimit, backoffMs, maxBackoffMs, rest);
        return SlotRun(StillWaiting(t), waits, w, ra, waited);
      }
      var wait := TotalWait(backoffMs, rest[0], maxBackoffMs);
      SlotCycles(wIn, raIn, tIn, rpmLimit, backoffMs, maxBackoffMs, rest, waits, waited);
      t := t + wait;
      rest := rest[1..];
      waits := waits + 1;
      waited := waited + wait;
    }
  }

  class Limiter {
    const rpmLimit: int
    const baseWaitMs: nat
    const maxBackoffMs: nat
    const maxRetries: int
    /** Admission times, oldest first (the deque). */
    var requestTimes: seq<nat>
    const requestQueue: RequestQueue
    /** `error_counts`: failures per request id, and the saturation count under "rate_limit". */
    var errorCounts: map<string, nat>
    var retryAfterUntil: Option<int>
    var metrics: Metrics

    ghost predicate Valid()
      reads this, requestQueue
    {
      requestQueue.Valid()
      && (|requestTimes| == 0 || |requestTimes| <= rpmLimit)
      && metrics.successfulRequests + metrics.failedRequests <= metrics.totalRequests
    }

    function Config(): Settings
      reads this
    {
      Settings(rpmLimit, baseWaitMs, maxBackoffMs, maxRetries)
    }

    function State(): LimState
      reads this
    {
      LimState(requestTimes, retryAfterUntil, errorCounts, metrics)
    }

    /** Defaults: 500 requests per minute, 250 ms base wait, 30 s cap, 5 retries. */
    constructor (rpmLimit: int, baseWaitMs: nat, maxBackoffSeconds: nat, maxRetries: int)
      ensures Valid() && fresh(requestQueue)
      ensures this.rpmLimit == rpmLimit && this.baseWaitMs == baseWaitMs
      ensures this.maxBackoffMs == maxBackoffSeconds * 1000 && this.maxRetries == maxRetries
      ensures requestTimes == [] && requestQueue.queue == [] && errorCounts == map[]
      ensures retryAfterUntil == None && metrics == ZeroMetrics
    {
      this.rpmLimit := rpmLimit;
      this.baseWaitMs := baseWaitMs;
      this.maxBackoffMs := maxBackoffSeconds * 1000;
      this.maxRetries := maxRetries;
      requestTimes := [];
      requestQueue := new RequestQueue();
      errorCounts := map[];
      retryAfterUntil := None;
      metrics := ZeroMetrics;
    }

    /** `_cleanup_window` */
    method CleanupWindow(nowMs: nat)
      requires Valid()
      modifies this`requestTimes
      ensures Valid()
      ensures requestTimes == DropStale(old(requestTimes), nowMs)
    {
      requestTimes := Sweep(requestTimes, nowMs);
    }

    /** The saturation backoff in force: base times `min(2^error_counts['rate_limit'], 64)`, capped. */
    function SlotBackoff(): (b: nat)
      reads this
      ensures b == SaturationWait(Config(), State())
    {
      SaturationBackoff(baseWaitMs, ErrorCount(errorCounts, RateLimitKey), maxBackoffMs)
    }

    /**
     * `_wait_for_slot`, starting at `nowMs`, with one jitter draw per
     * saturation cycle in `draws`. It holds the limiter's lock throughout,
     * so it is modelled as one pass over the window, the deadline and the
     * two wait counters, written back when the slot is found.
     */
    method WaitForSlot(nowMs: nat, draws: seq<nat>) returns (outcome: SlotOutcome, waits: nat)
      requires Valid() && DrawsOk(draws)
      modifies this`requestTimes, this`retryAfterUntil, this`metrics
      ensures Valid()
      ensures var run := SlotWait(old(requestTimes), old(retryAfterUntil), nowMs, rpmLimit, SlotBackoff(), maxBackoffMs, draws);
        && outcome == run.outcome && waits == run.waits
        && requestTimes == run.window && retryAfterUntil == run.retryAfterUntil
        && metrics == AddWaits(old(metrics), run.waits, run.waitedMs)
    {
      SlotWaitKeepsLimit(requestTimes, retryAfterUntil, nowMs, rpmLimit, SlotBackoff(), maxBackoffMs, draws);
      var run := SlotLoop(requestTimes, retryAfterUntil, nowMs, rpmLimit, SlotBackoff(), maxBackoffMs, draws);
      requestTimes := run.window;
      retryAfterUntil := run.retryAfterUntil;
      metrics := AddWaits(metrics, run.waits, run.waitedMs);
      outcome, waits := run.outcome, run.waits;
    }
    /**
     * One pass of the retry loop of direct `execute`: wait for a slot, make
     * the call, and settle it.
     */
    method TryOnce(id: string, t: nat, retries: nat, a: Attempt) returns (result: AttemptResult)
      requires Valid() && DrawsOk(a.slotDraws) && a.retryDraw <= JitterScale
      requires metrics.successfulRequests + metrics.failedRequests < metrics.totalRequests
      modifies this`requestTimes, this`retryAfterUntil, this`metrics, this`errorCounts
      ensures Valid()
      ensures match AttemptStep(Config(), old(State()), id, t, retries, a)
        case Stop(run) => result == Finished(run.outcome, run.used, run.endMs) && State() == run.state
        case Retry(s2, resume) =>
          result == RetryAt(resume) && State() == s2
          && metrics.successfulRequests + metrics.failedRequests < metrics.totalRequests
    {
      ghost var s0 := State();
      ghost var run := SlotWait(s0.window, s0.retryAfterUntil, t, rpmLimit, SaturationWait(Config(), s0), maxBackoffMs, a.slotDraws);
      var slot, _ := WaitForSlot(t, a.slotDraws);
      assert slot == run.outcome && State() == AfterSlot(s0, run);
      if slot.StillWaiting? {
        return Finished(ExecStalled, 0, slot.atMs);
      }
      result := Settle(id, slot.atMs + a.durationMs, retries, a);
    }

    /**
     * The call returned or raised at `done`. A success notes a numeric
     * Retry-After deadline, resets the request's and the saturation error
     * counts and counts the success; a failure counts a retry and the
     * request's error, and past `max_retries` a failed request, and
     * otherwise sleeps the retry backoff plus jitter.
     */
    method Settle(id: string, done: nat, retries: nat, a: Attempt) returns (result: AttemptResult)
      requires Valid() && a.retryDraw <= JitterScale
      requires metrics.successfulRequests + metrics.failedRequests < metrics.totalRequests
      modifies this`retryAfterUntil, this`metrics, this`errorCounts
      ensures Valid()
      ensures match AfterCall(Config(), old(State()), id, done, retries, a)
        case Stop(run) => result == Finished(run.outcome, run.used, run.endMs) && State() == run.state
        case Retry(s2, resume) =>
          result == RetryAt(resume) && State() == s2
          && metrics.successfulRequests + metrics.failedRequests < metrics.totalRequests
    {
      var error := AttemptError(a.outcome);
      if error.None? {
        if a.outcome.retryAfter.RetryAfterSeconds? {
          retryAfterUntil := Some(done + a.outcome.retryAfter.delayMs);
        }
        errorCounts := errorCounts[RateLimitKey := 0][id := 0];
        metrics := metrics.(successfulRequests := metrics.successfulRequests + 1);
        return Finished(ExecSucceeded(a.outcome.body), 1, done);
      }
      metrics := metrics.(retries := metrics.retries + 1);
      errorCounts := errorCounts[id := ErrorCount(errorCounts, id) + 1];
      if retries + 1 > maxRetries {
        metrics := metrics.(failedRequests := metrics.failedRequests + 1);
        return Finished(ExecFailed(error.value), 1, done);
      }
      result := RetryAt(done + TotalWait(RetryBackoff(baseWaitMs, retries + 1, maxBackoffMs), a.retryDraw, maxBackoffMs));
    }

    /**
     * Direct `execute`: count the request, then run the retry loop, one
     * entry of `attempts` per call of the wrapped coroutine. Returns the
     * outcome, how many calls were made and when the loop ended.
     */
    method Execute(nowMs: nat, requestId: Option<string>, attempts: seq<Attempt>) returns (outcome: ExecOutcome, used: nat, endMs: nat)
      requires Valid() && AttemptsOk(attempts)
      modifies this`requestTimes, this`retryAfterUntil, this`metrics, this`errorCounts
      ensures Valid()
      ensures var counted := old(State()).(metrics := old(metrics).(totalRequests := old(metrics).totalRequests + 1));
        var run := ExecLoop(Config(), counted, RequestIdOrDefault(requestId, nowMs), nowMs, 0, attempts);
        outcome == run.outcome && used == run.used && endMs == run.endMs && State() == run.state
    {
      var id := RequestIdOrDefault(requestId, nowMs);
      metrics := metrics.(totalRequests := metrics.totalRequests + 1);
      ghost var final := ExecLoop(Config(), State(), id, nowMs, 0, attempts);
      var retries: nat := 0;
      var t: nat := nowMs;
      used := 0;
      while retries <= maxRetries
        invariant Valid() && metrics.successfulRequests + metrics.failedRequests < metrics.totalRequests
        invariant used == retries && used <= |attempts|
        invariant final == Calls(ExecLoop(Config(), State(), id, t, retries, attempts[used..]), used)
        decreases |attempts| - used
      {
        if used == |attempts| {
          return ExecStalled, used, t;
        }
        assert attempts[used..][0] == attempts[used] && attempts[used..][1..] == attempts[used + 1..];
        var result := TryOnce(id, t, retries, attempts[used]);
        if result.Finished? {
          return result.outcome, used + result.calls, result.endMs;
        }
        retries := retries + 1;
        used := used + 1;
        t := result.resumeMs;
      }
      return ExecFailed(RequestFailed(id)), used, t;
    }

    /**
     * The enqueue half of queued `execute`: count the request, queue it
     * with its priority and arrival time, and raise the queue-size maximum.
     */
    method Enqueue(nowMs: nat, priority: int, requestId: Option<string>)
      requires Valid()
      modifies this`metrics, requestQueue
      ensures Valid()
      ensures var request := PriorityRequest(priority, nowMs, RequestIdOrDefault(requestId, nowMs));
        multiset(requestQueue.queue) == multiset(old(requestQueue.queue)) + multiset{request}
      ensures requestQueue.requestCount == old(requestQueue.requestCount) + 1
      ensures metrics == old(metrics).(totalRequests := old(metrics).totalRequests + 1,
                                       queueSizeMax := if old(metrics).queueSizeMax < |requestQueue.queue|
                                                       then |requestQueue.queue| else old(metrics).queueSizeMax)
    {
      var id := RequestIdOrDefault(requestId, nowMs);
      metrics := metrics.(totalRequests := metrics.totalRequests + 1);
      requestQueue.Put(PriorityRequest(priority, nowMs, id));
      var size := requestQueue.Size();
      if metrics.queueSizeMax < size {
        metrics := metrics.(queueSizeMax := size);
      }
    }

    /**
     * `get_metrics`: the counters, the number of admissions in the window,
     * the queue length and the success rate.
     */
    function GetMetrics(): (r: MetricsReport)
      requires Valid()
      reads this, requestQueue
      ensures r.counters == metrics && r.currentRpm == |requestTimes| && r.queueSize == |requestQueue.queue|
      ensures r.successRate == SuccessRate(metrics)
    {
      MetricsReport(metrics, |requestTimes|, |requestQueue.queue|, SuccessRate(metrics))
    }

    /** `reset_metrics`: every counter to zero; the window, the queue and the error counts are kept. */
    method ResetMetrics()
      requires Valid()
      modifies this`metrics
      ensures Valid()
      ensures metrics == ZeroMetrics
    {
      metrics := ZeroMetrics;
    }
  }
}
