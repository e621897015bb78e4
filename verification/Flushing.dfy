/** `eventsFlusher.send`: the retry loop for one batch. */
module Flushing {
  import opened Bytes
  import opened Events
  import opened Batching

  /** What one POST comes back with. */
  datatype Reply = Delivered | Retryable | Fatal | Canceled

  /** The batch's own token when it carries one, else the pipeline's key. */
  function Bearer(apiKey: bytes, batch: Batch): bytes { if batch.token != [] then batch.token else apiKey }

  datatype Post = Post(bearer: bytes, body: bytes)

  const BASE_BACKOFF := 250_000_000
  const MAX_BACKOFF := 5_000_000_000
  const TWO_63 := 0x8000_0000_0000_0000
  const TWO_64 := 0x1_0000_0000_0000_0000

  function Pow2(n: nat): nat { if n == 0 then 1 else 2 * Pow2(n - 1) }

  /** A left shift of a signed 64-bit nanosecond count. */
  function Shift64(x: nat, n: nat): int {
    var m := (x * Pow2(n)) % TWO_64;
    if m < TWO_63 then m else m - TWO_64
  }

  /** The delay before attempt `attempt`, before jitter. */
  function Backoff(attempt: nat): int
    requires attempt > 0
  {
    var d := Shift64(BASE_BACKOFF, attempt - 1);
    if d > MAX_BACKOFF then MAX_BACKOFF else d
  }

  lemma {:induction false} Pow2Monotone(m: nat, n: nat)
    requires m <= n
    ensures Pow2(m) <= Pow2(n)
    decreases n - m
  {
    if m < n {
      Pow2Monotone(m, n - 1);
    }
  }

  /** Up to attempt 36 the shift does not overflow: the delay doubles from 250 ms and stays at 5 s. */
  lemma BackoffExact(attempt: nat)
    requires 0 < attempt <= 36
    ensures var exact := BASE_BACKOFF * Pow2(attempt - 1);
            Backoff(attempt) == if exact > MAX_BACKOFF then MAX_BACKOFF else exact
  {
    Pow2Monotone(attempt - 1, 35);
    PowThirtySix();
    assert Pow2(36) == 2 * Pow2(35);
    hide Pow2;
  }

  lemma PowThirtySix()
    ensures Pow2(36) == 0x10_0000_0000
  {
    assert Pow2(3) == 8 && Pow2(6) == 8 * Pow2(3);
    assert Pow2(9) == 8 * Pow2(6) && Pow2(12) == 8 * Pow2(9) && Pow2(15) == 8 * Pow2(12);
    assert Pow2(18) == 8 * Pow2(15) && Pow2(21) == 8 * Pow2(18) && Pow2(24) == 8 * Pow2(21);
    assert Pow2(27) == 8 * Pow2(24) && Pow2(30) == 8 * Pow2(27) && Pow2(33) == 8 * Pow2(30);
  }

  /** The next one breaks the formula: before attempt 37 the count has wrapped below zero. */
  lemma BackoffWraps()
    ensures Backoff(37) < 0
  {
    PowThirtySix();
    hide Pow2;
  }

  /** How a send ends after `n` attempts. */
  datatype Ending = Sent | Failed | Cut

  /** `n` attempts were made and the send ended as `e`: every attempt but the last was retryable, no
      wait before an attempt made was interrupted, and the ending is the one the last event calls for. */
  ghost predicate Ends(n: nat, e: Ending, replies: nat -> Reply, interrupted: nat -> bool, maxRetries: nat) {
    && 1 <= n <= maxRetries + 1
    && (forall k :: 0 <= k < n - 1 ==> replies(k) == Retryable)
    && (forall k :: 0 < k < n ==> !interrupted(k))
    && match replies(n - 1)
       case Delivered => e == Sent
       case Canceled => e == Cut
       case Fatal => e == Failed
       case Retryable => if n == maxRetries + 1 then e == Failed else interrupted(n) && e == Cut
  }

  /** The schedule determines how a send ends. */
  lemma EndsUnique(n: nat, e: Ending, n': nat, e': Ending, replies: nat -> Reply, interrupted: nat -> bool,
      maxRetries: nat)
    requires Ends(n, e, replies, interrupted, maxRetries) && Ends(n', e', replies, interrupted, maxRetries)
    ensures n == n' && e == e'
  {
    EndsNoLater(n, e, n', e', replies, interrupted, maxRetries);
    EndsNoLater(n', e', n, e, replies, interrupted, maxRetries);
  }

  lemma EndsNoLater(n: nat, e: Ending, n': nat, e': Ending, replies: nat -> Reply, interrupted: nat -> bool,
      maxRetries: nat)
    requires Ends(n, e, replies, interrupted, maxRetries) && Ends(n', e', replies, interrupted, maxRetries)
    ensures n' <= n
  {
    if n < n' {
      assert false;
    }
  }

  function Copies(n: nat, p: Post): seq<Post> { if n == 0 then [] else Copies(n - 1, p) + [p] }

  /** The first `n` delays of the doubling back-off. */
  function Delays(n: nat): seq<int> { if n == 0 then [] else Delays(n - 1) + [Backoff(n)] }

  lemma SendStarts(posts: seq<Post>, delays: seq<int>, p: Post)
    ensures posts + Copies(0, p) == posts && delays + Delays(0) == delays
  {
  }

  lemma OneMorePost(posts: seq<Post>, n: nat, p: Post)
    ensures posts + Copies(n + 1, p) == (posts + Copies(n, p)) + [p]
  {
  }

  lemma OneMoreDelay(delays: seq<int>, n: nat)
    requires n > 0
    ensures delays + Delays(n) == (delays + Delays(n - 1)) + [Backoff(n)]
  {
  }

  class Counters {
    var batchesSent: nat
    var eventsSent: nat
    var flushFailed: nat
    var shutdown: nat

    constructor ()
      ensures batchesSent == 0 && eventsSent == 0 && flushFailed == 0 && shutdown == 0
    {
      batchesSent, eventsSent, flushFailed, shutdown := 0, 0, 0, 0;
    }

    /** Exactly one of the three event counters has moved, by the size of the batch. */
    twostate predicate Settled(e: Ending, events: nat)
      reads this
    {
      && batchesSent == old(batchesSent) + (if e == Sent then 1 else 0)
      && eventsSent == old(eventsSent) + (if e == Sent then events else 0)
      && flushFailed == old(flushFailed) + (if e == Failed then events else 0)
      && shutdown == old(shutdown) + (if e == Cut then events else 0)
    }
  }

  class Flusher {
    const apiKey: bytes
    const maxRetries: nat
    const stats: Counters
    const pipelineStats: Counters

    /** Every POST made so far, and every pre-jitter delay waited for. */
    var posts: seq<Post>
    var delays: seq<int>

    constructor (apiKey: bytes, maxRetries: nat)
      ensures this.apiKey == apiKey && this.maxRetries == maxRetries && posts == [] && delays == []
      ensures stats != pipelineStats && fresh(stats) && fresh(pipelineStats)
    {
      this.apiKey := apiKey;
      this.maxRetries := maxRetries;
      this.stats := new Counters();
      this.pipelineStats := new Counters();
      posts, delays := [], [];
    }

    /** `replies(k)` is what attempt `k` meets; `interrupted(k)` says whether the context is done while
        waiting before attempt `k`. `n` counts the attempts made. */
    method Send(batch: Batch, replies: nat -> Reply, interrupted: nat -> bool) returns (e: Ending, n: nat)
      requires stats != pipelineStats
      modifies this, stats, pipelineStats
      ensures Ends(n, e, replies, interrupted, maxRetries)
      ensures posts == old(posts) + Copies(n, Post(Bearer(apiKey, batch), Encode(EventsOf(batch.items))))
      ensures delays == old(delays) + Delays(if e == Cut && replies(n - 1) == Retryable then n else n - 1)
      ensures stats.Settled(e, |batch.items|) && pipelineStats.Settled(e, |batch.items|)
    {
      hide Backoff, Encode, EventsOf, Copies, Delays, Shift64;
      var body := EncodeEventBatch(EventsOf(batch.items));
      ghost var post := Post(Bearer(apiKey, batch), body);
      n, e := 0, Failed;
      SendStarts(posts, delays, post);
      while n <= maxRetries
        invariant 0 <= n <= maxRetries + 1 && e == Failed
        invariant posts == old(posts) + Copies(n, post)
        invariant delays == old(delays) + Delays(if n == 0 then 0 else n - 1)
        invariant forall k :: 0 <= k < n ==> replies(k) == Retryable
        invariant forall k :: 0 < k < n ==> !interrupted(k)
        invariant unchanged(stats) && unchanged(pipelineStats)
      {
        OneMorePost(old(posts), n, post);
        if n > 0 {
          OneMoreDelay(old(delays), n);
          delays := delays + [Backoff(n)];
          if interrupted(n) {
            e := Cut;
            break;
          }
        }
        var key := apiKey;
        if batch.token != [] {
          key := batch.token;
        }
        posts := posts + [Post(key, body)];
        n := n + 1;
        var reply := replies(n - 1);
        if reply == Delivered {
          e := Sent;
          break;
        }
        if reply == Canceled {
          e := Cut;
          break;
        }
        if reply != Retryable {
          break;
        }
      }
      Settle(e, |batch.items|);
    }

    /** Books the whole batch under one counter, process-wide and for the project. */
    method Settle(e: Ending, events: nat)
      requires stats != pipelineStats
      modifies stats, pipelineStats
      ensures stats.Settled(e, events) && pipelineStats.Settled(e, events)
    {
      match e
      case Sent =>
        stats.batchesSent := stats.batchesSent + 1;
        stats.eventsSent := stats.eventsSent + events;
        pipelineStats.batchesSent := pipelineStats.batchesSent + 1;
        pipelineStats.eventsSent := pipelineStats.eventsSent + events;
      case Cut =>
        stats.shutdown := stats.shutdown + events;
        pipelineStats.shutdown := pipelineStats.shutdown + events;
      case Failed =>
        stats.flushFailed := stats.flushFailed + events;
        pipelineStats.flushFailed := pipelineStats.flushFailed + events;
    }
  }
}
