/** The steps of the state machine are the steps of the batcher and the flusher: chained without
    interference they do what the loops of the two classes do. */
module Refinement {
  import opened Bytes
  import opened Events
  import opened Batching
  import F = Flushing
  import opened Registry
  import opened Protocol
  import opened TableLaws

  // ---------------------------------------------------------------- the batcher

  /** The blocked flush has gone through, or was abandoned. */
  function Unblocked(p: Pipe): Pipe { p.(pending := None) }

  function PendingOf(p: Pipe): seq<Batch> { if p.pending.Some? then [p.pending.value] else [] }

  /** A full batch has to be flushed before the batcher is back at its select. */
  function Settled(cfg: Config, p: Pipe): (Pipe, seq<Batch>)
    requires !p.batcherDone && p.pending == None && (|p.cur| >= cfg.maxBatch ==> p.cur != [])
  {
    if |p.cur| >= cfg.maxBatch then
      var f := PipeEffect(cfg, p, FlushCur).pipe;
      (Unblocked(f), PendingOf(f))
    else (p, [])
  }

  /** Accepting an event in the state machine is one turn of the batcher's loop. */
  lemma AcceptIsTurn(cfg: Config, p: Pipe, stamp: bytes, ev: bytes)
    requires PipeEnabled(cfg, p, Accept(stamp)) && cfg.validate(p.raw[0].body, stamp) == Accepted(ev)
    ensures var q := AcceptStep(cfg, p, stamp).pipe; var (r, full) := Settled(cfg, Unblocked(q));
            (OpenOf(r), PendingOf(q) + full) == Appended(cfg.maxBatch, OpenOf(p), Item(p.raw[0], ev))
  {
    hide ItemsWeight, NO_STATS, ZERO_TALLY;
    var q := AcceptStep(cfg, p, stamp).pipe;
    assert OpenOf(q) == Extended(if Overflows(OpenOf(p), ev) then NO_BATCH else OpenOf(p), Item(p.raw[0], ev));
    var before := if Overflows(OpenOf(p), ev) then [Closed(OpenOf(p))] else [];
    assert PendingOf(q) == before && before + [] == before;
  }

  /** A flush without a new event is the timer's turn. */
  lemma FlushIsTurn(cfg: Config, p: Pipe, std: Std)
    requires PipeEnabled(cfg, p, FlushCur)
    ensures var f := PipeEffect(cfg, p, FlushCur).pipe;
            (OpenOf(f), PendingOf(f)) == Turn(std, cfg.maxEventBytes, cfg.maxBatch, OpenOf(p), TimerFires)
  {
  }

  // ---------------------------------------------------------------- the flusher

  /** The flusher's steps from attempt `k` on, along a schedule of replies and interrupted waits: the
      pipeline afterwards, what it booked, and how many POSTs were made. */
  function SendFrom(cfg: Config, p: Pipe, replies: nat -> F.Reply, interrupted: nat -> bool, k: nat): (Pipe, Stats, nat)
    requires p.sending.Some? && p.sending.value.attempts == k <= cfg.maxRetries
    decreases cfg.maxRetries - k
  {
    hide AttemptStep, Finish;
    if k > 0 && interrupted(k) then
      var e := Finish(p, F.Cut, false);
      (e.pipe, e.booked, 0)
    else
      var e := AttemptStep(cfg, p, replies(k));
      AttemptShape(cfg, p, replies(k));
      if e.pipe.sending.None? then (e.pipe, e.booked, 1)
      else
        var r := SendFrom(cfg, e.pipe, replies, interrupted, k + 1);
        (r.0, r.1, r.2 + 1)
  }

  /** The pipeline after one more retryable attempt. */
  function Retried(p: Pipe): Pipe
    requires p.sending.Some?
  {
    p.(sending := Some(p.sending.value.(attempts := p.sending.value.attempts + 1)))
  }

  lemma RetryOnce(cfg: Config, p: Pipe, replies: nat -> F.Reply, interrupted: nat -> bool, k: nat)
    requires p.sending.Some? && p.sending.value.attempts == k < cfg.maxRetries
    requires replies(k) == F.Retryable && !(k > 0 && interrupted(k))
    ensures var r := SendFrom(cfg, Retried(p), replies, interrupted, k + 1);
            SendFrom(cfg, p, replies, interrupted, k) == (r.0, r.1, r.2 + 1)
  {
    hide ItemIds, NO_STATS, ZERO_TALLY, Finish;
  }

  lemma LastAttempt(cfg: Config, p: Pipe, replies: nat -> F.Reply, interrupted: nat -> bool, k: nat, e: F.Ending)
    requires p.sending.Some? && p.sending.value.attempts == k && F.Ends(k + 1, e, replies, interrupted, cfg.maxRetries)
    requires replies(k) == F.Retryable ==> k == cfg.maxRetries
    ensures SendFrom(cfg, p, replies, interrupted, k) == (p.(sending := None), Finish(p, e, false).booked, 1)
  {
    hide ItemIds, NO_STATS, ZERO_TALLY;
  }

  lemma Interrupted(cfg: Config, p: Pipe, replies: nat -> F.Reply, interrupted: nat -> bool, k: nat)
    requires p.sending.Some? && 0 < p.sending.value.attempts == k <= cfg.maxRetries && interrupted(k)
    ensures SendFrom(cfg, p, replies, interrupted, k) == (p.(sending := None), Finish(p, F.Cut, false).booked, 0)
  {
    hide ItemIds, NO_STATS, ZERO_TALLY;
  }

  lemma {:induction false} SendFollows(cfg: Config, p: Pipe, replies: nat -> F.Reply, interrupted: nat -> bool, k: nat,
      n: nat, e: F.Ending)
    requires p.sending.Some? && p.sending.value.attempts == k < n
    requires F.Ends(n, e, replies, interrupted, cfg.maxRetries)
    ensures SendFrom(cfg, p, replies, interrupted, k) == (p.(sending := None), Finish(p, e, false).booked, n - k)
    decreases n - k
  {
    hide SendFrom, AttemptStep, ItemIds, NO_STATS, ZERO_TALLY;
    if k < n - 1 {
      SendFollows(cfg, Retried(p), replies, interrupted, k + 1, n, e);
      RetryOnce(cfg, p, replies, interrupted, k);
    } else if replies(k) == F.Retryable && n <= cfg.maxRetries {
      Interrupted(cfg, Retried(p), replies, interrupted, n);
      RetryOnce(cfg, p, replies, interrupted, k);
    } else {
      LastAttempt(cfg, p, replies, interrupted, k, e);
    }
  }

  /** A batch taken by the flusher ends in the state machine as the retry loop ends: after the same number
      of POSTs, with the whole batch under the same one counter. */
  lemma SendIsLoop(cfg: Config, p: Pipe, replies: nat -> F.Reply, interrupted: nat -> bool, n: nat, e: F.Ending)
    requires p.sending.Some? && p.sending.value.attempts == 0 && F.Ends(n, e, replies, interrupted, cfg.maxRetries)
    ensures var events := |p.sending.value.batch.items|;
            SendFrom(cfg, p, replies, interrupted, 0) ==
            (p.(sending := None),
             match e case Sent => NO_STATS.(sent := events) case Failed => NO_STATS.(flushFailed := events)
                     case Cut => NO_STATS.(shutdown := events),
             n)
  {
    hide ItemIds;
    SendFollows(cfg, p, replies, interrupted, 0, n, e);
  }
}
