/** `eventsBatcher`: one batch in flight, flushed by count, by size or by the window timer. */
module Batching {
  import opened Bytes
  import opened Events

  /** A datagram on its way; `raw` is what the socket delivered, `body` what is left after stripping. */
  datatype Datagram = Datagram(id: nat, raw: bytes, at: int, body: bytes, project: bytes, token: bytes)

  /** An accepted event together with the datagram it came from. */
  datatype Item = Item(dg: Datagram, event: bytes)

  datatype Batch = Batch(items: seq<Item>, startedAt: int, token: bytes)

  const MAX_EVENTS_PER_BATCH := 5000
  const MAX_BATCH_BYTES := 10 * 1024 * 1024

  function EventsOf(items: seq<Item>): (r: seq<bytes>)
    ensures |r| == |items| && forall k :: 0 <= k < |r| ==> r[k] == items[k].event
  {
    seq(|items|, k requires 0 <= k < |items| => items[k].event)
  }

  function ItemsWeight(items: seq<Item>): nat { Weight(EventsOf(items)) }

  lemma ItemsWeightSnoc(items: seq<Item>, it: Item)
    ensures ItemsWeight(items + [it]) == ItemsWeight(items) + |it.event| + 1
  {
    assert EventsOf(items + [it]) == EventsOf(items) + [it.event];
    assert (EventsOf(items) + [it.event])[..|items|] == EventsOf(items);
  }

  /** The last token that any of the datagrams carried. */
  function LastToken(items: seq<Item>): bytes {
    if items == [] then []
    else if items[|items| - 1].dg.token != [] then items[|items| - 1].dg.token
    else LastToken(items[..|items| - 1])
  }

  lemma EmptyBatch()
    ensures ItemsWeight([]) == 0 && LastToken([]) == []
  {
  }

  lemma LastTokenSnoc(items: seq<Item>, it: Item)
    ensures LastToken(items + [it]) == if it.dg.token != [] then it.dg.token else LastToken(items)
  {
    assert (items + [it])[..|items|] == items;
  }

  /** The `j`-th datagram carries the token, and none behind it carries any. */
  predicate LastCarries(items: seq<Item>, j: nat, token: bytes) {
    j < |items| && items[j].dg.token == token && forall i :: j < i < |items| ==> items[i].dg.token == []
  }

  ghost predicate LastCarried(items: seq<Item>, token: bytes) { exists j: nat :: LastCarries(items, j, token) }

  /** A batch carries a token exactly when one of its datagrams does, and then it is the last one's that does. */
  lemma {:induction false} LastTokenOwner(items: seq<Item>)
    ensures LastToken(items) == [] <==> forall it <- items :: it.dg.token == []
    ensures LastToken(items) != [] ==> LastCarried(items, LastToken(items))
    decreases |items|
  {
    if items != [] {
      var n := |items| - 1;
      LastTokenOwner(items[..n]);
      assert items[n] in items;
      assert items == items[..n] + [items[n]];
      if items[n].dg.token != [] {
        assert LastCarries(items, n, LastToken(items));
      } else if LastToken(items) != [] {
        var j: nat :| LastCarries(items[..n], j, LastToken(items));
        assert LastCarries(items, j, LastToken(items));
      }
    }
  }

  predicate Fits(items: seq<Item>) { ItemsWeight(items) <= MAX_BATCH_BYTES || |items| == 1 }

  /** What every batch handed to the flusher satisfies. */
  predicate Sealed(batch: Batch, maxEvents: nat) {
    && 0 < |batch.items| <= maxEvents
    && batch.startedAt == batch.items[0].dg.at
    && batch.token == LastToken(batch.items)
    && Fits(batch.items)
  }

  /** The posted body of a sealed batch: its exact size, and the bound that the byte cap gives. */
  lemma BodySize(batch: Batch, maxEvents: nat)
    requires Sealed(batch, maxEvents)
    ensures var body := Encode(EventsOf(batch.items));
            && |body| == ItemsWeight(batch.items) + 12
            && (|batch.items| > 1 ==> |body| <= MAX_BATCH_BYTES + 12)
            && (|batch.items| == 1 ==> |body| == |batch.items[0].event| + 13)
  {
    EncodeSize(EventsOf(batch.items));
    if |batch.items| == 1 {
      assert batch.items == [] + [batch.items[0]];
      ItemsWeightSnoc([], batch.items[0]);
    }
  }

  // ---------------------------------------------------------------- the open batch

  datatype Collecting = Collecting(items: seq<Item>, firstSeen: int, token: bytes)

  const NO_BATCH := Collecting([], 0, [])

  function Closed(open: Collecting): Batch { Batch(open.items, open.firstSeen, open.token) }

  /** The open batch has events, and one more of this size would take it past the byte cap. */
  predicate Overflows(open: Collecting, event: bytes) {
    open.items != [] && ItemsWeight(open.items) + |event| + 1 > MAX_BATCH_BYTES
  }

  function Extended(open: Collecting, it: Item): Collecting {
    Collecting(open.items + [it], if open.items == [] then it.dg.at else open.firstSeen,
              if it.dg.token != [] then it.dg.token else open.token)
  }

  // ---------------------------------------------------------------- schedules

  /** One turn of the select loop: a datagram arrives (with the clock's rendering), or the timer fires. */
  datatype Tick = Receive(dg: Datagram, stamp: bytes) | TimerFires

  function VerdictOf(std: Std, maxBytes: nat, t: Tick): Verdict
    requires t.Receive?
  {
    Validate(std, t.dg.body, maxBytes, t.stamp)
  }

  /** What one accepted event does: it closes the batch it does not fit into, and its own when that is full. */
  function Appended(maxEvents: nat, open: Collecting, it: Item): (Collecting, seq<Batch>) {
    var before := if Overflows(open, it.event) then [Closed(open)] else [];
    var next := Extended(if Overflows(open, it.event) then NO_BATCH else open, it);
    if |next.items| >= maxEvents then (NO_BATCH, before + [Closed(next)]) else (next, before)
  }

  /** One turn of the loop: the open batch after it, and the batches it closed. */
  function Turn(std: Std, maxBytes: nat, maxEvents: nat, open: Collecting, t: Tick): (Collecting, seq<Batch>) {
    match t
    case TimerFires => if open.items == [] then (open, []) else (NO_BATCH, [Closed(open)])
    case Receive(dg, _) =>
      match VerdictOf(std, maxBytes, t)
      case Accepted(ev) => Appended(maxEvents, open, Item(dg, ev))
      case _ => (open, [])
  }

  /** The open batch and the batches closed after a whole schedule. */
  function Replay(std: Std, maxBytes: nat, maxEvents: nat, ticks: seq<Tick>): (Collecting, seq<Batch>) {
    if ticks == [] then (NO_BATCH, [])
    else
      var (open, done) := Replay(std, maxBytes, maxEvents, ticks[..|ticks| - 1]);
      var (next, more) := Turn(std, maxBytes, maxEvents, open, ticks[|ticks| - 1]);
      (next, done + more)
  }

  lemma ReplaySnoc(std: Std, maxBytes: nat, maxEvents: nat, ticks: seq<Tick>, t: Tick)
    ensures var r := Replay(std, maxBytes, maxEvents, ticks);
            var (next, more) := Turn(std, maxBytes, maxEvents, r.0, t);
            Replay(std, maxBytes, maxEvents, ticks + [t]) == (next, r.1 + more)
  {
    hide Turn;
    assert (ticks + [t])[..|ticks|] == ticks;
  }

  /** Why a batch is closed at a turn: the timer, its number of events, or the size of the event that follows. */
  predicate Due(std: Std, maxBytes: nat, maxEvents: nat, t: Tick, b: Batch) {
    || t.TimerFires?
    || |b.items| >= maxEvents
    || (VerdictOf(std, maxBytes, t).Accepted?
        && ItemsWeight(b.items) + |VerdictOf(std, maxBytes, t).event| + 1 > MAX_BATCH_BYTES)
  }

  lemma TurnDue(std: Std, maxBytes: nat, maxEvents: nat, open: Collecting, t: Tick)
    ensures var (next, more) := Turn(std, maxBytes, maxEvents, open, t);
            && (forall b <- more :: b.items != [] && Due(std, maxBytes, maxEvents, t, b))
            && (t.TimerFires? ==> next.items == [])
  {
    hide VerdictOf, ItemsWeight;
  }

  /** No batch is closed before it must be: every batch that a turn of a schedule closes is closed by the timer, or
      has as many events as a batch may have, or has no room for the event that arrives in that turn. */
  lemma ClosedWhenDue(std: Std, maxBytes: nat, maxEvents: nat, ticks: seq<Tick>, i: nat)
    requires i < |ticks|
    ensures var was := Replay(std, maxBytes, maxEvents, ticks[..i]).1;
            var now := Replay(std, maxBytes, maxEvents, ticks[..i + 1]).1;
            && |was| <= |now| && now[..|was|] == was
            && forall k :: |was| <= k < |now| ==> Due(std, maxBytes, maxEvents, ticks[i], now[k])
  {
    hide Turn, Due, Replay;
    var r := Replay(std, maxBytes, maxEvents, ticks[..i]);
    assert ticks[..i + 1] == ticks[..i] + [ticks[i]];
    ReplaySnoc(std, maxBytes, maxEvents, ticks[..i], ticks[i]);
    TurnDue(std, maxBytes, maxEvents, r.0, ticks[i]);
    var more := Turn(std, maxBytes, maxEvents, r.0, ticks[i]).1;
    forall k | |r.1| <= k < |r.1 + more| ensures Due(std, maxBytes, maxEvents, ticks[i], (r.1 + more)[k]) {
      assert (r.1 + more)[k] in more;
    }
  }

  /** The accepted events of a schedule, in order of arrival. */
  function AcceptedOf(std: Std, maxBytes: nat, ticks: seq<Tick>): seq<Item> {
    if ticks == [] then []
    else
      var init, t := ticks[..|ticks| - 1], ticks[|ticks| - 1];
      AcceptedOf(std, maxBytes, init) +
      if t.Receive? && VerdictOf(std, maxBytes, t).Accepted? then [Item(t.dg, VerdictOf(std, maxBytes, t).event)]
         else []
  }

  function CountOf(std: Std, maxBytes: nat, ticks: seq<Tick>, v: Verdict): nat {
    if ticks == [] then 0
    else
      var init, t := ticks[..|ticks| - 1], ticks[|ticks| - 1];
      CountOf(std, maxBytes, init, v) + if t.Receive? && VerdictOf(std, maxBytes, t) == v then 1 else 0
  }

  lemma TickSnoc(std: Std, maxBytes: nat, ticks: seq<Tick>, t: Tick)
    ensures AcceptedOf(std, maxBytes, ticks + [t]) == AcceptedOf(std, maxBytes, ticks) +
              if t.Receive? && VerdictOf(std, maxBytes, t).Accepted?
                 then [Item(t.dg, VerdictOf(std, maxBytes, t).event)] else []
    ensures forall v :: CountOf(std, maxBytes, ticks + [t], v) ==
              CountOf(std, maxBytes, ticks, v) + if t.Receive? && VerdictOf(std, maxBytes, t) == v then 1 else 0
  {
    hide VerdictOf;
    assert (ticks + [t])[..|ticks|] == ticks;
  }

  /** A flushed batch and whether the flusher took it (otherwise it was abandoned at shutdown). */
  datatype Flushed = Flushed(batch: Batch, taken: bool)

  function ItemsIn(log: seq<Flushed>): seq<Item> {
    if log == [] then [] else ItemsIn(log[..|log| - 1]) + log[|log| - 1].batch.items
  }

  function TakenIn(log: seq<Flushed>): seq<Batch> {
    if log == [] then []
    else TakenIn(log[..|log| - 1]) + if log[|log| - 1].taken then [log[|log| - 1].batch] else []
  }

  function AbandonedIn(log: seq<Flushed>): nat {
    if log == [] then 0
    else AbandonedIn(log[..|log| - 1]) + if log[|log| - 1].taken then 0 else |log[|log| - 1].batch.items|
  }

  function BatchesIn(log: seq<Flushed>): seq<Batch> {
    if log == [] then [] else BatchesIn(log[..|log| - 1]) + [log[|log| - 1].batch]
  }

  lemma LogSnoc(log: seq<Flushed>, f: Flushed)
    ensures ItemsIn(log + [f]) == ItemsIn(log) + f.batch.items && BatchesIn(log + [f]) == BatchesIn(log) + [f.batch]
    ensures TakenIn(log + [f]) == TakenIn(log) + if f.taken then [f.batch] else []
    ensures AbandonedIn(log + [f]) == AbandonedIn(log) + if f.taken then 0 else |f.batch.items|
  {
    assert (log + [f])[..|log|] == log;
  }

  // ---------------------------------------------------------------- the batcher

  /** One level of counters; the batcher bumps the process-wide and the per-project set alike. */
  class Counters {
    var received: nat
    var oversize: nat
    var parseError: nat
    var shutdown: nat

    constructor ()
      ensures received == 0 && oversize == 0 && parseError == 0 && shutdown == 0
    {
      received, oversize, parseError, shutdown := 0, 0, 0, 0;
    }
  }

  class Batcher {
    const std: Std
    const maxEvents: nat
    const maxEventBytes: nat
    const stats: Counters
    const pipelineStats: Counters
    /** Whether the k-th flush finds the context done instead of room in the channel. */
    const cancelled: nat -> bool

    var cur: seq<Item>
    var curBytes: nat
    var curToken: bytes
    var firstSeen: int
    var timerArmed: bool
    var out: seq<Batch>
    var flushes: nat

    ghost var log: seq<Flushed>

    constructor (std: Std, maxEvents: int, maxEventBytes: nat, cancelled: nat -> bool)
      ensures fresh(stats) && fresh(pipelineStats) && Ready() && cur == [] && log == [] && flushes == 0
      ensures this.std == std && this.maxEventBytes == maxEventBytes && this.cancelled == cancelled
      ensures this.maxEvents == if 0 < maxEvents <= MAX_EVENTS_PER_BATCH then maxEvents else MAX_EVENTS_PER_BATCH
      ensures Tallied([]) && Replayed([])
    {
      this.std := std;
      this.maxEvents := if maxEvents <= 0 || maxEvents > MAX_EVENTS_PER_BATCH then MAX_EVENTS_PER_BATCH else maxEvents;
      this.maxEventBytes := maxEventBytes;
      this.cancelled := cancelled;
      this.stats := new Counters();
      this.pipelineStats := new Counters();
      cur, curBytes, curToken, firstSeen, timerArmed, out, flushes := [], 0, [], 0, false, [], 0;
      log := [];
    }

    /** The fields describe the open batch, and the log describes everything flushed so far. */
    ghost predicate Valid()
      reads this, stats, pipelineStats
    {
      && stats != pipelineStats && maxEvents > 0
      && curBytes == ItemsWeight(cur) && curToken == LastToken(cur)
      && (if cur == [] then firstSeen == 0 else firstSeen == cur[0].dg.at) && |cur| <= maxEvents
         && (cur == [] || Fits(cur))
      && flushes == |log| && out == TakenIn(log)
      && (forall k :: 0 <= k < |log| ==> Sealed(log[k].batch, maxEvents) && log[k].taken == !cancelled(k))
      && stats.shutdown == pipelineStats.shutdown == AbandonedIn(log)
    }

    /** The state at the head of the select loop: there is room for an event, and the timer is armed
        exactly when a batch is open. */
    ghost predicate Ready()
      reads this, stats, pipelineStats
    {
      Valid() && |cur| < maxEvents && (timerArmed <==> cur != [])
    }

    ghost function Open(): Collecting
      reads this
    {
      Collecting(cur, firstSeen, curToken)
    }

    /** The open batch and the flushed ones are those of the schedule. */
    ghost predicate Replayed(ticks: seq<Tick>)
      reads this
    {
      (Open(), BatchesIn(log)) == Replay(std, maxEventBytes, maxEvents, ticks)
    }

    /** The open batch and the flushed ones hold exactly the accepted events of `ticks`, in order, and
        both counter sets tell how many datagrams met which verdict. */
    ghost predicate Tallied(ticks: seq<Tick>)
      reads this, stats, pipelineStats
    {
      && ItemsIn(log) + cur == AcceptedOf(std, maxEventBytes, ticks)
      && pipelineStats.received == |AcceptedOf(std, maxEventBytes, ticks)|
      && stats.oversize == pipelineStats.oversize == CountOf(std, maxEventBytes, ticks, Oversize)
      && stats.parseError == pipelineStats.parseError == CountOf(std, maxEventBytes, ticks, ParseError)
    }

    method Flush()
      requires Valid()
      modifies this`cur, this`curBytes, this`curToken, this`firstSeen, this`out, this`flushes, this`log,
               stats`shutdown, pipelineStats`shutdown
      ensures Valid() && cur == []
      ensures log == if old(cur) == [] then old(log)
                     else old(log) + [Flushed(Batch(old(cur), old(firstSeen), old(curToken)), !cancelled(old(flushes)))]
      ensures ItemsIn(log) == ItemsIn(old(log)) + old(cur)
      ensures Open() == NO_BATCH && BatchesIn(log) == BatchesIn(old(log)) + if old(cur) == [] then []
              else [Closed(old(Open()))]
    {
      hide ItemsWeight, LastToken, TakenIn, AbandonedIn, ItemsIn, BatchesIn;
      EmptyBatch();
      if |cur| == 0 {
        assert ItemsIn(log) + [] == ItemsIn(log) && BatchesIn(log) + [] == BatchesIn(log);
        return;
      }
      var batch := Batch(cur, firstSeen, curToken);
      var taken := !cancelled(flushes);
      cur, curBytes, curToken, firstSeen := [], 0, [], 0;
      if taken {
        out := out + [batch];
      } else {
        stats.shutdown := stats.shutdown + |batch.items|;
        pipelineStats.shutdown := pipelineStats.shutdown + |batch.items|;
      }
      flushes := flushes + 1;
      LogSnoc(log, Flushed(batch, taken));
      log := log + [Flushed(batch, taken)];
    }

    /** One datagram off the channel. */
    method Take(dg: Datagram, stamp: bytes, ghost seen: seq<Tick>)
      requires Ready() && Tallied(seen) && Replayed(seen)
      modifies this, stats, pipelineStats
      ensures Ready() && Tallied(seen + [Receive(dg, stamp)]) && Replayed(seen + [Receive(dg, stamp)])
    {
      hide LastToken, TakenIn, AbandonedIn, ItemsIn, BatchesIn, Sealed, ItemsWeight, AcceptedOf, CountOf, Validate,
        Appended, Replay;
      TickSnoc(std, maxEventBytes, seen, Receive(dg, stamp));
      ReplaySnoc(std, maxEventBytes, maxEvents, seen, Receive(dg, stamp));
      assert BatchesIn(log) + [] == BatchesIn(log);
      var v := ValidateEvent(std, dg.body, maxEventBytes, stamp);
      match v
      case Oversize =>
        stats.oversize := stats.oversize + 1;
        pipelineStats.oversize := pipelineStats.oversize + 1;
      case ParseError =>
        stats.parseError := stats.parseError + 1;
        pipelineStats.parseError := pipelineStats.parseError + 1;
      case Accepted(ev) =>
        pipelineStats.received := pipelineStats.received + 1;
        Append(Item(dg, ev));
    }

    /** The event joins the open batch, which has room for it. */
    method Join(it: Item)
      requires Valid() && |cur| < maxEvents && (cur == [] || curBytes + |it.event| + 1 <= MAX_BATCH_BYTES)
      modifies this`cur, this`curBytes, this`curToken, this`firstSeen, this`timerArmed
      ensures Valid() && cur == old(cur) + [it] && Open() == Extended(old(Open()), it)
      ensures timerArmed == (old(timerArmed) || old(cur) == [])
    {
      hide LastToken, TakenIn, AbandonedIn, Sealed, ItemsWeight;
      if |cur| == 0 {
        firstSeen := it.dg.at;
        timerArmed := true;
      }
      ItemsWeightSnoc(cur, it);
      LastTokenSnoc(cur, it);
      cur := cur + [it];
      curBytes := curBytes + |it.event| + 1;
      if it.dg.token != [] {
        curToken := it.dg.token;
      }
    }

    /** Adds an accepted event, flushing before it when it would not fit and after it when the batch is full. */
    method Append(it: Item)
      requires Ready()
      modifies this, stats`shutdown, pipelineStats`shutdown
      ensures Ready() && ItemsIn(log) + cur == old(ItemsIn(log) + cur) + [it]
      ensures var (open, closed) := Appended(maxEvents, old(Open()), it);
              Open() == open && BatchesIn(log) == old(BatchesIn(log)) + closed
      ensures var room := old(cur) == [] || old(curBytes) + |it.event| + 1 <= MAX_BATCH_BYTES;
              var grown := (if room then old(cur) else []) + [it];
              && cur == (if |grown| < maxEvents then grown else [])
              && (room && |grown| < maxEvents ==> log == old(log))
              && (room && |grown| >= maxEvents ==>
                    |log| == |old(log)| + 1 && log[..|old(log)|] == old(log) && log[|old(log)|].batch.items == grown)
              && (!room && |grown| < maxEvents ==>
                    |log| == |old(log)| + 1 && log[..|old(log)|] == old(log) && log[|old(log)|].batch.items == old(cur))
    {
      hide LastToken, TakenIn, AbandonedIn, ItemsIn, BatchesIn, Sealed, ItemsWeight, Closed, Extended;
      if |cur| > 0 && curBytes + |it.event| + 1 > MAX_BATCH_BYTES {
        Flush();
        timerArmed := false;
      }
      Associative(ItemsIn(log), cur, [it]);
      Join(it);
      if |cur| >= maxEvents {
        Flush();
        timerArmed := false;
      }
    }

    /** The window timer fires; a disarmed timer's channel is nil and never does. */
    method Fire(ghost seen: seq<Tick>)
      requires Ready() && Tallied(seen) && Replayed(seen)
      modifies this, stats`shutdown, pipelineStats`shutdown
      ensures Ready() && Tallied(seen + [TimerFires]) && Replayed(seen + [TimerFires])
    {
      hide LastToken, TakenIn, AbandonedIn, ItemsIn, BatchesIn, Sealed, ItemsWeight, AcceptedOf, CountOf, Replay;
      TickSnoc(std, maxEventBytes, seen, TimerFires);
      ReplaySnoc(std, maxEventBytes, maxEvents, seen, TimerFires);
      assert BatchesIn(log) + [] == BatchesIn(log);
      if timerArmed {
        Flush();
        timerArmed := false;
        assert ItemsIn(log) + [] == ItemsIn(log);
      }
    }

    /** The whole loop until the channel is closed: the batches closed are those of the schedule, and
        then the one still open, if any. */
    method Run(ticks: seq<Tick>)
      requires Ready() && Tallied([]) && Replayed([])
      modifies this, stats, pipelineStats
      ensures Valid() && cur == [] && Tallied(ticks)
      ensures var (open, closed) := Replay(std, maxEventBytes, maxEvents, ticks);
              BatchesIn(log) == closed + if open.items == [] then [] else [Closed(open)]
    {
      hide LastToken, TakenIn, AbandonedIn, ItemsIn, BatchesIn, Sealed, ItemsWeight, AcceptedOf, CountOf, Replay;
      for i := 0 to |ticks|
        invariant Ready() && Tallied(ticks[..i]) && Replayed(ticks[..i])
      {
        assert ticks[..i + 1] == ticks[..i] + [ticks[i]];
        match ticks[i]
        case Receive(dg, stamp) => Take(dg, stamp, ticks[..i]);
        case TimerFires => Fire(ticks[..i]);
      }
      assert ticks[..|ticks|] == ticks;
      Flush();
      assert ItemsIn(log) + [] == ItemsIn(log);
    }
  }
}
